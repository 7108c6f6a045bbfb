/** The hotel calendar view: the reservations of one month, each listed
    under every day from its check-in through its check-out. Dates are
    compared field by field, the order of their zero-padded "YYYY-MM-DD"
    strings. */
module HotelCalendar {
  import opened Common
  import opened HotelModels

  predicate DateLe(a: Date, b: Date) {
    a.year < b.year || (a.year == b.year && (a.month < b.month || (a.month == b.month && a.day <= b.day)))
  }

  predicate DateLt(a: Date, b: Date) {
    DateLe(a, b) && a != b
  }

  /** The last date Python can represent; the day after it overflows. */
  const MaxDate := Date(9999, 12, 31)

  /** `d + timedelta(days=1)`. */
  function NextDay(d: Date): (r: Date)
    requires ValidDate(d) && d != MaxDate
    ensures ValidDate(r) && DateLt(d, r)
    ensures forall e | ValidDate(e) :: DateLt(e, r) <==> DateLe(e, d)
  {
    if d.day < DaysInMonth(d.year, d.month) then Date(d.year, d.month, d.day + 1)
    else if d.month < 12 then Date(d.year, d.month + 1, 1)
    else Date(d.year + 1, 1, 1)
  }

  datatype YearMonth = YearMonth(year: int, month: int)

  function MonthStart(ym: YearMonth): Date {
    Date(ym.year, ym.month, 1)
  }

  function MonthEnd(ym: YearMonth): Date
    requires 1 <= ym.month <= 12
  {
    Date(ym.year, ym.month, DaysInMonth(ym.year, ym.month))
  }

  /** The query's overlap test: checked in by the window's end and checked
      out no earlier than its start. */
  predicate Overlaps(r: HotelReservation, from: Date, to: Date) {
    DateLe(r.checkin, to) && DateLe(from, r.checkout)
  }

  /** The calendar query: the company's reservations overlapping the
      window, of one hotel when a non-empty hotel id is given (an empty id
      is falsy and adds no filter), in natural order, at most 1000. */
  function MonthQuery(stored: seq<HotelReservation>, company: Id, hotel: Option<Id>, from: Date, to: Date): seq<HotelReservation> {
    Take(Filter(stored, (r: HotelReservation) =>
      r.company == company && Overlaps(r, from, to) && (!Truthy(hotel) || r.hotelId == hotel.value)), 1000)
  }

  /** The reservation occupies day `d`, check-in and check-out included. */
  predicate Covers(r: HotelReservation, d: Date) {
    DateLe(r.checkin, d) && DateLe(d, r.checkout)
  }

  /** Reference definition of one day's list: the reservations covering
      it, in query order. */
  function Bucket(rs: seq<HotelReservation>, d: Date): seq<HotelReservation> {
    Filter(rs, (r: HotelReservation) => Covers(r, d))
  }

  /** A reservation the day loop can walk without an exception: both dates
      parse, and the walk does not step past the last representable day. */
  predicate Walkable(r: HotelReservation) {
    ValidDate(r.checkin) && ValidDate(r.checkout) && !(DateLe(r.checkin, r.checkout) && r.checkout == MaxDate)
  }

  datatype CalendarResult =
    | CalendarOk(calendar: map<Date, seq<HotelReservation>>, month: YearMonth)
    | CalendarError(code: int)

  /** `get_hotel_calendar`: `stored` is the reservation collection in its
      natural order and `today` the current month, used when no month is
      given; `hotel` filters by hotel only when it is present and
      non-empty. A month outside 1..12, or a reservation the day loop
      cannot walk, ends in a server error. */
  method GetHotelCalendar(stored: seq<HotelReservation>, company: Id, month: Option<YearMonth>,
                          hotel: Option<Id>, today: YearMonth) returns (result: CalendarResult)
    ensures var ym := month.GetOr(today);
      && (!(1 <= ym.month <= 12) ==> result == CalendarError(500))
      && (1 <= ym.month <= 12 ==>
            var rs := MonthQuery(stored, company, hotel, MonthStart(ym), MonthEnd(ym));
            && (result.CalendarOk? <==> forall r | r in rs :: Walkable(r))
            && (result.CalendarError? ==> result.code == 500)
            && (result.CalendarOk? ==> result.month == ym && Lists(result.calendar, rs)))
  {
    var ym := month.GetOr(today);
    if !(1 <= ym.month <= 12) {
      return CalendarError(500);
    }
    var rs := MonthQuery(stored, company, hotel, MonthStart(ym), MonthEnd(ym));
    var ok, calendar := FillCalendar(rs);
    if !ok {
      return CalendarError(500);
    }
    result := CalendarOk(calendar, ym);
  }

  /** The loop over the month's reservations: each is walked day by day
      into the calendar. It stops at the first reservation whose dates do
      not parse or whose walk overflows. */
  method FillCalendar(rs: seq<HotelReservation>) returns (ok: bool, calendar: map<Date, seq<HotelReservation>>)
    ensures ok <==> forall r | r in rs :: Walkable(r)
    ensures ok ==> Lists(calendar, rs)
  {
    calendar := map[];
    var i := 0;
    while i < |rs|
      invariant 0 <= i <= |rs|
      invariant forall j | 0 <= j < i :: Walkable(rs[j])
      invariant Lists(calendar, rs[..i])
    {
      var r := rs[i];
      if !ValidDate(r.checkin) || !ValidDate(r.checkout) {
        assert r in rs && !Walkable(r);
        return false, calendar;
      }
      assert rs[..i + 1] == rs[..i] + [r];
      ok, calendar := AddStay(calendar, rs[..i], r, rs[..i + 1]);
      if !ok {
        assert r in rs;
        return;
      }
      i := i + 1;
    }
    assert rs[..|rs|] == rs;
    ok := true;
  }

  /** `calendar` lists, under every valid day, the reservations of `done`
      that cover it, and has no other keys. */
  ghost predicate Lists(calendar: map<Date, seq<HotelReservation>>, done: seq<HotelReservation>) {
    && (forall d :: d in calendar <==> ValidDate(d) && Bucket(done, d) != [])
    && (forall d | d in calendar :: calendar[d] == Bucket(done, d))
  }

  /** The day loop for one reservation: it appends the reservation to the
      list of every day from check-in through check-out. It reports failure
      when the walk would step past the last representable day. */
  method AddStay(calendar: map<Date, seq<HotelReservation>>, done: seq<HotelReservation>, r: HotelReservation,
                 ghost next: seq<HotelReservation>)
    returns (ok: bool, cal: map<Date, seq<HotelReservation>>)
    requires ValidDate(r.checkin) && ValidDate(r.checkout)
    requires Lists(calendar, done) && next == done + [r]
    ensures ok <==> Walkable(r)
    ensures ok ==> Lists(cal, next)
  {
    cal := calendar;
    var current := r.checkin;
    while DateLe(current, r.checkout)
      invariant ValidDate(current) && DateLe(r.checkin, current)
      invariant ListsBefore(cal, done, r, current)
      decreases r.checkout.year - current.year, 12 - current.month, 31 - current.day
    {
      if current == MaxDate {
        assert r.checkout == MaxDate && DateLe(r.checkin, r.checkout);
        return false, cal[current := (if current in cal then cal[current] else []) + [r]];
      }
      ListsBeforeStep(cal, done, r, current);
      cal := cal[current := (if current in cal then cal[current] else []) + [r]];
      current := NextDay(current);
    }
    ListsBeforeDone(cal, done, r, current);
    ok := true;
  }

  /** Midway through the day loop: the days of `r` before `current` have
      received it. */
  ghost predicate ListsBefore(cal: map<Date, seq<HotelReservation>>, done: seq<HotelReservation>,
                              r: HotelReservation, current: Date) {
    && (forall d :: d in cal <==> ValidDate(d) && (Bucket(done, d) != [] || (Covers(r, d) && DateLt(d, current))))
    && (forall d | d in cal :: cal[d] == Bucket(done, d) + (if Covers(r, d) && DateLt(d, current) then [r] else []))
  }

  lemma ListsBeforeStep(cal: map<Date, seq<HotelReservation>>, done: seq<HotelReservation>,
                        r: HotelReservation, current: Date)
    requires ValidDate(current) && current != MaxDate
    requires DateLe(r.checkin, current) && DateLe(current, r.checkout)
    requires ListsBefore(cal, done, r, current)
    ensures ListsBefore(cal[current := (if current in cal then cal[current] else []) + [r]], done, r, NextDay(current))
  {
    var next := NextDay(current);
    var cal1 := cal[current := (if current in cal then cal[current] else []) + [r]];
    forall d ensures d in cal1 <==> ValidDate(d) && (Bucket(done, d) != [] || (Covers(r, d) && DateLt(d, next))) {
      if ValidDate(d) {
        assert DateLt(d, next) <==> DateLe(d, current);
      }
    }
    forall d | d in cal1 ensures cal1[d] == Bucket(done, d) + (if Covers(r, d) && DateLt(d, next) then [r] else []) {
      assert DateLt(d, next) <==> DateLe(d, current);
    }
  }

  lemma ListsBeforeDone(cal: map<Date, seq<HotelReservation>>, done: seq<HotelReservation>,
                        r: HotelReservation, current: Date)
    requires !DateLe(current, r.checkout)
    requires ListsBefore(cal, done, r, current)
    ensures Lists(cal, done + [r])
  {
    forall d: Date ensures Bucket(done + [r], d) == Bucket(done, d) + (if Covers(r, d) then [r] else []) {
      FilterSnoc(done, r, (x: HotelReservation) => Covers(x, d));
    }
    forall d: Date ensures Covers(r, d) && DateLt(d, current) <==> Covers(r, d) {
    }
  }

  // ---------------------------------------------------------------------
  // Properties
  // ---------------------------------------------------------------------

  /** The month window runs from day 1 to the month's last day: the valid
      dates inside it are exactly the dates of that month. */
  lemma MonthWindow(ym: YearMonth, d: Date)
    requires 1 <= ym.month <= 12 && 1 <= ym.year <= 9999
    requires ValidDate(d)
    ensures ValidDate(MonthStart(ym)) && ValidDate(MonthEnd(ym))
    ensures DateLe(MonthStart(ym), d) && DateLe(d, MonthEnd(ym)) <==> d.year == ym.year && d.month == ym.month
  {
  }

  /** The overlap query keeps exactly the reservations that occupy some day
      of the month. */
  lemma OverlapMeansSharedDay(r: HotelReservation, ym: YearMonth)
    requires 1 <= ym.month <= 12 && 1 <= ym.year <= 9999
    requires ValidDate(r.checkin) && ValidDate(r.checkout) && DateLe(r.checkin, r.checkout)
    ensures Overlaps(r, MonthStart(ym), MonthEnd(ym)) <==>
      exists d :: ValidDate(d) && d.year == ym.year && d.month == ym.month && Covers(r, d)
  {
    var from, to := MonthStart(ym), MonthEnd(ym);
    if Overlaps(r, from, to) {
      var d := if DateLe(from, r.checkin) then r.checkin else from;
      assert ValidDate(d) && d.year == ym.year && d.month == ym.month && Covers(r, d);
    }
  }

  /** Leap years follow the Gregorian rule. */
  lemma FebruaryLengths()
    ensures DaysInMonth(2024, 2) == 29 && DaysInMonth(2023, 2) == 28
    ensures DaysInMonth(1900, 2) == 28 && DaysInMonth(2000, 2) == 29
  {
  }

  /** A reservation from 30 January to 2 February lists itself under four
      days, across the month boundary, and under no day outside its stay. */
  lemma StayAcrossMonths(r: HotelReservation, company: Id)
    requires r.company == company && r.checkin == Date(2025, 1, 30) && r.checkout == Date(2025, 2, 2)
    ensures Bucket([r], Date(2025, 1, 31)) == [r] && Bucket([r], Date(2025, 2, 1)) == [r]
    ensures Bucket([r], Date(2025, 2, 3)) == [] && Bucket([r], Date(2025, 1, 29)) == []
    ensures MonthQuery([r], company, None, MonthStart(YearMonth(2025, 2)), MonthEnd(YearMonth(2025, 2))) == [r]
  {
    assert Filter([r], (x: HotelReservation) => Covers(x, Date(2025, 2, 3))) == [];
    assert Filter([r], (x: HotelReservation) => Covers(x, Date(2025, 1, 29))) == [];
  }
}
