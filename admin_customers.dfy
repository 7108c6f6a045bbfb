/** The system administrator's customer list: each customer company's
    licence status from its remaining days, the colour the remaining days
    are shown in, and the search and start-date filter over the fetched
    list. */
module AdminCustomers {
  import opened Common

  // ---------------------------------------------------------------------
  // Licence status
  // ---------------------------------------------------------------------

  /** The `remaining_days` field as the server sends it: left out, null,
      or a number. */
  datatype DaysField = Undefined | NullDays | DaysValue(n: int)

  /** The customer fields the list reads. */
  datatype Customer = Customer(
    id: string,
    companyName: Option<string>,
    companyCode: Option<string>,
    email: Option<string>,
    ownerUsername: Option<string>,
    packageStartDate: Option<string>,
    packageEndDate: Option<string>,
    remainingDays: DaysField,
    status: Option<string>)

  /** The remaining days shown: the server's value when it sent the field
      (null included), otherwise the days to the end date when there is
      one, otherwise none. `daysUntil` is the rounded-up day count from
      the present moment to an end date. */
  function RemainingDays(c: Customer, daysUntil: string -> int): (d: Option<int>)
    ensures c.remainingDays.DaysValue? ==> d == Some(c.remainingDays.n)
    ensures c.remainingDays.NullDays? ==> d.None?
    ensures c.remainingDays.Undefined? ==> (d.Some? <==> Truthy(c.packageEndDate))
  {
    match c.remainingDays
    case DaysValue(n) => Some(n)
    case NullDays => None
    case Undefined => if Truthy(c.packageEndDate) then Some(daysUntil(c.packageEndDate.value)) else None
  }

  /** The status computed from the remaining days. */
  function Classify(days: Option<int>): (status: string)
    ensures status == "unknown" <==> days.None?
    ensures days.Some? && days.value < 0 ==> status == "expired"
    ensures days.Some? && days.value > 90 ==> status == "active"
  {
    if days.None? then "unknown"
    else if days.value < 0 then "expired"
    else if days.value <= 30 then "expiring_1_month"
    else if days.value <= 90 then "expiring_3_months"
    else "active"
  }

  /** The status shown on a row: the server's status when it sent a
      non-empty one, otherwise the computed one. */
  function RowStatus(c: Customer, days: Option<int>): (s: string)
    ensures Truthy(c.status) ==> s == c.status.value
    ensures !Truthy(c.status) ==> s == Classify(days)
  {
    if Truthy(c.status) then c.status.value else Classify(days)
  }

  /** How far a licence is from expiry: lower is more urgent. */
  function Urgency(status: string): nat {
    if status == "expired" then 0
    else if status == "expiring_1_month" then 1
    else if status == "expiring_3_months" then 2
    else 3
  }

  /** The computed status is one of the five, is "unknown" exactly when
      there is no day count, and each band is the one its thresholds name. */
  lemma ClassifyBands(days: Option<int>)
    ensures Classify(days) in {"unknown", "expired", "expiring_1_month", "expiring_3_months", "active"}
    ensures Classify(days) == "unknown" <==> days.None?
    ensures days.Some? ==>
      && (Classify(days) == "expired" <==> days.value < 0)
      && (Classify(days) == "expiring_1_month" <==> 0 <= days.value <= 30)
      && (Classify(days) == "expiring_3_months" <==> 30 < days.value <= 90)
      && (Classify(days) == "active" <==> 90 < days.value)
  {
  }

  /** More remaining days never make the status more urgent. */
  lemma ClassifyMonotone(d1: int, d2: int)
    requires d1 <= d2
    ensures Urgency(Classify(Some(d1))) <= Urgency(Classify(Some(d2)))
  {
  }

  // ---------------------------------------------------------------------
  // Colour of the remaining days
  // ---------------------------------------------------------------------

  /** The text colours: red, yellow, orange and green. */
  datatype Colour = Red | Yellow | Orange | Green {
    function Rank(): nat {
      match this
      case Red => 0
      case Yellow => 1
      case Orange => 2
      case Green => 3
    }
  }

  /** `getRemainingDaysColor`: the first band that either the status or
      the day count falls in. */
  function DaysColour(days: int, status: string): (c: Colour)
    ensures c == Red <==> status == "expired" || days < 0
    ensures c == Green <==> days > 90 && status != "expired" && status != "expiring_1_month" && status != "expiring_3_months"
  {
    if status == "expired" || days < 0 then Red
    else if status == "expiring_1_month" || days <= 30 then Yellow
    else if status == "expiring_3_months" || days <= 90 then Orange
    else Green
  }

  /** The colour of a band on its own. */
  function BandColour(u: nat): Colour
    requires u <= 3
  {
    if u == 0 then Red else if u == 1 then Yellow else if u == 2 then Orange else Green
  }

  /** The colour is the more urgent of what the status says and what the
      day count says; with the computed status both agree, so the colour
      follows the status band exactly. */
  lemma ColourIsMoreUrgent(days: int, status: string)
    ensures DaysColour(days, status).Rank() == Min(Urgency(status), Urgency(Classify(Some(days))))
    ensures DaysColour(days, Classify(Some(days))) == BandColour(Urgency(Classify(Some(days))))
  {
  }

  /** The text of the remaining-days cell. */
  function DaysCell(days: Option<int>): (t: string)
    ensures days.None? ==> t == "-"
    ensures days.Some? && days.value > 0 ==> t == NatToString(days.value) + " gün"
    ensures days.Some? && days.value <= 0 ==> t == "Süresi dolmuş"
  {
    if days.None? then "-"
    else if days.value > 0 then NatToString(days.value) + " gün"
    else "Süresi dolmuş"
  }

  /** On its last day a licence is shown as already expired ("Süresi
      dolmuş") while its status and colour still say it expires within a
      month. */
  lemma LastDayShownExpired()
    ensures DaysCell(Some(0)) == "Süresi dolmuş"
    ensures Classify(Some(0)) == "expiring_1_month" && DaysColour(0, Classify(Some(0))) == Yellow
  {
  }

  // ---------------------------------------------------------------------
  // Search and date filter
  // ---------------------------------------------------------------------

  /** The lowered query occurs in the name, the code, the e-mail or the
      owner's user name (a missing field counts as ""). */
  predicate SearchHit(c: Customer, query: string) {
    || Contains(Lower(c.companyName.GetOr("")), query)
    || Contains(Lower(c.companyCode.GetOr("")), query)
    || Contains(Lower(c.email.GetOr("")), query)
    || Contains(Lower(c.ownerUsername.GetOr("")), query)
  }

  predicate StartsOnOrAfter(c: Customer, dateFrom: string) {
    Truthy(c.packageStartDate) && StrLe(dateFrom, c.packageStartDate.value)
  }

  predicate StartsOnOrBefore(c: Customer, dateTo: string) {
    Truthy(c.packageStartDate) && StrLe(c.packageStartDate.value, dateTo)
  }

  /** Whether a customer is listed: all three filters at once. */
  predicate Listed(c: Customer, searchQuery: string, dateFrom: string, dateTo: string) {
    && (IsBlank(searchQuery) || SearchHit(c, Lower(searchQuery)))
    && (dateFrom == "" || StartsOnOrAfter(c, dateFrom))
    && (dateTo == "" || StartsOnOrBefore(c, dateTo))
  }

  /** The listed customers, in their fetched order. */
  function FilterCustomers(cs: seq<Customer>, searchQuery: string, dateFrom: string, dateTo: string): (r: seq<Customer>)
    ensures forall c :: c in r <==> c in cs && Listed(c, searchQuery, dateFrom, dateTo)
    ensures Subseq(r, cs)
  {
    Filter(cs, c => Listed(c, searchQuery, dateFrom, dateTo))
  }

  /** Two filters in a row keep what both conditions keep. */
  lemma {:induction false} FilterFilter(s: seq<Customer>, p: Customer -> bool, q: Customer -> bool, pq: Customer -> bool)
    requires forall x :: pq(x) == (p(x) && q(x))
    ensures Filter(Filter(s, p), q) == Filter(s, pq)
  {
    if s != [] {
      FilterFilter(s[1..], p, q, pq);
      if p(s[0]) {
        assert Filter(s, p)[1..] == Filter(s[1..], p);
      }
    }
  }

  /** Filters with the same condition agree. */
  lemma {:induction false} FilterSame(s: seq<Customer>, p: Customer -> bool, q: Customer -> bool)
    requires forall x :: p(x) == q(x)
    ensures Filter(s, p) == Filter(s, q)
  {
    if s != [] {
      FilterSame(s[1..], p, q);
    }
  }

  /** One step of the effect: a list already narrowed by `keep`, filtered
      by `p` only when `cond` holds, is the base narrowed by both. */
  lemma FilterStep(base: seq<Customer>, s: seq<Customer>, keep: Customer -> bool, cond: bool, p: Customer -> bool, both: Customer -> bool)
    requires s == Filter(base, keep)
    requires forall x :: both(x) == (keep(x) && (!cond || p(x)))
    ensures (if cond then Filter(s, p) else s) == Filter(base, both)
  {
    if cond {
      FilterFilter(base, keep, p, both);
    } else {
      FilterSame(base, keep, both);
    }
  }

  /** A customer is listed exactly when it was fetched and passes all
      three filters; the list keeps the fetched order; a blank query and
      no dates list everyone. */
  lemma FilterCustomersMeaning(cs: seq<Customer>, searchQuery: string, dateFrom: string, dateTo: string)
    ensures var r := FilterCustomers(cs, searchQuery, dateFrom, dateTo);
      && Subseq(r, cs)
      && (forall c :: c in r <==> c in cs && Listed(c, searchQuery, dateFrom, dateTo))
      && (IsBlank(searchQuery) && dateFrom == "" && dateTo == "" ==> r == cs)
  {
    if IsBlank(searchQuery) && dateFrom == "" && dateTo == "" {
      KeepAll(cs, c => Listed(c, searchQuery, dateFrom, dateTo));
    }
  }

  lemma {:induction false} KeepAll(s: seq<Customer>, p: Customer -> bool)
    requires forall x :: p(x)
    ensures Filter(s, p) == s
  {
    if s != [] {
      KeepAll(s[1..], p);
    }
  }

  /** A customer that starts exactly on a bound is kept: both bounds are
      inclusive. A customer with no start date is dropped once any bound
      is set. */
  lemma DateBoundsInclusive(c: Customer, searchQuery: string, d: string)
    requires c.packageStartDate == Some(d) && d != ""
    requires IsBlank(searchQuery)
    ensures Listed(c, searchQuery, d, d)
    ensures forall dateFrom, dateTo | dateFrom != "" || dateTo != "" ::
      !Listed(c.(packageStartDate := None), searchQuery, dateFrom, dateTo)
  {
    StrLeRefl(d);
  }

  lemma {:induction false} StrLeRefl(s: string)
    ensures StrLe(s, s)
    decreases |s|
  {
    if s != [] {
      StrLeRefl(s[1..]);
    }
  }

  lemma {:induction false} ContainsPrefix(hay: string, q1: string, q2: string)
    requires q1 <= q2 && Contains(hay, q2)
    ensures Contains(hay, q1)
    decreases |hay|
  {
    if !(q2 <= hay) {
      ContainsPrefix(hay[1..], q1, q2);
    }
  }

  /** Typing more characters into the search box never brings a customer
      back: every customer listed for the longer query is listed for the
      shorter one. */
  lemma TypingNarrows(c: Customer, q1: string, q2: string, dateFrom: string, dateTo: string)
    requires q1 <= q2
    requires Listed(c, q2, dateFrom, dateTo)
    ensures Listed(c, q1, dateFrom, dateTo)
  {
    if !IsBlank(q1) {
      var i :| 0 <= i < |q1| && !IsSpace(q1[i]);
      assert q2[i] == q1[i];
      assert Lower(q1) <= Lower(q2);
      var l1, l2 := Lower(q1), Lower(q2);
      if Contains(Lower(c.companyName.GetOr("")), l2) {
        ContainsPrefix(Lower(c.companyName.GetOr("")), l1, l2);
      } else if Contains(Lower(c.companyCode.GetOr("")), l2) {
        ContainsPrefix(Lower(c.companyCode.GetOr("")), l1, l2);
      } else if Contains(Lower(c.email.GetOr("")), l2) {
        ContainsPrefix(Lower(c.email.GetOr("")), l1, l2);
      } else {
        ContainsPrefix(Lower(c.ownerUsername.GetOr("")), l1, l2);
      }
    }
  }

  /** The message shown over an empty table. */
  function EmptyMessage(customers: seq<Customer>): (m: string)
    ensures customers == [] ==> m == "Henüz müşteri bulunmuyor"
    ensures customers != [] ==> m == "Arama sonucu bulunamadı"
  {
    if customers == [] then "Henüz müşteri bulunmuyor" else "Arama sonucu bulunamadı"
  }

  // ---------------------------------------------------------------------
  // The page state
  // ---------------------------------------------------------------------

  /** How the customer request ended: the response body (possibly
      empty), or an error. */
  datatype FetchOutcome = FetchOk(data: Option<seq<Customer>>) | FetchError

  /** The page's fetched list and the list it shows. */
  class CustomerList {
    var customers: seq<Customer>
    var filteredCustomers: seq<Customer>

    constructor()
      ensures customers == [] && filteredCustomers == []
    {
      customers := [];
      filteredCustomers := [];
    }

    /** `fetchCustomers` once the request has ended: both lists become the
        response (an absent body is an empty list), and both are emptied
        on an error. */
    method FetchCustomers(outcome: FetchOutcome)
      modifies this
      ensures outcome.FetchOk? ==> customers == outcome.data.GetOr([])
      ensures outcome.FetchError? ==> customers == []
      ensures filteredCustomers == customers
    {
      if outcome.FetchOk? {
        var customersData := outcome.data.GetOr([]);
        customers := customersData;
        filteredCustomers := customersData;
      } else {
        customers := [];
        filteredCustomers := [];
      }
    }

    /** The filter effect: the fetched list narrowed by the search, then
        by the start bound, then by the end bound. */
    method ApplyFilters(searchQuery: string, dateFrom: string, dateTo: string)
      modifies this
      ensures customers == old(customers)
      ensures filteredCustomers == FilterCustomers(customers, searchQuery, dateFrom, dateTo)
    {
      ghost var k0: Customer -> bool := c => true;
      ghost var k1: Customer -> bool := c => IsBlank(searchQuery) || SearchHit(c, Lower(searchQuery));
      ghost var k2: Customer -> bool := c => k1(c) && (dateFrom == "" || StartsOnOrAfter(c, dateFrom));
      var filtered := customers;
      KeepAll(customers, k0);
      ghost var before := filtered;
      var query := Lower(searchQuery);
      if !IsBlank(searchQuery) {
        filtered := Filter(filtered, c => SearchHit(c, query));
      }
      FilterStep(customers, before, k0, !IsBlank(searchQuery), c => SearchHit(c, query), k1);
      before := filtered;
      if dateFrom != "" {
        filtered := Filter(filtered, c => StartsOnOrAfter(c, dateFrom));
      }
      FilterStep(customers, before, k1, dateFrom != "", c => StartsOnOrAfter(c, dateFrom), k2);
      before := filtered;
      if dateTo != "" {
        filtered := Filter(filtered, c => StartsOnOrBefore(c, dateTo));
      }
      FilterStep(customers, before, k2, dateTo != "", c => StartsOnOrBefore(c, dateTo),
                 c => Listed(c, searchQuery, dateFrom, dateTo));
      filteredCustomers := filtered;
    }
  }
}
