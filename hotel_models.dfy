/** The records of the hotel module (hotels, their reservations, pulled
    calendar events, the push retry queue and the push log), their default
    values and status vocabularies, and the collections that hold them. */
module HotelModels {
  import opened Common

  type Id = string

  /** Instants are whole seconds on one UTC clock; the stored ISO strings
      compare in the same order. */
  type Instant = int

  /** A reservation date.  The store keeps a "YYYY-MM-DD" string; the model
      keeps its three numbers, which need not form a calendar date. */
  datatype Date = Date(year: int, month: int, day: int)

  predicate IsLeap(y: int) {
    y % 4 == 0 && (y % 100 != 0 || y % 400 == 0)
  }

  /** `monthrange(year, month)[1]` of the proleptic Gregorian calendar. */
  function DaysInMonth(y: int, m: int): (n: int)
    requires 1 <= m <= 12
    ensures 28 <= n <= 31
  {
    if m == 2 then (if IsLeap(y) then 29 else 28)
    else if m == 4 || m == 6 || m == 9 || m == 11 then 30
    else 31
  }

  /** A date that `strptime(..., "%Y-%m-%d")` and `datetime.fromisoformat`
      accept. */
  predicate ValidDate(d: Date) {
    1 <= d.year <= 9999 && 1 <= d.month <= 12 && 1 <= d.day <= DaysInMonth(d.year, d.month)
  }

  // ---------------------------------------------------------------------
  // Status vocabularies
  // ---------------------------------------------------------------------

  /** `HotelReservationPushQueue.status`. */
  datatype QueueStatus = Queued | Processing | Sent | Failed | Cancelled

  function QueueStatusName(s: QueueStatus): string {
    match s
    case Queued => "queued"
    case Processing => "processing"
    case Sent => "sent"
    case Failed => "failed"
    case Cancelled => "cancelled"
  }

  function ParseQueueStatus(name: string): (r: Option<QueueStatus>)
    ensures r.Some? <==> name in {"queued", "processing", "sent", "failed", "cancelled"}
    ensures r.Some? ==> QueueStatusName(r.value) == name
  {
    if name == "queued" then Some(Queued)
    else if name == "processing" then Some(Processing)
    else if name == "sent" then Some(Sent)
    else if name == "failed" then Some(Failed)
    else if name == "cancelled" then Some(Cancelled)
    else None
  }

  lemma QueueStatusNamesRoundTrip(s: QueueStatus)
    ensures ParseQueueStatus(QueueStatusName(s)) == Some(s)
  {
  }

  /** `HotelReservation.push_status`. */
  datatype PushStatus = PushPending | PushSent | PushFailed | PushQueued

  function PushStatusName(s: PushStatus): string {
    match s
    case PushPending => "pending"
    case PushSent => "sent"
    case PushFailed => "failed"
    case PushQueued => "queued"
  }

  function ParsePushStatus(name: string): (r: Option<PushStatus>)
    ensures r.Some? <==> name in {"pending", "sent", "failed", "queued"}
    ensures r.Some? ==> PushStatusName(r.value) == name
  {
    if name == "pending" then Some(PushPending)
    else if name == "sent" then Some(PushSent)
    else if name == "failed" then Some(PushFailed)
    else if name == "queued" then Some(PushQueued)
    else None
  }

  lemma PushStatusNamesRoundTrip(s: PushStatus)
    ensures ParsePushStatus(PushStatusName(s)) == Some(s)
  {
  }

  // ---------------------------------------------------------------------
  // Records
  // ---------------------------------------------------------------------

  datatype Hotel = Hotel(
    id: Id,
    company: Id,
    name: string,
    icsUrl: Option<string>,
    icsSyncEnabled: bool,
    icsSyncLastAt: Option<Instant>,
    pushMethod: Option<string>,
    pushEndpoint: Option<string>,
    pushApiKey: Option<string>,
    pushEmail: Option<string>,
    isActive: bool)

  datatype HotelReservation = HotelReservation(
    id: Id,
    hotelId: Id,
    company: Id,
    roomId: Option<Id>,
    customerName: Option<string>,
    checkin: Date,
    checkout: Date,
    guestCount: int,
    totalPrice: int,
    currency: string,
    status: string,
    icsEventUid: Option<string>,
    external: bool,
    pushStatus: PushStatus,
    pushAttempts: int,
    pushLastAttemptAt: Option<Instant>)

  /** A date or date-time value as stored on a pulled calendar event. */
  datatype Stamp = DateStamp(date: Date) | TimeStamp(date: Date, second: int)

  datatype IcsEvent = IcsEvent(
    hotelId: Id,
    company: Id,
    uid: string,
    summary: string,
    dtstart: Stamp,
    dtend: Stamp,
    status: string,
    external: bool,
    raw: string,
    updatedAt: Instant)

  datatype QueueItem = QueueItem(
    id: Id,
    hotelId: Id,
    reservationId: Id,
    company: Id,
    payload: HotelReservation,
    pushMethod: string,
    attemptCount: nat,
    maxAttempts: int,
    lastAttemptAt: Option<Instant>,
    nextRetryAt: Option<Instant>,
    status: QueueStatus,
    error: Option<string>)

  datatype PushLog = PushLog(
    hotelId: Id,
    reservationId: Id,
    company: Id,
    pushMethod: string,
    payload: HotelReservation,
    responseCode: Option<int>,
    responseBody: Option<string>,
    success: bool,
    errorMessage: Option<string>)

  // ---------------------------------------------------------------------
  // Field defaults
  // ---------------------------------------------------------------------

  /** A `Hotel` built from only its required fields. */
  function DefaultHotel(id: Id, company: Id, name: string): Hotel {
    Hotel(id, company, name, None, false, None, Some("ics"), None, None, None, true)
  }

  /** A `HotelReservation` built from its required fields. */
  function DefaultReservation(id: Id, hotelId: Id, company: Id, roomId: Option<Id>, customerName: Option<string>,
                              checkin: Date, checkout: Date, totalPrice: int): HotelReservation {
    HotelReservation(id, hotelId, company, roomId, customerName, checkin, checkout, 1, totalPrice, "EUR",
      "pending", None, false, PushPending, 0, None)
  }

  /** A `HotelReservationPushQueue` item built from its required fields. */
  function DefaultQueueItem(id: Id, hotelId: Id, reservationId: Id, company: Id,
                            payload: HotelReservation, via: string): QueueItem {
    QueueItem(id, hotelId, reservationId, company, payload, via, 0, 5, None, None, Queued, None)
  }

  /** A `HotelReservationPushLog` built from its required fields. */
  function DefaultPushLog(hotelId: Id, reservationId: Id, company: Id, via: string,
                          payload: HotelReservation): PushLog {
    PushLog(hotelId, reservationId, company, via, payload, None, None, false, None)
  }

  /** The retry worker's selection test: queued, due, and under five attempts.
      The item's own `maxAttempts` plays no part. */
  predicate Due(item: QueueItem, now: Instant) {
    && item.status == Queued
    && (item.nextRetryAt.None? || item.nextRetryAt.value <= now)
    && item.attemptCount < 5
  }

  /** A new queue item is due at once and stays due until it is touched;
      its own attempt limit agrees with the worker's literal 5. */
  lemma DefaultQueueItemIsDue(id: Id, hotelId: Id, reservationId: Id, company: Id,
                              payload: HotelReservation, via: string, now: Instant)
    ensures var item := DefaultQueueItem(id, hotelId, reservationId, company, payload, via);
      Due(item, now) && item.maxAttempts == 5 && item.error.None?
  {
  }

  /** A reservation starts unpushed, local and pending, and a hotel starts
      active, pushing by ICS, with calendar pulling off; a push log records
      a failure unless told otherwise. */
  lemma DefaultsAreInert(h: Hotel, r: HotelReservation, l: PushLog)
    requires h == DefaultHotel(h.id, h.company, h.name)
    requires r == DefaultReservation(r.id, r.hotelId, r.company, r.roomId, r.customerName, r.checkin, r.checkout, r.totalPrice)
    requires l == DefaultPushLog(l.hotelId, l.reservationId, l.company, l.pushMethod, l.payload)
    ensures h.isActive && !h.icsSyncEnabled && h.pushMethod == Some("ics")
    ensures r.pushStatus == PushPending && r.pushAttempts == 0 && !r.external && r.status == "pending"
    ensures !l.success
  {
  }

  // ---------------------------------------------------------------------
  // The collections
  // ---------------------------------------------------------------------

  /** The hotel collections as one value. Queue items, logs and events are
      kept in insertion order, the store's natural order. */
  datatype HotelState = HotelState(
    hotels: map<Id, Hotel>,
    reservations: map<Id, HotelReservation>,
    queue: seq<QueueItem>,
    logs: seq<PushLog>,
    events: seq<IcsEvent>)

  class HotelDb {
    var hotels: map<Id, Hotel>
    var reservations: map<Id, HotelReservation>
    var queue: seq<QueueItem>
    var logs: seq<PushLog>
    var events: seq<IcsEvent>

    function State(): HotelState
      reads this
    {
      HotelState(hotels, reservations, queue, logs, events)
    }

    constructor ()
      ensures State() == HotelState(map[], map[], [], [], [])
    {
      hotels, reservations, queue, logs, events := map[], map[], [], [], [];
    }
  }
}
