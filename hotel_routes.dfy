/** The hotel endpoints that change stored records: creating a hotel,
    creating a reservation and pushing it at once (queueing it for retry
    when the push fails), and the manual retry of a queued push. */
module HotelRoutes {
  import opened Common
  import opened HotelModels
  import opened PushAdapter
  import opened PushQueue

  // ---------------------------------------------------------------------
  // Hotels
  // ---------------------------------------------------------------------

  /** The request fields `create_hotel` reads; the name is None when the
      body lacks it or sends `null`. */
  datatype HotelInput = HotelInput(
    name: Option<string>,
    icsUrl: Option<string>,
    icsSyncEnabled: Field<bool>,
    pushMethod: Field<string>,
    pushEndpoint: Option<string>,
    pushApiKey: Option<string>,
    pushEmail: Option<string>)

  /** What `Hotel(...)` accepts: a name, and no `null` for the syncing flag
      or the push method, whose types are not optional. */
  predicate ValidHotelInput(d: HotelInput) {
    d.name.Some? && !d.icsSyncEnabled.Null? && !d.pushMethod.Null?
  }

  /** The document `create_hotel` stores: the request's method, or "json". */
  function NewHotel(id: Id, company: Id, d: HotelInput): (h: Hotel)
    requires ValidHotelInput(d)
    ensures h.id == id && h.company == company && h.name == d.name.value
    ensures h.pushMethod == Some(d.pushMethod.Get("json")) && h.icsSyncEnabled == d.icsSyncEnabled.Get(false)
    ensures h.isActive && h.icsSyncLastAt.None?
  {
    Hotel(id, company, d.name.value, d.icsUrl, d.icsSyncEnabled.Get(false), None,
          Some(d.pushMethod.Get("json")), d.pushEndpoint, d.pushApiKey, d.pushEmail, true)
  }

  /** A hotel created through the endpoint without a method pushes as JSON,
      although the record's own default is ICS; it starts active and, unless
      asked, without calendar pulling. */
  lemma CreatedHotelDefaults(id: Id, company: Id, d: HotelInput, r: HotelReservation, w: World)
    requires d.name.Some? && d.pushMethod.Missing? && d.icsSyncEnabled.Missing?
    ensures var h := NewHotel(id, company, d);
      && PushReservation(h, r, w) == Returned(JsonPush(h, r, w))
      && h.isActive && !h.icsSyncEnabled
    ensures var h0 := DefaultHotel(id, company, d.name.value);
      PushReservation(h0, r, w) == Returned(IcsPush(h0, r, w))
  {
    assert Lower("json") == "json";
    assert Lower("ics") == "ics";
  }

  datatype HotelResult = HotelCreated(id: Id) | HotelRejected(code: int, detail: string)

  /** The message of the validation error `Hotel` raises. */
  const InvalidHotel := "validation error for Hotel"

  /** `create_hotel`: a body the record type refuses ends in a server error
      with nothing stored; otherwise exactly the new document is added. */
  method CreateHotel(db: HotelDb, id: Id, company: Id, d: HotelInput) returns (result: HotelResult)
    requires id !in db.hotels
    modifies db
    ensures !ValidHotelInput(d) ==> result == HotelRejected(500, InvalidHotel) && db.State() == old(db.State())
    ensures ValidHotelInput(d) ==>
      result == HotelCreated(id) && db.State() == old(db.State()).(hotels := old(db.hotels)[id := NewHotel(id, company, d)])
  {
    if !ValidHotelInput(d) {
      return HotelRejected(500, InvalidHotel);
    }
    db.hotels := db.hotels[id := NewHotel(id, company, d)];
    result := HotelCreated(id);
  }

  // ---------------------------------------------------------------------
  // Reservations
  // ---------------------------------------------------------------------

  /** The request fields `create_reservation` reads. The required ones are
      None when the body lacks them or sends `null`. */
  datatype ReservationInput = ReservationInput(
    roomId: Option<Id>,
    customerName: Option<string>,
    checkin: Option<Date>,
    checkout: Option<Date>,
    guestCount: Field<int>,
    totalPrice: Field<int>,
    currency: Field<string>)

  /** What `HotelReservation(...)` accepts: the room, the customer's name
      and both dates are present, and no defaulted field was sent as
      `null` (a `null` reaches the model through `data.get` and fails its
      type). */
  predicate ValidReservationInput(d: ReservationInput) {
    && d.roomId.Some? && d.customerName.Some? && d.checkin.Some? && d.checkout.Some?
    && !d.guestCount.Null? && !d.totalPrice.Null? && !d.currency.Null?
  }

  /** The message of the validation error `HotelReservation` raises. */
  const InvalidReservation := "validation error for HotelReservation"

  /** The reservation document as first stored. */
  function NewReservation(id: Id, hotelId: Id, company: Id, d: ReservationInput): (r: HotelReservation)
    requires ValidReservationInput(d)
    ensures r.roomId == d.roomId && r.customerName == d.customerName
    ensures r.checkin == d.checkin.value && r.checkout == d.checkout.value
    ensures r.guestCount == d.guestCount.Get(1) && r.totalPrice == d.totalPrice.Get(0) && r.currency == d.currency.Get("EUR")
    ensures r.status == "pending" && r.pushStatus == PushPending && !r.external
  {
    DefaultReservation(id, hotelId, company, d.roomId, d.customerName, d.checkin.value, d.checkout.value, d.totalPrice.Get(0))
      .(guestCount := d.guestCount.Get(1), currency := d.currency.Get("EUR"))
  }

  datatype CreateResult =
    | Created(id: Id, pushStatus: string, pushError: Option<string>)
    | Rejected(code: int, detail: string)

  /** The hotel is the caller's when it exists under that id and company. */
  predicate OwnHotel(s: HotelState, hotelId: Id, company: Id) {
    hotelId in s.hotels && s.hotels[hotelId].company == company
  }

  /** `create_reservation` as a function of the store. A body the record
      type refuses ends the request with a server error before anything is
      written; an exception escaping the adapter ends it with a server
      error after the insert. */
  function CreateReservationSpec(s: HotelState, hotelId: Id, company: Id, d: ReservationInput,
                                 resId: Id, queueId: Id, now: Instant, w: World): (HotelState, CreateResult)
  {
    if !OwnHotel(s, hotelId, company) then (s, Rejected(404, "Hotel not found"))
    else if !ValidReservationInput(d) then (s, Rejected(500, InvalidReservation))
    else
      var hotel := s.hotels[hotelId];
      var doc := NewReservation(resId, hotelId, company, d);
      var s1 := s.(reservations := s.reservations[resId := doc]);
      match PushReservation(hotel, doc, w)
      case Escaped(m) => (s1, Rejected(500, m))
      case Returned(r) =>
        if r.success then
          (s1.(reservations := s.reservations[resId := doc.(pushStatus := PushSent, pushLastAttemptAt := Some(now))]),
           Created(resId, "sent", r.error))
        else
          var item := DefaultQueueItem(queueId, hotelId, resId, company, doc, hotel.pushMethod.GetOr("json")).(error := r.error);
          (s1.(queue := s.queue + [item]), Created(resId, "queued", r.error))
  }

  method CreateReservation(db: HotelDb, hotelId: Id, company: Id, d: ReservationInput,
                           resId: Id, queueId: Id, now: Instant, w: World) returns (result: CreateResult)
    modifies db
    ensures (db.State(), result) == CreateReservationSpec(old(db.State()), hotelId, company, d, resId, queueId, now, w)
  {
    if hotelId !in db.hotels || db.hotels[hotelId].company != company {
      return Rejected(404, "Hotel not found");
    }
    if !ValidReservationInput(d) {
      return Rejected(500, InvalidReservation);
    }
    var hotel := db.hotels[hotelId];
    var doc := NewReservation(resId, hotelId, company, d);
    ghost var s0 := db.State();
    db.reservations := db.reservations[resId := doc];
    assert db.reservations[resId := doc.(pushStatus := PushSent, pushLastAttemptAt := Some(now))]
        == s0.reservations[resId := doc.(pushStatus := PushSent, pushLastAttemptAt := Some(now))];
    var outcome := PushReservation(hotel, doc, w);
    if outcome.Escaped? {
      return Rejected(500, outcome.message);
    }
    var r := outcome.result;
    if r.success {
      db.reservations := db.reservations[resId := doc.(pushStatus := PushSent, pushLastAttemptAt := Some(now))];
      result := Created(resId, "sent", r.error);
    } else {
      var item := DefaultQueueItem(queueId, hotelId, resId, company, doc, hotel.pushMethod.GetOr("json")).(error := r.error);
      db.queue := db.queue + [item];
      result := Created(resId, "queued", r.error);
    }
  }

  /** A hotel that is not the caller's is refused before anything is written. */
  lemma ForeignHotelIsRejected(s: HotelState, hotelId: Id, company: Id, d: ReservationInput,
                               resId: Id, queueId: Id, now: Instant, w: World)
    requires !OwnHotel(s, hotelId, company)
    ensures CreateReservationSpec(s, hotelId, company, d, resId, queueId, now, w) == (s, Rejected(404, "Hotel not found"))
  {
  }

  /** On the caller's hotel, a body without the room, the customer's name
      or a date, or with `null` for the guest count, the price or the
      currency, is refused with a server error and nothing is written,
      inserted, pushed or queued; every other body is accepted. */
  lemma InvalidBodyIsRejected(s: HotelState, hotelId: Id, company: Id, d: ReservationInput,
                              resId: Id, queueId: Id, now: Instant, w: World)
    requires OwnHotel(s, hotelId, company)
    ensures var (s1, r) := CreateReservationSpec(s, hotelId, company, d, resId, queueId, now, w);
      && (!ValidReservationInput(d) <==> r == Rejected(500, InvalidReservation))
      && (!ValidReservationInput(d) ==> s1 == s)
  {
  }

  /** After the insert and the push, exactly one of two things has
      happened: the reservation is marked sent and the queue is untouched,
      or the reservation stays pending and one queued item carrying the
      stored document and the hotel's method (default "json") is appended.
      The response says "sent" exactly in the first case; the hotels never
      change. */
  lemma CreateReservationPushesOrQueues(s: HotelState, hotelId: Id, company: Id, d: ReservationInput,
                                        resId: Id, queueId: Id, now: Instant, w: World)
    requires OwnHotel(s, hotelId, company) && ValidReservationInput(d)
    requires PushReservation(s.hotels[hotelId], NewReservation(resId, hotelId, company, d), w).Returned?
    ensures var (s1, r) := CreateReservationSpec(s, hotelId, company, d, resId, queueId, now, w);
      var doc := NewReservation(resId, hotelId, company, d);
      var pushed := PushReservation(s.hotels[hotelId], doc, w).result;
      && r.Created? && r.id == resId && r.pushError == pushed.error
      && resId in s1.reservations
      && s1.reservations[resId].status == "pending"
      && s1.hotels == s.hotels && s1.logs == s.logs
      && (r.pushStatus == "sent" <==> pushed.success)
      && (r.pushStatus == "sent" || r.pushStatus == "queued")
      && (pushed.success ==>
            && s1.queue == s.queue
            && s1.reservations[resId].pushStatus == PushSent)
      && (!pushed.success ==>
            && |s1.queue| == |s.queue| + 1 && s1.queue[..|s.queue|] == s.queue
            && s1.queue[|s.queue|].status == Queued
            && s1.queue[|s.queue|].payload == doc
            && s1.queue[|s.queue|].pushMethod == s.hotels[hotelId].pushMethod.GetOr("json")
            && s1.queue[|s.queue|].error == pushed.error
            && Due(s1.queue[|s.queue|], now)
            && s1.reservations[resId] == doc && doc.pushStatus == PushPending)
  {
  }

  // ---------------------------------------------------------------------
  // Manual retry
  // ---------------------------------------------------------------------

  /** The caller's queue item: the first with this id and company. */
  function FindOwnItem(q: seq<QueueItem>, id: Id, company: Id): (r: Option<nat>)
    ensures r.Some? ==> r.value < |q| && q[r.value].id == id && q[r.value].company == company
    ensures r.None? ==> forall j | 0 <= j < |q| :: !(q[j].id == id && q[j].company == company)
  {
    if q == [] then None
    else if q[0].id == id && q[0].company == company then Some(0)
    else match FindOwnItem(q[1..], id, company)
      case None => None
      case Some(k) => Some(k + 1)
  }

  datatype RetryResult = Retried(result: Summary) | RetryRejected(code: int, detail: string)

  /** `retry_push` as a function of the store: reset the item, then run the
      worker for one item. */
  function RetryPushSpec(s: HotelState, queueId: Id, company: Id, now: Instant, w: World): (HotelState, RetryResult) {
    if FindOwnItem(s.queue, queueId, company).None? then (s, RetryRejected(404, "Queue item not found"))
    else
      var reset := s.(queue := UpdateItem(s.queue, queueId, Requeue(now)));
      var (s1, sum) := ProcessPushQueueSpec(reset, 1, now, w);
      (s1, Retried(sum))
  }

  method RetryPush(db: HotelDb, queueId: Id, company: Id, now: Instant, w: World) returns (result: RetryResult)
    modifies db
    ensures (db.State(), result) == RetryPushSpec(old(db.State()), queueId, company, now, w)
  {
    if FindOwnItem(db.queue, queueId, company).None? {
      return RetryRejected(404, "Queue item not found");
    }
    db.queue := UpdateItem(db.queue, queueId, Requeue(now));
    var sum := ProcessPushQueue(db, 1, now, w);
    result := Retried(sum);
  }

  /** The reset puts the item back to `queued`, due now and without an
      error, but keeps its attempt count: an item that has used its five
      attempts stays out of every selection. The run that follows handles
      at most one item, the first due one in queue order, which need not be
      the one reset. */
  lemma RetryResetKeepsAttempts(s: HotelState, queueId: Id, company: Id, now: Instant, w: World, k: nat)
    requires FindOwnItem(s.queue, queueId, company).Some?
    requires FindItem(s.queue, queueId) == Some(k)
    ensures var reset := UpdateItem(s.queue, queueId, Requeue(now));
      && reset[k].status == Queued && reset[k].nextRetryAt == Some(now) && reset[k].error.None?
      && reset[k].attemptCount == s.queue[k].attemptCount
      && (Due(reset[k], now) <==> s.queue[k].attemptCount < MaxAttempts)
      && (forall j | 0 <= j < |s.queue| && j != k :: reset[j] == s.queue[j])
    ensures var (_, r) := RetryPushSpec(s, queueId, company, now, w);
      r.Retried? && r.result.succeeded + r.result.failed <= 1
  {
    var reset := s.(queue := UpdateItem(s.queue, queueId, Requeue(now)));
    RunCounts(reset, 1, now, w);
  }
}
