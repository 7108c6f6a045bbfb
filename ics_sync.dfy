/** Pulling a hotel's ICS calendar: fetch and parse it (an oracle here),
    then upsert each usable VEVENT into the hotel's stored events keyed by
    (hotel, UID), counting creations and updates; and the run over every
    active hotel that has syncing enabled. */
module IcsSync {
  import opened Common
  import opened HotelModels

  /** A VEVENT as the parser hands it over. `broken` marks an event whose
      processing raises before anything is written; the loop skips it. */
  datatype VEvent = VEvent(
    uid: Option<string>,
    dtstart: Option<Stamp>,
    dtend: Option<Stamp>,
    summary: Option<string>,
    status: Option<string>,
    raw: string,
    broken: bool)

  /** Fetching and parsing the calendar at a URL: its VEVENTs in order, or
      the message of the exception that stopped it. */
  datatype FetchOutcome = Fetched(events: seq<VEvent>) | FetchFailed(message: string)

  datatype SyncResult =
    | Synced(processed: nat, created: nat, updated: nat)
    | SyncFailed(error: string)

  // ---------------------------------------------------------------------
  // Start and end stamps
  // ---------------------------------------------------------------------

  /** The conversion as written: `hasattr(dt, 'date')` holds of a
      date-time (which has a `date()` method) and not of a date, so a timed
      stamp is cut back to midnight and an all-day stamp stays a date. */
  function ToStoredStampAsWritten(s: Stamp): (r: Stamp)
    ensures r.date == s.date
    ensures r.TimeStamp? <==> s.TimeStamp?
    ensures r.TimeStamp? ==> r.second == 0
  {
    match s
    case TimeStamp(d, _) => TimeStamp(d, 0)
    case DateStamp(d) => DateStamp(d)
  }

  /** The conversion the comment "Convert to datetime" describes: an
      all-day stamp becomes midnight of its day, a date-time is kept. */
  function ToStoredStamp(s: Stamp): (r: Stamp)
    ensures r.TimeStamp? && r.date == s.date
    ensures s.TimeStamp? ==> r == s
  {
    match s
    case TimeStamp(_, _) => s
    case DateStamp(d) => TimeStamp(d, 0)
  }

  /** As written, an all-day event is stored as a bare date and a 15:00
      start is stored as midnight; the intended conversion stores both as
      date-times and keeps the 15:00. */
  lemma HasattrTestIsInverted(d: Date)
    ensures ToStoredStampAsWritten(DateStamp(d)).DateStamp?
    ensures ToStoredStampAsWritten(TimeStamp(d, 15 * 3600)) == TimeStamp(d, 0)
    ensures ToStoredStamp(DateStamp(d)) == TimeStamp(d, 0)
    ensures ToStoredStamp(TimeStamp(d, 15 * 3600)) == TimeStamp(d, 15 * 3600)
  {
  }

  // ---------------------------------------------------------------------
  // One event
  // ---------------------------------------------------------------------

  /** An event the loop stores: it has a UID, both stamps, and does not raise. */
  predicate Usable(v: VEvent) {
    v.uid.GetOr("") != "" && v.dtstart.Some? && v.dtend.Some? && !v.broken
  }

  predicate NoUpper(s: string) {
    forall i | 0 <= i < |s| :: !('A' <= s[i] <= 'Z')
  }

  /** `event_data`: the stored form of a usable event. */
  function EventDoc(hotelId: Id, company: Id, v: VEvent, now: Instant): (e: IcsEvent)
    requires Usable(v)
    ensures e.hotelId == hotelId && e.uid == v.uid.value && e.external
    ensures NoUpper(e.status) && |e.raw| <= 1000
    ensures e.dtstart.TimeStamp? && e.dtstart.date == v.dtstart.value.date
    ensures e.dtend.TimeStamp? && e.dtend.date == v.dtend.value.date
  {
    IcsEvent(hotelId, company, v.uid.value, v.summary.GetOr(""),
             ToStoredStamp(v.dtstart.value), ToStoredStamp(v.dtend.value),
             Lower(v.status.GetOr("confirmed")), true, Take(v.raw, 1000), now)
  }

  /** The position of the stored event with this hotel and UID, if any. */
  function FindEvent(events: seq<IcsEvent>, hotelId: Id, uid: string): (r: Option<nat>)
    ensures r.Some? ==> r.value < |events| && events[r.value].hotelId == hotelId && events[r.value].uid == uid
    ensures r.None? ==> forall k | 0 <= k < |events| :: !(events[k].hotelId == hotelId && events[k].uid == uid)
  {
    if events == [] then None
    else if events[0].hotelId == hotelId && events[0].uid == uid then Some(0)
    else match FindEvent(events[1..], hotelId, uid)
      case None => None
      case Some(k) => Some(k + 1)
  }

  /** No two stored events share a (hotel, UID) key. */
  predicate UniqueKeys(events: seq<IcsEvent>) {
    forall i, j | 0 <= i < j < |events| :: !(events[i].hotelId == events[j].hotelId && events[i].uid == events[j].uid)
  }

  /** The stored events with the loop's two counters. */
  datatype Tally = Tally(events: seq<IcsEvent>, created: nat, updated: nat)

  /** The loop body for one VEVENT: skip it, or update the stored event
      with its key, or insert a new one. */
  function UpsertEvent(t: Tally, hotelId: Id, company: Id, v: VEvent, now: Instant): Tally {
    if !Usable(v) then t
    else
      var doc := EventDoc(hotelId, company, v, now);
      match FindEvent(t.events, hotelId, v.uid.value)
      case Some(k) => t.(events := t.events[k := doc], updated := t.updated + 1)
      case None => t.(events := t.events + [doc], created := t.created + 1)
  }

  /** The loop over the VEVENTs. */
  function UpsertAll(t: Tally, hotelId: Id, company: Id, vs: seq<VEvent>, now: Instant): Tally
    decreases |vs|
  {
    if vs == [] then t
    else UpsertAll(UpsertEvent(t, hotelId, company, vs[0], now), hotelId, company, vs[1..], now)
  }

  // ---------------------------------------------------------------------
  // One hotel
  // ---------------------------------------------------------------------

  /** `sync_hotel_ics` as a function of the store. */
  function SyncHotelSpec(s: HotelState, hotelId: Id, now: Instant, fetch: string -> FetchOutcome): (HotelState, SyncResult) {
    if hotelId !in s.hotels then (s, SyncFailed("Hotel not found"))
    else
      var hotel := s.hotels[hotelId];
      if !Truthy(hotel.icsUrl) then (s, SyncFailed("ICS URL not configured"))
      else if !hotel.icsSyncEnabled then (s, SyncFailed("ICS sync not enabled for this hotel"))
      else match fetch(hotel.icsUrl.value)
        case FetchFailed(m) => (s, SyncFailed(m))
        case Fetched(vs) =>
          var t := UpsertAll(Tally(s.events, 0, 0), hotelId, hotel.company, vs, now);
          (s.(events := t.events, hotels := s.hotels[hotelId := hotel.(icsSyncLastAt := Some(now))]),
           Synced(t.created + t.updated, t.created, t.updated))
  }

  /** One pass of the VEVENT loop: an unusable event is skipped, a usable
      one replaces the stored event with its key or is appended. */
  method UpsertOne(db: HotelDb, hotelId: Id, company: Id, v: VEvent, now: Instant, created: nat, updated: nat)
    returns (created': nat, updated': nat)
    modifies db
    ensures Tally(db.events, created', updated') == UpsertEvent(Tally(old(db.events), created, updated), hotelId, company, v, now)
    ensures db.State() == old(db.State()).(events := db.events)
    ensures created' + updated' == created + updated + (if Usable(v) then 1 else 0)
  {
    created', updated' := created, updated;
    if Usable(v) {
      var doc := EventDoc(hotelId, company, v, now);
      var existing := FindEvent(db.events, hotelId, v.uid.value);
      if existing.Some? {
        db.events := db.events[existing.value := doc];
        updated' := updated + 1;
      } else {
        db.events := db.events + [doc];
        created' := created + 1;
      }
    }
  }

  method SyncHotelIcs(db: HotelDb, hotelId: Id, now: Instant, fetch: string -> FetchOutcome) returns (result: SyncResult)
    modifies db
    ensures (db.State(), result) == SyncHotelSpec(old(db.State()), hotelId, now, fetch)
  {
    if hotelId !in db.hotels {
      return SyncFailed("Hotel not found");
    }
    var hotel := db.hotels[hotelId];
    if !Truthy(hotel.icsUrl) {
      return SyncFailed("ICS URL not configured");
    }
    if !hotel.icsSyncEnabled {
      return SyncFailed("ICS sync not enabled for this hotel");
    }
    var fetched := fetch(hotel.icsUrl.value);
    if fetched.FetchFailed? {
      return SyncFailed(fetched.message);
    }
    var vs := fetched.events;
    var processed, created, updated := 0, 0, 0;
    ghost var s0 := db.State();
    var i := 0;
    while i < |vs|
      invariant 0 <= i <= |vs|
      invariant processed == created + updated
      invariant db.State() == s0.(events := db.events)
      invariant UpsertAll(Tally(db.events, created, updated), hotelId, hotel.company, vs[i..], now)
             == UpsertAll(Tally(s0.events, 0, 0), hotelId, hotel.company, vs, now)
    {
      assert vs[i..][1..] == vs[i + 1..];
      created, updated := UpsertOne(db, hotelId, hotel.company, vs[i], now, created, updated);
      if Usable(vs[i]) {
        processed := processed + 1;
      }
      i := i + 1;
    }
    assert vs[i..] == [];
    db.hotels := db.hotels[hotelId := hotel.(icsSyncLastAt := Some(now))];
    result := Synced(processed, created, updated);
  }

  // ---------------------------------------------------------------------
  // Properties of one hotel's sync
  // ---------------------------------------------------------------------

  /** The guards, in order, each with its own message; none of them writes
      or fetches anything, and neither does a failed fetch. */
  lemma GuardOrder(s: HotelState, hotelId: Id, now: Instant, f1: string -> FetchOutcome, f2: string -> FetchOutcome)
    ensures hotelId !in s.hotels ==>
      SyncHotelSpec(s, hotelId, now, f1) == SyncHotelSpec(s, hotelId, now, f2) == (s, SyncFailed("Hotel not found"))
    ensures hotelId in s.hotels && !Truthy(s.hotels[hotelId].icsUrl) ==>
      SyncHotelSpec(s, hotelId, now, f1) == SyncHotelSpec(s, hotelId, now, f2) == (s, SyncFailed("ICS URL not configured"))
    ensures hotelId in s.hotels && Truthy(s.hotels[hotelId].icsUrl) && !s.hotels[hotelId].icsSyncEnabled ==>
      SyncHotelSpec(s, hotelId, now, f1) == SyncHotelSpec(s, hotelId, now, f2) == (s, SyncFailed("ICS sync not enabled for this hotel"))
    ensures SyncHotelSpec(s, hotelId, now, f1).1.SyncFailed? ==> SyncHotelSpec(s, hotelId, now, f1).0 == s
  {
  }

  /** Keys already stored stay stored when every old position keeps its key. */
  lemma KeyKept(events: seq<IcsEvent>, e1: seq<IcsEvent>, hotelId: Id, uid: string)
    requires |events| <= |e1|
    requires forall k | 0 <= k < |events| :: e1[k].hotelId == events[k].hotelId && e1[k].uid == events[k].uid
    requires FindEvent(events, hotelId, uid).Some?
    ensures FindEvent(e1, hotelId, uid).Some?
  {
    var k := FindEvent(events, hotelId, uid).value;
    assert e1[k].hotelId == hotelId && e1[k].uid == uid;
  }

  lemma UpsertEventEffect(t: Tally, hotelId: Id, company: Id, v: VEvent, now: Instant)
    requires UniqueKeys(t.events)
    ensures var t1 := UpsertEvent(t, hotelId, company, v, now);
      && UniqueKeys(t1.events)
      && t1.created >= t.created && t1.updated >= t.updated
      && (t1.created - t.created) + (t1.updated - t.updated) == (if Usable(v) then 1 else 0)
      && |t1.events| == |t.events| + (t1.created - t.created)
      && (forall k | 0 <= k < |t.events| && t.events[k].hotelId != hotelId :: t1.events[k] == t.events[k])
      && (forall k | 0 <= k < |t.events| :: t1.events[k].hotelId == t.events[k].hotelId && t1.events[k].uid == t.events[k].uid)
      && (Usable(v) ==> FindEvent(t1.events, hotelId, v.uid.value).Some?)
  {
    var t1 := UpsertEvent(t, hotelId, company, v, now);
    if Usable(v) {
      var doc := EventDoc(hotelId, company, v, now);
      match FindEvent(t.events, hotelId, v.uid.value)
      case Some(k) => assert t1.events[k] == doc;
      case None => assert t1.events[|t.events|] == doc;
    }
  }

  /** The whole loop: the counters grow by one for every usable VEVENT and
      for nothing else, and creations are exactly the new documents. */
  lemma {:induction false} UpsertAllCounts(t: Tally, hotelId: Id, company: Id, vs: seq<VEvent>, now: Instant)
    requires UniqueKeys(t.events)
    ensures var t1 := UpsertAll(t, hotelId, company, vs, now);
      && t1.created >= t.created && t1.updated >= t.updated
      && (t1.created - t.created) + (t1.updated - t.updated) == |Filter(vs, Usable)|
      && |t1.events| == |t.events| + (t1.created - t.created)
    decreases |vs|
  {
    if vs != [] {
      var t0 := UpsertEvent(t, hotelId, company, vs[0], now);
      UpsertEventEffect(t, hotelId, company, vs[0], now);
      UpsertAllCounts(t0, hotelId, company, vs[1..], now);
      assert |Filter(vs, Usable)| == (if Usable(vs[0]) then 1 else 0) + |Filter(vs[1..], Usable)|;
    }
  }

  /** The whole loop keeps keys unique and in place, and leaves the events
      of other hotels untouched. */
  lemma {:induction false} UpsertAllKeys(t: Tally, hotelId: Id, company: Id, vs: seq<VEvent>, now: Instant)
    requires UniqueKeys(t.events)
    ensures var t1 := UpsertAll(t, hotelId, company, vs, now);
      && UniqueKeys(t1.events)
      && |t1.events| >= |t.events|
      && (forall k | 0 <= k < |t.events| && t.events[k].hotelId != hotelId :: t1.events[k] == t.events[k])
      && (forall k | 0 <= k < |t.events| :: t1.events[k].hotelId == t.events[k].hotelId && t1.events[k].uid == t.events[k].uid)
    decreases |vs|
  {
    if vs != [] {
      var t0 := UpsertEvent(t, hotelId, company, vs[0], now);
      UpsertEventEffect(t, hotelId, company, vs[0], now);
      UpsertAllKeys(t0, hotelId, company, vs[1..], now);
    }
  }

  /** After the loop every usable VEVENT has a stored event under its key. */
  lemma {:induction false} UpsertAllStores(t: Tally, hotelId: Id, company: Id, vs: seq<VEvent>, now: Instant)
    requires UniqueKeys(t.events)
    ensures var t1 := UpsertAll(t, hotelId, company, vs, now);
      forall v | v in vs && Usable(v) :: FindEvent(t1.events, hotelId, v.uid.value).Some?
    decreases |vs|
  {
    if vs != [] {
      var t0 := UpsertEvent(t, hotelId, company, vs[0], now);
      UpsertEventEffect(t, hotelId, company, vs[0], now);
      UpsertAllStores(t0, hotelId, company, vs[1..], now);
      UpsertAllKeys(t0, hotelId, company, vs[1..], now);
      var t1 := UpsertAll(t0, hotelId, company, vs[1..], now);
      if Usable(vs[0]) {
        KeyKept(t0.events, t1.events, hotelId, vs[0].uid.value);
      }
      forall v | v in vs && Usable(v) ensures FindEvent(t1.events, hotelId, v.uid.value).Some? {
        if v != vs[0] {
          assert v in vs[1..];
        }
      }
    }
  }

  /** A successful sync counts processed = created + updated = the usable
      VEVENTs, keeps at most one event per key, stamps the hotel's last
      sync time after the loop, and changes no other hotel. */
  lemma SyncedCounts(s: HotelState, hotelId: Id, now: Instant, fetch: string -> FetchOutcome)
    requires UniqueKeys(s.events)
    ensures var (s1, r) := SyncHotelSpec(s, hotelId, now, fetch);
      && UniqueKeys(s1.events)
      && (r.Synced? ==>
            && hotelId in s.hotels
            && fetch(s.hotels[hotelId].icsUrl.value).Fetched?
            && r.processed == r.created + r.updated == |Filter(fetch(s.hotels[hotelId].icsUrl.value).events, Usable)|
            && |s1.events| == |s.events| + r.created
            && (forall v | v in fetch(s.hotels[hotelId].icsUrl.value).events && Usable(v) ::
                  FindEvent(s1.events, hotelId, v.uid.value).Some?)
            && s1.hotels == s.hotels[hotelId := s.hotels[hotelId].(icsSyncLastAt := Some(now))])
      && (r.SyncFailed? ==> s1 == s)
  {
    if hotelId in s.hotels && Truthy(s.hotels[hotelId].icsUrl) && s.hotels[hotelId].icsSyncEnabled {
      var f := fetch(s.hotels[hotelId].icsUrl.value);
      if f.Fetched? {
        UpsertAllCounts(Tally(s.events, 0, 0), hotelId, s.hotels[hotelId].company, f.events, now);
        UpsertAllKeys(Tally(s.events, 0, 0), hotelId, s.hotels[hotelId].company, f.events, now);
        UpsertAllStores(Tally(s.events, 0, 0), hotelId, s.hotels[hotelId].company, f.events, now);
      }
    }
  }

  // ---------------------------------------------------------------------
  // All hotels
  // ---------------------------------------------------------------------

  /** One entry of the run's details: the hotel and its sync result. */
  datatype SyncDetail = SyncDetail(hotelId: Id, hotelName: string, result: SyncResult)

  datatype SyncAllSummary = SyncAllSummary(total: nat, success: nat, failed: nat, details: seq<SyncDetail>)

  /** The hotels query: active hotels with syncing enabled, in the store's
      order (`order` lists the stored hotel ids in that order), at most 1000.
      Below the cap every such hotel is a target. */
  function SyncTargets(hotels: map<Id, Hotel>, order: seq<Id>): (r: seq<Id>)
    ensures |r| <= 1000
    ensures forall id | id in r :: id in hotels && hotels[id].icsSyncEnabled && hotels[id].isActive
    ensures forall id | id in order && id in hotels && hotels[id].icsSyncEnabled && hotels[id].isActive ::
      id in r || |r| == 1000
    ensures Subseq(r, order)
  {
    var wanted := (id: Id) => id in hotels && hotels[id].icsSyncEnabled && hotels[id].isActive;
    var f := Filter(order, wanted);
    var r := Take(f, 1000);
    assert forall id | id in r :: id in hotels && hotels[id].icsSyncEnabled && hotels[id].isActive by {
      forall id | id in r ensures id in hotels && hotels[id].icsSyncEnabled && hotels[id].isActive {
        var k :| 0 <= k < |r| && r[k] == id;
        assert f[k] == id;
        assert wanted(id);
      }
    }
    SubseqPrefix(r, f, order);
    r
  }

  function SyncEach(s: HotelState, sum: SyncAllSummary, targets: seq<Id>, names: map<Id, string>,
                    now: Instant, fetch: string -> FetchOutcome): (HotelState, SyncAllSummary)
    decreases |targets|
  {
    if targets == [] then (s, sum)
    else
      var step := SyncHotelSpec(s, targets[0], now, fetch);
      SyncEach(step.0, Counted(sum, targets[0], names, step.1), targets[1..], names, now, fetch)
  }

  /** The summary after one hotel: its result counted as a success or a
      failure, and its detail appended under the hotel's name. */
  function Counted(sum: SyncAllSummary, id: Id, names: map<Id, string>, r: SyncResult): SyncAllSummary {
    sum.(success := sum.success + (if r.Synced? then 1 else 0),
         failed := sum.failed + (if r.Synced? then 0 else 1),
         details := sum.details + [SyncDetail(id, if id in names then names[id] else "", r)])
  }

  lemma SyncEachStep(s: HotelState, sum: SyncAllSummary, targets: seq<Id>, names: map<Id, string>,
                     now: Instant, fetch: string -> FetchOutcome)
    requires targets != []
    ensures var step := SyncHotelSpec(s, targets[0], now, fetch);
      SyncEach(s, sum, targets, names, now, fetch) == SyncEach(step.0, Counted(sum, targets[0], names, step.1), targets[1..], names, now, fetch)
  {
  }

  function HotelNames(hotels: map<Id, Hotel>): map<Id, string> {
    map id | id in hotels :: hotels[id].name
  }

  /** `sync_all_hotels` as a function of the store. */
  function SyncAllSpec(s: HotelState, order: seq<Id>, now: Instant, fetch: string -> FetchOutcome): (HotelState, SyncAllSummary) {
    var targets := SyncTargets(s.hotels, order);
    SyncEach(s, SyncAllSummary(|targets|, 0, 0, []), targets, HotelNames(s.hotels), now, fetch)
  }

  method SyncAllHotels(db: HotelDb, order: seq<Id>, now: Instant, fetch: string -> FetchOutcome) returns (results: SyncAllSummary)
    modifies db
    ensures (db.State(), results) == SyncAllSpec(old(db.State()), order, now, fetch)
  {
    var targets := SyncTargets(db.hotels, order);
    var names := HotelNames(db.hotels);
    results := SyncAllSummary(|targets|, 0, 0, []);
    ghost var goal := SyncAllSpec(db.State(), order, now, fetch);
    assert targets[0..] == targets;
    var i := 0;
    while i < |targets|
      invariant 0 <= i <= |targets|
      invariant SyncEach(db.State(), results, targets[i..], names, now, fetch) == goal
    {
      assert targets[i..][1..] == targets[i + 1..];
      SyncEachStep(db.State(), results, targets[i..], names, now, fetch);
      results := SyncNext(db, targets[i], names, now, fetch, results);
      i := i + 1;
    }
    assert targets[i..] == [];
    assert SyncEach(db.State(), results, [], names, now, fetch) == (db.State(), results);
  }

  /** One pass of the loop in `sync_all_hotels`: sync the hotel, then count
      its result and record its detail. */
  method SyncNext(db: HotelDb, id: Id, names: map<Id, string>, now: Instant, fetch: string -> FetchOutcome,
                  sum: SyncAllSummary) returns (results: SyncAllSummary)
    modifies db
    ensures var step := SyncHotelSpec(old(db.State()), id, now, fetch);
      db.State() == step.0 && results == Counted(sum, id, names, step.1)
  {
    var r := SyncHotelIcs(db, id, now, fetch);
    var name := if id in names then names[id] else "";
    results := sum;
    if r.Synced? {
      results := results.(success := results.success + 1);
    } else {
      results := results.(failed := results.failed + 1);
    }
    results := results.(details := results.details + [SyncDetail(id, name, r)]);
  }

  lemma {:induction false} SyncEachCounts(s: HotelState, sum: SyncAllSummary, targets: seq<Id>, names: map<Id, string>,
                                          now: Instant, fetch: string -> FetchOutcome)
    ensures var (_, sum1) := SyncEach(s, sum, targets, names, now, fetch);
      && sum1.total == sum.total
      && sum1.success + sum1.failed == sum.success + sum.failed + |targets|
      && |sum1.details| == |sum.details| + |targets|
      && sum.details <= sum1.details
      && forall k | 0 <= k < |targets| :: sum1.details[|sum.details| + k].hotelId == targets[k]
    decreases |targets|
  {
    if targets != [] {
      var step := SyncHotelSpec(s, targets[0], now, fetch);
      var s1, sum0 := step.0, Counted(sum, targets[0], names, step.1);
      SyncEachStep(s, sum, targets, names, now, fetch);
      SyncEachCounts(s1, sum0, targets[1..], names, now, fetch);
      var (_, sum1) := SyncEach(s1, sum0, targets[1..], names, now, fetch);
      forall k | 0 <= k < |targets| ensures sum1.details[|sum.details| + k].hotelId == targets[k] {
        if k > 0 {
          assert sum1.details[|sum0.details| + (k - 1)].hotelId == targets[1..][k - 1];
        } else {
          assert sum0.details <= sum1.details;
          assert sum1.details[|sum.details|] == sum0.details[|sum.details|];
        }
      }
    }
  }

  /** The run covers the query's hotels, one detail each and in order, and
      success + failed == total == details. */
  lemma SyncAllCounts(s: HotelState, order: seq<Id>, now: Instant, fetch: string -> FetchOutcome)
    ensures var targets := SyncTargets(s.hotels, order);
      var (_, res) := SyncAllSpec(s, order, now, fetch);
      && res.total == |targets| == |res.details|
      && res.success + res.failed == res.total
      && (forall k | 0 <= k < |targets| :: res.details[k].hotelId == targets[k])
      && (forall id | id in targets :: id in s.hotels && s.hotels[id].icsSyncEnabled && s.hotels[id].isActive)
  {
    var targets := SyncTargets(s.hotels, order);
    SyncEachCounts(s, SyncAllSummary(|targets|, 0, 0, []), targets, HotelNames(s.hotels), now, fetch);
  }
}
