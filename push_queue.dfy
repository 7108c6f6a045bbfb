/** The push retry worker: it takes the due items of the push queue, pushes
    each one's reservation again through the hotel's adapter, logs every
    attempt, and marks the item sent or reschedules it with exponential
    backoff. One clock reading (`now`) serves the whole run. */
module PushQueue {
  import opened Common
  import opened HotelModels
  import opened PushAdapter

  /** One entry of `results["details"]`. */
  datatype Detail = Detail(queueId: Id, reservationId: Id, success: bool, error: Option<string>)

  /** The worker's result: processed, succeeded and failed counts, and details. */
  datatype Summary = Summary(processed: nat, succeeded: nat, failed: nat, details: seq<Detail>)

  const NoWork := Summary(0, 0, 0, [])

  /** The worker never lets an item reach a sixth attempt. */
  const MaxAttempts := 5

  // ---------------------------------------------------------------------
  // Selection
  // ---------------------------------------------------------------------

  /** The due items in the store's order. */
  function DueItems(queue: seq<QueueItem>, now: Instant): (r: seq<QueueItem>)
    ensures forall x :: x in r <==> x in queue && Due(x, now)
    ensures Subseq(r, queue)
  {
    Filter(queue, (x: QueueItem) => Due(x, now))
  }

  /** The selection query `find(...).limit(maxItems)`: the first due items
      in the store's order, at most `maxItems` of them. */
  function Select(queue: seq<QueueItem>, now: Instant, maxItems: nat): (r: seq<QueueItem>)
    requires maxItems >= 1
    ensures |r| <= maxItems
    ensures forall x | x in r :: x in queue && Due(x, now)
    ensures |r| < maxItems ==> forall x | x in queue && Due(x, now) :: x in r
    ensures r <= DueItems(queue, now) && Subseq(r, queue)
  {
    var due := DueItems(queue, now);
    var r := Take(due, maxItems);
    assert forall x | x in r :: x in due by {
      forall x | x in r ensures x in due {
        var k :| 0 <= k < |r| && r[k] == x;
        assert due[k] == x;
      }
    }
    SubseqPrefix(r, due, queue);
    r
  }

  // ---------------------------------------------------------------------
  // Updates of one queue document
  // ---------------------------------------------------------------------

  /** The position of the first queue document with this id. */
  function FindItem(q: seq<QueueItem>, id: Id): (r: Option<nat>)
    ensures r.Some? ==> r.value < |q| && q[r.value].id == id && forall j | 0 <= j < r.value :: q[j].id != id
    ensures r.None? ==> forall j | 0 <= j < |q| :: q[j].id != id
  {
    if q == [] then None
    else if q[0].id == id then Some(0)
    else match FindItem(q[1..], id)
      case None => None
      case Some(k) => Some(k + 1)
  }

  /** The `$set`/`$inc` documents written to a queue item: the worker's
      four, and the manual retry's reset. */
  datatype Change =
    | MarkMissing
    | MarkProcessing(at: Instant)
    | MarkSent
    | Reschedule(error: string, next: Instant)
    | Requeue(at: Instant)

  function Apply(x: QueueItem, c: Change): QueueItem {
    match c
    case MarkMissing => x.(status := Failed, error := Some("Hotel or reservation not found"))
    case MarkProcessing(at) => x.(status := Processing, lastAttemptAt := Some(at), attemptCount := x.attemptCount + 1)
    case MarkSent => x.(status := Sent)
    case Reschedule(error, next) => x.(status := Queued, error := Some(Take(error, 500)), nextRetryAt := Some(next))
    case Requeue(at) => x.(status := Queued, nextRetryAt := Some(at), error := None)
  }

  /** `update_one({"id": id}, ...)`: the first document with that id is
      changed; without one, nothing changes. */
  function UpdateItem(q: seq<QueueItem>, id: Id, c: Change): (r: seq<QueueItem>)
    ensures |r| == |q|
    ensures forall j | 0 <= j < |q| && Some(j) != FindItem(q, id) :: r[j] == q[j]
    ensures FindItem(q, id).Some? ==> r[FindItem(q, id).value] == Apply(q[FindItem(q, id).value], c)
    ensures forall j | 0 <= j < |q| :: r[j].id == q[j].id
  {
    match FindItem(q, id)
    case None => q
    case Some(k) => q[k := Apply(q[k], c)]
  }

  function Pow2(k: nat): nat {
    if k == 0 then 1 else 2 * Pow2(k - 1)
  }

  /** The backoff after the `attempt`-th attempt: 2^attempt minutes, at most an hour. */
  function RetryDelayMinutes(attempt: nat): nat {
    Min(Pow2(attempt), 60)
  }

  /** `response.get("status_code")` of the response data. */
  function ResponseCode(d: Option<ResponseData>): Option<int> {
    if d.Some? && d.value.HttpData? then Some(d.value.statusCode) else None
  }

  /** `str(response)`, the rendering of the response data as a dict. */
  function RenderResponse(d: ResponseData): string {
    match d
    case HttpData(code, None) => "{'status_code': " + IntToString(code) + "}"
    case HttpData(code, Some(body)) => "{'status_code': " + IntToString(code) + ", 'response': '" + body + "'}"
    case MailData(email, at) => "{'email': '" + email + "', 'sent_at': '" + at + "'}"
  }

  function ResponseBody(d: Option<ResponseData>): (r: Option<string>)
    ensures r.Some? <==> d.Some?
    ensures r.Some? ==> |r.value| <= 1000
  {
    if d.Some? then Some(Take(RenderResponse(d.value), 1000)) else None
  }

  function AttemptLog(item: QueueItem, r: PushResult): PushLog {
    PushLog(item.hotelId, item.reservationId, item.company, item.pushMethod, item.payload,
            ResponseCode(r.response), ResponseBody(r.response), r.success, r.error)
  }

  // ---------------------------------------------------------------------
  // One item, and the whole run
  // ---------------------------------------------------------------------

  /** The body of the worker's loop for one selected item. An exception
      raised by the adapter, or by slicing a missing error message, is
      caught: the item only counts as failed, and what was already written
      stays written. */
  function StepItem(s: HotelState, sum: Summary, item: QueueItem, now: Instant, w: World): (HotelState, Summary) {
    if item.hotelId !in s.hotels || item.reservationId !in s.reservations then
      (s.(queue := UpdateItem(s.queue, item.id, MarkMissing)), sum.(failed := sum.failed + 1))
    else
      Attempt(s, sum, item, now, PushReservation(s.hotels[item.hotelId], s.reservations[item.reservationId], w))
  }

  /** The part of a step after the push, given what the adapter did. */
  function Attempt(s: HotelState, sum: Summary, item: QueueItem, now: Instant, outcome: AdapterOutcome): (HotelState, Summary)
    requires item.reservationId in s.reservations
  {
    var queue := AttemptQueue(s.queue, item, now, outcome);
    match outcome
    case Escaped(_) =>
      (s.(queue := queue), sum.(failed := sum.failed + 1))
    case Returned(r) =>
      var logs := s.logs + [AttemptLog(item, r)];
      var detail := Detail(item.id, item.reservationId, r.success, r.error);
      if r.success then
        var res := s.reservations[item.reservationId];
        var reservations := s.reservations[item.reservationId := res.(pushStatus := PushSent, pushLastAttemptAt := Some(now))];
        (s.(queue := queue, logs := logs, reservations := reservations),
         sum.(processed := sum.processed + 1, succeeded := sum.succeeded + 1, details := sum.details + [detail]))
      else if r.error.None? then
        (s.(queue := queue, logs := logs), sum.(failed := sum.failed + 1))
      else
        (s.(queue := queue, logs := logs),
         sum.(processed := sum.processed + 1, failed := sum.failed + 1, details := sum.details + [detail]))
  }

  /** The writes an attempt makes to the queue: the item is marked
      processing before the push, then marked sent after a success or
      rescheduled after a failure that carries a message. */
  function AttemptQueue(q: seq<QueueItem>, item: QueueItem, now: Instant, outcome: AdapterOutcome): seq<QueueItem> {
    var q1 := UpdateItem(q, item.id, MarkProcessing(now));
    if outcome.Escaped? then q1
    else if outcome.result.success then UpdateItem(q1, item.id, MarkSent)
    else if outcome.result.error.None? then q1
    else UpdateItem(q1, item.id, Reschedule(outcome.result.error.value, now + RetryDelayMinutes(item.attemptCount + 1) * 60))
  }

  /** The loop over the selected items, in order. */
  function ProcessAll(s: HotelState, sum: Summary, items: seq<QueueItem>, now: Instant, w: World): (HotelState, Summary)
    decreases |items|
  {
    if items == [] then (s, sum)
    else
      var (s1, sum1) := StepItem(s, sum, items[0], now, w);
      ProcessAll(s1, sum1, items[1..], now, w)
  }

  /** `process_push_queue` as a function of the store. */
  function ProcessPushQueueSpec(s: HotelState, maxItems: nat, now: Instant, w: World): (HotelState, Summary)
    requires maxItems >= 1
  {
    ProcessAll(s, NoWork, Select(s.queue, now, maxItems), now, w)
  }

  // ---------------------------------------------------------------------
  // The worker
  // ---------------------------------------------------------------------

  method ProcessItem(db: HotelDb, sum: Summary, item: QueueItem, now: Instant, w: World) returns (out: Summary)
    modifies db
    ensures (db.State(), out) == StepItem(old(db.State()), sum, item, now, w)
  {
    if item.hotelId !in db.hotels || item.reservationId !in db.reservations {
      db.queue := UpdateItem(db.queue, item.id, MarkMissing);
      out := sum.(failed := sum.failed + 1);
      return;
    }
    ghost var s0 := db.State();
    var hotel := db.hotels[item.hotelId];
    var res := db.reservations[item.reservationId];
    db.queue := UpdateItem(db.queue, item.id, MarkProcessing(now));
    var outcome := PushReservation(hotel, res, w);
    StepPushes(s0, sum, item, now, w);
    out := FinishAttempt(db, s0, sum, item, now, outcome);
  }

  /** The writes after the push, once the item is marked processing. */
  method FinishAttempt(db: HotelDb, ghost s0: HotelState, sum: Summary, item: QueueItem, now: Instant, outcome: AdapterOutcome)
    returns (out: Summary)
    requires item.reservationId in s0.reservations
    requires db.State() == s0.(queue := UpdateItem(s0.queue, item.id, MarkProcessing(now)))
    modifies db
    ensures (db.State(), out) == Attempt(s0, sum, item, now, outcome)
  {
    out := sum;
    if outcome.Escaped? {
      out := out.(failed := out.failed + 1);
      return;
    }
    var r := outcome.result;
    db.logs := db.logs + [AttemptLog(item, r)];
    if r.success {
      var res := db.reservations[item.reservationId];
      db.queue := UpdateItem(db.queue, item.id, MarkSent);
      db.reservations := db.reservations[item.reservationId := res.(pushStatus := PushSent, pushLastAttemptAt := Some(now))];
      out := out.(succeeded := out.succeeded + 1);
    } else {
      if r.error.None? {
        out := out.(failed := out.failed + 1);
        return;
      }
      var next := now + RetryDelayMinutes(item.attemptCount + 1) * 60;
      db.queue := UpdateItem(db.queue, item.id, Reschedule(r.error.value, next));
      out := out.(failed := out.failed + 1);
    }
    out := out.(processed := out.processed + 1, details := out.details + [Detail(item.id, item.reservationId, r.success, r.error)]);
  }

  /** `process_push_queue(max_items)`. */
  method ProcessPushQueue(db: HotelDb, maxItems: nat, now: Instant, w: World) returns (results: Summary)
    requires maxItems >= 1
    modifies db
    ensures (db.State(), results) == ProcessPushQueueSpec(old(db.State()), maxItems, now, w)
  {
    var items := Select(db.queue, now, maxItems);
    results := NoWork;
    var i := 0;
    while i < |items|
      invariant 0 <= i <= |items|
      invariant ProcessAll(db.State(), results, items[i..], now, w) == ProcessPushQueueSpec(old(db.State()), maxItems, now, w)
    {
      assert items[i..][1..] == items[i + 1..];
      results := ProcessItem(db, results, items[i], now, w);
      i := i + 1;
    }
  }

  // ---------------------------------------------------------------------
  // Properties
  // ---------------------------------------------------------------------

  /** Each step counts its item once, as succeeded or as failed; it counts
      it as processed exactly when it adds a detail, and logs at least
      every processed attempt. */
  lemma StepCounts(s: HotelState, sum: Summary, item: QueueItem, now: Instant, w: World)
    ensures var (s1, sum1) := StepItem(s, sum, item, now, w);
      && sum1.succeeded + sum1.failed == sum.succeeded + sum.failed + 1
      && sum1.succeeded >= sum.succeeded && sum1.processed >= sum.processed
      && sum1.processed - sum.processed == |sum1.details| - |sum.details| <= 1
      && sum.details <= sum1.details
      && sum1.succeeded - sum.succeeded <= sum1.processed - sum.processed
      && s.logs <= s1.logs
      && sum1.processed - sum.processed <= |s1.logs| - |s.logs| <= 1
      && s1.hotels == s.hotels && s1.events == s.events && |s1.queue| == |s.queue|
  {
    if item.hotelId in s.hotels && item.reservationId in s.reservations {
      StepPushes(s, sum, item, now, w);
      AttemptCounts(s, sum, item, now, PushReservation(s.hotels[item.hotelId], s.reservations[item.reservationId], w));
    }
  }

  lemma AttemptCounts(s: HotelState, sum: Summary, item: QueueItem, now: Instant, outcome: AdapterOutcome)
    requires item.reservationId in s.reservations
    ensures var (s1, sum1) := Attempt(s, sum, item, now, outcome);
      && sum1.succeeded + sum1.failed == sum.succeeded + sum.failed + 1
      && sum1.succeeded >= sum.succeeded && sum1.processed >= sum.processed
      && sum1.processed - sum.processed == |sum1.details| - |sum.details| <= 1
      && sum.details <= sum1.details
      && sum1.succeeded - sum.succeeded <= sum1.processed - sum.processed
      && s.logs <= s1.logs
      && sum1.processed - sum.processed <= |s1.logs| - |s.logs| <= 1
      && s1.hotels == s.hotels && s1.events == s.events && |s1.queue| == |s.queue|
  {
  }

  /** Over a whole run: every selected item is counted once as succeeded or
      failed, `processed` is the number of details, the successes are among
      them, every processed attempt is logged, and nothing is un-logged. */
  lemma {:induction false} ProcessAllCounts(s: HotelState, sum: Summary, items: seq<QueueItem>, now: Instant, w: World)
    ensures var (s1, sum1) := ProcessAll(s, sum, items, now, w);
      && sum1.succeeded + sum1.failed == sum.succeeded + sum.failed + |items|
      && sum1.processed - sum.processed == |sum1.details| - |sum.details| <= |items|
      && sum1.succeeded - sum.succeeded <= sum1.processed - sum.processed
      && sum.details <= sum1.details
      && s.logs <= s1.logs
      && sum1.processed - sum.processed <= |s1.logs| - |s.logs| <= |items|
      && s1.hotels == s.hotels && s1.events == s.events && |s1.queue| == |s.queue|
    decreases |items|
  {
    if items != [] {
      var (s0, sum0) := StepItem(s, sum, items[0], now, w);
      StepCounts(s, sum, items[0], now, w);
      ProcessAllCounts(s0, sum0, items[1..], now, w);
      var (s1, sum1) := ProcessAll(s0, sum0, items[1..], now, w);
    }
  }

  /** The counters of a whole run, as the caller sees them. */
  lemma RunCounts(s: HotelState, maxItems: nat, now: Instant, w: World)
    requires maxItems >= 1
    ensures var (s1, res) := ProcessPushQueueSpec(s, maxItems, now, w);
      && res.succeeded + res.failed == |Select(s.queue, now, maxItems)| <= maxItems
      && res.processed == |res.details|
      && res.succeeded <= res.processed
      && |s.logs| + res.processed <= |s1.logs|
  {
    ProcessAllCounts(s, NoWork, Select(s.queue, now, maxItems), now, w);
  }

  lemma {:induction false} Pow2Grows(k: nat)
    ensures Pow2(k) >= k + 1
  {
    if k > 0 {
      Pow2Grows(k - 1);
    }
  }

  /** The backoff doubles from two minutes and is capped at one hour; the
      cap is reached from the sixth attempt on, which the worker never
      makes, so the delays it uses are 2, 4, 8, 16 and 32 minutes. */
  lemma RetryDelays(attempt: nat)
    ensures RetryDelayMinutes(1) == 2 && RetryDelayMinutes(2) == 4 && RetryDelayMinutes(3) == 8
    ensures RetryDelayMinutes(4) == 16 && RetryDelayMinutes(5) == 32
    ensures attempt >= 6 ==> RetryDelayMinutes(attempt) == 60
  {
    if attempt >= 6 {
      Pow2Monotone(6, attempt);
    }
  }

  lemma {:induction false} Pow2Monotone(j: nat, k: nat)
    requires j <= k
    ensures Pow2(j) <= Pow2(k)
    decreases k
  {
    if j < k {
      Pow2Monotone(j, k - 1);
    }
  }

  /** A push that fails with a message puts the item back in the queue
      with one more attempt, the message cut to 500 characters and the
      next try 2^attempt minutes (at most an hour) later. The item is due
      again exactly from that time on, unless this was its fifth attempt,
      after which it is never selected again and stays queued. */
  lemma FailedPushReschedules(s: HotelState, sum: Summary, item: QueueItem, now: Instant, r: PushResult, k: nat)
    requires item.reservationId in s.reservations
    requires FindItem(s.queue, item.id) == Some(k) && s.queue[k] == item
    requires !r.success && r.error.Some?
    ensures var (s1, sum1) := Attempt(s, sum, item, now, Returned(r));
      var next := now + RetryDelayMinutes(item.attemptCount + 1) * 60;
      && s1.queue[k].status == Queued
      && s1.queue[k].attemptCount == item.attemptCount + 1
      && s1.queue[k].nextRetryAt == Some(next)
      && s1.queue[k].error == Some(Take(r.error.value, 500))
      && next > now
      && (forall t: Instant :: Due(s1.queue[k], t) <==> t >= next && item.attemptCount + 1 < MaxAttempts)
      && sum1.failed == sum.failed + 1 && sum1.processed == sum.processed + 1
  {
    RescheduleQueue(s.queue, item, now, r, k);
    RescheduledIsDue(item, now, r.error.value);
  }

  /** With both documents present, a step is the push followed by the
      attempt's writes. */
  lemma StepPushes(s: HotelState, sum: Summary, item: QueueItem, now: Instant, w: World)
    requires item.hotelId in s.hotels && item.reservationId in s.reservations
    ensures StepItem(s, sum, item, now, w) == Attempt(s, sum, item, now, PushReservation(s.hotels[item.hotelId], s.reservations[item.reservationId], w))
  {
  }

  lemma RescheduleQueue(q: seq<QueueItem>, item: QueueItem, now: Instant, r: PushResult, k: nat)
    requires FindItem(q, item.id) == Some(k) && q[k] == item
    requires !r.success && r.error.Some?
    ensures var next := now + RetryDelayMinutes(item.attemptCount + 1) * 60;
      AttemptQueue(q, item, now, Returned(r))[k] == Apply(Apply(item, MarkProcessing(now)), Reschedule(r.error.value, next))
  {
    var q1 := UpdateItem(q, item.id, MarkProcessing(now));
    FindItemSameIds(q, q1, item.id);
  }

  lemma RescheduledIsDue(item: QueueItem, now: Instant, error: string)
    ensures var next := now + RetryDelayMinutes(item.attemptCount + 1) * 60;
      var x := Apply(Apply(item, MarkProcessing(now)), Reschedule(error, next));
      && next > now
      && forall t: Instant :: Due(x, t) <==> t >= next && item.attemptCount + 1 < MaxAttempts
  {
    Pow2Grows(item.attemptCount + 1);
  }

  lemma {:induction false} FindItemSameIds(q: seq<QueueItem>, q1: seq<QueueItem>, id: Id)
    requires |q| == |q1|
    requires forall j | 0 <= j < |q1| :: q1[j].id == q[j].id
    ensures FindItem(q1, id) == FindItem(q, id)
    decreases |q|
  {
    if q != [] {
      FindItemSameIds(q[1..], q1[1..], id);
    }
  }

  /** A successful push marks the item sent and the reservation's push
      status sent, stamped with the run's clock, and logs the attempt. */
  lemma SuccessfulPushMarksSent(s: HotelState, sum: Summary, item: QueueItem, now: Instant, r: PushResult, k: nat)
    requires item.reservationId in s.reservations
    requires FindItem(s.queue, item.id) == Some(k)
    requires r.success
    ensures var (s1, sum1) := Attempt(s, sum, item, now, Returned(r));
      && s1.queue[k].status == Sent
      && s1.queue[k].attemptCount == s.queue[k].attemptCount + 1
      && s1.reservations[item.reservationId].pushStatus == PushSent
      && s1.reservations[item.reservationId].pushLastAttemptAt == Some(now)
      && sum1.succeeded == sum.succeeded + 1
      && s1.logs == s.logs + [AttemptLog(item, r)]
  {
    var q1 := UpdateItem(s.queue, item.id, MarkProcessing(now));
    FindItemSameIds(s.queue, q1, item.id);
  }

  /** The worker marks an item failed only when its hotel or reservation is
      gone; no push outcome does. An exception from the adapter leaves the
      item in `processing`, where the selection never finds it again. */
  lemma OnlyMissingDocumentsFail(s: HotelState, sum: Summary, item: QueueItem, now: Instant, w: World)
    requires item.hotelId in s.hotels && item.reservationId in s.reservations
    ensures var (s1, _) := StepItem(s, sum, item, now, w);
      && (forall j | 0 <= j < |s.queue| :: s1.queue[j].status == Failed ==> s.queue[j].status == Failed)
      && (PushReservation(s.hotels[item.hotelId], s.reservations[item.reservationId], w).Escaped? ==>
            forall j | 0 <= j < |s1.queue| && s1.queue[j].id == item.id && s.queue[j] != s1.queue[j] ::
              s1.queue[j].status == Processing && forall t: Instant :: !Due(s1.queue[j], t))
  {
    var out := PushReservation(s.hotels[item.hotelId], s.reservations[item.reservationId], w);
    assert StepItem(s, sum, item, now, w) == Attempt(s, sum, item, now, out);
    AttemptNeverFails(s, sum, item, now, out);
    if out.Escaped? {
      EscapeLeavesProcessing(s, sum, item, now, out);
    }
  }

  lemma AttemptNeverFails(s: HotelState, sum: Summary, item: QueueItem, now: Instant, out: AdapterOutcome)
    requires item.reservationId in s.reservations
    ensures var s1 := Attempt(s, sum, item, now, out).0;
      forall j | 0 <= j < |s.queue| :: s1.queue[j].status == Failed ==> s.queue[j].status == Failed
  {
    var q1 := UpdateItem(s.queue, item.id, MarkProcessing(now));
    UpdateNeverFails(s.queue, item.id, MarkProcessing(now));
    if out.Returned? {
      UpdateNeverFails(q1, item.id, MarkSent);
      if out.result.error.Some? {
        var next := now + RetryDelayMinutes(item.attemptCount + 1) * 60;
        UpdateNeverFails(q1, item.id, Reschedule(out.result.error.value, next));
      }
    }
  }

  lemma EscapeLeavesProcessing(s: HotelState, sum: Summary, item: QueueItem, now: Instant, out: AdapterOutcome)
    requires item.reservationId in s.reservations && out.Escaped?
    ensures var s1 := Attempt(s, sum, item, now, out).0;
      forall j | 0 <= j < |s1.queue| && s1.queue[j].id == item.id && s.queue[j] != s1.queue[j] ::
        s1.queue[j].status == Processing && forall t: Instant :: !Due(s1.queue[j], t)
  {
  }

  /** Only the missing-documents change marks an item failed. */
  lemma UpdateNeverFails(q: seq<QueueItem>, id: Id, c: Change)
    requires !c.MarkMissing?
    ensures forall j | 0 <= j < |q| :: UpdateItem(q, id, c)[j].status == Failed ==> q[j].status == Failed
  {
  }

  /** A missing hotel or reservation marks the item failed for good, with
      nothing pushed and nothing logged. */
  lemma MissingDocumentFails(s: HotelState, sum: Summary, item: QueueItem, now: Instant, w: World, k: nat)
    requires item.hotelId !in s.hotels || item.reservationId !in s.reservations
    requires FindItem(s.queue, item.id) == Some(k)
    ensures var (s1, sum1) := StepItem(s, sum, item, now, w);
      && s1.queue[k].status == Failed
      && s1.queue[k].error == Some("Hotel or reservation not found")
      && s1.logs == s.logs && s1.reservations == s.reservations
      && sum1 == sum.(failed := sum.failed + 1)
      && forall t: Instant :: !Due(s1.queue[k], t)
  {
  }
}
