/** The outbox worker and publisher as they run, alone and without a crash, and the delivery task with its retries. */
module OutboxWorker {
  import opened Prelude
  import opened Outbox

  // ----- draining

  function Mark(outbox: seq<OutboxRow>, batch: seq<nat>): (marked: seq<OutboxRow>)
    requires forall x :: 0 <= x < |batch| ==> batch[x] < |outbox|
    ensures |marked| == |outbox|
    ensures forall i :: 0 <= i < |outbox| ==> marked[i] == if i in batch then outbox[i].(processed := true) else outbox[i]
  {
    if batch == [] then outbox
    else
      var n := |batch| - 1;
      var before := Mark(outbox, batch[..n]);
      before[batch[n] := before[batch[n]].(processed := true)]
  }

  lemma {:induction false} PendingMembers(outbox: seq<OutboxRow>)
    ensures forall x :: 0 <= x < |Pending(outbox)| ==> Pending(outbox)[x] < |outbox| && !outbox[Pending(outbox)[x]].processed
    ensures forall x, y :: 0 <= x < y < |Pending(outbox)| ==> Pending(outbox)[x] < Pending(outbox)[y]
  {
    if outbox != [] {
      PendingMembers(outbox[..|outbox| - 1]);
    }
  }

  lemma BatchMembers(outbox: seq<OutboxRow>)
    ensures var batch := FetchBatch(outbox);
      && (forall x :: 0 <= x < |batch| ==> batch[x] < |outbox| && !outbox[batch[x]].processed)
      && (forall x, y :: 0 <= x < y < |batch| ==> batch[x] < batch[y])
  {
    PendingMembers(outbox);
  }

  /** One crash-free run of the worker marks exactly the rows it fetched. */
  function Drained(outbox: seq<OutboxRow>): seq<OutboxRow> {
    BatchMembers(outbox);
    Mark(outbox, FetchBatch(outbox))
  }

  function DrainedTimes(outbox: seq<OutboxRow>, runs: nat): seq<OutboxRow> {
    if runs == 0 then outbox else Drained(DrainedTimes(outbox, runs - 1))
  }

  lemma {:induction false} MarkOnePending(outbox: seq<OutboxRow>, i: nat)
    requires i < |outbox| && !outbox[i].processed
    ensures |Pending(outbox[i := outbox[i].(processed := true)])| == |Pending(outbox)| - 1
  {
    var n := |outbox| - 1;
    var row := outbox[i].(processed := true);
    if i == n {
      assert outbox[i := row][..n] == outbox[..n];
    } else {
      assert outbox[i := row][..n] == outbox[..n][i := row];
      MarkOnePending(outbox[..n], i);
    }
  }

  lemma {:induction false} MarkPending(outbox: seq<OutboxRow>, batch: seq<nat>)
    requires forall x :: 0 <= x < |batch| ==> batch[x] < |outbox| && !outbox[batch[x]].processed
    requires forall x, y :: 0 <= x < y < |batch| ==> batch[x] != batch[y]
    ensures |Pending(Mark(outbox, batch))| == |Pending(outbox)| - |batch|
  {
    if batch != [] {
      var n := |batch| - 1;
      MarkPending(outbox, batch[..n]);
      assert batch[n] !in batch[..n];
      MarkOnePending(Mark(outbox, batch[..n]), batch[n]);
    }
  }

  function Backlog(outbox: seq<OutboxRow>): nat { |Pending(outbox)| }

  lemma DrainedPending(outbox: seq<OutboxRow>)
    ensures Backlog(Drained(outbox)) == if Backlog(outbox) <= 100 then 0 else Backlog(outbox) - 100
  {
    BatchMembers(outbox);
    MarkPending(outbox, FetchBatch(outbox));
  }

  /** k crash-free runs over n pending rows leave max(0, n - 100k). */
  lemma {:induction false} RunsDrain(outbox: seq<OutboxRow>, runs: nat)
    ensures Backlog(DrainedTimes(outbox, runs)) == if Backlog(outbox) <= 100 * runs then 0 else Backlog(outbox) - 100 * runs
  {
    if runs > 0 {
      RunsDrain(outbox, runs - 1);
      DrainedPending(DrainedTimes(outbox, runs - 1));
    }
  }

  lemma ReceivedAppend(deliveries: seq<Delivery>, d: Delivery, event: nat)
    ensures Received(deliveries + [d], event)
         == if d.event == event then Received(deliveries, event) + [d.endpoint] else Received(deliveries, event)
  {
    assert (deliveries + [d])[..|deliveries|] == deliveries;
  }

  /** The row's event got exactly one more delivery for each endpoint subscribed to it. */
  predicate FannedOut(before: seq<Delivery>, after: seq<Delivery>, endpoints: seq<Endpoint>, row: OutboxRow, id: nat) {
    Received(after, id) == Received(before, id) + Matching(endpoints, row.merchant, row.eventType)
  }

  lemma EventsAfter(events: seq<WebhookEvent>, row: OutboxRow, id: nat)
    ensures var after := if HasEvent(events, id) then events else events + [EventFor(row, id)];
      && HasEvent(after, id)
      && forall o: nat :: HasEvent(events, o) ==> HasEvent(after, o)
  {
    HasEventKept(events, EventFor(row, id));
  }

  /** Exactly the rows of `batch` have been fanned out since the deliveries were `was`. */
  ghost predicate BatchDone(rows: seq<OutboxRow>, batch: seq<nat>, endpoints: seq<Endpoint>,
                            events: seq<WebhookEvent>, was: seq<Delivery>, deliveries: seq<Delivery>) {
    && (forall i :: i in batch ==> i < |rows| && HasEvent(events, i) && FannedOut(was, deliveries, endpoints, rows[i], i))
    && (forall i: nat :: i !in batch ==> Received(deliveries, i) == Received(was, i))
  }

  lemma BatchGrows(rows: seq<OutboxRow>, batch: seq<nat>, id: nat, endpoints: seq<Endpoint>, events: seq<WebhookEvent>,
                   events': seq<WebhookEvent>, was: seq<Delivery>, deliveries: seq<Delivery>, deliveries': seq<Delivery>)
    requires BatchDone(rows, batch, endpoints, events, was, deliveries)
    requires id !in batch && id < |rows|
    requires events' == if HasEvent(events, id) then events else events + [EventFor(rows[id], id)]
    requires FannedOut(deliveries, deliveries', endpoints, rows[id], id)
    requires forall other: nat :: other != id ==> Received(deliveries', other) == Received(deliveries, other)
    ensures BatchDone(rows, batch + [id], endpoints, events', was, deliveries')
  {
    EventsAfter(events, rows[id], id);
  }

  lemma NextInBatch(rows: seq<OutboxRow>, batch: seq<nat>, b: nat)
    requires b < |batch|
    requires forall x :: 0 <= x < |batch| ==> batch[x] < |rows|
    requires forall x, y :: 0 <= x < y < |batch| ==> batch[x] < batch[y]
    ensures batch[b] !in batch[..b] && batch[..b + 1] == batch[..b] + [batch[b]]
    ensures Mark(rows, batch[..b])[batch[b]] == rows[batch[b]]
    ensures Mark(rows, batch[..b + 1]) == Mark(rows, batch[..b])[batch[b] := rows[batch[b]].(processed := true)]
  {
    assert batch[..b + 1][..b] == batch[..b];
  }

  class Worker {
    var outbox: seq<OutboxRow>
    var events: seq<WebhookEvent>
    var endpoints: seq<Endpoint>
    var deliveries: seq<Delivery>
    var passes: nat

    constructor ()
      ensures outbox == [] && events == [] && endpoints == [] && deliveries == [] && passes == 0
    {
      outbox, events, endpoints, deliveries, passes := [], [], [], [], 0;
    }

    method Publish(merchant: nat, eventType: string, resource: string, payload: string) returns (id: nat)
      modifies `outbox
      ensures id == |old(outbox)| && outbox == old(outbox) + [OutboxRow(merchant, eventType, resource, payload, false)]
    {
      id := |outbox|;
      outbox := outbox + [OutboxRow(merchant, eventType, resource, payload, false)];
    }

    /** get_or_create by the unique event id. */
    method GetOrCreateEvent(row: OutboxRow, id: nat)
      modifies `events
      ensures events == if HasEvent(old(events), id) then old(events)
                        else old(events) + [WebhookEvent(id, row.merchant, row.eventType, row.resource, row.payload)]
      ensures HasEvent(events, id)
    {
      var e := 0;
      while e < |events|
        invariant 0 <= e <= |events|
        invariant forall f :: 0 <= f < e ==> events[f].outbox != id
      {
        if events[e].outbox == id {
          return;
        }
        e := e + 1;
      }
      events := events + [WebhookEvent(id, row.merchant, row.eventType, row.resource, row.payload)];
      assert events[|events| - 1].outbox == id;
    }

    method MatchingEndpoints(merchant: nat, eventType: string) returns (matching: seq<nat>)
      ensures matching == Matching(endpoints, merchant, eventType)
      ensures forall i, j :: 0 <= i < j < |matching| ==> matching[i] < matching[j]
      ensures forall e: nat :: e in matching <==>
        && e < |endpoints| && endpoints[e].merchant == merchant && endpoints[e].active
        && (endpoints[e].everything || eventType in endpoints[e].events)
    {
      MatchingIsExact(endpoints, merchant, eventType);
      matching := [];
      var e := 0;
      while e < |endpoints|
        invariant 0 <= e <= |endpoints|
        invariant matching == Matching(endpoints[..e], merchant, eventType)
      {
        assert endpoints[..e + 1][..e] == endpoints[..e];
        if endpoints[e].merchant == merchant && endpoints[e].active && (endpoints[e].everything || eventType in endpoints[e].events) {
          matching := matching + [e];
        }
        e := e + 1;
      }
      assert endpoints[..e] == endpoints;
    }

    /** One delivery per matching endpoint of one row. */
    method FanOut(id: nat, matching: seq<nat>)
      modifies `deliveries
      ensures Received(deliveries, id) == Received(old(deliveries), id) + matching
      ensures forall other: nat :: other != id ==> Received(deliveries, other) == Received(old(deliveries), other)
    {
      var m := 0;
      while m < |matching|
        invariant 0 <= m <= |matching|
        invariant Received(deliveries, id) == Received(old(deliveries), id) + matching[..m]
        invariant forall other: nat :: other != id ==> Received(deliveries, other) == Received(old(deliveries), other)
      {
        var d := Delivery(id, matching[m], passes);
        forall event: nat ensures Received(deliveries + [d], event)
          == if d.event == event then Received(deliveries, event) + [d.endpoint] else Received(deliveries, event)
        {
          ReceivedAppend(deliveries, d, event);
        }
        deliveries := deliveries + [d];
        m := m + 1;
      }
      assert matching[..m] == matching;
    }

    /** One row of the batch: its event, one delivery per matching endpoint, and the mark. */
    method ProcessRow(id: nat)
      requires id < |outbox|
      modifies this
      ensures endpoints == old(endpoints)
      ensures outbox == old(outbox)[id := old(outbox)[id].(processed := true)]
      ensures events == if HasEvent(old(events), id) then old(events) else old(events) + [EventFor(old(outbox)[id], id)]
      ensures FannedOut(old(deliveries), deliveries, endpoints, old(outbox)[id], id)
      ensures forall other: nat :: other != id ==> Received(deliveries, other) == Received(old(deliveries), other)
    {
      hide Received, Matching, HasEvent;
      var row := outbox[id];
      GetOrCreateEvent(row, id);
      var matching := MatchingEndpoints(row.merchant, row.eventType);
      FanOut(id, matching);
      passes := passes + 1;
      outbox := outbox[id := row.(processed := true)];
    }

    /** process_outbox_events_task. */
    method ProcessOutboxEvents() returns (count: nat)
      modifies this
      ensures endpoints == old(endpoints)
      ensures outbox == Drained(old(outbox)) && count == |FetchBatch(old(outbox))|
      ensures BatchDone(old(outbox), FetchBatch(old(outbox)), endpoints, events, old(deliveries), deliveries)
    {
      ghost var rows := outbox;
      var batch := FetchBatch(outbox);
      BatchMembers(outbox);
      var b := 0;
      while b < |batch|
        invariant 0 <= b <= |batch|
        invariant endpoints == old(endpoints)
        invariant outbox == Mark(rows, batch[..b])
        invariant BatchDone(rows, batch[..b], endpoints, events, old(deliveries), deliveries)
      {
        ghost var events0, deliveries0 := events, deliveries;
        NextInBatch(rows, batch, b);
        ProcessRow(batch[b]);
        BatchGrows(rows, batch[..b], batch[b], endpoints, events0, events, old(deliveries), deliveries0, deliveries);
        b := b + 1;
      }
      assert batch[..b] == batch;
      count := |batch|;
    }
  }

  // ----- deliver_webhook_task

  const MAX_DELIVERY_RETRIES: nat := 5

  datatype DeliveryStatus = DeliveryPending | Success | Failed

  datatype EventStatus = EventPending | EventDelivered | EventFailed

  datatype DeliveryRow = DeliveryRow(attempt: nat, status: DeliveryStatus, event: EventStatus)

  /** Seconds before the next attempt after the given number of retries. */
  function Backoff(retries: nat): nat {
    [60, 300, 900, 1800, 3600][if retries < 4 then retries else 4]
  }

  /** One attempt: the row it saves and the delay of the retry it raises, if any. */
  function Attempt(row: DeliveryRow, retries: nat, delivered: bool): (DeliveryRow, Option<nat>) {
    if delivered then (DeliveryRow(retries + 1, Success, EventDelivered), None)
    else if retries >= MAX_DELIVERY_RETRIES then (DeliveryRow(retries + 1, Failed, EventFailed), None)
    else (row.(attempt := retries + 1, status := Failed), Some(Backoff(retries)))
  }

  /** The rows one delivery task works on: the delivery with its event, and the endpoint's two timestamps. */
  class DeliveryTask {
    var row: DeliveryRow
    var lastDelivery: Option<int>
    var lastSuccess: Option<int>

    constructor ()
      ensures row == DeliveryRow(1, DeliveryPending, EventPending) && lastDelivery == None && lastSuccess == None
    {
      row, lastDelivery, lastSuccess := DeliveryRow(1, DeliveryPending, EventPending), None, None;
    }

    /** One execution of deliver_webhook_task, given what the endpoint answered; `delay` is the countdown of the retry it raises. */
    method Deliver(retries: nat, delivered: bool, now: int) returns (delay: Option<nat>)
      modifies this
      ensures (row, delay) == Attempt(old(row), retries, delivered)
      ensures delay == if delivered || retries >= 5 then None
                       else Some(if retries == 0 then 60 else if retries == 1 then 300 else if retries == 2 then 900 else if retries == 3 then 1800 else 3600)
      ensures row == if delivered then DeliveryRow(retries + 1, Success, EventDelivered)
                     else DeliveryRow(retries + 1, Failed, if retries >= 5 then EventFailed else old(row).event)
      ensures (lastDelivery, lastSuccess) == if delivered then (Some(now), Some(now)) else old((lastDelivery, lastSuccess))
    {
      delay := None;
      row := row.(attempt := retries + 1);
      if delivered {
        row := row.(status := Success, event := EventDelivered);
        lastDelivery, lastSuccess := Some(now), Some(now);
      } else {
        row := row.(status := Failed);
        if retries >= MAX_DELIVERY_RETRIES {
          row := row.(event := EventFailed);
        } else {
          var waits := [60, 300, 900, 1800, 3600];
          delay := Some(waits[if retries < 4 then retries else 4]);
        }
      }
    }
  }

  /** The attempts of one delivery, driven by what the endpoint answers, with the time spent waiting. */
  function Attempts(row: DeliveryRow, retries: nat, answers: nat -> bool): (DeliveryRow, nat)
    requires retries <= MAX_DELIVERY_RETRIES
    decreases MAX_DELIVERY_RETRIES - retries
  {
    var (saved, delay) := Attempt(row, retries, answers(retries));
    if delay.None? then (saved, 0)
    else
      var (final, waited) := Attempts(saved, retries + 1, answers);
      (final, delay.value + waited)
  }

  function FirstDelivered(answers: nat -> bool, from: nat): nat
    requires from <= MAX_DELIVERY_RETRIES + 1
    decreases MAX_DELIVERY_RETRIES + 1 - from
  {
    if from > MAX_DELIVERY_RETRIES || answers(from) then from else FirstDelivered(answers, from + 1)
  }

  /** The seconds from the first attempt to each of the six when all before it fail. */
  const ATTEMPT_TIMES: seq<nat> := [0, 60, 360, 1260, 3060, 6660]

  /**
  A delivery is attempted until the first answer in the 2xx range and at most six times; it ends SUCCESS with
  that attempt's number exactly when one of the six succeeds, after the waits up to it.
   */
  lemma {:induction false} DeliveryEnds(row: DeliveryRow, retries: nat, answers: nat -> bool)
    requires retries <= MAX_DELIVERY_RETRIES
    ensures
      var (final, waited) := Attempts(row, retries, answers);
      var first := FirstDelivered(answers, retries);
      && retries <= first <= 6
      && final == (if first <= 5 then DeliveryRow(first + 1, Success, EventDelivered) else DeliveryRow(6, Failed, EventFailed))
      && waited == ATTEMPT_TIMES[if first <= 5 then first else 5] - ATTEMPT_TIMES[retries]
    decreases MAX_DELIVERY_RETRIES - retries
  {
    if !answers(retries) && retries < MAX_DELIVERY_RETRIES {
      var saved := Attempt(row, retries, false).0;
      DeliveryEnds(saved, retries + 1, answers);
    }
  }
}
