/**
The transactional outbox and its fan-out workers. Any number of workers run at once, endpoints change between
any two database operations, and a worker may die anywhere. Outbox rows are numbered in `created_at` order;
a row's number stands for its event id.
 */
module Outbox {
  import opened Prelude

  const BATCH: nat := 100

  datatype OutboxRow = OutboxRow(merchant: nat, eventType: string, resource: string, payload: string, processed: bool)

  datatype WebhookEvent = WebhookEvent(outbox: nat, merchant: nat, eventType: string, resource: string, payload: string)

  datatype Endpoint = Endpoint(merchant: nat, active: bool, everything: bool, events: set<string>)

  /** `pass` records which iteration of which worker created the row. */
  datatype Delivery = Delivery(event: nat, endpoint: nat, pass: nat)

  /**
  One iteration of the worker loop over one outbox row, from the endpoint query on: the endpoints it saw,
  the matching ones, how many deliveries it has made and whether it set `processed`.
   */
  datatype Pass = Pass(outbox: nat, seen: seq<Endpoint>, matching: seq<nat>, made: nat, marked: bool)

  datatype Stage = NeedEvent | NeedEndpoints | Fanning(pass: nat)

  datatype Worker = Worker(batch: seq<nat>, pos: nat, stage: Stage, alive: bool)

  datatype State = State(
    outbox: seq<OutboxRow>,
    events: seq<WebhookEvent>,
    endpoints: seq<Endpoint>,
    deliveries: seq<Delivery>,
    passes: seq<Pass>,
    workers: seq<Worker>)

  datatype Action =
    | Publish(merchant: nat, eventType: string, resource: string, payload: string)
    | AddEndpoint(endpoint: Endpoint)
    | ChangeEndpoint(id: nat, endpoint: Endpoint)
    | Fetch
    | Advance(w: nat)
    | Crash(w: nat)

  const INITIAL := State([], [], [], [], [], [])

  /** The unprocessed rows in creation order. */
  function Pending(outbox: seq<OutboxRow>): seq<nat> {
    if outbox == [] then []
    else
      var n := |outbox| - 1;
      if outbox[n].processed then Pending(outbox[..n]) else Pending(outbox[..n]) + [n]
  }

  function FetchBatch(outbox: seq<OutboxRow>): seq<nat> {
    var pending := Pending(outbox);
    if |pending| <= BATCH then pending else pending[..BATCH]
  }

  predicate Matches(e: Endpoint, merchant: nat, eventType: string) {
    e.merchant == merchant && e.active && (e.everything || eventType in e.events)
  }

  /** The merchant's active endpoints that are subscribed to the type. */
  function Matching(endpoints: seq<Endpoint>, merchant: nat, eventType: string): seq<nat> {
    if endpoints == [] then []
    else
      var n := |endpoints| - 1;
      var before := Matching(endpoints[..n], merchant, eventType);
      if Matches(endpoints[n], merchant, eventType) then before + [n] else before
  }

  predicate HasEvent(events: seq<WebhookEvent>, outbox: nat) {
    exists e :: 0 <= e < |events| && events[e].outbox == outbox
  }

  function EventFor(row: OutboxRow, outbox: nat): WebhookEvent {
    WebhookEvent(outbox, row.merchant, row.eventType, row.resource, row.payload)
  }

  function WithWorker(s: State, w: nat, worker: Worker): State
    requires w < |s.workers|
  {
    s.(workers := s.workers[w := worker])
  }

  /** The next database operation of a worker. */
  function Next(s: State, w: nat): State
    requires w < |s.workers|
  {
    var worker := s.workers[w];
    if !worker.alive || worker.pos >= |worker.batch| || worker.batch[worker.pos] >= |s.outbox| then s
    else
      var outbox := worker.batch[worker.pos];
      match worker.stage
      case NeedEvent =>
        var s1 := if HasEvent(s.events, outbox) then s else s.(events := s.events + [EventFor(s.outbox[outbox], outbox)]);
        WithWorker(s1, w, worker.(stage := NeedEndpoints))
      case NeedEndpoints =>
        var pass := Pass(outbox, s.endpoints, Matching(s.endpoints, s.outbox[outbox].merchant, s.outbox[outbox].eventType), 0, false);
        WithWorker(s.(passes := s.passes + [pass]), w, worker.(stage := Fanning(|s.passes|)))
      case Fanning(k) =>
        if k >= |s.passes| then s
        else
          var pass := s.passes[k];
          if pass.made < |pass.matching| then
            s.(deliveries := s.deliveries + [Delivery(outbox, pass.matching[pass.made], k)],
               passes := s.passes[k := pass.(made := pass.made + 1)])
          else
            WithWorker(
              s.(outbox := s.outbox[outbox := s.outbox[outbox].(processed := true)],
                 passes := s.passes[k := pass.(marked := true)]),
              w, worker.(pos := worker.pos + 1, stage := NeedEvent))
  }

  function Step(s: State, a: Action): State {
    match a
    case Publish(merchant, eventType, resource, payload) => s.(outbox := s.outbox + [OutboxRow(merchant, eventType, resource, payload, false)])
    case AddEndpoint(endpoint) => s.(endpoints := s.endpoints + [endpoint])
    case ChangeEndpoint(id, endpoint) => if id < |s.endpoints| then s.(endpoints := s.endpoints[id := endpoint]) else s
    case Fetch => s.(workers := s.workers + [Worker(FetchBatch(s.outbox), 0, NeedEvent, true)])
    case Advance(w) => if w < |s.workers| then Next(s, w) else s
    case Crash(w) => if w < |s.workers| then WithWorker(s, w, s.workers[w].(alive := false)) else s
  }

  function Run(actions: seq<Action>): State {
    if actions == [] then INITIAL
    else Step(Run(actions[..|actions| - 1]), actions[|actions| - 1])
  }

  // ----- what a pass delivered

  /** The endpoints a pass has created deliveries for, in order. */
  function DeliveredBy(deliveries: seq<Delivery>, pass: nat): seq<nat> {
    if deliveries == [] then []
    else
      var n := |deliveries| - 1;
      if deliveries[n].pass == pass then DeliveredBy(deliveries[..n], pass) + [deliveries[n].endpoint]
      else DeliveredBy(deliveries[..n], pass)
  }

  /** The endpoints that have a delivery of an event, in order. */
  function Received(deliveries: seq<Delivery>, event: nat): seq<nat> {
    if deliveries == [] then []
    else
      var n := |deliveries| - 1;
      if deliveries[n].event == event then Received(deliveries[..n], event) + [deliveries[n].endpoint]
      else Received(deliveries[..n], event)
  }

  lemma DeliveredAppend(deliveries: seq<Delivery>, d: Delivery, pass: nat)
    ensures DeliveredBy(deliveries + [d], pass)
         == if d.pass == pass then DeliveredBy(deliveries, pass) + [d.endpoint] else DeliveredBy(deliveries, pass)
  {
    assert (deliveries + [d])[..|deliveries|] == deliveries;
  }

  lemma {:induction false} NothingDelivered(deliveries: seq<Delivery>, pass: nat)
    requires forall d :: 0 <= d < |deliveries| ==> deliveries[d].pass != pass
    ensures DeliveredBy(deliveries, pass) == []
  {
    if deliveries != [] {
      NothingDelivered(deliveries[..|deliveries| - 1], pass);
    }
  }

  lemma {:induction false} MatchingIsExact(endpoints: seq<Endpoint>, merchant: nat, eventType: string)
    ensures var m := Matching(endpoints, merchant, eventType);
      && (forall i, j :: 0 <= i < j < |m| ==> m[i] < m[j])
      && (forall e: nat :: e in m <==>
            && e < |endpoints| && endpoints[e].merchant == merchant && endpoints[e].active
            && (endpoints[e].everything || eventType in endpoints[e].events))
  {
    if endpoints != [] {
      var n := |endpoints| - 1;
      MatchingIsExact(endpoints[..n], merchant, eventType);
      var before := Matching(endpoints[..n], merchant, eventType);
      assert forall i :: 0 <= i < |before| ==> before[i] in before;
      assert forall i :: 0 <= i < |before| ==> before[i] < n;
    }
  }

  // ----- the invariant

  predicate EventsOk(events: seq<WebhookEvent>, outbox: seq<OutboxRow>) {
    && (forall e :: 0 <= e < |events| ==> events[e].outbox < |outbox| && events[e] == EventFor(outbox[events[e].outbox], events[e].outbox))
    && (forall e, f :: 0 <= e < f < |events| ==> events[e].outbox != events[f].outbox)
  }

  /** Processed rows come first. */
  predicate Prefix(outbox: seq<OutboxRow>) {
    forall i, j :: 0 <= i < j < |outbox| && outbox[j].processed ==> outbox[i].processed
  }

  predicate WorkerOk(worker: Worker, outbox: seq<OutboxRow>) {
    && (forall x :: 0 <= x < |worker.batch| ==> worker.batch[x] == worker.batch[0] + x && worker.batch[x] < |outbox|)
    && (worker.pos < |worker.batch| ==> forall i :: 0 <= i < worker.batch[worker.pos] ==> outbox[i].processed)
  }

  predicate WorkersOk(workers: seq<Worker>, outbox: seq<OutboxRow>) {
    forall w :: 0 <= w < |workers| ==> WorkerOk(workers[w], outbox)
  }

  /** A worker that is fanning out has its own unmarked pass over its current row, whose event exists. */
  ghost predicate StageOk(worker: Worker, passes: seq<Pass>, events: seq<WebhookEvent>) {
    worker.alive && worker.pos < |worker.batch| ==>
      && (!worker.stage.NeedEvent? ==> HasEvent(events, worker.batch[worker.pos]))
      && (worker.stage.Fanning? ==>
            worker.stage.pass < |passes| && passes[worker.stage.pass].outbox == worker.batch[worker.pos] && !passes[worker.stage.pass].marked)
  }

  ghost predicate StagesOk(workers: seq<Worker>, passes: seq<Pass>, events: seq<WebhookEvent>) {
    && (forall w :: 0 <= w < |workers| ==> StageOk(workers[w], passes, events))
    && (forall v, w :: 0 <= v < w < |workers| && workers[v].stage.Fanning? && workers[w].stage.Fanning? ==>
          workers[v].stage.pass != workers[w].stage.pass)
    && (forall w :: 0 <= w < |workers| && workers[w].stage.Fanning? ==> workers[w].stage.pass < |passes|)
  }

  predicate PassOk(pass: Pass, k: nat, outbox: seq<OutboxRow>, deliveries: seq<Delivery>) {
    && pass.outbox < |outbox|
    && pass.matching == Matching(pass.seen, outbox[pass.outbox].merchant, outbox[pass.outbox].eventType)
    && pass.made <= |pass.matching|
    && DeliveredBy(deliveries, k) == pass.matching[..pass.made]
    && (pass.marked ==> pass.made == |pass.matching| && outbox[pass.outbox].processed)
  }

  predicate PassesOk(passes: seq<Pass>, outbox: seq<OutboxRow>, deliveries: seq<Delivery>) {
    forall k :: 0 <= k < |passes| ==> PassOk(passes[k], k, outbox, deliveries)
  }

  ghost predicate DeliveriesOk(deliveries: seq<Delivery>, passes: seq<Pass>, events: seq<WebhookEvent>) {
    forall d :: 0 <= d < |deliveries| ==>
      && deliveries[d].pass < |passes|
      && passes[deliveries[d].pass].outbox == deliveries[d].event
      && HasEvent(events, deliveries[d].event)
  }

  predicate MarkedBy(passes: seq<Pass>, outbox: nat, k: nat) {
    k < |passes| && passes[k].outbox == outbox && passes[k].marked
  }

  ghost predicate ProcessedOk(outbox: seq<OutboxRow>, passes: seq<Pass>) {
    forall i :: 0 <= i < |outbox| && outbox[i].processed ==> exists k :: MarkedBy(passes, i, k)
  }

  ghost predicate Invariant(s: State) {
    && EventsOk(s.events, s.outbox)
    && Prefix(s.outbox)
    && WorkersOk(s.workers, s.outbox)
    && StagesOk(s.workers, s.passes, s.events)
    && PassesOk(s.passes, s.outbox, s.deliveries)
    && DeliveriesOk(s.deliveries, s.passes, s.events)
    && ProcessedOk(s.outbox, s.passes)
  }

  // ----- fetching

  /** When processed rows come first, the pending ones are a range up to the end. */
  lemma {:induction false} PendingIsRange(outbox: seq<OutboxRow>)
    requires Prefix(outbox)
    ensures
      var pending := Pending(outbox);
      && |pending| <= |outbox|
      && (forall x :: 0 <= x < |pending| ==> pending[x] == |outbox| - |pending| + x)
      && (forall i :: 0 <= i < |outbox| ==> (outbox[i].processed <==> i < |outbox| - |pending|))
  {
    if outbox != [] {
      var n := |outbox| - 1;
      PendingIsRange(outbox[..n]);
      if outbox[n].processed {
        assert forall i :: 0 <= i < n ==> outbox[..n][i] == outbox[i] && outbox[i].processed;
        assert Pending(outbox[..n]) == [];
      } else {
        assert forall i :: 0 <= i < n ==> outbox[..n][i] == outbox[i];
      }
    }
  }

  lemma FetchKeeps(s: State)
    requires Invariant(s)
    ensures Invariant(Step(s, Fetch))
  {
    PendingIsRange(s.outbox);
    assert WorkerOk(Worker(FetchBatch(s.outbox), 0, NeedEvent, true), s.outbox);
  }

  lemma PublishKeeps(s: State, row: OutboxRow)
    requires Invariant(s) && !row.processed
    ensures Invariant(s.(outbox := s.outbox + [row]))
  {
    var outbox := s.outbox + [row];
    forall w | 0 <= w < |s.workers| ensures WorkerOk(s.workers[w], outbox) {
      assert WorkerOk(s.workers[w], s.outbox);
    }
    forall k | 0 <= k < |s.passes| ensures PassOk(s.passes[k], k, outbox, s.deliveries) {
      assert PassOk(s.passes[k], k, s.outbox, s.deliveries);
    }
  }

  lemma CrashKeeps(s: State, w: nat)
    requires Invariant(s) && w < |s.workers|
    ensures Invariant(WithWorker(s, w, s.workers[w].(alive := false)))
  {
    var workers := WithWorker(s, w, s.workers[w].(alive := false)).workers;
    forall v | 0 <= v < |workers| ensures WorkerOk(workers[v], s.outbox) && StageOk(workers[v], s.passes, s.events) {
      assert WorkerOk(s.workers[v], s.outbox) && StageOk(s.workers[v], s.passes, s.events);
    }
  }

  predicate Busy(s: State, w: nat) {
    && w < |s.workers| && s.workers[w].alive
    && s.workers[w].pos < |s.workers[w].batch| && s.workers[w].batch[s.workers[w].pos] < |s.outbox|
  }

  lemma HasEventKept(events: seq<WebhookEvent>, e: WebhookEvent)
    ensures forall o: nat :: HasEvent(events, o) ==> HasEvent(events + [e], o)
    ensures HasEvent(events + [e], e.outbox)
  {
    forall o: nat | HasEvent(events, o) ensures HasEvent(events + [e], o) {
      var i :| 0 <= i < |events| && events[i].outbox == o;
      assert (events + [e])[i].outbox == o;
    }
    assert (events + [e])[|events|].outbox == e.outbox;
  }

  lemma EventKeeps(s: State, w: nat)
    requires Invariant(s) && Busy(s, w) && s.workers[w].stage.NeedEvent?
    ensures Invariant(Next(s, w))
  {
    var outbox := s.workers[w].batch[s.workers[w].pos];
    var s' := Next(s, w);
    HasEventKept(s.events, EventFor(s.outbox[outbox], outbox));
    assert HasEvent(s'.events, outbox);
    forall v | 0 <= v < |s'.workers| ensures WorkerOk(s'.workers[v], s.outbox) && StageOk(s'.workers[v], s.passes, s'.events) {
      assert WorkerOk(s.workers[v], s.outbox) && StageOk(s.workers[v], s.passes, s.events);
    }
  }

  lemma PassAdded(s: State, w: nat)
    requires Invariant(s) && Busy(s, w) && s.workers[w].stage.NeedEndpoints?
    ensures PassesOk(Next(s, w).passes, s.outbox, s.deliveries)
    ensures ProcessedOk(s.outbox, Next(s, w).passes)
    ensures DeliveriesOk(s.deliveries, Next(s, w).passes, s.events)
  {
    var passes := Next(s, w).passes;
    NothingDelivered(s.deliveries, |s.passes|);
    forall k | 0 <= k < |passes| ensures PassOk(passes[k], k, s.outbox, s.deliveries) {
      if k < |s.passes| { assert PassOk(s.passes[k], k, s.outbox, s.deliveries); }
    }
    forall i | 0 <= i < |s.outbox| && s.outbox[i].processed ensures exists k :: MarkedBy(passes, i, k) {
      var k :| MarkedBy(s.passes, i, k);
      assert MarkedBy(passes, i, k);
    }
  }

  lemma EndpointsKeep(s: State, w: nat)
    requires Invariant(s) && Busy(s, w) && s.workers[w].stage.NeedEndpoints?
    ensures Invariant(Next(s, w))
  {
    var s' := Next(s, w);
    PassAdded(s, w);
    forall v | 0 <= v < |s'.workers| ensures WorkerOk(s'.workers[v], s.outbox) && StageOk(s'.workers[v], s'.passes, s.events) {
      assert WorkerOk(s.workers[v], s.outbox) && StageOk(s.workers[v], s.passes, s.events);
    }
  }

  /** A worker with a delivery left to make. */
  predicate Delivering(s: State, w: nat) {
    && Busy(s, w) && s.workers[w].stage.Fanning? && s.workers[w].stage.pass < |s.passes|
    && s.passes[s.workers[w].stage.pass].made < |s.passes[s.workers[w].stage.pass].matching|
  }

  /** One more delivery: its own pass has made one more, the others are as they were. */
  lemma PassAfterDelivery(pass: Pass, k: nat, outbox: seq<OutboxRow>, deliveries: seq<Delivery>, d: Delivery)
    requires PassOk(pass, k, outbox, deliveries)
    requires d.pass == k ==> !pass.marked && pass.made < |pass.matching| && d.endpoint == pass.matching[pass.made]
    ensures PassOk(if d.pass == k then pass.(made := pass.made + 1) else pass, k, outbox, deliveries + [d])
  {
    DeliveredAppend(deliveries, d, k);
    if d.pass == k {
      assert pass.matching[..pass.made + 1] == pass.matching[..pass.made] + [pass.matching[pass.made]];
    }
  }

  lemma DeliverPasses(s: State, w: nat)
    requires Invariant(s) && Delivering(s, w)
    ensures PassesOk(Next(s, w).passes, s.outbox, Next(s, w).deliveries)
  {
    var s' := Next(s, w);
    var k0 := s.workers[w].stage.pass;
    var d := Delivery(s.workers[w].batch[s.workers[w].pos], s.passes[k0].matching[s.passes[k0].made], k0);
    assert StageOk(s.workers[w], s.passes, s.events);
    assert s'.deliveries == s.deliveries + [d] && s'.passes == s.passes[k0 := s.passes[k0].(made := s.passes[k0].made + 1)];
    forall k | 0 <= k < |s'.passes| ensures PassOk(s'.passes[k], k, s.outbox, s'.deliveries) {
      PassAfterDelivery(s.passes[k], k, s.outbox, s.deliveries, d);
    }
  }

  lemma DeliverRecords(s: State, w: nat)
    requires Invariant(s) && Delivering(s, w)
    ensures ProcessedOk(s.outbox, Next(s, w).passes)
    ensures DeliveriesOk(Next(s, w).deliveries, Next(s, w).passes, s.events)
  {
    var passes := Next(s, w).passes;
    assert StageOk(s.workers[w], s.passes, s.events);
    forall i | 0 <= i < |s.outbox| && s.outbox[i].processed ensures exists k :: MarkedBy(passes, i, k) {
      var k :| MarkedBy(s.passes, i, k);
      assert MarkedBy(passes, i, k);
    }
  }

  lemma DeliverKeeps(s: State, w: nat)
    requires Invariant(s) && Delivering(s, w)
    ensures Invariant(Next(s, w))
  {
    var s' := Next(s, w);
    DeliverPasses(s, w);
    DeliverRecords(s, w);
    forall v | 0 <= v < |s'.workers| ensures StageOk(s'.workers[v], s'.passes, s.events) {
      assert StageOk(s.workers[v], s.passes, s.events);
    }
  }

  predicate Marking(s: State, w: nat) {
    && Busy(s, w) && s.workers[w].stage.Fanning? && s.workers[w].stage.pass < |s.passes|
    && s.passes[s.workers[w].stage.pass].made >= |s.passes[s.workers[w].stage.pass].matching|
  }

  lemma MarkPasses(s: State, w: nat)
    requires Invariant(s) && Marking(s, w)
    ensures PassesOk(Next(s, w).passes, Next(s, w).outbox, s.deliveries)
  {
    var s' := Next(s, w);
    assert StageOk(s.workers[w], s.passes, s.events);
    forall k | 0 <= k < |s'.passes| ensures PassOk(s'.passes[k], k, s'.outbox, s.deliveries) {
      assert PassOk(s.passes[k], k, s.outbox, s.deliveries);
    }
  }

  lemma MarkProcessed(s: State, w: nat)
    requires Invariant(s) && Marking(s, w)
    ensures ProcessedOk(Next(s, w).outbox, Next(s, w).passes)
  {
    var s' := Next(s, w);
    var k0 := s.workers[w].stage.pass;
    assert StageOk(s.workers[w], s.passes, s.events);
    forall i | 0 <= i < |s'.outbox| && s'.outbox[i].processed ensures exists k :: MarkedBy(s'.passes, i, k) {
      if s.outbox[i].processed {
        var k :| MarkedBy(s.passes, i, k);
        assert MarkedBy(s'.passes, i, k);
      } else {
        assert MarkedBy(s'.passes, i, k0);
      }
    }
  }

  lemma MarkRows(s: State, w: nat)
    requires Invariant(s) && Marking(s, w)
    ensures EventsOk(s.events, Next(s, w).outbox) && Prefix(Next(s, w).outbox)
    ensures DeliveriesOk(s.deliveries, Next(s, w).passes, s.events)
  {
    assert WorkerOk(s.workers[w], s.outbox);
  }

  lemma MarkWorkers(s: State, w: nat)
    requires Invariant(s) && Marking(s, w)
    ensures WorkersOk(Next(s, w).workers, Next(s, w).outbox)
  {
    var s' := Next(s, w);
    assert WorkerOk(s.workers[w], s.outbox);
    forall v | 0 <= v < |s'.workers| ensures WorkerOk(s'.workers[v], s'.outbox) {
      assert WorkerOk(s.workers[v], s.outbox);
    }
  }

  lemma MarkStages(s: State, w: nat)
    requires Invariant(s) && Marking(s, w)
    ensures StagesOk(Next(s, w).workers, Next(s, w).passes, s.events)
  {
    var s' := Next(s, w);
    assert StageOk(s.workers[w], s.passes, s.events);
    forall v | 0 <= v < |s'.workers| ensures StageOk(s'.workers[v], s'.passes, s.events) {
      assert StageOk(s.workers[v], s.passes, s.events);
    }
  }

  lemma MarkKeeps(s: State, w: nat)
    requires Invariant(s) && Marking(s, w)
    ensures Invariant(Next(s, w))
  {
    MarkPasses(s, w);
    MarkProcessed(s, w);
    MarkRows(s, w);
    MarkWorkers(s, w);
    MarkStages(s, w);
  }

  lemma NextKeeps(s: State, w: nat)
    requires Invariant(s) && w < |s.workers|
    ensures Invariant(Next(s, w))
  {
    if Busy(s, w) {
      var stage := s.workers[w].stage;
      if stage.NeedEvent? {
        EventKeeps(s, w);
      } else if stage.NeedEndpoints? {
        EndpointsKeep(s, w);
      } else if Delivering(s, w) {
        DeliverKeeps(s, w);
      } else if Marking(s, w) {
        MarkKeeps(s, w);
      }
    }
  }

  lemma StepKeeps(s: State, a: Action)
    requires Invariant(s)
    ensures Invariant(Step(s, a))
  {
    match a
    case Publish(merchant, eventType, resource, payload) => PublishKeeps(s, OutboxRow(merchant, eventType, resource, payload, false));
    case AddEndpoint(_) =>
    case ChangeEndpoint(_, _) =>
    case Fetch => FetchKeeps(s);
    case Advance(w) => if w < |s.workers| { NextKeeps(s, w); }
    case Crash(w) => if w < |s.workers| { CrashKeeps(s, w); }
  }

  lemma {:induction false} RunKeeps(actions: seq<Action>)
    ensures Invariant(Run(actions))
  {
    if actions != [] {
      RunKeeps(actions[..|actions| - 1]);
      StepKeeps(Run(actions[..|actions| - 1]), actions[|actions| - 1]);
    }
  }

  // ----- theorems

  /** At most one WebhookEvent per outbox event, with equal fields; every delivery belongs to one. */
  lemma OneEventPerOutboxRow(actions: seq<Action>)
    ensures var s := Run(actions);
      && (forall e, f :: 0 <= e < f < |s.events| ==> s.events[e].outbox != s.events[f].outbox)
      && (forall e :: 0 <= e < |s.events| ==>
            && s.events[e].outbox < |s.outbox|
            && var row := s.outbox[s.events[e].outbox];
            && s.events[e].merchant == row.merchant && s.events[e].eventType == row.eventType
            && s.events[e].resource == row.resource && s.events[e].payload == row.payload)
      && (forall d :: 0 <= d < |s.deliveries| ==> HasEvent(s.events, s.deliveries[d].event))
  {
    RunKeeps(actions);
  }

  /** Processed rows always form a prefix in creation order, whatever crashed and whoever overlapped. */
  lemma ProcessedIsPrefix(actions: seq<Action>, i: nat, j: nat)
    requires i < j < |Run(actions).outbox| && Run(actions).outbox[j].processed
    ensures Run(actions).outbox[i].processed
  {
    RunKeeps(actions);
  }

  /**
  A processed row was fanned out by some pass that delivered exactly once to each endpoint that was active and
  subscribed when that pass read the endpoints, and to no other.
   */
  lemma ProcessedWasDelivered(actions: seq<Action>, i: nat) returns (k: nat)
    requires i < |Run(actions).outbox| && Run(actions).outbox[i].processed
    ensures var s := Run(actions);
      && k < |s.passes| && s.passes[k].outbox == i
      && DeliveredBy(s.deliveries, k) == Matching(s.passes[k].seen, s.outbox[i].merchant, s.outbox[i].eventType)
      && (forall e: nat :: e in DeliveredBy(s.deliveries, k) <==>
            && e < |s.passes[k].seen| && s.passes[k].seen[e].merchant == s.outbox[i].merchant && s.passes[k].seen[e].active
            && (s.passes[k].seen[e].everything || s.outbox[i].eventType in s.passes[k].seen[e].events))
      && (forall x, y :: 0 <= x < y < |DeliveredBy(s.deliveries, k)| ==> DeliveredBy(s.deliveries, k)[x] != DeliveredBy(s.deliveries, k)[y])
  {
    RunKeeps(actions);
    var s := Run(actions);
    k :| MarkedBy(s.passes, i, k);
    assert PassOk(s.passes[k], k, s.outbox, s.deliveries);
    assert s.passes[k].matching[..s.passes[k].made] == s.passes[k].matching;
    MatchingIsExact(s.passes[k].seen, s.outbox[i].merchant, s.outbox[i].eventType);
  }

  lemma {:induction false} OnlyPass(deliveries: seq<Delivery>, passes: seq<Pass>, i: nat, k: nat)
    requires k < |passes| && passes[k].outbox == i
    requires forall m :: 0 <= m < |passes| && passes[m].outbox == i ==> m == k
    requires forall d :: 0 <= d < |deliveries| ==> deliveries[d].pass < |passes| && passes[deliveries[d].pass].outbox == deliveries[d].event
    ensures Received(deliveries, i) == DeliveredBy(deliveries, k)
  {
    if deliveries != [] {
      OnlyPass(deliveries[..|deliveries| - 1], passes, i, k);
    }
  }

  /** When no second worker went over the row and none had to go over it again, each subscribed endpoint has exactly one delivery of it. */
  lemma ExactlyOnceWithoutOverlap(actions: seq<Action>, i: nat, k: nat)
    requires i < |Run(actions).outbox| && Run(actions).outbox[i].processed
    requires k < |Run(actions).passes| && Run(actions).passes[k].outbox == i
    requires forall m :: 0 <= m < |Run(actions).passes| && Run(actions).passes[m].outbox == i ==> m == k
    ensures var s := Run(actions);
      Received(s.deliveries, i) == Matching(s.passes[k].seen, s.outbox[i].merchant, s.outbox[i].eventType)
  {
    var k' := ProcessedWasDelivered(actions, i);
    RunKeeps(actions);
    OnlyPass(Run(actions).deliveries, Run(actions).passes, i, k);
  }
}
