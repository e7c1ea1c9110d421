/** Fan-out when workers neither die nor overlap: a worker fetches only after every earlier one has gone through its batch. */
module OutboxSchedules {
  import opened Prelude
  import opened Outbox

  predicate Finished(worker: Worker) {
    worker.pos >= |worker.batch|
  }

  predicate AllFinished(workers: seq<Worker>) {
    forall w :: 0 <= w < |workers| ==> Finished(workers[w])
  }

  predicate InTurn(s: State, a: Action) {
    !a.Crash? && (a.Fetch? ==> AllFinished(s.workers))
  }

  /** No worker dies, and none fetches while another is unfinished. */
  predicate Sequential(actions: seq<Action>) {
    actions == [] ||
    var prefix := actions[..|actions| - 1];
    Sequential(prefix) && InTurn(Run(prefix), actions[|actions| - 1])
  }

  // ----- what such a schedule keeps

  predicate OneUnfinished(workers: seq<Worker>) {
    && (forall w :: 0 <= w < |workers| ==> workers[w].alive)
    && (forall v, w :: 0 <= v < w < |workers| ==> Finished(workers[v]) || Finished(workers[w]))
  }

  /** What a worker still has before it is unprocessed. */
  predicate Ahead(worker: Worker, outbox: seq<OutboxRow>) {
    forall x :: worker.pos <= x < |worker.batch| && worker.batch[x] < |outbox| ==> !outbox[worker.batch[x]].processed
  }

  predicate AllAhead(workers: seq<Worker>, outbox: seq<OutboxRow>) {
    forall w :: 0 <= w < |workers| ==> Ahead(workers[w], outbox)
  }

  predicate FannedBy(workers: seq<Worker>, w: nat, k: nat) {
    w < |workers| && !Finished(workers[w]) && workers[w].stage == Fanning(k)
  }

  /** A pass that has not marked its row belongs to the unfinished worker. */
  ghost predicate Attended(workers: seq<Worker>, passes: seq<Pass>) {
    forall k :: 0 <= k < |passes| && !passes[k].marked ==> exists w :: FannedBy(workers, w, k)
  }

  predicate OnePass(passes: seq<Pass>) {
    forall k, m :: 0 <= k < m < |passes| ==> passes[k].outbox != passes[m].outbox
  }

  ghost predicate Alone(s: State) {
    && OneUnfinished(s.workers)
    && AllAhead(s.workers, s.outbox)
    && Attended(s.workers, s.passes)
    && OnePass(s.passes)
  }

  lemma AttendedStays(workers: seq<Worker>, workers': seq<Worker>, passes: seq<Pass>)
    requires Attended(workers, passes)
    requires forall w, k: nat :: FannedBy(workers, w, k) && k < |passes| && !passes[k].marked ==> FannedBy(workers', w, k)
    ensures Attended(workers', passes)
  {
    forall k | 0 <= k < |passes| && !passes[k].marked ensures exists w :: FannedBy(workers', w, k) {
      var w :| FannedBy(workers, w, k);
      assert FannedBy(workers', w, k);
    }
  }

  lemma FetchAlone(s: State)
    requires Invariant(s) && Alone(s) && AllFinished(s.workers)
    ensures Alone(Step(s, Fetch))
  {
    PendingIsRange(s.outbox);
    AttendedStays(s.workers, Step(s, Fetch).workers, s.passes);
  }

  lemma PublishAlone(s: State, row: OutboxRow)
    requires Invariant(s) && Alone(s) && !row.processed
    ensures Alone(s.(outbox := s.outbox + [row]))
  {
  }

  lemma EventAlone(s: State, w: nat)
    requires Invariant(s) && Alone(s) && Busy(s, w) && s.workers[w].stage.NeedEvent?
    ensures Alone(Next(s, w))
  {
    AttendedStays(s.workers, Next(s, w).workers, s.passes);
  }

  /** The row a worker reaches has no pass yet: a marked one would have processed it, and no other worker can be at it. */
  lemma NoPassYet(s: State, w: nat, k: nat)
    requires Invariant(s) && Alone(s) && Busy(s, w) && !s.workers[w].stage.Fanning? && k < |s.passes|
    ensures s.passes[k].outbox != s.workers[w].batch[s.workers[w].pos] && s.passes[k].marked
  {
    assert PassOk(s.passes[k], k, s.outbox, s.deliveries);
    assert Ahead(s.workers[w], s.outbox);
    assert forall v :: !FannedBy(s.workers, v, k);
  }

  lemma EndpointsAlone(s: State, w: nat)
    requires Invariant(s) && Alone(s) && Busy(s, w) && s.workers[w].stage.NeedEndpoints?
    ensures Alone(Next(s, w))
  {
    var s' := Next(s, w);
    forall k | 0 <= k < |s.passes| ensures s.passes[k].marked && s.passes[k].outbox != s'.passes[|s.passes|].outbox {
      NoPassYet(s, w, k);
    }
    assert FannedBy(s'.workers, w, |s.passes|);
  }

  lemma DeliverAlone(s: State, w: nat)
    requires Invariant(s) && Alone(s) && Delivering(s, w)
    ensures Alone(Next(s, w))
  {
    var s' := Next(s, w);
    forall k | 0 <= k < |s'.passes| && !s'.passes[k].marked ensures exists v :: FannedBy(s'.workers, v, k) {
      var v :| FannedBy(s.workers, v, k);
      assert FannedBy(s'.workers, v, k);
    }
  }

  lemma MarkAlone(s: State, w: nat)
    requires Invariant(s) && Alone(s) && Marking(s, w)
    ensures Alone(Next(s, w))
  {
    var s' := Next(s, w);
    assert WorkerOk(s.workers[w], s.outbox);
    forall v | 0 <= v < |s'.workers| ensures Ahead(s'.workers[v], s'.outbox) {
      assert Ahead(s.workers[v], s.outbox);
      assert v != w ==> Finished(s.workers[v]);
    }
    forall k | 0 <= k < |s'.passes| ensures s'.passes[k].marked {
      if !s.passes[k].marked {
        var v :| FannedBy(s.workers, v, k);
      }
    }
  }

  lemma NextAlone(s: State, w: nat)
    requires Invariant(s) && Alone(s) && w < |s.workers|
    ensures Alone(Next(s, w))
  {
    if Busy(s, w) {
      var stage := s.workers[w].stage;
      if stage.NeedEvent? {
        EventAlone(s, w);
      } else if stage.NeedEndpoints? {
        EndpointsAlone(s, w);
      } else if Delivering(s, w) {
        DeliverAlone(s, w);
      } else if Marking(s, w) {
        MarkAlone(s, w);
      }
    }
  }

  lemma StepAlone(s: State, a: Action)
    requires Invariant(s) && Alone(s) && InTurn(s, a)
    ensures Alone(Step(s, a))
  {
    match a
    case Publish(merchant, eventType, resource, payload) => PublishAlone(s, OutboxRow(merchant, eventType, resource, payload, false));
    case Fetch => FetchAlone(s);
    case Advance(w) => if w < |s.workers| { NextAlone(s, w); }
    case _ =>
  }

  lemma {:induction false} SequentialIsAlone(actions: seq<Action>)
    requires Sequential(actions)
    ensures Alone(Run(actions))
  {
    if actions != [] {
      var prefix := actions[..|actions| - 1];
      SequentialIsAlone(prefix);
      RunKeeps(prefix);
      StepAlone(Run(prefix), actions[|actions| - 1]);
    }
  }

  // ----- theorems

  /** Without deaths and overlap no row is ever gone over twice. */
  lemma OnePassPerRow(actions: seq<Action>, k: nat, m: nat)
    requires Sequential(actions)
    requires k < |Run(actions).passes| && m < |Run(actions).passes| && Run(actions).passes[k].outbox == Run(actions).passes[m].outbox
    ensures k == m
  {
    SequentialIsAlone(actions);
  }

  /**
  Without deaths and overlap every processed row went exactly once to each endpoint that was active and subscribed
  when its one pass read the endpoints, and to no other endpoint.
   */
  lemma ExactlyOnce(actions: seq<Action>, i: nat) returns (k: nat)
    requires Sequential(actions) && i < |Run(actions).outbox| && Run(actions).outbox[i].processed
    ensures var s := Run(actions);
      && k < |s.passes| && s.passes[k].outbox == i
      && Received(s.deliveries, i) == Matching(s.passes[k].seen, s.outbox[i].merchant, s.outbox[i].eventType)
  {
    k := ProcessedWasDelivered(actions, i);
    forall m | 0 <= m < |Run(actions).passes| && Run(actions).passes[m].outbox == i ensures m == k {
      OnePassPerRow(actions, m, k);
    }
    ExactlyOnceWithoutOverlap(actions, i, k);
  }

  // ----- neither half can be dropped

  const ENDPOINT := Endpoint(0, true, true, {})

  const ROW := OutboxRow(0, "payment.captured", "", "", false)

  lemma RunSnoc(actions: seq<Action>, a: Action)
    ensures Run(actions + [a]) == Step(Run(actions), a)
  {
    assert (actions + [a])[..|actions|] == actions;
  }

  /** One unprocessed row, one endpoint that takes everything, and a worker that has just fetched the row. */
  predicate AtRow(s: State, w: nat) {
    && s.outbox == [ROW] && s.endpoints == [ENDPOINT]
    && w < |s.workers| && s.workers[w] == Worker([0], 0, NeedEvent, true)
  }

  /** The worker has made one delivery of the row, and the row is still unprocessed. */
  predicate Sent(s: State, s': State, w: nat) {
    && s'.outbox == [ROW] && s'.endpoints == [ENDPOINT]
    && Received(s'.deliveries, 0) == Received(s.deliveries, 0) + [0]
    && |s'.workers| == |s.workers| && forall v :: 0 <= v < |s.workers| && v != w ==> s'.workers[v] == s.workers[v]
  }

  lemma OneMatches()
    ensures Matching([ENDPOINT], 0, ROW.eventType) == [0]
  {
    assert [ENDPOINT][..0] == [];
  }

  lemma ThreeSteps(s: State, w: nat)
    requires AtRow(s, w)
    ensures Sent(s, Next(Next(Next(s, w), w), w), w)
  {
    OneMatches();
    var s' := Next(Next(Next(s, w), w), w);
    assert s'.deliveries[..|s.deliveries|] == s.deliveries;
  }

  lemma Send(actions: seq<Action>, w: nat) returns (actions': seq<Action>)
    requires AtRow(Run(actions), w)
    ensures actions' == actions + [Advance(w)] + [Advance(w)] + [Advance(w)]
    ensures Sent(Run(actions), Run(actions'), w)
  {
    ThreeSteps(Run(actions), w);
    RunSnoc(actions, Advance(w));
    RunSnoc(actions + [Advance(w)], Advance(w));
    RunSnoc(actions + [Advance(w)] + [Advance(w)], Advance(w));
    actions' := actions + [Advance(w)] + [Advance(w)] + [Advance(w)];
  }

  lemma Fetched(actions: seq<Action>)
    requires Run(actions).outbox == [ROW] && Run(actions).endpoints == [ENDPOINT]
    ensures
      var s, s' := Run(actions), Run(actions + [Fetch]);
      && s'.workers == s.workers + [Worker([0], 0, NeedEvent, true)] && s'.deliveries == s.deliveries
      && AtRow(s', |s.workers|)
  {
    RunSnoc(actions, Fetch);
    assert Pending([ROW][..0]) == [];
    assert FetchBatch([ROW]) == [0];
  }

  lemma Ready() returns (actions: seq<Action>)
    ensures actions == [AddEndpoint(ENDPOINT)] + [Publish(0, ROW.eventType, "", "")]
    ensures Run(actions) == State([ROW], [], [ENDPOINT], [], [], [])
  {
    RunSnoc([], AddEndpoint(ENDPOINT));
    assert [] + [AddEndpoint(ENDPOINT)] == [AddEndpoint(ENDPOINT)];
    RunSnoc([AddEndpoint(ENDPOINT)], Publish(0, ROW.eventType, "", ""));
    actions := [AddEndpoint(ENDPOINT)] + [Publish(0, ROW.eventType, "", "")];
  }

  /** A worker that dies between its delivery and the mark leaves the row to the next worker, which delivers it again. */
  lemma DeathDeliversTwice() returns (actions: seq<Action>)
    ensures Received(Run(actions).deliveries, 0) == [0, 0]
  {
    actions := Ready();
    Fetched(actions);
    actions := Send(actions + [Fetch], 0);
    RunSnoc(actions, Crash(0));
    actions := actions + [Crash(0)];
    Fetched(actions);
    actions := Send(actions + [Fetch], 1);
  }

  /** Two workers that fetch before either marks the row deliver it twice. */
  lemma OverlapDeliversTwice() returns (actions: seq<Action>)
    ensures Received(Run(actions).deliveries, 0) == [0, 0]
  {
    actions := Ready();
    Fetched(actions);
    Fetched(actions + [Fetch]);
    actions := Send(actions + [Fetch] + [Fetch], 0);
    actions := Send(actions, 1);
  }
}
