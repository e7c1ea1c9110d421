/**
Which schedules of workers deliver one outbox row twice, on the transition system of `Outbox` itself. The row and its
n subscribed endpoints are there from the start. A schedule lists whose database operation runs next: a worker's first
move is its fetch, then come the event, the endpoint query, the n deliveries and the mark. A worker that dies makes no
more moves.
 */
module OutboxRaces {
  import opened Outbox
  import opened Schedules
  import opened OutboxCounts
  import OS = OutboxSchedules

  /** `worker` says which worker of the system makes a schedule's moves, `pass` which pass over the row is its. */
  datatype Race = Race(s: State, worker: map<nat, nat>, pass: map<nat, nat>)

  function Endpoints(n: nat): seq<Endpoint> {
    seq(n, i requires 0 <= i < n => OS.ENDPOINT)
  }

  function Setup(n: nat): State {
    State([OS.ROW], [], Endpoints(n), [], [], [])
  }

  function Move(r: Race, c: nat): Race {
    if c !in r.worker then r.(s := Step(r.s, Fetch), worker := r.worker[c := |r.s.workers|])
    else
      var s' := Step(r.s, Advance(r.worker[c]));
      r.(s := s', pass := if |s'.passes| > |r.s.passes| then r.pass[c := |r.s.passes|] else r.pass)
  }

  function RaceOf(schedule: seq<nat>, n: nat): Race {
    if schedule == [] then Race(Setup(n), map[], map[])
    else Move(RaceOf(schedule[..|schedule| - 1], n), schedule[|schedule| - 1])
  }

  // ----- the condition, on the schedule alone

  const FIRST_DELIVERY: nat := 3

  /** Somebody has moved far enough to mark the row. */
  predicate Marked(schedule: seq<nat>, n: nat) {
    schedule != [] &&
    var prefix := schedule[..|schedule| - 1];
    Marked(prefix, n) || Moves(prefix, schedule[|schedule| - 1]) == FIRST_DELIVERY + n
  }

  /** The worker's fetch comes before anybody's mark. */
  predicate Fetches(schedule: seq<nat>, n: nat, c: nat) {
    schedule != [] &&
    var prefix := schedule[..|schedule| - 1];
    Fetches(prefix, n, c) || (schedule[|schedule| - 1] == c && Moves(prefix, c) == 0 && !Marked(prefix, n))
  }

  /** The worker fetches the row and gets past its delivery number e. */
  predicate Delivers(schedule: seq<nat>, n: nat, c: nat, e: nat) {
    Fetches(schedule, n, c) && Moves(schedule, c) > FIRST_DELIVERY + e
  }

  ghost predicate TwoDeliver(schedule: seq<nat>, n: nat, e: nat) {
    exists c: nat, d: nat :: c != d && Delivers(schedule, n, c, e) && Delivers(schedule, n, d, e)
  }

  // ----- the state along a schedule

  function AllMatch(n: nat): seq<nat> {
    seq(n, i => i)
  }

  lemma {:induction false} EveryEndpointMatches(n: nat)
    ensures Matching(Endpoints(n), OS.ROW.merchant, OS.ROW.eventType) == AllMatch(n)
  {
    if n > 0 {
      EveryEndpointMatches(n - 1);
      assert Endpoints(n)[..n - 1] == Endpoints(n - 1);
      assert AllMatch(n) == AllMatch(n - 1) + [n - 1];
    } else {
      assert Endpoints(0) == [];
    }
  }

  function Made(moves: nat, n: nat): nat {
    if moves <= FIRST_DELIVERY then 0 else if moves <= FIRST_DELIVERY + n then moves - FIRST_DELIVERY else n
  }

  /** Where a worker is that fetched the row, after so many moves. */
  predicate AtMove(r: Race, c: nat, moves: nat, n: nat)
    requires c in r.worker && r.worker[c] < |r.s.workers|
  {
    var w := r.s.workers[r.worker[c]];
    && w.alive && w.batch == [0]
    && w.pos == (if moves > FIRST_DELIVERY + n then 1 else 0)
    && (c in r.pass <==> moves >= FIRST_DELIVERY)
    && (c in r.pass ==> r.pass[c] < |r.s.passes| && r.s.passes[r.pass[c]].outbox == 0
                        && r.s.passes[r.pass[c]].matching == AllMatch(n) && r.s.passes[r.pass[c]].made == Made(moves, n))
    && (moves == 1 ==> w.stage == NeedEvent)
    && (moves == 2 ==> w.stage == NeedEndpoints)
    && (FIRST_DELIVERY <= moves <= FIRST_DELIVERY + n ==> w.stage == Fanning(r.pass[c]))
  }

  /** A worker that has moved; one that fetched too late has an empty batch. */
  predicate WorkerSound(r: Race, schedule: seq<nat>, n: nat, c: nat) {
    && (c in r.worker <==> Moves(schedule, c) > 0)
    && (Fetches(schedule, n, c) ==> c in r.worker)
    && (c in r.pass ==> c in r.worker)
    && (c in r.worker ==>
          && r.worker[c] < |r.s.workers|
          && if Fetches(schedule, n, c) then AtMove(r, c, Moves(schedule, c), n)
             else r.s.workers[r.worker[c]].batch == [] && c !in r.pass)
  }

  predicate RowSound(s: State, schedule: seq<nat>, n: nat) {
    && s.outbox == [OS.ROW.(processed := Marked(schedule, n))]
    && s.endpoints == Endpoints(n)
  }

  predicate Distinct(r: Race) {
    && (forall c, d :: c in r.worker && d in r.worker && c != d ==> r.worker[c] != r.worker[d])
    && (forall c, d :: c in r.pass && d in r.pass && c != d ==> r.pass[c] != r.pass[d])
  }

  predicate OwnedBySome(pass: map<nat, nat>, k: nat) {
    exists c :: c in pass && pass[c] == k
  }

  predicate Owned(r: Race) {
    forall k :: 0 <= k < |r.s.passes| ==> OwnedBySome(r.pass, k)
  }

  ghost predicate Sound(r: Race, schedule: seq<nat>, n: nat) {
    && RowSound(r.s, schedule, n)
    && (forall c: nat :: WorkerSound(r, schedule, n, c))
    && Distinct(r)
    && Owned(r)
  }

  lemma Extended(schedule: seq<nat>, n: nat, c: nat, d: nat)
    ensures Marked(schedule + [c], n) <==> Marked(schedule, n) || Moves(schedule, c) == FIRST_DELIVERY + n
    ensures Fetches(schedule + [c], n, d) <==> Fetches(schedule, n, d) || (c == d && Moves(schedule, c) == 0 && !Marked(schedule, n))
    ensures Moves(schedule + [c], d) == Moves(schedule, d) + if c == d then 1 else 0
  {
    assert (schedule + [c])[..|schedule|] == schedule;
  }

  /** A worker that moved and did not fetch the row came after a mark. */
  lemma {:induction false} LateIsMarked(schedule: seq<nat>, n: nat, c: nat)
    requires Moves(schedule, c) > 0 && !Fetches(schedule, n, c)
    ensures Marked(schedule, n)
  {
    var prefix := schedule[..|schedule| - 1];
    if Moves(prefix, c) > 0 {
      LateIsMarked(prefix, n, c);
    }
  }

  // ----- one move

  lemma FetchSound(r: Race, schedule: seq<nat>, n: nat, c: nat)
    requires Sound(r, schedule, n) && c !in r.worker
    ensures Sound(Move(r, c), schedule + [c], n)
  {
    var r' := Move(r, c);
    assert [OS.ROW][..0] == [];
    var row := r.s.outbox[0];
    assert r.s.outbox[..0] == [];
    assert Pending(r.s.outbox) == if row.processed then [] else [0];
    forall d: nat ensures WorkerSound(r', schedule + [c], n, d) {
      assert WorkerSound(r, schedule, n, d) && WorkerSound(r, schedule, n, c);
      Extended(schedule, n, c, d);
    }
    assert WorkerSound(r, schedule, n, c) && Moves(schedule, c) == 0;
    Extended(schedule, n, c, c);
    assert r'.s.outbox == r.s.outbox && r'.s.endpoints == r.s.endpoints;
    assert forall d: nat :: d in r.worker ==> WorkerSound(r, schedule, n, d);
  }

  /** A worker without the row, or past it, does nothing. */
  lemma IdleMove(r: Race, schedule: seq<nat>, n: nat, c: nat)
    requires Sound(r, schedule, n) && c in r.worker
    requires !Fetches(schedule, n, c) || Moves(schedule, c) > FIRST_DELIVERY + n
    ensures Move(r, c) == r && Sound(r, schedule + [c], n)
  {
    assert WorkerSound(r, schedule, n, c);
    Extended(schedule, n, c, c);
    if !Fetches(schedule, n, c) { LateIsMarked(schedule, n, c); }
    forall d: nat ensures WorkerSound(r, schedule + [c], n, d) {
      assert WorkerSound(r, schedule, n, d);
      Extended(schedule, n, c, d);
    }
  }

  predicate Moving(r: Race, schedule: seq<nat>, n: nat, c: nat) {
    c in r.worker && Fetches(schedule, n, c) && Moves(schedule, c) <= FIRST_DELIVERY + n
  }

  /** The mover's own worker changes, its own pass, and nothing of the others. */
  ghost predicate OnlyOwn(r: Race, r': Race, c: nat) {
    && r'.worker == r.worker && c in r.worker && r.worker[c] < |r.s.workers|
    && |r'.s.workers| == |r.s.workers| && |r'.s.passes| >= |r.s.passes|
    && (forall w :: 0 <= w < |r.s.workers| && w != r.worker[c] ==> r'.s.workers[w] == r.s.workers[w])
    && (forall k :: 0 <= k < |r.s.passes| && !(c in r.pass && r.pass[c] == k) ==> r'.s.passes[k] == r.s.passes[k])
    && (forall d :: d != c ==> (d in r'.pass <==> d in r.pass) && (d in r.pass ==> r'.pass[d] == r.pass[d]))
  }

  lemma OthersSound(r: Race, r': Race, schedule: seq<nat>, n: nat, c: nat)
    requires Sound(r, schedule, n) && Moving(r, schedule, n, c) && OnlyOwn(r, r', c)
    requires WorkerSound(r', schedule + [c], n, c)
    ensures forall d: nat :: WorkerSound(r', schedule + [c], n, d)
  {
    assert WorkerSound(r, schedule, n, c);
    forall d: nat | d != c ensures WorkerSound(r', schedule + [c], n, d) {
      assert WorkerSound(r, schedule, n, d);
      Extended(schedule, n, c, d);
    }
  }

  lemma EventSound(r: Race, schedule: seq<nat>, n: nat, c: nat)
    requires Sound(r, schedule, n) && Moving(r, schedule, n, c) && Moves(schedule, c) == 1
    ensures Sound(Move(r, c), schedule + [c], n)
  {
    assert WorkerSound(r, schedule, n, c);
    Extended(schedule, n, c, c);
    OthersSound(r, Move(r, c), schedule, n, c);
  }

  lemma EndpointsSound(r: Race, schedule: seq<nat>, n: nat, c: nat)
    requires Sound(r, schedule, n) && Moving(r, schedule, n, c) && Moves(schedule, c) == 2
    ensures Sound(Move(r, c), schedule + [c], n)
  {
    var r' := Move(r, c);
    assert WorkerSound(r, schedule, n, c);
    EveryEndpointMatches(n);
    Extended(schedule, n, c, c);
    OthersSound(r, r', schedule, n, c);
    forall d | d in r.pass ensures r.pass[d] < |r.s.passes| {
      assert WorkerSound(r, schedule, n, d);
    }
    forall k | 0 <= k < |r'.s.passes| ensures OwnedBySome(r'.pass, k) {
      if k < |r.s.passes| {
        assert OwnedBySome(r.pass, k);
        var d :| d in r.pass && r.pass[d] == k;
        assert d in r'.pass && r'.pass[d] == k;
      } else {
        assert c in r'.pass && r'.pass[c] == k;
      }
    }
  }

  lemma DeliverSound(r: Race, schedule: seq<nat>, n: nat, c: nat)
    requires Sound(r, schedule, n) && Moving(r, schedule, n, c) && FIRST_DELIVERY <= Moves(schedule, c) < FIRST_DELIVERY + n
    ensures Sound(Move(r, c), schedule + [c], n)
  {
    assert WorkerSound(r, schedule, n, c);
    Extended(schedule, n, c, c);
    OthersSound(r, Move(r, c), schedule, n, c);
  }

  lemma MarkSound(r: Race, schedule: seq<nat>, n: nat, c: nat)
    requires Sound(r, schedule, n) && Moving(r, schedule, n, c) && Moves(schedule, c) == FIRST_DELIVERY + n
    ensures Sound(Move(r, c), schedule + [c], n)
  {
    assert WorkerSound(r, schedule, n, c);
    Extended(schedule, n, c, c);
    OthersSound(r, Move(r, c), schedule, n, c);
  }

  lemma MoveSound(r: Race, schedule: seq<nat>, n: nat, c: nat)
    requires Sound(r, schedule, n)
    ensures Sound(Move(r, c), schedule + [c], n)
  {
    assert WorkerSound(r, schedule, n, c);
    if c !in r.worker {
      FetchSound(r, schedule, n, c);
    } else if !Moving(r, schedule, n, c) {
      IdleMove(r, schedule, n, c);
    } else if Moves(schedule, c) == 1 {
      EventSound(r, schedule, n, c);
    } else if Moves(schedule, c) == 2 {
      EndpointsSound(r, schedule, n, c);
    } else if Moves(schedule, c) < FIRST_DELIVERY + n {
      DeliverSound(r, schedule, n, c);
    } else {
      MarkSound(r, schedule, n, c);
    }
  }

  lemma {:induction false} RaceSound(schedule: seq<nat>, n: nat)
    ensures Sound(RaceOf(schedule, n), schedule, n)
  {
    if schedule != [] {
      var prefix, c := schedule[..|schedule| - 1], schedule[|schedule| - 1];
      assert schedule == prefix + [c];
      RaceSound(prefix, n);
      MoveSound(RaceOf(prefix, n), prefix, n, c);
    }
  }

  // ----- the race is a run of the outbox

  lemma {:induction false} Subscribed(n: nat) returns (actions: seq<Action>)
    ensures Run(actions) == Setup(n)
  {
    if n == 0 {
      OS.RunSnoc([], Publish(OS.ROW.merchant, OS.ROW.eventType, OS.ROW.resource, OS.ROW.payload));
      actions := [] + [Publish(OS.ROW.merchant, OS.ROW.eventType, OS.ROW.resource, OS.ROW.payload)];
      assert Endpoints(0) == [];
    } else {
      actions := Subscribed(n - 1);
      OS.RunSnoc(actions, AddEndpoint(OS.ENDPOINT));
      actions := actions + [AddEndpoint(OS.ENDPOINT)];
      assert Endpoints(n) == Endpoints(n - 1) + [OS.ENDPOINT];
    }
  }

  lemma {:induction false} RaceIsRun(schedule: seq<nat>, n: nat) returns (actions: seq<Action>)
    ensures Run(actions) == RaceOf(schedule, n).s
  {
    if schedule == [] {
      actions := Subscribed(n);
    } else {
      var prefix, c := schedule[..|schedule| - 1], schedule[|schedule| - 1];
      actions := RaceIsRun(prefix, n);
      var r := RaceOf(prefix, n);
      var a := if c in r.worker then Advance(r.worker[c]) else Fetch;
      OS.RunSnoc(actions, a);
      actions := actions + [a];
    }
  }

  // ----- theorems

  /** The pass of a worker that fetched the row is past delivery e once the worker has moved that far. */
  lemma PastMeansMoved(r: Race, schedule: seq<nat>, n: nat, c: nat, e: nat)
    requires WorkerSound(r, schedule, n, c) && c in r.pass && e < n
    ensures r.pass[c] < |r.s.passes| && (Past(r.s.passes[r.pass[c]], 0, e) <==> Delivers(schedule, n, c, e))
  {
    var pass := r.s.passes[r.pass[c]];
    assert pass.made > e ==> pass.matching[e] == e;
  }

  lemma TwoPastIsTwoDeliver(r: Race, schedule: seq<nat>, n: nat, e: nat)
    requires Sound(r, schedule, n) && e < n
    ensures TwoPast(r.s.passes, 0, e) <==> TwoDeliver(schedule, n, e)
  {
    if TwoPast(r.s.passes, 0, e) {
      var k, m :| 0 <= k < m < |r.s.passes| && Past(r.s.passes[k], 0, e) && Past(r.s.passes[m], 0, e);
      assert OwnedBySome(r.pass, k) && OwnedBySome(r.pass, m);
      var c :| c in r.pass && r.pass[c] == k;
      var d :| d in r.pass && r.pass[d] == m;
      assert WorkerSound(r, schedule, n, c) && WorkerSound(r, schedule, n, d);
      PastMeansMoved(r, schedule, n, c, e);
      PastMeansMoved(r, schedule, n, d, e);
    }
    if TwoDeliver(schedule, n, e) {
      var c: nat, d: nat :| c != d && Delivers(schedule, n, c, e) && Delivers(schedule, n, d, e);
      assert WorkerSound(r, schedule, n, c) && WorkerSound(r, schedule, n, d);
      PastMeansMoved(r, schedule, n, c, e);
      PastMeansMoved(r, schedule, n, d, e);
      var k, m := if r.pass[c] < r.pass[d] then r.pass[c] else r.pass[d], if r.pass[c] < r.pass[d] then r.pass[d] else r.pass[c];
      assert 0 <= k < m < |r.s.passes| && Past(r.s.passes[k], 0, e) && Past(r.s.passes[m], 0, e);
    }
  }

  ghost predicate OneDelivers(schedule: seq<nat>, n: nat, e: nat) {
    exists c: nat :: Delivers(schedule, n, c, e)
  }

  lemma SomePastIsDelivers(r: Race, schedule: seq<nat>, n: nat, e: nat)
    requires Sound(r, schedule, n) && e < n
    ensures (exists k :: 0 <= k < |r.s.passes| && Past(r.s.passes[k], 0, e)) <==> OneDelivers(schedule, n, e)
  {
    if k :| 0 <= k < |r.s.passes| && Past(r.s.passes[k], 0, e) {
      assert OwnedBySome(r.pass, k);
      var c :| c in r.pass && r.pass[c] == k;
      assert WorkerSound(r, schedule, n, c);
      PastMeansMoved(r, schedule, n, c, e);
    }
    if OneDelivers(schedule, n, e) {
      var c: nat :| Delivers(schedule, n, c, e);
      assert WorkerSound(r, schedule, n, c);
      PastMeansMoved(r, schedule, n, c, e);
    }
  }

  /** How often the schedule delivers the row to endpoint e. */
  function Copies(schedule: seq<nat>, n: nat, e: nat): nat {
    Times(RaceOf(schedule, n).s.deliveries, 0, e)
  }

  /**
  An endpoint gets the row if and only if some worker fetches it before anybody marks it and gets, still alive, past
  the delivery to that endpoint; and it gets the row more than once if and only if two workers do.
   */
  lemma DeliveredExactly(schedule: seq<nat>, n: nat, e: nat)
    requires e < n
    ensures Copies(schedule, n, e) > 0 <==> OneDelivers(schedule, n, e)
    ensures Copies(schedule, n, e) > 1 <==> TwoDeliver(schedule, n, e)
  {
    var r := RaceOf(schedule, n);
    RaceSound(schedule, n);
    var actions := RaceIsRun(schedule, n);
    DeliveriesArePasses(actions, 0, e);
    CountTwo(r.s.passes, 0, e);
    TwoPastIsTwoDeliver(r, schedule, n, e);
    SomePastIsDelivers(r, schedule, n, e);
  }

  // ----- which schedules can

  lemma {:induction false} MovesBounded(schedule: seq<nat>, c: nat)
    ensures Moves(schedule, c) <= |schedule|
  {
    if schedule != [] {
      MovesBounded(schedule[..|schedule| - 1], c);
    }
  }

  lemma {:induction false} TooLongToMark(schedule: seq<nat>, n: nat)
    requires n > |schedule|
    ensures !Marked(schedule, n)
  {
    if schedule != [] {
      var prefix := schedule[..|schedule| - 1];
      TooLongToMark(prefix, n);
      MovesBounded(prefix, schedule[|schedule| - 1]);
    }
  }

  /** With some number of endpoints, some endpoint gets the row more than once. */
  ghost predicate CanDeliverTwice(schedule: seq<nat>) {
    exists n: nat, e: nat :: e < n && Copies(schedule, n, e) > 1
  }

  ghost predicate TwoReachDelivery(schedule: seq<nat>) {
    exists c: nat, d: nat :: c != d && Moves(schedule, c) > FIRST_DELIVERY && Moves(schedule, d) > FIRST_DELIVERY
  }

  /** For some number of endpoints a schedule delivers twice if and only if two workers live to make their first delivery. */
  lemma CanDeliverTwiceExactly(schedule: seq<nat>)
    ensures CanDeliverTwice(schedule) <==> TwoReachDelivery(schedule)
  {
    if CanDeliverTwice(schedule) {
      var n: nat, e: nat :| e < n && Copies(schedule, n, e) > 1;
      DeliveredExactly(schedule, n, e);
    }
    if TwoReachDelivery(schedule) {
      var c: nat, d: nat :| c != d && Moves(schedule, c) > FIRST_DELIVERY && Moves(schedule, d) > FIRST_DELIVERY;
      var n, e := |schedule| + 1, 0;
      TooLongToMark(schedule, n);
      if !Fetches(schedule, n, c) { LateIsMarked(schedule, n, c); }
      if !Fetches(schedule, n, d) { LateIsMarked(schedule, n, d); }
      assert Delivers(schedule, n, c, e) && Delivers(schedule, n, d, e);
      DeliveredExactly(schedule, n, e);
      assert e < n && Copies(schedule, n, e) > 1;
    }
  }
}
