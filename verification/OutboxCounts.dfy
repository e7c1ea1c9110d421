/** How often an endpoint receives an outbox row, in every run: once for each pass that got past the delivery to it. */
module OutboxCounts {
  import opened Outbox

  /** A pass over row i that has made its delivery to endpoint e. */
  predicate Past(pass: Pass, i: nat, e: nat) {
    pass.outbox == i && exists x :: 0 <= x < pass.made && x < |pass.matching| && pass.matching[x] == e
  }

  function PassesPast(passes: seq<Pass>, i: nat, e: nat): nat {
    if passes == [] then 0
    else
      var n := |passes| - 1;
      PassesPast(passes[..n], i, e) + if Past(passes[n], i, e) then 1 else 0
  }

  /** How many deliveries of row i endpoint e has. */
  function Times(deliveries: seq<Delivery>, i: nat, e: nat): nat {
    multiset(Received(deliveries, i))[e]
  }

  lemma PassesPastAppend(passes: seq<Pass>, pass: Pass, i: nat, e: nat)
    ensures PassesPast(passes + [pass], i, e) == PassesPast(passes, i, e) + if Past(pass, i, e) then 1 else 0
  {
    assert (passes + [pass])[..|passes|] == passes;
  }

  lemma {:induction false} PassesPastUpdate(passes: seq<Pass>, k: nat, pass: Pass, i: nat, e: nat)
    requires k < |passes|
    ensures PassesPast(passes[k := pass], i, e)
         == PassesPast(passes, i, e) - (if Past(passes[k], i, e) then 1 else 0) + (if Past(pass, i, e) then 1 else 0)
  {
    var n := |passes| - 1;
    if k == n {
      assert passes[k := pass][..n] == passes[..n];
    } else {
      assert passes[k := pass][..n] == passes[..n][k := pass];
      PassesPastUpdate(passes[..n], k, pass, i, e);
    }
  }

  lemma TimesAppend(deliveries: seq<Delivery>, d: Delivery, i: nat, e: nat)
    ensures Times(deliveries + [d], i, e) == Times(deliveries, i, e) + if d.event == i && d.endpoint == e then 1 else 0
  {
    assert (deliveries + [d])[..|deliveries|] == deliveries;
  }

  lemma PastOneMore(pass: Pass, i: nat, e: nat)
    requires pass.made < |pass.matching| && forall x, y :: 0 <= x < y < |pass.matching| ==> pass.matching[x] < pass.matching[y]
    ensures Past(pass.(made := pass.made + 1), i, e) <==> Past(pass, i, e) || (pass.outbox == i && pass.matching[pass.made] == e)
    ensures pass.outbox == i && pass.matching[pass.made] == e ==> !Past(pass, i, e)
  {
    assert pass.(made := pass.made + 1).matching[pass.made] == pass.matching[pass.made];
  }

  /** One more delivery of a pass is to an endpoint it has not delivered to yet. */
  lemma DeliverCounts(s: State, w: nat, i: nat, e: nat)
    requires Invariant(s) && Delivering(s, w) && Times(s.deliveries, i, e) == PassesPast(s.passes, i, e)
    ensures Times(Next(s, w).deliveries, i, e) == PassesPast(Next(s, w).passes, i, e)
  {
    var k := s.workers[w].stage.pass;
    var pass := s.passes[k];
    assert StageOk(s.workers[w], s.passes, s.events) && PassOk(pass, k, s.outbox, s.deliveries);
    MatchingIsExact(pass.seen, s.outbox[pass.outbox].merchant, s.outbox[pass.outbox].eventType);
    PastOneMore(pass, i, e);
    hide Invariant, Matching, PassesPast, DeliveredBy, HasEvent, Past;
    var more := pass.(made := pass.made + 1);
    TimesAppend(s.deliveries, Delivery(pass.outbox, pass.matching[pass.made], k), i, e);
    PassesPastUpdate(s.passes, k, more, i, e);
  }

  lemma NextCounts(s: State, w: nat, i: nat, e: nat)
    requires Invariant(s) && w < |s.workers| && Times(s.deliveries, i, e) == PassesPast(s.passes, i, e)
    ensures Times(Next(s, w).deliveries, i, e) == PassesPast(Next(s, w).passes, i, e)
  {
    hide Received, PassesPast, Matching, HasEvent, Invariant;
    if Delivering(s, w) {
      DeliverCounts(s, w, i, e);
    } else if Busy(s, w) {
      var s' := Next(s, w);
      if |s'.passes| > |s.passes| {
        PassesPastAppend(s.passes, s'.passes[|s.passes|], i, e);
      } else if s'.passes != s.passes {
        var k := s.workers[w].stage.pass;
        PassesPastUpdate(s.passes, k, s'.passes[k], i, e);
      }
    }
  }

  lemma StepCounts(s: State, a: Action, i: nat, e: nat)
    requires Invariant(s) && Times(s.deliveries, i, e) == PassesPast(s.passes, i, e)
    ensures Times(Step(s, a).deliveries, i, e) == PassesPast(Step(s, a).passes, i, e)
  {
    hide Next, Received, PassesPast, Invariant, FetchBatch;
    if a.Advance? && a.w < |s.workers| {
      NextCounts(s, a.w, i, e);
    }
  }

  /** In every run, with deaths and overlap, an endpoint has as many deliveries of a row as passes over the row got past it. */
  lemma {:induction false} DeliveriesArePasses(actions: seq<Action>, i: nat, e: nat)
    ensures Times(Run(actions).deliveries, i, e) == PassesPast(Run(actions).passes, i, e)
  {
    hide Invariant, Step;
    if actions != [] {
      var prefix, a := actions[..|actions| - 1], actions[|actions| - 1];
      DeliveriesArePasses(prefix, i, e);
      RunKeeps(prefix);
      StepCounts(Run(prefix), a, i, e);
    }
  }

  ghost predicate TwoPast(passes: seq<Pass>, i: nat, e: nat) {
    exists k, m :: 0 <= k < m < |passes| && Past(passes[k], i, e) && Past(passes[m], i, e)
  }

  lemma {:induction false} CountTwo(passes: seq<Pass>, i: nat, e: nat)
    ensures PassesPast(passes, i, e) > 0 <==> exists k :: 0 <= k < |passes| && Past(passes[k], i, e)
    ensures PassesPast(passes, i, e) > 1 <==> TwoPast(passes, i, e)
  {
    hide Past;
    if passes != [] {
      var n := |passes| - 1;
      var front := passes[..n];
      CountTwo(front, i, e);
      assert forall k :: 0 <= k < n ==> front[k] == passes[k];
      if PassesPast(front, i, e) > 0 {
        var k :| 0 <= k < n && Past(front[k], i, e);
        assert Past(passes[k], i, e);
        if Past(passes[n], i, e) { assert TwoPast(passes, i, e); }
      }
      if TwoPast(front, i, e) {
        var k, m :| 0 <= k < m < n && Past(front[k], i, e) && Past(front[m], i, e);
        assert Past(passes[k], i, e) && Past(passes[m], i, e);
      }
      if TwoPast(passes, i, e) {
        var k, m :| 0 <= k < m < |passes| && Past(passes[k], i, e) && Past(passes[m], i, e);
        assert Past(front[k], i, e);
        assert m < n ==> Past(front[m], i, e);
      }
    }
  }

  /** An endpoint has two deliveries of a row exactly when two passes over the row have both got past it. */
  lemma DeliveredTwiceExactly(actions: seq<Action>, i: nat, e: nat)
    ensures Times(Run(actions).deliveries, i, e) > 1 <==> TwoPast(Run(actions).passes, i, e)
  {
    DeliveriesArePasses(actions, i, e);
    CountTwo(Run(actions).passes, i, e);
  }
}
