/** Building blocks for concrete runs: each extends a run by a few steps and says in which state it ends. */
module Traces {
  import opened Prelude
  import opened TtlCache
  import opened Engine
  import opened Turns
  import opened MutualExclusion
  import SH = Shape
  import TS = TaskSteps
  import R = Refunds

  // ----- building blocks: runs extended by steps that respect the two halves of the discipline

  /** No task enters on a stale read. */
  predicate NeverStale(actions: seq<Action>) {
    actions == [] ||
    var prefix := actions[..|actions| - 1];
    NeverStale(prefix) && !StaleEntry(Run(prefix), actions[|actions| - 1])
  }

  lemma {:induction false} DisciplineHasTwoHalves(actions: seq<Action>)
    ensures Disciplined(actions) <==> Prompt(actions) && NeverStale(actions)
  {
    if actions != [] {
      DisciplineHasTwoHalves(actions[..|actions| - 1]);
    }
  }

  lemma PromptIsTimely(actions: seq<Action>)
    requires Prompt(actions)
    ensures Timely(Run(actions))
  {
  }

  predicate Keeps(actions: seq<Action>, actions': seq<Action>) {
    (Prompt(actions) ==> Prompt(actions')) && (NeverStale(actions) ==> NeverStale(actions'))
  }

  /** Only the clock can make a critical section outlive its lock. */
  lemma StepKeepsTimely(s: State, a: Action)
    requires Timely(s) && !a.Tick?
    ensures Timely(Step(s, a))
  {
    match a
    case OnOrder(act) => SH.OrderStepFrame(s, act);
    case OnPayment(act) => SH.PaymentStepFrame(s, act);
    case OnWallet(act) => SH.WalletStepFrame(s, act);
    case OnRefund(_) => NewMessages(s.refunds);
    case Work(t, act) => WorkKeepsTimely(s, t, act);
  }

  lemma WorkKeepsTimely(s: State, t: nat, a: WorkerAction)
    requires Timely(s)
    ensures Timely(WorkerStep(s, t, a))
  {
    var s' := WorkerStep(s, t, a);
    if t < |s.tasks| && s' != s {
      TaskInTime(s, t, a);
      forall u | 0 <= u < |s'.tasks| && InCritical(s'.tasks[u]) ensures s'.now < s'.tasks[u].lockedAt + LOCK_TTL {
      }
    }
  }

  /** The stepping task stays inside with its own lock time, or has taken the lock just now; the others are left alone. */
  lemma TaskInTime(s: State, t: nat, a: WorkerAction)
    requires t < |s.tasks|
    ensures
      var s' := WorkerStep(s, t, a);
      && |s'.tasks| >= |s.tasks| && s'.now == s.now
      && (InCritical(s'.tasks[t]) ==> s'.tasks[t].lockedAt == s.now || (InCritical(s.tasks[t]) && s'.tasks[t].lockedAt == s.tasks[t].lockedAt))
      && forall u :: 0 <= u < |s'.tasks| && u != t ==> s'.tasks[u].phase == Queued || (u < |s.tasks| && s'.tasks[u] == s.tasks[u])
  {
    if TS.Commits(s, Work(t, a)) {
      TS.CommitRow(s, t);
    }
  }

  lemma {:induction false} NewMessages(refunds: seq<R.Refund>)
    ensures forall i :: 0 <= i < |Stuck(refunds)| ==> Stuck(refunds)[i].phase == Queued
  {
    if refunds != [] {
      NewMessages(refunds[..|refunds| - 1]);
    }
  }

  lemma Did(actions: seq<Action>, a: Action) returns (actions': seq<Action>)
    requires !a.Tick?
    ensures Run(actions') == Step(Run(actions), a)
    ensures Prompt(actions) ==> Prompt(actions')
    ensures NeverStale(actions) && !StaleEntry(Run(actions), a) ==> NeverStale(actions')
  {
    actions' := actions + [a];
    assert actions'[..|actions|] == actions;
    if Prompt(actions) {
      StepKeepsTimely(Run(actions), a);
    }
  }

  lemma Waited(actions: seq<Action>, seconds: nat) returns (actions': seq<Action>)
    ensures Run(actions') == Run(actions).(now := Run(actions).now + seconds)
    ensures NeverStale(actions) ==> NeverStale(actions')
    ensures Prompt(actions) && Timely(Run(actions')) ==> Prompt(actions')
  {
    actions' := actions + [Tick(seconds)];
    assert actions'[..|actions|] == actions;
  }

  /** Steps of one task in turn, none of which takes a lock. */
  lemma {:induction false} Turn(actions: seq<Action>, t: nat, acts: seq<WorkerAction>) returns (actions': seq<Action>)
    requires LockAct !in acts
    ensures Run(actions') == WorkInTurn(Run(actions), t, acts) && Keeps(actions, actions')
    decreases |acts|
  {
    actions' := actions;
    if acts != [] {
      actions' := Did(actions, Work(t, acts[0]));
      actions' := Turn(actions', t, acts[1..]);
    }
  }

  // ----- building blocks: the states one task goes through

  /** The state after the task read its unfinished refund. */
  function Reading(s: State, t: nat): State
    requires TaskAt(s, t, Queued)
  {
    var r := s.refunds[s.tasks[t].refund];
    WithTask(s, t, s.tasks[t].(phase := Loaded, code := r.failureCode, ref := r.gatewayRef))
  }

  lemma Started(actions: seq<Action>, t: nat) returns (actions': seq<Action>)
    requires TaskAt(Run(actions), t, Queued)
    requires var s := Run(actions); !R.Terminal(s.refunds[s.tasks[t].refund].status)
    ensures Run(actions') == Reading(Run(actions), t) && Keeps(actions, actions')
  {
    actions' := Did(actions, Work(t, StartAct));
  }

  /** The state after the task took the lock. */
  function Entered(s: State, t: nat): State
    requires TaskAt(s, t, Loaded)
  {
    WithTask(s, t, s.tasks[t].(phase := Saving(Begin), lockedAt := s.now))
    .(locks := Set(s.locks, PaymentOf(s, t), LockMark, LOCK_TTL, s.now))
  }

  lemma Locked(actions: seq<Action>, t: nat) returns (actions': seq<Action>)
    requires TaskAt(Run(actions), t, Loaded)
    requires !Live(Run(actions).locks, PaymentOf(Run(actions), t), Run(actions).now)
    ensures Run(actions') == Entered(Run(actions), t)
    ensures Prompt(actions) ==> Prompt(actions')
    ensures
      var s := Run(actions);
      NeverStale(actions) && !R.Terminal(s.refunds[s.tasks[t].refund].status) ==> NeverStale(actions')
  {
    actions' := Did(actions, Work(t, LockAct));
  }

  /** The state after a whole update_refund_status outside a transaction. */
  function Rewritten(s: State, t: nat): State
    requires AtSaving(s, t)
  {
    var task := s.tasks[t];
    var status := SiteStatus(task.phase.site);
    WithTask(WithRefund(s, task.refund, R.WriteRow(s.refunds[task.refund], status, task.code, task.ref)),
             t, task.(phase := AfterSite(task.phase.site)))
  }

  lemma UpdateRewrites(s: State, t: nat)
    requires AtSaving(s, t)
    ensures NotifyStatus(LogStatus(SaveStatus(s, t), t), t) == Rewritten(s, t)
  {
  }

  lemma Updated(actions: seq<Action>, t: nat) returns (actions': seq<Action>)
    requires AtSaving(Run(actions), t)
    ensures Run(actions') == Rewritten(Run(actions), t) && Keeps(actions, actions')
  {
    actions' := Turn(actions, t, [SaveAct, LogAct, NotifyAct]);
    TurnThree(Run(actions), t, SaveAct, LogAct, NotifyAct);
    UpdateRewrites(Run(actions), t);
  }

  lemma Called(actions: seq<Action>, t: nat, refunded: bool) returns (actions': seq<Action>)
    ensures Run(actions') == Call(Run(actions), t, refunded) && Keeps(actions, actions')
  {
    actions' := Did(actions, Work(t, CallAct(refunded)));
  }

  /** The state after `finally`. */
  function Departed(s: State, t: nat): State
    requires t < |s.tasks| && s.tasks[t].refund < |s.refunds|
  {
    WithTask(s, t, End(s.tasks[t])).(locks := Delete(s.locks, PaymentOf(s, t)))
  }

  lemma Left(actions: seq<Action>, t: nat) returns (actions': seq<Action>)
    requires TaskAt(Run(actions), t, Leaving)
    ensures Run(actions') == Departed(Run(actions), t) && Keeps(actions, actions')
  {
    actions' := Did(actions, Work(t, ReleaseAct));
  }

  // ----- building blocks: one uninterrupted try

  /** The state after the gateway's answer is recorded, for a payment that returns nothing to a wallet. */
  function Answered(s: State, t: nat, refunded: bool): State
    requires TaskAt(s, t, Calling)
  {
    var called := Call(s, t, refunded);
    if refunded then Commit(called, t) else Rewritten(called, t)
  }

  lemma AnswerRecorded(actions: seq<Action>, t: nat, refunded: bool) returns (actions': seq<Action>)
    requires TaskAt(Run(actions), t, Calling)
    ensures Run(actions') == Answered(Run(actions), t, refunded) && Keeps(actions, actions')
  {
    var called := Called(actions, t, refunded);
    if refunded {
      actions' := Did(called, Work(t, CommitAct));
    } else {
      actions' := Updated(called, t);
    }
  }

  /** The row after PROCESSING and the outcome. */
  function Outcome(r: R.Refund, task: Task, refunded: bool): R.Refund {
    var processing := R.WriteRow(r, R.Processing, task.code, task.ref);
    if refunded then R.WriteRow(CountPayout(processing), R.Success, task.code, true)
    else R.WriteRow(processing, R.Failed, R.GatewayRefundFailed, task.ref)
  }

  function Tried(s: State, t: nat, refunded: bool): State
    requires TaskAt(s, t, Loaded)
  {
    Answered(Rewritten(Entered(s, t), t), t, refunded)
  }

  /** What one whole try changes, on a payment that returns nothing to a wallet. */
  predicate TryDone(s: State, s': State, t: nat, refunded: bool)
    requires TaskAt(s, t, Loaded)
  {
    var task := s.tasks[t];
    var p := PaymentOf(s, t);
    && s'.now == s.now && s'.locks == Delete(s.locks, p) && s'.orders == s.orders
    && |s'.tasks| == |s.tasks| && s'.tasks == s.tasks[t := s'.tasks[t]] && !s'.tasks[t].alive
    && s'.refunds == s.refunds[task.refund := Outcome(s.refunds[task.refund], task, refunded)]
    && s'.payments == if refunded then s.payments[p := s.payments[p].(status := RefundedStatus(s.(refunds := s'.refunds), p))] else s.payments
  }

  /** The state in front of the gateway call. */
  function AtGateway(s: State, t: nat): State
    requires TaskAt(s, t, Loaded)
  {
    var task := s.tasks[t];
    s.(refunds := s.refunds[task.refund := R.WriteRow(s.refunds[task.refund], R.Processing, task.code, task.ref)],
       tasks := s.tasks[t := task.(phase := Calling, lockedAt := s.now)],
       locks := Set(s.locks, PaymentOf(s, t), LockMark, LOCK_TTL, s.now))
  }

  lemma EnteredAndUpdated(s: State, t: nat)
    requires TaskAt(s, t, Loaded)
    ensures Rewritten(Entered(s, t), t) == AtGateway(s, t)
  {
  }

  lemma TryEffect(s: State, t: nat, refunded: bool)
    requires TaskAt(s, t, Loaded)
    requires !ReturnsToWallet(s.payments[PaymentOf(s, t)])
    ensures TaskAt(Tried(s, t, refunded), t, Leaving)
    ensures TryDone(s, Departed(Tried(s, t, refunded), t), t, refunded)
  {
    EnteredAndUpdated(s, t);
    assert Delete(Set(s.locks, PaymentOf(s, t), LockMark, LOCK_TTL, s.now), PaymentOf(s, t)) == Delete(s.locks, PaymentOf(s, t));
    assert Tried(s, t, refunded).refunds == s.refunds[s.tasks[t].refund := Outcome(s.refunds[s.tasks[t].refund], s.tasks[t], refunded)];
  }

  /** From the lock to the release. */
  lemma Processed(actions: seq<Action>, t: nat, refunded: bool) returns (actions': seq<Action>)
    requires TaskAt(Run(actions), t, Loaded)
    requires !Live(Run(actions).locks, PaymentOf(Run(actions), t), Run(actions).now)
    requires !ReturnsToWallet(Run(actions).payments[PaymentOf(Run(actions), t)])
    ensures Prompt(actions) ==> Prompt(actions')
    ensures
      var s := Run(actions);
      NeverStale(actions) && !R.Terminal(s.refunds[s.tasks[t].refund].status) ==> NeverStale(actions')
    ensures TryDone(Run(actions), Run(actions'), t, refunded)
  {
    TryEffect(Run(actions), t, refunded);
    actions' := Locked(actions, t);
    actions' := Updated(actions', t);
    actions' := AnswerRecorded(actions', t, refunded);
    actions' := Left(actions', t);
  }
}
