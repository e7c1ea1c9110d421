/**
The per-payment refund lock. Nothing is assumed of the refunds themselves: stale reads, rollbacks, crashes
and redeliveries may all happen. Only the length of the critical sections matters.
 */
module MutualExclusion {
  import opened Prelude
  import opened TtlCache
  import opened Engine
  import opened Shape
  import opened RefundSafety
  import opened TaskSteps
  import R = Refunds

  /** Every critical section stays within the time to live of its lock. */
  predicate Prompt(actions: seq<Action>) {
    actions == [] || (Prompt(actions[..|actions| - 1]) && Timely(Run(actions)))
  }

  predicate LockInvariant(s: State) {
    && TasksLinked(s.tasks, |s.refunds|)
    && LocksOwned(s.tasks, s.refunds, s.locks)
    && Exclusive(s.tasks, s.refunds)
  }

  /** The refunds of a state after one more action still belong to the payments they belonged to. */
  predicate SamePayments(refunds: seq<R.Refund>, refunds': seq<R.Refund>) {
    |refunds| <= |refunds'| && forall r :: 0 <= r < |refunds| ==> refunds'[r].payment == refunds[r].payment
  }

  /** One task changed, possibly leaving its critical section; the lock table did not. */
  predicate TaskStepped(s: State, s': State, t: nat) {
    && SamePayments(s.refunds, s'.refunds)
    && t < |s.tasks| <= |s'.tasks|
    && (forall u :: 0 <= u < |s.tasks| && u != t ==> s'.tasks[u] == s.tasks[u])
    && (forall u :: |s.tasks| <= u < |s'.tasks| ==> s'.tasks[u].phase == Queued)
    && s'.tasks[t].refund == s.tasks[t].refund
    && (InCritical(s'.tasks[t]) ==> InCritical(s.tasks[t]) && s'.tasks[t].lockedAt == s.tasks[t].lockedAt)
    && s'.locks == s.locks
  }

  lemma TaskSteppedKeepsLocks(s: State, s': State, t: nat)
    requires LockInvariant(s) && TaskStepped(s, s', t) && TasksLinked(s'.tasks, |s'.refunds|)
    ensures LockInvariant(s')
  {
    forall u | 0 <= u < |s'.tasks| && InCritical(s'.tasks[u]) ensures OwnsLock(s'.tasks[u], s'.refunds, s'.locks) {
      assert OwnsLock(s.tasks[u], s.refunds, s.locks);
    }
  }

  lemma LockKeepsLocks(s: State, t: nat)
    requires WellShaped(s) && LockInvariant(s) && Timely(s) && TaskAt(s, t, Loaded)
    ensures LockInvariant(Lock(s, t))
  {
    var s' := Lock(s, t);
    WorkerStepKeepsShape(s, t, LockAct);
    if Live(s.locks, PaymentOf(s, t), s.now) {
      WorkerTask(s, t, LockAct);
      TaskSteppedKeepsLocks(s, s', t);
    } else {
      FreeLockMeansNobodyInside(s, PaymentOf(s, t));
      LockTakenKeepsLocks(s, t);
    }
  }

  lemma LockTakenKeepsLocks(s: State, t: nat)
    requires LockInvariant(s) && TaskAt(s, t, Loaded) && !Live(s.locks, PaymentOf(s, t), s.now)
    requires forall u :: 0 <= u < |s.tasks| && InCritical(s.tasks[u]) && s.tasks[u].refund < |s.refunds| ==>
      s.refunds[s.tasks[u].refund].payment != PaymentOf(s, t)
    ensures LockInvariant(Lock(s, t))
  {
    var s' := Lock(s, t);
    forall u | 0 <= u < |s'.tasks| && InCritical(s'.tasks[u]) ensures OwnsLock(s'.tasks[u], s'.refunds, s'.locks) {
      if u != t { assert OwnsLock(s.tasks[u], s.refunds, s.locks); }
    }
  }

  lemma ReleaseKeepsLocks(s: State, t: nat)
    requires LockInvariant(s) && (TaskAt(s, t, Leaving) || TaskAt(s, t, Unfiled))
    ensures LockInvariant(Release(s, t))
    ensures forall u :: 0 <= u < |s.tasks| && u != t && InCritical(s.tasks[u]) ==>
      OwnsLock(s.tasks[u], s.refunds, Release(s, t).locks)
  {
    var s' := Release(s, t);
    forall u | 0 <= u < |s.tasks| && u != t && InCritical(s.tasks[u]) ensures OwnsLock(s.tasks[u], s.refunds, s'.locks) {
      assert OwnsLock(s.tasks[u], s.refunds, s.locks);
    }
    forall u | 0 <= u < |s'.tasks| && InCritical(s'.tasks[u]) ensures OwnsLock(s'.tasks[u], s'.refunds, s'.locks) {
      assert u != t;
    }
  }

  /** Neither taking nor releasing the lock. */
  lemma OtherSteps(s: State, t: nat, a: WorkerAction)
    requires t < |s.tasks| && s.tasks[t].refund < |s.refunds| && !a.LockAct? && !a.ReleaseAct?
    ensures TaskStepped(s, WorkerStep(s, t, a), t)
  {
    WorkerTask(s, t, a);
    WorkerRow(s, t, a);
    if Commits(s, Work(t, a)) {
      CommitRow(s, t);
    }
  }

  lemma WorkerStepKeepsLocks(s: State, t: nat, a: WorkerAction)
    requires WellShaped(s) && LockInvariant(s) && Timely(s)
    ensures LockInvariant(WorkerStep(s, t, a))
  {
    WorkerStepKeepsShape(s, t, a);
    if t >= |s.tasks| {
      NoTask(s, t, a);
    } else {
      match a
      case LockAct => if TaskAt(s, t, Loaded) { LockKeepsLocks(s, t); }
      case ReleaseAct => if TaskAt(s, t, Leaving) || TaskAt(s, t, Unfiled) { ReleaseKeepsLocks(s, t); }
      case _ =>
        OtherSteps(s, t, a);
        TaskSteppedKeepsLocks(s, WorkerStep(s, t, a), t);
    }
  }

  lemma RefundStepKeepsLocks(s: State, a: RefundAction)
    requires LockInvariant(s) && TasksLinked(RefundStep(s, a).tasks, |RefundStep(s, a).refunds|)
    ensures LockInvariant(RefundStep(s, a))
  {
    StuckTasks(s.refunds);
    var s' := RefundStep(s, a);
    forall u | 0 <= u < |s'.tasks| && InCritical(s'.tasks[u]) ensures OwnsLock(s'.tasks[u], s'.refunds, s'.locks) {
      assert OwnsLock(s.tasks[u], s.refunds, s.locks);
    }
  }

  lemma StepKeepsLocks(s: State, a: Action)
    requires WellShaped(s) && LockInvariant(s) && Timely(s)
    ensures LockInvariant(Step(s, a))
  {
    StepKeepsShape(s, a);
    match a
    case OnOrder(act) => OrderStepFrame(s, act);
    case OnPayment(act) => PaymentStepFrame(s, act);
    case OnRefund(act) => RefundStepKeepsLocks(s, act);
    case Work(t, act) => WorkerStepKeepsLocks(s, t, act);
    case OnWallet(act) => WalletStepFrame(s, act);
    case Tick(_) =>
  }

  lemma {:induction false} RunKeepsLocks(actions: seq<Action>)
    requires Prompt(actions)
    ensures LockInvariant(Run(actions)) && Timely(Run(actions))
  {
    if actions != [] {
      var prefix := actions[..|actions| - 1];
      RunKeepsLocks(prefix);
      RunIsShaped(prefix);
      StepKeepsLocks(Run(prefix), actions[|actions| - 1]);
    }
  }

  /** At most one task per payment is inside its critical section. */
  lemma AtMostOneInside(actions: seq<Action>, t: nat, u: nat)
    requires Prompt(actions)
    requires t < |Run(actions).tasks| && u < |Run(actions).tasks|
    requires InCritical(Run(actions).tasks[t]) && InCritical(Run(actions).tasks[u])
    ensures
      var s := Run(actions);
      && s.tasks[t].refund < |s.refunds| && s.tasks[u].refund < |s.refunds|
      && (PaymentOf(s, t) == PaymentOf(s, u) ==> t == u)
  {
    RunKeepsLocks(actions);
  }

  /** Leaving, a task deletes only the lock entry it set itself: everyone still inside keeps a live lock. */
  lemma ReleaseSparesOthers(actions: seq<Action>, t: nat, u: nat)
    requires Prompt(actions)
    requires t < |Run(actions).tasks| && u < |Run(actions).tasks| && t != u && InCritical(Run(actions).tasks[u])
    ensures
      var s := Run(actions);
      var s' := Release(s, t);
      && s.tasks[u].refund < |s.refunds|
      && Live(s'.locks, PaymentOf(s, u), s'.now)
      && s'.locks[PaymentOf(s, u)].expiry == s.tasks[u].lockedAt + 30
  {
    RunKeepsLocks(actions);
    var s := Run(actions);
    assert OwnsLock(s.tasks[u], s.refunds, s.locks);
    if TaskAt(s, t, Leaving) || TaskAt(s, t, Unfiled) {
      ReleaseKeepsLocks(s, t);
    }
  }

  lemma RunThenTwo(actions: seq<Action>, a: Action, b: Action)
    ensures Run(actions + [a, b]) == Step(Step(Run(actions), a), b)
  {
    assert actions + [a, b] == actions + [a] + [b];
    RunSnoc(actions, a);
    RunSnoc(actions + [a], b);
  }

  /**
  The exact time limit: beside a task that is inside, and after any wait, another task of the payment gets inside if
  and only if thirty seconds have passed since the first took the lock.
   */
  lemma SecondEntersExactly(actions: seq<Action>, inside: nat, t: nat, wait: nat)
    requires Prompt(actions)
    requires inside < |Run(actions).tasks| && InCritical(Run(actions).tasks[inside])
    requires TaskAt(Run(actions), t, Loaded) && Run(actions).tasks[inside].refund < |Run(actions).refunds|
    requires PaymentOf(Run(actions), inside) == PaymentOf(Run(actions), t)
    ensures
      var s' := Run(actions + [Tick(wait), Work(t, LockAct)]);
      && inside < |s'.tasks| && s'.tasks[inside] == Run(actions).tasks[inside]
      && t < |s'.tasks| && (InCritical(s'.tasks[t]) <==> Run(actions).now + wait >= Run(actions).tasks[inside].lockedAt + 30)
  {
    RunKeepsLocks(actions);
    RunThenTwo(actions, Tick(wait), Work(t, LockAct));
    var s := Run(actions);
    assert OwnsLock(s.tasks[inside], s.refunds, s.locks);
  }
}
