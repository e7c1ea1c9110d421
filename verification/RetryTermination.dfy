/**
How a refund's executions end, in every run: tasks of any number of refunds interleave, contend for locks, fail at any
write and die anywhere, and sweeps and redeliveries dispatch refunds again.
 */
module RetryTermination {
  import opened Prelude
  import opened TtlCache
  import opened Engine
  import opened Shape
  import opened TaskSteps
  import R = Refunds

  /** The task may still move its refund or send it on. */
  predicate Carrier(task: Task) {
    && task.alive
    && match task.phase
       case Logging(site) => !site.GiveUp?
       case Notifying(site) => !site.GiveUp?
       case Filing => false
       case Unfiled => false
       case Leaving => false
       case Ended => false
       case _ => true
  }

  ghost predicate Carried(tasks: seq<Task>, refund: nat) {
    exists t :: 0 <= t < |tasks| && tasks[t].refund == refund && Carrier(tasks[t])
  }

  /** Executions dispatched for one refund. */
  function Tries(tasks: seq<Task>, refund: nat): nat {
    if tasks == [] then 0
    else
      var n := |tasks| - 1;
      Tries(tasks[..n], refund) + if tasks[n].refund == refund then 1 else 0
  }

  // ----- a step of one task

  /** A task sends at most one message on, with one more retry, and is no carrier afterwards; it never becomes one again. */
  predicate HandsOver(tasks: seq<Task>, tasks': seq<Task>, t: nat)
    requires t < |tasks| <= |tasks'|
  {
    && (Carrier(tasks'[t]) ==> Carrier(tasks[t]))
    && (|tasks'| == |tasks|
        || (&& |tasks'| == |tasks| + 1 && Carrier(tasks[t]) && !Carrier(tasks'[t])
            && tasks[t].retries < MAX_RETRIES && tasks'[|tasks|] == NewTask(tasks[t].refund, tasks[t].retries + 1)))
  }

  lemma Handover(s: State, t: nat, a: WorkerAction)
    requires WellShaped(s) && t < |s.tasks| && OneTask(s.tasks, WorkerStep(s, t, a).tasks, t)
    ensures HandsOver(s.tasks, WorkerStep(s, t, a).tasks, t)
  {
    if Commits(s, Work(t, a)) { CommitRow(s, t); }
  }

  lemma WritersCarry(s: State, t: nat, a: WorkerAction)
    requires Writes(s, Work(t, a)) && s.tasks[t].refund < |s.refunds|
    ensures Carrier(s.tasks[t]) && |WorkerStep(s, t, a).tasks| == |s.tasks|
  {
    if Commits(s, Work(t, a)) { CommitRow(s, t); }
  }

  lemma CarriedBy(tasks: seq<Task>, t: nat)
    requires t < |tasks| && Carrier(tasks[t])
    ensures Carried(tasks, tasks[t].refund)
  {
  }

  /** A task that is no carrier before and after leaves the carriers of its refund as they were. */
  lemma OtherCarriers(tasks: seq<Task>, tasks': seq<Task>, t: nat, refund: nat)
    requires t < |tasks| == |tasks'| && !Carrier(tasks[t]) && !Carrier(tasks'[t])
    requires forall u :: 0 <= u < |tasks| && u != t ==> tasks'[u] == tasks[u]
    ensures Carried(tasks', refund) <==> Carried(tasks, refund)
  {
    if Carried(tasks, refund) {
      var u :| 0 <= u < |tasks| && tasks[u].refund == refund && Carrier(tasks[u]);
      CarriedBy(tasks', u);
    }
    if Carried(tasks', refund) {
      var u :| 0 <= u < |tasks'| && tasks'[u].refund == refund && Carrier(tasks'[u]);
      CarriedBy(tasks, u);
    }
  }

  /** A refund other than the task's keeps its carriers. */
  lemma OthersCarried(tasks: seq<Task>, tasks': seq<Task>, t: nat, refund: nat)
    requires OneTask(tasks, tasks', t) && tasks[t].refund != refund
    requires forall u :: |tasks| <= u < |tasks'| ==> tasks'[u].refund != refund
    ensures Carried(tasks', refund) <==> Carried(tasks, refund)
  {
    if Carried(tasks, refund) {
      var u :| 0 <= u < |tasks| && tasks[u].refund == refund && Carrier(tasks[u]);
      CarriedBy(tasks', u);
    }
    if Carried(tasks', refund) {
      var u :| 0 <= u < |tasks'| && tasks'[u].refund == refund && Carrier(tasks'[u]);
      CarriedBy(tasks, u);
    }
  }

  // ----- refunds left with nobody to finish them

  ghost predicate Abandoned(s: State, refund: nat) {
    refund < |s.refunds| && !R.Terminal(s.refunds[refund].status) && !Carried(s.tasks, refund)
  }

  /**
  The ways an execution ends without its refund finished or sent on: a death, a raising handler, a lock lost on the
  last retry, and a decline whose FAILED another execution has written over since.
   */
  predicate Drops(s: State, t: nat, a: WorkerAction)
    requires t < |s.tasks| && s.tasks[t].refund < |s.refunds|
  {
    && Carrier(s.tasks[t]) && !R.Terminal(s.refunds[s.tasks[t].refund].status)
    && match a
       case CrashAct => true
       case RaiseAct => TaskIn(s, t) && s.tasks[t].phase in {Raised, Saving(GiveUp)}
       case LockAct => TaskAt(s, t, Loaded) && s.tasks[t].retries == MAX_RETRIES && Live(s.locks, PaymentOf(s, t), s.now)
       case NotifyAct => TaskAt(s, t, Notifying(Decline))
       case _ => false
  }

  /** The refund's only execution is dropped. */
  predicate DropsLast(s: State, a: Action, refund: nat) {
    && a.Work? && a.t < |s.tasks| && s.tasks[a.t].refund == refund < |s.refunds|
    && Drops(s, a.t, a.worker)
    && forall u :: 0 <= u < |s.tasks| && u != a.t && s.tasks[u].refund == refund ==> !Carrier(s.tasks[u])
  }

  /** When a task stops carrying without handing over, either it is one of those ways or its refund is finished. */
  lemma GoneMeans(s: State, t: nat, a: WorkerAction)
    requires WellShaped(s) && t < |s.tasks|
    requires OneRow(s, WorkerStep(s, t, a), t) && OneTask(s.tasks, WorkerStep(s, t, a).tasks, t)
    requires Carrier(s.tasks[t]) && !Carrier(WorkerStep(s, t, a).tasks[t]) && |WorkerStep(s, t, a).tasks| == |s.tasks|
    ensures Drops(s, t, a) <==> !R.Terminal(WorkerStep(s, t, a).refunds[s.tasks[t].refund].status)
  {
    assert RefundLinked(s.refunds[s.tasks[t].refund], s.payments);
    if Commits(s, Work(t, a)) { CommitRow(s, t); }
  }

  lemma DropsMeans(s: State, t: nat, a: WorkerAction)
    requires WellShaped(s) && t < |s.tasks| && Drops(s, t, a)
    ensures t < |WorkerStep(s, t, a).tasks| && !Carrier(WorkerStep(s, t, a).tasks[t]) && |WorkerStep(s, t, a).tasks| == |s.tasks|
  {
  }

  lemma OwnAbandoned(s: State, t: nat, a: WorkerAction)
    requires WellShaped(s) && t < |s.tasks|
    ensures
      var refund := s.tasks[t].refund;
      Abandoned(WorkerStep(s, t, a), refund) <==> Abandoned(s, refund) || DropsLast(s, Work(t, a), refund)
  {
    hide WorkerStep, Drops;
    var s', refund := WorkerStep(s, t, a), s.tasks[t].refund;
    WorkerRow(s, t, a);
    WorkerTask(s, t, a);
    Handover(s, t, a);
    if Drops(s, t, a) { DropsMeans(s, t, a); }
    if Writes(s, Work(t, a)) { WritersCarry(s, t, a); }
    if Carrier(s.tasks[t]) {
      CarriedBy(s.tasks, t);
      if |s'.tasks| > |s.tasks| {
        CarriedBy(s'.tasks, |s.tasks|);
      } else if Carrier(s'.tasks[t]) {
        CarriedBy(s'.tasks, t);
      } else {
        GoneMeans(s, t, a);
        OneLess(s.tasks, s'.tasks, t);
      }
    } else {
      DropsCarries(s, t, a);
      OtherCarriers(s.tasks, s'.tasks, t, refund);
    }
  }

  lemma DropsCarries(s: State, t: nat, a: WorkerAction)
    requires t < |s.tasks| && s.tasks[t].refund < |s.refunds|
    ensures Drops(s, t, a) ==> Carrier(s.tasks[t])
  {
  }

  /** With one carrier gone, the refund is carried exactly when there was another. */
  lemma OneLess(tasks: seq<Task>, tasks': seq<Task>, t: nat)
    requires t < |tasks| == |tasks'| && !Carrier(tasks'[t])
    requires forall u :: 0 <= u < |tasks| && u != t ==> tasks'[u] == tasks[u]
    ensures Carried(tasks', tasks[t].refund) <==> exists u :: 0 <= u < |tasks| && u != t && tasks[u].refund == tasks[t].refund && Carrier(tasks[u])
  {
    var refund := tasks[t].refund;
    if Carried(tasks', refund) {
      var u :| 0 <= u < |tasks'| && tasks'[u].refund == refund && Carrier(tasks'[u]);
      assert u != t && Carrier(tasks[u]);
    }
    if u :| 0 <= u < |tasks| && u != t && tasks[u].refund == refund && Carrier(tasks[u]) {
      CarriedBy(tasks', u);
    }
  }

  lemma WorkerAbandoned(s: State, t: nat, a: WorkerAction, refund: nat)
    requires WellShaped(s) && t < |s.tasks|
    ensures Abandoned(WorkerStep(s, t, a), refund) <==> Abandoned(s, refund) || DropsLast(s, Work(t, a), refund)
  {
    hide WorkerStep;
    if refund == s.tasks[t].refund {
      OwnAbandoned(s, t, a);
    } else {
      WorkerRow(s, t, a);
      WorkerTask(s, t, a);
      Handover(s, t, a);
      OthersCarried(s.tasks, WorkerStep(s, t, a).tasks, t, refund);
    }
  }

  // ----- dispatches

  /** A request dies after inserting this refund and before dispatching it. */
  predicate InsertsUnsent(s: State, a: Action, refund: nat) {
    && a.OnRefund? && a.refund.UnsentRefundAct?
    && CheckNewRefund(s, a.refund.merchant, a.refund.payment, a.refund.amount).None?
    && |s.refunds| == refund
  }

  /** New messages are carriers of the refunds they name. */
  lemma MessagesCarry(tasks: seq<Task>, more: seq<Task>, refund: nat)
    requires forall k :: 0 <= k < |more| ==> Carrier(more[k])
    ensures Carried(tasks + more, refund) <==> Carried(tasks, refund) || exists k :: 0 <= k < |more| && more[k].refund == refund
  {
    if Carried(tasks, refund) {
      var u :| 0 <= u < |tasks| && tasks[u].refund == refund && Carrier(tasks[u]);
      CarriedBy(tasks + more, u);
    }
    if k :| 0 <= k < |more| && more[k].refund == refund {
      assert (tasks + more)[|tasks| + k] == more[k];
      CarriedBy(tasks + more, |tasks| + k);
    }
    if Carried(tasks + more, refund) {
      var u :| 0 <= u < |tasks + more| && (tasks + more)[u].refund == refund && Carrier((tasks + more)[u]);
      if u < |tasks| { CarriedBy(tasks, u); } else { assert more[u - |tasks|].refund == refund; }
    }
  }

  lemma {:induction false} SweepFinds(refunds: seq<R.Refund>, refund: nat)
    ensures (exists k :: 0 <= k < |Stuck(refunds)| && Stuck(refunds)[k].refund == refund)
       <==> refund < |refunds| && refunds[refund].status == R.Processing
  {
    if refunds != [] {
      var n := |refunds| - 1;
      SweepFinds(refunds[..n], refund);
      StuckTasks(refunds[..n]);
      var front := Stuck(refunds[..n]);
      if k :| 0 <= k < |front| && front[k].refund == refund { assert Stuck(refunds)[k].refund == refund; }
      if refunds[n].status == R.Processing {
        assert Stuck(refunds)[|front|].refund == n;
        if k :| 0 <= k < |Stuck(refunds)| && Stuck(refunds)[k].refund == refund { assert k < |front| ==> front[k].refund == refund; }
      }
    }
  }

  /** Tasks only name refunds that exist. */
  lemma NotCarriedYet(tasks: seq<Task>, refunds: nat)
    requires TasksLinked(tasks, refunds)
    ensures forall refund: nat :: refund >= refunds ==> !Carried(tasks, refund)
  {
  }

  lemma RefundStepAbandoned(s: State, a: RefundAction, refund: nat)
    requires WellShaped(s)
    ensures Abandoned(RefundStep(s, a), refund)
       <==> InsertsUnsent(s, OnRefund(a), refund) || (Abandoned(s, refund) && !Dispatches(s, OnRefund(a), refund))
  {
    var s' := RefundStep(s, a);
    NotCarriedYet(s.tasks, |s.refunds|);
    match a
    case CreateRefundAct(_, _, _) =>
      var first := [NewTask(|s.refunds|, 0)];
      assert first[0].refund == |s.refunds|;
      MessagesCarry(s.tasks, first, refund);
    case UnsentRefundAct(_, _, _, _) =>
    case ReconcileAct =>
      StuckTasks(s.refunds);
      SweepFinds(s.refunds, refund);
      MessagesCarry(s.tasks, Stuck(s.refunds), refund);
    case RedeliverAct(r, retries) =>
      var again := [NewTask(r, retries)];
      assert again[0].refund == r;
      MessagesCarry(s.tasks, again, refund);
  }

  predicate LeavesStuck(s: State, a: Action, refund: nat) {
    DropsLast(s, a, refund) || InsertsUnsent(s, a, refund)
  }

  lemma StepAbandoned(s: State, a: Action, refund: nat)
    requires WellShaped(s)
    ensures Abandoned(Step(s, a), refund) <==> LeavesStuck(s, a, refund) || (Abandoned(s, refund) && !Dispatches(s, a, refund))
  {
    hide WorkerStep, RefundStep, OrderStep, PaymentStep, WalletStep, Abandoned;
    match a
    case OnOrder(act) => OrderStepFrame(s, act); SameAbandoned(s, Step(s, a), refund);
    case OnPayment(act) => PaymentStepFrame(s, act); SameAbandoned(s, Step(s, a), refund);
    case OnRefund(act) => RefundStepAbandoned(s, act, refund);
    case Work(t, act) => if t < |s.tasks| { WorkerAbandoned(s, t, act, refund); } else { NoTask(s, t, act); }
    case OnWallet(act) => WalletStepFrame(s, act); SameAbandoned(s, Step(s, a), refund);
    case Tick(_) => SameAbandoned(s, Step(s, a), refund);
  }

  lemma SameAbandoned(s: State, s': State, refund: nat)
    requires s'.refunds == s.refunds && s'.tasks == s.tasks
    ensures Abandoned(s', refund) <==> Abandoned(s, refund)
  {
  }

  /** Since its last dispatch, the refund's only execution was dropped, or it was inserted without any. */
  predicate LeftStuck(actions: seq<Action>, refund: nat) {
    actions != [] &&
    var prefix, a := actions[..|actions| - 1], actions[|actions| - 1];
    LeavesStuck(Run(prefix), a, refund) || (LeftStuck(prefix, refund) && !Dispatches(Run(prefix), a, refund))
  }

  lemma {:induction false} AbandonedIsStuck(actions: seq<Action>, refund: nat)
    ensures Abandoned(Run(actions), refund) <==> LeftStuck(actions, refund)
  {
    if actions != [] {
      var prefix := actions[..|actions| - 1];
      AbandonedIsStuck(prefix, refund);
      RunIsShaped(prefix);
      StepAbandoned(Run(prefix), actions[|actions| - 1], refund);
    }
  }

  // ----- the number of executions

  /** The retries the tasks of a refund still have. */
  function Budget(tasks: seq<Task>, refund: nat): int {
    if tasks == [] then 0
    else
      var n := |tasks| - 1;
      Budget(tasks[..n], refund) + Share(tasks[n], refund)
  }

  function Share(task: Task, refund: nat): int {
    if task.refund == refund && Carrier(task) then MAX_RETRIES - task.retries else 0
  }

  function Potential(tasks: seq<Task>, refund: nat): int {
    Tries(tasks, refund) + Budget(tasks, refund)
  }

  lemma {:induction false} PotentialUpdate(tasks: seq<Task>, t: nat, task: Task, refund: nat)
    requires t < |tasks| && task.refund == tasks[t].refund
    ensures Potential(tasks[t := task], refund) == Potential(tasks, refund) - Share(tasks[t], refund) + Share(task, refund)
  {
    var n := |tasks| - 1;
    if t == n {
      assert tasks[t := task][..n] == tasks[..n];
    } else {
      assert tasks[t := task][..n] == tasks[..n][t := task];
      PotentialUpdate(tasks[..n], t, task, refund);
    }
  }

  lemma PotentialAppend(tasks: seq<Task>, task: Task, refund: nat)
    ensures Potential(tasks + [task], refund)
         == Potential(tasks, refund) + if task.refund == refund then 1 + Share(task, refund) else 0
  {
    assert (tasks + [task])[..|tasks|] == tasks;
  }

  lemma {:induction false} BudgetNotNegative(tasks: seq<Task>, refund: nat)
    requires forall t :: 0 <= t < |tasks| ==> tasks[t].retries <= MAX_RETRIES
    ensures Budget(tasks, refund) >= 0
  {
    if tasks != [] {
      BudgetNotNegative(tasks[..|tasks| - 1], refund);
    }
  }

  lemma WorkerPotential(s: State, t: nat, a: WorkerAction, refund: nat)
    requires WellShaped(s) && t < |s.tasks|
    ensures Potential(WorkerStep(s, t, a).tasks, refund) <= Potential(s.tasks, refund)
  {
    WorkerTask(s, t, a);
    Handover(s, t, a);
    PotentialKept(s.tasks, WorkerStep(s, t, a).tasks, t, refund);
  }

  lemma PotentialKept(tasks: seq<Task>, tasks': seq<Task>, t: nat, refund: nat)
    requires OneTask(tasks, tasks', t) && HandsOver(tasks, tasks', t) && tasks[t].retries <= MAX_RETRIES
    ensures Potential(tasks', refund) <= Potential(tasks, refund)
  {
    PotentialUpdate(tasks, t, tasks'[t], refund);
    if |tasks'| > |tasks| {
      PotentialAppend(tasks[t := tasks'[t]], tasks'[|tasks|], refund);
      assert tasks' == tasks[t := tasks'[t]] + [tasks'[|tasks|]];
    } else {
      assert tasks' == tasks[t := tasks'[t]];
    }
  }

  /** The action dispatches this refund: its request, a sweep that finds it PROCESSING, or a redelivered message. */
  predicate Dispatches(s: State, a: Action, refund: nat) {
    && a.OnRefund?
    && match a.refund
       case CreateRefundAct(merchant, payment, amount) => CheckNewRefund(s, merchant, payment, amount).None? && |s.refunds| == refund
       case UnsentRefundAct(_, _, _, _) => false
       case ReconcileAct => refund < |s.refunds| && s.refunds[refund].status == R.Processing
       case RedeliverAct(r, retries) => r == refund < |s.refunds| && retries <= MAX_RETRIES
  }

  function DispatchCount(actions: seq<Action>, refund: nat): nat {
    if actions == [] then 0
    else
      var prefix := actions[..|actions| - 1];
      DispatchCount(prefix, refund) + if Dispatches(Run(prefix), actions[|actions| - 1], refund) then 1 else 0
  }

  lemma {:induction false} SweepPotential(tasks: seq<Task>, refunds: seq<R.Refund>, refund: nat)
    ensures Potential(tasks + Stuck(refunds), refund)
         == Potential(tasks, refund) + if refund < |refunds| && refunds[refund].status == R.Processing then 4 else 0
  {
    if refunds == [] {
      assert tasks + Stuck(refunds) == tasks;
    } else {
      var n := |refunds| - 1;
      SweepPotential(tasks, refunds[..n], refund);
      if refunds[n].status == R.Processing {
        assert tasks + Stuck(refunds) == tasks + Stuck(refunds[..n]) + [NewTask(n, 0)];
        PotentialAppend(tasks + Stuck(refunds[..n]), NewTask(n, 0), refund);
      } else {
        assert Stuck(refunds) == Stuck(refunds[..n]);
      }
    }
  }

  /** A message brings one execution and the retries it has. */
  lemma MessagePotential(tasks: seq<Task>, r: nat, retries: nat, refund: nat)
    requires retries <= MAX_RETRIES
    ensures Potential(tasks + [NewTask(r, retries)], refund) == Potential(tasks, refund) + if r == refund then 4 - retries else 0
  {
    PotentialAppend(tasks, NewTask(r, retries), refund);
  }

  lemma RequestPotential(s: State, merchant: nat, payment: nat, amount: int, refund: nat)
    ensures Potential(RefundStep(s, CreateRefundAct(merchant, payment, amount)).tasks, refund)
         <= Potential(s.tasks, refund) + if Dispatches(s, OnRefund(CreateRefundAct(merchant, payment, amount)), refund) then 4 else 0
  {
    MessagePotential(s.tasks, |s.refunds|, 0, refund);
  }

  lemma RedeliveryPotential(s: State, r: nat, retries: nat, refund: nat)
    ensures Potential(Redeliver(s, r, retries).tasks, refund)
         <= Potential(s.tasks, refund) + if Dispatches(s, OnRefund(RedeliverAct(r, retries)), refund) then 4 else 0
  {
    if retries <= MAX_RETRIES {
      MessagePotential(s.tasks, r, retries, refund);
    }
  }

  lemma RefundStepPotential(s: State, a: RefundAction, refund: nat)
    ensures Potential(RefundStep(s, a).tasks, refund)
         <= Potential(s.tasks, refund) + if Dispatches(s, OnRefund(a), refund) then 4 else 0
  {
    match a
    case CreateRefundAct(merchant, payment, amount) => RequestPotential(s, merchant, payment, amount, refund);
    case UnsentRefundAct(_, _, _, _) =>
    case ReconcileAct => SweepPotential(s.tasks, s.refunds, refund);
    case RedeliverAct(r, retries) => RedeliveryPotential(s, r, retries, refund);
  }

  lemma StepPotential(s: State, a: Action, refund: nat)
    requires WellShaped(s)
    ensures Potential(Step(s, a).tasks, refund) <= Potential(s.tasks, refund) + if Dispatches(s, a, refund) then 4 else 0
  {
    match a
    case OnOrder(act) => OrderStepFrame(s, act);
    case OnPayment(act) => PaymentStepFrame(s, act);
    case OnRefund(act) => RefundStepPotential(s, act, refund);
    case Work(t, act) => if t < |s.tasks| { WorkerPotential(s, t, act, refund); } else { NoTask(s, t, act); }
    case OnWallet(act) => WalletStepFrame(s, act);
    case Tick(_) =>
  }

  lemma {:induction false} RunPotential(actions: seq<Action>, refund: nat)
    ensures Potential(Run(actions).tasks, refund) <= 4 * DispatchCount(actions, refund)
  {
    if actions != [] {
      var prefix := actions[..|actions| - 1];
      RunPotential(prefix, refund);
      RunIsShaped(prefix);
      StepPotential(Run(prefix), actions[|actions| - 1], refund);
    }
  }

  /** In every run a refund is executed at most four times per dispatch, whatever crashes, raises or loses the lock. */
  lemma ExecutionsBounded(actions: seq<Action>, refund: nat)
    ensures Tries(Run(actions).tasks, refund) <= 4 * DispatchCount(actions, refund)
  {
    RunPotential(actions, refund);
    RunIsShaped(actions);
    BudgetNotNegative(Run(actions).tasks, refund);
  }

  // ----- how executions end

  /**
  In every run, a refund is unfinished with no execution to come if and only if, since it was last dispatched, its
  request died before the dispatch, a worker died with its only execution, that execution's handler raised, its last
  retry found the payment locked, or its decline was written over.
   */
  lemma RetriesEnd(actions: seq<Action>, refund: nat)
    requires refund < |Run(actions).refunds|
    ensures
      var s := Run(actions);
      (s.refunds[refund].status == R.Created || s.refunds[refund].status == R.Processing) && !Carried(s.tasks, refund)
      <==> LeftStuck(actions, refund)
  {
    AbandonedIsStuck(actions, refund);
  }

  /** If it was not left stuck since it was last dispatched, a refund whose executions are all over is SUCCESS or FAILED. */
  lemma FinishedUnlessStuck(actions: seq<Action>, refund: nat)
    requires refund < |Run(actions).refunds| && !LeftStuck(actions, refund)
    requires forall t :: 0 <= t < |Run(actions).tasks| && Run(actions).tasks[t].refund == refund ==> !Run(actions).tasks[t].alive
    ensures Run(actions).refunds[refund].status == R.Success || Run(actions).refunds[refund].status == R.Failed
    ensures Tries(Run(actions).tasks, refund) <= 4 * DispatchCount(actions, refund)
  {
    RetriesEnd(actions, refund);
    ExecutionsBounded(actions, refund);
  }
}
