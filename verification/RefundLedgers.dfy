/**
The refund audit ledger when any of its autocommitted writes may fail. update_refund_status saves the row, then
inserts the ledger entry, then the event, and outside the success block nothing ties the three together.
 */
module RefundLedgers {
  import opened Prelude
  import opened Engine
  import opened Shape
  import opened RefundSafety
  import opened TaskSteps
  import R = Refunds

  // ----- what a ledger can look like

  /** The latest entry is that of a finished refund. */
  predicate Closed(r: R.Refund) {
    r.ledger != [] && R.Terminal(r.ledger[|r.ledger| - 1].status)
  }

  predicate EndsFailed(r: R.Refund) {
    r.ledger != [] && r.ledger[|r.ledger| - 1].status == R.Failed
  }

  /** The row has moved on and its entry is missing. */
  predicate Lags(r: R.Refund) {
    r.ledger == [] || r.ledger[|r.ledger| - 1].status != r.status
  }

  /** Two FAILED entries close the ledger. */
  predicate FailedTwice(r: R.Refund) {
    |r.ledger| >= 2 && EndsFailed(r) && r.ledger[|r.ledger| - 2].status == R.Failed
  }

  predicate Headless(r: R.Refund) {
    r.ledger == [] || r.ledger[0].status != R.Created
  }

  function Rank(status: R.RefundStatus): nat {
    match status
    case Created => 0
    case Processing => 1
    case _ => 2
  }

  /** A terminal entry is followed by nothing, or a FAILED one by one more FAILED that is the last. */
  ghost predicate EntrySurvives(r: R.Refund, i: nat)
    requires i < |r.ledger|
  {
    && r.ledger[i] == R.EntryOf(r, r.ledger[i].status)
    && (i > 0 ==>
          && r.ledger[i].status != R.Created
          && (R.Terminal(r.ledger[i - 1].status) ==>
                r.ledger[i - 1].status == R.Failed && r.ledger[i].status == R.Failed && i == |r.ledger| - 1))
  }

  /** What survives failing writes: CREATED? PROCESSING* (SUCCESS | FAILED FAILED?)?, never ahead of the row. */
  ghost predicate Survives(r: R.Refund) {
    && (forall i :: 0 <= i < |r.ledger| ==> EntrySurvives(r, i))
    && (r.ledger != [] && Lags(r) ==> Rank(r.ledger[|r.ledger| - 1].status) < Rank(r.status))
  }

  /** The full grammar is what survives without a missing head, a missing entry and a second FAILED. */
  lemma GrammarIs(r: R.Refund)
    requires Survives(r)
    ensures R.LedgerOk(r) <==> !Headless(r) && !Lags(r) && !FailedTwice(r)
  {
    if !Headless(r) && !Lags(r) && !FailedTwice(r) {
      assert EntrySurvives(r, 0);
      forall i | 0 < i < |r.ledger| ensures R.EntryFollows(r, i) {
        assert EntrySurvives(r, i);
      }
    }
    if FailedTwice(r) {
      var last := |r.ledger| - 1;
      assert !R.EntryFollows(r, last);
    }
  }

  // ----- the invariant

  /** What a live task may rely on before it logs. */
  predicate LedgerReady(task: Task, r: R.Refund) {
    task.alive ==>
      match task.phase
      case Saving(site) => site.GiveUp? ==> !FailedTwice(r)
      case Logging(site) => if site.GiveUp? then !FailedTwice(r) && (Closed(r) ==> EndsFailed(r)) else !Closed(r)
      case Notifying(site) => site.Decline? ==> EndsFailed(r) && !FailedTwice(r)
      case Raised => !FailedTwice(r)
      case _ => true
  }

  ghost predicate LedgersOk(refunds: seq<R.Refund>) {
    forall r :: 0 <= r < |refunds| ==> Survives(refunds[r])
  }

  predicate TasksReady(tasks: seq<Task>, refunds: seq<R.Refund>) {
    forall t :: 0 <= t < |tasks| && tasks[t].refund < |refunds| ==> LedgerReady(tasks[t], refunds[tasks[t].refund])
  }

  /** A row whose ledger and status do not move keeps what it had. */
  predicate SameLedger(r: R.Refund, row: R.Refund) {
    row.ledger == r.ledger && row.status == r.status && row.amount == r.amount
  }

  lemma SameSurvives(r: R.Refund, row: R.Refund)
    requires Survives(r) && SameLedger(r, row)
    ensures Survives(row)
  {
    forall i | 0 <= i < |row.ledger| ensures EntrySurvives(row, i) {
      assert EntrySurvives(r, i);
    }
  }

  lemma SaveSurvives(r: R.Refund, status: R.RefundStatus, code: R.FailureCode, ref: bool)
    requires Survives(r) && status != R.Created && (status == r.status || Rank(r.status) < Rank(status))
    ensures Survives(R.SaveRow(r, status, code, ref))
  {
    var row := R.SaveRow(r, status, code, ref);
    forall i | 0 <= i < |row.ledger| ensures EntrySurvives(row, i) {
      assert EntrySurvives(r, i);
    }
  }

  lemma LogSurvives(r: R.Refund)
    requires Survives(r) && r.status != R.Created && !FailedTwice(r)
    requires Closed(r) ==> EndsFailed(r) && r.status == R.Failed
    ensures Survives(R.LogRow(r, r.status)) && !Lags(R.LogRow(r, r.status))
    ensures FailedTwice(R.LogRow(r, r.status)) <==> EndsFailed(r)
    ensures Headless(R.LogRow(r, r.status)) <==> Headless(r)
  {
    var row := R.LogRow(r, r.status);
    forall i | 0 <= i < |row.ledger| ensures EntrySurvives(row, i) {
      if i < |r.ledger| { assert EntrySurvives(r, i); }
    }
  }

  /** One task and its row changed, and nobody else is inside the payment. */
  lemma OthersReady(s: State, t: nat, task: Task, row: R.Refund)
    requires Invariant(s) && TasksReady(s.tasks, s.refunds)
    requires TaskIn(s, t) && InCritical(s.tasks[t]) && task.refund == s.tasks[t].refund && LedgerReady(task, row)
    ensures TasksReady(s.tasks[t := task], s.refunds[task.refund := row])
  {
  }

  lemma TaskAlone(s: State, t: nat, task: Task)
    requires TasksReady(s.tasks, s.refunds) && t < |s.tasks| && task.refund == s.tasks[t].refund < |s.refunds|
    requires LedgerReady(task, s.refunds[task.refund])
    ensures TasksReady(s.tasks[t := task], s.refunds)
    ensures TasksReady(Requeued(s.tasks[t := task], task), s.refunds)
  {
  }

  ghost predicate Kept(s: State) {
    LedgersOk(s.refunds) && TasksReady(s.tasks, s.refunds)
  }

  lemma SaveKept(s: State, t: nat)
    requires Invariant(s) && Kept(s) && AtSaving(s, t)
    ensures Kept(SaveStatus(s, t))
  {
    var task := s.tasks[t];
    var r := s.refunds[task.refund];
    assert TaskAgrees(task, r) && RowOk(r) && LedgerReady(task, r) && Survives(r);
    SaveSurvives(r, SiteStatus(task.phase.site), task.code, task.ref);
    OthersReady(s, t, SaveStatus(s, t).tasks[t], SaveStatus(s, t).refunds[task.refund]);
  }

  lemma LogKept(s: State, t: nat)
    requires Invariant(s) && Kept(s) && AtLogging(s, t)
    ensures Kept(LogStatus(s, t))
    ensures var r := s.refunds[s.tasks[t].refund];
      var row := LogStatus(s, t).refunds[s.tasks[t].refund];
      !Lags(row) && (FailedTwice(row) <==> EndsFailed(r)) && (Headless(row) <==> Headless(r)) && !FailedTwice(r)
    ensures !s.tasks[t].phase.site.GiveUp? ==> !EndsFailed(s.refunds[s.tasks[t].refund])
  {
    var task := s.tasks[t];
    var r := s.refunds[task.refund];
    assert TaskAgrees(task, r) && RowOk(r) && LedgerReady(task, r) && Survives(r);
    assert r.status == SiteStatus(task.phase.site);
    LogSurvives(r);
    OthersReady(s, t, LogStatus(s, t).tasks[t], LogStatus(s, t).refunds[task.refund]);
  }

  /** A PROCESSING or CREATED row has no terminal entry. */
  lemma OpenRow(r: R.Refund)
    requires Survives(r) && !R.Terminal(r.status)
    ensures !Closed(r) && !FailedTwice(r)
  {
  }

  lemma SuccessSurvives(r: R.Refund, code: R.FailureCode)
    requires Survives(r) && r.status == R.Processing
    ensures var row := R.WriteRow(r, R.Success, code, true);
      Survives(row) && !Lags(row) && !FailedTwice(row) && (Headless(row) <==> Headless(r)) && !FailedTwice(r)
  {
    OpenRow(r);
    SaveSurvives(r, R.Success, code, true);
    var saved := R.SaveRow(r, R.Success, code, true);
    LogSurvives(saved);
    SameSurvives(R.LogRow(saved, R.Success), R.WriteRow(r, R.Success, code, true));
  }

  lemma CommitKept(s: State, t: nat)
    requires Invariant(s) && Kept(s) && Commits(s, Work(t, CommitAct))
    ensures Kept(Commit(s, t))
    ensures var r := s.refunds[s.tasks[t].refund];
      var row := Commit(s, t).refunds[s.tasks[t].refund];
      !Lags(row) && !FailedTwice(row) && (Headless(row) <==> Headless(r)) && !FailedTwice(r)
  {
    var task := s.tasks[t];
    var r := s.refunds[task.refund];
    assert TaskAgrees(task, r) && Survives(r);
    SuccessSurvives(r, task.code);
    CommitRow(s, t);
    OthersReady(s, t, task.(phase := Leaving), R.WriteRow(r, R.Success, task.code, true));
  }

  // The steps that leave the refund table alone.

  lemma StartKept(s: State, t: nat)
    requires Invariant(s) && Kept(s)
    ensures Kept(Start(s, t))
  {
    if TaskAt(s, t, Queued) {
      TaskAlone(s, t, Start(s, t).tasks[t]);
    }
  }

  lemma LockKept(s: State, t: nat)
    requires Invariant(s) && Kept(s)
    ensures Kept(Lock(s, t))
  {
    if TaskAt(s, t, Loaded) {
      TaskAlone(s, t, End(s.tasks[t]));
      TaskAlone(s, t, s.tasks[t].(phase := Saving(Begin), lockedAt := s.now));
    }
  }

  lemma HandleKept(s: State, t: nat)
    requires Invariant(s) && Kept(s)
    ensures Kept(Handle(s, t))
  {
    if TaskAt(s, t, Raised) {
      assert LedgerReady(s.tasks[t], s.refunds[s.tasks[t].refund]);
      TaskAlone(s, t, s.tasks[t].(phase := Saving(GiveUp), code := R.MaxRetriesExceeded));
      TaskAlone(s, t, s.tasks[t].(phase := Leaving));
    }
  }

  lemma GoneKept(s: State, t: nat)
    requires Invariant(s) && Kept(s)
    ensures Kept(Release(s, t)) && Kept(Crash(s, t))
  {
    if t < |s.tasks| {
      TaskAlone(s, t, s.tasks[t].(alive := false));
      TaskAlone(s, t, End(s.tasks[t]));
    }
  }

  lemma RaiseKept(s: State, t: nat)
    requires Invariant(s) && Kept(s)
    ensures Kept(Raise(s, t))
  {
    if TaskIn(s, t) {
      var task := s.tasks[t];
      var r := s.refunds[task.refund];
      assert TaskAgrees(task, r) && RowOk(r) && LedgerReady(task, r) && Survives(r);
      if !R.Terminal(r.status) { OpenRow(r); }
      TaskAlone(s, t, Raise(s, t).tasks[t]);
    }
  }

  lemma RollBackKept(s: State, t: nat)
    requires Invariant(s) && Kept(s) && TaskAt(s, t, Paid)
    ensures Kept(RollBack(s, t))
  {
    var task := s.tasks[t];
    var r := s.refunds[task.refund];
    assert TaskAgrees(task, r) && Survives(r);
    OpenRow(r);
    TaskAlone(s, t, RollBack(s, t).tasks[t]);
  }

  /** The steps that write the row without moving its status or its ledger. */
  lemma RowKept(s: State, t: nat, task: Task, row: R.Refund)
    requires Invariant(s) && Kept(s) && TaskIn(s, t) && InCritical(s.tasks[t]) && task.refund == s.tasks[t].refund
    requires SameLedger(s.refunds[task.refund], row) && LedgerReady(task, row)
    ensures Kept(WithTask(WithRefund(s, task.refund, row), t, task))
  {
    SameSurvives(s.refunds[task.refund], row);
    OthersReady(s, t, task, row);
  }

  lemma NotifyKept(s: State, t: nat)
    requires Invariant(s) && Kept(s)
    ensures Kept(NotifyStatus(s, t))
  {
    if AtNotifying(s, t) {
      RowKept(s, t, NotifyStatus(s, t).tasks[t], NotifyStatus(s, t).refunds[s.tasks[t].refund]);
    }
  }

  lemma CallKept(s: State, t: nat, refunded: bool)
    requires Invariant(s) && Kept(s)
    ensures Kept(Call(s, t, refunded))
  {
    if TaskAt(s, t, Calling) {
      var task := Call(s, t, refunded).tasks[t];
      if refunded {
        RowKept(s, t, task, Call(s, t, refunded).refunds[task.refund]);
      } else {
        TaskAlone(s, t, task);
      }
    }
  }

  lemma DeadLetterKept(s: State, t: nat)
    requires Invariant(s) && Kept(s)
    ensures Kept(WriteDeadLetter(s, t))
  {
    if TaskAt(s, t, Filing) {
      RowKept(s, t, WriteDeadLetter(s, t).tasks[t], WriteDeadLetter(s, t).refunds[s.tasks[t].refund]);
    }
  }

  /** Every step that moves neither a status nor a ledger. */
  lemma QuietKept(s: State, t: nat, a: WorkerAction)
    requires Invariant(s) && Kept(s) && t < |s.tasks|
    requires !Writes(s, Work(t, a)) && !Logs(s, Work(t, a))
    ensures Kept(WorkerStep(s, t, a))
  {
    match a
    case SaveAct =>
    case LogAct =>
    case NotifyAct => NotifyKept(s, t);
    case CallAct(refunded) => CallKept(s, t, refunded);
    case CommitAct => if TaskAt(s, t, Paid) { RollBackKept(s, t); }
    case DeadLetterAct => DeadLetterKept(s, t);
    case RaiseAct => RaiseKept(s, t);
    case StartAct => StartKept(s, t);
    case LockAct => LockKept(s, t);
    case HandleAct => HandleKept(s, t);
    case _ => GoneKept(s, t);
  }

  lemma QuietRow(s: State, t: nat, a: WorkerAction)
    requires t < |s.tasks| && s.tasks[t].refund < |s.refunds|
    requires !Writes(s, Work(t, a)) && !Logs(s, Work(t, a))
    ensures OneRow(s, WorkerStep(s, t, a), t)
    ensures SameLedger(s.refunds[s.tasks[t].refund], WorkerStep(s, t, a).refunds[s.tasks[t].refund])
  {
    WorkerRow(s, t, a);
  }

  lemma RefundAddedKept(s: State, row: R.Refund, more: seq<Task>)
    requires TasksLinked(s.tasks, |s.refunds|) && Kept(s) && Survives(row)
    requires forall k :: 0 <= k < |more| ==> more[k].phase == Queued
    ensures LedgersOk(s.refunds + [row]) && TasksReady(s.tasks + more, s.refunds + [row])
  {
  }

  lemma NewSurvives(payment: nat, merchant: nat, amount: int, written: nat)
    ensures var row := R.NewRefundPart(payment, merchant, amount, written);
      Survives(row) && !FailedTwice(row) && (Lags(row) <==> written == 0) && (Headless(row) <==> written == 0)
  {
  }

  lemma RefundStepKept(s: State, a: RefundAction)
    requires Invariant(s) && Kept(s)
    ensures Kept(RefundStep(s, a))
  {
    match a
    case CreateRefundAct(merchant, payment, amount) =>
      NewSurvives(payment, merchant, amount, 2);
      RefundAddedKept(s, R.NewRefund(payment, merchant, amount), [NewTask(|s.refunds|, 0)]);
    case UnsentRefundAct(merchant, payment, amount, written) =>
      NewSurvives(payment, merchant, amount, written);
      RefundAddedKept(s, R.NewRefundPart(payment, merchant, amount, written), []);
      assert s.tasks + [] == s.tasks;
    case ReconcileAct => StuckTasks(s.refunds);
    case RedeliverAct(_, _) =>
  }

  lemma WorkerStepKept(s: State, t: nat, a: WorkerAction)
    requires Invariant(s) && Kept(s)
    ensures Kept(WorkerStep(s, t, a))
  {
    if t >= |s.tasks| {
      NoTask(s, t, a);
    } else if Saves(s, Work(t, a)) {
      SaveKept(s, t);
    } else if Logs(s, Work(t, a)) {
      LogKept(s, t);
    } else if Commits(s, Work(t, a)) {
      CommitKept(s, t);
    } else {
      QuietKept(s, t, a);
    }
  }

  lemma StepKept(s: State, a: Action)
    requires Invariant(s) && Kept(s)
    ensures Kept(Step(s, a))
  {
    match a
    case OnOrder(act) => OrderStepFrame(s, act);
    case OnPayment(act) => PaymentStepFrame(s, act);
    case OnWallet(act) => WalletStepFrame(s, act);
    case OnRefund(act) => RefundStepKept(s, act);
    case Tick(_) =>
    case Work(t, act) => WorkerStepKept(s, t, act);
  }

  lemma {:induction false} RunKept(actions: seq<Action>)
    requires Disciplined(actions)
    ensures Kept(Run(actions))
  {
    if actions != [] {
      var prefix := actions[..|actions| - 1];
      RunKept(prefix);
      RunKeepsInvariant(prefix);
      StepKept(Run(prefix), actions[|actions| - 1]);
    }
  }

  // ----- the failures a run can show

  /** The refund row is inserted and its CREATED entry is not. */
  predicate InsertsUnlogged(s: State, a: Action, refund: nat) {
    && a.OnRefund? && a.refund.UnsentRefundAct? && a.refund.written == 0
    && CheckNewRefund(s, a.refund.merchant, a.refund.payment, a.refund.amount).None?
    && |s.refunds| == refund
  }

  predicate BornUnlogged(actions: seq<Action>, refund: nat) {
    actions != [] &&
    var prefix := actions[..|actions| - 1];
    BornUnlogged(prefix, refund) || InsertsUnlogged(Run(prefix), actions[|actions| - 1], refund)
  }

  predicate OnRefundOf(s: State, a: Action, refund: nat) {
    a.Work? && a.t < |s.tasks| && s.tasks[a.t].refund == refund
  }

  /** A save moves the status on. */
  predicate Advances(s: State, a: Action, refund: nat) {
    Saves(s, a) && OnRefundOf(s, a, refund) && s.refunds[refund].status != Written(s, a)
  }

  /** The latest save that moved the status is not followed by a ledger entry: the insert raised, the worker died, or it is still to come. */
  predicate Unlogged(actions: seq<Action>, refund: nat) {
    actions != [] &&
    var prefix, a := actions[..|actions| - 1], actions[|actions| - 1];
    var s := Run(prefix);
    if (Logs(s, a) || Commits(s, a)) && OnRefundOf(s, a, refund) then false
    else Unlogged(prefix, refund) || Advances(s, a, refund) || InsertsUnlogged(s, a, refund)
  }

  /** Execution t has written the ledger entry of a decline. */
  predicate LoggedDecline(actions: seq<Action>, t: nat) {
    actions != [] &&
    var prefix, a := actions[..|actions| - 1], actions[|actions| - 1];
    LoggedDecline(prefix, t) || (Logs(Run(prefix), a) && a.t == t && Run(prefix).tasks[t].phase.site.Decline?)
  }

  /** An execution wrote the entry of a decline, raised after it, gave up and wrote the entry of that too. */
  predicate LoggedTwice(actions: seq<Action>, refund: nat) {
    actions != [] &&
    var prefix, a := actions[..|actions| - 1], actions[|actions| - 1];
    || LoggedTwice(prefix, refund)
    || (Logs(Run(prefix), a) && OnRefundOf(Run(prefix), a, refund) && Run(prefix).tasks[a.t].phase.site.GiveUp? && LoggedDecline(prefix, a.t))
  }

  // ----- what the ledgers say about the failures

  /** Before its decline is logged, after it, and in the handler: whether execution t has logged a decline. */
  predicate DeclineKnown(task: Task, r: R.Refund, logged: bool) {
    task.alive ==>
      match task.phase
      case Saving(site) => logged == (site.GiveUp? && EndsFailed(r))
      case Logging(site) => logged == (site.GiveUp? && EndsFailed(r))
      case Notifying(site) => !site.GiveUp? ==> logged == site.Decline?
      case Raised => logged == EndsFailed(r)
      case Leaving => true
      case Filing => true
      case Unfiled => true
      case _ => !logged
  }

  lemma NotYetRun(actions: seq<Action>, t: nat)
    requires t >= |Run(actions).tasks|
    ensures !LoggedDecline(actions, t)
    decreases |actions|
  {
    if actions != [] {
      var prefix := actions[..|actions| - 1];
      RunIsShaped(prefix);
      TasksGrow(Run(prefix), actions[|actions| - 1]);
      NotYetRun(prefix, t);
    }
  }

  /** Another task's step leaves the row of a task inside its critical section alone. */
  lemma OtherTask(s: State, u: nat, a: WorkerAction, t: nat)
    requires Invariant(s) && t < |s.tasks| && u != t
    ensures t < |WorkerStep(s, u, a).tasks| && WorkerStep(s, u, a).tasks[t] == s.tasks[t]
    ensures |WorkerStep(s, u, a).refunds| == |s.refunds|
    ensures InCritical(s.tasks[t]) ==> WorkerStep(s, u, a).refunds[s.tasks[t].refund] == s.refunds[s.tasks[t].refund]
  {
    if u >= |s.tasks| {
      NoTask(s, u, a);
    } else {
      WorkerRow(s, u, a);
      WorkerTask(s, u, a);
      if !InCritical(s.tasks[u]) { OnlyInsideWrites(s, u, a); }
    }
  }

  lemma OnlyInsideWrites(s: State, u: nat, a: WorkerAction)
    requires u < |s.tasks| && s.tasks[u].refund < |s.refunds| && !InCritical(s.tasks[u])
    ensures WorkerStep(s, u, a).refunds == s.refunds
  {
  }

  lemma OwnWrite(s: State, t: nat, a: WorkerAction, logged: bool)
    requires Invariant(s) && Kept(s) && t < |s.tasks| && (Writes(s, Work(t, a)) || Logs(s, Work(t, a)))
    requires DeclineKnown(s.tasks[t], s.refunds[s.tasks[t].refund], logged)
    ensures var s' := WorkerStep(s, t, a);
      && t < |s'.tasks| && s'.tasks[t].refund == s.tasks[t].refund < |s'.refunds|
      && DeclineKnown(s'.tasks[t], s'.refunds[s.tasks[t].refund], logged || (Logs(s, Work(t, a)) && s.tasks[t].phase.site.Decline?))
  {
    var r := s.refunds[s.tasks[t].refund];
    assert TaskAgrees(s.tasks[t], r) && LedgerReady(s.tasks[t], r) && Survives(r);
    hide Invariant, Kept, Survives;
    if Saves(s, Work(t, a)) {
      OwnSave(s, t, logged);
    } else if Commits(s, Work(t, a)) {
      CommitRow(s, t);
    } else {
      LogKept(s, t);
    }
  }

  lemma OwnSave(s: State, t: nat, logged: bool)
    requires Invariant(s) && Kept(s) && AtSaving(s, t)
    requires DeclineKnown(s.tasks[t], s.refunds[s.tasks[t].refund], logged)
    ensures var s' := SaveStatus(s, t);
      && t < |s'.tasks| && s'.tasks[t].refund == s.tasks[t].refund < |s'.refunds|
      && DeclineKnown(s'.tasks[t], s'.refunds[s.tasks[t].refund], logged)
  {
    var r := s.refunds[s.tasks[t].refund];
    assert TaskAgrees(s.tasks[t], r) && LedgerReady(s.tasks[t], r) && Survives(r);
    if !R.Terminal(r.status) { OpenRow(r); }
  }

  lemma OwnQuiet(s: State, t: nat, a: WorkerAction, logged: bool)
    requires Invariant(s) && Kept(s) && t < |s.tasks| && !Writes(s, Work(t, a)) && !Logs(s, Work(t, a))
    requires DeclineKnown(s.tasks[t], s.refunds[s.tasks[t].refund], logged)
    ensures var s' := WorkerStep(s, t, a);
      && t < |s'.tasks| && s'.tasks[t].refund == s.tasks[t].refund < |s'.refunds|
      && DeclineKnown(s'.tasks[t], s'.refunds[s.tasks[t].refund], logged)
  {
    QuietRow(s, t, a);
    WorkerTask(s, t, a);
    match a
    case RaiseAct => RaiseDecline(s, t, logged);
    case CommitAct =>
      if TaskAt(s, t, Paid) { RollBackDecline(s, t, logged); }
    case _ => QuietPhase(s, t, a, logged);
  }

  lemma QuietPhase(s: State, t: nat, a: WorkerAction, logged: bool)
    requires t < |s.tasks| && s.tasks[t].refund < |s.refunds|
    requires a.RaiseAct? || a.CommitAct? || a.SaveAct? || a.LogAct? ==> WorkerStep(s, t, a) == s
    requires OneTask(s.tasks, WorkerStep(s, t, a).tasks, t)
    requires DeclineKnown(s.tasks[t], s.refunds[s.tasks[t].refund], logged)
    ensures DeclineKnown(WorkerStep(s, t, a).tasks[t], s.refunds[s.tasks[t].refund], logged)
  {
  }

  lemma RollBackDecline(s: State, t: nat, logged: bool)
    requires Invariant(s) && Kept(s) && TaskAt(s, t, Paid) && DeclineKnown(s.tasks[t], s.refunds[s.tasks[t].refund], logged)
    ensures DeclineKnown(RollBack(s, t).tasks[t], s.refunds[s.tasks[t].refund], logged)
  {
    var r := s.refunds[s.tasks[t].refund];
    assert TaskAgrees(s.tasks[t], r) && Survives(r);
    OpenRow(r);
  }

  lemma RaiseDecline(s: State, t: nat, logged: bool)
    requires Invariant(s) && Kept(s) && t < |s.tasks|
    requires DeclineKnown(s.tasks[t], s.refunds[s.tasks[t].refund], logged)
    ensures var s' := Raise(s, t);
      && t < |s'.tasks| && s'.tasks[t].refund == s.tasks[t].refund < |s'.refunds|
      && DeclineKnown(s'.tasks[t], s'.refunds[s.tasks[t].refund], logged)
  {
    var r := s.refunds[s.tasks[t].refund];
    assert TaskAgrees(s.tasks[t], r) && LedgerReady(s.tasks[t], r) && Survives(r) && RowOk(r);
    if !R.Terminal(r.status) { OpenRow(r); }
  }

  lemma DeclineStep(s: State, a: Action, t: nat, logged: bool)
    requires Invariant(s) && Kept(s) && t < |s.tasks| && DeclineKnown(s.tasks[t], s.refunds[s.tasks[t].refund], logged)
    ensures var s' := Step(s, a);
      && t < |s'.tasks| && s'.tasks[t].refund < |s'.refunds|
      && DeclineKnown(s'.tasks[t], s'.refunds[s'.tasks[t].refund], logged || (Logs(s, a) && a.t == t && s.tasks[t].phase.site.Decline?))
  {
    hide WorkerStep, OrderStep, PaymentStep, WalletStep;
    match a
    case OnOrder(act) => OrderStepFrame(s, act);
    case OnPayment(act) => PaymentStepFrame(s, act);
    case OnWallet(act) => WalletStepFrame(s, act);
    case OnRefund(_) =>
    case Tick(_) =>
    case Work(u, act) =>
      if u != t {
        OtherTask(s, u, act, t);
      } else if Writes(s, a) || Logs(s, a) {
        OwnWrite(s, t, act, logged);
      } else {
        OwnQuiet(s, t, act, logged);
      }
  }

  lemma {:induction false} DeclineTraced(actions: seq<Action>, t: nat)
    requires Disciplined(actions) && t < |Run(actions).tasks|
    ensures var s := Run(actions);
      s.tasks[t].refund < |s.refunds| && DeclineKnown(s.tasks[t], s.refunds[s.tasks[t].refund], LoggedDecline(actions, t))
  {
    if actions != [] {
      var prefix, a := actions[..|actions| - 1], actions[|actions| - 1];
      RunKeepsInvariant(prefix);
      RunKept(prefix);
      if t < |Run(prefix).tasks| {
        DeclineTraced(prefix, t);
        DeclineStep(Run(prefix), a, t, LoggedDecline(prefix, t));
      } else {
        NotYetRun(prefix, t);
        TasksGrow(Run(prefix), a);
        RunIsShaped(actions);
      }
    }
  }

  // ----- one refund through one step

  predicate Verdicts(r: R.Refund, headless: bool, lags: bool, twice: bool) {
    (Headless(r) <==> headless) && (Lags(r) <==> lags) && (FailedTwice(r) <==> twice)
  }

  /** What one action turns the verdicts on a refund into. */
  predicate NextVerdicts(s: State, a: Action, r: R.Refund, refund: nat, headless: bool, lags: bool, twice: bool, logged: bool)
    requires refund < |s.refunds|
  {
    var own := OnRefundOf(s, a, refund);
    Verdicts(r, headless, !((Logs(s, a) || Commits(s, a)) && own) && (lags || Advances(s, a, refund)),
             twice || (Logs(s, a) && own && s.tasks[a.t].phase.site.GiveUp? && logged))
  }

  lemma VerdictStep(s: State, a: Action, refund: nat, headless: bool, lags: bool, twice: bool, logged: bool)
    requires Invariant(s) && Kept(s) && refund < |s.refunds| && Verdicts(s.refunds[refund], headless, lags, twice)
    requires OnRefundOf(s, a, refund) ==> DeclineKnown(s.tasks[a.t], s.refunds[refund], logged)
    ensures refund < |Step(s, a).refunds| && NextVerdicts(s, a, Step(s, a).refunds[refund], refund, headless, lags, twice, logged)
  {
    if OnRefundOf(s, a, refund) {
      OwnVerdicts(s, a.t, a.worker, headless, lags, twice, logged);
    } else if a.Work? {
      if a.t < |s.tasks| { WorkerRow(s, a.t, a.worker); } else { NoTask(s, a.t, a.worker); }
    } else {
      OtherRefunds(s, a);
    }
  }

  lemma OwnVerdicts(s: State, t: nat, a: WorkerAction, headless: bool, lags: bool, twice: bool, logged: bool)
    requires Invariant(s) && Kept(s) && t < |s.tasks|
    requires Verdicts(s.refunds[s.tasks[t].refund], headless, lags, twice)
    requires DeclineKnown(s.tasks[t], s.refunds[s.tasks[t].refund], logged)
    ensures |WorkerStep(s, t, a).refunds| == |s.refunds|
    ensures NextVerdicts(s, Work(t, a), WorkerStep(s, t, a).refunds[s.tasks[t].refund], s.tasks[t].refund, headless, lags, twice, logged)
  {
    if Commits(s, Work(t, a)) {
      CommitVerdicts(s, t, headless, lags, twice, logged);
    } else if Logs(s, Work(t, a)) {
      LogVerdicts(s, t, headless, lags, twice, logged);
    } else if Saves(s, Work(t, a)) {
      SaveVerdicts(s, t, headless, lags, twice, logged);
    } else {
      QuietRow(s, t, a);
    }
  }

  lemma CommitVerdicts(s: State, t: nat, headless: bool, lags: bool, twice: bool, logged: bool)
    requires Invariant(s) && Kept(s) && Commits(s, Work(t, CommitAct))
    requires Verdicts(s.refunds[s.tasks[t].refund], headless, lags, twice)
    ensures |Commit(s, t).refunds| == |s.refunds|
    ensures NextVerdicts(s, Work(t, CommitAct), Commit(s, t).refunds[s.tasks[t].refund], s.tasks[t].refund, headless, lags, twice, logged)
  {
    CommitKept(s, t);
    CommitRow(s, t);
  }

  lemma LogVerdicts(s: State, t: nat, headless: bool, lags: bool, twice: bool, logged: bool)
    requires Invariant(s) && Kept(s) && AtLogging(s, t)
    requires Verdicts(s.refunds[s.tasks[t].refund], headless, lags, twice)
    requires DeclineKnown(s.tasks[t], s.refunds[s.tasks[t].refund], logged)
    ensures NextVerdicts(s, Work(t, LogAct), LogStatus(s, t).refunds[s.tasks[t].refund], s.tasks[t].refund, headless, lags, twice, logged)
  {
    LogKept(s, t);
  }

  lemma SaveVerdicts(s: State, t: nat, headless: bool, lags: bool, twice: bool, logged: bool)
    requires Invariant(s) && Kept(s) && AtSaving(s, t)
    requires Verdicts(s.refunds[s.tasks[t].refund], headless, lags, twice)
    ensures NextVerdicts(s, Work(t, SaveAct), SaveStatus(s, t).refunds[s.tasks[t].refund], s.tasks[t].refund, headless, lags, twice, logged)
  {
    var r := s.refunds[s.tasks[t].refund];
    assert TaskAgrees(s.tasks[t], r) && Survives(r) && RowOk(r);
  }

  lemma {:induction false} LedgerTraced(actions: seq<Action>, refund: nat)
    requires Disciplined(actions)
    ensures refund < |Run(actions).refunds| ==>
      Verdicts(Run(actions).refunds[refund], BornUnlogged(actions, refund), Unlogged(actions, refund), LoggedTwice(actions, refund))
    ensures refund >= |Run(actions).refunds| ==>
      !BornUnlogged(actions, refund) && !Unlogged(actions, refund) && !LoggedTwice(actions, refund)
  {
    if actions != [] {
      var prefix, a := actions[..|actions| - 1], actions[|actions| - 1];
      var s := Run(prefix);
      LedgerTraced(prefix, refund);
      RunKeepsInvariant(prefix);
      RunKept(prefix);
      if refund < |s.refunds| {
        var logged := a.Work? && LoggedDecline(prefix, a.t);
        if OnRefundOf(s, a, refund) { DeclineTraced(prefix, a.t); }
        VerdictStep(s, a, refund, BornUnlogged(prefix, refund), Unlogged(prefix, refund), LoggedTwice(prefix, refund), logged);
      } else {
        FirstVerdicts(s, a, refund);
      }
    }
  }

  lemma FirstVerdicts(s: State, a: Action, refund: nat)
    requires Invariant(s) && refund >= |s.refunds|
    ensures !Writes(s, a) || !OnRefundOf(s, a, refund)
    ensures !Logs(s, a) || !OnRefundOf(s, a, refund)
    ensures refund < |Step(s, a).refunds| ==>
      Verdicts(Step(s, a).refunds[refund], InsertsUnlogged(s, a, refund), InsertsUnlogged(s, a, refund), false)
    ensures refund >= |Step(s, a).refunds| ==> !InsertsUnlogged(s, a, refund)
  {
    if a.Work? {
      if a.t < |s.tasks| { WorkerRow(s, a.t, a.worker); } else { NoTask(s, a.t, a.worker); }
    } else {
      OtherRefunds(s, a);
      if a.OnRefund? && a.refund.UnsentRefundAct? {
        NewSurvives(a.refund.payment, a.refund.merchant, a.refund.amount, a.refund.written);
      }
      if a.OnRefund? && a.refund.CreateRefundAct? {
        NewSurvives(a.refund.payment, a.refund.merchant, a.refund.amount, 2);
      }
    }
  }

  // ----- theorems

  /** Whatever write fails, a disciplined run leaves each ledger as CREATED? PROCESSING* (SUCCESS | FAILED FAILED?)?, with one amount and never ahead of the row. */
  lemma LedgerSurvives(actions: seq<Action>, refund: nat)
    requires Disciplined(actions) && refund < |Run(actions).refunds|
    ensures Survives(Run(actions).refunds[refund])
  {
    RunKept(actions);
  }

  /**
  The ledger reads CREATED PROCESSING* (SUCCESS | FAILED)? with the current status last, if and only if the CREATED
  entry was inserted, no move of the status is waiting for its entry or lost it, and no execution logged both a
  decline and its giving up.
   */
  lemma LedgerGrammar(actions: seq<Action>, refund: nat)
    requires Disciplined(actions) && refund < |Run(actions).refunds|
    ensures R.LedgerOk(Run(actions).refunds[refund]) <==>
      !BornUnlogged(actions, refund) && !Unlogged(actions, refund) && !LoggedTwice(actions, refund)
  {
    RunKept(actions);
    LedgerTraced(actions, refund);
    GrammarIs(Run(actions).refunds[refund]);
  }
}
