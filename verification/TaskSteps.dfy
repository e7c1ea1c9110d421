/** What one action writes: which table rows a step of a refund task, or any other action, can change and how. */
module TaskSteps {
  import opened Prelude
  import opened Engine
  import opened Shape
  import RS = RefundSafety
  import P = Payments
  import R = Refunds

  /** A task saves the status of its refund's row. */
  predicate Saves(s: State, a: Action) {
    a.Work? && a.worker.SaveAct? && AtSaving(s, a.t)
  }

  /** A task appends the ledger entry of the status it saved. */
  predicate Logs(s: State, a: Action) {
    a.Work? && a.worker.LogAct? && AtLogging(s, a.t)
  }

  /** The atomic block after a gateway payment commits. */
  predicate Commits(s: State, a: Action) {
    a.Work? && a.worker.CommitAct? && TaskAt(s, a.t, Paid) && CommitSuccess(s, a.t).Some?
  }

  predicate Writes(s: State, a: Action) {
    Saves(s, a) || Commits(s, a)
  }

  /** The status a write gives its refund. */
  function Written(s: State, a: Action): R.RefundStatus
    requires Writes(s, a)
  {
    if a.worker.CommitAct? then R.Success else SiteStatus(s.tasks[a.t].phase.site)
  }

  /** A worker step touches at most its own refund's row, and payments and wallets only when its block commits. */
  predicate OneRow(s: State, s': State, t: nat) {
    && |s'.refunds| == |s.refunds|
    && t < |s.tasks| && s.tasks[t].refund < |s.refunds|
    && s'.refunds == s.refunds[s.tasks[t].refund := s'.refunds[s.tasks[t].refund]]
    && SameLinks(s.refunds[s.tasks[t].refund], s'.refunds[s.tasks[t].refund])
  }

  lemma CommitRow(s: State, t: nat)
    requires TaskAt(s, t, Paid) && CommitSuccess(s, t).Some?
    ensures
      var s' := Commit(s, t);
      && OneRow(s, s', t) && s'.orders == s.orders && s'.updates == s.updates && s'.now == s.now && s'.locks == s.locks
      && s'.tasks == s.tasks[t := s.tasks[t].(phase := Leaving)]
      && s'.refunds[s.tasks[t].refund] == R.WriteRow(s.refunds[s.tasks[t].refund], R.Success, s.tasks[t].code, true)
  {
    RS.CommitTables(s, t);
  }

  lemma WorkerRow(s: State, t: nat, a: WorkerAction)
    requires t < |s.tasks| && s.tasks[t].refund < |s.refunds|
    ensures
      var s' := WorkerStep(s, t, a);
      && OneRow(s, s', t) && s'.orders == s.orders && s'.updates == s.updates && s'.now == s.now
      && (!Commits(s, Work(t, a)) ==> s'.payments == s.payments && s'.wallets == s.wallets)
      && s'.refunds[s.tasks[t].refund].status
         == if Writes(s, Work(t, a)) then Written(s, Work(t, a)) else s.refunds[s.tasks[t].refund].status
  {
    if Commits(s, Work(t, a)) {
      CommitRow(s, t);
    }
  }

  /** A worker step without a task changes nothing. */
  lemma NoTask(s: State, t: nat, a: WorkerAction)
    requires t >= |s.tasks|
    ensures WorkerStep(s, t, a) == s
  {
  }

  /** One task changed, the rest are as they were, and what is appended is queued. */
  predicate OneTask(tasks: seq<Task>, tasks': seq<Task>, t: nat) {
    && t < |tasks| <= |tasks'|
    && tasks'[t].refund == tasks[t].refund && tasks'[t].retries == tasks[t].retries
    && (forall u :: 0 <= u < |tasks| && u != t ==> tasks'[u] == tasks[u])
    && (forall u :: |tasks| <= u < |tasks'| ==> tasks'[u].phase == Queued)
  }

  lemma WorkerTask(s: State, t: nat, a: WorkerAction)
    requires t < |s.tasks| && s.tasks[t].refund < |s.refunds|
    ensures OneTask(s.tasks, WorkerStep(s, t, a).tasks, t)
  {
    if Commits(s, Work(t, a)) {
      CommitRow(s, t);
    }
  }

  lemma TasksGrow(s: State, a: Action)
    requires WellShaped(s)
    ensures |Step(s, a).tasks| >= |s.tasks|
    ensures forall t :: |s.tasks| <= t < |Step(s, a).tasks| ==> Step(s, a).tasks[t].phase == Queued
  {
    match a
    case OnOrder(act) => OrderStepFrame(s, act);
    case OnPayment(act) => PaymentStepFrame(s, act);
    case OnWallet(act) => WalletStepFrame(s, act);
    case OnRefund(_) => StuckTasks(s.refunds);
    case Work(t, act) => if t < |s.tasks| { WorkerTask(s, t, act); } else { NoTask(s, t, act); }
    case Tick(_) =>
  }

  /** The other actions only append refunds, which start CREATED. */
  lemma OtherRefunds(s: State, a: Action)
    requires !a.Work?
    ensures
      var s' := Step(s, a);
      || s'.refunds == s.refunds
      || (&& |s'.refunds| == |s.refunds| + 1 && s'.refunds == s.refunds + [s'.refunds[|s.refunds|]]
          && s'.payments == s.payments && NewRefundFits(s, s'.refunds[|s.refunds|]))
  {
    match a
    case OnOrder(act) => OrderStepFrame(s, act);
    case OnPayment(act) => PaymentStepFrame(s, act);
    case OnWallet(act) => WalletStepFrame(s, act);
    case OnRefund(_) =>
    case Tick(_) =>
  }

  /** What the guards of create_refund admit. */
  predicate NewRefundFits(s: State, row: R.Refund) {
    && row.payment < |s.payments| && P.Refundable(s.payments[row.payment].status)
    && row.status == R.Created && row.payouts == 0
    && 0 < row.amount <= s.payments[row.payment].amount - R.Reserved(s.refunds, row.payment)
  }

  lemma WorkerAmounts(s: State, t: nat, a: WorkerAction)
    requires WellShaped(s) && t < |s.tasks|
    ensures |WorkerStep(s, t, a).payments| == |s.payments| && |WorkerStep(s, t, a).refunds| == |s.refunds|
    ensures forall p :: 0 <= p < |s.payments| ==> WorkerStep(s, t, a).payments[p].amount == s.payments[p].amount
  {
    WorkerRow(s, t, a);
    if Commits(s, Work(t, a)) { RS.CommitTables(s, t); }
  }

  lemma AmountsKept(s: State, a: Action)
    requires WellShaped(s)
    ensures |Step(s, a).payments| >= |s.payments| && |Step(s, a).refunds| >= |s.refunds|
    ensures forall p :: 0 <= p < |s.payments| ==> Step(s, a).payments[p].amount == s.payments[p].amount
  {
    hide WorkerStep, OrderStep, WalletStep;
    match a
    case OnOrder(act) => OrderStepFrame(s, act);
    case OnPayment(act) =>
    case OnWallet(act) => WalletStepFrame(s, act);
    case OnRefund(_) =>
    case Tick(_) =>
    case Work(t, act) => if t < |s.tasks| { WorkerAmounts(s, t, act); } else { NoTask(s, t, act); }
  }
}
