/** The promises of the refund engine: reservations, statuses, dead letters and the declared transition table. */
module RefundTheorems {
  import opened Prelude
  import opened TtlCache
  import opened Engine
  import opened Shape
  import opened RefundSafety
  import opened TaskSteps
  import P = Payments
  import R = Refunds

  // ----- reservations, in every run

  /** The refund a write of a task goes to. */
  function Target(s: State, a: Action): R.Refund
    requires Writes(s, a)
  {
    s.refunds[s.tasks[a.t].refund]
  }

  /** A save turns an unfinished or successful refund of this payment FAILED. */
  predicate Fails(s: State, a: Action, payment: nat) {
    Saves(s, a) && Written(s, a) == R.Failed && Target(s, a).payment == payment && Target(s, a).status != R.Failed
  }

  /** A write takes a FAILED refund of this payment to PROCESSING or SUCCESS. */
  predicate Revives(s: State, a: Action, payment: nat) {
    Writes(s, a) && Written(s, a) != R.Failed && Target(s, a).payment == payment && Target(s, a).status == R.Failed
  }

  /** A request that passes its guards inserts a refund of this payment. */
  predicate Requests(s: State, a: Action, payment: nat) {
    a.OnRefund? &&
    match a.refund
    case CreateRefundAct(merchant, p, amount) => p == payment && CheckNewRefund(s, merchant, p, amount).None?
    case UnsentRefundAct(merchant, p, amount, _) => p == payment && CheckNewRefund(s, merchant, p, amount).None?
    case _ => false
  }

  /**
  The reserved total of a payment moves only when a refund of it is requested, fails or is revived, and then by
  exactly the amount of that refund.
   */
  lemma ReservationMoves(s: State, a: Action, payment: nat)
    requires WellShaped(s)
    ensures
      R.Reserved(Step(s, a).refunds, payment) ==
        R.Reserved(s.refunds, payment)
        + (if Requests(s, a, payment) then a.refund.amount else 0)
        + (if Revives(s, a, payment) then Target(s, a).amount else 0)
        - (if Fails(s, a, payment) then Target(s, a).amount else 0)
  {
    hide WorkerStep, RefundStep, R.Total;
    if a.Work? {
      if a.t < |s.tasks| {
        WorkerRow(s, a.t, a.worker);
        var refund := s.tasks[a.t].refund;
        R.TotalUpdate(s.refunds, refund, Step(s, a).refunds[refund], payment, R.RESERVING);
      } else {
        NoTask(s, a.t, a.worker);
      }
    } else {
      RequestedTotal(s, a, payment);
    }
  }

  lemma RequestedTotal(s: State, a: Action, payment: nat)
    requires !a.Work?
    ensures R.Reserved(Step(s, a).refunds, payment)
         == R.Reserved(s.refunds, payment) + if Requests(s, a, payment) then a.refund.amount else 0
  {
    OtherRefunds(s, a);
    if a.OnRefund? {
      var s' := Step(s, a);
      if s'.refunds != s.refunds {
        R.TotalAppend(s.refunds, s'.refunds[|s.refunds|], payment, R.RESERVING);
      }
    } else {
      match a
      case OnOrder(act) => OrderStepFrame(s, act);
      case OnPayment(act) => PaymentStepFrame(s, act);
      case OnWallet(act) => WalletStepFrame(s, act);
      case _ =>
    }
  }

  /** A write revives a FAILED refund whose amount is no longer available. */
  predicate RevivesUnfitting(s: State, a: Action, payment: nat) {
    Revives(s, a, payment) && payment < |s.payments|
    && Target(s, a).amount > s.payments[payment].amount - R.Reserved(s.refunds, payment)
  }

  predicate OverReserved(s: State, payment: nat) {
    payment < |s.payments| && R.Reserved(s.refunds, payment) > s.payments[payment].amount
  }

  lemma StepOverReserves(s: State, a: Action, payment: nat)
    requires WellShaped(s) && !OverReserved(s, payment)
    ensures OverReserved(Step(s, a), payment) <==> RevivesUnfitting(s, a, payment)
  {
    AmountsKept(s, a);
    ReservationMoves(s, a, payment);
    StepKeepsShape(s, a);
    if payment >= |s.payments| {
      R.TotalZero(s.refunds, payment, R.RESERVING);
      NewPaymentUnreserved(s, a, payment);
    }
  }

  /** A payment that is only now inserted, or not yet, has no refunds and a positive amount. */
  lemma NewPaymentUnreserved(s: State, a: Action, payment: nat)
    requires WellShaped(s) && payment >= |s.payments|
    ensures !OverReserved(Step(s, a), payment) && !Revives(s, a, payment)
  {
    StepKeepsShape(s, a);
    ReservationMoves(s, a, payment);
    NoRefundsPast(s.refunds, s.payments, payment);
    if Writes(s, a) { assert RefundLinked(Target(s, a), s.payments); }
    if payment < |Step(s, a).payments| {
      assert PaymentLinked(Step(s, a).payments[payment], Step(s, a).orders, |Step(s, a).wallets|);
    }
  }

  lemma NoRefundsPast(refunds: seq<R.Refund>, payments: seq<P.Payment>, payment: nat)
    requires RefundsLinked(refunds, payments) && payment >= |payments|
    ensures R.Reserved(refunds, payment) == 0
  {
    forall i | 0 <= i < |refunds| ensures refunds[i].amount > 0 && refunds[i].payment != payment {
      assert RefundLinked(refunds[i], payments);
    }
    R.TotalZero(refunds, payment, R.RESERVING);
  }

  /** At some moment of the run more was promised than the payment. */
  predicate EverOverReserved(actions: seq<Action>, payment: nat) {
    actions != [] && (EverOverReserved(actions[..|actions| - 1], payment) || OverReserved(Run(actions), payment))
  }

  /** At some moment of the run a task revived a FAILED refund of the payment that no longer fitted. */
  predicate EverRevivedUnfitting(actions: seq<Action>, payment: nat) {
    actions != [] &&
    var prefix := actions[..|actions| - 1];
    EverRevivedUnfitting(prefix, payment) || RevivesUnfitting(Run(prefix), actions[|actions| - 1], payment)
  }

  /**
  In every run whatsoever, with stale reads, overrun locks and failing writes, more is promised or returned than the
  payment if and only if some task writes PROCESSING or SUCCESS over a FAILED refund that no longer fits.
   */
  lemma {:induction false} OverReservedExactly(actions: seq<Action>, payment: nat)
    ensures EverOverReserved(actions, payment) <==> EverRevivedUnfitting(actions, payment)
    ensures !EverOverReserved(actions, payment) ==> !OverReserved(Run(actions), payment)
  {
    if actions != [] {
      var prefix := actions[..|actions| - 1];
      OverReservedExactly(prefix, payment);
      RunIsShaped(prefix);
      if !EverOverReserved(prefix, payment) {
        StepOverReserves(Run(prefix), actions[|actions| - 1], payment);
      }
    }
  }

  // ----- disciplined runs

  /** Money returned, and money promised, never exceeds the payment. */
  lemma NoOverRefund(actions: seq<Action>, payment: nat)
    requires Disciplined(actions) && payment < |Run(actions).payments|
    ensures
      var s := Run(actions);
      0 <= R.Returned(s.refunds, payment) <= R.Reserved(s.refunds, payment) <= s.payments[payment].amount
  {
    RunKeepsInvariant(actions);
    var s := Run(actions);
    assert Balanced(s.payments[payment], R.Reserved(s.refunds, payment), R.Returned(s.refunds, payment));
  }

  /** The payment's refund status tells how much has been returned. */
  lemma StatusTellsReturned(actions: seq<Action>, payment: nat)
    requires Disciplined(actions) && payment < |Run(actions).payments|
    ensures
      var s := Run(actions);
      var p := s.payments[payment];
      var returned := R.Returned(s.refunds, payment);
      && (returned > 0 <==> p.status in {P.PartiallyRefunded, P.FullyRefunded})
      && (p.status == P.PartiallyRefunded ==> 0 < returned < p.amount)
      && (returned == p.amount ==> p.status == P.FullyRefunded)
  {
    RunKeepsInvariant(actions);
    var s := Run(actions);
    assert Balanced(s.payments[payment], R.Reserved(s.refunds, payment), R.Returned(s.refunds, payment));
  }

  /** One dead letter at most, with retry count 3, and it is there exactly when the refund gave up and no worker still owes it. */
  lemma DeadLetters(actions: seq<Action>, refund: nat)
    requires Disciplined(actions) && refund < |Run(actions).refunds|
    ensures
      var s := Run(actions);
      var r := s.refunds[refund];
      && (r.deadLetters == [] || r.deadLetters == [3])
      && (r.deadLetters != [] <==> r.failureCode == R.MaxRetriesExceeded && !DeadLetterOwed(s.tasks, refund))
      && (r.failureCode == R.MaxRetriesExceeded ==> r.status == R.Failed)
  {
    RunKeepsInvariant(actions);
    var s := Run(actions);
    assert RowOk(s.refunds[refund]);
    if DeadLetterOwed(s.tasks, refund) {
      var t :| 0 <= t < |s.tasks| && s.tasks[t].refund == refund && AtDeadLetter(s.tasks[t]);
      assert TaskAgrees(s.tasks[t], s.refunds[refund]);
    }
  }

  // ----- the table the task never calls

  /** A task that has made its PROCESSING save, or a task at any later point of its try. */
  predicate PastProcessing(task: Task) {
    task.alive &&
    match task.phase
    case Saving(site) => site.Decline?
    case Logging(_) => true
    case Notifying(_) => true
    case Calling => true
    case Paid => true
    case _ => false
  }

  /** No such task, however late or stale, has a refund that is still CREATED. */
  predicate StartedRefunds(tasks: seq<Task>, refunds: seq<R.Refund>) {
    forall t :: 0 <= t < |tasks| && PastProcessing(tasks[t]) && tasks[t].refund < |refunds| ==>
      refunds[tasks[t].refund].status != R.Created
  }

  /** A step takes its own task past PROCESSING only by a save, and no step makes a refund CREATED again. */
  lemma OwnTaskStarts(s: State, t: nat, a: WorkerAction)
    requires t < |s.tasks| && s.tasks[t].refund < |s.refunds|
    ensures t < |WorkerStep(s, t, a).tasks|
    ensures PastProcessing(WorkerStep(s, t, a).tasks[t]) ==> PastProcessing(s.tasks[t]) || Saves(s, Work(t, a))
  {
  }

  lemma WorkerKeepsStarted(s: State, t: nat, a: WorkerAction)
    requires WellShaped(s) && t < |s.tasks| && StartedRefunds(s.tasks, s.refunds)
    ensures StartedRefunds(WorkerStep(s, t, a).tasks, WorkerStep(s, t, a).refunds)
  {
    hide WorkerStep;
    WorkerRow(s, t, a);
    WorkerTask(s, t, a);
    OwnTaskStarts(s, t, a);
  }

  lemma StepKeepsStarted(s: State, a: Action)
    requires WellShaped(s) && StartedRefunds(s.tasks, s.refunds)
    ensures StartedRefunds(Step(s, a).tasks, Step(s, a).refunds)
  {
    hide WorkerStep, OrderStep, PaymentStep, WalletStep;
    match a
    case OnOrder(act) => OrderStepFrame(s, act);
    case OnPayment(act) => PaymentStepFrame(s, act);
    case OnWallet(act) => WalletStepFrame(s, act);
    case OnRefund(_) => StuckTasks(s.refunds);
    case Work(t, act) => if t < |s.tasks| { WorkerKeepsStarted(s, t, act); } else { NoTask(s, t, act); }
    case Tick(_) =>
  }

  lemma {:induction false} RunStarted(actions: seq<Action>)
    ensures StartedRefunds(Run(actions).tasks, Run(actions).refunds)
  {
    if actions != [] {
      var prefix := actions[..|actions| - 1];
      RunStarted(prefix);
      RunIsShaped(prefix);
      StepKeepsStarted(Run(prefix), actions[|actions| - 1]);
    }
  }

  /**
  The writes that leave the table: PROCESSING over a refund that finished since it was read, a decline over one that
  another execution made SUCCESS, giving up on one that is still CREATED or already SUCCESS, and a commit over one
  that another execution made FAILED.
   */
  predicate UnlistedWrite(s: State, a: Action, refund: nat) {
    Writes(s, a) && s.tasks[a.t].refund == refund &&
    var status := s.refunds[refund].status;
    if a.worker.CommitAct? then status == R.Failed
    else
      match s.tasks[a.t].phase.site
      case Begin => R.Terminal(status)
      case Decline => status == R.Success
      case GiveUp => status == R.Created || status == R.Success
  }

  lemma StepFollowsTable(s: State, a: Action, refund: nat)
    requires WellShaped(s) && StartedRefunds(s.tasks, s.refunds) && refund < |s.refunds|
    ensures |Step(s, a).refunds| >= |s.refunds|
    ensures R.Validates(s.refunds[refund].status, Step(s, a).refunds[refund].status) <==> !UnlistedWrite(s, a, refund)
  {
    hide WorkerStep;
    AmountsKept(s, a);
    if a.Work? {
      if a.t < |s.tasks| {
        WorkerRow(s, a.t, a.worker);
      } else {
        NoTask(s, a.t, a.worker);
      }
    } else {
      OtherRefunds(s, a);
    }
  }

  /** In every run, an action moves a refund along the declared table exactly when it is not one of the writes named above. */
  lemma TaskRefinesTable(actions: seq<Action>, a: Action, refund: nat)
    requires refund < |Run(actions).refunds|
    ensures
      var s := Run(actions);
      && |Step(s, a).refunds| >= |s.refunds|
      && (R.Validates(s.refunds[refund].status, Step(s, a).refunds[refund].status) <==> !UnlistedWrite(s, a, refund))
  {
    RunIsShaped(actions);
    RunStarted(actions);
    StepFollowsTable(Run(actions), a, refund);
  }

  /** A refund that a task has begun to write about is never CREATED again, in any run. */
  lemma BegunIsNotCreated(actions: seq<Action>, t: nat)
    requires t < |Run(actions).tasks| && PastProcessing(Run(actions).tasks[t])
    ensures
      var s := Run(actions);
      s.tasks[t].refund < |s.refunds| && s.refunds[s.tasks[t].refund].status != R.Created
  {
    RunIsShaped(actions);
    RunStarted(actions);
  }

  /** Giving up on a refund whose PROCESSING write never succeeded. */
  predicate GivesUpUnprocessed(s: State, a: Action, refund: nat) {
    Saves(s, a) && s.tasks[a.t].refund == refund && s.tasks[a.t].phase.site.GiveUp? && s.refunds[refund].status == R.Created
  }

  /** After a disciplined run only one such write is left: giving up on a refund that is still CREATED. */
  lemma DisciplinedRefinesTable(actions: seq<Action>, a: Action, refund: nat)
    requires Disciplined(actions) && refund < |Run(actions).refunds|
    ensures
      var s := Run(actions);
      && |Step(s, a).refunds| >= |s.refunds|
      && (R.Validates(s.refunds[refund].status, Step(s, a).refunds[refund].status) <==> !GivesUpUnprocessed(s, a, refund))
  {
    TaskRefinesTable(actions, a, refund);
    RunKeepsInvariant(actions);
    var s := Run(actions);
    if Writes(s, a) && s.tasks[a.t].refund == refund {
      assert TaskAgrees(s.tasks[a.t], s.refunds[refund]);
    }
  }
}
