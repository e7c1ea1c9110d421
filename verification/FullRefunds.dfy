/** When FULLY_REFUNDED says that everything was returned, in every state of a disciplined run. */
module FullRefunds {
  import opened Prelude
  import opened Engine
  import opened Shape
  import opened RefundSafety
  import opened TaskSteps
  import opened RefundTheorems
  import P = Payments
  import R = Refunds

  datatype Outcome = NoneYet | Succeeded | FailedLast

  /** A block commits a refund of the payment. */
  predicate Succeeds(s: State, a: Action, payment: nat) {
    Commits(s, a) && Target(s, a).payment == payment
  }

  function NextFinished(s: State, a: Action, payment: nat, last: Outcome): Outcome {
    if Succeeds(s, a, payment) then Succeeded else if Fails(s, a, payment) then FailedLast else last
  }

  /** How the last refund of the payment to finish has finished. */
  function LastFinished(actions: seq<Action>, payment: nat): Outcome {
    if actions == [] then NoneYet
    else
      var prefix, a := actions[..|actions| - 1], actions[|actions| - 1];
      NextFinished(Run(prefix), a, payment, LastFinished(prefix, payment))
  }

  /** A FULLY_REFUNDED payment is all promised until a refund of it fails, and never after that. */
  predicate FullMeans(p: P.Payment, reserved: int, last: Outcome) {
    p.status == P.FullyRefunded ==>
      match last
      case NoneYet => false
      case Succeeded => reserved == p.amount
      case FailedLast => reserved < p.amount
  }

  predicate PaymentMeans(s: State, payment: nat, last: Outcome) {
    payment < |s.payments| ==> FullMeans(s.payments[payment], R.Reserved(s.refunds, payment), last)
  }

  lemma CommitMeans(s: State, t: nat, payment: nat, last: Outcome)
    requires Invariant(s) && Timely(s) && Commits(s, Work(t, CommitAct)) && PaymentMeans(s, payment, last)
    ensures PaymentMeans(Commit(s, t), payment, NextFinished(s, Work(t, CommitAct), payment, last))
  {
    var s' := Commit(s, t);
    var r := s.refunds[s.tasks[t].refund];
    CommitTables(s, t);
    StepKeepsInvariant(s, Work(t, CommitAct));
    if payment < |s.payments| {
      if r.payment == payment {
        assert Balanced(s'.payments[payment], R.Reserved(s'.refunds, payment), R.Returned(s'.refunds, payment));
      } else {
        R.TotalUpdate(s.refunds, s.tasks[t].refund, s'.refunds[s.tasks[t].refund], payment, R.RESERVING);
      }
    }
  }

  /** A worker step other than a commit. */
  lemma WorkMeans(s: State, t: nat, a: WorkerAction, payment: nat, last: Outcome)
    requires Invariant(s) && t < |s.tasks| && !Commits(s, Work(t, a)) && PaymentMeans(s, payment, last)
    ensures PaymentMeans(WorkerStep(s, t, a), payment, NextFinished(s, Work(t, a), payment, last))
  {
    WorkerRow(s, t, a);
    ReservationMoves(s, Work(t, a), payment);
    assert TaskAgrees(s.tasks[t], s.refunds[s.tasks[t].refund]);
    assert RefundLinked(s.refunds[s.tasks[t].refund], s.payments);
    if payment < |s.payments| {
      assert Balanced(s.payments[payment], R.Reserved(s.refunds, payment), R.Returned(s.refunds, payment));
    }
  }

  /** Payment actions neither make nor touch a FULLY_REFUNDED payment. */
  lemma FullUntouched(s: State, a: PaymentAction, payment: nat)
    requires payment < |PaymentStep(s, a).payments| && PaymentStep(s, a).payments[payment].status == P.FullyRefunded
    ensures payment < |s.payments| && PaymentStep(s, a).payments[payment] == s.payments[payment]
  {
  }

  lemma PaymentMeansKept(s: State, a: PaymentAction, payment: nat, last: Outcome)
    requires PaymentMeans(s, payment, last)
    ensures PaymentMeans(PaymentStep(s, a), payment, last)
  {
    PaymentStepFrame(s, a);
    if payment < |PaymentStep(s, a).payments| && PaymentStep(s, a).payments[payment].status == P.FullyRefunded {
      FullUntouched(s, a, payment);
    }
  }

  /** Requests are refused for a FULLY_REFUNDED payment. */
  lemma RequestMeans(s: State, a: RefundAction, payment: nat, last: Outcome)
    requires WellShaped(s) && PaymentMeans(s, payment, last)
    ensures PaymentMeans(RefundStep(s, a), payment, last)
  {
    ReservationMoves(s, OnRefund(a), payment);
  }

  lemma WorkerMeans(s: State, t: nat, a: WorkerAction, payment: nat, last: Outcome)
    requires Invariant(s) && Timely(s) && PaymentMeans(s, payment, last)
    ensures PaymentMeans(WorkerStep(s, t, a), payment, NextFinished(s, Work(t, a), payment, last))
  {
    if t >= |s.tasks| {
      NoTask(s, t, a);
    } else if Commits(s, Work(t, a)) {
      CommitMeans(s, t, payment, last);
    } else {
      WorkMeans(s, t, a, payment, last);
    }
  }

  lemma StepMeans(s: State, a: Action, payment: nat, last: Outcome)
    requires Invariant(s) && Timely(s) && PaymentMeans(s, payment, last)
    ensures PaymentMeans(Step(s, a), payment, NextFinished(s, a, payment, last))
  {
    match a
    case OnOrder(act) => OrderStepFrame(s, act);
    case OnWallet(act) => WalletStepFrame(s, act);
    case Tick(_) =>
    case OnRefund(act) => RequestMeans(s, act, payment, last);
    case OnPayment(act) => PaymentMeansKept(s, act, payment, last);
    case Work(t, act) => WorkerMeans(s, t, act, payment, last);
  }

  lemma {:induction false} RunMeans(actions: seq<Action>, payment: nat)
    requires Disciplined(actions)
    ensures PaymentMeans(Run(actions), payment, LastFinished(actions, payment))
  {
    if actions != [] {
      var prefix := actions[..|actions| - 1];
      RunMeans(prefix, payment);
      RunKeepsInvariant(prefix);
      StepMeans(Run(prefix), actions[|actions| - 1], payment, LastFinished(prefix, payment));
    }
  }

  // ----- theorems

  /**
  In every state of a disciplined run, a FULLY_REFUNDED payment has been returned in full if and only if no refund of
  it is pending and the last one to finish succeeded.
   */
  lemma FullyRefundedMeansReturned(actions: seq<Action>, payment: nat)
    requires Disciplined(actions) && payment < |Run(actions).payments|
    requires Run(actions).payments[payment].status == P.FullyRefunded
    ensures
      var s := Run(actions);
      R.Returned(s.refunds, payment) == s.payments[payment].amount
      <==> R.Outstanding(s.refunds, payment) == 0 && LastFinished(actions, payment) == Succeeded
  {
    var s := Run(actions);
    RunMeans(actions, payment);
    PendingIsOutstanding(actions, payment);
  }

  lemma PendingIsOutstanding(actions: seq<Action>, payment: nat)
    requires Disciplined(actions) && payment < |Run(actions).payments|
    ensures
      var s := Run(actions);
      && R.Reserved(s.refunds, payment) == R.Returned(s.refunds, payment) + R.Outstanding(s.refunds, payment)
      && R.Outstanding(s.refunds, payment) >= 0
      && R.Reserved(s.refunds, payment) <= s.payments[payment].amount
      && Balanced(s.payments[payment], R.Reserved(s.refunds, payment), R.Returned(s.refunds, payment))
  {
    RunKeepsInvariant(actions);
    var s := Run(actions);
    R.ReservedSplits(s.refunds, payment);
    forall i | 0 <= i < |s.refunds| ensures s.refunds[i].amount > 0 { assert RefundLinked(s.refunds[i], s.payments); }
    R.TotalZero(s.refunds, payment, {R.Created, R.Processing});
    assert Balanced(s.payments[payment], R.Reserved(s.refunds, payment), R.Returned(s.refunds, payment));
  }

  /** Once nothing is pending and the last refund to finish succeeded, FULLY_REFUNDED holds exactly when everything was returned. */
  lemma SettledStatusIsExact(actions: seq<Action>, payment: nat)
    requires Disciplined(actions) && payment < |Run(actions).payments|
    requires R.Outstanding(Run(actions).refunds, payment) == 0 && LastFinished(actions, payment) == Succeeded
    ensures
      var s := Run(actions);
      s.payments[payment].status == P.FullyRefunded <==> R.Returned(s.refunds, payment) == s.payments[payment].amount
  {
    RunMeans(actions, payment);
    PendingIsOutstanding(actions, payment);
  }
}
