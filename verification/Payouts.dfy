/**
What the gateway paid against what the database recorded. The gateway is called before the atomic block, so a rollback
or a death between the two undoes or loses the record but not the payment.
 */
module Payouts {
  import opened Prelude
  import opened Engine
  import opened Shape
  import opened RefundSafety
  import opened TaskSteps
  import R = Refunds

  /** An execution has been paid by the gateway and its block has not run yet. */
  predicate PaidFor(task: Task, refund: nat) {
    task.alive && task.phase == Paid && task.refund == refund
  }

  function InFlight(tasks: seq<Task>, refund: nat): nat {
    if tasks == [] then 0
    else
      var n := |tasks| - 1;
      InFlight(tasks[..n], refund) + if PaidFor(tasks[n], refund) then 1 else 0
  }

  predicate OnPaid(s: State, a: Action, refund: nat) {
    a.Work? && TaskAt(s, a.t, Paid) && s.tasks[a.t].refund == refund
  }

  /** The atomic block commits. */
  predicate Records(s: State, a: Action, refund: nat) {
    OnPaid(s, a, refund) && a.worker.CommitAct? && CommitSuccess(s, a.t).Some?
  }

  /** The atomic block raises and rolls back. */
  predicate RollsBack(s: State, a: Action, refund: nat) {
    OnPaid(s, a, refund) && (a.worker.RaiseAct? || (a.worker.CommitAct? && CommitSuccess(s, a.t).None?))
  }

  /** The worker dies between the gateway's answer and the commit. */
  predicate DiesPaid(s: State, a: Action, refund: nat) {
    OnPaid(s, a, refund) && a.worker.CrashAct?
  }

  function Recorded(actions: seq<Action>, refund: nat): nat {
    if actions == [] then 0
    else
      var prefix := actions[..|actions| - 1];
      Recorded(prefix, refund) + if Records(Run(prefix), actions[|actions| - 1], refund) then 1 else 0
  }

  /** Gateway payments of the refund whose block rolled back or whose worker died before it. */
  function Lost(actions: seq<Action>, refund: nat): nat {
    if actions == [] then 0
    else
      var prefix, a := actions[..|actions| - 1], actions[|actions| - 1];
      Lost(prefix, refund) + if RollsBack(Run(prefix), a, refund) || DiesPaid(Run(prefix), a, refund) then 1 else 0
  }

  function PayoutsOf(refunds: seq<R.Refund>, refund: nat): nat {
    if refund < |refunds| then refunds[refund].payouts else 0
  }

  // ----- one refund, every run

  lemma {:induction false} InFlightUpdate(tasks: seq<Task>, t: nat, task: Task, refund: nat)
    requires t < |tasks|
    ensures InFlight(tasks[t := task], refund)
         == InFlight(tasks, refund) - (if PaidFor(tasks[t], refund) then 1 else 0) + (if PaidFor(task, refund) then 1 else 0)
  {
    var n := |tasks| - 1;
    if t == n {
      assert tasks[t := task][..n] == tasks[..n];
    } else {
      assert tasks[t := task][..n] == tasks[..n][t := task];
      InFlightUpdate(tasks[..n], t, task, refund);
    }
  }

  lemma {:induction false} InFlightGrown(tasks: seq<Task>, tasks': seq<Task>, refund: nat)
    requires |tasks| <= |tasks'| && tasks'[..|tasks|] == tasks
    requires forall t :: |tasks| <= t < |tasks'| ==> tasks'[t].phase == Queued
    ensures InFlight(tasks', refund) == InFlight(tasks, refund)
    decreases |tasks'|
  {
    if |tasks'| > |tasks| {
      var n := |tasks'| - 1;
      assert tasks'[..n][..|tasks|] == tasks;
      InFlightGrown(tasks, tasks'[..n], refund);
    } else {
      assert tasks' == tasks;
    }
  }

  lemma WorkerInFlight(s: State, t: nat, a: WorkerAction, refund: nat)
    requires t < |s.tasks| && s.tasks[t].refund < |s.refunds|
    ensures var s' := WorkerStep(s, t, a);
      && t < |s'.tasks|
      && InFlight(s'.tasks, refund)
         == InFlight(s.tasks, refund) - (if PaidFor(s.tasks[t], refund) then 1 else 0) + (if PaidFor(s'.tasks[t], refund) then 1 else 0)
  {
    var s' := WorkerStep(s, t, a);
    WorkerTask(s, t, a);
    InFlightUpdate(s.tasks, t, s'.tasks[t], refund);
    assert s'.tasks[..|s.tasks|] == s.tasks[t := s'.tasks[t]];
    InFlightGrown(s.tasks[t := s'.tasks[t]], s'.tasks, refund);
  }

  /** What a step of a task at `Paid` makes of the payment, and that no other step takes a task there or away but the gateway call. */
  lemma PaidStep(s: State, t: nat, a: WorkerAction)
    requires WellShaped(s) && t < |s.tasks|
    ensures
      var refund := s.tasks[t].refund;
      var s' := WorkerStep(s, t, a);
      var called := a.CallAct? && a.refunded && TaskAt(s, t, Calling);
      var left := Records(s, Work(t, a), refund) || RollsBack(s, Work(t, a), refund) || DiesPaid(s, Work(t, a), refund);
      && t < |s'.tasks| && refund < |s'.refunds|
      && s'.refunds[refund].payouts == s.refunds[refund].payouts + (if called then 1 else 0)
      && (PaidFor(s'.tasks[t], refund) <==> called || (PaidFor(s.tasks[t], refund) && !left))
      && (called || left ==> PaidFor(s.tasks[t], refund) == left)
  {
    WorkerTask(s, t, a);
    WorkerRow(s, t, a);
    assert RefundLinked(s.refunds[s.tasks[t].refund], s.payments);
    if Commits(s, Work(t, a)) { CommitRow(s, t); }
  }

  lemma WorkerPayouts(s: State, t: nat, a: WorkerAction, refund: nat)
    requires WellShaped(s) && t < |s.tasks|
    ensures
      var s' := WorkerStep(s, t, a);
      var act := Work(t, a);
      PayoutsOf(s'.refunds, refund) - InFlight(s'.tasks, refund)
      == PayoutsOf(s.refunds, refund) - InFlight(s.tasks, refund)
         + (if Records(s, act, refund) then 1 else 0) + (if RollsBack(s, act, refund) || DiesPaid(s, act, refund) then 1 else 0)
  {
    WorkerInFlight(s, t, a, refund);
    WorkerTask(s, t, a);
    WorkerRow(s, t, a);
    if s.tasks[t].refund == refund {
      PaidStep(s, t, a);
    }
  }

  lemma OtherPayouts(s: State, a: Action, refund: nat)
    requires WellShaped(s) && !a.Work?
    ensures PayoutsOf(Step(s, a).refunds, refund) == PayoutsOf(s.refunds, refund)
    ensures InFlight(Step(s, a).tasks, refund) == InFlight(s.tasks, refund)
  {
    OtherRefunds(s, a);
    TasksGrow(s, a);
    OtherTasks(s, a);
    InFlightGrown(s.tasks, Step(s, a).tasks, refund);
  }

  lemma OtherTasks(s: State, a: Action)
    requires !a.Work?
    ensures |Step(s, a).tasks| >= |s.tasks| && Step(s, a).tasks[..|s.tasks|] == s.tasks
  {
    match a
    case OnOrder(act) => OrderStepFrame(s, act);
    case OnPayment(act) => PaymentStepFrame(s, act);
    case OnWallet(act) => WalletStepFrame(s, act);
    case _ =>
  }

  /** In every run the gateway has paid a refund once per committed block, once per rolled-back block, once per death before the block, and once if it waits for the block now. */
  lemma {:induction false} GatewayPayments(actions: seq<Action>, refund: nat)
    ensures PayoutsOf(Run(actions).refunds, refund)
         == Recorded(actions, refund) + Lost(actions, refund) + InFlight(Run(actions).tasks, refund)
  {
    if actions != [] {
      var prefix, a := actions[..|actions| - 1], actions[|actions| - 1];
      GatewayPayments(prefix, refund);
      RunIsShaped(prefix);
      if !a.Work? {
        OtherPayouts(Run(prefix), a, refund);
      } else if a.t < |Run(prefix).tasks| {
        WorkerPayouts(Run(prefix), a.t, a.worker, refund);
      } else {
        NoTask(Run(prefix), a.t, a.worker);
      }
    }
  }

  // ----- disciplined runs

  function SuccessCount(refunds: seq<R.Refund>, refund: nat): nat {
    if refund < |refunds| && refunds[refund].status == R.Success then 1 else 0
  }

  lemma RecordStep(s: State, a: Action, refund: nat)
    requires Invariant(s)
    ensures SuccessCount(Step(s, a).refunds, refund) == SuccessCount(s.refunds, refund) + if Records(s, a, refund) then 1 else 0
  {
    if !a.Work? {
      OtherRefunds(s, a);
    } else if a.t < |s.tasks| {
      WorkerRow(s, a.t, a.worker);
      assert TaskAgrees(s.tasks[a.t], s.refunds[s.tasks[a.t].refund]);
    } else {
      NoTask(s, a.t, a.worker);
    }
  }

  lemma {:induction false} RecordedIsSuccess(actions: seq<Action>, refund: nat)
    requires Disciplined(actions)
    ensures Recorded(actions, refund) == SuccessCount(Run(actions).refunds, refund)
  {
    if actions != [] {
      var prefix := actions[..|actions| - 1];
      RecordedIsSuccess(prefix, refund);
      RunKeepsInvariant(prefix);
      RecordStep(Run(prefix), actions[|actions| - 1], refund);
    }
  }

  /** In a disciplined run a refund was paid once if it is SUCCESS, and once more for each rolled-back block, each death before the block, and the execution now in between. */
  lemma RefundPaidOnce(actions: seq<Action>, refund: nat)
    requires Disciplined(actions) && refund < |Run(actions).refunds|
    ensures var s := Run(actions);
      s.refunds[refund].payouts
      == (if s.refunds[refund].status == R.Success then 1 else 0) + Lost(actions, refund) + InFlight(s.tasks, refund)
  {
    GatewayPayments(actions, refund);
    RecordedIsSuccess(actions, refund);
  }

  // ----- money, payment by payment

  /** Times each refund of the payment was counted, times its amount. */
  function Money(refunds: seq<R.Refund>, payment: nat, times: nat -> nat): int {
    if refunds == [] then 0
    else
      var n := |refunds| - 1;
      Money(refunds[..n], payment, times) + if refunds[n].payment == payment then times(n) * refunds[n].amount else 0
  }

  /** What the gateway has paid out for a payment. */
  function PaidOut(refunds: seq<R.Refund>, payment: nat): int {
    Money(refunds, payment, r => PayoutsOf(refunds, r))
  }

  function LostMoney(actions: seq<Action>, payment: nat): int {
    Money(Run(actions).refunds, payment, r => Lost(actions, r))
  }

  function MoneyInFlight(s: State, payment: nat): int {
    Money(s.refunds, payment, r => InFlight(s.tasks, r))
  }

  lemma ThreeTimes(a: nat, b: nat, c: nat, amount: int)
    ensures (a + b + c) * amount == a * amount + b * amount + c * amount
  {
  }

  lemma {:induction false} MoneySplits(refunds: seq<R.Refund>, payment: nat, paid: nat -> nat, lost: nat -> nat, flight: nat -> nat)
    requires forall r :: 0 <= r < |refunds| ==>
      paid(r) == (if refunds[r].status == R.Success then 1 else 0) + lost(r) + flight(r)
    ensures Money(refunds, payment, paid) == R.Returned(refunds, payment) + Money(refunds, payment, lost) + Money(refunds, payment, flight)
  {
    if refunds != [] {
      var n := |refunds| - 1;
      MoneySplits(refunds[..n], payment, paid, lost, flight);
      var success := if refunds[n].status == R.Success then 1 else 0;
      ThreeTimes(success, lost(n), flight(n), refunds[n].amount);
    }
  }

  lemma {:induction false} FlightIsPending(refunds: seq<R.Refund>, payment: nat, flight: nat -> nat)
    requires forall r :: 0 <= r < |refunds| ==> refunds[r].amount > 0 && flight(r) <= 1 && (flight(r) == 1 ==> refunds[r].status == R.Processing)
    ensures 0 <= Money(refunds, payment, flight) <= R.Outstanding(refunds, payment)
  {
    if refunds != [] {
      FlightIsPending(refunds[..|refunds| - 1], payment, flight);
    }
  }

  lemma {:induction false} OneInFlight(tasks: seq<Task>, refund: nat)
    requires forall t, u :: 0 <= t < u < |tasks| && PaidFor(tasks[t], refund) ==> !PaidFor(tasks[u], refund)
    ensures InFlight(tasks, refund) <= 1
    ensures InFlight(tasks, refund) > 0 <==> exists t :: 0 <= t < |tasks| && PaidFor(tasks[t], refund)
  {
    if tasks != [] {
      var n := |tasks| - 1;
      OneInFlight(tasks[..n], refund);
      if InFlight(tasks[..n], refund) > 0 {
        var t :| 0 <= t < n && PaidFor(tasks[..n][t], refund);
        assert PaidFor(tasks[t], refund);
      }
      if t :| 0 <= t < n && PaidFor(tasks[t], refund) {
        assert PaidFor(tasks[..n][t], refund);
      }
    }
  }

  lemma FlightOfRefund(s: State, refund: nat)
    requires Invariant(s) && refund < |s.refunds|
    ensures InFlight(s.tasks, refund) <= 1
    ensures InFlight(s.tasks, refund) == 1 ==> s.refunds[refund].status == R.Processing
  {
    OneInFlight(s.tasks, refund);
    if InFlight(s.tasks, refund) > 0 {
      var t :| 0 <= t < |s.tasks| && PaidFor(s.tasks[t], refund);
      assert TaskAgrees(s.tasks[t], s.refunds[refund]);
    }
  }

  /**
  The money the gateway paid for a payment is what SUCCESS refunds returned, plus every lost payment, plus what waits
  for its block. Without a lost payment it never exceeds the amount.
   */
  lemma MoneyPaidExactly(actions: seq<Action>, payment: nat)
    requires Disciplined(actions) && payment < |Run(actions).payments|
    ensures
      var s := Run(actions);
      var returned := R.Returned(s.refunds, payment);
      && PaidOut(s.refunds, payment) == returned + LostMoney(actions, payment) + MoneyInFlight(s, payment)
      && (LostMoney(actions, payment) == 0 ==> PaidOut(s.refunds, payment) <= s.payments[payment].amount)
  {
    var s := Run(actions);
    RunKeepsInvariant(actions);
    forall r | 0 <= r < |s.refunds|
      ensures s.refunds[r].amount > 0 && InFlight(s.tasks, r) <= 1 && (InFlight(s.tasks, r) == 1 ==> s.refunds[r].status == R.Processing)
      ensures PayoutsOf(s.refunds, r) == (if s.refunds[r].status == R.Success then 1 else 0) + Lost(actions, r) + InFlight(s.tasks, r)
    {
      assert RefundLinked(s.refunds[r], s.payments);
      FlightOfRefund(s, r);
      RefundPaidOnce(actions, r);
    }
    MoneySplits(s.refunds, payment, r => PayoutsOf(s.refunds, r), r => Lost(actions, r), r => InFlight(s.tasks, r));
    FlightIsPending(s.refunds, payment, r => InFlight(s.tasks, r));
    R.ReservedSplits(s.refunds, payment);
    assert Balanced(s.payments[payment], R.Reserved(s.refunds, payment), R.Returned(s.refunds, payment));
  }
}
