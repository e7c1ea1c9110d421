/** In every run, whatever fails or comes late, each row of the audit tables names the status it was written with. */
module AuditTrail {
  import opened Prelude
  import opened Engine
  import opened Shape
  import opened TaskSteps
  import OA = OrderAgreement
  import O = Orders
  import P = Payments
  import R = Refunds

  // ----- what an entry may say

  predicate RefundEntryNamed(e: R.RefundEntry, amount: int) {
    && e.amount == amount
    && (e.status, e.action) in {
         (R.Created, R.RefundCreated), (R.Processing, R.RefundProcessing), (R.Success, R.RefundSuccess), (R.Failed, R.RefundFailed)}
  }

  predicate PaymentEntryNamed(e: P.PaymentEntry, amount: int) {
    && e.amount == amount
    && (e.status, e.action) in {
         (P.Created, P.PaymentCreated), (P.Authorized, P.PaymentCreated), (P.Captured, P.PaymentCreated), (P.Failed, P.PaymentCreated),
         (P.Captured, P.PaymentCaptured), (P.Voided, P.PaymentVoided)}
  }

  predicate OrderEventNamed(e: O.OrderEvent) {
    (e.status, e.kind) in {
      (O.Pending, O.OrderCreated), (O.Processing, O.OrderUpdated), (O.Paid, O.OrderPaid),
      (O.Cancelled, O.OrderCancelled), (O.Expired, O.OrderExpired)}
  }

  predicate RefundNamed(r: R.Refund) {
    forall i :: 0 <= i < |r.ledger| ==> RefundEntryNamed(r.ledger[i], r.amount)
  }

  /** A payment has one event per ledger entry, of the same type. */
  predicate PaymentNamed(p: P.Payment) {
    && |p.events| == |p.ledger|
    && forall i :: 0 <= i < |p.ledger| ==> PaymentEntryNamed(p.ledger[i], p.amount) && p.events[i] == p.ledger[i].action
  }

  predicate OrderNamed(o: O.Order) {
    forall i :: 0 <= i < |o.events| ==> OrderEventNamed(o.events[i])
  }

  predicate UpdatesNamed(updates: seq<Update>) {
    forall u :: 0 <= u < |updates| ==> updates[u].status == O.Cancelled || updates[u].status == O.Expired
  }

  predicate AllNamed(s: State) {
    && (forall r :: 0 <= r < |s.refunds| ==> RefundNamed(s.refunds[r]))
    && (forall p :: 0 <= p < |s.payments| ==> PaymentNamed(s.payments[p]))
    && (forall o :: 0 <= o < |s.orders| ==> OrderNamed(s.orders[o]))
    && UpdatesNamed(s.updates)
  }

  // ----- steps

  lemma RefundWritten(s: State, t: nat, a: WorkerAction)
    requires t < |s.tasks| && s.tasks[t].refund < |s.refunds| && RefundNamed(s.refunds[s.tasks[t].refund])
    ensures |WorkerStep(s, t, a).refunds| == |s.refunds| && RefundNamed(WorkerStep(s, t, a).refunds[s.tasks[t].refund])
  {
    if Commits(s, Work(t, a)) { CommitRow(s, t); }
  }

  lemma WorkerNamed(s: State, t: nat, a: WorkerAction)
    requires WellShaped(s) && AllNamed(s)
    ensures AllNamed(WorkerStep(s, t, a))
  {
    hide WorkerStep, OrderNamed, PaymentNamed, RefundNamed;
    if t < |s.tasks| {
      WorkerRow(s, t, a);
      RefundWritten(s, t, a);
      OA.WorkerPayments(s, t, a);
      var s' := WorkerStep(s, t, a);
      forall p | 0 <= p < |s'.payments| ensures PaymentNamed(s'.payments[p]) {
        StatusOnly(s.payments[p], s'.payments[p].status);
      }
    } else {
      NoTask(s, t, a);
    }
  }

  lemma StatusOnly(p: P.Payment, status: P.PaymentStatus)
    requires PaymentNamed(p)
    ensures PaymentNamed(p.(status := status))
  {
  }

  lemma PaymentsWritten(s: State, a: PaymentAction)
    requires forall p :: 0 <= p < |s.payments| ==> PaymentNamed(s.payments[p])
    ensures var s' := PaymentStep(s, a); forall p :: 0 <= p < |s'.payments| ==> PaymentNamed(s'.payments[p])
  {
  }

  lemma OrdersWritten(s: State, a: PaymentAction)
    requires forall o :: 0 <= o < |s.orders| ==> OrderNamed(s.orders[o])
    ensures var s' := PaymentStep(s, a); forall o :: 0 <= o < |s'.orders| ==> OrderNamed(s'.orders[o])
  {
  }

  lemma PaymentStepNamed(s: State, a: PaymentAction)
    requires AllNamed(s)
    ensures AllNamed(PaymentStep(s, a))
  {
    hide PaymentStep, PaymentNamed, OrderNamed;
    PaymentStepFrame(s, a);
    PaymentsWritten(s, a);
    OrdersWritten(s, a);
  }

  lemma OrderStepNamed(s: State, a: OrderAction)
    requires AllNamed(s)
    ensures AllNamed(OrderStep(s, a))
  {
    OrderStepFrame(s, a);
  }

  lemma StepNamed(s: State, a: Action)
    requires WellShaped(s) && AllNamed(s)
    ensures AllNamed(Step(s, a))
  {
    hide OrderStep, PaymentStep, WorkerStep, WalletStep;
    match a
    case OnOrder(act) => OrderStepNamed(s, act);
    case OnPayment(act) => PaymentStepNamed(s, act);
    case OnRefund(act) =>
    case Work(t, act) => WorkerNamed(s, t, act);
    case OnWallet(act) => WalletStepFrame(s, act);
    case Tick(_) =>
  }

  lemma {:induction false} RunNamed(actions: seq<Action>)
    ensures AllNamed(Run(actions))
  {
    if actions != [] {
      var prefix := actions[..|actions| - 1];
      RunNamed(prefix);
      RunIsShaped(prefix);
      StepNamed(Run(prefix), actions[|actions| - 1]);
    }
  }

  // ----- theorems

  /** In every run each ledger entry of a refund carries its amount and the action of its status. */
  lemma RefundEntriesNamed(actions: seq<Action>, refund: nat, i: nat)
    requires refund < |Run(actions).refunds| && i < |Run(actions).refunds[refund].ledger|
    ensures
      var r := Run(actions).refunds[refund];
      var e := r.ledger[i];
      && e.amount == r.amount
      && (|| (e.status == R.Created && e.action == R.RefundCreated)
          || (e.status == R.Processing && e.action == R.RefundProcessing)
          || (e.status == R.Success && e.action == R.RefundSuccess)
          || (e.status == R.Failed && e.action == R.RefundFailed))
  {
    RunNamed(actions);
    assert RefundEntryNamed(Run(actions).refunds[refund].ledger[i], Run(actions).refunds[refund].amount);
  }

  /**
  In every run each ledger entry of a payment carries its amount, the first kind of entry the status it was created
  with and the other two theirs, and each has its event.
   */
  lemma PaymentEntriesNamed(actions: seq<Action>, payment: nat, i: nat)
    requires payment < |Run(actions).payments| && i < |Run(actions).payments[payment].ledger|
    ensures
      var p := Run(actions).payments[payment];
      var e := p.ledger[i];
      && e.amount == p.amount && |p.events| == |p.ledger| && p.events[i] == e.action
      && (|| (e.action == P.PaymentCreated && e.status in {P.Created, P.Authorized, P.Captured, P.Failed})
          || (e.action == P.PaymentCaptured && e.status == P.Captured)
          || (e.action == P.PaymentVoided && e.status == P.Voided))
  {
    RunNamed(actions);
    var p := Run(actions).payments[payment];
    assert PaymentEntryNamed(p.ledger[i], p.amount);
  }

  /** In every run each order event is of the kind of its status. */
  lemma OrderEventsNamed(actions: seq<Action>, order: nat, i: nat)
    requires order < |Run(actions).orders| && i < |Run(actions).orders[order].events|
    ensures
      var e := Run(actions).orders[order].events[i];
      || (e.kind == O.OrderCreated && e.status == O.Pending)
      || (e.kind == O.OrderUpdated && e.status == O.Processing)
      || (e.kind == O.OrderPaid && e.status == O.Paid)
      || (e.kind == O.OrderCancelled && e.status == O.Cancelled)
      || (e.kind == O.OrderExpired && e.status == O.Expired)
  {
    RunNamed(actions);
    assert OrderEventNamed(Run(actions).orders[order].events[i]);
  }
}
