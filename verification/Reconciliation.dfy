/**
Runs in which every payment is created through an immediate-capture gateway (DUMMY, COD, WALLET), failed
attempts included: one collected payment per order, the order table, and the reconciliation report.
 */
module Reconciliation {
  import opened Prelude
  import opened Engine
  import opened Shape
  import opened OrderAgreement
  import RS = RefundSafety
  import O = Orders
  import P = Payments
  import R = Refunds

  predicate ImmediateAction(a: Action) {
    a.OnPayment? && a.payment.CreatePaymentAct? ==> a.payment.gateway in {P.Dummy, P.Cod, P.WalletGateway}
  }

  predicate ImmediateRun(actions: seq<Action>) {
    actions == [] || (ImmediateRun(actions[..|actions| - 1]) && ImmediateAction(actions[|actions| - 1]))
  }

  // ----- counts and totals

  /** How many payments an order has collected. */
  function Collections(payments: seq<P.Payment>, order: nat): nat {
    if payments == [] then 0
    else
      var n := |payments| - 1;
      Collections(payments[..n], order) + if CollectedFor(payments[n], order) then 1 else 0
  }

  /** orders_total of the report: the merchant's PAID orders. */
  function PaidTotal(orders: seq<O.Order>, merchant: nat): int {
    if orders == [] then 0
    else
      var n := |orders| - 1;
      PaidTotal(orders[..n], merchant) + if orders[n].merchant == merchant && orders[n].status == O.Paid then orders[n].amount else 0
  }

  /** The total of a merchant's payments whose status is in the given set. */
  function PaymentTotal(payments: seq<P.Payment>, merchant: nat, statuses: set<P.PaymentStatus>): int {
    if payments == [] then 0
    else
      var n := |payments| - 1;
      PaymentTotal(payments[..n], merchant, statuses)
      + if payments[n].merchant == merchant && payments[n].status in statuses then payments[n].amount else 0
  }

  const COLLECTED: set<P.PaymentStatus> := {P.Captured, P.Settled, P.PartiallyRefunded, P.FullyRefunded}

  /** The total amount of a merchant's payments that have at least one successful refund. */
  function RefundedPayments(payments: seq<P.Payment>, refunds: seq<R.Refund>, merchant: nat): int {
    if payments == [] then 0
    else
      var n := |payments| - 1;
      RefundedPayments(payments[..n], refunds, merchant)
      + if payments[n].merchant == merchant && R.Returned(refunds, n) > 0 then payments[n].amount else 0
  }

  /** The report compares PAID orders with payments that are still CAPTURED. */
  function Discrepancy(s: State, merchant: nat): int {
    PaidTotal(s.orders, merchant) - PaymentTotal(s.payments, merchant, {P.Captured})
  }

  lemma {:induction false} CollectionsSame(payments: seq<P.Payment>, payments': seq<P.Payment>, order: nat, merchant: nat)
    requires |payments'| == |payments|
    requires forall p :: 0 <= p < |payments| ==>
      && payments'[p].order == payments[p].order && payments'[p].merchant == payments[p].merchant && payments'[p].amount == payments[p].amount
      && P.Collected(payments'[p].status) == P.Collected(payments[p].status)
    ensures Collections(payments', order) == Collections(payments, order)
    ensures PaymentTotal(payments', merchant, COLLECTED) == PaymentTotal(payments, merchant, COLLECTED)
  {
    if payments != [] {
      CollectionsSame(payments[..|payments| - 1], payments'[..|payments| - 1], order, merchant);
    }
  }

  lemma CollectionsAppend(payments: seq<P.Payment>, row: P.Payment, order: nat, merchant: nat)
    ensures Collections(payments + [row], order) == Collections(payments, order) + if CollectedFor(row, order) then 1 else 0
    ensures PaymentTotal(payments + [row], merchant, COLLECTED)
         == PaymentTotal(payments, merchant, COLLECTED) + if row.merchant == merchant && P.Collected(row.status) then row.amount else 0
  {
    assert (payments + [row])[..|payments|] == payments;
  }

  lemma {:induction false} CollectedOnce(payments: seq<P.Payment>, order: nat, p: nat)
    requires p < |payments| && CollectedFor(payments[p], order)
    ensures Collections(payments, order) >= 1
  {
    if p < |payments| - 1 {
      CollectedOnce(payments[..|payments| - 1], order, p);
    }
  }

  lemma {:induction false} NoCollections(payments: seq<P.Payment>, order: nat)
    requires forall p :: 0 <= p < |payments| ==> payments[p].order < order
    ensures Collections(payments, order) == 0
  {
    if payments != [] {
      NoCollections(payments[..|payments| - 1], order);
    }
  }

  // ----- orders whose payment a late save hid

  /** A save of CANCELLED or EXPIRED over an order that was PAID meanwhile. */
  predicate OverwritesPaid(s: State, a: Action, order: nat) {
    LateSave(s, a, order) && s.orders[order].status == O.Paid
  }

  /** A capture of a payment of the order succeeds, a second capture included. */
  predicate CapturesAgain(s: State, a: Action, order: nat) {
    && a.OnPayment? && a.payment.CaptureAct?
    && CapturePayment(s, a.payment.merchant, a.payment.payment, a.payment.gatewayOk).Ok?
    && s.payments[a.payment.payment].order == order
  }

  predicate NextOverwritten(s: State, a: Action, order: nat, overwritten: bool) {
    OverwritesPaid(s, a, order) || (overwritten && !CapturesAgain(s, a, order))
  }

  /** The order was PAID, a late save overwrote that, and no capture has written PAID again. */
  predicate Overwritten(actions: seq<Action>, order: nat) {
    actions != [] &&
    var prefix := actions[..|actions| - 1];
    NextOverwritten(Run(prefix), actions[|actions| - 1], order, Overwritten(prefix, order))
  }

  predicate EverSavedLate(actions: seq<Action>, order: nat) {
    actions != [] &&
    var prefix := actions[..|actions| - 1];
    EverSavedLate(prefix, order) || LateSave(Run(prefix), actions[|actions| - 1], order)
  }

  // ----- the invariant of immediate runs

  predicate AllImmediate(payments: seq<P.Payment>) {
    forall p :: 0 <= p < |payments| ==> P.Immediate(payments[p].gateway)
  }

  /** At most one collection, and PAID unless a late save hid it. */
  predicate Counted(s: State, order: nat, overwritten: bool)
    requires order < |s.orders|
  {
    var collections, status := Collections(s.payments, order), s.orders[order].status;
    && collections <= 1
    && (status == O.Paid <==> collections == 1 && !overwritten)
    && (overwritten ==> collections == 1 && status in {O.Cancelled, O.Expired})
  }

  lemma PaymentImmediate(s: State, a: PaymentAction)
    requires AllImmediate(s.payments) && ImmediateAction(OnPayment(a))
    ensures AllImmediate(PaymentStep(s, a).payments)
  {
  }

  lemma ImmediateStays(s: State, a: Action)
    requires WellShaped(s) && AllImmediate(s.payments) && ImmediateAction(a)
    ensures AllImmediate(Step(s, a).payments)
  {
    hide WorkerStep, OrderStep, PaymentStep, WalletStep;
    match a
    case OnOrder(act) => OrderStepFrame(s, act);
    case OnPayment(act) => PaymentImmediate(s, act);
    case Work(t, act) => WorkerPayments(s, t, act);
    case OnWallet(act) => WalletStepFrame(s, act);
    case OnRefund(_) =>
    case Tick(_) =>
  }

  /** An immediate payment is captured and its order PAID, or it failed and its order is left alone. */
  lemma CreatedImmediately(s: State, merchant: nat, order: nat, amount: int, gateway: P.Gateway, wallet: Option<nat>)
    requires StatusesReached(s.orders) && P.Immediate(gateway)
    requires CreatePayment(s, merchant, order, amount, gateway, wallet).Ok?
    ensures
      var s' := CreatePayment(s, merchant, order, amount, gateway, wallet).value;
      && |s'.payments| == |s.payments| + 1 && s'.payments == s.payments + [s'.payments[|s.payments|]]
      && order < |s.orders| && s.orders[order].status in {O.Pending, O.Processing}
      && s'.payments[|s.payments|].order == order
      && match s'.payments[|s.payments|].status
         case Captured => s'.orders == s.orders[order := O.WithStatus(s.orders[order], O.Paid)]
         case Failed => s'.orders == s.orders
         case _ => false
  {
  }

  lemma CreateCounted(s: State, a: PaymentAction, order: nat, overwritten: bool)
    requires StatusesReached(s.orders) && order < |s.orders| && Counted(s, order, overwritten)
    requires a.CreatePaymentAct? && P.Immediate(a.gateway)
    ensures order < |PaymentStep(s, a).orders| && Counted(PaymentStep(s, a), order, overwritten)
  {
    hide CreatePayment;
    var s' := PaymentStep(s, a);
    if CreatePayment(s, a.merchant, a.order, a.amount, a.gateway, a.wallet).Ok? {
      CreatedImmediately(s, a.merchant, a.order, a.amount, a.gateway, a.wallet);
      CollectionsAppend(s.payments, s'.payments[|s.payments|], order, 0);
    }
  }

  /** Capturing again a captured payment writes PAID once more. */
  lemma CaptureCounted(s: State, a: PaymentAction, order: nat, overwritten: bool)
    requires WellShaped(s) && AllImmediate(s.payments) && order < |s.orders| && Counted(s, order, overwritten)
    requires a.CaptureAct?
    ensures order < |PaymentStep(s, a).orders|
    ensures Counted(PaymentStep(s, a), order, overwritten && !CapturesAgain(s, OnPayment(a), order))
  {
    if CapturePayment(s, a.merchant, a.payment, a.gatewayOk).Ok? {
      var p := s.payments[a.payment];
      assert PaymentLinked(p, s.orders, |s.wallets|);
      CollectedOnce(s.payments, p.order, a.payment);
      CollectionsSame(s.payments, PaymentStep(s, a).payments, order, 0);
    }
  }

  /** No payment of an immediate run can be voided. */
  lemma VoidIdles(s: State, merchant: nat, payment: nat)
    requires WellShaped(s) && AllImmediate(s.payments)
    ensures PaymentStep(s, VoidAct(merchant, payment)) == s
  {
    if OwnsPayment(s, merchant, payment) {
      assert PaymentLinked(s.payments[payment], s.orders, |s.wallets|);
    }
  }

  lemma SaveCounted(s: State, a: OrderAction, order: nat, overwritten: bool)
    requires StatusesReached(s.orders) && UpdatesReached(s.updates) && order < |s.orders| && Counted(s, order, overwritten)
    ensures order < |OrderStep(s, a).orders|
    ensures Counted(OrderStep(s, a), order, OverwritesPaid(s, OnOrder(a), order) || overwritten)
  {
  }

  lemma WorkCounted(s: State, t: nat, a: WorkerAction, order: nat, overwritten: bool)
    requires WellShaped(s) && order < |s.orders| && Counted(s, order, overwritten)
    ensures order < |WorkerStep(s, t, a).orders| && Counted(WorkerStep(s, t, a), order, overwritten)
  {
    hide WorkerStep;
    WorkerPayments(s, t, a);
    CollectionsSame(s.payments, WorkerStep(s, t, a).payments, order, 0);
  }

  lemma StepCounted(s: State, a: Action, order: nat, overwritten: bool)
    requires WellShaped(s) && Agreement(s) && AllImmediate(s.payments) && ImmediateAction(a)
    requires order < |s.orders| && Counted(s, order, overwritten)
    ensures order < |Step(s, a).orders| && Counted(Step(s, a), order, NextOverwritten(s, a, order, overwritten))
  {
    hide WorkerStep, OrderStep, PaymentStep, WalletStep, Collections;
    match a
    case OnOrder(act) => SaveCounted(s, act, order, overwritten);
    case OnPayment(act) =>
      match act {
        case CreatePaymentAct(_, _, _, _, _) => CreateCounted(s, act, order, overwritten);
        case InterruptedAct(_, _, _, _) => DebitOnly(s, act);
        case CaptureAct(_, _, _) => CaptureCounted(s, act, order, overwritten);
        case VoidAct(merchant, payment) => VoidIdles(s, merchant, payment);
      }
    case OnRefund(_) =>
    case Work(t, act) => WorkCounted(s, t, act, order, overwritten);
    case OnWallet(act) => WalletStepFrame(s, act);
    case Tick(_) =>
  }

  lemma DebitOnly(s: State, a: PaymentAction)
    requires a.InterruptedAct?
    ensures PaymentStep(s, a).(wallets := s.wallets) == s
  {
  }

  /** A new order has no payment. */
  lemma NewOrderCounted(s: State, a: Action, order: nat)
    requires WellShaped(s) && |s.orders| <= order < |Step(s, a).orders|
    ensures Counted(Step(s, a), order, false) && !NextOverwritten(s, a, order, false)
  {
    hide WorkerStep, WalletStep;
    match a
    case OnOrder(act) =>
      OrderStepFrame(s, act);
      forall p | 0 <= p < |s.payments| ensures s.payments[p].order < order {
        assert PaymentLinked(s.payments[p], s.orders, |s.wallets|);
      }
      NoCollections(s.payments, order);
    case OnPayment(act) => PaymentStepSizes(s, act);
    case Work(t, act) => WorkerPayments(s, t, act);
    case OnWallet(act) => WalletStepFrame(s, act);
    case _ =>
  }

  lemma {:induction false} RunCounted(actions: seq<Action>, order: nat)
    requires ImmediateRun(actions)
    ensures AllImmediate(Run(actions).payments)
    ensures order < |Run(actions).orders| ==> Counted(Run(actions), order, Overwritten(actions, order))
    ensures order >= |Run(actions).orders| ==> !Overwritten(actions, order)
  {
    if actions != [] {
      var prefix, a := actions[..|actions| - 1], actions[|actions| - 1];
      var s := Run(prefix);
      RunCounted(prefix, order);
      RunIsShaped(prefix);
      RunAgrees(prefix);
      ImmediateStays(s, a);
      if order < |s.orders| {
        StepCounted(s, a, order, Overwritten(prefix, order));
      } else {
        NoOrderYet(s, a, order);
        if order < |Step(s, a).orders| { NewOrderCounted(s, a, order); }
      }
    }
  }

  /** In an immediate run the only writes that leave the table are late saves, and captures after one. */
  lemma {:induction false} UnlistedIsLate(actions: seq<Action>, order: nat)
    requires ImmediateRun(actions)
    ensures EverUnlisted(actions, order) <==> EverSavedLate(actions, order)
    ensures Overwritten(actions, order) ==> EverSavedLate(actions, order)
  {
    if actions != [] {
      var prefix, a := actions[..|actions| - 1], actions[|actions| - 1];
      UnlistedIsLate(prefix, order);
      RunCounted(prefix, order);
      RunIsShaped(prefix);
      if UncheckedWrite(Run(prefix), a, order) {
        UncheckedIsCapture(Run(prefix), a, order, Overwritten(prefix, order));
      }
    }
  }

  lemma UncheckedIsCapture(s: State, a: Action, order: nat, overwritten: bool)
    requires WellShaped(s) && AllImmediate(s.payments) && UncheckedWrite(s, a, order)
    requires order < |s.orders| ==> Counted(s, order, overwritten)
    ensures overwritten
  {
    assert PaymentLinked(s.payments[a.payment.payment], s.orders, |s.wallets|);
    CollectedOnce(s.payments, order, a.payment.payment);
  }

  // ----- theorems

  /**
  An order collects at most one payment. It is PAID exactly when it has one and no late save hid it, and its whole
  history follows the table exactly when no save of it ever came late.
   */
  lemma OneCollectionPerOrder(actions: seq<Action>, order: nat)
    requires ImmediateRun(actions) && order < |Run(actions).orders|
    ensures
      var s := Run(actions);
      && Collections(s.payments, order) <= 1
      && (s.orders[order].status == O.Paid <==> Collections(s.payments, order) == 1 && !Overwritten(actions, order))
      && (O.FollowsTable(s.orders[order]) <==> !EverSavedLate(actions, order))
  {
    RunCounted(actions, order);
    UnlistedIsLate(actions, order);
    HistoryFollowsTable(actions, order);
  }

  // ----- the report

  /** Each order's amount times its collections. */
  function CollectedTotal(orders: seq<O.Order>, payments: seq<P.Payment>, merchant: nat): int {
    if orders == [] then 0
    else
      var n := |orders| - 1;
      CollectedTotal(orders[..n], payments, merchant)
      + if orders[n].merchant == merchant then Collections(payments, n) * orders[n].amount else 0
  }

  lemma {:induction false} CollectedTotalAppend(orders: seq<O.Order>, payments: seq<P.Payment>, row: P.Payment, merchant: nat)
    requires row.order < |orders| ==> row.merchant == orders[row.order].merchant && row.amount == orders[row.order].amount
    ensures CollectedTotal(orders, payments + [row], merchant)
         == CollectedTotal(orders, payments, merchant)
            + if row.order < |orders| && row.merchant == merchant && P.Collected(row.status) then row.amount else 0
  {
    if orders != [] {
      var n := |orders| - 1;
      CollectedTotalAppend(orders[..n], payments, row, merchant);
      CollectionsAppend(payments, row, n, merchant);
      OneMore(Collections(payments, n), orders[n].amount);
    }
  }

  lemma OneMore(k: nat, amount: int)
    ensures (k + 1) * amount == k * amount + amount
  {
  }

  lemma {:induction false} NothingCollected(orders: seq<O.Order>, merchant: nat)
    ensures CollectedTotal(orders, [], merchant) == 0
  {
    if orders != [] {
      NothingCollected(orders[..|orders| - 1], merchant);
    }
  }

  /** Payments counted by row, or by order, give the same total. */
  lemma {:induction false} CollectedByOrder(orders: seq<O.Order>, payments: seq<P.Payment>, merchant: nat)
    requires forall p :: 0 <= p < |payments| ==>
      && payments[p].order < |orders|
      && payments[p].merchant == orders[payments[p].order].merchant && payments[p].amount == orders[payments[p].order].amount
    ensures PaymentTotal(payments, merchant, COLLECTED) == CollectedTotal(orders, payments, merchant)
  {
    if payments == [] {
      NothingCollected(orders, merchant);
    } else {
      var n := |payments| - 1;
      CollectedByOrder(orders, payments[..n], merchant);
      assert payments == payments[..n] + [payments[n]];
      CollectedTotalAppend(orders, payments[..n], payments[n], merchant);
      CollectionsAppend(payments[..n], payments[n], 0, merchant);
    }
  }

  /** The amounts of the merchant's orders marked so. */
  function MarkedTotal(orders: seq<O.Order>, merchant: nat, marked: nat -> bool): int {
    if orders == [] then 0
    else
      var n := |orders| - 1;
      MarkedTotal(orders[..n], merchant, marked) + if orders[n].merchant == merchant && marked(n) then orders[n].amount else 0
  }

  function Hidden(actions: seq<Action>): nat -> bool {
    (o: nat) => Overwritten(actions, o)
  }

  /** The amounts of the merchant's orders whose payment a late save hid. */
  function OverwrittenTotal(actions: seq<Action>, merchant: nat): int {
    MarkedTotal(Run(actions).orders, merchant, Hidden(actions))
  }

  lemma {:induction false} PaidOrHidden(orders: seq<O.Order>, payments: seq<P.Payment>, merchant: nat, marked: nat -> bool)
    requires forall o :: 0 <= o < |orders| ==>
      && Collections(payments, o) <= 1
      && (orders[o].status == O.Paid <==> Collections(payments, o) == 1 && !marked(o))
      && (marked(o) ==> Collections(payments, o) == 1)
    ensures CollectedTotal(orders, payments, merchant) == PaidTotal(orders, merchant) + MarkedTotal(orders, merchant, marked)
  {
    if orders != [] {
      PaidOrHidden(orders[..|orders| - 1], payments, merchant, marked);
    }
  }

  lemma CollectedIsPaidOrHidden(actions: seq<Action>, merchant: nat)
    requires ImmediateRun(actions)
    ensures
      var s := Run(actions);
      PaymentTotal(s.payments, merchant, COLLECTED) == PaidTotal(s.orders, merchant) + OverwrittenTotal(actions, merchant)
  {
    var s := Run(actions);
    RunIsShaped(actions);
    forall p | 0 <= p < |s.payments|
      ensures s.payments[p].order < |s.orders|
      ensures s.payments[p].merchant == s.orders[s.payments[p].order].merchant && s.payments[p].amount == s.orders[s.payments[p].order].amount
    {
      assert PaymentLinked(s.payments[p], s.orders, |s.wallets|);
    }
    CollectedByOrder(s.orders, s.payments, merchant);
    var hidden := Hidden(actions);
    forall o | 0 <= o < |s.orders|
      ensures Collections(s.payments, o) <= 1
      ensures s.orders[o].status == O.Paid <==> Collections(s.payments, o) == 1 && !hidden(o)
      ensures hidden(o) ==> Collections(s.payments, o) == 1
    {
      RunCounted(actions, o);
    }
    PaidOrHidden(s.orders, s.payments, merchant, hidden);
  }

  lemma {:induction false} CapturedAndRefunded(payments: seq<P.Payment>, refunds: seq<R.Refund>, merchant: nat)
    requires Unsettled(payments)
    requires forall p :: 0 <= p < |payments| ==>
      (R.Returned(refunds, p) > 0 <==> payments[p].status in {P.PartiallyRefunded, P.FullyRefunded})
    ensures PaymentTotal(payments, merchant, COLLECTED)
         == PaymentTotal(payments, merchant, {P.Captured}) + RefundedPayments(payments, refunds, merchant)
  {
    if payments != [] {
      CapturedAndRefunded(payments[..|payments| - 1], refunds, merchant);
    }
  }

  lemma {:induction false} NothingRefunded(payments: seq<P.Payment>, refunds: seq<R.Refund>, merchant: nat)
    requires forall p :: 0 <= p < |payments| ==> payments[p].amount > 0
    ensures RefundedPayments(payments, refunds, merchant) >= 0
    ensures RefundedPayments(payments, refunds, merchant) == 0
       <==> forall p :: 0 <= p < |payments| ==> !(payments[p].merchant == merchant && R.Returned(refunds, p) > 0)
  {
    if payments != [] {
      var n := |payments| - 1;
      NothingRefunded(payments[..n], refunds, merchant);
      assert forall p :: 0 <= p < n ==> payments[..n][p] == payments[p];
    }
  }

  /** The reported discrepancy is the total amount of the payments with any successful refund, less the orders whose payment a late save hid. */
  lemma DiscrepancyIsRefunded(actions: seq<Action>, merchant: nat)
    requires ImmediateRun(actions) && Disciplined(actions)
    ensures
      var s := Run(actions);
      Discrepancy(s, merchant) == RefundedPayments(s.payments, s.refunds, merchant) - OverwrittenTotal(actions, merchant)
  {
    CollectedIsPaidOrHidden(actions, merchant);
    RunAgrees(actions);
    RS.RunKeepsInvariant(actions);
    var s := Run(actions);
    forall p | 0 <= p < |s.payments|
      ensures R.Returned(s.refunds, p) > 0 <==> s.payments[p].status in {P.PartiallyRefunded, P.FullyRefunded}
    {
      assert RS.Balanced(s.payments[p], R.Reserved(s.refunds, p), R.Returned(s.refunds, p));
    }
    CapturedAndRefunded(s.payments, s.refunds, merchant);
  }

  predicate MerchantUnrefunded(s: State, merchant: nat) {
    forall r :: 0 <= r < |s.refunds| ==> !(s.refunds[r].merchant == merchant && s.refunds[r].status == R.Success)
  }

  lemma RefundedIsPositive(actions: seq<Action>, merchant: nat)
    ensures
      var s := Run(actions);
      && RefundedPayments(s.payments, s.refunds, merchant) >= 0
      && (RefundedPayments(s.payments, s.refunds, merchant) == 0 <==> MerchantUnrefunded(s, merchant))
  {
    RunIsShaped(actions);
    var s := Run(actions);
    forall p | 0 <= p < |s.payments| ensures s.payments[p].amount > 0 {
      assert PaymentLinked(s.payments[p], s.orders, |s.wallets|);
    }
    NothingRefunded(s.payments, s.refunds, merchant);
    forall r | 0 <= r < |s.refunds|
      ensures s.refunds[r].amount > 0 && s.refunds[r].payment < |s.payments| && s.refunds[r].merchant == s.payments[s.refunds[r].payment].merchant
    {
      assert RefundLinked(s.refunds[r], s.payments);
    }
    forall p | 0 <= p < |s.payments|
      ensures R.Returned(s.refunds, p) > 0 <==>
        exists r :: 0 <= r < |s.refunds| && s.refunds[r].payment == p && s.refunds[r].status == R.Success
    {
      R.TotalZero(s.refunds, p, {R.Success});
    }
  }

  lemma {:induction false} NoneMarked(orders: seq<O.Order>, merchant: nat, marked: nat -> bool)
    requires forall o :: 0 <= o < |orders| ==> orders[o].amount > 0
    ensures MarkedTotal(orders, merchant, marked) >= 0
    ensures MarkedTotal(orders, merchant, marked) == 0 <==> forall o :: 0 <= o < |orders| && orders[o].merchant == merchant ==> !marked(o)
  {
    if orders != [] {
      var n := |orders| - 1;
      NoneMarked(orders[..n], merchant, marked);
      assert forall o :: 0 <= o < n ==> orders[..n][o] == orders[o];
    }
  }

  /**
  `is_reconciled` holds exactly when refunded payments and hidden orders amount to the same; so it means "no successful
  refund" for a merchant none of whose paid orders a late save hid, and is false of a merchant with hidden orders and no refund.
   */
  lemma ReconciledMeansUnrefunded(actions: seq<Action>, merchant: nat)
    requires ImmediateRun(actions) && Disciplined(actions)
    ensures
      var s := Run(actions);
      var hidden := exists o :: 0 <= o < |s.orders| && s.orders[o].merchant == merchant && Overwritten(actions, o);
      && (Discrepancy(s, merchant) == 0 <==> RefundedPayments(s.payments, s.refunds, merchant) == OverwrittenTotal(actions, merchant))
      && (!hidden ==> (Discrepancy(s, merchant) == 0 <==> MerchantUnrefunded(s, merchant)))
      && (MerchantUnrefunded(s, merchant) ==> (Discrepancy(s, merchant) == 0 <==> !hidden))
  {
    hide Run, Disciplined, ImmediateRun, Overwritten;
    DiscrepancyIsRefunded(actions, merchant);
    RefundedIsPositive(actions, merchant);
    RunIsShaped(actions);
    NoneMarked(Run(actions).orders, merchant, Hidden(actions));
  }
}
