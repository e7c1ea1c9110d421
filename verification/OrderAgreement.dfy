/** Orders against payments: which orders are PAID, and which status changes the table allows. */
module OrderAgreement {
  import opened Prelude
  import opened Engine
  import opened Shape
  import opened TaskSteps
  import RS = RefundSafety
  import O = Orders
  import P = Payments

  // ----- every run

  predicate CollectedFor(p: P.Payment, order: nat) {
    p.order == order && P.Collected(p.status)
  }

  ghost predicate IsCollected(payments: seq<P.Payment>, order: nat) {
    exists p :: 0 <= p < |payments| && CollectedFor(payments[p], order)
  }

  ghost predicate PaidAreCollected(orders: seq<O.Order>, payments: seq<P.Payment>) {
    forall o :: 0 <= o < |orders| && orders[o].status == O.Paid ==> IsCollected(payments, o)
  }

  /** No code path writes DRAFT, FAILED or REFUNDED to an order, and none writes SETTLED to a payment. */
  predicate StatusesReached(orders: seq<O.Order>) {
    forall o :: 0 <= o < |orders| ==> orders[o].status in {O.Pending, O.Processing, O.Paid, O.Cancelled, O.Expired}
  }

  predicate UpdatesReached(updates: seq<Update>) {
    forall u :: 0 <= u < |updates| ==> updates[u].status == O.Cancelled || updates[u].status == O.Expired
  }

  predicate Unsettled(payments: seq<P.Payment>) {
    forall p :: 0 <= p < |payments| ==> payments[p].status != P.Settled
  }

  /** Collected payments stay collected, for the same order. */
  predicate CollectedStays(payments: seq<P.Payment>, payments': seq<P.Payment>) {
    && |payments| <= |payments'|
    && forall p :: 0 <= p < |payments| ==>
         && payments'[p].order == payments[p].order
         && payments'[p].amount == payments[p].amount
         && payments'[p].merchant == payments[p].merchant
         && (P.Collected(payments[p].status) ==> P.Collected(payments'[p].status))
  }

  lemma IsCollectedStays(payments: seq<P.Payment>, payments': seq<P.Payment>, order: nat)
    requires CollectedStays(payments, payments') && IsCollected(payments, order)
    ensures IsCollected(payments', order)
  {
    var p :| 0 <= p < |payments| && CollectedFor(payments[p], order);
    assert CollectedFor(payments'[p], order);
  }

  /** What a worker step may do to the payments: set a refund status on one collected payment. */
  lemma WorkerPayments(s: State, t: nat, a: WorkerAction)
    requires WellShaped(s)
    ensures
      var s' := WorkerStep(s, t, a);
      && s'.orders == s.orders && s'.updates == s.updates
      && (s'.payments == s.payments
          || (t < |s.tasks| && TaskAt(s, t, Paid)
              && var p := PaymentOf(s, t);
                 && s'.payments == s.payments[p := s.payments[p].(status := s'.payments[p].status)]
                 && s'.payments[p].status in {P.PartiallyRefunded, P.FullyRefunded}
                 && P.Collected(s.payments[p].status)))
  {
    if t >= |s.tasks| {
      NoTask(s, t, a);
    } else {
      WorkerRow(s, t, a);
      assert RefundLinked(s.refunds[s.tasks[t].refund], s.payments);
      if Commits(s, Work(t, a)) {
        RS.CommitTables(s, t);
      }
    }
  }

  /** A payment action appends one payment, or moves one that a capture or void may move, or does nothing to the payments. */
  lemma PaymentStepTables(s: State, a: PaymentAction)
    ensures
      var s' := PaymentStep(s, a);
      && |s'.orders| == |s.orders|
      && (|| s'.payments == s.payments
          || (|s'.payments| == |s.payments| + 1 && s'.payments == s.payments + [s'.payments[|s.payments|]]
              && s'.payments[|s.payments|].status in {P.Captured, P.Authorized, P.Created, P.Failed})
          || (exists p :: 0 <= p < |s.payments| && MovedPayment(s.payments, s'.payments, p)))
  {
    var s' := PaymentStep(s, a);
    if a.CaptureAct? && s'.payments != s.payments { assert MovedPayment(s.payments, s'.payments, a.payment); }
    if a.VoidAct? && s'.payments != s.payments { assert MovedPayment(s.payments, s'.payments, a.payment); }
  }

  predicate MovedPayment(payments: seq<P.Payment>, payments': seq<P.Payment>, p: nat)
    requires p < |payments|
  {
    && |payments'| == |payments|
    && payments' == payments[p := payments[p].(status := payments'[p].status, ledger := payments'[p].ledger, events := payments'[p].events)]
    && (payments'[p].status == P.Captured || payments'[p].status == P.Voided)
    && P.Validates(payments[p].status, payments'[p].status)
  }

  lemma PaymentsStay(s: State, a: PaymentAction)
    ensures CollectedStays(s.payments, PaymentStep(s, a).payments)
    ensures Unsettled(s.payments) ==> Unsettled(PaymentStep(s, a).payments)
    ensures |PaymentStep(s, a).orders| == |s.orders|
  {
    PaymentStepTables(s, a);
  }

  /** An order turned PAID by a payment action has that payment collected. */
  lemma PaymentStepCollects(s: State, a: PaymentAction, order: nat)
    requires WellShaped(s) && order < |s.orders|
    requires PaymentStep(s, a).orders[order].status == O.Paid
    ensures s.orders[order].status == O.Paid || IsCollected(PaymentStep(s, a).payments, order)
  {
    var s' := PaymentStep(s, a);
    match a
    case CreatePaymentAct(_, _, _, _, _) =>
      if s.orders[order].status != O.Paid { assert CollectedFor(s'.payments[|s.payments|], order); }
    case CaptureAct(_, payment, _) =>
      if s.orders[order].status != O.Paid { assert CollectedFor(s'.payments[payment], order); }
    case _ =>
  }

  lemma OrderStepPaid(s: State, a: OrderAction)
    requires StatusesReached(s.orders) && UpdatesReached(s.updates)
    ensures StatusesReached(OrderStep(s, a).orders) && UpdatesReached(OrderStep(s, a).updates)
    ensures |s.orders| <= |OrderStep(s, a).orders|
    ensures forall o :: 0 <= o < |OrderStep(s, a).orders| && OrderStep(s, a).orders[o].status == O.Paid ==>
      o < |s.orders| && s.orders[o].status == O.Paid
  {
  }

  lemma PaymentStepReached(s: State, a: PaymentAction)
    requires StatusesReached(s.orders)
    ensures StatusesReached(PaymentStep(s, a).orders)
  {
  }

  ghost predicate Agreement(s: State) {
    PaidAreCollected(s.orders, s.payments) && StatusesReached(s.orders) && UpdatesReached(s.updates) && Unsettled(s.payments)
  }

  lemma StepKeepsAgreement(s: State, a: Action)
    requires WellShaped(s) && Agreement(s)
    ensures Agreement(Step(s, a))
  {
    hide WorkerStep, OrderStep, PaymentStep, WalletStep;
    var s' := Step(s, a);
    match a
    case OnOrder(act) => OrderStepFrame(s, act); OrderStepPaid(s, act);
    case OnPayment(act) =>
      PaymentsStay(s, act);
      PaymentStepFrame(s, act);
      PaymentStepReached(s, act);
      forall o | 0 <= o < |s'.orders| && s'.orders[o].status == O.Paid ensures IsCollected(s'.payments, o) {
        PaymentStepCollects(s, act, o);
        if s.orders[o].status == O.Paid { IsCollectedStays(s.payments, s'.payments, o); }
      }
    case Work(t, act) =>
      WorkerPayments(s, t, act);
      forall o | 0 <= o < |s'.orders| && s'.orders[o].status == O.Paid ensures IsCollected(s'.payments, o) {
        IsCollectedStays(s.payments, s'.payments, o);
      }
    case OnWallet(act) => WalletStepFrame(s, act);
    case OnRefund(_) =>
    case Tick(_) =>
  }

  lemma {:induction false} RunAgrees(actions: seq<Action>)
    ensures Agreement(Run(actions))
  {
    if actions != [] {
      var prefix := actions[..|actions| - 1];
      RunAgrees(prefix);
      RunIsShaped(prefix);
      StepKeepsAgreement(Run(prefix), actions[|actions| - 1]);
    }
  }

  /** In every run a PAID order has a collected payment of exactly its amount, possibly refunded since. */
  lemma PaidOrderIsCollected(actions: seq<Action>, order: nat)
    requires order < |Run(actions).orders| && Run(actions).orders[order].status == O.Paid
    ensures
      var s := Run(actions);
      exists p :: 0 <= p < |s.payments| && CollectedFor(s.payments[p], order) && s.payments[p].amount == s.orders[order].amount
  {
    RunAgrees(actions);
    RunIsShaped(actions);
    var s := Run(actions);
    assert IsCollected(s.payments, order);
    var p :| 0 <= p < |s.payments| && CollectedFor(s.payments[p], order);
    assert PaymentLinked(s.payments[p], s.orders, |s.wallets|);
  }

  // ----- which order steps the table allows

  /** A save of CANCELLED over an order that was PAID or EXPIRED since the check, or of EXPIRED over one that left PENDING since the scan. */
  predicate LateSave(s: State, a: Action, order: nat) {
    && a.OnOrder? && a.order.SaveOrderAct? && ReadyToSave(s, a.order.u) && s.updates[a.order.u].orders[0] == order
    && if s.updates[a.order.u].status == O.Cancelled then s.orders[order].status in {O.Paid, O.Expired}
       else s.orders[order].status in {O.Processing, O.Paid, O.Cancelled}
  }

  /** A capture of a payment of a CANCELLED or EXPIRED order, or a void of a payment of a PAID or EXPIRED one. */
  predicate UncheckedWrite(s: State, a: Action, order: nat) {
    && a.OnPayment?
    && order < |s.orders|
    && match a.payment
       case CaptureAct(merchant, payment, gatewayOk) =>
         && CapturePayment(s, merchant, payment, gatewayOk).Ok?
         && s.payments[payment].order == order
         && s.orders[order].status in {O.Cancelled, O.Expired}
       case VoidAct(merchant, payment) =>
         && VoidPayment(s, merchant, payment).Ok?
         && s.payments[payment].order == order
         && s.orders[order].status in {O.Paid, O.Expired}
       case _ => false
  }

  predicate UnlistedOrderWrite(s: State, a: Action, order: nat) {
    LateSave(s, a, order) || UncheckedWrite(s, a, order)
  }

  /** An order row stays as it is or gets one status with its event. */
  predicate OneStatus(o: O.Order, o': O.Order) {
    o' == o || o' == O.WithStatus(o, o'.status)
  }

  lemma CreatedOrInterrupted(s: State, a: PaymentAction, order: nat)
    requires StatusesReached(s.orders) && order < |s.orders| && !a.CaptureAct? && !a.VoidAct?
    ensures |PaymentStep(s, a).orders| == |s.orders| && OneStatus(s.orders[order], PaymentStep(s, a).orders[order])
    ensures O.Validates(s.orders[order].status, PaymentStep(s, a).orders[order].status)
  {
  }

  lemma PaymentStepOrders(s: State, a: PaymentAction, order: nat)
    requires StatusesReached(s.orders) && order < |s.orders|
    ensures |PaymentStep(s, a).orders| == |s.orders| && OneStatus(s.orders[order], PaymentStep(s, a).orders[order])
    ensures O.Validates(s.orders[order].status, PaymentStep(s, a).orders[order].status) <==> !UncheckedWrite(s, OnPayment(a), order)
  {
    if !a.CaptureAct? && !a.VoidAct? { CreatedOrInterrupted(s, a, order); }
  }

  lemma OrderStepOrders(s: State, a: OrderAction, order: nat)
    requires StatusesReached(s.orders) && UpdatesReached(s.updates) && order < |s.orders|
    ensures |OrderStep(s, a).orders| >= |s.orders| && OneStatus(s.orders[order], OrderStep(s, a).orders[order])
    ensures O.Validates(s.orders[order].status, OrderStep(s, a).orders[order].status) <==> !LateSave(s, OnOrder(a), order)
  {
  }

  lemma StepOrders(s: State, a: Action, order: nat)
    requires WellShaped(s) && Agreement(s) && order < |s.orders|
    ensures |Step(s, a).orders| >= |s.orders| && OneStatus(s.orders[order], Step(s, a).orders[order])
    ensures O.Validates(s.orders[order].status, Step(s, a).orders[order].status) <==> !UnlistedOrderWrite(s, a, order)
  {
    match a
    case OnOrder(act) => OrderStepOrders(s, act, order);
    case OnPayment(act) => PaymentStepOrders(s, act, order);
    case Work(t, act) => WorkerPayments(s, t, act);
    case OnWallet(act) => WalletStepFrame(s, act);
    case OnRefund(_) =>
    case Tick(_) =>
  }

  /** In every run, an action moves an order along the declared table exactly when it is not one of the writes named above. */
  lemma OrderStepsFollowTable(actions: seq<Action>, a: Action, order: nat)
    requires order < |Run(actions).orders|
    ensures
      var s := Run(actions);
      && |Step(s, a).orders| >= |s.orders|
      && (O.Validates(s.orders[order].status, Step(s, a).orders[order].status) <==> !UnlistedOrderWrite(s, a, order))
  {
    RunAgrees(actions);
    RunIsShaped(actions);
    StepOrders(Run(actions), a, order);
  }

  // ----- whole histories

  predicate EverUnlisted(actions: seq<Action>, order: nat) {
    actions != [] &&
    var prefix := actions[..|actions| - 1];
    EverUnlisted(prefix, order) || UnlistedOrderWrite(Run(prefix), actions[|actions| - 1], order)
  }

  /** The last recorded status is the current one, whatever the table says. */
  predicate Recorded(o: O.Order) {
    o.events != [] && o.events[|o.events| - 1].status == o.status
  }

  /** A row that is only now inserted starts PENDING with that event. */
  lemma NewOrderFollows(s: State, a: Action, order: nat)
    requires WellShaped(s) && |s.orders| <= order < |Step(s, a).orders|
    ensures Recorded(Step(s, a).orders[order]) && O.FollowsTable(Step(s, a).orders[order])
    ensures !UnlistedOrderWrite(s, a, order)
  {
    match a
    case OnPayment(act) => PaymentStepSizes(s, act);
    case Work(t, act) => WorkerPayments(s, t, act);
    case OnWallet(act) => WalletStepFrame(s, act);
    case _ =>
  }

  lemma PaymentStepSizes(s: State, a: PaymentAction)
    ensures |PaymentStep(s, a).orders| == |s.orders|
  {
  }

  lemma NoOrderYet(s: State, a: Action, order: nat)
    requires order >= |s.orders|
    ensures !UnlistedOrderWrite(s, a, order)
  {
  }

  lemma {:induction false} HistoryTraced(actions: seq<Action>, order: nat)
    ensures order >= |Run(actions).orders| ==> !EverUnlisted(actions, order)
    ensures order < |Run(actions).orders| ==>
      && Recorded(Run(actions).orders[order])
      && (O.FollowsTable(Run(actions).orders[order]) <==> !EverUnlisted(actions, order))
  {
    if actions != [] {
      var prefix, a := actions[..|actions| - 1], actions[|actions| - 1];
      var s := Run(prefix);
      HistoryTraced(prefix, order);
      RunAgrees(prefix);
      RunIsShaped(prefix);
      if order < |s.orders| {
        StepOrders(s, a, order);
        O.StatusFollowsTable(s.orders[order], Step(s, a).orders[order].status);
      } else {
        NoOrderYet(s, a, order);
        if order < |Step(s, a).orders| { NewOrderFollows(s, a, order); }
      }
    }
  }

  /** In every run an order's recorded history follows the table if and only if none of the writes named above ever hit it. */
  lemma HistoryFollowsTable(actions: seq<Action>, order: nat)
    requires order < |Run(actions).orders|
    ensures O.FollowsTable(Run(actions).orders[order]) <==> !EverUnlisted(actions, order)
  {
    HistoryTraced(actions, order);
  }
}
