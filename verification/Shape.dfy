/** References between tables stay valid and copied columns agree, in every run. */
module Shape {
  import opened Prelude
  import opened Engine
  import opened Wallets
  import O = Orders
  import P = Payments
  import R = Refunds

  // Every predicate takes only the tables it speaks of, so a step that leaves them alone keeps it at once.

  predicate OrdersPositive(orders: seq<O.Order>) {
    forall o :: 0 <= o < |orders| ==> orders[o].amount > 0
  }

  predicate PaymentLinked(p: P.Payment, orders: seq<O.Order>, walletCount: nat) {
    && p.order < |orders|
    && p.amount == orders[p.order].amount
    && p.merchant == orders[p.order].merchant
    && (p.wallet.Some? ==> p.wallet.value < walletCount)
    && (P.Immediate(p.gateway) ==> p.status == P.Failed || P.Collected(p.status))
    && (p.gateway == P.WalletGateway && P.Collected(p.status) ==> p.wallet.Some?)
  }

  predicate PaymentsLinked(payments: seq<P.Payment>, orders: seq<O.Order>, walletCount: nat) {
    forall p :: 0 <= p < |payments| ==> PaymentLinked(payments[p], orders, walletCount)
  }

  predicate RefundLinked(r: R.Refund, payments: seq<P.Payment>) {
    && r.payment < |payments|
    && r.amount > 0
    && r.merchant == payments[r.payment].merchant
    && P.Collected(payments[r.payment].status)
  }

  predicate RefundsLinked(refunds: seq<R.Refund>, payments: seq<P.Payment>) {
    forall r :: 0 <= r < |refunds| ==> RefundLinked(refunds[r], payments)
  }

  predicate TasksLinked(tasks: seq<Task>, refundCount: nat) {
    forall t :: 0 <= t < |tasks| ==> tasks[t].refund < refundCount && tasks[t].retries <= MAX_RETRIES
  }

  predicate WellShaped(s: State) {
    && OrdersPositive(s.orders)
    && PaymentsLinked(s.payments, s.orders, |s.wallets|)
    && RefundsLinked(s.refunds, s.payments)
    && TasksLinked(s.tasks, |s.refunds|)
  }

  lemma {:induction false} StuckTasks(refunds: seq<R.Refund>)
    ensures forall k :: 0 <= k < |Stuck(refunds)| ==>
      var t := Stuck(refunds)[k];
      t == NewTask(t.refund, 0) && t.refund < |refunds| && refunds[t.refund].status == R.Processing
  {
    if refunds != [] {
      StuckTasks(refunds[..|refunds| - 1]);
    }
  }

  // ----- which tables an action leaves alone

  lemma OrderStepFrame(s: State, a: OrderAction)
    ensures OrderStep(s, a).(orders := s.orders, updates := s.updates) == s
  {
  }

  lemma PaymentStepFrame(s: State, a: PaymentAction)
    ensures PaymentStep(s, a).(orders := s.orders, payments := s.payments, wallets := s.wallets) == s
  {
  }

  lemma WalletStepFrame(s: State, a: WalletAction)
    ensures WalletStep(s, a).(wallets := s.wallets) == s
  {
  }

  // ----- one-row updates

  lemma OrderRow(s: State, order: nat, status: O.OrderStatus)
    requires WellShaped(s) && order < |s.orders|
    ensures WellShaped(SetOrder(s, order, status))
  {
    var orders := SetOrder(s, order, status).orders;
    forall p | 0 <= p < |s.payments| ensures PaymentLinked(s.payments[p], orders, |s.wallets|) {
      assert PaymentLinked(s.payments[p], s.orders, |s.wallets|);
    }
  }

  lemma PaymentRow(s: State, payment: nat, row: P.Payment)
    requires WellShaped(s) && payment < |s.payments|
    requires row == s.payments[payment].(status := row.status, ledger := row.ledger, events := row.events)
    requires PaymentLinked(row, s.orders, |s.wallets|)
    requires P.Collected(s.payments[payment].status) ==> P.Collected(row.status)
    ensures WellShaped(WithPayment(s, payment, row))
  {
    var payments := WithPayment(s, payment, row).payments;
    forall r | 0 <= r < |s.refunds| ensures RefundLinked(s.refunds[r], payments) {
      assert RefundLinked(s.refunds[r], s.payments);
    }
  }

  lemma PaymentAdded(s: State, row: P.Payment)
    requires WellShaped(s) && PaymentLinked(row, s.orders, |s.wallets|)
    ensures WellShaped(s.(payments := s.payments + [row]))
  {
    forall r | 0 <= r < |s.refunds| ensures RefundLinked(s.refunds[r], s.payments + [row]) {
      assert RefundLinked(s.refunds[r], s.payments);
    }
  }

  lemma RefundRow(s: State, refund: nat, row: R.Refund)
    requires WellShaped(s) && refund < |s.refunds| && RefundLinked(row, s.payments)
    ensures WellShaped(WithRefund(s, refund, row))
  {
  }

  // ----- actions

  lemma OrderSaved(s: State, u: nat)
    requires WellShaped(s)
    ensures WellShaped(SaveOrder(s, u))
  {
    if ReadyToSave(s, u) { OrderRow(s, s.updates[u].orders[0], s.updates[u].status); }
  }

  lemma OrderCreated(s: State, merchant: nat, amount: int, expiresAt: Option<int>)
    requires WellShaped(s)
    ensures WellShaped(OrSame(s, CreateOrder(s, merchant, amount, expiresAt)))
  {
    if amount > 0 {
      var orders := OrSame(s, CreateOrder(s, merchant, amount, expiresAt)).orders;
      forall p | 0 <= p < |s.payments| ensures PaymentLinked(s.payments[p], orders, |s.wallets|) {
        assert PaymentLinked(s.payments[p], s.orders, |s.wallets|);
      }
    }
  }

  lemma WalletAdded(s: State)
    requires WellShaped(s)
    ensures WellShaped(s.(wallets := s.wallets + [NEW_WALLET]))
  {
    forall p | 0 <= p < |s.payments| ensures PaymentLinked(s.payments[p], s.orders, |s.wallets| + 1) {
      assert PaymentLinked(s.payments[p], s.orders, |s.wallets|);
    }
  }

  lemma PaymentCreated(s: State, merchant: nat, order: nat, amount: int, gateway: P.Gateway, wallet: Option<nat>)
    requires WellShaped(s)
    ensures WellShaped(OrSame(s, CreatePayment(s, merchant, order, amount, gateway, wallet)))
  {
    if CheckNewPayment(s, merchant, order, amount).None? {
      var (s1, status) := GatewayCreate(s, gateway, wallet, amount, ForPayment(|s.payments|));
      assert WellShaped(s1);
      var linked := if wallet.Some? && wallet.value < |s.wallets| then wallet else None;
      var row := P.WithFailure(P.NewPayment(order, merchant, amount, gateway, linked, status), wallet);
      PaymentAdded(s1, row);
      var s2 := s1.(payments := s1.payments + [row]);
      OrderRow(s2, order, O.Paid);
      OrderRow(s2, order, O.Processing);
    }
  }

  lemma PaymentMoved(s: State, merchant: nat, payment: nat, gatewayOk: bool)
    requires WellShaped(s)
    ensures WellShaped(OrSame(s, CapturePayment(s, merchant, payment, gatewayOk)))
    ensures WellShaped(OrSame(s, VoidPayment(s, merchant, payment)))
  {
    if OwnsPayment(s, merchant, payment) {
      var p := s.payments[payment];
      assert PaymentLinked(p, s.orders, |s.wallets|);
      if P.Validates(p.status, P.Captured) {
        PaymentRow(s, payment, P.WithStatus(p, P.Captured, P.PaymentCaptured));
        OrderRow(SetPayment(s, payment, P.Captured, P.PaymentCaptured), p.order, O.Paid);
      }
      if P.Validates(p.status, P.Voided) {
        PaymentRow(s, payment, P.WithStatus(p, P.Voided, P.PaymentVoided));
        OrderRow(SetPayment(s, payment, P.Voided, P.PaymentVoided), p.order, O.Cancelled);
      }
    }
  }

  lemma RefundCreated(s: State, merchant: nat, payment: nat, amount: int, written: nat)
    requires WellShaped(s)
    ensures WellShaped(OrSame(s, CreateRefund(s, merchant, payment, amount)))
    ensures WellShaped(OrSame(s, UnsentRefund(s, merchant, payment, amount, written)))
  {
  }

  /** A write of the refund task keeps the columns that link a refund. */
  predicate SameLinks(r: R.Refund, row: R.Refund) {
    row.payment == r.payment && row.amount == r.amount && row.merchant == r.merchant
  }

  lemma TaskWrites(s: State, t: nat, task: Task, row: R.Refund)
    requires WellShaped(s) && t < |s.tasks| && SameLinks(s.refunds[s.tasks[t].refund], row)
    requires task.refund == s.tasks[t].refund && task.retries == s.tasks[t].retries
    ensures WellShaped(WithTask(WithRefund(s, task.refund, row), t, task))
  {
    assert RefundLinked(s.refunds[task.refund], s.payments);
    RefundRow(s, task.refund, row);
  }

  lemma Committed(s: State, t: nat)
    requires WellShaped(s)
    ensures WellShaped(Commit(s, t))
  {
    if TaskAt(s, t, Paid) && CommitSuccess(s, t).Some? {
      var c := CommitSuccess(s, t).value;
      var r := s.refunds[s.tasks[t].refund];
      assert RefundLinked(r, s.payments);
      assert PaymentLinked(s.payments[r.payment], s.orders, |s.wallets|);
      RefundRow(s, s.tasks[t].refund, c.refunds[s.tasks[t].refund]);
      var s2 := c.(payments := s.payments);
      PaymentRow(s2, r.payment, c.payments[r.payment]);
    }
  }

  lemma StatusWritten(s: State, t: nat)
    requires WellShaped(s)
    ensures WellShaped(SaveStatus(s, t)) && WellShaped(LogStatus(s, t)) && WellShaped(NotifyStatus(s, t))
  {
    if TaskIn(s, t) {
      var task := s.tasks[t];
      if task.phase.Saving? {
        TaskWrites(s, t, SaveStatus(s, t).tasks[t], SaveStatus(s, t).refunds[task.refund]);
      } else if task.phase.Logging? {
        TaskWrites(s, t, LogStatus(s, t).tasks[t], LogStatus(s, t).refunds[task.refund]);
      } else if task.phase.Notifying? {
        TaskWrites(s, t, NotifyStatus(s, t).tasks[t], NotifyStatus(s, t).refunds[task.refund]);
      }
    }
  }

  lemma CalledOrFiled(s: State, t: nat, refunded: bool)
    requires WellShaped(s)
    ensures WellShaped(Call(s, t, refunded)) && WellShaped(WriteDeadLetter(s, t))
  {
    if TaskIn(s, t) {
      var task := s.tasks[t];
      if task.phase == Calling && refunded {
        TaskWrites(s, t, Call(s, t, refunded).tasks[t], Call(s, t, refunded).refunds[task.refund]);
      } else if task.phase == Filing {
        TaskWrites(s, t, WriteDeadLetter(s, t).tasks[t], WriteDeadLetter(s, t).refunds[task.refund]);
      }
    }
  }

  lemma TaskMoved(s: State, t: nat)
    requires WellShaped(s)
    ensures WellShaped(Start(s, t)) && WellShaped(Lock(s, t)) && WellShaped(Crash(s, t))
  {
  }

  lemma TaskLeft(s: State, t: nat)
    requires WellShaped(s)
    ensures WellShaped(Handle(s, t)) && WellShaped(Raise(s, t)) && WellShaped(Release(s, t))
  {
  }

  lemma MessagesAdded(s: State, refund: nat, retries: nat)
    requires WellShaped(s)
    ensures WellShaped(Reconcile(s)) && WellShaped(Redeliver(s, refund, retries))
  {
    StuckTasks(s.refunds);
  }

  lemma WalletMoved(s: State, wallet: nat, amount: int, reference: Reference, status: WalletStatus)
    requires WellShaped(s)
    ensures WellShaped(OrSame(s, CreditWallet(s, wallet, amount, reference)))
    ensures WellShaped(OrSame(s, DebitWallet(s, wallet, amount, reference)))
    ensures WellShaped(OrSame(s, SetWalletStatus(s, wallet, status)))
  {
  }

  lemma OrderStepKeepsShape(s: State, a: OrderAction)
    requires WellShaped(s)
    ensures WellShaped(OrderStep(s, a))
  {
    match a
    case CreateOrderAct(merchant, amount, expiresAt) => OrderCreated(s, merchant, amount, expiresAt);
    case SaveOrderAct(u) => OrderSaved(s, u);
    case _ =>
  }

  lemma PaymentStepKeepsShape(s: State, a: PaymentAction)
    requires WellShaped(s)
    ensures WellShaped(PaymentStep(s, a))
  {
    match a
    case CreatePaymentAct(merchant, order, amount, gateway, wallet) => PaymentCreated(s, merchant, order, amount, gateway, wallet);
    case InterruptedAct(_, _, amount, wallet) => WalletMoved(s, wallet, amount, Orphan, Active);
    case CaptureAct(merchant, payment, gatewayOk) => PaymentMoved(s, merchant, payment, gatewayOk);
    case VoidAct(merchant, payment) => PaymentMoved(s, merchant, payment, true);
  }

  lemma WorkerStepKeepsShape(s: State, t: nat, a: WorkerAction)
    requires WellShaped(s)
    ensures WellShaped(WorkerStep(s, t, a))
  {
    match a
    case SaveAct => StatusWritten(s, t);
    case LogAct => StatusWritten(s, t);
    case NotifyAct => StatusWritten(s, t);
    case CallAct(refunded) => CalledOrFiled(s, t, refunded);
    case CommitAct => Committed(s, t);
    case DeadLetterAct => CalledOrFiled(s, t, false);
    case HandleAct => TaskLeft(s, t);
    case RaiseAct => TaskLeft(s, t);
    case ReleaseAct => TaskLeft(s, t);
    case _ => TaskMoved(s, t);
  }

  lemma WalletStepKeepsShape(s: State, a: WalletAction)
    requires WellShaped(s)
    ensures WellShaped(WalletStep(s, a))
  {
    match a
    case CreateWalletAct => WalletAdded(s);
    case CreditAct(wallet, amount) => WalletMoved(s, wallet, amount, Manual, Active);
    case DebitAct(wallet, amount) => WalletMoved(s, wallet, amount, Manual, Active);
    case FreezeAct(wallet) => WalletMoved(s, wallet, 0, Manual, Frozen);
    case UnfreezeAct(wallet) => WalletMoved(s, wallet, 0, Manual, Active);
  }

  lemma StepKeepsShape(s: State, a: Action)
    requires WellShaped(s)
    ensures WellShaped(Step(s, a))
  {
    match a
    case OnOrder(act) => OrderStepKeepsShape(s, act);
    case OnPayment(act) => PaymentStepKeepsShape(s, act);
    case OnRefund(act) =>
      match act {
        case CreateRefundAct(merchant, payment, amount) => RefundCreated(s, merchant, payment, amount, 0);
        case UnsentRefundAct(merchant, payment, amount, written) => RefundCreated(s, merchant, payment, amount, written);
        case ReconcileAct => MessagesAdded(s, 0, 0);
        case RedeliverAct(refund, retries) => MessagesAdded(s, refund, retries);
      }
    case Work(t, act) => WorkerStepKeepsShape(s, t, act);
    case OnWallet(act) => WalletStepKeepsShape(s, act);
    case Tick(_) =>
  }

  lemma {:induction false} RunIsShaped(actions: seq<Action>)
    ensures WellShaped(Run(actions))
  {
    if actions != [] {
      var prefix := actions[..|actions| - 1];
      RunIsShaped(prefix);
      StepKeepsShape(Run(prefix), actions[|actions| - 1]);
    }
  }
}
