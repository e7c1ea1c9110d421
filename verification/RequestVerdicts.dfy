/** What payment and refund requests are answered and what they leave behind, in every reachable state. */
module RequestVerdicts {
  import opened Prelude
  import opened Engine
  import opened Wallets
  import opened Shape
  import opened TaskSteps
  import OA = OrderAgreement
  import O = Orders
  import P = Payments
  import R = Refunds

  // ----- refund requests

  /** What already counts against a payment: its CREATED, PROCESSING and SUCCESS refunds. */
  function Counted(s: State, payment: nat): int {
    R.Total(s.refunds, payment, {R.Created, R.Processing, R.Success})
  }

  /** In every run a refund request is answered by the first of the four guards that fails, and accepted if none does. */
  lemma RefundVerdict(actions: seq<Action>, merchant: nat, payment: nat, amount: int)
    ensures
      var s := Run(actions);
      CheckNewRefund(s, merchant, payment, amount)
      == if payment >= |s.payments| || s.payments[payment].merchant != merchant then Some(PaymentNotFound)
         else if s.payments[payment].status !in {P.Captured, P.Settled, P.PartiallyRefunded} then Some(PaymentNotCaptured)
         else if amount <= 0 then Some(Error.InvalidAmount)
         else if amount + Counted(s, payment) > s.payments[payment].amount then Some(RefundAmountExceeded)
         else None
  {
    LinkedOrder(actions, payment);
  }

  lemma AcceptedRefund(s: State, merchant: nat, payment: nat, amount: int)
    requires CheckNewRefund(s, merchant, payment, amount).None?
    ensures
      RefundStep(s, CreateRefundAct(merchant, payment, amount))
      == s.(refunds := s.refunds + [R.Refund(payment, merchant, amount, R.Created, R.NoFailure, false,
                                             [R.RefundEntry(R.RefundCreated, amount, R.Created)], [R.Created], [], 0)],
            tasks := s.tasks + [Task(|s.refunds|, 0, Queued, true, 0, R.NoFailure, false)])
  {
    R.NewRefundIs(payment, merchant, amount);
  }

  lemma RefusedRefund(s: State, merchant: nat, payment: nat, amount: int)
    requires CheckNewRefund(s, merchant, payment, amount).Some?
    ensures RefundStep(s, CreateRefundAct(merchant, payment, amount)) == s
  {
  }

  /** An accepted request leaves one CREATED refund with its entry and event, and one message for it; a refused one leaves nothing. */
  lemma RefundAcceptedExactly(actions: seq<Action>, merchant: nat, payment: nat, amount: int)
    ensures
      var s := Run(actions);
      var s' := Run(actions + [OnRefund(CreateRefundAct(merchant, payment, amount))]);
      if && payment < |s.payments| && s.payments[payment].merchant == merchant
         && s.payments[payment].status in {P.Captured, P.Settled, P.PartiallyRefunded}
         && 0 < amount && amount + Counted(s, payment) <= s.payments[payment].amount
      then s' == s.(refunds := s.refunds + [R.Refund(payment, merchant, amount, R.Created, R.NoFailure, false,
                                                     [R.RefundEntry(R.RefundCreated, amount, R.Created)], [R.Created], [], 0)],
                    tasks := s.tasks + [Task(|s.refunds|, 0, Queued, true, 0, R.NoFailure, false)])
      else s' == s
  {
    hide Run, RefundStep, CheckNewRefund, Counted;
    var s := Run(actions);
    RefundVerdict(actions, merchant, payment, amount);
    RunSnoc(actions, OnRefund(CreateRefundAct(merchant, payment, amount)));
    if CheckNewRefund(s, merchant, payment, amount).None? {
      AcceptedRefund(s, merchant, payment, amount);
    } else {
      RefusedRefund(s, merchant, payment, amount);
    }
  }

  /** In every reachable state a PARTIALLY_REFUNDED payment takes every further refund up to what is left. */
  lemma PartlyRefundedTakesRest(actions: seq<Action>, payment: nat, amount: int)
    requires payment < |Run(actions).payments| && Run(actions).payments[payment].status == P.PartiallyRefunded
    requires 0 < amount <= Run(actions).payments[payment].amount - R.Reserved(Run(actions).refunds, payment)
    ensures
      var s := Run(actions);
      var s' := Run(actions + [OnRefund(CreateRefundAct(s.payments[payment].merchant, payment, amount))]);
      && |s'.refunds| == |s.refunds| + 1
      && s'.refunds[|s.refunds|].payment == payment && s'.refunds[|s.refunds|].amount == amount
      && R.Reserved(s'.refunds, payment) == R.Reserved(s.refunds, payment) + amount <= s.payments[payment].amount
  {
    var s := Run(actions);
    RefundAcceptedExactly(actions, s.payments[payment].merchant, payment, amount);
    var s' := Run(actions + [OnRefund(CreateRefundAct(s.payments[payment].merchant, payment, amount))]);
    R.TotalAppend(s.refunds, s'.refunds[|s.refunds|], payment, R.RESERVING);
  }

  // ----- payment requests

  /** The wallet a WALLET payment names exists, is active and covers the amount. */
  predicate WalletPays(s: State, wallet: Option<nat>, amount: int) {
    && wallet.Some? && wallet.value < |s.wallets|
    && s.wallets[wallet.value].status == Active && 0 < amount <= s.wallets[wallet.value].balance
  }

  /** In every run a payment request is answered by the first of the three guards that fails, and made if none does. */
  lemma PaymentVerdict(actions: seq<Action>, merchant: nat, order: nat, amount: int)
    ensures
      var s := Run(actions);
      CheckNewPayment(s, merchant, order, amount)
      == if order >= |s.orders| || s.orders[order].merchant != merchant then Some(OrderNotFound)
         else if s.orders[order].status !in {O.Pending, O.Processing, O.Draft} then Some(InvalidOrderStatus)
         else if amount != s.orders[order].amount then Some(AmountMismatch)
         else None
  {
  }

  /** What one more payment does, gateway by gateway: its status and code, its order's status, and its wallet's balance. */
  lemma PaymentPerGateway(actions: seq<Action>, merchant: nat, order: nat, amount: int, gateway: P.Gateway, wallet: Option<nat>)
    requires CheckNewPayment(Run(actions), merchant, order, amount).None?
    ensures
      var s := Run(actions);
      var s' := Run(actions + [OnPayment(CreatePaymentAct(merchant, order, amount, gateway, wallet))]);
      && |s'.payments| == |s.payments| + 1 && s'.payments[..|s.payments|] == s.payments
      && |s'.orders| == |s.orders| && order < |s.orders|
      && var p := s'.payments[|s.payments|];
      && p.order == order && p.merchant == merchant && p.amount == amount && p.gateway == gateway
      && (gateway == P.Dummy || gateway == P.Cod ==> p.status == P.Captured && s'.orders[order].status == O.Paid && s'.wallets == s.wallets)
      && (gateway == P.Stripe ==> p.status == P.Authorized && s'.orders[order].status == O.Processing && s'.wallets == s.wallets)
      && (gateway == P.Razorpay ==> p.status == P.Created && s'.orders == s.orders && s'.wallets == s.wallets)
      && (gateway == P.WalletGateway && WalletPays(s, wallet, amount) ==>
            && p.status == P.Captured && p.wallet == wallet && s'.orders[order].status == O.Paid
            && s'.wallets == s.wallets[wallet.value := s'.wallets[wallet.value]]
            && s'.wallets[wallet.value].balance == s.wallets[wallet.value].balance - amount)
      && (gateway == P.WalletGateway && !WalletPays(s, wallet, amount) ==>
            && p.status == P.Failed && s'.orders == s.orders && s'.wallets == s.wallets
            && p.failureCode == (if wallet.None? then P.MissingWalletId else P.WalletDebitFailed))
  {
    var s := Run(actions);
    RunSnoc(actions, OnPayment(CreatePaymentAct(merchant, order, amount, gateway, wallet)));
  }

  // ----- orders

  /** In every run a positive amount makes one PENDING order with its event, and any other nothing. */
  lemma OrderMade(actions: seq<Action>, merchant: nat, amount: int, expiresAt: Option<int>)
    ensures
      var s := Run(actions);
      var s' := Run(actions + [OnOrder(CreateOrderAct(merchant, amount, expiresAt))]);
      var expiry := if expiresAt.Some? then expiresAt.value else s.now + 1800;
      s' == if amount <= 0 then s
            else s.(orders := s.orders + [O.Order(merchant, amount, O.Pending, expiry, [O.OrderEvent(O.OrderCreated, O.Pending)])])
  {
    hide Run;
    RunSnoc(actions, OnOrder(CreateOrderAct(merchant, amount, expiresAt)));
  }

  lemma DecisionSteps(s: State, merchant: nat, order: nat)
    ensures
      var owned := order < |s.orders| && s.orders[order].merchant == merchant;
      && OrderStep(s, CancelOrderAct(merchant, order))
         == (if owned && s.orders[order].status !in {O.Paid, O.Expired, O.Refunded}
             then s.(updates := s.updates + [Update([order], O.Cancelled)]) else s)
      && OrderStep(s, ExpireOrderAct(merchant, order))
         == (if owned && s.orders[order].status in {O.Pending, O.Expired}
             then s.(updates := s.updates + [Update([order], O.Expired)]) else s)
  {
  }

  /** In every run a cancellation is decided unless the order is PAID, EXPIRED or REFUNDED, and an expiry only for a PENDING or EXPIRED one. */
  lemma MoveVerdict(actions: seq<Action>, merchant: nat, order: nat)
    ensures
      var s := Run(actions);
      var owned := order < |s.orders| && s.orders[order].merchant == merchant;
      var cancelled, expired := Run(actions + [OnOrder(CancelOrderAct(merchant, order))]), Run(actions + [OnOrder(ExpireOrderAct(merchant, order))]);
      && cancelled == (if owned && s.orders[order].status !in {O.Paid, O.Expired, O.Refunded}
                       then s.(updates := s.updates + [Update([order], O.Cancelled)]) else s)
      && expired == (if owned && s.orders[order].status in {O.Pending, O.Expired}
                     then s.(updates := s.updates + [Update([order], O.Expired)]) else s)
  {
    hide Run, OrderStep;
    DecisionSteps(Run(actions), merchant, order);
    RunSnoc(actions, OnOrder(CancelOrderAct(merchant, order)));
    RunSnoc(actions, OnOrder(ExpireOrderAct(merchant, order)));
  }

  /** The next save of a decision writes its status and event over whatever the order has become, and nothing else. */
  lemma SaveWrites(actions: seq<Action>, u: nat)
    requires
      var s := Run(actions);
      u < |s.updates| && s.updates[u].orders != [] && s.updates[u].orders[0] < |s.orders|
    ensures
      var s := Run(actions);
      var update, order := s.updates[u], s.updates[u].orders[0];
      var kind := if update.status == O.Cancelled then O.OrderCancelled else O.OrderExpired;
      var row := s.orders[order];
      Run(actions + [OnOrder(SaveOrderAct(u))])
      == s.(orders := s.orders[order := row.(status := update.status, events := row.events + [O.OrderEvent(kind, update.status)])],
            updates := s.updates[u := update.(orders := update.orders[1..])])
  {
    hide Run;
    OA.RunAgrees(actions);
    RunSnoc(actions, OnOrder(SaveOrderAct(u)));
  }

  // ----- wallets

  lemma MoveSteps(s: State, wallet: nat, amount: int)
    requires wallet < |s.wallets|
    ensures
      var w := s.wallets[wallet];
      WalletStep(s, CreditAct(wallet, amount))
      == if amount <= 0 || w.status != Active then s
         else s.(wallets := s.wallets[wallet :=
                Wallet(w.balance + amount, Active, w.ledger + [Txn(Credit, amount, w.balance, w.balance + amount, Manual)])])
    ensures
      var w := s.wallets[wallet];
      WalletStep(s, DebitAct(wallet, amount))
      == if amount <= 0 || w.status != Active || w.balance < amount then s
         else s.(wallets := s.wallets[wallet :=
                Wallet(w.balance - amount, Active, w.ledger + [Txn(Debit, amount, w.balance, w.balance - amount, Manual)])])
  {
  }

  lemma NoWallet(s: State, wallet: nat, amount: int)
    requires wallet >= |s.wallets|
    ensures WalletStep(s, CreditAct(wallet, amount)) == WalletStep(s, DebitAct(wallet, amount)) == s
  {
  }

  /** In every run a new wallet is empty and active. */
  lemma WalletOpened(actions: seq<Action>)
    ensures Run(actions + [OnWallet(CreateWalletAct)]) == Run(actions).(wallets := Run(actions).wallets + [Wallet(0, Active, [])])
  {
    RunSnoc(actions, OnWallet(CreateWalletAct));
  }

  /** In every run a freeze or unfreeze sets that wallet's status alone. */
  lemma WalletStatusSet(actions: seq<Action>, wallet: nat, frozen: bool)
    ensures
      var s := Run(actions);
      Run(actions + [OnWallet(if frozen then FreezeAct(wallet) else UnfreezeAct(wallet))])
      == if wallet >= |s.wallets| then s
         else s.(wallets := s.wallets[wallet := s.wallets[wallet].(status := if frozen then Frozen else Active)])
  {
    RunSnoc(actions, OnWallet(if frozen then FreezeAct(wallet) else UnfreezeAct(wallet)));
  }

  /** In every run a credit, or a covered debit, of a positive amount moves an active wallet's balance and ledger by it; nothing else does. */
  lemma WalletMoved(actions: seq<Action>, wallet: nat, amount: int)
    ensures
      var s := Run(actions);
      var active := amount > 0 && wallet < |s.wallets| && s.wallets[wallet].status == Active;
      && Run(actions + [OnWallet(CreditAct(wallet, amount))])
         == (if !active then s
             else
               var w := s.wallets[wallet];
               s.(wallets := s.wallets[wallet := Wallet(w.balance + amount, Active,
                 w.ledger + [Txn(Credit, amount, w.balance, w.balance + amount, Manual)])]))
      && Run(actions + [OnWallet(DebitAct(wallet, amount))])
         == (if !active || s.wallets[wallet].balance < amount then s
             else
               var w := s.wallets[wallet];
               s.(wallets := s.wallets[wallet := Wallet(w.balance - amount, Active,
                 w.ledger + [Txn(Debit, amount, w.balance, w.balance - amount, Manual)])]))
  {
    hide Run, WalletStep;
    if wallet < |Run(actions).wallets| { MoveSteps(Run(actions), wallet, amount); } else { NoWallet(Run(actions), wallet, amount); }
    RunSnoc(actions, OnWallet(CreditAct(wallet, amount)));
    RunSnoc(actions, OnWallet(DebitAct(wallet, amount)));
  }

  // ----- captures and voids

  /** A payment and its order after a capture or a void. */
  function Settled(s: State, payment: nat, status: P.PaymentStatus, action: P.PaymentAction, event: O.OrderEvent): State
    requires payment < |s.payments| && s.payments[payment].order < |s.orders|
  {
    var p := s.payments[payment];
    var o := s.orders[p.order];
    s.(payments := s.payments[payment := p.(status := status,
         ledger := p.ledger + [P.PaymentEntry(action, p.amount, status)], events := p.events + [action])],
       orders := s.orders[p.order := o.(status := event.status, events := o.events + [event])])
  }

  /** In every run a capture succeeds exactly on the merchant's CREATED, AUTHORIZED or CAPTURED payment that the gateway captures. */
  lemma CaptureVerdict(actions: seq<Action>, merchant: nat, payment: nat, gatewayOk: bool)
    ensures
      var s := Run(actions);
      var r, s' := CapturePayment(s, merchant, payment, gatewayOk), Run(actions + [OnPayment(CaptureAct(merchant, payment, gatewayOk))]);
      if payment >= |s.payments| || s.payments[payment].merchant != merchant then r == Err(PaymentNotFound) && s' == s
      else if s.payments[payment].status !in {P.Created, P.Authorized, P.Captured} then r == Err(InvalidTransition) && s' == s
      else if !gatewayOk then r == Err(GatewayCaptureFailed) && s' == s
      else
        && s.payments[payment].order < |s.orders|
        && s' == Settled(s, payment, P.Captured, P.PaymentCaptured, O.OrderEvent(O.OrderPaid, O.Paid)) && r == Ok(s')
  {
    hide Run;
    LinkedOrder(actions, payment);
    RunSnoc(actions, OnPayment(CaptureAct(merchant, payment, gatewayOk)));
  }

  /** And a void exactly on an AUTHORIZED or VOIDED one, whatever the gateway says. */
  lemma VoidVerdict(actions: seq<Action>, merchant: nat, payment: nat)
    ensures
      var s := Run(actions);
      var r, s' := VoidPayment(s, merchant, payment), Run(actions + [OnPayment(VoidAct(merchant, payment))]);
      if payment >= |s.payments| || s.payments[payment].merchant != merchant then r == Err(PaymentNotFound) && s' == s
      else if s.payments[payment].status !in {P.Authorized, P.Voided} then r == Err(InvalidTransition) && s' == s
      else
        && s.payments[payment].order < |s.orders|
        && s' == Settled(s, payment, P.Voided, P.PaymentVoided, O.OrderEvent(O.OrderCancelled, O.Cancelled)) && r == Ok(s')
  {
    hide Run;
    LinkedOrder(actions, payment);
    RunSnoc(actions, OnPayment(VoidAct(merchant, payment)));
  }

  lemma LinkedOrder(actions: seq<Action>, payment: nat)
    ensures payment < |Run(actions).payments| ==> Run(actions).payments[payment].order < |Run(actions).orders|
  {
    RunIsShaped(actions);
    if payment < |Run(actions).payments| {
      assert PaymentLinked(Run(actions).payments[payment], Run(actions).orders, |Run(actions).wallets|);
    }
  }

  // ----- which gateway a status tells

  predicate StatusFits(p: P.Payment) {
    && (p.status == P.Authorized || p.status == P.Voided ==> p.gateway == P.Stripe)
    && (p.status == P.Created ==> p.gateway == P.Razorpay)
    && (p.status == P.Failed ==> p.gateway == P.WalletGateway)
    && p.status != P.Settled
  }

  predicate StatusesFit(payments: seq<P.Payment>) {
    forall p :: 0 <= p < |payments| ==> StatusFits(payments[p])
  }

  lemma PaymentStepFits(s: State, a: PaymentAction)
    requires StatusesFit(s.payments)
    ensures StatusesFit(PaymentStep(s, a).payments)
  {
    if a.CreatePaymentAct? { CreationFits(s, a); }
  }

  lemma CreationFits(s: State, a: PaymentAction)
    requires StatusesFit(s.payments) && a.CreatePaymentAct?
    ensures StatusesFit(PaymentStep(s, a).payments)
  {
    hide O.WithStatus, DebitRow;
  }

  lemma StepFits(s: State, a: Action)
    requires WellShaped(s) && StatusesFit(s.payments)
    ensures StatusesFit(Step(s, a).payments)
  {
    hide OrderStep, PaymentStep, WorkerStep, WalletStep;
    match a
    case OnOrder(act) => OrderStepFrame(s, act);
    case OnPayment(act) => PaymentStepFits(s, act);
    case OnRefund(_) =>
    case Work(t, act) => OA.WorkerPayments(s, t, act);
    case OnWallet(act) => WalletStepFrame(s, act);
    case Tick(_) =>
  }

  /** In every run an AUTHORIZED or VOIDED payment is STRIPE's, a CREATED one RAZORPAY's and a FAILED one WALLET's. */
  lemma {:induction false} StatusTellsGateway(actions: seq<Action>)
    ensures
      forall p :: 0 <= p < |Run(actions).payments| ==>
        var row := Run(actions).payments[p];
        && (row.status == P.Authorized || row.status == P.Voided ==> row.gateway == P.Stripe)
        && (row.status == P.Created ==> row.gateway == P.Razorpay)
        && (row.status == P.Failed ==> row.gateway == P.WalletGateway)
        && row.status != P.Settled
  {
    if actions != [] {
      var prefix := actions[..|actions| - 1];
      StatusTellsGateway(prefix);
      RunIsShaped(prefix);
      assert StatusesFit(Run(prefix).payments);
      StepFits(Run(prefix), actions[|actions| - 1]);
      assert forall p :: 0 <= p < |Run(actions).payments| ==> StatusFits(Run(actions).payments[p]);
    }
  }
}
