/**
The money engine as one transition system: orders, payments, refunds, wallets, the refund task
queue with its per-payment lock, and the clock. Tables only grow, so a row's position is its id.

Each action is one atomic effect on the database, the cache or the queue. An action whose guard
or validation fails leaves the state as it was.
 */
module Engine {
  import opened Prelude
  import opened TtlCache
  import opened Wallets
  import O = Orders
  import P = Payments
  import R = Refunds

  // ----- state

  /** The three calls of update_refund_status that run outside a transaction: at the start, on a decline and on giving up. */
  datatype Site = Begin | Decline | GiveUp

  /**
  Where one dispatched execution of the refund task is, from queued message to the end of its `finally`.
  `Loaded` has read an unfinished refund. From `Saving(Begin)` on the task holds the payment lock, and the phase names
  the next effect: a row save, its ledger entry or its event, the gateway call, the atomic block after the gateway
  paid, the exception handler, the dead-letter record, the release. `Unfiled` raised when it owed a dead letter.
   */
  datatype Phase =
    | Queued | Loaded
    | Saving(site: Site) | Logging(site: Site) | Notifying(site: Site)
    | Calling | Paid | Raised | Filing | Unfiled | Leaving | Ended

  /**
  `code` and `ref` are the failure code and gateway reference of the in-memory refund object,
  which a save writes back in full. `alive` turns false when the worker dies or the task returns.
   */
  datatype Task = Task(
    refund: nat,
    retries: nat,
    phase: Phase,
    alive: bool,
    lockedAt: int,
    code: R.FailureCode,
    ref: bool)

  datatype LockMark = LockMark

  /** Orders a request or a sweep has read and decided to move; their saves are still to come, first one first. */
  datatype Update = Update(orders: seq<nat>, status: O.OrderStatus)

  datatype State = State(
    now: int,
    orders: seq<O.Order>,
    updates: seq<Update>,
    payments: seq<P.Payment>,
    refunds: seq<R.Refund>,
    wallets: seq<Wallet>,
    tasks: seq<Task>,
    locks: Cache<nat, LockMark>)

  const INITIAL := State(0, [], [], [], [], [], [], map[])

  const MAX_RETRIES: nat := 3
  const LOCK_TTL := 30

  datatype Error =
    | OrderNotFound | CustomerNotFound | InvalidOrderStatus | AmountMismatch | InvalidTransition
    | PaymentNotFound | GatewayCaptureFailed
    | PaymentNotCaptured | InvalidAmount | RefundAmountExceeded
    | WalletFailure(cause: WalletError)

  // ----- one-row updates

  function WithOrder(s: State, order: nat, row: O.Order): State
    requires order < |s.orders|
  {
    s.(orders := s.orders[order := row])
  }

  function WithPayment(s: State, payment: nat, row: P.Payment): State
    requires payment < |s.payments|
  {
    s.(payments := s.payments[payment := row])
  }

  function WithRefund(s: State, refund: nat, row: R.Refund): State
    requires refund < |s.refunds|
  {
    s.(refunds := s.refunds[refund := row])
  }

  function WithWallet(s: State, wallet: nat, row: Wallet): State
    requires wallet < |s.wallets|
  {
    s.(wallets := s.wallets[wallet := row])
  }

  function WithTask(s: State, t: nat, task: Task): State
    requires t < |s.tasks|
  {
    s.(tasks := s.tasks[t := task])
  }

  function AddTask(s: State, task: Task): State {
    s.(tasks := s.tasks + [task])
  }

  // ----- orders

  function CreateOrder(s: State, merchant: nat, amount: int, expiresAt: Option<int>): Result<State, Error> {
    if amount <= 0 then Err(Error.InvalidAmount)
    else
      var expiry := if expiresAt.Some? then expiresAt.value else s.now + O.PENDING_TTL;
      Ok(s.(orders := s.orders + [O.NewOrder(merchant, amount, expiry)]))
  }

  predicate OwnsOrder(s: State, merchant: nat, order: nat) {
    order < |s.orders| && s.orders[order].merchant == merchant
  }

  function SetOrder(s: State, order: nat, status: O.OrderStatus): State
    requires order < |s.orders|
  {
    WithOrder(s, order, O.WithStatus(s.orders[order], status))
  }

  function Decide(s: State, orders: seq<nat>, status: O.OrderStatus): State {
    s.(updates := s.updates + [Update(orders, status)])
  }

  /** cancel_order and expire_order up to the save: the requested status is checked against the table. */
  function MoveOrder(s: State, merchant: nat, order: nat, status: O.OrderStatus): Result<State, Error> {
    if !OwnsOrder(s, merchant, order) then Err(OrderNotFound)
    else if !O.Validates(s.orders[order].status, status) then Err(InvalidTransition)
    else Ok(Decide(s, [order], status))
  }

  predicate Due(o: O.Order, now: int) {
    o.status == O.Pending && o.expiresAt <= now
  }

  function DueOrders(orders: seq<O.Order>, now: int): seq<nat> {
    if orders == [] then []
    else
      var n := |orders| - 1;
      if Due(orders[n], now) then DueOrders(orders[..n], now) + [n] else DueOrders(orders[..n], now)
  }

  /** The query of the auto-expire task. */
  function Sweep(s: State): State {
    Decide(s, DueOrders(s.orders, s.now), O.Expired)
  }

  predicate ReadyToSave(s: State, u: nat) {
    u < |s.updates| && s.updates[u].orders != [] && s.updates[u].orders[0] < |s.orders|
  }

  /** The next save of a request or a sweep: the status alone, over whatever the row has become. */
  function SaveOrder(s: State, u: nat): State {
    if !ReadyToSave(s, u) then s
    else
      var update := s.updates[u];
      SetOrder(s, update.orders[0], update.status).(updates := s.updates[u := update.(orders := update.orders[1..])])
  }

  // ----- wallets

  function CreditWallet(s: State, wallet: nat, amount: int, reference: Reference): Result<State, Error> {
    if amount <= 0 then Err(WalletFailure(WalletError.InvalidAmount))
    else if wallet >= |s.wallets| then Err(WalletFailure(WalletNotFound))
    else
      match CreditRow(s.wallets[wallet], amount, reference)
      case Err(e) => Err(WalletFailure(e))
      case Ok(row) => Ok(WithWallet(s, wallet, row))
  }

  function DebitWallet(s: State, wallet: nat, amount: int, reference: Reference): Result<State, Error> {
    if amount <= 0 then Err(WalletFailure(WalletError.InvalidAmount))
    else if wallet >= |s.wallets| then Err(WalletFailure(WalletNotFound))
    else
      match DebitRow(s.wallets[wallet], amount, reference)
      case Err(e) => Err(WalletFailure(e))
      case Ok(row) => Ok(WithWallet(s, wallet, row))
  }

  function SetWalletStatus(s: State, wallet: nat, status: WalletStatus): Result<State, Error> {
    if wallet >= |s.wallets| then Err(WalletFailure(WalletNotFound))
    else Ok(WithWallet(s, wallet, s.wallets[wallet].(status := status)))
  }

  // ----- payments

  /** What the gateway adapter does when a payment is created: the wallet adapter debits, the others have a fixed answer. */
  function GatewayCreate(s: State, gateway: P.Gateway, wallet: Option<nat>, amount: int, reference: Reference): (State, P.PaymentStatus) {
    match gateway
    case Dummy => (s, P.Captured)
    case Cod => (s, P.Captured)
    case Stripe => (s, P.Authorized)
    case Razorpay => (s, P.Created)
    case WalletGateway =>
      if wallet.None? then (s, P.Failed)
      else
        match DebitWallet(s, wallet.value, amount, reference)
        case Err(_) => (s, P.Failed)
        case Ok(s') => (s', P.Captured)
  }

  predicate AcceptsPayment(status: O.OrderStatus) {
    status in {O.Pending, O.Processing, O.Draft}
  }

  function CheckNewPayment(s: State, merchant: nat, order: nat, amount: int): Option<Error> {
    if !OwnsOrder(s, merchant, order) then Some(OrderNotFound)
    else if !AcceptsPayment(s.orders[order].status) then Some(InvalidOrderStatus)
    else if amount != s.orders[order].amount then Some(AmountMismatch)
    else None
  }

  function SyncOrder(s: State, order: nat, status: P.PaymentStatus): State
    requires order < |s.orders|
  {
    match status
    case Captured => SetOrder(s, order, O.Paid)
    case Authorized => SetOrder(s, order, O.Processing)
    case _ => s
  }

  function CreatePayment(s: State, merchant: nat, order: nat, amount: int, gateway: P.Gateway, wallet: Option<nat>): Result<State, Error> {
    match CheckNewPayment(s, merchant, order, amount)
    case Some(e) => Err(e)
    case None =>
      var (s1, status) := GatewayCreate(s, gateway, wallet, amount, ForPayment(|s.payments|));
      var linked := if wallet.Some? && wallet.value < |s.wallets| then wallet else None;
      var row := P.WithFailure(P.NewPayment(order, merchant, amount, gateway, linked, status), wallet);
      Ok(SyncOrder(s1.(payments := s1.payments + [row]), order, status))
  }

  /** The process dies after the wallet adapter's own transaction and before the payment row is inserted. */
  function InterruptedWalletPayment(s: State, merchant: nat, order: nat, amount: int, wallet: nat): Result<State, Error> {
    match CheckNewPayment(s, merchant, order, amount)
    case Some(e) => Err(e)
    case None => DebitWallet(s, wallet, amount, Orphan)
  }

  predicate OwnsPayment(s: State, merchant: nat, payment: nat) {
    && payment < |s.payments|
    && s.payments[payment].merchant == merchant
    && s.payments[payment].order < |s.orders|
  }

  function SetPayment(s: State, payment: nat, status: P.PaymentStatus, action: P.PaymentAction): State
    requires payment < |s.payments|
  {
    WithPayment(s, payment, P.WithStatus(s.payments[payment], status, action))
  }

  function CapturePayment(s: State, merchant: nat, payment: nat, gatewayOk: bool): Result<State, Error> {
    if !OwnsPayment(s, merchant, payment) then Err(PaymentNotFound)
    else if !P.Validates(s.payments[payment].status, P.Captured) then Err(InvalidTransition)
    else if !gatewayOk then Err(GatewayCaptureFailed)
    else Ok(SetOrder(SetPayment(s, payment, P.Captured, P.PaymentCaptured), s.payments[payment].order, O.Paid))
  }

  function VoidPayment(s: State, merchant: nat, payment: nat): Result<State, Error> {
    if !OwnsPayment(s, merchant, payment) then Err(PaymentNotFound)
    else if !P.Validates(s.payments[payment].status, P.Voided) then Err(InvalidTransition)
    else Ok(SetOrder(SetPayment(s, payment, P.Voided, P.PaymentVoided), s.payments[payment].order, O.Cancelled))
  }

  // ----- refunds

  function NewTask(refund: nat, retries: nat): Task {
    Task(refund, retries, Queued, true, 0, R.NoFailure, false)
  }

  function CheckNewRefund(s: State, merchant: nat, payment: nat, amount: int): Option<Error> {
    if !OwnsPayment(s, merchant, payment) then Some(PaymentNotFound)
    else if !P.Refundable(s.payments[payment].status) then Some(PaymentNotCaptured)
    else if amount <= 0 then Some(Error.InvalidAmount)
    else if amount > s.payments[payment].amount - R.Reserved(s.refunds, payment) then Some(RefundAmountExceeded)
    else None
  }

  function CreateRefund(s: State, merchant: nat, payment: nat, amount: int): Result<State, Error> {
    match CheckNewRefund(s, merchant, payment, amount)
    case Some(e) => Err(e)
    case None => Ok(AddTask(s.(refunds := s.refunds + [R.NewRefund(payment, merchant, amount)]), NewTask(|s.refunds|, 0)))
  }

  /** The request dies after the row insert and `written` of the two inserts that follow it; no task is dispatched. */
  function UnsentRefund(s: State, merchant: nat, payment: nat, amount: int, written: nat): Result<State, Error> {
    match CheckNewRefund(s, merchant, payment, amount)
    case Some(e) => Err(e)
    case None => Ok(s.(refunds := s.refunds + [R.NewRefundPart(payment, merchant, amount, written)]))
  }

  /** A live task whose refund and payment exist. */
  predicate TaskIn(s: State, t: nat) {
    && t < |s.tasks|
    && s.tasks[t].alive
    && s.tasks[t].refund < |s.refunds|
    && s.refunds[s.tasks[t].refund].payment < |s.payments|
  }

  predicate TaskAt(s: State, t: nat, phase: Phase) {
    TaskIn(s, t) && s.tasks[t].phase == phase
  }

  function PaymentOf(s: State, t: nat): nat
    requires t < |s.tasks| && s.tasks[t].refund < |s.refunds|
  {
    s.refunds[s.tasks[t].refund].payment
  }

  function End(task: Task): Task {
    task.(phase := Ended, alive := false)
  }

  /** The worker picks the message up and reads the refund; a missing or finished one is skipped. */
  function Start(s: State, t: nat): State {
    if !(t < |s.tasks| && s.tasks[t].alive && s.tasks[t].phase == Queued) then s
    else
      var task := s.tasks[t];
      if task.refund >= |s.refunds| || R.Terminal(s.refunds[task.refund].status) then WithTask(s, t, End(task))
      else
        var r := s.refunds[task.refund];
        WithTask(s, t, task.(phase := Loaded, code := r.failureCode, ref := r.gatewayRef))
  }

  /** self.retry: a new message while retries remain, otherwise the task simply fails. */
  function Requeue(s: State, task: Task): State {
    if task.retries < MAX_RETRIES then AddTask(s, NewTask(task.refund, task.retries + 1)) else s
  }

  /** cache.add on the payment's lock. */
  function Lock(s: State, t: nat): State {
    if !TaskAt(s, t, Loaded) then s
    else
      var task := s.tasks[t];
      var payment := PaymentOf(s, t);
      if Live(s.locks, payment, s.now) then Requeue(WithTask(s, t, End(task)), task)
      else
        WithTask(s, t, task.(phase := Saving(Begin), lockedAt := s.now))
        .(locks := Add(s.locks, payment, LockMark, LOCK_TTL, s.now))
  }

  function SiteStatus(site: Site): R.RefundStatus {
    if site.Begin? then R.Processing else R.Failed
  }

  function AfterSite(site: Site): Phase {
    match site
    case Begin => Calling
    case Decline => Leaving
    case GiveUp => Filing
  }

  predicate AtSaving(s: State, t: nat) { TaskIn(s, t) && s.tasks[t].phase.Saving? }

  predicate AtLogging(s: State, t: nat) { TaskIn(s, t) && s.tasks[t].phase.Logging? }

  predicate AtNotifying(s: State, t: nat) { TaskIn(s, t) && s.tasks[t].phase.Notifying? }

  /** refund.save(): the in-memory columns overwrite the row's. */
  function SaveStatus(s: State, t: nat): State {
    if !AtSaving(s, t) then s
    else
      var task := s.tasks[t];
      var row := R.SaveRow(s.refunds[task.refund], SiteStatus(task.phase.site), task.code, task.ref);
      WithTask(WithRefund(s, task.refund, row), t, task.(phase := Logging(task.phase.site)))
  }

  function LogStatus(s: State, t: nat): State {
    if !AtLogging(s, t) then s
    else
      var task := s.tasks[t];
      var row := R.LogRow(s.refunds[task.refund], SiteStatus(task.phase.site));
      WithTask(WithRefund(s, task.refund, row), t, task.(phase := Notifying(task.phase.site)))
  }

  function NotifyStatus(s: State, t: nat): State {
    if !AtNotifying(s, t) then s
    else
      var task := s.tasks[t];
      var row := R.NotifyRow(s.refunds[task.refund], SiteStatus(task.phase.site));
      WithTask(WithRefund(s, task.refund, row), t, task.(phase := AfterSite(task.phase.site)))
  }

  function CountPayout(r: R.Refund): R.Refund {
    r.(payouts := r.payouts + 1)
  }

  /** The gateway answers: it has paid the refund, or it declines it. */
  function Call(s: State, t: nat, refunded: bool): State {
    if !TaskAt(s, t, Calling) then s
    else
      var task := s.tasks[t];
      if refunded then
        WithTask(WithRefund(s, task.refund, CountPayout(s.refunds[task.refund])), t, task.(phase := Paid))
      else
        WithTask(s, t, task.(phase := Saving(Decline), code := R.GatewayRefundFailed))
  }

  /** The refund goes back to a wallet only for wallet payments that are linked to one. */
  predicate ReturnsToWallet(p: P.Payment) {
    p.gateway == P.WalletGateway && p.wallet.Some?
  }

  function RefundedStatus(s: State, payment: nat): P.PaymentStatus
    requires payment < |s.payments|
  {
    if R.Reserved(s.refunds, payment) >= s.payments[payment].amount then P.FullyRefunded else P.PartiallyRefunded
  }

  /** The atomic block after the gateway paid; None when the wallet credit raises and it rolls back. */
  function CommitSuccess(s: State, t: nat): Option<State>
    requires TaskAt(s, t, Paid)
  {
    var task := s.tasks[t];
    var payment := PaymentOf(s, t);
    var r := s.refunds[task.refund];
    var s1 := WithRefund(s, task.refund, R.WriteRow(r, R.Success, task.code, true));
    var credited :=
      if ReturnsToWallet(s.payments[payment])
      then CreditWallet(s1, s.payments[payment].wallet.value, r.amount, ForRefund(task.refund))
      else Ok(s1);
    match credited
    case Err(_) => None
    case Ok(s2) => Some(WithPayment(s2, payment, s2.payments[payment].(status := RefundedStatus(s2, payment))))
  }

  /** The block raised: its writes are undone, but the in-memory refund keeps the gateway's reference. */
  function RollBack(s: State, t: nat): State
    requires t < |s.tasks|
  {
    WithTask(s, t, s.tasks[t].(phase := Raised, ref := true))
  }

  function Commit(s: State, t: nat): State {
    if !TaskAt(s, t, Paid) then s
    else
      match CommitSuccess(s, t)
      case None => RollBack(s, t)
      case Some(s') => WithTask(s', t, s.tasks[t].(phase := Leaving))
  }

  /** The except branch: give up once the retries are used, otherwise queue another try. */
  function Handle(s: State, t: nat): State {
    if !TaskAt(s, t, Raised) then s
    else
      var task := s.tasks[t];
      if task.retries >= MAX_RETRIES then WithTask(s, t, task.(phase := Saving(GiveUp), code := R.MaxRetriesExceeded))
      else Requeue(WithTask(s, t, task.(phase := Leaving)), task)
  }

  function WriteDeadLetter(s: State, t: nat): State {
    if !TaskAt(s, t, Filing) then s
    else
      var task := s.tasks[t];
      var r := s.refunds[task.refund];
      WithTask(WithRefund(s, task.refund, r.(deadLetters := r.deadLetters + [task.retries])), t, task.(phase := Leaving))
  }

  /** Where the task goes when its next effect raises instead: to the handler from the try, to `finally` from the handler. */
  function PhaseAfterRaise(phase: Phase): Phase {
    match phase
    case Saving(site) => if site.GiveUp? then Leaving else Raised
    case Logging(site) => if site.GiveUp? then Unfiled else Raised
    case Notifying(site) => if site.GiveUp? then Unfiled else Raised
    case Calling => Raised
    case Paid => Raised
    case Filing => Unfiled
    case Raised => Leaving
    case _ => phase
  }

  function Raise(s: State, t: nat): State {
    if !TaskIn(s, t) then s
    else if s.tasks[t].phase == Paid then RollBack(s, t)
    else WithTask(s, t, s.tasks[t].(phase := PhaseAfterRaise(s.tasks[t].phase)))
  }

  /** The finally branch: an unconditional delete of the lock. */
  function Release(s: State, t: nat): State {
    if TaskAt(s, t, Leaving) || TaskAt(s, t, Unfiled) then
      var task := s.tasks[t];
      WithTask(s, t, task.(phase := if task.phase == Leaving then Ended else Unfiled, alive := false))
      .(locks := Delete(s.locks, PaymentOf(s, t)))
    else s
  }

  /** The worker dies (or the message is lost) wherever the task happens to be; nothing is released. */
  function Crash(s: State, t: nat): State {
    if t < |s.tasks| && s.tasks[t].alive then WithTask(s, t, s.tasks[t].(alive := false)) else s
  }

  function Stuck(refunds: seq<R.Refund>): seq<Task> {
    if refunds == [] then []
    else
      var n := |refunds| - 1;
      Stuck(refunds[..n]) + if refunds[n].status == R.Processing then [NewTask(n, 0)] else []
  }

  /** reconcile_refunds_task: one fresh message per PROCESSING refund. */
  function Reconcile(s: State): State {
    s.(tasks := s.tasks + Stuck(s.refunds))
  }

  /** The broker delivers a message again. */
  function Redeliver(s: State, refund: nat, retries: nat): State {
    if refund < |s.refunds| && retries <= MAX_RETRIES then AddTask(s, NewTask(refund, retries)) else s
  }

  // ----- runs

  datatype OrderAction =
    | CreateOrderAct(merchant: nat, amount: int, expiresAt: Option<int>)
    | CancelOrderAct(merchant: nat, order: nat)
    | ExpireOrderAct(merchant: nat, order: nat)
    | SweepAct
    | SaveOrderAct(u: nat)

  datatype PaymentAction =
    | CreatePaymentAct(merchant: nat, order: nat, amount: int, gateway: P.Gateway, wallet: Option<nat>)
    | InterruptedAct(merchant: nat, order: nat, amount: int, walletId: nat)
    | CaptureAct(merchant: nat, payment: nat, gatewayOk: bool)
    | VoidAct(merchant: nat, payment: nat)

  datatype RefundAction =
    | CreateRefundAct(merchant: nat, payment: nat, amount: int)
    | UnsentRefundAct(merchant: nat, payment: nat, amount: int, written: nat)
    | ReconcileAct
    | RedeliverAct(refund: nat, retries: nat)

  datatype WorkerAction =
    | StartAct
    | LockAct
    | SaveAct
    | LogAct
    | NotifyAct
    | CallAct(refunded: bool)
    | CommitAct
    | HandleAct
    | DeadLetterAct
    | RaiseAct
    | ReleaseAct
    | CrashAct

  datatype WalletAction =
    | CreateWalletAct
    | CreditAct(walletId: nat, amount: int)
    | DebitAct(walletId: nat, amount: int)
    | FreezeAct(walletId: nat)
    | UnfreezeAct(walletId: nat)

  datatype Action =
    | OnOrder(order: OrderAction)
    | OnPayment(payment: PaymentAction)
    | OnRefund(refund: RefundAction)
    | Work(t: nat, worker: WorkerAction)
    | OnWallet(wallet: WalletAction)
    | Tick(seconds: nat)

  function OrSame(s: State, r: Result<State, Error>): State {
    if r.Ok? then r.value else s
  }

  function OrderStep(s: State, a: OrderAction): State {
    match a
    case CreateOrderAct(merchant, amount, expiresAt) => OrSame(s, CreateOrder(s, merchant, amount, expiresAt))
    case CancelOrderAct(merchant, order) => OrSame(s, MoveOrder(s, merchant, order, O.Cancelled))
    case ExpireOrderAct(merchant, order) => OrSame(s, MoveOrder(s, merchant, order, O.Expired))
    case SweepAct => Sweep(s)
    case SaveOrderAct(u) => SaveOrder(s, u)
  }

  function PaymentStep(s: State, a: PaymentAction): State {
    match a
    case CreatePaymentAct(merchant, order, amount, gateway, wallet) => OrSame(s, CreatePayment(s, merchant, order, amount, gateway, wallet))
    case InterruptedAct(merchant, order, amount, wallet) => OrSame(s, InterruptedWalletPayment(s, merchant, order, amount, wallet))
    case CaptureAct(merchant, payment, gatewayOk) => OrSame(s, CapturePayment(s, merchant, payment, gatewayOk))
    case VoidAct(merchant, payment) => OrSame(s, VoidPayment(s, merchant, payment))
  }

  function RefundStep(s: State, a: RefundAction): State {
    match a
    case CreateRefundAct(merchant, payment, amount) => OrSame(s, CreateRefund(s, merchant, payment, amount))
    case UnsentRefundAct(merchant, payment, amount, written) => OrSame(s, UnsentRefund(s, merchant, payment, amount, written))
    case ReconcileAct => Reconcile(s)
    case RedeliverAct(refund, retries) => Redeliver(s, refund, retries)
  }

  function WorkerStep(s: State, t: nat, a: WorkerAction): State {
    match a
    case StartAct => Start(s, t)
    case LockAct => Lock(s, t)
    case SaveAct => SaveStatus(s, t)
    case LogAct => LogStatus(s, t)
    case NotifyAct => NotifyStatus(s, t)
    case CallAct(refunded) => Call(s, t, refunded)
    case CommitAct => Commit(s, t)
    case HandleAct => Handle(s, t)
    case DeadLetterAct => WriteDeadLetter(s, t)
    case RaiseAct => Raise(s, t)
    case ReleaseAct => Release(s, t)
    case CrashAct => Crash(s, t)
  }

  function WalletStep(s: State, a: WalletAction): State {
    match a
    case CreateWalletAct => s.(wallets := s.wallets + [NEW_WALLET])
    case CreditAct(wallet, amount) => OrSame(s, CreditWallet(s, wallet, amount, Manual))
    case DebitAct(wallet, amount) => OrSame(s, DebitWallet(s, wallet, amount, Manual))
    case FreezeAct(wallet) => OrSame(s, SetWalletStatus(s, wallet, Frozen))
    case UnfreezeAct(wallet) => OrSame(s, SetWalletStatus(s, wallet, Active))
  }

  function Step(s: State, a: Action): State {
    match a
    case OnOrder(act) => OrderStep(s, act)
    case OnPayment(act) => PaymentStep(s, act)
    case OnRefund(act) => RefundStep(s, act)
    case Work(t, act) => WorkerStep(s, t, act)
    case OnWallet(act) => WalletStep(s, act)
    case Tick(seconds) => s.(now := s.now + seconds)
  }

  /** The state after a run from the empty system. */
  function Run(actions: seq<Action>): State {
    if actions == [] then INITIAL
    else Step(Run(actions[..|actions| - 1]), actions[|actions| - 1])
  }

  lemma RunSnoc(actions: seq<Action>, a: Action)
    ensures Run(actions + [a]) == Step(Run(actions), a)
  {
    assert (actions + [a])[..|actions|] == actions;
  }

  // ----- what the deployment has to provide

  predicate InCritical(task: Task) {
    task.alive && task.phase != Queued && task.phase != Loaded && task.phase != Ended
  }

  /** Every critical section is still within the time to live of the lock it took. */
  predicate Timely(s: State) {
    forall t :: 0 <= t < |s.tasks| && InCritical(s.tasks[t]) ==> s.now < s.tasks[t].lockedAt + LOCK_TTL
  }

  /** Taking the lock, the task would find its refund finished since it read it. */
  predicate StaleEntry(s: State, a: Action) {
    && a.Work? && a.worker.LockAct?
    && TaskAt(s, a.t, Loaded)
    && !Live(s.locks, PaymentOf(s, a.t), s.now)
    && R.Terminal(s.refunds[s.tasks[a.t].refund].status)
  }

  /** No critical section outlives its lock and no task enters on a stale read. */
  predicate Disciplined(actions: seq<Action>) {
    actions == [] ||
    var prefix := actions[..|actions| - 1];
    && Disciplined(prefix)
    && !StaleEntry(Run(prefix), actions[|actions| - 1])
    && Timely(Run(actions))
  }
}
