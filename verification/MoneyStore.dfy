/**
The services in the form the code has them: tables and cache as mutable fields, statements in the order the
code runs them. Each method is proved equal to the action of the transition system it implements.
 */
module MoneyStore {
  import opened Prelude
  import opened TtlCache
  import opened Engine
  import opened Wallets
  import opened Turns
  import opened OrderExpiry
  import O = Orders
  import P = Payments
  import R = Refunds

  datatype TaskResult = Skipped | Succeeded | GatewayDeclined | GaveUp | RetryRaised | HandlerRaised

  datatype Answer = Refunded | Declined | Exception

  /**
  What goes wrong in one execution: how many of the three writes of each update_refund_status succeed before one
  raises (three or more: none raises), what the gateway answers, and whether the atomic block, the dead letter or the
  publishing of the retry raises.
   */
  datatype Faults = Faults(
    begin: nat, answer: Answer, block: bool, decline: nat, giveUp: nat, letter: bool, publish: bool)

  // ----- one execution of the task with nothing in between

  function UpdateActs(written: nat): seq<WorkerAction> {
    if written == 0 then [RaiseAct]
    else if written == 1 then [SaveAct, RaiseAct]
    else if written == 2 then [SaveAct, LogAct, RaiseAct]
    else [SaveAct, LogAct, NotifyAct]
  }

  function CallActs(f: Faults): seq<WorkerAction> {
    match f.answer
    case Exception => [RaiseAct]
    case Refunded => [CallAct(true), if f.block then RaiseAct else CommitAct]
    case Declined => [CallAct(false)] + UpdateActs(f.decline)
  }

  function TryActs(f: Faults): seq<WorkerAction> {
    if f.begin < 3 then UpdateActs(f.begin) else UpdateActs(f.begin) + CallActs(f)
  }

  function HandlerActs(retries: nat, f: Faults): seq<WorkerAction> {
    if retries < MAX_RETRIES then [if f.publish then RaiseAct else HandleAct]
    else if f.giveUp < 3 then [HandleAct] + UpdateActs(f.giveUp)
    else [HandleAct] + UpdateActs(f.giveUp) + [if f.letter then RaiseAct else DeadLetterAct]
  }

  function LockedActs(retries: nat, f: Faults): seq<WorkerAction> {
    TryActs(f) + HandlerActs(retries, f) + [ReleaseAct]
  }

  function TaskActs(retries: nat, f: Faults): seq<WorkerAction> {
    [StartAct, LockAct] + LockedActs(retries, f)
  }

  /** A task that has returned does nothing more. */
  lemma {:induction false} DeadIdles(s: State, t: nat, acts: seq<WorkerAction>)
    requires t < |s.tasks| && !s.tasks[t].alive
    ensures WorkInTurn(s, t, acts) == s
    decreases |acts|
  {
    if acts != [] {
      DeadIdles(s, t, acts[1..]);
    }
  }

  /** A task on its way to `finally` skips the handler. */
  lemma {:induction false} LeavingIdles(s: State, t: nat, acts: seq<WorkerAction>)
    requires TaskAt(s, t, Leaving)
    requires forall i :: 0 <= i < |acts| ==> !acts[i].ReleaseAct? && !acts[i].CrashAct?
    ensures WorkInTurn(s, t, acts) == s
    decreases |acts|
  {
    if acts != [] {
      LeavingStays(s, t, acts[0]);
      LeavingIdles(s, t, acts[1..]);
    }
  }

  lemma LeavingStays(s: State, t: nat, a: WorkerAction)
    requires TaskAt(s, t, Leaving) && !a.ReleaseAct? && !a.CrashAct?
    ensures WorkerStep(s, t, a) == s
  {
    assert s.tasks[t := s.tasks[t]] == s.tasks;
  }

  /** What a service returns for the engine's verdict: its own value, or the very error. */
  function Verdict<T>(r: Result<State, Error>, value: T): Result<T, Error> {
    match r
    case Ok(_) => Ok(value)
    case Err(e) => Err(e)
  }

  // ----- order updates whose check and save have nothing in between

  /** All saves an update still has, one after another. */
  function SaveAll(s: State, u: nat): State
    decreases if u < |s.updates| then |s.updates[u].orders| else 0
  {
    if !ReadyToSave(s, u) then s else SaveAll(SaveOrder(s, u), u)
  }

  function MovedAtOnce(s: State, merchant: nat, order: nat, status: O.OrderStatus): State {
    match MoveOrder(s, merchant, order, status)
    case Err(_) => s
    case Ok(s') => SaveOrder(s', |s.updates|)
  }

  lemma SaveDecided(s: State, order: nat, status: O.OrderStatus)
    requires order < |s.orders|
    ensures SaveOrder(Decide(s, [order], status), |s.updates|)
         == SetOrder(s, order, status).(updates := s.updates + [Update([], status)])
  {
    assert [order][1..] == [];
    assert Decide(s, [order], status).updates[|s.updates| := Update([], status)] == s.updates + [Update([], status)];
  }

  /** Every order of an update gets its status once, and no other order is touched. */
  lemma {:induction false} SaveAllSets(s: State, u: nat)
    requires u < |s.updates|
    requires forall i, j :: 0 <= i < j < |s.updates[u].orders| ==> s.updates[u].orders[i] < s.updates[u].orders[j]
    requires forall i :: 0 <= i < |s.updates[u].orders| ==> s.updates[u].orders[i] < |s.orders|
    ensures
      var ids, status := s.updates[u].orders, s.updates[u].status;
      && |SaveAll(s, u).orders| == |s.orders|
      && (forall o: nat :: o < |s.orders| ==>
            SaveAll(s, u).orders[o] == if o in ids then O.WithStatus(s.orders[o], status) else s.orders[o])
    decreases |s.updates[u].orders|
  {
    if s.updates[u].orders != [] {
      var ids := s.updates[u].orders;
      SaveAllSets(SaveOrder(s, u), u);
      assert forall o: nat :: o in ids <==> o == ids[0] || o in ids[1..];
    }
  }

  /** A sweep with nothing in between expires exactly the due orders. */
  lemma SweepExpires(s: State)
    ensures
      var after := SaveAll(Sweep(s), |s.updates|).orders;
      && |after| == |s.orders|
      && (forall o: nat :: o < |s.orders| ==>
            after[o] == if s.orders[o].status == O.Pending && s.orders[o].expiresAt <= s.now
                        then s.orders[o].(status := O.Expired, events := s.orders[o].events + [O.OrderEvent(O.OrderExpired, O.Expired)])
                        else s.orders[o])
  {
    DueInTime(s.orders, s.now);
    var due := DueOrders(s.orders, s.now);
    assert forall i :: 0 <= i < |due| ==> due[i] in due;
    SaveAllSets(Sweep(s), |s.updates|);
  }

  function Members(ids: seq<nat>): (members: set<nat>)
    ensures forall o :: o in members <==> o in ids
  {
    if ids == [] then {} else Members(ids[..|ids| - 1]) + {ids[|ids| - 1]}
  }

  /** A list without repetition has as many entries as members. */
  lemma {:induction false} IncreasingCount(ids: seq<nat>)
    requires forall i, j :: 0 <= i < j < |ids| ==> ids[i] < ids[j]
    ensures |ids| == |Members(ids)|
  {
    if ids != [] {
      IncreasingCount(ids[..|ids| - 1]);
      assert ids[|ids| - 1] !in Members(ids[..|ids| - 1]);
    }
  }

  /** The query finds as many orders as there are due ones. */
  lemma DueCount(orders: seq<O.Order>, now: int)
    ensures |DueOrders(orders, now)| == |set o | 0 <= o < |orders| && orders[o].status == O.Pending && orders[o].expiresAt <= now|
  {
    var due := DueOrders(orders, now);
    DueInTime(orders, now);
    IncreasingCount(due);
    assert Members(due) == set o | 0 <= o < |orders| && orders[o].status == O.Pending && orders[o].expiresAt <= now;
  }

  /** A new message for a refund that is PROCESSING. */
  predicate Rescues(task: Task, refunds: seq<R.Refund>) {
    && task == Task(task.refund, 0, Queued, true, 0, R.NoFailure, false)
    && task.refund < |refunds| && refunds[task.refund].status == R.Processing
  }

  /** The sweep's messages: one for each PROCESSING refund, in order. */
  lemma {:induction false} StuckIsExact(refunds: seq<R.Refund>)
    ensures forall k :: 0 <= k < |Stuck(refunds)| ==> Rescues(Stuck(refunds)[k], refunds)
    ensures forall j, k :: 0 <= j < k < |Stuck(refunds)| ==> Stuck(refunds)[j].refund < Stuck(refunds)[k].refund
  {
    if refunds != [] {
      var n := |refunds| - 1;
      var before := Stuck(refunds[..n]);
      StuckIsExact(refunds[..n]);
      assert forall k :: 0 <= k < |before| ==> Rescues(before[k], refunds[..n]);
    }
  }

  lemma {:induction false} StuckIsComplete(refunds: seq<R.Refund>, r: nat)
    requires r < |refunds| && refunds[r].status == R.Processing
    ensures exists k :: 0 <= k < |Stuck(refunds)| && Stuck(refunds)[k].refund == r
  {
    var n := |refunds| - 1;
    var before := Stuck(refunds[..n]);
    if r < n {
      StuckIsComplete(refunds[..n], r);
      var k :| 0 <= k < |before| && before[k].refund == r;
      assert Stuck(refunds)[k] == before[k];
    } else {
      assert Stuck(refunds)[|before|].refund == r;
    }
  }

  // ----- what an accepted payment leaves behind

  /** The wallet exists, is active and covers the amount. */
  predicate Covers(wallets: seq<Wallet>, wallet: Option<nat>, amount: int) {
    wallet.Some? && wallet.value < |wallets| && wallets[wallet.value].status == Active && 0 < amount <= wallets[wallet.value].balance
  }

  /** One more payment row with its entry and event. */
  predicate PaymentRecorded(s: State, s': State, merchant: nat, order: nat, amount: int, gateway: P.Gateway, wallet: Option<nat>) {
    && |s'.payments| == |s.payments| + 1 && s'.payments[..|s.payments|] == s.payments
    && var p := s'.payments[|s.payments|];
    && var linked := if wallet.Some? && wallet.value < |s.wallets| then wallet else None;
    && p == P.Payment(order, merchant, amount, gateway, linked, p.status, p.failureCode,
                      [P.PaymentEntry(P.PaymentCreated, amount, p.status)], [P.PaymentCreated])
    && p.failureCode == (if p.status != P.Failed then P.NoFailure else if wallet.None? then P.MissingWalletId else P.WalletDebitFailed)
  }

  /** The new payment's status and the wallet's debit, by gateway. */
  predicate ChargedPerGateway(s: State, s': State, status: P.PaymentStatus, amount: int, gateway: P.Gateway, wallet: Option<nat>) {
    match gateway
    case Dummy => status == P.Captured && s'.wallets == s.wallets
    case Cod => status == P.Captured && s'.wallets == s.wallets
    case Stripe => status == P.Authorized && s'.wallets == s.wallets
    case Razorpay => status == P.Created && s'.wallets == s.wallets
    case WalletGateway =>
      if !Covers(s.wallets, wallet, amount) then status == P.Failed && s'.wallets == s.wallets
      else
        var w := s.wallets[wallet.value];
        && status == P.Captured
        && s'.wallets == s.wallets[wallet.value := Wallet(w.balance - amount, Active,
             w.ledger + [Txn(Debit, amount, w.balance, w.balance - amount, ForPayment(|s.payments|))])]
  }

  /** A captured payment makes its order PAID, an authorized one PROCESSING, and any other leaves it. */
  predicate OrderSynced(orders: seq<O.Order>, orders': seq<O.Order>, order: nat, status: P.PaymentStatus)
    requires order < |orders|
  {
    var o := orders[order];
    orders' == if status == P.Captured
               then orders[order := o.(status := O.Paid, events := o.events + [O.OrderEvent(O.OrderPaid, O.Paid)])]
               else if status == P.Authorized
               then orders[order := o.(status := O.Processing, events := o.events + [O.OrderEvent(O.OrderUpdated, O.Processing)])]
               else orders
  }

  class Database {
    var now: int
    var orders: seq<O.Order>
    var updates: seq<Update>
    var payments: seq<P.Payment>
    var refunds: seq<R.Refund>
    var wallets: seq<Wallet>
    var tasks: seq<Task>
    var locks: Cache<nat, LockMark>

    ghost function Model(): State
      reads this
    {
      State(now, orders, updates, payments, refunds, wallets, tasks, locks)
    }

    constructor ()
      ensures Model() == INITIAL
    {
      now, orders, updates, payments, refunds, wallets, tasks, locks := 0, [], [], [], [], [], [], map[];
    }

    // ----- orders

    method UpdateOrderStatus(order: nat, status: O.OrderStatus)
      requires order < |orders|
      modifies `orders
      ensures Model() == SetOrder(old(Model()), order, status)
      ensures
        var row := old(orders)[order];
        var kind := if status == O.Cancelled then O.OrderCancelled else if status == O.Expired then O.OrderExpired
                    else if status == O.Paid then O.OrderPaid else O.OrderUpdated;
        orders == old(orders)[order := row.(status := status, events := row.events + [O.OrderEvent(kind, status)])]
    {
      var row := orders[order].(status := status);
      var kind := O.OrderUpdated;
      if status == O.Cancelled {
        kind := O.OrderCancelled;
      } else if status == O.Expired {
        kind := O.OrderExpired;
      } else if status == O.Paid {
        kind := O.OrderPaid;
      }
      orders := orders[order := row.(events := row.events + [O.OrderEvent(kind, status)])];
    }

    /** `customerFound` is what the lookup of the named customer gives, true when none is named. */
    method CreateOrder(merchant: nat, amount: int, expiresAt: Option<int>, customerFound: bool) returns (r: Result<nat, Error>)
      modifies `orders
      ensures Model() == if customerFound then OrderStep(old(Model()), CreateOrderAct(merchant, amount, expiresAt)) else old(Model())
      ensures r == if amount <= 0 then Err(Error.InvalidAmount) else if !customerFound then Err(CustomerNotFound) else Ok(old(|orders|))
      ensures r.Err? ==> orders == old(orders)
      ensures r.Ok? ==>
        var expiry := if expiresAt.Some? then expiresAt.value else now + 1800;
        orders == old(orders) + [O.Order(merchant, amount, O.Pending, expiry, [O.OrderEvent(O.OrderCreated, O.Pending)])]
    {
      if amount <= 0 {
        return Err(Error.InvalidAmount);
      }
      if !customerFound {
        return Err(CustomerNotFound);
      }
      var expiry := now + O.PENDING_TTL;
      if expiresAt.Some? {
        expiry := expiresAt.value;
      }
      r := Ok(|orders|);
      orders := orders + [O.NewOrder(merchant, amount, expiry)];
    }

    method CancelOrder(merchant: nat, order: nat) returns (r: Result<O.OrderStatus, Error>)
      modifies `orders, `updates
      ensures Model() == MovedAtOnce(old(Model()), merchant, order, O.Cancelled)
      ensures r == Verdict(MoveOrder(old(Model()), merchant, order, O.Cancelled), O.Cancelled)
      ensures r == if order >= |old(orders)| || old(orders)[order].merchant != merchant then Err(OrderNotFound)
                   else if old(orders)[order].status in {O.Paid, O.Expired, O.Refunded} then Err(InvalidTransition)
                   else Ok(O.Cancelled)
      ensures orders == if r.Err? then old(orders) else old(orders)[order :=
        old(orders)[order].(status := O.Cancelled, events := old(orders)[order].events + [O.OrderEvent(O.OrderCancelled, O.Cancelled)])]
    {
      if !(order < |orders| && orders[order].merchant == merchant) {
        return Err(OrderNotFound);
      }
      if !O.Validates(orders[order].status, O.Cancelled) {
        return Err(InvalidTransition);
      }
      SaveDecided(Model(), order, O.Cancelled);
      updates := updates + [Update([], O.Cancelled)];
      UpdateOrderStatus(order, O.Cancelled);
      r := Ok(O.Cancelled);
    }

    method ExpireOrder(merchant: nat, order: nat) returns (r: Result<O.OrderStatus, Error>)
      modifies `orders, `updates
      ensures Model() == MovedAtOnce(old(Model()), merchant, order, O.Expired)
      ensures r == Verdict(MoveOrder(old(Model()), merchant, order, O.Expired), O.Expired)
      ensures r == if order >= |old(orders)| || old(orders)[order].merchant != merchant then Err(OrderNotFound)
                   else if old(orders)[order].status !in {O.Pending, O.Expired} then Err(InvalidTransition)
                   else Ok(O.Expired)
      ensures orders == if r.Err? then old(orders) else old(orders)[order :=
        old(orders)[order].(status := O.Expired, events := old(orders)[order].events + [O.OrderEvent(O.OrderExpired, O.Expired)])]
    {
      if !(order < |orders| && orders[order].merchant == merchant) {
        return Err(OrderNotFound);
      }
      if !O.Validates(orders[order].status, O.Expired) {
        return Err(InvalidTransition);
      }
      SaveDecided(Model(), order, O.Expired);
      updates := updates + [Update([], O.Expired)];
      UpdateOrderStatus(order, O.Expired);
      r := Ok(O.Expired);
    }

    /** The query of the auto-expire task. */
    method FindDue() returns (due: seq<nat>)
      ensures due == DueOrders(orders, now)
      ensures forall i, j :: 0 <= i < j < |due| ==> due[i] < due[j]
      ensures forall o: nat :: o in due <==> o < |orders| && orders[o].status == O.Pending && orders[o].expiresAt <= now
    {
      DueInTime(orders, now);
      due := [];
      var i := 0;
      while i < |orders|
        invariant 0 <= i <= |orders|
        invariant due == DueOrders(orders[..i], now)
      {
        assert orders[..i + 1][..i] == orders[..i];
        if orders[i].status == O.Pending && orders[i].expiresAt <= now {
          due := due + [i];
        }
        i := i + 1;
      }
      assert orders[..i] == orders;
    }

    method SaveNext(u: nat)
      requires ReadyToSave(Model(), u)
      modifies `orders, `updates
      ensures Model() == SaveOrder(old(Model()), u)
    {
      var update := updates[u];
      updates := updates[u := update.(orders := update.orders[1..])];
      UpdateOrderStatus(update.orders[0], update.status);
    }

    /** auto_expire_pending_orders_task with nothing in between: every due order, and only those, one row at a time. */
    method AutoExpirePendingOrders() returns (count: nat)
      modifies `orders, `updates
      ensures Model() == SaveAll(Sweep(old(Model())), old(|updates|))
      ensures |orders| == old(|orders|) && forall o :: 0 <= o < |orders| ==>
        var was := old(orders)[o];
        orders[o] == if was.status == O.Pending && was.expiresAt <= now
                     then was.(status := O.Expired, events := was.events + [O.OrderEvent(O.OrderExpired, O.Expired)])
                     else was
      ensures count == |set o | 0 <= o < |old(orders)| && old(orders)[o].status == O.Pending && old(orders)[o].expiresAt <= now|
    {
      SweepExpires(Model());
      DueCount(orders, now);
      var due := FindDue();
      updates := updates + [Update(due, O.Expired)];
      count := SaveEach(|updates| - 1);
    }

    /** The loop over what was found: one save after another. */
    method SaveEach(u: nat) returns (count: nat)
      requires u < |updates| && forall o :: o in updates[u].orders ==> o < |orders|
      modifies `orders, `updates
      ensures Model() == SaveAll(old(Model()), u)
      ensures count == |old(updates)[u].orders|
    {
      var ids := updates[u].orders;
      count := 0;
      while count < |ids|
        invariant 0 <= count <= |ids|
        invariant |orders| == old(|orders|) && u < |updates| && updates[u].orders == ids[count..]
        invariant SaveAll(Model(), u) == SaveAll(old(Model()), u)
      {
        assert ids[count] in ids && ids[count..][1..] == ids[count + 1..];
        SaveNext(u);
        count := count + 1;
      }
    }

    // ----- wallets

    method CreditWallet(wallet: nat, amount: int, reference: Reference) returns (r: Result<Txn, WalletError>)
      modifies `wallets
      ensures Model() == OrSame(old(Model()), Engine.CreditWallet(old(Model()), wallet, amount, reference))
      ensures Verdict(Engine.CreditWallet(old(Model()), wallet, amount, reference), ()) == if r.Ok? then Ok(()) else Err(WalletFailure(r.error))
      ensures r == if amount <= 0 then Err(WalletError.InvalidAmount)
                   else if wallet >= |old(wallets)| then Err(WalletNotFound)
                   else if old(wallets)[wallet].status != Active then Err(WalletNotActive)
                   else Ok(Txn(Credit, amount, old(wallets)[wallet].balance, old(wallets)[wallet].balance + amount, reference))
      ensures wallets == if r.Err? then old(wallets) else old(wallets)[wallet :=
        Wallet(old(wallets)[wallet].balance + amount, Active, old(wallets)[wallet].ledger + [r.value])]
    {
      if amount <= 0 {
        return Err(WalletError.InvalidAmount);
      }
      if wallet >= |wallets| {
        return Err(WalletNotFound);
      }
      var row := wallets[wallet];
      if row.status != Active {
        return Err(WalletNotActive);
      }
      var before := row.balance;
      var after := before + amount;
      row := row.(balance := after);
      var txn := Txn(Credit, amount, before, after, reference);
      wallets := wallets[wallet := row.(ledger := row.ledger + [txn])];
      r := Ok(txn);
    }

    method DebitWallet(wallet: nat, amount: int, reference: Reference) returns (r: Result<Txn, WalletError>)
      modifies `wallets
      ensures Model() == OrSame(old(Model()), Engine.DebitWallet(old(Model()), wallet, amount, reference))
      ensures Verdict(Engine.DebitWallet(old(Model()), wallet, amount, reference), ()) == if r.Ok? then Ok(()) else Err(WalletFailure(r.error))
      ensures r == if amount <= 0 then Err(WalletError.InvalidAmount)
                   else if wallet >= |old(wallets)| then Err(WalletNotFound)
                   else if old(wallets)[wallet].status != Active then Err(WalletNotActive)
                   else if old(wallets)[wallet].balance < amount then Err(InsufficientBalance)
                   else Ok(Txn(Debit, amount, old(wallets)[wallet].balance, old(wallets)[wallet].balance - amount, reference))
      ensures wallets == if r.Err? then old(wallets) else old(wallets)[wallet :=
        Wallet(old(wallets)[wallet].balance - amount, Active, old(wallets)[wallet].ledger + [r.value])]
    {
      if amount <= 0 {
        return Err(WalletError.InvalidAmount);
      }
      if wallet >= |wallets| {
        return Err(WalletNotFound);
      }
      var row := wallets[wallet];
      if row.status != Active {
        return Err(WalletNotActive);
      }
      if row.balance < amount {
        return Err(InsufficientBalance);
      }
      var before := row.balance;
      var after := before - amount;
      row := row.(balance := after);
      var txn := Txn(Debit, amount, before, after, reference);
      wallets := wallets[wallet := row.(ledger := row.ledger + [txn])];
      r := Ok(txn);
    }

    method FreezeWallet(wallet: nat) returns (r: Result<WalletStatus, WalletError>)
      modifies `wallets
      ensures Model() == WalletStep(old(Model()), FreezeAct(wallet))
      ensures r == if wallet < |old(wallets)| then Ok(Frozen) else Err(WalletNotFound)
      ensures wallets == if r.Err? then old(wallets) else old(wallets)[wallet := old(wallets)[wallet].(status := Frozen)]
    {
      if wallet >= |wallets| {
        return Err(WalletNotFound);
      }
      wallets := wallets[wallet := wallets[wallet].(status := Frozen)];
      r := Ok(Frozen);
    }

    method UnfreezeWallet(wallet: nat) returns (r: Result<WalletStatus, WalletError>)
      modifies `wallets
      ensures Model() == WalletStep(old(Model()), UnfreezeAct(wallet))
      ensures r == if wallet < |old(wallets)| then Ok(Active) else Err(WalletNotFound)
      ensures wallets == if r.Err? then old(wallets) else old(wallets)[wallet := old(wallets)[wallet].(status := Active)]
    {
      if wallet >= |wallets| {
        return Err(WalletNotFound);
      }
      wallets := wallets[wallet := wallets[wallet].(status := Active)];
      r := Ok(Active);
    }

    // ----- payments

    method CallGateway(gateway: P.Gateway, wallet: Option<nat>, amount: int, reference: Reference) returns (status: P.PaymentStatus)
      modifies `wallets
      ensures (Model(), status) == GatewayCreate(old(Model()), gateway, wallet, amount, reference)
      ensures reference == ForPayment(|payments|) ==> ChargedPerGateway(old(Model()), Model(), status, amount, gateway, wallet)
    {
      match gateway
      case Dummy => status := P.Captured;
      case Cod => status := P.Captured;
      case Stripe => status := P.Authorized;
      case Razorpay => status := P.Created;
      case WalletGateway =>
        if wallet.None? {
          status := P.Failed;
        } else {
          var debited := DebitWallet(wallet.value, amount, reference);
          status := if debited.Ok? then P.Captured else P.Failed;
        }
    }

    method CreatePayment(merchant: nat, order: nat, amount: int, gateway: P.Gateway, wallet: Option<nat>) returns (r: Result<nat, Error>)
      modifies `orders, `payments, `wallets
      ensures Model() == PaymentStep(old(Model()), CreatePaymentAct(merchant, order, amount, gateway, wallet))
      ensures r == Verdict(Engine.CreatePayment(old(Model()), merchant, order, amount, gateway, wallet), old(|payments|))
      ensures r == if order >= |old(orders)| || old(orders)[order].merchant != merchant then Err(OrderNotFound)
                   else if old(orders)[order].status !in {O.Pending, O.Processing, O.Draft} then Err(InvalidOrderStatus)
                   else if amount != old(orders)[order].amount then Err(AmountMismatch)
                   else Ok(|old(payments)|)
      ensures r.Err? ==> payments == old(payments) && orders == old(orders) && wallets == old(wallets)
      ensures r.Ok? ==>
        && PaymentRecorded(old(Model()), Model(), merchant, order, amount, gateway, wallet)
        && ChargedPerGateway(old(Model()), Model(), payments[|old(payments)|].status, amount, gateway, wallet)
        && OrderSynced(old(orders), orders, order, payments[|old(payments)|].status)
    {
      if !(order < |orders| && orders[order].merchant == merchant) {
        return Err(OrderNotFound);
      }
      if orders[order].status !in {O.Pending, O.Processing, O.Draft} {
        return Err(InvalidOrderStatus);
      }
      if amount != orders[order].amount {
        return Err(AmountMismatch);
      }
      r := Ok(|payments|);
      MakePayment(merchant, order, amount, gateway, wallet);
    }

    /** The gateway call and what it leads to, for a request that passed the checks. */
    method MakePayment(merchant: nat, order: nat, amount: int, gateway: P.Gateway, wallet: Option<nat>)
      requires CheckNewPayment(Model(), merchant, order, amount).None?
      modifies `orders, `payments, `wallets
      ensures Model() == PaymentStep(old(Model()), CreatePaymentAct(merchant, order, amount, gateway, wallet))
      ensures PaymentRecorded(old(Model()), Model(), merchant, order, amount, gateway, wallet)
      ensures ChargedPerGateway(old(Model()), Model(), payments[|old(payments)|].status, amount, gateway, wallet)
      ensures OrderSynced(old(orders), orders, order, payments[|old(payments)|].status)
    {
      var status := CallGateway(gateway, wallet, amount, ForPayment(|payments|));
      var linked := if wallet.Some? && wallet.value < |wallets| then wallet else None;
      RecordPayment(P.WithFailure(P.NewPayment(order, merchant, amount, gateway, linked, status), wallet));
    }

    /** The atomic block: the payment row and the order status that goes with it. */
    method RecordPayment(row: P.Payment)
      requires row.order < |orders|
      modifies `orders, `payments
      ensures Model() == SyncOrder(old(Model()).(payments := old(payments) + [row]), row.order, row.status)
      ensures OrderSynced(old(orders), orders, row.order, row.status)
    {
      payments := payments + [row];
      if row.status == P.Captured {
        UpdateOrderStatus(row.order, O.Paid);
      } else if row.status == P.Authorized {
        UpdateOrderStatus(row.order, O.Processing);
      }
    }

    method UpdatePaymentStatus(payment: nat, status: P.PaymentStatus, action: P.PaymentAction)
      requires payment < |payments|
      modifies `payments
      ensures Model() == SetPayment(old(Model()), payment, status, action)
      ensures
        var p := old(payments)[payment];
        payments == old(payments)[payment := p.(
          status := status, ledger := p.ledger + [P.PaymentEntry(action, p.amount, status)], events := p.events + [action])]
    {
      var row := payments[payment].(status := status);
      row := row.(ledger := row.ledger + [P.PaymentEntry(action, row.amount, status)]);
      payments := payments[payment := row.(events := row.events + [action])];
    }

    method CapturePayment(merchant: nat, payment: nat, gatewayOk: bool) returns (r: Result<P.PaymentStatus, Error>)
      modifies `orders, `payments
      ensures Model() == PaymentStep(old(Model()), CaptureAct(merchant, payment, gatewayOk))
      ensures r == Verdict(Engine.CapturePayment(old(Model()), merchant, payment, gatewayOk), P.Captured)
      ensures r == if payment >= |old(payments)| || old(payments)[payment].merchant != merchant || old(payments)[payment].order >= |old(orders)|
                   then Err(PaymentNotFound)
                   else if old(payments)[payment].status !in {P.Created, P.Authorized, P.Captured} then Err(InvalidTransition)
                   else if !gatewayOk then Err(GatewayCaptureFailed)
                   else Ok(P.Captured)
      ensures r.Err? ==> payments == old(payments) && orders == old(orders)
      ensures r.Ok? ==>
        var p, o := old(payments)[payment], old(orders)[old(payments)[payment].order];
        && payments == old(payments)[payment := p.(status := P.Captured,
             ledger := p.ledger + [P.PaymentEntry(P.PaymentCaptured, p.amount, P.Captured)], events := p.events + [P.PaymentCaptured])]
        && orders == old(orders)[p.order := o.(status := O.Paid, events := o.events + [O.OrderEvent(O.OrderPaid, O.Paid)])]
    {
      if !(payment < |payments| && payments[payment].merchant == merchant && payments[payment].order < |orders|) {
        return Err(PaymentNotFound);
      }
      if !P.Validates(payments[payment].status, P.Captured) {
        return Err(InvalidTransition);
      }
      if !gatewayOk {
        return Err(GatewayCaptureFailed);
      }
      UpdatePaymentStatus(payment, P.Captured, P.PaymentCaptured);
      UpdateOrderStatus(payments[payment].order, O.Paid);
      r := Ok(P.Captured);
    }

    method VoidPayment(merchant: nat, payment: nat) returns (r: Result<P.PaymentStatus, Error>)
      modifies `orders, `payments
      ensures Model() == PaymentStep(old(Model()), VoidAct(merchant, payment))
      ensures r == Verdict(Engine.VoidPayment(old(Model()), merchant, payment), P.Voided)
      ensures r == if payment >= |old(payments)| || old(payments)[payment].merchant != merchant || old(payments)[payment].order >= |old(orders)|
                   then Err(PaymentNotFound)
                   else if old(payments)[payment].status !in {P.Authorized, P.Voided} then Err(InvalidTransition)
                   else Ok(P.Voided)
      ensures r.Err? ==> payments == old(payments) && orders == old(orders)
      ensures r.Ok? ==>
        var p, o := old(payments)[payment], old(orders)[old(payments)[payment].order];
        && payments == old(payments)[payment := p.(status := P.Voided,
             ledger := p.ledger + [P.PaymentEntry(P.PaymentVoided, p.amount, P.Voided)], events := p.events + [P.PaymentVoided])]
        && orders == old(orders)[p.order := o.(status := O.Cancelled, events := o.events + [O.OrderEvent(O.OrderCancelled, O.Cancelled)])]
    {
      if !(payment < |payments| && payments[payment].merchant == merchant && payments[payment].order < |orders|) {
        return Err(PaymentNotFound);
      }
      if !P.Validates(payments[payment].status, P.Voided) {
        return Err(InvalidTransition);
      }
      UpdatePaymentStatus(payment, P.Voided, P.PaymentVoided);
      UpdateOrderStatus(payments[payment].order, O.Cancelled);
      r := Ok(P.Voided);
    }

    // ----- refunds

    /** get_total_refunded_amount_for_payment as the database computes it. */
    method TotalRefunded(payment: nat) returns (total: int)
      ensures total == R.Reserved(refunds, payment)
    {
      total := 0;
      var i := 0;
      while i < |refunds|
        invariant 0 <= i <= |refunds|
        invariant total == R.Reserved(refunds[..i], payment)
      {
        if refunds[i].payment == payment && refunds[i].status in {R.Created, R.Processing, R.Success} {
          total := total + refunds[i].amount;
        }
        assert refunds[..i + 1][..i] == refunds[..i];
        i := i + 1;
      }
      assert refunds[..i] == refunds;
    }

    method CreateRefund(merchant: nat, payment: nat, amount: int) returns (r: Result<nat, Error>)
      modifies `refunds, `tasks
      ensures Model() == RefundStep(old(Model()), CreateRefundAct(merchant, payment, amount))
      ensures r == Verdict(Engine.CreateRefund(old(Model()), merchant, payment, amount), old(|refunds|))
      ensures r == if payment >= |payments| || payments[payment].merchant != merchant || payments[payment].order >= |orders|
                   then Err(PaymentNotFound)
                   else if payments[payment].status !in {P.Captured, P.Settled, P.PartiallyRefunded} then Err(PaymentNotCaptured)
                   else if amount <= 0 then Err(Error.InvalidAmount)
                   else if amount + R.Total(old(refunds), payment, {R.Created, R.Processing, R.Success}) > payments[payment].amount
                   then Err(RefundAmountExceeded)
                   else Ok(|old(refunds)|)
      ensures r.Err? ==> refunds == old(refunds) && tasks == old(tasks)
      ensures r.Ok? ==>
        && refunds == old(refunds) + [R.Refund(payment, merchant, amount, R.Created, R.NoFailure, false,
                                               [R.RefundEntry(R.RefundCreated, amount, R.Created)], [R.Created], [], 0)]
        && tasks == old(tasks) + [Task(|old(refunds)|, 0, Queued, true, 0, R.NoFailure, false)]
    {
      R.NewRefundIs(payment, merchant, amount);
      if !(payment < |payments| && payments[payment].merchant == merchant && payments[payment].order < |orders|) {
        return Err(PaymentNotFound);
      }
      if payments[payment].status !in {P.Captured, P.Settled, P.PartiallyRefunded} {
        return Err(PaymentNotCaptured);
      }
      if amount <= 0 {
        return Err(Error.InvalidAmount);
      }
      var already := TotalRefunded(payment);
      var available := payments[payment].amount - already;
      if amount > available {
        return Err(RefundAmountExceeded);
      }
      r := Ok(|refunds|);
      tasks := tasks + [NewTask(|refunds|, 0)];
      refunds := refunds + [R.NewRefund(payment, merchant, amount)];
    }

    method ReconcileRefunds() returns (count: nat)
      modifies `tasks
      ensures Model() == Reconcile(old(Model()))
      ensures count == |Stuck(refunds)|
      ensures |tasks| == |old(tasks)| + count && tasks[..|old(tasks)|] == old(tasks)
      ensures forall k :: |old(tasks)| <= k < |tasks| ==> Rescues(tasks[k], refunds)
      ensures forall j, k :: |old(tasks)| <= j < k < |tasks| ==> tasks[j].refund < tasks[k].refund
      ensures forall r: nat :: r < |refunds| && refunds[r].status == R.Processing ==>
        exists k :: |old(tasks)| <= k < |tasks| && tasks[k].refund == r
    {
      StuckIsExact(refunds);
      count := 0;
      var i := 0;
      while i < |refunds|
        invariant 0 <= i <= |refunds|
        invariant tasks == old(tasks) + Stuck(refunds[..i])
        invariant count == |Stuck(refunds[..i])|
      {
        assert refunds[..i + 1][..i] == refunds[..i];
        if refunds[i].status == R.Processing {
          tasks := tasks + [NewTask(i, 0)];
          count := count + 1;
        }
        i := i + 1;
      }
      assert refunds[..i] == refunds;
      forall r: nat | r < |refunds| && refunds[r].status == R.Processing
        ensures exists k :: |old(tasks)| <= k < |tasks| && tasks[k].refund == r
      {
        StuckIsComplete(refunds, r);
        var k :| 0 <= k < |Stuck(refunds)| && Stuck(refunds)[k].refund == r;
        assert tasks[|old(tasks)| + k] == Stuck(refunds)[k];
      }
    }

    method AcquireLock(payment: nat) returns (acquired: bool)
      modifies `locks
      ensures acquired == !Live(old(locks), payment, now)
      ensures locks == Add(old(locks), payment, LockMark, LOCK_TTL, now)
      ensures acquired == (payment !in old(locks) || old(locks)[payment].expiry <= now)
      ensures locks == if acquired then old(locks)[payment := Entry(LockMark, now + 30)] else old(locks)
    {
      if payment in locks && now < locks[payment].expiry {
        return false;
      }
      locks := locks[payment := Entry(LockMark, now + LOCK_TTL)];
      acquired := true;
    }

    method Retry(task: Task)
      modifies `tasks
      ensures Model() == Requeue(old(Model()), task)
      ensures tasks == if task.retries < 3 then old(tasks) + [Task(task.refund, task.retries + 1, Queued, true, 0, R.NoFailure, false)] else old(tasks)
    {
      if task.retries < MAX_RETRIES {
        tasks := tasks + [NewTask(task.refund, task.retries + 1)];
      }
    }

    method SetPhase(t: nat, phase: Phase)
      requires t < |tasks|
      modifies `tasks
      ensures Model() == WithTask(old(Model()), t, old(tasks)[t].(phase := phase))
    {
      tasks := tasks[t := tasks[t].(phase := phase)];
    }

    method SaveRefund(t: nat)
      requires AtSaving(Model(), t)
      modifies `refunds, `tasks
      ensures Model() == SaveStatus(old(Model()), t)
    {
      var site, refund := tasks[t].phase.site, tasks[t].refund;
      refunds := refunds[refund := R.SaveRow(refunds[refund], SiteStatus(site), tasks[t].code, tasks[t].ref)];
      SetPhase(t, Logging(site));
    }

    method LogRefund(t: nat)
      requires AtLogging(Model(), t)
      modifies `refunds, `tasks
      ensures Model() == LogStatus(old(Model()), t)
    {
      var site, refund := tasks[t].phase.site, tasks[t].refund;
      refunds := refunds[refund := R.LogRow(refunds[refund], SiteStatus(site))];
      SetPhase(t, Notifying(site));
    }

    method NotifyRefund(t: nat)
      requires AtNotifying(Model(), t)
      modifies `refunds, `tasks
      ensures Model() == NotifyStatus(old(Model()), t)
    {
      var site, refund := tasks[t].phase.site, tasks[t].refund;
      refunds := refunds[refund := R.NotifyRow(refunds[refund], SiteStatus(site))];
      SetPhase(t, AfterSite(site));
    }

    /** update_refund_status outside a transaction: the row, its ledger entry, its event, or an exception in front of one of them. */
    method UpdateRefundStatus(t: nat, written: nat) returns (ok: bool)
      requires AtSaving(Model(), t)
      modifies `refunds, `tasks
      ensures Model() == WorkInTurn(old(Model()), t, UpdateActs(written))
      ensures ok == (written >= 3)
      ensures UpdateLeaves(Model(), t, old(tasks)[t], ok, written)
      ensures
        var task := old(tasks)[t];
        var r := old(refunds)[task.refund];
        var (status, action) := if task.phase.site == Begin then (R.Processing, R.RefundProcessing) else (R.Failed, R.RefundFailed);
        refunds == if written == 0 then old(refunds) else old(refunds)[task.refund := r.(
          status := status, failureCode := task.code, gatewayRef := task.ref,
          ledger := if written >= 2 then r.ledger + [R.RefundEntry(action, r.amount, status)] else r.ledger,
          events := if written >= 3 then r.events + [status] else r.events)]
    {
      UpdateInTurn(Model(), t, written);
      ok := written >= 3;
      if written >= 1 {
        SaveRefund(t);
      }
      if written >= 2 {
        LogRefund(t);
      }
      if written >= 3 {
        NotifyRefund(t);
      } else {
        SetPhase(t, PhaseAfterRaise(tasks[t].phase));
      }
    }

    /** The atomic block: its writes are undone together when the credit or the database raises. */
    method RecordSuccess(t: nat, fails: bool) returns (committed: bool)
      requires TaskAt(Model(), t, Paid)
      modifies `refunds, `payments, `wallets
      ensures
        var done := CommitSuccess(old(Model()), t);
        && committed == (!fails && done.Some?)
        && Model() == if committed then done.value else old(Model())
      ensures !committed ==> refunds == old(refunds) && payments == old(payments) && wallets == old(wallets)
      ensures committed ==>
        var task := old(tasks)[t];
        var r := old(refunds)[task.refund];
        var p := old(payments)[r.payment];
        && refunds == old(refunds)[task.refund := r.(status := R.Success, failureCode := task.code, gatewayRef := true,
             ledger := r.ledger + [R.RefundEntry(R.RefundSuccess, r.amount, R.Success)], events := r.events + [R.Success])]
        && payments == old(payments)[r.payment := p.(status :=
             if R.Total(refunds, r.payment, {R.Created, R.Processing, R.Success}) >= p.amount then P.FullyRefunded else P.PartiallyRefunded)]
      ensures
        var r := old(refunds)[old(tasks)[t].refund];
        var p := old(payments)[r.payment];
        if p.gateway == P.WalletGateway && p.wallet.Some? then
          && committed == (!fails && r.amount > 0 && p.wallet.value < |old(wallets)| && old(wallets)[p.wallet.value].status == Active)
          && (committed ==>
                var w := old(wallets)[p.wallet.value];
                wallets == old(wallets)[p.wallet.value := Wallet(w.balance + r.amount, Active,
                  w.ledger + [Txn(Credit, r.amount, w.balance, w.balance + r.amount, ForRefund(old(tasks)[t].refund))])])
        else committed == !fails && wallets == old(wallets)
    {
      var savedRefunds, savedPayments, savedWallets := refunds, payments, wallets;
      var task := tasks[t];
      var payment := refunds[task.refund].payment;
      refunds := refunds[task.refund := R.WriteRow(refunds[task.refund], R.Success, task.code, true)];
      committed := CreditBack(payment, refunds[task.refund].amount, task.refund);
      if committed {
        var total := TotalRefunded(payment);
        var status := if total >= payments[payment].amount then P.FullyRefunded else P.PartiallyRefunded;
        payments := payments[payment := payments[payment].(status := status)];
      }
      if fails || !committed {
        refunds, payments, wallets := savedRefunds, savedPayments, savedWallets;
        committed := false;
      }
    }

    /** The credit of a wallet payment that names a wallet; for any other payment there is none. */
    method CreditBack(payment: nat, amount: int, refund: nat) returns (ok: bool)
      requires payment < |payments|
      modifies `wallets
      ensures
        var credited := if ReturnsToWallet(payments[payment])
                        then Engine.CreditWallet(old(Model()), payments[payment].wallet.value, amount, ForRefund(refund)) else Ok(old(Model()));
        ok == credited.Ok? && Model() == OrSame(old(Model()), credited)
      ensures
        var p := payments[payment];
        if p.gateway == P.WalletGateway && p.wallet.Some? then
          && ok == (amount > 0 && p.wallet.value < |old(wallets)| && old(wallets)[p.wallet.value].status == Active)
          && (ok ==>
                var w := old(wallets)[p.wallet.value];
                wallets == old(wallets)[p.wallet.value := Wallet(w.balance + amount, Active,
                  w.ledger + [Txn(Credit, amount, w.balance, w.balance + amount, ForRefund(refund))])])
        else ok && wallets == old(wallets)
    {
      ok := true;
      if payments[payment].gateway == P.WalletGateway && payments[payment].wallet.Some? {
        var credited := CreditWallet(payments[payment].wallet.value, amount, ForRefund(refund));
        ok := credited.Ok?;
      }
    }

    /** The gateway paid: the block, or the exception it raises. */
    method RecordPaid(t: nat, fails: bool) returns (r: TaskResult)
      requires TaskAt(Model(), t, Paid)
      modifies `refunds, `payments, `wallets, `tasks
      ensures Model() == WorkerStep(old(Model()), t, if fails then RaiseAct else CommitAct)
      ensures TaskAt(Model(), t, if r == Succeeded then Leaving else Raised) && tasks[t].refund == old(tasks)[t].refund
      ensures tasks[t].retries == old(tasks)[t].retries
      ensures r == Succeeded || r == RetryRaised
      ensures r == Succeeded ==> refunds[tasks[t].refund].status == R.Success
    {
      var committed := RecordSuccess(t, fails);
      if committed {
        r := Succeeded;
        tasks := tasks[t := tasks[t].(phase := Leaving)];
      } else {
        r := RetryRaised;
        tasks := tasks[t := tasks[t].(phase := Raised, ref := true)];
      }
    }

    method AnswerPaid(t: nat)
      requires TaskAt(Model(), t, Calling)
      modifies `refunds, `tasks
      ensures Model() == Call(old(Model()), t, true) && TaskAt(Model(), t, Paid)
      ensures tasks[t].refund == old(tasks)[t].refund && tasks[t].retries == old(tasks)[t].retries
    {
      var refund := tasks[t].refund;
      refunds := refunds[refund := refunds[refund].(payouts := refunds[refund].payouts + 1)];
      SetPhase(t, Paid);
    }

    method AnswerDeclined(t: nat)
      requires TaskAt(Model(), t, Calling)
      modifies `tasks
      ensures Model() == Call(old(Model()), t, false) && TaskAt(Model(), t, Saving(Decline))
      ensures tasks[t] == old(tasks)[t].(phase := Saving(Decline), code := R.GatewayRefundFailed)
    {
      tasks := tasks[t := tasks[t].(phase := Saving(Decline), code := R.GatewayRefundFailed)];
    }

    /** The gateway call and the branch its answer selects. */
    method CallAndRecord(t: nat, f: Faults) returns (r: TaskResult)
      requires TaskAt(Model(), t, Calling)
      modifies `refunds, `payments, `wallets, `tasks
      ensures Model() == WorkInTurn(old(Model()), t, CallActs(f))
      ensures TaskAt(Model(), t, if r == RetryRaised then Raised else Leaving) && tasks[t].refund == old(tasks)[t].refund
      ensures tasks[t].retries == old(tasks)[t].retries
      ensures r == RetryRaised || r == Succeeded || r == GatewayDeclined
      ensures AgreesWith(r, refunds[tasks[t].refund])
    {
      CallInTurn(Model(), t, f);
      if f.answer == Exception {
        r := RetryRaised;
        SetPhase(t, Raised);
      } else if f.answer == Refunded {
        AnswerPaid(t);
        r := RecordPaid(t, f.block);
      } else {
        AnswerDeclined(t);
        var ok := UpdateRefundStatus(t, f.decline);
        r := if ok then GatewayDeclined else RetryRaised;
      }
    }

    /** The try part: PROCESSING, the gateway, and what follows it. */
    method TryPart(t: nat, f: Faults) returns (r: TaskResult)
      requires TaskAt(Model(), t, Saving(Begin))
      modifies `refunds, `payments, `wallets, `tasks
      ensures Model() == WorkInTurn(old(Model()), t, TryActs(f))
      ensures TaskAt(Model(), t, if r == RetryRaised then Raised else Leaving) && tasks[t].refund == old(tasks)[t].refund
      ensures tasks[t].retries == old(tasks)[t].retries
      ensures r == RetryRaised || r == Succeeded || r == GatewayDeclined
      ensures AgreesWith(r, refunds[tasks[t].refund])
    {
      ghost var s := Model();
      var ok := UpdateRefundStatus(t, f.begin);
      if ok {
        TurnAppend(s, t, UpdateActs(f.begin), CallActs(f));
        r := CallAndRecord(t, f);
      } else {
        r := RetryRaised;
      }
    }

    /** Three tries are used up: FAILED and its dead letter, or the exception one of them raises. */
    method GiveUpRefund(t: nat, f: Faults) returns (r: TaskResult)
      requires TaskAt(Model(), t, Saving(GiveUp)) && tasks[t].code == R.MaxRetriesExceeded
      modifies `refunds, `tasks
      ensures
        var updated := WorkInTurn(old(Model()), t, UpdateActs(f.giveUp));
        Model() == if f.giveUp < 3 then updated else WorkerStep(updated, t, if f.letter then RaiseAct else DeadLetterAct)
      ensures (TaskAt(Model(), t, Leaving) || TaskAt(Model(), t, Unfiled)) && tasks[t].refund == old(tasks)[t].refund
      ensures r == if f.giveUp < 3 || f.letter then HandlerRaised else GaveUp
      ensures AgreesWith(r, refunds[tasks[t].refund])
    {
      var ok := UpdateRefundStatus(t, f.giveUp);
      var filed := false;
      if ok {
        filed := FileDeadLetter(t, f.letter);
      }
      r := if filed then GaveUp else HandlerRaised;
    }

    /** The except part. */
    method HandleException(t: nat, f: Faults) returns (r: TaskResult)
      requires TaskAt(Model(), t, Raised)
      modifies `refunds, `tasks
      ensures Model() == WorkInTurn(old(Model()), t, HandlerActs(old(tasks)[t].retries, f))
      ensures (TaskAt(Model(), t, Leaving) || TaskAt(Model(), t, Unfiled)) && tasks[t].refund == old(tasks)[t].refund
      ensures r == GaveUp || r == RetryRaised || r == HandlerRaised
      ensures AgreesWith(r, refunds[tasks[t].refund])
    {
      HandlerInTurn(Model(), t, f);
      var task := tasks[t];
      if task.retries < MAX_RETRIES {
        SetPhase(t, Leaving);
        r := HandlerRaised;
        if !f.publish {
          Retry(task);
          r := RetryRaised;
        }
      } else {
        tasks := tasks[t := task.(phase := Saving(GiveUp), code := R.MaxRetriesExceeded)];
        r := GiveUpRefund(t, f);
      }
    }

    method FileDeadLetter(t: nat, fails: bool) returns (filed: bool)
      requires TaskAt(Model(), t, Filing)
      modifies `refunds, `tasks
      ensures Model() == WorkerStep(old(Model()), t, if fails then RaiseAct else DeadLetterAct)
      ensures filed == !fails
      ensures TaskAt(Model(), t, if fails then Unfiled else Leaving) && tasks[t].refund == old(tasks)[t].refund
      ensures refunds[tasks[t].refund].status == old(refunds)[tasks[t].refund].status
      ensures refunds[tasks[t].refund].failureCode == old(refunds)[tasks[t].refund].failureCode
      ensures
        var task := old(tasks)[t];
        var r := old(refunds)[task.refund];
        refunds == if fails then old(refunds) else old(refunds)[task.refund := r.(deadLetters := r.deadLetters + [task.retries])]
    {
      var task := tasks[t];
      filed := !fails;
      if filed {
        var failed := refunds[task.refund];
        refunds := refunds[task.refund := failed.(deadLetters := failed.deadLetters + [task.retries])];
      }
      SetPhase(t, if fails then Unfiled else Leaving);
    }

    method ReleaseLock(t: nat)
      requires TaskAt(Model(), t, Leaving) || TaskAt(Model(), t, Unfiled)
      modifies `tasks, `locks
      ensures Model() == WorkerStep(old(Model()), t, ReleaseAct)
      ensures t < |tasks| && !tasks[t].alive && tasks[t].refund == old(tasks)[t].refund
    {
      locks := locks - {refunds[tasks[t].refund].payment};
      tasks := tasks[t := tasks[t].(phase := if tasks[t].phase == Leaving then Ended else Unfiled, alive := false)];
    }

    /** Everything under the lock, with the lock deleted in `finally`. */
    method Locked(t: nat, f: Faults) returns (r: TaskResult)
      requires TaskAt(Model(), t, Saving(Begin))
      modifies `refunds, `payments, `wallets, `tasks, `locks
      ensures Model() == WorkInTurn(old(Model()), t, LockedActs(old(tasks)[t].retries, f))
      ensures t < |tasks| && !tasks[t].alive && tasks[t].refund == old(tasks)[t].refund < |refunds|
      ensures r != Skipped && AgreesWith(r, refunds[tasks[t].refund])
    {
      LockedInTurn(Model(), t, f);
      r := TryExcept(t, f);
      ReleaseLock(t);
    }

    method TryExcept(t: nat, f: Faults) returns (r: TaskResult)
      requires TaskAt(Model(), t, Saving(Begin))
      modifies `refunds, `payments, `wallets, `tasks
      ensures Model() == WorkInTurn(old(Model()), t, TryActs(f) + HandlerActs(old(tasks)[t].retries, f))
      ensures (TaskAt(Model(), t, Leaving) || TaskAt(Model(), t, Unfiled)) && tasks[t].refund == old(tasks)[t].refund
      ensures r != Skipped && AgreesWith(r, refunds[tasks[t].refund])
    {
      TurnAppend(Model(), t, TryActs(f), HandlerActs(tasks[t].retries, f));
      r := TryPart(t, f);
      r := ExceptPart(t, f, r);
    }

    /** The handler if the try raised, and its result otherwise. */
    method ExceptPart(t: nat, f: Faults, tried: TaskResult) returns (r: TaskResult)
      requires TaskAt(Model(), t, if tried == RetryRaised then Raised else Leaving)
      requires tried != Skipped && AgreesWith(tried, refunds[tasks[t].refund])
      modifies `refunds, `tasks
      ensures Model() == WorkInTurn(old(Model()), t, HandlerActs(old(tasks)[t].retries, f))
      ensures (TaskAt(Model(), t, Leaving) || TaskAt(Model(), t, Unfiled)) && tasks[t].refund == old(tasks)[t].refund
      ensures r != Skipped && AgreesWith(r, refunds[tasks[t].refund])
    {
      r := tried;
      if tried == RetryRaised {
        r := HandleException(t, f);
      } else {
        HandlerSkipped(Model(), t, f);
      }
    }

    method LoadRefund(t: nat)
      requires t < |tasks| && tasks[t].refund < |refunds|
      modifies `tasks
      ensures tasks == old(tasks)[t := old(tasks)[t].(phase := Loaded, code := refunds[old(tasks)[t].refund].failureCode, ref := refunds[old(tasks)[t].refund].gatewayRef)]
    {
      var row := refunds[tasks[t].refund];
      tasks := tasks[t := tasks[t].(phase := Loaded, code := row.failureCode, ref := row.gatewayRef)];
    }

    /** cache.add, and the lock or another try. */
    method EnterLock(t: nat) returns (acquired: bool)
      requires TaskAt(Model(), t, Loaded)
      modifies `tasks, `locks
      ensures Model() == Lock(old(Model()), t)
      ensures acquired == !Live(old(locks), PaymentOf(old(Model()), t), now)
      ensures t < |tasks| && tasks[t].refund == old(tasks)[t].refund && tasks[t].retries == old(tasks)[t].retries
      ensures if acquired then TaskAt(Model(), t, Saving(Begin)) else !tasks[t].alive
    {
      var task := tasks[t];
      acquired := AcquireLock(refunds[task.refund].payment);
      if acquired {
        tasks := tasks[t := task.(phase := Saving(Begin), lockedAt := now)];
      } else {
        tasks := tasks[t := End(task)];
        Retry(task);
      }
    }

    /** process_refund_task, from the delivered message to the end of `finally`: the engine's steps of one task, in turn. */
    method ProcessRefundTask(t: nat, f: Faults) returns (r: TaskResult)
      requires t < |tasks| && tasks[t].alive && tasks[t].phase == Queued
      requires tasks[t].refund < |refunds| ==> refunds[tasks[t].refund].payment < |payments|
      modifies `refunds, `payments, `wallets, `tasks, `locks
      ensures Model() == WorkInTurn(old(Model()), t, TaskActs(old(tasks)[t].retries, f))
      ensures t < |tasks| && !tasks[t].alive && tasks[t].refund == old(tasks)[t].refund
      ensures if tasks[t].refund < |refunds| then AgreesWith(r, refunds[tasks[t].refund]) else r == Skipped
      ensures
        var refund := old(tasks)[t].refund;
        r == Skipped <==> refund >= |old(refunds)| || old(refunds)[refund].status == R.Success || old(refunds)[refund].status == R.Failed
      ensures r == Skipped ==> refunds == old(refunds) && payments == old(payments) && wallets == old(wallets) && locks == old(locks)
    {
      var task := tasks[t];
      TaskInTurn(Model(), t, f);
      if task.refund >= |refunds| || R.Terminal(refunds[task.refund].status) {
        tasks := tasks[t := End(task)];
        DeadIdles(Model(), t, [LockAct] + LockedActs(task.retries, f));
        return Skipped;
      }
      LoadRefund(t);
      r := LoadedTask(t, f);
    }

    /** From a loaded refund on: the lock, then the guarded part or another try. */
    method LoadedTask(t: nat, f: Faults) returns (r: TaskResult)
      requires TaskAt(Model(), t, Loaded)
      modifies `refunds, `payments, `wallets, `tasks, `locks
      ensures Model() == WorkInTurn(old(Model()), t, [LockAct] + LockedActs(old(tasks)[t].retries, f))
      ensures t < |tasks| && !tasks[t].alive && tasks[t].refund == old(tasks)[t].refund < |refunds|
      ensures r != Skipped && AgreesWith(r, refunds[tasks[t].refund])
    {
      ghost var retries := tasks[t].retries;
      TurnAppend(Model(), t, [LockAct], LockedActs(retries, f));
      TurnOne(Model(), t, LockAct);
      var acquired := EnterLock(t);
      if acquired {
        r := Locked(t, f);
      } else {
        DeadIdles(Model(), t, LockedActs(retries, f));
        r := RetryRaised;
      }
    }
  }

  lemma CallInTurn(s: State, t: nat, f: Faults)
    requires TaskAt(s, t, Calling)
    ensures WorkInTurn(s, t, CallActs(f))
         == match f.answer
            case Exception => Raise(s, t)
            case Refunded => WorkerStep(Call(s, t, true), t, if f.block then RaiseAct else CommitAct)
            case Declined => WorkInTurn(Call(s, t, false), t, UpdateActs(f.decline))
  {
    match f.answer
    case Exception => TurnOne(s, t, RaiseAct);
    case Refunded => TurnTwo(s, t, CallAct(true), if f.block then RaiseAct else CommitAct);
    case Declined =>
      TurnAppend(s, t, [CallAct(false)], UpdateActs(f.decline));
      TurnOne(s, t, CallAct(false));
  }

  lemma HandlerInTurn(s: State, t: nat, f: Faults)
    requires TaskAt(s, t, Raised)
    ensures
      var updated := WorkInTurn(Handle(s, t), t, UpdateActs(f.giveUp));
      WorkInTurn(s, t, HandlerActs(s.tasks[t].retries, f))
      == if s.tasks[t].retries < MAX_RETRIES then WorkerStep(s, t, if f.publish then RaiseAct else HandleAct)
         else if f.giveUp < 3 then updated
         else WorkerStep(updated, t, if f.letter then RaiseAct else DeadLetterAct)
  {
    hide WorkInTurn, Handle, Raise, WriteDeadLetter;
    if s.tasks[t].retries < MAX_RETRIES {
      TurnOne(s, t, if f.publish then RaiseAct else HandleAct);
    } else {
      var update := UpdateActs(f.giveUp);
      TurnAppend(s, t, [HandleAct], update);
      TurnOne(s, t, HandleAct);
      if f.giveUp >= 3 {
        var last := if f.letter then RaiseAct else DeadLetterAct;
        TurnAppend(s, t, [HandleAct] + update, [last]);
        TurnOne(WorkInTurn(Handle(s, t), t, update), t, last);
      }
    }
  }

  lemma HandlerSkipped(s: State, t: nat, f: Faults)
    requires TaskAt(s, t, Leaving)
    ensures WorkInTurn(s, t, HandlerActs(s.tasks[t].retries, f)) == s
  {
    LeavingIdles(s, t, HandlerActs(s.tasks[t].retries, f));
  }

  lemma LockedInTurn(s: State, t: nat, f: Faults)
    requires t < |s.tasks|
    ensures
      var retries := s.tasks[t].retries;
      WorkInTurn(s, t, LockedActs(retries, f))
      == WorkerStep(WorkInTurn(s, t, TryActs(f) + HandlerActs(retries, f)), t, ReleaseAct)
  {
    var guarded := TryActs(f) + HandlerActs(s.tasks[t].retries, f);
    TurnAppend(s, t, guarded, [ReleaseAct]);
    TurnOne(WorkInTurn(s, t, guarded), t, ReleaseAct);
  }

  lemma TaskInTurn(s: State, t: nat, f: Faults)
    requires t < |s.tasks|
    ensures
      var retries := s.tasks[t].retries;
      WorkInTurn(s, t, TaskActs(retries, f)) == WorkInTurn(WorkerStep(s, t, StartAct), t, [LockAct] + LockedActs(retries, f))
  {
    var rest := [LockAct] + LockedActs(s.tasks[t].retries, f);
    assert TaskActs(s.tasks[t].retries, f) == [StartAct] + rest;
    TurnAppend(s, t, [StartAct], rest);
    TurnOne(s, t, StartAct);
  }

  lemma UpdateInTurn(s: State, t: nat, written: nat)
    requires AtSaving(s, t)
    ensures
      var saved := SaveStatus(s, t);
      var logged := LogStatus(saved, t);
      WorkInTurn(s, t, UpdateActs(written))
      == if written == 0 then Raise(s, t) else if written == 1 then Raise(saved, t)
         else if written == 2 then Raise(logged, t) else NotifyStatus(logged, t)
  {
    TurnOne(s, t, RaiseAct);
    TurnTwo(s, t, SaveAct, RaiseAct);
    TurnThree(s, t, SaveAct, LogAct, RaiseAct);
    TurnThree(s, t, SaveAct, LogAct, NotifyAct);
  }

  /** Where update_refund_status leaves the task and, when nothing raised, its row. */
  predicate UpdateLeaves(s: State, t: nat, task: Task, ok: bool, written: nat)
    requires task.phase.Saving?
  {
    var site := task.phase.site;
    && TaskIn(s, t) && s.tasks[t].refund == task.refund && s.tasks[t].retries == task.retries
    && s.tasks[t].phase == (if ok then AfterSite(site)
                            else PhaseAfterRaise(if written == 0 then Saving(site) else if written == 1 then Logging(site) else Notifying(site)))
    && (ok ==> s.refunds[task.refund].status == SiteStatus(site) && s.refunds[task.refund].failureCode == task.code)
  }

  /** What the task's return value says about its refund. */
  predicate AgreesWith(r: TaskResult, row: R.Refund) {
    match r
    case Skipped => row.status == R.Success || row.status == R.Failed
    case Succeeded => row.status == R.Success
    case GatewayDeclined => row.status == R.Failed && row.failureCode == R.GatewayRefundFailed
    case GaveUp => row.status == R.Failed && row.failureCode == R.MaxRetriesExceeded
    case RetryRaised => true
    case HandlerRaised => true
  }
}
