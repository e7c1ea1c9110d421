/** When an order expires, in every run: never by the sweep before its time. */
module OrderExpiry {
  import opened Prelude
  import opened Engine
  import opened Shape
  import opened TaskSteps
  import OA = OrderAgreement
  import O = Orders

  /** Somebody asked, while the order existed, for this very order to be expired. */
  ghost predicate Asked(actions: seq<Action>, order: nat) {
    exists k :: 0 <= k < |actions| && AskedAt(actions, order, k)
  }

  predicate AskedAt(actions: seq<Action>, order: nat, k: nat)
    requires k < |actions|
  {
    && actions[k].OnOrder? && actions[k].order.ExpireOrderAct? && actions[k].order.order == order
    && order < |Run(actions[..k]).orders|
  }

  lemma AskedGrows(actions: seq<Action>, a: Action, order: nat)
    ensures Asked(actions, order) ==> Asked(actions + [a], order)
    ensures a.OnOrder? && a.order.ExpireOrderAct? && a.order.order == order < |Run(actions).orders| ==> Asked(actions + [a], order)
  {
    var longer := actions + [a];
    if Asked(actions, order) {
      var k :| 0 <= k < |actions| && AskedAt(actions, order, k);
      assert longer[..k] == actions[..k];
      assert AskedAt(longer, order, k);
    }
    assert longer[..|actions|] == actions;
    if a.OnOrder? && a.order.ExpireOrderAct? && a.order.order == order && order < |Run(actions).orders| {
      assert AskedAt(longer, order, |actions|);
    }
  }

  /** The order's time has come, or somebody asked for it. */
  ghost predicate MayExpire(actions: seq<Action>, s: State, order: nat) {
    order < |s.orders| && (Asked(actions, order) || s.orders[order].expiresAt <= s.now)
  }

  /** So it is for every order that is EXPIRED, or that a sweep or a request has decided to expire. */
  ghost predicate InTime(actions: seq<Action>, s: State) {
    && (forall o: nat :: o < |s.orders| && s.orders[o].status == O.Expired ==> MayExpire(actions, s, o))
    && (forall u :: 0 <= u < |s.updates| && s.updates[u].status == O.Expired ==>
          forall o :: o in s.updates[u].orders ==> MayExpire(actions, s, o))
  }

  predicate NoneExpires(s: State, s': State) {
    && s'.updates == s.updates && |s'.orders| == |s.orders|
    && forall o :: 0 <= o < |s.orders| && s'.orders[o].status == O.Expired ==> s.orders[o].status == O.Expired
  }

  /** Orders keep their expiry, and time does not go back. */
  predicate OrdersKept(s: State, s': State) {
    && |s.orders| <= |s'.orders| && s.now <= s'.now
    && forall o :: 0 <= o < |s.orders| ==> s'.orders[o].expiresAt == s.orders[o].expiresAt
  }

  lemma MayStill(actions: seq<Action>, a: Action, s: State, s': State, order: nat)
    requires MayExpire(actions, s, order) && OrdersKept(s, s')
    ensures MayExpire(actions + [a], s', order)
  {
    AskedGrows(actions, a, order);
  }

  lemma PaymentKeepsOrders(s: State, a: PaymentAction)
    ensures OrdersKept(s, PaymentStep(s, a)) && NoneExpires(s, PaymentStep(s, a))
  {
    PaymentStepFrame(s, a);
  }

  lemma StepOrdersKept(s: State, a: Action)
    requires WellShaped(s)
    ensures OrdersKept(s, Step(s, a))
    ensures !a.OnOrder? ==> NoneExpires(s, Step(s, a))
  {
    hide WorkerStep, WalletStep, PaymentStep;
    match a
    case OnOrder(act) => OrderStepFrame(s, act);
    case OnPayment(act) => PaymentKeepsOrders(s, act);
    case OnRefund(_) =>
    case Work(t, act) => OA.WorkerPayments(s, t, act); if t < |s.tasks| { WorkerRow(s, t, act); } else { NoTask(s, t, act); }
    case OnWallet(act) => WalletStepFrame(s, act);
    case Tick(_) =>
  }

  /** The query finds the PENDING orders whose time has come, each once and no other. */
  lemma {:induction false} DueInTime(orders: seq<O.Order>, now: int)
    ensures forall o: nat :: o in DueOrders(orders, now) <==> o < |orders| && orders[o].status == O.Pending && orders[o].expiresAt <= now
    ensures forall i, j :: 0 <= i < j < |DueOrders(orders, now)| ==> DueOrders(orders, now)[i] < DueOrders(orders, now)[j]
  {
    if orders != [] {
      var n := |orders| - 1;
      var before := DueOrders(orders[..n], now);
      DueInTime(orders[..n], now);
      assert forall i :: 0 <= i < |before| ==> before[i] in before;
    }
  }

  lemma OrderStepInTime(actions: seq<Action>, a: OrderAction)
    requires WellShaped(Run(actions)) && InTime(actions, Run(actions))
    ensures InTime(actions + [OnOrder(a)], Step(Run(actions), OnOrder(a)))
  {
    var s := Run(actions);
    var s' := Step(s, OnOrder(a));
    StepOrdersKept(s, OnOrder(a));
    DueInTime(s.orders, s.now);
    forall o: nat | MayExpire(actions, s, o) ensures MayExpire(actions + [OnOrder(a)], s', o) {
      MayStill(actions, OnOrder(a), s, s', o);
    }
    if a.ExpireOrderAct? { AskedGrows(actions, OnOrder(a), a.order); }
  }

  lemma {:induction false} RunInTime(actions: seq<Action>)
    ensures InTime(actions, Run(actions))
  {
    if actions != [] {
      var prefix, a := actions[..|actions| - 1], actions[|actions| - 1];
      assert actions == prefix + [a];
      RunInTime(prefix);
      RunIsShaped(prefix);
      var s := Run(prefix);
      if a.OnOrder? {
        OrderStepInTime(prefix, a.order);
      } else {
        StepOrdersKept(s, a);
        forall o: nat | MayExpire(prefix, s, o) ensures MayExpire(actions, Step(s, a), o) {
          MayStill(prefix, a, s, Step(s, a), o);
        }
      }
    }
  }

  // ----- theorems

  /** In every run a sweep decides to expire exactly the PENDING orders whose time has come, each once. */
  lemma SweepDecides(actions: seq<Action>)
    ensures
      var s, s' := Run(actions), Run(actions + [OnOrder(SweepAct)]);
      && |s'.updates| == |s.updates| + 1
      && var update := s'.updates[|s.updates|];
      && s' == s.(updates := s.updates + [update]) && update.status == O.Expired
      && (forall o: nat :: o in update.orders <==> o < |s.orders| && s.orders[o].status == O.Pending && s.orders[o].expiresAt <= s.now)
      && (forall i, j :: 0 <= i < j < |update.orders| ==> update.orders[i] < update.orders[j])
  {
    RunSnoc(actions, OnOrder(SweepAct));
    DueInTime(Run(actions).orders, Run(actions).now);
  }

  /** In every run an EXPIRED order that nobody asked to expire has reached its expiry time. */
  lemma ExpiredInTime(actions: seq<Action>, order: nat)
    requires order < |Run(actions).orders| && Run(actions).orders[order].status == O.Expired
    requires !Asked(actions, order)
    ensures Run(actions).orders[order].expiresAt <= Run(actions).now
  {
    RunInTime(actions);
  }

  lemma {:induction false} ExpiryKept(actions: seq<Action>, rest: seq<Action>)
    ensures OrdersKept(Run(actions), Run(actions + rest))
  {
    if rest == [] {
      assert actions + rest == actions;
    } else {
      var n := |rest| - 1;
      var before := actions + rest[..n];
      assert actions + rest == before + [rest[n]];
      ExpiryKept(actions, rest[..n]);
      RunSnoc(before, rest[n]);
      RunIsShaped(before);
      StepOrdersKept(Run(before), rest[n]);
    }
  }

  /** An order expires when its creator said, or 1800 seconds after its creation. */
  lemma ExpiryOfOrder(before: seq<Action>, merchant: nat, amount: int, expiresAt: Option<int>, rest: seq<Action>)
    requires amount > 0
    ensures
      var order, s := |Run(before).orders|, Run(before + [OnOrder(CreateOrderAct(merchant, amount, expiresAt))] + rest);
      && order < |s.orders|
      && s.orders[order].expiresAt == if expiresAt.Some? then expiresAt.value else Run(before).now + 1800
  {
    RunSnoc(before, OnOrder(CreateOrderAct(merchant, amount, expiresAt)));
    ExpiryKept(before + [OnOrder(CreateOrderAct(merchant, amount, expiresAt))], rest);
  }

  /** An order created without an expiry is not EXPIRED before 1800 seconds have passed, unless somebody asks for it. */
  lemma NotBeforeThirtyMinutes(before: seq<Action>, merchant: nat, amount: int, rest: seq<Action>)
    requires amount > 0
    requires
      var actions := before + [OnOrder(CreateOrderAct(merchant, amount, None))] + rest;
      Run(actions).now < Run(before).now + 1800 && !Asked(actions, |Run(before).orders|)
    ensures
      var s := Run(before + [OnOrder(CreateOrderAct(merchant, amount, None))] + rest);
      |Run(before).orders| < |s.orders| && s.orders[|Run(before).orders|].status != O.Expired
  {
    var actions, order := before + [OnOrder(CreateOrderAct(merchant, amount, None))] + rest, |Run(before).orders|;
    ExpiryOfOrder(before, merchant, amount, None, rest);
    if Run(actions).orders[order].status == O.Expired { ExpiredInTime(actions, order); }
  }
}
