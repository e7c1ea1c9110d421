/** A run for each way an order can leave its declared table, and so none of the exceptions in `OrderAgreement` is idle. */
module OrderCounterexamples {
  import opened Prelude
  import opened Engine
  import opened MutualExclusion
  import opened Traces
  import opened OrderAgreement
  import RC = Reconciliation
  import O = Orders
  import P = Payments

  /** After the run, the action takes the only order from one status to another, which the table does not allow. */
  predicate Leaves(actions: seq<Action>, a: Action, before: O.OrderStatus, after: O.OrderStatus) {
    var s := Run(actions);
    && |s.orders| == 1 && |Step(s, a).orders| == 1 && UnlistedOrderWrite(s, a, 0)
    && s.orders[0].status == before && Step(s, a).orders[0].status == after && !O.Validates(before, after)
  }

  function DueOrder(): O.Order {
    O.NewOrder(0, 1000, 0)
  }

  /** One order that is due at once. */
  lemma Ordered() returns (actions: seq<Action>)
    ensures Run(actions) == INITIAL.(orders := [DueOrder()])
  {
    actions := Did([], OnOrder(CreateOrderAct(0, 1000, Some(0))));
  }

  lemma Swept() returns (actions: seq<Action>)
    ensures Run(actions) == INITIAL.(orders := [DueOrder()], updates := [Update([0], O.Expired)])
  {
    hide Run, Prompt, NeverStale;
    actions := Ordered();
    assert [DueOrder()][..0] == [];
    assert DueOrders([DueOrder()], 0) == [0];
    actions := Did(actions, OnOrder(SweepAct));
  }

  lemma Cancelling() returns (actions: seq<Action>)
    ensures Run(actions) == INITIAL.(orders := [DueOrder()], updates := [Update([0], O.Cancelled)])
  {
    hide Run, Prompt, NeverStale;
    actions := Ordered();
    actions := Did(actions, OnOrder(CancelOrderAct(0, 0)));
  }

  /** The payment of the whole order through a gateway. */
  function Pay(gateway: P.Gateway): Action {
    OnPayment(CreatePaymentAct(0, 0, 1000, gateway, None))
  }

  function Save(u: nat): Action {
    OnOrder(SaveOrderAct(u))
  }

  // ----- saves that come late

  /** Paid between the scan and its save: a collected payment and an EXPIRED order. */
  lemma ExpiredOverPaid() returns (actions: seq<Action>)
    ensures Leaves(actions, Save(0), O.Paid, O.Expired)
    ensures var s := Step(Run(actions), Save(0)); RC.Collections(s.payments, 0) == 1 && s.orders[0].status == O.Expired
  {
    hide Run, Prompt, NeverStale;
    actions := Swept();
    actions := Did(actions, Pay(P.Dummy));
    assert Run(actions).payments[..0] == [];
  }

  lemma ExpiredOverProcessing() returns (actions: seq<Action>)
    ensures Leaves(actions, Save(0), O.Processing, O.Expired)
  {
    hide Run, Prompt, NeverStale;
    actions := Swept();
    actions := Did(actions, Pay(P.Stripe));
  }

  lemma ExpiredOverCancelled() returns (actions: seq<Action>)
    ensures Leaves(actions, Save(0), O.Cancelled, O.Expired)
  {
    hide Run, Prompt, NeverStale;
    actions := Swept();
    actions := Did(actions, OnOrder(CancelOrderAct(0, 0)));
    actions := Did(actions, Save(1));
  }

  lemma CancelledOverPaid() returns (actions: seq<Action>)
    ensures Leaves(actions, Save(0), O.Paid, O.Cancelled)
  {
    hide Run, Prompt, NeverStale;
    actions := Cancelling();
    actions := Did(actions, Pay(P.Dummy));
  }

  lemma CancelledOverExpired() returns (actions: seq<Action>)
    ensures Leaves(actions, Save(0), O.Expired, O.Cancelled)
  {
    hide Run, Prompt, NeverStale;
    actions := Cancelling();
    actions := Did(actions, OnOrder(ExpireOrderAct(0, 0)));
    actions := Did(actions, Save(1));
  }

  // ----- captures and voids that write the order unchecked

  /** A deferred payment captured after its order was cancelled. */
  lemma PaidOverCancelled() returns (actions: seq<Action>)
    ensures Leaves(actions, OnPayment(CaptureAct(0, 0, true)), O.Cancelled, O.Paid)
  {
    hide Run, Prompt, NeverStale;
    actions := Cancelling();
    actions := Did(actions, Pay(P.Razorpay));
    actions := Did(actions, Save(0));
  }

  lemma PaidOverExpired() returns (actions: seq<Action>)
    ensures Leaves(actions, OnPayment(CaptureAct(0, 0, true)), O.Expired, O.Paid)
  {
    hide Run, Prompt, NeverStale;
    actions := Swept();
    actions := Did(actions, Pay(P.Razorpay));
    actions := Did(actions, Save(0));
  }

  /** Two payments of one order: the authorized one is voided after the other made it PAID. */
  lemma VoidedOverPaid() returns (actions: seq<Action>)
    ensures Leaves(actions, OnPayment(VoidAct(0, 0)), O.Paid, O.Cancelled)
  {
    hide Run, Prompt, NeverStale;
    actions := Ordered();
    actions := Did(actions, Pay(P.Stripe));
    actions := Did(actions, Pay(P.Dummy));
  }

  lemma VoidedOverExpired() returns (actions: seq<Action>)
    ensures Leaves(actions, OnPayment(VoidAct(0, 0)), O.Expired, O.Cancelled)
  {
    hide Run, Prompt, NeverStale;
    actions := Swept();
    actions := Did(actions, Pay(P.Stripe));
    actions := Did(actions, Save(0));
  }
}
