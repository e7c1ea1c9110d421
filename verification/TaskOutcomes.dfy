/**
What one refund message does when its worker is neither disturbed nor overtaken: the rows it leaves, written out, in
every reachable state.
 */
module TaskOutcomes {
  import opened Prelude
  import opened TtlCache
  import opened Engine
  import opened Wallets
  import opened Shape
  import opened Turns
  import P = Payments
  import R = Refunds

  /** A message waits for an unfinished refund, and nobody holds the lock of its payment. */
  predicate Waiting(s: State, t: nat) {
    && t < |s.tasks| && s.tasks[t].alive && s.tasks[t].phase == Queued
    && s.tasks[t].refund < |s.refunds|
    && s.refunds[s.tasks[t].refund].payment < |s.payments|
    && (s.refunds[s.tasks[t].refund].status == R.Created || s.refunds[s.tasks[t].refund].status == R.Processing)
    && (PaymentOf(s, t) !in s.locks || s.locks[PaymentOf(s, t)].expiry <= s.now)
  }

  const BEGINNING: seq<WorkerAction> := [StartAct, LockAct] + [SaveAct, LogAct, NotifyAct]

  /** The refund once its PROCESSING is saved, logged and notified. */
  function Begun(r: R.Refund): R.Refund {
    r.(status := R.Processing,
       ledger := r.ledger + [R.RefundEntry(R.RefundProcessing, r.amount, R.Processing)],
       events := r.events + [R.Processing])
  }

  function WithRow(s: State, t: nat, row: R.Refund, task: Task): State
    requires t < |s.tasks| && s.tasks[t].refund < |s.refunds|
  {
    s.(refunds := s.refunds[s.tasks[t].refund := row], tasks := s.tasks[t := task])
  }

  lemma Entered(s: State, t: nat)
    requires Waiting(s, t)
    ensures
      var task, r := s.tasks[t], s.refunds[s.tasks[t].refund];
      WorkInTurn(s, t, [StartAct, LockAct])
      == WithRow(s, t, r, task.(phase := Saving(Begin), lockedAt := s.now, code := r.failureCode, ref := r.gatewayRef))
         .(locks := s.locks[r.payment := Entry(LockMark, s.now + 30)])
  {
    var task, r := s.tasks[t], s.refunds[s.tasks[t].refund];
    TurnTwo(s, t, StartAct, LockAct);
    var loaded := task.(phase := Loaded, code := r.failureCode, ref := r.gatewayRef);
    assert Start(s, t) == s.(tasks := s.tasks[t := loaded]);
    assert s.refunds[task.refund := r] == s.refunds;
  }

  /** One whole update_refund_status. */
  lemma Updated(s: State, t: nat)
    requires AtSaving(s, t)
    ensures
      var task, r := s.tasks[t], s.refunds[s.tasks[t].refund];
      var (status, action) := if task.phase.site == Begin then (R.Processing, R.RefundProcessing) else (R.Failed, R.RefundFailed);
      WorkInTurn(s, t, [SaveAct, LogAct, NotifyAct])
      == WithRow(s, t,
           r.(status := status, failureCode := task.code, gatewayRef := task.ref,
              ledger := r.ledger + [R.RefundEntry(action, r.amount, status)], events := r.events + [status]),
           task.(phase := AfterSite(task.phase.site)))
  {
    hide WorkInTurn;
    TurnThree(s, t, SaveAct, LogAct, NotifyAct);
    var task, r := s.tasks[t], s.refunds[s.tasks[t].refund];
    var status := SiteStatus(task.phase.site);
    var row := r.(status := status, failureCode := task.code, gatewayRef := task.ref);
    var logged := row.(ledger := r.ledger + [R.EntryOf(r, status)]);
    assert SaveStatus(s, t) == WithRow(s, t, row, task.(phase := Logging(task.phase.site)));
    assert LogStatus(SaveStatus(s, t), t) == WithRow(s, t, logged, task.(phase := Notifying(task.phase.site)));
  }

  lemma BegunInTurn(s: State, t: nat)
    requires Waiting(s, t)
    ensures
      var task, r := s.tasks[t], s.refunds[s.tasks[t].refund];
      WorkInTurn(s, t, BEGINNING)
      == WithRow(s, t, Begun(r), task.(phase := Calling, lockedAt := s.now, code := r.failureCode, ref := r.gatewayRef))
         .(locks := s.locks[r.payment := Entry(LockMark, s.now + 30)])
  {
    Entered(s, t);
    TurnAppend(s, t, [StartAct, LockAct], [SaveAct, LogAct, NotifyAct]);
    Updated(WorkInTurn(s, t, [StartAct, LockAct]), t);
  }

  /** `finally`: the task is over and the lock of its payment gone. */
  lemma Released(s: State, t: nat)
    requires TaskAt(s, t, Leaving)
    ensures WorkInTurn(s, t, [ReleaseAct])
         == s.(tasks := s.tasks[t := s.tasks[t].(phase := Ended, alive := false)], locks := s.locks - {PaymentOf(s, t)})
  {
    TurnOne(s, t, ReleaseAct);
  }

  /** The gateway's answer. */
  lemma Called(s: State, t: nat, refunded: bool)
    requires TaskAt(s, t, Calling)
    ensures
      var task, r := s.tasks[t], s.refunds[s.tasks[t].refund];
      WorkInTurn(s, t, [CallAct(refunded)])
      == if refunded then WithRow(s, t, r.(payouts := r.payouts + 1), task.(phase := Paid))
         else WithRow(s, t, r, task.(phase := Saving(Decline), code := R.GatewayRefundFailed))
  {
    TurnOne(s, t, CallAct(refunded));
    var r := s.refunds[s.tasks[t].refund];
    assert s.refunds[s.tasks[t].refund := r] == s.refunds;
  }

  // ----- the gateway declines

  const DECLINED: seq<WorkerAction> := BEGINNING + [CallAct(false)] + [SaveAct, LogAct, NotifyAct] + [ReleaseAct]

  lemma DeclinedInTurn(s: State, t: nat)
    requires Waiting(s, t)
    ensures
      var task, r := s.tasks[t], s.refunds[s.tasks[t].refund];
      var s' := WorkInTurn(s, t, DECLINED);
      && s'.refunds == s.refunds[task.refund := r.(
           status := R.Failed, failureCode := R.GatewayRefundFailed,
           ledger := r.ledger + [R.RefundEntry(R.RefundProcessing, r.amount, R.Processing)] + [R.RefundEntry(R.RefundFailed, r.amount, R.Failed)],
           events := r.events + [R.Processing] + [R.Failed])]
      && s'.payments == s.payments && s'.wallets == s.wallets && s'.orders == s.orders && s'.locks == s.locks - {r.payment}
      && |s'.tasks| == |s.tasks| && !s'.tasks[t].alive && s'.tasks[t].phase == Ended
  {
    hide WorkInTurn, WorkerStep, BEGINNING;
    var update: seq<WorkerAction> := [SaveAct, LogAct, NotifyAct];
    BegunInTurn(s, t);
    TurnAppend(s, t, BEGINNING, [CallAct(false)]);
    Called(WorkInTurn(s, t, BEGINNING), t, false);
    var declined := WorkInTurn(s, t, BEGINNING + [CallAct(false)]);
    TurnAppend(s, t, BEGINNING + [CallAct(false)], update);
    Updated(declined, t);
    TurnAppend(s, t, BEGINNING + [CallAct(false)] + update, [ReleaseAct]);
    Released(WorkInTurn(s, t, BEGINNING + [CallAct(false)] + update), t);
  }

  /** In every reachable state: PROCESSING and FAILED are recorded with the gateway's code, and nothing else moves. */
  lemma DeclinedOutcome(actions: seq<Action>, t: nat)
    requires Waiting(Run(actions), t)
    ensures
      var s, s' := Run(actions), Run(actions + OfTask(t, DECLINED));
      var task, r := s.tasks[t], s.refunds[s.tasks[t].refund];
      && s'.refunds == s.refunds[task.refund := r.(
           status := R.Failed, failureCode := R.GatewayRefundFailed,
           ledger := r.ledger + [R.RefundEntry(R.RefundProcessing, r.amount, R.Processing)] + [R.RefundEntry(R.RefundFailed, r.amount, R.Failed)],
           events := r.events + [R.Processing] + [R.Failed])]
      && s'.payments == s.payments && s'.wallets == s.wallets && s'.orders == s.orders && s'.locks == s.locks - {r.payment}
      && |s'.tasks| == |s.tasks| && !s'.tasks[t].alive
  {
    hide WorkInTurn, Run, DECLINED;
    TurnIsRun(actions, t, DECLINED);
    DeclinedInTurn(Run(actions), t);
  }

  // ----- the gateway pays

  const SUCCEEDED: seq<WorkerAction> := BEGINNING + [CallAct(true)] + [CommitAct] + [ReleaseAct]

  /** Nothing stands in the way of the credit, if there is one to make. */
  predicate Creditable(s: State, p: P.Payment, amount: int) {
    p.gateway == P.WalletGateway && p.wallet.Some? ==>
      amount > 0 && p.wallet.value < |s.wallets| && s.wallets[p.wallet.value].status == Active
  }

  /** The wallets after the refund: those of a wallet payment have one credit more. */
  predicate Credited(s: State, s': State, p: P.Payment, amount: int, refund: nat) {
    if p.gateway == P.WalletGateway && p.wallet.Some? then
      && p.wallet.value < |s.wallets|
      && var w := s.wallets[p.wallet.value];
         s'.wallets == s.wallets[p.wallet.value := Wallet(w.balance + amount, Active,
           w.ledger + [Txn(Credit, amount, w.balance, w.balance + amount, ForRefund(refund))])]
    else s'.wallets == s.wallets
  }

  /** The refund's row when the gateway has paid and the block is committed. */
  function Succeeded(r: R.Refund): R.Refund {
    r.(status := R.Success, gatewayRef := true, payouts := r.payouts + 1,
       ledger := r.ledger + [R.RefundEntry(R.RefundProcessing, r.amount, R.Processing)] + [R.RefundEntry(R.RefundSuccess, r.amount, R.Success)],
       events := r.events + [R.Processing] + [R.Success])
  }

  /** The block after the gateway paid. */
  lemma CommittedInTurn(s: State, t: nat)
    requires TaskAt(s, t, Paid) && Creditable(s, s.payments[PaymentOf(s, t)], s.refunds[s.tasks[t].refund].amount)
    ensures
      var task, r := s.tasks[t], s.refunds[s.tasks[t].refund];
      var p := s.payments[r.payment];
      var s' := WorkInTurn(s, t, [CommitAct]);
      && s'.refunds == s.refunds[task.refund := r.(status := R.Success, failureCode := task.code, gatewayRef := true,
           ledger := r.ledger + [R.RefundEntry(R.RefundSuccess, r.amount, R.Success)], events := r.events + [R.Success])]
      && s'.payments == s.payments[r.payment := p.(status :=
           if R.Total(s'.refunds, r.payment, {R.Created, R.Processing, R.Success}) >= p.amount then P.FullyRefunded else P.PartiallyRefunded)]
      && Credited(s, s', p, r.amount, task.refund)
      && s'.orders == s.orders && s'.locks == s.locks && s'.tasks == s.tasks[t := task.(phase := Leaving)]
  {
    hide R.Total, WorkInTurn;
    TurnOne(s, t, CommitAct);
    var task, r := s.tasks[t], s.refunds[s.tasks[t].refund];
    assert R.WriteRow(r, R.Success, task.code, true)
        == r.(status := R.Success, failureCode := task.code, gatewayRef := true,
              ledger := r.ledger + [R.RefundEntry(R.RefundSuccess, r.amount, R.Success)], events := r.events + [R.Success]);
    hide R.WriteRow;
  }

  lemma SucceededInTurn(s: State, t: nat)
    requires Waiting(s, t)
    requires Creditable(s, s.payments[PaymentOf(s, t)], s.refunds[s.tasks[t].refund].amount)
    ensures
      var task, r := s.tasks[t], s.refunds[s.tasks[t].refund];
      var p := s.payments[r.payment];
      var s' := WorkInTurn(s, t, SUCCEEDED);
      && s'.refunds == s.refunds[task.refund := Succeeded(r)]
      && s'.payments == s.payments[r.payment := p.(status :=
           if R.Total(s'.refunds, r.payment, {R.Created, R.Processing, R.Success}) >= p.amount then P.FullyRefunded else P.PartiallyRefunded)]
      && Credited(s, s', p, r.amount, task.refund)
      && s'.orders == s.orders && s'.locks == s.locks - {r.payment}
      && |s'.tasks| == |s.tasks| && !s'.tasks[t].alive && s'.tasks[t].phase == Ended
  {
    hide WorkInTurn, WorkerStep, BEGINNING, R.Total;
    BegunInTurn(s, t);
    TurnAppend(s, t, BEGINNING, [CallAct(true)]);
    Called(WorkInTurn(s, t, BEGINNING), t, true);
    var paid := WorkInTurn(s, t, BEGINNING + [CallAct(true)]);
    TurnAppend(s, t, BEGINNING + [CallAct(true)], [CommitAct]);
    CommittedInTurn(paid, t);
    TurnAppend(s, t, BEGINNING + [CallAct(true)] + [CommitAct], [ReleaseAct]);
    Released(WorkInTurn(s, t, BEGINNING + [CallAct(true)] + [CommitAct]), t);
  }

  /**
  In every reachable state: PROCESSING and SUCCESS are recorded, the payment's status follows the reserved total, a
  wallet payment's wallet is credited with the amount, and nothing else moves.
   */
  lemma SucceededOutcome(actions: seq<Action>, t: nat)
    requires Waiting(Run(actions), t)
    requires
      var s := Run(actions);
      Creditable(s, s.payments[PaymentOf(s, t)], s.refunds[s.tasks[t].refund].amount)
    ensures
      var s, s' := Run(actions), Run(actions + OfTask(t, SUCCEEDED));
      var task, r := s.tasks[t], s.refunds[s.tasks[t].refund];
      var p := s.payments[r.payment];
      && s'.refunds == s.refunds[task.refund := r.(status := R.Success, gatewayRef := true, payouts := r.payouts + 1,
           ledger := r.ledger + [R.RefundEntry(R.RefundProcessing, r.amount, R.Processing)] + [R.RefundEntry(R.RefundSuccess, r.amount, R.Success)],
           events := r.events + [R.Processing] + [R.Success])]
      && s'.payments == s.payments[r.payment := p.(status :=
           if R.Total(s'.refunds, r.payment, {R.Created, R.Processing, R.Success}) >= p.amount then P.FullyRefunded else P.PartiallyRefunded)]
      && Credited(s, s', p, r.amount, task.refund)
      && s'.orders == s.orders && s'.locks == s.locks - {r.payment} && |s'.tasks| == |s.tasks| && !s'.tasks[t].alive
  {
    hide WorkInTurn, Run, R.Total, SUCCEEDED;
    TurnIsRun(actions, t, SUCCEEDED);
    SucceededInTurn(Run(actions), t);
  }
}
