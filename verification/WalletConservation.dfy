/**
Wallet money is conserved through payments, refunds, rollbacks, retries, dead letters and crashes:
every cent of a wallet's balance is explained by its manual entries, its collected payments and its
successful refunds.
 */
module WalletConservation {
  import opened Prelude
  import opened Wallets
  import opened Engine
  import opened Shape
  import opened TaskSteps
  import RS = RefundSafety
  import P = Payments
  import R = Refunds

  // ----- what a ledger says

  function Extended(effects: seq<int>, matches: bool, delta: int): seq<int> {
    if matches then effects + [delta] else effects
  }

  /** The signed amounts of the entries with a given provenance, in ledger order. */
  function Effects(ledger: seq<Txn>, reference: Reference): seq<int> {
    if ledger == [] then []
    else
      var n := |ledger| - 1;
      Extended(Effects(ledger[..n], reference), ledger[n].reference == reference, Delta(ledger[n]))
  }

  /** The total amount of the entries of one kind and provenance. */
  function Booked(ledger: seq<Txn>, kind: TxnKind, reference: Reference): int {
    if ledger == [] then 0
    else
      var n := |ledger| - 1;
      Booked(ledger[..n], kind, reference) + if ledger[n].kind == kind && ledger[n].reference == reference then ledger[n].amount else 0
  }

  lemma Appended(ledger: seq<Txn>, t: Txn, kind: TxnKind, reference: Reference)
    ensures Effects(ledger + [t], reference) == Extended(Effects(ledger, reference), t.reference == reference, Delta(t))
    ensures Booked(ledger + [t], kind, reference)
         == Booked(ledger, kind, reference) + if t.kind == kind && t.reference == reference then t.amount else 0
  {
    assert (ledger + [t])[..|ledger|] == ledger;
  }

  // ----- what the payments and refunds say

  predicate PaidFrom(p: P.Payment, wallet: nat) {
    p.gateway == P.WalletGateway && P.Collected(p.status) && p.wallet == Some(wallet)
  }

  /** Collected from this wallet and not returned: the sum, over its collected wallet payments, of amount minus successful refunds. */
  function Held(payments: seq<P.Payment>, refunds: seq<R.Refund>, wallet: nat): int {
    if payments == [] then 0
    else
      var n := |payments| - 1;
      Held(payments[..n], refunds, wallet)
      + if PaidFrom(payments[n], wallet) then payments[n].amount - R.Returned(refunds, n) else 0
  }

  function PaymentEffect(payments: seq<P.Payment>, payment: nat, wallet: nat): seq<int> {
    if payment < |payments| && PaidFrom(payments[payment], wallet) then [-payments[payment].amount] else []
  }

  function RefundEffect(payments: seq<P.Payment>, refunds: seq<R.Refund>, refund: nat, wallet: nat): seq<int> {
    if && refund < |refunds|
       && refunds[refund].status == R.Success
       && refunds[refund].payment < |payments|
       && PaidFrom(payments[refunds[refund].payment], wallet)
    then [refunds[refund].amount] else []
  }

  /** The wallet's balance equals manual credits minus manual debits minus what it still has in payments. */
  predicate Conserved(w: Wallet, payments: seq<P.Payment>, refunds: seq<R.Refund>, wallet: nat) {
    w.balance == Booked(w.ledger, Credit, Manual) - Booked(w.ledger, Debit, Manual)
               - Booked(w.ledger, Debit, Orphan) - Held(payments, refunds, wallet)
  }

  /** Each collected payment has exactly its debit, each successful refund exactly its credit, and nothing else has any. */
  ghost predicate Traced(w: Wallet, payments: seq<P.Payment>, refunds: seq<R.Refund>, wallet: nat) {
    && (forall p: nat :: Effects(w.ledger, ForPayment(p)) == PaymentEffect(payments, p, wallet))
    && (forall r: nat :: Effects(w.ledger, ForRefund(r)) == RefundEffect(payments, refunds, r, wallet))
  }

  ghost predicate WalletsOk(wallets: seq<Wallet>) {
    forall w :: 0 <= w < |wallets| ==> WalletOk(wallets[w])
  }

  ghost predicate Accounted(wallets: seq<Wallet>, payments: seq<P.Payment>, refunds: seq<R.Refund>) {
    forall w :: 0 <= w < |wallets| ==> Conserved(wallets[w], payments, refunds, w) && Traced(wallets[w], payments, refunds, w)
  }

  // ----- sums under changes of the tables

  lemma {:induction false} HeldSame(payments: seq<P.Payment>, refunds: seq<R.Refund>, payments': seq<P.Payment>, refunds': seq<R.Refund>, wallet: nat)
    requires |payments| == |payments'|
    requires forall p :: 0 <= p < |payments| ==> PaidFrom(payments'[p], wallet) == PaidFrom(payments[p], wallet) && payments'[p].amount == payments[p].amount
    requires forall p :: 0 <= p < |payments| ==> R.Returned(refunds', p) == R.Returned(refunds, p)
    ensures Held(payments', refunds', wallet) == Held(payments, refunds, wallet)
  {
    if payments != [] {
      HeldSame(payments[..|payments| - 1], refunds, payments'[..|payments| - 1], refunds', wallet);
    }
  }

  /** One payment's returned total grows. */
  lemma {:induction false} HeldReturned(payments: seq<P.Payment>, refunds: seq<R.Refund>, payments': seq<P.Payment>, refunds': seq<R.Refund>, wallet: nat, payment: nat, amount: int)
    requires |payments| == |payments'|
    requires forall p :: 0 <= p < |payments| ==> PaidFrom(payments'[p], wallet) == PaidFrom(payments[p], wallet) && payments'[p].amount == payments[p].amount
    requires forall p :: 0 <= p < |payments| ==> R.Returned(refunds', p) == R.Returned(refunds, p) + if p == payment then amount else 0
    ensures Held(payments', refunds', wallet)
         == Held(payments, refunds, wallet) - if payment < |payments| && PaidFrom(payments[payment], wallet) then amount else 0
  {
    if payments != [] {
      HeldReturned(payments[..|payments| - 1], refunds, payments'[..|payments| - 1], refunds', wallet, payment, amount);
    }
  }

  lemma {:induction false} HeldUnlinked(payments: seq<P.Payment>, refunds: seq<R.Refund>, wallet: nat)
    requires forall p :: 0 <= p < |payments| && payments[p].wallet.Some? ==> payments[p].wallet.value < wallet
    ensures Held(payments, refunds, wallet) == 0
  {
    if payments != [] {
      HeldUnlinked(payments[..|payments| - 1], refunds, wallet);
    }
  }

  lemma HeldAppend(payments: seq<P.Payment>, refunds: seq<R.Refund>, row: P.Payment, wallet: nat)
    requires RefundsLinked(refunds, payments)
    ensures Held(payments + [row], refunds, wallet) == Held(payments, refunds, wallet) + if PaidFrom(row, wallet) then row.amount else 0
  {
    assert (payments + [row])[..|payments|] == payments;
    RS.NoRefundsYet(refunds, payments);
  }

  // ----- one wallet row

  lemma EntryEffects(ledger: seq<Txn>, t: Txn)
    ensures forall reference ::
      Effects(ledger + [t], reference) == Extended(Effects(ledger, reference), t.reference == reference, Delta(t))
  {
    forall reference
      ensures Effects(ledger + [t], reference) == Extended(Effects(ledger, reference), t.reference == reference, Delta(t))
    {
      Appended(ledger, t, Credit, reference);
    }
  }

  /** The manual and orphan totals move with the balance exactly for a manual entry or an orphan debit. */
  lemma EntryTotals(ledger: seq<Txn>, t: Txn)
    requires t.reference == Orphan ==> t.kind == Debit
    ensures
      Booked(ledger + [t], Credit, Manual) - Booked(ledger + [t], Debit, Manual) - Booked(ledger + [t], Debit, Orphan)
      == Booked(ledger, Credit, Manual) - Booked(ledger, Debit, Manual) - Booked(ledger, Debit, Orphan)
         + if t.reference == Manual || t.reference == Orphan then Delta(t) else 0
  {
    Appended(ledger, t, Credit, Manual);
    Appended(ledger, t, Debit, Manual);
    Appended(ledger, t, Debit, Orphan);
  }

  lemma ManualTraced(w: Wallet, w': Wallet, payments: seq<P.Payment>, refunds: seq<R.Refund>, wallet: nat, t: Txn)
    requires Traced(w, payments, refunds, wallet)
    requires w'.ledger == w.ledger + [t] && (t.reference == Manual || t.reference == Orphan)
    ensures Traced(w', payments, refunds, wallet)
  {
    EntryEffects(w.ledger, t);
    assert forall p: nat :: Effects(w'.ledger, ForPayment(p)) == Effects(w.ledger, ForPayment(p));
    assert forall r: nat :: Effects(w'.ledger, ForRefund(r)) == Effects(w.ledger, ForRefund(r));
  }

  /** An entry that belongs to no payment and no refund moves the balance and its own total together. */
  lemma ManualEntry(w: Wallet, w': Wallet, payments: seq<P.Payment>, refunds: seq<R.Refund>, wallet: nat, amount: int, reference: Reference)
    requires Conserved(w, payments, refunds, wallet) && Traced(w, payments, refunds, wallet) && amount > 0
    requires reference == Manual || reference == Orphan
    requires DebitRow(w, amount, reference) == Ok(w') || (reference == Manual && CreditRow(w, amount, reference) == Ok(w'))
    ensures Conserved(w', payments, refunds, wallet) && Traced(w', payments, refunds, wallet)
  {
    EntryTotals(w.ledger, w'.ledger[|w.ledger|]);
    ManualTraced(w, w', payments, refunds, wallet, w'.ledger[|w.ledger|]);
  }

  /** The wallet's side of a committed wallet payment. */
  lemma PaymentEntry(w: Wallet, payments: seq<P.Payment>, refunds: seq<R.Refund>, wallet: nat, row: P.Payment)
    requires Conserved(w, payments, refunds, wallet) && Traced(w, payments, refunds, wallet)
    requires RefundsLinked(refunds, payments) && PaidFrom(row, wallet) && row.amount > 0
    requires DebitRow(w, row.amount, ForPayment(|payments|)).Ok?
    ensures var w' := DebitRow(w, row.amount, ForPayment(|payments|)).value;
      Conserved(w', payments + [row], refunds, wallet) && Traced(w', payments + [row], refunds, wallet)
  {
    var w' := DebitRow(w, row.amount, ForPayment(|payments|)).value;
    PaymentConserved(w, w', payments, refunds, wallet, row);
    EntryEffects(w.ledger, w'.ledger[|w.ledger|]);
    PaymentTraced(w, w', payments, refunds, wallet, row);
  }

  lemma PaymentConserved(w: Wallet, w': Wallet, payments: seq<P.Payment>, refunds: seq<R.Refund>, wallet: nat, row: P.Payment)
    requires Conserved(w, payments, refunds, wallet)
    requires RefundsLinked(refunds, payments) && PaidFrom(row, wallet) && row.amount > 0
    requires DebitRow(w, row.amount, ForPayment(|payments|)) == Ok(w')
    ensures Conserved(w', payments + [row], refunds, wallet)
  {
    hide Booked, Held;
    assert w'.ledger == w.ledger + [w'.ledger[|w.ledger|]];
    EntryTotals(w.ledger, w'.ledger[|w.ledger|]);
    HeldAppend(payments, refunds, row, wallet);
  }

  lemma PaymentTraced(w: Wallet, w': Wallet, payments: seq<P.Payment>, refunds: seq<R.Refund>, wallet: nat, row: P.Payment)
    requires Traced(w, payments, refunds, wallet) && RefundsLinked(refunds, payments) && PaidFrom(row, wallet)
    requires forall reference ::
      Effects(w'.ledger, reference) == Extended(Effects(w.ledger, reference), ForPayment(|payments|) == reference, -row.amount)
    ensures Traced(w', payments + [row], refunds, wallet)
  {
    forall p: nat ensures Effects(w'.ledger, ForPayment(p)) == PaymentEffect(payments + [row], p, wallet) {
      assert Effects(w.ledger, ForPayment(p)) == PaymentEffect(payments, p, wallet);
    }
    forall r: nat ensures Effects(w'.ledger, ForRefund(r)) == RefundEffect(payments + [row], refunds, r, wallet) {
      assert Effects(w'.ledger, ForRefund(r)) == Effects(w.ledger, ForRefund(r));
      NoEffectOnRefund(payments, refunds, r, wallet, row);
    }
  }

  lemma NoEffectOnRefund(payments: seq<P.Payment>, refunds: seq<R.Refund>, r: nat, wallet: nat, row: P.Payment)
    requires RefundsLinked(refunds, payments)
    ensures RefundEffect(payments + [row], refunds, r, wallet) == RefundEffect(payments, refunds, r, wallet)
  {
    if r < |refunds| { assert RefundLinked(refunds[r], payments); }
  }

  /** The wallet is not involved in the new payment. */
  lemma PaymentElsewhere(w: Wallet, payments: seq<P.Payment>, refunds: seq<R.Refund>, wallet: nat, row: P.Payment)
    requires Conserved(w, payments, refunds, wallet) && Traced(w, payments, refunds, wallet)
    requires RefundsLinked(refunds, payments) && !PaidFrom(row, wallet)
    ensures Conserved(w, payments + [row], refunds, wallet) && Traced(w, payments + [row], refunds, wallet)
  {
    HeldAppend(payments, refunds, row, wallet);
    forall p: nat ensures Effects(w.ledger, ForPayment(p)) == PaymentEffect(payments + [row], p, wallet) {
    }
    forall r: nat ensures Effects(w.ledger, ForRefund(r)) == RefundEffect(payments + [row], refunds, r, wallet) {
      if r < |refunds| { assert RefundLinked(refunds[r], payments); }
    }
  }

  /** The tables after a refund turned SUCCESS. */
  predicate Succeeded(payments: seq<P.Payment>, refunds: seq<R.Refund>, refund: nat, payments': seq<P.Payment>, row: R.Refund) {
    && |payments'| == |payments| && refund < |refunds| && RefundLinked(refunds[refund], payments)
    && refunds[refund].status == R.Processing && row.status == R.Success
    && row.payment == refunds[refund].payment && row.amount == refunds[refund].amount
    && payments' == payments[row.payment := payments[row.payment].(status := payments'[row.payment].status)]
    && P.Collected(payments'[row.payment].status)
  }

  lemma RefundHeld(payments: seq<P.Payment>, refunds: seq<R.Refund>, wallet: nat, refund: nat, payments': seq<P.Payment>, row: R.Refund)
    requires Succeeded(payments, refunds, refund, payments', row)
    ensures Held(payments', refunds[refund := row], wallet)
         == Held(payments, refunds, wallet) - if PaidFrom(payments[row.payment], wallet) then row.amount else 0
  {
    var refunds' := refunds[refund := row];
    forall p | 0 <= p < |payments| ensures R.Returned(refunds', p) == R.Returned(refunds, p) + if p == row.payment then row.amount else 0 {
      R.TotalUpdate(refunds, refund, row, p, {R.Success});
    }
    HeldReturned(payments, refunds, payments', refunds', wallet, row.payment, row.amount);
  }

  lemma RefundTraced(w: Wallet, w': Wallet, payments: seq<P.Payment>, refunds: seq<R.Refund>, wallet: nat, refund: nat, payments': seq<P.Payment>, row: R.Refund)
    requires Succeeded(payments, refunds, refund, payments', row)
    requires Traced(w, payments, refunds, wallet)
    requires forall reference ::
      Effects(w'.ledger, reference)
      == Extended(Effects(w.ledger, reference), ForRefund(refund) == reference && PaidFrom(payments[row.payment], wallet), row.amount)
    ensures Traced(w', payments', refunds[refund := row], wallet)
  {
  }

  /** The wallet's side of a refund that turned SUCCESS. */
  lemma RefundEntry(w: Wallet, w': Wallet, payments: seq<P.Payment>, refunds: seq<R.Refund>, wallet: nat, refund: nat, payments': seq<P.Payment>, row: R.Refund)
    requires Succeeded(payments, refunds, refund, payments', row)
    requires Conserved(w, payments, refunds, wallet) && Traced(w, payments, refunds, wallet)
    requires
      if PaidFrom(payments[row.payment], wallet) then CreditRow(w, row.amount, ForRefund(refund)) == Ok(w')
      else w' == w
    ensures Conserved(w', payments', refunds[refund := row], wallet) && Traced(w', payments', refunds[refund := row], wallet)
  {
    RefundHeld(payments, refunds, wallet, refund, payments', row);
    if PaidFrom(payments[row.payment], wallet) {
      EntryTotals(w.ledger, w'.ledger[|w.ledger|]);
      EntryEffects(w.ledger, w'.ledger[|w.ledger|]);
    }
    assert Conserved(w', payments', refunds[refund := row], wallet);
    RefundTraced(w, w', payments, refunds, wallet, refund, payments', row);
  }

  /** A change of the tables that no wallet sees: same collected payments, same successful refunds. */
  lemma TablesUnseen(wallets: seq<Wallet>, payments: seq<P.Payment>, refunds: seq<R.Refund>, payments': seq<P.Payment>, refunds': seq<R.Refund>)
    requires Accounted(wallets, payments, refunds)
    requires |payments| == |payments'| && |refunds| <= |refunds'|
    requires forall p :: 0 <= p < |payments| ==>
      && payments'[p].amount == payments[p].amount && payments'[p].gateway == payments[p].gateway && payments'[p].wallet == payments[p].wallet
      && (payments[p].gateway == P.WalletGateway ==> P.Collected(payments'[p].status) == P.Collected(payments[p].status))
      && R.Returned(refunds', p) == R.Returned(refunds, p)
    requires forall r :: 0 <= r < |refunds| ==>
      && refunds'[r].payment == refunds[r].payment && refunds'[r].amount == refunds[r].amount
      && (refunds'[r].status == R.Success <==> refunds[r].status == R.Success)
    requires forall r :: |refunds| <= r < |refunds'| ==> refunds'[r].status != R.Success
    ensures Accounted(wallets, payments', refunds')
  {
    forall w | 0 <= w < |wallets| ensures Conserved(wallets[w], payments', refunds', w) && Traced(wallets[w], payments', refunds', w) {
      HeldSame(payments, refunds, payments', refunds', w);
    }
  }

  // ----- the actions

  lemma OneWalletAccounted(wallets: seq<Wallet>, payments: seq<P.Payment>, refunds: seq<R.Refund>, wallet: nat, row: Wallet)
    requires Accounted(wallets, payments, refunds) && wallet < |wallets|
    requires Conserved(row, payments, refunds, wallet) && Traced(row, payments, refunds, wallet)
    ensures Accounted(wallets[wallet := row], payments, refunds)
  {
  }

  lemma WalletMoveAccounted(s: State, wallet: nat, amount: int, reference: Reference)
    requires Accounted(s.wallets, s.payments, s.refunds)
    requires reference == Manual || reference == Orphan
    ensures Accounted(OrSame(s, DebitWallet(s, wallet, amount, reference)).wallets, s.payments, s.refunds)
    ensures reference == Manual ==> Accounted(OrSame(s, CreditWallet(s, wallet, amount, reference)).wallets, s.payments, s.refunds)
  {
    if amount > 0 && wallet < |s.wallets| {
      var row := s.wallets[wallet];
      var debited, credited := DebitRow(row, amount, reference), CreditRow(row, amount, reference);
      if debited.Ok? {
        ManualEntry(row, debited.value, s.payments, s.refunds, wallet, amount, reference);
        OneWalletAccounted(s.wallets, s.payments, s.refunds, wallet, debited.value);
      }
      if credited.Ok? && reference == Manual {
        ManualEntry(row, credited.value, s.payments, s.refunds, wallet, amount, reference);
        OneWalletAccounted(s.wallets, s.payments, s.refunds, wallet, credited.value);
      }
    }
  }

  lemma NewWalletAccounted(s: State)
    requires PaymentsLinked(s.payments, s.orders, |s.wallets|) && Accounted(s.wallets, s.payments, s.refunds)
    ensures Accounted(s.wallets + [NEW_WALLET], s.payments, s.refunds)
  {
    forall p | 0 <= p < |s.payments| ensures s.payments[p].wallet.Some? ==> s.payments[p].wallet.value < |s.wallets| {
      assert PaymentLinked(s.payments[p], s.orders, |s.wallets|);
    }
    HeldUnlinked(s.payments, s.refunds, |s.wallets|);
    assert Conserved(NEW_WALLET, s.payments, s.refunds, |s.wallets|);
    assert Traced(NEW_WALLET, s.payments, s.refunds, |s.wallets|);
  }

  lemma WalletStatusAccounted(s: State, wallet: nat, status: WalletStatus)
    requires Accounted(s.wallets, s.payments, s.refunds)
    ensures Accounted(OrSame(s, SetWalletStatus(s, wallet, status)).wallets, s.payments, s.refunds)
  {
    if wallet < |s.wallets| {
      var row := s.wallets[wallet].(status := status);
      assert Conserved(row, s.payments, s.refunds, wallet) && Traced(row, s.payments, s.refunds, wallet);
    }
  }

  lemma WalletStepAccounted(s: State, a: WalletAction)
    requires WellShaped(s) && Accounted(s.wallets, s.payments, s.refunds)
    ensures Accounted(WalletStep(s, a).wallets, s.payments, s.refunds)
  {
    match a
    case CreateWalletAct => NewWalletAccounted(s);
    case CreditAct(wallet, amount) => WalletMoveAccounted(s, wallet, amount, Manual);
    case DebitAct(wallet, amount) => WalletMoveAccounted(s, wallet, amount, Manual);
    case FreezeAct(wallet) => WalletStatusAccounted(s, wallet, Frozen);
    case UnfreezeAct(wallet) => WalletStatusAccounted(s, wallet, Active);
  }

  /** A new payment row, together with the debit the wallet adapter made for it. */
  lemma PaymentAccounted(wallets: seq<Wallet>, wallets': seq<Wallet>, payments: seq<P.Payment>, refunds: seq<R.Refund>, row: P.Payment)
    requires Accounted(wallets, payments, refunds) && RefundsLinked(refunds, payments) && row.amount > 0
    requires
      if row.gateway == P.WalletGateway && P.Collected(row.status) && row.wallet.Some? then
        && row.wallet.value < |wallets|
        && DebitRow(wallets[row.wallet.value], row.amount, ForPayment(|payments|)).Ok?
        && wallets' == wallets[row.wallet.value := DebitRow(wallets[row.wallet.value], row.amount, ForPayment(|payments|)).value]
      else wallets' == wallets && !(row.gateway == P.WalletGateway && P.Collected(row.status))
    ensures Accounted(wallets', payments + [row], refunds)
  {
    forall w | 0 <= w < |wallets'|
      ensures Conserved(wallets'[w], payments + [row], refunds, w) && Traced(wallets'[w], payments + [row], refunds, w)
    {
      if PaidFrom(row, w) {
        PaymentEntry(wallets[w], payments, refunds, w, row);
      } else {
        PaymentElsewhere(wallets[w], payments, refunds, w, row);
      }
    }
  }

  lemma CreatePaymentAccounted(s: State, merchant: nat, order: nat, amount: int, gateway: P.Gateway, wallet: Option<nat>)
    requires WellShaped(s) && Accounted(s.wallets, s.payments, s.refunds)
    ensures var s' := OrSame(s, CreatePayment(s, merchant, order, amount, gateway, wallet));
      Accounted(s'.wallets, s'.payments, s'.refunds)
  {
    if CheckNewPayment(s, merchant, order, amount).None? {
      var s' := OrSame(s, CreatePayment(s, merchant, order, amount, gateway, wallet));
      PaymentAccounted(s.wallets, s'.wallets, s.payments, s.refunds, s'.payments[|s.payments|]);
      assert s'.payments == s.payments + [s'.payments[|s.payments|]];
    }
  }

  lemma PaymentMoveAccounted(s: State, merchant: nat, payment: nat, target: P.PaymentStatus, action: P.PaymentAction)
    requires WellShaped(s) && Accounted(s.wallets, s.payments, s.refunds)
    requires OwnsPayment(s, merchant, payment) && P.Validates(s.payments[payment].status, target)
    requires target == P.Captured || target == P.Voided
    ensures Accounted(s.wallets, SetPayment(s, payment, target, action).payments, s.refunds)
  {
    assert PaymentLinked(s.payments[payment], s.orders, |s.wallets|);
    TablesUnseen(s.wallets, s.payments, s.refunds, SetPayment(s, payment, target, action).payments, s.refunds);
  }

  lemma PaymentStepAccounted(s: State, a: PaymentAction)
    requires WellShaped(s) && Accounted(s.wallets, s.payments, s.refunds)
    ensures var s' := PaymentStep(s, a); Accounted(s'.wallets, s'.payments, s'.refunds)
  {
    match a
    case CreatePaymentAct(merchant, order, amount, gateway, wallet) => CreatePaymentAccounted(s, merchant, order, amount, gateway, wallet);
    case InterruptedAct(_, _, amount, wallet) => WalletMoveAccounted(s, wallet, amount, Orphan);
    case CaptureAct(merchant, payment, _) =>
      if OwnsPayment(s, merchant, payment) && P.Validates(s.payments[payment].status, P.Captured) {
        PaymentMoveAccounted(s, merchant, payment, P.Captured, P.PaymentCaptured);
      }
    case VoidAct(merchant, payment) =>
      if OwnsPayment(s, merchant, payment) && P.Validates(s.payments[payment].status, P.Voided) {
        PaymentMoveAccounted(s, merchant, payment, P.Voided, P.PaymentVoided);
      }
  }

  lemma NewRefundAccounted(s: State, row: R.Refund)
    requires Accounted(s.wallets, s.payments, s.refunds) && row.status == R.Created
    ensures Accounted(s.wallets, s.payments, s.refunds + [row])
  {
    forall p | 0 <= p < |s.payments| ensures R.Returned(s.refunds + [row], p) == R.Returned(s.refunds, p) {
      R.TotalAppend(s.refunds, row, p, {R.Success});
    }
    TablesUnseen(s.wallets, s.payments, s.refunds, s.payments, s.refunds + [row]);
  }

  lemma RefundStepAccounted(s: State, a: RefundAction)
    requires Accounted(s.wallets, s.payments, s.refunds)
    ensures var s' := RefundStep(s, a); Accounted(s'.wallets, s'.payments, s'.refunds)
  {
    OtherRefunds(s, OnRefund(a));
    var s' := RefundStep(s, a);
    if s'.refunds != s.refunds {
      NewRefundAccounted(s, s'.refunds[|s.refunds|]);
    }
  }

  /** A refund row that neither becomes nor ceases to be SUCCESS. */
  lemma RowUnseen(s: State, refund: nat, row: R.Refund)
    requires Accounted(s.wallets, s.payments, s.refunds) && refund < |s.refunds|
    requires row.payment == s.refunds[refund].payment && row.amount == s.refunds[refund].amount
    requires row.status == R.Success <==> s.refunds[refund].status == R.Success
    ensures Accounted(s.wallets, s.payments, s.refunds[refund := row])
  {
    forall p | 0 <= p < |s.payments| ensures R.Returned(s.refunds[refund := row], p) == R.Returned(s.refunds, p) {
      R.TotalUpdate(s.refunds, refund, row, p, {R.Success});
    }
    TablesUnseen(s.wallets, s.payments, s.refunds, s.payments, s.refunds[refund := row]);
  }

  /** The wallets after a committed success block. */
  lemma CommitWallets(s: State, t: nat)
    requires TaskAt(s, t, Paid) && CommitSuccess(s, t).Some?
    ensures
      var s' := CommitSuccess(s, t).value;
      var r := s.refunds[s.tasks[t].refund];
      var p := s.payments[r.payment];
      if ReturnsToWallet(p) then
        && r.amount > 0 && p.wallet.value < |s.wallets|
        && CreditRow(s.wallets[p.wallet.value], r.amount, ForRefund(s.tasks[t].refund)).Ok?
        && s'.wallets == s.wallets[p.wallet.value := CreditRow(s.wallets[p.wallet.value], r.amount, ForRefund(s.tasks[t].refund)).value]
      else s'.wallets == s.wallets
  {
  }

  lemma CommitAccounted(s: State, t: nat)
    requires RS.Invariant(s) && Accounted(s.wallets, s.payments, s.refunds) && Commits(s, Work(t, CommitAct))
    ensures var s' := Commit(s, t); Accounted(s'.wallets, s'.payments, s'.refunds)
  {
    var s' := CommitSuccess(s, t).value;
    var refund := s.tasks[t].refund;
    RS.CommitTables(s, t);
    CommitWallets(s, t);
    assert RS.TaskAgrees(s.tasks[t], s.refunds[refund]);
    assert RefundLinked(s.refunds[refund], s.payments);
    forall w | 0 <= w < |s'.wallets|
      ensures Conserved(s'.wallets[w], s'.payments, s'.refunds, w) && Traced(s'.wallets[w], s'.payments, s'.refunds, w)
    {
      RefundEntry(s.wallets[w], s'.wallets[w], s.payments, s.refunds, w, refund, s'.payments, s'.refunds[refund]);
    }
  }

  lemma WorkAccounted(s: State, t: nat, a: WorkerAction)
    requires RS.Invariant(s) && Accounted(s.wallets, s.payments, s.refunds) && !StaleEntry(s, Work(t, a))
    ensures var s' := WorkerStep(s, t, a); Accounted(s'.wallets, s'.payments, s'.refunds)
  {
    if t >= |s.tasks| {
      NoTask(s, t, a);
    } else if Commits(s, Work(t, a)) {
      CommitAccounted(s, t);
    } else {
      WorkerRow(s, t, a);
      assert RS.TaskAgrees(s.tasks[t], s.refunds[s.tasks[t].refund]);
      RowUnseen(s, s.tasks[t].refund, WorkerStep(s, t, a).refunds[s.tasks[t].refund]);
    }
  }

  lemma StepAccounted(s: State, a: Action)
    requires RS.Invariant(s) && Accounted(s.wallets, s.payments, s.refunds) && !StaleEntry(s, a)
    ensures var s' := Step(s, a); Accounted(s'.wallets, s'.payments, s'.refunds)
  {
    match a
    case OnOrder(act) => OrderStepFrame(s, act);
    case OnPayment(act) => PaymentStepAccounted(s, act);
    case OnRefund(act) => RefundStepAccounted(s, act);
    case Work(t, act) => WorkAccounted(s, t, act);
    case OnWallet(act) => WalletStepFrame(s, act); WalletStepAccounted(s, act);
    case Tick(_) =>
  }

  lemma {:induction false} RunAccounted(actions: seq<Action>)
    requires Disciplined(actions)
    ensures var s := Run(actions); Accounted(s.wallets, s.payments, s.refunds)
  {
    if actions != [] {
      var prefix := actions[..|actions| - 1];
      RunAccounted(prefix);
      RS.RunKeepsInvariant(prefix);
      StepAccounted(Run(prefix), actions[|actions| - 1]);
    }
  }

  // ----- the ledger chain needs no discipline at all

  /** Any credit or debit of any wallet keeps its chain. */
  ghost predicate MovesKeepChains(wallets: seq<Wallet>) {
    forall w, amount: int, reference :: 0 <= w < |wallets| && amount > 0 ==>
      && (CreditRow(wallets[w], amount, reference).Ok? ==> WalletOk(CreditRow(wallets[w], amount, reference).value))
      && (DebitRow(wallets[w], amount, reference).Ok? ==> WalletOk(DebitRow(wallets[w], amount, reference).value))
  }

  lemma WorkerKeepsChains(s: State, t: nat, a: WorkerAction)
    requires WalletsOk(s.wallets) && MovesKeepChains(s.wallets)
    ensures WalletsOk(WorkerStep(s, t, a).wallets)
  {
  }

  lemma PaymentKeepsChains(s: State, a: PaymentAction)
    requires WalletsOk(s.wallets) && MovesKeepChains(s.wallets)
    ensures WalletsOk(PaymentStep(s, a).wallets)
  {
  }

  lemma WalletKeepsChains(s: State, a: WalletAction)
    requires WalletsOk(s.wallets) && MovesKeepChains(s.wallets)
    ensures WalletsOk(WalletStep(s, a).wallets)
  {
  }

  lemma StepKeepsChains(s: State, a: Action)
    requires WalletsOk(s.wallets)
    ensures WalletsOk(Step(s, a).wallets)
  {
    forall w, amount: int, reference | 0 <= w < |s.wallets| && amount > 0
      ensures CreditRow(s.wallets[w], amount, reference).Ok? ==> WalletOk(CreditRow(s.wallets[w], amount, reference).value)
      ensures DebitRow(s.wallets[w], amount, reference).Ok? ==> WalletOk(DebitRow(s.wallets[w], amount, reference).value)
    {
      RowKeepsChain(s.wallets[w], amount, reference);
    }
    match a
    case Work(t, act) => WorkerKeepsChains(s, t, act);
    case OnOrder(act) => OrderStepFrame(s, act);
    case OnPayment(act) => PaymentKeepsChains(s, act);
    case OnWallet(act) => WalletKeepsChains(s, act);
    case _ =>
  }

  // ----- theorems

  /** In every run whatsoever, each wallet ledger is a chain that ends in the balance, and no balance is negative. */
  lemma {:induction false} LedgersAreChains(actions: seq<Action>)
    ensures WalletsOk(Run(actions).wallets)
    ensures forall w :: 0 <= w < |Run(actions).wallets| ==> Run(actions).wallets[w].balance >= 0
  {
    if actions != [] {
      var prefix := actions[..|actions| - 1];
      LedgersAreChains(prefix);
      StepKeepsChains(Run(prefix), actions[|actions| - 1]);
    }
    forall w | 0 <= w < |Run(actions).wallets| ensures Run(actions).wallets[w].balance >= 0 {
      RowKeepsChain(Run(actions).wallets[w], 1, Manual);
    }
  }

  // ----- the orphan debits are the deaths

  /** A request dies between its successful debit of this wallet and its payment row. */
  predicate DiesDebited(s: State, a: Action, wallet: nat) {
    && a.OnPayment? && a.payment.InterruptedAct? && a.payment.walletId == wallet
    && InterruptedWalletPayment(s, a.payment.merchant, a.payment.order, a.payment.amount, wallet).Ok?
  }

  /** What such deaths have debited from the wallet. */
  function DeathTotal(actions: seq<Action>, wallet: nat): int {
    if actions == [] then 0
    else
      var prefix, a := actions[..|actions| - 1], actions[|actions| - 1];
      DeathTotal(prefix, wallet) + if DiesDebited(Run(prefix), a, wallet) then a.payment.amount else 0
  }

  predicate EverDied(actions: seq<Action>, wallet: nat) {
    actions != [] &&
    var prefix := actions[..|actions| - 1];
    EverDied(prefix, wallet) || DiesDebited(Run(prefix), actions[|actions| - 1], wallet)
  }

  function OrphanAmount(w: Wallet): int {
    Booked(w.ledger, Debit, Orphan)
  }

  /** The ledger is as it was, or has one more entry that is no orphan. */
  predicate NoOrphanAdded(w: Wallet, w': Wallet) {
    w'.ledger == w.ledger ||
    (&& |w'.ledger| == |w.ledger| + 1 && w'.ledger == w.ledger + [w'.ledger[|w.ledger|]]
     && w'.ledger[|w.ledger|].reference != Orphan)
  }

  lemma NoOrphanCounts(w: Wallet, w': Wallet)
    requires NoOrphanAdded(w, w')
    ensures OrphanAmount(w') == OrphanAmount(w)
  {
    if w'.ledger != w.ledger {
      Appended(w.ledger, w'.ledger[|w.ledger|], Debit, Orphan);
    }
  }

  predicate NoOrphansAdded(wallets: seq<Wallet>, wallets': seq<Wallet>) {
    && |wallets| <= |wallets'|
    && (forall w :: 0 <= w < |wallets| ==> NoOrphanAdded(wallets[w], wallets'[w]))
    && (forall w :: |wallets| <= w < |wallets'| ==> wallets'[w].ledger == [])
  }

  lemma WorkerAddsNone(s: State, t: nat, a: WorkerAction)
    ensures NoOrphansAdded(s.wallets, WorkerStep(s, t, a).wallets)
  {
  }

  lemma PaymentAddsNone(s: State, a: PaymentAction)
    requires !a.InterruptedAct?
    ensures NoOrphansAdded(s.wallets, PaymentStep(s, a).wallets)
  {
  }

  lemma WalletAddsNone(s: State, a: WalletAction)
    ensures NoOrphansAdded(s.wallets, WalletStep(s, a).wallets)
  {
  }

  lemma DeathAdds(s: State, a: PaymentAction, wallet: nat)
    requires a.InterruptedAct? && wallet < |s.wallets|
    ensures |PaymentStep(s, a).wallets| == |s.wallets|
    ensures OrphanAmount(PaymentStep(s, a).wallets[wallet])
         == OrphanAmount(s.wallets[wallet]) + if DiesDebited(s, OnPayment(a), wallet) then a.amount else 0
  {
    var w, w' := s.wallets[wallet], PaymentStep(s, a).wallets[wallet];
    if w' != w {
      Appended(w.ledger, w'.ledger[|w.ledger|], Debit, Orphan);
    }
  }

  lemma StepOrphans(s: State, a: Action, wallet: nat)
    ensures |s.wallets| <= |Step(s, a).wallets|
    ensures wallet < |s.wallets| ==>
      OrphanAmount(Step(s, a).wallets[wallet])
      == OrphanAmount(s.wallets[wallet]) + if DiesDebited(s, a, wallet) then a.payment.amount else 0
    ensures |s.wallets| <= wallet < |Step(s, a).wallets| ==> OrphanAmount(Step(s, a).wallets[wallet]) == 0
    ensures wallet >= |s.wallets| ==> !DiesDebited(s, a, wallet)
  {
    hide WorkerStep, PaymentStep, WalletStep, OrderStep, OrphanAmount;
    if a.OnPayment? && a.payment.InterruptedAct? {
      DeathMoves(s, a.payment, wallet);
    } else {
      match a {
        case OnOrder(act) => OrderStepFrame(s, act);
        case OnPayment(act) => PaymentAddsNone(s, act);
        case OnRefund(_) =>
        case Work(t, act) => WorkerAddsNone(s, t, act);
        case OnWallet(act) => WalletAddsNone(s, act);
        case Tick(_) =>
      }
      NoneAdded(s.wallets, Step(s, a).wallets, wallet);
    }
  }

  lemma NoneAdded(wallets: seq<Wallet>, wallets': seq<Wallet>, wallet: nat)
    requires NoOrphansAdded(wallets, wallets')
    ensures wallet < |wallets| ==> OrphanAmount(wallets'[wallet]) == OrphanAmount(wallets[wallet])
    ensures |wallets| <= wallet < |wallets'| ==> OrphanAmount(wallets'[wallet]) == 0
  {
    if wallet < |wallets| { NoOrphanCounts(wallets[wallet], wallets'[wallet]); }
  }

  lemma DeathMoves(s: State, a: PaymentAction, wallet: nat)
    requires a.InterruptedAct?
    ensures |PaymentStep(s, a).wallets| == |s.wallets|
    ensures wallet < |s.wallets| ==>
      OrphanAmount(PaymentStep(s, a).wallets[wallet])
      == OrphanAmount(s.wallets[wallet]) + if DiesDebited(s, OnPayment(a), wallet) then a.amount else 0
  {
    if wallet < |s.wallets| { DeathAdds(s, a, wallet); }
  }

  /** In every run the orphan debits of a wallet are exactly what those deaths debited from it. */
  lemma {:induction false} OrphansAreDeaths(actions: seq<Action>, wallet: nat)
    ensures wallet < |Run(actions).wallets| ==> OrphanAmount(Run(actions).wallets[wallet]) == DeathTotal(actions, wallet)
    ensures wallet >= |Run(actions).wallets| ==> DeathTotal(actions, wallet) == 0 && !EverDied(actions, wallet)
    ensures DeathTotal(actions, wallet) >= 0 && (DeathTotal(actions, wallet) == 0 <==> !EverDied(actions, wallet))
  {
    if actions != [] {
      var prefix, a := actions[..|actions| - 1], actions[|actions| - 1];
      OrphansAreDeaths(prefix, wallet);
      StepOrphans(Run(prefix), a, wallet);
      if DiesDebited(Run(prefix), a, wallet) { DebitIsPositive(Run(prefix), a.payment, wallet); }
    }
  }

  lemma DebitIsPositive(s: State, a: PaymentAction, wallet: nat)
    requires DiesDebited(s, OnPayment(a), wallet)
    ensures a.amount > 0 && wallet < |s.wallets|
  {
  }

  /**
  End-to-end conservation. Over every disciplined run the balance is manual credits minus manual debits minus, over the
  wallet's collected payments, amount minus successful refunds, and minus exactly what requests debited that died before
  their payment row; so the first three explain it if and only if no request died there.
   */
  lemma BalanceExplained(actions: seq<Action>, wallet: nat)
    requires Disciplined(actions) && wallet < |Run(actions).wallets|
    ensures
      var s := Run(actions);
      var w := s.wallets[wallet];
      var explained := Booked(w.ledger, Credit, Manual) - Booked(w.ledger, Debit, Manual) - Held(s.payments, s.refunds, wallet);
      && w.balance == explained - DeathTotal(actions, wallet)
      && (w.balance == explained <==> !EverDied(actions, wallet))
  {
    RunAccounted(actions);
    OrphansAreDeaths(actions, wallet);
  }

  /** Every successful refund of a wallet payment has exactly one credit of its amount, in that wallet; every other refund has none anywhere. */
  lemma RefundCreditedOnce(actions: seq<Action>, wallet: nat, refund: nat)
    requires Disciplined(actions) && wallet < |Run(actions).wallets| && refund < |Run(actions).refunds|
    ensures
      var s := Run(actions);
      var r := s.refunds[refund];
      && r.payment < |s.payments|
      && Effects(s.wallets[wallet].ledger, ForRefund(refund))
         == if r.status == R.Success && s.payments[r.payment].gateway == P.WalletGateway && s.payments[r.payment].wallet == Some(wallet)
            then [r.amount] else []
  {
    RunAccounted(actions);
    RunIsShaped(actions);
    var s := Run(actions);
    assert RefundLinked(s.refunds[refund], s.payments);
    assert Traced(s.wallets[wallet], s.payments, s.refunds, wallet);
  }

  /** The wallet's entries for a payment: one debit of its amount if it was collected from this wallet, none otherwise. */
  predicate DebitedExactly(w: Wallet, wallet: nat, p: P.Payment, payment: nat) {
    Effects(w.ledger, ForPayment(payment)) == if PaidFrom(p, wallet) then [-p.amount] else []
  }

  lemma DebitTraced(wallets: seq<Wallet>, payments: seq<P.Payment>, refunds: seq<R.Refund>, wallet: nat, payment: nat)
    requires Accounted(wallets, payments, refunds) && wallet < |wallets| && payment < |payments|
    ensures DebitedExactly(wallets[wallet], wallet, payments[payment], payment)
  {
    assert Traced(wallets[wallet], payments, refunds, wallet);
    assert Effects(wallets[wallet].ledger, ForPayment(payment)) == PaymentEffect(payments, payment, wallet);
  }

  /** Every collected wallet payment has exactly one debit of its amount; every other payment has none. */
  lemma PaymentDebitedOnce(actions: seq<Action>, wallet: nat, payment: nat)
    requires Disciplined(actions) && wallet < |Run(actions).wallets| && payment < |Run(actions).payments|
    ensures DebitedExactly(Run(actions).wallets[wallet], wallet, Run(actions).payments[payment], payment)
  {
    RunAccounted(actions);
    var s := Run(actions);
    DebitTraced(s.wallets, s.payments, s.refunds, wallet, payment);
  }
}
