/**
Wallet rows and the pure effect of one locked wallet transaction.
Amounts are integer cents.
 */
module Wallets {
  import opened Prelude

  datatype WalletStatus = Active | Frozen | Closed

  datatype TxnKind = Credit | Debit

  /**
  Where a ledger entry came from. The code stores a free text reference; the model keeps the
  provenance itself, so a manual entry whose text happens to spell a refund id stays manual.
  `Orphan` marks a payment debit whose payment row was never inserted.
   */
  datatype Reference =
    | Manual
    | ForPayment(payment: nat)
    | ForRefund(refund: nat)
    | Orphan

  datatype Txn = Txn(kind: TxnKind, amount: int, before: int, after: int, reference: Reference)

  datatype Wallet = Wallet(balance: int, status: WalletStatus, ledger: seq<Txn>)

  datatype WalletError = InvalidAmount | WalletNotFound | WalletNotActive | InsufficientBalance

  const NEW_WALLET := Wallet(0, Active, [])

  function Delta(t: Txn): int {
    if t.kind.Credit? then t.amount else -t.amount
  }

  /** What credit_wallet commits for a checked amount, or the error it raises. */
  function CreditRow(w: Wallet, amount: int, reference: Reference): Result<Wallet, WalletError>
    requires amount > 0
  {
    if w.status != Active then Err(WalletNotActive)
    else
      var after := w.balance + amount;
      Ok(w.(balance := after, ledger := w.ledger + [Txn(Credit, amount, w.balance, after, reference)]))
  }

  /** What debit_wallet commits for a checked amount, or the error it raises. */
  function DebitRow(w: Wallet, amount: int, reference: Reference): Result<Wallet, WalletError>
    requires amount > 0
  {
    if w.status != Active then Err(WalletNotActive)
    else if w.balance < amount then Err(InsufficientBalance)
    else
      var after := w.balance - amount;
      Ok(w.(balance := after, ledger := w.ledger + [Txn(Debit, amount, w.balance, after, reference)]))
  }

  function BeforeEntry(ledger: seq<Txn>, i: nat): int
    requires i <= |ledger|
  {
    if i == 0 then 0 else ledger[i - 1].after
  }

  /** Entry i continues the entry before it by its own signed amount and leaves no negative balance. */
  ghost predicate EntryOk(ledger: seq<Txn>, i: nat)
    requires i < |ledger|
  {
    && ledger[i].amount > 0
    && ledger[i].before == BeforeEntry(ledger, i)
    && ledger[i].after == ledger[i].before + Delta(ledger[i])
    && ledger[i].after >= 0
  }

  /** The ledger starts from zero, each entry continues the one before it, and the last one is the balance. */
  ghost predicate WalletOk(w: Wallet) {
    && w.balance == BeforeEntry(w.ledger, |w.ledger|)
    && forall i :: 0 <= i < |w.ledger| ==> EntryOk(w.ledger, i)
  }

  /** A credit or debit keeps the chain, so the balance never goes below zero. */
  lemma RowKeepsChain(w: Wallet, amount: int, reference: Reference)
    requires WalletOk(w) && amount > 0
    ensures w.balance >= 0
    ensures var r := CreditRow(w, amount, reference); r.Ok? ==> WalletOk(r.value)
    ensures var r := DebitRow(w, amount, reference); r.Ok? ==> WalletOk(r.value)
  {
    assert w.ledger != [] ==> EntryOk(w.ledger, |w.ledger| - 1);
    forall r | r in [CreditRow(w, amount, reference), DebitRow(w, amount, reference)] && r.Ok?
      ensures WalletOk(r.value)
    {
      var ledger := r.value.ledger;
      forall i | 0 <= i < |ledger| ensures EntryOk(ledger, i) {
        if i < |w.ledger| {
          assert EntryOk(w.ledger, i);
        }
      }
    }
  }
}
