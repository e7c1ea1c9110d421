/** Refunds, their declared transition table, the audit ledger and its grammar, and the totals the service computes. */
module Refunds {
  datatype RefundStatus = Created | Processing | Success | Failed

  datatype RefundAction = RefundCreated | RefundProcessing | RefundSuccess | RefundFailed

  datatype RefundEntry = RefundEntry(action: RefundAction, amount: int, status: RefundStatus)

  datatype FailureCode = NoFailure | GatewayRefundFailed | MaxRetriesExceeded

  /**
  `gatewayRef` says whether the row holds a gateway refund id; `events` lists its RefundEvent rows by status and
  `deadLetters` the retry counts of its dead-letter records. `payouts` is not a column: it counts how often the
  gateway answered "refunded".
   */
  datatype Refund = Refund(
    payment: nat,
    merchant: nat,
    amount: int,
    status: RefundStatus,
    failureCode: FailureCode,
    gatewayRef: bool,
    ledger: seq<RefundEntry>,
    events: seq<RefundStatus>,
    deadLetters: seq<nat>,
    payouts: nat)

  function AllowedFrom(status: RefundStatus): set<RefundStatus> {
    match status
    case Created => {Processing}
    case Processing => {Success, Failed}
    case Success => {}
    case Failed => {}
  }

  predicate Validates(current: RefundStatus, target: RefundStatus) {
    current == target || target in AllowedFrom(current)
  }

  predicate Terminal(status: RefundStatus) {
    status == Success || status == Failed
  }

  function ActionFor(status: RefundStatus): RefundAction {
    match status
    case Created => RefundCreated
    case Processing => RefundProcessing
    case Success => RefundSuccess
    case Failed => RefundFailed
  }

  function EntryOf(r: Refund, status: RefundStatus): RefundEntry {
    RefundEntry(ActionFor(status), r.amount, status)
  }

  /** The three autocommitted writes of update_refund_status: the row, its ledger entry and its event. */
  function SaveRow(r: Refund, status: RefundStatus, code: FailureCode, ref: bool): Refund {
    r.(status := status, failureCode := code, gatewayRef := ref)
  }

  function LogRow(r: Refund, status: RefundStatus): Refund {
    r.(ledger := r.ledger + [EntryOf(r, status)])
  }

  function NotifyRow(r: Refund, status: RefundStatus): Refund {
    r.(events := r.events + [status])
  }

  /** All three, as they happen inside a transaction. */
  function WriteRow(r: Refund, status: RefundStatus, code: FailureCode, ref: bool): Refund {
    NotifyRow(LogRow(SaveRow(r, status, code, ref), status), status)
  }

  /** A new row with the first `written` of its ledger entry and its event. */
  function NewRefundPart(payment: nat, merchant: nat, amount: int, written: nat): Refund {
    var row := Refund(payment, merchant, amount, Created, NoFailure, false, [], [], [], 0);
    if written == 0 then row else if written == 1 then LogRow(row, Created) else NotifyRow(LogRow(row, Created), Created)
  }

  function NewRefund(payment: nat, merchant: nat, amount: int): Refund {
    NewRefundPart(payment, merchant, amount, 2)
  }

  /** A complete new row: CREATED, with that entry and that event, and nothing else. */
  lemma NewRefundIs(payment: nat, merchant: nat, amount: int)
    ensures NewRefund(payment, merchant, amount)
         == Refund(payment, merchant, amount, Created, NoFailure, false, [RefundEntry(RefundCreated, amount, Created)], [Created], [], 0)
  {
    var events: seq<RefundStatus>, ledger: seq<RefundEntry> := [], [];
    assert events + [Created] == [Created];
    assert ledger + [RefundEntry(RefundCreated, amount, Created)] == [RefundEntry(RefundCreated, amount, Created)];
  }

  // ----- the ledger grammar: CREATED PROCESSING* (SUCCESS | FAILED)?

  /** Entry i is a later entry: same amount, matching action, never CREATED, and nothing follows a terminal one. */
  ghost predicate EntryFollows(r: Refund, i: nat)
    requires 0 < i < |r.ledger|
  {
    && r.ledger[i] == EntryOf(r, r.ledger[i].status)
    && r.ledger[i].status != Created
    && !Terminal(r.ledger[i - 1].status)
  }

  ghost predicate LedgerOk(r: Refund) {
    && r.ledger != []
    && r.ledger[0] == EntryOf(r, Created)
    && r.ledger[|r.ledger| - 1].status == r.status
    && forall i :: 0 < i < |r.ledger| ==> EntryFollows(r, i)
  }

  // ----- totals over the refund table

  function Share(r: Refund, payment: nat, statuses: set<RefundStatus>): int {
    if r.payment == payment && r.status in statuses then r.amount else 0
  }

  /** The Sum aggregate over the refunds of one payment whose status is in the given list. */
  function Total(refunds: seq<Refund>, payment: nat, statuses: set<RefundStatus>): int {
    if refunds == [] then 0
    else
      var n := |refunds| - 1;
      Total(refunds[..n], payment, statuses) + Share(refunds[n], payment, statuses)
  }

  const RESERVING: set<RefundStatus> := {Created, Processing, Success}

  /** get_total_refunded_amount_for_payment: pending refunds count as already refunded. */
  function Reserved(refunds: seq<Refund>, payment: nat): int {
    Total(refunds, payment, RESERVING)
  }

  function Returned(refunds: seq<Refund>, payment: nat): int {
    Total(refunds, payment, {Success})
  }

  function Outstanding(refunds: seq<Refund>, payment: nat): int {
    Total(refunds, payment, {Created, Processing})
  }

  lemma TotalAppend(refunds: seq<Refund>, r: Refund, payment: nat, statuses: set<RefundStatus>)
    ensures Total(refunds + [r], payment, statuses) == Total(refunds, payment, statuses) + Share(r, payment, statuses)
    ensures Total(refunds + [r], payment, statuses)
         == Total(refunds, payment, statuses) + if r.payment == payment && r.status in statuses then r.amount else 0
  {
    assert (refunds + [r])[..|refunds|] == refunds;
  }

  lemma {:induction false} TotalUpdate(refunds: seq<Refund>, i: nat, r: Refund, payment: nat, statuses: set<RefundStatus>)
    requires i < |refunds|
    ensures Total(refunds[i := r], payment, statuses)
         == Total(refunds, payment, statuses) - Share(refunds[i], payment, statuses) + Share(r, payment, statuses)
  {
    var n := |refunds| - 1;
    if i == n {
      assert refunds[i := r][..n] == refunds[..n];
    } else {
      assert refunds[i := r][..n] == refunds[..n][i := r];
      TotalUpdate(refunds[..n], i, r, payment, statuses);
    }
  }

  lemma {:induction false} ReservedSplits(refunds: seq<Refund>, payment: nat)
    ensures Reserved(refunds, payment) == Returned(refunds, payment) + Outstanding(refunds, payment)
  {
    if refunds != [] {
      ReservedSplits(refunds[..|refunds| - 1], payment);
    }
  }

  /** A total is never negative, and it is zero exactly when no refund contributes to it. */
  lemma {:induction false} TotalZero(refunds: seq<Refund>, payment: nat, statuses: set<RefundStatus>)
    requires forall i :: 0 <= i < |refunds| ==> refunds[i].amount > 0
    ensures Total(refunds, payment, statuses) >= 0
    ensures Total(refunds, payment, statuses) == 0
       <==> forall i :: 0 <= i < |refunds| ==> !(refunds[i].payment == payment && refunds[i].status in statuses)
  {
    if refunds != [] {
      var n := |refunds| - 1;
      TotalZero(refunds[..n], payment, statuses);
      assert forall i :: 0 <= i < n ==> refunds[..n][i] == refunds[i];
    }
  }
}
