/** Payments, their declared transition table and the row update that writes a ledger entry. */
module Payments {
  import opened Prelude

  /** The last two are written by the refund task as plain strings outside the declared choices. */
  datatype PaymentStatus =
    | Created | Authorized | Captured | Settled | Failed | Voided
    | PartiallyRefunded | FullyRefunded

  datatype Gateway = Dummy | Stripe | Razorpay | WalletGateway | Cod

  datatype PaymentAction = PaymentCreated | PaymentCaptured | PaymentVoided

  /** The codes the wallet adapter gives for a payment it could not make. */
  datatype FailureCode = NoFailure | MissingWalletId | WalletDebitFailed

  datatype PaymentEntry = PaymentEntry(action: PaymentAction, amount: int, status: PaymentStatus)

  /** `events` lists its PaymentEvent rows by type. */
  datatype Payment = Payment(
    order: nat,
    merchant: nat,
    amount: int,
    gateway: Gateway,
    wallet: Option<nat>,
    status: PaymentStatus,
    failureCode: FailureCode,
    ledger: seq<PaymentEntry>,
    events: seq<PaymentAction>)

  function AllowedFrom(status: PaymentStatus): set<PaymentStatus> {
    match status
    case Created => {Authorized, Captured, Failed}
    case Authorized => {Captured, Voided, Failed}
    case Captured => {Settled}
    case _ => {}
  }

  predicate Validates(current: PaymentStatus, target: PaymentStatus) {
    current == target || target in AllowedFrom(current)
  }

  predicate Immediate(gateway: Gateway) {
    gateway in {Dummy, Cod, WalletGateway}
  }

  /** The money was captured, whether or not some of it has been refunded since. */
  predicate Collected(status: PaymentStatus) {
    status in {Captured, Settled, PartiallyRefunded, FullyRefunded}
  }

  predicate Refundable(status: PaymentStatus) {
    status in {Captured, Settled, PartiallyRefunded}
  }

  function NewPayment(order: nat, merchant: nat, amount: int, gateway: Gateway, wallet: Option<nat>, status: PaymentStatus): Payment {
    Payment(order, merchant, amount, gateway, wallet, status, NoFailure, [PaymentEntry(PaymentCreated, amount, status)], [PaymentCreated])
  }

  /** A failed payment keeps the adapter's code; `asked` is the wallet the request named. */
  function WithFailure(p: Payment, asked: Option<nat>): Payment {
    if p.status == Failed then p.(failureCode := if asked.None? then MissingWalletId else WalletDebitFailed) else p
  }

  function WithStatus(p: Payment, status: PaymentStatus, action: PaymentAction): Payment {
    p.(status := status, ledger := p.ledger + [PaymentEntry(action, p.amount, status)], events := p.events + [action])
  }
}
