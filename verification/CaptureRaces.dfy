/**
capture_payment, void_payment and refunds on one payment, without the assumption that they are one step: any number of
requests, each checking the payment, then calling the gateway, then saving a status. A refund's save is the atomic block
of its task.
 */
module CaptureRaces {
  import opened Schedules
  import opened GuardedWrites
  import P = Payments

  /** `whole` says whether the block, which adds up all refunds of the payment, finds it refunded in full. */
  datatype Request = Capture | Void | Refund(amount: int, whole: bool)

  /** `returned` is what the refunds returned. */
  datatype Row = Row(payment: P.Payment, returned: int)

  predicate Admits(request: Request, p: P.Payment) {
    match request
    case Capture => P.Validates(p.status, P.Captured)
    case Void => P.Validates(p.status, P.Voided)
    case Refund(amount, _) => P.Refundable(p.status) && 0 < amount <= p.amount
  }

  function Write(request: Request, row: Row): Row {
    match request
    case Capture => row.(payment := P.WithStatus(row.payment, P.Captured, P.PaymentCaptured))
    case Void => row.(payment := P.WithStatus(row.payment, P.Voided, P.PaymentVoided))
    case Refund(amount, whole) =>
      Row(row.payment.(status := if whole then P.FullyRefunded else P.PartiallyRefunded), row.returned + amount)
  }

  function RulesFor(requests: nat -> Request, p: P.Payment): Rules<Row> {
    Rules(Row(p, 0), (c, row: Row) => Admits(requests(c), row.payment), (c, row) => Write(requests(c), row))
  }

  function Final(schedule: seq<nat>, requests: nat -> Request, p: P.Payment): Row {
    Run(schedule, RulesFor(requests, p)).row
  }

  /** Money was returned, and the status does not say so. */
  predicate Hidden(row: Row) {
    row.returned > 0 && row.payment.status !in {P.PartiallyRefunded, P.FullyRefunded}
  }

  predicate CapturedAndVoided(p: P.Payment) {
    P.PaymentCaptured in p.events && P.PaymentVoided in p.events
  }

  ghost predicate CanHide(schedule: seq<nat>, p: P.Payment) {
    exists requests: nat -> Request :: Hidden(Final(schedule, requests, p))
  }

  ghost predicate CanDoBoth(schedule: seq<nat>, p: P.Payment) {
    exists requests: nat -> Request :: CapturedAndVoided(Final(schedule, requests, p).payment)
  }

  // ----- nobody overtaken

  predicate InOrder(row: Row) {
    var p := row.payment;
    && row.returned >= 0 && !Hidden(row)
    && match p.status
       case Authorized => P.PaymentCaptured !in p.events && P.PaymentVoided !in p.events && row.returned == 0
       case Voided => P.PaymentCaptured !in p.events && row.returned == 0
       case Captured => P.PaymentVoided !in p.events
       case PartiallyRefunded => P.PaymentVoided !in p.events
       case FullyRefunded => P.PaymentVoided !in p.events
       case _ => false
  }

  lemma WritesInOrder(request: Request, row: Row)
    requires InOrder(row) && Admits(request, row.payment)
    ensures InOrder(Write(request, row))
  {
  }

  lemma InOrderWhenNotOvertaken(schedule: seq<nat>, requests: nat -> Request, p: P.Payment)
    requires !Overtaken(schedule, CHECK) && InOrder(Row(p, 0))
    ensures InOrder(Final(schedule, requests, p))
  {
    var rules := RulesFor(requests, p);
    forall c: nat, row: Row | InOrder(row) && rules.admits(c, row) ensures InOrder(rules.write(c, row)) {
      WritesInOrder(requests(c), row);
    }
    GuardedWhenNotOvertaken(schedule, rules, row => InOrder(row));
  }

  // ----- somebody overtaken

  /** All but two requests are refunds of nothing. */
  function Two(c: nat, first: Request, d: nat, second: Request): nat -> Request {
    x => if x == c then first else if x == d then second else Refund(0, false)
  }

  lemma TwoWrite(schedule: seq<nat>, i: nat, j: nat, k: nat, first: Request, second: Request, p: P.Payment)
    requires OvertakenAt(schedule, CHECK, i, j, k) && Admits(first, p) && Admits(second, p)
    ensures Final(schedule, Two(schedule[k], first, schedule[j], second), p) == Write(first, Write(second, Row(p, 0)))
  {
    var requests := Two(schedule[k], first, schedule[j], second);
    var rules := RulesFor(requests, p);
    forall x: nat, row: Row | x != schedule[k] && x != schedule[j] ensures !rules.admits(x, row) {
      assert requests(x) == Refund(0, false);
    }
    OvertakenWrites(schedule, i, j, k, rules);
  }

  // ----- theorems

  /** A captured payment that was never voided. */
  predicate JustCaptured(p: P.Payment) {
    p.status == P.Captured && p.amount > 0 && P.PaymentVoided !in p.events
  }

  predicate JustAuthorized(p: P.Payment) {
    p.status == P.Authorized && P.PaymentCaptured !in p.events && P.PaymentVoided !in p.events
  }

  /**
  A captured payment can end up without a sign of its refunds if and only if some request's save goes between another's
  check and save.
   */
  lemma RefundHiddenExactly(schedule: seq<nat>, p: P.Payment)
    requires JustCaptured(p)
    ensures CanHide(schedule, p) <==> Overtaken(schedule, CHECK)
  {
    if Overtaken(schedule, CHECK) {
      var i: nat, j: nat, k: nat :| OvertakenAt(schedule, CHECK, i, j, k);
      TwoWrite(schedule, i, j, k, Capture, Refund(1, false), p);
    } else if CanHide(schedule, p) {
      var requests: nat -> Request :| Hidden(Final(schedule, requests, p));
      InOrderWhenNotOvertaken(schedule, requests, p);
    }
  }

  /** An authorized payment can be both captured and voided under exactly the same schedules. */
  lemma CapturedAndVoidedExactly(schedule: seq<nat>, p: P.Payment)
    requires JustAuthorized(p)
    ensures CanDoBoth(schedule, p) <==> Overtaken(schedule, CHECK)
  {
    if Overtaken(schedule, CHECK) {
      var i: nat, j: nat, k: nat :| OvertakenAt(schedule, CHECK, i, j, k);
      TwoWrite(schedule, i, j, k, Void, Capture, p);
    } else if CanDoBoth(schedule, p) {
      var requests: nat -> Request :| CapturedAndVoided(Final(schedule, requests, p).payment);
      InOrderWhenNotOvertaken(schedule, requests, p);
    }
  }

  /** A request on its own does to the payment what its service does. */
  lemma LoneRequest(request: Request, p: P.Payment)
    ensures
      var row := Final([0, 0, 0], _ => request, p);
      match request
      case Capture => row.payment.status == if p.status in {P.Created, P.Authorized, P.Captured} then P.Captured else p.status
      case Void => row.payment.status == if p.status in {P.Authorized, P.Voided} then P.Voided else p.status
      case Refund(amount, whole) =>
        if p.status in {P.Captured, P.Settled, P.PartiallyRefunded} && 0 < amount <= p.amount
        then row.returned == amount && row.payment.status == if whole then P.FullyRefunded else P.PartiallyRefunded
        else row == Row(p, 0)
  {
    var requests: nat -> Request := _ => request;
    var rules := RulesFor(requests, p);
    assert requests(0) == request;
    var first := if Admits(request, p) then Admitted(0) else GuardedWrites.Phase.Refused;
    assert [0, 0, 0][..2] == [0, 0] && [0, 0][..1] == [0] && [0][..0] == [];
    assert Run([0], rules) == State(rules.start, map[0 := first]);
    assert Run([0, 0], rules) == State(rules.start, map[0 := if first.Admitted? then Working(0) else first]);
  }
}
