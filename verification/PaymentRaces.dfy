/**
create_payment, cancel_order and expire_order on one PENDING order, without the assumption that they are one step: any
number of requests, each checking the order, then calling the gateway (a payment), then writing its status and recording
its payment. The code takes no lock in between.
 */
module PaymentRaces {
  import opened Prelude
  import opened Schedules
  import opened GuardedWrites
  import E = Engine
  import O = Orders

  /** What the gateway says to a payment; a declined one is recorded without a word to the order. */
  datatype Answer = Captures | Authorizes | Declines

  datatype Request = Pay(amount: int, answer: Answer) | Cancel | Expire

  /** `collected` counts the captured payments of the order. */
  datatype Row = Row(order: O.Order, collected: nat)

  function Target(request: Request): Option<O.OrderStatus> {
    match request
    case Pay(_, Captures) => Some(O.Paid)
    case Pay(_, Authorizes) => Some(O.Processing)
    case Pay(_, Declines) => None
    case Cancel => Some(O.Cancelled)
    case Expire => Some(O.Expired)
  }

  /** The check, with the order's amount, which nothing changes. */
  predicate Admits(request: Request, o: O.Order, due: int) {
    match request
    case Pay(amount, _) => E.AcceptsPayment(o.status) && amount == due
    case Cancel => O.Validates(o.status, O.Cancelled)
    case Expire => O.Validates(o.status, O.Expired)
  }

  function Write(request: Request, row: Row): Row {
    match Target(request)
    case None => row
    case Some(status) => Row(O.WithStatus(row.order, status), if status == O.Paid then row.collected + 1 else row.collected)
  }

  function RulesFor(requests: nat -> Request, due: int): Rules<Row> {
    Rules(Row(O.NewOrder(0, due, 0), 0), (c, row: Row) => Admits(requests(c), row.order, due), (c, row) => Write(requests(c), row))
  }

  function Final(schedule: seq<nat>, requests: nat -> Request, due: int): Row {
    Run(schedule, RulesFor(requests, due)).row
  }

  /** For some requests the order collects more than one payment. */
  ghost predicate CanCollectTwice(schedule: seq<nat>) {
    exists requests: nat -> Request, due: int :: Final(schedule, requests, due).collected > 1
  }

  /** The order's history has one status right after the other. */
  ghost predicate Records(o: O.Order, over: O.OrderStatus, status: O.OrderStatus) {
    exists i :: 0 < i < |o.events| && o.events[i - 1].status == over && o.events[i].status == status
  }

  ghost predicate CanWriteOver(schedule: seq<nat>, over: O.OrderStatus, status: O.OrderStatus) {
    exists requests: nat -> Request, due: int :: Records(Final(schedule, requests, due).order, over, status)
  }

  // ----- nobody overtaken

  ghost predicate InOrder(row: Row) {
    && O.FollowsTable(row.order) && row.order.status in {O.Pending, O.Processing, O.Paid, O.Cancelled, O.Expired}
    && row.collected <= 1 && (row.collected == 1 ==> row.order.status == O.Paid)
  }

  lemma WritesInOrder(request: Request, row: Row, due: int)
    requires InOrder(row) && Admits(request, row.order, due)
    ensures InOrder(Write(request, row))
  {
    if Target(request).Some? { O.StatusFollowsTable(row.order, Target(request).value); }
  }

  lemma InOrderWhenNotOvertaken(schedule: seq<nat>, requests: nat -> Request, due: int)
    requires !Overtaken(schedule, CHECK)
    ensures InOrder(Final(schedule, requests, due))
  {
    var rules := RulesFor(requests, due);
    forall c: nat, row: Row | InOrder(row) && rules.admits(c, row) ensures InOrder(rules.write(c, row)) {
      WritesInOrder(requests(c), row, due);
    }
    GuardedWhenNotOvertaken(schedule, rules, row => InOrder(row));
  }

  // ----- somebody overtaken

  /** All but two requests ask for the wrong amount. */
  function Two(c: nat, first: Request, d: nat, second: Request): nat -> Request {
    x => if x == c then first else if x == d then second else Pay(0, Declines)
  }

  lemma TwoWrite(schedule: seq<nat>, i: nat, j: nat, k: nat, first: Request, second: Request)
    requires OvertakenAt(schedule, CHECK, i, j, k)
    requires Admits(first, O.NewOrder(0, 1, 0), 1) && Admits(second, O.NewOrder(0, 1, 0), 1)
    ensures
      Final(schedule, Two(schedule[k], first, schedule[j], second), 1) == Write(first, Write(second, Row(O.NewOrder(0, 1, 0), 0)))
  {
    var requests := Two(schedule[k], first, schedule[j], second);
    var rules := RulesFor(requests, 1);
    forall x: nat, row: Row | x != schedule[k] && x != schedule[j] ensures !rules.admits(x, row) {
      assert requests(x) == Pay(0, Declines);
    }
    OvertakenWrites(schedule, i, j, k, rules);
  }

  // ----- theorems

  /** An order can collect more than one payment if and only if some request's write goes between another's check and write. */
  lemma CollectedTwiceExactly(schedule: seq<nat>)
    ensures CanCollectTwice(schedule) <==> Overtaken(schedule, CHECK)
  {
    if Overtaken(schedule, CHECK) {
      var i: nat, j: nat, k: nat :| OvertakenAt(schedule, CHECK, i, j, k);
      TwoWrite(schedule, i, j, k, Pay(1, Captures), Pay(1, Captures));
    } else if CanCollectTwice(schedule) {
      var requests: nat -> Request, due: int :| Final(schedule, requests, due).collected > 1;
      InOrderWhenNotOvertaken(schedule, requests, due);
    }
  }

  predicate Writable(status: O.OrderStatus) {
    status in {O.Processing, O.Paid, O.Cancelled, O.Expired}
  }

  function RequestFor(status: O.OrderStatus): Request
    requires Writable(status)
  {
    match status
    case Paid => Pay(1, Captures)
    case Cancelled => Cancel
    case Expired => Expire
    case _ => Pay(1, Authorizes)
  }

  /**
  Whatever the table does not let follow, of the statuses these requests write, can follow one another in the order's
  history under exactly the same schedules.
   */
  lemma UnlistedWriteExactly(schedule: seq<nat>, over: O.OrderStatus, status: O.OrderStatus)
    requires Writable(over) && Writable(status) && !O.Validates(over, status)
    ensures CanWriteOver(schedule, over, status) <==> Overtaken(schedule, CHECK)
  {
    if Overtaken(schedule, CHECK) {
      var i: nat, j: nat, k: nat :| OvertakenAt(schedule, CHECK, i, j, k);
      var first, second := RequestFor(status), RequestFor(over);
      TwoWrite(schedule, i, j, k, first, second);
      var o := Final(schedule, Two(schedule[k], first, schedule[j], second), 1).order;
      assert o.events[1].status == over && o.events[2].status == status;
      assert Records(o, over, status);
    } else if CanWriteOver(schedule, over, status) {
      var requests: nat -> Request, due: int :| Records(Final(schedule, requests, due).order, over, status);
      InOrderWhenNotOvertaken(schedule, requests, due);
    }
  }

  /** The history follows the table, for whatever requests, if and only if nobody is overtaken. */
  lemma FollowsTableExactly(schedule: seq<nat>)
    ensures
      (forall requests: nat -> Request, due: int :: O.FollowsTable(Final(schedule, requests, due).order)) <==> !Overtaken(schedule, CHECK)
  {
    if Overtaken(schedule, CHECK) {
      UnlistedWriteExactly(schedule, O.Cancelled, O.Paid);
      var requests: nat -> Request, due: int :| Records(Final(schedule, requests, due).order, O.Cancelled, O.Paid);
      assert !O.FollowsTable(Final(schedule, requests, due).order);
    } else {
      forall requests: nat -> Request, due: int ensures O.FollowsTable(Final(schedule, requests, due).order) {
        InOrderWhenNotOvertaken(schedule, requests, due);
      }
    }
  }

  /** Two requests in step are both charged and both recorded. */
  lemma TwoRequestsInStep()
    ensures Final([0, 1, 0, 1, 0, 1], _ => Pay(1000, Captures), 1000).collected == 2
  {
    var requests: nat -> Request := _ => Pay(1000, Captures);
    var rules := RulesFor(requests, 1000);
    var start := rules.start;
    assert requests(0) == requests(1) == Pay(1000, Captures);
    assert [0, 1, 0, 1, 0, 1][..5] == [0, 1, 0, 1, 0] && [0, 1, 0, 1, 0][..4] == [0, 1, 0, 1];
    assert [0, 1, 0, 1][..3] == [0, 1, 0] && [0, 1, 0][..2] == [0, 1] && [0, 1][..1] == [0] && [0][..0] == [];
    assert Run([0], rules) == State(start, map[0 := Admitted(0)]);
    assert Run([0, 1], rules) == State(start, map[0 := Admitted(0), 1 := Admitted(1)]);
    assert Run([0, 1, 0], rules) == State(start, map[0 := Working(0), 1 := Admitted(1)]);
    assert Run([0, 1, 0, 1], rules) == State(start, map[0 := Working(0), 1 := Working(1)]);
  }

  /** A request on its own does to a PENDING order what its service does. */
  lemma LoneRequest(request: Request, due: int)
    ensures
      var row := Final([0, 0, 0], _ => request, due);
      && row.collected == (if request == Pay(due, Captures) then 1 else 0)
      && row.order.status == match request
                             case Pay(amount, Captures) => if amount == due then O.Paid else O.Pending
                             case Pay(amount, Authorizes) => if amount == due then O.Processing else O.Pending
                             case Pay(_, Declines) => O.Pending
                             case Cancel => O.Cancelled
                             case Expire => O.Expired
  {
    var requests: nat -> Request := _ => request;
    var rules := RulesFor(requests, due);
    assert requests(0) == request;
    var first := if Admits(request, rules.start.order, due) then Admitted(0) else GuardedWrites.Phase.Refused;
    assert [0, 0, 0][..2] == [0, 0] && [0, 0][..1] == [0] && [0][..0] == [];
    assert Run([0], rules) == State(rules.start, map[0 := first]);
    assert Run([0, 0], rules) == State(rules.start, map[0 := if first.Admitted? then Working(0) else first]);
  }
}
