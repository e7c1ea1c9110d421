/**
create_refund without the assumption that its check and its insert are one step: any number of requests for one
payment, each reading the reserved total and inserting its row later. The code takes no lock in between.
 */
module RefundRaces {
  import opened Schedules

  /** `at` is the moment of the insert. */
  datatype Row = Row(request: nat, amount: int, failed: bool, at: nat)

  datatype Phase = Fresh | Checked(total: int, at: nat) | Refused | Pending | Failed

  datatype State = State(rows: seq<Row>, phases: map<nat, Phase>)

  function PhaseOf(s: State, c: nat): Phase {
    if c in s.phases then s.phases[c] else Fresh
  }

  function Share(row: Row): int {
    if row.failed then 0 else row.amount
  }

  /** The Sum over the rows that have not failed. */
  function Reserved(rows: seq<Row>): int {
    if rows == [] then 0 else Reserved(rows[..|rows| - 1]) + Share(rows[|rows| - 1])
  }

  function FailRows(rows: seq<Row>, c: nat): seq<Row> {
    seq(|rows|, i requires 0 <= i < |rows| => if rows[i].request == c then rows[i].(failed := true) else rows[i])
  }

  /** The next statement of request c: its check, its insert, and the failure of its refund. */
  function Step(s: State, c: nat, now: nat, amounts: nat -> int, captured: nat): State {
    match PhaseOf(s, c)
    case Fresh =>
      var total := Reserved(s.rows);
      var next := if amounts(c) <= 0 || amounts(c) > captured - total then Refused else Checked(total, now);
      s.(phases := s.phases[c := next])
    case Checked(_, _) => State(s.rows + [Row(c, amounts(c), false, now)], s.phases[c := Pending])
    case Pending => State(FailRows(s.rows, c), s.phases[c := Failed])
    case _ => s
  }

  /** A schedule says which request moves next; its first move is the check, its second the insert, its third the failure. */
  function Run(schedule: seq<nat>, amounts: nat -> int, captured: nat): State {
    if schedule == [] then State([], map[])
    else
      var n := |schedule| - 1;
      Step(Run(schedule[..n], amounts, captured), schedule[n], n, amounts, captured)
  }

  // ----- the condition, on the schedule alone

  /** The insert at j goes between the check at i and the insert at k of another request, and has not failed by then. */
  predicate RaceAt(schedule: seq<nat>, i: nat, j: nat, k: nat) {
    && i < j < k < |schedule|
    && schedule[i] == schedule[k] != schedule[j]
    && IsMove(schedule, i, 0) && IsMove(schedule, j, 1) && IsMove(schedule, k, 1)
    && Moves(schedule[..k], schedule[j]) == 2
  }

  ghost predicate Races(schedule: seq<nat>) {
    exists i: nat, j: nat, k: nat :: RaceAt(schedule, i, j, k)
  }

  /** At some moment of the run more is reserved than was captured. */
  predicate EverOverReserved(schedule: seq<nat>, amounts: nat -> int, captured: nat) {
    schedule != [] &&
    (EverOverReserved(schedule[..|schedule| - 1], amounts, captured) || Reserved(Run(schedule, amounts, captured).rows) > captured)
  }

  // ----- a schedule without a race

  function Before(rows: seq<Row>, at: nat): int {
    if rows == [] then 0
    else
      var n := |rows| - 1;
      Before(rows[..n], at) + if rows[n].at < at then Share(rows[n]) else 0
  }

  predicate RowSound(s: State, schedule: seq<nat>, row: Row) {
    && row.amount > 0 && row.at < |schedule| && schedule[row.at] == row.request && IsMove(schedule, row.at, 1)
    && (!row.failed ==> PhaseOf(s, row.request) == Pending)
  }

  predicate RequestSound(s: State, schedule: seq<nat>, amounts: nat -> int, captured: nat, c: nat) {
    match PhaseOf(s, c)
    case Fresh => Moves(schedule, c) == 0
    case Checked(total, at) =>
      && Moves(schedule, c) == 1 && at < |schedule| && schedule[at] == c && IsMove(schedule, at, 0)
      && Before(s.rows, at) <= total && 0 < amounts(c) <= captured - total
    case Pending => Moves(schedule, c) == 2
    case _ => true
  }

  ghost predicate Sound(s: State, schedule: seq<nat>, amounts: nat -> int, captured: nat) {
    && (forall x :: 0 <= x < |s.rows| ==> RowSound(s, schedule, s.rows[x]))
    && (forall c: nat :: RequestSound(s, schedule, amounts, captured, c))
    && Reserved(s.rows) <= captured
  }

  /** Appending a row adds its share, before a later moment only. */
  lemma RowAppended(rows: seq<Row>, row: Row, at: nat)
    ensures Reserved(rows + [row]) == Reserved(rows) + Share(row)
    ensures Before(rows + [row], at) == Before(rows, at) + if row.at < at then Share(row) else 0
  {
    assert (rows + [row])[..|rows|] == rows;
  }

  lemma {:induction false} FailingLowers(rows: seq<Row>, c: nat, at: nat)
    requires forall x :: 0 <= x < |rows| ==> rows[x].amount > 0
    ensures Reserved(FailRows(rows, c)) <= Reserved(rows)
    ensures Before(FailRows(rows, c), at) <= Before(rows, at)
  {
    if rows != [] {
      var n := |rows| - 1;
      FailingLowers(rows[..n], c, at);
      assert FailRows(rows, c)[..n] == FailRows(rows[..n], c);
    }
  }

  /** All that is reserved now was reserved before the moment, unless a later row is still pending. */
  lemma {:induction false} NothingLater(rows: seq<Row>, at: nat)
    requires forall x :: 0 <= x < |rows| && !rows[x].failed ==> rows[x].at < at
    ensures Before(rows, at) == Reserved(rows)
  {
    if rows != [] {
      NothingLater(rows[..|rows| - 1], at);
    }
  }

  lemma RequestsSound(s: State, s': State, schedule: seq<nat>, c: nat, amounts: nat -> int, captured: nat)
    requires forall d: nat :: RequestSound(s, schedule, amounts, captured, d)
    requires RequestSound(s', schedule + [c], amounts, captured, c)
    requires forall d: nat :: d != c ==> PhaseOf(s', d) == PhaseOf(s, d)
    requires forall d: nat :: PhaseOf(s, d).Checked? ==> Before(s'.rows, PhaseOf(s, d).at) <= Before(s.rows, PhaseOf(s, d).at)
    ensures forall d: nat :: RequestSound(s', schedule + [c], amounts, captured, d)
  {
    forall d: nat | d != c ensures RequestSound(s', schedule + [c], amounts, captured, d) {
      assert RequestSound(s, schedule, amounts, captured, d);
      MovesGrow(schedule, c, d);
      if PhaseOf(s, d).Checked? {
        MoveStays(schedule, c, PhaseOf(s, d).at, 0);
      }
    }
  }

  lemma RowsSound(s: State, s': State, schedule: seq<nat>, c: nat)
    requires forall x :: 0 <= x < |s.rows| ==> RowSound(s, schedule, s.rows[x])
    requires forall d: nat :: d != c ==> PhaseOf(s', d) == PhaseOf(s, d)
    requires PhaseOf(s, c) == Pending ==> s'.rows == FailRows(s.rows, c)
    requires PhaseOf(s, c) != Pending ==> s'.rows == s.rows
    ensures forall x :: 0 <= x < |s'.rows| ==> RowSound(s', schedule + [c], s'.rows[x])
  {
    forall x | 0 <= x < |s'.rows| ensures RowSound(s', schedule + [c], s'.rows[x]) {
      assert RowSound(s, schedule, s.rows[x]);
      MoveStays(schedule, c, s.rows[x].at, 1);
    }
  }

  /** An insert that completes no race finds nothing pending that its check did not count. */
  lemma NothingOvertook(s: State, schedule: seq<nat>, c: nat, amounts: nat -> int, captured: nat)
    requires Sound(s, schedule, amounts, captured) && PhaseOf(s, c).Checked? && !Races(schedule + [c])
    ensures Reserved(s.rows) <= PhaseOf(s, c).total
  {
    var longer := schedule + [c];
    var i := PhaseOf(s, c).at;
    assert RequestSound(s, schedule, amounts, captured, c);
    MoveStays(schedule, c, i, 0);
    forall x | 0 <= x < |s.rows| && !s.rows[x].failed ensures s.rows[x].at < i {
      var row := s.rows[x];
      assert RowSound(s, schedule, row) && RequestSound(s, schedule, amounts, captured, row.request);
      MoveStays(schedule, c, row.at, 1);
      assert longer[..|schedule|] == schedule;
      if row.at >= i {
        assert RaceAt(longer, i, row.at, |schedule|);
      }
    }
    NothingLater(s.rows, i);
  }

  lemma CheckSound(s: State, schedule: seq<nat>, c: nat, amounts: nat -> int, captured: nat)
    requires Sound(s, schedule, amounts, captured) && PhaseOf(s, c).Fresh?
    ensures Sound(Step(s, c, |schedule|, amounts, captured), schedule + [c], amounts, captured)
  {
    var s' := Step(s, c, |schedule|, amounts, captured);
    RowsSound(s, s', schedule, c);
    forall x | 0 <= x < |s.rows| ensures s.rows[x].at < |schedule| {
      assert RowSound(s, schedule, s.rows[x]);
    }
    NothingLater(s.rows, |schedule|);
    assert RequestSound(s, schedule, amounts, captured, c);
    MovesGrow(schedule, c, c);
    assert (schedule + [c])[..|schedule|] == schedule;
    RequestsSound(s, s', schedule, c, amounts, captured);
  }

  lemma InsertSound(s: State, schedule: seq<nat>, c: nat, amounts: nat -> int, captured: nat)
    requires Sound(s, schedule, amounts, captured) && PhaseOf(s, c).Checked? && !Races(schedule + [c])
    ensures Sound(Step(s, c, |schedule|, amounts, captured), schedule + [c], amounts, captured)
  {
    var s' := Step(s, c, |schedule|, amounts, captured);
    var row := s'.rows[|s.rows|];
    NothingOvertook(s, schedule, c, amounts, captured);
    assert RequestSound(s, schedule, amounts, captured, c);
    MovesGrow(schedule, c, c);
    assert (schedule + [c])[..|schedule|] == schedule;
    RowAppended(s.rows, row, 0);
    forall d: nat | PhaseOf(s, d).Checked? ensures Before(s'.rows, PhaseOf(s, d).at) <= Before(s.rows, PhaseOf(s, d).at) {
      assert RequestSound(s, schedule, amounts, captured, d);
      RowAppended(s.rows, row, PhaseOf(s, d).at);
    }
    RequestsSound(s, s', schedule, c, amounts, captured);
    RowsSound(s, State(s.rows, s'.phases), schedule, c);
    forall x | 0 <= x < |s'.rows| ensures RowSound(s', schedule + [c], s'.rows[x]) {
      assert x < |s.rows| ==> RowSound(State(s.rows, s'.phases), schedule + [c], s.rows[x]);
    }
  }

  lemma FailSound(s: State, schedule: seq<nat>, c: nat, amounts: nat -> int, captured: nat)
    requires Sound(s, schedule, amounts, captured) && !PhaseOf(s, c).Fresh? && !PhaseOf(s, c).Checked?
    ensures Sound(Step(s, c, |schedule|, amounts, captured), schedule + [c], amounts, captured)
  {
    var s' := Step(s, c, |schedule|, amounts, captured);
    forall x | 0 <= x < |s.rows| ensures s.rows[x].amount > 0 {
      assert RowSound(s, schedule, s.rows[x]);
    }
    FailingLowers(s.rows, c, 0);
    forall d: nat | PhaseOf(s, d).Checked? ensures Before(s'.rows, PhaseOf(s, d).at) <= Before(s.rows, PhaseOf(s, d).at) {
      FailingLowers(s.rows, c, PhaseOf(s, d).at);
    }
    RowsSound(s, s', schedule, c);
    RequestsSound(s, s', schedule, c, amounts, captured);
  }

  lemma RaceStays(schedule: seq<nat>, c: nat)
    requires Races(schedule)
    ensures Races(schedule + [c])
  {
    var i: nat, j: nat, k: nat :| RaceAt(schedule, i, j, k);
    MoveStays(schedule, c, i, 0);
    MoveStays(schedule, c, j, 1);
    MoveStays(schedule, c, k, 1);
    assert (schedule + [c])[..k] == schedule[..k];
    assert RaceAt(schedule + [c], i, j, k);
  }

  lemma {:induction false} NoRaceIsSound(schedule: seq<nat>, amounts: nat -> int, captured: nat)
    requires !Races(schedule)
    ensures Sound(Run(schedule, amounts, captured), schedule, amounts, captured)
    ensures !EverOverReserved(schedule, amounts, captured)
  {
    if schedule != [] {
      var prefix, c := schedule[..|schedule| - 1], schedule[|schedule| - 1];
      assert schedule == prefix + [c];
      if Races(prefix) { RaceStays(prefix, c); }
      NoRaceIsSound(prefix, amounts, captured);
      var s := Run(prefix, amounts, captured);
      if PhaseOf(s, c).Fresh? {
        CheckSound(s, prefix, c, amounts, captured);
      } else if PhaseOf(s, c).Checked? {
        InsertSound(s, prefix, c, amounts, captured);
      } else {
        FailSound(s, prefix, c, amounts, captured);
      }
    }
  }

  // ----- a schedule with a race, and amounts that overdraw it

  /** One cent each for the two racing requests; every other request is refused. */
  function OneCentEach(c: nat, d: nat): nat -> int {
    x => if x == c || x == d then 1 else 0
  }

  predicate OthersIdle(s: State, c: nat, d: nat) {
    forall x :: x in s.phases && x != c && x != d ==> s.phases[x] == Refused
  }

  /** Before either request inserts, nothing is reserved and both are admitted as they check. */
  lemma {:induction false} NothingInsertedYet(schedule: seq<nat>, c: nat, d: nat)
    requires c != d && Moves(schedule, c) <= 1 && Moves(schedule, d) <= 1
    ensures
      var s := Run(schedule, OneCentEach(c, d), 1);
      && s.rows == [] && OthersIdle(s, c, d)
      && (if Moves(schedule, c) == 1 then PhaseOf(s, c).Checked? else PhaseOf(s, c).Fresh?)
      && (if Moves(schedule, d) == 1 then PhaseOf(s, d).Checked? else PhaseOf(s, d).Fresh?)
  {
    if schedule != [] {
      NothingInsertedYet(schedule[..|schedule| - 1], c, d);
    }
  }

  /** From the overtaking insert to the overtaken one, exactly one cent is reserved and the other request is still admitted. */
  lemma {:induction false} OneInserted(schedule: seq<nat>, j: nat, c: nat, d: nat)
    requires c != d && j < |schedule| && schedule[j] == d
    requires Moves(schedule[..j], c) == 1 && Moves(schedule, c) == 1
    requires Moves(schedule[..j], d) == 1 && Moves(schedule, d) == 2
    ensures
      var s := Run(schedule, OneCentEach(c, d), 1);
      && s.rows == [Row(d, 1, false, j)] && OthersIdle(s, c, d) && PhaseOf(s, c).Checked? && PhaseOf(s, d) == Pending
    decreases |schedule|
  {
    var n := |schedule| - 1;
    if j == n {
      NothingInsertedYet(schedule[..n], c, d);
    } else {
      assert schedule[..n][..j] == schedule[..j];
      MovesMonotone(schedule[..n], j, c);
      MovesMonotone(schedule[..n], j, d);
      OneInserted(schedule[..n], j, c, d);
    }
  }

  lemma TwoCents(c: nat, d: nat, j: nat, k: nat)
    ensures Reserved([Row(d, 1, false, j)] + [Row(c, 1, false, k)]) == 2
  {
    RowAppended([], Row(d, 1, false, j), 0);
    RowAppended([Row(d, 1, false, j)], Row(c, 1, false, k), 0);
    assert [] + [Row(d, 1, false, j)] == [Row(d, 1, false, j)];
  }

  lemma RaceOverReserves(schedule: seq<nat>, i: nat, j: nat, k: nat)
    requires RaceAt(schedule, i, j, k)
    ensures Reserved(Run(schedule[..k + 1], OneCentEach(schedule[k], schedule[j]), 1).rows) == 2
  {
    var c, d := schedule[k], schedule[j];
    var prefix := schedule[..k];
    assert prefix[..j] == schedule[..j] && prefix[..j][..i] == schedule[..i];
    MovesMonotone(schedule[..j], i, c);
    MovesMonotone(prefix, j, c);
    OneInserted(prefix, j, c, d);
    var amounts := OneCentEach(c, d);
    assert schedule[..k + 1][..k] == prefix && amounts(c) == 1;
    assert Run(schedule[..k + 1], amounts, 1).rows == [Row(d, 1, false, j)] + [Row(c, 1, false, k)];
    TwoCents(c, d, j, k);
  }

  lemma {:induction false} OverReservedStays(schedule: seq<nat>, n: nat, amounts: nat -> int, captured: nat)
    requires n <= |schedule| && EverOverReserved(schedule[..n], amounts, captured)
    ensures EverOverReserved(schedule, amounts, captured)
    decreases |schedule|
  {
    if n < |schedule| {
      assert schedule[..|schedule| - 1][..n] == schedule[..n];
      OverReservedStays(schedule[..|schedule| - 1], n, amounts, captured);
    } else {
      assert schedule[..n] == schedule;
    }
  }

  /** Some choice of amounts makes the schedule reserve more than was captured. */
  ghost predicate CanOverReserve(schedule: seq<nat>) {
    exists amounts: nat -> int, captured: nat :: EverOverReserved(schedule, amounts, captured)
  }

  lemma RaceCanOverReserve(schedule: seq<nat>)
    requires Races(schedule)
    ensures CanOverReserve(schedule)
  {
    var i: nat, j: nat, k: nat :| RaceAt(schedule, i, j, k);
    var amounts, captured := OneCentEach(schedule[k], schedule[j]), 1;
    RaceOverReserves(schedule, i, j, k);
    OverReservedStays(schedule, k + 1, amounts, captured);
    assert EverOverReserved(schedule, amounts, captured);
  }

  /**
  A schedule can reserve more than was captured, for some choice of amounts, if and only if some request's insert lies
  between another request's check and insert and has not failed by then. Without such a pair no amounts can.
   */
  lemma OverReservedExactly(schedule: seq<nat>)
    ensures CanOverReserve(schedule) <==> Races(schedule)
  {
    if Races(schedule) {
      RaceCanOverReserve(schedule);
    } else if CanOverReserve(schedule) {
      var amounts: nat -> int, captured: nat :| EverOverReserved(schedule, amounts, captured);
      NoRaceIsSound(schedule, amounts, captured);
    }
  }

  /** Two requests of 600 against 1000, both checked before either is inserted, reserve 1200. */
  lemma TwoRequestsRace()
    ensures Reserved(Run([0, 1, 0, 1], _ => 600, 1000).rows) == 1200
  {
    var amounts: nat -> int := _ => 600;
    assert [0, 1, 0, 1][..3] == [0, 1, 0] && [0, 1, 0][..2] == [0, 1] && [0, 1][..1] == [0] && [0][..0] == [];
    assert Run([0], amounts, 1000) == State([], map[0 := Checked(0, 0)]);
    assert Run([0, 1], amounts, 1000) == State([], map[0 := Checked(0, 0), 1 := Checked(0, 1)]);
    assert Run([0, 1, 0], amounts, 1000).rows == [Row(0, 600, false, 2)];
    RowAppended([], Row(0, 600, false, 2), 0);
    RowAppended([Row(0, 600, false, 2)], Row(1, 600, false, 3), 0);
  }

  /** A request on its own gets a row exactly for a positive amount up to what was captured. */
  lemma LoneRequest(amount: int, captured: nat)
    ensures Run([0, 0], _ => amount, captured).rows == if 0 < amount <= captured then [Row(0, amount, false, 1)] else []
  {
    var amounts: nat -> int := _ => amount;
    assert [0, 0][..1] == [0] && [0][..0] == [];
    assert amounts(0) == amount;
    assert Run([0], amounts, captured) == State([], map[0 := if 0 < amount <= captured then Checked(0, 0) else Refused]);
  }
}
