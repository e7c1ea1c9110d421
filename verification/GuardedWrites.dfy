/**
Requests that check a row, then do something else, then write the row without looking at it again: any number of them,
over every interleaving, with no lock in between.
 */
module GuardedWrites {
  import opened Schedules

  /** `at` is the moment of the check. */
  datatype Phase = Fresh | Refused | Admitted(at: nat) | Working(at: nat) | Written

  datatype State<S> = State(row: S, phases: map<nat, Phase>)

  /** The row at first, which requests the check lets through, and what they write. */
  datatype Rules<!S> = Rules(start: S, admits: (nat, S) -> bool, write: (nat, S) -> S)

  const CHECK: nat := 0

  function PhaseOf<S>(s: State<S>, c: nat): Phase {
    if c in s.phases then s.phases[c] else Fresh
  }

  function Step<S>(s: State<S>, c: nat, now: nat, rules: Rules<S>): State<S> {
    match PhaseOf(s, c)
    case Fresh => s.(phases := s.phases[c := if rules.admits(c, s.row) then Admitted(now) else Refused])
    case Admitted(at) => s.(phases := s.phases[c := Working(at)])
    case Working(_) => State(rules.write(c, s.row), s.phases[c := Written])
    case _ => s
  }

  function Run<S>(schedule: seq<nat>, rules: Rules<S>): State<S> {
    if schedule == [] then State(rules.start, map[])
    else
      var n := |schedule| - 1;
      Step(Run(schedule[..n], rules), schedule[n], n, rules)
  }

  // ----- schedules in which nobody is overtaken

  /** What the check let through it would still let through, unless another request has written since. */
  ghost predicate RequestSound<S>(s: State<S>, schedule: seq<nat>, c: nat, rules: Rules<S>) {
    match PhaseOf(s, c)
    case Fresh => Moves(schedule, c) == 0
    case Admitted(at) =>
      && Moves(schedule, c) == 1 && at < |schedule| && schedule[at] == c && IsMove(schedule, at, CHECK)
      && (rules.admits(c, s.row) || WroteSince(schedule, at, c))
    case Working(at) =>
      && Moves(schedule, c) == 2 && at < |schedule| && schedule[at] == c && IsMove(schedule, at, CHECK)
      && (rules.admits(c, s.row) || WroteSince(schedule, at, c))
    case _ => true
  }

  lemma RequestKept<S>(s: State<S>, schedule: seq<nat>, c: nat, d: nat, rules: Rules<S>)
    requires RequestSound(s, schedule, c, rules) && RequestSound(s, schedule, d, rules)
    ensures RequestSound(Step(s, c, |schedule|, rules), schedule + [c], d, rules)
  {
    MovesGrow(schedule, c, d);
    var phase := PhaseOf(s, d);
    if phase.Admitted? || phase.Working? {
      MoveStays(schedule, c, phase.at, CHECK);
      WroteStays(schedule, c, phase.at, d);
    }
    assert (schedule + [c])[|schedule|] == c && (schedule + [c])[..|schedule|] == schedule;
  }

  lemma {:induction false} RunIsSound<S>(schedule: seq<nat>, rules: Rules<S>)
    ensures forall c: nat :: RequestSound(Run(schedule, rules), schedule, c, rules)
  {
    if schedule != [] {
      var prefix, c := schedule[..|schedule| - 1], schedule[|schedule| - 1];
      assert schedule == prefix + [c];
      RunIsSound(prefix, rules);
      forall d: nat ensures RequestSound(Run(schedule, rules), schedule, d, rules) {
        RequestKept(Run(prefix, rules), prefix, c, d, rules);
      }
    }
  }

  /** Every row reached from the start by writes whose check would let them through satisfies it. */
  ghost predicate KeptByGuarded<S(!new)>(rules: Rules<S>, inv: S -> bool) {
    inv(rules.start) && forall c: nat, row: S :: inv(row) && rules.admits(c, row) ==> inv(rules.write(c, row))
  }

  /** When nobody is overtaken, a check still holds at its write, so what guarded writes keep is kept. */
  lemma {:induction false} GuardedWhenNotOvertaken<S(!new)>(schedule: seq<nat>, rules: Rules<S>, inv: S -> bool)
    requires !Overtaken(schedule, CHECK) && KeptByGuarded(rules, inv)
    ensures inv(Run(schedule, rules).row)
  {
    if schedule != [] {
      var prefix, c := schedule[..|schedule| - 1], schedule[|schedule| - 1];
      assert schedule == prefix + [c];
      if Overtaken(prefix, CHECK) { OvertakenStays(prefix, c, CHECK); }
      GuardedWhenNotOvertaken(prefix, rules, inv);
      RunIsSound(prefix, rules);
      var s := Run(prefix, rules);
      assert RequestSound(s, prefix, c, rules);
      if PhaseOf(s, c).Working? { NotOvertaken(prefix, c, CHECK, PhaseOf(s, c).at); }
    }
  }

  // ----- schedules in which somebody is

  /** The start lets both requests through, and no row lets any other one through. */
  ghost predicate OnlyTwo<S(!new)>(rules: Rules<S>, c: nat, d: nat) {
    && c != d && rules.admits(c, rules.start) && rules.admits(d, rules.start)
    && forall x: nat, row: S :: x != c && x != d ==> !rules.admits(x, row)
  }

  ghost predicate OthersOut<S>(s: State<S>, c: nat, d: nat) {
    forall x :: x in s.phases && x != c && x != d ==> s.phases[x] == Refused
  }

  /** Where an admitted request is after its moves. */
  predicate After(phase: Phase, moves: nat) {
    match phase
    case Fresh => moves == 0
    case Admitted(_) => moves == 1
    case Working(_) => moves == 2
    case Written => moves > 2
    case Refused => false
  }

  lemma {:induction false} NothingWrittenYet<S(!new)>(schedule: seq<nat>, c: nat, d: nat, rules: Rules<S>)
    requires OnlyTwo(rules, c, d) && Moves(schedule, c) <= 2 && Moves(schedule, d) <= 2
    ensures
      var s := Run(schedule, rules);
      && s.row == rules.start && OthersOut(s, c, d)
      && After(PhaseOf(s, c), Moves(schedule, c)) && After(PhaseOf(s, d), Moves(schedule, d))
  {
    if schedule != [] {
      NothingWrittenYet(schedule[..|schedule| - 1], c, d, rules);
    }
  }

  /** From the overtaking write at j on the row is what it wrote, until the overtaken request writes, too. */
  lemma {:induction false} BothWritten<S(!new)>(schedule: seq<nat>, j: nat, c: nat, d: nat, rules: Rules<S>)
    requires OnlyTwo(rules, c, d) && j < |schedule| && schedule[j] == d && IsMove(schedule, j, WRITE)
    requires 1 <= Moves(schedule[..j], c) <= 2
    ensures
      var s := Run(schedule, rules);
      && OthersOut(s, c, d) && PhaseOf(s, d) == Written && After(PhaseOf(s, c), Moves(schedule, c)) && Moves(schedule, c) >= 1
      && s.row == if Moves(schedule, c) <= 2 then rules.write(d, rules.start) else rules.write(c, rules.write(d, rules.start))
    decreases |schedule|
  {
    var n := |schedule| - 1;
    MovesMonotone(schedule, j, c);
    if j == n {
      NothingWrittenYet(schedule[..n], c, d, rules);
    } else {
      assert schedule[..n][..j] == schedule[..j];
      MovesMonotone(schedule[..n], j, c);
      BothWritten(schedule[..n], j, c, d, rules);
    }
  }

  /** The overtaken request writes what it would have written over the other one's row. */
  lemma OvertakenWrites<S(!new)>(schedule: seq<nat>, i: nat, j: nat, k: nat, rules: Rules<S>)
    requires OvertakenAt(schedule, CHECK, i, j, k) && OnlyTwo(rules, schedule[k], schedule[j])
    ensures Run(schedule, rules).row == rules.write(schedule[k], rules.write(schedule[j], rules.start))
  {
    var c, d := schedule[k], schedule[j];
    assert schedule[..j][..i] == schedule[..i] && schedule[..k][..j] == schedule[..j];
    MovesMonotone(schedule[..j], i, c);
    MovesMonotone(schedule[..k], j, c);
    MovesMonotone(schedule, k, c);
    BothWritten(schedule, j, c, d, rules);
  }
}
