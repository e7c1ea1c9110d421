/**
apply_coupon without a lock, for any number of requests on one coupon: a request validates against `used_count`, later
reads the row again, and later still writes what it read plus one.
 */
module CouponRaces {
  import opened Schedules

  /** `at` is the moment of the validation, `readAt` that of the second read. */
  datatype Phase = Fresh | Refused | Validated(at: nat) | Reading(seen: int, at: nat, readAt: nat) | Applied

  /** `granted` counts the requests that were applied. */
  datatype State = State(used: int, granted: nat, phases: map<nat, Phase>)

  function PhaseOf(s: State, c: nat): Phase {
    if c in s.phases then s.phases[c] else Fresh
  }

  /** The next statement of request c; `eligible` stands for the checks that do not look at `used_count`. */
  function Step(s: State, c: nat, now: nat, eligible: nat -> bool, limit: int): State {
    match PhaseOf(s, c)
    case Fresh => s.(phases := s.phases[c := if !eligible(c) || s.used >= limit then Refused else Validated(now)])
    case Validated(at) => s.(phases := s.phases[c := Reading(s.used, at, now)])
    case Reading(seen, _, _) => State(seen + 1, s.granted + 1, s.phases[c := Applied])
    case _ => s
  }

  function Run(schedule: seq<nat>, eligible: nat -> bool, initial: int, limit: int): State {
    if schedule == [] then State(initial, 0, map[])
    else
      var n := |schedule| - 1;
      Step(Run(schedule[..n], eligible, initial, limit), schedule[n], n, eligible, limit)
  }

  const VALIDATION: nat := 0

  // ----- what goes wrong

  /** At some moment `used_count` is not what it was plus the applications so far. */
  predicate EverMiscounted(schedule: seq<nat>, eligible: nat -> bool, initial: int, limit: int) {
    schedule != [] &&
    var s := Run(schedule, eligible, initial, limit);
    EverMiscounted(schedule[..|schedule| - 1], eligible, initial, limit) || s.used != initial + s.granted
  }

  /** More requests have been applied than the coupon had uses left. */
  predicate OverLimit(s: State, initial: int, limit: int) {
    s.granted > 0 && initial + s.granted > limit
  }

  predicate EverOverLimit(schedule: seq<nat>, eligible: nat -> bool, initial: int, limit: int) {
    schedule != [] &&
    (EverOverLimit(schedule[..|schedule| - 1], eligible, initial, limit) || OverLimit(Run(schedule, eligible, initial, limit), initial, limit))
  }

  ghost predicate CanMiscount(schedule: seq<nat>) {
    exists eligible: nat -> bool, initial: int, limit: int :: EverMiscounted(schedule, eligible, initial, limit)
  }

  ghost predicate CanExceedLimit(schedule: seq<nat>) {
    exists eligible: nat -> bool, initial: int, limit: int :: EverOverLimit(schedule, eligible, initial, limit)
  }

  // ----- every schedule

  /** What a request has seen is still so, unless another one has written since. */
  ghost predicate RequestSound(s: State, schedule: seq<nat>, limit: int, c: nat) {
    match PhaseOf(s, c)
    case Fresh => Moves(schedule, c) == 0
    case Validated(at) =>
      && Moves(schedule, c) == 1 && at < |schedule| && schedule[at] == c && IsMove(schedule, at, VALIDATION)
      && (s.used < limit || WroteSince(schedule, at, c))
    case Reading(seen, at, readAt) =>
      && Moves(schedule, c) == 2 && at < readAt < |schedule| && schedule[at] == schedule[readAt] == c
      && IsMove(schedule, at, VALIDATION) && IsMove(schedule, readAt, READ)
      && (s.used < limit || WroteSince(schedule, at, c))
      && (seen == s.used || WroteSince(schedule, readAt, c))
    case _ => true
  }

  ghost predicate Sound(s: State, schedule: seq<nat>, limit: int) {
    forall c: nat :: RequestSound(s, schedule, limit, c)
  }

  lemma OthersSound(s: State, schedule: seq<nat>, c: nat, d: nat, eligible: nat -> bool, limit: int)
    requires Sound(s, schedule, limit) && d != c
    ensures RequestSound(Step(s, c, |schedule|, eligible, limit), schedule + [c], limit, d)
  {
    assert RequestSound(s, schedule, limit, c) && RequestSound(s, schedule, limit, d);
    MovesGrow(schedule, c, d);
    var phase := PhaseOf(s, d);
    if phase.Validated? || phase.Reading? {
      MoveStays(schedule, c, phase.at, VALIDATION);
      WroteStays(schedule, c, phase.at, d);
    }
    if phase.Reading? {
      MoveStays(schedule, c, phase.readAt, READ);
      WroteStays(schedule, c, phase.readAt, d);
    }
  }

  lemma OwnSound(s: State, schedule: seq<nat>, c: nat, eligible: nat -> bool, limit: int)
    requires Sound(s, schedule, limit)
    ensures RequestSound(Step(s, c, |schedule|, eligible, limit), schedule + [c], limit, c)
  {
    assert RequestSound(s, schedule, limit, c);
    MovesGrow(schedule, c, c);
    var phase := PhaseOf(s, c);
    if phase.Validated? {
      MoveStays(schedule, c, phase.at, VALIDATION);
      WroteStays(schedule, c, phase.at, c);
    }
  }

  lemma {:induction false} RunIsSound(schedule: seq<nat>, eligible: nat -> bool, initial: int, limit: int)
    ensures Sound(Run(schedule, eligible, initial, limit), schedule, limit)
  {
    if schedule != [] {
      var prefix, c := schedule[..|schedule| - 1], schedule[|schedule| - 1];
      assert schedule == prefix + [c];
      RunIsSound(prefix, eligible, initial, limit);
      var s := Run(prefix, eligible, initial, limit);
      OwnSound(s, prefix, c, eligible, limit);
      forall d: nat | d != c ensures RequestSound(Step(s, c, |prefix|, eligible, limit), schedule, limit, d) {
        OthersSound(s, prefix, c, d, eligible, limit);
      }
    }
  }

  // ----- schedules in which nobody is overtaken

  lemma {:induction false} CountsWhenNotOvertaken(schedule: seq<nat>, eligible: nat -> bool, initial: int, limit: int)
    requires !Overtaken(schedule, READ)
    ensures !EverMiscounted(schedule, eligible, initial, limit)
    ensures var s := Run(schedule, eligible, initial, limit); s.used == initial + s.granted
  {
    if schedule != [] {
      var prefix, c := schedule[..|schedule| - 1], schedule[|schedule| - 1];
      assert schedule == prefix + [c];
      if Overtaken(prefix, READ) { OvertakenStays(prefix, c, READ); }
      CountsWhenNotOvertaken(prefix, eligible, initial, limit);
      RunIsSound(prefix, eligible, initial, limit);
      var s := Run(prefix, eligible, initial, limit);
      assert RequestSound(s, prefix, limit, c);
      if PhaseOf(s, c).Reading? { NotOvertaken(prefix, c, READ, PhaseOf(s, c).readAt); }
    }
  }

  lemma {:induction false} LimitWhenNotOvertaken(schedule: seq<nat>, eligible: nat -> bool, initial: int, limit: int)
    requires !Overtaken(schedule, VALIDATION)
    ensures !EverOverLimit(schedule, eligible, initial, limit)
    ensures
      var s := Run(schedule, eligible, initial, limit);
      s.used == initial + s.granted && !OverLimit(s, initial, limit)
  {
    if schedule != [] {
      var prefix, c := schedule[..|schedule| - 1], schedule[|schedule| - 1];
      assert schedule == prefix + [c];
      if Overtaken(prefix, VALIDATION) { OvertakenStays(prefix, c, VALIDATION); }
      LimitWhenNotOvertaken(prefix, eligible, initial, limit);
      RunIsSound(prefix, eligible, initial, limit);
      var s := Run(prefix, eligible, initial, limit);
      assert RequestSound(s, prefix, limit, c);
      if PhaseOf(s, c).Reading? { NotOvertaken(prefix, c, VALIDATION, PhaseOf(s, c).at); }
    }
  }

  // ----- schedules in which somebody is

  function OnlyTwo(c: nat, d: nat): nat -> bool {
    x => x == c || x == d
  }

  predicate OthersOut(s: State, c: nat, d: nat) {
    forall x :: x in s.phases && x != c && x != d ==> s.phases[x] == Refused
  }

  /** Where an admitted request is after its first moves, in front of any write. */
  predicate Admitted(phase: Phase, moves: nat) {
    match phase
    case Fresh => moves == 0
    case Validated(_) => moves == 1
    case Reading(seen, _, _) => moves == 2 && seen == 0
    case _ => false
  }

  /** As long as neither of two eligible requests has written, the count stands and both are admitted. */
  lemma {:induction false} NothingWrittenYet(schedule: seq<nat>, c: nat, d: nat, limit: int)
    requires c != d && limit > 0 && Moves(schedule, c) <= 2 && Moves(schedule, d) <= 2
    ensures
      var s := Run(schedule, OnlyTwo(c, d), 0, limit);
      && s.used == 0 && s.granted == 0 && OthersOut(s, c, d)
      && Admitted(PhaseOf(s, c), Moves(schedule, c)) && Admitted(PhaseOf(s, d), Moves(schedule, d))
  {
    if schedule != [] {
      NothingWrittenYet(schedule[..|schedule| - 1], c, d, limit);
    }
  }

  /** From the overtaking write at j on the count is one, and the other request still holds what it saw before j. */
  lemma {:induction false} OneWritten(schedule: seq<nat>, j: nat, c: nat, d: nat, limit: int)
    requires c != d && limit > 0 && j < |schedule| && schedule[j] == d
    requires Moves(schedule[..j], d) == 2
    requires 1 <= Moves(schedule[..j], c) && Moves(schedule, c) <= 2
    ensures
      var s := Run(schedule, OnlyTwo(c, d), 0, limit);
      && s.used == 1 && s.granted == 1 && OthersOut(s, c, d) && PhaseOf(s, d) == Applied
      && (if Moves(schedule, c) == 2 then PhaseOf(s, c).Reading? else PhaseOf(s, c).Validated?)
      && (Moves(schedule[..j], c) == 2 ==> PhaseOf(s, c).Reading? && PhaseOf(s, c).seen == 0)
    decreases |schedule|
  {
    var n := |schedule| - 1;
    MovesMonotone(schedule, j, c);
    if j == n {
      NothingWrittenYet(schedule[..n], c, d, limit);
    } else {
      assert schedule[..n][..j] == schedule[..j];
      MovesMonotone(schedule[..n], j, c);
      MovesMonotone(schedule[..n], j, d);
      OneWritten(schedule[..n], j, c, d, limit);
    }
  }

  /** At the overtaken write the coupon is applied a second time; the count stays one if the request had read before j. */
  lemma SecondWrite(schedule: seq<nat>, from: nat, i: nat, j: nat, k: nat)
    requires OvertakenAt(schedule, from, i, j, k) && (from == VALIDATION || from == READ)
    ensures var s := Run(schedule[..k + 1], OnlyTwo(schedule[k], schedule[j]), 0, 1);
      s.granted == 2 && (from == READ ==> s.used == 1)
  {
    var c, d := schedule[k], schedule[j];
    var prefix := schedule[..k];
    assert prefix[..j] == schedule[..j] && schedule[..j][..i] == schedule[..i] && schedule[..k + 1][..k] == prefix;
    MovesMonotone(schedule[..j], i, c);
    MovesMonotone(prefix, j, c);
    OneWritten(prefix, j, c, d, 1);
  }

  lemma {:induction false} MiscountStays(schedule: seq<nat>, n: nat, eligible: nat -> bool, initial: int, limit: int)
    requires n <= |schedule|
    ensures EverMiscounted(schedule[..n], eligible, initial, limit) ==> EverMiscounted(schedule, eligible, initial, limit)
    ensures EverOverLimit(schedule[..n], eligible, initial, limit) ==> EverOverLimit(schedule, eligible, initial, limit)
    decreases |schedule|
  {
    if n < |schedule| {
      assert schedule[..|schedule| - 1][..n] == schedule[..n];
      MiscountStays(schedule[..|schedule| - 1], n, eligible, initial, limit);
    } else {
      assert schedule[..n] == schedule;
    }
  }

  lemma OvertakenCan(schedule: seq<nat>, from: nat)
    requires Overtaken(schedule, from) && (from == VALIDATION || from == READ)
    ensures CanExceedLimit(schedule) && (from == READ ==> CanMiscount(schedule))
  {
    var i: nat, j: nat, k: nat :| OvertakenAt(schedule, from, i, j, k);
    var eligible, initial, limit := OnlyTwo(schedule[k], schedule[j]), 0, 1;
    SecondWrite(schedule, from, i, j, k);
    MiscountStays(schedule, k + 1, eligible, initial, limit);
    assert EverOverLimit(schedule, eligible, initial, limit);
    assert from == READ ==> EverMiscounted(schedule, eligible, initial, limit);
  }

  // ----- theorems

  /** The uses can be miscounted if and only if some write goes between another request's second read and its write. */
  lemma MiscountedExactly(schedule: seq<nat>)
    ensures CanMiscount(schedule) <==> Overtaken(schedule, READ)
  {
    if Overtaken(schedule, READ) {
      OvertakenCan(schedule, READ);
    } else if CanMiscount(schedule) {
      var eligible: nat -> bool, initial: int, limit: int :| EverMiscounted(schedule, eligible, initial, limit);
      CountsWhenNotOvertaken(schedule, eligible, initial, limit);
    }
  }

  /** The limit can be exceeded if and only if some write goes between another request's validation and its write. */
  lemma LimitExceededExactly(schedule: seq<nat>)
    ensures CanExceedLimit(schedule) <==> Overtaken(schedule, VALIDATION)
  {
    if Overtaken(schedule, VALIDATION) {
      OvertakenCan(schedule, VALIDATION);
    } else if CanExceedLimit(schedule) {
      var eligible: nat -> bool, initial: int, limit: int :| EverOverLimit(schedule, eligible, initial, limit);
      LimitWhenNotOvertaken(schedule, eligible, initial, limit);
    }
  }

  /** Two requests in step on a coupon with one use left: both are applied, and the count says one. */
  lemma TwoRequestsInStep()
    ensures var s := Run([0, 1, 0, 1, 0, 1], _ => true, 0, 1); s.granted == 2 && s.used == 1
  {
    var eligible: nat -> bool := _ => true;
    assert [0, 1, 0, 1, 0, 1][..5] == [0, 1, 0, 1, 0] && [0, 1, 0, 1, 0][..4] == [0, 1, 0, 1];
    assert [0, 1, 0, 1][..3] == [0, 1, 0] && [0, 1, 0][..2] == [0, 1] && [0, 1][..1] == [0] && [0][..0] == [];
    assert Run([0], eligible, 0, 1) == State(0, 0, map[0 := Validated(0)]);
    assert Run([0, 1], eligible, 0, 1) == State(0, 0, map[0 := Validated(0), 1 := Validated(1)]);
    assert Run([0, 1, 0], eligible, 0, 1) == State(0, 0, map[0 := Reading(0, 0, 2), 1 := Validated(1)]);
    assert Run([0, 1, 0, 1], eligible, 0, 1) == State(0, 0, map[0 := Reading(0, 0, 2), 1 := Reading(0, 1, 3)]);
  }

  /** A request on its own takes one use exactly if it is eligible and the coupon has one left. */
  lemma LoneRequest(ok: bool, initial: int, limit: int)
    ensures
      var s := Run([0, 0, 0], _ => ok, initial, limit);
      if ok && initial < limit then s.granted == 1 && s.used == initial + 1 else s.granted == 0 && s.used == initial
  {
    var eligible: nat -> bool := _ => ok;
    var first := if ok && initial < limit then Validated(0) else Refused;
    assert [0, 0, 0][..2] == [0, 0] && [0, 0][..1] == [0] && [0][..0] == [];
    assert eligible(0) == ok;
    assert Run([0], eligible, initial, limit) == State(initial, 0, map[0 := first]);
    assert Run([0, 0], eligible, initial, limit) == State(initial, 0, map[0 := if first.Refused? then Refused else Reading(initial, 0, 1)]);
  }
}
