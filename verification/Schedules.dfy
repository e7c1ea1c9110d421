/**
Interleavings of requests that take no lock. A schedule lists whose statement runs next; each request goes through its
own statements in order, so its first occurrence is its first statement, and so on.
 */
module Schedules {
  /** How often a request has moved. */
  function Moves(schedule: seq<nat>, c: nat): nat {
    if schedule == [] then 0
    else
      var n := |schedule| - 1;
      Moves(schedule[..n], c) + if schedule[n] == c then 1 else 0
  }

  /** The move at position i is preceded by `earlier` moves of its request. */
  predicate IsMove(schedule: seq<nat>, i: nat, earlier: nat) {
    i < |schedule| && Moves(schedule[..i], schedule[i]) == earlier
  }

  lemma MoveStays(schedule: seq<nat>, c: nat, i: nat, earlier: nat)
    requires IsMove(schedule, i, earlier)
    ensures IsMove(schedule + [c], i, earlier)
  {
    assert (schedule + [c])[..i] == schedule[..i];
  }

  lemma MoveWas(schedule: seq<nat>, c: nat, i: nat, earlier: nat)
    requires i < |schedule| && IsMove(schedule + [c], i, earlier)
    ensures IsMove(schedule, i, earlier)
  {
    assert (schedule + [c])[..i] == schedule[..i];
  }

  lemma MovesGrow(schedule: seq<nat>, c: nat, d: nat)
    ensures Moves(schedule + [c], d) == Moves(schedule, d) + if c == d then 1 else 0
    ensures IsMove(schedule + [c], |schedule|, Moves(schedule, c))
  {
    assert (schedule + [c])[..|schedule|] == schedule;
  }

  lemma {:induction false} MovesMonotone(schedule: seq<nat>, n: nat, c: nat)
    requires n <= |schedule|
    ensures Moves(schedule[..n], c) <= Moves(schedule, c)
    ensures n < |schedule| && schedule[n] == c ==> Moves(schedule[..n], c) < Moves(schedule, c)
    decreases |schedule|
  {
    if n < |schedule| {
      var m := |schedule| - 1;
      assert schedule[..m][..n] == schedule[..n];
      MovesMonotone(schedule[..m], n, c);
    } else {
      assert schedule[..n] == schedule;
    }
  }

  /** A request makes one move of each number. */
  lemma MoveUnique(schedule: seq<nat>, i: nat, j: nat, earlier: nat)
    requires IsMove(schedule, i, earlier) && IsMove(schedule, j, earlier) && schedule[i] == schedule[j]
    ensures i == j
  {
    if i < j {
      assert schedule[..j][..i] == schedule[..i];
      MovesMonotone(schedule[..j], i, schedule[i]);
    } else if j < i {
      assert schedule[..i][..j] == schedule[..j];
      MovesMonotone(schedule[..i], j, schedule[j]);
    }
  }

  /** A request that has moved so often made that move somewhere. */
  lemma {:induction false} FindMove(schedule: seq<nat>, c: nat, earlier: nat) returns (i: nat)
    requires Moves(schedule, c) > earlier
    ensures i < |schedule| && schedule[i] == c && IsMove(schedule, i, earlier)
  {
    var n := |schedule| - 1;
    if Moves(schedule[..n], c) > earlier {
      i := FindMove(schedule[..n], c, earlier);
      assert schedule[..n][..i] == schedule[..i];
    } else {
      i := n;
    }
  }

  // ----- requests whose third move is a write and whose second is the read it depends on

  const READ: nat := 1

  const WRITE: nat := 2

  /** The write at j goes between an earlier statement of another request at i and that request's write at k. */
  predicate OvertakenAt(schedule: seq<nat>, from: nat, i: nat, j: nat, k: nat) {
    && i < j < k < |schedule|
    && schedule[i] == schedule[k] != schedule[j]
    && IsMove(schedule, i, from) && IsMove(schedule, j, WRITE) && IsMove(schedule, k, WRITE)
  }

  /** Another request writes between this statement of some request and its write. */
  ghost predicate Overtaken(schedule: seq<nat>, from: nat) {
    exists i: nat, j: nat, k: nat :: OvertakenAt(schedule, from, i, j, k)
  }

  ghost predicate WroteSince(schedule: seq<nat>, at: nat, c: nat) {
    exists j :: at < j < |schedule| && schedule[j] != c && IsMove(schedule, j, WRITE)
  }

  lemma WroteStays(schedule: seq<nat>, c: nat, at: nat, d: nat)
    ensures WroteSince(schedule, at, d) ==> WroteSince(schedule + [c], at, d)
    ensures at < |schedule| && d != c && Moves(schedule, c) == WRITE ==> WroteSince(schedule + [c], at, d)
  {
    MovesGrow(schedule, c, c);
    if WroteSince(schedule, at, d) {
      var j :| at < j < |schedule| && schedule[j] != d && IsMove(schedule, j, WRITE);
      MoveStays(schedule, c, j, WRITE);
      assert (schedule + [c])[j] == schedule[j];
    }
    assert (schedule + [c])[|schedule|] == c;
  }

  lemma OvertakenStays(schedule: seq<nat>, c: nat, from: nat)
    requires Overtaken(schedule, from)
    ensures Overtaken(schedule + [c], from)
  {
    var i: nat, j: nat, k: nat :| OvertakenAt(schedule, from, i, j, k);
    MoveStays(schedule, c, i, from);
    MoveStays(schedule, c, j, WRITE);
    MoveStays(schedule, c, k, WRITE);
    assert OvertakenAt(schedule + [c], from, i, j, k);
  }

  /** A write that completes no overtaking has nothing written since that statement of its request. */
  lemma NotOvertaken(schedule: seq<nat>, c: nat, from: nat, i: nat)
    requires !Overtaken(schedule + [c], from)
    requires i < |schedule| && schedule[i] == c && IsMove(schedule, i, from) && Moves(schedule, c) == WRITE
    ensures !WroteSince(schedule, i, c)
  {
    if WroteSince(schedule, i, c) {
      var j :| i < j < |schedule| && schedule[j] != c && IsMove(schedule, j, WRITE);
      MoveStays(schedule, c, i, from);
      MoveStays(schedule, c, j, WRITE);
      MovesGrow(schedule, c, c);
      assert OvertakenAt(schedule + [c], from, i, j, |schedule|);
    }
  }
}
