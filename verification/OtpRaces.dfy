/**
Wrong guesses against one code when verify_email_otp runs concurrently, one cache operation at a time. A request reads
the code, then the counter. Below the limit its guess is compared, and it reads the counter again and sets it to what it
read plus one. At the limit it deletes the counter and then the code. The code and its counter, zero at first, do not
expire meanwhile.
 */
module OtpRaces {
  import opened Schedules

  /** `at` is the moment of the read; `live` says whether the code was there. */
  datatype Phase =
    | Fresh | Looked(live: bool, at: nat)
    | Wrong | Reading(seen: int, at: nat) | Counted
    | Refused | Cleared | Gone

  /** `compared` counts the wrong guesses that were compared with the code. */
  datatype State = State(code: bool, counter: int, compared: nat, phases: map<nat, Phase>)

  const LOOK: nat := 0

  const CHECK: nat := 1

  /** The counter is read again, or deleted. */
  const GET: nat := 2

  /** The counter is set, or the code deleted. */
  const SET: nat := 3

  function PhaseOf(s: State, c: nat): Phase {
    if c in s.phases then s.phases[c] else Fresh
  }

  /** The next cache operation of request c; requests for another address touch neither key. */
  function Step(s: State, c: nat, now: nat, guesses: set<nat>, limit: nat): State {
    if c !in guesses then s
    else
      match PhaseOf(s, c)
      case Fresh => s.(phases := s.phases[c := Looked(s.code, now)])
      case Looked(live, _) =>
        if s.counter >= limit then s.(phases := s.phases[c := Refused])
        else s.(compared := if live then s.compared + 1 else s.compared, phases := s.phases[c := Wrong])
      case Wrong => s.(phases := s.phases[c := Reading(s.counter, now)])
      case Reading(seen, _) => s.(counter := seen + 1, phases := s.phases[c := Counted])
      case Refused => s.(counter := 0, phases := s.phases[c := Cleared])
      case Cleared => s.(code := false, phases := s.phases[c := Gone])
      case _ => s
  }

  function Run(schedule: seq<nat>, guesses: set<nat>, limit: nat): State {
    if schedule == [] then State(true, 0, 0, map[])
    else
      var n := |schedule| - 1;
      Step(Run(schedule[..n], guesses, limit), schedule[n], n, guesses, limit)
  }

  /** For some requests of the schedule being the guesses, more of them than the limit are compared with the code. */
  ghost predicate CanExceed(schedule: seq<nat>, limit: nat) {
    exists guesses: set<nat> :: Run(schedule, guesses, limit).compared > limit
  }

  // ----- the condition, on the schedule alone

  /** The requests that have read the counter. */
  function Checked(schedule: seq<nat>): set<nat> {
    if schedule == [] then {}
    else
      var n := |schedule| - 1;
      Checked(schedule[..n]) + if Moves(schedule[..n], schedule[n]) == CHECK then {schedule[n]} else {}
  }

  /** At r a request reads the counter after as many others as the limit have read it. */
  predicate CheckPastLimit(schedule: seq<nat>, r: nat, limit: nat) {
    IsMove(schedule, r, CHECK) && |Checked(schedule[..r])| >= limit
  }

  /** One request's set lies between another's second read of the counter and its set. */
  predicate LostAt(schedule: seq<nat>, i: nat, j: nat, k: nat) {
    && i < j < k < |schedule|
    && schedule[i] == schedule[k] != schedule[j]
    && IsMove(schedule, i, GET) && IsMove(schedule, j, SET) && IsMove(schedule, k, SET)
  }

  ghost predicate Lost(schedule: seq<nat>, guesses: set<nat>) {
    exists i: nat, j: nat, k: nat :: LostAt(schedule, i, j, k) && schedule[j] in guesses && schedule[k] in guesses
  }

  ghost predicate LostByAny(schedule: seq<nat>) {
    exists i: nat, j: nat, k: nat :: LostAt(schedule, i, j, k)
  }

  /** The request has read the counter and not set it yet. */
  predicate Unfinished(schedule: seq<nat>, c: nat) {
    c in Checked(schedule) && Moves(schedule, c) <= SET
  }

  /** An earlier guess is not counted yet, or the count of one was lost. */
  ghost predicate Unsettled(schedule: seq<nat>) {
    (exists c :: Unfinished(schedule, c)) || LostByAny(schedule)
  }

  /**
  The request that reads the counter at r deletes it at d. Another request reads the counter after that, at x, and has
  read the code, at a, before the first one deletes the code.
   */
  predicate OutlivedBy(schedule: seq<nat>, r: nat, d: nat, a: nat, x: nat) {
    && r < d < x < |schedule| && a < x
    && schedule[d] == schedule[r] && IsMove(schedule, d, GET)
    && schedule[a] == schedule[x] != schedule[r] && IsMove(schedule, a, LOOK) && IsMove(schedule, x, CHECK)
    && Moves(schedule[..a], schedule[r]) <= SET
  }

  ghost predicate Outlived(schedule: seq<nat>, r: nat)
    requires r < |schedule|
  {
    exists d: nat, a: nat, x: nat :: OutlivedBy(schedule, r, d, a, x)
  }

  ghost predicate LeaksAt(schedule: seq<nat>, r: nat, limit: nat) {
    r < |schedule| && CheckPastLimit(schedule, r, limit) && (Unsettled(schedule[..r]) || Outlived(schedule, r))
  }

  ghost predicate Leaks(schedule: seq<nat>, limit: nat) {
    exists r: nat :: LeaksAt(schedule, r, limit)
  }

  // ----- counting requests by how far they are

  /** The guesses that have made so many moves. */
  function AtLeast(guesses: set<nat>, schedule: seq<nat>, moves: nat): set<nat> {
    set c | c in guesses && Moves(schedule, c) >= moves
  }

  lemma MovesOn(guesses: set<nat>, schedule: seq<nat>, c: nat, moves: nat)
    requires moves > 0
    ensures
      var before, after := AtLeast(guesses, schedule, moves), AtLeast(guesses, schedule + [c], moves);
      if c in guesses && Moves(schedule, c) == moves - 1 then after == before + {c} && |after| == |before| + 1 else after == before
  {
    var before, after := AtLeast(guesses, schedule, moves), AtLeast(guesses, schedule + [c], moves);
    var gained := if c in guesses && Moves(schedule, c) == moves - 1 then {c} else {};
    forall d: nat ensures d in after <==> d in before + gained {
      MovesGrow(schedule, c, d);
    }
    assert after == before + gained;
  }

  lemma Subset(a: set<nat>, b: set<nat>)
    requires a <= b
    ensures |a| <= |b|
    ensures |a| == |b| ==> a == b
  {
    assert b == a + (b - a);
  }

  lemma {:induction false} CheckedMeans(schedule: seq<nat>)
    ensures forall c: nat :: c in Checked(schedule) <==> Moves(schedule, c) > CHECK
  {
    if schedule != [] {
      CheckedMeans(schedule[..|schedule| - 1]);
    }
  }

  // ----- while nobody has been refused

  ghost predicate SetSince(schedule: seq<nat>, guesses: set<nat>, at: nat, c: nat) {
    exists j :: at < j < |schedule| && schedule[j] != c && schedule[j] in guesses && IsMove(schedule, j, SET)
  }

  lemma SetStays(schedule: seq<nat>, guesses: set<nat>, c: nat, at: nat, d: nat)
    ensures SetSince(schedule, guesses, at, d) ==> SetSince(schedule + [c], guesses, at, d)
    ensures at < |schedule| && d != c && c in guesses && Moves(schedule, c) == SET ==> SetSince(schedule + [c], guesses, at, d)
    ensures SetSince(schedule + [c], guesses, at, d) ==>
      SetSince(schedule, guesses, at, d) || (c != d && c in guesses && Moves(schedule, c) == SET)
  {
    var longer := schedule + [c];
    MovesGrow(schedule, c, c);
    assert longer[|schedule|] == c && longer[..|schedule|] == schedule;
    if SetSince(schedule, guesses, at, d) {
      var j :| at < j < |schedule| && schedule[j] != d && schedule[j] in guesses && IsMove(schedule, j, SET);
      MoveStays(schedule, c, j, SET);
      assert longer[j] == schedule[j];
    }
    if SetSince(longer, guesses, at, d) {
      var j :| at < j < |longer| && longer[j] != d && longer[j] in guesses && IsMove(longer, j, SET);
      if j < |schedule| { MoveWas(schedule, c, j, SET); }
    }
  }

  lemma LostStays(schedule: seq<nat>, guesses: set<nat>, c: nat)
    requires Lost(schedule, guesses)
    ensures Lost(schedule + [c], guesses)
  {
    var i: nat, j: nat, k: nat :| LostAt(schedule, i, j, k) && schedule[j] in guesses && schedule[k] in guesses;
    MoveStays(schedule, c, i, GET);
    MoveStays(schedule, c, j, SET);
    MoveStays(schedule, c, k, SET);
    assert LostAt(schedule + [c], i, j, k);
  }

  /** One more move loses a guess exactly if it sets the counter and somebody has set it since the request's second read. */
  lemma LostBy(schedule: seq<nat>, guesses: set<nat>, c: nat, at: nat)
    requires c in guesses && Moves(schedule, c) == SET && at < |schedule| && schedule[at] == c && IsMove(schedule, at, GET)
    ensures Lost(schedule + [c], guesses) <==> Lost(schedule, guesses) || SetSince(schedule, guesses, at, c)
  {
    var longer := schedule + [c];
    MovesGrow(schedule, c, c);
    assert longer[..|schedule|] == schedule && longer[|schedule|] == c;
    MoveStays(schedule, c, at, GET);
    if Lost(schedule, guesses) { LostStays(schedule, guesses, c); }
    if SetSince(schedule, guesses, at, c) {
      var j :| at < j < |schedule| && schedule[j] != c && schedule[j] in guesses && IsMove(schedule, j, SET);
      MoveStays(schedule, c, j, SET);
      assert LostAt(longer, at, j, |schedule|);
    }
    if Lost(longer, guesses) {
      LostWas(schedule, guesses, c);
      var i: nat, j: nat, k: nat :| LostAt(longer, i, j, k) && longer[j] in guesses && longer[k] in guesses;
      MoveWas(schedule, c, i, GET);
      MoveWas(schedule, c, j, SET);
      if k == |schedule| { MoveUnique(schedule, i, at, GET); }
    }
  }

  /** Otherwise it loses none. */
  lemma LostWas(schedule: seq<nat>, guesses: set<nat>, c: nat)
    requires Lost(schedule + [c], guesses)
    ensures Lost(schedule, guesses) || (c in guesses && Moves(schedule, c) == SET)
    ensures forall i: nat, j: nat, k: nat :: k < |schedule| && LostAt(schedule + [c], i, j, k) ==> LostAt(schedule, i, j, k)
  {
    var longer := schedule + [c];
    assert longer[..|schedule|] == schedule;
    forall i: nat, j: nat, k: nat | k < |schedule| && LostAt(longer, i, j, k) ensures LostAt(schedule, i, j, k) {
      MoveWas(schedule, c, i, GET);
      MoveWas(schedule, c, j, SET);
      MoveWas(schedule, c, k, SET);
    }
    var i: nat, j: nat, k: nat :| LostAt(longer, i, j, k) && longer[j] in guesses && longer[k] in guesses;
    if k < |schedule| { assert LostAt(schedule, i, j, k); }
  }

  /** What a request has read again is the counter, unless another one has set it since and so left it behind. */
  ghost predicate RequestSound(s: State, schedule: seq<nat>, guesses: set<nat>, c: nat) {
    if c !in guesses then PhaseOf(s, c) == Fresh
    else
      match PhaseOf(s, c)
      case Fresh => Moves(schedule, c) == 0
      case Looked(live, at) => Moves(schedule, c) == 1 && live && at < |schedule| && schedule[at] == c && IsMove(schedule, at, LOOK)
      case Wrong => Moves(schedule, c) == 2
      case Reading(seen, at) =>
        && Moves(schedule, c) == 3 && at < |schedule| && schedule[at] == c && IsMove(schedule, at, GET)
        && if SetSince(schedule, guesses, at, c) then seen < |AtLeast(guesses, schedule, 4)| else seen == s.counter
      case Counted => Moves(schedule, c) >= 4
      case _ => false
  }

  ghost predicate Admitting(s: State, schedule: seq<nat>, guesses: set<nat>) {
    && s.code && s.compared == |AtLeast(guesses, schedule, 2)|
    && s.counter <= |AtLeast(guesses, schedule, 4)|
    && (s.counter == |AtLeast(guesses, schedule, 4)| <==> !Lost(schedule, guesses))
    && forall c: nat :: RequestSound(s, schedule, guesses, c)
  }

  lemma OtherSound(s: State, schedule: seq<nat>, guesses: set<nat>, c: nat, d: nat, limit: nat)
    requires Admitting(s, schedule, guesses) && d != c
    requires c in guesses && Moves(schedule, c) == CHECK ==> s.counter < limit
    ensures RequestSound(Step(s, c, |schedule|, guesses, limit), schedule + [c], guesses, d)
  {
    assert RequestSound(s, schedule, guesses, c) && RequestSound(s, schedule, guesses, d);
    MovesGrow(schedule, c, d);
    MovesOn(guesses, schedule, c, 4);
    if PhaseOf(s, d).Looked? { MoveStays(schedule, c, PhaseOf(s, d).at, LOOK); }
    if PhaseOf(s, d).Reading? {
      MoveStays(schedule, c, PhaseOf(s, d).at, GET);
      SetStays(schedule, guesses, c, PhaseOf(s, d).at, d);
    }
  }

  lemma OwnSound(s: State, schedule: seq<nat>, guesses: set<nat>, c: nat, limit: nat)
    requires Admitting(s, schedule, guesses)
    requires c in guesses && Moves(schedule, c) == CHECK ==> s.counter < limit
    ensures RequestSound(Step(s, c, |schedule|, guesses, limit), schedule + [c], guesses, c)
  {
    assert RequestSound(s, schedule, guesses, c);
    MovesGrow(schedule, c, c);
    assert (schedule + [c])[|schedule|] == c;
  }

  lemma CountsSound(s: State, schedule: seq<nat>, guesses: set<nat>, c: nat, limit: nat)
    requires Admitting(s, schedule, guesses)
    requires c in guesses && Moves(schedule, c) == CHECK ==> s.counter < limit
    ensures
      var s', longer := Step(s, c, |schedule|, guesses, limit), schedule + [c];
      && s'.code && s'.compared == |AtLeast(guesses, longer, 2)| && s'.counter <= |AtLeast(guesses, longer, 4)|
      && (s'.counter == |AtLeast(guesses, longer, 4)| <==> !Lost(longer, guesses))
  {
    assert RequestSound(s, schedule, guesses, c);
    MovesOn(guesses, schedule, c, 2);
    MovesOn(guesses, schedule, c, 4);
    if c in guesses && Moves(schedule, c) == SET {
      LostBy(schedule, guesses, c, PhaseOf(s, c).at);
    } else {
      if Lost(schedule, guesses) { LostStays(schedule, guesses, c); }
      if Lost(schedule + [c], guesses) { LostWas(schedule, guesses, c); }
    }
  }

  lemma StepAdmits(s: State, schedule: seq<nat>, guesses: set<nat>, c: nat, limit: nat)
    requires Admitting(s, schedule, guesses)
    requires c in guesses && Moves(schedule, c) == CHECK ==> s.counter < limit
    ensures Admitting(Step(s, c, |schedule|, guesses, limit), schedule + [c], guesses)
  {
    hide Lost, SetSince, Step, AtLeast;
    CountsSound(s, schedule, guesses, c, limit);
    forall d: nat ensures RequestSound(Step(s, c, |schedule|, guesses, limit), schedule + [c], guesses, d) {
      if d == c {
        OwnSound(s, schedule, guesses, c, limit);
      } else {
        OtherSound(s, schedule, guesses, c, d, limit);
      }
    }
  }

  /** Sets only shrink as the moves asked for grow. */
  lemma FewerMoveOn(guesses: set<nat>, schedule: seq<nat>, fewer: nat, more: nat)
    requires fewer <= more
    ensures AtLeast(guesses, schedule, more) <= AtLeast(guesses, schedule, fewer)
    ensures |AtLeast(guesses, schedule, more)| <= |AtLeast(guesses, schedule, fewer)|
  {
    Subset(AtLeast(guesses, schedule, more), AtLeast(guesses, schedule, fewer));
  }

  /** As long as no more guesses than the limit have read the counter, all of them are admitted and compared. */
  lemma {:induction false} FirstAdmitted(schedule: seq<nat>, guesses: set<nat>, limit: nat)
    requires |AtLeast(guesses, schedule, 2)| <= limit
    ensures Admitting(Run(schedule, guesses, limit), schedule, guesses)
  {
    if schedule == [] {
      assert AtLeast(guesses, [], 2) == {} && AtLeast(guesses, [], 4) == {};
    } else {
      var prefix, c := schedule[..|schedule| - 1], schedule[|schedule| - 1];
      assert schedule == prefix + [c];
      MovesOn(guesses, prefix, c, 2);
      FirstAdmitted(prefix, guesses, limit);
      FewerMoveOn(guesses, prefix, 2, 4);
      StepAdmits(Run(prefix, guesses, limit), prefix, guesses, c, limit);
    }
  }

  // ----- once somebody has been refused

  predicate WasRefused(phase: Phase) {
    phase.Refused? || phase.Cleared? || phase.Gone?
  }

  ghost predicate RefusedPastLimit(schedule: seq<nat>, c: nat, limit: nat) {
    exists r: nat :: r < |schedule| && schedule[r] == c && CheckPastLimit(schedule, r, limit)
  }

  /** Nobody refused so far had deleted the code by then. */
  ghost predicate NotYetGone(s: State, schedule: seq<nat>, guesses: set<nat>, at: nat)
    requires at <= |schedule|
  {
    forall d: nat :: d in guesses && WasRefused(PhaseOf(s, d)) ==> Moves(schedule[..at], d) <= SET
  }

  ghost predicate GuessHolds(s: State, schedule: seq<nat>, guesses: set<nat>, limit: nat, c: nat) {
    c in guesses ==>
      match PhaseOf(s, c)
      case Fresh => Moves(schedule, c) == 0
      case Looked(live, at) =>
        && Moves(schedule, c) == 1 && at < |schedule| && schedule[at] == c && IsMove(schedule, at, LOOK)
        && (live ==> NotYetGone(s, schedule, guesses, at))
      case Refused => Moves(schedule, c) == 2 && RefusedPastLimit(schedule, c, limit)
      case Cleared => Moves(schedule, c) == 3 && RefusedPastLimit(schedule, c, limit)
      case Gone => Moves(schedule, c) > SET && RefusedPastLimit(schedule, c, limit) && !s.code
      case _ => true
  }

  predicate NobodyCounting(s: State, guesses: set<nat>) {
    forall c :: c in guesses ==> !PhaseOf(s, c).Wrong? && !PhaseOf(s, c).Reading?
  }

  predicate HasCleared(s: State, guesses: set<nat>) {
    exists c :: c in guesses && (PhaseOf(s, c).Cleared? || PhaseOf(s, c).Gone?)
  }

  ghost predicate Refusing(s: State, schedule: seq<nat>, guesses: set<nat>, limit: nat) {
    && |Checked(schedule)| >= limit
    && (forall c: nat :: GuessHolds(s, schedule, guesses, limit, c))
    && (HasCleared(s, guesses) || (s.counter >= limit && NobodyCounting(s, guesses)))
  }

  lemma ReadersAreChecked(guesses: set<nat>, schedule: seq<nat>)
    ensures |AtLeast(guesses, schedule, 2)| <= |Checked(schedule)|
  {
    CheckedMeans(schedule);
    Subset(AtLeast(guesses, schedule, 2), Checked(schedule));
  }

  lemma CheckedGrows(schedule: seq<nat>, c: nat)
    ensures Checked(schedule) <= Checked(schedule + [c]) && |Checked(schedule)| <= |Checked(schedule + [c])|
  {
    assert (schedule + [c])[..|schedule|] == schedule;
    Subset(Checked(schedule), Checked(schedule + [c]));
  }

  lemma PastLimitStays(schedule: seq<nat>, c: nat, r: nat, limit: nat)
    requires CheckPastLimit(schedule, r, limit)
    ensures CheckPastLimit(schedule + [c], r, limit)
  {
    MoveStays(schedule, c, r, CHECK);
    assert (schedule + [c])[..r] == schedule[..r];
  }

  lemma RefusedStays(schedule: seq<nat>, c: nat, d: nat, limit: nat)
    requires RefusedPastLimit(schedule, d, limit)
    ensures RefusedPastLimit(schedule + [c], d, limit)
  {
    var r: nat :| r < |schedule| && schedule[r] == d && CheckPastLimit(schedule, r, limit);
    PastLimitStays(schedule, c, r, limit);
    assert (schedule + [c])[r] == d;
  }

  lemma LeaksStays(schedule: seq<nat>, c: nat, limit: nat)
    requires Leaks(schedule, limit)
    ensures Leaks(schedule + [c], limit)
  {
    var longer := schedule + [c];
    var r: nat :| LeaksAt(schedule, r, limit);
    PastLimitStays(schedule, c, r, limit);
    assert longer[..r] == schedule[..r];
    if Outlived(schedule, r) {
      var d: nat, a: nat, x: nat :| OutlivedBy(schedule, r, d, a, x);
      MoveStays(schedule, c, d, GET);
      MoveStays(schedule, c, a, LOOK);
      MoveStays(schedule, c, x, CHECK);
      assert longer[..a] == schedule[..a];
      assert OutlivedBy(longer, r, d, a, x);
    }
    assert LeaksAt(longer, r, limit);
  }

  // ----- a guess too many needs a leak

  /** The first comparison past the limit while nobody has been refused. */
  lemma EarlyLeak(s: State, schedule: seq<nat>, guesses: set<nat>, c: nat, limit: nat)
    requires Admitting(s, schedule, guesses) && |AtLeast(guesses, schedule, 2)| == limit > s.counter
    requires c in guesses && Moves(schedule, c) == CHECK
    ensures Leaks(schedule + [c], limit)
  {
    var longer := schedule + [c];
    var two, four := AtLeast(guesses, schedule, 2), AtLeast(guesses, schedule, 4);
    MovesGrow(schedule, c, c);
    assert longer[..|schedule|] == schedule;
    ReadersAreChecked(guesses, schedule);
    CheckedMeans(schedule);
    FewerMoveOn(guesses, schedule, 2, 4);
    if four != two {
      var d :| d in two && d !in four;
      assert Unfinished(schedule, d);
    } else {
      assert Lost(schedule, guesses);
      var i: nat, j: nat, k: nat :| LostAt(schedule, i, j, k) && schedule[j] in guesses && schedule[k] in guesses;
      assert LostByAny(schedule);
    }
    assert LeaksAt(longer, |schedule|, limit);
  }

  /** The first refusal: everybody admitted has counted its guess. */
  lemma FirstRefusal(s: State, schedule: seq<nat>, guesses: set<nat>, c: nat, limit: nat)
    requires Admitting(s, schedule, guesses) && s.compared <= limit <= s.counter
    requires c in guesses && Moves(schedule, c) == CHECK
    ensures Refusing(Step(s, c, |schedule|, guesses, limit), schedule + [c], guesses, limit)
  {
    var s', longer := Step(s, c, |schedule|, guesses, limit), schedule + [c];
    assert RequestSound(s, schedule, guesses, c);
    FewerMoveOn(guesses, schedule, 2, 4);
    Subset(AtLeast(guesses, schedule, 4), AtLeast(guesses, schedule, 2));
    ReadersAreChecked(guesses, schedule);
    CheckedGrows(schedule, c);
    MovesGrow(schedule, c, c);
    assert longer[..|schedule|] == schedule;
    assert CheckPastLimit(longer, |schedule|, limit);
    forall d: nat ensures GuessHolds(s', longer, guesses, limit, d) && (d in guesses ==> !PhaseOf(s', d).Wrong? && !PhaseOf(s', d).Reading?) {
      assert RequestSound(s, schedule, guesses, d);
      MovesGrow(schedule, c, d);
      if d in guesses && Moves(schedule, d) >= 2 { assert d in AtLeast(guesses, schedule, 4); }
      if PhaseOf(s, d).Looked? && d != c {
        var at := PhaseOf(s, d).at;
        MoveStays(schedule, c, at, LOOK);
        OnlyRefusedNow(s, schedule, guesses, c, at, limit);
      }
    }
  }

  lemma OnlyRefusedNow(s: State, schedule: seq<nat>, guesses: set<nat>, c: nat, at: nat, limit: nat)
    requires Admitting(s, schedule, guesses) && limit <= s.counter
    requires c in guesses && Moves(schedule, c) == CHECK && at <= |schedule|
    ensures NotYetGone(Step(s, c, |schedule|, guesses, limit), schedule + [c], guesses, at)
  {
    var s', longer := Step(s, c, |schedule|, guesses, limit), schedule + [c];
    assert longer[..at] == schedule[..at];
    forall d: nat | d in guesses && WasRefused(PhaseOf(s', d)) ensures Moves(longer[..at], d) <= SET {
      assert RequestSound(s, schedule, guesses, d) && RequestSound(s, schedule, guesses, c);
      MovesMonotone(schedule, at, d);
    }
  }

  lemma MoveOrder(schedule: seq<nat>, i: nat, j: nat, few: nat, many: nat)
    requires IsMove(schedule, i, few) && IsMove(schedule, j, many) && schedule[i] == schedule[j] && few < many
    ensures i < j
  {
    if j <= i {
      assert schedule[..i][..j] == schedule[..j];
      MovesMonotone(schedule[..i], j, schedule[i]);
    }
  }

  lemma Refuser(s: State, schedule: seq<nat>, guesses: set<nat>, limit: nat) returns (r: nat, d: nat)
    requires Refusing(s, schedule, guesses, limit) && s.counter < limit
    ensures r < d < |schedule| && schedule[d] == schedule[r] && schedule[r] in guesses && WasRefused(PhaseOf(s, schedule[r]))
    ensures CheckPastLimit(schedule, r, limit) && IsMove(schedule, d, GET)
  {
    var refuser :| refuser in guesses && (PhaseOf(s, refuser).Cleared? || PhaseOf(s, refuser).Gone?);
    assert GuessHolds(s, schedule, guesses, limit, refuser);
    r :| r < |schedule| && schedule[r] == refuser && CheckPastLimit(schedule, r, limit);
    d := FindMove(schedule, refuser, GET);
    MoveOrder(schedule, r, d, CHECK, GET);
  }

  /** A comparison after a refusal: the counter was deleted, and the guess had read the code while it was there. */
  lemma LateLeak(s: State, schedule: seq<nat>, guesses: set<nat>, c: nat, limit: nat)
    requires Refusing(s, schedule, guesses, limit) && s.counter < limit
    requires c in guesses && PhaseOf(s, c).Looked? && PhaseOf(s, c).live
    ensures Leaks(schedule + [c], limit)
  {
    hide Unsettled, Checked, RefusedPastLimit;
    var longer, a := schedule + [c], PhaseOf(s, c).at;
    assert GuessHolds(s, schedule, guesses, limit, c);
    var r, d := Refuser(s, schedule, guesses, limit);
    MovesGrow(schedule, c, c);
    MoveStays(schedule, c, d, GET);
    MoveStays(schedule, c, a, LOOK);
    PastLimitStays(schedule, c, r, limit);
    assert longer[..a] == schedule[..a] && longer[|schedule|] == c;
    assert OutlivedBy(longer, r, d, a, |schedule|);
    assert LeaksAt(longer, r, limit);
  }

  lemma StillNotGone(s: State, schedule: seq<nat>, guesses: set<nat>, c: nat, at: nat, limit: nat)
    requires at <= |schedule| && NotYetGone(s, schedule, guesses, at) && GuessHolds(s, schedule, guesses, limit, c)
    ensures NotYetGone(Step(s, c, |schedule|, guesses, limit), schedule + [c], guesses, at)
  {
    assert (schedule + [c])[..at] == schedule[..at];
    MovesMonotone(schedule, at, c);
  }

  lemma StepSpares(s: State, c: nat, d: nat, now: nat, guesses: set<nat>, limit: nat)
    requires c != d
    ensures var s' := Step(s, c, now, guesses, limit); PhaseOf(s', d) == PhaseOf(s, d) && (s'.code ==> s.code)
  {
  }

  lemma OtherHolds(s: State, schedule: seq<nat>, guesses: set<nat>, c: nat, d: nat, limit: nat)
    requires Refusing(s, schedule, guesses, limit) && d != c
    ensures GuessHolds(Step(s, c, |schedule|, guesses, limit), schedule + [c], guesses, limit, d)
  {
    hide RefusedPastLimit, NotYetGone, IsMove, Step;
    StepSpares(s, c, d, |schedule|, guesses, limit);
    assert GuessHolds(s, schedule, guesses, limit, c) && GuessHolds(s, schedule, guesses, limit, d);
    MovesGrow(schedule, c, d);
    if RefusedPastLimit(schedule, d, limit) { RefusedStays(schedule, c, d, limit); }
    if d in guesses && PhaseOf(s, d).Looked? {
      var at := PhaseOf(s, d).at;
      MoveStays(schedule, c, at, LOOK);
      if PhaseOf(s, d).live { StillNotGone(s, schedule, guesses, c, at, limit); }
    }
  }

  /** A request that reads the code finds it only while nobody refused has deleted it. */
  lemma LooksHolds(s: State, schedule: seq<nat>, guesses: set<nat>, c: nat, limit: nat)
    requires Refusing(s, schedule, guesses, limit) && c in guesses && PhaseOf(s, c).Fresh?
    ensures GuessHolds(Step(s, c, |schedule|, guesses, limit), schedule + [c], guesses, limit, c)
  {
    var s', longer := Step(s, c, |schedule|, guesses, limit), schedule + [c];
    assert GuessHolds(s, schedule, guesses, limit, c);
    MovesGrow(schedule, c, c);
    assert longer[..|schedule|] == schedule && longer[|schedule|] == c;
    forall d: nat | s.code && d in guesses && WasRefused(PhaseOf(s', d)) ensures Moves(longer[..|schedule|], d) <= SET {
      assert GuessHolds(s, schedule, guesses, limit, d);
    }
  }

  lemma OwnHolds(s: State, schedule: seq<nat>, guesses: set<nat>, c: nat, limit: nat)
    requires Refusing(s, schedule, guesses, limit)
    ensures GuessHolds(Step(s, c, |schedule|, guesses, limit), schedule + [c], guesses, limit, c)
  {
    assert GuessHolds(s, schedule, guesses, limit, c);
    MovesGrow(schedule, c, c);
    if c in guesses {
      if PhaseOf(s, c).Fresh? { LooksHolds(s, schedule, guesses, c, limit); }
      if RefusedPastLimit(schedule, c, limit) { RefusedStays(schedule, c, c, limit); }
      assert (schedule + [c])[|schedule|] == c && (schedule + [c])[..|schedule|] == schedule;
      if PhaseOf(s, c).Looked? { assert CheckPastLimit(schedule + [c], |schedule|, limit); }
    }
  }

  lemma ClearedHolds(s: State, schedule: seq<nat>, guesses: set<nat>, c: nat, limit: nat)
    requires HasCleared(s, guesses) || (s.counter >= limit && NobodyCounting(s, guesses))
    ensures var s' := Step(s, c, |schedule|, guesses, limit);
      HasCleared(s', guesses) || (s'.counter >= limit && NobodyCounting(s', guesses))
  {
    var s' := Step(s, c, |schedule|, guesses, limit);
    if HasCleared(s, guesses) {
      var d :| d in guesses && (PhaseOf(s, d).Cleared? || PhaseOf(s, d).Gone?);
      assert PhaseOf(s', d).Cleared? || PhaseOf(s', d).Gone?;
    } else if c in guesses && PhaseOf(s, c).Refused? {
      assert PhaseOf(s', c).Cleared?;
    }
  }

  lemma StepRefusing(s: State, schedule: seq<nat>, guesses: set<nat>, c: nat, limit: nat)
    requires Refusing(s, schedule, guesses, limit)
    ensures
      var s' := Step(s, c, |schedule|, guesses, limit);
      Leaks(schedule + [c], limit) || (s'.compared == s.compared && Refusing(s', schedule + [c], guesses, limit))
  {
    if c in guesses && PhaseOf(s, c).Looked? && PhaseOf(s, c).live && s.counter < limit {
      LateLeak(s, schedule, guesses, c, limit);
    } else {
      CheckedGrows(schedule, c);
      ClearedHolds(s, schedule, guesses, c, limit);
      forall d: nat ensures GuessHolds(Step(s, c, |schedule|, guesses, limit), schedule + [c], guesses, limit, d) {
        if d == c {
          OwnHolds(s, schedule, guesses, c, limit);
        } else {
          OtherHolds(s, schedule, guesses, c, d, limit);
        }
      }
    }
  }

  lemma StepWithoutLeak(s: State, schedule: seq<nat>, guesses: set<nat>, c: nat, limit: nat)
    requires s.compared <= limit && (Admitting(s, schedule, guesses) || Refusing(s, schedule, guesses, limit))
    ensures
      var s', longer := Step(s, c, |schedule|, guesses, limit), schedule + [c];
      Leaks(longer, limit) || (s'.compared <= limit && (Admitting(s', longer, guesses) || Refusing(s', longer, guesses, limit)))
  {
    hide Lost, Leaks, GuessHolds;
    if !Admitting(s, schedule, guesses) {
      StepRefusing(s, schedule, guesses, c, limit);
    } else {
      assert RequestSound(s, schedule, guesses, c);
      if c in guesses && Moves(schedule, c) == CHECK && s.counter >= limit {
        FirstRefusal(s, schedule, guesses, c, limit);
      } else {
        if c in guesses && Moves(schedule, c) == CHECK && s.compared == limit { EarlyLeak(s, schedule, guesses, c, limit); }
        StepAdmits(s, schedule, guesses, c, limit);
      }
    }
  }

  lemma {:induction false} WithoutLeak(schedule: seq<nat>, guesses: set<nat>, limit: nat)
    ensures
      var s := Run(schedule, guesses, limit);
      Leaks(schedule, limit) || (s.compared <= limit && (Admitting(s, schedule, guesses) || Refusing(s, schedule, guesses, limit)))
  {
    if schedule == [] {
      FewerMoveOn(guesses, [], 2, 2);
      assert AtLeast(guesses, [], 2) == {};
      FirstAdmitted([], guesses, limit);
    } else {
      var prefix, c := schedule[..|schedule| - 1], schedule[|schedule| - 1];
      assert schedule == prefix + [c];
      WithoutLeak(prefix, guesses, limit);
      if Leaks(prefix, limit) {
        LeaksStays(prefix, c, limit);
      } else {
        StepWithoutLeak(Run(prefix, guesses, limit), prefix, guesses, c, limit);
      }
    }
  }

  // ----- a leak lets some guesses through

  /** Some requests of the pool, so many of them, with the ones asked for among them. */
  lemma {:induction false} SomeOf(pool: set<nat>, wanted: set<nat>, size: nat) returns (some: set<nat>)
    requires wanted <= pool && |wanted| <= size <= |pool|
    ensures wanted <= some <= pool && |some| == size
    decreases size - |wanted|
  {
    if |wanted| == size {
      some := wanted;
    } else {
      if pool <= wanted { Subset(pool, wanted); }
      var c :| c in pool && c !in wanted;
      some := SomeOf(pool, wanted + {c}, size);
    }
  }

  lemma {:induction false} ComparedStays(schedule: seq<nat>, n: nat, guesses: set<nat>, limit: nat)
    requires n <= |schedule|
    ensures Run(schedule[..n], guesses, limit).compared <= Run(schedule, guesses, limit).compared
    decreases |schedule|
  {
    if n < |schedule| {
      var m := |schedule| - 1;
      assert schedule[..m][..n] == schedule[..n];
      ComparedStays(schedule[..m], n, guesses, limit);
    } else {
      assert schedule[..n] == schedule;
    }
  }

  /** One comparison past the limit at n is enough. */
  lemma ExceedsAt(schedule: seq<nat>, n: nat, guesses: set<nat>, limit: nat)
    requires n < |schedule| && schedule[n] in guesses
    requires
      var s := Run(schedule[..n], guesses, limit);
      s.compared == limit > s.counter && PhaseOf(s, schedule[n]).Looked? && PhaseOf(s, schedule[n]).live
    ensures CanExceed(schedule, limit)
  {
    assert schedule[..n + 1][..n] == schedule[..n];
    ComparedStays(schedule, n + 1, guesses, limit);
  }

  /** As many earlier guesses as the limit, and the one that reads the counter at r, before it does. */
  lemma BeforeCheck(schedule: seq<nat>, r: nat, earlier: set<nat>, others: set<nat>, limit: nat)
    requires IsMove(schedule, r, CHECK) && earlier <= Checked(schedule[..r]) && |earlier| == limit
    requires others !! Checked(schedule[..r])
    ensures
      var prefix, guesses := schedule[..r], earlier + others;
      AtLeast(guesses, prefix, 2) == earlier && Admitting(Run(prefix, guesses, limit), prefix, guesses)
  {
    CheckedMeans(schedule[..r]);
    assert AtLeast(earlier + others, schedule[..r], 2) == earlier;
    FirstAdmitted(schedule[..r], earlier + others, limit);
  }

  lemma UncountedExceeds(schedule: seq<nat>, r: nat, earlier: set<nat>, limit: nat)
    requires IsMove(schedule, r, CHECK) && earlier <= Checked(schedule[..r]) && |earlier| == limit
    requires (exists c :: c in earlier && Unfinished(schedule[..r], c)) || Lost(schedule[..r], earlier)
    ensures CanExceed(schedule, limit)
  {
    var prefix, reader := schedule[..r], schedule[r];
    var guesses := earlier + {reader};
    CheckedMeans(prefix);
    BeforeCheck(schedule, r, earlier, {reader}, limit);
    FewerMoveOn(guesses, prefix, 2, 4);
    var s := Run(prefix, guesses, limit);
    assert RequestSound(s, prefix, guesses, reader);
    Subset(AtLeast(guesses, prefix, 4), earlier);
    if exists c :: c in earlier && Unfinished(prefix, c) {
      var c :| c in earlier && Unfinished(prefix, c);
      assert c !in AtLeast(guesses, prefix, 4);
    } else {
      assert Lost(prefix, guesses);
    }
    ExceedsAt(schedule, r, guesses, limit);
  }

  /** Of two requests one of whose counts is lost, the later one to read the counter finds the other unfinished. */
  lemma LostMeansUnfinished(schedule: seq<nat>, i: nat, j: nat, k: nat) returns (r: nat, c: nat)
    requires LostAt(schedule, i, j, k)
    ensures IsMove(schedule, r, CHECK) && Unfinished(schedule[..r], c)
  {
    MovesMonotone(schedule, i, schedule[i]);
    MovesMonotone(schedule, j, schedule[j]);
    var first := FindMove(schedule, schedule[i], CHECK);
    var second := FindMove(schedule, schedule[j], CHECK);
    MoveOrder(schedule, first, i, CHECK, GET);
    MoveOrder(schedule, second, j, CHECK, SET);
    if first < second {
      r, c := second, schedule[i];
      ReadBefore(schedule, first, second, CHECK);
      assert schedule[..k][..second] == schedule[..second];
      MovesMonotone(schedule[..k], second, c);
    } else {
      r, c := first, schedule[j];
      ReadBefore(schedule, second, first, CHECK);
      assert schedule[..j][..first] == schedule[..first];
      MovesMonotone(schedule[..j], first, c);
    }
  }

  lemma ReadBefore(schedule: seq<nat>, first: nat, second: nat, earlier: nat)
    requires first < second <= |schedule| && IsMove(schedule, first, earlier) && earlier >= CHECK
    ensures schedule[first] in Checked(schedule[..second])
  {
    var prefix := schedule[..second];
    assert prefix[..first] == schedule[..first];
    MovesMonotone(prefix, first, schedule[first]);
    CheckedMeans(prefix);
  }

  lemma UnsettledExceeds(schedule: seq<nat>, r: nat, limit: nat)
    requires limit > 0 && CheckPastLimit(schedule, r, limit) && Unsettled(schedule[..r])
    ensures CanExceed(schedule, limit)
  {
    var prefix := schedule[..r];
    if exists c :: Unfinished(prefix, c) {
      var c :| Unfinished(prefix, c);
      var earlier := SomeOf(Checked(prefix), {c}, limit);
      UncountedExceeds(schedule, r, earlier, limit);
    } else {
      var i: nat, j: nat, k: nat :| LostAt(prefix, i, j, k);
      if limit == 1 {
        var early, c := LostMeansUnfinished(prefix, i, j, k);
        assert prefix[..early] == schedule[..early];
        UncountedExceeds(schedule, early, {c}, limit);
      } else {
        ReadBefore(prefix, j, r, SET);
        ReadBefore(prefix, k, r, SET);
        assert prefix[..r] == prefix;
        var earlier := SomeOf(Checked(prefix), {prefix[j], prefix[k]}, limit);
        assert Lost(prefix, earlier);
        UncountedExceeds(schedule, r, earlier, limit);
      }
    }
  }

  /**
  With the earlier guesses counted, the one refused at r deletes the counter at its third move and the code at its
  fourth; a request that reads the code before that finds it.
   */
  predicate Outliving(s: State, earlier: set<nat>, reader: nat, late: nat, readerMoves: nat, lateMoves: nat, limit: nat) {
    && s.compared == limit && s.code == (readerMoves <= SET) && s.counter == (if readerMoves <= GET then limit else 0)
    && (forall c :: c in earlier ==> PhaseOf(s, c) == Counted)
    && PhaseOf(s, reader) == (if readerMoves == 2 then Refused else if readerMoves == 3 then Cleared else Gone)
    && match PhaseOf(s, late)
       case Fresh => lateMoves == 0
       case Looked(live, _) => lateMoves == 1 && live
       case _ => false
  }

  lemma AnyLost(schedule: seq<nat>, guesses: set<nat>)
    ensures Lost(schedule, guesses) ==> LostByAny(schedule)
  {
  }

  /** With nothing unsettled before r the earlier guesses are all counted. */
  lemma EarlierCounted(s: State, prefix: seq<nat>, earlier: set<nat>, guesses: set<nat>)
    requires !Unsettled(prefix) && earlier <= Checked(prefix) && earlier <= guesses
    requires Admitting(s, prefix, guesses) && AtLeast(guesses, prefix, 2) == earlier
    ensures s.counter == |earlier| && forall c :: c in earlier ==> PhaseOf(s, c) == Counted
  {
    CheckedMeans(prefix);
    forall c | c in earlier ensures c in AtLeast(guesses, prefix, 4) && PhaseOf(s, c) == Counted {
      assert !Unfinished(prefix, c) && RequestSound(s, prefix, guesses, c);
    }
    FewerMoveOn(guesses, prefix, 2, 4);
    assert AtLeast(guesses, prefix, 4) == earlier;
    AnyLost(prefix, guesses);
  }

  /** What the two later requests have done when the counter is read at r. */
  lemma RefusedAt(schedule: seq<nat>, r: nat, earlier: set<nat>, late: nat, limit: nat)
    requires limit > 0 && IsMove(schedule, r, CHECK) && earlier <= Checked(schedule[..r]) && |earlier| == limit
    requires late != schedule[r] && Moves(schedule[..r], late) <= 1
    requires !Unsettled(schedule[..r])
    ensures
      var s := Run(schedule[..r + 1], earlier + {schedule[r], late}, limit);
      Outliving(s, earlier, schedule[r], late, 2, Moves(schedule[..r], late), limit)
  {
    hide Unsettled, Checked, AtLeast, Lost;
    var prefix, reader := schedule[..r], schedule[r];
    var guesses := earlier + {reader, late};
    CheckedMeans(prefix);
    BeforeCheck(schedule, r, earlier, {reader, late}, limit);
    var s := Run(prefix, guesses, limit);
    assert RequestSound(s, prefix, guesses, reader) && RequestSound(s, prefix, guesses, late);
    EarlierCounted(s, prefix, earlier, guesses);
    assert schedule[..r + 1][..r] == prefix;
  }

  lemma OutlivingKept(s: State, c: nat, now: nat, earlier: set<nat>, reader: nat, late: nat, readerMoves: nat, lateMoves: nat, limit: nat)
    requires Outliving(s, earlier, reader, late, readerMoves, lateMoves, limit) && readerMoves >= 2
    requires late != reader && late !in earlier && reader !in earlier
    requires c == late ==> lateMoves == 0 && readerMoves <= SET
    ensures
      var s' := Step(s, c, now, earlier + {reader, late}, limit);
      Outliving(s', earlier, reader, late, if c == reader then readerMoves + 1 else readerMoves,
                if c == late then lateMoves + 1 else lateMoves, limit)
  {
  }

  lemma {:induction false} UntilChecked(schedule: seq<nat>, r: nat, a: nat, n: nat, earlier: set<nat>, late: nat, limit: nat)
    requires limit > 0 && IsMove(schedule, r, CHECK) && earlier <= Checked(schedule[..r]) && |earlier| == limit
    requires r < n <= |schedule| && late != schedule[r] && Moves(schedule[..n], late) <= 1
    requires a < |schedule| && schedule[a] == late && IsMove(schedule, a, LOOK) && Moves(schedule[..a], schedule[r]) <= SET
    requires !Unsettled(schedule[..r])
    ensures
      var s := Run(schedule[..n], earlier + {schedule[r], late}, limit);
      Moves(schedule[..n], schedule[r]) >= 2 &&
      Outliving(s, earlier, schedule[r], late, Moves(schedule[..n], schedule[r]), Moves(schedule[..n], late), limit)
  {
    hide Unsettled, Checked, Step, Outliving;
    var reader := schedule[r];
    var m := n - 1;
    assert schedule[..n][..m] == schedule[..m];
    MovesMonotone(schedule[..n], m, late);
    if m == r {
      RefusedAt(schedule, r, earlier, late, limit);
    } else {
      UntilChecked(schedule, r, a, m, earlier, late, limit);
      assert schedule[..m][..r] == schedule[..r];
      MovesMonotone(schedule[..m], r, late);
      CheckedMeans(schedule[..r]);
      if schedule[m] == late { MoveUnique(schedule, a, m, LOOK); }
      OutlivingKept(Run(schedule[..m], earlier + {reader, late}, limit), schedule[m], m, earlier, reader, late,
                    Moves(schedule[..m], reader), Moves(schedule[..m], late), limit);
    }
  }

  lemma OutlivedExceeds(schedule: seq<nat>, r: nat, limit: nat)
    requires limit > 0 && r < |schedule| && CheckPastLimit(schedule, r, limit) && Outlived(schedule, r)
    requires !Unsettled(schedule[..r])
    ensures CanExceed(schedule, limit)
  {
    var d: nat, a: nat, x: nat :| OutlivedBy(schedule, r, d, a, x);
    var reader, late := schedule[r], schedule[x];
    var earlier := SomeOf(Checked(schedule[..r]), {}, limit);
    CheckedMeans(schedule[..r]);
    assert schedule[..x][..r] == schedule[..r] && schedule[..x][..d] == schedule[..d];
    MovesMonotone(schedule[..x], r, late);
    MovesMonotone(schedule[..x], d, reader);
    UntilChecked(schedule, r, a, x, earlier, late, limit);
    ExceedsAt(schedule, x, earlier + {reader, late}, limit);
  }

  /** Under a limit of zero everybody is refused. */
  lemma {:induction false} NothingAtZero(schedule: seq<nat>, guesses: set<nat>)
    ensures
      var s := Run(schedule, guesses, 0);
      s.compared == 0 && s.counter == 0 && forall c :: c in s.phases ==> !s.phases[c].Wrong? && !s.phases[c].Reading?
  {
    if schedule != [] {
      NothingAtZero(schedule[..|schedule| - 1], guesses);
    }
  }

  // ----- theorems

  /**
  More wrong guesses than a limit above zero can be compared with the code if and only if some request reads the counter
  when as many as the limit have read it, and either one of those is not counted yet, or the count of one of them was
  lost, or the request deletes the counter and another one reads it after that, having read the code before it is
  deleted.
   */
  lemma GuessesExceedExactly(schedule: seq<nat>, limit: nat)
    ensures CanExceed(schedule, limit) <==> limit > 0 && Leaks(schedule, limit)
  {
    if limit == 0 {
      forall guesses: set<nat> ensures Run(schedule, guesses, 0).compared == 0 {
        NothingAtZero(schedule, guesses);
      }
    } else if Leaks(schedule, limit) {
      var r: nat :| LeaksAt(schedule, r, limit);
      if Unsettled(schedule[..r]) {
        UnsettledExceeds(schedule, r, limit);
      } else {
        OutlivedExceeds(schedule, r, limit);
      }
    } else if CanExceed(schedule, limit) {
      var guesses: set<nat> :| Run(schedule, guesses, limit).compared > limit;
      WithoutLeak(schedule, guesses, limit);
    }
  }

  // ----- four guesses against a limit of three

  lemma Next(schedule: seq<nat>, c: nat, guesses: set<nat>, limit: nat)
    ensures Run(schedule + [c], guesses, limit) == Step(Run(schedule, guesses, limit), c, |schedule|, guesses, limit)
  {
    assert (schedule + [c])[..|schedule|] == schedule;
  }

  /** A guess that nothing comes in between of is counted, and compared if the code is there. */
  lemma WholeGuess(schedule: seq<nat>, c: nat, guesses: set<nat>, limit: nat)
    requires
      var s := Run(schedule, guesses, limit);
      c in guesses && PhaseOf(s, c) == Fresh && s.counter < limit
    ensures
      var s := Run(schedule, guesses, limit);
      && Run(schedule + [c, c, c, c], guesses, limit).(phases := s.phases)
         == s.(counter := s.counter + 1, compared := if s.code then s.compared + 1 else s.compared)
      && Run(schedule + [c, c, c, c], guesses, limit).phases == s.phases[c := Counted]
  {
    var s, n := Run(schedule, guesses, limit), |schedule|;
    Next(schedule, c, guesses, limit);
    Next(schedule + [c], c, guesses, limit);
    Next(schedule + [c] + [c], c, guesses, limit);
    Next(schedule + [c] + [c] + [c], c, guesses, limit);
    assert schedule + [c, c, c, c] == schedule + [c] + [c] + [c] + [c];
    assert s.phases[c := Looked(s.code, n)][c := Wrong][c := Reading(s.counter, n + 2)][c := Counted] == s.phases[c := Counted];
  }

  const THREE_IN_TURN: seq<nat> := [] + [0, 0, 0, 0] + [1, 1, 1, 1] + [2, 2, 2, 2]

  lemma ThreeInTurn(guesses: set<nat>)
    requires {0, 1, 2} <= guesses
    ensures Run(THREE_IN_TURN, guesses, 3) == State(true, 3, 3, map[0 := Counted, 1 := Counted, 2 := Counted])
  {
    WholeGuess([], 0, guesses, 3);
    WholeGuess([] + [0, 0, 0, 0], 1, guesses, 3);
    WholeGuess([] + [0, 0, 0, 0] + [1, 1, 1, 1], 2, guesses, 3);
  }

  /** Three guesses are counted, the fourth is refused and deletes the counter; a fifth still finds the code and no counter. */
  lemma CodeOutlivesCounter()
    ensures Run(THREE_IN_TURN + [3] + [3] + [3] + [4] + [4], {0, 1, 2, 3, 4}, 3).compared == 4
  {
    var guesses := {0, 1, 2, 3, 4};
    ThreeInTurn(guesses);
    Next(THREE_IN_TURN, 3, guesses, 3);
    Next(THREE_IN_TURN + [3], 3, guesses, 3);
    Next(THREE_IN_TURN + [3] + [3], 3, guesses, 3);
    Next(THREE_IN_TURN + [3] + [3] + [3], 4, guesses, 3);
    Next(THREE_IN_TURN + [3] + [3] + [3] + [4], 4, guesses, 3);
  }

  const READ_BEFORE_DELETION: seq<nat> := THREE_IN_TURN + [4] + [3] + [3] + [3] + [3]

  lemma ReadBeforeDeletion(guesses: set<nat>)
    requires {0, 1, 2, 3, 4} <= guesses
    ensures
      var s := Run(READ_BEFORE_DELETION, guesses, 3);
      !s.code && s.counter == 0 && s.compared == 3 && s.phases.Keys == {0, 1, 2, 3, 4} && s.phases[4] == Looked(true, 12)
  {
    ThreeInTurn(guesses);
    Next(THREE_IN_TURN, 4, guesses, 3);
    Next(THREE_IN_TURN + [4], 3, guesses, 3);
    Next(THREE_IN_TURN + [4] + [3], 3, guesses, 3);
    Next(THREE_IN_TURN + [4] + [3] + [3], 3, guesses, 3);
    Next(THREE_IN_TURN + [4] + [3] + [3] + [3], 3, guesses, 3);
  }

  /** A fifth reads the code, the fourth is refused and deletes both keys, and the fifth reads no counter. */
  lemma CodeReadBeforeDeletion()
    ensures Run(READ_BEFORE_DELETION + [4], {0, 1, 2, 3, 4}, 3).compared == 4
  {
    ReadBeforeDeletion({0, 1, 2, 3, 4});
    Next(READ_BEFORE_DELETION, 4, {0, 1, 2, 3, 4}, 3);
  }

  /** Requests for another address change nothing. */
  lemma {:induction false} NoGuess(schedule: seq<nat>, others: seq<nat>, guesses: set<nat>, limit: nat)
    requires forall c :: c in others ==> c !in guesses
    ensures Run(schedule + others, guesses, limit) == Run(schedule, guesses, limit)
  {
    if others == [] {
      assert schedule + others == schedule;
    } else {
      var n := |others| - 1;
      assert schedule + others == schedule + others[..n] + [others[n]];
      Next(schedule + others[..n], others[n], guesses, limit);
      NoGuess(schedule, others[..n], guesses, limit);
    }
  }

  const REFILLED: seq<nat> := READ_BEFORE_DELETION + [5, 5, 5, 5] + [6, 6, 6, 6] + [7, 7, 7, 7]

  lemma ThreeRefill(guesses: set<nat>)
    requires guesses == {0, 1, 2, 3, 4, 5, 6, 7}
    ensures var s := Run(REFILLED, guesses, 3); s.counter == 3 && s.compared == 3 && PhaseOf(s, 4).Looked?
  {
    ReadBeforeDeletion(guesses);
    WholeGuess(READ_BEFORE_DELETION, 5, guesses, 3);
    WholeGuess(READ_BEFORE_DELETION + [5, 5, 5, 5], 6, guesses, 3);
    WholeGuess(READ_BEFORE_DELETION + [5, 5, 5, 5] + [6, 6, 6, 6], 7, guesses, 3);
  }

  lemma ThreeDoNot(guesses: set<nat>)
    requires guesses == {0, 1, 2, 3, 4}
    ensures var s := Run(REFILLED, guesses, 3); s.counter == 0 && s.compared == 3 && PhaseOf(s, 4) == Looked(true, 12)
  {
    ReadBeforeDeletion(guesses);
    NoGuess(READ_BEFORE_DELETION, [5, 5, 5, 5] + [6, 6, 6, 6] + [7, 7, 7, 7], guesses, 3);
    assert REFILLED == READ_BEFORE_DELETION + ([5, 5, 5, 5] + [6, 6, 6, 6] + [7, 7, 7, 7]);
  }

  /**
  One schedule can exceed the limit or not, by which requests are guesses at this address: three more that find no
  code fill the counter again, and the fifth is refused.
   */
  lemma RefilledCounterRefuses()
    ensures Run(REFILLED + [4], {0, 1, 2, 3, 4, 5, 6, 7}, 3).compared == 3
    ensures Run(REFILLED + [4], {0, 1, 2, 3, 4}, 3).compared == 4
  {
    hide REFILLED;
    ThreeRefill({0, 1, 2, 3, 4, 5, 6, 7});
    Next(REFILLED, 4, {0, 1, 2, 3, 4, 5, 6, 7}, 3);
    ThreeDoNot({0, 1, 2, 3, 4});
    Next(REFILLED, 4, {0, 1, 2, 3, 4}, 3);
  }

  /** Four requests in step all find the counter at zero. */
  lemma FourAtOnce()
    ensures Run([] + [0] + [1] + [2] + [3] + [0] + [1] + [2] + [3], {0, 1, 2, 3}, 3).compared == 4
  {
    var guesses := {0, 1, 2, 3};
    Next([], 0, guesses, 3);
    Next([] + [0], 1, guesses, 3);
    Next([] + [0] + [1], 2, guesses, 3);
    Next([] + [0] + [1] + [2], 3, guesses, 3);
    Next([] + [0] + [1] + [2] + [3], 0, guesses, 3);
    Next([] + [0] + [1] + [2] + [3] + [0], 1, guesses, 3);
    Next([] + [0] + [1] + [2] + [3] + [0] + [1], 2, guesses, 3);
    Next([] + [0] + [1] + [2] + [3] + [0] + [1] + [2], 3, guesses, 3);
  }
}
