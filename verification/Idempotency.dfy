/**
The Idempotency-Key decorator as a timed protocol over the shared cache. A request fingerprint stands for the
SHA-256 of path and body. The lookup and the PROCESSING write are one step.
 */
module Idempotency {
  import opened Prelude
  import opened TtlCache

  datatype Response = Response(body: string, status: int)

  datatype Mark = Processing(hash: string) | Completed(hash: string, response: Response)

  /** What the decorator answers without running the view. */
  datatype Reply = Conflict | Mismatch | Replay(response: Response)

  const PROCESSING_TTL := 30

  /** None when the view has to run. */
  function Lookup(cache: Cache<string, Mark>, key: string, hash: string, now: int): Option<Reply> {
    var entry: Option<Mark> := Get(cache, key, now);
    match entry
    case None => None
    case Some(Processing(_)) => Some(Conflict)
    case Some(Completed(stored, response)) => if stored != hash then Some(Mismatch) else Some(Replay(response))
  }

  function Begin(cache: Cache<string, Mark>, key: string, hash: string, now: int): Cache<string, Mark> {
    Set(cache, key, Processing(hash), PROCESSING_TTL, now)
  }

  function Finish(cache: Cache<string, Mark>, key: string, hash: string, response: Response, timeout: int, now: int): Cache<string, Mark> {
    if response.status < 500 then Set(cache, key, Completed(hash, response), timeout, now) else Delete(cache, key)
  }

  // ----- the protocol

  datatype Execution = Execution(key: string, hash: string, startedAt: int, running: bool)

  datatype Event =
    | Started(key: string, hash: string, at: int)
    | Answered(key: string, hash: string, reply: Reply, at: int)
    | Returned(key: string, hash: string, response: Response, at: int)
    | Threw(key: string, hash: string, at: int)

  datatype State = State(now: int, cache: Cache<string, Mark>, executions: seq<Execution>, log: seq<Event>)

  datatype Action =
    | Request(key: string, hash: string)
    | Return(e: nat, response: Response)
    | Throw(e: nat)
    | Tick(seconds: nat)

  const INITIAL := State(0, map[], [], [])

  function Stop(s: State, e: nat): seq<Execution>
    requires e < |s.executions|
  {
    s.executions[e := s.executions[e].(running := false)]
  }

  function Step(s: State, a: Action, timeout: int): State {
    match a
    case Request(key, hash) =>
      (match Lookup(s.cache, key, hash, s.now)
       case Some(reply) => s.(log := s.log + [Answered(key, hash, reply, s.now)])
       case None =>
         s.(cache := Begin(s.cache, key, hash, s.now),
            executions := s.executions + [Execution(key, hash, s.now, true)],
            log := s.log + [Started(key, hash, s.now)]))
    case Return(e, response) =>
      if e >= |s.executions| || !s.executions[e].running then s
      else
        var x := s.executions[e];
        s.(cache := Finish(s.cache, x.key, x.hash, response, timeout, s.now),
           executions := Stop(s, e),
           log := s.log + [Returned(x.key, x.hash, response, s.now)])
    case Throw(e) =>
      if e >= |s.executions| || !s.executions[e].running then s
      else s.(executions := Stop(s, e), log := s.log + [Threw(s.executions[e].key, s.executions[e].hash, s.now)])
    case Tick(seconds) => s.(now := s.now + seconds)
  }

  function Run(actions: seq<Action>, timeout: int): State {
    if actions == [] then INITIAL
    else Step(Run(actions[..|actions| - 1], timeout), actions[|actions| - 1], timeout)
  }

  /** Every running view is still within the time to live of its PROCESSING mark. */
  predicate Timely(s: State) {
    forall e :: 0 <= e < |s.executions| && s.executions[e].running ==> s.now < s.executions[e].startedAt + PROCESSING_TTL
  }

  predicate Prompt(actions: seq<Action>, timeout: int) {
    actions == [] || (Prompt(actions[..|actions| - 1], timeout) && Timely(Run(actions, timeout)))
  }

  // ----- the invariant

  /** A running execution owns the mark of its key. */
  predicate Marked(x: Execution, cache: Cache<string, Mark>) {
    x.key in cache && cache[x.key] == Entry(Processing(x.hash), x.startedAt + PROCESSING_TTL)
  }

  predicate Exclusive(executions: seq<Execution>, cache: Cache<string, Mark>) {
    && (forall e :: 0 <= e < |executions| && executions[e].running ==> Marked(executions[e], cache))
    && (forall e, f :: 0 <= e < f < |executions| && executions[e].running && executions[f].running ==> executions[e].key != executions[f].key)
  }

  predicate Stored(e: Event) {
    e.Returned? && e.response.status < 500
  }

  /** A stored response that has not timed out is what the cache holds for its key. */
  predicate Remembered(log: seq<Event>, cache: Cache<string, Mark>, timeout: int, now: int) {
    forall i :: 0 <= i < |log| && Stored(log[i]) && now < log[i].at + timeout ==>
      log[i].key in cache && cache[log[i].key] == Entry(Completed(log[i].hash, log[i].response), log[i].at + timeout)
  }

  /** Every completed mark was returned by a view. */
  predicate Genuine(log: seq<Event>, cache: Cache<string, Mark>, timeout: int) {
    forall key :: key in cache && cache[key].value.Completed? ==> ReturnedBefore(log, key, cache[key].value, cache[key].expiry - timeout)
  }

  predicate ReturnedBefore(log: seq<Event>, key: string, mark: Mark, at: int)
    requires mark.Completed?
  {
    exists i :: 0 <= i < |log| && log[i] == Returned(key, mark.hash, mark.response, at)
  }

  predicate Past(log: seq<Event>, now: int) {
    forall i :: 0 <= i < |log| ==> log[i].at <= now
  }

  /** What a request for the key of a stored response is answered while the response lives. */
  function Expected(stored: Event, hash: string): Reply
    requires stored.Returned?
  {
    if hash == stored.hash then Replay(stored.response) else Mismatch
  }

  predicate AnsweredFrom(stored: Event, e: Event)
    requires stored.Returned?
  {
    e.Answered? && e.reply == Expected(stored, e.hash)
  }

  /** After a stored response, every event of its key within the timeout is the expected answer. */
  predicate ReplaysOnly(log: seq<Event>, timeout: int) {
    forall i, j :: 0 <= i < j < |log| && Stored(log[i]) && log[j].key == log[i].key && log[j].at < log[i].at + timeout ==>
      AnsweredFrom(log[i], log[j])
  }

  /** Every replayed response was returned earlier, to the same fingerprint, within the timeout. */
  predicate ReplaysGenuine(log: seq<Event>, timeout: int) {
    forall j :: 0 <= j < |log| && log[j].Answered? && log[j].reply.Replay? ==> HasOrigin(log, j, timeout)
  }

  predicate HasOrigin(log: seq<Event>, j: nat, timeout: int)
    requires j < |log| && log[j].Answered? && log[j].reply.Replay?
  {
    exists i :: 0 <= i < j && log[i].Returned? && log[i].key == log[j].key && log[i].hash == log[j].hash
             && log[i].response == log[j].reply.response && log[j].at < log[i].at + timeout
  }

  predicate Invariant(s: State, timeout: int) {
    && Exclusive(s.executions, s.cache)
    && Remembered(s.log, s.cache, timeout, s.now)
    && Genuine(s.log, s.cache, timeout)
    && Past(s.log, s.now)
    && ReplaysOnly(s.log, timeout)
    && ReplaysGenuine(s.log, timeout)
  }

  // ----- steps

  lemma GenuineAfter(log: seq<Event>, e: Event, cache: Cache<string, Mark>, timeout: int)
    requires Genuine(log, cache, timeout)
    ensures Genuine(log + [e], cache, timeout)
  {
    forall key | key in cache && cache[key].value.Completed?
      ensures ReturnedBefore(log + [e], key, cache[key].value, cache[key].expiry - timeout)
    {
      assert ReturnedBefore(log, key, cache[key].value, cache[key].expiry - timeout);
      var i :| 0 <= i < |log| && log[i] == Returned(key, cache[key].value.hash, cache[key].value.response, cache[key].expiry - timeout);
      assert (log + [e])[i] == log[i];
    }
  }

  lemma OriginsKept(log: seq<Event>, e: Event, timeout: int)
    requires ReplaysGenuine(log, timeout)
    requires e.Answered? && e.reply.Replay? ==> HasOrigin(log + [e], |log|, timeout)
    ensures ReplaysGenuine(log + [e], timeout)
  {
    var log' := log + [e];
    forall j | 0 <= j < |log'| && log'[j].Answered? && log'[j].reply.Replay? ensures HasOrigin(log', j, timeout) {
      if j < |log| {
        assert HasOrigin(log, j, timeout);
        var i :| 0 <= i < j && log[i].Returned? && log[i].key == log[j].key && log[i].hash == log[j].hash
          && log[i].response == log[j].reply.response && log[j].at < log[i].at + timeout;
        assert log'[i] == log[i];
      }
    }
  }

  lemma ReplaysAppend(log: seq<Event>, e: Event, timeout: int)
    requires ReplaysOnly(log, timeout)
    requires forall i :: 0 <= i < |log| && Stored(log[i]) && e.key == log[i].key && e.at < log[i].at + timeout ==> AnsweredFrom(log[i], e)
    ensures ReplaysOnly(log + [e], timeout)
  {
  }

  /** The key of a running execution has no stored response that still lives. */
  lemma RunningUnstored(s: State, e: nat, timeout: int)
    requires Invariant(s, timeout) && e < |s.executions| && s.executions[e].running
    ensures forall i :: 0 <= i < |s.log| && Stored(s.log[i]) && s.log[i].key == s.executions[e].key ==> s.log[i].at + timeout <= s.now
  {
    assert Marked(s.executions[e], s.cache);
  }

  lemma AnswerKeeps(s: State, key: string, hash: string, timeout: int)
    requires Invariant(s, timeout) && Lookup(s.cache, key, hash, s.now).Some?
    ensures Invariant(Step(s, Request(key, hash), timeout), timeout)
  {
    var reply := Lookup(s.cache, key, hash, s.now).value;
    var e := Answered(key, hash, reply, s.now);
    GenuineAfter(s.log, e, s.cache, timeout);
    ReplaysAppend(s.log, e, timeout);
    if reply.Replay? {
      var mark := s.cache[key].value;
      assert ReturnedBefore(s.log, key, mark, s.cache[key].expiry - timeout);
      var i :| 0 <= i < |s.log| && s.log[i] == Returned(key, mark.hash, mark.response, s.cache[key].expiry - timeout);
      assert (s.log + [e])[i] == s.log[i];
    }
    OriginsKept(s.log, e, timeout);
  }

  lemma StartExclusive(s: State, key: string, hash: string, timeout: int)
    requires Exclusive(s.executions, s.cache) && Timely(s) && !Live(s.cache, key, s.now)
    ensures Exclusive(s.executions + [Execution(key, hash, s.now, true)], Begin(s.cache, key, hash, s.now))
  {
    var executions, cache := s.executions + [Execution(key, hash, s.now, true)], Begin(s.cache, key, hash, s.now);
    forall x | 0 <= x < |s.executions| && s.executions[x].running ensures Marked(s.executions[x], cache) && s.executions[x].key != key {
      assert Marked(s.executions[x], s.cache);
    }
  }

  lemma StartKeeps(s: State, key: string, hash: string, timeout: int)
    requires Invariant(s, timeout) && Timely(s) && Lookup(s.cache, key, hash, s.now).None?
    ensures Invariant(Step(s, Request(key, hash), timeout), timeout)
  {
    var e := Started(key, hash, s.now);
    var cache := Begin(s.cache, key, hash, s.now);
    assert !Live(s.cache, key, s.now);
    StartExclusive(s, key, hash, timeout);
    assert forall i :: 0 <= i < |s.log| && Stored(s.log[i]) && s.log[i].key == key ==> s.log[i].at + timeout <= s.now;
    ReplaysAppend(s.log, e, timeout);
    OriginsKept(s.log, e, timeout);
    GenuineAfter(s.log, e, s.cache, timeout);
    assert Genuine(s.log + [e], cache, timeout);
  }

  lemma ReturnRemembers(s: State, x: nat, response: Response, timeout: int)
    requires Invariant(s, timeout) && x < |s.executions| && s.executions[x].running
    ensures var s' := Step(s, Return(x, response), timeout);
      Remembered(s'.log, s'.cache, timeout, s'.now) && Genuine(s'.log, s'.cache, timeout)
  {
    var run := s.executions[x];
    var e := Returned(run.key, run.hash, response, s.now);
    var s' := Step(s, Return(x, response), timeout);
    RunningUnstored(s, x, timeout);
    GenuineAfter(s.log, e, s.cache, timeout);
    assert s'.log[|s.log|] == e;
    assert Genuine(s'.log, s'.cache, timeout) by {
      if response.status < 500 {
        assert ReturnedBefore(s'.log, run.key, Completed(run.hash, response), s.now);
      }
    }
  }

  lemma ReturnExclusive(s: State, x: nat, response: Response, timeout: int)
    requires Exclusive(s.executions, s.cache) && x < |s.executions| && s.executions[x].running
    ensures var s' := Step(s, Return(x, response), timeout); Exclusive(s'.executions, s'.cache)
  {
    var s' := Step(s, Return(x, response), timeout);
    forall f | 0 <= f < |s'.executions| && s'.executions[f].running ensures Marked(s'.executions[f], s'.cache) {
      assert Marked(s.executions[f], s.cache);
    }
  }

  lemma ReturnKeeps(s: State, x: nat, response: Response, timeout: int)
    requires Invariant(s, timeout) && x < |s.executions| && s.executions[x].running
    ensures Invariant(Step(s, Return(x, response), timeout), timeout)
  {
    var run := s.executions[x];
    var e := Returned(run.key, run.hash, response, s.now);
    RunningUnstored(s, x, timeout);
    ReturnRemembers(s, x, response, timeout);
    ReturnExclusive(s, x, response, timeout);
    ReplaysAppend(s.log, e, timeout);
    OriginsKept(s.log, e, timeout);
  }

  lemma ThrowKeeps(s: State, x: nat, timeout: int)
    requires Invariant(s, timeout) && x < |s.executions| && s.executions[x].running
    ensures Invariant(Step(s, Throw(x), timeout), timeout)
  {
    var e := Threw(s.executions[x].key, s.executions[x].hash, s.now);
    RunningUnstored(s, x, timeout);
    ReplaysAppend(s.log, e, timeout);
    OriginsKept(s.log, e, timeout);
    GenuineAfter(s.log, e, s.cache, timeout);
  }

  lemma StepKeeps(s: State, a: Action, timeout: int)
    requires Invariant(s, timeout) && Timely(s)
    ensures Invariant(Step(s, a, timeout), timeout)
  {
    match a
    case Request(key, hash) =>
      if Lookup(s.cache, key, hash, s.now).Some? {
        AnswerKeeps(s, key, hash, timeout);
      } else {
        StartKeeps(s, key, hash, timeout);
      }
    case Return(e, response) => if e < |s.executions| && s.executions[e].running { ReturnKeeps(s, e, response, timeout); }
    case Throw(e) => if e < |s.executions| && s.executions[e].running { ThrowKeeps(s, e, timeout); }
    case Tick(_) =>
  }

  lemma {:induction false} RunKeeps(actions: seq<Action>, timeout: int)
    requires Prompt(actions, timeout)
    ensures Invariant(Run(actions, timeout), timeout) && Timely(Run(actions, timeout))
  {
    if actions != [] {
      RunKeeps(actions[..|actions| - 1], timeout);
      StepKeeps(Run(actions[..|actions| - 1], timeout), actions[|actions| - 1], timeout);
    }
  }

  // ----- theorems

  /** If views finish within 30 seconds, executions under one key never overlap. */
  lemma NeverOverlap(actions: seq<Action>, timeout: int, e: nat, f: nat)
    requires Prompt(actions, timeout)
    requires var s := Run(actions, timeout);
      && e < |s.executions| && f < |s.executions|
      && s.executions[e].running && s.executions[f].running && s.executions[e].key == s.executions[f].key
    ensures e == f
  {
    RunKeeps(actions, timeout);
  }

  /**
  After a response below 500, and for `timeout` seconds, nothing under its key runs: every request with the
  same fingerprint gets exactly that body and status, and every other fingerprint gets 422.
   */
  lemma ReplayedWithinTimeout(actions: seq<Action>, timeout: int, i: nat, j: nat)
    requires Prompt(actions, timeout)
    requires var log := Run(actions, timeout).log;
      && i < j < |log| && Stored(log[i]) && log[j].key == log[i].key && log[j].at < log[i].at + timeout
    ensures var log := Run(actions, timeout).log;
      log[j].Answered? && log[j].reply == if log[j].hash == log[i].hash then Replay(log[i].response) else Mismatch
  {
    RunKeeps(actions, timeout);
    assert AnsweredFrom(Run(actions, timeout).log[i], Run(actions, timeout).log[j]);
  }

  /** Nothing is replayed that a view did not return earlier to the same fingerprint. */
  lemma ReplayedWasReturned(actions: seq<Action>, timeout: int, j: nat)
    requires Prompt(actions, timeout)
    requires var log := Run(actions, timeout).log; j < |log| && log[j].Answered? && log[j].reply.Replay?
    ensures HasOrigin(Run(actions, timeout).log, j, timeout)
  {
    RunKeeps(actions, timeout);
  }

  lemma RunThenTwo(actions: seq<Action>, a: Action, b: Action, timeout: int)
    ensures Run(actions + [a, b], timeout) == Step(Step(Run(actions, timeout), a, timeout), b, timeout)
  {
    assert (actions + [a, b])[..|actions| + 1] == actions + [a];
    assert (actions + [a])[..|actions|] == actions;
  }

  /**
  Whatever came before, a request for the key of a running view starts a second execution beside it if and only if
  thirty seconds have passed since the view started; until then it is answered 409.
   */
  lemma JoinedExactlyWhenSlow(actions: seq<Action>, timeout: int, e: nat, wait: nat, hash: string)
    requires Prompt(actions, timeout)
    requires e < |Run(actions, timeout).executions| && Run(actions, timeout).executions[e].running
    ensures
      var s := Run(actions, timeout);
      var key := s.executions[e].key;
      var s' := Run(actions + [Tick(wait), Request(key, hash)], timeout);
      && s.executions <= s'.executions
      && if s.now + wait >= s.executions[e].startedAt + 30
         then s'.executions == s.executions + [Execution(key, hash, s'.now, true)]
         else s'.executions == s.executions && s'.log == s.log + [Answered(key, hash, Conflict, s'.now)]
  {
    RunKeeps(actions, timeout);
    var s := Run(actions, timeout);
    assert Marked(s.executions[e], s.cache);
    RunThenTwo(actions, Tick(wait), Request(s.executions[e].key, hash), timeout);
  }

  // ----- responses of 500 and more, and views that throw, in every run

  predicate Failed(e: Event) {
    e.Returned? && e.response.status >= 500
  }

  /** Nothing about its key comes after entry i up to entry j. */
  predicate LastOfKey(log: seq<Event>, i: nat, j: nat)
    requires i < j <= |log|
  {
    forall k :: i < k < j ==> log[k].key != log[i].key
  }

  /** No such response is stored or replayed; after one the cache has nothing under its key until the key is asked for, which starts a view. */
  predicate FailuresForgotten(s: State) {
    && (forall key :: key in s.cache && s.cache[key].value.Completed? ==> s.cache[key].value.response.status < 500)
    && (forall j :: 0 <= j < |s.log| && s.log[j].Answered? && s.log[j].reply.Replay? ==> s.log[j].reply.response.status < 500)
    && (forall i :: 0 <= i < |s.log| && Failed(s.log[i]) && LastOfKey(s.log, i, |s.log|) ==> s.log[i].key !in s.cache)
    && (forall i, j :: 0 <= i < j < |s.log| && Failed(s.log[i]) && LastOfKey(s.log, i, j) && s.log[j].key == s.log[i].key ==>
          !s.log[j].Answered?)
  }

  /** One more event, which alone may touch its own key. */
  lemma ForgottenAppend(s: State, s': State, e: Event)
    requires FailuresForgotten(s) && s'.log == s.log + [e]
    requires forall key :: key != e.key && key in s'.cache ==> key in s.cache && s'.cache[key] == s.cache[key]
    requires e.key in s'.cache && s'.cache[e.key].value.Completed? ==> s'.cache[e.key].value.response.status < 500
    requires e.Answered? ==> e.key in s.cache && (e.reply.Replay? ==> e.reply.response.status < 500)
    requires Failed(e) ==> e.key !in s'.cache
    ensures FailuresForgotten(s')
  {
    forall i | 0 <= i < |s'.log| && Failed(s'.log[i]) && LastOfKey(s'.log, i, |s'.log|) ensures s'.log[i].key !in s'.cache {
      if i < |s.log| {
        assert s'.log[|s.log|] == e;
        assert LastOfKey(s.log, i, |s.log|) by {
          forall k | i < k < |s.log| ensures s.log[k].key != s.log[i].key { assert s'.log[k] == s.log[k]; }
        }
      }
    }
    forall i, j | 0 <= i < j < |s'.log| && Failed(s'.log[i]) && LastOfKey(s'.log, i, j) && s'.log[j].key == s'.log[i].key
      ensures !s'.log[j].Answered?
    {
      assert LastOfKey(s.log, i, j) by {
        forall k | i < k < j ensures s.log[k].key != s.log[i].key { assert s'.log[k] == s.log[k]; }
      }
    }
  }

  lemma StepForgets(s: State, a: Action, timeout: int)
    requires FailuresForgotten(s)
    ensures FailuresForgotten(Step(s, a, timeout))
  {
    var s' := Step(s, a, timeout);
    if s'.log != s.log { ForgottenAppend(s, s', s'.log[|s.log|]); }
  }

  lemma {:induction false} RunForgets(actions: seq<Action>, timeout: int)
    ensures FailuresForgotten(Run(actions, timeout))
  {
    if actions != [] {
      RunForgets(actions[..|actions| - 1], timeout);
      StepForgets(Run(actions[..|actions| - 1], timeout), actions[|actions| - 1], timeout);
    }
  }

  /** Over all runs, slow views included, nothing of status 500 or more is ever replayed. */
  lemma FailureNeverReplayed(actions: seq<Action>, timeout: int, j: nat)
    requires var log := Run(actions, timeout).log; j < |log| && log[j].Answered? && log[j].reply.Replay?
    ensures Run(actions, timeout).log[j].reply.response.status < 500
  {
    RunForgets(actions, timeout);
  }

  /** After a response of 500 or more the next request for its key, whatever its fingerprint and however soon, starts a view. */
  lemma FailureIsRetried(actions: seq<Action>, timeout: int, i: nat, j: nat)
    requires
      var log := Run(actions, timeout).log;
      && i < j < |log| && log[i].Returned? && log[i].response.status >= 500
      && log[j].key == log[i].key && (log[j].Started? || log[j].Answered?)
      && forall k :: i < k < j ==> log[k].key != log[i].key
    ensures Run(actions, timeout).log[j].Started?
  {
    RunForgets(actions, timeout);
    var log := Run(actions, timeout).log;
    assert Failed(log[i]) && LastOfKey(log, i, j);
  }

  lemma RunThenThree(actions: seq<Action>, a: Action, b: Action, c: Action, timeout: int)
    ensures Run(actions + [a, b, c], timeout) == Step(Step(Step(Run(actions, timeout), a, timeout), b, timeout), c, timeout)
  {
    assert actions + [a, b, c] == (actions + [a]) + [b, c];
    assert (actions + [a])[..|actions|] == actions;
    RunThenTwo(actions + [a], b, c, timeout);
  }

  /** After a view that threw, its key is answered 409 until thirty seconds after the view started, and then starts another one. */
  lemma ThrownBlocksThirtySeconds(actions: seq<Action>, timeout: int, e: nat, wait: nat, hash: string)
    requires Prompt(actions, timeout)
    requires e < |Run(actions, timeout).executions| && Run(actions, timeout).executions[e].running
    ensures
      var s := Run(actions, timeout);
      var key := s.executions[e].key;
      var s' := Run(actions + [Throw(e), Tick(wait), Request(key, hash)], timeout);
      && s'.now == s.now + wait && |s'.log| == |s.log| + 2
      && s'.log[|s.log| + 1]
         == if s.now + wait < s.executions[e].startedAt + 30 then Answered(key, hash, Conflict, s'.now) else Started(key, hash, s'.now)
  {
    RunKeeps(actions, timeout);
    var s := Run(actions, timeout);
    assert Marked(s.executions[e], s.cache);
    RunThenThree(actions, Throw(e), Tick(wait), Request(s.executions[e].key, hash), timeout);
  }

  /** A view that is still running after 30 seconds is joined by a second execution of the same request. */
  lemma SlowViewRunsTwice(key: string, hash: string)
    ensures
      var s := Run([Request(key, hash), Tick(30), Request(key, hash)], 86400);
      && |s.executions| == 2 && s.executions[0].running && s.executions[1].running
      && s.executions[0].key == s.executions[1].key == key
  {
    var one: seq<Action> := [Request(key, hash)];
    var two := one + [Tick(30)];
    var three := two + [Request(key, hash)];
    assert one[..0] == [] && two[..1] == one && three[..2] == two;
    assert Run(one, 86400) == Step(INITIAL, Request(key, hash), 86400);
    assert three == [Request(key, hash), Tick(30), Request(key, hash)];
  }

  // ----- the decorator as it runs

  class Decorator {
    var cache: Cache<string, Mark>
    const timeout: int

    constructor (timeout: int)
      ensures this.timeout == timeout && cache == map[]
    {
      this.timeout := timeout;
      cache := map[];
    }

    /** Up to the call of the view: either an answer, or the key is marked and the view has to run. */
    method Before(key: string, hash: string, now: int) returns (answer: Option<Reply>)
      modifies this
      ensures answer == Lookup(old(cache), key, hash, now)
      ensures answer
           == if key !in old(cache) || old(cache)[key].expiry <= now then None
              else
                match old(cache)[key].value
                case Processing(_) => Some(Conflict)
                case Completed(stored, response) => Some(if stored == hash then Replay(response) else Mismatch)
      ensures cache == if answer.Some? then old(cache) else Begin(old(cache), key, hash, now)
      ensures cache == if answer.Some? then old(cache) else old(cache)[key := Entry(Processing(hash), now + 30)]
    {
      if key in cache && now < cache[key].expiry {
        var mark := cache[key].value;
        if mark.Processing? {
          return Some(Conflict);
        }
        if mark.hash != hash {
          return Some(Mismatch);
        }
        return Some(Replay(mark.response));
      }
      cache := cache[key := Entry(Processing(hash), now + PROCESSING_TTL)];
      answer := None;
    }

    method After(key: string, hash: string, response: Response, now: int)
      modifies this
      ensures cache == Finish(old(cache), key, hash, response, timeout, now)
      ensures cache == if response.status >= 500 then old(cache) - {key} else old(cache)[key := Entry(Completed(hash, response), now + timeout)]
    {
      if response.status < 500 {
        cache := cache[key := Entry(Completed(hash, response), now + timeout)];
      } else {
        cache := cache - {key};
      }
    }
  }
}
