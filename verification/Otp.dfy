/**
Email verification codes and their attempt counter, two entries of the shared cache per address. The model
follows one address; every call is one step. The two times to live are parameters, so that the theorem can
say what they have to satisfy.
 */
module Otp {
  import opened Prelude
  import opened TtlCache

  const OTP_TTL := 300
  const ATTEMPTS_TTL := 900
  const MAX_ATTEMPTS := 3

  datatype CodeKey = CodeKey
  datatype CounterKey = CounterKey

  /** A code as stored; `serial` tells the issued codes apart, for two of them may have the same digits. */
  datatype Code = Code(digits: string, serial: nat)

  datatype Verdict = AlreadyVerified | LimitExceeded | Invalid | Verified | UnknownAccount

  /** `compared` is the serial of the stored code that a guess was checked against. */
  datatype Event =
    | Issued(serial: nat)
    | Guessed(compared: Option<nat>, verdict: Verdict)

  datatype State = State(
    now: int,
    codes: Cache<CodeKey, Code>,
    counters: Cache<CounterKey, int>,
    verified: bool,
    issued: nat,
    log: seq<Event>)

  datatype Action =
    | Issue(digits: string)
    | Verify(guess: string)
    | Tick(seconds: nat)

  const INITIAL := State(0, map[], map[], false, 0, [])

  function Attempts(s: State): int {
    var counter: Option<int> := Get(s.counters, CounterKey, s.now);
    if counter.Some? then counter.value else 0
  }

  /** register_user and resend_verification_otp: a new code replaces the old one; the counter stays. */
  function IssueCode(s: State, digits: string, otpTtl: int): State {
    if s.verified then s
    else
      s.(codes := Set(s.codes, CodeKey, Code(digits, s.issued), otpTtl, s.now),
         issued := s.issued + 1,
         log := s.log + [Issued(s.issued)])
  }

  function Clear(s: State): State {
    s.(codes := Delete(s.codes, CodeKey), counters := Delete(s.counters, CounterKey))
  }

  /** verify_email_otp. */
  function VerifyCode(s: State, guess: string, attemptsTtl: int): State {
    var stored: Option<Code> := Get(s.codes, CodeKey, s.now);
    if s.verified then s.(log := s.log + [Guessed(None, AlreadyVerified)])
    else if Attempts(s) >= MAX_ATTEMPTS then Clear(s).(log := s.log + [Guessed(None, LimitExceeded)])
    else if stored.None? || stored.value.digits != guess then
      s.(counters := Set(s.counters, CounterKey, Attempts(s) + 1, attemptsTtl, s.now),
         log := s.log + [Guessed(if stored.Some? then Some(stored.value.serial) else None, Invalid)])
    else Clear(s).(verified := true, log := s.log + [Guessed(Some(stored.value.serial), Verified)])
  }

  function Step(s: State, a: Action, otpTtl: int, attemptsTtl: int): State {
    match a
    case Issue(digits) => IssueCode(s, digits, otpTtl)
    case Verify(guess) => VerifyCode(s, guess, attemptsTtl)
    case Tick(seconds) => s.(now := s.now + seconds)
  }

  function Run(actions: seq<Action>, otpTtl: int, attemptsTtl: int): State {
    if actions == [] then INITIAL
    else Step(Run(actions[..|actions| - 1], otpTtl, attemptsTtl), actions[|actions| - 1], otpTtl, attemptsTtl)
  }

  /** How many wrong guesses were compared with one issued code. */
  function WrongGuesses(log: seq<Event>, serial: nat): nat {
    if log == [] then 0
    else
      var n := |log| - 1;
      WrongGuesses(log[..n], serial) + if log[n] == Guessed(Some(serial), Invalid) then 1 else 0
  }

  lemma WrongGuessesAppend(log: seq<Event>, e: Event, serial: nat)
    ensures WrongGuesses(log + [e], serial) == WrongGuesses(log, serial) + if e == Guessed(Some(serial), Invalid) then 1 else 0
  {
    assert (log + [e])[..|log|] == log;
  }

  // ----- the invariant

  /** The live code has been guessed wrong no more often than the counter says, and the counter outlives it. */
  predicate Counted(s: State) {
    Live(s.codes, CodeKey, s.now) ==>
      var serial := s.codes[CodeKey].value.serial;
      && serial < s.issued
      && (WrongGuesses(s.log, serial) > 0 ==>
            && CounterKey in s.counters
            && s.counters[CounterKey].expiry >= s.codes[CodeKey].expiry
            && WrongGuesses(s.log, serial) <= s.counters[CounterKey].value)
  }

  ghost predicate Bounded(log: seq<Event>) {
    forall serial: nat :: WrongGuesses(log, serial) <= MAX_ATTEMPTS
  }

  ghost predicate Invariant(s: State, otpTtl: int) {
    && Counted(s)
    && Bounded(s.log)
    && (forall serial: nat :: serial >= s.issued ==> WrongGuesses(s.log, serial) == 0)
    && (CounterKey in s.counters ==> 0 < s.counters[CounterKey].value <= MAX_ATTEMPTS)
    && (CodeKey in s.codes ==> s.codes[CodeKey].value.serial < s.issued && s.codes[CodeKey].expiry <= s.now + otpTtl)
  }

  lemma IssueKeeps(s: State, digits: string, otpTtl: int)
    requires Invariant(s, otpTtl)
    ensures Invariant(IssueCode(s, digits, otpTtl), otpTtl)
  {
    forall serial: nat ensures WrongGuesses(s.log + [Issued(s.issued)], serial) == WrongGuesses(s.log, serial) {
      WrongGuessesAppend(s.log, Issued(s.issued), serial);
    }
  }

  lemma VerifyKeeps(s: State, guess: string, otpTtl: int, attemptsTtl: int)
    requires Invariant(s, otpTtl) && otpTtl <= attemptsTtl && 0 < attemptsTtl
    ensures Invariant(VerifyCode(s, guess, attemptsTtl), otpTtl)
  {
    var e := VerifyCode(s, guess, attemptsTtl).log[|s.log|];
    forall serial: nat
      ensures WrongGuesses(s.log + [e], serial) == WrongGuesses(s.log, serial) + if e == Guessed(Some(serial), Invalid) then 1 else 0
    {
      WrongGuessesAppend(s.log, e, serial);
    }
  }

  lemma {:induction false} RunKeeps(actions: seq<Action>, otpTtl: int, attemptsTtl: int)
    requires 0 <= otpTtl <= attemptsTtl && 0 < attemptsTtl
    ensures Invariant(Run(actions, otpTtl, attemptsTtl), otpTtl)
  {
    if actions != [] {
      var s := Run(actions[..|actions| - 1], otpTtl, attemptsTtl);
      RunKeeps(actions[..|actions| - 1], otpTtl, attemptsTtl);
      match actions[|actions| - 1]
      case Issue(digits) => IssueKeeps(s, digits, otpTtl);
      case Verify(guess) => VerifyKeeps(s, guess, otpTtl, attemptsTtl);
      case Tick(_) =>
    }
  }

  // ----- theorems

  /** With the code's 300 and the counter's 900 seconds, no issued code is ever compared with more than three wrong guesses. */
  lemma ThreeWrongGuesses(actions: seq<Action>, serial: nat)
    ensures WrongGuesses(Run(actions, OTP_TTL, ATTEMPTS_TTL).log, serial) <= 3
  {
    RunKeeps(actions, OTP_TTL, ATTEMPTS_TTL);
  }

  /** How many wrong guesses the live counter holds. */
  function Guesses(counters: Cache<CounterKey, int>, now: int): int {
    if CounterKey in counters && now < counters[CounterKey].expiry then counters[CounterKey].value else 0
  }

  /** The code stored for the address, while its time lasts. */
  predicate IsCode(codes: Cache<CodeKey, Code>, now: int, guess: string) {
    CodeKey in codes && now < codes[CodeKey].expiry && codes[CodeKey].value.digits == guess
  }

  /**
  In every run a guess verifies the account exactly if fewer than three wrong guesses are counted and it is the live
  code; then code and counter are gone, and a wrong guess is counted for 900 seconds.
   */
  lemma GuessVerdict(actions: seq<Action>, guess: string)
    ensures
      var s := Run(actions, OTP_TTL, ATTEMPTS_TTL);
      var s' := Run(actions + [Verify(guess)], OTP_TTL, ATTEMPTS_TTL);
      var n := Guesses(s.counters, s.now);
      && (s'.verified <==> s.verified || (n < 3 && IsCode(s.codes, s.now, guess)))
      && (!s.verified && s'.verified ==> CodeKey !in s'.codes && CounterKey !in s'.counters)
      && (!s.verified && n >= 3 ==> CodeKey !in s'.codes && CounterKey !in s'.counters)
      && (!s.verified && n < 3 && !IsCode(s.codes, s.now, guess) ==>
            s'.codes == s.codes && s'.counters == s.counters[CounterKey := Entry(n + 1, s.now + 900)])
      && (s.verified ==> s'.codes == s.codes && s'.counters == s.counters)
  {
    hide Run;
    RunSnoc(actions, Verify(guess), OTP_TTL, ATTEMPTS_TTL);
  }

  /** In every run a new code is live for 300 seconds and leaves the counter alone. */
  lemma CodeLivesFiveMinutes(actions: seq<Action>, digits: string, wait: nat, guess: string)
    requires !Run(actions, OTP_TTL, ATTEMPTS_TTL).verified
    ensures
      var s := Run(actions, OTP_TTL, ATTEMPTS_TTL);
      var s' := Run(actions + [Issue(digits)] + [Tick(wait)], OTP_TTL, ATTEMPTS_TTL);
      && s'.now == s.now + wait && s'.counters == s.counters
      && (IsCode(s'.codes, s'.now, guess) <==> wait < 300 && guess == digits)
  {
    RunSnoc(actions, Issue(digits), OTP_TTL, ATTEMPTS_TTL);
    RunSnoc(actions + [Issue(digits)], Tick(wait), OTP_TTL, ATTEMPTS_TTL);
  }

  ghost predicate BoundHolds(otpTtl: int, attemptsTtl: int) {
    forall actions: seq<Action>, serial: nat :: WrongGuesses(Run(actions, otpTtl, attemptsTtl).log, serial) <= MAX_ATTEMPTS
  }

  lemma RunSnoc(actions: seq<Action>, a: Action, otpTtl: int, attemptsTtl: int)
    ensures Run(actions + [a], otpTtl, attemptsTtl) == Step(Run(actions, otpTtl, attemptsTtl), a, otpTtl, attemptsTtl)
  {
    assert (actions + [a])[..|actions|] == actions;
  }

  predicate Guessable(s: State) {
    !s.verified && Attempts(s) < MAX_ATTEMPTS && Live(s.codes, CodeKey, s.now) && s.codes[CodeKey].value == Code("1", 0)
  }

  predicate GuessedOnce(s: State, s': State, attemptsTtl: int) {
    && s' == s.(counters := Set(s.counters, CounterKey, Attempts(s) + 1, attemptsTtl, s.now), log := s'.log)
    && WrongGuesses(s'.log, 0) == WrongGuesses(s.log, 0) + 1
  }

  lemma WrongStep(s: State, attemptsTtl: int)
    requires Guessable(s)
    ensures GuessedOnce(s, VerifyCode(s, "2", attemptsTtl), attemptsTtl)
  {
    assert "1" != "2";
    WrongGuessesAppend(s.log, Guessed(Some(0), Invalid), 0);
  }

  /** One wrong guess against the live code, with the counter below the limit. */
  lemma WrongGuess(actions: seq<Action>, otpTtl: int, attemptsTtl: int) returns (actions': seq<Action>)
    requires Guessable(Run(actions, otpTtl, attemptsTtl))
    ensures Run(actions', otpTtl, attemptsTtl) == VerifyCode(Run(actions, otpTtl, attemptsTtl), "2", attemptsTtl)
    ensures GuessedOnce(Run(actions, otpTtl, attemptsTtl), Run(actions', otpTtl, attemptsTtl), attemptsTtl)
  {
    RunSnoc(actions, Verify("2"), otpTtl, attemptsTtl);
    WrongStep(Run(actions, otpTtl, attemptsTtl), attemptsTtl);
    actions' := actions + [Verify("2")];
  }

  /** A counter that expires before the code lets a fourth guess through. */
  lemma FourthGuess(otpTtl: int, attemptsTtl: int) returns (actions: seq<Action>)
    requires 0 < attemptsTtl < otpTtl
    ensures WrongGuesses(Run(actions, otpTtl, attemptsTtl).log, 0) == 4
  {
    RunSnoc([], Issue("1"), otpTtl, attemptsTtl);
    actions := [] + [Issue("1")];
    WrongGuessesAppend([], Issued(0), 0);
    actions := WrongGuess(actions, otpTtl, attemptsTtl);
    actions := WrongGuess(actions, otpTtl, attemptsTtl);
    actions := WrongGuess(actions, otpTtl, attemptsTtl);
    RunSnoc(actions, Tick(attemptsTtl), otpTtl, attemptsTtl);
    actions := actions + [Tick(attemptsTtl)];
    actions := WrongGuess(actions, otpTtl, attemptsTtl);
  }

  /** The bound of three holds over all runs if and only if the counter lives at least as long as the code. */
  lemma BoundNeedsLongCounter(otpTtl: int, attemptsTtl: int)
    requires 0 < otpTtl && 0 < attemptsTtl
    ensures BoundHolds(otpTtl, attemptsTtl) <==> otpTtl <= attemptsTtl
  {
    if otpTtl <= attemptsTtl {
      forall actions: seq<Action>, serial: nat ensures WrongGuesses(Run(actions, otpTtl, attemptsTtl).log, serial) <= MAX_ATTEMPTS {
        RunKeeps(actions, otpTtl, attemptsTtl);
      }
    } else {
      var actions := FourthGuess(otpTtl, attemptsTtl);
      assert WrongGuesses(Run(actions, otpTtl, attemptsTtl).log, 0) > MAX_ATTEMPTS;
    }
  }

  // ----- the service as it runs

  class AuthService {
    var codes: Cache<CodeKey, Code>
    var counters: Cache<CounterKey, int>
    var verified: bool
    var issued: nat
    const registered: bool

    constructor (registered: bool)
      ensures codes == map[] && counters == map[] && !verified && issued == 0 && this.registered == registered
    {
      this.registered := registered;
      codes, counters, verified, issued := map[], map[], false, 0;
    }

    predicate Matches(s: State)
      reads this
    {
      s.codes == codes && s.counters == counters && s.verified == verified && s.issued == issued
    }

    /** An unknown address is told the same as a known one; only a verified account raises. */
    method ResendOtp(digits: string, now: int, ghost s: State) returns (answered: bool)
      requires Matches(s) && s.now == now
      modifies this
      ensures answered == (!registered || !old(verified))
      ensures Matches(if registered then IssueCode(s, digits, OTP_TTL) else s)
      ensures counters == old(counters) && verified == old(verified)
      ensures codes == if registered && !verified then old(codes)[CodeKey := Entry(Code(digits, old(issued)), now + 300)] else old(codes)
    {
      if !registered {
        return true;
      }
      if verified {
        return false;
      }
      codes := codes[CodeKey := Entry(Code(digits, issued), now + OTP_TTL)];
      issued := issued + 1;
      answered := true;
    }

    method IncrementAttempts(now: int)
      modifies `counters
      ensures
        var before: Option<int> := Get(old(counters), CounterKey, now);
        counters == Set(old(counters), CounterKey, (if before.Some? then before.value else 0) + 1, ATTEMPTS_TTL, now)
      ensures counters == old(counters)[CounterKey := Entry(Guesses(old(counters), now) + 1, now + 900)]
    {
      var attempts := 0;
      if CounterKey in counters && now < counters[CounterKey].expiry {
        attempts := counters[CounterKey].value;
      }
      counters := counters[CounterKey := Entry(attempts + 1, now + ATTEMPTS_TTL)];
    }

    method VerifyOtp(guess: string, now: int, ghost s: State) returns (verdict: Verdict)
      requires Matches(s) && s.now == now
      modifies this
      ensures if registered then Matches(VerifyCode(s, guess, ATTEMPTS_TTL)) else Matches(s)
      ensures verdict == if registered then VerifyCode(s, guess, ATTEMPTS_TTL).log[|s.log|].verdict else UnknownAccount
      ensures verdict == if !registered then UnknownAccount
                         else if old(verified) then AlreadyVerified
                         else if Guesses(old(counters), now) >= 3 then LimitExceeded
                         else if IsCode(old(codes), now, guess) then Verified
                         else Invalid
      ensures verified == (old(verified) || verdict == Verified)
      ensures verdict == Verified || verdict == LimitExceeded ==> codes == old(codes) - {CodeKey} && counters == old(counters) - {CounterKey}
      ensures verdict == Invalid ==>
        codes == old(codes) && counters == old(counters)[CounterKey := Entry(Guesses(old(counters), now) + 1, now + 900)]
      ensures verdict == UnknownAccount || verdict == AlreadyVerified ==> codes == old(codes) && counters == old(counters)
    {
      if !registered {
        return UnknownAccount;
      }
      if verified {
        return AlreadyVerified;
      }
      var attempts := 0;
      if CounterKey in counters && now < counters[CounterKey].expiry {
        attempts := counters[CounterKey].value;
      }
      if attempts >= MAX_ATTEMPTS {
        codes, counters := codes - {CodeKey}, counters - {CounterKey};
        return LimitExceeded;
      }
      if !(CodeKey in codes && now < codes[CodeKey].expiry) || codes[CodeKey].value.digits != guess {
        IncrementAttempts(now);
        return Invalid;
      }
      verified := true;
      codes, counters := codes - {CodeKey}, counters - {CounterKey};
      verdict := Verified;
    }
  }
}
