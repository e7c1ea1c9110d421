/**
One wallet row under any number of concurrent service calls, at the granularity of single database
operations. A credit or debit locks the row and reads it, writes the balance column, appends its ledger row
and commits; until then only the transaction itself sees its writes. Freezing reads without a lock and then
updates only the status column, which waits for the row lock like any update.
 */
module WalletConcurrency {
  import opened Prelude
  import opened Wallets

  datatype Op =
    | CreditOp(amount: int, reference: Reference)
    | DebitOp(amount: int, reference: Reference)
    | FreezeOp
    | UnfreezeOp

  datatype Outcome = Done | Raised(error: WalletError)

  datatype Completion = Completion(op: Op, outcome: Outcome)

  /**
  `Locked` holds the row as read under the lock; `Written` and `Appended` hold the uncommitted balance and
  ledger row. `Read` is a freeze or unfreeze that has done its unlocked read.
   */
  datatype Phase =
    | Submitted
    | Locked(row: Wallet)
    | Written(row: Wallet, balance: int)
    | Appended(row: Wallet, balance: int, txn: Txn)
    | Read(row: Wallet)
    | Finished

  datatype Call = Call(op: Op, phase: Phase)

  /** `done` lists the calls in the order in which they committed or raised. */
  datatype State = State(row: Wallet, owner: Option<nat>, calls: seq<Call>, done: seq<Completion>)

  datatype Action =
    | Submit(op: Op)
    | Begin(c: nat)
    | Write(c: nat)
    | Append(c: nat)
    | Commit(c: nat)
    | Fail(c: nat)

  predicate Moves(op: Op) {
    op.CreditOp? || op.DebitOp?
  }

  function At(s: State, c: nat, phase: Phase): State
    requires c < |s.calls|
  {
    s.(calls := s.calls[c := s.calls[c].(phase := phase)])
  }

  function Complete(s: State, c: nat, outcome: Outcome): State
    requires c < |s.calls|
  {
    At(s, c, Finished).(done := s.done + [Completion(s.calls[c].op, outcome)])
  }

  /** The error a locked call finds in the row it read, if any. */
  function CheckRow(row: Wallet, op: Op): Option<WalletError> {
    if row.status != Active then Some(WalletNotActive)
    else if op.DebitOp? && row.balance < op.amount then Some(InsufficientBalance)
    else None
  }

  function NewBalance(row: Wallet, op: Op): int
    requires Moves(op)
  {
    if op.CreditOp? then row.balance + op.amount else row.balance - op.amount
  }

  /** The first database operation of a call. */
  function BeginCall(s: State, c: nat): State
    requires c < |s.calls|
  {
    var op := s.calls[c].op;
    if !Moves(op) then At(s, c, Read(s.row))
    else if op.amount <= 0 then Complete(s, c, Raised(InvalidAmount))
    else if s.owner.Some? then s // waits for the row lock
    else At(s, c, Locked(s.row)).(owner := Some(c))
  }

  /** The status check and the write of one column. */
  function WriteCall(s: State, c: nat): State
    requires c < |s.calls|
  {
    var call := s.calls[c];
    if call.phase.Locked? && Moves(call.op) then
      match CheckRow(call.phase.row, call.op)
      case Some(e) => Complete(s, c, Raised(e)).(owner := None)
      case None => At(s, c, Written(call.phase.row, NewBalance(call.phase.row, call.op)))
    else if call.phase.Read? && s.owner.None? then
      Complete(s.(row := s.row.(status := if call.op.FreezeOp? then Frozen else Active)), c, Done)
    else s
  }

  function AppendCall(s: State, c: nat): State
    requires c < |s.calls|
  {
    var call := s.calls[c];
    if call.phase.Written? && Moves(call.op) then
      var kind := if call.op.CreditOp? then Credit else Debit;
      At(s, c, Appended(call.phase.row, call.phase.balance, Txn(kind, call.op.amount, call.phase.row.balance, call.phase.balance, call.op.reference)))
    else s
  }

  /** The transaction's balance column and ledger row become visible and the lock is released. */
  function CommitCall(s: State, c: nat): State
    requires c < |s.calls|
  {
    var call := s.calls[c];
    if call.phase.Appended? then
      Complete(s.(row := s.row.(balance := call.phase.balance, ledger := s.row.ledger + [call.phase.txn]), owner := None), c, Done)
    else s
  }

  /** The database raises, or the enclosing transaction rolls back: the call leaves nothing behind. */
  function FailCall(s: State, c: nat): State
    requires c < |s.calls|
  {
    if s.calls[c].phase.Finished? then s
    else At(s, c, Finished).(owner := if s.owner == Some(c) then None else s.owner)
  }

  function Step(s: State, a: Action): State {
    if a.Submit? then s.(calls := s.calls + [Call(a.op, Submitted)])
    else if a.c >= |s.calls| then s
    else
      match a
      case Begin(c) => if s.calls[c].phase.Submitted? then BeginCall(s, c) else s
      case Write(c) => WriteCall(s, c)
      case Append(c) => AppendCall(s, c)
      case Commit(c) => CommitCall(s, c)
      case Fail(c) => FailCall(s, c)
  }

  function Initial(row: Wallet): State {
    State(row, None, [], [])
  }

  function Run(row: Wallet, actions: seq<Action>): State {
    if actions == [] then Initial(row)
    else Step(Run(row, actions[..|actions| - 1]), actions[|actions| - 1])
  }

  // ----- the serial specification

  function Serve(row: Wallet, op: Op): (Wallet, Outcome) {
    match op
    case FreezeOp => (row.(status := Frozen), Done)
    case UnfreezeOp => (row.(status := Active), Done)
    case CreditOp(amount, reference) =>
      if amount <= 0 then (row, Raised(InvalidAmount))
      else (match CreditRow(row, amount, reference) case Ok(row') => (row', Done) case Err(e) => (row, Raised(e)))
    case DebitOp(amount, reference) =>
      if amount <= 0 then (row, Raised(InvalidAmount))
      else (match DebitRow(row, amount, reference) case Ok(row') => (row', Done) case Err(e) => (row, Raised(e)))
  }

  /** A call served alone ends with the first error that applies, or moves the balance and the ledger, or sets the status. */
  lemma ServedAlone(row: Wallet, op: Op)
    ensures
      var (row', outcome) := Serve(row, op);
      match op
      case FreezeOp => outcome == Done && row' == row.(status := Frozen)
      case UnfreezeOp => outcome == Done && row' == row.(status := Active)
      case CreditOp(amount, reference) =>
        if amount <= 0 then outcome == Raised(InvalidAmount) && row' == row
        else if row.status != Active then outcome == Raised(WalletNotActive) && row' == row
        else
          && outcome == Done
          && row' == Wallet(row.balance + amount, Active, row.ledger + [Txn(Credit, amount, row.balance, row.balance + amount, reference)])
      case DebitOp(amount, reference) =>
        if amount <= 0 then outcome == Raised(InvalidAmount) && row' == row
        else if row.status != Active then outcome == Raised(WalletNotActive) && row' == row
        else if row.balance < amount then outcome == Raised(InsufficientBalance) && row' == row
        else
          && outcome == Done
          && row' == Wallet(row.balance - amount, Active, row.ledger + [Txn(Debit, amount, row.balance, row.balance - amount, reference)])
  {
  }

  /** The calls served one after the other, each seeing the result of the one before. */
  function Serially(row: Wallet, done: seq<Completion>): Wallet {
    if done == [] then row
    else Serve(Serially(row, done[..|done| - 1]), done[|done| - 1].op).0
  }

  /** Every call ended as it does when served alone at its place in the order. */
  ghost predicate SameOutcomes(row: Wallet, done: seq<Completion>) {
    forall i :: 0 <= i < |done| ==> SameOutcome(row, done, i)
  }

  predicate SameOutcome(row: Wallet, done: seq<Completion>, i: nat)
    requires i < |done|
  {
    Serve(Serially(row, done[..i]), done[i].op).1 == done[i].outcome
  }

  lemma SeriallyAppend(row: Wallet, done: seq<Completion>, last: Completion)
    requires SameOutcomes(row, done) && Serve(Serially(row, done), last.op).1 == last.outcome
    ensures Serially(row, done + [last]) == Serve(Serially(row, done), last.op).0
    ensures SameOutcomes(row, done + [last])
  {
    var done' := done + [last];
    assert done'[..|done|] == done;
    forall i | 0 <= i < |done'| ensures SameOutcome(row, done', i) {
      if i < |done| {
        assert SameOutcome(row, done, i);
        assert done'[..i] == done[..i];
      }
    }
  }

  // ----- the invariant

  predicate HoldsLock(phase: Phase) {
    phase.Locked? || phase.Written? || phase.Appended?
  }

  /** The lock holder's private copy is the committed row, and its uncommitted writes are what the operation does to it. */
  predicate CallOk(s: State, c: nat)
    requires c < |s.calls|
  {
    var call := s.calls[c];
    && (HoldsLock(call.phase) <==> s.owner == Some(c))
    && (HoldsLock(call.phase) ==> Moves(call.op) && call.op.amount > 0 && call.phase.row == s.row)
    && (call.phase.Read? ==> !Moves(call.op))
    && (call.phase.Written? || call.phase.Appended? ==>
          CheckRow(s.row, call.op).None? && call.phase.balance == NewBalance(s.row, call.op))
    && (call.phase.Appended? ==>
          call.phase.txn == Txn(if call.op.CreditOp? then Credit else Debit, call.op.amount, s.row.balance, call.phase.balance, call.op.reference))
  }

  ghost predicate Consistent(row: Wallet, s: State) {
    && (s.owner.Some? ==> s.owner.value < |s.calls|)
    && (forall c :: 0 <= c < |s.calls| ==> CallOk(s, c))
    && s.row == Serially(row, s.done)
    && SameOutcomes(row, s.done)
  }

  /** What one database operation of call c may change: its own phase, the lock it takes or holds, and what its completion serves. */
  predicate Progress(s: State, s': State, c: nat)
    requires c < |s.calls|
  {
    && |s'.calls| == |s.calls|
    && (forall d :: 0 <= d < |s.calls| && d != c ==> s'.calls[d] == s.calls[d])
    && (s'.owner == s.owner || (s.owner == Some(c) && s'.owner == None) || (s.owner == None && s'.owner == Some(c)))
    && (s'.row == s.row || s.owner == None || s.owner == Some(c))
    && (s'.done == s.done ==> s'.row == s.row)
    && (s'.done != s.done ==>
          && |s'.done| == |s.done| + 1
          && s'.done == s.done + [s'.done[|s.done|]]
          && s'.done[|s.done|].op == s.calls[c].op
          && Serve(s.row, s.calls[c].op) == (s'.row, s'.done[|s.done|].outcome))
  }

  lemma CallsOk(s: State, s': State, c: nat)
    requires c < |s.calls| && Progress(s, s', c)
    requires forall d :: 0 <= d < |s.calls| ==> CallOk(s, d)
    requires CallOk(s', c)
    ensures forall d :: 0 <= d < |s'.calls| ==> CallOk(s', d)
  {
    forall d | 0 <= d < |s'.calls| ensures CallOk(s', d) {
      assert CallOk(s, d);
    }
  }

  lemma BeginProgress(s: State, c: nat)
    requires c < |s.calls| && CallOk(s, c) && s.calls[c].phase.Submitted?
    ensures Progress(s, BeginCall(s, c), c) && CallOk(BeginCall(s, c), c)
  {
  }

  lemma WriteProgress(s: State, c: nat)
    requires c < |s.calls| && CallOk(s, c)
    ensures Progress(s, WriteCall(s, c), c) && CallOk(WriteCall(s, c), c)
  {
  }

  lemma AppendProgress(s: State, c: nat)
    requires c < |s.calls| && CallOk(s, c)
    ensures Progress(s, AppendCall(s, c), c) && CallOk(AppendCall(s, c), c)
  {
  }

  lemma CommitProgress(s: State, c: nat)
    requires c < |s.calls| && CallOk(s, c)
    ensures Progress(s, CommitCall(s, c), c) && CallOk(CommitCall(s, c), c)
  {
  }

  lemma FailProgress(s: State, c: nat)
    requires c < |s.calls| && CallOk(s, c)
    ensures Progress(s, FailCall(s, c), c) && CallOk(FailCall(s, c), c)
  {
  }

  lemma ProgressConsistent(row: Wallet, s: State, s': State, c: nat)
    requires Consistent(row, s) && c < |s.calls| && Progress(s, s', c) && CallOk(s', c)
    requires s'.owner.Some? ==> s'.owner.value < |s'.calls|
    ensures Consistent(row, s')
  {
    CallsOk(s, s', c);
    if s'.done != s.done {
      SeriallyAppend(row, s.done, s'.done[|s.done|]);
    }
  }

  lemma SubmitConsistent(row: Wallet, s: State, call: Call)
    requires Consistent(row, s) && call.phase.Submitted?
    ensures Consistent(row, s.(calls := s.calls + [call]))
  {
    var s' := s.(calls := s.calls + [call]);
    forall d | 0 <= d < |s'.calls| ensures CallOk(s', d) {
      if d < |s.calls| { assert CallOk(s, d); }
    }
  }

  lemma StepConsistent(row: Wallet, s: State, a: Action)
    requires Consistent(row, s)
    ensures Consistent(row, Step(s, a))
  {
    if a.Submit? {
      SubmitConsistent(row, s, Call(a.op, Submitted));
    } else if a.c < |s.calls| {
      assert CallOk(s, a.c);
      match a
      case Begin(c) => if s.calls[c].phase.Submitted? { BeginProgress(s, c); ProgressConsistent(row, s, BeginCall(s, c), c); }
      case Write(c) => WriteProgress(s, c); ProgressConsistent(row, s, WriteCall(s, c), c);
      case Append(c) => AppendProgress(s, c); ProgressConsistent(row, s, AppendCall(s, c), c);
      case Commit(c) => CommitProgress(s, c); ProgressConsistent(row, s, CommitCall(s, c), c);
      case Fail(c) => FailProgress(s, c); ProgressConsistent(row, s, FailCall(s, c), c);
    }
  }

  lemma {:induction false} RunConsistent(row: Wallet, actions: seq<Action>)
    ensures Consistent(row, Run(row, actions))
  {
    if actions != [] {
      RunConsistent(row, actions[..|actions| - 1]);
      StepConsistent(row, Run(row, actions[..|actions| - 1]), actions[|actions| - 1]);
    }
  }

  // ----- theorems

  /**
  Every interleaving of the database operations of any number of calls leaves the row, and gave each call the
  outcome, of serving the calls one at a time in completion order.
   */
  lemma Serialisable(row: Wallet, actions: seq<Action>)
    ensures var s := Run(row, actions); s.row == Serially(row, s.done) && SameOutcomes(row, s.done)
  {
    RunConsistent(row, actions);
  }

  lemma {:induction false} SeriallyChained(row: Wallet, done: seq<Completion>)
    requires WalletOk(row)
    ensures WalletOk(Serially(row, done))
  {
    if done != [] {
      var before := Serially(row, done[..|done| - 1]);
      SeriallyChained(row, done[..|done| - 1]);
      var op := done[|done| - 1].op;
      if Moves(op) {
        if op.amount > 0 { RowKeepsChain(before, op.amount, op.reference); }
      } else {
        assert forall i :: 0 <= i < |before.ledger| ==> EntryOk(before.ledger, i);
      }
    }
  }

  /** The committed ledger is always a chain ending in the balance, and the balance is never negative. */
  lemma LedgerStaysChained(row: Wallet, actions: seq<Action>)
    requires WalletOk(row)
    ensures WalletOk(Run(row, actions).row) && Run(row, actions).row.balance >= 0
  {
    RunConsistent(row, actions);
    SeriallyChained(row, Run(row, actions).done);
    RowKeepsChain(Run(row, actions).row, 1, Manual);
  }

  lemma {:induction false} FrozenUntilUnfrozen(row: Wallet, done: seq<Completion>, i: nat, j: nat)
    requires i < j <= |done| && done[i].op.FreezeOp?
    requires forall k :: i < k < j ==> !done[k].op.UnfreezeOp?
    ensures Serially(row, done[..j]).status == Frozen
  {
    assert done[..j][..j - 1] == done[..j - 1];
    if i < j - 1 {
      FrozenUntilUnfrozen(row, done, i, j - 1);
    }
  }

  lemma FrozenRefuses(row: Wallet, op: Op)
    requires row.status == Frozen && Moves(op)
    ensures Serve(row, op).0 == row
    ensures Serve(row, op).1 == Raised(InvalidAmount) || Serve(row, op).1 == Raised(WalletNotActive)
  {
  }

  lemma RefusedWhileFrozen(row: Wallet, done: seq<Completion>, i: nat, j: nat)
    requires SameOutcomes(row, done)
    requires i < j < |done| && done[i].op.FreezeOp? && Moves(done[j].op)
    requires forall k :: i < k < j ==> !done[k].op.UnfreezeOp?
    ensures done[j].outcome == Raised(InvalidAmount) || done[j].outcome == Raised(WalletNotActive)
    ensures Serially(row, done[..j + 1]) == Serially(row, done[..j])
  {
    FrozenUntilUnfrozen(row, done, i, j);
    FrozenRefuses(Serially(row, done[..j]), done[j].op);
    assert SameOutcome(row, done, j);
    assert done[..j + 1][..j] == done[..j];
  }

  /** Between a freeze and the next unfreeze no ledger entry commits: every credit and debit there raised. */
  lemma NothingCommitsWhileFrozen(row: Wallet, actions: seq<Action>, i: nat, j: nat)
    requires i < j < |Run(row, actions).done| && Run(row, actions).done[i].op.FreezeOp?
    requires forall k :: i < k < j ==> !Run(row, actions).done[k].op.UnfreezeOp?
    requires Moves(Run(row, actions).done[j].op)
    ensures Run(row, actions).done[j].outcome == Raised(InvalidAmount) || Run(row, actions).done[j].outcome == Raised(WalletNotActive)
    ensures Serially(row, Run(row, actions).done[..j + 1]) == Serially(row, Run(row, actions).done[..j])
  {
    RunConsistent(row, actions);
    RefusedWhileFrozen(row, Run(row, actions).done, i, j);
  }
}
