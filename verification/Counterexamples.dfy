/** Concrete runs showing what the code does not guarantee, and so why the theorems ask for what they ask. */
module Counterexamples {
  import opened Prelude
  import opened TtlCache
  import opened Engine
  import opened Turns
  import opened MutualExclusion
  import opened Traces
  import RL = RefundLedgers
  import RT = RefundTheorems
  import PO = Payouts
  import WC = WalletConservation
  import O = Orders
  import P = Payments
  import R = Refunds
  import W = Wallets

  // ----- one order of 1000, paid

  function NewOrder(): O.Order {
    O.NewOrder(0, 1000, O.PENDING_TTL)
  }

  function Payment(): P.Payment {
    P.NewPayment(0, 0, 1000, P.Dummy, None, P.Captured)
  }

  /** The paid order with these refunds and tasks, at time zero and with no lock. */
  function Scene(refunds: seq<R.Refund>, tasks: seq<Task>): State {
    State(0, [O.WithStatus(NewOrder(), O.Paid)], [], [Payment()], refunds, [], tasks, map[])
  }

  lemma Ordered() returns (actions: seq<Action>)
    ensures Prompt(actions) && NeverStale(actions)
    ensures Run(actions) == State(0, [NewOrder()], [], [], [], [], [], map[])
  {
    assert Run([]) == INITIAL && Prompt([]) && NeverStale([]);
    hide Run, Prompt, NeverStale;
    actions := Did([], OnOrder(CreateOrderAct(0, 1000, None)));
  }

  lemma PaidRun() returns (actions: seq<Action>)
    ensures Prompt(actions) && NeverStale(actions) && Run(actions) == Scene([], [])
  {
    hide Run, Prompt, NeverStale;
    actions := Ordered();
    actions := Did(actions, OnPayment(CreatePaymentAct(0, 0, 1000, P.Dummy, None)));
  }

  lemma Requested(actions: seq<Action>, amount: int) returns (actions': seq<Action>)
    requires CreateRefund(Run(actions), 0, 0, amount).Ok?
    ensures Run(actions') == CreateRefund(Run(actions), 0, 0, amount).value && Keeps(actions, actions')
  {
    hide Run, Prompt, NeverStale;
    actions' := Did(actions, OnRefund(CreateRefundAct(0, 0, amount)));
  }

  function First(): R.Refund {
    R.NewRefund(0, 0, 600)
  }

  lemma OneRequested() returns (actions: seq<Action>)
    ensures Prompt(actions) && NeverStale(actions) && Run(actions) == Scene([First()], [NewTask(0, 0)])
  {
    hide Run, Prompt, NeverStale;
    actions := PaidRun();
    actions := Requested(actions, 600);
  }

  lemma TotalOfTwo(r0: R.Refund, r1: R.Refund, statuses: set<R.RefundStatus>)
    ensures R.Total([r0], 0, statuses) == R.Share(r0, 0, statuses)
    ensures R.Total([r0, r1], 0, statuses) == R.Share(r0, 0, statuses) + R.Share(r1, 0, statuses)
  {
    assert [] + [r0] == [r0] && [r0] + [r1] == [r0, r1];
    R.TotalAppend([], r0, 0, statuses);
    R.TotalAppend([r0], r1, 0, statuses);
  }

  lemma TwoRefunds(r0: R.Refund, r1: R.Refund)
    ensures R.Reserved([r0, r1], 0) == R.Share(r0, 0, R.RESERVING) + R.Share(r1, 0, R.RESERVING)
    ensures R.Returned([r0, r1], 0) == R.Share(r0, 0, {R.Success}) + R.Share(r1, 0, {R.Success})
    ensures R.Outstanding([r0, r1], 0) == R.Share(r0, 0, {R.Created, R.Processing}) + R.Share(r1, 0, {R.Created, R.Processing})
  {
    TotalOfTwo(r0, r1, R.RESERVING);
    TotalOfTwo(r0, r1, {R.Success});
    TotalOfTwo(r0, r1, {R.Created, R.Processing});
  }

  // ----- FULLY_REFUNDED does not mean everything was returned

  lemma SecondFits()
    ensures CreateRefund(Scene([R.NewRefund(0, 0, 400)], [NewTask(0, 0)]), 0, 0, 600)
         == Ok(Scene([R.NewRefund(0, 0, 400), First()], [NewTask(0, 0), NewTask(1, 0)]))
  {
    TotalOfTwo(R.NewRefund(0, 0, 400), First(), R.RESERVING);
    assert CheckNewRefund(Scene([R.NewRefund(0, 0, 400)], [NewTask(0, 0)]), 0, 0, 600) == None;
    assert [R.NewRefund(0, 0, 400)] + [First()] == [R.NewRefund(0, 0, 400), First()];
    assert [NewTask(0, 0)] + [NewTask(1, 0)] == [NewTask(0, 0), NewTask(1, 0)];
  }

  lemma TwoRequested() returns (actions: seq<Action>)
    ensures Prompt(actions) && NeverStale(actions)
    ensures Run(actions) == Scene([R.NewRefund(0, 0, 400), First()], [NewTask(0, 0), NewTask(1, 0)])
  {
    hide Run, Prompt, NeverStale;
    actions := PaidRun();
    actions := Requested(actions, 400);
    assert Run(actions) == Scene([R.NewRefund(0, 0, 400)], [NewTask(0, 0)]);
    SecondFits();
    actions := Requested(actions, 600);
  }

  lemma FirstOfTwoSucceeds() returns (actions: seq<Action>, r0: R.Refund, t0: Task)
    ensures Prompt(actions) && NeverStale(actions)
    ensures r0.payment == 0 && r0.amount == 400 && r0.status == R.Success && !t0.alive
    ensures
      var s := Run(actions);
      && s.payments == [Payment().(status := P.FullyRefunded)]
      && s.refunds == [r0, First()] && s.tasks == [t0, NewTask(1, 0)] && s.locks == map[]
  {
    hide Run, Prompt, NeverStale;
    actions := TwoRequested();
    actions := Started(actions, 0);
    actions := Processed(actions, 0, true);
    r0, t0 := Run(actions).refunds[0], Run(actions).tasks[0];
    assert Run(actions).refunds == [r0, First()];
    TwoRefunds(r0, First());
  }

  /** Refunds of 400 and 600: the first succeeds while the second is pending, then the second is declined. */
  lemma FullyRefundedWithPartReturned() returns (actions: seq<Action>)
    ensures Disciplined(actions)
    ensures
      var s := Run(actions);
      && |s.payments| == 1 && s.payments[0].amount == 1000 && s.payments[0].status == P.FullyRefunded
      && R.Returned(s.refunds, 0) == 400 && R.Outstanding(s.refunds, 0) == 0
  {
    hide Run, Prompt, NeverStale;
    var r0: R.Refund, t0: Task;
    actions, r0, t0 := FirstOfTwoSucceeds();
    actions := Started(actions, 1);
    actions := Processed(actions, 1, false);
    var r1 := Run(actions).refunds[1];
    assert Run(actions).refunds == [r0, r1];
    TwoRefunds(r0, r1);
    DisciplineHasTwoHalves(actions);
  }

  // ----- a stale read defeats the reservation

  function Loading(): Task {
    NewTask(0, 0).(phase := Loaded)
  }

  /** The refund's message is delivered twice and both executions read the refund. */
  lemma DispatchedTwice() returns (actions: seq<Action>)
    ensures Prompt(actions) && NeverStale(actions) && Run(actions) == Scene([First()], [Loading(), Loading()])
  {
    hide Run, Prompt, NeverStale;
    actions := OneRequested();
    actions := Did(actions, OnRefund(RedeliverAct(0, 0)));
    assert Run(actions).tasks == [NewTask(0, 0), NewTask(0, 0)];
    actions := Started(actions, 0);
    actions := Started(actions, 1);
  }

  lemma ReservationFreedAndTaken() returns (actions: seq<Action>, r0: R.Refund)
    ensures Prompt(actions)
    ensures r0.payment == 0 && r0.amount == 600 && r0.status == R.Failed
    ensures
      var s := Run(actions);
      && s.now == 0 && s.locks == map[] && s.payments == [Payment()]
      && s.refunds == [r0, R.NewRefund(0, 0, 1000)]
      && |s.tasks| == 3 && !s.tasks[0].alive && s.tasks[1] == Loading() && s.tasks[2] == NewTask(1, 0)
  {
    hide Run, Prompt, NeverStale;
    actions := DispatchedTwice();
    actions := Processed(actions, 0, false);
    r0 := Run(actions).refunds[0];
    assert Run(actions).refunds == [r0];
    TotalOfTwo(r0, r0, R.RESERVING);
    actions := Requested(actions, 1000);
  }

  /**
  A refund of 600 is dispatched twice and read twice before either execution takes the lock. The first is
  declined and frees its reservation, a refund of 1000 takes it, and then the second execution, still
  holding its old read, pays the finished refund: 1600 returned of 1000, although every section is prompt.
   */
  lemma StaleReadOverRefunds() returns (actions: seq<Action>)
    ensures Prompt(actions) && !NeverStale(actions)
    ensures var s := Run(actions); |s.payments| == 1 && s.payments[0].amount == 1000 && R.Returned(s.refunds, 0) == 1600
  {
    hide Run, Prompt, NeverStale;
    var r0: R.Refund;
    actions, r0 := ReservationFreedAndTaken();
    actions := Processed(actions, 1, true);
    r0 := Run(actions).refunds[0];
    assert Run(actions).refunds == [r0, R.NewRefund(0, 0, 1000)];
    actions := LastTry(actions, r0);
    TooMuchReturned(actions);
  }

  lemma TooMuchReturned(actions: seq<Action>)
    requires var s := Run(actions); |s.payments| == 1 && s.payments[0].amount == 1000 && R.Returned(s.refunds, 0) == 1600
    ensures !Prompt(actions) || !NeverStale(actions)
  {
    DisciplineHasTwoHalves(actions);
    if Disciplined(actions) {
      RT.NoOverRefund(actions, 0);
    }
  }

  /** The refund of 1000 succeeds beside one of 600 that already has. */
  lemma LastTry(actions: seq<Action>, r0: R.Refund) returns (actions': seq<Action>)
    requires r0.payment == 0 && r0.amount == 600 && r0.status == R.Success
    requires Run(actions).refunds == [r0, R.NewRefund(0, 0, 1000)] && Run(actions).locks == map[]
    requires |Run(actions).tasks| == 3 && Run(actions).tasks[2] == NewTask(1, 0)
    requires
      var s := Run(actions);
      |s.payments| == 1 && s.payments[0].amount == 1000 && s.payments[0].gateway == P.Dummy
    ensures Keeps(actions, actions')
    ensures var s := Run(actions'); |s.payments| == 1 && s.payments[0].amount == 1000 && R.Returned(s.refunds, 0) == 1600
  {
    hide Run, Prompt, NeverStale;
    actions' := Started(actions, 2);
    actions' := Processed(actions', 2, true);
    var r1 := Run(actions').refunds[1];
    assert Run(actions').refunds == [r0, r1];
    TwoRefunds(r0, r1);
  }

  // ----- a critical section that outlives its lock

  /** Thirty seconds after the first task entered, the second one finds the lock expired and enters too. */
  lemma LateReleaseAdmitsTwo() returns (actions: seq<Action>)
    ensures NeverStale(actions) && !Prompt(actions)
    ensures
      var s := Run(actions);
      && |s.tasks| == 2 && InCritical(s.tasks[0]) && InCritical(s.tasks[1])
      && s == Scene([First()], s.tasks).(now := 30, locks := map[0 := Entry(LockMark, 60)])
      && s.tasks[0] == Loading().(phase := Saving(Begin)) && s.tasks[1] == Loading().(phase := Saving(Begin), lockedAt := 30)
  {
    hide Run, Prompt, NeverStale;
    actions := DispatchedTwice();
    actions := Locked(actions, 0);
    actions := Waited(actions, 30);
    actions := Locked(actions, 1);
    assert InCritical(Run(actions).tasks[0]);
    if Prompt(actions) { PromptIsTimely(actions); }
  }

  /** Both tasks have written PROCESSING and the gateway has paid the second one. */
  lemma BothCalled() returns (actions: seq<Action>)
    ensures NeverStale(actions)
    ensures
      var s := Run(actions);
      && |s.orders| == 1 && s.payments == [Payment()] && |s.refunds| == 1 && s.refunds[0].payment == 0 && s.refunds[0].amount == 600
      && |s.tasks| == 2 && TaskAt(s, 0, Calling) && TaskAt(s, 1, Paid) && s.tasks[0].refund == s.tasks[1].refund == 0
      && s.locks.Keys == {0}
  {
    hide Run, Prompt, NeverStale;
    actions := LateReleaseAdmitsTwo();
    actions := Updated(actions, 1);
    actions := Called(actions, 1, true);
    actions := Updated(actions, 0);
  }

  /** Only then does the first one hear that its refund is declined; its release deletes the lock of the second. */
  lemma PaidThenDeclined() returns (actions: seq<Action>, r0: R.Refund)
    ensures NeverStale(actions)
    ensures r0.payment == 0 && r0.amount == 600 && r0.status == R.Failed
    ensures
      var s := Run(actions);
      && s.locks == map[] && |s.orders| == 1 && s.payments == [Payment()] && s.refunds == [r0]
      && |s.tasks| == 2 && TaskAt(s, 1, Paid) && s.tasks[1].refund == 0
  {
    hide Run, Prompt, NeverStale;
    actions := BothCalled();
    actions := AnswerRecorded(actions, 0, false);
    assert Delete(Run(actions).locks, 0) == map[];
    actions := Left(actions, 0);
    r0 := Run(actions).refunds[0];
    assert Run(actions).refunds == [r0];
  }

  lemma CommittedLate() returns (actions: seq<Action>, r0: R.Refund)
    ensures NeverStale(actions)
    ensures r0.payment == 0 && r0.amount == 600 && r0.status == R.Success
    ensures
      var s := Run(actions);
      && s.locks == map[] && |s.payments| == 1 && s.payments[0].amount == 1000 && s.payments[0].gateway == P.Dummy
      && s.refunds == [r0, R.NewRefund(0, 0, 1000)]
      && |s.tasks| == 3 && TaskAt(s, 1, Leaving) && s.tasks[1].refund == 0 && s.tasks[2] == NewTask(1, 0)
  {
    hide Run, Prompt, NeverStale;
    actions, r0 := PaidThenDeclined();
    TotalOfTwo(r0, r0, R.RESERVING);
    actions := Requested(actions, 1000);
    actions := Did(actions, Work(1, CommitAct));
    r0 := Run(actions).refunds[0];
    assert Run(actions).refunds == [r0, R.NewRefund(0, 0, 1000)];
  }

  /**
  No task ever enters on a stale read, but the first section lasts thirty seconds: the second task is paid, the first is
  declined and frees the reservation, a refund of 1000 takes it, and then the second task commits: 1600 returned of 1000.
   */
  lemma LateCommitOverRefunds() returns (actions: seq<Action>)
    ensures NeverStale(actions) && !Prompt(actions)
    ensures var s := Run(actions); |s.payments| == 1 && s.payments[0].amount == 1000 && R.Returned(s.refunds, 0) == 1600
  {
    hide Run, Prompt, NeverStale;
    var r0: R.Refund;
    actions, r0 := CommittedLate();
    assert Delete(Run(actions).locks, 0) == map[];
    actions := Left(actions, 1);
    actions := LastTry(actions, r0);
    TooMuchReturned(actions);
  }

  // ----- writes that fail

  /** A single refund of 600, all of whose tries so far failed in the PROCESSING save. */
  predicate FailedSoFar(s: State, tries: nat) {
    && s.now == 0 && s.locks == map[] && s.refunds == [First()] && s.payments == [Payment()]
    && |s.tasks| == tries + 1
    && s.tasks[tries] == NewTask(0, tries)
    && forall t :: 0 <= t < tries ==> !s.tasks[t].alive
  }

  /** The state after the save raised, the handler queued the next try and `finally` released the lock. */
  function Requeued(s: State, t: nat): State
    requires TaskAt(s, t, Saving(Begin)) && s.tasks[t].retries < MAX_RETRIES
  {
    Departed(Handle(Raise(s, t), t), t)
  }

  lemma TriedAgain(actions: seq<Action>, t: nat) returns (actions': seq<Action>)
    requires TaskAt(Run(actions), t, Saving(Begin)) && Run(actions).tasks[t].retries < MAX_RETRIES
    ensures Run(actions') == Requeued(Run(actions), t) && Keeps(actions, actions')
  {
    hide Run, Prompt, NeverStale;
    actions' := Did(actions, Work(t, RaiseAct));
    actions' := Did(actions', Work(t, HandleAct));
    actions' := Left(actions', t);
  }

  lemma FailingTry(s: State, t: nat)
    requires FailedSoFar(s, t) && t < MAX_RETRIES
    ensures FailedSoFar(Requeued(Entered(Reading(s, t), t), t), t + 1)
  {
    var failed := Entered(Reading(s, t), t);
    assert Delete(failed.locks, 0) == map[];
  }

  lemma {:induction false} FailedTries(tries: nat) returns (actions: seq<Action>)
    requires tries <= MAX_RETRIES
    ensures Prompt(actions) && NeverStale(actions) && FailedSoFar(Run(actions), tries)
  {
    hide Run, Prompt, NeverStale;
    if tries == 0 {
      actions := OneRequested();
    } else {
      var t := tries - 1;
      actions := FailedTries(t);
      FailingTry(Run(actions), t);
      actions := Started(actions, t);
      actions := Locked(actions, t);
      actions := TriedAgain(actions, t);
    }
  }

  /** The fourth try has taken the lock. */
  lemma FourthTry() returns (actions: seq<Action>)
    ensures Prompt(actions) && NeverStale(actions)
    ensures
      var s := Run(actions);
      && s.refunds == [First()] && s.payments == [Payment()]
      && |s.tasks| == 4 && s.tasks[3] == NewTask(0, 3).(phase := Saving(Begin))
      && forall t :: 0 <= t < 3 ==> !s.tasks[t].alive
  {
    hide Run, Prompt, NeverStale;
    actions := FailedTries(3);
    actions := Started(actions, 3);
    actions := Locked(actions, 3);
  }

  predicate AtGiveUp(s: State) {
    && s.refunds == [First()] && s.payments == [Payment()]
    && |s.tasks| == 4 && s.tasks[3] == NewTask(0, 3).(phase := Saving(GiveUp), code := R.MaxRetriesExceeded)
    && forall t :: 0 <= t < 3 ==> !s.tasks[t].alive
  }

  /** The PROCESSING save failed once more and the handler is about to give up on a refund that is still CREATED. */
  lemma GivingUp() returns (actions: seq<Action>)
    ensures Prompt(actions) && NeverStale(actions) && AtGiveUp(Run(actions))
  {
    hide Run, Prompt, NeverStale;
    actions := FourthTry();
    actions := Did(actions, Work(3, RaiseAct));
    actions := Did(actions, Work(3, HandleAct));
  }

  /** Four tries whose PROCESSING save fails end in a save from CREATED straight to FAILED, which the table does not allow. */
  lemma GivingUpSkipsProcessing() returns (actions: seq<Action>)
    ensures Disciplined(actions) && |Run(actions).refunds| == 1
    ensures RT.GivesUpUnprocessed(Run(actions), Work(3, SaveAct), 0)
    ensures
      var s' := Step(Run(actions), Work(3, SaveAct));
      |s'.refunds| == 1 && !R.Validates(Run(actions).refunds[0].status, s'.refunds[0].status)
  {
    hide Run, Prompt, NeverStale;
    actions := GivingUp();
    DisciplineHasTwoHalves(actions);
  }

  predicate AllOver(s: State) {
    forall t :: 0 <= t < |s.tasks| ==> !s.tasks[t].alive
  }

  predicate LagsForGood(s: State) {
    AllOver(s) && |s.refunds| == 1 &&
    var r := s.refunds[0];
    && r.status == R.Failed && r.failureCode == R.MaxRetriesExceeded && r.deadLetters == []
    && r.ledger == [R.EntryOf(r, R.Created)] && RL.Lags(r)
  }

  /** FAILED is saved, the entry insert has raised, and `finally` is still to come. */
  lemma SavedUnlogged() returns (actions: seq<Action>)
    ensures Prompt(actions) && NeverStale(actions)
    ensures
      var s := Run(actions);
      && s.refunds == [R.SaveRow(First(), R.Failed, R.MaxRetriesExceeded, false)] && s.payments == [Payment()]
      && |s.tasks| == 4 && TaskAt(s, 3, Unfiled) && forall t :: 0 <= t < 3 ==> !s.tasks[t].alive
  {
    hide Run, Prompt, NeverStale;
    actions := GivingUp();
    actions := Did(actions, Work(3, SaveAct));
    actions := Did(actions, Work(3, RaiseAct));
  }

  /** The save of FAILED succeeds and its ledger entry raises: the row is finished, its ledger says CREATED, and there is no dead letter. */
  lemma LedgerLagsForGood() returns (actions: seq<Action>)
    ensures Disciplined(actions) && LagsForGood(Run(actions))
  {
    hide Run, Prompt, NeverStale;
    actions := SavedUnlogged();
    actions := Did(actions, Work(3, ReleaseAct));
    DisciplineHasTwoHalves(actions);
  }

  predicate DeclineLogged(s: State) {
    && |s.refunds| == 1 && |s.payments| == 1 && s.refunds[0].payment == 0 && s.refunds[0].amount == 600
    && s.refunds[0].ledger == [R.EntryOf(First(), R.Created), R.EntryOf(First(), R.Processing), R.EntryOf(First(), R.Failed)]
    && s.refunds[0].deadLetters == []
    && TaskAt(s, 3, Raised) && |s.tasks| == 4 && s.tasks[3].retries == 3 && s.tasks[3].refund == 0
    && forall t :: 0 <= t < 3 ==> !s.tasks[t].alive
  }

  lemma DeclineThenRaise(s: State)
    requires |s.refunds| == 1 && |s.payments| == 1 && s.refunds[0] == R.WriteRow(First(), R.Processing, R.NoFailure, false)
    requires |s.tasks| == 4 && s.tasks[3] == NewTask(0, 3).(phase := Saving(Decline), code := R.GatewayRefundFailed)
    requires forall t :: 0 <= t < 3 ==> !s.tasks[t].alive
    ensures DeclineLogged(Raise(LogStatus(SaveStatus(s, 3), 3), 3))
  {
  }

  /** The fourth try is declined, and the event insert raises after the FAILED entry was written. */
  lemma DeclineRaised() returns (actions: seq<Action>)
    ensures Prompt(actions) && NeverStale(actions) && DeclineLogged(Run(actions))
  {
    hide Run, Prompt, NeverStale;
    actions := FourthTry();
    actions := Updated(actions, 3);
    actions := Called(actions, 3, false);
    TurnThree(Run(actions), 3, SaveAct, LogAct, RaiseAct);
    DeclineThenRaise(Run(actions));
    actions := Turn(actions, 3, [SaveAct, LogAct, RaiseAct]);
  }

  predicate FailedTwice(s: State) {
    AllOver(s) && |s.refunds| == 1 &&
    var r := s.refunds[0];
    && r.ledger == [R.EntryOf(r, R.Created), R.EntryOf(r, R.Processing), R.EntryOf(r, R.Failed), R.EntryOf(r, R.Failed)]
    && r.deadLetters == [3] && RL.FailedTwice(r)
  }

  lemma GivesUpAfter(s: State)
    requires DeclineLogged(s)
    ensures
      var handled := Handle(s, 3);
      && AtSaving(handled, 3) && TaskAt(Rewritten(handled, 3), 3, Filing)
      && TaskAt(WriteDeadLetter(Rewritten(handled, 3), 3), 3, Leaving)
      && FailedTwice(Departed(WriteDeadLetter(Rewritten(handled, 3), 3), 3))
  {
  }

  /** The handler then gives up and writes FAILED again: the ledger ends FAILED, FAILED. */
  lemma LedgerEndsFailedTwice() returns (actions: seq<Action>)
    ensures Disciplined(actions) && FailedTwice(Run(actions))
  {
    hide Run, Prompt, NeverStale;
    actions := DeclineRaised();
    GivesUpAfter(Run(actions));
    actions := Did(actions, Work(3, HandleAct));
    actions := Updated(actions, 3);
    actions := Did(actions, Work(3, DeadLetterAct));
    actions := Left(actions, 3);
    DisciplineHasTwoHalves(actions);
  }

  /** A request that dies right after its row insert leaves a refund without a ledger. */
  lemma RefundWithoutLedger() returns (actions: seq<Action>)
    ensures Disciplined(actions) && |Run(actions).refunds| == 1 && Run(actions).refunds[0].ledger == [] && Run(actions).tasks == []
  {
    hide Run, Prompt, NeverStale;
    actions := PaidRun();
    actions := Did(actions, OnRefund(UnsentRefundAct(0, 0, 600, 0)));
    DisciplineHasTwoHalves(actions);
  }

  // ----- a gateway that paid cannot be rolled back

  /** The gateway has paid 600 of the 1000 and nothing of it is recorded yet. */
  lemma GatewayPaid() returns (actions: seq<Action>)
    ensures Prompt(actions) && NeverStale(actions)
    ensures
      var s := Run(actions);
      && s == Scene([CountPayout(R.WriteRow(First(), R.Processing, R.NoFailure, false))], [NewTask(0, 0).(phase := Paid)])
              .(locks := map[0 := Entry(LockMark, LOCK_TTL)])
  {
    hide Run, Prompt, NeverStale;
    actions := OneRequested();
    actions := Started(actions, 0);
    actions := Locked(actions, 0);
    actions := Updated(actions, 0);
    actions := Called(actions, 0, true);
  }

  lemma PaidOutOnce(r: R.Refund)
    requires r.payment == 0
    ensures PO.PaidOut([r], 0) == r.payouts * r.amount
  {
    assert [r][..0] == [];
    var times: nat -> nat := n => PO.PayoutsOf([r], n);
    assert times(0) == r.payouts;
    assert PO.Money([r], 0, times) == PO.Money([], 0, times) + times(0) * r.amount;
  }

  /** The refund of 600 of a payment of 1000 was paid once and is about to be tried again. */
  predicate QueuedAgain(s: State) {
    && s.payments == [Payment()] && |s.refunds| == 1 && |s.tasks| == 2 && TaskAt(s, 1, Queued)
    && s.refunds[0].payment == 0 && s.refunds[0].amount == 600 && s.refunds[0].payouts == 1 && s.refunds[0].status == R.Processing
    && !Live(s.locks, 0, s.now)
  }

  /** One refund, recorded once and paid twice: 1200 left the gateway for a payment of 1000. */
  predicate PaidTooMuch(s: State) {
    && |s.refunds| == 1 && s.refunds[0].status == R.Success && s.refunds[0].payouts == 2
    && PO.PaidOut(s.refunds, 0) == 1200 && |s.payments| == 1 && s.payments[0].amount == 1000
  }

  lemma PaidAgain(actions: seq<Action>) returns (actions': seq<Action>)
    requires QueuedAgain(Run(actions))
    ensures Keeps(actions, actions') && PaidTooMuch(Run(actions'))
  {
    hide Run, Prompt, NeverStale;
    actions' := Started(actions, 1);
    actions' := Processed(actions', 1, true);
    var r := Run(actions').refunds[0];
    assert Run(actions').refunds == [r];
    PaidOutOnce(r);
  }

  lemma RolledBackOnce() returns (actions: seq<Action>)
    ensures Prompt(actions) && NeverStale(actions)
    ensures
      var s := Run(actions);
      && s.payments == [Payment()] && TaskAt(s, 0, Raised) && |s.tasks| == 1 && s.tasks[0].retries == 0 && s.tasks[0].refund == 0
      && s.refunds == [CountPayout(R.WriteRow(First(), R.Processing, R.NoFailure, false))]
  {
    hide Run, Prompt, NeverStale;
    actions := GatewayPaid();
    actions := Did(actions, Work(0, RaiseAct));
  }

  lemma RolledBack() returns (actions: seq<Action>)
    ensures Prompt(actions) && NeverStale(actions) && QueuedAgain(Run(actions))
  {
    hide Run, Prompt, NeverStale;
    actions := RolledBackOnce();
    actions := Did(actions, Work(0, HandleAct));
    actions := Left(actions, 0);
  }

  /** The gateway pays, the database block rolls back, and the retry makes the gateway pay again. */
  lemma GatewayPaysTwice() returns (actions: seq<Action>)
    ensures Disciplined(actions) && PaidTooMuch(Run(actions))
  {
    hide Run, Prompt, NeverStale;
    actions := RolledBack();
    actions := PaidAgain(actions);
    DisciplineHasTwoHalves(actions);
  }

  lemma DiedPaid() returns (actions: seq<Action>)
    ensures Prompt(actions) && NeverStale(actions)
    ensures
      var s := Run(actions);
      && s.payments == [Payment()] && |s.tasks| == 1 && s.locks == map[0 := Entry(LockMark, LOCK_TTL)] && s.now == 30
      && s.refunds == [CountPayout(R.WriteRow(First(), R.Processing, R.NoFailure, false))]
  {
    hide Run, Prompt, NeverStale;
    actions := GatewayPaid();
    actions := Did(actions, Work(0, CrashAct));
    actions := Waited(actions, 30);
  }

  /** The worker dies after the gateway paid and before the block; thirty seconds later the sweep dispatches the refund again. */
  lemma SweptAfterDeath() returns (actions: seq<Action>)
    ensures Prompt(actions) && NeverStale(actions) && QueuedAgain(Run(actions))
  {
    hide Run, Prompt, NeverStale;
    actions := DiedPaid();
    assert Run(actions).refunds[..0] == [];
    assert Stuck(Run(actions).refunds) == [NewTask(0, 0)];
    actions := Did(actions, OnRefund(ReconcileAct));
  }

  /** No block ever raises: a death between the gateway and the block is enough to pay 1200 of 1000. */
  lemma DeathPaysTwice() returns (actions: seq<Action>)
    ensures Disciplined(actions) && PaidTooMuch(Run(actions))
  {
    hide Run, Prompt, NeverStale;
    actions := SweptAfterDeath();
    actions := PaidAgain(actions);
    DisciplineHasTwoHalves(actions);
  }

  // ----- a wallet debit without a payment

  function Filled(): W.Wallet {
    W.Wallet(1000, W.Active, [W.Txn(W.Credit, 1000, 0, 1000, W.Manual)])
  }

  lemma WalletOpened() returns (actions: seq<Action>)
    ensures Prompt(actions) && NeverStale(actions) && Run(actions) == INITIAL.(orders := [NewOrder()], wallets := [W.NEW_WALLET])
  {
    hide Run, Prompt, NeverStale;
    actions := Ordered();
    actions := Did(actions, OnWallet(CreateWalletAct));
  }

  lemma WalletFilled() returns (actions: seq<Action>)
    ensures Prompt(actions) && NeverStale(actions) && Run(actions) == INITIAL.(orders := [NewOrder()], wallets := [Filled()])
  {
    hide Run, Prompt, NeverStale;
    actions := WalletOpened();
    actions := Did(actions, OnWallet(CreditAct(0, 1000)));
    assert W.NEW_WALLET.ledger + [W.Txn(W.Credit, 1000, 0, 1000, W.Manual)] == Filled().ledger;
  }

  /** A wallet of 1000 is debited for an order whose payment row is never written: the balance is 1000 short of what explains it. */
  lemma OrphanDebitHappens() returns (actions: seq<Action>)
    ensures Disciplined(actions) && |Run(actions).wallets| == 1
    ensures
      var w := Run(actions).wallets[0];
      && WC.DeathTotal(actions, 0) == 1000 && w.balance == 0 && Run(actions).payments == []
      && WC.Booked(w.ledger, W.Credit, W.Manual) == 1000 && WC.Booked(w.ledger, W.Debit, W.Manual) == 0
  {
    hide Run, Prompt, NeverStale, WC.DeathTotal;
    actions := WalletFilled();
    var first := Run(actions).wallets[0].ledger;
    actions := Did(actions, OnPayment(InterruptedAct(0, 0, 1000, 0)));
    var ledger := Run(actions).wallets[0].ledger;
    assert ledger[..1] == first && first[..0] == [];
    WC.OrphansAreDeaths(actions, 0);
    assert WC.Booked(ledger, W.Debit, W.Orphan) == 1000;
    DisciplineHasTwoHalves(actions);
  }
}
