/** A run for each way a refund can leave its declared table, and so none of the exceptions in `RefundTheorems` is idle. */
module TableCounterexamples {
  import opened Prelude
  import opened TtlCache
  import opened Engine
  import opened MutualExclusion
  import opened Traces
  import opened Counterexamples
  import opened RefundTheorems
  import P = Payments
  import R = Refunds

  /** After the run, the action takes the first refund from one status to another, which the table does not allow. */
  predicate Leaves(actions: seq<Action>, a: Action, before: R.RefundStatus, after: R.RefundStatus) {
    var s := Run(actions);
    && |s.refunds| > 0 && |Step(s, a).refunds| > 0 && UnlistedWrite(s, a, 0)
    && s.refunds[0].status == before && Step(s, a).refunds[0].status == after && !R.Validates(before, after)
  }

  /** The message was delivered twice, with these retry counts, and both executions have read the refund. */
  lemma ReadTwice(retries: nat) returns (actions: seq<Action>)
    requires retries <= MAX_RETRIES
    ensures Prompt(actions)
    ensures Run(actions) == Scene([First()], [Loading(), NewTask(0, retries).(phase := Loaded)])
  {
    hide Run, Prompt, NeverStale;
    actions := OneRequested();
    actions := Did(actions, OnRefund(RedeliverAct(0, retries)));
    assert Run(actions).tasks == [NewTask(0, 0), NewTask(0, retries)];
    actions := Started(actions, 0);
    actions := Started(actions, 1);
  }

  /** The first execution has finished the refund when the second, prompt but on its old read, takes the lock. */
  lemma EnteredStale(retries: nat, refunded: bool) returns (actions: seq<Action>)
    requires retries <= MAX_RETRIES
    ensures Prompt(actions)
    ensures
      var s := Run(actions);
      && |s.payments| == 1 && |s.refunds| == 1 && s.refunds[0].payment == 0
      && s.refunds[0].status == (if refunded then R.Success else R.Failed)
      && |s.tasks| == 2 && s.tasks[1] == NewTask(0, retries).(phase := Saving(Begin))
  {
    hide Run, Prompt, NeverStale;
    actions := ReadTwice(retries);
    actions := Processed(actions, 0, refunded);
    actions := Locked(actions, 1);
  }

  lemma ProcessingOverFinished(refunded: bool) returns (actions: seq<Action>)
    ensures Leaves(actions, Work(1, SaveAct), if refunded then R.Success else R.Failed, R.Processing)
  {
    hide Run, Prompt, NeverStale;
    actions := EnteredStale(0, refunded);
  }

  /** On its last try the second execution raises at once and gives up on a refund that is already SUCCESS. */
  lemma GivenUpOverSuccess() returns (actions: seq<Action>)
    ensures Leaves(actions, Work(1, SaveAct), R.Success, R.Failed)
    ensures Run(actions).tasks[1].phase == Saving(GiveUp)
  {
    hide Run, Prompt, NeverStale;
    actions := EnteredStale(3, true);
    actions := Did(actions, Work(1, RaiseAct));
    actions := Did(actions, Work(1, HandleAct));
  }

  lemma GivenUpOverCreated() returns (actions: seq<Action>)
    ensures Leaves(actions, Work(3, SaveAct), R.Created, R.Failed)
  {
    hide Run, Prompt, NeverStale;
    actions := GivingUp();
  }

  /** Of two tasks inside, the first is declined and has not saved that yet. */
  lemma DeclinedFirst() returns (actions: seq<Action>)
    ensures
      var s := Run(actions);
      && |s.payments| == 1 && |s.refunds| == 1 && s.refunds[0].payment == 0 && s.payments[0].gateway == P.Dummy
      && |s.tasks| == 2 && TaskAt(s, 0, Saving(Decline)) && TaskAt(s, 1, Calling) && s.tasks[0].refund == s.tasks[1].refund == 0
  {
    hide Run, Prompt, NeverStale;
    actions := LateReleaseAdmitsTwo();
    actions := Updated(actions, 1);
    actions := Updated(actions, 0);
    actions := Called(actions, 0, false);
  }

  /** The second one's refund commits before the first one's decline is saved over it. */
  lemma DeclinedOverSuccess() returns (actions: seq<Action>)
    ensures Leaves(actions, Work(0, SaveAct), R.Success, R.Failed)
    ensures Run(actions).tasks[0].phase == Saving(Decline)
  {
    hide Run, Prompt, NeverStale;
    actions := DeclinedFirst();
    actions := AnswerRecorded(actions, 1, true);
  }

  lemma CommittedOverFailed() returns (actions: seq<Action>)
    ensures Leaves(actions, Work(1, CommitAct), R.Failed, R.Success)
  {
    hide Run, Prompt, NeverStale;
    var r0: R.Refund;
    actions, r0 := PaidThenDeclined();
  }
}
