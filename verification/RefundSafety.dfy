/**
What holds of refunds, their tasks and their payments in every disciplined run, with any number of
workers, retries, redeliveries, reconciliations, rollbacks and crashes.
 */
module RefundSafety {
  import opened Prelude
  import opened TtlCache
  import opened Engine
  import opened Shape
  import P = Payments
  import R = Refunds

  // ----- the invariant, table by table

  /** A refund row: its failure code and its dead letters agree with its status. */
  predicate RowOk(r: R.Refund) {
    && (r.status == R.Failed <==> r.failureCode != R.NoFailure)
    && (r.deadLetters != [] ==> r.failureCode == R.MaxRetriesExceeded && r.deadLetters == [MAX_RETRIES])
  }

  predicate RowsOk(refunds: seq<R.Refund>) {
    forall r :: 0 <= r < |refunds| ==> RowOk(refunds[r])
  }

  /** The give-up row is saved and its dead letter is not. */
  predicate AtDeadLetter(task: Task) {
    || task.phase == Logging(GiveUp)
    || task.phase == Notifying(GiveUp)
    || task.phase == Filing
    || task.phase == Unfiled
  }

  /** What a live task may rely on at each phase. */
  predicate PhaseAgrees(task: Task, r: R.Refund) {
    match task.phase
    case Loaded => task.code == R.NoFailure
    case Saving(site) =>
      (match site
       case Begin => task.code == R.NoFailure && !R.Terminal(r.status)
       case Decline => task.code == R.GatewayRefundFailed && r.status == R.Processing
       case GiveUp =>
         task.code == R.MaxRetriesExceeded && task.retries == MAX_RETRIES && r.status != R.Success && r.failureCode != R.MaxRetriesExceeded)
    case Logging(site) => AfterSave(site, task, r)
    case Notifying(site) => AfterSave(site, task, r)
    case Calling => task.code == R.NoFailure && r.status == R.Processing
    case Paid => task.code == R.NoFailure && r.status == R.Processing
    case Raised => r.status != R.Success && r.failureCode != R.MaxRetriesExceeded
    case _ => true
  }

  predicate AfterSave(site: Site, task: Task, r: R.Refund) {
    match site
    case Begin => task.code == R.NoFailure && r.status == R.Processing
    case Decline => task.code == R.GatewayRefundFailed && r.failureCode == R.GatewayRefundFailed
    case GiveUp => true
  }

  predicate TaskAgrees(task: Task, r: R.Refund) {
    && (task.alive ==> PhaseAgrees(task, r))
    && (AtDeadLetter(task) ==>
          r.failureCode == R.MaxRetriesExceeded && r.deadLetters == [] && task.retries == MAX_RETRIES)
  }

  predicate TasksAgree(tasks: seq<Task>, refunds: seq<R.Refund>) {
    forall t :: 0 <= t < |tasks| && tasks[t].refund < |refunds| ==> TaskAgrees(tasks[t], refunds[tasks[t].refund])
  }

  ghost predicate OneDeadLetterTask(tasks: seq<Task>) {
    forall t, u :: 0 <= t < u < |tasks| && AtDeadLetter(tasks[t]) && AtDeadLetter(tasks[u]) ==> tasks[t].refund != tasks[u].refund
  }

  /** Some worker wrote FAILED for this refund and has not written its dead letter, or never will. */
  ghost predicate DeadLetterOwed(tasks: seq<Task>, refund: nat) {
    exists t :: 0 <= t < |tasks| && tasks[t].refund == refund && AtDeadLetter(tasks[t])
  }

  ghost predicate DeadLettersKept(tasks: seq<Task>, refunds: seq<R.Refund>) {
    forall r :: 0 <= r < |refunds| && refunds[r].failureCode == R.MaxRetriesExceeded && refunds[r].deadLetters == [] ==>
      DeadLetterOwed(tasks, r)
  }

  /** A task in its critical section owns the lock entry of its payment. */
  predicate OwnsLock(task: Task, refunds: seq<R.Refund>, locks: Cache<nat, LockMark>) {
    && task.refund < |refunds|
    && refunds[task.refund].payment in locks
    && locks[refunds[task.refund].payment].expiry == task.lockedAt + LOCK_TTL
  }

  predicate LocksOwned(tasks: seq<Task>, refunds: seq<R.Refund>, locks: Cache<nat, LockMark>) {
    forall t :: 0 <= t < |tasks| && InCritical(tasks[t]) ==> OwnsLock(tasks[t], refunds, locks)
  }

  predicate Exclusive(tasks: seq<Task>, refunds: seq<R.Refund>) {
    forall t, u ::
      && 0 <= t < u < |tasks|
      && InCritical(tasks[t]) && InCritical(tasks[u])
      && tasks[t].refund < |refunds| && tasks[u].refund < |refunds|
      ==> refunds[tasks[t].refund].payment != refunds[tasks[u].refund].payment
  }

  /** A payment's status and amount against the totals of its refunds. */
  predicate Balanced(p: P.Payment, reserved: int, returned: int) {
    && 0 <= returned <= reserved <= p.amount
    && (returned > 0 <==> p.status in {P.PartiallyRefunded, P.FullyRefunded})
    && (p.status == P.PartiallyRefunded ==> 0 < returned < p.amount)
    && (returned == p.amount ==> p.status == P.FullyRefunded)
  }

  predicate PaymentsBalanced(payments: seq<P.Payment>, refunds: seq<R.Refund>) {
    forall p :: 0 <= p < |payments| ==> Balanced(payments[p], R.Reserved(refunds, p), R.Returned(refunds, p))
  }

  ghost predicate TaskInvariant(tasks: seq<Task>, refunds: seq<R.Refund>, locks: Cache<nat, LockMark>) {
    && RowsOk(refunds)
    && TasksAgree(tasks, refunds)
    && OneDeadLetterTask(tasks)
    && DeadLettersKept(tasks, refunds)
    && LocksOwned(tasks, refunds, locks)
    && Exclusive(tasks, refunds)
  }

  ghost predicate Safe(s: State) {
    && TaskInvariant(s.tasks, s.refunds, s.locks)
    && PaymentsBalanced(s.payments, s.refunds)
  }

  ghost predicate Invariant(s: State) {
    WellShaped(s) && Safe(s)
  }

  // ----- balances under one-row changes

  /** A refund row that stays in, or leaves, the reserving statuses without becoming or ceasing to be SUCCESS. */
  lemma RowKeepsBalances(payments: seq<P.Payment>, refunds: seq<R.Refund>, i: nat, row: R.Refund)
    requires PaymentsBalanced(payments, refunds) && i < |refunds|
    requires forall r :: 0 <= r < |refunds| ==> refunds[r].amount > 0
    requires row.payment == refunds[i].payment && row.amount == refunds[i].amount
    requires row.status in R.RESERVING ==> refunds[i].status in R.RESERVING
    requires row.status == R.Success <==> refunds[i].status == R.Success
    ensures PaymentsBalanced(payments, refunds[i := row])
  {
    forall p | 0 <= p < |payments|
      ensures Balanced(payments[p], R.Reserved(refunds[i := row], p), R.Returned(refunds[i := row], p))
    {
      R.TotalUpdate(refunds, i, row, p, R.RESERVING);
      R.TotalUpdate(refunds, i, row, p, {R.Success});
      R.ReservedSplits(refunds[i := row], p);
      R.TotalZero(refunds[i := row], p, {R.Created, R.Processing});
    }
  }

  /** A PROCESSING refund turns SUCCESS and its payment takes the status the task computes. */
  lemma SuccessKeepsBalances(payments: seq<P.Payment>, refunds: seq<R.Refund>, i: nat, row: R.Refund, status: P.PaymentStatus)
    requires PaymentsBalanced(payments, refunds) && i < |refunds| && refunds[i].payment < |payments|
    requires forall r :: 0 <= r < |refunds| ==> refunds[r].amount > 0
    requires row.payment == refunds[i].payment && row.amount == refunds[i].amount
    requires refunds[i].status == R.Processing && row.status == R.Success
    requires status == if R.Reserved(refunds[i := row], row.payment) >= payments[row.payment].amount then P.FullyRefunded else P.PartiallyRefunded
    ensures PaymentsBalanced(payments[row.payment := payments[row.payment].(status := status)], refunds[i := row])
  {
    var refunds' := refunds[i := row];
    var payments' := payments[row.payment := payments[row.payment].(status := status)];
    forall p | 0 <= p < |payments'| ensures Balanced(payments'[p], R.Reserved(refunds', p), R.Returned(refunds', p)) {
      R.TotalUpdate(refunds, i, row, p, R.RESERVING);
      R.TotalUpdate(refunds, i, row, p, {R.Success});
      R.ReservedSplits(refunds', p);
      R.TotalZero(refunds', p, {R.Created, R.Processing});
      assert Balanced(payments[p], R.Reserved(refunds, p), R.Returned(refunds, p));
    }
  }

  lemma NewRefundKeepsBalances(payments: seq<P.Payment>, refunds: seq<R.Refund>, row: R.Refund)
    requires PaymentsBalanced(payments, refunds) && row.payment < |payments| && row.status == R.Created
    requires 0 < row.amount <= payments[row.payment].amount - R.Reserved(refunds, row.payment)
    ensures PaymentsBalanced(payments, refunds + [row])
  {
    forall p | 0 <= p < |payments| ensures Balanced(payments[p], R.Reserved(refunds + [row], p), R.Returned(refunds + [row], p)) {
      R.TotalAppend(refunds, row, p, R.RESERVING);
      R.TotalAppend(refunds, row, p, {R.Success});
    }
  }

  lemma NoRefundsYet(refunds: seq<R.Refund>, payments: seq<P.Payment>)
    requires RefundsLinked(refunds, payments)
    ensures R.Reserved(refunds, |payments|) == R.Returned(refunds, |payments|) == 0
  {
    R.TotalZero(refunds, |payments|, R.RESERVING);
    R.TotalZero(refunds, |payments|, {R.Success});
  }

  // ----- the task invariant under changes of one task

  lemma OwedStays(tasks: seq<Task>, tasks': seq<Task>, refund: nat)
    requires |tasks| <= |tasks'| && DeadLetterOwed(tasks, refund)
    requires forall u :: 0 <= u < |tasks| && AtDeadLetter(tasks[u]) && tasks[u].refund == refund ==>
      tasks'[u].refund == refund && AtDeadLetter(tasks'[u])
    ensures DeadLetterOwed(tasks', refund)
  {
    var u :| 0 <= u < |tasks| && tasks[u].refund == refund && AtDeadLetter(tasks[u]);
    assert tasks'[u].refund == refund && AtDeadLetter(tasks'[u]);
  }

  lemma OutsideTask(tasks: seq<Task>, refunds: seq<R.Refund>, locks: Cache<nat, LockMark>, t: nat, task: Task)
    requires TaskInvariant(tasks, refunds, locks)
    requires t < |tasks| && task.refund == tasks[t].refund < |refunds|
    requires !InCritical(task) && AtDeadLetter(task) == AtDeadLetter(tasks[t]) && TaskAgrees(task, refunds[task.refund])
    ensures TaskInvariant(tasks[t := task], refunds, locks)
  {
    var tasks' := tasks[t := task];
    forall r | 0 <= r < |refunds| && refunds[r].failureCode == R.MaxRetriesExceeded && refunds[r].deadLetters == []
      ensures DeadLetterOwed(tasks', r)
    {
      OwedStays(tasks, tasks', r);
    }
  }

  lemma QueuedTasks(tasks: seq<Task>, refunds: seq<R.Refund>, locks: Cache<nat, LockMark>, more: seq<Task>)
    requires TaskInvariant(tasks, refunds, locks)
    requires forall k :: 0 <= k < |more| ==> more[k].phase == Queued
    ensures TaskInvariant(tasks + more, refunds, locks)
  {
    var tasks' := tasks + more;
    forall r | 0 <= r < |refunds| && refunds[r].failureCode == R.MaxRetriesExceeded && refunds[r].deadLetters == []
      ensures DeadLetterOwed(tasks', r)
    {
      OwedStays(tasks, tasks', r);
    }
  }

  /** A new refund row, still without tasks. */
  lemma NewRow(tasks: seq<Task>, refunds: seq<R.Refund>, locks: Cache<nat, LockMark>, row: R.Refund)
    requires TaskInvariant(tasks, refunds, locks) && TasksLinked(tasks, |refunds|)
    requires RowOk(row) && row.failureCode == R.NoFailure
    ensures TaskInvariant(tasks, refunds + [row], locks)
  {
  }

  /** What a task inside its critical section may do to itself and to its refund's row. */
  predicate InsideChange(tasks: seq<Task>, refunds: seq<R.Refund>, t: nat, task: Task, row: R.Refund) {
    && t < |tasks| && task.refund == tasks[t].refund < |refunds| && row.payment == refunds[task.refund].payment
    && InCritical(tasks[t]) && InCritical(task) && task.lockedAt == tasks[t].lockedAt
    && (row == refunds[task.refund] || refunds[task.refund].failureCode != R.MaxRetriesExceeded || AtDeadLetter(tasks[t]))
    && (AtDeadLetter(task) ==> tasks[t].phase == Saving(GiveUp) || AtDeadLetter(tasks[t]))
    && (row.failureCode == R.MaxRetriesExceeded && row.deadLetters == [] ==>
          AtDeadLetter(task) || (row == refunds[task.refund] && !AtDeadLetter(tasks[t])))
  }

  lemma InsideAgrees(tasks: seq<Task>, refunds: seq<R.Refund>, locks: Cache<nat, LockMark>, t: nat, task: Task, row: R.Refund)
    requires TaskInvariant(tasks, refunds, locks) && InsideChange(tasks, refunds, t, task, row) && TaskAgrees(task, row)
    ensures TasksAgree(tasks[t := task], refunds[task.refund := row])
  {
    var tasks', refunds' := tasks[t := task], refunds[task.refund := row];
    forall u | 0 <= u < |tasks'| && tasks'[u].refund < |refunds'| ensures TaskAgrees(tasks'[u], refunds'[tasks'[u].refund]) {
      if u != t {
        assert TaskAgrees(tasks[u], refunds[tasks[u].refund]);
      }
    }
  }

  lemma InsideLetters(tasks: seq<Task>, refunds: seq<R.Refund>, locks: Cache<nat, LockMark>, t: nat, task: Task, row: R.Refund)
    requires TaskInvariant(tasks, refunds, locks) && InsideChange(tasks, refunds, t, task, row) && TaskAgrees(task, row)
    ensures OneDeadLetterTask(tasks[t := task]) && DeadLettersKept(tasks[t := task], refunds[task.refund := row])
  {
    var tasks', refunds' := tasks[t := task], refunds[task.refund := row];
    forall r | 0 <= r < |refunds'| && refunds'[r].failureCode == R.MaxRetriesExceeded && refunds'[r].deadLetters == []
      ensures DeadLetterOwed(tasks', r)
    {
      if r == task.refund && AtDeadLetter(task) {
        assert tasks'[t].refund == r;
      } else {
        OwedStays(tasks, tasks', r);
      }
    }
  }

  lemma InsideLocks(tasks: seq<Task>, refunds: seq<R.Refund>, locks: Cache<nat, LockMark>, t: nat, task: Task, row: R.Refund)
    requires TaskInvariant(tasks, refunds, locks) && InsideChange(tasks, refunds, t, task, row)
    ensures LocksOwned(tasks[t := task], refunds[task.refund := row], locks)
    ensures Exclusive(tasks[t := task], refunds[task.refund := row])
  {
  }

  /** Inside the critical section a task may change its own phase and its refund's row. */
  lemma InsideTask(tasks: seq<Task>, refunds: seq<R.Refund>, locks: Cache<nat, LockMark>, t: nat, task: Task, row: R.Refund)
    requires TaskInvariant(tasks, refunds, locks) && InsideChange(tasks, refunds, t, task, row)
    requires RowOk(row) && TaskAgrees(task, row)
    ensures TaskInvariant(tasks[t := task], refunds[task.refund := row], locks)
  {
    InsideAgrees(tasks, refunds, locks, t, task, row);
    InsideLetters(tasks, refunds, locks, t, task, row);
    InsideLocks(tasks, refunds, locks, t, task, row);
  }

  /** Nobody is inside a payment's critical section when its lock is free and every section is timely. */
  lemma FreeLockMeansNobodyInside(s: State, payment: nat)
    requires LocksOwned(s.tasks, s.refunds, s.locks) && Timely(s) && !Live(s.locks, payment, s.now)
    ensures forall t :: 0 <= t < |s.tasks| && InCritical(s.tasks[t]) && s.tasks[t].refund < |s.refunds|
              ==> s.refunds[s.tasks[t].refund].payment != payment
  {
    forall t | 0 <= t < |s.tasks| && InCritical(s.tasks[t]) && s.tasks[t].refund < |s.refunds|
      ensures s.refunds[s.tasks[t].refund].payment != payment
    {
      assert OwnsLock(s.tasks[t], s.refunds, s.locks);
    }
  }

  /** Taking the lock: nobody else is inside the payment. */
  lemma EnteringTask(tasks: seq<Task>, refunds: seq<R.Refund>, locks: Cache<nat, LockMark>, t: nat, task: Task, now: int)
    requires TaskInvariant(tasks, refunds, locks)
    requires t < |tasks| && task.refund == tasks[t].refund < |refunds|
    requires forall u :: 0 <= u < |tasks| && InCritical(tasks[u]) && tasks[u].refund < |refunds| ==>
      refunds[tasks[u].refund].payment != refunds[task.refund].payment
    requires task.lockedAt == now && !AtDeadLetter(tasks[t]) && !AtDeadLetter(task) && TaskAgrees(task, refunds[task.refund])
    ensures TaskInvariant(tasks[t := task], refunds, Set(locks, refunds[task.refund].payment, LockMark, LOCK_TTL, now))
  {
    var tasks' := tasks[t := task];
    forall r | 0 <= r < |refunds| && refunds[r].failureCode == R.MaxRetriesExceeded && refunds[r].deadLetters == []
      ensures DeadLetterOwed(tasks', r)
    {
      OwedStays(tasks, tasks', r);
    }
  }

  /** The unconditional delete in `finally` takes away nobody else's lock. */
  lemma LeavingTask(tasks: seq<Task>, refunds: seq<R.Refund>, locks: Cache<nat, LockMark>, t: nat, task: Task)
    requires TaskInvariant(tasks, refunds, locks)
    requires t < |tasks| && task.refund == tasks[t].refund < |refunds|
    requires InCritical(tasks[t]) && !task.alive && AtDeadLetter(task) == AtDeadLetter(tasks[t]) && task.retries == tasks[t].retries
    ensures TaskInvariant(tasks[t := task], refunds, Delete(locks, refunds[task.refund].payment))
  {
    OutsideTask(tasks, refunds, locks, t, task);
    var tasks' := tasks[t := task];
    forall u | 0 <= u < |tasks'| && InCritical(tasks'[u])
      ensures OwnsLock(tasks'[u], refunds, Delete(locks, refunds[task.refund].payment))
    {
      assert OwnsLock(tasks[u], refunds, locks);
    }
  }

  // ----- the actions

  /** The payments' side of the invariant under a payment action: no refund row changes. */
  lemma PaymentRowBalanced(payments: seq<P.Payment>, refunds: seq<R.Refund>, p: nat, status: P.PaymentStatus, action: P.PaymentAction)
    requires PaymentsBalanced(payments, refunds) && p < |payments|
    requires payments[p].status !in {P.PartiallyRefunded, P.FullyRefunded}
    requires status !in {P.PartiallyRefunded, P.FullyRefunded}
    requires R.Returned(refunds, p) < payments[p].amount
    ensures PaymentsBalanced(payments[p := P.WithStatus(payments[p], status, action)], refunds)
  {
    assert Balanced(payments[p], R.Reserved(refunds, p), R.Returned(refunds, p));
  }

  lemma PaymentMoveBalanced(s: State, merchant: nat, payment: nat, target: P.PaymentStatus, action: P.PaymentAction)
    requires PaymentsBalanced(s.payments, s.refunds) && OrdersPositive(s.orders) && PaymentsLinked(s.payments, s.orders, |s.wallets|)
    requires OwnsPayment(s, merchant, payment) && P.Validates(s.payments[payment].status, target)
    requires target == P.Captured || target == P.Voided
    ensures PaymentsBalanced(SetPayment(s, payment, target, action).payments, s.refunds)
  {
    assert Balanced(s.payments[payment], R.Reserved(s.refunds, payment), R.Returned(s.refunds, payment));
    assert PaymentLinked(s.payments[payment], s.orders, |s.wallets|);
    PaymentRowBalanced(s.payments, s.refunds, payment, target, action);
  }

  lemma NewPaymentBalanced(s: State, merchant: nat, order: nat, amount: int, gateway: P.Gateway, wallet: Option<nat>)
    requires PaymentsBalanced(s.payments, s.refunds) && OrdersPositive(s.orders) && RefundsLinked(s.refunds, s.payments)
    ensures PaymentsBalanced(OrSame(s, CreatePayment(s, merchant, order, amount, gateway, wallet)).payments, s.refunds)
  {
    NoRefundsYet(s.refunds, s.payments);
  }

  lemma PaymentStepKeeps(s: State, a: PaymentAction)
    requires PaymentsBalanced(s.payments, s.refunds) && WellShaped(s)
    ensures PaymentsBalanced(PaymentStep(s, a).payments, s.refunds)
  {
    match a
    case CreatePaymentAct(merchant, order, amount, gateway, wallet) =>
      NewPaymentBalanced(s, merchant, order, amount, gateway, wallet);
    case InterruptedAct(_, _, _, _) =>
    case CaptureAct(merchant, payment, _) =>
      if OwnsPayment(s, merchant, payment) && P.Validates(s.payments[payment].status, P.Captured) {
        PaymentMoveBalanced(s, merchant, payment, P.Captured, P.PaymentCaptured);
      }
    case VoidAct(merchant, payment) =>
      if OwnsPayment(s, merchant, payment) && P.Validates(s.payments[payment].status, P.Voided) {
        PaymentMoveBalanced(s, merchant, payment, P.Voided, P.PaymentVoided);
      }
  }

  lemma NewRefundKeeps(s: State, row: R.Refund)
    requires Invariant(s) && RowOk(row) && row.status == R.Created && row.payment < |s.payments|
    requires 0 < row.amount <= s.payments[row.payment].amount - R.Reserved(s.refunds, row.payment)
    ensures TaskInvariant(s.tasks, s.refunds + [row], s.locks)
    ensures TaskInvariant(s.tasks + [NewTask(|s.refunds|, 0)], s.refunds + [row], s.locks)
    ensures PaymentsBalanced(s.payments, s.refunds + [row])
  {
    NewRow(s.tasks, s.refunds, s.locks, row);
    QueuedTasks(s.tasks, s.refunds + [row], s.locks, [NewTask(|s.refunds|, 0)]);
    NewRefundKeepsBalances(s.payments, s.refunds, row);
  }

  lemma RefundStepKeeps(s: State, a: RefundAction)
    requires Invariant(s)
    ensures Safe(RefundStep(s, a))
  {
    match a
    case CreateRefundAct(merchant, payment, amount) =>
      if CheckNewRefund(s, merchant, payment, amount).None? {
        NewRefundKeeps(s, R.NewRefund(payment, merchant, amount));
      }
    case UnsentRefundAct(merchant, payment, amount, written) =>
      if CheckNewRefund(s, merchant, payment, amount).None? {
        NewRefundKeeps(s, R.NewRefundPart(payment, merchant, amount, written));
      }
    case ReconcileAct =>
      StuckTasks(s.refunds);
      QueuedTasks(s.tasks, s.refunds, s.locks, Stuck(s.refunds));
    case RedeliverAct(refund, retries) =>
      QueuedTasks(s.tasks, s.refunds, s.locks, [NewTask(refund, retries)]);
  }

  // ----- the task's own steps

  /** self.retry on the queue. */
  function Requeued(tasks: seq<Task>, task: Task): seq<Task> {
    if task.retries < MAX_RETRIES then tasks + [NewTask(task.refund, task.retries + 1)] else tasks
  }

  lemma RequeueKeeps(tasks: seq<Task>, refunds: seq<R.Refund>, locks: Cache<nat, LockMark>, task: Task)
    requires TaskInvariant(tasks, refunds, locks)
    ensures TaskInvariant(Requeued(tasks, task), refunds, locks)
  {
    QueuedTasks(tasks, refunds, locks, [NewTask(task.refund, task.retries + 1)]);
  }

  lemma StartKeeps(s: State, t: nat)
    requires Invariant(s)
    ensures Safe(Start(s, t))
  {
    if t < |s.tasks| && s.tasks[t].alive && s.tasks[t].phase == Queued {
      assert RowOk(s.refunds[s.tasks[t].refund]);
      OutsideTask(s.tasks, s.refunds, s.locks, t, Start(s, t).tasks[t]);
    }
  }

  lemma LockKeeps(s: State, t: nat)
    requires Invariant(s) && Timely(s) && !StaleEntry(s, Work(t, LockAct))
    ensures Safe(Lock(s, t))
  {
    if TaskAt(s, t, Loaded) {
      var task := s.tasks[t];
      assert TaskAgrees(task, s.refunds[task.refund]);
      if Live(s.locks, PaymentOf(s, t), s.now) {
        OutsideTask(s.tasks, s.refunds, s.locks, t, End(task));
        RequeueKeeps(s.tasks[t := End(task)], s.refunds, s.locks, task);
      } else {
        FreeLockMeansNobodyInside(s, PaymentOf(s, t));
        EnteringTask(s.tasks, s.refunds, s.locks, t, task.(phase := Saving(Begin), lockedAt := s.now), s.now);
      }
    }
  }

  lemma CrashKeeps(s: State, t: nat)
    requires Invariant(s)
    ensures Safe(Crash(s, t))
  {
    if t < |s.tasks| && s.tasks[t].alive {
      assert TaskAgrees(s.tasks[t], s.refunds[s.tasks[t].refund]);
      OutsideTask(s.tasks, s.refunds, s.locks, t, s.tasks[t].(alive := false));
    }
  }

  lemma ReleaseKeeps(s: State, t: nat)
    requires Invariant(s)
    ensures Safe(Release(s, t))
  {
    if TaskAt(s, t, Leaving) || TaskAt(s, t, Unfiled) {
      assert TaskAgrees(s.tasks[t], s.refunds[s.tasks[t].refund]);
      LeavingTask(s.tasks, s.refunds, s.locks, t, Release(s, t).tasks[t]);
    }
  }

  /** A step inside the critical section that leaves the row alone. */
  lemma PhaseKeeps(s: State, t: nat, task: Task)
    requires TaskInvariant(s.tasks, s.refunds, s.locks)
    requires t < |s.tasks| && task.refund == s.tasks[t].refund < |s.refunds|
    requires InCritical(s.tasks[t]) && InCritical(task) && task.lockedAt == s.tasks[t].lockedAt
    requires TaskAgrees(task, s.refunds[task.refund]) && AtDeadLetter(task) == AtDeadLetter(s.tasks[t])
    ensures TaskInvariant(s.tasks[t := task], s.refunds, s.locks)
  {
    assert RowOk(s.refunds[task.refund]);
    InsideTask(s.tasks, s.refunds, s.locks, t, task, s.refunds[task.refund]);
    assert s.refunds[task.refund := s.refunds[task.refund]] == s.refunds;
  }

  lemma RaiseKeeps(s: State, t: nat)
    requires Invariant(s)
    ensures Safe(Raise(s, t))
  {
    if TaskIn(s, t) && Raise(s, t) != s {
      assert TaskAgrees(s.tasks[t], s.refunds[s.tasks[t].refund]);
      PhaseKeeps(s, t, Raise(s, t).tasks[t]);
    }
  }

  lemma HandleKeeps(s: State, t: nat)
    requires Invariant(s)
    ensures Safe(Handle(s, t))
  {
    if TaskAt(s, t, Raised) {
      var task := s.tasks[t];
      assert TaskAgrees(task, s.refunds[task.refund]);
      if task.retries >= MAX_RETRIES {
        PhaseKeeps(s, t, task.(phase := Saving(GiveUp), code := R.MaxRetriesExceeded));
      } else {
        PhaseKeeps(s, t, task.(phase := Leaving));
        RequeueKeeps(s.tasks[t := task.(phase := Leaving)], s.refunds, s.locks, task);
      }
    }
  }

  /** A step inside the critical section that writes the row and leaves SUCCESS and the reservation to others. */
  lemma RowWritten(s: State, t: nat, task: Task, row: R.Refund)
    requires Invariant(s) && InsideChange(s.tasks, s.refunds, t, task, row) && RowOk(row) && TaskAgrees(task, row)
    requires row.amount == s.refunds[task.refund].amount
    requires row.status in R.RESERVING ==> s.refunds[task.refund].status in R.RESERVING
    requires row.status == R.Success <==> s.refunds[task.refund].status == R.Success
    ensures TaskInvariant(s.tasks[t := task], s.refunds[task.refund := row], s.locks)
    ensures PaymentsBalanced(s.payments, s.refunds[task.refund := row])
  {
    InsideTask(s.tasks, s.refunds, s.locks, t, task, row);
    RowKeepsBalances(s.payments, s.refunds, task.refund, row);
  }

  lemma SaveKeeps(s: State, t: nat)
    requires Invariant(s)
    ensures Safe(SaveStatus(s, t))
  {
    if AtSaving(s, t) {
      var task := s.tasks[t];
      assert TaskAgrees(task, s.refunds[task.refund]) && RowOk(s.refunds[task.refund]);
      RowWritten(s, t, SaveStatus(s, t).tasks[t], SaveStatus(s, t).refunds[task.refund]);
    }
  }

  lemma LogKeeps(s: State, t: nat)
    requires Invariant(s)
    ensures Safe(LogStatus(s, t))
  {
    if AtLogging(s, t) {
      var task := s.tasks[t];
      assert TaskAgrees(task, s.refunds[task.refund]) && RowOk(s.refunds[task.refund]);
      RowWritten(s, t, LogStatus(s, t).tasks[t], LogStatus(s, t).refunds[task.refund]);
    }
  }

  lemma NotifyKeeps(s: State, t: nat)
    requires Invariant(s)
    ensures Safe(NotifyStatus(s, t))
  {
    if AtNotifying(s, t) {
      var task := s.tasks[t];
      assert TaskAgrees(task, s.refunds[task.refund]) && RowOk(s.refunds[task.refund]);
      RowWritten(s, t, NotifyStatus(s, t).tasks[t], NotifyStatus(s, t).refunds[task.refund]);
    }
  }

  lemma CallKeeps(s: State, t: nat, refunded: bool)
    requires Invariant(s)
    ensures Safe(Call(s, t, refunded))
  {
    if TaskAt(s, t, Calling) {
      var task := s.tasks[t];
      assert TaskAgrees(task, s.refunds[task.refund]) && RowOk(s.refunds[task.refund]);
      if refunded {
        RowWritten(s, t, Call(s, t, refunded).tasks[t], Call(s, t, refunded).refunds[task.refund]);
      } else {
        PhaseKeeps(s, t, Call(s, t, refunded).tasks[t]);
      }
    }
  }

  lemma DeadLetterKeeps(s: State, t: nat)
    requires Invariant(s)
    ensures Safe(WriteDeadLetter(s, t))
  {
    if TaskAt(s, t, Filing) {
      var task := s.tasks[t];
      assert TaskAgrees(task, s.refunds[task.refund]) && RowOk(s.refunds[task.refund]);
      RowWritten(s, t, task.(phase := Leaving), WriteDeadLetter(s, t).refunds[task.refund]);
    }
  }

  /** What a committed success block changes, in terms of the tables. */
  lemma CommitTables(s: State, t: nat)
    requires TaskAt(s, t, Paid) && CommitSuccess(s, t).Some?
    ensures
      var s' := CommitSuccess(s, t).value;
      var task := s.tasks[t];
      var r := s.refunds[task.refund];
      && s'.tasks == s.tasks && s'.locks == s.locks && s'.orders == s.orders && s'.now == s.now
      && s'.refunds == s.refunds[task.refund := R.WriteRow(r, R.Success, task.code, true)]
      && s'.payments == s.payments[r.payment := s.payments[r.payment].(status :=
           if R.Reserved(s'.refunds, r.payment) >= s.payments[r.payment].amount then P.FullyRefunded else P.PartiallyRefunded)]
  {
  }

  lemma CommitKeeps(s: State, t: nat)
    requires Invariant(s)
    ensures Safe(Commit(s, t))
  {
    if TaskAt(s, t, Paid) {
      var task := s.tasks[t];
      var r := s.refunds[task.refund];
      assert TaskAgrees(task, r) && RowOk(r);
      if CommitSuccess(s, t).Some? {
        CommitTables(s, t);
        var row := R.WriteRow(r, R.Success, task.code, true);
        InsideTask(s.tasks, s.refunds, s.locks, t, task.(phase := Leaving), row);
        SuccessKeepsBalances(s.payments, s.refunds, task.refund, row, Commit(s, t).payments[r.payment].status);
      } else {
        PhaseKeeps(s, t, RollBack(s, t).tasks[t]);
      }
    }
  }

  lemma WorkerStepKeeps(s: State, t: nat, a: WorkerAction)
    requires Invariant(s) && Timely(s) && !StaleEntry(s, Work(t, a))
    ensures Safe(WorkerStep(s, t, a))
  {
    match a
    case StartAct => StartKeeps(s, t);
    case LockAct => LockKeeps(s, t);
    case SaveAct => SaveKeeps(s, t);
    case LogAct => LogKeeps(s, t);
    case NotifyAct => NotifyKeeps(s, t);
    case CallAct(refunded) => CallKeeps(s, t, refunded);
    case CommitAct => CommitKeeps(s, t);
    case HandleAct => HandleKeeps(s, t);
    case DeadLetterAct => DeadLetterKeeps(s, t);
    case RaiseAct => RaiseKeeps(s, t);
    case ReleaseAct => ReleaseKeeps(s, t);
    case CrashAct => CrashKeeps(s, t);
  }

  lemma StepKeepsInvariant(s: State, a: Action)
    requires Invariant(s) && Timely(s) && !StaleEntry(s, a)
    ensures Invariant(Step(s, a))
  {
    StepKeepsShape(s, a);
    match a
    case OnOrder(act) => OrderStepFrame(s, act);
    case OnPayment(act) => PaymentStepFrame(s, act); PaymentStepKeeps(s, act);
    case OnRefund(act) => RefundStepKeeps(s, act);
    case Work(t, act) => WorkerStepKeeps(s, t, act);
    case OnWallet(act) => WalletStepFrame(s, act);
    case Tick(_) =>
  }

  lemma {:induction false} RunKeepsInvariant(actions: seq<Action>)
    requires Disciplined(actions)
    ensures Invariant(Run(actions)) && Timely(Run(actions))
  {
    if actions != [] {
      var prefix := actions[..|actions| - 1];
      RunKeepsInvariant(prefix);
      StepKeepsInvariant(Run(prefix), actions[|actions| - 1]);
    }
  }
}
