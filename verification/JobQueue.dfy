/** The job queue over whole runs: claims are exclusive, outcomes final, nothing is lost. */
module JobQueue {
  import opened Prelude
  import opened Tables
  import opened Protocol
  import opened Invariant
  import opened Induction
  import opened Credits
  import opened Admission

  ghost predicate Claims(x: Proc, j: JobId) {
    x.Worker? && !x.task.Idle? && x.task.job == j
  }

  lemma ClaimsOwn(x: Proc, j: JobId)
    requires Claims(x, j)
    ensures JobClaim(j) in Owned(x)
  {}

  /** No two processes, in claim transactions or after them, ever hold the same job, and a worker
      that holds a committed claim is the one the row names. */
  lemma ClaimsAreExclusive(r: Run, n: nat, p: Pid, q: Pid, j: JobId)
    requires IsRun(r) && n < |r.states| && p in r.states[n].procs && q in r.states[n].procs
    requires Claims(r.states[n].procs[p], j) && Claims(r.states[n].procs[q], j)
    ensures p == q
    ensures r.states[n].procs[p].task.Working? ==> HeldBy(r.states[n].db, j, r.states[n].procs[p].id)
    ensures r.states[n].procs[p].task.Claiming? ==> j in r.states[n].db.jobs && r.states[n].db.jobs[j].status == Queued
  {
    var s := r.states[n];
    RunInv(r, n);
    ClaimsOwn(s.procs[p], j);
    ClaimsOwn(s.procs[q], j);
    ExclusiveOwners(s, p, q, JobClaim(j));
    assert WorkerInv(s, s.procs[p]);
  }

  lemma ExclusiveOwners(s: State, p: Pid, q: Pid, t: Token)
    requires Exclusive(s) && p in s.procs && q in s.procs && t in Owned(s.procs[p]) && t in Owned(s.procs[q])
    ensures p == q
  {}

  /** A call in the name of any worker other than the one at work on the job, be it a worker that
      lost the job to a retry, changes nothing: it can neither acknowledge nor retry it. */
  lemma StaleCallRejected(r: Run, n: nat, p: Pid, j: JobId, w: WorkerId, o: Outcome)
    requires IsRun(r) && n < |r.states| && p in r.states[n].procs
    requires Claims(r.states[n].procs[p], j) && r.states[n].procs[p].id != w
    ensures SettleJob(r.states[n].db, j, w, o) == r.states[n].db
  {
    ClaimsAreExclusive(r, n, p, p, j);
  }

  /** While a worker works on a job, its own acknowledgement is accepted. */
  lemma HolderCallAccepted(r: Run, n: nat, p: Pid, o: Outcome)
    requires IsRun(r) && n < |r.states| && IsWorking(r.states[n], p)
    ensures
      var s, j, w := r.states[n], r.states[n].procs[p].task.job, r.states[n].procs[p].id;
      && j in s.db.jobs
      && var job := s.db.jobs[j];
         SettleJob(s.db, j, w, o) == s.db.(jobs := s.db.jobs[j :=
           if o.Acknowledged? then Job(job.submission, o.status, Some(w), job.attempts, job.availableAt, job.createdAt)
           else Job(job.submission, Queued, None, job.attempts, o.availableAt, job.createdAt)])
  {
    ClaimsAreExclusive(r, n, p, p, r.states[n].procs[p].task.job);
  }

  // ----- what one step does to one job

  // The only moves a job makes.
  predicate JobMove(x: Job, y: Job) {
    && y.submission == x.submission && y.createdAt == x.createdAt
    && (|| y == x
        || (x.status == Queued && y.status == Running && y.attempts == x.attempts + 1 && y.worker.Some?
           && y.availableAt == x.availableAt)
        || (x.status == Running && (y.status == Done || y.status == Error) && y == x.(status := y.status))
        || (x.status == Running && y.status == Queued
           && y == x.(status := Queued, worker := None, availableAt := y.availableAt)))
  }

  lemma ClaimMoves(s: State, p: Pid, s': State, j: JobId)
    requires Inv(s) && ClaimCommit(s, p, s') && j in s.db.jobs
    ensures j in s'.db.jobs && JobMove(s.db.jobs[j], s'.db.jobs[j])
    ensures s'.db.jobs[j].attempts == s.db.jobs[j].attempts + if s.procs[p].task.job == j then 1 else 0
  {
    assert WorkerInv(s, s.procs[p]);
  }

  lemma IntakeKeepsJobs(s: State, p: Pid, s': State, j: JobId)
    requires Inv(s) && IntakeCommit(s, p, s')
    ensures j in s.db.jobs ==> j in s'.db.jobs && s'.db.jobs[j] == s.db.jobs[j]
    ensures j in s'.db.jobs && j !in s.db.jobs ==> s'.db.jobs[j].status == Queued
  {
    hide Inv;
    ReadyIntake(s, p);
  }

  lemma ReevalKeepsJobs(s: State, p: Pid, s': State, j: JobId)
    requires Inv(s) && ReevalCommit(s, p, s')
    ensures j in s.db.jobs ==> j in s'.db.jobs && s'.db.jobs[j] == s.db.jobs[j]
    ensures j in s'.db.jobs && j !in s.db.jobs ==> s'.db.jobs[j].status == Queued
  {
    hide Inv;
    CopiesReady(s, p);
    MadeQueued(s.procs[p].made);
  }

  lemma {:induction false} MadeQueued(made: seq<Copy>)
    ensures forall y | y in MadeJobs(made) :: MadeJobs(made)[y].status == Queued
  {
    if made != [] {
      MadeQueued(made[..|made| - 1]);
    }
  }

  lemma OtherStepsMoveJobs(s: State, step: Step, s': State, j: JobId)
    requires Next(s, step, s') && j in s.db.jobs
    requires !step.StepIntakeCommit? && !step.StepReevalCommit? && !step.StepClaimCommit?
    ensures j in s'.db.jobs && JobMove(s.db.jobs[j], s'.db.jobs[j]) && s'.db.jobs[j].attempts == s.db.jobs[j].attempts
  {
    if IsLocal(step) {
      hide Next;
      LocalStepTables(s, step, s');
    } else {
      hide Owned, LockFree, PersistTables, ResetRows, Participants;
    }
  }

  lemma StepMovesJob(s: State, step: Step, s': State, j: JobId)
    requires Inv(s) && Next(s, step, s') && j in s.db.jobs
    ensures j in s'.db.jobs && JobMove(s.db.jobs[j], s'.db.jobs[j])
  {
    hide Inv, Next, IntakeCommit, ClaimCommit, ReevalCommit;
    CommitOf(s, step, s');
    match step
    case StepClaimCommit(p) => ClaimMoves(s, p, s', j);
    case StepIntakeCommit(p) => IntakeKeepsJobs(s, p, s', j);
    case StepReevalCommit(p) => ReevalKeepsJobs(s, p, s', j);
    case _ => OtherStepsMoveJobs(s, step, s', j);
  }

  /** No job is lost, and done and error are final. */
  lemma {:induction false} OutcomesAreFinal(r: Run, i: nat, n: nat, j: JobId)
    requires IsRun(r) && i <= n < |r.states| && j in r.states[i].db.jobs
    ensures j in r.states[n].db.jobs && r.states[n].db.jobs[j].submission == r.states[i].db.jobs[j].submission
    ensures r.states[i].db.jobs[j].attempts <= r.states[n].db.jobs[j].attempts
    ensures r.states[i].db.jobs[j].status == Done || r.states[i].db.jobs[j].status == Error ==>
              r.states[n].db.jobs[j] == r.states[i].db.jobs[j]
  {
    hide Inv, Next;
    if i < n {
      OutcomesAreFinal(r, i, n - 1, j);
      RunInv(r, n - 1);
      StepMovesJob(r.states[n - 1], r.steps[n - 1], r.states[n], j);
    }
  }

  // ----- when a job is due

  // The jobs that no other process has locked.
  ghost function Unlocked(s: State, p: Pid): map<JobId, Job> {
    map k | k in s.db.jobs && LockFree(s, p, JobLock(k)) :: s.db.jobs[k]
  }

  /** A claim selects, of the queued jobs that are due and that nobody has locked, the first by due time
      and then by creation. */
  lemma SelectsFirstDue(s: State, p: Pid, j: JobId, now: Time, s': State)
    requires ClaimSelect(s, p, j, now, s')
    ensures FirstDue(Unlocked(s, p), j, now)
  {
    hide LockFree;
    forall k | k in Unlocked(s, p) && s.db.jobs[k].status == Queued && s.db.jobs[k].availableAt <= now
      ensures ClaimsBefore(s.db.jobs[j], s.db.jobs[k])
    {
      assert Claimable(s.db, k, now);
    }
  }

  // The step queues the job again, due at that time.
  ghost predicate Requeues(s: State, step: Step, j: JobId, at: Time) {
    || (step.StepRetry? && IsWorking(s, step.p) && s.procs[step.p].task.job == j && step.at == at)
    || (step.StepQueueCall? && step.j == j && RunsUnder(s.db.jobs, j, step.w) && step.o == Retried(at))
  }

  lemma DueChanges(s: State, step: Step, s': State, j: JobId)
    requires Inv(s) && Next(s, step, s') && j in s.db.jobs
    ensures
      && j in s'.db.jobs
      && var due := s'.db.jobs[j].availableAt;
         due == s.db.jobs[j].availableAt || Requeues(s, step, j, due)
    ensures forall at | Requeues(s, step, j, at) :: j in s'.db.jobs && s'.db.jobs[j].availableAt == at
  {
    hide Inv, Next, IntakeCommit, ReevalCommit, QueueCall;
    CommitOf(s, step, s');
    StepParts(s, step, s');
    if step.StepIntakeCommit? {
      IntakeKeepsJobs(s, step.p, s', j);
    } else if step.StepReevalCommit? {
      ReevalKeepsJobs(s, step.p, s', j);
    } else if step.StepRetry? {
      RetrySetsDue(s, step.p, step.at, s', j);
    } else if step.StepQueueCall? {
      CallSetsDue(s, step.j, step.w, step.o, s', j);
    } else {
      OtherStepsKeepDue(s, step, s', j);
    }
  }

  lemma RetrySetsDue(s: State, p: Pid, at: Time, s': State, j: JobId)
    requires Retry(s, p, at, s') && j in s.db.jobs
    ensures
      && j in s'.db.jobs
      && s'.db.jobs[j].availableAt == if s.procs[p].task.job == j then at else s.db.jobs[j].availableAt
  {}

  lemma CallSetsDue(s: State, i: JobId, w: WorkerId, o: Outcome, s': State, j: JobId)
    requires QueueCall(s, i, w, o, s') && j in s.db.jobs
    ensures
      && j in s'.db.jobs
      && s'.db.jobs[j].availableAt ==
         if i == j && RunsUnder(s.db.jobs, j, w) && o.Retried? then o.availableAt else s.db.jobs[j].availableAt
  {}

  lemma StepParts(s: State, step: Step, s': State)
    requires Next(s, step, s')
    ensures step.StepRetry? ==> Retry(s, step.p, step.at, s')
    ensures step.StepQueueCall? ==> QueueCall(s, step.j, step.w, step.o, s')
  {
    hide Retry, QueueCall;
  }

  lemma OtherStepsKeepDue(s: State, step: Step, s': State, j: JobId)
    requires Next(s, step, s') && j in s.db.jobs
    requires !step.StepIntakeCommit? && !step.StepReevalCommit? && !step.StepRetry? && !step.StepQueueCall?
    ensures j in s'.db.jobs && s'.db.jobs[j].availableAt == s.db.jobs[j].availableAt
  {
    if IsLocal(step) {
      hide Next;
      LocalStepTables(s, step, s');
    } else {
      hide Owned, LockFree, PersistTables, ResetRows, Participants;
    }
  }

  lemma {:induction false} DueSince(r: Run, i: nat, k: nat, j: JobId, at: Time)
    requires IsRun(r) && i < k < |r.states| && j in r.states[i].db.jobs
    requires Requeues(r.states[i], r.steps[i], j, at)
    requires forall h, t | i < h < k :: !Requeues(r.states[h], r.steps[h], j, t)
    ensures j in r.states[k].db.jobs && r.states[k].db.jobs[j].availableAt == at
  {
    hide Inv, Next, Requeues;
    RunInv(r, k - 1);
    if i < k - 1 {
      DueSince(r, i, k - 1, j, at);
    }
    DueChanges(r.states[k - 1], r.steps[k - 1], r.states[k], j);
  }

  /** A job that was queued again for a later time is not selected before that time. */
  lemma NotSelectedBeforeDue(r: Run, i: nat, k: nat, j: JobId, at: Time, p: Pid, now: Time)
    requires IsRun(r) && i < k < |r.steps| && j in r.states[i].db.jobs
    requires Requeues(r.states[i], r.steps[i], j, at) && r.steps[k] == StepClaimSelect(p, j, now)
    requires forall h, t | i < h < k :: !Requeues(r.states[h], r.steps[h], j, t)
    ensures at <= now
  {
    hide Requeues;
    DueSince(r, i, k, j, at);
    SelectsFirstDue(r.states[k], p, j, now, r.states[k + 1]);
  }

  // ----- the worker on the row

  // The worker of the last claim transaction of the job that committed.
  ghost function LastClaimant(r: Run, n: nat, j: JobId): Option<WorkerId>
    requires n < |r.states| && n <= |r.steps|
  {
    if n == 0 then None
    else if ClaimsJob(r.states[n - 1], r.steps[n - 1], j) then Some(r.states[n - 1].procs[r.steps[n - 1].p].id)
    else LastClaimant(r, n - 1, j)
  }

  lemma ClaimNames(s: State, p: Pid, s': State, j: JobId)
    requires Inv(s) && ClaimCommit(s, p, s') && j in s'.db.jobs
    ensures if Claims(s.procs[p], j) then s'.db.jobs[j].worker == Some(s.procs[p].id)
            else j in s.db.jobs && s'.db.jobs[j] == s.db.jobs[j]
  {}

  lemma OtherStepsNameNobody(s: State, step: Step, s': State, j: JobId)
    requires Next(s, step, s') && j in s'.db.jobs && s'.db.jobs[j].status != Queued
    requires !step.StepIntakeCommit? && !step.StepReevalCommit? && !step.StepClaimCommit?
    ensures j in s.db.jobs && s.db.jobs[j].status != Queued && s'.db.jobs[j].worker == s.db.jobs[j].worker
  {
    if IsLocal(step) {
      hide Next;
      LocalStepTables(s, step, s');
    } else {
      hide Owned, LockFree, PersistTables, ResetRows, Participants;
    }
  }

  // A row that is not queued keeps its worker unless the step claims it.
  lemma WorkerStep(s: State, step: Step, s': State, j: JobId)
    requires Inv(s) && Next(s, step, s') && j in s'.db.jobs && s'.db.jobs[j].status != Queued
    ensures if ClaimsJob(s, step, j) then s'.db.jobs[j].worker == Some(s.procs[step.p].id)
            else j in s.db.jobs && s.db.jobs[j].status != Queued && s'.db.jobs[j].worker == s.db.jobs[j].worker
  {
    hide Inv, Next, IntakeCommit, ClaimCommit, ReevalCommit;
    CommitOf(s, step, s');
    if step.StepClaimCommit? {
      ClaimNames(s, step.p, s', j);
      ClaimantExists(s, step.p, s');
    } else if step.StepIntakeCommit? {
      IntakeKeepsJobs(s, step.p, s', j);
    } else if step.StepReevalCommit? {
      ReevalKeepsJobs(s, step.p, s', j);
    } else {
      OtherStepsNameNobody(s, step, s', j);
    }
  }

  lemma ClaimantExists(s: State, p: Pid, s': State)
    requires ClaimCommit(s, p, s')
    ensures p in s.procs
  {}

  lemma {:induction false} LastClaimantNamed(r: Run, n: nat, j: JobId)
    requires IsRun(r) && n < |r.states| && j in r.states[n].db.jobs && r.states[n].db.jobs[j].status != Queued
    ensures r.states[n].db.jobs[j].worker == LastClaimant(r, n, j)
  {
    hide Inv, Next, ClaimsJob;
    if n > 0 {
      RunInv(r, n - 1);
      WorkerStep(r.states[n - 1], r.steps[n - 1], r.states[n], j);
      if !ClaimsJob(r.states[n - 1], r.steps[n - 1], j) {
        LastClaimantNamed(r, n - 1, j);
      }
    }
  }

  /** A queued job names no worker; a running, done or failed one names exactly the worker whose claim
      of it committed last. */
  lemma WorkerNamed(r: Run, n: nat, j: JobId)
    requires IsRun(r) && n < |r.states| && j in r.states[n].db.jobs
    ensures r.states[n].db.jobs[j].worker.None? <==> r.states[n].db.jobs[j].status == Queued
    ensures r.states[n].db.jobs[j].status != Queued ==> r.states[n].db.jobs[j].worker == LastClaimant(r, n, j)
    ensures r.states[n].db.jobs[j].submission in r.states[n].db.subs
  {
    RunInv(r, n);
    var s := r.states[n];
    assert QueueInv(s.db.subs, s.db.jobs, s.hist.claims, s.nextId);
    hide Inv, IsRun;
    if s.db.jobs[j].status != Queued {
      LastClaimantNamed(r, n, j);
    }
  }

  // ----- attempts

  ghost predicate ClaimsJob(s: State, step: Step, j: JobId) {
    step.StepClaimCommit? && step.p in s.procs && Claims(s.procs[step.p], j)
  }

  ghost function ClaimsOf(r: Run, n: nat, j: JobId): nat
    requires n < |r.states| && n <= |r.steps|
  {
    if n == 0 then 0 else ClaimsOf(r, n - 1, j) + if ClaimsJob(r.states[n - 1], r.steps[n - 1], j) then 1 else 0
  }

  lemma ClaimCounted(s: State, step: Step, s': State, j: JobId)
    requires Next(s, step, s') && !step.StepIntakeCommit? && !step.StepReevalCommit?
    ensures GetOr(s'.hist.claims, j, 0) == GetOr(s.hist.claims, j, 0) + if ClaimsJob(s, step, j) then 1 else 0
  {
    if IsLocal(step) {
      LocalStepTables(s, step, s');
    }
  }

  lemma ClaimsOfJobs(s: State)
    requires Inv(s)
    ensures s.hist.claims.Keys == s.db.jobs.Keys
  {
    assert QueueInv(s.db.subs, s.db.jobs, s.hist.claims, s.nextId);
  }

  lemma IntakeCountsNothing(s: State, p: Pid, s': State, j: JobId)
    requires Inv(s) && IntakeCommit(s, p, s')
    ensures GetOr(s'.hist.claims, j, 0) == GetOr(s.hist.claims, j, 0)
  {
    hide Inv;
    ClaimsOfJobs(s);
    ReadyIntake(s, p);
  }

  lemma ReevalCountsNothing(s: State, p: Pid, s': State, j: JobId)
    requires Inv(s) && ReevalCommit(s, p, s')
    ensures GetOr(s'.hist.claims, j, 0) == GetOr(s.hist.claims, j, 0)
  {
    hide Inv;
    ClaimsOfJobs(s);
    CopiesReady(s, p);
  }

  lemma InsertsCountNothing(s: State, step: Step, s': State, j: JobId)
    requires Inv(s) && Next(s, step, s') && (step.StepIntakeCommit? || step.StepReevalCommit?)
    ensures GetOr(s'.hist.claims, j, 0) == GetOr(s.hist.claims, j, 0)
  {
    hide Inv, Next, IntakeCommit, ReevalCommit;
    CommitOf(s, step, s');
    if step.StepIntakeCommit? {
      IntakeCountsNothing(s, step.p, s', j);
    } else {
      ReevalCountsNothing(s, step.p, s', j);
    }
  }

  lemma {:induction false} ClaimsCounted(r: Run, n: nat, j: JobId)
    requires IsRun(r) && n < |r.states|
    ensures GetOr(r.states[n].hist.claims, j, 0) == ClaimsOf(r, n, j)
  {
    hide Inv, Next;
    if n > 0 {
      var s, step, s' := r.states[n - 1], r.steps[n - 1], r.states[n];
      ClaimsCounted(r, n - 1, j);
      RunInv(r, n - 1);
      if step.StepIntakeCommit? || step.StepReevalCommit? {
        InsertsCountNothing(s, step, s', j);
      } else {
        ClaimCounted(s, step, s', j);
      }
    }
  }

  /** The attempts counter of a job is the number of committed claims of it. */
  lemma AttemptsAreClaims(r: Run, n: nat, j: JobId)
    requires IsRun(r) && n < |r.states| && j in r.states[n].db.jobs
    ensures r.states[n].db.jobs[j].attempts == ClaimsOf(r, n, j)
  {
    ClaimsCounted(r, n, j);
    RunInv(r, n);
    var s := r.states[n];
    assert QueueInv(s.db.subs, s.db.jobs, s.hist.claims, s.nextId);
  }
}
