/** The invariant is inductive: it holds initially and every step keeps it. */
module Induction {
  import opened Tables
  import opened Evaluation
  import opened Protocol
  import opened Invariant
  import opened LocalSteps
  import opened CommitSteps
  import opened SettleSteps

  lemma InitInv(s: State)
    requires Init(s)
    ensures Inv(s)
  {
    forall a: Account, start: Time ensures NeverReset(s.db.subs, s.hist.everReset, a, start) == {} {}
    assert DbInv(s);
  }

  predicate IsIntakeStep(step: Step) {
    || step.StepIntakeBegin? || step.StepIntakeLock? || step.StepIntakeCount? || step.StepIntakeDebit?
    || step.StepIntakeSave?
    || step.StepIntakeReserve? || step.StepIntakeInsert? || step.StepIntakeEnqueue? || step.StepIntakeAbort?
    || step.StepCleanUp?
  }

  predicate IsWorkerStep(step: Step) {
    || step.StepWorkerStart? || step.StepClaimSelect? || step.StepClaimMark? || step.StepLoadSubmission?
    || step.StepLoadManifest?
    || step.StepEvaluate? || step.StepWorkerCrash?
  }

  predicate IsPersistStep(step: Step) {
    step.StepPersistResult? || step.StepPersistQuota? || step.StepPersistScore? || step.StepPersistEntry?
  }

  predicate IsAdminLocalStep(step: Step) {
    step.StepLabEditCheck? || step.StepReevalBegin? || step.StepReevalRow? || step.StepAdminAbort?
  }

  // Steps that leave the committed tables and the history alone.
  predicate IsLocal(step: Step) {
    IsIntakeStep(step) || IsWorkerStep(step) || IsPersistStep(step) || IsAdminLocalStep(step)
  }

  lemma LocalStepTables(s: State, step: Step, s': State)
    requires IsLocal(step) && Next(s, step, s')
    ensures SameTables(s, s')
  {
    if IsIntakeStep(step) {
      IntakeStepTables(s, step, s');
    } else if IsWorkerStep(step) {
      WorkerStepTables(s, step, s');
    } else if IsPersistStep(step) {
      PersistStepTables(s, step, s');
    } else {
      AdminStepTables(s, step, s');
    }
  }

  lemma IntakeStepTables(s: State, step: Step, s': State)
    requires IsIntakeStep(step) && Next(s, step, s')
    ensures SameTables(s, s')
  {
    hide Owned, RefundedCredit, QuotaRow;
  }

  lemma WorkerStepTables(s: State, step: Step, s': State)
    requires IsWorkerStep(step) && Next(s, step, s')
    ensures SameTables(s, s')
  {
    hide Owned, RefundedCredit, QuotaRow;
  }

  lemma PersistStepTables(s: State, step: Step, s': State)
    requires IsPersistStep(step) && Next(s, step, s')
    ensures SameTables(s, s')
  {
    hide Owned, RefundedCredit, QuotaRow;
  }

  lemma AdminStepTables(s: State, step: Step, s': State)
    requires IsAdminLocalStep(step) && Next(s, step, s')
    ensures SameTables(s, s')
  {
    hide Owned, RefundedCredit, QuotaRow;
  }

  lemma UnusedIds(s: State)
    requires RowsInv(s.db.labs, s.db.subs, s.nextId) && QueueInv(s.db.subs, s.db.jobs, s.hist.claims, s.nextId)
    ensures s.nextId !in s.db.subs && s.nextId !in s.db.jobs && s.nextId + 1 !in s.db.jobs
  {}

  lemma IntakeStepKeeps(s: State, step: Step, s': State)
    requires Inv(s) && IsIntakeStep(step) && Next(s, step, s')
    ensures ProcsInv(s') && Exclusive(s')
  {
    hide IntakeBegin, IntakeLock, IntakeCount, IntakeDebit, IntakeSave, IntakeReserve, IntakeInsert, IntakeEnqueue;
    hide IntakeAbort;
    match step
    case StepIntakeBegin(p, req) => IntakeBeginStep(s, p, req, s');
    case StepIntakeLock(p) => IntakeLockStep(s, p, s');
    case StepIntakeCount(p) => IntakeCountStep(s, p, s');
    case StepIntakeDebit(p) => IntakeDebitStep(s, p, s');
    case StepIntakeSave(p) => IntakeSaveStep(s, p, s');
    case StepIntakeReserve(p) => IntakeReserveStep(s, p, s');
    case StepIntakeInsert(p) => UnusedIds(s); IntakeDrawStep(s, p, s');
    case StepIntakeEnqueue(p) => UnusedIds(s); IntakeDrawStep(s, p, s');
    case StepIntakeAbort(p) => IntakeAbortStep(s, p, s');
    case StepCleanUp(p, _) => LocalEnd(s, s', p);
  }

  lemma WorkerStepKeeps(s: State, step: Step, s': State)
    requires Inv(s) && IsWorkerStep(step) && Next(s, step, s')
    ensures ProcsInv(s') && Exclusive(s')
  {
    match step
    case StepWorkerStart(p, w) => Local(s, s', p, s'.procs[p], {});
    case StepClaimSelect(p, j, now) => ClaimSelectStep(s, p, j, now, s');
    case StepClaimMark(p) => WorkerStageStep(s, p, s');
    case StepLoadSubmission(p) => LoadSubmissionStep(s, p, s');
    case StepLoadManifest(p) => WorkerStageStep(s, p, s');
    case StepEvaluate(p, r) => WorkerStageStep(s, p, s');
    case StepWorkerCrash(p) => LocalEnd(s, s', p);
  }

  lemma PersistStepKeeps(s: State, step: Step, s': State)
    requires Inv(s) && IsPersistStep(step) && Next(s, step, s')
    ensures ProcsInv(s') && Exclusive(s')
  {
    match step
    case StepPersistResult(p) => PersistResultStep(s, p, s');
    case StepPersistQuota(p) => PersistQuotaStep(s, p, s');
    case StepPersistScore(p, k) => PersistScoreStep(s, p, k, s');
    case StepPersistEntry(p, now) => PersistEntryStep(s, p, now, s');
  }

  lemma AdminLocalStepKeeps(s: State, step: Step, s': State)
    requires Inv(s) && IsAdminLocalStep(step) && Next(s, step, s')
    ensures ProcsInv(s') && Exclusive(s')
  {
    match step
    case StepLabEditCheck(p, lab, m) => Local(s, s', p, s'.procs[p], {});
    case StepReevalBegin(p, lab, accounts) => ReevalBeginStep(s, p, lab, accounts, s');
    case StepReevalRow(p, now) => UnusedIds(s); ReevalRowStep(s, p, now, s');
    case StepAdminAbort(p) => LocalEnd(s, s', p);
  }

  lemma LocalStepKeeps(s: State, step: Step, s': State)
    requires Inv(s) && IsLocal(step) && Next(s, step, s')
    ensures Inv(s')
  {
    hide Next;
    LocalStepTables(s, step, s');
    LocalDb(s, s');
    if IsIntakeStep(step) {
      IntakeStepKeeps(s, step, s');
    } else if IsWorkerStep(step) {
      WorkerStepKeeps(s, step, s');
    } else if IsPersistStep(step) {
      PersistStepKeeps(s, step, s');
    } else {
      AdminLocalStepKeeps(s, step, s');
    }
  }

  lemma CommitStepKeeps(s: State, step: Step, s': State)
    requires Inv(s) && !IsLocal(step) && Next(s, step, s')
    ensures Inv(s')
  {
    hide Inv, Next;
    if IsAdminCommit(step) {
      AdminCommitKeeps(s, step, s');
    } else {
      UserCommitKeeps(s, step, s');
    }
  }

  predicate IsAdminCommit(step: Step) {
    || step.StepRegisterLab? || step.StepLabEditWrite? || step.StepDailyReset? || step.StepBonusAdjust?
    || step.StepBonusReset? || step.StepReevalCommit?
  }

  lemma AdminCommitKeeps(s: State, step: Step, s': State)
    requires Inv(s) && IsAdminCommit(step) && Next(s, step, s')
    ensures Inv(s')
  {
    hide Inv, Next, RegisterLab, LabEditWrite, DailyReset, BonusAdjust, BonusReset, ReevalCommit;
    CommitOf(s, step, s');
    AdminCommitOf(s, step, s');
    if step.StepRegisterLab? {
      RegisterLabStep(s, step.lab, step.m, s');
    } else if step.StepLabEditWrite? {
      LabEditWriteStep(s, step.p, s');
    } else if step.StepDailyReset? {
      DailyResetStep(s, step.lab, step.since, step.visible, s');
    } else if step.StepBonusAdjust? {
      BonusAdjustStep(s, step.lab, step.delta, step.visible, s');
    } else if step.StepBonusReset? {
      BonusResetStep(s, step.lab, step.visibleRows, s');
    } else {
      ReevalCommitStep(s, step.p, s');
    }
  }

  lemma UserCommitKeeps(s: State, step: Step, s': State)
    requires Inv(s) && !IsLocal(step) && !IsAdminCommit(step) && Next(s, step, s')
    ensures Inv(s')
  {
    hide Inv, IntakeCommit, ClaimCommit, MarkRunning, PersistCommit, QueueCall, HeldBy, SettleJob;
    match step
    case StepIntakeCommit(p) => IntakeCommitStep(s, p, s');
    case StepClaimCommit(p) => ClaimCommitStep(s, p, s');
    case StepMarkRunning(p) => MarkRunningStep(s, p, s');
    case StepPersistCommit(p) => PersistCommitStep(s, p, s');
    case StepAcknowledge(p) =>
      WorkerReleaseStep(s, p, Acknowledged(if s.procs[p].task.stage.r.verdict == Failed then Error else Done), s');
    case StepRetry(p, at) => WorkerReleaseStep(s, p, Retried(at), s');
    case StepQueueCall(j, w, o) => QueueCallStep(s, j, w, o, s');
  }

  /** Every step of every process keeps the invariant. */
  lemma StepKeepsInv(s: State, step: Step, s': State)
    requires Inv(s) && Next(s, step, s')
    ensures Inv(s')
  {
    if IsLocal(step) {
      LocalStepKeeps(s, step, s');
    } else {
      CommitStepKeeps(s, step, s');
    }
  }

  /** The commit a step stands for, without the other cases of Next. */
  lemma CommitOf(s: State, step: Step, s': State)
    requires Next(s, step, s')
    ensures step.StepIntakeCommit? ==> IntakeCommit(s, step.p, s')
    ensures step.StepClaimCommit? ==> ClaimCommit(s, step.p, s')
    ensures step.StepPersistCommit? ==> PersistCommit(s, step.p, s')
    ensures step.StepReevalCommit? ==> ReevalCommit(s, step.p, s')
  {
    hide IntakeCommit, ClaimCommit, PersistCommit, ReevalCommit;
  }

  lemma AdminCommitOf(s: State, step: Step, s': State)
    requires Next(s, step, s')
    ensures step.StepRegisterLab? ==> RegisterLab(s, step.lab, step.m, s')
    ensures step.StepLabEditWrite? ==> LabEditWrite(s, step.p, s')
    ensures step.StepDailyReset? ==> DailyReset(s, step.lab, step.since, step.visible, s')
    ensures step.StepBonusAdjust? ==> BonusAdjust(s, step.lab, step.delta, step.visible, s')
    ensures step.StepBonusReset? ==> BonusReset(s, step.lab, step.visibleRows, s')
  {
    hide RegisterLab, LabEditWrite, DailyReset, BonusAdjust, BonusReset;
  }
}
