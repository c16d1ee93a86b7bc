/** Bonus credits over whole runs: what a user has left plus what the user has spent is exactly
    what administrators gave, and no credit is paid back twice. */
module Credits {
  import opened Prelude
  import opened Tables
  import opened QuotaWindow
  import opened Evaluation
  import opened Protocol
  import opened Invariant
  import opened CommitSteps
  import opened SettleSteps
  import opened Induction

  // ----- runs

  datatype Run = Run(states: seq<State>, steps: seq<Step>)

  ghost predicate IsRun(r: Run) {
    && |r.states| == |r.steps| + 1
    && Init(r.states[0])
    && forall i | 0 <= i < |r.steps| :: Next(r.states[i], r.steps[i], r.states[i + 1])
  }

  lemma {:induction false} RunInv(r: Run, n: nat)
    requires IsRun(r) && n < |r.states|
    ensures Inv(r.states[n])
  {
    if n == 0 {
      InitInv(r.states[0]);
    } else {
      RunInv(r, n - 1);
      StepKeepsInv(r.states[n - 1], r.steps[n - 1], r.states[n]);
    }
  }

  // ----- settlement is atomic

  /** However its statements interleave with other processes, a Persist transaction commits
      exactly what it would have written had it run alone at that moment, and it is fair. */
  lemma PersistIsAtomic(s: State, p: Pid, s': State)
    requires Inv(s) && PersistCommit(s, p, s')
    ensures CommitsAtomically(s.db, s.procs[p].task.stage, s'.db)
  {
    PersistReady(s, s.procs[p]);
    SettleImages(s, s.procs[p].task.stage);
  }

  /** In the fields of the rows: the committed settlement is the one that verdict, manifest and loaded
      row call for, and the submission shows the verdict and the status that goes with it. */
  lemma PersistCommitMeans(s: State, p: Pid, s': State)
    requires Inv(s) && PersistCommit(s, p, s')
    ensures
      var st := s.procs[p].task.stage;
      && st.snap.sub in s.db.subs && st.snap.sub in s'.db.subs
      && IsSettlement(s.db, st.m, st.snap.sub, st.snap.row, st.r, CommitTime(st), s'.db)
      && s'.db.subs[st.snap.sub].status == (if st.r.verdict == Failed then SubmissionError else SubmissionDone)
      && s'.db.subs[st.snap.sub].verdict == Some(st.r.verdict)
  {
    hide Inv;
    PersistIsAtomic(s, p, s');
    var st := s.procs[p].task.stage;
    SettleMeans(s.db, st.m, st.snap.sub, st.snap.row, st.r, CommitTime(st));
  }

  ghost predicate CommitsAtomically(db: Tables, st: Stage, db': Tables) {
    && st.Persisting? && st.snap.sub in db.subs
    && db' == Settle(db, st.m, st.snap.sub, st.snap.row, st.r, CommitTime(st))
    && SettlesFairly(db, st.m, st.snap.sub, st.snap.row.quota, st.r.verdict)
    && (st.tx.credit.Some? ==> db.subs[st.snap.sub].quota == Bonus && db'.subs[st.snap.sub].quota == Free
                               && db.subs[st.snap.sub].Owner() in db.bonus
                               && var owner := db.subs[st.snap.sub].Owner();
                                  db'.bonus == db.bonus[owner := Remaining(db, owner) + 1])
    && (st.tx.credit.None? ==>
         db'.bonus == db.bonus
         && (db'.subs[st.snap.sub].quota == Bonus <==> db.subs[st.snap.sub].quota == Bonus))
    && (db.subs[st.snap.sub].quota == Free ==> db'.subs[st.snap.sub].quota == Free)
  }

  function CommitTime(st: Stage): Time
    requires st.Persisting?
  {
    if st.tx.entry.Some? then st.tx.entry.value.updatedAt else 0
  }

  lemma SettleImages(s: State, st: Stage)
    requires st.Persisting? && CanSettle(s, st.snap, st.m, st.r, st.tx) && CreditsInv(s.db.subs, s.db.bonus)
    ensures CommitsAtomically(s.db, st, PersistTables(s.db, st.snap, st.tx))
  {
    var row := ResultRow(s.db.subs[st.snap.sub], st.r.verdict);
    SettledQuota(row, st.m, st.r.verdict, st.snap.row.quota);
    assert s.db.subs[st.snap.sub].quota == Bonus ==> row.Owner() in s.db.bonus;
    assert st.tx.credit == RefundedCredit(s.db, row, st.m, st.r.verdict, st.snap.row.quota);
  }

  // ----- conservation

  // The effect of one step on an account by an administrator: an adjustment clamped at zero,
  // or a reset.
  function AdminEffect(s: State, step: Step, a: Account): int {
    var left := Remaining(s.db, a);
    match step
    case StepBonusAdjust(lab, delta, visible) =>
      if exists x :: x in visible && x in s.db.subs && s.db.subs[x].user == a.user && s.db.subs[x].lab == a.lab == lab
      then (if left + delta < 0 then -left else delta)
      else 0
    case StepBonusReset(lab, visibleRows) => if a in visibleRows && a.lab == lab then -left else 0
    case _ => 0
  }

  function AdminNet(r: Run, n: nat, a: Account): int
    requires n < |r.states| && n <= |r.steps|
  {
    if n == 0 then 0 else AdminNet(r, n - 1, a) + AdminEffect(r.states[n - 1], r.steps[n - 1], a)
  }

  lemma SameBalance(s: State, s': State, a: Account)
    requires s'.db.subs == s.db.subs && s'.db.bonus == s.db.bonus
    ensures Balance(s'.db, a) == Balance(s.db, a)
  {}

  lemma IntakeBalance(s: State, p: Pid, s': State, a: Account)
    requires Inv(s) && IntakeCommit(s, p, s')
    ensures Balance(s'.db, a) == Balance(s.db, a)
  {
    assert IntakeInv(s, s.procs[p]);
    IntakeReady(s, s.procs[p]);
    IntakeTablesBalance(s.db, s.procs[p].req, s.procs[p].debit, s.procs[p].sub, s.procs[p].job, a);
  }

  lemma IntakeReady(s: State, x: Proc)
    requires x.Intake? && x.phase == Enqueued && IntakeInv(s, x)
    ensures x.sub !in s.db.subs && x.job !in s.db.jobs && x.req.nonce !in s.db.nonces
    ensures x.debit.Some? ==> x.req.Owner() in s.db.bonus && s.db.bonus[x.req.Owner()] == x.debit.value + 1
  {
    hide NeverReset, Rows, UsageRows;
  }

  lemma IntakeTablesBalance(db: Tables, req: Request, debit: Option<int>, sub: SubId, job: JobId, a: Account)
    requires sub !in db.subs
    requires debit.Some? ==> req.Owner() in db.bonus && db.bonus[req.Owner()] == debit.value + 1
    ensures Balance(IntakeTables(db, req, debit, sub, job), a) == Balance(db, a)
  {
    hide BonusRows;
    OneMoreRow(db.subs, sub, NewSubmission(req, if debit.Some? then Bonus else Pending), a);
  }

  lemma OneMoreRow(subs: Subs, sub: SubId, row: Submission, a: Account)
    requires sub !in subs
    ensures |BonusRows(subs[sub := row], a)| ==
            |BonusRows(subs, a)| + if row.Owner() == a && row.quota == Bonus then 1 else 0
  {
    var rows := BonusRows(subs, a);
    if row.Owner() == a && row.quota == Bonus {
      assert BonusRows(subs[sub := row], a) == rows + {sub};
    } else {
      assert BonusRows(subs[sub := row], a) == rows;
    }
  }

  lemma PersistBalance(s: State, p: Pid, s': State, a: Account)
    requires Inv(s) && PersistCommit(s, p, s')
    ensures Balance(s'.db, a) == Balance(s.db, a)
  {
    PersistIsAtomic(s, p, s');
    var st := s.procs[p].task.stage;
    SettleConservesIff(s.db, st.m, st.snap.sub, st.snap.row, st.r, CommitTime(st));
  }

  lemma SameBonusRows(subs: Subs, subs': Subs, a: Account)
    requires subs.Keys <= subs'.Keys
    requires forall x | x in subs ::
               subs'[x].Owner() == subs[x].Owner()
               && (subs'[x].quota == Bonus <==> subs[x].quota == Bonus)
    requires forall x | x in subs' && x !in subs :: subs'[x].quota != Bonus
    ensures BonusRows(subs', a) == BonusRows(subs, a)
  {}

  lemma ReevalBalance(s: State, p: Pid, s': State, a: Account)
    requires Inv(s) && ReevalCommit(s, p, s')
    ensures Balance(s'.db, a) == Balance(s.db, a)
  {
    hide Inv;
    FreshCopies(s, p);
    SameBonusRows(s.db.subs, s'.db.subs, a);
  }

  lemma FreshCopies(s: State, p: Pid)
    requires Inv(s) && p in s.procs && s.procs[p].Reevaluation?
    ensures FreshFreeRows(s.db.labs, s.db.subs, MadeSubs(s.procs[p].made), s.nextId, Owned(s.procs[p]))
  {
    ReevalReady(s, s.procs[p]);
    MadeFresh(s, s.procs[p].made, Owned(s.procs[p]));
  }

  lemma DailyResetBalance(s: State, lab: LabId, since: Time, visible: set<SubId>, s': State, a: Account)
    requires DailyReset(s, lab, since, visible, s')
    ensures Balance(s'.db, a) == Balance(s.db, a)
  {
    SameBonusRows(s.db.subs, s'.db.subs, a);
  }

  lemma MarkRunningBalance(s: State, p: Pid, s': State, a: Account)
    requires MarkRunning(s, p, s')
    ensures Balance(s'.db, a) == Balance(s.db, a)
  {
    SameBonusRows(s.db.subs, s'.db.subs, a);
  }

  lemma AdminBalance(s: State, step: Step, s': State, a: Account)
    requires CreditsInv(s.db.subs, s.db.bonus) && (step.StepBonusAdjust? || step.StepBonusReset?) && Next(s, step, s')
    ensures Balance(s'.db, a) == Balance(s.db, a) + AdminEffect(s, step, a)
  {}

  lemma OtherBalance(s: State, step: Step, s': State, a: Account)
    requires CreditsInv(s.db.subs, s.db.bonus) && Next(s, step, s')
    requires !step.StepIntakeCommit? && !step.StepPersistCommit? && !step.StepReevalCommit?
    ensures Balance(s'.db, a) == Balance(s.db, a) + AdminEffect(s, step, a)
  {
    if IsLocal(step) {
      hide Next;
      LocalStepTables(s, step, s');
    } else {
      hide Owned, LockFree;
      match step
      case StepMarkRunning(p) => MarkRunningBalance(s, p, s', a);
      case StepDailyReset(lab, since, visible) => DailyResetBalance(s, lab, since, visible, s', a);
      case StepBonusAdjust(_, _, _) => AdminBalance(s, step, s', a);
      case StepBonusReset(_, _) => AdminBalance(s, step, s', a);
      case _ => SameBalance(s, s', a);
    }
  }

  lemma CreditsNow(s: State)
    requires Inv(s)
    ensures CreditsInv(s.db.subs, s.db.bonus)
  {}

  /** Only administrators change the balance of an account. */
  lemma StepBalance(s: State, step: Step, s': State, a: Account)
    requires Inv(s) && Next(s, step, s')
    ensures Balance(s'.db, a) == Balance(s.db, a) + AdminEffect(s, step, a)
  {
    hide Inv, Next, IntakeCommit, PersistCommit, ReevalCommit, Balance;
    CommitOf(s, step, s');
    CreditsNow(s);
    match step
    case StepIntakeCommit(p) => IntakeBalance(s, p, s', a);
    case StepPersistCommit(p) => PersistBalance(s, p, s', a);
    case StepReevalCommit(p) => ReevalBalance(s, p, s', a);
    case _ => OtherBalance(s, step, s', a);
  }

  lemma RunCredits(r: Run, n: nat)
    requires IsRun(r) && n < |r.states|
    ensures forall a | a in r.states[n].db.bonus :: r.states[n].db.bonus[a] >= 0
  {
    RunInv(r, n);
    assert CreditsInv(r.states[n].db.subs, r.states[n].db.bonus);
  }

  /** Conservation: in every reachable state, credits left plus credits spent on submissions that
      are still bonus-funded is the net effect of the administrators, and no counter is negative. */
  lemma {:induction false} BonusConservation(r: Run, n: nat, a: Account)
    requires IsRun(r) && n < |r.states|
    ensures Remaining(r.states[n].db, a) + |BonusRows(r.states[n].db.subs, a)| == AdminNet(r, n, a)
    ensures Remaining(r.states[n].db, a) >= 0
  {
    hide Inv, Next;
    RunCredits(r, n);
    if n == 0 {
      assert BonusRows(r.states[0].db.subs, a) == {};
    } else {
      BonusConservation(r, n - 1, a);
      RunInv(r, n - 1);
      StepBalance(r.states[n - 1], r.steps[n - 1], r.states[n], a);
    }
  }

  // ----- refunds

  // The step commits a settlement of sub that pays a credit back.
  ghost predicate Refunds(s: State, step: Step, sub: SubId) {
    && step.StepPersistCommit? && IsPersisting(s, step.p)
    && s.procs[step.p].task.stage.snap.sub == sub && s.procs[step.p].task.stage.tx.credit.Some?
  }

  ghost function RefundsOf(r: Run, n: nat, sub: SubId): nat
    requires n < |r.states| && n <= |r.steps|
  {
    if n == 0 then 0 else RefundsOf(r, n - 1, sub) + if Refunds(r.states[n - 1], r.steps[n - 1], sub) then 1 else 0
  }

  // The step inserts sub as a submission paid with a bonus credit.
  ghost predicate BuysWithBonus(s: State, step: Step, sub: SubId) {
    && step.StepIntakeCommit? && IsIntake(s, step.p, Enqueued)
    && s.procs[step.p].sub == sub && s.procs[step.p].debit.Some?
  }

  // Inserts leave existing rows alone.
  lemma IntakeKeepsRows(s: State, p: Pid, s': State, sub: SubId)
    requires Inv(s) && IntakeCommit(s, p, s') && sub in s.db.subs
    ensures sub in s'.db.subs && s'.db.subs[sub] == s.db.subs[sub]
  {
    IntakeReady(s, s.procs[p]);
  }

  lemma ReevalKeepsRows(s: State, p: Pid, s': State, sub: SubId)
    requires Inv(s) && ReevalCommit(s, p, s') && sub in s.db.subs
    ensures sub in s'.db.subs && s'.db.subs[sub] == s.db.subs[sub]
  {
    hide Inv;
    FreshCopies(s, p);
  }

  /** A free row stays free. */
  lemma FreeStays(s: State, step: Step, s': State, sub: SubId)
    requires Inv(s) && Next(s, step, s') && sub in s.db.subs && s.db.subs[sub].quota == Free
    ensures sub in s'.db.subs && s'.db.subs[sub].quota == Free
  {
    hide Inv, Next, IntakeCommit, PersistCommit, ReevalCommit;
    CommitOf(s, step, s');
    if step.StepPersistCommit? {
      SettleKeepsFree(s, step.p, s', sub);
    } else if step.StepIntakeCommit? {
      IntakeKeepsRows(s, step.p, s', sub);
    } else if step.StepReevalCommit? {
      ReevalKeepsRows(s, step.p, s', sub);
    } else {
      OtherStepsKeepFree(s, step, s', sub);
    }
  }

  lemma SettleKeepsFree(s: State, p: Pid, s': State, sub: SubId)
    requires Inv(s) && PersistCommit(s, p, s') && sub in s.db.subs && s.db.subs[sub].quota == Free
    ensures sub in s'.db.subs && s'.db.subs[sub].quota == Free
  {
    PersistIsAtomic(s, p, s');
  }

  lemma OtherStepsKeepFree(s: State, step: Step, s': State, sub: SubId)
    requires Next(s, step, s') && sub in s.db.subs && s.db.subs[sub].quota == Free
    requires !step.StepPersistCommit? && !step.StepIntakeCommit? && !step.StepReevalCommit?
    ensures sub in s'.db.subs && s'.db.subs[sub].quota == Free
  {
    if IsLocal(step) {
      LocalStepTables(s, step, s');
    }
  }

  lemma {:induction false} FreeForever(r: Run, i: nat, n: nat, sub: SubId)
    requires IsRun(r) && i <= n < |r.states|
    requires sub in r.states[i].db.subs && r.states[i].db.subs[sub].quota == Free
    ensures sub in r.states[n].db.subs && r.states[n].db.subs[sub].quota == Free
  {
    hide Inv, Next;
    if i < n {
      FreeForever(r, i, n - 1, sub);
      RunInv(r, n - 1);
      FreeStays(r.states[n - 1], r.steps[n - 1], r.states[n], sub);
    }
  }

  lemma RefundTurnsFree(s: State, step: Step, s': State, sub: SubId)
    requires Inv(s) && Next(s, step, s') && Refunds(s, step, sub)
    ensures sub in s.db.subs && s.db.subs[sub].quota == Bonus && sub in s.hist.bornBonus
    ensures sub in s'.db.subs && s'.db.subs[sub].quota == Free
  {
    PersistIsAtomic(s, step.p, s');
    assert RowHistory(s.hist, sub, s.db.subs[sub].quota) by {
      assert HistoryInv(s.db.subs, s.hist);
    }
  }

  lemma BornBonusStep(s: State, step: Step, s': State, sub: SubId)
    requires Next(s, step, s') && sub in s'.hist.bornBonus
    ensures sub in s.hist.bornBonus || BuysWithBonus(s, step, sub)
  {
    if IsLocal(step) {
      LocalStepTables(s, step, s');
    }
  }

  lemma {:induction false} BornBonus(r: Run, n: nat, sub: SubId)
    requires IsRun(r) && n < |r.states| && sub in r.states[n].hist.bornBonus
    ensures exists i :: 0 <= i < n && BuysWithBonus(r.states[i], r.steps[i], sub)
  {
    if n > 0 {
      BornBonusStep(r.states[n - 1], r.steps[n - 1], r.states[n], sub);
      if sub in r.states[n - 1].hist.bornBonus {
        BornBonus(r, n - 1, sub);
      }
    }
  }

  /** Over any run, retries and new claims included, a submission is refunded at most once, only
      if an earlier intake paid for it with a bonus credit, and it is free ever after. */
  lemma {:induction false} RefundAtMostOnce(r: Run, n: nat, sub: SubId)
    requires IsRun(r) && n < |r.states|
    ensures RefundsOf(r, n, sub) <= 1
    ensures RefundsOf(r, n, sub) == 1 ==>
              && sub in r.states[n].db.subs && r.states[n].db.subs[sub].quota == Free
              && exists i :: 0 <= i < n && BuysWithBonus(r.states[i], r.steps[i], sub)
  {
    hide Inv, Next;
    if n > 0 {
      var s, step, s' := r.states[n - 1], r.steps[n - 1], r.states[n];
      RefundAtMostOnce(r, n - 1, sub);
      RunInv(r, n - 1);
      if Refunds(s, step, sub) {
        RefundTurnsFree(s, step, s', sub);
        BornBonus(r, n - 1, sub);
      } else if RefundsOf(r, n - 1, sub) == 1 {
        FreeStays(s, step, s', sub);
      }
    }
  }
}
