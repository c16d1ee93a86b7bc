/** The daily quota over whole runs: concurrent intakes never admit more than the quota. */
module DailyCap {
  import opened Tables
  import opened QuotaWindow
  import opened Evaluation
  import opened Protocol
  import opened Invariant
  import opened SettleSteps
  import opened Induction
  import opened Credits

  // ----- rows are never lost and keep their identity

  predicate SameIdentity(x: Submission, y: Submission) {
    && x.Owner() == y.Owner() && x.createdAt == y.createdAt
    && x.artifactKey == y.artifactKey && x.contentHash == y.contentHash
  }

  lemma OtherStepsKeepRow(s: State, step: Step, s': State, sub: SubId)
    requires Next(s, step, s') && sub in s.db.subs
    requires !step.StepPersistCommit? && !step.StepIntakeCommit? && !step.StepReevalCommit?
    ensures s'.db.subs.Keys == s.db.subs.Keys && SameIdentity(s.db.subs[sub], s'.db.subs[sub])
  {
    if IsLocal(step) {
      LocalStepTables(s, step, s');
    }
  }

  lemma SettleKeepsRow(s: State, p: Pid, s': State, sub: SubId)
    requires Inv(s) && PersistCommit(s, p, s') && sub in s.db.subs
    ensures s'.db.subs.Keys == s.db.subs.Keys && SameIdentity(s.db.subs[sub], s'.db.subs[sub])
  {
    PersistIsAtomic(s, p, s');
  }

  /** No submission is ever lost, moved to another account or given another artifact. */
  lemma RowKept(s: State, step: Step, s': State, sub: SubId)
    requires Inv(s) && Next(s, step, s') && sub in s.db.subs
    ensures sub in s'.db.subs && SameIdentity(s.db.subs[sub], s'.db.subs[sub])
  {
    hide Inv, Next, IntakeCommit, PersistCommit, ReevalCommit;
    CommitOf(s, step, s');
    match step
    case StepPersistCommit(p) => SettleKeepsRow(s, p, s', sub);
    case StepIntakeCommit(p) => IntakeKeepsRows(s, p, s', sub);
    case StepReevalCommit(p) => ReevalKeepsRows(s, p, s', sub);
    case _ => OtherStepsKeepRow(s, step, s', sub);
  }

  lemma {:induction false} RowKeptAlong(r: Run, i: nat, n: nat, sub: SubId)
    requires IsRun(r) && i <= n < |r.states| && sub in r.states[i].db.subs
    ensures sub in r.states[n].db.subs && SameIdentity(r.states[i].db.subs[sub], r.states[n].db.subs[sub])
  {
    hide Inv, Next;
    if i < n {
      RowKeptAlong(r, i, n - 1, sub);
      RunInv(r, n - 1);
      RowKept(r.states[n - 1], r.steps[n - 1], r.states[n], sub);
    }
  }

  // ----- every admission goes back to a quota that was in force

  // The step commits x as a submission that no credit paid for.
  ghost predicate Admits(s: State, step: Step, x: SubId) {
    step.StepIntakeCommit? && IsIntake(s, step.p, Enqueued) && s.procs[step.p].sub == x && s.procs[step.p].debit.None?
  }

  // Step i admits x for the account on that day, and the request began in step j under the daily
  // quota then in force.
  ghost predicate AdmittedUnder(r: Run, x: SubId, a: Account, day: int, j: nat, i: nat, daily: int)
    requires IsRun(r)
  {
    && j < i < |r.steps| && Admits(r.states[i], r.steps[i], x)
    && var req := r.states[i].procs[r.steps[i].p].req;
       && req.Owner() == a && Day(req.now) == day && req.daily == daily
       && r.steps[j] == StepIntakeBegin(r.steps[i].p, req)
       && a.lab in r.states[j].db.labs && r.states[j].db.labs[a.lab].daily == daily
  }

  lemma AdmissionsStand(s: State, step: Step, s': State)
    requires Next(s, step, s') && !step.StepIntakeCommit?
    ensures s'.hist.admitted == s.hist.admitted
  {
    if IsLocal(step) {
      hide Next;
      LocalStepTables(s, step, s');
    } else {
      hide Owned, RefundedCredit, QuotaRow;
    }
  }

  lemma AdmissionStep(s: State, step: Step, s': State, x: SubId)
    requires Next(s, step, s') && x in s'.hist.admitted
    ensures || (x in s.hist.admitted && s.hist.admitted[x] == s'.hist.admitted[x])
            || (Admits(s, step, x) && s'.hist.admitted[x] == s.procs[step.p].req.daily)
  {
    if !step.StepIntakeCommit? {
      hide Next;
      AdmissionsStand(s, step, s');
    }
  }

  lemma RequestStep(s: State, step: Step, s': State, p: Pid)
    requires Next(s, step, s') && p in s'.procs && s'.procs[p].Intake?
    ensures || (p in s.procs && s.procs[p].Intake? && s.procs[p].req == s'.procs[p].req)
            || (step == StepIntakeBegin(p, s'.procs[p].req) && IntakeBegin(s, p, s'.procs[p].req, s'))
  {
    hide Next, IntakeBegin;
    if step.StepIntakeBegin? {
      BeginStep(s, step, s', p);
    } else if IsIntakeStep(step) {
      IntakeGoesOn(s, step, s', p);
    } else {
      OtherRequests(s, step, s', p);
    }
  }

  lemma BeginStep(s: State, step: Step, s': State, p: Pid)
    requires Next(s, step, s') && step.StepIntakeBegin? && p in s'.procs && s'.procs[p].Intake?
    ensures || (p in s.procs && s.procs[p] == s'.procs[p])
            || (step == StepIntakeBegin(p, s'.procs[p].req) && IntakeBegin(s, p, s'.procs[p].req, s'))
  {}

  lemma IntakeGoesOn(s: State, step: Step, s': State, p: Pid)
    requires Next(s, step, s') && IsIntakeStep(step) && !step.StepIntakeBegin? && p in s'.procs && s'.procs[p].Intake?
    ensures p in s.procs && s.procs[p].Intake? && s.procs[p].req == s'.procs[p].req
  {
    hide Owned, LockFree, CountedUse, ConsumeBonus, IntakeBegin;
  }

  lemma OtherRequests(s: State, step: Step, s': State, p: Pid)
    requires Next(s, step, s') && !IsIntakeStep(step) && p in s'.procs && s'.procs[p].Intake?
    ensures p in s.procs && s.procs[p] == s'.procs[p]
  {
    hide Owned, LockFree, ClaimsBefore, RefundedCredit, QuotaRow, ValidResult, PersistTables, SettleJob;
  }

  lemma {:induction false} RequestBegan(r: Run, n: nat, p: Pid)
    requires IsRun(r) && n < |r.states| && p in r.states[n].procs && r.states[n].procs[p].Intake?
    ensures exists j: nat :: j < n && BeganWith(r, j, p, r.states[n].procs[p].req)
  {
    hide Next;
    if n > 0 {
      var s, step, s' := r.states[n - 1], r.steps[n - 1], r.states[n];
      RequestStep(s, step, s', p);
      if step == StepIntakeBegin(p, s'.procs[p].req) && IntakeBegin(s, p, s'.procs[p].req, s') {
        assert BeganWith(r, n - 1, p, s'.procs[p].req);
      } else {
        RequestBegan(r, n - 1, p);
      }
    }
  }

  ghost predicate BeganWith(r: Run, j: nat, p: Pid, req: Request)
    requires IsRun(r)
  {
    j < |r.steps| && r.steps[j] == StepIntakeBegin(p, req) && IntakeBegin(r.states[j], p, req, r.states[j + 1])
  }

  lemma {:induction false} WasAdmitted(r: Run, n: nat, x: SubId)
    requires IsRun(r) && n < |r.states| && x in r.states[n].hist.admitted
    ensures exists i: nat ::
              && i < n && Admits(r.states[i], r.steps[i], x)
              && r.states[i].procs[r.steps[i].p].req.daily == r.states[n].hist.admitted[x]
  {
    hide Next;
    if n > 0 {
      AdmissionStep(r.states[n - 1], r.steps[n - 1], r.states[n], x);
      if x in r.states[n - 1].hist.admitted && r.states[n - 1].hist.admitted[x] == r.states[n].hist.admitted[x] {
        WasAdmitted(r, n - 1, x);
      }
    }
  }

  lemma AdmittedRow(s: State, step: Step, s': State, x: SubId)
    requires Next(s, step, s') && Admits(s, step, x)
    ensures x in s'.db.subs && s'.db.subs[x].Owner() == s.procs[step.p].req.Owner()
            && s'.db.subs[x].createdAt == s.procs[step.p].req.now
  {}

  lemma AdmissionBegan(r: Run, n: nat, x: SubId, a: Account, day: int)
    requires IsRun(r) && n < |r.states| && x in r.states[n].hist.admitted && x in r.states[n].db.subs
    requires r.states[n].db.subs[x].Owner() == a && Day(r.states[n].db.subs[x].createdAt) == day
    ensures exists j: nat, i: nat :: i < n && AdmittedUnder(r, x, a, day, j, i, r.states[n].hist.admitted[x])
  {
    hide Next;
    WasAdmitted(r, n, x);
    var i: nat :| i < n && Admits(r.states[i], r.steps[i], x)
                  && r.states[i].procs[r.steps[i].p].req.daily == r.states[n].hist.admitted[x];
    AdmittedRow(r.states[i], r.steps[i], r.states[i + 1], x);
    RowKeptAlong(r, i + 1, n, x);
    RequestBegan(r, i, r.steps[i].p);
    var j: nat :| j < i && BeganWith(r, j, r.steps[i].p, r.states[i].procs[r.steps[i].p].req);
    assert AdmittedUnder(r, x, a, day, j, i, r.states[n].hist.admitted[x]);
  }

  // ----- the cap

  lemma CappedNow(s: State, a: Account, start: Time)
    requires Inv(s) && IsWindow(start)
    ensures Capped(NeverReset(s.db.subs, s.hist.everReset, a, start), s.hist.admitted)
  {}

  lemma {:induction false} LargestAdmission(rows: set<SubId>, admitted: map<SubId, int>)
    requires rows <= admitted.Keys && rows != {}
    ensures exists x :: x in rows && AdmittedWithin(rows, admitted, admitted[x])
  {
    var y :| y in rows;
    if rows == {y} {
      assert AdmittedWithin(rows, admitted, admitted[y]);
    } else {
      assert rows - {y} != {};
      LargestAdmission(rows - {y}, admitted);
      var x :| x in rows - {y} && AdmittedWithin(rows - {y}, admitted, admitted[x]);
      assert AdmittedWithin(rows, admitted, if admitted[y] > admitted[x] then admitted[y] else admitted[x]);
    }
  }

  // The submissions that count on the day and that no daily reset ever hit.
  function Unreset(s: State, a: Account, day: int): set<SubId> {
    CountingOn(s.db.subs, a, day) - s.hist.everReset
  }

  // Some admission of one of these rows happened under a daily quota of at least count.
  ghost predicate AllowedBy(r: Run, n: nat, rows: set<SubId>, a: Account, day: int, count: nat)
    requires IsRun(r)
  {
    exists x, j: nat, i: nat, daily: int ::
      x in rows && i < n && AdmittedUnder(r, x, a, day, j, i, daily) && count <= daily
  }

  /** The daily cap: however intakes, settlements, resets and quota changes interleave, the pending
      or charged submissions of an account of one day that no daily reset ever hit are at most as
      many as the daily quota under which one of these very submissions was admitted. */
  lemma DailyQuotaHolds(r: Run, n: nat, a: Account, day: int)
    requires IsRun(r) && n < |r.states|
    ensures
      var rows := Unreset(r.states[n], a, day);
      rows != {} ==> AllowedBy(r, n, rows, a, day, |rows|)
  {
    hide Inv, Next;
    var s := r.states[n];
    var rows := Unreset(s, a, day);
    if rows != {} {
      RunInv(r, n);
      WindowOfDay(s.db.subs, a, day);
      CappedNow(s, a, Midnight(day));
      assert rows == NeverReset(s.db.subs, s.hist.everReset, a, Midnight(day));
      LargestAdmission(rows, s.hist.admitted);
      var x :| x in rows && AdmittedWithin(rows, s.hist.admitted, s.hist.admitted[x]);
      assert |rows| <= s.hist.admitted[x];
      AdmissionBegan(r, n, x, a, day);
      var j: nat, i: nat :| i < n && AdmittedUnder(r, x, a, day, j, i, s.hist.admitted[x]);
    }
  }

  /** Hence any bound on the daily quotas in force when requests of that account and day that were
      admitted began is a bound on the rows, whatever quotas the lab had at other times. */
  lemma AnyAdmissionBound(r: Run, n: nat, a: Account, day: int, most: nat)
    requires IsRun(r) && n < |r.states|
    requires forall x: SubId, j: nat, i: nat, daily: int | i < n && AdmittedUnder(r, x, a, day, j, i, daily) ::
               daily <= most
    ensures |Unreset(r.states[n], a, day)| <= most
  {
    hide Inv, Next, AdmittedUnder, Unreset;
    DailyQuotaHolds(r, n, a, day);
  }

  // Rows that count although a daily reset hit them: they were charged after it.
  function UndoneResets(s: State, a: Account, day: int): set<SubId> {
    CountingOn(s.db.subs, a, day) * s.hist.everReset
  }

  /** The count the intake decides on exceeds the quota of some admission of the day at most by the
      resets of that account and day that were undone; without one it does not exceed it. */
  lemma UsageWithinQuota(r: Run, n: nat, a: Account, now: Time)
    requires IsRun(r) && n < |r.states|
    ensures
      var s, day := r.states[n], Day(now);
      var used, undone := Usage(s.db, a, WindowStart(now), WindowEnd(now)), |UndoneResets(s, a, day)|;
      && used == |CountingOn(s.db.subs, a, day)|
      && (used == undone || (used > undone && AllowedBy(r, n, CountingOn(s.db.subs, a, day), a, day, used - undone)))
  {
    hide Inv, Next, AdmittedUnder;
    var s, day := r.states[n], Day(now);
    WindowCountsDay(s.db.subs, a, now);
    DailyQuotaHolds(r, n, a, day);
    var rows, undone := Unreset(s, a, day), UndoneResets(s, a, day);
    assert CountingOn(s.db.subs, a, day) == rows + undone && rows !! undone;
    if rows != {} {
      var x, j: nat, i: nat, daily: int :|
        x in rows && i < n && AdmittedUnder(r, x, a, day, j, i, daily) && |rows| <= daily;
      assert x in CountingOn(s.db.subs, a, day);
    }
  }

  // ----- which rows a reset has hit

  // The step is a daily reset that rewrites the submission.
  ghost predicate Resets(s: State, step: Step, s': State, x: SubId) {
    && step.StepDailyReset? && x in s.db.subs && x in s'.db.subs
    && s.db.subs[x].quota != AdminReset && s'.db.subs[x].quota == AdminReset
  }

  lemma ResetRecorded(s: State, step: Step, s': State, x: SubId)
    requires Next(s, step, s')
    ensures x in s'.hist.everReset <==> x in s.hist.everReset || Resets(s, step, s', x)
  {
    if IsLocal(step) {
      hide Next;
      LocalStepTables(s, step, s');
    } else {
      hide Owned, LockFree, RefundedCredit, QuotaRow, MadeSubs, MadeJobs, MadeClaims;
    }
  }

  /** A submission was hit by a reset if some step of the run turned it into admin_reset. */
  lemma {:induction false} EverResetMeans(r: Run, n: nat, x: SubId)
    requires IsRun(r) && n < |r.states|
    ensures x in r.states[n].hist.everReset <==>
              exists i :: 0 <= i < n && Resets(r.states[i], r.steps[i], r.states[i + 1], x)
  {
    hide Next, Resets;
    if n > 0 {
      EverResetMeans(r, n - 1, x);
      ResetRecorded(r.states[n - 1], r.steps[n - 1], r.states[n], x);
    }
  }

  /** Why the cap speaks of rows no reset ever hit: a settlement makes the usage of a day grow exactly
      when it charges a row that an administrator had reset, be it before the worker loaded the row
      or after. */
  lemma SettlementRaisesUsageIff(s: State, p: Pid, s': State)
    requires Inv(s) && PersistCommit(s, p, s') && s.procs[p].task.stage.snap.sub in s.db.subs
    ensures
      var st := s.procs[p].task.stage;
      var row := s.db.subs[st.snap.sub];
      var a, day := row.Owner(), Day(row.createdAt);
      |CountingOn(s'.db.subs, a, day)| > |CountingOn(s.db.subs, a, day)| <==>
        row.quota == AdminReset && QuotaStateFor(st.m, st.r.verdict) == Charged
  {
    hide Inv;
    var st := s.procs[p].task.stage;
    var sub, row := st.snap.sub, s.db.subs[st.snap.sub];
    var start := WindowStart(row.createdAt);
    WindowCountsDay(s.db.subs, row.Owner(), row.createdAt);
    WindowCountsDay(s'.db.subs, row.Owner(), row.createdAt);
    WindowsPartition(row.createdAt, start);
    PersistIsAtomic(s, p, s');
    SettlingSnapshot(s, p, s');
    SettledRow(row, st.m, st.r.verdict, st.snap.row.quota);
    RowUsage(s.db.subs, sub, s'.db.subs[sub], start);
  }

  lemma SettlingSnapshot(s: State, p: Pid, s': State)
    requires Inv(s) && PersistCommit(s, p, s')
    ensures
      var st := s.procs[p].task.stage;
      && ValidResult(st.m, st.r) && st.snap.sub in s.db.subs
      && SnapAgrees(st.snap.row.quota, s.db.subs[st.snap.sub].quota)
      && var row := ResultRow(s.db.subs[st.snap.sub], st.r.verdict);
         s'.db.subs == s.db.subs[st.snap.sub := QuotaRow(row, st.m, st.r.verdict, st.snap.row.quota)]
  {
    assert WorkerInv(s, s.procs[p]);
    PersistReady(s, s.procs[p]);
  }

  lemma SettledRow(row: Submission, m: Manifest, v: Verdict, loaded: QuotaState)
    requires SnapAgrees(loaded, row.quota)
    ensures
      var row' := QuotaRow(ResultRow(row, v), m, v, loaded);
      && SameIdentity(row, row')
      && (IsActive(row'.quota) && !IsActive(row.quota) <==> row.quota == AdminReset && QuotaStateFor(m, v) == Charged)
  {}

  // Rewriting one row of a window changes its usage by at most that row.
  lemma RowUsage(subs: map<SubId, Submission>, sub: SubId, row': Submission, start: Time)
    requires sub in subs && SameIdentity(subs[sub], row') && InWindow(row'.createdAt, start)
    ensures
      |Rows(subs[sub := row'], row'.Owner(), start)| > |Rows(subs, row'.Owner(), start)| <==>
        IsActive(row'.quota) && !IsActive(subs[sub].quota)
  {
    var before, after := Rows(subs, row'.Owner(), start), Rows(subs[sub := row'], row'.Owner(), start);
    if IsActive(row'.quota) {
      assert after == before + {sub};
    } else {
      assert after == before - {sub};
    }
    assert sub in before <==> IsActive(subs[sub].quota);
  }

  /** A reset that is undone: one pending submission is reset, so nothing of its day counts any more,
      and counts again once it is charged, whether the worker loaded it before the reset or after. */
  lemma ResetIsUndone(sub: SubId, row: Submission, m: Manifest, r: EvalResult, now: Time)
    requires row.quota == Pending && ValidResult(m, r) && QuotaStateFor(m, r.verdict) == Charged
    ensures
      var a, day := row.Owner(), Day(row.createdAt);
      var db := EMPTY.(subs := map[sub := row]);
      var reset := AdminResetLabQuota(db, ResetRows(db, row.lab, WindowStart(row.createdAt), {sub}));
      && CountingOn(db.subs, a, day) == {sub} && CountingOn(reset.subs, a, day) == {}
      && CountingOn(Settle(reset, m, sub, row, r, now).subs, a, day) == {sub}
      && CountingOn(Settle(reset, m, sub, reset.subs[sub], r, now).subs, a, day) == {sub}
  {
    hide Settle;
    var start := WindowStart(row.createdAt);
    var db := EMPTY.(subs := map[sub := row]);
    var reset := AdminResetLabQuota(db, ResetRows(db, row.lab, start, {sub}));
    WindowsPartition(row.createdAt, start);
    ChargedCounts(reset, m, sub, row, r, now);
    ChargedCounts(reset, m, sub, reset.subs[sub], r, now);
  }

  // A lone row that is charged counts, whatever the worker had loaded, unless that was free or bonus.
  lemma ChargedCounts(db: Tables, m: Manifest, sub: SubId, loaded: Submission, r: EvalResult, now: Time)
    requires db.subs.Keys == {sub} && QuotaStateFor(m, r.verdict) == Charged && loaded.quota != Free
             && loaded.quota != Bonus
    ensures
      var row := db.subs[sub];
      CountingOn(Settle(db, m, sub, loaded, r, now).subs, row.Owner(), Day(row.createdAt)) == {sub}
  {
    var row := QuotaRow(ResultRow(db.subs[sub], r.verdict), m, r.verdict, loaded.quota);
    assert Settle(db, m, sub, loaded, r, now).subs == map[sub := row];
  }
}
