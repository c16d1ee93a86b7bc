/** Steps that change committed rows keep the invariant.  Each lemma speaks of the one or two
    tables it changes; what it does not mention is unchanged. */
module CommitSteps {
  import opened Prelude
  import opened Tables
  import opened QuotaWindow
  import opened Protocol
  import opened Invariant
  import opened LocalSteps

  type Subs = map<SubId, Submission>

  // ----- the daily cap

  // Admitting a row while fewer than daily rows are active.
  lemma AdmitCapped(rows: set<SubId>, admitted: map<SubId, int>, sub: SubId, daily: int)
    requires Capped(rows, admitted) && sub !in admitted && |rows| < daily
    ensures Capped(rows + {sub}, admitted[sub := daily])
  {
    var more, admitted' := rows + {sub}, admitted[sub := daily];
    forall t: set<SubId>, most: int | AdmittedWithin(t, admitted', most) && t <= more && t != {}
      ensures |t| <= most
    {
      if sub in t {
        SubsetCard(t - {sub}, rows);
        RemoveCard(t, sub);
      } else {
        assert AdmittedWithin(t, admitted, most) && t <= rows;
      }
    }
  }

  lemma OtherAdmissionCapped(rows: set<SubId>, admitted: map<SubId, int>, sub: SubId, daily: int)
    requires Capped(rows, admitted) && sub !in admitted
    ensures Capped(rows, admitted[sub := daily])
  {
    var admitted' := admitted[sub := daily];
    forall t: set<SubId>, most: int | AdmittedWithin(t, admitted', most) && t <= rows && t != {}
      ensures |t| <= most
    {
      assert AdmittedWithin(t, admitted, most);
    }
  }

  // Usage that only shrinks stays capped, and is no interference.
  lemma ShrinkingUsage(subs: Subs, everReset: set<SubId>, subs': Subs, everReset': set<SubId>,
                       admitted: map<SubId, int>, held: set<Token>)
    requires CapInv(subs, everReset, admitted) && everReset <= everReset'
    requires forall x | x in subs' && IsActive(subs'[x].quota) && x !in everReset' ::
               && x in subs && subs'[x].Owner() == subs[x].Owner() && subs'[x].createdAt == subs[x].createdAt
               && IsActive(subs[x].quota)
    ensures CapInv(subs', everReset', admitted) && RelyUsage(subs, everReset, subs', everReset', held)
  {
    forall a: Account, start: Time | IsWindow(start)
      ensures Capped(NeverReset(subs', everReset', a, start), admitted)
      ensures NeverReset(subs', everReset', a, start) <= NeverReset(subs, everReset, a, start)
    {
      assert NeverReset(subs', everReset', a, start) <= NeverReset(subs, everReset, a, start);
      assert Capped(NeverReset(subs, everReset, a, start), admitted);
    }
  }

  // ----- labs

  lemma RegisterLabStep(s: State, lab: LabId, m: Manifest, s': State)
    requires Inv(s) && RegisterLab(s, lab, m, s')
    ensures Inv(s')
  {
    ShrinkingUsage(s.db.subs, s.hist.everReset, s'.db.subs, s'.hist.everReset, s.hist.admitted, {});
    NewLab(s.db.labs, s.db.subs, s.db.scores, lab, m, s.nextId);
    ConcludeAdmin(s, s', {});
  }

  lemma NewLab(labs: map<LabId, Manifest>, subs: Subs, scores: map<SubId, map<MetricId, real>>, lab: LabId,
               m: Manifest, nextId: nat)
    requires LabsInv(labs) && RowsInv(labs, subs, nextId) && ScoresInv(labs, subs, scores) && lab !in labs
             && m.daily > 0
    ensures LabsInv(labs[lab := m]) && RowsInv(labs[lab := m], subs, nextId) && ScoresInv(labs[lab := m], subs, scores)
    ensures RelyLabs(labs, labs[lab := m])
  {}

  lemma LabEditWriteStep(s: State, p: Pid, s': State)
    requires Inv(s) && LabEditWrite(s, p, s')
    ensures Inv(s')
  {
    var x := s.procs[p];
    assert ProcInv(s, x);
    ShrinkingUsage(s.db.subs, s.hist.everReset, s'.db.subs, s'.hist.everReset, s.hist.admitted, {});
    EditedLab(s.db.labs, s.db.subs, s.db.scores, x.lab, x.next, s.nextId);
    ConcludeWithout(s, s', p, {});
  }

  lemma EditedLab(labs: map<LabId, Manifest>, subs: Subs, scores: map<SubId, map<MetricId, real>>, lab: LabId,
                  m: Manifest, nextId: nat)
    requires LabsInv(labs) && RowsInv(labs, subs, nextId) && ScoresInv(labs, subs, scores)
    requires lab in labs && m.daily > 0 && SameStructure(labs[lab], m)
    ensures LabsInv(labs[lab := m]) && RowsInv(labs[lab := m], subs, nextId) && ScoresInv(labs[lab := m], subs, scores)
    ensures RelyLabs(labs, labs[lab := m])
  {
    assert MetricIds(m) == MetricIds(labs[lab]);
  }

  // ----- intake

  lemma IntakeCommitStep(s: State, p: Pid, s': State)
    requires Inv(s) && IntakeCommit(s, p, s')
    ensures Inv(s')
  {
    var x := s.procs[p];
    OwnedToCommit(x);
    ReadyToCommit(s, x);
    IntakeCommitDb(s, x.req, x.debit, x.sub, x.job, x.used, s', Owned(x));
    ConcludeWithout(s, s', p, Owned(x));
  }

  lemma ReadyToCommit(s: State, x: Proc)
    requires x.Intake? && x.phase == Enqueued && IntakeInv(s, x)
    ensures CanCommit(s, x.req, x.debit, x.sub, x.job, x.used)
  {}

  ghost predicate CanCommit(s: State, req: Request, debit: Option<int>, sub: SubId, job: JobId, used: nat) {
    && req.lab in s.db.labs
    && |NeverReset(s.db.subs, s.hist.everReset, req.Owner(), WindowStart(req.now))| <= used
    && (debit.None? ==> used < req.daily)
    && (debit.Some? ==> req.Owner() in s.db.bonus && debit.value >= 0)
    && req.nonce !in s.db.nonces
    && sub < s.nextId && sub !in s.db.subs && job < s.nextId && job !in s.db.jobs
  }

  lemma IntakeCommitDb(s: State, req: Request, debit: Option<int>, sub: SubId, job: JobId, used: nat, s': State,
                       held: set<Token>)
    requires DbInv(s) && CanCommit(s, req, debit, sub, job, used) && s'.nextId == s.nextId
    requires s'.db == IntakeTables(s.db, req, debit, sub, job)
    requires s'.hist == IntakeHistory(s.hist, req, debit, sub, job)
    requires {DayLock(req.Owner(), WindowStart(req.now)), NonceLock(req.nonce), NewId(sub), NewId(job)} <= held
    requires debit.Some? ==> BonusLock(req.Owner()) in held
    ensures DbInv(s') && Rely(s, s', held)
  {
    CommitSubs(s.db.labs, s.db.subs, s.db.bonus, req, debit, sub, s.nextId, held);
    CommitJobs(s.db.subs, s.db.jobs, s.hist.claims, req, debit, sub, job, s.nextId, held);
    CommitScores(s.db.labs, s.db.subs, s.db.scores, s.db.board, req, debit, sub);
    CommitHistory(s.db.subs, s.hist, req, debit, sub, job);
    CommitNonce(s.db.nonces, s.hist.nonceOf, sub, req.nonce, held);
    CommitUsage(s.db.subs, s.hist, req, debit, sub, job, used, held);
    UnchangedLabs(s.db.labs);
  }

  lemma OwnedToCommit(x: Proc)
    requires x.Intake? && x.phase == Enqueued
    ensures {DayLock(x.req.Owner(), WindowStart(x.req.now)), NonceLock(x.req.nonce)} <= Owned(x)
    ensures {NewId(x.sub), NewId(x.job)} <= Owned(x)
    ensures x.debit.Some? ==> BonusLock(x.req.Owner()) in Owned(x)
  {}

  function SubsWith(subs: Subs, req: Request, debit: Option<int>, sub: SubId): Subs {
    subs[sub := NewSubmission(req, if debit.Some? then Bonus else Pending)]
  }

  lemma CommitSubs(labs: map<LabId, Manifest>, subs: Subs, bonus: map<Account, int>, req: Request, debit: Option<int>,
                   sub: SubId,
                   nextId: nat, held: set<Token>)
    requires RowsInv(labs, subs, nextId) && CreditsInv(subs, bonus) && req.lab in labs && sub < nextId && sub !in subs
    requires debit.Some? ==> req.Owner() in bonus && debit.value >= 0 && BonusLock(req.Owner()) in held
    requires NewId(sub) in held
    ensures
      var subs' := SubsWith(subs, req, debit, sub);
      var bonus' := if debit.Some? then bonus[req.Owner() := debit.value] else bonus;
      && RowsInv(labs, subs', nextId) && CreditsInv(subs', bonus')
      && RelySubs(subs, subs', held) && RelyBonus(bonus, bonus', held)
  {}

  lemma CommitJobs(subs: Subs, jobs: map<JobId, Job>, claims: map<JobId, nat>, req: Request, debit: Option<int>,
                   sub: SubId, job: JobId,
                   nextId: nat, held: set<Token>)
    requires QueueInv(subs, jobs, claims, nextId) && sub !in subs && job !in jobs && job < nextId && NewId(job) in held
    ensures
      var jobs' := jobs[job := NewJob(sub, req.now)];
      QueueInv(SubsWith(subs, req, debit, sub), jobs', claims[job := 0], nextId) && RelyJobs(jobs, jobs', held)
  {}

  lemma CommitScores(labs: map<LabId, Manifest>, subs: Subs, scores: map<SubId, map<MetricId, real>>,
                     board: map<Account, Entry>,
                     req: Request, debit: Option<int>, sub: SubId)
    requires ScoresInv(labs, subs, scores) && BoardInv(subs, scores, board) && sub !in subs
    ensures ScoresInv(labs, SubsWith(subs, req, debit, sub), scores)
            && BoardInv(SubsWith(subs, req, debit, sub), scores, board)
  {}

  lemma CommitHistory(subs: Subs, h: History, req: Request, debit: Option<int>, sub: SubId, job: JobId)
    requires HistoryInv(subs, h) && sub !in subs
    ensures HistoryInv(SubsWith(subs, req, debit, sub), IntakeHistory(h, req, debit, sub, job))
  {
    var subs', h' := SubsWith(subs, req, debit, sub), IntakeHistory(h, req, debit, sub, job);
    forall y | y in subs' ensures RowHistory(h', y, subs'[y].quota) {
      if y in subs && y != sub {
        assert RowHistory(h, y, subs[y].quota);
      }
    }
  }

  lemma CommitNonce(nonces: set<string>, nonceOf: map<SubId, string>, sub: SubId, nonce: string, held: set<Token>)
    requires NoncesInv(nonces, nonceOf) && nonce !in nonces && NonceLock(nonce) in held
    ensures NoncesInv(nonces + {nonce}, nonceOf[sub := nonce]) && RelyNonces(nonces, nonces + {nonce}, held)
  {}

  lemma CommitUsage(subs: Subs, h: History, req: Request, debit: Option<int>, sub: SubId, job: JobId, used: nat,
                    held: set<Token>)
    requires CapInv(subs, h.everReset, h.admitted) && HistoryInv(subs, h) && sub !in subs
    requires |NeverReset(subs, h.everReset, req.Owner(), WindowStart(req.now))| <= used
    requires debit.None? ==> used < req.daily
    requires DayLock(req.Owner(), WindowStart(req.now)) in held
    ensures
      var subs', h' := SubsWith(subs, req, debit, sub), IntakeHistory(h, req, debit, sub, job);
      CapInv(subs', h'.everReset, h'.admitted) && RelyUsage(subs, h.everReset, subs', h'.everReset, held)
  {
    var subs', h' := SubsWith(subs, req, debit, sub), IntakeHistory(h, req, debit, sub, job);
    forall a: Account, start: Time | IsWindow(start)
      ensures Capped(NeverReset(subs', h'.everReset, a, start), h'.admitted)
      ensures DayLock(a, start) in held
              || NeverReset(subs', h'.everReset, a, start) <= NeverReset(subs, h.everReset, a, start)
    {
      var rows := NeverReset(subs, h.everReset, a, start);
      assert Capped(rows, h.admitted);
      CommitRows(subs, h.everReset, req, debit, sub, a, start);
      if debit.None? {
        if a == req.Owner() && start == WindowStart(req.now) {
          AdmitCapped(rows, h.admitted, sub, req.daily);
        } else {
          OtherAdmissionCapped(rows, h.admitted, sub, req.daily);
        }
      }
    }
  }

  lemma CommitRows(subs: Subs, everReset: set<SubId>, req: Request, debit: Option<int>, sub: SubId, a: Account,
                   start: Time)
    requires sub !in subs && sub !in everReset && IsWindow(start)
    ensures
      var rows := NeverReset(subs, everReset, a, start);
      NeverReset(SubsWith(subs, req, debit, sub), everReset, a, start) ==
        if debit.None? && a == req.Owner() && start == WindowStart(req.now) then rows + {sub} else rows
  {
    WindowsPartition(req.now, start);
  }

  // ----- the job queue

  lemma JobRow(subs: Subs, jobs: map<JobId, Job>, claims: map<JobId, nat>, j: JobId, job: Job, n: nat, nextId: nat)
    requires QueueInv(subs, jobs, claims, nextId) && j in jobs && job.submission == jobs[j].submission
             && job.attempts == n
    requires if job.status == Queued then job.worker.None? else job.worker.Some?
    ensures QueueInv(subs, jobs[j := job], claims[j := n], nextId) && RelyJobs(jobs, jobs[j := job], {JobClaim(j)})
  {}

  lemma ClaimCommitStep(s: State, p: Pid, s': State)
    requires Inv(s) && ClaimCommit(s, p, s')
    ensures Inv(s')
  {
    hide DbInv, ProcsInv, Exclusive, Rely;
    var x, y := s.procs[p], s'.procs[p];
    var j := x.task.job;
    ClaimedDb(s, j, x.id, s');
    ClaimedProc(s', y, j);
    Conclude(s, s', p, y, {}, {JobClaim(j)});
  }

  lemma ClaimedDb(s: State, j: JobId, w: WorkerId, s': State)
    requires DbInv(s) && j in s.db.jobs && s'.nextId == s.nextId
    requires s'.db == s.db.(jobs := s.db.jobs[j := JobMarkedRunning(s.db.jobs[j], w)])
    requires s'.hist == s.hist.(claims := s.hist.claims[j := GetOr(s.hist.claims, j, 0) + 1])
    ensures DbInv(s') && Rely(s, s', {JobClaim(j)})
  {
    assert s.hist.claims[j] == s.db.jobs[j].attempts by {
      assert QueueInv(s.db.subs, s.db.jobs, s.hist.claims, s.nextId);
    }
    JobRowDb(s, j, JobMarkedRunning(s.db.jobs[j], w), s');
  }

  lemma ClaimedProc(s: State, y: Proc, j: JobId)
    requires y.Worker? && y.task == Working(j, JobClaimed) && HeldBy(s.db, j, y.id)
    ensures ProcInv(s, y)
  {}

  // One job row changes, its claim count with it.
  lemma JobRowDb(s: State, j: JobId, job: Job, s': State)
    requires DbInv(s) && j in s.db.jobs && job.submission == s.db.jobs[j].submission
    requires if job.status == Queued then job.worker.None? else job.worker.Some?
    requires s'.db == s.db.(jobs := s.db.jobs[j := job]) && s'.nextId == s.nextId
    requires s'.hist == s.hist.(claims := s.hist.claims[j := job.attempts])
    ensures DbInv(s') && Rely(s, s', {JobClaim(j)})
  {
    var held := {JobClaim(j)};
    JobRow(s.db.subs, s.db.jobs, s.hist.claims, j, job, job.attempts, s.nextId);
    ClaimHistory(s.db.subs, s.hist, s'.hist.claims);
    ShrinkingUsage(s.db.subs, s.hist.everReset, s.db.subs, s.hist.everReset, s.hist.admitted, held);
    UnchangedLabs(s.db.labs);
    UnchangedSubs(s.db.subs, held);
    UnchangedBonus(s.db.bonus, held);
    UnchangedNonces(s.db.nonces, held);
  }

  lemma ClaimHistory(subs: Subs, h: History, claims: map<JobId, nat>)
    requires HistoryInv(subs, h)
    ensures HistoryInv(subs, h.(claims := claims))
  {
    forall y | y in subs ensures RowHistory(h.(claims := claims), y, subs[y].quota) {
      assert RowHistory(h, y, subs[y].quota);
    }
  }

  lemma SettleJobDb(s: State, j: JobId, w: WorkerId, o: Outcome, s': State)
    requires DbInv(s) && LegalOutcome(o) && HeldBy(s.db, j, w)
    requires s'.db == SettleJob(s.db, j, w, o) && s'.nextId == s.nextId && s'.hist == s.hist
    ensures DbInv(s') && Rely(s, s', {JobClaim(j)})
  {
    var job := JobAfter(s.db.jobs[j], o);
    assert job.attempts == s.hist.claims[j];
    assert s.hist.claims == s.hist.claims[j := job.attempts];
    JobRowDb(s, j, job, s');
  }

  // Acknowledge and Retry by the worker itself.
  lemma WorkerReleaseStep(s: State, p: Pid, o: Outcome, s': State)
    requires Inv(s) && IsWorking(s, p) && LegalOutcome(o)
    requires HeldBy(s.db, s.procs[p].task.job, s.procs[p].id)
    requires s' == WithTask(s, p, Idle).(db := SettleJob(s.db, s.procs[p].task.job, s.procs[p].id, o))
    ensures Inv(s')
  {
    var x := s.procs[p];
    SettleJobDb(s, x.task.job, x.id, o, s');
    Conclude(s, s', p, s'.procs[p], {}, {JobClaim(x.task.job)});
  }

  lemma QueueCallStep(s: State, j: JobId, w: WorkerId, o: Outcome, s': State)
    requires Inv(s) && QueueCall(s, j, w, o, s')
    ensures Inv(s')
  {
    if HeldBy(s.db, j, w) {
      SettleJobDb(s, j, w, o, s');
      NobodyClaims(s, j, w);
      ConcludeAdmin(s, s', {JobClaim(j)});
    } else {
      assert s' == s;
    }
  }

  // Only a live worker of that name can own the claim of a job running under it.
  lemma NobodyClaims(s: State, j: JobId, w: WorkerId)
    requires ProcsInv(s) && HeldBy(s.db, j, w)
    requires forall q | q in s.procs && s.procs[q].Worker? && JobClaim(j) in Owned(s.procs[q]) :: s.procs[q].id != w
    ensures NobodyHolds(s, {JobClaim(j)})
  {
    forall q | q in s.procs ensures JobClaim(j) !in Owned(s.procs[q]) {
      if JobClaim(j) in Owned(s.procs[q]) {
        ClaimOwner(s, s.procs[q], j);
      }
    }
  }

  // ----- submission rows

  // A row keeps its identity; its quota state may change as its history allows.
  lemma SubRow(labs: map<LabId, Manifest>, subs: Subs, scores: map<SubId, map<MetricId, real>>,
               board: map<Account, Entry>, jobs: map<JobId, Job>, claims: map<JobId, nat>, nextId: nat,
               sub: SubId, row: Submission)
    requires sub in subs && row.Owner() == subs[sub].Owner()
    requires RowsInv(labs, subs, nextId) && ScoresInv(labs, subs, scores) && BoardInv(subs, scores, board)
             && QueueInv(subs, jobs, claims, nextId)
    ensures
      var subs' := subs[sub := row];
      && RowsInv(labs, subs', nextId) && ScoresInv(labs, subs', scores) && BoardInv(subs', scores, board)
      && QueueInv(subs', jobs, claims, nextId)
  {}

  lemma SubRowHistory(subs: Subs, h: History, sub: SubId, row: Submission)
    requires sub in subs && HistoryInv(subs, h) && RowHistory(h, sub, row.quota)
    ensures HistoryInv(subs[sub := row], h)
  {}

  lemma SubRowRely(subs: Subs, sub: SubId, row: Submission, held: set<Token>)
    requires sub in subs && RelySub(sub, subs[sub], row, held)
    ensures RelySubs(subs, subs[sub := row], held)
  {}

  lemma MarkRunningStep(s: State, p: Pid, s': State)
    requires Inv(s) && MarkRunning(s, p, s')
    ensures Inv(s')
  {
    hide DbInv, ProcsInv, Exclusive, Rely, ProcInv;
    var x, y := s.procs[p], s'.procs[p];
    var sub := x.task.stage.snap.sub;
    MarkRunningDb(s, sub, s');
    ProcOf(s, p);
    MarkedProc(s, x, sub, s', y);
    Conclude(s, s', p, y, {SubLock(sub)}, {SubLock(sub)});
  }

  lemma MarkedProc(s: State, x: Proc, sub: SubId, s': State, y: Proc)
    requires x.Worker? && x.task.Working? && x.task.stage.HasManifest? && x.task.stage.snap.sub == sub && ProcInv(s, x)
    requires sub in s.db.subs
    requires s'.db == UpdateSubmissionRow(s.db, sub, s.db.subs[sub].(status := SubmissionRunning))
    requires y == x.(task := Working(x.task.job, MarkedRunning(x.task.stage.snap, x.task.stage.m)))
    ensures ProcInv(s', y)
  {}

  lemma MarkRunningDb(s: State, sub: SubId, s': State)
    requires DbInv(s) && sub in s.db.subs
    requires s'.db == UpdateSubmissionRow(s.db, sub, s.db.subs[sub].(status := SubmissionRunning))
    requires s'.nextId == s.nextId && s'.hist == s.hist
    ensures DbInv(s') && Rely(s, s', {SubLock(sub)})
  {
    var row := s.db.subs[sub].(status := SubmissionRunning);
    SubRow(s.db.labs, s.db.subs, s.db.scores, s.db.board, s.db.jobs, s.hist.claims, s.nextId, sub, row);
    SubRowHistory(s.db.subs, s.hist, sub, row);
    SubRowRely(s.db.subs, sub, row, {SubLock(sub)});
    ShrinkingUsage(s.db.subs, s.hist.everReset, s'.db.subs, s'.hist.everReset, s.hist.admitted, {SubLock(sub)});
  }
}
