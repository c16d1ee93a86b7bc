/** Intake requests, workers and administrators as processes that interleave statement by
    statement over the committed tables.

    A transaction keeps the row images it has written private until it commits, holds the row,
    key and advisory locks it has taken until it ends, and reads committed data (its own writes
    are never re-read).  Whatever happens to a process between two of its statements, including
    its death, is a step of the system. */
module Protocol {
  import opened Prelude
  import opened Tables
  import opened QuotaWindow
  import opened Evaluation

  type Pid = nat

  // ----- processes

  // A submission request that passed the checks made before the transaction begins;
  // daily is the quota of the manifest it read, now the time its transaction began.
  datatype Request = Request(user: UserId, lab: LabId, nonce: string, artifactKey: string, contentHash: string,
                             now: Time, daily: int)
  {
    function Owner(): Account { Account(user, lab) }
  }

  datatype IntakePhase = Begun | Locked | Counted | Debited | Saved | Reserved | Inserted | Enqueued

  function Rank(ph: IntakePhase): nat {
    match ph
    case Begun => 0 case Locked => 1 case Counted => 2 case Debited => 3
    case Saved => 4 case Reserved => 5 case Inserted => 6 case Enqueued => 7
  }

  // The submission as the worker loaded it.
  datatype Snapshot = Snapshot(sub: SubId, row: Submission)

  // An open Persist transaction: the images it has written so far.
  datatype PersistTx = PersistTx(row: Submission, quotaDone: bool, credit: Option<int>,
                                 scored: map<MetricId, real>, entry: Option<Entry>)

  datatype Stage =
    | JobClaimed
    | HasSubmission(snap: Snapshot)
    | HasManifest(snap: Snapshot, m: Manifest)
    | MarkedRunning(snap: Snapshot, m: Manifest)
    | HasResult(snap: Snapshot, m: Manifest, r: EvalResult)
    | Persisting(snap: Snapshot, m: Manifest, r: EvalResult, tx: PersistTx)
    | Persisted(snap: Snapshot, r: EvalResult)

  datatype Task = Idle | Claiming(job: JobId, marked: bool) | Working(job: JobId, stage: Stage)

  datatype Proc =
    | Intake(req: Request, phase: IntakePhase, used: nat, debit: Option<int>, sub: SubId, job: JobId)
    | Worker(id: WorkerId, task: Task)
    | Cleanup(key: string)
    | LabEdit(lab: LabId, next: Manifest)
    | Reevaluation(lab: LabId, rows: seq<SubId>, made: seq<Copy>)

  // The rows inserted for one leaderboard entry.
  datatype Copy = Copy(sub: SubId, job: JobId, row: Submission)

  // What a process alone may touch: the database locks it holds, the ids it has drawn,
  // and the job and submission its claim entitles it to.
  datatype Token =
    | DayLock(account: Account, start: Time)
    | BonusLock(account: Account)
    | NonceLock(nonce: string)
    | JobLock(job: JobId)
    | SubLock(sub: SubId)
    | BoardLock(account: Account)
    | NewId(id: nat)
    | JobClaim(job: JobId)
    | WorkOn(sub: SubId)

  function SnapToken(st: Stage): set<Token> {
    if st.JobClaimed? then {} else {WorkOn(st.snap.sub)}
  }

  function TxTokens(st: Stage): set<Token> {
    if !st.Persisting? then {} else
      {SubLock(st.snap.sub)}
      + (if st.tx.credit.Some? then {BonusLock(st.tx.row.Owner())} else {})
      + (if st.tx.entry.Some? then {BoardLock(st.snap.row.Owner())} else {})
  }

  function Owned(proc: Proc): set<Token> {
    match proc
    case Intake(req, ph, _, debit, sub, job) =>
      (if Rank(ph) >= Rank(Locked) then {DayLock(req.Owner(), WindowStart(req.now))} else {})
      + (if debit.Some? then {BonusLock(req.Owner())} else {})
      + (if Rank(ph) >= Rank(Reserved) then {NonceLock(req.nonce)} else {})
      + (if Rank(ph) >= Rank(Inserted) then {NewId(sub)} else {})
      + (if Rank(ph) >= Rank(Enqueued) then {NewId(job)} else {})
    case Worker(_, Idle) => {}
    case Worker(_, Claiming(j, _)) => {JobLock(j), JobClaim(j)}
    case Worker(_, Working(j, st)) => {JobClaim(j)} + SnapToken(st) + TxTokens(st)
    case Cleanup(_) => {}
    case LabEdit(_, _) => {}
    case Reevaluation(_, _, made) =>
      (set i | 0 <= i < |made| :: NewId(made[i].sub)) + (set i | 0 <= i < |made| :: NewId(made[i].job))
  }

  // ----- states

  // What happened so far; no statement reads it.
  datatype History = History(everReset: set<SubId>, admitted: map<SubId, int>, bornBonus: set<SubId>,
                             nonceOf: map<SubId, string>, reevals: set<SubId>, claims: map<JobId, nat>)

  datatype State = State(db: Tables, artifacts: set<string>, procs: map<Pid, Proc>, nextId: nat, hist: History)

  predicate Init(s: State) {
    s == State(EMPTY, {}, map[], 0, History({}, map[], {}, map[], {}, map[]))
  }

  // No other process holds the lock.
  ghost predicate LockFree(s: State, p: Pid, t: Token) {
    forall q | q in s.procs && q != p :: t !in Owned(s.procs[q])
  }

  ghost predicate NobodyHolds(s: State, ts: set<Token>) {
    forall q | q in s.procs :: Owned(s.procs[q]) !! ts
  }

  ghost predicate IsIntake(s: State, p: Pid, ph: IntakePhase) {
    p in s.procs && s.procs[p].Intake? && s.procs[p].phase == ph
  }

  ghost predicate IsWorking(s: State, p: Pid) {
    p in s.procs && s.procs[p].Worker? && s.procs[p].task.Working?
  }

  function With(s: State, p: Pid, proc: Proc): State { s.(procs := s.procs[p := proc]) }

  function Without(s: State, p: Pid): State { s.(procs := s.procs - {p}) }

  function WithStage(s: State, p: Pid, st: Stage): State
    requires p in s.procs && s.procs[p].Worker? && s.procs[p].task.Working?
  {
    With(s, p, s.procs[p].(task := Working(s.procs[p].task.job, st)))
  }

  function WithTask(s: State, p: Pid, t: Task): State
    requires p in s.procs && s.procs[p].Worker?
  {
    With(s, p, s.procs[p].(task := t))
  }

  // ----- labs

  ghost predicate RegisterLab(s: State, lab: LabId, m: Manifest, s': State) {
    lab !in s.db.labs && ValidManifest(m) && s' == s.(db := s.db.(labs := s.db.labs[lab := m]))
  }

  ghost predicate LabEditCheck(s: State, p: Pid, lab: LabId, m: Manifest, s': State) {
    && p !in s.procs && lab in s.db.labs && ValidManifest(m) && SameStructure(s.db.labs[lab], m)
    && s' == With(s, p, LabEdit(lab, m))
  }

  ghost predicate LabEditWrite(s: State, p: Pid, s': State) {
    && p in s.procs && s.procs[p].LabEdit?
    && s' == Without(s, p).(db := s.db.(labs := s.db.labs[s.procs[p].lab := s.procs[p].next]))
  }

  // ----- intake

  ghost predicate IntakeBegin(s: State, p: Pid, req: Request, s': State) {
    && p !in s.procs && req.lab in s.db.labs && req.daily == s.db.labs[req.lab].daily
    && s' == With(s, p, Intake(req, Begun, 0, None, 0, 0))
  }

  ghost predicate IntakeLock(s: State, p: Pid, s': State) {
    && IsIntake(s, p, Begun)
    && LockFree(s, p, DayLock(s.procs[p].req.Owner(), WindowStart(s.procs[p].req.now)))
    && s' == With(s, p, s.procs[p].(phase := Locked))
  }

  function CountedUse(db: Tables, req: Request): nat {
    if req.daily <= 0 then 0 else Usage(db, req.Owner(), WindowStart(req.now), WindowEnd(req.now))
  }

  predicate Exhausted(req: Request, used: nat) { req.daily > 0 && used >= req.daily }

  ghost predicate IntakeCount(s: State, p: Pid, s': State) {
    && IsIntake(s, p, Locked)
    && s' == With(s, p, s.procs[p].(phase := Counted, used := CountedUse(s.db, s.procs[p].req)))
  }

  ghost predicate IntakeDebit(s: State, p: Pid, s': State) {
    && IsIntake(s, p, Counted) && Exhausted(s.procs[p].req, s.procs[p].used)
    && LockFree(s, p, BonusLock(s.procs[p].req.Owner()))
    && ConsumeBonus(s.db, s.procs[p].req.Owner()).Some?
    && s' == With(s, p, s.procs[p].(phase := Debited, debit := ConsumeBonus(s.db, s.procs[p].req.Owner())))
  }

  ghost predicate IntakeSave(s: State, p: Pid, s': State) {
    && (IsIntake(s, p, Debited) || (IsIntake(s, p, Counted) && !Exhausted(s.procs[p].req, s.procs[p].used)))
    && s' == With(s, p, s.procs[p].(phase := Saved)).(artifacts := s.artifacts + {s.procs[p].req.artifactKey})
  }

  ghost predicate IntakeReserve(s: State, p: Pid, s': State) {
    && IsIntake(s, p, Saved)
    && LockFree(s, p, NonceLock(s.procs[p].req.nonce)) && s.procs[p].req.nonce !in s.db.nonces
    && s' == With(s, p, s.procs[p].(phase := Reserved))
  }

  ghost predicate IntakeInsert(s: State, p: Pid, s': State) {
    && IsIntake(s, p, Reserved)
    && s' == With(s, p, s.procs[p].(phase := Inserted, sub := s.nextId)).(nextId := s.nextId + 1)
  }

  ghost predicate IntakeEnqueue(s: State, p: Pid, s': State) {
    && IsIntake(s, p, Inserted)
    && s' == With(s, p, s.procs[p].(phase := Enqueued, job := s.nextId)).(nextId := s.nextId + 1)
  }

  function NewSubmission(req: Request, quota: QuotaState): Submission {
    Submission(req.user, req.lab, req.artifactKey, req.contentHash, SubmissionQueued, None, quota, req.now)
  }

  function NewJob(sub: SubId, now: Time): Job { Job(sub, Queued, None, 0, now, now) }

  function IntakeTables(db: Tables, req: Request, debit: Option<int>, sub: SubId, job: JobId): Tables {
    db.(subs := db.subs[sub := NewSubmission(req, if debit.Some? then Bonus else Pending)],
        jobs := db.jobs[job := NewJob(sub, req.now)],
        nonces := db.nonces + {req.nonce},
        bonus := if debit.Some? then db.bonus[req.Owner() := debit.value] else db.bonus)
  }

  function IntakeHistory(h: History, req: Request, debit: Option<int>, sub: SubId, job: JobId): History {
    h.(admitted := if debit.Some? then h.admitted else h.admitted[sub := req.daily],
       bornBonus := if debit.Some? then h.bornBonus + {sub} else h.bornBonus,
       nonceOf := h.nonceOf[sub := req.nonce],
       claims := h.claims[job := 0])
  }

  ghost predicate IntakeCommit(s: State, p: Pid, s': State) {
    && IsIntake(s, p, Enqueued)
    && var x := s.procs[p];
       s' == Without(s, p).(db := IntakeTables(s.db, x.req, x.debit, x.sub, x.job),
                            hist := IntakeHistory(s.hist, x.req, x.debit, x.sub, x.job))
  }

  // The intake has saved its artifact.
  predicate HasSaved(x: Proc) { x.Intake? && Rank(x.phase) >= Rank(Saved) }

  // Any error return, and the death of the process: the transaction is rolled back, which frees
  // its locks, and only then the deferred clean-up turns to a saved artifact.
  ghost predicate IntakeAbort(s: State, p: Pid, s': State) {
    && p in s.procs && s.procs[p].Intake?
    && s' == if HasSaved(s.procs[p]) then With(s, p, Cleanup(s.procs[p].req.artifactKey)) else Without(s, p)
  }

  // The artifact is deleted again, unless the deletion fails or never happens.
  ghost predicate CleanUp(s: State, p: Pid, deleted: bool, s': State) {
    && p in s.procs && s.procs[p].Cleanup?
    && s' == Without(s, p).(artifacts := if deleted then s.artifacts - {s.procs[p].key} else s.artifacts)
  }

  // ----- workers

  ghost predicate WorkerStart(s: State, p: Pid, id: WorkerId, s': State) {
    p !in s.procs && s' == With(s, p, Worker(id, Idle))
  }

  // FOR UPDATE SKIP LOCKED: the first claimable job, in queue order, among those nobody has locked.
  ghost predicate ClaimSelect(s: State, p: Pid, j: JobId, now: Time, s': State) {
    && p in s.procs && s.procs[p].Worker? && s.procs[p].task == Idle
    && Claimable(s.db, j, now) && LockFree(s, p, JobLock(j))
    && (forall k | Claimable(s.db, k, now) && LockFree(s, p, JobLock(k)) :: ClaimsBefore(s.db.jobs[j], s.db.jobs[k]))
    && s' == WithTask(s, p, Claiming(j, false))
  }

  ghost predicate ClaimMark(s: State, p: Pid, s': State) {
    && p in s.procs && s.procs[p].Worker? && s.procs[p].task.Claiming? && !s.procs[p].task.marked
    && s' == WithTask(s, p, Claiming(s.procs[p].task.job, true))
  }

  ghost predicate ClaimCommit(s: State, p: Pid, s': State) {
    && p in s.procs && s.procs[p].Worker? && s.procs[p].task.Claiming? && s.procs[p].task.marked
    && s.procs[p].task.job in s.db.jobs
    && var j := s.procs[p].task.job;
       s' == WithTask(s, p, Working(j, JobClaimed)).(
         db := s.db.(jobs := s.db.jobs[j := JobMarkedRunning(s.db.jobs[j], s.procs[p].id)]),
         hist := s.hist.(claims := s.hist.claims[j := GetOr(s.hist.claims, j, 0) + 1]))
  }

  ghost predicate LoadSubmission(s: State, p: Pid, s': State) {
    && IsWorking(s, p) && s.procs[p].task.stage.JobClaimed?
    && s.procs[p].task.job in s.db.jobs && s.db.jobs[s.procs[p].task.job].submission in s.db.subs
    && var sub := s.db.jobs[s.procs[p].task.job].submission;
       s' == WithStage(s, p, HasSubmission(Snapshot(sub, s.db.subs[sub])))
  }

  ghost predicate LoadManifest(s: State, p: Pid, s': State) {
    && IsWorking(s, p) && s.procs[p].task.stage.HasSubmission?
    && var snap := s.procs[p].task.stage.snap;
       && snap.row.lab in s.db.labs
       && s' == WithStage(s, p, HasManifest(snap, s.db.labs[snap.row.lab]))
  }

  ghost predicate MarkRunning(s: State, p: Pid, s': State) {
    && IsWorking(s, p) && s.procs[p].task.stage.HasManifest?
    && var st := s.procs[p].task.stage;
       && LockFree(s, p, SubLock(st.snap.sub)) && st.snap.sub in s.db.subs
       && s' == WithStage(s, p, MarkedRunning(st.snap, st.m)).(
            db := UpdateSubmissionRow(s.db, st.snap.sub, s.db.subs[st.snap.sub].(status := SubmissionRunning)))
  }

  // The container ran, or failed: any result at all.
  ghost predicate Evaluate(s: State, p: Pid, r: EvalResult, s': State) {
    && IsWorking(s, p) && s.procs[p].task.stage.MarkedRunning?
    && var st := s.procs[p].task.stage;
       s' == WithStage(s, p, HasResult(st.snap, st.m, r))
  }

  ghost predicate PersistResult(s: State, p: Pid, s': State) {
    && IsWorking(s, p) && s.procs[p].task.stage.HasResult?
    && var st := s.procs[p].task.stage;
       && ValidResult(st.m, st.r)
       && LockFree(s, p, SubLock(st.snap.sub)) && st.snap.sub in s.db.subs
       && s' == WithStage(s, p, Persisting(st.snap, st.m, st.r,
            PersistTx(ResultRow(s.db.subs[st.snap.sub], st.r.verdict), false, None, map[], None)))
  }

  ghost predicate IsPersisting(s: State, p: Pid) {
    IsWorking(s, p) && s.procs[p].task.stage.Persisting?
  }

  function WithTx(s: State, p: Pid, tx: PersistTx): State
    requires p in s.procs && s.procs[p].Worker? && s.procs[p].task.Working? && s.procs[p].task.stage.Persisting?
  {
    WithStage(s, p, s.procs[p].task.stage.(tx := tx))
  }

  ghost predicate PersistQuota(s: State, p: Pid, s': State) {
    && IsPersisting(s, p) && !s.procs[p].task.stage.tx.quotaDone
    && var st := s.procs[p].task.stage;
       var credit := RefundedCredit(s.db, st.tx.row, st.m, st.r.verdict, st.snap.row.quota);
       && (credit.Some? ==> LockFree(s, p, BonusLock(st.tx.row.Owner())) && credit.value <= INT32_MAX)
       && s' == WithTx(s, p, st.tx.(row := QuotaRow(st.tx.row, st.m, st.r.verdict, st.snap.row.quota),
                                    quotaDone := true, credit := credit))
  }

  ghost predicate PersistScore(s: State, p: Pid, k: MetricId, s': State) {
    && IsPersisting(s, p) && s.procs[p].task.stage.tx.quotaDone
    && var st := s.procs[p].task.stage;
       && st.r.verdict == Scored && k in st.r.scores && k !in st.tx.scored && st.tx.entry.None?
       && s' == WithTx(s, p, st.tx.(scored := st.tx.scored[k := st.r.scores[k]]))
  }

  ghost predicate PersistEntry(s: State, p: Pid, now: Time, s': State) {
    && IsPersisting(s, p) && s.procs[p].task.stage.tx.quotaDone
    && var st := s.procs[p].task.stage;
       && st.r.verdict == Scored && st.tx.scored.Keys == st.r.scores.Keys && st.tx.entry.None?
       && LockFree(s, p, BoardLock(st.snap.row.Owner()))
       && s' == WithTx(s, p, st.tx.(entry := Some(Entry(st.snap.sub, now))))
  }

  function WithScores(scores: map<SubId, map<MetricId, real>>, sub: SubId,
                      scored: map<MetricId, real>): map<SubId, map<MetricId, real>>
  {
    scores[sub := GetOr(scores, sub, map[]) + scored]
  }

  function PersistTables(db: Tables, snap: Snapshot, tx: PersistTx): Tables {
    db.(subs := db.subs[snap.sub := tx.row],
        bonus := if tx.credit.Some? then db.bonus[tx.row.Owner() := tx.credit.value] else db.bonus,
        scores := if tx.entry.Some? then WithScores(db.scores, snap.sub, tx.scored) else db.scores,
        board := if tx.entry.Some? then db.board[snap.row.Owner() := tx.entry.value] else db.board)
  }

  ghost predicate PersistCommit(s: State, p: Pid, s': State) {
    && IsPersisting(s, p)
    && var st := s.procs[p].task.stage;
       && st.tx.quotaDone && (st.r.verdict == Scored ==> st.tx.entry.Some?)
       && s' == WithStage(s, p, Persisted(st.snap, st.r)).(db := PersistTables(s.db, st.snap, st.tx))
  }

  // The worker reports its own job; an update of no row is an error, which ends the worker.
  ghost predicate Acknowledge(s: State, p: Pid, s': State) {
    && IsWorking(s, p) && s.procs[p].task.stage.Persisted? && HeldBy(s.db, s.procs[p].task.job, s.procs[p].id)
    && var o := Acknowledged(if s.procs[p].task.stage.r.verdict == Failed then Error else Done);
       s' == WithTask(s, p, Idle).(db := SettleJob(s.db, s.procs[p].task.job, s.procs[p].id, o))
  }

  ghost predicate Retry(s: State, p: Pid, at: Time, s': State) {
    && IsWorking(s, p) && !s.procs[p].task.stage.Persisting? && HeldBy(s.db, s.procs[p].task.job, s.procs[p].id)
    && s' == WithTask(s, p, Idle).(db := SettleJob(s.db, s.procs[p].task.job, s.procs[p].id, Retried(at)))
  }

  ghost predicate WorkerCrash(s: State, p: Pid, s': State) {
    p in s.procs && s.procs[p].Worker? && s' == Without(s, p)
  }

  // Acknowledge or Retry called by anyone else, for any job and in the name of any worker other
  // than one that is still working on that very job: a worker that lost its job, or an operator
  // who requeues the job of a dead worker.
  ghost predicate QueueCall(s: State, j: JobId, w: WorkerId, o: Outcome, s': State) {
    && LegalOutcome(o)
    && (forall q | q in s.procs && s.procs[q].Worker? && JobClaim(j) in Owned(s.procs[q]) :: s.procs[q].id != w)
    && s' == s.(db := SettleJob(s.db, j, w, o))
  }

  // ----- administration

  ghost predicate DailyReset(s: State, lab: LabId, since: Time, visible: set<SubId>, s': State) {
    var rows := ResetRows(s.db, lab, since, visible);
    && NobodyHolds(s, set x | x in rows :: SubLock(x))
    && s' == s.(db := AdminResetLabQuota(s.db, rows), hist := s.hist.(everReset := s.hist.everReset + rows))
  }

  ghost predicate BonusAdjust(s: State, lab: LabId, delta: int, visible: set<SubId>, s': State) {
    var accounts := Participants(s.db, lab, visible);
    && AdjustFits(s.db, delta, accounts)
    && NobodyHolds(s, set a | a in accounts :: BonusLock(a))
    && s' == s.(db := AdjustBonus(s.db, delta, accounts))
  }

  ghost predicate BonusReset(s: State, lab: LabId, visible: set<Account>, s': State) {
    var accounts := PositiveBonusRows(s.db, lab, visible);
    && NobodyHolds(s, set a | a in accounts :: BonusLock(a))
    && s' == s.(db := ResetBonus(s.db, accounts))
  }

  // accounts lists each leaderboard row of the lab once, in any order.
  ghost predicate ListsBoard(db: Tables, lab: LabId, accounts: seq<Account>) {
    && (forall a :: a in accounts <==> a in db.board && a.lab == lab)
    && (forall i, j | 0 <= i < j < |accounts| :: accounts[i] != accounts[j])
  }

  ghost predicate ReevalBegin(s: State, p: Pid, lab: LabId, accounts: seq<Account>, s': State) {
    && p !in s.procs && lab in s.db.labs && ListsBoard(s.db, lab, accounts)
    && var rows := seq(|accounts|, i requires 0 <= i < |accounts| =>
                       if accounts[i] in s.db.board then s.db.board[accounts[i]].submission else 0);
       s' == With(s, p, Reevaluation(lab, rows, []))
  }

  function FreeCopy(row: Submission, now: Time): Submission {
    Submission(row.user, row.lab, row.artifactKey, row.contentHash, SubmissionQueued, None, Free, now)
  }

  // Read the next original, insert its free copy and the copy's job.
  ghost predicate ReevalRow(s: State, p: Pid, now: Time, s': State) {
    && p in s.procs && s.procs[p].Reevaluation? && |s.procs[p].made| < |s.procs[p].rows|
    && s.procs[p].rows[|s.procs[p].made|] in s.db.subs
    && var x := s.procs[p];
       var copy := Copy(s.nextId, s.nextId + 1, FreeCopy(s.db.subs[x.rows[|x.made|]], now));
       s' == With(s, p, x.(made := x.made + [copy])).(nextId := s.nextId + 2)
  }

  function MadeSubs(made: seq<Copy>): map<SubId, Submission> {
    if made == [] then map[] else
      var last := made[|made| - 1];
      MadeSubs(made[..|made| - 1])[last.sub := last.row]
  }

  function MadeJobs(made: seq<Copy>): map<JobId, Job> {
    if made == [] then map[] else
      var last := made[|made| - 1];
      MadeJobs(made[..|made| - 1])[last.job := NewJob(last.sub, last.row.createdAt)]
  }

  function MadeClaims(made: seq<Copy>): map<JobId, nat> { map j | j in MadeJobs(made) :: 0 }

  function ReevalTables(db: Tables, made: seq<Copy>): Tables {
    db.(subs := db.subs + MadeSubs(made), jobs := db.jobs + MadeJobs(made))
  }

  ghost predicate ReevalCommit(s: State, p: Pid, s': State) {
    && p in s.procs && s.procs[p].Reevaluation? && |s.procs[p].made| == |s.procs[p].rows|
    && var made := s.procs[p].made;
       s' == Without(s, p).(db := ReevalTables(s.db, made),
                            hist := s.hist.(reevals := s.hist.reevals + MadeSubs(made).Keys,
                                            claims := s.hist.claims + MadeClaims(made)))
  }

  // A lab edit or a reevaluation that stops half-way.
  ghost predicate AdminAbort(s: State, p: Pid, s': State) {
    p in s.procs && (s.procs[p].LabEdit? || s.procs[p].Reevaluation?) && s' == Without(s, p)
  }

  // ----- one step of the system

  datatype Step =
    | StepRegisterLab(lab: LabId, m: Manifest)
    | StepLabEditCheck(p: Pid, lab: LabId, m: Manifest)
    | StepLabEditWrite(p: Pid)
    | StepIntakeBegin(p: Pid, req: Request)
    | StepIntakeLock(p: Pid)
    | StepIntakeCount(p: Pid)
    | StepIntakeDebit(p: Pid)
    | StepIntakeSave(p: Pid)
    | StepIntakeReserve(p: Pid)
    | StepIntakeInsert(p: Pid)
    | StepIntakeEnqueue(p: Pid)
    | StepIntakeCommit(p: Pid)
    | StepIntakeAbort(p: Pid)
    | StepCleanUp(p: Pid, deleted: bool)
    | StepWorkerStart(p: Pid, w: WorkerId)
    | StepClaimSelect(p: Pid, j: JobId, now: Time)
    | StepClaimMark(p: Pid)
    | StepClaimCommit(p: Pid)
    | StepLoadSubmission(p: Pid)
    | StepLoadManifest(p: Pid)
    | StepMarkRunning(p: Pid)
    | StepEvaluate(p: Pid, r: EvalResult)
    | StepPersistResult(p: Pid)
    | StepPersistQuota(p: Pid)
    | StepPersistScore(p: Pid, k: MetricId)
    | StepPersistEntry(p: Pid, now: Time)
    | StepPersistCommit(p: Pid)
    | StepAcknowledge(p: Pid)
    | StepRetry(p: Pid, at: Time)
    | StepWorkerCrash(p: Pid)
    | StepQueueCall(j: JobId, w: WorkerId, o: Outcome)
    | StepDailyReset(lab: LabId, since: Time, visible: set<SubId>)
    | StepBonusAdjust(lab: LabId, delta: int, visible: set<SubId>)
    | StepBonusReset(lab: LabId, visibleRows: set<Account>)
    | StepReevalBegin(p: Pid, lab: LabId, accounts: seq<Account>)
    | StepReevalRow(p: Pid, now: Time)
    | StepReevalCommit(p: Pid)
    | StepAdminAbort(p: Pid)

  // (Written as an equation so that lemmas can pass it on whole; see the note in Invariant.)
  ghost predicate Next(s: State, step: Step, s': State) {
    true == match step
    case StepRegisterLab(lab, m) => RegisterLab(s, lab, m, s')
    case StepLabEditCheck(p, lab, m) => LabEditCheck(s, p, lab, m, s')
    case StepLabEditWrite(p) => LabEditWrite(s, p, s')
    case StepIntakeBegin(p, req) => IntakeBegin(s, p, req, s')
    case StepIntakeLock(p) => IntakeLock(s, p, s')
    case StepIntakeCount(p) => IntakeCount(s, p, s')
    case StepIntakeDebit(p) => IntakeDebit(s, p, s')
    case StepIntakeSave(p) => IntakeSave(s, p, s')
    case StepIntakeReserve(p) => IntakeReserve(s, p, s')
    case StepIntakeInsert(p) => IntakeInsert(s, p, s')
    case StepIntakeEnqueue(p) => IntakeEnqueue(s, p, s')
    case StepIntakeCommit(p) => IntakeCommit(s, p, s')
    case StepIntakeAbort(p) => IntakeAbort(s, p, s')
    case StepCleanUp(p, deleted) => CleanUp(s, p, deleted, s')
    case StepWorkerStart(p, w) => WorkerStart(s, p, w, s')
    case StepClaimSelect(p, j, now) => ClaimSelect(s, p, j, now, s')
    case StepClaimMark(p) => ClaimMark(s, p, s')
    case StepClaimCommit(p) => ClaimCommit(s, p, s')
    case StepLoadSubmission(p) => LoadSubmission(s, p, s')
    case StepLoadManifest(p) => LoadManifest(s, p, s')
    case StepMarkRunning(p) => MarkRunning(s, p, s')
    case StepEvaluate(p, r) => Evaluate(s, p, r, s')
    case StepPersistResult(p) => PersistResult(s, p, s')
    case StepPersistQuota(p) => PersistQuota(s, p, s')
    case StepPersistScore(p, k) => PersistScore(s, p, k, s')
    case StepPersistEntry(p, now) => PersistEntry(s, p, now, s')
    case StepPersistCommit(p) => PersistCommit(s, p, s')
    case StepAcknowledge(p) => Acknowledge(s, p, s')
    case StepRetry(p, at) => Retry(s, p, at, s')
    case StepWorkerCrash(p) => WorkerCrash(s, p, s')
    case StepQueueCall(j, w, o) => QueueCall(s, j, w, o, s')
    case StepDailyReset(lab, since, visible) => DailyReset(s, lab, since, visible, s')
    case StepBonusAdjust(lab, delta, visible) => BonusAdjust(s, lab, delta, visible, s')
    case StepBonusReset(lab, visible) => BonusReset(s, lab, visible, s')
    case StepReevalBegin(p, lab, accounts) => ReevalBegin(s, p, lab, accounts, s')
    case StepReevalRow(p, now) => ReevalRow(s, p, now, s')
    case StepReevalCommit(p) => ReevalCommit(s, p, s')
    case StepAdminAbort(p) => AdminAbort(s, p, s')
  }
}
