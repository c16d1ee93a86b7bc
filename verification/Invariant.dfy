/** What every step of the protocol keeps: facts about the committed tables (DbInv), what each
    process may rely on between its statements (ProcInv), and that no two processes own the same
    lock, id or claim (Exclusive).  Rely is all that other processes can do to one of them. */
module Invariant {
  import opened Prelude
  import opened Tables
  import opened QuotaWindow
  import opened Evaluation
  import opened Protocol

  // A note on form.  The predicates that lemmas pass on to one another are written true == (...).
  // Dafny splits a predicate that a lemma requires or ensures into its conjuncts and proves each of them
  // on its own, quantifier by quantifier; it does not split an equation.  So these predicates are
  // handed on whole, by name, and a proof that only hands one on never looks inside.

  // ----- the daily cap

  // Rows that count against the daily quota and were never hit by an admin reset.
  function NeverReset(subs: map<SubId, Submission>, everReset: set<SubId>, a: Account, start: Time): set<SubId> {
    Rows(subs, a, start) - everReset
  }

  // No group of these rows is larger than every daily quota its members were admitted under.
  // Said of all subsets, it survives rows leaving the set.
  ghost predicate Capped(rows: set<SubId>, admitted: map<SubId, int>) {
    && rows <= admitted.Keys
    && forall t: set<SubId>, most: int | AdmittedWithin(t, admitted, most) && t <= rows && t != {} :: |t| <= most
  }

  ghost predicate AdmittedWithin(t: set<SubId>, admitted: map<SubId, int>, most: int) {
    forall x | x in t :: x in admitted && admitted[x] <= most
  }

  ghost predicate CapInv(subs: map<SubId, Submission>, everReset: set<SubId>, admitted: map<SubId, int>) {
    true == (
      forall a: Account, start: Time | IsWindow(start) :: Capped(NeverReset(subs, everReset, a, start), admitted))
  }

  // ----- the committed tables

  ghost predicate LabsInv(labs: map<LabId, Manifest>) {
    true == (
      forall l | l in labs :: labs[l].daily > 0)
  }

  ghost predicate RowsInv(labs: map<LabId, Manifest>, subs: map<SubId, Submission>, nextId: nat) {
    true == (
      forall x | x in subs :: x < nextId && subs[x].lab in labs)
  }

  ghost predicate CreditsInv(subs: map<SubId, Submission>, bonus: map<Account, int>) {
    true == (
      && (forall x | x in subs && subs[x].quota == Bonus :: subs[x].Owner() in bonus)
      && (forall a | a in bonus :: bonus[a] >= 0))
  }

  ghost predicate QueueInv(subs: map<SubId, Submission>, jobs: map<JobId, Job>, claims: map<JobId, nat>, nextId: nat) {
    true == (
      && (forall j | j in jobs :: j < nextId && jobs[j].submission in subs)
      && (forall j | j in jobs :: if jobs[j].status == Queued then jobs[j].worker.None? else jobs[j].worker.Some?)
      && (forall i, j {:trigger jobs[i].submission, jobs[j].submission} | i in jobs && j in jobs && i != j ::
             jobs[i].submission != jobs[j].submission)
      && claims.Keys == jobs.Keys
      && (forall j | j in jobs :: jobs[j].attempts == claims[j]))
  }

  ghost predicate ScoresInv(labs: map<LabId, Manifest>, subs: map<SubId, Submission>,
                            scores: map<SubId, map<MetricId, real>>)
  {
    true == (
      forall x | x in scores :: x in subs && subs[x].lab in labs && scores[x].Keys == MetricIds(labs[subs[x].lab]))
  }

  ghost predicate BoardInv(subs: map<SubId, Submission>, scores: map<SubId, map<MetricId, real>>,
                           board: map<Account, Entry>)
  {
    true == (
      forall a | a in board ::
        board[a].submission in subs && subs[board[a].submission].Owner() == a && board[a].submission in scores)
  }

  // How the quota state of a row agrees with what happened to it.
  ghost predicate RowHistory(h: History, x: SubId, q: QuotaState) {
    && (IsActive(q) ==> x in h.admitted)
    && (q == AdminReset ==> x in h.everReset)
    && (x in h.everReset ==> x in h.admitted)
    && (q == Bonus ==> x in h.bornBonus)
    && (x in h.bornBonus ==> q == Bonus || q == Free)
    && (x in h.reevals ==> q == Free)
  }

  ghost predicate HistoryInv(subs: map<SubId, Submission>, h: History) {
    true == (
      && (forall x | x in subs :: RowHistory(h, x, subs[x].quota))
      && h.reevals <= subs.Keys && h.bornBonus <= subs.Keys
      && h.admitted.Keys <= subs.Keys && h.nonceOf.Keys <= subs.Keys && h.everReset <= subs.Keys)
  }

  ghost predicate NoncesInv(nonces: set<string>, nonceOf: map<SubId, string>) {
    true == (
      && (forall x | x in nonceOf :: nonceOf[x] in nonces)
      && (forall x, y {:trigger nonceOf[x], nonceOf[y]} | x in nonceOf && y in nonceOf && x != y ::
           nonceOf[x] != nonceOf[y]))
  }

  ghost predicate DbInv(s: State) {
    var State(db, _, _, nextId, h) := s;
    true == (
      && LabsInv(db.labs) && RowsInv(db.labs, db.subs, nextId) && CreditsInv(db.subs, db.bonus)
      && QueueInv(db.subs, db.jobs, h.claims, nextId)
      && ScoresInv(db.labs, db.subs, db.scores) && BoardInv(db.subs, db.scores, db.board)
      && HistoryInv(db.subs, h) && NoncesInv(db.nonces, h.nonceOf) && CapInv(db.subs, h.everReset, h.admitted))
  }

  // ----- the processes

  ghost predicate IntakeInv(s: State, x: Proc)
    requires x.Intake?
  {
    var a, start := x.req.Owner(), WindowStart(x.req.now);
    && x.req.lab in s.db.labs && x.req.daily > 0
    && (Rank(x.phase) >= Rank(Counted) ==> |NeverReset(s.db.subs, s.hist.everReset, a, start)| <= x.used)
    && (Rank(x.phase) >= Rank(Debited) && x.debit.None? ==> x.used < x.req.daily)
    && (Rank(x.phase) < Rank(Debited) ==> x.debit.None?)
    && (x.debit.Some? ==> Exhausted(x.req, x.used))
    && (x.debit.Some? ==> a in s.db.bonus && s.db.bonus[a] == x.debit.value + 1 && x.debit.value >= 0)
    && (Rank(x.phase) >= Rank(Reserved) ==> x.req.nonce !in s.db.nonces)
    && (Rank(x.phase) >= Rank(Inserted) ==> x.sub < s.nextId && x.sub !in s.db.subs)
    && (Rank(x.phase) >= Rank(Enqueued) ==> x.job < s.nextId && x.job !in s.db.jobs && x.job != x.sub)
  }

  // The loaded quota state is the current one, or a daily reset came in between.
  predicate SnapAgrees(loaded: QuotaState, current: QuotaState) {
    current == loaded || (IsActive(loaded) && current == AdminReset)
  }

  ghost predicate SnapInv(s: State, j: JobId, snap: Snapshot) {
    && snap.sub in s.db.subs && j in s.db.jobs && s.db.jobs[j].submission == snap.sub
    && snap.row.Owner() == s.db.subs[snap.sub].Owner()
  }

  ghost predicate ManifestInv(s: State, snap: Snapshot, m: Manifest) {
    snap.row.lab in s.db.labs && SameStructure(m, s.db.labs[snap.row.lab])
  }

  // The images of an open Persist transaction are what its statements make of the current rows.
  ghost predicate TxInv(s: State, st: Stage)
    requires st.Persisting? && st.snap.sub in s.db.subs
  {
    var before := ResultRow(s.db.subs[st.snap.sub], st.r.verdict);
    && ValidResult(st.m, st.r)
    && st.tx.row == (if st.tx.quotaDone then QuotaRow(before, st.m, st.r.verdict, st.snap.row.quota) else before)
    && (st.tx.credit.Some? <==>
         st.tx.quotaDone && WantsRefund(st.m, st.r.verdict, st.snap.row.quota) && before.quota == Bonus)
    && (st.tx.credit.Some? ==> before.Owner() in s.db.bonus && st.tx.credit.value == s.db.bonus[before.Owner()] + 1)
    && st.tx.scored.Keys <= st.r.scores.Keys
    && (forall k | k in st.tx.scored :: st.tx.scored[k] == st.r.scores[k])
    && (st.tx.entry.Some? ==> st.tx.scored.Keys == st.r.scores.Keys && st.tx.entry.value.submission == st.snap.sub
                              && st.r.verdict == Scored)
  }

  ghost predicate WorkerInv(s: State, x: Proc)
    requires x.Worker?
  {
    match x.task
    case Idle => true
    case Claiming(j, _) => j in s.db.jobs && s.db.jobs[j].status == Queued
    case Working(j, st) =>
      && HeldBy(s.db, j, x.id)
      && (!st.JobClaimed? ==> SnapInv(s, j, st.snap))
      && (!st.JobClaimed? && !st.Persisted? ==> SnapAgrees(st.snap.row.quota, s.db.subs[st.snap.sub].quota))
      && (!st.JobClaimed? && !st.HasSubmission? && !st.Persisted? ==> ManifestInv(s, st.snap, st.m))
      && (st.Persisting? ==> TxInv(s, st))
  }

  // The copies use ids drawn one after the other, and none of them is committed.
  ghost predicate CopiesFresh(s: State, made: seq<Copy>) {
    && (forall i | 0 <= i < |made| ::
         made[i].sub < made[i].job < s.nextId && made[i].sub !in s.db.subs && made[i].job !in s.db.jobs)
    && (forall i, j | 0 <= i < j < |made| :: made[i].job < made[j].sub)
  }

  // The i-th copy is a free copy of the i-th original.
  ghost predicate CopiesMatch(db: Tables, lab: LabId, rows: seq<SubId>, made: seq<Copy>) {
    && |made| <= |rows|
    && (forall i | 0 <= i < |rows| :: rows[i] in db.subs && db.subs[rows[i]].lab == lab)
    && (forall i | 0 <= i < |made| :: made[i].row == FreeCopy(db.subs[rows[i]], made[i].row.createdAt))
  }

  ghost predicate ReevalInv(s: State, x: Proc)
    requires x.Reevaluation?
  {
    x.lab in s.db.labs && CopiesFresh(s, x.made) && CopiesMatch(s.db, x.lab, x.rows, x.made)
  }

  ghost predicate ProcInv(s: State, x: Proc) {
    match x
    case Intake(_, _, _, _, _, _) => IntakeInv(s, x)
    case Worker(_, _) => WorkerInv(s, x)
    case Cleanup(_) => true
    case LabEdit(lab, next) => lab in s.db.labs && next.daily > 0 && SameStructure(s.db.labs[lab], next)
    case Reevaluation(_, _, _) => ReevalInv(s, x)
  }

  ghost predicate ProcsInv(s: State) {
    true == forall q | q in s.procs :: ProcInv(s, s.procs[q])
  }

  ghost predicate Exclusive(s: State) {
    true == forall p, q | p in s.procs && q in s.procs && p != q :: Owned(s.procs[p]) !! Owned(s.procs[q])
  }

  ghost predicate Inv(s: State) {
    true == (DbInv(s) && ProcsInv(s) && Exclusive(s))
  }

  // ----- interference

  ghost predicate RelySub(x: SubId, was: Submission, now: Submission, held: set<Token>) {
    && now.Owner() == was.Owner() && now.artifactKey == was.artifactKey && now.contentHash == was.contentHash
    && now.createdAt == was.createdAt
    && (SubLock(x) in held || now == was)
    && (WorkOn(x) in held || SnapAgrees(was.quota, now.quota))
  }

  ghost predicate RelyLabs(labs: map<LabId, Manifest>, labs': map<LabId, Manifest>) {
    true == (
      forall l | l in labs :: l in labs' && SameStructure(labs[l], labs'[l]))
  }

  ghost predicate RelySubs(subs: map<SubId, Submission>, subs': map<SubId, Submission>, held: set<Token>) {
    true == (
      && (forall x | x in subs :: x in subs' && RelySub(x, subs[x], subs'[x], held))
      && (forall x | x in subs' && x !in subs :: NewId(x) in held))
  }

  ghost predicate RelyJobs(jobs: map<JobId, Job>, jobs': map<JobId, Job>, held: set<Token>) {
    true == (
      && (forall j | j in jobs :: j in jobs' && jobs'[j].submission == jobs[j].submission
                                  && (JobClaim(j) in held || jobs'[j] == jobs[j]))
      && (forall j | j in jobs' && j !in jobs :: NewId(j) in held))
  }

  ghost predicate RelyBonus(bonus: map<Account, int>, bonus': map<Account, int>, held: set<Token>) {
    true == (
      && (forall a | a in bonus :: a in bonus' && (BonusLock(a) in held || bonus'[a] == bonus[a]))
      && (forall a | a in bonus' && a !in bonus :: BonusLock(a) in held))
  }

  ghost predicate RelyNonces(nonces: set<string>, nonces': set<string>, held: set<Token>) {
    true == (
      forall n | n in nonces' && n !in nonces :: NonceLock(n) in held)
  }

  ghost predicate RelyUsage(subs: map<SubId, Submission>, everReset: set<SubId>,
                            subs': map<SubId, Submission>, everReset': set<SubId>, held: set<Token>)
  {
    true == (
      forall a: Account, start: Time | DayLock(a, start) !in held && IsWindow(start) ::
        NeverReset(subs', everReset', a, start) <= NeverReset(subs, everReset, a, start))
  }

  // What a step by the owner of the tokens in held may change.
  ghost predicate Rely(s: State, s': State, held: set<Token>) {
    var State(db, _, _, nextId, h) := s;
    true == (
      && nextId <= s'.nextId
      && RelyLabs(db.labs, s'.db.labs) && RelySubs(db.subs, s'.db.subs, held) && RelyJobs(db.jobs, s'.db.jobs, held)
      && RelyBonus(db.bonus, s'.db.bonus, held) && RelyNonces(db.nonces, s'.db.nonces, held)
      && RelyUsage(db.subs, h.everReset, s'.db.subs, s'.hist.everReset, held))
  }

  // Unchanged tables are no interference.
  lemma UnchangedLabs(labs: map<LabId, Manifest>)
    ensures RelyLabs(labs, labs)
  {}

  lemma UnchangedSubs(subs: map<SubId, Submission>, held: set<Token>)
    ensures RelySubs(subs, subs, held)
  {}

  lemma UnchangedJobs(jobs: map<JobId, Job>, held: set<Token>)
    ensures RelyJobs(jobs, jobs, held)
  {}

  lemma UnchangedBonus(bonus: map<Account, int>, held: set<Token>)
    ensures RelyBonus(bonus, bonus, held)
  {}

  lemma UnchangedNonces(nonces: set<string>, held: set<Token>)
    ensures RelyNonces(nonces, nonces, held)
  {}

  /** A process keeps what it relies on through any step that touches nothing it owns. */
  lemma Stable(s: State, s': State, held: set<Token>, x: Proc)
    requires ProcInv(s, x) && Rely(s, s', held) && Owned(x) !! held
    ensures ProcInv(s', x)
  {
    match x
    case Intake(_, _, _, _, _, _) => StableIntake(s, s', held, x);
    case Worker(_, _) => StableWorker(s, s', held, x);
    case Cleanup(_) =>
    case LabEdit(lab, next) =>
    case Reevaluation(_, _, _) => StableReeval(s, s', held, x);
  }

  lemma StableIntake(s: State, s': State, held: set<Token>, x: Proc)
    requires x.Intake? && IntakeInv(s, x) && Rely(s, s', held) && Owned(x) !! held
    ensures IntakeInv(s', x)
  {
    var a, start := x.req.Owner(), WindowStart(x.req.now);
    if Rank(x.phase) >= Rank(Counted) {
      WindowsPartition(x.req.now, start);
      assert DayLock(a, start) in Owned(x);
      SubsetCard(NeverReset(s'.db.subs, s'.hist.everReset, a, start),
                 NeverReset(s.db.subs, s.hist.everReset, a, start));
    }
    if x.debit.Some? {
      assert BonusLock(a) in Owned(x);
    }
    if Rank(x.phase) >= Rank(Reserved) {
      assert NonceLock(x.req.nonce) in Owned(x);
    }
    if Rank(x.phase) >= Rank(Inserted) {
      assert NewId(x.sub) in Owned(x);
    }
    if Rank(x.phase) >= Rank(Enqueued) {
      assert NewId(x.job) in Owned(x);
    }
  }

  lemma StableWorker(s: State, s': State, held: set<Token>, x: Proc)
    requires x.Worker? && WorkerInv(s, x) && Rely(s, s', held) && Owned(x) !! held
    ensures WorkerInv(s', x)
  {
    if x.task.Idle? { return; }
    assert JobClaim(x.task.job) in Owned(x);
    if x.task.Claiming? || x.task.stage.JobClaimed? { return; }
    var st := x.task.stage;
    assert WorkOn(st.snap.sub) in Owned(x);
    assert SnapInv(s', x.task.job, st.snap);
    if st.Persisting? {
      assert SubLock(st.snap.sub) in Owned(x);
      assert s'.db.subs[st.snap.sub] == s.db.subs[st.snap.sub];
      if st.tx.credit.Some? {
        assert BonusLock(st.tx.row.Owner()) in Owned(x);
      }
      assert TxInv(s', st);
    }
  }

  lemma StableReeval(s: State, s': State, held: set<Token>, x: Proc)
    requires x.Reevaluation? && ReevalInv(s, x) && Rely(s, s', held) && Owned(x) !! held
    ensures ReevalInv(s', x)
  {
    assert CopiesFresh(s', x.made) by {
      forall i | 0 <= i < |x.made| ensures NewId(x.made[i].sub) in Owned(x) && NewId(x.made[i].job) in Owned(x) {}
    }
    StableCopies(s, s', held, x.lab, x.rows, x.made);
  }

  lemma StableCopies(s: State, s': State, held: set<Token>, lab: LabId, rows: seq<SubId>, made: seq<Copy>)
    requires CopiesMatch(s.db, lab, rows, made) && RelySubs(s.db.subs, s'.db.subs, held)
    ensures CopiesMatch(s'.db, lab, rows, made)
  {}
}
