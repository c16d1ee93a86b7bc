/** A worker that nobody disturbs: with a claimable job and its locks free it can take every step from
    the claim to the acknowledgement, and it leaves what Claim and Handle leave when run alone. */
module WorkerAlone {
  import opened Prelude
  import opened Tables
  import opened Evaluation
  import opened Protocol
  import Server

  // ----- moves of one worker

  ghost predicate IsMove(step: Step, p: Pid) {
    || step == StepClaimMark(p) || step == StepClaimCommit(p) || step == StepLoadSubmission(p)
    || step == StepLoadManifest(p) || step == StepMarkRunning(p) || step == StepPersistResult(p)
    || step == StepPersistQuota(p) || step == StepPersistCommit(p) || step == StepAcknowledge(p)
    || (step.StepClaimSelect? && step.p == p) || (step.StepEvaluate? && step.p == p)
    || (step.StepPersistScore? && step.p == p) || (step.StepPersistEntry? && step.p == p)
  }

  // The worker can go from s to s' by these moves, one after the other.
  ghost predicate Goes(s: State, p: Pid, s': State, moves: seq<Step>)
    decreases moves
  {
    if moves == [] then s == s'
    else IsMove(moves[0], p) && exists t :: Next(s, moves[0], t) && Goes(t, p, s', moves[1..])
  }

  ghost predicate Reaches(s: State, p: Pid, s': State) { exists moves :: Goes(s, p, s', moves) }

  lemma OneMove(s: State, p: Pid, step: Step, s': State)
    requires Next(s, step, s') && IsMove(step, p)
    ensures Reaches(s, p, s')
  {
    hide Next, IsMove;
    assert Goes(s', p, s', [step][1..]);
    assert Goes(s, p, s', [step]);
  }

  lemma {:induction false} GoesOn(s: State, p: Pid, t: State, s': State, moves: seq<Step>, more: seq<Step>)
    requires Goes(s, p, t, moves) && Goes(t, p, s', more)
    ensures Goes(s, p, s', moves + more)
    decreases moves
  {
    hide Next, IsMove;
    if moves == [] {
      assert moves + more == more;
    } else {
      var u :| Next(s, moves[0], u) && Goes(u, p, t, moves[1..]);
      GoesOn(u, p, t, s', moves[1..], more);
      assert (moves + more)[1..] == moves[1..] + more;
    }
  }

  lemma Then(s: State, p: Pid, t: State, s': State)
    requires Reaches(s, p, t) && Reaches(t, p, s')
    ensures Reaches(s, p, s')
  {
    var moves :| Goes(s, p, t, moves);
    var more :| Goes(t, p, s', more);
    GoesOn(s, p, t, s', moves, more);
  }

  // ----- where the worker stands

  // An idle worker and the job that Claim would take.
  ghost predicate CanClaim(s: State, p: Pid, id: WorkerId, j: JobId, now: Time) {
    && p in s.procs && s.procs[p] == Worker(id, Idle)
    && Claimable(s.db, j, now) && forall k | Claimable(s.db, k, now) :: ClaimsBefore(s.db.jobs[j], s.db.jobs[k])
  }

  function WorkLocks(db: Tables, j: JobId): set<Token> {
    if !Server.Loadable(db, j) then {}
    else
      var sub := db.jobs[j].submission;
      {JobLock(j), SubLock(sub), BonusLock(db.subs[sub].Owner()), BoardLock(db.subs[sub].Owner())}
  }

  // The tables after the claim.
  function ClaimedTables(db: Tables, j: JobId, id: WorkerId): Tables {
    if j in db.jobs then db.(jobs := db.jobs[j := JobMarkedRunning(db.jobs[j], id)]) else db
  }

  // The history after the claim.
  function Counted(s: State, j: JobId): History {
    s.hist.(claims := s.hist.claims[j := GetOr(s.hist.claims, j, 0) + 1])
  }

  // The state in which the claim is committed and nobody else has moved since s.
  function Claimed(s: State, p: Pid, id: WorkerId, j: JobId): State {
    s.(db := ClaimedTables(s.db, j, id), procs := s.procs[p := Worker(id, Working(j, JobClaimed))],
       hist := Counted(s, j))
  }

  lemma ClaimSteps(s: State, p: Pid, id: WorkerId, j: JobId, now: Time)
    requires CanClaim(s, p, id, j, now) && LockFree(s, p, JobLock(j))
    ensures ClaimSelect(s, p, j, now, WithTask(s, p, Claiming(j, false)))
    ensures ClaimMark(WithTask(s, p, Claiming(j, false)), p, WithTask(s, p, Claiming(j, true)))
    ensures ClaimCommit(WithTask(s, p, Claiming(j, true)), p, Claimed(s, p, id, j))
  {
    hide Owned;
    var selected, marked := WithTask(s, p, Claiming(j, false)), WithTask(s, p, Claiming(j, true));
    var claimed := Claimed(s, p, id, j);
    assert marked.procs == selected.procs[p := marked.procs[p]];
    assert claimed.procs == marked.procs[p := claimed.procs[p]];
  }

  lemma ClaimAlone(s: State, p: Pid, id: WorkerId, j: JobId, now: Time)
    requires CanClaim(s, p, id, j, now) && LockFree(s, p, JobLock(j))
    ensures Reaches(s, p, Claimed(s, p, id, j))
  {
    hide Reaches, ClaimSelect, ClaimMark, ClaimCommit, LockFree, Claimable, Claimed;
    var selected, marked := WithTask(s, p, Claiming(j, false)), WithTask(s, p, Claiming(j, true));
    ClaimSteps(s, p, id, j, now);
    OneMove(s, p, StepClaimSelect(p, j, now), selected);
    OneMove(selected, p, StepClaimMark(p), marked);
    OneMove(marked, p, StepClaimCommit(p), Claimed(s, p, id, j));
    Then(s, p, selected, marked);
    Then(s, p, marked, Claimed(s, p, id, j));
  }

  // ----- the work on a claimed job

  // The worker has come to this stage of the job.
  function On(c: State, p: Pid, id: WorkerId, j: JobId, db: Tables, st: Stage): State {
    c.(db := db, procs := c.procs[p := Worker(id, Working(j, st))])
  }

  ghost predicate HasClaimed(c: State, p: Pid, id: WorkerId, j: JobId) {
    && p in c.procs && c.procs[p] == Worker(id, Working(j, JobClaimed)) && Server.Loadable(c.db, j)
    && forall t | t in WorkLocks(c.db, j) :: LockFree(c, p, t)
  }

  function Loaded(db: Tables, j: JobId): Snapshot
    requires Server.Loadable(db, j)
  {
    Snapshot(db.jobs[j].submission, db.subs[db.jobs[j].submission])
  }

  function LoadedManifest(db: Tables, j: JobId): Manifest
    requires Server.Loadable(db, j)
  {
    db.labs[db.subs[db.jobs[j].submission].lab]
  }

  lemma LoadsAlone(c: State, p: Pid, id: WorkerId, j: JobId)
    requires HasClaimed(c, p, id, j)
    ensures
      Reaches(c, p, On(c, p, id, j, c.db, HasManifest(Loaded(c.db, j), LoadedManifest(c.db, j))))
  {
    hide Owned, Reaches, WorkLocks;
    var s1 := On(c, p, id, j, c.db, HasSubmission(Loaded(c.db, j)));
    var s2 := On(c, p, id, j, c.db, HasManifest(Loaded(c.db, j), LoadedManifest(c.db, j)));
    OneMove(c, p, StepLoadSubmission(p), s1);
    assert s2.procs == s1.procs[p := s2.procs[p]];
    OneMove(s1, p, StepLoadManifest(p), s2);
    Then(c, p, s1, s2);
  }

  lemma MarkAlone(c: State, p: Pid, id: WorkerId, j: JobId)
    requires HasClaimed(c, p, id, j)
    ensures
      var snap, m := Loaded(c.db, j), LoadedManifest(c.db, j);
      MarkRunning(On(c, p, id, j, c.db, HasManifest(snap, m)), p,
                  On(c, p, id, j, Server.Marked(c.db, j), MarkedRunning(snap, m)))
  {
    hide Owned;
    var snap, m := Loaded(c.db, j), LoadedManifest(c.db, j);
    var s0 := On(c, p, id, j, c.db, HasManifest(snap, m));
    var s1 := On(c, p, id, j, Server.Marked(c.db, j), MarkedRunning(snap, m));
    assert SubLock(snap.sub) in WorkLocks(c.db, j);
    assert s1.procs == s0.procs[p := s1.procs[p]];
  }

  lemma EvaluatesAlone(c: State, p: Pid, id: WorkerId, j: JobId, r: EvalResult)
    requires HasClaimed(c, p, id, j)
    ensures
      var snap, m := Loaded(c.db, j), LoadedManifest(c.db, j);
      Reaches(On(c, p, id, j, c.db, HasManifest(snap, m)), p,
              On(c, p, id, j, Server.Marked(c.db, j), HasResult(snap, m, r)))
  {
    hide Owned, Reaches, WorkLocks, MarkRunning, Server.Marked, LockFree;
    var snap, m, db := Loaded(c.db, j), LoadedManifest(c.db, j), Server.Marked(c.db, j);
    var s0, s1 := On(c, p, id, j, c.db, HasManifest(snap, m)), On(c, p, id, j, db, MarkedRunning(snap, m));
    var s2 := On(c, p, id, j, db, HasResult(snap, m, r));
    assert s2.procs == s1.procs[p := s2.procs[p]];
    MarkAlone(c, p, id, j);
    OneMove(s0, p, StepMarkRunning(p), s1);
    OneMove(s1, p, StepEvaluate(p, r), s2);
    Then(s0, p, s1, s2);
  }

  // The open Persist transaction after its two statements on the submission.
  function QuotaTx(db: Tables, j: JobId, r: EvalResult): PersistTx
    requires Server.Loadable(db, j)
  {
    var snap, m := Loaded(db, j), LoadedManifest(db, j);
    var row := ResultRow(db.subs[snap.sub], r.verdict);
    PersistTx(QuotaRow(row, m, r.verdict, snap.row.quota), true,
              RefundedCredit(db, row, m, r.verdict, snap.row.quota), map[], None)
  }

  lemma RoomForRefund(db: Tables, j: JobId, id: WorkerId, r: EvalResult)
    requires Server.CanHandle(db, j, id, r)
    ensures Server.Loadable(db, j) && ValidResult(LoadedManifest(db, j), r) && HeldBy(db, j, id)
    ensures QuotaTx(db, j, r).credit.Some? ==> QuotaTx(db, j, r).credit.value <= INT32_MAX
  {
    hide ValidResult;
  }

  lemma ResultAlone(c: State, p: Pid, id: WorkerId, j: JobId, r: EvalResult)
    requires HasClaimed(c, p, id, j) && ValidResult(LoadedManifest(c.db, j), r)
    ensures
      var snap, m, db := Loaded(c.db, j), LoadedManifest(c.db, j), Server.Marked(c.db, j);
      var row := ResultRow(snap.row, r.verdict);
      PersistResult(On(c, p, id, j, db, HasResult(snap, m, r)), p,
                    On(c, p, id, j, db, Persisting(snap, m, r, PersistTx(row, false, None, map[], None))))
  {
    hide Owned, ValidResult;
    var snap, m, db := Loaded(c.db, j), LoadedManifest(c.db, j), Server.Marked(c.db, j);
    var row := ResultRow(snap.row, r.verdict);
    var s0 := On(c, p, id, j, db, HasResult(snap, m, r));
    var s1 := On(c, p, id, j, db, Persisting(snap, m, r, PersistTx(row, false, None, map[], None)));
    assert SubLock(snap.sub) in WorkLocks(c.db, j);
    assert row == ResultRow(db.subs[snap.sub], r.verdict);
    assert s1.procs == s0.procs[p := s1.procs[p]];
  }

  lemma QuotaAlone(c: State, p: Pid, id: WorkerId, j: JobId, r: EvalResult)
    requires HasClaimed(c, p, id, j)
    requires QuotaTx(c.db, j, r).credit.Some? ==> QuotaTx(c.db, j, r).credit.value <= INT32_MAX
    ensures
      var snap, m, db := Loaded(c.db, j), LoadedManifest(c.db, j), Server.Marked(c.db, j);
      var row := ResultRow(snap.row, r.verdict);
      PersistQuota(On(c, p, id, j, db, Persisting(snap, m, r, PersistTx(row, false, None, map[], None))), p,
                   On(c, p, id, j, db, Persisting(snap, m, r, QuotaTx(c.db, j, r))))
  {
    hide Owned, QuotaRow, WantsRefund;
    var snap, m, db := Loaded(c.db, j), LoadedManifest(c.db, j), Server.Marked(c.db, j);
    var row := ResultRow(snap.row, r.verdict);
    var s0 := On(c, p, id, j, db, Persisting(snap, m, r, PersistTx(row, false, None, map[], None)));
    var s1 := On(c, p, id, j, db, Persisting(snap, m, r, QuotaTx(c.db, j, r)));
    assert BonusLock(snap.row.Owner()) in WorkLocks(c.db, j);
    assert s1.procs == s0.procs[p := s1.procs[p]];
  }

  lemma ChargesAlone(c: State, p: Pid, id: WorkerId, j: JobId, r: EvalResult)
    requires HasClaimed(c, p, id, j) && Server.CanHandle(c.db, j, id, r)
    ensures
      var snap, m, db := Loaded(c.db, j), LoadedManifest(c.db, j), Server.Marked(c.db, j);
      Reaches(On(c, p, id, j, db, HasResult(snap, m, r)), p,
              On(c, p, id, j, db, Persisting(snap, m, r, QuotaTx(c.db, j, r))))
  {
    hide Reaches, On, QuotaTx, PersistResult, PersistQuota, HasClaimed, ValidResult;
    hide Server.CanHandle, Server.Marked, Server.Loadable, ResultRow, Loaded, LoadedManifest;
    RoomForRefund(c.db, j, id, r);
    var snap, m, db := Loaded(c.db, j), LoadedManifest(c.db, j), Server.Marked(c.db, j);
    var row := ResultRow(snap.row, r.verdict);
    var s0 := On(c, p, id, j, db, HasResult(snap, m, r));
    var s1 := On(c, p, id, j, db, Persisting(snap, m, r, PersistTx(row, false, None, map[], None)));
    var s2 := On(c, p, id, j, db, Persisting(snap, m, r, QuotaTx(c.db, j, r)));
    ResultAlone(c, p, id, j, r);
    QuotaAlone(c, p, id, j, r);
    OneMove(s0, p, StepPersistResult(p), s1);
    OneMove(s1, p, StepPersistQuota(p), s2);
    Then(s0, p, s1, s2);
  }

  // The scores are upserted in any order, one statement each.
  lemma {:induction false} ScoresAlone(c: State, p: Pid, id: WorkerId, j: JobId, db: Tables, st: Stage)
    requires st.Persisting? && st.r.verdict == Scored && st.tx.quotaDone && st.tx.entry.None?
    requires st.tx.scored.Keys <= st.r.scores.Keys
    requires forall k | k in st.tx.scored :: st.tx.scored[k] == st.r.scores[k]
    ensures Reaches(On(c, p, id, j, db, st), p, On(c, p, id, j, db, st.(tx := st.tx.(scored := st.r.scores))))
    decreases st.r.scores.Keys - st.tx.scored.Keys
  {
    hide Reaches;
    if st.tx.scored.Keys == st.r.scores.Keys {
      assert st.tx.scored == st.r.scores;
      NoMove(On(c, p, id, j, db, st), p);
    } else {
      var k :| k in st.r.scores && k !in st.tx.scored;
      var next := st.(tx := st.tx.(scored := st.tx.scored[k := st.r.scores[k]]));
      var s0, s1 := On(c, p, id, j, db, st), On(c, p, id, j, db, next);
      assert s1.procs == s0.procs[p := s1.procs[p]];
      OneMove(s0, p, StepPersistScore(p, k), s1);
      assert next.tx.scored.Keys == st.tx.scored.Keys + {k};
      ScoresAlone(c, p, id, j, db, next);
      Then(s0, p, s1, On(c, p, id, j, db, st.(tx := st.tx.(scored := st.r.scores))));
    }
  }

  lemma NoMove(s: State, p: Pid)
    ensures Reaches(s, p, s)
  {
    assert Goes(s, p, s, []);
  }

  // All its statements done.
  function FullTx(db: Tables, j: JobId, r: EvalResult, at: Time): PersistTx
    requires Server.Loadable(db, j)
  {
    if r.verdict == Scored
    then QuotaTx(db, j, r).(scored := r.scores, entry := Some(Entry(db.jobs[j].submission, at)))
    else QuotaTx(db, j, r)
  }

  lemma WritesAlone(c: State, p: Pid, id: WorkerId, j: JobId, r: EvalResult, at: Time)
    requires HasClaimed(c, p, id, j)
    ensures
      var snap, m, db := Loaded(c.db, j), LoadedManifest(c.db, j), Server.Marked(c.db, j);
      Reaches(On(c, p, id, j, db, Persisting(snap, m, r, QuotaTx(c.db, j, r))), p,
              On(c, p, id, j, db, Persisting(snap, m, r, FullTx(c.db, j, r, at))))
  {
    hide Owned, Reaches;
    var snap, m, db := Loaded(c.db, j), LoadedManifest(c.db, j), Server.Marked(c.db, j);
    var tx := QuotaTx(c.db, j, r);
    var s0 := On(c, p, id, j, db, Persisting(snap, m, r, tx));
    if r.verdict == Scored {
      var s1 := On(c, p, id, j, db, Persisting(snap, m, r, tx.(scored := r.scores)));
      var s2 := On(c, p, id, j, db, Persisting(snap, m, r, FullTx(c.db, j, r, at)));
      assert BoardLock(snap.row.Owner()) in WorkLocks(c.db, j);
      ScoresAlone(c, p, id, j, db, Persisting(snap, m, r, tx));
      assert s2.procs == s1.procs[p := s2.procs[p]];
      OneMove(s1, p, StepPersistEntry(p, at), s2);
      Then(s0, p, s1, s2);
    } else {
      NoMove(s0, p);
    }
  }

  lemma SettlesAlone(db: Tables, j: JobId, r: EvalResult, at: Time)
    requires Server.Loadable(db, j)
    ensures PersistTables(Server.Marked(db, j), Loaded(db, j), FullTx(db, j, r, at)) == Server.SettledFor(db, j, r, at)
  {
    var snap, m := Loaded(db, j), LoadedManifest(db, j);
    Server.SettleIgnoresStatus(db, m, snap.sub, snap.row, r, at);
    assert ResultRow(Server.Marked(db, j).subs[snap.sub], r.verdict) == ResultRow(db.subs[snap.sub], r.verdict);
  }

  // The last two states: committed, and acknowledged.
  function Settling(c: State, p: Pid, id: WorkerId, j: JobId, r: EvalResult, at: Time): State
    requires Server.Loadable(c.db, j)
  {
    On(c, p, id, j, Server.SettledFor(c.db, j, r, at), Persisted(Loaded(c.db, j), r))
  }

  function Finished(c: State, p: Pid, id: WorkerId, j: JobId, r: EvalResult, at: Time): State
    requires Server.Loadable(c.db, j)
  {
    c.(db := Server.Handled(c.db, j, r, at), procs := c.procs[p := Worker(id, Idle)])
  }

  lemma CommitAlone(c: State, p: Pid, id: WorkerId, j: JobId, r: EvalResult, at: Time)
    requires HasClaimed(c, p, id, j)
    ensures
      var stage := Persisting(Loaded(c.db, j), LoadedManifest(c.db, j), r, FullTx(c.db, j, r, at));
      PersistCommit(On(c, p, id, j, Server.Marked(c.db, j), stage), p, Settling(c, p, id, j, r, at))
  {
    hide Owned, QuotaRow, RefundedCredit, Server.SettledFor;
    var stage := Persisting(Loaded(c.db, j), LoadedManifest(c.db, j), r, FullTx(c.db, j, r, at));
    var s0, s1 := On(c, p, id, j, Server.Marked(c.db, j), stage), Settling(c, p, id, j, r, at);
    SettlesAlone(c.db, j, r, at);
    assert s1.procs == s0.procs[p := s1.procs[p]];
  }

  lemma AcknowledgeAlone(c: State, p: Pid, id: WorkerId, j: JobId, r: EvalResult, at: Time)
    requires Server.Loadable(c.db, j) && HeldBy(c.db, j, id)
    ensures Acknowledge(Settling(c, p, id, j, r, at), p, Finished(c, p, id, j, r, at))
  {
    hide Owned, QuotaRow, RefundedCredit;
    var s1, s2 := Settling(c, p, id, j, r, at), Finished(c, p, id, j, r, at);
    assert s2.procs == s1.procs[p := s2.procs[p]];
  }

  lemma CommitsAlone(c: State, p: Pid, id: WorkerId, j: JobId, r: EvalResult, at: Time)
    requires HasClaimed(c, p, id, j) && Server.CanHandle(c.db, j, id, r)
    ensures
      var stage := Persisting(Loaded(c.db, j), LoadedManifest(c.db, j), r, FullTx(c.db, j, r, at));
      Reaches(On(c, p, id, j, Server.Marked(c.db, j), stage), p, Finished(c, p, id, j, r, at))
  {
    hide Reaches, On, Settling, Finished, FullTx, PersistCommit, Acknowledge, ValidResult, HeldBy;
    hide Server.CanHandle, Server.Marked, Server.Loadable, Loaded, LoadedManifest, HasClaimed;
    RoomForRefund(c.db, j, id, r);
    var stage := Persisting(Loaded(c.db, j), LoadedManifest(c.db, j), r, FullTx(c.db, j, r, at));
    var s0, s1 := On(c, p, id, j, Server.Marked(c.db, j), stage), Settling(c, p, id, j, r, at);
    CommitAlone(c, p, id, j, r, at);
    AcknowledgeAlone(c, p, id, j, r, at);
    OneMove(s0, p, StepPersistCommit(p), s1);
    OneMove(s1, p, StepAcknowledge(p), Finished(c, p, id, j, r, at));
    Then(s0, p, s1, Finished(c, p, id, j, r, at));
  }

  lemma WorksAlone(c: State, p: Pid, id: WorkerId, j: JobId, r: EvalResult, at: Time)
    requires HasClaimed(c, p, id, j) && Server.CanHandle(c.db, j, id, r)
    ensures Reaches(c, p, Finished(c, p, id, j, r, at))
  {
    hide Reaches, On, Finished, FullTx, QuotaTx, HasClaimed, ValidResult;
    var snap, m, db := Loaded(c.db, j), LoadedManifest(c.db, j), Server.Marked(c.db, j);
    LoadsAlone(c, p, id, j);
    EvaluatesAlone(c, p, id, j, r);
    ChargesAlone(c, p, id, j, r);
    WritesAlone(c, p, id, j, r, at);
    CommitsAlone(c, p, id, j, r, at);
    var s1, s2 := On(c, p, id, j, c.db, HasManifest(snap, m)), On(c, p, id, j, db, HasResult(snap, m, r));
    var s3 := On(c, p, id, j, db, Persisting(snap, m, r, QuotaTx(c.db, j, r)));
    var s4 := On(c, p, id, j, db, Persisting(snap, m, r, FullTx(c.db, j, r, at)));
    Then(c, p, s1, s2);
    Then(c, p, s2, s3);
    Then(c, p, s3, s4);
    Then(c, p, s4, Finished(c, p, id, j, r, at));
  }

  lemma LocksFree(s: State, p: Pid, id: WorkerId, j: JobId)
    requires p in s.procs && NobodyHolds(s, WorkLocks(s.db, j))
    requires j in s.db.jobs && Server.Loadable(ClaimedTables(s.db, j, id), j)
    ensures LockFree(s, p, JobLock(j)) && HasClaimed(Claimed(s, p, id, j), p, id, j)
  {
    hide Owned;
    var c := Claimed(s, p, id, j);
    assert Server.Loadable(s.db, j) && WorkLocks(c.db, j) == WorkLocks(s.db, j);
    forall t | t in WorkLocks(s.db, j) ensures LockFree(s, p, t) && LockFree(c, p, t) {
      assert forall q | q in s.procs :: Owned(s.procs[q]) !! WorkLocks(s.db, j);
    }
    assert JobLock(j) in WorkLocks(s.db, j);
  }

  /** An idle worker that finds the locks of its job free can take all its steps in a row, from the
      claim of the first claimable job to the acknowledgement: it leaves what Claim followed by Handle
      leaves, and is idle again, whenever Handle would accept the evaluator's result. */
  lemma WorkerAloneHandles(s: State, p: Pid, id: WorkerId, j: JobId, now: Time, r: EvalResult, at: Time)
    requires CanClaim(s, p, id, j, now) && NobodyHolds(s, WorkLocks(s.db, j))
    requires Server.CanHandle(ClaimedTables(s.db, j, id), j, id, r)
    ensures
      Reaches(s, p, s.(db := Server.Handled(ClaimedTables(s.db, j, id), j, r, at), hist := Counted(s, j)))
  {
    hide Reaches, Server.Handled, Server.CanHandle, ValidResult, Owned;
    var c := Claimed(s, p, id, j);
    RoomForRefund(c.db, j, id, r);
    var f := Finished(c, p, id, j, r, at);
    LocksFree(s, p, id, j);
    ClaimAlone(s, p, id, j, now);
    WorksAlone(c, p, id, j, r, at);
    assert f.procs == s.procs;
    Then(s, p, c, f);
  }
}
