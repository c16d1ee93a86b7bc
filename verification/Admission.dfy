/** Intake is all or nothing, and so over whole runs the tables account for every request. */
module Admission {
  import opened Prelude
  import opened Tables
  import opened QuotaWindow
  import opened Protocol
  import opened Invariant
  import opened SettleSteps
  import opened Induction
  import opened Credits

  // ----- what was accepted so far

  ghost function Accepted(r: Run, n: nat): nat
    requires n < |r.states| && n <= |r.steps|
  {
    if n == 0 then 0 else Accepted(r, n - 1) + if r.steps[n - 1].StepIntakeCommit? then 1 else 0
  }

  ghost function Copied(r: Run, n: nat): nat
    requires n < |r.states| && n <= |r.steps|
  {
    if n == 0 then 0 else Copied(r, n - 1) + CopiesIn(r.states[n - 1], r.steps[n - 1])
  }

  ghost function CopiesIn(s: State, step: Step): nat {
    if step.StepReevalCommit? && step.p in s.procs && s.procs[step.p].Reevaluation? then |s.procs[step.p].made| else 0
  }

  // The intake that commits in the step was for this nonce.
  ghost predicate Accepts(s: State, step: Step, nonce: string) {
    step.StepIntakeCommit? && IsIntake(s, step.p, Enqueued) && s.procs[step.p].req.nonce == nonce
  }

  lemma IntakeCounts(s: State, p: Pid, s': State)
    requires Inv(s) && IntakeCommit(s, p, s')
    ensures |s'.db.subs| == |s.db.subs| + 1 && |s'.db.jobs| == |s.db.jobs| + 1 && |s'.db.nonces| == |s.db.nonces| + 1
    ensures s.procs[p].req.nonce !in s.db.nonces
  {
    hide Inv;
    var x := s.procs[p];
    ReadyIntake(s, p);
    assert s'.db.nonces == s.db.nonces + {x.req.nonce};
  }

  lemma ReadyIntake(s: State, p: Pid)
    requires Inv(s) && IsIntake(s, p, Enqueued)
    ensures s.procs[p].sub !in s.db.subs && s.procs[p].job !in s.db.jobs && s.procs[p].req.nonce !in s.db.nonces
    ensures s.procs[p].debit.Some? ==>
              s.procs[p].req.Owner() in s.db.bonus && s.db.bonus[s.procs[p].req.Owner()] == s.procs[p].debit.value + 1
  {
    assert IntakeInv(s, s.procs[p]);
    IntakeReady(s, s.procs[p]);
  }

  lemma ReevalCounts(s: State, p: Pid, s': State)
    requires Inv(s) && ReevalCommit(s, p, s')
    ensures |s'.db.subs| == |s.db.subs| + |s.procs[p].made| && |s'.db.jobs| == |s.db.jobs| + |s.procs[p].made|
    ensures s'.db.nonces == s.db.nonces
  {
    hide Inv;
    var made := s.procs[p].made;
    CopiesReady(s, p);
    MadeSubRows(made);
    MadeJobRows(made);
    DisjointUnion(s.db.subs, MadeSubs(made));
    DisjointUnion(s.db.jobs, MadeJobs(made));
  }

  lemma CopiesReady(s: State, p: Pid)
    requires Inv(s) && p in s.procs && s.procs[p].Reevaluation?
    ensures DistinctCopies(s.procs[p].made)
    ensures s.db.subs.Keys !! MadeSubs(s.procs[p].made).Keys && s.db.jobs.Keys !! MadeJobs(s.procs[p].made).Keys
  {
    ReevalReady(s, s.procs[p]);
    MadeFresh(s, s.procs[p].made, Owned(s.procs[p]));
  }

  lemma CopyOf(s: State, p: Pid, i: nat)
    requires Inv(s) && p in s.procs && s.procs[p].Reevaluation? && i < |s.procs[p].made|
    ensures i < |s.procs[p].rows| && s.procs[p].rows[i] in s.db.subs
    ensures s.procs[p].made[i].row == FreeCopy(s.db.subs[s.procs[p].rows[i]], s.procs[p].made[i].row.createdAt)
  {
    assert ReevalInv(s, s.procs[p]);
  }

  lemma DisjointUnion<K, V>(a: map<K, V>, b: map<K, V>)
    requires a.Keys !! b.Keys
    ensures |a + b| == |a| + |b|
  {
    assert (a + b).Keys == a.Keys + b.Keys;
  }

  lemma OtherStepsCountNothing(s: State, step: Step, s': State)
    requires Next(s, step, s') && !step.StepPersistCommit? && !step.StepIntakeCommit? && !step.StepReevalCommit?
    ensures s'.db.subs.Keys == s.db.subs.Keys && s'.db.jobs.Keys == s.db.jobs.Keys && s'.db.nonces == s.db.nonces
  {
    if IsLocal(step) {
      LocalStepTables(s, step, s');
    }
  }

  lemma SettleCountsNothing(s: State, p: Pid, s': State)
    requires Inv(s) && PersistCommit(s, p, s')
    ensures s'.db.subs.Keys == s.db.subs.Keys && s'.db.jobs.Keys == s.db.jobs.Keys && s'.db.nonces == s.db.nonces
  {
    PersistIsAtomic(s, p, s');
  }

  ghost predicate Tallied(s: State, accepted: nat, copied: nat) {
    |s.db.nonces| == accepted && |s.db.subs| == accepted + copied && |s.db.jobs| == accepted + copied
  }

  lemma InsertCounts(s: State, step: Step, s': State, accepted: nat, copied: nat)
    requires Inv(s) && Next(s, step, s') && Tallied(s, accepted, copied)
             && (step.StepIntakeCommit? || step.StepReevalCommit?)
    ensures Tallied(s', accepted + if step.StepIntakeCommit? then 1 else 0, copied + CopiesIn(s, step))
  {
    hide Inv;
    if step.StepIntakeCommit? {
      IntakeCounts(s, step.p, s');
    } else {
      ReevalCounts(s, step.p, s');
    }
  }

  lemma OthersKeepKeys(s: State, step: Step, s': State)
    requires Inv(s) && Next(s, step, s') && !step.StepIntakeCommit? && !step.StepReevalCommit?
    ensures s'.db.subs.Keys == s.db.subs.Keys && s'.db.jobs.Keys == s.db.jobs.Keys && s'.db.nonces == s.db.nonces
  {
    hide Inv, Next, IntakeCommit, PersistCommit, ReevalCommit;
    CommitOf(s, step, s');
    match step
    case StepPersistCommit(p) => SettleCountsNothing(s, p, s');
    case _ => OtherStepsCountNothing(s, step, s');
  }

  lemma StepCounts(s: State, step: Step, s': State, accepted: nat, copied: nat)
    requires Inv(s) && Next(s, step, s') && Tallied(s, accepted, copied)
    ensures Tallied(s', accepted + if step.StepIntakeCommit? then 1 else 0, copied + CopiesIn(s, step))
  {
    hide Inv, Next;
    if step.StepIntakeCommit? || step.StepReevalCommit? {
      InsertCounts(s, step, s', accepted, copied);
    } else {
      OthersKeepKeys(s, step, s');
      SameCounts(s.db, s'.db);
    }
  }

  lemma SameCounts(db: Tables, db': Tables)
    requires db'.subs.Keys == db.subs.Keys && db'.jobs.Keys == db.jobs.Keys
    ensures |db'.subs| == |db.subs| && |db'.jobs| == |db.jobs|
  {
    assert |db'.subs.Keys| == |db.subs.Keys| && |db'.jobs.Keys| == |db.jobs.Keys|;
  }

  /** All or nothing: in every reachable state there is exactly one nonce per committed intake, and
      exactly one submission and one job per committed intake or committed copy of a reevaluation.
      An intake that failed at any statement has left nothing behind. */
  lemma {:induction false} EveryRowIsAccountedFor(r: Run, n: nat)
    requires IsRun(r) && n < |r.states|
    ensures |r.states[n].db.nonces| == Accepted(r, n)
    ensures |r.states[n].db.subs| == Accepted(r, n) + Copied(r, n)
    ensures |r.states[n].db.jobs| == Accepted(r, n) + Copied(r, n)
  {
    hide Inv, Next;
    if n > 0 {
      EveryRowIsAccountedFor(r, n - 1);
      RunInv(r, n - 1);
      StepCounts(r.states[n - 1], r.steps[n - 1], r.states[n], Accepted(r, n - 1), Copied(r, n - 1));
    }
  }

  // ----- nonces

  lemma NoncesStay(s: State, step: Step, s': State)
    requires Inv(s) && Next(s, step, s')
    ensures s.db.nonces <= s'.db.nonces
  {
    hide Inv;
    if !step.StepIntakeCommit? && !step.StepReevalCommit? {
      hide Next;
      OthersKeepKeys(s, step, s');
    }
  }

  lemma AcceptedNonce(s: State, step: Step, s': State, nonce: string)
    requires Inv(s) && Next(s, step, s') && Accepts(s, step, nonce)
    ensures nonce !in s.db.nonces && nonce in s'.db.nonces
  {
    hide Inv;
    ReadyIntake(s, step.p);
  }

  lemma {:induction false} NoncesKept(r: Run, i: nat, n: nat)
    requires IsRun(r) && i <= n < |r.states|
    ensures r.states[i].db.nonces <= r.states[n].db.nonces
  {
    hide Inv, Next;
    if i < n {
      NoncesKept(r, i, n - 1);
      RunInv(r, n - 1);
      NoncesStay(r.states[n - 1], r.steps[n - 1], r.states[n]);
    }
  }

  /** No nonce is accepted by two committed intakes of a run. */
  lemma NonceAcceptedOnce(r: Run, i: nat, k: nat, nonce: string)
    requires IsRun(r) && i < k < |r.steps|
    requires Accepts(r.states[i], r.steps[i], nonce)
    ensures !Accepts(r.states[k], r.steps[k], nonce)
  {
    hide Inv, Next;
    RunInv(r, i);
    AcceptedNonce(r.states[i], r.steps[i], r.states[i + 1], nonce);
    NoncesKept(r, i + 1, k);
    RunInv(r, k);
    if Accepts(r.states[k], r.steps[k], nonce) {
      AcceptedNonce(r.states[k], r.steps[k], r.states[k + 1], nonce);
      assert false;
    }
  }

  // ----- one intake

  /** A committed intake adds one submission, queued and unsettled, bonus if it found the quota of the
      day used up and pending otherwise, one queued job for it that is due at once, and its nonce, and
      takes one credit exactly in the first case; nothing else changes. */
  lemma IntakeCommitsAll(s: State, p: Pid, s': State)
    requires Inv(s) && IntakeCommit(s, p, s')
    ensures
      var x := s.procs[p];
      var full, now := x.req.daily > 0 && x.used >= x.req.daily, x.req.now;
      var row := Submission(x.req.user, x.req.lab, x.req.artifactKey, x.req.contentHash, SubmissionQueued, None,
                            if full then Bonus else Pending, now);
      && x.sub !in s.db.subs && x.job !in s.db.jobs && x.req.nonce !in s.db.nonces
      && s'.db.subs == s.db.subs[x.sub := row]
      && s'.db.jobs == s.db.jobs[x.job := Job(x.sub, Queued, None, 0, now, now)]
      && s'.db.nonces == s.db.nonces + {x.req.nonce}
      && (forall a :: Remaining(s'.db, a) ==
            Remaining(s.db, a) - if a == Account(x.req.user, x.req.lab) && full then 1 else 0)
      && s'.db.labs == s.db.labs && s'.db.scores == s.db.scores && s'.db.board == s.db.board
  {
    hide Inv;
    ReadyIntake(s, p);
    PaidIntake(s, p);
  }

  /** What the intake decides on, counted under the lock of the day: the submissions of that user and lab
      that were created on the day of the request and are pending or charged. */
  lemma IntakeCountsDay(s: State, p: Pid, s': State)
    requires IntakeCount(s, p, s')
    ensures
      var req := s.procs[p].req;
      && p in s'.procs && s'.procs[p].Intake? && s'.procs[p].req == req
      && s'.procs[p].used ==
         if req.daily <= 0 then 0 else |CountingOn(s.db.subs, Account(req.user, req.lab), Day(req.now))|
  {
    WindowCountsDay(s.db.subs, s.procs[p].req.Owner(), s.procs[p].req.now);
  }

  lemma PaidIntake(s: State, p: Pid)
    requires Inv(s) && IsIntake(s, p, Enqueued)
    ensures s.procs[p].debit.Some? <==> Exhausted(s.procs[p].req, s.procs[p].used)
  {
    assert IntakeInv(s, s.procs[p]);
    PaidWhenExhausted(s, s.procs[p]);
  }

  lemma PaidWhenExhausted(s: State, x: Proc)
    requires x.Intake? && x.phase == Enqueued && IntakeInv(s, x)
    ensures x.debit.Some? <==> Exhausted(x.req, x.used)
  {
    hide NeverReset, Rows, UsageRows;
  }

  // ----- an intake that runs alone

  function IntakeLocks(req: Request): set<Token> {
    {DayLock(req.Owner(), WindowStart(req.now)), BonusLock(req.Owner()), NonceLock(req.nonce)}
  }

  function DebitOf(db: Tables, req: Request): Option<int> {
    if Exhausted(req, CountedUse(db, req)) then ConsumeBonus(db, req.Owner()) else None
  }

  // The state in which the intake has just finished a phase and nobody else has moved.
  function Intaking(s: State, p: Pid, req: Request, ph: IntakePhase): State {
    s.(procs := s.procs[p := Intake(req, ph,
                                    if Rank(ph) >= Rank(Counted) then CountedUse(s.db, req) else 0,
                                    if Rank(ph) >= Rank(Debited) then DebitOf(s.db, req) else None,
                                    if Rank(ph) >= Rank(Inserted) then s.nextId else 0,
                                    if Rank(ph) >= Rank(Enqueued) then s.nextId + 1 else 0)],
       artifacts := if Rank(ph) >= Rank(Saved) then s.artifacts + {req.artifactKey} else s.artifacts,
       nextId := s.nextId + if Rank(ph) >= Rank(Enqueued) then 2 else if Rank(ph) >= Rank(Inserted) then 1 else 0)
  }

  predicate CanBegin(s: State, p: Pid, req: Request) {
    p !in s.procs && req.lab in s.db.labs && req.daily == s.db.labs[req.lab].daily
  }

  lemma IntakeAloneCounts(s: State, p: Pid, req: Request)
    requires CanBegin(s, p, req) && NobodyHolds(s, IntakeLocks(req))
    ensures IntakeBegin(s, p, req, Intaking(s, p, req, Begun))
    ensures IntakeLock(Intaking(s, p, req, Begun), p, Intaking(s, p, req, Locked))
    ensures IntakeCount(Intaking(s, p, req, Locked), p, Intaking(s, p, req, Counted))
  {
    hide Owned, CountedUse, DebitOf;
  }

  lemma IntakeAloneSaves(s: State, p: Pid, req: Request)
    requires CanBegin(s, p, req) && NobodyHolds(s, IntakeLocks(req))
    requires Exhausted(req, CountedUse(s.db, req)) ==> DebitOf(s.db, req).Some?
    ensures Exhausted(req, CountedUse(s.db, req)) ==>
              IntakeDebit(Intaking(s, p, req, Counted), p, Intaking(s, p, req, Debited))
    ensures
      var before := if Exhausted(req, CountedUse(s.db, req)) then Debited else Counted;
      IntakeSave(Intaking(s, p, req, before), p, Intaking(s, p, req, Saved))
  {
    hide Owned, CountedUse;
  }

  lemma IntakeAloneEnqueues(s: State, p: Pid, req: Request)
    requires CanBegin(s, p, req) && NobodyHolds(s, IntakeLocks(req)) && req.nonce !in s.db.nonces
    ensures IntakeReserve(Intaking(s, p, req, Saved), p, Intaking(s, p, req, Reserved))
    ensures IntakeInsert(Intaking(s, p, req, Reserved), p, Intaking(s, p, req, Inserted))
    ensures IntakeEnqueue(Intaking(s, p, req, Inserted), p, Intaking(s, p, req, Enqueued))
  {
    hide Owned, CountedUse;
  }

  lemma IntakeAloneEnds(s: State, p: Pid, req: Request, s': State)
    requires CanBegin(s, p, req) && s' == Committed(s, req)
    ensures IntakeCommit(Intaking(s, p, req, Enqueued), p, s')
  {
    hide Owned, CountedUse;
    var t := Intaking(s, p, req, Enqueued);
    assert t.procs - {p} == s.procs;
    assert Without(t, p).(db := s'.db, hist := s'.hist) == s';
  }

  // What the service commits and stores, run alone.
  function Committed(s: State, req: Request): State {
    s.(db := IntakeTables(s.db, req, DebitOf(s.db, req), s.nextId, s.nextId + 1),
       hist := IntakeHistory(s.hist, req, DebitOf(s.db, req), s.nextId, s.nextId + 1),
       artifacts := s.artifacts + {req.artifactKey}, nextId := s.nextId + 2)
  }

  /** A request that finds its locks free, its nonce unused, and quota or a credit left can take all
      its steps in a row, and it commits what the service run alone commits. */
  lemma IntakeAloneCommits(s: State, p: Pid, req: Request)
    requires CanBegin(s, p, req) && NobodyHolds(s, IntakeLocks(req)) && req.nonce !in s.db.nonces
    requires Exhausted(req, CountedUse(s.db, req)) ==> DebitOf(s.db, req).Some?
    ensures Next(s, StepIntakeBegin(p, req), Intaking(s, p, req, Begun))
    ensures Next(Intaking(s, p, req, Begun), StepIntakeLock(p), Intaking(s, p, req, Locked))
    ensures Next(Intaking(s, p, req, Locked), StepIntakeCount(p), Intaking(s, p, req, Counted))
    ensures
      var exhausted := Exhausted(req, CountedUse(s.db, req));
      && (exhausted ==> Next(Intaking(s, p, req, Counted), StepIntakeDebit(p), Intaking(s, p, req, Debited)))
      && Next(Intaking(s, p, req, if exhausted then Debited else Counted), StepIntakeSave(p),
              Intaking(s, p, req, Saved))
    ensures Next(Intaking(s, p, req, Saved), StepIntakeReserve(p), Intaking(s, p, req, Reserved))
    ensures Next(Intaking(s, p, req, Reserved), StepIntakeInsert(p), Intaking(s, p, req, Inserted))
    ensures Next(Intaking(s, p, req, Inserted), StepIntakeEnqueue(p), Intaking(s, p, req, Enqueued))
    ensures Next(Intaking(s, p, req, Enqueued), StepIntakeCommit(p), Committed(s, req))
  {
    hide Intaking, Committed, Owned, CountedUse;
    hide IntakeBegin, IntakeLock, IntakeCount, IntakeDebit, IntakeSave, IntakeReserve, IntakeInsert, IntakeEnqueue;
    hide IntakeCommit;
    IntakeAloneCounts(s, p, req);
    IntakeAloneSaves(s, p, req);
    IntakeAloneEnqueues(s, p, req);
    IntakeAloneEnds(s, p, req, Committed(s, req));
  }
}
