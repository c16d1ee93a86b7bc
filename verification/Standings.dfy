/** The leaderboard over whole runs: what stands behind every row of it. */
module Standings {
  import opened Prelude
  import opened Tables
  import opened Protocol
  import opened Invariant
  import opened CommitSteps
  import opened SettleSteps
  import opened Induction
  import opened Credits

  // ----- a reference definition of the leaderboard

  datatype Standing = Standing(sub: SubId, scores: map<MetricId, real>, at: Time)

  // The step commits a scored settlement for the account.
  ghost predicate Scores(s: State, step: Step, a: Account) {
    && step.StepPersistCommit? && IsPersisting(s, step.p)
    && s.procs[step.p].task.stage.r.verdict == Scored && s.procs[step.p].task.stage.tx.entry.Some?
    && s.procs[step.p].task.stage.snap.row.Owner() == a
  }

  // The last scored settlement of the account, from the evaluator results alone.
  ghost function LastScored(r: Run, n: nat, a: Account): Option<Standing>
    requires n < |r.states| && n <= |r.steps|
  {
    if n == 0 then None
    else if Scores(r.states[n - 1], r.steps[n - 1], a) then
      var st := r.states[n - 1].procs[r.steps[n - 1].p].task.stage;
      Some(Standing(st.snap.sub, st.r.scores, st.tx.entry.value.updatedAt))
    else LastScored(r, n - 1, a)
  }

  // What the tables say: the entry joined with the scores of its submission.
  function Shown(db: Tables, a: Account): Option<Standing> {
    if a in db.board
    then Some(Standing(db.board[a].submission, GetOr(db.scores, db.board[a].submission, map[]), db.board[a].updatedAt))
    else None
  }

  lemma SettlementShown(s: State, p: Pid, s': State, a: Account)
    requires Inv(s) && PersistCommit(s, p, s')
    ensures
      var st := s.procs[p].task.stage;
      Shown(s'.db, a) ==
        if Scores(s, StepPersistCommit(p), a) then Some(Standing(st.snap.sub, st.r.scores, st.tx.entry.value.updatedAt))
        else Shown(s.db, a)
  {
    hide Inv;
    var st := s.procs[p].task.stage;
    SettlingScores(s, p, s');
    ShownAfter(s.db.subs, s.db.scores, s.db.board, st, a);
  }

  lemma SettlingScores(s: State, p: Pid, s': State)
    requires Inv(s) && PersistCommit(s, p, s')
    ensures
      var st := s.procs[p].task.stage;
      && BoardInv(s.db.subs, s.db.scores, s.db.board)
      && st.snap.sub in s.db.subs && s.db.subs[st.snap.sub].Owner() == st.snap.row.Owner()
      && (st.tx.entry.Some? <==> st.r.verdict == Scored)
      && (st.tx.entry.Some? ==> st.tx.entry.value.submission == st.snap.sub && st.tx.scored == st.r.scores
                                && (st.snap.sub in s.db.scores ==> s.db.scores[st.snap.sub].Keys == st.r.scores.Keys))
  {
    var st := s.procs[p].task.stage;
    PersistReady(s, s.procs[p]);
    if st.tx.entry.Some? && st.snap.sub in s.db.scores {
      DeclaredKeys(s.db.labs, s.db.subs, s.db.scores, st.snap.sub, st.m);
    }
  }

  lemma DeclaredKeys(labs: map<LabId, Manifest>, subs: Subs, scores: map<SubId, map<MetricId, real>>, sub: SubId,
                     m: Manifest)
    requires ScoresInv(labs, subs, scores) && sub in scores
    requires subs[sub].lab in labs && SameStructure(m, labs[subs[sub].lab])
    ensures scores[sub].Keys == MetricIds(m)
  {
    assert MetricIds(m) == MetricIds(labs[subs[sub].lab]);
  }

  lemma ShownAfter(subs: Subs, scores: map<SubId, map<MetricId, real>>, board: map<Account, Entry>, st: Stage,
                   a: Account)
    requires st.Persisting? && BoardInv(subs, scores, board)
    requires st.snap.sub in subs && subs[st.snap.sub].Owner() == st.snap.row.Owner()
    requires st.tx.entry.Some? ==> st.tx.entry.value.submission == st.snap.sub && st.tx.scored == st.r.scores
    requires st.tx.entry.Some? && st.snap.sub in scores ==> scores[st.snap.sub].Keys == st.r.scores.Keys
    ensures
      var db := PersistTables(EMPTY.(subs := subs, scores := scores, board := board), st.snap, st.tx);
      Shown(db, a) ==
        if st.tx.entry.Some? && st.snap.row.Owner() == a
        then Some(Standing(st.snap.sub, st.r.scores, st.tx.entry.value.updatedAt))
        else Shown(EMPTY.(scores := scores, board := board), a)
  {
    if st.tx.entry.Some? {
      assert GetOr(scores, st.snap.sub, map[]) + st.tx.scored == st.r.scores;
    }
  }

  lemma OtherStepsShowTheSame(s: State, step: Step, s': State)
    requires Next(s, step, s') && !step.StepPersistCommit?
    ensures s'.db.scores == s.db.scores && s'.db.board == s.db.board
  {
    if IsLocal(step) {
      LocalStepTables(s, step, s');
    }
  }

  /** The leaderboard is exactly the last scored settlement of every account: the same submission,
      the very scores its evaluator reported, and the time of that settlement. */
  lemma {:induction false} BoardIsLastScored(r: Run, n: nat, a: Account)
    requires IsRun(r) && n < |r.states|
    ensures Shown(r.states[n].db, a) == LastScored(r, n, a)
  {
    hide Inv, Next, PersistCommit;
    if n > 0 {
      var s, step, s' := r.states[n - 1], r.steps[n - 1], r.states[n];
      BoardIsLastScored(r, n - 1, a);
      RunInv(r, n - 1);
      CommitOf(s, step, s');
      if step.StepPersistCommit? {
        SettlementShown(s, step.p, s', a);
      } else {
        OtherStepsShowTheSame(s, step, s');
      }
    }
  }

  // ----- the labs behind it

  // The manifest that the step stores, and for which lab.
  ghost function Stores(s: State, step: Step): Option<(LabId, Manifest)> {
    if step.StepRegisterLab? then Some((step.lab, step.m))
    else if step.StepLabEditWrite? && step.p in s.procs && s.procs[step.p].LabEdit?
    then Some((s.procs[step.p].lab, s.procs[step.p].next))
    else None
  }

  lemma LabStep(s: State, step: Step, s': State)
    requires Next(s, step, s')
    ensures s'.db.labs == match Stores(s, step) case None => s.db.labs case Some(x) => s.db.labs[x.0 := x.1]
  {
    if IsLocal(step) {
      hide Next;
      LocalStepTables(s, step, s');
    } else {
      hide Owned, LockFree, PersistTables, ResetRows, Participants, ReevalTables;
    }
  }

  lemma StoresSameStructure(s: State, step: Step, s': State, lab: LabId)
    requires Inv(s) && Next(s, step, s') && Stores(s, step).Some? && Stores(s, step).value.0 == lab
    requires lab in s.db.labs
    ensures SameStructure(s.db.labs[lab], Stores(s, step).value.1)
  {
    if step.StepLabEditWrite? {
      assert ProcInv(s, s.procs[step.p]);
    }
  }

  /** However registrations and updates interleave, an update checked against an old manifest included: a
      registered lab stays registered, and size limit, files, metrics and ranking metric of its
      manifest never change. */
  lemma {:induction false} StructureIsForever(r: Run, i: nat, n: nat, lab: LabId)
    requires IsRun(r) && i <= n < |r.states| && lab in r.states[i].db.labs
    ensures
      && lab in r.states[n].db.labs
      && var a, b := r.states[i].db.labs[lab], r.states[n].db.labs[lab];
         a.maxSize == b.maxSize && a.files == b.files && a.metrics == b.metrics && a.rankBy == b.rankBy
  {
    hide Inv, Next;
    if i < n {
      var s, step, s' := r.states[n - 1], r.steps[n - 1], r.states[n];
      StructureIsForever(r, i, n - 1, lab);
      RunInv(r, n - 1);
      LabStep(s, step, s');
      if Stores(s, step).Some? && Stores(s, step).value.0 == lab {
        StoresSameStructure(s, step, s', lab);
      }
    }
  }

  // The manifest stored last.
  ghost function LastManifest(r: Run, n: nat, lab: LabId): Option<Manifest>
    requires n < |r.states| && n <= |r.steps|
  {
    if n == 0 then None
    else
      var x := Stores(r.states[n - 1], r.steps[n - 1]);
      if x.Some? && x.value.0 == lab then Some(x.value.1) else LastManifest(r, n - 1, lab)
  }

  /** The manifest of a lab is the one that was registered or stored by an update last. */
  lemma {:induction false} ManifestIsLastStored(r: Run, n: nat, lab: LabId)
    requires IsRun(r) && n < |r.states|
    ensures LastManifest(r, n, lab) == if lab in r.states[n].db.labs then Some(r.states[n].db.labs[lab]) else None
  {
    hide Next, Stores;
    if n > 0 {
      ManifestIsLastStored(r, n - 1, lab);
      LabStep(r.states[n - 1], r.steps[n - 1], r.states[n]);
    }
  }

  // ----- the joins

  // An inner join of leaderboard and scores for one metric; a submission has one score per metric.
  function MetricJoin(db: Tables, lab: LabId, metric: MetricId): set<Account> {
    set a | a in db.board && a.lab == lab && db.board[a].submission in db.scores
        && metric in db.scores[db.board[a].submission]
  }

  function BoardRows(db: Tables, lab: LabId): set<Account> {
    set a | a in db.board && a.lab == lab
  }

  /** Behind every entry, in every reachable state and whatever lab updates came in between, stands
      a submission of that very user and lab whose scores are keyed by the declared metrics. */
  lemma EntriesAreScored(r: Run, n: nat, a: Account)
    requires IsRun(r) && n < |r.states| && a in r.states[n].db.board
    ensures
      var db := r.states[n].db;
      var x := db.board[a].submission;
      && x in db.subs && db.subs[x].Owner() == a && a.lab in db.labs
      && x in db.scores && db.scores[x].Keys == MetricIds(db.labs[a.lab])
  {
    RunInv(r, n);
    var db := r.states[n].db;
    assert BoardInv(db.subs, db.scores, db.board) && ScoresInv(db.labs, db.subs, db.scores);
  }

  /** The join by a metric keeps every entry if the metric is declared, and none if it is not. */
  lemma JoinDropsNobody(r: Run, n: nat, lab: LabId, metric: MetricId)
    requires IsRun(r) && n < |r.states| && lab in r.states[n].db.labs
    ensures
      var db := r.states[n].db;
      MetricJoin(db, lab, metric) == if metric in MetricIds(db.labs[lab]) then BoardRows(db, lab) else {}
  {
    hide Inv;
    var db := r.states[n].db;
    forall a | a in BoardRows(db, lab) ensures a in MetricJoin(db, lab, metric) <==> metric in MetricIds(db.labs[lab]) {
      EntriesAreScored(r, n, a);
    }
  }
}
