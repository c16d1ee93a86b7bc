/** The commit of a Persist transaction, the administrators' statements and the commit of a
    reevaluation keep the invariant; together with the other steps this makes it inductive. */
module SettleSteps {
  import opened Prelude
  import opened Tables
  import opened Evaluation
  import opened Protocol
  import opened Invariant
  import opened LocalSteps
  import opened CommitSteps

  // ----- settlement

  // The quota state a settlement leaves, when the snapshot agrees with the row: a bonus row
  // stays bonus or is refunded, a free row stays free, any other row is charged or freed.
  lemma SettledQuota(row: Submission, m: Manifest, v: Verdict, loaded: QuotaState)
    requires SnapAgrees(loaded, row.quota)
    ensures
      var q := QuotaRow(row, m, v, loaded).quota;
      && (row.quota == Bonus ==> loaded == Bonus && q == if WantsRefund(m, v, loaded) then Free else Bonus)
      && (row.quota == Free ==> q == Free)
      && (row.quota != Bonus && row.quota != Free ==> q == Charged || q == Free)
  {}

  lemma SettledHistory(subs: Subs, h: History, sub: SubId, row: Submission)
    requires sub in subs && HistoryInv(subs, h)
    requires subs[sub].quota == Bonus ==> row.quota == Bonus || row.quota == Free
    requires subs[sub].quota == Free ==> row.quota == Free
    requires subs[sub].quota != Bonus && subs[sub].quota != Free ==> row.quota == Charged || row.quota == Free
    ensures HistoryInv(subs[sub := row], h)
  {
    assert RowHistory(h, sub, subs[sub].quota);
    SubRowHistory(subs, h, sub, row);
  }

  lemma SettledCredits(subs: Subs, bonus: map<Account, int>, sub: SubId, row: Submission, credit: Option<int>,
                       held: set<Token>)
    requires CreditsInv(subs, bonus) && sub in subs && row.Owner() == subs[sub].Owner()
    requires row.quota == Bonus ==> subs[sub].quota == Bonus
    requires credit.Some? ==> credit.value >= 0 && row.Owner() in bonus && BonusLock(row.Owner()) in held
    ensures
      var bonus' := if credit.Some? then bonus[row.Owner() := credit.value] else bonus;
      CreditsInv(subs[sub := row], bonus') && RelyBonus(bonus, bonus', held)
  {}

  lemma SettledScores(labs: map<LabId, Manifest>, subs: Subs, scores: map<SubId, map<MetricId, real>>,
                      board: map<Account, Entry>,
                      sub: SubId, m: Manifest, scored: map<MetricId, real>, entry: Entry)
    requires ScoresInv(labs, subs, scores) && BoardInv(subs, scores, board)
    requires sub in subs && subs[sub].lab in labs && SameStructure(m, labs[subs[sub].lab])
             && scored.Keys == MetricIds(m)
    requires entry.submission == sub
    ensures
      var scores' := scores[sub := GetOr(scores, sub, map[]) + scored];
      ScoresInv(labs, subs, scores') && BoardInv(subs, scores', board[subs[sub].Owner() := entry])
  {
    assert MetricIds(m) == MetricIds(labs[subs[sub].lab]);
    assert (GetOr(scores, sub, map[]) + scored).Keys == MetricIds(m);
  }

  lemma SettledUsage(subs: Subs, h: History, sub: SubId, row: Submission, held: set<Token>)
    requires CapInv(subs, h.everReset, h.admitted) && HistoryInv(subs, h) && sub in subs
    requires row.Owner() == subs[sub].Owner() && row.createdAt == subs[sub].createdAt
    requires IsActive(row.quota) ==> IsActive(subs[sub].quota) || subs[sub].quota == AdminReset
    ensures CapInv(subs[sub := row], h.everReset, h.admitted)
    ensures RelyUsage(subs, h.everReset, subs[sub := row], h.everReset, held)
  {
    assert RowHistory(h, sub, subs[sub].quota);
    ShrinkingUsage(subs, h.everReset, subs[sub := row], h.everReset, h.admitted, held);
  }

  // What the invariant of the worker says at the commit.
  ghost predicate CanSettle(s: State, snap: Snapshot, m: Manifest, r: EvalResult, tx: PersistTx) {
    && snap.sub in s.db.subs && snap.row.Owner() == s.db.subs[snap.sub].Owner()
    && SnapAgrees(snap.row.quota, s.db.subs[snap.sub].quota)
    && snap.row.lab in s.db.labs && SameStructure(m, s.db.labs[snap.row.lab]) && ValidResult(m, r)
    && tx.row == QuotaRow(ResultRow(s.db.subs[snap.sub], r.verdict), m, r.verdict, snap.row.quota)
    && (tx.credit.Some? <==> WantsRefund(m, r.verdict, snap.row.quota) && s.db.subs[snap.sub].quota == Bonus)
    && (tx.credit.Some? ==> tx.row.Owner() in s.db.bonus && tx.credit.value == s.db.bonus[tx.row.Owner()] + 1)
    && (tx.entry.Some? <==> r.verdict == Scored)
    && (tx.entry.Some? ==> tx.entry.value.submission == snap.sub && tx.scored == r.scores)
  }

  lemma PersistReady(s: State, x: Proc)
    requires x.Worker? && x.task.Working? && x.task.stage.Persisting? && WorkerInv(s, x)
    requires x.task.stage.tx.quotaDone && (x.task.stage.r.verdict == Scored ==> x.task.stage.tx.entry.Some?)
    ensures CanSettle(s, x.task.stage.snap, x.task.stage.m, x.task.stage.r, x.task.stage.tx)
  {
    var st := x.task.stage;
    assert TxInv(s, st);
    if st.tx.entry.Some? {
      assert st.tx.scored == st.r.scores;
    }
  }

  lemma PersistCommitDb(s: State, snap: Snapshot, m: Manifest, r: EvalResult, tx: PersistTx, s': State,
                        held: set<Token>)
    requires DbInv(s) && CanSettle(s, snap, m, r, tx)
    requires s'.db == PersistTables(s.db, snap, tx) && s'.hist == s.hist && s'.nextId == s.nextId
    requires {SubLock(snap.sub), WorkOn(snap.sub)} <= held && (tx.credit.Some? ==> BonusLock(tx.row.Owner()) in held)
    ensures DbInv(s') && Rely(s, s', held)
  {
    var subs, sub := s.db.subs, snap.sub;
    SettledQuota(ResultRow(subs[sub], r.verdict), m, r.verdict, snap.row.quota);
    SettledHistory(subs, s.hist, sub, tx.row);
    SettledCredits(subs, s.db.bonus, sub, tx.row, tx.credit, held);
    SettledUsage(subs, s.hist, sub, tx.row, held);
    SubRowRely(subs, sub, tx.row, held);
    SubRow(s.db.labs, subs, s.db.scores, s.db.board, s.db.jobs, s.hist.claims, s.nextId, sub, tx.row);
    if tx.entry.Some? {
      SettledScores(s.db.labs, subs[sub := tx.row], s.db.scores, s.db.board, sub, m, tx.scored, tx.entry.value);
    }
    UnchangedLabs(s.db.labs);
    UnchangedJobs(s.db.jobs, held);
    UnchangedNonces(s.db.nonces, held);
  }

  lemma PersistCommitStep(s: State, p: Pid, s': State)
    requires Inv(s) && PersistCommit(s, p, s')
    ensures Inv(s')
  {
    var x, y := s.procs[p], s'.procs[p];
    var st := x.task.stage;
    var refunding := if st.tx.credit.Some? then {BonusLock(st.tx.row.Owner())} else {};
    var held := {SubLock(st.snap.sub), WorkOn(st.snap.sub)} + refunding;
    PersistReady(s, x);
    PersistCommitDb(s, st.snap, st.m, st.r, st.tx, s', held);
    PersistedProc(s, x, s', y);
    Conclude(s, s', p, y, {}, held);
  }

  lemma PersistedProc(s: State, x: Proc, s': State, y: Proc)
    requires x.Worker? && x.task.Working? && x.task.stage.Persisting? && WorkerInv(s, x)
    requires s'.db == PersistTables(s.db, x.task.stage.snap, x.task.stage.tx)
    requires y == x.(task := Working(x.task.job, Persisted(x.task.stage.snap, x.task.stage.r)))
    ensures ProcInv(s', y)
  {
  }

  // ----- administration

  lemma ResetRowsDb(s: State, rows: set<SubId>, s': State)
    requires DbInv(s) && rows <= s.db.subs.Keys && (forall x | x in rows :: IsActive(s.db.subs[x].quota))
    requires s'.db == AdminResetLabQuota(s.db, rows) && s'.nextId == s.nextId
    requires s'.hist == s.hist.(everReset := s.hist.everReset + rows)
    ensures DbInv(s') && Rely(s, s', set x | x in rows :: SubLock(x))
  {
    var held := set x | x in rows :: SubLock(x);
    ResetRowsTables(s.db.labs, s.db.subs, s.db.scores, s.db.board, s.db.jobs, s.hist.claims, s.nextId, rows,
                    s'.db.subs);
    ResetRowsHistory(s.db.subs, s.db.bonus, s.hist, rows, s'.db.subs);
    ResetRowsRely(s.db.subs, s.hist, rows, s'.db.subs, held);
    UnchangedLabs(s.db.labs);
    UnchangedJobs(s.db.jobs, held);
    UnchangedBonus(s.db.bonus, held);
    UnchangedNonces(s.db.nonces, held);
  }

  lemma ResetRowsRely(subs: Subs, h: History, rows: set<SubId>, subs': Subs, held: set<Token>)
    requires ResetFrom(subs, rows, subs') && (forall x | x in rows :: x in subs && IsActive(subs[x].quota))
    requires CapInv(subs, h.everReset, h.admitted) && held == set x | x in rows :: SubLock(x)
    ensures CapInv(subs', h.everReset + rows, h.admitted)
    ensures RelySubs(subs, subs', held) && RelyUsage(subs, h.everReset, subs', h.everReset + rows, held)
  {
    ShrinkingUsage(subs, h.everReset, subs', h.everReset + rows, h.admitted, held);
  }

  ghost predicate ResetFrom(subs: Subs, rows: set<SubId>, subs': Subs) {
    && subs'.Keys == subs.Keys
    && (forall x | x in subs :: subs'[x] == if x in rows then subs[x].(quota := AdminReset) else subs[x])
  }

  lemma ResetRowsTables(labs: map<LabId, Manifest>, subs: Subs, scores: map<SubId, map<MetricId, real>>,
                        board: map<Account, Entry>,
                        jobs: map<JobId, Job>, claims: map<JobId, nat>, nextId: nat, rows: set<SubId>, subs': Subs)
    requires ResetFrom(subs, rows, subs')
    requires RowsInv(labs, subs, nextId) && ScoresInv(labs, subs, scores) && BoardInv(subs, scores, board)
             && QueueInv(subs, jobs, claims, nextId)
    ensures RowsInv(labs, subs', nextId) && ScoresInv(labs, subs', scores) && BoardInv(subs', scores, board)
            && QueueInv(subs', jobs, claims, nextId)
  {}

  lemma ResetRowsHistory(subs: Subs, bonus: map<Account, int>, h: History, rows: set<SubId>, subs': Subs)
    requires ResetFrom(subs, rows, subs') && rows <= subs.Keys && (forall x | x in rows :: IsActive(subs[x].quota))
    requires HistoryInv(subs, h) && CreditsInv(subs, bonus)
    ensures HistoryInv(subs', h.(everReset := h.everReset + rows)) && CreditsInv(subs', bonus)
  {
    var h' := h.(everReset := h.everReset + rows);
    forall y | y in subs' ensures RowHistory(h', y, subs'[y].quota) {
      assert RowHistory(h, y, subs[y].quota);
    }
  }

  lemma DailyResetStep(s: State, lab: LabId, since: Time, visible: set<SubId>, s': State)
    requires Inv(s) && DailyReset(s, lab, since, visible, s')
    ensures Inv(s')
  {
    var rows := ResetRows(s.db, lab, since, visible);
    ResetRowsDb(s, rows, s');
    ConcludeAdmin(s, s', set x | x in rows :: SubLock(x));
  }

  // Bonus counters may change at will as long as none disappears or becomes negative.
  lemma BonusRowsDb(s: State, accounts: set<Account>, s': State)
    requires DbInv(s) && s' == s.(db := s.db.(bonus := s'.db.bonus))
    requires s.db.bonus.Keys <= s'.db.bonus.Keys && s'.db.bonus.Keys <= s.db.bonus.Keys + accounts
    requires forall a | a in s'.db.bonus ::
               if a in accounts then s'.db.bonus[a] >= 0 else s'.db.bonus[a] == s.db.bonus[a]
    ensures DbInv(s') && Rely(s, s', set a | a in accounts :: BonusLock(a))
  {
    var held := set a | a in accounts :: BonusLock(a);
    assert CreditsInv(s'.db.subs, s'.db.bonus) by {
      assert CreditsInv(s.db.subs, s.db.bonus);
    }
    ShrinkingUsage(s.db.subs, s.hist.everReset, s'.db.subs, s'.hist.everReset, s.hist.admitted, held);
    assert RelyBonus(s.db.bonus, s'.db.bonus, held);
    UnchangedLabs(s.db.labs);
    UnchangedSubs(s.db.subs, held);
    UnchangedJobs(s.db.jobs, held);
    UnchangedNonces(s.db.nonces, held);
  }

  lemma BonusAdjustStep(s: State, lab: LabId, delta: int, visible: set<SubId>, s': State)
    requires Inv(s) && BonusAdjust(s, lab, delta, visible, s')
    ensures Inv(s')
  {
    var accounts := Participants(s.db, lab, visible);
    BonusRowsDb(s, accounts, s');
    ConcludeAdmin(s, s', set a | a in accounts :: BonusLock(a));
  }

  lemma BonusResetStep(s: State, lab: LabId, visible: set<Account>, s': State)
    requires Inv(s) && BonusReset(s, lab, visible, s')
    ensures Inv(s')
  {
    var accounts := PositiveBonusRows(s.db, lab, visible);
    BonusRowsDb(s, accounts, s');
    ConcludeAdmin(s, s', set a | a in accounts :: BonusLock(a));
  }

  // ----- reevaluation

  ghost predicate DistinctCopies(made: seq<Copy>) {
    && (forall i | 0 <= i < |made| :: made[i].sub < made[i].job)
    && (forall i, j | 0 <= i < j < |made| :: made[i].job < made[j].sub)
  }

  lemma {:induction false} MadeBelow(made: seq<Copy>, n: nat)
    requires DistinctCopies(made) && (made != [] ==> made[|made| - 1].job < n)
    ensures forall y | y in MadeSubs(made) :: y < n
    ensures forall y | y in MadeJobs(made) :: y < n
  {
    if made != [] {
      var init, last := made[..|made| - 1], made[|made| - 1];
      assert init != [] ==> init[|init| - 1].job < last.sub;
      MadeBelow(init, last.sub);
    }
  }

  /** The inserted rows are one submission and one job for each copy. */
  lemma {:induction false} MadeSubRows(made: seq<Copy>)
    requires DistinctCopies(made)
    ensures forall i | 0 <= i < |made| :: made[i].sub in MadeSubs(made) && MadeSubs(made)[made[i].sub] == made[i].row
    ensures |MadeSubs(made)| == |made|
  {
    if made != [] {
      var init, last := made[..|made| - 1], made[|made| - 1];
      MadeSubRows(init);
      assert init != [] ==> init[|init| - 1].job < last.sub;
      MadeBelow(init, last.sub);
      assert forall i | 0 <= i < |init| :: made[i] == init[i];
    }
  }

  lemma {:induction false} MadeJobRows(made: seq<Copy>)
    requires DistinctCopies(made)
    ensures forall i | 0 <= i < |made| :: made[i].job in MadeJobs(made)
                                          && MadeJobs(made)[made[i].job] == NewJob(made[i].sub, made[i].row.createdAt)
    ensures |MadeJobs(made)| == |made|
  {
    if made != [] {
      var init, last := made[..|made| - 1], made[|made| - 1];
      MadeJobRows(init);
      assert init != [] ==> init[|init| - 1].job < last.sub;
      MadeBelow(init, last.sub);
      assert forall i | 0 <= i < |init| :: made[i] == init[i];
    }
  }

  // One more row in each table, the job for the submission.
  lemma NewJobQueue(subs: Subs, jobs: map<JobId, Job>, claims: map<JobId, nat>, nextId: nat, sub: SubId,
                    row: Submission, j: JobId, job: Job)
    requires QueueInv(subs, jobs, claims, nextId) && sub !in subs && j !in jobs && j < nextId
    requires job.submission == sub && job.status == Queued && job.worker.None? && job.attempts == 0
    ensures QueueInv(subs[sub := row], jobs[j := job], claims[j := 0], nextId)
  {}

  lemma {:induction false} MadeQueue(subs: Subs, jobs: map<JobId, Job>, claims: map<JobId, nat>, made: seq<Copy>,
                                     nextId: nat)
    requires QueueInv(subs, jobs, claims, nextId) && DistinctCopies(made)
    requires forall i | 0 <= i < |made| :: made[i].job < nextId && made[i].sub !in subs && made[i].job !in jobs
    ensures QueueInv(subs + MadeSubs(made), jobs + MadeJobs(made), claims + MadeClaims(made), nextId)
  {
    if made == [] {
      assert subs + MadeSubs(made) == subs && jobs + MadeJobs(made) == jobs && claims + MadeClaims(made) == claims;
    } else {
      var init, last := made[..|made| - 1], made[|made| - 1];
      assert made[|made| - 1].sub !in subs && made[|made| - 1].job !in jobs;
      MadeQueue(subs, jobs, claims, init, nextId);
      assert init != [] ==> init[|init| - 1].job < last.sub;
      MadeBelow(init, last.sub);
      MadeLast(subs, jobs, claims, made);
      NewJobQueue(subs + MadeSubs(init), jobs + MadeJobs(init), claims + MadeClaims(init), nextId,
                  last.sub, last.row, last.job, NewJob(last.sub, last.row.createdAt));
    }
  }

  lemma MadeLast(subs: Subs, jobs: map<JobId, Job>, claims: map<JobId, nat>, made: seq<Copy>)
    requires made != []
    ensures
      var init, last := made[..|made| - 1], made[|made| - 1];
      && subs + MadeSubs(made) == (subs + MadeSubs(init))[last.sub := last.row]
      && jobs + MadeJobs(made) == (jobs + MadeJobs(init))[last.job := NewJob(last.sub, last.row.createdAt)]
      && claims + MadeClaims(made) == (claims + MadeClaims(init))[last.job := 0]
  {}

  lemma {:induction false} MadeFresh(s: State, made: seq<Copy>, held: set<Token>)
    requires forall i | 0 <= i < |made| :: CommittableCopy(s, made[i], held)
    ensures FreshFreeRows(s.db.labs, s.db.subs, MadeSubs(made), s.nextId, held)
    ensures forall y | y in MadeJobs(made) :: y !in s.db.jobs && NewId(y) in held
  {
    if made != [] {
      MadeFresh(s, made[..|made| - 1], held);
      assert CommittableCopy(s, made[|made| - 1], held);
    }
  }

  ghost predicate FreshFreeRows(labs: map<LabId, Manifest>, subs: Subs, rows: Subs, nextId: nat, held: set<Token>) {
    forall y | y in rows :: y < nextId && y !in subs && NewId(y) in held && rows[y].lab in labs && rows[y].quota == Free
  }

  lemma NewSubs(labs: map<LabId, Manifest>, subs: Subs, bonus: map<Account, int>, scores: map<SubId, map<MetricId,
                real>>,
                board: map<Account, Entry>, rows: Subs, nextId: nat, held: set<Token>)
    requires RowsInv(labs, subs, nextId) && CreditsInv(subs, bonus) && ScoresInv(labs, subs, scores)
             && BoardInv(subs, scores, board)
    requires FreshFreeRows(labs, subs, rows, nextId, held)
    ensures
      var subs' := subs + rows;
      && RowsInv(labs, subs', nextId) && CreditsInv(subs', bonus) && ScoresInv(labs, subs', scores)
         && BoardInv(subs', scores, board)
      && RelySubs(subs, subs', held)
  {}

  lemma NewFreeHistory(labs: map<LabId, Manifest>, subs: Subs, h: History, rows: Subs, claims: map<JobId, nat>,
                       nextId: nat, held: set<Token>)
    requires HistoryInv(subs, h) && CapInv(subs, h.everReset, h.admitted)
             && FreshFreeRows(labs, subs, rows, nextId, held)
    ensures
      var subs' := subs + rows;
      && HistoryInv(subs', h.(reevals := h.reevals + rows.Keys, claims := claims))
      && CapInv(subs', h.everReset, h.admitted) && RelyUsage(subs, h.everReset, subs', h.everReset, held)
  {
    var subs', h' := subs + rows, h.(reevals := h.reevals + rows.Keys, claims := claims);
    ShrinkingUsage(subs, h.everReset, subs', h.everReset, h.admitted, held);
    forall y | y in subs' ensures RowHistory(h', y, subs'[y].quota) {
      if y in subs {
        assert RowHistory(h, y, subs[y].quota);
      }
    }
  }

  lemma ReevalCommitDb(s: State, made: seq<Copy>, s': State, held: set<Token>)
    requires DbInv(s) && DistinctCopies(made) && s'.nextId == s.nextId
    requires forall i | 0 <= i < |made| :: CommittableCopy(s, made[i], held)
    requires s'.db == ReevalTables(s.db, made)
    requires s'.hist == s.hist.(reevals := s.hist.reevals + MadeSubs(made).Keys,
             claims := s.hist.claims + MadeClaims(made))
    ensures DbInv(s') && Rely(s, s', held)
  {
    MadeQueue(s.db.subs, s.db.jobs, s.hist.claims, made, s.nextId);
    MadeFresh(s, made, held);
    var rows := MadeSubs(made);
    assert RelyJobs(s.db.jobs, s'.db.jobs, held);
    NewSubs(s.db.labs, s.db.subs, s.db.bonus, s.db.scores, s.db.board, rows, s.nextId, held);
    NewFreeHistory(s.db.labs, s.db.subs, s.hist, rows, s'.hist.claims, s.nextId, held);
    UnchangedLabs(s.db.labs);
    UnchangedBonus(s.db.bonus, held);
    UnchangedNonces(s.db.nonces, held);
  }

  ghost predicate CommittableCopy(s: State, c: Copy, held: set<Token>) {
    && c.sub < s.nextId && c.job < s.nextId && c.sub !in s.db.subs && c.job !in s.db.jobs
    && c.row.lab in s.db.labs && c.row.quota == Free && NewId(c.sub) in held && NewId(c.job) in held
  }

  lemma ReevalReady(s: State, x: Proc)
    requires x.Reevaluation? && ReevalInv(s, x)
    ensures DistinctCopies(x.made)
    ensures forall i | 0 <= i < |x.made| :: CommittableCopy(s, x.made[i], Owned(x))
  {}

  lemma ReevalCommitStep(s: State, p: Pid, s': State)
    requires Inv(s) && ReevalCommit(s, p, s')
    ensures Inv(s')
  {
    var x := s.procs[p];
    ReevalReady(s, x);
    ReevalCommitDb(s, x.made, s', Owned(x));
    ConcludeWithout(s, s', p, Owned(x));
  }
}
