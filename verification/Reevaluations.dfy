/** A reevaluation queues one free copy of every submission on the leaderboard, and nobody's quota
    or credits ever notice. */
module Reevaluations {
  import opened Prelude
  import opened Lists
  import opened Tables
  import opened QuotaWindow
  import opened Protocol
  import opened Invariant
  import opened CommitSteps
  import opened SettleSteps
  import opened Induction
  import opened Credits
  import opened DailyCap
  import opened Admission
  import opened Standings

  // ----- one copy of every entry

  // How often sub is among the listed originals.
  function Times(rows: seq<SubId>, sub: SubId): nat {
    multiset(rows)[sub]
  }

  lemma {:induction false} OneTime(rows: seq<SubId>, i: nat)
    requires i < |rows| && forall k | 0 <= k < |rows| && k != i :: rows[k] != rows[i]
    ensures Times(rows, rows[i]) == 1
  {
    assert rows == rows[..i] + [rows[i]] + rows[i + 1..];
    assert rows[i] !in rows[..i] && rows[i] !in rows[i + 1..];
  }

  /** The list a reevaluation works through names, for every leaderboard entry of the lab, its
      submission exactly once, and no other submission. */
  lemma ListsEveryEntryOnce(s: State, p: Pid, lab: LabId, accounts: seq<Account>, s': State, a: Account)
    requires Inv(s) && ReevalBegin(s, p, lab, accounts, s')
    ensures |s'.procs[p].rows| == |BoardRows(s.db, lab)|
    ensures a in BoardRows(s.db, lab) ==> Times(s'.procs[p].rows, s.db.board[a].submission) == 1
    ensures forall x | x in s'.procs[p].rows :: exists b :: b in BoardRows(s.db, lab) && x == s.db.board[b].submission
  {
    hide Inv;
    var rows := s'.procs[p].rows;
    BoardOf(s);
    assert forall b | b in accounts :: b in BoardRows(s.db, lab);
    ListCard(accounts, BoardRows(s.db, lab));
    forall i, k | 0 <= i < |rows| && 0 <= k < |rows| && i != k ensures rows[i] != rows[k] {
      EntriesDiffer(s.db.subs, s.db.scores, s.db.board, accounts[i], accounts[k]);
    }
    if a in BoardRows(s.db, lab) {
      var i :| 0 <= i < |accounts| && accounts[i] == a;
      OneTime(rows, i);
    }
    forall x | x in rows ensures exists b :: b in BoardRows(s.db, lab) && x == s.db.board[b].submission {
      var i :| 0 <= i < |rows| && rows[i] == x;
      assert accounts[i] in BoardRows(s.db, lab);
    }
  }

  lemma BoardOf(s: State)
    requires Inv(s)
    ensures BoardInv(s.db.subs, s.db.scores, s.db.board)
  {}

  lemma EntriesDiffer(subs: Subs, scores: map<SubId, map<MetricId, real>>, board: map<Account, Entry>, a: Account,
                      b: Account)
    requires BoardInv(subs, scores, board) && a in board && b in board && a != b
    ensures board[a].submission != board[b].submission
  {}

  /** What a reevaluation commits: for the i-th listed original one new submission with the same
      user, lab, artifact and content, free of charge, and one queued job for it; nothing else. */
  lemma CommitsOneCopyEach(s: State, p: Pid, s': State, i: nat)
    requires Inv(s) && ReevalCommit(s, p, s') && i < |s.procs[p].rows|
    ensures |s'.db.subs| == |s.db.subs| + |s.procs[p].rows| && |s'.db.jobs| == |s.db.jobs| + |s.procs[p].rows|
    ensures
      var copy, original := s.procs[p].made[i], s.procs[p].rows[i];
      && original in s.db.subs && copy.sub !in s.db.subs && copy.job !in s.db.jobs
      && var row, at := s.db.subs[original], copy.row.createdAt;
         && copy.sub in s'.db.subs
         && s'.db.subs[copy.sub] ==
            Submission(row.user, row.lab, row.artifactKey, row.contentHash, SubmissionQueued, None, Free, at)
         && copy.job in s'.db.jobs && s'.db.jobs[copy.job] == Job(copy.sub, Queued, None, 0, at, at)
  {
    hide Inv;
    var made := s.procs[p].made;
    ReevalCounts(s, p, s');
    CopiesReady(s, p);
    MadeSubRows(made);
    MadeJobRows(made);
    CopyOf(s, p, i);
  }

  // ----- neutral for good

  lemma NewFreeUsage(subs: Subs, rows: Subs, a: Account, start: Time)
    requires subs.Keys !! rows.Keys && forall y | y in rows :: rows[y].quota == Free
    ensures Rows(subs + rows, a, start) == Rows(subs, a, start)
  {}

  lemma CopiesAreFree(s: State, p: Pid)
    requires Inv(s) && p in s.procs && s.procs[p].Reevaluation?
    ensures forall y | y in MadeSubs(s.procs[p].made) :: MadeSubs(s.procs[p].made)[y].quota == Free
    ensures s.db.subs.Keys !! MadeSubs(s.procs[p].made).Keys
  {
    ReevalReady(s, s.procs[p]);
    MadeFresh(s, s.procs[p].made, Owned(s.procs[p]));
  }

  /** Committing a reevaluation changes no usage and no credits of anyone. */
  lemma CommitIsNeutral(s: State, p: Pid, s': State, a: Account, start: Time)
    requires Inv(s) && ReevalCommit(s, p, s')
    ensures Rows(s'.db.subs, a, start) == Rows(s.db.subs, a, start)
    ensures Remaining(s'.db, a) == Remaining(s.db, a) && Balance(s'.db, a) == Balance(s.db, a)
  {
    hide Inv;
    CopiesAreFree(s, p);
    NewFreeUsage(s.db.subs, MadeSubs(s.procs[p].made), a, start);
    ReevalBalance(s, p, s', a);
  }

  lemma FreeSettlementIsNeutral(s: State, p: Pid, s': State, a: Account, start: Time)
    requires Inv(s) && PersistCommit(s, p, s')
    requires s.procs[p].task.stage.snap.sub in s.db.subs && s.db.subs[s.procs[p].task.stage.snap.sub].quota == Free
    ensures Rows(s'.db.subs, a, start) == Rows(s.db.subs, a, start) && s'.db.bonus == s.db.bonus
    ensures Balance(s'.db, a) == Balance(s.db, a)
  {
    hide Inv;
    PersistIsAtomic(s, p, s');
    PersistBalance(s, p, s', a);
    SettlingSnapshot(s, p, s');
    FreeRowUsage(s.db.subs, s.procs[p].task.stage.snap.sub, s'.db.subs, a, start);
  }

  lemma FreeRowUsage(subs: Subs, sub: SubId, subs': Subs, a: Account, start: Time)
    requires sub in subs && subs[sub].quota == Free && sub in subs' && subs' == subs[sub := subs'[sub]]
             && subs'[sub].quota == Free
    ensures Rows(subs', a, start) == Rows(subs, a, start)
  {}

  // The submissions a commit of a reevaluation adds.
  ghost predicate BornInReevaluation(r: Run, i: nat, sub: SubId)
    requires i < |r.steps| && IsRun(r)
  {
    r.steps[i].StepReevalCommit? && sub !in r.states[i].db.subs && sub in r.states[i + 1].db.subs
  }

  lemma BornFree(s: State, p: Pid, s': State, sub: SubId)
    requires Inv(s) && ReevalCommit(s, p, s') && sub !in s.db.subs && sub in s'.db.subs
    ensures s'.db.subs[sub].quota == Free
  {
    hide Inv;
    CopiesAreFree(s, p);
  }

  /** Neutral for good: however the copies are evaluated later, claimed again or settled, they stay
      free and their settlement changes no usage, no credits and no balance of anyone. */
  lemma ReevaluationIsNeutral(r: Run, i: nat, n: nat, sub: SubId, a: Account, start: Time)
    requires IsRun(r) && i < n < |r.steps| && BornInReevaluation(r, i, sub)
    ensures sub in r.states[n].db.subs && r.states[n].db.subs[sub].quota == Free
    ensures r.steps[n].StepPersistCommit? && IsPersisting(r.states[n], r.steps[n].p)
            && r.states[n].procs[r.steps[n].p].task.stage.snap.sub == sub ==>
              && Rows(r.states[n + 1].db.subs, a, start) == Rows(r.states[n].db.subs, a, start)
              && Remaining(r.states[n + 1].db, a) == Remaining(r.states[n].db, a)
              && Balance(r.states[n + 1].db, a) == Balance(r.states[n].db, a)
  {
    hide Inv, Rows, Balance;
    RunInv(r, i);
    BornAndFree(r.states[i], r.steps[i], r.states[i + 1], sub);
    FreeForever(r, i + 1, n, sub);
    RunInv(r, n);
    var s, step, s' := r.states[n], r.steps[n], r.states[n + 1];
    if step.StepPersistCommit? && IsPersisting(s, step.p) && s.procs[step.p].task.stage.snap.sub == sub {
      CommitOf(s, step, s');
      FreeSettlementIsNeutral(s, step.p, s', a, start);
    }
  }

  lemma BornAndFree(s: State, step: Step, s': State, sub: SubId)
    requires Inv(s) && Next(s, step, s') && step.StepReevalCommit? && sub !in s.db.subs && sub in s'.db.subs
    ensures s'.db.subs[sub].quota == Free
  {
    hide Inv;
    BornFree(s, step.p, s', sub);
  }
}
