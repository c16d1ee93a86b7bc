/** Steps that change one process and no committed row, and the argument all steps share:
    a step that only uses what its process owns, or what nobody owns, leaves everyone else's
    assumptions and the mutual exclusion intact. */
module LocalSteps {
  import opened Prelude
  import opened Tables
  import opened QuotaWindow
  import opened Evaluation
  import opened Protocol
  import opened Invariant

  function OwnedAt(s: State, p: Pid): set<Token> {
    if p in s.procs then Owned(s.procs[p]) else {}
  }

  ghost predicate OthersAvoid(s: State, p: Pid, ts: set<Token>) {
    forall q | q in s.procs && q != p :: Owned(s.procs[q]) !! ts
  }

  lemma Conclude(s: State, s': State, p: Pid, x: Proc, extra: set<Token>, held: set<Token>)
    requires ProcsInv(s) && Exclusive(s)
    requires s'.procs == s.procs[p := x]
    requires Owned(x) <= OwnedAt(s, p) + extra && held <= OwnedAt(s, p) + extra
    requires OthersAvoid(s, p, extra)
    requires Rely(s, s', held) && ProcInv(s', x)
    ensures ProcsInv(s') && Exclusive(s')
  {
    forall q | q in s.procs && q != p
      ensures ProcInv(s', s.procs[q]) && Owned(x) !! Owned(s.procs[q])
    {
      Stable(s, s', held, s.procs[q]);
    }
  }

  lemma ConcludeWithout(s: State, s': State, p: Pid, held: set<Token>)
    requires ProcsInv(s) && Exclusive(s)
    requires p in s.procs && s'.procs == s.procs - {p}
    requires held <= Owned(s.procs[p])
    requires Rely(s, s', held)
    ensures ProcsInv(s') && Exclusive(s')
  {
    forall q | q in s'.procs
      ensures ProcInv(s', s'.procs[q])
    {
      Stable(s, s', held, s.procs[q]);
    }
  }

  lemma ConcludeAdmin(s: State, s': State, held: set<Token>)
    requires ProcsInv(s) && Exclusive(s)
    requires s'.procs == s.procs && NobodyHolds(s, held)
    requires Rely(s, s', held)
    ensures ProcsInv(s') && Exclusive(s')
  {
    forall q | q in s.procs ensures ProcInv(s', s.procs[q]) {
      Stable(s, s', held, s.procs[q]);
    }
  }

  lemma ProcOf(s: State, p: Pid)
    requires ProcsInv(s) && p in s.procs
    ensures ProcInv(s, s.procs[p])
  {}

  // ----- steps that leave the committed tables alone

  ghost predicate SameTables(s: State, s': State) {
    s'.db == s.db && s'.hist == s.hist && s.nextId <= s'.nextId
  }

  lemma LocalDb(s: State, s': State)
    requires DbInv(s) && SameTables(s, s')
    ensures DbInv(s')
  {}

  lemma RelyLocal(s: State, s': State)
    requires SameTables(s, s')
    ensures Rely(s, s', {})
  {}

  // Process p becomes x, using what it owned and some tokens nobody owns.
  lemma Local(s: State, s': State, p: Pid, x: Proc, extra: set<Token>)
    requires ProcsInv(s) && Exclusive(s) && SameTables(s, s') && s'.procs == s.procs[p := x]
    requires Owned(x) <= OwnedAt(s, p) + extra && OthersAvoid(s, p, extra) && ProcInv(s', x)
    ensures ProcsInv(s') && Exclusive(s')
  {
    RelyLocal(s, s');
    Conclude(s, s', p, x, extra, {});
  }

  lemma LocalEnd(s: State, s': State, p: Pid)
    requires ProcsInv(s) && Exclusive(s) && SameTables(s, s') && p in s.procs && s'.procs == s.procs - {p}
    ensures ProcsInv(s') && Exclusive(s')
  {
    RelyLocal(s, s');
    ConcludeWithout(s, s', p, {});
  }

  // ----- ids and claims are exclusive

  lemma IdsDrawn(s: State, x: Proc, i: nat)
    requires ProcInv(s, x) && NewId(i) in Owned(x)
    ensures i < s.nextId
  {
    match x
    case Intake(_, ph, _, _, sub, job) =>
      assert IntakeInv(s, x);
    case Worker(_, Working(_, st)) =>
      NoIdsInStage(st, i);
    case _ =>
  }

  lemma NoIdsInStage(st: Stage, i: nat)
    ensures NewId(i) !in SnapToken(st) + TxTokens(st)
  {}

  lemma FreshId(s: State, p: Pid, i: nat)
    requires ProcsInv(s) && s.nextId <= i
    ensures OthersAvoid(s, p, {NewId(i)})
  {
    forall q | q in s.procs ensures NewId(i) !in Owned(s.procs[q]) {
      if NewId(i) in Owned(s.procs[q]) {
        IdsDrawn(s, s.procs[q], i);
      }
    }
  }

  lemma ClaimOwner(s: State, x: Proc, j: JobId)
    requires ProcInv(s, x) && JobClaim(j) in Owned(x)
    ensures x.Worker? && !x.task.Idle? && x.task.job == j && j in s.db.jobs
    ensures JobLock(j) in Owned(x) || (x.task.Working? && HeldBy(s.db, j, x.id))
  {
    if x.Worker? && x.task.Working? {
      NoClaimInStage(x.task.stage, j);
    }
  }

  lemma NoClaimInStage(st: Stage, j: JobId)
    ensures JobClaim(j) !in SnapToken(st) + TxTokens(st)
  {}

  lemma WorkOwner(s: State, x: Proc, sub: SubId)
    requires ProcInv(s, x) && WorkOn(sub) in Owned(x)
    ensures x.Worker? && x.task.Working? && JobClaim(x.task.job) in Owned(x)
    ensures x.task.job in s.db.jobs && s.db.jobs[x.task.job].submission == sub
  {}

  // ----- intake

  lemma IntakeBeginStep(s: State, p: Pid, req: Request, s': State)
    requires LabsInv(s.db.labs) && ProcsInv(s) && Exclusive(s) && IntakeBegin(s, p, req, s')
    ensures ProcsInv(s') && Exclusive(s')
  {
    assert IntakeInv(s', s'.procs[p]);
    Local(s, s', p, s'.procs[p], {});
  }

  lemma IntakeLockStep(s: State, p: Pid, s': State)
    requires ProcsInv(s) && Exclusive(s) && IntakeLock(s, p, s')
    ensures ProcsInv(s') && Exclusive(s')
  {
    var x := s.procs[p];
    Local(s, s', p, s'.procs[p], {DayLock(x.req.Owner(), WindowStart(x.req.now))});
  }

  lemma IntakeCountStep(s: State, p: Pid, s': State)
    requires ProcsInv(s) && Exclusive(s) && IntakeCount(s, p, s')
    ensures ProcsInv(s') && Exclusive(s')
  {
    CountedProc(s, s.procs[p], s', s'.procs[p]);
    Local(s, s', p, s'.procs[p], {});
  }

  lemma CountedProc(s: State, x: Proc, s': State, y: Proc)
    requires x.Intake? && x.phase == Locked && IntakeInv(s, x) && SameTables(s, s')
    requires y == x.(phase := Counted, used := CountedUse(s.db, x.req))
    ensures ProcInv(s', y) && Owned(y) <= Owned(x)
  {
    hide NeverReset, CountedUse;
    NeverResetCounted(s, x.req);
  }

  lemma NeverResetCounted(s: State, req: Request)
    requires req.daily > 0
    ensures |NeverReset(s.db.subs, s.hist.everReset, req.Owner(), WindowStart(req.now))| <= CountedUse(s.db, req)
  {
    var a, start := req.Owner(), WindowStart(req.now);
    SubsetCard(NeverReset(s.db.subs, s.hist.everReset, a, start), Rows(s.db.subs, a, start));
  }

  lemma IntakeDebitStep(s: State, p: Pid, s': State)
    requires ProcsInv(s) && Exclusive(s) && IntakeDebit(s, p, s')
    ensures ProcsInv(s') && Exclusive(s')
  {
    IntakeAdvances(s, s.procs[p], s', s'.procs[p], {BonusLock(s.procs[p].req.Owner())});
    Local(s, s', p, s'.procs[p], {BonusLock(s.procs[p].req.Owner())});
  }

  // One phase further, on the same tables.
  lemma IntakeAdvances(s: State, x: Proc, s': State, y: Proc, extra: set<Token>)
    requires x.Intake? && y.Intake? && IntakeInv(s, x) && SameTables(s, s') && y.req == x.req && y.used == x.used
    requires
      || (x.phase == Counted && y == x.(phase := Debited, debit := ConsumeBonus(s.db, x.req.Owner())) && y.debit.Some?
          && Exhausted(x.req, x.used) && extra == {BonusLock(x.req.Owner())})
      || (x.phase == Saved && y == x.(phase := Reserved) && x.req.nonce !in s.db.nonces
         && extra == {NonceLock(x.req.nonce)})
      || (x.phase == Reserved && y == x.(phase := Inserted, sub := s.nextId) && s.nextId !in s.db.subs
          && s'.nextId == s.nextId + 1 && extra == {NewId(s.nextId)})
      || (x.phase == Inserted && y == x.(phase := Enqueued, job := s.nextId) && s.nextId !in s.db.jobs
          && s'.nextId == s.nextId + 1 && extra == {NewId(s.nextId)})
    ensures ProcInv(s', y) && Owned(y) <= Owned(x) + extra
  {}

  lemma IntakeSaveStep(s: State, p: Pid, s': State)
    requires ProcsInv(s) && Exclusive(s) && IntakeSave(s, p, s')
    ensures ProcsInv(s') && Exclusive(s')
  {
    SavedProc(s, s.procs[p], s', s'.procs[p]);
    Local(s, s', p, s'.procs[p], {});
  }

  lemma SavedProc(s: State, x: Proc, s': State, y: Proc)
    requires x.Intake? && IntakeInv(s, x) && SameTables(s, s') && y == x.(phase := Saved)
    requires x.phase == Debited || (x.phase == Counted && !Exhausted(x.req, x.used))
    ensures ProcInv(s', y) && Owned(y) <= Owned(x)
  {}

  lemma IntakeReserveStep(s: State, p: Pid, s': State)
    requires ProcsInv(s) && Exclusive(s) && IntakeReserve(s, p, s')
    ensures ProcsInv(s') && Exclusive(s')
  {
    IntakeAdvances(s, s.procs[p], s', s'.procs[p], {NonceLock(s.procs[p].req.nonce)});
    Local(s, s', p, s'.procs[p], {NonceLock(s.procs[p].req.nonce)});
  }

  lemma IntakeDrawStep(s: State, p: Pid, s': State)
    requires s.nextId !in s.db.subs && s.nextId !in s.db.jobs
    requires ProcsInv(s) && Exclusive(s) && (IntakeInsert(s, p, s') || IntakeEnqueue(s, p, s'))
    ensures ProcsInv(s') && Exclusive(s')
  {
    FreshId(s, p, s.nextId);
    IntakeAdvances(s, s.procs[p], s', s'.procs[p], {NewId(s.nextId)});
    Local(s, s', p, s'.procs[p], {NewId(s.nextId)});
  }

  lemma IntakeAbortStep(s: State, p: Pid, s': State)
    requires ProcsInv(s) && Exclusive(s) && IntakeAbort(s, p, s')
    ensures ProcsInv(s') && Exclusive(s')
  {
    if HasSaved(s.procs[p]) {
      Local(s, s', p, s'.procs[p], {});
    } else {
      LocalEnd(s, s', p);
    }
  }

  // ----- workers

  lemma ClaimSelectStep(s: State, p: Pid, j: JobId, now: Time, s': State)
    requires ProcsInv(s) && Exclusive(s) && ClaimSelect(s, p, j, now, s')
    ensures ProcsInv(s') && Exclusive(s')
  {
    forall q | q in s.procs && q != p ensures Owned(s.procs[q]) !! {JobLock(j), JobClaim(j)} {
      if JobClaim(j) in Owned(s.procs[q]) {
        ClaimOwner(s, s.procs[q], j);
      }
    }
    assert WorkerInv(s', s'.procs[p]);
    Local(s, s', p, s'.procs[p], {JobLock(j), JobClaim(j)});
  }

  lemma LoadSubmissionStep(s: State, p: Pid, s': State)
    requires QueueInv(s.db.subs, s.db.jobs, s.hist.claims, s.nextId) && ProcsInv(s) && Exclusive(s)
             && LoadSubmission(s, p, s')
    ensures ProcsInv(s') && Exclusive(s')
  {
    var j := s.procs[p].task.job;
    var sub := s.db.jobs[j].submission;
    forall q | q in s.procs && q != p ensures Owned(s.procs[q]) !! {WorkOn(sub)} {
      NotWorkedOn(s, p, q, sub);
    }
    assert WorkerInv(s', s'.procs[p]);
    Local(s, s', p, s'.procs[p], {WorkOn(sub)});
  }

  lemma NotWorkedOn(s: State, p: Pid, q: Pid, sub: SubId)
    requires QueueInv(s.db.subs, s.db.jobs, s.hist.claims, s.nextId) && ProcsInv(s) && Exclusive(s)
    requires q in s.procs && q != p && IsWorking(s, p)
    requires s.procs[p].task.job in s.db.jobs && s.db.jobs[s.procs[p].task.job].submission == sub
    ensures WorkOn(sub) !in Owned(s.procs[q])
  {
    var claim := JobClaim(s.procs[p].task.job);
    assert claim in Owned(s.procs[p]) && claim !in Owned(s.procs[q]);
    if WorkOn(sub) in Owned(s.procs[q]) {
      WorkOwner(s, s.procs[q], sub);
    }
  }

  lemma WorkerStageStep(s: State, p: Pid, s': State)
    requires ProcsInv(s) && Exclusive(s)
    requires ClaimMark(s, p, s') || LoadManifest(s, p, s') || (exists r :: Evaluate(s, p, r, s'))
    ensures ProcsInv(s') && Exclusive(s')
  {
    assert WorkerInv(s', s'.procs[p]);
    Local(s, s', p, s'.procs[p], {});
  }

  lemma PersistResultStep(s: State, p: Pid, s': State)
    requires ProcsInv(s) && Exclusive(s) && PersistResult(s, p, s')
    ensures ProcsInv(s') && Exclusive(s')
  {
    assert WorkerInv(s', s'.procs[p]);
    Local(s, s', p, s'.procs[p], {SubLock(s.procs[p].task.stage.snap.sub)});
  }

  lemma PersistQuotaStep(s: State, p: Pid, s': State)
    requires CreditsInv(s.db.subs, s.db.bonus) && ProcsInv(s) && Exclusive(s) && PersistQuota(s, p, s')
    ensures ProcsInv(s') && Exclusive(s')
  {
    var st := s.procs[p].task.stage;
    assert WorkerInv(s, s.procs[p]);
    var credit := RefundedCredit(s.db, st.tx.row, st.m, st.r.verdict, st.snap.row.quota);
    assert WorkerInv(s', s'.procs[p]);
    Local(s, s', p, s'.procs[p], if credit.Some? then {BonusLock(st.tx.row.Owner())} else {});
  }

  lemma PersistScoreStep(s: State, p: Pid, k: MetricId, s': State)
    requires ProcsInv(s) && Exclusive(s) && PersistScore(s, p, k, s')
    ensures ProcsInv(s') && Exclusive(s')
  {
    assert WorkerInv(s, s.procs[p]);
    assert WorkerInv(s', s'.procs[p]);
    Local(s, s', p, s'.procs[p], {});
  }

  lemma PersistEntryStep(s: State, p: Pid, now: Time, s': State)
    requires ProcsInv(s) && Exclusive(s) && PersistEntry(s, p, now, s')
    ensures ProcsInv(s') && Exclusive(s')
  {
    assert WorkerInv(s, s.procs[p]);
    assert WorkerInv(s', s'.procs[p]);
    Local(s, s', p, s'.procs[p], {BoardLock(s.procs[p].task.stage.snap.row.Owner())});
  }

  // ----- reevaluation

  lemma ReevalBeginStep(s: State, p: Pid, lab: LabId, accounts: seq<Account>, s': State)
    requires BoardInv(s.db.subs, s.db.scores, s.db.board) && ProcsInv(s) && Exclusive(s)
             && ReevalBegin(s, p, lab, accounts, s')
    ensures ProcsInv(s') && Exclusive(s')
  {
    var x := s'.procs[p];
    forall i | 0 <= i < |x.rows|
      ensures x.rows[i] in s.db.subs && s.db.subs[x.rows[i]].Owner() == accounts[i] && accounts[i].lab == lab
    {
      assert accounts[i] in accounts;
    }
    assert ReevalInv(s', x);
    Local(s, s', p, x, {});
  }

  lemma ReevalRowStep(s: State, p: Pid, now: Time, s': State)
    requires s.nextId !in s.db.subs && s.nextId + 1 !in s.db.jobs
    requires ProcsInv(s) && Exclusive(s) && ReevalRow(s, p, now, s')
    ensures ProcsInv(s') && Exclusive(s')
  {
    hide ProcsInv, Exclusive, ProcInv, Owned;
    var x, y := s.procs[p], s'.procs[p];
    var copy := Copy(s.nextId, s.nextId + 1, FreeCopy(s.db.subs[x.rows[|x.made|]], now));
    FreshId(s, p, s.nextId);
    FreshId(s, p, s.nextId + 1);
    ProcOf(s, p);
    ReevalRowProc(s, x, copy, s', y);
    Local(s, s', p, y, {NewId(s.nextId), NewId(s.nextId + 1)});
  }

  lemma ReevalRowProc(s: State, x: Proc, copy: Copy, s': State, y: Proc)
    requires s.nextId !in s.db.subs && s.nextId + 1 !in s.db.jobs
    requires x.Reevaluation? && ProcInv(s, x) && |x.made| < |x.rows| && x.rows[|x.made|] in s.db.subs
    requires copy.sub == s.nextId && copy.job == s.nextId + 1
    requires copy.row == FreeCopy(s.db.subs[x.rows[|x.made|]], copy.row.createdAt)
    requires y == x.(made := x.made + [copy]) && s'.db == s.db && s'.nextId == s.nextId + 2
    ensures ProcInv(s', y)
    ensures Owned(y) <= Owned(x) + {NewId(s.nextId), NewId(s.nextId + 1)}
  {
    assert forall i | 0 <= i < |x.made| :: y.made[i] == x.made[i];
  }
}
