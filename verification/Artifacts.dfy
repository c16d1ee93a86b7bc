/** The artifacts of committed submissions, and the clean-up that may take them away: the key of an
    artifact is derived from its content, so a failing request can delete what it shares. */
module Artifacts {
  import opened Tables
  import opened Evaluation
  import opened Protocol
  import opened Invariant
  import opened Induction
  import opened Credits
  import opened DailyCap
  import opened Admission

  ghost predicate Retained(s: State) {
    forall x | x in s.db.subs :: s.db.subs[x].artifactKey in s.artifacts
  }

  ghost predicate UsedBySubmission(s: State, key: string) {
    exists x :: x in s.db.subs && s.db.subs[x].artifactKey == key
  }

  // The step of a clean-up that deletes the key, and the step of an intake that saves it.
  ghost predicate DeletesKey(s: State, step: Step, key: string) {
    step.StepCleanUp? && step.deleted && step.p in s.procs && s.procs[step.p] == Cleanup(key)
  }

  ghost predicate SavesKey(s: State, step: Step, key: string) {
    step.StepIntakeSave? && step.p in s.procs && s.procs[step.p].Intake? && s.procs[step.p].req.artifactKey == key
  }

  // The intake has saved its artifact under the key and has not ended.
  ghost predicate Carries(s: State, p: Pid, key: string) {
    p in s.procs && HasSaved(s.procs[p]) && s.procs[p].req.artifactKey == key
  }

  ghost predicate DeletesUsed(s: State, step: Step) {
    step.StepCleanUp? && step.p in s.procs && s.procs[step.p].Cleanup?
    && DeletesKey(s, step, s.procs[step.p].key) && UsedBySubmission(s, s.procs[step.p].key)
  }

  ghost predicate DeletesCarried(s: State, step: Step) {
    step.StepCleanUp? && step.p in s.procs && s.procs[step.p].Cleanup?
    && DeletesKey(s, step, s.procs[step.p].key) && exists p :: Carries(s, p, s.procs[step.p].key)
  }

  // Step c deletes the key that an intake carries, and step d commits that intake although nobody
  // saved the key again in between.
  ghost predicate LosesCarried(r: Run, c: nat, d: nat)
    requires IsRun(r)
  {
    && c < d < |r.steps| && r.steps[d].StepIntakeCommit? && IsIntake(r.states[d], r.steps[d].p, Enqueued)
    && var key := r.states[d].procs[r.steps[d].p].req.artifactKey;
       && DeletesKey(r.states[c], r.steps[c], key) && Carries(r.states[c], r.steps[d].p, key)
       && NotSavedBetween(r, c, d, key)
  }

  ghost predicate NotSavedBetween(r: Run, c: nat, d: nat, key: string)
    requires IsRun(r) && d < |r.states|
  {
    forall i | c < i < d :: !SavesKey(r.states[i], r.steps[i], key)
  }

  // (The loss itself, to which both causes lead.)
  ghost predicate CommitsDeleted(s: State, step: Step) {
    step.StepIntakeCommit? && IsIntake(s, step.p, Enqueued) && s.procs[step.p].req.artifactKey !in s.artifacts
  }

  // ----- one step

  /** One clean-up costs a committed submission its artifact exactly if it deletes a key in use. */
  lemma CleanUpRetainsIff(s: State, p: Pid, deleted: bool, s': State)
    requires Retained(s) && CleanUp(s, p, deleted, s')
    ensures Retained(s') <==> !DeletesUsed(s, StepCleanUp(p, deleted))
  {
    if DeletesUsed(s, StepCleanUp(p, deleted)) {
      var x :| x in s.db.subs && s.db.subs[x].artifactKey == s.procs[p].key;
      assert x in s'.db.subs && s'.db.subs[x].artifactKey !in s'.artifacts;
    }
  }

  lemma CommitRetainsIff(s: State, p: Pid, s': State)
    requires Inv(s) && Retained(s) && IntakeCommit(s, p, s')
    ensures Retained(s') <==> !CommitsDeleted(s, StepIntakeCommit(p))
  {
    hide Inv;
    ReadyIntake(s, p);
    var x := s.procs[p];
    assert s'.db.subs[x.sub].artifactKey == x.req.artifactKey;
    forall y | y in s'.db.subs && y != x.sub ensures s'.db.subs[y].artifactKey in s'.artifacts {
      assert y in s.db.subs && s'.db.subs[y] == s.db.subs[y];
    }
  }

  lemma ReevalRetains(s: State, p: Pid, s': State)
    requires Inv(s) && Retained(s) && ReevalCommit(s, p, s')
    ensures Retained(s')
  {
    hide Inv;
    var made := s.procs[p].made;
    forall i | 0 <= i < |made| ensures made[i].row.artifactKey in s.artifacts {
      CopyOf(s, p, i);
    }
    MadeRetained(made, s.artifacts);
  }

  lemma {:induction false} MadeRetained(made: seq<Copy>, artifacts: set<string>)
    requires forall i | 0 <= i < |made| :: made[i].row.artifactKey in artifacts
    ensures forall y | y in MadeSubs(made) :: MadeSubs(made)[y].artifactKey in artifacts
  {
    if made != [] {
      MadeRetained(made[..|made| - 1], artifacts);
    }
  }

  lemma SettleRetains(s: State, p: Pid, s': State)
    requires Inv(s) && Retained(s) && PersistCommit(s, p, s')
    ensures Retained(s')
  {
    hide Inv;
    forall x | x in s'.db.subs ensures s'.db.subs[x].artifactKey in s'.artifacts {
      SettleCountsNothing(s, p, s');
      SettleKeepsRow(s, p, s', x);
    }
  }

  lemma OtherStepsRetain(s: State, step: Step, s': State)
    requires Next(s, step, s') && Retained(s)
    requires !step.StepPersistCommit? && !step.StepIntakeCommit? && !step.StepReevalCommit? && !step.StepCleanUp?
    ensures Retained(s')
  {
    hide Inv;
    OtherStepsKeepArtifacts(s, step, s');
    OtherStepsCountNothing(s, step, s');
    forall x | x in s'.db.subs ensures s'.db.subs[x].artifactKey in s'.artifacts {
      hide Next;
      OtherStepsKeepRow(s, step, s', x);
    }
  }

  lemma OtherStepsKeepArtifacts(s: State, step: Step, s': State)
    requires Next(s, step, s') && !step.StepCleanUp?
    ensures s.artifacts <= s'.artifacts
  {
    if !IsIntakeStep(step) {
      hide Next;
      OthersTouchNoArtifact(s, step, s');
    } else {
      hide Owned, LockFree, CountedUse, ConsumeBonus;
    }
  }

  // Only intakes and their clean-ups save and delete, and carry keys.
  lemma OthersTouchNoArtifact(s: State, step: Step, s': State)
    requires Next(s, step, s') && !IsIntakeStep(step)
    ensures s'.artifacts == s.artifacts
  {
    hide Owned, LockFree, ClaimsBefore, RefundedCredit, QuotaRow, ValidResult, PersistTables, SettleJob;
  }

  lemma CleanUpOf(s: State, step: Step, s': State)
    requires Next(s, step, s') && step.StepCleanUp?
    ensures CleanUp(s, step.p, step.deleted, s')
  {}

  lemma StepRetainsIff(s: State, step: Step, s': State)
    requires Inv(s) && Next(s, step, s') && Retained(s)
    ensures Retained(s') <==> !DeletesUsed(s, step) && !CommitsDeleted(s, step)
  {
    hide Inv, Next, IntakeCommit, PersistCommit, ReevalCommit;
    CommitOf(s, step, s');
    match step
    case StepCleanUp(p, deleted) => CleanUpOf(s, step, s'); CleanUpRetainsIff(s, p, deleted, s');
    case StepIntakeCommit(p) => CommitRetainsIff(s, p, s');
    case StepPersistCommit(p) => SettleRetains(s, p, s');
    case StepReevalCommit(p) => ReevalRetains(s, p, s');
    case _ => OtherStepsRetain(s, step, s');
  }

  lemma {:induction false} RetainedStepwise(r: Run, n: nat)
    requires IsRun(r) && n < |r.states|
    ensures (forall k | 0 <= k <= n :: Retained(r.states[k])) <==>
            (forall k | 0 <= k < n :: !DeletesUsed(r.states[k], r.steps[k]) && !CommitsDeleted(r.states[k], r.steps[k]))
  {
    hide Inv, Next, Retained, DeletesUsed, CommitsDeleted;
    if n == 0 {
      NothingToRetain(r.states[0]);
    } else {
      RetainedStepwise(r, n - 1);
      if forall k | 0 <= k <= n - 1 :: Retained(r.states[k]) {
        RunInv(r, n - 1);
        StepRetainsIff(r.states[n - 1], r.steps[n - 1], r.states[n]);
      }
    }
  }

  lemma NothingToRetain(s: State)
    requires Init(s)
    ensures Retained(s)
  {}

  // ----- where a missing key went

  // A key is there after a step if it was there before and was not deleted, or is saved.
  lemma KeyStep(s: State, step: Step, s': State, key: string)
    requires Next(s, step, s')
    ensures key in s'.artifacts <==> SavesKey(s, step, key) || (key in s.artifacts && !DeletesKey(s, step, key))
  {
    if !IsIntakeStep(step) {
      hide Next;
      OthersTouchNoArtifact(s, step, s');
    } else {
      hide Owned, LockFree, CountedUse, ConsumeBonus;
    }
  }

  // An intake that carries a key carried it before, or has just saved it.
  lemma CarryStep(s: State, step: Step, s': State, p: Pid, key: string)
    requires Next(s, step, s') && Carries(s', p, key)
    ensures Carries(s, p, key) || SavesKey(s, step, key)
  {
    if !IsIntakeStep(step) {
      hide Next;
      OtherRequests(s, step, s', p);
    } else {
      hide Owned, LockFree, CountedUse, ConsumeBonus;
    }
  }

  lemma {:induction false} DeletedWhileCarried(r: Run, d: nat, p: Pid, key: string)
    requires IsRun(r) && d < |r.states| && Carries(r.states[d], p, key) && key !in r.states[d].artifacts
    ensures exists c: nat ::
              && c < d && DeletesKey(r.states[c], r.steps[c], key)
              && Carries(r.states[c], p, key) && NotSavedBetween(r, c, d, key)
  {
    hide Next, DeletesKey, SavesKey, Carries;
    if d == 0 {
      NothingCarried(r.states[0], p, key);
    } else {
      var s, step, s' := r.states[d - 1], r.steps[d - 1], r.states[d];
      KeyStep(s, step, s', key);
      CarryStep(s, step, s', p, key);
      if DeletesKey(s, step, key) {
        assert NotSavedBetween(r, d - 1, d, key);
      } else {
        DeletedWhileCarried(r, d - 1, p, key);
        var c: nat :| c < d - 1 && DeletesKey(r.states[c], r.steps[c], key) && Carries(r.states[c], p, key)
                      && NotSavedBetween(r, c, d - 1, key);
        assert NotSavedBetween(r, c, d, key);
      }
    }
  }

  lemma NothingCarried(s: State, p: Pid, key: string)
    requires Init(s)
    ensures !Carries(s, p, key)
  {}

  lemma {:induction false} StaysDeleted(r: Run, c: nat, d: nat, key: string)
    requires IsRun(r) && c < d < |r.states| && DeletesKey(r.states[c], r.steps[c], key) && NotSavedBetween(r, c, d, key)
    ensures key !in r.states[d].artifacts
  {
    hide Next, DeletesKey, SavesKey;
    var s, step, s' := r.states[d - 1], r.steps[d - 1], r.states[d];
    KeyStep(s, step, s', key);
    if c < d - 1 {
      StaysDeleted(r, c, d - 1, key);
    } else {
      DeletionSavesNothing(s, step, key);
    }
  }

  lemma DeletionSavesNothing(s: State, step: Step, key: string)
    requires DeletesKey(s, step, key)
    ensures !SavesKey(s, step, key)
  {}

  /** An intake commits without its artifact exactly if a clean-up deleted the key while the intake
      carried it and nobody saved the key again before the commit. */
  lemma CommitsDeletedIff(r: Run, d: nat)
    requires IsRun(r) && d < |r.steps|
    ensures CommitsDeleted(r.states[d], r.steps[d]) <==> exists c: nat :: LosesCarried(r, c, d)
  {
    hide Next, DeletesKey, SavesKey;
    if CommitsDeleted(r.states[d], r.steps[d]) {
      var p := r.steps[d].p;
      var key := r.states[d].procs[p].req.artifactKey;
      assert Carries(r.states[d], p, key);
      DeletedWhileCarried(r, d, p, key);
      var c: nat :| c < d && DeletesKey(r.states[c], r.steps[c], key)
                    && Carries(r.states[c], p, key) && NotSavedBetween(r, c, d, key);
      assert LosesCarried(r, c, d);
    }
    if c: nat :| LosesCarried(r, c, d) {
      StaysDeleted(r, c, d, r.states[d].procs[r.steps[d].p].req.artifactKey);
    }
  }

  // ----- whole runs

  /** All along a run every committed submission keeps its artifact if and only if no clean-up of a
      failed intake deletes a key that a committed submission uses, or a key that another intake
      carries and then commits without the key being saved again. */
  lemma ArtifactsRetainedIff(r: Run, n: nat)
    requires IsRun(r) && n < |r.states|
    ensures (forall k | 0 <= k <= n :: Retained(r.states[k])) <==>
            && (forall c | 0 <= c < n :: !DeletesUsed(r.states[c], r.steps[c]))
            && (forall c: nat, d: nat | d < n :: !LosesCarried(r, c, d))
  {
    hide Next, Retained, DeletesUsed, CommitsDeleted, LosesCarried;
    RetainedStepwise(r, n);
    if forall k | 0 <= k <= n :: Retained(r.states[k]) {
      forall c: nat, d: nat | d < n ensures !LosesCarried(r, c, d) {
        CommitsDeletedIff(r, d);
        assert !CommitsDeleted(r.states[d], r.steps[d]);
      }
    }
    if forall c: nat, d: nat | d < n :: !LosesCarried(r, c, d) {
      forall d | 0 <= d < n ensures !CommitsDeleted(r.states[d], r.steps[d]) {
        CommitsDeletedIff(r, d);
      }
    }
  }

  /** What a clean-up could check before it deletes: while every key it deletes is neither used by a
      committed submission nor carried by another intake, nothing is ever lost. */
  lemma SafeCleanUpsRetain(r: Run, n: nat)
    requires IsRun(r) && n < |r.states|
    requires forall c | 0 <= c < n :: !DeletesUsed(r.states[c], r.steps[c]) && !DeletesCarried(r.states[c], r.steps[c])
    ensures forall k | 0 <= k <= n :: Retained(r.states[k])
  {
    hide Next, Retained, DeletesUsed;
    forall c: nat, d: nat | d < n ensures !LosesCarried(r, c, d) {
      if LosesCarried(r, c, d) {
        LossIsCarried(r, c, d);
      }
    }
    ArtifactsRetainedIff(r, n);
  }

  lemma LossIsCarried(r: Run, c: nat, d: nat)
    requires IsRun(r) && LosesCarried(r, c, d)
    ensures DeletesCarried(r.states[c], r.steps[c])
  {
    hide Next;
    var s, key := r.states[c], r.states[d].procs[r.steps[d].p].req.artifactKey;
    assert s.procs[r.steps[c].p].key == key && Carries(s, r.steps[d].p, key);
  }

  // ----- the two ways to lose an artifact in use

  /** A request that repeats the content of a committed submission and then fails, for one because
      it is a replay and its nonce is used, takes the artifact of that submission with it. */
  lemma ReplayDeletesArtifact(s: State, p: Pid, req: Request, sub: SubId)
    requires sub in s.db.subs && s.db.subs[sub].artifactKey == req.artifactKey && req.artifactKey in s.artifacts
    requires req.nonce in s.db.nonces && CanBegin(s, p, req) && NobodyHolds(s, IntakeLocks(req))
    requires !Exhausted(req, CountedUse(s.db, req))
    ensures
      var begun, locked := Intaking(s, p, req, Begun), Intaking(s, p, req, Locked);
      var counted, saved := Intaking(s, p, req, Counted), Intaking(s, p, req, Saved);
      var failed := With(saved, p, Cleanup(req.artifactKey));
      var cleaned := Without(failed, p).(artifacts := failed.artifacts - {req.artifactKey});
      && IntakeBegin(s, p, req, begun) && IntakeLock(begun, p, locked)
      && IntakeCount(locked, p, counted) && IntakeSave(counted, p, saved)
      && (forall s' :: !IntakeReserve(saved, p, s'))
      && IntakeAbort(saved, p, failed) && CleanUp(failed, p, true, cleaned)
      && sub in cleaned.db.subs && cleaned.db.subs[sub].artifactKey !in cleaned.artifacts
  {
    hide Owned, CountedUse;
    IntakeAloneCounts(s, p, req);
    IntakeAloneSaves(s, p, req);
  }

  /** The transaction is rolled back before the clean-up runs: in between, a second request with the
      same content can take all its steps and commit, and lose its artifact to the first. */
  lemma LateCleanUpDeletesArtifact(s: State, q: Pid, p: Pid, req: Request)
    requires q in s.procs && s.procs[q] == Cleanup(req.artifactKey)
    requires CanBegin(s, p, req) && NobodyHolds(s, IntakeLocks(req)) && req.nonce !in s.db.nonces
    requires !Exhausted(req, CountedUse(s.db, req))
    ensures
      var committed := Committed(s, req);
      var cleaned := Without(committed, q).(artifacts := committed.artifacts - {req.artifactKey});
      && Next(Intaking(s, p, req, Enqueued), StepIntakeCommit(p), committed) && CleanUp(committed, q, true, cleaned)
      && s.nextId in cleaned.db.subs && cleaned.db.subs[s.nextId].artifactKey !in cleaned.artifacts
  {
    hide CountedUse;
    IntakeAloneCommits(s, p, req);
  }
}
