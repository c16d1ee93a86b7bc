/** The services as they run, statement by statement, against one store: intake, the job queue, the
    worker's settlement and the administrators' operations.  Each transaction works on a draft that
    only its commit publishes.  Other transactions are left out here; what they may do in between is
    the subject of Protocol, and Credits.PersistIsAtomic says why a settlement may ignore them. */
module Server {
  import opened Prelude
  import opened Tables
  import opened Text
  import opened QuotaWindow
  import opened Evaluation
  import opened Files
  import opened Protocol

  datatype ServiceError =
    | LabNotFound | LabExists | LabClosed | StructuralUpdate | InvalidManifest
    | BadFiles(reason: FileError) | UnknownKey | InvalidSignature | ExpiredTimestamp
    | QuotaExceeded(used: nat, daily: int) | NonceReplayed
    | InvalidResult | InvalidWorker | InvalidStatus | TransitionNotAllowed | ZeroDelta | MissingRow | StatementFailed

  // The points at which the database or the artifact store can fail.
  datatype Fault =
    | Begin | Lock | Count | Consume | SaveArtifact | DeleteArtifact | ReserveNonce | InsertSubmission | InsertJob
    | Select | Reread | Update | UpdateRunning | UpdateResult | UpdateQuota | UpdateJob | WriteScore | WriteEntry
    | Commit

  // A request as the handler passes it on.  user is whom the key belongs to, signed whether the
  // signature verifies, limit the parsed size limit.
  datatype Upload = Upload(lab: LabId, user: Option<UserId>, signed: bool, timestamp: Time, nonce: string,
                           files: seq<UploadFile>, limit: Option<int>, artifactKey: string, contentHash: string)

  datatype Receipt = Receipt(submission: SubId, quota: Option<QuotaSummary>)

  function RequestOf(u: Upload, m: Manifest, now: Time): Request
    requires u.user.Some?
  {
    Request(u.user.value, u.lab, u.nonce, u.artifactKey, u.contentHash, now, m.daily)
  }

  // freshWithin
  const MAX_SKEW := 300

  predicate FreshWithin(now: Time, ts: Time, maxSkew: int) {
    (if now - ts < 0 then -(now - ts) else now - ts) <= maxSkew
  }

  // ----- what a caller can tell from the tables, without the functions the service computes with

  // The lab takes submissions: neither end of its schedule, both of which belong to it, is passed.
  predicate InSchedule(m: Manifest, now: Time) {
    !(m.opens.Some? && now < m.opens.value) && !(m.closes.Some? && now > m.closes.value)
  }

  // How many submissions of the user count against the quota of the day, if there is a quota.
  function UsedBy(db: Tables, u: Upload, now: Time): nat
    requires u.lab in db.labs && u.user.Some?
  {
    if db.labs[u.lab].daily <= 0 then 0 else |CountingOn(db.subs, Account(u.user.value, u.lab), Day(now))|
  }

  predicate NeedsCredit(db: Tables, u: Upload, now: Time)
    requires u.lab in db.labs && u.user.Some?
  {
    db.labs[u.lab].daily > 0 && UsedBy(db, u, now) >= db.labs[u.lab].daily
  }

  // The signature is right and at most five minutes old, or ahead.
  predicate Signed(u: Upload, now: Time) { u.signed && now - 300 <= u.timestamp <= now + 300 }

  // The request can be taken.
  ghost predicate Presentable(db: Tables, u: Upload, now: Time) {
    && u.lab in db.labs && InSchedule(db.labs[u.lab], now)
    && u.limit.Some? && Acceptable(db.labs[u.lab].files, u.limit.value, u.files)
    && u.user.Some? && Signed(u, now)
  }

  ghost predicate Admissible(db: Tables, u: Upload, now: Time) {
    && Presentable(db, u, now)
    && (NeedsCredit(db, u, now) ==>
          && Account(u.user.value, u.lab) in db.bonus && db.bonus[Account(u.user.value, u.lab)] > 0)
    && u.nonce !in db.nonces
  }

  // The tables with one more submission and its job, paid by a credit or by the quota of the day.
  function WithSubmission(db: Tables, u: Upload, sub: SubId, job: JobId, byCredit: bool, now: Time): Tables
    requires u.user.Some? && (byCredit ==> Account(u.user.value, u.lab) in db.bonus)
  {
    var a := Account(u.user.value, u.lab);
    var row := Submission(a.user, a.lab, u.artifactKey, u.contentHash, SubmissionQueued, None,
                          if byCredit then Bonus else Pending, now);
    Tables(db.labs, db.subs[sub := row], db.jobs[job := Job(sub, Queued, None, 0, now, now)],
           if byCredit then db.bonus[a := db.bonus[a] - 1] else db.bonus,
           db.nonces + {u.nonce}, db.scores, db.board)
  }

  // The functions the service computes with say the same.
  lemma CallerCanTell(db: Tables, u: Upload, now: Time)
    requires u.lab in db.labs
    ensures LabOpen(db.labs[u.lab], now) <==> InSchedule(db.labs[u.lab], now)
    ensures u.limit.Some? && Acceptable(db.labs[u.lab].files, u.limit.value, u.files) <==>
              FileVerdict(db.labs[u.lab].files, u.limit, u.files).None?
    ensures u.user.Some? ==>
              var req := RequestOf(u, db.labs[u.lab], now);
              && CountedUse(db, req) == UsedBy(db, u, now)
              && (Exhausted(req, CountedUse(db, req)) <==> NeedsCredit(db, u, now))
              && (ConsumeBonus(db, req.Owner()).Some? <==> req.Owner() in db.bonus && db.bonus[req.Owner()] > 0)
  {
    if u.limit.Some? {
      FileVerdictMeans(db.labs[u.lab].files, u.limit.value, u.files);
    }
    if u.user.Some? {
      WindowCountsDay(db.subs, Account(u.user.value, u.lab), now);
    }
  }

  // The summary of the receipt: what is left of the day, and of the credits if one was used.
  function QuotaShown(db: Tables, u: Upload, byCredit: bool, now: Time): Option<QuotaSummary>
    requires u.lab in db.labs && u.user.Some? && (byCredit ==> Account(u.user.value, u.lab) in db.bonus)
  {
    var daily, used := db.labs[u.lab].daily, UsedBy(db, u, now) + if byCredit then 0 else 1;
    var left := if byCredit then db.bonus[Account(u.user.value, u.lab)] - 1 else 0;
    if daily <= 0 then None
    else Some(QuotaSummary(daily, used, if used < daily then daily - used else 0,
                           if left > 0 then Some(left) else None))
  }

  // The draft after the four statements of an intake.
  lemma IntakeDraft(db: Tables, req: Request, debit: Option<int>, sub: SubId, job: JobId, draft: Tables)
    requires
      draft == db.(bonus := if debit.Some? then db.bonus[req.Owner() := debit.value] else db.bonus,
                   nonces := db.nonces + {req.nonce},
                   subs := db.subs[sub := NewSubmission(req, if debit.Some? then Bonus else Pending)],
                   jobs := db.jobs[job := NewJob(sub, req.now)])
    ensures draft == IntakeTables(db, req, debit, sub, job)
  {}

  lemma SubmissionAdded(db: Tables, u: Upload, m: Manifest, sub: SubId, job: JobId, debit: Option<int>, now: Time)
    requires u.user.Some?
    requires debit.Some? ==> debit == ConsumeBonus(db, RequestOf(u, m, now).Owner())
    ensures IntakeTables(db, RequestOf(u, m, now), debit, sub, job) == WithSubmission(db, u, sub, job, debit.Some?, now)
  {}

  // ----- the statements of a settlement, each a function of the draft

  function ResultUpdated(db: Tables, sub: SubId, v: Verdict): Tables {
    if sub in db.subs then UpdateSubmissionRow(db, sub, ResultRow(db.subs[sub], v)) else db
  }

  function QuotaUpdated(db: Tables, sub: SubId, q: QuotaState): Tables {
    if sub in db.subs then UpdateSubmissionRow(db, sub, db.subs[sub].(quota := q)) else db
  }

  // RefundBonusSubmission: flips a bonus row and credits its owner's counter, if there is one.
  function Refunded(db: Tables, sub: SubId): Tables {
    if sub in db.subs && db.subs[sub].quota == Bonus then
      var owner := db.subs[sub].Owner();
      UpdateSubmissionRow(db, sub, db.subs[sub].(quota := Free)).(
        bonus := if owner in db.bonus then db.bonus[owner := db.bonus[owner] + 1] else db.bonus)
    else db
  }

  predicate RefundOverflows(db: Tables, sub: SubId) {
    && sub in db.subs && db.subs[sub].quota == Bonus && db.subs[sub].Owner() in db.bonus
    && db.bonus[db.subs[sub].Owner()] >= INT32_MAX
  }

  function ScoreWritten(db: Tables, sub: SubId, k: MetricId, value: real): Tables {
    db.(scores := db.scores[sub := GetOr(db.scores, sub, map[])[k := value]])
  }

  function Written(db: Tables, sub: SubId, scores: map<MetricId, real>): Tables {
    db.(scores := db.scores[sub := GetOr(db.scores, sub, map[]) + scores])
  }

  lemma WriteOne(db: Tables, sub: SubId, scores: map<MetricId, real>, todo: set<MetricId>, k: MetricId)
    requires k in todo && todo <= scores.Keys
    ensures
      var before := if todo == scores.Keys then db else Written(db, sub, scores - todo);
      ScoreWritten(before, sub, k, scores[k]) == Written(db, sub, scores - (todo - {k}))
  {
    var stored := GetOr(db.scores, sub, map[]);
    var part := if todo == scores.Keys then stored else stored + (scores - todo);
    assert part[k := scores[k]] == stored + (scores - (todo - {k}));
  }

  function Settled(db: Tables, m: Manifest, sub: SubId, loaded: Submission, r: EvalResult, now: Time): Tables {
    if sub in db.subs then Settle(db, m, sub, loaded, r, now) else db
  }

  lemma SettledStatus(db: Tables, m: Manifest, sub: SubId, loaded: Submission, r: EvalResult, now: Time)
    requires sub in db.subs
    ensures
      var row := Settle(db, m, sub, loaded, r, now).subs[sub];
      && row.status == (if r.verdict == Failed then SubmissionError else SubmissionDone)
      && row.verdict == Some(r.verdict)
  {}

  // A settlement the database takes: a valid result, scores for an existing row, room for a refund.
  ghost predicate CanPersist(db: Tables, m: Manifest, sub: SubId, loaded: Submission, r: EvalResult) {
    && ValidResult(m, r) && (r.verdict == Scored ==> sub in db.subs)
    && var refund := loaded.quota == Bonus && (r.verdict == Failed || (r.verdict in m.free && r.verdict != Scored));
       refund && sub in db.subs && db.subs[sub].quota == Bonus ==>
         GetOr(db.bonus, Account(db.subs[sub].user, db.subs[sub].lab), 0) < 2147483647
  }

  // ----- what a worker makes of a job

  // The job, its submission and the lab of that are there.
  predicate Loadable(db: Tables, j: JobId) {
    j in db.jobs && db.jobs[j].submission in db.subs && db.subs[db.jobs[j].submission].lab in db.labs
  }

  function Marked(db: Tables, j: JobId): Tables
    requires Loadable(db, j)
  {
    var sub := db.jobs[j].submission;
    UpdateSubmissionRow(db, sub, db.subs[sub].(status := SubmissionRunning))
  }

  function SettledFor(db: Tables, j: JobId, r: EvalResult, now: Time): Tables
    requires Loadable(db, j)
  {
    var sub := db.jobs[j].submission;
    Settle(db, db.labs[db.subs[sub].lab], sub, db.subs[sub], r, now)
  }

  function Handled(db: Tables, j: JobId, r: EvalResult, now: Time): Tables
    requires Loadable(db, j)
  {
    SettledFor(db, j, r, now).(jobs := db.jobs[j := db.jobs[j].(status := if r.verdict == Failed then Error else Done)])
  }

  // Everything is in place: the rows, a valid result, room for a refund, and the claim.
  ghost predicate CanHandle(db: Tables, j: JobId, w: WorkerId, r: EvalResult) {
    && Loadable(db, j) && TrimSpace(w) != "" && HeldBy(db, j, w)
    && var sub := db.jobs[j].submission;
       CanPersist(db, db.labs[db.subs[sub].lab], sub, db.subs[sub], r)
  }

  // The update is one the service makes.
  ghost predicate Updatable(db: Tables, lab: LabId, declared: LabId, m: Manifest) {
    ValidManifest(m) && declared == lab && lab in db.labs && SameStructure(db.labs[lab], m)
  }

  class Server {
    var rows: Tables            // committed
    var artifacts: set<string>
    var nextId: nat

    constructor ()
      ensures rows == EMPTY && artifacts == {} && nextId == 0
    {
      rows, artifacts, nextId := EMPTY, {}, 0;
    }

    // ----- intake

    /** Intake.  Any error leaves the tables as they were; success adds one submission and its job, paid
        by a credit if and only if the quota of the day is used up.  Without faults it succeeds exactly
        for admissible requests.  The first check that fails names the error. */
    method Intake(u: Upload, now: Time, faults: set<Fault>) returns (res: Result<Receipt, ServiceError>)
      modifies this
      ensures res.Err? ==> rows == old(rows)
      ensures res.Err? ==> artifacts == old(artifacts) || artifacts == old(artifacts) - {u.artifactKey}
                           || (artifacts == old(artifacts) + {u.artifactKey} && DeleteArtifact in faults)
      ensures res.Ok? ==> Admissible(old(rows), u, now) && artifacts == old(artifacts) + {u.artifactKey}
      ensures res.Ok? ==>
                var byCredit := NeedsCredit(old(rows), u, now);
                && rows == WithSubmission(old(rows), u, old(nextId), old(nextId) + 1, byCredit, now)
                && res.value.submission == old(nextId) && nextId == old(nextId) + 2
                && res.value.quota == QuotaShown(old(rows), u, byCredit, now)
      ensures faults == {} ==> (res.Ok? <==> Admissible(old(rows), u, now))
      ensures res == Err(LabNotFound) <==> u.lab !in old(rows).labs
      ensures res == Err(LabClosed) <==> u.lab in old(rows).labs && !InSchedule(old(rows).labs[u.lab], now)
      ensures res.Err? && res.error.BadFiles? <==>
                && u.lab in old(rows).labs && InSchedule(old(rows).labs[u.lab], now)
                && !(u.limit.Some? && Acceptable(old(rows).labs[u.lab].files, u.limit.value, u.files))
      ensures res == Err(UnknownKey) ==> u.user.None?
      ensures res == Err(InvalidSignature) ==> u.user.Some? && !u.signed
      ensures res == Err(ExpiredTimestamp) ==> u.user.Some? && u.signed && !Signed(u, now)
      ensures res.Err? && res.error.QuotaExceeded? ==>
                && Presentable(old(rows), u, now) && NeedsCredit(old(rows), u, now)
                && Remaining(old(rows), Account(u.user.value, u.lab)) <= 0
                && res.error == QuotaExceeded(UsedBy(old(rows), u, now), old(rows).labs[u.lab].daily)
      ensures res == Err(NonceReplayed) ==> Presentable(old(rows), u, now) && u.nonce in old(rows).nonces
    {
      hide FileVerdict, CountedUse, Acceptable, LabOpen;
      if u.lab !in rows.labs {
        return Err(LabNotFound);
      }
      CallerCanTell(rows, u, now);
      var m := rows.labs[u.lab];
      if !LabOpen(m, now) {
        return Err(LabClosed);
      }
      var problem := ValidateFiles(m.files, u.limit, u.files);
      if problem.Some? {
        return Err(BadFiles(problem.value));
      }
      if u.user.None? {
        return Err(UnknownKey);
      }
      if !u.signed {
        return Err(InvalidSignature);
      }
      if !FreshWithin(now, u.timestamp, MAX_SKEW) {
        return Err(ExpiredTimestamp);
      }
      var savedArtifact;
      res, savedArtifact := IntakeTransaction(u, m, now, faults);
      if savedArtifact && res.Err? {
        if DeleteArtifact !in faults {
          artifacts := artifacts - {u.artifactKey};
        }
      }
    }

    // From the start of the transaction to its end; the second result is whether the artifact was
    // saved.
    method IntakeTransaction(u: Upload, m: Manifest, now: Time, faults: set<Fault>)
      returns (res: Result<Receipt, ServiceError>, savedArtifact: bool)
      requires u.lab in rows.labs && rows.labs[u.lab] == m && u.user.Some?
      modifies this
      ensures res.Err? ==> rows == old(rows)
      ensures artifacts == if savedArtifact then old(artifacts) + {u.artifactKey} else old(artifacts)
      ensures res.Ok? ==>
                var a, byCredit := Account(u.user.value, u.lab), NeedsCredit(old(rows), u, now);
                && savedArtifact && u.nonce !in old(rows).nonces
                && (byCredit ==> a in old(rows).bonus && old(rows).bonus[a] > 0)
                && rows == WithSubmission(old(rows), u, old(nextId), old(nextId) + 1, byCredit, now)
                && res.value.submission == old(nextId) && nextId == old(nextId) + 2
                && res.value.quota == QuotaShown(old(rows), u, byCredit, now)
      ensures faults == {} && res.Err? ==> res.error.QuotaExceeded? || res.error == NonceReplayed
      ensures res.Err? && res.error.QuotaExceeded? ==>
                && NeedsCredit(old(rows), u, now) && Remaining(old(rows), Account(u.user.value, u.lab)) <= 0
                && res.error == QuotaExceeded(UsedBy(old(rows), u, now), m.daily)
      ensures res == Err(NonceReplayed) ==> u.nonce in old(rows).nonces
      ensures res.Err? ==>
                res.error in {QuotaExceeded(UsedBy(old(rows), u, now), m.daily), NonceReplayed, StatementFailed}
    {
      hide CountedUse, IntakeTables, WithSubmission, Acceptable, FileVerdict;
      CallerCanTell(rows, u, now);
      savedArtifact := false;
      var req := RequestOf(u, m, now);
      if Begin in faults || Lock in faults || Count in faults {
        return Err(StatementFailed), savedArtifact;
      }
      var draft := rows;
      var usedBefore := CountedUse(draft, req);
      var bonusUsed := false;
      var debit: Option<int> := None;
      if Exhausted(req, usedBefore) {
        if Consume in faults {
          return Err(StatementFailed), savedArtifact;
        }
        debit := ConsumeBonus(draft, req.Owner());
        if debit.None? {
          return Err(QuotaExceeded(usedBefore, m.daily)), savedArtifact;
        }
        draft := draft.(bonus := draft.bonus[req.Owner() := debit.value]);
        bonusUsed := true;
      }
      if SaveArtifact in faults {
        return Err(StatementFailed), savedArtifact;
      }
      artifacts := artifacts + {u.artifactKey};
      savedArtifact := true;
      if ReserveNonce in faults {
        return Err(StatementFailed), savedArtifact;
      }
      if req.nonce in draft.nonces {
        return Err(NonceReplayed), savedArtifact;
      }
      draft := draft.(nonces := draft.nonces + {req.nonce});
      if InsertSubmission in faults {
        return Err(StatementFailed), savedArtifact;
      }
      var sub := nextId;
      draft := draft.(subs := draft.subs[sub := NewSubmission(req, if bonusUsed then Bonus else Pending)]);
      if InsertJob in faults {
        return Err(StatementFailed), savedArtifact;
      }
      draft := draft.(jobs := draft.jobs[sub + 1 := NewJob(sub, now)]);
      if Commit in faults {
        return Err(StatementFailed), savedArtifact;
      }
      IntakeDraft(rows, req, debit, sub, sub + 1, draft);
      SubmissionAdded(rows, u, m, sub, sub + 1, debit, now);
      rows := draft;
      nextId := nextId + 2;
      var usedAfter := usedBefore;
      if !bonusUsed {
        usedAfter := usedAfter + 1;
      }
      var quota := BuildQuotaSummary(m.daily, usedAfter, if debit.Some? then debit.value else 0);
      return Ok(Receipt(sub, quota)), savedArtifact;
    }

    // ----- the worker

    /** Persist.  It commits a settlement as a whole or nothing, for valid results only; without
        faults it fails only for an invalid result, scores of a missing row, or a counter at its
        upper end.  A settled row shows the verdict, and the status error exactly for verdict error. */
    method Persist(m: Manifest, sub: SubId, loaded: Submission, r: EvalResult, now: Time, faults: set<Fault>)
      returns (res: Result<(), ServiceError>)
      modifies this`rows
      ensures res.Err? ==> rows == old(rows)
      ensures res.Ok? ==> CanPersist(old(rows), m, sub, loaded, r) && rows == Settled(old(rows), m, sub, loaded, r, now)
      ensures res.Ok? && sub in old(rows).subs ==>
                && IsSettlement(old(rows), m, sub, loaded, r, now, rows)
                && rows.subs[sub].status == (if r.verdict == Failed then SubmissionError else SubmissionDone)
                && rows.subs[sub].verdict == Some(r.verdict)
      ensures res.Ok? && sub !in old(rows).subs ==> rows == old(rows)
      ensures faults == {} ==> (res.Ok? <==> CanPersist(old(rows), m, sub, loaded, r))
    {
      hide IsSettlement;
      var valid := ValidateResult(m, r);
      if !valid {
        return Err(InvalidResult);
      }
      if Begin in faults || UpdateResult in faults || UpdateQuota in faults {
        return Err(StatementFailed);
      }
      var draft := ResultUpdated(rows, sub, r.verdict);
      var newQuotaState := QuotaStateFor(m, r.verdict);
      if loaded.quota == Free {
        newQuotaState := Free;
      }
      if loaded.quota == Bonus {
        if newQuotaState == Free {
          if RefundOverflows(draft, sub) {
            return Err(StatementFailed);
          }
          draft := Refunded(draft, sub);
        } else {
          draft := QuotaUpdated(draft, sub, Bonus);
        }
      } else {
        draft := QuotaUpdated(draft, sub, newQuotaState);
      }
      QuotaStatement(rows, m, sub, loaded, r.verdict);
      if r.verdict == Scored {
        if sub !in draft.subs {
          return Err(StatementFailed);
        }
        draft, valid := PersistScores(draft, sub, r.scores, faults);
        if !valid {
          return Err(StatementFailed);
        }
        if WriteEntry in faults {
          return Err(StatementFailed);
        }
        draft := draft.(board := draft.board[loaded.Owner() := Entry(sub, now)]);
      }
      if Commit in faults {
        return Err(StatementFailed);
      }
      if sub in rows.subs {
        SettleMeans(rows, m, sub, loaded, r, now);
        SettledStatus(rows, m, sub, loaded, r, now);
      }
      rows := draft;
      return Ok(());
    }

    // persistScores writes one metric after the other, in no particular order.
    method PersistScores(db: Tables, sub: SubId, scores: map<MetricId, real>, faults: set<Fault>)
      returns (draft: Tables, ok: bool)
      ensures ok && scores != map[] ==> draft == Written(db, sub, scores)
      ensures !ok ==> WriteScore in faults
    {
      draft := db;
      var todo := scores.Keys;
      while todo != {}
        invariant todo <= scores.Keys
        invariant todo == scores.Keys ==> draft == db
        invariant todo != scores.Keys ==> draft == Written(db, sub, scores - todo)
        decreases |todo|
      {
        if WriteScore in faults {
          return draft, false;
        }
        var k :| k in todo;
        WriteOne(db, sub, scores, todo, k);
        draft := ScoreWritten(draft, sub, k, scores[k]);
        todo := todo - {k};
      }
      assert scores - todo == scores;
      return draft, true;
    }

    // UpdateSubmissionRunning changes the status of the row, if there is one, and nothing else.
    method MarkRunning(sub: SubId, faults: set<Fault>) returns (res: Result<(), ServiceError>)
      modifies this`rows
      ensures res.Err? <==> UpdateRunning in faults
      ensures res.Err? || sub !in old(rows).subs ==> rows == old(rows)
      ensures rows == old(rows).(subs := rows.subs) && rows.subs.Keys == old(rows).subs.Keys
      ensures forall x | x in rows.subs && x != sub :: rows.subs[x] == old(rows).subs[x]
      ensures res.Ok? && sub in old(rows).subs ==>
                rows.subs[sub].status == SubmissionRunning
                && rows.subs[sub].(status := old(rows).subs[sub].status) == old(rows).subs[sub]
    {
      if UpdateRunning in faults {
        return Err(StatementFailed);
      }
      if sub in rows.subs {
        rows := UpdateSubmissionRow(rows, sub, rows.subs[sub].(status := SubmissionRunning));
      }
      return Ok(());
    }

    /** Handle, for a job the worker is to work on.  An evaluation that fails counts as the verdict
        error.  Success settles the submission from the row as it was loaded and finishes the job, as
        failed exactly if the verdict is error.  Whatever fails leaves one of three states: nothing
        done, the submission marked running, or settled with the job still as it was.  Without
        faults it succeeds exactly if everything is in place. */
    method Handle(j: JobId, w: WorkerId, evaluation: Result<EvalResult, string>, now: Time, faults: set<Fault>)
      returns (res: Result<(), ServiceError>)
      modifies this`rows
      ensures !Loadable(old(rows), j) ==> res.Err? && rows == old(rows)
      ensures Loadable(old(rows), j) ==>
                if res.Ok? then rows == Handled(old(rows), j, Evaluated(evaluation), now)
                else rows == old(rows) || rows == Marked(old(rows), j)
                     || (rows == SettledFor(old(rows), j, Evaluated(evaluation), now)
                         && (TrimSpace(w) == "" || UpdateJob in faults || !HeldBy(old(rows), j, w)))
      ensures res.Ok? ==>
                var sub, v := old(rows).jobs[j].submission, if evaluation.Ok? then evaluation.value.verdict else Failed;
                && CanHandle(old(rows), j, w, Evaluated(evaluation))
                && sub in rows.subs && rows.subs[sub].verdict == Some(v)
                && rows.subs[sub].status == (if v == Failed then SubmissionError else SubmissionDone)
                && rows.jobs == old(rows).jobs[j := old(rows).jobs[j].(status := if v == Failed then Error else Done)]
      ensures faults == {} ==> (res.Ok? <==> CanHandle(old(rows), j, w, Evaluated(evaluation)))
    {
      hide TrimSpace;
      if Select in faults || j !in rows.jobs || rows.jobs[j].submission !in rows.subs {
        return Err(MissingRow);
      }
      var sub := rows.jobs[j].submission;
      var loaded := rows.subs[sub];
      if loaded.lab !in rows.labs {
        return Err(LabNotFound);
      }
      var m := rows.labs[loaded.lab];
      res := MarkRunning(sub, faults);
      if res.Err? {
        return Err(StatementFailed);
      }
      RunningRow(old(rows), sub, rows);
      var r := EvalResult(Failed, map[], None, "");
      if evaluation.Ok? {
        r := evaluation.value;
      } else {
        r := r.(message := evaluation.error);
      }
      SettleIgnoresStatus(old(rows), m, sub, loaded, r, now);
      SettledStatus(old(rows), m, sub, loaded, r, now);
      res := Persist(m, sub, loaded, r, now, faults);
      if res.Err? {
        return res;
      }
      var status := Done;
      if r.verdict == Failed {
        status := Error;
      }
      res := Acknowledge(j, w, status, faults);
    }

    // ----- the queue

    /** Claim takes, of the queued jobs that are due, the first by due time and then by creation, and
        takes nothing exactly if every queued job is due later. */
    method Claim(w: WorkerId, now: Time, faults: set<Fault>) returns (res: Result<Option<(JobId, Job)>, ServiceError>)
      modifies this`rows
      ensures TrimSpace(w) == "" ==> res == Err(InvalidWorker)
      ensures res.Err? ==> rows == old(rows)
      ensures res == Ok(None) ==> rows == old(rows) && NothingDue(rows.jobs, now)
      ensures res.Ok? && res.value.Some? ==>
                var (j, job) := res.value.value;
                && FirstDue(old(rows).jobs, j, now)
                && var was := old(rows).jobs[j];
                   && job == Job(was.submission, Running, Some(w), was.attempts + 1, was.availableAt, was.createdAt)
                   && rows == old(rows).(jobs := old(rows).jobs[j := job])
      ensures faults == {} && TrimSpace(w) != "" ==> res.Ok? && (res == Ok(None) <==> NothingDue(old(rows).jobs, now))
    {
      hide TrimSpace;
      if TrimSpace(w) == "" {
        return Err(InvalidWorker);
      }
      if Begin in faults || Select in faults {
        return Err(StatementFailed);
      }
      var next := NextQueued(now);
      if next.None? {
        return Ok(None);
      }
      if Update in faults {
        return Err(StatementFailed);
      }
      var j := next.value;
      var draft := rows.(jobs := rows.jobs[j := JobMarkedRunning(rows.jobs[j], w)]);
      if Commit in faults {
        return Err(StatementFailed);
      }
      var job := rows.jobs[j];
      job := job.(status := Running);
      job := job.(attempts := job.attempts + 1);
      job := job.(worker := Some(w));
      rows := draft;
      return Ok(Some((j, job)));
    }

    // GetNextQueuedEvaluationJob
    method NextQueued(now: Time) returns (next: Option<JobId>)
      ensures next.None? <==> NothingDue(rows.jobs, now)
      ensures next.Some? ==> FirstDue(rows.jobs, next.value, now)
    {
      var todo := rows.jobs.Keys;
      next := None;
      while todo != {}
        invariant todo <= rows.jobs.Keys
        invariant next.Some? ==> Claimable(rows, next.value, now)
        invariant forall k | Claimable(rows, k, now) && k !in todo ::
                    next.Some? && ClaimsBefore(rows.jobs[next.value], rows.jobs[k])
        decreases |todo|
      {
        var k :| k in todo;
        if Claimable(rows, k, now) && (next.None? || !ClaimsBefore(rows.jobs[next.value], rows.jobs[k])) {
          next := Some(k);
        }
        todo := todo - {k};
      }
    }

    method Acknowledge(j: JobId, w: WorkerId, status: JobStatus, faults: set<Fault>)
      returns (res: Result<(), ServiceError>)
      modifies this`rows
      ensures res.Ok? <==>
                TrimSpace(w) != "" && (status == Done || status == Error) && UpdateJob !in faults
                && RunsUnder(old(rows).jobs, j, w)
      ensures res.Err? ==> rows == old(rows)
      ensures res.Ok? ==> rows == old(rows).(jobs := old(rows).jobs[j := old(rows).jobs[j].(status := status)])
      ensures res == Err(TransitionNotAllowed) ==> !RunsUnder(old(rows).jobs, j, w)
    {
      hide TrimSpace;
      if TrimSpace(w) == "" {
        return Err(InvalidWorker);
      }
      if status != Done && status != Error {
        return Err(InvalidStatus);
      }
      if UpdateJob in faults {
        return Err(StatementFailed);
      }
      var updated := HeldBy(rows, j, w);
      rows := SettleJob(rows, j, w, Acknowledged(status));
      if !updated {
        return Err(TransitionNotAllowed);
      }
      return Ok(());
    }

    method Retry(j: JobId, w: WorkerId, availableAt: Time, faults: set<Fault>) returns (res: Result<(), ServiceError>)
      modifies this`rows
      ensures res.Ok? <==> TrimSpace(w) != "" && UpdateJob !in faults && RunsUnder(old(rows).jobs, j, w)
      ensures res.Err? ==> rows == old(rows)
      ensures res.Ok? ==>
                var job := old(rows).jobs[j].(status := Queued, worker := None, availableAt := availableAt);
                rows == old(rows).(jobs := old(rows).jobs[j := job])
    {
      hide TrimSpace;
      if TrimSpace(w) == "" {
        return Err(InvalidWorker);
      }
      if UpdateJob in faults {
        return Err(StatementFailed);
      }
      var updated := HeldBy(rows, j, w);
      rows := SettleJob(rows, j, w, Retried(availableAt));
      if !updated {
        return Err(TransitionNotAllowed);
      }
      return Ok(());
    }

    // ----- labs

    method RegisterLab(lab: LabId, m: Manifest, faults: set<Fault>) returns (res: Result<(), ServiceError>)
      modifies this`rows
      ensures res.Err? ==> rows == old(rows)
      ensures res.Ok? ==>
                && ValidManifest(m) && lab !in old(rows).labs
                && rows == old(rows).(labs := rows.labs) && rows.labs.Keys == old(rows).labs.Keys + {lab}
                && rows.labs[lab] == m && forall l | l in old(rows).labs :: rows.labs[l] == old(rows).labs[l]
      ensures faults == {} ==> (res.Ok? <==> ValidManifest(m) && lab !in old(rows).labs)
    {
      var valid := ValidateManifest(m);
      if !valid {
        return Err(InvalidManifest);
      }
      if Select in faults || Update in faults {
        return Err(StatementFailed);
      }
      if lab in rows.labs {
        return Err(LabExists);
      }
      rows := rows.(labs := rows.labs[lab := m]);
      return Ok(());
    }

    /** UpdateLab, for the lab of the path and the id the manifest declares.  It replaces exactly the
        manifest, and only by one of the same structure.  The row is read again after it is stored:
        if that fails, the caller gets an error for an update that took place. */
    method UpdateLab(lab: LabId, declared: LabId, m: Manifest, faults: set<Fault>)
      returns (res: Result<(), ServiceError>)
      modifies this`rows
      ensures res.Ok? <==> Updatable(old(rows), lab, declared, m) && faults !! {Select, Update, Reread}
      ensures rows == old(rows).(labs := rows.labs) && rows.labs.Keys == old(rows).labs.Keys
      ensures forall l | l in rows.labs :: SameStructure(old(rows).labs[l], rows.labs[l])
                                           && MetricIds(rows.labs[l]) == MetricIds(old(rows).labs[l])
      ensures forall l | l in rows.labs ::
                rows.labs[l] == if l == lab && Updatable(old(rows), lab, declared, m) && faults !! {Select, Update}
                                then m else old(rows).labs[l]
    {
      var valid := ValidateManifest(m);
      if !valid {
        return Err(InvalidManifest);
      }
      if declared != lab {
        return Err(StructuralUpdate);
      }
      if Select in faults {
        return Err(StatementFailed);
      }
      if lab !in rows.labs {
        return Err(LabNotFound);
      }
      var same := CompareStructure(rows.labs[lab], m);
      if !same {
        return Err(StructuralUpdate);
      }
      if Update in faults {
        return Err(StatementFailed);
      }
      assert MetricIds(m) == MetricIds(rows.labs[lab]);
      rows := rows.(labs := rows.labs[lab := m]);
      if Reread in faults {
        return Err(StatementFailed);
      }
      return Ok(());
    }

    // ----- administration

    /** ResetLabQuota takes every pending or charged submission of the lab created since local midnight out
        of the count, and touches nothing else. */
    method ResetLabQuota(lab: LabId, now: Time, faults: set<Fault>) returns (res: Result<nat, ServiceError>)
      modifies this`rows
      ensures res.Err? <==> Update in faults
      ensures res.Err? ==> rows == old(rows)
      ensures res.Ok? ==>
                var reset := SinceMidnight(old(rows).subs, lab, Day(now));
                && res.value == |reset| && rows == old(rows).(subs := rows.subs)
                && rows.subs.Keys == old(rows).subs.Keys
                && (forall x | x in rows.subs ::
                      rows.subs[x] == if x in reset then old(rows).subs[x].(quota := AdminReset) else old(rows).subs[x])
                && forall user :: CountingOn(rows.subs, Account(user, lab), Day(now)) == {}
    {
      if Update in faults {
        return Err(StatementFailed);
      }
      var reset := ResetRows(rows, lab, WindowStart(now), rows.subs.Keys);
      WindowIsDay(now);
      assert reset == SinceMidnight(rows.subs, lab, Day(now));
      rows := AdminResetLabQuota(rows, reset);
      return Ok(|reset|);
    }

    /** AdjustBonusQuota.  Everyone who ever submitted to the lab gets the delta, but not below zero; it is
        cut to 32 bits on its way to the database. */
    method AdjustBonusQuota(labId: LabId, delta: int, dryRun: bool, faults: set<Fault>)
      returns (res: Result<nat, ServiceError>)
      modifies this`rows
      ensures res.Err? || dryRun ==> rows == old(rows)
      ensures res.Ok? ==> res.value == |Submitters(old(rows).subs, labId)|
      ensures res.Ok? && !dryRun ==> Adjusted(old(rows), rows, ToInt32(delta), Submitters(old(rows).subs, labId))
      ensures -2147483648 <= delta <= 2147483647 ==> ToInt32(delta) == delta
      ensures res == Err(LabNotFound) <==> TrimSpace(labId) !in old(rows).labs
      ensures res == Err(ZeroDelta) <==> TrimSpace(labId) in old(rows).labs && delta == 0
      ensures faults == {} ==>
                (res.Ok? <==>
                  && TrimSpace(labId) in old(rows).labs && delta != 0
                  && (dryRun || forall a | a in Submitters(old(rows).subs, labId) && a in old(rows).bonus ::
                                  -2147483648 <= old(rows).bonus[a] + ToInt32(delta) <= 2147483647))
    {
      hide TrimSpace, AdjustBonus, Participants, Submitters, Adjusted, ToInt32;
      ToInt32Means(delta);
      if TrimSpace(labId) !in rows.labs {
        return Err(LabNotFound);
      }
      if delta == 0 {
        return Err(ZeroDelta);
      }
      if Count in faults {
        return Err(StatementFailed);
      }
      var participants := Participants(rows, labId, rows.subs.Keys);
      AllSubmitters(rows, labId);
      if dryRun {
        return Ok(|participants|);
      }
      if Update in faults || !AdjustFits(rows, ToInt32(delta), participants) {
        return Err(StatementFailed);
      }
      EveryoneAdjusted(rows, ToInt32(delta), participants);
      rows := AdjustBonus(rows, ToInt32(delta), participants);
      return Ok(|participants|);
    }

    /** ResetBonusQuota sets the positive counters of the lab to zero, and touches nothing else. */
    method ResetBonusQuota(labId: LabId, dryRun: bool, faults: set<Fault>) returns (res: Result<nat, ServiceError>)
      modifies this`rows
      ensures res.Err? || dryRun ==> rows == old(rows)
      ensures res.Ok? && !dryRun ==>
                var cleared := set a | a in old(rows).bonus && a.lab == labId && old(rows).bonus[a] > 0;
                && res.value == |cleared| && rows == old(rows).(bonus := rows.bonus)
                && rows.bonus.Keys == old(rows).bonus.Keys
                && forall a | a in rows.bonus :: rows.bonus[a] == if a in cleared then 0 else old(rows).bonus[a]
      ensures res.Ok? && dryRun ==> res.value == |Submitters(old(rows).subs, labId)|
      ensures res == Err(LabNotFound) <==> TrimSpace(labId) !in old(rows).labs
      ensures faults == {} ==> (res.Ok? <==> TrimSpace(labId) in old(rows).labs)
    {
      hide TrimSpace;
      if TrimSpace(labId) !in rows.labs {
        return Err(LabNotFound);
      }
      if Count in faults {
        return Err(StatementFailed);
      }
      var participants := Participants(rows, labId, rows.subs.Keys);
      AllSubmitters(rows, labId);
      if dryRun {
        return Ok(|participants|);
      }
      if Update in faults {
        return Err(StatementFailed);
      }
      var affected := PositiveBonusRows(rows, labId, rows.bonus.Keys);
      assert affected == set a | a in rows.bonus && a.lab == labId && rows.bonus[a] > 0;
      rows := ResetBonus(rows, affected);
      return Ok(|affected|);
    }

    /** Reevaluate: one free copy with one job for every listed entry, all or nothing.  listed is the
        leaderboard of the lab in the order of the query. */
    method Reevaluate(lab: LabId, listed: seq<Account>, now: Time, faults: set<Fault>)
      returns (res: Result<nat, ServiceError>, ghost made: seq<Copy>)
      requires ListsBoard(rows, lab, listed)
      modifies this
      ensures res.Err? ==> rows == old(rows)
      ensures res.Ok? ==>
                && lab in old(rows).labs && res.value == |listed| == |made|
                && CopiesOf(old(rows), listed, made, old(nextId), now) && rows == ReevalTables(old(rows), made)
      ensures faults == {} && EntriesExist(old(rows), lab, listed) ==> res.Ok?
    {
      hide ReevalTables, CopiesOf;
      made := [];
      if lab !in rows.labs {
        return Err(LabNotFound), made;
      }
      if Begin in faults || Select in faults {
        return Err(StatementFailed), made;
      }
      var draft := rows;
      NoCopies(rows, nextId, now);
      var created := 0;
      for i := 0 to |listed|
        invariant rows == old(rows) && created == i == |made| && nextId == old(nextId) + 2 * i
        invariant draft == ReevalTables(rows, made) && CopiesOf(rows, listed[..i], made, old(nextId), now)
      {
        assert listed[i] in listed;
        var original := rows.board[listed[i]].submission;
        if original !in rows.subs {
          return Err(MissingRow), made;
        }
        if InsertSubmission in faults || InsertJob in faults {
          return Err(StatementFailed), made;
        }
        var row := FreeCopy(rows.subs[original], now);
        OneMoreCopy(rows, made, Copy(nextId, nextId + 1, row));
        draft := draft.(subs := draft.subs[nextId := row]);
        draft := draft.(jobs := draft.jobs[nextId + 1 := NewJob(nextId, now)]);
        MoreCopies(rows, listed, i, made, old(nextId), now);
        made := made + [Copy(nextId, nextId + 1, row)];
        nextId := nextId + 2;
        created := created + 1;
      }
      assert listed[..|listed|] == listed;
      if Commit in faults {
        return Err(StatementFailed), made;
      }
      rows := draft;
      return Ok(created), made;
    }
  }

  ghost predicate EntriesExist(db: Tables, lab: LabId, listed: seq<Account>) {
    lab in db.labs && forall a | a in listed :: a in db.board && db.board[a].submission in db.subs
  }

  // The i-th copy is a free copy of the submission of the i-th listed entry, with ids drawn in turn.
  ghost predicate CopiesOf(db: Tables, listed: seq<Account>, made: seq<Copy>, first: nat, now: Time) {
    && |made| == |listed|
    && forall k | 0 <= k < |made| ::
         && listed[k] in db.board && db.board[listed[k]].submission in db.subs
         && var row := db.subs[db.board[listed[k]].submission];
            made[k] == Copy(first + 2 * k, first + 2 * k + 1,
                            Submission(row.user, row.lab, row.artifactKey, row.contentHash, SubmissionQueued, None,
                                       Free, now))
  }

  lemma NoCopies(db: Tables, first: nat, now: Time)
    ensures ReevalTables(db, []) == db && CopiesOf(db, [], [], first, now)
  {}

  lemma MoreCopies(db: Tables, listed: seq<Account>, i: nat, made: seq<Copy>, first: nat, now: Time)
    requires i < |listed| && CopiesOf(db, listed[..i], made, first, now)
    requires listed[i] in db.board && db.board[listed[i]].submission in db.subs
    ensures
      var copy := Copy(first + 2 * i, first + 2 * i + 1, FreeCopy(db.subs[db.board[listed[i]].submission], now));
      CopiesOf(db, listed[..i + 1], made + [copy], first, now)
  {}

  // The pending and charged submissions of the lab since the midnight that begins the day.
  function SinceMidnight(subs: map<SubId, Submission>, lab: LabId, day: int): set<SubId> {
    set x | x in subs && subs[x].lab == lab && subs[x].createdAt >= day * 86400 - 28800
        && (subs[x].quota == Pending || subs[x].quota == Charged)
  }

  // Everyone who ever submitted to the lab.
  function Submitters(subs: map<SubId, Submission>, lab: LabId): set<Account> {
    set x | x in subs && subs[x].lab == lab :: Account(subs[x].user, lab)
  }

  lemma AllSubmitters(db: Tables, lab: LabId)
    ensures Participants(db, lab, db.subs.Keys) == Submitters(db.subs, lab)
  {}

  // Only the counters change, and each account given is moved by delta, not below zero.
  ghost predicate Adjusted(db: Tables, db': Tables, delta: int, accounts: set<Account>) {
    && db' == db.(bonus := db'.bonus) && db'.bonus.Keys == db.bonus.Keys + accounts
    && forall a | a in db'.bonus ::
         var left := if a in db.bonus then db.bonus[a] else 0;
         db'.bonus[a] == if a !in accounts then left else if left + delta < 0 then 0 else left + delta
  }

  lemma EveryoneAdjusted(db: Tables, delta: int, accounts: set<Account>)
    ensures Adjusted(db, AdjustBonus(db, delta, accounts), delta, accounts)
  {}

  // The result a worker persists: that of the evaluator, or verdict error if there is none.
  function Evaluated(evaluation: Result<EvalResult, string>): EvalResult {
    if evaluation.Ok? then evaluation.value else EvalResult(Failed, map[], None, evaluation.error)
  }

  // Validate, as far as manifests are modelled: it counts what is wrong and collects the metric ids.
  method ValidateManifest(m: Manifest) returns (ok: bool)
    ensures ok <==>
              && m.daily > 0 && m.files != [] && m.metrics != []
              && (forall v | v in m.free :: v == BuildFailed || v == Rejected)
              && (forall i | 0 <= i < |m.metrics| :: m.metrics[i].id != "")
              && (forall i, j | 0 <= i < j < |m.metrics| :: m.metrics[i].id != m.metrics[j].id)
              && m.rankBy != "" && (exists i :: 0 <= i < |m.metrics| && m.metrics[i].id == m.rankBy)
              && m.opens.Some? && m.closes.Some? && m.opens.value <= m.closes.value
    ensures ok <==> ValidManifest(m)
  {
    var problems := 0;
    if |m.files| == 0 {
      problems := problems + 1;
    }
    if m.daily <= 0 {
      problems := problems + 1;
    }
    if |m.metrics| == 0 {
      problems := problems + 1;
    }
    if m.opens.None? {
      problems := problems + 1;
    }
    if m.closes.None? {
      problems := problems + 1;
    }
    if m.opens.Some? && m.closes.Some? && m.opens.value > m.closes.value {
      problems := problems + 1;
    }
    ghost var sofar := problems;
    for i := 0 to |m.free|
      invariant problems >= sofar
      invariant problems == sofar <==> MayBeFree(m.free, i)
    {
      if m.free[i] != BuildFailed && m.free[i] != Rejected {
        problems := problems + 1;
      }
    }
    FreeByIndex(m.free);
    sofar := problems;
    var seen: set<MetricId> := {};
    for i := 0 to |m.metrics|
      invariant problems >= sofar
      invariant forall x :: x in seen <==> x != "" && exists k :: 0 <= k < i && m.metrics[k].id == x
      invariant problems == sofar <==> FineIds(m.metrics, i)
    {
      if m.metrics[i].id == "" {
        problems := problems + 1;
      } else {
        if m.metrics[i].id in seen {
          problems := problems + 1;
        }
        seen := seen + {m.metrics[i].id};
      }
    }
    if m.rankBy == "" || m.rankBy !in seen {
      problems := problems + 1;
    }
    return problems == 0;
  }

  ghost predicate MayBeFree(free: seq<Verdict>, n: nat)
    requires n <= |free|
  {
    forall k | 0 <= k < n :: free[k] == BuildFailed || free[k] == Rejected
  }

  lemma FreeByIndex(free: seq<Verdict>)
    ensures MayBeFree(free, |free|) <==> forall v | v in free :: v == BuildFailed || v == Rejected
  {
    if !MayBeFree(free, |free|) {
      var k :| 0 <= k < |free| && free[k] != BuildFailed && free[k] != Rejected;
      assert free[k] in free;
    }
  }

  // The first n ids are distinct and none is empty.
  ghost predicate FineIds(metrics: seq<Metric>, n: nat)
    requires n <= |metrics|
  {
    && (forall i | 0 <= i < n :: metrics[i].id != "")
    && forall i, j | 0 <= i < j < n :: metrics[i].id != metrics[j].id
  }

  // sameStructure
  method CompareStructure(current: Manifest, next: Manifest) returns (same: bool)
    ensures same <==> SameStructure(current, next)
  {
    if current.maxSize != next.maxSize {
      return false;
    }
    if |current.files| != |next.files| {
      return false;
    }
    for i := 0 to |current.files|
      invariant forall k | 0 <= k < i :: current.files[k] == next.files[k]
    {
      if current.files[i] != next.files[i] {
        return false;
      }
    }
    if |current.metrics| != |next.metrics| {
      return false;
    }
    if current.rankBy != next.rankBy {
      return false;
    }
    for i := 0 to |current.metrics|
      invariant forall k | 0 <= k < i :: current.metrics[k] == next.metrics[k]
    {
      if current.metrics[i].id != next.metrics[i].id {
        return false;
      }
      if current.metrics[i].sort != next.metrics[i].sort {
        return false;
      }
    }
    return true;
  }

  // The two statements on the submission, whichever branch is taken, make one settled row.
  lemma QuotaStatement(db: Tables, m: Manifest, sub: SubId, loaded: Submission, v: Verdict)
    ensures
      var draft := ResultUpdated(db, sub, v);
      var quota := NewQuotaState(m, v, loaded.quota);
      var after := if loaded.quota == Bonus && quota == Free then Refunded(draft, sub)
                   else if loaded.quota == Bonus then QuotaUpdated(draft, sub, Bonus)
                   else QuotaUpdated(draft, sub, quota);
      sub in db.subs ==>
        var row := ResultRow(db.subs[sub], v);
        var credit := RefundedCredit(db, row, m, v, loaded.quota);
        after == db.(subs := db.subs[sub := QuotaRow(row, m, v, loaded.quota)],
                     bonus := if credit.Some? then db.bonus[row.Owner() := credit.value] else db.bonus)
  {
    if sub in db.subs {
      var row := ResultRow(db.subs[sub], v);
      var settled := QuotaRow(row, m, v, loaded.quota);
      assert db.subs[sub := row][sub := settled] == db.subs[sub := settled];
    }
  }

  lemma RunningRow(db: Tables, sub: SubId, db': Tables)
    requires sub in db.subs && db' == db.(subs := db'.subs) && db'.subs.Keys == db.subs.Keys
    requires forall x | x in db'.subs && x != sub :: db'.subs[x] == db.subs[x]
    requires db'.subs[sub].status == SubmissionRunning && db'.subs[sub].(status := db.subs[sub].status) == db.subs[sub]
    ensures db' == UpdateSubmissionRow(db, sub, db.subs[sub].(status := SubmissionRunning))
  {
    assert db'.subs == db.subs[sub := db.subs[sub].(status := SubmissionRunning)];
  }

  // Marking a row as running beforehand does not matter to its settlement.
  lemma SettleIgnoresStatus(db: Tables, m: Manifest, sub: SubId, loaded: Submission, r: EvalResult, now: Time)
    requires sub in db.subs
    ensures
      var marked := UpdateSubmissionRow(db, sub, db.subs[sub].(status := SubmissionRunning));
      Settle(marked, m, sub, loaded, r, now) == Settle(db, m, sub, loaded, r, now)
  {
    var marked := UpdateSubmissionRow(db, sub, db.subs[sub].(status := SubmissionRunning));
    assert ResultRow(marked.subs[sub], r.verdict) == ResultRow(db.subs[sub], r.verdict);
    var row := QuotaRow(ResultRow(db.subs[sub], r.verdict), m, r.verdict, loaded.quota);
    assert marked.subs[sub := row] == db.subs[sub := row];
  }

  lemma OneMoreCopy(db: Tables, made: seq<Copy>, copy: Copy)
    ensures
      var draft := ReevalTables(db, made);
      ReevalTables(db, made + [copy]) ==
        draft.(subs := draft.subs[copy.sub := copy.row],
               jobs := draft.jobs[copy.job := NewJob(copy.sub, copy.row.createdAt)])
  {
    assert (made + [copy])[..|made|] == made;
  }
}
