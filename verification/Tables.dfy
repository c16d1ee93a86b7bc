/** The rows that intake, workers and administrators share, and the SQL statements
    that read and write them.  Each statement is a function of the committed tables,
    so that the transactions of module Server and the interleaved steps of module
    Protocol use one and the same meaning. */
module Tables {
  import opened Prelude

  type UserId = int
  type LabId = string
  type SubId = nat
  type JobId = nat
  type WorkerId = string
  type MetricId = string
  type Time = int

  datatype Verdict = BuildFailed | Rejected | Scored | Failed | Unknown(text: string)

  datatype QuotaState = Pending | Charged | Free | Bonus | AdminReset

  datatype SubmissionStatus = SubmissionQueued | SubmissionRunning | SubmissionDone | SubmissionError

  datatype JobStatus = Queued | Running | Done | Error

  datatype MetricSort = Asc | Desc

  datatype Metric = Metric(id: MetricId, sort: MetricSort)

  datatype Manifest = Manifest(daily: int, free: seq<Verdict>, metrics: seq<Metric>, rankBy: MetricId,
                               pick: bool, rankAll: Option<bool>, files: seq<string>, maxSize: string,
                               opens: Option<Time>, closes: Option<Time>)

  datatype Submission = Submission(user: UserId, lab: LabId, artifactKey: string, contentHash: string,
                                   status: SubmissionStatus, verdict: Option<Verdict>,
                                   quota: QuotaState, createdAt: Time)
  {
    function Owner(): Account { Account(user, lab) }
  }

  datatype Job = Job(submission: SubId, status: JobStatus, worker: Option<WorkerId>, attempts: nat,
                     availableAt: Time, createdAt: Time)

  // A row key of user_lab_bonus_quota and of leaderboard.
  datatype Account = Account(user: UserId, lab: LabId)

  datatype Entry = Entry(submission: SubId, updatedAt: Time)

  datatype Tables = Tables(labs: map<LabId, Manifest>, subs: map<SubId, Submission>, jobs: map<JobId, Job>,
                           bonus: map<Account, int>, nonces: set<string>,
                           scores: map<SubId, map<MetricId, real>>, board: map<Account, Entry>)

  const EMPTY := Tables(map[], map[], map[], map[], {}, map[], map[])

  // ----- labs

  function MetricIds(m: Manifest): set<MetricId> {
    set i | 0 <= i < |m.metrics| :: m.metrics[i].id
  }

  predicate ValidManifest(m: Manifest) {
    && m.daily > 0
    && (forall v | v in m.free :: v == BuildFailed || v == Rejected)
    && m.files != []
    && m.metrics != []
    && (forall i | 0 <= i < |m.metrics| :: m.metrics[i].id != "")
    && (forall i, j | 0 <= i < j < |m.metrics| :: m.metrics[i].id != m.metrics[j].id)
    && m.rankBy in MetricIds(m)
    && m.opens.Some? && m.closes.Some? && m.opens.value <= m.closes.value
  }

  // labOpen
  predicate LabOpen(m: Manifest, now: Time) {
    (m.opens.Some? ==> m.opens.value <= now) && (m.closes.Some? ==> now <= m.closes.value)
  }

  // What an update of a registered lab may not change.
  predicate SameStructure(a: Manifest, b: Manifest) {
    a.maxSize == b.maxSize && a.files == b.files && a.metrics == b.metrics && a.rankBy == b.rankBy
  }

  // ----- submissions

  predicate IsActive(q: QuotaState) { q == Pending || q == Charged }

  // The rows CountSubmissionQuotaUsage counts.
  function UsageRows(subs: map<SubId, Submission>, a: Account, start: Time, end: Time): set<SubId> {
    set s | s in subs && subs[s].Owner() == a && start <= subs[s].createdAt < end && IsActive(subs[s].quota)
  }

  function Usage(db: Tables, a: Account, start: Time, end: Time): nat {
    |UsageRows(db.subs, a, start, end)|
  }

  // The rows AdminResetLabQuotaToday rewrites, among those in its statement snapshot.
  function ResetRows(db: Tables, lab: LabId, since: Time, visible: set<SubId>): set<SubId> {
    set s | s in visible && s in db.subs && db.subs[s].lab == lab && db.subs[s].createdAt >= since
        && IsActive(db.subs[s].quota)
  }

  function AdminResetLabQuota(db: Tables, rows: set<SubId>): Tables {
    db.(subs := map s | s in db.subs :: if s in rows then db.subs[s].(quota := AdminReset) else db.subs[s])
  }

  function UpdateSubmissionRow(db: Tables, s: SubId, row: Submission): Tables {
    db.(subs := db.subs[s := row])
  }

  // ----- bonus credits

  const INT32_MAX := 0x7fff_ffff

  // Go's conversion int32(x).
  function ToInt32(x: int): int {
    var r := x % 0x1_0000_0000;
    if r > INT32_MAX then r - 0x1_0000_0000 else r
  }

  /** The conversion keeps every number that fits into 32 bits and cuts any other to one that does,
      with the same low 32 bits. */
  lemma ToInt32Means(x: int)
    ensures -2147483648 <= ToInt32(x) <= 2147483647 && (x - ToInt32(x)) % 4294967296 == 0
    ensures -2147483648 <= x <= 2147483647 <==> ToInt32(x) == x
  {}

  function Remaining(db: Tables, a: Account): int { GetOr(db.bonus, a, 0) }

  function Max0(x: int): int { if x < 0 then 0 else x }

  // ConsumeBonusQuota: the RETURNING value, or no row.
  function ConsumeBonus(db: Tables, a: Account): Option<int> {
    if a in db.bonus && db.bonus[a] > 0 then Some(db.bonus[a] - 1) else None
  }

  // SELECT DISTINCT user_id FROM submissions WHERE lab_id = lab, over a statement snapshot.
  function Participants(db: Tables, lab: LabId, visible: set<SubId>): set<Account> {
    set s | s in visible && s in db.subs && db.subs[s].lab == lab :: db.subs[s].Owner()
  }

  // AdjustBonusQuotaForLab inserts GREATEST(0, delta) or updates to GREATEST(0, remaining + delta).
  function AdjustedBonus(db: Tables, delta: int, a: Account): int {
    if a in db.bonus then Max0(db.bonus[a] + delta) else Max0(delta)
  }

  // The int column raises an error, and the whole statement does nothing, when a sum leaves 32 bits.
  predicate AdjustFits(db: Tables, delta: int, accounts: set<Account>) {
    forall a | a in accounts && a in db.bonus :: -INT32_MAX - 1 <= db.bonus[a] + delta <= INT32_MAX
  }

  function AdjustBonus(db: Tables, delta: int, accounts: set<Account>): Tables {
    db.(bonus := map a | a in db.bonus.Keys + accounts ::
          if a in accounts then AdjustedBonus(db, delta, a) else db.bonus[a])
  }

  // The rows ResetBonusQuotaForLab rewrites, among those in its statement snapshot.
  function PositiveBonusRows(db: Tables, lab: LabId, visible: set<Account>): set<Account> {
    set a | a in visible && a in db.bonus && a.lab == lab && db.bonus[a] > 0
  }

  function ResetBonus(db: Tables, accounts: set<Account>): Tables {
    db.(bonus := map a | a in db.bonus :: if a in accounts then 0 else db.bonus[a])
  }

  // The submissions of an account that were paid with a bonus credit.
  function BonusRows(subs: map<SubId, Submission>, a: Account): set<SubId> {
    set s | s in subs && subs[s].Owner() == a && subs[s].quota == Bonus
  }

  // What the account has been given: credits left plus credits spent.
  function Balance(db: Tables, a: Account): int {
    Remaining(db, a) + |BonusRows(db.subs, a)|
  }

  // ----- jobs

  // GetNextQueuedEvaluationJob without its lock clause: eligible rows, and their order.
  predicate Claimable(db: Tables, j: JobId, now: Time) {
    j in db.jobs && db.jobs[j].status == Queued && db.jobs[j].availableAt <= now
  }

  predicate ClaimsBefore(x: Job, y: Job) {
    x.availableAt < y.availableAt || (x.availableAt == y.availableAt && x.createdAt <= y.createdAt)
  }

  function JobMarkedRunning(job: Job, w: WorkerId): Job {
    job.(status := Running, attempts := job.attempts + 1, worker := Some(w))
  }

  // The guard MarkEvaluationJobDone and RequeueEvaluationJob share.
  predicate HeldBy(db: Tables, j: JobId, w: WorkerId) {
    j in db.jobs && db.jobs[j].status == Running && db.jobs[j].worker == Some(w)
  }

  datatype Outcome = Acknowledged(status: JobStatus) | Retried(availableAt: Time)

  predicate LegalOutcome(o: Outcome) {
    o.Acknowledged? ==> o.status == Done || o.status == Error
  }

  function JobAfter(job: Job, o: Outcome): Job {
    match o
    case Acknowledged(status) => job.(status := status)
    case Retried(at) => job.(status := Queued, worker := None, availableAt := at)
  }

  // Acknowledge or Retry: one guarded UPDATE that changes at most one row.
  function SettleJob(db: Tables, j: JobId, w: WorkerId, o: Outcome): Tables {
    if HeldBy(db, j, w) then db.(jobs := db.jobs[j := JobAfter(db.jobs[j], o)]) else db
  }

  // ----- the queue as a caller sees it

  // Every queued job is due later.
  predicate NothingDue(jobs: map<JobId, Job>, now: Time) {
    forall j | j in jobs && jobs[j].status == Queued :: jobs[j].availableAt > now
  }

  // The job is queued and due, and no other such job comes first by due time and then by creation.
  predicate FirstDue(jobs: map<JobId, Job>, j: JobId, now: Time) {
    && j in jobs && jobs[j].status == Queued && jobs[j].availableAt <= now
    && forall k | k in jobs && jobs[k].status == Queued && jobs[k].availableAt <= now ::
         || jobs[j].availableAt < jobs[k].availableAt
         || (jobs[j].availableAt == jobs[k].availableAt && jobs[j].createdAt <= jobs[k].createdAt)
  }

  // The job is running under the name.
  predicate RunsUnder(jobs: map<JobId, Job>, j: JobId, w: WorkerId) {
    j in jobs && jobs[j].status == Running && jobs[j].worker == Some(w)
  }
}
