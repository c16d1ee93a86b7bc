# LabKit, modelled and proved

LabKit takes signed submissions to programming labs, charges them to a daily quota or to bonus
credits, evaluates them on workers that share a job queue, and shows leaderboards and grades.  This
project models its services and the SQL statements behind them, and proves what they are for.
`dafny verify dfyconfig.toml` checks all of it; the main results are lemmas and methods named in the
table below.

## The submission ledger

Intake, job queue, workers and administrators share the same rows.  `Tables` gives every SQL statement
a meaning as a function of the rows.  On these functions two models are built:

- `Server` runs the services as they are written, statement by statement on a draft of the tables that
  only a commit publishes, with a fault possible at every statement.
- `Protocol` lets any number of requests, workers and administrators interleave between any two
  statements.  A transaction keeps the row images it has written private until it commits and holds
  row, key and advisory locks to its end; processes die and jobs are requeued at any time.

`Invariant` states what every step keeps, `LocalSteps`, `CommitSteps` and `SettleSteps` show it step by
step, and `Induction` puts the steps together.  Each process relies on the rows whose locks, ids or
claims it owns; ownership is exclusive, so nobody else can change them.  From the invariant follow the
results on whole runs: conservation of credits and refunds (`Credits`), the daily quota (`DailyCap`),
the queue (`JobQueue`), the leaderboard (`Standings`), all-or-nothing intake (`Admission`), stored
artifacts (`Artifacts`) and reevaluation (`Reevaluations`).  `Admission.IntakeAloneCommits` and
`WorkerAlone.WorkerAloneHandles` tie the two models together: a process that nobody disturbs can take
all its steps, and leaves what the service leaves.

Three results say where the program does less than its documentation:

- docs/reference/bonus-quota.md:127-130 and the comment in Persist say that the guard of the refund
  statement alone makes refunds happen at most once, also for a repeated Persist.  It does not: the
  branch without a refund writes 'bonus' unconditionally (`Evaluation.StaleSettlementRefundsTwice`).
  Refunds do happen at most once because a worker settles only while its own claim stands
  (`Credits.RefundAtMostOnce`).  `Evaluation.SettleConservesIff` gives the exact condition for one
  settlement, `Evaluation.RefundsAgainIff` for any list of them.
- A daily reset of a submission that is not settled yet, queued or being evaluated, is undone when the
  submission is charged (`DailyCap.ResetIsUndone`, `DailyCap.SettlementRaisesUsageIff`), so the quota
  bounds the rows that no reset ever hit.
- A request that repeats the content of a committed submission and then fails deletes the artifact the
  two share (`Artifacts.ReplayDeletesArtifact`); one whose clean-up comes late deletes that of a request
  committed meanwhile (`Artifacts.LateCleanUpDeletesArtifact`).  `Artifacts.ArtifactsRetainedIff` says
  exactly when nothing is lost.

## The other components

- `Files`, `Signing`, `Canonical`: file sets, the signed text, archives and artifact keys, which client
  and server compute on their own and which must agree.
- `Board`, `Export`: two sorts of the same rows with different comparators, and exactly when they agree.
  They break ties in time in opposite directions for ascending metrics.  `Pages` says what both show in
  the reachable states of the ledger.
- `Csv`: the parser of the grade preview, character by character and as the inverse of a writer.
- `Tickets`, `TicketTable`: the one-time tickets in memory and in a table, and the table under
  concurrency.  Memory keeps a ticket through the very instant of its expiry and the table does not,
  so they differ exactly when a request redeems a ticket at that instant, or is a creation that only
  tickets expiring at that instant keep out (`Tickets.SameRepliesIff`).
- `Grades`: the grade import.
- `Lists`, `Text`, `Prelude`: sorting, strings and small datatypes they share.

## Model

| member | source | states |
|---|---|---|
| Credits.BonusConservation | packages/go/db/sqlc/bonus_quota.sql.go:14-119 | Over every run of interleaved intakes, workers and administrators: credits left plus bonus-funded submissions of an account equal the net effect of clamped adjustments and resets, and no counter is ever negative |
| Credits.StepBalance | packages/go/db/sqlc/bonus_quota.sql.go:14-119 | Each single step changes the balance of an account by exactly what an administrator does to it: settlement, refund, intake, daily reset and reevaluation by nothing |
| Credits.RefundAtMostOnce | apps/worker/internal/service/evaluation/service.go:108-129 | Over every run, retries and new claims included, a submission is refunded at most once, only if an earlier committed intake bought it with a credit, and it is free ever after |
| Credits.FreeForever | apps/worker/internal/service/evaluation/service.go:107-110 | A submission that is free once stays free in every later state |
| Credits.PersistIsAtomic | apps/worker/internal/service/evaluation/service.go:71-153 | The statements of Persist may interleave with other processes; what commits is the settlement run alone at the moment of the commit, it is fair, and it refunds exactly when a bonus row becomes free |
| Credits.PersistCommitMeans | apps/worker/internal/service/evaluation/service.go:88-153 | Field by field: a committed settlement leaves the submission with its verdict and with status error exactly for the verdict error, with the quota state its snapshot and verdict call for, and moves credits, scores and leaderboard accordingly |
| Evaluation.SettleConservesIff | apps/worker/internal/service/evaluation/service.go:107-137 | A settlement from any snapshot on any row leaves every balance as it was if and only if snapshot and row agree on being bonus-funded, or the guarded refund is asked for |
| Evaluation.StaleSettlementRefundsTwice | apps/worker/internal/service/evaluation/service.go:111-129 | A settlement from a stale bonus snapshot rewrites a refunded row to bonus, and one credit is paid back twice: the guard alone does not give at-most-once |
| Evaluation.BonusAfterIff | apps/worker/internal/service/evaluation/service.go:107-137 | Whatever the row was, a settlement leaves it bonus exactly if it loaded it as bonus and charges it |
| Evaluation.RefundsAtIff | apps/worker/internal/service/evaluation/service.go:111-129 | Over any list of settlements of a row, one of them pays a credit back exactly if it asks for a refund and the row was bonus at the start or was charged from a bonus snapshot just before |
| Evaluation.RefundsAgainIff | apps/worker/internal/service/evaluation/service.go:107-129 | A refunded row is refunded again exactly if some later settlement charges it from a bonus snapshot and the next one asks for a refund |
| Evaluation.FreeVerdicts | apps/worker/internal/service/evaluation/service.go:175-193 | Under a valid manifest a verdict is free exactly if it is error or declared free, and otherwise charged |
| Evaluation.SettleMeans | apps/worker/internal/service/evaluation/service.go:88-153 | What a settlement leaves in every field: verdict, status, quota state, the one credit of a refund, scores and entry for scored results only, and nothing else |
| Evaluation.ValidateScores | packages/go/evaluator/validate.go:79-102 | Accepts exactly the score maps whose keys are the declared metric ids, and not the empty map |
| Evaluation.ValidateResult | packages/go/evaluator/validate.go:56-76 | Accepts exactly known verdicts with a known detail format, with exact scores when scored and none otherwise |
| DailyCap.DailyQuotaHolds | apps/api/internal/service/submissions/service.go:209-264 | However intakes interleave, the pending or charged submissions of an account created on one day that no daily reset ever hit number at most the daily quota that the intake of one of these very submissions read when it began |
| DailyCap.AnyAdmissionBound | apps/api/internal/service/submissions/service.go:328-338 | Any bound on the daily quotas under which requests of that account and day were admitted bounds these submissions, whatever other quotas the lab had |
| DailyCap.EverResetMeans | packages/go/db/sqlc/submissions.sql.go:15-21 | A submission was hit by a reset exactly if some step of the run turned it into admin_reset |
| DailyCap.UsageWithinQuota | packages/go/db/sqlc/submissions.sql.go:36-44 | The very count the intake decides on is that of the day, and exceeds the daily quota of an admission of that day at most by the resets of that account and day that were undone; without one it does not exceed it |
| DailyCap.SettlementRaisesUsageIff | apps/worker/internal/service/evaluation/service.go:107-137 | A settlement raises the count of a day exactly when it charges a row that an administrator had reset, before or after the worker loaded it |
| DailyCap.ResetIsUndone | packages/go/db/sqlc/submissions.sql.go:15-21 | The input: one pending submission counts 1, after the daily reset 0, and 1 again once it is charged, whether it was loaded before or after the reset |
| DailyCap.RowKept | packages/go/db/sqlc/submissions.sql.go:505-563 | No step loses a submission, moves it to another account, or gives it another artifact or creation time |
| JobQueue.ClaimsAreExclusive | packages/go/jobs/claim.go:15-56 | In every reachable state no two processes, inside their claim transactions or after them, hold the same job; a committed claim is what the row says |
| JobQueue.WorkerNamed | packages/go/db/sqlc/jobs.sql.go:145-208 | A queued job names no worker; a running, done or failed one names exactly the worker whose claim of it committed last; its submission exists |
| JobQueue.StaleCallRejected | packages/go/jobs/queue.go:45-87 | A worker that is not the one at work on a job can neither acknowledge nor retry it |
| JobQueue.HolderCallAccepted | packages/go/jobs/queue.go:45-87 | The call of the worker at work on a job is accepted: the row gets the status reported, or is queued without a worker for the time given, and nothing else changes |
| JobQueue.StepMovesJob | packages/go/db/sqlc/jobs.sql.go:145-208 | The only moves of a job row are claim, requeue and one terminal outcome |
| JobQueue.OutcomesAreFinal | packages/go/jobs/queue.go:96-98 | No job is ever lost, it keeps its submission, attempts never fall, and done and error are absorbing |
| JobQueue.AttemptsAreClaims | packages/go/db/sqlc/jobs.sql.go:176-184 | The attempts counter of a job is the number of committed claims of it in the run |
| JobQueue.SelectsFirstDue | packages/go/db/sqlc/jobs.sql.go:40-47 | A claim selects, of the queued jobs that are due and that nobody has locked, the first by due time and then by creation |
| JobQueue.NotSelectedBeforeDue | packages/go/jobs/queue.go:69-87 | Along a run, a job queued again for a later time is not selected before that time |
| Standings.BoardIsLastScored | packages/go/db/sqlc/leaderboard.sql.go:220-227 | In every reachable state the leaderboard joined with the scores is, for each account, exactly the last committed scored settlement: its submission, the scores its evaluator reported, its time |
| Standings.EntriesAreScored | apps/worker/internal/service/evaluation/service.go:139-146 | Every entry points to a submission of that very user and lab whose scores are keyed by the metric ids of the manifest now in force |
| Standings.JoinDropsNobody | packages/go/db/sqlc/leaderboard.sql.go:71-144 | The inner join by a metric keeps every entry if the metric is declared and none if it is not, whatever lab updates came before |
| Standings.StructureIsForever | apps/api/internal/service/labs/service.go:78-115 | However registrations and updates interleave, a lab stays registered and size limit, files, metrics and ranking metric of its manifest never change |
| Standings.ManifestIsLastStored | apps/api/internal/service/labs/service.go:50-115 | In every reachable state the manifest of a lab is the one registered or stored by an update last |
| Admission.EveryRowIsAccountedFor | apps/api/internal/service/submissions/service.go:188-264 | In every reachable state there is one nonce for each committed intake and one submission and one job for each committed intake or reevaluation copy; failed intakes left nothing |
| Admission.IntakeCommitsAll | apps/api/internal/service/submissions/service.go:209-264 | A committed intake adds one queued submission, bonus if it found the quota used up and pending otherwise, one job that is due at once, and its nonce, and takes one credit in the first case only |
| Admission.IntakeCountsDay | apps/api/internal/service/submissions/service.go:328-338 | What the intake decides on is the number of pending and charged submissions of that user and lab created on the day of the request |
| Admission.NonceAcceptedOnce | apps/api/internal/service/submissions/service.go:617-623 | No nonce is accepted by two committed intakes of a run |
| WorkerAlone.WorkerAloneHandles | apps/worker/cmd/labkit-worker/runtime_handler.go:63-107 | An idle worker that finds the locks of its job free can take all its steps in a row, from the claim of the first claimable job to the acknowledgement, whenever Handle accepts the result, and leaves what Claim followed by Handle leaves |
| WorkerAlone.ScoresAlone | apps/worker/internal/service/evaluation/service.go:155-166 | However many scores are still to be written, in whatever order, the worker can go on to the transaction that holds them all |
| Admission.IntakeAloneCommits | apps/api/internal/service/submissions/service.go:198-264 | An intake that finds its locks free, its nonce unused, and quota or a credit left can take all its steps in a row and commits what the service run alone commits |
| Artifacts.ArtifactsRetainedIff | apps/api/internal/service/submissions/service.go:188-206 | Along a run all committed submissions keep their artifacts if and only if no clean-up of a failed intake deletes a key that a committed submission uses, or one that another intake carries and then commits without the key being saved again |
| Artifacts.SafeCleanUpsRetain | apps/api/internal/service/submissions/service.go:191-198 | What a clean-up could check: if no deleted key is used by a committed submission or carried by another intake, no artifact is ever lost |
| Artifacts.CommitsDeletedIff | apps/api/internal/service/submissions/service.go:191-198 | An intake commits without its artifact exactly if a clean-up deleted the key while the intake carried it and nobody saved the key again before the commit |
| Artifacts.CleanUpRetainsIff | apps/api/internal/service/submissions/service.go:191-198 | One clean-up costs a committed submission its artifact exactly if it deletes a key in use |
| Artifacts.ReplayDeletesArtifact | apps/api/internal/service/submissions/service.go:229-239 | A replay of a committed request reaches the save, cannot reserve its nonce, and takes the artifact of the committed submission with it |
| Artifacts.LateCleanUpDeletesArtifact | apps/api/internal/service/submissions/service.go:191-208 | Because the rollback comes before the clean-up, a second request with the same content can commit in between and lose its artifact to the first |
| Reevaluations.ListsEveryEntryOnce | apps/api/internal/service/admin/service.go:302-307 | A reevaluation lists the submission of each leaderboard entry exactly once and nothing else |
| Reevaluations.CommitsOneCopyEach | apps/api/internal/service/admin/service.go:308-338 | What it commits is one free copy with the same user, lab, artifact and content for each listed submission, and one queued job for each copy |
| Reevaluations.CommitIsNeutral | packages/go/db/sqlc/submissions.sql.go:130-142 | Its commit changes nobody's usage, credits or balance |
| Reevaluations.ReevaluationIsNeutral | apps/worker/internal/service/evaluation/service.go:107-110 | However and whenever its copies are settled later, they stay free and their settlement changes nobody's usage, credits or balance |
| Induction.StepKeepsInv | apps/worker/cmd/labkit-worker/runtime_handler.go:63-107 | Every step of every process keeps the invariant: among it, that the snapshot of the worker at work is bonus exactly when the row is, and that locks, claims and ids have one owner |
| Induction.InitInv | packages/go/db/sqlc/submissions.sql.go:213-223 | The invariant holds of the empty tables |
| Invariant.Stable | apps/api/internal/service/submissions/service.go:603-606 | What a process relies on between its statements survives every step that touches nothing it has locked, drawn or claimed |
| QuotaWindow.WindowIsDay | apps/api/internal/service/submissions/service.go:347-351 | The window of a moment contains it, lasts 86400 seconds, and begins when the clock eight hours ahead of UTC shows midnight |
| QuotaWindow.OneWindowIff | apps/api/internal/service/submissions/service.go:347-351 | Two moments have one window exactly if they are on one day |
| QuotaWindow.WindowCountsDay | packages/go/db/sqlc/submissions.sql.go:36-44 | What is counted in the window of a moment are exactly the pending and charged submissions of the account created on its day |
| QuotaWindow.WindowsPartition | apps/api/internal/service/submissions/service.go:347-351 | Every time lies in one window, and in no other |
| Server.Server.Intake | apps/api/internal/service/submissions/service.go:136-277 | Any error leaves the tables as they were; success adds one submission and its job, paid by a credit exactly if the submissions of the day number the daily quota or more, and reports what is left; without faults it succeeds exactly for admissible requests: in schedule, acceptable files, known key, right signature at most five minutes off, quota or a credit left, unused nonce; each refusal has its reason in the tables |
| Server.Server.IntakeTransaction | apps/api/internal/service/submissions/service.go:198-276 | From lock to commit: count, debit, save, nonce, submission, job, with the artifact and commit flags |
| Server.Server.Persist | apps/worker/internal/service/evaluation/service.go:71-153 | Commits a whole settlement or nothing, and the row then shows the verdict and the status error exactly for verdict error; fails without faults only for an invalid result, scores of a missing row, or a counter at its upper end |
| Server.Server.PersistScores | apps/worker/internal/service/evaluation/service.go:155-166 | Writes exactly the given scores over those stored, in any order of the metrics |
| Server.Server.MarkRunning | apps/worker/internal/service/evaluation/service.go:60-69 | Changes the status of the submission and nothing else in any table |
| Server.Server.Handle | apps/worker/cmd/labkit-worker/runtime_handler.go:63-107 | Load, mark, evaluate, persist, acknowledge: success exactly when everything is in place and no statement fails, and then submission and job show the verdict, error or done; a failure leaves nothing done, the row marked, or the settlement without its acknowledgement |
| Server.Server.Claim | packages/go/jobs/claim.go:15-56 | Takes, of the queued jobs that are due, the first by due time and creation, and nothing exactly if every queued job is due later; the row is then running under the worker with one more attempt |
| Server.Server.NextQueued | packages/go/db/sqlc/jobs.sql.go:40-47 | Finds the first due queued job by due time, then creation, or none exactly if every queued job is due later |
| Server.Server.Acknowledge | packages/go/jobs/queue.go:45-66 | Succeeds exactly for a named worker that holds the running job and a terminal status, and then changes only that status |
| Server.Server.Retry | packages/go/jobs/queue.go:69-87 | Succeeds exactly for a named worker that holds the running job, which is then queued without a worker |
| Server.Server.RegisterLab | apps/api/internal/service/labs/service.go:50-76 | Registers exactly valid manifests under unused ids |
| Server.Server.UpdateLab | apps/api/internal/service/labs/service.go:78-115 | Replaces a manifest only by a valid one of the same id and structure, so metric ids never change; if only the final re-read fails the update stands although an error is returned |
| Server.CompareStructure | apps/api/internal/service/labs/service.go:203-230 | True exactly if size limit, files, ranking metric and metrics agree in order |
| Server.ValidateManifest | packages/go/manifest/validate.go:12-81 | Accepts exactly manifests with files, a positive daily quota, verdicts that may be free, distinct named metrics, a ranking metric among them, and a schedule that opens before it closes |
| Server.Server.ResetLabQuota | apps/api/internal/service/admin/service.go:135-142 | Takes every pending or charged submission of the lab created since local midnight out of the count and touches nothing else, so that nothing of the lab counts on that day |
| Server.Server.AdjustBonusQuota | apps/api/internal/service/admin/service.go:153-183 | Moves the credits of everyone who ever submitted to the lab, and of nobody else, by the delta, cut to 32 bits, not below zero; a dry run only counts; a zero delta, an unknown lab and an overflow are errors |
| Tables.ToInt32Means | apps/api/internal/service/admin/service.go:153-183 | The cut keeps every number of 32 bits and the low 32 bits of any other |
| Server.Server.ResetBonusQuota | apps/api/internal/service/admin/service.go:185-212 | Zeroes every positive counter of the lab and no other; a dry run only counts |
| Server.Server.Reevaluate | apps/api/internal/service/admin/service.go:284-341 | Commits one free copy and one job for every listed entry in order, or nothing |
| Server.SettleIgnoresStatus | apps/worker/internal/service/evaluation/service.go:60-88 | Marking the row as running beforehand makes no difference to its settlement |
| Server.QuotaStatement | apps/worker/internal/service/evaluation/service.go:88-137 | Whichever branch is taken, the result statement and the quota statement together write one settled row and at most one credit |
| Files.ValidateFiles | apps/api/internal/service/submissions/service.go:382-420 | Returns the verdict on the upload: the first offence in upload order, or a missing file |
| Files.FileVerdictMeans | apps/api/internal/service/submissions/service.go:382-420 | The verdict accepts exactly non-empty uploads of plain, distinct names whose set is the declared set, all in limit; when it reports missing files and when excess size |
| Files.PlainNameMeans | apps/api/internal/service/submissions/service.go:396-402 | A name is plain exactly if it is not empty, equals itself trimmed, and has no slash or backslash |
| Files.ValidateSubmissionFiles | apps/cli/internal/commands/lab_commands.go:935-984 | Accepts exactly paths whose base names are the declared names, each once, and readable; lists them in manifest order with their own content |
| Files.ServerTakesWhatClientSends | apps/cli/internal/commands/lab_commands.go:935-984 | Whatever the command line accepts the server accepts in any order, given plain names and sizes in limit |
| Files.CountQuotaUsage | apps/api/internal/service/submissions/quota.go:74-86 | Counting the rows of an account gives the count of the statement the intake decides on |
| Files.BuildQuotaSummary | apps/api/internal/service/submissions/quota.go:54-72 | Left and used add up to the quota, or nothing is left; credits are shown only if there are any |
| Text.TrimSpaceTrims | apps/api/internal/service/submissions/service.go:397-399 | Trimming cuts white space from both ends and nothing else; it is idempotent and changes a string exactly if white space surrounds it |
| Text.BaseMeans | apps/cli/internal/commands/lab_commands.go:950 | The base name is the last element of a path, without slashes at the end |
| Text.BlankTrimsToNothing | packages/go/jobs/queue.go:89-94 | A name trims to nothing exactly if it is all white space |
| Signing.SigningIsInjective | packages/go/auth/payload.go:35-60 | Two payloads have equal signing bytes if and only if lab, nonce, content hash, timestamp in milliseconds and the multiset of file names agree |
| Signing.SigningBytes | packages/go/auth/payload.go:46-60 | Sorts a copy of the names in place and writes the canonical text |
| Signing.SigningTextIsJson | packages/go/auth/payload.go:35-60 | A reader after RFC 8259 finds in the signed text one object with exactly the members content_hash, files, lab_id, nonce and timestamp_ms, in this order, with the values of the payload, the names sorted and the time in milliseconds |
| Signing.QuoteRead | packages/go/auth/payload.go:35-41 | Every encoded string is read back, whatever follows it |
| Signing.EscapesExactly | packages/go/auth/payload.go:43 | Exactly control characters, quotes, backslashes and the characters dangerous in a web page are escaped |
| Signing.DecimalRead | packages/go/auth/payload.go:40 | Every encoded number is read back, if what follows does not begin with a digit |
| Canonical.ClientAndServerAgree | apps/api/internal/http/submissions_handler.go:53-72 | For every acceptable upload and every order in which the server sees its files, archive, content hash, signing text and artifact key equal those of the client's order |
| Canonical.ArchiveIgnoresOrder | apps/api/internal/storage/artifacts.go:48-87 | Files of distinct names have one archive, however they arrive and however the sort treats ties |
| Canonical.EqualNamesHaveTwoArrangements | apps/api/internal/storage/artifacts.go:50-59 | Without distinct names an unstable sort may archive the same files in two ways |
| Canonical.KeyIgnoresOrder | apps/api/internal/service/submissions/service.go:493-498 | The artifact key depends on the multiset of names only |
| Canonical.Archive | apps/api/internal/storage/artifacts.go:48-87 | Returns the archive of the files sorted by name, and its digest |
| Canonical.SubmissionArchiveHash | apps/cli/internal/commands/lab_commands.go:1004-1035 | Returns the digest of an archive of the files sorted by name |
| Canonical.BuildArtifactKey | apps/api/internal/service/submissions/service.go:493-498 | Sorts a copy of the names in place and builds the key whose agreement KeysEqualIff characterises |
| Canonical.KeysEqualIff | apps/api/internal/service/submissions/service.go:493-498 | Two uploads get one key exactly if lab, user, the first sixteen characters of the name fingerprints and the first sixteen of the content hashes agree |
| Canonical.FingerprintNames | apps/api/internal/service/submissions/service.go:493-498 | The text behind a fingerprint tells the multiset of names, if no name contains a line break |
| Canonical.PackedInOrder | apps/api/internal/storage/artifacts.go:60-75 | The archive packs the entries of the sorted files one after the other |
| Lists.SortInPlace | apps/api/internal/service/leaderboard/service.go:151-171 | The in-place sort computes the stable sorted arrangement |
| Lists.SortForgetsOrder | apps/api/internal/service/leaderboard/service.go:151-171 | Under a strict total order the sorted result does not depend on the order of the input |
| Lists.OneArrangement | apps/api/internal/service/leaderboard/service.go:151-171 | Under a strict total order given elements have only one ordered arrangement |
| Lists.BelowMeans | packages/go/auth/payload.go:53 | Names are ordered like words in a dictionary, by code points |
| Board.GetBoard | apps/api/internal/service/leaderboard/service.go:120-198 | Returns the joined rows sorted by the metric and ranked one after the other |
| Board.PageIsOrdered | apps/api/internal/service/leaderboard/service.go:151-171 | An ascending page is strictly ordered by smaller value, earlier time, smaller user, a descending one by larger value, later time, smaller user |
| Board.PageIsComplete | apps/api/internal/service/leaderboard/service.go:120-149 | Every joined account has one row with its own scores, and nobody else has |
| Pages.PageIsLastScored | apps/api/internal/service/leaderboard/service.go:82-208 | In every reachable state the page by a declared metric has one row for each entry of the lab: each user who ever committed a scored settlement there is shown exactly once, with the scores reported last and their time, and nobody else |
| Board.BoardIgnoresRowOrder | apps/api/internal/service/leaderboard/service.go:253-294 | The page does not depend on the order in which the database returns the rows |
| Board.AssignRanks | apps/api/internal/service/leaderboard/service.go:187-198 | Ranks the rows that take part with a running number and leaves the others at zero |
| Board.RanksAreConsecutive | apps/api/internal/service/leaderboard/service.go:187-198 | The ranks given out are 1, 2, 3 and so on down the page without a gap, all others are zero |
| Board.PageRanks | apps/api/internal/service/leaderboard/service.go:187-198 | A row takes part unless the lab ranks only those who picked the shown metric; its rank is then the number of such rows down to it, and 0 otherwise |
| Board.ResolveMetric | apps/api/internal/service/leaderboard/service.go:233-244 | Finds the declared metric of the wanted id, or reports that there is none |
| Board.OrderIsTotal | apps/api/internal/service/leaderboard/service.go:151-171 | Value, time and user form a strict total order on rows of different users |
| Export.ExportGrades | apps/api/internal/service/admin/service.go:214-282 | Returns the grade rows sorted and numbered from one, or an error exactly if the ranking metric cannot be resolved |
| Export.ExportAgreesIff | apps/api/internal/service/admin/service.go:479-499 | With picking off, board and export show the same users with the same ranks if and only if the metric is descending or no two entries tie in value at different times |
| Pages.RunExportAgreesIff | apps/api/internal/service/admin/service.go:214-282 | In every reachable state page and export of a lab agree in users, order and ranks exactly if the ranking metric is descending or no two last scored settlements of the lab tie in value at different times |
| Export.Resolve | apps/api/internal/service/admin/service.go:463-477 | Returns the first metric of the wanted id if one is declared, and the first metric of all for no name |
| Export.ResolvedMeans | apps/api/internal/service/admin/service.go:463-477 | A wanted name resolves to the first metric of that id if one is declared, no name at all to the first metric, and under a valid manifest a blank choice to the ranking metric |
| Export.SheetIsOrdered | apps/api/internal/service/admin/service.go:479-499 | The sheet is numbered from 1 and ordered by larger sort value, later time, smaller user |
| Export.SheetIsComplete | apps/api/internal/service/admin/service.go:231-276 | The sheet has one row for every entry of the lab, with the value of the metric the user is ranked by, turned round if smaller is better, and all scores, and no other rows |
| Csv.ParseCsv | apps/web/src/lib/csv.ts:4-64 | The loop, advancing by one or two, terminates and computes what ParserCountsQuotes and RoundTrip speak of |
| Csv.ParserCountsQuotes | apps/web/src/lib/csv.ts:4-64 | For any text at all: a quote is text exactly if an even number of quotes stands before it, one right before it; within an odd number everything else is text; outside, commas end cells, line feeds end rows, carriage returns are dropped; what is left is a last row unless it is one empty cell |
| Csv.RoundTrip | apps/web/src/lib/csv.ts:4-64 | Parsing the text written from any rows, quoted wherever required and anywhere else, with or without a last line ending, gives back the rows exactly if the text does not begin with a byte order mark and the last row is not one empty cell without a line ending |
| Csv.FullyQuotedRoundTrip | apps/web/src/lib/csv.ts:4-64 | With every cell in quotes and a last line ending the round trip has no exception |
| Tickets.MemoryService.CreateTicket | apps/api/internal/service/websession/service.go:84-171 | In memory: the reply by user, key, path and number of tickets not past their expiry; what is stored then, the sweep included |
| Tickets.MemoryService.ConsumeTicket | apps/api/internal/service/websession/service.go:173-222 | In memory: redeems a stored ticket that is not past its expiry, with its data, and removes it |
| Tickets.MemoryService.CleanupExpired | apps/api/internal/service/websession/service.go:239-245 | The sweep removes exactly the tickets whose expiry is past and keeps those that expire this instant |
| Tickets.TableService.CreateTicket | apps/api/internal/service/websession/service.go:103-145 | Over the table: the reply by user, key, path and number of tickets that expire later; a refusal rolls everything back |
| Tickets.TableService.ConsumeTicket | apps/api/internal/service/websession/service.go:182-206 | Over the table: redeems a stored ticket that expires later, with its data, and deletes its row |
| Tickets.SameRepliesIff | apps/api/internal/service/websession/service.go:84-222 | Memory and table give the same replies to a whole history if and only if no request of it parts them: none redeems a ticket at the very instant of its expiry, and none is a creation that only tickets expiring at that instant keep out |
| Tickets.StepAgreesIff | apps/api/internal/service/websession/service.go:103-222 | Over stores that hold the same live tickets, one request gets the same reply from both exactly if it does not part them |
| Tickets.SameRepliesOffExpiry | apps/api/internal/service/websession/service.go:84-222 | So the replies are the same whenever no request falls exactly on an expiry |
| Tickets.DifferAtExpiry | packages/go/db/sqlc/web_session_tickets.sql.go:23-38 | The one failing input: at the very instant of expiry memory honours the ticket and the table does not |
| Tickets.DifferOnCreation | apps/api/internal/service/websession/service.go:103-164 | The other: with a limit of one, a creation at the expiry of the ticket held is refused by memory and served by the table |
| Tickets.MemoryBounded | apps/api/internal/service/websession/service.go:147-164 | At most the configured number of tickets, or 64, is ever held |
| Tickets.OnlyIssuedTicketsRedeem | apps/api/internal/service/websession/service.go:208-221 | A redemption returns the user, key and path an earlier request created the ticket with, not after its expiry |
| Tickets.RedeemedOnce | apps/api/internal/service/websession/service.go:208-221 | No token is redeemed twice |
| TicketTable.ActiveBounded | packages/go/db/sqlc/web_session_tickets.sql.go:14-58 | With creations and redemptions interleaved the advisory lock keeps the number of active tickets within the configured limit, or 64 |
| TicketTable.RedeemedAtMostOnce | packages/go/db/sqlc/web_session_tickets.sql.go:33-38 | Whoever competes for a ticket, at most one transaction redeems it |
| TicketTable.RedemptionIsGenuine | packages/go/db/sqlc/web_session_tickets.sql.go:33-38 | A committed redemption returns the ticket created under that hash and began before it expired |
| TicketTable.CreateAlone | apps/api/internal/service/websession/service.go:103-145 | A creation that runs alone commits exactly when the service over the table issues a ticket, and leaves the same table |
| TicketTable.ConsumeAlone | apps/api/internal/service/websession/service.go:182-206 | A redemption that runs alone finds its row exactly when the service over the table redeems the ticket, and leaves the same table |
| Grades.PlanColumns | apps/api/internal/service/grade/service.go:270-295 | The plan gives every column the role its header calls for: the first column of a kind takes it, later ones become items, unnamed ones are ignored |
| Grades.OneColumnOfAKind | apps/api/internal/service/grade/service.go:270-295 | A plan has at most one column each for student id, total and remark |
| Grades.RolesMean | apps/api/internal/service/grade/service.go:31-42 | Which names make a column the student id, the total or the remark, in English and Chinese; the first of a kind takes it |
| Grades.StoredMeans | apps/api/internal/service/grade/service.go:297-337 | What a record stores: nothing without a student id, or else that id, the cells of total and remark, and the filled other columns in order |
| Grades.BuildGradeParams | apps/api/internal/service/grade/service.go:297-337 | Collects the cells of one record; a blank student id yields nothing |
| Grades.CellsConserved | apps/api/internal/service/grade/service.go:297-337 | Every non-blank cell of a named column of an imported record has a place of its own, items in header order, and there are no other places |
| Grades.GradeService.ImportGrades | apps/api/internal/service/grade/service.go:157-207 | Success stores all records; an error half-way keeps those before it; without faults it succeeds exactly for a readable file with a student id column and a lab |
| Grades.GradeService.PublishGrades | packages/go/db/sqlc/grades.sql.go:95-101 | Publishes exactly the unpublished rows of the lab and counts them |
| Grades.GradeService.DeleteGrades | packages/go/db/sqlc/grades.sql.go:15-18 | Removes exactly the rows of the lab and counts them |
| Grades.LastRecordWins | packages/go/db/sqlc/grades.sql.go:133-144 | The last record of a student decides the whole row, blank total or remark as null, rows of other students and labs stay, and publication is never altered |
| Grades.ImportIsIdempotent | apps/api/internal/service/grade/service.go:157-207 | Importing a file twice stores the same grades as importing it once, with the same publication |
| Grades.ImportThenPublish | packages/go/db/sqlc/grades.sql.go:28-36 | An import shows nobody a grade that was hidden; publishing shows every stored grade of the lab from that moment and hides none |

## Left out

- HTTP handlers, cookies, the browser application, terminal output, configuration and the OAuth and device flows: input and output only.
- Docker, temporary directories and the file system: an evaluation returns any result at all, an artifact store is the set of its keys.
- Ed25519, SHA-256, tar, gzip, TOML, URL parsing, lower-casing and case folding are unknown functions; a signature either verifies or not.
- parseMaxSize and floating point: the size limit comes parsed or not at all, and scores are real numbers without rounding.
- Daylight saving: windows are days of a fixed offset, that of the default location.  A submission is created at the time whose window was checked.  Times in the tables are whole seconds.
- Server.ValidateManifest: lab id and name, image, time-out and the time of visibility are not modelled, and a metric without a known sort cannot be written.
- Postgres itself: statements read committed rows, row locks and transaction-scoped advisory locks are held to the end of a transaction; equal lock keys of different accounts would only serialise more.
- A commit whose outcome the client never learns: a failed commit is one that did not happen.
- Users, keys, nicknames and profiles, the lab catalogue, precheck and history queries: thin reads.  The join with users never drops an entry because of its foreign key.
- Jobs come from intake and reevaluation only; nobody calls Enqueue with an arbitrary submission.
- Protocol.QueueCall: a call to acknowledge or retry is modelled for any caller, job and name, except a call from elsewhere in the name of a worker that is at work on that very job at that moment.  Live processes may share a name; only a call that one of them makes for the job the other is at work on is outside the model.
- Protocol.DailyReset and the two bonus statements are one step each, at a moment when nobody holds a row they touch, over an arbitrary snapshot of visible rows; a multi-row statement really takes its locks one by one.
- Protocol.ReevalRow: reading an original and inserting its copy and job is one step, because nobody else can see or lock the new rows.
- Server.Server.Handle, Server.Server.Intake and the other methods of Server run alone; interleaving is the subject of Protocol.
- Board.GetBoard: rows and scores are read from the same tables; the service reads them in two statements between which a settlement may commit.  Nicknames, the viewer's mark and the quota panel are not on the modelled page.
- Export.ExportGrades: rows, scores and profiles come from the same tables; student ids and nicknames are not modelled.
- Signing.SigningBytes: strings are sequences of Unicode scalar values and the final UTF-8 step is not modelled; encoding/json would replace invalid bytes.
- Csv.ParseCsv: characters are scalar values instead of UTF-16 units, of which the parser compares only single ones.
- Tickets.TableService.CreateTicket: users and keys exist, so the foreign keys never fail; drawing a token never fails.
- TicketTable: the clean-up of expired rows takes effect at the commit of its transaction, and its row locks are not modelled.
- Tickets.SameRepliesIff: it is stated for a clock that never runs backwards, tokens that are never drawn twice and a hash without collisions.
- Grades.GradeService.ImportGrades: the records are those encoding/csv yields, with the position of the first malformed one; status and listing queries are left out.
