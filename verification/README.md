# Concern advice service: a verified model of its service layer

The repository is a Django service in which people post concerns, administrators assign advisors to
them, advisors write advices, administrators approve or reject these, and the concern's author reads
what was approved and rates it. Its service functions form a small transactional database: tables with
partial unique indexes, row locks taken with `select_for_update`, a version check, soft deletes, an
append-only edit history and an append-only role audit. This project models that layer in Dafny and
proves what it promises, for every input, every schedule and every run.

## How it is organised

The model has two layers.

*One call at a time.* `Services`, `Authority` and `Accounts` say what each service function does to
the tables, as functions. `Store`, `AuthorityStore`, `AccountStore` and the classes of `StaleWrites`
are the same operations as the code performs them, assignment by assignment on mutable tables and
objects, with its loops; each method is proved to compute exactly the corresponding function and to keep
the relations between the tables. What these functions in turn do is said without them: `Answers` and the
two `Laws` files say from the tables which requests are accepted, which code each other one gets and what
is left, `Ledgers` reads every row of every run off the log of requests.

*Everything at once.* A transaction is a sequence of statements: lock and read a row, check, write,
commit or roll back. `Transactions` and `Interleaving` do this for the workflow calls, `AuthoritySteps`
for roles, applications and in-memory account rows, `ResetSteps` for password resets, Google links and
logins. Any number of transactions are open; an explicit
lock table says who may take the next step; writes become visible at commit (READ COMMITTED). A step
may also be a failure at any point, or a call that takes no lock and runs its check and its write as
separate statements.

| files | about |
|---|---|
| `Common`, `Text`, `Tables`, `Always` | shared types, the few `str` functions, the rows of the workflow tables, one induction over runs |
| `Services`, `Statements`, `Invariants`, `Store` | workflow calls, the writes they consist of, the relations between the tables, the in-place methods |
| `Transactions`, `Alone`, `Frames`, `Evolution`, `Interleaving`, `Runs`, `Waiting` | the interleaved workflow: refinement, invariants over runs, no deadlock |
| `Requests`, `Revisions`, `Queries` | serial requests and bulk actions, the edit history, the read side and the review queue |
| `Answers`, `Ledgers` | what each workflow request answers, read off the tables; every row, read off the log |
| `SerialRuns`, `FeedbackRuns`, `Witnesses` | every serial run as a schedule, the one-way flow of feedback over runs, two runs from the empty database |
| `StaleWrites`, `RowHistory`, `LiveCopies` | the guard in `User.save`, its history theorem, and the theorem for the objects themselves |
| `Authority`, `AuthorityStore`, `AuthorityFacts`, `AuthorityLaws` | roles, audit log, advisor applications, one request at a time |
| `AuthoritySteps`, `AuthorityRaces`, `AuthorityRuns`, `AuthorityRefinement`, `AuthoritySerial`, `ApplicationRuns` | the same, interleaved, beside slow saves of account rows |
| `AuditTimes`, `AuditWitnesses` | the audit log read by its time stamps, and a run from a bootstrap after which it misleads |
| `Nicknames`, `Accounts`, `AccountStore`, `AccountFacts`, `AccountLaws` | nickname derivation, Google linking, sessions, password resets, one request at a time |
| `ResetSteps`, `ResetRuns`, `ResetWitnesses` | resets, links and logins, interleaved |

`dafny verify dfyconfig.toml` checks everything.

## Five results that are not what one would hope

* **The audit log explains the role table only while approvals and revocations do not overlap.** An
  approval takes no lock on the account. If it finds the ADVISOR row, and a revocation deletes that row
  before the approval commits, the log ends with a GRANT for a role nobody holds. Entries are stamped when
  they are inserted and seen when they commit, so there are two ways to read the log, and both are treated:
  `AuthorityRuns.AuditExplainsIff` says exactly which runs are affected in the order of the commits,
  `AuditTimes.ExplainedByTimeIff` in the order of the stamps. `AuthorityRuns.AuditCanMislead` and
  `AuditTimes.StampsCanMislead` give such a run from every database in which an advisor is under review, and
  `AuditWitnesses.AuditMisleads` gives one for each reading that starts from a bootstrap.
* **`transition_feedback` moves one way only while no transition writes over a status it has not read.**
  `FeedbackRuns.OneWayIff` says so over every run, in both directions; in the run of
  `Witnesses.ArchivedThenReviewed` a feedback is ARCHIVED and, one statement later, REVIEWED.
* **An applicant can have two applications in progress.** `create_application` checks and inserts without
  a lock. `ApplicationRuns.OneApplicationIff` says exactly which runs are affected,
  `ApplicationRuns.TwoApplicationsInProgress` gives one that starts from a bootstrap.
* **Approving an advice does not always answer its concern.** It does so exactly when somebody is still
  assigned (`Queries.ApprovalSettlesIff`); ending the last assignment before the approval leaves an
  approved advice on a SUBMITTED concern (`Queries.ApprovalCanLeaveSubmitted`), and a run from the empty
  database ends that way (`Witnesses.ApprovedOnSubmitted`). The converse always holds: ANSWERED and CLOSED
  are backed by an approved advice (`Runs.EveryStateIsSound`).
* **The message of "close selected" can count wrong.** It counts the selection after the update, and the
  selection carries the filters of the list. `Requests.SkippedIsRightIff`: the number of rows passed over is
  right exactly when the list is not filtered by ANSWERED, or nothing was closed; otherwise it is too small
  by the number of rows closed, and can be negative.

## Model

| member | source | states |
|---|---|---|
| `Runs.EveryRunIsSerial` | advice/services.py:148-322 | Refinement: in every interleaving, the committed tables are what the finished calls and single statements leave when they run one at a time in commit order, and every call got the reply it gets alone |
| `Runs.EveryStateIsSound` | concerns/services.py:320-420 | In every reachable state all ten relations of `Invariants.Sound` hold: status against assignments, backing of ANSWERED and CLOSED, gap-free history, consecutive bodies different, both partial unique slots, decided advices submitted and REVIEWING unreached, notices exactly those due, feedback earned |
| `Runs.VersionDeterminesBody` | advice/services.py:170-204 | At any two moments of any run at which one advice has the same version, its body is the same |
| `Runs.ReviewDecidesWhatWasRead` | advice/services.py:256-297 | A review accepted with the version an administrator read decides exactly the body read then, and no later edit changes body or decision |
| `Runs.TextIsFrozen` | concerns/services.py:59-85 | Once a concern ever had an assignment row, its text is the same for the rest of the run, also after every assignment ended |
| `Runs.AdvicesAnswerOneText` | advice/services.py:55-87 | Any two advices on one concern, at whatever moments, answer one text, and each was written under an assignment row of its own advisor |
| `Runs.ApprovedIsFinal` | advice/services.py:25-41 | An approved advice, the only kind its concern's owner can see, never changes again in any column |
| `Runs.StepEdges` | concerns/admin.py:26-43 | The only status edges any step takes are SUBMITTED to ASSIGNED, back, ASSIGNED to ANSWERED, ANSWERED to CLOSED; new concerns start SUBMITTED |
| `Runs.RunEvolves` | advice/services.py:148-215 | Between any two moments of a run: nothing is deleted, histories only grow, decisions stay, frozen texts stay |
| `Interleaving.StepKeeps` | advice/services.py:148-167 | Every statement of every participant keeps the inductive invariant: each open transaction is as if it had run alone just now, locks match, reserved keys are free, the log replays to the tables |
| `Interleaving.CommitIsExec` | advice/services.py:256-322 | What a transaction commits is what its call does alone on the tables of that moment, and it holds exactly the rows that call touches |
| `Alone.SoloIsExec` | concerns/services.py:346-420 | The statement sequence of each of the six locking calls, run without company, ends as the call's one-step function says, with the same reply |
| `Frames.ExecTouches` | advice/services.py:148-167 | A call changes no advice row, concern row, assignment set or history other than those it locks |
| `Frames.SoloFrame` | concerns/services.py:68-84 | What a transaction has read and decided depends only on rows it holds, the assignment set of a held concern included |
| `Waiting.NoRunDeadlocks` | concerns/services.py:395-420 | In every reachable state no chain of waiting workflow transactions closes, no chain has more than three, and running the open transactions alone can finish them all |
| `Waiting.LockOrder` | advice/services.py:256-290 | Advice rows are locked before concern rows and at most one of each |
| `Waiting.EverythingCanFinish` | advice/services.py:148-215 | From a consistent state there is a schedule after which nothing is open |
| `Revisions.RunHistoryIsTheEdits` | advice/models.py:83-104 | In every run, replaying the accepted edits from the first body gives every snapshot and the current row, under versions 1, 2, 3 and so on |
| `Revisions.HistoryIsTheEdits` | advice/services.py:176-204 | The same over any serial log, by induction on the log |
| `Revisions.NoCallFails` | advice/models.py:97-101 | From a sound database no locking call ends in an unhandled exception: the unique (advice, version) index never rejects an edit, a review never misses its concern |
| `Invariants.UpdateAdviceKeeps` | advice/services.py:170-204 | An edit keeps every relation between the tables |
| `Invariants.DeleteAdviceKeeps` | advice/services.py:207-215 | A deletion keeps every relation between the tables |
| `Invariants.ReviewAdviceKeeps` | advice/services.py:240-322 | A review keeps every relation between the tables, its notice included |
| `Invariants.AssignAdvisorKeeps` | concerns/services.py:320-392 | An assignment keeps every relation between the tables, its notice included |
| `Invariants.UnassignAdvisorKeeps` | concerns/services.py:395-420 | Ending an assignment keeps status and assignments in agreement, also when others remain |
| `Invariants.UpdateConcernKeeps` | concerns/services.py:59-85 | Editing a concern keeps every relation between the tables |
| `Invariants.StatementKeeps` | advice/services.py:351-373 | So does every single statement of the calls that take no lock, wherever it lands |
| `Invariants.LogKeeps` | concerns/services.py:320-420 | And so does every log of calls and statements |
| `Evolution.OnlyTheseEdges` | advice/services.py:299-302 | The same edges for one call or one statement, an approval's ASSIGNED to ANSWERED among them |
| `Store.Database.UpdateAdvice` | advice/services.py:170-204 | The in-place method does what `Answers.EditAnswers` and `Ledgers.AdviceIsItsRequests` say of an edit: lock, compare field by field, snapshot, bump the version, set the flag; every relation between the tables is kept |
| `Store.Database.BodyChanged` | advice/services.py:176-185 | The field loop answers whether merging the sent fields would change the body |
| `Store.Database.SetBody` | advice/services.py:194-204 | The `setattr` loop leaves the merge of the old body with the sent fields |
| `Store.Database.DeleteAdvice` | advice/services.py:207-215 | The in-place method does what `Answers.DeleteAnswers` and `Ledgers.AdviceIsItsRequests` say of a deletion; every relation between the tables is kept |
| `Store.Database.ReviewAdvice` | advice/services.py:240-322 | The in-place method does what `Answers.ReviewAnswers` and `Ledgers.AdviceIsItsRequests` say of a review, checks in the code's order; every relation between the tables is kept |
| `Store.Database.CreateAdvice` | advice/services.py:55-87 | The in-place method does what `Answers.CreateAdviceAnswers` and `Answers.CreateAdviceLeaves` say; every relation between the tables is kept |
| `Store.Database.CreateFeedback` | advice/services.py:351-373 | The in-place method does what `Answers.CreateFeedbackAnswers` says, and the new row carries what was sent; every relation between the tables is kept |
| `Store.Database.TransitionFeedback` | advice/services.py:418-446 | The in-place method does what `Answers.TransitionAnswers` and `Answers.TransitionLeaves` say; every relation between the tables is kept |
| `Store.Database.CreateConcern` | concerns/services.py:21-24 | The new row is SUBMITTED, not deleted, with author and text as sent; every relation between the tables is kept |
| `Store.Database.UpdateConcern` | concerns/services.py:59-85 | The in-place method does what `Answers.UpdateConcernAnswers` says and merges the sent columns into the text; every relation between the tables is kept |
| `Store.Database.Withdraw` | concerns/services.py:88-94 | The in-place method does what `Answers.WithdrawAnswers` says and sets the deletion time; every relation between the tables is kept |
| `Store.Database.AssignAdvisor` | concerns/services.py:320-392 | The in-place method does what `Answers.AssignAnswers` and `Ledgers.RowsAreTheirRequests` say, triage and notice included; every relation between the tables is kept |
| `Store.Database.UnassignAdvisor` | concerns/services.py:395-420 | The in-place method does what `Answers.UnassignAnswers` and `Ledgers.EventRows` say of row and status; every relation between the tables is kept |
| `Answers.EditAnswers` | advice/services.py:148-204 | An edit is accepted exactly from its author while the advice is PENDING or REVIEWING; 404, 403 and 409 each by its condition, and 500 exactly when a changed body meets a snapshot already there |
| `Answers.DeleteAnswers` | advice/services.py:29-34 | A deletion is accepted exactly from the author of an advice that is PENDING, REVIEWING or REJECTED; 404, 403 and 409 each by its condition |
| `Answers.ReviewAnswers` | advice/services.py:240-291 | A review gets 409 for a draft or a decided advice, then 412 for another version, then 422 for a rejection whose reason is only white space, then 409 for a withdrawn concern, and is accepted otherwise, rejections with a reason among them |
| `Answers.CreateAdviceAnswers` | advice/services.py:66-87 | Writing an advice: 404, 403, 409 and acceptance each exactly under its condition on concern, assignment and slot |
| `Answers.CreateAdviceLeaves` | advice/services.py:74-83 | The new row carries what was sent, the submit flag and the defaults included, and nothing else changes |
| `Answers.PlainWrites` | advice/services.py:74-83 | Whatever runs between the check and the write of a call without locks, it writes what was sent |
| `Answers.CreateFeedbackAnswers` | advice/services.py:360-373 | Rating: 404, 403, 409 and acceptance each exactly under its condition |
| `Answers.TransitionAnswers` | advice/services.py:381-434 | A transition is accepted exactly from SUBMITTED to REVIEWED and from REVIEWED to ARCHIVED |
| `Answers.TransitionLeaves` | advice/services.py:436-446 | It writes the status, the memo if one is sent, who reviewed it and when on the way to REVIEWED only, and nothing else |
| `Answers.UpdateConcernAnswers` | concerns/services.py:68-81 | A text can be edited exactly by its author while the concern is live, SUBMITTED and was never assigned |
| `Answers.WithdrawAnswers` | concerns/services.py:51-94 | A concern can be withdrawn exactly by its author and once |
| `Answers.AssignAnswers` | concerns/services.py:342-375 | An assignment gets 422, 404, 409 or is accepted exactly under its condition on role, concern and slot |
| `Answers.UnassignAnswers` | concerns/services.py:404-411 | Ending an assignment: 404 for one of another concern, 409 for one that ended, accepted otherwise |
| `Answers.ViewAnswers` | advice/services.py:113-145 | Who opens an advice as its author, as an administrator, as the owner, or gets 404 or 403: each exactly under its condition |
| `Answers.BulkWrites` | concerns/admin.py:26-53 | Each bulk action changes one column of exactly the rows it is for |
| `Ledgers.AdviceIsItsRequests` | advice/services.py:176-313 | In every interleaving, at every moment, every column of an advice is what its insert and the accepted edits, deletions and reviews of it, in the order of the log, make of it |
| `Ledgers.FlagIsTheLatestSent` | advice/services.py:195-202 | In every interleaving `is_submitted` of an advice is the latest flag sent for it, by its insert or by an accepted edit that carried one |
| `Ledgers.RowsAreTheirRequests` | concerns/services.py:359-408 | The same for assignments with their triage, for feedbacks, and for author, text and deletion time of concerns |
| `Ledgers.EventRows` | concerns/services.py:377-420 | One event changes the rows it is about in the columns it names and no others, and the status of a concern exactly as assignments, endings, approvals and closings call for |
| `Store.Database.CloseSelected` | concerns/admin.py:26-43 | The bulk update of the ticked rows the filtered list shows, and the two numbers in its message as the code computes them: rows closed, and the list counted again after the update less those; every relation between the tables is kept |
| `Store.Database.SoftDeleteSelected` | concerns/admin.py:46-48 | The bulk update of the ticked rows the filtered list shows, and its count; every relation between the tables is kept |
| `Store.Database.RestoreSelected` | concerns/admin.py:51-53 | The bulk update of the ticked rows the filtered list shows, and its count; every relation between the tables is kept |
| `Requests.SkippedIsRightIff` | concerns/admin.py:36-43 | The number reported as passed over is the number of shown rows not closed if and only if the list is not filtered by ANSWERED or nothing was closed; under that filter it is too small by exactly the rows closed |
| `Requests.RequestKeeps` | advice/services.py:55-87 | Every request of the workflow, served alone, keeps every relation and only moves the tables forward |
| `Requests.AdminIsRowByRow` | concerns/admin.py:26-53 | For every order of the selected rows: the log that updates, in that order, those that pass the action's filter, and no others, is faithful and leaves what the bulk action leaves |
| `Requests.FeedbackIsOneWay` | advice/services.py:384-388 | Served alone, requests move feedback only along the allowed edges, and archiving keeps who read it and when |
| `FeedbackRuns.OneWayIff` | advice/services.py:381-446 | Over every run: the statuses written to each feedback go from SUBMITTED along the transition table at every moment if and only if no transition writes over a status other than the one its check read |
| `FeedbackRuns.FeedbackComesBack` | advice/services.py:418-446 | Every run that ends quietly with a SUBMITTED feedback can be continued so that its log grows by exactly three transitions, each allowed by what it read, to REVIEWED, to ARCHIVED and back to REVIEWED |
| `FeedbackRuns.StatusIsLast` | advice/services.py:418-446 | The status in the row is always the one written last |
| `Witnesses.ArchivedThenReviewed` | advice/services.py:418-446 | Such a run exists from the empty database |
| `SerialRuns.SerialRunIsARun` | concerns/services.py:320-420 | Whatever requests served one after the other leave, some interleaved run leaves too, so that what is proved of every run holds of serial service |
| `Queries.WithdrawingHides` | advice/services.py:325-348 | Withdrawing a concern takes its advices off the owner's list and turns the detail view from readable to forbidden, and restoring it undoes the withdrawal exactly |
| `Queries.PickIsTheOnlyOne` | concerns/services.py:202-218 | The "latest own advice" of an advisor is the only candidate, whatever the query's order |
| `Queries.RejectionIsNoDeadEnd` | advice/services.py:207-215 | From every sound state with a rejected advice, a live concern and a live assignment, deleting and writing again both succeed, with a fresh version 1 and an empty history |
| `Queries.QueueIsWhatCanBeReviewed` | advice/services.py:218-237 | An advice is in the default review queue if and only if approving its current version succeeds |
| `Queries.RejectionReachesTheAdvisor` | advice/services.py:273-321 | Every rejection of a queued advice at its current version, for a reason that is not only white space, is accepted; it leaves REJECTED, that reason, that administrator and exactly one new notice to the advisor, and takes the advice off the queue |
| `Queries.SubmittingQueues` | advice/services.py:195-202 | From every sound state, submitting a draft on a live concern is accepted and queues it |
| `Queries.EditMovesQueue` | advice/services.py:195-202 | An accepted edit changes the queue by the flag it sends, and not at all when it sends none |
| `Queries.ApprovalReachesTheOwner` | advice/services.py:297-322 | Approving from the queue puts the advice on the owner's list, lets the owner open it, and answers an ASSIGNED concern |
| `Queries.WhatOwnersSeeIsFinal` | advice/services.py:117-145 | In every interleaving, what a concern's owner could once open or list stays as it was in every column |
| `Queries.ApprovalSettlesIff` | advice/services.py:299-302 | An accepted approval leaves the concern ANSWERED or CLOSED exactly when it has an active assignment or was so before |
| `Queries.ApprovalCanLeaveSubmitted` | advice/services.py:299-302 | From every sound state with a queued advice and one active assignment, ending that assignment and then approving both succeed and leave an approved advice on a SUBMITTED concern |
| `Witnesses.ApprovedOnSubmitted` | concerns/services.py:413-420 | A run from the empty database ends with an approved advice on a SUBMITTED concern |
| `StaleWrites.Instance.Load` | accounts/models.py:84-88 | Loading remembers the guarded columns that were loaded, deferred ones left out |
| `StaleWrites.Instance.RememberGuarded` | accounts/models.py:90-95 | The loop updates the baseline for exactly the named columns that are loaded |
| `StaleWrites.Instance.RefreshFromDb` | accounts/models.py:97-99 | A refresh, whole or by names, updates attributes and baseline together |
| `StaleWrites.Instance.NamesAmong` | accounts/models.py:31-35 | The guarded columns among the given names, all of them when none are given |
| `StaleWrites.Instance.Save` | accounts/models.py:101-112 | What row and instance are after a save, with and without the guard, with names, with positional arguments, and when inserting; `RowHistory.RowIsTheLatestIntent` says what that means for every column |
| `RowHistory.RowIsTheLatestIntent` | accounts/models.py:84-112 | After any history of any number of copies, every column has the value of the latest operation that meant to change it, a definition without the guard: a whole save means to change the guarded columns its copy changed since it last saw them, and all others it has |
| `LiveCopies.Play` | accounts/models.py:84-112 | Playing any history on one record and any number of instances, by their own methods, leaves exactly that in every column of the record |
| `LiveCopies.Perform` | accounts/models.py:84-112 | One operation on one instance leaves record and all instances as the model of the history says, the other instances untouched |
| `RowHistory.SlowSaveUndoesNothing` | accounts/models.py:101-112 | A copy that reads one of the seven guarded columns, waits through anything others do, and saves itself whole without having assigned it leaves the column alone |
| `RowHistory.ChangeIsSaved` | accounts/models.py:101-112 | An assignment reaches the row, whatever others did: in the four profile columns always, in the others when the value differs from the one read |
| `RowHistory.InsertWritesWhole` | accounts/models.py:101-112 | A copy being inserted writes all it has, guarded or not |
| `AuthorityRuns.AnAdministratorIsAlwaysLeft` | accounts/services.py:270-307 | In every interleaving some active account has a committed ADMIN row |
| `AuthorityRuns.RevokerHoldsASurvivor` | accounts/services.py:287-305 | Every revocation of ADMIN about to commit holds the lock on a row it counted and does not delete |
| `AuthorityRuns.WornIsAlwaysHeld` | accounts/services.py:317-323 | In every interleaving, with slow profile updates and stale full saves, every account's active role is USER, or ADVISOR with a committed ADVISOR row |
| `AuthorityRuns.ApprovedOnceToldOnce` | advisors/services.py:82-128 | In every interleaving each approved application has exactly one approval notice, and no other has one |
| `AuthorityRuns.WhatIsHeldIsCurrent` | accounts/services.py:268-270 | What a transaction read of the account or application it holds is what is committed there, up to its last statement |
| `AuthorityRuns.AuditExplainsIff` | advisors/services.py:109-119 | In an interleaved run the audit log, read in the order of the commits, replays to the role table at every moment exactly when no approval commits after the row it found was deleted |
| `AuthorityRuns.AuditCanMislead` | advisors/services.py:112-119 | From every sound state in which somebody who holds ADVISOR is under review, a run adds a REVOKE and then a GRANT to the log and ends with nobody holding the role |
| `AuditTimes.ExplainedByTimeIff` | accounts/models.py:182-190 | In an interleaved run with a clock the log, read by its stamps, explains the role table at every moment exactly when no REVOKE commits after a GRANT of the same role with a later stamp, and no approval commits the newest entry for a row that was deleted |
| `AuditTimes.TickKeeps` | accounts/models.py:182-190 | Every statement keeps what makes stamps usable: under the lock of the unique index entry, an entry about to commit is stamped later than every committed REVOKE of its role |
| `AuditTimes.EveryRunIsClocked` | accounts/models.py:182 | Every interleaved run, from any stamped log, is visited state by state by a run with a clock, so stamping rules no schedule out |
| `AuditTimes.StampsCanMislead` | advisors/services.py:112-119 | From every sound state in which somebody who holds ADVISOR is under review, whatever the stamps so far, a run ends with nobody holding the role and the stamps saying that somebody does |
| `AuditWitnesses.AuditMisleads` | advisors/services.py:109-119 | A run from a bootstrap, for each of the two readings, ends with the log REVOKE, GRANT and nobody holding the role |
| `AuthorityRefinement.EveryCommitIsServedIff` | accounts/services.py:205-325 | In every run a commit leaves what its request leaves when served alone at that moment, except exactly for such late approvals and for applications that overlapped another |
| `AuthoritySerial.SerialRunIsARun` | accounts/services.py:205-325 | Whatever role requests served one after the other leave from a sound state, some interleaved run leaves too |
| `ApplicationRuns.OneApplicationIff` | advisors/services.py:50-61 | Over every run: each applicant has at most one application in progress at every moment if and only if none is inserted while another of the same applicant is in progress |
| `ApplicationRuns.BothGetThrough` | advisors/services.py:50-61 | From every sound state, two requests of one applicant that would each be accepted alone can both be inserted: the table ends as it began with exactly these two applications added |
| `ApplicationRuns.TwoApplicationsInProgress` | advisors/services.py:50-61 | Such a run starts from a bootstrap |
| `AuthorityRaces.StepKeeps` | accounts/services.py:244-325 | Every statement of every participant keeps the inductive invariant of the interleaved role model |
| `AuthorityRaces.RevokeLeavesAdmins` | accounts/services.py:287-305 | A committing revocation leaves an active administrator |
| `AuthorityRaces.SaveLeavesAuthority` | accounts/models.py:101-112 | A stale save by a copy that never assigned `active_role` or `is_active` leaves both as they are in the row |
| `AuthorityFacts.AuditExplainsRoles` | accounts/services.py:224-238 | Over every serial run, replaying the audit log from the bootstrap roles gives the role table, approvals of somebody who already holds the role included |
| `AuthorityFacts.SerialRunIsSound` | accounts/models.py:146-153 | Over every serial run: roles unique and never USER, active role USER or a held ADVISOR, an active administrator, one application in progress for each applicant, reserved display names distinct, approvals told once |
| `AuthorityFacts.AdvisorIsThreeStepsAway` | advisors/services.py:50-61 | From every state of a serial run, at most three requests, all of them applications by the account or reviews and no grant among them, make an account without ADVISOR an advisor |
| `AuthorityFacts.RevokedCanReturn` | advisors/services.py:50-61 | So a revocation is no dead end: right after it the account does not hold ADVISOR and is at most three such requests away from it |
| `AuthorityFacts.RevokeKeeps` | accounts/services.py:244-325 | A revocation keeps all of that, demoting whoever wore the role |
| `AuthorityFacts.ReviewKeeps` | advisors/services.py:64-139 | A review of an application keeps all of that |
| `AuthorityFacts.ApplyKeeps` | advisors/services.py:36-61 | An application, accepted or refused, keeps all of that |
| `AuthorityLaws.GrantAnswers` | accounts/services.py:221-231 | A grant is accepted exactly for a grantable role and an account that exists and does not hold it; 400, 404 and 409 each by its condition |
| `AuthorityLaws.GrantLeaves` | accounts/services.py:230-241 | It adds that one role and one GRANT entry with its actor and reason, and moves no active role |
| `AuthorityLaws.RevokeAnswers` | accounts/services.py:270-307 | A revocation is accepted exactly when the role is held and, for ADMIN, when it is of another, active account and another active administrator is left; 400, 404 and 409 each by its condition |
| `AuthorityLaws.RevokeLeaves` | accounts/services.py:303-323 | It takes that one role, adds one REVOKE entry with its actor and reason, sets the active role of that account to USER exactly when ADVISOR was revoked and worn, and changes no other column and no other account |
| `AuthorityLaws.SwitchAnswers` | accounts/services.py:84-92 | A switch is accepted exactly to USER or to a held ADVISOR; 400 and 403 each by its condition |
| `AuthorityLaws.SwitchLeaves` | accounts/services.py:84-92 | It writes that column of that account and nothing else |
| `AuthorityLaws.ProfileAnswers` | accounts/services.py:107-119 | A profile update gets 409 exactly when another account has the nickname sent |
| `AuthorityLaws.ProfileLeaves` | accounts/services.py:107-119 | It writes the columns sent and no others |
| `AuthorityLaws.ApplyAnswers` | advisors/services.py:50-61 | An application is accepted exactly when none of the applicant is open, no approved one counts because the role is held, and the name is free; otherwise 409 |
| `AuthorityLaws.VerdictAnswers` | advisors/services.py:82-95 | A verdict is accepted exactly along the transition table, a rejection only with a reason; 404, 409 and 422 each by its condition |
| `AuthorityLaws.VerdictLeaves` | advisors/services.py:97-138 | It writes verdict, administrator, time and reason; only an approval gives the role, with one GRANT entry; every verdict sends one notice |
| `AuthorityLaws.HeldRolesAre` | accounts/services.py:42-51 | USER first, then what there is a row for, ADVISOR before ADMIN, nothing twice |
| `AuthorityStore.RoleStore.ListHeldRoles` | accounts/services.py:42-51 | The loop lists USER first and then what is held, in fixed order |
| `AuthorityStore.RoleStore.GrantRole` | accounts/services.py:205-241 | The in-place method does what `AuthorityLaws.GrantAnswers` and `AuthorityLaws.GrantLeaves` say; every relation between the tables is kept |
| `AuthorityStore.RoleStore.RevokeRole` | accounts/services.py:244-325 | The in-place method does what `AuthorityLaws.RevokeAnswers` and `AuthorityLaws.RevokeLeaves` say, guards in the code's order; every relation between the tables is kept |
| `AuthorityStore.RoleStore.SetActiveRole` | accounts/services.py:69-92 | The in-place method does what `AuthorityLaws.SwitchAnswers` and `AuthorityLaws.SwitchLeaves` say, behind the choices of the serializer; every relation between the tables is kept |
| `AuthorityStore.RoleStore.UpdateProfile` | accounts/services.py:98-119 | The `setattr` loop and the save write the sent columns and nothing else; every relation between the tables is kept |
| `AuthorityStore.RoleStore.CreateApplication` | advisors/services.py:36-61 | The in-place method does what `AuthorityLaws.ApplyAnswers` says and adds one PENDING application; every relation between the tables is kept |
| `AuthorityStore.RoleStore.ReviewApplication` | advisors/services.py:64-139 | The in-place method does what `AuthorityLaws.VerdictAnswers` and `AuthorityLaws.VerdictLeaves` say; every relation between the tables is kept |
| `Text.CleaningKeepsTheWords` | accounts/services.py:127-131 | Stripping and collapsing white space is splitting into words and joining them with one space, for every string |
| `Nicknames.BaseIsPresentable` | accounts/services.py:122-131 | For every name and address the base has 2 to 15 characters, starts with no white space, has no adjacent spaces, and is the words of its source cut at 15 |
| `Nicknames.BaseIsTheFirstLongEnough` | accounts/services.py:127-131 | The base is the words of the name, one space apart, cut at 15, if two characters of that are left, else the same of what is before the first `@`, else "user" |
| `Nicknames.CandidatesAre` | accounts/services.py:140-141 | The candidates are the base, five times the base with four drawn digits behind an underscore, and one with eight |
| `Nicknames.DeriveBase` | accounts/services.py:122-131 | The loop over the three candidates returns the specified base |
| `Nicknames.CandidatesFitTheColumn` | accounts/services.py:140-141 | Every candidate of the retry loop has 2 to 20 characters |
| `Nicknames.RetriesAreNew` | accounts/services.py:140-141 | Different draws are different candidates, none of them the base |
| `AccountFacts.FirstFreeNickname` | accounts/services.py:134-152 | The retry loop creates exactly one account and one link, under the first candidate still free, if and only if there is one and nothing else is in the way; otherwise nothing changes |
| `AccountStore.Tables.CreateWithNickname` | accounts/services.py:142-152 | The loop of insert, roll back and retry leaves what trying the candidates in order leaves; addresses, nicknames and links stay distinct |
| `AccountStore.Tables.CreateUser` | accounts/managers.py:26-40 | The in-place method decides by empty fields, column limits and unique indexes, on the folded address; addresses, nicknames and links stay distinct |
| `AccountStore.Tables.LinkOrCreate` | accounts/services.py:155-199 | The in-place method resolves as `AccountLaws.KnownSubject`, `AccountLaws.SpellingMeetsAccount` and `AccountLaws.StrangerGetsAccount` say; addresses, nicknames and links stay distinct |
| `AccountStore.Tables.PurgeSessionsOf` | accounts/services.py:368-387 | The scan removes exactly the sessions of one account |
| `AccountStore.Tables.ConfirmReset` | accounts/services.py:390-424 | The in-place method does what `AccountLaws.ResetAnswers` and `AccountFacts.ResetStartsOver` say; addresses, nicknames and links stay distinct |
| `AccountFacts.PairedOneToOne` | accounts/models.py:196-206 | Over every serial run Google subjects and accounts are paired one to one and stored addresses are distinct |
| `AccountFacts.BoundForEver` | accounts/services.py:169-171 | A subject once bound resolves to the same account for ever, whatever address and name it comes with, and changes nothing |
| `AccountFacts.FirstTimeBinds` | accounts/services.py:173-199 | Resolving a subject binds it, unless the account it meets is frozen |
| `AccountFacts.LinkLocksOut` | accounts/services.py:186-197 | After a link no session of the account is left and no password opens it; all other sessions and accounts are untouched |
| `AccountFacts.LinkKillsTokens` | accounts/services.py:186-197 | No reset token mailed before a link is accepted at any time after it |
| `AccountFacts.ResetLinkWorksOnce` | accounts/services.py:390-424 | A reset token that was accepted once is never accepted again, whatever happens in between |
| `AccountFacts.ResetStartsOver` | accounts/services.py:417-423 | A reset ends that account's sessions and no others, and exactly the new password opens it |
| `ResetRuns.TokenIsSpentOnce` | accounts/services.py:390-424 | In every interleaving of resets, links and logins no reset token is accepted twice |
| `ResetRuns.OnlyTheNextChangeCanUseIt` | accounts/services.py:390-424 | In every interleaving a token computed at some moment is accepted, if at all, by the first reset or link of its account that commits after that moment; so never after a link, and never after another reset |
| `ResetRuns.EarlierSessionsAreDead` | accounts/services.py:186-197 | In every interleaving no session opened before a reset or a link of its account, and none that a login in flight opens later with what it read before, is valid once that has committed |
| `ResetRuns.AlwaysPaired` | accounts/models.py:196-206 | In every interleaving Google subjects and accounts are paired one to one |
| `ResetRuns.StepKeeps` | accounts/services.py:173-197 | Every statement of every participant keeps the inductive invariant: what was read under the row lock is committed, an uncommitted password is newer than the one it replaces, no session is newer than its account |
| `ResetRuns.ResetIsServed` | accounts/services.py:399-424 | A reset about to commit would be accepted alone at that moment and leaves the accounts it leaves alone |
| `ResetRuns.LinkIsServed` | accounts/services.py:173-197 | A link about to commit would succeed alone at that moment and leaves the accounts and identities it leaves alone |
| `ResetWitnesses.MintedTokenWorks` | accounts/services.py:328-358 | From every sound state, the token of an active account that may reset is accepted in some run, and the password is then the new one |
| `ResetWitnesses.NewSubjectIsLinked` | accounts/services.py:173-197 | From every sound state, a new subject is linked to an active account without a link in some run |
| `ResetWitnesses.LoginOpens` | accounts/views.py:122-128 | From every sound state, a login that may enter opens a valid session in some run |
| `AccountFacts.MadeHereCanRecover` | accounts/services.py:328-358 | Every account made by sign-up or Google can, to the end of the run, be sent a reset link at any spelling of its address, and the link works |
| `AccountFacts.CanonicalIsIdempotent` | accounts/managers.py:15-24 | Folding an address twice is folding it once, so that what is stored is found by folding; what folding does is said by `AccountLaws.CanonicalFolds` |
| `AccountLaws.CanonicalFolds` | accounts/managers.py:15-24 | A folded address has no letter A to Z; it agrees with the address character by character up to small letters once the white space at both ends is taken off, which happens exactly when there is an `@` |
| `AccountLaws.SpellingsFoldAlike` | accounts/managers.py:15-24 | Two spellings of an address that differ in the case of A to Z only fold to the same |
| `AccountLaws.SpellingMeetsAccount` | accounts/services.py:173-197 | A new Google subject that brings any spelling of an address in use adds no account: a frozen account is left alone, one with another link is 409, any other is linked, loses its password and its sessions, and nobody else does |
| `AccountLaws.KnownSubject` | accounts/services.py:169-171 | A subject with a link resolves to its account, whatever address it brings, and changes nothing |
| `AccountLaws.StrangerGetsAccount` | accounts/services.py:134-152 | A new subject with an address nobody has gets one new account under the folded address, linked and without a usable password |
| `AccountLaws.GoogleLoginOpens` | accounts/views.py:253-267 | The callback opens a session of the account it resolved, unless that is frozen |
| `AccountLaws.SignupAnswers` | accounts/views.py:97-112 | Sign-up: 409, 400 and acceptance each exactly under its condition on address, nickname and password |
| `AccountLaws.SignupThenLogin` | accounts/managers.py:15-40 | After a sign-up, at any spelling of the address, exactly the password given logs in |
| `AccountLaws.LoginAnswers` | accounts/views.py:122-128 | At any spelling of its address, a login opens an account exactly when it is active and the password is its own; otherwise 401 |
| `AccountLaws.MailGoesTo` | accounts/services.py:337-358 | A reset link goes exactly to active accounts with a usable password or a Google link, at any spelling of the address, and is computed from their present state |
| `AccountLaws.ResetAnswers` | accounts/services.py:399-411 | A reset is accepted exactly for an active account that may reset, a token of its present state and a password the validators take; otherwise it is 400 and changes nothing |

## Left out

- Views, serializers, routing, CSRF, cookies, pagination, the exception envelope and settings; sign-up, login and the Google callback appear only as far as they write accounts and sessions.
- OAuth calls, mail delivery, password hashing, token signing and session encoding: a stored password is an opaque value that every set makes fresh, a token is the data it is computed from, a session is a row with an owner. The verdict of the password validators is a parameter.
- UUIDs: keys are numbers handed in by the caller; the sources of random digits are parameters too. `updated_at` and the titles, messages and target addresses of notices that carry no decision are not modelled.
- E-mail syntax: sign-up takes an address to be well formed when it has an `@` and fits its column.
- `AccountLaws.CanonicalFolds`: about the letters A to Z only, for the reason of the next line.
- `AccountFacts.CanonicalIsIdempotent`: about ASCII case folding only, because `Lower` folds no other letters, while the source folds all of Unicode. White space is the full set `str.isspace` knows.
- `AuthorityFacts.SerialRunIsSound`: one application in progress for each applicant is promised to serial runs only; `ApplicationRuns.OneApplicationIff` is the interleaved statement.
- Share locks that PostgreSQL takes for foreign keys, and deadlocks through them.
- Deadlock freedom of the role functions: the query that locks ADMIN rows also locks their accounts, so two revocations of ADMIN can wait for each other. Only safety is proved there.
- In the interleaved workflow the set of advisors is fixed; in the interleaved role model the set of accounts and their `is_active` are fixed.
- Free edits of accounts, roles and Google identities in Django Admin, and `create_superuser`: their results are the states runs start from.
- The change forms of Django Admin, which save or delete whole rows without a lock. `ConcernAdmin` (concerns/admin.py:7-24) leaves text and author editable: it can change a frozen text and write back a stale status. `FeedbackAdmin` (advice/admin.py:68-86) leaves the memo editable and writes back a stale status with it. `AdviceAdmin` (advice/admin.py:6-36) shows every field read-only and still saves the row it read, and can delete it. `AdvisorApplicationAdmin` (advisors/admin.py:6-16) leaves the form's text editable and saves status and review with it. The three actions on concerns are the only Django Admin writes in the model.
- Saves of account rows with positional arguments, which the guard lets through whole: `StaleWrites.Instance.Save` and the history theorem have them, the interleaved role model does not.
- In the interleaved resets, a sign-up or a first Google login inserts its account in one statement; the nickname retries and the clash of two sign-ups are in the serial model only. A session is its account and the password its auth hash was computed from.
- Equal time stamps: the clock of `AuditTimes` and of `ResetSteps` never shows one instant twice.
- Rolled-back saves in the stale-write guard: after a failed save a copy's baseline is not what the row holds.
- Saves of in-memory account rows inside another transaction: a save is one statement of its own, and it may ignore the nickname index.
- `AuthorityRuns.ApprovedOnceToldOnce`: says nothing about rejections, because the code sends the rejection notice on PENDING to REVIEWING as well; the model does the same.
- `Requests.FeedbackIsOneWay`: for requests that do not overlap; `FeedbackRuns.OneWayIff` is the interleaved statement.
- `AuthorityFacts.AuditExplainsRoles`: for requests that do not overlap; `AuthorityRuns.AuditExplainsIff` is the interleaved statement.
- `Waiting.NoRunDeadlocks`: counts the explicit row locks of the six workflow calls.
- `list_assigned_concerns` shows soft-deleted concerns and `get_assigned_concern` does not; the two are not compared.
- `notifications/services.py`, `advisor_status`, display names and the plain list filters: true but easy.
