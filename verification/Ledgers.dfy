/**
 The rows of the workflow tables read off the log: every column has the value of the latest accepted
 request that named it. Nothing here mentions how a call goes about its work.
 */
module Ledgers {
  import opened Common
  import opened Tables
  import opened Services
  import opened Statements
  import opened Interleaving
  import opened Runs
  import opened Answers

  function Row<T>(table: map<Id, T>, key: Id): Option<T> { if key in table then Some(table[key]) else None }

  // --- what one event makes of one row ---

  /** Edits write body, version and the flag they send; a deletion the status; a review its verdict. */
  function AdviceAfter(before: Option<Advice>, e: Event, a: Id): Option<Advice> {
    match e
    case Stated(w) => if w.InsertAdvice? && w.advice == a then Some(w.newAdvice) else before
    case Called(call, reply) => if reply != Accepted || before.None? then before else Some(AdviceCalled(before.value, call, a))
  }

  function AdviceCalled(row: Advice, call: Call, a: Id): Advice {
    match call
    case UpdateAdvice(id, _, data, submit) =>
      if id != a then row
      else
        row.(body := row.body + data,
             version := if Changes(row.body, data) then row.version + 1 else row.version,
             isSubmitted := match submit case Some(flag) => flag case None => row.isSubmitted)
    case DeleteAdvice(id, _) => if id != a then row else row.(status := Deleted)
    case ReviewAdvice(id, actor, Approve, _, _, now) =>
      if id != a then row else row.(status := Approved, reviewedBy := Some(actor), reviewedAt := Some(now))
    case ReviewAdvice(id, actor, Reject, reason, _, now) =>
      if id != a then row
      else row.(status := Rejected, reviewedBy := Some(actor), reviewedAt := Some(now), rejectReason := reason)
    case _ => row
  }

  /** Written once, with the triage it was sent, and ended once. */
  function AssignmentAfter(before: Option<Assignment>, e: Event, i: Id): Option<Assignment> {
    match e
    case Called(AssignAdvisor(concern, actor, advisor, triage, newId, now), Accepted) =>
      if newId != i then before else Some(Assignment(concern, advisor, actor, triage, true, now, None))
    case Called(UnassignAdvisor(_, id, now), Accepted) =>
      if id != i || before.None? then before else Some(before.value.(isActive := false, deactivatedAt := Some(now)))
    case _ => before
  }

  function FeedbackAfter(before: Option<Feedback>, e: Event, f: Id): Option<Feedback> {
    match e
    case Stated(InsertFeedback(id, row)) => if id != f then before else Some(row)
    case Stated(SetFeedback(id, status, review, memo)) =>
      if id != f || before.None? then before
      else
        var row := before.value;
        Some(row.(status := status,
                  reviewedBy := match review case Some(r) => Some(r.0) case None => row.reviewedBy,
                  reviewedAt := match review case Some(r) => Some(r.1) case None => row.reviewedAt,
                  memo := match memo case Some(m) => m case None => row.memo))
    case _ => before
  }

  /** A concern without its status, which depends on the other tables. */
  datatype Posted = Posted(author: Id, text: ConcernText, deletedAt: Option<nat>)

  function PostedAs(concerns: Concerns, c: Id): Option<Posted> {
    if c in concerns then Some(Posted(concerns[c].author, concerns[c].text, concerns[c].deletedAt)) else None
  }

  function PostedAfter(before: Option<Posted>, e: Event, c: Id): Option<Posted> {
    match e
    case Stated(InsertConcern(id, row)) => if id != c then before else Some(Posted(row.author, row.text, row.deletedAt))
    case Stated(SetDeletedAt(id, at)) => if id != c || before.None? then before else Some(before.value.(deletedAt := at))
    case Called(UpdateConcern(_, id, text), Accepted) =>
      if id != c || before.None? then before else Some(before.value.(text := before.value.text + text))
    case _ => before
  }

  /** Assigned with the first assignment, back when the last one ends, answered by an approval, closed by an administrator. */
  function StatusAfter(db: Db, e: Event, c: Id): ConcernStatus
    requires c in db.concerns
  {
    var status := db.concerns[c].status;
    match e
    case Called(AssignAdvisor(id, _, _, _, _, _), Accepted) =>
      if id == c && status == ConcernStatus.Submitted then Assigned else status
    case Called(UnassignAdvisor(id, i, _), Accepted) =>
      var others := exists j :: j in db.assignments && j != i && db.assignments[j].concern == c && db.assignments[j].isActive;
      if id == c && status == Assigned && !others then ConcernStatus.Submitted else status
    case Called(ReviewAdvice(a, _, Approve, _, _, _), Accepted) =>
      if a in db.advices && db.advices[a].concern == c && status == Assigned then Answered else status
    case Stated(SetConcernStatus(id, s)) => if id == c then s else status
    case _ => status
  }

  // --- every event does just that ---

  /** Every row of every table is what the event makes of it. */
  ghost predicate RowsAfter(db: Db, after: Db, e: Event, key: Id) {
    && Row(after.advices, key) == AdviceAfter(Row(db.advices, key), e, key)
    && Row(after.assignments, key) == AssignmentAfter(Row(db.assignments, key), e, key)
    && Row(after.feedbacks, key) == FeedbackAfter(Row(db.feedbacks, key), e, key)
    && PostedAs(after.concerns, key) == PostedAfter(PostedAs(db.concerns, key), e, key)
    && (key in db.concerns ==> key in after.concerns && after.concerns[key].status == StatusAfter(db, e, key))
  }

  lemma EditLeaves(db: Db, id: Id, actor: Id, data: Body, submit: Option<bool>)
    ensures var served := UpdateAdviceSpec(db, id, actor, data, submit);
            var after := served.db;
            && after == db.(advices := after.advices, history := after.history)
            && (served.reply != Accepted ==> after == db)
            && (served.reply == Accepted ==>
                  && id in db.advices
                  && after.advices ==
                     db.advices[id := AdviceCalled(db.advices[id], UpdateAdvice(id, actor, data, submit), id)])
  {
    if id in db.advices { ChangesIffNew(db.advices[id].body, data); }
    hide Changes;
  }

  lemma EditRows(db: Db, call: Call, key: Id)
    requires call.UpdateAdvice?
    ensures RowsAfter(db, Exec(db, call).db, Called(call, Exec(db, call).reply), key)
  {
    EditLeaves(db, call.advice, call.actor, call.data, call.submit);
    hide Changes, UpdateAdviceSpec, DeleteAdviceSpec, ReviewAdviceSpec, AssignAdvisorSpec, UnassignAdvisorSpec, UpdateConcernSpec;
  }

  lemma DeletionRows(db: Db, call: Call, key: Id)
    requires call.DeleteAdvice?
    ensures RowsAfter(db, Exec(db, call).db, Called(call, Exec(db, call).reply), key)
  {
    hide UpdateAdviceSpec, ReviewAdviceSpec, AssignAdvisorSpec, UnassignAdvisorSpec, UpdateConcernSpec;
  }

  /** What a review writes: its row, and the status of the concern when it is an approval. */
  lemma ReviewLeaves(db: Db, id: Id, actor: Id, decision: Decision, reason: string, expected: nat, now: nat)
    ensures var served := ReviewAdviceSpec(db, id, actor, decision, reason, expected, now);
            var after := served.db;
            && after.assignments == db.assignments && after.feedbacks == db.feedbacks
            && (served.reply != Accepted ==> after == db)
            && (served.reply == Accepted ==>
                  && id in db.advices && db.advices[id].concern in db.concerns
                  && var row, c := db.advices[id], db.advices[id].concern;
                  && after.advices ==
                     db.advices[id := AdviceCalled(row, ReviewAdvice(id, actor, decision, reason, expected, now), id)]
                  && after.concerns == if decision == Approve && db.concerns[c].status == Assigned
                                       then db.concerns[c := db.concerns[c].(status := Answered)] else db.concerns)
  {
    hide ReviewError;
  }

  lemma ReviewRows(db: Db, call: Call, key: Id)
    requires call.ReviewAdvice?
    ensures RowsAfter(db, Exec(db, call).db, Called(call, Exec(db, call).reply), key)
  {
    ReviewLeaves(db, call.advice, call.actor, call.decision, call.reason, call.expectedVersion, call.now);
    hide UpdateAdviceSpec, DeleteAdviceSpec, ReviewAdviceSpec, AssignAdvisorSpec, UnassignAdvisorSpec, UpdateConcernSpec;
  }

  lemma AssignmentRows(db: Db, call: Call, key: Id)
    requires call.AssignAdvisor?
    ensures RowsAfter(db, Exec(db, call).db, Called(call, Exec(db, call).reply), key)
  {
    hide UpdateAdviceSpec, DeleteAdviceSpec, ReviewAdviceSpec, UnassignAdvisorSpec, UpdateConcernSpec;
    hide AssignmentSlotTaken;
  }

  lemma EndingRows(db: Db, call: Call, key: Id)
    requires call.UnassignAdvisor?
    ensures RowsAfter(db, Exec(db, call).db, Called(call, Exec(db, call).reply), key)
  {
    hide UpdateAdviceSpec, DeleteAdviceSpec, ReviewAdviceSpec, AssignAdvisorSpec, UpdateConcernSpec;
    if call.assignment in db.assignments { OthersActive(db.assignments, call.concern, call.assignment, call.now); }
    hide HasActive;
  }

  lemma OthersActive(assignments: Assignments, c: Id, i: Id, now: nat)
    requires i in assignments
    ensures HasActive(assignments[i := assignments[i].(isActive := false, deactivatedAt := Some(now))], c) <==>
            exists j :: j in assignments && j != i && assignments[j].concern == c && assignments[j].isActive
  {
    var after := assignments[i := assignments[i].(isActive := false, deactivatedAt := Some(now))];
    if j :| j in assignments && j != i && assignments[j].concern == c && assignments[j].isActive {
      assert after[j] == assignments[j];
    }
    if HasActive(after, c) {
      var j :| j in after && after[j].concern == c && after[j].isActive;
      assert j != i && after[j] == assignments[j];
    }
  }

  lemma TextRows(db: Db, call: Call, key: Id)
    requires call.UpdateConcern?
    ensures RowsAfter(db, Exec(db, call).db, Called(call, Exec(db, call).reply), key)
  {
    hide UpdateAdviceSpec, DeleteAdviceSpec, ReviewAdviceSpec, AssignAdvisorSpec, UnassignAdvisorSpec;
    hide EverAssigned;
  }

  lemma StatementRows(db: Db, w: Write, key: Id)
    requires Admissible(db, w)
    ensures RowsAfter(db, Apply(db, w), Stated(w), key)
  {
    hide AdviceSlotTaken, EverAssignedTo, HasFeedback;
  }

  /** One event changes the rows it is about, in the columns it names, and no others. */
  lemma EventRows(db: Db, e: Event, key: Id)
    requires Happens(db, e)
    ensures RowsAfter(db, Effect(db, e), e, key)
  {
    hide RowsAfter, Exec, Apply, Admissible;
    match e
    case Stated(w) => StatementRows(db, w, key);
    case Called(call, _) =>
      match call {
        case UpdateAdvice(_, _, _, _) => EditRows(db, call, key);
        case DeleteAdvice(_, _) => DeletionRows(db, call, key);
        case ReviewAdvice(_, _, _, _, _, _) => ReviewRows(db, call, key);
        case AssignAdvisor(_, _, _, _, _, _) => AssignmentRows(db, call, key);
        case UnassignAdvisor(_, _, _) => EndingRows(db, call, key);
        case UpdateConcern(_, _, _) => TextRows(db, call, key);
      }
  }

  // --- and so do whole logs ---

  function AdviceOf(log: seq<Event>, a: Id): Option<Advice>
    decreases |log|
  {
    if log == [] then None else AdviceAfter(AdviceOf(log[..|log| - 1], a), log[|log| - 1], a)
  }

  function AssignmentOf(log: seq<Event>, i: Id): Option<Assignment>
    decreases |log|
  {
    if log == [] then None else AssignmentAfter(AssignmentOf(log[..|log| - 1], i), log[|log| - 1], i)
  }

  function FeedbackOf(log: seq<Event>, f: Id): Option<Feedback>
    decreases |log|
  {
    if log == [] then None else FeedbackAfter(FeedbackOf(log[..|log| - 1], f), log[|log| - 1], f)
  }

  function PostedOf(log: seq<Event>, c: Id): Option<Posted>
    decreases |log|
  {
    if log == [] then None else PostedAfter(PostedOf(log[..|log| - 1], c), log[|log| - 1], c)
  }

  lemma {:induction false} LogSays(advisors: set<Id>, log: seq<Event>, key: Id)
    requires Faithful(EmptyDb(advisors), log)
    ensures var db := Replay(EmptyDb(advisors), log);
            && Row(db.advices, key) == AdviceOf(log, key)
            && Row(db.assignments, key) == AssignmentOf(log, key)
            && Row(db.feedbacks, key) == FeedbackOf(log, key)
            && PostedAs(db.concerns, key) == PostedOf(log, key)
    decreases |log|
  {
    if log != [] {
      var init, e := log[..|log| - 1], log[|log| - 1];
      LogSays(advisors, init, key);
      var db := Replay(EmptyDb(advisors), init);
      EventRows(db, e, key);
      hide Happens, Effect, AdviceAfter, AssignmentAfter, FeedbackAfter, PostedAfter, PostedAs, StatusAfter;
    }
  }

  /** In every interleaving, at every moment, an advice is what its insert and the accepted calls about it make of it. */
  lemma AdviceIsItsRequests(run: seq<Sys>, i: nat, a: Id)
    requires Run(run) && i < |run|
    ensures Row(run[i].db.advices, a) == AdviceOf(run[i].log, a)
  {
    EveryRunIsSerial(run, i);
    hide Run, Replay, Faithful;
    LogSays(run[i].db.advisors, run[i].log, a);
  }

  /** And so are assignments, feedbacks and concerns. */
  lemma RowsAreTheirRequests(run: seq<Sys>, i: nat, key: Id)
    requires Run(run) && i < |run|
    ensures Row(run[i].db.assignments, key) == AssignmentOf(run[i].log, key)
    ensures Row(run[i].db.feedbacks, key) == FeedbackOf(run[i].log, key)
    ensures PostedAs(run[i].db.concerns, key) == PostedOf(run[i].log, key)
  {
    EveryRunIsSerial(run, i);
    hide Run, Replay, Faithful;
    LogSays(run[i].db.advisors, run[i].log, key);
  }

  // --- the flag, by itself ---

  /** The latest flag sent for an advice: by its insert, or by an accepted edit that carried one. */
  function FlagOf(log: seq<Event>, a: Id): Option<bool>
    decreases |log|
  {
    if log == [] then None
    else
      match log[|log| - 1]
      case Stated(InsertAdvice(id, row)) => if id == a then Some(row.isSubmitted) else FlagOf(log[..|log| - 1], a)
      case Called(UpdateAdvice(id, _, _, Some(flag)), Accepted) => if id == a then Some(flag) else FlagOf(log[..|log| - 1], a)
      case _ => FlagOf(log[..|log| - 1], a)
  }

  lemma {:induction false} FlagOfAdvice(advisors: set<Id>, log: seq<Event>, a: Id)
    requires Faithful(EmptyDb(advisors), log)
    ensures FlagOf(log, a) == match AdviceOf(log, a) case Some(row) => Some(row.isSubmitted) case None => None
    decreases |log|
  {
    if log != [] {
      var init, e := log[..|log| - 1], log[|log| - 1];
      FlagOfAdvice(advisors, init, a);
      LogSays(advisors, init, a);
      var db := Replay(EmptyDb(advisors), init);
      if e.Called? && e.call.UpdateAdvice? {
        EditAnswers(db, e.call.advice, e.call.actor, e.call.data, e.call.submit);
      }
      hide Faithful, Replay, Exec, Changes, Admissible;
    }
  }

  /** In every interleaving an advice is submitted exactly when the latest flag sent for it says so. */
  lemma FlagIsTheLatestSent(run: seq<Sys>, i: nat, a: Id)
    requires Run(run) && i < |run|
    ensures FlagOf(run[i].log, a) == if a in run[i].db.advices then Some(run[i].db.advices[a].isSubmitted) else None
  {
    EveryRunIsSerial(run, i);
    AdviceIsItsRequests(run, i, a);
    hide Run, Replay, Faithful;
    FlagOfAdvice(run[i].db.advisors, run[i].log, a);
  }
}
