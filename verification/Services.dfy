/**
 The service functions of `concerns/services.py` and `advice/services.py` as functions from a
 database to a database and a reply. Each one is what the call does when nothing runs beside it.
 `Store` implements them by updating tables in place; `Transactions` runs them statement by statement.
 */
module Services {
  import opened Text
  import opened Common
  import opened Tables

  datatype Outcome = Outcome(db: Db, reply: Reply)

  function Refuse(db: Db, e: Error): Outcome { Outcome(db, Refused(e)) }

  datatype Decision = Approve | Reject

  /** The six calls that run as one transaction under row locks. `now` is the clock, `newId` a fresh key. */
  datatype Call =
    | UpdateAdvice(advice: Id, actor: Id, data: Body, submit: Option<bool>)
    | DeleteAdvice(advice: Id, actor: Id)
    | ReviewAdvice(advice: Id, actor: Id, decision: Decision, reason: string, expectedVersion: nat, now: nat)
    | AssignAdvisor(concern: Id, actor: Id, advisor: Id, triage: Triage, newId: Id, now: nat)
    | UnassignAdvisor(concern: Id, assignment: Id, now: nat)
    | UpdateConcern(user: Id, concern: Id, text: ConcernText)

  function Exec(db: Db, call: Call): Outcome {
    match call
    case UpdateAdvice(id, actor, data, submit) => UpdateAdviceSpec(db, id, actor, data, submit)
    case DeleteAdvice(id, actor) => DeleteAdviceSpec(db, id, actor)
    case ReviewAdvice(id, actor, decision, reason, expected, now) =>
      ReviewAdviceSpec(db, id, actor, decision, reason, expected, now)
    case AssignAdvisor(concern, actor, advisor, triage, newId, now) =>
      AssignAdvisorSpec(db, concern, actor, advisor, triage, newId, now)
    case UnassignAdvisor(concern, assignment, now) => UnassignAdvisorSpec(db, concern, assignment, now)
    case UpdateConcern(user, concern, text) => UpdateConcernSpec(db, user, concern, text)
  }

  // --- advice/services.py ---

  function Edited(body: Body, data: Body): Body { body + data }

  /** No field that was sent differs from the stored one. */
  predicate NothingNew(body: Body, data: Body) { Edited(body, data) == body }

  function UpdateAdviceSpec(db: Db, id: Id, actor: Id, data: Body, submit: Option<bool>): Outcome {
    if id !in db.advices then Refuse(db, NotFound)
    else
      var a := db.advices[id];
      if a.advisor != actor then Refuse(db, Forbidden)
      else if !Editable(a.status) then Refuse(db, Conflict)
      else
        var submitted := if submit.Some? then submit.value else a.isSubmitted;
        if NothingNew(a.body, data) then
          Outcome(db.(advices := db.advices[id := a.(isSubmitted := submitted)]), Accepted)
        else if (id, a.version) in db.history then Refuse(db, ServerError)
        else
          Outcome(
            db.(advices := db.advices[id := a.(body := Edited(a.body, data), version := a.version + 1,
                                               isSubmitted := submitted)],
                history := db.history[(id, a.version) := Snapshot(a.body, actor)]),
            Accepted)
  }

  function DeleteAdviceSpec(db: Db, id: Id, actor: Id): Outcome {
    if id !in db.advices then Refuse(db, NotFound)
    else
      var a := db.advices[id];
      if a.advisor != actor then Refuse(db, Forbidden)
      else if !Deletable(a.status) then Refuse(db, Conflict)
      else Outcome(db.(advices := db.advices[id := a.(status := Deleted)]), Accepted)
  }

  /** The checks of a review that need the advice row only, in the order the code makes them. */
  function ReviewError(a: Advice, decision: Decision, reason: string, expected: nat): Option<Error> {
    if !a.isSubmitted then Some(Conflict)
    else if !Reviewable(a.status) then Some(Conflict)
    else if a.version != expected then Some(PreconditionFailed)
    else if decision == Reject && Blank(reason) then Some(Unprocessable)
    else None
  }

  function Decided(a: Advice, actor: Id, decision: Decision, reason: string, now: nat): Advice {
    if decision == Approve
    then a.(status := Approved, reviewedBy := Some(actor), reviewedAt := Some(now))
    else a.(status := Rejected, reviewedBy := Some(actor), reviewedAt := Some(now), rejectReason := reason)
  }

  function ReviewAdviceSpec(db: Db, id: Id, actor: Id, decision: Decision, reason: string, expected: nat, now: nat)
    : Outcome
  {
    if id !in db.advices then Refuse(db, NotFound)
    else
      var a := db.advices[id];
      var e := ReviewError(a, decision, reason, expected);
      if e.Some? then Refuse(db, e.value)
      else if a.concern !in db.concerns then Refuse(db, ServerError)
      else
        var c := db.concerns[a.concern];
        if c.deletedAt.Some? then Refuse(db, Conflict)
        else
          var advices := db.advices[id := Decided(a, actor, decision, reason, now)];
          if decision == Approve then
            Outcome(
              db.(advices := advices,
                  concerns := if c.status == Assigned then db.concerns[a.concern := c.(status := Answered)] else db.concerns,
                  notices := db.notices + multiset{AdviceApproved(c.author, id, a.concern, actor)}),
              Accepted)
          else
            Outcome(
              db.(advices := advices,
                  notices := db.notices + multiset{AdviceRejected(a.advisor, id, a.concern, actor, reason)}),
              Accepted)
  }

  /** The row `create_advice` inserts; a missing guidance is a KeyError. */
  const BODY_DEFAULTS: Body := map[Questions := Chars(""), Considerations := Chars(""), OutOfScope := Flag(false)]

  function NewAdvice(concern: Id, advisor: Id, data: Body, submit: bool, now: nat): Advice {
    Advice(concern, advisor, BODY_DEFAULTS + data, submit, Pending, 1, now, None, None, "")
  }

  function CreateAdviceSpec(db: Db, newId: Id, concern: Id, advisor: Id, data: Body, submit: bool, now: nat): Outcome {
    if concern !in db.concerns || db.concerns[concern].deletedAt.Some? then Refuse(db, NotFound)
    else if !AssignmentSlotTaken(db.assignments, concern, advisor) then Refuse(db, Forbidden)
    else if Guidance !in data then Refuse(db, ServerError)
    else if newId in db.advices || AdviceSlotTaken(db.advices, concern, advisor) then Refuse(db, Conflict)
    else Outcome(db.(advices := db.advices[newId := NewAdvice(concern, advisor, data, submit, now)]), Accepted)
  }

  predicate HasFeedback(feedbacks: Feedbacks, advice: Id) {
    exists i :: i in feedbacks && feedbacks[i].advice == advice
  }

  function CreateFeedbackSpec(db: Db, newId: Id, advice: Id, author: Id, score: nat, content: string): Outcome {
    if advice !in db.advices || db.advices[advice].concern !in db.concerns then Refuse(db, NotFound)
    else
      var a := db.advices[advice];
      var c := db.concerns[a.concern];
      if c.author != author then Refuse(db, Forbidden)
      else if c.deletedAt.Some? then Refuse(db, Forbidden)
      else if a.status != Approved then Refuse(db, Forbidden)
      else if newId in db.feedbacks || HasFeedback(db.feedbacks, advice) then Refuse(db, Conflict)
      else
        Outcome(db.(feedbacks := db.feedbacks[newId := NewFeedback(advice, author, score, content)]), Accepted)
  }

  function NewFeedback(advice: Id, author: Id, score: nat, content: string): Feedback {
    Feedback(advice, author, score, content, FeedbackStatus.Submitted, "", None, None)
  }

  /** `_ALLOWED_FEEDBACK_TRANSITIONS`. */
  predicate FeedbackEdge(before: FeedbackStatus, after: FeedbackStatus) {
    || (before == FeedbackStatus.Submitted && after == Reviewed)
    || (before == Reviewed && after == Archived)
  }

  /** The columns `transition_feedback` saves. */
  function Moved(f: Feedback, actor: Id, target: FeedbackStatus, memo: Option<string>, now: nat): Feedback {
    var f := if target == Reviewed then f.(reviewedBy := Some(actor), reviewedAt := Some(now)) else f;
    f.(status := target, memo := if memo.Some? then memo.value else f.memo)
  }

  function TransitionFeedbackSpec(db: Db, id: Id, actor: Id, target: FeedbackStatus, memo: Option<string>, now: nat)
    : Outcome
  {
    if id !in db.feedbacks then Refuse(db, NotFound)
    else if !FeedbackEdge(db.feedbacks[id].status, target) then Refuse(db, Conflict)
    else
      Outcome(db.(feedbacks := db.feedbacks[id := Moved(db.feedbacks[id], actor, target, memo, now)]), Accepted)
  }

  // --- concerns/services.py ---

  function CreateConcernSpec(db: Db, newId: Id, author: Id, text: ConcernText): Outcome {
    if newId in db.concerns then Refuse(db, ServerError)
    else
      Outcome(db.(concerns := db.concerns[newId := Concern(author, text, ConcernStatus.Submitted, None)]), Accepted)
  }

  function UpdateConcernSpec(db: Db, user: Id, concern: Id, text: ConcernText): Outcome {
    if concern !in db.concerns then Refuse(db, NotFound)
    else
      var c := db.concerns[concern];
      if c.deletedAt.Some? || c.author != user then Refuse(db, NotFound)
      else if c.status != ConcernStatus.Submitted || EverAssigned(db.assignments, concern) then Refuse(db, Conflict)
      else Outcome(db.(concerns := db.concerns[concern := c.(text := c.text + text)]), Accepted)
  }

  /** `get_own_concern_including_deleted` followed by `soft_delete_concern`, as the view calls them. */
  function WithdrawSpec(db: Db, user: Id, concern: Id, now: nat): Outcome {
    if concern !in db.concerns || db.concerns[concern].author != user then Refuse(db, NotFound)
    else if db.concerns[concern].deletedAt.Some? then Refuse(db, Conflict)
    else
      Outcome(db.(concerns := db.concerns[concern := db.concerns[concern].(deletedAt := Some(now))]), Accepted)
  }

  function AssignAdvisorSpec(db: Db, concern: Id, actor: Id, advisor: Id, triage: Triage, newId: Id, now: nat): Outcome {
    if advisor !in db.advisors then Refuse(db, Unprocessable)
    else if concern !in db.concerns then Refuse(db, NotFound)
    else
      var c := db.concerns[concern];
      if c.deletedAt.Some? || c.status == Closed then Refuse(db, Conflict)
      else if newId in db.assignments || AssignmentSlotTaken(db.assignments, concern, advisor) then Refuse(db, Conflict)
      else
        Outcome(
          db.(assignments := db.assignments[newId := Assignment(concern, advisor, actor, triage, true, now, None)],
              concerns := if c.status == ConcernStatus.Submitted
                          then db.concerns[concern := c.(status := Assigned)] else db.concerns,
              notices := db.notices + multiset{AssignmentCreated(advisor, concern, newId, actor)}),
          Accepted)
  }

  function UnassignAdvisorSpec(db: Db, concern: Id, assignment: Id, now: nat): Outcome {
    if concern !in db.concerns then Refuse(db, NotFound)
    else if assignment !in db.assignments || db.assignments[assignment].concern != concern then Refuse(db, NotFound)
    else
      var c, a := db.concerns[concern], db.assignments[assignment];
      if !a.isActive then Refuse(db, Conflict)
      else
        var assignments := db.assignments[assignment := a.(isActive := false, deactivatedAt := Some(now))];
        Outcome(
          db.(assignments := assignments,
              concerns := if !HasActive(assignments, concern) && c.status == Assigned
                          then db.concerns[concern := c.(status := ConcernStatus.Submitted)] else db.concerns),
          Accepted)
  }

  // --- concerns/admin.py: one UPDATE over the rows of the list that are ticked and pass the action's filter ---

  /** The filters of the list page on the columns the actions write; its other filters narrow what can be ticked. */
  datatype Listing = Listing(status: Option<ConcernStatus>, deleted: Option<bool>)

  /** The rows the action's queryset yields; it is run anew each time it is used. */
  function Shown(listing: Listing, concerns: Concerns, ticked: set<Id>): set<Id> {
    set i | i in ticked && i in concerns
            && (listing.status.Some? ==> concerns[i].status == listing.status.value)
            && (listing.deleted.Some? ==> concerns[i].deletedAt.Some? == listing.deleted.value)
  }

  datatype AdminAction = CloseAll | DeleteAll(now: nat) | RestoreAll

  predicate Closable(c: Concern) { c.status == Answered && c.deletedAt.None? }

  predicate Passes(action: AdminAction, c: Concern) {
    match action
    case CloseAll => Closable(c)
    case DeleteAll(_) => c.deletedAt.None?
    case RestoreAll => c.deletedAt.Some?
  }

  function Rewritten(action: AdminAction, c: Concern): Concern {
    match action
    case CloseAll => c.(status := Closed)
    case DeleteAll(now) => c.(deletedAt := Some(now))
    case RestoreAll => c.(deletedAt := None)
  }

  /** The rows the UPDATE changes. */
  function Matched(concerns: Concerns, action: AdminAction, selected: set<Id>): set<Id> {
    set i | i in selected && i in concerns && Passes(action, concerns[i])
  }

  function AdminSpec(db: Db, action: AdminAction, selected: set<Id>): Db {
    var matched := Matched(db.concerns, action, selected);
    db.(concerns := map i | i in db.concerns ::
          if i in matched then Rewritten(action, db.concerns[i]) else db.concerns[i])
  }
}
