/** Rows of the concern, assignment, advice, feedback and notification tables. */
module Tables {

  import opened Common

  datatype FieldValue = Chars(chars: string) | Many(items: seq<string>) | Flag(flag: bool)

  // --- concerns ---

  datatype ConcernField = Summary | Kind | SecondaryKinds | Lane | Context | Alias | Anonymous

  /** The seven writable columns of a concern; a partial one is a request body. */
  type ConcernText = map<ConcernField, FieldValue>

  datatype ConcernStatus = Submitted | Assigned | Answered | Closed

  datatype Concern = Concern(author: Id, text: ConcernText, status: ConcernStatus, deletedAt: Option<nat>)

  // --- assignments ---

  datatype Triage = Triage(decision: string, rationale: string, priority: string)

  datatype Assignment = Assignment(
    concern: Id, advisor: Id, assignedBy: Id, triage: Triage,
    isActive: bool, assignedAt: nat, deactivatedAt: Option<nat>)

  // --- advices ---

  datatype BodyField = Guidance | Questions | Considerations | OutOfScope

  /** The four body columns of an advice; a partial one is a request body. */
  type Body = map<BodyField, FieldValue>

  const BODY_FIELDS: seq<BodyField> := [Guidance, Questions, Considerations, OutOfScope]

  datatype AdviceStatus = Pending | Reviewing | Approved | Rejected | Deleted

  datatype Advice = Advice(
    concern: Id, advisor: Id, body: Body, isSubmitted: bool, status: AdviceStatus, version: nat,
    createdAt: nat, reviewedAt: Option<nat>, reviewedBy: Option<Id>, rejectReason: string)

  datatype Snapshot = Snapshot(body: Body, editedBy: Id)

  // --- feedbacks ---

  datatype FeedbackStatus = Submitted | Reviewed | Archived

  datatype Feedback = Feedback(
    advice: Id, author: Id, score: nat, content: string, status: FeedbackStatus,
    memo: string, reviewedAt: Option<nat>, reviewedBy: Option<Id>)

  // --- notifications ---

  datatype Notice =
    | AssignmentCreated(recipient: Id, concern: Id, assignment: Id, actor: Id)
    | AdviceApproved(recipient: Id, advice: Id, concern: Id, actor: Id)
    | AdviceRejected(recipient: Id, advice: Id, concern: Id, actor: Id, message: string)

  // --- the database ---

  type Concerns = map<Id, Concern>
  type Assignments = map<Id, Assignment>
  type Advices = map<Id, Advice>
  type History = map<(Id, nat), Snapshot>
  type Feedbacks = map<Id, Feedback>

  /** `advisors` are the users holding an ADVISOR role row; no operation here changes them. */
  datatype Db = Db(
    advisors: set<Id>, concerns: Concerns, assignments: Assignments,
    advices: Advices, history: History, feedbacks: Feedbacks, notices: multiset<Notice>)

  function EmptyDb(advisors: set<Id>): Db {
    Db(advisors, map[], map[], map[], map[], map[], multiset{})
  }

  // --- queries the services share ---

  predicate EverAssigned(assignments: Assignments, concern: Id) {
    exists i :: i in assignments && assignments[i].concern == concern
  }

  predicate EverAssignedTo(assignments: Assignments, concern: Id, advisor: Id) {
    exists i :: i in assignments && assignments[i].concern == concern && assignments[i].advisor == advisor
  }

  predicate HasActive(assignments: Assignments, concern: Id) {
    exists i :: i in assignments && assignments[i].concern == concern && assignments[i].isActive
  }

  /** A row in the partial unique index over active (concern, advisor) assignments. */
  predicate ActiveFor(a: Assignment, concern: Id, advisor: Id) {
    a.concern == concern && a.advisor == advisor && a.isActive
  }

  predicate AssignmentSlotTaken(assignments: Assignments, concern: Id, advisor: Id) {
    exists i :: i in assignments && ActiveFor(assignments[i], concern, advisor)
  }

  /** A row in the partial unique index over (concern, advisor) advices that are not DELETED. */
  predicate LiveFor(a: Advice, concern: Id, advisor: Id) {
    a.concern == concern && a.advisor == advisor && a.status != Deleted
  }

  predicate AdviceSlotTaken(advices: Advices, concern: Id, advisor: Id) {
    exists i :: i in advices && LiveFor(advices[i], concern, advisor)
  }

  predicate HasApproved(advices: Advices, concern: Id) {
    exists i :: i in advices && advices[i].concern == concern && advices[i].status == Approved
  }

  predicate Editable(s: AdviceStatus) { s == Pending || s == Reviewing }

  predicate Reviewable(s: AdviceStatus) { s == Pending || s == Reviewing }

  predicate Deletable(s: AdviceStatus) { s == Pending || s == Reviewing || s == Rejected }
}
