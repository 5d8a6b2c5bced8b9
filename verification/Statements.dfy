/**
 Single SQL statements that write, and what a run leaves behind: a log of finished calls and of
 autocommitted statements in the order they took effect.
 */
module Statements {
  import opened Common
  import opened Tables
  import opened Services

  /** One INSERT or one `save(update_fields=...)`: it names the columns it writes and no others. */
  datatype Write =
    | InsertConcern(concern: Id, newConcern: Concern)
    | SetConcernText(concern: Id, text: ConcernText)
    | SetConcernStatus(concern: Id, concernStatus: ConcernStatus)
    | SetDeletedAt(concern: Id, deletedAt: Option<nat>)
    | InsertAssignment(assignment: Id, newAssignment: Assignment)
    | EndAssignment(assignment: Id, endedAt: nat)
    | InsertAdvice(advice: Id, newAdvice: Advice)
    | SetAdviceBody(advice: Id, body: Body, version: nat, isSubmitted: bool)
    | SetAdviceStatus(advice: Id, adviceStatus: AdviceStatus)
    | SaveAdvice(advice: Id, row: Advice)
    | InsertHistory(advice: Id, version: nat, snapshot: Snapshot)
    | InsertFeedback(feedback: Id, newFeedback: Feedback)
    | SetFeedback(feedback: Id, feedbackStatus: FeedbackStatus, review: Option<(Id, nat)>, memo: Option<string>)
    | Notify(notice: Notice)

  /** The effect of a write on the tables. An UPDATE of a row that is not there changes nothing. */
  function Apply(db: Db, w: Write): Db {
    match w
    case InsertConcern(c, row) => db.(concerns := db.concerns[c := row])
    case SetConcernText(c, text) =>
      if c in db.concerns then db.(concerns := db.concerns[c := db.concerns[c].(text := db.concerns[c].text + text)]) else db
    case SetConcernStatus(c, s) =>
      if c in db.concerns then db.(concerns := db.concerns[c := db.concerns[c].(status := s)]) else db
    case SetDeletedAt(c, at) =>
      if c in db.concerns then db.(concerns := db.concerns[c := db.concerns[c].(deletedAt := at)]) else db
    case InsertAssignment(i, row) => db.(assignments := db.assignments[i := row])
    case EndAssignment(i, at) =>
      if i in db.assignments
      then db.(assignments := db.assignments[i := db.assignments[i].(isActive := false, deactivatedAt := Some(at))]) else db
    case InsertAdvice(a, row) => db.(advices := db.advices[a := row])
    case SetAdviceBody(a, body, v, submitted) =>
      if a in db.advices
      then db.(advices := db.advices[a := db.advices[a].(body := body, version := v, isSubmitted := submitted)]) else db
    case SetAdviceStatus(a, s) =>
      if a in db.advices then db.(advices := db.advices[a := db.advices[a].(status := s)]) else db
    case SaveAdvice(a, row) => if a in db.advices then db.(advices := db.advices[a := row]) else db
    case InsertHistory(a, v, snapshot) => db.(history := db.history[(a, v) := snapshot])
    case InsertFeedback(f, row) => db.(feedbacks := db.feedbacks[f := row])
    case SetFeedback(f, s, review, memo) =>
      if f in db.feedbacks then
        var row := db.feedbacks[f].(status := s);
        var row := if review.Some? then row.(reviewedBy := Some(review.value.0), reviewedAt := Some(review.value.1)) else row;
        db.(feedbacks := db.feedbacks[f := row.(memo := if memo.Some? then memo.value else row.memo)])
      else db
    case Notify(n) => db.(notices := db.notices + multiset{n})
  }

  function ApplyAll(db: Db, ws: seq<Write>): Db
    decreases |ws|
  {
    if ws == [] then db else Apply(ApplyAll(db, ws[..|ws| - 1]), ws[|ws| - 1])
  }

  lemma ApplyOneMore(db: Db, ws: seq<Write>, w: Write)
    ensures ApplyAll(db, ws + [w]) == Apply(ApplyAll(db, ws), w)
  {
    assert (ws + [w])[..|ws|] == ws;
  }

  /** What took effect: a call that finished with a reply, or a statement outside any transaction. */
  datatype Event = Called(call: Call, reply: Reply) | Stated(write: Write)

  function Effect(db: Db, e: Event): Db {
    match e
    case Called(call, _) => Exec(db, call).db
    case Stated(w) => Apply(db, w)
  }

  /**
   What a statement outside a transaction can count on when it takes effect. The checks of
   `create_advice`, `create_feedback` and `soft_delete_concern` ran earlier, without a lock, so only
   the parts of them that nobody can undo are left, plus the indexes and the UPDATE's own filter.
   */
  predicate Admissible(db: Db, w: Write) {
    match w
    case InsertConcern(c, row) => c !in db.concerns && row.status == ConcernStatus.Submitted && row.deletedAt.None?
    case SetDeletedAt(c, _) => c in db.concerns
    case SetConcernStatus(c, s) => s == Closed && c in db.concerns && Closable(db.concerns[c])
    case InsertAdvice(a, row) =>
      && a !in db.advices
      && !AdviceSlotTaken(db.advices, row.concern, row.advisor)
      && row.concern in db.concerns
      && EverAssignedTo(db.assignments, row.concern, row.advisor)
      && row.status == Pending && row.version == 1
      && row.reviewedBy.None? && row.reviewedAt.None? && row.rejectReason == ""
    case InsertFeedback(f, row) =>
      && f !in db.feedbacks
      && !HasFeedback(db.feedbacks, row.advice)
      && row.advice in db.advices
      && db.advices[row.advice].status == Approved
      && db.advices[row.advice].concern in db.concerns
      && db.concerns[db.advices[row.advice].concern].author == row.author
    case SetFeedback(f, _, _, _) => f in db.feedbacks
    case _ => false
  }

  predicate Happens(db: Db, e: Event) {
    match e
    case Called(call, reply) => Exec(db, call).reply == reply
    case Stated(w) => Admissible(db, w)
  }

  /** The database after a whole log, run one event at a time. */
  function Replay(db: Db, log: seq<Event>): Db
    decreases |log|
  {
    if log == [] then db else Effect(Replay(db, log[..|log| - 1]), log[|log| - 1])
  }

  /** Every event of the log could happen where it stands, and every call answered as it does alone. */
  predicate Faithful(db: Db, log: seq<Event>)
    decreases |log|
  {
    log != [] ==>
      && Faithful(db, log[..|log| - 1])
      && Happens(Replay(db, log[..|log| - 1]), log[|log| - 1])
  }
}
