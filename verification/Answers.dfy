/**
 What each request of the workflow answers, read off the tables: which of them are accepted, and which
 code each of the others gets. For any tables, reachable or not.
 */
module Answers {
  import opened Text
  import opened Common
  import opened Tables
  import opened Services
  import opened Statements
  import opened Interleaving
  import opened Queries

  // --- advices ---

  /** A sent field that is not what is stored. */
  predicate Changes(body: Body, data: Body) { exists f :: f in data && (f !in body || body[f] != data[f]) }

  lemma ChangesIffNew(body: Body, data: Body)
    ensures Changes(body, data) <==> !NothingNew(body, data)
  {
    if !Changes(body, data) { assert body + data == body; }
    if f :| f in data && (f !in body || body[f] != data[f]) { assert (body + data)[f] == data[f]; }
  }

  lemma EditAnswers(db: Db, id: Id, actor: Id, data: Body, submit: Option<bool>)
    ensures var reply := Exec(db, UpdateAdvice(id, actor, data, submit)).reply;
            && (reply == Refused(NotFound) <==> id !in db.advices)
            && (id in db.advices ==>
                  var a := db.advices[id];
                  var mine, open := a.advisor == actor, a.status in {Pending, Reviewing};
                  var clash := Changes(a.body, data) && (id, a.version) in db.history;
                  && (reply == Refused(Forbidden) <==> !mine)
                  && (reply == Refused(Conflict) <==> mine && !open)
                  && (reply == Refused(ServerError) <==> mine && open && clash)
                  && (reply == Accepted <==> mine && open && !clash))
  {
    if id in db.advices { ChangesIffNew(db.advices[id].body, data); }
    hide Changes, NothingNew, Edited;
  }

  lemma DeleteAnswers(db: Db, id: Id, actor: Id)
    ensures var reply := Exec(db, DeleteAdvice(id, actor)).reply;
            && (reply == Refused(NotFound) <==> id !in db.advices)
            && (id in db.advices ==>
                  var a := db.advices[id];
                  var mine, open := a.advisor == actor, a.status in {Pending, Reviewing, Rejected};
                  && (reply == Refused(Forbidden) <==> !mine)
                  && (reply == Refused(Conflict) <==> mine && !open)
                  && (reply == Accepted <==> mine && open))
  {
    hide UpdateAdviceSpec, ReviewAdviceSpec, AssignAdvisorSpec, UnassignAdvisorSpec, UpdateConcernSpec;
  }

  /**
   A review: 409 for a draft or a decided advice, then 412 for another version than the one read, then
   422 for a rejection without a reason, then 409 for a withdrawn concern. Every other one is accepted.
   */
  lemma ReviewAnswers(db: Db, id: Id, actor: Id, decision: Decision, reason: string, expected: nat, now: nat)
    ensures var reply := Exec(db, ReviewAdvice(id, actor, decision, reason, expected, now)).reply;
            && (reply == Refused(NotFound) <==> id !in db.advices)
            && (id in db.advices && db.advices[id].concern in db.concerns ==>
                  var a := db.advices[id];
                  var undecided := a.isSubmitted && a.status in {Pending, Reviewing};
                  var silent := decision == Reject && forall i :: 0 <= i < |reason| ==> IsSpace(reason[i]);
                  var withdrawn := db.concerns[a.concern].deletedAt.Some?;
                  && (reply == Refused(PreconditionFailed) <==> undecided && a.version != expected)
                  && (reply == Refused(Unprocessable) <==> undecided && a.version == expected && silent)
                  && (reply == Refused(Conflict) <==> !undecided || (a.version == expected && !silent && withdrawn))
                  && (reply == Accepted <==> undecided && a.version == expected && !silent && !withdrawn))
  {
    hide UpdateAdviceSpec, DeleteAdviceSpec, AssignAdvisorSpec, UnassignAdvisorSpec, UpdateConcernSpec;
  }

  lemma CreateAdviceAnswers(db: Db, newId: Id, concern: Id, advisor: Id, data: Body, submit: bool, now: nat)
    ensures var reply := CreateAdviceSpec(db, newId, concern, advisor, data, submit, now).reply;
            var there := concern in db.concerns && db.concerns[concern].deletedAt.None?;
            var onIt := exists i :: && i in db.assignments && db.assignments[i].concern == concern
                                    && db.assignments[i].advisor == advisor && db.assignments[i].isActive;
            var written := exists a :: && a in db.advices && db.advices[a].concern == concern
                                       && db.advices[a].advisor == advisor && db.advices[a].status != Deleted;
            && (reply == Refused(NotFound) <==> !there)
            && (reply == Refused(Forbidden) <==> there && !onIt)
            && (reply == Refused(ServerError) <==> there && onIt && Guidance !in data)
            && (reply == Refused(Conflict) <==> there && onIt && Guidance in data && (newId in db.advices || written))
            && (reply == Accepted <==> there && onIt && Guidance in data && newId !in db.advices && !written)
  {
    if i :| i in db.assignments && db.assignments[i].concern == concern && db.assignments[i].advisor == advisor
            && db.assignments[i].isActive {
      assert ActiveFor(db.assignments[i], concern, advisor);
    }
    if a :| a in db.advices && db.advices[a].concern == concern && db.advices[a].advisor == advisor
            && db.advices[a].status != Deleted {
      assert LiveFor(db.advices[a], concern, advisor);
    }
  }

  /** A new advice carries what was sent, with defaults for what was left out. */
  predicate Fresh(row: Advice, concern: Id, advisor: Id, data: Body, submit: bool, now: nat) {
    && row.concern == concern && row.advisor == advisor && row.isSubmitted == submit && row.createdAt == now
    && row.status == Pending && row.version == 1
    && row.reviewedAt == None && row.reviewedBy == None && row.rejectReason == ""
    && row.body.Keys == data.Keys + {Questions, Considerations, OutOfScope}
    && forall f :: f in row.body ==>
         row.body[f] == if f in data then data[f] else if f == OutOfScope then Flag(false) else Chars("")
  }

  lemma NewIsFresh(concern: Id, advisor: Id, data: Body, submit: bool, now: nat)
    ensures Fresh(NewAdvice(concern, advisor, data, submit, now), concern, advisor, data, submit, now)
  {}

  lemma CreateAdviceLeaves(db: Db, newId: Id, concern: Id, advisor: Id, data: Body, submit: bool, now: nat)
    ensures var served := CreateAdviceSpec(db, newId, concern, advisor, data, submit, now);
            var after := served.db;
            && (served.reply != Accepted ==> after == db)
            && (served.reply == Accepted ==>
                  && newId !in db.advices && newId in after.advices
                  && after == db.(advices := db.advices[newId := after.advices[newId]])
                  && Fresh(after.advices[newId], concern, advisor, data, submit, now))
  {
    NewIsFresh(concern, advisor, data, submit, now);
    hide AdviceSlotTaken, AssignmentSlotTaken, NewAdvice, Fresh;
  }

  // --- feedback ---

  lemma CreateFeedbackLeaves(db: Db, newId: Id, advice: Id, author: Id, score: nat, content: string)
    ensures var served := CreateFeedbackSpec(db, newId, advice, author, score, content);
            && (served.reply != Accepted ==> served.db == db)
            && (served.reply == Accepted ==>
                  var row := Feedback(advice, author, score, content, FeedbackStatus.Submitted, "", None, None);
                  newId !in db.feedbacks && served.db == db.(feedbacks := db.feedbacks[newId := row]))
  {
    hide HasFeedback;
  }

  /** A transition writes the status, a memo if one is sent, and who reviewed it only on the way to REVIEWED. */
  lemma TransitionLeaves(db: Db, id: Id, actor: Id, target: FeedbackStatus, memo: Option<string>, now: nat)
    ensures var served := TransitionFeedbackSpec(db, id, actor, target, memo, now);
            && (served.reply != Accepted ==> served.db == db)
            && (served.reply == Accepted ==>
                  && id in db.feedbacks && id in served.db.feedbacks
                  && served.db == db.(feedbacks := db.feedbacks[id := served.db.feedbacks[id]])
                  && var before, after := db.feedbacks[id], served.db.feedbacks[id];
                  && after.status == target
                  && after.advice == before.advice && after.author == before.author
                  && after.score == before.score && after.content == before.content
                  && (memo.Some? ==> after.memo == memo.value) && (memo.None? ==> after.memo == before.memo)
                  && (target == Reviewed ==> after.reviewedBy == Some(actor) && after.reviewedAt == Some(now))
                  && (target != Reviewed ==> after.reviewedBy == before.reviewedBy && after.reviewedAt == before.reviewedAt))
  {}

  lemma CreateFeedbackAnswers(db: Db, newId: Id, advice: Id, author: Id, score: nat, content: string)
    requires advice in db.advices ==> db.advices[advice].concern in db.concerns
    ensures var reply := CreateFeedbackSpec(db, newId, advice, author, score, content).reply;
            && (reply == Refused(NotFound) <==> advice !in db.advices)
            && (advice in db.advices ==>
                  var a := db.advices[advice];
                  var c := db.concerns[a.concern];
                  var may := c.author == author && c.deletedAt.None? && a.status == Approved;
                  var rated := exists f :: f in db.feedbacks && db.feedbacks[f].advice == advice;
                  && (reply == Refused(Forbidden) <==> !may)
                  && (reply == Refused(Conflict) <==> may && (newId in db.feedbacks || rated))
                  && (reply == Accepted <==> may && newId !in db.feedbacks && !rated))
  {}

  lemma TransitionAnswers(db: Db, id: Id, actor: Id, target: FeedbackStatus, memo: Option<string>, now: nat)
    ensures var reply := TransitionFeedbackSpec(db, id, actor, target, memo, now).reply;
            && (reply == Refused(NotFound) <==> id !in db.feedbacks)
            && (id in db.feedbacks ==>
                  var next := match db.feedbacks[id].status
                    case Submitted => {FeedbackStatus.Reviewed}
                    case Reviewed => {FeedbackStatus.Archived}
                    case Archived => {};
                  && (reply == Refused(Conflict) <==> target !in next)
                  && (reply == Accepted <==> target in next))
  {}

  // --- concerns ---

  lemma CreateConcernLeaves(db: Db, newId: Id, author: Id, text: ConcernText)
    ensures var served := CreateConcernSpec(db, newId, author, text);
            && (served.reply == Accepted <==> newId !in db.concerns)
            && (served.reply == Accepted ==>
                  served.db == db.(concerns := db.concerns[newId := Concern(author, text, ConcernStatus.Submitted, None)]))
  {}

  lemma WithdrawLeaves(db: Db, user: Id, concern: Id, now: nat)
    ensures var served := WithdrawSpec(db, user, concern, now);
            && (served.reply != Accepted ==> served.db == db)
            && (served.reply == Accepted ==>
                  && concern in db.concerns
                  && served.db == db.(concerns := db.concerns[concern := db.concerns[concern].(deletedAt := Some(now))]))
  {}

  lemma UpdateConcernAnswers(db: Db, user: Id, concern: Id, text: ConcernText)
    ensures var reply := Exec(db, UpdateConcern(user, concern, text)).reply;
            var own := concern in db.concerns && db.concerns[concern].author == user && db.concerns[concern].deletedAt.None?;
            var read := exists i :: i in db.assignments && db.assignments[i].concern == concern;
            && (reply == Refused(NotFound) <==> !own)
            && (reply == Refused(Conflict) <==> own && (db.concerns[concern].status != ConcernStatus.Submitted || read))
            && (reply == Accepted <==> own && db.concerns[concern].status == ConcernStatus.Submitted && !read)
  {
    hide UpdateAdviceSpec, DeleteAdviceSpec, ReviewAdviceSpec, AssignAdvisorSpec, UnassignAdvisorSpec;
  }

  lemma WithdrawAnswers(db: Db, user: Id, concern: Id, now: nat)
    ensures var reply := WithdrawSpec(db, user, concern, now).reply;
            var own := concern in db.concerns && db.concerns[concern].author == user;
            && (reply == Refused(NotFound) <==> !own)
            && (reply == Refused(Conflict) <==> own && db.concerns[concern].deletedAt.Some?)
            && (reply == Accepted <==> own && db.concerns[concern].deletedAt.None?)
  {}

  lemma AssignAnswers(db: Db, concern: Id, actor: Id, advisor: Id, triage: Triage, newId: Id, now: nat)
    ensures var reply := Exec(db, AssignAdvisor(concern, actor, advisor, triage, newId, now)).reply;
            var there := concern in db.concerns;
            var shut := there && (db.concerns[concern].deletedAt.Some? || db.concerns[concern].status == Closed);
            var taken := exists i :: && i in db.assignments && db.assignments[i].concern == concern
                                     && db.assignments[i].advisor == advisor && db.assignments[i].isActive;
            var clash := newId in db.assignments || taken;
            && (reply == Refused(Unprocessable) <==> advisor !in db.advisors)
            && (reply == Refused(NotFound) <==> advisor in db.advisors && !there)
            && (reply == Refused(Conflict) <==> advisor in db.advisors && there && (shut || clash))
            && (reply == Accepted <==> advisor in db.advisors && there && !shut && !clash)
  {
    hide UpdateAdviceSpec, DeleteAdviceSpec, ReviewAdviceSpec, UnassignAdvisorSpec, UpdateConcernSpec;
    if i :| i in db.assignments && db.assignments[i].concern == concern && db.assignments[i].advisor == advisor
            && db.assignments[i].isActive {
      assert ActiveFor(db.assignments[i], concern, advisor);
    }
  }

  lemma UnassignAnswers(db: Db, concern: Id, assignment: Id, now: nat)
    ensures var reply := Exec(db, UnassignAdvisor(concern, assignment, now)).reply;
            var there := && concern in db.concerns && assignment in db.assignments
                         && db.assignments[assignment].concern == concern;
            && (reply == Refused(NotFound) <==> !there)
            && (reply == Refused(Conflict) <==> there && !db.assignments[assignment].isActive)
            && (reply == Accepted <==> there && db.assignments[assignment].isActive)
  {
    hide UpdateAdviceSpec, DeleteAdviceSpec, ReviewAdviceSpec, AssignAdvisorSpec, UpdateConcernSpec, HasActive;
  }

  // --- who may open an advice ---

  /** Its author as such, else an administrator, else the owner of a live concern once it is approved. */
  lemma ViewAnswers(db: Db, a: Id, user: Id, isAdmin: bool)
    requires a in db.advices ==> db.advices[a].concern in db.concerns
    ensures var view := GetVisibleAdvice(db, a, user, isAdmin);
            && (view == Nobody(NotFound) <==> a !in db.advices)
            && (a in db.advices ==>
                  var row, c := db.advices[a], db.concerns[db.advices[a].concern];
                  var owner := c.author == user && c.deletedAt.None? && row.status == Approved;
                  && (view == AsAuthor <==> row.advisor == user)
                  && (view == AsAdmin <==> row.advisor != user && isAdmin)
                  && (view == AsOwner <==> row.advisor != user && !isAdmin && owner)
                  && (view == Nobody(Forbidden) <==> row.advisor != user && !isAdmin && !owner))
  {}

  // --- the bulk actions ---

  /** Each action changes one column, of exactly the rows it is for. */
  lemma BulkWrites(db: Db, action: AdminAction, selected: set<Id>)
    ensures var after := AdminSpec(db, action, selected);
            && after == db.(concerns := after.concerns) && after.concerns.Keys == db.concerns.Keys
            && forall c :: c in db.concerns ==>
                 var row := db.concerns[c];
                 after.concerns[c] ==
                   match action
                   case CloseAll =>
                     if c in selected && row.status == Answered && row.deletedAt.None? then row.(status := Closed) else row
                   case DeleteAll(now) => if c in selected && row.deletedAt.None? then row.(deletedAt := Some(now)) else row
                   case RestoreAll => if c in selected then row.(deletedAt := None) else row
  {}

  // --- the calls that take no lock, statement by statement ---

  /** Whatever ran between its check and its write, such a call writes what was sent. */
  lemma PlainWrites(db: Db, p: Plain)
    requires NextPlain(db, p).Emit?
    ensures var w := NextPlain(db, p).write;
            match p
            case Authoring(newId, concern, advisor, data, submit, now, _) =>
              w.InsertAdvice? && w.advice == newId && Fresh(w.newAdvice, concern, advisor, data, submit, now)
            case Rating(newId, advice, author, score, content, _) =>
              w == InsertFeedback(newId, Feedback(advice, author, score, content, FeedbackStatus.Submitted, "", None, None))
            case Withdrawing(_, concern, now, _) => w == SetDeletedAt(concern, Some(now))
            case Moving(f, actor, target, memo, now, _, _) =>
              w == SetFeedback(f, target, if target == Reviewed then Some((actor, now)) else None, memo)
  {
    if p.Authoring? { NewIsFresh(p.concern, p.advisor, p.data, p.submit, p.now); }
    hide AdviceSlotTaken, AssignmentSlotTaken, HasFeedback, NewAdvice, Fresh;
  }
}
