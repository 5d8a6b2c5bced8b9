/**
 The tables, updated in place the way the service functions update them. Every method is one
 request served alone; its contract says it ends in the state, and with the reply, of `Services`.
 */
module Store {
  import opened Text
  import opened Common
  import opened Tables
  import opened Services
  import opened Invariants
  import opened Requests

  lemma StaysSound(db: Db, r: Request)
    ensures Sound(db) ==> Sound(Serve(db, r).db)
  {
    hide Sound, Serve;
    if Sound(db) { RequestKeeps(db, r); }
  }

  lemma EditStaysSound(db: Db, id: Id, actor: Id, data: Body, submit: Option<bool>)
    ensures Sound(db) ==> Sound(UpdateAdviceSpec(db, id, actor, data, submit).db)
  {
    hide Sound, UpdateAdviceSpec;
    if Sound(db) { UpdateAdviceKeeps(db, id, actor, data, submit); }
  }

  lemma ChangedIsNew(body: Body, data: Body)
    ensures Edited(body, data) == body + data
    ensures body + data != body <==> !NothingNew(body, data)
  {}

  lemma BulkStaysSound(db: Db, action: AdminAction, selected: set<Id>)
    ensures Sound(db) ==> Sound(AdminSpec(db, action, selected))
  {
    StaysSound(db, Admin(action, selected));
    hide Sound, AdminSpec;
  }

  class Database {
    var advisors: set<Id>
    var concerns: Concerns
    var assignments: Assignments
    var advices: Advices
    var history: History
    var feedbacks: Feedbacks
    var notices: multiset<Notice>

    constructor (advisors: set<Id>)
      ensures Contents() == EmptyDb(advisors) && Sound(Contents())
    {
      this.advisors, concerns, assignments, advices := advisors, map[], map[], map[];
      history, feedbacks, notices := map[], map[], multiset{};
    }

    ghost function Contents(): Db
      reads this
    {
      Db(advisors, concerns, assignments, advices, history, feedbacks, notices)
    }

    // --- advice/services.py ---

    /** Whether a field that was sent differs from the stored one. */
    static method BodyChanged(body: Body, data: Body) returns (changed: bool)
      ensures changed == (body + data != body)
    {
      changed := false;
      var i := 0;
      while i < |BODY_FIELDS| && !changed
        invariant 0 <= i <= |BODY_FIELDS|
        invariant changed ==> body + data != body
        invariant !changed ==> forall f :: f in BODY_FIELDS[..i] && f in data ==> f in body && body[f] == data[f]
        decreases |BODY_FIELDS| - i, !changed
      {
        var f := BODY_FIELDS[i];
        if f in data && !(f in body && body[f] == data[f]) {
          assert (body + data)[f] == data[f];
          changed := true;
        }
        i := i + 1;
      }
      if !changed {
        EveryFieldIsListed();
        assert BODY_FIELDS[..i] == BODY_FIELDS;
        assert body + data == body;
      }
    }

    /** Takes over the fields that were sent and keeps the others. */
    static method SetBody(body: Body, data: Body) returns (updated: Body)
      ensures updated == body + data
    {
      updated := body;
      var i := 0;
      while i < |BODY_FIELDS|
        invariant 0 <= i <= |BODY_FIELDS|
        invariant updated == body + Sent(data, BODY_FIELDS[..i])
      {
        var f := BODY_FIELDS[i];
        assert BODY_FIELDS[..i + 1] == BODY_FIELDS[..i] + [f];
        SentOneMore(body, data, BODY_FIELDS[..i], f);
        if f in data { updated := updated[f := data[f]]; }
        i := i + 1;
      }
      EveryFieldIsListed();
      assert BODY_FIELDS[..i] == BODY_FIELDS;
      assert Sent(data, BODY_FIELDS) == data;
    }

    static function Sent(data: Body, fields: seq<BodyField>): Body {
      data - set f | f in data && f !in fields
    }

    static lemma SentOneMore(body: Body, data: Body, fields: seq<BodyField>, f: BodyField)
      ensures body + Sent(data, fields + [f]) ==
              if f in data then (body + Sent(data, fields))[f := data[f]] else body + Sent(data, fields)
    {}

    static lemma EveryFieldIsListed()
      ensures forall f: BodyField :: f in BODY_FIELDS
    {
      forall f: BodyField
        ensures f in BODY_FIELDS
      {
        var k := match f case Guidance => 0 case Questions => 1 case Considerations => 2 case OutOfScope => 3;
        assert BODY_FIELDS[k] == f;
      }
    }

    method LockOwnAdvice(id: Id, actor: Id, allowed: set<AdviceStatus>) returns (reply: Reply, advice: Option<Advice>)
      ensures reply == if id !in advices then Refused(NotFound)
                       else if advices[id].advisor != actor then Refused(Forbidden)
                       else if advices[id].status !in allowed then Refused(Conflict) else Accepted
      ensures reply == Accepted ==> advice == Some(advices[id])
    {
      advice := None;
      if id !in advices { return Refused(NotFound), None; }
      if advices[id].advisor != actor { return Refused(Forbidden), None; }
      if advices[id].status !in allowed { return Refused(Conflict), None; }
      return Accepted, Some(advices[id]);
    }

    method UpdateAdvice(id: Id, actor: Id, data: Body, submit: Option<bool>) returns (reply: Reply)
      modifies this
      ensures Outcome(Contents(), reply) == UpdateAdviceSpec(old(Contents()), id, actor, data, submit)
      ensures Sound(old(Contents())) ==> Sound(Contents())
    {
      hide Sound, NothingNew, Edited;
      EditStaysSound(Contents(), id, actor, data, submit);
      var locked;
      reply, locked := LockOwnAdvice(id, actor, {Pending, Reviewing});
      if reply.Refused? { return; }
      var advice := locked.value;
      var changed := BodyChanged(advice.body, data);
      ChangedIsNew(advice.body, data);
      if changed {
        if (id, advice.version) in history { return Refused(ServerError); }
        history := history[(id, advice.version) := Snapshot(advice.body, actor)];
        advice := advice.(version := advice.version + 1);
      }
      var body := SetBody(advice.body, data);
      advice := advice.(body := body);
      if submit.Some? { advice := advice.(isSubmitted := submit.value); }
      advices := advices[id := advices[id].(body := advice.body, version := advice.version, isSubmitted := advice.isSubmitted)];
      return Accepted;
    }

    method DeleteAdvice(id: Id, actor: Id) returns (reply: Reply)
      modifies this
      ensures Outcome(Contents(), reply) == DeleteAdviceSpec(old(Contents()), id, actor)
      ensures Sound(old(Contents())) ==> Sound(Contents())
    {
      hide Sound;
      if Sound(Contents()) { DeleteAdviceKeeps(Contents(), id, actor); }
      var locked;
      reply, locked := LockOwnAdvice(id, actor, {Pending, Reviewing, Rejected});
      if reply.Accepted? {
        advices := advices[id := advices[id].(status := Deleted)];
      }
    }

    method ReviewAdvice(id: Id, actor: Id, decision: Decision, reason: string, expected: nat, now: nat) returns (reply: Reply)
      modifies this
      ensures Outcome(Contents(), reply) == ReviewAdviceSpec(old(Contents()), id, actor, decision, reason, expected, now)
      ensures Sound(old(Contents())) ==> Sound(Contents())
    {
      hide Sound;
      if Sound(Contents()) { ReviewAdviceKeeps(Contents(), id, actor, decision, reason, expected, now); }
      if id !in advices { return Refused(NotFound); }
      var advice := advices[id];
      if !advice.isSubmitted { return Refused(Conflict); }
      if !Reviewable(advice.status) { return Refused(Conflict); }
      if advice.version != expected { return Refused(PreconditionFailed); }
      if decision == Reject && Blank(reason) { return Refused(Unprocessable); }
      if advice.concern !in concerns { return Refused(ServerError); }
      var concern := concerns[advice.concern];
      if concern.deletedAt.Some? { return Refused(Conflict); }

      advice := advice.(reviewedBy := Some(actor));
      advice := advice.(reviewedAt := Some(now));
      if decision == Approve {
        advice := advice.(status := Approved);
      } else {
        advice := advice.(status := Rejected);
        advice := advice.(rejectReason := reason);
      }
      advices := advices[id := advice];

      if decision == Approve {
        if concern.status == Assigned {
          concern := concern.(status := Answered);
          concerns := concerns[advice.concern := concern];
        }
        notices := notices + multiset{AdviceApproved(concern.author, id, advice.concern, actor)};
      } else {
        notices := notices + multiset{AdviceRejected(advice.advisor, id, advice.concern, actor, reason)};
      }
      return Accepted;
    }

    /** The four body columns of a new advice, the fields that were not sent at their defaults. */
    static method FirstBody(data: Body) returns (body: Body)
      requires Guidance in data
      ensures body == BODY_DEFAULTS + data
    {
      body := map[
        Guidance := data[Guidance],
        Questions := if Questions in data then data[Questions] else Chars(""),
        Considerations := if Considerations in data then data[Considerations] else Chars(""),
        OutOfScope := if OutOfScope in data then data[OutOfScope] else Flag(false)];
      forall f: BodyField
        ensures f in body && f in BODY_DEFAULTS + data && body[f] == (BODY_DEFAULTS + data)[f]
      {
        match f case Guidance => case Questions => case Considerations => case OutOfScope =>
      }
    }

    method CreateAdvice(newId: Id, concern: Id, advisor: Id, data: Body, submit: bool, now: nat) returns (reply: Reply)
      modifies this
      ensures Outcome(Contents(), reply) == CreateAdviceSpec(old(Contents()), newId, concern, advisor, data, submit, now)
      ensures Sound(old(Contents())) ==> Sound(Contents())
    {
      hide Sound, Exec, AdminSpec, CreateFeedbackSpec, TransitionFeedbackSpec, CreateConcernSpec, WithdrawSpec;
      StaysSound(Contents(), Request.CreateAdvice(newId, concern, advisor, data, submit, now));
      if concern !in concerns || concerns[concern].deletedAt.Some? { return Refused(NotFound); }
      if !AssignmentSlotTaken(assignments, concern, advisor) { return Refused(Forbidden); }
      if Guidance !in data { return Refused(ServerError); }
      var body := FirstBody(data);
      if newId in advices || AdviceSlotTaken(advices, concern, advisor) { return Refused(Conflict); }
      advices := advices[newId := Advice(concern, advisor, body, submit, Pending, 1, now, None, None, "")];
      return Accepted;
    }

    method CreateFeedback(newId: Id, advice: Id, author: Id, score: nat, content: string) returns (reply: Reply)
      modifies this
      ensures Outcome(Contents(), reply) == CreateFeedbackSpec(old(Contents()), newId, advice, author, score, content)
      ensures Sound(old(Contents())) ==> Sound(Contents())
    {
      hide Sound, Exec, AdminSpec, CreateAdviceSpec, TransitionFeedbackSpec, CreateConcernSpec, WithdrawSpec;
      StaysSound(Contents(), Request.CreateFeedback(newId, advice, author, score, content));
      if advice !in advices || advices[advice].concern !in concerns { return Refused(NotFound); }
      var concern := concerns[advices[advice].concern];
      if concern.author != author { return Refused(Forbidden); }
      if concern.deletedAt.Some? { return Refused(Forbidden); }
      if advices[advice].status != Approved { return Refused(Forbidden); }
      if newId in feedbacks || HasFeedback(feedbacks, advice) { return Refused(Conflict); }
      feedbacks := feedbacks[newId := Feedback(advice, author, score, content, FeedbackStatus.Submitted, "", None, None)];
      return Accepted;
    }

    method TransitionFeedback(id: Id, actor: Id, target: FeedbackStatus, memo: Option<string>, now: nat) returns (reply: Reply)
      modifies this
      ensures Outcome(Contents(), reply) == TransitionFeedbackSpec(old(Contents()), id, actor, target, memo, now)
      ensures Sound(old(Contents())) ==> Sound(Contents())
    {
      hide Sound, Exec, AdminSpec, CreateAdviceSpec, CreateFeedbackSpec, CreateConcernSpec, WithdrawSpec;
      StaysSound(Contents(), Request.TransitionFeedback(id, actor, target, memo, now));
      if id !in feedbacks { return Refused(NotFound); }
      var feedback := feedbacks[id];
      if !FeedbackEdge(feedback.status, target) { return Refused(Conflict); }
      feedback := feedback.(status := target);
      if target == Reviewed {
        feedback := feedback.(reviewedBy := Some(actor));
        feedback := feedback.(reviewedAt := Some(now));
      }
      if memo.Some? { feedback := feedback.(memo := memo.value); }
      feedbacks := feedbacks[id := feedback];
      return Accepted;
    }

    // --- concerns/services.py ---

    method CreateConcern(newId: Id, author: Id, text: ConcernText) returns (reply: Reply)
      modifies this
      ensures Outcome(Contents(), reply) == CreateConcernSpec(old(Contents()), newId, author, text)
      ensures Sound(old(Contents())) ==> Sound(Contents())
    {
      hide Sound, Exec, AdminSpec, CreateAdviceSpec, CreateFeedbackSpec, TransitionFeedbackSpec, WithdrawSpec;
      StaysSound(Contents(), Request.CreateConcern(newId, author, text));
      if newId in concerns { return Refused(ServerError); }
      concerns := concerns[newId := Concern(author, text, ConcernStatus.Submitted, None)];
      return Accepted;
    }

    /** Takes over every column that was sent. */
    static method SetText(text: ConcernText, data: ConcernText) returns (updated: ConcernText)
      ensures updated == text + data
    {
      updated := text;
      var rest := data.Keys;
      while rest != {}
        invariant rest <= data.Keys
        invariant updated == text + (data - rest)
        decreases rest
      {
        var f :| f in rest;
        updated := updated[f := data[f]];
        rest := rest - {f};
      }
      assert data.Keys - rest == data.Keys;
      assert data - rest == data;
    }

    method UpdateConcern(user: Id, concern: Id, text: ConcernText) returns (reply: Reply)
      modifies this
      ensures Outcome(Contents(), reply) == UpdateConcernSpec(old(Contents()), user, concern, text)
      ensures Sound(old(Contents())) ==> Sound(Contents())
    {
      hide Sound;
      if Sound(Contents()) { UpdateConcernKeeps(Contents(), user, concern, text); }
      if concern !in concerns || concerns[concern].deletedAt.Some? || concerns[concern].author != user {
        return Refused(NotFound);
      }
      var row := concerns[concern];
      var everAssigned := EverAssigned(assignments, concern);
      if row.status != ConcernStatus.Submitted || everAssigned { return Refused(Conflict); }
      var updated := SetText(row.text, text);
      concerns := concerns[concern := row.(text := updated)];
      return Accepted;
    }

    method Withdraw(user: Id, concern: Id, now: nat) returns (reply: Reply)
      modifies this
      ensures Outcome(Contents(), reply) == WithdrawSpec(old(Contents()), user, concern, now)
      ensures Sound(old(Contents())) ==> Sound(Contents())
    {
      hide Sound, Exec, AdminSpec, CreateAdviceSpec, CreateFeedbackSpec, TransitionFeedbackSpec, CreateConcernSpec;
      StaysSound(Contents(), Request.Withdraw(user, concern, now));
      if concern !in concerns || concerns[concern].author != user { return Refused(NotFound); }
      var row := concerns[concern];
      if row.deletedAt.Some? { return Refused(Conflict); }
      row := row.(deletedAt := Some(now));
      concerns := concerns[concern := row];
      return Accepted;
    }

    method AssignAdvisor(concern: Id, actor: Id, advisor: Id, triage: Triage, newId: Id, now: nat) returns (reply: Reply)
      modifies this
      ensures Outcome(Contents(), reply) == AssignAdvisorSpec(old(Contents()), concern, actor, advisor, triage, newId, now)
      ensures Sound(old(Contents())) ==> Sound(Contents())
    {
      hide Sound;
      if Sound(Contents()) { AssignAdvisorKeeps(Contents(), concern, actor, advisor, triage, newId, now); }
      if advisor !in advisors { return Refused(Unprocessable); }
      if concern !in concerns { return Refused(NotFound); }
      var row := concerns[concern];
      if row.deletedAt.Some? { return Refused(Conflict); }
      if row.status == Closed { return Refused(Conflict); }
      if newId in assignments || AssignmentSlotTaken(assignments, concern, advisor) { return Refused(Conflict); }
      assignments := assignments[newId := Assignment(concern, advisor, actor, triage, true, now, None)];
      if row.status == ConcernStatus.Submitted {
        row := row.(status := Assigned);
        concerns := concerns[concern := row];
      }
      notices := notices + multiset{AssignmentCreated(advisor, concern, newId, actor)};
      return Accepted;
    }

    method UnassignAdvisor(concern: Id, assignment: Id, now: nat) returns (reply: Reply)
      modifies this
      ensures Outcome(Contents(), reply) == UnassignAdvisorSpec(old(Contents()), concern, assignment, now)
      ensures Sound(old(Contents())) ==> Sound(Contents())
    {
      hide Sound;
      if Sound(Contents()) { UnassignAdvisorKeeps(Contents(), concern, assignment, now); }
      if concern !in concerns { return Refused(NotFound); }
      if assignment !in assignments || assignments[assignment].concern != concern { return Refused(NotFound); }
      var row := assignments[assignment];
      if !row.isActive { return Refused(Conflict); }
      row := row.(isActive := false);
      row := row.(deactivatedAt := Some(now));
      assignments := assignments[assignment := row];
      var stillAssigned := HasActive(assignments, concern);
      if !stillAssigned && concerns[concern].status == Assigned {
        concerns := concerns[concern := concerns[concern].(status := ConcernStatus.Submitted)];
      }
      return Accepted;
    }

    // --- concerns/admin.py: each action is one UPDATE statement and a message with a count ---

    method CloseSelected(listing: Listing, ticked: set<Id>) returns (updated: nat, skipped: int)
      modifies this
      ensures Contents() == AdminSpec(old(Contents()), CloseAll, Shown(listing, old(concerns), ticked))
      ensures updated == |Matched(old(concerns), CloseAll, Shown(listing, old(concerns), ticked))|
      ensures skipped == |Shown(listing, concerns, ticked)| - updated
      ensures Sound(old(Contents())) ==> Sound(Contents())
    {
      hide Sound;
      var shown := Shown(listing, concerns, ticked);
      BulkStaysSound(Contents(), CloseAll, shown);
      var matched := set i | i in shown && concerns[i].status == Answered && concerns[i].deletedAt.None?;
      assert matched == Matched(concerns, CloseAll, shown);
      hide Matched, Shown;
      concerns := map i | i in concerns :: if i in matched then concerns[i].(status := Closed) else concerns[i];
      updated := |matched|;
      skipped := |Shown(listing, concerns, ticked)| - updated;
    }

    method SoftDeleteSelected(listing: Listing, ticked: set<Id>, now: nat) returns (updated: nat)
      modifies this
      ensures Contents() == AdminSpec(old(Contents()), DeleteAll(now), Shown(listing, old(concerns), ticked))
      ensures updated == |Matched(old(concerns), DeleteAll(now), Shown(listing, old(concerns), ticked))|
      ensures Sound(old(Contents())) ==> Sound(Contents())
    {
      hide Sound;
      var shown := Shown(listing, concerns, ticked);
      BulkStaysSound(Contents(), DeleteAll(now), shown);
      var matched := set i | i in shown && concerns[i].deletedAt.None?;
      assert matched == Matched(concerns, DeleteAll(now), shown);
      hide Matched, Shown;
      concerns := map i | i in concerns :: if i in matched then concerns[i].(deletedAt := Some(now)) else concerns[i];
      updated := |matched|;
    }

    method RestoreSelected(listing: Listing, ticked: set<Id>) returns (updated: nat)
      modifies this
      ensures Contents() == AdminSpec(old(Contents()), RestoreAll, Shown(listing, old(concerns), ticked))
      ensures updated == |Matched(old(concerns), RestoreAll, Shown(listing, old(concerns), ticked))|
      ensures Sound(old(Contents())) ==> Sound(Contents())
    {
      hide Sound;
      var shown := Shown(listing, concerns, ticked);
      BulkStaysSound(Contents(), RestoreAll, shown);
      var matched := set i | i in shown && concerns[i].deletedAt.Some?;
      assert matched == Matched(concerns, RestoreAll, shown);
      hide Matched, Shown;
      concerns := map i | i in concerns :: if i in matched then concerns[i].(deletedAt := None) else concerns[i];
      updated := |matched|;
    }
  }
}
