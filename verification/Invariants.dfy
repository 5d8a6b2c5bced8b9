/** What holds of the tables together: no single service function establishes these. */
module Invariants {
  import opened Text
  import opened Common
  import opened Tables
  import opened Services
  import opened Statements

  /** SUBMITTED means no active assignment, ASSIGNED at least one. */
  ghost predicate StatusAgrees(concerns: Concerns, assignments: Assignments) {
    forall c :: c in concerns ==>
      && (concerns[c].status == ConcernStatus.Submitted ==> !HasActive(assignments, c))
      && (concerns[c].status == Assigned ==> HasActive(assignments, c))
  }

  predicate Settled(s: ConcernStatus) { s == Answered || s == Closed }

  /** ANSWERED and CLOSED are backed by an approved advice. */
  ghost predicate Backed(concerns: Concerns, advices: Advices) {
    forall c :: c in concerns && Settled(concerns[c].status) ==> HasApproved(advices, c)
  }

  /** The snapshots of an advice carry exactly the versions before its own, written by its advisor. */
  ghost predicate Gapless(advices: Advices, history: History) {
    && (forall k :: k in history ==> k.0 in advices && 1 <= k.1 < advices[k.0].version
                                     && history[k].editedBy == advices[k.0].advisor)
    && (forall a, v: nat :: a in advices && 1 <= v < advices[a].version ==> (a, v) in history)
  }

  /** The body of version `v`, where there is one. */
  function Revision(advices: Advices, history: History, a: Id, v: nat): Option<Body> {
    if a !in advices then None
    else if v == advices[a].version then Some(advices[a].body)
    else if (a, v) in history then Some(history[(a, v)].body) else None
  }

  predicate Differs(advices: Advices, history: History, a: Id, v: nat) {
    Revision(advices, history, a, v) != Revision(advices, history, a, v + 1)
  }

  /** Consecutive bodies differ, the last snapshot and the row included. */
  ghost predicate Revised(advices: Advices, history: History) {
    forall a, v: nat :: a in advices && 1 <= v < advices[a].version ==> Differs(advices, history, a, v)
  }

  /** Foreign keys, and the assignment every advice was written under. */
  ghost predicate Rooted(concerns: Concerns, assignments: Assignments, advices: Advices) {
    && (forall i :: i in assignments ==> assignments[i].concern in concerns)
    && (forall a :: a in advices ==>
          advices[a].concern in concerns && EverAssignedTo(assignments, advices[a].concern, advices[a].advisor))
  }

  ghost predicate AssignmentSlots(assignments: Assignments) {
    && (forall i :: i in assignments ==> (assignments[i].isActive <==> assignments[i].deactivatedAt.None?))
    && (forall i, j :: i in assignments && j in assignments && i != j
                       && assignments[i].isActive && assignments[j].isActive ==>
          assignments[i].concern != assignments[j].concern || assignments[i].advisor != assignments[j].advisor)
  }

  ghost predicate AdviceSlots(advices: Advices) {
    forall i, j :: i in advices && j in advices && i != j
                   && advices[i].status != Deleted && advices[j].status != Deleted ==>
      advices[i].concern != advices[j].concern || advices[i].advisor != advices[j].advisor
  }

  /** One advice row: REVIEWING is never reached, and a decision is on a submitted advice and says whose it is. */
  predicate Coherent(a: Advice) {
    && a.status != Reviewing
    && a.version >= 1
    && (a.reviewedBy.Some? <==> a.reviewedAt.Some?)
    && (a.status == Approved || a.status == Rejected ==> a.reviewedBy.Some?)
    && (a.reviewedBy.Some? ==> a.isSubmitted && a.status != Pending)
    && (a.reviewedBy.None? || a.status == Approved ==> a.rejectReason == "")
    && (a.reviewedBy.Some? && a.status != Approved ==> !Blank(a.rejectReason))
  }

  ghost predicate Decisions(advices: Advices) {
    forall a :: a in advices ==> Coherent(advices[a])
  }

  /** The tables call for this notification. */
  predicate Due(concerns: Concerns, assignments: Assignments, advices: Advices, n: Notice) {
    match n
    case AssignmentCreated(recipient, concern, i, actor) =>
      && i in assignments
      && assignments[i].advisor == recipient && assignments[i].concern == concern && assignments[i].assignedBy == actor
    case AdviceApproved(recipient, a, concern, actor) =>
      && a in advices
      && advices[a].status == Approved && advices[a].concern == concern && advices[a].reviewedBy == Some(actor)
      && concern in concerns && concerns[concern].author == recipient
    case AdviceRejected(recipient, a, concern, actor, message) =>
      && a in advices
      && advices[a].status != Approved && advices[a].concern == concern && advices[a].reviewedBy == Some(actor)
      && advices[a].advisor == recipient && advices[a].rejectReason == message
  }

  /** A notification is in the table exactly once when it is due and not at all when it is not. */
  ghost predicate NoticesExact(concerns: Concerns, assignments: Assignments, advices: Advices, notices: multiset<Notice>) {
    forall n: Notice :: notices[n] == if Due(concerns, assignments, advices, n) then 1 else 0
  }

  /** Feedback sits on an approved advice, comes from the concern's author, and comes once. */
  ghost predicate FeedbackEarned(concerns: Concerns, advices: Advices, feedbacks: Feedbacks) {
    && (forall f :: f in feedbacks ==>
          var a := feedbacks[f].advice;
          && a in advices && advices[a].status == Approved
          && advices[a].concern in concerns && concerns[advices[a].concern].author == feedbacks[f].author)
    && (forall f, g :: f in feedbacks && g in feedbacks && f != g ==> feedbacks[f].advice != feedbacks[g].advice)
  }

  ghost predicate Sound(db: Db) {
    && StatusAgrees(db.concerns, db.assignments)
    && Backed(db.concerns, db.advices)
    && Gapless(db.advices, db.history)
    && Revised(db.advices, db.history)
    && Rooted(db.concerns, db.assignments, db.advices)
    && AssignmentSlots(db.assignments)
    && AdviceSlots(db.advices)
    && Decisions(db.advices)
    && NoticesExact(db.concerns, db.assignments, db.advices, db.notices)
    && FeedbackEarned(db.concerns, db.advices, db.feedbacks)
  }

  lemma EmptyIsSound(advisors: set<Id>)
    ensures Sound(EmptyDb(advisors))
  {}

  // --- rewriting one advice row ---

  /** What no rewrite of an advice row ever touches, and the two one-way doors of its status. */
  predicate Rewrites(before: Advice, after: Advice) {
    && after.concern == before.concern && after.advisor == before.advisor
    && (before.status == Approved ==> after.status == Approved)
    && (before.status == Deleted ==> after.status == Deleted)
  }

  lemma RewriteKeeps(concerns: Concerns, assignments: Assignments, advices: Advices, feedbacks: Feedbacks, a: Id, row: Advice)
    requires a in advices && Rewrites(advices[a], row)
    requires Backed(concerns, advices) && Rooted(concerns, assignments, advices)
    requires AdviceSlots(advices) && FeedbackEarned(concerns, advices, feedbacks)
    ensures Backed(concerns, advices[a := row]) && Rooted(concerns, assignments, advices[a := row])
    ensures AdviceSlots(advices[a := row]) && FeedbackEarned(concerns, advices[a := row], feedbacks)
  {
    forall c | c in concerns && Settled(concerns[c].status)
      ensures HasApproved(advices[a := row], c)
    {
      var i :| i in advices && advices[i].concern == c && advices[i].status == Approved;
      assert advices[a := row][i].status == Approved;
    }
  }

  lemma CoherentKeeps(advices: Advices, a: Id, row: Advice)
    requires Decisions(advices) && Coherent(row)
    ensures Decisions(advices[a := row])
  {}

  /** Nothing a notification is about. */
  predicate SameFate(before: Advice, after: Advice) {
    && after.concern == before.concern && after.advisor == before.advisor
    && after.reviewedBy == before.reviewedBy && after.rejectReason == before.rejectReason
    && (after.status == Approved <==> before.status == Approved)
  }

  lemma SameFateKeeps(concerns: Concerns, assignments: Assignments, advices: Advices, notices: multiset<Notice>, a: Id,
                      row: Advice)
    requires a in advices && SameFate(advices[a], row)
    requires NoticesExact(concerns, assignments, advices, notices)
    ensures NoticesExact(concerns, assignments, advices[a := row], notices)
  {
    forall n: Notice
      ensures Due(concerns, assignments, advices[a := row], n) == Due(concerns, assignments, advices, n)
    {}
  }

  lemma SameTextKeeps(advices: Advices, history: History, a: Id, row: Advice)
    requires a in advices
    requires row.body == advices[a].body && row.version == advices[a].version && row.advisor == advices[a].advisor
    requires Gapless(advices, history) && Revised(advices, history)
    ensures Gapless(advices[a := row], history) && Revised(advices[a := row], history)
  {
    forall b, v: nat {:trigger Differs(advices[a := row], history, b, v)} | b in advices && 1 <= v < advices[b].version
      ensures Differs(advices[a := row], history, b, v)
    {
      assert Differs(advices, history, b, v);
    }
  }

  lemma NextVersionKeeps(advices: Advices, history: History, a: Id, row: Advice)
    requires a in advices && advices[a].version >= 1
    requires row.body != advices[a].body && row.version == advices[a].version + 1 && row.advisor == advices[a].advisor
    requires Gapless(advices, history) && Revised(advices, history)
    ensures (a, advices[a].version) !in history
    ensures var later := history[(a, advices[a].version) := Snapshot(advices[a].body, row.advisor)];
            Gapless(advices[a := row], later) && Revised(advices[a := row], later)
  {
    var later := history[(a, advices[a].version) := Snapshot(advices[a].body, row.advisor)];
    forall b, v: nat {:trigger Differs(advices[a := row], later, b, v)} | b in advices && 1 <= v < advices[a := row][b].version
      ensures Differs(advices[a := row], later, b, v)
    {
      if b != a || v < advices[a].version {
        assert Differs(advices, history, b, v);
      }
    }
  }

  lemma UpdateAdviceKeeps(db: Db, id: Id, actor: Id, data: Body, submit: Option<bool>)
    requires Sound(db)
    ensures Sound(UpdateAdviceSpec(db, id, actor, data, submit).db)
  {
    var after := UpdateAdviceSpec(db, id, actor, data, submit).db;
    if after != db {
      var a, row := db.advices[id], after.advices[id];
      assert Coherent(row);
      hide Backed, Gapless, Revised, Rooted, AdviceSlots, NoticesExact, FeedbackEarned, StatusAgrees, AssignmentSlots, Decisions;
      CoherentKeeps(db.advices, id, row);
      RewriteKeeps(db.concerns, db.assignments, db.advices, db.feedbacks, id, row);
      SameFateKeeps(db.concerns, db.assignments, db.advices, db.notices, id, row);
      if NothingNew(a.body, data) {
        SameTextKeeps(db.advices, db.history, id, row);
      } else {
        NextVersionKeeps(db.advices, db.history, id, row);
      }
    }
  }

  lemma DeleteAdviceKeeps(db: Db, id: Id, actor: Id)
    requires Sound(db)
    ensures Sound(DeleteAdviceSpec(db, id, actor).db)
  {
    var after := DeleteAdviceSpec(db, id, actor).db;
    if after != db {
      var row := after.advices[id];
      assert Coherent(row);
      hide Backed, Gapless, Revised, Rooted, AdviceSlots, NoticesExact, FeedbackEarned, StatusAgrees, AssignmentSlots, Decisions;
      CoherentKeeps(db.advices, id, row);
      RewriteKeeps(db.concerns, db.assignments, db.advices, db.feedbacks, id, row);
      SameFateKeeps(db.concerns, db.assignments, db.advices, db.notices, id, row);
      SameTextKeeps(db.advices, db.history, id, row);
    }
  }

  // --- deciding an advice ---

  lemma NoticeOfDecision(concerns: Concerns, assignments: Assignments, advices: Advices, notices: multiset<Notice>,
                         a: Id, row: Advice, n: Notice)
    requires a in advices && advices[a].reviewedBy.None? && advices[a].status != Approved
    requires row.concern == advices[a].concern && row.advisor == advices[a].advisor && row.reviewedBy.Some?
    requires row.concern in concerns
    requires n == if row.status == Approved
                  then AdviceApproved(concerns[row.concern].author, a, row.concern, row.reviewedBy.value)
                  else AdviceRejected(row.advisor, a, row.concern, row.reviewedBy.value, row.rejectReason)
    requires NoticesExact(concerns, assignments, advices, notices)
    ensures NoticesExact(concerns, assignments, advices[a := row], notices + multiset{n})
  {
    forall m: Notice
      ensures (notices + multiset{n})[m] == if Due(concerns, assignments, advices[a := row], m) then 1 else 0
    {
      assert !Due(concerns, assignments, advices, n);
      assert Due(concerns, assignments, advices[a := row], n);
      if m != n {
        assert Due(concerns, assignments, advices[a := row], m) == Due(concerns, assignments, advices, m);
      }
    }
  }

  /** Moving a concern to ANSWERED; `approved` already contains the approval. */
  lemma AnswerKeeps(concerns: Concerns, assignments: Assignments, approved: Advices, feedbacks: Feedbacks,
                    notices: multiset<Notice>, c: Id)
    requires c in concerns && HasApproved(approved, c)
    requires StatusAgrees(concerns, assignments) && Backed(concerns, approved)
    requires Rooted(concerns, assignments, approved) && FeedbackEarned(concerns, approved, feedbacks)
    requires NoticesExact(concerns, assignments, approved, notices)
    ensures var answered := concerns[c := concerns[c].(status := Answered)];
            && StatusAgrees(answered, assignments) && Backed(answered, approved)
            && Rooted(answered, assignments, approved) && FeedbackEarned(answered, approved, feedbacks)
            && NoticesExact(answered, assignments, approved, notices)
  {
    SameAuthorsKeep(concerns, concerns[c := concerns[c].(status := Answered)], assignments, approved, feedbacks, notices);
  }

  /** Everything but StatusAgrees and Backed reads only the keys and authors of the concern table. */
  predicate SameAuthors(before: Concerns, after: Concerns) {
    && before.Keys == after.Keys
    && forall c :: c in before ==> before[c].author == after[c].author
  }

  lemma SameAuthorsKeep(before: Concerns, after: Concerns, assignments: Assignments, advices: Advices,
                        feedbacks: Feedbacks, notices: multiset<Notice>)
    requires SameAuthors(before, after)
    requires Rooted(before, assignments, advices) && FeedbackEarned(before, advices, feedbacks)
    requires NoticesExact(before, assignments, advices, notices)
    ensures Rooted(after, assignments, advices) && FeedbackEarned(after, advices, feedbacks)
    ensures NoticesExact(after, assignments, advices, notices)
  {
    assert forall c :: c in after <==> c in before;
    forall n: Notice
      ensures Due(after, assignments, advices, n) == Due(before, assignments, advices, n)
    {}
  }

  lemma DecidedIsCoherent(a: Advice, actor: Id, decision: Decision, reason: string, now: nat, expected: nat)
    requires Coherent(a) && ReviewError(a, decision, reason, expected).None?
    ensures a.reviewedBy.None? && a.status == Pending
    ensures Coherent(Decided(a, actor, decision, reason, now))
  {}

  lemma ApprovedIsThere(advices: Advices, a: Id)
    requires a in advices && advices[a].status == Approved
    ensures HasApproved(advices, advices[a].concern)
  {}

  lemma ReviewAdviceKeeps(db: Db, id: Id, actor: Id, decision: Decision, reason: string, expected: nat, now: nat)
    requires Sound(db)
    ensures Sound(ReviewAdviceSpec(db, id, actor, decision, reason, expected, now).db)
  {
    var after := ReviewAdviceSpec(db, id, actor, decision, reason, expected, now).db;
    if after != db {
      hide Backed, Gapless, Revised, Rooted, AdviceSlots, NoticesExact, FeedbackEarned, StatusAgrees, AssignmentSlots;
      hide HasApproved;
      var a, row := db.advices[id], after.advices[id];
      DecidedIsCoherent(a, actor, decision, reason, now, expected);
      hide Decisions;
      if decision == Approve { ApprovedIsThere(after.advices, id); }
      CoherentKeeps(db.advices, id, row);
      RewriteKeeps(db.concerns, db.assignments, db.advices, db.feedbacks, id, row);
      SameTextKeeps(db.advices, db.history, id, row);
      var n := if decision == Approve then AdviceApproved(db.concerns[a.concern].author, id, a.concern, actor)
               else AdviceRejected(a.advisor, id, a.concern, actor, reason);
      NoticeOfDecision(db.concerns, db.assignments, db.advices, db.notices, id, row, n);
      if after.concerns != db.concerns {
        AnswerKeeps(db.concerns, db.assignments, after.advices, db.feedbacks, after.notices, a.concern);
      }
    }
  }

  // --- assigning and unassigning ---

  lemma StatusKeepsAuthors(concerns: Concerns, c: Id, row: Concern)
    requires c in concerns && row.author == concerns[c].author
    ensures SameAuthors(concerns, concerns[c := row])
  {}

  lemma AssignmentAdded(concerns: Concerns, assignments: Assignments, advices: Advices, notices: multiset<Notice>,
                        i: Id, row: Assignment)
    requires i !in assignments && row.concern in concerns && row.isActive && row.deactivatedAt.None?
    requires !AssignmentSlotTaken(assignments, row.concern, row.advisor)
    requires Rooted(concerns, assignments, advices) && AssignmentSlots(assignments)
    requires NoticesExact(concerns, assignments, advices, notices)
    ensures Rooted(concerns, assignments[i := row], advices) && AssignmentSlots(assignments[i := row])
    ensures NoticesExact(concerns, assignments[i := row], advices,
                         notices + multiset{AssignmentCreated(row.advisor, row.concern, i, row.assignedBy)})
  {
    var later := assignments[i := row];
    var n := AssignmentCreated(row.advisor, row.concern, i, row.assignedBy);
    forall m: Notice
      ensures (notices + multiset{n})[m] == if Due(concerns, later, advices, m) then 1 else 0
    {
      assert !Due(concerns, assignments, advices, n) && Due(concerns, later, advices, n);
      if m != n {
        assert Due(concerns, later, advices, m) == Due(concerns, assignments, advices, m);
      }
    }
    forall a | a in advices
      ensures EverAssignedTo(later, advices[a].concern, advices[a].advisor)
    {
      var k :| k in assignments && assignments[k].concern == advices[a].concern && assignments[k].advisor == advices[a].advisor;
      assert later[k] == assignments[k];
    }
    forall k | k in assignments && assignments[k].isActive
      ensures assignments[k].concern != row.concern || assignments[k].advisor != row.advisor
    {
      assert !ActiveFor(assignments[k], row.concern, row.advisor);
    }
  }

  lemma AssignmentAddedStatus(concerns: Concerns, assignments: Assignments, i: Id, row: Assignment)
    requires i !in assignments && row.concern in concerns && row.isActive
    requires StatusAgrees(concerns, assignments)
    ensures var c := concerns[row.concern];
            StatusAgrees(if c.status == ConcernStatus.Submitted
                         then concerns[row.concern := c.(status := Assigned)] else concerns, assignments[i := row])
  {
    var later := assignments[i := row];
    assert later[i].concern == row.concern && later[i].isActive;
    forall c | c in concerns && c != row.concern
      ensures HasActive(later, c) == HasActive(assignments, c)
    {
      if HasActive(assignments, c) {
        var k :| k in assignments && assignments[k].concern == c && assignments[k].isActive;
        assert later[k] == assignments[k];
      }
    }
  }

  lemma BackedByStatus(concerns: Concerns, advices: Advices, c: Id, row: Concern)
    requires c in concerns && Backed(concerns, advices)
    requires Settled(row.status) ==> Settled(concerns[c].status)
    ensures Backed(concerns[c := row], advices)
  {}

  lemma AssignAdvisorKeeps(db: Db, concern: Id, actor: Id, advisor: Id, triage: Triage, newId: Id, now: nat)
    requires Sound(db)
    ensures Sound(AssignAdvisorSpec(db, concern, actor, advisor, triage, newId, now).db)
  {
    var after := AssignAdvisorSpec(db, concern, actor, advisor, triage, newId, now).db;
    if after != db {
      var row := after.assignments[newId];
      hide Backed, Gapless, Revised, Rooted, AdviceSlots, NoticesExact, FeedbackEarned, StatusAgrees, AssignmentSlots, Decisions;
      hide HasActive, AssignmentSlotTaken, SameAuthors;
      AssignmentAdded(db.concerns, db.assignments, db.advices, db.notices, newId, row);
      AssignmentAddedStatus(db.concerns, db.assignments, newId, row);
      StatusKeepsAuthors(db.concerns, concern, after.concerns[concern]);
      SameAuthorsKeep(db.concerns, db.concerns[concern := after.concerns[concern]], after.assignments, db.advices, db.feedbacks,
                      after.notices);
      BackedByStatus(db.concerns, db.advices, concern, after.concerns[concern]);
    }
  }

  lemma AssignmentEnded(concerns: Concerns, assignments: Assignments, advices: Advices, notices: multiset<Notice>,
                        i: Id, now: nat)
    requires i in assignments && assignments[i].isActive
    requires Rooted(concerns, assignments, advices) && AssignmentSlots(assignments)
    requires NoticesExact(concerns, assignments, advices, notices)
    ensures var later := assignments[i := assignments[i].(isActive := false, deactivatedAt := Some(now))];
            && Rooted(concerns, later, advices) && AssignmentSlots(later)
            && NoticesExact(concerns, later, advices, notices)
  {
    var later := assignments[i := assignments[i].(isActive := false, deactivatedAt := Some(now))];
    forall n: Notice
      ensures Due(concerns, later, advices, n) == Due(concerns, assignments, advices, n)
    {}
    forall a | a in advices
      ensures EverAssignedTo(later, advices[a].concern, advices[a].advisor)
    {
      var k :| k in assignments && assignments[k].concern == advices[a].concern && assignments[k].advisor == advices[a].advisor;
      assert later[k].concern == assignments[k].concern && later[k].advisor == assignments[k].advisor;
    }
  }

  lemma AssignmentEndedStatus(concerns: Concerns, assignments: Assignments, i: Id, now: nat)
    requires i in assignments && assignments[i].isActive && assignments[i].concern in concerns
    requires StatusAgrees(concerns, assignments)
    ensures var later := assignments[i := assignments[i].(isActive := false, deactivatedAt := Some(now))];
            var id := assignments[i].concern;
            var c := concerns[id];
            StatusAgrees(if !HasActive(later, id) && c.status == Assigned
                         then concerns[id := c.(status := ConcernStatus.Submitted)] else concerns, later)
  {
    var later := assignments[i := assignments[i].(isActive := false, deactivatedAt := Some(now))];
    forall c | c in concerns && c != assignments[i].concern
      ensures HasActive(later, c) == HasActive(assignments, c)
    {
      if HasActive(assignments, c) {
        var k :| k in assignments && assignments[k].concern == c && assignments[k].isActive;
        assert later[k] == assignments[k];
      }
    }
  }

  lemma UnassignAdvisorKeeps(db: Db, concern: Id, assignment: Id, now: nat)
    requires Sound(db)
    ensures Sound(UnassignAdvisorSpec(db, concern, assignment, now).db)
  {
    var after := UnassignAdvisorSpec(db, concern, assignment, now).db;
    if after != db {
      hide Backed, Gapless, Revised, Rooted, AdviceSlots, NoticesExact, FeedbackEarned, StatusAgrees, AssignmentSlots, Decisions;
      hide HasActive, SameAuthors;
      AssignmentEnded(db.concerns, db.assignments, db.advices, db.notices, assignment, now);
      AssignmentEndedStatus(db.concerns, db.assignments, assignment, now);
      StatusKeepsAuthors(db.concerns, concern, after.concerns[concern]);
      SameAuthorsKeep(db.concerns, db.concerns[concern := after.concerns[concern]], after.assignments, db.advices, db.feedbacks,
                      db.notices);
      BackedByStatus(db.concerns, db.advices, concern, after.concerns[concern]);
    }
  }

  // --- changes of a concern row alone ---

  /** Any rewrite of one concern that keeps its author and moves its status at most from ANSWERED to CLOSED. */
  lemma ConcernKeeps(db: Db, c: Id, row: Concern)
    requires Sound(db) && c in db.concerns && row.author == db.concerns[c].author
    requires row.status == db.concerns[c].status || (db.concerns[c].status == Answered && row.status == Closed)
    ensures Sound(db.(concerns := db.concerns[c := row]))
  {
    assert StatusAgrees(db.concerns[c := row], db.assignments);
    hide Backed, Gapless, Revised, Rooted, AdviceSlots, NoticesExact, FeedbackEarned, StatusAgrees, AssignmentSlots, Decisions;
    BackedByStatus(db.concerns, db.advices, c, row);
    StatusKeepsAuthors(db.concerns, c, row);
    SameAuthorsKeep(db.concerns, db.concerns[c := row], db.assignments, db.advices, db.feedbacks, db.notices);
  }

  lemma UpdateConcernKeeps(db: Db, user: Id, concern: Id, text: ConcernText)
    requires Sound(db)
    ensures Sound(UpdateConcernSpec(db, user, concern, text).db)
  {
    var after := UpdateConcernSpec(db, user, concern, text).db;
    hide Sound;
    if after != db {
      ConcernKeeps(db, concern, after.concerns[concern]);
    }
  }

  // --- statements outside a transaction ---

  lemma InsertConcernNotices(concerns: Concerns, assignments: Assignments, advices: Advices, feedbacks: Feedbacks,
                             notices: multiset<Notice>, c: Id, row: Concern)
    requires c !in concerns && Rooted(concerns, assignments, advices)
    requires NoticesExact(concerns, assignments, advices, notices) && FeedbackEarned(concerns, advices, feedbacks)
    ensures Rooted(concerns[c := row], assignments, advices)
    ensures NoticesExact(concerns[c := row], assignments, advices, notices)
    ensures FeedbackEarned(concerns[c := row], advices, feedbacks)
  {
    forall n: Notice
      ensures Due(concerns[c := row], assignments, advices, n) == Due(concerns, assignments, advices, n)
    {}
  }

  lemma InsertConcernStatus(concerns: Concerns, assignments: Assignments, advices: Advices, c: Id, row: Concern)
    requires c !in concerns && row.status == ConcernStatus.Submitted && Rooted(concerns, assignments, advices)
    requires StatusAgrees(concerns, assignments) && Backed(concerns, advices)
    ensures StatusAgrees(concerns[c := row], assignments) && Backed(concerns[c := row], advices)
  {
    assert !HasActive(assignments, c);
  }

  lemma InsertConcernKeeps(db: Db, c: Id, row: Concern)
    requires Sound(db) && Admissible(db, InsertConcern(c, row))
    ensures Sound(Apply(db, InsertConcern(c, row)))
  {
    hide Backed, Gapless, Revised, Rooted, AdviceSlots, NoticesExact, FeedbackEarned, StatusAgrees, AssignmentSlots, Decisions;
    InsertConcernNotices(db.concerns, db.assignments, db.advices, db.feedbacks, db.notices, c, row);
    InsertConcernStatus(db.concerns, db.assignments, db.advices, c, row);
  }

  lemma InsertAdviceKeeps(db: Db, a: Id, row: Advice)
    requires Sound(db) && Admissible(db, InsertAdvice(a, row))
    ensures Sound(Apply(db, InsertAdvice(a, row)))
  {
    hide Backed, Gapless, Revised, Rooted, AdviceSlots, NoticesExact, FeedbackEarned, StatusAgrees, AssignmentSlots, Decisions;
    hide AdviceSlotTaken, EverAssignedTo;
    CoherentKeeps(db.advices, a, row);
    InsertAdviceTexts(db.advices, db.history, a, row);
    InsertAdviceNotices(db.concerns, db.assignments, db.advices, db.notices, a, row);
    InsertAdviceBacked(db.concerns, db.advices, a, row);
    InsertAdviceSlots(db.advices, a, row);
    InsertAdviceRooted(db.concerns, db.assignments, db.advices, db.feedbacks, a, row);
  }

  lemma InsertAdviceRooted(concerns: Concerns, assignments: Assignments, advices: Advices, feedbacks: Feedbacks, a: Id,
                           row: Advice)
    requires Rooted(concerns, assignments, advices) && FeedbackEarned(concerns, advices, feedbacks)
    requires a !in advices && row.concern in concerns && EverAssignedTo(assignments, row.concern, row.advisor)
    ensures Rooted(concerns, assignments, advices[a := row]) && FeedbackEarned(concerns, advices[a := row], feedbacks)
  {}

  lemma InsertAdviceSlots(advices: Advices, a: Id, row: Advice)
    requires AdviceSlots(advices) && a !in advices && !AdviceSlotTaken(advices, row.concern, row.advisor)
    ensures AdviceSlots(advices[a := row])
  {
    forall k | k in advices && advices[k].status != Deleted
      ensures advices[k].concern != row.concern || advices[k].advisor != row.advisor
    {
      assert !LiveFor(advices[k], row.concern, row.advisor);
    }
  }

  lemma InsertAdviceBacked(concerns: Concerns, advices: Advices, a: Id, row: Advice)
    requires Backed(concerns, advices) && a !in advices
    ensures Backed(concerns, advices[a := row])
  {
    forall c | c in concerns && Settled(concerns[c].status)
      ensures HasApproved(advices[a := row], c)
    {
      var i :| i in advices && advices[i].concern == c && advices[i].status == Approved;
      assert advices[a := row][i] == advices[i];
    }
  }

  lemma InsertAdviceTexts(advices: Advices, history: History, a: Id, row: Advice)
    requires Gapless(advices, history) && Revised(advices, history) && a !in advices && row.version == 1
    ensures Gapless(advices[a := row], history) && Revised(advices[a := row], history)
  {
    var later := advices[a := row];
    forall b, v: nat {:trigger Differs(later, history, b, v)} | b in later && 1 <= v < later[b].version
      ensures Differs(later, history, b, v)
    {
      assert Differs(advices, history, b, v);
    }
  }

  lemma InsertAdviceNotices(concerns: Concerns, assignments: Assignments, advices: Advices, notices: multiset<Notice>,
                            a: Id, row: Advice)
    requires NoticesExact(concerns, assignments, advices, notices)
    requires a !in advices && row.reviewedBy.None?
    ensures NoticesExact(concerns, assignments, advices[a := row], notices)
  {
    forall n: Notice
      ensures Due(concerns, assignments, advices[a := row], n) == Due(concerns, assignments, advices, n)
    {}
  }

  lemma FeedbackKeeps(db: Db, w: Write)
    requires Sound(db) && Admissible(db, w) && (w.InsertFeedback? || w.SetFeedback?)
    ensures Sound(Apply(db, w))
  {
    hide NoticesExact, Gapless, Revised, AdviceSlots, AssignmentSlots, Decisions, Backed, StatusAgrees, Rooted;
  }

  lemma StatementKeeps(db: Db, w: Write)
    requires Sound(db) && Admissible(db, w)
    ensures Sound(Apply(db, w))
  {
    match w
    case InsertConcern(c, row) => InsertConcernKeeps(db, c, row);
    case SetDeletedAt(c, at) => ConcernKeeps(db, c, db.concerns[c].(deletedAt := at));
    case SetConcernStatus(c, s) => ConcernKeeps(db, c, db.concerns[c].(status := s));
    case InsertAdvice(a, row) => InsertAdviceKeeps(db, a, row);
    case InsertFeedback(_, _) => FeedbackKeeps(db, w);
    case SetFeedback(_, _, _, _) => FeedbackKeeps(db, w);
  }

  lemma CallKeeps(db: Db, call: Call)
    requires Sound(db)
    ensures Sound(Exec(db, call).db)
  {
    hide Sound;
    match call
    case UpdateAdvice(id, actor, data, submit) => UpdateAdviceKeeps(db, id, actor, data, submit);
    case DeleteAdvice(id, actor) => DeleteAdviceKeeps(db, id, actor);
    case ReviewAdvice(id, actor, decision, reason, expected, now) =>
      ReviewAdviceKeeps(db, id, actor, decision, reason, expected, now);
    case AssignAdvisor(concern, actor, advisor, triage, newId, now) =>
      AssignAdvisorKeeps(db, concern, actor, advisor, triage, newId, now);
    case UnassignAdvisor(concern, assignment, now) => UnassignAdvisorKeeps(db, concern, assignment, now);
    case UpdateConcern(user, concern, text) => UpdateConcernKeeps(db, user, concern, text);
  }

  /** Every relation between the tables survives every event, whatever ran unlocked before it. */
  lemma EventKeeps(db: Db, e: Event)
    requires Sound(db) && Happens(db, e)
    ensures Sound(Effect(db, e))
  {
    match e
    case Called(call, _) => CallKeeps(db, call);
    case Stated(w) => StatementKeeps(db, w);
  }

  lemma {:induction false} LogKeeps(db: Db, log: seq<Event>)
    requires Sound(db) && Faithful(db, log)
    ensures Sound(Replay(db, log))
    decreases |log|
  {
    hide Sound;
    if log != [] {
      LogKeeps(db, log[..|log| - 1]);
      EventKeeps(Replay(db, log[..|log| - 1]), log[|log| - 1]);
    }
  }
}
