/** How a later database relates to an earlier one of the same run. */
module Evolution {
  import opened Common
  import opened Tables
  import opened Services
  import opened Statements

  /** Concerns stay, with their author; the text is frozen from the first assignment row on. */
  ghost predicate ConcernsEvolve(concerns: Concerns, assignments: Assignments, later: Concerns) {
    forall c :: c in concerns ==>
      && c in later && later[c].author == concerns[c].author
      && (EverAssigned(assignments, c) ==> later[c].text == concerns[c].text)
  }

  /** Assignment rows stay; the only change is to end, once. */
  ghost predicate AssignmentsEvolve(assignments: Assignments, later: Assignments) {
    forall i :: i in assignments ==>
      && i in later
      && later[i].(isActive := true, deactivatedAt := None) == assignments[i].(isActive := true, deactivatedAt := None)
      && (!assignments[i].isActive ==> later[i] == assignments[i])
  }

  predicate AdviceEvolves(a: Advice, later: Advice) {
    && later.concern == a.concern && later.advisor == a.advisor && later.createdAt == a.createdAt
    && a.version <= later.version
    && (later.version == a.version ==> later.body == a.body)
    && (!Editable(a.status) ==> later.(status := a.status) == a)
    && (a.status == Approved || a.status == Deleted ==> later == a)
    && (a.status == Rejected ==> later.status == Rejected || later.status == Deleted)
  }

  ghost predicate AdvicesEvolve(advices: Advices, later: Advices) {
    forall a :: a in advices ==> a in later && AdviceEvolves(advices[a], later[a])
  }

  /** Snapshots stay as written, and a version left behind is in one. */
  ghost predicate HistoryEvolves(advices: Advices, history: History, laterAdvices: Advices, later: History) {
    && (forall k :: k in history ==> k in later && later[k] == history[k])
    && (forall a :: a in advices && a in laterAdvices && advices[a].version < laterAdvices[a].version ==>
          (a, advices[a].version) in later && later[(a, advices[a].version)].body == advices[a].body)
  }

  ghost predicate FeedbacksEvolve(feedbacks: Feedbacks, later: Feedbacks) {
    forall f :: f in feedbacks ==>
      && f in later
      && later[f].advice == feedbacks[f].advice && later[f].author == feedbacks[f].author
      && later[f].score == feedbacks[f].score && later[f].content == feedbacks[f].content
  }

  ghost predicate Evolves(db: Db, later: Db) {
    && later.advisors == db.advisors
    && ConcernsEvolve(db.concerns, db.assignments, later.concerns)
    && AssignmentsEvolve(db.assignments, later.assignments)
    && AdvicesEvolve(db.advices, later.advices)
    && HistoryEvolves(db.advices, db.history, later.advices, later.history)
    && FeedbacksEvolve(db.feedbacks, later.feedbacks)
  }

  lemma EvolvesReflexive(db: Db)
    ensures Evolves(db, db)
  {}

  lemma EverAssignedStays(assignments: Assignments, later: Assignments, c: Id, advisor: Id)
    requires AssignmentsEvolve(assignments, later)
    ensures EverAssigned(assignments, c) ==> EverAssigned(later, c)
    ensures EverAssignedTo(assignments, c, advisor) ==> EverAssignedTo(later, c, advisor)
  {
    if EverAssigned(assignments, c) {
      var i :| i in assignments && assignments[i].concern == c;
      assert later[i].concern == c;
    }
    if EverAssignedTo(assignments, c, advisor) {
      var i :| i in assignments && assignments[i].concern == c && assignments[i].advisor == advisor;
      assert later[i].concern == c && later[i].advisor == advisor;
    }
  }

  lemma AssignmentsEvolveOn(a: Assignments, b: Assignments, c: Assignments)
    requires AssignmentsEvolve(a, b) && AssignmentsEvolve(b, c)
    ensures AssignmentsEvolve(a, c)
  {}

  lemma ConcernsEvolveOn(a: Concerns, aQueue: Assignments, b: Concerns, bQueue: Assignments, c: Concerns)
    requires ConcernsEvolve(a, aQueue, b) && ConcernsEvolve(b, bQueue, c) && AssignmentsEvolve(aQueue, bQueue)
    ensures ConcernsEvolve(a, aQueue, c)
  {
    forall i | i in a
      ensures EverAssigned(aQueue, i) ==> EverAssigned(bQueue, i)
    {
      EverAssignedStays(aQueue, bQueue, i, 0);
    }
  }

  lemma AdvicesEvolveOn(a: Advices, b: Advices, c: Advices)
    requires AdvicesEvolve(a, b) && AdvicesEvolve(b, c)
    ensures AdvicesEvolve(a, c)
  {}

  lemma HistoryEvolvesOn(a: Advices, aHistory: History, b: Advices, bHistory: History, c: Advices, cHistory: History)
    requires AdvicesEvolve(a, b) && AdvicesEvolve(b, c)
    requires HistoryEvolves(a, aHistory, b, bHistory) && HistoryEvolves(b, bHistory, c, cHistory)
    ensures HistoryEvolves(a, aHistory, c, cHistory)
  {
    forall i | i in a && i in c && a[i].version < c[i].version
      ensures (i, a[i].version) in cHistory && cHistory[(i, a[i].version)].body == a[i].body
    {
      assert AdviceEvolves(a[i], b[i]);
      if a[i].version < b[i].version {
        assert (i, a[i].version) in bHistory;
      }
    }
  }

  lemma EvolvesTransitive(a: Db, b: Db, c: Db)
    requires Evolves(a, b) && Evolves(b, c)
    ensures Evolves(a, c)
  {
    hide ConcernsEvolve, AssignmentsEvolve, AdvicesEvolve, HistoryEvolves;
    AssignmentsEvolveOn(a.assignments, b.assignments, c.assignments);
    ConcernsEvolveOn(a.concerns, a.assignments, b.concerns, b.assignments, c.concerns);
    AdvicesEvolveOn(a.advices, b.advices, c.advices);
    HistoryEvolvesOn(a.advices, a.history, b.advices, b.history, c.advices, c.history);
  }

  // --- one change at a time ---

  lemma AdviceRowEvolves(db: Db, a: Id, row: Advice)
    requires a in db.advices && AdviceEvolves(db.advices[a], row) && row.version == db.advices[a].version
    ensures Evolves(db, db.(advices := db.advices[a := row]))
  {}

  lemma RevisionEvolves(db: Db, a: Id, row: Advice, editor: Id)
    requires a in db.advices && AdviceEvolves(db.advices[a], row) && row.version == db.advices[a].version + 1
    requires (a, db.advices[a].version) !in db.history
    ensures Evolves(db, db.(advices := db.advices[a := row],
                            history := db.history[(a, db.advices[a].version) := Snapshot(db.advices[a].body, editor)]))
  {}

  lemma ConcernRowEvolves(db: Db, c: Id, row: Concern)
    requires c in db.concerns ==>
               row.author == db.concerns[c].author && (EverAssigned(db.assignments, c) ==> row.text == db.concerns[c].text)
    ensures Evolves(db, db.(concerns := db.concerns[c := row]))
  {}

  lemma AssignmentRowEvolves(db: Db, i: Id, row: Assignment)
    requires i in db.assignments ==>
               && db.assignments[i].isActive && !row.isActive
               && row.(isActive := true, deactivatedAt := None) == db.assignments[i].(isActive := true, deactivatedAt := None)
    ensures Evolves(db, db.(assignments := db.assignments[i := row]))
  {}

  lemma NoticesEvolve(db: Db, notices: multiset<Notice>)
    ensures Evolves(db, db.(notices := notices))
  {}

  lemma NewAdviceEvolves(db: Db, a: Id, row: Advice)
    requires a !in db.advices
    ensures Evolves(db, db.(advices := db.advices[a := row]))
  {}

  lemma FeedbackRowEvolves(db: Db, f: Id, row: Feedback)
    requires f in db.feedbacks ==>
               && row.advice == db.feedbacks[f].advice && row.author == db.feedbacks[f].author
               && row.score == db.feedbacks[f].score && row.content == db.feedbacks[f].content
    ensures Evolves(db, db.(feedbacks := db.feedbacks[f := row]))
  {}

  // --- one event ---

  lemma UpdateAdviceEvolves(db: Db, id: Id, actor: Id, data: Body, submit: Option<bool>)
    ensures Evolves(db, UpdateAdviceSpec(db, id, actor, data, submit).db)
  {
    var after := UpdateAdviceSpec(db, id, actor, data, submit).db;
    hide Evolves;
    EvolvesReflexive(db);
    if after != db {
      if NothingNew(db.advices[id].body, data) {
        AdviceRowEvolves(db, id, after.advices[id]);
      } else {
        hide NothingNew, Edited;
        RevisionEvolves(db, id, after.advices[id], actor);
      }
    }
  }

  lemma ReviewEvolves(db: Db, call: Call)
    requires call.ReviewAdvice?
    ensures Evolves(db, Exec(db, call).db)
  {
    var after := Exec(db, call).db;
    EvolvesReflexive(db);
    hide Evolves;
    if after != db {
      var a := db.advices[call.advice];
      DecisionEvolves(a, call.actor, call.decision, call.reason, call.now, call.expectedVersion);
      hide Decided, ReviewError, AdviceEvolves;
      var decided := db.(advices := after.advices);
      AdviceRowEvolves(db, call.advice, after.advices[call.advice]);
      var told := decided.(notices := after.notices);
      NoticesEvolve(decided, after.notices);
      EvolvesTransitive(db, decided, told);
      ConcernRowEvolves(told, a.concern, after.concerns[a.concern]);
      assert after == told.(concerns := told.concerns[a.concern := after.concerns[a.concern]]);
      EvolvesTransitive(db, told, after);
    }
  }

  lemma DecisionEvolves(a: Advice, actor: Id, decision: Decision, reason: string, now: nat, expected: nat)
    requires ReviewError(a, decision, reason, expected).None?
    ensures AdviceEvolves(a, Decided(a, actor, decision, reason, now))
    ensures Decided(a, actor, decision, reason, now).version == a.version
  {}

  lemma AssignEvolves(db: Db, call: Call)
    requires call.AssignAdvisor?
    ensures Evolves(db, Exec(db, call).db)
  {
    var after := Exec(db, call).db;
    EvolvesReflexive(db);
    hide Evolves, AssignmentSlotTaken;
    if after != db {
      var c := after.concerns[call.concern];
      var moved := db.(concerns := db.concerns[call.concern := c]);
      ConcernRowEvolves(db, call.concern, c);
      var added := moved.(assignments := after.assignments);
      AssignmentRowEvolves(moved, call.newId, after.assignments[call.newId]);
      EvolvesTransitive(db, moved, added);
      NoticesEvolve(added, after.notices);
      assert after == added.(notices := after.notices);
      EvolvesTransitive(db, added, after);
    }
  }

  lemma UnassignEvolves(db: Db, call: Call)
    requires call.UnassignAdvisor?
    ensures Evolves(db, Exec(db, call).db)
  {
    var after := Exec(db, call).db;
    EvolvesReflexive(db);
    hide Evolves, HasActive;
    if after != db {
      var c := after.concerns[call.concern];
      var moved := db.(concerns := db.concerns[call.concern := c]);
      ConcernRowEvolves(db, call.concern, c);
      AssignmentRowEvolves(moved, call.assignment, after.assignments[call.assignment]);
      assert after == moved.(assignments := moved.assignments[call.assignment := after.assignments[call.assignment]]);
      EvolvesTransitive(db, moved, after);
    }
  }

  lemma CallEvolves(db: Db, call: Call)
    ensures Evolves(db, Exec(db, call).db)
  {
    EvolvesReflexive(db);
    hide Evolves, EverAssigned;
    match call
    case UpdateAdvice(id, actor, data, submit) => UpdateAdviceEvolves(db, id, actor, data, submit);
    case DeleteAdvice(id, _) =>
      if Exec(db, call).db != db { AdviceRowEvolves(db, id, Exec(db, call).db.advices[id]); }
    case ReviewAdvice(_, _, _, _, _, _) => ReviewEvolves(db, call);
    case AssignAdvisor(_, _, _, _, _, _) => AssignEvolves(db, call);
    case UnassignAdvisor(_, _, _) => UnassignEvolves(db, call);
    case UpdateConcern(_, c, _) =>
      if Exec(db, call).db != db { ConcernRowEvolves(db, c, Exec(db, call).db.concerns[c]); }
  }

  lemma StatementEvolves(db: Db, w: Write)
    requires Admissible(db, w)
    ensures Evolves(db, Apply(db, w))
  {
    hide Evolves, AdviceSlotTaken, EverAssignedTo, HasFeedback;
    match w
    case InsertConcern(c, row) => ConcernRowEvolves(db, c, row);
    case SetDeletedAt(c, at) => ConcernRowEvolves(db, c, db.concerns[c].(deletedAt := at));
    case SetConcernStatus(c, s) => ConcernRowEvolves(db, c, db.concerns[c].(status := s));
    case InsertAdvice(a, row) => NewAdviceEvolves(db, a, row);
    case InsertFeedback(f, row) => FeedbackRowEvolves(db, f, row);
    case SetFeedback(f, _, _, _) => FeedbackRowEvolves(db, f, Apply(db, w).feedbacks[f]);
  }

  /** One event of a run, whatever it is, only ever moves the database forward. */
  lemma EventEvolves(db: Db, e: Event)
    requires Happens(db, e)
    ensures Evolves(db, Effect(db, e))
  {
    hide Evolves, Exec, Apply, Admissible;
    match e
    case Called(call, _) => CallEvolves(db, call);
    case Stated(w) => StatementEvolves(db, w);
  }

  // --- status edges ---

  predicate StatusEdge(before: ConcernStatus, after: ConcernStatus) {
    || (before == ConcernStatus.Submitted && after == Assigned)
    || (before == Assigned && after == ConcernStatus.Submitted)
    || (before == Assigned && after == Answered)
    || (before == Answered && after == Closed)
  }

  /** The only status edges taken between two states of the concern table; new concerns start as SUBMITTED. */
  predicate EdgesAt(concerns: Concerns, later: Concerns, c: Id) {
    c in later ==>
      if c in concerns then later[c].status == concerns[c].status || StatusEdge(concerns[c].status, later[c].status)
      else later[c].status == ConcernStatus.Submitted
  }

  lemma CallEdges(db: Db, call: Call, c: Id)
    ensures EdgesAt(db.concerns, Exec(db, call).db.concerns, c)
  {
    hide NothingNew, Edited, Decided, ReviewError, HasActive, AssignmentSlotTaken, EverAssigned;
    match call
    case UpdateAdvice(id, actor, data, submit) => assert Exec(db, call).db.concerns == db.concerns;
    case DeleteAdvice(_, _) => assert Exec(db, call).db.concerns == db.concerns;
    case ReviewAdvice(_, _, _, _, _, _) =>
    case AssignAdvisor(_, _, _, _, _, _) =>
    case UnassignAdvisor(_, _, _) =>
    case UpdateConcern(_, _, _) =>
  }

  lemma OnlyTheseEdges(db: Db, e: Event, c: Id)
    requires Happens(db, e)
    ensures EdgesAt(db.concerns, Effect(db, e).concerns, c)
  {
    hide Exec, EdgesAt, AdviceSlotTaken, EverAssignedTo, HasFeedback;
    match e
    case Called(call, _) => CallEdges(db, call, c);
    case Stated(w) => StatementEdges(db, w, c);
  }

  lemma StatementEdges(db: Db, w: Write, c: Id)
    requires Admissible(db, w)
    ensures EdgesAt(db.concerns, Apply(db, w).concerns, c)
  {
    hide AdviceSlotTaken, EverAssignedTo, HasFeedback;
  }
}
