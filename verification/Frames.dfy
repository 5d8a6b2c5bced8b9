/** What a transaction depends on, and what it changes: the rows it has locked and no others. */
module Frames {
  import opened Common
  import opened Tables
  import opened Services
  import opened Statements
  import opened Transactions
  import opened Alone

  /** Two databases give a lock's holder the same row, and the same dependent rows. */
  ghost predicate Agrees(db: Db, other: Db, l: Lock) {
    match l
    case AdviceRow(a) => SameAdvice(db.advices, other.advices, a) && SameHistory(db.history, other.history, a)
    case ConcernRow(c) => SameConcern(db.concerns, other.concerns, c) && SameQueue(db.assignments, other.assignments, c)
  }

  predicate SameAdvice(advices: Advices, others: Advices, a: Id) {
    (a in advices <==> a in others) && (a in advices ==> advices[a] == others[a])
  }

  ghost predicate SameHistory(history: History, other: History, a: Id) {
    forall v: nat :: (a, v) in history <==> (a, v) in other
  }

  predicate SameConcern(concerns: Concerns, others: Concerns, c: Id) {
    (c in concerns <==> c in others) && (c in concerns ==> concerns[c] == others[c])
  }

  predicate On(assignments: Assignments, i: Id, c: Id) { i in assignments && assignments[i].concern == c }

  /** The assignment rows of one concern; only the holder of the concern row changes them. */
  ghost predicate SameQueue(assignments: Assignments, others: Assignments, c: Id) {
    forall i :: On(assignments, i, c) || On(others, i, c) ==>
      On(assignments, i, c) && On(others, i, c) && assignments[i] == others[i]
  }

  lemma SameQueueSameAnswers(assignments: Assignments, others: Assignments, c: Id, advisor: Id)
    requires SameQueue(assignments, others, c)
    ensures EverAssigned(assignments, c) == EverAssigned(others, c)
    ensures HasActive(assignments, c) == HasActive(others, c)
    ensures AssignmentSlotTaken(assignments, c, advisor) == AssignmentSlotTaken(others, c, advisor)
  {
    Answers(assignments, others, c, advisor);
    Answers(others, assignments, c, advisor);
  }

  lemma Answers(assignments: Assignments, others: Assignments, c: Id, advisor: Id)
    requires SameQueue(assignments, others, c)
    ensures EverAssigned(assignments, c) ==> EverAssigned(others, c)
    ensures HasActive(assignments, c) ==> HasActive(others, c)
    ensures AssignmentSlotTaken(assignments, c, advisor) ==> AssignmentSlotTaken(others, c, advisor)
  {
    if EverAssigned(assignments, c) {
      var i :| i in assignments && assignments[i].concern == c;
      assert On(assignments, i, c);
    }
    if HasActive(assignments, c) {
      var i :| i in assignments && assignments[i].concern == c && assignments[i].isActive;
      assert On(assignments, i, c);
    }
    if AssignmentSlotTaken(assignments, c, advisor) {
      var i :| i in assignments && ActiveFor(assignments[i], c, advisor);
      assert On(assignments, i, c);
    }
  }

  /** The key an assignment will be inserted under is still free. */
  predicate KeyFree(db: Db, call: Call) {
    call.AssignAdvisor? ==> call.newId !in db.assignments
  }

  /** A statement that succeeds here succeeds the same way wherever its rows are the same. */
  lemma NextFrame(db: Db, other: Db, t: Txn, u: Txn)
    requires Loaded(t) && Next(db, t) == Go(u)
    requires forall l :: l in Held(u) ==> Agrees(db, other, l)
    requires db.advisors == other.advisors && KeyFree(db, t.call) && KeyFree(other, t.call)
    ensures Next(other, t) == Go(u)
  {
    match t.call
    case UpdateAdvice(a, _, _, _) =>
      assert Agrees(db, other, AdviceRow(a));
    case DeleteAdvice(a, _) =>
      assert Agrees(db, other, AdviceRow(a));
    case ReviewAdvice(a, _, _, _, _, _) =>
      assert Agrees(db, other, AdviceRow(a));
      if t.pc >= 1 { assert Agrees(db, other, ConcernRow(t.advice.value.concern)); }
    case AssignAdvisor(c, _, advisor, _, _, _) =>
      if t.pc >= 1 {
        assert Agrees(db, other, ConcernRow(c));
        SameQueueSameAnswers(db.assignments, other.assignments, c, advisor);
      }
    case UnassignAdvisor(c, i, now) =>
      assert Agrees(db, other, ConcernRow(c));
      UnassignFrame(db, other, t, u);
    case UpdateConcern(_, c, _) =>
      assert Agrees(db, other, ConcernRow(c));
      SameQueueSameAnswers(db.assignments, other.assignments, c, 0);
  }

  lemma UnassignFrame(db: Db, other: Db, t: Txn, u: Txn)
    requires Loaded(t) && t.call.UnassignAdvisor? && Next(db, t) == Go(u)
    requires SameConcern(db.concerns, other.concerns, t.call.concern)
    requires SameQueue(db.assignments, other.assignments, t.call.concern)
    ensures Next(other, t) == Go(u)
  {
    var c, i, now := t.call.concern, t.call.assignment, t.call.now;
    hide ApplyAll, HasActive;
    assert On(db.assignments, i, c) == On(other.assignments, i, c);
    if t.pc == 3 { EndingFrame(db, other, c, i, now); }
  }

  function Ended(assignments: Assignments, i: Id, now: nat): Assignments {
    if i in assignments then assignments[i := assignments[i].(isActive := false, deactivatedAt := Some(now))] else assignments
  }

  lemma EndedQueue(assignments: Assignments, others: Assignments, c: Id, i: Id, now: nat)
    requires SameQueue(assignments, others, c)
    ensures SameQueue(Ended(assignments, i, now), Ended(others, i, now), c)
  {
    var here, there := Ended(assignments, i, now), Ended(others, i, now);
    forall j | On(here, j, c) || On(there, j, c)
      ensures On(here, j, c) && On(there, j, c) && here[j] == there[j]
    {
      assert On(assignments, j, c) || On(others, j, c);
    }
  }

  lemma EndingFrame(db: Db, other: Db, c: Id, i: Id, now: nat)
    requires SameQueue(db.assignments, other.assignments, c)
    ensures HasActive(ApplyAll(db, [EndAssignment(i, now)]).assignments, c) ==
            HasActive(ApplyAll(other, [EndAssignment(i, now)]).assignments, c)
  {
    ApplyTwo(db, EndAssignment(i, now), EndAssignment(i, now));
    ApplyTwo(other, EndAssignment(i, now), EndAssignment(i, now));
    hide HasActive, SameQueue, ApplyAll;
    EndedQueue(db.assignments, other.assignments, c, i, now);
    SameQueueSameAnswers(Ended(db.assignments, i, now), Ended(other.assignments, i, now), c, 0);
  }

  /** What a transaction has done so far does not depend on the rest of the database. */
  lemma {:induction false} SoloFrame(db: Db, other: Db, call: Call, k: nat, t: Txn)
    requires Solo(db, call, k) == Some(t)
    requires forall l :: l in Held(t) ==> Agrees(db, other, l)
    requires db.advisors == other.advisors && KeyFree(db, call) && KeyFree(other, call)
    ensures Solo(other, call, k) == Some(t)
  {
    if k > 0 {
      Unroll(db, call, k, t);
      var before := Solo(db, call, k - 1).value;
      SoloFrame(db, other, call, k - 1, before);
      NextFrame(db, other, before, t);
    }
  }

  /** The rows a call locks on its way to a commit. */
  function Touches(db: Db, call: Call): set<Lock> {
    match call
    case UpdateAdvice(a, _, _, _) => {AdviceRow(a)}
    case DeleteAdvice(a, _) => {AdviceRow(a)}
    case ReviewAdvice(a, _, _, _, _, _) =>
      {AdviceRow(a)} + if a in db.advices then {ConcernRow(db.advices[a].concern)} else {}
    case AssignAdvisor(c, _, _, _, _, _) => {ConcernRow(c)}
    case UnassignAdvisor(c, _, _) => {ConcernRow(c)}
    case UpdateConcern(_, c, _) => {ConcernRow(c)}
  }

  lemma AdviceCallWrites(db: Db, call: Call)
    requires call.UpdateAdvice? || call.DeleteAdvice?
    ensures var after := Exec(db, call).db;
            && after.assignments == db.assignments && after.concerns == db.concerns && after.advisors == db.advisors
            && (forall a :: a != call.advice ==>
                  SameAdvice(db.advices, after.advices, a) && SameHistory(db.history, after.history, a))
  {
    hide NothingNew, Edited, ReviewAdviceSpec, AssignAdvisorSpec, UnassignAdvisorSpec, UpdateConcernSpec;
  }

  lemma AdviceCallTouches(db: Db, call: Call, l: Lock)
    requires call.UpdateAdvice? || call.DeleteAdvice?
    requires l !in Touches(db, call)
    ensures Agrees(db, Exec(db, call).db, l) && Exec(db, call).db.advisors == db.advisors
  {
    hide Exec;
    AdviceCallWrites(db, call);
    assert l != AdviceRow(call.advice);
  }

  lemma ReviewWritesOneAdvice(db: Db, call: Call)
    requires call.ReviewAdvice?
    ensures var after := Exec(db, call).db;
            && after.assignments == db.assignments && after.history == db.history && after.advisors == db.advisors
            && (forall a :: a != call.advice ==> SameAdvice(db.advices, after.advices, a))
  {
    hide ReviewError, Decided, UpdateAdviceSpec, DeleteAdviceSpec, AssignAdvisorSpec, UnassignAdvisorSpec, UpdateConcernSpec;
  }

  lemma ReviewWritesOneConcern(db: Db, call: Call)
    requires call.ReviewAdvice?
    ensures forall c :: ConcernRow(c) !in Touches(db, call) ==> SameConcern(db.concerns, Exec(db, call).db.concerns, c)
  {
    hide ReviewError, Decided, UpdateAdviceSpec, DeleteAdviceSpec, AssignAdvisorSpec, UnassignAdvisorSpec, UpdateConcernSpec;
  }

  lemma ReviewTouches(db: Db, call: Call, l: Lock)
    requires call.ReviewAdvice? && l !in Touches(db, call)
    ensures Agrees(db, Exec(db, call).db, l) && Exec(db, call).db.advisors == db.advisors
  {
    hide Exec;
    ReviewWritesOneAdvice(db, call);
    ReviewWritesOneConcern(db, call);
    assert l != AdviceRow(call.advice);
  }

  lemma ConcernCallWrites(db: Db, call: Call)
    requires call.AssignAdvisor? || call.UnassignAdvisor? || call.UpdateConcern?
    requires KeyFree(db, call)
    ensures var after := Exec(db, call).db;
            && after.advices == db.advices && after.history == db.history && after.advisors == db.advisors
            && (forall c :: c != call.concern ==> SameConcern(db.concerns, after.concerns, c))
            && (forall i, c :: c != call.concern && (On(db.assignments, i, c) || On(after.assignments, i, c)) ==>
                  On(db.assignments, i, c) && On(after.assignments, i, c) && db.assignments[i] == after.assignments[i])
  {
    hide EverAssigned, HasActive, AssignmentSlotTaken, UpdateAdviceSpec, DeleteAdviceSpec, ReviewAdviceSpec;
  }

  lemma ConcernCallTouches(db: Db, call: Call, l: Lock)
    requires call.AssignAdvisor? || call.UnassignAdvisor? || call.UpdateConcern?
    requires l !in Touches(db, call) && KeyFree(db, call)
    ensures Agrees(db, Exec(db, call).db, l) && Exec(db, call).db.advisors == db.advisors
  {
    hide Exec, On;
    ConcernCallWrites(db, call);
    assert l != ConcernRow(call.concern);
  }

  /** A call leaves alone every row it does not lock. */
  lemma ExecTouches(db: Db, call: Call, l: Lock)
    requires l !in Touches(db, call) && KeyFree(db, call)
    ensures Agrees(db, Exec(db, call).db, l) && Exec(db, call).db.advisors == db.advisors
  {
    hide Exec, Agrees, Touches;
    match call
    case UpdateAdvice(_, _, _, _) => AdviceCallTouches(db, call, l);
    case DeleteAdvice(_, _) => AdviceCallTouches(db, call, l);
    case ReviewAdvice(_, _, _, _, _, _) => ReviewTouches(db, call, l);
    case AssignAdvisor(_, _, _, _, _, _) => ConcernCallTouches(db, call, l);
    case UnassignAdvisor(_, _, _) => ConcernCallTouches(db, call, l);
    case UpdateConcern(_, _, _) => ConcernCallTouches(db, call, l);
  }

  lemma CommitHoldsAll(db: Db, call: Call, k: nat, t: Txn)
    requires Solo(db, call, k) == Some(t) && Next(db, t) == Commit
    ensures Held(t) == Touches(db, call)
  {
    match call
    case UpdateAdvice(_, _, _, _) => UpdateAdviceSteps(db, call, k, t);
    case DeleteAdvice(_, _) => DeleteAdviceSteps(db, call, k, t);
    case ReviewAdvice(_, _, _, _, _, _) => ReviewAdviceSteps(db, call, k, t);
    case AssignAdvisor(_, _, _, _, _, _) => AssignAdvisorSteps(db, call, k, t);
    case UnassignAdvisor(_, _, _) => UnassignAdvisorSteps(db, call, k, t);
    case UpdateConcern(_, _, _) => UpdateConcernSteps(db, call, k, t);
  }
}
