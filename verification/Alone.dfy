/** A transaction that runs alone does what its service function does. */
module Alone {
  import opened Common
  import opened Tables
  import opened Services
  import opened Statements
  import opened Transactions

  /** How the statement after `t` ends the call, and the database it leaves. */
  ghost predicate EndsAs(db: Db, t: Txn, out: Outcome)
    requires Loaded(t)
  {
    match Next(db, t)
    case Go(_) => true
    case Raise(e) => out == Refuse(db, e)
    case Commit => out == Outcome(ApplyAll(db, t.writes), Accepted)
  }

  lemma Unroll(db: Db, call: Call, k: nat, t: Txn)
    requires k > 0 && Solo(db, call, k) == Some(t)
    ensures Solo(db, call, k - 1).Some? && Next(db, Solo(db, call, k - 1).value) == Go(t)
  {}

  // --- what each write does, one at a time ---

  lemma ApplyTwo(db: Db, w: Write, x: Write)
    ensures ApplyAll(db, []) == db
    ensures ApplyAll(db, [w]) == Apply(db, w)
    ensures ApplyAll(db, [w, x]) == Apply(Apply(db, w), x)
  {
    ApplyOneMore(db, [], w);
    ApplyOneMore(db, [w], x);
    assert [] + [w] == [w];
    assert [w] + [x] == [w, x];
  }

  lemma ApplyThree(db: Db, w: Write, x: Write, y: Write)
    ensures ApplyAll(db, [w, x, y]) == Apply(Apply(Apply(db, w), x), y)
  {
    ApplyTwo(db, w, x);
    ApplyOneMore(db, [w, x], y);
    assert [w, x] + [y] == [w, x, y];
  }

  lemma BodySet(db: Db, a: Id, body: Body, v: nat, s: bool)
    requires a in db.advices
    ensures Apply(db, SetAdviceBody(a, body, v, s)) ==
            db.(advices := db.advices[a := db.advices[a].(body := body, version := v, isSubmitted := s)])
  {}

  lemma HistoryInserted(db: Db, a: Id, v: nat, s: Snapshot)
    ensures Apply(db, InsertHistory(a, v, s)) == db.(history := db.history[(a, v) := s])
  {}

  lemma AdviceSaved(db: Db, a: Id, row: Advice)
    requires a in db.advices
    ensures Apply(db, SaveAdvice(a, row)) == db.(advices := db.advices[a := row])
  {}

  lemma StatusSet(db: Db, c: Id, s: ConcernStatus)
    requires c in db.concerns
    ensures Apply(db, SetConcernStatus(c, s)) == db.(concerns := db.concerns[c := db.concerns[c].(status := s)])
  {}

  lemma Notified(db: Db, n: Notice)
    ensures Apply(db, Notify(n)) == db.(notices := db.notices + multiset{n})
  {}

  lemma AssignmentInserted(db: Db, i: Id, row: Assignment)
    ensures Apply(db, InsertAssignment(i, row)) == db.(assignments := db.assignments[i := row])
  {}

  lemma AssignmentClosed(db: Db, i: Id, now: nat)
    requires i in db.assignments
    ensures ApplyAll(db, [EndAssignment(i, now)]) ==
            db.(assignments := db.assignments[i := db.assignments[i].(isActive := false, deactivatedAt := Some(now))])
  {
    ApplyTwo(db, EndAssignment(i, now), EndAssignment(i, now));
    hide ApplyAll;
  }

  // --- update_advice ---

  predicate MayEdit(db: Db, call: Call)
    requires call.UpdateAdvice?
  {
    && call.advice in db.advices
    && db.advices[call.advice].advisor == call.actor && Editable(db.advices[call.advice].status)
  }

  function UpdateAdviceAt(db: Db, call: Call, k: nat): Txn
    requires call.UpdateAdvice? && call.advice in db.advices
  {
    var a := db.advices[call.advice];
    var snap := InsertHistory(call.advice, a.version, Snapshot(a.body, call.actor));
    var submitted := if call.submit.Some? then call.submit.value else a.isSubmitted;
    if k == 1 then Txn(call, 1, Some(a), None, false, [])
    else if NothingNew(a.body, call.data) then
      Txn(call, k, Some(a), None, false,
          if k == 2 then [] else [SetAdviceBody(call.advice, Edited(a.body, call.data), a.version, submitted)])
    else
      Txn(call, k, Some(a.(version := a.version + 1)), None, false,
          if k == 2 then [snap] else [snap, SetAdviceBody(call.advice, Edited(a.body, call.data), a.version + 1, submitted)])
  }

  /** Where an edit stands after `k` statements. */
  predicate EditStands(db: Db, call: Call, k: nat, t: Txn)
    requires call.UpdateAdvice?
  {
    if k == 0 then t == Begin(call)
    else
      && k <= 3 && MayEdit(db, call) && t == UpdateAdviceAt(db, call, k)
      && (k > 1 && !NothingNew(db.advices[call.advice].body, call.data) ==>
            (call.advice, db.advices[call.advice].version) !in db.history)
  }

  lemma EditGoesOn(db: Db, call: Call, k: nat, before: Txn, t: Txn)
    requires call.UpdateAdvice? && EditStands(db, call, k, before)
    requires Loaded(before) && before.call == call
    requires NextUpdateAdvice(db, before, call.advice, call.actor, call.data, call.submit) == Go(t)
    ensures EditStands(db, call, k + 1, t)
  {
    hide NothingNew, Edited, GoesOn, Held, Wants;
  }

  lemma {:induction false} UpdateAdviceSteps(db: Db, call: Call, k: nat, t: Txn)
    requires call.UpdateAdvice? && Solo(db, call, k) == Some(t)
    ensures EditStands(db, call, k, t)
  {
    if k > 0 {
      Unroll(db, call, k, t);
      hide NextUpdateAdvice, EditStands;
      var before := Solo(db, call, k - 1).value;
      hide Solo;
      UpdateAdviceSteps(db, call, k - 1, before);
      EditGoesOn(db, call, k - 1, before, t);
    }
  }

  lemma ToggleCommits(db: Db, call: Call)
    requires call.UpdateAdvice? && MayEdit(db, call) && NothingNew(db.advices[call.advice].body, call.data)
    ensures UpdateAdviceSpec(db, call.advice, call.actor, call.data, call.submit) ==
            Outcome(ApplyAll(db, UpdateAdviceAt(db, call, 3).writes), Accepted)
  {
    var a := db.advices[call.advice];
    var submitted := if call.submit.Some? then call.submit.value else a.isSubmitted;
    hide ApplyAll, Apply;
    BodySet(db, call.advice, Edited(a.body, call.data), a.version, submitted);
    var w := SetAdviceBody(call.advice, Edited(a.body, call.data), a.version, submitted);
    ApplyTwo(db, w, w);
  }

  lemma RevisionWrites(db: Db, a: Id, snap: Snapshot, row: Advice)
    requires a in db.advices && row == db.advices[a].(body := row.body, version := row.version, isSubmitted := row.isSubmitted)
    requires row.version >= 1
    ensures ApplyAll(db, [InsertHistory(a, row.version - 1, snap), SetAdviceBody(a, row.body, row.version, row.isSubmitted)]) ==
            db.(advices := db.advices[a := row], history := db.history[(a, row.version - 1) := snap])
  {
    hide ApplyAll, Apply;
    var kept := db.(history := db.history[(a, row.version - 1) := snap]);
    HistoryInserted(db, a, row.version - 1, snap);
    BodySet(kept, a, row.body, row.version, row.isSubmitted);
    ApplyTwo(db, InsertHistory(a, row.version - 1, snap), SetAdviceBody(a, row.body, row.version, row.isSubmitted));
  }

  lemma RevisionCommits(db: Db, call: Call)
    requires call.UpdateAdvice? && MayEdit(db, call) && !NothingNew(db.advices[call.advice].body, call.data)
    requires (call.advice, db.advices[call.advice].version) !in db.history
    ensures UpdateAdviceSpec(db, call.advice, call.actor, call.data, call.submit) ==
            Outcome(ApplyAll(db, UpdateAdviceAt(db, call, 3).writes), Accepted)
  {
    var a := db.advices[call.advice];
    var submitted := if call.submit.Some? then call.submit.value else a.isSubmitted;
    hide ApplyAll, NothingNew, Edited, Editable;
    RevisionWrites(db, call.advice, Snapshot(a.body, call.actor),
                   a.(body := Edited(a.body, call.data), version := a.version + 1, isSubmitted := submitted));
  }

  lemma UpdateAdviceAlone(db: Db, call: Call, k: nat, t: Txn)
    requires call.UpdateAdvice? && Solo(db, call, k) == Some(t)
    ensures EndsAs(db, t, Exec(db, call))
  {
    UpdateAdviceSteps(db, call, k, t);
    hide Solo, ApplyAll, NothingNew, Edited;
    if k == 3 {
      if NothingNew(db.advices[call.advice].body, call.data) { ToggleCommits(db, call); } else { RevisionCommits(db, call); }
    }
  }

  // --- delete_advice ---

  lemma {:induction false} DeleteAdviceSteps(db: Db, call: Call, k: nat, t: Txn)
    requires call.DeleteAdvice? && Solo(db, call, k) == Some(t)
    ensures k == 0 ==> t == Begin(call)
    ensures k > 0 ==>
              && k <= 2 && call.advice in db.advices
              && db.advices[call.advice].advisor == call.actor && Deletable(db.advices[call.advice].status)
              && t == Txn(call, k, Some(db.advices[call.advice]), None, false,
                          if k == 1 then [] else [SetAdviceStatus(call.advice, Deleted)])
  {
    if k > 0 {
      Unroll(db, call, k, t);
      hide NextUpdateAdvice, NextReviewAdvice, NextAssignAdvisor, NextUnassignAdvisor, NextUpdateConcern, GoesOn, Held, Wants;
      hide Solo;
      DeleteAdviceSteps(db, call, k - 1, Solo(db, call, k - 1).value);
    }
  }

  lemma DeleteAdviceAlone(db: Db, call: Call, k: nat, t: Txn)
    requires call.DeleteAdvice? && Solo(db, call, k) == Some(t)
    ensures EndsAs(db, t, Exec(db, call))
  {
    DeleteAdviceSteps(db, call, k, t);
    hide Solo, ApplyAll;
    if k == 2 {
      ApplyTwo(db, SetAdviceStatus(call.advice, Deleted), SetAdviceStatus(call.advice, Deleted));
    }
  }

  // --- review_advice ---

  predicate MayReview(db: Db, call: Call)
    requires call.ReviewAdvice?
  {
    && call.advice in db.advices
    && ReviewError(db.advices[call.advice], call.decision, call.reason, call.expectedVersion).None?
  }

  predicate MayDecide(db: Db, call: Call)
    requires call.ReviewAdvice?
  {
    && MayReview(db, call)
    && db.advices[call.advice].concern in db.concerns
    && db.concerns[db.advices[call.advice].concern].deletedAt.None?
  }

  function ReviewWrites(db: Db, call: Call): seq<Write>
    requires call.ReviewAdvice? && MayDecide(db, call)
  {
    var a := db.advices[call.advice];
    var c := db.concerns[a.concern];
    var save := SaveAdvice(call.advice, Decided(a, call.actor, call.decision, call.reason, call.now));
    if call.decision == Reject then [save, Notify(AdviceRejected(a.advisor, call.advice, a.concern, call.actor, call.reason))]
    else
      var tell := Notify(AdviceApproved(c.author, call.advice, a.concern, call.actor));
      if c.status == Assigned then [save, SetConcernStatus(a.concern, Answered), tell] else [save, tell]
  }

  function ReviewWritesAt(db: Db, call: Call, k: nat): seq<Write>
    requires call.ReviewAdvice? && MayDecide(db, call)
  {
    var ws := ReviewWrites(db, call);
    if k <= 2 then [] else if k == 3 then ws[..1] else if k == 4 then ws[..|ws| - 1] else ws
  }

  /** Where a review stands after `k` statements. */
  predicate ReviewStands(db: Db, call: Call, k: nat, t: Txn)
    requires call.ReviewAdvice?
  {
    if k == 0 then t == Begin(call)
    else if k == 1 then MayReview(db, call) && t == Txn(call, 1, Some(db.advices[call.advice]), None, false, [])
    else
      && k <= 5 && MayDecide(db, call)
      && t == Txn(call, k, Some(db.advices[call.advice]), Some(db.concerns[db.advices[call.advice].concern]),
                  false, ReviewWritesAt(db, call, k))
  }

  lemma ReviewReads(db: Db, call: Call, k: nat, before: Txn, t: Txn)
    requires call.ReviewAdvice? && k < 2 && ReviewStands(db, call, k, before)
    requires NextReviewAdvice(db, before, call.advice, call.actor, call.decision, call.reason, call.expectedVersion, call.now)
             == Go(t)
    ensures ReviewStands(db, call, k + 1, t)
  {
    hide ReviewError, Decided;
  }

  lemma ReviewWritesOn(db: Db, call: Call, k: nat, before: Txn, t: Txn)
    requires call.ReviewAdvice? && k >= 2 && ReviewStands(db, call, k, before)
    requires NextReviewAdvice(db, before, call.advice, call.actor, call.decision, call.reason, call.expectedVersion, call.now)
             == Go(t)
    ensures ReviewStands(db, call, k + 1, t)
  {
    hide ReviewError, Decided, GoesOn;
    assert t.writes == ReviewWritesAt(db, call, k + 1);
    hide ReviewWritesAt, ReviewWrites;
  }

  lemma {:induction false} ReviewAdviceSteps(db: Db, call: Call, k: nat, t: Txn)
    requires call.ReviewAdvice? && Solo(db, call, k) == Some(t)
    ensures ReviewStands(db, call, k, t)
  {
    if k > 0 {
      Unroll(db, call, k, t);
      hide NextReviewAdvice, ReviewStands;
      var before := Solo(db, call, k - 1).value;
      hide Solo;
      ReviewAdviceSteps(db, call, k - 1, before);
      if k <= 2 { ReviewReads(db, call, k - 1, before, t); } else { ReviewWritesOn(db, call, k - 1, before, t); }
    }
  }

  lemma ReviewAdviceCommits(db: Db, call: Call)
    requires call.ReviewAdvice? && MayDecide(db, call)
    ensures ReviewAdviceSpec(db, call.advice, call.actor, call.decision, call.reason, call.expectedVersion, call.now) ==
            Outcome(ApplyAll(db, ReviewWrites(db, call)), Accepted)
  {
    var a := db.advices[call.advice];
    var c := db.concerns[a.concern];
    var row := Decided(a, call.actor, call.decision, call.reason, call.now);
    var save := SaveAdvice(call.advice, row);
    hide ApplyAll, Apply, ReviewError, Decided;
    AdviceSaved(db, call.advice, row);
    var saved := db.(advices := db.advices[call.advice := row]);
    if call.decision == Reject {
      var n := AdviceRejected(a.advisor, call.advice, a.concern, call.actor, call.reason);
      Notified(saved, n);
      ApplyTwo(db, save, Notify(n));
    } else {
      var n := AdviceApproved(c.author, call.advice, a.concern, call.actor);
      if c.status == Assigned {
        StatusSet(saved, a.concern, Answered);
        Notified(saved.(concerns := db.concerns[a.concern := c.(status := Answered)]), n);
        ApplyThree(db, save, SetConcernStatus(a.concern, Answered), Notify(n));
      } else {
        Notified(saved, n);
        ApplyTwo(db, save, Notify(n));
      }
    }
  }

  lemma ReviewAdviceAlone(db: Db, call: Call, k: nat, t: Txn)
    requires call.ReviewAdvice? && Solo(db, call, k) == Some(t)
    ensures EndsAs(db, t, Exec(db, call))
  {
    ReviewAdviceSteps(db, call, k, t);
    hide Solo, ApplyAll, Decided, ReviewError;
    if k == 5 {
      hide ReviewWrites;
      ReviewAdviceCommits(db, call);
    }
  }

  // --- assign_advisor ---

  predicate MayAssign(db: Db, call: Call)
    requires call.AssignAdvisor?
  {
    && call.advisor in db.advisors && call.concern in db.concerns
    && db.concerns[call.concern].deletedAt.None? && db.concerns[call.concern].status != Closed
  }

  function AssignWrites(db: Db, call: Call): seq<Write>
    requires call.AssignAdvisor? && call.concern in db.concerns
  {
    var row := Assignment(call.concern, call.advisor, call.actor, call.triage, true, call.now, None);
    var insert := InsertAssignment(call.newId, row);
    var tell := Notify(AssignmentCreated(call.advisor, call.concern, call.newId, call.actor));
    if db.concerns[call.concern].status == ConcernStatus.Submitted
    then [insert, SetConcernStatus(call.concern, Assigned), tell] else [insert, tell]
  }

  function AssignWritesAt(db: Db, call: Call, k: nat): seq<Write>
    requires call.AssignAdvisor? && call.concern in db.concerns
  {
    var ws := AssignWrites(db, call);
    if k <= 2 then [] else if k == 3 then ws[..1] else if k == 4 then ws[..|ws| - 1] else ws
  }

  lemma {:induction false} AssignAdvisorSteps(db: Db, call: Call, k: nat, t: Txn)
    requires call.AssignAdvisor? && Solo(db, call, k) == Some(t)
    ensures k == 0 ==> t == Begin(call)
    ensures k == 1 ==> call.advisor in db.advisors && t == Txn(call, 1, None, None, false, [])
    ensures k > 1 ==>
              && k <= 5 && MayAssign(db, call)
              && t == Txn(call, k, None, Some(db.concerns[call.concern]), false, AssignWritesAt(db, call, k))
    ensures k > 2 ==> call.newId !in db.assignments && !AssignmentSlotTaken(db.assignments, call.concern, call.advisor)
  {
    if k > 0 {
      Unroll(db, call, k, t);
      hide NextUpdateAdvice, NextDeleteAdvice, NextReviewAdvice, NextUnassignAdvisor, NextUpdateConcern, GoesOn, Held, Wants;
      hide Solo, AssignmentSlotTaken;
      AssignAdvisorSteps(db, call, k - 1, Solo(db, call, k - 1).value);
    }
  }

  lemma AssignAdvisorCommits(db: Db, call: Call)
    requires call.AssignAdvisor? && MayAssign(db, call)
    requires call.newId !in db.assignments && !AssignmentSlotTaken(db.assignments, call.concern, call.advisor)
    ensures AssignAdvisorSpec(db, call.concern, call.actor, call.advisor, call.triage, call.newId, call.now) ==
            Outcome(ApplyAll(db, AssignWrites(db, call)), Accepted)
  {
    var c := db.concerns[call.concern];
    var row := Assignment(call.concern, call.advisor, call.actor, call.triage, true, call.now, None);
    var n := AssignmentCreated(call.advisor, call.concern, call.newId, call.actor);
    hide ApplyAll, Apply, AssignmentSlotTaken;
    AssignmentInserted(db, call.newId, row);
    var inserted := db.(assignments := db.assignments[call.newId := row]);
    if c.status == ConcernStatus.Submitted {
      StatusSet(inserted, call.concern, Assigned);
      Notified(inserted.(concerns := db.concerns[call.concern := c.(status := Assigned)]), n);
      ApplyThree(db, InsertAssignment(call.newId, row), SetConcernStatus(call.concern, Assigned), Notify(n));
    } else {
      Notified(inserted, n);
      ApplyTwo(db, InsertAssignment(call.newId, row), Notify(n));
    }
  }

  lemma AssignAdvisorAlone(db: Db, call: Call, k: nat, t: Txn)
    requires call.AssignAdvisor? && Solo(db, call, k) == Some(t)
    ensures EndsAs(db, t, Exec(db, call))
  {
    AssignAdvisorSteps(db, call, k, t);
    hide Solo, ApplyAll, AssignmentSlotTaken;
    if k == 5 {
      hide AssignWrites;
      AssignAdvisorCommits(db, call);
    }
  }

  // --- unassign_advisor ---

  predicate MayUnassign(db: Db, call: Call)
    requires call.UnassignAdvisor?
  {
    && call.concern in db.concerns && call.assignment in db.assignments
    && db.assignments[call.assignment].concern == call.concern && db.assignments[call.assignment].isActive
  }

  function StillAssigned(db: Db, call: Call): bool
    requires call.UnassignAdvisor?
  {
    HasActive(ApplyAll(db, [EndAssignment(call.assignment, call.now)]).assignments, call.concern)
  }

  function UnassignWrites(db: Db, call: Call): seq<Write>
    requires call.UnassignAdvisor? && call.concern in db.concerns
  {
    var end := EndAssignment(call.assignment, call.now);
    if !StillAssigned(db, call) && db.concerns[call.concern].status == Assigned
    then [end, SetConcernStatus(call.concern, ConcernStatus.Submitted)] else [end]
  }

  lemma {:induction false} UnassignAdvisorSteps(db: Db, call: Call, k: nat, t: Txn)
    requires call.UnassignAdvisor? && Solo(db, call, k) == Some(t)
    ensures k == 0 ==> t == Begin(call)
    ensures k == 1 ==> call.concern in db.concerns && t == Txn(call, 1, None, Some(db.concerns[call.concern]), false, [])
    ensures k > 1 ==>
              && k <= 5 && MayUnassign(db, call)
              && t == Txn(call, k, None, Some(db.concerns[call.concern]), k > 3 && StillAssigned(db, call),
                          if k == 2 then [] else if k < 5 then [EndAssignment(call.assignment, call.now)]
                          else UnassignWrites(db, call))
  {
    if k > 0 {
      Unroll(db, call, k, t);
      hide NextUpdateAdvice, NextDeleteAdvice, NextReviewAdvice, NextAssignAdvisor, NextUpdateConcern, GoesOn, Held, Wants;
      hide Solo, HasActive, ApplyAll;
      UnassignAdvisorSteps(db, call, k - 1, Solo(db, call, k - 1).value);
    }
  }

  lemma UnassignAdvisorCommits(db: Db, call: Call)
    requires call.UnassignAdvisor? && MayUnassign(db, call)
    ensures UnassignAdvisorSpec(db, call.concern, call.assignment, call.now) ==
            Outcome(ApplyAll(db, UnassignWrites(db, call)), Accepted)
  {
    hide ApplyAll, Apply, HasActive;
    AssignmentClosed(db, call.assignment, call.now);
    var end := EndAssignment(call.assignment, call.now);
    var ended := ApplyAll(db, [end]);
    if !StillAssigned(db, call) && db.concerns[call.concern].status == Assigned {
      StatusSet(ended, call.concern, ConcernStatus.Submitted);
      ApplyTwo(db, end, SetConcernStatus(call.concern, ConcernStatus.Submitted));
    }
  }

  lemma UnassignAdvisorAlone(db: Db, call: Call, k: nat, t: Txn)
    requires call.UnassignAdvisor? && Solo(db, call, k) == Some(t)
    ensures EndsAs(db, t, Exec(db, call))
  {
    UnassignAdvisorSteps(db, call, k, t);
    hide Solo, ApplyAll, HasActive, StillAssigned;
    if k == 5 {
      hide UnassignWrites;
      UnassignAdvisorCommits(db, call);
    }
  }

  // --- update_own_concern ---

  lemma {:induction false} UpdateConcernSteps(db: Db, call: Call, k: nat, t: Txn)
    requires call.UpdateConcern? && Solo(db, call, k) == Some(t)
    ensures k == 0 ==> t == Begin(call)
    ensures k > 0 ==>
              && k <= 3 && call.concern in db.concerns
              && db.concerns[call.concern].deletedAt.None? && db.concerns[call.concern].author == call.user
              && t == Txn(call, k, None, Some(db.concerns[call.concern]), false,
                          if k == 3 then [SetConcernText(call.concern, call.text)] else [])
    ensures k > 1 ==> db.concerns[call.concern].status == ConcernStatus.Submitted && !EverAssigned(db.assignments, call.concern)
  {
    if k > 0 {
      Unroll(db, call, k, t);
      hide NextUpdateAdvice, NextDeleteAdvice, NextReviewAdvice, NextAssignAdvisor, NextUnassignAdvisor, GoesOn, Held, Wants;
      hide Solo, EverAssigned;
      UpdateConcernSteps(db, call, k - 1, Solo(db, call, k - 1).value);
    }
  }

  lemma UpdateConcernAlone(db: Db, call: Call, k: nat, t: Txn)
    requires call.UpdateConcern? && Solo(db, call, k) == Some(t)
    ensures EndsAs(db, t, Exec(db, call))
  {
    UpdateConcernSteps(db, call, k, t);
    hide Solo, ApplyAll, EverAssigned;
    if k == 3 {
      ApplyTwo(db, SetConcernText(call.concern, call.text), SetConcernText(call.concern, call.text));
    }
  }

  /** Statement by statement or in one piece: alone, the outcome is the same. */
  lemma SoloIsExec(db: Db, call: Call, k: nat, t: Txn)
    requires Solo(db, call, k) == Some(t)
    ensures EndsAs(db, t, Exec(db, call))
  {
    hide Solo, EndsAs, Exec;
    match call
    case UpdateAdvice(_, _, _, _) => UpdateAdviceAlone(db, call, k, t);
    case DeleteAdvice(_, _) => DeleteAdviceAlone(db, call, k, t);
    case ReviewAdvice(_, _, _, _, _, _) => ReviewAdviceAlone(db, call, k, t);
    case AssignAdvisor(_, _, _, _, _, _) => AssignAdvisorAlone(db, call, k, t);
    case UnassignAdvisor(_, _, _) => UnassignAdvisorAlone(db, call, k, t);
    case UpdateConcern(_, _, _) => UpdateConcernAlone(db, call, k, t);
  }
}
