/** Serial runs: whole requests one after the other, the locking ones and the others. */
module Requests {
  import opened Common
  import opened Tables
  import opened Services
  import opened Statements
  import opened Invariants
  import opened Evolution

  datatype Request =
    | Locking(call: Call)
    | CreateConcern(newId: Id, author: Id, text: ConcernText)
    | CreateAdvice(newId: Id, concern: Id, advisor: Id, data: Body, submit: bool, now: nat)
    | Withdraw(user: Id, concern: Id, now: nat)
    | CreateFeedback(newId: Id, advice: Id, author: Id, score: nat, content: string)
    | TransitionFeedback(feedback: Id, actor: Id, target: FeedbackStatus, memo: Option<string>, now: nat)
    | Admin(action: AdminAction, selected: set<Id>)

  function Serve(db: Db, r: Request): Outcome {
    match r
    case Locking(call) => Exec(db, call)
    case CreateConcern(newId, author, text) => CreateConcernSpec(db, newId, author, text)
    case CreateAdvice(newId, concern, advisor, data, submit, now) =>
      CreateAdviceSpec(db, newId, concern, advisor, data, submit, now)
    case Withdraw(user, concern, now) => WithdrawSpec(db, user, concern, now)
    case CreateFeedback(newId, advice, author, score, content) =>
      CreateFeedbackSpec(db, newId, advice, author, score, content)
    case TransitionFeedback(f, actor, target, memo, now) => TransitionFeedbackSpec(db, f, actor, target, memo, now)
    case Admin(action, selected) => Outcome(AdminSpec(db, action, selected), Accepted)
  }

  // --- an admin action is one statement per row ---

  function RowWrite(action: AdminAction, c: Id): Write {
    match action
    case CloseAll => SetConcernStatus(c, Closed)
    case DeleteAll(now) => SetDeletedAt(c, Some(now))
    case RestoreAll => SetDeletedAt(c, None)
  }

  lemma OneRow(db: Db, action: AdminAction, c: Id)
    requires c in db.concerns && Passes(action, db.concerns[c])
    ensures Admissible(db, RowWrite(action, c))
    ensures Apply(db, RowWrite(action, c)) == AdminSpec(db, action, {c})
  {
    assert Apply(db, RowWrite(action, c)).concerns == db.concerns[c := Rewritten(action, db.concerns[c])];
  }

  lemma OneRowMore(db: Db, action: AdminAction, rest: set<Id>, c: Id)
    requires c !in rest
    ensures AdminSpec(db, action, rest + {c}) == AdminSpec(AdminSpec(db, action, rest), action, {c})
  {}

  lemma FaithfulOneMore(db: Db, log: seq<Event>, e: Event)
    requires Faithful(db, log) && Happens(Replay(db, log), e)
    ensures Faithful(db, log + [e]) && Replay(db, log + [e]) == Effect(Replay(db, log), e)
  {
    assert (log + [e])[..|log|] == log;
  }

  /** One UPDATE for each row of `order` that passes the filter of the action, in that order. */
  function RowByRow(concerns: Concerns, action: AdminAction, order: seq<Id>): seq<Event>
    decreases |order|
  {
    if order == [] then []
    else
      var first, c := RowByRow(concerns, action, order[..|order| - 1]), order[|order| - 1];
      if c in concerns && Passes(action, concerns[c]) then first + [Stated(RowWrite(action, c))] else first
  }

  predicate Distinct(order: seq<Id>) { forall i, j :: 0 <= i < j < |order| ==> order[i] != order[j] }

  function Listed(order: seq<Id>): set<Id> { set c | c in order }

  lemma OtherRowsStay(db: Db, action: AdminAction, selected: set<Id>, c: Id)
    requires c !in selected
    ensures var after := AdminSpec(db, action, selected).concerns;
            (c in after <==> c in db.concerns) && (c in after ==> after[c] == db.concerns[c])
  {}

  /** The bulk UPDATE leaves what updating its rows one at a time leaves, in whatever order that is done. */
  lemma {:induction false} AdminIsRowByRow(db: Db, action: AdminAction, order: seq<Id>)
    requires Distinct(order)
    ensures Faithful(db, RowByRow(db.concerns, action, order))
    ensures Replay(db, RowByRow(db.concerns, action, order)) == AdminSpec(db, action, Listed(order))
    decreases |order|
  {
    if order == [] {
      assert AdminSpec(db, action, {}).concerns == db.concerns;
    } else {
      var first, c := order[..|order| - 1], order[|order| - 1];
      assert c !in Listed(first) && Listed(order) == Listed(first) + {c};
      AdminIsRowByRow(db, action, first);
      OneRowMore(db, action, Listed(first), c);
      OtherRowsStay(db, action, Listed(first), c);
      hide AdminSpec, Listed, Distinct;
      var before := AdminSpec(db, action, Listed(first));
      if c in before.concerns && Passes(action, before.concerns[c]) {
        OneRow(before, action, c);
        FaithfulOneMore(db, RowByRow(db.concerns, action, first), Stated(RowWrite(action, c)));
      } else {
        NoRow(before, action, c);
      }
    }
  }

  lemma {:induction false} SomeOrder(selected: set<Id>) returns (order: seq<Id>)
    ensures Distinct(order) && Listed(order) == selected
    decreases |selected|
  {
    if selected == {} {
      order := [];
    } else {
      var c :| c in selected;
      var first := SomeOrder(selected - {c});
      assert c !in Listed(first);
      order := first + [c];
      assert Listed(order) == Listed(first) + {c};
    }
  }

  lemma NoRow(db: Db, action: AdminAction, c: Id)
    requires c !in db.concerns || !Passes(action, db.concerns[c])
    ensures AdminSpec(db, action, {c}) == db
  {}

  // --- the count in the message of close_selected ---

  /** What closing leaves of the list: the closed rows leave it when it shows ANSWERED only. */
  lemma ShownAfterClosing(db: Db, listing: Listing, ticked: set<Id>)
    ensures var shown := Shown(listing, db.concerns, ticked);
            var closed := Matched(db.concerns, CloseAll, shown);
            && closed <= shown
            && Shown(listing, AdminSpec(db, CloseAll, shown).concerns, ticked) ==
               if listing.status == Some(Answered) then shown - closed else shown
  {}

  lemma CountOfOthers(all: set<Id>, some: set<Id>)
    requires some <= all
    ensures |all - some| == |all| - |some| && (|some| == 0 <==> some == {})
  {
    assert some + (all - some) == all;
  }

  /**
   The message subtracts the closed rows from the rows of the list, counted after the UPDATE. That is the
   number of rows passed over exactly when the list is not filtered by ANSWERED or nothing was closed;
   filtered by ANSWERED it is too small by the number of closed rows.
   */
  lemma SkippedIsRightIff(db: Db, listing: Listing, ticked: set<Id>)
    ensures var shown := Shown(listing, db.concerns, ticked);
            var closed := Matched(db.concerns, CloseAll, shown);
            var skipped := |Shown(listing, AdminSpec(db, CloseAll, shown).concerns, ticked)| - |closed|;
            && (skipped == |shown - closed| <==> listing.status != Some(Answered) || closed == {})
            && (listing.status == Some(Answered) ==> skipped == |shown - closed| - |closed|)
  {
    ShownAfterClosing(db, listing, ticked);
    hide AdminSpec, Shown, Matched;
    CountOfOthers(Shown(listing, db.concerns, ticked), Matched(db.concerns, CloseAll, Shown(listing, db.concerns, ticked)));
  }

  // --- every request is a few events ---

  /** The statement an accepted request of this kind ends with. */
  function FinalWrite(db: Db, r: Request): Write
    requires !r.Locking? && !r.Admin?
  {
    match r
    case CreateConcern(newId, author, text) => InsertConcern(newId, Concern(author, text, ConcernStatus.Submitted, None))
    case CreateAdvice(newId, concern, advisor, data, submit, now) =>
      InsertAdvice(newId, NewAdvice(concern, advisor, data, submit, now))
    case Withdraw(_, concern, now) => SetDeletedAt(concern, Some(now))
    case CreateFeedback(newId, advice, author, score, content) =>
      InsertFeedback(newId, NewFeedback(advice, author, score, content))
    case TransitionFeedback(f, actor, target, memo, now) =>
      SetFeedback(f, target, if target == Reviewed then Some((actor, now)) else None, memo)
  }

  lemma AcceptedIsStatement(db: Db, r: Request)
    requires !r.Locking? && !r.Admin?
    ensures Serve(db, r).reply == Accepted ==>
              Admissible(db, FinalWrite(db, r)) && Serve(db, r).db == Apply(db, FinalWrite(db, r))
    ensures Serve(db, r).reply != Accepted ==> Serve(db, r).db == db
  {
    hide AdviceSlotTaken, HasFeedback;
    match r
    case CreateAdvice(_, concern, advisor, _, _, _) =>
      if Serve(db, r).reply == Accepted {
        var i :| i in db.assignments && ActiveFor(db.assignments[i], concern, advisor);
        assert EverAssignedTo(db.assignments, concern, advisor);
      }
    case CreateConcern(_, _, _) =>
    case Withdraw(_, _, _) =>
    case CreateFeedback(_, _, _, _, _) =>
    case TransitionFeedback(_, _, _, _, _) =>
  }

  lemma RequestIsEvents(db: Db, r: Request) returns (log: seq<Event>)
    ensures Faithful(db, log) && Replay(db, log) == Serve(db, r).db
  {
    hide Exec, Admissible, Apply, AdminSpec, FinalWrite;
    match r
    case Locking(call) =>
      log := [] + [Called(call, Exec(db, call).reply)];
      FaithfulOneMore(db, [], Called(call, Exec(db, call).reply));
    case Admin(action, selected) =>
      var order := SomeOrder(selected);
      AdminIsRowByRow(db, action, order);
      log := RowByRow(db.concerns, action, order);
    case _ =>
      AcceptedIsStatement(db, r);
      if Serve(db, r).reply == Accepted {
        hide Serve;
        log := [] + [Stated(FinalWrite(db, r))];
        FaithfulOneMore(db, [], Stated(FinalWrite(db, r)));
      } else {
        log := [];
      }
  }

  lemma {:induction false} LogEvolves(db: Db, log: seq<Event>)
    requires Faithful(db, log)
    ensures Evolves(db, Replay(db, log))
    decreases |log|
  {
    hide Evolves, Happens, Effect;
    if log == [] {
      EvolvesReflexive(db);
    } else {
      LogEvolves(db, log[..|log| - 1]);
      EventEvolves(Replay(db, log[..|log| - 1]), log[|log| - 1]);
      EvolvesTransitive(db, Replay(db, log[..|log| - 1]), Replay(db, log));
    }
  }

  /** Every request keeps every relation between the tables and only moves the database forward. */
  lemma RequestKeeps(db: Db, r: Request)
    requires Sound(db)
    ensures Sound(Serve(db, r).db) && Evolves(db, Serve(db, r).db)
  {
    hide Sound, Evolves, Serve;
    var log := RequestIsEvents(db, r);
    LogKeeps(db, log);
    LogEvolves(db, log);
  }

  // --- feedback: one way, as long as requests do not overlap ---

  lemma CallsLeaveFeedbacks(db: Db, call: Call)
    ensures Exec(db, call).db.feedbacks == db.feedbacks
  {
    hide NothingNew, Edited, Decided, ReviewError, HasActive, AssignmentSlotTaken, EverAssigned;
  }

  lemma FeedbackIsOneWay(db: Db, r: Request, f: Id)
    requires f in db.feedbacks
    ensures f in Serve(db, r).db.feedbacks
    ensures var before, after := db.feedbacks[f], Serve(db, r).db.feedbacks[f];
            && (after == before || FeedbackEdge(before.status, after.status))
            && (after.status == Archived ==> after.reviewedBy == before.reviewedBy && after.reviewedAt == before.reviewedAt)
            && (before.status == FeedbackStatus.Submitted && after.status == Reviewed ==> after.reviewedBy.Some?)
  {
    if r.Locking? { CallsLeaveFeedbacks(db, r.call); }
    hide Exec, AdviceSlotTaken, AssignmentSlotTaken, HasFeedback, Matched;
  }
}
