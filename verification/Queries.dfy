/** The read side: who sees which advice, and what the lists promise about the calls that follow. */
module Queries {
  import opened Text
  import opened Common
  import opened Tables
  import opened Services
  import opened Invariants
  import opened Interleaving
  import opened Runs

  // --- get_visible_advice, list_received_advices ---

  datatype Viewer = AsAuthor | AsAdmin | AsOwner | Nobody(error: Error)

  function GetVisibleAdvice(db: Db, a: Id, user: Id, isAdmin: bool): Viewer {
    if a !in db.advices || db.advices[a].concern !in db.concerns then Nobody(NotFound)
    else
      var advice := db.advices[a];
      var concern := db.concerns[advice.concern];
      if advice.advisor == user then AsAuthor
      else if isAdmin then AsAdmin
      else if concern.author == user && advice.status == Approved && concern.deletedAt.None? then AsOwner
      else Nobody(Forbidden)
  }

  function ListReceived(db: Db, user: Id): set<Id> {
    set a | a in db.advices && db.advices[a].status == Approved && db.advices[a].concern in db.concerns
            && db.concerns[db.advices[a].concern].author == user
            && db.concerns[db.advices[a].concern].deletedAt.None?
  }

  /** For somebody who neither wrote it nor administers, the detail opens exactly what the list shows. */
  lemma OwnerSeesExactlyTheList(db: Db, a: Id, user: Id)
    requires a in db.advices ==> db.advices[a].advisor != user
    ensures GetVisibleAdvice(db, a, user, false) == AsOwner <==> a in ListReceived(db, user)
    ensures GetVisibleAdvice(db, a, user, false) in {AsOwner, Nobody(NotFound), Nobody(Forbidden)}
  {}

  /** Withdrawing a concern takes every advice on it out of its owner's sight, and restoring brings them back. */
  lemma WithdrawingHides(db: Db, a: Id, user: Id, now: nat)
    requires a in ListReceived(db, user)
    ensures var c := db.advices[a].concern;
            var hidden := WithdrawSpec(db, user, c, now);
            && hidden.reply == Accepted
            && a !in ListReceived(hidden.db, user)
            && (db.advices[a].advisor != user ==>
                  GetVisibleAdvice(db, a, user, false) == AsOwner
                  && GetVisibleAdvice(hidden.db, a, user, false) == Nobody(Forbidden))
            && AdminSpec(hidden.db, RestoreAll, {c}) == db
  {
    var c := db.advices[a].concern;
    if db.advices[a].advisor != user {
      OwnerSeesExactlyTheList(db, a, user);
      OwnerSeesExactlyTheList(WithdrawSpec(db, user, c, now).db, a, user);
    }
    assert AdminSpec(WithdrawSpec(db, user, c, now).db, RestoreAll, {c}).concerns == db.concerns;
  }

  /** What the owner of a concern can open or list at one moment of a run is the same row at every later one. */
  lemma WhatOwnersSeeIsFinal(run: seq<Sys>, i: nat, j: nat, a: Id, user: Id)
    requires Run(run) && i <= j < |run|
    requires GetVisibleAdvice(run[i].db, a, user, false) == AsOwner || a in ListReceived(run[i].db, user)
    ensures a in run[i].db.advices && a in run[j].db.advices && run[j].db.advices[a] == run[i].db.advices[a]
  {
    if a in run[i].db.advices && run[i].db.advices[a].advisor != user { OwnerSeesExactlyTheList(run[i].db, a, user); }
    hide Run;
    ApprovedIsFinal(run, i, j, a);
  }

  // --- my_advice_view_data and the advice_status of list_assigned_concerns ---

  function OwnAdvices(advices: Advices, concern: Id, advisor: Id): set<Id> {
    set a | a in advices && LiveFor(advices[a], concern, advisor)
  }

  /** The newest of the advisor's own advices that are not DELETED. */
  ghost predicate IsLatest(advices: Advices, concern: Id, advisor: Id, a: Id) {
    && a in OwnAdvices(advices, concern, advisor)
    && forall b :: b in OwnAdvices(advices, concern, advisor) ==> advices[b].createdAt <= advices[a].createdAt
  }

  /** There is at most one candidate, so every order of the query picks the same advice. */
  lemma PickIsTheOnlyOne(db: Db, concern: Id, advisor: Id, a: Id, b: Id)
    requires AdviceSlots(db.advices)
    requires a in OwnAdvices(db.advices, concern, advisor) && b in OwnAdvices(db.advices, concern, advisor)
    ensures a == b
    ensures OwnAdvices(db.advices, concern, advisor) == {a} && IsLatest(db.advices, concern, advisor, a)
  {
    forall c | c in OwnAdvices(db.advices, concern, advisor)
      ensures c == a
    {}
  }

  // --- the way back after a rejection ---

  /** A rejected advice on a live concern with a live assignment can always be deleted and written anew. */
  lemma RejectionIsNoDeadEnd(db: Db, a: Id, newId: Id, data: Body, submit: bool, now: nat)
    requires Sound(db)
    requires a in db.advices && db.advices[a].status == Rejected
    requires db.advices[a].concern in db.concerns && db.concerns[db.advices[a].concern].deletedAt.None?
    requires AssignmentSlotTaken(db.assignments, db.advices[a].concern, db.advices[a].advisor)
    requires newId !in db.advices && Guidance in data
    ensures var row := db.advices[a];
            var withdrawn := Exec(db, DeleteAdvice(a, row.advisor));
            var rewritten := CreateAdviceSpec(withdrawn.db, newId, row.concern, row.advisor, data, submit, now);
            && withdrawn.reply == Accepted && rewritten.reply == Accepted
            && rewritten.db.advices[newId].version == 1 && rewritten.db.advices[newId].status == Pending
            && (forall v: nat :: (newId, v) !in rewritten.db.history)
            && OwnAdvices(rewritten.db.advices, row.concern, row.advisor) == {newId}
  {
    var row := db.advices[a];
    var after := db.advices[a := row.(status := Deleted)];
    SlotReopens(db.advices, a);
    assert newId !in after && (forall v: nat :: (newId, v) !in db.history);
    hide Sound, LiveFor, AssignmentSlotTaken;
    hide UpdateAdviceSpec, ReviewAdviceSpec, AssignAdvisorSpec, UnassignAdvisorSpec, UpdateConcernSpec;
    assert Exec(db, DeleteAdvice(a, row.advisor)).db.advices == after;
    hide Exec;
    OnlyTheNew(after, newId, NewAdvice(row.concern, row.advisor, data, submit, now));
  }

  lemma SlotReopens(advices: Advices, a: Id)
    requires AdviceSlots(advices) && a in advices && advices[a].status != Deleted
    ensures var row := advices[a]; !AdviceSlotTaken(advices[a := row.(status := Deleted)], row.concern, row.advisor)
  {}

  lemma OnlyTheNew(advices: Advices, newId: Id, row: Advice)
    requires newId !in advices && !AdviceSlotTaken(advices, row.concern, row.advisor) && row.status == Pending
    ensures OwnAdvices(advices[newId := row], row.concern, row.advisor) == {newId}
  {}

  // --- list_advices_for_admin_review ---

  function ReviewQueue(db: Db): set<Id> {
    set a | a in db.advices && db.advices[a].isSubmitted && db.advices[a].status == Pending
            && db.advices[a].concern in db.concerns && db.concerns[db.advices[a].concern].deletedAt.None?
  }

  /** The queue shows exactly the advices a review of their current version can decide. */
  lemma QueueIsWhatCanBeReviewed(db: Db, a: Id, actor: Id, now: nat)
    requires Sound(db) && a in db.advices
    ensures a in ReviewQueue(db) <==>
            Exec(db, ReviewAdvice(a, actor, Approve, "", db.advices[a].version, now)).reply == Accepted
  {
    hide StatusAgrees, Backed, Revised, Gapless, AdviceSlots, AssignmentSlots, NoticesExact, FeedbackEarned;
    assert Coherent(db.advices[a]);
  }

  /** A rejection of a queued advice, for a reason: the verdict, the reason, and one notice to its advisor. */
  lemma RejectionReachesTheAdvisor(db: Db, a: Id, actor: Id, reason: string, now: nat)
    requires Sound(db) && a in ReviewQueue(db) && exists i :: 0 <= i < |reason| && !IsSpace(reason[i])
    ensures var before := db.advices[a];
            var served := Exec(db, ReviewAdvice(a, actor, Reject, reason, before.version, now));
            var notice := AdviceRejected(before.advisor, a, before.concern, actor, reason);
            && served.reply == Accepted && a in served.db.advices
            && (var after := served.db.advices[a];
                && after.status == Rejected && after.rejectReason == reason
                && after.reviewedBy == Some(actor) && after.reviewedAt == Some(now)
                && after.body == before.body && after.version == before.version)
            && served.db.notices == db.notices + multiset{notice} && served.db.notices[notice] == 1
            && served.db.concerns == db.concerns && a !in ReviewQueue(served.db)
  {
    hide StatusAgrees, Backed, Revised, Gapless, Rooted, AdviceSlots, AssignmentSlots, FeedbackEarned;
    assert Coherent(db.advices[a]);
    hide UpdateAdviceSpec, DeleteAdviceSpec, AssignAdvisorSpec, UnassignAdvisorSpec, UpdateConcernSpec;
  }

  /** What an accepted edit leaves of what the queue looks at. */
  lemma EditedRow(db: Db, a: Id, actor: Id, data: Body, submit: Option<bool>)
    requires UpdateAdviceSpec(db, a, actor, data, submit).reply == Accepted
    ensures var after := UpdateAdviceSpec(db, a, actor, data, submit).db;
            && a in db.advices && Editable(db.advices[a].status) && a in after.advices && after.concerns == db.concerns
            && after.advices == db.advices[a := after.advices[a]]
            && after.advices[a].concern == db.advices[a].concern && after.advices[a].status == db.advices[a].status
            && after.advices[a].isSubmitted == if submit.Some? then submit.value else db.advices[a].isSubmitted
  {
    hide NothingNew, Edited;
  }

  /** An accepted edit changes the queue by the flag it sends, and not at all when it sends none. */
  lemma EditMovesQueue(db: Db, a: Id, actor: Id, data: Body, submit: Option<bool>)
    requires Sound(db) && Exec(db, UpdateAdvice(a, actor, data, submit)).reply == Accepted
    ensures a in db.advices && db.advices[a].concern in db.concerns
    ensures var queue, live := ReviewQueue(db), db.concerns[db.advices[a].concern].deletedAt.None?;
            ReviewQueue(Exec(db, UpdateAdvice(a, actor, data, submit)).db) ==
            match submit
            case None => queue
            case Some(true) => if live then queue + {a} else queue
            case Some(false) => queue - {a}
  {
    hide StatusAgrees, Backed, Revised, Gapless, AdviceSlots, AssignmentSlots, NoticesExact, FeedbackEarned;
    EditedRow(db, a, actor, data, submit);
    assert Coherent(db.advices[a]);
    hide UpdateAdviceSpec, Decisions, Rooted;
  }

  /** From every sound state: submitting a draft on a live concern succeeds and queues it, whatever else is sent. */
  lemma SubmittingQueues(db: Db, a: Id, data: Body)
    requires Sound(db) && a in db.advices && !db.advices[a].isSubmitted && db.advices[a].status == Pending
    requires db.advices[a].concern in db.concerns && db.concerns[db.advices[a].concern].deletedAt.None?
    ensures Exec(db, UpdateAdvice(a, db.advices[a].advisor, data, Some(true))).reply == Accepted
    ensures a in ReviewQueue(Exec(db, UpdateAdvice(a, db.advices[a].advisor, data, Some(true))).db)
  {
    EditSucceeds(db, a, data);
    hide Sound, Exec, ReviewQueue;
    EditMovesQueue(db, a, db.advices[a].advisor, data, Some(true));
  }

  lemma EditSucceeds(db: Db, a: Id, data: Body)
    requires Sound(db) && a in db.advices && db.advices[a].status == Pending
    ensures Exec(db, UpdateAdvice(a, db.advices[a].advisor, data, Some(true))).reply == Accepted
  {
    hide StatusAgrees, Backed, Revised, Rooted, AdviceSlots, AssignmentSlots, NoticesExact, FeedbackEarned, Decisions;
    hide NothingNew, Edited;
  }

  /** An approval at the head of the queue: what the owner then sees. */
  lemma ApprovalReachesTheOwner(db: Db, a: Id, actor: Id, now: nat)
    requires Sound(db) && a in ReviewQueue(db)
    ensures var after := Exec(db, ReviewAdvice(a, actor, Approve, "", db.advices[a].version, now)).db;
            && a in ListReceived(after, db.concerns[db.advices[a].concern].author)
            && (db.concerns[db.advices[a].concern].author != db.advices[a].advisor ==>
                  GetVisibleAdvice(after, a, db.concerns[db.advices[a].concern].author, false) == AsOwner)
            && (db.concerns[db.advices[a].concern].status == Assigned ==>
                  after.concerns[db.advices[a].concern].status == Answered)
  {
    hide StatusAgrees, Backed, Revised, Gapless, AdviceSlots, AssignmentSlots, NoticesExact, FeedbackEarned;
    var author := db.concerns[db.advices[a].concern].author;
    if author != db.advices[a].advisor {
      OwnerSeesExactlyTheList(Exec(db, ReviewAdvice(a, actor, Approve, "", db.advices[a].version, now)).db, a, author);
    }
  }

  /**
   Approving leaves a concern ANSWERED or CLOSED exactly when somebody is still assigned to it or it
   was so before: an advice outlives the assignment it was written under.
   */
  lemma ApprovalSettlesIff(db: Db, a: Id, actor: Id, expected: nat, now: nat)
    requires Sound(db) && Exec(db, ReviewAdvice(a, actor, Approve, "", expected, now)).reply == Accepted
    ensures var c, after := db.advices[a].concern, Exec(db, ReviewAdvice(a, actor, Approve, "", expected, now)).db;
            Settled(after.concerns[c].status) <==> (HasActive(db.assignments, c) || Settled(db.concerns[c].status))
  {
    hide Backed, Revised, Gapless, Rooted, AdviceSlots, AssignmentSlots, NoticesExact, FeedbackEarned, Decisions, HasActive;
  }

  ghost predicate IsLastAssignment(assignments: Assignments, c: Id, i: Id) {
    && i in assignments && assignments[i].concern == c && assignments[i].isActive
    && (forall j :: j in assignments && assignments[j].concern == c && assignments[j].isActive ==> j == i)
  }

  lemma LastAssignmentEnds(db: Db, c: Id, i: Id, now: nat)
    requires c in db.concerns && db.concerns[c].status == Assigned && IsLastAssignment(db.assignments, c, i)
    ensures var unassigned := Exec(db, UnassignAdvisor(c, i, now));
            && unassigned.reply == Accepted && unassigned.db.advices == db.advices
            && unassigned.db.concerns == db.concerns[c := db.concerns[c].(status := ConcernStatus.Submitted)]
  {
    var ended := db.assignments[i := db.assignments[i].(isActive := false, deactivatedAt := Some(now))];
    assert !HasActive(ended, c);
    hide HasActive, UpdateAdviceSpec, DeleteAdviceSpec, ReviewAdviceSpec, AssignAdvisorSpec, UpdateConcernSpec;
  }

  /**
   And the other case does happen: whenever the last assignment of a queued advice's concern is ended
   before the approval, both succeed and the approved advice sits on a concern that is SUBMITTED.
   */
  lemma ApprovalCanLeaveSubmitted(db: Db, a: Id, i: Id, actor: Id, now: nat)
    requires Sound(db) && a in ReviewQueue(db) && db.concerns[db.advices[a].concern].status == Assigned
    requires IsLastAssignment(db.assignments, db.advices[a].concern, i)
    ensures var c := db.advices[a].concern;
            var unassigned := Exec(db, UnassignAdvisor(c, i, now));
            var approved := Exec(unassigned.db, ReviewAdvice(a, actor, Approve, "", db.advices[a].version, now));
            && unassigned.reply == Accepted && approved.reply == Accepted
            && approved.db.advices[a].status == Approved && approved.db.concerns[c].status == ConcernStatus.Submitted
  {
    var c := db.advices[a].concern;
    LastAssignmentEnds(db, c, i, now);
    hide Sound, IsLastAssignment, UnassignAdvisorSpec, UpdateAdviceSpec, DeleteAdviceSpec, AssignAdvisorSpec, UpdateConcernSpec;
  }
}
