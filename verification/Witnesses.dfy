/** Two runs from the empty database that end where one would not expect. */
module Witnesses {
  import opened Common
  import opened Tables
  import opened Services
  import opened Invariants
  import opened Interleaving
  import opened Runs
  import opened Requests
  import opened Queries
  import opened SerialRuns
  import opened FeedbackRuns

  const AUTHOR: Id := 5
  const ADVISOR: Id := 7
  const ADMINISTRATOR: Id := 9
  const CONCERN: Id := 1
  const ASSIGNMENT: Id := 2
  const ADVICE: Id := 3
  const FEEDBACK: Id := 4

  const POSTED := CreateConcern(CONCERN, AUTHOR, map[])

  const ASSIGNED := Locking(AssignAdvisor(CONCERN, ADMINISTRATOR, ADVISOR, Triage("", "", ""), ASSIGNMENT, 0))

  const WRITTEN := CreateAdvice(ADVICE, CONCERN, ADVISOR, map[Guidance := Chars("rest")], true, 0)

  const UNASSIGNED := Locking(UnassignAdvisor(CONCERN, ASSIGNMENT, 0))

  const APPROVED := Locking(ReviewAdvice(ADVICE, ADMINISTRATOR, Approve, "", 1, 0))

  const RATED := CreateFeedback(FEEDBACK, ADVICE, AUTHOR, 5, "")

  const TO_THE_ADVICE: seq<Request> := [POSTED, ASSIGNED, WRITTEN]

  const TO_THE_APPROVAL: seq<Request> := TO_THE_ADVICE + [UNASSIGNED] + [APPROVED]

  const TO_THE_FEEDBACK: seq<Request> := TO_THE_ADVICE + [APPROVED] + [RATED]

  lemma ServedOneMore(db: Db, rs: seq<Request>, r: Request)
    ensures ServeAll(db, rs + [r]) == Serve(ServeAll(db, rs), r).db
    ensures KeysOf(rs + [r]) == KeysOf(rs) + KeyOf(r)
    ensures KeysDiffer(rs + [r]) <==> KeysDiffer(rs) && KeyOf(r) !! KeysOf(rs)
  {
    hide Serve;
    assert (rs + [r])[..|rs|] == rs;
  }

  lemma {:induction false} ServedIsSound(advisors: set<Id>, rs: seq<Request>)
    ensures Sound(ServeAll(EmptyDb(advisors), rs))
    decreases |rs|
  {
    if rs == [] {
      EmptyIsSound(advisors);
    } else {
      ServedIsSound(advisors, rs[..|rs| - 1]);
      hide Sound, Serve;
      RequestKeeps(ServeAll(EmptyDb(advisors), rs[..|rs| - 1]), rs[|rs| - 1]);
    }
  }

  // --- a concern, an assignment, an advice ---

  lemma AfterPosting()
    ensures var db := ServeAll(EmptyDb({ADVISOR}), [POSTED]);
            db == EmptyDb({ADVISOR}).(concerns := map[CONCERN := Concern(AUTHOR, map[], ConcernStatus.Submitted, None)])
    ensures KeysDiffer([POSTED]) && KeysOf([POSTED]) == {}
  {
    ServedOneMore(EmptyDb({ADVISOR}), [], POSTED);
    assert [] + [POSTED] == [POSTED];
    hide Exec, AdminSpec;
  }

  ghost predicate BeingAnswered(db: Db) {
    && ADVISOR in db.advisors
    && CONCERN in db.concerns && db.concerns[CONCERN].author == AUTHOR
    && db.concerns[CONCERN].status == Assigned && db.concerns[CONCERN].deletedAt.None?
    && IsLastAssignment(db.assignments, CONCERN, ASSIGNMENT)
    && db.assignments[ASSIGNMENT].advisor == ADVISOR && db.advices == map[] && db.feedbacks == map[]
  }

  lemma AfterAssigning()
    ensures BeingAnswered(ServeAll(EmptyDb({ADVISOR}), [POSTED, ASSIGNED]))
    ensures KeysDiffer([POSTED, ASSIGNED])
  {
    AfterPosting();
    ServedOneMore(EmptyDb({ADVISOR}), [POSTED], ASSIGNED);
    assert [POSTED] + [ASSIGNED] == [POSTED, ASSIGNED];
    hide UpdateAdviceSpec, DeleteAdviceSpec, ReviewAdviceSpec, UnassignAdvisorSpec, UpdateConcernSpec, AdminSpec;
  }

  ghost predicate Queued(db: Db) {
    && ADVICE in ReviewQueue(db) && db.advices[ADVICE].concern == CONCERN && db.advices[ADVICE].version == 1
    && db.concerns[CONCERN].author == AUTHOR && db.concerns[CONCERN].status == ConcernStatus.Assigned
    && IsLastAssignment(db.assignments, CONCERN, ASSIGNMENT) && db.feedbacks == map[]
  }

  lemma WritingQueues(db: Db)
    requires BeingAnswered(db)
    ensures Queued(Serve(db, WRITTEN).db)
  {
    assert ActiveFor(db.assignments[ASSIGNMENT], CONCERN, ADVISOR);
    assert AssignmentSlotTaken(db.assignments, CONCERN, ADVISOR);
    assert !AdviceSlotTaken(db.advices, CONCERN, ADVISOR);
    hide AssignmentSlotTaken, AdviceSlotTaken, Exec, AdminSpec, IsLastAssignment;
  }

  lemma AfterWriting()
    ensures Queued(ServeAll(EmptyDb({ADVISOR}), TO_THE_ADVICE)) && KeysDiffer(TO_THE_ADVICE)
  {
    AfterAssigning();
    ServedOneMore(EmptyDb({ADVISOR}), [POSTED, ASSIGNED], WRITTEN);
    assert [POSTED, ASSIGNED] + [WRITTEN] == TO_THE_ADVICE;
    hide ServeAll, KeysDiffer, KeysOf, Serve, BeingAnswered, Queued;
    WritingQueues(ServeAll(EmptyDb({ADVISOR}), [POSTED, ASSIGNED]));
  }

  // --- unassigned, then approved ---

  /** A run from the empty database to an approved advice on a concern that is SUBMITTED. */
  lemma ApprovedOnSubmitted()
    ensures exists run: Trace :: Run(run) && run[0] == Start({ADVISOR})
                                 && ADVICE in Last(run).db.advices && Last(run).db.advices[ADVICE].status == Approved
                                 && CONCERN in Last(run).db.concerns && Last(run).db.advices[ADVICE].concern == CONCERN
                                 && Last(run).db.concerns[CONCERN].status == ConcernStatus.Submitted
  {
    var empty := EmptyDb({ADVISOR});
    AfterWriting();
    ServedIsSound({ADVISOR}, TO_THE_ADVICE);
    var db := ServeAll(empty, TO_THE_ADVICE);
    ServedOneMore(empty, TO_THE_ADVICE, UNASSIGNED);
    ServedOneMore(empty, TO_THE_ADVICE + [UNASSIGNED], APPROVED);
    hide ServeAll, KeysDiffer, KeysOf, Sound, Run, Exec, IsLastAssignment, Quiet;
    ApprovalCanLeaveSubmitted(db, ADVICE, ASSIGNMENT, ADMINISTRATOR, 0);
    ApprovalKeepsConcern(db);
    var run := SerialRunIsARun({ADVISOR}, TO_THE_APPROVAL);
  }

  lemma ApprovalKeepsConcern(db: Db)
    requires Queued(db)
    ensures var after := Serve(Serve(db, UNASSIGNED).db, APPROVED).db;
            ADVICE in after.advices && after.advices[ADVICE].concern == CONCERN && CONCERN in after.concerns
  {
    LastAssignmentEnds(db, CONCERN, ASSIGNMENT, 0);
    hide UnassignAdvisorSpec, UpdateAdviceSpec, DeleteAdviceSpec, AssignAdvisorSpec, UpdateConcernSpec, AdminSpec, HasActive;
  }

  // --- approved and rated ---

  predicate Rateable(db: Db) {
    && ADVICE in db.advices && db.advices[ADVICE].status == Approved && db.advices[ADVICE].concern == CONCERN
    && CONCERN in db.concerns && db.concerns[CONCERN].author == AUTHOR && db.concerns[CONCERN].deletedAt.None?
    && db.feedbacks == map[]
  }

  lemma ApprovingAllowsRating(db: Db)
    requires Sound(db) && Queued(db)
    ensures Rateable(Serve(db, APPROVED).db)
  {
    QueueIsWhatCanBeReviewed(db, ADVICE, ADMINISTRATOR, 0);
    hide Sound, IsLastAssignment, UnassignAdvisorSpec, UpdateAdviceSpec, DeleteAdviceSpec, AssignAdvisorSpec, UpdateConcernSpec;
    hide AdminSpec, ReviewError;
  }

  lemma RatingSubmits(db: Db)
    requires Rateable(db)
    ensures HasStatus(Serve(db, RATED).db, FEEDBACK, FeedbackStatus.Submitted)
  {
    assert !HasFeedback(db.feedbacks, ADVICE);
    hide Exec, AdminSpec;
  }

  lemma AfterRating()
    ensures HasStatus(ServeAll(EmptyDb({ADVISOR}), TO_THE_FEEDBACK), FEEDBACK, FeedbackStatus.Submitted)
    ensures KeysDiffer(TO_THE_FEEDBACK)
  {
    var empty := EmptyDb({ADVISOR});
    AfterWriting();
    ServedIsSound({ADVISOR}, TO_THE_ADVICE);
    ServedOneMore(empty, TO_THE_ADVICE, APPROVED);
    ServedOneMore(empty, TO_THE_ADVICE + [APPROVED], RATED);
    hide ServeAll, KeysDiffer, KeysOf, Serve, Sound, Queued, Rateable;
    ApprovingAllowsRating(ServeAll(empty, TO_THE_ADVICE));
    RatingSubmits(ServeAll(empty, TO_THE_ADVICE + [APPROVED]));
  }

  /** A run from the empty database in which a feedback is ARCHIVED and, one statement later, REVIEWED. */
  lemma ArchivedThenReviewed()
    ensures exists run: Trace, i: nat :: Run(run) && run[0] == Start({ADVISOR}) && GoesBack(run, i, FEEDBACK)
  {
    AfterRating();
    hide ServeAll, KeysDiffer, KeysOf, Run, Quiet, OneWay, HasStatus;
    var run := SerialRunIsARun({ADVISOR}, TO_THE_FEEDBACK);
    var longer, i := FeedbackComesBack(run, FEEDBACK, ADMINISTRATOR, 0);
  }
}
