/** The one-way flow of a feedback: what interleaved runs keep of it, and when they lose it. */
module FeedbackRuns {
  import opened Always
  import opened Common
  import opened Tables
  import opened Services
  import opened Statements
  import opened Transactions
  import opened Interleaving
  import opened Requests
  import opened Runs
  import opened SerialRuns

  // --- the transitions of one feedback, read off the log ---

  function TransitionsAfter(before: seq<FeedbackStatus>, e: Event, f: Id): seq<FeedbackStatus> {
    match e
    case Called(_, _) => before
    case Stated(w) =>
      if w.InsertFeedback? && w.feedback == f then [w.newFeedback.status]
      else if w.SetFeedback? && w.feedback == f then before + [w.feedbackStatus] else before
  }

  /** The statuses written to feedback `f`, in order. */
  function TransitionsOf(log: seq<Event>, f: Id): seq<FeedbackStatus>
    decreases |log|
  {
    if log == [] then [] else TransitionsAfter(TransitionsOf(log[..|log| - 1], f), log[|log| - 1], f)
  }

  lemma OneMoreTransition(log: seq<Event>, e: Event, f: Id)
    ensures TransitionsOf(log + [e], f) == TransitionsAfter(TransitionsOf(log, f), e, f)
  {
    assert (log + [e])[..|log|] == log;
  }

  /** From SUBMITTED, and each along an edge of the transition table. */
  predicate IsPath(ts: seq<FeedbackStatus>) {
    ts != [] ==>
      if |ts| == 1 then ts[0] == FeedbackStatus.Submitted
      else IsPath(ts[..|ts| - 1]) && FeedbackEdge(ts[|ts| - 2], ts[|ts| - 1])
  }

  lemma PathOneMore(ts: seq<FeedbackStatus>, target: FeedbackStatus)
    requires ts != []
    ensures IsPath(ts + [target]) <==> IsPath(ts) && FeedbackEdge(ts[|ts| - 1], target)
  {
    assert (ts + [target])[..|ts|] == ts;
  }

  /** The row has the status written last. */
  predicate EndsIn(feedbacks: Feedbacks, f: Id, ts: seq<FeedbackStatus>) {
    if f in feedbacks then ts != [] && ts[|ts| - 1] == feedbacks[f].status else ts == []
  }

  lemma StatementEnds(db: Db, w: Write, f: Id, ts: seq<FeedbackStatus>)
    requires Admissible(db, w) && EndsIn(db.feedbacks, f, ts)
    ensures EndsIn(Apply(db, w).feedbacks, f, TransitionsAfter(ts, Stated(w), f))
  {
    hide AdviceSlotTaken, EverAssignedTo, HasFeedback;
  }

  lemma {:induction false} StatusIsLast(advisors: set<Id>, log: seq<Event>, f: Id)
    requires Faithful(EmptyDb(advisors), log)
    ensures EndsIn(Replay(EmptyDb(advisors), log).feedbacks, f, TransitionsOf(log, f))
    decreases |log|
  {
    if log != [] {
      var init := log[..|log| - 1];
      StatusIsLast(advisors, init, f);
      hide Exec, Admissible, Apply, EndsIn;
      match log[|log| - 1]
      case Called(call, _) => CallsLeaveFeedbacks(Replay(EmptyDb(advisors), init), call);
      case Stated(w) => StatementEnds(Replay(EmptyDb(advisors), init), w, f, TransitionsOf(init, f));
    }
  }

  lemma StatusIsWrittenLast(s: Sys, f: Id)
    requires Consistent(s)
    ensures EndsIn(s.db.feedbacks, f, TransitionsOf(s.log, f))
  {
    StatusIsLast(s.db.advisors, s.log, f);
    hide EndsIn;
  }

  // --- one step ---

  /** Every feedback went from SUBMITTED along the edges, one at a time. */
  ghost predicate OneWay(log: seq<Event>) { forall f :: IsPath(TransitionsOf(log, f)) }

  /** The write of a transition that finds a status other than the one its check read. */
  predicate FindsOther(s: Sys, step: Step) {
    && step.AdvancePlain? && step.tid in s.plain && s.plain[step.tid].Moving? && s.plain[step.tid].pc >= 1
    && s.plain[step.tid].feedback in s.db.feedbacks
    && s.db.feedbacks[s.plain[step.tid].feedback].status != s.plain[step.tid].read
  }

  ghost predicate Crosses(s: Sys, after: Sys) {
    exists step :: Enabled(s, step) && after == After(s, step) && FindsOther(s, step)
  }

  predicate WritesFeedback(e: Event) { e.Stated? && (e.write.InsertFeedback? || e.write.SetFeedback?) }

  lemma OtherEventsLeave(log: seq<Event>, e: Event)
    requires OneWay(log) && !WritesFeedback(e)
    ensures OneWay(log + [e])
  {
    forall f
      ensures IsPath(TransitionsOf(log + [e], f))
    {
      OneMoreTransition(log, e, f);
      assert IsPath(TransitionsOf(log, f));
      hide TransitionsOf, IsPath;
    }
  }

  lemma FirstStatus(log: seq<Event>, f: Id, row: Feedback)
    requires OneWay(log) && row.status == FeedbackStatus.Submitted
    ensures OneWay(log + [Stated(InsertFeedback(f, row))])
  {
    assert IsPath([row.status]);
    hide IsPath, TransitionsOf;
    forall g
      ensures IsPath(TransitionsOf(log + [Stated(InsertFeedback(f, row))], g))
    {
      OneMoreTransition(log, Stated(InsertFeedback(f, row)), g);
      assert IsPath(TransitionsOf(log, g));
    }
  }

  lemma NextStatus(log: seq<Event>, w: Write)
    requires OneWay(log) && w.SetFeedback? && TransitionsOf(log, w.feedback) != []
    ensures var ts := TransitionsOf(log, w.feedback);
            OneWay(log + [Stated(w)]) <==> FeedbackEdge(ts[|ts| - 1], w.feedbackStatus)
  {
    var ts := TransitionsOf(log, w.feedback);
    assert IsPath(ts);
    OneMoreTransition(log, Stated(w), w.feedback);
    PathOneMore(ts, w.feedbackStatus);
    hide TransitionsOf, IsPath;
    if FeedbackEdge(ts[|ts| - 1], w.feedbackStatus) {
      forall g
        ensures IsPath(TransitionsOf(log + [Stated(w)], g))
      {
        OneMoreTransition(log, Stated(w), g);
        assert IsPath(TransitionsOf(log, g));
      }
    }
  }

  lemma WhatItWrites(s: Sys, tid: Tid)
    requires Consistent(s) && Enabled(s, AdvancePlain(tid)) && s.plain[tid].Moving? && s.plain[tid].pc >= 1
    ensures var p := s.plain[tid];
            && FeedbackEdge(p.read, p.target) && p.feedback in s.db.feedbacks
            && NextPlain(s.db, p).Emit? && NextPlain(s.db, p).write.SetFeedback?
            && NextPlain(s.db, p).write.feedback == p.feedback && NextPlain(s.db, p).write.feedbackStatus == p.target
            && After(s, AdvancePlain(tid)).log == s.log + [Stated(NextPlain(s.db, p).write)]
  {
    assert StillTrue(s.db, s.plain[tid]);
    hide Consistent, Apply;
  }

  /** What it writes, and over what, said without the tables. */
  lemma WritesOver(s: Sys, tid: Tid) returns (w: Write)
    requires Consistent(s) && Enabled(s, AdvancePlain(tid)) && s.plain[tid].Moving? && s.plain[tid].pc >= 1
    ensures w.SetFeedback? && After(s, AdvancePlain(tid)).log == s.log + [Stated(w)]
    ensures var ts := TransitionsOf(s.log, w.feedback);
            ts != [] && (FeedbackEdge(ts[|ts| - 1], w.feedbackStatus) <==> !FindsOther(s, AdvancePlain(tid)))
  {
    var p := s.plain[tid];
    w := NextPlain(s.db, p).write;
    WhatItWrites(s, tid);
    StatusIsWrittenLast(s, p.feedback);
    EdgeIff(s.db.feedbacks[p.feedback].status, p.read, p.target);
    hide Consistent, Enabled, After, NextPlain, FeedbackEdge, TransitionsOf;
  }

  lemma MovingIsOneWayIff(s: Sys, tid: Tid)
    requires Consistent(s) && Enabled(s, AdvancePlain(tid)) && s.plain[tid].Moving? && s.plain[tid].pc >= 1 && OneWay(s.log)
    ensures OneWay(After(s, AdvancePlain(tid)).log) <==> !FindsOther(s, AdvancePlain(tid))
  {
    hide Consistent, OneWay, TransitionsOf, After, NextPlain, FeedbackEdge, FindsOther;
    var w := WritesOver(s, tid);
    hide Enabled;
    NextStatus(s.log, w);
  }

  /** Every target has one source. */
  lemma EdgeIff(found: FeedbackStatus, read: FeedbackStatus, target: FeedbackStatus)
    requires FeedbackEdge(read, target)
    ensures FeedbackEdge(found, target) <==> found == read
  {}

  lemma PlainIsOneWayIff(s: Sys, tid: Tid)
    requires Consistent(s) && Enabled(s, AdvancePlain(tid)) && OneWay(s.log)
    ensures OneWay(After(s, AdvancePlain(tid)).log) <==> !FindsOther(s, AdvancePlain(tid))
  {
    var p := s.plain[tid];
    if p.Moving? && p.pc >= 1 {
      MovingIsOneWayIff(s, tid);
    } else {
      hide Consistent, OneWay, Apply, AssignmentSlotTaken, AdviceSlotTaken, HasFeedback, MayRate, NewAdvice;
      match NextPlain(s.db, p) {
        case Emit(w) =>
          if w.InsertFeedback? { FirstStatus(s.log, w.feedback, w.newFeedback); } else { OtherEventsLeave(s.log, Stated(w)); }
        case _ =>
      }
    }
  }

  lemma StepIsOneWayIff(s: Sys, step: Step)
    requires Consistent(s) && Enabled(s, step) && OneWay(s.log)
    ensures OneWay(After(s, step).log) <==> !FindsOther(s, step)
  {
    hide Consistent, OneWay, Next, NextPlain, Apply, ApplyAll, Release, FindsOther;
    match step
    case AdvancePlain(tid) => PlainIsOneWayIff(s, tid);
    case Advance(tid) =>
      NoPlainWrite(s, step);
      match Next(s.db, s.open[tid]) {
        case Raise(e) => OtherEventsLeave(s.log, Called(s.open[tid].call, Refused(e)));
        case Commit => OtherEventsLeave(s.log, Called(s.open[tid].call, Accepted));
        case Go(_) =>
      }
    case Single(w) => NoPlainWrite(s, step); OtherEventsLeave(s.log, Stated(w));
    case _ => NoPlainWrite(s, step);
  }

  lemma NoPlainWrite(s: Sys, step: Step)
    requires !step.AdvancePlain?
    ensures !FindsOther(s, step)
  {}

  lemma AnyStepIsOneWayIff(s: Sys, after: Sys)
    requires Consistent(s) && Moves(s, after) && OneWay(s.log)
    ensures OneWay(after.log) <==> !Crosses(s, after)
  {
    hide Consistent, OneWay, Enabled, After, FindsOther;
    forall step | Enabled(s, step) && after == After(s, step)
      ensures OneWay(after.log) <==> !FindsOther(s, step)
    {
      StepIsOneWayIff(s, step);
    }
  }

  // --- whole runs ---

  /**
   Every feedback goes from SUBMITTED along the transition table all through a run exactly when no
   transition in it writes over a status other than the one it had read.
   */
  lemma OneWayIff(run: seq<Sys>)
    requires Run(run)
    ensures (forall i :: 0 <= i < |run| ==> OneWay(run[i].log)) <==>
            (forall i :: 0 <= i < |run| - 1 ==> !Crosses(run[i], run[i + 1]))
  {
    assert OneWay(run[0].log);
    hide OneWay, Crosses, Consistent;
    forall i | 0 <= i < |run| - 1 && OneWay(run[i].log)
      ensures OneWay(run[i + 1].log) <==> !Crosses(run[i], run[i + 1])
    {
      RunIsConsistent(run, i);
      assert Moves(run[i], run[i + 1]);
      hide Moves;
      AnyStepIsOneWayIff(run[i], run[i + 1]);
    }
    hide Run;
    GoodUntilABadStep(run, (s: Sys) => OneWay(s.log), Crosses);
  }

  // --- and it can be lost ---

  function Transition(f: Id, actor: Id, target: FeedbackStatus, now: nat): Plain {
    Moving(f, actor, target, None, now, FeedbackStatus.Submitted, 0)
  }

  ghost predicate OnlyWaiting(s: Sys, p: Plain) { s.open == map[] && s.locks == map[] && s.plain == map[0 := p] }

  predicate HasStatus(db: Db, f: Id, status: FeedbackStatus) { f in db.feedbacks && db.feedbacks[f].status == status }

  predicate GoesBack(run: seq<Sys>, i: nat, f: Id) {
    i + 1 < |run| && HasStatus(run[i].db, f, Archived) && HasStatus(run[i + 1].db, f, Reviewed)
  }

  /** The event such a transition leaves in the log. */
  function Recorded(f: Id, actor: Id, target: FeedbackStatus, now: nat): Event {
    Stated(SetFeedback(f, target, if target == Reviewed then Some((actor, now)) else None, None))
  }

  /** A transition that opens, checks and waits. */
  lemma Checks(run: Trace, f: Id, actor: Id, now: nat) returns (longer: Trace, late: Plain)
    requires Run(run) && Quiet(Last(run)) && HasStatus(Last(run).db, f, FeedbackStatus.Submitted)
    ensures Run(longer) && run <= longer && OnlyWaiting(Last(longer), late)
    ensures Last(longer).db == Last(run).db && Last(longer).log == Last(run).log
    ensures late == Moving(f, actor, Reviewed, None, now, FeedbackStatus.Submitted, 1)
  {
    hide Run;
    var p := Transition(f, actor, Reviewed, now);
    late := Moving(f, actor, Reviewed, None, now, FeedbackStatus.Submitted, 1);
    assert Enabled(Last(run), OpenPlain(0, p));
    longer := Continued(run, OpenPlain(0, p));
    assert OnlyWaiting(Last(longer), p);
    assert Enabled(Last(longer), AdvancePlain(0));
    longer := Continued(longer, AdvancePlain(0));
    assert Last(longer).plain == map[0 := late];
  }

  /** A whole transition beside a waiting one. */
  lemma PassesBy(run: Trace, late: Plain, f: Id, actor: Id, target: FeedbackStatus, now: nat) returns (longer: Trace)
    requires Run(run) && OnlyWaiting(Last(run), late) && f in Last(run).db.feedbacks
    requires FeedbackEdge(Last(run).db.feedbacks[f].status, target)
    ensures Run(longer) && run <= longer && OnlyWaiting(Last(longer), late) && HasStatus(Last(longer).db, f, target)
    ensures Last(longer).log == Last(run).log + [Recorded(f, actor, target, now)]
  {
    hide Run;
    var p := Transition(f, actor, target, now);
    var checked := Moving(f, actor, target, None, now, Last(run).db.feedbacks[f].status, 1);
    assert Enabled(Last(run), OpenPlain(1, p));
    longer := Continued(run, OpenPlain(1, p));
    assert Last(longer).plain == map[0 := late, 1 := p] && Last(longer).db == Last(run).db;
    assert Enabled(Last(longer), AdvancePlain(1));
    longer := Continued(longer, AdvancePlain(1));
    assert Last(longer).plain == map[0 := late, 1 := checked] && Last(longer).db == Last(run).db;
    longer := Writes(longer, late, checked);
  }

  lemma Writes(run: Trace, late: Plain, checked: Plain) returns (longer: Trace)
    requires Run(run) && Last(run).open == map[] && Last(run).locks == map[] && Last(run).plain == map[0 := late, 1 := checked]
    requires checked.Moving? && checked.pc == 1 && checked.feedback in Last(run).db.feedbacks
    requires checked.memo == None
    ensures Run(longer) && run <= longer && OnlyWaiting(Last(longer), late)
    ensures HasStatus(Last(longer).db, checked.feedback, checked.target)
    ensures Last(longer).log == Last(run).log + [Recorded(checked.feedback, checked.actor, checked.target, checked.now)]
  {
    hide Run;
    assert Enabled(Last(run), AdvancePlain(1));
    longer := Continued(run, AdvancePlain(1));
    assert Last(longer).plain == map[0 := late];
  }

  /**
   Every run that ends quietly with a feedback that is SUBMITTED goes on with three transitions of it, each
   along the table by what it read, and nothing else: to REVIEWED, to ARCHIVED, and back to REVIEWED.
   */
  lemma FeedbackComesBack(run: Trace, f: Id, actor: Id, now: nat) returns (longer: Trace, i: nat)
    requires Run(run) && Quiet(Last(run)) && HasStatus(Last(run).db, f, FeedbackStatus.Submitted)
    ensures Run(longer) && run <= longer && |run| <= i && GoesBack(longer, i, f)
    ensures Last(longer).log == Last(run).log + [Recorded(f, actor, Reviewed, now), Recorded(f, actor, Archived, now),
                                                 Recorded(f, actor, Reviewed, now)]
    ensures !forall j :: 0 <= j < |longer| ==> OneWay(longer[j].log)
  {
    hide Run, Quiet, Moves, OneWay;
    var waiting, late := Checks(run, f, actor, now);
    waiting := PassesBy(waiting, late, f, actor, Reviewed, now);
    waiting := PassesBy(waiting, late, f, actor, Archived, now);
    i := |waiting| - 1;
    longer := WritesLate(waiting, late);
    assert Crosses(longer[i], longer[i + 1]);
    OneWayIff(longer);
  }

  lemma WritesLate(run: Trace, late: Plain) returns (longer: Trace)
    requires Run(run) && OnlyWaiting(Last(run), late)
    requires late.Moving? && late.pc == 1 && late.read == FeedbackStatus.Submitted && late.target == Reviewed
    requires HasStatus(Last(run).db, late.feedback, Archived) && late.memo == None
    ensures Run(longer) && longer == run + [Last(longer)]
    ensures Last(longer).log == Last(run).log + [Recorded(late.feedback, late.actor, late.target, late.now)]
    ensures HasStatus(Last(longer).db, late.feedback, Reviewed) && Crosses(Last(run), Last(longer))
  {
    hide Run;
    assert Enabled(Last(run), AdvancePlain(0));
    longer := Continued(run, AdvancePlain(0));
    assert FindsOther(Last(run), AdvancePlain(0));
  }
}
