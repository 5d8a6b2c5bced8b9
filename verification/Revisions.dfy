/** The edit history of an advice, read off the log and read off the tables. */
module Revisions {
  import opened Common
  import opened Tables
  import opened Services
  import opened Statements
  import opened Invariants
  import opened Interleaving
  import opened Runs

  /** How one event adds to the bodies of advice `a`. */
  function BodiesAfter(before: seq<Body>, e: Event, a: Id): seq<Body> {
    match e
    case Stated(w) => if w.InsertAdvice? && w.advice == a then [w.newAdvice.body] else before
    case Called(call, reply) =>
      if call.UpdateAdvice? && call.advice == a && reply == Accepted && before != []
         && !NothingNew(before[|before| - 1], call.data)
      then before + [Edited(before[|before| - 1], call.data)]
      else before
  }

  /** The bodies advice `a` has had: its first one, then each accepted edit that changed something. */
  function BodiesOf(log: seq<Event>, a: Id): seq<Body>
    decreases |log|
  {
    if log == [] then [] else BodiesAfter(BodiesOf(log[..|log| - 1], a), log[|log| - 1], a)
  }

  /** The tables hold exactly these bodies, each under its version. */
  ghost predicate Records(db: Db, a: Id, bodies: seq<Body>) {
    if a in db.advices then
      && |bodies| == db.advices[a].version
      && forall v: nat :: 1 <= v <= |bodies| ==> Revision(db.advices, db.history, a, v) == Some(bodies[v - 1])
    else bodies == []
  }

  predicate Untouched(db: Db, after: Db, a: Id) {
    && (a in db.advices <==> a in after.advices)
    && (a in db.advices ==> after.advices[a].body == db.advices[a].body && after.advices[a].version == db.advices[a].version)
  }

  ghost predicate SameSnapshots(db: Db, after: Db, a: Id) {
    forall v: nat :: ((a, v) in db.history <==> (a, v) in after.history)
                     && ((a, v) in db.history ==> after.history[(a, v)] == db.history[(a, v)])
  }

  lemma QuietCall(db: Db, call: Call, a: Id)
    requires !(call.UpdateAdvice? && call.advice == a) || Exec(db, call).reply != Accepted
             || (a in db.advices && NothingNew(db.advices[a].body, call.data))
    ensures Untouched(db, Exec(db, call).db, a) && SameSnapshots(db, Exec(db, call).db, a)
  {
    hide HasActive, AssignmentSlotTaken, EverAssigned;
    match call
    case UpdateAdvice(_, _, _, _) => EditQuiet(db, call, a);
    case DeleteAdvice(_, _) =>
    case ReviewAdvice(_, _, _, _, _, _) => ReviewQuiet(db, call, a);
    case AssignAdvisor(_, _, _, _, _, _) => assert Exec(db, call).db.advices == db.advices;
    case UnassignAdvisor(_, _, _) => assert Exec(db, call).db.advices == db.advices;
    case UpdateConcern(_, _, _) => assert Exec(db, call).db.advices == db.advices;
  }

  lemma EditQuiet(db: Db, call: Call, a: Id)
    requires call.UpdateAdvice?
    requires call.advice != a || Exec(db, call).reply != Accepted
             || (a in db.advices && NothingNew(db.advices[a].body, call.data))
    ensures Untouched(db, Exec(db, call).db, a) && SameSnapshots(db, Exec(db, call).db, a)
  {
    NothingNewKeepsBody(db, call);
    hide NothingNew, Edited;
  }

  lemma ReviewQuiet(db: Db, call: Call, a: Id)
    requires call.ReviewAdvice?
    ensures Untouched(db, Exec(db, call).db, a) && Exec(db, call).db.history == db.history
  {
    if call.advice in db.advices { DecidedKeepsText(db.advices[call.advice], call.actor, call.decision, call.reason, call.now); }
    hide ReviewError, Decided, UpdateAdviceSpec, DeleteAdviceSpec, AssignAdvisorSpec, UnassignAdvisorSpec, UpdateConcernSpec;
  }

  lemma DecidedKeepsText(a: Advice, actor: Id, decision: Decision, reason: string, now: nat)
    ensures Decided(a, actor, decision, reason, now).body == a.body
    ensures Decided(a, actor, decision, reason, now).version == a.version
  {}

  lemma NothingNewKeepsBody(db: Db, call: Call)
    requires call.UpdateAdvice?
    ensures call.advice in db.advices && NothingNew(db.advices[call.advice].body, call.data) ==>
              Untouched(db, Exec(db, call).db, call.advice) && Exec(db, call).db.history == db.history
  {}

  lemma QuietStatement(db: Db, w: Write, a: Id)
    requires Admissible(db, w) && !(w.InsertAdvice? && w.advice == a)
    ensures Untouched(db, Apply(db, w), a) && SameSnapshots(db, Apply(db, w), a)
  {
    hide AdviceSlotTaken, EverAssignedTo, HasFeedback;
  }

  lemma RecordsQuietly(db: Db, after: Db, a: Id, bodies: seq<Body>)
    requires Records(db, a, bodies) && Untouched(db, after, a) && SameSnapshots(db, after, a)
    ensures Records(after, a, bodies)
  {
    if a in db.advices {
      forall v: nat | 1 <= v <= |bodies|
        ensures Revision(after.advices, after.history, a, v) == Some(bodies[v - 1])
      {
        assert Revision(db.advices, db.history, a, v) == Some(bodies[v - 1]);
      }
    }
  }

  lemma RecordsRevision(db: Db, call: Call, bodies: seq<Body>)
    requires call.UpdateAdvice? && Exec(db, call).reply == Accepted
    requires call.advice in db.advices && !NothingNew(db.advices[call.advice].body, call.data)
    requires Records(db, call.advice, bodies) && db.advices[call.advice].version >= 1
    ensures bodies != [] && bodies[|bodies| - 1] == db.advices[call.advice].body
    ensures Records(Exec(db, call).db, call.advice, bodies + [Edited(bodies[|bodies| - 1], call.data)])
  {
    var a := call.advice;
    hide NothingNew, Edited;
    assert Revision(db.advices, db.history, a, |bodies|) == Some(bodies[|bodies| - 1]);
    var after, more := Exec(db, call).db, bodies + [Edited(bodies[|bodies| - 1], call.data)];
    forall v: nat | 1 <= v <= |more|
      ensures Revision(after.advices, after.history, a, v) == Some(more[v - 1])
    {
      if v < |bodies| {
        assert Revision(db.advices, db.history, a, v) == Some(bodies[v - 1]);
      }
    }
  }

  /**
   Replaying the accepted edits from the first body reproduces every snapshot and the current row:
   version `v` carries the `v`-th body of the log, and the version counts them all.
   */
  lemma {:induction false} HistoryIsTheEdits(advisors: set<Id>, log: seq<Event>, a: Id)
    requires Faithful(EmptyDb(advisors), log)
    ensures Records(Replay(EmptyDb(advisors), log), a, BodiesOf(log, a))
    decreases |log|
  {
    if log != [] {
      var init, e := log[..|log| - 1], log[|log| - 1];
      HistoryIsTheEdits(advisors, init, a);
      EmptyIsSound(advisors);
      hide Sound;
      LogKeeps(EmptyDb(advisors), init);
      var db, bodies := Replay(EmptyDb(advisors), init), BodiesOf(init, a);
      hide Replay, Faithful, Records;
      LastEvent(db, e, a, bodies);
      assert Replay(EmptyDb(advisors), log) == Effect(db, e) by { LastOfReplay(EmptyDb(advisors), log); }
    }
  }

  lemma LastOfReplay(db: Db, log: seq<Event>)
    requires log != []
    ensures Replay(db, log) == Effect(Replay(db, log[..|log| - 1]), log[|log| - 1])
  {}

  lemma FirstVersion(db: Db, a: Id)
    requires Sound(db)
    ensures a in db.advices ==> db.advices[a].version >= 1
    ensures a !in db.advices ==> forall v: nat :: (a, v) !in db.history
  {
    hide StatusAgrees, Backed, AssignmentSlots, AdviceSlots, NoticesExact, FeedbackEarned, Settled;
  }

  lemma LastEvent(db: Db, e: Event, a: Id, bodies: seq<Body>)
    requires Sound(db) && Happens(db, e) && Records(db, a, bodies)
    ensures Records(Effect(db, e), a, BodiesAfter(bodies, e, a))
  {
    FirstVersion(db, a);
    hide Sound, NothingNew, Edited;
    match e
    case Stated(w) =>
      if w.InsertAdvice? && w.advice == a {
      } else {
        hide Apply, Admissible;
        QuietStatement(db, w, a);
        RecordsQuietly(db, Apply(db, w), a, bodies);
      }
    case Called(call, _) => LastCall(db, call, a, bodies);
  }

  lemma LastCall(db: Db, call: Call, a: Id, bodies: seq<Body>)
    requires Records(db, a, bodies) && (a in db.advices ==> db.advices[a].version >= 1)
    ensures Records(Exec(db, call).db, a, BodiesAfter(bodies, Called(call, Exec(db, call).reply), a))
  {
    hide Exec, NothingNew, Edited;
    if a in db.advices {
      assert Revision(db.advices, db.history, a, |bodies|) == Some(bodies[|bodies| - 1]);
    }
    if call.UpdateAdvice? && call.advice == a && Exec(db, call).reply == Accepted && a in db.advices
       && !NothingNew(db.advices[a].body, call.data) {
      RecordsRevision(db, call, bodies);
    } else {
      if call.UpdateAdvice? && call.advice == a { MissingIsRefused(db, call); }
      QuietCall(db, call, a);
      RecordsQuietly(db, Exec(db, call).db, a, bodies);
    }
  }

  lemma MissingIsRefused(db: Db, call: Call)
    requires call.UpdateAdvice?
    ensures call.advice !in db.advices ==> Exec(db, call).reply == Refused(NotFound)
  {}

  /** The unique (advice, version) index never rejects an edit, and a review never misses its concern. */
  lemma NoCallFails(db: Db, call: Call)
    requires Sound(db)
    ensures Exec(db, call).reply != Refused(ServerError)
  {
    hide StatusAgrees, Backed, Revised, AssignmentSlots, AdviceSlots, NoticesExact, FeedbackEarned;
    hide NothingNew, Edited, HasActive, AssignmentSlotTaken, EverAssigned;
    match call
    case UpdateAdvice(_, _, _, _) =>
    case DeleteAdvice(_, _) =>
    case ReviewAdvice(_, _, _, _, _, _) =>
    case AssignAdvisor(_, _, _, _, _, _) =>
    case UnassignAdvisor(_, _, _) =>
    case UpdateConcern(_, _, _) =>
  }

  /** In every run, at every moment, the history of an advice is its accepted edits, whatever ran beside them. */
  lemma RunHistoryIsTheEdits(run: seq<Sys>, i: nat, a: Id)
    requires Run(run) && i < |run|
    ensures Records(run[i].db, a, BodiesOf(run[i].log, a))
  {
    EveryRunIsSerial(run, i);
    hide Run, Replay, Faithful, Records;
    HistoryIsTheEdits(run[i].db.advisors, run[i].log, a);
  }
}
