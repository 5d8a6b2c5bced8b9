/** What holds in every interleaving, whatever the number of transactions and however they are scheduled. */
module Runs {
  import opened Common
  import opened Tables
  import opened Services
  import opened Statements
  import opened Invariants
  import opened Evolution
  import opened Transactions
  import opened Interleaving

  ghost predicate Moves(s: Sys, after: Sys) {
    exists step :: Enabled(s, step) && after == After(s, step)
  }

  /** A run from the empty database: each state is one statement of one participant after the one before. */
  ghost predicate Run(run: seq<Sys>) {
    && |run| > 0
    && (exists advisors :: run[0] == Start(advisors))
    && forall i :: 0 <= i < |run| - 1 ==> Moves(run[i], run[i + 1])
  }

  lemma {:induction false} RunIsConsistent(run: seq<Sys>, i: nat)
    requires Run(run) && i < |run|
    ensures Consistent(run[i])
  {
    hide Consistent;
    if i == 0 {
      var advisors :| run[0] == Start(advisors);
      StartIsConsistent(advisors);
    } else {
      RunIsConsistent(run, i - 1);
      assert Moves(run[i - 1], run[i - 1 + 1]);
      var step :| Enabled(run[i - 1], step) && run[i] == After(run[i - 1], step);
      StepKeeps(run[i - 1], step);
    }
  }

  /**
   Refinement. What is committed is what the finished calls and the single statements leave when
   they run one at a time in the order they finished, and every call got the reply it gets alone.
   */
  lemma EveryRunIsSerial(run: seq<Sys>, i: nat)
    requires Run(run) && i < |run|
    ensures run[i].db == Replay(EmptyDb(run[i].db.advisors), run[i].log)
    ensures Faithful(EmptyDb(run[i].db.advisors), run[i].log)
  {
    RunIsConsistent(run, i);
    hide Run, AsIfAlone, LocksMatch, KeysReserved, PlainsHold;
  }

  /** Every relation between the tables holds in every reachable state. */
  lemma EveryStateIsSound(run: seq<Sys>, i: nat)
    requires Run(run) && i < |run|
    ensures Sound(run[i].db)
  {
    EveryRunIsSerial(run, i);
    hide Run, Sound, Replay, Faithful;
    EmptyIsSound(run[i].db.advisors);
    LogKeeps(EmptyDb(run[i].db.advisors), run[i].log);
  }

  /** A step either leaves the committed tables alone or is exactly one event that can happen there. */
  lemma StepIsEvent(s: Sys, step: Step) returns (e: Event)
    requires Consistent(s) && Enabled(s, step)
    ensures || (After(s, step).db == s.db)
            || (Happens(s.db, e) && After(s, step).db == Effect(s.db, e) && After(s, step).log == s.log + [e])
  {
    e := Stated(Notify(AdviceApproved(0, 0, 0, 0)));
    hide Solo, ApplyAll, Exec, Apply, Admissible, Serial, KeysReserved, LocksMatch;
    match step
    case Advance(tid) =>
      if Next(s.db, s.open[tid]).Commit? {
        CommitIsExec(s, tid);
        e := Called(s.open[tid].call, Accepted);
      }
    case AdvancePlain(tid) =>
      if NextPlain(s.db, s.plain[tid]).Emit? {
        hide NextPlain;
        EmitIsAdmissible(s.db, s.plain[tid]);
        e := Stated(NextPlain(s.db, s.plain[tid]).write);
      }
    case Single(w) => e := Stated(w);
    case _ =>
  }

  lemma {:induction false} RunEvolves(run: seq<Sys>, i: nat, j: nat)
    requires Run(run) && i <= j < |run|
    ensures Evolves(run[i].db, run[j].db)
    decreases j - i
  {
    hide Evolves, Consistent;
    if i == j {
      EvolvesReflexive(run[i].db);
    } else {
      RunEvolves(run, i, j - 1);
      RunIsConsistent(run, j - 1);
      assert Moves(run[j - 1], run[j - 1 + 1]);
      var step :| Enabled(run[j - 1], step) && run[j] == After(run[j - 1], step);
      var e := StepIsEvent(run[j - 1], step);
      hide After, Enabled, Effect, Happens;
      if run[j].db == run[j - 1].db {
      } else {
        EventEvolves(run[j - 1].db, e);
        EvolvesTransitive(run[i].db, run[j - 1].db, run[j].db);
      }
    }
  }

  // --- version and body ---

  /** At any two moments at which an advice has the same version it has the same body. */
  lemma VersionDeterminesBody(run: seq<Sys>, i: nat, j: nat, a: Id)
    requires Run(run) && i < |run| && j < |run|
    requires a in run[i].db.advices && a in run[j].db.advices
    requires run[i].db.advices[a].version == run[j].db.advices[a].version
    ensures run[i].db.advices[a].body == run[j].db.advices[a].body
  {
    var first, last := if i <= j then i else j, if i <= j then j else i;
    RunEvolves(run, first, last);
    hide Run;
    assert AdviceEvolves(run[first].db.advices[a], run[last].db.advices[a]);
  }

  /**
   An administrator read advice `a` at moment `i`; a review with the version seen there was accepted
   between `j` and `j + 1`. From then on the advice carries that body and that administrator's decision.
   */
  lemma ReviewDecidesWhatWasRead(run: seq<Sys>, i: nat, j: nat, k: nat, call: Call)
    requires Run(run) && i <= j && j + 1 <= k < |run|
    requires call.ReviewAdvice? && call.advice in run[i].db.advices
    requires call.expectedVersion == run[i].db.advices[call.advice].version
    requires run[j + 1].log == run[j].log + [Called(call, Accepted)]
    ensures call.advice in run[k].db.advices
    ensures var read, now := run[i].db.advices[call.advice], run[k].db.advices[call.advice];
            && now.body == read.body && now.version == read.version
            && now.reviewedBy == Some(call.actor) && now.reviewedAt == Some(call.now)
            && (call.decision == Approve ==> now.status == Approved)
            && (call.decision == Reject ==> (now.status == Rejected || now.status == Deleted) && now.rejectReason == call.reason)
  {
    var a := call.advice;
    ReviewTakesEffect(run, j, call);
    RunEvolves(run, i, j);
    RunEvolves(run, j + 1, k);
    hide Run;
    assert AdviceEvolves(run[i].db.advices[a], run[j].db.advices[a]);
    assert AdviceEvolves(run[j + 1].db.advices[a], run[k].db.advices[a]);
  }

  lemma LogTellsEvent(run: seq<Sys>, j: nat, call: Call)
    requires Run(run) && j + 1 < |run|
    requires run[j + 1].log == run[j].log + [Called(call, Accepted)]
    ensures run[j + 1].db == Exec(run[j].db, call).db && Exec(run[j].db, call).reply == Accepted
  {
    RunIsConsistent(run, j);
    RunIsConsistent(run, j + 1);
    RunEvolves(run, j, j + 1);
    hide Run, AsIfAlone, LocksMatch, KeysReserved, PlainsHold, ConcernsEvolve, AssignmentsEvolve, AdvicesEvolve, HistoryEvolves;
    assert run[j + 1].log[..|run[j].log|] == run[j].log;
  }

  lemma ReviewTakesEffect(run: seq<Sys>, j: nat, call: Call)
    requires Run(run) && j + 1 < |run| && call.ReviewAdvice?
    requires run[j + 1].log == run[j].log + [Called(call, Accepted)]
    ensures call.advice in run[j].db.advices && call.advice in run[j + 1].db.advices
    ensures var before := run[j].db.advices[call.advice];
            && run[j + 1].db.advices[call.advice] == Decided(before, call.actor, call.decision, call.reason, call.now)
            && before.version == call.expectedVersion
  {
    LogTellsEvent(run, j, call);
    hide Run;
  }

  // --- the frozen question ---

  /** Once a concern has an assignment row its text is what it will always be. */
  lemma TextIsFrozen(run: seq<Sys>, i: nat, j: nat, c: Id)
    requires Run(run) && i <= j < |run|
    requires c in run[i].db.concerns && EverAssigned(run[i].db.assignments, c)
    ensures c in run[j].db.concerns && run[j].db.concerns[c].text == run[i].db.concerns[c].text
  {
    RunEvolves(run, i, j);
    hide Run;
  }

  /** Two advices on one concern, whenever they are looked at, answer one and the same text. */
  lemma AdvicesAnswerOneText(run: seq<Sys>, i: nat, j: nat, a: Id, b: Id)
    requires Run(run) && i < |run| && j < |run|
    requires a in run[i].db.advices && b in run[j].db.advices
    requires run[i].db.advices[a].concern == run[j].db.advices[b].concern
    ensures var c := run[i].db.advices[a].concern;
            c in run[i].db.concerns && c in run[j].db.concerns && run[i].db.concerns[c].text == run[j].db.concerns[c].text
    ensures EverAssignedTo(run[i].db.assignments, run[i].db.advices[a].concern, run[i].db.advices[a].advisor)
  {
    EveryStateIsSound(run, i);
    EveryStateIsSound(run, j);
    var c := run[i].db.advices[a].concern;
    AdviceMeansAssigned(run[i].db, a);
    AdviceMeansAssigned(run[j].db, b);
    hide Run, Sound;
    if i <= j { TextIsFrozen(run, i, j, c); } else { TextIsFrozen(run, j, i, c); }
  }

  lemma AdviceMeansAssigned(db: Db, a: Id)
    requires Sound(db) && a in db.advices
    ensures db.advices[a].concern in db.concerns
    ensures EverAssigned(db.assignments, db.advices[a].concern)
    ensures EverAssignedTo(db.assignments, db.advices[a].concern, db.advices[a].advisor)
  {
    hide StatusAgrees, Backed, Gapless, Revised, AssignmentSlots, AdviceSlots, Decisions, NoticesExact, FeedbackEarned;
    var i :| i in db.assignments && db.assignments[i].concern == db.advices[a].concern
             && db.assignments[i].advisor == db.advices[a].advisor;
  }

  // --- decided advice ---

  /** What a concern's owner can see of an advice stays exactly as it is. */
  lemma ApprovedIsFinal(run: seq<Sys>, i: nat, j: nat, a: Id)
    requires Run(run) && i <= j < |run|
    requires a in run[i].db.advices && run[i].db.advices[a].status == Approved
    ensures a in run[j].db.advices && run[j].db.advices[a] == run[i].db.advices[a]
  {
    RunEvolves(run, i, j);
    hide Run;
    assert AdviceEvolves(run[i].db.advices[a], run[j].db.advices[a]);
  }

  /** The status edges of a whole step. */
  lemma StepEdges(run: seq<Sys>, i: nat, c: Id)
    requires Run(run) && i + 1 < |run|
    ensures EdgesAt(run[i].db.concerns, run[i + 1].db.concerns, c)
  {
    RunIsConsistent(run, i);
    assert Moves(run[i], run[i + 1]);
    var step :| Enabled(run[i], step) && run[i + 1] == After(run[i], step);
    var e := StepIsEvent(run[i], step);
    hide Run, Consistent, After, Enabled, Effect, Happens;
    if run[i + 1].db != run[i].db { OnlyTheseEdges(run[i].db, e, c); }
  }
}
