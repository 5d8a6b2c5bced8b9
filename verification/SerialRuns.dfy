/** One request after the other is a schedule too: every serial run is a run. */
module SerialRuns {
  import opened Common
  import opened Tables
  import opened Services
  import opened Statements
  import opened Transactions
  import opened Interleaving
  import opened Runs
  import opened Waiting
  import opened Requests

  ghost predicate Quiet(s: Sys) { s.open == map[] && s.locks == map[] && s.plain == map[] }

  type Trace = run: seq<Sys> | |run| > 0 witness [Start({})]

  function Last(run: Trace): Sys { run[|run| - 1] }

  /** One step more. */
  lemma Continued(run: Trace, step: Step) returns (longer: Trace)
    requires Run(run) && Enabled(Last(run), step)
    ensures Run(longer) && longer == run + [After(Last(run), step)]
  {
    hide Enabled, After;
    longer := run + [After(Last(run), step)];
    forall i | 0 <= i < |longer| - 1
      ensures Moves(longer[i], longer[i + 1])
    {
      if i < |run| - 1 { assert Moves(run[i], run[i + 1]); }
    }
  }

  lemma {:induction false} Driven(run: Trace, schedule: seq<Tid>, end: Sys) returns (longer: Trace)
    requires Run(run) && Drives(Last(run), schedule, end)
    ensures Run(longer) && Last(longer) == end && longer[0] == run[0]
    decreases |schedule|
  {
    hide Run, Enabled, After;
    if schedule == [] {
      longer := run;
    } else {
      var one := Continued(run, Advance(schedule[0]));
      longer := Driven(one, schedule[1..], end);
    }
  }

  // --- a locking call ---

  lemma CallAlone(run: Trace, call: Call) returns (longer: Trace)
    requires Run(run) && Quiet(Last(run)) && (call.AssignAdvisor? ==> call.newId !in Last(run).used)
    ensures Run(longer) && Quiet(Last(longer)) && longer[0] == run[0]
    ensures Last(longer).db == Exec(Last(run).db, call).db
    ensures Last(longer).used == Last(run).used + if call.AssignAdvisor? then {call.newId} else {}
  {
    RunIsConsistent(run, |run| - 1);
    var s := Last(run);
    StepKeeps(s, OpenCall(0, call));
    var started := Continued(run, OpenCall(0, call));
    var begun := Last(started);
    assert begun.open == map[0 := Begin(call)] && begun.db == s.db && begun.locks == map[] && begun.plain == map[];
    assert Unhindered(begun, 0);
    hide Run, Consistent, Unhindered, Drives, Exec;
    var schedule, end := FinishOne(begun, 0);
    longer := Driven(started, schedule, end);
    NothingHeld(end);
  }

  lemma NothingHeld(s: Sys)
    requires Consistent(s) && s.open == map[]
    ensures s.locks == map[]
  {
    hide AsIfAlone, KeysReserved, PlainsHold, Serial;
  }

  // --- a call without locks ---

  /** What such a call does when its statements follow each other. */
  function Straight(db: Db, p: Plain): Db
    decreases 2 - p.pc
  {
    match NextPlain(db, p)
    case Continue => Straight(db, Resumed(db, p))
    case Drop => db
    case Emit(w) => Apply(db, w)
  }

  lemma {:induction false} FinishPlain(run: Trace, p: Plain) returns (longer: Trace)
    requires Run(run) && Last(run).open == map[] && Last(run).locks == map[] && Last(run).plain == map[0 := p]
    ensures Run(longer) && Quiet(Last(longer)) && longer[0] == run[0]
    ensures Last(longer).db == Straight(Last(run).db, p) && Last(longer).used == Last(run).used
    decreases 2 - p.pc
  {
    hide Run, Apply;
    assert Enabled(Last(run), AdvancePlain(0));
    var next := Continued(run, AdvancePlain(0));
    if NextPlain(Last(run).db, p).Continue? {
      assert Last(next).plain == map[0 := Resumed(Last(run).db, p)];
      assert p.pc < 2;
      hide NextPlain, After;
      longer := FinishPlain(next, Resumed(Last(run).db, p));
    } else {
      longer := next;
      assert Last(next).plain == map[];
    }
  }

  /** The unlocked call that serves a request. */
  function JobOf(r: Request): Plain
    requires r.CreateAdvice? || r.Withdraw? || r.CreateFeedback? || r.TransitionFeedback?
  {
    match r
    case CreateAdvice(newId, concern, advisor, data, submit, now) => Authoring(newId, concern, advisor, data, submit, now, 0)
    case Withdraw(user, concern, now) => Withdrawing(user, concern, now, 0)
    case CreateFeedback(newId, advice, author, score, content) => Rating(newId, advice, author, score, content, 0)
    case TransitionFeedback(f, actor, target, memo, now) => Moving(f, actor, target, memo, now, FeedbackStatus.Submitted, 0)
  }

  lemma StraightIsServed(db: Db, r: Request)
    requires r.CreateAdvice? || r.Withdraw? || r.CreateFeedback? || r.TransitionFeedback?
    ensures Straight(db, JobOf(r)) == Serve(db, r).db
  {
    hide AssignmentSlotTaken, AdviceSlotTaken, HasFeedback, NewAdvice, NewFeedback, Exec, AdminSpec;
    match r
    case CreateAdvice(_, _, _, _, _, _) => AuthoringIsServed(db, r);
    case Withdraw(_, _, _) => assert JobOf(r).Withdrawing?;
    case CreateFeedback(_, _, _, _, _) => assert JobOf(r).Rating?;
    case TransitionFeedback(_, _, _, _, _) => assert JobOf(r).Moving?;
  }

  lemma AuthoringIsServed(db: Db, r: Request)
    requires r.CreateAdvice?
    ensures Straight(db, JobOf(r)) == CreateAdviceSpec(db, r.newId, r.concern, r.advisor, r.data, r.submit, r.now).db
  {
    hide AssignmentSlotTaken, AdviceSlotTaken, NewAdvice;
    var job := JobOf(r);
    if NextPlain(db, job).Continue? {
      var second := Resumed(db, job);
      assert Straight(db, job) == Straight(db, second);
    }
  }

  lemma JobAlone(run: Trace, r: Request) returns (longer: Trace)
    requires Run(run) && Quiet(Last(run)) && (r.CreateAdvice? || r.Withdraw? || r.CreateFeedback? || r.TransitionFeedback?)
    ensures Run(longer) && Quiet(Last(longer)) && longer[0] == run[0]
    ensures Last(longer).db == Serve(Last(run).db, r).db && Last(longer).used == Last(run).used
  {
    hide Run, Serve, Straight;
    assert Enabled(Last(run), OpenPlain(0, JobOf(r)));
    var started := Continued(run, OpenPlain(0, JobOf(r)));
    assert Last(started).plain == map[0 := JobOf(r)];
    longer := FinishPlain(started, JobOf(r));
    StraightIsServed(Last(run).db, r);
  }

  // --- single statements ---

  lemma ConcernAlone(run: Trace, r: Request) returns (longer: Trace)
    requires Run(run) && Quiet(Last(run)) && r.CreateConcern?
    ensures Run(longer) && Quiet(Last(longer)) && longer[0] == run[0]
    ensures Last(longer).db == Serve(Last(run).db, r).db && Last(longer).used == Last(run).used
  {
    hide Run;
    if r.newId in Last(run).db.concerns {
      longer := run;
    } else {
      AcceptedIsStatement(Last(run).db, r);
      assert Enabled(Last(run), Single(FinalWrite(Last(run).db, r)));
      longer := Continued(run, Single(FinalWrite(Last(run).db, r)));
    }
  }

  lemma {:induction false} AdminAlone(run: Trace, action: AdminAction, selected: set<Id>) returns (longer: Trace)
    requires Run(run) && Quiet(Last(run))
    ensures Run(longer) && Quiet(Last(longer)) && longer[0] == run[0]
    ensures Last(longer).db == AdminSpec(Last(run).db, action, selected) && Last(longer).used == Last(run).used
    decreases |selected|
  {
    hide Run, Quiet;
    if selected == {} {
      longer := run;
    } else {
      var c :| c in selected;
      var rest := selected - {c};
      assert rest + {c} == selected;
      OneRowMore(Last(run).db, action, rest, c);
      hide AdminSpec;
      longer := AdminAlone(run, action, rest);
      longer := RowAlone(longer, action, c);
    }
  }

  lemma RowAlone(run: Trace, action: AdminAction, c: Id) returns (longer: Trace)
    requires Run(run) && Quiet(Last(run))
    ensures Run(longer) && Quiet(Last(longer)) && longer[0] == run[0]
    ensures Last(longer).db == AdminSpec(Last(run).db, action, {c}) && Last(longer).used == Last(run).used
  {
    hide Run, AdminSpec;
    var db := Last(run).db;
    if c in db.concerns && Passes(action, db.concerns[c]) {
      OneRow(db, action, c);
      assert Enabled(Last(run), Single(RowWrite(action, c)));
      longer := Continued(run, Single(RowWrite(action, c)));
    } else {
      NoRow(db, action, c);
      longer := run;
    }
  }

  // --- whole requests, and many of them ---

  /** The key a request takes from the id supply for an assignment. */
  function KeyOf(r: Request): set<Id> { if r.Locking? && r.call.AssignAdvisor? then {r.call.newId} else {} }

  lemma ServedAlone(run: Trace, r: Request) returns (longer: Trace)
    requires Run(run) && Quiet(Last(run)) && KeyOf(r) !! Last(run).used
    ensures Run(longer) && Quiet(Last(longer)) && longer[0] == run[0]
    ensures Last(longer).db == Serve(Last(run).db, r).db && Last(longer).used == Last(run).used + KeyOf(r)
  {
    hide Run, Quiet, Exec, AdminSpec;
    match r
    case Locking(call) => longer := CallAlone(run, call);
    case CreateConcern(_, _, _) => longer := ConcernAlone(run, r);
    case Admin(action, selected) => longer := AdminAlone(run, action, selected);
    case _ => longer := JobAlone(run, r);
  }

  function ServeAll(db: Db, rs: seq<Request>): Db
    decreases |rs|
  {
    if rs == [] then db else Serve(ServeAll(db, rs[..|rs| - 1]), rs[|rs| - 1]).db
  }

  function KeysOf(rs: seq<Request>): set<Id>
    decreases |rs|
  {
    if rs == [] then {} else KeysOf(rs[..|rs| - 1]) + KeyOf(rs[|rs| - 1])
  }

  /** No assignment key is handed out twice. */
  predicate KeysDiffer(rs: seq<Request>)
    decreases |rs|
  {
    rs != [] ==> KeysDiffer(rs[..|rs| - 1]) && KeyOf(rs[|rs| - 1]) !! KeysOf(rs[..|rs| - 1])
  }

  /**
   Whatever serial requests leave from the empty database, some run leaves too: the interleaved
   layer has all the behaviour of the serial one, and what is true of every run is true of it.
   */
  lemma {:induction false} SerialRunIsARun(advisors: set<Id>, rs: seq<Request>) returns (run: Trace)
    requires KeysDiffer(rs)
    ensures Run(run) && Quiet(Last(run)) && run[0] == Start(advisors)
    ensures Last(run).db == ServeAll(EmptyDb(advisors), rs) && Last(run).used == KeysOf(rs)
    decreases |rs|
  {
    if rs == [] {
      run := [Start(advisors)];
    } else {
      hide Serve, Run, Quiet;
      run := SerialRunIsARun(advisors, rs[..|rs| - 1]);
      run := ServedAlone(run, rs[|rs| - 1]);
    }
  }
}
