/** One application in progress for each applicant: what interleaved runs keep of it, and when they lose it. */
module ApplicationRuns {
  import opened Always
  import opened Common
  import opened StaleWrites
  import opened Authority
  import opened AuthorityFacts
  import opened AuthoritySteps
  import opened AuthorityRaces
  import opened AuthorityRuns

  ghost predicate OneInProgress(apps: Applications) {
    forall i, j :: i in apps && j in apps && i != j && InProgress(apps[i].status) && InProgress(apps[j].status) ==>
      apps[i].applicant != apps[j].applicant
  }

  predicate HasInProgress(apps: Applications, applicant: Id) {
    exists i :: i in apps && apps[i].applicant == applicant && InProgress(apps[i].status)
  }

  /** An INSERT that finds an application of the same applicant in progress, which its check had not seen. */
  predicate Overlaps(s: Sys, step: Step) {
    && Commits(s, step) && s.open[step.tid].call.CreateApplication?
    && HasInProgress(s.db.apps, s.open[step.tid].call.applicant)
  }

  ghost predicate Overlapping(s: Sys, after: Sys) {
    exists step :: Enabled(s, step) && after == After(s, step) && Overlaps(s, step)
  }

  // --- one step ---

  lemma ApplicationAddsOne(db: State, t: Txn)
    requires t.call.CreateApplication? && NextApplication(db, t) == Commit && OneInProgress(db.apps)
    ensures OneInProgress(Committed(db, t).apps) <==> !HasInProgress(db.apps, t.call.applicant)
  {
    var after := Committed(db, t).apps;
    if HasInProgress(db.apps, t.call.applicant) {
      var i :| i in db.apps && db.apps[i].applicant == t.call.applicant && InProgress(db.apps[i].status);
      assert after[i] == db.apps[i] && after[t.call.newId].applicant == after[i].applicant;
    }
  }

  /** A verdict ends an application or keeps it in progress; it starts none. */
  lemma VerdictStartsNone(db: State, locks: map<Lock, Tid>, tid: Tid, t: Txn)
    requires t.call.ReviewApplication? && NextReview(db, t) == Commit && TxnHolds(db, locks, tid, t)
    requires OneInProgress(db.apps)
    ensures OneInProgress(Committed(db, t).apps)
  {
    var app, after := t.call.app, Committed(db, t).apps;
    assert after == db.apps[app := Reviewed(db.apps[app], t.call.actor, t.call.verdict, t.call.reason, t.call.now)];
    assert InProgress(after[app].status) ==> InProgress(db.apps[app].status);
    hide TxnHolds, NextReview, Committed;
  }

  lemma CommitKeepsOne(s: Sys, tid: Tid, order: seq<Id>)
    requires Consistent(s) && Enabled(s, Advance(tid, order)) && Next(s.db, s.open[tid], order) == Commit
    requires OneInProgress(s.db.apps)
    ensures OneInProgress(Committed(s.db, s.open[tid]).apps) <==> !Overlaps(s, Advance(tid, order))
  {
    var t := s.open[tid];
    assert TxnHolds(s.db, s.locks, tid, t);
    hide Consistent, Enabled, OneInProgress, HasInProgress, TxnHolds, Reviewed, NextGrant, NextRevoke, NextSwitch, NextProfile;
    hide NextApplication, NextReview;
    if t.call.CreateApplication? {
      hide Committed;
      ApplicationAddsOne(s.db, t);
    } else if t.call.ReviewApplication? {
      hide Committed;
      VerdictStartsNone(s.db, s.locks, tid, t);
    } else {
      OthersKeepApplications(s.db, t);
      hide Committed;
    }
  }

  lemma OthersKeepApplications(db: State, t: Txn)
    requires !t.call.CreateApplication? && !t.call.ReviewApplication?
    ensures Committed(db, t).apps == db.apps
  {}

  lemma OnlyCommitsWriteApplications(s: Sys, step: Step)
    requires Enabled(s, step) && !Commits(s, step)
    ensures After(s, step).db.apps == s.db.apps
  {
    hide Next, Needs, Take, Release, FromDb, Refreshed, SavedRow, SavedCopy;
  }

  lemma StepKeepsOne(s: Sys, step: Step)
    requires Consistent(s) && Enabled(s, step) && OneInProgress(s.db.apps)
    ensures OneInProgress(After(s, step).db.apps) <==> !Overlaps(s, step)
  {
    if Commits(s, step) {
      assert After(s, step).db == Committed(s.db, s.open[step.tid]);
      hide Consistent, Enabled, Overlaps, OneInProgress, After, Committed;
      CommitKeepsOne(s, step.tid, step.order);
    } else {
      OnlyCommitsWriteApplications(s, step);
      hide Consistent, Enabled, OneInProgress, After, HasInProgress, Commits;
    }
  }

  lemma AnyStepKeepsOne(s: Sys, after: Sys)
    requires Consistent(s) && Moves(s, after) && OneInProgress(s.db.apps)
    ensures OneInProgress(after.db.apps) <==> !Overlapping(s, after)
  {
    hide Consistent, OneInProgress, Enabled, After, Overlaps;
    forall step | Enabled(s, step) && after == After(s, step)
      ensures OneInProgress(after.db.apps) <==> !Overlaps(s, step)
    {
      StepKeepsOne(s, step);
    }
  }

  // --- whole runs ---

  /**
   Each applicant has at most one application in progress at every moment of a run exactly when no
   application in it is inserted while another of the same applicant is in progress.
   */
  lemma OneApplicationIff(run: seq<Sys>)
    requires Run(run) && OneInProgress(run[0].db.apps)
    ensures (forall i :: 0 <= i < |run| ==> OneInProgress(run[i].db.apps)) <==>
            (forall i :: 0 <= i < |run| - 1 ==> !Overlapping(run[i], run[i + 1]))
  {
    hide OneInProgress, Overlapping, Consistent;
    forall i | 0 <= i < |run| - 1 && OneInProgress(run[i].db.apps)
      ensures OneInProgress(run[i + 1].db.apps) <==> !Overlapping(run[i], run[i + 1])
    {
      RunIsConsistent(run, i);
      assert Moves(run[i], run[i + 1]);
      hide Moves;
      AnyStepKeepsOne(run[i], run[i + 1]);
    }
    hide Run;
    GoodUntilABadStep(run, (s: Sys) => OneInProgress(s.db.apps), Overlapping);
  }

  // --- and it can be lost ---

  /** Two applications that would each be accepted alone, of one applicant, under different names. */
  predicate Rivals(db: State, a: Request, b: Request) {
    && a.CreateApplication? && b.CreateApplication? && a.applicant == b.applicant
    && a.applicant in db.users && !Blocked(db, a.applicant)
    && a.newId !in db.apps && b.newId !in db.apps && a.newId != b.newId
    && !NameTaken(db.apps, a.name) && !NameTaken(db.apps, b.name) && a.name != b.name
  }

  function Asking(db: State, call: Request): Txn
    requires call.CreateApplication?
  {
    Txn(call, Asked(Holds(db.roles, call.applicant, Advisor)), Nothing)
  }

  function Checked(call: Request): Txn { Txn(call, Allowed({}), Nothing) }

  lemma BothOpen(db: State, a: Request, b: Request)
    requires Rivals(db, a, b)
    ensures Moves(Sys(db, map[], map[], map[]), One(db, Txn(a, Begun, Nothing), map[]))
    ensures Moves(One(db, Txn(a, Begun, Nothing), map[]), Two(db, Txn(a, Begun, Nothing), Txn(b, Begun, Nothing), map[]))
  {
    hide Blocked, NameTaken;
    var idle, one := Sys(db, map[], map[], map[]), One(db, Txn(a, Begun, Nothing), map[]);
    assert Enabled(idle, Open(1, a)) && After(idle, Open(1, a)) == one;
    assert Enabled(one, Open(2, b));
    assert After(one, Open(2, b)).open == Two(db, Txn(a, Begun, Nothing), Txn(b, Begun, Nothing), map[]).open;
  }

  lemma BothPass(db: State, a: Request, b: Request)
    requires Rivals(db, a, b)
    ensures Moves(Two(db, Asking(db, a), Asking(db, b), map[]), Two(db, Checked(a), Asking(db, b), map[]))
    ensures Moves(Two(db, Checked(a), Asking(db, b), map[]), Two(db, Checked(a), Checked(b), map[]))
  {
    hide BlockedIf, NameTaken, Holds;
    var two := Two(db, Asking(db, a), Asking(db, b), map[]);
    var half := Two(db, Checked(a), Asking(db, b), map[]);
    var both := Two(db, Checked(a), Checked(b), map[]);
    NothingTaken();
    assert Enabled(two, Advance(1, [])) && After(two, Advance(1, [])).open == half.open;
    assert Enabled(half, Advance(2, [])) && After(half, Advance(2, [])).open == both.open;
  }

  lemma BothAsk(db: State, a: Request, b: Request)
    requires Rivals(db, a, b)
    ensures Moves(Two(db, Txn(a, Begun, Nothing), Txn(b, Begun, Nothing), map[]),
                  Two(db, Asking(db, a), Txn(b, Begun, Nothing), map[]))
    ensures Moves(Two(db, Asking(db, a), Txn(b, Begun, Nothing), map[]), Two(db, Asking(db, a), Asking(db, b), map[]))
  {
    hide Blocked, NameTaken, Holds;
    var two := Two(db, Txn(a, Begun, Nothing), Txn(b, Begun, Nothing), map[]);
    var half := Two(db, Asking(db, a), Txn(b, Begun, Nothing), map[]);
    var both := Two(db, Asking(db, a), Asking(db, b), map[]);
    NothingTaken();
    assert Enabled(two, Advance(1, [])) && After(two, Advance(1, [])).open == half.open;
    assert Enabled(half, Advance(2, [])) && After(half, Advance(2, [])).open == both.open;
  }

  lemma NothingTaken()
    ensures forall locks, tid :: Take(locks, {}, tid) == locks
  {}

  /** The second insert still finds its name free, but not its applicant. */
  lemma SecondIsLate(db: State, a: Request, b: Request)
    requires Rivals(db, a, b)
    ensures var after := Committed(db, Checked(a));
            && b.newId !in after.apps && b.applicant in after.users && !NameTaken(after.apps, b.name)
            && HasInProgress(after.apps, b.applicant)
  {
    var after := Committed(db, Checked(a));
    assert after.apps[a.newId].applicant == b.applicant && InProgress(after.apps[a.newId].status);
  }

  lemma FirstCommits(db: State, a: Request, b: Request)
    requires Rivals(db, a, b)
    ensures var left := Sys(Committed(db, Checked(a)), map[2 := Checked(b)], map[], map[]);
            Moves(Two(db, Checked(a), Checked(b), map[]), left)
  {
    hide Blocked, NameTaken, Committed;
    var both := Two(db, Checked(a), Checked(b), map[]);
    var left := Sys(Committed(db, Checked(a)), map[2 := Checked(b)], map[], map[]);
    assert Release(map[], 1) == map[];
    assert Enabled(both, Advance(1, [])) && After(both, Advance(1, [])).open == left.open;
  }

  lemma SecondCommits(db: State, b: Request)
    requires b.CreateApplication? && b.newId !in db.apps && b.applicant in db.users && !NameTaken(db.apps, b.name)
    requires HasInProgress(db.apps, b.applicant)
    ensures var left := Sys(db, map[2 := Checked(b)], map[], map[]);
            Moves(left, Close(left, 2).(db := Committed(db, Checked(b))))
            && Overlapping(left, Close(left, 2).(db := Committed(db, Checked(b))))
  {
    hide NameTaken, Committed, HasInProgress;
    var left := Sys(db, map[2 := Checked(b)], map[], map[]);
    assert Enabled(left, Advance(2, []));
    assert Overlaps(left, Advance(2, []));
  }

  /** The applications table with both requests in it. */
  function WithBoth(apps: Applications, a: Request, b: Request): Applications
    requires a.CreateApplication? && b.CreateApplication?
  {
    apps[a.newId := Application(a.applicant, a.name, Pending, a.now, None, None, "")]
        [b.newId := Application(b.applicant, b.name, Pending, b.now, None, None, "")]
  }

  lemma BothInserted(db: State, a: Request, b: Request)
    requires Rivals(db, a, b)
    ensures Committed(Committed(db, Checked(a)), Checked(b)).apps == WithBoth(db.apps, a, b)
  {}

  /** From every place to start: two requests of one applicant, each fine alone, are both inserted. */
  lemma BothGetThrough(db: State, a: Request, b: Request)
    requires TablesHold(db) && OneInProgress(db.apps) && Rivals(db, a, b)
    ensures exists run: seq<Sys> :: Run(run) && run[0].db == db && run[|run| - 1].db.apps == WithBoth(db.apps, a, b)
                                    && !forall i :: 0 <= i < |run| ==> OneInProgress(run[i].db.apps)
  {
    var begunA, begunB := Txn(a, Begun, Nothing), Txn(b, Begun, Nothing);
    var askingA, askingB := Asking(db, a), Asking(db, b);
    var left := Sys(Committed(db, Checked(a)), map[2 := Checked(b)], map[], map[]);
    var last := Close(left, 2).(db := Committed(left.db, Checked(b)));
    var run := [Sys(db, map[], map[], map[])];
    assert Run(run);
    assert a.CreateApplication? && b.CreateApplication?;
    BothInserted(db, a, b);
    hide Run, Moves, One, Two, Close, TablesHold, Committed, Overlapping, Rivals, OneInProgress, HasInProgress, NameTaken, Asking;
    BothOpen(db, a, b);
    run := Then(run, One(db, begunA, map[]));
    run := Then(run, Two(db, begunA, begunB, map[]));
    BothAsk(db, a, b);
    run := Then(run, Two(db, askingA, begunB, map[]));
    run := Then(run, Two(db, askingA, askingB, map[]));
    BothPass(db, a, b);
    run := Then(run, Two(db, Checked(a), askingB, map[]));
    run := Then(run, Two(db, Checked(a), Checked(b), map[]));
    FirstCommits(db, a, b);
    run := Then(run, left);
    SecondIsLate(db, a, b);
    SecondCommits(left.db, b);
    run := EndsBadly(run, left, last);
  }

  lemma EndsBadly(run: seq<Sys>, left: Sys, last: Sys) returns (longer: seq<Sys>)
    requires Run(run) && run[|run| - 1] == left && Moves(left, last) && Overlapping(left, last)
    requires OneInProgress(run[0].db.apps)
    ensures Run(longer) && longer[0] == run[0] && longer[|longer| - 1] == last
    ensures !forall i :: 0 <= i < |longer| ==> OneInProgress(longer[i].db.apps)
  {
    hide Moves, Overlapping, OneInProgress, Start;
    longer := run + [last];
    OneMoreState(run, last);
    var k := |run| - 1;
    assert Overlapping(longer[k], longer[k + 1]);
    OneApplicationIff(longer);
  }

  const ACTIVE_USER: Row := map[IsActive := Bool(true), ActiveRole := Str("USER")]

  /** A bootstrap: one administrator, account 0, and one account 1 that holds nothing. */
  const BOOTSTRAP := State(map[0 := ACTIVE_USER, 1 := ACTIVE_USER], map[10 := Holding(0, Admin)], [], map[], multiset{})

  lemma BootstrapIsFresh()
    ensures Fresh(BOOTSTRAP) && Complete(BOOTSTRAP.users)
  {
    assert 10 in ActiveAdminRows(BOOTSTRAP.users, BOOTSTRAP.roles);
  }

  /** So right after a bootstrap an applicant can end up with two applications in progress. */
  lemma TwoApplicationsInProgress()
    ensures exists run: seq<Sys> :: Run(run) && run[0].db == BOOTSTRAP
                                    && 5 in run[|run| - 1].db.apps && 6 in run[|run| - 1].db.apps
                                    && !forall i :: 0 <= i < |run| ==> OneInProgress(run[i].db.apps)
  {
    BootstrapIsFresh();
    BootstrapCanStart(Sys(BOOTSTRAP, map[], map[], map[]));
    assert Rivals(BOOTSTRAP, CreateApplication(5, 1, "Ada", 0), CreateApplication(6, 1, "Bea", 0)) by {
      assert "Ada"[0] != "Bea"[0];
    }
    hide Rivals, TablesHold;
    BothGetThrough(BOOTSTRAP, CreateApplication(5, 1, "Ada", 0), CreateApplication(6, 1, "Bea", 0));
  }
}
