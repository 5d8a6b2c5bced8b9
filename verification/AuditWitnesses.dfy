/** From a bootstrap to an audit log that misleads, read in either order. */
module AuditWitnesses {
  import opened Authority
  import opened AuthorityFacts
  import opened AuthoritySteps
  import opened AuthorityRaces
  import opened AuthorityRuns
  import opened ApplicationRuns
  import opened AuditTimes

  /** The administrator, account 0, has made account 1 an advisor by hand. */
  const WITH_ADVISOR := State(map[0 := ACTIVE_USER, 1 := ACTIVE_USER], map[10 := Holding(0, Admin), 11 := Holding(1, Advisor)],
                              [], map[], multiset{})

  const APPLIES := CreateApplication(5, 1, "Ada", 0)

  const LOOKS := ReviewApplication(5, 0, Reviewing, "", 12, 1)

  const APPROVES := ReviewApplication(5, 0, Approved, "", 12, 2)

  const APPLIED := Committed(WITH_ADVISOR, Checked(APPLIES))

  function LookedAt(db: State, call: Request): Txn
    requires call.ReviewApplication? && call.app in db.apps
  {
    Txn(call, Written, Form(db.apps[call.app]))
  }

  lemma CanStart()
    ensures Fresh(WITH_ADVISOR) && Complete(WITH_ADVISOR.users)
  {
    assert 10 in ActiveAdminRows(WITH_ADVISOR.users, WITH_ADVISOR.roles);
  }

  // --- an application, and a first look at it, with nobody else about ---

  lemma ApplicantAsks(db: State, call: Request)
    requires call.CreateApplication? && !Blocked(db, call.applicant)
    ensures Moves(Sys(db, map[], map[], map[]), One(db, Txn(call, Begun, Nothing), map[]))
    ensures Moves(One(db, Txn(call, Begun, Nothing), map[]), One(db, Asking(db, call), map[]))
    ensures Moves(One(db, Asking(db, call), map[]), One(db, Checked(call), map[]))
  {
    hide BlockedIf, Holds;
    var idle, begun := Sys(db, map[], map[], map[]), One(db, Txn(call, Begun, Nothing), map[]);
    var asking := One(db, Asking(db, call), map[]);
    NothingTaken();
    assert Enabled(idle, Open(1, call)) && After(idle, Open(1, call)) == begun;
    assert Enabled(begun, Advance(1, [])) && After(begun, Advance(1, [])).open == asking.open;
    assert Enabled(asking, Advance(1, [])) && After(asking, Advance(1, [])).open == One(db, Checked(call), map[]).open;
  }

  lemma ApplicantGetsThrough(db: State, call: Request)
    requires call.CreateApplication? && call.newId !in db.apps && call.applicant in db.users && !NameTaken(db.apps, call.name)
    ensures Moves(One(db, Checked(call), map[]), Sys(Committed(db, Checked(call)), map[], map[], map[]))
  {
    hide Committed, NameTaken;
    var one := One(db, Checked(call), map[]);
    assert Enabled(one, Advance(1, [])) && After(one, Advance(1, [])).open == map[] && Release(map[], 1) == map[];
  }

  predicate AboutToLook(db: State, call: Request) {
    call.ReviewApplication? && call.verdict == Reviewing && call.app in db.apps && db.apps[call.app].status == Pending
  }

  lemma LookBegins(db: State, call: Request)
    requires AboutToLook(db, call)
    ensures Moves(Sys(db, map[], map[], map[]), One(db, Txn(call, Begun, Nothing), map[]))
    ensures Moves(One(db, Txn(call, Begun, Nothing), map[]),
                  One(db, Txn(call, Locked, Form(db.apps[call.app])), map[AppRow(call.app) := 1]))
  {
    var idle, begun := Sys(db, map[], map[], map[]), One(db, Txn(call, Begun, Nothing), map[]);
    var locked := One(db, Txn(call, Locked, Form(db.apps[call.app])), map[AppRow(call.app) := 1]);
    assert Enabled(idle, Open(1, call)) && After(idle, Open(1, call)) == begun;
    assert Enabled(begun, Advance(1, []));
    var after := After(begun, Advance(1, []));
    assert after.open == locked.open && after.locks == locked.locks;
  }

  lemma LookEnds(db: State, call: Request, locks: map<Lock, Tid>)
    requires AboutToLook(db, call) && locks == map[AppRow(call.app) := 1]
    ensures Moves(One(db, Txn(call, Locked, Form(db.apps[call.app])), locks), One(db, LookedAt(db, call), locks))
    ensures Moves(One(db, LookedAt(db, call), locks), Sys(Committed(db, LookedAt(db, call)), map[], map[], map[]))
  {
    hide Committed;
    var locked, written := One(db, Txn(call, Locked, Form(db.apps[call.app])), locks), One(db, LookedAt(db, call), locks);
    assert Take(locks, {}, 1) == locks && Release(locks, 1) == map[];
    assert Enabled(locked, Advance(1, [])) && After(locked, Advance(1, [])).open == written.open;
    assert Enabled(written, Advance(1, [])) && After(written, Advance(1, [])).open == map[];
  }

  // --- the run ---

  lemma AdvisorApplies() returns (run: seq<Sys>)
    ensures Run(run) && run[0] == Sys(WITH_ADVISOR, map[], map[], map[])
    ensures run[|run| - 1] == Sys(APPLIED, map[], map[], map[])
  {
    CanStart();
    BootstrapCanStart(Sys(WITH_ADVISOR, map[], map[], map[]));
    run := [Sys(WITH_ADVISOR, map[], map[], map[])];
    ApplicantAsks(WITH_ADVISOR, APPLIES);
    ApplicantGetsThrough(WITH_ADVISOR, APPLIES);
    hide Moves, One, Start, Committed;
    run := Then(run, One(WITH_ADVISOR, Txn(APPLIES, Begun, Nothing), map[]));
    run := Then(run, One(WITH_ADVISOR, Asking(WITH_ADVISOR, APPLIES), map[]));
    run := Then(run, One(WITH_ADVISOR, Checked(APPLIES), map[]));
    run := Then(run, Sys(APPLIED, map[], map[], map[]));
  }

  lemma AdministratorLooks(before: seq<Sys>, db: State, call: Request) returns (run: seq<Sys>)
    requires Run(before) && before[|before| - 1] == Sys(db, map[], map[], map[]) && AboutToLook(db, call)
    ensures Run(run) && run[0] == before[0]
    ensures run[|run| - 1] == Sys(Committed(db, LookedAt(db, call)), map[], map[], map[])
  {
    var locks := map[AppRow(call.app) := 1];
    LookBegins(db, call);
    LookEnds(db, call, locks);
    hide Run, Moves, One, Committed;
    run := Then(before, One(db, Txn(call, Begun, Nothing), map[]));
    run := Then(run, One(db, Txn(call, Locked, Form(db.apps[call.app])), locks));
    run := Then(run, One(db, LookedAt(db, call), locks));
    run := Then(run, Sys(Committed(db, LookedAt(db, call)), map[], map[], map[]));
  }

  predicate EndsInGrant(db: State) {
    && db.audit == [Entry(1, Advisor, Revoke, 0, ""), Entry(1, Advisor, Grant, 0, APPROVAL_REASON)]
    && !Holds(db.roles, 1, Advisor)
  }

  /** The administrator approves and revokes at once. */
  lemma ApprovedAndRevoked() returns (run: seq<Sys>, late: Sys)
    ensures Run(run) && run[0] == Sys(WITH_ADVISOR, map[], map[], map[])
    ensures Late(run[|run| - 1], late) && Moves(run[|run| - 1], late)
    ensures EndsInGrant(late.db)
  {
    var applied := AdvisorApplies();
    var db := Committed(APPLIED, LookedAt(APPLIED, LOOKS));
    assert AboutToLook(APPLIED, LOOKS);
    assert Holding(1, Advisor) == db.roles[11] && AboutToApprove(db, APPROVES);
    assert db.audit == [] && db.apps[5].applicant == 1;
    hide Run, Moves, Late, Committed, Holds, AboutToApprove, AboutToLook;
    var looked := AdministratorLooks(applied, APPLIED, LOOKS);
    RunIsConsistent(looked, |looked| - 1);
    run, late := RoleLostMeanwhile(looked, db, APPROVES, 0, "");
  }

  lemma GrantUnexplained(bootstrap: set<Holding>, db: State)
    requires EndsInGrant(db)
    ensures !Explained(bootstrap, db)
  {
    var revoked := [Entry(1, Advisor, Revoke, 0, "")];
    assert db.audit == revoked + [Entry(1, Advisor, Grant, 0, APPROVAL_REASON)];
    ReplayOneMore(bootstrap, revoked, Entry(1, Advisor, Grant, 0, APPROVAL_REASON));
    NotStored(db.roles, 1, Advisor);
  }

  /**
   So a run from a bootstrap ends with a log that says REVOKE and then GRANT, and nobody holding the
   role: read in the order of the commits or by the stamps, the log does not explain the table.
   */
  lemma AuditMisleads()
    ensures exists run: seq<Sys> ::
              Run(run) && run[0].db == WITH_ADVISOR && EndsInGrant(run[|run| - 1].db)
              && !Explained(Stored(WITH_ADVISOR.roles), run[|run| - 1].db)
    ensures exists run: seq<Clocked> ::
              ClockedRun(run) && run[0].sys.db == WITH_ADVISOR && EndsInGrant(run[|run| - 1].sys.db)
              && !ExplainedByTime(Stored(WITH_ADVISOR.roles), run[|run| - 1])
  {
    var run, late := ApprovedAndRevoked();
    var bootstrap := Stored(WITH_ADVISOR.roles);
    var start := Clocked(run[0], 0, [], map[]);
    assert ClockedStart(start);
    GrantUnexplained(bootstrap, late.db);
    hide Run, ClockedRun, ClockedStart, Moves, Late, Explained, ExplainedByTime, Stored, EndsInGrant, Visits;
    var clocked := EveryRunIsClocked(run, start);
    var longer := LateMisleadsByTime(bootstrap, clocked, late);
    assert longer[0] == start;
    var whole := Then(run, late);
  }
}
