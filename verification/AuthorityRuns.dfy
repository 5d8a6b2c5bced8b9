/** Whole runs of role requests, approvals and saves: the theorems, and the one thing that is only serial. */
module AuthorityRuns {
  import opened Always
  import opened Common
  import opened StaleWrites
  import opened Authority
  import opened AuthorityFacts
  import opened AuthoritySteps
  import opened AuthorityRaces

  /** Sound tables and nothing in flight. */
  ghost predicate Start(s: Sys) {
    TablesHold(s.db) && s.open == map[] && s.locks == map[] && s.copies == map[]
  }

  ghost predicate Moves(s: Sys, after: Sys) {
    exists step :: Enabled(s, step) && after == After(s, step)
  }

  /** Each state is one statement of one participant after the one before. */
  ghost predicate Run(run: seq<Sys>) {
    && |run| > 0 && Start(run[0])
    && forall i :: 0 <= i < |run| - 1 ==> Moves(run[i], run[i + 1])
  }

  lemma {:induction false} RunIsConsistent(run: seq<Sys>, i: nat)
    requires Run(run) && i < |run|
    ensures Consistent(run[i])
  {
    if i == 0 {
      hide TablesHold;
    } else {
      hide Consistent;
      RunIsConsistent(run, i - 1);
      assert Moves(run[i - 1], run[i - 1 + 1]);
      var step :| Enabled(run[i - 1], step) && run[i] == After(run[i - 1], step);
      StepKeeps(run[i - 1], step);
    }
  }

  /** A bootstrap is a place to start from. */
  lemma BootstrapCanStart(s: Sys)
    requires Fresh(s.db) && Complete(s.db.users) && s.open == map[] && s.locks == map[] && s.copies == map[]
    ensures Start(s)
  {}

  /** Some active account has a committed ADMIN row, however many revocations run at once. */
  lemma AnAdministratorIsAlwaysLeft(run: seq<Sys>, i: nat)
    requires Run(run) && i < |run|
    ensures exists pk :: pk in run[i].db.roles && run[i].db.roles[pk].role == Admin
                         && run[i].db.roles[pk].user in run[i].db.users && Active(run[i].db.users[run[i].db.roles[pk].user])
  {
    RunIsConsistent(run, i);
    hide Run;
    var pk :| pk in ActiveAdminRows(run[i].db.users, run[i].db.roles);
  }

  /** And every revocation about to commit holds such a row, one that it counted and does not delete. */
  lemma RevokerHoldsASurvivor(run: seq<Sys>, i: nat, tid: Tid)
    requires Run(run) && i < |run| && tid in run[i].open
    requires run[i].open[tid].call.RevokeRole? && run[i].open[tid].call.role == Admin && run[i].open[tid].phase.Deleted?
    ensures exists pk :: pk in run[i].open[tid].phase.counted - run[i].open[tid].phase.rows
                         && Mine(run[i].locks, RoleRow(pk), tid) && pk in ActiveAdminRows(run[i].db.users, run[i].db.roles)
  {
    RunIsConsistent(run, i);
    hide Run, TxnHolds, RolesWellFormed;
    var pk := Survivor(run[i].db, run[i].locks, tid, run[i].open[tid]);
  }

  /** An account acts as a user or as an advisor, and one that acts as an advisor is one. */
  lemma WornIsAlwaysHeld(run: seq<Sys>, i: nat, u: Id)
    requires Run(run) && i < |run| && u in run[i].db.users
    ensures ActiveRole in run[i].db.users[u]
    ensures || run[i].db.users[u][ActiveRole] == Str("USER")
            || (&& run[i].db.users[u][ActiveRole] == Str("ADVISOR")
                && exists pk :: pk in run[i].db.roles && run[i].db.roles[pk] == Holding(u, Advisor))
  {
    RunIsConsistent(run, i);
    hide Run;
    assert ActsAs(run[i].db.users[u], run[i].db.roles, u);
  }

  /** Two administrators never approve one application twice: one approved application, one notice of it. */
  lemma ApprovedOnceToldOnce(run: seq<Sys>, i: nat, recipient: Id, app: Id, actor: Id)
    requires Run(run) && i < |run|
    ensures run[i].db.notices[ApplicationApproved(recipient, app, actor)] ==
            if ApprovedBy(run[i].db.apps, recipient, app, actor) then 1 else 0
  {
    RunIsConsistent(run, i);
    hide Run, TxnsHold;
  }

  /** What a transaction read of the row it locked first is what is committed there, up to its last statement. */
  lemma WhatIsHeldIsCurrent(run: seq<Sys>, i: nat, tid: Tid)
    requires Run(run) && i < |run| && tid in run[i].open
    ensures match run[i].open[tid].read
            case Account(row) => AccountOf(run[i].open[tid].call).Some?
                                 && AccountOf(run[i].open[tid].call).value in run[i].db.users
                                 && run[i].db.users[AccountOf(run[i].open[tid].call).value] == row
            case Form(form) => run[i].open[tid].call.ReviewApplication? && run[i].open[tid].call.app in run[i].db.apps
                               && run[i].db.apps[run[i].open[tid].call.app] == form
            case Nothing => run[i].open[tid].phase.Begun? || run[i].open[tid].call.CreateApplication?
  {
    RunIsConsistent(run, i);
    hide Run, TablesHold;
    assert TxnHolds(run[i].db, run[i].locks, tid, run[i].open[tid]);
  }

  // --- where the audit log stops explaining the role table ---

  ghost predicate Explained(bootstrap: set<Holding>, db: State) { ReplayAudit(bootstrap, db.audit) == Stored(db.roles) }

  /** An approval about to commit that found the role there, where a revocation has deleted it since. */
  predicate LateApproval(s: Sys, step: Step) {
    && step.Advance? && step.tid in s.open
    && s.open[step.tid].call.ReviewApplication? && s.open[step.tid].phase.Found?
    && s.open[step.tid].read.Form? && !Holds(s.db.roles, s.open[step.tid].read.form.applicant, Advisor)
  }

  ghost predicate Late(s: Sys, after: Sys) {
    exists step :: Enabled(s, step) && after == After(s, step) && LateApproval(s, step)
  }

  lemma NotStored(roles: Roles, user: Id, role: Role)
    requires !Holds(roles, user, role)
    ensures Holding(user, role) !in Stored(roles)
  {}

  lemma GrantExplains(bootstrap: set<Holding>, db: State, locks: map<Lock, Tid>, tid: Tid, t: Txn)
    requires t.call.GrantRole? && t.phase.Inserted? && TxnHolds(db, locks, tid, t) && Explained(bootstrap, db)
    ensures Explained(bootstrap, Committed(db, t))
  {
    hide ReplayAudit, Stored, Holds;
    ReplayOneMore(bootstrap, db.audit, Entry(t.call.target, t.call.role, Grant, t.call.actor, t.call.reason));
    RolesGrow(db.roles, t.call.newPk, Holding(t.call.target, t.call.role));
  }

  lemma RevokeExplains(bootstrap: set<Holding>, db: State, locks: map<Lock, Tid>, tid: Tid, t: Txn)
    requires t.call.RevokeRole? && t.phase.Deleted? && TxnHolds(db, locks, tid, t) && Explained(bootstrap, db)
    requires RolesWellFormed(db.users, db.roles)
    ensures Explained(bootstrap, Committed(db, t))
  {
    hide ReplayAudit, Stored, Holds, RowsOf, RolesWellFormed, CountedHeld;
    ReplayOneMore(bootstrap, db.audit, Entry(t.call.target, t.call.role, Revoke, t.call.actor, t.call.reason));
    RevokedRows(db.users, db.roles, t.call.target, t.call.role);
  }

  lemma ReviewExplains(bootstrap: set<Holding>, db: State, locks: map<Lock, Tid>, tid: Tid, t: Txn)
    requires t.call.ReviewApplication? && NextReview(db, t) == Commit
    requires TxnHolds(db, locks, tid, t) && Explained(bootstrap, db)
    ensures Explained(bootstrap, Committed(db, t)) <==> !(t.phase.Found? && !Holds(db.roles, t.read.form.applicant, Advisor))
  {
    hide ReplayAudit, Stored, Holds;
    var applicant := t.read.form.applicant;
    if t.call.verdict == Approved {
      ReplayOneMore(bootstrap, db.audit, Entry(applicant, Advisor, Grant, t.call.actor, APPROVAL_REASON));
      if t.phase.Inserted? { RolesGrow(db.roles, t.call.newPk, Holding(applicant, Advisor)); }
      else if Holds(db.roles, applicant, Advisor) { AlreadyStored(db.roles, applicant, Advisor); }
      else { NotStored(db.roles, applicant, Advisor); }
    }
  }

  lemma CommitExplains(bootstrap: set<Holding>, s: Sys, tid: Tid, order: seq<Id>)
    requires Consistent(s) && Enabled(s, Advance(tid, order)) && Next(s.db, s.open[tid], order) == Commit
    requires Explained(bootstrap, s.db)
    ensures Explained(bootstrap, Committed(s.db, s.open[tid])) <==> !LateApproval(s, Advance(tid, order))
  {
    var t := s.open[tid];
    assert TxnHolds(s.db, s.locks, tid, t) && RolesWellFormed(s.db.users, s.db.roles);
    hide Enabled, Consistent, TxnHolds, RolesWellFormed, Holds;
    match t.call
    case GrantRole(_, _, _, _, _) => hide Explained; GrantExplains(bootstrap, s.db, s.locks, tid, t);
    case RevokeRole(_, _, _, _) => hide Explained; RevokeExplains(bootstrap, s.db, s.locks, tid, t);
    case ReviewApplication(_, _, _, _, _, _) =>
      assert t.read.Form? by { ApprovalHasRead(s.db, s.locks, tid, t); }
      hide Explained;
      ReviewExplains(bootstrap, s.db, s.locks, tid, t);
    case _ =>
  }

  lemma ApprovalHasRead(db: State, locks: map<Lock, Tid>, tid: Tid, t: Txn)
    requires TxnHolds(db, locks, tid, t) && t.call.ReviewApplication? && !t.phase.Begun?
    ensures t.read.Form?
  {}

  predicate Commits(s: Sys, step: Step) {
    step.Advance? && step.tid in s.open && Next(s.db, s.open[step.tid], step.order).Commit?
  }

  lemma OnlyCommitsWriteRoles(s: Sys, step: Step)
    requires Enabled(s, step) && !Commits(s, step)
    ensures After(s, step).db.roles == s.db.roles && After(s, step).db.audit == s.db.audit
  {
    hide Next, Needs, Take, Release, FromDb, Refreshed, SavedRow, SavedCopy;
  }

  lemma OnlyCommitsAreLate(s: Sys, step: Step)
    requires Enabled(s, step) && LateApproval(s, step)
    ensures Commits(s, step)
  {
    hide Enabled;
  }

  lemma StepExplains(bootstrap: set<Holding>, s: Sys, step: Step)
    requires Consistent(s) && Enabled(s, step) && Explained(bootstrap, s.db)
    ensures Explained(bootstrap, After(s, step).db) <==> !LateApproval(s, step)
  {
    if Commits(s, step) {
      assert After(s, step).db == Committed(s.db, s.open[step.tid]);
      hide Consistent, Enabled, Explained, LateApproval, After, Committed;
      CommitExplains(bootstrap, s, step.tid, step.order);
    } else {
      OnlyCommitsWriteRoles(s, step);
      hide Consistent, Enabled, After, ReplayAudit, Stored, LateApproval, Commits;
      if LateApproval(s, step) { OnlyCommitsAreLate(s, step); }
    }
  }

  /**
   The audit log explains the role table all through a run exactly when no approval in it commits
   after a revocation has deleted the role row the approval had found.
   */
  lemma AuditExplainsIff(bootstrap: set<Holding>, run: seq<Sys>)
    requires Run(run) && Explained(bootstrap, run[0].db)
    ensures (forall i :: 0 <= i < |run| ==> Explained(bootstrap, run[i].db)) <==>
            (forall i :: 0 <= i < |run| - 1 ==> !Late(run[i], run[i + 1]))
  {
    hide Explained, Late, Consistent;
    forall i | 0 <= i < |run| - 1 && Explained(bootstrap, run[i].db)
      ensures Explained(bootstrap, run[i + 1].db) <==> !Late(run[i], run[i + 1])
    {
      RunIsConsistent(run, i);
      assert Moves(run[i], run[i + 1]);
      hide Moves;
      LastStepExplains(bootstrap, run[i], run[i + 1]);
    }
    hide Run;
    GoodUntilABadStep(run, (s: Sys) => Explained(bootstrap, s.db), Late);
  }

  lemma LastStepExplains(bootstrap: set<Holding>, s: Sys, after: Sys)
    requires Consistent(s) && Moves(s, after) && Explained(bootstrap, s.db)
    ensures Explained(bootstrap, after.db) <==> !Late(s, after)
  {
    hide Consistent, Explained, Enabled, After, LateApproval;
    forall step | Enabled(s, step) && after == After(s, step)
      ensures Explained(bootstrap, after.db) <==> !LateApproval(s, step)
    {
      StepExplains(bootstrap, s, step);
    }
  }

  // --- such an approval can happen, whenever somebody who is an advisor already is under review ---

  /** One transaction, then two. */
  function One(db: State, t: Txn, locks: map<Lock, Tid>): Sys { Sys(db, map[1 := t], locks, map[]) }

  function Two(db: State, t: Txn, u: Txn, locks: map<Lock, Tid>): Sys { Sys(db, map[1 := t, 2 := u], locks, map[]) }

  predicate AboutToApprove(db: State, call: Request) {
    && call.ReviewApplication? && call.verdict == Approved
    && call.app in db.apps && db.apps[call.app].status == Reviewing
    && Holds(db.roles, db.apps[call.app].applicant, Advisor)
  }

  lemma ApprovalBegins(db: State, call: Request)
    requires AboutToApprove(db, call)
    ensures var form := Form(db.apps[call.app]);
            && Moves(Sys(db, map[], map[], map[]), One(db, Txn(call, Begun, Nothing), map[]))
            && Moves(One(db, Txn(call, Begun, Nothing), map[]), One(db, Txn(call, Locked, form), map[AppRow(call.app) := 1]))
  {
    hide Holds;
    var idle, begun := Sys(db, map[], map[], map[]), One(db, Txn(call, Begun, Nothing), map[]);
    assert Enabled(idle, Open(1, call)) && After(idle, Open(1, call)) == begun;
    assert Needs(db, begun.open[1]) == {AppRow(call.app)};
    assert Enabled(begun, Advance(1, []));
    var after := After(begun, Advance(1, []));
    var locked := One(db, Txn(call, Locked, Form(db.apps[call.app])), map[AppRow(call.app) := 1]);
    assert after.open == locked.open && after.locks == locked.locks;
  }

  lemma ApprovalFinds(db: State, call: Request, locks: map<Lock, Tid>)
    requires AboutToApprove(db, call)
    ensures var form := Form(db.apps[call.app]);
            && Moves(One(db, Txn(call, Locked, form), locks), One(db, Txn(call, Allowed({}), form), locks))
            && Moves(One(db, Txn(call, Allowed({}), form), locks), One(db, Txn(call, Found, form), locks))
  {
    hide Holds;
    var form := Form(db.apps[call.app]);
    var locked, allowed, found := One(db, Txn(call, Locked, form), locks), One(db, Txn(call, Allowed({}), form), locks),
                                  One(db, Txn(call, Found, form), locks);
    assert Enabled(locked, Advance(1, [])) && Enabled(allowed, Advance(1, []));
    assert After(locked, Advance(1, [])).open == allowed.open && After(allowed, Advance(1, [])).open == found.open;
    assert Take(locks, {}, 1) == locks;
  }

  lemma RevocationBegins(db: State, t: Txn, call: Request, locks: map<Lock, Tid>)
    requires call.RevokeRole? && call.role == Advisor && call.target in db.users && UserRow(call.target) !in locks
    ensures var account := Account(db.users[call.target]);
            && Moves(One(db, t, locks), Two(db, t, Txn(call, Begun, Nothing), locks))
            && Moves(Two(db, t, Txn(call, Begun, Nothing), locks),
                     Two(db, t, Txn(call, Locked, account), locks[UserRow(call.target) := 2]))
  {
    hide ActiveAdminRows, RowsOf;
    var one, begun := One(db, t, locks), Two(db, t, Txn(call, Begun, Nothing), locks);
    assert Enabled(one, Open(2, call)) && After(one, Open(2, call)).open == begun.open;
    var locked := Two(db, t, Txn(call, Locked, Account(db.users[call.target])), locks[UserRow(call.target) := 2]);
    assert Enabled(begun, Advance(2, []));
    var after := After(begun, Advance(2, []));
    assert after.open == locked.open && after.locks == locked.locks;
  }

  function RowLocks(locks: map<Lock, Tid>, call: Request, pk: Id): map<Lock, Tid>
    requires call.RevokeRole?
  {
    locks[RoleKey(call.target, call.role) := 2][RoleRow(pk) := 2]
  }

  lemma RevocationPasses(db: State, t: Txn, call: Request, locks: map<Lock, Tid>)
    requires call.RevokeRole? && call.role == Advisor && call.target in db.users
    ensures var account := Account(db.users[call.target]);
            Moves(Two(db, t, Txn(call, Locked, account), locks), Two(db, t, Txn(call, Allowed({}), account), locks))
  {
    hide ActiveAdminRows, RowsOf;
    var account := Account(db.users[call.target]);
    var locked, allowed := Two(db, t, Txn(call, Locked, account), locks), Two(db, t, Txn(call, Allowed({}), account), locks);
    assert Needs(db, locked.open[2]) == {};
    assert Enabled(locked, Advance(2, []));
    assert After(locked, Advance(2, [])).open == allowed.open;
    assert Take(locks, {}, 2) == locks;
  }

  lemma RevocationDeletes(db: State, t: Txn, call: Request, locks: map<Lock, Tid>, pk: Id)
    requires call.RevokeRole? && call.role == Advisor && call.target in db.users
    requires RowsOf(db.roles, call.target, Advisor) == {pk}
    requires RoleKey(call.target, Advisor) !in locks && RoleRow(pk) !in locks
    ensures var account := Account(db.users[call.target]);
            Moves(Two(db, t, Txn(call, Allowed({}), account), locks),
                  Two(db, t, Txn(call, Deleted({pk}, {}), account), RowLocks(locks, call, pk)))
  {
    hide ActiveAdminRows, RowsOf;
    var account := Account(db.users[call.target]);
    var allowed := Two(db, t, Txn(call, Allowed({}), account), locks);
    var deleted := Two(db, t, Txn(call, Deleted({pk}, {}), account), RowLocks(locks, call, pk));
    assert Needs(db, allowed.open[2]) == {RoleKey(call.target, Advisor), RoleRow(pk)};
    assert Enabled(allowed, Advance(2, []));
    var after := After(allowed, Advance(2, []));
    hide Needs;
    assert after.open == deleted.open && after.locks == deleted.locks;
  }

  lemma RevocationCommits(db: State, t: Txn, u: Txn, locks: map<Lock, Tid>)
    requires u.call.RevokeRole? && u.phase.Deleted?
    ensures Moves(Two(db, t, u, locks), One(Committed(db, u), t, Release(locks, 2)))
  {
    hide Committed, ActiveAdminRows, RowsOf;
    var two := Two(db, t, u, locks);
    assert Enabled(two, Advance(2, []));
    assert After(two, Advance(2, [])).open == One(Committed(db, u), t, Release(locks, 2)).open;
  }

  lemma ApprovalCommitsLate(db: State, t: Txn, locks: map<Lock, Tid>)
    requires t.call.ReviewApplication? && t.phase.Found? && t.read.Form? && !Holds(db.roles, t.read.form.applicant, Advisor)
    ensures var last := Close(One(db, t, locks), 1).(db := Committed(db, t));
            Moves(One(db, t, locks), last) && Late(One(db, t, locks), last)
  {
    hide Committed, Holds;
    assert Enabled(One(db, t, locks), Advance(1, []));
    assert LateApproval(One(db, t, locks), Advance(1, []));
  }

  lemma OnlyRow(users: Users, roles: Roles, user: Id, role: Role) returns (pk: Id)
    requires RolesWellFormed(users, roles) && Holds(roles, user, role)
    ensures RowsOf(roles, user, role) == {pk}
  {
    pk :| pk in roles && roles[pk] == Holding(user, role);
  }

  lemma DeletedIsNotHeld(db: State, call: Request, phase: Phase, read: Read)
    requires call.RevokeRole? && phase.Deleted? && phase.rows == RowsOf(db.roles, call.target, call.role)
    ensures !Holds(Committed(db, Txn(call, phase, read)).roles, call.target, call.role)
  {}

  /** The log goes on with a REVOKE and then a GRANT, and nobody holds the role. */
  predicate GrantedToNobody(db: State, after: State, approval: Request, actor: Id, reason: string)
    requires approval.ReviewApplication? && approval.app in db.apps
  {
    var applicant := db.apps[approval.app].applicant;
    && after.audit == db.audit + [Entry(applicant, Advisor, Revoke, actor, reason),
                                  Entry(applicant, Advisor, Grant, approval.actor, APPROVAL_REASON)]
    && !Holds(after.roles, applicant, Advisor)
  }

  lemma BothAreLogged(db: State, approval: Request, actor: Id, reason: string, account: Read)
    requires AboutToApprove(db, approval)
    ensures var applicant := db.apps[approval.app].applicant;
            var revocation := RevokeRole(applicant, Advisor, actor, reason);
            var gone := Committed(db, Txn(revocation, Deleted(RowsOf(db.roles, applicant, Advisor), {}), account));
            !Holds(gone.roles, applicant, Advisor)
            && GrantedToNobody(db, Committed(gone, Txn(approval, Found, Form(db.apps[approval.app]))), approval, actor, reason)
  {
    var applicant := db.apps[approval.app].applicant;
    var rows := RowsOf(db.roles, applicant, Advisor);
    DeletedIsNotHeld(db, RevokeRole(applicant, Advisor, actor, reason), Deleted(rows, {}), account);
    hide Holds, RowsOf, ReviewNotice, Reviewed, WearsAdvisor;
  }

  lemma OneMoreState(run: seq<Sys>, after: Sys)
    requires Run(run) && Moves(run[|run| - 1], after)
    ensures Run(run + [after])
  {
    hide Moves, Start;
  }

  lemma ApprovalLooks(before: seq<Sys>, db: State, approval: Request) returns (run: seq<Sys>)
    requires Run(before) && before[|before| - 1] == Sys(db, map[], map[], map[]) && AboutToApprove(db, approval)
    ensures Run(run) && run[0] == before[0]
    ensures run[|run| - 1] == One(db, Txn(approval, Found, Form(db.apps[approval.app])), map[AppRow(approval.app) := 1])
  {
    var form := Form(db.apps[approval.app]);
    var a := map[AppRow(approval.app) := 1];
    run := before;
    ApprovalBegins(db, approval);
    ApprovalFinds(db, approval, a);
    hide Run, Moves, One, AboutToApprove;
    run := Then(run, One(db, Txn(approval, Begun, Nothing), map[]));
    run := Then(run, One(db, Txn(approval, Locked, form), a));
    run := Then(run, One(db, Txn(approval, Allowed({}), form), a));
    run := Then(run, One(db, Txn(approval, Found, form), a));
  }

  /** The approval looks, finds the role, and then the revocation runs from beginning to end. */
  lemma RoleLostMeanwhile(before: seq<Sys>, db: State, approval: Request, actor: Id, reason: string)
    returns (run: seq<Sys>, late: Sys)
    requires Run(before) && before[|before| - 1] == Sys(db, map[], map[], map[])
    requires TablesHold(db) && AboutToApprove(db, approval)
    ensures Run(run) && run[0] == before[0]
    ensures Late(run[|run| - 1], late) && Moves(run[|run| - 1], late)
    ensures GrantedToNobody(db, late.db, approval, actor, reason)
  {
    var applicant := db.apps[approval.app].applicant;
    assert FormHolds(db.users, db.apps[approval.app]);
    var pk := OnlyRow(db.users, db.roles, applicant, Advisor);
    var revocation := RevokeRole(applicant, Advisor, actor, reason);
    var form, account := Form(db.apps[approval.app]), Account(db.users[applicant]);
    var found, deleted := Txn(approval, Found, form), Txn(revocation, Deleted({pk}, {}), account);
    var a := map[AppRow(approval.app) := 1];
    var b := a[UserRow(applicant) := 2];
    var c := RowLocks(b, revocation, pk);
    var gone := One(Committed(db, deleted), found, Release(c, 2));
    BothAreLogged(db, approval, actor, reason, account);
    hide GrantedToNobody, Run, Moves, One, Two, Close, TablesHold, Committed, Late, RowsOf, RowLocks, Release, Holds;
    run := ApprovalLooks(before, db, approval);
    RevocationBegins(db, found, revocation, a);
    run := Then(run, Two(db, found, Txn(revocation, Begun, Nothing), a));
    run := Then(run, Two(db, found, Txn(revocation, Locked, account), b));
    RevocationPasses(db, found, revocation, b);
    run := Then(run, Two(db, found, Txn(revocation, Allowed({}), account), b));
    RevocationDeletes(db, found, revocation, b, pk);
    run := Then(run, Two(db, found, deleted, c));
    RevocationCommits(db, found, deleted, c);
    run := Then(run, gone);
    ApprovalCommitsLate(gone.db, found, Release(c, 2));
    late := Close(gone, 1).(db := Committed(gone.db, found));
  }

  lemma Then(run: seq<Sys>, after: Sys) returns (longer: seq<Sys>)
    requires Run(run) && Moves(run[|run| - 1], after)
    ensures Run(longer) && longer[0] == run[0] && longer[|longer| - 1] == after
  {
    longer := run + [after];
    OneMoreState(run, after);
  }

  lemma IdleRun(db: State)
    requires TablesHold(db)
    ensures Run([Sys(db, map[], map[], map[])])
  {
    hide TablesHold;
  }

  lemma EndsUnexplained(bootstrap: set<Holding>, db: State, after: State, approval: Request, actor: Id, reason: string)
    requires approval.ReviewApplication? && approval.app in db.apps && GrantedToNobody(db, after, approval, actor, reason)
    ensures !Explained(bootstrap, after)
  {
    var applicant := db.apps[approval.app].applicant;
    var revoked := db.audit + [Entry(applicant, Advisor, Revoke, actor, reason)];
    var granted := Entry(applicant, Advisor, Grant, approval.actor, APPROVAL_REASON);
    assert after.audit == revoked + [granted];
    ReplayOneMore(bootstrap, revoked, granted);
    NotStored(after.roles, applicant, Advisor);
  }

  /**
   So a log that explains the role table need not go on doing so: whenever somebody who holds
   ADVISOR is under review, an approval and a revocation can end in a GRANT for a role nobody holds.
   */
  lemma AuditCanMislead(bootstrap: set<Holding>, db: State, approval: Request, actor: Id, reason: string)
    requires TablesHold(db) && AboutToApprove(db, approval)
    ensures exists run: seq<Sys> ::
              Run(run) && run[0].db == db && GrantedToNobody(db, run[|run| - 1].db, approval, actor, reason)
              && !Explained(bootstrap, run[|run| - 1].db)
  {
    var idle := [Sys(db, map[], map[], map[])];
    IdleRun(db);
    hide Run, Moves, Late, TablesHold, Explained, AboutToApprove, GrantedToNobody;
    var run, late := RoleLostMeanwhile(idle, db, approval, actor, reason);
    EndsUnexplained(bootstrap, db, late.db, approval, actor, reason);
    run := Then(run, late);
  }
}
