/** What holds after any number of role and application requests, one after the other. */
module AuthorityFacts {
  import opened Common
  import opened StaleWrites
  import opened Authority

  // --- the audit log explains the role table ---

  function Stored(roles: Roles): set<Holding> { set pk | pk in roles :: roles[pk] }

  function Entered(held: set<Holding>, e: Entry): set<Holding> {
    if e.action == Grant then held + {Holding(e.user, e.role)} else held - {Holding(e.user, e.role)}
  }

  /** Reading the log from the roles there were before it. */
  function ReplayAudit(bootstrap: set<Holding>, audit: seq<Entry>): set<Holding>
    decreases |audit|
  {
    if audit == [] then bootstrap else Entered(ReplayAudit(bootstrap, audit[..|audit| - 1]), audit[|audit| - 1])
  }

  lemma ReplayOneMore(bootstrap: set<Holding>, audit: seq<Entry>, e: Entry)
    ensures ReplayAudit(bootstrap, audit + [e]) == Entered(ReplayAudit(bootstrap, audit), e)
  {
    assert (audit + [e])[..|audit|] == audit;
  }

  // --- relations between the tables ---

  /** `UserRole`: its unique index, its foreign key, and USER never stored. */
  ghost predicate RolesWellFormed(users: Users, roles: Roles) {
    && (forall pk :: pk in roles ==> roles[pk].role != User && roles[pk].user in users)
    && (forall pk, qk :: pk in roles && qk in roles && pk != qk ==> roles[pk] != roles[qk])
  }

  /** An account acts as a user, or as an advisor while it holds the role, and as nothing else. */
  predicate ActsAs(row: Row, roles: Roles, u: Id) {
    && ActiveRole in row
    && (row[ActiveRole] == Str("USER") || (row[ActiveRole] == Str("ADVISOR") && Holds(roles, u, Advisor)))
  }

  /** A worn role is a held role. */
  ghost predicate WornIsHeld(users: Users, roles: Roles) {
    forall u :: u in users ==> ActsAs(users[u], roles, u)
  }

  ghost predicate AppsWellFormed(users: Users, apps: Applications) {
    && (forall i :: i in apps ==> apps[i].applicant in users && apps[i].status != Withdrawn)
    && (forall i, j :: i in apps && j in apps && i != j && InProgress(apps[i].status) && InProgress(apps[j].status) ==>
          apps[i].applicant != apps[j].applicant)
    && (forall i, j :: i in apps && j in apps && i != j && NameReserved(apps[i].status) && NameReserved(apps[j].status) ==>
          apps[i].displayName != apps[j].displayName)
  }

  predicate ApprovedBy(apps: Applications, recipient: Id, i: Id, actor: Id) {
    i in apps && apps[i].status == Approved && apps[i].applicant == recipient && apps[i].reviewedBy == Some(actor)
  }

  /** Each approval is told to its applicant once, and nothing else is told as an approval. */
  ghost predicate ApprovalsTold(apps: Applications, notices: multiset<AppNotice>) {
    forall recipient: Id, i: Id, actor: Id ::
      notices[ApplicationApproved(recipient, i, actor)] == if ApprovedBy(apps, recipient, i, actor) then 1 else 0
  }

  ghost predicate Sound(bootstrap: set<Holding>, s: State) {
    && RolesWellFormed(s.users, s.roles)
    && WornIsHeld(s.users, s.roles)
    && ActiveAdminRows(s.users, s.roles) != {}
    && ReplayAudit(bootstrap, s.audit) == Stored(s.roles)
    && AppsWellFormed(s.users, s.apps)
    && ApprovalsTold(s.apps, s.notices)
  }

  /** Right after the bootstrap: some accounts, some roles, an active administrator, nothing logged yet. */
  ghost predicate Fresh(s: State) {
    && RolesWellFormed(s.users, s.roles) && WornIsHeld(s.users, s.roles)
    && ActiveAdminRows(s.users, s.roles) != {}
    && s.audit == [] && s.apps == map[] && s.notices == multiset{}
  }

  lemma FreshIsSound(s: State)
    requires Fresh(s)
    ensures Sound(Stored(s.roles), s)
  {}

  // --- granting and revoking ---

  /** Adding a row takes no role from anybody. */
  lemma RolesGrow(roles: Roles, pk: Id, h: Holding)
    requires pk !in roles
    ensures forall u, role :: Holds(roles, u, role) ==> Holds(roles[pk := h], u, role)
    ensures Holds(roles[pk := h], h.user, h.role)
    ensures Stored(roles[pk := h]) == Stored(roles) + {h}
  {
    var after := roles[pk := h];
    assert after[pk] == h;
    forall k | k in roles
      ensures k in after && after[k] == roles[k]
    {}
    forall u, role | Holds(roles, u, role)
      ensures Holds(after, u, role)
    {
      var k :| k in roles && roles[k] == Holding(u, role);
      assert after[k] == roles[k];
    }
    forall g | g in Stored(roles)
      ensures g in Stored(after)
    {
      var k :| k in roles && roles[k] == g;
      assert after[k] == g;
    }
  }

  lemma Granted(users: Users, roles: Roles, pk: Id, user: Id, role: Role)
    requires RolesWellFormed(users, roles) && WornIsHeld(users, roles) && ActiveAdminRows(users, roles) != {}
    requires pk !in roles && user in users && role != User && !Holds(roles, user, role)
    ensures var after := roles[pk := Holding(user, role)];
            && RolesWellFormed(users, after) && WornIsHeld(users, after) && ActiveAdminRows(users, after) != {}
            && Stored(after) == Stored(roles) + {Holding(user, role)}
            && Holds(after, user, role)
  {
    var after := roles[pk := Holding(user, role)];
    RolesGrow(roles, pk, Holding(user, role));
    assert ActiveAdminRows(users, after) != {} by {
      var admin :| admin in ActiveAdminRows(users, roles);
      assert admin in ActiveAdminRows(users, after);
    }
    hide ActiveAdminRows, Stored;
    assert RolesWellFormed(users, after);
    hide RolesWellFormed, Holds;
    assert WornIsHeld(users, after);
  }

  lemma RevokedRows(users: Users, roles: Roles, user: Id, role: Role)
    requires RolesWellFormed(users, roles)
    ensures var after := roles - RowsOf(roles, user, role);
            && RolesWellFormed(users, after)
            && Stored(after) == Stored(roles) - {Holding(user, role)}
            && !Holds(after, user, role)
  {
    var after := roles - RowsOf(roles, user, role);
    forall h | h in Stored(roles) - {Holding(user, role)}
      ensures h in Stored(after)
    {
      var k :| k in roles && roles[k] == h;
      assert k in after && after[k] == h;
    }
  }

  lemma RevokedWorn(users: Users, roles: Roles, user: Id, role: Role, row: Row)
    requires WornIsHeld(users, roles) && user in users
    requires role == Advisor ==> ActiveRole in row && row[ActiveRole] == Str("USER")
    requires role != Advisor ==> row == users[user]
    ensures WornIsHeld(users[user := row], roles - RowsOf(roles, user, role))
  {
    var after := roles - RowsOf(roles, user, role);
    forall u | Holds(roles, u, Advisor) && (u != user || role != Advisor)
      ensures Holds(after, u, Advisor)
    {
      var k :| k in roles && roles[k] == Holding(u, Advisor);
      assert after[k] == roles[k];
    }
    forall u | u in users
      ensures ActsAs(users[user := row][u], after, u)
    {
      assert ActsAs(users[u], roles, u);
    }
  }

  /** Two counted administrators, one revoked: one is left. */
  lemma AdminLeft(users: Users, roles: Roles, user: Id)
    requires RolesWellFormed(users, roles)
    requires |ActiveAdminRows(users, roles)| > 1
    ensures ActiveAdminRows(users, roles - RowsOf(roles, user, Admin)) != {}
  {
    var admins := ActiveAdminRows(users, roles);
    var a :| a in admins;
    assert |admins - {a}| == |admins| - 1;
    var b :| b in admins - {a};
    var left := if roles[a].user == user then b else a;
    assert roles[a] != roles[b];
    assert left in ActiveAdminRows(users, roles - RowsOf(roles, user, Admin));
  }

  lemma OtherRevokeLeavesAdmins(users: Users, roles: Roles, user: Id, row: Row)
    requires ActiveAdminRows(users, roles) != {} && user in users && (Active(users[user]) ==> Active(row))
    ensures ActiveAdminRows(users[user := row], roles - RowsOf(roles, user, Advisor)) != {}
  {
    var a :| a in ActiveAdminRows(users, roles);
    assert a in ActiveAdminRows(users[user := row], roles - RowsOf(roles, user, Advisor));
  }

  lemma SameUsers(users: Users, roles: Roles, apps: Applications, user: Id, row: Row)
    requires user in users && RolesWellFormed(users, roles) && AppsWellFormed(users, apps)
    ensures RolesWellFormed(users[user := row], roles) && AppsWellFormed(users[user := row], apps)
  {}

  lemma GrantKeeps(bootstrap: set<Holding>, s: State, target: Id, role: Role, actor: Id, reason: string, newPk: Id)
    requires Sound(bootstrap, s)
    ensures Sound(bootstrap, GrantRoleSpec(s, target, role, actor, reason, newPk).state)
  {
    var after := GrantRoleSpec(s, target, role, actor, reason, newPk).state;
    hide RolesWellFormed, WornIsHeld, AppsWellFormed, ApprovalsTold, Holds, ReplayAudit, ActiveAdminRows;
    if after != s {
      Granted(s.users, s.roles, newPk, target, role);
      ReplayOneMore(bootstrap, s.audit, Entry(target, role, Grant, actor, reason));
    }
  }

  lemma RevokeKeeps(bootstrap: set<Holding>, s: State, target: Id, role: Role, actor: Id, reason: string)
    requires Sound(bootstrap, s)
    ensures Sound(bootstrap, RevokeRoleSpec(s, target, role, actor, reason).state)
  {
    var after := RevokeRoleSpec(s, target, role, actor, reason).state;
    if after != s {
      var row := if role == Advisor && WearsAdvisor(s.users[target]) then Demoted(s.users[target]) else s.users[target];
      assert after.users == s.users[target := row];
      assert Active(s.users[target]) ==> Active(row);
      assert ActsAs(s.users[target], s.roles, target);
      assert role == Advisor ==> ActiveRole in row && row[ActiveRole] == Str("USER");
      hide RolesWellFormed, WornIsHeld, AppsWellFormed, ApprovalsTold, ReplayAudit, ActiveAdminRows, Stored;
      RevokedRows(s.users, s.roles, target, role);
      RevokedWorn(s.users, s.roles, target, role, row);
      ReplayOneMore(bootstrap, s.audit, Entry(target, role, Revoke, actor, reason));
      if role == Admin { AdminLeft(s.users, s.roles, target); } else { OtherRevokeLeavesAdmins(s.users, s.roles, target, row); }
      SameUsers(s.users, after.roles, s.apps, target, row);
    }
  }

  // --- rows of accounts ---

  lemma SwitchKeeps(bootstrap: set<Holding>, s: State, user: Id, target: Role)
    requires Sound(bootstrap, s)
    ensures Sound(bootstrap, SetActiveRoleSpec(s, user, target).state)
  {
    var after := SetActiveRoleSpec(s, user, target).state;
    if after != s {
      var row := after.users[user];
      assert after.users == s.users[user := row];
      assert ActsAs(row, s.roles, user);
      HeldWorn(s.users, s.roles, user, row);
      hide RolesWellFormed, WornIsHeld, AppsWellFormed, ApprovalsTold, ReplayAudit, Stored;
      SameUsers(s.users, s.roles, s.apps, user, row);
      SameActivity(s.users, s.roles, user, row);
    }
  }

  lemma HeldWorn(users: Users, roles: Roles, user: Id, row: Row)
    requires WornIsHeld(users, roles) && user in users
    requires ActsAs(row, roles, user)
    ensures WornIsHeld(users[user := row], roles)
  {}

  lemma SameActivity(users: Users, roles: Roles, user: Id, row: Row)
    requires user in users && Active(row) == Active(users[user])
    ensures ActiveAdminRows(users[user := row], roles) == ActiveAdminRows(users, roles)
  {}

  lemma ProfileKeeps(bootstrap: set<Holding>, s: State, user: Id, data: Profile)
    requires Sound(bootstrap, s)
    ensures Sound(bootstrap, UpdateProfileSpec(s, user, data).state)
  {
    hide NicknameTaken;
    var after := UpdateProfileSpec(s, user, data).state;
    if after != s {
      var row := after.users[user];
      assert ActiveRole !in data && IsActive !in data;
      assert Active(row) == Active(s.users[user]) && ActsAs(s.users[user], s.roles, user) && ActsAs(row, s.roles, user);
      HeldWorn(s.users, s.roles, user, row);
      hide RolesWellFormed, WornIsHeld, AppsWellFormed, ApprovalsTold, ReplayAudit, Stored;
      SameUsers(s.users, s.roles, s.apps, user, row);
      SameActivity(s.users, s.roles, user, row);
    }
  }

  // --- applications ---

  lemma ApplyKeeps(bootstrap: set<Holding>, s: State, newId: Id, applicant: Id, name: string, now: nat)
    requires Sound(bootstrap, s)
    ensures Sound(bootstrap, CreateApplicationSpec(s, newId, applicant, name, now).state)
  {
    hide RolesWellFormed, WornIsHeld, ReplayAudit, Stored, ActiveAdminRows;
    var after := CreateApplicationSpec(s, newId, applicant, name, now).state;
    if after != s {
      forall i | i in s.apps
        ensures InProgress(s.apps[i].status) ==> s.apps[i].applicant != applicant
        ensures NameReserved(s.apps[i].status) ==> s.apps[i].displayName != name
      {}
    }
  }

  lemma VerdictKeepsApps(users: Users, apps: Applications, i: Id, actor: Id, verdict: AppStatus, reason: string, now: nat)
    requires i in apps && AppEdge(apps[i].status, verdict) && AppsWellFormed(users, apps)
    ensures AppsWellFormed(users, apps[i := Reviewed(apps[i], actor, verdict, reason, now)])
  {}

  lemma VerdictIsTold(apps: Applications, notices: multiset<AppNotice>, i: Id, actor: Id, verdict: AppStatus, reason: string,
                      now: nat)
    requires i in apps && AppEdge(apps[i].status, verdict) && ApprovalsTold(apps, notices)
    ensures ApprovalsTold(apps[i := Reviewed(apps[i], actor, verdict, reason, now)],
                          notices + multiset{ReviewNotice(i, apps[i].applicant, actor, verdict, reason)})
  {}

  lemma ReviewKeeps(bootstrap: set<Holding>, s: State, app: Id, actor: Id, verdict: AppStatus, reason: string, newPk: Id,
                    now: nat)
    requires Sound(bootstrap, s)
    ensures Sound(bootstrap, ReviewApplicationSpec(s, app, actor, verdict, reason, newPk, now).state)
  {
    var after := ReviewApplicationSpec(s, app, actor, verdict, reason, newPk, now).state;
    if after != s {
      var applicant := s.apps[app].applicant;
      assert applicant in s.users;
      hide RolesWellFormed, WornIsHeld, AppsWellFormed, ApprovalsTold, ReplayAudit, Stored, Holds, ActiveAdminRows;
      VerdictKeepsApps(s.users, s.apps, app, actor, verdict, reason, now);
      VerdictIsTold(s.apps, s.notices, app, actor, verdict, reason, now);
      if verdict == Approved {
        ReplayOneMore(bootstrap, s.audit, Entry(applicant, Advisor, Grant, actor, APPROVAL_REASON));
        if Holds(s.roles, applicant, Advisor) { AlreadyStored(s.roles, applicant, Advisor); }
        else { Granted(s.users, s.roles, newPk, applicant, Advisor); }
      }
    }
  }

  lemma AlreadyStored(roles: Roles, user: Id, role: Role)
    requires Holds(roles, user, role)
    ensures Stored(roles) + {Holding(user, role)} == Stored(roles)
  {}

  lemma RequestKeeps(bootstrap: set<Holding>, s: State, r: Request)
    requires Sound(bootstrap, s)
    ensures Sound(bootstrap, Serve(s, r).state)
  {
    hide Sound;
    match r
    case GrantRole(target, role, actor, reason, newPk) => GrantKeeps(bootstrap, s, target, role, actor, reason, newPk);
    case RevokeRole(target, role, actor, reason) => RevokeKeeps(bootstrap, s, target, role, actor, reason);
    case SetActiveRole(user, worn) => SwitchKeeps(bootstrap, s, user, worn);
    case UpdateProfile(user, data) => ProfileKeeps(bootstrap, s, user, data);
    case CreateApplication(newId, applicant, name, now) => ApplyKeeps(bootstrap, s, newId, applicant, name, now);
    case ReviewApplication(app, actor, verdict, reason, newPk, now) =>
      ReviewKeeps(bootstrap, s, app, actor, verdict, reason, newPk, now);
  }

  /** After any serial run from a bootstrap, all of it holds. */
  lemma {:induction false} SerialRunIsSound(s: State, rs: seq<Request>)
    requires Fresh(s)
    ensures Sound(Stored(s.roles), ServeAll(s, rs))
    decreases |rs|
  {
    if rs == [] {
      FreshIsSound(s);
    } else {
      SerialRunIsSound(s, rs[..|rs| - 1]);
      hide Sound, Fresh, Serve;
      RequestKeeps(Stored(s.roles), ServeAll(s, rs[..|rs| - 1]), rs[|rs| - 1]);
    }
  }

  /** Replaying the audit log from the bootstrap roles gives the role table, after any serial run. */
  lemma AuditExplainsRoles(s: State, rs: seq<Request>)
    requires Fresh(s)
    ensures ReplayAudit(Stored(s.roles), ServeAll(s, rs).audit) == Stored(ServeAll(s, rs).roles)
  {
    SerialRunIsSound(s, rs);
    hide ServeAll, ReplayAudit, Stored, Fresh, RolesWellFormed, WornIsHeld, AppsWellFormed, ApprovalsTold, ActiveAdminRows;
  }

  // --- revocation is no dead end ---

  /** The application of `u` still in progress, if there is one. */
  lemma OpenApplication(s: State, u: Id) returns (i: Option<Id>)
    ensures i.Some? ==> i.value in s.apps && s.apps[i.value].applicant == u && InProgress(s.apps[i.value].status)
    ensures i.None? ==> forall j :: j in s.apps && s.apps[j].applicant == u ==> !InProgress(s.apps[j].status)
  {
    if j :| j in s.apps && s.apps[j].applicant == u && InProgress(s.apps[j].status) {
      i := Some(j);
    } else {
      i := None;
    }
  }

  /** On the way back by applying: `u` applies or an application of `u` is reviewed, and the request succeeds. */
  predicate OnTheWay(s: State, r: Request, u: Id) {
    && Serve(s, r).reply == Accepted
    && match r
       case CreateApplication(_, applicant, _, _) => applicant == u
       case ReviewApplication(app, _, _, _, _, _) => app in s.apps && s.apps[app].applicant == u
       case _ => false
  }

  /** Nothing but such requests, one after the other; no grant among them. */
  predicate ByApplying(s: State, rs: seq<Request>, u: Id)
    decreases |rs|
  {
    rs != [] ==> ByApplying(s, rs[..|rs| - 1], u) && OnTheWay(ServeAll(s, rs[..|rs| - 1]), rs[|rs| - 1], u)
  }

  lemma ApproveFromReviewing(s: State, u: Id, i: Id, actor: Id, newPk: Id, now: nat)
    requires i in s.apps && s.apps[i].applicant == u && s.apps[i].status == Reviewing && newPk !in s.roles
    ensures OnTheWay(s, ReviewApplication(i, actor, Approved, "", newPk, now), u)
    ensures Holds(Serve(s, ReviewApplication(i, actor, Approved, "", newPk, now)).state.roles, u, Advisor)
  {
    var after := Serve(s, ReviewApplication(i, actor, Approved, "", newPk, now)).state;
    if !Holds(s.roles, u, Advisor) { assert after.roles[newPk] == Holding(u, Advisor); }
  }

  lemma WayOfThree(s: State, a: Request, b: Request, c: Request, u: Id)
    ensures ServeAll(s, [a]) == Serve(s, a).state
    ensures ServeAll(s, [a, b]) == Serve(Serve(s, a).state, b).state
    ensures ServeAll(s, [a, b, c]) == Serve(Serve(Serve(s, a).state, b).state, c).state
    ensures ByApplying(s, [a], u) <==> OnTheWay(s, a, u)
    ensures ByApplying(s, [a, b], u) <==> OnTheWay(s, a, u) && OnTheWay(Serve(s, a).state, b, u)
    ensures ByApplying(s, [a, b, c], u) <==>
            OnTheWay(s, a, u) && OnTheWay(Serve(s, a).state, b, u) && OnTheWay(Serve(Serve(s, a).state, b).state, c, u)
  {
    hide Serve, OnTheWay;
    assert [a][..0] == [];
    assert [a, b][..1] == [a];
    assert [a, b, c][..2] == [a, b];
  }

  /** A PENDING application: look at it, approve it. */
  lemma ApproveFromPending(s: State, u: Id, i: Id, actor: Id, newPk: Id, now: nat)
    requires i in s.apps && s.apps[i].applicant == u && s.apps[i].status == Pending && newPk !in s.roles
    ensures OnTheWay(s, ReviewApplication(i, actor, Reviewing, "", newPk, now), u)
    ensures var looked := Serve(s, ReviewApplication(i, actor, Reviewing, "", newPk, now)).state;
            && OnTheWay(looked, ReviewApplication(i, actor, Approved, "", newPk, now), u)
            && Holds(Serve(looked, ReviewApplication(i, actor, Approved, "", newPk, now)).state.roles, u, Advisor)
  {
    var looked := Serve(s, ReviewApplication(i, actor, Reviewing, "", newPk, now)).state;
    assert looked.apps[i].status == Reviewing && looked.apps[i].applicant == u && looked.roles == s.roles;
    hide Serve, Holds, OnTheWay;
    ApproveFromReviewing(looked, u, i, actor, newPk, now);
  }

  lemma ApplyThenApprove(s: State, u: Id, i: Id, name: string, actor: Id, newPk: Id, now: nat)
    requires u in s.users && i !in s.apps && newPk !in s.roles && !Blocked(s, u) && !NameTaken(s.apps, name)
    ensures OnTheWay(s, CreateApplication(i, u, name, now), u)
    ensures var applied := Serve(s, CreateApplication(i, u, name, now)).state;
            && OnTheWay(applied, ReviewApplication(i, actor, Reviewing, "", newPk, now), u)
            && var looked := Serve(applied, ReviewApplication(i, actor, Reviewing, "", newPk, now)).state;
            && OnTheWay(looked, ReviewApplication(i, actor, Approved, "", newPk, now), u)
            && Holds(Serve(looked, ReviewApplication(i, actor, Approved, "", newPk, now)).state.roles, u, Advisor)
  {
    hide Blocked, NameTaken, Holds;
    var applied := Serve(s, CreateApplication(i, u, name, now)).state;
    assert applied.roles == s.roles && applied.apps[i].applicant == u && applied.apps[i].status == Pending;
    assert OnTheWay(s, CreateApplication(i, u, name, now), u);
    hide Serve, OnTheWay;
    ApproveFromPending(applied, u, i, actor, newPk, now);
  }

  /**
   From every reachable state, an account without ADVISOR gets it by applying and being reviewed, in at
   most three requests that all succeed, no administrator granting it: a role revoked can be earned again.
   */
  lemma AdvisorIsThreeStepsAway(bootstrap: set<Holding>, s: State, u: Id, name: string, actor: Id, newId: Id, newPk: Id, now: nat)
    requires Sound(bootstrap, s) && u in s.users && !Holds(s.roles, u, Advisor)
    requires !NameTaken(s.apps, name) && newId !in s.apps && newPk !in s.roles
    ensures exists rs: seq<Request> :: |rs| <= 3 && ByApplying(s, rs, u) && Holds(ServeAll(s, rs).roles, u, Advisor)
  {
    var open := OpenApplication(s, u);
    hide Sound, NameTaken, ServeAll, Serve, OnTheWay, ByApplying;
    var i := if open.Some? then open.value else newId;
    var apply := CreateApplication(newId, u, name, now);
    var look := ReviewApplication(i, actor, Reviewing, "", newPk, now);
    var approve := ReviewApplication(i, actor, Approved, "", newPk, now);
    if open.None? {
      assert !Blocked(s, u);
      hide Blocked, Holds;
      ApplyThenApprove(s, u, newId, name, actor, newPk, now);
      WayOfThree(s, apply, look, approve, u);
      assert Holds(ServeAll(s, [apply, look, approve]).roles, u, Advisor);
    } else if s.apps[i].status == Pending {
      hide Blocked, Holds;
      ApproveFromPending(s, u, i, actor, newPk, now);
      WayOfThree(s, look, approve, approve, u);
      assert Holds(ServeAll(s, [look, approve]).roles, u, Advisor);
    } else {
      hide Blocked, Holds;
      ApproveFromReviewing(s, u, i, actor, newPk, now);
      WayOfThree(s, approve, approve, approve, u);
      assert Holds(ServeAll(s, [approve]).roles, u, Advisor);
    }
  }

  lemma AdvisorRevoked(s: State, u: Id, admin: Id, reason: string)
    requires RevokeRoleSpec(s, u, Advisor, admin, reason).reply == Accepted
    ensures var revoked := RevokeRoleSpec(s, u, Advisor, admin, reason).state;
            revoked.roles == s.roles - RowsOf(s.roles, u, Advisor) && u in revoked.users && revoked.apps == s.apps
  {
    hide RowsOf, ActiveAdminRows;
  }

  /** And so does an advisor right after losing the role. */
  lemma RevokedCanReturn(bootstrap: set<Holding>, s: State, u: Id, admin: Id, reason: string, name: string, actor: Id, newId: Id,
                         newPk: Id, now: nat)
    requires Sound(bootstrap, s) && RevokeRoleSpec(s, u, Advisor, admin, reason).reply == Accepted
    requires !NameTaken(s.apps, name) && newId !in s.apps && newPk !in s.roles
    ensures var revoked := RevokeRoleSpec(s, u, Advisor, admin, reason).state;
            && !Holds(revoked.roles, u, Advisor)
            && exists rs: seq<Request> ::
                 |rs| <= 3 && ByApplying(revoked, rs, u) && Holds(ServeAll(revoked, rs).roles, u, Advisor)
  {
    var revoked := RevokeRoleSpec(s, u, Advisor, admin, reason).state;
    RevokeKeeps(bootstrap, s, u, Advisor, admin, reason);
    AdvisorRevoked(s, u, admin, reason);
    assert RolesWellFormed(s.users, s.roles);
    RevokedRows(s.users, s.roles, u, Advisor);
    hide Sound, RevokeRoleSpec, ByApplying, ServeAll, NameTaken, RowsOf, RolesWellFormed, Stored, Holds;
    AdvisorIsThreeStepsAway(bootstrap, revoked, u, name, actor, newId, newPk, now);
  }
}
