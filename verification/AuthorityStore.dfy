/** The role and application tables, updated in place the way the service functions update them. */
module AuthorityStore {
  import opened Text
  import opened Common
  import opened StaleWrites
  import opened Authority
  import opened AuthorityFacts

  /** What held of roles, audit log and applications still does, whatever the bootstrap was. */
  ghost predicate StaySound(before: State, after: State) {
    forall bootstrap :: Sound(bootstrap, before) ==> Sound(bootstrap, after)
  }

  lemma RequestStaysSound(s: State, r: Request)
    ensures StaySound(s, Serve(s, r).state)
  {
    hide Sound, Serve;
    forall bootstrap | Sound(bootstrap, s)
      ensures Sound(bootstrap, Serve(s, r).state)
    {
      RequestKeeps(bootstrap, s, r);
    }
  }

  class RoleStore {
    var users: Users
    var roles: Roles
    var audit: seq<Entry>
    var apps: Applications
    var notices: multiset<AppNotice>

    ghost function Contents(): State
      reads this
    {
      State(users, roles, audit, apps, notices)
    }

    constructor (users: Users, roles: Roles)
      ensures Contents() == State(users, roles, [], map[], multiset{})
    {
      this.users, this.roles, audit, apps, notices := users, roles, [], map[], multiset{};
    }

    /** USER, and then each grantable role the account has a row for. */
    method ListHeldRoles(user: Id) returns (held: seq<Role>)
      ensures held == HeldRoles(roles, user)
    {
      held := [User];
      var order := [Advisor, Admin];
      var i := 0;
      while i < |order|
        invariant 0 <= i <= |order|
        invariant held == [User] + (if i > 0 && Holds(roles, user, Advisor) then [Advisor] else [])
                          + (if i > 1 && Holds(roles, user, Admin) then [Admin] else [])
      {
        if Holds(roles, user, order[i]) { held := held + [order[i]]; }
        i := i + 1;
      }
    }

    method GrantRole(target: Id, role: Role, actor: Id, reason: string, newPk: Id) returns (reply: Reply)
      modifies this
      ensures Outcome(Contents(), reply) == GrantRoleSpec(old(Contents()), target, role, actor, reason, newPk)
      ensures StaySound(old(Contents()), Contents())
    {
      hide StaySound, RevokeRoleSpec, SetActiveRoleSpec, UpdateProfileSpec, CreateApplicationSpec, ReviewApplicationSpec;
      RequestStaysSound(Contents(), Request.GrantRole(target, role, actor, reason, newPk));
      if role !in {Advisor, Admin} { return Refused(Invalid); }
      if target !in users { return Refused(NotFound); }
      if Holds(roles, target, role) { return Refused(Conflict); }
      if newPk in roles { return Refused(ServerError); }
      roles := roles[newPk := Holding(target, role)];
      audit := audit + [Entry(target, role, Grant, actor, reason)];
      return Accepted;
    }

    method RevokeRole(target: Id, role: Role, actor: Id, reason: string) returns (reply: Reply)
      modifies this
      ensures Outcome(Contents(), reply) == RevokeRoleSpec(old(Contents()), target, role, actor, reason)
      ensures StaySound(old(Contents()), Contents())
    {
      hide StaySound, GrantRoleSpec, SetActiveRoleSpec, UpdateProfileSpec, CreateApplicationSpec, ReviewApplicationSpec;
      RequestStaysSound(Contents(), Request.RevokeRole(target, role, actor, reason));
      if role !in {Advisor, Admin} { return Refused(Invalid); }
      if target !in users { return Refused(NotFound); }
      var locked := users[target];
      if role == Admin {
        if target == actor { return Refused(Conflict); }
        var adminRows := ActiveAdminRows(users, roles);
        if !(exists pk :: pk in adminRows && roles[pk].user == target) { return Refused(Conflict); }
        if |adminRows| <= 1 { return Refused(Conflict); }
      }
      var deleted := RowsOf(roles, target, role);
      roles := roles - deleted;
      if deleted == {} {
        assert roles == old(roles);
        return Refused(Conflict);
      }
      audit := audit + [Entry(target, role, Revoke, actor, reason)];
      if role == Advisor && WearsAdvisor(locked) {
        locked := locked[ActiveRole := Str("USER")];
        users := users[target := users[target][ActiveRole := locked[ActiveRole]]];
      }
      return Accepted;
    }

    method SetActiveRole(user: Id, target: Role) returns (reply: Reply)
      modifies this
      ensures Outcome(Contents(), reply) == SetActiveRoleSpec(old(Contents()), user, target)
      ensures StaySound(old(Contents()), Contents())
    {
      hide StaySound, GrantRoleSpec, RevokeRoleSpec, UpdateProfileSpec, CreateApplicationSpec, ReviewApplicationSpec;
      RequestStaysSound(Contents(), Request.SetActiveRole(user, target));
      if target == Admin { return Refused(Invalid); }
      if user !in users { return Refused(ServerError); }
      var held := ListHeldRoles(user);
      if target !in held { return Refused(Forbidden); }
      users := users[user := users[user][ActiveRole := Str(RoleName(target))]];
      return Accepted;
    }

    method UpdateProfile(user: Id, data: Profile) returns (reply: Reply)
      modifies this
      ensures Outcome(Contents(), reply) == UpdateProfileSpec(old(Contents()), user, data)
      ensures StaySound(old(Contents()), Contents())
    {
      hide StaySound, GrantRoleSpec, RevokeRoleSpec, SetActiveRoleSpec, CreateApplicationSpec, ReviewApplicationSpec;
      RequestStaysSound(Contents(), Request.UpdateProfile(user, data));
      if user !in users { return Refused(ServerError); }
      var locked := users[user];
      var rest := data.Keys;
      while rest != {}
        invariant rest <= data.Keys
        invariant locked == users[user] + Only(data, data.Keys - rest)
        decreases rest
      {
        var c :| c in rest;
        assert data.Keys - (rest - {c}) == data.Keys - rest + {c};
        locked := locked[c := data[c]];
        rest := rest - {c};
      }
      assert Only(data, data.Keys - rest) == data;
      if NicknameTaken(users, user, data) { return Refused(Conflict); }
      users := users[user := users[user] + Only(locked, data.Keys)];
      assert old(users)[user] + Only(locked, data.Keys) == old(users)[user] + data;
      return Accepted;
    }

    method CreateApplication(newId: Id, applicant: Id, name: string, now: nat) returns (reply: Reply)
      modifies this
      ensures Outcome(Contents(), reply) == CreateApplicationSpec(old(Contents()), newId, applicant, name, now)
      ensures StaySound(old(Contents()), Contents())
    {
      hide StaySound, GrantRoleSpec, RevokeRoleSpec, SetActiveRoleSpec, UpdateProfileSpec, ReviewApplicationSpec;
      RequestStaysSound(Contents(), Request.CreateApplication(newId, applicant, name, now));
      var blocking := set i | i in apps && apps[i].applicant == applicant
                              && (apps[i].status == Pending || apps[i].status == Reviewing || apps[i].status == Approved);
      if !Holds(roles, applicant, Advisor) {
        blocking := set i | i in blocking && apps[i].status != Approved;
      }
      assert blocking != {} <==> Blocked(Contents(), applicant) by {
        if blocking != {} { var i :| i in blocking; assert i in apps; }
        if Blocked(Contents(), applicant) {
          var i :| i in apps && apps[i].applicant == applicant
                   && (InProgress(apps[i].status) || (apps[i].status == Approved && Holds(roles, applicant, Advisor)));
          assert i in blocking;
        }
      }
      if blocking != {} { return Refused(Conflict); }
      if newId in apps || applicant !in users || NameTaken(apps, name) { return Refused(Conflict); }
      apps := apps[newId := Application(applicant, name, Pending, now, None, None, "")];
      return Accepted;
    }

    method ReviewApplication(id: Id, actor: Id, target: AppStatus, reason: string, newPk: Id, now: nat) returns (reply: Reply)
      modifies this
      ensures Outcome(Contents(), reply) == ReviewApplicationSpec(old(Contents()), id, actor, target, reason, newPk, now)
      ensures StaySound(old(Contents()), Contents())
    {
      hide StaySound, GrantRoleSpec, RevokeRoleSpec, SetActiveRoleSpec, UpdateProfileSpec, CreateApplicationSpec;
      RequestStaysSound(Contents(), Request.ReviewApplication(id, actor, target, reason, newPk, now));
      if id !in apps { return Refused(NotFound); }
      var application := apps[id];
      var allowed := match application.status
        case Pending => {Reviewing}
        case Reviewing => {Approved, Rejected}
        case _ => {};
      if target !in allowed { return Refused(Conflict); }
      if target == Rejected && Blank(reason) { return Refused(Unprocessable); }

      var applicant := application.applicant;
      var found := Holds(roles, applicant, Advisor);
      if target == Approved && !found && newPk in roles { return Refused(ServerError); }

      application := application.(status := target);
      application := application.(reviewedBy := Some(actor));
      application := application.(reviewedAt := Some(now));
      if target == Rejected {
        application := application.(rejectReason := reason);
      }
      apps := apps[id := application];

      if target == Approved {
        if !found { roles := roles[newPk := Holding(applicant, Advisor)]; }
        audit := audit + [Entry(applicant, Advisor, Grant, actor, "advisor application approved")];
        notices := notices + multiset{ApplicationApproved(applicant, id, actor)};
      } else {
        notices := notices + multiset{ApplicationRejected(applicant, id, actor, reason)};
      }
      return Accepted;
    }
  }
}
