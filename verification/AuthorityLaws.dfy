/**
 What each role and application request answers, and what it leaves, in terms of who holds, wears and
 has applied for what: the same for any tables, reachable or not, unless a lemma says otherwise.
 */
module AuthorityLaws {
  import opened Text
  import opened Common
  import opened StaleWrites
  import opened Authority
  import opened AuthorityFacts

  /** Nobody gained or lost a role but by this change. */
  ghost predicate HeldAfter(before: Roles, after: Roles, held: set<Holding>, gone: set<Holding>) {
    forall h: Holding ::
      (exists pk :: pk in after && after[pk] == h) <==>
      h in held || ((exists pk :: pk in before && before[pk] == h) && h !in gone)
  }

  /** The accounts are as they were, but for these columns of one of them. */
  ghost predicate OnlyColumns(before: Users, after: Users, user: Id, columns: set<Column>) {
    && after.Keys == before.Keys
    && (forall u :: u in before && u != user ==> after[u] == before[u])
    && (user in before ==> forall k :: k !in columns ==> (k in after[user] <==> k in before[user])
                                                         && (k in before[user] ==> after[user][k] == before[user][k]))
  }

  ghost predicate IsAdmin(users: Users, roles: Roles, u: Id) {
    && u in users && IsActive in users[u] && users[u][IsActive] == Bool(true)
    && exists pk :: pk in roles && roles[pk] == Holding(u, Admin)
  }

  /** USER first, then what there is a row for, ADVISOR before ADMIN, and nothing twice. */
  lemma HeldRolesAre(roles: Roles, user: Id)
    ensures var held := HeldRoles(roles, user);
            && held != [] && held[0] == User
            && (forall r :: r in held <==>
                  r == User || (r in {Advisor, Admin} && exists pk :: pk in roles && roles[pk] == Holding(user, r)))
            && (forall i, j :: 0 <= i < j < |held| ==> held[i] != held[j] && !(held[i] == Admin && held[j] == Advisor))
  {}

  // --- granting ---

  lemma RoleAdded(roles: Roles, pk: Id, h: Holding)
    ensures pk !in roles ==> HeldAfter(roles, roles[pk := h], {h}, {})
  {
    var after := roles[pk := h];
    assert after[pk] == h;
    if pk !in roles {
      forall k | k in roles
        ensures k in after && after[k] == roles[k]
      {}
    }
  }

  /** A grant goes through for an account without the role. It moves nobody's active role. */
  lemma GrantAnswers(s: State, target: Id, role: Role, actor: Id, reason: string, newPk: Id)
    ensures var reply := GrantRoleSpec(s, target, role, actor, reason, newPk).reply;
            var held := exists pk :: pk in s.roles && s.roles[pk] == Holding(target, role);
            && (reply == Refused(Invalid) <==> role == User)
            && (reply == Refused(NotFound) <==> role != User && target !in s.users)
            && (reply == Refused(Conflict) <==> role != User && target in s.users && held)
            && (reply == Accepted <==> role != User && target in s.users && !held && newPk !in s.roles)
  {}

  lemma GrantLeaves(s: State, target: Id, role: Role, actor: Id, reason: string, newPk: Id)
    ensures var served := GrantRoleSpec(s, target, role, actor, reason, newPk);
            var after := served.state;
            && (served.reply != Accepted ==> after == s)
            && (served.reply == Accepted ==>
                  && HeldAfter(s.roles, after.roles, {Holding(target, role)}, {})
                  && after.users == s.users && after.apps == s.apps && after.notices == s.notices
                  && |after.audit| == |s.audit| + 1 && s.audit <= after.audit
                  && var e := after.audit[|s.audit|];
                  && e.user == target && e.role == role && e.action == Grant && e.actedBy == actor && e.reason == reason)
  {
    RoleAdded(s.roles, newPk, Holding(target, role));
    hide HeldAfter, Holds;
  }

  // --- revoking ---

  lemma TwoAdmins(users: Users, roles: Roles, target: Id)
    requires RolesWellFormed(users, roles)
    ensures (exists pk :: pk in ActiveAdminRows(users, roles) && roles[pk].user == target) && |ActiveAdminRows(users, roles)| > 1
            <==> IsAdmin(users, roles, target) && exists u :: u != target && IsAdmin(users, roles, u)
  {
    var rows := ActiveAdminRows(users, roles);
    if pk :| pk in rows && roles[pk].user == target {
      assert roles[pk] == Holding(target, Admin);
      if |rows| > 1 {
        assert |rows - {pk}| == |rows| - 1;
        var qk :| qk in rows - {pk};
        assert roles[qk] == Holding(roles[qk].user, Admin) && roles[qk].user != target;
        assert IsAdmin(users, roles, roles[qk].user);
      }
      if u :| u != target && IsAdmin(users, roles, u) {
        var qk :| qk in roles && roles[qk] == Holding(u, Admin);
        assert {pk, qk} <= rows;
        assert rows == {pk, qk} + (rows - {pk, qk});
      }
    }
    if IsAdmin(users, roles, target) {
      var pk :| pk in roles && roles[pk] == Holding(target, Admin);
      assert pk in rows;
    }
  }

  /** A role that is held can be revoked; ADMIN only from another, active account, and only while one more is left. */
  lemma RevokeAnswers(s: State, target: Id, role: Role, actor: Id, reason: string)
    requires RolesWellFormed(s.users, s.roles)
    ensures var reply := RevokeRoleSpec(s, target, role, actor, reason).reply;
            var may := && (exists pk :: pk in s.roles && s.roles[pk] == Holding(target, role))
                       && (role == Admin ==> && target != actor && IsAdmin(s.users, s.roles, target)
                                             && exists u :: u != target && IsAdmin(s.users, s.roles, u));
            && (reply == Refused(Invalid) <==> role == User)
            && (reply == Refused(NotFound) <==> role != User && target !in s.users)
            && (reply == Refused(Conflict) <==> role != User && target in s.users && !may)
            && (reply == Accepted <==> role != User && target in s.users && may)
  {
    TwoAdmins(s.users, s.roles, target);
    hide RolesWellFormed, IsAdmin, ActiveAdminRows;
    assert RowsOf(s.roles, target, role) != {} <==> exists pk :: pk in s.roles && s.roles[pk] == Holding(target, role) by {
      if pk :| pk in s.roles && s.roles[pk] == Holding(target, role) { assert pk in RowsOf(s.roles, target, role); }
    }
    hide RowsOf;
  }

  /** It takes that role from that account, and the costume with it, and nothing else from anybody. */
  lemma RevokeLeaves(s: State, target: Id, role: Role, actor: Id, reason: string)
    ensures var served := RevokeRoleSpec(s, target, role, actor, reason);
            var after := served.state;
            && (served.reply != Accepted ==> after == s)
            && (served.reply == Accepted ==>
                  && HeldAfter(s.roles, after.roles, {}, {Holding(target, role)})
                  && after.apps == s.apps && after.notices == s.notices
                  && |after.audit| == |s.audit| + 1 && s.audit <= after.audit
                  && (var e := after.audit[|s.audit|];
                      && e.user == target && e.role == role && e.action == Revoke && e.actedBy == actor && e.reason == reason)
                  && OnlyColumns(s.users, after.users, target, {ActiveRole})
                  && var row := s.users[target];
                  && var worn := role == Advisor && ActiveRole in row && row[ActiveRole] == Str("ADVISOR");
                  && (worn ==> ActiveRole in after.users[target] && after.users[target][ActiveRole] == Str("USER"))
                  && (!worn ==> after.users == s.users))
  {
    hide ActiveAdminRows;
    var after := s.roles - RowsOf(s.roles, target, role);
    forall pk | pk in s.roles && s.roles[pk] != Holding(target, role)
      ensures pk in after && after[pk] == s.roles[pk]
    {}
    assert HeldAfter(s.roles, after, {}, {Holding(target, role)});
    hide HeldAfter, RowsOf;
  }

  // --- switching ---

  lemma SwitchAnswers(s: State, user: Id, worn: Role)
    ensures var reply := SetActiveRoleSpec(s, user, worn).reply;
            var may := worn == User || exists pk :: pk in s.roles && s.roles[pk] == Holding(user, worn);
            && (reply == Refused(Invalid) <==> worn == Admin)
            && (reply == Refused(Forbidden) <==> worn != Admin && user in s.users && !may)
            && (reply == Accepted <==> worn != Admin && user in s.users && may)
  {}

  lemma SwitchLeaves(s: State, user: Id, worn: Role)
    ensures var served := SetActiveRoleSpec(s, user, worn);
            var after := served.state;
            && after.roles == s.roles && after.audit == s.audit && after.apps == s.apps && after.notices == s.notices
            && OnlyColumns(s.users, after.users, user, {ActiveRole})
            && (served.reply != Accepted ==> after == s)
            && (served.reply == Accepted ==>
                  && ActiveRole in after.users[user]
                  && after.users[user][ActiveRole] == if worn == Advisor then Str("ADVISOR") else Str("USER"))
  {
    hide Holds;
  }

  // --- profiles ---

  lemma ProfileAnswers(s: State, user: Id, data: Profile)
    ensures var reply := UpdateProfileSpec(s, user, data).reply;
            var taken := Nickname in data && exists u :: u in s.users && u != user && Nickname in s.users[u]
                                                         && s.users[u][Nickname] == data[Nickname];
            && (reply == Refused(Conflict) <==> user in s.users && taken)
            && (reply == Accepted <==> user in s.users && !taken)
  {}

  lemma ProfileLeaves(s: State, user: Id, data: Profile)
    ensures var served := UpdateProfileSpec(s, user, data);
            var after := served.state;
            && after.roles == s.roles && after.audit == s.audit && after.apps == s.apps && after.notices == s.notices
            && OnlyColumns(s.users, after.users, user, data.Keys)
            && (served.reply != Accepted ==> after == s)
            && (served.reply == Accepted ==> forall k :: k in data ==> k in after.users[user] && after.users[user][k] == data[k])
  {
    hide NicknameTaken;
  }

  // --- applying ---

  /** Open applications of the account and of the name stand in the way; an approved one only while the role is held. */
  lemma ApplyAnswers(s: State, newId: Id, applicant: Id, name: string, now: nat)
    ensures var reply := CreateApplicationSpec(s, newId, applicant, name, now).reply;
            var held := exists pk :: pk in s.roles && s.roles[pk] == Holding(applicant, Advisor);
            var open := exists i :: && i in s.apps && s.apps[i].applicant == applicant
                                    && (s.apps[i].status in {Pending, Reviewing} || (s.apps[i].status == Approved && held));
            var taken := exists i :: && i in s.apps && s.apps[i].displayName == name
                                     && s.apps[i].status in {Pending, Reviewing, Approved};
            && (reply == Accepted <==> !open && !taken && applicant in s.users && newId !in s.apps)
            && (reply != Accepted ==> reply == Refused(Conflict))
  {}

  lemma ApplyLeaves(s: State, newId: Id, applicant: Id, name: string, now: nat)
    ensures var served := CreateApplicationSpec(s, newId, applicant, name, now);
            var after := served.state;
            && after.users == s.users && after.roles == s.roles && after.audit == s.audit && after.notices == s.notices
            && (served.reply != Accepted ==> after == s)
            && (served.reply == Accepted ==>
                  && after.apps.Keys == s.apps.Keys + {newId} && (forall i :: i in s.apps ==> after.apps[i] == s.apps[i])
                  && var a := after.apps[newId];
                  && a.applicant == applicant && a.displayName == name && a.status == Pending && a.submittedAt == now
                  && a.reviewedBy == None && a.reviewedAt == None && a.rejectReason == "")
  {
    hide Blocked, NameTaken;
  }

  // --- reviewing an application ---

  lemma VerdictAnswers(s: State, app: Id, actor: Id, verdict: AppStatus, reason: string, newPk: Id, now: nat)
    ensures var reply := ReviewApplicationSpec(s, app, actor, verdict, reason, newPk, now).reply;
            app in s.apps ==>
              var before := s.apps[app];
              var edge := (before.status == Pending && verdict == Reviewing)
                          || (before.status == Reviewing && verdict in {Approved, Rejected});
              var said := exists i :: 0 <= i < |reason| && !IsSpace(reason[i]);
              var free := (exists pk :: pk in s.roles && s.roles[pk] == Holding(before.applicant, Advisor)) || newPk !in s.roles;
              && (reply == Refused(Conflict) <==> !edge)
              && (reply == Refused(Unprocessable) <==> edge && verdict == Rejected && !said)
              && (reply == Accepted <==> edge && (verdict == Rejected ==> said) && (verdict == Approved ==> free))
    ensures app !in s.apps <==> ReviewApplicationSpec(s, app, actor, verdict, reason, newPk, now).reply == Refused(NotFound)
  {}

  /** An approval gives the role, writes it down and says so; every other verdict touches no role and no log. */
  lemma VerdictLeaves(s: State, app: Id, actor: Id, verdict: AppStatus, reason: string, newPk: Id, now: nat)
    ensures var served := ReviewApplicationSpec(s, app, actor, verdict, reason, newPk, now);
            var after := served.state;
            && after.users == s.users
            && (served.reply != Accepted ==> after == s)
            && (served.reply == Accepted ==>
                  && app in s.apps && after.apps.Keys == s.apps.Keys
                  && (forall i :: i in s.apps && i != app ==> after.apps[i] == s.apps[i])
                  && var before, a := s.apps[app], after.apps[app];
                  && a.applicant == before.applicant && a.displayName == before.displayName && a.submittedAt == before.submittedAt
                  && a.status == verdict && a.reviewedBy == Some(actor) && a.reviewedAt == Some(now)
                  && (verdict == Rejected ==> a.rejectReason == reason)
                  && (verdict != Rejected ==> a.rejectReason == before.rejectReason)
                  && (verdict == Approved ==>
                        && HeldAfter(s.roles, after.roles, {Holding(a.applicant, Advisor)}, {})
                        && after.audit == s.audit + [Entry(a.applicant, Advisor, Grant, actor, "advisor application approved")]
                        && after.notices == s.notices + multiset{ApplicationApproved(a.applicant, app, actor)})
                  && (verdict != Approved ==>
                        && after.roles == s.roles && after.audit == s.audit
                        && after.notices == s.notices + multiset{ApplicationRejected(a.applicant, app, actor, reason)}))
  {
    if app in s.apps {
      var applicant := s.apps[app].applicant;
      RoleAdded(s.roles, newPk, Holding(applicant, Advisor));
      if Holds(s.roles, applicant, Advisor) { assert HeldAfter(s.roles, s.roles, {Holding(applicant, Advisor)}, {}); }
    }
    hide HeldAfter, Holds;
  }
}
