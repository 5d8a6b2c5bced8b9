/**
 Roles and advisor applications: the role functions of `accounts/services.py` and all of
 `advisors/services.py`, each as one call that nothing runs beside.
 */
module Authority {
  import opened Text
  import opened Common
  import opened StaleWrites

  datatype Role = User | Advisor | Admin

  /** A row of `UserRole`; USER is implicit and has no row. */
  datatype Holding = Holding(user: Id, role: Role)

  datatype Action = Grant | Revoke

  /** A row of `RoleGrant`, the append-only audit trail. */
  datatype Entry = Entry(user: Id, role: Role, action: Action, actedBy: Id, reason: string)

  datatype AppStatus = Pending | Reviewing | Approved | Rejected | Withdrawn

  datatype Application = Application(
    applicant: Id, displayName: string, status: AppStatus, submittedAt: nat,
    reviewedBy: Option<Id>, reviewedAt: Option<nat>, rejectReason: string)

  datatype AppNotice =
    | ApplicationApproved(recipient: Id, application: Id, actor: Id)
    | ApplicationRejected(recipient: Id, application: Id, actor: Id, message: string)

  type Users = map<Id, Row>
  type Roles = map<Id, Holding>
  type Applications = map<Id, Application>

  datatype State = State(users: Users, roles: Roles, audit: seq<Entry>, apps: Applications, notices: multiset<AppNotice>)

  datatype Outcome = Outcome(state: State, reply: Reply)

  function Refuse(s: State, e: Error): Outcome { Outcome(s, Refused(e)) }

  // --- reading a user row ---

  predicate Active(row: Row) { IsActive in row && row[IsActive] == Bool(true) }

  predicate WearsAdvisor(row: Row) { ActiveRole in row && row[ActiveRole] == Str("ADVISOR") }

  function RoleName(r: Role): string {
    match r case User => "USER" case Advisor => "ADVISOR" case Admin => "ADMIN"
  }

  predicate Holds(roles: Roles, user: Id, role: Role) {
    exists pk :: pk in roles && roles[pk] == Holding(user, role)
  }

  /** `held_roles`: USER first, then what is stored, in a fixed order. */
  function HeldRoles(roles: Roles, user: Id): seq<Role> {
    [User] + (if Holds(roles, user, Advisor) then [Advisor] else []) + (if Holds(roles, user, Admin) then [Admin] else [])
  }

  /** The ADMIN rows of accounts that can log in. */
  function ActiveAdminRows(users: Users, roles: Roles): set<Id> {
    set pk | pk in roles && roles[pk].role == Admin && roles[pk].user in users && Active(users[roles[pk].user])
  }

  function RowsOf(roles: Roles, user: Id, role: Role): set<Id> {
    set pk | pk in roles && roles[pk] == Holding(user, role)
  }

  // --- accounts/services.py ---

  function GrantRoleSpec(s: State, target: Id, role: Role, actor: Id, reason: string, newPk: Id): Outcome {
    if role == User then Refuse(s, Invalid)
    else if target !in s.users then Refuse(s, NotFound)
    else if Holds(s.roles, target, role) then Refuse(s, Conflict)
    else if newPk in s.roles then Refuse(s, ServerError)
    else
      Outcome(s.(roles := s.roles[newPk := Holding(target, role)],
                 audit := s.audit + [Entry(target, role, Grant, actor, reason)]), Accepted)
  }

  function Demoted(row: Row): Row { row[ActiveRole := Str("USER")] }

  function RevokeRoleSpec(s: State, target: Id, role: Role, actor: Id, reason: string): Outcome {
    if role == User then Refuse(s, Invalid)
    else if target !in s.users then Refuse(s, NotFound)
    else if role == Admin && target == actor then Refuse(s, Conflict)
    else if role == Admin && !(exists pk :: pk in ActiveAdminRows(s.users, s.roles) && s.roles[pk].user == target)
      then Refuse(s, Conflict)
    else if role == Admin && |ActiveAdminRows(s.users, s.roles)| <= 1 then Refuse(s, Conflict)
    else if RowsOf(s.roles, target, role) == {} then Refuse(s, Conflict)
    else
      Outcome(s.(roles := s.roles - RowsOf(s.roles, target, role),
                 audit := s.audit + [Entry(target, role, Revoke, actor, reason)],
                 users := if role == Advisor && WearsAdvisor(s.users[target])
                          then s.users[target := Demoted(s.users[target])] else s.users),
              Accepted)
  }

  /** ADMIN is never worn: the serializer has no such choice. */
  function SetActiveRoleSpec(s: State, user: Id, target: Role): Outcome {
    if target == Admin then Refuse(s, Invalid)
    else if user !in s.users then Refuse(s, ServerError)
    else if target !in HeldRoles(s.roles, user) then Refuse(s, Forbidden)
    else Outcome(s.(users := s.users[user := s.users[user][ActiveRole := Str(RoleName(target))]]), Accepted)
  }

  const PROFILE: set<Column> := {Nickname, Job, Interest, ProfileImage}

  /** A profile PATCH body: the serializer lets through no other column. */
  type Profile = m: Row | m.Keys <= PROFILE witness map[]

  predicate NicknameTaken(users: Users, user: Id, data: Row) {
    Nickname in data && exists u :: u in users && u != user && Nickname in users[u] && users[u][Nickname] == data[Nickname]
  }

  function UpdateProfileSpec(s: State, user: Id, data: Profile): Outcome {
    if user !in s.users then Refuse(s, ServerError)
    else if NicknameTaken(s.users, user, data) then Refuse(s, Conflict)
    else Outcome(s.(users := s.users[user := s.users[user] + data]), Accepted)
  }

  // --- advisors/services.py ---

  predicate InProgress(a: AppStatus) { a == Pending || a == Reviewing }

  /** In the partial unique index over display names. */
  predicate NameReserved(a: AppStatus) { a == Pending || a == Reviewing || a == Approved }

  predicate NameTaken(apps: Applications, name: string) {
    exists i :: i in apps && NameReserved(apps[i].status) && apps[i].displayName == name
  }

  /** An application stands in the way; an approved one only while the applicant holds the role. */
  predicate BlockedIf(apps: Applications, applicant: Id, held: bool) {
    exists i :: i in apps && apps[i].applicant == applicant
                && (InProgress(apps[i].status) || (apps[i].status == Approved && held))
  }

  predicate Blocked(s: State, applicant: Id) { BlockedIf(s.apps, applicant, Holds(s.roles, applicant, Advisor)) }

  function CreateApplicationSpec(s: State, newId: Id, applicant: Id, name: string, now: nat): Outcome {
    if Blocked(s, applicant) then Refuse(s, Conflict)
    else if newId in s.apps || applicant !in s.users || NameTaken(s.apps, name)
      then Refuse(s, Conflict)  // whichever constraint it was, an IntegrityError is answered 409
    else
      Outcome(s.(apps := s.apps[newId := Application(applicant, name, Pending, now, None, None, "")]), Accepted)
  }

  /** `_ALLOWED_TRANSITIONS`. */
  predicate AppEdge(before: AppStatus, after: AppStatus) {
    || (before == Pending && after == Reviewing)
    || (before == Reviewing && (after == Approved || after == Rejected))
  }

  function Reviewed(a: Application, actor: Id, target: AppStatus, reason: string, now: nat): Application {
    a.(status := target, reviewedBy := Some(actor), reviewedAt := Some(now),
       rejectReason := if target == Rejected then reason else a.rejectReason)
  }

  /** The notice is an approval exactly on APPROVED; the code's `else` branch takes every other verdict, REVIEWING too. */
  function ReviewNotice(app: Id, applicant: Id, actor: Id, verdict: AppStatus, reason: string): AppNotice {
    if verdict == Approved then ApplicationApproved(applicant, app, actor)
    else ApplicationRejected(applicant, app, actor, reason)
  }

  const APPROVAL_REASON := "advisor application approved"

  function ReviewApplicationSpec(s: State, app: Id, actor: Id, target: AppStatus, reason: string, newPk: Id, now: nat): Outcome {
    if app !in s.apps then Refuse(s, NotFound)
    else
      var a := s.apps[app];
      if !AppEdge(a.status, target) then Refuse(s, Conflict)
      else if target == Rejected && Blank(reason) then Refuse(s, Unprocessable)
      else
        var told := s.(apps := s.apps[app := Reviewed(a, actor, target, reason, now)],
                       notices := s.notices + multiset{ReviewNotice(app, a.applicant, actor, target, reason)});
        if target != Approved then Outcome(told, Accepted)
        else if !Holds(s.roles, a.applicant, Advisor) && newPk in s.roles then Refuse(s, ServerError)
        else
          Outcome(told.(roles := if Holds(s.roles, a.applicant, Advisor) then s.roles
                                 else s.roles[newPk := Holding(a.applicant, Advisor)],
                        audit := s.audit + [Entry(a.applicant, Advisor, Grant, actor, APPROVAL_REASON)]),
                  Accepted)
  }

  // --- requests ---

  datatype Request =
    | GrantRole(target: Id, role: Role, actor: Id, reason: string, newPk: Id)
    | RevokeRole(target: Id, role: Role, actor: Id, reason: string)
    | SetActiveRole(user: Id, worn: Role)
    | UpdateProfile(user: Id, data: Profile)
    | CreateApplication(newId: Id, applicant: Id, name: string, now: nat)
    | ReviewApplication(app: Id, actor: Id, verdict: AppStatus, reason: string, newPk: Id, now: nat)

  function Serve(s: State, r: Request): Outcome {
    match r
    case GrantRole(target, role, actor, reason, newPk) => GrantRoleSpec(s, target, role, actor, reason, newPk)
    case RevokeRole(target, role, actor, reason) => RevokeRoleSpec(s, target, role, actor, reason)
    case SetActiveRole(user, worn) => SetActiveRoleSpec(s, user, worn)
    case UpdateProfile(user, data) => UpdateProfileSpec(s, user, data)
    case CreateApplication(newId, applicant, name, now) => CreateApplicationSpec(s, newId, applicant, name, now)
    case ReviewApplication(app, actor, verdict, reason, newPk, now) =>
      ReviewApplicationSpec(s, app, actor, verdict, reason, newPk, now)
  }

  function ServeAll(s: State, rs: seq<Request>): State
    decreases |rs|
  {
    if rs == [] then s else Serve(ServeAll(s, rs[..|rs| - 1]), rs[|rs| - 1]).state
  }
}
