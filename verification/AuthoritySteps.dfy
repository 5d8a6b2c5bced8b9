/**
 The requests of `Authority`, statement by statement and any number of them at once, beside
 in-memory account rows that are loaded, changed and saved whenever somebody likes.
 */
module AuthoritySteps {
  import opened Text
  import opened Common
  import opened StaleWrites
  import opened Authority

  type Tid = nat

  type CopyId = nat

  datatype Lock =
    | UserRow(user: Id)
    | AppRow(app: Id)
    | RoleRow(pk: Id)                // also the primary key of a row not yet committed
    | RoleKey(user: Id, role: Role)  // the unique index entry of a row being inserted or deleted

  datatype Read = Nothing | Account(row: Row) | Form(form: Application)

  datatype Phase =
    | Begun
    | Locked                                       // the account or the application is held and read
    | Counting(rest: seq<Id>, counted: set<Id>)    // ADMIN rows still to lock, in key order
    | Joining(rest: seq<Id>, counted: set<Id>)     // the next of them is held, its account is not yet
    | Asked(held: bool)                            // an applicant's role is read, its applications are not yet
    | Allowed(counted: set<Id>)                    // every check passed
    | Deleted(rows: set<Id>, counted: set<Id>)
    | Missing | Again | Found                      // get_or_create: insert next, look again, there already
    | Inserted
    | Written

  datatype Txn = Txn(call: Request, phase: Phase, read: Read)

  datatype Move = Go(txn: Txn) | Raise(error: Error) | Commit

  function To(t: Txn, phase: Phase): Move { Go(t.(phase := phase)) }

  // --- what a transaction does next ---

  /** The account a transaction locks first. */
  function AccountOf(call: Request): Option<Id> {
    match call
    case GrantRole(target, _, _, _, _) => Some(target)
    case RevokeRole(target, _, _, _) => Some(target)
    case SetActiveRole(user, _) => Some(user)
    case UpdateProfile(user, _) => Some(user)
    case _ => None
  }

  function NextGrant(db: State, t: Txn): Move
    requires t.call.GrantRole?
  {
    var target, role := t.call.target, t.call.role;
    match t.phase
    case Begun =>
      if role == User then Raise(Invalid) else if target !in db.users then Raise(NotFound)
      else Go(Txn(t.call, Locked, Account(db.users[target])))
    case Locked => if Holds(db.roles, target, role) then Raise(Conflict) else To(t, Allowed({}))
    case Allowed(_) =>
      // an approval may have inserted the row since: it does not take the account's lock
      if t.call.newPk in db.roles || Holds(db.roles, target, role) then Raise(ServerError) else To(t, Inserted)
    case Inserted => Commit
    case _ => Raise(ServerError)
  }

  /** One of the counted rows belongs to the account. */
  predicate Includes(roles: Roles, rows: set<Id>, user: Id) { exists pk :: pk in rows && pk in roles && roles[pk].user == user }

  /** `order` is the key order of the ADMIN rows the locking query finds. */
  function NextRevoke(db: State, t: Txn, order: seq<Id>): Move
    requires t.call.RevokeRole?
  {
    var target, role := t.call.target, t.call.role;
    match t.phase
    case Begun =>
      if role == User then Raise(Invalid) else if target !in db.users then Raise(NotFound)
      else Go(Txn(t.call, Locked, Account(db.users[target])))
    case Locked =>
      if role != Admin then To(t, Allowed({}))
      else if target == t.call.actor then Raise(Conflict)
      else To(t, Counting(order, {}))
    case Counting(rest, counted) =>
      if rest != [] then
        // a row deleted since the query began is passed over
        if rest[0] in ActiveAdminRows(db.users, db.roles) then To(t, Joining(rest, counted))
        else To(t, Counting(rest[1..], counted))
      else if !Includes(db.roles, counted, target) then Raise(Conflict)
      else if |counted| <= 1 then Raise(Conflict)
      else To(t, Allowed(counted))
    case Joining(rest, counted) =>
      if rest == [] then Raise(ServerError) else To(t, Counting(rest[1..], counted + {rest[0]}))
    case Allowed(counted) =>
      var rows := RowsOf(db.roles, target, role);
      if rows == {} then Raise(Conflict) else To(t, Deleted(rows, counted))
    case Deleted(_, _) => Commit
    case _ => Raise(ServerError)
  }

  function NextSwitch(db: State, t: Txn): Move
    requires t.call.SetActiveRole?
  {
    match t.phase
    case Begun =>
      if t.call.worn == Admin then Raise(Invalid)
      else if t.call.user !in db.users then Raise(ServerError)
      else Go(Txn(t.call, Locked, Account(db.users[t.call.user])))
    case Locked => if t.call.worn !in HeldRoles(db.roles, t.call.user) then Raise(Forbidden) else To(t, Written)
    case Written => Commit
    case _ => Raise(ServerError)
  }

  function NextProfile(db: State, t: Txn): Move
    requires t.call.UpdateProfile?
  {
    match t.phase
    case Begun =>
      if t.call.user !in db.users then Raise(ServerError) else Go(Txn(t.call, Locked, Account(db.users[t.call.user])))
    // the unique index decides: of two writers of one nickname the second waits, and then it is taken
    case Locked => if NicknameTaken(db.users, t.call.user, t.call.data) then Raise(Conflict) else Commit
    case _ => Raise(ServerError)
  }

  /** Two queries and the INSERT: three statements, and nothing is locked between them. */
  function NextApplication(db: State, t: Txn): Move
    requires t.call.CreateApplication?
  {
    match t.phase
    case Begun => To(t, Asked(Holds(db.roles, t.call.applicant, Advisor)))
    case Asked(held) => if BlockedIf(db.apps, t.call.applicant, held) then Raise(Conflict) else To(t, Allowed({}))
    case Allowed(_) =>
      if t.call.newId in db.apps || t.call.applicant !in db.users || NameTaken(db.apps, t.call.name) then Raise(Conflict)
      else Commit
    case _ => Raise(ServerError)
  }

  function NextReview(db: State, t: Txn): Move
    requires t.call.ReviewApplication?
  {
    match t.phase
    case Begun =>
      if t.call.app !in db.apps then Raise(NotFound) else Go(Txn(t.call, Locked, Form(db.apps[t.call.app])))
    case Locked =>
      if !t.read.Form? then Raise(ServerError)
      else if !AppEdge(t.read.form.status, t.call.verdict) then Raise(Conflict)
      else if t.call.verdict == Rejected && Blank(t.call.reason) then Raise(Unprocessable)
      else To(t, if t.call.verdict == Approved then Allowed({}) else Written)
    case Allowed(_) =>
      if !t.read.Form? then Raise(ServerError)
      else To(t, if Holds(db.roles, t.read.form.applicant, Advisor) then Found else Missing)
    case Missing =>
      if !t.read.Form? then Raise(ServerError)
      else if t.call.newPk in db.roles || Holds(db.roles, t.read.form.applicant, Advisor) then To(t, Again)
      else To(t, Inserted)
    case Again =>
      if t.read.Form? && Holds(db.roles, t.read.form.applicant, Advisor) then To(t, Found) else Raise(ServerError)
    case Found => Commit
    case Inserted => Commit
    case Written => Commit
    case _ => Raise(ServerError)
  }

  function Next(db: State, t: Txn, order: seq<Id>): Move {
    match t.call
    case GrantRole(_, _, _, _, _) => NextGrant(db, t)
    case RevokeRole(_, _, _, _) => NextRevoke(db, t, order)
    case SetActiveRole(_, _) => NextSwitch(db, t)
    case UpdateProfile(_, _) => NextProfile(db, t)
    case CreateApplication(_, _, _, _) => NextApplication(db, t)
    case ReviewApplication(_, _, _, _, _, _) => NextReview(db, t)
  }

  /** The locks its next statement waits for. */
  function Needs(db: State, t: Txn): set<Lock> {
    match t.phase
    case Begun =>
      if AccountOf(t.call).Some? then {UserRow(AccountOf(t.call).value)}
      else if t.call.ReviewApplication? then {AppRow(t.call.app)}
      else {}
    case Counting(rest, _) =>
      if rest != [] && rest[0] in ActiveAdminRows(db.users, db.roles) then {RoleRow(rest[0])} else {}
    case Joining(rest, _) =>
      if rest != [] && rest[0] in db.roles then {UserRow(db.roles[rest[0]].user)} else {}
    case Allowed(_) =>
      if t.call.GrantRole? then {RoleKey(t.call.target, t.call.role), RoleRow(t.call.newPk)}
      else if t.call.RevokeRole? then
        var rows := RowsOf(db.roles, t.call.target, t.call.role);
        if rows == {} then {} else {RoleKey(t.call.target, t.call.role)} + set pk | pk in rows :: RoleRow(pk)
      else {}
    case Missing =>
      if t.call.ReviewApplication? && t.read.Form?
      then {RoleKey(t.read.form.applicant, Advisor), RoleRow(t.call.newPk)} else {}
    case _ => {}
  }

  /** What becomes visible at commit. */
  function Committed(db: State, t: Txn): State {
    match t.call
    case GrantRole(target, role, actor, reason, newPk) =>
      db.(roles := db.roles[newPk := Holding(target, role)], audit := db.audit + [Entry(target, role, Grant, actor, reason)])
    case RevokeRole(target, role, actor, reason) =>
      db.(roles := if t.phase.Deleted? then db.roles - t.phase.rows else db.roles,
          audit := db.audit + [Entry(target, role, Revoke, actor, reason)],
          users := if role == Advisor && t.read.Account? && WearsAdvisor(t.read.row) && target in db.users
                   then db.users[target := Demoted(db.users[target])] else db.users)
    case SetActiveRole(user, worn) =>
      if user in db.users then db.(users := db.users[user := db.users[user][ActiveRole := Str(RoleName(worn))]]) else db
    case UpdateProfile(user, data) =>
      if user in db.users then db.(users := db.users[user := db.users[user] + data]) else db
    case CreateApplication(newId, applicant, name, now) =>
      db.(apps := db.apps[newId := Application(applicant, name, Pending, now, None, None, "")])
    case ReviewApplication(app, actor, verdict, reason, newPk, now) =>
      if !t.read.Form? then db
      else
        var a := t.read.form;
        var told := db.(apps := db.apps[app := Reviewed(a, actor, verdict, reason, now)],
                        notices := db.notices + multiset{ReviewNotice(app, a.applicant, actor, verdict, reason)});
        if verdict != Approved then told
        else
          told.(roles := if t.phase.Inserted? then db.roles[newPk := Holding(a.applicant, Advisor)] else db.roles,
                audit := db.audit + [Entry(a.applicant, Advisor, Grant, actor, APPROVAL_REASON)])
  }

  // --- the system ---

  /** An account row somebody has in memory. */
  datatype Held = Held(user: Id, copy: Copy)

  datatype Sys = Sys(db: State, open: map<Tid, Txn>, locks: map<Lock, Tid>, copies: map<CopyId, Held>)

  /** The columns only the role functions and the admin form write. */
  const AUTHORITY: set<Column> := {ActiveRole, IsActive}

  datatype Step =
    | Open(tid: Tid, call: Request)
    | Advance(tid: Tid, order: seq<Id>)
    | Abort(tid: Tid)
    | LoadCopy(copy: CopyId, user: Id, columns: set<Column>)
    | AssignCopy(copy: CopyId, column: Column, value: Value)
    | RefreshCopy(copy: CopyId, fields: Option<set<Column>>)
    | SaveCopy(copy: CopyId, fields: Option<set<Column>>)

  predicate Lists(order: seq<Id>, rows: set<Id>) {
    && (forall i, j :: 0 <= i < j < |order| ==> order[i] < order[j])
    && (set pk | pk in order) == rows
  }

  /** Nobody else has it. */
  predicate Free(locks: map<Lock, Tid>, l: Lock, tid: Tid) { l in locks ==> locks[l] == tid }

  predicate ListsAdmins(t: Txn) { t.call.RevokeRole? && t.call.role == Admin && t.phase.Locked? }

  predicate Enabled(s: Sys, step: Step) {
    match step
    case Open(tid, _) => tid !in s.open
    case Advance(tid, order) =>
      && tid in s.open
      && (forall l :: l in Needs(s.db, s.open[tid]) ==> Free(s.locks, l, tid))
      && (ListsAdmins(s.open[tid]) ==> Lists(order, ActiveAdminRows(s.db.users, s.db.roles)))
    case Abort(tid) => tid in s.open
    case LoadCopy(_, user, _) => user in s.db.users
    case AssignCopy(c, column, _) => c in s.copies && column !in AUTHORITY
    case RefreshCopy(c, _) => c in s.copies && s.copies[c].user in s.db.users
    case SaveCopy(c, fields) =>
      && c in s.copies && s.copies[c].user in s.db.users
      && UserRow(s.copies[c].user) !in s.locks
      && (fields.Some? ==> fields.value !! AUTHORITY)
  }

  function Take(locks: map<Lock, Tid>, taken: set<Lock>, tid: Tid): map<Lock, Tid> {
    map l | l in locks.Keys + taken :: if l in taken then tid else locks[l]
  }

  function Release(locks: map<Lock, Tid>, tid: Tid): map<Lock, Tid> {
    locks - set l | l in locks && locks[l] == tid
  }

  function Close(s: Sys, tid: Tid): Sys {
    s.(open := s.open - {tid}, locks := Release(s.locks, tid))
  }

  function After(s: Sys, step: Step): Sys
    requires Enabled(s, step)
  {
    match step
    case Open(tid, call) => s.(open := s.open[tid := Txn(call, Begun, Nothing)])
    case Advance(tid, order) =>
      var t := s.open[tid];
      (match Next(s.db, t, order)
       case Go(u) =>
         // a failed INSERT is rolled back to its savepoint
         s.(open := s.open[tid := u], locks := if u.phase.Again? then s.locks else Take(s.locks, Needs(s.db, t), tid))
       case Raise(_) => Close(s, tid)
       case Commit => Close(s, tid).(db := Committed(s.db, t)))
    case Abort(tid) => Close(s, tid)
    case LoadCopy(c, user, columns) => s.(copies := s.copies[c := Held(user, FromDb(s.db.users[user], columns))])
    case AssignCopy(c, column, value) =>
      var copy := s.copies[c].copy;
      s.(copies := s.copies[c := Held(s.copies[c].user, copy.(attrs := copy.attrs[column := value]))])
    case RefreshCopy(c, fields) =>
      var held := s.copies[c];
      s.(copies := s.copies[c := Held(held.user, Refreshed(held.copy, s.db.users[held.user], fields))])
    case SaveCopy(c, fields) =>
      var held := s.copies[c];
      var row := s.db.users[held.user];
      s.(db := s.db.(users := s.db.users[held.user := SavedRow(held.copy, row, false, fields)]),
         copies := s.copies[c := Held(held.user, SavedCopy(held.copy, row, false, fields))])
  }
}
