/**
 Password resets, Google links and logins, statement by statement and any number of them at once.
 A reset and a link lock the account's row; a login does not, it only waits for the row to write `last_login`.
 */
module ResetSteps {
  import opened Common
  import opened Accounts

  type Tid = nat

  datatype Lock =
    | UserRow(user: Id)
    | SubKey(sub: string)  // the unique index entry of a link being inserted
    | LinkRow(pk: Id)

  /** A session row: whose it is, and the stored password its auth hash was computed from. */
  datatype Session = Session(user: Id, password: Password)

  datatype Call =
    | Reset(user: Id, token: Option<Token>, password: string, strong: bool)
    | Link(user: Id, pk: Id, sub: string, email: string)
    | Login(user: Id, typed: Option<string>, session: Id)  // nothing typed: Google has vouched for the account

  datatype Phase =
    | Begun
    | Unknown                                    // a link: nobody has the Google subject yet
    | Held                                       // the account is locked and read
    | Checked                                    // every check passed
    | Inserted                                   // a link: the identity row is in
    | Drawn(stored: Password)                    // the new password is written
    | Scanned(stored: Password, stale: set<Id>)  // the account's sessions are listed
    | Known                                      // a login: the account is read
    | Stamped                                    // a login: `last_login` is written

  datatype Txn = Txn(call: Call, phase: Phase, read: Option<Account>)

  datatype Cause = ByReset(token: Token) | ByLink(sub: string)

  /** A committed change of a password. */
  datatype Change = Change(user: Id, before: Password, after: Password, cause: Cause)

  datatype Sys = Sys(users: map<Id, Account>, identities: map<Id, Identity>, sessions: map<Id, Session>, clock: nat,
                     open: map<Tid, Txn>, locks: map<Lock, Tid>, log: seq<Change>)

  function Minted(user: Id, account: Account): Token { Token(user, account.password, account.lastLogin, account.email) }

  predicate MayReset(identities: map<Id, Identity>, user: Id, account: Account) {
    HasUsablePassword(account) || Linked(identities, user)
  }

  predicate MayEnter(account: Account, typed: Option<string>) {
    account.active && (typed.Some? ==> Opens(account, typed.value))
  }

  /** Logged in: the hash in the session still fits the account. */
  predicate Valid(s: Sys, session: Session) {
    session.user in s.users && s.users[session.user].password == session.password
  }

  // --- statements ---

  function Close(s: Sys, tid: Tid): Sys {
    s.(open := s.open - {tid}, locks := s.locks - set l | l in s.locks && s.locks[l] == tid)
  }

  function Take(locks: map<Lock, Tid>, taken: set<Lock>, tid: Tid): map<Lock, Tid> {
    map l | l in locks.Keys + taken :: if l in taken then tid else locks[l]
  }

  function To(s: Sys, tid: Tid, t: Txn, taken: set<Lock>): Sys {
    s.(open := s.open[tid := t], locks := Take(s.locks, taken, tid))
  }

  function KeysOf(sessions: map<Id, Session>, user: Id): set<Id> { set key | key in sessions && sessions[key].user == user }

  /** What becomes visible when a reset or a link commits. */
  function Committed(s: Sys, user: Id, stored: Password, stale: set<Id>, cause: Cause): Sys
    requires user in s.users
  {
    s.(users := s.users[user := s.users[user].(password := stored)],
       sessions := s.sessions - stale,
       log := s.log + [Change(user, s.users[user].password, stored, cause)])
  }

  function AfterReset(s: Sys, tid: Tid): Sys
    requires tid in s.open && s.open[tid].call.Reset?
  {
    var t := s.open[tid];
    var user := t.call.user;
    if user !in s.users then Close(s, tid)
    else
      match t.phase
      case Begun =>
        if !s.users[user].active then Close(s, tid)
        else To(s, tid, Txn(t.call, Held, Some(s.users[user])), {UserRow(user)})
      case Held =>
        if t.read.None? || !MayReset(s.identities, user, t.read.value) || t.call.token != Some(Minted(user, t.read.value))
           || !t.call.strong
        then Close(s, tid)
        else To(s, tid, t.(phase := Checked), {})
      case Checked => To(s, tid, t.(phase := Drawn(Hash(t.call.password, s.clock))), {}).(clock := s.clock + 1)
      case Drawn(stored) => To(s, tid, t.(phase := Scanned(stored, KeysOf(s.sessions, user))), {})
      case Scanned(stored, stale) =>
        if t.call.token.None? then Close(s, tid)
        else Close(Committed(s, user, stored, stale, ByReset(t.call.token.value)), tid)
      case _ => Close(s, tid)
  }

  function AfterLink(s: Sys, tid: Tid): Sys
    requires tid in s.open && s.open[tid].call.Link?
  {
    var t := s.open[tid];
    var user, pk, sub := t.call.user, t.call.pk, t.call.sub;
    if user !in s.users then Close(s, tid)
    else
      match t.phase
      case Begun => if SubTaken(s.identities, sub) then Close(s, tid) else To(s, tid, t.(phase := Unknown), {})
      case Unknown =>
        if s.users[user].email != Canonical(t.call.email) || !s.users[user].active then Close(s, tid)
        else To(s, tid, Txn(t.call, Held, Some(s.users[user])), {UserRow(user)})
      case Held => if Linked(s.identities, user) then Close(s, tid) else To(s, tid, t.(phase := Checked), {})
      case Checked =>
        if pk in s.identities || SubTaken(s.identities, sub) || |sub| > SUB_LENGTH || |Canonical(t.call.email)| > EMAIL_LENGTH
        then Close(s, tid)
        else To(s, tid, t.(phase := Inserted), {SubKey(sub), LinkRow(pk)})
      case Inserted => To(s, tid, t.(phase := Drawn(Unusable(s.clock))), {}).(clock := s.clock + 1)
      case Drawn(stored) => To(s, tid, t.(phase := Scanned(stored, KeysOf(s.sessions, user))), {})
      case Scanned(stored, stale) =>
        Close(Committed(s, user, stored, stale, ByLink(sub))
              .(identities := s.identities[pk := Identity(user, sub, Canonical(t.call.email))]), tid)
      case _ => Close(s, tid)
  }

  function AfterLogin(s: Sys, tid: Tid): Sys
    requires tid in s.open && s.open[tid].call.Login?
  {
    var t := s.open[tid];
    var user := t.call.user;
    if user !in s.users then Close(s, tid)
    else
      match t.phase
      case Begun =>
        if !MayEnter(s.users[user], t.call.typed) then Close(s, tid)
        else To(s, tid, Txn(t.call, Known, Some(s.users[user])), {})
      case Known =>
        To(s, tid, t.(phase := Stamped), {})
        .(users := s.users[user := s.users[user].(lastLogin := Some(s.clock))], clock := s.clock + 1)
      case Stamped =>
        if t.read.None? || t.call.session in s.sessions then Close(s, tid)
        else Close(s, tid).(sessions := s.sessions[t.call.session := Session(user, t.read.value.password)])
      case _ => Close(s, tid)
  }

  /** The locks the next statement waits for. */
  function Needs(t: Txn): set<Lock> {
    match t.call
    case Reset(user, _, _, _) => if t.phase.Begun? then {UserRow(user)} else {}
    case Link(user, pk, sub, _) =>
      if t.phase.Unknown? then {UserRow(user)} else if t.phase.Checked? then {SubKey(sub), LinkRow(pk)} else {}
    case Login(user, _, _) => if t.phase.Known? then {UserRow(user)} else {}
  }

  // --- the system ---

  datatype Step =
    | Open(tid: Tid, call: Call)
    | Advance(tid: Tid)
    | Abort(tid: Tid)
    | Logout(session: Id)
    | SignUp(user: Id, account: Account)                               // a new account, not linked
    | FirstVisit(user: Id, account: Account, pk: Id, sub: string)      // a new account made from a Google identity

  predicate Free(locks: map<Lock, Tid>, l: Lock, tid: Tid) { l in locks ==> locks[l] == tid }

  predicate Enabled(s: Sys, step: Step) {
    match step
    case Open(tid, _) => tid !in s.open
    case Advance(tid) => tid in s.open && forall l :: l in Needs(s.open[tid]) ==> Free(s.locks, l, tid)
    case Abort(tid) => tid in s.open
    case Logout(_) => true
    case SignUp(user, account) => user !in s.users && account.password.salt == s.clock
    case FirstVisit(user, account, pk, sub) =>
      && user !in s.users && account.password.salt == s.clock
      && pk !in s.identities && LinkRow(pk) !in s.locks && !SubTaken(s.identities, sub) && SubKey(sub) !in s.locks
  }

  function After(s: Sys, step: Step): Sys
    requires Enabled(s, step)
  {
    match step
    case Open(tid, call) => s.(open := s.open[tid := Txn(call, Begun, None)])
    case Advance(tid) =>
      (match s.open[tid].call
       case Reset(_, _, _, _) => AfterReset(s, tid)
       case Link(_, _, _, _) => AfterLink(s, tid)
       case Login(_, _, _) => AfterLogin(s, tid))
    case Abort(tid) => Close(s, tid)
    case Logout(session) => s.(sessions := s.sessions - {session})
    case SignUp(user, account) => s.(users := s.users[user := account], clock := s.clock + 1)
    case FirstVisit(user, account, pk, sub) =>
      s.(users := s.users[user := account], clock := s.clock + 1,
         identities := s.identities[pk := Identity(user, sub, account.email)])
  }
}
