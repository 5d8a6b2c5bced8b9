/**
 Accounts, Google identities, sessions and password resets (`accounts/services.py`,
 `accounts/managers.py`, and what the views do with them), one request at a time.
 */
module Accounts {
  import opened Text
  import opened Common
  import opened Nicknames

  /** A stored password. Every set draws a new salt, so no two stored values are equal. */
  datatype Password = Hash(raw: string, salt: nat) | Unusable(salt: nat)

  datatype Account = Account(email: string, nickname: string, active: bool, password: Password, lastLogin: Option<nat>)

  datatype Identity = Identity(user: Id, sub: string, email: string)

  /** Sessions by key, with the account in them if there is one; `clock` supplies salts and instants. */
  datatype Db = Db(users: map<Id, Account>, identities: map<Id, Identity>, sessions: map<Id, Option<Id>>, clock: nat)

  /** `UserManager.canonical_email`; only addresses with an `@` are stripped. */
  function Canonical(email: string): string { Lower(if '@' in email then Strip(email) else email) }

  predicate EmailTaken(users: map<Id, Account>, email: string) { exists u :: u in users && users[u].email == email }

  predicate NicknameTaken(users: map<Id, Account>, nickname: string) { exists u :: u in users && users[u].nickname == nickname }

  predicate SubTaken(identities: map<Id, Identity>, sub: string) { exists i :: i in identities && identities[i].sub == sub }

  predicate Linked(identities: map<Id, Identity>, user: Id) { exists i :: i in identities && identities[i].user == user }

  const EMAIL_LENGTH := 254

  const SUB_LENGTH := 255

  // --- inserting ---

  /** An insert that worked, an IntegrityError, or any other exception. */
  datatype Attempt = Made(db: Db) | Clash | Broken

  /** `create_user`. */
  function CreateUser(db: Db, id: Id, email: string, nickname: string, password: Option<string>): Attempt {
    if email == "" || nickname == "" then Broken
    else if |Canonical(email)| > EMAIL_LENGTH || |nickname| > MAX_LENGTH then Broken
    else if id in db.users || EmailTaken(db.users, Canonical(email)) || NicknameTaken(db.users, nickname) then Clash
    else
      var stored := if password.Some? then Hash(password.value, db.clock) else Unusable(db.clock);
      Made(db.(users := db.users[id := Account(Canonical(email), nickname, true, stored, None)], clock := db.clock + 1))
  }

  function CreateIdentity(db: Db, pk: Id, user: Id, sub: string, email: string): Attempt {
    if |sub| > SUB_LENGTH || |email| > EMAIL_LENGTH then Broken
    else if pk in db.identities || SubTaken(db.identities, sub) || Linked(db.identities, user) then Clash
    else Made(db.(identities := db.identities[pk := Identity(user, sub, email)]))
  }

  /** The two rows go in together or not at all. */
  function CreateLinked(db: Db, id: Id, pk: Id, email: string, sub: string, nickname: string): Attempt {
    match CreateUser(db, id, email, nickname, None)
    case Made(withUser) => CreateIdentity(withUser, pk, id, sub, email)
    case other => other
  }

  /** The first candidate whose insert is not a clash decides. */
  function CreateWithFirst(db: Db, id: Id, pk: Id, email: string, sub: string, candidates: seq<string>): Attempt {
    if candidates == [] then Clash
    else
      match CreateLinked(db, id, pk, email, sub, candidates[0])
      case Clash => CreateWithFirst(db, id, pk, email, sub, candidates[1..])
      case other => other
  }

  // --- signing in ---

  datatype Outcome = Outcome(db: Db, reply: Reply)

  function Refuse(db: Db, e: Error): Outcome { Outcome(db, Refused(e)) }

  /** Django's `login()`: a session row and `last_login`. It draws session keys until one is unused. */
  function Enter(db: Db, user: Id, session: Id): Db
    requires user in db.users
  {
    db.(sessions := db.sessions[session := Some(user)],
        users := db.users[user := db.users[user].(lastLogin := Some(db.clock))],
        clock := db.clock + 1)
  }

  function SessionsWithout(sessions: map<Id, Option<Id>>, user: Id): map<Id, Option<Id>> {
    sessions - set key | key in sessions && sessions[key] == Some(user)
  }

  /** `UserManager.filter(email=...)`, an exact match. */
  ghost function WithEmail(users: map<Id, Account>, email: string): (u: Option<Id>)
    ensures u.Some? ==> u.value in users && users[u.value].email == email
    ensures u.None? ==> !EmailTaken(users, email)
  {
    if EmailTaken(users, email) then var u :| u in users && users[u].email == email; Some(u) else None
  }

  ghost function OwnerOf(identities: map<Id, Identity>, sub: string): (u: Option<Id>)
    ensures u.Some? <==> SubTaken(identities, sub)
    ensures u.Some? ==> exists i :: i in identities && identities[i] == Identity(u.value, sub, identities[i].email)
  {
    if SubTaken(identities, sub) then var i :| i in identities && identities[i].sub == sub; Some(identities[i].user) else None
  }

  predicate SignupFits(nickname: string) { MIN_LENGTH <= |nickname| <= MAX_LENGTH }

  predicate EmailFits(email: string) { '@' in email && |email| <= EMAIL_LENGTH }

  /** Signing up: the serializer's checks, `create_user`, and a session. `strong` is the password validators' verdict. */
  function SignupSpec(db: Db, id: Id, email: string, nickname: string, password: string, strong: bool, session: Id): Outcome {
    if EmailFits(email) && EmailTaken(db.users, Canonical(email)) then Refuse(db, Conflict)
    else if SignupFits(nickname) && NicknameTaken(db.users, nickname) then Refuse(db, Conflict)
    else if !EmailFits(email) || !SignupFits(nickname) || !strong then Refuse(db, Invalid)
    else
      match CreateUser(db, id, email, nickname, Some(password))
      case Made(after) =>
        if session in db.sessions then Outcome(after, Refused(ServerError)) else Outcome(Enter(after, id, session), Accepted)
      case Clash => Refuse(db, Conflict)
      case Broken => Refuse(db, ServerError)
  }

  predicate Opens(account: Account, password: string) {
    account.active && account.password.Hash? && account.password.raw == password
  }

  ghost function LoginSpec(db: Db, email: string, password: string, session: Id): Outcome {
    var u := WithEmail(db.users, Canonical(email));
    if u.None? || !Opens(db.users[u.value], password) then Refuse(db, Unauthorized)
    else if session in db.sessions then Refuse(db, ServerError)
    else Outcome(Enter(db, u.value, session), Accepted)
  }

  // --- Google ---

  /** The account a Google identity resolves to, or the exception. */
  datatype Resolution = Resolved(db: Db, user: Id) | Failed(error: Error)

  /** Linking ends what the account's earlier owner had: the password and every session. */
  function TakenOver(db: Db, user: Id): Db
    requires user in db.users
  {
    db.(users := db.users[user := db.users[user].(password := Unusable(db.clock))],
        sessions := SessionsWithout(db.sessions, user),
        clock := db.clock + 1)
  }

  ghost function LinkSpec(db: Db, existing: Id, pk: Id, sub: string, email: string): Resolution
    requires existing in db.users
  {
    if !db.users[existing].active then Resolved(db, existing)
    else if Linked(db.identities, existing) then Failed(Conflict)
    else
      match CreateIdentity(db, pk, existing, sub, email)
      case Made(linked) => Resolved(TakenOver(linked, existing), existing)
      case _ => Failed(ServerError)
  }

  ghost function LinkOrCreateSpec(db: Db, sub: string, email: string, name: string, luck: Luck, id: Id, pk: Id): Resolution
    requires Drawn(luck)
  {
    var known := OwnerOf(db.identities, sub);
    var existing := WithEmail(db.users, Canonical(email));
    if known.Some? then Resolved(db, known.value)
    else if existing.Some? then LinkSpec(db, existing.value, pk, sub, Canonical(email))
    else
      match CreateWithFirst(db, id, pk, Canonical(email), sub, Candidates(Base(name, Canonical(email)), luck))
      case Made(after) => Resolved(after, id)
      case _ => Failed(ServerError)
  }

  /** The callback view: resolve, turn frozen accounts away, open a session. */
  ghost function GoogleLoginSpec(db: Db, sub: string, email: string, name: string, luck: Luck, id: Id, pk: Id, session: Id)
    : Outcome
    requires Drawn(luck)
  {
    match LinkOrCreateSpec(db, sub, email, name, luck, id, pk)
    case Failed(e) => Refuse(db, e)
    case Resolved(after, user) =>
      if user !in after.users then Refuse(db, ServerError)  // the foreign key rules it out
      else if !after.users[user].active then Outcome(after, Refused(Unauthorized))
      else if session in after.sessions then Outcome(after, Refused(ServerError))
      else Outcome(Enter(after, user, session), Accepted)
  }

  // --- password reset ---

  predicate HasUsablePassword(account: Account) { account.password.Hash? }

  /** `_reset_allowed`. */
  predicate ResetAllowed(db: Db, user: Id)
    requires user in db.users
  {
    HasUsablePassword(db.users[user]) || Linked(db.identities, user)
  }

  /** What a reset token is computed from. */
  datatype Token = Token(user: Id, password: Password, lastLogin: Option<nat>, email: string)

  function TokenOf(db: Db, user: Id): Token
    requires user in db.users
  {
    Token(user, db.users[user].password, db.users[user].lastLogin, db.users[user].email)
  }

  /** `request_password_reset`: the token in the mail, when one goes out. */
  ghost function MailedToken(db: Db, email: string): Option<Token> {
    var u := WithEmail(db.users, Canonical(email));
    if u.None? || !db.users[u.value].active || !ResetAllowed(db, u.value) then None else Some(TokenOf(db, u.value))
  }

  function WithPassword(db: Db, user: Id, password: string): Db
    requires user in db.users
  {
    db.(users := db.users[user := db.users[user].(password := Hash(password, db.clock))],
        sessions := SessionsWithout(db.sessions, user),
        clock := db.clock + 1)
  }

  /** `uid` is None when malformed; `token` is None when forged or expired. */
  function ConfirmResetSpec(db: Db, uid: Option<Id>, token: Option<Token>, password: string, strong: bool): Outcome {
    if uid.None? || uid.value !in db.users || !db.users[uid.value].active then Refuse(db, Invalid)
    else if !ResetAllowed(db, uid.value) || token != Some(TokenOf(db, uid.value)) then Refuse(db, Invalid)
    else if !strong then Refuse(db, Invalid)
    else Outcome(WithPassword(db, uid.value, password), Accepted)
  }

  function LogoutSpec(db: Db, session: Id): Outcome { Outcome(db.(sessions := db.sessions - {session}), Accepted) }

  // --- requests ---

  datatype Request =
    | Signup(id: Id, email: string, nickname: string, password: string, strong: bool, session: Id)
    | Login(email: string, password: string, session: Id)
    | Logout(session: Id)
    | GoogleLogin(sub: string, email: string, name: string, luck: Luck, id: Id, pk: Id, session: Id)
    | ConfirmReset(uid: Option<Id>, token: Option<Token>, password: string, strong: bool)

  type ValidRequest = r: Request | r.GoogleLogin? ==> Drawn(r.luck) witness Logout(0)

  ghost function Serve(db: Db, r: ValidRequest): Outcome {
    match r
    case Signup(id, email, nickname, password, strong, session) => SignupSpec(db, id, email, nickname, password, strong, session)
    case Login(email, password, session) => LoginSpec(db, email, password, session)
    case Logout(session) => LogoutSpec(db, session)
    case GoogleLogin(sub, email, name, luck, id, pk, session) => GoogleLoginSpec(db, sub, email, name, luck, id, pk, session)
    case ConfirmReset(uid, token, password, strong) => ConfirmResetSpec(db, uid, token, password, strong)
  }

  ghost function ServeAll(db: Db, rs: seq<ValidRequest>): Db
    decreases |rs|
  {
    if rs == [] then db else Serve(ServeAll(db, rs[..|rs| - 1]), rs[|rs| - 1]).db
  }
}
