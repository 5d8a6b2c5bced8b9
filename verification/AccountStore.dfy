/** The account tables, updated in place the way the service functions update them. */
module AccountStore {
  import opened Common
  import opened Nicknames
  import opened Accounts
  import opened AccountFacts

  /** How an insert ended. */
  datatype Result = Done | IntegrityError | OtherException

  function ResultOf(a: Attempt): Result {
    match a
    case Made(_) => Done
    case Clash => IntegrityError
    case Broken => OtherException
  }

  function Left(before: Db, a: Attempt): Db { if a.Made? then a.db else before }

  lemma UserStaysSound(db: Db, id: Id, email: string, nickname: string, password: Option<string>)
    ensures Sound(db) ==> Sound(Left(db, Accounts.CreateUser(db, id, email, nickname, password)))
  {
    var r := Accounts.CreateUser(db, id, email, nickname, password);
    hide UsersSound, Canonical, EmailTaken, NicknameTaken;
    if Sound(db) && r.Made? { UserAdded(db.users, db.clock, id, r.db.users[id]); }
  }

  lemma IdentityStaysSound(db: Db, pk: Id, user: Id, sub: string, email: string)
    ensures Sound(db) && user in db.users ==> Sound(Left(db, Accounts.CreateIdentity(db, pk, user, sub, email)))
  {
    hide UsersSound, LinksSound, SubTaken, Linked;
    if Sound(db) && user in db.users && Accounts.CreateIdentity(db, pk, user, sub, email).Made? {
      LinkAdded(db.users, db.identities, pk, Identity(user, sub, email));
    }
  }

  lemma LinkStaysSound(db: Db, existing: Id, pk: Id, sub: string, email: string)
    requires existing in db.users
    ensures Sound(db) && LinkSpec(db, existing, pk, sub, email).Resolved? ==>
              Sound(LinkSpec(db, existing, pk, sub, email).db)
  {
    hide Sound, LinkSpec, Evolves;
    if Sound(db) && LinkSpec(db, existing, pk, sub, email).Resolved? { LinkKeeps(db, existing, pk, sub, email); }
  }

  lemma ResetStaysSound(db: Db, uid: Option<Id>, password: string)
    ensures Sound(db) && uid.Some? && uid.value in db.users ==> Sound(WithPassword(db, uid.value, password))
  {
    hide Sound, WithPassword, Evolves;
    if Sound(db) && uid.Some? && uid.value in db.users { WithPasswordKeeps(db, uid.value, password); }
  }

  class Tables {
    var users: map<Id, Account>
    var identities: map<Id, Identity>
    var sessions: map<Id, Option<Id>>
    var clock: nat

    ghost function Contents(): Db
      reads this
    {
      Db(users, identities, sessions, clock)
    }

    /** What the unique indexes promise, and that no stored password is from the future. */
    ghost predicate Valid()
      reads this
    {
      Sound(Contents())
    }

    constructor ()
      ensures Contents() == Db(map[], map[], map[], 0) && Valid()
    {
      users, identities, sessions, clock := map[], map[], map[], 0;
    }

    method CreateUser(id: Id, email: string, nickname: string, password: Option<string>) returns (result: Result)
      modifies this
      ensures result == ResultOf(Accounts.CreateUser(old(Contents()), id, email, nickname, password))
      ensures Contents() == Left(old(Contents()), Accounts.CreateUser(old(Contents()), id, email, nickname, password))
      ensures old(Valid()) ==> Valid()
    {
      UserStaysSound(Contents(), id, email, nickname, password);
      hide UsersSound, LinksSound;
      if email == "" { return OtherException; }
      if nickname == "" { return OtherException; }
      var stored := Canonical(email);
      var hash := if password.Some? then Hash(password.value, clock) else Unusable(clock);
      if |stored| > EMAIL_LENGTH || |nickname| > MAX_LENGTH { return OtherException; }
      if id in users || EmailTaken(users, stored) || NicknameTaken(users, nickname) { return IntegrityError; }
      users := users[id := Account(stored, nickname, true, hash, None)];
      clock := clock + 1;
      return Done;
    }

    method CreateIdentity(pk: Id, user: Id, sub: string, email: string) returns (result: Result)
      modifies this`identities
      ensures result == ResultOf(Accounts.CreateIdentity(old(Contents()), pk, user, sub, email))
      ensures Contents() == Left(old(Contents()), Accounts.CreateIdentity(old(Contents()), pk, user, sub, email))
      ensures old(Valid()) && user in users ==> Valid()
    {
      IdentityStaysSound(Contents(), pk, user, sub, email);
      hide UsersSound, LinksSound;
      if |sub| > SUB_LENGTH || |email| > EMAIL_LENGTH { return OtherException; }
      if pk in identities || SubTaken(identities, sub) || Linked(identities, user) { return IntegrityError; }
      identities := identities[pk := Identity(user, sub, email)];
      return Done;
    }

    /** One `atomic` block: a failure in it takes back what it did. */
    method CreateLinked(id: Id, pk: Id, email: string, sub: string, nickname: string) returns (result: Result)
      modifies this
      ensures result == ResultOf(Accounts.CreateLinked(old(Contents()), id, pk, email, sub, nickname))
      ensures Contents() == Left(old(Contents()), Accounts.CreateLinked(old(Contents()), id, pk, email, sub, nickname))
      ensures old(Valid()) ==> Valid()
    {
      hide UsersSound, LinksSound;
      var savedUsers, savedClock := users, clock;
      result := CreateUser(id, email, nickname, None);
      if result != Done { return; }
      result := CreateIdentity(pk, id, sub, email);
      if result != Done { users, clock := savedUsers, savedClock; }
    }

    /** `_create_with_nickname`: insert, and on a clash insert under the next candidate. */
    method CreateWithNickname(id: Id, pk: Id, email: string, sub: string, base: string, luck: Luck) returns (result: Result)
      requires Drawn(luck)
      modifies this
      ensures result == ResultOf(CreateWithFirst(old(Contents()), id, pk, email, sub, Candidates(base, luck)))
      ensures Contents() == Left(old(Contents()), CreateWithFirst(old(Contents()), id, pk, email, sub, Candidates(base, luck)))
      ensures old(Valid()) ==> Valid()
    {
      hide UsersSound, LinksSound;
      var candidates := Candidates(base, luck);
      result := IntegrityError;
      var i := 0;
      while i < |candidates|
        invariant 0 <= i <= |candidates|
        invariant Contents() == old(Contents()) && result == IntegrityError
        invariant CreateWithFirst(Contents(), id, pk, email, sub, candidates) ==
                  CreateWithFirst(Contents(), id, pk, email, sub, candidates[i..])
      {
        result := CreateLinked(id, pk, email, sub, candidates[i]);
        if result != IntegrityError { return; }
        assert candidates[i..][1..] == candidates[i + 1..];
        i := i + 1;
      }
    }

    /** `_purge_sessions_of`: scan every session, collect, delete. */
    method PurgeSessionsOf(user: Id)
      modifies this`sessions
      ensures sessions == SessionsWithout(old(sessions), user)
      ensures old(Valid()) ==> Valid()
    {
      hide UsersSound, LinksSound;
      var stale := {};
      var unread := sessions.Keys;
      while unread != {}
        invariant unread <= sessions.Keys
        invariant stale == set key | key in sessions.Keys - unread && sessions[key] == Some(user)
        decreases unread
      {
        var key :| key in unread;
        if sessions[key] == Some(user) { stale := stale + {key}; }
        unread := unread - {key};
      }
      sessions := sessions - stale;
    }

    method Link(existing: Id, pk: Id, sub: string, email: string) returns (error: Option<Error>)
      requires existing in users
      modifies this
      ensures match LinkSpec(old(Contents()), existing, pk, sub, email)
              case Resolved(after, user) => error == None && user == existing && Contents() == after
              case Failed(e) => error == Some(e) && Contents() == old(Contents())
      ensures old(Valid()) ==> Valid()
    {
      LinkStaysSound(Contents(), existing, pk, sub, email);
      hide UsersSound, LinksSound;
      if !users[existing].active { return None; }
      if Linked(identities, existing) { return Some(Conflict); }
      var result := CreateIdentity(pk, existing, sub, email);
      if result != Done { return Some(ServerError); }
      users := users[existing := users[existing].(password := Unusable(clock))];
      clock := clock + 1;
      PurgeSessionsOf(existing);
      return None;
    }

    /** `link_or_create_google_user`. */
    method LinkOrCreate(sub: string, email: string, name: string, luck: Luck, id: Id, pk: Id)
      returns (error: Option<Error>, user: Id)
      requires Valid() && Drawn(luck)
      modifies this
      ensures match LinkOrCreateSpec(old(Contents()), sub, email, name, luck, id, pk)
              case Resolved(after, u) => error == None && user == u && Contents() == after
              case Failed(e) => error == Some(e) && Contents() == old(Contents())
      ensures Valid()
    {
      var address := Canonical(email);
      user := id;
      if i :| i in identities && identities[i].sub == sub {
        return None, identities[i].user;
      }
      assert !SubTaken(identities, sub);
      if u :| u in users && users[u].email == address {
        error := Link(u, pk, sub, address);
        user := u;
        return;
      }
      var base := DeriveBase(name, address);
      var result := CreateWithNickname(id, pk, address, sub, base, luck);
      error := if result == Done then None else Some(ServerError);
    }

    /** `confirm_password_reset`. */
    method ConfirmReset(uid: Option<Id>, token: Option<Token>, password: string, strong: bool) returns (reply: Reply)
      modifies this
      ensures Outcome(Contents(), reply) == ConfirmResetSpec(old(Contents()), uid, token, password, strong)
      ensures old(Valid()) ==> Valid()
    {
      ResetStaysSound(Contents(), uid, password);
      hide UsersSound, LinksSound;
      if uid.None? || uid.value !in users || !users[uid.value].active { return Refused(Invalid); }
      var user := uid.value;
      var allowed := users[user].password.Hash? || Linked(identities, user);
      var expected := Token(user, users[user].password, users[user].lastLogin, users[user].email);
      if !allowed || token != Some(expected) { return Refused(Invalid); }
      if !strong { return Refused(Invalid); }
      users := users[user := users[user].(password := Hash(password, clock))];
      clock := clock + 1;
      PurgeSessionsOf(user);
      return Accepted;
    }
  }
}
