/** What any serial run of sign-ups, logins, Google logins and resets keeps. */
module AccountFacts {
  import opened Text
  import opened Common
  import opened Nicknames
  import opened Accounts

  // --- invariants ---

  ghost predicate UsersSound(users: map<Id, Account>, clock: nat) {
    && (forall u, v :: u in users && v in users && u != v ==> users[u].email != users[v].email)
    && (forall u, v :: u in users && v in users && u != v ==> users[u].nickname != users[v].nickname)
    && (forall u :: u in users ==> users[u].password.salt < clock)
  }

  ghost predicate LinksSound(users: map<Id, Account>, identities: map<Id, Identity>) {
    && (forall i :: i in identities ==> identities[i].user in users)
    && (forall i, j :: i in identities && j in identities && i != j ==> identities[i].sub != identities[j].sub)
    && (forall i, j :: i in identities && j in identities && i != j ==> identities[i].user != identities[j].user)
  }

  /** Distinct addresses, distinct nicknames, and Google accounts and local accounts paired one to one. */
  ghost predicate Sound(db: Db) { UsersSound(db.users, db.clock) && LinksSound(db.users, db.identities) }

  /** What was true of an account, or of a link, and still is. */
  ghost predicate UserEvolves(db: Db, after: Db, u: Id)
    requires u in db.users && u in after.users
  {
    && after.users[u].email == db.users[u].email && after.users[u].nickname == db.users[u].nickname
    && after.users[u].active == db.users[u].active
    && (after.users[u].password == db.users[u].password || after.users[u].password.salt >= db.clock)
    && (ResetAllowed(db, u) ==> ResetAllowed(after, u))
  }

  /** An account made here: it is active, its address folds to itself, its nickname fits, and a reset is allowed. */
  predicate WellMade(db: Db, u: Id)
    requires u in db.users
  {
    && db.users[u].active && db.users[u].email == Canonical(db.users[u].email)
    && MIN_LENGTH <= |db.users[u].nickname| <= MAX_LENGTH
    && ResetAllowed(db, u)
  }

  ghost predicate Evolves(db: Db, after: Db) {
    && db.clock <= after.clock
    && (forall i :: i in db.identities ==> i in after.identities && after.identities[i] == db.identities[i])
    && (forall u :: u in db.users ==> u in after.users && UserEvolves(db, after, u))
    && (forall u :: u in after.users && u !in db.users ==> WellMade(after, u))
  }

  lemma EvolvesTransitive(a: Db, b: Db, c: Db)
    requires Evolves(a, b) && Evolves(b, c)
    ensures Evolves(a, c)
  {
    forall u | u in a.users
      ensures UserEvolves(a, c, u)
    {
      assert UserEvolves(a, b, u) && UserEvolves(b, c, u);
    }
    forall u | u in c.users && u !in a.users
      ensures WellMade(c, u)
    {
      if u in b.users { assert UserEvolves(b, c, u) && WellMade(b, u); }
    }
  }

  lemma EvolvesReflexive(db: Db)
    ensures Evolves(db, db)
  {}

  // --- addresses ---

  /** Folding an address twice is folding it once, so every lookup agrees with what is stored. */
  lemma CanonicalIsIdempotent(email: string)
    ensures Canonical(Canonical(email)) == Canonical(email)
  {
    LowerTwice(if '@' in email then Strip(email) else email);
    if '@' in email {
      KeepsAt(email);
      StripTwice(email);
      LowerKeepsStripped(Strip(email));
      LowerKeepsAt(Strip(email));
    } else {
      LowerKeepsAt(email);
    }
  }

  lemma LowerTwice(s: string)
    ensures Lower(Lower(s)) == Lower(s)
  {}

  lemma LowerKeepsAt(s: string)
    ensures '@' in Lower(s) <==> '@' in s
  {
    if '@' in s {
      var i :| 0 <= i < |s| && s[i] == '@';
      assert Lower(s)[i] == '@';
    }
  }

  lemma {:induction false} KeepsAtLeft(s: string)
    ensures '@' in StripLeft(s) <==> '@' in s
  {
    if s != "" && IsSpace(s[0]) {
      assert s == [s[0]] + s[1..];
      KeepsAtLeft(s[1..]);
    }
  }

  lemma {:induction false} KeepsAtRight(s: string)
    ensures '@' in StripRight(s) <==> '@' in s
  {
    if s != "" && IsSpace(s[|s| - 1]) {
      assert s == s[..|s| - 1] + [s[|s| - 1]];
      KeepsAtRight(s[..|s| - 1]);
    }
  }

  lemma KeepsAt(s: string)
    ensures '@' in Strip(s) <==> '@' in s
  {
    KeepsAtLeft(s);
    KeepsAtRight(StripLeft(s));
  }

  // --- inserts ---

  lemma UserAdded(users: map<Id, Account>, clock: nat, id: Id, account: Account)
    requires UsersSound(users, clock) && id !in users && account.password.salt == clock
    requires !EmailTaken(users, account.email) && !NicknameTaken(users, account.nickname)
    ensures UsersSound(users[id := account], clock + 1)
  {}

  lemma LinksGrow(identities: map<Id, Identity>, pk: Id, identity: Identity)
    requires pk !in identities
    ensures var after := identities[pk := identity];
            && Linked(after, identity.user) && SubTaken(after, identity.sub)
            && forall u :: Linked(identities, u) ==> Linked(after, u)
  {
    var after := identities[pk := identity];
    assert after[pk] == identity;
    forall u | Linked(identities, u)
      ensures Linked(after, u)
    {
      var i :| i in identities && identities[i].user == u;
      assert after[i].user == u;
    }
  }

  lemma LinkAdded(users: map<Id, Account>, identities: map<Id, Identity>, pk: Id, identity: Identity)
    requires LinksSound(users, identities) && pk !in identities && identity.user in users
    requires !SubTaken(identities, identity.sub) && !Linked(identities, identity.user)
    ensures LinksSound(users, identities[pk := identity])
  {}

  lemma NobodyLinkedYet(users: map<Id, Account>, identities: map<Id, Identity>, id: Id)
    requires LinksSound(users, identities) && id !in users
    ensures !Linked(identities, id)
  {}

  /** Adding an account and links leaves the accounts there were as they were. */
  lemma GrowthEvolves(db: Db, after: Db)
    requires db.clock <= after.clock
    requires forall u :: u in db.users ==> u in after.users && after.users[u] == db.users[u]
    requires forall i :: i in db.identities ==> i in after.identities && after.identities[i] == db.identities[i]
    requires forall u :: Linked(db.identities, u) ==> Linked(after.identities, u)
    requires forall u :: u in after.users && u !in db.users ==> WellMade(after, u)
    ensures Evolves(db, after)
  {
    hide Linked, WellMade;
  }

  lemma CreateUserKeeps(db: Db, id: Id, email: string, nickname: string, password: string)
    requires Sound(db) && CreateUser(db, id, email, nickname, Some(password)).Made? && MIN_LENGTH <= |nickname|
    ensures var after := CreateUser(db, id, email, nickname, Some(password)).db; Sound(after) && Evolves(db, after)
  {
    var after := CreateUser(db, id, email, nickname, Some(password)).db;
    CanonicalIsIdempotent(email);
    hide Canonical, UsersSound, EmailTaken, NicknameTaken;
    UserAdded(db.users, db.clock, id, after.users[id]);
    GrowthEvolves(db, after);
  }

  /** What both rows need, the nickname left aside. */
  predicate Creatable(db: Db, id: Id, pk: Id, email: string, sub: string) {
    && email != "" && |Canonical(email)| <= EMAIL_LENGTH && |email| <= EMAIL_LENGTH && |sub| <= SUB_LENGTH
    && id !in db.users && !EmailTaken(db.users, Canonical(email))
    && pk !in db.identities && !SubTaken(db.identities, sub)
  }

  predicate NicknameFits(nickname: string) { MIN_LENGTH <= |nickname| <= MAX_LENGTH }

  /** The state with one more account and one more link. */
  function WithBoth(db: Db, id: Id, pk: Id, email: string, sub: string, nickname: string): Db {
    db.(users := db.users[id := Account(Canonical(email), nickname, true, Unusable(db.clock), None)],
        identities := db.identities[pk := Identity(id, sub, email)],
        clock := db.clock + 1)
  }

  lemma CreateLinkedIff(db: Db, id: Id, pk: Id, email: string, sub: string, nickname: string)
    requires Sound(db) && NicknameFits(nickname)
    ensures var r := CreateLinked(db, id, pk, email, sub, nickname);
            && (r.Made? <==> Creatable(db, id, pk, email, sub) && !NicknameTaken(db.users, nickname))
            && (r.Made? ==> r.db == WithBoth(db, id, pk, email, sub, nickname))
            && (Creatable(db, id, pk, email, sub) && NicknameTaken(db.users, nickname) ==> r == Clash)
  {
    hide Canonical, EmailTaken, SubTaken, NicknameTaken;
  }

  /**
   The retry loop. It adds exactly one account and its link, under the first candidate that is
   still free, when there is one and nothing else is in the way; otherwise it adds nothing.
   */
  lemma {:induction false} FirstFreeNickname(db: Db, id: Id, pk: Id, email: string, sub: string, candidates: seq<string>)
    requires Sound(db) && forall k :: 0 <= k < |candidates| ==> NicknameFits(candidates[k])
    ensures var r := CreateWithFirst(db, id, pk, email, sub, candidates);
            && (r.Made? <==> Creatable(db, id, pk, email, sub)
                             && exists k :: 0 <= k < |candidates| && !NicknameTaken(db.users, candidates[k]))
            && (r.Made? ==> exists k :: 0 <= k < |candidates| && !NicknameTaken(db.users, candidates[k])
                              && (forall j :: 0 <= j < k ==> NicknameTaken(db.users, candidates[j]))
                              && r.db == WithBoth(db, id, pk, email, sub, candidates[k]))
  {
    if candidates != [] {
      hide Canonical, NicknameTaken, Creatable, WithBoth, Sound, CreateLinked;
      var rest := candidates[1..];
      FirstFreeNickname(db, id, pk, email, sub, rest);
      CreateLinkedIff(db, id, pk, email, sub, candidates[0]);
      assert forall k :: 0 < k < |candidates| ==> candidates[k] == rest[k - 1];
      if !NicknameTaken(db.users, candidates[0]) {
      } else if k :| 0 <= k < |rest| && !NicknameTaken(db.users, rest[k]) {
        assert !NicknameTaken(db.users, candidates[k + 1]);
        if CreateWithFirst(db, id, pk, email, sub, rest).Made? {
          var m :| 0 <= m < |rest| && !NicknameTaken(db.users, rest[m])
                   && (forall j :: 0 <= j < m ==> NicknameTaken(db.users, rest[j]))
                   && CreateWithFirst(db, id, pk, email, sub, rest).db == WithBoth(db, id, pk, email, sub, rest[m]);
          assert candidates[m + 1] == rest[m];
        }
      }
    }
  }

  lemma WithBothKeeps(db: Db, id: Id, pk: Id, email: string, sub: string, nickname: string)
    requires Sound(db) && Creatable(db, id, pk, email, sub) && NicknameFits(nickname) && !NicknameTaken(db.users, nickname)
    ensures var after := WithBoth(db, id, pk, email, sub, nickname);
            Sound(after) && Evolves(db, after) && id in after.users
  {
    var after := WithBoth(db, id, pk, email, sub, nickname);
    CanonicalIsIdempotent(email);
    NobodyLinkedYet(db.users, db.identities, id);
    MoreUsers(db.users, db.identities, id, after.users[id]);
    LinksGrow(db.identities, pk, after.identities[pk]);
    hide Canonical, UsersSound, LinksSound, EmailTaken, NicknameTaken, SubTaken, Linked;
    UserAdded(db.users, db.clock, id, after.users[id]);
    LinkAdded(after.users, db.identities, pk, after.identities[pk]);
    assert WellMade(after, id);
    hide WellMade, Creatable;
    GrowthEvolves(db, after);
  }

  lemma MoreUsers(users: map<Id, Account>, identities: map<Id, Identity>, id: Id, account: Account)
    requires LinksSound(users, identities)
    ensures LinksSound(users[id := account], identities)
  {}

  // --- changes to one account ---

  lemma UserChanged(users: map<Id, Account>, clock: nat, user: Id, account: Account)
    requires UsersSound(users, clock) && user in users
    requires account.email == users[user].email && account.nickname == users[user].nickname
    requires account.password == users[user].password || account.password.salt == clock
    ensures UsersSound(users[user := account], clock + 1)
  {}

  lemma Changed(db: Db, after: Db, user: Id, account: Account)
    requires Sound(db) && user in db.users && after.clock == db.clock + 1
    requires after.users == db.users[user := account]
    requires account.email == db.users[user].email && account.nickname == db.users[user].nickname
    requires account.active == db.users[user].active
    requires account.password == db.users[user].password || account.password.salt == db.clock
    requires account.password.Hash? || Linked(after.identities, user) || account.password == db.users[user].password
    requires LinksSound(db.users, after.identities)
    requires forall i :: i in db.identities ==> i in after.identities && after.identities[i] == db.identities[i]
    requires forall u :: Linked(db.identities, u) ==> Linked(after.identities, u)
    ensures Sound(after) && Evolves(db, after)
  {
    UserChanged(db.users, db.clock, user, account);
    MoreUsers(db.users, after.identities, user, account);
    hide Linked, UsersSound, LinksSound;
    ChangeEvolves(db, after, user, account);
  }

  lemma ChangeEvolves(db: Db, after: Db, user: Id, account: Account)
    requires user in db.users && after.clock == db.clock + 1 && after.users == db.users[user := account]
    requires account.email == db.users[user].email && account.nickname == db.users[user].nickname
    requires account.active == db.users[user].active
    requires account.password == db.users[user].password || account.password.salt == db.clock
    requires account.password.Hash? || Linked(after.identities, user) || account.password == db.users[user].password
    requires forall i :: i in db.identities ==> i in after.identities && after.identities[i] == db.identities[i]
    requires forall u :: Linked(db.identities, u) ==> Linked(after.identities, u)
    ensures Evolves(db, after)
  {
    hide Linked, WellMade;
  }

  lemma EnterKeeps(db: Db, user: Id, session: Id)
    requires Sound(db) && user in db.users
    ensures Sound(Enter(db, user, session)) && Evolves(db, Enter(db, user, session))
  {
    hide Evolves, Linked, UsersSound, LinksSound;
    Changed(db, Enter(db, user, session), user, db.users[user].(lastLogin := Some(db.clock)));
  }

  lemma WithPasswordKeeps(db: Db, user: Id, password: string)
    requires Sound(db) && user in db.users
    ensures Sound(WithPassword(db, user, password)) && Evolves(db, WithPassword(db, user, password))
  {
    hide Evolves, Linked, UsersSound;
    Changed(db, WithPassword(db, user, password), user, db.users[user].(password := Hash(password, db.clock)));
  }

  lemma LinkKeeps(db: Db, existing: Id, pk: Id, sub: string, email: string)
    requires Sound(db) && existing in db.users && LinkSpec(db, existing, pk, sub, email).Resolved?
    ensures var after := LinkSpec(db, existing, pk, sub, email).db; Sound(after) && Evolves(db, after)
  {
    var after := LinkSpec(db, existing, pk, sub, email).db;
    if after == db {
      EvolvesReflexive(db);
    } else {
      hide Evolves, Linked, SubTaken, UsersSound, LinksSound;
      LinkAdded(db.users, db.identities, pk, Identity(existing, sub, email));
      LinksGrow(db.identities, pk, Identity(existing, sub, email));
      Changed(db, after, existing, db.users[existing].(password := Unusable(db.clock)));
    }
  }

  lemma LinkOrCreateKeeps(db: Db, sub: string, email: string, name: string, luck: Luck, id: Id, pk: Id)
    requires Sound(db) && Drawn(luck) && LinkOrCreateSpec(db, sub, email, name, luck, id, pk).Resolved?
    ensures var r := LinkOrCreateSpec(db, sub, email, name, luck, id, pk);
            Sound(r.db) && Evolves(db, r.db) && r.user in r.db.users
  {
    var address := Canonical(email);
    if OwnerOf(db.identities, sub).Some? {
      EvolvesReflexive(db);
    } else if WithEmail(db.users, address).Some? {
      hide Sound, Evolves;
      LinkKeeps(db, WithEmail(db.users, address).value, pk, sub, address);
    } else {
      var candidates := Candidates(Base(name, address), luck);
      CandidatesFitTheColumn(name, address, luck);
      hide Sound, Evolves, Canonical, Creatable, WithBoth, CreateWithFirst, Candidates, Base;
      FirstFreeNickname(db, id, pk, address, sub, candidates);
      var k :| 0 <= k < |candidates| && !NicknameTaken(db.users, candidates[k])
               && CreateWithFirst(db, id, pk, address, sub, candidates).db == WithBoth(db, id, pk, address, sub, candidates[k]);
      WithBothKeeps(db, id, pk, address, sub, candidates[k]);
    }
  }

  // --- requests and runs ---

  lemma SignupKeeps(db: Db, id: Id, email: string, nickname: string, password: string, strong: bool, session: Id)
    requires Sound(db)
    ensures var after := SignupSpec(db, id, email, nickname, password, strong, session).db; Sound(after) && Evolves(db, after)
  {
    EvolvesReflexive(db);
    hide Sound, Evolves, Canonical, EmailTaken, NicknameTaken;
    if CreateUser(db, id, email, nickname, Some(password)).Made? && SignupFits(nickname) {
      var made := CreateUser(db, id, email, nickname, Some(password)).db;
      CreateUserKeeps(db, id, email, nickname, password);
      EnterKeeps(made, id, session);
      hide Enter;
      EvolvesTransitive(db, made, Enter(made, id, session));
    }
  }

  lemma GoogleLoginKeeps(db: Db, sub: string, email: string, name: string, luck: Luck, id: Id, pk: Id, session: Id)
    requires Sound(db) && Drawn(luck)
    ensures var after := GoogleLoginSpec(db, sub, email, name, luck, id, pk, session).db; Sound(after) && Evolves(db, after)
  {
    EvolvesReflexive(db);
    hide Sound, Evolves, LinkOrCreateSpec;
    var r := LinkOrCreateSpec(db, sub, email, name, luck, id, pk);
    if r.Resolved? {
      LinkOrCreateKeeps(db, sub, email, name, luck, id, pk);
      EnterKeeps(r.db, r.user, session);
      EvolvesTransitive(db, r.db, Enter(r.db, r.user, session));
    }
  }

  lemma RequestKeeps(db: Db, r: ValidRequest)
    requires Sound(db)
    ensures Sound(Serve(db, r).db) && Evolves(db, Serve(db, r).db)
  {
    hide Sound, Evolves, Canonical, SignupSpec, GoogleLoginSpec;
    EvolvesReflexive(db);
    match r
    case Signup(id, email, nickname, password, strong, session) =>
      SignupKeeps(db, id, email, nickname, password, strong, session);
    case Login(email, password, session) =>
      var u := WithEmail(db.users, Canonical(email));
      if u.Some? { EnterKeeps(db, u.value, session); }
    case Logout(session) => LogoutKeeps(db, session);
    case GoogleLogin(sub, email, name, luck, id, pk, session) => GoogleLoginKeeps(db, sub, email, name, luck, id, pk, session);
    case ConfirmReset(uid, token, password, strong) =>
      if uid.Some? && uid.value in db.users { WithPasswordKeeps(db, uid.value, password); }
  }

  lemma LogoutKeeps(db: Db, session: Id)
    requires Sound(db)
    ensures Sound(LogoutSpec(db, session).db) && Evolves(db, LogoutSpec(db, session).db)
  {}

  /** All of it, over any serial run. */
  lemma {:induction false} RunKeeps(db: Db, rs: seq<ValidRequest>)
    requires Sound(db)
    ensures Sound(ServeAll(db, rs)) && Evolves(db, ServeAll(db, rs))
    decreases |rs|
  {
    if rs == [] {
      EvolvesReflexive(db);
    } else {
      var before := ServeAll(db, rs[..|rs| - 1]);
      RunKeeps(db, rs[..|rs| - 1]);
      hide Sound, Evolves, Serve;
      RequestKeeps(before, rs[|rs| - 1]);
      EvolvesTransitive(db, before, ServeAll(db, rs));
    }
  }

  // --- what that means ---

  /** Google accounts and local accounts stay paired one to one, and no two accounts share an address. */
  lemma PairedOneToOne(db: Db, rs: seq<ValidRequest>)
    requires Sound(db)
    ensures var after := ServeAll(db, rs);
            && (forall i, j :: i in after.identities && j in after.identities && i != j ==>
                  after.identities[i].sub != after.identities[j].sub && after.identities[i].user != after.identities[j].user)
            && (forall u, v :: u in after.users && v in after.users && u != v ==> after.users[u].email != after.users[v].email)
  {
    RunKeeps(db, rs);
    hide Evolves;
  }

  /**
   Once a Google account has resolved to a local account, it resolves to it for ever, whatever
   address and name it comes with, and resolving it changes nothing.
   */
  lemma BoundForEver(db: Db, sub: string, rs: seq<ValidRequest>, email: string, name: string, luck: Luck, id: Id, pk: Id)
    requires Sound(db) && OwnerOf(db.identities, sub).Some? && Drawn(luck)
    ensures LinkOrCreateSpec(ServeAll(db, rs), sub, email, name, luck, id, pk) ==
            Resolved(ServeAll(db, rs), OwnerOf(db.identities, sub).value)
  {
    var after := ServeAll(db, rs);
    RunKeeps(db, rs);
    var i :| i in db.identities && db.identities[i] == Identity(OwnerOf(db.identities, sub).value, sub, db.identities[i].email);
    assert i in after.identities && after.identities[i] == db.identities[i];
    assert SubTaken(after.identities, sub);
    hide UserEvolves, UsersSound, WellMade, ServeAll;
  }

  lemma LinkingBinds(db: Db, existing: Id, pk: Id, sub: string, email: string)
    requires Sound(db) && existing in db.users && LinkSpec(db, existing, pk, sub, email).Resolved? && db.users[existing].active
    ensures LinkSpec(db, existing, pk, sub, email).user == existing
    ensures OwnerOf(LinkSpec(db, existing, pk, sub, email).db.identities, sub) == Some(existing)
  {
    var after := LinkSpec(db, existing, pk, sub, email).db;
    LinkKeeps(db, existing, pk, sub, email);
    hide Evolves, UsersSound, SubTaken, Linked;
    assert after.identities == db.identities[pk := Identity(existing, sub, email)];
    OwnerIs(after, pk, sub);
  }

  lemma CreatingBinds(db: Db, id: Id, pk: Id, email: string, sub: string, candidates: seq<string>)
    requires Sound(db) && (forall k :: 0 <= k < |candidates| ==> NicknameFits(candidates[k]))
    requires CreateWithFirst(db, id, pk, email, sub, candidates).Made?
    ensures OwnerOf(CreateWithFirst(db, id, pk, email, sub, candidates).db.identities, sub) == Some(id)
  {
    FirstFreeNickname(db, id, pk, email, sub, candidates);
    var k :| 0 <= k < |candidates| && !NicknameTaken(db.users, candidates[k])
             && CreateWithFirst(db, id, pk, email, sub, candidates).db == WithBoth(db, id, pk, email, sub, candidates[k]);
    hide Evolves, UsersSound, LinksSound, Canonical, Creatable, CreateWithFirst, NicknameTaken, NicknameFits;
    WithBothKeeps(db, id, pk, email, sub, candidates[k]);
    OwnerIs(WithBoth(db, id, pk, email, sub, candidates[k]), pk, sub);
  }

  /** And the first time binds it, unless the account it found is frozen. */
  lemma FirstTimeBinds(db: Db, sub: string, email: string, name: string, luck: Luck, id: Id, pk: Id)
    requires Sound(db) && Drawn(luck) && LinkOrCreateSpec(db, sub, email, name, luck, id, pk).Resolved?
    requires var r := LinkOrCreateSpec(db, sub, email, name, luck, id, pk); r.user in r.db.users && r.db.users[r.user].active
    ensures var r := LinkOrCreateSpec(db, sub, email, name, luck, id, pk); OwnerOf(r.db.identities, sub) == Some(r.user)
  {
    var address := Canonical(email);
    hide Sound, Canonical, LinkSpec, CreateWithFirst, Candidates, Base;
    if OwnerOf(db.identities, sub).Some? {
    } else if WithEmail(db.users, address).Some? {
      var existing := WithEmail(db.users, address).value;
      if db.users[existing].active { LinkingBinds(db, existing, pk, sub, address); }
      else { FrozenIsUntouched(db, existing, pk, sub, address); }
    } else {
      CandidatesFitTheColumn(name, address, luck);
      CreatingBinds(db, id, pk, address, sub, Candidates(Base(name, address), luck));
    }
  }

  /** A frozen account is returned as it is. */
  lemma FrozenIsUntouched(db: Db, existing: Id, pk: Id, sub: string, email: string)
    requires existing in db.users && !db.users[existing].active
    ensures LinkSpec(db, existing, pk, sub, email) == Resolved(db, existing)
  {}

  lemma OwnerIs(db: Db, pk: Id, sub: string)
    requires Sound(db) && pk in db.identities && db.identities[pk].sub == sub
    ensures OwnerOf(db.identities, sub) == Some(db.identities[pk].user)
  {}

  /**
   Every account that sign-up or Google made in a run can be recovered by mail, to the end of the
   run: any spelling of its address that folds to it gets a link, and the link sets a password.
   */
  lemma MadeHereCanRecover(db: Db, rs: seq<ValidRequest>, u: Id, email: string, password: string)
    requires Sound(db) && u in ServeAll(db, rs).users && u !in db.users
    requires Canonical(email) == ServeAll(db, rs).users[u].email
    ensures ResetAllowed(ServeAll(db, rs), u)
    ensures MailedToken(ServeAll(db, rs), email) == Some(TokenOf(ServeAll(db, rs), u))
    ensures ConfirmResetSpec(ServeAll(db, rs), Some(u), MailedToken(ServeAll(db, rs), email), password, true).reply == Accepted
  {
    var after := ServeAll(db, rs);
    RunKeeps(db, rs);
    assert WellMade(after, u);
    assert EmailTaken(after.users, Canonical(email));
    hide Evolves, LinksSound, ServeAll, ResetAllowed, Canonical;
  }

  /** A reset token is dead as soon as the password it was computed from has been replaced, and stays dead. */
  lemma OldTokensAreDead(minted: Db, replaced: Db, now: Db, u: Id, uid: Option<Id>, password: string, strong: bool)
    requires UsersSound(minted.users, minted.clock) && Evolves(minted, replaced) && Evolves(replaced, now)
    requires u in minted.users && replaced.users[u].password != minted.users[u].password
    ensures ConfirmResetSpec(now, uid, Some(TokenOf(minted, u)), password, strong).reply != Accepted
  {
    assert UserEvolves(minted, replaced, u) && UserEvolves(replaced, now, u);
    hide UserEvolves, ResetAllowed, WellMade;
  }

  /** A mailed link sets a password once: whatever happens afterwards, it is not accepted again. */
  lemma ResetLinkWorksOnce(db: Db, uid: Option<Id>, token: Option<Token>, password: string, strong: bool, rs: seq<ValidRequest>,
                           again: Option<Id>, other: string, strength: bool)
    requires Sound(db) && ConfirmResetSpec(db, uid, token, password, strong).reply == Accepted
    ensures ConfirmResetSpec(ServeAll(ConfirmResetSpec(db, uid, token, password, strong).db, rs), again, token, other,
                             strength).reply != Accepted
  {
    var after := ConfirmResetSpec(db, uid, token, password, strong).db;
    WithPasswordKeeps(db, uid.value, password);
    assert after.users[uid.value].password.salt == db.clock > db.users[uid.value].password.salt;
    RunKeeps(after, rs);
    hide Evolves, ServeAll, LinksSound;
    OldTokensAreDead(db, after, ServeAll(after, rs), uid.value, again, other, strength);
  }

  /** The sessions of one account are gone; every other one, and every other account, is as it was. */
  ghost predicate OnlyItIsOut(db: Db, after: Db, user: Id) {
    && (forall key :: key in after.sessions <==> key in db.sessions && db.sessions[key] != Some(user))
    && (forall key :: key in after.sessions ==> after.sessions[key] == db.sessions[key])
    && (forall u :: u in db.users && u != user ==> u in after.users && after.users[u] == db.users[u])
  }

  /** Nobody keeps an account through a Google link: no session of it is left, and no password opens it. */
  lemma LinkLocksOut(db: Db, existing: Id, pk: Id, sub: string, email: string, password: string)
    requires Sound(db) && existing in db.users && db.users[existing].active
    requires LinkSpec(db, existing, pk, sub, email).Resolved?
    ensures var after := LinkSpec(db, existing, pk, sub, email).db;
            OnlyItIsOut(db, after, existing) && !Opens(after.users[existing], password)
  {
    hide UsersSound, LinksSound, SubTaken, Linked;
  }

  /** And no reset token mailed before the link is ever good for it again. */
  lemma LinkKillsTokens(minted: Db, db: Db, existing: Id, pk: Id, sub: string, email: string, rs: seq<ValidRequest>,
                        uid: Option<Id>, password: string, strong: bool)
    requires Sound(minted) && Evolves(minted, db) && existing in minted.users
    requires Sound(db) && LinkSpec(db, existing, pk, sub, email).Resolved? && db.users[existing].active
    ensures var after := LinkSpec(db, existing, pk, sub, email).db;
            ConfirmResetSpec(ServeAll(after, rs), uid, Some(TokenOf(minted, existing)), password, strong).reply != Accepted
  {
    var after := LinkSpec(db, existing, pk, sub, email).db;
    assert minted.users[existing].password.salt < minted.clock <= db.clock;
    assert after.users[existing].password == Unusable(db.clock);
    LinkKeeps(db, existing, pk, sub, email);
    RunKeeps(after, rs);
    hide Evolves, LinksSound, ServeAll, LinkSpec, ConfirmResetSpec;
    EvolvesTransitive(minted, db, after);
    OldTokensAreDead(minted, after, ServeAll(after, rs), existing, uid, password, strong);
  }

  /** A reset ends that account's sessions and nobody else's, and the new password is the one that opens it. */
  lemma ResetStartsOver(db: Db, uid: Option<Id>, token: Option<Token>, password: string, strong: bool, other: string)
    requires ConfirmResetSpec(db, uid, token, password, strong).reply == Accepted
    ensures var after := ConfirmResetSpec(db, uid, token, password, strong).db;
            OnlyItIsOut(db, after, uid.value) && (Opens(after.users[uid.value], other) <==> other == password)
  {}
}
