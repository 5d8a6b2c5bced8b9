/**
 What the account requests answer and leave, in terms of addresses, passwords and sessions. Addresses
 are compared without regard to case: this file says so without the function that folds them.
 */
module AccountLaws {
  import opened Text
  import opened Common
  import opened Nicknames
  import opened Accounts
  import opened AccountFacts

  // --- folding an address ---

  /** The same letter, or the small one of a capital. */
  predicate SmallOf(small: char, c: char) {
    if 'A' <= c <= 'Z' then small as int == c as int + 32 else small == c
  }

  predicate SmallOfAll(small: string, s: string) { |small| == |s| && forall i :: 0 <= i < |s| ==> SmallOf(small[i], s[i]) }

  /** `folded` is `email` in small letters, and without the white space around it if it has an `@`. */
  ghost predicate FoldOf(folded: string, email: string) {
    exists left, middle, right :: FoldedFrom(folded, email, left, middle, right)
  }

  predicate FoldedFrom(folded: string, email: string, left: string, middle: string, right: string) {
    && email == left + middle + right && Blank(left) && Blank(right) && SmallOfAll(folded, middle)
    && if '@' in email then folded != "" && !IsSpace(folded[0]) && !IsSpace(folded[|folded| - 1])
       else left == "" && right == ""
  }

  lemma LowerIsSmall(s: string)
    ensures SmallOfAll(Lower(s), s)
  {}

  lemma LowerHasNoCapitals(s: string)
    ensures forall c :: c in Lower(s) ==> !('A' <= c <= 'Z')
  {}

  lemma FoldedStripped(email: string)
    requires '@' in email
    ensures FoldOf(Lower(Strip(email)), email)
  {
    var left, right := StripSplits(email);
    KeepsAt(email);
    LowerIsSmall(Strip(email));
    hide Strip, SmallOf, IsSpace;
    var middle := Strip(email);
    var folded := Lower(middle);
    assert middle != "" && |folded| == |middle|;
    EndsAreSolid(folded, middle);
    hide Lower, SmallOfAll;
    assert FoldedFrom(folded, email, left, middle, right);
  }

  /** Small letters are no white space, and neither are capitals. */
  lemma EndsAreSolid(folded: string, middle: string)
    requires SmallOfAll(folded, middle) && middle != "" && !IsSpace(middle[0]) && !IsSpace(middle[|middle| - 1])
    ensures folded != "" && !IsSpace(folded[0]) && !IsSpace(folded[|folded| - 1])
  {}

  /** What folding does to an address. */
  lemma CanonicalFolds(email: string)
    ensures FoldOf(Canonical(email), email)
    ensures forall c :: c in Canonical(email) ==> !('A' <= c <= 'Z')
  {
    LowerHasNoCapitals(if '@' in email then Strip(email) else email);
    if '@' in email {
      FoldedStripped(email);
      hide Lower, Strip, FoldOf;
    } else {
      LowerIsSmall(email);
      hide Lower, Strip, SmallOfAll;
      assert email == "" + email + "";
      assert FoldedFrom(Canonical(email), email, "", email, "");
    }
  }

  /** Equal up to the case of the letters A to Z. */
  predicate SameLetter(c: char, d: char) {
    || c == d
    || ('A' <= c <= 'Z' && d as int == c as int + 32)
    || ('A' <= d <= 'Z' && c as int == d as int + 32)
  }

  predicate SameSpelling(a: string, b: string) { |a| == |b| && forall i :: 0 <= i < |a| ==> SameLetter(a[i], b[i]) }

  lemma SameLower(a: string, b: string)
    requires SameSpelling(a, b)
    ensures Lower(a) == Lower(b)
  {}

  lemma {:induction false} SameStripLeft(a: string, b: string)
    requires SameSpelling(a, b)
    ensures SameSpelling(StripLeft(a), StripLeft(b))
  {
    if a != "" && IsSpace(a[0]) {
      assert IsSpace(b[0]);
      SameStripLeft(a[1..], b[1..]);
    }
  }

  lemma {:induction false} SameStripRight(a: string, b: string)
    requires SameSpelling(a, b)
    ensures SameSpelling(StripRight(a), StripRight(b))
  {
    if a != "" && IsSpace(a[|a| - 1]) {
      assert IsSpace(b[|b| - 1]);
      SameStripRight(a[..|a| - 1], b[..|b| - 1]);
    }
  }

  lemma SameAt(a: string, b: string)
    requires SameSpelling(a, b)
    ensures '@' in a ==> '@' in b
  {
    if '@' in a {
      var i :| 0 <= i < |a| && a[i] == '@';
      assert b[i] == '@';
    }
  }

  lemma SameSpellingBack(a: string, b: string)
    requires SameSpelling(a, b)
    ensures SameSpelling(b, a)
  {}

  /** Two spellings of an address are one address. */
  lemma SpellingsFoldAlike(a: string, b: string)
    requires SameSpelling(a, b)
    ensures Canonical(a) == Canonical(b)
  {
    SameSpellingBack(a, b);
    SameAt(a, b);
    SameAt(b, a);
    SameStripLeft(a, b);
    SameStripRight(StripLeft(a), StripLeft(b));
    SameLower(a, b);
    SameLower(Strip(a), Strip(b));
  }

  /** Stored the way addresses are stored: small letters, and no white space around an `@`. */
  predicate StoredForm(email: string) {
    && '@' in email && (forall i :: 0 <= i < |email| ==> !('A' <= email[i] <= 'Z'))
    && !IsSpace(email[0]) && !IsSpace(email[|email| - 1])
  }

  lemma StoredIsCanonical(email: string)
    requires StoredForm(email)
    ensures Canonical(email) == email
  {
    assert StripLeft(email) == email && StripRight(email) == email;
    LowerIsSmall(email);
  }

  /** An account is found by every spelling of its address. */
  lemma FoundBySpelling(users: map<Id, Account>, clock: nat, u: Id, email: string)
    requires UsersSound(users, clock) && u in users && StoredForm(users[u].email) && SameSpelling(users[u].email, email)
    ensures WithEmail(users, Canonical(email)) == Some(u)
  {
    SpellingsFoldAlike(users[u].email, email);
    StoredIsCanonical(users[u].email);
    assert EmailTaken(users, users[u].email);
  }

  // --- making an account ---

  predicate SomeoneHas(users: map<Id, Account>, email: string) { exists u :: u in users && users[u].email == email }

  predicate SomeoneIsCalled(users: map<Id, Account>, nickname: string) { exists u :: u in users && users[u].nickname == nickname }

  lemma SignupAnswers(db: Db, id: Id, email: string, nickname: string, password: string, strong: bool, session: Id)
    requires id !in db.users && session !in db.sessions
    ensures var reply := SignupSpec(db, id, email, nickname, password, strong, session).reply;
            var address := '@' in email && |email| <= 254;
            var name := 2 <= |nickname| <= 20;
            var taken := (address && SomeoneHas(db.users, Canonical(email))) || (name && SomeoneIsCalled(db.users, nickname));
            && (reply == Refused(Conflict) <==> taken)
            && (reply == Refused(Invalid) <==> !taken && !(address && name && strong))
            && (reply == Accepted <==> !taken && address && name && strong)
  {
    CanonicalIsNotLonger(email);
    if '@' in email { CanonicalKeepsAt(email); }
  }

  lemma CanonicalIsNotLonger(email: string)
    ensures |Canonical(email)| <= |email|
  {
    StrippedIsShorter(email);
  }

  lemma CanonicalKeepsAt(email: string)
    ensures '@' in email <==> '@' in Canonical(email)
  {
    KeepsAt(email);
    LowerKeepsAt(email);
    LowerKeepsAt(Strip(email));
  }

  lemma CanonicalIsStored(email: string)
    requires '@' in email
    ensures StoredForm(Canonical(email))
  {
    CanonicalKeepsAt(email);
    CanonicalFolds(email);
    hide Canonical;
    var left, middle, right :| FoldedFrom(Canonical(email), email, left, middle, right);
  }

  /** Signing up makes one active account under the folded address, open to that password, and logs it in. */
  lemma SignupLeaves(db: Db, id: Id, email: string, nickname: string, password: string, strong: bool, session: Id)
    requires SignupSpec(db, id, email, nickname, password, strong, session).reply == Accepted
    ensures var after := SignupSpec(db, id, email, nickname, password, strong, session).db;
            && id !in db.users && after.users.Keys == db.users.Keys + {id}
            && (forall u :: u in db.users ==> after.users[u] == db.users[u])
            && after.identities == db.identities && after.sessions == db.sessions[session := Some(id)]
            && var made := after.users[id];
            && made.email == Canonical(email) && StoredForm(made.email) && made.nickname == nickname && made.active
            && made.password.Hash? && made.password.raw == password && made.lastLogin.Some?
  {
    CanonicalIsStored(email);
    hide Canonical, StoredForm;
  }

  // --- logging in ---

  /** The password of an active account opens it, at whatever spelling of its address, and nothing else does. */
  lemma LoginAnswers(db: Db, u: Id, email: string, password: string, session: Id)
    requires Sound(db) && u in db.users && StoredForm(db.users[u].email) && SameSpelling(db.users[u].email, email)
    requires session !in db.sessions
    ensures var reply := LoginSpec(db, email, password, session).reply;
            && (reply == Accepted <==> db.users[u].active && db.users[u].password.Hash? && db.users[u].password.raw == password)
            && (reply != Accepted ==> reply == Refused(Unauthorized))
  {
    FoundBySpelling(db.users, db.clock, u, email);
    hide Canonical;
  }

  lemma UnknownIsUnauthorized(db: Db, email: string, password: string, session: Id)
    requires !SomeoneHas(db.users, Canonical(email))
    ensures LoginSpec(db, email, password, session).reply == Refused(Unauthorized)
  {
    hide Canonical;
  }

  /** A login writes a session and the time of the last login, of the account it found. */
  lemma LoginLeaves(db: Db, email: string, password: string, session: Id)
    ensures var served := LoginSpec(db, email, password, session);
            && (served.reply != Accepted ==> served.db == db)
            && (served.reply == Accepted ==>
                  exists u :: && u in db.users && db.users[u].email == Canonical(email)
                              && served.db.sessions == db.sessions[session := Some(u)] && served.db.identities == db.identities
                              && served.db.users == db.users[u := db.users[u].(lastLogin := served.db.users[u].lastLogin)])
  {
    hide Canonical;
  }

  /** Sign up, and log in again under any spelling of the address: exactly the password given works. */
  lemma SignupThenLogin(db: Db, id: Id, email: string, nickname: string, password: string, strong: bool, session: Id,
                        again: string, typed: string, other: Id)
    requires Sound(db) && SignupSpec(db, id, email, nickname, password, strong, session).reply == Accepted
    requires SameSpelling(email, again)
    ensures var after := SignupSpec(db, id, email, nickname, password, strong, session).db;
            other !in after.sessions ==> (LoginSpec(after, again, typed, other).reply == Accepted <==> typed == password)
  {
    var after := SignupSpec(db, id, email, nickname, password, strong, session).db;
    SignupLeaves(db, id, email, nickname, password, strong, session);
    SignupKeeps(db, id, email, nickname, password, strong, session);
    SpellingsFoldAlike(email, again);
    assert EmailTaken(after.users, Canonical(email));
    hide Canonical, SignupSpec, StoredForm, LinksSound, Evolves;
  }

  lemma LogoutLeaves(db: Db, session: Id)
    ensures var after := LogoutSpec(db, session).db;
            && session !in after.sessions
            && after.users == db.users && after.identities == db.identities
            && forall key :: key in db.sessions && key != session ==>
                 key in after.sessions && after.sessions[key] == db.sessions[key]
  {}

  // --- Google ---

  /** A subject seen before is its account, whatever address it brings. */
  lemma KnownSubject(db: Db, i: Id, sub: string, email: string, name: string, luck: Luck, id: Id, pk: Id)
    requires Sound(db) && Drawn(luck) && i in db.identities && db.identities[i].sub == sub
    ensures LinkOrCreateSpec(db, sub, email, name, luck, id, pk) == Resolved(db, db.identities[i].user)
  {
    OwnerIs(db, i, sub);
  }

  /**
   A new subject that brings some spelling of an account's address meets that account: a frozen one is
   left alone, one with another link is a conflict, any other is linked and taken over. None is added.
   */
  lemma SpellingMeetsAccount(db: Db, u: Id, sub: string, email: string, name: string, luck: Luck, id: Id, pk: Id)
    requires Sound(db) && Drawn(luck) && u in db.users && StoredForm(db.users[u].email) && SameSpelling(db.users[u].email, email)
    requires (forall i :: i in db.identities ==> db.identities[i].sub != sub) && pk !in db.identities
    requires |sub| <= 255 && |email| <= 254
    ensures var resolved := LinkOrCreateSpec(db, sub, email, name, luck, id, pk);
            var linked := exists i :: i in db.identities && db.identities[i].user == u;
            && (!db.users[u].active ==> resolved == Resolved(db, u))
            && (db.users[u].active && linked ==> resolved == Failed(Conflict))
            && (db.users[u].active && !linked ==>
                  && resolved.Resolved? && resolved.user == u && resolved.db.users.Keys == db.users.Keys
                  && resolved.db.identities == db.identities[pk := Identity(u, sub, db.users[u].email)]
                  && !resolved.db.users[u].password.Hash?
                  && (forall v :: v in db.users && v != u ==> resolved.db.users[v] == db.users[v])
                  && (forall key :: key in resolved.db.sessions <==> key in db.sessions && db.sessions[key] != Some(u)))
  {
    FoundBySpelling(db.users, db.clock, u, email);
    SpellingsFoldAlike(db.users[u].email, email);
    StoredIsCanonical(db.users[u].email);
    assert !SubTaken(db.identities, sub);
    hide Canonical, CreateWithFirst, Candidates;
  }

  /** A subject and an address nobody has make a new account, with a link and without a password. */
  lemma StrangerGetsAccount(db: Db, sub: string, email: string, name: string, luck: Luck, id: Id, pk: Id)
    requires Drawn(luck) && !SubTaken(db.identities, sub) && !SomeoneHas(db.users, Canonical(email))
    requires LinkOrCreateSpec(db, sub, email, name, luck, id, pk).Resolved?
    ensures var after := LinkOrCreateSpec(db, sub, email, name, luck, id, pk).db;
            && LinkOrCreateSpec(db, sub, email, name, luck, id, pk).user == id
            && id !in db.users && after.users.Keys == db.users.Keys + {id}
            && (forall u :: u in db.users ==> after.users[u] == db.users[u])
            && after.identities == db.identities[pk := Identity(id, sub, Canonical(email))] && after.sessions == db.sessions
            && var made := after.users[id];
            && made.email == Canonical(email) && made.active && !made.password.Hash? && made.lastLogin.None?
  {
    CanonicalIsIdempotent(email);
    hide Canonical;
    FirstMade(db, id, pk, Canonical(email), sub, Candidates(Base(name, Canonical(email)), luck));
  }

  lemma {:induction false} FirstMade(db: Db, id: Id, pk: Id, email: string, sub: string, candidates: seq<string>)
    requires CreateWithFirst(db, id, pk, email, sub, candidates).Made?
    ensures var after := CreateWithFirst(db, id, pk, email, sub, candidates).db;
            && id !in db.users && after.sessions == db.sessions
            && after.identities == db.identities[pk := Identity(id, sub, email)]
            && id in after.users
            && after.users == db.users[id := Account(Canonical(email), after.users[id].nickname, true, Unusable(db.clock), None)]
  {
    hide Canonical;
    if CreateLinked(db, id, pk, email, sub, candidates[0]).Clash? { FirstMade(db, id, pk, email, sub, candidates[1..]); }
  }

  /** The callback opens a session of the account it resolved, unless that is frozen. */
  lemma GoogleLoginOpens(db: Db, sub: string, email: string, name: string, luck: Luck, id: Id, pk: Id, session: Id)
    requires Sound(db) && Drawn(luck)
    ensures var served := GoogleLoginSpec(db, sub, email, name, luck, id, pk, session);
            var resolved := LinkOrCreateSpec(db, sub, email, name, luck, id, pk);
            && (resolved.Failed? ==> served == Outcome(db, Refused(resolved.error)))
            && (resolved.Resolved? ==>
                  && resolved.user in resolved.db.users
                  && (served.reply == Refused(Unauthorized) <==> !resolved.db.users[resolved.user].active)
                  && (served.reply == Accepted ==>
                        && served.db.sessions == resolved.db.sessions[session := Some(resolved.user)]
                        && served.db.users[resolved.user].password == resolved.db.users[resolved.user].password))
  {
    hide LinkOrCreateSpec, Evolves;
    if LinkOrCreateSpec(db, sub, email, name, luck, id, pk).Resolved? { LinkOrCreateKeeps(db, sub, email, name, luck, id, pk); }
  }

  // --- resetting ---

  /** A link is mailed to the active accounts that have a usable password or a Google link, and is about them. */
  lemma MailGoesTo(db: Db, u: Id, email: string)
    requires Sound(db) && u in db.users && StoredForm(db.users[u].email) && SameSpelling(db.users[u].email, email)
    ensures var account := db.users[u];
            var may := account.active && (account.password.Hash? || exists i :: i in db.identities && db.identities[i].user == u);
            MailedToken(db, email) == if may then Some(Token(u, account.password, account.lastLogin, account.email)) else None
  {
    FoundBySpelling(db.users, db.clock, u, email);
    hide Canonical;
  }

  lemma NoAccountNoMail(db: Db, email: string)
    requires !SomeoneHas(db.users, Canonical(email))
    ensures MailedToken(db, email) == None
  {
    hide Canonical;
  }

  /** A reset is accepted exactly for an active account that may reset, a token of its present state, and a strong password. */
  lemma ResetAnswers(db: Db, uid: Option<Id>, token: Option<Token>, password: string, strong: bool)
    ensures var reply := ConfirmResetSpec(db, uid, token, password, strong).reply;
            var good := && uid.Some? && uid.value in db.users
                        && var account := db.users[uid.value];
                        && account.active
                        && (account.password.Hash? || exists i :: i in db.identities && db.identities[i].user == uid.value)
                        && token == Some(Token(uid.value, account.password, account.lastLogin, account.email));
            && (reply == Accepted <==> good && strong)
            && (reply != Accepted ==> reply == Refused(Invalid))
            && (reply != Accepted ==> ConfirmResetSpec(db, uid, token, password, strong).db == db)
  {}
}
