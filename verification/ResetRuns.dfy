/**
 What every schedule of resets, links and logins keeps: a mailed token works once and not after a link,
 Google accounts and local accounts stay paired, and no session outlives the password it was opened with.
 */
module ResetRuns {
  import opened Common
  import opened Accounts
  import opened AccountFacts
  import opened ResetSteps

  // --- what holds in every reachable state ---

  predicate Mine(locks: map<Lock, Tid>, l: Lock, tid: Tid) { l in locks && locks[l] == tid }

  ghost predicate LocksOwned(s: Sys) { forall l :: l in s.locks ==> s.locks[l] in s.open }

  /** The account is locked and is as it was read. */
  predicate HeldRead(s: Sys, tid: Tid, t: Txn) {
    && t.call.user in s.users && t.read == Some(s.users[t.call.user]) && Mine(s.locks, UserRow(t.call.user), tid)
  }

  /** A password written and not yet committed is newer than the one it replaces. */
  predicate Newer(s: Sys, user: Id, stored: Password) {
    user in s.users && s.users[user].password.salt < stored.salt < s.clock
  }

  predicate StoredHolds(s: Sys, t: Txn) {
    && (t.phase.Drawn? ==> Newer(s, t.call.user, t.phase.stored))
    && (t.phase.Scanned? ==> Newer(s, t.call.user, t.phase.stored))
  }

  predicate ResetHolds(s: Sys, tid: Tid, t: Txn)
    requires t.call.Reset?
  {
    && !t.phase.Unknown? && !t.phase.Inserted? && !t.phase.Known? && !t.phase.Stamped?
    && (!t.phase.Begun? ==> HeldRead(s, tid, t) && s.users[t.call.user].active)
    && (!t.phase.Begun? && !t.phase.Held? ==>
          && MayReset(s.identities, t.call.user, s.users[t.call.user]) && t.call.strong
          && t.call.token == Some(Minted(t.call.user, s.users[t.call.user])))
    && (t.phase.Drawn? || t.phase.Scanned? ==> t.phase.stored == Hash(t.call.password, t.phase.stored.salt))
    && StoredHolds(s, t)
  }

  predicate LinkHolds(s: Sys, tid: Tid, t: Txn)
    requires t.call.Link?
  {
    && !t.phase.Known? && !t.phase.Stamped?
    && (!t.phase.Begun? && !t.phase.Unknown? ==>
          && HeldRead(s, tid, t) && s.users[t.call.user].active
          && s.users[t.call.user].email == Canonical(t.call.email))
    && (!t.phase.Begun? && !t.phase.Unknown? && !t.phase.Held? ==> !Linked(s.identities, t.call.user))
    && (t.phase.Inserted? || t.phase.Drawn? || t.phase.Scanned? ==>
          && t.call.pk !in s.identities && !SubTaken(s.identities, t.call.sub)
          && |t.call.sub| <= SUB_LENGTH && |Canonical(t.call.email)| <= EMAIL_LENGTH
          && Mine(s.locks, SubKey(t.call.sub), tid) && Mine(s.locks, LinkRow(t.call.pk), tid))
    && (t.phase.Drawn? || t.phase.Scanned? ==> t.phase.stored.Unusable?)
    && StoredHolds(s, t)
  }

  /** The password of the account when it was read, or one replaced since. */
  predicate NotNewer(s: Sys, session: Session) {
    session.user in s.users && session.password.salt <= s.users[session.user].password.salt
  }

  predicate LoginHolds(s: Sys, t: Txn)
    requires t.call.Login?
  {
    t.phase.Known? || t.phase.Stamped? ==> t.read.Some? && NotNewer(s, Session(t.call.user, t.read.value.password))
  }

  predicate TxnHolds(s: Sys, tid: Tid, t: Txn) {
    match t.call
    case Reset(_, _, _, _) => ResetHolds(s, tid, t)
    case Link(_, _, _, _) => LinkHolds(s, tid, t)
    case Login(_, _, _) => LoginHolds(s, t)
  }

  ghost predicate TxnsHold(s: Sys) { forall tid :: tid in s.open ==> TxnHolds(s, tid, s.open[tid]) }

  /** Old salts lie before the clock, and so before every salt to come. */
  ghost predicate SaltsOld(s: Sys) { forall u :: u in s.users ==> s.users[u].password.salt < s.clock }

  ghost predicate SessionsHold(s: Sys) { forall key :: key in s.sessions ==> NotNewer(s, s.sessions[key]) }

  predicate ChangeHolds(s: Sys, c: Change) {
    && c.user in s.users && c.before.salt < c.after.salt <= s.users[c.user].password.salt
    && (c.cause.ByReset? ==> c.cause.token.user == c.user && c.cause.token.password == c.before)
  }

  /** Each change of an account's password starts from where an earlier one ended, or later. */
  ghost predicate LogHolds(s: Sys) {
    && (forall i :: 0 <= i < |s.log| ==> ChangeHolds(s, s.log[i]))
    && (forall i, j :: 0 <= i < j < |s.log| && s.log[i].user == s.log[j].user ==> s.log[i].after.salt <= s.log[j].before.salt)
  }

  ghost predicate RowsHold(s: Sys) {
    LinksSound(s.users, s.identities) && SaltsOld(s) && SessionsHold(s) && LogHolds(s) && LocksOwned(s)
  }

  ghost predicate Consistent(s: Sys) { RowsHold(s) && TxnsHold(s) }

  // --- what one participant may change ---

  predicate MayTouch(locks: map<Lock, Tid>, l: Lock, who: Option<Tid>) { l in locks ==> who == Some(locks[l]) }

  /** Only rows whose lock is one's own, or nobody's; salts only grow. */
  ghost predicate Respects(s: Sys, after: Sys, who: Option<Tid>) {
    && s.clock <= after.clock
    && (forall u :: u in s.users ==>
          && u in after.users && s.users[u].password.salt <= after.users[u].password.salt
          && (s.users[u] != after.users[u] ==> MayTouch(s.locks, UserRow(u), who)))
    && (forall i :: i in s.identities ==> i in after.identities && after.identities[i] == s.identities[i])
    && (forall i :: i in after.identities && i !in s.identities ==>
          && MayTouch(s.locks, LinkRow(i), who) && MayTouch(s.locks, SubKey(after.identities[i].sub), who)
          && (after.identities[i].user in s.users ==>
                MayTouch(s.locks, UserRow(after.identities[i].user), who) && who.Some?))
    && (forall l :: l in s.locks && who != Some(s.locks[l]) ==> l in after.locks && after.locks[l] == s.locks[l])
  }

  lemma LinkedStays(identities: map<Id, Identity>, after: map<Id, Identity>, user: Id)
    requires forall i :: i in identities ==> i in after && after[i] == identities[i]
    ensures Linked(identities, user) ==> Linked(after, user)
  {
    if Linked(identities, user) {
      var i :| i in identities && identities[i].user == user;
      assert after[i].user == user;
    }
  }

  lemma ResetStays(s: Sys, after: Sys, who: Option<Tid>, tid: Tid, t: Txn)
    requires Respects(s, after, who) && who != Some(tid) && t.call.Reset? && ResetHolds(s, tid, t)
    ensures ResetHolds(after, tid, t)
  {
    LinkedStays(s.identities, after.identities, t.call.user);
    hide Linked;
    if !t.phase.Begun? { assert Mine(s.locks, UserRow(t.call.user), tid); }
  }

  lemma NotLinkedStays(s: Sys, after: Sys, who: Option<Tid>, tid: Tid, user: Id)
    requires Respects(s, after, who) && who != Some(tid) && Mine(s.locks, UserRow(user), tid) && user in s.users
    requires !Linked(s.identities, user)
    ensures !Linked(after.identities, user)
  {}

  lemma SubFreeStays(s: Sys, after: Sys, who: Option<Tid>, tid: Tid, sub: string)
    requires Respects(s, after, who) && who != Some(tid) && Mine(s.locks, SubKey(sub), tid) && !SubTaken(s.identities, sub)
    ensures !SubTaken(after.identities, sub)
  {}

  lemma LinkStays(s: Sys, after: Sys, who: Option<Tid>, tid: Tid, t: Txn)
    requires Respects(s, after, who) && who != Some(tid) && t.call.Link? && LinkHolds(s, tid, t)
    ensures LinkHolds(after, tid, t)
  {
    if !t.phase.Begun? && !t.phase.Unknown? {
      assert Mine(s.locks, UserRow(t.call.user), tid);
      if !t.phase.Held? { NotLinkedStays(s, after, who, tid, t.call.user); }
      if !t.phase.Held? && !t.phase.Checked? { SubFreeStays(s, after, who, tid, t.call.sub); }
    }
    hide Linked, SubTaken;
  }

  lemma LoginStays(s: Sys, after: Sys, who: Option<Tid>, t: Txn)
    requires Respects(s, after, who) && t.call.Login? && LoginHolds(s, t)
    ensures LoginHolds(after, t)
  {}

  lemma OthersStay(s: Sys, after: Sys, who: Option<Tid>, tid: Tid, t: Txn)
    requires Respects(s, after, who) && who != Some(tid) && TxnHolds(s, tid, t)
    ensures TxnHolds(after, tid, t)
  {
    hide Respects, ResetHolds, LinkHolds, LoginHolds;
    match t.call
    case Reset(_, _, _, _) => ResetStays(s, after, who, tid, t);
    case Link(_, _, _, _) => LinkStays(s, after, who, tid, t);
    case Login(_, _, _) => LoginStays(s, after, who, t);
  }

  // --- one step ---

  /** It is enough to look at the transaction that moved. */
  lemma KeepsIf(s: Sys, after: Sys, who: Option<Tid>)
    requires Consistent(s) && Respects(s, after, who) && RowsHold(after)
    requires forall tid :: tid in after.open && who != Some(tid) ==> tid in s.open && after.open[tid] == s.open[tid]
    requires who.Some? && who.value in after.open ==> TxnHolds(after, who.value, after.open[who.value])
    ensures Consistent(after)
  {
    hide Respects, TxnHolds, LinksSound, SaltsOld, SessionsHold, LogHolds, LocksOwned;
    forall tid | tid in after.open
      ensures TxnHolds(after, tid, after.open[tid])
    {
      if who != Some(tid) { OthersStay(s, after, who, tid, s.open[tid]); }
    }
  }

  /** Sessions, salts and log do not mind salts that grow. */
  lemma RowsStay(s: Sys, after: Sys, who: Option<Tid>)
    requires RowsHold(s) && Respects(s, after, who) && after.log == s.log
    requires forall key :: key in after.sessions ==> key in s.sessions && after.sessions[key] == s.sessions[key]
    ensures SessionsHold(after) && LogHolds(after)
  {
    hide LinksSound, SaltsOld, LocksOwned;
  }

  lemma CloseKeeps(s: Sys, tid: Tid)
    requires Consistent(s) && tid in s.open
    ensures Consistent(Close(s, tid))
  {
    hide LinksSound, TxnHolds, NotNewer, ChangeHolds;
    var after := Close(s, tid);
    assert Respects(s, after, Some(tid));
    RowsStay(s, after, Some(tid));
    hide Respects, SessionsHold, LogHolds;
    KeepsIf(s, after, Some(tid));
  }

  /** A transaction goes on and takes free locks; drawing a salt moves the clock. */
  lemma MoveKeeps(s: Sys, tid: Tid, t: Txn, taken: set<Lock>, clock: nat)
    requires Consistent(s) && tid in s.open && clock >= s.clock && forall l :: l in taken ==> Free(s.locks, l, tid)
    requires var after := To(s, tid, t, taken).(clock := clock); TxnHolds(after, tid, t)
    ensures Consistent(To(s, tid, t, taken).(clock := clock))
  {
    hide LinksSound, TxnHolds, NotNewer, ChangeHolds;
    var after := To(s, tid, t, taken).(clock := clock);
    assert Respects(s, after, Some(tid));
    RowsStay(s, after, Some(tid));
    hide Respects, SessionsHold, LogHolds;
    KeepsIf(s, after, Some(tid));
  }

  lemma OpenHolds(s: Sys, tid: Tid)
    requires Consistent(s) && tid in s.open
    ensures TxnHolds(s, tid, s.open[tid])
  {}

  lemma SaltIsOld(s: Sys, user: Id)
    requires Consistent(s) && user in s.users
    ensures s.users[user].password.salt < s.clock
  {}

  lemma ResetReads(s: Sys, tid: Tid)
    requires Consistent(s) && tid in s.open && s.open[tid].call.Reset? && Enabled(s, Advance(tid))
    requires s.open[tid].phase.Begun? || s.open[tid].phase.Held?
    ensures Consistent(AfterReset(s, tid))
  {
    var t := s.open[tid];
    var user := t.call.user;
    OpenHolds(s, tid);
    CloseKeeps(s, tid);
    hide Consistent, Close, Linked;
    if AfterReset(s, tid) != Close(s, tid) {
      if t.phase.Begun? { MoveKeeps(s, tid, Txn(t.call, Held, Some(s.users[user])), {UserRow(user)}, s.clock); }
      else { MoveKeeps(s, tid, t.(phase := Checked), {}, s.clock); }
    }
  }

  lemma ResetWrites(s: Sys, tid: Tid)
    requires Consistent(s) && tid in s.open && s.open[tid].call.Reset?
    requires s.open[tid].phase.Checked? || s.open[tid].phase.Drawn?
    ensures Consistent(AfterReset(s, tid))
  {
    var t := s.open[tid];
    var user := t.call.user;
    OpenHolds(s, tid);
    SaltIsOld(s, user);
    hide Consistent, Close, MayReset, Minted, KeysOf;
    if t.phase.Checked? { MoveKeeps(s, tid, t.(phase := Drawn(Hash(t.call.password, s.clock))), {}, s.clock + 1); }
    else { MoveKeeps(s, tid, t.(phase := Scanned(t.phase.stored, KeysOf(s.sessions, user))), {}, s.clock); }
  }

  lemma ResetStepKeeps(s: Sys, tid: Tid)
    requires Consistent(s) && tid in s.open && s.open[tid].call.Reset? && Enabled(s, Advance(tid))
    ensures Consistent(AfterReset(s, tid))
  {
    var t := s.open[tid];
    OpenHolds(s, tid);
    hide Consistent, Enabled, Close, Committed, MayReset, Minted;
    match t.phase
    case Scanned(stored, stale) => ResetCommits(s, tid, stored, stale);
    case Checked => ResetWrites(s, tid);
    case Drawn(_) => ResetWrites(s, tid);
    case Begun => ResetReads(s, tid);
    case Held => ResetReads(s, tid);
    case _ => assert false;
  }

  /** The rows after a commit, whatever caused it. */
  lemma CommitKeepsRows(s: Sys, user: Id, stored: Password, stale: set<Id>, cause: Cause)
    requires SaltsOld(s) && SessionsHold(s) && LogHolds(s) && Newer(s, user, stored)
    requires cause.ByReset? ==> cause.token.user == user && cause.token.password == s.users[user].password
    ensures var after := Committed(s, user, stored, stale, cause); SaltsOld(after) && SessionsHold(after) && LogHolds(after)
  {
    var after := Committed(s, user, stored, stale, cause);
    var last := Change(user, s.users[user].password, stored, cause);
    assert after.users.Keys == s.users.Keys;
    forall i | 0 <= i < |after.log|
      ensures ChangeHolds(after, after.log[i])
    {
      if i < |s.log| { assert ChangeHolds(s, s.log[i]); } else { assert after.log[i] == last; }
    }
    forall i, j | 0 <= i < j < |after.log| && after.log[i].user == after.log[j].user
      ensures after.log[i].after.salt <= after.log[j].before.salt
    {
      assert ChangeHolds(s, s.log[i]);
      if j == |s.log| { assert after.log[j] == last; }
    }
  }

  lemma ResetCommits(s: Sys, tid: Tid, stored: Password, stale: set<Id>)
    requires Consistent(s) && tid in s.open && s.open[tid].call.Reset? && s.open[tid].phase == Scanned(stored, stale)
    requires s.open[tid].call.token.Some? && s.open[tid].call.user in s.users
    ensures Consistent(Close(Committed(s, s.open[tid].call.user, stored, stale, ByReset(s.open[tid].call.token.value)), tid))
  {
    var t := s.open[tid];
    var user, cause := t.call.user, ByReset(t.call.token.value);
    var after := Committed(s, user, stored, stale, cause);
    assert TxnHolds(s, tid, t);
    CommitKeepsRows(s, user, stored, stale, cause);
    MoreUsers(s.users, s.identities, user, after.users[user]);
    hide LinksSound, SessionsHold, LogHolds, Linked;
    assert Respects(s, Close(after, tid), Some(tid));
    ClosedRows(after, tid);
    hide Respects, TxnHolds, SaltsOld, LocksOwned;
    KeepsIf(s, Close(after, tid), Some(tid));
  }

  lemma ClosedRows(s: Sys, tid: Tid)
    requires RowsHold(s)
    ensures RowsHold(Close(s, tid))
  {
    hide LinksSound;
    assert forall l :: l in Close(s, tid).locks ==> l in s.locks;
  }

  // --- links ---

  lemma LinkReads(s: Sys, tid: Tid)
    requires Consistent(s) && tid in s.open && s.open[tid].call.Link? && Enabled(s, Advance(tid))
    requires s.open[tid].phase.Begun? || s.open[tid].phase.Unknown? || s.open[tid].phase.Held?
    ensures Consistent(AfterLink(s, tid))
  {
    var t := s.open[tid];
    OpenHolds(s, tid);
    CloseKeeps(s, tid);
    hide Consistent, Close, Linked, SubTaken, Canonical;
    if AfterLink(s, tid) != Close(s, tid) {
      match t.phase
      case Begun => MoveKeeps(s, tid, t.(phase := Unknown), {}, s.clock);
      case Unknown => MoveKeeps(s, tid, Txn(t.call, Held, Some(s.users[t.call.user])), {UserRow(t.call.user)}, s.clock);
      case Held => MoveKeeps(s, tid, t.(phase := Checked), {}, s.clock);
    }
  }

  lemma LinkInserts(s: Sys, tid: Tid)
    requires Consistent(s) && tid in s.open && s.open[tid].call.Link? && Enabled(s, Advance(tid))
    requires s.open[tid].phase.Checked?
    ensures Consistent(AfterLink(s, tid))
  {
    var t := s.open[tid];
    OpenHolds(s, tid);
    CloseKeeps(s, tid);
    hide Consistent, Close, Linked, SubTaken, Canonical;
    if AfterLink(s, tid) != Close(s, tid) {
      MoveKeeps(s, tid, t.(phase := Inserted), {SubKey(t.call.sub), LinkRow(t.call.pk)}, s.clock);
    }
  }

  lemma LinkWrites(s: Sys, tid: Tid)
    requires Consistent(s) && tid in s.open && s.open[tid].call.Link?
    requires s.open[tid].phase.Inserted? || s.open[tid].phase.Drawn?
    ensures Consistent(AfterLink(s, tid))
  {
    var t := s.open[tid];
    OpenHolds(s, tid);
    SaltIsOld(s, t.call.user);
    hide Consistent, Close, Linked, SubTaken, Canonical, KeysOf;
    if t.phase.Inserted? { MoveKeeps(s, tid, t.(phase := Drawn(Unusable(s.clock))), {}, s.clock + 1); }
    else { MoveKeeps(s, tid, t.(phase := Scanned(t.phase.stored, KeysOf(s.sessions, t.call.user))), {}, s.clock); }
  }

  lemma LinkedRows(s: Sys, tid: Tid, stored: Password, stale: set<Id>)
    requires Consistent(s) && tid in s.open && s.open[tid].call.Link? && s.open[tid].phase == Scanned(stored, stale)
    ensures s.open[tid].call.user in s.users
    ensures RowsHold(WithLink(s, s.open[tid].call, stored, stale))
  {
    var call := s.open[tid].call;
    OpenHolds(s, tid);
    var rows, after := Committed(s, call.user, stored, stale, ByLink(call.sub)), WithLink(s, call, stored, stale);
    CommitKeepsRows(s, call.user, stored, stale, ByLink(call.sub));
    LinkAdded(s.users, s.identities, call.pk, Identity(call.user, call.sub, Canonical(call.email)));
    MoreUsers(s.users, after.identities, call.user, after.users[call.user]);
    hide LinksSound, TxnHolds, Linked, SubTaken, Canonical;
    assert SessionsHold(after) && LogHolds(after) && SaltsOld(after) && LocksOwned(after);
  }

  function WithLink(s: Sys, call: Call, stored: Password, stale: set<Id>): Sys
    requires call.Link? && call.user in s.users
  {
    Committed(s, call.user, stored, stale, ByLink(call.sub))
    .(identities := s.identities[call.pk := Identity(call.user, call.sub, Canonical(call.email))])
  }

  lemma LinkRespects(s: Sys, tid: Tid, t: Txn, stored: Password, stale: set<Id>)
    requires t.call.Link? && LinkHolds(s, tid, t) && t.phase == Scanned(stored, stale)
    ensures Respects(s, Close(WithLink(s, t.call, stored, stale), tid), Some(tid))
  {
    hide Linked, SubTaken, Canonical;
    var after := Close(WithLink(s, t.call, stored, stale), tid);
    assert after.users == s.users[t.call.user := s.users[t.call.user].(password := stored)];
    assert after.identities == s.identities[t.call.pk := Identity(t.call.user, t.call.sub, Canonical(t.call.email))];
  }

  lemma LinkCommits(s: Sys, tid: Tid, stored: Password, stale: set<Id>)
    requires Consistent(s) && tid in s.open && s.open[tid].call.Link? && s.open[tid].phase == Scanned(stored, stale)
    ensures Consistent(AfterLink(s, tid))
  {
    OpenHolds(s, tid);
    LinkRespects(s, tid, s.open[tid], stored, stale);
    LinkedRows(s, tid, stored, stale);
    var after := WithLink(s, s.open[tid].call, stored, stale);
    ClosedRows(after, tid);
    assert AfterLink(s, tid) == Close(after, tid);
    assert after.open == s.open && tid !in Close(after, tid).open;
    hide RowsHold, Respects, TxnHolds, Consistent, WithLink, AfterLink;
    KeepsIf(s, Close(after, tid), Some(tid));
  }

  lemma LinkStepKeeps(s: Sys, tid: Tid)
    requires Consistent(s) && tid in s.open && s.open[tid].call.Link? && Enabled(s, Advance(tid))
    ensures Consistent(AfterLink(s, tid))
  {
    var t := s.open[tid];
    OpenHolds(s, tid);
    hide Consistent, Enabled, Close, AfterLink;
    match t.phase
    case Scanned(stored, stale) => LinkCommits(s, tid, stored, stale);
    case Inserted => LinkWrites(s, tid);
    case Drawn(_) => LinkWrites(s, tid);
    case Checked => LinkInserts(s, tid);
    case Begun => LinkReads(s, tid);
    case Unknown => LinkReads(s, tid);
    case Held => LinkReads(s, tid);
    case _ => assert false;
  }

  // --- logins, and everything that is one statement ---

  /** One account's row changes, and its salt does not go back. */
  lemma RowRespects(s: Sys, after: Sys, who: Option<Tid>, user: Id)
    requires user in s.users && user in after.users && after.users == s.users[user := after.users[user]]
    requires s.users[user].password.salt <= after.users[user].password.salt && MayTouch(s.locks, UserRow(user), who)
    requires s.clock <= after.clock && after.identities == s.identities && after.locks == s.locks
    ensures Respects(s, after, who)
  {}

  lemma LoginStamps(s: Sys, tid: Tid)
    requires Consistent(s) && tid in s.open && s.open[tid].call.Login? && Enabled(s, Advance(tid)) && s.open[tid].phase.Known?
    ensures Consistent(AfterLogin(s, tid))
  {
    var t := s.open[tid];
    var user, after := t.call.user, AfterLogin(s, tid);
    OpenHolds(s, tid);
    assert UserRow(user) in Needs(t) && Take(s.locks, {}, tid) == s.locks;
    MoreUsers(s.users, s.identities, user, after.users[user]);
    hide LinksSound, ChangeHolds, SubTaken, Linked;
    RowRespects(s, after, Some(tid), user);
    RowsStay(s, after, Some(tid));
    assert SaltsOld(after) && LocksOwned(after);
    assert TxnHolds(after, tid, after.open[tid]);
    hide Respects, SessionsHold, LogHolds, TxnHolds, SaltsOld, LocksOwned;
    KeepsIf(s, after, Some(tid));
  }

  lemma LoginEnters(s: Sys, tid: Tid)
    requires Consistent(s) && tid in s.open && s.open[tid].call.Login? && s.open[tid].phase.Stamped?
    ensures Consistent(AfterLogin(s, tid))
  {
    var t := s.open[tid];
    OpenHolds(s, tid);
    CloseKeeps(s, tid);
    if t.read.Some? && t.call.session !in s.sessions {
      var closed, after := Close(s, tid), AfterLogin(s, tid);
      assert NotNewer(s, Session(t.call.user, t.read.value.password));
      hide LinksSound, TxnHolds, NotNewer, ChangeHolds;
      assert after == closed.(sessions := after.sessions);
      SessionsAside(closed, after.sessions);
    }
  }

  lemma SessionsAside(s: Sys, sessions: map<Id, Session>)
    requires Consistent(s) && forall key :: key in sessions ==> NotNewer(s, sessions[key])
    ensures Consistent(s.(sessions := sessions))
  {
    hide LinksSound;
    var after := s.(sessions := sessions);
    assert LogHolds(after) && SessionsHold(after);
    assert Respects(s, after, None);
    hide Respects, SessionsHold, LogHolds, TxnHolds;
    KeepsIf(s, after, None);
  }

  lemma LoginStepKeeps(s: Sys, tid: Tid)
    requires Consistent(s) && tid in s.open && s.open[tid].call.Login? && Enabled(s, Advance(tid))
    ensures Consistent(AfterLogin(s, tid))
  {
    var t := s.open[tid];
    CloseKeeps(s, tid);
    if t.phase.Known? {
      hide Consistent, Enabled, Close, AfterLogin;
      LoginStamps(s, tid);
    } else if t.phase.Stamped? {
      hide Consistent, Enabled, Close, AfterLogin;
      LoginEnters(s, tid);
    } else if t.phase.Begun? && t.call.user in s.users && MayEnter(s.users[t.call.user], t.call.typed) {
      hide Consistent, Close, MayEnter;
      MoveKeeps(s, tid, Txn(t.call, Known, Some(s.users[t.call.user])), {}, s.clock);
    } else {
      hide Consistent, Close, MayEnter;
    }
  }

  lemma NewLinksSound(s: Sys, step: Step)
    requires Consistent(s) && Enabled(s, step) && (step.SignUp? || step.FirstVisit?)
    ensures LinksSound(After(s, step).users, After(s, step).identities)
  {
    MoreUsers(s.users, s.identities, step.user, step.account);
    NobodyLinkedYet(s.users, s.identities, step.user);
    hide SaltsOld, SessionsHold, LogHolds, LocksOwned, TxnsHold, Linked, SubTaken;
    if step.FirstVisit? {
      LinkAdded(s.users[step.user := step.account], s.identities, step.pk, Identity(step.user, step.sub, step.account.email));
    }
  }

  lemma AccountRespects(s: Sys, step: Step)
    requires Enabled(s, step) && (step.SignUp? || step.FirstVisit?)
    ensures Respects(s, After(s, step), None)
  {}

  lemma AccountAdded(s: Sys, step: Step)
    requires Consistent(s) && Enabled(s, step) && (step.SignUp? || step.FirstVisit?)
    ensures Consistent(After(s, step))
  {
    var after := After(s, step);
    NewLinksSound(s, step);
    AccountRespects(s, step);
    RowsStay(s, after, None);
    hide LinksSound, ChangeHolds, SubTaken, TxnHolds, Respects, SessionsHold, LogHolds;
    KeepsIf(s, after, None);
  }

  lemma OpenKeeps(s: Sys, tid: Tid, call: Call)
    requires Consistent(s) && tid !in s.open
    ensures Consistent(After(s, Open(tid, call)))
  {
    var after := After(s, Open(tid, call));
    hide LinksSound;
    assert Respects(s, after, Some(tid));
    RowsStay(s, after, Some(tid));
    hide Respects, SessionsHold, LogHolds;
    KeepsIf(s, after, Some(tid));
  }

  lemma StepKeeps(s: Sys, step: Step)
    requires Consistent(s) && Enabled(s, step)
    ensures Consistent(After(s, step))
  {
    match step
    case Logout(session) =>
      hide LinksSound, TxnHolds;
      SessionsAside(s, s.sessions - {session});
    case Open(tid, call) => hide Consistent; OpenKeeps(s, tid, call);
    case Abort(tid) => hide Consistent, Close; CloseKeeps(s, tid);
    case Advance(tid) =>
      hide Consistent, AfterReset, AfterLink, AfterLogin;
      match s.open[tid].call {
        case Reset(_, _, _, _) => ResetStepKeeps(s, tid);
        case Link(_, _, _, _) => LinkStepKeeps(s, tid);
        case Login(_, _, _) => LoginStepKeeps(s, tid);
      }
    case _ => hide Consistent; AccountAdded(s, step);
  }

  // --- whole runs ---

  /** Sound rows, nothing in flight, and nothing logged yet. */
  ghost predicate Start(s: Sys) {
    && LinksSound(s.users, s.identities) && SaltsOld(s) && SessionsHold(s)
    && s.open == map[] && s.locks == map[] && s.log == []
  }

  ghost predicate Moves(s: Sys, after: Sys) { exists step :: Enabled(s, step) && after == After(s, step) }

  ghost predicate Run(run: seq<Sys>) {
    && |run| > 0 && Start(run[0])
    && forall i :: 0 <= i < |run| - 1 ==> Moves(run[i], run[i + 1])
  }

  lemma {:induction false} RunIsConsistent(run: seq<Sys>, i: nat)
    requires Run(run) && i < |run|
    ensures Consistent(run[i])
  {
    if i == 0 {
      hide LinksSound;
    } else {
      hide Consistent;
      RunIsConsistent(run, i - 1);
      assert Moves(run[i - 1], run[i - 1 + 1]);
      var step :| Enabled(run[i - 1], step) && run[i] == After(run[i - 1], step);
      StepKeeps(run[i - 1], step);
    }
  }

  /** The log only grows, salts only grow, and a change logged later starts from no older password. */
  ghost predicate Evolves(s: Sys, after: Sys) {
    && s.log <= after.log
    && (forall u :: u in s.users ==> u in after.users && s.users[u].password.salt <= after.users[u].password.salt)
    && (forall i :: |s.log| <= i < |after.log| && after.log[i].user in s.users ==>
          s.users[after.log[i].user].password.salt <= after.log[i].before.salt)
  }

  /** Only users and log matter. */
  lemma CommitEvolves(s: Sys, user: Id, stored: Password, stale: set<Id>, cause: Cause, after: Sys)
    requires Newer(s, user, stored)
    requires after.users == Committed(s, user, stored, stale, cause).users
    requires after.log == Committed(s, user, stored, stale, cause).log
    ensures Evolves(s, after)
  {}

  lemma ResetEvolves(s: Sys, tid: Tid)
    requires Consistent(s) && tid in s.open && s.open[tid].call.Reset?
    ensures Evolves(s, AfterReset(s, tid))
  {
    var t, after := s.open[tid], AfterReset(s, tid);
    OpenHolds(s, tid);
    hide Consistent, Take, MayReset, Minted, KeysOf, HeldRead, Committed;
    if t.phase.Scanned? { CommitEvolves(s, t.call.user, t.phase.stored, t.phase.stale, ByReset(t.call.token.value), after); }
    else { assert after.users == s.users && after.log == s.log; }
  }

  lemma LinkEvolves(s: Sys, tid: Tid)
    requires Consistent(s) && tid in s.open && s.open[tid].call.Link?
    ensures Evolves(s, AfterLink(s, tid))
  {
    var t, after := s.open[tid], AfterLink(s, tid);
    OpenHolds(s, tid);
    hide Consistent, Take, Linked, SubTaken, Canonical, KeysOf, HeldRead, Mine, Committed;
    if t.phase.Scanned? { CommitEvolves(s, t.call.user, t.phase.stored, t.phase.stale, ByLink(t.call.sub), after); }
    else { assert after.users == s.users && after.log == s.log; }
  }

  lemma LoginEvolves(s: Sys, tid: Tid)
    requires tid in s.open && s.open[tid].call.Login?
    ensures Evolves(s, AfterLogin(s, tid))
  {
    hide Take, MayEnter;
  }

  lemma StepEvolves(s: Sys, step: Step)
    requires Consistent(s) && Enabled(s, step)
    ensures Evolves(s, After(s, step))
  {
    hide Consistent, AfterReset, AfterLink, AfterLogin;
    if step.Advance? {
      hide Evolves;
      match s.open[step.tid].call
      case Reset(_, _, _, _) => ResetEvolves(s, step.tid);
      case Link(_, _, _, _) => LinkEvolves(s, step.tid);
      case Login(_, _, _) => LoginEvolves(s, step.tid);
    }
  }

  lemma EvolvesThrough(a: Sys, b: Sys, c: Sys)
    requires Evolves(a, b) && Evolves(b, c)
    ensures Evolves(a, c)
  {
    forall i | |a.log| <= i < |c.log| && c.log[i].user in a.users
      ensures a.users[c.log[i].user].password.salt <= c.log[i].before.salt
    {
      if i < |b.log| { assert c.log[i] == b.log[i]; }
    }
  }

  lemma {:induction false} RunEvolves(run: seq<Sys>, i: nat, m: nat)
    requires Run(run) && i <= m < |run|
    ensures Evolves(run[i], run[m])
    decreases m - i
  {
    hide Consistent;
    if i < m {
      hide Evolves, Enabled, After;
      RunEvolves(run, i, m - 1);
      RunIsConsistent(run, m - 1);
      assert Moves(run[m - 1], run[m - 1 + 1]);
      var step :| Enabled(run[m - 1], step) && run[m] == After(run[m - 1], step);
      StepEvolves(run[m - 1], step);
      EvolvesThrough(run[i], run[m - 1], run[m]);
    }
  }

  lemma LogIsSound(run: seq<Sys>, m: nat)
    requires Run(run) && m < |run|
    ensures LogHolds(run[m])
  {
    RunIsConsistent(run, m);
    hide Run, LogHolds;
  }

  /** However resets overlap, no token is accepted twice. */
  lemma TokenIsSpentOnce(run: seq<Sys>, m: nat, j: int, k: int)
    requires Run(run) && m < |run| && 0 <= j < k < |run[m].log|
    requires run[m].log[j].cause.ByReset? && run[m].log[k].cause.ByReset?
    ensures run[m].log[j].cause.token != run[m].log[k].cause.token
  {
    LogIsSound(run, m);
    hide Run;
    assert ChangeHolds(run[m], run[m].log[j]) && ChangeHolds(run[m], run[m].log[k]);
  }

  /**
   A token is good for the next change of its account's password and for no other: once any reset or
   any link has committed since it was minted, it is not accepted, however the transactions overlapped.
   */
  lemma OnlyTheNextChangeCanUseIt(run: seq<Sys>, i: nat, m: nat, u: Id, k: int)
    requires Run(run) && i <= m < |run| && u in run[i].users && 0 <= k < |run[m].log|
    requires run[m].log[k].cause == ByReset(Minted(u, run[i].users[u]))
    ensures |run[i].log| <= k && forall j :: |run[i].log| <= j < k ==> run[m].log[j].user != u
  {
    LogIsSound(run, i);
    LogIsSound(run, m);
    RunEvolves(run, i, m);
    hide Run;
    assert ChangeHolds(run[m], run[m].log[k]);
    forall j | |run[i].log| <= j < k
      ensures run[m].log[j].user != u
    {
      assert ChangeHolds(run[m], run[m].log[j]);
    }
  }

  predicate OpenedBy(s: Sys, session: Session) {
    || (exists key :: key in s.sessions && s.sessions[key] == session)
    || (exists tid :: tid in s.open && s.open[tid].call.Login? && (s.open[tid].phase.Known? || s.open[tid].phase.Stamped?)
                      && s.open[tid].read.Some? && session == Session(s.open[tid].call.user, s.open[tid].read.value.password))
  }

  /**
   A reset or a link logs everybody out: no session there was before it, and none that a login then
   in flight opens afterwards, is valid once it has committed.
   */
  lemma EarlierSessionsAreDead(run: seq<Sys>, i: nat, m: nat, session: Session, j: int)
    requires Run(run) && i <= m < |run| && OpenedBy(run[i], session)
    requires |run[i].log| <= j < |run[m].log| && run[m].log[j].user == session.user
    ensures !Valid(run[m], session)
  {
    RunIsConsistent(run, i);
    assert NotNewer(run[i], session) by { OpenedIsOld(run[i], session); }
    LogIsSound(run, m);
    RunEvolves(run, i, m);
    hide Run, Consistent, OpenedBy;
    assert ChangeHolds(run[m], run[m].log[j]);
  }

  lemma OpenedIsOld(s: Sys, session: Session)
    requires Consistent(s) && OpenedBy(s, session)
    ensures NotNewer(s, session)
  {
    hide LinksSound, SaltsOld, LogHolds, LocksOwned;
    if tid :| tid in s.open && s.open[tid].call.Login? && (s.open[tid].phase.Known? || s.open[tid].phase.Stamped?)
              && s.open[tid].read.Some? && session == Session(s.open[tid].call.user, s.open[tid].read.value.password) {
      assert TxnHolds(s, tid, s.open[tid]);
    }
  }

  /** Google subjects and accounts stay paired one to one. */
  lemma AlwaysPaired(run: seq<Sys>, m: nat, i: Id, j: Id)
    requires Run(run) && m < |run| && i in run[m].identities && j in run[m].identities && i != j
    ensures run[m].identities[i].sub != run[m].identities[j].sub && run[m].identities[i].user != run[m].identities[j].user
    ensures run[m].identities[i].user in run[m].users
  {
    RunIsConsistent(run, m);
    hide Run, TxnsHold, SaltsOld, SessionsHold, LogHolds, LocksOwned;
  }

  // --- a commit is what the request does alone ---

  /** The tables, with the clock at the salt that was drawn. */
  function AtSalt(s: Sys, salt: nat): Db { Db(s.users, s.identities, map[], salt) }

  lemma ResetIsServed(s: Sys, tid: Tid)
    requires Consistent(s) && tid in s.open && s.open[tid].call.Reset? && s.open[tid].phase.Scanned?
    ensures var call := s.open[tid].call;
            var served := ConfirmResetSpec(AtSalt(s, s.open[tid].phase.stored.salt), Some(call.user), call.token, call.password,
                                           call.strong);
            served.reply == Accepted && After(s, Advance(tid)).users == served.db.users
            && After(s, Advance(tid)).identities == served.db.identities
  {
    assert TxnHolds(s, tid, s.open[tid]);
    hide Consistent, Linked;
  }

  lemma LinkIsServed(s: Sys, tid: Tid)
    requires Consistent(s) && tid in s.open && s.open[tid].call.Link? && s.open[tid].phase.Scanned?
    ensures var call := s.open[tid].call;
            call.user in s.users &&
            var served := LinkSpec(AtSalt(s, s.open[tid].phase.stored.salt), call.user, call.pk, call.sub, Canonical(call.email));
            served.Resolved? && After(s, Advance(tid)).users == served.db.users
            && After(s, Advance(tid)).identities == served.db.identities
  {
    assert TxnHolds(s, tid, s.open[tid]);
    hide Consistent, Linked, SubTaken, Canonical;
  }
}
