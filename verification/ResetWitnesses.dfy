/** What resets, links and logins are for does happen: runs from every sound state. */
module ResetWitnesses {
  import opened Common
  import opened Accounts
  import opened AccountFacts
  import opened ResetSteps
  import opened ResetRuns

  // --- a mailed link works ---

  /** One reset under way, holding its account. */
  function During(s: Sys, t: Txn, clock: nat): Sys {
    s.(open := map[0 := t], locks := map[UserRow(t.call.user) := 0], clock := clock)
  }

  lemma ResetLooks(s: Sys, call: Call)
    requires Start(s) && call.Reset? && call.user in s.users && s.users[call.user].active && call.strong
    requires MayReset(s.identities, call.user, s.users[call.user])
    requires call.token == Some(Minted(call.user, s.users[call.user]))
    ensures var read := Some(s.users[call.user]);
            && Moves(s, s.(open := map[0 := Txn(call, Begun, None)]))
            && Moves(s.(open := map[0 := Txn(call, Begun, None)]), During(s, Txn(call, Held, read), s.clock))
            && Moves(During(s, Txn(call, Held, read), s.clock), During(s, Txn(call, Checked, read), s.clock))
  {
    hide Linked, MayReset, Minted, LinksSound, SaltsOld, SessionsHold;
    var read := Some(s.users[call.user]);
    var begun, held := s.(open := map[0 := Txn(call, Begun, None)]), During(s, Txn(call, Held, read), s.clock);
    assert Enabled(s, Open(0, call)) && After(s, Open(0, call)) == begun;
    assert Enabled(begun, Advance(0));
    assert After(begun, Advance(0)).open == held.open && After(begun, Advance(0)).locks == held.locks;
    assert Enabled(held, Advance(0)) && Take(held.locks, {}, 0) == held.locks;
    assert After(held, Advance(0)).open == During(s, Txn(call, Checked, read), s.clock).open;
  }

  lemma ResetDraws(s: Sys, call: Call, read: Option<Account>)
    requires call.Reset? && call.user in s.users
    ensures var stored := Hash(call.password, s.clock);
            Moves(During(s, Txn(call, Checked, read), s.clock), During(s, Txn(call, Drawn(stored), read), s.clock + 1))
  {
    var stored := Hash(call.password, s.clock);
    var checked := During(s, Txn(call, Checked, read), s.clock);
    assert Take(checked.locks, {}, 0) == checked.locks;
    assert Enabled(checked, Advance(0));
    assert After(checked, Advance(0)).open == During(s, Txn(call, Drawn(stored), read), s.clock + 1).open;
  }

  lemma ResetScans(s: Sys, call: Call, read: Option<Account>, stored: Password)
    requires call.Reset? && call.user in s.users
    ensures var stale := KeysOf(s.sessions, call.user);
            Moves(During(s, Txn(call, Drawn(stored), read), s.clock + 1),
                  During(s, Txn(call, Scanned(stored, stale), read), s.clock + 1))
  {
    hide KeysOf;
    var drawn := During(s, Txn(call, Drawn(stored), read), s.clock + 1);
    assert Take(drawn.locks, {}, 0) == drawn.locks;
    assert Enabled(drawn, Advance(0));
    assert After(drawn, Advance(0)).open ==
           During(s, Txn(call, Scanned(stored, KeysOf(s.sessions, call.user)), read), s.clock + 1).open;
  }

  lemma ResetEnds(s: Sys, call: Call, read: Option<Account>, stored: Password, stale: set<Id>)
    requires call.Reset? && call.user in s.users && call.token.Some? && s.locks == map[] && s.open == map[]
    ensures Moves(During(s, Txn(call, Scanned(stored, stale), read), s.clock + 1),
                  Committed(s, call.user, stored, stale, ByReset(call.token.value)).(clock := s.clock + 1))
  {
    var scanned := During(s, Txn(call, Scanned(stored, stale), read), s.clock + 1);
    assert Enabled(scanned, Advance(0));
    assert After(scanned, Advance(0)).open == map[] && After(scanned, Advance(0)).locks == map[];
  }

  lemma Then(run: seq<Sys>, after: Sys) returns (longer: seq<Sys>)
    requires Run(run) && Moves(run[|run| - 1], after)
    ensures Run(longer) && longer == run + [after]
  {
    hide Moves, Start;
    longer := run + [after];
  }

  /** From every sound state, the token mailed then is accepted, when its reset runs next. */
  lemma MintedTokenWorks(s: Sys, u: Id, password: string)
    requires Start(s) && u in s.users && s.users[u].active && MayReset(s.identities, u, s.users[u])
    ensures exists run: seq<Sys> ::
              Run(run) && run[0] == s
              && run[|run| - 1].log == [Change(u, s.users[u].password, Hash(password, s.clock), ByReset(Minted(u, s.users[u])))]
  {
    var call := Reset(u, Some(Minted(u, s.users[u])), password, true);
    var read, stored, stale := Some(s.users[u]), Hash(password, s.clock), KeysOf(s.sessions, u);
    ResetLooks(s, call);
    ResetDraws(s, call, read);
    ResetScans(s, call, read, stored);
    ResetEnds(s, call, read, stored, stale);
    var last := Committed(s, u, stored, stale, ByReset(Minted(u, s.users[u]))).(clock := s.clock + 1);
    assert last.log == [Change(u, s.users[u].password, stored, ByReset(Minted(u, s.users[u])))];
    assert Run([s]);
    hide Run, Start, Moves, During, Committed, KeysOf, Minted, MayReset;
    var run := Then([s], s.(open := map[0 := Txn(call, Begun, None)]));
    run := Then(run, During(s, Txn(call, Held, read), s.clock));
    run := Then(run, During(s, Txn(call, Checked, read), s.clock));
    run := Then(run, During(s, Txn(call, Drawn(stored), read), s.clock + 1));
    run := Then(run, During(s, Txn(call, Scanned(stored, stale), read), s.clock + 1));
    run := Then(run, last);
  }

  // --- and so do links and logins ---

  /** A link under way, with the locks it holds. */
  function Linking(s: Sys, t: Txn, locks: map<Lock, Tid>, clock: nat): Sys {
    s.(open := map[0 := t], locks := locks, clock := clock)
  }

  predicate MayLink(s: Sys, call: Call) {
    && call.Link? && call.user in s.users && s.users[call.user].active && s.users[call.user].email == Canonical(call.email)
    && !Linked(s.identities, call.user) && !SubTaken(s.identities, call.sub) && call.pk !in s.identities
    && |call.sub| <= SUB_LENGTH && |Canonical(call.email)| <= EMAIL_LENGTH
  }

  function AccountLock(call: Call): map<Lock, Tid> { map[UserRow(call.user) := 0] }

  function LinkLocks(call: Call): map<Lock, Tid>
    requires call.Link?
  {
    map[UserRow(call.user) := 0, SubKey(call.sub) := 0, LinkRow(call.pk) := 0]
  }

  lemma LinkLooks(s: Sys, call: Call)
    requires Start(s) && MayLink(s, call)
    ensures var begun := Txn(call, Begun, None);
            && Moves(s, Linking(s, begun, map[], s.clock))
            && Moves(Linking(s, begun, map[], s.clock), Linking(s, begun.(phase := Unknown), map[], s.clock))
  {
    hide LinksSound, SaltsOld, SessionsHold, Linked, SubTaken, Canonical;
    var begun := Linking(s, Txn(call, Begun, None), map[], s.clock);
    assert Enabled(s, Open(0, call)) && After(s, Open(0, call)) == begun;
    assert Enabled(begun, Advance(0)) && Take(map[], {}, 0) == map[];
    assert After(begun, Advance(0)).open == Linking(s, Txn(call, Unknown, None), map[], s.clock).open;
  }

  lemma LinkLocksAccount(s: Sys, call: Call)
    requires MayLink(s, call)
    ensures var read := Some(s.users[call.user]);
            && Moves(Linking(s, Txn(call, Unknown, None), map[], s.clock),
                     Linking(s, Txn(call, Held, read), AccountLock(call), s.clock))
            && Moves(Linking(s, Txn(call, Held, read), AccountLock(call), s.clock),
                     Linking(s, Txn(call, Checked, read), AccountLock(call), s.clock))
  {
    hide Linked, SubTaken, Canonical;
    var read, locks := Some(s.users[call.user]), AccountLock(call);
    var unknown, held := Linking(s, Txn(call, Unknown, None), map[], s.clock), Linking(s, Txn(call, Held, read), locks, s.clock);
    assert Enabled(unknown, Advance(0));
    assert After(unknown, Advance(0)).open == held.open && After(unknown, Advance(0)).locks == held.locks;
    assert Enabled(held, Advance(0)) && Take(locks, {}, 0) == locks;
    assert After(held, Advance(0)).open == Linking(s, Txn(call, Checked, read), locks, s.clock).open;
  }

  lemma LinkInsertsRow(s: Sys, call: Call, read: Option<Account>)
    requires MayLink(s, call)
    ensures Moves(Linking(s, Txn(call, Checked, read), AccountLock(call), s.clock),
                  Linking(s, Txn(call, Inserted, read), LinkLocks(call), s.clock))
  {
    hide Linked, SubTaken, Canonical;
    var checked := Linking(s, Txn(call, Checked, read), AccountLock(call), s.clock);
    var held := Linking(s, Txn(call, Inserted, read), LinkLocks(call), s.clock);
    assert Enabled(checked, Advance(0));
    assert After(checked, Advance(0)).open == held.open && After(checked, Advance(0)).locks == held.locks;
  }

  lemma LinkDraws(s: Sys, call: Call, read: Option<Account>)
    requires MayLink(s, call)
    ensures Moves(Linking(s, Txn(call, Inserted, read), LinkLocks(call), s.clock),
                  Linking(s, Txn(call, Drawn(Unusable(s.clock)), read), LinkLocks(call), s.clock + 1))
  {
    hide Linked, SubTaken, Canonical;
    var inserted := Linking(s, Txn(call, Inserted, read), LinkLocks(call), s.clock);
    var drawn := Linking(s, Txn(call, Drawn(Unusable(s.clock)), read), LinkLocks(call), s.clock + 1);
    assert Take(LinkLocks(call), {}, 0) == LinkLocks(call);
    assert Enabled(inserted, Advance(0)) && After(inserted, Advance(0)).open == drawn.open;
  }

  lemma LinkScans(s: Sys, call: Call, read: Option<Account>, stored: Password)
    requires MayLink(s, call)
    ensures Moves(Linking(s, Txn(call, Drawn(stored), read), LinkLocks(call), s.clock + 1),
                  Linking(s, Txn(call, Scanned(stored, KeysOf(s.sessions, call.user)), read), LinkLocks(call), s.clock + 1))
  {
    hide KeysOf, Linked, SubTaken, Canonical;
    var drawn := Linking(s, Txn(call, Drawn(stored), read), LinkLocks(call), s.clock + 1);
    var done := Txn(call, Scanned(stored, KeysOf(s.sessions, call.user)), read);
    assert Take(LinkLocks(call), {}, 0) == LinkLocks(call);
    assert Enabled(drawn, Advance(0)) && After(drawn, Advance(0)).open == map[0 := done];
  }

  lemma LinkEnds(s: Sys, call: Call, read: Option<Account>, stored: Password, stale: set<Id>)
    requires MayLink(s, call) && s.locks == map[] && s.open == map[]
    ensures Moves(Linking(s, Txn(call, Scanned(stored, stale), read), LinkLocks(call), s.clock + 1),
                  WithLink(s, call, stored, stale).(clock := s.clock + 1))
  {
    hide Linked, SubTaken, Canonical;
    var scanned := Linking(s, Txn(call, Scanned(stored, stale), read), LinkLocks(call), s.clock + 1);
    assert Enabled(scanned, Advance(0));
    assert After(scanned, Advance(0)).open == map[] && After(scanned, Advance(0)).locks == map[];
  }

  /** From every sound state, a subject nobody has is linked to an active account without a link, when that runs next. */
  lemma NewSubjectIsLinked(s: Sys, call: Call)
    requires Start(s) && MayLink(s, call)
    ensures exists run: seq<Sys> ::
              && Run(run) && run[0] == s
              && run[|run| - 1].log == [Change(call.user, s.users[call.user].password, Unusable(s.clock), ByLink(call.sub))]
              && run[|run| - 1].identities == s.identities[call.pk := Identity(call.user, call.sub, s.users[call.user].email)]
  {
    var read, stored, stale := Some(s.users[call.user]), Unusable(s.clock), KeysOf(s.sessions, call.user);
    var last := WithLink(s, call, stored, stale).(clock := s.clock + 1);
    LinkLooks(s, call);
    LinkLocksAccount(s, call);
    LinkInsertsRow(s, call, read);
    LinkDraws(s, call, read);
    LinkScans(s, call, read, stored);
    LinkEnds(s, call, read, stored, stale);
    assert Run([s]);
    assert last.log == [Change(call.user, s.users[call.user].password, stored, ByLink(call.sub))];
    assert last.identities == s.identities[call.pk := Identity(call.user, call.sub, s.users[call.user].email)];
    hide Run, Start, Moves, Linking, WithLink, KeysOf, MayLink, AccountLock, LinkLocks;
    var run := Then([s], Linking(s, Txn(call, Begun, None), map[], s.clock));
    run := Then(run, Linking(s, Txn(call, Unknown, None), map[], s.clock));
    run := Then(run, Linking(s, Txn(call, Held, read), AccountLock(call), s.clock));
    run := Then(run, Linking(s, Txn(call, Checked, read), AccountLock(call), s.clock));
    run := Then(run, Linking(s, Txn(call, Inserted, read), LinkLocks(call), s.clock));
    run := Then(run, Linking(s, Txn(call, Drawn(stored), read), LinkLocks(call), s.clock + 1));
    run := Then(run, Linking(s, Txn(call, Scanned(stored, stale), read), LinkLocks(call), s.clock + 1));
    run := Then(run, last);
  }

  function Entering(s: Sys, t: Txn): Sys { s.(open := map[0 := t]) }

  /** After the statement that writes `last_login`. */
  function Visited(s: Sys, user: Id): Sys
    requires user in s.users
  {
    s.(users := s.users[user := s.users[user].(lastLogin := Some(s.clock))], clock := s.clock + 1)
  }

  lemma LoginReads(s: Sys, call: Call)
    requires Start(s) && call.Login? && call.user in s.users && MayEnter(s.users[call.user], call.typed)
    ensures Moves(s, Entering(s, Txn(call, Begun, None)))
    ensures Moves(Entering(s, Txn(call, Begun, None)), Entering(s, Txn(call, Known, Some(s.users[call.user]))))
  {
    hide LinksSound, SaltsOld, SessionsHold, MayEnter;
    var begun, known := Entering(s, Txn(call, Begun, None)), Entering(s, Txn(call, Known, Some(s.users[call.user])));
    assert Take(map[], {}, 0) == map[];
    assert Enabled(s, Open(0, call)) && After(s, Open(0, call)) == begun;
    assert Enabled(begun, Advance(0)) && After(begun, Advance(0)).open == known.open;
  }

  lemma LoginWrites(s: Sys, call: Call)
    requires Start(s) && call.Login? && call.user in s.users && call.session !in s.sessions
    ensures var read, visited := Some(s.users[call.user]), Visited(s, call.user);
            && Moves(Entering(s, Txn(call, Known, read)), Entering(visited, Txn(call, Stamped, read)))
            && Moves(Entering(visited, Txn(call, Stamped, read)),
                     visited.(sessions := s.sessions[call.session := Session(call.user, read.value.password)]))
  {
    hide LinksSound, SaltsOld, SessionsHold, MayEnter;
    var read, visited := Some(s.users[call.user]), Visited(s, call.user);
    var known, stamped := Entering(s, Txn(call, Known, read)), Entering(visited, Txn(call, Stamped, read));
    assert Take(map[], {}, 0) == map[];
    assert Enabled(known, Advance(0)) && After(known, Advance(0)).open == stamped.open;
    assert Enabled(stamped, Advance(0)) && After(stamped, Advance(0)).open == map[];
    assert After(stamped, Advance(0)).locks == map[];
  }

  /** From every sound state, a login that may enter opens a session that is valid, when it runs next. */
  lemma LoginOpens(s: Sys, call: Call)
    requires Start(s) && call.Login? && call.user in s.users && MayEnter(s.users[call.user], call.typed)
    requires call.session !in s.sessions
    ensures exists run: seq<Sys> ::
              && Run(run) && run[0] == s && call.session in run[|run| - 1].sessions
              && run[|run| - 1].sessions[call.session].user == call.user
              && Valid(run[|run| - 1], run[|run| - 1].sessions[call.session])
  {
    var read, visited := Some(s.users[call.user]), Visited(s, call.user);
    var last := visited.(sessions := s.sessions[call.session := Session(call.user, read.value.password)]);
    LoginReads(s, call);
    LoginWrites(s, call);
    assert Run([s]) && Valid(last, last.sessions[call.session]);
    hide Run, Start, Moves, MayEnter, Valid, Entering, Visited;
    var run := Then([s], Entering(s, Txn(call, Begun, None)));
    run := Then(run, Entering(s, Txn(call, Known, read)));
    run := Then(run, Entering(visited, Txn(call, Stamped, read)));
    run := Then(run, last);
  }
}
