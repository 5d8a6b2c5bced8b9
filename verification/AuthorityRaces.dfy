/**
 What no schedule of role requests, approvals and saves can break: some administrator is always
 left, a worn role is always a held one, and an approval happens once.
 */
module AuthorityRaces {
  import opened Text
  import opened Common
  import opened StaleWrites
  import opened Authority
  import opened AuthorityFacts
  import opened AuthoritySteps
  import RowHistory

  // --- what holds of every reachable state ---

  ghost predicate Complete(users: Users) {
    forall u :: u in users ==> ActiveRole in users[u] && IsActive in users[u]
  }

  predicate FormHolds(users: Users, form: Application) { form.applicant in users && form.status != Withdrawn }

  ghost predicate FormsHold(users: Users, apps: Applications) {
    && (forall i :: i in apps ==> FormHolds(users, apps[i]))
    && (forall i, j :: i in apps && j in apps && i != j && NameReserved(apps[i].status) && NameReserved(apps[j].status) ==>
          apps[i].displayName != apps[j].displayName)
  }

  ghost predicate TablesHold(db: State) {
    && Complete(db.users)
    && RolesWellFormed(db.users, db.roles)
    && WornIsHeld(db.users, db.roles)
    && ActiveAdminRows(db.users, db.roles) != {}
    && FormsHold(db.users, db.apps)
    && ApprovalsTold(db.apps, db.notices)
  }

  predicate Mine(locks: map<Lock, Tid>, l: Lock, tid: Tid) { l in locks && locks[l] == tid }

  /** What a transaction read of a row it still holds is what is committed there. */
  predicate ReadHolds(db: State, locks: map<Lock, Tid>, tid: Tid, t: Txn) {
    match t.read
    case Nothing => t.phase.Begun? || t.call.CreateApplication?
    case Account(row) =>
      && !t.phase.Begun? && AccountOf(t.call).Some?
      && Mine(locks, UserRow(AccountOf(t.call).value), tid)
      && AccountOf(t.call).value in db.users && db.users[AccountOf(t.call).value] == row
    case Form(form) =>
      && !t.phase.Begun? && t.call.ReviewApplication?
      && Mine(locks, AppRow(t.call.app), tid)
      && t.call.app in db.apps && db.apps[t.call.app] == form
  }

  /** Held ADMIN rows of active accounts: nobody else can delete them. */
  ghost predicate CountedHeld(db: State, locks: map<Lock, Tid>, tid: Tid, counted: set<Id>) {
    forall pk :: pk in counted ==> Mine(locks, RoleRow(pk), tid) && pk in ActiveAdminRows(db.users, db.roles)
  }

  ghost predicate DeletionHeld(db: State, locks: map<Lock, Tid>, tid: Tid, rows: set<Id>, user: Id, role: Role) {
    && rows != {} && rows == RowsOf(db.roles, user, role)
    && Mine(locks, RoleKey(user, role), tid)
    && forall pk :: pk in rows ==> Mine(locks, RoleRow(pk), tid)
  }

  predicate InsertionHeld(db: State, locks: map<Lock, Tid>, tid: Tid, pk: Id, user: Id, role: Role) {
    && pk !in db.roles && !Holds(db.roles, user, role)
    && Mine(locks, RoleKey(user, role), tid) && Mine(locks, RoleRow(pk), tid)
  }

  /** The rows a revocation of ADMIN has locked so far. */
  function LockedRows(phase: Phase): set<Id> {
    match phase
    case Counting(_, counted) => counted
    case Joining(rest, counted) => if rest == [] then counted else counted + {rest[0]}
    case Allowed(counted) => counted
    case Deleted(_, counted) => counted
    case _ => {}
  }

  ghost predicate RevokeHolds(db: State, locks: map<Lock, Tid>, tid: Tid, t: Txn)
    requires t.call.RevokeRole?
  {
    && (!t.phase.Begun? ==> t.call.role != User)
    && (t.call.role == Admin ==>
          && CountedHeld(db, locks, tid, LockedRows(t.phase))
          && (!t.phase.Begun? && !t.phase.Locked? ==> t.call.target != t.call.actor)
          && (t.phase.Allowed? || t.phase.Deleted? ==>
                |LockedRows(t.phase)| > 1 && Includes(db.roles, LockedRows(t.phase), t.call.target)))
    && (t.phase.Deleted? ==> DeletionHeld(db, locks, tid, t.phase.rows, t.call.target, t.call.role))
  }

  ghost predicate GrantHolds(db: State, locks: map<Lock, Tid>, tid: Tid, t: Txn)
    requires t.call.GrantRole?
  {
    && (!t.phase.Begun? ==> t.call.role != User)
    && (t.phase.Inserted? ==> InsertionHeld(db, locks, tid, t.call.newPk, t.call.target, t.call.role))
  }

  /** The role chosen in a switch stays held: only its account's holder could take it away. */
  predicate SwitchHolds(db: State, t: Txn)
    requires t.call.SetActiveRole?
  {
    && (!t.phase.Begun? ==> t.call.worn != Admin)
    && (t.phase.Written? && t.call.worn != User ==> Holds(db.roles, t.call.user, t.call.worn))
  }

  ghost predicate ReviewHolds(db: State, locks: map<Lock, Tid>, tid: Tid, t: Txn)
    requires t.call.ReviewApplication?
  {
    && (!t.phase.Begun? ==> t.read.Form?)
    && (!t.phase.Begun? && !t.phase.Locked? ==>
          && AppEdge(t.read.form.status, t.call.verdict) && !(t.call.verdict == Rejected && Blank(t.call.reason))
          && (t.call.verdict == Approved <==> !t.phase.Written?))
    && (t.phase.Inserted? ==> InsertionHeld(db, locks, tid, t.call.newPk, t.read.form.applicant, Advisor))
  }

  ghost predicate TxnHolds(db: State, locks: map<Lock, Tid>, tid: Tid, t: Txn) {
    && ReadHolds(db, locks, tid, t)
    && (t.call.GrantRole? ==> GrantHolds(db, locks, tid, t))
    && (t.call.RevokeRole? ==> RevokeHolds(db, locks, tid, t))
    && (t.call.SetActiveRole? ==> SwitchHolds(db, t))
    && (t.call.ReviewApplication? ==> ReviewHolds(db, locks, tid, t))
  }

  ghost predicate TxnsHold(db: State, locks: map<Lock, Tid>, open: map<Tid, Txn>) {
    forall tid :: tid in open ==> TxnHolds(db, locks, tid, open[tid])
  }

  /** A copy that never assigned the column remembers what it read of it. */
  predicate CleanIn(copy: Copy, k: Column) { RowHistory.At(copy.attrs, k) == RowHistory.At(copy.baseline, k) }

  predicate Clean(copy: Copy) { !copy.adding && CleanIn(copy, ActiveRole) && CleanIn(copy, IsActive) }

  ghost predicate CopiesClean(copies: map<CopyId, Held>) {
    forall c :: c in copies ==> Clean(copies[c].copy)
  }

  ghost predicate LocksOwned(locks: map<Lock, Tid>, open: map<Tid, Txn>) {
    forall l :: l in locks ==> locks[l] in open
  }

  ghost predicate Consistent(s: Sys) {
    TablesHold(s.db) && LocksOwned(s.locks, s.open) && TxnsHold(s.db, s.locks, s.open) && CopiesClean(s.copies)
  }

  // --- what a participant may change under its own locks ---

  /** `who` is the transaction, or nobody for a save outside one. */
  predicate MayTouch(locks: map<Lock, Tid>, l: Lock, who: Option<Tid>) { l in locks ==> who == Some(locks[l]) }

  ghost predicate UsersRespect(before: Users, after: Users, locks: map<Lock, Tid>, who: Option<Tid>) {
    && before.Keys == after.Keys
    && forall u :: u in before ==>
         Active(before[u]) == Active(after[u]) && (before[u] != after[u] ==> MayTouch(locks, UserRow(u), who))
  }

  ghost predicate RolesRespect(before: Roles, after: Roles, locks: map<Lock, Tid>, who: Option<Tid>) {
    && (forall pk :: pk in before && pk in after ==> before[pk] == after[pk])
    && (forall pk :: pk in before && pk !in after ==>
          MayTouch(locks, RoleRow(pk), who) && MayTouch(locks, UserRow(before[pk].user), who))
    && (forall pk :: pk in after && pk !in before ==>
          MayTouch(locks, RoleRow(pk), who) && MayTouch(locks, RoleKey(after[pk].user, after[pk].role), who))
  }

  ghost predicate AppsRespect(before: Applications, after: Applications, locks: map<Lock, Tid>, who: Option<Tid>) {
    forall i :: i in before ==> i in after && (before[i] != after[i] ==> MayTouch(locks, AppRow(i), who))
  }

  ghost predicate Respects(before: State, after: State, locks: map<Lock, Tid>, who: Option<Tid>) {
    && UsersRespect(before.users, after.users, locks, who)
    && RolesRespect(before.roles, after.roles, locks, who)
    && AppsRespect(before.apps, after.apps, locks, who)
  }

  // --- the others notice nothing ---

  lemma CountedStays(db: State, after: State, locks: map<Lock, Tid>, who: Option<Tid>, tid: Tid, counted: set<Id>)
    requires Respects(db, after, locks, who) && who != Some(tid) && CountedHeld(db, locks, tid, counted)
    ensures CountedHeld(after, locks, tid, counted)
    ensures forall user :: Includes(db.roles, counted, user) ==> Includes(after.roles, counted, user)
  {
    forall pk | pk in counted
      ensures pk in ActiveAdminRows(after.users, after.roles)
    {
      assert Mine(locks, RoleRow(pk), tid);
      assert pk in after.roles;
    }
  }

  lemma DeletionStays(db: State, after: State, locks: map<Lock, Tid>, who: Option<Tid>, tid: Tid, rows: set<Id>, user: Id,
                      role: Role)
    requires Respects(db, after, locks, who) && who != Some(tid) && DeletionHeld(db, locks, tid, rows, user, role)
    ensures DeletionHeld(after, locks, tid, rows, user, role)
  {}

  lemma HeldRoleStays(db: State, after: State, locks: map<Lock, Tid>, who: Option<Tid>, tid: Tid, user: Id, role: Role)
    requires RolesRespect(db.roles, after.roles, locks, who) && who != Some(tid) && Mine(locks, UserRow(user), tid)
    requires Holds(db.roles, user, role)
    ensures Holds(after.roles, user, role)
  {
    var pk :| pk in db.roles && db.roles[pk] == Holding(user, role);
    assert pk in after.roles;
  }

  lemma InsertionStays(db: State, after: State, locks: map<Lock, Tid>, who: Option<Tid>, tid: Tid, pk: Id, user: Id, role: Role)
    requires RolesRespect(db.roles, after.roles, locks, who) && who != Some(tid)
    requires InsertionHeld(db, locks, tid, pk, user, role)
    ensures InsertionHeld(after, locks, tid, pk, user, role)
  {}

  lemma TxnStays(db: State, after: State, locks: map<Lock, Tid>, who: Option<Tid>, tid: Tid, t: Txn)
    requires Respects(db, after, locks, who) && who != Some(tid) && TxnHolds(db, locks, tid, t)
    ensures TxnHolds(after, locks, tid, t)
  {
    hide InsertionHeld, DeletionHeld, CountedHeld, Holds, Includes;
    match t.call
    case GrantRole(target, role, _, _, newPk) =>
      if t.phase.Inserted? { InsertionStays(db, after, locks, who, tid, newPk, target, role); }
    case RevokeRole(target, role, _, _) =>
      if t.phase.Deleted? { DeletionStays(db, after, locks, who, tid, t.phase.rows, target, role); }
      if role == Admin { CountedStays(db, after, locks, who, tid, LockedRows(t.phase)); }
    case SetActiveRole(user, worn) =>
      if t.phase.Written? && worn != User { HeldRoleStays(db, after, locks, who, tid, user, worn); }
    case ReviewApplication(_, _, _, _, newPk, _) =>
      if t.phase.Inserted? { InsertionStays(db, after, locks, who, tid, newPk, t.read.form.applicant, Advisor); }
    case _ =>
  }

  /** A transaction does not care who holds the locks it does not hold. */
  lemma TxnKeepsLocks(db: State, locks: map<Lock, Tid>, after: map<Lock, Tid>, tid: Tid, t: Txn)
    requires TxnHolds(db, locks, tid, t)
    requires forall l :: Mine(locks, l, tid) ==> Mine(after, l, tid)
    ensures TxnHolds(db, after, tid, t)
  {
    hide Holds, ActiveAdminRows;
  }

  lemma TakenStaysMine(locks: map<Lock, Tid>, taken: set<Lock>, tid: Tid, l: Lock, uid: Tid)
    requires forall k :: k in taken ==> Free(locks, k, tid)
    requires Mine(locks, l, uid)
    ensures Mine(Take(locks, taken, tid), l, uid)
  {}

  lemma ReleasedOthers(locks: map<Lock, Tid>, open: map<Tid, Txn>, tid: Tid)
    requires LocksOwned(locks, open)
    ensures LocksOwned(Release(locks, tid), open - {tid})
    ensures forall l, uid :: uid != tid && Mine(locks, l, uid) ==> Mine(Release(locks, tid), l, uid)
  {}

  /** Closing one transaction, with or without its changes, leaves the others as they were. */
  lemma OthersStay(s: Sys, after: State, tid: Tid)
    requires TxnsHold(s.db, s.locks, s.open) && LocksOwned(s.locks, s.open) && Respects(s.db, after, s.locks, Some(tid))
    ensures TxnsHold(after, Release(s.locks, tid), s.open - {tid})
    ensures LocksOwned(Release(s.locks, tid), s.open - {tid})
  {
    hide Respects, TxnHolds, LocksOwned, Mine, Release;
    ReleasedOthers(s.locks, s.open, tid);
    forall uid | uid in s.open - {tid}
      ensures TxnHolds(after, Release(s.locks, tid), uid, s.open[uid])
    {
      TxnStays(s.db, after, s.locks, Some(tid), uid, s.open[uid]);
      TxnKeepsLocks(after, s.locks, Release(s.locks, tid), uid, s.open[uid]);
    }
  }

  // --- a statement of one transaction ---

  function LocksAfter(s: Sys, tid: Tid, u: Txn): map<Lock, Tid>
    requires tid in s.open
  {
    if u.phase.Again? then s.locks else Take(s.locks, Needs(s.db, s.open[tid]), tid)
  }

  lemma GrantGoes(s: Sys, tid: Tid, u: Txn)
    requires tid in s.open && s.open[tid].call.GrantRole? && TxnHolds(s.db, s.locks, tid, s.open[tid])
    requires NextGrant(s.db, s.open[tid]) == Go(u)
    ensures TxnHolds(s.db, LocksAfter(s, tid, u), tid, u)
  {
    hide Holds, ActiveAdminRows, RowsOf;
  }

  lemma DeletionGoes(s: Sys, tid: Tid, rows: set<Id>)
    requires tid in s.open && s.open[tid].call.RevokeRole? && s.open[tid].phase.Allowed?
    requires rows == RowsOf(s.db.roles, s.open[tid].call.target, s.open[tid].call.role) != {}
    ensures DeletionHeld(s.db, Take(s.locks, Needs(s.db, s.open[tid]), tid), tid, rows, s.open[tid].call.target,
                         s.open[tid].call.role)
  {
    forall pk | pk in rows
      ensures RoleRow(pk) in Needs(s.db, s.open[tid])
    {}
  }

  lemma CountedTakes(db: State, locks: map<Lock, Tid>, taken: set<Lock>, tid: Tid, counted: set<Id>, more: set<Id>)
    requires CountedHeld(db, locks, tid, counted) && forall l :: l in taken ==> Free(locks, l, tid)
    requires forall pk :: pk in more ==> RoleRow(pk) in taken && pk in ActiveAdminRows(db.users, db.roles)
    ensures CountedHeld(db, Take(locks, taken, tid), tid, counted + more)
  {
    hide ActiveAdminRows;
  }

  lemma CountingAddsOne(db: State, t: Txn, order: seq<Id>, u: Txn) returns (more: set<Id>)
    requires t.call.RevokeRole? && t.call.role == Admin && NextRevoke(db, t, order) == Go(u)
    ensures LockedRows(u.phase) == LockedRows(t.phase) + more
    ensures forall pk :: pk in more ==> RoleRow(pk) in Needs(db, t) && pk in ActiveAdminRows(db.users, db.roles)
    ensures u.phase.Allowed? ==> |LockedRows(u.phase)| > 1 && Includes(db.roles, LockedRows(u.phase), t.call.target)
  {
    hide ActiveAdminRows, RowsOf, Includes;
    if t.phase.Counting? && u.phase.Joining? {
      more := {t.phase.rest[0]};
    } else {
      hide Needs;
      more := {};
      assert LockedRows(u.phase) == LockedRows(t.phase);
    }
  }

  lemma CountGoes(s: Sys, tid: Tid, order: seq<Id>, u: Txn)
    requires tid in s.open && s.open[tid].call.RevokeRole? && s.open[tid].call.role == Admin
    requires RevokeHolds(s.db, s.locks, tid, s.open[tid])
    requires NextRevoke(s.db, s.open[tid], order) == Go(u)
    requires forall l :: l in Needs(s.db, s.open[tid]) ==> Free(s.locks, l, tid)
    ensures CountedHeld(s.db, LocksAfter(s, tid, u), tid, LockedRows(u.phase))
    ensures u.phase.Allowed? || u.phase.Deleted? ==>
              |LockedRows(u.phase)| > 1 && Includes(s.db.roles, LockedRows(u.phase), s.open[tid].call.target)
  {
    assert u.phase.Deleted? ==> s.open[tid].phase.Allowed? && LockedRows(u.phase) == LockedRows(s.open[tid].phase);
    assert !u.phase.Again?;
    var more := CountingAddsOne(s.db, s.open[tid], order, u);
    hide NextRevoke, LockedRows, ActiveAdminRows, RowsOf, CountedHeld, DeletionHeld, Needs, Take, Free, Includes;
    CountedTakes(s.db, s.locks, Needs(s.db, s.open[tid]), tid, LockedRows(s.open[tid].phase), more);
  }

  lemma RevokeGoes(s: Sys, tid: Tid, order: seq<Id>, u: Txn)
    requires tid in s.open && s.open[tid].call.RevokeRole? && TxnHolds(s.db, s.locks, tid, s.open[tid])
    requires NextRevoke(s.db, s.open[tid], order) == Go(u)
    requires forall l :: l in Needs(s.db, s.open[tid]) ==> Free(s.locks, l, tid)
    ensures TxnHolds(s.db, LocksAfter(s, tid, u), tid, u)
  {
    hide ActiveAdminRows, RowsOf, DeletionHeld, CountedHeld, LockedRows, Includes;
    if s.open[tid].phase.Allowed? { DeletionGoes(s, tid, u.phase.rows); }
    if s.open[tid].call.role == Admin { CountGoes(s, tid, order, u); }
    if !s.open[tid].phase.Begun? { hide Needs; }
  }

  lemma SwitchGoes(s: Sys, tid: Tid, u: Txn)
    requires tid in s.open && s.open[tid].call.SetActiveRole? && TxnHolds(s.db, s.locks, tid, s.open[tid])
    requires NextSwitch(s.db, s.open[tid]) == Go(u)
    ensures TxnHolds(s.db, LocksAfter(s, tid, u), tid, u)
  {
    hide Holds, ActiveAdminRows, RowsOf;
  }

  lemma ReviewGoes(s: Sys, tid: Tid, u: Txn)
    requires tid in s.open && s.open[tid].call.ReviewApplication? && TxnHolds(s.db, s.locks, tid, s.open[tid])
    requires NextReview(s.db, s.open[tid]) == Go(u)
    ensures TxnHolds(s.db, LocksAfter(s, tid, u), tid, u)
  {
    hide Holds, ActiveAdminRows, RowsOf;
  }

  lemma GoHolds(s: Sys, tid: Tid, order: seq<Id>, u: Txn)
    requires Enabled(s, Advance(tid, order)) && Next(s.db, s.open[tid], order) == Go(u)
    requires TxnHolds(s.db, s.locks, tid, s.open[tid])
    ensures TxnHolds(s.db, LocksAfter(s, tid, u), tid, u)
  {
    hide NextGrant, NextRevoke, NextSwitch, NextReview;
    match s.open[tid].call
    case GrantRole(_, _, _, _, _) => GrantGoes(s, tid, u);
    case RevokeRole(_, _, _, _) => RevokeGoes(s, tid, order, u);
    case SetActiveRole(_, _) => SwitchGoes(s, tid, u);
    case UpdateProfile(_, _) =>
    case CreateApplication(_, _, _, _) =>
    case ReviewApplication(_, _, _, _, _, _) => ReviewGoes(s, tid, u);
  }

  /** The others keep their locks, and with them what they know. */
  lemma OthersGoOn(s: Sys, tid: Tid, u: Txn)
    requires TxnsHold(s.db, s.locks, s.open) && tid in s.open
    requires forall l :: l in Needs(s.db, s.open[tid]) ==> Free(s.locks, l, tid)
    ensures forall uid :: uid in s.open && uid != tid ==> TxnHolds(s.db, LocksAfter(s, tid, u), uid, s.open[uid])
  {
    var locks := LocksAfter(s, tid, u);
    forall uid | uid in s.open && uid != tid
      ensures TxnHolds(s.db, locks, uid, s.open[uid])
    {
      forall l | Mine(s.locks, l, uid)
        ensures Mine(locks, l, uid)
      {
        if !u.phase.Again? { TakenStaysMine(s.locks, Needs(s.db, s.open[tid]), tid, l, uid); }
      }
      hide TxnHolds, Needs, Take;
      TxnKeepsLocks(s.db, s.locks, locks, uid, s.open[uid]);
    }
  }

  lemma GoKeeps(s: Sys, tid: Tid, order: seq<Id>, u: Txn)
    requires Consistent(s) && Enabled(s, Advance(tid, order)) && Next(s.db, s.open[tid], order) == Go(u)
    ensures Consistent(After(s, Advance(tid, order)))
  {
    hide TxnHolds, TablesHold, CopiesClean, Next, Needs;
    GoHolds(s, tid, order, u);
    OthersGoOn(s, tid, u);
    var locks := LocksAfter(s, tid, u);
    assert forall l :: l in locks ==> locks[l] == tid || (l in s.locks && locks[l] == s.locks[l]);
    hide Take;
  }

  // --- a commit ---

  lemma GrantCommits(db: State, locks: map<Lock, Tid>, tid: Tid, t: Txn)
    requires t.call.GrantRole? && t.phase.Inserted? && TxnHolds(db, locks, tid, t) && TablesHold(db)
    ensures TablesHold(Committed(db, t)) && Respects(db, Committed(db, t), locks, Some(tid))
  {
    hide RolesWellFormed, WornIsHeld, FormsHold, ApprovalsTold, ActiveAdminRows, Holds;
    Granted(db.users, db.roles, t.call.newPk, t.call.target, t.call.role);
  }

  /** Of the rows a revocation of ADMIN counted, one that it does not delete. */
  lemma Survivor(db: State, locks: map<Lock, Tid>, tid: Tid, t: Txn) returns (pk: Id)
    requires t.call.RevokeRole? && t.call.role == Admin && t.phase.Deleted?
    requires TxnHolds(db, locks, tid, t) && RolesWellFormed(db.users, db.roles)
    ensures pk in t.phase.counted - t.phase.rows && Mine(locks, RoleRow(pk), tid) && pk in ActiveAdminRows(db.users, db.roles)
  {
    var counted := t.phase.counted;
    var a :| a in counted;
    assert |counted - {a}| == |counted| - 1;
    var b :| b in counted - {a};
    assert a in ActiveAdminRows(db.users, db.roles) && b in ActiveAdminRows(db.users, db.roles);
    assert db.roles[a] != db.roles[b];
    pk := if db.roles[a].user == t.call.target then b else a;
    assert pk !in RowsOf(db.roles, t.call.target, Admin);
  }

  function RowAfterRevoke(db: State, t: Txn): Row
    requires t.call.RevokeRole? && t.call.target in db.users
  {
    if t.call.role == Advisor && WearsAdvisor(db.users[t.call.target]) then Demoted(db.users[t.call.target])
    else db.users[t.call.target]
  }

  lemma RevokeLeavesAdmins(db: State, locks: map<Lock, Tid>, tid: Tid, t: Txn)
    requires t.call.RevokeRole? && t.phase.Deleted? && TxnHolds(db, locks, tid, t) && TablesHold(db)
    ensures ActiveAdminRows(Committed(db, t).users, Committed(db, t).roles) != {}
  {
    var after := Committed(db, t);
    if t.call.role == Admin {
      var pk := Survivor(db, locks, tid, t);
      hide TxnHolds, TablesHold;
      assert pk in ActiveAdminRows(after.users, after.roles);
    } else {
      var row := RowAfterRevoke(db, t);
      assert after.users == db.users[t.call.target := row];
      assert Active(db.users[t.call.target]) ==> Active(row);
      OtherRevokeLeavesAdmins(db.users, db.roles, t.call.target, row);
    }
  }

  lemma RevokeRespects(db: State, locks: map<Lock, Tid>, tid: Tid, t: Txn)
    requires t.call.RevokeRole? && t.phase.Deleted? && TxnHolds(db, locks, tid, t)
    ensures Respects(db, Committed(db, t), locks, Some(tid))
  {
    hide CountedHeld, Holds;
  }

  lemma RevokeIsReady(db: State, locks: map<Lock, Tid>, tid: Tid, t: Txn)
    requires t.call.RevokeRole? && t.phase.Deleted? && TxnHolds(db, locks, tid, t) && Complete(db.users)
    requires WornIsHeld(db.users, db.roles)
    ensures t.call.target in db.users
    ensures var row := RowAfterRevoke(db, t);
            && Committed(db, t).users == db.users[t.call.target := row]
            && Committed(db, t).roles == db.roles - RowsOf(db.roles, t.call.target, t.call.role)
            && Committed(db, t).apps == db.apps && Committed(db, t).notices == db.notices
            && ActiveRole in row && IsActive in row
            && (t.call.role == Advisor ==> row[ActiveRole] == Str("USER"))
            && (t.call.role != Advisor ==> row == db.users[t.call.target])
  {
    assert ActsAs(db.users[t.call.target], db.roles, t.call.target);
    hide CountedHeld, Holds, RowsOf;
  }

  lemma RevokeCommits(db: State, locks: map<Lock, Tid>, tid: Tid, t: Txn)
    requires t.call.RevokeRole? && t.phase.Deleted? && TxnHolds(db, locks, tid, t) && TablesHold(db)
    ensures TablesHold(Committed(db, t)) && Respects(db, Committed(db, t), locks, Some(tid))
  {
    RevokeIsReady(db, locks, tid, t);
    RevokeRespects(db, locks, tid, t);
    RevokeLeavesAdmins(db, locks, tid, t);
    var row := RowAfterRevoke(db, t);
    hide Respects, TxnHolds, FormsHold, RolesWellFormed, WornIsHeld, ApprovalsTold, ActiveAdminRows, Holds;
    hide Committed, RowAfterRevoke, WearsAdvisor;
    RevokedRows(db.users, db.roles, t.call.target, t.call.role);
    RevokedWorn(db.users, db.roles, t.call.target, t.call.role, row);
    SameAccounts(db.users, Committed(db, t).roles, db.apps, t.call.target, row);
  }

  lemma SameAccounts(users: Users, roles: Roles, apps: Applications, user: Id, row: Row)
    requires user in users && RolesWellFormed(users, roles) && FormsHold(users, apps)
    ensures RolesWellFormed(users[user := row], roles) && FormsHold(users[user := row], apps)
  {}

  /** A row of `users` changed under its lock, in columns that keep its activity and wear no role that is not held. */
  lemma RowRespects(db: State, locks: map<Lock, Tid>, who: Option<Tid>, user: Id, row: Row)
    requires user in db.users && MayTouch(locks, UserRow(user), who) && Active(row) == Active(db.users[user])
    ensures Respects(db, db.(users := db.users[user := row]), locks, who)
  {
    hide Active;
  }

  lemma RowCommits(db: State, locks: map<Lock, Tid>, who: Option<Tid>, user: Id, row: Row)
    requires TablesHold(db) && user in db.users && MayTouch(locks, UserRow(user), who)
    requires Active(row) == Active(db.users[user]) && IsActive in row
    requires ActsAs(row, db.roles, user)
    ensures TablesHold(db.(users := db.users[user := row]))
    ensures Respects(db, db.(users := db.users[user := row]), locks, who)
  {
    RowRespects(db, locks, who, user, row);
    assert ActiveRole in row;
    hide RolesWellFormed, FormsHold, WornIsHeld, ApprovalsTold, ActiveAdminRows, Holds, Active, ActsAs, Respects, MayTouch;
    HeldWorn(db.users, db.roles, user, row);
    SameActivity(db.users, db.roles, user, row);
    SameAccounts(db.users, db.roles, db.apps, user, row);
  }

  lemma ApplicationCommits(db: State, locks: map<Lock, Tid>, tid: Tid, t: Txn)
    requires t.call.CreateApplication? && NextApplication(db, t) == Commit && TablesHold(db)
    ensures TablesHold(Committed(db, t)) && Respects(db, Committed(db, t), locks, Some(tid))
  {
    hide WornIsHeld, RolesWellFormed, ActiveAdminRows, Holds;
    forall i | i in db.apps
      ensures NameReserved(db.apps[i].status) ==> db.apps[i].displayName != t.call.name
    {}
  }

  lemma VerdictForms(db: State, app: Id, actor: Id, verdict: AppStatus, reason: string, now: nat)
    requires app in db.apps && AppEdge(db.apps[app].status, verdict) && FormsHold(db.users, db.apps)
    ensures FormsHold(db.users, db.apps[app := Reviewed(db.apps[app], actor, verdict, reason, now)])
  {}

  lemma ReviewRespects(db: State, locks: map<Lock, Tid>, tid: Tid, t: Txn)
    requires t.call.ReviewApplication? && t.read.Form? && TxnHolds(db, locks, tid, t)
    ensures Respects(db, Committed(db, t), locks, Some(tid))
  {
    hide Holds, Reviewed;
  }

  lemma ReviewIsReady(db: State, locks: map<Lock, Tid>, tid: Tid, t: Txn)
    requires t.call.ReviewApplication? && NextReview(db, t) == Commit
    requires TxnHolds(db, locks, tid, t) && FormsHold(db.users, db.apps)
    ensures t.read.Form? && t.call.app in db.apps && db.apps[t.call.app] == t.read.form
    ensures AppEdge(t.read.form.status, t.call.verdict) && t.read.form.applicant in db.users
    ensures t.phase.Inserted? ==>
              t.call.verdict == Approved && t.call.newPk !in db.roles && !Holds(db.roles, t.read.form.applicant, Advisor)
  {
    assert FormHolds(db.users, db.apps[t.call.app]);
    hide Holds;
  }

  lemma ReviewCommits(db: State, locks: map<Lock, Tid>, tid: Tid, t: Txn)
    requires t.call.ReviewApplication? && NextReview(db, t) == Commit
    requires TxnHolds(db, locks, tid, t) && TablesHold(db)
    ensures TablesHold(Committed(db, t)) && Respects(db, Committed(db, t), locks, Some(tid))
  {
    hide Respects, WornIsHeld, RolesWellFormed, FormsHold, ApprovalsTold, ActiveAdminRows, Holds, Complete, Reviewed, AppEdge;
    hide TxnHolds, NextReview;
    ReviewIsReady(db, locks, tid, t);
    ReviewRespects(db, locks, tid, t);
    VerdictForms(db, t.call.app, t.call.actor, t.call.verdict, t.call.reason, t.call.now);
    VerdictIsTold(db.apps, db.notices, t.call.app, t.call.actor, t.call.verdict, t.call.reason, t.call.now);
    if t.phase.Inserted? { Granted(db.users, db.roles, t.call.newPk, t.read.form.applicant, Advisor); }
  }

  lemma SwitchCommits(db: State, locks: map<Lock, Tid>, tid: Tid, t: Txn)
    requires t.call.SetActiveRole? && t.phase.Written? && TxnHolds(db, locks, tid, t) && TablesHold(db)
    ensures TablesHold(Committed(db, t)) && Respects(db, Committed(db, t), locks, Some(tid))
  {
    var row := db.users[t.call.user][ActiveRole := Str(RoleName(t.call.worn))];
    assert Active(row) == Active(db.users[t.call.user]) && IsActive in row && ActsAs(row, db.roles, t.call.user);
    hide TablesHold, Holds, Respects, Active, ActsAs;
    RowCommits(db, locks, Some(tid), t.call.user, row);
  }

  lemma ProfileCommits(db: State, locks: map<Lock, Tid>, tid: Tid, t: Txn)
    requires t.call.UpdateProfile? && t.phase.Locked? && TxnHolds(db, locks, tid, t) && TablesHold(db)
    ensures TablesHold(Committed(db, t)) && Respects(db, Committed(db, t), locks, Some(tid))
  {
    var before := db.users[t.call.user];
    var row := before + t.call.data;
    assert ActiveRole !in t.call.data && IsActive !in t.call.data;
    assert Active(row) == Active(before) && IsActive in row && ActsAs(before, db.roles, t.call.user);
    assert ActsAs(row, db.roles, t.call.user);
    hide TablesHold, Holds, Respects, Active, ActsAs;
    RowCommits(db, locks, Some(tid), t.call.user, row);
  }

  lemma CommitHolds(db: State, locks: map<Lock, Tid>, tid: Tid, t: Txn, order: seq<Id>)
    requires Next(db, t, order) == Commit && TxnHolds(db, locks, tid, t) && TablesHold(db)
    ensures TablesHold(Committed(db, t)) && Respects(db, Committed(db, t), locks, Some(tid))
  {
    hide TxnHolds, TablesHold, Respects, Committed;
    match t.call
    case GrantRole(_, _, _, _, _) => GrantCommits(db, locks, tid, t);
    case RevokeRole(_, _, _, _) => RevokeCommits(db, locks, tid, t);
    case SetActiveRole(_, _) => SwitchCommits(db, locks, tid, t);
    case UpdateProfile(_, _) => ProfileCommits(db, locks, tid, t);
    case CreateApplication(_, _, _, _) => ApplicationCommits(db, locks, tid, t);
    case ReviewApplication(_, _, _, _, _, _) => ReviewCommits(db, locks, tid, t);
  }

  lemma CommitKeeps(s: Sys, tid: Tid, order: seq<Id>)
    requires Consistent(s) && Enabled(s, Advance(tid, order)) && Next(s.db, s.open[tid], order) == Commit
    ensures Consistent(After(s, Advance(tid, order)))
  {
    hide TablesHold, Respects, Committed, LocksOwned, CopiesClean, Release, Next, TxnHolds;
    CommitHolds(s.db, s.locks, tid, s.open[tid], order);
    OthersStay(s, Committed(s.db, s.open[tid]), tid);
  }

  lemma SameRespects(db: State, locks: map<Lock, Tid>, who: Option<Tid>)
    ensures Respects(db, db, locks, who)
  {}

  lemma CloseKeeps(s: Sys, tid: Tid)
    requires Consistent(s) && tid in s.open
    ensures Consistent(Close(s, tid))
  {
    hide TablesHold, Respects, LocksOwned, CopiesClean, Release, TxnsHold;
    SameRespects(s.db, s.locks, Some(tid));
    OthersStay(s, s.db, tid);
  }

  // --- copies ---

  /** Whatever a clean copy saves, it leaves the two columns as they are. */
  lemma SaveLeavesAuthority(copy: Copy, row: Row, fields: Option<set<Column>>, k: Column)
    requires k in AUTHORITY && k in row && !copy.adding && CleanIn(copy, k) && (fields.Some? ==> k !in fields.value)
    ensures var saved, after := SavedRow(copy, row, false, fields), SavedCopy(copy, row, false, fields);
            k in saved && saved[k] == row[k] && !after.adding && CleanIn(after, k)
  {
    hide SavedRow, SavedCopy;
    assert Guarded(k);
    if fields.None? { RowHistory.SaveOneColumn(copy, row, false, k); }
    else { RowHistory.SaveNamedColumn(copy, row, fields.value, k); }
  }

  lemma SavedRowIsHarmless(copy: Copy, row: Row, fields: Option<set<Column>>)
    requires Clean(copy) && ActiveRole in row && IsActive in row && (fields.Some? ==> fields.value !! AUTHORITY)
    ensures var saved := SavedRow(copy, row, false, fields);
            && ActiveRole in saved && IsActive in saved
            && Active(saved) == Active(row) && saved[ActiveRole] == row[ActiveRole]
    ensures Clean(SavedCopy(copy, row, false, fields))
  {
    hide SavedRow, SavedCopy, CleanIn;
    SaveLeavesAuthority(copy, row, fields, ActiveRole);
    SaveLeavesAuthority(copy, row, fields, IsActive);
  }

  /** The step, without what it does to the row and the copy. */
  lemma SaveStep(s: Sys, c: CopyId, fields: Option<set<Column>>)
    requires Enabled(s, SaveCopy(c, fields)) && CopiesClean(s.copies)
    requires Clean(SavedCopy(s.copies[c].copy, s.db.users[s.copies[c].user], false, fields))
    ensures var held, after := s.copies[c], After(s, SaveCopy(c, fields));
            var saved := SavedRow(held.copy, s.db.users[held.user], false, fields);
            && after.db == s.db.(users := s.db.users[held.user := saved]) && after.open == s.open && after.locks == s.locks
            && CopiesClean(after.copies)
  {
    hide SavedRow, SavedCopy, Clean;
  }

  lemma SaveCopyKeeps(s: Sys, c: CopyId, fields: Option<set<Column>>)
    requires Consistent(s) && Enabled(s, SaveCopy(c, fields))
    ensures Consistent(After(s, SaveCopy(c, fields)))
  {
    var held := s.copies[c];
    var row := s.db.users[held.user];
    var saved := SavedRow(held.copy, row, false, fields);
    assert Clean(held.copy) && ActsAs(row, s.db.roles, held.user) && IsActive in row;
    hide SavedRow, SavedCopy, Clean, TxnsHold, LocksOwned, Active, Holds, Respects, TablesHold;
    SavedRowIsHarmless(held.copy, row, fields);
    assert ActsAs(saved, s.db.roles, held.user);
    SaveStep(s, c, fields);
    hide ActsAs, CopiesClean, After;
    RowCommits(s.db, s.locks, None, held.user, saved);
    SaveMissesOthers(s, s.db.(users := s.db.users[held.user := saved]));
  }

  lemma SaveMissesOthers(s: Sys, after: State)
    requires TxnsHold(s.db, s.locks, s.open) && Respects(s.db, after, s.locks, None)
    ensures TxnsHold(after, s.locks, s.open)
  {
    hide Respects, TxnHolds;
    forall uid | uid in s.open
      ensures TxnHolds(after, s.locks, uid, s.open[uid])
    {
      TxnStays(s.db, after, s.locks, None, uid, s.open[uid]);
    }
  }

  lemma OtherCopyStepKeeps(s: Sys, step: Step)
    requires Consistent(s) && Enabled(s, step) && (step.LoadCopy? || step.AssignCopy? || step.RefreshCopy?)
    ensures Consistent(After(s, step))
  {
    hide LocksOwned, TxnsHold, FromDb, Refreshed, RolesWellFormed, WornIsHeld, ApprovalsTold, FormsHold, ActiveAdminRows;
    assert forall k :: k in AUTHORITY ==> Guarded(k);
    match step
    case LoadCopy(_, user, columns) =>
      RowHistory.LoadOneColumn(s.db.users[user], columns, ActiveRole);
      RowHistory.LoadOneColumn(s.db.users[user], columns, IsActive);
    case AssignCopy(c, column, value) =>
      assert Clean(s.copies[c].copy);
    case RefreshCopy(c, fields) =>
      assert Clean(s.copies[c].copy);
      RowHistory.RefreshOneColumn(s.copies[c].copy, s.db.users[s.copies[c].user], fields, ActiveRole);
      RowHistory.RefreshOneColumn(s.copies[c].copy, s.db.users[s.copies[c].user], fields, IsActive);
  }

  lemma OpenKeeps(s: Sys, tid: Tid, call: Request)
    requires Consistent(s) && Enabled(s, Open(tid, call))
    ensures Consistent(After(s, Open(tid, call)))
  {
    hide TablesHold, CopiesClean;
  }

  lemma StepKeeps(s: Sys, step: Step)
    requires Consistent(s) && Enabled(s, step)
    ensures Consistent(After(s, step))
  {
    hide Consistent;
    match step
    case Open(tid, call) => OpenKeeps(s, tid, call);
    case Advance(tid, order) =>
      hide Consistent, Next, Close;
      match Next(s.db, s.open[tid], order) {
        case Go(u) => GoKeeps(s, tid, order, u);
        case Raise(_) => CloseKeeps(s, tid);
        case Commit => CommitKeeps(s, tid, order);
      }
    case Abort(tid) => CloseKeeps(s, tid);
    case SaveCopy(c, fields) => SaveCopyKeeps(s, c, fields);
    case _ => OtherCopyStepKeeps(s, step);
  }
}
