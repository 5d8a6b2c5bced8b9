/**
 The audit log read by its time stamps. A `RoleGrant` row is stamped when it is inserted and seen when
 its transaction commits, so the order of the stamps need not be the order of the commits.
 */
module AuditTimes {
  import opened Always
  import opened Common
  import opened StaleWrites
  import opened Authority
  import opened AuthorityFacts
  import opened AuthoritySteps
  import opened AuthorityRaces
  import opened AuthorityRuns

  /** The system, a clock, the stamps of the committed entries, and those of entries not yet committed. */
  datatype Clocked = Clocked(sys: Sys, clock: nat, stamps: seq<nat>, pending: map<Tid, nat>)

  /** Every check has passed and the role row is written: the audit row is next. */
  predicate Audits(t: Txn) {
    || (t.call.GrantRole? && t.phase.Inserted?)
    || (t.call.RevokeRole? && t.phase.Deleted?)
    || (t.call.ReviewApplication? && t.read.Form? && (t.phase.Inserted? || t.phase.Found?))
  }

  function EntryOf(t: Txn): Entry
    requires Audits(t)
  {
    match t.call
    case GrantRole(target, role, actor, reason, _) => Entry(target, role, Grant, actor, reason)
    case RevokeRole(target, role, actor, reason) => Entry(target, role, Revoke, actor, reason)
    case ReviewApplication(_, actor, _, _, _, _) => Entry(t.read.form.applicant, Advisor, Grant, actor, APPROVAL_REASON)
  }

  function KeyOf(e: Entry): Holding { Holding(e.user, e.role) }

  /** A transaction stamps its audit row, or a statement of the system runs. */
  datatype Tick = Stamp(tid: Tid) | Other(step: Step)

  predicate CommitsEntry(s: Sys, step: Step) { Commits(s, step) && Audits(s.open[step.tid]) }

  predicate CanTick(c: Clocked, tick: Tick) {
    match tick
    case Stamp(tid) => tid in c.sys.open && Audits(c.sys.open[tid]) && tid !in c.pending
    case Other(step) => Enabled(c.sys, step) && (CommitsEntry(c.sys, step) ==> step.tid in c.pending)
  }

  function Ticked(c: Clocked, tick: Tick): Clocked
    requires CanTick(c, tick)
  {
    match tick
    case Stamp(tid) => c.(pending := c.pending[tid := c.clock], clock := c.clock + 1)
    case Other(step) =>
      var after := After(c.sys, step);
      Clocked(after, c.clock, if CommitsEntry(c.sys, step) then c.stamps + [c.pending[step.tid]] else c.stamps,
              c.pending - (c.pending.Keys - after.open.Keys))
  }

  // --- what the stamps say ---

  predicate Says(audit: seq<Entry>, h: Holding, action: Action, i: int) {
    0 <= i < |audit| && KeyOf(audit[i]) == h && audit[i].action == action
  }

  /** A GRANT of `h` with this stamp is newer than every REVOKE of it. */
  ghost predicate AfterRevokes(audit: seq<Entry>, stamps: seq<nat>, h: Holding, stamp: nat)
    requires |stamps| == |audit|
  {
    forall j :: Says(audit, h, Revoke, j) ==> stamps[j] < stamp
  }

  /** Held, going by the stamps: granted after every revocation, or held at the bootstrap and never revoked. */
  ghost predicate SaysHeld(bootstrap: set<Holding>, audit: seq<Entry>, stamps: seq<nat>, h: Holding)
    requires |stamps| == |audit|
  {
    || (exists i :: Says(audit, h, Grant, i) && AfterRevokes(audit, stamps, h, stamps[i]))
    || (h in bootstrap && forall j :: !Says(audit, h, Revoke, j))
  }

  ghost predicate ExplainedByTime(bootstrap: set<Holding>, c: Clocked) {
    && |c.stamps| == |c.sys.db.audit|
    && forall h :: h in Stored(c.sys.db.roles) <==> SaysHeld(bootstrap, c.sys.db.audit, c.stamps, h)
  }

  // --- what holds at every tick ---

  /** An entry about to commit under the lock of its key is newer than every REVOKE of the key. */
  ghost predicate NewerThanRevokes(c: Clocked, tid: Tid)
    requires |c.stamps| == |c.sys.db.audit| && tid in c.pending && tid in c.sys.open && Audits(c.sys.open[tid])
  {
    !c.sys.open[tid].phase.Found? ==>
      AfterRevokes(c.sys.db.audit, c.stamps, KeyOf(EntryOf(c.sys.open[tid])), c.pending[tid])
  }

  ghost predicate StampsHold(c: Clocked) {
    && |c.stamps| == |c.sys.db.audit|
    && (forall i :: 0 <= i < |c.stamps| ==> c.stamps[i] < c.clock)
    && (forall tid :: tid in c.pending ==> tid in c.sys.open && Audits(c.sys.open[tid]) && c.pending[tid] < c.clock)
    && (forall tid :: tid in c.pending ==> NewerThanRevokes(c, tid))
  }

  ghost predicate Timed(c: Clocked) { Consistent(c.sys) && StampsHold(c) }

  // --- how a log grows ---

  lemma SaysOneMore(audit: seq<Entry>, e: Entry, h: Holding, action: Action, i: int)
    ensures Says(audit + [e], h, action, i) <==>
            Says(audit, h, action, i) || (i == |audit| && KeyOf(e) == h && e.action == action)
  {}

  lemma AfterOneMore(audit: seq<Entry>, stamps: seq<nat>, e: Entry, at: nat, h: Holding, stamp: nat)
    requires |stamps| == |audit|
    ensures AfterRevokes(audit + [e], stamps + [at], h, stamp) <==>
            AfterRevokes(audit, stamps, h, stamp) && (e.action == Revoke && KeyOf(e) == h ==> at < stamp)
  {
    if AfterRevokes(audit + [e], stamps + [at], h, stamp) {
      forall j | Says(audit, h, Revoke, j)
        ensures stamps[j] < stamp
      {
        assert Says(audit + [e], h, Revoke, j);
      }
      if e.action == Revoke && KeyOf(e) == h { assert Says(audit + [e], h, Revoke, |audit|); }
    }
  }

  lemma OtherKeysUnmoved(bootstrap: set<Holding>, audit: seq<Entry>, stamps: seq<nat>, e: Entry, at: nat, h: Holding)
    requires |stamps| == |audit| && KeyOf(e) != h
    ensures SaysHeld(bootstrap, audit + [e], stamps + [at], h) <==> SaysHeld(bootstrap, audit, stamps, h)
  {
    forall i
      ensures Says(audit + [e], h, Grant, i) <==> Says(audit, h, Grant, i)
      ensures Says(audit + [e], h, Revoke, i) <==> Says(audit, h, Revoke, i)
    {}
    forall i | Says(audit, h, Grant, i)
      ensures AfterRevokes(audit + [e], stamps + [at], h, (stamps + [at])[i]) <==> AfterRevokes(audit, stamps, h, stamps[i])
    {
      AfterOneMore(audit, stamps, e, at, h, stamps[i]);
    }
  }

  lemma GrantKeepsHeld(bootstrap: set<Holding>, audit: seq<Entry>, stamps: seq<nat>, e: Entry, at: nat)
    requires |stamps| == |audit| && e.action == Grant
    ensures SaysHeld(bootstrap, audit + [e], stamps + [at], KeyOf(e)) <==>
            SaysHeld(bootstrap, audit, stamps, KeyOf(e)) || AfterRevokes(audit, stamps, KeyOf(e), at)
  {
    var h := KeyOf(e);
    hide AfterRevokes;
    forall i
      ensures Says(audit + [e], h, Grant, i) <==> Says(audit, h, Grant, i) || i == |audit|
      ensures Says(audit + [e], h, Revoke, i) <==> Says(audit, h, Revoke, i)
    {}
    forall i | Says(audit + [e], h, Grant, i)
      ensures AfterRevokes(audit + [e], stamps + [at], h, (stamps + [at])[i]) <==>
              AfterRevokes(audit, stamps, h, (stamps + [at])[i])
    {
      AfterOneMore(audit, stamps, e, at, h, (stamps + [at])[i]);
    }
    if AfterRevokes(audit, stamps, h, at) { assert Says(audit + [e], h, Grant, |audit|); }
  }

  /** After a REVOKE newer than all others, the pair is held only by a GRANT newer still. */
  lemma RevokeLeavesNewer(bootstrap: set<Holding>, audit: seq<Entry>, stamps: seq<nat>, e: Entry, at: nat)
    requires |stamps| == |audit| && e.action == Revoke && AfterRevokes(audit, stamps, KeyOf(e), at)
    ensures SaysHeld(bootstrap, audit + [e], stamps + [at], KeyOf(e)) <==>
            exists i :: Says(audit, KeyOf(e), Grant, i) && at < stamps[i]
  {
    var h := KeyOf(e);
    assert Says(audit + [e], h, Revoke, |audit|);
    forall i
      ensures Says(audit + [e], h, Grant, i) <==> Says(audit, h, Grant, i)
    {}
    forall i | Says(audit, h, Grant, i)
      ensures AfterRevokes(audit + [e], stamps + [at], h, (stamps + [at])[i]) <==> at < stamps[i]
    {
      AfterOneMore(audit, stamps, e, at, h, stamps[i]);
    }
  }

  // --- one tick ---

  lemma StampKeeps(c: Clocked, tid: Tid)
    requires Timed(c) && CanTick(c, Stamp(tid))
    ensures Timed(Ticked(c, Stamp(tid)))
  {
    hide Consistent, Audits;
    var after := Ticked(c, Stamp(tid));
    forall t | t in after.pending
      ensures NewerThanRevokes(after, t)
    {
      if t != tid { assert NewerThanRevokes(c, t); }
    }
  }

  /** A transaction that may audit has nothing left but to commit. */
  lemma AuditingCommits(db: State, t: Txn, order: seq<Id>)
    requires Audits(t)
    ensures Next(db, t, order) == Commit
  {}

  lemma ReviewAppends(db: State, locks: map<Lock, Tid>, tid: Tid, t: Txn)
    requires t.call.ReviewApplication? && TxnHolds(db, locks, tid, t) && NextReview(db, t) == Commit
    ensures Committed(db, t).audit == if Audits(t) then db.audit + [EntryOf(t)] else db.audit
    ensures !Audits(t) ==> Committed(db, t).roles == db.roles
  {
    hide Holds, Reviewed, ReviewNotice, InsertionHeld;
  }

  lemma CommitAppends(db: State, locks: map<Lock, Tid>, tid: Tid, t: Txn, order: seq<Id>)
    requires TxnHolds(db, locks, tid, t) && Next(db, t, order) == Commit
    ensures Committed(db, t).audit == if Audits(t) then db.audit + [EntryOf(t)] else db.audit
    ensures !Audits(t) ==> Committed(db, t).roles == db.roles
  {
    hide TxnHolds, Holds, WearsAdvisor, ActiveAdminRows, RowsOf, NextReview, NicknameTaken, BlockedIf, NameTaken;
    if t.call.ReviewApplication? { ReviewAppends(db, locks, tid, t); }
  }

  /** Two transactions that hold the same key entry are one. */
  lemma KeysApart(s: Sys, tid: Tid, uid: Tid)
    requires Consistent(s) && tid in s.open && uid in s.open && tid != uid
    requires Audits(s.open[tid]) && Audits(s.open[uid]) && !s.open[tid].phase.Found? && !s.open[uid].phase.Found?
    ensures KeyOf(EntryOf(s.open[tid])) != KeyOf(EntryOf(s.open[uid]))
  {
    HoldsItsKey(s, tid);
    HoldsItsKey(s, uid);
    hide Consistent, Audits, EntryOf, KeyOf;
  }

  lemma HoldsItsKey(s: Sys, tid: Tid)
    requires Consistent(s) && tid in s.open && Audits(s.open[tid]) && !s.open[tid].phase.Found?
    ensures var h := KeyOf(EntryOf(s.open[tid])); Mine(s.locks, RoleKey(h.user, h.role), tid)
  {
    assert TxnHolds(s.db, s.locks, tid, s.open[tid]);
    hide TablesHold, LocksOwned, TxnsHold, CopiesClean, Holds, CountedHeld;
  }

  /** Log and stamps grow together. */
  predicate StampsGrow(c: Clocked, step: Step, after: Clocked) {
    && |c.stamps| == |c.sys.db.audit| && after.clock == c.clock
    && if CommitsEntry(c.sys, step) then
         && step.tid in c.pending
         && after.sys.db.audit == c.sys.db.audit + [EntryOf(c.sys.open[step.tid])]
         && after.stamps == c.stamps + [c.pending[step.tid]]
       else after.sys.db.audit == c.sys.db.audit && after.stamps == c.stamps
  }

  /** What is still pending was pending, in a transaction that has not moved. */
  predicate StillPending(c: Clocked, step: Step, after: Clocked) {
    && (forall t :: t in after.pending ==> t in c.pending && after.pending[t] == c.pending[t]
                                           && t in c.sys.open && t in after.sys.open && after.sys.open[t] == c.sys.open[t])
    && (CommitsEntry(c.sys, step) ==> step.tid !in after.pending)
  }

  lemma LogGrows(c: Clocked, step: Step)
    requires Timed(c) && CanTick(c, Other(step))
    ensures StampsGrow(c, step, Ticked(c, Other(step)))
  {
    hide Consistent, Committed, FromDb, Refreshed, SavedRow, SavedCopy, Take, Release, Needs, Audits, Next;
    if Commits(c.sys, step) {
      OpenHolds(c.sys, step.tid);
      CommitAppends(c.sys.db, c.sys.locks, step.tid, c.sys.open[step.tid], step.order);
    }
  }

  /** A transaction about to audit stays as it is until it closes. */
  lemma OpenStays(s: Sys, step: Step, t: Tid)
    requires Enabled(s, step) && t in s.open && Audits(s.open[t]) && t in After(s, step).open
    ensures After(s, step).open[t] == s.open[t]
  {
    if step.Advance? && step.tid == t { AuditingCommits(s.db, s.open[t], step.order); }
    hide Committed, FromDb, Refreshed, SavedRow, SavedCopy, Take, Release, Needs, Audits, Next;
  }

  lemma CommittedIsClosed(s: Sys, step: Step)
    requires Enabled(s, step) && Commits(s, step)
    ensures step.tid !in After(s, step).open
  {
    hide Committed, Release, Needs, Next;
  }

  lemma PendingStays(c: Clocked, step: Step)
    requires Timed(c) && CanTick(c, Other(step))
    ensures StillPending(c, step, Ticked(c, Other(step)))
  {
    var after := Ticked(c, Other(step));
    assert after.sys == After(c.sys, step) && after.pending == c.pending - (c.pending.Keys - after.sys.open.Keys);
    if CommitsEntry(c.sys, step) { CommittedIsClosed(c.sys, step); }
    hide Consistent, Enabled, After, Ticked, CanTick, Audits, CommitsEntry, NewerThanRevokes;
    forall t | t in after.pending
      ensures t in c.pending && t in c.sys.open && t in after.sys.open && after.sys.open[t] == c.sys.open[t]
    {
      OpenStays(c.sys, step, t);
    }
    hide StampsHold;
  }

  lemma PendingAudits(c: Clocked, tid: Tid)
    requires StampsHold(c) && tid in c.pending
    ensures tid in c.sys.open && Audits(c.sys.open[tid])
  {}

  lemma OpenHolds(s: Sys, tid: Tid)
    requires Consistent(s) && tid in s.open
    ensures TxnHolds(s.db, s.locks, tid, s.open[tid])
  {}

  lemma OtherKeeps(c: Clocked, step: Step)
    requires Timed(c) && CanTick(c, Other(step))
    ensures Timed(Ticked(c, Other(step)))
  {
    LogGrows(c, step);
    PendingStays(c, step);
    StepKeeps(c.sys, step);
    assert Ticked(c, Other(step)).sys == After(c.sys, step);
    hide Consistent, Enabled, After, StampsGrow, StillPending, StampsHold, Ticked;
    StampsStay(c, step, Ticked(c, Other(step)));
  }

  lemma StampsStay(c: Clocked, step: Step, after: Clocked)
    requires Timed(c) && CanTick(c, Other(step)) && StampsGrow(c, step, after) && StillPending(c, step, after)
    ensures StampsHold(after)
  {
    hide Consistent, Enabled, Audits, Commits;
    assert forall t :: t in c.pending ==> c.pending[t] < c.clock;
    forall t | t in after.pending
      ensures Audits(after.sys.open[t]) && NewerThanRevokes(after, t)
    {
      PendingStaysNewer(c, step, after, t);
    }
    hide NewerThanRevokes;
  }

  lemma PendingStaysNewer(c: Clocked, step: Step, after: Clocked, t: Tid)
    requires Timed(c) && CanTick(c, Other(step)) && StampsGrow(c, step, after)
    requires t in after.pending && t in c.pending && after.pending[t] == c.pending[t]
    requires t in after.sys.open && after.sys.open[t] == c.sys.open[t]
    requires CommitsEntry(c.sys, step) ==> step.tid != t
    ensures Audits(after.sys.open[t]) && NewerThanRevokes(after, t)
  {
    PendingAudits(c, t);
    assert NewerThanRevokes(c, t);
    if CommitsEntry(c.sys, step) && !c.sys.open[t].phase.Found? {
      var u := c.sys.open[step.tid];
      hide Consistent, Enabled, Audits, After;
      if EntryOf(u).action == Revoke { RevokesDelete(u); KeysApart(c.sys, step.tid, t); }
      AfterOneMore(c.sys.db.audit, c.stamps, EntryOf(u), c.pending[step.tid], KeyOf(EntryOf(c.sys.open[t])), c.pending[t]);
    }
  }

  lemma RevokesDelete(t: Txn)
    requires Audits(t) && EntryOf(t).action == Revoke
    ensures !t.phase.Found?
  {}

  // --- where the stamps stop explaining the role table ---

  /** A commit of a REVOKE with a GRANT of the pair already stamped later, or of a late GRANT with nothing revoked later. */
  ghost predicate Misleads(c: Clocked, tick: Tick) {
    && tick.Other? && CommitsEntry(c.sys, tick.step) && tick.step.tid in c.pending && |c.stamps| == |c.sys.db.audit|
    && var t, audit, at := c.sys.open[tick.step.tid], c.sys.db.audit, c.pending[tick.step.tid];
    if t.call.RevokeRole? then exists i :: Says(audit, KeyOf(EntryOf(t)), Grant, i) && at < c.stamps[i]
    else LateApproval(c.sys, tick.step) && AfterRevokes(audit, c.stamps, KeyOf(EntryOf(t)), at)
  }

  /** The commit changes the role table at its own pair only. */
  lemma RolesAfterCommit(db: State, locks: map<Lock, Tid>, tid: Tid, t: Txn)
    requires TxnHolds(db, locks, tid, t) && Audits(t) && RolesWellFormed(db.users, db.roles)
    requires t.call.ReviewApplication? ==> t.call.verdict == Approved
    ensures var h, after := KeyOf(EntryOf(t)), Stored(Committed(db, t).roles);
            && (forall g :: g != h ==> (g in after <==> g in Stored(db.roles)))
            && (h in after <==> !t.call.RevokeRole? && (t.phase.Inserted? || h in Stored(db.roles)))
  {
    hide Stored, Holds, RolesWellFormed, CountedHeld, RowsOf;
    match t.call
    case GrantRole(target, role, _, _, newPk) => RolesGrow(db.roles, newPk, Holding(target, role));
    case RevokeRole(target, role, _, _) => RevokedRows(db.users, db.roles, target, role);
    case ReviewApplication(_, _, _, _, newPk, _) =>
      if t.phase.Inserted? { RolesGrow(db.roles, newPk, Holding(t.read.form.applicant, Advisor)); }
  }

  lemma ApprovesToAudit(db: State, locks: map<Lock, Tid>, tid: Tid, t: Txn)
    requires TxnHolds(db, locks, tid, t) && Audits(t)
    ensures t.call.ReviewApplication? ==> t.call.verdict == Approved
  {
    hide Holds, CountedHeld;
  }

  lemma HoldsIsStored(roles: Roles, user: Id, role: Role)
    ensures Holds(roles, user, role) <==> Holding(user, role) in Stored(roles)
  {}

  /** The log speaks for the table at the pair the commit is about. */
  ghost predicate KeyExplained(bootstrap: set<Holding>, c: Clocked, step: Step)
    requires |c.stamps| == |c.sys.db.audit| && step.Advance? && step.tid in c.sys.open && step.tid in c.pending
    requires Audits(c.sys.open[step.tid])
  {
    var t := c.sys.open[step.tid];
    var e, at := EntryOf(t), c.pending[step.tid];
    KeyOf(e) in Stored(Committed(c.sys.db, t).roles) <==> SaysHeld(bootstrap, c.sys.db.audit + [e], c.stamps + [at], KeyOf(e))
  }

  /** What is known of the table and of the stamp when an entry commits. */
  lemma KeyAfterCommit(c: Clocked, step: Step)
    requires Timed(c) && CanTick(c, Other(step)) && CommitsEntry(c.sys, step)
    ensures var t := c.sys.open[step.tid];
            var h, roles := KeyOf(EntryOf(t)), Stored(c.sys.db.roles);
            && (forall g :: g != h ==> (g in Stored(Committed(c.sys.db, t).roles) <==> g in roles))
            && (h in Stored(Committed(c.sys.db, t).roles) <==> !t.call.RevokeRole? && (t.phase.Inserted? || h in roles))
            && (h in roles <==> Holds(c.sys.db.roles, h.user, h.role))
            && NewerThanRevokes(c, step.tid)
  {
    var t := c.sys.open[step.tid];
    var h := KeyOf(EntryOf(t));
    OpenHolds(c.sys, step.tid);
    ApprovesToAudit(c.sys.db, c.sys.locks, step.tid, t);
    assert RolesWellFormed(c.sys.db.users, c.sys.db.roles);
    RolesAfterCommit(c.sys.db, c.sys.locks, step.tid, t);
    HoldsIsStored(c.sys.db.roles, h.user, h.role);
    hide Consistent, Stored, Committed, TxnHolds, Enabled, NewerThanRevokes, RolesWellFormed, Holds, Commits, Audits;
  }

  lemma KeyExplainedIff(bootstrap: set<Holding>, c: Clocked, step: Step)
    requires Timed(c) && CanTick(c, Other(step)) && CommitsEntry(c.sys, step)
    ensures Misleads(c, Other(step)) ==> !KeyExplained(bootstrap, c, step)
    ensures ExplainedByTime(bootstrap, c) && !Misleads(c, Other(step)) ==> KeyExplained(bootstrap, c, step)
  {
    var t := c.sys.open[step.tid];
    var e, at := EntryOf(t), c.pending[step.tid];
    KeyAfterCommit(c, step);
    hide Consistent, Stored, Committed, Enabled, SaysHeld, AfterRevokes, Holds, Commits;
    if t.call.RevokeRole? {
      RevokeLeavesNewer(bootstrap, c.sys.db.audit, c.stamps, e, at);
    } else {
      GrantKeepsHeld(bootstrap, c.sys.db.audit, c.stamps, e, at);
    }
  }

  /** And at every other pair. */
  ghost predicate OthersExplained(bootstrap: set<Holding>, c: Clocked, step: Step)
    requires |c.stamps| == |c.sys.db.audit| && step.Advance? && step.tid in c.sys.open && step.tid in c.pending
    requires Audits(c.sys.open[step.tid])
  {
    var t := c.sys.open[step.tid];
    var e, at := EntryOf(t), c.pending[step.tid];
    forall h :: h != KeyOf(e) ==>
      (h in Stored(Committed(c.sys.db, t).roles) <==> SaysHeld(bootstrap, c.sys.db.audit + [e], c.stamps + [at], h))
  }

  lemma OtherKeysExplained(bootstrap: set<Holding>, c: Clocked, step: Step)
    requires Timed(c) && CanTick(c, Other(step)) && CommitsEntry(c.sys, step) && ExplainedByTime(bootstrap, c)
    ensures OthersExplained(bootstrap, c, step)
  {
    var t := c.sys.open[step.tid];
    var e, at := EntryOf(t), c.pending[step.tid];
    KeyAfterCommit(c, step);
    hide Timed, Stored, Committed, Enabled, SaysHeld, CommitsEntry, EntryOf, KeyOf, Audits, NewerThanRevokes;
    forall h | h != KeyOf(e)
      ensures SaysHeld(bootstrap, c.sys.db.audit + [e], c.stamps + [at], h) <==> h in Stored(c.sys.db.roles)
    {
      OtherKeysUnmoved(bootstrap, c.sys.db.audit, c.stamps, e, at, h);
    }
  }

  lemma AfterCommit(s: Sys, step: Step)
    requires Enabled(s, step) && Commits(s, step)
    ensures After(s, step).db == Committed(s.db, s.open[step.tid])
  {
    hide Committed, Next, Needs;
  }

  lemma ExplainedAfterEntry(bootstrap: set<Holding>, c: Clocked, step: Step)
    requires Timed(c) && CanTick(c, Other(step)) && CommitsEntry(c.sys, step)
    ensures ExplainedByTime(bootstrap, Ticked(c, Other(step))) <==>
            KeyExplained(bootstrap, c, step) && OthersExplained(bootstrap, c, step)
  {
    var after := Ticked(c, Other(step));
    LogGrows(c, step);
    AfterCommit(c.sys, step);
    assert after.sys == After(c.sys, step);
    hide Timed, Stored, Committed, Enabled, After, CanTick, SaysHeld, Ticked, EntryOf, KeyOf, Commits, Audits;
  }

  lemma MisledAfterwards(bootstrap: set<Holding>, c: Clocked, step: Step)
    requires Timed(c) && CanTick(c, Other(step)) && Misleads(c, Other(step))
    ensures !ExplainedByTime(bootstrap, Ticked(c, Other(step)))
  {
    assert CommitsEntry(c.sys, step);
    hide Timed, CanTick, Ticked, ExplainedByTime, KeyExplained, OthersExplained, CommitsEntry, Misleads;
    KeyExplainedIff(bootstrap, c, step);
    ExplainedAfterEntry(bootstrap, c, step);
  }

  lemma CommitExplainedIff(bootstrap: set<Holding>, c: Clocked, step: Step)
    requires Timed(c) && CanTick(c, Other(step)) && CommitsEntry(c.sys, step) && ExplainedByTime(bootstrap, c)
    ensures ExplainedByTime(bootstrap, Ticked(c, Other(step))) <==> !Misleads(c, Other(step))
  {
    hide Timed, CanTick, Ticked, ExplainedByTime, KeyExplained, OthersExplained, Misleads;
    KeyExplainedIff(bootstrap, c, step);
    OtherKeysExplained(bootstrap, c, step);
    ExplainedAfterEntry(bootstrap, c, step);
  }

  lemma QuietExplained(bootstrap: set<Holding>, c: Clocked, step: Step)
    requires Timed(c) && CanTick(c, Other(step)) && !CommitsEntry(c.sys, step)
    ensures ExplainedByTime(bootstrap, Ticked(c, Other(step))) <==> ExplainedByTime(bootstrap, c)
  {
    var after := Ticked(c, Other(step));
    LogGrows(c, step);
    assert after.sys == After(c.sys, step);
    if Commits(c.sys, step) {
      AfterCommit(c.sys, step);
      OpenHolds(c.sys, step.tid);
      CommitAppends(c.sys.db, c.sys.locks, step.tid, c.sys.open[step.tid], step.order);
    } else {
      OnlyCommitsWriteRoles(c.sys, step);
    }
    hide Timed, Stored, Committed, Enabled, After, CanTick, SaysHeld, Ticked, EntryOf, Commits, Audits;
  }

  lemma TickKeeps(c: Clocked, tick: Tick)
    requires Timed(c) && CanTick(c, tick)
    ensures Timed(Ticked(c, tick))
  {
    hide Timed, CanTick, Ticked;
    match tick
    case Stamp(tid) => StampKeeps(c, tid);
    case Other(step) => OtherKeeps(c, step);
  }

  lemma TickExplainedIff(bootstrap: set<Holding>, c: Clocked, tick: Tick)
    requires Timed(c) && CanTick(c, tick) && ExplainedByTime(bootstrap, c)
    ensures ExplainedByTime(bootstrap, Ticked(c, tick)) <==> !Misleads(c, tick)
  {
    if tick.Other? {
      if CommitsEntry(c.sys, tick.step) {
        hide Timed, CanTick, Ticked, ExplainedByTime, Misleads;
        CommitExplainedIff(bootstrap, c, tick.step);
      } else {
        hide Timed, CanTick, Ticked, ExplainedByTime, CommitsEntry;
        QuietExplained(bootstrap, c, tick.step);
      }
    } else {
      hide Timed, SaysHeld, Stored, Audits;
    }
  }

  // --- whole runs ---

  /** Sound tables, nothing in flight, and a log stamped before now. */
  ghost predicate ClockedStart(c: Clocked) {
    && Start(c.sys) && c.pending == map[] && |c.stamps| == |c.sys.db.audit|
    && forall i :: 0 <= i < |c.stamps| ==> c.stamps[i] < c.clock
  }

  ghost predicate Ticks(c: Clocked, after: Clocked) { exists tick :: CanTick(c, tick) && after == Ticked(c, tick) }

  ghost predicate ClockedRun(run: seq<Clocked>) {
    && |run| > 0 && ClockedStart(run[0])
    && forall i :: 0 <= i < |run| - 1 ==> Ticks(run[i], run[i + 1])
  }

  /** A tick that commits an entry the stamps of the log do not agree with. */
  ghost predicate Misleading(c: Clocked, after: Clocked) {
    exists tick :: CanTick(c, tick) && after == Ticked(c, tick) && Misleads(c, tick)
  }

  lemma {:induction false} RunIsTimed(run: seq<Clocked>, i: nat)
    requires ClockedRun(run) && i < |run|
    ensures Timed(run[i])
  {
    if i == 0 {
      hide TablesHold;
    } else {
      hide Timed, CanTick, Ticked;
      RunIsTimed(run, i - 1);
      assert Ticks(run[i - 1], run[i - 1 + 1]);
      var tick :| CanTick(run[i - 1], tick) && run[i] == Ticked(run[i - 1], tick);
      TickKeeps(run[i - 1], tick);
    }
  }

  lemma AnyTickExplainedIff(bootstrap: set<Holding>, c: Clocked, after: Clocked)
    requires Timed(c) && Ticks(c, after) && ExplainedByTime(bootstrap, c)
    ensures ExplainedByTime(bootstrap, after) <==> !Misleading(c, after)
  {
    hide Timed, CanTick, Ticked, ExplainedByTime, Misleads;
    forall tick | CanTick(c, tick) && after == Ticked(c, tick)
      ensures ExplainedByTime(bootstrap, after) <==> !Misleads(c, tick)
    {
      TickExplainedIff(bootstrap, c, tick);
    }
  }

  /**
   Read by its stamps, the log explains the role table all through a run exactly when no REVOKE of a
   role commits after a later GRANT of it has, and no approval commits with the newest stamp for a
   role row that a revocation has deleted.
   */
  lemma ExplainedByTimeIff(bootstrap: set<Holding>, run: seq<Clocked>)
    requires ClockedRun(run) && ExplainedByTime(bootstrap, run[0])
    ensures (forall i :: 0 <= i < |run| ==> ExplainedByTime(bootstrap, run[i])) <==>
            (forall i :: 0 <= i < |run| - 1 ==> !Misleading(run[i], run[i + 1]))
  {
    hide ExplainedByTime, Misleading, Timed;
    forall i | 0 <= i < |run| - 1 && ExplainedByTime(bootstrap, run[i])
      ensures ExplainedByTime(bootstrap, run[i + 1]) <==> !Misleading(run[i], run[i + 1])
    {
      RunIsTimed(run, i);
      assert Ticks(run[i], run[i + 1]);
      hide Ticks;
      AnyTickExplainedIff(bootstrap, run[i], run[i + 1]);
    }
    hide ClockedRun;
    GoodUntilABadStep(run, (c: Clocked) => ExplainedByTime(bootstrap, c), Misleading);
  }

  // --- every schedule can be clocked ---

  lemma TickOnce(run: seq<Clocked>, tick: Tick) returns (longer: seq<Clocked>)
    requires ClockedRun(run) && CanTick(run[|run| - 1], tick)
    ensures ClockedRun(longer) && run <= longer && |longer| == |run| + 1
    ensures longer[|run|] == Ticked(run[|run| - 1], tick)
  {
    longer := run + [Ticked(run[|run| - 1], tick)];
    hide CanTick, Ticked, ClockedStart;
    assert longer[0] == run[0];
    forall i | 0 <= i < |longer| - 1
      ensures Ticks(longer[i], longer[i + 1])
    {
      if i < |run| - 1 { assert Ticks(run[i], run[i + 1]); }
    }
  }

  /** One step of the system, its audit row stamped right before it commits. */
  lemma StepOnce(run: seq<Clocked>, step: Step) returns (longer: seq<Clocked>)
    requires ClockedRun(run) && run[|run| - 1].pending == map[] && Enabled(run[|run| - 1].sys, step)
    ensures ClockedRun(longer) && run <= longer
    ensures longer[|longer| - 1].sys == After(run[|run| - 1].sys, step) && longer[|longer| - 1].pending == map[]
  {
    longer := run;
    var last := run[|run| - 1];
    hide ClockedRun, Enabled, After, Audits;
    if CommitsEntry(last.sys, step) {
      CommittedIsClosed(last.sys, step);
      longer := TickOnce(longer, Stamp(step.tid));
      assert longer[|longer| - 1] == Ticked(last, Stamp(step.tid));
      longer := TickOnce(longer, Other(step));
    } else {
      longer := TickOnce(longer, Other(step));
    }
  }

  predicate Visits(run: seq<Clocked>, s: Sys) { exists j :: 0 <= j < |run| && run[j].sys == s }

  /** Every run of the system, from any stamped log, is a run with a clock: the clock rules no schedule out. */
  lemma {:induction false} EveryRunIsClocked(run: seq<Sys>, start: Clocked) returns (clocked: seq<Clocked>)
    requires Run(run) && ClockedStart(start) && start.sys == run[0]
    ensures ClockedRun(clocked) && clocked[0] == start
    ensures clocked[|clocked| - 1].sys == run[|run| - 1] && clocked[|clocked| - 1].pending == map[]
    ensures forall i :: 0 <= i < |run| ==> Visits(clocked, run[i])
  {
    if |run| == 1 {
      clocked := [start];
    } else {
      var shorter := run[..|run| - 1];
      assert Moves(run[|run| - 2], run[|run| - 2 + 1]);
      RunShorter(run);
      hide Run, ClockedRun, ClockedStart, Enabled, After;
      var first := EveryRunIsClocked(shorter, start);
      var step :| Enabled(run[|run| - 2], step) && run[|run| - 1] == After(run[|run| - 2], step);
      clocked := StepOnce(first, step);
      AllStillVisited(shorter, first, clocked);
      hide Visits;
      assert forall i :: 0 <= i < |run| - 1 ==> shorter[i] == run[i];
      LastVisited(clocked);
    }
  }

  lemma RunShorter(run: seq<Sys>)
    requires Run(run) && |run| > 1
    ensures Run(run[..|run| - 1])
  {
    hide Start, Moves;
  }

  lemma StillVisits(run: seq<Clocked>, longer: seq<Clocked>, s: Sys)
    requires run <= longer && Visits(run, s)
    ensures Visits(longer, s)
  {
    var j :| 0 <= j < |run| && run[j].sys == s;
    assert longer[j] == run[j];
  }

  lemma AllStillVisited(states: seq<Sys>, run: seq<Clocked>, longer: seq<Clocked>)
    requires run <= longer && forall i :: 0 <= i < |states| ==> Visits(run, states[i])
    ensures forall i :: 0 <= i < |states| ==> Visits(longer, states[i])
  {
    hide Visits;
    forall i | 0 <= i < |states|
      ensures Visits(longer, states[i])
    {
      StillVisits(run, longer, states[i]);
    }
  }

  lemma LastVisited(run: seq<Clocked>)
    requires |run| > 0
    ensures Visits(run, run[|run| - 1].sys)
  {}

  /** Before a late approval commits, it can have stamped its GRANT later than anything in the log. */
  lemma LateStampMisleads(c: Clocked, step: Step)
    requires Timed(c) && c.pending == map[] && Enabled(c.sys, step) && LateApproval(c.sys, step)
    ensures CanTick(c, Stamp(step.tid))
    ensures var stamped := Ticked(c, Stamp(step.tid));
            && CanTick(stamped, Other(step)) && Misleads(stamped, Other(step))
            && Ticked(stamped, Other(step)).sys == After(c.sys, step)
  {
    OnlyCommitsAreLate(c.sys, step);
    hide Consistent, Enabled, After, Commits;
  }

  lemma LateMisleadsByTime(bootstrap: set<Holding>, run: seq<Clocked>, late: Sys) returns (longer: seq<Clocked>)
    requires ClockedRun(run) && run[|run| - 1].pending == map[] && Late(run[|run| - 1].sys, late)
    ensures ClockedRun(longer) && run <= longer && longer[|longer| - 1].sys == late
    ensures !ExplainedByTime(bootstrap, longer[|longer| - 1])
  {
    var c := run[|run| - 1];
    hide Timed, Enabled, After, ClockedRun, ExplainedByTime, LateApproval, CanTick, Ticked, Misleads;
    var step :| Enabled(c.sys, step) && late == After(c.sys, step) && LateApproval(c.sys, step);
    RunIsTimed(run, |run| - 1);
    LateStampMisleads(c, step);
    var stamped := TickOnce(run, Stamp(step.tid));
    RunIsTimed(stamped, |run|);
    longer := TickOnce(stamped, Other(step));
    MisledAfterwards(bootstrap, stamped[|run|], step);
  }

  /**
   So the stamps mislead too: from every sound state, whatever the log was stamped with, an approval
   and a revocation can end in a GRANT, the newest entry there is, for a role nobody holds.
   */
  lemma StampsCanMislead(bootstrap: set<Holding>, start: Clocked, approval: Request, actor: Id, reason: string)
    requires ClockedStart(start) && AboutToApprove(start.sys.db, approval)
    ensures exists run: seq<Clocked> ::
              ClockedRun(run) && run[0] == start
              && GrantedToNobody(start.sys.db, run[|run| - 1].sys.db, approval, actor, reason)
              && !ExplainedByTime(bootstrap, run[|run| - 1])
  {
    var db := start.sys.db;
    IdleRun(db);
    assert start.sys == Sys(db, map[], map[], map[]) && TablesHold(db);
    hide Run, ClockedRun, ClockedStart, TablesHold, Moves, Late, AboutToApprove, GrantedToNobody, ExplainedByTime, Visits;
    var run, late := RoleLostMeanwhile([start.sys], db, approval, actor, reason);
    var clocked := EveryRunIsClocked(run, start);
    var longer := LateMisleadsByTime(bootstrap, clocked, late);
    assert longer[0] == start;
  }
}
