/** What commits, commits what the same request does when nothing runs beside it: exactly when. */
module AuthorityRefinement {
  import opened Text
  import opened Common
  import opened Authority
  import opened AuthoritySteps
  import opened AuthorityRaces
  import opened AuthorityRuns

  /** The request alone, now, would be accepted and leave exactly what this commit leaves. */
  predicate AsServed(db: State, t: Txn) { Serve(db, t.call) == Outcome(Committed(db, t), Accepted) }

  lemma GrantAsServed(db: State, locks: map<Lock, Tid>, tid: Tid, t: Txn)
    requires t.call.GrantRole? && t.phase.Inserted? && TxnHolds(db, locks, tid, t)
    ensures AsServed(db, t)
  {
    hide Holds;
  }

  lemma MoreThanOne(rows: set<Id>, all: set<Id>)
    requires rows <= all && |rows| > 1
    ensures |all| > 1
  {
    assert all == rows + (all - rows);
  }

  lemma RevokeAsServed(db: State, locks: map<Lock, Tid>, tid: Tid, t: Txn)
    requires t.call.RevokeRole? && t.phase.Deleted? && TxnHolds(db, locks, tid, t)
    ensures AsServed(db, t)
  {
    if t.call.role == Admin {
      var counted, admins := LockedRows(t.phase), ActiveAdminRows(db.users, db.roles);
      assert counted <= admins;
      var pk :| pk in counted && pk in db.roles && db.roles[pk].user == t.call.target;
      assert pk in admins && db.roles[pk].user == t.call.target;
      MoreThanOne(counted, admins);
    }
    hide ActiveAdminRows, Holds, CountedHeld, Includes, LockedRows;
  }

  lemma SwitchAsServed(db: State, locks: map<Lock, Tid>, tid: Tid, t: Txn)
    requires t.call.SetActiveRole? && t.phase.Written? && TxnHolds(db, locks, tid, t)
    ensures AsServed(db, t)
  {
    hide Holds;
  }

  /** Everything is as served, but for an approval whose role went meanwhile and an application that overlapped another. */
  predicate Overtaken(db: State, t: Txn) {
    || (t.call.ReviewApplication? && t.phase.Found? && t.read.Form? && !Holds(db.roles, t.read.form.applicant, Advisor))
    || (t.call.CreateApplication? && Blocked(db, t.call.applicant))
  }

  lemma ReviewAsServedIff(db: State, locks: map<Lock, Tid>, tid: Tid, t: Txn)
    requires t.call.ReviewApplication? && NextReview(db, t) == Commit && TxnHolds(db, locks, tid, t)
    ensures AsServed(db, t) <==> !Overtaken(db, t)
  {
    hide Holds, Reviewed, Blank, AppEdge;
  }

  lemma ApplicationAsServedIff(db: State, t: Txn)
    requires t.call.CreateApplication? && NextApplication(db, t) == Commit
    ensures AsServed(db, t) <==> !Overtaken(db, t)
  {
    hide Blocked, NameTaken;
  }

  lemma CommitAsServedIff(db: State, locks: map<Lock, Tid>, tid: Tid, t: Txn, order: seq<Id>)
    requires Next(db, t, order) == Commit && TxnHolds(db, locks, tid, t)
    ensures AsServed(db, t) <==> !Overtaken(db, t)
  {
    hide TxnHolds, AsServed;
    match t.call
    case GrantRole(_, _, _, _, _) => GrantAsServed(db, locks, tid, t);
    case RevokeRole(_, _, _, _) => RevokeAsServed(db, locks, tid, t);
    case SetActiveRole(_, _) => SwitchAsServed(db, locks, tid, t);
    case UpdateProfile(_, _) => ProfileAsServed(db, locks, tid, t);
    case CreateApplication(_, _, _, _) => ApplicationAsServedIff(db, t);
    case ReviewApplication(_, _, _, _, _, _) => ReviewAsServedIff(db, locks, tid, t);
  }

  lemma ProfileAsServed(db: State, locks: map<Lock, Tid>, tid: Tid, t: Txn)
    requires t.call.UpdateProfile? && NextProfile(db, t) == Commit && TxnHolds(db, locks, tid, t)
    ensures AsServed(db, t)
  {
    hide NicknameTaken;
  }

  /**
   In every run, a commit leaves what its request leaves when it is served alone at that moment,
   unless it is an approval whose found role went meanwhile or an application that overlapped another.
   */
  lemma EveryCommitIsServedIff(run: seq<Sys>, i: nat, tid: Tid, order: seq<Id>)
    requires Run(run) && i < |run| && Enabled(run[i], Advance(tid, order))
    requires Next(run[i].db, run[i].open[tid], order) == Commit
    ensures Serve(run[i].db, run[i].open[tid].call) == Outcome(After(run[i], Advance(tid, order)).db, Accepted) <==>
            !Overtaken(run[i].db, run[i].open[tid])
  {
    RunIsConsistent(run, i);
    hide Run, TxnHolds, TablesHold, Next, Overtaken, Serve, Committed;
    CommitAsServedIff(run[i].db, run[i].locks, tid, run[i].open[tid], order);
  }
}
