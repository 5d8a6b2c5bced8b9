/** One role request after the other is a schedule too: the interleaved model has all that serial service does. */
module AuthoritySerial {
  import opened Common
  import opened Authority
  import opened AuthoritySteps
  import opened AuthorityRaces
  import opened AuthorityRuns

  function Idle(db: State): Sys { Sys(db, map[], map[], map[]) }

  predicate AllMine(locks: map<Lock, Tid>) { forall l :: l in locks ==> locks[l] == 1 }

  // --- one transaction and nobody else ---

  lemma GoesOn(db: State, t: Txn, u: Txn, locks: map<Lock, Tid>, order: seq<Id>)
    requires Next(db, t, order) == Go(u) && !u.phase.Again? && AllMine(locks)
    requires ListsAdmins(t) ==> Lists(order, ActiveAdminRows(db.users, db.roles))
    ensures AllMine(Take(locks, Needs(db, t), 1))
    ensures Moves(One(db, t, locks), One(db, u, Take(locks, Needs(db, t), 1)))
  {
    hide Next, Needs, Lists, ActiveAdminRows;
    var one := One(db, t, locks);
    assert Enabled(one, Advance(1, order));
    assert After(one, Advance(1, order)).open == map[1 := u];
  }

  lemma Commits(db: State, t: Txn, locks: map<Lock, Tid>, order: seq<Id>)
    requires Next(db, t, order) == Commit && AllMine(locks) && Needs(db, t) == {} && !ListsAdmins(t)
    ensures Moves(One(db, t, locks), Idle(Committed(db, t)))
  {
    hide Next, Needs, Committed;
    var one := One(db, t, locks);
    assert Enabled(one, Advance(1, order));
    assert After(one, Advance(1, order)).open == map[] && Release(locks, 1) == map[];
  }

  lemma Opens(db: State, r: Request)
    ensures Moves(Idle(db), One(db, Txn(r, Begun, Nothing), map[]))
  {
    assert Enabled(Idle(db), Open(1, r)) && After(Idle(db), Open(1, r)) == One(db, Txn(r, Begun, Nothing), map[]);
  }

  /** Where a transaction is when it commits, with nobody else writing; None when it raises. */
  function LastOf(db: State, t: Txn, order: seq<Id>, steps: nat): Option<Txn>
    decreases steps
  {
    match Next(db, t, order)
    case Commit => if Needs(db, t) == {} && !ListsAdmins(t) then Some(t) else None
    case Raise(_) => None
    case Go(u) => if steps == 0 || u.phase.Again? then None else LastOf(db, u, order, steps - 1)
  }

  lemma {:induction false} Drives(run: seq<Sys>, db: State, t: Txn, locks: map<Lock, Tid>, order: seq<Id>, steps: nat)
    returns (longer: seq<Sys>)
    requires Run(run) && run[|run| - 1] == One(db, t, locks) && AllMine(locks)
    requires Lists(order, ActiveAdminRows(db.users, db.roles))
    requires LastOf(db, t, order, steps).Some?
    ensures Run(longer) && longer[0] == run[0]
    ensures longer[|longer| - 1] == Idle(Committed(db, LastOf(db, t, order, steps).value))
    decreases steps
  {
    hide Run, Moves, One, Next, Needs, Committed, Lists, AllMine, ActiveAdminRows;
    match Next(db, t, order)
    case Commit =>
      Commits(db, t, locks, order);
      longer := Then(run, Idle(Committed(db, t)));
    case Go(u) =>
      GoesOn(db, t, u, locks, order);
      longer := Then(run, One(db, u, Take(locks, Needs(db, t), 1)));
      longer := Drives(longer, db, u, Take(locks, Needs(db, t), 1), order, steps - 1);
  }

  // --- what each request does when it is accepted ---

  /** Alone, the statements of the request commit what serving it leaves. */
  ghost predicate CommitsServed(db: State, r: Request, order: seq<Id>) {
    exists steps: nat :: EndsServed(db, r, order, steps)
  }

  predicate EndsServed(db: State, r: Request, order: seq<Id>, steps: nat) {
    && LastOf(db, Txn(r, Begun, Nothing), order, steps).Some?
    && Committed(db, LastOf(db, Txn(r, Begun, Nothing), order, steps).value) == Serve(db, r).state
  }

  lemma GrantServed(db: State, r: Request, order: seq<Id>)
    requires r.GrantRole? && Serve(db, r).reply == Accepted
    ensures CommitsServed(db, r, order)
  {
    hide Holds;
    var account := Account(db.users[r.target]);
    assert LastOf(db, Txn(r, Inserted, account), order, 0) == Some(Txn(r, Inserted, account));
    assert LastOf(db, Txn(r, Allowed({}), account), order, 1) == Some(Txn(r, Inserted, account));
    assert LastOf(db, Txn(r, Locked, account), order, 2) == Some(Txn(r, Inserted, account));
    assert EndsServed(db, r, order, 3);
  }

  lemma SwitchServed(db: State, r: Request, order: seq<Id>)
    requires r.SetActiveRole? && Serve(db, r).reply == Accepted
    ensures CommitsServed(db, r, order)
  {
    hide HeldRoles;
    var account := Account(db.users[r.user]);
    assert LastOf(db, Txn(r, Written, account), order, 0) == Some(Txn(r, Written, account));
    assert LastOf(db, Txn(r, Locked, account), order, 1) == Some(Txn(r, Written, account));
    assert EndsServed(db, r, order, 2);
  }

  lemma ProfileServed(db: State, r: Request, order: seq<Id>)
    requires r.UpdateProfile? && Serve(db, r).reply == Accepted
    ensures CommitsServed(db, r, order)
  {
    hide NicknameTaken;
    var account := Account(db.users[r.user]);
    assert LastOf(db, Txn(r, Locked, account), order, 0) == Some(Txn(r, Locked, account));
    assert EndsServed(db, r, order, 1);
  }

  lemma ApplicationServed(db: State, r: Request, order: seq<Id>)
    requires r.CreateApplication? && Serve(db, r).reply == Accepted
    ensures CommitsServed(db, r, order)
  {
    hide BlockedIf, NameTaken, Holds;
    var held := Holds(db.roles, r.applicant, Advisor);
    assert LastOf(db, Txn(r, Allowed({}), Nothing), order, 0) == Some(Txn(r, Allowed({}), Nothing));
    assert LastOf(db, Txn(r, Asked(held), Nothing), order, 1) == Some(Txn(r, Allowed({}), Nothing));
    assert EndsServed(db, r, order, 2);
  }

  lemma VerdictServed(db: State, r: Request, order: seq<Id>)
    requires r.ReviewApplication? && Serve(db, r).reply == Accepted
    ensures CommitsServed(db, r, order)
  {
    hide Holds, Reviewed, ReviewNotice;
    var form := Form(db.apps[r.app]);
    if r.verdict != Approved {
      assert LastOf(db, Txn(r, Written, form), order, 0) == Some(Txn(r, Written, form));
      assert LastOf(db, Txn(r, Locked, form), order, 1) == Some(Txn(r, Written, form));
      assert EndsServed(db, r, order, 2);
    } else if Holds(db.roles, form.form.applicant, Advisor) {
      assert LastOf(db, Txn(r, Found, form), order, 0) == Some(Txn(r, Found, form));
      assert LastOf(db, Txn(r, Allowed({}), form), order, 1) == Some(Txn(r, Found, form));
      assert LastOf(db, Txn(r, Locked, form), order, 2) == Some(Txn(r, Found, form));
      assert EndsServed(db, r, order, 3);
    } else {
      assert LastOf(db, Txn(r, Inserted, form), order, 0) == Some(Txn(r, Inserted, form));
      assert LastOf(db, Txn(r, Missing, form), order, 1) == Some(Txn(r, Inserted, form));
      assert LastOf(db, Txn(r, Allowed({}), form), order, 2) == Some(Txn(r, Inserted, form));
      assert LastOf(db, Txn(r, Locked, form), order, 3) == Some(Txn(r, Inserted, form));
      assert EndsServed(db, r, order, 4);
    }
  }

  function Keys(order: seq<Id>): set<Id> { set pk | pk in order }

  lemma KeysOneMore(order: seq<Id>)
    requires order != []
    ensures Keys(order) == {order[0]} + Keys(order[1..])
    ensures forall i :: 0 <= i < |order| - 1 ==> order[1..][i] == order[i + 1]
  {
    assert order == [order[0]] + order[1..];
  }

  /** Counting goes through the rows still to lock, two statements for each. */
  lemma {:induction false} Counted(db: State, r: Request, read: Read, rest: seq<Id>, counted: set<Id>, order: seq<Id>, last: Txn,
                                   steps: nat)
    requires r.RevokeRole? && (forall i :: 0 <= i < |rest| ==> rest[i] in ActiveAdminRows(db.users, db.roles))
    requires LastOf(db, Txn(r, Counting([], counted + Keys(rest)), read), order, steps) == Some(last)
    ensures LastOf(db, Txn(r, Counting(rest, counted), read), order, steps + 2 * |rest|) == Some(last)
    decreases |rest|
  {
    hide LastOf, ActiveAdminRows;
    if rest == [] {
      assert counted + Keys(rest) == counted;
    } else {
      KeysOneMore(rest);
      assert counted + {rest[0]} + Keys(rest[1..]) == counted + Keys(rest);
      Counted(db, r, read, rest[1..], counted + {rest[0]}, order, last, steps);
      OneCounted(db, r, read, rest, counted, order, last, steps + 2 * |rest[1..]|);
    }
  }

  lemma OneCounted(db: State, r: Request, read: Read, rest: seq<Id>, counted: set<Id>, order: seq<Id>, last: Txn, steps: nat)
    requires r.RevokeRole? && rest != [] && rest[0] in ActiveAdminRows(db.users, db.roles)
    requires LastOf(db, Txn(r, Counting(rest[1..], counted + {rest[0]}), read), order, steps) == Some(last)
    ensures LastOf(db, Txn(r, Counting(rest, counted), read), order, steps + 2) == Some(last)
  {
    hide ActiveAdminRows, RowsOf, Includes;
    var joining := Txn(r, Joining(rest, counted), read);
    assert Next(db, joining, order) == Go(Txn(r, Counting(rest[1..], counted + {rest[0]}), read));
    assert LastOf(db, joining, order, steps + 1) == Some(last);
    assert Next(db, Txn(r, Counting(rest, counted), read), order) == Go(joining);
  }

  lemma AdminsCounted(db: State, r: Request, account: Read, order: seq<Id>, last: Txn)
    requires r.RevokeRole? && r.role == Admin && Serve(db, r).reply == Accepted
    requires Keys(order) == ActiveAdminRows(db.users, db.roles)
    requires LastOf(db, Txn(r, Allowed(Keys(order)), account), order, 1) == Some(last)
    ensures LastOf(db, Txn(r, Counting(order, {}), account), order, 2 + 2 * |order|) == Some(last)
  {
    var admins := Keys(order);
    var passed := Txn(r, Counting([], admins), account);
    assert Includes(db.roles, admins, r.target) && |admins| > 1;
    assert Next(db, passed, order) == Go(Txn(r, Allowed(admins), account)) by { hide Includes, ActiveAdminRows; }
    assert forall i :: 0 <= i < |order| ==> order[i] in admins;
    hide Includes, ActiveAdminRows, Keys, Next, Serve;
    assert LastOf(db, passed, order, 2) == Some(last);
    assert {} + admins == admins;
    Counted(db, r, account, order, {}, order, last, 2);
  }

  lemma RevokeServed(db: State, r: Request, order: seq<Id>)
    requires r.RevokeRole? && Serve(db, r).reply == Accepted && Lists(order, ActiveAdminRows(db.users, db.roles))
    ensures CommitsServed(db, r, order)
  {
    var account, rows := Account(db.users[r.target]), RowsOf(db.roles, r.target, r.role);
    var counted := if r.role == Admin then Keys(order) else {};
    var last := Txn(r, Deleted(rows, counted), account);
    DeletionEnds(db, r, account, counted, order);
    if r.role == Admin {
      AdminsCounted(db, r, account, order, last);
      hide Includes, RowsOf, ActiveAdminRows, Lists, Keys;
      assert LastOf(db, Txn(r, Locked, account), order, 3 + 2 * |order|) == Some(last);
      assert EndsServed(db, r, order, 4 + 2 * |order|);
    } else {
      hide Includes, RowsOf, ActiveAdminRows, Lists;
      assert LastOf(db, Txn(r, Locked, account), order, 2) == Some(last);
      assert EndsServed(db, r, order, 3);
    }
  }

  lemma DeletionEnds(db: State, r: Request, account: Read, counted: set<Id>, order: seq<Id>)
    requires r.RevokeRole? && RowsOf(db.roles, r.target, r.role) != {}
    ensures var last := Txn(r, Deleted(RowsOf(db.roles, r.target, r.role), counted), account);
            LastOf(db, Txn(r, Allowed(counted), account), order, 1) == Some(last)
  {
    hide RowsOf, ActiveAdminRows;
    var last := Txn(r, Deleted(RowsOf(db.roles, r.target, r.role), counted), account);
    assert LastOf(db, last, order, 0) == Some(last);
  }

  lemma AcceptedIsServed(db: State, r: Request, order: seq<Id>)
    requires Serve(db, r).reply == Accepted && Lists(order, ActiveAdminRows(db.users, db.roles))
    ensures CommitsServed(db, r, order)
  {
    hide Serve, Lists, ActiveAdminRows, CommitsServed;
    match r
    case GrantRole(_, _, _, _, _) => GrantServed(db, r, order);
    case RevokeRole(_, _, _, _) => RevokeServed(db, r, order);
    case SetActiveRole(_, _) => SwitchServed(db, r, order);
    case UpdateProfile(_, _) => ProfileServed(db, r, order);
    case CreateApplication(_, _, _, _) => ApplicationServed(db, r, order);
    case ReviewApplication(_, _, _, _, _, _) => VerdictServed(db, r, order);
  }

  lemma OneMoreKey(rest: seq<Id>, rows: set<Id>, top: Id)
    requires Lists(rest, rows) && forall pk :: pk in rows ==> pk < top
    ensures Lists(rest + [top], rows + {top})
  {
    var order := rest + [top];
    assert Keys(rest) == rows;
    forall i | 0 <= i < |rest|
      ensures rest[i] < top
    {
      assert rest[i] in Keys(rest);
    }
    forall pk
      ensures pk in Keys(order) <==> pk in rows + {top}
    {
      assert pk in Keys(rest) <==> pk in rest;
    }
    assert Keys(order) == rows + {top};
  }

  /** The rows of a set in key order. */
  lemma {:induction false} InOrder(rows: set<Id>) returns (order: seq<Id>)
    ensures Lists(order, rows)
    decreases |rows|
  {
    if rows == {} {
      order := [];
    } else {
      var top := Greatest(rows);
      order := InOrder(rows - {top});
      hide Lists;
      OneMoreKey(order, rows - {top}, top);
      order := order + [top];
      assert rows - {top} + {top} == rows;
    }
  }

  lemma {:induction false} Greatest(rows: set<Id>) returns (top: Id)
    requires rows != {}
    ensures top in rows && forall pk :: pk in rows ==> pk <= top
    decreases |rows|
  {
    var some :| some in rows;
    if rows == {some} {
      top := some;
    } else {
      var other := Greatest(rows - {some});
      top := if some < other then other else some;
      assert forall pk :: pk in rows && pk != some ==> pk in rows - {some};
    }
  }

  lemma RefusedLeavesAll(db: State, r: Request)
    ensures Serve(db, r).reply != Accepted ==> Serve(db, r).state == db
  {
    hide Holds, NicknameTaken, Blocked, NameTaken, ActiveAdminRows, RowsOf;
  }

  lemma OneServed(run: seq<Sys>, db: State, r: Request) returns (longer: seq<Sys>)
    requires Run(run) && run[|run| - 1] == Idle(db)
    ensures Run(longer) && longer[0] == run[0] && longer[|longer| - 1] == Idle(Serve(db, r).state)
  {
    hide Run, Moves, One, Idle, Serve, Committed, LastOf, Lists, ActiveAdminRows;
    if Serve(db, r).reply == Accepted {
      var order := InOrder(ActiveAdminRows(db.users, db.roles));
      AcceptedIsServed(db, r, order);
      var steps: nat :| EndsServed(db, r, order, steps);
      Opens(db, r);
      longer := Then(run, One(db, Txn(r, Begun, Nothing), map[]));
      longer := Drives(longer, db, Txn(r, Begun, Nothing), map[], order, steps);
    } else {
      RefusedLeavesAll(db, r);
      longer := run;
    }
  }

  /** What any requests leave one after the other, from any sound state, some interleaved run leaves too. */
  lemma {:induction false} SerialRunIsARun(db: State, rs: seq<Request>) returns (run: seq<Sys>)
    requires TablesHold(db)
    ensures Run(run) && run[0] == Idle(db) && run[|run| - 1] == Idle(ServeAll(db, rs))
    decreases |rs|
  {
    if rs == [] {
      IdleRun(db);
      run := [Idle(db)];
    } else {
      hide Run, Serve, TablesHold, Idle;
      run := SerialRunIsARun(db, rs[..|rs| - 1]);
      run := OneServed(run, ServeAll(db, rs[..|rs| - 1]), rs[|rs| - 1]);
    }
  }
}
