/** Nobody waits in a circle, and whatever is open can always be finished. */
module Waiting {
  import opened Common
  import opened Tables
  import opened Services
  import opened Statements
  import opened Transactions
  import opened Alone
  import opened Interleaving
  import opened Runs

  /** `t` is about to select a row that `u` holds. */
  predicate WaitsFor(s: Sys, t: Tid, u: Tid) {
    && t in s.open && u in s.open
    && Wants(s.open[t]).Some? && Wants(s.open[t]).value in s.locks && s.locks[Wants(s.open[t]).value] == u
  }

  /** Advice rows are taken before concern rows, and nothing is taken after a concern row. */
  lemma LockOrder(t: OpenTxn)
    ensures Wants(t).Some? && Wants(t).value.AdviceRow? ==> Held(t) == {}
    ensures Wants(t).Some? && Wants(t).value.ConcernRow? ==> forall l :: l in Held(t) ==> l.AdviceRow?
    ensures forall l, m :: l in Held(t) && m in Held(t) && l.ConcernRow? == m.ConcernRow? ==> l == m
  {}

  lemma WaitsAreShort(s: Sys, t: Tid, u: Tid, v: Tid)
    requires LocksMatch(s.open, s.locks) && WaitsFor(s, t, u) && WaitsFor(s, u, v)
    ensures Wants(s.open[t]).value.AdviceRow? && Wants(s.open[u]).value.ConcernRow?
    ensures Wants(s.open[v]).None?
  {
    var l, m := Wants(s.open[t]).value, Wants(s.open[u]).value;
    LockOrder(s.open[u]);
    LockOrder(s.open[v]);
    assert l in Held(s.open[u]) && m in Held(s.open[v]);
  }

  ghost predicate Chain(s: Sys, ts: seq<Tid>) {
    forall i, j :: 0 <= i < j < |ts| && j == i + 1 ==> WaitsFor(s, ts[i], ts[j])
  }

  lemma ChainsAreShort(s: Sys, ts: seq<Tid>)
    requires LocksMatch(s.open, s.locks) && |ts| > 3
    ensures !Chain(s, ts)
  {
    if Chain(s, ts) {
      var t, u, v, w := ts[0], ts[1], ts[2], ts[3];
      assert WaitsFor(s, t, u) && WaitsFor(s, u, v) && WaitsFor(s, v, w);
      WaitsAreShort(s, t, u, v);
    }
  }

  /** A chain of waits has at most three transactions and never closes, however many are open. */
  lemma NoCircle(s: Sys, ts: seq<Tid>)
    requires LocksMatch(s.open, s.locks) && Chain(s, ts) && |ts| > 1
    ensures |ts| <= 3 && !WaitsFor(s, ts[|ts| - 1], ts[0])
  {
    if |ts| > 3 {
      ChainsAreShort(s, ts);
    } else if |ts| == 3 {
      var t, u, v := ts[0], ts[1], ts[2];
      assert WaitsFor(s, t, u) && WaitsFor(s, u, v);
      WaitsAreShort(s, t, u, v);
    } else if WaitsFor(s, ts[1], ts[0]) {
      var t, u := ts[0], ts[1];
      assert WaitsFor(s, t, u);
      WaitsAreShort(s, t, u, t);
    }
  }

  // --- everything open can be finished ---

  ghost predicate ConcernHeld(s: Sys) { exists l :: l in s.locks && l.ConcernRow? }

  ghost predicate AnyHeld(s: Sys) { s.locks != map[] }

  /** Nothing `tid` will still ask for is held by anybody else. */
  ghost predicate Unhindered(s: Sys, tid: Tid)
    requires tid in s.open
  {
    || (exists l :: l in Held(s.open[tid]) && l.ConcernRow?)
    || (!ConcernHeld(s) && (Held(s.open[tid]) != {} || !AnyHeld(s)))
  }

  lemma SomeoneIsUnhindered(s: Sys) returns (tid: Tid)
    requires LocksMatch(s.open, s.locks) && s.open != map[]
    ensures tid in s.open && Unhindered(s, tid)
  {
    if l :| l in s.locks && l.ConcernRow? {
      tid := s.locks[l];
    } else if s.locks != map[] {
      var m :| m in s.locks;
      tid := s.locks[m];
    } else {
      tid :| tid in s.open;
    }
  }

  lemma UnhinderedCanMove(s: Sys, tid: Tid)
    requires LocksMatch(s.open, s.locks) && tid in s.open && Unhindered(s, tid)
    ensures Enabled(s, Advance(tid))
  {
    LockOrder(s.open[tid]);
  }

  lemma StaysUnhindered(s: Sys, tid: Tid, u: Txn)
    requires LocksMatch(s.open, s.locks) && tid in s.open && Unhindered(s, tid)
    requires Enabled(s, Advance(tid)) && Next(s.db, s.open[tid]) == Go(u)
    ensures Unhindered(After(s, Advance(tid)), tid)
  {
    var t := s.open[tid];
    var after := After(s, Advance(tid));
    LockOrder(t);
    assert after.open[tid] == u;
    assert Held(u) == Held(t) + if Wants(t).Some? then {Wants(t).value} else {};
    if l :| l in Held(t) && l.ConcernRow? {
      assert l in Held(u);
    } else if Wants(t).Some? {
      assert Wants(t).value in Held(u);
    }
  }

  lemma StatementsAreFew(db: Db, t: OpenTxn)
    requires Solo(db, t.call, t.pc) == Some(t)
    ensures t.pc <= 5
  {
    match t.call
    case UpdateAdvice(_, _, _, _) => UpdateAdviceSteps(db, t.call, t.pc, t);
    case DeleteAdvice(_, _) => DeleteAdviceSteps(db, t.call, t.pc, t);
    case ReviewAdvice(_, _, _, _, _, _) => ReviewAdviceSteps(db, t.call, t.pc, t);
    case AssignAdvisor(_, _, _, _, _, _) => AssignAdvisorSteps(db, t.call, t.pc, t);
    case UnassignAdvisor(_, _, _) => UnassignAdvisorSteps(db, t.call, t.pc, t);
    case UpdateConcern(_, _, _) => UpdateConcernSteps(db, t.call, t.pc, t);
  }

  /** A schedule: which transaction runs its next statement, one after the other. */
  ghost predicate Drives(s: Sys, schedule: seq<Tid>, end: Sys)
    decreases |schedule|
  {
    if schedule == [] then end == s
    else Enabled(s, Advance(schedule[0])) && Drives(After(s, Advance(schedule[0])), schedule[1..], end)
  }

  lemma {:induction false} DrivesOn(s: Sys, first: seq<Tid>, mid: Sys, second: seq<Tid>, end: Sys)
    requires Drives(s, first, mid) && Drives(mid, second, end)
    ensures Drives(s, first + second, end)
    decreases |first|
  {
    hide Enabled, After;
    if first == [] {
      assert first + second == second;
    } else {
      assert (first + second)[0] == first[0] && (first + second)[1..] == first[1..] + second;
      DrivesOn(After(s, Advance(first[0])), first[1..], mid, second, end);
    }
  }

  lemma DrivesFirst(s: Sys, tid: Tid, rest: seq<Tid>, end: Sys)
    requires Enabled(s, Advance(tid)) && Drives(After(s, Advance(tid)), rest, end)
    ensures Drives(s, [tid] + rest, end)
  {
    assert ([tid] + rest)[1..] == rest;
  }

  /** What a call leaves, and nothing else, once it has finished. */
  ghost predicate Finished(s: Sys, tid: Tid, end: Sys)
    requires tid in s.open
  {
    && end.open == s.open - {tid} && end.plain == s.plain && end.used == s.used
    && end.db == Exec(s.db, s.open[tid].call).db
  }

  lemma LastStatement(s: Sys, tid: Tid)
    requires Consistent(s) && Enabled(s, Advance(tid)) && !Next(s.db, s.open[tid]).Go?
    ensures Finished(s, tid, After(s, Advance(tid)))
  {
    if Next(s.db, s.open[tid]).Raise? {
      RaiseKeeps(s, tid, Next(s.db, s.open[tid]).error);
    } else {
      CommitIsExec(s, tid);
    }
    hide Next, Exec, Consistent, ApplyAll, Release;
  }

  lemma OneStatement(s: Sys, tid: Tid)
    requires Enabled(s, Advance(tid)) && Next(s.db, s.open[tid]).Go?
    ensures var after := After(s, Advance(tid));
            && tid in after.open && after.open[tid].pc == s.open[tid].pc + 1 && after.open[tid].call == s.open[tid].call
            && after.open - {tid} == s.open - {tid} && after.plain == s.plain && after.used == s.used && after.db == s.db
  {}

  lemma {:induction false} FinishOne(s: Sys, tid: Tid) returns (schedule: seq<Tid>, end: Sys)
    requires Consistent(s) && tid in s.open && Unhindered(s, tid)
    ensures Drives(s, schedule, end) && Consistent(end) && Finished(s, tid, end)
    decreases 5 - s.open[tid].pc
  {
    UnhinderedCanMove(s, tid);
    StepKeeps(s, Advance(tid));
    StatementsAreFew(s.db, s.open[tid]);
    var after := After(s, Advance(tid));
    if Next(s.db, s.open[tid]).Go? {
      StaysUnhindered(s, tid, Next(s.db, s.open[tid]).txn);
      OneStatement(s, tid);
      StatementsAreFew(after.db, after.open[tid]);
      hide Consistent, Unhindered, Enabled, After, Next, Exec;
      var rest;
      rest, end := FinishOne(after, tid);
      schedule := [tid] + rest;
      DrivesFirst(s, tid, rest, end);
    } else {
      LastStatement(s, tid);
      hide Consistent, Unhindered, Enabled, After, Next, Finished;
      schedule, end := [tid] + [], after;
      DrivesFirst(s, tid, [], after);
    }
  }

  lemma {:induction false} FinishAll(s: Sys) returns (schedule: seq<Tid>, end: Sys)
    requires Consistent(s)
    ensures Drives(s, schedule, end) && Consistent(end) && end.open == map[]
    decreases |s.open|
  {
    if s.open == map[] {
      schedule, end := [], s;
    } else {
      var tid := SomeoneIsUnhindered(s);
      hide Unhindered, Consistent, Drives;
      var first, mid := FinishOne(s, tid);
      assert mid.open.Keys == s.open.Keys - {tid};
      var second;
      second, end := FinishAll(mid);
      DrivesOn(s, first, mid, second, end);
      schedule := first + second;
    }
  }

  /** From every reachable state, running open transactions alone finishes all of them. */
  lemma EverythingCanFinish(s: Sys)
    requires Consistent(s)
    ensures exists schedule: seq<Tid>, end: Sys :: Drives(s, schedule, end) && end.open == map[]
  {
    var schedule, end := FinishAll(s);
  }

  /** In no run, at no moment, is there a deadlock. */
  lemma NoRunDeadlocks(run: seq<Sys>, i: nat, ts: seq<Tid>)
    requires Run(run) && i < |run|
    ensures Chain(run[i], ts) && |ts| > 1 ==> |ts| <= 3 && !WaitsFor(run[i], ts[|ts| - 1], ts[0])
    ensures exists schedule: seq<Tid>, end: Sys :: Drives(run[i], schedule, end) && end.open == map[]
  {
    RunIsConsistent(run, i);
    hide Run;
    EverythingCanFinish(run[i]);
    hide AsIfAlone, KeysReserved, PlainsHold, Serial, LocksMatch, Drives;
    if Chain(run[i], ts) && |ts| > 1 { NoCircle(run[i], ts); }
  }
}
