/**
 Any number of transactions, and of calls that take no lock, running at once. A step is one
 statement of one of them; the lock table says who may take the next one.
 */
module Interleaving {
  import opened Common
  import opened Tables
  import opened Services
  import opened Statements
  import opened Evolution
  import opened Transactions
  import opened Alone
  import opened Frames

  type Tid = nat

  type OpenTxn = t: Txn | Loaded(t) witness Begin(DeleteAdvice(0, 0))

  /** The calls that read, check and write in separate autocommitted statements, without a lock. */
  datatype Plain =
    | Authoring(newId: Id, concern: Id, advisor: Id, data: Body, submit: bool, now: nat, pc: nat)
    | Rating(newId: Id, advice: Id, author: Id, score: nat, content: string, pc: nat)
    | Withdrawing(user: Id, concern: Id, now: nat, pc: nat)
    // `read` is the status its check saw; it means nothing before that
    | Moving(feedback: Id, actor: Id, target: FeedbackStatus, memo: Option<string>, now: nat, read: FeedbackStatus, pc: nat)

  datatype PlainMove = Continue | Drop | Emit(write: Write)

  function NextPlain(db: Db, p: Plain): PlainMove {
    match p
    case Authoring(newId, concern, advisor, data, submit, now, pc) =>
      if pc == 0 then
        if concern !in db.concerns || db.concerns[concern].deletedAt.Some? then Drop else Continue
      else if pc == 1 then
        if !AssignmentSlotTaken(db.assignments, concern, advisor) || Guidance !in data then Drop else Continue
      else if newId in db.advices || AdviceSlotTaken(db.advices, concern, advisor) then Drop
      else Emit(InsertAdvice(newId, NewAdvice(concern, advisor, data, submit, now)))
    case Rating(newId, advice, author, score, content, pc) =>
      if pc == 0 then if MayRate(db, advice, author) then Continue else Drop
      else if newId in db.feedbacks || HasFeedback(db.feedbacks, advice) then Drop
      else Emit(InsertFeedback(newId, NewFeedback(advice, author, score, content)))
    case Withdrawing(user, concern, now, pc) =>
      if pc == 0 then
        if concern in db.concerns && db.concerns[concern].author == user && db.concerns[concern].deletedAt.None?
        then Continue else Drop
      else Emit(SetDeletedAt(concern, Some(now)))
    case Moving(f, actor, target, memo, now, _, pc) =>
      if pc == 0 then
        if f in db.feedbacks && FeedbackEdge(db.feedbacks[f].status, target) then Continue else Drop
      else Emit(SetFeedback(f, target, if target == Reviewed then Some((actor, now)) else None, memo))
  }

  /** The same call after a check that passed here. */
  function Resumed(db: Db, p: Plain): Plain {
    if p.Moving? && p.feedback in db.feedbacks
    then Moving(p.feedback, p.actor, p.target, p.memo, p.now, db.feedbacks[p.feedback].status, p.pc + 1)
    else p.(pc := p.pc + 1)
  }

  predicate MayRate(db: Db, advice: Id, author: Id) {
    && advice in db.advices && db.advices[advice].concern in db.concerns
    && db.concerns[db.advices[advice].concern].author == author
    && db.concerns[db.advices[advice].concern].deletedAt.None?
    && db.advices[advice].status == Approved
  }

  /** `used` are the keys the id supply has handed out. */
  datatype Sys = Sys(db: Db, open: map<Tid, OpenTxn>, plain: map<Tid, Plain>, locks: map<Lock, Tid>,
                     used: set<Id>, log: seq<Event>)

  function Start(advisors: set<Id>): Sys { Sys(EmptyDb(advisors), map[], map[], map[], {}, []) }

  datatype Step =
    | OpenCall(tid: Tid, call: Call)
    | Advance(tid: Tid)
    | Abort(tid: Tid)
    | OpenPlain(tid: Tid, job: Plain)
    | AdvancePlain(tid: Tid)
    | Single(write: Write)

  /** An UPDATE waits while somebody holds the row. */
  predicate RowFree(s: Sys, w: Write) {
    w.SetDeletedAt? || w.SetConcernStatus? ==> ConcernRow(w.concern) !in s.locks
  }

  predicate Enabled(s: Sys, step: Step) {
    match step
    case OpenCall(tid, call) => tid !in s.open && (call.AssignAdvisor? ==> call.newId !in s.used)
    case Advance(tid) => tid in s.open && (Wants(s.open[tid]).Some? ==> Wants(s.open[tid]).value !in s.locks)
    case Abort(tid) => tid in s.open
    case OpenPlain(tid, job) => tid !in s.plain && job.pc == 0
    case AdvancePlain(tid) =>
      && tid in s.plain
      && (NextPlain(s.db, s.plain[tid]).Emit? ==> RowFree(s, NextPlain(s.db, s.plain[tid]).write))
    // create_concern, and the three admin actions row by row
    case Single(w) =>
      && Admissible(s.db, w) && RowFree(s, w)
      && (|| w.InsertConcern? || w.SetConcernStatus?
          || (w.SetDeletedAt? && (w.deletedAt.Some? <==> s.db.concerns[w.concern].deletedAt.None?)))
  }

  function Release(locks: map<Lock, Tid>, tid: Tid): map<Lock, Tid> {
    locks - set l | l in locks && locks[l] == tid
  }

  function Close(s: Sys, tid: Tid): Sys {
    s.(open := s.open - {tid}, locks := Release(s.locks, tid))
  }

  function After(s: Sys, step: Step): Sys
    requires Enabled(s, step)
  {
    match step
    case OpenCall(tid, call) =>
      s.(open := s.open[tid := Begin(call)], used := if call.AssignAdvisor? then s.used + {call.newId} else s.used)
    case Advance(tid) =>
      var t := s.open[tid];
      (match Next(s.db, t)
       case Go(u) =>
         s.(open := s.open[tid := u],
            locks := if Wants(t).Some? then s.locks[Wants(t).value := tid] else s.locks)
       case Raise(e) => Close(s, tid).(log := s.log + [Called(t.call, Refused(e))])
       case Commit => Close(s, tid).(db := ApplyAll(s.db, t.writes), log := s.log + [Called(t.call, Accepted)]))
    case Abort(tid) => Close(s, tid)
    case OpenPlain(tid, job) => s.(plain := s.plain[tid := job])
    case AdvancePlain(tid) =>
      (match NextPlain(s.db, s.plain[tid])
       case Continue => s.(plain := s.plain[tid := Resumed(s.db, s.plain[tid])])
       case Drop => s.(plain := s.plain - {tid})
       case Emit(w) => s.(plain := s.plain - {tid}, db := Apply(s.db, w), log := s.log + [Stated(w)]))
    case Single(w) => s.(db := Apply(s.db, w), log := s.log + [Stated(w)])
  }

  // --- what holds of every reachable state ---

  /** What an open transaction read is what it would read now: it is as if it had run alone, just now. */
  ghost predicate AsIfAlone(db: Db, open: map<Tid, OpenTxn>) {
    forall tid :: tid in open ==> Solo(db, open[tid].call, open[tid].pc) == Some(open[tid])
  }

  /** The lock table and the transactions agree on who holds what. */
  ghost predicate LocksMatch(open: map<Tid, OpenTxn>, locks: map<Lock, Tid>) {
    && (forall tid, l :: tid in open && l in Held(open[tid]) ==> l in locks && locks[l] == tid)
    && (forall l :: l in locks ==> locks[l] in open && l in Held(open[locks[l]]))
  }

  /** A key handed out for an assignment belongs to one call and to no row yet. */
  ghost predicate KeysReserved(db: Db, open: map<Tid, OpenTxn>, used: set<Id>) {
    && (forall i :: i in db.assignments ==> i in used)
    && (forall tid :: tid in open ==> KeyFree(db, open[tid].call))
    && (forall tid :: tid in open && open[tid].call.AssignAdvisor? ==> open[tid].call.newId in used)
    && (forall tid, uid :: tid in open && uid in open && tid != uid
                           && open[tid].call.AssignAdvisor? && open[uid].call.AssignAdvisor? ==>
          open[tid].call.newId != open[uid].call.newId)
  }

  /** The part of an unlocked check that cannot be undone. */
  predicate StillTrue(db: Db, p: Plain) {
    match p
    case Authoring(_, concern, advisor, _, _, _, pc) =>
      (pc >= 1 ==> concern in db.concerns) && (pc >= 2 ==> EverAssignedTo(db.assignments, concern, advisor))
    case Rating(_, advice, author, _, _, pc) =>
      pc >= 1 ==>
        && advice in db.advices && db.advices[advice].status == Approved
        && db.advices[advice].concern in db.concerns && db.concerns[db.advices[advice].concern].author == author
    case Withdrawing(_, concern, _, pc) => pc >= 1 ==> concern in db.concerns
    case Moving(f, _, target, _, _, read, pc) => pc >= 1 ==> f in db.feedbacks && FeedbackEdge(read, target)
  }

  ghost predicate PlainsHold(db: Db, plain: map<Tid, Plain>) {
    forall tid :: tid in plain ==> StillTrue(db, plain[tid])
  }

  /** The committed database is what the log leaves when its events run one at a time. */
  ghost predicate Serial(db: Db, log: seq<Event>) {
    Faithful(EmptyDb(db.advisors), log) && db == Replay(EmptyDb(db.advisors), log)
  }

  ghost predicate Consistent(s: Sys) {
    && AsIfAlone(s.db, s.open)
    && LocksMatch(s.open, s.locks)
    && KeysReserved(s.db, s.open, s.used)
    && PlainsHold(s.db, s.plain)
    && Serial(s.db, s.log)
  }

  lemma StartIsConsistent(advisors: set<Id>)
    ensures Consistent(Start(advisors))
  {}

  lemma LogOneMore(db: Db, log: seq<Event>, e: Event)
    requires Serial(db, log) && Happens(db, e) && Effect(db, e).advisors == db.advisors
    ensures Serial(Effect(db, e), log + [e])
  {
    assert (log + [e])[..|log|] == log;
  }

  lemma ClosingLocks(open: map<Tid, OpenTxn>, locks: map<Lock, Tid>, tid: Tid)
    requires tid in open && LocksMatch(open, locks)
    ensures LocksMatch(open - {tid}, Release(locks, tid))
  {}

  /** A change that leaves every held row alone leaves every open transaction as if it ran alone. */
  lemma OthersUnmoved(db: Db, after: Db, open: map<Tid, OpenTxn>)
    requires AsIfAlone(db, open) && db.advisors == after.advisors
    requires forall tid :: tid in open ==> KeyFree(db, open[tid].call) && KeyFree(after, open[tid].call)
    requires forall tid, l :: tid in open && l in Held(open[tid]) ==> Agrees(db, after, l)
    ensures AsIfAlone(after, open)
  {
    forall tid | tid in open
      ensures Solo(after, open[tid].call, open[tid].pc) == Some(open[tid])
    {
      hide Agrees, Held;
      SoloFrame(db, after, open[tid].call, open[tid].pc, open[tid]);
    }
  }

  lemma PlainsMoveOn(db: Db, after: Db, plain: map<Tid, Plain>)
    requires PlainsHold(db, plain) && Evolves(db, after)
    ensures PlainsHold(after, plain)
  {
    forall tid | tid in plain
      ensures StillTrue(after, plain[tid])
    {
      PlainMovesOn(db, after, plain[tid]);
    }
  }

  lemma PlainMovesOn(db: Db, after: Db, p: Plain)
    requires StillTrue(db, p) && Evolves(db, after)
    ensures StillTrue(after, p)
  {
    match p
    case Authoring(_, concern, advisor, _, _, _, pc) =>
      EverAssignedStays(db.assignments, after.assignments, concern, advisor);
    case Rating(_, advice, author, _, _, pc) =>
      if pc >= 1 { assert AdviceEvolves(db.advices[advice], after.advices[advice]); }
    case Withdrawing(_, _, _, _) =>
    case Moving(_, _, _, _, _, _, _) =>
  }

  // --- one step ---

  lemma OpenCallKeeps(s: Sys, tid: Tid, call: Call)
    requires Consistent(s) && Enabled(s, OpenCall(tid, call))
    ensures Consistent(After(s, OpenCall(tid, call)))
  {
    hide Serial, PlainsHold, KeysReserved, AsIfAlone, LocksMatch, Held, Wants, Next, Solo;
    OpenCallKeepsKeys(s, tid, call);
    OpenCallKeepsAlone(s, tid, call);
    OpenCallKeepsLocks(s, tid, call);
  }

  lemma OpenCallKeepsLocks(s: Sys, tid: Tid, call: Call)
    requires LocksMatch(s.open, s.locks) && tid !in s.open
    ensures LocksMatch(s.open[tid := Begin(call)], s.locks)
  {
    assert Held(Begin(call)) == {};
    hide Held;
  }

  lemma OpenCallKeepsKeys(s: Sys, tid: Tid, call: Call)
    requires KeysReserved(s.db, s.open, s.used) && Enabled(s, OpenCall(tid, call))
    ensures KeysReserved(s.db, After(s, OpenCall(tid, call)).open, After(s, OpenCall(tid, call)).used)
  {}

  lemma OpenCallKeepsAlone(s: Sys, tid: Tid, call: Call)
    requires AsIfAlone(s.db, s.open) && tid !in s.open
    ensures AsIfAlone(s.db, s.open[tid := Begin(call)])
  {
    assert Solo(s.db, call, 0) == Some(Begin(call));
  }

  lemma SoloGoesOn(db: Db, t: OpenTxn, u: Txn)
    requires Solo(db, t.call, t.pc) == Some(t) && Next(db, t) == Go(u)
    ensures Solo(db, u.call, u.pc) == Some(u)
  {
    assert u.call == t.call && u.pc == t.pc + 1;
    hide Next;
  }

  lemma GoKeepsAlone(s: Sys, tid: Tid, u: OpenTxn)
    requires AsIfAlone(s.db, s.open) && tid in s.open && Next(s.db, s.open[tid]) == Go(u)
    ensures AsIfAlone(s.db, s.open[tid := u])
  {
    hide Next, Solo;
    SoloGoesOn(s.db, s.open[tid], u);
  }

  lemma GoKeepsLocks(s: Sys, tid: Tid, u: Txn)
    requires LocksMatch(s.open, s.locks) && Enabled(s, Advance(tid)) && Next(s.db, s.open[tid]) == Go(u)
    ensures LocksMatch(s.open[tid := u],
                       if Wants(s.open[tid]).Some? then s.locks[Wants(s.open[tid]).value := tid] else s.locks)
  {
    var t: Txn := s.open[tid];
    assert Held(u) == Held(t) + if Wants(t).Some? then {Wants(t).value} else {};
    hide Held, Next, Wants;
  }

  lemma GoKeepsKeys(s: Sys, tid: Tid, u: OpenTxn)
    requires KeysReserved(s.db, s.open, s.used) && tid in s.open && u.call == s.open[tid].call
    ensures KeysReserved(s.db, s.open[tid := u], s.used)
  {}

  lemma GoKeeps(s: Sys, tid: Tid, u: Txn)
    requires Consistent(s) && Enabled(s, Advance(tid)) && Next(s.db, s.open[tid]) == Go(u)
    ensures Consistent(After(s, Advance(tid)))
  {
    assert u.call == s.open[tid].call;
    hide Serial, PlainsHold, AsIfAlone, LocksMatch, KeysReserved, Next, Wants;
    GoKeepsAlone(s, tid, u);
    GoKeepsLocks(s, tid, u);
    GoKeepsKeys(s, tid, u);
  }

  lemma CloseKeeps(s: Sys, tid: Tid)
    requires Consistent(s) && tid in s.open
    ensures Consistent(Close(s, tid))
  {
    hide Serial, PlainsHold, LocksMatch;
    ClosingLocks(s.open, s.locks, tid);
  }

  lemma RaiseKeeps(s: Sys, tid: Tid, e: Error)
    requires Consistent(s) && Enabled(s, Advance(tid)) && Next(s.db, s.open[tid]) == Raise(e)
    ensures Consistent(After(s, Advance(tid)))
    ensures Exec(s.db, s.open[tid].call) == Outcome(s.db, Refused(e))
  {
    var t := s.open[tid];
    SoloIsExec(s.db, t.call, t.pc, t);
    CloseKeeps(s, tid);
    hide PlainsHold, LocksMatch, AsIfAlone, KeysReserved, Exec, Next, Serial;
    LogOneMore(s.db, s.log, Called(t.call, Refused(e)));
  }

  lemma CommitIsExec(s: Sys, tid: Tid)
    requires AsIfAlone(s.db, s.open) && tid in s.open && Next(s.db, s.open[tid]) == Commit
    ensures Exec(s.db, s.open[tid].call) == Outcome(ApplyAll(s.db, s.open[tid].writes), Accepted)
    ensures Held(s.open[tid]) == Touches(s.db, s.open[tid].call)
  {
    var t := s.open[tid];
    SoloIsExec(s.db, t.call, t.pc, t);
    CommitHoldsAll(s.db, t.call, t.pc, t);
  }

  lemma OnlyItsKey(db: Db, call: Call, i: Id)
    requires i in Exec(db, call).db.assignments && i !in db.assignments
    ensures call.AssignAdvisor? && i == call.newId
  {
    hide NothingNew, Edited, Decided, ReviewError, HasActive, AssignmentSlotTaken, EverAssigned;
  }

  lemma CommitKeepsKeys(s: Sys, tid: Tid)
    requires KeysReserved(s.db, s.open, s.used) && tid in s.open
    ensures KeysReserved(Exec(s.db, s.open[tid].call).db, s.open - {tid}, s.used)
  {
    var t := s.open[tid];
    var after := Exec(s.db, t.call).db;
    hide Exec;
    forall i | i in after.assignments && i !in s.db.assignments
      ensures t.call.AssignAdvisor? && i == t.call.newId
    {
      OnlyItsKey(s.db, t.call, i);
    }
  }

  /** What one transaction holds, no other holds. */
  lemma HeldApart(open: map<Tid, OpenTxn>, locks: map<Lock, Tid>, tid: Tid, touched: set<Lock>)
    requires LocksMatch(open, locks) && tid in open && touched == Held(open[tid])
    ensures forall uid, l :: uid in open - {tid} && l in Held(open[uid]) ==> l !in touched
  {
    hide Held;
    forall uid, l | uid in open - {tid} && l in Held(open[uid])
      ensures l !in touched
    {
      assert locks[l] == uid;
    }
  }

  lemma KeysAreFree(db: Db, open: map<Tid, OpenTxn>, used: set<Id>)
    requires KeysReserved(db, open, used)
    ensures forall tid :: tid in open ==> KeyFree(db, open[tid].call)
  {}

  lemma CommitKeepsOthers(s: Sys, tid: Tid)
    requires AsIfAlone(s.db, s.open) && LocksMatch(s.open, s.locks) && KeysReserved(s.db, s.open, s.used)
    requires tid in s.open && Held(s.open[tid]) == Touches(s.db, s.open[tid].call)
    ensures AsIfAlone(Exec(s.db, s.open[tid].call).db, s.open - {tid})
  {
    var t := s.open[tid];
    var after := Exec(s.db, t.call).db;
    CommitKeepsKeys(s, tid);
    KeysAreFree(s.db, s.open, s.used);
    KeysAreFree(after, s.open - {tid}, s.used);
    AdvisorsStay(s.db, t.call);
    HeldApart(s.open, s.locks, tid, Touches(s.db, t.call));
    hide Exec, Held, Touches, Agrees, KeysReserved, LocksMatch, Solo;
    forall uid, l | uid in s.open - {tid} && l in Held(s.open[uid])
      ensures Agrees(s.db, after, l)
    {
      ExecTouches(s.db, t.call, l);
    }
    OthersUnmoved(s.db, after, s.open - {tid});
  }

  lemma AdvisorsStay(db: Db, call: Call)
    ensures Exec(db, call).db.advisors == db.advisors
  {
    hide NothingNew, Edited, Decided, ReviewError, HasActive, AssignmentSlotTaken, EverAssigned;
  }

  lemma CommitKeeps(s: Sys, tid: Tid)
    requires Consistent(s) && Enabled(s, Advance(tid)) && Next(s.db, s.open[tid]) == Commit
    ensures Consistent(After(s, Advance(tid)))
  {
    var t := s.open[tid];
    CommitIsExec(s, tid);
    CommitKeepsOthers(s, tid);
    CommitKeepsKeys(s, tid);
    AdvisorsStay(s.db, t.call);
    hide AsIfAlone, KeysReserved, Exec, Next, Serial, Held, Touches, PlainsHold, LocksMatch;
    ClosingLocks(s.open, s.locks, tid);
    LogOneMore(s.db, s.log, Called(t.call, Accepted));
    EventEvolves(s.db, Called(t.call, Accepted));
    PlainsMoveOn(s.db, Exec(s.db, t.call).db, s.plain);
  }

  /** A locked row is there. */
  lemma HeldIsThere(db: Db, t: OpenTxn, l: Lock)
    requires Solo(db, t.call, t.pc) == Some(t) && l in Held(t)
    ensures match l case AdviceRow(a) => a in db.advices case ConcernRow(c) => c in db.concerns
  {
    match t.call
    case UpdateAdvice(_, _, _, _) => UpdateAdviceSteps(db, t.call, t.pc, t);
    case DeleteAdvice(_, _) => DeleteAdviceSteps(db, t.call, t.pc, t);
    case ReviewAdvice(_, _, _, _, _, _) => ReviewAdviceSteps(db, t.call, t.pc, t);
    case AssignAdvisor(_, _, _, _, _, _) => AssignAdvisorSteps(db, t.call, t.pc, t);
    case UnassignAdvisor(_, _, _) => UnassignAdvisorSteps(db, t.call, t.pc, t);
    case UpdateConcern(_, _, _) => UpdateConcernSteps(db, t.call, t.pc, t);
  }

  lemma StatementAgrees(db: Db, w: Write, l: Lock)
    requires Admissible(db, w)
    requires match l case AdviceRow(a) => a in db.advices case ConcernRow(c) => c in db.concerns
    requires (w.SetDeletedAt? || w.SetConcernStatus?) ==> l != ConcernRow(w.concern)
    ensures Agrees(db, Apply(db, w), l)
  {
    hide AdviceSlotTaken, EverAssignedTo, HasFeedback;
  }

  lemma StatementQuiet(db: Db, w: Write)
    requires Admissible(db, w)
    ensures Apply(db, w).assignments == db.assignments && Apply(db, w).advisors == db.advisors
  {
    hide AdviceSlotTaken, EverAssignedTo, HasFeedback;
  }

  /** A statement writes no row that a transaction holds. */
  lemma StatementMissesHeld(s: Sys, w: Write, uid: Tid, l: Lock)
    requires AsIfAlone(s.db, s.open) && LocksMatch(s.open, s.locks) && Admissible(s.db, w) && RowFree(s, w)
    requires uid in s.open && l in Held(s.open[uid])
    ensures Agrees(s.db, Apply(s.db, w), l)
  {
    hide Apply, Admissible, Agrees, Solo, Held;
    HeldIsThere(s.db, s.open[uid], l);
    StatementAgrees(s.db, w, l);
  }

  lemma StatementMissesOthers(s: Sys, w: Write)
    requires AsIfAlone(s.db, s.open) && LocksMatch(s.open, s.locks) && KeysReserved(s.db, s.open, s.used)
    requires Admissible(s.db, w) && RowFree(s, w)
    ensures AsIfAlone(Apply(s.db, w), s.open)
  {
    StatementQuiet(s.db, w);
    KeysAreFree(s.db, s.open, s.used);
    hide Apply, Admissible, Agrees, Solo, Held, KeysReserved, LocksMatch, RowFree;
    forall uid, l | uid in s.open && l in Held(s.open[uid])
      ensures Agrees(s.db, Apply(s.db, w), l)
    {
      StatementMissesHeld(s, w, uid, l);
    }
    OthersUnmoved(s.db, Apply(s.db, w), s.open);
  }

  lemma StatementKeepsAll(s: Sys, w: Write)
    requires Consistent(s) && Admissible(s.db, w) && RowFree(s, w)
    ensures Consistent(s.(db := Apply(s.db, w), log := s.log + [Stated(w)]))
  {
    var after := Apply(s.db, w);
    StatementQuiet(s.db, w);
    hide Apply, Admissible, Serial, PlainsHold, AsIfAlone, LocksMatch, RowFree;
    StatementMissesOthers(s, w);
    LogOneMore(s.db, s.log, Stated(w));
    EventEvolves(s.db, Stated(w));
    PlainsMoveOn(s.db, after, s.plain);
  }

  lemma EmitIsAdmissible(db: Db, p: Plain)
    requires StillTrue(db, p) && NextPlain(db, p).Emit?
    ensures Admissible(db, NextPlain(db, p).write)
  {}

  lemma ContinueStillTrue(db: Db, p: Plain)
    requires StillTrue(db, p) && NextPlain(db, p).Continue?
    ensures StillTrue(db, Resumed(db, p))
  {
    match p
    case Authoring(_, concern, advisor, _, _, _, pc) =>
      if pc == 1 {
        var i :| i in db.assignments && ActiveFor(db.assignments[i], concern, advisor);
        assert EverAssignedTo(db.assignments, concern, advisor);
      }
    case _ =>
  }

  lemma AdvancePlainKeeps(s: Sys, tid: Tid)
    requires Consistent(s) && Enabled(s, AdvancePlain(tid))
    ensures Consistent(After(s, AdvancePlain(tid)))
  {
    var p := s.plain[tid];
    assert StillTrue(s.db, p);
    hide AsIfAlone, LocksMatch, KeysReserved, Serial, StillTrue, NextPlain;
    match NextPlain(s.db, p)
    case Continue => ContinueStillTrue(s.db, p);
    case Drop =>
    case Emit(w) =>
      EmitIsAdmissible(s.db, p);
      var gone := s.(plain := s.plain - {tid});
      assert PlainsHold(gone.db, gone.plain);
      StatementKeepsAll(gone, w);
  }

  lemma StepKeeps(s: Sys, step: Step)
    requires Consistent(s) && Enabled(s, step)
    ensures Consistent(After(s, step))
  {
    match step
    case OpenCall(tid, call) => OpenCallKeeps(s, tid, call);
    case Advance(tid) =>
      match Next(s.db, s.open[tid]) {
        case Go(u) => GoKeeps(s, tid, u);
        case Raise(e) => RaiseKeeps(s, tid, e);
        case Commit => CommitKeeps(s, tid);
      }
    case Abort(tid) => CloseKeeps(s, tid);
    case OpenPlain(tid, job) => hide AsIfAlone, LocksMatch, KeysReserved, Serial;
    case AdvancePlain(tid) => AdvancePlainKeeps(s, tid);
    case Single(w) => StatementKeepsAll(s, w);
  }
}
