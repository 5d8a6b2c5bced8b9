/**
 The six locking calls taken apart into the SQL statements they send, one statement a step. A
 transaction sees what is committed plus its own writes, keeps the rows it locked, and makes its
 writes visible at commit (PostgreSQL's READ COMMITTED with `SELECT ... FOR UPDATE`).
 */
module Transactions {
  import opened Common
  import opened Tables
  import opened Services
  import opened Statements

  datatype Lock = AdviceRow(id: Id) | ConcernRow(id: Id)

  /** An open transaction: the call, the next statement, the rows it loaded, and what it wrote so far. */
  datatype Txn = Txn(call: Call, pc: nat, advice: Option<Advice>, concern: Option<Concern>,
                     active: bool, writes: seq<Write>)

  function Begin(call: Call): Txn { Txn(call, 0, None, None, false, []) }

  datatype Move = Go(txn: Txn) | Raise(error: Error) | Commit

  /** The rows a statement uses have been loaded by the statements before it. */
  predicate Loaded(t: Txn) {
    match t.call
    case UpdateAdvice(_, _, _, _) => t.pc >= 1 ==> t.advice.Some?
    case DeleteAdvice(_, _) => t.pc >= 1 ==> t.advice.Some?
    case ReviewAdvice(_, _, _, _, _, _) => (t.pc >= 1 ==> t.advice.Some?) && (t.pc >= 2 ==> t.concern.Some?)
    case AssignAdvisor(_, _, _, _, _, _) => t.pc >= 2 ==> t.concern.Some?
    case UnassignAdvisor(_, i, now) =>
      (t.pc >= 1 ==> t.concern.Some?) && (t.pc == 3 ==> t.writes == [EndAssignment(i, now)])
    case UpdateConcern(_, _, _) => t.pc >= 1 ==> t.concern.Some?
  }

  /** The row the next statement selects FOR UPDATE. */
  function Wants(t: Txn): Option<Lock>
    requires Loaded(t)
  {
    match t.call
    case UpdateAdvice(a, _, _, _) => if t.pc == 0 then Some(AdviceRow(a)) else None
    case DeleteAdvice(a, _) => if t.pc == 0 then Some(AdviceRow(a)) else None
    case ReviewAdvice(a, _, _, _, _, _) =>
      if t.pc == 0 then Some(AdviceRow(a)) else if t.pc == 1 then Some(ConcernRow(t.advice.value.concern)) else None
    case AssignAdvisor(c, _, _, _, _, _) => if t.pc == 1 then Some(ConcernRow(c)) else None
    case UnassignAdvisor(c, _, _) => if t.pc == 0 then Some(ConcernRow(c)) else None
    case UpdateConcern(_, c, _) => if t.pc == 0 then Some(ConcernRow(c)) else None
  }

  /** The rows locked by the statements before the next one. */
  function Held(t: Txn): set<Lock>
    requires Loaded(t)
  {
    match t.call
    case UpdateAdvice(a, _, _, _) => if t.pc >= 1 then {AdviceRow(a)} else {}
    case DeleteAdvice(a, _) => if t.pc >= 1 then {AdviceRow(a)} else {}
    case ReviewAdvice(a, _, _, _, _, _) =>
      if t.pc >= 2 then {AdviceRow(a), ConcernRow(t.advice.value.concern)} else if t.pc == 1 then {AdviceRow(a)} else {}
    case AssignAdvisor(c, _, _, _, _, _) => if t.pc >= 2 then {ConcernRow(c)} else {}
    case UnassignAdvisor(c, _, _) => if t.pc >= 1 then {ConcernRow(c)} else {}
    case UpdateConcern(_, c, _) => if t.pc >= 1 then {ConcernRow(c)} else {}
  }

  function Then(t: Txn): Txn { t.(pc := t.pc + 1) }

  function Wrote(t: Txn, w: Write): Txn { t.(pc := t.pc + 1, writes := t.writes + [w]) }

  /** The next statement of `t` against the committed tables, with the checks made on its result. */
  function Next(db: Db, t: Txn): (m: Move)
    requires Loaded(t)
    ensures m.Go? ==> Loaded(m.txn) && m.txn.call == t.call && m.txn.pc == t.pc + 1
    ensures m.Go? ==> Held(m.txn) == Held(t) + if Wants(t).Some? then {Wants(t).value} else {}
  {
    match t.call
    case UpdateAdvice(id, actor, data, submit) => NextUpdateAdvice(db, t, id, actor, data, submit)
    case DeleteAdvice(id, actor) => NextDeleteAdvice(db, t, id, actor)
    case ReviewAdvice(id, actor, decision, reason, expected, now) =>
      NextReviewAdvice(db, t, id, actor, decision, reason, expected, now)
    case AssignAdvisor(concern, actor, advisor, triage, newId, now) =>
      NextAssignAdvisor(db, t, concern, actor, advisor, triage, newId, now)
    case UnassignAdvisor(concern, assignment, now) => NextUnassignAdvisor(db, t, concern, assignment, now)
    case UpdateConcern(user, concern, text) => NextUpdateConcern(db, t, user, concern, text)
  }

  /** One statement further, and holding what that statement locked. */
  predicate GoesOn(t: Txn, u: Txn)
    requires Loaded(t)
  {
    && Loaded(u) && u.call == t.call && u.pc == t.pc + 1
    && Held(u) == Held(t) + if Wants(t).Some? then {Wants(t).value} else {}
  }

  function NextDeleteAdvice(db: Db, t: Txn, id: Id, actor: Id): (m: Move)
    requires Loaded(t) && t.call == DeleteAdvice(id, actor)
    ensures m.Go? ==> GoesOn(t, m.txn)
  {
    if t.pc == 0 then
      if id !in db.advices then Raise(NotFound)
      else if db.advices[id].advisor != actor then Raise(Forbidden)
      else if !Deletable(db.advices[id].status) then Raise(Conflict)
      else Go(Then(t.(advice := Some(db.advices[id]))))
    else if t.pc == 1 then Go(Wrote(t, SetAdviceStatus(id, Deleted)))
    else Commit
  }

  function NextUpdateConcern(db: Db, t: Txn, user: Id, concern: Id, text: ConcernText): (m: Move)
    requires Loaded(t) && t.call == UpdateConcern(user, concern, text)
    ensures m.Go? ==> GoesOn(t, m.txn)
  {
    if t.pc == 0 then
      if concern !in db.concerns then Raise(NotFound)
      else if db.concerns[concern].deletedAt.Some? || db.concerns[concern].author != user then Raise(NotFound)
      else Go(Then(t.(concern := Some(db.concerns[concern]))))
    else if t.pc == 1 then
      if t.concern.value.status != ConcernStatus.Submitted || EverAssigned(db.assignments, concern) then Raise(Conflict)
      else Go(Then(t))
    else if t.pc == 2 then Go(Wrote(t, SetConcernText(concern, text)))
    else Commit
  }

  function NextUpdateAdvice(db: Db, t: Txn, id: Id, actor: Id, data: Body, submit: Option<bool>): (m: Move)
    requires Loaded(t) && t.call == UpdateAdvice(id, actor, data, submit)
    ensures m.Go? ==> GoesOn(t, m.txn)
  {
    if t.pc == 0 then
      if id !in db.advices then Raise(NotFound)
      else if db.advices[id].advisor != actor then Raise(Forbidden)
      else if !Editable(db.advices[id].status) then Raise(Conflict)
      else Go(Then(t.(advice := Some(db.advices[id]))))
    else
      var a := t.advice.value;
      if t.pc == 1 then
        if NothingNew(a.body, data) then Go(Then(t))
        else if (id, a.version) in db.history then Raise(ServerError)
        else
          Go(Wrote(t.(advice := Some(a.(version := a.version + 1))), InsertHistory(id, a.version, Snapshot(a.body, actor))))
      else if t.pc == 2 then
        Go(Wrote(t, SetAdviceBody(id, Edited(a.body, data), a.version, if submit.Some? then submit.value else a.isSubmitted)))
      else Commit
  }

  function NextReviewAdvice(db: Db, t: Txn, id: Id, actor: Id, decision: Decision, reason: string, expected: nat, now: nat)
    : (m: Move)
    requires Loaded(t) && t.call == ReviewAdvice(id, actor, decision, reason, expected, now)
    ensures m.Go? ==> GoesOn(t, m.txn)
  {
    if t.pc == 0 then
      if id !in db.advices then Raise(NotFound)
      else
        var e := ReviewError(db.advices[id], decision, reason, expected);
        if e.Some? then Raise(e.value) else Go(Then(t.(advice := Some(db.advices[id]))))
    else
      var a := t.advice.value;
      if t.pc == 1 then
        if a.concern !in db.concerns then Raise(ServerError)
        else if db.concerns[a.concern].deletedAt.Some? then Raise(Conflict)
        else Go(Then(t.(concern := Some(db.concerns[a.concern]))))
      else
        var c := t.concern.value;
        if t.pc == 2 then Go(Wrote(t, SaveAdvice(id, Decided(a, actor, decision, reason, now))))
        else if t.pc == 3 then
          if decision == Approve && c.status == Assigned then Go(Wrote(t, SetConcernStatus(a.concern, Answered)))
          else Go(Then(t))
        else if t.pc == 4 then
          if decision == Approve then Go(Wrote(t, Notify(AdviceApproved(c.author, id, a.concern, actor))))
          else Go(Wrote(t, Notify(AdviceRejected(a.advisor, id, a.concern, actor, reason))))
        else Commit
  }

  function NextAssignAdvisor(db: Db, t: Txn, concern: Id, actor: Id, advisor: Id, triage: Triage, newId: Id, now: nat): (m: Move)
    requires Loaded(t) && t.call == AssignAdvisor(concern, actor, advisor, triage, newId, now)
    ensures m.Go? ==> GoesOn(t, m.txn)
  {
    if t.pc == 0 then if advisor !in db.advisors then Raise(Unprocessable) else Go(Then(t))
    else if t.pc == 1 then
      if concern !in db.concerns then Raise(NotFound)
      else if db.concerns[concern].deletedAt.Some? || db.concerns[concern].status == Closed then Raise(Conflict)
      else Go(Then(t.(concern := Some(db.concerns[concern]))))
    else if t.pc == 2 then
      if newId in db.assignments || AssignmentSlotTaken(db.assignments, concern, advisor) then Raise(Conflict)
      else Go(Wrote(t, InsertAssignment(newId, Assignment(concern, advisor, actor, triage, true, now, None))))
    else if t.pc == 3 then
      if t.concern.value.status == ConcernStatus.Submitted then Go(Wrote(t, SetConcernStatus(concern, Assigned)))
      else Go(Then(t))
    else if t.pc == 4 then Go(Wrote(t, Notify(AssignmentCreated(advisor, concern, newId, actor))))
    else Commit
  }

  function NextUnassignAdvisor(db: Db, t: Txn, concern: Id, assignment: Id, now: nat): (m: Move)
    requires Loaded(t) && t.call == UnassignAdvisor(concern, assignment, now)
    ensures m.Go? ==> GoesOn(t, m.txn)
  {
    if t.pc == 0 then
      if concern !in db.concerns then Raise(NotFound) else Go(Then(t.(concern := Some(db.concerns[concern]))))
    else if t.pc == 1 then
      if assignment !in db.assignments || db.assignments[assignment].concern != concern then Raise(NotFound)
      else if !db.assignments[assignment].isActive then Raise(Conflict)
      else Go(Then(t))
    else if t.pc == 2 then Go(Then(t.(writes := [EndAssignment(assignment, now)])))
    else if t.pc == 3 then Go(Then(t.(active := HasActive(ApplyAll(db, t.writes).assignments, concern))))
    else if t.pc == 4 then
      if !t.active && t.concern.value.status == Assigned
      then Go(Wrote(t, SetConcernStatus(concern, ConcernStatus.Submitted)))
      else Go(Then(t))
    else Commit
  }

  /** The transaction after `k` statements with nobody else writing; None once it has raised or committed. */
  function Solo(db: Db, call: Call, k: nat): (t: Option<Txn>)
    ensures t.Some? ==> Loaded(t.value) && t.value.pc == k && t.value.call == call
  {
    if k == 0 then Some(Begin(call))
    else
      var before := Solo(db, call, k - 1);
      if before.None? then None
      else match Next(db, before.value) case Go(t) => Some(t) case _ => None
  }
}
