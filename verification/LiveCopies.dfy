/** Histories played on real objects: one record, any number of instances that load, change and save it. */
module LiveCopies {
  import opened Common
  import opened StaleWrites
  import opened RowHistory

  predicate Apart(copies: map<CopyId, Instance>) {
    forall c, d :: c in copies && d in copies && c != d ==> copies[c] != copies[d]
  }

  ghost function Objects(copies: map<CopyId, Instance>): set<object> { set c | c in copies :: copies[c] }

  /** Record and instances are in the state the model of the history says. */
  ghost predicate Mirrors(record: Record, copies: map<CopyId, Instance>, w: World)
    reads record, Objects(copies)
  {
    && record.columns == w.row
    && copies.Keys == w.copies.Keys
    && forall c :: c in copies ==> copies[c].State() == w.copies[c]
  }

  /** An operation of an instance that is there. */
  method Act(record: Record, instance: Instance, op: Op, ghost w: World)
    requires !op.Load? && !op.Update? && op.copy in w.copies
    requires record.columns == w.row && instance.State() == w.copies[op.copy]
    modifies record, instance
    ensures record.columns == Do(w, op).row
    ensures Do(w, op).copies == w.copies[op.copy := instance.State()]
  {
    hide FromDb, Refreshed, SavedRow, SavedCopy;
    match op {
      case Assign(_, column, value) => instance.SetAttr(column, value);
      case Refresh(_, fields) => instance.RefreshFromDb(record, fields);
      case Save(_) => instance.Save(record, false, None);
      case SaveForced(_) => instance.Save(record, true, None);
      case SaveNamed(_, columns) => instance.Save(record, false, Some(columns));
    }
  }

  /** One operation, by the methods of the classes. */
  method Perform(record: Record, copies: map<CopyId, Instance>, op: Op, ghost w: World) returns (after: map<CopyId, Instance>)
    requires Apart(copies) && Mirrors(record, copies, w)
    modifies record, Objects(copies)
    ensures Apart(after) && Mirrors(record, after, Do(w, op))
    ensures forall c :: c in after ==> (c in copies && after[c] == copies[c]) || fresh(after[c])
  {
    after := copies;
    if op.Load? {
      var instance := new Instance.Load(record, op.columns);
      after := copies[op.copy := instance];
    } else if op.Update? {
      record.columns := record.columns[op.column := op.value];
    } else if op.copy in copies {
      Act(record, copies[op.copy], op, w);
      hide Do;
    }
  }

  /** After any history the record holds, in every column, the latest value anybody meant it to have. */
  method Play(row: Row, h: seq<Op>) returns (record: Record)
    ensures fresh(record) && record.columns == Run(row, h).row
    ensures forall k :: k in row ==> k in record.columns && record.columns[k] == Latest(row, h, k)
  {
    hide Do;
    record := new Record(row);
    var copies: map<CopyId, Instance> := map[];
    var i := 0;
    while i < |h|
      invariant 0 <= i <= |h|
      invariant fresh(record) && (forall c :: c in copies ==> fresh(copies[c]))
      invariant Apart(copies) && Mirrors(record, copies, Run(row, h[..i]))
    {
      assert h[..i + 1][..i] == h[..i];
      copies := Perform(record, copies, h[i], Run(row, h[..i]));
      i := i + 1;
    }
    assert h[..i] == h;
    forall k | k in row
      ensures k in record.columns && record.columns[k] == Latest(row, h, k)
    {
      RowIsTheLatestIntent(row, h, k);
    }
  }
}
