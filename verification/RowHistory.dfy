/**
 Many in-memory copies of one user row, loaded, changed and saved in any order. The guard turns
 whole-row saves into a merge column by column: this file says so without mentioning the guard.
 */
module RowHistory {
  import opened Common
  import opened StaleWrites

  type CopyId = nat

  datatype Op =
    | Load(copy: CopyId, columns: set<Column>)
    | Assign(copy: CopyId, column: Column, value: Value)
    | Refresh(copy: CopyId, fields: Option<set<Column>>)
    | Save(copy: CopyId)                                  // save()
    | SaveForced(copy: CopyId)                            // save() with positional arguments
    | SaveNamed(copy: CopyId, columns: set<Column>)       // save(update_fields=...)
    | Update(column: Column, value: Value)                // queryset.update(...)

  datatype World = World(row: Row, copies: map<CopyId, Copy>)

  /** What the code does: the operations of `StaleWrites`, one copy at a time. */
  function Do(w: World, op: Op): World {
    match op
    case Load(c, columns) => w.(copies := w.copies[c := FromDb(w.row, columns)])
    case Assign(c, column, value) =>
      if c in w.copies then w.(copies := w.copies[c := w.copies[c].(attrs := w.copies[c].attrs[column := value])]) else w
    case Refresh(c, fields) =>
      if c in w.copies then w.(copies := w.copies[c := Refreshed(w.copies[c], w.row, fields)]) else w
    case Save(c) => if c in w.copies then Saving(w, c, false, None) else w
    case SaveForced(c) => if c in w.copies then Saving(w, c, true, None) else w
    case SaveNamed(c, columns) => if c in w.copies then Saving(w, c, false, Some(columns)) else w
    case Update(column, value) => w.(row := w.row[column := value])
  }

  function Saving(w: World, c: CopyId, args: bool, fields: Option<set<Column>>): World
    requires c in w.copies
  {
    World(SavedRow(w.copies[c], w.row, args, fields), w.copies[c := SavedCopy(w.copies[c], w.row, args, fields)])
  }

  function Run(row: Row, h: seq<Op>): World
    decreases |h|
  {
    if h == [] then World(row, map[]) else Do(Run(row, h[..|h| - 1]), h[|h| - 1])
  }

  // --- the same history without a guard: per column, per copy ---

  predicate Exists(h: seq<Op>, c: CopyId) { exists i :: 0 <= i < |h| && h[i].Load? && h[i].copy == c }

  /** The value of the latest operation that meant to change this column. */
  function Latest(row: Row, h: seq<Op>, k: Column): Value
    requires k in row
    decreases |h|, 3
  {
    if h == [] then row[k]
    else
      var init, op := h[..|h| - 1], h[|h| - 1];
      if MeansTo(row, init, op, k) then Intended(row, init, op, k) else Latest(row, init, k)
  }

  /**
   `op` means to change column `k`: it names it, or it saves a copy that has it. A whole save means to
   change a guarded column only if the value is not the one the copy last saw.
   */
  predicate MeansTo(row: Row, h: seq<Op>, op: Op, k: Column)
    requires k in row
    decreases |h|, 1
  {
    match op
    case Update(column, _) => column == k
    case SaveNamed(c, columns) => k in columns && Holds(row, h, c, k).Some?
    case Save(c) => Holds(row, h, c, k).Some? && (Guarded(k) ==> Seen(row, h, c, k) != Holds(row, h, c, k))
    case SaveForced(c) => Holds(row, h, c, k).Some?
    case _ => false
  }

  function Intended(row: Row, h: seq<Op>, op: Op, k: Column): Value
    requires k in row && MeansTo(row, h, op, k)
    decreases |h|, 2
  {
    if op.Update? then op.value else Holds(row, h, op.copy, k).value
  }

  /** The value copy `c` has for column `k`: what it was given, or what it last read. */
  function Holds(row: Row, h: seq<Op>, c: CopyId, k: Column): Option<Value>
    requires k in row
    decreases |h|, 0
  {
    if h == [] then None
    else
      var init := h[..|h| - 1];
      HoldsAfter(h[|h| - 1], c, k, Exists(init, c), Holds(row, init, c, k), Latest(row, init, k))
  }

  /** One operation later, when the copy held `before` and the row had `latest`. */
  function HoldsAfter(op: Op, c: CopyId, k: Column, known: bool, before: Option<Value>, latest: Value): Option<Value> {
    match op
    case Load(d, columns) => if d != c then before else if k in columns then Some(latest) else None
    case Assign(d, column, value) => if d == c && column == k && known then Some(value) else before
    case Refresh(d, fields) =>
      if d == c && known && (if fields.None? then before.Some? else k in fields.value) then Some(latest) else before
    case SaveNamed(d, columns) => if d == c && known && k in columns && before.None? then Some(latest) else before
    case _ => before
  }

  /** The value of column `k` that copy `c` and the database last had in common. */
  function Seen(row: Row, h: seq<Op>, c: CopyId, k: Column): Option<Value>
    requires k in row
    decreases |h|, 0
  {
    if h == [] then None
    else
      var init := h[..|h| - 1];
      SeenAfter(h[|h| - 1], c, k, Exists(init, c), Seen(row, init, c, k), Holds(row, init, c, k), Latest(row, init, k))
  }

  function SeenAfter(op: Op, c: CopyId, k: Column, known: bool, before: Option<Value>, held: Option<Value>, latest: Value)
    : Option<Value>
  {
    match op
    case Load(d, columns) => if d != c then before else if k in columns then Some(latest) else None
    case Assign(_, _, _) => before
    case Update(_, _) => before
    case Refresh(d, fields) =>
      if d == c && known && (if fields.None? then held.Some? else k in fields.value) then Some(latest) else before
    case SaveNamed(d, columns) =>
      if d == c && known && k in columns then (if held.Some? then held else Some(latest)) else before
    case Save(d) => if d == c && held.Some? then held else before
    case SaveForced(d) => if d == c && held.Some? then held else before
  }

  lemma OneMore(row: Row, h: seq<Op>, op: Op, c: CopyId, k: Column)
    requires k in row
    ensures Holds(row, h + [op], c, k) == HoldsAfter(op, c, k, Exists(h, c), Holds(row, h, c, k), Latest(row, h, k))
    ensures Seen(row, h + [op], c, k) ==
            SeenAfter(op, c, k, Exists(h, c), Seen(row, h, c, k), Holds(row, h, c, k), Latest(row, h, k))
    ensures Latest(row, h + [op], k) == if MeansTo(row, h, op, k) then Intended(row, h, op, k) else Latest(row, h, k)
  {
    assert (h + [op])[..|h + [op]| - 1] == h;
  }

  // --- the code does what the history says ---

  function At(m: Row, k: Column): Option<Value> { if k in m then Some(m[k]) else None }

  /** One copy and its history agree about one column; there is a baseline of the guarded ones only. */
  ghost predicate CopyAgrees(w: World, row: Row, h: seq<Op>, c: CopyId, k: Column)
    requires k in row
  {
    if c in w.copies then
      && Exists(h, c)
      && At(w.copies[c].attrs, k) == Holds(row, h, c, k)
      && (if Guarded(k) then At(w.copies[c].baseline, k) == Seen(row, h, c, k) else k !in w.copies[c].baseline)
      && !w.copies[c].adding
    else
      !Exists(h, c) && Holds(row, h, c, k) == None
  }

  /** The world and the history agree about one column. */
  ghost predicate Agrees(w: World, row: Row, h: seq<Op>, k: Column)
    requires k in row
  {
    && k in w.row && w.row[k] == Latest(row, h, k)
    && forall c: CopyId :: CopyAgrees(w, row, h, c, k)
  }

  lemma ExistsOneMore(h: seq<Op>, c: CopyId)
    requires h != []
    ensures Exists(h, c) <==> Exists(h[..|h| - 1], c) || (h[|h| - 1].Load? && h[|h| - 1].copy == c)
  {
    if Exists(h, c) {
      var i :| 0 <= i < |h| && h[i].Load? && h[i].copy == c;
      if i < |h| - 1 { assert h[..|h| - 1][i] == h[i]; }
    }
    if Exists(h[..|h| - 1], c) {
      var i :| 0 <= i < |h| - 1 && h[..|h| - 1][i].Load? && h[..|h| - 1][i].copy == c;
      assert h[i].Load?;
    }
  }

  lemma LoadNothing(copy: Copy, row: Row, fields: set<Column>)
    requires fields <= copy.attrs.Keys
    ensures LoadNamed(copy, row, Some(fields)) == copy
  {
    assert fields - copy.attrs.Keys == {};
    assert Only(row, {}) == map[];
    assert GuardedAmong(Some({})) == {};
    assert Only(copy.attrs, {}) == map[];
  }

  lemma RememberOne(copy: Copy, names: set<Column>, k: Column)
    ensures At(Remember(copy, names).baseline, k) ==
            if k in names && k in copy.attrs then Some(copy.attrs[k]) else At(copy.baseline, k)
  {}

  /** The columns a whole save writes: those it has, unless the guard leaves them out. */
  lemma WritesColumn(copy: Copy, args: bool, k: Column)
    requires !copy.adding
    ensures var effective := UpdateFields(copy, args, None);
            k in copy.attrs && (effective.Some? ==> k in effective.value) <==>
            k in copy.attrs && (args || At(copy.baseline, k) != At(copy.attrs, k))
  {
    assert k in copy.attrs && At(copy.baseline, k) == At(copy.attrs, k) ==> k in Untouched(copy);
  }

  /** What a whole-row save leaves in one column of the row, whatever the other columns are. */
  lemma SavedColumn(copy: Copy, row: Row, args: bool, k: Column)
    requires k in row && !copy.adding
    ensures var saved := SavedRow(copy, row, args, None);
            && k in saved
            && saved[k] == (if k in copy.attrs && (args || At(copy.baseline, k) != At(copy.attrs, k))
                            then copy.attrs[k] else row[k])
  {
    SavesLoaded(copy, row, args);
    WritesColumn(copy, args, k);
    hide UpdateFields, LoadNamed;
  }

  /** And in the copy. */
  lemma SaveOneColumn(copy: Copy, row: Row, args: bool, k: Column)
    requires k in row && !copy.adding && (k in copy.baseline ==> Guarded(k))
    ensures var saved, after := SavedRow(copy, row, args, None), SavedCopy(copy, row, args, None);
            && k in saved && !after.adding
            && saved[k] == (if k in copy.attrs && (args || At(copy.baseline, k) != At(copy.attrs, k))
                            then copy.attrs[k] else row[k])
            && At(after.attrs, k) == At(copy.attrs, k)
            && At(after.baseline, k) == (if Guarded(k) && k in copy.attrs then At(copy.attrs, k) else At(copy.baseline, k))
  {
    SavedColumn(copy, row, args, k);
    SavesLoaded(copy, row, args);
    WritesColumn(copy, args, k);
    var effective := UpdateFields(copy, args, None);
    RememberOne(copy.(adding := false), GuardedAmong(effective), k);
    hide SavedRow, UpdateFields, LoadNamed, Remember;
  }

  /** A save without names never has to load anything first. */
  lemma SavesLoaded(copy: Copy, row: Row, args: bool)
    ensures LoadNamed(copy, row, UpdateFields(copy, args, None)) == copy
  {
    var effective := UpdateFields(copy, args, None);
    if effective.Some? { LoadNothing(copy, row, effective.value); }
  }

  lemma RefreshOneColumn(copy: Copy, row: Row, fields: Option<set<Column>>, k: Column)
    requires k in row
    ensures var after, hit := Refreshed(copy, row, fields), if fields.None? then k in copy.attrs else k in fields.value;
            && At(after.attrs, k) == (if hit then Some(row[k]) else At(copy.attrs, k))
            && At(after.baseline, k) == (if hit && Guarded(k) then Some(row[k]) else At(copy.baseline, k))
            && after.adding == copy.adding
  {
    var columns := if fields.Some? then fields.value else copy.attrs.Keys;
    RememberOne(copy.(attrs := copy.attrs + Only(row, columns)), GuardedAmong(fields), k);
  }

  lemma SaveNamedColumn(copy: Copy, row: Row, fields: set<Column>, k: Column)
    requires k in row && !copy.adding
    ensures var saved, after := SavedRow(copy, row, false, Some(fields)), SavedCopy(copy, row, false, Some(fields));
            && k in saved && !after.adding
            && (k in fields ==>
                  && saved[k] == (if k in copy.attrs then copy.attrs[k] else row[k])
                  && At(after.attrs, k) == Some(saved[k])
                  && At(after.baseline, k) == (if Guarded(k) then Some(saved[k]) else At(copy.baseline, k)))
            && (k !in fields ==>
                  && saved[k] == row[k]
                  && At(after.attrs, k) == At(copy.attrs, k) && At(after.baseline, k) == At(copy.baseline, k))
  {
    RefreshOneColumn(copy, row, Some(fields - copy.attrs.Keys), k);
    RememberOne(Refreshed(copy, row, Some(fields - copy.attrs.Keys)).(adding := false), GuardedAmong(Some(fields)), k);
    hide Refreshed, Remember;
  }

  predicate IsSave(op: Op) { op.Save? || op.SaveForced? || op.SaveNamed? }

  lemma CopyLoads(w: World, row: Row, h: seq<Op>, op: Op, c: CopyId, k: Column)
    requires k in row && k in w.row && w.row[k] == Latest(row, h, k) && CopyAgrees(w, row, h, c, k)
    requires op.Load?
    ensures CopyAgrees(Do(w, op), row, h + [op], c, k)
  {
    OneMore(row, h, op, c, k);
    assert (h + [op])[..|h|] == h;
    ExistsOneMore(h + [op], c);
    hide Holds, Seen, Latest, MeansTo, Intended, Exists, Refreshed, FromDb;
    LoadOneColumn(w.row, op.columns, k);
  }

  lemma CopyRefreshes(w: World, row: Row, h: seq<Op>, op: Op, c: CopyId, k: Column)
    requires k in row && k in w.row && w.row[k] == Latest(row, h, k) && CopyAgrees(w, row, h, c, k)
    requires op.Refresh?
    ensures CopyAgrees(Do(w, op), row, h + [op], c, k)
  {
    OneMore(row, h, op, c, k);
    assert (h + [op])[..|h|] == h;
    ExistsOneMore(h + [op], c);
    hide Holds, Seen, Latest, MeansTo, Intended, Exists, Refreshed, FromDb;
    if op.copy == c && c in w.copies {
      RefreshOneColumn(w.copies[c], w.row, op.fields, k);
      var after := Refreshed(w.copies[c], w.row, op.fields);
      assert Do(w, op).copies[c] == after;
      assert At(w.copies[c].attrs, k) == Holds(row, h, c, k);
    } else {
      assert (c in Do(w, op).copies <==> c in w.copies) && (c in w.copies ==> Do(w, op).copies[c] == w.copies[c]);
      hide Do;
    }
  }

  lemma CopyRests(w: World, row: Row, h: seq<Op>, op: Op, c: CopyId, k: Column)
    requires k in row && k in w.row && w.row[k] == Latest(row, h, k) && CopyAgrees(w, row, h, c, k)
    requires op.Assign? || op.Update?
    ensures CopyAgrees(Do(w, op), row, h + [op], c, k)
  {
    OneMore(row, h, op, c, k);
    assert (h + [op])[..|h|] == h;
    ExistsOneMore(h + [op], c);
    hide Holds, Seen, Latest, MeansTo, Intended, Exists, Refreshed, FromDb;
  }

  lemma CopySavesWhole(w: World, row: Row, h: seq<Op>, op: Op, c: CopyId, k: Column)
    requires k in row && k in w.row && w.row[k] == Latest(row, h, k) && CopyAgrees(w, row, h, c, k)
    requires op.Save? || op.SaveForced?
    ensures CopyAgrees(Do(w, op), row, h + [op], c, k)
  {
    OneMore(row, h, op, c, k);
    ExistsOneMore(h + [op], c);
    assert (h + [op])[..|h|] == h;
    hide Holds, Seen, Latest, MeansTo, Intended, Exists, SavedRow, SavedCopy;
    if op.copy == c && c in w.copies {
      var copy := w.copies[c];
      if op.Save? {
        SaveOneColumn(copy, w.row, false, k);
      } else {
        SaveOneColumn(copy, w.row, true, k);
      }
    } else {
      assert c in w.copies ==> Do(w, op).copies[c] == w.copies[c];
    }
  }

  lemma CopySavesNamed(w: World, row: Row, h: seq<Op>, op: Op, c: CopyId, k: Column)
    requires k in row && k in w.row && w.row[k] == Latest(row, h, k) && CopyAgrees(w, row, h, c, k)
    requires op.SaveNamed?
    ensures CopyAgrees(Do(w, op), row, h + [op], c, k)
  {
    OneMore(row, h, op, c, k);
    ExistsOneMore(h + [op], c);
    assert (h + [op])[..|h|] == h;
    hide Holds, Seen, Latest, MeansTo, Intended, Exists, SavedRow, SavedCopy;
    if op.copy == c && c in w.copies {
      SaveNamedColumn(w.copies[c], w.row, op.columns, k);
    } else {
      assert c in w.copies ==> Do(w, op).copies[c] == w.copies[c];
    }
  }

  lemma RowOpAgrees(w: World, row: Row, h: seq<Op>, op: Op, k: Column)
    requires k in row && Agrees(w, row, h, k)
    ensures k in Do(w, op).row && Do(w, op).row[k] == Latest(row, h + [op], k)
  {
    OneMore(row, h, op, if op.Update? then 0 else op.copy, k);
    if !op.Update? { assert CopyAgrees(w, row, h, op.copy, k); }
    hide Holds, Seen, Latest, Exists, SavedRow, SavedCopy, Refreshed, FromDb;
    match op
    case Save(c) => if c in w.copies { SaveOneColumn(w.copies[c], w.row, false, k); }
    case SaveForced(c) => if c in w.copies { SaveOneColumn(w.copies[c], w.row, true, k); }
    case SaveNamed(c, columns) => if c in w.copies { SaveNamedColumn(w.copies[c], w.row, columns, k); }
    case _ =>
  }

  /** One operation keeps the code and the history in step. */
  lemma OpAgrees(w: World, row: Row, h: seq<Op>, op: Op, k: Column)
    requires k in row && Agrees(w, row, h, k)
    ensures Agrees(Do(w, op), row, h + [op], k)
  {
    RowOpAgrees(w, row, h, op, k);
    forall c: CopyId
      ensures CopyAgrees(Do(w, op), row, h + [op], c, k)
    {
      if op.SaveNamed? { CopySavesNamed(w, row, h, op, c, k); }
      else if IsSave(op) { CopySavesWhole(w, row, h, op, c, k); }
      else if op.Load? { CopyLoads(w, row, h, op, c, k); }
      else if op.Refresh? { CopyRefreshes(w, row, h, op, c, k); }
      else { CopyRests(w, row, h, op, c, k); }
    }
  }

  lemma LoadOneColumn(row: Row, columns: set<Column>, k: Column)
    requires k in row
    ensures var value := if k in columns then Some(row[k]) else None;
            && At(FromDb(row, columns).attrs, k) == value
            && At(FromDb(row, columns).baseline, k) == if Guarded(k) then value else None
    ensures !FromDb(row, columns).adding
  {
    RememberOne(Copy(Only(row, columns), map[], false), GuardedAmong(None), k);
  }

  /** After any history, every column has the value of the latest operation that meant to change it. */
  lemma {:induction false} RowIsTheLatestIntent(row: Row, h: seq<Op>, k: Column)
    requires k in row
    ensures Agrees(Run(row, h), row, h, k)
    ensures k in Run(row, h).row && Run(row, h).row[k] == Latest(row, h, k)
    decreases |h|
  {
    if h == [] {
      assert forall c: CopyId :: CopyAgrees(World(row, map[]), row, h, c, k);
    } else {
      var init := h[..|h| - 1];
      assert h == init + [h[|h| - 1]];
      RowIsTheLatestIntent(row, init, k);
      hide Agrees, Do;
      OpAgrees(Run(row, init), row, init, h[|h| - 1], k);
    }
    assert Agrees(Run(row, h), row, h, k);
  }

  /** A copy not in the table yet writes all it has, guarded or not, and remembers it as saved. */
  lemma InsertWritesWhole(copy: Copy, row: Row, args: bool, k: Column)
    requires copy.adding && k in copy.attrs
    ensures var saved, after := SavedRow(copy, row, args, None), SavedCopy(copy, row, args, None);
            && k in saved && saved[k] == copy.attrs[k]
            && !after.adding && after.attrs == copy.attrs
            && (Guarded(k) ==> At(after.baseline, k) == Some(copy.attrs[k]))
  {
    RememberOne(copy.(adding := false), GuardedAmong(None), k);
  }

  // --- what that means for one copy ---

  /** Operations through which copy `c` meets column `k`; all others are somebody else's or another column's. */
  predicate Meets(op: Op, c: CopyId, k: Column) {
    match op
    case Load(d, _) => d == c
    case Assign(d, column, _) => d == c && column == k
    case Refresh(d, _) => d == c
    case Save(d) => d == c
    case SaveForced(d) => d == c
    case SaveNamed(d, columns) => d == c && k in columns
    case Update(_, _) => false
  }

  lemma {:induction false} Meanwhile(row: Row, h: seq<Op>, others: seq<Op>, c: CopyId, k: Column)
    requires k in row && forall i :: 0 <= i < |others| ==> !Meets(others[i], c, k)
    ensures Holds(row, h + others, c, k) == Holds(row, h, c, k)
    ensures Seen(row, h + others, c, k) == Seen(row, h, c, k)
    decreases |others|
  {
    if others == [] {
      assert h + others == h;
    } else {
      var init, op := others[..|others| - 1], others[|others| - 1];
      assert (h + others)[..|h + others| - 1] == h + init && (h + others)[|h + others| - 1] == op;
      Meanwhile(row, h, init, c, k);
      assert !Meets(op, c, k);
    }
  }

  /**
   No lost update. A copy reads one of these columns, others do whatever they like to the row, the copy
   does not assign the column and saves itself whole: the column keeps what the others left in it.
   */
  lemma SlowSaveUndoesNothing(row: Row, h: seq<Op>, columns: set<Column>, c: CopyId, others: seq<Op>, k: Column)
    requires k in row && k in {Password, LastLogin, Email, IsActive, IsStaff, IsSuperuser, ActiveRole}
    requires forall i :: 0 <= i < |others| ==> !Meets(others[i], c, k)
    ensures var before := h + [Load(c, columns)] + others;
            k in Run(row, before).row && Do(Run(row, before), Save(c)).row[k] == Run(row, before).row[k]
  {
    var loaded := h + [Load(c, columns)];
    assert loaded[..|loaded| - 1] == h;
    Meanwhile(row, loaded, others, c, k);
    var before := loaded + others;
    assert (before + [Save(c)])[..|before|] == before;
    RowIsTheLatestIntent(row, before, k);
    RowIsTheLatestIntent(row, before + [Save(c)], k);
  }

  /** Between the assignment and the save, the copy holds the new value and remembers the one it read. */
  lemma PendingChange(row: Row, h: seq<Op>, columns: set<Column>, c: CopyId, others: seq<Op>, value: Value, more: seq<Op>,
                      k: Column)
    requires k in row && k in columns
    requires forall i :: 0 <= i < |others| ==> !Meets(others[i], c, k)
    requires forall i :: 0 <= i < |more| ==> !Meets(more[i], c, k)
    ensures var before := h + [Load(c, columns)] + others + [Assign(c, k, value)] + more;
            Holds(row, before, c, k) == Some(value) && Seen(row, before, c, k) == Some(Latest(row, h, k))
  {
    var loaded := h + [Load(c, columns)];
    var waited := loaded + others;
    var changed := waited + [Assign(c, k, value)];
    OneMore(row, h, Load(c, columns), c, k);
    OneMore(row, waited, Assign(c, k, value), c, k);
    assert waited[|h|] == Load(c, columns);
    assert Exists(waited, c);
    hide Holds, Seen, Latest, Exists, Meets;
    Meanwhile(row, loaded, others, c, k);
    Meanwhile(row, changed, more, c, k);
  }

  /**
   An assignment does reach the row, whatever others did since; in the columns of the profile any
   assignment, in the others one that differs from what the copy read.
   */
  lemma ChangeIsSaved(row: Row, h: seq<Op>, columns: set<Column>, c: CopyId, others: seq<Op>, value: Value, more: seq<Op>,
                      k: Column)
    requires k in row && k in columns
    requires forall i :: 0 <= i < |others| ==> !Meets(others[i], c, k)
    requires forall i :: 0 <= i < |more| ==> !Meets(more[i], c, k)
    requires k in {Nickname, Job, Interest, ProfileImage} || (k in Run(row, h).row && value != Run(row, h).row[k])
    ensures var before := h + [Load(c, columns)] + others + [Assign(c, k, value)] + more;
            k in Do(Run(row, before), Save(c)).row && Do(Run(row, before), Save(c)).row[k] == value
  {
    var before := h + [Load(c, columns)] + others + [Assign(c, k, value)] + more;
    assert (before + [Save(c)])[..|before|] == before;
    hide Holds, Seen, Meets, Do, Agrees;
    PendingChange(row, h, columns, c, others, value, more, k);
    RowIsTheLatestIntent(row, h, k);
    RowIsTheLatestIntent(row, before + [Save(c)], k);
    OneMore(row, before, Save(c), c, k);
  }
}
