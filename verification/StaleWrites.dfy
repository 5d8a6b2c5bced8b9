/**
 `User.save` and its guard (`accounts/models.py`): an in-memory copy of a user row that writes the
 whole row leaves out the guarded columns it did not change itself.
 */
module StaleWrites {
  import opened Common

  /** The columns of a user row, key and time stamps left out. */
  datatype Column =
    | Password | LastLogin | Email | IsActive | IsStaff | IsSuperuser | ActiveRole
    | Nickname | Job | Interest | ProfileImage

  datatype Value = Null | Str(s: string) | Bool(b: bool) | Time(t: nat)

  type Row = map<Column, Value>

  /** `STALE_WRITE_GUARDED`. */
  const GUARDED: seq<Column> := [Password, LastLogin, Email, IsActive, IsStaff, IsSuperuser, ActiveRole]

  predicate Guarded(c: Column) { c in GUARDED }

  /** An instance: the attributes it has loaded or been given, and what it remembers of the guarded ones. */
  datatype Copy = Copy(attrs: Row, baseline: Row, adding: bool)

  function Only(row: Row, columns: set<Column>): Row { row - (row.Keys - columns) }

  // --- what the methods compute ---

  function Remember(copy: Copy, names: set<Column>): Copy {
    copy.(baseline := copy.baseline + Only(copy.attrs, names))
  }

  /** `_guarded_among`. */
  function GuardedAmong(fields: Option<set<Column>>): set<Column> {
    set c | c in GUARDED && (fields.None? || c in fields.value)
  }

  function FromDb(row: Row, fields: set<Column>): Copy {
    Remember(Copy(Only(row, fields), map[], false), GuardedAmong(None))
  }

  /** `refresh_from_db`; without names it reloads what is loaded. */
  function Refreshed(copy: Copy, row: Row, fields: Option<set<Column>>): Copy {
    var columns := if fields.Some? then fields.value else copy.attrs.Keys;
    Remember(copy.(attrs := copy.attrs + Only(row, columns)), GuardedAmong(fields))
  }

  function Get(attrs: Row, c: Column): Value { if c in attrs then attrs[c] else Null }

  function Untouched(copy: Copy): set<Column> {
    set c | c in copy.baseline && Get(copy.attrs, c) == copy.baseline[c]
  }

  /** The columns a save names once the guard is done. `args` is whether it was called with positional arguments. */
  function UpdateFields(copy: Copy, args: bool, fields: Option<set<Column>>): Option<set<Column>> {
    if copy.baseline != map[] && !args && !copy.adding && fields.None? && Untouched(copy) != {}
    then Some(copy.attrs.Keys - Untouched(copy))
    else fields
  }

  /** Naming a column that is not loaded reads it first. */
  function LoadNamed(copy: Copy, row: Row, fields: Option<set<Column>>): Copy {
    if fields.None? then copy else Refreshed(copy, row, Some(fields.value - copy.attrs.Keys))
  }

  function SavedRow(copy: Copy, row: Row, args: bool, fields: Option<set<Column>>): Row {
    var effective := UpdateFields(copy, args, fields);
    var loaded := LoadNamed(copy, row, effective);
    row + if effective.None? then loaded.attrs else Only(loaded.attrs, effective.value)
  }

  function SavedCopy(copy: Copy, row: Row, args: bool, fields: Option<set<Column>>): Copy {
    var effective := UpdateFields(copy, args, fields);
    Remember(LoadNamed(copy, row, effective).(adding := false), GuardedAmong(effective))
  }

  // --- the instance, updated in place ---

  /** The row in the database. */
  class Record {
    var columns: Row

    constructor (columns: Row)
      ensures this.columns == columns
    {
      this.columns := columns;
    }
  }

  class Instance {
    var attrs: Row
    var baseline: Row
    var adding: bool

    ghost function State(): Copy
      reads this
    {
      Copy(attrs, baseline, adding)
    }

    constructor New(attrs: Row)
      ensures State() == Copy(attrs, map[], true)
    {
      this.attrs, baseline, adding := attrs, map[], true;
    }

    constructor Load(record: Record, fields: set<Column>)
      ensures State() == FromDb(record.columns, fields)
    {
      attrs, baseline, adding := Only(record.columns, fields), map[], false;
      new;
      RememberGuarded(GUARDED);
      assert Only(attrs, Listed(GUARDED)) == Only(attrs, GuardedAmong(None));
    }

    static function Listed(names: seq<Column>): set<Column> { set c | c in names }

    method RememberGuarded(names: seq<Column>)
      modifies this`baseline
      ensures baseline == old(baseline) + Only(attrs, Listed(names))
    {
      var i := 0;
      while i < |names|
        invariant 0 <= i <= |names|
        invariant baseline == old(baseline) + Only(attrs, Listed(names[..i]))
      {
        assert Listed(names[..i + 1]) == Listed(names[..i]) + {names[i]};
        if names[i] in attrs {
          baseline := baseline[names[i] := attrs[names[i]]];
        }
        i := i + 1;
      }
      assert names[..i] == names;
    }

    /** The guarded columns among the given names, in the order of the list; all of them when no names are given. */
    static method NamesAmong(fields: Option<set<Column>>) returns (names: seq<Column>)
      ensures Listed(names) == GuardedAmong(fields)
    {
      if fields.None? { return GUARDED; }
      names := [];
      var i := 0;
      while i < |GUARDED|
        invariant 0 <= i <= |GUARDED|
        invariant Listed(names) == set c | c in GUARDED[..i] && c in fields.value
      {
        assert GUARDED[..i + 1] == GUARDED[..i] + [GUARDED[i]];
        if GUARDED[i] in fields.value {
          assert Listed(names + [GUARDED[i]]) == Listed(names) + {GUARDED[i]};
          names := names + [GUARDED[i]];
        }
        i := i + 1;
      }
      assert GUARDED[..i] == GUARDED;
    }

    method SetAttr(c: Column, v: Value)
      modifies this`attrs
      ensures attrs == old(attrs)[c := v]
    {
      attrs := attrs[c := v];
    }

    method RefreshFromDb(record: Record, fields: Option<set<Column>>)
      modifies this
      ensures State() == Refreshed(old(State()), record.columns, fields)
    {
      if fields.Some? {
        attrs := attrs + Only(record.columns, fields.value);
      } else {
        attrs := attrs + Only(record.columns, attrs.Keys);
      }
      var names := NamesAmong(fields);
      RememberGuarded(names);
    }

    /** Django's own save: an UPDATE of the named columns, or of every loaded one when none are named. */
    method BaseSave(record: Record, fields: Option<set<Column>>)
      modifies this, record
      ensures State() == LoadNamed(old(State()), old(record.columns), fields).(adding := false)
      ensures record.columns == old(record.columns) + if fields.None? then attrs else Only(attrs, fields.value)
    {
      if fields.Some? && fields.value - attrs.Keys != {} {
        RefreshFromDb(record, Some(fields.value - attrs.Keys));
      } else if fields.Some? {
        assert Only(record.columns, fields.value - attrs.Keys) == map[];
        assert GuardedAmong(Some(fields.value - attrs.Keys)) == {};
        assert Only(attrs, {}) == map[];
      }
      record.columns := record.columns + if fields.None? then attrs else Only(attrs, fields.value);
      adding := false;
    }

    method Save(record: Record, args: bool, fields: Option<set<Column>>)
      modifies this, record
      ensures State() == SavedCopy(old(State()), old(record.columns), args, fields)
      ensures record.columns == SavedRow(old(State()), old(record.columns), args, fields)
    {
      var updateFields := fields;
      if baseline != map[] && !args && !adding && fields.None? {
        var untouched := set c | c in baseline && (if c in attrs then attrs[c] else Null) == baseline[c];
        if untouched != {} {
          updateFields := Some(set c | c in attrs && c !in untouched);
          assert updateFields.value == attrs.Keys - Untouched(State());
        }
      }
      BaseSave(record, updateFields);
      var names := NamesAmong(updateFields);
      RememberGuarded(names);
    }
  }
}
