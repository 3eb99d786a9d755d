/**
 * The key/value store behind the dashboard (app.py, lines 23-38): a sheet
 * whose data rows hold a key in column A and a value in column B, below one
 * header row. Reading loads the rows into a dictionary (`values_dict`) and
 * looks keys up with a default; saving updates the first row with the key in
 * place, or appends a row when the key is absent.
 *
 * The spreadsheet service itself is abstracted to an in-memory row list.
 */
module SheetStore {
  import opened Wrappers

  /** One data row of the sheet: `{"key": ..., "value": ...}` from `get_all_records`. */
  datatype Record = Record(key: string, value: real)

  /** The key column, in row order (`[r["key"] for r in records]`). */
  function Keys(records: seq<Record>): (keys: seq<string>)
    ensures |keys| == |records|
    ensures forall i :: 0 <= i < |records| ==> keys[i] == records[i].key
  {
    seq(|records|, i requires 0 <= i < |records| => records[i].key)
  }

  /**
   * `values_dict`: the dictionary comprehension over the rows; a key that
   * occurs in several rows ends up with the value of its LAST row.
   */
  function ValuesDict(records: seq<Record>): (values: map<string, real>)
    ensures forall k :: k in values <==> k in Keys(records)
  {
    if records == [] then map[]
    else
      var last := records[|records| - 1];
      ValuesDict(records[..|records| - 1])[last.key := last.value]
  }

  /** `get_value(name, default)`: the loaded value of `name`, or `default` when it has none. */
  function GetValue(values: map<string, real>, name: string, default: real): (v: real)
    ensures name in values ==> v == values[name]
    ensures name !in values ==> v == default
  {
    if name in values then values[name] else default
  }

  /** Row `i` is the last row holding `name`. */
  ghost predicate IsLastWith(records: seq<Record>, name: string, i: int)
  {
    0 <= i < |records| && records[i].key == name
    && forall j :: i < j < |records| ==> records[j].key != name
  }

  /**
   * What `get_value` returns after loading `records`: the default when no row
   * has the key, and otherwise the value of the last row that has it.
   */
  lemma {:induction false} GetValueOfRecords(records: seq<Record>, name: string, default: real)
    ensures name !in Keys(records) ==> GetValue(ValuesDict(records), name, default) == default
    ensures forall i :: IsLastWith(records, name, i) ==> GetValue(ValuesDict(records), name, default) == records[i].value
  {
    if records != [] {
      var init := records[..|records| - 1];
      GetValueOfRecords(init, name, default);
      assert Keys(records) == Keys(init) + [records[|records| - 1].key];
      forall i | IsLastWith(records, name, i)
        ensures GetValue(ValuesDict(records), name, default) == records[i].value
      {
        if i < |records| - 1 {
          assert IsLastWith(init, name, i);
        }
      }
    }
  }

  /** No key occurs in two rows. */
  ghost predicate UniqueKeys(records: seq<Record>)
  {
    forall i, j :: 0 <= i < j < |records| ==> records[i].key != records[j].key
  }

  /**
   * `keys.index(name)` guarded by `name in keys`: the position of the first
   * occurrence of `name`, or None when it does not occur.
   */
  method IndexOf(keys: seq<string>, name: string) returns (found: Option<nat>)
    ensures found.None? <==> name !in keys
    ensures found.Some? ==> found.value < |keys| && keys[found.value] == name && name !in keys[..found.value]
  {
    var i := 0;
    while i < |keys|
      invariant 0 <= i <= |keys|
      invariant name !in keys[..i]
    {
      if keys[i] == name {
        return Some(i);
      }
      i := i + 1;
    }
    assert keys[..i] == keys;
    return None;
  }

  /**
   * The row list after `set_value(name, val)`, defined row by row: the first
   * row with the key gets the new value; when none has it, a row is appended.
   */
  function Upsert(records: seq<Record>, name: string, val: real): seq<Record>
  {
    if records == [] then [Record(name, val)]
    else if records[0].key == name then [Record(name, val)] + records[1..]
    else [records[0]] + Upsert(records[1..], name, val)
  }

  /** When row `i` is the first with the key, `Upsert` overwrites that row's value and nothing else. */
  lemma {:induction false} UpsertPresent(records: seq<Record>, name: string, val: real, i: nat)
    requires i < |records| && records[i].key == name && name !in Keys(records)[..i]
    ensures Upsert(records, name, val) == records[i := Record(name, val)]
  {
    if i > 0 {
      assert records[0].key == Keys(records)[..i][0];
      assert Keys(records[1..])[..i - 1] == Keys(records)[1..i];
      UpsertPresent(records[1..], name, val, i - 1);
    }
  }

  /** When no row has the key, `Upsert` appends `[name, val]` and keeps every row. */
  lemma {:induction false} UpsertAbsent(records: seq<Record>, name: string, val: real)
    requires name !in Keys(records)
    ensures Upsert(records, name, val) == records + [Record(name, val)]
  {
    if records != [] {
      var head, tail := records[0], records[1..];
      assert records == [head] + tail;
      KeysAppend([head], tail);
      assert head.key != name && name !in Keys(tail);
      UpsertAbsent(tail, name, val);
      assert (records + [Record(name, val)]) == [head] + (tail + [Record(name, val)]);
    }
  }

  /**
   * The effect of `set_value` on the rows: the row count grows by one exactly
   * when the key was absent, afterwards a row holds `[name, val]`, and every
   * row whose key differs is unchanged.
   */
  lemma {:induction false} UpsertEffect(records: seq<Record>, name: string, val: real)
    ensures |Upsert(records, name, val)| == if name in Keys(records) then |records| else |records| + 1
    ensures Record(name, val) in Upsert(records, name, val)
    ensures forall i :: 0 <= i < |records| && records[i].key != name ==> Upsert(records, name, val)[i] == records[i]
  {
    if records != [] {
      assert Keys(records) == [records[0].key] + Keys(records[1..]);
      UpsertEffect(records[1..], name, val);
    }
  }

  /** The key column of a concatenation. */
  lemma KeysAppend(a: seq<Record>, b: seq<Record>)
    ensures Keys(a + b) == Keys(a) + Keys(b)
  {
    assert |Keys(a + b)| == |Keys(a) + Keys(b)|;
    forall i | 0 <= i < |a + b|
      ensures Keys(a + b)[i] == (Keys(a) + Keys(b))[i]
    {
      if i < |a| {
        assert (a + b)[i] == a[i];
      } else {
        assert (a + b)[i] == b[i - |a|];
      }
    }
  }

  /** The key column after `set_value`: unchanged when the key was present, one key longer otherwise. */
  lemma {:induction false} UpsertKeys(records: seq<Record>, name: string, val: real)
    ensures Keys(Upsert(records, name, val)) == if name in Keys(records) then Keys(records) else Keys(records) + [name]
  {
    if records != [] {
      var head, tail := records[0], records[1..];
      assert records == [head] + tail;
      KeysAppend([head], tail);
      UpsertKeys(tail, name, val);
      if head.key != name {
        KeysAppend([head], Upsert(tail, name, val));
      } else {
        KeysAppend([Record(name, val)], tail);
      }
    }
  }

  /** `set_value` never creates a second row for a key. */
  lemma UpsertKeepsKeysUnique(records: seq<Record>, name: string, val: real)
    requires UniqueKeys(records)
    ensures UniqueKeys(Upsert(records, name, val))
  {
    var after := Upsert(records, name, val);
    UpsertKeys(records, name, val);
    forall i, j | 0 <= i < j < |after|
      ensures after[i].key != after[j].key
    {
      assert Keys(after)[i] == after[i].key && Keys(after)[j] == after[j].key;
      if j < |records| {
        assert Keys(records)[i] == records[i].key && Keys(records)[j] == records[j].key;
      }
    }
  }

  /** Keys other than `name` load the same value before and after `set_value(name, val)`. */
  lemma {:induction false} UpsertKeepsOtherValues(records: seq<Record>, name: string, val: real, other: string, default: real)
    requires other != name
    ensures GetValue(ValuesDict(Upsert(records, name, val)), other, default) == GetValue(ValuesDict(records), other, default)
  {
    var after := Upsert(records, name, val);
    UpsertEffect(records, name, val);
    assert forall i :: 0 <= i < |after| && after[i].key == other ==> i < |records| && after[i] == records[i] by {
      forall i | 0 <= i < |after| && after[i].key == other
        ensures i < |records| && after[i] == records[i]
      {
        UpsertRowOrigin(records, name, val, i);
      }
    }
    SameRowsForKey(records, after, other, default);
  }

  /** Every row of `Upsert` is either the written row or the row at the same index before. */
  lemma {:induction false} UpsertRowOrigin(records: seq<Record>, name: string, val: real, i: nat)
    requires i < |Upsert(records, name, val)|
    ensures Upsert(records, name, val)[i] == Record(name, val)
      || (i < |records| && Upsert(records, name, val)[i] == records[i])
  {
    if records != [] && records[0].key != name && i > 0 {
      UpsertRowOrigin(records[1..], name, val, i - 1);
    }
  }

  /**
   * Two row lists whose rows for key `k` sit at the same positions (the
   * second may add rows of other keys at the end) load the same value for `k`.
   */
  lemma SameRowsForKey(before: seq<Record>, after: seq<Record>, k: string, default: real)
    requires |before| <= |after|
    requires forall i :: 0 <= i < |after| && after[i].key == k ==> i < |before| && after[i] == before[i]
    requires forall i :: 0 <= i < |before| && before[i].key == k ==> after[i] == before[i]
    ensures GetValue(ValuesDict(after), k, default) == GetValue(ValuesDict(before), k, default)
  {
    GetValueOfRecords(before, k, default);
    GetValueOfRecords(after, k, default);
    if k in Keys(before) {
      var i := LastWith(before, k);
      assert IsLastWith(after, k, i);
    } else {
      assert k !in Keys(after);
    }
  }

  /** The index of the last row with key `k`. */
  lemma LastWith(records: seq<Record>, k: string) returns (i: int)
    requires k in Keys(records)
    ensures IsLastWith(records, k, i)
  {
    i := |records| - 1;
    while records[i].key != k
      invariant 0 <= i < |records|
      invariant forall j :: i < j < |records| ==> records[j].key != k
      invariant exists j :: 0 <= j <= i && records[j].key == k
      decreases i
    {
      i := i - 1;
    }
  }

  /**
   * Saving and then loading: with unique keys (which `set_value` preserves),
   * `get_value(name, _)` on the reloaded rows gives the saved value.
   */
  lemma UpsertThenGet(records: seq<Record>, name: string, val: real, default: real)
    requires UniqueKeys(records)
    ensures GetValue(ValuesDict(Upsert(records, name, val)), name, default) == val
  {
    var after := Upsert(records, name, val);
    UpsertKeepsKeysUnique(records, name, val);
    UpsertEffect(records, name, val);
    var i :| 0 <= i < |after| && after[i] == Record(name, val);
    assert IsLastWith(after, name, i);
    GetValueOfRecords(after, name, default);
  }

  /**
   * With a key stored in two rows, `set_value` writes the first of them but
   * the reloaded dictionary keeps the last, so `get_value` still returns the
   * old value of the last duplicate.
   */
  lemma DuplicateKeyHidesUpdate(records: seq<Record>, name: string, val: real, i: nat, j: nat, default: real)
    requires i < j < |records| && records[i].key == name && records[j].key == name
    requires name !in Keys(records)[..i]
    ensures GetValue(ValuesDict(Upsert(records, name, val)), name, default)
         == GetValue(ValuesDict(records), name, default)
  {
    var after := Upsert(records, name, val);
    UpsertPresent(records, name, val, i);
    var l := LastWith(records, name);
    assert IsLastWith(after, name, l);
    GetValueOfRecords(records, name, default);
    GetValueOfRecords(after, name, default);
  }

  /** The sheet: its data rows below the header, as `get_all_records` returns them. */
  class Sheet {
    var records: seq<Record>

    constructor (records: seq<Record>)
      ensures this.records == records
    {
      this.records := records;
    }

    /** `update_cell(row, 2, val)`: the value cell of 1-based sheet row `row`, whose data row is `row - 2`. */
    method UpdateValueCell(row: nat, val: real)
      requires 2 <= row < |records| + 2
      modifies this
      ensures records == old(records)[row - 2 := Record(old(records)[row - 2].key, val)]
    {
      records := records[row - 2 := Record(records[row - 2].key, val)];
    }

    /** `append_row([name, val])`. */
    method AppendRow(name: string, val: real)
      modifies this
      ensures records == old(records) + [Record(name, val)]
    {
      records := records + [Record(name, val)];
    }

    /** `set_value(name, val)`: update the first row with the key, or append one. */
    method SetValue(name: string, val: real)
      modifies this
      ensures records == Upsert(old(records), name, val)
    {
      var keys := Keys(records);
      var found := IndexOf(keys, name);
      if found.Some? {
        var rowIndex := found.value + 2;
        UpsertPresent(records, name, val, found.value);
        UpdateValueCell(rowIndex, val);
      } else {
        UpsertAbsent(records, name, val);
        AppendRow(name, val);
      }
    }
  }
}
