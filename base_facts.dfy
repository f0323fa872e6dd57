/** What the descriptors of `xivapi/models/base.py` promise, stated over the
    functions of module `Base`. */
module BaseFacts {
  import opened Py
  import opened Json
  import opened Base
  import Text

  // ---------------------------------------------------------------------
  // Elem
  // ---------------------------------------------------------------------

  /** A one-key `Elem`: a missing key and a null value both read as `None`;
      otherwise the transform is applied to the raw value itself, a Model
      transform building a nested model with the same client and a dict
      value being spread into a converter. */
  lemma SingleKeyElem(k: string, t: Option<Transform>, client: Client, raw: map<string, Json>)
    ensures k !in raw || raw[k] == JNull ==> ParseSingle([k], t, client, raw) == Ok(Null)
    ensures k in raw && raw[k] != JNull ==> ParseSingle([k], t, client, raw) == Apply(t, client, raw[k])
    ensures (k in raw && raw[k].JObj? && t.Some? && t.value.ModelClass?)
              ==> ParseSingle([k], t, client, raw) == Ok(Instance(Model(t.value.cls, client, raw[k].fields)))
    ensures (k in raw && raw[k].JObj? && t.Some? && t.value.Converter?)
              ==> ParseSingle([k], t, client, raw) == Ok(CallKw(t.value.name, raw[k].fields))
  {
    var data := Picked(raw, [k]);
    assert data.Keys == {k};
    assert |data| == 1;
    assert Unwrap(data) == GetOrNull(raw, k);
  }

  /** Reading a one-key `Elem` attribute hands its transform the one-entry
      mapping of that key, `None` when absent, and never raises
      `AttributeError`. */
  lemma SingleKeyRead(schema: Schema, m: Model, name: string, k: string)
    requires m.cls in schema && name in schema[m.cls]
    requires schema[m.cls][name].shape == Single && schema[m.cls][name].keys == [k]
    ensures GetAttr(schema, m, name)
            == DoTransform(schema[m.cls][name].transform, m.client, map[k := GetOrNull(m.raw, k)])
  {
    assert Picked(m.raw, [k]) == map[k := GetOrNull(m.raw, k)];
  }

  /** An `Elem` over several distinct keys always hands the transform the
      mapping of exactly those keys, an absent key mapped to `None`: it is
      never unwrapped and never short-circuits to `None`, not even when
      every key is absent. */
  lemma MultiKeyElem(keys: seq<string>, t: Option<Transform>, client: Client, raw: map<string, Json>)
    requires |set k | k in keys| != 1
    ensures ParseSingle(keys, t, client, raw) != Ok(Null)
    ensures t.None? ==> ParseSingle(keys, t, client, raw) == Err(TypeError)
    ensures (t.Some? && t.value.ModelClass?)
              ==> ParseSingle(keys, t, client, raw) == Ok(Instance(Model(t.value.cls, client, Picked(raw, keys))))
    ensures (t.Some? && t.value.Converter?)
              ==> ParseSingle(keys, t, client, raw) == Ok(CallKw(t.value.name, Picked(raw, keys)))
    ensures Picked(raw, keys).Keys == set k | k in keys
    ensures forall k :: k in keys && k !in raw ==> Picked(raw, keys)[k] == JNull
  {
    var data := Picked(raw, keys);
    assert |data| == |set k | k in keys|;
    assert Unwrap(data) == JObj(data);
  }

  /** What a Model transform makes of one raw value: `None` stays `None`,
      a dict becomes a nested model over it with the same client, and
      anything else cannot be merged into the keyword arguments. */
  function NestedValue(cls: string, client: Client, v: Json): Result<Value>
  {
    if v == JNull then Ok(Null)
    else if v.JObj? then Ok(Instance(Model(cls, client, v.fields)))
    else Err(UpdateError)
  }

  /** A one-entry mapping is unwrapped before a Model transform sees it. */
  lemma OneEntryNested(k: string, v: Json, cls: string, client: Client)
    ensures DoTransform(Some(ModelClass(cls)), client, map[k := v]) == NestedValue(cls, client, v)
  {
    assert |map[k := v]| == 1 by {
      assert map[k := v].Keys == {k};
    }
    if v.JObj? {
      assert map[] + v.fields == v.fields;
    }
  }

  // ---------------------------------------------------------------------
  // ElemList
  // ---------------------------------------------------------------------

  /** An `ElemList` result has one element per position of the first key's
      value; element `i` is the transform of the row at `i`, `None` kept. */
  lemma ListElements(keys: seq<string>, t: Option<Transform>, client: Client, raw: map<string, Json>)
    requires ParseList(keys, t, client, raw).Ok?
    ensures keys != [] && keys[0] in raw
    ensures ParseList(keys, t, client, raw).value.List?
    ensures Len(raw[keys[0]]) == Ok(|ParseList(keys, t, client, raw).value.items|)
    ensures forall i :: 0 <= i < |ParseList(keys, t, client, raw).value.items| ==>
              ListRow(raw, keys, i).Ok? &&
              DoTransform(t, client, ListRow(raw, keys, i).value) == Ok(ParseList(keys, t, client, raw).value.items[i])
  {
  }

  /** The row at position `i` takes `value[i]` from each list-valued key and
      the whole value from every other key. */
  lemma ListRowCells(raw: map<string, Json>, keys: seq<string>, i: nat)
    requires ListRow(raw, keys, i).Ok?
    ensures forall k :: k in keys ==> k in raw && k in ListRow(raw, keys, i).value
    ensures forall k :: k in keys && raw[k].JList? ==>
              i < |raw[k].items| && ListRow(raw, keys, i).value[k] == raw[k].items[i]
    ensures forall k :: k in keys && !raw[k].JList? ==> ListRow(raw, keys, i).value[k] == raw[k]
  {
    var row := ListRow(raw, keys, i).value;
    forall k | k in keys ensures k in raw && k in row {
      var j :| 0 <= j < |keys| && keys[j] == k;
      assert ListCell(raw, keys[j], i).Ok?;
    }
  }

  /** A declared key that is missing raises `KeyError` (once there is at
      least one position to fill); it is never read as `None`. */
  lemma ListMissingKey(keys: seq<string>, t: Option<Transform>, client: Client, raw: map<string, Json>, k: string)
    requires k in keys && k !in raw
    requires keys[0] in raw ==> Len(raw[keys[0]]).Ok? && Len(raw[keys[0]]).value > 0
    requires forall j :: 0 <= j < |keys| && keys[j] in raw && raw[keys[j]].JList? ==> |raw[keys[j]].items| > 0
    ensures ParseList(keys, t, client, raw).Err?
    ensures ParseList(keys, t, client, raw).error.KeyError?
    ensures ParseList(keys, t, client, raw).error.key in keys && ParseList(keys, t, client, raw).error.key !in raw
  {
    if keys[0] in raw {
      var n := Len(raw[keys[0]]).value;
      var rows := ListRows(raw, keys, n);
      var j :| 0 <= j < |keys| && keys[j] == k;
      assert ListCell(raw, keys[j], 0).Err?;
      assert rows[0] == ListRow(raw, keys, 0);
      assert rows[0].Err?;
      var e := rows[0].error;
      var j' :| 0 <= j' < |keys| && ListCell(raw, keys[j'], 0) == Err(e);
      assert Outcome(t, client, rows[0]) == Err(e);
    }
  }

  /** Through attribute access, that `KeyError` becomes `AttributeError`. */
  lemma ListMissingKeyAttribute(schema: Schema, m: Model, name: string, k: string)
    requires m.cls in schema && name in schema[m.cls]
    requires schema[m.cls][name].shape == Listed
    requires k in schema[m.cls][name].keys && k !in m.raw
    requires var keys := schema[m.cls][name].keys;
             keys[0] in m.raw ==> Len(m.raw[keys[0]]).Ok? && Len(m.raw[keys[0]]).value > 0
    requires var keys := schema[m.cls][name].keys;
             forall j :: 0 <= j < |keys| && keys[j] in m.raw && m.raw[keys[j]].JList? ==> |m.raw[keys[j]].items| > 0
    ensures GetAttr(schema, m, name) == Err(AttributeError(name))
  {
    var d := schema[m.cls][name];
    ListMissingKey(d.keys, d.transform, m.client, m.raw, k);
  }

  /** What a Model transform makes of a raw value it accepts: a nested
      model over a dict, `None` for anything else (a null). */
  function Built(cls: string, client: Client, v: Json): Value
  {
    if v.JObj? then Instance(Model(cls, client, v.fields)) else Null
  }

  /** Whether every raw element is one a Model transform accepts. */
  predicate Buildable(items: seq<Json>)
  {
    forall i :: 0 <= i < |items| ==> items[i].JNull? || items[i].JObj?
  }

  /** A one-key row over a list value is that list's element. */
  lemma ListRowOne(raw: map<string, Json>, k: string, i: nat)
    requires k in raw && raw[k].JList? && i < |raw[k].items|
    ensures ListRow(raw, [k], i) == Ok(map[k := raw[k].items[i]])
  {
    assert [k][..0] == [];
  }

  /** A one-key `ElemList` of a Model class over a raw list: one nested
      model per dict element and `None` per null one, in order; it fails
      exactly when some element is neither. */
  lemma ListOfModels(k: string, cls: string, client: Client, raw: map<string, Json>)
    requires k in raw && raw[k].JList?
    ensures var r := ParseList([k], Some(ModelClass(cls)), client, raw);
            var items := raw[k].items;
            && (r.Ok? <==> Buildable(items))
            && (r.Ok? ==> r.value == List(seq(|items|, i requires 0 <= i < |items| => Built(cls, client, items[i]))))
  {
    var items := raw[k].items;
    var t := Some(ModelClass(cls));
    var rows := ListRows(raw, [k], |items|);
    forall i | 0 <= i < |items|
      ensures Outcome(t, client, rows[i]) == NestedValue(cls, client, items[i])
    {
      ListRowOne(raw, k, i);
      OneEntryNested(k, items[i], cls, client);
    }
    var all := TransformAll(t, client, rows);
    if all.Ok? {
      var vs := seq(|items|, i requires 0 <= i < |items| => Built(cls, client, items[i]));
      forall i | 0 <= i < |items| ensures all.value[i] == vs[i] {
        assert Outcome(t, client, rows[i]) == Ok(all.value[i]);
      }
      assert all.value == vs;
    }
  }

  /** A one-key row over a value that is not a list is the whole value. */
  lemma ListRowWhole(raw: map<string, Json>, k: string, i: nat)
    requires k in raw && !raw[k].JList?
    ensures ListRow(raw, [k], i) == Ok(map[k := raw[k]])
  {
    assert [k][..0] == [];
  }

  /** A one-key `ElemList` over a raw dict: `len` counts its entries and
      every position receives the whole dict, so the list holds that many
      copies of the same nested model. */
  lemma ListOverDict(k: string, cls: string, client: Client, raw: map<string, Json>)
    requires k in raw && raw[k].JObj?
    ensures ParseList([k], Some(ModelClass(cls)), client, raw)
            == Ok(List(seq(|raw[k].fields|, _ => Instance(Model(cls, client, raw[k].fields)))))
  {
    var n := |raw[k].fields|;
    var t := Some(ModelClass(cls));
    var rows := ListRows(raw, [k], n);
    var v := Instance(Model(cls, client, raw[k].fields));
    ListRowWhole(raw, k, 0);
    OneEntryNested(k, raw[k], cls, client);
    assert Outcome(t, client, Ok(map[k := raw[k]])) == Ok(v);
    assert forall i :: 0 <= i < n ==> rows[i] == Ok(map[k := raw[k]]) by {
      forall i | 0 <= i < n ensures rows[i] == Ok(map[k := raw[k]]) {
        ListRowWhole(raw, k, i);
      }
    }
    var all := TransformAll(t, client, rows);
    assert all.Ok?;
    var vs := seq(n, _ => v);
    assert forall i :: 0 <= i < n ==> all.value[i] == vs[i];
    assert all.value == vs;
  }

  // ---------------------------------------------------------------------
  // ElemGroup
  // ---------------------------------------------------------------------

  /** An `ElemGroup` that was never subscripted raises `TypeError`, whatever
      the payload. */
  lemma GroupNeedsRange(keys: seq<string>, t: Option<Transform>, client: Client, raw: map<string, Json>)
    ensures ParseGroup(keys, t, None, client, raw) == Err(TypeError)
  {
  }

  /** `range(a, c)`: the integers from `a` up to but excluding `c`. */
  lemma StepOneRange(a: int, c: int)
    ensures PyRange(a, c, 1) == if a < c then seq(c - a, j => a + j) else []
  {
    var r := PyRange(a, c, 1);
    assert forall j :: 0 <= j < |r| ==> r[j] == a + j;
  }

  /** An int subscript `n` iterates over `0..n` inclusive. */
  lemma UptoIndices(n: int)
    ensures Indices(Upto(n)) == Ok(if n >= 0 then seq(n + 1, j => j) else [])
  {
    StepOneRange(0, n + 1);
    if n >= 0 {
      assert seq(n + 1, j => 0 + j) == seq(n + 1, j => j);
    }
  }

  /** A slice `a:b` iterates over `a..b` inclusive with step 1; a missing
      start counts from 0, a missing or zero step is 1. */
  lemma SliceIndices(start: Option<int>, b: int, step: Option<int>)
    requires step.None? || step == Some(0) || step == Some(1)
    ensures var a := if start.Some? then start.value else 0;
            Indices(Slice(start, Some(b), step)) == Ok(if a <= b then seq(b - a + 1, j => a + j) else [])
  {
    var a := if start.Some? then start.value else 0;
    StepOneRange(a, b + 1);
  }

  /** A slice `a:b:s` with any step iterates from `a` (default 0) by `s`
      (default 1, and `0 or 1` is 1) over the values that do not pass `b`:
      up to `b` inclusive for a positive step, down to `b + 2` for a
      negative one. */
  lemma SliceStepIndices(start: Option<int>, b: int, step: Option<int>)
    ensures var a := if start.Some? then start.value else 0;
            var s := if step.Some? && step.value != 0 then step.value else 1;
            var r := Indices(Slice(start, Some(b), step));
            && r.Ok?
            && (forall j :: 0 <= j < |r.value| ==> r.value[j] == a + j * s)
            && (s > 0 ==> (forall j :: 0 <= j < |r.value| ==> r.value[j] <= b) && a + |r.value| * s > b)
            && (s < 0 ==> (forall j :: 0 <= j < |r.value| ==> r.value[j] > b + 1) && a + |r.value| * s <= b + 1)
  {
  }

  /** A slice without a stop raises `TypeError`. */
  lemma SliceNeedsStop(start: Option<int>, step: Option<int>)
    ensures Indices(Slice(start, None, step)) == Err(TypeError)
  {
  }

  /** `__getitem__` leaves the same descriptor, so `ElemGroup(k)[n]` and
      `ElemGroup(k)[0:n]` read the same slots. */
  lemma UptoIsSliceFromZero(n: int)
    ensures Indices(Upto(n)) == Indices(Slice(None, Some(n), None))
  {
  }

  /** A template `p*s` reads the raw key `p<i>s` at index `i` and files its
      value under the name `ps`; a key without a marker is read as it is at
      every index. */
  lemma TemplateKeys(p: string, s: string, i: int)
    requires '*' !in p && '*' !in s
    ensures Slot(p + "*" + s, i) == p + Text.IntToString(i) + s
    ensures Stripped(p + "*" + s) == p + s
    ensures Slot(p + s, i) == p + s
  {
    Text.ReplaceStarAround(p, s, Text.IntToString(i));
    Text.ReplaceStarAround(p, s, "");
  }

  /** The row at index `i` has one entry per stripped template name... */
  lemma {:induction false} GroupRowKeys(raw: map<string, Json>, keys: seq<string>, i: int)
    requires GroupRow(raw, keys, i).Ok?
    ensures GroupRow(raw, keys, i).value.Keys == set k | k in keys :: Stripped(k)
    decreases |keys|
  {
    if keys != [] {
      var init := keys[..|keys| - 1];
      var last := keys[|keys| - 1];
      assert keys == init + [last];
      var row := GroupRow(raw, init, i).value;
      GroupRowKeys(raw, init, i);
      assert GroupRow(raw, keys, i).value.Keys == row.Keys + {Stripped(last)};
      forall n | n in set k | k in keys :: Stripped(k)
        ensures n in row.Keys + {Stripped(last)}
      {
        var k :| k in keys && n == Stripped(k);
        if k != last {
          assert k in init;
        }
      }
    }
  }

  /** ...holding the value of the slot key that the last template of that
      name reads. */
  lemma {:induction false} GroupRowValues(raw: map<string, Json>, keys: seq<string>, i: int, j: nat)
    requires GroupRow(raw, keys, i).Ok?
    requires j < |keys|
    requires forall j' :: j < j' < |keys| ==> Stripped(keys[j']) != Stripped(keys[j])
    ensures Stripped(keys[j]) in GroupRow(raw, keys, i).value
    ensures GroupRow(raw, keys, i).value[Stripped(keys[j])] == raw[Slot(keys[j], i)]
    decreases |keys|
  {
    var init := keys[..|keys| - 1];
    var last := keys[|keys| - 1];
    var whole := GroupRow(raw, keys, i);
    var row := GroupRow(raw, init, i);
    assert row.Ok? && Slot(last, i) in raw;
    assert whole == Ok(row.value[Stripped(last) := raw[Slot(last, i)]]);
    if j < |keys| - 1 {
      assert keys[j] == init[j];
      assert Stripped(last) != Stripped(keys[j]);
      assert forall j' :: j < j' < |init| ==> init[j'] == keys[j'];
      GroupRowValues(raw, init, i, j);
    }
  }

  /** Filtering out `None` keeps a single value exactly when it is not
      `None`... */
  lemma DropNullsOne(v: Value)
    ensures DropNulls([v]) == if v == Null then [] else [v]
  {
    assert [v][1..] == [];
  }

  /** ...and filters the two parts of a list independently, so the kept
      values stay in their order and keep their multiplicity. */
  lemma {:induction false} DropNullsAppend(a: seq<Value>, b: seq<Value>)
    ensures DropNulls(a + b) == DropNulls(a) + DropNulls(b)
    decreases |a|
  {
    if a == [] {
      assert a + b == b;
    } else {
      assert (a + b)[0] == a[0];
      assert (a + b)[1..] == a[1..] + b;
      DropNullsAppend(a[1..], b);
    }
  }

  /** An `ElemGroup` result keeps, in index order, the transforms of the
      rows that did not come out `None`. */
  lemma GroupOutput(keys: seq<string>, t: Option<Transform>, range: RangeArg, client: Client, raw: map<string, Json>)
    requires ParseGroup(keys, t, Some(range), client, raw).Ok?
    ensures Indices(range).Ok?
    ensures var idx := Indices(range).value;
            exists vs: seq<Value> ::
              && |vs| == |idx|
              && (forall j :: 0 <= j < |idx| ==> DoTransform(t, client, GroupRow(raw, keys, idx[j]).value) == Ok(vs[j]))
              && ParseGroup(keys, t, Some(range), client, raw) == Ok(List(DropNulls(vs)))
    ensures Null !in ParseGroup(keys, t, Some(range), client, raw).value.items
  {
    var idx := Indices(range).value;
    var rows := GroupRows(raw, keys, idx);
    var vs := TransformAll(t, client, rows).value;
    assert forall j :: 0 <= j < |idx| ==> Outcome(t, client, rows[j]) == Ok(vs[j]);
  }

  /** `ElemGroup.parse` fails exactly with the error of the transforms. */
  lemma GroupFailure(keys: seq<string>, t: Option<Transform>, range: RangeArg, client: Client, raw: map<string, Json>)
    requires Indices(range).Ok?
    requires TransformAll(t, client, GroupRows(raw, keys, Indices(range).value)).Err?
    ensures ParseGroup(keys, t, Some(range), client, raw)
            == Err(TransformAll(t, client, GroupRows(raw, keys, Indices(range).value)).error)
  {
  }

  /** A missing slot key is not a dropped slot: the parse raises, and when
      every earlier slot transformed, it raises `KeyError` on a missing key. */
  lemma GroupMissingSlot(keys: seq<string>, t: Option<Transform>, range: RangeArg, client: Client, raw: map<string, Json>, j: nat, k: string)
    requires Indices(range).Ok? && j < |Indices(range).value|
    requires k in keys && Slot(k, Indices(range).value[j]) !in raw
    ensures ParseGroup(keys, t, Some(range), client, raw).Err?
    ensures (forall i :: 0 <= i < j ==> Outcome(t, client, GroupRow(raw, keys, Indices(range).value[i])).Ok?)
              ==> ParseGroup(keys, t, Some(range), client, raw).error.KeyError?
                  && ParseGroup(keys, t, Some(range), client, raw).error.key !in raw
  {
    var idx := Indices(range).value;
    var rows := GroupRows(raw, keys, idx);
    var row := GroupRow(raw, keys, idx[j]);
    var q :| 0 <= q < |keys| && keys[q] == k;
    assert Slot(keys[q], idx[j]) !in raw;
    assert row.Err?;
    assert rows[j] == row;
    assert Outcome(t, client, rows[j]) == Err(row.error);
    var all := TransformAll(t, client, rows);
    assert all.Err?;
    GroupFailure(keys, t, range, client, raw);
    if forall i :: 0 <= i < j ==> Outcome(t, client, GroupRow(raw, keys, idx[i])).Ok? {
      assert forall i :: 0 <= i < j ==> rows[i] == GroupRow(raw, keys, idx[i]);
      assert all == Err(row.error);
    }
  }

  // ---------------------------------------------------------------------
  // Model
  // ---------------------------------------------------------------------

  /** Raw payload entries passed as `_dct` override keyword arguments. */
  lemma DictOverridesKeywords(cls: string, client: Client, dct: map<string, Json>, kwargs: map<string, Json>, k: string)
    requires k in dct && k in kwargs
    ensures New(cls, client, JObj(dct), kwargs).Ok?
    ensures GetItem(New(cls, client, JObj(dct), kwargs).value, k) == Ok(dct[k])
  {
  }
}
