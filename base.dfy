/** The schema-driven deserialiser of `xivapi/models/base.py`, on values.

    A descriptor (`Elem`, `ElemList`, `ElemGroup`) says which raw keys one
    attribute reads and which transform turns them into the attribute's
    value. A model instance is its class name, its client and its raw
    payload; reading a declared attribute parses that payload afresh. The
    class-definition-time objects (descriptor objects whose transform and
    range are set in place, the per-class tables, the `Index` registry) are
    in module `Classes`; a snapshot of them is a `Schema`. */
module Base {
  import opened Py
  import opened Json
  import Text

  /** The transform `__init_subclass__` gives a descriptor: its annotation. */
  datatype Transform =
    | ModelClass(cls: string)   // a Model subclass: build a nested model
    | Converter(name: string)   // a converter class that is not a Model subclass, such as `int` or `str`

  /** The subscript of `ElemGroup(...)[...]`: an int `n` or a slice `a:b:s`. */
  datatype RangeArg =
    | Upto(n: int)
    | Slice(start: Option<int>, stop: Option<int>, step: Option<int>)

  /** Which descriptor class: `Elem`, `ElemList`, or `ElemGroup` with the
      range it was subscripted with (`None` when it never was). */
  datatype Shape = Single | Listed | Grouped(range: Option<RangeArg>)

  /** A descriptor as it stands: its shape, its raw keys in declaration
      order, and its transform (`None` until an annotation sets one). */
  datatype Descriptor = Descriptor(shape: Shape, keys: seq<string>, transform: Option<Transform>)

  /** A model instance: the class it belongs to, the client it carries and
      the raw payload it stores. */
  datatype Model = Model(cls: string, client: Client, raw: map<string, Json>)

  /** What reading an attribute gives: `None`, a nested model, a converter
      applied to one argument or to keyword arguments, or a list. */
  datatype Value =
    | Null
    | Instance(model: Model)
    | Call(conv: string, arg: Json)
    | CallKw(conv: string, kwargs: map<string, Json>)
    | List(items: seq<Value>)

  /** `cls.elems` of one class: attribute name to descriptor. */
  type Elems = map<string, Descriptor>

  /** The descriptor tables of every Model subclass, by class name. */
  type Schema = map<string, Elems>

  // ---------------------------------------------------------------------
  // Model.__init__ and Model.__getitem__
  // ---------------------------------------------------------------------

  /** `cls(client, _dct, **kwargs)`: the keyword arguments updated with
      `_dct` when it is not `None`, so `_dct` entries override them. */
  function New(cls: string, client: Client, dct: Json, kwargs: map<string, Json>): (r: Result<Model>)
    ensures r.Ok? <==> dct.JNull? || dct.JObj?
    ensures r.Err? ==> r.error == UpdateError
    ensures r.Ok? ==> r.value.cls == cls && r.value.client == client
    ensures r.Ok? ==> r.value.raw.Keys == kwargs.Keys + (if dct.JObj? then dct.fields.Keys else {})
    ensures r.Ok? && dct.JObj? ==> forall k :: k in dct.fields ==> r.value.raw[k] == dct.fields[k]
    ensures r.Ok? ==> forall k :: k in kwargs && !(dct.JObj? && k in dct.fields) ==> r.value.raw[k] == kwargs[k]
  {
    match dct
    case JNull => Ok(Model(cls, client, kwargs))
    case JObj(fields) => Ok(Model(cls, client, kwargs + fields))
    case _ => Err(UpdateError)
  }

  /** `obj[key]`: the raw payload value, untouched. */
  function GetItem(m: Model, key: string): (r: Result<Json>)
    ensures r.Ok? <==> key in m.raw
    ensures r.Ok? ==> r.value == m.raw[key]
    ensures r.Err? ==> r.error == KeyError(key)
  {
    if key in m.raw then Ok(m.raw[key]) else Err(KeyError(key))
  }

  // ---------------------------------------------------------------------
  // BaseElem.do_transform
  // ---------------------------------------------------------------------

  /** The value handed to the transform: the lone value of a one-entry
      mapping, otherwise the mapping itself. */
  function Unwrap(data: map<string, Json>): (d: Json)
    ensures |data| != 1 ==> d == JObj(data)
    ensures |data| == 1 ==> forall k :: k in data ==> d == data[k]
  {
    if |data| == 1 then Lone(data) else JObj(data)
  }

  /** The transform applied to a non-null extracted value: a Model subclass
      builds a nested model over it with the same client, a dict is spread
      as keyword arguments, anything else is passed as the one argument.
      With no transform, `issubclass(None, Model)` raises `TypeError`. */
  function Apply(t: Option<Transform>, client: Client, d: Json): (r: Result<Value>)
    requires d != JNull
    ensures r != Ok(Null)
    ensures r.Err? ==> r.error == TypeError || r.error == UpdateError
    ensures t.None? ==> r == Err(TypeError)
    ensures t.Some? && t.value.ModelClass? ==> (r.Ok? <==> d.JObj?)
    ensures t.Some? && t.value.ModelClass? && d.JObj? ==> r == Ok(Instance(Model(t.value.cls, client, d.fields)))
    ensures t.Some? && t.value.ModelClass? && !d.JObj? ==> r == Err(UpdateError)
    ensures t.Some? && t.value.Converter? ==> r == Ok(if d.JObj? then CallKw(t.value.name, d.fields) else Call(t.value.name, d))
    ensures r.Ok? && r.value.Instance? ==> r.value.model.client == client
    ensures r.Ok? && r.value.Instance? ==> t == Some(ModelClass(r.value.model.cls)) && JObj(r.value.model.raw) == d
    ensures r.Ok? && r.value.CallKw? ==> t == Some(Converter(r.value.conv)) && JObj(r.value.kwargs) == d
    ensures r.Ok? && r.value.Call? ==> t == Some(Converter(r.value.conv)) && r.value.arg == d && !d.JObj?
  {
    match t
    case None => Err(TypeError)
    case Some(ModelClass(c)) =>
      var m :- New(c, client, d, map[]);
      assert d.JObj? ==> m.raw == d.fields;
      Ok(Instance(m))
    case Some(Converter(f)) =>
      if d.JObj? then Ok(CallKw(f, d.fields)) else Ok(Call(f, d))
  }

  /** `do_transform(model, data)`. */
  function DoTransform(t: Option<Transform>, client: Client, data: map<string, Json>): (r: Result<Value>)
    ensures r == Ok(Null) <==> Unwrap(data) == JNull
    ensures Unwrap(data) != JNull ==> r == Apply(t, client, Unwrap(data))
    ensures r.Err? ==> r.error == TypeError || r.error == UpdateError
  {
    var d := Unwrap(data);
    if d == JNull then Ok(Null) else Apply(t, client, d)
  }

  // ---------------------------------------------------------------------
  // Elem.parse
  // ---------------------------------------------------------------------

  /** `{k: data.get(k, None) for k in keys}`. */
  function Picked(raw: map<string, Json>, keys: seq<string>): (data: map<string, Json>)
    ensures data.Keys == set k | k in keys
    ensures forall k :: k in data ==> data[k] == GetOrNull(raw, k)
  {
    map k | k in keys :: GetOrNull(raw, k)
  }

  /** `Elem.parse`: the transform over the picked keys, which never raises
      `KeyError`, since a missing key is read as `None`. */
  function ParseSingle(keys: seq<string>, t: Option<Transform>, client: Client, raw: map<string, Json>): (r: Result<Value>)
    ensures r == Ok(Null) <==> Unwrap(Picked(raw, keys)) == JNull
    ensures r.Err? ==> r.error == TypeError || r.error == UpdateError
  {
    DoTransform(t, client, Picked(raw, keys))
  }

  // ---------------------------------------------------------------------
  // ElemList.parse
  // ---------------------------------------------------------------------

  /** `data[key][i] if isinstance(data[key], list) else data[key]`. */
  function ListCell(raw: map<string, Json>, key: string, i: nat): (r: Result<Json>)
    ensures r.Ok? ==> key in raw
    ensures r.Ok? && raw[key].JList? ==> i < |raw[key].items| && r.value == raw[key].items[i]
    ensures r.Ok? && !raw[key].JList? ==> r.value == raw[key]
    ensures r.Err? ==> ((key !in raw && r.error == KeyError(key))
                        || (key in raw && raw[key].JList? && |raw[key].items| <= i && r.error == IndexError))
  {
    if key !in raw then Err(KeyError(key))
    else match raw[key]
      case JList(items) => if i < |items| then Ok(items[i]) else Err(IndexError)
      case v => Ok(v)
  }

  /** The mapping handed to the transform at position `i`: the dict
      comprehension over the keys, evaluated left to right. */
  function ListRow(raw: map<string, Json>, keys: seq<string>, i: nat): (r: Result<map<string, Json>>)
    ensures r.Ok? <==> forall j :: 0 <= j < |keys| ==> ListCell(raw, keys[j], i).Ok?
    ensures r.Ok? ==> r.value.Keys == set k | k in keys
    ensures r.Ok? ==> forall k :: k in r.value ==> ListCell(raw, k, i) == Ok(r.value[k])
    ensures r.Err? ==> exists j :: 0 <= j < |keys| && ListCell(raw, keys[j], i) == Err(r.error)
                                   && forall k :: 0 <= k < j ==> ListCell(raw, keys[k], i).Ok?
    decreases |keys|
  {
    if keys == [] then Ok(map[])
    else
      var init := keys[..|keys| - 1];
      assert forall j :: 0 <= j < |init| ==> init[j] == keys[j];
      var row :- ListRow(raw, init, i);
      var v :- ListCell(raw, keys[|keys| - 1], i);
      assert keys == init + [keys[|keys| - 1]];
      Ok(row[keys[|keys| - 1] := v])
  }

  function ListRows(raw: map<string, Json>, keys: seq<string>, n: nat): (rows: seq<Result<map<string, Json>>>)
    ensures |rows| == n
    ensures forall i :: 0 <= i < n ==> rows[i] == ListRow(raw, keys, i)
  {
    seq(n, i requires 0 <= i < n => ListRow(raw, keys, i))
  }

  /** What `do_transform` makes of one row: the row's own error when it
      could not be built, otherwise the transform's result. */
  function Outcome(t: Option<Transform>, client: Client, row: Result<map<string, Json>>): Result<Value>
  {
    if row.Err? then Err(row.error) else DoTransform(t, client, row.value)
  }

  /** `[do_transform(model, row) for row in rows]`, left to right: the first
      row that cannot be built or transformed raises. */
  function TransformAll(t: Option<Transform>, client: Client, rows: seq<Result<map<string, Json>>>): (r: Result<seq<Value>>)
    ensures r.Ok? <==> forall j :: 0 <= j < |rows| ==> Outcome(t, client, rows[j]).Ok?
    ensures r.Ok? ==> |r.value| == |rows|
    ensures r.Ok? ==> forall j :: 0 <= j < |rows| ==> Outcome(t, client, rows[j]) == Ok(r.value[j])
    ensures forall j :: 0 <= j < |rows| && Outcome(t, client, rows[j]).Err?
                        && (forall i :: 0 <= i < j ==> Outcome(t, client, rows[i]).Ok?)
                        ==> r == Err(Outcome(t, client, rows[j]).error)
    decreases |rows|
  {
    if rows == [] then Ok([])
    else
      var init := rows[..|rows| - 1];
      assert forall j :: 0 <= j < |init| ==> rows[j] == init[j];
      var vs :- TransformAll(t, client, init);
      var v :- Outcome(t, client, rows[|rows| - 1]);
      Ok(vs + [v])
  }

  /** `ElemList.parse`: one transformed element per position of the first
      key's value; `len` of that value drives the length. */
  function ParseList(keys: seq<string>, t: Option<Transform>, client: Client, raw: map<string, Json>): (r: Result<Value>)
    ensures keys == [] ==> r == Err(IndexError)
    ensures keys != [] && keys[0] !in raw ==> r == Err(KeyError(keys[0]))
    ensures r.Ok? ==> keys != [] && keys[0] in raw && r.value.List? && Len(raw[keys[0]]) == Ok(|r.value.items|)
  {
    if keys == [] then Err(IndexError)
    else if keys[0] !in raw then Err(KeyError(keys[0]))
    else
      var n :- Len(raw[keys[0]]);
      var vs :- TransformAll(t, client, ListRows(raw, keys, n));
      Ok(List(vs))
  }

  // ---------------------------------------------------------------------
  // ElemGroup.parse
  // ---------------------------------------------------------------------

  lemma MulSucc(j: int, step: int)
    ensures (j + 1) * step == j * step + step
  {
  }

  /** `range(start, stop, step)`. */
  function PyRange(start: int, stop: int, step: int): (r: seq<int>)
    requires step != 0
    ensures forall j :: 0 <= j < |r| ==> r[j] == start + j * step
    ensures step > 0 ==> (forall j :: 0 <= j < |r| ==> r[j] < stop) && start + |r| * step >= stop
    ensures step < 0 ==> (forall j :: 0 <= j < |r| ==> r[j] > stop) && start + |r| * step <= stop
    ensures step == 1 ==> |r| == if start < stop then stop - start else 0
    decreases if step > 0 then stop - start else start - stop
  {
    if (step > 0 && start < stop) || (step < 0 && start > stop) then
      var rest := PyRange(start + step, stop, step);
      var r := [start] + rest;
      forall j | 1 <= j < |r| ensures r[j] == start + j * step {
        MulSucc(j - 1, step);
      }
      MulSucc(|rest|, step);
      r
    else
      []
  }

  /** The indices an ElemGroup iterates over: `n` gives `range(n + 1)`, a
      slice `a:b:s` gives `range(a or 0, b + 1, s or 1)`; a slice without
      a stop raises `TypeError` on `None + 1`. */
  function Indices(arg: RangeArg): (r: Result<seq<int>>)
    ensures r.Err? <==> arg.Slice? && arg.stop.None?
    ensures r.Err? ==> r.error == TypeError
  {
    match arg
    case Upto(n) => Ok(PyRange(0, n + 1, 1))
    case Slice(start, stop, step) =>
      if stop.None? then Err(TypeError)
      else
        var a := if start.Some? then start.value else 0;
        var s := if step.Some? && step.value != 0 then step.value else 1;
        Ok(PyRange(a, stop.value + 1, s))
  }

  /** `k.replace('*', str(i))`: the raw key a template reads at index `i`. */
  function Slot(template: string, i: int): string
  {
    Text.ReplaceStar(template, Text.IntToString(i))
  }

  /** `k.replace('*', '')`: the name a template's value goes under. */
  function Stripped(template: string): (r: string)
    ensures '*' !in r
  {
    Text.ReplaceStar(template, "")
  }

  /** Template `j` is the first whose numbered key at index `i` is missing. */
  predicate FirstMissingSlot(raw: map<string, Json>, keys: seq<string>, i: int, j: int)
  {
    0 <= j < |keys| && Slot(keys[j], i) !in raw && forall k :: 0 <= k < j ==> Slot(keys[k], i) in raw
  }

  /** The first missing slot of some templates stays the first once more
      templates follow. */
  lemma FirstMissingPrefix(raw: map<string, Json>, keys: seq<string>, i: int)
    requires |keys| > 0
    ensures forall j :: FirstMissingSlot(raw, keys[..|keys| - 1], i, j) ==> FirstMissingSlot(raw, keys, i, j)
  {
    assert forall j :: 0 <= j < |keys| - 1 ==> keys[..|keys| - 1][j] == keys[j];
  }

  /** The mapping handed to the transform at index `i`, left to right, a
      later template overriding an earlier one with the same stripped name. */
  function GroupRow(raw: map<string, Json>, keys: seq<string>, i: int): (r: Result<map<string, Json>>)
    ensures r.Ok? <==> forall j :: 0 <= j < |keys| ==> Slot(keys[j], i) in raw
    ensures r.Err? ==> exists j :: FirstMissingSlot(raw, keys, i, j) && r.error == KeyError(Slot(keys[j], i))
    decreases |keys|
  {
    if keys == [] then Ok(map[])
    else
      var init := keys[..|keys| - 1];
      var last := keys[|keys| - 1];
      var prev := GroupRow(raw, init, i);
      assert forall j :: 0 <= j < |init| ==> init[j] == keys[j];
      if prev.Err? then
        FirstMissingPrefix(raw, keys, i);
        Err(prev.error)
      else if Slot(last, i) !in raw then
        assert FirstMissingSlot(raw, keys, i, |keys| - 1);
        Err(KeyError(Slot(last, i)))
      else
        Ok(prev.value[Stripped(last) := raw[Slot(last, i)]])
  }

  function GroupRows(raw: map<string, Json>, keys: seq<string>, idx: seq<int>): (rows: seq<Result<map<string, Json>>>)
    ensures |rows| == |idx|
    ensures forall j :: 0 <= j < |idx| ==> rows[j] == GroupRow(raw, keys, idx[j])
  {
    seq(|idx|, j requires 0 <= j < |idx| => GroupRow(raw, keys, idx[j]))
  }

  /** `[a for a in vs if a is not None]`. */
  function DropNulls(vs: seq<Value>): (r: seq<Value>)
    ensures forall v :: v in r <==> v in vs && v != Null
    ensures |r| <= |vs|
  {
    if vs == [] then []
    else (if vs[0] == Null then [] else [vs[0]]) + DropNulls(vs[1..])
  }

  /** `ElemGroup.parse`. */
  function ParseGroup(keys: seq<string>, t: Option<Transform>, range: Option<RangeArg>, client: Client, raw: map<string, Json>): (r: Result<Value>)
    ensures range.None? ==> r == Err(TypeError)
    ensures r.Ok? ==> range.Some? && Indices(range.value).Ok? && r.value.List?
                      && Null !in r.value.items && |r.value.items| <= |Indices(range.value).value|
  {
    if range.None? then Err(TypeError)
    else
      var idx :- Indices(range.value);
      var vs :- TransformAll(t, client, GroupRows(raw, keys, idx));
      Ok(List(DropNulls(vs)))
  }

  // ---------------------------------------------------------------------
  // Descriptor dispatch, Model.__getattribute__ and Model.columns
  // ---------------------------------------------------------------------

  /** `descriptor.parse(model, data)`. */
  function Parse(d: Descriptor, client: Client, raw: map<string, Json>): (r: Result<Value>)
    ensures d.shape.Single? && r.Err? ==> r.error == TypeError || r.error == UpdateError
    ensures !d.shape.Single? && r.Ok? ==> r.value.List?
    ensures d.shape.Grouped? && r.Ok? ==> Null !in r.value.items
  {
    match d.shape
    case Single => ParseSingle(d.keys, d.transform, client, raw)
    case Listed => ParseList(d.keys, d.transform, client, raw)
    case Grouped(range) => ParseGroup(d.keys, d.transform, range, client, raw)
  }

  /** `getattr(m, name)` through `Model.__getattribute__`: a declared
      attribute is parsed from the stored payload on every read, and a
      `KeyError` while parsing becomes `AttributeError(name)`. A name that
      is not declared takes Python's ordinary lookup, outside this model. */
  function GetAttr(schema: Schema, m: Model, name: string): (r: Result<Value>)
    ensures r.Err? ==> !r.error.KeyError?
    ensures m.cls in schema && name !in schema[m.cls] ==> r == Err(NotDeclared(name))
    ensures m.cls !in schema ==> r == Err(AttributeError("elems"))
    ensures m.cls in schema && name in schema[m.cls] ==>
              var p := Parse(schema[m.cls][name], m.client, m.raw);
              && (!(p.Err? && p.error.KeyError?) ==> r == p)
              && (p.Err? && p.error.KeyError? ==> r == Err(AttributeError(name)))
  {
    if m.cls !in schema then
      // an instance of the base class itself, which has no `elems` table
      Err(AttributeError("elems"))
    else if name !in schema[m.cls] then Err(NotDeclared(name))
    else
      var p := Parse(schema[m.cls][name], m.client, m.raw);
      if p.Err? && p.error.KeyError? then Err(AttributeError(name)) else p
  }

  /** The raw keys a class's descriptors read, as the set `columns()` lists. */
  function ColumnSet(elems: Elems): (s: set<string>)
    ensures forall n, k :: n in elems && k in elems[n].keys ==> k in s
    ensures forall k :: k in s ==> exists n :: n in elems && k in elems[n].keys
  {
    set n, k | n in elems && k in elems[n].keys :: k
  }
}
