/** The eager variant of the deserialiser, `xivapi/models/__init__.py`.

    Each attribute has one raw key and one transform; constructing an
    instance runs every transform at once and stores the results as
    instance attributes. A transform is the default pass-through, a plain
    callable such as `int`, a Model subclass (a nested instance is built
    over the value with the same client), or a one-element list `[T]`
    mapping `T` over the value's elements. */
module Eager {
  import opened Py
  import opened Json
  import Base
  import Classes

  /** What can be called as a transform. */
  datatype Callable =
    | PassThrough          // the default `lambda _: _`
    | Conv(name: string)   // a class that is not a Model subclass, such as `int` or `str`
    | ModelCls(cls: string) // a Model subclass

  /** An `Elem`'s transform: one callable, or a list annotation, of which
      only the first element is used. */
  datatype Transform = One(c: Callable) | Each(cs: seq<Callable>)

  /** The transform `Elem.__init__` installs. */
  const Default: Transform := One(PassThrough)

  /** An `Elem` as it stands: its raw key (`None` when created without one)
      and its transform. */
  datatype Attr = Attr(key: Option<string>, transform: Transform)

  /** `cls.attrs`: attribute names and their `Elem`s, in insertion order. */
  type Table = seq<(string, Attr)>

  /** The `attrs` table of every Model subclass, by class name. */
  type Tables = map<string, Table>

  /** An attribute value an instance stores. */
  datatype Value =
    | Null                               // `setattr(self, name, None)`
    | Raw(data: Json)                    // the pass-through
    | Called(conv: string, arg: Json)    // `conv(data)`
    | Nested(inst: Instance)             // `T(self.client, data)`
    | Items(items: seq<Value>)           // the list comprehension of a `[T]` annotation

  /** A constructed instance: class, client, the stored raw data
      (`_raw_data_`) and the attributes set on it. A name that is absent
      from `attrs` was never set. */
  datatype Instance = Instance(cls: string, client: Client, raw: map<string, Json>, attrs: map<string, Value>)

  /** The keyword arguments `_dct` contributes: a dict's entries, or none
      for `None`. */
  function Fields(d: Json): (f: map<string, Json>)
    ensures d.JObj? ==> f == d.fields
    ensures !d.JObj? ==> f == map[]
  {
    if d.JObj? then d.fields else map[]
  }

  // ---------------------------------------------------------------------
  // Construction
  // ---------------------------------------------------------------------

  /** Calling one transform on a value, with the pass-through doing what
      its comment says. A Model subclass is called as `T(client, value)`:
      its `_dct` must be `None` or a mapping. */
  function Call(tables: Tables, c: Callable, client: Client, d: Json): (r: Result<Value>)
    ensures c.PassThrough? ==> r == Ok(Raw(d))
    ensures c.Conv? ==> r == Ok(Called(c.name, d))
    ensures c.ModelCls? && !(d.JNull? || d.JObj?) ==> r == Err(UpdateError)
    ensures c.ModelCls? && r.Ok? ==> r.value.Nested? && r.value.inst.cls == c.cls
                                     && r.value.inst.client == client && r.value.inst.raw == Fields(d)
    decreases d, 3
  {
    match c
    case PassThrough => Ok(Raw(d))
    case Conv(f) => Ok(Called(f, d))
    case ModelCls(k) =>
      if d.JNull? || d.JObj? then
        var inst :- Populate(tables, k, client, d);
        Ok(Nested(inst))
      else Err(UpdateError)
  }

  /** Calling one transform as the code is written: `issubclass(transform,
      Model)` comes first, and the default lambda is not a class, so it
      raises `TypeError`. */
  function CallAsWritten(tables: Tables, c: Callable, client: Client, d: Json): (r: Result<Value>)
    ensures c.PassThrough? ==> r == Err(TypeError)
    ensures !c.PassThrough? ==> r == Call(tables, c, client, d)
  {
    if c.PassThrough? then Err(TypeError) else Call(tables, c, client, d)
  }

  /** `T(client, _dct)` once the keyword arguments are merged: an instance
      of class `cls` over `Fields(dct)`, each attribute of its table set in
      turn. Only a class that went through `__init_subclass__` has an
      `attrs` table. */
  function Populate(tables: Tables, cls: string, client: Client, dct: Json): (r: Result<Instance>)
    requires dct.JNull? || dct.JObj?
    ensures r.Ok? ==> r.value.cls == cls && r.value.client == client && r.value.raw == Fields(dct)
    ensures cls !in tables ==> r == Err(AttributeError("attrs"))
    decreases dct, 2
  {
    if cls !in tables then Err(AttributeError("attrs"))
    else
      var attrs :- Fill(tables, tables[cls], client, dct);
      Ok(Instance(cls, client, Fields(dct), attrs))
  }

  /** What one attribute's step of the loop does: `None` when it sets
      nothing (the key is present with a null value), otherwise the value
      it sets (`None` when the key is missing). */
  function Step(tables: Tables, a: Attr, client: Client, dct: Json): (r: Result<Option<Value>>)
    requires dct.JNull? || dct.JObj?
    ensures r == Ok(None) <==> a.key.Some? && a.key.value in Fields(dct) && Fields(dct)[a.key.value].JNull?
    ensures !(a.key.Some? && a.key.value in Fields(dct)) ==> r == Ok(Some(Null))
    decreases dct, 0
  {
    if a.key.Some? && a.key.value in Fields(dct) then
      var d := Fields(dct)[a.key.value];
      if d.JNull? then Ok(None)
      else
        var v :- Apply(tables, a.transform, client, d);
        Ok(Some(v))
    else Ok(Some(Null))
  }

  /** The attribute loop of `Model.__init__` over a table, left to right:
      the first transform that raises aborts construction. */
  function Fill(tables: Tables, t: Table, client: Client, dct: Json): (r: Result<map<string, Value>>)
    requires dct.JNull? || dct.JObj?
    ensures t == [] ==> r == Ok(map[])
    ensures r.Ok? ==> r.value.Keys <= set i | 0 <= i < |t| :: t[i].0
    decreases dct, 1, |t|
  {
    if t == [] then Ok(map[])
    else
      var attrs :- Fill(tables, t[..|t| - 1], client, dct);
      var (name, a) := t[|t| - 1];
      var s :- Step(tables, a, client, dct);
      if s.Some? then Ok(attrs[name := s.value]) else Ok(attrs)
  }

  /** Applying an attribute's transform to a present, non-null value. A
      list annotation maps its first callable over the value's elements:
      a list's items or a string's characters; iterating a non-empty
      dict gives its keys in insertion order, which a map does not keep. */
  function Apply(tables: Tables, tr: Transform, client: Client, d: Json): (r: Result<Value>)
    requires d != JNull
    ensures tr.One? ==> r == Call(tables, tr.c, client, d)
    ensures tr.Each? && tr.cs == [] ==> r == Err(IndexError)
    ensures tr.Each? && tr.cs != [] && (d.JInt? || d.JBool?) ==> r == Err(TypeError)
    decreases d, 4
  {
    match tr
    case One(c) => Call(tables, c, client, d)
    case Each(cs) =>
      if cs == [] then Err(IndexError)
      else match d
        case JList(items) =>
          var vs :- CallEach(tables, cs[0], client, d, items);
          Ok(Items(vs))
        case JStr(s) =>
          var vs :- CallChars(cs[0], s);
          Ok(Items(vs))
        case JObj(f) => if f == map[] then Ok(Items([])) else Err(DictIteration)
        case _ => Err(TypeError)
  }

  /** `[transform(d) for d in items]` (with the client for a Model
      subclass), left to right. */
  function CallEach(tables: Tables, c: Callable, client: Client, ghost parent: Json, items: seq<Json>): (r: Result<seq<Value>>)
    requires forall i :: 0 <= i < |items| ==> items[i] < parent
    ensures r.Ok? <==> forall i :: 0 <= i < |items| ==> Call(tables, c, client, items[i]).Ok?
    ensures r.Ok? ==> |r.value| == |items|
    ensures r.Ok? ==> forall i :: 0 <= i < |items| ==> Call(tables, c, client, items[i]) == Ok(r.value[i])
    ensures forall i :: 0 <= i < |items| && Call(tables, c, client, items[i]).Err?
                        && (forall j :: 0 <= j < i ==> Call(tables, c, client, items[j]).Ok?)
                        ==> r == Err(Call(tables, c, client, items[i]).error)
    decreases parent, 0, |items|
  {
    if items == [] then Ok([])
    else
      var init := items[..|items| - 1];
      assert forall j :: 0 <= j < |init| ==> init[j] == items[j];
      var vs :- CallEach(tables, c, client, parent, init);
      var v :- Call(tables, c, client, items[|items| - 1]);
      Ok(vs + [v])
  }

  /** The list comprehension over a string's characters: a one-character
      string can never update a dict, so a Model subclass fails on the
      first character. */
  function CallChars(c: Callable, s: string): Result<seq<Value>>
  {
    match c
    case PassThrough => Ok(seq(|s|, i requires 0 <= i < |s| => Raw(JStr([s[i]]))))
    case Conv(f) => Ok(seq(|s|, i requires 0 <= i < |s| => Called(f, JStr([s[i]]))))
    case ModelCls(_) => if s == [] then Ok([]) else Err(UpdateError)
  }

  /** `cls(client, _dct, **kwargs)`: `_dct` merged over the keyword
      arguments as in `Base.New`, then the attribute loop. */
  function Construct(tables: Tables, cls: string, client: Client, dct: Json, kwargs: map<string, Json>): (r: Result<Instance>)
    ensures !(dct.JNull? || dct.JObj?) ==> r == Err(UpdateError)
    ensures r.Ok? ==> r.value.cls == cls && r.value.client == client
    ensures r.Ok? ==> r.value.raw == kwargs + Fields(dct)
  {
    var m :- Base.New(cls, client, dct, kwargs);
    assert m.raw == kwargs + Fields(dct);
    Populate(tables, cls, client, JObj(m.raw))
  }

  // ---------------------------------------------------------------------
  // Reading an instance
  // ---------------------------------------------------------------------

  /** What `getattr` finds: a value the constructor set, or, for an
      attribute it left unset, the class's `Elem` object itself. */
  datatype Found = Set(v: Value) | ElemObject(attr: Attr)

  /** The `Elem` a table holds under `name`, if any. */
  function Lookup(t: Table, name: string): (r: Option<Attr>)
    ensures r.Some? <==> exists i :: 0 <= i < |t| && t[i].0 == name
    ensures r.Some? ==> exists i :: 0 <= i < |t| && t[i] == (name, r.value)
    decreases |t|
  {
    if t == [] then None
    else if t[|t| - 1].0 == name then Some(t[|t| - 1].1)
    else
      var r := Lookup(t[..|t| - 1], name);
      assert forall i :: 0 <= i < |t| - 1 ==> t[..|t| - 1][i] == t[i];
      r
  }

  /** `getattr(inst, name)` for an attribute name: a set instance attribute,
      else the class's element object; any other name (`client`,
      `_raw_data_`, `attrs`, `columns`, or one that raises AttributeError)
      is left to ordinary attribute lookup. */
  function Read(tables: Tables, inst: Instance, name: string): (r: Result<Found>)
    ensures name in inst.attrs ==> r == Ok(Set(inst.attrs[name]))
    ensures name !in inst.attrs && inst.cls in tables && Lookup(tables[inst.cls], name).Some? ==>
              r == Ok(ElemObject(Lookup(tables[inst.cls], name).value))
    ensures r.Err? <==> name !in inst.attrs && !(inst.cls in tables && Lookup(tables[inst.cls], name).Some?)
    ensures r.Err? ==> r == Err(NotDeclared(name))
  {
    if name in inst.attrs then Ok(Set(inst.attrs[name]))
    else if inst.cls in tables && Lookup(tables[inst.cls], name).Some? then
      Ok(ElemObject(Lookup(tables[inst.cls], name).value))
    else Err(NotDeclared(name))
  }

  /** `inst[key]`: the stored raw data, untouched, exactly as `Model.__getitem__`
      of the lazy variant reads it. */
  function Subscript(inst: Instance, key: string): (r: Result<Json>)
    ensures r.Ok? <==> key in inst.raw
    ensures r.Ok? ==> r.value == inst.raw[key]
    ensures r.Err? ==> r.error == KeyError(key)
  {
    Base.GetItem(Base.Model(inst.cls, inst.client, inst.raw), key)
  }

  /** `cls.columns()`: each attribute's key, in table order. */
  function Columns(t: Table): (r: seq<Option<string>>)
    ensures |r| == |t|
    ensures forall e :: e in t ==> e.1.key in r
    ensures forall k :: k in r ==> exists e :: e in t && e.1.key == k
  {
    var r := seq(|t|, i requires 0 <= i < |t| => t[i].1.key);
    assert forall i :: 0 <= i < |t| ==> r[i] == t[i].1.key;
    r
  }

  // ---------------------------------------------------------------------
  // Class definition
  // ---------------------------------------------------------------------

  /** One statement of a class body: `name = Elem(key)`, or a binding of
      anything else. */
  datatype Decl = ElemDecl(name: string, key: Option<string>) | OtherDecl(name: string)

  /** A class namespace binds each name once. */
  predicate Distinct(decls: seq<Decl>)
  {
    forall i, j :: 0 <= i < j < |decls| ==> decls[i].name != decls[j].name
  }

  /** The transform `__init_subclass__` leaves on the `Elem` bound to
      `name`: its annotation when there is one, else the default. */
  function Annotated(name: string, annotations: map<string, Transform>): Transform
  {
    if name in annotations then annotations[name] else Default
  }

  /** The `attrs` table a class body declares. */
  function Declared(decls: seq<Decl>, annotations: map<string, Transform>): Table
    decreases |decls|
  {
    if decls == [] then []
    else
      var init := Declared(decls[..|decls| - 1], annotations);
      var d := decls[|decls| - 1];
      if d.ElemDecl? then init + [(d.name, Attr(d.key, Annotated(d.name, annotations)))] else init
  }

  /** An `Elem` object. */
  class Elem {
    const key: Option<string>
    var transform: Transform

    constructor (key: Option<string>)
      ensures this.key == key && transform == Default
    {
      this.key := key;
      transform := Default;
    }

    function Snapshot(): Attr
      reads this
    {
      Attr(key, transform)
    }
  }

  /** A class's `attrs` table as it stands now. */
  function Snapshots(t: seq<(string, Elem)>): (s: Table)
    reads set i | 0 <= i < |t| :: t[i].1
    ensures |s| == |t|
    ensures forall i :: 0 <= i < |t| ==> s[i] == (t[i].0, t[i].1.Snapshot())
  {
    seq(|t|, i requires 0 <= i < |t| reads if 0 <= i < |t| then {t[i].1} else {} => (t[i].0, t[i].1.Snapshot()))
  }

  /** An instance under construction: `_raw_data_` is fixed, attributes
      are set one at a time. */
  class Object {
    const cls: string
    const client: Client
    const raw: map<string, Json>
    var attrs: map<string, Value>

    constructor (cls: string, client: Client, raw: map<string, Json>)
      ensures this.cls == cls && this.client == client && this.raw == raw && attrs == map[]
    {
      this.cls := cls;
      this.client := client;
      this.raw := raw;
      attrs := map[];
    }

    /** `setattr(self, name, v)`. */
    method SetAttr(name: string, v: Value)
      modifies this
      ensures attrs == old(attrs)[name := v]
    {
      attrs := attrs[name := v];
    }

    function Snapshot(): Instance
      reads this
    {
      Instance(cls, client, raw, attrs)
    }

    /** The loop of `Model.__init__` over the class's `attrs` (whose
        current state `spec` records): every attribute's step in turn, the
        first exception stopping it. */
    method SetAll(tables: Tables, t: seq<(string, Elem)>, ghost spec: Table) returns (err: Option<Error>)
      requires attrs == map[]
      requires |spec| == |t| && forall i :: 0 <= i < |t| ==> spec[i] == (t[i].0, t[i].1.Snapshot())
      modifies this
      ensures err.None? <==> Fill(tables, spec, client, JObj(raw)).Ok?
      ensures err.None? ==> attrs == Fill(tables, spec, client, JObj(raw)).value
      ensures err.Some? ==> Fill(tables, spec, client, JObj(raw)) == Err(err.value)
    {
      var i := 0;
      while i < |t|
        invariant 0 <= i <= |t|
        invariant Fill(tables, spec[..i], client, JObj(raw)) == Ok(attrs)
      {
        assert spec[..i + 1][..i] == spec[..i];
        var (name, e) := t[i];
        var s := Step(tables, e.Snapshot(), client, JObj(raw));
        if s.Err? {
          assert Fill(tables, spec[..i + 1], client, JObj(raw)) == Err(s.error);
          FillFails(tables, spec, client, JObj(raw), i + 1);
          assert spec[..|spec|] == spec;
          return Some(s.error);
        }
        if s.value.Some? {
          SetAttr(name, s.value.value);
        }
        i := i + 1;
      }
      assert spec[..|spec|] == spec;
      return None;
    }
  }

  /** Running a class body and then the annotation step of
      `__init_subclass__`: a fresh `Elem` per declaration, carrying its
      name's annotation or the default. */
  method RunBody(decls: seq<Decl>, annotations: map<string, Transform>) returns (table: seq<(string, Elem)>)
    ensures forall j :: 0 <= j < |table| ==> fresh(table[j].1)
    ensures Snapshots(table) == Declared(decls, annotations)
  {
    table := [];
    var i := 0;
    while i < |decls|
      invariant 0 <= i <= |decls|
      invariant forall j :: 0 <= j < |table| ==> fresh(table[j].1)
      invariant Snapshots(table) == Declared(decls[..i], annotations)
    {
      assert decls[..i + 1][..i] == decls[..i];
      var d := decls[i];
      if d.ElemDecl? {
        var e := new Elem(d.key);
        e.transform := Annotated(d.name, annotations);
        table := table + [(d.name, e)];
      }
      i := i + 1;
    }
    assert decls[..|decls|] == decls;
  }

  /** The `attrs` tables of every Model subclass defined so far. */
  class Registry {
    var attrs: map<string, seq<(string, Elem)>>

    constructor ()
      ensures attrs == map[]
    {
      attrs := map[];
    }

    /** Every `Elem` object some table holds. */
    ghost function Elements(): set<Elem>
      reads this
    {
      set c, i | c in attrs && 0 <= i < |attrs[c]| :: attrs[c][i].1
    }

    /** The tables as they stand now. */
    function Tables(): (s: Tables)
      reads this, Elements()
      ensures s.Keys == attrs.Keys
      ensures forall c :: c in s ==> s[c] == Snapshots(attrs[c])
    {
      map c | c in attrs :: Snapshots(attrs[c])
    }

    /** A class statement: the body creates each `Elem` (see `RunBody`),
        then `__init_subclass__` collects them into a fresh `attrs` table. */
    method DeclareClass(name: string, decls: seq<Decl>, annotations: map<string, Transform>)
      requires Distinct(decls)
      modifies this
      ensures attrs.Keys == old(attrs).Keys + {name}
      ensures forall c :: c in old(attrs) && c != name ==> attrs[c] == old(attrs)[c]
      ensures forall i :: 0 <= i < |attrs[name]| ==> fresh(attrs[name][i].1)
      ensures Tables() == old(Tables())[name := Declared(decls, annotations)]
    {
      var table := RunBody(decls, annotations);
      // RunBody only allocates, so the existing tables still stand
      assert Tables() == old(Tables());
      ghost var s0 := Tables();
      ghost var before := attrs;
      attrs := attrs[name := table];
      forall c | c in s0 && c != name
        ensures Tables()[c] == s0[c]
      {
        assert attrs[c] == before[c];
      }
      Classes.UpdatedAt(s0, Tables(), name, Declared(decls, annotations));
    }

    /** `cls(client, _dct, **kwargs)`: the raw data merged and stored, then
        the loop over the class's `attrs`, setting each attribute on the
        new object in turn. */
    method Instantiate(cls: string, client: Client, dct: Json, kwargs: map<string, Json>) returns (r: Result<Object>)
      ensures r.Ok? <==> Construct(Tables(), cls, client, dct, kwargs).Ok?
      ensures r.Ok? ==> fresh(r.value) && r.value.Snapshot() == Construct(Tables(), cls, client, dct, kwargs).value
      ensures r.Err? ==> r.error == Construct(Tables(), cls, client, dct, kwargs).error
    {
      var tables := Tables();
      var m := Base.New(cls, client, dct, kwargs);
      if m.Err? {
        return Err(m.error);
      }
      var raw := m.value.raw;
      assert raw == kwargs + Fields(dct);
      if cls !in attrs {
        return Err(AttributeError("attrs"));
      }
      var obj := new Object(cls, client, raw);
      var err := obj.SetAll(tables, attrs[cls], tables[cls]);
      assert Tables() == tables;
      assert Fields(JObj(raw)) == raw;
      if err.Some? {
        return Err(err.value);
      }
      return Ok(obj);
    }
  }

  /** A prefix of the attribute loop that raises makes the whole loop
      raise the same exception. */
  lemma {:induction false} FillFails(tables: Tables, t: Table, client: Client, dct: Json, n: nat)
    requires dct.JNull? || dct.JObj?
    requires n <= |t| && Fill(tables, t[..n], client, dct).Err?
    ensures Fill(tables, t, client, dct) == Fill(tables, t[..n], client, dct)
    decreases |t| - n
  {
    if n < |t| {
      assert t[..n + 1][..n] == t[..n];
      FillFails(tables, t, client, dct, n + 1);
    } else {
      assert t[..n] == t;
    }
  }
}
