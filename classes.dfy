/** The class-definition-time state of `xivapi/models/base.py`: descriptor
    objects whose transform and range are set in place, the `elems` table
    each Model subclass builds in `__init_subclass__`, and the shared
    `Index.types` registry. `Registry.Schema()` is the snapshot of this
    state that attribute reads in module `Base` work on. */
module Classes {
  import opened Py
  import opened Base
  import Text

  /** The concrete descriptor class an object was created from. */
  datatype Kind = ElemClass | ElemListClass | ElemGroupClass

  /** A descriptor object: `Elem(*keys)`, `ElemList(*keys)` or
      `ElemGroup(*keys)`. Its keys are fixed at creation; its transform is
      set by the class definition it is placed in, and an `ElemGroup`'s
      range by subscripting it. */
  class BaseElem {
    const kind: Kind
    const keys: seq<string>
    var transform: Option<Transform>
    var range: Option<RangeArg>

    constructor (kind: Kind, keys: seq<string>)
      ensures this.kind == kind && this.keys == keys
      ensures transform == None && range == None
    {
      this.kind := kind;
      this.keys := keys;
      transform := None;
      range := None;
    }

    /** `set_transform(t)`: `None` keeps the current transform. */
    method SetTransform(t: Option<Transform>)
      modifies this
      ensures transform == (if t.Some? then t else old(transform))
      ensures range == old(range)
    {
      if t.Some? {
        transform := t;
      }
    }

    /** `e[item]`: an `ElemGroup` stores the range and returns itself; the
        other descriptor classes are not subscriptable. */
    method Subscript(item: RangeArg) returns (r: Result<BaseElem>)
      modifies this
      ensures kind == ElemGroupClass ==> r == Ok(this) && range == Some(item)
      ensures kind != ElemGroupClass ==> r == Err(TypeError) && range == old(range)
      ensures transform == old(transform)
    {
      if kind == ElemGroupClass {
        range := Some(item);
        r := Ok(this);
      } else {
        r := Err(TypeError);
      }
    }

    /** The descriptor as it stands now. */
    function Snapshot(): (d: Descriptor)
      reads this
      ensures d.keys == keys && d.transform == transform
      ensures d.shape.Grouped? <==> kind == ElemGroupClass
      ensures d.shape.Grouped? ==> d.shape.range == range
    {
      var shape := match kind
        case ElemClass => Single
        case ElemListClass => Listed
        case ElemGroupClass => Grouped(range);
      Descriptor(shape, keys, transform)
    }
  }

  /** One entry of a class body (`cls.__dict__`): a descriptor object, or
      anything else (a method, a constant). */
  datatype Member = Field(elem: BaseElem) | Plain

  type Body = seq<(string, Member)>

  /** The descriptor objects a class body holds. */
  function FieldsOf(body: Body): set<BaseElem>
  {
    set i | 0 <= i < |body| && body[i].1.Field? :: body[i].1.elem
  }

  /** `cls.elems` after the loop over the body: each descriptor under its
      attribute name. */
  function Harvest(body: Body): (table: map<string, BaseElem>)
    ensures forall n :: n in table ==> table[n] in FieldsOf(body)
    decreases |body|
  {
    if body == [] then map[]
    else
      var table := Harvest(body[..|body| - 1]);
      var last := body[|body| - 1];
      assert forall i :: 0 <= i < |body| - 1 ==> body[..|body| - 1][i] == body[i];
      if last.1.Field? then table[last.0 := last.1.elem] else table
  }

  /** The transform descriptor `e` has after the loop, starting from `t0`:
      every body entry holding `e` whose name is annotated sets it. */
  function Annotated(body: Body, annotations: map<string, Transform>, e: BaseElem, t0: Option<Transform>): Option<Transform>
    decreases |body|
  {
    if body == [] then t0
    else
      var t := Annotated(body[..|body| - 1], annotations, e, t0);
      var last := body[|body| - 1];
      if last.1 == Field(e) && last.0 in annotations then Some(annotations[last.0]) else t
  }

  /** `elems` holds exactly the names of the body's descriptors... */
  lemma {:induction false} HarvestKeys(body: Body)
    ensures Harvest(body).Keys == set i | 0 <= i < |body| && body[i].1.Field? :: body[i].0
    decreases |body|
  {
    if body != [] {
      var init := body[..|body| - 1];
      HarvestKeys(init);
      forall k | k in set i | 0 <= i < |body| && body[i].1.Field? :: body[i].0
        ensures k in Harvest(body)
      {
        var i :| 0 <= i < |body| && body[i].1.Field? && body[i].0 == k;
        if i < |body| - 1 {
          assert init[i] == body[i];
        }
      }
      forall k | k in Harvest(body)
        ensures k in set i | 0 <= i < |body| && body[i].1.Field? :: body[i].0
      {
        if k !in Harvest(init) {
          assert body[|body| - 1].0 == k;
        } else {
          var i :| 0 <= i < |init| && init[i].1.Field? && init[i].0 == k;
          assert body[i] == init[i];
        }
      }
    }
  }

  /** ...each under its own name, when no later entry reuses the name (a
      class namespace never does). */
  lemma {:induction false} HarvestValues(body: Body, i: nat)
    requires i < |body| && body[i].1.Field?
    requires forall j :: i < j < |body| ==> body[j].0 != body[i].0
    ensures body[i].0 in Harvest(body) && Harvest(body)[body[i].0] == body[i].1.elem
    decreases |body|
  {
    if i < |body| - 1 {
      var init := body[..|body| - 1];
      assert init[i] == body[i];
      assert forall j :: i < j < |init| ==> init[j] == body[j];
      HarvestValues(init, i);
    }
  }

  /** A descriptor no body entry holds keeps its transform... */
  lemma {:induction false} AnnotatedAbsent(body: Body, annotations: map<string, Transform>, e: BaseElem, t0: Option<Transform>)
    requires forall j :: 0 <= j < |body| ==> body[j].1 != Field(e)
    ensures Annotated(body, annotations, e, t0) == t0
    decreases |body|
  {
    if body != [] {
      var init := body[..|body| - 1];
      assert forall j :: 0 <= j < |init| ==> init[j] == body[j];
      AnnotatedAbsent(init, annotations, e, t0);
    }
  }

  /** ...and one held by a single entry gets that entry's annotation, or
      keeps its transform when the name is not annotated. */
  lemma {:induction false} AnnotatedOnce(body: Body, annotations: map<string, Transform>, e: BaseElem, t0: Option<Transform>, i: nat)
    requires i < |body| && body[i].1 == Field(e)
    requires forall j :: 0 <= j < |body| && j != i ==> body[j].1 != Field(e)
    ensures Annotated(body, annotations, e, t0)
            == if body[i].0 in annotations then Some(annotations[body[i].0]) else t0
    decreases |body|
  {
    var init := body[..|body| - 1];
    assert forall j :: 0 <= j < |init| ==> init[j] == body[j];
    if i == |body| - 1 {
      AnnotatedAbsent(init, annotations, e, t0);
    } else {
      AnnotatedOnce(init, annotations, e, t0, i);
    }
  }

  /** A class's `elems` table as it stands now. */
  function Snapshots(table: map<string, BaseElem>): (s: Elems)
    reads set n | n in table :: table[n]
    ensures s.Keys == table.Keys
    ensures forall n :: n in table ==> s[n] == table[n].Snapshot()
  {
    map n | n in table :: table[n].Snapshot()
  }

  /** One statement of a class body: `name = Elem(*keys)` (or `ElemList`,
      or `ElemGroup(*keys)[subscript]`), or a binding of anything else. */
  datatype Decl =
    | Declare(name: string, kind: Kind, keys: seq<string>, subscript: Option<RangeArg>)
    | Other(name: string)

  /** A class namespace binds each name once, and only an `ElemGroup` is
      subscripted (any other descriptor raises `TypeError`, see
      `BaseElem.Subscript`). */
  predicate WellFormed(decls: seq<Decl>)
  {
    && (forall i, j :: 0 <= i < j < |decls| ==> decls[i].name != decls[j].name)
    && (forall i :: 0 <= i < |decls| && decls[i].Declare? && decls[i].subscript.Some? ==> decls[i].kind == ElemGroupClass)
  }

  /** The shape a freshly created descriptor object has. */
  function ShapeOf(kind: Kind, subscript: Option<RangeArg>): Shape
  {
    match kind
    case ElemClass => Single
    case ElemListClass => Listed
    case ElemGroupClass => Grouped(subscript)
  }

  /** The descriptor a declaration stands for once its name's annotation
      (if any) is its transform. */
  function Expected(d: Decl, annotations: map<string, Transform>): Descriptor
    requires d.Declare?
  {
    Descriptor(ShapeOf(d.kind, d.subscript), d.keys,
               if d.name in annotations then Some(annotations[d.name]) else None)
  }

  /** The `elems` table a class statement is meant to produce. */
  function Declared(decls: seq<Decl>, annotations: map<string, Transform>): Elems
    decreases |decls|
  {
    if decls == [] then map[]
    else
      var table := Declared(decls[..|decls| - 1], annotations);
      var d := decls[|decls| - 1];
      if d.Declare? then table[d.name := Expected(d, annotations)] else table
  }

  /** The declared table has exactly the descriptor names... */
  lemma {:induction false} DeclaredKeys(decls: seq<Decl>, annotations: map<string, Transform>)
    ensures Declared(decls, annotations).Keys == set i | 0 <= i < |decls| && decls[i].Declare? :: decls[i].name
    decreases |decls|
  {
    if decls != [] {
      var init := decls[..|decls| - 1];
      DeclaredKeys(init, annotations);
      forall k | k in set i | 0 <= i < |decls| && decls[i].Declare? :: decls[i].name
        ensures k in Declared(decls, annotations)
      {
        var i :| 0 <= i < |decls| && decls[i].Declare? && decls[i].name == k;
        if i < |decls| - 1 {
          assert init[i] == decls[i];
        }
      }
      forall k | k in Declared(decls, annotations)
        ensures k in set i | 0 <= i < |decls| && decls[i].Declare? :: decls[i].name
      {
        if k !in Declared(init, annotations) {
          assert decls[|decls| - 1].name == k;
        } else {
          var i :| 0 <= i < |init| && init[i].Declare? && init[i].name == k;
          assert decls[i] == init[i];
        }
      }
    }
  }

  /** ...each standing for its declaration. */
  lemma {:induction false} DeclaredAt(decls: seq<Decl>, annotations: map<string, Transform>, i: nat)
    requires i < |decls| && decls[i].Declare?
    requires forall j :: i < j < |decls| ==> decls[j].name != decls[i].name
    ensures decls[i].name in Declared(decls, annotations)
    ensures Declared(decls, annotations)[decls[i].name] == Expected(decls[i], annotations)
    decreases |decls|
  {
    if i < |decls| - 1 {
      var init := decls[..|decls| - 1];
      assert init[i] == decls[i];
      assert forall j :: i < j < |init| ==> init[j] == decls[j];
      DeclaredAt(init, annotations, i);
    }
  }

  /** Running a class body: each declaration in turn creates a new
      descriptor object, subscripting an `ElemGroup` with its range. */
  method RunBody(decls: seq<Decl>) returns (body: Body)
    requires WellFormed(decls)
    ensures |body| == |decls|
    ensures forall j :: 0 <= j < |body| ==> body[j].0 == decls[j].name
    ensures forall j :: 0 <= j < |body| ==> (body[j].1.Field? <==> decls[j].Declare?)
    ensures forall j :: 0 <= j < |body| && body[j].1.Field? ==>
              && fresh(body[j].1.elem)
              && body[j].1.elem.Snapshot() == Expected(decls[j], map[])
    ensures forall j, k :: 0 <= j < k < |body| && body[j].1.Field? ==> body[k].1 != body[j].1
  {
    body := [];
    var i := 0;
    while i < |decls|
      invariant 0 <= i <= |decls|
      invariant |body| == i
      invariant forall j :: 0 <= j < i ==> body[j].0 == decls[j].name
      invariant forall j :: 0 <= j < i ==> (body[j].1.Field? <==> decls[j].Declare?)
      invariant forall j :: 0 <= j < i && body[j].1.Field? ==>
                  && fresh(body[j].1.elem)
                  && body[j].1.elem.Snapshot() == Expected(decls[j], map[])
      invariant forall j, k :: 0 <= j < k < i && body[j].1.Field? ==> body[k].1 != body[j].1
    {
      var d := decls[i];
      if d.Declare? {
        var e := new BaseElem(d.kind, d.keys);
        if d.subscript.Some? {
          var _ := e.Subscript(d.subscript.value);
        }
        body := body + [(d.name, Field(e))];
      } else {
        body := body + [(d.name, Plain)];
      }
      i := i + 1;
    }
  }

  /** The per-class `elems` tables and the `Index.types` registry, which
      maps a lowercased class name to the class. Classes are named. */
  class Registry {
    var elems: map<string, map<string, BaseElem>>
    var types: map<string, string>

    constructor ()
      ensures elems == map[] && types == map[]
    {
      elems := map[];
      types := map[];
    }

    /** Every descriptor object some class table holds. */
    ghost function Elements(): set<BaseElem>
      reads this
    {
      set c, n | c in elems && n in elems[c] :: elems[c][n]
    }

    /** The descriptor tables as they stand now. */
    function Schema(): (s: Schema)
      reads this, Elements()
      ensures s.Keys == elems.Keys
      ensures forall c :: c in s ==> s[c] == Snapshots(elems[c])
    {
      map c | c in elems :: Snapshots(elems[c])
    }

    /** `class name(Model)` (with `Index` among its bases when `index`):
        registration under the lowercased name, a fresh `elems` table of
        the descriptors in the body, and each of them given the annotation
        of its name as transform. */
    method DefineModel(name: string, body: Body, annotations: map<string, Transform>, index: bool)
      modifies this, FieldsOf(body)
      ensures elems == old(elems)[name := Harvest(body)]
      ensures types == if index then old(types)[Text.Lower(name) := name] else old(types)
      ensures forall e :: e in FieldsOf(body) ==> e.transform == Annotated(body, annotations, e, old(e.transform))
      ensures forall e :: e in FieldsOf(body) ==> e.range == old(e.range)
    {
      if index {
        types := types[Text.Lower(name) := name];
      }
      var table: map<string, BaseElem> := map[];
      var i := 0;
      while i < |body|
        invariant 0 <= i <= |body|
        invariant table == Harvest(body[..i])
        invariant forall e :: e in FieldsOf(body) ==> e.transform == Annotated(body[..i], annotations, e, old(e.transform))
        invariant forall e :: e in FieldsOf(body) ==> e.range == old(e.range)
        invariant elems == old(elems)
        invariant types == if index then old(types)[Text.Lower(name) := name] else old(types)
      {
        var (k, m) := body[i];
        assert body[..i + 1][..i] == body[..i];
        if m.Field? {
          assert m.elem in FieldsOf(body);
          m.elem.SetTransform(if k in annotations then Some(annotations[k]) else None);
          table := table[k := m.elem];
        }
        i := i + 1;
      }
      assert body[..|body|] == body;
      elems := elems[name := table];
    }

    /** A whole class statement: the body runs top to bottom (see
        `RunBody`), then `__init_subclass__` runs on the finished namespace. */
    method DeclareClass(name: string, decls: seq<Decl>, annotations: map<string, Transform>, index: bool)
      requires WellFormed(decls)
      modifies this
      ensures elems.Keys == old(elems).Keys + {name}
      ensures forall c :: c in old(elems) && c != name ==> elems[c] == old(elems)[c]
      ensures types == if index then old(types)[Text.Lower(name) := name] else old(types)
      ensures forall n :: n in elems[name] ==> fresh(elems[name][n])
      ensures Snapshots(elems[name]) == Declared(decls, annotations)
      ensures Schema() == old(Schema())[name := Declared(decls, annotations)]
    {
      var body := RunBody(decls);
      DefineModel(name, body, annotations, index);
      assert Snapshots(elems[name]) == Declared(decls, annotations) by {
        BuiltTable(decls, annotations, body);
      }
      assert forall c :: c in old(elems) && c != name ==> Snapshots(elems[c]) == old(Snapshots(elems[c])) by {
        forall c, n | c in old(elems) && c != name && n in elems[c]
          ensures elems[c][n].Snapshot() == old(elems[c][n].Snapshot())
        {
          assert elems[c][n] !in FieldsOf(body);
        }
      }
      UpdatedAt(old(Schema()), Schema(), name, Declared(decls, annotations));
    }

    /** `cls.columns()`: the raw keys of all the class's descriptors, each
        once, in no particular order. */
    method Columns(cls: string) returns (r: Result<seq<string>>)
      ensures cls !in elems ==> r == Err(AttributeError("elems"))
      ensures cls in elems ==> r.Ok?
      ensures r.Ok? ==> forall k :: k in r.value <==> k in ColumnSet(Schema()[cls])
      ensures r.Ok? ==> forall i, j :: 0 <= i < j < |r.value| ==> r.value[i] != r.value[j]
    {
      if cls !in elems {
        return Err(AttributeError("elems"));
      }
      var table := elems[cls];
      var s: set<string> := {};
      var todo := table.Keys;
      while todo != {}
        invariant todo <= table.Keys
        invariant s == set n, k | n in table.Keys - todo && k in table[n].keys :: k
        decreases |todo|
      {
        var n :| n in todo;
        s := s + set k | k in table[n].keys;
        todo := todo - {n};
      }
      var out: seq<string> := [];
      var rest := s;
      while rest != {}
        invariant rest <= s
        invariant forall k :: k in out <==> k in s - rest
        invariant forall i, j :: 0 <= i < j < |out| ==> out[i] != out[j]
        decreases |rest|
      {
        var k :| k in rest;
        assert k !in out;
        out := out + [k];
        rest := rest - {k};
      }
      assert s == ColumnSet(Schema()[cls]);
      return Ok(out);
    }
  }

  /** A map that differs from `m0` only at `k`, where it holds `v`, is
      `m0[k := v]`. */
  lemma UpdatedAt<K, V>(m0: map<K, V>, m1: map<K, V>, k: K, v: V)
    requires m1.Keys == m0.Keys + {k} && m1[k] == v
    requires forall c :: c in m0 && c != k ==> m1[c] == m0[c]
    ensures m1 == m0[k := v]
  {
  }

  /** The table `DefineModel` harvests from a body built from `decls` is
      the declared one. */
  lemma BuiltTable(decls: seq<Decl>, annotations: map<string, Transform>, body: Body)
    requires WellFormed(decls) && |body| == |decls|
    requires forall j :: 0 <= j < |body| ==> body[j].0 == decls[j].name
    requires forall j :: 0 <= j < |body| ==> (body[j].1.Field? <==> decls[j].Declare?)
    requires forall j :: 0 <= j < |body| && body[j].1.Field? ==>
               var e := body[j].1.elem;
               && e.transform == Annotated(body, annotations, e, None)
               && e.Snapshot() == Descriptor(ShapeOf(decls[j].kind, decls[j].subscript), decls[j].keys, e.transform)
    requires forall j, k :: 0 <= j < k < |body| && body[j].1.Field? ==> body[k].1 != body[j].1
    ensures Snapshots(Harvest(body)) == Declared(decls, annotations)
  {
    var h := Harvest(body);
    var dt := Declared(decls, annotations);
    HarvestKeys(body);
    DeclaredKeys(decls, annotations);
    forall k | k in h
      ensures k in dt && h[k].Snapshot() == dt[k]
    {
      var j :| 0 <= j < |body| && body[j].1.Field? && body[j].0 == k;
      HarvestValues(body, j);
      DeclaredAt(decls, annotations, j);
      AnnotatedOnce(body, annotations, body[j].1.elem, None, j);
    }
    forall k | k in dt
      ensures k in h
    {
      var j :| 0 <= j < |decls| && decls[j].Declare? && decls[j].name == k;
      assert body[j].1.Field? && body[j].0 == k;
    }
  }
}
