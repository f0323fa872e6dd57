/** What the eager variant `xivapi/models/__init__.py` promises, stated
    over the functions of module `Eager`. */
module EagerFacts {
  import opened Py
  import opened Json
  import opened Eager
  import Base

  /** A table in which every attribute name occurs once. */
  predicate DistinctNames(t: Table)
  {
    forall i, j :: 0 <= i < j < |t| ==> t[i].0 != t[j].0
  }

  // ---------------------------------------------------------------------
  // __init_subclass__
  // ---------------------------------------------------------------------

  /** `attrs` holds exactly the `Elem`s the class body binds, each with its
      own key and with its name's annotation as transform, the default
      pass-through when there is none. */
  lemma {:induction false} DeclaredEntries(decls: seq<Decl>, annotations: map<string, Transform>, n: string, a: Attr)
    ensures (n, a) in Declared(decls, annotations)
            <==> exists i :: 0 <= i < |decls| && decls[i].ElemDecl? && decls[i].name == n
                             && a == Attr(decls[i].key, Annotated(n, annotations))
    decreases |decls|
  {
    if decls != [] {
      var init := decls[..|decls| - 1];
      assert forall i :: 0 <= i < |init| ==> init[i] == decls[i];
      DeclaredEntries(init, annotations, n, a);
      if (n, a) in Declared(decls, annotations) && (n, a) !in Declared(init, annotations) {
        assert decls[|decls| - 1].ElemDecl? && decls[|decls| - 1].name == n;
      }
    }
  }

  /** The table lists the declarations in body order, others skipped. */
  lemma {:induction false} DeclaredOrder(decls: seq<Decl>, annotations: map<string, Transform>)
    ensures Declared(decls, annotations) == DeclaredIn(decls, annotations)
    decreases |decls|
  {
    if decls != [] {
      var init := decls[..|decls| - 1];
      var d := decls[|decls| - 1];
      DeclaredOrder(init, annotations);
      DeclaredInSplit(init, [d], annotations);
      assert init + [d] == decls;
    }
  }

  /** The same table read from the front. */
  function DeclaredIn(decls: seq<Decl>, annotations: map<string, Transform>): Table
  {
    if decls == [] then []
    else
      (if decls[0].ElemDecl? then [(decls[0].name, Attr(decls[0].key, Annotated(decls[0].name, annotations)))] else [])
      + DeclaredIn(decls[1..], annotations)
  }

  lemma {:induction false} DeclaredInSplit(a: seq<Decl>, b: seq<Decl>, annotations: map<string, Transform>)
    ensures DeclaredIn(a + b, annotations) == DeclaredIn(a, annotations) + DeclaredIn(b, annotations)
    decreases |a|
  {
    if a != [] {
      assert (a + b)[0] == a[0];
      assert (a + b)[1..] == a[1..] + b;
      DeclaredInSplit(a[1..], b, annotations);
    } else {
      assert a + b == b;
    }
  }

  /** A class namespace gives a table with distinct names. */
  lemma DeclaredDistinct(decls: seq<Decl>, annotations: map<string, Transform>)
    requires Distinct(decls)
    ensures DistinctNames(Declared(decls, annotations))
  {
    var t := Declared(decls, annotations);
    forall i, j | 0 <= i < j < |t| ensures t[i].0 != t[j].0 {
      DeclaredPositions(decls, annotations, i, j);
    }
  }

  /** Two positions of the table come from two distinct declarations, in
      the same order. */
  lemma {:induction false} DeclaredPositions(decls: seq<Decl>, annotations: map<string, Transform>, i: nat, j: nat)
    requires i < j < |Declared(decls, annotations)|
    ensures exists p, q :: 0 <= p < q < |decls|
                           && Declared(decls, annotations)[i].0 == decls[p].name
                           && Declared(decls, annotations)[j].0 == decls[q].name
    decreases |decls|
  {
    var init := decls[..|decls| - 1];
    var t := Declared(init, annotations);
    assert forall k :: 0 <= k < |init| ==> init[k] == decls[k];
    if j < |t| {
      DeclaredPositions(init, annotations, i, j);
      var p, q :| 0 <= p < q < |init| && t[i].0 == init[p].name && t[j].0 == init[q].name;
      assert decls[p] == init[p] && decls[q] == init[q];
    } else {
      var e := Declared(decls, annotations)[i];
      assert e == t[i];
      DeclaredEntries(init, annotations, e.0, e.1);
      assert e in t;
      var p :| 0 <= p < |init| && init[p].ElemDecl? && init[p].name == e.0;
      assert decls[p] == init[p];
      assert Declared(decls, annotations)[j].0 == decls[|decls| - 1].name;
    }
  }

  /** As written, an `Elem` left without an annotation keeps the lambda, and
      calling it on a present value raises `TypeError` where the pass-through
      was intended. */
  lemma UnannotatedAsWritten(decls: seq<Decl>, annotations: map<string, Transform>, n: string, a: Attr, tables: Tables, client: Client, d: Json)
    requires (n, a) in Declared(decls, annotations) && n !in annotations
    ensures a.transform == One(PassThrough)
    ensures CallAsWritten(tables, a.transform.c, client, d) == Err(TypeError)
    ensures Call(tables, a.transform.c, client, d) == Ok(Raw(d))
  {
    DeclaredEntries(decls, annotations, n, a);
  }

  // ---------------------------------------------------------------------
  // Model.__init__
  // ---------------------------------------------------------------------

  /** The attribute loop succeeds exactly when every step does... */
  lemma {:induction false} FillOk(tables: Tables, t: Table, client: Client, dct: Json)
    requires dct.JNull? || dct.JObj?
    ensures Fill(tables, t, client, dct).Ok? <==> forall i :: 0 <= i < |t| ==> Step(tables, t[i].1, client, dct).Ok?
    decreases |t|
  {
    if t != [] {
      var init := t[..|t| - 1];
      assert forall i :: 0 <= i < |init| ==> init[i] == t[i];
      FillOk(tables, init, client, dct);
    }
  }

  /** ...and then each attribute holds what its own step set, or is absent
      when its step set nothing. */
  lemma {:induction false} FillAt(tables: Tables, t: Table, client: Client, dct: Json)
    requires dct.JNull? || dct.JObj?
    requires DistinctNames(t)
    ensures Fill(tables, t, client, dct).Ok? ==>
              forall i :: 0 <= i < |t| ==>
                && Step(tables, t[i].1, client, dct).Ok?
                && (t[i].0 in Fill(tables, t, client, dct).value <==> Step(tables, t[i].1, client, dct).value.Some?)
                && (t[i].0 in Fill(tables, t, client, dct).value ==>
                      Fill(tables, t, client, dct).value[t[i].0] == Step(tables, t[i].1, client, dct).value.value)
    decreases |t|
  {
    FillOk(tables, t, client, dct);
    if t != [] && Fill(tables, t, client, dct).Ok? {
      var init := t[..|t| - 1];
      assert forall i :: 0 <= i < |init| ==> init[i] == t[i];
      FillAt(tables, init, client, dct);
      var attrs := Fill(tables, init, client, dct).value;
      var last := t[|t| - 1];
      var s := Step(tables, last.1, client, dct).value;
      var r := Fill(tables, t, client, dct).value;
      assert r == if s.Some? then attrs[last.0 := s.value] else attrs;
      forall i | 0 <= i < |t|
        ensures Step(tables, t[i].1, client, dct).Ok?
        ensures (t[i].0 in r <==> Step(tables, t[i].1, client, dct).value.Some?)
        ensures t[i].0 in r ==> r[t[i].0] == Step(tables, t[i].1, client, dct).value.value
      {
        if i < |init| {
          assert init[i] == t[i] && t[i].0 != last.0;
        } else {
          assert t[i] == last;
        }
      }
    }
  }

  /** The attribute loop, attribute by attribute: it succeeds exactly when
      every step does, and then each attribute holds what its own step set,
      or is absent when its step set nothing. */
  lemma FillSteps(tables: Tables, t: Table, client: Client, dct: Json)
    requires dct.JNull? || dct.JObj?
    requires DistinctNames(t)
    ensures Fill(tables, t, client, dct).Ok? <==> forall i :: 0 <= i < |t| ==> Step(tables, t[i].1, client, dct).Ok?
    ensures Fill(tables, t, client, dct).Ok? ==>
              forall i :: 0 <= i < |t| ==>
                && (t[i].0 in Fill(tables, t, client, dct).value <==> Step(tables, t[i].1, client, dct).value.Some?)
                && (t[i].0 in Fill(tables, t, client, dct).value ==>
                      Fill(tables, t, client, dct).value[t[i].0] == Step(tables, t[i].1, client, dct).value.value)
    ensures Fill(tables, t, client, dct).Ok? ==>
              forall n :: n in Fill(tables, t, client, dct).value ==> exists i :: 0 <= i < |t| && t[i].0 == n
  {
    FillOk(tables, t, client, dct);
    FillAt(tables, t, client, dct);
  }

  /** Construction succeeds exactly when the merge succeeds, the class has
      an `attrs` table and every attribute's step succeeds. */
  lemma Constructs(tables: Tables, cls: string, client: Client, dct: Json, kwargs: map<string, Json>)
    requires cls in tables && DistinctNames(tables[cls])
    ensures Construct(tables, cls, client, dct, kwargs).Ok?
            <==> (dct.JNull? || dct.JObj?)
                 && forall i :: 0 <= i < |tables[cls]| ==>
                      Step(tables, tables[cls][i].1, client, JObj(kwargs + Fields(dct))).Ok?
  {
    if dct.JNull? || dct.JObj? {
      var m := Base.New(cls, client, dct, kwargs).value;
      assert m.raw == kwargs + Fields(dct);
      FillSteps(tables, tables[cls], client, JObj(kwargs + Fields(dct)));
    }
  }

  /** The `Elem` a table holds under a name it binds once. */
  lemma LookupAt(t: Table, i: nat)
    requires DistinctNames(t) && i < |t|
    ensures Lookup(t, t[i].0) == Some(t[i].1)
  {
    var r := Lookup(t, t[i].0);
    var j :| 0 <= j < |t| && t[j] == (t[i].0, r.value);
    assert j == i;
  }

  /** Attribute `i` of a constructed instance: a missing key (or no key)
      sets `None`; a present null sets nothing, so reading the name finds
      the class's `Elem`; any other value is set to its transform's result. */
  lemma AttributeSet(tables: Tables, cls: string, client: Client, dct: Json, kwargs: map<string, Json>, i: nat)
    requires cls in tables && DistinctNames(tables[cls]) && i < |tables[cls]|
    requires Construct(tables, cls, client, dct, kwargs).Ok?
    ensures var inst := Construct(tables, cls, client, dct, kwargs).value;
            var (name, a) := tables[cls][i];
            && (a.key.None? || a.key.value !in inst.raw ==> name in inst.attrs && inst.attrs[name] == Null)
            && (a.key.Some? && a.key.value in inst.raw && inst.raw[a.key.value] == JNull ==>
                  name !in inst.attrs && Read(tables, inst, name) == Ok(ElemObject(a)))
            && (a.key.Some? && a.key.value in inst.raw && inst.raw[a.key.value] != JNull ==>
                  name in inst.attrs && Apply(tables, a.transform, client, inst.raw[a.key.value]) == Ok(inst.attrs[name]))
  {
    var raw := kwargs + Fields(dct);
    FillSteps(tables, tables[cls], client, JObj(raw));
    LookupAt(tables[cls], i);
  }

  /** `_dct` entries override keyword arguments of the same name, and
      `inst[k]` passes the stored value through. */
  lemma DictOverrides(tables: Tables, cls: string, client: Client, dct: map<string, Json>, kwargs: map<string, Json>, k: string)
    requires Construct(tables, cls, client, JObj(dct), kwargs).Ok?
    requires k in dct
    ensures Subscript(Construct(tables, cls, client, JObj(dct), kwargs).value, k) == Ok(dct[k])
  {
  }

  // ---------------------------------------------------------------------
  // Transforms
  // ---------------------------------------------------------------------

  /** A list annotation `[T]` over a raw list: one result per element, each
      `T` called on that element, and it raises exactly when one call does. */
  lemma ListAnnotation(tables: Tables, c: Callable, rest: seq<Callable>, client: Client, items: seq<Json>)
    ensures var r := Apply(tables, Each([c] + rest), client, JList(items));
            && (r.Ok? <==> forall i :: 0 <= i < |items| ==> Call(tables, c, client, items[i]).Ok?)
            && (r.Ok? ==> r.value.Items? && |r.value.items| == |items|
                          && forall i :: 0 <= i < |items| ==> Call(tables, c, client, items[i]) == Ok(r.value.items[i]))
  {
    assert ([c] + rest)[0] == c;
  }

  /** Over a string, the same: `T` is called on each one-character string. */
  lemma CharsAreCalls(tables: Tables, c: Callable, client: Client, s: string)
    ensures CallChars(c, s).Ok? <==> forall i :: 0 <= i < |s| ==> Call(tables, c, client, JStr([s[i]])).Ok?
    ensures CallChars(c, s).Ok? ==> |CallChars(c, s).value| == |s|
    ensures CallChars(c, s).Ok? ==>
              forall i :: 0 <= i < |s| ==> Call(tables, c, client, JStr([s[i]])) == Ok(CallChars(c, s).value[i])
  {
    if c.ModelCls? && s != [] {
      assert Call(tables, c, client, JStr([s[0]])).Err?;
    }
  }

  /** A Model transform builds the nested instance with the parent's
      client, over the value as its raw data; the nested instance's own
      attributes are populated the same way. */
  lemma NestedInstance(tables: Tables, k: string, client: Client, d: Json)
    requires d.JObj? && k in tables
    ensures var r := Call(tables, ModelCls(k), client, d);
            && (r.Ok? <==> Fill(tables, tables[k], client, d).Ok?)
            && (r.Ok? ==> r.value == Nested(Instance(k, client, d.fields, Fill(tables, tables[k], client, d).value)))
  {
  }

  // ---------------------------------------------------------------------
  // columns
  // ---------------------------------------------------------------------

  /** The keys of a class body's `Elem`s, in body order. */
  function BodyKeys(decls: seq<Decl>): seq<Option<string>>
  {
    if decls == [] then []
    else (if decls[0].ElemDecl? then [decls[0].key] else []) + BodyKeys(decls[1..])
  }

  /** `columns()` lists the body's keys in order, one per `Elem`, so a key
      two attributes share appears twice. */
  lemma {:induction false} ColumnsOfBody(decls: seq<Decl>, annotations: map<string, Transform>)
    ensures Columns(Declared(decls, annotations)) == BodyKeys(decls)
    decreases |decls|
  {
    DeclaredOrder(decls, annotations);
    ColumnsIn(decls, annotations);
  }

  lemma {:induction false} ColumnsIn(decls: seq<Decl>, annotations: map<string, Transform>)
    ensures Columns(DeclaredIn(decls, annotations)) == BodyKeys(decls)
    decreases |decls|
  {
    if decls != [] {
      ColumnsIn(decls[1..], annotations);
      var head := if decls[0].ElemDecl? then [(decls[0].name, Attr(decls[0].key, Annotated(decls[0].name, annotations)))] else [];
      ColumnsAppend(head, DeclaredIn(decls[1..], annotations));
    }
  }

  lemma ColumnsAppend(a: Table, b: Table)
    ensures Columns(a + b) == Columns(a) + Columns(b)
  {
  }

  /** Two attributes reading the same key: `columns()` keeps both. */
  lemma ColumnsKeepDuplicates()
    ensures Columns(Declared([ElemDecl("a", Some("K")), ElemDecl("b", Some("K"))], map[])) == [Some("K"), Some("K")]
  {
    ColumnsOfBody([ElemDecl("a", Some("K")), ElemDecl("b", Some("K"))], map[]);
  }
}
