/** What the schemas of `xivapi/models/types.py` promise once loaded. */
module TypesFacts {
  import opened Py
  import opened Json
  import opened Base
  import opened Classes
  import opened Types
  import Text
  import BaseFacts

  // ---------------------------------------------------------------------
  // The loaded descriptors
  // ---------------------------------------------------------------------

  lemma ItemDescriptors()
    ensures TypesSchema["Item"].Keys == {"id", "name", "description", "icon", "params"}
    ensures TypesSchema["Item"]["id"] == Descriptor(Single, ["ID"], Some(IntConv))
    ensures TypesSchema["Item"]["name"] == Descriptor(Single, ["Name"], Some(StrConv))
    ensures TypesSchema["Item"]["description"] == Descriptor(Single, ["Description"], Some(StrConv))
    ensures TypesSchema["Item"]["icon"] == Descriptor(Single, ["Icon"], Some(StrConv))
    ensures TypesSchema["Item"]["params"]
            == Descriptor(Grouped(Some(ParamsRange)), ["BaseParam*"], Some(ModelClass("BaseParam")))
  {
    ItemWellFormed();
    DeclaredKeys(ItemDecls, ItemAnnotations);
    var names := set i | 0 <= i < |ItemDecls| && ItemDecls[i].Declare? :: ItemDecls[i].name;
    assert names == {"id", "name", "description", "icon", "params"} by {
      assert ItemDecls[0].name == "id" && ItemDecls[1].name == "name";
      assert ItemDecls[2].name == "description" && ItemDecls[3].name == "icon";
      assert ItemDecls[4].name == "params";
    }
    DeclaredAt(ItemDecls, ItemAnnotations, 0);
    DeclaredAt(ItemDecls, ItemAnnotations, 1);
    DeclaredAt(ItemDecls, ItemAnnotations, 2);
    DeclaredAt(ItemDecls, ItemAnnotations, 3);
    DeclaredAt(ItemDecls, ItemAnnotations, 4);
  }

  lemma SearchDescriptors()
    ensures TypesSchema["Search"].Keys == {"pagination", "results"}
    ensures TypesSchema["Search"]["pagination"] == Descriptor(Single, ["Pagination"], Some(ModelClass("Pagination")))
    ensures TypesSchema["Search"]["results"] == Descriptor(Listed, ["Results"], Some(ModelClass("Result")))
  {
    SearchWellFormed();
    DeclaredKeys(SearchDecls, SearchAnnotations);
    var names := set i | 0 <= i < |SearchDecls| && SearchDecls[i].Declare? :: SearchDecls[i].name;
    assert names == {"pagination", "results"} by {
      assert !SearchDecls[0].Declare?;
      assert SearchDecls[1].name == "pagination" && SearchDecls[2].name == "results";
    }
    DeclaredAt(SearchDecls, SearchAnnotations, 1);
    DeclaredAt(SearchDecls, SearchAnnotations, 2);
  }

  // ---------------------------------------------------------------------
  // Item.params
  // ---------------------------------------------------------------------

  /** The raw key `params` reads at index `i`. */
  function ParamSlot(i: int): string
  {
    "BaseParam" + Text.IntToString(i)
  }

  lemma ParamSlotNames()
    ensures ParamSlot(0) == "BaseParam0" && ParamSlot(1) == "BaseParam1"
    ensures ParamSlot(2) == "BaseParam2" && ParamSlot(3) == "BaseParam3"
    ensures ParamSlot(4) == "BaseParam4" && ParamSlot(5) == "BaseParam5"
  {
  }

  /** One row of `params`: the single slot, filed under `BaseParam`. */
  lemma ParamRow(raw: map<string, Json>, i: int)
    ensures GroupRow(raw, ["BaseParam*"], i)
            == if ParamSlot(i) in raw then Ok(map["BaseParam" := raw[ParamSlot(i)]])
               else Err(KeyError(ParamSlot(i)))
  {
    BaseFacts.TemplateKeys("BaseParam", "", i);
    assert "BaseParam" + "*" + "" == "BaseParam*";
    assert "BaseParam" + Text.IntToString(i) + "" == ParamSlot(i);
    assert "BaseParam" + "" == "BaseParam";
    assert ["BaseParam*"][..0] == [];
  }

  /** Whether slot `i` could be transformed: present, and null or a dict. */
  predicate ParamOk(raw: map<string, Json>, i: int)
  {
    ParamSlot(i) in raw && (raw[ParamSlot(i)].JNull? || raw[ParamSlot(i)].JObj?)
  }

  /** One position of `params`: the row fails on a missing slot, or is
      transformed into a `BaseParam` (or `None`). */
  lemma ParamOutcome(client: Client, raw: map<string, Json>, j: int)
    ensures Outcome(Some(ModelClass("BaseParam")), client, GroupRow(raw, ["BaseParam*"], j))
            == if ParamSlot(j) in raw then BaseFacts.NestedValue("BaseParam", client, raw[ParamSlot(j)])
               else Err(KeyError(ParamSlot(j)))
  {
    ParamRow(raw, j);
    if ParamSlot(j) in raw {
      BaseFacts.OneEntryNested("BaseParam", raw[ParamSlot(j)], "BaseParam", client);
    }
  }

  /** Reading `item.params` is parsing its `ElemGroup`. */
  lemma ItemParamsRead(client: Client, raw: map<string, Json>)
    ensures var p := ParseGroup(["BaseParam*"], Some(ModelClass("BaseParam")), Some(ParamsRange), client, raw);
            GetAttr(TypesSchema, Model("Item", client, raw), "params")
            == if p.Err? && p.error.KeyError? then Err(AttributeError("params")) else p
  {
    ItemDescriptors();
    var d := TypesSchema["Item"]["params"];
    assert Parse(d, client, raw) == ParseGroup(["BaseParam*"], Some(ModelClass("BaseParam")), Some(ParamsRange), client, raw);
  }

  /** Indices `0, 1, .., 5`. */
  predicate SixIndices(idx: seq<int>)
  {
    |idx| == 6 && forall j :: 0 <= j < 6 ==> idx[j] == j
  }

  /** `params` is subscripted `[0:5]`: indices 0 to 5 inclusive. */
  lemma ParamsIndices()
    ensures Indices(ParamsRange).Ok? && SixIndices(Indices(ParamsRange).value)
  {
    BaseFacts.SliceIndices(Some(0), 5, None);
  }

  /** The six positions of `params`, transformed. */
  lemma ParamsOutcomes(client: Client, raw: map<string, Json>, idx: seq<int>)
    requires SixIndices(idx)
    ensures var rows := GroupRows(raw, ["BaseParam*"], idx);
            && |rows| == 6
            && forall j :: 0 <= j < 6 ==>
                 && Outcome(Some(ModelClass("BaseParam")), client, rows[j])
                    == (if ParamSlot(j) in raw then BaseFacts.NestedValue("BaseParam", client, raw[ParamSlot(j)])
                        else Err(KeyError(ParamSlot(j))))
                 && (Outcome(Some(ModelClass("BaseParam")), client, rows[j]).Ok? <==> ParamOk(raw, j))
  {
    var rows := GroupRows(raw, ["BaseParam*"], idx);
    forall j | 0 <= j < 6
      ensures Outcome(Some(ModelClass("BaseParam")), client, rows[j])
              == (if ParamSlot(j) in raw then BaseFacts.NestedValue("BaseParam", client, raw[ParamSlot(j)])
                  else Err(KeyError(ParamSlot(j))))
    {
      assert rows[j] == GroupRow(raw, ["BaseParam*"], j);
      ParamOutcome(client, raw, j);
    }
  }

  /** The six transforms succeed exactly when every slot is present and
      null or a dict... */
  lemma ParamsTransformedOk(client: Client, raw: map<string, Json>, idx: seq<int>)
    requires SixIndices(idx)
    ensures TransformAll(Some(ModelClass("BaseParam")), client, GroupRows(raw, ["BaseParam*"], idx)).Ok?
            <==> forall i :: 0 <= i <= 5 ==> ParamOk(raw, i)
  {
    ParamsOutcomes(client, raw, idx);
  }

  /** One position of a successful transform of the six rows. */
  lemma ParamTransformedAt(client: Client, raw: map<string, Json>, idx: seq<int>, i: nat)
    requires SixIndices(idx) && i < 6
    requires TransformAll(Some(ModelClass("BaseParam")), client, GroupRows(raw, ["BaseParam*"], idx)).Ok?
    ensures var all := TransformAll(Some(ModelClass("BaseParam")), client, GroupRows(raw, ["BaseParam*"], idx));
            |all.value| == 6 && all.value[i] == BaseFacts.Built("BaseParam", client, GetOrNull(raw, ParamSlot(i)))
  {
    var t := Some(ModelClass("BaseParam"));
    var rows := GroupRows(raw, ["BaseParam*"], idx);
    var all := TransformAll(t, client, rows);
    assert rows[i] == GroupRow(raw, ["BaseParam*"], i);
    ParamOutcome(client, raw, i);
    assert Outcome(t, client, rows[i]) == Ok(all.value[i]);
  }

  /** ...giving a `BaseParam` per dict slot and `None` per null one, in
      index order... */
  lemma ParamsTransformed(client: Client, raw: map<string, Json>, idx: seq<int>)
    requires SixIndices(idx)
    requires TransformAll(Some(ModelClass("BaseParam")), client, GroupRows(raw, ["BaseParam*"], idx)).Ok?
    ensures TransformAll(Some(ModelClass("BaseParam")), client, GroupRows(raw, ["BaseParam*"], idx)).value
            == seq(6, i => BaseFacts.Built("BaseParam", client, GetOrNull(raw, ParamSlot(i))))
  {
    var all := TransformAll(Some(ModelClass("BaseParam")), client, GroupRows(raw, ["BaseParam*"], idx)).value;
    ParamTransformedAt(client, raw, idx, 0);
    forall i | 0 <= i < 6 ensures all[i] == BaseFacts.Built("BaseParam", client, GetOrNull(raw, ParamSlot(i))) {
      ParamTransformedAt(client, raw, idx, i);
    }
    ParamsBuilt(client, raw, all);
  }

  /** Six values, each built from its own slot, are the built slots in order. */
  lemma ParamsBuilt(client: Client, raw: map<string, Json>, vs: seq<Value>)
    requires |vs| == 6
    requires forall i :: 0 <= i < 6 ==> vs[i] == BaseFacts.Built("BaseParam", client, GetOrNull(raw, ParamSlot(i)))
    ensures vs == seq(6, i => BaseFacts.Built("BaseParam", client, GetOrNull(raw, ParamSlot(i))))
  {
  }

  /** ...and the first failing slot, when it is missing, raises `KeyError`. */
  lemma ParamsFirstMissing(client: Client, raw: map<string, Json>, idx: seq<int>, i: nat)
    requires SixIndices(idx)
    requires i <= 5 && ParamSlot(i) !in raw
    requires forall j :: 0 <= j < i ==> ParamOk(raw, j)
    ensures TransformAll(Some(ModelClass("BaseParam")), client, GroupRows(raw, ["BaseParam*"], idx))
            == Err(KeyError(ParamSlot(i)))
  {
    var t := Some(ModelClass("BaseParam"));
    var rows := GroupRows(raw, ["BaseParam*"], idx);
    ParamsOutcomes(client, raw, idx);
    assert Outcome(t, client, rows[i]) == Err(KeyError(ParamSlot(i)));
    assert forall j :: 0 <= j < i ==> Outcome(t, client, rows[j]).Ok?;
  }

  /** `item.params` reads exactly the six slots `BaseParam0`..`BaseParam5`
      and yields, in order, a `BaseParam` over each non-null one... */
  lemma ItemParams(client: Client, raw: map<string, Json>)
    ensures var r := GetAttr(TypesSchema, Model("Item", client, raw), "params");
            && (r.Ok? <==> forall i :: 0 <= i <= 5 ==> ParamOk(raw, i))
            && (r.Ok? ==> r.value == List(DropNulls(seq(6, i => BaseFacts.Built("BaseParam", client, GetOrNull(raw, ParamSlot(i)))))))
  {
    ParamsIndices();
    var idx := Indices(ParamsRange).value;
    ParamsTransformedOk(client, raw, idx);
    if TransformAll(Some(ModelClass("BaseParam")), client, GroupRows(raw, ["BaseParam*"], idx)).Ok? {
      ParamsTransformed(client, raw, idx);
    }
    ItemParamsRead(client, raw);
  }

  /** ...and a missing slot, reached before any other failure, is an
      `AttributeError`, not a drop. */
  lemma ItemParamsMissing(client: Client, raw: map<string, Json>, i: nat)
    requires i <= 5 && ParamSlot(i) !in raw
    requires forall j :: 0 <= j < i ==> ParamOk(raw, j)
    ensures GetAttr(TypesSchema, Model("Item", client, raw), "params") == Err(AttributeError("params"))
  {
    ParamsIndices();
    ParamsFirstMissing(client, raw, Indices(ParamsRange).value, i);
    ItemParamsRead(client, raw);
  }

  // ---------------------------------------------------------------------
  // Converted fields
  // ---------------------------------------------------------------------

  /** What a converter makes of a raw value: `None` stays `None`, a dict is
      spread as keyword arguments, anything else is the one argument. */
  function Converted(conv: string, v: Json): Value
  {
    if v.JNull? then Null else if v.JObj? then CallKw(conv, v.fields) else Call(conv, v)
  }

  /** A one-key `Elem` with a converter reads its key (absent meaning
      `None`) and never fails. */
  lemma ConvertedRead(cls: string, name: string, key: string, conv: string, client: Client, raw: map<string, Json>)
    requires cls in TypesSchema && name in TypesSchema[cls]
    requires TypesSchema[cls][name] == Descriptor(Single, [key], Some(Converter(conv)))
    ensures GetAttr(TypesSchema, Model(cls, client, raw), name) == Ok(Converted(conv, GetOrNull(raw, key)))
  {
    BaseFacts.SingleKeyRead(TypesSchema, Model(cls, client, raw), name, key);
    BaseFacts.SingleKeyElem(key, Some(Converter(conv)), client, raw);
  }

  /** The pagination table's names, over a body equal to the class
      statement's... */
  lemma PaginationKeys(decls: seq<Decl>, ann: map<string, Transform>)
    requires decls == PaginationDecls
    ensures Declared(decls, ann).Keys
            == {"page", "page_next", "page_prev", "page_total", "results", "results_per_page", "results_total"}
  {
    DeclaredKeys(decls, ann);
    var names := set i | 0 <= i < |decls| && decls[i].Declare? :: decls[i].name;
    assert !decls[0].Declare?;
    assert decls[1].name == "page" && decls[2].name == "page_next";
    assert decls[3].name == "page_prev" && decls[4].name == "page_total";
    assert decls[5].name == "results" && decls[6].name == "results_per_page";
    assert decls[7].name == "results_total";
  }

  /** ...and its descriptors, all `int` over the declared key. */
  lemma PaginationEntries(decls: seq<Decl>, ann: map<string, Transform>)
    requires decls == PaginationDecls && ann == PaginationAnnotations
    ensures forall i :: 1 <= i < |decls| ==>
              && decls[i].name in Declared(decls, ann)
              && Declared(decls, ann)[decls[i].name] == Descriptor(Single, decls[i].keys, Some(IntConv))
  {
    PaginationWellFormed();
    forall i | 1 <= i < |decls|
      ensures decls[i].name in Declared(decls, ann)
      ensures Declared(decls, ann)[decls[i].name] == Descriptor(Single, decls[i].keys, Some(IntConv))
    {
      DeclaredAt(decls, ann, i);
    }
  }

  lemma PaginationDescriptors()
    ensures TypesSchema["Pagination"].Keys
            == {"page", "page_next", "page_prev", "page_total", "results", "results_per_page", "results_total"}
    ensures TypesSchema["Pagination"]["page"] == Descriptor(Single, ["Page"], Some(IntConv))
    ensures TypesSchema["Pagination"]["page_next"] == Descriptor(Single, ["PageNext"], Some(IntConv))
    ensures TypesSchema["Pagination"]["page_prev"] == Descriptor(Single, ["PagePrev"], Some(IntConv))
    ensures TypesSchema["Pagination"]["page_total"] == Descriptor(Single, ["PageTotal"], Some(IntConv))
    ensures TypesSchema["Pagination"]["results"] == Descriptor(Single, ["Results"], Some(IntConv))
    ensures TypesSchema["Pagination"]["results_per_page"] == Descriptor(Single, ["ResultsPerPage"], Some(IntConv))
    ensures TypesSchema["Pagination"]["results_total"] == Descriptor(Single, ["ResultsTotal"], Some(IntConv))
  {
    PaginationKeys(PaginationDecls, PaginationAnnotations);
    PaginationEntries(PaginationDecls, PaginationAnnotations);
    assert PaginationDecls[1].name == "page";
    assert PaginationDecls[2].name == "page_next";
    assert PaginationDecls[3].name == "page_prev";
    assert PaginationDecls[4].name == "page_total";
    assert PaginationDecls[5].name == "results";
    assert PaginationDecls[6].name == "results_per_page";
    assert PaginationDecls[7].name == "results_total";
  }

  /** Every pagination counter is its raw value through `int`. */
  lemma PaginationReads(client: Client, raw: map<string, Json>)
    ensures var m := Model("Pagination", client, raw);
            && GetAttr(TypesSchema, m, "page") == Ok(Converted("int", GetOrNull(raw, "Page")))
            && GetAttr(TypesSchema, m, "page_next") == Ok(Converted("int", GetOrNull(raw, "PageNext")))
            && GetAttr(TypesSchema, m, "page_prev") == Ok(Converted("int", GetOrNull(raw, "PagePrev")))
            && GetAttr(TypesSchema, m, "page_total") == Ok(Converted("int", GetOrNull(raw, "PageTotal")))
            && GetAttr(TypesSchema, m, "results") == Ok(Converted("int", GetOrNull(raw, "Results")))
            && GetAttr(TypesSchema, m, "results_per_page") == Ok(Converted("int", GetOrNull(raw, "ResultsPerPage")))
            && GetAttr(TypesSchema, m, "results_total") == Ok(Converted("int", GetOrNull(raw, "ResultsTotal")))
  {
    PaginationDescriptors();
    ConvertedRead("Pagination", "page", "Page", "int", client, raw);
    ConvertedRead("Pagination", "page_next", "PageNext", "int", client, raw);
    ConvertedRead("Pagination", "page_prev", "PagePrev", "int", client, raw);
    ConvertedRead("Pagination", "page_total", "PageTotal", "int", client, raw);
    ConvertedRead("Pagination", "results", "Results", "int", client, raw);
    ConvertedRead("Pagination", "results_per_page", "ResultsPerPage", "int", client, raw);
    ConvertedRead("Pagination", "results_total", "ResultsTotal", "int", client, raw);
  }

  lemma ResultDescriptors()
    ensures TypesSchema["Result"].Keys == {"id", "name", "icon", "url"}
    ensures TypesSchema["Result"]["id"] == Descriptor(Single, ["ID"], Some(IntConv))
    ensures TypesSchema["Result"]["name"] == Descriptor(Single, ["Name"], Some(StrConv))
    ensures TypesSchema["Result"]["icon"] == Descriptor(Single, ["Icon"], Some(StrConv))
    ensures TypesSchema["Result"]["url"] == Descriptor(Single, ["Url"], Some(StrConv))
  {
    ResultWellFormed();
    DeclaredKeys(ResultDecls, ResultAnnotations);
    var names := set i | 0 <= i < |ResultDecls| && ResultDecls[i].Declare? :: ResultDecls[i].name;
    assert names == {"id", "name", "icon", "url"} by {
      assert ResultDecls[0].name == "id" && ResultDecls[1].name == "name";
      assert ResultDecls[2].name == "icon" && ResultDecls[3].name == "url";
      assert !ResultDecls[4].Declare?;
    }
    DeclaredAt(ResultDecls, ResultAnnotations, 0);
    DeclaredAt(ResultDecls, ResultAnnotations, 1);
    DeclaredAt(ResultDecls, ResultAnnotations, 2);
    DeclaredAt(ResultDecls, ResultAnnotations, 3);
  }

  /** `Item.columns()` lists exactly the raw keys its five descriptors read,
      the `params` template among them unexpanded. */
  lemma ItemColumns()
    ensures ColumnSet(TypesSchema["Item"]) == {"ID", "Name", "Description", "Icon", "BaseParam*"}
  {
    ItemDescriptors();
    var e := TypesSchema["Item"];
    var cs := ColumnSet(e);
    assert "ID" in e["id"].keys && "Name" in e["name"].keys && "Description" in e["description"].keys;
    assert "Icon" in e["icon"].keys && "BaseParam*" in e["params"].keys;
    forall k | k in cs ensures k in {"ID", "Name", "Description", "Icon", "BaseParam*"} {
      var n :| n in e && k in e[n].keys;
    }
  }

  // ---------------------------------------------------------------------
  // Search
  // ---------------------------------------------------------------------

  /** `search.pagination` is a `Pagination` over the raw `Pagination`
      dict, `None` when absent or null; any other value cannot update the
      new instance's dict. */
  lemma SearchPagination(client: Client, raw: map<string, Json>)
    ensures GetAttr(TypesSchema, Model("Search", client, raw), "pagination")
            == BaseFacts.NestedValue("Pagination", client, GetOrNull(raw, "Pagination"))
  {
    SearchDescriptors();
    BaseFacts.SingleKeyRead(TypesSchema, Model("Search", client, raw), "pagination", "Pagination");
    BaseFacts.OneEntryNested("Pagination", GetOrNull(raw, "Pagination"), "Pagination", client);
  }

  /** `search.results` over a raw list: one `Result` per dict element and
      `None` per null one, in order, and it fails exactly when some element
      is neither; a missing `Results` key is an `AttributeError`. */
  lemma SearchResults(client: Client, raw: map<string, Json>)
    ensures "Results" !in raw
            ==> GetAttr(TypesSchema, Model("Search", client, raw), "results") == Err(AttributeError("results"))
    ensures "Results" in raw && raw["Results"].JList? ==>
              var items := raw["Results"].items;
              var r := GetAttr(TypesSchema, Model("Search", client, raw), "results");
              && (r.Ok? <==> BaseFacts.Buildable(items))
              && (r.Ok? ==> r == Ok(List(seq(|items|, i requires 0 <= i < |items| => BaseFacts.Built("Result", client, items[i])))))
  {
    SearchDescriptors();
    if "Results" in raw && raw["Results"].JList? {
      BaseFacts.ListOfModels("Results", "Result", client, raw);
    }
  }

  /** A raw `Results` dict is read as that many copies of one `Result`. */
  lemma SearchResultsOverDict(client: Client, raw: map<string, Json>)
    requires "Results" in raw && raw["Results"].JObj?
    ensures GetAttr(TypesSchema, Model("Search", client, raw), "results")
            == Ok(List(seq(|raw["Results"].fields|, _ => Instance(Model("Result", client, raw["Results"].fields)))))
  {
    SearchDescriptors();
    BaseFacts.ListOverDict("Results", "Result", client, raw);
    var d := TypesSchema["Search"]["results"];
    assert Parse(d, client, raw) == ParseList(["Results"], Some(ModelClass("Result")), client, raw);
  }

  // ---------------------------------------------------------------------
  // Result.get
  // ---------------------------------------------------------------------

  /** A `/kind/id` path names the lower-cased kind. */
  lemma KindOfPath(kind: string, id: string)
    requires '/' !in kind
    ensures ResourceKind("/" + kind + "/" + id) == Ok(Text.Lower(kind))
  {
    assert "/" + kind + "/" + id == [] + ['/'] + (kind + ['/'] + id);
    Text.SplitAfter([], '/', kind + ['/'] + id);
    Text.SplitAfter(kind, '/', id);
  }

  /** More generally the kind is the piece between the first and the second
      `/`, or after the first when there is no second. */
  lemma {:induction false} KindOfPieces(head: string, kind: string, rest: string)
    requires '/' !in head && '/' !in kind
    ensures ResourceKind(head + "/" + kind) == Ok(Text.Lower(kind))
    ensures ResourceKind(head + "/" + kind + "/" + rest) == Ok(Text.Lower(kind))
  {
    Text.SplitAfter(head, '/', kind);
    Text.SplitNoSep(kind, '/');
    assert head + "/" + kind + "/" + rest == head + ['/'] + (kind + ['/'] + rest);
    Text.SplitAfter(head, '/', kind + ['/'] + rest);
    Text.SplitAfter(kind, '/', rest);
  }

  /** `result.get()` builds the class registered under the url's kind, over
      the fetched body, with the result's own client... */
  lemma GetRegistered(client: Client, raw: map<string, Json>, kind: string, id: string, body: map<string, Json>)
    requires '/' !in kind && Text.Lower(kind) in TypesIndex
    requires GetOrNull(raw, "Url") == JStr("/" + kind + "/" + id)
    requires "self" !in body && "client" !in body && "_dct" !in body
    ensures Get(TypesSchema, TypesIndex, Model("Result", client, raw), JObj(body))
            == Ok(Model(TypesIndex[Text.Lower(kind)], client, body))
  {
    ResultDescriptors();
    ConvertedRead("Result", "url", "Url", "str", client, raw);
    KindOfPath(kind, id);
  }

  /** ...and a kind that no `Index` subclass registered raises `KeyError`. */
  lemma GetUnregistered(client: Client, raw: map<string, Json>, kind: string, id: string, fetched: Json)
    requires '/' !in kind && Text.Lower(kind) !in TypesIndex
    requires GetOrNull(raw, "Url") == JStr("/" + kind + "/" + id)
    ensures Get(TypesSchema, TypesIndex, Model("Result", client, raw), fetched) == Err(KeyError(Text.Lower(kind)))
  {
    ResultDescriptors();
    ConvertedRead("Result", "url", "Url", "str", client, raw);
    KindOfPath(kind, id);
  }

  /** The registry holds the three `Index` subclasses and nothing else. */
  lemma IndexKinds(kind: string)
    ensures Text.Lower(kind) in TypesIndex <==> Text.Lower(kind) in {"baseparam", "item", "recipe"}
    ensures Text.Lower(kind) in TypesIndex ==> Text.Lower(TypesIndex[Text.Lower(kind)]) == Text.Lower(kind)
  {
    BaseParamName();
    ItemName();
    RecipeName();
  }

  /** A result whose url is an item page fetches an `Item`. */
  lemma GetItemPage(client: Client, hit: map<string, Json>, id: string, body: map<string, Json>)
    requires GetOrNull(hit, "Url") == JStr("/Item/" + id)
    requires "self" !in body && "client" !in body && "_dct" !in body
    ensures Get(TypesSchema, TypesIndex, Model("Result", client, hit), JObj(body)) == Ok(Model("Item", client, body))
  {
    ItemName();
    assert "/Item/" + id == "/" + "Item" + "/" + id;
    GetRegistered(client, hit, "Item", id, body);
  }

  /** A search hit on an item page: `results[0].get()` is an `Item` over
      the fetched body. */
  lemma SearchThenGet(client: Client, raw: map<string, Json>, hit: map<string, Json>, id: string, body: map<string, Json>)
    requires "Results" in raw && raw["Results"].JList?
    requires BaseFacts.Buildable(raw["Results"].items)
    requires |raw["Results"].items| >= 1 && raw["Results"].items[0] == JObj(hit)
    requires GetOrNull(hit, "Url") == JStr("/Item/" + id)
    requires "self" !in body && "client" !in body && "_dct" !in body
    ensures var rs := GetAttr(TypesSchema, Model("Search", client, raw), "results");
            && rs.Ok? && rs.value.List? && |rs.value.items| >= 1
            && rs.value.items[0] == Instance(Model("Result", client, hit))
            && Get(TypesSchema, TypesIndex, rs.value.items[0].model, JObj(body)) == Ok(Model("Item", client, body))
  {
    SearchResults(client, raw);
    var items := raw["Results"].items;
    var rs := GetAttr(TypesSchema, Model("Search", client, raw), "results");
    assert rs == Ok(List(seq(|items|, i requires 0 <= i < |items| => BaseFacts.Built("Result", client, items[i]))));
    assert rs.value.items[0] == BaseFacts.Built("Result", client, items[0]);
    GetItemPage(client, hit, id, body);
  }
}
