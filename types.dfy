/** The concrete schemas of `xivapi/models/types.py` and the registry
    lookup of `Result.get`. */
module Types {
  import opened Py
  import opened Json
  import opened Base
  import opened Classes
  import Text

  const IntConv := Converter("int")
  const StrConv := Converter("str")

  /** `name: ann = Elem(key)`, as a declaration. */
  function E(name: string, key: string): Decl
  {
    Declare(name, ElemClass, [key], None)
  }

  // ---------------------------------------------------------------------
  // The class statements
  // ---------------------------------------------------------------------

  const PaginationDecls: seq<Decl> := [
    Other("__repr_attrs__"),
    E("page", "Page"),
    E("page_next", "PageNext"),
    E("page_prev", "PagePrev"),
    E("page_total", "PageTotal"),
    E("results", "Results"),
    E("results_per_page", "ResultsPerPage"),
    E("results_total", "ResultsTotal")]

  const PaginationAnnotations: map<string, Transform> := map[
    "page" := IntConv, "page_next" := IntConv, "page_prev" := IntConv,
    "page_total" := IntConv, "results" := IntConv,
    "results_per_page" := IntConv, "results_total" := IntConv]

  const ResultDecls: seq<Decl> := [
    E("id", "ID"), E("name", "Name"), E("icon", "Icon"), E("url", "Url"),
    Other("get")]

  const ResultAnnotations: map<string, Transform> := map[
    "id" := IntConv, "name" := StrConv, "icon" := StrConv, "url" := StrConv]

  const SearchDecls: seq<Decl> := [
    Other("__repr_attrs__"),
    E("pagination", "Pagination"),
    Declare("results", ElemListClass, ["Results"], None)]

  const SearchAnnotations: map<string, Transform> := map[
    "pagination" := ModelClass("Pagination"), "results" := ModelClass("Result")]

  const BaseParamDecls: seq<Decl> := [
    E("id", "ID"), E("name", "Name"), E("description", "Description"), E("url", "Url")]

  const BaseParamAnnotations: map<string, Transform> := map[
    "id" := IntConv, "name" := StrConv, "description" := StrConv, "url" := StrConv]

  /** `params: BaseParam = ElemGroup('BaseParam*')[0:5]`. */
  const ParamsRange := Slice(Some(0), Some(5), None)

  const ItemDecls: seq<Decl> := [
    E("id", "ID"), E("name", "Name"), E("description", "Description"), E("icon", "Icon"),
    Declare("params", ElemGroupClass, ["BaseParam*"], Some(ParamsRange))]

  const ItemAnnotations: map<string, Transform> := map[
    "id" := IntConv, "name" := StrConv, "description" := StrConv, "icon" := StrConv,
    "params" := ModelClass("BaseParam")]

  const RecipeDecls: seq<Decl> := [E("id", "ID"), E("name", "Name")]

  const RecipeAnnotations: map<string, Transform> := map["id" := IntConv, "name" := StrConv]

  /** The descriptor tables once the module has loaded. */
  const TypesSchema: Schema := map[
    "Pagination" := Declared(PaginationDecls, PaginationAnnotations),
    "Result" := Declared(ResultDecls, ResultAnnotations),
    "Search" := Declared(SearchDecls, SearchAnnotations),
    "BaseParam" := Declared(BaseParamDecls, BaseParamAnnotations),
    "Item" := Declared(ItemDecls, ItemAnnotations),
    "Recipe" := Declared(RecipeDecls, RecipeAnnotations)]

  /** `Index.types` once the module has loaded: only the `Index` subclasses. */
  const TypesIndex: map<string, string> := map[
    "baseparam" := "BaseParam", "item" := "Item", "recipe" := "Recipe"]

  // Every class body binds each name once.
  lemma PaginationWellFormed() ensures WellFormed(PaginationDecls) {}
  lemma ResultWellFormed() ensures WellFormed(ResultDecls) {}
  lemma SearchWellFormed() ensures WellFormed(SearchDecls) {}
  lemma BaseParamWellFormed() ensures WellFormed(BaseParamDecls) {}
  lemma ItemWellFormed() ensures WellFormed(ItemDecls) {}
  lemma RecipeWellFormed() ensures WellFormed(RecipeDecls) {}

  /** The registry keys of the three `Index` subclasses. */
  lemma BaseParamName() ensures Text.Lower("BaseParam") == "baseparam" {}
  lemma ItemName() ensures Text.Lower("Item") == "item" {}
  lemma RecipeName() ensures Text.Lower("Recipe") == "recipe" {}

  /** Loading the module: the six class statements in order. */
  method Load() returns (reg: Registry)
    ensures fresh(reg)
    ensures reg.Schema() == TypesSchema
    ensures reg.types == TypesIndex
  {
    reg := new Registry();
    PaginationWellFormed();
    reg.DeclareClass("Pagination", PaginationDecls, PaginationAnnotations, false);
    ResultWellFormed();
    reg.DeclareClass("Result", ResultDecls, ResultAnnotations, false);
    SearchWellFormed();
    reg.DeclareClass("Search", SearchDecls, SearchAnnotations, false);
    BaseParamWellFormed();
    BaseParamName();
    reg.DeclareClass("BaseParam", BaseParamDecls, BaseParamAnnotations, true);
    ItemWellFormed();
    ItemName();
    reg.DeclareClass("Item", ItemDecls, ItemAnnotations, true);
    RecipeWellFormed();
    RecipeName();
    reg.DeclareClass("Recipe", RecipeDecls, RecipeAnnotations, true);
  }

  // ---------------------------------------------------------------------
  // Result.get, without the fetch
  // ---------------------------------------------------------------------

  /** `url.split('/')[1].lower()`: the resource kind of a `/kind/id` path;
      a url without a `/` has no second piece and raises `IndexError`. */
  function ResourceKind(url: string): (r: Result<string>)
    ensures r.Err? <==> '/' !in url
    ensures r.Err? ==> r.error == IndexError
    ensures r.Ok? ==> |Text.Split(url, '/')| >= 2 && r.value == Text.Lower(Text.Split(url, '/')[1])
  {
    var parts := Text.Split(url, '/');
    Text.SplitMany(url, '/');
    if |parts| < 2 then Err(IndexError) else Ok(Text.Lower(parts[1]))
  }

  /** `Index.types[...]` on that kind: an unregistered kind raises `KeyError`. */
  function Lookup(types: map<string, string>, url: string): (r: Result<string>)
    ensures r.Ok? ==> r.value in types.Values
    ensures r.Err? ==> r.error == IndexError || (r.error.KeyError? && r.error.key !in types)
    ensures var k := ResourceKind(url);
            r == (if k.Err? then Err(IndexError) else if k.value in types then Ok(types[k.value]) else Err(KeyError(k.value)))
  {
    var kind :- ResourceKind(url);
    if kind in types then Ok(types[kind]) else Err(KeyError(kind))
  }

  /** `cls(client, **d)` against `__init__(self, client, _dct=None, **kwargs)`:
      a `self` or `client` entry clashes with a positional parameter, and a
      `_dct` entry binds that parameter instead of a keyword argument. */
  function CallWithKeywords(cls: string, client: Client, d: map<string, Json>): (r: Result<Model>)
    ensures "self" in d || "client" in d ==> r == Err(TypeError)
    ensures "self" !in d && "client" !in d && "_dct" !in d ==> r == Ok(Model(cls, client, d))
  {
    if "self" in d || "client" in d then Err(TypeError)
    else if "_dct" in d then New(cls, client, d["_dct"], d - {"_dct"})
    else New(cls, client, JNull, d)
  }

  /** `str(x)` for the url attribute, which has the `str` converter: a
      string is itself and an integer its decimal digits; `None` has no
      `split`. */
  function UrlText(v: Value): (r: Result<string>)
    ensures v == Null ==> r == Err(AttributeError("split"))
    ensures (forall s :: v == Call("str", JStr(s)) ==> r == Ok(s))
  {
    match v
    case Null => Err(AttributeError("split"))
    case Call("str", JStr(s)) => Ok(s)
    case Call("str", JInt(i)) => Ok(Text.IntToString(i))
    case Call("str", JBool(b)) => Ok(if b then "True" else "False")
    case _ => Err(TypeError)
  }

  /** `await result.get()`, with the JSON body of the response passed in as
      `fetched`: the class registered for the url's kind, built over that
      body with the result's client. */
  function Get(schema: Schema, types: map<string, string>, m: Model, fetched: Json): (r: Result<Model>)
    ensures r.Ok? ==> r.value.client == m.client && r.value.cls in types.Values
    ensures !fetched.JObj? ==> r.Err?
    ensures fetched.JObj? && ("self" in fetched.fields || "client" in fetched.fields) ==> r.Err?
  {
    var url :- GetAttr(schema, m, "url");
    var path :- UrlText(url);
    var cls :- Lookup(types, path);
    if fetched.JObj? then CallWithKeywords(cls, m.client, fetched.fields) else Err(TypeError)
  }
}
