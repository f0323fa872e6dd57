# xivapi.py model deserialiser in Dafny

This project models the model layer of the xivapi.py client library: the
code that turns a JSON payload from the XIVAPI web service into Python
objects.

`xivapi/models/base.py` is a schema-driven, lazy deserialiser. A class
statement declares descriptors, and their annotations name the transforms:
- `Elem` reads one or more raw keys;
- `ElemList` zips list-valued keys position by position;
- `ElemGroup` expands a `*`-templated key family over an inclusive index
  range and drops the slots that come out `None`.

`Model.__init_subclass__` collects the descriptors into a per-class
`elems` table. `Index.__init_subclass__` registers a class under its
lowercased name. `Model` does not cache: reading an attribute parses the
stored raw payload again each time.

`xivapi/models/types.py` declares six concrete schemas (`Pagination`,
`Result`, `Search`, `BaseParam`, `Item`, `Recipe`). `Result.get` derives a
resource kind from a `/kind/id` url and looks its class up in the registry.

`xivapi/models/__init__.py` is an older eager variant. Its constructor runs
every attribute's transform at once and stores the results with `setattr`.

The modules follow the program:

| file | module | contents |
|---|---|---|
| py.dfy | `Py` | `Option`, the Python exceptions as an `Error` datatype, `Result`, the client |
| json.dfy | `Json` | a JSON-like value with missing keys distinct from `null` |
| text.dfy | `Text` | `str.replace('*', …)`, `str(int)`, `str.split('/')`, `str.lower()` |
| base.dfy | `Base` | the parsing logic of `base.py` as functions over a schema snapshot |
| base_facts.dfy | `BaseFacts` | what the three descriptors promise |
| classes.dfy | `Classes` | class-definition state of `base.py`: descriptor objects, `elems` tables and `Index.types` |
| types.dfy | `Types` | the schemas of `types.py`, module loading, `Result.get` without the fetch |
| types_facts.dfy | `TypesFacts` | the properties of the concrete schemas and of `Result.get` |
| eager.dfy | `Eager` | `__init__.py`: class definition, the constructor's attribute loop, reads |
| eager_facts.dfy | `EagerFacts` | what eager construction and `columns()` promise |

Two parts of `base.py` change state in place, and `Classes` models them
imperatively:
- a descriptor's transform and range are changed in place. `BaseElem` is a
  class with `SetTransform` and `Subscript`.
- each class statement adds to the per-class tables and the shared
  registry. `Registry` holds both, and `DeclareClass` runs a class body and
  then `__init_subclass__`.

`Registry.Schema()` is a value snapshot of that state. The pure functions
of `Base` read it.

In `__init__.py` the constructor sets attributes one at a time.
`Eager.Object.SetAll` is that loop, proved against the recursive
specification `Eager.Fill`.

Missing keys and `null` values are kept apart throughout, as the source
keeps them apart:
- `Elem` reads a missing key as `None`;
- `ElemList` raises `KeyError` on a missing key once it builds a row (an
  empty first value builds none, so no other key is read), and
  `ElemGroup` on a missing numbered key;
- the eager constructor sets a missing key's attribute to `None`, but sets
  nothing for a present `null` value.

Exceptions are `Err` values of `Py.Error`. Attribute access turns a
`KeyError` from parsing into `AttributeError(name)`, as
`Model.__getattribute__` does.

Two places where the code does something other than its documentation
says. The model follows the code in both:
- The `ElemGroup` docstring (`xivapi/models/base.py:86-88`) writes
  `Elem('a*', 'b')[3]`. Only `ElemGroup` defines `__getitem__`, so that
  expression raises `TypeError`. `Classes.BaseElem.Subscript` models this.
- A multi-key `Elem` passes its transform a dict holding every declared
  key, with absent keys as `None`. That dict is never unwrapped, so the
  result is never `None`, even when every key is absent.
  `BaseFacts.MultiKeyElem` states this.

## Model

| member | source | states |
|---|---|---|
| Base.New | xivapi/models/base.py:131-141 | construction succeeds exactly when `_dct` is `None` or a dict; the raw payload's keys are the keyword arguments' plus `_dct`'s, a `_dct` entry wins over a keyword argument and every other key keeps the keyword value; class and client are kept |
| Base.GetItem | xivapi/models/base.py:172-177 | `obj[k]` succeeds exactly when `k` is a raw key and then gives the stored raw value, otherwise raises `KeyError(k)` |
| Base.Unwrap | xivapi/models/base.py:30-31 | a one-entry mapping becomes its only value; any other mapping is passed on whole |
| Base.Apply | xivapi/models/base.py:36-41 | applying a transform never gives `None`; a Model class succeeds exactly on a dict and builds an instance over it with the same client; a converter gets a dict spread as keyword arguments and anything else as its one argument; a missing transform raises `TypeError` in `issubclass`; a Model class over a dict gives exactly an instance over that dict with the same client, and over anything else the failed update |
| Base.DoTransform | xivapi/models/base.py:26-41 | the result is `None` exactly when the unwrapped data is `None`; otherwise it is the transform applied to the unwrapped data; only `TypeError` and the failed dict update can be raised |
| Base.Picked | xivapi/models/base.py:61 | the mapping an `Elem` builds has exactly the declared keys, each the raw value or `None` when absent |
| Base.ParseSingle | xivapi/models/base.py:60-61 | `Elem.parse` gives `None` exactly when the unwrapped picked data is `None`, and can raise only `TypeError` or the failed update, never `KeyError`; SingleKeyElem and MultiKeyElem give its values |
| Base.ListCell | xivapi/models/base.py:76 | one cell of an `ElemList` row: the `i`-th item of a list value, the whole value otherwise, `KeyError` for a missing key and `IndexError` past the end of a list |
| Base.ListRow | xivapi/models/base.py:75-78 | a row succeeds exactly when every declared key's cell does, has exactly the declared keys with their cells, and otherwise fails with the error of the first failing key, left to right |
| Base.TransformAll | xivapi/models/base.py:74-81 | a list comprehension of transforms succeeds exactly when every position does, keeps length and order, and otherwise raises the error of the first failing position |
| Base.ParseList | xivapi/models/base.py:73-81 | `ElemList.parse` raises `IndexError` with no keys and `KeyError` for a missing first key, and a parsed list is as long as `len` of the first key's value; ListElements and ListMissingKey give its elements and its other failures |
| Base.PyRange | xivapi/models/base.py:108-110 | Python's `range(start, stop, step)`: element `j` is `start + j*step`, all elements on the near side of `stop`, and the first excluded value at or past `stop` |
| Base.Indices | xivapi/models/base.py:107-110 | the range of an `ElemGroup` is computable exactly when it is not a slice without a stop, which raises `TypeError` on `None + 1` |
| BaseFacts.SliceStepIndices | xivapi/models/base.py:107-108 | a slice `a:b:s` iterates over `a + j*s` (start default 0, step default 1, step 0 read as 1), up to `b` inclusive for a positive step and down to `b + 2` for a negative one |
| Base.Stripped | xivapi/models/base.py:117 | the output name of a template holds no `*` |
| Base.GroupRow | xivapi/models/base.py:114-119 | an `ElemGroup` row at index `i` succeeds exactly when every template's numbered key is present, and otherwise raises `KeyError` of the first missing numbered key, in template order |
| Base.DropNulls | xivapi/models/base.py:112-121 | the filtered list holds exactly the non-`None` values, and is no longer than the list it filters |
| BaseFacts.DropNullsOne | xivapi/models/base.py:112-121 | a one-element list keeps its element exactly when it is not `None` |
| BaseFacts.DropNullsAppend | xivapi/models/base.py:112-121 | filtering distributes over concatenation, so the kept values stay in order and with their multiplicity |
| Base.ParseGroup | xivapi/models/base.py:102-121 | `ElemGroup.parse` raises `TypeError` without a range, and a parsed group is a list with no `None`, no longer than its range; GroupOutput and GroupMissingSlot give its elements and failures |
| Base.Parse | xivapi/models/base.py:154-157 | `descriptor.parse`: an `Elem` never raises `KeyError`, a list or group descriptor gives a list, and a group holds no `None` |
| Base.GetAttr | xivapi/models/base.py:154-161 | reading an attribute never lets a `KeyError` escape; a class without `elems` raises `AttributeError('elems')`; an undeclared name is ordinary attribute lookup; a declared one gives exactly the parse of the stored payload when that raises no `KeyError`, and `AttributeError(name)` exactly when it does |
| Base.ColumnSet | xivapi/models/base.py:181-185 | the union of all descriptors' keys: every declared key is in it and every member comes from some descriptor |
| BaseFacts.SingleKeyElem | xivapi/models/base.py:26-61 | a one-key `Elem` gives `None` for a missing or null key, else the transform of the raw value; a dict value builds a nested model over it, or is spread into a converter |
| BaseFacts.SingleKeyRead | xivapi/models/base.py:154-157 | reading a one-key `Elem` attribute is `do_transform` over `{k: data.get(k)}` and fails exactly as that does |
| BaseFacts.MultiKeyElem | xivapi/models/base.py:30-61 | a multi-key `Elem` passes the whole mapping of exactly its declared keys, absent ones as `None`, and never gives `None` |
| BaseFacts.OneEntryNested | xivapi/models/base.py:30-37 | a Model transform over a one-entry mapping sees only the entry's value: `None`, an instance over a dict, or a failed update |
| BaseFacts.ListElements | xivapi/models/base.py:73-81 | a parsed `ElemList` has as many elements as the first key's raw value has, and element `i` is the transform of row `i` |
| BaseFacts.ListRowCells | xivapi/models/base.py:74-78 | row `i` takes `value[i]` from every list-valued key and the whole value of every other key |
| BaseFacts.ListMissingKey | xivapi/models/base.py:76-80 | a declared key missing from the payload makes the parse raise `KeyError` of a missing declared key |
| BaseFacts.ListMissingKeyAttribute | xivapi/models/base.py:154-159 | reading such an `ElemList` attribute raises `AttributeError(name)` |
| BaseFacts.ListRowOne | xivapi/models/base.py:75-78 | a one-key row over a list value is the one-entry mapping of the `i`-th item |
| BaseFacts.ListOfModels | xivapi/models/base.py:73-81 | a one-key `ElemList` of a Model class over a list succeeds exactly when every item is `None` or a dict, and then gives, in order, an instance per dict and `None` per null, none dropped |
| BaseFacts.ListRowWhole | xivapi/models/base.py:76 | a one-key row over a value that is not a list holds the whole value |
| BaseFacts.ListOverDict | xivapi/models/base.py:76-80 | over a dict value, `len` counts its keys and every element is an instance over the same whole dict |
| BaseFacts.GroupNeedsRange | xivapi/models/base.py:103-104 | an `ElemGroup` never subscripted raises `TypeError` whatever the data |
| BaseFacts.StepOneRange | xivapi/models/base.py:108 | with step 1, `range(a, c)` is `a, a+1, …, c-1` |
| BaseFacts.UptoIndices | xivapi/models/base.py:110 | an int subscript `n` iterates over `0..n` inclusive |
| BaseFacts.SliceIndices | xivapi/models/base.py:107-108 | a slice `a:b` with no step, step 0 or step 1 iterates over `a` (default 0) up to `b` inclusive |
| BaseFacts.SliceNeedsStop | xivapi/models/base.py:108 | a slice without a stop raises `TypeError` |
| BaseFacts.UptoIsSliceFromZero | xivapi/models/base.py:107-110 | `[n]` and `[:n]` iterate over the same indices |
| BaseFacts.TemplateKeys | xivapi/models/base.py:117 | the template `p*s` reads `p<i>s` at index `i` and files it under `ps`; a key without `*` is read as it is |
| BaseFacts.GroupRowKeys | xivapi/models/base.py:114-119 | a row has exactly one entry per stripped template name |
| BaseFacts.GroupRowValues | xivapi/models/base.py:114-119 | the entry under a stripped name holds the numbered key read by the last template of that name |
| BaseFacts.GroupOutput | xivapi/models/base.py:112-121 | a parsed `ElemGroup` is, in index order, the transforms of the rows with the `None` results dropped, and holds no `None` |
| BaseFacts.GroupFailure | xivapi/models/base.py:112-121 | a failing transform makes the whole parse raise that error |
| BaseFacts.GroupMissingSlot | xivapi/models/base.py:112-121 | a missing numbered key makes the parse fail, with `KeyError` when it is the first failure: it is not dropped |
| BaseFacts.DictOverridesKeywords | xivapi/models/base.py:137-177 | a key given both in `_dct` and as a keyword argument reads back as the `_dct` value through `obj[k]` |
| Classes.BaseElem.constructor | xivapi/models/base.py:11-13 | a new descriptor keeps its keys and has neither transform nor range |
| Classes.BaseElem.SetTransform | xivapi/models/base.py:18-24 | `set_transform(None)` leaves the transform unchanged, any other argument replaces it; the range is untouched |
| Classes.BaseElem.Subscript | xivapi/models/base.py:98-100 | subscripting an `ElemGroup` stores the range and returns the same object; any other descriptor is not subscriptable and raises `TypeError` |
| Classes.BaseElem.Snapshot | xivapi/models/base.py:8-13 | a descriptor's value snapshot has its keys and transform, and is grouped, with its range, exactly for an `ElemGroup` |
| Classes.Harvest | xivapi/models/base.py:148-152 | `elems` holds only descriptor objects found in the class body |
| Classes.HarvestKeys | xivapi/models/base.py:148-152 | `elems` has exactly the names the class body binds to descriptors, and nothing inherited |
| Classes.HarvestValues | xivapi/models/base.py:149-152 | each such name maps to the descriptor the body binds to it |
| Classes.AnnotatedAbsent | xivapi/models/base.py:149-151 | a descriptor that the class body does not hold keeps its transform |
| Classes.AnnotatedOnce | xivapi/models/base.py:151 | a descriptor bound once takes its name's annotation, or keeps its transform when the name has none |
| Classes.DeclaredKeys | xivapi/models/base.py:148-152 | the declared table has exactly the names of the descriptor declarations |
| Classes.DeclaredAt | xivapi/models/base.py:148-152 | each declared name maps to its declaration's shape and keys with its annotation as transform |
| Classes.RunBody | xivapi/models/base.py:94-100 | running a class body creates one fresh descriptor per declaration, in order, subscripted where declared and with no transform yet |
| Classes.Registry.constructor | xivapi/models/base.py:195 | no class is declared and the registry starts empty |
| Classes.Registry.DefineModel | xivapi/models/base.py:143-200 | `__init_subclass__`: a fresh table of the body's descriptors, each given its annotation, other classes' tables unchanged, and an `Index` class registered under its lowercased name, a later one replacing an earlier |
| Classes.Registry.DeclareClass | xivapi/models/base.py:143-200 | a class statement adds exactly that class's declared table to the schema and leaves every other class's table and the registry untouched, apart from its own registration |
| Classes.Registry.Columns | xivapi/models/base.py:179-185 | `columns()` lists every key of any descriptor and nothing else, each once; a class with no `elems` raises `AttributeError` |
| Classes.BuiltTable | xivapi/models/base.py:148-152 | the table harvested from a run class body is the declared table |
| Types.Load | xivapi/models/types.py:7-55 | loading `types.py` leaves the six declared schemas and a registry holding exactly `baseparam`, `item` and `recipe` |
| Types.ResourceKind | xivapi/models/types.py:26 | the resource kind is the lowercased second piece of `url.split('/')`, and a url without `/` raises `IndexError` |
| TypesFacts.KindOfPieces | xivapi/models/types.py:26 | the kind is the text between the first and the second `/`, or after the first when there is no second, lowercased |
| Types.Lookup | xivapi/models/types.py:26 | `Index.types[kind]`: the class registered under the url's resource kind; `IndexError` for a url without `/`, and `KeyError(kind)` for an unregistered kind |
| Types.CallWithKeywords | xivapi/models/types.py:28 | `t(client, **body)` raises `TypeError` when the body has a `self` or `client` entry, which clash with `__init__`'s positional parameters, and otherwise without `_dct` gives a model over the body |
| Types.UrlText | xivapi/models/types.py:26 | `None` has no `split`, and a string url is itself |
| Types.Get | xivapi/models/types.py:25-28 | `Result.get` gives a model of a registered class with the result's client, and fails for a body that is not a dict or has a `self` or `client` entry |
| TypesFacts.ItemDescriptors | xivapi/models/types.py:44-50 | `Item` has exactly five descriptors: four one-key fields with `int`/`str`, and `params` grouped over `BaseParam*` with range `0:5` building `BaseParam` |
| TypesFacts.SearchDescriptors | xivapi/models/types.py:31-34 | `Search` has exactly `pagination` (one key, building `Pagination`) and `results` (a list over `Results`, building `Result`) |
| TypesFacts.PaginationKeys | xivapi/models/types.py:7-16 | `Pagination` declares exactly its seven counters, not `__repr_attrs__` |
| TypesFacts.PaginationEntries | xivapi/models/types.py:10-16 | each pagination counter is a one-key `Elem` with `int` |
| TypesFacts.PaginationDescriptors | xivapi/models/types.py:7-16 | the loaded `Pagination` table, field by field |
| TypesFacts.PaginationReads | xivapi/models/types.py:10-16 | every pagination counter is its raw value through `int`, `None` when the key is absent or null |
| TypesFacts.ResultDescriptors | xivapi/models/types.py:19-23 | `Result` has exactly `id`, `name`, `icon`, `url`, not `get` |
| TypesFacts.ParamRow | xivapi/models/types.py:50 | the `params` row at index `i` is `{BaseParam: raw["BaseParam<i>"]}`, or `KeyError` for a missing slot |
| TypesFacts.ParamOutcome | xivapi/models/types.py:50 | a slot becomes `None`, a `BaseParam` over its dict, or a failed update, and a missing slot raises `KeyError` |
| TypesFacts.ParamsIndices | xivapi/models/types.py:50 | the range `0:5` iterates over the six indices `0..5` |
| TypesFacts.ParamsOutcomes | xivapi/models/types.py:50 | the six rows of `params` and what each slot becomes |
| TypesFacts.ParamsTransformedOk | xivapi/models/types.py:50 | the six transforms succeed exactly when every slot is present and null or a dict |
| TypesFacts.ParamsTransformed | xivapi/models/types.py:50 | and then they give, in slot order, a `BaseParam` or `None` per slot |
| TypesFacts.ParamsFirstMissing | xivapi/models/types.py:50 | the first failing slot, when missing, raises `KeyError` of that slot |
| TypesFacts.ItemParamsRead | xivapi/models/types.py:50 | reading `item.params` is parsing its `ElemGroup`, with a `KeyError` turned into `AttributeError` |
| TypesFacts.ItemParams | xivapi/models/types.py:44-50 | `item.params` reads exactly `BaseParam0`..`BaseParam5`, succeeds exactly when every slot is present and null or a dict, and gives a `BaseParam` per non-null slot in order |
| TypesFacts.ItemParamsMissing | xivapi/models/types.py:50 | a missing slot reached before any other failure makes `item.params` raise `AttributeError`, not drop the slot |
| TypesFacts.ConvertedRead | xivapi/models/types.py:10-23 | a one-key field with a converter reads its key, absent meaning `None`, and never fails |
| TypesFacts.ItemColumns | xivapi/models/types.py:44-50 | `Item.columns()` is `{ID, Name, Description, Icon, BaseParam*}`, the template kept as written |
| TypesFacts.SearchPagination | xivapi/models/types.py:33 | `search.pagination` is `None` for an absent or null key, a `Pagination` over a dict with the same client, and fails on anything else |
| TypesFacts.SearchResults | xivapi/models/types.py:34 | an absent `Results` makes `search.results` raise `AttributeError`; over a list it succeeds exactly when every item is `None` or a dict, and gives one `Result` per dict, in order |
| TypesFacts.SearchResultsOverDict | xivapi/models/types.py:34 | a dict `Results` gives one `Result` over the whole dict per key |
| TypesFacts.KindOfPath | xivapi/models/types.py:26 | the url `/kind/id` has resource kind `kind` lowercased |
| TypesFacts.GetRegistered | xivapi/models/types.py:25-28 | `get` on a registered kind gives that class over the fetched body with the same client, for a body with no `self`, `client` or `_dct` entry |
| TypesFacts.GetUnregistered | xivapi/models/types.py:26 | `get` on an unregistered kind raises `KeyError` of the lowercased kind |
| TypesFacts.IndexKinds | xivapi/models/types.py:37-55 | the registered kinds are exactly `baseparam`, `item` and `recipe`, each the lowercased name of its class |
| TypesFacts.GetItemPage | xivapi/models/types.py:25-28 | a result whose url is `/Item/<id>` fetches an `Item`, for a body with no `self`, `client` or `_dct` entry |
| TypesFacts.SearchThenGet | xivapi/models/types.py:25-34 | the first hit of a search for an item, fetched, is an `Item` over the fetched body with the search's client, for a body with no `self`, `client` or `_dct` entry |
| Eager.Call | xivapi/models/__init__.py:44-48 | the pass-through gives the data, a converter is called on it, and a Model class builds an instance over a null or dict with the same client and raw data (with the pass-through as intended, see ## Findings) |
| Eager.CallAsWritten | xivapi/models/__init__.py:44-48 | as written, the default pass-through reaches `issubclass` and raises `TypeError` |
| Eager.Populate | xivapi/models/__init__.py:20-51 | the attribute loop over a class's table keeps class, client and raw data; a class with no `attrs` raises `AttributeError` (with the pass-through as intended, see ## Findings) |
| Eager.Apply | xivapi/models/__init__.py:37-48 | a plain transform is called on the value; an empty list annotation raises `IndexError`; a list annotation over a number raises `TypeError` (with the pass-through as intended, see ## Findings) |
| Eager.CallEach | xivapi/models/__init__.py:41-43 | mapping a callable over items succeeds exactly when each call does, keeps length and order, and otherwise raises the first failure |
| Eager.Construct | xivapi/models/__init__.py:20-51 | construction fails on a `_dct` that is neither `None` nor a dict, and otherwise stores the keyword arguments updated by `_dct` as raw data (with the pass-through as intended, see ## Findings) |
| Eager.Lookup | xivapi/models/__init__.py:58-64 | the class attribute under a name is found exactly when the table holds that name |
| Eager.Read | xivapi/models/__init__.py:33-51 | a set attribute reads as its value; otherwise the class's `Elem` of that name when there is one; any other name (`client`, `_raw_data_`, `attrs`, `columns`, or a missing one) is ordinary attribute lookup, outside this model |
| Eager.Step | xivapi/models/__init__.py:33-51 | one attribute's step sets nothing exactly when its key is present with a null value, and sets `None` when the key is missing; AttributeSet gives the set value |
| Eager.Fill | xivapi/models/__init__.py:33-51 | the attribute loop over no attributes sets nothing, and sets only names of the table; FillSteps gives each attribute's value |
| EagerFacts.FillOk | xivapi/models/__init__.py:33-51 | the loop succeeds exactly when every attribute's step does |
| EagerFacts.FillAt | xivapi/models/__init__.py:33-51 | on success, each attribute is set exactly when its own step sets a value, and then to that value |
| Eager.Columns | xivapi/models/__init__.py:81-83 | `columns()` has one entry per attribute, holds every attribute's key and nothing else; ColumnsOfBody gives its order |
| Eager.Subscript | xivapi/models/__init__.py:74-79 | `obj[k]` is the raw value exactly when `k` is a raw key, otherwise `KeyError(k)`, as in the lazy variant's `__getitem__`, which it reuses |
| Eager.Elem.constructor | xivapi/models/__init__.py:9-11 | a new `Elem` has its key and the default pass-through |
| Eager.Object.constructor | xivapi/models/__init__.py:22-30 | a new instance has the client and raw data and no attributes set |
| Eager.Object.SetAttr | xivapi/models/__init__.py:49-51 | `setattr` changes exactly one attribute |
| Eager.Object.SetAll | xivapi/models/__init__.py:33-51 | the attribute loop ends with exactly the attributes `Fill` specifies, or with its first error (with the pass-through as intended, see ## Findings) |
| Eager.RunBody | xivapi/models/__init__.py:58-64 | a class body creates fresh `Elem`s whose table, once annotated, is the declared table |
| Eager.Registry.DeclareClass | xivapi/models/__init__.py:53-64 | a class statement adds exactly that class's declared table and leaves every other class's table unchanged |
| Eager.Registry.Instantiate | xivapi/models/__init__.py:20-51 | `cls(client, _dct, **kwargs)` gives a fresh object whose state is `Construct`'s result, or `Construct`'s error (with the pass-through as intended, see ## Findings) |
| Eager.FillFails | xivapi/models/__init__.py:33-49 | once a transform raises, the rest of the loop does not change the outcome |
| EagerFacts.DeclaredEntries | xivapi/models/__init__.py:58-64 | `attrs` holds exactly the `Elem`s of the class body, each with its key and its annotation or the default |
| EagerFacts.DeclaredOrder | xivapi/models/__init__.py:58-64 | the table built by the loop is the body's `Elem`s read from the front, in order |
| EagerFacts.DeclaredInSplit | xivapi/models/__init__.py:59-64 | the table of two consecutive parts of a body is the two tables concatenated |
| EagerFacts.DeclaredDistinct | xivapi/models/__init__.py:59 | a class's `attrs` names are distinct |
| EagerFacts.DeclaredPositions | xivapi/models/__init__.py:59-64 | table entries come from declarations in the same relative order |
| EagerFacts.UnannotatedAsWritten | xivapi/models/__init__.py:44-63 | an unannotated `Elem` keeps the default transform, which as written raises `TypeError` and as intended passes the data through |
| EagerFacts.FillSteps | xivapi/models/__init__.py:33-51 | the loop succeeds exactly when every attribute's step does, and each attribute is set, or left unset, exactly by its own step |
| EagerFacts.Constructs | xivapi/models/__init__.py:20-51 | construction succeeds exactly when `_dct` merges and every attribute's step succeeds on the merged data (with the pass-through as intended, see ## Findings) |
| EagerFacts.LookupAt | xivapi/models/__init__.py:64 | in a table of distinct names, each name finds its own `Elem` |
| EagerFacts.AttributeSet | xivapi/models/__init__.py:34-51 | a missing key sets the attribute to `None`; a present null sets nothing, so reading it gives the class's `Elem`; any other value sets the transform's result (with the pass-through as intended, see ## Findings) |
| EagerFacts.DictOverrides | xivapi/models/__init__.py:26-30 | a `_dct` entry overrides the keyword argument and reads back through `obj[k]` |
| EagerFacts.ListAnnotation | xivapi/models/__init__.py:38-43 | a list annotation `[T, …]` over a list maps `T` over every element, in order, failing exactly when some call does |
| EagerFacts.CharsAreCalls | xivapi/models/__init__.py:41-43 | over a string a list annotation maps over its one-character strings |
| EagerFacts.NestedInstance | xivapi/models/__init__.py:45-46 | a Model transform over a dict builds that class's instance, with the same client, over the dict |
| EagerFacts.ColumnsOfBody | xivapi/models/__init__.py:81-83 | `columns()` is each `Elem`'s key in body order |
| EagerFacts.ColumnsIn | xivapi/models/__init__.py:83 | the same, over the table read from the front |
| EagerFacts.ColumnsKeepDuplicates | xivapi/models/__init__.py:83 | two `Elem`s with the same key give that key twice |

## Left out

- The network client `xivapi/client.py` and the demo script `main.py` are not part of this model.
- The fetch in `Result.get` and its `async` behaviour are left out. `Types.Get` takes the response's JSON body as a parameter.
- `__repr__` in both model files is left out: it only formats text.
- Python reflection is replaced by explicit tables. Class bodies are `Decl` sequences, annotations are maps, and the `__getattribute__` hook is `Base.GetAttr`. An undeclared name stands for ordinary attribute lookup (`NotDeclared`).
- Converters such as `int` and `str` are symbolic: the model records the call, not its result, so their own errors are not modelled.
- Classes are identified by name. Redefining a class with the same name replaces its table.
- `dict.update` is modelled on mappings only. Any other `_dct` raises `UpdateError`, although Python also accepts an iterable of pairs.
- `Text.Lower` lowercases ASCII letters only, where `str.lower()` covers all of Unicode.
- `Types.UrlText`: states only the `None` and string cases of `str()`. The integer and boolean cases are computed but not stated, and lists and dicts give `TypeError` where Python would render them.
- Floating-point JSON numbers are outside `Json`, so a float-valued field is not modelled.
- Annotations are either a Model class or a converter class, and an `ElemGroup` subscript is an int or a slice of ints: a function annotation, which `issubclass` rejects with `TypeError`, and a subscript of another type, which `range` rejects, are outside the model.
- `Classes.Registry.Columns`: leaves the order of `list(set)` unspecified, as Python does.
- `Eager.Apply`: a list annotation over a non-empty dict raises `DictIteration`. Python would iterate its keys in insertion order, which a map does not keep.
- `Eager.Registry.Instantiate`: an attribute named `client` or `_raw_data_` would overwrite those fields in Python; the model keeps attributes apart from them.
- `Eager.Populate`: stated with the default transform passing the data through, as intended; as written an unannotated `Elem` raises `TypeError` in `issubclass` (see ## Findings).
- `Eager.Construct`: stated with the default transform passing the data through, as intended; as written an unannotated `Elem` raises `TypeError` in `issubclass` (see ## Findings).
- `Eager.Object.SetAll`: stated with the default transform passing the data through, as intended; as written an unannotated `Elem` raises `TypeError` in `issubclass` (see ## Findings).
- `Eager.Registry.Instantiate`: stated with the default transform passing the data through, as intended; as written an unannotated `Elem` raises `TypeError` in `issubclass` (see ## Findings).
- `EagerFacts.Constructs`: stated with the default transform passing the data through, as intended; as written an unannotated `Elem` raises `TypeError` in `issubclass` (see ## Findings).
- `EagerFacts.AttributeSet`: stated with the default transform passing the data through, as intended; as written an unannotated `Elem` raises `TypeError` in `issubclass` (see ## Findings).
- Aliasing of one `Elem` object between two eager class bodies is not modelled: each declaration creates its own `Elem`.

## Findings

| source | as written | input that shows it | evidently intended | confidence | as-written member | corrected member |
|---|---|---|---|---|---|---|
| xivapi/models/__init__.py:45 | the default transform `lambda _: _` goes to `issubclass(transform, Model)`, which raises `TypeError` for a function | a class with an unannotated `Elem('K')` built over `{'K': 1}` | an unannotated `Elem` passes the raw value through | not executed | EagerFacts.UnannotatedAsWritten | Eager.Call |
