/** The raw payload: a decoded JSON document, as Python sees it. A JSON
    `null` is Python's `None`. Floating-point numbers are not modelled. */
module Json {
  import opened Py

  datatype Json =
    | JNull
    | JBool(b: bool)
    | JInt(i: int)
    | JStr(s: string)
    | JList(items: seq<Json>)
    | JObj(fields: map<string, Json>)

  /** Python's `len(v)`: defined for strings, lists and dicts, a
      `TypeError` for numbers, booleans and `None`. */
  function Len(v: Json): (r: Result<nat>)
    ensures r.Ok? <==> v.JStr? || v.JList? || v.JObj?
    ensures v.JList? ==> r == Ok(|v.items|)
    ensures r.Err? ==> r.error == TypeError
  {
    match v
    case JStr(s) => Ok(|s|)
    case JList(items) => Ok(|items|)
    case JObj(fields) => Ok(|fields|)
    case _ => Err(TypeError)
  }

  /** `d.get(k, None)`. */
  function GetOrNull(d: map<string, Json>, k: string): (r: Json)
    ensures k in d ==> r == d[k]
    ensures k !in d ==> r == JNull
  {
    if k in d then d[k] else JNull
  }

  lemma SingletonKeys<V>(m: map<string, V>, a: string, b: string)
    requires |m| == 1 && a in m && b in m
    ensures a == b
  {
    var pair := {a, b};
    assert m.Keys == pair + (m.Keys - pair);
    assert |pair| == if a == b then 1 else 2;
  }

  /** `list(d.values())[0]` for a dict of exactly one entry. */
  function Lone(d: map<string, Json>): (r: Json)
    requires |d| == 1
    ensures exists k :: k in d && d[k] == r
    ensures forall k :: k in d ==> d[k] == r
  {
    assert forall a, b :: a in d && b in d ==> a == b by {
      forall a, b | a in d && b in d ensures a == b { SingletonKeys(d, a, b); }
    }
    var k :| k in d; d[k]
  }
}
