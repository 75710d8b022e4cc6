/**
 * JSON values as the scripts build them (request bodies) and read them
 * (the asset-registration reply), and the chained indexing
 * `value["a"]["b"]…` by which they read a reply.
 */
module Json {
  import opened Wrappers

  /** Numbers are integers only: no value the scripts build or read is fractional. */
  datatype Value =
    | JNull
    | JBool(b: bool)
    | JNumber(n: int)
    | JString(s: string)
    | JArray(items: seq<Value>)
    | JObject(fields: map<string, Value>)

  /** One subscript `[key]`; every path the scripts read from a reply is keys only. */
  datatype Step = Key(key: string)

  /**
   * The value reached by applying the subscripts of `path` in turn, or
   * `None` where Python raises (a missing key, or a subscript on a value
   * that is not an object).
   */
  function Lookup(v: Value, path: seq<Step>): (r: Option<Value>)
    ensures path == [] ==> r == Some(v)
    ensures r.Some? && path != [] ==> v.JObject? && path[0].key in v.fields
    decreases |path|
  {
    if path == [] then Some(v)
    else
      var k := path[0].key;
      if v.JObject? && k in v.fields then Lookup(v.fields[k], path[1..]) else None
  }

  /** Python truthiness of a decoded JSON value (`if not value`). */
  predicate Truthy(v: Value) {
    match v
    case JNull => false
    case JBool(b) => b
    case JNumber(n) => n != 0
    case JString(s) => s != ""
    case JArray(items) => items != []
    case JObject(fields) => fields != map[]
  }

  /** A path walked in two parts reaches what the whole path reaches. */
  lemma {:induction false} LookupConcat(v: Value, p: seq<Step>, q: seq<Step>)
    ensures Lookup(v, p + q) == match Lookup(v, p) case None => None case Some(w) => Lookup(w, q)
    decreases |p|
  {
    if p == [] {
      assert p + q == q;
    } else {
      assert (p + q)[0] == p[0] && (p + q)[1..] == p[1..] + q;
      var k := p[0].key;
      if v.JObject? && k in v.fields {
        LookupConcat(v.fields[k], p[1..], q);
      }
    }
  }

  /** Subscripting an object by a key it holds, then walking on. */
  lemma LookupKey(fields: map<string, Value>, k: string, rest: seq<Step>)
    requires k in fields
    ensures Lookup(JObject(fields), [Key(k)] + rest) == Lookup(fields[k], rest)
  {
  }
}
