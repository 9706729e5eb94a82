/** A JSON value as `JSON.parse` returns it, and the property accesses the
    handlers perform on it. */
module Json {
  import opened Wrappers
  import opened JsString
  import opened Assoc

  /** Numbers are integers here; objects keep their members in document order. */
  datatype Json =
    | JNull
    | JBool(b: bool)
    | JNum(n: int)
    | JStr(s: string)
    | JArr(items: seq<Json>)
    | JObj(members: seq<(string, Json)>)

  /** `value[key]` on a parsed object: the first member named key, or
      `undefined` (None) when there is none or value is not an object. */
  function Get(value: Json, key: string): (r: Option<Json>)
    ensures r.Some? ==> value.JObj?
    ensures r.Some? <==> value.JObj? && exists i :: 0 <= i < |value.members| && value.members[i].0 == key
  {
    match value
    case JObj(ms) => Lookup(ms, key)
    case _ => None
  }

  /** `Array.isArray(v)` for a possibly undefined value. */
  predicate IsArray(v: Option<Json>) {
    v.Some? && v.value.JArr?
  }

  /** The decimal names "0" .. "n-1" of the first n indices. */
  function IndexNames(n: nat): (r: seq<string>)
    ensures |r| == n
    ensures forall i :: 0 <= i < n ==> r[i] == NatToString(i)
  {
    if n == 0 then [] else IndexNames(n - 1) + [NatToString(n - 1)]
  }

  function MemberNames(ms: seq<(string, Json)>): (r: seq<string>)
    ensures |r| == |ms| && forall i :: 0 <= i < |r| ==> r[i] == ms[i].0
  {
    if ms == [] then [] else [ms[0].0] + MemberNames(ms[1..])
  }

  /** `Object.keys(value)` for a value that is not null: the member names of an
      object, the indices of an array or string (one per UTF-16 unit), none for
      numbers and booleans. */
  function Keys(value: Json): (r: seq<string>)
    requires !value.JNull?
    ensures value.JObj? ==> |r| == |value.members| && forall i :: 0 <= i < |r| ==> r[i] == value.members[i].0
  {
    match value
    case JObj(ms) => MemberNames(ms)
    case JArr(items) => IndexNames(|items|)
    case JStr(s) => IndexNames(JsLength(s))
    case _ => []
  }
}
