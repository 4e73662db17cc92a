/**
 * A JSON value as `response.json()` produces it, and the two
 * optional-chaining steps the reply extractor performs on it.
 */
module JsonValue {
  import opened Wrappers

  /** Numbers are kept as reals: no decision in the core looks at a number's value beyond zero. */
  datatype Json =
    | JNull
    | JBool(b: bool)
    | JNumber(n: real)
    | JString(s: string)
    | JArray(items: seq<Json>)
    | JObject(members: map<string, Json>)

  /** `v?.key`: a member of an object; absent for a missing value, a missing key or a non-object. */
  function Member(v: Option<Json>, key: string): (r: Option<Json>)
    ensures r.Some? <==> v.Some? && v.value.JObject? && key in v.value.members
    ensures r.Some? ==> r.value == v.value.members[key]
  {
    match v
    case Some(JObject(m)) => if key in m then Some(m[key]) else None
    case _ => None
  }

  /**
   * `v?.[0]`: the first element of an array, the first character of a string
   * (as a one-character string) or the member named "0" of an object.
   */
  function First(v: Option<Json>): (r: Option<Json>)
    ensures v.Some? && v.value.JArray? ==> r == if v.value.items == [] then None else Some(v.value.items[0])
    ensures v.Some? && v.value.JString? ==> r == if v.value.s == [] then None else Some(JString([v.value.s[0]]))
    ensures v.Some? && v.value.JObject? ==> r == if "0" in v.value.members then Some(v.value.members["0"]) else None
    ensures v.None? || v.value.JNull? || v.value.JBool? || v.value.JNumber? ==> r.None?
  {
    match v
    case Some(JArray(items)) => if items == [] then None else Some(items[0])
    case Some(JString(s)) => if s == [] then None else Some(JString([s[0]]))
    case Some(JObject(m)) => Member(v, "0")
    case _ => None
  }

  /** JavaScript truthiness of a value that may be absent. */
  predicate Truthy(v: Option<Json>) {
    match v
    case None => false
    case Some(JNull) => false
    case Some(JBool(b)) => b
    case Some(JNumber(n)) => n != 0.0
    case Some(JString(s)) => s != []
    case Some(_) => true
  }

  /** A truthy string value, if that is what `v` holds. */
  function NonEmptyString(v: Option<Json>): (r: Option<string>)
    ensures r.Some? <==> Truthy(v) && v.value.JString?
    ensures r.Some? ==> r.value != [] && v == Some(JString(r.value))
  {
    match v
    case Some(JString(s)) => if s != [] then Some(s) else None
    case _ => None
  }
}
