/** Parsed JSON documents and the few Python operations the handlers apply
    to them. Each operation returns `None` exactly where Python raises. */
module JsonValue {
  import opened Wrappers
  import opened Text

  /** A value produced by `json.loads`. An integer and a float stay apart, as
      in Python (`42` and `42.0` are rendered differently); no arithmetic is
      ever done on either. Objects are keyed by their (distinct) member names. */
  datatype Json =
    | JNull
    | JBool(b: bool)
    | JInt(i: int)
    | JFloat(f: real)
    | JString(s: string)
    | JArray(items: seq<Json>)
    | JObject(fields: map<string, Json>)

  /** `container[key]` with a string key: only a dict holding the key answers;
      a missing key is a KeyError and any other container a TypeError. */
  function Subscript(container: Json, key: string): (r: Option<Json>)
    ensures r.Some? <==> container.JObject? && key in container.fields
    ensures r.Some? ==> r.value == container.fields[key]
  {
    match container
    case JObject(fields) => if key in fields then Some(fields[key]) else None
    case _ => None
  }

  /** `container[0]`: the first element of a non-empty list, or the first
      character of a non-empty string. A dict never has the integer key 0
      after `json.loads`; everything else is an IndexError or TypeError. */
  function First(container: Json): (r: Option<Json>)
    ensures r.Some? <==> (container.JArray? && |container.items| > 0)
                         || (container.JString? && |container.s| > 0)
    ensures container.JArray? && r.Some? ==> r.value == container.items[0]
    ensures container.JString? && r.Some? ==> r.value == JString([container.s[0]])
  {
    match container
    case JArray(items) => if |items| > 0 then Some(items[0]) else None
    case JString(s) => if |s| > 0 then Some(JString([s[0]])) else None
    case _ => None
  }

  /** `item in container` with a string item: key membership for a dict,
      element membership for a list, substring search for a string, and a
      TypeError (`None`) for null, booleans and numbers. */
  function Contains(container: Json, item: string): (r: Option<bool>)
    ensures r.None? <==> container.JNull? || container.JBool? || container.JInt? || container.JFloat?
    ensures container.JObject? ==> r == Some(item in container.fields)
    ensures container.JArray? ==> r == Some(JString(item) in container.items)
    ensures container.JString? ==> r == Some(IsSubstring(item, container.s))
  {
    match container
    case JObject(fields) => Some(item in fields)
    case JArray(items) => Some(JString(item) in items)
    case JString(s) => Some(IsSubstring(item, s))
    case _ => None
  }
}
