/**
 * JSON values as the source handles them after `JSON.parse`: `null`, booleans, numbers
 * (integers here), strings, arrays and objects. An object is a map from keys to values,
 * so `{...a, ...b}` (the later object's keys win) is the map union `a + b`.
 */
module JsonValues {
  import opened Wrappers

  datatype Json =
    | Null
    | Bool(b: bool)
    | Num(n: int)
    | Str(s: string)
    | Arr(items: seq<Json>)
    | Obj(fields: map<string, Json>)

  /** JavaScript truthiness (`!!v`): `null`, `false`, `0` and `""` are falsy. */
  predicate Truthy(v: Json)
  {
    match v
    case Null => false
    case Bool(b) => b
    case Num(n) => n != 0
    case Str(s) => s != ""
    case _ => true
  }

  /** The property read `v.key`; `None` stands for `undefined`. */
  function Get(v: Json, key: string): (r: Option<Json>)
    ensures r.Some? <==> v.Obj? && key in v.fields
    ensures r.Some? ==> r.value == v.fields[key]
  {
    if v.Obj? && key in v.fields then Some(v.fields[key]) else None
  }

  /** The string property `v.key`, when it is a string. */
  function GetString(v: Json, key: string): (r: Option<string>)
    ensures r.Some? <==> Get(v, key).Some? && Get(v, key).value.Str?
    ensures r.Some? ==> Get(v, key) == Some(Str(r.value))
  {
    match Get(v, key)
    case Some(Str(s)) => Some(s)
    case _ => None
  }

  /**
   * The entries `{...v}` copies: an object's fields; `null`, booleans and numbers have none.
   * Strings and arrays would contribute index keys in JavaScript; the model gives them none.
   */
  function SpreadEntries(v: Json): (r: map<string, Json>)
    ensures v.Obj? ==> r == v.fields
    ensures !v.Obj? ==> r == map[]
  {
    if v.Obj? then v.fields else map[]
  }
}
