/** JSON-like values as the receiver and the producers exchange them, with the
    few Python behaviours the handlers rely on: truthiness, `dict.get` with a
    default, and `int(...)` applied to a decoded value. */
module JsonData {
  import opened Wrappers
  import Text

  /** A decoded JSON value. Floating-point numbers are not modelled. */
  datatype Json =
    | Null
    | Bool(b: bool)
    | Int(i: int)
    | Str(s: string)
    | Arr(items: seq<Json>)
    | Obj(fields: map<string, Json>)

  /** Python truthiness of a decoded value (`if x:` / `x or y`). */
  predicate Truthy(j: Json) {
    match j
    case Null => false
    case Bool(b) => b
    case Int(i) => i != 0
    case Str(s) => s != ""
    case Arr(a) => a != []
    case Obj(m) => m != map[]
  }

  /** `d.get(key, default)`: the default is used only when the key is absent. */
  function Get(m: map<string, Json>, key: string, default: Json): (r: Json)
    ensures key in m ==> r == m[key]
    ensures key !in m ==> r == default
  {
    if key in m then m[key] else default
  }

  /** Python's `x or y` on optional text: `y` when `x` is None or "". */
  function OrText(x: Option<string>, y: string): (r: string)
    ensures x.Some? && x.value != "" ==> r == x.value
    ensures (x.None? || x.value == "") ==> r == y
  {
    if x.Some? && x.value != "" then x.value else y
  }

  /** A value that can be a dictionary key; lists and dicts raise TypeError. */
  predicate Hashable(j: Json) {
    !j.Arr? && !j.Obj?
  }

  /** `int(j)`: None where Python raises (TypeError for null, lists and
      dicts; ValueError for text that is not an integer literal). */
  function ToInt(j: Json): (r: Option<int>)
    ensures j.Int? ==> r == Some(j.i)
    ensures (j.Null? || j.Arr? || j.Obj?) ==> r.None?
  {
    match j
    case Int(i) => Some(i)
    case Bool(b) => Some(if b then 1 else 0)
    case Str(s) => Text.ParseInt(s)
    case _ => None
  }
}
