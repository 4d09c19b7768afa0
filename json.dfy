/** A JSON value as Python's `json` module decodes it (dict, list, str, int,
    float, bool, None), with the few pieces of Python semantics the bot relies
    on: `isinstance` against the two classes its schema names, truthiness,
    and `str()` of a scalar. */
module Json {
  import opened TextUtil

  datatype Json =
    | JNull
    | JBool(b: bool)
    | JInt(i: int)
    | JFloat(repr: string)          // a JSON number with a fraction or exponent, by its Python repr
    | JStr(s: string)
    | JList(items: seq<Json>)
    | JObject(fields: map<string, Json>)

  /** The built-in classes the bot passes to `isinstance`. */
  datatype PyClass = ListClass | IntClass

  /** Python's `isinstance(v, t)`. `bool` is a subclass of `int`, so a JSON
      `true`/`false` is an instance of `int`. */
  predicate IsInstance(v: Json, t: PyClass) {
    match t
    case ListClass => v.JList?
    case IntClass => v.JInt? || v.JBool?
  }

  /** Values that pass `isinstance(v, int)`: what the poll cursor can hold. */
  predicate IsPyInt(v: Json) {
    IsInstance(v, IntClass)
  }

  /** Values Python can hash, i.e. that may be looked up in a dict. */
  predicate IsHashable(v: Json) {
    !v.JList? && !v.JObject?
  }

  /** Python truthiness of a decoded value (`x or y` returns `x` when this holds). */
  predicate Truthy(v: Json) {
    match v
    case JNull => false
    case JBool(b) => b
    case JInt(i) => i != 0
    case JFloat(r) => r != "0.0" && r != "-0.0"
    case JStr(s) => s != ""
    case JList(items) => items != []
    case JObject(fields) => fields != map[]
  }

  /** `str(v)` as an f-string prints it. Lists and dicts are shown only as
      bracket markers: their full Python repr is not part of the model. */
  function PyStr(v: Json): (r: string)
    ensures v.JStr? ==> r == v.s
    ensures v.JInt? ==> r == IntText(v.i)
  {
    match v
    case JNull => "None"
    case JBool(b) => if b then "True" else "False"
    case JInt(i) => IntText(i)
    case JFloat(r) => r
    case JStr(s) => s
    case JList(_) => "[...]"
    case JObject(_) => "{...}"
  }
}
