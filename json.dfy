/** Decoded JSON values and the few Python operations the core applies to
    them: `dict.get`, truthiness (`x or {}`), `float(x)` and `str(x)`.
    Python's `None` is JSON `null`, so `dict.get` of an absent key yields `JNull`. */
module Json {
  import opened Wrappers

  datatype Json =
    | JNull
    | JBool(b: bool)
    | JNum(n: real)
    | JStr(s: string)
    | JArr(items: seq<Json>)
    | JObj(fields: map<string, Json>)

  /** What the modelled code raises when a decoded value has the wrong shape:
      `AttributeError` from `.get` on something that is not a dict, and the
      `ValueError`/`TypeError` that `float(x)` raises. */
  datatype Fault = NotAnObject | NotANumber

  const EmptyObject: Json := JObj(map[])

  /** `d.get(key)`: the value under `key`, or `None` when the key is absent. */
  function Get(d: map<string, Json>, key: string): (v: Json)
    ensures key in d ==> v == d[key]
    ensures key !in d ==> v == JNull
  {
    if key in d then d[key] else JNull
  }

  /** Python truthiness of a decoded value. */
  predicate Truthy(j: Json)
    ensures j == JNull || j == EmptyObject || j == JStr("") || j == JNum(0.0) ==> !Truthy(j)
    ensures j.JObj? && j != EmptyObject ==> Truthy(j)
  {
    match j
    case JNull => false
    case JBool(b) => b
    case JNum(n) => n != 0.0
    case JStr(s) => s != ""
    case JArr(a) => a != []
    case JObj(m) => m != map[]
  }

  /** `x or fallback`. */
  function Or(x: Json, fallback: Json): (r: Json)
    ensures Truthy(x) ==> r == x
    ensures !Truthy(x) ==> r == fallback
  {
    if Truthy(x) then x else fallback
  }

  /** `float(x)` for a decoded value: numbers convert, booleans become 1.0 or
      0.0, and everything else raises (`None`). */
  function ToFloat(j: Json): (r: Option<real>)
    ensures j.JNum? ==> r == Some(j.n)
    ensures r.None? <==> !(j.JNum? || j.JBool?)
  {
    match j
    case JNum(n) => Some(n)
    case JBool(b) => Some(if b then 1.0 else 0.0)
    case _ => None
  }

  /** `str(x)` for a decoded value: exact for strings, booleans and `None`. */
  function PyStr(j: Json): (s: string)
    ensures j.JStr? ==> s == j.s
  {
    match j
    case JStr(s) => s
    case JNull => "None"
    case JBool(b) => if b then "True" else "False"
    case _ => ""
  }

  /** `float(x) if x is not None else None`. */
  function OptionalFloat(j: Json): (r: Result<Option<real>, Fault>)
    ensures j == JNull ==> r == Success(None)
    ensures j.JNum? ==> r == Success(Some(j.n))
    ensures r.Failure? <==> j != JNull && ToFloat(j).None?
  {
    if j == JNull then Success(None)
    else match ToFloat(j)
      case Some(x) => Success(Some(x))
      case None => Failure(NotANumber)
  }
}
