/** Decoded JSON as the HubSpot integration sees it: scalar property values,
    objects as maps, Python's `dict.get`, truthiness and f-string rendering,
    and the outcome of a request handler (a value, an HTTPException, or an
    exception the handler does not catch). */
module Json {

  datatype Option<+T> = None | Some(value: T)

  /** A JSON scalar as HubSpot puts it in a property: `null` or a string. */
  datatype Value = Null | Str(s: string)

  /** A decoded JSON object. */
  type Object = map<string, Value>

  /** What a request handler ends with: its value, an `HTTPException` with a
      status code and a detail message, or an exception the handler itself
      does not catch (its caller may). */
  datatype Outcome<+T> = Ok(value: T) | HttpError(status: int, detail: string) | Crash

  /** Python's `d.get(k)`: `None` when the key is absent. */
  function Get(o: Object, k: string): (v: Value)
    ensures k in o ==> v == o[k]
    ensures k !in o ==> v == Null
  {
    if k in o then o[k] else Null
  }

  /** Python's `d.get(k, default)`: the default only when the key is absent,
      never when the key holds `null` or an empty string. */
  function GetOr(o: Object, k: string, default: Value): (v: Value)
    ensures k in o ==> v == o[k]
    ensures k !in o ==> v == default
  {
    if k in o then o[k] else default
  }

  /** Python truthiness of a scalar: `None` and `''` are false. */
  predicate Truthy(v: Value) {
    v.Str? && v.s != ""
  }

  /** What `f'{v}'` prints: `None` for null, the string itself otherwise. */
  function Render(v: Value): (r: string)
    ensures v.Str? ==> r == v.s
    ensures v.Null? ==> r == "None"
  {
    match v
    case Null => "None"
    case Str(s) => s
  }

  /** Python's `a or b` on two scalars. */
  function Or(a: Value, b: Value): (r: Value)
    ensures Truthy(r) <==> Truthy(a) || Truthy(b)
    ensures Truthy(a) ==> r == a
    ensures !Truthy(a) ==> r == b
  {
    if Truthy(a) then a else b
  }
}
