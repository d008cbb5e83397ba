/** The Python values that flow through the server: tool arguments decoded
    from a JSON request, keyword parameters of the search functions, and
    the JSON documents the search functions return. */
module PyValues {

  /** A Python value as it can arrive in a tool's `arguments` dict.
      `Null` is `None` (an absent key read with `.get`, or a JSON `null`);
      a float is kept as the text Python's `str()` gives it. */
  datatype PyValue =
    | Null
    | Str(s: string)
    | Int(i: int)
    | Bool(b: bool)
    | Float(repr: string)

  /** Python's `str(v)`. */
  function PyStr(v: PyValue): string
  {
    match v
    case Null => "None"
    case Str(s) => s
    case Int(i) => if i < 0 then "-" + Decimal(-i) else Decimal(i)
    case Bool(b) => if b then "True" else "False"
    case Float(repr) => repr
  }

  /** The decimal digits of `n`, most significant first. */
  function Decimal(n: nat): (digits: string)
    ensures |digits| > 0
    ensures forall k :: 0 <= k < |digits| ==> '0' <= digits[k] <= '9'
  {
    var last := ['0' + (n % 10) as char];
    if n < 10 then last else Decimal(n / 10) + last
  }

  /** A JSON document, as `response.json()` returns it and as the search
      functions build their `{"error": ...}` answers. */
  datatype Json =
    | JNull
    | JBool(b: bool)
    | JNumber(repr: string)
    | JString(s: string)
    | JArray(items: seq<Json>)
    | JObject(fields: map<string, Json>)

  /** The one-key `{"error": message}` dict. */
  function ErrorObject(message: string): (j: Json)
    ensures j.JObject? && j.fields.Keys == {"error"}
    ensures j.fields["error"] == JString(message)
  {
    JObject(map["error" := JString(message)])
  }
}
