/** The values a JSON request body can carry, with the two language runtimes'
    views of them that the back ends rely on: JavaScript truthiness and
    string conversion (the Express back end), Python hashability and `str`
    (the Flask back end). */
module Json {

  import opened Wrappers

  /** A parsed JSON value. Numbers are modelled as integers. */
  datatype Json =
    | JNull
    | JBool(b: bool)
    | JNumber(n: int)
    | JString(s: string)
    | JArray(items: seq<Json>)
    | JObject(fields: map<string, Json>)

  /** A JSON object body: a field that is absent reads as `undefined` in
      JavaScript and fails `in` in Python. */
  type Body = map<string, Json>

  function Field(body: Body, key: string): Option<Json>
  {
    if key in body then Some(body[key]) else None
  }

  /** JavaScript truthiness of a destructured field; `None` is `undefined`.
      The falsy JSON values are null, false, 0 and the empty string. */
  predicate JsTruthy(v: Option<Json>)
  {
    match v
    case None => false
    case Some(JNull) => false
    case Some(JBool(b)) => b
    case Some(JNumber(n)) => n != 0
    case Some(JString(s)) => s != ""
    case Some(JArray(_)) => true
    case Some(JObject(_)) => true
  }

  /** Decimal digits of a natural number, most significant first. */
  function Digits(n: nat): (r: string)
    ensures r != []
    decreases n
  {
    var d := ['0' + (n % 10) as char];
    if n < 10 then d else Digits(n / 10) + d
  }

  /** Decimal text of an integer, as both JavaScript and Python print it. */
  function Decimal(n: int): string
  {
    if n < 0 then "-" + Digits(-n) else Digits(n)
  }

  /** JavaScript `String(v)`: what a template literal prints and what an
      object property lookup uses as the key, or `None` where the conversion
      throws `TypeError: Cannot convert object to primitive value`. An
      object converts through its `toString`; an own `toString` key hides the
      inherited one, and since no JSON value can be called, the conversion
      falls through to the inherited `valueOf`, which returns the object
      itself. Arrays convert through `join`: their elements' strings joined
      by commas, with null elements empty. */
  function JsString(v: Json): Option<string>
    decreases v
  {
    match v
    case JNull => Some("null")
    case JBool(b) => Some(if b then "true" else "false")
    case JNumber(n) => Some(Decimal(n))
    case JString(s) => Some(s)
    case JArray(items) =>
      JoinWithCommas(seq(|items|, i requires 0 <= i < |items| =>
        if items[i].JNull? then Some("") else JsString(items[i])))
    case JObject(fields) => if "toString" in fields then None else Some("[object Object]")
  }

  /** `join(",")` over the elements' conversions: it fails as soon as one
      of them does. */
  function JoinWithCommas(parts: seq<Option<string>>): (r: Option<string>)
    ensures r.None? <==> exists i :: 0 <= i < |parts| && parts[i].None?
  {
    if parts == [] then Some("")
    else if parts[0].None? then None
    else if |parts| == 1 then parts[0]
    else
      match JoinWithCommas(parts[1..])
      case None =>
        var i :| 0 <= i < |parts[1..]| && parts[1..][i].None?;
        assert parts[i + 1].None?;
        None
      case Some(rest) =>
        assert forall i :: 1 <= i < |parts| ==> parts[i] == parts[1..][i - 1];
        Some(parts[0].value + "," + rest)
  }

  /** The values `String()` cannot convert: an object with its own
      `toString` key, or an array that holds one at any depth. */
  predicate Unconvertible(v: Json)
    decreases v
  {
    match v
    case JObject(fields) => "toString" in fields
    case JArray(items) => exists i :: 0 <= i < |items| && Unconvertible(items[i])
    case _ => false
  }

  /** `String()` fails exactly on the unconvertible values. */
  lemma {:induction false} JsStringFailsIff(v: Json)
    ensures JsString(v).None? <==> Unconvertible(v)
    decreases v
  {
    match v {
      case JArray(items) =>
        var parts := seq(|items|, i requires 0 <= i < |items| =>
          if items[i].JNull? then Some("") else JsString(items[i]));
        assert JsString(v) == JoinWithCommas(parts);
        forall i | 0 <= i < |items| ensures parts[i].None? <==> Unconvertible(items[i]) {
          JsStringFailsIff(items[i]);
        }
      case _ =>
    }
  }

  /** Python can use the value as a dictionary key: lists and dicts cannot. */
  predicate PyHashable(v: Json)
  {
    !v.JArray? && !v.JObject?
  }

  /** The type name Python reports for an unhashable value. */
  function PyTypeName(v: Json): string
  {
    match v
    case JArray(_) => "list"
    case JObject(_) => "dict"
    case JNull => "NoneType"
    case JBool(_) => "bool"
    case JNumber(_) => "int"
    case JString(_) => "str"
  }

  /** Python `str(v)` for the hashable values. */
  function PyStr(v: Json): string
    requires PyHashable(v)
  {
    match v
    case JNull => "None"
    case JBool(b) => if b then "True" else "False"
    case JNumber(n) => Decimal(n)
    case JString(s) => s
  }
}
