/** JSON values as JavaScript code sees them after `JSON.parse`, and the
    JavaScript conversions the profile validators apply to them:
    truthiness, the `length` property under `<` and `>`, and the string
    conversion `new URL(v)` performs on its argument. */
module JsValues {

  datatype Option<+T> = None | Some(value: T)

  /** A parsed JSON value. Numbers are integers. */
  datatype Json =
    | JNull
    | JBool(b: bool)
    | JNumber(n: int)
    | JString(s: string)
    | JArray(items: seq<Json>)
    | JObject(fields: map<string, Json>)

  /** A JSON array of strings. */
  function StringItems(xs: seq<string>): (r: seq<Json>)
    ensures |r| == |xs| && forall i | 0 <= i < |xs| :: r[i] == JString(xs[i])
  {
    seq(|xs|, i requires 0 <= i < |xs| => JString(xs[i]))
  }

  /** Property access `v[key]`, with None for `undefined`. Arrays and
      primitives have none of the property names the profile code reads. */
  function Get(v: Json, key: string): Option<Json> {
    if v.JObject? && key in v.fields then Some(v.fields[key]) else None
  }

  /** JavaScript truthiness; `undefined` is falsy. */
  predicate Truthy(v: Option<Json>) {
    match v
    case None => false
    case Some(JNull) => false
    case Some(JBool(b)) => b
    case Some(JNumber(n)) => n != 0
    case Some(JString(s)) => s != ""
    case Some(_) => true
  }

  /** ToNumber of null, a boolean or a number. None stands for NaN; strings,
      arrays and objects are treated as NaN here. */
  function ToNumber(v: Json): Option<int> {
    match v
    case JNull => Some(0)
    case JBool(b) => Some(if b then 1 else 0)
    case JNumber(n) => Some(n)
    case _ => None
  }

  /** `v.length` as a relational operator sees it: the string's or array's
      length, an object's own `length` property converted to a number, and
      None (undefined, hence NaN) for everything else. */
  function Length(v: Json): Option<int> {
    match v
    case JString(s) => Some(|s|)
    case JArray(items) => Some(|items|)
    case JObject(m) => if "length" in m then ToNumber(m["length"]) else None
    case _ => None
  }

  /** `x < k` with NaN comparing false. */
  predicate Below(x: Option<int>, k: int) {
    x.Some? && x.value < k
  }

  /** `x > k` with NaN comparing false. */
  predicate Above(x: Option<int>, k: int) {
    x.Some? && x.value > k
  }

  const DigitChars: string := "0123456789"

  function Digits(n: nat): (s: string)
    decreases n
  {
    if n < 10 then [DigitChars[n]] else Digits(n / 10) + [DigitChars[n % 10]]
  }

  /** The decimal form of an integer, as `String(n)` writes it. */
  function Decimal(n: int): string {
    if n < 0 then "-" + Digits(-n) else Digits(n)
  }

  /** `Array.prototype.join(',')` over already converted elements: None when
      converting any element threw. */
  function JoinConverted(parts: seq<Option<string>>): Option<string> {
    if |parts| == 0 then Some("")
    else
      var rest := JoinConverted(parts[1..]);
      if parts[0].None? || rest.None? then None
      else if |parts| == 1 then parts[0]
      else Some(parts[0].value + "," + rest.value)
  }

  /** `String(v)`, the conversion `new URL(v)` applies to a non-string
      argument. An array joins its elements with commas, writing null as the
      empty string; a plain object becomes "[object Object]"; an object whose
      own `toString` property is data, not a function, makes the conversion
      throw a TypeError (None). */
  function ToJsString(v: Json): Option<string>
    decreases v
  {
    match v
    case JNull => Some("null")
    case JBool(b) => Some(if b then "true" else "false")
    case JNumber(n) => Some(Decimal(n))
    case JString(s) => Some(s)
    case JArray(items) =>
      JoinConverted(seq(|items|, i requires 0 <= i < |items| =>
        if items[i].JNull? then Some("") else ToJsString(items[i])))
    case JObject(m) => if "toString" in m then None else Some("[object Object]")
  }

  /** `isValidURL(v)`: `new URL(v)` does not throw, i.e. the string form of
      `v` exists and the URL parser accepts it. */
  predicate UrlParses(v: Json, isValidURL: string -> bool) {
    match ToJsString(v)
    case None => false
    case Some(t) => isValidURL(t)
  }

  /** A single-element array is converted to the string form of its element,
      so `["https://…"]` passes a URL check exactly when the string does. */
  lemma SingletonArrayUrl(s: string, isValidURL: string -> bool)
    ensures UrlParses(JArray([JString(s)]), isValidURL) <==> isValidURL(s)
  {
    var items := [JString(s)];
    var parts := seq(|items|, i requires 0 <= i < |items| =>
      if items[i].JNull? then Some("") else ToJsString(items[i]));
    assert parts == [Some(s)];
    assert JoinConverted(parts) == Some(s) by {
      assert parts[1..] == [];
    }
  }
}
