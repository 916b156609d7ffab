/** JavaScript values as `JSON.parse` produces them, and the pieces of
    ECMAScript number semantics the dashboard relies on: `Number(x)`,
    `x || d`, `Math.round` and the `clamp` helper (v2/app.js:31). */
module Json {
  import opened Wrappers

  /** An IEEE double seen as an extended real. Finite values are exact
      reals; negative zero is not told apart from zero. */
  datatype Number = Fin(value: real) | PosInf | NegInf | NaN

  const Zero: Number := Fin(0.0)

  /** A parsed JSON value. `JSON.parse` can yield an infinite number
      (a literal such as 1e400) but never NaN. */
  datatype Json =
    | JNull
    | JBool(b: bool)
    | JNumber(n: Number)
    | JString(s: string)
    | JArray(items: seq<Json>)
    | JObject(fields: map<string, Json>)

  /** The foreign calls of the page: `JSON.parse` (None when it throws),
      `JSON.stringify`, and the ECMAScript StringToNumber conversion. */
  datatype Host = Host(
    parse: string -> Option<Json>,
    stringify: Json -> string,
    stringToNumber: string -> Number)

  /** `v?.[key]` for the keys the dashboard reads. Only a parsed object has
      own properties with these names; for every other value the lookup
      yields `undefined`. */
  function Property(v: Json, key: string): Option<Json>
  {
    if v.JObject? && key in v.fields then Some(v.fields[key]) else None
  }

  /** JavaScript truthiness of a number used in `n || fallback`: NaN and
      zero are falsy. */
  function Or(n: Number, fallback: Number): (r: Number)
    ensures r == n || r == fallback
    ensures n == NaN || n == Zero ==> r == fallback
    ensures fallback != NaN ==> r != NaN
    ensures n != NaN && n != Zero ==> r == n
  {
    if n == NaN || n == Zero then fallback else n
  }

  /** `Math.round`: the nearest integer, halves rounded up (section
      21.3.2.28 of ECMA-262). */
  function Round(n: Number): (r: Number)
    ensures n.Fin? <==> r.Fin?
    ensures n.Fin? ==> n.value - 0.5 < r.value <= n.value + 0.5
    ensures n.Fin? ==> r.value == r.value.Floor as real
    ensures !n.Fin? ==> r == n
  {
    if n.Fin? then Fin((n.value + 0.5).Floor as real) else n
  }

  function Min(x: real, y: real): real { if x <= y then x else y }

  function Max(x: real, y: real): real { if x <= y then y else x }

  /** `clamp(n, lo, hi) = Math.max(lo, Math.min(hi, n))` at v2/app.js:31,
      over every double, NaN included. */
  function Clamp(n: Number, lo: real, hi: real): (r: Number)
    ensures n == NaN <==> r == NaN
    ensures lo <= hi && n != NaN ==> r.Fin? && lo <= r.value <= hi
    ensures n.Fin? && lo <= n.value <= hi ==> r == n
    ensures n.Fin? && lo <= hi && n.value < lo ==> r == Fin(lo)
    ensures n.Fin? && lo <= hi && hi < n.value ==> r == Fin(hi)
    ensures lo <= hi ==> (n == PosInf ==> r == Fin(hi)) && (n == NegInf ==> r == Fin(lo))
  {
    match n
    case Fin(x) => Fin(Max(lo, Min(hi, x)))
    case PosInf => Fin(Max(lo, hi))
    case NegInf => Fin(lo)
    case NaN => NaN
  }

  /** True when `String(v)`, as `Array.prototype.join` computes it for an
      element, throws a TypeError: a parsed object with an own `toString`
      property has no callable `toString` and an inherited `valueOf` that
      returns an object, so the conversion to a primitive fails. Arrays
      throw when one of their elements does. */
  predicate ToStringThrows(v: Json)
  {
    match v
    case JObject(fields) => "toString" in fields
    case JArray(items) => exists i | 0 <= i < |items| :: ToStringThrows(items[i])
    case _ => false
  }

  /** `Number(String(v))` for an element of a one-element array whose join
      does not throw: booleans become "true"/"false" (NaN), null becomes
      "" (0), numbers print and re-read as themselves, plain objects become
      "[object Object]" (NaN). */
  function JoinedNumber(v: Json, num: string -> Number): Number
  {
    match v
    case JNull => Zero
    case JBool(_) => NaN
    case JNumber(n) => n
    case JString(s) => num(s)
    case JObject(_) => NaN
    case JArray(items) =>
      if |items| == 0 then Zero
      else if |items| == 1 then JoinedNumber(items[0], num)
      else NaN  // the joined text contains a comma
  }

  /** ECMAScript `Number(v)` for a parsed JSON value; None when it throws.
      `num` is StringToNumber, left abstract. */
  function ToNumber(v: Json, num: string -> Number): (r: Option<Number>)
    ensures r.None? <==> ToStringThrows(v)
    ensures v.JNumber? ==> r == Some(v.n)
    ensures v.JNull? || v == JBool(false) ==> r == Some(Zero)
    ensures v == JBool(true) ==> r == Some(Fin(1.0))
  {
    match v
    case JNull => Some(Zero)
    case JBool(b) => Some(if b then Fin(1.0) else Zero)
    case JNumber(n) => Some(n)
    case JString(s) => Some(num(s))
    case JObject(fields) => if "toString" in fields then None else Some(NaN)
    case JArray(items) => if ToStringThrows(v) then None else Some(JoinedNumber(v, num))
  }

  /** `Number(v) || 0`: a number that is never NaN, or None when the
      conversion throws. */
  function NumberOrZero(v: Json, num: string -> Number): (r: Option<Number>)
    ensures r.None? <==> ToStringThrows(v)
    ensures r.Some? ==> r.value != NaN
    ensures v.JNumber? && v.n != NaN ==> r == Some(v.n)
  {
    match ToNumber(v, num)
    case None => None
    case Some(n) => Some(Or(n, Zero))
  }
}
