/**
 * The dynamically typed payloads the server exchanges (request bodies, model output,
 * upstream records) as a tagged JSON value, with the handful of JavaScript operations
 * the handlers apply to them: truthiness, optional-chained member reads, string
 * conversion and object spread.
 *
 * JSON numbers are modelled as integers.
 */
module Json {
  import opened Base

  datatype Json =
    | JNull
    | JBool(b: bool)
    | JNumber(n: int)
    | JString(s: string)
    | JArray(items: seq<Json>)
    | JObject(fields: map<string, Json>)

  /** JavaScript truthiness of a value: false, 0, "" and null are falsy. */
  predicate Truthy(j: Json)
  {
    match j
    case JNull => false
    case JBool(b) => b
    case JNumber(n) => n != 0
    case JString(s) => s != ""
    case JArray(_) => true
    case JObject(_) => true
  }

  /** Truthiness of a value that may be `undefined` (None). */
  predicate Present(v: Option<Json>)
  {
    v.Some? && Truthy(v.value)
  }

  /**
   * `v?.key`: reading a property through optional chaining. Only objects have the
   * properties read here; on any other value, and on `undefined`, the read gives `undefined`.
   */
  function Member(v: Option<Json>, key: string): (r: Option<Json>)
    ensures r.Some? <==> v.Some? && v.value.JObject? && key in v.value.fields
    ensures r.Some? ==> r.value == v.value.fields[key]
  {
    match v
    case Some(JObject(m)) => if key in m then Some(m[key]) else None
    case _ => None
  }

  /** `a || b` on values: the first operand if it is truthy, otherwise the second. */
  function Or(a: Option<Json>, b: Option<Json>): (r: Option<Json>)
    ensures Present(a) ==> r == a
    ensures !Present(a) ==> r == b
  {
    if Present(a) then a else b
  }

  function DigitChar(d: nat): (c: char)
    requires d < 10
    ensures '0' <= c <= '9'
  {
    "0123456789"[d]
  }

  /** Decimal rendering of a natural number, as `String(n)` gives it. */
  function NatToString(n: nat): (s: string)
    ensures 1 <= |s|
    ensures n < 10 <==> |s| == 1
    ensures forall i :: 0 <= i < |s| ==> '0' <= s[i] <= '9'
    decreases n
  {
    if n < 10 then [DigitChar(n)] else NatToString(n / 10) + [DigitChar(n % 10)]
  }

  /** Distinct numbers have distinct decimal renderings. */
  lemma {:induction false} NatToStringInjective(a: nat, b: nat)
    requires NatToString(a) == NatToString(b)
    ensures a == b
    decreases a
  {
    if a >= 10 && b >= 10 {
      var sa, sb := NatToString(a), NatToString(b);
      assert sa[|sa| - 1] == DigitChar(a % 10) && sb[|sb| - 1] == DigitChar(b % 10);
      assert "0123456789"[a % 10] == "0123456789"[b % 10];
      assert a % 10 == b % 10;
      assert sa[..|sa| - 1] == NatToString(a / 10);
      assert sb[..|sb| - 1] == NatToString(b / 10);
      NatToStringInjective(a / 10, b / 10);
    } else if a < 10 && b < 10 {
      assert "0123456789"[a] == "0123456789"[b];
    }
  }

  /** Decimal rendering of an integer, with a leading '-' when negative. */
  function IntToString(i: int): (s: string)
    ensures i >= 0 ==> s == NatToString(i)
    ensures i < 0 ==> s == "-" + NatToString(-i)
  {
    if i < 0 then "-" + NatToString(-i) else NatToString(i)
  }

  /**
   * `String(v)`, the conversion a template literal applies: arrays join their
   * elements with ',' (null elements becoming ''), objects render as "[object Object]".
   */
  function ToText(j: Json): string
    decreases j, 1
  {
    match j
    case JNull => "null"
    case JBool(b) => if b then "true" else "false"
    case JNumber(n) => IntToString(n)
    case JString(s) => s
    case JArray(items) => JoinText(items)
    case JObject(_) => "[object Object]"
  }

  function JoinText(items: seq<Json>): string
    decreases items, 0
  {
    if items == [] then ""
    else
      var head := if items[0].JNull? then "" else ToText(items[0]);
      if |items| == 1 then head else head + "," + JoinText(items[1..])
  }

  /** `String(v)` of a value that may be `undefined`. */
  function OptText(v: Option<Json>): string
  {
    match v
    case None => "undefined"
    case Some(j) => ToText(j)
  }

  /**
   * The own enumerable properties that `{...j}` copies: an object's fields, an array's
   * elements or a string's characters under their decimal index, nothing for other values.
   */
  function SpreadFields(j: Json): (m: map<string, Json>)
    ensures j.JObject? ==> m == j.fields
    ensures j.JArray? ==> forall i :: 0 <= i < |j.items| ==> NatToString(i) in m && m[NatToString(i)] == j.items[i]
    ensures j.JString? ==> forall i :: 0 <= i < |j.s| ==> NatToString(i) in m && m[NatToString(i)] == JString([j.s[i]])
    ensures !j.JObject? && !j.JArray? && !j.JString? ==> m == map[]
  {
    match j
    case JObject(fields) => fields
    case JArray(items) => Indexed(items)
    case JString(s) => Indexed(seq(|s|, i requires 0 <= i < |s| => JString([s[i]])))
    case _ => map[]
  }

  /** A sequence as a map from decimal index to element. */
  function Indexed(xs: seq<Json>): (m: map<string, Json>)
    ensures forall i :: 0 <= i < |xs| ==> NatToString(i) in m && m[NatToString(i)] == xs[i]
    ensures forall k :: k in m ==> exists i :: 0 <= i < |xs| && k == NatToString(i)
  {
    forall a: nat, b: nat | a < |xs| && b < |xs| && NatToString(a) == NatToString(b)
      ensures a == b
    {
      NatToStringInjective(a, b);
    }
    map i | 0 <= i < |xs| :: NatToString(i) := xs[i]
  }

  /**
   * `{...j, key: value}`: the properties spread from `j`, then `key` set to `value`;
   * the explicit property wins over a spread one of the same name.
   */
  function Merge(j: Json, key: string, value: Json): (r: Json)
    ensures r.JObject?
    ensures key in r.fields && r.fields[key] == value
    ensures r.fields.Keys == SpreadFields(j).Keys + {key}
    ensures forall k :: k in SpreadFields(j) && k != key ==> r.fields[k] == SpreadFields(j)[k]
  {
    JObject(SpreadFields(j)[key := value])
  }
}
