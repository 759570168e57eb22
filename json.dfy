/**
 * The JavaScript values a stored project record can hold (what `JSON.parse` produces),
 * with the two language rules the resolver relies on: truthiness and `String(x)`.
 * Numbers are integers here.
 */
module Json {
  import opened Wrappers

  datatype Value =
    | Null
    | Bool(b: bool)
    | Number(n: int)
    | Str(s: string)
    | Array(items: seq<Value>)
    | Object(fields: map<string, Value>)

  /** Truthiness of a property read; `None` is `undefined`. */
  predicate Truthy(v: Option<Value>)
    ensures Truthy(v) ==> v.Some? && !v.value.Null?
    ensures v.Some? && v.value.Str? ==> (Truthy(v) <==> v.value.s != "")
    ensures v.Some? && v.value.Number? ==> (Truthy(v) <==> v.value.n != 0)
    ensures v.Some? && (v.value.Array? || v.value.Object?) ==> Truthy(v)
  {
    match v
    case None => false
    case Some(Null) => false
    case Some(Bool(b)) => b
    case Some(Number(n)) => n != 0
    case Some(Str(s)) => s != ""
    case Some(_) => true
  }

  predicate IsDigit(c: char) {
    '0' <= c <= '9'
  }

  /** The number a string of decimal digits denotes, most significant digit first. */
  function DigitsValue(s: string): int
    decreases |s|
  {
    if |s| == 0 then 0 else DigitsValue(s[..|s| - 1]) * 10 + (s[|s| - 1] as int - '0' as int)
  }

  /** The decimal numeral of `n`, without leading zeros. */
  function Decimal(n: nat): (r: string)
    ensures |r| > 0
    ensures forall i :: 0 <= i < |r| ==> IsDigit(r[i])
    ensures r[0] == '0' ==> r == "0"
    ensures DigitsValue(r) == n
  {
    var digit := ['0' + (n % 10) as char];
    if n < 10 then digit else Decimal(n / 10) + digit
  }

  /** `String(v)` for a defined value; arrays join their elements with commas, null elements as "". */
  function ToJsString(v: Value): (r: string)
    ensures v.Number? && v.n >= 0 ==> r == Decimal(v.n)
    ensures v.Number? && v.n < 0 ==> r == "-" + Decimal(-v.n)
    ensures v.Str? ==> r == v.s
    ensures v.Null? ==> r == "null"
    ensures v.Object? ==> r == "[object Object]"
    decreases v
  {
    match v
    case Null => "null"
    case Bool(b) => if b then "true" else "false"
    case Number(n) => if n < 0 then "-" + Decimal(-n) else Decimal(n)
    case Str(s) => s
    case Array(items) => Join(seq(|items|, i requires 0 <= i < |items| => if items[i].Null? then "" else ToJsString(items[i])))
    case Object(_) => "[object Object]"
  }

  function Join(parts: seq<string>): string
    decreases |parts|
  {
    if |parts| == 0 then ""
    else if |parts| == 1 then parts[0]
    else parts[0] + "," + Join(parts[1..])
  }

  /** `String(x)` for a property read, where `undefined` gives "undefined". */
  function PropertyString(v: Option<Value>): string {
    match v
    case None => "undefined"
    case Some(x) => ToJsString(x)
  }

  /** Distinct numbers have distinct numerals, so numeric ids compare as their values. */
  lemma DecimalInjective(m: nat, n: nat)
    ensures Decimal(m) == Decimal(n) <==> m == n
  {
  }
}
