/**
 * JavaScript values as the dashboard client receives them from JSON
 * payloads, with the handful of language operations the client relies on:
 * truthiness, `||` defaults, `===`, property reads and `String(v)`.
 * Numbers are restricted to integers (see README, "Left out").
 */
module JsValue {
  import opened Wrappers

  datatype Json =
    | Undefined
    | Null
    | Bool(b: bool)
    | Num(n: int)
    | Str(s: string)
    | Arr(elems: seq<Json>)
    | Obj(fields: map<string, Json>)
  {
    /** `v === null || v === undefined` */
    predicate IsNullish() {
      Undefined? || Null?
    }

    /** ECMAScript ToBoolean: what `if (v)` and `!v` test. */
    predicate Truthy() {
      match this
      case Undefined => false
      case Null => false
      case Bool(b) => b
      case Num(n) => n != 0
      case Str(s) => s != ""
      case Arr(_) => true
      case Obj(_) => true
    }
  }

  /** `a || b` */
  function Or(a: Json, b: Json): Json {
    if a.Truthy() then a else b
  }

  /**
   * `a === b` between a value parsed from a payload and a client-side
   * primitive: arrays and objects built by the JSON parser are fresh
   * references and are never `===` to anything the client holds.
   */
  predicate StrictEquals(a: Json, b: Json) {
    !a.Arr? && !a.Obj? && a == b
  }

  /** The message V8 puts in the TypeError thrown by `v.key` on null or undefined. */
  function NullReadMessage(v: Json, key: string): string
    requires v.IsNullish()
  {
    "Cannot read properties of " + (if v.Null? then "null" else "undefined") + " (reading '" + key + "')"
  }

  /**
   * `v.key` for a value that is not null or undefined, for the record keys
   * the page reads: an own field of an object, `undefined` for a missing
   * field or a primitive (none of those keys is a property of a primitive).
   */
  function Field(v: Json, key: string): Json
    requires !v.IsNullish()
  {
    if v.Obj? && key in v.fields then v.fields[key] else Undefined
  }

  /** `v.key`, which throws a TypeError when `v` is null or undefined. */
  function Get(v: Json, key: string): (r: Result<Json, string>)
    ensures r.Failure? <==> v.IsNullish()
  {
    if v.IsNullish() then Failure(NullReadMessage(v, key)) else Success(Field(v, key))
  }

  function DigitChar(d: nat): char
    requires d < 10
  {
    "0123456789"[d]
  }

  /** Decimal digits of a natural number, most significant first, no leading zero. */
  function NatToDecimal(n: nat): (s: string)
    ensures |s| >= 1
    ensures forall i :: 0 <= i < |s| ==> '0' <= s[i] <= '9'
    ensures |s| > 1 ==> s[0] != '0'
  {
    if n < 10 then [DigitChar(n)] else NatToDecimal(n / 10) + [DigitChar(n % 10)]
  }

  /** The number a string of decimal digits denotes, read most significant digit first. */
  function DecimalValue(s: string): nat
    requires forall i :: 0 <= i < |s| ==> '0' <= s[i] <= '9'
  {
    if s == [] then 0
    else DecimalValue(s[..|s| - 1]) * 10 + (s[|s| - 1] as int - '0' as int)
  }

  /** The digits `NatToDecimal` writes denote the number they were written for. */
  lemma {:induction false} DecimalRoundTrip(n: nat)
    ensures DecimalValue(NatToDecimal(n)) == n
  {
    var s := NatToDecimal(n);
    if n >= 10 {
      DecimalRoundTrip(n / 10);
      assert s[..|s| - 1] == NatToDecimal(n / 10);
    }
  }

  /** Different numbers are written differently. */
  lemma NatToDecimalInjective(m: nat, n: nat)
    requires NatToDecimal(m) == NatToDecimal(n)
    ensures m == n
  {
    DecimalRoundTrip(m);
    DecimalRoundTrip(n);
  }

  /** `String(n)` for an integer-valued number. */
  function IntToDecimal(n: int): string {
    if n < 0 then "-" + NatToDecimal(-n) else NatToDecimal(n)
  }

  /** Strings joined with a separator between neighbours. */
  function JoinStrings(ss: seq<string>, sep: string): string {
    if |ss| == 0 then "" else if |ss| == 1 then ss[0] else ss[0] + sep + JoinStrings(ss[1..], sep)
  }

  /** What `Array.prototype.join` writes for one element: "" for null and undefined. */
  function JoinPiece(v: Json): string
    decreases v, 1
  {
    if v.IsNullish() then "" else ToString(v)
  }

  /** `es.join(sep)`. */
  function JoinElements(es: seq<Json>, sep: string): string
  {
    JoinStrings(seq(|es|, i requires 0 <= i < |es| => JoinPiece(es[i])), sep)
  }

  /** `String(v)`; an array converts through `join(",")`. */
  function ToString(v: Json): string
    decreases v, 0
  {
    match v
    case Undefined => "undefined"
    case Null => "null"
    case Bool(b) => if b then "true" else "false"
    case Num(n) => IntToDecimal(n)
    case Str(s) => s
    case Arr(es) => JoinStrings(seq(|es|, i requires 0 <= i < |es| => JoinPiece(es[i])), ",")
    case Obj(_) => "[object Object]"
  }

  /**
   * How many leading elements are neither null nor undefined: a loop that
   * reads a field of each element (`t.name`, `cmd.command`, `log.message`)
   * throws a TypeError at the first one that is.
   */
  function LeadingValues(vs: seq<Json>): (n: nat)
    ensures n <= |vs|
    ensures forall i :: 0 <= i < n ==> !vs[i].IsNullish()
    ensures n < |vs| ==> vs[n].IsNullish()
  {
    if vs == [] || vs[0].IsNullish() then 0 else 1 + LeadingValues(vs[1..])
  }
}
