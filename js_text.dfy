/** What a template literal `${v}` writes for a JSON value: JavaScript's
    ToString. The viewer interpolates every resolved field this way, and the
    card's `data-id` attribute is this text. */
module JsText {
  import opened Js

  function DigitChar(d: nat): char
    requires d < 10
  {
    "0123456789"[d]
  }

  predicate IsDigit(c: char) {
    '0' <= c <= '9'
  }

  predicate AllDigits(s: string) {
    forall i :: 0 <= i < |s| ==> IsDigit(s[i])
  }

  /** The decimal numeral of a natural number, without leading zeros. */
  function NatText(n: nat): (s: string)
    ensures |s| > 0 && AllDigits(s)
    ensures |s| > 1 ==> s[0] != '0'
  {
    if n < 10 then [DigitChar(n)] else NatText(n / 10) + [DigitChar(n % 10)]
  }

  /** The value of a string of decimal digits: the inverse of `NatText`. */
  function DecimalValue(s: string): nat
    requires AllDigits(s)
  {
    if s == [] then 0
    else DecimalValue(s[..|s| - 1]) * 10 + (s[|s| - 1] as int - '0' as int)
  }

  lemma {:induction false} NatTextRoundTrip(n: nat)
    ensures DecimalValue(NatText(n)) == n
  {
    var s := NatText(n);
    if n >= 10 {
      NatTextRoundTrip(n / 10);
      assert s[..|s| - 1] == NatText(n / 10);
    }
  }

  /** An optional minus sign followed by decimal digits. */
  predicate IsNumeral(s: string) {
    && s != []
    && (s[0] == '-' ==> |s| > 1 && AllDigits(s[1..]))
    && (s[0] != '-' ==> AllDigits(s))
  }

  /** String(n) for an integer-valued number: a minus sign, then the digits. */
  function IntText(n: int): (s: string)
    ensures IsNumeral(s)
    ensures s[0] == '-' <==> n < 0
  {
    if n < 0 then
      var d := NatText(-n);
      assert ("-" + d)[1..] == d;
      "-" + d
    else NatText(n)
  }

  /** Reading an integer numeral back: the inverse of `IntText`. */
  function ParseInt(s: string): int
    requires IsNumeral(s)
  {
    if s[0] == '-' then 0 - DecimalValue(s[1..]) as int else DecimalValue(s)
  }

  /** Distinct numbers give distinct texts, so an id survives the trip
      through the `data-id` attribute. */
  lemma IntTextRoundTrip(n: int)
    ensures ParseInt(IntText(n)) == n
  {
    if n < 0 {
      var d := NatText(-n);
      NatTextRoundTrip(-n);
      assert IntText(n) == "-" + d;
      assert ("-" + d)[1..] == d;
    } else {
      NatTextRoundTrip(n);
    }
  }

  /** `${v}`. An array joins its elements' texts with commas, writing
      nothing for a `null` element; every object is "[object Object]". A
      number writes a numeral that reads back as that number, and every
      truthy value other than an array writes something. */
  function Text(v: Json): (t: string)
    ensures v.Num? ==> IsNumeral(t) && ParseInt(t) == v.n
    ensures v.Str? ==> t == v.s
    ensures v.Obj? ==> t == "[object Object]"
    ensures Truthy(v) && !v.Arr? ==> t != ""
    decreases v, 1
  {
    match v
    case Null => "null"
    case Bool(b) => if b then "true" else "false"
    case Num(n) => IntTextRoundTrip(n); IntText(n)
    case Str(s) => s
    case Arr(xs) => JoinText(xs)
    case Obj(_) => "[object Object]"
  }

  /** `xs.join(',')` as Array.prototype.toString performs it. */
  function JoinText(xs: seq<Json>): (t: string)
    decreases xs, 0
  {
    if xs == [] then ""
    else if |xs| == 1 then ElemText(xs[0])
    else ElemText(xs[0]) + "," + JoinText(xs[1..])
  }

  function ElemText(x: Json): string
    decreases x, 2
  {
    if x == Null then "" else Text(x)
  }

  /** A property interpolated directly: an absent one writes "undefined". */
  function PropText(p: Option<Json>): string {
    match p
    case None => "undefined"
    case Some(v) => Text(v)
  }

  /** The text of a value is empty exactly for the empty string, the empty
      array, and a one-element array whose element writes nothing. In
      particular every truthy value that is not an array writes something. */
  lemma TextEmptyIff(v: Json)
    ensures Text(v) == "" <==>
      || v == Str("")
      || (v.Arr? && (|v.elems| == 0 || (|v.elems| == 1 && ElemText(v.elems[0]) == "")))
  {
  }
}
