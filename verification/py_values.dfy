/**
 * The part of Python's value semantics the request builder relies on:
 * truthiness (`if value:`) and the string conversion `str(value)` applied
 * to identifier values before they are spliced into the URL path.
 */
module PyValues {

  /** The keyword-argument values a caller passes: None, bools, ints, strings and flat form dicts. */
  datatype Value =
    | NoneValue
    | BoolValue(b: bool)
    | IntValue(i: int)
    | StrValue(s: string)
    | DictValue(items: seq<(string, string)>)

  /** Python truthiness: None, False, 0, "" and {} are falsy, everything else is truthy. */
  predicate Truthy(v: Value)
  {
    match v
    case NoneValue => false
    case BoolValue(b) => b
    case IntValue(i) => i != 0
    case StrValue(s) => s != ""
    case DictValue(items) => items != []
  }

  predicate IsDigit(c: char)
  {
    '0' <= c <= '9'
  }

  predicate AllDigits(s: string)
  {
    forall k :: 0 <= k < |s| ==> IsDigit(s[k])
  }

  function DigitChar(d: nat): (c: char)
    requires d < 10
    ensures IsDigit(c) && c as int - '0' as int == d
  {
    (d + '0' as int) as char
  }

  function DigitValue(c: char): (d: nat)
    requires IsDigit(c)
    ensures d < 10 && DigitChar(d) == c
  {
    c as int - '0' as int
  }

  /** Decimal digits of n, most significant first, with no leading zeros. */
  function NatToDecimal(n: nat): (s: string)
    ensures s != [] && AllDigits(s)
    ensures (|s| > 1) == (n >= 10)
    ensures s[0] == '0' ==> n == 0
    decreases n
  {
    if n < 10 then [DigitChar(n)] else NatToDecimal(n / 10) + [DigitChar(n % 10)]
  }

  /** The number a string of decimal digits denotes (the inverse of NatToDecimal). */
  function DecimalValue(s: string): nat
    requires AllDigits(s)
    decreases |s|
  {
    if s == [] then 0 else DecimalValue(s[..|s| - 1]) * 10 + DigitValue(s[|s| - 1])
  }

  lemma {:induction false} DecimalRoundTrip(n: nat)
    ensures DecimalValue(NatToDecimal(n)) == n
    decreases n
  {
    if n >= 10 {
      var s := NatToDecimal(n);
      assert s[..|s| - 1] == NatToDecimal(n / 10);
      DecimalRoundTrip(n / 10);
    }
  }

  /** `str(i)` for a Python int: decimal, with a leading '-' when negative. */
  function IntToString(i: int): (s: string)
  {
    if i < 0 then "-" + NatToDecimal(-i) else NatToDecimal(i)
  }

  /** Reads back the output of IntToString (Python's `int(s)` on such strings). */
  function ParseInt(s: string): int
    requires s != []
    requires if s[0] == '-' then AllDigits(s[1..]) else AllDigits(s)
  {
    if s[0] == '-' then -(DecimalValue(s[1..]) as int) else DecimalValue(s)
  }

  lemma IntToStringRoundTrip(i: int)
    ensures var s := IntToString(i);
      s != [] && (if s[0] == '-' then AllDigits(s[1..]) else AllDigits(s)) && ParseInt(s) == i
  {
    var s := IntToString(i);
    if i < 0 {
      assert s[1..] == NatToDecimal(-i);
      DecimalRoundTrip(-i);
    } else {
      DecimalRoundTrip(i);
    }
  }

  /** The repr of a flat str-to-str dict, `{'k': 'v', ...}`, in insertion order. */
  function DictRepr(items: seq<(string, string)>): string
  {
    "{" + DictItems(items) + "}"
  }

  function DictItems(items: seq<(string, string)>): string
  {
    if items == [] then ""
    else
      var item := "'" + items[0].0 + "': '" + items[0].1 + "'";
      if |items| == 1 then item else item + ", " + DictItems(items[1..])
  }

  /** Python's `str(value)`. */
  function Str(v: Value): string
  {
    match v
    case NoneValue => "None"
    case BoolValue(b) => if b then "True" else "False"
    case IntValue(i) => IntToString(i)
    case StrValue(s) => s
    case DictValue(items) => DictRepr(items)
  }

  /**
   * What `str()` gives for each kind of value: None and the bools their
   * names, an int its signed decimal digits (which read back as the int),
   * a string itself, a dict its braces-delimited repr.
   */
  lemma StrCases(v: Value)
    ensures v.NoneValue? ==> Str(v) == "None"
    ensures v.BoolValue? ==> Str(v) == if v.b then "True" else "False"
    ensures v.IntValue? ==> var s := Str(v);
      s != [] && (if s[0] == '-' then AllDigits(s[1..]) else AllDigits(s)) && ParseInt(s) == v.i
    ensures v.StrValue? ==> Str(v) == v.s
    ensures v.DictValue? ==> var s := Str(v); |s| >= 2 && s[0] == '{' && s[|s| - 1] == '}'
  {
    if v.IntValue? {
      IntToStringRoundTrip(v.i);
    }
  }

  /** A truthy value never converts to the empty string, so splicing it never adds an empty segment. */
  lemma TruthyStrNonEmpty(v: Value)
    requires Truthy(v)
    ensures Str(v) != ""
  {
  }

  /** Of the values a caller can pass for an identifier, exactly the falsy ones are skipped. */
  lemma FalsyValues(v: Value)
    ensures !Truthy(v) <==> v in {NoneValue, BoolValue(false), IntValue(0), StrValue(""), DictValue([])}
  {
  }
}
