/** The usual optional value. */
module Wrappers {
  datatype Option<+T> = None | Some(value: T)
}

/**
 * Values that the host hands to the plugin for a setting or in a device
 * creation request, and the two things the plugin does with them: render
 * them with `toString()` and test the result for truthiness.
 */
module SettingValues {
  import opened Wrappers

  /**
   * The host's setting value. `Null` stands for both `null` and `undefined`;
   * numbers are restricted to integral ones.
   */
  datatype SettingValue =
    | Null
    | Str(s: string)
    | Num(n: int)
    | Bool(b: bool)
    | StrList(items: seq<string>)

  predicate IsDigit(c: char) {
    '0' <= c <= '9'
  }

  function DigitChar(d: nat): (c: char)
    requires d < 10
    ensures IsDigit(c) && c as int - '0' as int == d
  {
    (d + '0' as int) as char
  }

  /** Decimal rendering of a natural number, most significant digit first. */
  function NatToDecimal(n: nat): (s: string)
    ensures |s| >= 1
    ensures forall i :: 0 <= i < |s| ==> IsDigit(s[i])
    ensures s[0] == '0' <==> n == 0
    decreases n
  {
    if n < 10 then [DigitChar(n)] else NatToDecimal(n / 10) + [DigitChar(n % 10)]
  }

  /** The number a string of decimal digits denotes. */
  function DecimalValue(s: string): nat
    requires forall i :: 0 <= i < |s| ==> IsDigit(s[i])
  {
    if s == [] then 0
    else
      assert IsDigit(s[|s| - 1]);
      DecimalValue(s[..|s| - 1]) * 10 + (s[|s| - 1] as int - '0' as int)
  }

  lemma {:induction false} DecimalRoundTrip(n: nat)
    ensures DecimalValue(NatToDecimal(n)) == n
    decreases n
  {
    if n >= 10 {
      var s := NatToDecimal(n);
      assert s[..|s| - 1] == NatToDecimal(n / 10);
      DecimalRoundTrip(n / 10);
    }
  }

  /** `Number.prototype.toString()` of an integral number. */
  function IntToString(n: int): (s: string)
    ensures s != ""
    ensures s[0] == '-' <==> n < 0
  {
    if n < 0 then "-" + NatToDecimal(-n) else NatToDecimal(n)
  }

  /** Behind the sign of a negative number's text stands the decimal text of its magnitude. */
  lemma SignDropped(n: int)
    requires n < 0
    ensures IntToString(n)[1..] == NatToDecimal(-n)
  {
  }

  /** Distinct natural numbers have distinct decimal texts. */
  lemma NatToDecimalInjective(m: nat, n: nat)
    requires NatToDecimal(m) == NatToDecimal(n)
    ensures m == n
  {
    DecimalRoundTrip(m);
    DecimalRoundTrip(n);
  }

  /** Distinct numbers render as distinct strings. */
  lemma IntToStringInjective(a: int, b: int)
    requires IntToString(a) == IntToString(b)
    ensures a == b
  {
    if a < 0 {
      assert b < 0;
      SignDropped(a);
      SignDropped(b);
      NatToDecimalInjective(-a, -b);
    } else {
      assert b >= 0;
      NatToDecimalInjective(a, b);
    }
  }

  /** `Array.prototype.toString()` of a string list: the items joined with commas. */
  function JoinWithCommas(items: seq<string>): (s: string)
    ensures s == "" <==> |items| == 0 || (|items| == 1 && items[0] == "")
    ensures |items| == 1 ==> s == items[0]
  {
    if |items| == 0 then ""
    else if |items| == 1 then items[0]
    else items[0] + "," + JoinWithCommas(items[1..])
  }

  /** `value?.toString()`: no text for `null`/`undefined`. */
  function ToText(v: SettingValue): (t: Option<string>)
    ensures t.None? <==> v.Null?
    ensures v.Str? ==> t == Some(v.s)
    ensures v.Num? ==> t.Some? && t.value != ""
  {
    match v
    case Null => None
    case Str(s) => Some(s)
    case Num(n) => Some(IntToString(n))
    case Bool(b) => Some(if b then "true" else "false")
    case StrList(items) => Some(JoinWithCommas(items))
  }

  /**
   * JavaScript truthiness of `value?.toString()`: the text exists and is not
   * empty. Every number and every boolean passes (0 renders as "0", false as
   * "false"); an empty string, an empty list or a list holding one empty
   * string does not.
   */
  predicate Truthy(v: SettingValue)
    ensures Truthy(v) <==> match v
                           case Null => false
                           case Str(s) => s != ""
                           case Num(_) => true
                           case Bool(_) => true
                           case StrList(items) => |items| > 1 || (|items| == 1 && items[0] != "")
  {
    ToText(v).Some? && ToText(v).value != ""
  }
}
