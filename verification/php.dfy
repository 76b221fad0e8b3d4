/**
 PHP value semantics the plugin relies on: `false`-or-value returns, the
 falsiness of strings (`empty()`, `!$x`), `absint`, and the decimal text of an
 integer as produced by string interpolation, `%d` and `(string)`.
 */
module Php {

  /** A PHP return value that is either a value or `false`. */
  datatype Option<+T> = None | Some(value: T) {

    /**
     `shortcode_atts` picking a default, and `$x ?: $default` for an `Option`
     whose value is truthy whenever present (`?:` also replaces a falsy value).
     */
    function GetOr(default: T): (r: T)
      ensures Some? ==> r == value
      ensures None? ==> r == default
    {
      match this
      case Some(v) => v
      case None => default
    }
  }

  /** `empty($s)` for a string, which is also `!$s`: only "" and "0" are falsy. */
  predicate IsEmpty(s: string) {
    s == "" || s == "0"
  }

  /** A `string|false` result is truthy exactly when it is a non-empty string other than "0". */
  predicate Truthy(o: Option<string>) {
    o.Some? && !IsEmpty(o.value)
  }

  /** `absint($x)` once `$x` has been cast to an integer: `abs((int) $x)`. */
  function AbsInt(n: int): (r: nat)
    ensures r == n || r == -n
    ensures r == 0 <==> n == 0
  {
    if n < 0 then -n else n
  }

  predicate IsDigit(c: char) {
    '0' <= c <= '9'
  }

  function DigitChar(d: nat): (c: char)
    requires d < 10
    ensures IsDigit(c)
    ensures DigitValue(c) == d
  {
    "0123456789"[d]
  }

  function DigitValue(c: char): nat
    requires IsDigit(c)
  {
    c as int - '0' as int
  }

  /** Decimal digits of a natural number, without leading zeros. */
  function NatToString(n: nat): (s: string)
    ensures |s| > 0
    ensures forall i :: 0 <= i < |s| ==> IsDigit(s[i])
    ensures s[0] == '0' <==> n == 0
    decreases n
  {
    if n < 10 then [DigitChar(n)] else NatToString(n / 10) + [DigitChar(n % 10)]
  }

  /** How PHP prints an integer: an optional minus sign, then its decimal digits. */
  function IntToString(i: int): (s: string)
    ensures |s| > 0
    ensures forall c :: c in s ==> c == '-' || IsDigit(c)
    ensures s[0] == '-' <==> i < 0
    ensures forall k :: 1 <= k < |s| ==> IsDigit(s[k])
  {
    if i < 0 then
      var d := NatToString(-i);
      assert forall k :: 1 <= k < |d| + 1 ==> ("-" + d)[k] == d[k - 1];
      "-" + d
    else NatToString(i)
  }

  /** The value of a string of digits read in base ten; `(int) $s` on such a string. */
  function DigitsValue(s: string): nat
    requires forall i :: 0 <= i < |s| ==> IsDigit(s[i])
  {
    if |s| == 0 then 0 else 10 * DigitsValue(s[..|s| - 1]) + DigitValue(s[|s| - 1])
  }

  /** `(int) $s` on the text PHP prints for an integer. */
  function ParseInt(s: string): int
    requires forall c :: c in s ==> c == '-' || IsDigit(c)
    requires |s| > 0 && forall i :: 1 <= i < |s| ==> IsDigit(s[i])
  {
    if s[0] == '-' then -(DigitsValue(s[1..]) as int) else DigitsValue(s)
  }

  lemma {:induction false} NatToStringRoundTrip(n: nat)
    ensures DigitsValue(NatToString(n)) == n
    decreases n
  {
    if n >= 10 {
      var s := NatToString(n);
      assert s[..|s| - 1] == NatToString(n / 10);
      NatToStringRoundTrip(n / 10);
    }
  }

  /** Reading back the printed text of an integer gives the integer: the printed size is faithful. */
  lemma IntToStringRoundTrip(i: int)
    ensures ParseInt(IntToString(i)) == i
  {
    var s := IntToString(i);
    if i < 0 {
      assert s[1..] == NatToString(-i);
      NatToStringRoundTrip(-i);
    } else {
      assert s == NatToString(i);
      NatToStringRoundTrip(i);
    }
  }
}
