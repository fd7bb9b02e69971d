/**
 * The decimal rendering of an unsigned integer, as Rust's `to_string` gives
 * it for a `u16` status code, and its inverse.
 */
module DecimalText {
  import opened Wrappers

  predicate IsDigit(c: char)
  {
    '0' <= c <= '9'
  }

  predicate AllDigits(s: string)
  {
    forall i :: 0 <= i < |s| ==> IsDigit(s[i])
  }

  /** A rendering with at least one digit and no leading zero ("0" itself aside). */
  predicate IsCanonical(s: string)
  {
    |s| >= 1 && AllDigits(s) && (s[0] == '0' ==> |s| == 1)
  }

  function DigitChar(d: nat): (c: char)
    requires d < 10
    ensures IsDigit(c) && c as int - '0' as int == d
  {
    ('0' as int + d) as char
  }

  function DigitValue(c: char): (d: nat)
    requires IsDigit(c)
    ensures d < 10 && DigitChar(d) == c
  {
    c as int - '0' as int
  }

  function Pow10(k: nat): (p: nat)
    ensures p >= 1
  {
    if k == 0 then 1 else 10 * Pow10(k - 1)
  }

  /** The decimal digits of `n`, most significant first. */
  function ToDecimal(n: nat): (s: string)
    ensures IsCanonical(s)
    ensures s[|s| - 1] == DigitChar(n % 10)
    decreases n
  {
    if n < 10 then [DigitChar(n)] else ToDecimal(n / 10) + [DigitChar(n % 10)]
  }

  /** Reads a string of decimal digits back; `None` for the empty string or any non-digit. */
  function ParseDecimal(s: string): (r: Option<nat>)
    ensures r.Some? <==> |s| >= 1 && AllDigits(s)
    decreases |s|
  {
    if |s| == 0 || !IsDigit(s[|s| - 1]) then None
    else if |s| == 1 then Some(DigitValue(s[0]))
    else
      match ParseDecimal(s[..|s| - 1])
      case None => None
      case Some(p) => Some(10 * p + DigitValue(s[|s| - 1]))
  }

  /** Parsing the rendering of `n` yields `n`. */
  lemma {:induction false} ParseToDecimal(n: nat)
    ensures ParseDecimal(ToDecimal(n)) == Some(n)
    decreases n
  {
    if n >= 10 {
      var s := ToDecimal(n);
      assert s[..|s| - 1] == ToDecimal(n / 10);
      ParseToDecimal(n / 10);
    }
  }

  /** Every canonical digit string is the rendering of the number it parses to. */
  lemma {:induction false} ToDecimalOfParse(s: string)
    requires IsCanonical(s)
    ensures ParseDecimal(s).Some? && ToDecimal(ParseDecimal(s).value) == s
    decreases |s|
  {
    if |s| > 1 {
      var prefix := s[..|s| - 1];
      assert IsCanonical(prefix) by {
        assert prefix[0] == s[0];
      }
      ToDecimalOfParse(prefix);
      var p := ParseDecimal(prefix).value;
      assert p != 0 by {
        assert prefix[0] == s[0] != '0';
      }
      var n := 10 * p + DigitValue(s[|s| - 1]);
      assert n / 10 == p && n % 10 == DigitValue(s[|s| - 1]);
      assert ToDecimal(n) == prefix + [s[|s| - 1]];
    }
  }

  /** Distinct numbers have distinct renderings. */
  lemma ToDecimalInjective(a: nat, b: nat)
    requires ToDecimal(a) == ToDecimal(b)
    ensures a == b
  {
    ParseToDecimal(a);
    ParseToDecimal(b);
  }

  /** A number below 10^k has at most k digits (k >= 1). */
  lemma {:induction false} ToDecimalLength(n: nat, k: nat)
    requires 1 <= k && n < Pow10(k)
    ensures |ToDecimal(n)| <= k
    decreases k
  {
    if n >= 10 {
      assert k >= 2;
      assert n / 10 < Pow10(k - 1);
      ToDecimalLength(n / 10, k - 1);
    }
  }
}
