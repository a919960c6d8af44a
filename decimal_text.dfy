/**
 * Decimal text as Python handles it for the identifiers of this backend:
 * `str.isdigit()`, `int(s)`, `str(n)` and the `{n:04d}` format.
 * Only the ASCII digits '0'..'9' are digits here.
 */
module DecimalText {
  import opened Wrappers

  predicate IsDigit(c: char) { '0' <= c <= '9' }

  predicate AllDigits(s: string) { forall i :: 0 <= i < |s| ==> IsDigit(s[i]) }

  /** `s.isdigit()`: true for a non-empty string of digits only. */
  predicate IsDigitString(s: string) { |s| > 0 && AllDigits(s) }

  function DigitChar(d: nat): (c: char)
    requires d < 10
    ensures IsDigit(c) && c as int - '0' as int == d
  {
    ('0' as int + d) as char
  }

  /** The number a string of digits denotes, most significant digit first. */
  function DigitsValue(s: string): nat
    requires AllDigits(s)
  {
    if s == [] then 0 else DigitsValue(s[..|s| - 1]) * 10 + (s[|s| - 1] as int - '0' as int)
  }

  /** `str(n)` for a natural number: its shortest decimal numeral. */
  function NatToString(n: nat): (s: string)
    ensures IsDigitString(s)
    ensures s[0] == '0' <==> n == 0
    ensures n < 10 <==> |s| == 1
  {
    if n < 10 then [DigitChar(n)] else NatToString(n / 10) + [DigitChar(n % 10)]
  }

  /** Reading back the numeral of `n` gives `n`. */
  lemma {:induction false} NatToStringValue(n: nat)
    ensures DigitsValue(NatToString(n)) == n
  {
    if n >= 10 {
      var s := NatToString(n);
      assert s[..|s| - 1] == NatToString(n / 10);
      NatToStringValue(n / 10);
    }
  }

  function Pow10(k: nat): (p: nat)
    ensures p >= 1
  {
    if k == 0 then 1 else 10 * Pow10(k - 1)
  }

  /** A number with `k + 1` digits has a numeral of exactly that length. */
  lemma {:induction false} NatToStringLength(n: nat, k: nat)
    requires Pow10(k) <= n < Pow10(k + 1)
    ensures |NatToString(n)| == k + 1
  {
    if k > 0 {
      assert Pow10(k - 1) <= n / 10 < Pow10(k);
      NatToStringLength(n / 10, k - 1);
    }
  }

  /** `k` zero characters. */
  function Zeros(k: nat): (z: string)
    ensures |z| == k && AllDigits(z)
    ensures forall i :: 0 <= i < k ==> z[i] == '0'
  {
    seq(k, _ => '0')
  }

  /** Left-pads `s` with '0' up to `width` characters; longer strings are kept whole. */
  function ZeroPad(s: string, width: nat): string
  {
    if |s| < width then Zeros(width - |s|) + s else s
  }

  /** A leading '0' does not change the value of a numeral. */
  lemma {:induction false} LeadingZeroValue(s: string)
    requires AllDigits(s)
    ensures AllDigits(['0'] + s) && DigitsValue(['0'] + s) == DigitsValue(s)
  {
    if s != [] {
      var t := ['0'] + s;
      assert t[..|t| - 1] == ['0'] + s[..|s| - 1];
      LeadingZeroValue(s[..|s| - 1]);
    }
  }

  /** Zero padding keeps a numeral a numeral of the same value, at least `width` long. */
  lemma {:induction false} ZeroPadValue(s: string, width: nat)
    requires IsDigitString(s)
    ensures IsDigitString(ZeroPad(s, width))
    ensures DigitsValue(ZeroPad(s, width)) == DigitsValue(s)
    ensures |ZeroPad(s, width)| == if |s| < width then width else |s|
    decreases width - |s|
  {
    if |s| < width {
      ZeroPadValue(['0'] + s, width);
      LeadingZeroValue(s);
      assert ZeroPad(['0'] + s, width) == ZeroPad(s, width) by {
        assert Zeros(width - |s|) == Zeros(width - |s| - 1) + ['0'];
      }
    }
  }

  /** Python's `int(s)` in base 10: an optional sign and at least one digit, else a ValueError. */
  function ParseInt(s: string): Option<int>
  {
    if |s| > 0 && (s[0] == '-' || s[0] == '+') then
      if IsDigitString(s[1..]) then
        Some(if s[0] == '-' then 0 - DigitsValue(s[1..]) else DigitsValue(s[1..]))
      else None
    else if IsDigitString(s) then Some(DigitsValue(s))
    else None
  }

  /** Python's `f"{n:0<width>d}"`: the sign counts towards the width, zeros go after it. */
  function FormatInt(n: int, width: nat): string
  {
    if n < 0 then "-" + ZeroPad(NatToString(-n), if width > 0 then width - 1 else 0)
    else ZeroPad(NatToString(n), width)
  }

  /** `int(f"{n:0<width>d}") == n` for every integer and width. */
  lemma FormatIntRoundTrip(n: int, width: nat)
    ensures ParseInt(FormatInt(n, width)) == Some(n)
  {
    if n < 0 {
      var w: nat := if width > 0 then width - 1 else 0;
      NatToStringValue(-n);
      ZeroPadValue(NatToString(-n), w);
      var p := ZeroPad(NatToString(-n), w);
      assert FormatInt(n, width) == "-" + p;
      ParseNegative(p);
    } else {
      NatToStringValue(n);
      ZeroPadValue(NatToString(n), width);
      var p := ZeroPad(NatToString(n), width);
      assert FormatInt(n, width) == p;
      ParseUnsigned(p);
    }
  }

  /** Digits alone read as their value. */
  lemma ParseUnsigned(p: string)
    requires IsDigitString(p)
    ensures ParseInt(p) == Some(DigitsValue(p))
  {
    assert IsDigit(p[0]);
  }

  /** A minus sign before digits negates their value. */
  lemma ParseNegative(p: string)
    requires IsDigitString(p)
    ensures ParseInt("-" + p) == Some(0 - DigitsValue(p))
  {
    var s := "-" + p;
    assert s[0] == '-' && s[1..] == p;
  }

  /** Non-negative numbers format to digits only, at least `width` long. */
  lemma FormatNatShape(n: nat, width: nat)
    ensures IsDigitString(FormatInt(n, width))
    ensures |FormatInt(n, width)| == if |NatToString(n)| < width then width else |NatToString(n)|
  {
    ZeroPadValue(NatToString(n), width);
  }
}
