/** Python's `float(text)` applied to a price string such as "100.50": the
    order book files orders under the TEXT and compares them by this number. */
module Decimal {
  import opened Wrappers

  predicate IsDigit(c: char)
  {
    '0' <= c <= '9'
  }

  predicate AllDigits(s: string)
  {
    forall i :: 0 <= i < |s| ==> IsDigit(s[i])
  }

  function DigitValue(c: char): nat
    requires IsDigit(c)
  {
    c as int - '0' as int
  }

  /** The natural number written by a string of decimal digits. */
  function DigitsValue(s: string): nat
    requires AllDigits(s)
  {
    if s == [] then 0 else DigitsValue(s[..|s| - 1]) * 10 + DigitValue(s[|s| - 1])
  }

  function Pow10(n: nat): (r: nat)
    ensures r >= 1
  {
    if n == 0 then 1 else 10 * Pow10(n - 1)
  }

  /** Index of the first '.', if any. */
  function DotIndex(s: string): (r: Option<nat>)
    ensures r.Some? ==> r.value < |s| && s[r.value] == '.' && forall k :: 0 <= k < r.value ==> s[k] != '.'
    ensures r.None? ==> forall k :: 0 <= k < |s| ==> s[k] != '.'
  {
    if s == [] then None
    else if s[0] == '.' then Some(0)
    else match DotIndex(s[1..])
      case None => None
      case Some(i) => Some(i + 1)
  }

  /** Digits with an optional fractional part: "12", "12.5", "12.", ".5". */
  function ParseUnsigned(s: string): (r: Option<real>)
    ensures r.Some? ==> r.value >= 0.0
  {
    match DotIndex(s)
    case None =>
      if s != [] && AllDigits(s) then Some(DigitsValue(s) as real) else None
    case Some(i) =>
      var whole, frac := s[..i], s[i + 1..];
      if AllDigits(whole) && AllDigits(frac) && |whole| + |frac| > 0 then
        Some(DigitsValue(whole) as real + DigitsValue(frac) as real / Pow10(|frac|) as real)
      else None
  }

  /** `float(text)` for an optionally signed decimal; `None` stands for the
      ValueError Python raises on text it cannot read. */
  function ParsePrice(s: string): (r: Option<real>)
    ensures r.Some? ==> |s| > 0
    ensures r.Some? && r.value < 0.0 ==> s[0] == '-'
    ensures |s| > 0 && s[0] == '-' ==> (r.Some? <==> ParseUnsigned(s[1..]).Some?)
    ensures |s| > 0 && s[0] == '-' && r.Some? ==> r.value == -ParseUnsigned(s[1..]).value
  {
    if |s| > 0 && (s[0] == '-' || s[0] == '+') then
      match ParseUnsigned(s[1..])
      case None => None
      case Some(v) => Some(if s[0] == '-' then -v else v)
    else ParseUnsigned(s)
  }

  /** The decimal text of a natural number, as the feed writes whole prices. */
  function NatText(n: nat): (s: string)
    ensures |s| > 0 && AllDigits(s)
  {
    if n < 10 then [('0' as int + n) as char]
    else NatText(n / 10) + [('0' as int + n % 10) as char]
  }

  lemma {:induction false} NatTextValue(n: nat)
    ensures DigitsValue(NatText(n)) == n
  {
    if n >= 10 {
      NatTextValue(n / 10);
      var s := NatText(n);
      assert s[..|s| - 1] == NatText(n / 10);
    }
  }

  /** Reading back the text of a whole number gives that number. */
  lemma ParseNatText(n: nat)
    ensures ParsePrice(NatText(n)) == Some(n as real)
  {
    NatTextValue(n);
    var s := NatText(n);
    assert s[0] != '-' && s[0] != '+';
    assert DotIndex(s).None? by {
      assert forall k :: 0 <= k < |s| ==> s[k] != '.' by {
        assert forall k :: 0 <= k < |s| ==> IsDigit(s[k]);
      }
    }
  }

  /** The `d`-digit text of `f`, padded with leading zeros, as a fractional
      part such as the "05" of "1.05" is written. */
  function PadText(f: nat, d: nat): (s: string)
    requires f < Pow10(d)
    ensures |s| == d && AllDigits(s)
  {
    if d == 0 then []
    else
      assert f / 10 < Pow10(d - 1);
      PadText(f / 10, d - 1) + [('0' as int + f % 10) as char]
  }

  lemma {:induction false} PadTextValue(f: nat, d: nat)
    requires f < Pow10(d)
    ensures DigitsValue(PadText(f, d)) == f
  {
    if d > 0 {
      PadTextValue(f / 10, d - 1);
      var s := PadText(f, d);
      assert s[..|s| - 1] == PadText(f / 10, d - 1);
    }
  }

  /** The first '.' of digits followed by '.' is the one after the digits. */
  lemma DotAfterDigits(whole: string, rest: string)
    requires AllDigits(whole)
    ensures DotIndex(whole + "." + rest) == Some(|whole|)
  {
    var s := whole + "." + rest;
    assert s[|whole|] == '.';
    forall k | 0 <= k < |whole| ensures s[k] != '.' {
      assert s[k] == whole[k] && IsDigit(whole[k]);
    }
  }

  /** Digits, '.', digits: the whole part plus the fraction over 10^|frac|. */
  lemma ParseDigitsDotDigits(whole: string, frac: string, w: nat, f: nat, d: nat)
    requires AllDigits(whole) && AllDigits(frac) && |whole| > 0
    requires DigitsValue(whole) == w && DigitsValue(frac) == f && |frac| == d
    ensures ParsePrice(whole + "." + frac) == Some(w as real + f as real / Pow10(d) as real)
  {
    var s := whole + "." + frac;
    assert s[0] == whole[0];
    UnsignedText(s);
    UnsignedDigitsDotDigits(whole, frac, w, f, d);
  }

  /** Text that starts with a digit has no sign to strip. */
  lemma UnsignedText(s: string)
    requires |s| > 0 && IsDigit(s[0])
    ensures ParsePrice(s) == ParseUnsigned(s)
  {
  }

  lemma UnsignedDigitsDotDigits(whole: string, frac: string, w: nat, f: nat, d: nat)
    requires AllDigits(whole) && AllDigits(frac) && |whole| > 0
    requires DigitsValue(whole) == w && DigitsValue(frac) == f && |frac| == d
    ensures ParseUnsigned(whole + "." + frac) == Some(w as real + f as real / Pow10(d) as real)
  {
    var s := whole + "." + frac;
    DotAfterDigits(whole, frac);
    assert s[..|whole|] == whole;
    assert s[|whole| + 1..] == frac;
  }

  /** Reading back a fixed-point text "w.f" with `d` fractional digits, such
      as "100.50" (w = 100, f = 50, d = 2), gives w + f / 10^d. */
  lemma ParseFixedText(w: nat, f: nat, d: nat)
    requires f < Pow10(d)
    ensures ParsePrice(NatText(w) + "." + PadText(f, d)) == Some(w as real + f as real / Pow10(d) as real)
  {
    NatTextValue(w);
    PadTextValue(f, d);
    ParseDigitsDotDigits(NatText(w), PadText(f, d), w, f, d);
  }
}
