/**
 * An exact-decimal stand-in for Python's `float()` applied to the text of
 * the `Amount` column: an optional sign, decimal digits, and an optional
 * fractional part after a single '.'. Text that is not of that form yields
 * `None`, the model of `float()` raising `ValueError`.
 */
module Amount {
  import opened Wrappers

  predicate IsDigit(c: char) {
    '0' <= c <= '9'
  }

  predicate AllDigits(s: string) {
    forall i :: 0 <= i < |s| ==> IsDigit(s[i])
  }

  function DigitValue(c: char): (d: nat)
    requires IsDigit(c)
    ensures d < 10
  {
    (c as int - '0' as int) as nat
  }

  function DigitChar(d: nat): (c: char)
    requires d < 10
    ensures IsDigit(c) && DigitValue(c) == d
  {
    ('0' as int + d) as char
  }

  /** The number a string of decimal digits denotes, most significant digit first. */
  function Value(ds: string): nat
    requires AllDigits(ds)
  {
    if ds == [] then 0 else 10 * Value(ds[..|ds| - 1]) + DigitValue(ds[|ds| - 1])
  }

  function Pow10(n: nat): (p: nat)
    ensures p >= 1
  {
    if n == 0 then 1 else 10 * Pow10(n - 1)
  }

  lemma {:induction false} ValueBound(ds: string)
    requires AllDigits(ds)
    ensures Value(ds) < Pow10(|ds|)
  {
    if ds != [] {
      ValueBound(ds[..|ds| - 1]);
    }
  }

  lemma QuotientBelowOne(v: real, p: real)
    requires 0.0 <= v < p
    ensures 0.0 <= v / p < 1.0
  {
    var q := v / p;
    assert q * p == v;
  }

  /** The value of the digits after the decimal point: "25" stands for 0.25. */
  function Fraction(ds: string): (f: real)
    requires AllDigits(ds)
    ensures 0.0 <= f < 1.0
  {
    ValueBound(ds);
    QuotientBelowOne(Value(ds) as real, Pow10(|ds|) as real);
    (Value(ds) as real) / (Pow10(|ds|) as real)
  }

  /** The position of the first '.' in `s`, or `|s|` when there is none. */
  function DotIndex(s: string): (k: nat)
    ensures k <= |s|
    ensures k < |s| ==> s[k] == '.'
  {
    if s == [] || s[0] == '.' then 0 else 1 + DotIndex(s[1..])
  }

  /** An unsigned decimal: digits, optionally a '.' and more digits, at least one digit in all. */
  function ParseUnsigned(s: string): (r: Option<real>)
    ensures r.Some? ==> 0.0 <= r.value
  {
    var k := DotIndex(s);
    var whole := s[..k];
    var frac := if k < |s| then s[k + 1..] else [];
    if |whole| + |frac| > 0 && AllDigits(whole) && AllDigits(frac) then
      Some(Value(whole) as real + Fraction(frac))
    else
      None
  }

  /** The amount `s` denotes, or `None` where `float(s)` would raise `ValueError`. */
  function ParseAmount(s: string): (r: Option<real>)
  {
    if |s| > 0 && (s[0] == '+' || s[0] == '-') then
      match ParseUnsigned(s[1..])
      case None => None
      case Some(v) => Some(if s[0] == '-' then -v else v)
    else
      ParseUnsigned(s)
  }

  /** Only signs, digits and the decimal point can make up an accepted amount. */
  predicate IsNumeral(c: char) {
    IsDigit(c) || c == '.' || c == '+' || c == '-'
  }

  lemma UnsignedAlphabet(s: string)
    requires ParseUnsigned(s).Some?
    ensures s != [] && forall i :: 0 <= i < |s| ==> IsDigit(s[i]) || s[i] == '.'
  {
    var k := DotIndex(s);
    forall i | 0 <= i < |s| ensures IsDigit(s[i]) || s[i] == '.' {
      if i < k {
        assert s[i] == s[..k][i];
      } else if i > k {
        assert s[i] == s[k + 1..][i - k - 1];
      }
    }
  }

  /** Text with a letter, a space or any other character foreign to a numeral is rejected. */
  lemma ParseAmountAlphabet(s: string)
    requires ParseAmount(s).Some?
    ensures s != []
    ensures forall i :: 0 <= i < |s| ==> IsNumeral(s[i])
    ensures forall i :: 0 < i < |s| ==> s[i] != '+' && s[i] != '-'
  {
    if |s| > 0 && (s[0] == '+' || s[0] == '-') {
      UnsignedAlphabet(s[1..]);
      forall i | 0 < i < |s| ensures IsDigit(s[i]) || s[i] == '.' {
        assert s[i] == s[1..][i - 1];
      }
    } else {
      UnsignedAlphabet(s);
    }
  }

  /** The decimal rendering of a natural number, without leading zeros. */
  function NatText(n: nat): (s: string)
    ensures |s| > 0 && AllDigits(s) && Value(s) == n
  {
    if n < 10 then
      [DigitChar(n)]
    else
      var prefix := NatText(n / 10);
      var s := prefix + [DigitChar(n % 10)];
      assert s[..|s| - 1] == prefix;
      s
  }

  lemma {:induction false} DotIndexAfterDigits(ds: string, rest: string)
    requires AllDigits(ds)
    ensures DotIndex(ds + rest) == |ds| + DotIndex(rest)
  {
    if ds != [] {
      assert (ds + rest)[0] == ds[0] && IsDigit(ds[0]);
      assert (ds + rest)[1..] == ds[1..] + rest;
      assert DotIndex(ds + rest) == 1 + DotIndex(ds[1..] + rest);
      DotIndexAfterDigits(ds[1..], rest);
    } else {
      assert ds + rest == rest;
    }
  }

  lemma UnsignedAt(s: string, whole: string, frac: string)
    requires AllDigits(whole) && AllDigits(frac) && |whole| + |frac| > 0
    requires DotIndex(s) == |whole| < |s|
    requires s[..|whole|] == whole && s[|whole| + 1..] == frac
    ensures ParseUnsigned(s) == Some(Value(whole) as real + Fraction(frac))
  {
  }

  lemma DotAfterWhole(whole: string, frac: string)
    requires AllDigits(whole)
    ensures DotIndex(whole + ("." + frac)) == |whole|
  {
    DotIndexAfterDigits(whole, "." + frac);
  }

  lemma SplitSlices(whole: string, frac: string)
    ensures (whole + ("." + frac))[..|whole|] == whole
    ensures (whole + ("." + frac))[|whole| + 1..] == frac
  {
  }

  lemma UnsignedSplit(whole: string, frac: string)
    requires AllDigits(whole) && AllDigits(frac) && |whole| + |frac| > 0
    ensures ParseUnsigned(whole + ("." + frac)) == Some(Value(whole) as real + Fraction(frac))
  {
    var s := whole + ("." + frac);
    DotAfterWhole(whole, frac);
    SplitSlices(whole, frac);
    UnsignedAt(s, whole, frac);
  }

  lemma UnsignedDecimal(w: nat, ds: string)
    requires AllDigits(ds)
    ensures ParseUnsigned(NatText(w) + "." + ds) == Some(w as real + Fraction(ds))
  {
    UnsignedSplit(NatText(w), ds);
    assert NatText(w) + "." + ds == NatText(w) + ("." + ds);
  }

  lemma UnsignedInteger(n: nat)
    ensures ParseUnsigned(NatText(n)) == Some(n as real)
  {
    var t := NatText(n);
    DotIndexAfterDigits(t, "");
    assert t + "" == t;
    assert t[..|t|] == t;
  }

  /** A leading digit means there is no sign to strip. */
  lemma UnsignedIsAmount(u: string)
    requires |u| > 0 && IsDigit(u[0])
    ensures ParseAmount(u) == ParseUnsigned(u)
  {
  }

  /** A leading '-' negates the unsigned value and a leading '+' keeps it. */
  lemma SignedAmount(u: string, v: real)
    requires ParseUnsigned(u) == Some(v)
    ensures ParseAmount("-" + u) == Some(-v)
    ensures ParseAmount("+" + u) == Some(v)
  {
    assert ("-" + u)[1..] == u;
    assert ("+" + u)[1..] == u;
  }

  /** Round trip: the decimal text of a whole number, signed or not, parses back to that number. */
  lemma ParseNatText(n: nat)
    ensures ParseAmount(NatText(n)) == Some(n as real)
    ensures ParseAmount("+" + NatText(n)) == Some(n as real)
    ensures ParseAmount("-" + NatText(n)) == Some(-(n as real))
  {
    UnsignedInteger(n);
    UnsignedIsAmount(NatText(n));
    SignedAmount(NatText(n), n as real);
  }

  /**
   * Round trip: whole digits, a point and fraction digits parse back to the
   * number they denote, and to its negation after a '-'; "12.0", the text
   * `str()` gives for the float 12.0, parses to 12.
   */
  lemma ParseDecimalText(w: nat, ds: string)
    requires AllDigits(ds)
    ensures ParseAmount(NatText(w) + "." + ds) == Some(w as real + Fraction(ds))
    ensures ParseAmount("-" + (NatText(w) + "." + ds)) == Some(-(w as real + Fraction(ds)))
  {
    var u := NatText(w) + "." + ds;
    var v := w as real + Fraction(ds);
    UnsignedDecimal(w, ds);
    assert u[0] == NatText(w)[0];
    UnsignedIsAmount(u);
    SignedAmount(u, v);
  }
}
