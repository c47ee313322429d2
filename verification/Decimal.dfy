/** Decimal text of naturals, and the fixed-point wire form of prices and sizes. */
module Decimal {
  import opened Types

  predicate IsDigit(c: char) {
    '0' <= c <= '9'
  }

  function Digit(d: nat): char
    requires d < 10
  {
    ('0' as int + d) as char
  }

  function DigitValue(c: char): nat
    requires IsDigit(c)
  {
    c as int - '0' as int
  }

  predicate AllDigits(s: string) {
    forall i :: 0 <= i < |s| ==> IsDigit(s[i])
  }

  /** Decimal text without leading zeros. */
  function Text(n: nat): (s: string)
    ensures s != "" && AllDigits(s)
    ensures s[0] == '0' ==> n == 0
  {
    if n < 10 then [Digit(n)] else Text(n / 10) + [Digit(n % 10)]
  }

  function Value(s: string): nat
    requires AllDigits(s)
  {
    if s == "" then 0 else Value(s[..|s| - 1]) * 10 + DigitValue(s[|s| - 1])
  }

  /** No leading zeros: the form that `Text` prints. */
  predicate Canonical(s: string) {
    s != "" && AllDigits(s) && (s[0] == '0' ==> |s| == 1)
  }

  lemma {:induction false} ValueOfText(n: nat)
    ensures Canonical(Text(n)) && Value(Text(n)) == n
  {
    if n >= 10 {
      ValueOfText(n / 10);
      var s := Text(n / 10) + [Digit(n % 10)];
      assert s[..|s| - 1] == Text(n / 10);
    }
  }

  lemma {:induction false} PositiveValue(s: string)
    requires s != "" && AllDigits(s) && s[0] != '0'
    ensures Value(s) > 0
  {
    if |s| > 1 {
      PositiveValue(s[..|s| - 1]);
    } else {
      assert s[..0] == "";
    }
  }

  lemma {:induction false} TextOfValue(s: string)
    requires Canonical(s)
    ensures Text(Value(s)) == s
  {
    var n := |s| - 1;
    if n == 0 {
      assert s[..0] == "";
      assert Value(s) == DigitValue(s[0]);
      assert s == [s[0]];
    } else {
      var front := s[..n];
      PositiveValue(front);
      TextOfValue(front);
      assert Value(s) / 10 == Value(front);
      assert s == front + [s[n]];
    }
  }

  lemma {:induction false} ValueAppend(a: string, b: string)
    requires AllDigits(a) && AllDigits(b)
    ensures AllDigits(a + b)
    ensures Value(a + b) == Value(a) * Pow10(|b|) + Value(b)
    decreases |b|
  {
    if b == "" {
      assert a + b == a;
    } else {
      var n := |b| - 1;
      ValueAppend(a, b[..n]);
      assert (a + b)[..|a + b| - 1] == a + b[..n];
      assert Pow10(|b|) == 10 * Pow10(n);
      assert Value(a) * Pow10(|b|) == (Value(a) * Pow10(n)) * 10;
    }
  }

  function Pow10(n: nat): (p: nat)
    ensures p > 0
  {
    if n == 0 then 1 else 10 * Pow10(n - 1)
  }

  lemma {:induction false} ValueBelow(s: string)
    requires AllDigits(s)
    ensures Value(s) < Pow10(|s|)
  {
    if s != "" {
      ValueBelow(s[..|s| - 1]);
    }
  }

  // ---------- Fixed width ----------

  /** The low `width` decimal digits of n, leading zeros kept. */
  function Padded(n: nat, width: nat): (s: string)
    ensures |s| == width && AllDigits(s)
  {
    if width == 0 then "" else Padded(n / 10, width - 1) + [Digit(n % 10)]
  }

  /** What is left of n without its low `width` digits. */
  function Shift(n: nat, width: nat): nat {
    if width == 0 then n else Shift(n / 10, width - 1)
  }

  lemma TenTimes(v: nat, z: nat)
    ensures v * Pow10(z + 1) == (v * Pow10(z)) * 10
  {
    var p := Pow10(z);
    assert v * (10 * p) == (v * p) * 10;
  }

  lemma {:induction false} ShiftAndPadded(n: nat, width: nat)
    ensures Shift(n, width) * Pow10(width) + Value(Padded(n, width)) == n
    decreases width
  {
    if width > 0 {
      ShiftAndPadded(n / 10, width - 1);
      TenTimes(Shift(n, width), width - 1);
      var s := Padded(n, width);
      assert s[..|s| - 1] == Padded(n / 10, width - 1);
    }
  }

  // ---------- The wire form ----------

  /** The decimals of the signer's stream. The laws below hold for any number of them. */
  const PLACES := 8

  /** What a fixed stream prints for `units` of its last decimal place. */
  function Fixed(units: nat, places: nat): string {
    Text(Shift(units, places)) + "." + Padded(units, places)
  }

  function StripZeros(s: string): (r: string)
    ensures r <= s
  {
    if s != "" && s[|s| - 1] == '0' then StripZeros(s[..|s| - 1]) else s
  }

  function StripDot(s: string): string {
    if s != "" && s[|s| - 1] == '.' then s[..|s| - 1] else s
  }

  /** The wire text of a non-negative amount. */
  function Wire(units: nat, places: nat): string {
    StripDot(StripZeros(Fixed(units, places)))
  }

  /** The printing loop of the signer: pop zeros, then the dot, then replace an empty text. */
  method FloatToWire(units: nat) returns (out: string)
    ensures out == Wire(units, PLACES)
  {
    out := Fixed(units, PLACES);
    while out != "" && out[|out| - 1] == '0'
      invariant StripZeros(out) == StripZeros(Fixed(units, PLACES))
      decreases |out|
    {
      out := out[..|out| - 1];
    }
    if out != "" && out[|out| - 1] == '.' {
      out := out[..|out| - 1];
    }
    if out == "" {
      WireShape(units, PLACES);
      assert false;
      out := "0";
    }
  }

  /** Amounts on the wire: an integer part and a fraction of at most `places` digits that does not
      end in zero; without a fraction there is no dot either. */
  datatype Amount = Amount(whole: string, fraction: string)

  predicate WellFormed(a: Amount, places: nat) {
    && Canonical(a.whole)
    && AllDigits(a.fraction)
    && |a.fraction| <= places
    && (a.fraction != "" ==> a.fraction[|a.fraction| - 1] != '0')
  }

  function Show(a: Amount): string {
    if a.fraction == "" then a.whole else a.whole + "." + a.fraction
  }

  /** The amount in units of the last decimal place. */
  function Units(a: Amount, places: nat): nat
    requires WellFormed(a, places)
  {
    Value(a.whole) * Pow10(places) + FractionUnits(a, places)
  }

  function FractionUnits(a: Amount, places: nat): nat
    requires WellFormed(a, places)
  {
    Value(a.fraction) * Pow10(places - |a.fraction|)
  }

  /** The fraction digits that remain after the zeros are gone. */
  function Fraction(units: nat, places: nat): (f: string)
    ensures |f| <= places && AllDigits(f)
  {
    var p := Padded(units, places);
    assert StripZeros(p) <= p;
    StripZeros(p)
  }

  lemma {:induction false} StripZerosStopsAtDot(a: string, b: string)
    ensures StripZeros(a + "." + b) == a + "." + StripZeros(b)
    decreases |b|
  {
    var s := a + "." + b;
    if b == "" {
      assert s == a + ".";
    } else {
      assert s[|s| - 1] == b[|b| - 1];
      assert s[..|s| - 1] == a + "." + b[..|b| - 1];
      if b[|b| - 1] == '0' {
        StripZerosStopsAtDot(a, b[..|b| - 1]);
      }
    }
  }

  lemma {:induction false} StripZerosEnds(s: string)
    ensures StripZeros(s) != "" ==> StripZeros(s)[|StripZeros(s)| - 1] != '0'
  {
    if s != "" && s[|s| - 1] == '0' {
      StripZerosEnds(s[..|s| - 1]);
    }
  }

  lemma {:induction false} StripZerosValue(s: string)
    requires AllDigits(s)
    ensures AllDigits(StripZeros(s))
    ensures Value(s) == Value(StripZeros(s)) * Pow10(|s| - |StripZeros(s)|)
  {
    if s != "" && s[|s| - 1] == '0' {
      var front := s[..|s| - 1];
      StripZerosValue(front);
      assert Value(s) == Value(front) * 10;
      var z := |front| - |StripZeros(front)|;
      TenTimes(Value(StripZeros(s)), z);
    }
  }

  /** The wire text is the text of a well-formed amount worth exactly the units printed. So it is
      never empty, never ends in a dot or a fractional zero, and integer zeros survive. */
  lemma WireShape(units: nat, places: nat)
    ensures
      var a := Amount(Text(Shift(units, places)), Fraction(units, places));
      && WellFormed(a, places)
      && Wire(units, places) == Show(a) != ""
      && Units(a, places) == units
  {
    var whole, padded := Text(Shift(units, places)), Padded(units, places);
    StripZerosEnds(padded);
    ValueOfText(Shift(units, places));
    ShownParts(whole, padded);
    ShiftAndPadded(units, places);
    StripZerosValue(padded);
  }

  lemma ShownParts(whole: string, padded: string)
    requires Canonical(whole) && AllDigits(padded)
    ensures StripDot(StripZeros(whole + "." + padded))
            == (if StripZeros(padded) == "" then whole else whole + "." + StripZeros(padded))
  {
    StripZerosStopsAtDot(whole, padded);
    var fraction := StripZeros(padded);
    var s := whole + "." + fraction;
    if fraction == "" {
      assert s == whole + ".";
    } else {
      assert s[|s| - 1] == fraction[|fraction| - 1];
      StripZerosValue(padded);
    }
  }

  /** Reads an amount: digits up to the first dot, digits after it. */
  function DotAt(s: string): (i: nat)
    ensures i <= |s|
    ensures forall k :: 0 <= k < i ==> s[k] != '.'
    ensures i < |s| ==> s[i] == '.'
  {
    if s == "" || s[0] == '.' then 0 else 1 + DotAt(s[1..])
  }

  function Read(s: string, places: nat): Option<nat> {
    var i := DotAt(s);
    var a := Amount(s[..i], if i < |s| then s[i + 1..] else "");
    if WellFormed(a, places) && (i < |s| ==> a.fraction != "") then Some(Units(a, places)) else None
  }

  lemma ReadShow(a: Amount, places: nat)
    requires WellFormed(a, places)
    ensures Read(Show(a), places) == Some(Units(a, places))
  {
    var s := Show(a);
    var i := DotAt(s);
    assert forall k :: 0 <= k < |a.whole| ==> s[k] == a.whole[k];
    assert i >= |a.whole|;
    if a.fraction == "" {
      assert s[..i] == a.whole;
    } else {
      assert s[|a.whole|] == '.';
      assert i == |a.whole|;
      assert s[..i] == a.whole && s[i + 1..] == a.fraction;
    }
  }

  /** Reading back what was printed gives the amount that was printed. */
  lemma WireRoundTrip(units: nat, places: nat)
    ensures Read(Wire(units, places), places) == Some(units)
  {
    WireShape(units, places);
    ReadShow(Amount(Text(Shift(units, places)), Fraction(units, places)), places);
  }

  /** Different amounts never print the same text. */
  lemma WireIsInjective(x: nat, y: nat, places: nat)
    requires Wire(x, places) == Wire(y, places)
    ensures x == y
  {
    WireRoundTrip(x, places);
    WireRoundTrip(y, places);
  }

  lemma LastDigit(g: string)
    requires g != "" && AllDigits(g)
    ensures Value(g) % 10 == DigitValue(g[|g| - 1]) && Value(g) / 10 == Value(g[..|g| - 1])
  {
    SplitTen(Value(g), Value(g[..|g| - 1]), DigitValue(g[|g| - 1]));
  }

  lemma SplitTen(n: nat, v: nat, d: nat)
    requires d < 10 && n == v * 10 + d
    ensures n % 10 == d && n / 10 == v
  {
  }

  /** Padding with zeros to the same width hides nothing but trailing zeros. */
  lemma SameTail(f: string, g: string, k: nat, m: nat)
    requires AllDigits(f) && AllDigits(g)
    requires g != "" ==> g[|g| - 1] != '0'
    requires g == "" ==> k == 0
    requires Value(f) * Pow10(m + k) == Value(g) * Pow10(m)
    ensures k == 0 && Value(f) == Value(g)
  {
    PowSplit(m, k);
    Rearrange(Value(f), Pow10(m), Pow10(k));
    Cancel(Value(f) * Pow10(k), Value(g), Pow10(m));
    if k > 0 {
      LastDigit(g);
      TenDivides(Value(f), k);
    }
  }

  lemma Rearrange(v: nat, p: nat, q: nat)
    ensures v * (p * q) == (v * q) * p
  {
  }

  lemma TenDivides(v: nat, k: nat)
    requires k > 0
    ensures (v * Pow10(k)) % 10 == 0
  {
    var r := Pow10(k - 1);
    assert v * Pow10(k) == 10 * (v * r);
  }

  lemma MultiplyLess(x: nat, y: nat, p: nat)
    requires x < y
    ensures x * p + p <= y * p
  {
    assert (y - x - 1) * p >= 0;
    assert y * p - x * p - p == (y - x - 1) * p;
  }

  lemma Cancel(a: nat, b: nat, p: nat)
    requires p > 0 && a * p == b * p
    ensures a == b
  {
    if a < b {
      MultiplyLess(a, b, p);
    } else if b < a {
      MultiplyLess(b, a, p);
    }
  }

  lemma {:induction false} PowSplit(a: nat, b: nat)
    ensures Pow10(a + b) == Pow10(a) * Pow10(b)
    decreases b
  {
    if b > 0 {
      PowSplit(a, b - 1);
      assert Pow10(a) * Pow10(b) == (Pow10(a) * Pow10(b - 1)) * 10;
    }
  }

  lemma {:induction false} ValueDetermines(f: string, g: string)
    requires AllDigits(f) && AllDigits(g) && |f| == |g| && Value(f) == Value(g)
    ensures f == g
  {
    if f != "" {
      var n := |f| - 1;
      LastDigit(f);
      LastDigit(g);
      ValueDetermines(f[..n], g[..n]);
      assert f == f[..n] + [f[n]] && g == g[..n] + [g[n]];
    }
  }

  lemma SameFraction(f: string, g: string, places: nat)
    requires AllDigits(f) && AllDigits(g) && |f| <= |g| <= places
    requires g != "" ==> g[|g| - 1] != '0'
    requires Value(f) * Pow10(places - |f|) == Value(g) * Pow10(places - |g|)
    ensures f == g
  {
    var k, m := |g| - |f|, places - |g|;
    assert places - |f| == m + k;
    SameTail(f, g, k, m);
    ValueDetermines(f, g);
  }

  /** Two well-formed amounts of the same worth are the same text. */
  lemma SameUnits(a: Amount, b: Amount, places: nat)
    requires WellFormed(a, places) && WellFormed(b, places) && Units(a, places) == Units(b, places)
    ensures a == b
  {
    FractionBelow(a, places);
    FractionBelow(b, places);
    SameQuotient(Value(a.whole), Value(b.whole), FractionUnits(a, places), FractionUnits(b, places), Pow10(places));
    assert FractionUnits(a, places) == FractionUnits(b, places);
    if |a.fraction| <= |b.fraction| {
      SameFraction(a.fraction, b.fraction, places);
    } else {
      SameFraction(b.fraction, a.fraction, places);
    }
    TextOfValue(a.whole);
    TextOfValue(b.whole);
  }

  /** The wire text is the only well-formed one for its amount. */
  lemma WireIsUnique(a: Amount, places: nat)
    requires WellFormed(a, places)
    ensures Wire(Units(a, places), places) == Show(a)
  {
    var units := Units(a, places);
    WireShape(units, places);
    SameUnits(a, Amount(Text(Shift(units, places)), Fraction(units, places)), places);
  }

  lemma SameQuotient(x: nat, y: nat, r: nat, t: nat, p: nat)
    requires r < p && t < p && x * p + r == y * p + t
    ensures x == y
  {
    if x < y {
      MultiplyLess(x, y, p);
    } else if y < x {
      MultiplyLess(y, x, p);
    }
  }

  lemma FractionBelow(a: Amount, places: nat)
    requires WellFormed(a, places)
    ensures FractionUnits(a, places) < Pow10(places)
  {
    ValueBelow(a.fraction);
    PowSplit(places - |a.fraction|, |a.fraction|);
    ProductBelow(Value(a.fraction), Pow10(|a.fraction|), Pow10(places - |a.fraction|));
  }

  lemma ProductBelow(f: nat, r: nat, q: nat)
    requires f < r && q > 0
    ensures f * q < q * r
  {
    MultiplyLess(f, r, q);
    assert r * q == q * r;
  }
}
