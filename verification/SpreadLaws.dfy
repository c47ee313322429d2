/** The spread that both engines act on, in terms of the four quotes that it is taken from. */
module Books {
  import opened Types

  /** Both sides of the book are there. */
  predicate Quoted(b: Bbo) {
    b.bid > 0.0 && b.ask > 0.0
  }

  predicate Usable(hl: Bbo, lighter: Bbo, maxQuoteAgeMs: int) {
    Quoted(hl) && Quoted(lighter) && hl.quoteAgeMs <= maxQuoteAgeMs && lighter.quoteAgeMs <= maxQuoteAgeMs
  }

  /** Twice the distance of the two mids. */
  function Gap(hl: Bbo, lighter: Bbo): real {
    (lighter.bid + lighter.ask) - (hl.bid + hl.ask)
  }

  /** Four times the average mid. */
  function Total(hl: Bbo, lighter: Bbo): real {
    hl.bid + hl.ask + lighter.bid + lighter.ask
  }

  /** The distance of the mids is at least `bps` basis points of their average. */
  predicate Reaches(hl: Bbo, lighter: Bbo, bps: real) {
    20000.0 * Abs(Gap(hl, lighter)) >= bps * Total(hl, lighter)
  }

  /** What a spread that both sides of both books support satisfies. */
  ghost predicate Measures(s: SpreadSnapshot) {
    s.crossSpreadBps * Total(s.hl, s.lighter) == 20000.0 * Gap(s.hl, s.lighter)
  }

  lemma Compare(x: real, y: real, t: real)
    requires t > 0.0
    ensures x >= y <==> x * t >= y * t
    ensures Abs(x) * t == Abs(x * t)
  {
  }

  /** Direction and size of such a spread, read off the quotes. */
  lemma MeasuredSpread(s: SpreadSnapshot, bps: real)
    requires Measures(s) && Quoted(s.hl) && Quoted(s.lighter)
    ensures s.crossSpreadBps >= 0.0 <==> Gap(s.hl, s.lighter) >= 0.0
    ensures Abs(s.crossSpreadBps) >= bps <==> Reaches(s.hl, s.lighter, bps)
  {
    var total := Total(s.hl, s.lighter);
    Compare(s.crossSpreadBps, 0.0, total);
    Compare(Abs(s.crossSpreadBps), bps, total);
  }

  /** A snapshot is used exactly when all four quotes are there and neither book is too old. */
  lemma ValidIsUsable(s: SpreadSnapshot, maxQuoteAgeMs: int)
    ensures s.Valid(maxQuoteAgeMs) <==> Usable(s.hl, s.lighter, maxQuoteAgeMs)
  {
  }
}

module SpreadLaws {
  import opened Types
  import opened Books
  import F = HlEngine
  import R = LtEngine

  lemma Ratio(x: real, y: real)
    requires y > 0.0
    ensures ((x / y) * 10000.0) * y == x * 10000.0
  {
  }

  lemma RatioOfItself(x: real)
    requires x > 0.0
    ensures (x / (x / 2.0)) * 10000.0 == 20000.0 && ((0.0 - x) / (x / 2.0)) * 10000.0 == -20000.0
  {
    Ratio(x, x / 2.0);
    Ratio(0.0 - x, x / 2.0);
  }

  /** The forward engine's snapshot carries both books unchanged; its spread is the distance of the
      mids in basis points of their average, plus or minus 200% when one book has an empty side, and
      zero when both have. */
  lemma ForwardSpread(hl: Bbo, lighter: Bbo)
    ensures
      var s := F.CollectSnapshot(hl, lighter);
      && s.hl == hl && s.lighter == lighter
      && (Quoted(hl) && Quoted(lighter) ==>
            s.crossSpreadBps * (hl.bid + hl.ask + lighter.bid + lighter.ask)
            == 20000.0 * ((lighter.bid + lighter.ask) - (hl.bid + hl.ask)))
      && (Quoted(hl) && !Quoted(lighter) ==> s.crossSpreadBps == -20000.0)
      && (!Quoted(hl) && Quoted(lighter) ==> s.crossSpreadBps == 20000.0)
      && (!Quoted(hl) && !Quoted(lighter) ==> s.crossSpreadBps == 0.0)
  {
    var h, l := hl.Mid(), lighter.Mid();
    if Quoted(hl) && Quoted(lighter) {
      Ratio(l - h, (h + l) / 2.0);
    } else if Quoted(hl) {
      RatioOfItself(h);
    } else if Quoted(lighter) {
      RatioOfItself(l);
    }
  }

  /** So does the reverse engine's. */
  lemma ReverseSpread(hl: Bbo, lighter: Bbo)
    ensures
      var s := R.CollectSnapshot(hl, lighter);
      && s.hl == hl && s.lighter == lighter
      && (Quoted(hl) && Quoted(lighter) ==>
            s.crossSpreadBps * (hl.bid + hl.ask + lighter.bid + lighter.ask)
            == 20000.0 * ((lighter.bid + lighter.ask) - (hl.bid + hl.ask)))
      && (Quoted(hl) && !Quoted(lighter) ==> s.crossSpreadBps == -20000.0)
      && (!Quoted(hl) && Quoted(lighter) ==> s.crossSpreadBps == 20000.0)
      && (!Quoted(hl) && !Quoted(lighter) ==> s.crossSpreadBps == 0.0)
  {
    ForwardSpread(hl, lighter);
    assert R.CollectSnapshot(hl, lighter) == F.CollectSnapshot(hl, lighter);
  }
}
