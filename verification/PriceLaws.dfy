/** Maker prices lock in the entry spread and stay on their own side of the maker venue's book. */
module PriceLaws {
  import opened Types
  import opened Pricing

  predicate BothBooks(snapshot: SpreadSnapshot) {
    snapshot.lighter.Mid() > 0.0 && snapshot.hl.Mid() > 0.0
  }

  lemma Multiply(a: real, b: real, c: real)
    requires a <= b && c >= 0.0
    ensures a * c <= b * c
  {
  }

  lemma ScaleUp(p: real, q: real, r: real)
    requires r >= 0.0 && p <= q / (1.0 + r)
    ensures p * (1.0 + r) <= q
  {
    assert (q / (1.0 + r)) * (1.0 + r) == q;
    Multiply(p, q / (1.0 + r), 1.0 + r);
  }

  lemma ScaleDown(p: real, q: real, r: real)
    requires r < 1.0 && p >= q / (1.0 - r)
    ensures p * (1.0 - r) >= q
  {
    assert (q / (1.0 - r)) * (1.0 - r) == q;
    Multiply(q / (1.0 - r), p, 1.0 - r);
  }

  /** An HL buy never crosses its own book and always leaves the entry spread below the Lighter bid. */
  lemma HlBuyLocksSpread(config: HedgerConfig, snapshot: SpreadSnapshot, gate: SignalGate)
    requires BothBooks(snapshot) && gate.direction.ShortLighterLongHl?
    ensures
      var order, r := HlMakerOrder(config, snapshot, gate), gate.entrySpreadBps / 10000.0;
      && order.isBuy
      && 0.0 < order.price <= snapshot.hl.bid
      && order.price * (1.0 + r) <= snapshot.lighter.bid
  {
    var order, r := HlMakerOrder(config, snapshot, gate), gate.entrySpreadBps / 10000.0;
    ScaleUp(order.price, snapshot.lighter.bid, r);
    Positive(snapshot.lighter.bid, 1.0 + r);
  }

  lemma Positive(q: real, d: real)
    requires q > 0.0 && d > 0.0
    ensures q / d > 0.0
  {
  }

  /** An HL sell never crosses its own book, and leaves the entry spread above the Lighter ask
      exactly when that spread is below 100%. */
  lemma HlSellLocksSpread(config: HedgerConfig, snapshot: SpreadSnapshot, gate: SignalGate)
    requires BothBooks(snapshot) && gate.direction.LongLighterShortHl?
    ensures
      var order, r := HlMakerOrder(config, snapshot, gate), gate.entrySpreadBps / 10000.0;
      && !order.isBuy
      && order.price >= snapshot.hl.ask
      && (order.price * (1.0 - r) >= snapshot.lighter.ask <==> r < 1.0)
  {
    var order, r := HlMakerOrder(config, snapshot, gate), gate.entrySpreadBps / 10000.0;
    if r < 1.0 {
      ScaleDown(order.price, snapshot.lighter.ask, r);
    } else {
      NonPositive(order.price, 1.0 - r);
    }
  }

  lemma NonPositive(p: real, d: real)
    requires p >= 0.0 && d <= 0.0
    ensures p * d <= 0.0
  {
  }

  /** A Lighter sell stays on its side and leaves the entry spread above the HL ask. */
  lemma LighterSellLocksSpread(config: HedgerConfig, snapshot: SpreadSnapshot, gate: SignalGate)
    requires BothBooks(snapshot) && gate.direction.ShortLighterLongHl?
    ensures
      var order, r := LighterMakerOrder(config, snapshot, gate), gate.entrySpreadBps / 10000.0;
      && !order.isBuy
      && order.price >= snapshot.lighter.ask
      && order.price >= snapshot.hl.ask * (1.0 + r)
  {
  }

  /** A Lighter buy stays on its side and leaves the entry spread below the HL bid; its price is
      positive exactly when that spread is below 100%. */
  lemma LighterBuyLocksSpread(config: HedgerConfig, snapshot: SpreadSnapshot, gate: SignalGate)
    requires BothBooks(snapshot) && gate.direction.LongLighterShortHl?
    ensures
      var order, r := LighterMakerOrder(config, snapshot, gate), gate.entrySpreadBps / 10000.0;
      && order.isBuy
      && order.price <= snapshot.lighter.bid
      && order.price <= snapshot.hl.bid * (1.0 - r)
      && (order.price > 0.0 <==> r < 1.0)
  {
    LighterBuyTarget(snapshot, gate.entrySpreadBps);
  }

  lemma LighterBuyTarget(snapshot: SpreadSnapshot, spreadBps: Threshold)
    requires snapshot.hl.Mid() > 0.0
    ensures
      var target, r := HlAnchoredLighterPrice(snapshot, LongLighterShortHl, spreadBps), spreadBps / 10000.0;
      target == snapshot.hl.bid * (1.0 - r) && (target > 0.0 <==> r < 1.0)
  {
    var r := spreadBps / 10000.0;
    if r < 1.0 {
      PositiveProduct(snapshot.hl.bid, 1.0 - r);
    } else {
      NonPositive(snapshot.hl.bid, 1.0 - r);
    }
  }

  lemma PositiveProduct(p: real, d: real)
    requires p > 0.0 && d > 0.0
    ensures p * d > 0.0
  {
  }

  // ---------- No better price does it ----------

  lemma Quotient(q: real, x: real, d: real)
    requires d > 0.0
    ensures q <= x / d <==> q * d <= x
    ensures q >= x / d <==> q * d >= x
  {
    assert (x / d) * d == x;
    if q <= x / d {
      Multiply(q, x / d, d);
    } else {
      Below(x / d, q, d);
    }
    if q >= x / d {
      Multiply(x / d, q, d);
    } else {
      Below(q, x / d, d);
    }
  }

  lemma Below(p: real, q: real, d: real)
    requires p < q && d > 0.0
    ensures p * d < q * d
  {
  }

  /** An HL buy asks the highest price that is at most the HL bid and still leaves the entry spread
      below the Lighter bid. */
  lemma HlBuyIsHighest(config: HedgerConfig, snapshot: SpreadSnapshot, gate: SignalGate, q: real)
    requires BothBooks(snapshot) && gate.direction.ShortLighterLongHl?
    ensures q <= HlMakerOrder(config, snapshot, gate).price
            <==> q <= snapshot.hl.bid && q * (1.0 + gate.entrySpreadBps / 10000.0) <= snapshot.lighter.bid
  {
    Quotient(q, snapshot.lighter.bid, 1.0 + gate.entrySpreadBps / 10000.0);
  }

  /** An HL sell asks the lowest price that is at least the HL ask and leaves the entry spread above
      the Lighter ask; from 100% on, where no price does, it asks the HL ask. */
  lemma HlSellIsLowest(config: HedgerConfig, snapshot: SpreadSnapshot, gate: SignalGate, q: real)
    requires BothBooks(snapshot) && gate.direction.LongLighterShortHl?
    ensures
      var price, r := HlMakerOrder(config, snapshot, gate).price, gate.entrySpreadBps / 10000.0;
      if r < 1.0 then q >= price <==> q >= snapshot.hl.ask && q * (1.0 - r) >= snapshot.lighter.ask
      else price == snapshot.hl.ask
  {
    var r := gate.entrySpreadBps / 10000.0;
    if r < 1.0 {
      Quotient(q, snapshot.lighter.ask, 1.0 - r);
    }
  }

  /** A Lighter sell asks the lowest price that is at least the Lighter ask and leaves the entry
      spread above the HL ask. */
  lemma LighterSellIsLowest(config: HedgerConfig, snapshot: SpreadSnapshot, gate: SignalGate, q: real)
    requires BothBooks(snapshot) && gate.direction.ShortLighterLongHl?
    ensures q >= LighterMakerOrder(config, snapshot, gate).price
            <==> q >= snapshot.lighter.ask && q >= snapshot.hl.ask * (1.0 + gate.entrySpreadBps / 10000.0)
  {
  }

  /** A Lighter buy asks the highest price that is at most the Lighter bid and leaves the entry spread
      below the HL bid. */
  lemma LighterBuyIsHighest(config: HedgerConfig, snapshot: SpreadSnapshot, gate: SignalGate, q: real)
    requires BothBooks(snapshot) && gate.direction.LongLighterShortHl?
    ensures q <= LighterMakerOrder(config, snapshot, gate).price
            <==> q <= snapshot.lighter.bid && q <= snapshot.hl.bid * (1.0 - gate.entrySpreadBps / 10000.0)
  {
    LighterBuyTarget(snapshot, gate.entrySpreadBps);
  }

  /** Either order is worth the pair size at the average mid. */
  lemma OrderIsWorthPairSize(config: HedgerConfig, snapshot: SpreadSnapshot, gate: SignalGate)
    requires BothBooks(snapshot)
    ensures
      var total := snapshot.hl.bid + snapshot.hl.ask + snapshot.lighter.bid + snapshot.lighter.ask;
      && HlMakerOrder(config, snapshot, gate).sizeBase * total == 4.0 * config.pairSizeUsd
      && LighterMakerOrder(config, snapshot, gate).sizeBase * total == 4.0 * config.pairSizeUsd
  {
    var mid := (snapshot.lighter.Mid() + snapshot.hl.Mid()) / 2.0;
    assert (config.pairSizeUsd / mid) * mid == config.pairSizeUsd;
    FourFold(config.pairSizeUsd / mid, mid, config.pairSizeUsd);
    assert 4.0 * mid == snapshot.hl.bid + snapshot.hl.ask + snapshot.lighter.bid + snapshot.lighter.ask;
  }

  lemma FourFold(x: real, y: real, z: real)
    requires x * y == z
    ensures x * (4.0 * y) == 4.0 * z
  {
  }
}
