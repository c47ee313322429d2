/** Threshold and price arithmetic of the two strategies, over the reals. */
module Pricing {
  import opened Types

  const TAKER_SLIPPAGE_BPS := 10.0

  function DirectionForSpread(crossSpreadBps: real): Direction {
    if crossSpreadBps >= 0.0 then ShortLighterLongHl else LongLighterShortHl
  }

  function CancelThreshold(config: HedgerConfig, entrySpreadBps: real): real {
    var threshold := entrySpreadBps - config.cancelBandBps;
    if threshold > 0.0 then threshold else 0.0
  }

  predicate CanArm(config: HedgerConfig, lastDisarmMs: int, nowMs: int) {
    nowMs - lastDisarmMs >= config.minRearmMs
  }

  predicate WouldReduce(crossSpreadBps: real, hlPositionBase: real) {
    var direction := DirectionForSpread(crossSpreadBps);
    || (hlPositionBase < 0.0 && direction == ShortLighterLongHl)
    || (hlPositionBase > 0.0 && direction == LongLighterShortHl)
  }

  function EffectiveSpread(config: HedgerConfig, crossSpreadBps: real, hlPositionBase: real): Threshold {
    var close := if config.closeSpreadBps > 0.0 then config.closeSpreadBps else config.spreadBps;
    if close >= config.spreadBps then config.spreadBps
    else if WouldReduce(crossSpreadBps, hlPositionBase) then close
    else config.spreadBps
  }

  function Min(a: real, b: real): real {
    if b < a then b else a
  }

  function Max(a: real, b: real): real {
    if a < b then b else a
  }

  function AggressiveLighterPrice(snapshot: SpreadSnapshot, direction: Direction): real {
    var mid := snapshot.lighter.Mid();
    if mid <= 0.0 then 0.0
    else if direction.ShortLighterLongHl? then mid * (1.0 - TAKER_SLIPPAGE_BPS / 10000.0)
    else mid * (1.0 + TAKER_SLIPPAGE_BPS / 10000.0)
  }

  function AggressiveHlPrice(snapshot: SpreadSnapshot, direction: Direction): real {
    if direction.ShortLighterLongHl? then snapshot.hl.ask * (1.0 + TAKER_SLIPPAGE_BPS / 10000.0)
    else snapshot.hl.bid * (1.0 - TAKER_SLIPPAGE_BPS / 10000.0)
  }

  /** Hyperliquid maker price that leaves the spread against the Lighter taker side. */
  function LighterAnchoredHlPrice(snapshot: SpreadSnapshot, direction: Direction, spreadBps: Threshold): real {
    var ratio := spreadBps / 10000.0;
    if direction.ShortLighterLongHl? then
      if snapshot.lighter.bid <= 0.0 then 0.0 else snapshot.lighter.bid / (1.0 + ratio)
    else
      if snapshot.lighter.ask <= 0.0 || ratio >= 1.0 then 0.0 else snapshot.lighter.ask / (1.0 - ratio)
  }

  function HlAnchoredLighterPrice(snapshot: SpreadSnapshot, direction: Direction, spreadBps: Threshold): real {
    var ratio := spreadBps / 10000.0;
    if direction.ShortLighterLongHl? then
      if snapshot.hl.ask <= 0.0 then 0.0 else snapshot.hl.ask * (1.0 + ratio)
    else
      if snapshot.hl.bid <= 0.0 then 0.0 else snapshot.hl.bid * (1.0 - ratio)
  }

  function PairSize(config: HedgerConfig, snapshot: SpreadSnapshot): real {
    var avgMid := (snapshot.lighter.Mid() + snapshot.hl.Mid()) / 2.0;
    if avgMid > 0.0 then config.pairSizeUsd / avgMid else 0.0
  }

  function HlMakerOrder(config: HedgerConfig, snapshot: SpreadSnapshot, gate: SignalGate): MakerOrder {
    var target := LighterAnchoredHlPrice(snapshot, gate.direction, gate.entrySpreadBps);
    var isBuy := gate.direction.ShortLighterLongHl?;
    MakerOrder(
      gate.direction,
      isBuy,
      if isBuy then Min(target, snapshot.hl.bid) else Max(target, snapshot.hl.ask),
      PairSize(config, snapshot),
      snapshot.crossSpreadBps,
      gate.entrySpreadBps)
  }

  function LighterMakerOrder(config: HedgerConfig, snapshot: SpreadSnapshot, gate: SignalGate): MakerOrder {
    var target := HlAnchoredLighterPrice(snapshot, gate.direction, gate.entrySpreadBps);
    var isBuy := gate.direction.LongLighterShortHl?;
    MakerOrder(
      gate.direction,
      isBuy,
      if isBuy then Min(target, snapshot.lighter.bid) else Max(target, snapshot.lighter.ask),
      PairSize(config, snapshot),
      snapshot.crossSpreadBps,
      gate.entrySpreadBps)
  }
}
