/** The plain records and enumerations shared by both engines. Prices, sizes and
    spreads are `real`; times are milliseconds as `int`. */
module Types {

  datatype Option<+T> = None | Some(value: T)

  /** Which leg is bought: `ShortLighterLongHl` buys on Hyperliquid and sells on Lighter. */
  datatype Direction = ShortLighterLongHl | LongLighterShortHl

  /** A size with the sign it has on the Hyperliquid book. */
  function Signed(d: Direction, size: real): real {
    if d.ShortLighterLongHl? then size else -size
  }

  function SideSigned(isBuy: bool, size: real): real {
    if isBuy then size else -size
  }

  function Abs(x: real): real {
    if x < 0.0 then -x else x
  }

  datatype StrategyState =
    | Idle
    | PendingHlMaker
    | CancelledPendingConfirm
    | HlFilledPendingLighterHedge
    | PendingLighterMaker
    | CancelledPendingLighterConfirm
    | LighterFilledPendingHlHedge
    | Open
    | UnwindingHl
    | UnwindingLighter
    | Error

  datatype Bbo = Bbo(bid: real, ask: real, quoteAgeMs: int) {
    function Mid(): real {
      if bid <= 0.0 || ask <= 0.0 then 0.0 else (bid + ask) / 2.0
    }
  }

  datatype SpreadSnapshot = SpreadSnapshot(lighter: Bbo, hl: Bbo, crossSpreadBps: real) {
    predicate Valid(maxQuoteAgeMs: int) {
      && lighter.Mid() > 0.0
      && hl.Mid() > 0.0
      && lighter.quoteAgeMs <= maxQuoteAgeMs
      && hl.quoteAgeMs <= maxQuoteAgeMs
    }
  }

  datatype TradeEvent = TradeEvent(price: real, size: real, exchangeTimeMs: int)

  datatype StrategyConfig = StrategyConfig(
    spreadBps: real,
    closeSpreadBps: real,
    cancelBandBps: real,
    pairSizeUsd: real,
    maxPositionUsd: real,
    maxQuoteAgeMs: int,
    minRearmMs: int)

  datatype MakerOrder = MakerOrder(
    direction: Direction,
    isBuy: bool,
    price: real,
    sizeBase: real,
    triggerSpreadBps: real,
    entrySpreadBps: real)

  datatype OpenPosition = OpenPosition(
    direction: Direction,
    sizeBase: real,
    hlFillPrice: real,
    lighterFillPrice: real)

  datatype HedgeIntent = HedgeIntent(isAsk: bool, limitPrice: real, sizeBase: real)

  datatype HlHedgeIntent = HlHedgeIntent(isBuy: bool, limitPrice: real, sizeBase: real)

  datatype Action =
    | NoAction
    | PlaceHlMaker(order: MakerOrder)
    | CancelHlMaker(order: MakerOrder)
    | PlaceLighterMaker(order: MakerOrder)
    | CancelLighterMaker(order: MakerOrder)
    | SendLighterTakerHedge(hedge: HedgeIntent)
    | SendHlTakerHedge(hlHedge: HlHedgeIntent)
    | UnwindHlPosition
    | UnwindLighterPosition

  /** Thresholds are never negative, so a gate's entry spread is not either. */
  type Threshold = t: real | t >= 0.0

  datatype SignalGate = SignalGate(armed: bool, direction: Direction, entrySpreadBps: Threshold)

  const UNARMED_GATE := SignalGate(false, ShortLighterLongHl, 0.0)

  /** The mutable part of either strategy object. */
  datatype Strategy = Strategy(
    state: StrategyState,
    gate: SignalGate,
    pending: Option<MakerOrder>,
    open: Option<OpenPosition>,
    lastDisarmMs: int)

  const FRESH_STRATEGY := Strategy(Idle, UNARMED_GATE, None, None, 0)

  /** What both strategy constructors demand; anything else makes them throw. */
  predicate Accepted(config: StrategyConfig) {
    config.spreadBps > 0.0 && config.cancelBandBps >= 0.0
  }

  /** A configuration that a strategy object can hold. */
  type HedgerConfig = c: StrategyConfig | Accepted(c)
    witness StrategyConfig(2.0, 0.0, 0.5, 25.0, 100.0, 1500, 500)
}
