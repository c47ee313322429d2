/** The forward execution engine as functions of its state: what each event does to the
    engine and which requests it sends. The exchanges answer through `Answers`. */
module HlEngine {
  import opened Types
  import opened Pricing
  import HlMaker

  datatype EngineConfig = EngineConfig(
    strategy: HedgerConfig,
    hlOrderIntervalMs: int,
    specHedgeMinCrossBps: real,
    specHedgeMinTradeRatio: real)

  datatype Engine = Engine(
    strategy: Strategy,
    activeOid: Option<string>,
    recentOids: set<string>,
    lastMakerDirection: Direction,
    hlPositionBase: real,
    specSent: bool,
    specSize: real,
    specOid: string,
    placedEpochMs: int,
    lastPlaceMs: int,
    lastCancelMs: int,
    deferred: Option<Action>,
    nextRetryMs: Option<int>)

  const FRESH_ENGINE :=
    Engine(FRESH_STRATEGY, None, {}, ShortLighterLongHl, 0.0, false, 0.0, "", 0, 0, 0, None, None)

  /** What the engine sends; `atMs` is the steady clock the rate limiter read. */
  datatype Request =
    | HlPlace(isBuy: bool, price: real, size: real, atMs: int)
    | HlCancel(oid: string, atMs: int)
    | HlReduce(isBuy: bool, size: real)
    | LighterIoc(isAsk: bool, price: real, size: real)

  /** What the clocks and exchanges answer while one event is handled. No event sends more than
      one request of a kind; a deferred action reads `steadyMs`, a fresh one `laterMs`. */
  datatype Answers = Answers(
    steadyMs: int,
    laterMs: int,
    wallMs: int,
    placeOk: bool,
    placeOid: string,
    cancelOk: bool,
    iocOk: bool,
    iocConfirmed: bool,
    reduceOk: bool)

  /** The new state, the requests in order, and whether any event was logged (a logged
      deferred action ends the market-data handler). */
  datatype Effect = Effect(engine: Engine, sent: seq<Request>, logged: bool)

  const HEDGE_SLIPPAGE_BPS := 10.0
  const URGENT_SLIPPAGE_BPS := 15.0
  const MATCH_TOLERANCE := 0.001

  function CollectSnapshot(hl: Bbo, lighter: Bbo): SpreadSnapshot {
    var avgMid := (hl.Mid() + lighter.Mid()) / 2.0;
    SpreadSnapshot(lighter, hl, if avgMid > 0.0 then ((lighter.Mid() - hl.Mid()) / avgMid) * 10000.0 else 0.0)
  }

  /** Limit price that crosses the Lighter book by `slippageBps`. */
  function TakerPrice(snapshot: SpreadSnapshot, isAsk: bool, slippageBps: real): real {
    var mid := snapshot.lighter.Mid();
    if isAsk then mid * (1.0 - slippageBps / 10000.0) else mid * (1.0 + slippageBps / 10000.0)
  }

  predicate PositionLimitReached(config: EngineConfig, e: Engine, mid: real) {
    mid > 0.0 && Abs(e.hlPositionBase) * mid >= config.strategy.maxPositionUsd
  }

  predicate WouldIncrease(e: Engine, isBuy: bool) {
    (e.hlPositionBase >= 0.0 && isBuy) || (e.hlPositionBase < 0.0 && !isBuy)
  }

  predicate Blocked(config: EngineConfig, e: Engine, snapshot: SpreadSnapshot, order: MakerOrder) {
    PositionLimitReached(config, e, snapshot.hl.Mid()) && WouldIncrease(e, order.isBuy)
  }

  function PlaceRetryAt(config: EngineConfig, e: Engine, nowMs: int): Option<int> {
    if nowMs - e.lastPlaceMs >= config.hlOrderIntervalMs then None
    else Some(e.lastPlaceMs + config.hlOrderIntervalMs)
  }

  function CancelRetryAt(config: EngineConfig, e: Engine, nowMs: int): Option<int> {
    if nowMs - e.lastCancelMs >= config.hlOrderIntervalMs then None
    else Some(e.lastCancelMs + config.hlOrderIntervalMs)
  }

  function ResetStrategy(e: Engine): Engine {
    e.(strategy := HlMaker.Reset(e.strategy))
  }

  function ClearSpeculation(e: Engine): Engine {
    e.(specSent := false, specSize := 0.0, specOid := "")
  }

  /** An acknowledged order replaces all memory of older ones. */
  function Acknowledge(e: Engine, order: MakerOrder, a: Answers): Engine {
    ClearSpeculation(e.(activeOid := Some(a.placeOid),
                        recentOids := {a.placeOid},
                        lastMakerDirection := order.direction,
                        placedEpochMs := a.wallMs))
  }

  function ExecutePlace(config: EngineConfig, e: Engine, order: MakerOrder, snapshot: SpreadSnapshot,
                        nowMs: int, a: Answers): Effect {
    if Blocked(config, e, snapshot, order) then Effect(ResetStrategy(e), [], false) else
    var retry := PlaceRetryAt(config, e, nowMs);
    if retry.Some? then Effect(e.(deferred := Some(PlaceHlMaker(order)), nextRetryMs := retry), [], false) else
    var placed := e.(lastPlaceMs := nowMs, nextRetryMs := None, deferred := None);
    var request := HlPlace(order.isBuy, order.price, order.sizeBase, nowMs);
    Effect(if a.placeOk then Acknowledge(placed, order, a) else placed, [request], true)
  }

  function ExecuteCancel(config: EngineConfig, e: Engine, order: MakerOrder, snapshot: SpreadSnapshot,
                         nowMs: int, a: Answers): Effect {
    var retry := CancelRetryAt(config, e, nowMs);
    if retry.Some? then Effect(e.(deferred := Some(CancelHlMaker(order)), nextRetryMs := retry), [], false) else
    var asked := e.(lastCancelMs := nowMs, nextRetryMs := None, deferred := None);
    if e.activeOid.None? then Effect(asked, [], true) else
    var request := HlCancel(e.activeOid.value, nowMs);
    if !a.cancelOk then Effect(asked, [request], true) else
    var specWasAsk := e.lastMakerDirection.ShortLighterLongHl?;
    var unwind := LighterIoc(!specWasAsk, TakerPrice(snapshot, !specWasAsk, URGENT_SLIPPAGE_BPS), e.specSize);
    Effect(
      ResetStrategy(ClearSpeculation(asked.(activeOid := None))),
      if e.specSent then [request, unwind] else [request],
      true)
  }

  function ExecuteUnwind(e: Engine): Effect {
    var open := e.strategy.open;
    var isBuy := open.Some? && open.value.direction.LongLighterShortHl?;
    Effect(e, [HlReduce(isBuy, if open.Some? then open.value.sizeBase else 0.0)], true)
  }

  function ExecuteHedge(e: Engine, hedge: HedgeIntent, a: Answers): Effect {
    var request := LighterIoc(hedge.isAsk, hedge.limitPrice, hedge.sizeBase);
    if a.iocOk && a.iocConfirmed then
      Effect(ResetStrategy(e.(strategy := HlMaker.OnHedgeFill(e.strategy, hedge.limitPrice))), [request], true)
    else
      var (s, action) := HlMaker.OnHedgeReject(e.strategy);
      var rejected := e.(strategy := s);
      Effect(rejected, [request] + (if action.UnwindHlPosition? then ExecuteUnwind(rejected).sent else []), true)
  }

  function ExecuteAction(config: EngineConfig, e: Engine, action: Action, snapshot: SpreadSnapshot,
                         nowMs: int, a: Answers): Effect {
    match action
    case PlaceHlMaker(order) => ExecutePlace(config, e, order, snapshot, nowMs, a)
    case CancelHlMaker(order) => ExecuteCancel(config, e, order, snapshot, nowMs, a)
    case SendLighterTakerHedge(hedge) => ExecuteHedge(e, hedge, a)
    case UnwindHlPosition => ExecuteUnwind(e)
    case _ => Effect(e, [], false)
  }

  function ExecuteDeferred(config: EngineConfig, e: Engine, nowMs: int, snapshot: SpreadSnapshot, a: Answers): Effect {
    if e.deferred.None? || (e.nextRetryMs.Some? && nowMs < e.nextRetryMs.value) then Effect(e, [], false)
    else ExecuteAction(config, e.(deferred := None, nextRetryMs := None), e.deferred.value, snapshot, a.steadyMs, a)
  }

  /** The part of a tick that asks the strategy. */
  function Decide(config: EngineConfig, e: Engine, nowMs: int, snapshot: SpreadSnapshot, a: Answers): Effect {
    var (s, action) := HlMaker.OnMarketSnapshot(config.strategy, e.strategy, snapshot, nowMs, e.hlPositionBase);
    var decided := e.(strategy := s);
    if action.PlaceHlMaker? && Blocked(config, decided, snapshot, action.order)
    then Effect(ResetStrategy(decided), [], false)
    else ExecuteAction(config, decided, action, snapshot, a.laterMs, a)
  }

  function OnMarketData(config: EngineConfig, e: Engine, nowMs: int, snapshot: SpreadSnapshot, a: Answers): Effect {
    var d := ExecuteDeferred(config, e, nowMs, snapshot, a);
    if d.logged then d else Decide(config, d.engine, nowMs, snapshot, a)
  }

  function MoveHlPosition(e: Engine, fillSize: real): Engine {
    e.(hlPositionBase := e.hlPositionBase + Signed(e.lastMakerDirection, fillSize))
  }

  /** Forget the order and the strategy's view of it. */
  function CloseOrder(e: Engine, oid: string): Engine {
    ResetStrategy(e.(recentOids := e.recentOids - {oid}, activeOid := None))
  }

  /** A fill of the order that a speculative hedge already covers. */
  function Reconcile(e: Engine, fillSize: real, snapshot: SpreadSnapshot, oid: string): Effect {
    var diff := fillSize - e.specSize;
    var specWasAsk := e.lastMakerDirection.ShortLighterLongHl?;
    var moved := MoveHlPosition(e, fillSize);
    if Abs(diff) < MATCH_TOLERANCE then
      Effect(ClearSpeculation(CloseOrder(moved, oid)), [], true)
    else if diff > MATCH_TOLERANCE then
      Effect(ClearSpeculation(CloseOrder(moved, oid)),
             [LighterIoc(specWasAsk, TakerPrice(snapshot, specWasAsk, HEDGE_SLIPPAGE_BPS), diff)], true)
    else
      Effect(ClearSpeculation(moved),
             [LighterIoc(!specWasAsk, TakerPrice(snapshot, !specWasAsk, URGENT_SLIPPAGE_BPS), -diff)], true)
  }

  /** A fill with no speculative hedge outstanding: hedge it, or take it back if the hedge fails. */
  function HedgeFill(e: Engine, fillSize: real, snapshot: SpreadSnapshot, a: Answers): Effect {
    var isAsk := e.lastMakerDirection.ShortLighterLongHl?;
    var hedge := LighterIoc(isAsk, TakerPrice(snapshot, isAsk, HEDGE_SLIPPAGE_BPS), fillSize);
    var closed := ResetStrategy(e.(activeOid := None));
    if a.iocOk && a.iocConfirmed then Effect(MoveHlPosition(closed, fillSize), [hedge], true)
    else Effect(closed, [hedge, HlReduce(!isAsk, fillSize)], true)
  }

  predicate AcceptsFill(e: Engine, oid: string) {
    oid in e.recentOids
  }

  function OnHlFill(e: Engine, fillSize: real, snapshot: SpreadSnapshot, oid: string, a: Answers): Effect {
    if !AcceptsFill(e, oid) then Effect(e, [], false)
    else if e.specSent && oid == e.specOid then Reconcile(e, fillSize, snapshot, oid)
    else HedgeFill(e, fillSize, snapshot, a)
  }

  /** The price a trade must reach to count as having gone through the resting order. */
  function CrossThreshold(config: EngineConfig, order: MakerOrder): real {
    if order.isBuy then order.price * (1.0 - config.specHedgeMinCrossBps / 10000.0)
    else order.price * (1.0 + config.specHedgeMinCrossBps / 10000.0)
  }

  predicate TooSmall(config: EngineConfig, order: MakerOrder, trade: TradeEvent) {
    && config.specHedgeMinTradeRatio > 0.0
    && order.sizeBase > 0.0
    && trade.size / order.sizeBase < config.specHedgeMinTradeRatio
  }

  predicate Crosses(config: EngineConfig, order: MakerOrder, trade: TradeEvent) {
    && (if order.isBuy then trade.price <= CrossThreshold(config, order) else trade.price >= CrossThreshold(config, order))
    && !TooSmall(config, order, trade)
  }

  /** A public trade triggers a speculative hedge of the resting order. */
  predicate Speculates(config: EngineConfig, e: Engine, trade: TradeEvent, snapshot: SpreadSnapshot) {
    && e.activeOid.Some?
    && e.strategy.pending.Some?
    && !e.specSent
    && !(trade.exchangeTimeMs > 0 && e.placedEpochMs > 0 && trade.exchangeTimeMs < e.placedEpochMs)
    && Crosses(config, e.strategy.pending.value, trade)
    && snapshot.Valid(config.strategy.maxQuoteAgeMs)
  }

  function OnTradeEvent(config: EngineConfig, e: Engine, trade: TradeEvent, snapshot: SpreadSnapshot, a: Answers): Effect {
    if !Speculates(config, e, trade, snapshot) then Effect(e, [], false) else
    var order := e.strategy.pending.value;
    var isAsk := order.direction.ShortLighterLongHl?;
    var hedge := LighterIoc(isAsk, TakerPrice(snapshot, isAsk, URGENT_SLIPPAGE_BPS), order.sizeBase);
    if a.iocOk && a.iocConfirmed
    then Effect(e.(specSent := true, specSize := order.sizeBase, specOid := e.activeOid.value), [hedge], true)
    else Effect(ClearSpeculation(e), [hedge], true)
  }

  function OnHedgeReject(config: EngineConfig, e: Engine, snapshot: SpreadSnapshot, a: Answers): Effect {
    var (s, action) := HlMaker.OnHedgeReject(e.strategy);
    ExecuteAction(config, e.(strategy := s), action, snapshot, a.laterMs, a)
  }

  function OnHedgeFill(e: Engine, fillPrice: real): Effect {
    Effect(e.(strategy := HlMaker.OnHedgeFill(e.strategy, fillPrice)), [], false)
  }
}
