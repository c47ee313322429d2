/** What the forward engine sends and when, event by event, in terms of the quotes, the configuration
    and what it remembers. Each law is exact: the request goes out if and only if. */
module HlDecisions {
  import opened Types
  import opened Pricing
  import opened Books
  import opened HlEngine
  import opened HlLedger
  import opened HlLifecycle
  import HlMaker
  import HlGate
  import PriceLaws
  import SpreadLaws

  // ---------- In terms of the quotes ----------

  /** The threshold for a trade on the side of `gap`: the closing one if it is configured below the
      opening one and the trade is against the position. */
  function ThresholdFor(config: HedgerConfig, gap: real, position: real): Threshold {
    if 0.0 < config.closeSpreadBps < config.spreadBps
       && ((gap >= 0.0 && position < 0.0) || (gap < 0.0 && position > 0.0))
    then config.closeSpreadBps else config.spreadBps
  }

  lemma ThresholdInForce(config: HedgerConfig, s: SpreadSnapshot, position: real)
    requires Measures(s) && Quoted(s.hl) && Quoted(s.lighter)
    ensures EffectiveSpread(config, s.crossSpreadBps, position) == ThresholdFor(config, Gap(s.hl, s.lighter), position)
  {
    MeasuredSpread(s, 0.0);
  }

  /** The position is worth the limit at the HL mid, and an order on this side would increase it. */
  predicate AtLimit(config: EngineConfig, position: real, hl: Bbo, isBuy: bool) {
    && Abs(position) * (hl.bid + hl.ask) >= 2.0 * config.strategy.maxPositionUsd
    && (if position >= 0.0 then isBuy else !isBuy)
  }

  lemma HalfMid(x: real, bid: real, ask: real)
    ensures 2.0 * (x * ((bid + ask) / 2.0)) == x * (bid + ask)
  {
    var mid := (bid + ask) / 2.0;
    assert bid + ask == 2.0 * mid;
  }

  /** An order is blocked exactly when there is an HL mid at which the limit is reached, and the order
      would increase the position. */
  lemma BlockedExactlyAtLimit(config: EngineConfig, e: Engine, snapshot: SpreadSnapshot, order: MakerOrder)
    ensures Blocked(config, e, snapshot, order)
            <==> Quoted(snapshot.hl) && AtLimit(config, e.hlPositionBase, snapshot.hl, order.isBuy)
  {
    HalfMid(Abs(e.hlPositionBase), snapshot.hl.bid, snapshot.hl.ask);
  }

  predicate Holds(hl: Bbo, lighter: Bbo, order: MakerOrder, cancelBandBps: real) {
    && (order.direction.ShortLighterLongHl? <==> Gap(hl, lighter) >= 0.0)
    && Reaches(hl, lighter, order.entrySpreadBps - cancelBandBps)
  }

  lemma HoldsOnQuotes(config: HedgerConfig, s: SpreadSnapshot, order: MakerOrder)
    requires Measures(s) && Quoted(s.hl) && Quoted(s.lighter)
    ensures HlGate.Holds(config, order, s.crossSpreadBps) <==> Holds(s.hl, s.lighter, order, config.cancelBandBps)
  {
    MeasuredSpread(s, order.entrySpreadBps - config.cancelBandBps);
  }

  // ---------- Placements ----------

  predicate NothingDue(e: Engine, tick: Event)
    requires tick.Tick?
  {
    e.deferred.None? || (e.nextRetryMs.Some? && tick.nowMs < e.nextRetryMs.value)
  }

  /** A buy of the highest, or a sell of the lowest price that stays on its side of the HL book and
      leaves the spread against the Lighter taker side. */
  ghost predicate BestPrice(hl: Bbo, lighter: Bbo, spreadBps: real, isBuy: bool, price: real) {
    var r := spreadBps / 10000.0;
    if isBuy then
      BuyFits(price, hl.bid, lighter.bid, r) && forall q :: BuyFits(q, hl.bid, lighter.bid, r) ==> q <= price
    else if r < 1.0 then
      SellFits(price, hl.ask, lighter.ask, r) && forall q :: SellFits(q, hl.ask, lighter.ask, r) ==> q >= price
    else price == hl.ask
  }

  predicate BuyFits(q: real, own: real, other: real, r: real) {
    q <= own && q * (1.0 + r) <= other
  }

  predicate SellFits(q: real, own: real, other: real, r: real) {
    q >= own && q * (1.0 - r) >= other
  }

  /** The order that these books call for. */
  ghost predicate CalledFor(config: HedgerConfig, hl: Bbo, lighter: Bbo, position: real,
                            isBuy: bool, price: real, size: real) {
    && (isBuy <==> Gap(hl, lighter) >= 0.0)
    && size * Total(hl, lighter) == 4.0 * config.pairSizeUsd
    && BestPrice(hl, lighter, ThresholdFor(config, Gap(hl, lighter), position), isBuy, price)
  }

  lemma BuyIsBest(config: HedgerConfig, s: SpreadSnapshot, gate: SignalGate)
    requires Quoted(s.hl) && Quoted(s.lighter) && gate.direction.ShortLighterLongHl?
    ensures BestPrice(s.hl, s.lighter, gate.entrySpreadBps, true, HlMakerOrder(config, s, gate).price)
  {
    var r, price := gate.entrySpreadBps / 10000.0, HlMakerOrder(config, s, gate).price;
    forall q ensures BuyFits(q, s.hl.bid, s.lighter.bid, r) <==> q <= price {
      PriceLaws.HlBuyIsHighest(config, s, gate, q);
    }
  }

  lemma SellIsBest(config: HedgerConfig, s: SpreadSnapshot, gate: SignalGate)
    requires Quoted(s.hl) && Quoted(s.lighter) && gate.direction.LongLighterShortHl?
    ensures BestPrice(s.hl, s.lighter, gate.entrySpreadBps, false, HlMakerOrder(config, s, gate).price)
  {
    var r, price := gate.entrySpreadBps / 10000.0, HlMakerOrder(config, s, gate).price;
    if r < 1.0 {
      forall q ensures SellFits(q, s.hl.ask, s.lighter.ask, r) <==> q >= price {
        PriceLaws.HlSellIsLowest(config, s, gate, q);
      }
    } else {
      PriceLaws.HlSellIsLowest(config, s, gate, price);
    }
  }

  /** The gate that a snapshot at the threshold arms. */
  function ArmedGate(config: HedgerConfig, s: SpreadSnapshot, position: real): SignalGate {
    SignalGate(true, DirectionForSpread(s.crossSpreadBps), EffectiveSpread(config, s.crossSpreadBps, position))
  }

  lemma OrderIsCalledFor(config: HedgerConfig, s: SpreadSnapshot, position: real, order: MakerOrder)
    requires Measures(s) && Quoted(s.hl) && Quoted(s.lighter)
    requires order == HlMakerOrder(config, s, ArmedGate(config, s, position))
    ensures CalledFor(config, s.hl, s.lighter, position, order.isBuy, order.price, order.sizeBase)
  {
    var gate := ArmedGate(config, s, position);
    MeasuredSpread(s, 0.0);
    ThresholdInForce(config, s, position);
    PriceLaws.OrderIsWorthPairSize(config, s, gate);
    if order.isBuy {
      BuyIsBest(config, s, gate);
    } else {
      SellIsBest(config, s, gate);
    }
  }

  /** An idle strategy has to trade on these books now. */
  predicate Triggers(config: EngineConfig, e: Engine, tick: Event)
    requires tick.Tick?
  {
    var gap := Gap(tick.hl, tick.lighter);
    && Usable(tick.hl, tick.lighter, config.strategy.maxQuoteAgeMs)
    && Reaches(tick.hl, tick.lighter, ThresholdFor(config.strategy, gap, e.hlPositionBase))
    && tick.nowMs - e.strategy.lastDisarmMs >= config.strategy.minRearmMs
    && !AtLimit(config, e.hlPositionBase, tick.hl, gap >= 0.0)
  }

  /** An idle strategy on one snapshot, in terms of the functions of the model. */
  lemma DecideIdle(config: EngineConfig, e: Engine, nowMs: int, s: SpreadSnapshot, a: Answers, order: MakerOrder)
    requires HlGate.GateMatches(e.strategy) && e.strategy.state.Idle?
    requires order == HlMakerOrder(config.strategy, s, ArmedGate(config.strategy, s, e.hlPositionBase))
    ensures
      var effect := Decide(config, e, nowMs, s, a);
      var places := && s.Valid(config.strategy.maxQuoteAgeMs)
                    && Abs(s.crossSpreadBps) >= EffectiveSpread(config.strategy, s.crossSpreadBps, e.hlPositionBase)
                    && CanArm(config.strategy, e.strategy.lastDisarmMs, nowMs)
                    && !Blocked(config, e, s, order);
      && effect.sent == (if places && PlaceRetryAt(config, e, a.laterMs).None?
                         then [HlPlace(order.isBuy, order.price, order.sizeBase, a.laterMs)] else [])
      && (effect.engine.strategy.state.PendingHlMaker? <==> places)
      && (!places ==> effect.engine.strategy.state.Idle? && effect.engine.deferred == e.deferred)
      && (places && PlaceRetryAt(config, e, a.laterMs).Some? ==>
            effect.engine.deferred == Some(PlaceHlMaker(order)) && effect.engine.nextRetryMs == PlaceRetryAt(config, e, a.laterMs))
  {
  }

  lemma TriggersAre(config: EngineConfig, e: Engine, tick: Event, s: SpreadSnapshot, order: MakerOrder)
    requires tick.Tick? && s.hl == tick.hl && s.lighter == tick.lighter
    requires Quoted(s.hl) && Quoted(s.lighter) ==> Measures(s)
    requires order.isBuy == DirectionForSpread(s.crossSpreadBps).ShortLighterLongHl?
    ensures Triggers(config, e, tick)
            <==> && s.Valid(config.strategy.maxQuoteAgeMs)
                 && Abs(s.crossSpreadBps) >= EffectiveSpread(config.strategy, s.crossSpreadBps, e.hlPositionBase)
                 && CanArm(config.strategy, e.strategy.lastDisarmMs, tick.nowMs)
                 && !Blocked(config, e, s, order)
  {
    ValidIsUsable(s, config.strategy.maxQuoteAgeMs);
    if s.Valid(config.strategy.maxQuoteAgeMs) {
      ThresholdInForce(config.strategy, s, e.hlPositionBase);
      MeasuredSpread(s, EffectiveSpread(config.strategy, s.crossSpreadBps, e.hlPositionBase));
      BlockedExactlyAtLimit(config, e, s, order);
    }
  }

  /** With nothing due a tick is the strategy's decision. */
  lemma TickDecides(config: EngineConfig, e: Engine, tick: Event)
    requires tick.Tick? && NothingDue(e, tick)
    ensures React(config, e, tick) == Decide(config, e, tick.nowMs, CollectSnapshot(tick.hl, tick.lighter), tick.answers)
  {
  }

  /** The engine after a tick that parks the order these books call for. */
  ghost predicate ParksCalledFor(config: EngineConfig, e: Engine, tick: Event, e': Engine)
    requires tick.Tick?
  {
    && DefersPlacement(e')
    && e'.nextRetryMs == Some(e.lastPlaceMs + config.hlOrderIntervalMs)
    && var order := e'.deferred.value.order;
       CalledFor(config.strategy, tick.hl, tick.lighter, e.hlPositionBase, order.isBuy, order.price, order.sizeBase)
  }

  /** The requests of a tick that sends the order these books call for. */
  ghost predicate SendsCalledFor(config: EngineConfig, e: Engine, tick: Event, sent: seq<Request>)
    requires tick.Tick?
  {
    && |sent| == 1 && sent[0].HlPlace? && sent[0].atMs == tick.answers.laterMs
    && CalledFor(config.strategy, tick.hl, tick.lighter, e.hlPositionBase, sent[0].isBuy, sent[0].price, sent[0].size)
  }

  /** With nothing due, an idle engine places exactly when both books are whole and fresh, the spread
      reaches the threshold, the rearm time has passed, the position limit allows the side and the
      rate limiter lets it pass. The order is the one the books call for. If only the rate limiter is
      in the way, that order is parked until its interval is over. */
  lemma IdleEnginePlaces(config: EngineConfig, w: World, tick: Event)
    requires Sound(w) && HlGate.GateMatches(w.engine.strategy) && w.engine.strategy.state.Idle?
    requires tick.Tick? && NothingDue(w.engine, tick)
    ensures
      var e, effect := w.engine, React(config, w.engine, tick);
      var paced := tick.answers.laterMs - e.lastPlaceMs >= config.hlOrderIntervalMs;
      && (effect.sent != [] <==> Triggers(config, e, tick) && paced)
      && (effect.sent != [] ==> SendsCalledFor(config, e, tick, effect.sent))
      && (effect.engine.strategy.state.PendingHlMaker? <==> Triggers(config, e, tick))
      && (Triggers(config, e, tick) && !paced ==> ParksCalledFor(config, e, tick, effect.engine))
  {
    TickDecides(config, w.engine, tick);
    SpreadLaws.ForwardSpread(tick.hl, tick.lighter);
    IdleDecides(config, w.engine, tick, CollectSnapshot(tick.hl, tick.lighter));
  }

  lemma IdleDecides(config: EngineConfig, e: Engine, tick: Event, s: SpreadSnapshot)
    requires HlGate.GateMatches(e.strategy) && e.strategy.state.Idle? && tick.Tick?
    requires s.hl == tick.hl && s.lighter == tick.lighter && (Quoted(s.hl) && Quoted(s.lighter) ==> Measures(s))
    ensures
      var effect := Decide(config, e, tick.nowMs, s, tick.answers);
      var paced := tick.answers.laterMs - e.lastPlaceMs >= config.hlOrderIntervalMs;
      && (effect.sent != [] <==> Triggers(config, e, tick) && paced)
      && (effect.sent != [] ==> SendsCalledFor(config, e, tick, effect.sent))
      && (effect.engine.strategy.state.PendingHlMaker? <==> Triggers(config, e, tick))
      && (Triggers(config, e, tick) && !paced ==> ParksCalledFor(config, e, tick, effect.engine))
  {
    var order := HlMakerOrder(config.strategy, s, ArmedGate(config.strategy, s, e.hlPositionBase));
    TriggersAre(config, e, tick, s, order);
    if Triggers(config, e, tick) {
      OrderIsCalledFor(config.strategy, s, e.hlPositionBase, order);
    }
    DecideIdle(config, e, tick.nowMs, s, tick.answers, order);
  }

  /** What a placement does to the engine's memory: acknowledged, it replaces all memory of older
      orders, with the wall clock of the acknowledgement; refused, only the send time is kept. */
  predicate PlacementLeaves(e: Engine, sent: seq<Request>, a: Answers, e': Engine) {
    && |sent| == 1 && sent[0].HlPlace?
    && e'.lastPlaceMs == sent[0].atMs && e'.lastCancelMs == e.lastCancelMs
    && e'.deferred.None? && e'.nextRetryMs.None?
    && (if a.placeOk then
          && e'.activeOid == Some(a.placeOid) && e'.recentOids == {a.placeOid} && e'.placedEpochMs == a.wallMs
          && e'.lastMakerDirection.ShortLighterLongHl? == sent[0].isBuy && !e'.specSent
        else
          && e'.activeOid == e.activeOid && e'.recentOids == e.recentOids && e'.placedEpochMs == e.placedEpochMs
          && e'.lastMakerDirection == e.lastMakerDirection && e'.specSent == e.specSent)
  }

  lemma DecisionPlaces(config: EngineConfig, e: Engine, nowMs: int, s: SpreadSnapshot, a: Answers)
    requires var sent := Decide(config, e, nowMs, s, a).sent; sent != [] && sent[0].HlPlace?
    ensures var effect := Decide(config, e, nowMs, s, a); PlacementLeaves(e, effect.sent, a, effect.engine)
  {
  }

  lemma PlacementIsRemembered(config: EngineConfig, w: World, tick: Event)
    requires Sound(w) && tick.Tick?
    requires var sent := React(config, w.engine, tick).sent; sent != [] && sent[0].HlPlace?
    ensures var effect := React(config, w.engine, tick); PlacementLeaves(w.engine, effect.sent, tick.answers, effect.engine)
  {
    var s := CollectSnapshot(tick.hl, tick.lighter);
    var d := ExecuteDeferred(config, w.engine, tick.nowMs, s, tick.answers);
    if !d.logged {
      DecisionPlaces(config, d.engine, tick.nowMs, s, tick.answers);
    }
  }

  // ---------- Cancels ----------

  /** The Lighter price `bps` basis points through the mid; zero without one. */
  predicate Through(lighter: Bbo, isAsk: bool, bps: real, price: real) {
    if Quoted(lighter) then
      20000.0 * price == (lighter.bid + lighter.ask) * (if isAsk then 10000.0 - bps else 10000.0 + bps)
    else price == 0.0
  }

  lemma TakerPriceIsThrough(s: SpreadSnapshot, isAsk: bool, bps: real)
    ensures Through(s.lighter, isAsk, bps, TakerPrice(s, isAsk, bps))
  {
    ScaledMid(s.lighter.bid + s.lighter.ask, if isAsk then -bps else bps);
  }

  lemma ScaledMid(sum: real, bps: real)
    ensures 20000.0 * ((sum / 2.0) * (1.0 + bps / 10000.0)) == sum * (10000.0 + bps)
  {
    var x := bps / 10000.0;
    assert 20000.0 * ((sum / 2.0) * (1.0 + x)) == 10000.0 * (sum * (1.0 + x));
    assert 10000.0 * (sum * (1.0 + x)) == sum * (10000.0 + bps);
  }

  /** A cancel goes out for the active order; acknowledged, it is followed by the unwind of an
      outstanding speculative hedge. */
  predicate CancelsActive(e: Engine, lighter: Bbo, atMs: int, a: Answers, sent: seq<Request>)
    requires e.activeOid.Some?
  {
    && 0 < |sent| <= 2
    && sent[0] == HlCancel(e.activeOid.value, atMs)
    && (|sent| == 2 <==> a.cancelOk && e.specSent)
    && (|sent| == 2 ==>
          && sent[1].LighterIoc?
          && (sent[1].isAsk <==> e.lastMakerDirection.LongLighterShortHl?)
          && sent[1].size == e.specSize
          && Through(lighter, sent[1].isAsk, 15.0, sent[1].price))
  }

  /** What a cancel, asked for at `atMs` on the steady clock, sends. */
  predicate CancelSends(config: EngineConfig, e: Engine, lighter: Bbo, atMs: int, a: Answers, sent: seq<Request>) {
    if e.activeOid.Some? && atMs - e.lastCancelMs >= config.hlOrderIntervalMs
    then CancelsActive(e, lighter, atMs, a, sent) else sent == []
  }

  lemma ExecutedCancelSends(config: EngineConfig, e: Engine, order: MakerOrder, s: SpreadSnapshot, atMs: int, a: Answers)
    ensures CancelSends(config, e, s.lighter, atMs, a, ExecuteCancel(config, e, order, s, atMs, a).sent)
  {
    TakerPriceIsThrough(s, e.lastMakerDirection.LongLighterShortHl?, URGENT_SLIPPAGE_BPS);
  }

  /** The pending order has lost its spread on books that are whole and fresh. */
  predicate Loses(config: EngineConfig, e: Engine, tick: Event)
    requires tick.Tick? && e.strategy.pending.Some?
  {
    && Usable(tick.hl, tick.lighter, config.strategy.maxQuoteAgeMs)
    && !Holds(tick.hl, tick.lighter, e.strategy.pending.value, config.strategy.cancelBandBps)
  }

  lemma DecidePending(config: EngineConfig, e: Engine, nowMs: int, s: SpreadSnapshot, a: Answers)
    requires HlGate.GateMatches(e.strategy) && e.strategy.state.PendingHlMaker?
    ensures
      var effect := Decide(config, e, nowMs, s, a);
      var loses := && s.Valid(config.strategy.maxQuoteAgeMs)
                   && !HlGate.Holds(config.strategy, e.strategy.pending.value, s.crossSpreadBps);
      if loses
      then CancelSends(config, e, s.lighter, a.laterMs, a, effect.sent)
           && (CancelRetryAt(config, e, a.laterMs).Some? ==>
                 && DefersCancel(effect.engine)
                 && effect.engine.nextRetryMs == Some(e.lastCancelMs + config.hlOrderIntervalMs))
      else effect.sent == [] && effect.engine == e
  {
    var (t, action) := HlMaker.OnMarketSnapshot(config.strategy, e.strategy, s, nowMs, e.hlPositionBase);
    if action.CancelHlMaker? {
      ExecutedCancelSends(config, e.(strategy := t), action.order, s, a.laterMs, a);
    }
  }

  /** With nothing due, a pending order is cancelled exactly when books that are whole and fresh no
      longer hold it: then the active order is cancelled, unless there is none, and if the rate limiter
      is in the way the cancel is parked until its interval is over. */
  lemma PendingOrderIsCancelled(config: EngineConfig, w: World, tick: Event)
    requires Sound(w) && HlGate.GateMatches(w.engine.strategy) && w.engine.strategy.state.PendingHlMaker?
    requires tick.Tick? && NothingDue(w.engine, tick)
    ensures
      var e, effect, a := w.engine, React(config, w.engine, tick), tick.answers;
      if Loses(config, e, tick)
      then CancelSends(config, e, tick.lighter, a.laterMs, a, effect.sent)
           && (a.laterMs - e.lastCancelMs < config.hlOrderIntervalMs ==>
                 && DefersCancel(effect.engine)
                 && effect.engine.nextRetryMs == Some(e.lastCancelMs + config.hlOrderIntervalMs))
      else effect.sent == [] && effect.engine == e
  {
    var e, s := w.engine, CollectSnapshot(tick.hl, tick.lighter);
    SpreadLaws.ForwardSpread(tick.hl, tick.lighter);
    ValidIsUsable(s, config.strategy.maxQuoteAgeMs);
    if s.Valid(config.strategy.maxQuoteAgeMs) {
      HoldsOnQuotes(config.strategy, s, e.strategy.pending.value);
    }
    DecidePending(config, e, tick.nowMs, s, tick.answers);
  }

  /** While a cancel is awaited, a tick with nothing due sends nothing. */
  lemma CancelledEngineWaits(config: EngineConfig, w: World, tick: Event)
    requires w.engine.strategy.state.CancelledPendingConfirm? && tick.Tick? && NothingDue(w.engine, tick)
    ensures React(config, w.engine, tick).sent == []
    ensures React(config, w.engine, tick).engine.strategy.state.CancelledPendingConfirm?
  {
  }

  /** What a cancel does to the engine's memory: acknowledged, nothing is active or hedged any more and
      the strategy starts over, but the order stays remembered for fills under way; refused, everything
      stays. */
  predicate CancelLeaves(e: Engine, atMs: int, a: Answers, e': Engine) {
    && e'.lastCancelMs == atMs && e'.lastPlaceMs == e.lastPlaceMs
    && e'.deferred.None? && e'.nextRetryMs.None?
    && e'.recentOids == e.recentOids && e'.hlPositionBase == e.hlPositionBase
    && (if a.cancelOk then e'.activeOid.None? && !e'.specSent && e'.strategy.state.Idle?
        else e'.activeOid == e.activeOid && e'.specSent == e.specSent && e'.strategy.state.CancelledPendingConfirm?)
  }

  lemma DecisionCancels(config: EngineConfig, e: Engine, nowMs: int, s: SpreadSnapshot, a: Answers)
    requires var sent := Decide(config, e, nowMs, s, a).sent; sent != [] && sent[0].HlCancel?
    ensures var effect := Decide(config, e, nowMs, s, a);
            effect.sent[0].atMs == a.laterMs && CancelLeaves(e, a.laterMs, a, effect.engine)
  {
  }

  lemma CancelIsRemembered(config: EngineConfig, w: World, tick: Event)
    requires Sound(w) && tick.Tick? && (DefersCancel(w.engine) ==> w.engine.strategy.state.CancelledPendingConfirm?)
    requires var sent := React(config, w.engine, tick).sent; sent != [] && sent[0].HlCancel?
    ensures var effect := React(config, w.engine, tick);
            CancelLeaves(w.engine, effect.sent[0].atMs, tick.answers, effect.engine)
  {
    var s := CollectSnapshot(tick.hl, tick.lighter);
    var d := ExecuteDeferred(config, w.engine, tick.nowMs, s, tick.answers);
    if !d.logged {
      DecisionCancels(config, d.engine, tick.nowMs, s, tick.answers);
    }
  }

  // ---------- Deferred actions ----------

  /** A deferred action waits for the end of its own interval. */
  predicate RetriesInTime(config: EngineConfig, e: Engine) {
    && (DefersPlacement(e) ==> e.nextRetryMs == Some(e.lastPlaceMs + config.hlOrderIntervalMs))
    && (DefersCancel(e) ==> e.nextRetryMs == Some(e.lastCancelMs + config.hlOrderIntervalMs))
  }

  lemma DecideRetriesInTime(config: EngineConfig, e: Engine, nowMs: int, s: SpreadSnapshot, a: Answers)
    requires RetriesInTime(config, e)
    ensures RetriesInTime(config, Decide(config, e, nowMs, s, a).engine)
  {
  }

  lemma DeferredRetriesInTime(config: EngineConfig, e: Engine, nowMs: int, s: SpreadSnapshot, a: Answers)
    requires RetriesInTime(config, e) && (e.deferred.Some? ==> DefersPlacement(e) || DefersCancel(e))
    ensures RetriesInTime(config, ExecuteDeferred(config, e, nowMs, s, a).engine)
  {
  }

  lemma StepRetriesInTime(config: EngineConfig, w: World, event: Event)
    requires Sound(w) && RetriesInTime(config, w.engine)
    ensures RetriesInTime(config, Step(config, w, event).engine)
  {
    if event.Tick? {
      var s := CollectSnapshot(event.hl, event.lighter);
      DeferredRetriesInTime(config, w.engine, event.nowMs, s, event.answers);
      var d := ExecuteDeferred(config, w.engine, event.nowMs, s, event.answers);
      DecideRetriesInTime(config, d.engine, event.nowMs, s, event.answers);
    }
  }

  /** So it is after every run. */
  lemma {:induction false} RunRetriesInTime(config: EngineConfig, w: World, events: seq<Event>)
    requires Sound(w) && RetriesInTime(config, w.engine)
    ensures RetriesInTime(config, Run(config, w, events).engine)
  {
    if events != [] {
      var front := events[..|events| - 1];
      RunRetriesInTime(config, w, front);
      RunKeepsSound(config, w, front);
      StepRetriesInTime(config, Run(config, w, front), events[|events| - 1]);
    }
  }

  lemma DuePlacement(config: EngineConfig, e: Engine, nowMs: int, s: SpreadSnapshot, a: Answers, order: MakerOrder)
    requires e.deferred == Some(PlaceHlMaker(order)) && e.nextRetryMs == Some(e.lastPlaceMs + config.hlOrderIntervalMs)
    requires nowMs >= e.nextRetryMs.value
    ensures
      var effect := OnMarketData(config, e, nowMs, s, a);
      if Blocked(config, e, s, order) then
        effect == Decide(config, e.(deferred := None, nextRetryMs := None, strategy := HlMaker.Reset(e.strategy)), nowMs, s, a)
      else if a.steadyMs - e.lastPlaceMs < config.hlOrderIntervalMs then
        effect == Decide(config, e, nowMs, s, a)
      else
        effect.sent == [HlPlace(order.isBuy, order.price, order.sizeBase, a.steadyMs)]
  {
    var cleared := e.(deferred := None, nextRetryMs := None);
    assert ExecuteDeferred(config, e, nowMs, s, a) == ExecutePlace(config, cleared, order, s, a.steadyMs, a);
    if !Blocked(config, e, s, order) && PlaceRetryAt(config, e, a.steadyMs).Some? {
      assert ExecutePlace(config, cleared, order, s, a.steadyMs, a).engine == e;
    }
  }

  /** A due placement that the position limit and the rate limiter let pass goes out as it was parked;
      the age of the quotes and the spread are not asked. One that the limit blocks is forgotten, and
      one that the rate limiter stops is parked for the same time again; the tick then goes on as if
      nothing had been due. */
  lemma DuePlacementGoesOut(config: EngineConfig, w: World, tick: Event)
    requires Sound(w) && RetriesInTime(config, w.engine)
    requires tick.Tick? && DefersPlacement(w.engine) && !NothingDue(w.engine, tick)
    ensures
      var e, order, a := w.engine, w.engine.deferred.value.order, tick.answers;
      var s, effect := CollectSnapshot(tick.hl, tick.lighter), React(config, w.engine, tick);
      if Quoted(tick.hl) && AtLimit(config, e.hlPositionBase, tick.hl, order.isBuy) then
        effect == Decide(config, e.(deferred := None, nextRetryMs := None, strategy := HlMaker.Reset(e.strategy)), tick.nowMs, s, a)
      else if a.steadyMs - e.lastPlaceMs < config.hlOrderIntervalMs then
        effect == Decide(config, e, tick.nowMs, s, a)
      else
        effect.sent == [HlPlace(order.isBuy, order.price, order.sizeBase, a.steadyMs)]
  {
    var s := CollectSnapshot(tick.hl, tick.lighter);
    assert s.hl == tick.hl;
    BlockedExactlyAtLimit(config, w.engine, s, w.engine.deferred.value.order);
    DuePlacement(config, w.engine, tick.nowMs, s, tick.answers, w.engine.deferred.value.order);
  }

  /** A due cancel that the rate limiter lets pass is for the order that is active by then; one that it
      stops is parked for the same time again, and the tick goes on as if nothing had been due. */
  lemma DueCancelGoesOut(config: EngineConfig, w: World, tick: Event)
    requires Sound(w) && RetriesInTime(config, w.engine)
    requires tick.Tick? && DefersCancel(w.engine) && !NothingDue(w.engine, tick)
    ensures
      var e, effect, a := w.engine, React(config, w.engine, tick), tick.answers;
      if a.steadyMs - e.lastCancelMs < config.hlOrderIntervalMs then
        effect == Decide(config, e, tick.nowMs, CollectSnapshot(tick.hl, tick.lighter), a)
      else
        CancelSends(config, e, tick.lighter, a.steadyMs, a, effect.sent) && effect.engine.deferred.None?
  {
    var e, s := w.engine, CollectSnapshot(tick.hl, tick.lighter);
    SpreadLaws.ForwardSpread(tick.hl, tick.lighter);
    ExecutedCancelSends(config, e.(deferred := None, nextRetryMs := None), e.deferred.value.order, s,
                        tick.answers.steadyMs, tick.answers);
  }

  // ---------- Trades ----------

  /** The trade went at least the configured depth through the resting order. */
  predicate WentThrough(config: EngineConfig, order: MakerOrder, trade: TradeEvent) {
    var depth := if order.isBuy then order.price - trade.price else trade.price - order.price;
    depth * 10000.0 >= config.specHedgeMinCrossBps * order.price
  }

  /** It was large enough for the order, where both are configured and known. */
  predicate LargeEnough(config: EngineConfig, order: MakerOrder, trade: TradeEvent) {
    config.specHedgeMinTradeRatio > 0.0 && order.sizeBase > 0.0 ==>
      trade.size >= config.specHedgeMinTradeRatio * order.sizeBase
  }

  /** It is older than the order, as far as both times are known. */
  predicate TooOld(e: Engine, trade: TradeEvent) {
    trade.exchangeTimeMs > 0 && e.placedEpochMs > 0 && trade.exchangeTimeMs < e.placedEpochMs
  }

  lemma Depth(price: real, bps: real, traded: real)
    ensures traded <= price * (1.0 - bps / 10000.0) <==> (price - traded) * 10000.0 >= bps * price
    ensures traded >= price * (1.0 + bps / 10000.0) <==> (traded - price) * 10000.0 >= bps * price
  {
    var x := bps / 10000.0;
    assert bps * price == 10000.0 * (price * x);
    assert price * (1.0 - x) == price - price * x && price * (1.0 + x) == price + price * x;
  }

  lemma CrossesOnDepth(config: EngineConfig, order: MakerOrder, trade: TradeEvent)
    ensures Crosses(config, order, trade) <==> WentThrough(config, order, trade) && LargeEnough(config, order, trade)
  {
    Depth(order.price, config.specHedgeMinCrossBps, trade.price);
    if order.sizeBase > 0.0 {
      PriceLaws.Quotient(config.specHedgeMinTradeRatio, trade.size, order.sizeBase);
    }
  }

  /** A trade is hedged speculatively exactly when an order is active and pending, no hedge for it is
      outstanding, the trade is not older than it, went far enough through it and was large enough,
      and both books are whole and fresh. One Lighter IOC of the order's size then goes out against
      its side, 15 basis points through the mid, and is remembered exactly when it is confirmed. */
  lemma TradeIsHedged(config: EngineConfig, e: Engine, event: Event)
    requires event.Trade?
    ensures
      var effect, a := React(config, e, event), event.answers;
      && (effect.sent != []
          <==> && e.activeOid.Some? && e.strategy.pending.Some? && !e.specSent
               && !TooOld(e, event.trade)
               && WentThrough(config, e.strategy.pending.value, event.trade)
               && LargeEnough(config, e.strategy.pending.value, event.trade)
               && Usable(event.hl, event.lighter, config.strategy.maxQuoteAgeMs))
      && (effect.sent == [] ==> effect.engine == e)
      && (effect.sent != [] ==>
            var order, r := e.strategy.pending.value, effect.sent[0];
            && |effect.sent| == 1 && r.LighterIoc?
            && (r.isAsk <==> order.direction.ShortLighterLongHl?) && r.size == order.sizeBase
            && Through(event.lighter, r.isAsk, 15.0, r.price)
            && (effect.engine.specSent <==> a.iocOk && a.iocConfirmed)
            && (effect.engine.specSent ==>
                  effect.engine.specSize == order.sizeBase && effect.engine.specOid == e.activeOid.value))
  {
    var s := CollectSnapshot(event.hl, event.lighter);
    SpreadLaws.ForwardSpread(event.hl, event.lighter);
    ValidIsUsable(s, config.strategy.maxQuoteAgeMs);
    if e.strategy.pending.Some? {
      var order := e.strategy.pending.value;
      CrossesOnDepth(config, order, event.trade);
      TakerPriceIsThrough(s, order.direction.ShortLighterLongHl?, URGENT_SLIPPAGE_BPS);
    }
  }

  // ---------- Fills ----------

  predicate IsIoc(r: Request, lighter: Bbo, isAsk: bool, bps: real, size: real) {
    r.LighterIoc? && r.isAsk == isAsk && r.size == size && Through(lighter, isAsk, bps, r.price)
  }

  /** A fill of the order that was hedged speculatively. Within 0.001 of the hedge it closes the order;
      above, it closes it and the rest is hedged 10 basis points through the mid; below, the excess is
      taken back 15 basis points through it and the order stays. The booked position moves by the fill. */
  lemma HedgedFillIsReconciled(config: EngineConfig, e: Engine, fill: Event)
    requires fill.Fill? && fill.oid in e.recentOids && e.specSent && fill.oid == e.specOid
    ensures
      var effect, diff := React(config, e, fill), fill.size - e.specSize;
      var buys, lighter := e.lastMakerDirection.ShortLighterLongHl?, fill.snapshot.lighter;
      var closes := diff > -0.001 && diff != 0.001;
      && (if -0.001 < diff < 0.001 then effect.sent == []
          else if diff > 0.001 then |effect.sent| == 1 && IsIoc(effect.sent[0], lighter, buys, 10.0, diff)
          else |effect.sent| == 1 && IsIoc(effect.sent[0], lighter, !buys, 15.0, -diff))
      && !effect.engine.specSent
      && effect.engine.hlPositionBase == e.hlPositionBase + (if buys then fill.size else -fill.size)
      && effect.engine.recentOids == (if closes then e.recentOids - {fill.oid} else e.recentOids)
      && effect.engine.activeOid == (if closes then None else e.activeOid)
      && (if closes then effect.engine.strategy.state.Idle? else effect.engine.strategy == e.strategy)
  {
    var buys, diff := e.lastMakerDirection.ShortLighterLongHl?, fill.size - e.specSize;
    TakerPriceIsThrough(fill.snapshot, buys, HEDGE_SLIPPAGE_BPS);
    TakerPriceIsThrough(fill.snapshot, !buys, URGENT_SLIPPAGE_BPS);
  }

  /** Any other fill of a remembered order is hedged 10 basis points through the mid, and taken back on
      HL exactly when the hedge is not confirmed; the booked position moves exactly when it is. The
      order is not active any more but still remembered. */
  lemma OtherFillIsHedged(config: EngineConfig, e: Engine, fill: Event)
    requires fill.Fill? && fill.oid in e.recentOids && !(e.specSent && fill.oid == e.specOid)
    ensures
      var effect, a := React(config, e, fill), fill.answers;
      var buys, confirmed := e.lastMakerDirection.ShortLighterLongHl?, a.iocOk && a.iocConfirmed;
      && 0 < |effect.sent| <= 2
      && IsIoc(effect.sent[0], fill.snapshot.lighter, buys, 10.0, fill.size)
      && (|effect.sent| == 2 <==> !confirmed)
      && (|effect.sent| == 2 ==> effect.sent[1] == HlReduce(!buys, fill.size))
      && effect.engine.hlPositionBase
         == e.hlPositionBase + (if !confirmed then 0.0 else if buys then fill.size else -fill.size)
      && effect.engine.recentOids == e.recentOids && effect.engine.activeOid.None?
      && effect.engine.strategy.state.Idle? && effect.engine.strategy.lastDisarmMs == e.strategy.lastDisarmMs
  {
    TakerPriceIsThrough(fill.snapshot, e.lastMakerDirection.ShortLighterLongHl?, HEDGE_SLIPPAGE_BPS);
  }

  /** A fill of an order that is not remembered changes nothing. */
  lemma StrangeFillIsIgnored(config: EngineConfig, e: Engine, fill: Event)
    requires fill.Fill? && fill.oid !in e.recentOids
    ensures React(config, e, fill) == Effect(e, [], false)
  {
  }

  /** Hedge results reported from outside change nothing: no position is open between events. */
  lemma ReportsAreIgnored(config: EngineConfig, w: World, event: Event)
    requires Sound(w) && (event.HedgeRejected? || event.HedgeFilled?)
    ensures React(config, w.engine, event) == Effect(w.engine, [], false)
  {
  }

  // ---------- Actions on an open position ----------

  /** The hedge action of a strategy with an open position sends its intent as it is; confirmed, the
      strategy starts over, and otherwise the HL side of the position is taken back in full. */
  lemma HedgeActionCovers(config: EngineConfig, e: Engine, hedge: HedgeIntent, s: SpreadSnapshot, nowMs: int, a: Answers)
    requires e.strategy.open.Some?
    ensures
      var effect, open := ExecuteAction(config, e, SendLighterTakerHedge(hedge), s, nowMs, a), e.strategy.open.value;
      var confirmed := a.iocOk && a.iocConfirmed;
      && 0 < |effect.sent| <= 2
      && effect.sent[0] == LighterIoc(hedge.isAsk, hedge.limitPrice, hedge.sizeBase)
      && (|effect.sent| == 2 <==> !confirmed)
      && (|effect.sent| == 2 ==>
            && effect.sent[1].HlReduce?
            && SideSigned(effect.sent[1].isBuy, effect.sent[1].size) + Signed(open.direction, open.sizeBase) == 0.0)
      && (if confirmed then effect.engine.strategy.state.Idle? && effect.engine.strategy.open.None?
          else effect.engine.strategy.state.UnwindingHl? && effect.engine.strategy.open == e.strategy.open)
  {
  }

  /** The strategy's own hedge intent: against its order, of the size that filled, 10 basis points
      through the Lighter mid. */
  lemma IntentIsThrough(t: Strategy, fillPrice: real, fillSize: real, s: SpreadSnapshot)
    requires t.pending.Some?
    ensures
      var (t', action) := HlMaker.OnMakerFill(t, fillPrice, fillSize, s);
      var direction := t.pending.value.direction;
      && action.SendLighterTakerHedge?
      && (action.hedge.isAsk <==> direction.ShortLighterLongHl?) && action.hedge.sizeBase == fillSize
      && Through(s.lighter, action.hedge.isAsk, 10.0, action.hedge.limitPrice)
      && t'.pending.None? && t'.open == Some(OpenPosition(direction, fillSize, fillPrice, 0.0))
  {
    TakerPriceIsThrough(s, t.pending.value.direction.ShortLighterLongHl?, TAKER_SLIPPAGE_BPS);
  }
}
