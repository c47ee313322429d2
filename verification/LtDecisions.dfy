/** What the reverse engine sends and when, event by event, in terms of the quotes, the configuration
    and what it remembers. Each law is exact: the request goes out if and only if. */
module LtDecisions {
  import opened Types
  import opened Pricing
  import opened Books
  import opened LtEngine
  import opened LtNeutrality
  import LtMaker
  import HlGate
  import HlDecisions
  import HlSafety
  import PriceLaws
  import SpreadLaws
  import P = LtProgress

  // ---------- Placements ----------

  predicate NothingDue(e: Engine, tick: Event)
    requires tick.Tick?
  {
    e.deferred.None? || (e.nextRetryMs.Some? && tick.nowMs < e.nextRetryMs.value)
  }

  /** A sell of the lowest, or a buy of the highest price that stays on its side of the Lighter book
      and leaves the spread against the HL taker side. */
  ghost predicate BestPrice(hl: Bbo, lighter: Bbo, spreadBps: real, isAsk: bool, price: real) {
    var r := spreadBps / 10000.0;
    if isAsk then
      SellFits(price, lighter.ask, hl.ask, r) && forall q :: SellFits(q, lighter.ask, hl.ask, r) ==> q >= price
    else
      BuyFits(price, lighter.bid, hl.bid, r) && forall q :: BuyFits(q, lighter.bid, hl.bid, r) ==> q <= price
  }

  predicate SellFits(q: real, own: real, other: real, r: real) {
    q >= own && q >= other * (1.0 + r)
  }

  predicate BuyFits(q: real, own: real, other: real, r: real) {
    q <= own && q <= other * (1.0 - r)
  }

  /** The order that these books call for. */
  ghost predicate CalledFor(config: HedgerConfig, hl: Bbo, lighter: Bbo, isAsk: bool, price: real, size: real) {
    && (isAsk <==> Gap(hl, lighter) >= 0.0)
    && size * Total(hl, lighter) == 4.0 * config.pairSizeUsd
    && BestPrice(hl, lighter, config.spreadBps, isAsk, price)
  }

  lemma SellIsBest(config: HedgerConfig, s: SpreadSnapshot, gate: SignalGate)
    requires Quoted(s.hl) && Quoted(s.lighter) && gate.direction.ShortLighterLongHl?
    ensures BestPrice(s.hl, s.lighter, gate.entrySpreadBps, true, LighterMakerOrder(config, s, gate).price)
  {
    var r, price := gate.entrySpreadBps / 10000.0, LighterMakerOrder(config, s, gate).price;
    forall q ensures SellFits(q, s.lighter.ask, s.hl.ask, r) <==> q >= price {
      PriceLaws.LighterSellIsLowest(config, s, gate, q);
    }
  }

  lemma BuyIsBest(config: HedgerConfig, s: SpreadSnapshot, gate: SignalGate)
    requires Quoted(s.hl) && Quoted(s.lighter) && gate.direction.LongLighterShortHl?
    ensures BestPrice(s.hl, s.lighter, gate.entrySpreadBps, false, LighterMakerOrder(config, s, gate).price)
  {
    var r, price := gate.entrySpreadBps / 10000.0, LighterMakerOrder(config, s, gate).price;
    forall q ensures BuyFits(q, s.lighter.bid, s.hl.bid, r) <==> q <= price {
      PriceLaws.LighterBuyIsHighest(config, s, gate, q);
    }
  }

  /** The gate that a snapshot at the threshold arms. */
  function ArmedGate(config: HedgerConfig, s: SpreadSnapshot): SignalGate {
    SignalGate(true, DirectionForSpread(s.crossSpreadBps), config.spreadBps)
  }

  lemma OrderIsCalledFor(config: HedgerConfig, s: SpreadSnapshot, order: MakerOrder)
    requires Measures(s) && Quoted(s.hl) && Quoted(s.lighter)
    requires order == LighterMakerOrder(config, s, ArmedGate(config, s))
    ensures CalledFor(config, s.hl, s.lighter, !order.isBuy, order.price, order.sizeBase)
  {
    MeasuredSpread(s, 0.0);
    PriceLaws.OrderIsWorthPairSize(config, s, ArmedGate(config, s));
    if order.isBuy {
      BuyIsBest(config, s, ArmedGate(config, s));
    } else {
      SellIsBest(config, s, ArmedGate(config, s));
    }
  }

  /** An idle strategy has to trade on these books now. */
  predicate Triggers(config: EngineConfig, e: Engine, tick: Event)
    requires tick.Tick?
  {
    && Usable(tick.hl, tick.lighter, config.strategy.maxQuoteAgeMs)
    && Reaches(tick.hl, tick.lighter, config.strategy.spreadBps)
    && tick.nowMs - e.strategy.lastDisarmMs >= config.strategy.minRearmMs
  }

  lemma TriggersAre(config: EngineConfig, e: Engine, tick: Event, s: SpreadSnapshot)
    requires tick.Tick? && s.hl == tick.hl && s.lighter == tick.lighter
    requires Quoted(s.hl) && Quoted(s.lighter) ==> Measures(s)
    ensures Triggers(config, e, tick)
            <==> && s.Valid(config.strategy.maxQuoteAgeMs)
                 && Abs(s.crossSpreadBps) >= config.strategy.spreadBps
                 && CanArm(config.strategy, e.strategy.lastDisarmMs, tick.nowMs)
  {
    ValidIsUsable(s, config.strategy.maxQuoteAgeMs);
    if s.Valid(config.strategy.maxQuoteAgeMs) {
      MeasuredSpread(s, config.strategy.spreadBps);
    }
  }

  lemma DecideIdle(config: EngineConfig, e: Engine, nowMs: int, s: SpreadSnapshot, a: Answers, order: MakerOrder)
    requires P.GateMatches(e.strategy) && e.strategy.state.Idle?
    requires order == LighterMakerOrder(config.strategy, s, ArmedGate(config.strategy, s))
    ensures
      var effect := Decide(config, e, nowMs, s, a);
      var places := && s.Valid(config.strategy.maxQuoteAgeMs)
                    && Abs(s.crossSpreadBps) >= config.strategy.spreadBps
                    && CanArm(config.strategy, e.strategy.lastDisarmMs, nowMs);
      var paced := a.laterMs - e.lastPlaceMs >= config.lighterOrderIntervalMs;
      && effect.sent == (if places && paced
                         then [LighterPlace(!order.isBuy, order.price, order.sizeBase, a.laterMs)] else [])
      && (effect.engine.strategy.state.PendingLighterMaker? <==> places)
      && (places && !paced ==>
            && effect.engine.deferred == Some(PlaceLighterMaker(order))
            && effect.engine.nextRetryMs == Some(e.lastPlaceMs + config.lighterOrderIntervalMs))
  {
  }

  /** The requests of a tick that sends the order these books call for. */
  ghost predicate SendsCalledFor(config: EngineConfig, tick: Event, sent: seq<Request>)
    requires tick.Tick?
  {
    && |sent| == 1 && sent[0].LighterPlace? && sent[0].atMs == tick.answers.laterMs
    && CalledFor(config.strategy, tick.hl, tick.lighter, sent[0].isAsk, sent[0].price, sent[0].size)
  }

  /** The engine after a tick that parks the order these books call for. */
  ghost predicate ParksCalledFor(config: EngineConfig, e: Engine, tick: Event, e': Engine)
    requires tick.Tick?
  {
    && DefersPlacement(e')
    && e'.nextRetryMs == Some(e.lastPlaceMs + config.lighterOrderIntervalMs)
    && var order := e'.deferred.value.order;
       CalledFor(config.strategy, tick.hl, tick.lighter, !order.isBuy, order.price, order.sizeBase)
  }

  lemma TickDecides(config: EngineConfig, e: Engine, tick: Event)
    requires tick.Tick? && NothingDue(e, tick)
    ensures React(config, e, tick) == Decide(config, e, tick.nowMs, CollectSnapshot(tick.hl, tick.lighter), tick.answers)
  {
  }

  /** With nothing due, an idle engine places exactly when both books are whole and fresh, the spread
      reaches the threshold, the rearm time has passed and the rate limiter lets it pass. The order is
      the one the books call for. If only the rate limiter is in the way, that order is parked until its
      interval is over. */
  lemma IdleEnginePlaces(config: EngineConfig, w: World, tick: Event)
    requires Sound(w) && P.GateMatches(w.engine.strategy) && w.engine.strategy.state.Idle?
    requires tick.Tick? && NothingDue(w.engine, tick)
    ensures
      var e, effect := w.engine, React(config, w.engine, tick);
      var paced := tick.answers.laterMs - e.lastPlaceMs >= config.lighterOrderIntervalMs;
      && (effect.sent != [] <==> Triggers(config, e, tick) && paced)
      && (effect.sent != [] ==> SendsCalledFor(config, tick, effect.sent))
      && (effect.engine.strategy.state.PendingLighterMaker? <==> Triggers(config, e, tick))
      && (Triggers(config, e, tick) && !paced ==> ParksCalledFor(config, e, tick, effect.engine))
  {
    TickDecides(config, w.engine, tick);
    SpreadLaws.ReverseSpread(tick.hl, tick.lighter);
    IdleDecides(config, w.engine, tick, CollectSnapshot(tick.hl, tick.lighter));
  }

  lemma IdleDecides(config: EngineConfig, e: Engine, tick: Event, s: SpreadSnapshot)
    requires P.GateMatches(e.strategy) && e.strategy.state.Idle? && tick.Tick?
    requires s.hl == tick.hl && s.lighter == tick.lighter && (Quoted(s.hl) && Quoted(s.lighter) ==> Measures(s))
    ensures
      var effect := Decide(config, e, tick.nowMs, s, tick.answers);
      var paced := tick.answers.laterMs - e.lastPlaceMs >= config.lighterOrderIntervalMs;
      && (effect.sent != [] <==> Triggers(config, e, tick) && paced)
      && (effect.sent != [] ==> SendsCalledFor(config, tick, effect.sent))
      && (effect.engine.strategy.state.PendingLighterMaker? <==> Triggers(config, e, tick))
      && (Triggers(config, e, tick) && !paced ==> ParksCalledFor(config, e, tick, effect.engine))
  {
    var order := LighterMakerOrder(config.strategy, s, ArmedGate(config.strategy, s));
    TriggersAre(config, e, tick, s);
    if Triggers(config, e, tick) {
      OrderIsCalledFor(config.strategy, s, order);
    }
    DecideIdle(config, e, tick.nowMs, s, tick.answers, order);
  }

  /** The request for the order that was parked by the rate limiter and is due. */
  predicate ParkedBefore(e: Engine, tick: Event, r: Request)
    requires tick.Tick?
  {
    && DefersPlacement(e) && !NothingDue(e, tick)
    && var order := e.deferred.value.order;
       r == LighterPlace(!order.isBuy, order.price, order.sizeBase, tick.answers.steadyMs)
  }

  /** In every reachable state a placement is sent only by a tick, and it is either the order that the
      tick's books call for or the parked one. */
  lemma PlacementOrigin(config: EngineConfig, w: World, event: Event, i: nat)
    requires Sound(w) && P.GateMatches(w.engine.strategy)
    requires var sent := React(config, w.engine, event).sent; i < |sent| && sent[i].LighterPlace?
    ensures event.Tick?
    ensures
      var sent := React(config, w.engine, event).sent;
      || ParkedBefore(w.engine, event, sent[i])
      || (Triggers(config, w.engine, event) && SendsCalledFor(config, event, sent))
  {
    match event
    case Tick(nowMs, hl, lighter, a) =>
      var s := CollectSnapshot(hl, lighter);
      var d := ExecuteDeferred(config, w.engine, nowMs, s, a);
      if !d.logged {
        P.DeferredKeepsGate(config, w.engine, nowMs, s, a);
        DecisionIsFromIdle(config, d.engine, nowMs, s, a, i);
        SpreadLaws.ReverseSpread(hl, lighter);
        IdleDecides(config, d.engine, event, s);
        assert d.engine.strategy == w.engine.strategy;
      }
    case Fill(_, _, _, _, _) => FillIsHedgedOnce(config, w, event);
    case HedgeRejected(_, _, _) =>
  }

  lemma DecisionIsFromIdle(config: EngineConfig, e: Engine, nowMs: int, s: SpreadSnapshot, a: Answers, i: nat)
    requires var sent := Decide(config, e, nowMs, s, a).sent; i < |sent| && sent[i].LighterPlace?
    ensures e.strategy.state.Idle? && i == 0
  {
  }

  /** What a placement does to the engine's memory. */
  predicate PlacementLeaves(e: Engine, sent: seq<Request>, a: Answers, e': Engine) {
    && |sent| == 1 && sent[0].LighterPlace?
    && e'.lastPlaceMs == sent[0].atMs && e'.lastCancelMs == e.lastCancelMs
    && e'.deferred.None? && e'.nextRetryMs.None?
    && (if a.placeOk && a.restingConfirmed
        then e'.activeIndex == Some(a.placeIndex) && e'.lastMakerDirection.ShortLighterLongHl? == sent[0].isAsk
        else e'.activeIndex == e.activeIndex && e'.lastMakerDirection == e.lastMakerDirection)
  }

  lemma DecisionPlaces(config: EngineConfig, e: Engine, nowMs: int, s: SpreadSnapshot, a: Answers)
    requires var sent := Decide(config, e, nowMs, s, a).sent; sent != [] && sent[0].LighterPlace?
    ensures var effect := Decide(config, e, nowMs, s, a); PlacementLeaves(e, effect.sent, a, effect.engine)
  {
  }

  lemma PlacementIsRemembered(config: EngineConfig, w: World, tick: Event)
    requires Sound(w) && tick.Tick?
    requires var sent := React(config, w.engine, tick).sent; sent != [] && sent[0].LighterPlace?
    ensures var effect := React(config, w.engine, tick); PlacementLeaves(w.engine, effect.sent, tick.answers, effect.engine)
  {
    var s := CollectSnapshot(tick.hl, tick.lighter);
    var d := ExecuteDeferred(config, w.engine, tick.nowMs, s, tick.answers);
    if !d.logged {
      DecisionPlaces(config, d.engine, tick.nowMs, s, tick.answers);
    }
  }

  // ---------- Cancels ----------

  /** What a cancel, asked for at `atMs` on the steady clock, sends. */
  function CancelSends(config: EngineConfig, e: Engine, atMs: int): seq<Request> {
    if e.activeIndex.Some? && atMs - e.lastCancelMs >= config.lighterOrderIntervalMs
    then [LighterCancel(e.activeIndex.value, atMs)] else []
  }

  /** The pending order has lost its spread on books that are whole and fresh. */
  predicate Loses(config: EngineConfig, e: Engine, tick: Event)
    requires tick.Tick? && e.strategy.pending.Some?
  {
    && Usable(tick.hl, tick.lighter, config.strategy.maxQuoteAgeMs)
    && !HlDecisions.Holds(tick.hl, tick.lighter, e.strategy.pending.value, config.strategy.cancelBandBps)
  }

  lemma DecidePending(config: EngineConfig, e: Engine, nowMs: int, s: SpreadSnapshot, a: Answers)
    requires P.GateMatches(e.strategy) && e.strategy.state.PendingLighterMaker?
    ensures
      var effect := Decide(config, e, nowMs, s, a);
      var loses := && s.Valid(config.strategy.maxQuoteAgeMs)
                   && !HlGate.Holds(config.strategy, e.strategy.pending.value, s.crossSpreadBps);
      if loses
      then effect.sent == CancelSends(config, e, a.laterMs)
           && (a.laterMs - e.lastCancelMs < config.lighterOrderIntervalMs ==>
                 && DefersCancel(effect.engine)
                 && effect.engine.nextRetryMs == Some(e.lastCancelMs + config.lighterOrderIntervalMs))
      else effect.sent == [] && effect.engine == e
  {
  }

  /** With nothing due, a pending order is cancelled exactly when books that are whole and fresh no
      longer hold it: then the active order is cancelled, unless there is none, and if the rate limiter
      is in the way the cancel is parked until its interval is over. */
  lemma PendingOrderIsCancelled(config: EngineConfig, w: World, tick: Event)
    requires Sound(w) && P.GateMatches(w.engine.strategy) && w.engine.strategy.state.PendingLighterMaker?
    requires tick.Tick? && NothingDue(w.engine, tick)
    ensures
      var e, effect, a := w.engine, React(config, w.engine, tick), tick.answers;
      if Loses(config, e, tick)
      then effect.sent == CancelSends(config, e, a.laterMs)
           && (a.laterMs - e.lastCancelMs < config.lighterOrderIntervalMs ==>
                 && DefersCancel(effect.engine)
                 && effect.engine.nextRetryMs == Some(e.lastCancelMs + config.lighterOrderIntervalMs))
      else effect.sent == [] && effect.engine == e
  {
    var e, s := w.engine, CollectSnapshot(tick.hl, tick.lighter);
    TickDecides(config, e, tick);
    SpreadLaws.ReverseSpread(tick.hl, tick.lighter);
    ValidIsUsable(s, config.strategy.maxQuoteAgeMs);
    if s.Valid(config.strategy.maxQuoteAgeMs) {
      HlDecisions.HoldsOnQuotes(config.strategy, s, e.strategy.pending.value);
    }
    DecidePending(config, e, tick.nowMs, s, tick.answers);
  }

  /** While a cancel is awaited, a tick with nothing due sends nothing. */
  lemma CancelledEngineWaits(config: EngineConfig, w: World, tick: Event)
    requires w.engine.strategy.state.CancelledPendingLighterConfirm? && tick.Tick? && NothingDue(w.engine, tick)
    ensures React(config, w.engine, tick).sent == []
    ensures React(config, w.engine, tick).engine.strategy.state.CancelledPendingLighterConfirm?
  {
  }

  /** What a cancel does to the engine's memory. */
  lemma CancelIsRemembered(config: EngineConfig, w: World, tick: Event)
    requires Sound(w) && tick.Tick?
    requires var sent := React(config, w.engine, tick).sent; sent != [] && sent[0].LighterCancel?
    ensures
      var e, effect := w.engine, React(config, w.engine, tick);
      && effect.engine.lastCancelMs == effect.sent[0].atMs && effect.engine.lastPlaceMs == e.lastPlaceMs
      && effect.engine.deferred.None? && effect.engine.nextRetryMs.None?
      && e.activeIndex == Some(effect.sent[0].orderIndex)
      && (if tick.answers.cancelOk then effect.engine.activeIndex.None? && effect.engine.strategy.state.Idle?
          else effect.engine.activeIndex == e.activeIndex && effect.engine.strategy.state.CancelledPendingLighterConfirm?)
  {
  }

  // ---------- Deferred actions ----------

  /** A deferred action waits for the end of its own interval. */
  predicate RetriesInTime(config: EngineConfig, e: Engine) {
    && (DefersPlacement(e) ==> e.nextRetryMs == Some(e.lastPlaceMs + config.lighterOrderIntervalMs))
    && (DefersCancel(e) ==> e.nextRetryMs == Some(e.lastCancelMs + config.lighterOrderIntervalMs))
  }

  lemma DecideRetriesInTime(config: EngineConfig, e: Engine, nowMs: int, s: SpreadSnapshot, a: Answers)
    requires RetriesInTime(config, e)
    ensures RetriesInTime(config, Decide(config, e, nowMs, s, a).engine)
  {
  }

  lemma DeferredRetriesInTime(config: EngineConfig, e: Engine, nowMs: int, s: SpreadSnapshot, a: Answers)
    requires RetriesInTime(config, e) && (e.deferred.Some? ==> DefersPlacement(e) || DefersCancel(e))
    ensures RetriesInTime(config, ExecuteDeferred(config, e, nowMs, s, a).engine)
  {
  }

  lemma StepRetriesInTime(config: EngineConfig, w: World, event: Event)
    requires Sound(w) && RetriesInTime(config, w.engine)
    ensures RetriesInTime(config, Step(config, w, event).engine)
  {
    match event
    case Tick(nowMs, hl, lighter, a) =>
      var s := CollectSnapshot(hl, lighter);
      DeferredRetriesInTime(config, w.engine, nowMs, s, a);
      DecideRetriesInTime(config, ExecuteDeferred(config, w.engine, nowMs, s, a).engine, nowMs, s, a);
    case _ =>
  }

  /** So it is after every run. */
  lemma {:induction false} RunRetriesInTime(config: EngineConfig, w: World, events: seq<Event>)
    requires Sound(w) && RetriesInTime(config, w.engine)
    ensures RetriesInTime(config, Run(config, w, events).engine)
  {
    if events != [] {
      var front := events[..|events| - 1];
      RunRetriesInTime(config, w, front);
      RunKeepsSound(config, w, front);
      StepRetriesInTime(config, Run(config, w, front), events[|events| - 1]);
    }
  }

  /** A due placement that the rate limiter lets pass goes out as it was parked; one that it stops is
      parked for the same time again, and the tick goes on as if nothing had been due. */
  lemma DuePlacementGoesOut(config: EngineConfig, w: World, tick: Event)
    requires Sound(w) && RetriesInTime(config, w.engine)
    requires tick.Tick? && DefersPlacement(w.engine) && !NothingDue(w.engine, tick)
    ensures
      var e, order, a := w.engine, w.engine.deferred.value.order, tick.answers;
      var effect := React(config, w.engine, tick);
      if a.steadyMs - e.lastPlaceMs < config.lighterOrderIntervalMs then
        effect == Decide(config, e, tick.nowMs, CollectSnapshot(tick.hl, tick.lighter), a)
      else
        effect.sent == [LighterPlace(!order.isBuy, order.price, order.sizeBase, a.steadyMs)]
  {
  }

  /** So it is with a due cancel, which is for the order that is active by then. */
  lemma DueCancelGoesOut(config: EngineConfig, w: World, tick: Event)
    requires Sound(w) && RetriesInTime(config, w.engine)
    requires tick.Tick? && DefersCancel(w.engine) && !NothingDue(w.engine, tick)
    ensures
      var e, effect, a := w.engine, React(config, w.engine, tick), tick.answers;
      if a.steadyMs - e.lastCancelMs < config.lighterOrderIntervalMs then
        effect == Decide(config, e, tick.nowMs, CollectSnapshot(tick.hl, tick.lighter), a)
      else
        effect.sent == CancelSends(config, e, a.steadyMs) && effect.engine.deferred.None?
  {
  }

  // ---------- Fills ----------

  /** The HL price 10 basis points behind the quote that the hedge takes. */
  predicate BehindQuote(hl: Bbo, isBuy: bool, price: real) {
    10000.0 * price == (if isBuy then hl.ask * 10010.0 else hl.bid * 9990.0)
  }

  lemma AggressivePrice(s: SpreadSnapshot, direction: Direction)
    ensures BehindQuote(s.hl, direction.ShortLighterLongHl?, AggressiveHlPrice(s, direction))
  {
  }

  lemma UnwindIsThrough(s: SpreadSnapshot, isAsk: bool)
    ensures HlDecisions.Through(s.lighter, isAsk, 15.0, UnwindPrice(s, isAsk))
  {
    HlDecisions.ScaledMid(s.lighter.bid + s.lighter.ask, if isAsk then -15.0 else 15.0);
  }

  /** A fill of the active order is hedged by one HL IOC of its size 10 basis points behind the quote,
      and taken back on Lighter 15 basis points through the mid exactly when that did not fill; the
      order is closed. Any other fill changes nothing. */
  lemma FillIsHedged(config: EngineConfig, w: World, fill: Event)
    requires Sound(w) && fill.Fill?
    ensures
      var e, effect, a := w.engine, React(config, w.engine, fill), fill.answers;
      if e.activeIndex != Some(fill.orderIndex) then effect == Effect(e, [], false)
      else
        var sold, filled := e.lastMakerDirection.ShortLighterLongHl?, a.hlOk && a.hlFilledSize > 0.0;
        && 0 < |effect.sent| <= 2
        && effect.sent[0].HlIoc? && effect.sent[0].isBuy == sold && effect.sent[0].size == fill.size
        && BehindQuote(fill.snapshot.hl, sold, effect.sent[0].price)
        && (|effect.sent| == 2 <==> !filled)
        && (|effect.sent| == 2 ==>
              && effect.sent[1].LighterIoc? && effect.sent[1].isAsk == !sold && effect.sent[1].size == fill.size
              && HlDecisions.Through(fill.snapshot.lighter, !sold, 15.0, effect.sent[1].price))
        && effect.engine.strategy.state.Idle? && effect.engine.activeIndex.None?
        && effect.engine.strategy.lastDisarmMs == e.strategy.lastDisarmMs
  {
    var e := w.engine;
    if e.activeIndex == Some(fill.orderIndex) {
      AggressivePrice(fill.snapshot, e.lastMakerDirection);
      UnwindIsThrough(fill.snapshot, e.lastMakerDirection.LongLighterShortHl?);
    }
  }

  /** A hedge rejection reported from outside changes nothing: no position is open between calls. */
  lemma ReportsAreIgnored(config: EngineConfig, w: World, event: Event)
    requires Sound(w) && event.HedgeRejected?
    ensures React(config, w.engine, event) == Effect(w.engine, [], false)
  {
  }

  /** The unwind action of a strategy with an open position takes its Lighter side back in full. */
  lemma UnwindActionCovers(config: EngineConfig, e: Engine, s: SpreadSnapshot, nowMs: int, a: Answers)
    requires e.strategy.open.Some?
    ensures
      var effect, open := ExecuteAction(config, e, UnwindLighterPosition, s, nowMs, a), e.strategy.open.value;
      && effect.engine == e && |effect.sent| == 1 && effect.sent[0].LighterIoc?
      && SideSigned(!effect.sent[0].isAsk, effect.sent[0].size) == Signed(open.direction, open.sizeBase)
      && HlDecisions.Through(s.lighter, effect.sent[0].isAsk, 15.0, effect.sent[0].price)
  {
    UnwindIsThrough(s, e.strategy.open.value.direction.LongLighterShortHl?);
  }

  // ---------- Send rate ----------

  ghost predicate Paced(config: EngineConfig, w: World) {
    var places, cancels := w.ledger.placeTimes, w.ledger.cancelTimes;
    && HlSafety.Spaced(places, config.lighterOrderIntervalMs)
    && HlSafety.Spaced(cancels, config.lighterOrderIntervalMs)
    && (places != [] ==> places[|places| - 1] <= w.engine.lastPlaceMs)
    && (cancels != [] ==> cancels[|cancels| - 1] <= w.engine.lastCancelMs)
  }

  lemma ExecuteKeepsPaced(config: EngineConfig, w: World, action: Action, s: SpreadSnapshot, nowMs: int, a: Answers)
    requires config.lighterOrderIntervalMs >= 0 && Paced(config, w)
    requires action.PlaceLighterMaker? || action.CancelLighterMaker? || action.NoAction?
    ensures
      var effect := ExecuteAction(config, w.engine, action, s, nowMs, a);
      Paced(config, World(effect.engine, RecordAll(w.ledger, effect.sent, a)))
  {
    var effect := ExecuteAction(config, w.engine, action, s, nowMs, a);
    if effect.sent != [] {
      RecordOne(w.ledger, effect.sent[0], a);
      if action.PlaceLighterMaker? {
        HlSafety.SpacedAppend(w.ledger.placeTimes, nowMs, config.lighterOrderIntervalMs);
      } else {
        HlSafety.SpacedAppend(w.ledger.cancelTimes, nowMs, config.lighterOrderIntervalMs);
      }
    }
  }

  lemma DeferredKeepsPaced(config: EngineConfig, w: World, nowMs: int, s: SpreadSnapshot, a: Answers)
    requires config.lighterOrderIntervalMs >= 0 && Sound(w) && Paced(config, w)
    ensures
      var effect := ExecuteDeferred(config, w.engine, nowMs, s, a);
      Paced(config, World(effect.engine, RecordAll(w.ledger, effect.sent, a)))
  {
    var e := w.engine;
    if e.deferred.Some? && nowMs >= e.nextRetryMs.value {
      ExecuteKeepsPaced(config, World(e.(deferred := None, nextRetryMs := None), w.ledger), e.deferred.value,
                        s, a.steadyMs, a);
    }
  }

  lemma DecideKeepsPaced(config: EngineConfig, w: World, nowMs: int, s: SpreadSnapshot, a: Answers)
    requires config.lighterOrderIntervalMs >= 0 && Paced(config, w)
    ensures
      var effect := Decide(config, w.engine, nowMs, s, a);
      Paced(config, World(effect.engine, RecordAll(w.ledger, effect.sent, a)))
  {
    var (t, action) := LtMaker.OnMarketSnapshot(config.strategy, w.engine.strategy, s, nowMs);
    ExecuteKeepsPaced(config, World(w.engine.(strategy := t), w.ledger), action, s, a.laterMs, a);
  }

  lemma {:induction false} TakersKeepTimes(l: Ledger, sent: seq<Request>, a: Answers)
    requires TakesOnly(sent)
    ensures RecordAll(l, sent, a).placeTimes == l.placeTimes && RecordAll(l, sent, a).cancelTimes == l.cancelTimes
    decreases |sent|
  {
    if sent != [] {
      TakersKeepTimes(Record(l, sent[0], a), sent[1..], a);
    }
  }

  lemma FillKeepsPaced(config: EngineConfig, w: World, fill: Event)
    requires Sound(w) && Paced(config, w) && fill.Fill?
    ensures Paced(config, Step(config, w, fill))
  {
    FillIsHedged(config, w, fill);
    FillKeepsStamps(config, w, fill);
    var effect := React(config, w.engine, fill);
    TakersKeepTimes(RecordFill(w.ledger, fill.orderIndex, fill.size), effect.sent, fill.answers);
  }

  lemma FillKeepsStamps(config: EngineConfig, w: World, fill: Event)
    requires Sound(w) && fill.Fill?
    ensures var e' := React(config, w.engine, fill).engine;
            e'.lastPlaceMs == w.engine.lastPlaceMs && e'.lastCancelMs == w.engine.lastCancelMs
  {
  }

  lemma StepKeepsPaced(config: EngineConfig, w: World, event: Event)
    requires config.lighterOrderIntervalMs >= 0 && Sound(w) && Paced(config, w)
    ensures Paced(config, Step(config, w, event))
  {
    match event
    case Tick(nowMs, hl, lighter, a) =>
      var s := CollectSnapshot(hl, lighter);
      DeferredKeepsPaced(config, w, nowMs, s, a);
      DeferredKeepsSound(config, w, nowMs, s, a);
      var d := ExecuteDeferred(config, w.engine, nowMs, s, a);
      if !d.logged {
        DecideKeepsPaced(config, World(d.engine, w.ledger), nowMs, s, a);
      }
    case Fill(_, _, _, _, _) => FillKeepsPaced(config, w, event);
    case HedgeRejected(_, _, _) =>
  }

  lemma {:induction false} RunKeepsPaced(config: EngineConfig, w: World, events: seq<Event>)
    requires config.lighterOrderIntervalMs >= 0 && Sound(w) && Paced(config, w)
    ensures Paced(config, Run(config, w, events))
  {
    if events != [] {
      var front := events[..|events| - 1];
      RunKeepsPaced(config, w, front);
      RunKeepsSound(config, w, front);
      StepKeepsPaced(config, Run(config, w, front), events[|events| - 1]);
    }
  }

  /** n placements of one run span at least n - 1 intervals, and so do n cancels, whatever the clock does. */
  lemma SendRateIsLimited(config: EngineConfig, events: seq<Event>)
    requires config.lighterOrderIntervalMs >= 0
    ensures
      var l := Run(config, FRESH_WORLD, events).ledger;
      && (l.placeTimes != [] ==> l.placeTimes[|l.placeTimes| - 1] - l.placeTimes[0]
                                 >= (|l.placeTimes| - 1) * config.lighterOrderIntervalMs)
      && (l.cancelTimes != [] ==> l.cancelTimes[|l.cancelTimes| - 1] - l.cancelTimes[0]
                                  >= (|l.cancelTimes| - 1) * config.lighterOrderIntervalMs)
  {
    P.FreshIsSound();
    RunKeepsPaced(config, FRESH_WORLD, events);
    var l := Run(config, FRESH_WORLD, events).ledger;
    if l.placeTimes != [] {
      HlSafety.SpacedSpan(l.placeTimes, config.lighterOrderIntervalMs);
    }
    if l.cancelTimes != [] {
      HlSafety.SpacedSpan(l.cancelTimes, config.lighterOrderIntervalMs);
    }
  }
}
