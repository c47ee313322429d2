/** What the taker requests of both engines have in common: they cross their own book, and by no
    more than the slippage allowed. And what the closing threshold may let through. */
module TakerPrices {
  import opened Types
  import opened Pricing
  import opened HlEngine
  import opened HlLedger
  import opened HlLifecycle
  import HlMaker
  import L = LtEngine
  import N = LtNeutrality

  const LIMIT_BPS := 15.0

  /** Between the mid and 15 basis points through it, on the taking side. */
  predicate Crosses15(isAsk: bool, price: real, mid: real) {
    if isAsk then mid * (1.0 - LIMIT_BPS / 10000.0) <= price < mid
    else mid < price <= mid * (1.0 + LIMIT_BPS / 10000.0)
  }

  /** The snapshot that an event is handled with. */
  function SnapshotOf(event: Event): SpreadSnapshot {
    match event
    case Tick(_, hl, lighter, _) => CollectSnapshot(hl, lighter)
    case Fill(_, _, snapshot, _) => snapshot
    case Trade(_, hl, lighter, _) => CollectSnapshot(hl, lighter)
    case HedgeRejected(hl, lighter, _) => CollectSnapshot(hl, lighter)
    case HedgeFilled(_, _) => CollectSnapshot(Bbo(0.0, 0.0, 0), Bbo(0.0, 0.0, 0))
  }

  lemma Fraction(mid: real, rate: real, limit: real)
    requires mid > 0.0 && 0.0 < rate <= limit
    ensures mid * (1.0 - limit) <= mid * (1.0 - rate) < mid
    ensures mid < mid * (1.0 + rate) <= mid * (1.0 + limit)
  {
    Scale(mid, rate, limit);
    assert mid * (1.0 - rate) == mid - mid * rate && mid * (1.0 + rate) == mid + mid * rate;
    assert mid * (1.0 - limit) == mid - mid * limit && mid * (1.0 + limit) == mid + mid * limit;
  }

  lemma Scale(mid: real, rate: real, limit: real)
    requires mid > 0.0 && 0.0 < rate <= limit
    ensures 0.0 < mid * rate <= mid * limit
  {
  }

  lemma Slippage(mid: real, bps: real)
    requires mid > 0.0 && (bps == 10.0 || bps == 15.0)
    ensures Crosses15(true, mid * (1.0 - bps / 10000.0), mid) && Crosses15(false, mid * (1.0 + bps / 10000.0), mid)
  {
    Fraction(mid, bps / 10000.0, LIMIT_BPS / 10000.0);
  }

  predicate Urgency(bps: real) {
    bps == HEDGE_SLIPPAGE_BPS || bps == URGENT_SLIPPAGE_BPS
  }

  lemma CancelIocPrice(config: EngineConfig, e: Engine, order: MakerOrder, snapshot: SpreadSnapshot, nowMs: int, a: Answers)
    ensures var sent := ExecuteCancel(config, e, order, snapshot, nowMs, a).sent;
            forall i :: 0 <= i < |sent| && sent[i].LighterIoc? ==>
                          sent[i].price == TakerPrice(snapshot, sent[i].isAsk, URGENT_SLIPPAGE_BPS)
  {
  }

  lemma TickIocPrice(config: EngineConfig, w: World, event: Event, i: nat)
    requires Sound(w) && event.Tick?
    requires var sent := React(config, w.engine, event).sent; i < |sent| && sent[i].LighterIoc?
    ensures var r := React(config, w.engine, event).sent[i];
            r.price == TakerPrice(SnapshotOf(event), r.isAsk, URGENT_SLIPPAGE_BPS)
  {
    var e, snapshot := w.engine, SnapshotOf(event);
    if e.deferred.Some? && e.deferred.value.CancelHlMaker? {
      CancelIocPrice(config, e.(deferred := None, nextRetryMs := None), e.deferred.value.order, snapshot,
                     event.answers.steadyMs, event.answers);
    }
    var d := ExecuteDeferred(config, e, event.nowMs, snapshot, event.answers);
    if !d.logged {
      DecideIocPrice(config, d.engine, event.nowMs, snapshot, event.answers);
    }
  }

  lemma DecideIocPrice(config: EngineConfig, e: Engine, nowMs: int, snapshot: SpreadSnapshot, a: Answers)
    ensures var sent := Decide(config, e, nowMs, snapshot, a).sent;
            forall i :: 0 <= i < |sent| && sent[i].LighterIoc? ==>
                          sent[i].price == TakerPrice(snapshot, sent[i].isAsk, URGENT_SLIPPAGE_BPS)
  {
    var (s, action) := HlMaker.OnMarketSnapshot(config.strategy, e.strategy, snapshot, nowMs, e.hlPositionBase);
    if action.CancelHlMaker? {
      CancelIocPrice(config, e.(strategy := s), action.order, snapshot, a.laterMs, a);
    }
  }

  lemma OtherIocPrice(config: EngineConfig, w: World, event: Event, i: nat) returns (bps: real)
    requires Sound(w) && !event.Tick?
    requires var sent := React(config, w.engine, event).sent; i < |sent| && sent[i].LighterIoc?
    ensures Urgency(bps)
    ensures var r := React(config, w.engine, event).sent[i]; r.price == TakerPrice(SnapshotOf(event), r.isAsk, bps)
  {
    var r := React(config, w.engine, event).sent[i];
    bps := if r.price == TakerPrice(SnapshotOf(event), r.isAsk, HEDGE_SLIPPAGE_BPS) then HEDGE_SLIPPAGE_BPS
           else URGENT_SLIPPAGE_BPS;
  }

  /** Every hedge, speculative hedge, correction and unwind that the forward engine sends to Lighter
      in any reachable state sells below the Lighter mid or buys above it, by at most 15 basis points,
      exactly when the book has a mid; without one it is sent at price zero. */
  lemma IocsCrossTheMid(config: EngineConfig, w: World, event: Event, i: nat)
    requires Sound(w)
    requires var sent := React(config, w.engine, event).sent; i < |sent| && sent[i].LighterIoc?
    ensures
      var r, mid := React(config, w.engine, event).sent[i], SnapshotOf(event).lighter.Mid();
      && (Crosses15(r.isAsk, r.price, mid) <==> mid > 0.0)
      && (mid == 0.0 ==> r.price == 0.0)
  {
    var r, snapshot := React(config, w.engine, event).sent[i], SnapshotOf(event);
    var bps := URGENT_SLIPPAGE_BPS;
    if event.Tick? {
      TickIocPrice(config, w, event, i);
    } else {
      bps := OtherIocPrice(config, w, event, i);
    }
    TakerCrosses(snapshot, r.isAsk, bps);
  }

  lemma TakerCrosses(snapshot: SpreadSnapshot, isAsk: bool, bps: real)
    requires Urgency(bps)
    ensures
      var mid, price := snapshot.lighter.Mid(), TakerPrice(snapshot, isAsk, bps);
      (Crosses15(isAsk, price, mid) <==> mid > 0.0) && (mid == 0.0 ==> price == 0.0)
  {
    if snapshot.lighter.Mid() > 0.0 {
      Slippage(snapshot.lighter.Mid(), bps);
    }
  }

  /** The reverse engine's HL hedge of a fill buys above the HL ask or sells below the HL bid, exactly
      when that side of the book is there, and the unwind of a failed one crosses the Lighter mid by
      at most 15 basis points, exactly when there is one. */
  lemma ReverseHedgeCrossesTheBook(config: L.EngineConfig, w: N.World, fill: N.Event, i: nat)
    requires N.Sound(w) && fill.Fill? && i < |N.React(config, w.engine, fill).sent|
    ensures
      var r, hl, mid := N.React(config, w.engine, fill).sent[i], fill.snapshot.hl, fill.snapshot.lighter.Mid();
      && (r.HlIoc? || r.LighterIoc?)
      && (r.HlIoc? && r.isBuy ==> (r.price > hl.ask <==> hl.ask > 0.0))
      && (r.HlIoc? && !r.isBuy ==> (0.0 < r.price < hl.bid <==> hl.bid > 0.0))
      && (r.LighterIoc? ==> (Crosses15(r.isAsk, r.price, mid) <==> mid > 0.0))
  {
    N.FillIsHedgedOnce(config, w, fill);
    if fill.snapshot.lighter.Mid() > 0.0 {
      Slippage(fill.snapshot.lighter.Mid(), L.UNWIND_SLIPPAGE_BPS);
    }
  }

  /** An order that is placed below the opening threshold reduces the position, so the position limit
      never blocks it, however far the limit is exceeded. */
  lemma ClosingOrdersReduce(config: EngineConfig, e: Engine, snapshot: SpreadSnapshot, gate: SignalGate)
    requires gate.direction == DirectionForSpread(snapshot.crossSpreadBps)
    requires EffectiveSpread(config.strategy, snapshot.crossSpreadBps, e.hlPositionBase) < config.strategy.spreadBps
    ensures
      var order := HlMakerOrder(config.strategy, snapshot, gate);
      && !Blocked(config, e, snapshot, order)
      && (0.0 < order.sizeBase <= Abs(e.hlPositionBase) ==>
            Abs(e.hlPositionBase + Signed(order.direction, order.sizeBase)) < Abs(e.hlPositionBase))
  {
  }

  /** The closing threshold is in force exactly when it is configured below the opening one and the
      live direction is against the position. */
  lemma ClosingThresholdApplies(config: HedgerConfig, crossSpreadBps: real, position: real)
    ensures
      EffectiveSpread(config, crossSpreadBps, position) < config.spreadBps
      <==> && 0.0 < config.closeSpreadBps < config.spreadBps
           && Signed(DirectionForSpread(crossSpreadBps), 1.0) * position < 0.0
  {
  }
}
