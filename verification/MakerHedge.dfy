/** The forward engine object. Its handlers update the fields in place, step by step; each is
    proved against the function of the engine state of the same name. */
module MakerHedge {
  import opened Types
  import opened Pricing
  import HlMaker
  import E = HlEngine

  class MakerHedgeEngine {
    const config: E.EngineConfig
    const strategy: HlMaker.HlMakerLighterHedger
    var activeHlOid: Option<string>
    var recentlyPlacedOids: set<string>
    var lastMakerDirection: Direction
    var hlPositionBase: real
    var speculativeHedgeSent: bool
    var speculativeHedgeSize: real
    var speculativeHedgeOid: string
    var makerOrderPlacedEpochMs: int
    var lastHlPlaceMs: int
    var lastHlCancelMs: int
    var deferredHlAction: Option<Action>
    var nextRetrySteadyMs: Option<int>

    constructor (config: E.EngineConfig)
      ensures this.config == config && strategy.config == config.strategy && fresh(strategy)
      ensures Model() == E.FRESH_ENGINE
    {
      this.config := config;
      strategy := new HlMaker.HlMakerLighterHedger(config.strategy);
      activeHlOid, recentlyPlacedOids := None, {};
      lastMakerDirection, hlPositionBase := ShortLighterLongHl, 0.0;
      speculativeHedgeSent, speculativeHedgeSize, speculativeHedgeOid := false, 0.0, "";
      makerOrderPlacedEpochMs, lastHlPlaceMs, lastHlCancelMs := 0, 0, 0;
      deferredHlAction, nextRetrySteadyMs := None, None;
    }

    predicate Valid() {
      strategy.config == config.strategy
    }

    function Model(): E.Engine
      reads this, strategy
    {
      E.Engine(strategy.Model(), activeHlOid, recentlyPlacedOids, lastMakerDirection, hlPositionBase,
               speculativeHedgeSent, speculativeHedgeSize, speculativeHedgeOid, makerOrderPlacedEpochMs,
               lastHlPlaceMs, lastHlCancelMs, deferredHlAction, nextRetrySteadyMs)
    }

    /** The limit check before a placement, shared by the tick and by the executor. */
    method LimitBlocks(snapshot: SpreadSnapshot, order: MakerOrder) returns (blocks: bool)
      ensures blocks == E.Blocked(config, Model(), snapshot, order)
    {
      var mid := snapshot.hl.Mid();
      if mid <= 0.0 {
        return false;
      }
      var positionUsd := Abs(hlPositionBase) * mid;
      if positionUsd < config.strategy.maxPositionUsd {
        return false;
      }
      blocks := (hlPositionBase >= 0.0 && order.isBuy) || (hlPositionBase < 0.0 && !order.isBuy);
    }

    method ClearSpeculation()
      modifies this`speculativeHedgeSent, this`speculativeHedgeSize, this`speculativeHedgeOid
      ensures Model() == E.ClearSpeculation(old(Model()))
    {
      speculativeHedgeSent := false;
      speculativeHedgeSize := 0.0;
      speculativeHedgeOid := "";
    }

    method OnMarketData(nowMs: int, hl: Bbo, lighter: Bbo, a: E.Answers) returns (sent: seq<E.Request>, logged: bool)
      requires Valid()
      modifies this, strategy
      ensures E.Effect(Model(), sent, logged)
              == E.OnMarketData(config, old(Model()), nowMs, E.CollectSnapshot(hl, lighter), a)
    {
      var snapshot := E.CollectSnapshot(hl, lighter);
      if deferredHlAction.Some? {
        sent, logged := ExecuteDeferred(nowMs, snapshot, a);
        if logged {
          return;
        }
      }
      var action := strategy.Snapshot(snapshot, nowMs, hlPositionBase);
      if action.PlaceHlMaker? {
        var blocked := LimitBlocks(snapshot, action.order);
        if blocked {
          strategy.ResetAll();
          return [], false;
        }
      }
      sent, logged := ExecuteAction(action, snapshot, a.laterMs, a);
    }

    method ExecuteDeferred(nowMs: int, snapshot: SpreadSnapshot, a: E.Answers) returns (sent: seq<E.Request>, logged: bool)
      requires Valid()
      modifies this, strategy
      ensures E.Effect(Model(), sent, logged) == E.ExecuteDeferred(config, old(Model()), nowMs, snapshot, a)
    {
      if deferredHlAction.None? {
        return [], false;
      }
      if nextRetrySteadyMs.Some? && nowMs < nextRetrySteadyMs.value {
        return [], false;
      }
      var action := deferredHlAction.value;
      deferredHlAction := None;
      nextRetrySteadyMs := None;
      sent, logged := ExecuteAction(action, snapshot, a.steadyMs, a);
    }

    method ExecuteAction(action: Action, snapshot: SpreadSnapshot, nowMs: int, a: E.Answers)
      returns (sent: seq<E.Request>, logged: bool)
      requires Valid()
      modifies this, strategy
      ensures E.Effect(Model(), sent, logged) == E.ExecuteAction(config, old(Model()), action, snapshot, nowMs, a)
    {
      match action
      case PlaceHlMaker(order) =>
        sent, logged := Place(order, snapshot, nowMs, a);
      case CancelHlMaker(order) =>
        sent, logged := Cancel(order, snapshot, nowMs, a);
      case SendLighterTakerHedge(hedge) =>
        sent := [E.LighterIoc(hedge.isAsk, hedge.limitPrice, hedge.sizeBase)];
        if a.iocOk && a.iocConfirmed {
          strategy.HedgeFill(hedge.limitPrice);
          strategy.ResetAll();
        } else {
          var reject := strategy.HedgeReject();
          if reject.UnwindHlPosition? {
            var unwind := Unwind();
            sent := sent + unwind;
          }
        }
        logged := true;
      case UnwindHlPosition =>
        sent := Unwind();
        logged := true;
      case _ =>
        return [], false;
    }

    method Place(order: MakerOrder, snapshot: SpreadSnapshot, nowMs: int, a: E.Answers)
      returns (sent: seq<E.Request>, logged: bool)
      modifies this, strategy
      ensures E.Effect(Model(), sent, logged) == E.ExecutePlace(config, old(Model()), order, snapshot, nowMs, a)
    {
      var blocked := LimitBlocks(snapshot, order);
      if blocked {
        strategy.ResetAll();
        return [], false;
      }
      var elapsed := nowMs - lastHlPlaceMs;
      if elapsed < config.hlOrderIntervalMs {
        deferredHlAction := Some(PlaceHlMaker(order));
        nextRetrySteadyMs := Some(lastHlPlaceMs + config.hlOrderIntervalMs);
        return [], false;
      }
      lastHlPlaceMs := nowMs;
      nextRetrySteadyMs := None;
      deferredHlAction := None;
      sent, logged := [E.HlPlace(order.isBuy, order.price, order.sizeBase, nowMs)], true;
      if a.placeOk {
        Acknowledge(order, a);
      }
    }

    method Acknowledge(order: MakerOrder, a: E.Answers)
      modifies this
      ensures Model() == E.Acknowledge(old(Model()), order, a)
    {
      activeHlOid := Some(a.placeOid);
      recentlyPlacedOids := {};
      recentlyPlacedOids := recentlyPlacedOids + {a.placeOid};
      lastMakerDirection := order.direction;
      makerOrderPlacedEpochMs := a.wallMs;
      ClearSpeculation();
    }

    method Cancel(order: MakerOrder, snapshot: SpreadSnapshot, nowMs: int, a: E.Answers)
      returns (sent: seq<E.Request>, logged: bool)
      modifies this, strategy
      ensures E.Effect(Model(), sent, logged) == E.ExecuteCancel(config, old(Model()), order, snapshot, nowMs, a)
    {
      var elapsed := nowMs - lastHlCancelMs;
      if elapsed < config.hlOrderIntervalMs {
        deferredHlAction := Some(CancelHlMaker(order));
        nextRetrySteadyMs := Some(lastHlCancelMs + config.hlOrderIntervalMs);
        return [], false;
      }
      lastHlCancelMs := nowMs;
      nextRetrySteadyMs := None;
      deferredHlAction := None;
      if activeHlOid.None? {
        return [], true;
      }
      sent, logged := [E.HlCancel(activeHlOid.value, nowMs)], true;
      if a.cancelOk {
        if speculativeHedgeSent {
          var specWasAsk := lastMakerDirection == ShortLighterLongHl;
          var price := E.TakerPrice(snapshot, !specWasAsk, E.URGENT_SLIPPAGE_BPS);
          sent := sent + [E.LighterIoc(!specWasAsk, price, speculativeHedgeSize)];
        }
        ClearSpeculation();
        activeHlOid := None;
        strategy.ResetAll();
      }
    }

    method Unwind() returns (sent: seq<E.Request>)
      ensures sent == E.ExecuteUnwind(Model()).sent
    {
      var open := strategy.openPosition;
      var isBuy := open.Some? && open.value.direction == LongLighterShortHl;
      sent := [E.HlReduce(isBuy, if open.Some? then open.value.sizeBase else 0.0)];
    }

    method OnHlFill(fillSizeBase: real, snapshot: SpreadSnapshot, oid: string, a: E.Answers)
      returns (sent: seq<E.Request>, logged: bool)
      modifies this, strategy
      ensures E.Effect(Model(), sent, logged) == E.OnHlFill(old(Model()), fillSizeBase, snapshot, oid, a)
    {
      if oid !in recentlyPlacedOids {
        return [], false;
      }
      logged := true;
      if speculativeHedgeSent && oid == speculativeHedgeOid {
        sent := Reconcile(fillSizeBase, snapshot, oid);
      } else {
        sent := HedgeFill(fillSizeBase, snapshot, a);
      }
    }

    method Reconcile(fillSizeBase: real, snapshot: SpreadSnapshot, oid: string) returns (sent: seq<E.Request>)
      modifies this, strategy
      ensures E.Effect(Model(), sent, true) == E.Reconcile(old(Model()), fillSizeBase, snapshot, oid)
    {
      var isAsk := lastMakerDirection == ShortLighterLongHl;
      var sizeDiff := fillSizeBase - speculativeHedgeSize;
      hlPositionBase := hlPositionBase + (if isAsk then fillSizeBase else -fillSizeBase);
      if Abs(sizeDiff) < E.MATCH_TOLERANCE {
        ClearSpeculation();
        CloseOrder(oid);
        return [];
      }
      if sizeDiff > E.MATCH_TOLERANCE {
        sent := [E.LighterIoc(isAsk, E.TakerPrice(snapshot, isAsk, E.HEDGE_SLIPPAGE_BPS), sizeDiff)];
        CloseOrder(oid);
      } else {
        var overshoot := -sizeDiff;
        sent := [E.LighterIoc(!isAsk, E.TakerPrice(snapshot, !isAsk, E.URGENT_SLIPPAGE_BPS), overshoot)];
      }
      ClearSpeculation();
    }

    method CloseOrder(oid: string)
      modifies this`recentlyPlacedOids, this`activeHlOid, strategy
      ensures Model() == E.CloseOrder(old(Model()), oid)
    {
      recentlyPlacedOids := recentlyPlacedOids - {oid};
      activeHlOid := None;
      strategy.ResetAll();
    }

    method HedgeFill(fillSizeBase: real, snapshot: SpreadSnapshot, a: E.Answers) returns (sent: seq<E.Request>)
      modifies this, strategy
      ensures E.Effect(Model(), sent, true) == E.HedgeFill(old(Model()), fillSizeBase, snapshot, a)
    {
      var isAsk := lastMakerDirection == ShortLighterLongHl;
      sent := [E.LighterIoc(isAsk, E.TakerPrice(snapshot, isAsk, E.HEDGE_SLIPPAGE_BPS), fillSizeBase)];
      if a.iocOk && a.iocConfirmed {
        hlPositionBase := hlPositionBase + (if isAsk then fillSizeBase else -fillSizeBase);
      } else {
        sent := sent + [E.HlReduce(!isAsk, fillSizeBase)];
      }
      strategy.ResetAll();
      activeHlOid := None;
    }

    /** The trade went far enough through the resting price and was big enough to be our fill. */
    method PriceCrosses(pending: MakerOrder, trade: TradeEvent) returns (priceCrossed: bool)
      ensures priceCrossed == E.Crosses(config, pending, trade)
    {
      var threshold := E.CrossThreshold(config, pending);
      priceCrossed := false;
      if pending.isBuy {
        if trade.price <= threshold {
          priceCrossed := true;
        }
      } else if trade.price >= threshold {
        priceCrossed := true;
      }
      if priceCrossed && E.TooSmall(config, pending, trade) {
        priceCrossed := false;
      }
    }

    method OnTradeEvent(trade: TradeEvent, hl: Bbo, lighter: Bbo, a: E.Answers) returns (sent: seq<E.Request>, logged: bool)
      requires Valid()
      modifies this
      ensures E.Effect(Model(), sent, logged)
              == E.OnTradeEvent(config, old(Model()), trade, E.CollectSnapshot(hl, lighter), a)
    {
      if activeHlOid.None? || strategy.pendingMaker.None? || speculativeHedgeSent {
        return [], false;
      }
      var pending := strategy.pendingMaker.value;
      if trade.exchangeTimeMs > 0 && makerOrderPlacedEpochMs > 0 && trade.exchangeTimeMs < makerOrderPlacedEpochMs {
        return [], false;
      }
      var priceCrossed := PriceCrosses(pending, trade);
      if !priceCrossed {
        return [], false;
      }
      var snapshot := E.CollectSnapshot(hl, lighter);
      if !snapshot.Valid(config.strategy.maxQuoteAgeMs) {
        return [], false;
      }
      var isAsk := pending.direction == ShortLighterLongHl;
      sent, logged := [E.LighterIoc(isAsk, E.TakerPrice(snapshot, isAsk, E.URGENT_SLIPPAGE_BPS), pending.sizeBase)], true;
      speculativeHedgeSent := true;
      speculativeHedgeSize := pending.sizeBase;
      speculativeHedgeOid := activeHlOid.value;
      if !(a.iocOk && a.iocConfirmed) {
        ClearSpeculation();
      }
    }

    method OnLighterHedgeReject(hl: Bbo, lighter: Bbo, a: E.Answers) returns (sent: seq<E.Request>, logged: bool)
      requires Valid()
      modifies this, strategy
      ensures E.Effect(Model(), sent, logged)
              == E.OnHedgeReject(config, old(Model()), E.CollectSnapshot(hl, lighter), a)
    {
      var action := strategy.HedgeReject();
      sent, logged := ExecuteAction(action, E.CollectSnapshot(hl, lighter), a.laterMs, a);
    }

    method OnLighterHedgeFill(fillPrice: real)
      modifies strategy
      ensures E.Effect(Model(), [], false) == E.OnHedgeFill(old(Model()), fillPrice)
    {
      strategy.HedgeFill(fillPrice);
    }
  }
}
