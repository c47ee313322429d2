/** The reverse engine object; each handler is proved against the function of the same name. */
module LighterTaker {
  import opened Types
  import LtMaker
  import E = LtEngine

  class LighterMakerTakerEngine {
    const config: E.EngineConfig
    const strategy: LtMaker.LighterMakerHlHedger
    var activeLighterOrderIndex: Option<int>
    var lastMakerDirection: Direction
    var lastLighterPlaceMs: int
    var lastLighterCancelMs: int
    var deferredLighterAction: Option<Action>
    var nextRetrySteadyMs: Option<int>

    constructor (config: E.EngineConfig)
      ensures this.config == config && Valid() && fresh(strategy)
      ensures Model() == E.FRESH_ENGINE
    {
      this.config := config;
      strategy := new LtMaker.LighterMakerHlHedger(config.strategy);
      activeLighterOrderIndex, lastMakerDirection := None, ShortLighterLongHl;
      lastLighterPlaceMs, lastLighterCancelMs := 0, 0;
      deferredLighterAction, nextRetrySteadyMs := None, None;
    }

    predicate Valid() {
      strategy.config == config.strategy
    }

    function Model(): E.Engine
      reads this, strategy
    {
      E.Engine(strategy.Model(), activeLighterOrderIndex, lastMakerDirection, lastLighterPlaceMs,
               lastLighterCancelMs, deferredLighterAction, nextRetrySteadyMs)
    }

    method OnMarketData(nowMs: int, hl: Bbo, lighter: Bbo, a: E.Answers) returns (sent: seq<E.Request>, logged: bool)
      requires Valid()
      modifies this, strategy
      ensures E.Effect(Model(), sent, logged)
              == E.OnMarketData(config, old(Model()), nowMs, E.CollectSnapshot(hl, lighter), a)
    {
      var snapshot := E.CollectSnapshot(hl, lighter);
      if deferredLighterAction.Some? {
        sent, logged := ExecuteDeferred(nowMs, snapshot, a);
        if logged {
          return;
        }
      }
      var action := strategy.Snapshot(snapshot, nowMs);
      sent, logged := ExecuteAction(action, snapshot, a.laterMs, a);
    }

    method OnLighterFill(fillPrice: real, fillSizeBase: real, snapshot: SpreadSnapshot, orderIndex: int, a: E.Answers)
      returns (sent: seq<E.Request>, logged: bool)
      modifies this, strategy
      ensures E.Effect(Model(), sent, logged)
              == E.OnLighterFill(config, old(Model()), fillPrice, fillSizeBase, snapshot, orderIndex, a)
    {
      if activeLighterOrderIndex.None? || activeLighterOrderIndex.value != orderIndex {
        return [], false;
      }
      var action := strategy.MakerFill(fillPrice, fillSizeBase, snapshot);
      sent, logged := ExecuteAction(action, snapshot, a.laterMs, a);
    }

    method OnHlHedgeReject(hl: Bbo, lighter: Bbo, a: E.Answers) returns (sent: seq<E.Request>, logged: bool)
      modifies this, strategy
      ensures E.Effect(Model(), sent, logged)
              == E.OnHedgeReject(config, old(Model()), E.CollectSnapshot(hl, lighter), a)
    {
      var action := strategy.HedgeReject();
      sent, logged := ExecuteAction(action, E.CollectSnapshot(hl, lighter), a.laterMs, a);
    }

    method ExecuteDeferred(nowMs: int, snapshot: SpreadSnapshot, a: E.Answers) returns (sent: seq<E.Request>, logged: bool)
      modifies this, strategy
      ensures E.Effect(Model(), sent, logged) == E.ExecuteDeferred(config, old(Model()), nowMs, snapshot, a)
    {
      if deferredLighterAction.None? {
        return [], false;
      }
      if nextRetrySteadyMs.Some? && nowMs < nextRetrySteadyMs.value {
        return [], false;
      }
      var action := deferredLighterAction.value;
      deferredLighterAction := None;
      nextRetrySteadyMs := None;
      sent, logged := ExecuteAction(action, snapshot, a.steadyMs, a);
    }

    method ExecuteAction(action: Action, snapshot: SpreadSnapshot, nowMs: int, a: E.Answers)
      returns (sent: seq<E.Request>, logged: bool)
      modifies this, strategy
      ensures E.Effect(Model(), sent, logged) == E.ExecuteAction(config, old(Model()), action, snapshot, nowMs, a)
    {
      match action
      case PlaceLighterMaker(order) =>
        if nowMs - lastLighterPlaceMs < config.lighterOrderIntervalMs {
          deferredLighterAction := Some(action);
          nextRetrySteadyMs := Some(lastLighterPlaceMs + config.lighterOrderIntervalMs);
          return [], false;
        }
        lastLighterPlaceMs := nowMs;
        nextRetrySteadyMs := None;
        deferredLighterAction := None;
        sent, logged := [E.LighterPlace(!order.isBuy, order.price, order.sizeBase, nowMs)], true;
        if a.placeOk && a.restingConfirmed {
          activeLighterOrderIndex := Some(a.placeIndex);
          lastMakerDirection := order.direction;
        }
      case CancelLighterMaker(order) =>
        if nowMs - lastLighterCancelMs < config.lighterOrderIntervalMs {
          deferredLighterAction := Some(action);
          nextRetrySteadyMs := Some(lastLighterCancelMs + config.lighterOrderIntervalMs);
          return [], false;
        }
        lastLighterCancelMs := nowMs;
        nextRetrySteadyMs := None;
        deferredLighterAction := None;
        if activeLighterOrderIndex.None? {
          return [], true;
        }
        sent, logged := [E.LighterCancel(activeLighterOrderIndex.value, nowMs)], true;
        if a.cancelOk {
          activeLighterOrderIndex := None;
          strategy.ResetAll();
        }
      case SendHlTakerHedge(hedge) =>
        sent, logged := [E.HlIoc(hedge.isBuy, hedge.limitPrice, hedge.sizeBase)], true;
        if a.hlOk && a.hlFilledSize > 0.0 {
          strategy.HedgeFill(a.hlAvgPrice);
        } else {
          var unwindIsAsk := lastMakerDirection == LongLighterShortHl;
          sent := sent + [E.LighterIoc(unwindIsAsk, E.UnwindPrice(snapshot, unwindIsAsk), hedge.sizeBase)];
        }
        activeLighterOrderIndex := None;
        strategy.ResetAll();
      case UnwindLighterPosition =>
        var open := strategy.openPosition;
        var isAsk := open.Some? && open.value.direction == LongLighterShortHl;
        var size := if open.Some? then open.value.sizeBase else 0.0;
        return [E.LighterIoc(isAsk, E.UnwindPrice(snapshot, isAsk), size)], true;
      case _ =>
        return [], false;
    }
  }
}
