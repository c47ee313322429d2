/** The forward strategy: rest a maker order on Hyperliquid, hedge its fill on Lighter. */
module HlMaker {
  import opened Types
  import opened Pricing

  /** Arms or disarms the signal gate for one valid snapshot. */
  function UpdateGate(config: HedgerConfig, s: Strategy, spreadBps: real, threshold: Threshold, nowMs: int): Strategy {
    if s.gate.armed then
      if DirectionForSpread(spreadBps) != s.gate.direction
         || Abs(spreadBps) < CancelThreshold(config, s.gate.entrySpreadBps)
      then
        s.(gate := s.gate.(armed := false),
        lastDisarmMs := if s.state.Idle? || s.state.CancelledPendingConfirm? then nowMs else s.lastDisarmMs)
      else s
    else if Abs(spreadBps) >= threshold && CanArm(config, s.lastDisarmMs, nowMs) then
      s.(gate := SignalGate(true, DirectionForSpread(spreadBps), threshold))
    else s
  }

  /** The resting order no longer has the spread it was placed for. */
  predicate ShouldCancel(config: HedgerConfig, s: Strategy, spreadBps: real) {
    && s.state.PendingHlMaker?
    && s.pending.Some?
    && (|| !s.gate.armed
        || DirectionForSpread(spreadBps) != s.pending.value.direction
        || Abs(spreadBps) < CancelThreshold(config, s.pending.value.entrySpreadBps))
  }

  function OnMarketSnapshot(config: HedgerConfig, s: Strategy, snapshot: SpreadSnapshot, nowMs: int,
                            hlPositionBase: real): (Strategy, Action) {
    if !snapshot.Valid(config.maxQuoteAgeMs) then (s, NoAction) else
    var spread := snapshot.crossSpreadBps;
    var g := UpdateGate(config, s, spread, EffectiveSpread(config, spread, hlPositionBase), nowMs);
    if g.state.Idle? then
      if !g.gate.armed then (g, NoAction) else
      var order := HlMakerOrder(config, snapshot, g.gate);
      (g.(pending := Some(order), state := PendingHlMaker), PlaceHlMaker(order))
    else if ShouldCancel(config, g, spread) then
      (g.(state := CancelledPendingConfirm, gate := g.gate.(armed := false), lastDisarmMs := nowMs),
       CancelHlMaker(g.pending.value))
    else (g, NoAction)
  }

  function OnMakerFill(s: Strategy, fillPrice: real, fillSize: real, snapshot: SpreadSnapshot): (Strategy, Action) {
    if s.pending.None? then (s, NoAction) else
    var direction := s.pending.value.direction;
    (s.(open := Some(OpenPosition(direction, fillSize, fillPrice, 0.0)),
        state := HlFilledPendingLighterHedge,
        pending := None),
     SendLighterTakerHedge(HedgeIntent(direction.ShortLighterLongHl?,
                                       AggressiveLighterPrice(snapshot, direction), fillSize)))
  }

  function OnHedgeFill(s: Strategy, fillPrice: real): Strategy {
    if s.open.None? then s
    else s.(open := Some(s.open.value.(lighterFillPrice := fillPrice)), state := Open)
  }

  function OnHedgeReject(s: Strategy): (Strategy, Action) {
    if s.open.None? then (s, NoAction) else (s.(state := UnwindingHl), UnwindHlPosition)
  }

  /** Everything but the time of the last disarm goes back to its initial value. */
  function Reset(s: Strategy): Strategy {
    s.(gate := UNARMED_GATE, pending := None, open := None, state := Idle)
  }

  /** The strategy object. Every method is proved against the function of the same name above. */
  class HlMakerLighterHedger {
    const config: HedgerConfig
    var state: StrategyState
    var gate: SignalGate
    var pendingMaker: Option<MakerOrder>
    var openPosition: Option<OpenPosition>
    var lastDisarmMs: int

    constructor (config: HedgerConfig)
      ensures this.config == config && Model() == FRESH_STRATEGY
    {
      this.config := config;
      state, gate, pendingMaker, openPosition, lastDisarmMs := Idle, UNARMED_GATE, None, None, 0;
    }

    /** The checked construction: null stands for the exception on a bad configuration. */
    static method Make(config: StrategyConfig) returns (hedger: HlMakerLighterHedger?)
      ensures hedger == null <==> config.spreadBps <= 0.0 || config.cancelBandBps < 0.0
      ensures hedger != null ==> fresh(hedger) && hedger.config == config && hedger.Model() == FRESH_STRATEGY
    {
      if config.spreadBps <= 0.0 || config.cancelBandBps < 0.0 {
        return null;
      }
      hedger := new HlMakerLighterHedger(config);
    }

    function Model(): Strategy
      reads this
    {
      Strategy(state, gate, pendingMaker, openPosition, lastDisarmMs)
    }

    method Snapshot(snapshot: SpreadSnapshot, nowMs: int, hlPositionBase: real) returns (action: Action)
      modifies this
      ensures (Model(), action) == OnMarketSnapshot(config, old(Model()), snapshot, nowMs, hlPositionBase)
    {
      if !snapshot.Valid(config.maxQuoteAgeMs) {
        return NoAction;
      }
      var absSpread := Abs(snapshot.crossSpreadBps);
      var liveDirection := DirectionForSpread(snapshot.crossSpreadBps);
      var threshold := EffectiveSpread(config, snapshot.crossSpreadBps, hlPositionBase);

      if gate.armed {
        var gateCancel := CancelThreshold(config, gate.entrySpreadBps);
        if liveDirection != gate.direction || absSpread < gateCancel {
          gate := gate.(armed := false);
          if state == Idle || state == CancelledPendingConfirm {
            lastDisarmMs := nowMs;
          }
        }
      } else if absSpread >= threshold && CanArm(config, lastDisarmMs, nowMs) {
        gate := SignalGate(true, liveDirection, threshold);
      }

      if state == Idle {
        if !gate.armed {
          return NoAction;
        }
        var order := HlMakerOrder(config, snapshot, gate);
        pendingMaker := Some(order);
        state := PendingHlMaker;
        return PlaceHlMaker(order);
      }

      if state == PendingHlMaker && pendingMaker.Some? {
        var cancelThreshold := CancelThreshold(config, pendingMaker.value.entrySpreadBps);
        if !gate.armed || liveDirection != pendingMaker.value.direction || absSpread < cancelThreshold {
          state := CancelledPendingConfirm;
          Disarm(nowMs);
          return CancelHlMaker(pendingMaker.value);
        }
      }
      return NoAction;
    }

    method MakerFill(fillPrice: real, fillSizeBase: real, snapshot: SpreadSnapshot) returns (action: Action)
      modifies this
      ensures (Model(), action) == OnMakerFill(old(Model()), fillPrice, fillSizeBase, snapshot)
    {
      if pendingMaker.None? {
        return NoAction;
      }
      openPosition := Some(OpenPosition(pendingMaker.value.direction, fillSizeBase, fillPrice, 0.0));
      state := HlFilledPendingLighterHedge;
      var isAsk := openPosition.value.direction == ShortLighterLongHl;
      action := SendLighterTakerHedge(HedgeIntent(
        isAsk, AggressiveLighterPrice(snapshot, openPosition.value.direction), openPosition.value.sizeBase));
      pendingMaker := None;
    }

    method HedgeFill(fillPrice: real)
      modifies this
      ensures Model() == OnHedgeFill(old(Model()), fillPrice)
    {
      if openPosition.None? {
        return;
      }
      openPosition := Some(openPosition.value.(lighterFillPrice := fillPrice));
      state := Open;
    }

    method HedgeReject() returns (action: Action)
      modifies this
      ensures (Model(), action) == OnHedgeReject(old(Model()))
    {
      if openPosition.None? {
        return NoAction;
      }
      state := UnwindingHl;
      action := UnwindHlPosition;
    }

    method ResetAll()
      modifies this
      ensures Model() == Reset(old(Model()))
    {
      gate := UNARMED_GATE;
      pendingMaker := None;
      openPosition := None;
      state := Idle;
    }

    method Disarm(nowMs: int)
      modifies this`gate, this`lastDisarmMs
      ensures gate == old(gate).(armed := false) && lastDisarmMs == nowMs
    {
      gate := gate.(armed := false);
      lastDisarmMs := nowMs;
    }
  }
}
