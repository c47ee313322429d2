/** Gate hysteresis of the forward strategy over arbitrary sequences of its calls. */
module HlGate {
  import opened Types
  import opened Pricing
  import opened HlMaker

  /** One public call on the strategy object. */
  datatype Command =
    | MarketSnapshot(snapshot: SpreadSnapshot, nowMs: int, hlPositionBase: real)
    | MakerFilled(fillPrice: real, fillSize: real, snapshot: SpreadSnapshot)
    | HedgeFilled(fillPrice: real)
    | HedgeRejected
    | ResetAll

  function Apply(config: HedgerConfig, s: Strategy, c: Command): (Strategy, Action) {
    match c
    case MarketSnapshot(snapshot, nowMs, position) => OnMarketSnapshot(config, s, snapshot, nowMs, position)
    case MakerFilled(price, size, snapshot) => OnMakerFill(s, price, size, snapshot)
    case HedgeFilled(price) => (OnHedgeFill(s, price), NoAction)
    case HedgeRejected => OnHedgeReject(s)
    case ResetAll => (Reset(s), NoAction)
  }

  function After(config: HedgerConfig, s: Strategy, commands: seq<Command>): Strategy {
    if commands == [] then s
    else Apply(config, After(config, s, commands[..|commands| - 1]), commands[|commands| - 1]).0
  }

  /** The action produced by the i-th call of a run. */
  function ActionAt(config: HedgerConfig, s: Strategy, commands: seq<Command>, i: nat): Action
    requires i < |commands|
  {
    Apply(config, After(config, s, commands[..i]), commands[i]).1
  }

  ghost predicate GateMatches(s: Strategy) {
    && (s.state.Idle? ==> !s.gate.armed)
    && (s.state.PendingHlMaker? ==>
          && s.pending.Some?
          && s.gate.armed
          && s.gate.direction == s.pending.value.direction
          && s.gate.entrySpreadBps == s.pending.value.entrySpreadBps)
  }

  lemma ApplyKeepsGate(config: HedgerConfig, s: Strategy, c: Command)
    requires GateMatches(s)
    ensures GateMatches(Apply(config, s, c).0)
  {
  }

  lemma {:induction false} RunKeepsGate(config: HedgerConfig, s: Strategy, commands: seq<Command>)
    requires GateMatches(s)
    ensures GateMatches(After(config, s, commands))
    decreases |commands|
  {
    if commands != [] {
      RunKeepsGate(config, s, commands[..|commands| - 1]);
      ApplyKeepsGate(config, After(config, s, commands[..|commands| - 1]), commands[|commands| - 1]);
    }
  }

  /** Whatever came before, an order is placed only on a valid snapshot at or above the effective
      threshold, in the live direction, and once the rearm time has passed. */
  lemma PlacementIsAtThreshold(config: HedgerConfig, s: Strategy, commands: seq<Command>, i: nat)
    requires GateMatches(s) && i < |commands| && ActionAt(config, s, commands, i).PlaceHlMaker?
    ensures commands[i].MarketSnapshot?
    ensures
      var c, before := commands[i], After(config, s, commands[..i]);
      var spread := c.snapshot.crossSpreadBps;
      var order := ActionAt(config, s, commands, i).order;
      && c.snapshot.Valid(config.maxQuoteAgeMs)
      && Abs(spread) >= EffectiveSpread(config, spread, c.hlPositionBase)
      && order.direction == DirectionForSpread(spread)
      && order.entrySpreadBps == EffectiveSpread(config, spread, c.hlPositionBase)
      && c.nowMs - before.lastDisarmMs >= config.minRearmMs
  {
    RunKeepsGate(config, s, commands[..i]);
  }

  /** The spread an order needs to stay: its own direction, and no lower than its entry less the band. */
  predicate Holds(config: HedgerConfig, order: MakerOrder, spreadBps: real) {
    && DirectionForSpread(spreadBps) == order.direction
    && Abs(spreadBps) >= Max(0.0, order.entrySpreadBps - config.cancelBandBps)
  }

  /** The time of the last disarm is set by a valid snapshot that no longer holds a pending order, or
      after its cancel a gate that had armed again; by nothing else. */
  lemma DisarmIsStamped(config: HedgerConfig, s: Strategy, c: Command)
    requires GateMatches(s)
    ensures
      Apply(config, s, c).0.lastDisarmMs
      == if && c.MarketSnapshot? && c.snapshot.Valid(config.maxQuoteAgeMs)
            && (s.state.PendingHlMaker? || (s.state.CancelledPendingConfirm? && s.gate.armed))
            && (|| DirectionForSpread(c.snapshot.crossSpreadBps) != s.gate.direction
                || Abs(c.snapshot.crossSpreadBps) < Max(0.0, s.gate.entrySpreadBps - config.cancelBandBps))
         then c.nowMs else s.lastDisarmMs
  {
  }

  ghost predicate OnlySnapshots(commands: seq<Command>) {
    forall i :: 0 <= i < |commands| ==> commands[i].MarketSnapshot?
  }

  ghost predicate AlwaysHolds(config: HedgerConfig, order: MakerOrder, commands: seq<Command>)
    requires OnlySnapshots(commands)
  {
    forall i :: 0 <= i < |commands| && commands[i].snapshot.Valid(config.maxQuoteAgeMs) ==>
                  Holds(config, order, commands[i].snapshot.crossSpreadBps)
  }

  /** Absent fills and resets, an order stays pending exactly while every valid snapshot holds it;
      once lost it is not pending again. */
  lemma {:induction false} PendingExactlyWhileHeld(config: HedgerConfig, s: Strategy, commands: seq<Command>)
    requires GateMatches(s) && s.state.PendingHlMaker? && OnlySnapshots(commands)
    ensures
      var t := After(config, s, commands);
      && t.pending == s.pending
      && (t.state.PendingHlMaker? || t.state.CancelledPendingConfirm?)
      && (t.state.PendingHlMaker? <==> AlwaysHolds(config, s.pending.value, commands))
    decreases |commands|
  {
    if commands != [] {
      var n := |commands| - 1;
      PendingExactlyWhileHeld(config, s, commands[..n]);
      RunKeepsGate(config, s, commands[..n]);
      assert AlwaysHolds(config, s.pending.value, commands) <==>
        AlwaysHolds(config, s.pending.value, commands[..n])
        && (commands[n].snapshot.Valid(config.maxQuoteAgeMs) ==>
              Holds(config, s.pending.value, commands[n].snapshot.crossSpreadBps)) by {
        assert commands == commands[..n] + [commands[n]];
      }
    }
  }

  ghost predicate ClockIsMonotone(commands: seq<Command>) {
    forall i, j :: 0 <= i < j < |commands| && commands[i].MarketSnapshot? && commands[j].MarketSnapshot? ==>
                     commands[i].nowMs <= commands[j].nowMs
  }

  lemma {:induction false} DisarmIsRemembered(config: HedgerConfig, s: Strategy, commands: seq<Command>, i: nat, k: nat)
    requires GateMatches(s) && ClockIsMonotone(commands) && i < k <= |commands|
    requires ActionAt(config, s, commands, i).CancelHlMaker?
    ensures commands[i].MarketSnapshot?
    ensures After(config, s, commands[..k]).lastDisarmMs >= commands[i].nowMs
    decreases k
  {
    var front := commands[..k];
    assert front[..k - 1] == commands[..k - 1];
    if k > i + 1 {
      DisarmIsRemembered(config, s, commands, i, k - 1);
    }
  }

  /** With a monotone clock, any placement after any cancel waits out the rearm time, however many
      fills and resets lie between them. */
  lemma PlacementWaitsAfterCancel(config: HedgerConfig, s: Strategy, commands: seq<Command>, i: nat, j: nat)
    requires GateMatches(s) && ClockIsMonotone(commands) && i < j < |commands|
    requires ActionAt(config, s, commands, i).CancelHlMaker?
    requires ActionAt(config, s, commands, j).PlaceHlMaker?
    ensures commands[i].MarketSnapshot? && commands[j].MarketSnapshot?
    ensures commands[j].nowMs - commands[i].nowMs >= config.minRearmMs
  {
    DisarmIsRemembered(config, s, commands, i, j);
    PlacementIsAtThreshold(config, s, commands, j);
  }
}
