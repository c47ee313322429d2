/** The two strategies are one state machine with the venues swapped. */
module Bisimulation {
  import opened Types
  import opened Pricing
  import HlMaker
  import LtMaker
  import opened HlGate

  function Mirror(s: StrategyState): StrategyState {
    match s
    case PendingHlMaker => PendingLighterMaker
    case CancelledPendingConfirm => CancelledPendingLighterConfirm
    case HlFilledPendingLighterHedge => LighterFilledPendingHlHedge
    case UnwindingHl => UnwindingLighter
    case other => other
  }

  /** The same reverse-strategy call as a forward-strategy command. */
  function ApplyReverse(config: HedgerConfig, s: Strategy, c: Command): (Strategy, Action) {
    match c
    case MarketSnapshot(snapshot, nowMs, _) => LtMaker.OnMarketSnapshot(config, s, snapshot, nowMs)
    case MakerFilled(price, size, snapshot) => LtMaker.OnMakerFill(s, price, size, snapshot)
    case HedgeFilled(price) => (LtMaker.OnHedgeFill(s, price), NoAction)
    case HedgeRejected => LtMaker.OnHedgeReject(s)
    case ResetAll => (LtMaker.Reset(s), NoAction)
  }

  function AfterReverse(config: HedgerConfig, s: Strategy, commands: seq<Command>): Strategy {
    if commands == [] then s
    else ApplyReverse(config, AfterReverse(config, s, commands[..|commands| - 1]), commands[|commands| - 1]).0
  }

  /** Same trade: direction, size, entry and trigger; the maker leg is on the other side. */
  ghost predicate SameOrder(f: MakerOrder, r: MakerOrder) {
    && f.direction == r.direction
    && f.sizeBase == r.sizeBase
    && f.entrySpreadBps == r.entrySpreadBps
    && f.triggerSpreadBps == r.triggerSpreadBps
    && f.isBuy == !r.isBuy
    && f.isBuy == f.direction.ShortLighterLongHl?
  }

  /** Same open position, with the fill prices on the opposite venues. */
  ghost predicate SameOpen(f: OpenPosition, r: OpenPosition) {
    && f.direction == r.direction
    && f.sizeBase == r.sizeBase
    && f.hlFillPrice == r.lighterFillPrice
    && f.lighterFillPrice == r.hlFillPrice
  }

  /** The forward strategy only uses its own half of the states. */
  predicate Forward(s: StrategyState) {
    !s.PendingLighterMaker? && !s.CancelledPendingLighterConfirm? && !s.LighterFilledPendingHlHedge? && !s.UnwindingLighter?
  }

  ghost predicate Related(f: Strategy, r: Strategy) {
    && Forward(f.state)
    && r.state == Mirror(f.state)
    && r.gate == f.gate
    && r.lastDisarmMs == f.lastDisarmMs
    && (f.pending.Some? <==> r.pending.Some?)
    && (f.pending.Some? ==> SameOrder(f.pending.value, r.pending.value))
    && (f.open.Some? <==> r.open.Some?)
    && (f.open.Some? ==> SameOpen(f.open.value, r.open.value))
  }

  /** Signed legs of a complete trade: what Hyperliquid and Lighter end up with. */
  function ForwardLegs(open: OpenPosition, hedge: HedgeIntent): (real, real) {
    (Signed(open.direction, open.sizeBase), SideSigned(!hedge.isAsk, hedge.sizeBase))
  }

  function ReverseLegs(open: OpenPosition, hedge: HlHedgeIntent): (real, real) {
    (SideSigned(hedge.isBuy, hedge.sizeBase), -Signed(open.direction, open.sizeBase))
  }

  ghost predicate SameAction(f: Action, r: Action, fs: Strategy, rs: Strategy) {
    match f
    case NoAction => r.NoAction?
    case PlaceHlMaker(order) => r.PlaceLighterMaker? && SameOrder(order, r.order)
    case CancelHlMaker(order) => r.CancelLighterMaker? && SameOrder(order, r.order)
    case SendLighterTakerHedge(hedge) =>
      && r.SendHlTakerHedge?
      && fs.open.Some? && rs.open.Some?
      && ForwardLegs(fs.open.value, hedge) == ReverseLegs(rs.open.value, r.hlHedge)
      && ForwardLegs(fs.open.value, hedge).0 + ForwardLegs(fs.open.value, hedge).1 == 0.0
    case UnwindHlPosition => r.UnwindLighterPosition?
    case _ => false
  }

  /** The forward gate arms below the opening threshold, on the reduced closing one. */
  predicate Parts(config: HedgerConfig, f: Strategy, c: Command) {
    && c.MarketSnapshot?
    && c.snapshot.Valid(config.maxQuoteAgeMs)
    && !f.gate.armed
    && CanArm(config, f.lastDisarmMs, c.nowMs)
    && EffectiveSpread(config, c.snapshot.crossSpreadBps, c.hlPositionBase) != config.spreadBps
    && Abs(c.snapshot.crossSpreadBps) >= EffectiveSpread(config, c.snapshot.crossSpreadBps, c.hlPositionBase)
  }

  lemma OrdersAreTheSame(config: HedgerConfig, snapshot: SpreadSnapshot, gate: SignalGate)
    ensures SameOrder(HlMakerOrder(config, snapshot, gate), LighterMakerOrder(config, snapshot, gate))
  {
  }

  lemma GatesStayRelated(config: HedgerConfig, f: Strategy, r: Strategy, c: Command)
    requires Related(f, r) && c.MarketSnapshot? && c.snapshot.Valid(config.maxQuoteAgeMs)
    ensures
      var spread := c.snapshot.crossSpreadBps;
      var f' := HlMaker.UpdateGate(config, f, spread, EffectiveSpread(config, spread, c.hlPositionBase), c.nowMs);
      var r' := LtMaker.UpdateGate(config, r, spread, c.nowMs);
      (Parts(config, f, c) ==> f'.gate.armed && f'.gate != r'.gate) && (!Parts(config, f, c) ==> Related(f', r'))
  {
  }

  lemma SnapshotsStayRelated(config: HedgerConfig, f: Strategy, r: Strategy, c: Command)
    requires Related(f, r) && c.MarketSnapshot? && !Parts(config, f, c)
    ensures
      var (f', fa) := Apply(config, f, c);
      var (r', ra) := ApplyReverse(config, r, c);
      Related(f', r') && SameAction(fa, ra, f', r')
  {
    if c.snapshot.Valid(config.maxQuoteAgeMs) {
      var spread := c.snapshot.crossSpreadBps;
      GatesStayRelated(config, f, r, c);
      var g := HlMaker.UpdateGate(config, f, spread, EffectiveSpread(config, spread, c.hlPositionBase), c.nowMs);
      OrdersAreTheSame(config, c.snapshot, g.gate);
      assert HlMaker.ShouldCancel(config, g, spread)
        <==> LtMaker.ShouldCancel(config, LtMaker.UpdateGate(config, r, spread, c.nowMs), spread);
    }
  }

  /** Any common call but a parting one keeps the strategies related and asks for the same trade. */
  lemma StepsStayRelated(config: HedgerConfig, f: Strategy, r: Strategy, c: Command)
    requires Related(f, r) && !Parts(config, f, c)
    ensures
      var (f', fa) := Apply(config, f, c);
      var (r', ra) := ApplyReverse(config, r, c);
      Related(f', r') && SameAction(fa, ra, f', r')
  {
    if c.MarketSnapshot? {
      SnapshotsStayRelated(config, f, r, c);
    }
  }

  /** Related strategies part on exactly the calls that arm the forward gate early, in any state. */
  lemma ClosingThresholdBreaksIt(config: HedgerConfig, f: Strategy, r: Strategy, c: Command)
    requires Related(f, r) && GateMatches(f)
    ensures Related(Apply(config, f, c).0, ApplyReverse(config, r, c).0) <==> !Parts(config, f, c)
  {
    if Parts(config, f, c) {
      GatesStayRelated(config, f, r, c);
    } else {
      StepsStayRelated(config, f, r, c);
    }
  }

  /** Related at the start and after every call. */
  ghost predicate RelatedThroughout(config: HedgerConfig, f: Strategy, r: Strategy, commands: seq<Command>) {
    && Related(After(config, f, commands), AfterReverse(config, r, commands))
    && (commands == [] || RelatedThroughout(config, f, r, commands[..|commands| - 1]))
  }

  predicate NeverParts(config: HedgerConfig, f: Strategy, commands: seq<Command>) {
    if commands == [] then true
    else
      var front := commands[..|commands| - 1];
      NeverParts(config, f, front) && !Parts(config, After(config, f, front), commands[|commands| - 1])
  }

  /** Over any common sequence of snapshots, fills, rejects and resets, the strategies stay related all
      along exactly when no call is a parting one. */
  lemma {:induction false} RunsStayRelated(config: HedgerConfig, f: Strategy, r: Strategy, commands: seq<Command>)
    requires Related(f, r) && GateMatches(f)
    ensures RelatedThroughout(config, f, r, commands) <==> NeverParts(config, f, commands)
    decreases |commands|
  {
    if commands != [] {
      var front, last := commands[..|commands| - 1], commands[|commands| - 1];
      RunsStayRelated(config, f, r, front);
      if RelatedThroughout(config, f, r, front) {
        RunKeepsGate(config, f, front);
        ClosingThresholdBreaksIt(config, After(config, f, front), AfterReverse(config, r, front), last);
      }
    }
  }

  lemma {:induction false} NeverPartsBefore(config: HedgerConfig, f: Strategy, commands: seq<Command>, i: nat)
    requires i < |commands| && NeverParts(config, f, commands)
    ensures NeverParts(config, f, commands[..i]) && !Parts(config, After(config, f, commands[..i]), commands[i])
    decreases |commands|
  {
    if i < |commands| - 1 {
      NeverPartsBefore(config, f, commands[..|commands| - 1], i);
      assert commands[..|commands| - 1][..i] == commands[..i];
    }
  }

  /** From the initial states: every action of a run that never parts is matched, call by call. */
  lemma ActionsMatch(config: HedgerConfig, commands: seq<Command>, i: nat)
    requires i < |commands| && NeverParts(config, FRESH_STRATEGY, commands)
    ensures
      var f, r := After(config, FRESH_STRATEGY, commands[..i]), AfterReverse(config, FRESH_STRATEGY, commands[..i]);
      var (f', fa) := Apply(config, f, commands[i]);
      var (r', ra) := ApplyReverse(config, r, commands[i]);
      SameAction(fa, ra, f', r') && Related(f', r')
  {
    NeverPartsBefore(config, FRESH_STRATEGY, commands, i);
    RunsStayRelated(config, FRESH_STRATEGY, FRESH_STRATEGY, commands[..i]);
    StepsStayRelated(config, After(config, FRESH_STRATEGY, commands[..i]),
                     AfterReverse(config, FRESH_STRATEGY, commands[..i]), commands[i]);
  }
}
