/** How the reverse engine gets stuck, with the exact conditions, and reachable runs of it: two that
    never trade again and one that drops the second part of a fill. */
module LtProgress {
  import opened Types
  import opened Pricing
  import opened LtEngine
  import opened LtNeutrality
  import LtMaker
  import HlGate

  // ---------- The gate inside the engine ----------

  ghost predicate GateMatches(s: Strategy) {
    && (s.state.Idle? ==> !s.gate.armed)
    && (s.state.PendingLighterMaker? ==>
          && s.pending.Some?
          && s.gate.armed
          && s.gate.direction == s.pending.value.direction
          && s.gate.entrySpreadBps == s.pending.value.entrySpreadBps)
  }

  lemma DecideKeepsGate(config: EngineConfig, e: Engine, nowMs: int, snapshot: SpreadSnapshot, a: Answers)
    requires GateMatches(e.strategy)
    ensures GateMatches(Decide(config, e, nowMs, snapshot, a).engine.strategy)
  {
  }

  lemma DeferredKeepsGate(config: EngineConfig, e: Engine, nowMs: int, snapshot: SpreadSnapshot, a: Answers)
    requires GateMatches(e.strategy)
    requires e.deferred.Some? ==> e.deferred.value.PlaceLighterMaker? || e.deferred.value.CancelLighterMaker?
    ensures GateMatches(ExecuteDeferred(config, e, nowMs, snapshot, a).engine.strategy)
  {
  }

  lemma StepKeepsGate(config: EngineConfig, w: World, event: Event)
    requires Sound(w) && GateMatches(w.engine.strategy)
    ensures GateMatches(Step(config, w, event).engine.strategy)
  {
    match event
    case Tick(nowMs, hl, lighter, a) =>
      var snapshot := CollectSnapshot(hl, lighter);
      DeferredKeepsGate(config, w.engine, nowMs, snapshot, a);
      var d := ExecuteDeferred(config, w.engine, nowMs, snapshot, a);
      DecideKeepsGate(config, d.engine, nowMs, snapshot, a);
    case _ =>
  }

  lemma {:induction false} RunKeepsEngineGate(config: EngineConfig, w: World, events: seq<Event>)
    requires Sound(w) && GateMatches(w.engine.strategy)
    ensures Sound(Run(config, w, events)) && GateMatches(Run(config, w, events).engine.strategy)
  {
    RunKeepsSound(config, w, events);
    if events != [] {
      var front := events[..|events| - 1];
      RunKeepsEngineGate(config, w, front);
      StepKeepsGate(config, Run(config, w, front), events[|events| - 1]);
    }
  }

  // ---------- Stuck engines ----------

  /** A deferred placement, if there is one, is not due, or is put back by the rate limiter. */
  predicate StaysParked(config: EngineConfig, e: Engine, tick: Event)
    requires tick.Tick? && (e.deferred.Some? ==> e.nextRetryMs.Some?)
  {
    DefersPlacement(e) ==>
      || tick.nowMs < e.nextRetryMs.value
      || RetryAt(e.lastPlaceMs, config.lighterOrderIntervalMs, tick.answers.steadyMs).Some?
  }

  /** The tick cancels an order that the engine does not have. */
  predicate CancelsNothing(config: EngineConfig, e: Engine, tick: Event)
    requires tick.Tick? && (e.deferred.Some? ==> e.nextRetryMs.Some?)
  {
    var snapshot := CollectSnapshot(tick.hl, tick.lighter);
    && e.strategy.state.PendingLighterMaker? && e.strategy.pending.Some? && e.activeIndex.None?
    && snapshot.Valid(config.strategy.maxQuoteAgeMs)
    && !HlGate.Holds(config.strategy, e.strategy.pending.value, snapshot.crossSpreadBps)
    && StaysParked(config, e, tick)
  }

  predicate CancelRefused(sent: seq<Request>, a: Answers) {
    sent != [] && sent[0].LighterCancel? && !a.cancelOk
  }

  /** The strategy waits for a cancel that is not coming: the engine has no order, or its cancel was
      refused and is not retried. */
  predicate Stuck(e: Engine) {
    e.strategy.state.CancelledPendingLighterConfirm? && (e.activeIndex.None? || !DefersCancel(e))
  }

  lemma DecisionSticks(config: EngineConfig, e: Engine, nowMs: int, snapshot: SpreadSnapshot, a: Answers)
    requires GateMatches(e.strategy) && (DefersCancel(e) ==> !e.strategy.state.PendingLighterMaker?)
    ensures
      var effect := Decide(config, e, nowMs, snapshot, a);
      && (!Wedged(e) ==>
            (Wedged(effect.engine)
             <==> && e.strategy.state.PendingLighterMaker? && e.activeIndex.None?
                  && snapshot.Valid(config.strategy.maxQuoteAgeMs)
                  && !HlGate.Holds(config.strategy, e.strategy.pending.value, snapshot.crossSpreadBps)))
      && (!Stuck(e) ==> (Stuck(effect.engine) <==> Wedged(effect.engine) || CancelRefused(effect.sent, a)))
  {
  }

  lemma TickWedges(config: EngineConfig, w: World, tick: Event)
    requires Sound(w) && GateMatches(w.engine.strategy) && !Wedged(w.engine) && tick.Tick?
    ensures Wedged(React(config, w.engine, tick).engine) <==> CancelsNothing(config, w.engine, tick)
  {
    var e, snapshot, a := w.engine, CollectSnapshot(tick.hl, tick.lighter), tick.answers;
    var d := ExecuteDeferred(config, e, tick.nowMs, snapshot, a);
    if !d.logged {
      DeferredKeepsGate(config, e, tick.nowMs, snapshot, a);
      DecisionSticks(config, d.engine, tick.nowMs, snapshot, a);
    }
  }

  /** A reverse engine wedges exactly when a valid snapshot no longer holds its pending order while no
      order is active: because the placement was refused, or because it is still parked. */
  lemma WedgeArises(config: EngineConfig, w: World, event: Event)
    requires Sound(w) && GateMatches(w.engine.strategy) && !Wedged(w.engine)
    ensures Wedged(Step(config, w, event).engine) <==> event.Tick? && CancelsNothing(config, w.engine, event)
  {
    if event.Tick? {
      TickWedges(config, w, event);
    }
  }

  lemma TickSticks(config: EngineConfig, w: World, tick: Event)
    requires Sound(w) && GateMatches(w.engine.strategy) && !Stuck(w.engine) && tick.Tick?
    ensures
      var effect := React(config, w.engine, tick);
      Stuck(effect.engine) <==> Wedged(effect.engine) || CancelRefused(effect.sent, tick.answers)
  {
    var e, snapshot, a := w.engine, CollectSnapshot(tick.hl, tick.lighter), tick.answers;
    var d := ExecuteDeferred(config, e, tick.nowMs, snapshot, a);
    if !d.logged {
      DeferredKeepsGate(config, e, tick.nowMs, snapshot, a);
      DecisionSticks(config, d.engine, tick.nowMs, snapshot, a);
    }
  }

  /** It gets stuck in exactly two ways: a tick cancels an order that it does not have, or the exchange
      refuses a cancel. */
  lemma StuckArises(config: EngineConfig, w: World, event: Event)
    requires Sound(w) && GateMatches(w.engine.strategy) && !Stuck(w.engine)
    ensures
      Stuck(Step(config, w, event).engine)
      <==> event.Tick? && (|| CancelsNothing(config, w.engine, event)
                           || CancelRefused(React(config, w.engine, event).sent, event.answers))
  {
    if event.Tick? {
      TickSticks(config, w, event);
      TickWedges(config, w, event);
    }
  }

  predicate NoOrders(sent: seq<Request>) {
    forall i :: 0 <= i < |sent| ==> !sent[i].LighterPlace? && !sent[i].LighterCancel?
  }

  predicate AcceptedFill(e: Engine, event: Event) {
    event.Fill? && AcceptsFill(e, event.orderIndex)
  }

  lemma StuckTick(config: EngineConfig, w: World, tick: Event)
    requires Sound(w) && Stuck(w.engine) && tick.Tick?
    ensures var effect := React(config, w.engine, tick); Stuck(effect.engine) && effect.sent == []
  {
    assert w.engine.deferred.Some? ==> w.engine.deferred.value.CancelLighterMaker? && w.engine.activeIndex.None?;
  }

  /** A stuck engine is freed by an accepted fill and by nothing else, and neither places nor cancels
      until then. */
  lemma StuckUntilFill(config: EngineConfig, w: World, event: Event)
    requires Sound(w) && Stuck(w.engine)
    ensures Stuck(Step(config, w, event).engine) <==> !AcceptedFill(w.engine, event)
    ensures NoOrders(React(config, w.engine, event).sent)
  {
    match event
    case Tick(_, _, _, _) => StuckTick(config, w, event);
    case Fill(_, _, _, _, _) => FillIsHedgedOnce(config, w, event);
    case _ =>
  }

  predicate NothingFills(config: EngineConfig, w: World, events: seq<Event>) {
    if events == [] then true
    else
      var front := events[..|events| - 1];
      NothingFills(config, w, front) && !AcceptedFill(Run(config, w, front).engine, events[|events| - 1])
  }

  /** Stuck at the start and after every event. */
  predicate StuckThroughout(config: EngineConfig, w: World, events: seq<Event>) {
    Stuck(Run(config, w, events).engine) && (events == [] || StuckThroughout(config, w, events[..|events| - 1]))
  }

  /** Over runs: a stuck engine stays stuck all along exactly while its order does not fill. */
  lemma {:induction false} StuckOverRuns(config: EngineConfig, w: World, events: seq<Event>)
    requires Sound(w) && Stuck(w.engine)
    ensures StuckThroughout(config, w, events) <==> NothingFills(config, w, events)
    ensures NothingFills(config, w, events) ==> Stuck(Run(config, w, events).engine)
  {
    if events != [] {
      var front, last := events[..|events| - 1], events[|events| - 1];
      StuckOverRuns(config, w, front);
      if NothingFills(config, w, front) {
        RunKeepsSound(config, w, front);
        StuckUntilFill(config, Run(config, w, front), last);
      }
    }
  }

  // ---------- Reachable runs ----------

  const DEMO_CONFIG := EngineConfig(StrategyConfig(5000.0, 0.0, 1000.0, 200.0, 1000000.0, 1000, 0), 0)
  const LOW := Bbo(99.0, 101.0, 1)
  const MIDDLE := Bbo(199.0, 201.0, 1)
  const HIGH := Bbo(299.0, 301.0, 1)

  function DemoAnswers(clockMs: int, granted: bool, index: int, filled: real): Answers {
    Answers(clockMs, clockMs, granted, granted, index, granted, granted, filled, 100.0, granted)
  }

  function Sell(): MakerOrder {
    MakerOrder(ShortLighterLongHl, false, 301.0, 1.0, 10000.0, 5000.0)
  }

  lemma RunSnoc(config: EngineConfig, w: World, events: seq<Event>, last: Event)
    ensures Run(config, w, events + [last]) == Step(config, Run(config, w, events), last)
  {
    var all := events + [last];
    assert all[..|all| - 1] == events;
  }

  lemma RunNone(config: EngineConfig, w: World)
    ensures Run(config, w, []) == w
  {
  }

  /** One tick places a sell of one unit, acknowledged or not. */
  lemma FirstTick(config: EngineConfig, w: World, granted: bool) returns (tick: Event, w': World)
    requires config.strategy == DEMO_CONFIG.strategy && config.lighterOrderIntervalMs <= 1000 && w == FRESH_WORLD
    ensures tick.Tick? && w' == Step(config, w, tick) && (granted ==> Granted(tick))
    ensures w'.engine == Engine(Strategy(PendingLighterMaker, SignalGate(true, ShortLighterLongHl, 5000.0), Some(Sell()), None, 0),
                                if granted then Some(7) else None, ShortLighterLongHl, 1000, 0, None, None)
    ensures w'.ledger == Ledger(if granted then map[7 := Resting(true, 301.0, 1.0)] else map[], 0.0, 0.0, [1000], [])
  {
    tick := Tick(1000, LOW, HIGH, DemoAnswers(1000, granted, 7, 0.0));
    w' := Step(config, w, tick);
    RecordOne(w.ledger, LighterPlace(true, 301.0, 1.0, 1000), tick.answers);
    var snapshot := CollectSnapshot(LOW, HIGH);
    assert snapshot.crossSpreadBps == 10000.0;
    assert LighterMakerOrder(config.strategy, snapshot, SignalGate(true, ShortLighterLongHl, 5000.0)) == Sell();
  }

  /** Two halves of one order: every IOC fills fully, yet half a unit stays naked. */
  lemma SplitFillGoesNaked() returns (config: EngineConfig, events: seq<Event>)
    ensures AllIocsFillFully(config, FRESH_WORLD, events)
    ensures Naked(FRESH_WORLD) == 0.0 && Naked(Run(config, FRESH_WORLD, events)) == -0.5
  {
    config := DEMO_CONFIG;
    var tick, w1 := FirstTick(config, FRESH_WORLD, true);
    var half := Fill(7, 301.0, 0.5, CollectSnapshot(LOW, HIGH), DemoAnswers(1100, true, 0, 0.5));
    events := TwoHalves(config, tick, w1, half);
  }

  lemma TwoHalves(config: EngineConfig, tick: Event, w1: World, half: Event) returns (events: seq<Event>)
    requires tick.Tick? && w1 == Step(config, FRESH_WORLD, tick) && Naked(w1) == 0.0
    requires half.Fill? && half.size == 0.5 && half.answers.hlOk && half.answers.hlFilledSize == 0.5
    requires AcceptsFill(w1.engine, half.orderIndex)
    requires half.orderIndex in w1.ledger.orders && w1.ledger.orders[half.orderIndex].isAsk
    ensures AllIocsFillFully(config, FRESH_WORLD, events)
    ensures Naked(Run(config, FRESH_WORLD, events)) == -0.5
  {
    FreshIsSound();
    StepKeepsSound(config, FRESH_WORLD, tick);
    SecondPartIsDropped(config, w1, half, half);
    events := [] + [tick] + [half] + [half];
    RunNone(config, FRESH_WORLD);
    RunSnoc(config, FRESH_WORLD, [], tick);
    RunSnoc(config, FRESH_WORLD, [] + [tick], half);
    RunSnoc(config, FRESH_WORLD, [] + [tick] + [half], half);
    FillsFullyOn(config, FRESH_WORLD, [], tick);
    FillsFullyOn(config, FRESH_WORLD, [] + [tick], half);
    FillsFullyOn(config, FRESH_WORLD, [] + [tick] + [half], half);
  }

  lemma FillsFullyOn(config: EngineConfig, w: World, events: seq<Event>, next: Event)
    requires AllIocsFillFully(config, w, events) && IocsFillFully(Run(config, w, events), next)
    ensures AllIocsFillFully(config, w, events + [next])
  {
    var all := events + [next];
    forall i | 0 <= i < |all|
      ensures IocsFillFully(Run(config, w, all[..i]), all[i])
    {
      if i < |events| {
        assert all[..i] == events[..i] && all[i] == events[i];
      } else {
        assert all[..i] == events;
      }
    }
  }

  lemma FreshIsSound()
    ensures Sound(FRESH_WORLD)
  {
  }

  /** A refused placement and a spread that no longer holds: the engine never sends anything again. */
  lemma RefusedPlacementWedges() returns (config: EngineConfig, events: seq<Event>)
    ensures Sound(Run(config, FRESH_WORLD, events)) && Wedged(Run(config, FRESH_WORLD, events).engine)
  {
    config := DEMO_CONFIG;
    var first, w1 := FirstTick(config, FRESH_WORLD, false);
    var second := Tick(1100, MIDDLE, MIDDLE, DemoAnswers(1100, true, 0, 0.0));
    LostOrderWedges(config, w1, second);
    events := [] + [first] + [second];
    FreshIsSound();
    RunNone(config, FRESH_WORLD);
    RunSnoc(config, FRESH_WORLD, [], first);
    RunSnoc(config, FRESH_WORLD, [] + [first], second);
    RunKeepsSound(config, FRESH_WORLD, events);
  }

  lemma LostOrderWedges(config: EngineConfig, w: World, tick: Event)
    requires config == DEMO_CONFIG && tick == Tick(1100, MIDDLE, MIDDLE, DemoAnswers(1100, true, 0, 0.0))
    requires w.engine == Engine(Strategy(PendingLighterMaker, SignalGate(true, ShortLighterLongHl, 5000.0), Some(Sell()), None, 0),
                                None, ShortLighterLongHl, 1000, 0, None, None)
    ensures Wedged(Step(config, w, tick).engine)
  {
    var snapshot := CollectSnapshot(MIDDLE, MIDDLE);
    assert snapshot.crossSpreadBps == 0.0;
  }

  const SLOW_CONFIG := EngineConfig(DEMO_CONFIG.strategy, 200)

  lemma FullFillCloses(config: EngineConfig, w: World, fill: Event)
    requires fill == Fill(7, 301.0, 1.0, CollectSnapshot(LOW, HIGH), DemoAnswers(1050, true, 0, 1.0))
    requires w.engine == Engine(Strategy(PendingLighterMaker, SignalGate(true, ShortLighterLongHl, 5000.0), Some(Sell()), None, 0),
                                Some(7), ShortLighterLongHl, 1000, 0, None, None)
    ensures Step(config, w, fill).engine
            == Engine(Strategy(Idle, UNARMED_GATE, None, None, 0), None, ShortLighterLongHl, 1000, 0, None, None)
  {
  }

  lemma NextPlacementIsParked(config: EngineConfig, w: World, tick: Event)
    requires config == SLOW_CONFIG && tick == Tick(1100, LOW, HIGH, DemoAnswers(1100, true, 8, 0.0))
    requires w.engine == Engine(Strategy(Idle, UNARMED_GATE, None, None, 0), None, ShortLighterLongHl, 1000, 0, None, None)
    ensures Step(config, w, tick).engine == Parked()
  {
    var snapshot := CollectSnapshot(LOW, HIGH);
    assert snapshot.crossSpreadBps == 10000.0;
    assert LighterMakerOrder(config.strategy, snapshot, SignalGate(true, ShortLighterLongHl, 5000.0)) == Sell();
  }

  function Parked(): Engine {
    Engine(Strategy(PendingLighterMaker, SignalGate(true, ShortLighterLongHl, 5000.0), Some(Sell()), None, 0),
           None, ShortLighterLongHl, 1000, 0, Some(PlaceLighterMaker(Sell())), Some(1200))
  }

  lemma RevertedParkWedges(config: EngineConfig, w: World, tick: Event)
    requires config == SLOW_CONFIG && tick == Tick(1150, MIDDLE, MIDDLE, DemoAnswers(1150, true, 0, 0.0)) && w.engine == Parked()
    ensures Wedged(Step(config, w, tick).engine)
  {
    assert CollectSnapshot(MIDDLE, MIDDLE).crossSpreadBps == 0.0;
  }

  predicate Granted(event: Event) {
    var a := event.answers;
    a.placeOk && a.restingConfirmed && a.cancelOk && a.hlOk && a.unwindOk
  }

  /** Every request is granted, and yet the engine wedges for good: the spread reverts while a
      placement is parked. */
  lemma GrantedRunWedges() returns (config: EngineConfig, events: seq<Event>)
    ensures forall x :: x in events ==> Granted(x)
    ensures Sound(Run(config, FRESH_WORLD, events)) && Wedged(Run(config, FRESH_WORLD, events).engine)
  {
    config := SLOW_CONFIG;
    var a, w1 := FirstTick(config, FRESH_WORLD, true);
    var b := Fill(7, 301.0, 1.0, CollectSnapshot(LOW, HIGH), DemoAnswers(1050, true, 0, 1.0));
    var c, d := Tick(1100, LOW, HIGH, DemoAnswers(1100, true, 8, 0.0)), Tick(1150, MIDDLE, MIDDLE, DemoAnswers(1150, true, 0, 0.0));
    FullFillCloses(config, w1, b);
    NextPlacementIsParked(config, Step(config, w1, b), c);
    RevertedParkWedges(config, Step(config, Step(config, w1, b), c), d);
    events := FourEvents(config, a, b, c, d);
  }

  lemma FourEvents(config: EngineConfig, a: Event, b: Event, c: Event, d: Event) returns (events: seq<Event>)
    ensures events == [] + [a] + [b] + [c] + [d] && Sound(Run(config, FRESH_WORLD, events))
    ensures Run(config, FRESH_WORLD, events) == Step(config, Step(config, Step(config, Step(config, FRESH_WORLD, a), b), c), d)
  {
    events := [] + [a] + [b] + [c] + [d];
    FreshIsSound();
    RunNone(config, FRESH_WORLD);
    RunSnoc(config, FRESH_WORLD, [], a);
    RunSnoc(config, FRESH_WORLD, [] + [a], b);
    RunSnoc(config, FRESH_WORLD, [] + [a] + [b], c);
    RunSnoc(config, FRESH_WORLD, [] + [a] + [b] + [c], d);
    RunKeepsSound(config, FRESH_WORLD, events);
  }
}
