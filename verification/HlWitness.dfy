/** Reachable runs of the forward engine, each from a fresh start: one that never trades again, one
    that drops a partial fill, and one that hedges more than rests. */
module HlWitness {
  import opened Types
  import opened Pricing
  import opened HlEngine
  import opened HlLedger
  import opened HlLifecycle
  import opened HlNeutrality
  import opened HlProgress

  function Replies(granted: bool, clockMs: int, oid: string): Answers {
    Answers(clockMs, clockMs, clockMs, granted, oid, true, true, true, true)
  }

  /** Strategy and engine after one order of a unit was asked for. */
  function Asked(active: Option<string>, recent: set<string>, epochMs: int): Engine {
    Engine(Strategy(PendingHlMaker, SignalGate(true, ShortLighterLongHl, 5000.0), Some(Buy()), None, 0),
           active, recent, ShortLighterLongHl, 0.0, false, 0.0, "", epochMs, 1000, 0, None, None)
  }

  lemma FirstTick(config: EngineConfig, w: World, granted: bool) returns (tick: Event, w': World)
    requires config == DEMO_CONFIG && w == FRESH_WORLD
    ensures tick.Tick? && w' == Step(config, w, tick) && (granted ==> Confirmed(tick))
    ensures granted ==> w'.engine == Asked(Some("a"), {"a"}, 1000)
    ensures granted ==> w'.ledger.orders == map["a" := Placement(ShortLighterLongHl, 1.0, 0.0)]
    ensures !granted ==> w'.engine == Asked(None, {}, 0)
  {
    tick := Tick(1000, LOW, HIGH, Replies(granted, 1000, "a"));
    w' := Step(config, w, tick);
    RecordOne(EMPTY_LEDGER, HlPlace(true, 99.0, 1.0, 1000), tick.answers);
    var snapshot := CollectSnapshot(LOW, HIGH);
    assert snapshot.crossSpreadBps == 10000.0;
    assert HlMakerOrder(config.strategy, snapshot, SignalGate(true, ShortLighterLongHl, 5000.0)) == Buy();
  }

  lemma ThreeEvents(config: EngineConfig, w: World, a: Event, b: Event, c: Event)
    ensures Run(config, w, [] + [a]) == Step(config, w, a)
    ensures Run(config, w, [] + [a] + [b]) == Step(config, Step(config, w, a), b)
    ensures Run(config, w, [] + [a] + [b] + [c]) == Step(config, Step(config, Step(config, w, a), b), c)
  {
    RunSnoc(config, w, [], a);
    RunSnoc(config, w, [] + [a], b);
    RunSnoc(config, w, [] + [a] + [b], c);
    RunNothing(config, w);
  }

  lemma RunNothing(config: EngineConfig, w: World)
    ensures Run(config, w, []) == w
  {
  }

  // ---------- Stuck for good ----------

  lemma LostOrderWedges(config: EngineConfig, w: World, tick: Event)
    requires config == DEMO_CONFIG && tick == DemoTick(1100, MIDDLE, MIDDLE, "")
    requires w.engine == Asked(None, {}, 0)
    ensures Wedged(Step(config, w, tick).engine) && Step(config, w, tick).engine.recentOids == {}
  {
    assert CollectSnapshot(MIDDLE, MIDDLE).crossSpreadBps == 0.0;
  }

  /** A refused placement, then a spread that no longer holds: the state that nothing ever leaves. */
  lemma RefusedPlacementWedges() returns (config: EngineConfig, events: seq<Event>)
    ensures var w := Run(config, FRESH_WORLD, events); Lifecycle(w) && Wedged(w.engine) && w.engine.recentOids == {}
  {
    config := DEMO_CONFIG;
    var first, w1 := FirstTick(config, FRESH_WORLD, false);
    var second := DemoTick(1100, MIDDLE, MIDDLE, "");
    LostOrderWedges(config, w1, second);
    ThreeEvents(config, FRESH_WORLD, first, second, second);
    events := [] + [first] + [second];
    FreshIsLifecycle();
    LifecycleBreaksOnlyOnLateFill(config, FRESH_WORLD, first);
    LifecycleBreaksOnlyOnLateFill(config, w1, second);
  }

  // ---------- Partial fills of a speculatively hedged order ----------

  const THROUGH := Trade(TradeEvent(90.0, 1.0, 0), LOW, HIGH, DemoAnswers(1050, ""))

  function PartialFill(size: real): Event {
    Fill("a", size, CollectSnapshot(LOW, HIGH), DemoAnswers(1060, ""))
  }

  /** The order is hedged speculatively, in full. */
  lemma Speculated(config: EngineConfig, w: World, trade: Event) returns (w': World)
    requires config == DEMO_CONFIG && trade == THROUGH
    requires w.engine == Asked(Some("a"), {"a"}, 1000)
    requires w.ledger.orders == map["a" := Placement(ShortLighterLongHl, 1.0, 0.0)]
    ensures w' == Step(config, w, trade)
    ensures w'.engine == w.engine.(specSent := true, specSize := 1.0, specOid := "a")
    ensures w'.ledger.orders == w.ledger.orders
  {
    w' := Step(config, w, trade);
    RecordOne(w.ledger, LighterIoc(true, 300.0 * (1.0 - 15.0 / 10000.0), 1.0), trade.answers);
  }

  lemma NearFillCloses(config: EngineConfig, w: World, first: Event, second: Event)
    requires w.engine == Asked(Some("a"), {"a"}, 1000).(specSent := true, specSize := 1.0, specOid := "a")
    requires first == PartialFill(0.9995) && second == PartialFill(0.0005)
    ensures AcceptsFill(w.engine, first.oid)
    ensures var w' := Step(config, w, first);
            !AcceptsFill(w'.engine, second.oid) && React(config, w'.engine, second).sent == []
  {
  }

  /** One unit that fills in two parts of 0.9995 and 0.0005: the second part is dropped. */
  lemma LastPartIsDropped() returns (config: EngineConfig, events: seq<Event>, last: Event)
    ensures last.Fill? && last.size == 0.0005
    ensures
      var w := Run(config, FRESH_WORLD, events);
      !AcceptsFill(w.engine, last.oid) && React(config, w.engine, last).sent == []
  {
    config := DEMO_CONFIG;
    var tick, w1 := FirstTick(config, FRESH_WORLD, true);
    var w2 := Speculated(config, w1, THROUGH);
    var fill := PartialFill(0.9995);
    last := PartialFill(0.0005);
    NearFillCloses(config, w2, fill, last);
    ThreeEvents(config, FRESH_WORLD, tick, THROUGH, fill);
    events := [] + [tick] + [THROUGH] + [fill];
  }

  // ---------- A parked placement ----------

  lemma FullFillCloses(config: EngineConfig, w: World, fill: Event)
    requires fill == PartialFill(1.0)
    requires w.engine == Asked(Some("a"), {"a"}, 1000).(specSent := true, specSize := 1.0, specOid := "a")
    ensures Step(config, w, fill).engine
            == Asked(Some("a"), {"a"}, 1000).(strategy := Strategy(Idle, UNARMED_GATE, None, None, 0), activeOid := None,
                                              recentOids := {}, hlPositionBase := 1.0)
  {
    assert {"a"} - {"a"} == {};
  }

  lemma NextPlacementIsParked(config: EngineConfig, w: World, tick: Event)
    requires config == DEMO_CONFIG && tick == DemoTick(1100, LOW, HIGH, "b")
    requires w.engine == Asked(Some("a"), {"a"}, 1000).(strategy := Strategy(Idle, UNARMED_GATE, None, None, 0), activeOid := None,
                                                        recentOids := {}, hlPositionBase := 1.0)
    ensures Step(config, w, tick).engine == Parked()
  {
    var snapshot := CollectSnapshot(LOW, HIGH);
    assert snapshot.crossSpreadBps == 10000.0;
    assert HlMakerOrder(config.strategy, snapshot, SignalGate(true, ShortLighterLongHl, 5000.0)) == Buy();
  }

  /** Everything was granted, and the next order waits for the rate limiter. */
  function Parked(): Engine {
    Asked(None, {}, 1000).(hlPositionBase := 1.0, deferred := Some(PlaceHlMaker(Buy())), nextRetryMs := Some(1200))
  }

  /** Four events, none of them a late fill. */
  lemma FourEvents(config: EngineConfig, a: Event, b: Event, c: Event, d: Event) returns (events: seq<Event>, w: World)
    requires a.Tick? && b.Trade? && c.Fill? && d.Tick?
    requires !LateFill(Step(config, Step(config, FRESH_WORLD, a), b).engine, c)
    ensures events == [] + [a] + [b] + [c] + [d] && Lifecycle(w)
    ensures Run(config, FRESH_WORLD, events) == w
    ensures w == Step(config, Step(config, Step(config, Step(config, FRESH_WORLD, a), b), c), d)
  {
    events := [] + [a] + [b] + [c] + [d];
    ThreeEvents(config, FRESH_WORLD, a, b, c);
    RunSnoc(config, FRESH_WORLD, [] + [a] + [b] + [c], d);
    w := Run(config, FRESH_WORLD, events);
    FreshIsLifecycle();
    LifecycleBreaksOnlyOnLateFill(config, FRESH_WORLD, a);
    LifecycleBreaksOnlyOnLateFill(config, Step(config, FRESH_WORLD, a), b);
    LifecycleBreaksOnlyOnLateFill(config, Step(config, Step(config, FRESH_WORLD, a), b), c);
    LifecycleBreaksOnlyOnLateFill(config, Step(config, Step(config, Step(config, FRESH_WORLD, a), b), c), d);
  }

  lemma ParkingEvents() returns (config: EngineConfig, a: Event, c: Event, d: Event, w2: World, w4: World)
    ensures config == DEMO_CONFIG && a.Tick? && c.Fill? && d.Tick?
    ensures Confirmed(a) && Confirmed(THROUGH) && Confirmed(c) && Confirmed(d)
    ensures w2 == Step(config, Step(config, FRESH_WORLD, a), THROUGH) && !LateFill(w2.engine, c)
    ensures w4 == Step(config, Step(config, w2, c), d) && w4.engine == Parked()
  {
    config := DEMO_CONFIG;
    var tick, w1 := FirstTick(config, FRESH_WORLD, true);
    w2 := Speculated(config, w1, THROUGH);
    a, c, d := tick, PartialFill(1.0), DemoTick(1100, LOW, HIGH, "b");
    FullFillCloses(config, w2, c);
    NextPlacementIsParked(config, Step(config, w2, c), d);
    w4 := Step(config, Step(config, w2, c), d);
  }

  lemma ParkingRun() returns (config: EngineConfig, events: seq<Event>, w: World)
    ensures config == DEMO_CONFIG && forall x :: x in events ==> Confirmed(x)
    ensures w == Run(config, FRESH_WORLD, events) && Lifecycle(w) && w.engine == Parked()
  {
    var k, a, c, d, w2, w4 := ParkingEvents();
    var run, last := FourEvents(k, a, THROUGH, c, d);
    config, events, w := k, run, last;
  }

  lemma RevertedParkWedges(config: EngineConfig, w: World, tick: Event)
    requires config == DEMO_CONFIG && tick == DemoTick(1150, MIDDLE, MIDDLE, "") && w.engine == Parked()
    ensures Wedged(Step(config, w, tick).engine) && Step(config, w, tick).engine.recentOids == {}
  {
    assert CollectSnapshot(MIDDLE, MIDDLE).crossSpreadBps == 0.0;
  }

  /** Every request is granted and no placement is ever refused, and yet the engine wedges for good:
      the spread reverts while a placement is parked. */
  lemma GrantedRunWedges() returns (config: EngineConfig, events: seq<Event>)
    ensures forall x :: x in events ==> Confirmed(x)
    ensures var w := Run(config, FRESH_WORLD, events); Lifecycle(w) && Wedged(w.engine) && w.engine.recentOids == {}
  {
    var c, front, w := ParkingRun();
    config := c;
    var last := DemoTick(1150, MIDDLE, MIDDLE, "");
    RevertedParkWedges(config, w, last);
    LifecycleBreaksOnlyOnLateFill(config, w, last);
    RunSnoc(config, FRESH_WORLD, front, last);
    events := front + [last];
  }

  lemma ParkedGoesOut(config: EngineConfig, w: World, tick: Event)
    requires config == DEMO_CONFIG && tick == DemoTick(1250, MIDDLE, MIDDLE, "b") && w.engine == Parked()
    ensures React(config, w.engine, tick).sent == [HlPlace(true, 99.0, 1.0, 1250)]
  {
  }

  /** A parked order is sent at its old price although the spread is gone. */
  lemma ParkedOrderGoesOutBelowThreshold() returns (config: EngineConfig, events: seq<Event>, tick: Event)
    ensures tick.Tick? && CollectSnapshot(tick.hl, tick.lighter).crossSpreadBps == 0.0
    ensures React(config, Run(config, FRESH_WORLD, events).engine, tick).sent == [HlPlace(true, 99.0, 1.0, 1250)]
  {
    var c, front, w := ParkingRun();
    config, events, tick := c, front, DemoTick(1250, MIDDLE, MIDDLE, "b");
    ParkedGoesOut(config, w, tick);
  }

  // ---------- A refused cancel ----------

  lemma RefusedCancelStuck(config: EngineConfig, w: World, tick: Event)
    requires config == DEMO_CONFIG && w.engine == Asked(Some("a"), {"a"}, 1000)
    requires tick == Tick(1300, MIDDLE, MIDDLE, DemoAnswers(1300, "").(cancelOk := false))
    ensures Stuck(Step(config, w, tick).engine) && Step(config, w, tick).engine.activeOid == Some("a")
  {
    assert CollectSnapshot(MIDDLE, MIDDLE).crossSpreadBps == 0.0;
  }

  /** A refused cancel leaves the engine stuck behind a live order. */
  lemma RefusedCancelSticks() returns (config: EngineConfig, events: seq<Event>)
    ensures var w := Run(config, FRESH_WORLD, events); Lifecycle(w) && Stuck(w.engine) && w.engine.activeOid == Some("a")
  {
    config := DEMO_CONFIG;
    var first, w1 := FirstTick(config, FRESH_WORLD, true);
    var second := Tick(1300, MIDDLE, MIDDLE, DemoAnswers(1300, "").(cancelOk := false));
    RefusedCancelStuck(config, w1, second);
    ThreeEvents(config, FRESH_WORLD, first, second, second);
    events := [] + [first] + [second];
    FreshIsLifecycle();
    LifecycleBreaksOnlyOnLateFill(config, FRESH_WORLD, first);
    LifecycleBreaksOnlyOnLateFill(config, w1, second);
  }

  // ---------- More hedged than rests ----------

  lemma ShortFillKeepsOrder(config: EngineConfig, w: World, fill: Event)
    requires config == DEMO_CONFIG && fill == PartialFill(0.4)
    requires w.engine == Asked(Some("a"), {"a"}, 1000).(specSent := true, specSize := 1.0, specOid := "a")
    requires w.ledger.orders == map["a" := Placement(ShortLighterLongHl, 1.0, 0.0)]
    ensures
      var w' := Step(config, w, fill);
      && w'.engine == Asked(Some("a"), {"a"}, 1000).(hlPositionBase := 0.4)
      && w'.ledger.orders == map["a" := Placement(ShortLighterLongHl, 1.0, 0.4)]
  {
    var l := RecordFill(w.ledger, "a", 0.4);
    assert l.orders == map["a" := Placement(ShortLighterLongHl, 1.0, 0.4)];
    var effect := React(config, w.engine, fill);
    RecordOne(l, effect.sent[0], fill.answers);
  }

  lemma NextTradeHedgesAll(config: EngineConfig, w: World, trade: Event)
    requires config == DEMO_CONFIG && trade == THROUGH
    requires w.engine == Asked(Some("a"), {"a"}, 1000).(hlPositionBase := 0.4)
    ensures |React(config, w.engine, trade).sent| == 1
    ensures React(config, w.engine, trade).sent[0].LighterIoc? && React(config, w.engine, trade).sent[0].size == 1.0
  {
  }

  /** 0.6 of a unit rests, and the next trade through it sends a whole unit. */
  lemma MoreThanRestsIsHedged() returns (config: EngineConfig, events: seq<Event>, trade: Event)
    ensures trade.Trade?
    ensures
      var w := Run(config, FRESH_WORLD, events);
      && w.engine.activeOid == Some("a") && w.ledger.orders == map["a" := Placement(ShortLighterLongHl, 1.0, 0.4)]
      && var sent := React(config, w.engine, trade).sent;
         |sent| == 1 && sent[0].LighterIoc? && sent[0].size == 1.0
  {
    config := DEMO_CONFIG;
    var tick, w1 := FirstTick(config, FRESH_WORLD, true);
    var w2 := Speculated(config, w1, THROUGH);
    var fill := PartialFill(0.4);
    ShortFillKeepsOrder(config, w2, fill);
    NextTradeHedgesAll(config, Step(config, w2, fill), THROUGH);
    ThreeEvents(config, FRESH_WORLD, tick, THROUGH, fill);
    events := [] + [tick] + [THROUGH] + [fill];
    trade := THROUGH;
  }
}
