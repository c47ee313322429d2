/** Where the forward engine does not do what one would expect: an engine that stops trading for
    good, with the exact conditions, and a run that goes naked after a late fill, which shows that
    neutrality needs its hypothesis. */
module HlProgress {
  import opened Types
  import opened Pricing
  import opened HlEngine
  import opened HlLedger
  import opened HlLifecycle
  import opened HlNeutrality
  import Books
  import HlMaker
  import HlDecisions
  import HlGate
  import HlSpeculation
  import SpreadLaws

  lemma RunSnoc(config: EngineConfig, w: World, events: seq<Event>, last: Event)
    ensures Run(config, w, events + [last]) == Step(config, Run(config, w, events), last)
  {
    var all := events + [last];
    assert all[..|all| - 1] == events;
  }

  // ---------- The gate inside the engine ----------

  lemma DeferredKeepsGate(config: EngineConfig, e: Engine, nowMs: int, snapshot: SpreadSnapshot, a: Answers)
    requires HlGate.GateMatches(e.strategy)
    requires e.deferred.Some? ==> e.deferred.value.PlaceHlMaker? || e.deferred.value.CancelHlMaker?
    ensures HlGate.GateMatches(ExecuteDeferred(config, e, nowMs, snapshot, a).engine.strategy)
  {
  }

  lemma DecideKeepsGate(config: EngineConfig, e: Engine, nowMs: int, snapshot: SpreadSnapshot, a: Answers)
    requires HlGate.GateMatches(e.strategy)
    ensures HlGate.GateMatches(Decide(config, e, nowMs, snapshot, a).engine.strategy)
  {
    HlGate.ApplyKeepsGate(config.strategy, e.strategy, HlGate.MarketSnapshot(snapshot, nowMs, e.hlPositionBase));
  }

  lemma StepKeepsGate(config: EngineConfig, w: World, event: Event)
    requires Sound(w) && HlGate.GateMatches(w.engine.strategy)
    ensures HlGate.GateMatches(Step(config, w, event).engine.strategy)
  {
    if event.Tick? {
      var snapshot := CollectSnapshot(event.hl, event.lighter);
      DeferredKeepsGate(config, w.engine, event.nowMs, snapshot, event.answers);
      var d := ExecuteDeferred(config, w.engine, event.nowMs, snapshot, event.answers);
      DecideKeepsGate(config, d.engine, event.nowMs, snapshot, event.answers);
    }
  }

  lemma {:induction false} RunKeepsEngineGate(config: EngineConfig, w: World, events: seq<Event>)
    requires Sound(w) && HlGate.GateMatches(w.engine.strategy)
    ensures Sound(Run(config, w, events)) && HlGate.GateMatches(Run(config, w, events).engine.strategy)
  {
    RunKeepsSound(config, w, events);
    if events != [] {
      var front := events[..|events| - 1];
      RunKeepsEngineGate(config, w, front);
      StepKeepsGate(config, Run(config, w, front), events[|events| - 1]);
    }
  }

  // ---------- Where placements come from ----------

  /** The request for the order that was parked by the rate limiter and is due. */
  predicate ParkedBefore(e: Engine, tick: Event, r: Request)
    requires r.HlPlace? && tick.Tick?
  {
    && DefersPlacement(e) && e.nextRetryMs.Some? && tick.nowMs >= e.nextRetryMs.value
    && var order := e.deferred.value.order;
       r == HlPlace(order.isBuy, order.price, order.sizeBase, tick.answers.steadyMs)
  }

  lemma DecisionIsFromIdle(config: EngineConfig, e: Engine, nowMs: int, snapshot: SpreadSnapshot, a: Answers, i: nat)
    requires var sent := Decide(config, e, nowMs, snapshot, a).sent; i < |sent| && sent[i].HlPlace?
    ensures e.strategy.state.Idle? && i == 0
  {
  }

  lemma DecisionPlacesNow(config: EngineConfig, e: Engine, tick: Event, s: SpreadSnapshot, i: nat)
    requires HlGate.GateMatches(e.strategy) && tick.Tick?
    requires s.hl == tick.hl && s.lighter == tick.lighter
    requires Books.Quoted(s.hl) && Books.Quoted(s.lighter) ==> Books.Measures(s)
    requires var sent := Decide(config, e, tick.nowMs, s, tick.answers).sent; i < |sent| && sent[i].HlPlace?
    ensures
      var sent := Decide(config, e, tick.nowMs, s, tick.answers).sent;
      HlDecisions.Triggers(config, e, tick) && HlDecisions.SendsCalledFor(config, e, tick, sent)
  {
    DecisionIsFromIdle(config, e, tick.nowMs, s, tick.answers, i);
    HlDecisions.IdleDecides(config, e, tick, s);
  }

  /** Neither depends on the deferral slot or the strategy's state. */
  lemma SameTriggers(config: EngineConfig, e: Engine, d: Engine, tick: Event, sent: seq<Request>)
    requires tick.Tick? && d.hlPositionBase == e.hlPositionBase && d.strategy.lastDisarmMs == e.strategy.lastDisarmMs
    ensures HlDecisions.Triggers(config, e, tick) <==> HlDecisions.Triggers(config, d, tick)
    ensures HlDecisions.SendsCalledFor(config, e, tick, sent) <==> HlDecisions.SendsCalledFor(config, d, tick, sent)
  {
  }

  lemma DeferredPlacesParked(config: EngineConfig, w: World, tick: Event, s: SpreadSnapshot, i: nat)
    requires Sound(w) && tick.Tick?
    requires var sent := ExecuteDeferred(config, w.engine, tick.nowMs, s, tick.answers).sent; i < |sent| && sent[i].HlPlace?
    ensures ParkedBefore(w.engine, tick, ExecuteDeferred(config, w.engine, tick.nowMs, s, tick.answers).sent[i])
  {
    if w.engine.deferred.value.CancelHlMaker? {
      HlSpeculation.CancelPlacesNothing(config, w.engine.(deferred := None, nextRetryMs := None),
                                        w.engine.deferred.value.order, s, tick.answers.steadyMs, tick.answers);
    }
  }

  lemma TickPlaces(config: EngineConfig, w: World, tick: Event, s: SpreadSnapshot, i: nat)
    requires Sound(w) && HlGate.GateMatches(w.engine.strategy) && tick.Tick?
    requires s.hl == tick.hl && s.lighter == tick.lighter
    requires Books.Quoted(s.hl) && Books.Quoted(s.lighter) ==> Books.Measures(s)
    requires var sent := OnMarketData(config, w.engine, tick.nowMs, s, tick.answers).sent; i < |sent| && sent[i].HlPlace?
    ensures
      var sent := OnMarketData(config, w.engine, tick.nowMs, s, tick.answers).sent;
      || ParkedBefore(w.engine, tick, sent[i])
      || (HlDecisions.Triggers(config, w.engine, tick) && HlDecisions.SendsCalledFor(config, w.engine, tick, sent))
  {
    var d := ExecuteDeferred(config, w.engine, tick.nowMs, s, tick.answers);
    if d.logged {
      DeferredPlacesParked(config, w, tick, s, i);
    } else {
      DeferredKeepsGate(config, w.engine, tick.nowMs, s, tick.answers);
      DeferredKeepsMemory(config, w, tick.nowMs, s, tick.answers);
      DecisionPlacesNow(config, d.engine, tick, s, i);
      SameTriggers(config, w.engine, d.engine, tick, Decide(config, d.engine, tick.nowMs, s, tick.answers).sent);
    }
  }

  lemma DeferredKeepsMemory(config: EngineConfig, w: World, nowMs: int, s: SpreadSnapshot, a: Answers)
    requires Sound(w) && !ExecuteDeferred(config, w.engine, nowMs, s, a).logged
    ensures var e, d := w.engine, ExecuteDeferred(config, w.engine, nowMs, s, a).engine;
            d.hlPositionBase == e.hlPositionBase && d.strategy.lastDisarmMs == e.strategy.lastDisarmMs
  {
  }

  lemma SpreadsMeasure(tick: Event)
    requires tick.Tick?
    ensures
      var s := CollectSnapshot(tick.hl, tick.lighter);
      s.hl == tick.hl && s.lighter == tick.lighter && (Books.Quoted(s.hl) && Books.Quoted(s.lighter) ==> Books.Measures(s))
  {
    SpreadLaws.ForwardSpread(tick.hl, tick.lighter);
  }

  lemma OnlyTicksPlace(config: EngineConfig, w: World, event: Event)
    requires Sound(w) && !event.Tick?
    ensures var sent := React(config, w.engine, event).sent; forall i :: 0 <= i < |sent| ==> !sent[i].HlPlace?
  {
  }

  /** In every reachable state a placement is sent only by a tick, and it is either the order that the
      tick's books call for, at or above the effective threshold, or it is the parked order, whatever
      the spread is by then. */
  lemma PlacementOrigin(config: EngineConfig, w: World, event: Event, i: nat)
    requires Sound(w) && HlGate.GateMatches(w.engine.strategy)
    requires var sent := React(config, w.engine, event).sent; i < |sent| && sent[i].HlPlace?
    ensures event.Tick?
    ensures
      var sent := React(config, w.engine, event).sent;
      || ParkedBefore(w.engine, event, sent[i])
      || (HlDecisions.Triggers(config, w.engine, event) && HlDecisions.SendsCalledFor(config, w.engine, event, sent))
  {
    if event.Tick? {
      SpreadsMeasure(event);
      TickPlaces(config, w, event, CollectSnapshot(event.hl, event.lighter), i);
    } else {
      OnlyTicksPlace(config, w, event);
    }
  }

  /** The parked order goes out exactly when it is due, the limit allows it and the rate limiter lets
      it pass; neither the age of the quotes nor the spread is asked. */
  lemma ParkedOrderIsSent(config: EngineConfig, w: World, tick: Event)
    requires Sound(w) && DefersPlacement(w.engine) && tick.Tick?
    ensures
      var e, snapshot := w.engine, CollectSnapshot(tick.hl, tick.lighter);
      var order := e.deferred.value.order;
      ExecuteDeferred(config, e, tick.nowMs, snapshot, tick.answers).sent
      == if tick.nowMs >= e.nextRetryMs.value && !Blocked(config, e, snapshot, order)
            && PlaceRetryAt(config, e, tick.answers.steadyMs).None?
         then [HlPlace(order.isBuy, order.price, order.sizeBase, tick.answers.steadyMs)] else []
  {
  }

  // ---------- Wedged engines ----------

  /** The strategy waits for a cancelled order that the engine does not have. */
  predicate Wedged(e: Engine) {
    e.strategy.state.CancelledPendingConfirm? && e.activeOid.None?
  }

  predicate AcceptedFill(e: Engine, event: Event) {
    event.Fill? && AcceptsFill(e, event.oid)
  }

  /** A wedged engine is freed by an accepted fill and by nothing else, and sends nothing until then. */
  lemma WedgedUntilAcceptedFill(config: EngineConfig, w: World, event: Event)
    requires Lifecycle(w) && Wedged(w.engine)
    ensures Wedged(Step(config, w, event).engine) <==> !AcceptedFill(w.engine, event)
    ensures !AcceptedFill(w.engine, event) ==>
              && React(config, w.engine, event).sent == []
              && Step(config, w, event).engine.recentOids == w.engine.recentOids
  {
    assert w.engine.deferred.Some? ==> w.engine.deferred.value.CancelHlMaker?;
  }

  /** With no remembered order no fill can free it: it never sends anything again. */
  lemma {:induction false} WedgedForever(config: EngineConfig, w: World, events: seq<Event>)
    requires Lifecycle(w) && Wedged(w.engine) && w.engine.recentOids == {}
    ensures
      var w' := Run(config, w, events);
      && Lifecycle(w')
      && Wedged(w'.engine)
      && w'.engine.recentOids == {}
      && w'.ledger.placeTimes == w.ledger.placeTimes
      && w'.ledger.lighterNet == w.ledger.lighterNet
  {
    if events != [] {
      var front, last := events[..|events| - 1], events[|events| - 1];
      WedgedForever(config, w, front);
      var before := Run(config, w, front);
      WedgedUntilAcceptedFill(config, before, last);
      LifecycleBreaksOnlyOnLateFill(config, before, last);
      var l := if last.Fill? then RecordFill(before.ledger, last.oid, last.size) else before.ledger;
      RecordNone(l, last.answers);
    }
  }

  /** A deferred placement, if there is one, is not due, or is put back by the rate limiter. */
  predicate StaysParked(config: EngineConfig, e: Engine, tick: Event)
    requires tick.Tick? && (e.deferred.Some? ==> e.nextRetryMs.Some?)
  {
    DefersPlacement(e) ==>
      || tick.nowMs < e.nextRetryMs.value
      || (&& !Blocked(config, e, CollectSnapshot(tick.hl, tick.lighter), e.deferred.value.order)
          && PlaceRetryAt(config, e, tick.answers.steadyMs).Some?)
  }

  /** The tick cancels an order that the engine does not have. */
  predicate CancelsNothing(config: EngineConfig, e: Engine, tick: Event)
    requires tick.Tick? && (e.deferred.Some? ==> e.nextRetryMs.Some?)
  {
    var snapshot := CollectSnapshot(tick.hl, tick.lighter);
    && e.strategy.state.PendingHlMaker? && e.strategy.pending.Some? && e.activeOid.None?
    && snapshot.Valid(config.strategy.maxQuoteAgeMs)
    && !HlGate.Holds(config.strategy, e.strategy.pending.value, snapshot.crossSpreadBps)
    && StaysParked(config, e, tick)
  }

  lemma DecisionCancelsNothing(config: EngineConfig, e: Engine, nowMs: int, snapshot: SpreadSnapshot, a: Answers)
    requires HlGate.GateMatches(e.strategy) && !Wedged(e)
    ensures
      Wedged(Decide(config, e, nowMs, snapshot, a).engine)
      <==> && e.strategy.state.PendingHlMaker? && e.activeOid.None?
           && snapshot.Valid(config.strategy.maxQuoteAgeMs)
           && !HlGate.Holds(config.strategy, e.strategy.pending.value, snapshot.crossSpreadBps)
  {
  }

  lemma TickWedges(config: EngineConfig, w: World, tick: Event)
    requires Sound(w) && HlGate.GateMatches(w.engine.strategy) && !Wedged(w.engine) && tick.Tick?
    ensures Wedged(React(config, w.engine, tick).engine) <==> CancelsNothing(config, w.engine, tick)
  {
    var e, snapshot, a := w.engine, CollectSnapshot(tick.hl, tick.lighter), tick.answers;
    var d := ExecuteDeferred(config, e, tick.nowMs, snapshot, a);
    if !d.logged {
      DeferredKeepsGate(config, e, tick.nowMs, snapshot, a);
      DecisionCancelsNothing(config, d.engine, tick.nowMs, snapshot, a);
    }
  }

  /** An engine wedges exactly when a valid snapshot no longer holds its pending order while no order
      is active: because the placement was refused, or because it is still parked by the rate limiter.
      The cancel then has nothing to cancel. */
  lemma WedgeArises(config: EngineConfig, w: World, event: Event)
    requires Sound(w) && HlGate.GateMatches(w.engine.strategy) && !Wedged(w.engine)
    ensures Wedged(Step(config, w, event).engine) <==> event.Tick? && CancelsNothing(config, w.engine, event)
  {
    if event.Tick? {
      TickWedges(config, w, event);
    }
  }

  /** In particular a refused placement with nothing deferred. */
  lemma FailedPlacementWedges(config: EngineConfig, w: World, tick: Event)
    requires Sound(w) && HlGate.GateMatches(w.engine.strategy) && tick.Tick?
    requires w.engine.strategy.state.PendingHlMaker? && w.engine.activeOid.None? && w.engine.deferred.None?
    ensures
      var snapshot := CollectSnapshot(tick.hl, tick.lighter);
      Wedged(Step(config, w, tick).engine)
      <==> snapshot.Valid(config.strategy.maxQuoteAgeMs)
           && !HlGate.Holds(config.strategy, w.engine.strategy.pending.value, snapshot.crossSpreadBps)
  {
    WedgeArises(config, w, tick);
  }

  // ---------- Stuck engines ----------

  /** The strategy waits for a cancel that is not coming: the engine has no order, or its cancel was
      refused and is not retried. */
  predicate Stuck(e: Engine) {
    e.strategy.state.CancelledPendingConfirm? && (e.activeOid.None? || !DefersCancel(e))
  }

  /** An accepted fill, except one that a reconciliation leaves open. */
  predicate ClosesOrder(e: Engine, event: Event) {
    && AcceptedFill(e, event)
    && !(Reconciles(e, event.oid)
         && (event.size - e.specSize <= -MATCH_TOLERANCE || event.size - e.specSize == MATCH_TOLERANCE))
  }

  predicate NoOrders(sent: seq<Request>) {
    forall i :: 0 <= i < |sent| ==> !sent[i].HlPlace? && !sent[i].HlCancel?
  }

  lemma StuckTick(config: EngineConfig, w: World, tick: Event)
    requires Lifecycle(w) && Stuck(w.engine) && tick.Tick?
    ensures var effect := React(config, w.engine, tick); Stuck(effect.engine) && effect.sent == []
  {
    assert w.engine.deferred.Some? ==> w.engine.deferred.value.CancelHlMaker? && w.engine.activeOid.None?;
  }

  lemma StuckFill(config: EngineConfig, w: World, fill: Event)
    requires Lifecycle(w) && Stuck(w.engine) && fill.Fill?
    ensures var effect := React(config, w.engine, fill);
            (Stuck(effect.engine) <==> !ClosesOrder(w.engine, fill)) && NoOrders(effect.sent)
  {
  }

  /** A stuck engine is freed by a fill that closes its order and by nothing else, and neither places
      nor cancels until then. */
  lemma StuckUntilClosingFill(config: EngineConfig, w: World, event: Event)
    requires Lifecycle(w) && Stuck(w.engine)
    ensures Stuck(Step(config, w, event).engine) <==> !ClosesOrder(w.engine, event)
    ensures NoOrders(React(config, w.engine, event).sent)
  {
    match event
    case Tick(_, _, _, _) => StuckTick(config, w, event);
    case Fill(_, _, _, _) => StuckFill(config, w, event);
    case _ =>
  }

  predicate NothingCloses(config: EngineConfig, w: World, events: seq<Event>) {
    if events == [] then true
    else
      var front := events[..|events| - 1];
      NothingCloses(config, w, front) && !ClosesOrder(Run(config, w, front).engine, events[|events| - 1])
  }

  /** Stuck at the start and after every event. */
  predicate StuckThroughout(config: EngineConfig, w: World, events: seq<Event>) {
    Stuck(Run(config, w, events).engine) && (events == [] || StuckThroughout(config, w, events[..|events| - 1]))
  }

  /** Over runs: a stuck engine stays stuck all along exactly while no fill closes its order. */
  lemma {:induction false} StuckOverRuns(config: EngineConfig, w: World, events: seq<Event>)
    requires Lifecycle(w) && Stuck(w.engine)
    ensures StuckThroughout(config, w, events) <==> NothingCloses(config, w, events)
    ensures NothingCloses(config, w, events) ==> Lifecycle(Run(config, w, events)) && Stuck(Run(config, w, events).engine)
  {
    if events != [] {
      var front, last := events[..|events| - 1], events[|events| - 1];
      StuckOverRuns(config, w, front);
      if NothingCloses(config, w, front) {
        StuckUntilClosingFill(config, Run(config, w, front), last);
        LifecycleBreaksOnlyOnLateFill(config, Run(config, w, front), last);
      }
    }
  }

  predicate CancelRefused(sent: seq<Request>, a: Answers) {
    sent != [] && sent[0].HlCancel? && !a.cancelOk
  }

  lemma DecisionSticks(config: EngineConfig, e: Engine, nowMs: int, snapshot: SpreadSnapshot, a: Answers)
    requires HlGate.GateMatches(e.strategy) && !Stuck(e) && (DefersCancel(e) ==> !e.strategy.state.PendingHlMaker?)
    ensures
      var effect := Decide(config, e, nowMs, snapshot, a);
      Stuck(effect.engine) <==> Wedged(effect.engine) || (!e.strategy.state.Idle? && CancelRefused(effect.sent, a))
  {
  }

  lemma TickSticks(config: EngineConfig, w: World, tick: Event)
    requires Sound(w) && HlGate.GateMatches(w.engine.strategy) && !Stuck(w.engine) && tick.Tick?
    ensures
      var effect := React(config, w.engine, tick);
      Stuck(effect.engine)
      <==> Wedged(effect.engine) || (!w.engine.strategy.state.Idle? && CancelRefused(effect.sent, tick.answers))
  {
    var e, snapshot, a := w.engine, CollectSnapshot(tick.hl, tick.lighter), tick.answers;
    var d := ExecuteDeferred(config, e, tick.nowMs, snapshot, a);
    if !d.logged {
      DeferredKeepsGate(config, e, tick.nowMs, snapshot, a);
      DecisionSticks(config, d.engine, tick.nowMs, snapshot, a);
    }
  }

  /** An engine gets stuck in exactly two ways: a tick cancels an order that it does not have, or the
      exchange refuses the cancel of the strategy's order. Like the law above it needs no assumption on
      deferral. */
  lemma StuckArises(config: EngineConfig, w: World, event: Event)
    requires Sound(w) && HlGate.GateMatches(w.engine.strategy) && !Stuck(w.engine)
    ensures
      Stuck(Step(config, w, event).engine)
      <==> event.Tick? && (|| CancelsNothing(config, w.engine, event)
                           || (&& !w.engine.strategy.state.Idle?
                               && CancelRefused(React(config, w.engine, event).sent, event.answers)))
  {
    if event.Tick? {
      TickSticks(config, w, event);
      TickWedges(config, w, event);
    }
  }

  // ---------- Without deferral ----------

  /** The steady clock is never behind the last request. */
  predicate ClockIsAhead(e: Engine, event: Event) {
    event.Tick? ==> && event.answers.steadyMs >= e.lastPlaceMs && event.answers.steadyMs >= e.lastCancelMs
                    && event.answers.laterMs >= e.lastPlaceMs && event.answers.laterMs >= e.lastCancelMs
  }

  ghost predicate ClockStaysAhead(config: EngineConfig, w: World, events: seq<Event>) {
    forall i :: 0 <= i < |events| ==> ClockIsAhead(Run(config, w, events[..i]).engine, events[i])
  }

  lemma NoDeferralStep(config: EngineConfig, w: World, event: Event)
    requires config.hlOrderIntervalMs <= 0 && w.engine.deferred.None? && ClockIsAhead(w.engine, event)
    ensures Step(config, w, event).engine.deferred.None?
  {
    var e := React(config, w.engine, event).engine;
    assert Step(config, w, event).engine == e;
    if event.HedgeRejected? {
      assert !HlMaker.OnHedgeReject(w.engine.strategy).1.PlaceHlMaker?;
    }
  }

  /** Without a rate limit nothing is ever deferred, so the lifecycle holds over every run. */
  lemma {:induction false} NoIntervalNoDeferral(config: EngineConfig, w: World, events: seq<Event>)
    requires config.hlOrderIntervalMs <= 0 && Lifecycle(w) && w.engine.deferred.None?
    requires ClockStaysAhead(config, w, events)
    ensures Lifecycle(Run(config, w, events)) && Run(config, w, events).engine.deferred.None?
  {
    if events != [] {
      var front, last := events[..|events| - 1], events[|events| - 1];
      forall i | 0 <= i < |front|
        ensures ClockIsAhead(Run(config, w, front[..i]).engine, front[i])
      {
        assert front[..i] == events[..i] && front[i] == events[i];
      }
      NoIntervalNoDeferral(config, w, front);
      var before := Run(config, w, front);
      assert events[..|front|] == front;
      NoDeferralStep(config, before, last);
      LifecycleBreaksOnlyOnLateFill(config, before, last);
    }
  }

  // ---------- A naked run ----------

  const DEMO_CONFIG := EngineConfig(StrategyConfig(5000.0, 0.0, 1000.0, 200.0, 1000000.0, 1000, 0), 200, 0.0, 0.0)
  const LOW := Bbo(99.0, 101.0, 1)
  const MIDDLE := Bbo(199.0, 201.0, 1)
  const HIGH := Bbo(299.0, 301.0, 1)

  function DemoAnswers(clockMs: int, oid: string): Answers {
    Answers(clockMs, clockMs, clockMs, true, oid, true, true, true, true)
  }

  function DemoTick(clockMs: int, hl: Bbo, lighter: Bbo, oid: string): Event {
    Tick(clockMs, hl, lighter, DemoAnswers(clockMs, oid))
  }

  /** Place and cancel "a"; defer the next placement; "a" fills late; the deferred order goes out
      as "b" behind an idle strategy, which defers a sell; a trade crosses the sell. */
  const LATE_FILL := Fill("a", 1.0, CollectSnapshot(LOW, HIGH), DemoAnswers(1160, ""))
  const CROSSING := Trade(TradeEvent(400.0, 1.0, 0), HIGH, LOW, DemoAnswers(1300, ""))

  function Buy(): MakerOrder {
    MakerOrder(ShortLighterLongHl, true, 99.0, 1.0, 10000.0, 5000.0)
  }

  function Sell(): MakerOrder {
    MakerOrder(LongLighterShortHl, false, 301.0, 1.0, -10000.0, 5000.0)
  }

  predicate Confirmed(event: Event) {
    var a := event.answers;
    a.placeOk && a.cancelOk && a.iocOk && a.iocConfirmed && a.reduceOk
  }

  /** `w` is where `events` lead from the start, with every request of theirs granted. */
  ghost predicate Leads(config: EngineConfig, events: seq<Event>, w: World) {
    Run(config, FRESH_WORLD, events) == w && forall x :: x in events ==> Confirmed(x)
  }

  lemma LeadsOn(config: EngineConfig, events: seq<Event>, w: World, next: Event)
    requires Leads(config, events, w) && Confirmed(next)
    ensures Leads(config, events + [next], Step(config, w, next))
    ensures LateFill(w.engine, next) ==> !Timely(config, FRESH_WORLD, events + [next])
    ensures !Timely(config, FRESH_WORLD, events) ==> !Timely(config, FRESH_WORLD, events + [next])
  {
    RunSnoc(config, FRESH_WORLD, events, next);
    var all := events + [next];
    assert all[..|events|] == events && all[|events|] == next;
    if Timely(config, FRESH_WORLD, all) {
      TimelyPrefix(config, FRESH_WORLD, all);
    }
  }

  lemma OpeningLeavesOrderRemembered(config: EngineConfig) returns (events: seq<Event>, w: World)
    requires config == DEMO_CONFIG
    ensures Leads(config, events, w)
    ensures w.engine == Engine(Strategy(Idle, UNARMED_GATE, None, None, 1100), None, {"a"}, ShortLighterLongHl, 0.0,
                               false, 0.0, "", 1000, 1000, 1100, None, None)
    ensures w.ledger.orders == map["a" := Placement(ShortLighterLongHl, 1.0, 0.0)]
    ensures w.ledger.hlNet == 0.0 && w.ledger.lighterNet == 0.0
  {
    var first, second := DemoTick(1000, LOW, HIGH, "a"), DemoTick(1100, MIDDLE, MIDDLE, "");
    var w1 := Step(config, FRESH_WORLD, first);
    RecordOne(EMPTY_LEDGER, HlPlace(true, 99.0, 1.0, 1000), first.answers);
    assert w1.engine == Engine(Strategy(PendingHlMaker, SignalGate(true, ShortLighterLongHl, 5000.0), Some(Buy()), None, 0),
                               Some("a"), {"a"}, ShortLighterLongHl, 0.0, false, 0.0, "", 1000, 1000, 0, None, None);
    RecordOne(w1.ledger, HlCancel("a", 1100), second.answers);
    w := Step(config, w1, second);
    LeadsOn(config, [], FRESH_WORLD, first);
    LeadsOn(config, [] + [first], w1, second);
    events := [] + [first] + [second];
  }

  /** The parked placement outlives the strategy reset that the late fill causes. */
  lemma LateFillLeavesPlacementBehind(config: EngineConfig, w: World) returns (a: Event, b: Event, w1: World, w': World)
    requires config == DEMO_CONFIG
    requires w.engine == Engine(Strategy(Idle, UNARMED_GATE, None, None, 1100), None, {"a"}, ShortLighterLongHl, 0.0,
                                false, 0.0, "", 1000, 1000, 1100, None, None)
    requires w.ledger.orders == map["a" := Placement(ShortLighterLongHl, 1.0, 0.0)]
    requires w.ledger.hlNet == 0.0 && w.ledger.lighterNet == 0.0
    ensures Confirmed(a) && Confirmed(b) && w1 == Step(config, w, a) && w' == Step(config, w1, b)
    ensures LateFill(w1.engine, b)
    ensures w'.engine == Engine(Strategy(Idle, UNARMED_GATE, None, None, 1100), None, {"a"}, ShortLighterLongHl, 1.0,
                                false, 0.0, "", 1000, 1000, 1100, Some(PlaceHlMaker(Buy())), Some(1200))
    ensures w'.ledger.hlNet == 1.0 && w'.ledger.lighterNet == -1.0
  {
    a, b := DemoTick(1150, LOW, HIGH, ""), LATE_FILL;
    w1 := Step(config, w, a);
    w' := Step(config, w1, b);
    assert w1.engine.strategy.pending == Some(Buy());
    RecordOne(RecordFill(w1.ledger, "a", 1.0), LighterIoc(true, 300.0 * (1.0 - 10.0 / 10000.0), 1.0), b.answers);
  }

  /** It goes out behind an idle strategy, which parks a sell. */
  lemma IdleEngineParksTheOppositeOrder(config: EngineConfig, w: World) returns (a: Event, b: Event, w1: World, w': World)
    requires config == DEMO_CONFIG
    requires w.engine == Engine(Strategy(Idle, UNARMED_GATE, None, None, 1100), None, {"a"}, ShortLighterLongHl, 1.0,
                                false, 0.0, "", 1000, 1000, 1100, Some(PlaceHlMaker(Buy())), Some(1200))
    requires w.ledger.hlNet == 1.0 && w.ledger.lighterNet == -1.0
    ensures Confirmed(a) && Confirmed(b) && w1 == Step(config, w, a) && w' == Step(config, w1, b)
    ensures w'.engine == Engine(Strategy(PendingHlMaker, SignalGate(true, LongLighterShortHl, 5000.0), Some(Sell()), None, 1100),
                                Some("b"), {"b"}, ShortLighterLongHl, 1.0, false, 0.0, "", 1200, 1200, 1100,
                                Some(PlaceHlMaker(Sell())), Some(1400))
    ensures w'.ledger.hlNet == 1.0 && w'.ledger.lighterNet == -1.0
  {
    a, b := DemoTick(1200, LOW, HIGH, "b"), DemoTick(1250, HIGH, LOW, "");
    w1 := Step(config, w, a);
    RecordOne(w.ledger, HlPlace(true, 99.0, 1.0, 1200), a.answers);
    assert w1.engine == Engine(Strategy(Idle, UNARMED_GATE, None, None, 1100), Some("b"), {"b"}, ShortLighterLongHl, 1.0,
                               false, 0.0, "", 1200, 1200, 1100, None, None);
    w' := Step(config, w1, b);
  }

  /** A trade crossing the sell then hedges speculatively for the wrong order, and sending the sell
      forgets that hedge. */
  lemma WrongSpeculationIsDropped(config: EngineConfig, w: World) returns (a: Event, b: Event, w1: World, w': World)
    requires config == DEMO_CONFIG
    requires w.engine == Engine(Strategy(PendingHlMaker, SignalGate(true, LongLighterShortHl, 5000.0), Some(Sell()), None, 1100),
                                Some("b"), {"b"}, ShortLighterLongHl, 1.0, false, 0.0, "", 1200, 1200, 1100,
                                Some(PlaceHlMaker(Sell())), Some(1400))
    requires w.ledger.hlNet == 1.0 && w.ledger.lighterNet == -1.0
    ensures Confirmed(a) && Confirmed(b) && w1 == Step(config, w, a) && w' == Step(config, w1, b)
    ensures Naked(w') == 1.0
  {
    a, b := CROSSING, DemoTick(1400, HIGH, LOW, "c");
    w1 := Step(config, w, a);
    RecordOne(w.ledger, LighterIoc(false, 100.0 * (1.0 + 15.0 / 10000.0), 1.0), a.answers);
    assert w1.engine.specSent && w1.ledger.lighterNet == 0.0 && w1.ledger.hlNet == 1.0;
    w' := Step(config, w1, b);
    RecordOne(w1.ledger, HlPlace(false, 301.0, 1.0, 1400), b.answers);
  }

  lemma LeadsTwo(config: EngineConfig, events: seq<Event>, w: World, a: Event, w1: World, b: Event, w': World)
    requires Leads(config, events, w) && Confirmed(a) && Confirmed(b)
    requires w1 == Step(config, w, a) && w' == Step(config, w1, b)
    requires LateFill(w1.engine, b) || !Timely(config, FRESH_WORLD, events)
    ensures Leads(config, events + [a] + [b], w') && !Timely(config, FRESH_WORLD, events + [a] + [b])
  {
    LeadsOn(config, events, w, a);
    LeadsOn(config, events + [a], w1, b);
  }

  /** Neutrality needs the timeliness assumption: here every order is acknowledged, every hedge
      confirmed and no reconciliation was ever off, yet one whole order ends up naked. */
  lemma LateFillCanGoNaked() returns (config: EngineConfig, events: seq<Event>)
    ensures Naked(FRESH_WORLD) == 0.0 && (forall x :: x in events ==> Confirmed(x))
    ensures Naked(Run(config, FRESH_WORLD, events)) == 1.0
    ensures !Timely(config, FRESH_WORLD, events)
  {
    config := DEMO_CONFIG;
    var pre, w0 := OpeningLeavesOrderRemembered(config);
    var a, b, w1, w2 := LateFillLeavesPlacementBehind(config, w0);
    LeadsTwo(config, pre, w0, a, w1, b, w2);
    var c, d, w3, w4 := IdleEngineParksTheOppositeOrder(config, w2);
    LeadsTwo(config, pre + [a] + [b], w2, c, w3, d, w4);
    var e, f, w5, w6 := WrongSpeculationIsDropped(config, w4);
    LeadsTwo(config, pre + [a] + [b] + [c] + [d], w4, e, w5, f, w6);
    events := pre + [a] + [b] + [c] + [d] + [e] + [f];
  }
}
