/** The speculative hedge of the forward engine: one at a time, against the active order, and always
    of the size that was placed, so it exceeds what still rests by exactly what has filled. */
module HlSpeculation {
  import opened Types
  import opened Pricing
  import opened HlEngine
  import opened HlLedger
  import opened HlLifecycle
  import HlMaker

  /** The strategy's pending order, and an outstanding speculative hedge, have the size at which the
      active order was placed. */
  ghost predicate Matched(w: World) {
    w.engine.activeOid.Some? ==>
      && w.engine.activeOid.value in w.ledger.orders
      && w.engine.strategy.pending.Some?
      && var size := w.ledger.orders[w.engine.activeOid.value].size;
         && w.engine.strategy.pending.value.sizeBase == size
         && (w.engine.specSent ==> w.engine.specSize == size)
  }

  lemma PlaceKeepsMatched(config: EngineConfig, w: World, order: MakerOrder, snapshot: SpreadSnapshot, nowMs: int, a: Answers)
    requires w.engine.activeOid.None? && w.engine.strategy.pending == Some(order)
    ensures
      var effect := ExecutePlace(config, w.engine, order, snapshot, nowMs, a);
      Matched(World(effect.engine, RecordAll(w.ledger, effect.sent, a)))
  {
    var effect := ExecutePlace(config, w.engine, order, snapshot, nowMs, a);
    if effect.sent != [] {
      RecordOne(w.ledger, effect.sent[0], a);
    }
  }

  lemma CancelKeepsMatched(config: EngineConfig, w: World, order: MakerOrder, snapshot: SpreadSnapshot, nowMs: int, a: Answers)
    requires Matched(w)
    ensures
      var effect := ExecuteCancel(config, w.engine, order, snapshot, nowMs, a);
      Matched(World(effect.engine, RecordAll(w.ledger, effect.sent, a)))
  {
    var effect := ExecuteCancel(config, w.engine, order, snapshot, nowMs, a);
    if |effect.sent| == 1 {
      RecordOne(w.ledger, effect.sent[0], a);
    } else if |effect.sent| == 2 {
      assert effect.sent == [effect.sent[0], effect.sent[1]];
      RecordTwo(w.ledger, effect.sent[0], effect.sent[1], a);
    }
  }

  lemma DecideKeepsMatched(config: EngineConfig, w: World, nowMs: int, snapshot: SpreadSnapshot, a: Answers)
    requires Lifecycle(w) && Matched(w)
    ensures
      var effect := Decide(config, w.engine, nowMs, snapshot, a);
      Matched(World(effect.engine, RecordAll(w.ledger, effect.sent, a)))
  {
    var e := w.engine;
    var (s, action) := HlMaker.OnMarketSnapshot(config.strategy, e.strategy, snapshot, nowMs, e.hlPositionBase);
    var decided := World(e.(strategy := s), w.ledger);
    if action.PlaceHlMaker? {
      PlaceKeepsMatched(config, decided, action.order, snapshot, a.laterMs, a);
    } else if action.CancelHlMaker? {
      CancelKeepsMatched(config, decided, action.order, snapshot, a.laterMs, a);
    }
  }

  lemma DeferredKeepsMatched(config: EngineConfig, w: World, nowMs: int, snapshot: SpreadSnapshot, a: Answers)
    requires Lifecycle(w) && Matched(w)
    ensures
      var effect := ExecuteDeferred(config, w.engine, nowMs, snapshot, a);
      Matched(World(effect.engine, RecordAll(w.ledger, effect.sent, a)))
  {
    var e := w.engine;
    if e.deferred.Some? && nowMs >= e.nextRetryMs.value {
      var cleared := World(e.(deferred := None, nextRetryMs := None), w.ledger);
      if e.deferred.value.PlaceHlMaker? {
        PlaceKeepsMatched(config, cleared, e.deferred.value.order, snapshot, a.steadyMs, a);
      } else {
        CancelKeepsMatched(config, cleared, e.deferred.value.order, snapshot, a.steadyMs, a);
      }
    }
  }

  lemma FillKeepsMatched(config: EngineConfig, w: World, event: Event)
    requires Lifecycle(w) && Matched(w) && event.Fill?
    ensures Matched(Step(config, w, event))
  {
    var l := RecordFill(w.ledger, event.oid, event.size);
    var sent := React(config, w.engine, event).sent;
    if |sent| == 1 {
      RecordOne(l, sent[0], event.answers);
    } else if |sent| == 2 {
      assert sent == [sent[0], sent[1]];
      RecordTwo(l, sent[0], sent[1], event.answers);
    }
  }

  lemma StepKeepsMatched(config: EngineConfig, w: World, event: Event)
    requires Lifecycle(w) && Matched(w)
    ensures Matched(Step(config, w, event))
  {
    match event
    case Tick(nowMs, hl, lighter, a) =>
      var snapshot := CollectSnapshot(hl, lighter);
      DeferredKeepsMatched(config, w, nowMs, snapshot, a);
      DeferredKeepsLifecycle(config, w, nowMs, snapshot, a);
      DeferredKeepsSound(config, w, nowMs, snapshot, a);
      var d := ExecuteDeferred(config, w.engine, nowMs, snapshot, a);
      if !d.logged {
        DecideKeepsMatched(config, World(d.engine, w.ledger), nowMs, snapshot, a);
      }
    case Fill(_, _, _, _) => FillKeepsMatched(config, w, event);
    case Trade(_, _, _, a) =>
      var sent := React(config, w.engine, event).sent;
      if sent != [] {
        RecordOne(w.ledger, sent[0], a);
      }
    case _ =>
  }

  lemma {:induction false} RunKeepsMatched(config: EngineConfig, w: World, events: seq<Event>)
    requires Lifecycle(w) && Matched(w) && Timely(config, w, events)
    ensures Matched(Run(config, w, events))
  {
    if events != [] {
      var front := events[..|events| - 1];
      TimelyPrefix(config, w, events);
      RunKeepsMatched(config, w, front);
      RunKeepsLifecycle(config, w, front);
      StepKeepsMatched(config, Run(config, w, front), events[|events| - 1]);
    }
  }

  // ---------- What a placement may find ----------

  predicate Places(sent: seq<Request>) {
    exists i :: 0 <= i < |sent| && sent[i].HlPlace?
  }

  lemma DecidedPlacement(config: EngineConfig, w: World, nowMs: int, snapshot: SpreadSnapshot, a: Answers)
    requires Lifecycle(w) && Places(Decide(config, w.engine, nowMs, snapshot, a).sent)
    ensures w.engine.activeOid.None? && !w.engine.specSent
  {
    assert w.engine.strategy.state.Idle?;
  }

  lemma DeferredPlacement(config: EngineConfig, w: World, nowMs: int, snapshot: SpreadSnapshot, a: Answers)
    requires Lifecycle(w)
    ensures
      var d := ExecuteDeferred(config, w.engine, nowMs, snapshot, a);
      && (Places(d.sent) ==> w.engine.activeOid.None? && !w.engine.specSent)
      && (!d.logged ==> d.sent == [] && d.engine.activeOid == w.engine.activeOid && d.engine.specSent == w.engine.specSent)
  {
    if w.engine.deferred.Some? && w.engine.deferred.value.CancelHlMaker? {
      CancelPlacesNothing(config, w.engine.(deferred := None, nextRetryMs := None), w.engine.deferred.value.order, snapshot,
                          a.steadyMs, a);
    }
  }

  lemma CancelPlacesNothing(config: EngineConfig, e: Engine, order: MakerOrder, snapshot: SpreadSnapshot, nowMs: int, a: Answers)
    ensures !Places(ExecuteCancel(config, e, order, snapshot, nowMs, a).sent)
  {
  }

  lemma OthersPlaceNothing(config: EngineConfig, w: World, event: Event)
    requires Sound(w) && !event.Tick?
    ensures !Places(React(config, w.engine, event).sent)
  {
  }

  /** No second maker order while one is active, and no outstanding speculative hedge is dropped by
      a new one: a placement is sent only when there is neither. */
  lemma PlacementFindsNothingOutstanding(config: EngineConfig, w: World, event: Event)
    requires Lifecycle(w) && Places(React(config, w.engine, event).sent)
    ensures w.engine.activeOid.None? && !w.engine.specSent
  {
    if event.Tick? {
      var snapshot := CollectSnapshot(event.hl, event.lighter);
      DeferredPlacement(config, w, event.nowMs, snapshot, event.answers);
      DeferredKeepsLifecycle(config, w, event.nowMs, snapshot, event.answers);
      var d := ExecuteDeferred(config, w.engine, event.nowMs, snapshot, event.answers);
      if !d.logged {
        DecidedPlacement(config, World(d.engine, RecordAll(w.ledger, d.sent, event.answers)), event.nowMs, snapshot, event.answers);
      }
    } else {
      OthersPlaceNothing(config, w, event);
    }
  }

  /** So it is after every run without a late fill. */
  lemma RunPlacesOneAtATime(config: EngineConfig, events: seq<Event>, event: Event)
    requires Timely(config, FRESH_WORLD, events)
    requires Places(React(config, Run(config, FRESH_WORLD, events).engine, event).sent)
    ensures
      var e := Run(config, FRESH_WORLD, events).engine; e.activeOid.None? && !e.specSent
  {
    FreshIsLifecycle();
    RunKeepsLifecycle(config, FRESH_WORLD, events);
    PlacementFindsNothingOutstanding(config, Run(config, FRESH_WORLD, events), event);
  }

  // ---------- What a trade sends ----------

  /** What still rests of an acknowledged order. */
  function Resting(p: Placement): real {
    p.size - p.filled
  }

  /** After any run without a late fill, a trade causes at most one request: a Lighter IOC against
      the active order, on the other side and of the size at which it was placed, only if none is
      outstanding, and never for a trade older than the order. It is the size that rests exactly
      while nothing of the order has filled. */
  lemma SpeculativeHedgeHasPlacedSize(config: EngineConfig, events: seq<Event>, trade: Event)
    requires trade.Trade? && Timely(config, FRESH_WORLD, events)
    requires React(config, Run(config, FRESH_WORLD, events).engine, trade).sent != []
    ensures
      var w := Run(config, FRESH_WORLD, events);
      var effect := React(config, w.engine, trade);
      && w.engine.activeOid.Some? && w.engine.activeOid.value in w.ledger.orders
      && var p := w.ledger.orders[w.engine.activeOid.value];
         && |effect.sent| == 1 && effect.sent[0].LighterIoc?
         && effect.sent[0].isAsk == p.direction.ShortLighterLongHl?
         && effect.sent[0].size == p.size
         && effect.sent[0].size - Resting(p) == p.filled
         && (effect.sent[0].size == Resting(p) <==> p.filled == 0.0)
         && !w.engine.specSent
         && (effect.engine.specSent ==> effect.engine.specSize == p.size && Some(effect.engine.specOid) == w.engine.activeOid)
         && (0 < trade.trade.exchangeTimeMs && 0 < w.engine.placedEpochMs ==>
               trade.trade.exchangeTimeMs >= w.engine.placedEpochMs)
  {
    FreshIsLifecycle();
    RunKeepsLifecycle(config, FRESH_WORLD, events);
    RunKeepsMatched(config, FRESH_WORLD, events);
  }

  /** While a speculative hedge is outstanding, no trade sends another. */
  lemma OneSpeculationAtATime(config: EngineConfig, w: World, trade: Event)
    requires trade.Trade? && w.engine.specSent
    ensures React(config, w.engine, trade).sent == [] && Step(config, w, trade) == w
  {
  }

  /** A fill that falls short of its speculative hedge leaves the order active and unhedged: the next
      trade through it sends the whole placed size again, although the filled part is gone. */
  lemma UnderfilledOrderIsHedgedAgain(config: EngineConfig, w: World, fill: Event, trade: Event)
    requires Lifecycle(w) && Matched(w) && fill.Fill? && trade.Trade?
    requires AcceptsFill(w.engine, fill.oid) && w.engine.specSent
    requires fill.size - w.engine.specSize <= -MATCH_TOLERANCE
    requires React(config, Step(config, w, fill).engine, trade).sent != []
    ensures fill.oid in w.ledger.orders
    ensures
      var p, w1 := w.ledger.orders[fill.oid], Step(config, w, fill);
      var sent := React(config, w1.engine, trade).sent;
      && w1.engine.activeOid == Some(fill.oid) && fill.oid in w1.ledger.orders
      && w1.ledger.orders[fill.oid] == p.(filled := p.filled + fill.size)
      && |sent| == 1 && sent[0].LighterIoc? && sent[0].size == p.size
  {
    var l := RecordFill(w.ledger, fill.oid, fill.size);
    var effect := Reconcile(w.engine, fill.size, fill.snapshot, fill.oid);
    assert React(config, w.engine, fill) == effect;
    RecordOne(l, effect.sent[0], fill.answers);
  }

  /** A reconciliation that closes an order drops less than the tolerance of it, unless the order was
      overfilled. */
  lemma ClosedRemainderIsSmall(config: EngineConfig, events: seq<Event>, fill: Event)
    requires fill.Fill? && Timely(config, FRESH_WORLD, events)
    requires
      var w := Run(config, FRESH_WORLD, events);
      && AcceptsFill(w.engine, fill.oid) && w.engine.specSent
      && (fill.oid in w.ledger.orders ==>
            var p := w.ledger.orders[fill.oid]; 0.0 <= p.filled && p.filled + fill.size <= p.size)
      && !AcceptsFill(React(config, w.engine, fill).engine, fill.oid)
    ensures
      var w := Run(config, FRESH_WORLD, events);
      && fill.oid in w.ledger.orders
      && var p := w.ledger.orders[fill.oid]; 0.0 <= Resting(p) - fill.size < MATCH_TOLERANCE
  {
    FreshIsLifecycle();
    RunKeepsLifecycle(config, FRESH_WORLD, events);
    RunKeepsMatched(config, FRESH_WORLD, events);
  }
}
