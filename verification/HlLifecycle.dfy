/** Order lifecycle of the forward engine: what every event keeps, and exactly which event breaks it. */
module HlLifecycle {
  import opened Types
  import opened Pricing
  import opened HlEngine
  import opened HlLedger
  import HlMaker

  predicate DefersPlacement(e: Engine) {
    e.deferred.Some? && e.deferred.value.PlaceHlMaker?
  }

  predicate DefersCancel(e: Engine) {
    e.deferred.Some? && e.deferred.value.CancelHlMaker?
  }

  predicate OrderFaces(order: MakerOrder) {
    order.isBuy == order.direction.ShortLighterLongHl?
  }

  /** Facts that hold after every event whatsoever. */
  ghost predicate Sound(w: World) {
    && Core(w)
    && (DefersCancel(w.engine) ==> !w.engine.strategy.state.PendingHlMaker?)
  }

  ghost predicate Core(w: World) {
    var e := w.engine;
    // the strategy never leaves its three maker states
    && e.strategy.open.None?
    && (e.strategy.state.Idle? || e.strategy.state.PendingHlMaker? || e.strategy.state.CancelledPendingConfirm?)
    && (e.strategy.state.Idle? <==> e.strategy.pending.None?)
    && (e.strategy.pending.Some? ==> OrderFaces(e.strategy.pending.value))
    // the deferral slot and its timer are filled and emptied together
    && (e.deferred.Some? <==> e.nextRetryMs.Some?)
    && (e.deferred.Some? ==> e.deferred.value.PlaceHlMaker? || e.deferred.value.CancelHlMaker?)
    && (DefersPlacement(e) ==> OrderFaces(e.deferred.value.order))
    // only the latest acknowledged placement is remembered, on its true side
    && (forall oid :: oid in e.recentOids ==> w.ledger.latestOid == Some(oid))
    && (e.activeOid.Some? ==> w.ledger.latestOid == e.activeOid)
    && (w.ledger.latestOid.Some? ==>
          && w.ledger.latestOid.value in w.ledger.orders
          && w.ledger.orders[w.ledger.latestOid.value].direction == e.lastMakerDirection)
  }

  /** An active order is the one remembered order, the strategy holds it on the remembered side,
      no placement waits, and a sent speculative hedge belongs to it. */
  ghost predicate Lifecycle(w: World) {
    var e := w.engine;
    && Sound(w)
    && (e.activeOid.Some? ==>
          && e.recentOids == {e.activeOid.value}
          && e.strategy.pending.Some?
          && e.strategy.pending.value.direction == e.lastMakerDirection
          && !DefersPlacement(e))
    && (e.specSent ==> e.activeOid == Some(e.specOid))
    && (DefersPlacement(e) ==>
          e.strategy.state.PendingHlMaker? && e.strategy.pending == Some(e.deferred.value.order))
  }

  /** An accepted fill of an older order arrives while a placement waits for the rate limiter. */
  predicate LateFill(e: Engine, event: Event) {
    event.Fill? && AcceptsFill(e, event.oid) && DefersPlacement(e)
  }

  lemma FreshIsLifecycle()
    ensures Lifecycle(FRESH_WORLD)
  {
  }

  // ---------- Soundness needs no assumption ----------

  /** The engine after a request is the old one with the slot emptied, or with the order remembered
      too. */
  lemma SentPlaceKeepsSound(w: World, e: Engine, order: MakerOrder, request: Request, a: Answers)
    requires Core(w) && OrderFaces(order)
    requires e == w.engine.(lastPlaceMs := e.lastPlaceMs, nextRetryMs := None, deferred := None)
    requires request.HlPlace? && request.isBuy == order.isBuy
    ensures Sound(World(if a.placeOk then Acknowledge(e, order, a) else e, Record(w.ledger, request, a)))
  {
  }

  lemma PlaceKeepsSound(config: EngineConfig, w: World, order: MakerOrder, snapshot: SpreadSnapshot, nowMs: int, a: Answers)
    requires Core(w) && OrderFaces(order)
    requires w.engine.strategy.state.PendingHlMaker? || !DefersCancel(w.engine)
    ensures
      var effect := ExecutePlace(config, w.engine, order, snapshot, nowMs, a);
      Sound(World(effect.engine, RecordAll(w.ledger, effect.sent, a)))
  {
    if !Blocked(config, w.engine, snapshot, order) && PlaceRetryAt(config, w.engine, nowMs).None? {
      var request := HlPlace(order.isBuy, order.price, order.sizeBase, nowMs);
      RecordOne(w.ledger, request, a);
      SentPlaceKeepsSound(w, w.engine.(lastPlaceMs := nowMs, nextRetryMs := None, deferred := None), order, request, a);
    }
  }

  lemma CancelKeepsSound(config: EngineConfig, w: World, order: MakerOrder, snapshot: SpreadSnapshot, nowMs: int, a: Answers)
    requires Sound(w) && !w.engine.strategy.state.PendingHlMaker?
    ensures
      var effect := ExecuteCancel(config, w.engine, order, snapshot, nowMs, a);
      Sound(World(effect.engine, RecordAll(w.ledger, effect.sent, a)))
  {
    QuietSends(w.ledger, ExecuteCancel(config, w.engine, order, snapshot, nowMs, a).sent, a);
  }

  lemma DecideKeepsSound(config: EngineConfig, w: World, nowMs: int, snapshot: SpreadSnapshot, a: Answers)
    requires Sound(w)
    ensures
      var effect := Decide(config, w.engine, nowMs, snapshot, a);
      Sound(World(effect.engine, RecordAll(w.ledger, effect.sent, a)))
  {
    var e := w.engine;
    var (s, action) := HlMaker.OnMarketSnapshot(config.strategy, e.strategy, snapshot, nowMs, e.hlPositionBase);
    var decided := World(e.(strategy := s), w.ledger);
    if action.PlaceHlMaker? {
      assert Core(decided);
      PlaceKeepsSound(config, decided, action.order, snapshot, a.laterMs, a);
    } else if action.CancelHlMaker? {
      CancelKeepsSound(config, decided, action.order, snapshot, a.laterMs, a);
    }
  }

  lemma DeferredKeepsSound(config: EngineConfig, w: World, nowMs: int, snapshot: SpreadSnapshot, a: Answers)
    requires Sound(w)
    ensures
      var effect := ExecuteDeferred(config, w.engine, nowMs, snapshot, a);
      && Sound(World(effect.engine, RecordAll(w.ledger, effect.sent, a)))
      && (!effect.logged ==> effect.sent == [])
  {
    var e := w.engine;
    if e.deferred.Some? && nowMs >= e.nextRetryMs.value {
      var cleared := World(e.(deferred := None, nextRetryMs := None), w.ledger);
      if e.deferred.value.PlaceHlMaker? {
        PlaceKeepsSound(config, cleared, e.deferred.value.order, snapshot, a.steadyMs, a);
      } else {
        CancelKeepsSound(config, cleared, e.deferred.value.order, snapshot, a.steadyMs, a);
      }
    }
  }

  lemma TickKeepsSound(config: EngineConfig, w: World, event: Event)
    requires Sound(w) && event.Tick?
    ensures Sound(Step(config, w, event))
  {
    var snapshot := CollectSnapshot(event.hl, event.lighter);
    DeferredKeepsSound(config, w, event.nowMs, snapshot, event.answers);
    var d := ExecuteDeferred(config, w.engine, event.nowMs, snapshot, event.answers);
    if !d.logged {
      DecideKeepsSound(config, World(d.engine, w.ledger), event.nowMs, snapshot, event.answers);
    }
  }

  predicate Quiet(sent: seq<Request>) {
    forall i :: 0 <= i < |sent| ==> !sent[i].HlPlace?
  }

  /** Only an acknowledged placement adds an order to the ledger. */
  lemma {:induction false} QuietSends(l: Ledger, sent: seq<Request>, a: Answers)
    requires Quiet(sent)
    ensures
      var l' := RecordAll(l, sent, a);
      l'.orders == l.orders && l'.latestOid == l.latestOid && l'.placeTimes == l.placeTimes
    decreases |sent|
  {
    if sent != [] {
      QuietSends(Record(l, sent[0], a), sent[1..], a);
    }
  }

  lemma ReconcileSends(e: Engine, size: real, snapshot: SpreadSnapshot, oid: string)
    ensures Quiet(Reconcile(e, size, snapshot, oid).sent)
  {
  }

  /** A fill can only forget: the order, the strategy's view of it, and the speculation. */
  predicate Forgets(e: Engine, e': Engine) {
    && e'.recentOids <= e.recentOids
    && (e'.activeOid == e.activeOid || e'.activeOid.None?)
    && (e'.strategy == e.strategy || e'.strategy == HlMaker.Reset(e.strategy))
    && e'.lastMakerDirection == e.lastMakerDirection
    && e'.deferred == e.deferred && e'.nextRetryMs == e.nextRetryMs
  }

  lemma ReconcileForgets(e: Engine, size: real, snapshot: SpreadSnapshot, oid: string)
    ensures Forgets(e, Reconcile(e, size, snapshot, oid).engine)
  {
  }

  lemma HedgeForgets(e: Engine, size: real, snapshot: SpreadSnapshot, a: Answers)
    ensures Forgets(e, HedgeFill(e, size, snapshot, a).engine)
    ensures Quiet(HedgeFill(e, size, snapshot, a).sent)
  {
  }

  lemma ForgettingKeepsSound(w: World, e': Engine, l: Ledger)
    requires Sound(w) && Forgets(w.engine, e') && l.latestOid == w.ledger.latestOid
    requires forall oid :: oid in w.ledger.orders ==> oid in l.orders && l.orders[oid].direction == w.ledger.orders[oid].direction
    ensures Sound(World(e', l))
  {
  }

  lemma FillKeepsSound(config: EngineConfig, w: World, event: Event)
    requires Sound(w) && event.Fill?
    ensures Sound(Step(config, w, event))
  {
    var e, l := w.engine, RecordFill(w.ledger, event.oid, event.size);
    var effect := OnHlFill(e, event.size, event.snapshot, event.oid, event.answers);
    assert React(config, e, event) == effect;
    if AcceptsFill(e, event.oid) {
      if e.specSent && event.oid == e.specOid {
        ReconcileForgets(e, event.size, event.snapshot, event.oid);
        ReconcileSends(e, event.size, event.snapshot, event.oid);
      } else {
        HedgeForgets(e, event.size, event.snapshot, event.answers);
      }
    }
    QuietSends(l, effect.sent, event.answers);
    ForgettingKeepsSound(w, effect.engine, RecordAll(l, effect.sent, event.answers));
  }

  lemma StepKeepsSound(config: EngineConfig, w: World, event: Event)
    requires Sound(w)
    ensures Sound(Step(config, w, event))
  {
    match event
    case Tick(_, _, _, _) => TickKeepsSound(config, w, event);
    case Fill(_, _, _, _) => FillKeepsSound(config, w, event);
    case Trade(_, _, _, _) =>
      QuietSends(w.ledger, React(config, w.engine, event).sent, event.answers);
    case _ =>
  }

  // ---------- The lifecycle invariant ----------

  lemma PlaceKeepsLifecycle(config: EngineConfig, w: World, order: MakerOrder, snapshot: SpreadSnapshot, nowMs: int, a: Answers)
    requires Core(w) && OrderFaces(order)
    requires w.engine.activeOid.None? && !w.engine.specSent && !DefersPlacement(w.engine)
    requires w.engine.strategy.state.PendingHlMaker? && w.engine.strategy.pending == Some(order)
    ensures
      var effect := ExecutePlace(config, w.engine, order, snapshot, nowMs, a);
      Lifecycle(World(effect.engine, RecordAll(w.ledger, effect.sent, a)))
  {
    PlaceKeepsSound(config, w, order, snapshot, nowMs, a);
  }

  lemma CancelKeepsLifecycle(config: EngineConfig, w: World, order: MakerOrder, snapshot: SpreadSnapshot, nowMs: int, a: Answers)
    requires Sound(w) && !w.engine.strategy.state.PendingHlMaker?
    requires Lifecycle(World(w.engine.(deferred := None, nextRetryMs := None), w.ledger))
    ensures
      var effect := ExecuteCancel(config, w.engine, order, snapshot, nowMs, a);
      Lifecycle(World(effect.engine, RecordAll(w.ledger, effect.sent, a)))
  {
    CancelKeepsSound(config, w, order, snapshot, nowMs, a);
  }

  lemma DecideKeepsLifecycle(config: EngineConfig, w: World, nowMs: int, snapshot: SpreadSnapshot, a: Answers)
    requires Lifecycle(w)
    ensures
      var effect := Decide(config, w.engine, nowMs, snapshot, a);
      Lifecycle(World(effect.engine, RecordAll(w.ledger, effect.sent, a)))
  {
    DecideKeepsSound(config, w, nowMs, snapshot, a);
    var e := w.engine;
    var (s, action) := HlMaker.OnMarketSnapshot(config.strategy, e.strategy, snapshot, nowMs, e.hlPositionBase);
    var decided := World(e.(strategy := s), w.ledger);
    if action.PlaceHlMaker? {
      PlaceKeepsLifecycle(config, decided, action.order, snapshot, a.laterMs, a);
    } else if action.CancelHlMaker? {
      CancelKeepsLifecycle(config, decided, action.order, snapshot, a.laterMs, a);
    }
  }

  lemma DeferredKeepsLifecycle(config: EngineConfig, w: World, nowMs: int, snapshot: SpreadSnapshot, a: Answers)
    requires Lifecycle(w)
    ensures
      var effect := ExecuteDeferred(config, w.engine, nowMs, snapshot, a);
      Lifecycle(World(effect.engine, RecordAll(w.ledger, effect.sent, a)))
  {
    DeferredKeepsSound(config, w, nowMs, snapshot, a);
    var e := w.engine;
    if e.deferred.Some? && nowMs >= e.nextRetryMs.value {
      var cleared := World(e.(deferred := None, nextRetryMs := None), w.ledger);
      if e.deferred.value.PlaceHlMaker? {
        PlaceKeepsLifecycle(config, cleared, e.deferred.value.order, snapshot, a.steadyMs, a);
      } else {
        CancelKeepsLifecycle(config, cleared, e.deferred.value.order, snapshot, a.steadyMs, a);
      }
    }
  }

  lemma TickKeepsLifecycle(config: EngineConfig, w: World, event: Event)
    requires Lifecycle(w) && event.Tick?
    ensures Lifecycle(Step(config, w, event))
  {
    var snapshot := CollectSnapshot(event.hl, event.lighter);
    DeferredKeepsLifecycle(config, w, event.nowMs, snapshot, event.answers);
    DeferredKeepsSound(config, w, event.nowMs, snapshot, event.answers);
    var d := ExecuteDeferred(config, w.engine, event.nowMs, snapshot, event.answers);
    if !d.logged {
      DecideKeepsLifecycle(config, World(d.engine, w.ledger), event.nowMs, snapshot, event.answers);
    }
  }

  lemma FillAndLifecycle(config: EngineConfig, w: World, event: Event)
    requires Lifecycle(w) && event.Fill?
    ensures Lifecycle(Step(config, w, event)) <==> !LateFill(w.engine, event)
  {
    FillKeepsSound(config, w, event);
    var e := w.engine;
    if AcceptsFill(e, event.oid) && e.specSent {
      assert event.oid == e.specOid;
    }
  }

  /** Every event keeps the lifecycle invariant except exactly one: a late fill. */
  lemma LifecycleBreaksOnlyOnLateFill(config: EngineConfig, w: World, event: Event)
    requires Lifecycle(w)
    ensures Lifecycle(Step(config, w, event)) <==> !LateFill(w.engine, event)
  {
    StepKeepsSound(config, w, event);
    match event
    case Tick(_, _, _, _) => TickKeepsLifecycle(config, w, event);
    case Fill(_, _, _, _) => FillAndLifecycle(config, w, event);
    case _ =>
  }

  /** No late fill anywhere in a run. */
  ghost predicate Timely(config: EngineConfig, w: World, events: seq<Event>) {
    forall i :: 0 <= i < |events| ==> !LateFill(Run(config, w, events[..i]).engine, events[i])
  }

  lemma TimelyPrefix(config: EngineConfig, w: World, events: seq<Event>)
    requires events != [] && Timely(config, w, events)
    ensures Timely(config, w, events[..|events| - 1])
    ensures !LateFill(Run(config, w, events[..|events| - 1]).engine, events[|events| - 1])
  {
    var front := events[..|events| - 1];
    forall i | 0 <= i < |front|
      ensures !LateFill(Run(config, w, front[..i]).engine, front[i])
    {
      assert front[..i] == events[..i] && front[i] == events[i];
    }
  }

  lemma {:induction false} RunKeepsSound(config: EngineConfig, w: World, events: seq<Event>)
    requires Sound(w)
    ensures Sound(Run(config, w, events))
  {
    if events != [] {
      RunKeepsSound(config, w, events[..|events| - 1]);
      StepKeepsSound(config, Run(config, w, events[..|events| - 1]), events[|events| - 1]);
    }
  }

  lemma {:induction false} RunKeepsLifecycle(config: EngineConfig, w: World, events: seq<Event>)
    requires Lifecycle(w) && Timely(config, w, events)
    ensures Lifecycle(Run(config, w, events))
  {
    if events != [] {
      TimelyPrefix(config, w, events);
      RunKeepsLifecycle(config, w, events[..|events| - 1]);
      LifecycleBreaksOnlyOnLateFill(config, Run(config, w, events[..|events| - 1]), events[|events| - 1]);
    }
  }
}
