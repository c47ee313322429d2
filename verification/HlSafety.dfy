/** Safety of the forward engine over whole runs: which fills it accepts, how far its position
    can go, how fast it sends, and what a deferred cancel can hit. */
module HlSafety {
  import opened Types
  import opened Pricing
  import opened HlEngine
  import opened HlLedger
  import opened HlLifecycle
  import opened HlNeutrality
  import HlMaker

  // ---------- Accepted fills ----------

  /** Hedges and unwinds of an accepted fill are on the side opposite to its order. */
  predicate HedgesOrder(direction: Direction, size: real, sent: seq<Request>) {
    && 0 < |sent| <= 2
    && sent[0].LighterIoc? && sent[0].isAsk == direction.ShortLighterLongHl? && sent[0].size == size
    && (|sent| == 2 ==>
          sent[1].HlReduce? && sent[1].isBuy == direction.LongLighterShortHl? && sent[1].size == size)
  }

  /** After any run at all, an accepted fill is of the latest acknowledged placement, and without a
      speculative hedge it is hedged (or taken back) on that order's side and in full. */
  lemma AcceptedFillIsLatest(config: EngineConfig, w0: World, events: seq<Event>, fill: Event)
    requires Sound(w0) && fill.Fill?
    requires AcceptsFill(Run(config, w0, events).engine, fill.oid)
    ensures
      var w := Run(config, w0, events);
      && w.ledger.latestOid == Some(fill.oid)
      && fill.oid in w.ledger.orders
      && (!(w.engine.specSent && w.engine.specOid == fill.oid) ==>
            HedgesOrder(w.ledger.orders[fill.oid].direction, fill.size, React(config, w.engine, fill).sent))
  {
    RunKeepsSound(config, w0, events);
  }

  /** A fill leaves its whole size unhedged exactly when the engine does not accept it: after a
      reconciliation that closed the order, the next partial fill of that order is such a fill. */
  lemma ReconciledOrderDropsItsNextFill(config: EngineConfig, w: World, first: Event, second: Event)
    requires Lifecycle(w) && first.Fill? && second.Fill? && first.oid == second.oid
    requires AcceptsFill(w.engine, first.oid) && w.engine.specSent
    ensures
      AcceptsFill(Step(config, w, first).engine, second.oid)
      <==> first.size - w.engine.specSize <= -MATCH_TOLERANCE || first.size - w.engine.specSize == MATCH_TOLERANCE
    ensures !AcceptsFill(Step(config, w, first).engine, second.oid) ==>
              React(config, Step(config, w, first).engine, second).sent == []
  {
  }

  /** The overshoot unwind asks for a positive size except on one boundary: a fill larger than the
      speculative hedge by exactly the tolerance. */
  lemma OvershootUnwindSize(e: Engine, fillSize: real, snapshot: SpreadSnapshot, oid: string)
    requires Reconcile(e, fillSize, snapshot, oid).sent != []
    ensures Reconcile(e, fillSize, snapshot, oid).sent[0].LighterIoc?
    ensures Reconcile(e, fillSize, snapshot, oid).sent[0].size > 0.0 <==> fillSize - e.specSize != MATCH_TOLERANCE
  {
  }

  // ---------- Position bound ----------

  /** Prices never fall below `m`, so a position of `limit` base units already reaches the USD
      limit and no order is larger than `unit`. */
  datatype Scale = Scale(m: real, limit: real, unit: real)

  ghost predicate Scaled(config: EngineConfig, k: Scale) {
    && k.m > 0.0
    && config.strategy.maxPositionUsd >= 0.0
    && config.strategy.pairSizeUsd >= 0.0
    && k.limit == config.strategy.maxPositionUsd / k.m
    && k.unit == config.strategy.pairSizeUsd / k.m
  }

  function Cap(k: Scale): real {
    k.limit + k.unit
  }

  predicate Within(x: real, cap: real) {
    -cap <= x <= cap
  }

  ghost predicate OrderFits(order: MakerOrder, k: Scale) {
    0.0 <= order.sizeBase <= k.unit
  }

  /** The position is within the cap, and would be if the remembered order filled completely. */
  ghost predicate Bounded(w: World, k: Scale) {
    var e := w.engine;
    && Sound(w)
    && Within(e.hlPositionBase, Cap(k))
    && (DefersPlacement(e) ==> OrderFits(e.deferred.value.order, k))
    && (forall oid :: oid in e.recentOids ==>
          var p := w.ledger.orders[oid];
          && 0.0 <= p.filled <= p.size
          && Within(e.hlPositionBase + Signed(p.direction, p.size - p.filled), Cap(k)))
  }

  /** Every mid seen is at least `m`, and no order fills beyond its size. */
  ghost predicate Orderly(w: World, event: Event, m: real) {
    match event
    case Tick(_, hl, lighter, _) => hl.Mid() >= m && lighter.Mid() >= m
    case Fill(oid, size, _, _) =>
      && size >= 0.0
      && (oid in w.ledger.orders ==> w.ledger.orders[oid].filled + size <= w.ledger.orders[oid].size)
    case _ => true
  }

  lemma DivideByLarger(x: real, small: real, large: real)
    requires x >= 0.0 && 0.0 < small <= large
    ensures 0.0 <= x / large <= x / small
  {
    var q, r := x / large, x / small;
    assert q * large == x && r * small == x;
    Grow(q, small, large);
    CompareFactors(q, r, small);
  }

  lemma Grow(q: real, small: real, large: real)
    requires q >= 0.0 && small <= large
    ensures q * small <= q * large
  {
  }

  lemma CompareFactors(q: real, r: real, m: real)
    requires m > 0.0 && q * m <= r * m
    ensures q <= r
  {
    Strict(q, r, m);
  }

  lemma Strict(q: real, r: real, m: real)
    requires m > 0.0
    ensures q > r ==> q * m > r * m
  {
    if q > r {
      assert (q - r) * m > 0.0;
    }
  }

  lemma BelowLimit(position: real, mid: real, maxUsd: real, m: real)
    requires 0.0 < m <= mid && maxUsd >= 0.0
    requires Abs(position) * mid < maxUsd
    ensures Abs(position) <= maxUsd / m
  {
    var p, r := Abs(position), maxUsd / m;
    assert r * m == maxUsd;
    Grow(p, m, mid);
    CompareFactors(p, r, m);
  }

  lemma PairSizeFits(config: EngineConfig, snapshot: SpreadSnapshot, k: Scale)
    requires Scaled(config, k) && snapshot.hl.Mid() >= k.m && snapshot.lighter.Mid() >= k.m
    ensures 0.0 <= PairSize(config.strategy, snapshot) <= k.unit
  {
    DivideByLarger(config.strategy.pairSizeUsd, k.m, (snapshot.lighter.Mid() + snapshot.hl.Mid()) / 2.0);
  }

  /** The heart of the bound: an order that is not blocked cannot carry the position past the cap. */
  lemma UnblockedOrderFits(config: EngineConfig, e: Engine, order: MakerOrder, snapshot: SpreadSnapshot, k: Scale)
    requires Scaled(config, k) && snapshot.hl.Mid() >= k.m
    requires OrderFaces(order) && OrderFits(order, k) && Within(e.hlPositionBase, Cap(k))
    requires !Blocked(config, e, snapshot, order)
    ensures Within(e.hlPositionBase + Signed(order.direction, order.sizeBase), Cap(k))
  {
    DivideByLarger(config.strategy.maxPositionUsd, k.m, k.m);
    if WouldIncrease(e, order.isBuy) {
      BelowLimit(e.hlPositionBase, snapshot.hl.Mid(), config.strategy.maxPositionUsd, k.m);
    }
  }

  /** The order was sent, and is remembered if it was acknowledged. */
  lemma SentPlaceKeepsBounded(w: World, e: Engine, order: MakerOrder, request: Request, a: Answers, k: Scale)
    requires Bounded(World(HlEngine.ResetStrategy(w.engine), w.ledger), k) && Core(w) && OrderFaces(order)
    requires e == w.engine.(lastPlaceMs := e.lastPlaceMs, nextRetryMs := None, deferred := None)
    requires request.HlPlace? && request.isBuy == order.isBuy && request.size == order.sizeBase >= 0.0
    requires Within(e.hlPositionBase + Signed(order.direction, order.sizeBase), Cap(k))
    ensures Bounded(World(if a.placeOk then Acknowledge(e, order, a) else e, Record(w.ledger, request, a)), k)
  {
    SentPlaceKeepsSound(w, e, order, request, a);
  }

  lemma PlaceKeepsBounded(config: EngineConfig, w: World, order: MakerOrder, snapshot: SpreadSnapshot, nowMs: int,
                          a: Answers, k: Scale)
    requires Scaled(config, k) && snapshot.hl.Mid() >= k.m
    requires Bounded(World(HlEngine.ResetStrategy(w.engine), w.ledger), k) && Core(w)
    requires w.engine.strategy.state.PendingHlMaker? || !DefersCancel(w.engine)
    requires OrderFaces(order) && OrderFits(order, k)
    ensures
      var effect := ExecutePlace(config, w.engine, order, snapshot, nowMs, a);
      Bounded(World(effect.engine, RecordAll(w.ledger, effect.sent, a)), k)
  {
    if Blocked(config, w.engine, snapshot, order) || PlaceRetryAt(config, w.engine, nowMs).Some? {
      PlaceKeepsSound(config, w, order, snapshot, nowMs, a);
    } else {
      var request := HlPlace(order.isBuy, order.price, order.sizeBase, nowMs);
      UnblockedOrderFits(config, w.engine, order, snapshot, k);
      RecordOne(w.ledger, request, a);
      SentPlaceKeepsBounded(w, w.engine.(lastPlaceMs := nowMs, nextRetryMs := None, deferred := None), order, request, a, k);
    }
  }

  lemma CancelKeepsBounded(config: EngineConfig, w: World, order: MakerOrder, snapshot: SpreadSnapshot, nowMs: int,
                           a: Answers, k: Scale)
    requires Bounded(w, k) && !w.engine.strategy.state.PendingHlMaker?
    ensures
      var effect := ExecuteCancel(config, w.engine, order, snapshot, nowMs, a);
      Bounded(World(effect.engine, RecordAll(w.ledger, effect.sent, a)), k)
  {
    CancelKeepsSound(config, w, order, snapshot, nowMs, a);
    QuietSends(w.ledger, ExecuteCancel(config, w.engine, order, snapshot, nowMs, a).sent, a);
  }

  lemma DecidedOrderFits(config: EngineConfig, e: Engine, nowMs: int, snapshot: SpreadSnapshot, k: Scale)
    requires Scaled(config, k) && snapshot.hl.Mid() >= k.m && snapshot.lighter.Mid() >= k.m
    ensures
      var action := HlMaker.OnMarketSnapshot(config.strategy, e.strategy, snapshot, nowMs, e.hlPositionBase).1;
      action.PlaceHlMaker? ==> OrderFaces(action.order) && OrderFits(action.order, k)
  {
    PairSizeFits(config, snapshot, k);
  }

  lemma DecidedPlaceKeepsBounded(config: EngineConfig, w: World, nowMs: int, snapshot: SpreadSnapshot, a: Answers, k: Scale,
                                 s: Strategy, order: MakerOrder)
    requires Scaled(config, k) && snapshot.hl.Mid() >= k.m && snapshot.lighter.Mid() >= k.m && Bounded(w, k)
    requires (s, PlaceHlMaker(order))
             == HlMaker.OnMarketSnapshot(config.strategy, w.engine.strategy, snapshot, nowMs, w.engine.hlPositionBase)
    ensures
      var effect := ExecutePlace(config, w.engine.(strategy := s), order, snapshot, a.laterMs, a);
      Bounded(World(effect.engine, RecordAll(w.ledger, effect.sent, a)), k)
  {
    DecidedOrderFits(config, w.engine, nowMs, snapshot, k);
    PlaceKeepsBounded(config, World(w.engine.(strategy := s), w.ledger), order, snapshot, a.laterMs, a, k);
  }

  lemma DecidedCancelKeepsBounded(config: EngineConfig, w: World, nowMs: int, snapshot: SpreadSnapshot, a: Answers, k: Scale,
                                  s: Strategy, order: MakerOrder)
    requires Bounded(w, k)
    requires (s, CancelHlMaker(order))
             == HlMaker.OnMarketSnapshot(config.strategy, w.engine.strategy, snapshot, nowMs, w.engine.hlPositionBase)
    ensures
      var effect := ExecuteCancel(config, w.engine.(strategy := s), order, snapshot, a.laterMs, a);
      Bounded(World(effect.engine, RecordAll(w.ledger, effect.sent, a)), k)
  {
    CancelKeepsBounded(config, World(w.engine.(strategy := s), w.ledger), order, snapshot, a.laterMs, a, k);
  }

  lemma DecideKeepsBounded(config: EngineConfig, w: World, nowMs: int, snapshot: SpreadSnapshot, a: Answers, k: Scale)
    requires Scaled(config, k) && snapshot.hl.Mid() >= k.m && snapshot.lighter.Mid() >= k.m && Bounded(w, k)
    ensures
      var effect := Decide(config, w.engine, nowMs, snapshot, a);
      Bounded(World(effect.engine, RecordAll(w.ledger, effect.sent, a)), k)
  {
    DecideKeepsSound(config, w, nowMs, snapshot, a);
    var (s, action) := HlMaker.OnMarketSnapshot(config.strategy, w.engine.strategy, snapshot, nowMs, w.engine.hlPositionBase);
    match action
    case PlaceHlMaker(order) => DecidedPlaceKeepsBounded(config, w, nowMs, snapshot, a, k, s, order);
    case CancelHlMaker(order) => DecidedCancelKeepsBounded(config, w, nowMs, snapshot, a, k, s, order);
    case _ =>
  }

  lemma DeferredKeepsBounded(config: EngineConfig, w: World, nowMs: int, snapshot: SpreadSnapshot, a: Answers, k: Scale)
    requires Scaled(config, k) && snapshot.hl.Mid() >= k.m && Bounded(w, k)
    ensures
      var effect := ExecuteDeferred(config, w.engine, nowMs, snapshot, a);
      Bounded(World(effect.engine, RecordAll(w.ledger, effect.sent, a)), k)
  {
    DeferredKeepsSound(config, w, nowMs, snapshot, a);
    var e := w.engine;
    if e.deferred.Some? && nowMs >= e.nextRetryMs.value {
      var cleared := World(e.(deferred := None, nextRetryMs := None), w.ledger);
      if e.deferred.value.PlaceHlMaker? {
        PlaceKeepsBounded(config, cleared, e.deferred.value.order, snapshot, a.steadyMs, a, k);
      } else {
        CancelKeepsBounded(config, cleared, e.deferred.value.order, snapshot, a.steadyMs, a, k);
      }
    }
  }

  lemma FillMoves(w: World, event: Event)
    requires Sound(w) && event.Fill?
    ensures
      var e, e' := w.engine, OnHlFill(w.engine, event.size, event.snapshot, event.oid, event.answers).engine;
      && e'.recentOids <= e.recentOids
      && e'.deferred == e.deferred
      && (!AcceptsFill(e, event.oid) ==> e' == e)
      && (e'.hlPositionBase == e.hlPositionBase
          || e'.hlPositionBase == e.hlPositionBase + Signed(e.lastMakerDirection, event.size))
  {
  }

  lemma FillKeepsBounded(config: EngineConfig, w: World, event: Event, k: Scale)
    requires Bounded(w, k) && event.Fill? && Orderly(w, event, k.m)
    ensures Bounded(Step(config, w, event), k)
  {
    FillKeepsSound(config, w, event);
    FillMoves(w, event);
    var l := RecordFill(w.ledger, event.oid, event.size);
    var effect := OnHlFill(w.engine, event.size, event.snapshot, event.oid, event.answers);
    assert React(config, w.engine, event) == effect;
    QuietSends(l, effect.sent, event.answers);
    if AcceptsFill(w.engine, event.oid) {
      assert w.ledger.latestOid == Some(event.oid);
    }
  }

  lemma StepKeepsBounded(config: EngineConfig, w: World, event: Event, k: Scale)
    requires Scaled(config, k) && Bounded(w, k) && Orderly(w, event, k.m)
    ensures Bounded(Step(config, w, event), k)
  {
    match event
    case Tick(nowMs, hl, lighter, a) =>
      var snapshot := CollectSnapshot(hl, lighter);
      DeferredKeepsBounded(config, w, nowMs, snapshot, a, k);
      DeferredKeepsSound(config, w, nowMs, snapshot, a);
      var d := ExecuteDeferred(config, w.engine, nowMs, snapshot, a);
      if !d.logged {
        DecideKeepsBounded(config, World(d.engine, w.ledger), nowMs, snapshot, a, k);
      }
    case Fill(_, _, _, _) => FillKeepsBounded(config, w, event, k);
    case _ =>
      StepKeepsSound(config, w, event);
      QuietSends(w.ledger, React(config, w.engine, event).sent, event.answers);
  }

  ghost predicate AllOrderly(config: EngineConfig, w: World, events: seq<Event>, m: real) {
    forall i :: 0 <= i < |events| ==> Orderly(Run(config, w, events[..i]), events[i], m)
  }

  /** Over any orderly run, late fills and deferred placements included, the position stays
      within (max_position_usd + pair_size_usd) / m. */
  lemma {:induction false} RunStaysBounded(config: EngineConfig, w: World, events: seq<Event>, k: Scale)
    requires Scaled(config, k) && Bounded(w, k) && AllOrderly(config, w, events, k.m)
    ensures Bounded(Run(config, w, events), k)
  {
    if events != [] {
      var front := events[..|events| - 1];
      forall i | 0 <= i < |front|
        ensures Orderly(Run(config, w, front[..i]), front[i], k.m)
      {
        assert front[..i] == events[..i] && front[i] == events[i];
      }
      RunStaysBounded(config, w, front, k);
      assert front == events[..|events| - 1];
      StepKeepsBounded(config, Run(config, w, front), events[|events| - 1], k);
    }
  }

  /** The bound in the configuration's own terms, from any start within it that remembers no order. */
  lemma PositionBound(config: EngineConfig, w: World, events: seq<Event>, m: real)
    requires m > 0.0 && config.strategy.maxPositionUsd >= 0.0 && config.strategy.pairSizeUsd >= 0.0
    requires Sound(w) && w.engine.recentOids == {} && !DefersPlacement(w.engine)
    requires Within(w.engine.hlPositionBase, (config.strategy.maxPositionUsd + config.strategy.pairSizeUsd) / m)
    requires AllOrderly(config, w, events, m)
    ensures Within(Run(config, w, events).engine.hlPositionBase,
                   (config.strategy.maxPositionUsd + config.strategy.pairSizeUsd) / m)
  {
    var k := Scale(m, config.strategy.maxPositionUsd / m, config.strategy.pairSizeUsd / m);
    assert Cap(k) == (config.strategy.maxPositionUsd + config.strategy.pairSizeUsd) / m;
    RunStaysBounded(config, w, events, k);
  }

  // ---------- Rate limits ----------

  predicate Spaced(times: seq<int>, intervalMs: int) {
    forall i, j :: 0 <= i && j == i + 1 < |times| ==> times[j] - times[i] >= intervalMs
  }

  /** n spaced instants span at least n - 1 intervals. */
  lemma {:induction false} SpacedSpan(times: seq<int>, intervalMs: int)
    requires times != [] && Spaced(times, intervalMs)
    ensures times[|times| - 1] - times[0] >= (|times| - 1) * intervalMs
    decreases |times|
  {
    if |times| > 1 {
      var n := |times| - 1;
      var front := times[..n];
      SpacedSpan(front, intervalMs);
      assert times[n] - times[n - 1] >= intervalMs;
      assert n * intervalMs == (n - 1) * intervalMs + intervalMs;
    }
  }

  /** The ledger's send times are spaced, and the engine's stamps are not before the last of them. */
  ghost predicate Paced(config: EngineConfig, w: World) {
    var places, cancels := w.ledger.placeTimes, w.ledger.cancelTimes;
    && Spaced(places, config.hlOrderIntervalMs)
    && Spaced(cancels, config.hlOrderIntervalMs)
    && (places != [] ==> places[|places| - 1] <= w.engine.lastPlaceMs)
    && (cancels != [] ==> cancels[|cancels| - 1] <= w.engine.lastCancelMs)
  }

  predicate Unstamped(sent: seq<Request>) {
    forall i :: 0 <= i < |sent| ==> !sent[i].HlPlace? && !sent[i].HlCancel?
  }

  lemma {:induction false} UnstampedSends(l: Ledger, sent: seq<Request>, a: Answers)
    requires Unstamped(sent)
    ensures RecordAll(l, sent, a).placeTimes == l.placeTimes && RecordAll(l, sent, a).cancelTimes == l.cancelTimes
    decreases |sent|
  {
    if sent != [] {
      UnstampedSends(Record(l, sent[0], a), sent[1..], a);
    }
  }

  lemma SpacedAppend(times: seq<int>, now: int, intervalMs: int)
    requires Spaced(times, intervalMs) && (times != [] ==> now - times[|times| - 1] >= intervalMs)
    ensures Spaced(times + [now], intervalMs)
  {
  }

  lemma CancelTimes(l: Ledger, sent: seq<Request>, a: Answers)
    requires sent != [] && sent[0].HlCancel? && Unstamped(sent[1..])
    ensures RecordAll(l, sent, a).placeTimes == l.placeTimes
    ensures RecordAll(l, sent, a).cancelTimes == l.cancelTimes + [sent[0].atMs]
  {
    UnstampedSends(Record(l, sent[0], a), sent[1..], a);
  }

  lemma PlaceKeepsPaced(config: EngineConfig, w: World, order: MakerOrder, snapshot: SpreadSnapshot, nowMs: int, a: Answers)
    requires config.hlOrderIntervalMs >= 0 && Paced(config, w)
    ensures
      var effect := ExecutePlace(config, w.engine, order, snapshot, nowMs, a);
      Paced(config, World(effect.engine, RecordAll(w.ledger, effect.sent, a)))
  {
    var effect := ExecutePlace(config, w.engine, order, snapshot, nowMs, a);
    if effect.sent != [] {
      RecordOne(w.ledger, effect.sent[0], a);
      SpacedAppend(w.ledger.placeTimes, nowMs, config.hlOrderIntervalMs);
    }
  }

  lemma CancelKeepsPaced(config: EngineConfig, w: World, order: MakerOrder, snapshot: SpreadSnapshot, nowMs: int, a: Answers)
    requires config.hlOrderIntervalMs >= 0 && Paced(config, w)
    ensures
      var effect := ExecuteCancel(config, w.engine, order, snapshot, nowMs, a);
      Paced(config, World(effect.engine, RecordAll(w.ledger, effect.sent, a)))
  {
    var effect := ExecuteCancel(config, w.engine, order, snapshot, nowMs, a);
    CancelStamps(config, w.engine, order, snapshot, nowMs, a);
    if effect.sent != [] {
      CancelTimes(w.ledger, effect.sent, a);
      SpacedAppend(w.ledger.cancelTimes, nowMs, config.hlOrderIntervalMs);
    }
  }

  lemma CancelStamps(config: EngineConfig, e: Engine, order: MakerOrder, snapshot: SpreadSnapshot, nowMs: int, a: Answers)
    ensures
      var effect := ExecuteCancel(config, e, order, snapshot, nowMs, a);
      && effect.engine.lastPlaceMs == e.lastPlaceMs
      && (effect.engine.lastCancelMs == e.lastCancelMs
          || (effect.engine.lastCancelMs == nowMs && nowMs - e.lastCancelMs >= config.hlOrderIntervalMs))
      && (effect.sent != [] ==>
            && effect.engine.lastCancelMs == nowMs && nowMs - e.lastCancelMs >= config.hlOrderIntervalMs
            && effect.sent[0].HlCancel? && effect.sent[0].atMs == nowMs && Unstamped(effect.sent[1..]))
  {
  }

  lemma ExecuteKeepsPaced(config: EngineConfig, w: World, action: Action, snapshot: SpreadSnapshot, nowMs: int, a: Answers)
    requires config.hlOrderIntervalMs >= 0 && Paced(config, w)
    requires action.PlaceHlMaker? || action.CancelHlMaker? || action.NoAction?
    ensures
      var effect := ExecuteAction(config, w.engine, action, snapshot, nowMs, a);
      Paced(config, World(effect.engine, RecordAll(w.ledger, effect.sent, a)))
  {
    match action
    case PlaceHlMaker(order) => PlaceKeepsPaced(config, w, order, snapshot, nowMs, a);
    case CancelHlMaker(order) => CancelKeepsPaced(config, w, order, snapshot, nowMs, a);
    case _ =>
  }

  lemma DeferredKeepsPaced(config: EngineConfig, w: World, nowMs: int, snapshot: SpreadSnapshot, a: Answers)
    requires config.hlOrderIntervalMs >= 0 && Sound(w) && Paced(config, w)
    ensures
      var effect := ExecuteDeferred(config, w.engine, nowMs, snapshot, a);
      Paced(config, World(effect.engine, RecordAll(w.ledger, effect.sent, a)))
  {
    var e := w.engine;
    if e.deferred.Some? && nowMs >= e.nextRetryMs.value {
      ExecuteKeepsPaced(config, World(e.(deferred := None, nextRetryMs := None), w.ledger), e.deferred.value,
                        snapshot, a.steadyMs, a);
    }
  }

  lemma DecideKeepsPaced(config: EngineConfig, w: World, nowMs: int, snapshot: SpreadSnapshot, a: Answers)
    requires config.hlOrderIntervalMs >= 0 && Paced(config, w)
    ensures
      var effect := Decide(config, w.engine, nowMs, snapshot, a);
      Paced(config, World(effect.engine, RecordAll(w.ledger, effect.sent, a)))
  {
    var e := w.engine;
    var (s, action) := HlMaker.OnMarketSnapshot(config.strategy, e.strategy, snapshot, nowMs, e.hlPositionBase);
    ExecuteKeepsPaced(config, World(e.(strategy := s), w.ledger), action, snapshot, a.laterMs, a);
  }

  lemma StepKeepsPaced(config: EngineConfig, w: World, event: Event)
    requires config.hlOrderIntervalMs >= 0 && Sound(w) && Paced(config, w)
    ensures Paced(config, Step(config, w, event))
  {
    if event.Tick? {
      var snapshot, a := CollectSnapshot(event.hl, event.lighter), event.answers;
      DeferredKeepsPaced(config, w, event.nowMs, snapshot, a);
      DeferredKeepsSound(config, w, event.nowMs, snapshot, a);
      var d := ExecuteDeferred(config, w.engine, event.nowMs, snapshot, a);
      if !d.logged {
        DecideKeepsPaced(config, World(d.engine, w.ledger), event.nowMs, snapshot, a);
      }
    } else {
      OtherKeepsPaced(config, w, event);
    }
  }

  lemma OtherKeepsStamps(config: EngineConfig, w: World, event: Event)
    requires Sound(w) && !event.Tick?
    ensures
      var effect := React(config, w.engine, event);
      && Unstamped(effect.sent)
      && effect.engine.lastPlaceMs == w.engine.lastPlaceMs && effect.engine.lastCancelMs == w.engine.lastCancelMs
  {
  }

  lemma OtherKeepsPaced(config: EngineConfig, w: World, event: Event)
    requires Sound(w) && Paced(config, w) && !event.Tick?
    ensures Paced(config, Step(config, w, event))
  {
    OtherKeepsStamps(config, w, event);
    var l := if event.Fill? then RecordFill(w.ledger, event.oid, event.size) else w.ledger;
    assert l.placeTimes == w.ledger.placeTimes && l.cancelTimes == w.ledger.cancelTimes;
    var effect := React(config, w.engine, event);
    UnstampedSends(l, effect.sent, event.answers);
    assert Step(config, w, event) == World(effect.engine, RecordAll(l, effect.sent, event.answers));
  }

  lemma {:induction false} RunKeepsPaced(config: EngineConfig, w: World, events: seq<Event>)
    requires config.hlOrderIntervalMs >= 0 && Sound(w) && Paced(config, w)
    ensures Paced(config, Run(config, w, events))
  {
    if events != [] {
      var front := events[..|events| - 1];
      RunKeepsPaced(config, w, front);
      RunKeepsSound(config, w, front);
      StepKeepsPaced(config, Run(config, w, front), events[|events| - 1]);
    }
  }

  /** n placements of one run span at least n - 1 intervals, and so do n cancels, whatever the clock does. */
  lemma SendRateIsLimited(config: EngineConfig, events: seq<Event>)
    requires config.hlOrderIntervalMs >= 0
    ensures
      var l := Run(config, FRESH_WORLD, events).ledger;
      && (l.placeTimes != [] ==> l.placeTimes[|l.placeTimes| - 1] - l.placeTimes[0]
                                 >= (|l.placeTimes| - 1) * config.hlOrderIntervalMs)
      && (l.cancelTimes != [] ==> l.cancelTimes[|l.cancelTimes| - 1] - l.cancelTimes[0]
                                  >= (|l.cancelTimes| - 1) * config.hlOrderIntervalMs)
  {
    RunKeepsPaced(config, FRESH_WORLD, events);
    var l := Run(config, FRESH_WORLD, events).ledger;
    if l.placeTimes != [] {
      SpacedSpan(l.placeTimes, config.hlOrderIntervalMs);
    }
    if l.cancelTimes != [] {
      SpacedSpan(l.cancelTimes, config.hlOrderIntervalMs);
    }
  }

  // ---------- Deferred cancels ----------

  predicate SameOrNoTarget(e: Engine, e': Engine) {
    e'.activeOid.None? || e'.activeOid == e.activeOid
  }

  lemma DecideKeepsTarget(config: EngineConfig, e: Engine, nowMs: int, snapshot: SpreadSnapshot, a: Answers)
    requires e.strategy.state.CancelledPendingConfirm? || e.strategy.state.Idle?
    requires DefersCancel(Decide(config, e, nowMs, snapshot, a).engine)
    ensures SameOrNoTarget(e, Decide(config, e, nowMs, snapshot, a).engine)
  {
  }

  lemma TickKeepsTarget(config: EngineConfig, w: World, event: Event)
    requires Sound(w) && event.Tick? && DefersCancel(w.engine) && DefersCancel(React(config, w.engine, event).engine)
    ensures SameOrNoTarget(w.engine, React(config, w.engine, event).engine)
  {
    var snapshot := CollectSnapshot(event.hl, event.lighter);
    var d := ExecuteDeferred(config, w.engine, event.nowMs, snapshot, event.answers);
    assert SameOrNoTarget(w.engine, d.engine);
    if !d.logged {
      DecideKeepsTarget(config, d.engine, event.nowMs, snapshot, event.answers);
    }
  }

  /** While a cancel stays deferred the active order can only disappear. */
  lemma DeferredCancelKeepsTarget(config: EngineConfig, w: World, event: Event)
    requires Sound(w) && DefersCancel(w.engine) && DefersCancel(Step(config, w, event).engine)
    ensures SameOrNoTarget(w.engine, Step(config, w, event).engine)
  {
    if event.Tick? {
      TickKeepsTarget(config, w, event);
    }
  }

  lemma CancelNamesActiveOrder(config: EngineConfig, w: World, event: Event)
    requires Sound(w) && DefersCancel(w.engine)
    ensures
      var sent := React(config, w.engine, event).sent;
      forall i :: 0 <= i < |sent| && sent[i].HlCancel? ==> w.engine.activeOid == Some(sent[i].oid)
  {
  }

  ghost predicate KeepsDeferring(config: EngineConfig, w: World, events: seq<Event>) {
    forall i :: 0 <= i <= |events| ==> DefersCancel(Run(config, w, events[..i]).engine)
  }

  lemma {:induction false} DeferredTargetSurvives(config: EngineConfig, w: World, events: seq<Event>)
    requires Sound(w) && KeepsDeferring(config, w, events)
    ensures
      var e := Run(config, w, events).engine;
      DefersCancel(e) && (e.activeOid.None? || e.activeOid == w.engine.activeOid)
  {
    assert events[..|events|] == events;
    if events != [] {
      var front := events[..|events| - 1];
      forall i | 0 <= i <= |front|
        ensures DefersCancel(Run(config, w, front[..i]).engine)
      {
        assert front[..i] == events[..i];
      }
      DeferredTargetSurvives(config, w, front);
      RunKeepsSound(config, w, front);
      DeferredCancelKeepsTarget(config, Run(config, w, front), events[|events| - 1]);
    }
  }

  /** However long a cancel was deferred, when it is finally sent it names the order that was
      active when it was raised. */
  lemma DeferredCancelHitsItsOrder(config: EngineConfig, w: World, events: seq<Event>, tick: Event, i: nat)
    requires Sound(w) && KeepsDeferring(config, w, events)
    requires
      var sent := React(config, Run(config, w, events).engine, tick).sent;
      i < |sent| && sent[i].HlCancel?
    ensures
      var sent := React(config, Run(config, w, events).engine, tick).sent;
      w.engine.activeOid == Some(sent[i].oid)
  {
    RunKeepsSound(config, w, events);
    DeferredTargetSurvives(config, w, events);
    CancelNamesActiveOrder(config, Run(config, w, events), tick);
  }
}
