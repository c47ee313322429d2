/** The reverse execution engine as functions of its state. */
module LtEngine {
  import opened Types
  import opened Pricing
  import LtMaker

  datatype EngineConfig = EngineConfig(strategy: HedgerConfig, lighterOrderIntervalMs: int)

  datatype Engine = Engine(
    strategy: Strategy,
    activeIndex: Option<int>,
    lastMakerDirection: Direction,
    lastPlaceMs: int,
    lastCancelMs: int,
    deferred: Option<Action>,
    nextRetryMs: Option<int>)

  const FRESH_ENGINE := Engine(FRESH_STRATEGY, None, ShortLighterLongHl, 0, 0, None, None)

  datatype Request =
    | LighterPlace(isAsk: bool, price: real, size: real, atMs: int)
    | LighterCancel(orderIndex: int, atMs: int)
    | HlIoc(isBuy: bool, price: real, size: real)
    | LighterIoc(isAsk: bool, price: real, size: real)

  /** What the clocks and exchanges answer while one event is handled. */
  datatype Answers = Answers(
    steadyMs: int,
    laterMs: int,
    placeOk: bool,
    restingConfirmed: bool,
    placeIndex: int,
    cancelOk: bool,
    hlOk: bool,
    hlFilledSize: real,
    hlAvgPrice: real,
    unwindOk: bool)

  datatype Effect = Effect(engine: Engine, sent: seq<Request>, logged: bool)

  const UNWIND_SLIPPAGE_BPS := 15.0

  function CollectSnapshot(hl: Bbo, lighter: Bbo): SpreadSnapshot {
    var avgMid := (hl.Mid() + lighter.Mid()) / 2.0;
    SpreadSnapshot(lighter, hl, if avgMid > 0.0 then ((lighter.Mid() - hl.Mid()) / avgMid) * 10000.0 else 0.0)
  }

  function UnwindPrice(snapshot: SpreadSnapshot, isAsk: bool): real {
    var mid := snapshot.lighter.Mid();
    if isAsk then mid * (1.0 - UNWIND_SLIPPAGE_BPS / 10000.0) else mid * (1.0 + UNWIND_SLIPPAGE_BPS / 10000.0)
  }

  function RetryAt(lastMs: int, intervalMs: int, nowMs: int): Option<int> {
    if nowMs - lastMs >= intervalMs then None else Some(lastMs + intervalMs)
  }

  function ResetStrategy(e: Engine): Engine {
    e.(strategy := LtMaker.Reset(e.strategy))
  }

  function ExecutePlace(config: EngineConfig, e: Engine, order: MakerOrder, nowMs: int, a: Answers): Effect {
    var retry := RetryAt(e.lastPlaceMs, config.lighterOrderIntervalMs, nowMs);
    if retry.Some? then Effect(e.(deferred := Some(PlaceLighterMaker(order)), nextRetryMs := retry), [], false) else
    var placed := e.(lastPlaceMs := nowMs, nextRetryMs := None, deferred := None);
    Effect(
      if a.placeOk && a.restingConfirmed
      then placed.(activeIndex := Some(a.placeIndex), lastMakerDirection := order.direction)
      else placed,
      [LighterPlace(!order.isBuy, order.price, order.sizeBase, nowMs)],
      true)
  }

  function ExecuteCancel(config: EngineConfig, e: Engine, order: MakerOrder, nowMs: int, a: Answers): Effect {
    var retry := RetryAt(e.lastCancelMs, config.lighterOrderIntervalMs, nowMs);
    if retry.Some? then Effect(e.(deferred := Some(CancelLighterMaker(order)), nextRetryMs := retry), [], false) else
    var asked := e.(lastCancelMs := nowMs, nextRetryMs := None, deferred := None);
    if e.activeIndex.None? then Effect(asked, [], true) else
    Effect(
      if a.cancelOk then ResetStrategy(asked.(activeIndex := None)) else asked,
      [LighterCancel(e.activeIndex.value, nowMs)],
      true)
  }

  function ExecuteHedge(e: Engine, hedge: HlHedgeIntent, snapshot: SpreadSnapshot, a: Answers): Effect {
    var request := HlIoc(hedge.isBuy, hedge.limitPrice, hedge.sizeBase);
    if a.hlOk && a.hlFilledSize > 0.0 then
      var hedged := e.(strategy := LtMaker.OnHedgeFill(e.strategy, a.hlAvgPrice));
      Effect(ResetStrategy(hedged.(activeIndex := None)), [request], true)
    else
      var unwindIsAsk := e.lastMakerDirection.LongLighterShortHl?;
      Effect(ResetStrategy(e.(activeIndex := None)),
             [request, LighterIoc(unwindIsAsk, UnwindPrice(snapshot, unwindIsAsk), hedge.sizeBase)],
             true)
  }

  function ExecuteUnwind(e: Engine, snapshot: SpreadSnapshot): Effect {
    var open := e.strategy.open;
    var isAsk := open.Some? && open.value.direction.LongLighterShortHl?;
    Effect(e, [LighterIoc(isAsk, UnwindPrice(snapshot, isAsk), if open.Some? then open.value.sizeBase else 0.0)], true)
  }

  function ExecuteAction(config: EngineConfig, e: Engine, action: Action, snapshot: SpreadSnapshot,
                         nowMs: int, a: Answers): Effect {
    match action
    case PlaceLighterMaker(order) => ExecutePlace(config, e, order, nowMs, a)
    case CancelLighterMaker(order) => ExecuteCancel(config, e, order, nowMs, a)
    case SendHlTakerHedge(hedge) => ExecuteHedge(e, hedge, snapshot, a)
    case UnwindLighterPosition => ExecuteUnwind(e, snapshot)
    case _ => Effect(e, [], false)
  }

  function ExecuteDeferred(config: EngineConfig, e: Engine, nowMs: int, snapshot: SpreadSnapshot, a: Answers): Effect {
    if e.deferred.None? || (e.nextRetryMs.Some? && nowMs < e.nextRetryMs.value) then Effect(e, [], false)
    else ExecuteAction(config, e.(deferred := None, nextRetryMs := None), e.deferred.value, snapshot, a.steadyMs, a)
  }

  function Decide(config: EngineConfig, e: Engine, nowMs: int, snapshot: SpreadSnapshot, a: Answers): Effect {
    var (s, action) := LtMaker.OnMarketSnapshot(config.strategy, e.strategy, snapshot, nowMs);
    ExecuteAction(config, e.(strategy := s), action, snapshot, a.laterMs, a)
  }

  function OnMarketData(config: EngineConfig, e: Engine, nowMs: int, snapshot: SpreadSnapshot, a: Answers): Effect {
    var d := ExecuteDeferred(config, e, nowMs, snapshot, a);
    if d.logged then d else Decide(config, d.engine, nowMs, snapshot, a)
  }

  predicate AcceptsFill(e: Engine, orderIndex: int) {
    e.activeIndex == Some(orderIndex)
  }

  function OnLighterFill(config: EngineConfig, e: Engine, fillPrice: real, fillSize: real, snapshot: SpreadSnapshot,
                         orderIndex: int, a: Answers): Effect {
    if !AcceptsFill(e, orderIndex) then Effect(e, [], false) else
    var (s, action) := LtMaker.OnMakerFill(e.strategy, fillPrice, fillSize, snapshot);
    ExecuteAction(config, e.(strategy := s), action, snapshot, a.laterMs, a)
  }

  function OnHedgeReject(config: EngineConfig, e: Engine, snapshot: SpreadSnapshot, a: Answers): Effect {
    var (s, action) := LtMaker.OnHedgeReject(e.strategy);
    ExecuteAction(config, e.(strategy := s), action, snapshot, a.laterMs, a)
  }
}

/** Neutrality of the reverse engine over every run, with no assumption on deferral. */
module LtNeutrality {
  import opened Types
  import opened LtEngine
  import LtMaker

  datatype Event =
    | Tick(nowMs: int, hl: Bbo, lighter: Bbo, answers: Answers)
    | Fill(orderIndex: int, price: real, size: real, snapshot: SpreadSnapshot, answers: Answers)
    | HedgeRejected(hl: Bbo, lighter: Bbo, answers: Answers)

  /** An order as the exchange was asked to rest it. */
  datatype Resting = Resting(isAsk: bool, price: real, size: real)

  /** What the venues hold: every confirmed order, both net positions, and the send times. */
  datatype Ledger = Ledger(
    orders: map<int, Resting>,
    hlNet: real,
    lighterNet: real,
    placeTimes: seq<int>,
    cancelTimes: seq<int>)

  const EMPTY_LEDGER := Ledger(map[], 0.0, 0.0, [], [])

  datatype World = World(engine: Engine, ledger: Ledger)

  const FRESH_WORLD := World(FRESH_ENGINE, EMPTY_LEDGER)

  function React(config: EngineConfig, e: Engine, event: Event): Effect {
    match event
    case Tick(nowMs, hl, lighter, a) => OnMarketData(config, e, nowMs, CollectSnapshot(hl, lighter), a)
    case Fill(index, price, size, snapshot, a) => OnLighterFill(config, e, price, size, snapshot, index, a)
    case HedgeRejected(hl, lighter, a) => OnHedgeReject(config, e, CollectSnapshot(hl, lighter), a)
  }

  /** An HL IOC fills what it reports; a Lighter IOC fills exactly when it is acknowledged. */
  function Record(l: Ledger, r: Request, a: Answers): Ledger {
    match r
    case LighterPlace(isAsk, price, size, atMs) =>
      var timed := l.(placeTimes := l.placeTimes + [atMs]);
      if a.placeOk && a.restingConfirmed
      then timed.(orders := l.orders[a.placeIndex := Resting(isAsk, price, size)]) else timed
    case LighterCancel(_, atMs) => l.(cancelTimes := l.cancelTimes + [atMs])
    case HlIoc(isBuy, _, _) => l.(hlNet := l.hlNet + SideSigned(isBuy, a.hlFilledSize))
    case LighterIoc(isAsk, _, size) =>
      if a.unwindOk then l.(lighterNet := l.lighterNet + SideSigned(!isAsk, size)) else l
  }

  function RecordAll(l: Ledger, sent: seq<Request>, a: Answers): Ledger
    decreases |sent|
  {
    if sent == [] then l else RecordAll(Record(l, sent[0], a), sent[1..], a)
  }

  /** A fill of a confirmed order moves the Lighter position whether or not the engine reacts. */
  function RecordFill(l: Ledger, orderIndex: int, size: real): Ledger {
    if orderIndex !in l.orders then l
    else l.(lighterNet := l.lighterNet + SideSigned(!l.orders[orderIndex].isAsk, size))
  }

  function Step(config: EngineConfig, w: World, event: Event): World {
    var effect := React(config, w.engine, event);
    var l := if event.Fill? then RecordFill(w.ledger, event.orderIndex, event.size) else w.ledger;
    World(effect.engine, RecordAll(l, effect.sent, event.answers))
  }

  function Run(config: EngineConfig, w: World, events: seq<Event>): World {
    if events == [] then w
    else Step(config, Run(config, w, events[..|events| - 1]), events[|events| - 1])
  }

  predicate DefersPlacement(e: Engine) {
    e.deferred.Some? && e.deferred.value.PlaceLighterMaker?
  }

  predicate DefersCancel(e: Engine) {
    e.deferred.Some? && e.deferred.value.CancelLighterMaker?
  }

  predicate OrderFaces(order: MakerOrder) {
    order.isBuy == order.direction.LongLighterShortHl?
  }

  /** Between calls the strategy is in one of three states with no open position, and an active
      order is the strategy's own, at the side, price and size that the exchange has. */
  ghost predicate Sound(w: World) {
    && Core(w)
    && (DefersPlacement(w.engine) ==>
          && w.engine.activeIndex.None?
          && w.engine.strategy.state.PendingLighterMaker?
          && w.engine.strategy.pending == Some(w.engine.deferred.value.order))
    && (DefersCancel(w.engine) ==> !w.engine.strategy.state.PendingLighterMaker?)
  }

  /** What rests is the strategy's order. */
  predicate Rests(resting: Resting, order: MakerOrder) {
    resting == Resting(!order.isBuy, order.price, order.sizeBase)
  }

  ghost predicate Core(w: World) {
    var e := w.engine;
    && e.strategy.open.None?
    && (|| e.strategy.state.Idle?
        || e.strategy.state.PendingLighterMaker?
        || e.strategy.state.CancelledPendingLighterConfirm?)
    && (e.strategy.state.Idle? <==> e.strategy.pending.None?)
    && (e.strategy.pending.Some? ==> OrderFaces(e.strategy.pending.value))
    && (e.deferred.Some? <==> e.nextRetryMs.Some?)
    && (e.deferred.Some? ==> e.deferred.value.PlaceLighterMaker? || e.deferred.value.CancelLighterMaker?)
    && (e.activeIndex.Some? ==>
          && e.strategy.pending.Some?
          && e.strategy.pending.value.direction == e.lastMakerDirection
          && e.activeIndex.value in w.ledger.orders
          && Rests(w.ledger.orders[e.activeIndex.value], e.strategy.pending.value)
          && w.ledger.orders[e.activeIndex.value].isAsk == e.lastMakerDirection.ShortLighterLongHl?)
  }

  lemma RecordOne(l: Ledger, r: Request, a: Answers)
    ensures RecordAll(l, [r], a) == Record(l, r, a)
  {
  }

  lemma RecordTwo(l: Ledger, r0: Request, r1: Request, a: Answers)
    ensures RecordAll(l, [r0, r1], a) == Record(Record(l, r0, a), r1, a)
  {
    var sent := [r0, r1];
    assert sent[1..] == [r1];
    assert RecordAll(l, sent, a) == RecordAll(Record(l, r0, a), sent[1..], a);
    RecordOne(Record(l, r0, a), r1, a);
  }

  lemma PlaceKeepsSound(config: EngineConfig, w: World, order: MakerOrder, nowMs: int, a: Answers)
    requires Core(w) && OrderFaces(order) && w.engine.activeIndex.None?
    requires w.engine.strategy.state.PendingLighterMaker? && w.engine.strategy.pending == Some(order)
    ensures
      var effect := ExecutePlace(config, w.engine, order, nowMs, a);
      Sound(World(effect.engine, RecordAll(w.ledger, effect.sent, a)))
  {
    RecordOne(w.ledger, LighterPlace(!order.isBuy, order.price, order.sizeBase, nowMs), a);
  }

  lemma CancelKeepsSound(config: EngineConfig, w: World, order: MakerOrder, nowMs: int, a: Answers)
    requires Core(w) && !w.engine.strategy.state.PendingLighterMaker?
    ensures
      var effect := ExecuteCancel(config, w.engine, order, nowMs, a);
      Sound(World(effect.engine, RecordAll(w.ledger, effect.sent, a)))
  {
    if w.engine.activeIndex.Some? {
      RecordOne(w.ledger, LighterCancel(w.engine.activeIndex.value, nowMs), a);
    }
  }

  lemma DecideKeepsSound(config: EngineConfig, w: World, nowMs: int, snapshot: SpreadSnapshot, a: Answers)
    requires Sound(w)
    ensures
      var effect := Decide(config, w.engine, nowMs, snapshot, a);
      Sound(World(effect.engine, RecordAll(w.ledger, effect.sent, a)))
  {
    var e := w.engine;
    var (s, action) := LtMaker.OnMarketSnapshot(config.strategy, e.strategy, snapshot, nowMs);
    var decided := World(e.(strategy := s), w.ledger);
    if action.PlaceLighterMaker? {
      PlaceKeepsSound(config, decided, action.order, a.laterMs, a);
    } else if action.CancelLighterMaker? {
      CancelKeepsSound(config, decided, action.order, a.laterMs, a);
    }
  }

  lemma DeferredKeepsSound(config: EngineConfig, w: World, nowMs: int, snapshot: SpreadSnapshot, a: Answers)
    requires Sound(w)
    ensures
      var effect := ExecuteDeferred(config, w.engine, nowMs, snapshot, a);
      && Sound(World(effect.engine, RecordAll(w.ledger, effect.sent, a)))
      && (!effect.logged ==> effect.sent == [])
  {
    var e := w.engine;
    if e.deferred.Some? && nowMs >= e.nextRetryMs.value {
      var cleared := World(e.(deferred := None, nextRetryMs := None), w.ledger);
      if e.deferred.value.PlaceLighterMaker? {
        PlaceKeepsSound(config, cleared, e.deferred.value.order, a.steadyMs, a);
      } else {
        CancelKeepsSound(config, cleared, e.deferred.value.order, a.steadyMs, a);
      }
    }
  }

  /** The requests an accepted fill causes: one HL IOC against it, and one Lighter IOC back if
      and only if that one did not fill. */
  predicate HedgesFill(isAsk: bool, size: real, a: Answers, sent: seq<Request>) {
    && 0 < |sent| <= 2
    && sent[0].HlIoc? && sent[0].isBuy == isAsk && sent[0].size == size
    && (|sent| == 2 <==> !(a.hlOk && a.hlFilledSize > 0.0))
    && (|sent| == 2 ==> sent[1].LighterIoc? && sent[1].isAsk == !isAsk && sent[1].size == size)
  }

  /** A fill is hedged exactly when its order is the active one; it is then hedged once, and the
      order is closed, so a second fill of the same order is not hedged any more. */
  lemma FillIsHedgedOnce(config: EngineConfig, w: World, fill: Event)
    requires Sound(w) && fill.Fill?
    ensures
      var effect := React(config, w.engine, fill);
      && (effect.sent != [] <==> AcceptsFill(w.engine, fill.orderIndex))
      && (AcceptsFill(w.engine, fill.orderIndex) ==>
            && fill.orderIndex in w.ledger.orders
            && HedgesFill(w.ledger.orders[fill.orderIndex].isAsk, fill.size, fill.answers, effect.sent)
            && effect.engine.strategy.state.Idle?
            && !AcceptsFill(effect.engine, fill.orderIndex))
  {
  }

  lemma StepKeepsSound(config: EngineConfig, w: World, event: Event)
    requires Sound(w)
    ensures Sound(Step(config, w, event))
  {
    match event
    case Tick(nowMs, hl, lighter, a) =>
      var snapshot := CollectSnapshot(hl, lighter);
      DeferredKeepsSound(config, w, nowMs, snapshot, a);
      var d := ExecuteDeferred(config, w.engine, nowMs, snapshot, a);
      if !d.logged {
        DecideKeepsSound(config, World(d.engine, w.ledger), nowMs, snapshot, a);
      }
    case Fill(_, _, _, _, _) => FillIsHedgedOnce(config, w, event);
    case HedgeRejected(_, _, _) =>
  }

  lemma {:induction false} RunKeepsSound(config: EngineConfig, w: World, events: seq<Event>)
    requires Sound(w)
    ensures Sound(Run(config, w, events))
  {
    if events != [] {
      RunKeepsSound(config, w, events[..|events| - 1]);
      StepKeepsSound(config, Run(config, w, events[..|events| - 1]), events[|events| - 1]);
    }
  }

  // ---------- Exposure ----------

  function Naked(w: World): real {
    w.ledger.hlNet + w.ledger.lighterNet
  }

  /** What one event adds to the net exposure: only fills can, by what their hedge fell short of. */
  function Residual(w: World, event: Event): real {
    if !event.Fill? || event.orderIndex !in w.ledger.orders then 0.0
    else
      var a, isAsk := event.answers, w.ledger.orders[event.orderIndex].isAsk;
      if !AcceptsFill(w.engine, event.orderIndex) then SideSigned(!isAsk, event.size)
      else if (a.hlOk && a.hlFilledSize > 0.0) || !a.unwindOk then SideSigned(isAsk, a.hlFilledSize - event.size)
      else SideSigned(isAsk, a.hlFilledSize)
  }

  predicate MakerOnly(sent: seq<Request>) {
    forall i :: 0 <= i < |sent| ==> sent[i].LighterPlace? || sent[i].LighterCancel?
  }

  lemma {:induction false} MakerRequestsMoveNothing(l: Ledger, sent: seq<Request>, a: Answers)
    requires MakerOnly(sent)
    ensures RecordAll(l, sent, a).hlNet == l.hlNet && RecordAll(l, sent, a).lighterNet == l.lighterNet
    decreases |sent|
  {
    if sent != [] {
      MakerRequestsMoveNothing(Record(l, sent[0], a), sent[1..], a);
    }
  }

  lemma TicksSendMakerRequests(config: EngineConfig, w: World, event: Event)
    requires Sound(w) && event.Tick?
    ensures MakerOnly(React(config, w.engine, event).sent)
  {
    DeferredKeepsSound(config, w, event.nowMs, CollectSnapshot(event.hl, event.lighter), event.answers);
  }

  lemma ExposureIsConserved(config: EngineConfig, w: World, event: Event)
    requires Sound(w)
    ensures Naked(Step(config, w, event)) == Naked(w) + Residual(w, event)
  {
    match event
    case Tick(_, _, _, a) =>
      TicksSendMakerRequests(config, w, event);
      MakerRequestsMoveNothing(w.ledger, React(config, w.engine, event).sent, a);
    case Fill(index, _, size, _, a) =>
      FillIsHedgedOnce(config, w, event);
      var l := RecordFill(w.ledger, index, size);
      var sent := React(config, w.engine, event).sent;
      if |sent| == 1 {
        RecordOne(l, sent[0], a);
      } else if |sent| == 2 {
        assert sent == [sent[0], sent[1]];
        RecordTwo(l, sent[0], sent[1], a);
      }
    case HedgeRejected(_, _, _) =>
  }

  /** An HL IOC fills fully or not at all, and in the second case the reversing Lighter IOC goes
      through. Nothing is asked of fills that the engine does not accept. */
  ghost predicate IocsFillFully(w: World, event: Event) {
    event.Fill? && AcceptsFill(w.engine, event.orderIndex) ==>
      var a := event.answers;
      if a.hlOk && a.hlFilledSize > 0.0 then a.hlFilledSize == event.size else a.hlFilledSize == 0.0 && a.unwindOk
  }

  ghost predicate AllIocsFillFully(config: EngineConfig, w: World, events: seq<Event>) {
    forall i :: 0 <= i < |events| ==> IocsFillFully(Run(config, w, events[..i]), events[i])
  }

  /** A fill of an order that was confirmed once but is not active any more. */
  predicate IsDropped(w: World, event: Event) {
    event.Fill? && event.orderIndex in w.ledger.orders && !AcceptsFill(w.engine, event.orderIndex)
  }

  /** The signed size of a dropped fill. */
  function Dropped(w: World, event: Event): real {
    if IsDropped(w, event) then SideSigned(!w.ledger.orders[event.orderIndex].isAsk, event.size) else 0.0
  }

  function TotalDropped(config: EngineConfig, w: World, events: seq<Event>): real {
    if events == [] then 0.0
    else
      var front := events[..|events| - 1];
      TotalDropped(config, w, front) + Dropped(Run(config, w, front), events[|events| - 1])
  }

  lemma FullIocsLeaveTheDropped(config: EngineConfig, w: World, event: Event)
    requires Sound(w) && IocsFillFully(w, event)
    ensures Naked(Step(config, w, event)) == Naked(w) + Dropped(w, event)
  {
    ExposureIsConserved(config, w, event);
    if event.Fill? {
      FillIsHedgedOnce(config, w, event);
    }
  }

  /** The law of a run: when IOCs fill fully, the net exposure moves by exactly the fills that were
      dropped. */
  lemma {:induction false} RunExposureIsDropped(config: EngineConfig, w: World, events: seq<Event>)
    requires Sound(w) && AllIocsFillFully(config, w, events)
    ensures Naked(Run(config, w, events)) == Naked(w) + TotalDropped(config, w, events)
  {
    if events != [] {
      var front, last := events[..|events| - 1], events[|events| - 1];
      forall i | 0 <= i < |front|
        ensures IocsFillFully(Run(config, w, front[..i]), front[i])
      {
        assert front[..i] == events[..i] && front[i] == events[i];
      }
      RunExposureIsDropped(config, w, front);
      RunKeepsSound(config, w, front);
      assert front == events[..|events| - 1];
      FullIocsLeaveTheDropped(config, Run(config, w, front), last);
    }
  }

  ghost predicate NothingDropped(config: EngineConfig, w: World, events: seq<Event>) {
    forall i :: 0 <= i < |events| ==> !IsDropped(Run(config, w, events[..i]), events[i])
  }

  lemma {:induction false} NothingDroppedTotal(config: EngineConfig, w: World, events: seq<Event>)
    requires NothingDropped(config, w, events)
    ensures TotalDropped(config, w, events) == 0.0
  {
    if events != [] {
      var front, last := events[..|events| - 1], events[|events| - 1];
      forall i | 0 <= i < |front|
        ensures !IsDropped(Run(config, w, front[..i]), front[i])
      {
        assert front[..i] == events[..i] && front[i] == events[i];
      }
      NothingDroppedTotal(config, w, front);
      assert front == events[..|events| - 1];
      assert !IsDropped(Run(config, w, front), last);
    }
  }

  /** So over a run that drops no fill the net exposure never moves. */
  lemma RunStaysNeutral(config: EngineConfig, w: World, events: seq<Event>)
    requires Sound(w) && AllIocsFillFully(config, w, events) && NothingDropped(config, w, events)
    ensures Naked(Run(config, w, events)) == Naked(w)
  {
    RunExposureIsDropped(config, w, events);
    NothingDroppedTotal(config, w, events);
  }

  /** An order that fills in two parts: the first part closes it, so the second stays naked in full. */
  lemma SecondPartIsDropped(config: EngineConfig, w: World, first: Event, second: Event)
    requires Sound(w) && first.Fill? && second.Fill? && first.orderIndex == second.orderIndex
    requires AcceptsFill(w.engine, first.orderIndex) && IocsFillFully(w, first)
    ensures
      var w1 := Step(config, w, first);
      && IsDropped(w1, second)
      && React(config, w1.engine, second).sent == []
      && Naked(Step(config, w1, second)) == Naked(w) + SideSigned(!w.ledger.orders[first.orderIndex].isAsk, second.size)
  {
    var w1 := Step(config, w, first);
    FillIsHedgedOnce(config, w, first);
    StepKeepsSound(config, w, first);
    FullIocsLeaveTheDropped(config, w, first);
    FillKeepsOrders(config, w, first);
    FullIocsLeaveTheDropped(config, w1, second);
    FillIsHedgedOnce(config, w1, second);
  }

  predicate TakesOnly(sent: seq<Request>) {
    forall i :: 0 <= i < |sent| ==> sent[i].HlIoc? || sent[i].LighterIoc?
  }

  lemma {:induction false} TakersKeepOrders(l: Ledger, sent: seq<Request>, a: Answers)
    requires TakesOnly(sent)
    ensures RecordAll(l, sent, a).orders == l.orders
    decreases |sent|
  {
    if sent != [] {
      TakersKeepOrders(Record(l, sent[0], a), sent[1..], a);
    }
  }

  lemma FillKeepsOrders(config: EngineConfig, w: World, fill: Event)
    requires Sound(w) && fill.Fill?
    ensures Step(config, w, fill).ledger.orders == w.ledger.orders
  {
    FillIsHedgedOnce(config, w, fill);
    var sent := React(config, w.engine, fill).sent;
    if AcceptsFill(w.engine, fill.orderIndex) {
      var l := RecordFill(w.ledger, fill.orderIndex, fill.size);
      assert TakesOnly(sent);
      TakersKeepOrders(l, sent, fill.answers);
    }
  }

  // ---------- Wedged engines ----------

  /** The strategy waits for a cancelled order that the engine does not have. */
  predicate Wedged(e: Engine) {
    e.strategy.state.CancelledPendingLighterConfirm? && e.activeIndex.None?
  }

  lemma WedgedStep(config: EngineConfig, w: World, event: Event)
    requires Sound(w) && Wedged(w.engine)
    ensures Wedged(Step(config, w, event).engine) && React(config, w.engine, event).sent == []
  {
    var a := event.answers;
    assert w.engine.deferred.Some? ==> w.engine.deferred.value.CancelLighterMaker?;
  }

  /** Nothing ever frees it, not even a fill: no event of any run makes it send again. */
  lemma {:induction false} WedgedForever(config: EngineConfig, w: World, events: seq<Event>)
    requires Sound(w) && Wedged(w.engine)
    ensures Wedged(Run(config, w, events).engine)
    ensures forall i :: 0 <= i < |events| ==> React(config, Run(config, w, events[..i]).engine, events[i]).sent == []
  {
    if events != [] {
      var front, last := events[..|events| - 1], events[|events| - 1];
      WedgedForever(config, w, front);
      RunKeepsSound(config, w, front);
      WedgedStep(config, Run(config, w, front), last);
      forall i | 0 <= i < |events|
        ensures React(config, Run(config, w, events[..i]).engine, events[i]).sent == []
      {
        if i < |front| {
          assert front[..i] == events[..i] && front[i] == events[i];
        } else {
          assert events[..i] == front && events[i] == last;
        }
      }
    }
  }
}
