/** What the two exchanges really hold. The ledger watches the requests the engine sends and the
    fills that happen, and knows nothing of the engine's own bookkeeping. */
module HlLedger {
  import opened Types
  import opened HlEngine

  /** An acknowledged maker order: its true side and size, and how much of it has filled. */
  datatype Placement = Placement(direction: Direction, size: real, filled: real)

  datatype Ledger = Ledger(
    orders: map<string, Placement>,
    latestOid: Option<string>,
    hlNet: real,
    lighterNet: real,
    placeTimes: seq<int>,
    cancelTimes: seq<int>)

  const EMPTY_LEDGER := Ledger(map[], None, 0.0, 0.0, [], [])

  datatype Event =
    | Tick(nowMs: int, hl: Bbo, lighter: Bbo, answers: Answers)
    | Fill(oid: string, size: real, snapshot: SpreadSnapshot, answers: Answers)
    | Trade(trade: TradeEvent, hl: Bbo, lighter: Bbo, answers: Answers)
    | HedgeRejected(hl: Bbo, lighter: Bbo, answers: Answers)
    | HedgeFilled(price: real, answers: Answers)

  /** The engine's reaction to one event. */
  function React(config: EngineConfig, e: Engine, event: Event): Effect {
    match event
    case Tick(nowMs, hl, lighter, a) => OnMarketData(config, e, nowMs, CollectSnapshot(hl, lighter), a)
    case Fill(oid, size, snapshot, a) => OnHlFill(e, size, snapshot, oid, a)
    case Trade(trade, hl, lighter, a) => OnTradeEvent(config, e, trade, CollectSnapshot(hl, lighter), a)
    case HedgeRejected(hl, lighter, a) => OnHedgeReject(config, e, CollectSnapshot(hl, lighter), a)
    case HedgeFilled(price, a) => OnHedgeFill(e, price)
  }

  /** A confirmed Lighter IOC of positive size fills exactly, any other fills nothing; an HL
      reduction fills exactly when it is acknowledged. */
  function Record(l: Ledger, r: Request, a: Answers): Ledger {
    match r
    case HlPlace(isBuy, _, size, atMs) =>
      var timed := l.(placeTimes := l.placeTimes + [atMs]);
      if !a.placeOk then timed else
      var direction := if isBuy then ShortLighterLongHl else LongLighterShortHl;
      timed.(orders := l.orders[a.placeOid := Placement(direction, size, 0.0)], latestOid := Some(a.placeOid))
    case HlCancel(_, atMs) => l.(cancelTimes := l.cancelTimes + [atMs])
    case HlReduce(isBuy, size) => if a.reduceOk then l.(hlNet := l.hlNet + SideSigned(isBuy, size)) else l
    case LighterIoc(isAsk, _, size) =>
      if a.iocOk && a.iocConfirmed && size > 0.0 then l.(lighterNet := l.lighterNet + SideSigned(!isAsk, size)) else l
  }

  function RecordAll(l: Ledger, sent: seq<Request>, a: Answers): Ledger
    decreases |sent|
  {
    if sent == [] then l else RecordAll(Record(l, sent[0], a), sent[1..], a)
  }

  /** A fill moves the HL position on the side the order was placed on, whether or not the
      engine recognises it. */
  function RecordFill(l: Ledger, oid: string, size: real): Ledger {
    if oid !in l.orders then l else
    var p := l.orders[oid];
    l.(orders := l.orders[oid := p.(filled := p.filled + size)], hlNet := l.hlNet + Signed(p.direction, size))
  }

  datatype World = World(engine: Engine, ledger: Ledger)

  const FRESH_WORLD := World(FRESH_ENGINE, EMPTY_LEDGER)

  function Step(config: EngineConfig, w: World, event: Event): World {
    var effect := React(config, w.engine, event);
    var l := if event.Fill? then RecordFill(w.ledger, event.oid, event.size) else w.ledger;
    World(effect.engine, RecordAll(l, effect.sent, event.answers))
  }

  function Run(config: EngineConfig, w: World, events: seq<Event>): World {
    if events == [] then w
    else Step(config, Run(config, w, events[..|events| - 1]), events[|events| - 1])
  }

  lemma RecordNone(l: Ledger, a: Answers)
    ensures RecordAll(l, [], a) == l
  {
  }

  lemma RecordOne(l: Ledger, r: Request, a: Answers)
    ensures RecordAll(l, [r], a) == Record(l, r, a)
  {
  }

  lemma RecordTwo(l: Ledger, r0: Request, r1: Request, a: Answers)
    ensures RecordAll(l, [r0, r1], a) == Record(Record(l, r0, a), r1, a)
  {
    var sent := [r0, r1];
    assert sent[1..] == [r1];
    assert RecordAll(l, sent, a) == RecordAll(Record(l, r0, a), sent[1..], a);
    RecordOne(Record(l, r0, a), r1, a);
  }
}
