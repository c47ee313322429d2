/** Delta neutrality of the forward engine: an exact conservation law for the naked exposure,
    and what it leaves after a whole run. */
module HlNeutrality {
  import opened Types
  import opened Pricing
  import opened HlEngine
  import opened HlLedger
  import opened HlLifecycle
  import HlMaker
  import HlSpeculation

  /** The signed size of the outstanding speculative hedge. */
  function Awaited(e: Engine): real {
    if e.specSent then Signed(e.lastMakerDirection, e.specSize) else 0.0
  }

  /** Both venues together, plus the maker fill that a speculative hedge is waiting for. */
  function Naked(w: World): real {
    w.ledger.hlNet + w.ledger.lighterNet + Awaited(w.engine)
  }

  /** How far the engine's own position is from the one it really has. */
  function Drift(w: World): real {
    w.engine.hlPositionBase - w.ledger.hlNet
  }

  function IocFilled(a: Answers, size: real): real {
    if a.iocOk && a.iocConfirmed && size > 0.0 then size else 0.0
  }

  /** The fill is of the order that a speculative hedge was sent for. */
  predicate Reconciles(e: Engine, oid: string) {
    e.specSent && oid == e.specOid
  }

  /** The part of a fill that no hedge, correction or unwind covered. */
  function FillResidual(w: World, oid: string, size: real, a: Answers): real {
    var e := w.engine;
    var diff := size - e.specSize;
    if oid !in w.ledger.orders then 0.0
    else if !AcceptsFill(e, oid) then Signed(w.ledger.orders[oid].direction, size)
    else if Reconciles(e, oid) then
      if Abs(diff) < MATCH_TOLERANCE then Signed(e.lastMakerDirection, diff)
      else if diff > MATCH_TOLERANCE then Signed(e.lastMakerDirection, diff - IocFilled(a, diff))
      else Signed(e.lastMakerDirection, diff + IocFilled(a, -diff))
    else if a.iocOk && a.iocConfirmed then Signed(e.lastMakerDirection, size - IocFilled(a, size))
    else if a.reduceOk then 0.0
    else Signed(e.lastMakerDirection, size)
  }

  predicate Acknowledged(sent: seq<Request>, a: Answers) {
    sent != [] && sent[0].HlPlace? && a.placeOk
  }

  /** What the cancel of a speculatively hedged order leaves when its unwind fails. */
  function CancelResidual(e: Engine, sent: seq<Request>, e': Engine, a: Answers): real {
    if e.specSent && !e'.specSent && !Acknowledged(sent, a)
    then Signed(e.lastMakerDirection, IocFilled(a, e.specSize) - e.specSize) else 0.0
  }

  /** A speculative hedge that a new order's acknowledgement forgets. */
  function Forgotten(e: Engine, sent: seq<Request>, a: Answers): real {
    if Acknowledged(sent, a) then -Awaited(e) else 0.0
  }

  predicate StartsSpeculation(config: EngineConfig, e: Engine, event: Event) {
    event.Trade? && !e.specSent && React(config, e, event).engine.specSent
  }

  /** What the requests of one event fail to cover. */
  function Residual(config: EngineConfig, w: World, event: Event): real {
    var e := w.engine;
    match event
    case Fill(oid, size, _, a) => FillResidual(w, oid, size, a)
    case Tick(_, _, _, a) =>
      var effect := React(config, e, event);
      CancelResidual(e, effect.sent, effect.engine, a)
    case Trade(_, _, _, a) =>
      if StartsSpeculation(config, e, event)
      then var size := e.strategy.pending.value.sizeBase; Signed(e.lastMakerDirection, size - IocFilled(a, size))
      else 0.0
    case _ => 0.0
  }

  /** What an event loses although every request went through: a speculative hedge that a new order
      forgets, and one that was sent for the strategy's order when another one was active. */
  function Leaked(config: EngineConfig, w: World, event: Event): real {
    var e := w.engine;
    match event
    case Tick(_, _, _, a) => Forgotten(e, React(config, e, event).sent, a)
    case Trade(_, _, _, a) =>
      if StartsSpeculation(config, e, event)
      then
        var order := e.strategy.pending.value;
        Signed(e.lastMakerDirection, IocFilled(a, order.sizeBase)) - Signed(order.direction, IocFilled(a, order.sizeBase))
      else 0.0
    case _ => 0.0
  }

  lemma CancelBalances(config: EngineConfig, w: World, order: MakerOrder, snapshot: SpreadSnapshot, nowMs: int, a: Answers)
    ensures
      var effect := ExecuteCancel(config, w.engine, order, snapshot, nowMs, a);
      var w' := World(effect.engine, RecordAll(w.ledger, effect.sent, a));
      && Naked(w') == Naked(w) + CancelResidual(w.engine, effect.sent, effect.engine, a)
      && !Acknowledged(effect.sent, a)
      && Drift(w') == Drift(w)
  {
    var effect := ExecuteCancel(config, w.engine, order, snapshot, nowMs, a);
    if |effect.sent| == 1 {
      RecordOne(w.ledger, effect.sent[0], a);
    } else if |effect.sent| == 2 {
      assert effect.sent == [effect.sent[0], effect.sent[1]];
      RecordTwo(w.ledger, effect.sent[0], effect.sent[1], a);
    }
  }

  lemma PlaceBalances(config: EngineConfig, w: World, order: MakerOrder, snapshot: SpreadSnapshot, nowMs: int, a: Answers)
    ensures
      var effect := ExecutePlace(config, w.engine, order, snapshot, nowMs, a);
      var w' := World(effect.engine, RecordAll(w.ledger, effect.sent, a));
      && Naked(w') == Naked(w) + Forgotten(w.engine, effect.sent, a)
      && (!Acknowledged(effect.sent, a) ==> effect.engine.specSent == w.engine.specSent)
      && Drift(w') == Drift(w)
  {
    var effect := ExecutePlace(config, w.engine, order, snapshot, nowMs, a);
    if effect.sent != [] {
      RecordOne(w.ledger, effect.sent[0], a);
    }
  }

  /** The exposure law for one effect of a tick. */
  ghost predicate TickLaw(w: World, effect: Effect, a: Answers) {
    var w' := World(effect.engine, RecordAll(w.ledger, effect.sent, a));
    && Naked(w') == Naked(w) + CancelResidual(w.engine, effect.sent, effect.engine, a) + Forgotten(w.engine, effect.sent, a)
    && Drift(w') == Drift(w)
  }

  lemma DecideBalances(config: EngineConfig, w: World, nowMs: int, snapshot: SpreadSnapshot, a: Answers)
    ensures TickLaw(w, Decide(config, w.engine, nowMs, snapshot, a), a)
  {
    var e := w.engine;
    var (s, action) := HlMaker.OnMarketSnapshot(config.strategy, e.strategy, snapshot, nowMs, e.hlPositionBase);
    var decided := World(e.(strategy := s), w.ledger);
    if action.PlaceHlMaker? {
      PlaceBalances(config, decided, action.order, snapshot, a.laterMs, a);
    } else if action.CancelHlMaker? {
      CancelBalances(config, decided, action.order, snapshot, a.laterMs, a);
    }
  }

  lemma DeferredBalances(config: EngineConfig, w: World, nowMs: int, snapshot: SpreadSnapshot, a: Answers)
    requires Core(w)
    ensures
      var effect := ExecuteDeferred(config, w.engine, nowMs, snapshot, a);
      && TickLaw(w, effect, a)
      && (!effect.logged ==> effect.sent == [] && SameSpeculation(w.engine, effect.engine))
  {
    var e := w.engine;
    if e.deferred.Some? && nowMs >= e.nextRetryMs.value {
      var cleared := World(e.(deferred := None, nextRetryMs := None), w.ledger);
      if e.deferred.value.PlaceHlMaker? {
        PlaceBalances(config, cleared, e.deferred.value.order, snapshot, a.steadyMs, a);
      } else {
        CancelBalances(config, cleared, e.deferred.value.order, snapshot, a.steadyMs, a);
      }
    }
  }

  predicate SameSpeculation(e: Engine, e': Engine) {
    e'.specSent == e.specSent && e'.specSize == e.specSize && e'.lastMakerDirection == e.lastMakerDirection
    && e'.hlPositionBase == e.hlPositionBase
  }

  lemma LawAfterNothing(w: World, d: Engine, effect: Effect, a: Answers)
    requires SameSpeculation(w.engine, d) && TickLaw(World(d, w.ledger), effect, a)
    ensures TickLaw(w, effect, a)
  {
  }

  lemma TickBalances(config: EngineConfig, w: World, event: Event)
    requires Core(w) && event.Tick?
    ensures TickLaw(w, React(config, w.engine, event), event.answers)
  {
    var snapshot, a := CollectSnapshot(event.hl, event.lighter), event.answers;
    DeferredBalances(config, w, event.nowMs, snapshot, a);
    var d := ExecuteDeferred(config, w.engine, event.nowMs, snapshot, a);
    if !d.logged {
      DecideBalances(config, World(d.engine, w.ledger), event.nowMs, snapshot, a);
      LawAfterNothing(w, d.engine, Decide(config, d.engine, event.nowMs, snapshot, a), a);
    }
  }

  lemma ReconcileBalances(config: EngineConfig, w: World, event: Event)
    requires Core(w) && event.Fill? && AcceptsFill(w.engine, event.oid) && Reconciles(w.engine, event.oid)
    ensures Naked(Step(config, w, event)) == Naked(w) + Residual(config, w, event)
    ensures Drift(Step(config, w, event)) == Drift(w)
  {
    var l := RecordFill(w.ledger, event.oid, event.size);
    var effect := Reconcile(w.engine, event.size, event.snapshot, event.oid);
    assert React(config, w.engine, event) == effect;
    if effect.sent != [] {
      RecordOne(l, effect.sent[0], event.answers);
    }
  }

  lemma HedgeBalances(config: EngineConfig, w: World, event: Event)
    requires Core(w) && event.Fill? && AcceptsFill(w.engine, event.oid) && !Reconciles(w.engine, event.oid)
    ensures Naked(Step(config, w, event)) == Naked(w) + Residual(config, w, event)
    ensures Drift(Step(config, w, event)) == Drift(w) + UnwindShortfall(w, event)
  {
    var l := RecordFill(w.ledger, event.oid, event.size);
    var effect := HedgeFill(w.engine, event.size, event.snapshot, event.answers);
    assert React(config, w.engine, event) == effect;
    if |effect.sent| == 1 {
      RecordOne(l, effect.sent[0], event.answers);
    } else {
      RecordTwo(l, effect.sent[0], effect.sent[1], event.answers);
    }
  }

  /** A fill the engine never books: a stranger to it, or one it failed to take back. */
  function UnwindShortfall(w: World, event: Event): real {
    if !event.Fill? || event.oid !in w.ledger.orders then 0.0
    else
      var size, a := Signed(w.ledger.orders[event.oid].direction, event.size), event.answers;
      if !AcceptsFill(w.engine, event.oid) then -size
      else if Reconciles(w.engine, event.oid) || (a.iocOk && a.iocConfirmed) || a.reduceOk then 0.0
      else -size
  }

  lemma TradeBalances(config: EngineConfig, w: World, event: Event)
    requires event.Trade?
    ensures Naked(Step(config, w, event)) == Naked(w) + Residual(config, w, event) + Leaked(config, w, event)
    ensures Drift(Step(config, w, event)) == Drift(w)
  {
    var effect := React(config, w.engine, event);
    if effect.sent != [] {
      RecordOne(w.ledger, effect.sent[0], event.answers);
    }
  }

  /** Conservation, event by event and with no assumption on deferral: naked exposure moves by exactly
      the residual and the leak, and the engine's position departs from the true one only by fills it
      did not book. */
  lemma ExposureIsConserved(config: EngineConfig, w: World, event: Event)
    requires Sound(w)
    ensures Naked(Step(config, w, event)) == Naked(w) + Residual(config, w, event) + Leaked(config, w, event)
    ensures Drift(Step(config, w, event)) == Drift(w) + UnwindShortfall(w, event)
  {
    match event
    case Tick(_, _, _, _) => TickBalances(config, w, event);
    case Fill(oid, size, _, a) =>
      if !AcceptsFill(w.engine, oid) {
        RecordNone(RecordFill(w.ledger, oid, size), a);
      } else if Reconciles(w.engine, oid) {
        ReconcileBalances(config, w, event);
      } else {
        HedgeBalances(config, w, event);
      }
    case Trade(_, _, _, _) => TradeBalances(config, w, event);
    case _ =>
  }

  /** While the lifecycle holds, nothing leaks: no order is placed over an outstanding hedge, and a
      trade hedges the side of the active order. */
  lemma LifecycleLeaksNothing(config: EngineConfig, w: World, event: Event)
    requires Lifecycle(w)
    ensures Leaked(config, w, event) == 0.0
  {
    if event.Tick? && HlSpeculation.Places(React(config, w.engine, event).sent) {
      HlSpeculation.PlacementFindsNothingOutstanding(config, w, event);
    }
  }

  // ---------- Whole runs ----------

  function TotalMoved(config: EngineConfig, w: World, events: seq<Event>): real {
    if events == [] then 0.0
    else
      var front, last := events[..|events| - 1], events[|events| - 1];
      var before := Run(config, w, front);
      TotalMoved(config, w, front) + (Residual(config, before, last) + Leaked(config, before, last))
  }

  /** The law of every run, late fills included. */
  lemma {:induction false} RunExposure(config: EngineConfig, w: World, events: seq<Event>)
    requires Sound(w)
    ensures Naked(Run(config, w, events)) == Naked(w) + TotalMoved(config, w, events)
  {
    if events != [] {
      var front := events[..|events| - 1];
      RunExposure(config, w, front);
      RunKeepsSound(config, w, front);
      ExposureIsConserved(config, Run(config, w, front), events[|events| - 1]);
    }
  }

  function TotalResidual(config: EngineConfig, w: World, events: seq<Event>): real {
    if events == [] then 0.0
    else
      var front := events[..|events| - 1];
      TotalResidual(config, w, front) + Residual(config, Run(config, w, front), events[|events| - 1])
  }

  /** Without a late fill only the residuals remain. */
  lemma {:induction false} TimelyRunLeaksNothing(config: EngineConfig, w: World, events: seq<Event>)
    requires Lifecycle(w) && Timely(config, w, events)
    ensures TotalMoved(config, w, events) == TotalResidual(config, w, events)
  {
    if events != [] {
      var front := events[..|events| - 1];
      TimelyPrefix(config, w, events);
      TimelyRunLeaksNothing(config, w, front);
      RunKeepsLifecycle(config, w, front);
      LifecycleLeaksNothing(config, Run(config, w, front), events[|events| - 1]);
    }
  }

  /** Order sizes are never negative when the configured pair size is not. */
  ghost predicate Sized(e: Engine) {
    && (e.strategy.pending.Some? ==> e.strategy.pending.value.sizeBase >= 0.0)
    && (DefersPlacement(e) ==> e.deferred.value.order.sizeBase >= 0.0)
    && (e.specSent ==> e.specSize >= 0.0)
  }

  lemma PairSizeNonNegative(config: HedgerConfig, snapshot: SpreadSnapshot)
    requires config.pairSizeUsd >= 0.0
    ensures PairSize(config, snapshot) >= 0.0
  {
  }

  lemma ActionKeepsSized(config: EngineConfig, e: Engine, action: Action, snapshot: SpreadSnapshot, nowMs: int, a: Answers)
    requires Sized(e)
    requires action.PlaceHlMaker? ==> action.order.sizeBase >= 0.0
    requires action.PlaceHlMaker? || action.CancelHlMaker? || action.NoAction?
    ensures Sized(ExecuteAction(config, e, action, snapshot, nowMs, a).engine)
  {
  }

  lemma DecideKeepsSized(config: EngineConfig, e: Engine, nowMs: int, snapshot: SpreadSnapshot, a: Answers)
    requires Sized(e) && config.strategy.pairSizeUsd >= 0.0
    ensures Sized(Decide(config, e, nowMs, snapshot, a).engine)
  {
    PairSizeNonNegative(config.strategy, snapshot);
    var (s, action) := HlMaker.OnMarketSnapshot(config.strategy, e.strategy, snapshot, nowMs, e.hlPositionBase);
    ActionKeepsSized(config, e.(strategy := s), action, snapshot, a.laterMs, a);
  }

  lemma DeferredKeepsSized(config: EngineConfig, e: Engine, nowMs: int, snapshot: SpreadSnapshot, a: Answers)
    requires Sized(e) && (e.deferred.Some? ==> e.deferred.value.PlaceHlMaker? || e.deferred.value.CancelHlMaker?)
    ensures Sized(ExecuteDeferred(config, e, nowMs, snapshot, a).engine)
  {
    if e.deferred.Some? {
      ActionKeepsSized(config, e.(deferred := None, nextRetryMs := None), e.deferred.value, snapshot, a.steadyMs, a);
    }
  }

  lemma StepKeepsSized(config: EngineConfig, w: World, event: Event)
    requires Sound(w) && Sized(w.engine) && config.strategy.pairSizeUsd >= 0.0
    ensures Sized(Step(config, w, event).engine)
  {
    if event.Tick? {
      var snapshot := CollectSnapshot(event.hl, event.lighter);
      DeferredKeepsSized(config, w.engine, event.nowMs, snapshot, event.answers);
      var d := ExecuteDeferred(config, w.engine, event.nowMs, snapshot, event.answers);
      DecideKeepsSized(config, d.engine, event.nowMs, snapshot, event.answers);
    }
  }

  /** The exchanges served the event: known fills of accepted orders only, and every correction,
      unwind or hedge-or-unwind pair went through. */
  ghost predicate Served(w: World, event: Event) {
    var a := event.answers;
    match event
    case Fill(oid, size, _, _) =>
      && size >= 0.0
      && (oid in w.ledger.orders ==> AcceptsFill(w.engine, oid))
      && ((a.iocOk && a.iocConfirmed) || (!w.engine.specSent && a.reduceOk))
    case Tick(_, _, _, _) => w.engine.specSent ==> a.iocOk && a.iocConfirmed
    case _ => true
  }

  /** A reconciliation within the tolerance, its closed end included. */
  predicate NearMatch(w: World, event: Event) {
    && event.Fill?
    && AcceptsFill(w.engine, event.oid)
    && Reconciles(w.engine, event.oid)
    && Abs(event.size - w.engine.specSize) <= MATCH_TOLERANCE
  }

  lemma ServedResidual(config: EngineConfig, w: World, event: Event)
    requires Lifecycle(w) && Sized(w.engine) && Served(w, event)
    ensures Abs(Residual(config, w, event)) <= MATCH_TOLERANCE
    ensures !NearMatch(w, event) ==> Residual(config, w, event) == 0.0
    ensures UnwindShortfall(w, event) == 0.0
  {
  }

  function NearMatches(config: EngineConfig, w: World, events: seq<Event>): nat {
    if events == [] then 0
    else
      var front := events[..|events| - 1];
      NearMatches(config, w, front) + (if NearMatch(Run(config, w, front), events[|events| - 1]) then 1 else 0)
  }

  ghost predicate AllServed(config: EngineConfig, w: World, events: seq<Event>) {
    forall i :: 0 <= i < |events| ==> Served(Run(config, w, events[..i]), events[i])
  }

  lemma AllServedPrefix(config: EngineConfig, w: World, events: seq<Event>)
    requires events != [] && AllServed(config, w, events)
    ensures AllServed(config, w, events[..|events| - 1])
    ensures Served(Run(config, w, events[..|events| - 1]), events[|events| - 1])
  {
    var front := events[..|events| - 1];
    forall i | 0 <= i < |front|
      ensures Served(Run(config, w, front[..i]), front[i])
    {
      assert front[..i] == events[..i] && front[i] == events[i];
    }
  }

  lemma {:induction false} RunKeepsSized(config: EngineConfig, w: World, events: seq<Event>)
    requires Sound(w) && Sized(w.engine) && config.strategy.pairSizeUsd >= 0.0
    ensures Sized(Run(config, w, events).engine)
  {
    if events != [] {
      var front := events[..|events| - 1];
      RunKeepsSized(config, w, front);
      RunKeepsSound(config, w, front);
      StepKeepsSized(config, Run(config, w, front), events[|events| - 1]);
    }
  }

  /** In particular, over any served run without a late fill, where no fill of a known order is
      forgotten and every correction and unwind goes through, a flat book stays flat up to the
      tolerance of each near match. */
  lemma {:induction false} RunStaysNeutral(config: EngineConfig, w: World, events: seq<Event>)
    requires Lifecycle(w) && Sized(w.engine) && Naked(w) == 0.0 && config.strategy.pairSizeUsd >= 0.0
    requires Timely(config, w, events) && AllServed(config, w, events)
    ensures Abs(Naked(Run(config, w, events))) <= MATCH_TOLERANCE * NearMatches(config, w, events) as real
    ensures Drift(Run(config, w, events)) == Drift(w)
  {
    if events != [] {
      var front := events[..|events| - 1];
      var last := events[|events| - 1];
      var before := Run(config, w, front);
      TimelyPrefix(config, w, events);
      AllServedPrefix(config, w, events);
      RunStaysNeutral(config, w, front);
      RunKeepsLifecycle(config, w, front);
      RunKeepsSized(config, w, front);
      ExposureIsConserved(config, before, last);
      LifecycleLeaksNothing(config, before, last);
      ServedResidual(config, before, last);
    }
  }

  // ---------- Whole runs, whatever the exchanges do ----------

  /** The position that the engine keeps, the true Lighter position, and the speculative hedge that
      still waits for its fill. */
  function Booked(w: World): real {
    w.engine.hlPositionBase + w.ledger.lighterNet + Awaited(w.engine)
  }

  /** The size of a correction or of a cancel's unwind that the exchange did not confirm. */
  function FailedSize(config: EngineConfig, w: World, event: Event): real {
    var e := w.engine;
    match event
    case Fill(oid, size, _, a) =>
      if AcceptsFill(e, oid) && Reconciles(e, oid) && !(a.iocOk && a.iocConfirmed) && Abs(size - e.specSize) > MATCH_TOLERANCE
      then Abs(size - e.specSize) else 0.0
    case Tick(_, _, _, a) =>
      var effect := React(config, e, event);
      if e.specSent && !effect.engine.specSent && !Acknowledged(effect.sent, a) && !(a.iocOk && a.iocConfirmed)
      then Abs(e.specSize) else 0.0
    case _ => 0.0
  }

  /** A run with its errors added up: how many near matches, the sizes that failed and that leaked,
      and the signed sizes of the fills that were not booked, negated. */
  datatype Tally = Tally(world: World, near: nat, failed: real, leaked: real, unbooked: real)

  function AddEvent(config: EngineConfig, t: Tally, event: Event): Tally {
    Tally(
      Step(config, t.world, event),
      t.near + (if NearMatch(t.world, event) then 1 else 0),
      t.failed + FailedSize(config, t.world, event),
      t.leaked + Abs(Leaked(config, t.world, event)),
      t.unbooked + UnwindShortfall(t.world, event))
  }

  function RunTally(config: EngineConfig, w: World, events: seq<Event>): Tally {
    if events == [] then Tally(w, 0, 0.0, 0.0, 0.0)
    else AddEvent(config, RunTally(config, w, events[..|events| - 1]), events[|events| - 1])
  }

  /** The tally is of the run itself. */
  lemma {:induction false} TallyFollowsRun(config: EngineConfig, w: World, events: seq<Event>)
    ensures RunTally(config, w, events).world == Run(config, w, events)
  {
    if events != [] {
      TallyFollowsRun(config, w, events[..|events| - 1]);
    }
  }

  /** Without a late fill nothing leaks. */
  lemma {:induction false} TimelyTallyLeaksNothing(config: EngineConfig, w: World, events: seq<Event>)
    requires Lifecycle(w) && Timely(config, w, events)
    ensures RunTally(config, w, events).leaked == 0.0
  {
    if events != [] {
      var front, last := events[..|events| - 1], events[|events| - 1];
      TimelyPrefix(config, w, events);
      TimelyTallyLeaksNothing(config, w, front);
      RunKeepsLifecycle(config, w, front);
      TallyFollowsRun(config, w, front);
      LifecycleLeaksNothing(config, RunTally(config, w, front).world, last);
    }
  }

  predicate FillsArePositive(events: seq<Event>) {
    forall i :: 0 <= i < |events| && events[i].Fill? ==> events[i].size >= 0.0
  }

  lemma StepKeepsBooked(config: EngineConfig, w: World, event: Event)
    requires Sound(w) && Sized(w.engine) && (event.Fill? ==> event.size >= 0.0)
    ensures Abs(Booked(Step(config, w, event)) - Booked(w))
            <= (if NearMatch(w, event) then MATCH_TOLERANCE else 0.0)
               + (FailedSize(config, w, event) + Abs(Leaked(config, w, event)))
    ensures Drift(Step(config, w, event)) == Drift(w) + UnwindShortfall(w, event)
  {
    ExposureIsConserved(config, w, event);
    var x := Step(config, w, event);
    assert Booked(w) == Naked(w) + Drift(w) && Booked(x) == Naked(x) + Drift(x);
    ResidualAndShortfall(config, w, event);
  }

  lemma ResidualAndShortfall(config: EngineConfig, w: World, event: Event)
    requires Sound(w) && Sized(w.engine) && (event.Fill? ==> event.size >= 0.0)
    ensures Abs(Residual(config, w, event) + UnwindShortfall(w, event))
            <= (if NearMatch(w, event) then MATCH_TOLERANCE else 0.0) + FailedSize(config, w, event)
  {
  }

  /** The errors that the booked balance may show. */
  function Error(t: Tally): real {
    MATCH_TOLERANCE * t.near as real + (t.failed + t.leaked)
  }

  /** The two laws of a run that started with `booked` and `drift`. */
  predicate Balanced(t: Tally, booked: real, drift: real) {
    Abs(Booked(t.world) - booked) <= Error(t) && Drift(t.world) == drift + t.unbooked
  }

  lemma EventKeepsBalance(config: EngineConfig, t: Tally, event: Event, booked: real, drift: real)
    requires Sound(t.world) && Sized(t.world.engine) && (event.Fill? ==> event.size >= 0.0)
    requires Balanced(t, booked, drift)
    ensures Balanced(AddEvent(config, t, event), booked, drift)
  {
    StepKeepsBooked(config, t.world, event);
    AddBounds(booked, Booked(t.world), Booked(Step(config, t.world, event)), t.near, NearMatch(t.world, event),
              t.failed + t.leaked, FailedSize(config, t.world, event) + Abs(Leaked(config, t.world, event)));
  }

  lemma AddBounds(x: real, y: real, z: real, n: nat, near: bool, total: real, failed: real)
    requires Abs(y - x) <= MATCH_TOLERANCE * n as real + total
    requires Abs(z - y) <= (if near then MATCH_TOLERANCE else 0.0) + failed
    ensures Abs(z - x) <= MATCH_TOLERANCE * (n + (if near then 1 else 0)) as real + (total + failed)
  {
  }

  /** Over every run, however many fills are late or dropped and whatever fails, the booked position
      and the Lighter position cancel up to the tolerance of each near match and the sizes that failed
      or leaked; and the booked position is off the true one by exactly the fills that were not booked. */
  lemma {:induction false} RunKeepsBalance(config: EngineConfig, w: World, events: seq<Event>)
    requires Sound(w) && Sized(w.engine) && config.strategy.pairSizeUsd >= 0.0 && FillsArePositive(events)
    ensures Balanced(RunTally(config, w, events), Booked(w), Drift(w))
  {
    if events != [] {
      var front, last := events[..|events| - 1], events[|events| - 1];
      RunKeepsBalance(config, w, front);
      RunKeepsSound(config, w, front);
      RunKeepsSized(config, w, front);
      TallyFollowsRun(config, w, front);
      EventKeepsBalance(config, RunTally(config, w, front), last, Booked(w), Drift(w));
    }
  }

  /** A start that owes nothing, such as a fresh engine. */
  ghost predicate Flat(w: World) {
    Lifecycle(w) && Sized(w.engine) && Booked(w) == 0.0 && Drift(w) == 0.0
  }

  lemma FreshIsFlat()
    ensures Flat(FRESH_WORLD)
  {
    FreshIsLifecycle();
  }

  lemma SettleFlat(t: Tally)
    requires Balanced(t, 0.0, 0.0)
    ensures Abs(Booked(t.world)) <= Error(t)
    ensures Abs(Naked(t.world) + t.unbooked) <= Error(t)
  {
    assert Booked(t.world) == Naked(t.world) + Drift(t.world);
  }

  /** From a flat start and over every run: the position that the engine keeps plus the net Lighter
      position is minus the signed size of an outstanding speculative hedge, else zero, up to those
      errors; and the true exposure is, up to the same errors, exactly what was not booked. */
  lemma EveryRunIsHedged(config: EngineConfig, w: World, events: seq<Event>, t: Tally)
    requires t == RunTally(config, w, events) && Flat(w) && config.strategy.pairSizeUsd >= 0.0
    requires FillsArePositive(events)
    ensures Abs(t.world.engine.hlPositionBase + t.world.ledger.lighterNet + Awaited(t.world.engine))
            <= MATCH_TOLERANCE * t.near as real + t.failed + t.leaked
    ensures Abs(Naked(t.world) + t.unbooked) <= MATCH_TOLERANCE * t.near as real + t.failed + t.leaked
  {
    RunKeepsBalance(config, w, events);
    SettleFlat(t);
  }

  /** Without a late fill nothing leaks. */
  lemma BookedPositionIsHedged(config: EngineConfig, w: World, events: seq<Event>, t: Tally)
    requires t == RunTally(config, w, events) && Flat(w) && config.strategy.pairSizeUsd >= 0.0
    requires Timely(config, w, events) && FillsArePositive(events)
    ensures Abs(t.world.engine.hlPositionBase + t.world.ledger.lighterNet + Awaited(t.world.engine))
            <= MATCH_TOLERANCE * t.near as real + t.failed
  {
    EveryRunIsHedged(config, w, events, t);
    TimelyTallyLeaksNothing(config, w, events);
  }

  /** Nor does the true exposure then owe more than what was not booked. */
  lemma ExposureIsWhatWasNotBooked(config: EngineConfig, w: World, events: seq<Event>, t: Tally)
    requires t == RunTally(config, w, events) && Flat(w) && config.strategy.pairSizeUsd >= 0.0
    requires Timely(config, w, events) && FillsArePositive(events)
    ensures Abs(Naked(t.world) + t.unbooked) <= MATCH_TOLERANCE * t.near as real + t.failed
  {
    EveryRunIsHedged(config, w, events, t);
    TimelyTallyLeaksNothing(config, w, events);
  }

  /** The same from a fresh engine, in whole runs of it. */
  lemma FreshEngineIsHedged(config: EngineConfig, events: seq<Event>, t: Tally)
    requires t == RunTally(config, FRESH_WORLD, events) && config.strategy.pairSizeUsd >= 0.0
    requires FillsArePositive(events)
    ensures t.world == Run(config, FRESH_WORLD, events)
    ensures Abs(t.world.engine.hlPositionBase + t.world.ledger.lighterNet + Awaited(t.world.engine))
            <= MATCH_TOLERANCE * t.near as real + t.failed + t.leaked
  {
    FreshIsFlat();
    EveryRunIsHedged(config, FRESH_WORLD, events, t);
    TallyFollowsRun(config, FRESH_WORLD, events);
  }
}
