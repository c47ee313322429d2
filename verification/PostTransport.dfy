/** The request/response correlation of the post transport: callers, message handlers and
    disconnect handlers, any number of each, interleaved step by step. A section that holds one lock
    only is one step; a lock held while another is waited for is part of the state. */
module PostTransport {
  import opened Types

  /** Who wrote a slot. */
  datatype Origin = Nobody | Message | Disconnect

  /** A pending response; `owner` is the caller that holds its mutex. */
  datatype Slot = Slot(ready: bool, body: string, origin: Origin, writes: nat, owner: Option<nat>)

  const FRESH_SLOT := Slot(false, "", Nobody, 0, None)

  datatype Caller =
    | Away
    | HasId(id: nat)
    | Inserted(id: nat)
    | Waiting(id: nat)
    | GotReply(id: nat)
    | TimedOut(id: nat)

  datatype Receiver = Quiet | Parsed(id: nat, body: string) | Delivering(id: nat, body: string)

  datatype Breaker = Calm | Breaking(todo: set<nat>, error: string)

  datatype Outcome = Timeout | Answer(body: string)

  /** heard and errors are what an observer writes down: the replies that arrived and the disconnect
      errors that were raised. */
  datatype World = World(
    nextId: nat,
    mapOwner: Option<nat>,
    pending: set<nat>,
    slots: map<nat, Slot>,
    callers: map<nat, Caller>,
    receivers: map<nat, Receiver>,
    breakers: map<nat, Breaker>,
    results: map<nat, Outcome>,
    heard: set<(nat, string)>,
    errors: set<string>)

  datatype Step =
    | Begin(t: nat)
    | Insert(t: nat)
    | Send(t: nat)
    | Wake(t: nat)
    | Finish(t: nat)
    | GiveUp(t: nat)
    | Arrive(h: nat, id: nat, body: string)
    | Take(h: nat)
    | Deliver(h: nat)
    | Break(h: nat, error: string)
    | Drop(h: nat, id: nat)
    | Clear(h: nat)

  predicate Initial(w: World) {
    && w.nextId == 1 && w.mapOwner == None && w.pending == {} && w.slots == map[] && w.results == map[] && w.heard == {} && w.errors == {}
    && (forall t :: t in w.callers ==> w.callers[t] == Away)
    && (forall h :: h in w.receivers ==> w.receivers[h] == Quiet)
    && (forall h :: h in w.breakers ==> w.breakers[h] == Calm)
  }

  predicate SlotFree(w: World, id: nat) {
    id in w.slots && w.slots[id].owner == None
  }

  predicate Enabled(w: World, s: Step) {
    match s
    case Begin(t) => t in w.callers && w.callers[t].Away?
    case Insert(t) => t in w.callers && w.callers[t].HasId? && w.mapOwner == None
    case Send(t) => t in w.callers && w.callers[t].Inserted?
    case Wake(t) => t in w.callers && w.callers[t].Waiting? && SlotFree(w, w.callers[t].id)
    case Finish(t) => t in w.callers && w.callers[t].GotReply? && w.callers[t].id in w.slots
    case GiveUp(t) => t in w.callers && w.callers[t].TimedOut? && w.callers[t].id in w.slots && w.mapOwner == None
    case Arrive(h, _, _) => h in w.receivers && w.receivers[h].Quiet?
    case Take(h) => h in w.receivers && w.receivers[h].Parsed? && w.mapOwner == None
    case Deliver(h) => h in w.receivers && w.receivers[h].Delivering? && SlotFree(w, w.receivers[h].id)
    case Break(h, _) => h in w.breakers && w.breakers[h].Calm? && w.mapOwner == None
    case Drop(h, id) => h in w.breakers && w.breakers[h].Breaking? && id in w.breakers[h].todo && SlotFree(w, id)
    case Clear(h) => h in w.breakers && w.breakers[h].Breaking? && w.breakers[h].todo == {}
  }

  function Written(s: Slot, body: string, origin: Origin): Slot {
    s.(ready := true, body := body, origin := origin, writes := s.writes + 1)
  }

  function Next(w: World, s: Step): World
    requires Enabled(w, s)
  {
    match s
    case Begin(t) =>
      w.(nextId := w.nextId + 1, slots := w.slots[w.nextId := FRESH_SLOT], callers := w.callers[t := HasId(w.nextId)])
    case Insert(t) =>
      var id := w.callers[t].id;
      w.(pending := w.pending + {id}, callers := w.callers[t := Inserted(id)])
    case Send(t) => w.(callers := w.callers[t := Waiting(w.callers[t].id)])
    case Wake(t) =>
      var id := w.callers[t].id;
      w.(slots := w.slots[id := w.slots[id].(owner := Some(t))],
      callers := w.callers[t := if w.slots[id].ready then GotReply(id) else TimedOut(id)])
    case Finish(t) =>
      var id := w.callers[t].id;
      w.(slots := w.slots[id := w.slots[id].(owner := None)],
      callers := w.callers[t := Away],
      results := w.results[id := Answer(w.slots[id].body)])
    case GiveUp(t) =>
      var id := w.callers[t].id;
      w.(slots := w.slots[id := w.slots[id].(owner := None)],
      pending := w.pending - {id},
      callers := w.callers[t := Away],
      results := w.results[id := Timeout])
    case Arrive(h, id, body) =>
      w.(receivers := w.receivers[h := Parsed(id, body)], heard := w.heard + {(id, body)})
    case Take(h) =>
      var r := w.receivers[h];
      if r.id in w.pending then
        w.(pending := w.pending - {r.id}, receivers := w.receivers[h := Delivering(r.id, r.body)])
      else w.(receivers := w.receivers[h := Quiet])
    case Deliver(h) =>
      var r := w.receivers[h];
      w.(slots := w.slots[r.id := Written(w.slots[r.id], r.body, Message)],
      receivers := w.receivers[h := Quiet])
    case Break(h, error) =>
      w.(mapOwner := Some(h), breakers := w.breakers[h := Breaking(w.pending, error)], errors := w.errors + {error})
    case Drop(h, id) =>
      var b := w.breakers[h];
      w.(slots := w.slots[id := Written(w.slots[id], b.error, Disconnect)],
      breakers := w.breakers[h := Breaking(b.todo - {id}, b.error)])
    case Clear(h) =>
      w.(mapOwner := None, pending := {}, breakers := w.breakers[h := Calm])
  }

  predicate IsRun(w: World, steps: seq<Step>)
    decreases |steps|
  {
    steps == [] || (Enabled(w, steps[0]) && IsRun(Next(w, steps[0]), steps[1..]))
  }

  function Run(w: World, steps: seq<Step>): World
    requires IsRun(w, steps)
    decreases |steps|
  {
    if steps == [] then w else Run(Next(w, steps[0]), steps[1..])
  }

  // ---------- Invariant ----------

  ghost predicate Ids(w: World) {
    && (forall id :: id in w.slots ==> id < w.nextId)
    && w.pending <= w.slots.Keys
    && (forall id :: id in w.results ==> id in w.slots)
    && (forall t :: t in w.callers && !w.callers[t].Away? ==> w.callers[t].id in w.slots && w.callers[t].id !in w.results)
    && (forall t, u :: t in w.callers && u in w.callers && t != u && !w.callers[t].Away? && !w.callers[u].Away?
          ==> w.callers[t].id != w.callers[u].id)
  }

  /** A call that has not inserted its slot yet is unknown to all handlers. */
  ghost predicate Unknown(w: World) {
    forall t :: t in w.callers && w.callers[t].HasId? ==>
      var id := w.callers[t].id;
      id in w.slots && id !in w.pending && w.slots[id].writes == 0
      && forall h :: h in w.receivers && w.receivers[h].Delivering? ==> w.receivers[h].id != id
  }

  ghost predicate Awake(c: Caller) {
    c.GotReply? || c.TimedOut?
  }

  /** A slot is locked by exactly the caller that woke up on it. */
  ghost predicate Locks(w: World) {
    && (forall id :: id in w.slots && w.slots[id].owner.Some? ==>
          var t := w.slots[id].owner.value; t in w.callers && Awake(w.callers[t]) && w.callers[t].id == id)
    && (forall t :: t in w.callers && Awake(w.callers[t]) ==>
          var id := w.callers[t].id;
          id in w.slots && w.slots[id].owner == Some(t) && (w.callers[t].GotReply? ==> w.slots[id].ready))
  }

  /** The bodies that a call may see: a reply bearing its own id, or a disconnect error. */
  ghost predicate Belongs(w: World, id: nat, s: Slot) {
    match s.origin
    case Nobody => !s.ready && s.writes == 0
    case Message => s.ready && s.writes == 1 && (id, s.body) in w.heard
    case Disconnect => s.ready && s.writes == 1 && s.body in w.errors
  }

  ghost predicate Slots(w: World) {
    forall id :: id in w.slots ==> Belongs(w, id, w.slots[id])
  }

  ghost predicate Own(w: World, id: nat, r: Outcome)
    requires id in w.slots
  {
    r == Timeout || (w.slots[id].ready && r == Answer(w.slots[id].body))
  }

  ghost predicate Results(w: World) {
    forall id :: id in w.results ==> id in w.slots && Own(w, id, w.results[id])
  }

  /** A handler that took an entry out of the map is the only one to write its slot. */
  ghost predicate Deliveries(w: World) {
    && (forall h :: h in w.receivers && !w.receivers[h].Quiet? ==> (w.receivers[h].id, w.receivers[h].body) in w.heard)
    && (forall h :: h in w.receivers && w.receivers[h].Delivering? ==>
          w.receivers[h].id in w.slots && w.receivers[h].id !in w.pending && w.slots[w.receivers[h].id].writes == 0)
    && (forall h, k :: h in w.receivers && k in w.receivers && h != k && w.receivers[h].Delivering? && w.receivers[k].Delivering?
          ==> w.receivers[h].id != w.receivers[k].id)
  }

  /** An entry of the map is unwritten, unless a disconnect handler holds the map and is past it. */
  ghost predicate Entries(w: World) {
    && (forall h :: h in w.breakers && w.breakers[h].Breaking? ==> w.mapOwner == Some(h) && w.breakers[h].error in w.errors)
    && (w.mapOwner.Some? ==> w.mapOwner.value in w.breakers && w.breakers[w.mapOwner.value].Breaking?)
    && (w.mapOwner.None? ==> forall id :: id in w.pending ==> id in w.slots && w.slots[id].writes == 0)
    && (w.mapOwner.Some? ==>
          var todo := w.breakers[w.mapOwner.value].todo;
          todo <= w.pending && forall id :: id in w.pending ==> id in w.slots && (w.slots[id].writes == 0 <==> id in todo))
  }

  ghost predicate Serves(c: Caller, id: nat) {
    !c.Away? && c.id == id
  }

  /** Every entry of the map has its call, or is about to be cleared. */
  ghost predicate Served(w: World) {
    w.mapOwner.None? ==> forall id :: id in w.pending ==> exists t :: t in w.callers && Serves(w.callers[t], id)
  }

  ghost predicate Inv(w: World) {
    Ids(w) && Unknown(w) && Locks(w) && Slots(w) && Results(w) && Deliveries(w) && Entries(w)
  }

  lemma InitialKeeps(w: World)
    requires Initial(w)
    ensures Inv(w) && Served(w)
  {
  }

  predicate ByCaller(s: Step) {
    s.Begin? || s.Insert? || s.Send? || s.Wake? || s.Finish? || s.GiveUp?
  }

  lemma IdsKeptByCaller(w: World, s: Step)
    requires ByCaller(s) && Ids(w) && Enabled(w, s)
    ensures Ids(Next(w, s))
  {
  }

  lemma IdsKeptByHandler(w: World, s: Step)
    requires !ByCaller(s) && Ids(w) && Enabled(w, s)
    ensures Ids(Next(w, s))
  {
  }

  lemma UnknownKeptByCaller(w: World, s: Step)
    requires ByCaller(s) && Ids(w) && Unknown(w) && Deliveries(w) && Enabled(w, s)
    ensures Unknown(Next(w, s))
  {
  }

  lemma UnknownKeptByHandler(w: World, s: Step)
    requires !ByCaller(s) && Ids(w) && Unknown(w) && Entries(w) && Enabled(w, s)
    ensures Unknown(Next(w, s))
  {
  }

  lemma LocksKeptByCaller(w: World, s: Step)
    requires ByCaller(s) && Ids(w) && Locks(w) && Enabled(w, s)
    ensures Locks(Next(w, s))
  {
  }

  lemma LocksKeptByHandler(w: World, s: Step)
    requires !ByCaller(s) && Ids(w) && Locks(w) && Enabled(w, s)
    ensures Locks(Next(w, s))
  {
  }

  lemma SlotsKeptByCaller(w: World, s: Step)
    requires ByCaller(s) && Slots(w) && Deliveries(w) && Entries(w) && Enabled(w, s)
    ensures Slots(Next(w, s))
  {
  }

  lemma SlotsKeptByHandler(w: World, s: Step)
    requires !ByCaller(s) && Slots(w) && Deliveries(w) && Entries(w) && Enabled(w, s)
    ensures Slots(Next(w, s))
  {
  }

  lemma ResultsKeptByCaller(w: World, s: Step)
    requires ByCaller(s) && Ids(w) && Slots(w) && Locks(w) && Results(w) && Deliveries(w) && Entries(w) && Enabled(w, s)
    ensures Results(Next(w, s))
  {
  }

  lemma ResultsKeptByHandler(w: World, s: Step)
    requires !ByCaller(s) && Ids(w) && Slots(w) && Locks(w) && Results(w) && Deliveries(w) && Entries(w) && Enabled(w, s)
    ensures Results(Next(w, s))
  {
  }

  lemma DeliveriesKeptByCaller(w: World, s: Step)
    requires ByCaller(s) && Ids(w) && Unknown(w) && Deliveries(w) && Entries(w) && Enabled(w, s)
    ensures Deliveries(Next(w, s))
  {
  }

  lemma DeliveriesKeptByArrival(w: World, s: Step)
    requires s.Arrive? && Deliveries(w) && Enabled(w, s)
    ensures Deliveries(Next(w, s))
  {
  }

  lemma DeliveriesKeptByTaking(w: World, s: Step)
    requires s.Take? && Deliveries(w) && Entries(w) && Enabled(w, s)
    ensures Deliveries(Next(w, s))
  {
  }

  lemma DeliveriesKeptByDelivery(w: World, s: Step)
    requires s.Deliver? && Deliveries(w) && Enabled(w, s)
    ensures Deliveries(Next(w, s))
  {
  }

  lemma DeliveriesKeptByBreaker(w: World, s: Step)
    requires (s.Break? || s.Drop? || s.Clear?) && Deliveries(w) && Entries(w) && Enabled(w, s)
    ensures Deliveries(Next(w, s))
  {
  }

  lemma DeliveriesKeptByHandler(w: World, s: Step)
    requires !ByCaller(s) && Ids(w) && Deliveries(w) && Entries(w) && Enabled(w, s)
    ensures Deliveries(Next(w, s))
  {
    if s.Arrive? {
      DeliveriesKeptByArrival(w, s);
    } else if s.Take? {
      DeliveriesKeptByTaking(w, s);
    } else if s.Deliver? {
      DeliveriesKeptByDelivery(w, s);
    } else {
      DeliveriesKeptByBreaker(w, s);
    }
  }

  lemma EntriesKeptByCaller(w: World, s: Step)
    requires ByCaller(s) && Ids(w) && Unknown(w) && Slots(w) && Deliveries(w) && Entries(w) && Enabled(w, s)
    ensures Entries(Next(w, s))
  {
  }

  lemma EntriesKeptByHandler(w: World, s: Step)
    requires !ByCaller(s) && Ids(w) && Unknown(w) && Slots(w) && Deliveries(w) && Entries(w) && Enabled(w, s)
    ensures Entries(Next(w, s))
  {
  }

  lemma StepKeepsInv(w: World, s: Step)
    requires Inv(w) && Enabled(w, s)
    ensures Inv(Next(w, s))
  {
    if ByCaller(s) {
      IdsKeptByCaller(w, s);
      UnknownKeptByCaller(w, s);
      LocksKeptByCaller(w, s);
      SlotsKeptByCaller(w, s);
      ResultsKeptByCaller(w, s);
      DeliveriesKeptByCaller(w, s);
      EntriesKeptByCaller(w, s);
    } else {
      IdsKeptByHandler(w, s);
      UnknownKeptByHandler(w, s);
      LocksKeptByHandler(w, s);
      SlotsKeptByHandler(w, s);
      ResultsKeptByHandler(w, s);
      DeliveriesKeptByHandler(w, s);
      EntriesKeptByHandler(w, s);
    }
  }

  lemma ServedKeptByCaller(w: World, s: Step)
    requires ByCaller(s) && Ids(w) && Slots(w) && Locks(w) && Entries(w) && Served(w) && Enabled(w, s)
    ensures Served(Next(w, s))
  {
    var x := Next(w, s);
    if x.mapOwner.None? {
      forall id | id in x.pending ensures exists t :: t in x.callers && Serves(x.callers[t], id) {
        if id in w.pending {
          var t :| t in w.callers && Serves(w.callers[t], id);
          assert t in x.callers && Serves(x.callers[t], id);
        } else {
          assert Serves(x.callers[s.t], id);
        }
      }
    }
  }

  lemma ServedKeptByHandler(w: World, s: Step)
    requires !ByCaller(s) && Served(w) && Enabled(w, s)
    ensures Served(Next(w, s))
  {
    var x := Next(w, s);
    if x.mapOwner.None? {
      forall id | id in x.pending ensures exists t :: t in x.callers && Serves(x.callers[t], id) {
        var t :| t in w.callers && Serves(w.callers[t], id);
        assert Serves(x.callers[t], id);
      }
    }
  }

  // ---------- Whole runs ----------

  lemma {:induction false} RunKeepsInv(w: World, steps: seq<Step>)
    requires Inv(w) && Served(w) && IsRun(w, steps)
    ensures Inv(Run(w, steps)) && Served(Run(w, steps))
    decreases |steps|
  {
    if steps != [] {
      var s := steps[0];
      StepKeepsInv(w, s);
      if ByCaller(s) {
        ServedKeptByCaller(w, s);
      } else {
        ServedKeptByHandler(w, s);
      }
      RunKeepsInv(Next(w, s), steps[1..]);
    }
  }

  /** A slot that is still in the map has not been written, except by the disconnect handler that
      holds the map; every slot is written at most once. */
  lemma PendingIsUnwritten(w: World, steps: seq<Step>, id: nat)
    requires Initial(w) && IsRun(w, steps) && id in Run(w, steps).slots
    ensures var x := Run(w, steps);
            && x.slots[id].writes <= 1
            && (id in x.pending && x.slots[id].writes > 0 ==>
                  x.mapOwner.Some? && x.slots[id].origin == Disconnect)
  {
    InitialKeeps(w);
    RunKeepsInv(w, steps);
    PendingOrigins(w, steps);
  }

  /** Entries of the map were never written by a reply. */
  ghost predicate NoReplyPending(w: World) {
    forall id :: id in w.pending && id in w.slots ==> w.slots[id].origin != Message
  }

  lemma NoReplyPendingKept(w: World, s: Step)
    requires Inv(w) && NoReplyPending(w) && Enabled(w, s)
    ensures NoReplyPending(Next(w, s))
  {
  }

  lemma {:induction false} PendingOrigins(w: World, steps: seq<Step>)
    requires Inv(w) && NoReplyPending(w) && IsRun(w, steps)
    ensures NoReplyPending(Run(w, steps))
    decreases |steps|
  {
    if steps != [] {
      StepKeepsInv(w, steps[0]);
      NoReplyPendingKept(w, steps[0]);
      PendingOrigins(Next(w, steps[0]), steps[1..]);
    }
  }

  /** What was heard arrived in the run. */
  lemma {:induction false} HeardArrived(w: World, steps: seq<Step>, id: nat, body: string)
    requires IsRun(w, steps) && (id, body) in Run(w, steps).heard && (id, body) !in w.heard
    ensures exists i :: 0 <= i < |steps| && steps[i].Arrive? && steps[i].id == id && steps[i].body == body
    decreases |steps|
  {
    if (id, body) in Next(w, steps[0]).heard {
      assert steps[0].Arrive?;
    } else {
      HeardArrived(Next(w, steps[0]), steps[1..], id, body);
      var i :| 0 <= i < |steps| - 1 && steps[1..][i].Arrive? && steps[1..][i].id == id && steps[1..][i].body == body;
      assert steps[i + 1] == steps[1..][i];
    }
  }

  lemma {:induction false} ErrorWasRaised(w: World, steps: seq<Step>, error: string)
    requires IsRun(w, steps) && error in Run(w, steps).errors && error !in w.errors
    ensures exists i :: 0 <= i < |steps| && steps[i].Break? && steps[i].error == error
    decreases |steps|
  {
    if error in Next(w, steps[0]).errors {
      assert steps[0].Break?;
    } else {
      ErrorWasRaised(Next(w, steps[0]), steps[1..], error);
      var i :| 0 <= i < |steps| - 1 && steps[1..][i].Break? && steps[1..][i].error == error;
      assert steps[i + 1] == steps[1..][i];
    }
  }

  ghost predicate Arrived(steps: seq<Step>, id: nat, body: string) {
    exists i :: 0 <= i < |steps| && steps[i].Arrive? && steps[i].id == id && steps[i].body == body
  }

  ghost predicate Raised(steps: seq<Step>, error: string) {
    exists i :: 0 <= i < |steps| && steps[i].Break? && steps[i].error == error
  }

  /** Correlation: a call returns a timeout, the body of a reply that arrived with the call's own id,
      or the error of a disconnect. */
  lemma CallGetsItsOwnReply(w: World, steps: seq<Step>, id: nat)
    requires Initial(w) && IsRun(w, steps) && id in Run(w, steps).results
    ensures var r := Run(w, steps).results[id];
            r == Timeout || Arrived(steps, id, r.body) || Raised(steps, r.body)
  {
    InitialKeeps(w);
    RunKeepsInv(w, steps);
    var x := Run(w, steps);
    var r := x.results[id];
    if r.Answer? {
      assert Belongs(x, id, x.slots[id]);
      if x.slots[id].origin == Message {
        HeardArrived(w, steps, id, r.body);
      } else {
        ErrorWasRaised(w, steps, r.body);
      }
    }
  }

  /** No call and no disconnect handler is under way. */
  ghost predicate Finished(w: World) {
    && (forall t :: t in w.callers ==> w.callers[t].Away?)
    && (forall h :: h in w.breakers ==> w.breakers[h].Calm?)
  }

  /** Once all calls and handlers have finished, no entry and no lock is left behind. */
  lemma NothingIsLeftBehind(w: World, steps: seq<Step>)
    requires Initial(w) && IsRun(w, steps) && Finished(Run(w, steps))
    ensures var x := Run(w, steps);
            x.pending == {} && x.mapOwner == None && forall id :: id in x.slots ==> x.slots[id].owner == None
  {
    InitialKeeps(w);
    RunKeepsInv(w, steps);
    NothingHeld(Run(w, steps));
  }

  lemma NothingHeld(x: World)
    requires Inv(x) && Served(x) && Finished(x)
    ensures x.pending == {} && x.mapOwner == None && forall id :: id in x.slots ==> x.slots[id].owner == None
  {
  }

  // ---------- The lock order ----------

  /** A timed-out caller holds its slot and waits for the map; the disconnect handler holds the map
      and has still to write that slot. */
  ghost predicate Deadlocked(w: World, t: nat, h: nat) {
    && t in w.callers && w.callers[t].TimedOut? && w.mapOwner == Some(h)
    && h in w.breakers && w.breakers[h].Breaking? && w.callers[t].id in w.breakers[h].todo
  }

  lemma DeadlockStays(w: World, s: Step, t: nat, h: nat)
    requires Inv(w) && Deadlocked(w, t, h) && Enabled(w, s)
    ensures Deadlocked(Next(w, s), t, h) && Next(w, s).pending == w.pending
  {
  }

  /** Neither ever moves again, whatever the others do; and no call is entered into the map and no
      reply taken out of it any more. */
  lemma {:induction false} DeadlockIsForever(w: World, steps: seq<Step>, t: nat, h: nat)
    requires Inv(w) && Deadlocked(w, t, h) && IsRun(w, steps)
    ensures Deadlocked(Run(w, steps), t, h) && Run(w, steps).pending == w.pending
    decreases |steps|
  {
    if steps != [] {
      StepKeepsInv(w, steps[0]);
      DeadlockStays(w, steps[0], t, h);
      DeadlockIsForever(Next(w, steps[0]), steps[1..], t, h);
    }
  }

  /** It arises in exactly two ways: a disconnect finds a timed-out caller that has not erased its
      entry yet, or a caller times out on a slot that a disconnect has still to write. */
  lemma DeadlockArises(w: World, s: Step, t: nat, h: nat)
    requires Inv(w) && Enabled(w, s) && !Deadlocked(w, t, h)
    ensures Deadlocked(Next(w, s), t, h) <==>
              || (s.Break? && s.h == h && t in w.callers && w.callers[t].TimedOut? && w.callers[t].id in w.pending)
              || (s == Wake(t) && w.mapOwner == Some(h) && w.callers[t].id in w.breakers[h].todo)
  {
  }

  lemma Extend(w: World, s: Step, steps: seq<Step>)
    requires Enabled(w, s) && IsRun(Next(w, s), steps)
    ensures IsRun(w, [s] + steps) && Run(w, [s] + steps) == Run(Next(w, s), steps)
  {
    assert ([s] + steps)[1..] == steps;
  }

  /** One caller and one disconnect are enough to reach it. */
  lemma DeadlockIsReachable(w: World, t: nat, h: nat, error: string)
    requires Initial(w) && t in w.callers && h in w.breakers
    ensures exists steps :: IsRun(w, steps) && Deadlocked(Run(w, steps), t, h)
  {
    var w1 := Next(w, Begin(t));
    var w2 := Next(w1, Insert(t));
    var w3 := Next(w2, Send(t));
    var w4 := Next(w3, Wake(t));
    var w5 := Next(w4, Break(h, error));
    Extend(w4, Break(h, error), []);
    Extend(w3, Wake(t), [Break(h, error)]);
    Extend(w2, Send(t), [Wake(t), Break(h, error)]);
    Extend(w1, Insert(t), [Send(t), Wake(t), Break(h, error)]);
    Extend(w, Begin(t), [Insert(t), Send(t), Wake(t), Break(h, error)]);
    assert Deadlocked(w5, t, h);
  }
}
