/** When the post transport can come to rest: the cycle of `PostTransport.Deadlocked` is the only way
    in which a call or a handler fails to finish. */
module PostProgress {
  import opened PostTransport

  /** Everything but a new call, a new message and a new disconnect. */
  predicate Internal(s: Step) {
    !s.Begin? && !s.Arrive? && !s.Break?
  }

  ghost predicate CanMove(w: World) {
    exists s :: Internal(s) && Enabled(w, s)
  }

  ghost predicate HasDeadlock(w: World) {
    exists t, h :: Deadlocked(w, t, h)
  }

  /** No call and no handler of either kind is under way. */
  ghost predicate Settled(w: World) {
    Finished(w) && forall h :: h in w.receivers ==> w.receivers[h].Quiet?
  }

  /** Whoever holds a slot can let go of it, unless it needs a map that somebody else holds. */
  lemma HolderMoves(w: World, id: nat)
    requires Inv(w) && id in w.slots && w.slots[id].owner.Some?
    requires var t := w.slots[id].owner.value; t in w.callers && w.callers[t].TimedOut? ==> w.mapOwner.None?
    ensures CanMove(w)
  {
    var t := w.slots[id].owner.value;
    assert Internal(Finish(t)) && Internal(GiveUp(t));
    assert Enabled(w, Finish(t)) || Enabled(w, GiveUp(t));
  }

  /** The disconnect handler that holds the map goes on, unless the next slot's holder waits for it. */
  lemma BreakerMoves(w: World)
    requires Inv(w) && w.mapOwner.Some? && !HasDeadlock(w)
    ensures CanMove(w)
  {
    var h := w.mapOwner.value;
    var todo := w.breakers[h].todo;
    if todo == {} {
      assert Internal(Clear(h)) && Enabled(w, Clear(h));
    } else {
      var id :| id in todo;
      if SlotFree(w, id) {
        assert Internal(Drop(h, id)) && Enabled(w, Drop(h, id));
      } else {
        assert !Deadlocked(w, w.slots[id].owner.value, h);
        HolderMoves(w, id);
      }
    }
  }

  lemma CallerMoves(w: World, t: nat)
    requires Inv(w) && w.mapOwner.None? && t in w.callers && !w.callers[t].Away?
    ensures CanMove(w)
  {
    var s := match w.callers[t] {
      case HasId(_) => Insert(t)
      case Inserted(_) => Send(t)
      case Waiting(_) => Wake(t)
      case GotReply(_) => Finish(t)
      case _ => GiveUp(t)
    };
    assert Internal(s) && Enabled(w, s);
  }

  lemma ReceiverMoves(w: World, h: nat)
    requires Inv(w) && w.mapOwner.None? && h in w.receivers && !w.receivers[h].Quiet?
    ensures CanMove(w)
  {
    if w.receivers[h].Parsed? {
      assert Internal(Take(h)) && Enabled(w, Take(h));
    } else if SlotFree(w, w.receivers[h].id) {
      assert Internal(Deliver(h)) && Enabled(w, Deliver(h));
    } else {
      HolderMoves(w, w.receivers[h].id);
    }
  }

  /** Deadlock freedom, exactly: while a call or a handler is under way something can move, unless a
      timed-out caller and a disconnect handler wait for each other. */
  lemma BusyCanMove(w: World)
    requires Inv(w) && !Settled(w) && !HasDeadlock(w)
    ensures CanMove(w)
  {
    if w.mapOwner.Some? {
      BreakerMoves(w);
    } else if t :| t in w.callers && !w.callers[t].Away? {
      CallerMoves(w, t);
    } else {
      var h :| h in w.receivers && !w.receivers[h].Quiet?;
      ReceiverMoves(w, h);
    }
  }

  // ---------- How long it takes ----------

  function CallerWork(c: Caller): nat {
    match c
    case Away => 0
    case HasId(_) => 4
    case Inserted(_) => 3
    case Waiting(_) => 2
    case _ => 1
  }

  function ReceiverWork(r: Receiver): nat {
    match r
    case Quiet => 0
    case Parsed(_, _) => 2
    case Delivering(_, _) => 1
  }

  function BreakerWork(b: Breaker): nat {
    if b.Calm? then 0 else 1 + |b.todo|
  }

  ghost function Sum(m: map<nat, nat>): nat
    decreases |m|
  {
    if m == map[] then 0
    else
      var k :| k in m;
      assert |m - {k}| < |m| by { Shrinks(m, k); }
      m[k] + Sum(m - {k})
  }

  lemma Shrinks(m: map<nat, nat>, k: nat)
    requires k in m
    ensures |m - {k}| < |m|
  {
    assert (m - {k}).Keys == m.Keys - {k};
    assert |m.Keys - {k}| < |m.Keys|;
  }

  /** Any key may be taken out first. */
  lemma {:induction false} SumWithout(m: map<nat, nat>, k: nat)
    requires k in m
    ensures Sum(m) == m[k] + Sum(m - {k})
    decreases |m|
  {
    var j :| j in m && Sum(m) == m[j] + Sum(m - {j});
    if j != k {
      Shrinks(m, j);
      SumWithout(m - {j}, k);
      Shrinks(m, k);
      SumWithout(m - {k}, j);
      assert m - {j} - {k} == m - {k} - {j};
    }
  }

  lemma SumOfUpdate(m: map<nat, nat>, k: nat, n: nat)
    requires k in m
    ensures Sum(m[k := n]) == Sum(m) - m[k] + n
  {
    SumWithout(m, k);
    SumWithout(m[k := n], k);
    assert m[k := n] - {k} == m - {k};
  }

  function CallerWorks(w: World): map<nat, nat> {
    map t | t in w.callers :: CallerWork(w.callers[t])
  }

  function ReceiverWorks(w: World): map<nat, nat> {
    map h | h in w.receivers :: ReceiverWork(w.receivers[h])
  }

  function BreakerWorks(w: World): map<nat, nat> {
    map h | h in w.breakers :: BreakerWork(w.breakers[h])
  }

  /** The steps still ahead of the calls and handlers under way. */
  ghost function Work(w: World): nat {
    Sum(CallerWorks(w)) + Sum(ReceiverWorks(w)) + Sum(BreakerWorks(w))
  }

  lemma CallerWorksOff(w: World, x: World, t: nat)
    requires t in w.callers && t in x.callers && x.callers == w.callers[t := x.callers[t]]
    requires x.receivers == w.receivers && x.breakers == w.breakers
    requires CallerWork(x.callers[t]) < CallerWork(w.callers[t])
    ensures Work(x) < Work(w)
  {
    assert CallerWorks(x) == CallerWorks(w)[t := CallerWork(x.callers[t])];
    SumOfUpdate(CallerWorks(w), t, CallerWork(x.callers[t]));
  }

  lemma ReceiverWorksOff(w: World, x: World, h: nat)
    requires h in w.receivers && h in x.receivers && x.receivers == w.receivers[h := x.receivers[h]]
    requires x.callers == w.callers && x.breakers == w.breakers
    requires ReceiverWork(x.receivers[h]) < ReceiverWork(w.receivers[h])
    ensures Work(x) < Work(w)
  {
    assert ReceiverWorks(x) == ReceiverWorks(w)[h := ReceiverWork(x.receivers[h])];
    SumOfUpdate(ReceiverWorks(w), h, ReceiverWork(x.receivers[h]));
  }

  lemma BreakerWorksOff(w: World, x: World, h: nat)
    requires h in w.breakers && h in x.breakers && x.breakers == w.breakers[h := x.breakers[h]]
    requires x.callers == w.callers && x.receivers == w.receivers
    requires BreakerWork(x.breakers[h]) < BreakerWork(w.breakers[h])
    ensures Work(x) < Work(w)
  {
    assert BreakerWorks(x) == BreakerWorks(w)[h := BreakerWork(x.breakers[h])];
    SumOfUpdate(BreakerWorks(w), h, BreakerWork(x.breakers[h]));
  }

  lemma CallerStepWorksOff(w: World, s: Step)
    requires ByCaller(s) && Internal(s) && Enabled(w, s)
    ensures Work(Next(w, s)) < Work(w)
  {
    CallerWorksOff(w, Next(w, s), s.t);
  }

  lemma HandlerStepWorksOff(w: World, s: Step)
    requires !ByCaller(s) && Internal(s) && Enabled(w, s)
    ensures Work(Next(w, s)) < Work(w)
  {
    if s.Take? || s.Deliver? {
      ReceiverWorksOff(w, Next(w, s), s.h);
    } else {
      BreakerWorksOff(w, Next(w, s), s.h);
    }
  }

  lemma WorksOff(w: World, s: Step)
    requires Internal(s) && Enabled(w, s)
    ensures Work(Next(w, s)) < Work(w)
  {
    if ByCaller(s) {
      CallerStepWorksOff(w, s);
    } else {
      HandlerStepWorksOff(w, s);
    }
  }

  ghost predicate AllInternal(steps: seq<Step>) {
    forall i :: 0 <= i < |steps| ==> Internal(steps[i])
  }

  /** With nothing new begun, no schedule runs for ever. */
  lemma {:induction false} InternalRunsAreBounded(w: World, steps: seq<Step>)
    requires IsRun(w, steps) && AllInternal(steps)
    ensures |steps| + Work(Run(w, steps)) <= Work(w)
    decreases |steps|
  {
    if steps != [] {
      WorksOff(w, steps[0]);
      InternalRunsAreBounded(Next(w, steps[0]), steps[1..]);
    }
  }

  /** Where such a schedule ends, every call has returned and every handler is done, exactly when no
      caller and disconnect handler wait for each other; whatever the schedule was. */
  lemma EndsSettledUnlessDeadlocked(w: World, steps: seq<Step>)
    requires Inv(w) && Served(w) && IsRun(w, steps) && AllInternal(steps) && !CanMove(Run(w, steps))
    ensures |steps| <= Work(w)
    ensures Settled(Run(w, steps)) <==> !HasDeadlock(Run(w, steps))
  {
    InternalRunsAreBounded(w, steps);
    RunKeepsInv(w, steps);
    if !HasDeadlock(Run(w, steps)) && !Settled(Run(w, steps)) {
      BusyCanMove(Run(w, steps));
    }
  }

  // ---------- No reply is lost ----------

  /** The slot holds this body, nobody has given up on it, and a result there is is this one. */
  ghost predicate Kept(w: World, id: nat, body: string) {
    && id in w.slots && w.slots[id].ready && w.slots[id].body == body
    && (forall t :: t in w.callers && w.callers[t].TimedOut? ==> w.callers[t].id != id)
    && (id in w.results ==> w.results[id] == Answer(body))
  }

  lemma CallerKeepsBody(w: World, s: Step, id: nat, body: string)
    requires Inv(w) && Kept(w, id, body) && Enabled(w, s) && ByCaller(s)
    ensures Kept(Next(w, s), id, body)
  {
  }

  lemma HandlerKeepsBody(w: World, s: Step, id: nat, body: string)
    requires Inv(w) && Kept(w, id, body) && Enabled(w, s) && !ByCaller(s)
    ensures Kept(Next(w, s), id, body)
  {
    assert Belongs(w, id, w.slots[id]);
  }

  /** Once a slot is written before its caller gave up, that body is what the call returns, in every
      continuation; no other message and no disconnect replaces it. */
  lemma {:induction false} WrittenBodyIsReturned(w: World, steps: seq<Step>, id: nat, body: string)
    requires Inv(w) && Kept(w, id, body) && IsRun(w, steps)
    ensures Kept(Run(w, steps), id, body)
    decreases |steps|
  {
    if steps != [] {
      StepKeepsInv(w, steps[0]);
      if ByCaller(steps[0]) {
        CallerKeepsBody(w, steps[0], id, body);
      } else {
        HandlerKeepsBody(w, steps[0], id, body);
      }
      WrittenBodyIsReturned(Next(w, steps[0]), steps[1..], id, body);
    }
  }

  /** The caller waits for an id that is in the map, unwritten, and nobody holds the map. */
  ghost predicate Awaits(w: World, t: nat, id: nat) {
    && t in w.callers && w.callers[t] == Waiting(id) && id in w.pending && w.mapOwner.None?
  }

  lemma AwaitedSlotIsFree(w: World, t: nat, id: nat)
    requires Inv(w) && Awaits(w, t, id)
    ensures SlotFree(w, id) && !w.slots[id].ready
  {
    assert Belongs(w, id, w.slots[id]);
  }

  lemma HandlerDelivers(w: World, h: nat, id: nat, body: string) returns (x: World)
    requires h in w.receivers && w.receivers[h].Quiet? && id in w.pending && w.mapOwner.None? && SlotFree(w, id)
    ensures
      var steps := [Arrive(h, id, body), Take(h), Deliver(h)];
      IsRun(w, steps) && Run(w, steps) == x
    ensures x.callers == w.callers && x.results == w.results && x.receivers == w.receivers[h := Quiet]
    ensures SlotFree(x, id) && x.slots[id].ready && x.slots[id].body == body && id !in x.pending
  {
    var w1 := Next(w, Arrive(h, id, body));
    var w2 := Next(w1, Take(h));
    x := Next(w2, Deliver(h));
    Extend(w2, Deliver(h), []);
    Extend(w1, Take(h), [Deliver(h)]);
    Extend(w, Arrive(h, id, body), [Take(h), Deliver(h)]);
    assert [Arrive(h, id, body)] + [Take(h), Deliver(h)] == [Arrive(h, id, body), Take(h), Deliver(h)];
  }

  lemma CallerReturns(w: World, t: nat, id: nat, body: string)
    requires t in w.callers && w.callers[t] == Waiting(id) && SlotFree(w, id)
    requires w.slots[id].ready && w.slots[id].body == body
    ensures
      var steps := [Wake(t), Finish(t)];
      && IsRun(w, steps)
      && var x := Run(w, steps);
         && id in x.results && x.results[id] == Answer(body) && x.pending == w.pending
         && x.callers == w.callers[t := Away] && x.receivers == w.receivers
  {
    var w1 := Next(w, Wake(t));
    var w2 := Next(w1, Finish(t));
    Extend(w1, Finish(t), []);
    Extend(w, Wake(t), [Finish(t)]);
    assert [Wake(t)] + [Finish(t)] == [Wake(t), Finish(t)];
    assert w2.callers == w.callers[t := Away];
  }

  lemma {:induction false} RunBoth(w: World, first: seq<Step>, second: seq<Step>)
    requires IsRun(w, first) && IsRun(Run(w, first), second)
    ensures IsRun(w, first + second) && Run(w, first + second) == Run(Run(w, first), second)
    decreases |first|
  {
    if first == [] {
      assert first + second == second;
    } else {
      RunBoth(Next(w, first[0]), first[1..], second);
      assert (first + second)[1..] == first[1..] + second;
    }
  }

  /** A waiting call is answered by a reply with its id: the handler takes the entry out of the map and
      writes the slot, and the caller wakes up and returns that body. */
  lemma ReplyAnswers(w: World, t: nat, h: nat, id: nat, body: string)
    requires Inv(w) && Awaits(w, t, id) && h in w.receivers && w.receivers[h].Quiet?
    ensures
      var steps := [Arrive(h, id, body), Take(h), Deliver(h)] + [Wake(t), Finish(t)];
      && IsRun(w, steps)
      && var x := Run(w, steps);
         && id in x.results && x.results[id] == Answer(body) && id !in x.pending
         && x.callers == w.callers[t := Away] && x.receivers == w.receivers[h := Quiet]
  {
    AwaitedSlotIsFree(w, t, id);
    var x := HandlerDelivers(w, h, id, body);
    CallerReturns(x, t, id, body);
    RunBoth(w, [Arrive(h, id, body), Take(h), Deliver(h)], [Wake(t), Finish(t)]);
  }

  /** A call that wakes up before its slot is written returns a timeout and takes its entry out. */
  lemma SilenceTimesOut(w: World, t: nat, id: nat)
    requires Inv(w) && Awaits(w, t, id)
    ensures
      var steps := [Wake(t), GiveUp(t)];
      && IsRun(w, steps)
      && var x := Run(w, steps);
         id in x.results && x.results[id] == Timeout && id !in x.pending && x.callers == w.callers[t := Away]
  {
    AwaitedSlotIsFree(w, t, id);
    var w1 := Next(w, Wake(t));
    Extend(w1, GiveUp(t), []);
    Extend(w, Wake(t), [GiveUp(t)]);
    assert [Wake(t)] + [GiveUp(t)] == [Wake(t), GiveUp(t)];
  }

  /** When a disconnect handler lets go of the map, every entry that was in it has been answered with a
      disconnect error. */
  lemma DisconnectAnswersAll(w: World, h: nat, id: nat)
    requires Inv(w) && NoReplyPending(w) && Enabled(w, Clear(h)) && id in w.pending
    ensures id in w.slots && w.slots[id].ready && w.slots[id].body in w.errors && id !in Next(w, Clear(h)).pending
  {
    assert Belongs(w, id, w.slots[id]);
  }
}
