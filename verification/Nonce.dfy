/** The lock-free nonce allocator, as its atomic steps interleaved by any number of threads. */
module Nonce {
  import opened Types
  import opened Trees

  /** Where a thread stands inside a call. */
  datatype Pc =
    | Outside
    | Loaded(cached: uint64)
    | Fetched(remote: uint64)
    | Lost
    | Holding(nonce: uint64)

  /** The shared cache and all threads; base, claims and returned are what an observer writes down:
      the first nonce of the session, how many were taken since, and those already returned. */
  datatype World = World(cache: uint64, pcs: map<nat, Pc>, base: Option<uint64>, claims: nat, returned: seq<uint64>)

  datatype Step = Load(t: nat) | Fetch(t: nat, remote: uint64) | Claim(t: nat) | Return(t: nat)

  /** A fresh allocator, or one whose cache was preloaded. */
  predicate Initial(w: World) {
    && w.claims == 0 && w.returned == []
    && w.base == (if w.cache == 0 then None else Some(w.cache))
    && forall t :: t in w.pcs ==> w.pcs[t] == Outside
  }

  predicate Enabled(w: World, s: Step) {
    && s.t in w.pcs
    && match s
       case Load(t) => w.pcs[t].Outside?
       case Fetch(t, _) => w.pcs[t] == Loaded(0)
       case Claim(t) => (w.pcs[t].Loaded? && w.pcs[t].cached != 0) || w.pcs[t].Fetched? || w.pcs[t].Lost?
       case Return(t) => w.pcs[t].Holding?
  }

  function Increment(n: uint64): uint64 {
    (n + 1) % TWO_TO_64
  }

  /** fetch_add: take the cached value and advance the cache. */
  function Take(w: World, t: nat): World {
    w.(cache := Increment(w.cache), pcs := w.pcs[t := Holding(w.cache)], claims := w.claims + 1)
  }

  function Next(w: World, s: Step): World
    requires Enabled(w, s)
  {
    match s
    case Load(t) => w.(pcs := w.pcs[t := Loaded(w.cache)])
    case Fetch(t, remote) => w.(pcs := w.pcs[t := Fetched(remote)])
    case Claim(t) =>
      if !w.pcs[t].Fetched? then Take(w, t)
      else if w.cache == 0 then
        var r := w.pcs[t].remote;
        w.(cache := Increment(r), pcs := w.pcs[t := Holding(r)], base := Some(r), claims := 1)
      else w.(pcs := w.pcs[t := Lost])
    case Return(t) => w.(pcs := w.pcs[t := Outside], returned := w.returned + [w.pcs[t].nonce])
  }

  /** A run is a sequence of steps, each enabled where it happens. */
  predicate IsRun(w: World, steps: seq<Step>)
    decreases |steps|
  {
    steps == [] || (Enabled(w, steps[0]) && IsRun(Next(w, steps[0]), steps[1..]))
  }

  function Run(w: World, steps: seq<Step>): World
    requires IsRun(w, steps)
    decreases |steps|
  {
    if steps == [] then w else Run(Next(w, steps[0]), steps[1..])
  }

  // ---------- Invariant ----------

  /** The nonces taken so far do not reach the end of the 64-bit range. */
  predicate InRange(w: World) {
    w.base.Some? ==> w.base.value + w.claims < TWO_TO_64
  }

  predicate Held(w: World, n: uint64) {
    exists t :: t in w.pcs && w.pcs[t] == Holding(n)
  }

  predicate Taken(w: World, n: uint64) {
    n in w.returned || Held(w, n)
  }

  predicate Distinct(s: seq<uint64>) {
    forall i, j :: 0 <= i < j < |s| ==> s[i] != s[j]
  }

  /** No nonce is held by two threads, or held after it was returned. */
  predicate Exclusive(w: World) {
    && Distinct(w.returned)
    && (forall t, u :: t in w.pcs && u in w.pcs && t != u && w.pcs[t].Holding? ==> w.pcs[t] != w.pcs[u])
    && (forall t :: t in w.pcs && w.pcs[t].Holding? ==> w.pcs[t].nonce !in w.returned)
  }

  /** Exactly the nonces from base on are taken, without a gap. */
  predicate Contiguous(w: World) {
    if w.base.Some? then forall n: uint64 :: Taken(w, n) <==> w.base.value <= n < w.base.value + w.claims
    else forall n: uint64 :: !Taken(w, n)
  }

  predicate CacheFits(w: World) {
    if w.base.Some? then w.cache == w.base.value + w.claims > 0
    else w.cache == 0 && w.claims == 0 && forall t :: t in w.pcs ==> !w.pcs[t].Lost? && (w.pcs[t].Loaded? ==> w.pcs[t].cached == 0)
  }

  predicate Inv(w: World) {
    Exclusive(w) && Contiguous(w) && CacheFits(w)
  }

  lemma InitialKeeps(w: World)
    requires Initial(w)
    ensures Inv(w)
  {
  }

  lemma HeldBy(w: World, t: nat)
    requires t in w.pcs && w.pcs[t].Holding?
    ensures Held(w, w.pcs[t].nonce)
  {
  }

  /** A thread that held nothing before now holds n, and nothing else changed hands. */
  lemma TakingAdds(w: World, x: World, t: nat, n: uint64)
    requires t in w.pcs && !w.pcs[t].Holding? && x.pcs == w.pcs[t := Holding(n)] && x.returned == w.returned
    ensures forall m: uint64 :: Taken(x, m) <==> Taken(w, m) || m == n
  {
    HeldBy(x, t);
    forall m: uint64 ensures Taken(x, m) <==> Taken(w, m) || m == n {
      if Held(w, m) {
        var u :| u in w.pcs && w.pcs[u] == Holding(m);
        assert x.pcs[u] == Holding(m);
      }
    }
  }

  lemma ReturningKeeps(w: World, x: World, t: nat)
    requires t in w.pcs && w.pcs[t].Holding? && x.pcs == w.pcs[t := Outside] && x.returned == w.returned + [w.pcs[t].nonce]
    ensures forall m: uint64 :: Taken(x, m) <==> Taken(w, m)
  {
    HeldBy(w, t);
    forall m: uint64 ensures Taken(x, m) <==> Taken(w, m) {
      if Held(w, m) && m != w.pcs[t].nonce {
        var u :| u in w.pcs && w.pcs[u] == Holding(m);
        assert x.pcs[u] == Holding(m);
      }
      if m == w.pcs[t].nonce {
        assert x.returned[|w.returned|] == m;
      }
    }
  }

  lemma MovingKeeps(w: World, x: World, t: nat, pc: Pc)
    requires t in w.pcs && !w.pcs[t].Holding? && !pc.Holding? && x.pcs == w.pcs[t := pc] && x.returned == w.returned
    ensures forall m: uint64 :: Taken(x, m) <==> Taken(w, m)
  {
    forall m: uint64 ensures Taken(x, m) <==> Taken(w, m) {
      if Held(w, m) {
        var u :| u in w.pcs && w.pcs[u] == Holding(m);
        assert x.pcs[u] == Holding(m);
      }
    }
  }

  lemma StepKeepsInv(w: World, s: Step)
    requires Inv(w) && Enabled(w, s) && InRange(Next(w, s))
    ensures Inv(Next(w, s))
  {
    var x := Next(w, s);
    match s
    case Load(t) => MovingKeeps(w, x, t, Loaded(w.cache));
    case Fetch(t, remote) => MovingKeeps(w, x, t, Fetched(remote));
    case Return(t) => ReturningKeeps(w, x, t);
    case Claim(t) =>
      if w.pcs[t].Fetched? && w.cache != 0 {
        MovingKeeps(w, x, t, Lost);
      } else {
        var n := x.pcs[t].nonce;
        TakingAdds(w, x, t, n);
        assert !Taken(w, n);
        forall u | u in w.pcs && u != t && w.pcs[u].Holding? ensures w.pcs[u].nonce != n {
          HeldBy(w, u);
        }
      }
  }

  lemma ClaimsOnlyGrow(w: World, s: Step)
    requires Inv(w) && Enabled(w, s) && InRange(Next(w, s))
    ensures InRange(w) && (w.base.Some? ==> Next(w, s).base == w.base && Next(w, s).claims >= w.claims)
  {
  }

  // ---------- Whole runs ----------

  /** Every state of the run stays in range. */
  predicate StaysInRange(w: World, steps: seq<Step>)
    requires IsRun(w, steps)
    decreases |steps|
  {
    InRange(w) && (steps == [] || StaysInRange(Next(w, steps[0]), steps[1..]))
  }

  lemma {:induction false} RunKeepsInv(w: World, steps: seq<Step>)
    requires Inv(w) && IsRun(w, steps) && StaysInRange(w, steps)
    ensures Inv(Run(w, steps))
    ensures w.base.Some? ==> Run(w, steps).base == w.base
    decreases |steps|
  {
    if steps != [] {
      var x := Next(w, steps[0]);
      StepKeepsInv(w, steps[0]);
      ClaimsOnlyGrow(w, steps[0]);
      RunKeepsInv(x, steps[1..]);
    }
  }

  /** All nonces returned in a session are different, and together with those claimed but not yet
      returned they are the interval that starts at the preloaded cache or at the remote value of
      the one thread whose exchange succeeded. */
  lemma SessionNoncesAreAnInterval(w: World, steps: seq<Step>)
    requires Initial(w) && IsRun(w, steps) && StaysInRange(w, steps)
    ensures var x := Run(w, steps);
            && Distinct(x.returned)
            && (x.base.Some? ==> forall n: uint64 :: Taken(x, n) <==> x.base.value <= n < x.base.value + x.claims)
            && (x.base.None? ==> x.returned == [])
            && (w.cache != 0 ==> x.base == Some(w.cache))
            && (x.base.Some? ==> x.cache == x.base.value + x.claims != 0)
  {
    InitialKeeps(w);
    RunKeepsInv(w, steps);
    var x := Run(w, steps);
    if x.base.None? && x.returned != [] {
      assert Taken(x, x.returned[0]);
    }
  }

  /** When no call is under way, the returned nonces alone are the interval. */
  lemma QuietSessionIsAnInterval(w: World, steps: seq<Step>, n: uint64)
    requires Initial(w) && IsRun(w, steps) && StaysInRange(w, steps)
    requires Run(w, steps).base.Some? && forall t :: t in Run(w, steps).pcs ==> Run(w, steps).pcs[t].Outside?
    ensures var x := Run(w, steps); n in x.returned <==> x.base.value <= n < x.base.value + x.claims
  {
    SessionNoncesAreAnInterval(w, steps);
    assert !Held(Run(w, steps), n);
    assert Taken(Run(w, steps), n) <==> n in Run(w, steps).returned;
  }

  /** The range condition is exact: the step that takes the last 64-bit value, and only that one,
      puts the cache back to zero, from where the next caller starts a second session. */
  lemma CacheReturnsToZero(w: World, s: Step)
    requires Inv(w) && InRange(w) && Enabled(w, s)
    ensures var x := Next(w, s);
            x.base.Some? ==> (x.cache == 0 <==> x.base.value + x.claims == TWO_TO_64)
  {
  }

  /** Then a nonce can be returned twice: the thread that claimed the last value returns it, and
      another one reads zero, asks the exchange and is told the same value. */
  lemma SecondSessionRepeats(w: World, t: nat, u: nat)
    requires Inv(w) && t != u && t in w.pcs && u in w.pcs && w.pcs[u].Outside?
    requires w.pcs[t].Loaded? && w.pcs[t].cached != 0 && w.cache == TWO_TO_64 - 1
    ensures exists steps :: IsRun(w, steps) && !Distinct(Run(w, steps).returned)
  {
    var last: uint64 := TWO_TO_64 - 1;
    var w1 := Next(w, Claim(t));
    var w2 := Next(w1, Return(t));
    var w3 := Next(w2, Load(u));
    var w4 := Next(w3, Fetch(u, last));
    var w5 := Next(w4, Claim(u));
    var w6 := Next(w5, Return(u));
    Extend(w5, Return(u), []);
    Extend(w4, Claim(u), [Return(u)]);
    Extend(w3, Fetch(u, last), [Claim(u), Return(u)]);
    Extend(w2, Load(u), [Fetch(u, last), Claim(u), Return(u)]);
    Extend(w1, Return(t), [Load(u), Fetch(u, last), Claim(u), Return(u)]);
    Extend(w, Claim(t), [Return(t), Load(u), Fetch(u, last), Claim(u), Return(u)]);
    var k := |w.returned|;
    assert w6.returned[k] == w6.returned[k + 1] == last;
  }

  lemma Extend(w: World, s: Step, steps: seq<Step>)
    requires Enabled(w, s) && IsRun(Next(w, s), steps)
    ensures IsRun(w, [s] + steps) && Run(w, [s] + steps) == Run(Next(w, s), steps)
  {
    assert ([s] + steps)[1..] == steps;
  }

  // ---------- One call, undisturbed ----------

  /** The steps of a call that no other thread interrupts. */
  function Solo(cache: uint64, t: nat, remote: uint64): seq<Step> {
    if cache != 0 then [Load(t), Claim(t), Return(t)] else [Load(t), Fetch(t, remote), Claim(t), Return(t)]
  }

  /** An undisturbed call returns the cached nonce, or the one of the exchange if there is none, and
      leaves its successor in the cache. */
  lemma SoloCall(w: World, t: nat, remote: uint64)
    requires t in w.pcs && w.pcs[t].Outside?
    ensures var nonce: uint64 := if w.cache != 0 then w.cache else remote;
            && IsRun(w, Solo(w.cache, t, remote))
            && var x := Run(w, Solo(w.cache, t, remote));
               x.cache == Increment(nonce) && x.returned == w.returned + [nonce] && x.pcs == w.pcs
  {
    var w1 := Next(w, Load(t));
    if w.cache != 0 {
      var w2 := Next(w1, Claim(t));
      Extend(w2, Return(t), []);
      Extend(w1, Claim(t), [Return(t)]);
      Extend(w, Load(t), [Claim(t), Return(t)]);
      assert Next(w2, Return(t)).pcs == w.pcs;
    } else {
      var w2 := Next(w1, Fetch(t, remote));
      var w3 := Next(w2, Claim(t));
      Extend(w3, Return(t), []);
      Extend(w2, Claim(t), [Return(t)]);
      Extend(w1, Fetch(t, remote), [Claim(t), Return(t)]);
      Extend(w, Load(t), [Fetch(t, remote), Claim(t), Return(t)]);
      assert Next(w3, Return(t)).pcs == w.pcs;
    }
  }
}
