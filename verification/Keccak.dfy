/** Keccak-f[1600]: the permutation of FIPS 202, and the in-place rounds that compute it. */
module Keccak {
  import opened Words

  /** Lane (x, y) stands at index x + 5y; bit z of it is A[x, y, z]. */
  type State = s: seq<Word> | |s| == 25 witness seq(25, _ => ZERO_WORD)

  const ROTATION: seq<seq<nat>> := [
    [0, 36, 3, 41, 18],
    [1, 44, 10, 45, 2],
    [62, 6, 43, 15, 61],
    [28, 55, 25, 21, 56],
    [27, 20, 39, 8, 14]
  ]

  function Offset(x: nat, y: nat): (r: nat)
    requires x < 5 && y < 5
    ensures r < 64
  {
    ROTATION[x][y]
  }

  const ROUND_CONSTANTS: seq<nat> := [
    0x0000000000000001, 0x0000000000008082, 0x800000000000808a, 0x8000000080008000,
    0x000000000000808b, 0x0000000080000001, 0x8000000080008081, 0x8000000000008009,
    0x000000000000008a, 0x0000000000000088, 0x0000000080008009, 0x000000008000000a,
    0x000000008000808b, 0x800000000000008b, 0x8000000000008089, 0x8000000000008003,
    0x8000000000008002, 0x8000000000000080, 0x000000000000800a, 0x800000008000000a,
    0x8000000080008081, 0x8000000000008080, 0x0000000080000001, 0x8000000080008008
  ]

  function RoundConstant(i: nat): Word
    requires i < |ROUND_CONSTANTS|
  {
    Bits(ROUND_CONSTANTS[i], 64)
  }

  // ---------- The step mappings of section 3.2, bit by bit ----------

  function Plus(p: bool, q: bool): bool {
    p != q
  }

  /** C[x, z], the parity of a column. */
  function C(a: State, x: nat, z: nat): bool
    requires x < 5 && z < 64
  {
    Plus(Plus(Plus(Plus(a[x][z], a[x + 5][z]), a[x + 10][z]), a[x + 15][z]), a[x + 20][z])
  }

  /** D[x, z] = C[x - 1, z] + C[x + 1, z - 1]. */
  function D(a: State, x: nat, z: nat): bool
    requires x < 5 && z < 64
  {
    Plus(C(a, (x + 4) % 5, z), C(a, (x + 1) % 5, (z + 63) % 64))
  }

  function Theta(a: State): State {
    seq(25, k requires 0 <= k < 25 => seq(64, z requires 0 <= z < 64 => Plus(a[k][z], D(a, k % 5, z))))
  }

  /** A'[x, y, z] = A[x, y, z - offset]. */
  function Rho(a: State): State {
    seq(25, k requires 0 <= k < 25 =>
      seq(64, z requires 0 <= z < 64 => a[k][(z + 64 - Offset(k % 5, k / 5)) % 64]))
  }

  /** A'[x, y] = A[x + 3y, x]. */
  function PiSource(k: nat): (j: nat)
    requires k < 25
    ensures j < 25
  {
    var x, y := k % 5, k / 5;
    (x + 3 * y) % 5 + 5 * x
  }

  function Pi(a: State): State {
    seq(25, k requires 0 <= k < 25 => a[PiSource(k)])
  }

  /** A'[x, y, z] = A[x, y, z] + (A[x + 1, y, z] + 1) A[x + 2, y, z]. */
  function ChiBit(a: State, x: nat, y: nat, z: nat): bool
    requires x < 5 && y < 5 && z < 64
  {
    Plus(a[x + 5 * y][z], !a[(x + 1) % 5 + 5 * y][z] && a[(x + 2) % 5 + 5 * y][z])
  }

  function Chi(a: State): State {
    seq(25, k requires 0 <= k < 25 => seq(64, z requires 0 <= z < 64 => ChiBit(a, k % 5, k / 5, z)))
  }

  function Iota(a: State, rc: Word): State {
    a[0 := seq(64, z requires 0 <= z < 64 => Plus(a[0][z], rc[z]))]
  }

  function Round(a: State, rc: Word): State {
    Iota(Chi(Pi(Rho(Theta(a)))), rc)
  }

  /** The first n rounds. */
  function Rounds(a: State, n: nat): State
    requires n <= |ROUND_CONSTANTS|
  {
    if n == 0 then a else Round(Rounds(a, n - 1), RoundConstant(n - 1))
  }

  function KeccakP(a: State): State {
    Rounds(a, |ROUND_CONSTANTS|)
  }

  // ---------- The same in whole lanes ----------

  function Parity(a: State, x: nat): Word
    requires x < 5
  {
    Xor(Xor(Xor(Xor(a[x], a[x + 5]), a[x + 10]), a[x + 15]), a[x + 20])
  }

  function Spread(a: State, x: nat): Word
    requires x < 5
  {
    Xor(Parity(a, (x + 4) % 5), Rotl64(Parity(a, (x + 1) % 5), 1))
  }

  lemma SpreadBits(a: State, x: nat, z: nat)
    requires x < 5 && z < 64
    ensures Spread(a, x)[z] == D(a, x, z)
  {
    RotlMovesBits(Parity(a, (x + 1) % 5), 1, z);
  }

  lemma ThetaLane(a: State, k: nat)
    requires k < 25
    ensures Xor(a[k], Spread(a, k % 5)) == Theta(a)[k]
  {
    forall z | 0 <= z < 64 ensures Xor(a[k], Spread(a, k % 5))[z] == Theta(a)[k][z] {
      SpreadBits(a, k % 5, z);
    }
  }

  lemma RhoLane(a: State, k: nat)
    requires k < 25
    ensures Rotl64(a[k], Offset(k % 5, k / 5)) == Rho(a)[k]
  {
    var r := Offset(k % 5, k / 5);
    forall z | 0 <= z < 64 ensures Rotl64(a[k], r)[z] == Rho(a)[k][z] {
      RotlMovesBits(a[k], r, z);
    }
  }

  function ChiLane(a: State, x: nat, y: nat): Word
    requires x < 5 && y < 5
  {
    Xor(a[x + 5 * y], And(Not(a[(x + 1) % 5 + 5 * y]), a[(x + 2) % 5 + 5 * y]))
  }

  lemma ChiLanes(a: State, k: nat)
    requires k < 25
    ensures ChiLane(a, k % 5, k / 5) == Chi(a)[k]
  {
  }

  // ---------- The loops ----------

  /** Lanes that a loop over x, then y, has reached before (x, y). */
  predicate Before(k: nat, x: nat, y: nat) {
    k % 5 < x || (k % 5 == x && k / 5 < y)
  }

  method ColumnParities(state: array<Word>) returns (c: array<Word>)
    requires state.Length == 25
    ensures fresh(c) && c.Length == 5
    ensures forall i :: 0 <= i < 5 ==> c[i] == Parity(state[..], i)
  {
    c := new Word[5];
    for x := 0 to 5
      invariant forall i :: 0 <= i < x ==> c[i] == Parity(state[..], i)
    {
      c[x] := Xor(Xor(Xor(Xor(state[x], state[x + 5]), state[x + 10]), state[x + 15]), state[x + 20]);
    }
  }

  method ColumnSpread(state: array<Word>) returns (d: array<Word>)
    requires state.Length == 25
    ensures fresh(d) && d.Length == 5
    ensures forall i :: 0 <= i < 5 ==> d[i] == Spread(state[..], i)
  {
    var c := ColumnParities(state);
    d := SpreadParities(c, state[..]);
  }

  method SpreadParities(c: array<Word>, ghost a: State) returns (d: array<Word>)
    requires c.Length == 5 && forall i :: 0 <= i < 5 ==> c[i] == Parity(a, i)
    ensures fresh(d) && d.Length == 5 && forall i :: 0 <= i < 5 ==> d[i] == Spread(a, i)
  {
    d := new Word[5];
    for x := 0 to 5
      invariant forall i :: 0 <= i < x ==> d[i] == Spread(a, i)
    {
      var before, after := (x + 4) % 5, (x + 1) % 5;
      var spread := Xor(c[before], Rotl64(c[after], 1));
      assert spread == Spread(a, x);
      d[x] := spread;
    }
  }

  method AddToColumns(state: array<Word>, d: array<Word>)
    requires state.Length == 25 && d.Length == 5 && state != d
    modifies state
    ensures forall k :: 0 <= k < 25 ==> state[k] == Xor(old(state[k]), d[k % 5])
  {
    for x := 0 to 5
      invariant forall k :: 0 <= k < 25 ==> state[k] == if Before(k, x, 0) then Xor(old(state[k]), d[k % 5]) else old(state[k])
    {
      for y := 0 to 5
        invariant forall k :: 0 <= k < 25 ==> state[k] == if Before(k, x, y) then Xor(old(state[k]), d[k % 5]) else old(state[k])
      {
        Reached(x, y);
        state[x + 5 * y] := Xor(state[x + 5 * y], d[x]);
      }
    }
  }

  /** The loop body at (x, y) adds exactly one lane to those reached. */
  lemma Reached(x: nat, y: nat)
    requires x < 5 && y < 5
    ensures (x + 5 * y) % 5 == x && (x + 5 * y) / 5 == y
    ensures forall k :: 0 <= k < 25 ==> (Before(k, x, y + 1) <==> Before(k, x, y) || k == x + 5 * y)
  {
  }

  method ThetaStep(state: array<Word>)
    requires state.Length == 25
    modifies state
    ensures state[..] == Theta(old(state[..]))
  {
    var d := ColumnSpread(state);
    AddToColumns(state, d);
    forall k | 0 <= k < 25 ensures state[k] == Theta(old(state[..]))[k] {
      ThetaLane(old(state[..]), k);
    }
  }

  /** Where the loop puts lane k. */
  function PiTarget(k: nat): (j: nat)
    requires k < 25
    ensures j < 25
  {
    var x, y := k % 5, k / 5;
    y + 5 * ((2 * x + 3 * y) % 5)
  }

  /** The index map of the loop is a bijection and inverts the one of the standard, so each of the
      25 lanes is written exactly once. */
  lemma PiWritesEachLaneOnce(k: nat)
    requires k < 25
    ensures PiTarget(PiSource(k)) == k && PiSource(PiTarget(k)) == k
  {
    SourceOfTarget(k % 5, k / 5);
    TargetOfSource(k % 5, k / 5);
  }

  lemma SourceOfTarget(x: nat, y: nat)
    requires x < 5 && y < 5
    ensures PiSource(PiTarget(x + 5 * y)) == x + 5 * y
  {
    var k, t := x + 5 * y, (2 * x + 3 * y) % 5;
    assert k % 5 == x && k / 5 == y;
    var j := y + 5 * t;
    assert j % 5 == y && j / 5 == t;
    Remainder(y + 3 * t, x + 2 * y - 3 * ((2 * x + 3 * y) / 5), x);
  }

  lemma TargetOfSource(x: nat, y: nat)
    requires x < 5 && y < 5
    ensures PiTarget(PiSource(x + 5 * y)) == x + 5 * y
  {
    var k, u := x + 5 * y, (x + 3 * y) % 5;
    assert k % 5 == x && k / 5 == y;
    var j := u + 5 * x;
    assert j % 5 == u && j / 5 == x;
    Remainder(2 * u + 3 * x, x + y - 2 * ((x + 3 * y) / 5), y);
  }

  lemma Remainder(n: int, q: int, r: int)
    requires n == 5 * q + r && 0 <= r < 5
    ensures n % 5 == r
  {
  }

  /** The index map as a table without repetitions. */
  lemma PiTable() returns (t: seq<nat>)
    ensures |t| == 25 && forall k :: 0 <= k < 25 ==> t[k] < 25
    ensures forall k, j :: 0 <= k < 25 && 0 <= j < 25 && t[k] == t[j] ==> k == j
    ensures forall k :: 0 <= k < 25 ==> t[k] == PiTarget(k)
  {
    t := seq(25, k requires 0 <= k < 25 => PiTarget(k));
    forall k, j | 0 <= k < 25 && 0 <= j < 25 && t[k] == t[j] ensures k == j {
      PiWritesEachLaneOnce(k);
      PiWritesEachLaneOnce(j);
    }
  }

  lemma PiTargetOf(x: nat, y: nat, t: seq<nat>)
    requires x < 5 && y < 5 && |t| == 25 && t[x + 5 * y] == PiTarget(x + 5 * y)
    ensures t[x + 5 * y] == y + 5 * ((2 * x + 3 * y) % 5)
  {
    Reached(x, y);
  }

  lemma Gathered(a: State, b: seq<Word>, t: seq<nat>)
    requires |b| == 25 && |t| == 25 && forall k :: 0 <= k < 25 ==> t[k] < 25 && t[k] == PiTarget(k)
    requires forall k :: 0 <= k < 25 ==> b[t[k]] == Rotl64(a[k], Offset(k % 5, k / 5))
    ensures b == Pi(Rho(a))
  {
    forall k | 0 <= k < 25 ensures b[k] == Pi(Rho(a))[k] {
      PiWritesEachLaneOnce(k);
      assert b[t[PiSource(k)]] == b[k];
      RhoLane(a, PiSource(k));
    }
  }

  /** Lane by lane, each one rotated and put in its place. */
  method Scatter(state: array<Word>, ghost t: seq<nat>, ghost r: State) returns (b: array<Word>)
    requires state.Length == 25 && |t| == 25 && forall k :: 0 <= k < 25 ==> t[k] < 25
    requires forall k, j :: 0 <= k < 25 && 0 <= j < 25 && t[k] == t[j] ==> k == j
    requires forall x, y :: 0 <= x < 5 && 0 <= y < 5 ==> Placed(state[..], t, r, x, y)
    ensures fresh(b) && b.Length == 25
    ensures forall k :: 0 <= k < 25 ==> b[t[k]] == r[k]
  {
    b := new Word[25];
    for x := 0 to 5
      invariant forall k :: 0 <= k < 25 && Before(k, x, 0) ==> b[t[k]] == r[k]
    {
      for y := 0 to 5
        invariant forall k :: 0 <= k < 25 && Before(k, x, y) ==> b[t[k]] == r[k]
      {
        Reached(x, y);
        assert Placed(state[..], t, r, x, y);
        b[y + 5 * ((2 * x + 3 * y) % 5)] := Rotl64(state[x + 5 * y], ROTATION[x][y]);
      }
    }
  }

  /** What the loop body at (x, y) has to write, and where. */
  ghost predicate Placed(a: State, t: seq<nat>, r: State, x: nat, y: nat)
    requires x < 5 && y < 5 && |t| == 25
  {
    t[x + 5 * y] == y + 5 * ((2 * x + 3 * y) % 5) && r[x + 5 * y] == Rotl64(a[x + 5 * y], Offset(x, y))
  }

  function Rotated(a: State): State {
    seq(25, k requires 0 <= k < 25 => Rotl64(a[k], Offset(k % 5, k / 5)))
  }

  method RhoPiStep(state: array<Word>) returns (b: array<Word>)
    requires state.Length == 25
    ensures fresh(b) && b.Length == 25
    ensures b[..] == Pi(Rho(state[..]))
  {
    ghost var t := PiTable();
    ghost var r := Rotated(state[..]);
    forall x, y | 0 <= x < 5 && 0 <= y < 5 ensures Placed(state[..], t, r, x, y) {
      Reached(x, y);
      PiTargetOf(x, y, t);
    }
    b := Scatter(state, t, r);
    Gathered(state[..], b[..], t);
  }

  method ChiStep(state: array<Word>, b: array<Word>)
    requires state.Length == 25 && b.Length == 25 && state != b
    modifies state
    ensures state[..] == Chi(b[..])
  {
    for x := 0 to 5
      invariant forall k :: 0 <= k < 25 && Before(k, x, 0) ==> state[k] == ChiLane(b[..], k % 5, k / 5)
    {
      for y := 0 to 5
        invariant forall k :: 0 <= k < 25 && Before(k, x, y) ==> state[k] == ChiLane(b[..], k % 5, k / 5)
      {
        Reached(x, y);
        state[x + 5 * y] := Xor(b[x + 5 * y], And(Not(b[(x + 1) % 5 + 5 * y]), b[(x + 2) % 5 + 5 * y]));
      }
    }
    forall k | 0 <= k < 25 ensures state[k] == Chi(b[..])[k] {
      ChiLanes(b[..], k);
    }
  }

  /** The 24 rounds, in place. */
  method KeccakF(state: array<Word>)
    requires state.Length == 25
    modifies state
    ensures state[..] == KeccakP(old(state[..]))
  {
    for i := 0 to |ROUND_CONSTANTS|
      invariant state[..] == Rounds(old(state[..]), i)
    {
      ghost var before: State := state[..];
      ThetaStep(state);
      var b := RhoPiStep(state);
      ChiStep(state, b);
      IotaLane(state[..], RoundConstant(i));
      state[0] := Xor(state[0], RoundConstant(i));
      assert state[..] == Round(before, RoundConstant(i));
    }
  }

  lemma IotaLane(a: State, rc: Word)
    ensures a[0 := Xor(a[0], rc)] == Iota(a, rc)
  {
    assert Xor(a[0], rc) == Iota(a, rc)[0];
  }
}
