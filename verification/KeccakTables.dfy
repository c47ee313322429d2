/** The two tables of the permutation are the ones that the standard derives. */
module KeccakTables {
  import opened Words
  import opened Keccak

  // ---------- Rotations: section 3.2.2 ----------

  function NextLane(p: (nat, nat)): (nat, nat) {
    (p.1, (2 * p.0 + 3 * p.1) % 5)
  }

  /** The lane that the walk of the standard is at when its counter is t. */
  function Walk(t: nat): (p: (nat, nat))
    ensures p.0 < 5 && p.1 < 5
  {
    if t == 0 then (1, 0) else NextLane(Walk(t - 1))
  }

  const TRIP: seq<(nat, nat)> := [
    (1, 0), (0, 2), (2, 1), (1, 2), (2, 3), (3, 3), (3, 0), (0, 1), (1, 3), (3, 1), (1, 4), (4, 4),
    (4, 0), (0, 3), (3, 4), (4, 3), (3, 2), (2, 2), (2, 0), (0, 4), (4, 2), (2, 4), (4, 1), (1, 1)
  ]

  /** When the walk reaches lane (x, y). */
  const VISIT: seq<seq<nat>> := [
    [24, 7, 1, 13, 19],
    [0, 23, 3, 8, 10],
    [18, 2, 17, 4, 21],
    [6, 9, 16, 5, 14],
    [12, 22, 20, 15, 11]
  ]

  lemma TripStep(t: nat)
    requires t < 23
    ensures TRIP[t + 1] == NextLane(TRIP[t])
  {
  }

  lemma {:induction false} TripIsWalk(t: nat)
    requires t < 24
    ensures Walk(t) == TRIP[t]
  {
    if t > 0 {
      TripIsWalk(t - 1);
      TripStep(t - 1);
    }
  }

  /** Every rotation of the table is the triangular number of its lane's place in the walk, and the
      walk visits every lane but the first, which is not rotated. */
  lemma RotationTableIsWalk(x: nat, y: nat)
    requires x < 5 && y < 5
    ensures x == y == 0 ==> Offset(x, y) == 0
    ensures !(x == y == 0) ==>
              exists t: nat :: t < 24 && Walk(t) == (x, y) && Offset(x, y) == ((t + 1) * (t + 2) / 2) % 64
  {
    if !(x == y == 0) {
      var t := VISIT[x][y];
      Visited(x, y);
      TripIsWalk(t);
    }
  }

  lemma Visited(x: nat, y: nat)
    requires x < 5 && y < 5 && !(x == y == 0)
    ensures var t := VISIT[x][y]; t < 24 && TRIP[t] == (x, y) && ROTATION[x][y] == ((t + 1) * (t + 2) / 2) % 64
  {
  }

  // ---------- Round constants: section 3.2.5 ----------

  /** The eight bits R[0] to R[7] of algorithm 5. */
  datatype Register = Register(r0: bool, r1: bool, r2: bool, r3: bool, r4: bool, r5: bool, r6: bool, r7: bool)

  function Next(r: Register): Register {
    Register(r.r7, r.r0, r.r1, r.r2, r.r3 != r.r7, r.r4 != r.r7, r.r5 != r.r7, r.r6)
  }

  function After(steps: nat): Register {
    if steps == 0 then Register(true, false, false, false, false, false, false, false) else Next(After(steps - 1))
  }

  /** The counter stays below 255, the length after which the register repeats. */
  function Rc(t: nat): bool {
    After(t).r0
  }

  function If(b: bool, n: nat): nat {
    if b then n else 0
  }

  /** Bit 2^j - 1 of the constant of round i is rc(j + 7i), for j from 0 to 6. */
  function StandardConstant(i: nat): nat {
    If(Rc(7 * i), 0x1) + If(Rc(1 + 7 * i), 0x2) + If(Rc(2 + 7 * i), 0x8) + If(Rc(3 + 7 * i), 0x80)
    + If(Rc(4 + 7 * i), 0x8000) + If(Rc(5 + 7 * i), 0x8000_0000) + If(Rc(6 + 7 * i), 0x8000_0000_0000_0000)
  }

  function Seven(r: Register): Register {
    Next(Next(Next(Next(Next(Next(Next(r)))))))
  }

  /** The constant that seven steps from r produce. */
  function Produced(r: Register): nat {
    If(r.r0, 0x1) + If(Next(r).r0, 0x2) + If(Next(Next(r)).r0, 0x8) + If(Next(Next(Next(r))).r0, 0x80)
    + If(Next(Next(Next(Next(r)))).r0, 0x8000) + If(Next(Next(Next(Next(Next(r))))).r0, 0x8000_0000)
    + If(Next(Next(Next(Next(Next(Next(r)))))).r0, 0x8000_0000_0000_0000)
  }

  lemma OneStep(t: nat, next: nat, r: Register)
    requires next == t + 1 && After(t) == r
    ensures After(next) == Next(r)
  {
  }

  lemma SevenAfter(t: nat, r: Register) returns (rs: seq<Register>)
    requires After(t) == r
    ensures |rs| == 8 && rs[0] == r && forall j :: 0 <= j < 7 ==> rs[j + 1] == Next(rs[j])
    ensures forall j :: 0 <= j <= 7 ==> After(j + t) == rs[j]
  {
    rs := [r];
    while |rs| < 8
      invariant 1 <= |rs| <= 8 && rs[0] == r && forall j :: 0 <= j < |rs| - 1 ==> rs[j + 1] == Next(rs[j])
      invariant forall j :: 0 <= j < |rs| ==> After(j + t) == rs[j]
    {
      var last := |rs| - 1;
      OneStep(last + t, last + 1 + t, rs[last]);
      rs := rs + [Next(rs[last])];
    }
  }

  /** The constant that a stretch of registers produces. */
  function Yield(rs: seq<Register>): nat
    requires |rs| == 8
  {
    If(rs[0].r0, 0x1) + If(rs[1].r0, 0x2) + If(rs[2].r0, 0x8) + If(rs[3].r0, 0x80)
    + If(rs[4].r0, 0x8000) + If(rs[5].r0, 0x8000_0000) + If(rs[6].r0, 0x8000_0000_0000_0000)
  }

  lemma SevenBits(i: nat, rs: seq<Register>)
    requires |rs| == 8 && forall j :: 0 <= j <= 7 ==> After(j + 7 * i) == rs[j]
    ensures StandardConstant(i) == Yield(rs)
  {
    assert Rc(0 + 7 * i) == rs[0].r0 && Rc(1 + 7 * i) == rs[1].r0 && Rc(2 + 7 * i) == rs[2].r0 && Rc(3 + 7 * i) == rs[3].r0;
    assert Rc(4 + 7 * i) == rs[4].r0 && Rc(5 + 7 * i) == rs[5].r0 && Rc(6 + 7 * i) == rs[6].r0;
  }

  lemma SevenNested(r: Register, rs: seq<Register>)
    requires |rs| == 8 && rs[0] == r && forall j :: 0 <= j < 7 ==> rs[j + 1] == Next(rs[j])
    ensures rs[7] == Seven(r) && Yield(rs) == Produced(r)
  {
    assert rs[1] == Next(rs[0]) && rs[2] == Next(rs[1]) && rs[3] == Next(rs[2]) && rs[4] == Next(rs[3]);
    assert rs[5] == Next(rs[4]) && rs[6] == Next(rs[5]) && rs[7] == Next(rs[6]);
  }

  lemma SevenSteps(i: nat, r: Register)
    requires After(7 * i) == r
    ensures After(7 * (i + 1)) == Seven(r)
    ensures StandardConstant(i) == Produced(r)
  {
    var rs := SevenAfter(7 * i, r);
    SevenBits(i, rs);
    SevenNested(r, rs);
    assert 7 * (i + 1) == 7 + 7 * i;
  }

  lemma AfterSeven(i: nat, r: Register, next: Register)
    requires i > 0 && After(7 * (i - 1)) == r && Seven(r) == next
    ensures After(7 * i) == next
  {
    SevenSteps(i - 1, r);
  }

  // The register at the start of each round, and the constant that it produces there.

  lemma Round0(i: nat) returns (r: Register)
    requires i == 0
    ensures After(7 * i) == r == Register(true, false, false, false, false, false, false, false)
    ensures Produced(r) == ROUND_CONSTANTS[i]
  {
    r := After(7 * i);
  }

  lemma Round1(i: nat) returns (r: Register)
    requires i == 1
    ensures After(7 * i) == r == Register(false, false, false, false, false, false, false, true)
    ensures Produced(r) == ROUND_CONSTANTS[i]
  {
    var before := Round0(i - 1);
    r := Seven(before);
    AfterSeven(i, before, r);
  }

  lemma Round2(i: nat) returns (r: Register)
    requires i == 2
    ensures After(7 * i) == r == Register(false, false, false, true, true, false, true, true)
    ensures Produced(r) == ROUND_CONSTANTS[i]
  {
    var before := Round1(i - 1);
    r := Seven(before);
    AfterSeven(i, before, r);
  }

  lemma Round3(i: nat) returns (r: Register)
    requires i == 3
    ensures After(7 * i) == r == Register(false, true, false, true, true, false, false, false)
    ensures Produced(r) == ROUND_CONSTANTS[i]
  {
    var before := Round2(i - 1);
    r := Seven(before);
    AfterSeven(i, before, r);
  }

  lemma Round4(i: nat) returns (r: Register)
    requires i == 4
    ensures After(7 * i) == r == Register(true, true, true, true, true, false, true, true)
    ensures Produced(r) == ROUND_CONSTANTS[i]
  {
    var before := Round3(i - 1);
    r := Seven(before);
    AfterSeven(i, before, r);
  }

  lemma Round5(i: nat) returns (r: Register)
    requires i == 5
    ensures After(7 * i) == r == Register(true, false, false, true, false, false, false, false)
    ensures Produced(r) == ROUND_CONSTANTS[i]
  {
    var before := Round4(i - 1);
    r := Seven(before);
    AfterSeven(i, before, r);
  }

  lemma Round6(i: nat) returns (r: Register)
    requires i == 6
    ensures After(7 * i) == r == Register(true, false, true, false, true, true, false, false)
    ensures Produced(r) == ROUND_CONSTANTS[i]
  {
    var before := Round5(i - 1);
    r := Seven(before);
    AfterSeven(i, before, r);
  }

  lemma Round7(i: nat) returns (r: Register)
    requires i == 7
    ensures After(7 * i) == r == Register(true, true, true, true, false, false, true, false)
    ensures Produced(r) == ROUND_CONSTANTS[i]
  {
    var before := Round6(i - 1);
    r := Seven(before);
    AfterSeven(i, before, r);
  }

  lemma Round8(i: nat) returns (r: Register)
    requires i == 8
    ensures After(7 * i) == r == Register(false, true, false, true, false, false, true, true)
    ensures Produced(r) == ROUND_CONSTANTS[i]
  {
    var before := Round7(i - 1);
    r := Seven(before);
    AfterSeven(i, before, r);
  }

  lemma Round9(i: nat) returns (r: Register)
    requires i == 9
    ensures After(7 * i) == r == Register(false, false, false, false, true, true, true, false)
    ensures Produced(r) == ROUND_CONSTANTS[i]
  {
    var before := Round8(i - 1);
    r := Seven(before);
    AfterSeven(i, before, r);
  }

  lemma Round10(i: nat) returns (r: Register)
    requires i == 10
    ensures After(7 * i) == r == Register(true, false, false, false, false, false, true, false)
    ensures Produced(r) == ROUND_CONSTANTS[i]
  {
    var before := Round9(i - 1);
    r := Seven(before);
    AfterSeven(i, before, r);
  }

  lemma Round11(i: nat) returns (r: Register)
    requires i == 11
    ensures After(7 * i) == r == Register(false, false, true, true, false, true, true, true)
    ensures Produced(r) == ROUND_CONSTANTS[i]
  {
    var before := Round10(i - 1);
    r := Seven(before);
    AfterSeven(i, before, r);
  }

  lemma Round12(i: nat) returns (r: Register)
    requires i == 12
    ensures After(7 * i) == r == Register(true, false, true, false, true, false, true, true)
    ensures Produced(r) == ROUND_CONSTANTS[i]
  {
    var before := Round11(i - 1);
    r := Seven(before);
    AfterSeven(i, before, r);
  }

  lemma Round13(i: nat) returns (r: Register)
    requires i == 13
    ensures After(7 * i) == r == Register(true, false, true, true, false, false, true, true)
    ensures Produced(r) == ROUND_CONSTANTS[i]
  {
    var before := Round12(i - 1);
    r := Seven(before);
    AfterSeven(i, before, r);
  }

  lemma Round14(i: nat) returns (r: Register)
    requires i == 14
    ensures After(7 * i) == r == Register(true, true, false, false, false, true, true, false)
    ensures Produced(r) == ROUND_CONSTANTS[i]
  {
    var before := Round13(i - 1);
    r := Seven(before);
    AfterSeven(i, before, r);
  }

  lemma Round15(i: nat) returns (r: Register)
    requires i == 15
    ensures After(7 * i) == r == Register(true, true, false, true, false, true, false, true)
    ensures Produced(r) == ROUND_CONSTANTS[i]
  {
    var before := Round14(i - 1);
    r := Seven(before);
    AfterSeven(i, before, r);
  }

  lemma Round16(i: nat) returns (r: Register)
    requires i == 16
    ensures After(7 * i) == r == Register(false, true, false, true, false, true, false, true)
    ensures Produced(r) == ROUND_CONSTANTS[i]
  {
    var before := Round15(i - 1);
    r := Seven(before);
    AfterSeven(i, before, r);
  }

  lemma Round17(i: nat) returns (r: Register)
    requires i == 17
    ensures After(7 * i) == r == Register(false, true, false, true, false, true, false, false)
    ensures Produced(r) == ROUND_CONSTANTS[i]
  {
    var before := Round16(i - 1);
    r := Seven(before);
    AfterSeven(i, before, r);
  }

  lemma Round18(i: nat) returns (r: Register)
    requires i == 18
    ensures After(7 * i) == r == Register(false, true, false, false, true, true, true, true)
    ensures Produced(r) == ROUND_CONSTANTS[i]
  {
    var before := Round17(i - 1);
    r := Seven(before);
    AfterSeven(i, before, r);
  }

  lemma Round19(i: nat) returns (r: Register)
    requires i == 19
    ensures After(7 * i) == r == Register(false, false, false, true, false, true, true, true)
    ensures Produced(r) == ROUND_CONSTANTS[i]
  {
    var before := Round18(i - 1);
    r := Seven(before);
    AfterSeven(i, before, r);
  }

  lemma Round20(i: nat) returns (r: Register)
    requires i == 20
    ensures After(7 * i) == r == Register(true, true, true, false, true, true, false, false)
    ensures Produced(r) == ROUND_CONSTANTS[i]
  {
    var before := Round19(i - 1);
    r := Seven(before);
    AfterSeven(i, before, r);
  }

  lemma Round21(i: nat) returns (r: Register)
    requires i == 21
    ensures After(7 * i) == r == Register(false, true, true, true, true, true, false, false)
    ensures Produced(r) == ROUND_CONSTANTS[i]
  {
    var before := Round20(i - 1);
    r := Seven(before);
    AfterSeven(i, before, r);
  }

  lemma Round22(i: nat) returns (r: Register)
    requires i == 22
    ensures After(7 * i) == r == Register(true, true, false, true, false, false, false, false)
    ensures Produced(r) == ROUND_CONSTANTS[i]
  {
    var before := Round21(i - 1);
    r := Seven(before);
    AfterSeven(i, before, r);
  }

  lemma Round23(i: nat) returns (r: Register)
    requires i == 23
    ensures After(7 * i) == r == Register(false, false, true, false, false, false, true, false)
    ensures Produced(r) == ROUND_CONSTANTS[i]
  {
    var before := Round22(i - 1);
    r := Seven(before);
    AfterSeven(i, before, r);
  }

  /** The constants of the table are the ones that the standard's shift register produces. */
  lemma RoundConstantsAreStandard(i: nat)
    requires i < 24
    ensures ROUND_CONSTANTS[i] == StandardConstant(i)
  {
    var r := ReachedRegister(i);
    SevenSteps(i, r);
  }

  lemma ReachedRegister(i: nat) returns (r: Register)
    requires i < 24
    ensures After(7 * i) == r && Produced(r) == ROUND_CONSTANTS[i]
  {
    match i
    case 0 => r := Round0(i);
    case 1 => r := Round1(i);
    case 2 => r := Round2(i);
    case 3 => r := Round3(i);
    case 4 => r := Round4(i);
    case 5 => r := Round5(i);
    case 6 => r := Round6(i);
    case 7 => r := Round7(i);
    case 8 => r := Round8(i);
    case 9 => r := Round9(i);
    case 10 => r := Round10(i);
    case 11 => r := Round11(i);
    case 12 => r := Round12(i);
    case 13 => r := Round13(i);
    case 14 => r := Round14(i);
    case 15 => r := Round15(i);
    case 16 => r := Round16(i);
    case 17 => r := Round17(i);
    case 18 => r := Round18(i);
    case 19 => r := Round19(i);
    case 20 => r := Round20(i);
    case 21 => r := Round21(i);
    case 22 => r := Round22(i);
    case _ => r := Round23(i);
  }
}
