/** The sponge of FIPS 202 sections 4 and 5.1 with Keccak's original padding, which has no domain
    suffix, and the byte-wise hash that computes it. */
module Sponge {
  import opened Words
  import opened Keccak

  const RATE_BYTES := 136
  const RATE := 1088

  // ---------- The sponge on bit strings ----------

  function Zeros(n: nat): seq<bool> {
    seq(n, _ => false)
  }

  /** pad10*1(RATE, m): a one, as many zeros as needed, and a one. */
  function Pad(m: nat): (p: seq<bool>)
    ensures |p| >= 2 && (m + |p|) % RATE == 0
  {
    var j := (-2 - m) % RATE;
    PadFits(m, j);
    [true] + Zeros(j) + [true]
  }

  lemma PadFits(m: nat, j: nat)
    requires j == (-2 - m) % RATE
    ensures (m + j + 2) % RATE == 0
  {
    var q := (-2 - m) / RATE;
    assert -2 - m == RATE * q + j;
    Multiple(m + j + 2, -q);
  }

  lemma Multiple(n: int, q: int)
    requires n == RATE * q
    ensures n % RATE == 0
  {
  }

  function XorBlock(a: State, block: seq<bool>): State
    requires |block| == RATE
  {
    seq(25, i requires 0 <= i < 25 => if i < 17 then Xor(a[i], block[64 * i..64 * i + 64]) else a[i])
  }

  function Absorb(p: seq<bool>): State
    requires |p| % RATE == 0
    decreases |p|
  {
    if |p| < RATE then seq(25, _ => ZERO_WORD)
    else
      var n := |p| - RATE;
      Multiple(n, |p| / RATE - 1);
      KeccakP(XorBlock(Absorb(p[..n]), p[n..]))
  }

  /** The first 256 bits of the state. */
  function Squeeze(a: State): seq<bool> {
    var first: seq<bool> := a[0];
    first + a[1] + a[2] + a[3]
  }

  function Digest(message: seq<bool>): seq<bool> {
    Squeeze(Absorb(message + Pad(|message|)))
  }

  /** No two messages, of whatever lengths, are padded to the same string. */
  lemma PaddingIsInjective(m: seq<bool>, n: seq<bool>)
    requires m + Pad(|m|) == n + Pad(|n|)
    ensures m == n
  {
    var s, t := m + Pad(|m|), n + Pad(|n|);
    PadBits(m);
    PadBits(n);
    assert !(|m| < |n|);
    assert !(|n| < |m|);
    assert m == s[..|m|] && n == t[..|n|];
  }

  lemma PadBits(m: seq<bool>)
    ensures var s := m + Pad(|m|);
            s[|m|] && s[|s| - 1] && forall i :: |m| < i < |s| - 1 ==> !s[i]
  {
  }

  // ---------- Bytes ----------

  /** Byte strings are bit strings, each byte from its low bit up. */
  function Concat(data: seq<Byte>): (s: seq<bool>)
    ensures |s| == 8 * |data|
  {
    seq(8 * |data|, z requires 0 <= z < 8 * |data| => data[z / 8][z % 8])
  }

  function XorByte(a: Byte, b: Byte): Byte {
    seq(8, z requires 0 <= z < 8 => a[z] != b[z])
  }

  lemma ConcatAppend(a: seq<Byte>, b: seq<Byte>)
    ensures Concat(a + b) == Concat(a) + Concat(b)
  {
    var s, t := Concat(a + b), Concat(a) + Concat(b);
    forall z | 0 <= z < |s| ensures s[z] == t[z] {
      if z >= 8 * |a| {
        assert (z - 8 * |a|) / 8 == z / 8 - |a| && (z - 8 * |a|) % 8 == z % 8;
      }
    }
  }

  /** The eight bytes from k on, shifted into place one after the other. */
  method LoadLane(data: seq<Byte>, k: nat) returns (lane: Word)
    requires k + 8 <= |data|
    ensures lane == Concat(data)[8 * k..8 * k + 64]
  {
    lane := ZERO_WORD;
    for j := 0 to 8
      invariant forall z :: 0 <= z < 64 ==> lane[z] == (z < 8 * j && data[k + z / 8][z % 8])
    {
      ghost var before := lane;
      lane := Or(lane, ShiftLeft(Widen(data[k + j]), 8 * j));
      forall z | 0 <= z < 64 ensures lane[z] == (z < 8 * (j + 1) && data[k + z / 8][z % 8]) {
        if 8 * j <= z < 8 * j + 8 {
          assert z / 8 == j && z % 8 == z - 8 * j;
        }
      }
    }
    ghost var bits := Concat(data);
    forall z | 0 <= z < 64 ensures lane[z] == bits[8 * k + z] {
      assert (8 * k + z) / 8 == k + z / 8 && (8 * k + z) % 8 == z % 8;
    }
  }

  method AbsorbBlock(state: array<Word>, data: seq<Byte>, offset: nat)
    requires state.Length == 25 && offset + RATE_BYTES <= |data|
    modifies state
    ensures state[..] == KeccakP(XorBlock(old(state[..]), Concat(data)[8 * offset..8 * offset + RATE]))
  {
    XorLanes(state, data, offset, Concat(data)[8 * offset..8 * offset + RATE]);
    KeccakF(state);
  }

  method XorLanes(state: array<Word>, data: seq<Byte>, offset: nat, ghost block: seq<bool>)
    requires state.Length == 25 && offset + RATE_BYTES <= |data|
    requires block == Concat(data)[8 * offset..8 * offset + RATE]
    modifies state
    ensures state[..] == XorBlock(old(state[..]), block)
  {
    for i := 0 to 17
      invariant forall k :: 0 <= k < i ==> state[k] == Xor(old(state[k]), block[64 * k..64 * k + 64])
      invariant forall k :: i <= k < 25 ==> state[k] == old(state[k])
    {
      var lane := LoadLane(data, offset + 8 * i);
      assert lane == block[64 * i..64 * i + 64];
      state[i] := Xor(state[i], lane);
    }
  }

  /** The last block: what remains of the data, 0x01 behind it and 0x80 in the last byte. */
  method LastBlock(data: seq<Byte>, offset: nat) returns (block: array<Byte>)
    requires offset <= |data| < offset + RATE_BYTES
    ensures fresh(block) && block.Length == RATE_BYTES
    ensures var remaining := |data| - offset;
            Concat(block[..]) == Concat(data[offset..]) + ([true] + Zeros(RATE - 8 * remaining - 2) + [true])
  {
    block := new Byte[RATE_BYTES];
    for i := 0 to RATE_BYTES
      invariant forall k :: 0 <= k < i ==> block[k] == ZERO_BYTE
    {
      block[i] := ZERO_BYTE;
    }
    var remaining := |data| - offset;
    for i := 0 to remaining
      invariant forall k :: 0 <= k < RATE_BYTES ==> block[k] == if k < i then data[offset + k] else ZERO_BYTE
    {
      block[i] := data[offset + i];
    }
    block[remaining] := Bits(0x01, 8);
    block[RATE_BYTES - 1] := XorByte(block[RATE_BYTES - 1], Bits(0x80, 8));
    PaddedBlock(data[offset..], block[..]);
  }

  lemma PaddedBlock(rest: seq<Byte>, block: seq<Byte>)
    requires |rest| < RATE_BYTES && |block| == RATE_BYTES
    requires forall k :: 0 <= k < |rest| ==> block[k] == rest[k]
    requires var first := Bits(0x01, 8);
             && (|rest| < RATE_BYTES - 1 ==> block[|rest|] == first)
             && block[RATE_BYTES - 1] == XorByte(if |rest| == RATE_BYTES - 1 then first else ZERO_BYTE, Bits(0x80, 8))
    requires forall k :: |rest| < k < RATE_BYTES - 1 ==> block[k] == ZERO_BYTE
    ensures Concat(block) == Concat(rest) + ([true] + Zeros(RATE - 8 * |rest| - 2) + [true])
  {
    var s, t := Concat(block), Concat(rest) + ([true] + Zeros(RATE - 8 * |rest| - 2) + [true]);
    assert |s| == RATE == |t|;
    forall z | 0 <= z < RATE ensures s[z] == t[z] {
      BlockBit(rest, block, z);
      PaddedBit(rest, z);
    }
  }

  /** Bit z of the padded last block. */
  function LastBit(rest: seq<Byte>, z: nat): bool {
    if z < 8 * |rest| then rest[z / 8][z % 8] else z == 8 * |rest| || z == RATE - 1
  }

  lemma PaddedBit(rest: seq<Byte>, z: nat)
    requires |rest| < RATE_BYTES && z < RATE
    ensures (Concat(rest) + ([true] + Zeros(RATE - 8 * |rest| - 2) + [true]))[z] == LastBit(rest, z)
  {
  }

  lemma BlockBit(rest: seq<Byte>, block: seq<Byte>, z: nat)
    requires |rest| < RATE_BYTES && |block| == RATE_BYTES && z < RATE
    requires forall k :: 0 <= k < |rest| ==> block[k] == rest[k]
    requires var first := Bits(0x01, 8);
             && (|rest| < RATE_BYTES - 1 ==> block[|rest|] == first)
             && block[RATE_BYTES - 1] == XorByte(if |rest| == RATE_BYTES - 1 then first else ZERO_BYTE, Bits(0x80, 8))
    requires forall k :: |rest| < k < RATE_BYTES - 1 ==> block[k] == ZERO_BYTE
    ensures Concat(block)[z] == LastBit(rest, z)
  {
    PadBytes();
    var k := z / 8;
    assert Concat(block)[z] == block[k][z % 8];
    if k == RATE_BYTES - 1 {
      assert block[k][z % 8] == (z % 8 == 7 || (k == |rest| && z % 8 == 0));
    } else if k == |rest| {
      assert block[k][z % 8] == (z % 8 == 0);
    }
  }

  lemma PadBytes()
    ensures Bits(0x01, 8) == [true, false, false, false, false, false, false, false]
    ensures Bits(0x80, 8) == [false, false, false, false, false, false, false, true]
  {
  }

  method Keccak256(data: seq<Byte>) returns (output: seq<Byte>)
    ensures |output| == 32 && Concat(output) == Digest(Concat(data))
  {
    var state := new Word[25](_ => ZERO_WORD);
    assert state[..] == Absorb([]);
    var offset := AbsorbWhole(state, data);
    var block := LastBlock(data, offset);
    AbsorbBlock(state, block[..], 0);
    AbsorbLast(data, offset, block[..]);
    output := Emit(state);
  }

  method AbsorbWhole(state: array<Word>, data: seq<Byte>) returns (offset: nat)
    requires state.Length == 25 && state[..] == Absorb([])
    modifies state
    ensures offset <= |data| < offset + RATE_BYTES && offset % RATE_BYTES == 0
    ensures Absorbed(state[..], data[..offset])
  {
    offset := 0;
    assert Concat(data[..0]) == [];
    while offset + RATE_BYTES <= |data|
      invariant offset % RATE_BYTES == 0 && offset <= |data|
      invariant Absorbed(state[..], data[..offset])
    {
      AbsorbOne(state, data, offset);
      NextMultiple(offset);
      offset := offset + RATE_BYTES;
    }
  }

  /** The state after whole blocks of data. */
  ghost predicate Absorbed(a: State, whole: seq<Byte>) {
    |Concat(whole)| % RATE == 0 && a == Absorb(Concat(whole))
  }

  lemma NextMultiple(offset: nat)
    requires offset % RATE_BYTES == 0
    ensures (offset + RATE_BYTES) % RATE_BYTES == 0
  {
  }

  method AbsorbOne(state: array<Word>, data: seq<Byte>, offset: nat)
    requires state.Length == 25 && offset + RATE_BYTES <= |data| && Absorbed(state[..], data[..offset])
    modifies state
    ensures Absorbed(state[..], data[..offset + RATE_BYTES])
  {
    AbsorbBlock(state, data, offset);
    AbsorbNext(data, offset);
  }

  /** The first four lanes, byte by byte. */
  method Emit(state: array<Word>) returns (output: seq<Byte>)
    requires state.Length == 25
    ensures |output| == 32 && Concat(output) == Squeeze(state[..])
  {
    output := [];
    for i := 0 to 32
      invariant |output| == i
      invariant forall k :: 0 <= k < i ==> output[k] == LowByte(ShiftRight(state[k / 8], 8 * (k % 8)))
    {
      output := output + [LowByte(ShiftRight(state[i / 8], 8 * (i % 8)))];
    }
    SqueezedBytes(state[..], output);
  }

  lemma AbsorbStep(p: seq<bool>, block: seq<bool>)
    requires |p| % RATE == 0 && |block| == RATE
    ensures |p + block| % RATE == 0 && Absorb(p + block) == KeccakP(XorBlock(Absorb(p), block))
  {
    var s, n := p + block, |p + block| - RATE;
    assert s[..n] == p && s[n..] == block;
  }

  lemma AbsorbNext(data: seq<Byte>, offset: nat)
    requires offset + RATE_BYTES <= |data| && |Concat(data[..offset])| % RATE == 0
    ensures |Concat(data[..offset + RATE_BYTES])| % RATE == 0
    ensures Absorb(Concat(data[..offset + RATE_BYTES]))
            == KeccakP(XorBlock(Absorb(Concat(data[..offset])), Concat(data)[8 * offset..8 * offset + RATE]))
  {
    var p, block := Concat(data[..offset]), Concat(data)[8 * offset..8 * offset + RATE];
    assert Concat(data[..offset + RATE_BYTES]) == p + block;
    AbsorbStep(p, block);
  }

  lemma AbsorbLast(data: seq<Byte>, offset: nat, block: seq<Byte>)
    requires offset <= |data| < offset + RATE_BYTES && offset % RATE_BYTES == 0
    requires |Concat(data[..offset])| % RATE == 0 && |block| == RATE_BYTES
    requires Concat(block) == Concat(data[offset..]) + ([true] + Zeros(RATE - 8 * (|data| - offset) - 2) + [true])
    ensures Absorb(Concat(data) + Pad(8 * |data|))
            == KeccakP(XorBlock(Absorb(Concat(data[..offset])), Concat(block)[0..RATE]))
  {
    var j := RATE - 8 * (|data| - offset) - 2;
    PadLength(|data|, offset, j);
    var p, bits := Concat(data[..offset]), Concat(block);
    ConcatAppend(data[..offset], data[offset..]);
    assert data[..offset] + data[offset..] == data;
    assert (p + Concat(data[offset..])) + Pad(8 * |data|) == p + bits;
    assert bits[0..RATE] == bits;
    AbsorbStep(p, bits);
  }

  lemma PadLength(size: nat, offset: nat, j: nat)
    requires offset <= size < offset + RATE_BYTES && offset % RATE_BYTES == 0
    requires j == RATE - 8 * (size - offset) - 2
    ensures (-2 - 8 * size) % RATE == j
  {
    var q := offset / RATE_BYTES;
    assert -2 - 8 * size == RATE * (-q - 1) + j;
    Residue(-2 - 8 * size, -q - 1, j);
  }

  lemma Residue(n: int, q: int, r: nat)
    requires n == RATE * q + r && r < RATE
    ensures n % RATE == r
  {
  }

  lemma SqueezedBytes(a: State, output: seq<Byte>)
    requires |output| == 32
    requires forall k :: 0 <= k < 32 ==> output[k] == LowByte(ShiftRight(a[k / 8], 8 * (k % 8)))
    ensures Concat(output) == Squeeze(a)
  {
    var s, t := Concat(output), Squeeze(a);
    forall z | 0 <= z < 256 ensures s[z] == t[z] {
      var k := z / 8;
      assert s[z] == output[k][z % 8] == a[k / 8][z % 8 + 8 * (k % 8)];
      SqueezedBit(a, z);
      assert k / 8 == z / 64 && z % 8 + 8 * (k % 8) == z % 64;
    }
  }

  lemma SqueezedBit(a: State, z: nat)
    requires z < 256
    ensures Squeeze(a)[z] == a[z / 64][z % 64]
  {
  }
}
