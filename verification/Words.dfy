/** Machine words as their bits, least significant first: the order in which FIPS 202 reads the
    bits of a byte and of a lane. Shifts drop what leaves the word. */
module Words {
  type Word = w: seq<bool> | |w| == 64 witness seq(64, _ => false)

  type Byte = b: seq<bool> | |b| == 8 witness seq(8, _ => false)

  const ZERO_WORD: Word := seq(64, _ => false)

  const ZERO_BYTE: Byte := seq(8, _ => false)

  function Xor(a: Word, b: Word): Word {
    seq(64, z requires 0 <= z < 64 => a[z] != b[z])
  }

  function Or(a: Word, b: Word): Word {
    seq(64, z requires 0 <= z < 64 => a[z] || b[z])
  }

  function And(a: Word, b: Word): Word {
    seq(64, z requires 0 <= z < 64 => a[z] && b[z])
  }

  function Not(a: Word): Word {
    seq(64, z requires 0 <= z < 64 => !a[z])
  }

  function ShiftLeft(a: Word, n: nat): Word {
    seq(64, z requires 0 <= z < 64 => z >= n && a[z - n])
  }

  function ShiftRight(a: Word, n: nat): Word {
    seq(64, z requires 0 <= z < 64 => z + n < 64 && a[z + n])
  }

  /** A byte in the low bits of a word. */
  function Widen(b: Byte): Word {
    seq(64, z requires 0 <= z < 64 => z < 8 && b[z])
  }

  /** The low byte of a word. */
  function LowByte(a: Word): Byte {
    a[..8]
  }

  function Rotl64(x: Word, shift: nat): Word
    requires shift < 64
  {
    Or(ShiftLeft(x, shift), ShiftRight(x, 64 - shift))
  }

  /** The two shifts together are a rotation: bit z of the result is bit z - shift, modulo 64. */
  lemma RotlMovesBits(x: Word, shift: nat, z: nat)
    requires shift < 64 && z < 64
    ensures Rotl64(x, shift)[z] == x[(z + 64 - shift) % 64]
  {
    if z >= shift {
      assert (z + 64 - shift) % 64 == z - shift;
    } else {
      assert ShiftRight(x, 64 - shift)[z] == x[z + (64 - shift)];
    }
  }

  /** The `width` low bits of a number. */
  function Bits(n: nat, width: nat): (s: seq<bool>)
    ensures |s| == width
  {
    if width == 0 then [] else [n % 2 == 1] + Bits(n / 2, width - 1)
  }

  function Number(s: seq<bool>): nat {
    if s == [] then 0 else (if s[0] then 1 else 0) + 2 * Number(s[1..])
  }

  /** A number below 2^width is its bits. */
  lemma {:induction false} NumberOfBits(n: nat, width: nat)
    requires n < Pow2(width)
    ensures Number(Bits(n, width)) == n
    decreases width
  {
    if width > 0 {
      NumberOfBits(n / 2, width - 1);
      assert Bits(n, width)[1..] == Bits(n / 2, width - 1);
    }
  }

  function Pow2(n: nat): nat {
    if n == 0 then 1 else 2 * Pow2(n - 1)
  }

  lemma {:induction false} BitsOfNumber(s: seq<bool>)
    ensures Number(s) < Pow2(|s|) && Bits(Number(s), |s|) == s
  {
    if s != [] {
      BitsOfNumber(s[1..]);
      assert [s[0]] + s[1..] == s;
    }
  }
}
