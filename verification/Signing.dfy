/** From an action to the hash that is signed. */
module Signing {
  import opened Types
  import opened Trees
  import M = MsgPack
  import opened Words
  import A = Actions
  import P = Preimage
  import S = Sponge

  function Octets(b: M.Bytes): (s: seq<Byte>)
    ensures |s| == |b|
  {
    seq(|b|, i requires 0 <= i < |b| => Bits(b[i], 8))
  }

  /** The bits that the hash reads of a byte buffer. */
  function MessageBits(b: M.Bytes): seq<bool> {
    S.Concat(Octets(b))
  }

  method OrderActionHash(signer: A.Signer, o: A.Order, nonce: uint64) returns (hash: seq<Byte>)
    ensures |hash| == 32
    ensures S.Concat(hash) == S.Digest(MessageBits(A.OrderPreimage(o, nonce, signer.vault)))
  {
    var out := signer.OrderBytes(o, nonce);
    hash := S.Keccak256(Octets(out.data));
  }

  /** No hash when the order id is not a number. */
  method CancelActionHash(signer: A.Signer, asset: uint64, oid: string, nonce: uint64) returns (hash: Option<seq<Byte>>)
    ensures hash.Some? <==> A.Stoull(oid).Some?
    ensures hash.Some? ==> |hash.value| == 32
    ensures hash.Some? ==>
              S.Concat(hash.value) == S.Digest(MessageBits(A.CancelPreimage(asset, A.Stoull(oid).value, nonce, signer.vault)))
  {
    var out := signer.CancelBytes(asset, oid, nonce);
    if out == null {
      return None;
    }
    var digest := S.Keccak256(Octets(out.data));
    hash := Some(digest);
  }

  lemma BitsDetermine(a: M.Bytes, b: M.Bytes)
    requires MessageBits(a) == MessageBits(b)
    ensures a == b
  {
    assert |MessageBits(a)| == 8 * |a| && |MessageBits(b)| == 8 * |b|;
    forall i | 0 <= i < |a| ensures a[i] == b[i] {
      OctetAt(a, i);
      OctetAt(b, i);
      assert Pow2(8) == 256;
      NumberOfBits(a[i], 8);
      NumberOfBits(b[i], 8);
    }
  }

  lemma OctetAt(b: M.Bytes, i: nat)
    requires i < |b|
    ensures MessageBits(b)[8 * i..8 * i + 8] == Bits(b[i], 8)
  {
    forall z | 0 <= z < 8 ensures MessageBits(b)[8 * i + z] == Bits(b[i], 8)[z] {
      assert (8 * i + z) / 8 == i && (8 * i + z) % 8 == z;
    }
  }

  function Absorbed(b: M.Bytes): seq<bool> {
    MessageBits(b) + S.Pad(|MessageBits(b)|)
  }

  /** The whole pipeline up to the permutation loses nothing: two order actions that the sponge
      absorbs alike are the same order with the same nonce and vault. */
  lemma AbsorbedOrderIsUnique(a: A.Order, b: A.Order, n: uint64, m: uint64, v: Option<M.Bytes>, w: Option<M.Bytes>)
    ensures Absorbed(A.OrderPreimage(a, n, v)) == Absorbed(A.OrderPreimage(b, m, w))
            <==> P.SameOrder(a, b) && n == m && v == w
  {
    var x, y := A.OrderPreimage(a, n, v), A.OrderPreimage(b, m, w);
    P.OrderPreimageIsInjective(a, b, n, m, v, w);
    if Absorbed(x) == Absorbed(y) {
      S.PaddingIsInjective(MessageBits(x), MessageBits(y));
      BitsDetermine(x, y);
    }
  }

  /** And no cancel is absorbed like an order. */
  lemma AbsorbedOrderIsNoCancel(o: A.Order, asset: uint64, oid: uint64, n: uint64, m: uint64,
                                v: Option<M.Bytes>, w: Option<M.Bytes>)
    ensures Absorbed(A.OrderPreimage(o, n, v)) != Absorbed(A.CancelPreimage(asset, oid, m, w))
  {
    var x, y := A.OrderPreimage(o, n, v), A.CancelPreimage(asset, oid, m, w);
    if Absorbed(x) == Absorbed(y) {
      S.PaddingIsInjective(MessageBits(x), MessageBits(y));
      BitsDetermine(x, y);
      P.OrderIsNoCancel(o, asset, oid, n, m, v, w);
    }
  }
}
