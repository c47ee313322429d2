/** The values that an action is made of, and the two texts that carry one. */
module Trees {
  const TWO_TO_64: int := 0x1_0000_0000_0000_0000

  type uint64 = n: int | 0 <= n < TWO_TO_64

  datatype Tree =
    | Str(text: string)
    | Uint(number: uint64)
    | Bool(flag: bool)
    | Arr(items: seq<Tree>)
    | Map(fields: seq<Field>)

  datatype Field = Field(key: string, value: Tree)
}

/** MessagePack as the signer writes it, with a decoder for every form it uses. */
module MsgPack {
  import opened Types
  import opened Trees

  type byte = b: int | 0 <= b < 256

  type Bytes = seq<byte>

  /** A `std::string` holds bytes; a character above 255 does not occur in one. */
  predicate IsByteString(s: string) {
    forall i :: 0 <= i < |s| ==> s[i] as int < 256
  }

  function ToBytes(s: string): (b: Bytes)
    ensures |b| == |s|
  {
    seq(|s|, i requires 0 <= i < |s| => s[i] as int % 256)
  }

  function FromBytes(b: Bytes): (s: string)
    ensures |s| == |b| && IsByteString(s)
  {
    seq(|b|, i requires 0 <= i < |b| => b[i] as char)
  }

  lemma BytesRoundTrip(s: string)
    ensures FromBytes(ToBytes(s)) == s <==> IsByteString(s)
  {
    var t := FromBytes(ToBytes(s));
    assert |t| == |s|;
    if IsByteString(s) {
      assert forall i :: 0 <= i < |s| ==> t[i] == s[i];
    }
  }

  // ---------- Big-endian integers ----------

  function Pow256(n: nat): (p: int)
    ensures p > 0
  {
    if n == 0 then 1 else 256 * Pow256(n - 1)
  }

  /** The low n bytes of v, most significant first. */
  function BigEndian(v: nat, n: nat): (b: Bytes)
    ensures |b| == n
  {
    if n == 0 then [] else BigEndian(v / 256, n - 1) + [v % 256]
  }

  function BigValue(b: Bytes): nat {
    if b == [] then 0 else BigValue(b[..|b| - 1]) * 256 + b[|b| - 1]
  }

  lemma {:induction false} BigValueOfBigEndian(v: nat, n: nat)
    requires v < Pow256(n)
    ensures BigValue(BigEndian(v, n)) == v
    decreases n
  {
    if n > 0 {
      BigValueOfBigEndian(v / 256, n - 1);
      var b := BigEndian(v, n);
      assert b[..|b| - 1] == BigEndian(v / 256, n - 1);
    }
  }

  lemma {:induction false} BigValueBelow(b: Bytes)
    ensures BigValue(b) < Pow256(|b|)
  {
    if b != [] {
      BigValueBelow(b[..|b| - 1]);
    }
  }

  lemma Widths()
    ensures Pow256(1) == 0x100 && Pow256(2) == 0x1_0000 && Pow256(4) == 0x1_0000_0000 && Pow256(8) == TWO_TO_64
  {
    assert Pow256(3) == 256 * Pow256(2);
    assert Pow256(4) == 256 * Pow256(3);
    assert Pow256(5) == 256 * Pow256(4);
    assert Pow256(6) == 256 * Pow256(5);
    assert Pow256(7) == 256 * Pow256(6);
    assert Pow256(8) == 256 * Pow256(7);
  }

  /** v shifted right by 8n bits. */
  function ShiftRight(v: nat, n: nat): nat {
    if n == 0 then v else ShiftRight(v, n - 1) / 256
  }

  // ---------- What each call appends ----------

  /** A short string carries its length in the tag; a longer one in one byte, which truncates it. */
  function PackStr(s: string): Bytes {
    var size := |s| % 0x1_0000_0000;
    (if size <= 31 then [0xa0 + size] else [0xd9, size % 256]) + ToBytes(s)
  }

  function PackBool(value: bool): Bytes {
    [if value then 0xc3 else 0xc2]
  }

  function PackUint(value: uint64): Bytes {
    if value <= 0x7f then [value]
    else if value <= 0xff then [0xcc, value]
    else if value <= 0xffff then [0xcd] + BigEndian(value, 2)
    else if value <= 0xffff_ffff then [0xce] + BigEndian(value, 4)
    else [0xcf] + BigEndian(value, 8)
  }

  function PackArraySize(size: nat): Bytes {
    if size <= 15 then [0x90 + size] else [0xdc] + BigEndian(size, 2)
  }

  function PackMapSize(size: nat): Bytes {
    if size <= 15 then [0x80 + size] else [0xde] + BigEndian(size, 2)
  }

  /** The buffer that the packing calls append to. */
  class ByteBuffer {
    var data: Bytes

    constructor ()
      ensures data == []
    {
      data := [];
    }

    method PushBack(b: byte)
      modifies this
      ensures data == old(data) + [b]
    {
      data := data + [b];
    }

    /** The shift loop: from the highest of n bytes down to the lowest. */
    method PushShifted(value: nat, n: nat)
      modifies this
      ensures data == old(data) + BigEndian(value, n)
    {
      var i := n;
      while i > 0
        invariant 0 <= i <= n
        invariant data == old(data) + BigEndian(ShiftRight(value, i), n - i)
      {
        i := i - 1;
        data := data + [ShiftRight(value, i) % 256];
      }
    }

    method Str(value: string)
      modifies this
      ensures data == old(data) + PackStr(value)
    {
      var size := |value| % 0x1_0000_0000;
      if size <= 31 {
        PushBack(0xa0 + size);
      } else {
        PushBack(0xd9);
        PushBack(size % 256);
      }
      data := data + ToBytes(value);
    }

    method Boolean(value: bool)
      modifies this
      ensures data == old(data) + PackBool(value)
    {
      PushBack(if value then 0xc3 else 0xc2);
    }

    method Uint(value: uint64)
      modifies this
      ensures data == old(data) + PackUint(value)
    {
      if value <= 0x7f {
        PushBack(value);
      } else if value <= 0xff {
        PushBack(0xcc);
        PushBack(value);
      } else if value <= 0xffff {
        PushBack(0xcd);
        TwoBytes(value);
        PushBack((value / 256) % 256);
        PushBack(value % 256);
      } else if value <= 0xffff_ffff {
        PushBack(0xce);
        PushShifted(value, 4);
      } else {
        PushBack(0xcf);
        PushShifted(value, 8);
      }
    }

    method ArraySize(size: nat)
      modifies this
      ensures data == old(data) + PackArraySize(size)
    {
      if size <= 15 {
        PushBack(0x90 + size);
      } else {
        PushBack(0xdc);
        TwoBytes(size);
        PushBack((size / 256) % 256);
        PushBack(size % 256);
      }
    }

    method MapSize(size: nat)
      modifies this
      ensures data == old(data) + PackMapSize(size)
    {
      if size <= 15 {
        PushBack(0x80 + size);
      } else {
        PushBack(0xde);
        TwoBytes(size);
        PushBack((size / 256) % 256);
        PushBack(size % 256);
      }
    }
  }

  lemma TwoBytes(v: nat)
    ensures BigEndian(v, 2) == [(v / 256) % 256, v % 256]
  {
    assert BigEndian(v / 256, 1) == BigEndian(v / 256 / 256, 0) + [(v / 256) % 256];
  }

  // ---------- Decoding ----------

  /** The first item of a stream, up to the contents of strings, arrays and maps. */
  datatype Head = UintHead(value: uint64) | BoolHead(flag: bool) | StrHead(size: nat) | ArrHead(count: nat) | MapHead(count: nat)

  function Wide(b: Bytes, n: nat): Option<(int, Bytes)>
    requires |b| > 0
  {
    if |b| < 1 + n then None else Some((BigValue(b[1..1 + n]), b[1 + n..]))
  }

  function DecodeHead(b: Bytes): (r: Option<(Head, Bytes)>)
    ensures r.Some? ==> |r.value.1| < |b|
  {
    if b == [] then None else
    var tag := b[0];
    if tag <= 0x7f then Some((UintHead(tag), b[1..]))
    else if tag <= 0x8f then Some((MapHead(tag - 0x80), b[1..]))
    else if tag <= 0x9f then Some((ArrHead(tag - 0x90), b[1..]))
    else if tag <= 0xbf then Some((StrHead(tag - 0xa0), b[1..]))
    else if tag == 0xc2 then Some((BoolHead(false), b[1..]))
    else if tag == 0xc3 then Some((BoolHead(true), b[1..]))
    else
      var n := match tag case 0xcc => 1 case 0xd9 => 1 case 0xcd => 2 case 0xdc => 2 case 0xde => 2
                         case 0xce => 4 case 0xcf => 8 case _ => 0;
      if n == 0 then None else
      var w := Wide(b, n);
      if w.None? then None else
      var (v, rest) := w.value;
      BigValueBelow(b[1..1 + n]);
      Widths();
      if tag == 0xd9 then Some((StrHead(v), rest))
      else if tag == 0xdc then Some((ArrHead(v), rest))
      else if tag == 0xde then Some((MapHead(v), rest))
      else Some((UintHead(v), rest))
  }

  function Decode(b: Bytes): (r: Option<(Tree, Bytes)>)
    ensures r.Some? ==> |r.value.1| < |b|
    decreases |b|, 0
  {
    var h := DecodeHead(b);
    if h.None? then None else
    var rest := h.value.1;
    match h.value.0
    case UintHead(v) => Some((Uint(v), rest))
    case BoolHead(f) => Some((Bool(f), rest))
    case StrHead(size) =>
      if |rest| < size then None else Some((Str(FromBytes(rest[..size])), rest[size..]))
    case ArrHead(count) =>
      var items := DecodeItems(rest, count);
      if items.None? then None else Some((Arr(items.value.0), items.value.1))
    case MapHead(count) =>
      var fields := DecodeFields(rest, count);
      if fields.None? then None else Some((Map(fields.value.0), fields.value.1))
  }

  function DecodeItems(b: Bytes, count: nat): (r: Option<(seq<Tree>, Bytes)>)
    ensures r.Some? ==> |r.value.1| <= |b|
    decreases |b|, 1 + count
  {
    if count == 0 then Some(([], b)) else
    var first := Decode(b);
    if first.None? then None else
    var others := DecodeItems(first.value.1, count - 1);
    if others.None? then None else Some(([first.value.0] + others.value.0, others.value.1))
  }

  function DecodeFields(b: Bytes, count: nat): (r: Option<(seq<Field>, Bytes)>)
    ensures r.Some? ==> |r.value.1| <= |b|
    decreases |b|, 1 + count
  {
    if count == 0 then Some(([], b)) else
    var key := Decode(b);
    if key.None? || !key.value.0.Str? then None else
    var value := Decode(key.value.1);
    if value.None? then None else
    var others := DecodeFields(value.value.1, count - 1);
    if others.None? then None
    else Some(([Field(key.value.0.text, value.value.0)] + others.value.0, others.value.1))
  }

  // ---------- Encoding a whole tree ----------

  function Encode(t: Tree): Bytes
    decreases t, 1
  {
    match t
    case Str(s) => PackStr(s)
    case Uint(n) => PackUint(n)
    case Bool(f) => PackBool(f)
    case Arr(items) => PackArraySize(|items|) + EncodeItems(items)
    case Map(fields) => PackMapSize(|fields|) + EncodeFields(fields)
  }

  function EncodeItems(items: seq<Tree>): Bytes
    decreases items, 0
  {
    if items == [] then [] else Encode(items[0]) + EncodeItems(items[1..])
  }

  function EncodeFields(fields: seq<Field>): Bytes
    decreases fields, 0
  {
    if fields == [] then []
    else PackStr(fields[0].key) + Encode(fields[0].value) + EncodeFields(fields[1..])
  }

  /** What the length prefixes can carry. */
  predicate StrFits(s: string) {
    |s| <= 255 && IsByteString(s)
  }

  predicate Fits(t: Tree)
    decreases t, 1
  {
    match t
    case Str(s) => StrFits(s)
    case Arr(items) => |items| <= 0xffff && ItemsFit(items)
    case Map(fields) => |fields| <= 0xffff && FieldsFit(fields)
    case _ => true
  }

  predicate ItemsFit(items: seq<Tree>)
    decreases items, 0
  {
    items == [] || (Fits(items[0]) && ItemsFit(items[1..]))
  }

  predicate FieldsFit(fields: seq<Field>)
    decreases fields, 0
  {
    fields == [] || (StrFits(fields[0].key) && Fits(fields[0].value) && FieldsFit(fields[1..]))
  }

  lemma WideOf(tag: byte, value: nat, n: nat, rest: Bytes)
    requires value < Pow256(n)
    ensures Wide([tag] + BigEndian(value, n) + rest, n) == Some((value, rest))
  {
    var b := [tag] + BigEndian(value, n) + rest;
    assert b[1..1 + n] == BigEndian(value, n);
    assert b[1 + n..] == rest;
    BigValueOfBigEndian(value, n);
  }

  /** Every 64-bit unsigned integer decodes to itself, whatever follows it. */
  lemma UintRoundTrip(value: uint64, rest: Bytes)
    ensures DecodeHead(PackUint(value) + rest) == Some((UintHead(value), rest))
  {
    Widths();
    var b := PackUint(value) + rest;
    if value <= 0x7f {
      assert b[1..] == rest;
    } else if value <= 0xff {
      assert BigEndian(value, 1) == BigEndian(value / 256, 0) + [value];
      assert b == [0xcc] + BigEndian(value, 1) + rest;
      WideOf(0xcc, value, 1, rest);
    } else if value <= 0xffff {
      WideOf(0xcd, value, 2, rest);
    } else if value <= 0xffff_ffff {
      WideOf(0xce, value, 4, rest);
    } else {
      WideOf(0xcf, value, 8, rest);
    }
  }

  /** No stream of the decoder carries an integer in fewer bytes than the signer uses. */
  lemma UintIsShortest(b: Bytes)
    requires DecodeHead(b).Some? && DecodeHead(b).value.0.UintHead?
    ensures |b| - |DecodeHead(b).value.1| >= |PackUint(DecodeHead(b).value.0.value)|
  {
    Widths();
    if b[0] > 0x7f {
      var n := match b[0] case 0xcc => 1 case 0xcd => 2 case 0xce => 4 case _ => 8;
      BigValueBelow(b[1..1 + n]);
    }
  }

  lemma ArraySizeRoundTrip(size: nat, rest: Bytes)
    requires size <= 0xffff
    ensures DecodeHead(PackArraySize(size) + rest) == Some((ArrHead(size), rest))
  {
    Widths();
    if size <= 15 {
      assert (PackArraySize(size) + rest)[1..] == rest;
    } else {
      WideOf(0xdc, size, 2, rest);
    }
  }

  lemma MapSizeRoundTrip(size: nat, rest: Bytes)
    requires size <= 0xffff
    ensures DecodeHead(PackMapSize(size) + rest) == Some((MapHead(size), rest))
  {
    Widths();
    if size <= 15 {
      assert (PackMapSize(size) + rest)[1..] == rest;
    } else {
      WideOf(0xde, size, 2, rest);
    }
  }

  lemma StrHeadOf(s: string, rest: Bytes)
    requires |s| <= 255
    ensures DecodeHead(PackStr(s) + rest) == Some((StrHead(|s|), ToBytes(s) + rest))
  {
    Widths();
    var b := PackStr(s) + rest;
    var body := ToBytes(s) + rest;
    if |s| <= 31 {
      assert b[1..] == body;
    } else {
      assert BigEndian(|s|, 1) == BigEndian(|s| / 256, 0) + [|s|];
      assert b == [0xd9] + BigEndian(|s|, 1) + body;
      WideOf(0xd9, |s|, 1, body);
    }
  }

  /** A string decodes to itself, whatever follows, exactly when its length fits one byte. */
  lemma StrRoundTrip(s: string, rest: Bytes)
    requires IsByteString(s)
    ensures Decode(PackStr(s) + rest) == Some((Str(s), rest)) <==> |s| <= 255
  {
    var b := PackStr(s) + rest;
    if |s| <= 255 {
      StrHeadOf(s, rest);
      var body := ToBytes(s) + rest;
      assert body[..|s|] == ToBytes(s) && body[|s|..] == rest;
      BytesRoundTrip(s);
    } else {
      var size := |s| % 0x1_0000_0000;
      var h := DecodeHead(b);
      if size > 31 {
        assert b[1..2] == [size % 256];
        assert BigValue(b[1..2]) == BigValue(b[1..2][..0]) * 256 + size % 256;
      }
      assert h.Some? && h.value.0.StrHead? && h.value.0.size <= 255;
    }
  }

  /** Unique decodability: an encoded tree is read back exactly and the rest is left alone. */
  lemma {:induction false} DecodeEncode(t: Tree, rest: Bytes)
    requires Fits(t)
    ensures Decode(Encode(t) + rest) == Some((t, rest))
    decreases t, 1
  {
    match t
    case Str(s) => StrRoundTrip(s, rest);
    case Uint(n) => UintRoundTrip(n, rest);
    case Bool(f) => assert (PackBool(f) + rest)[1..] == rest;
    case Arr(items) =>
      var body := EncodeItems(items) + rest;
      DecodeEncodedItems(items, rest);
      ArraySizeRoundTrip(|items|, body);
      DecodeArr(PackArraySize(|items|) + body, items, body, rest);
      Regroup(PackArraySize(|items|), EncodeItems(items), rest);
    case Map(fields) =>
      var body := EncodeFields(fields) + rest;
      DecodeEncodedFields(fields, rest);
      MapSizeRoundTrip(|fields|, body);
      DecodeMap(PackMapSize(|fields|) + body, fields, body, rest);
      Regroup(PackMapSize(|fields|), EncodeFields(fields), rest);
  }

  lemma Regroup(a: Bytes, b: Bytes, c: Bytes)
    ensures (a + b) + c == a + (b + c)
  {
  }

  lemma DecodeArr(b: Bytes, items: seq<Tree>, body: Bytes, rest: Bytes)
    requires DecodeHead(b) == Some((ArrHead(|items|), body)) && DecodeItems(body, |items|) == Some((items, rest))
    ensures Decode(b) == Some((Arr(items), rest))
  {
  }

  lemma DecodeMap(b: Bytes, fields: seq<Field>, body: Bytes, rest: Bytes)
    requires DecodeHead(b) == Some((MapHead(|fields|), body)) && DecodeFields(body, |fields|) == Some((fields, rest))
    ensures Decode(b) == Some((Map(fields), rest))
  {
  }

  lemma {:induction false} DecodeEncodedItems(items: seq<Tree>, rest: Bytes)
    requires ItemsFit(items)
    ensures DecodeItems(EncodeItems(items) + rest, |items|) == Some((items, rest))
    decreases items, 0
  {
    if items == [] {
      assert EncodeItems(items) + rest == rest;
    } else {
      var others := EncodeItems(items[1..]) + rest;
      Regroup(Encode(items[0]), EncodeItems(items[1..]), rest);
      DecodeEncode(items[0], others);
      DecodeEncodedItems(items[1..], rest);
      assert [items[0]] + items[1..] == items;
    }
  }

  lemma FieldBytes(field: Field, others: Bytes, fields: seq<Field>, rest: Bytes)
    requires fields != [] && fields[0] == field && others == EncodeFields(fields[1..]) + rest
    ensures EncodeFields(fields) + rest == PackStr(field.key) + (Encode(field.value) + others)
  {
    Regroup(PackStr(field.key) + Encode(field.value), EncodeFields(fields[1..]), rest);
    Regroup(PackStr(field.key), Encode(field.value), others);
  }

  lemma {:induction false} DecodeEncodedFields(fields: seq<Field>, rest: Bytes)
    requires FieldsFit(fields)
    ensures DecodeFields(EncodeFields(fields) + rest, |fields|) == Some((fields, rest))
    decreases fields, 0
  {
    if fields == [] {
      assert EncodeFields(fields) + rest == rest;
    } else {
      var field, others := fields[0], EncodeFields(fields[1..]) + rest;
      DecodeEncode(field.value, others);
      DecodeEncodedFields(fields[1..], rest);
      StrRoundTrip(field.key, Encode(field.value) + others);
      FieldBytes(field, others, fields, rest);
      DecodeOneField(EncodeFields(fields) + rest, field, Encode(field.value) + others, others, fields[1..], rest);
      assert [field] + fields[1..] == fields;
    }
  }

  lemma DecodeOneField(b: Bytes, field: Field, b1: Bytes, b2: Bytes, others: seq<Field>, rest: Bytes)
    requires Decode(b) == Some((Str(field.key), b1)) && Decode(b1) == Some((field.value, b2))
    requires DecodeFields(b2, |others|) == Some((others, rest))
    ensures DecodeFields(b, 1 + |others|) == Some(([field] + others, rest))
  {
  }

  // ---------- What cannot be read back ----------

  lemma HeadFits(b: Bytes)
    requires DecodeHead(b).Some?
    ensures var h := DecodeHead(b).value.0;
            (h.StrHead? ==> h.size <= 255) && (h.ArrHead? ==> h.count <= 0xffff) && (h.MapHead? ==> h.count <= 0xffff)
  {
    Widths();
    if b[0] == 0xd9 {
      BigValueBelow(b[1..2]);
    } else if b[0] == 0xdc || b[0] == 0xde {
      BigValueBelow(b[1..3]);
    }
  }

  /** The decoder never yields a tree that its own length prefixes could not carry. */
  lemma {:induction false} DecodedFits(b: Bytes, t: Tree, rest: Bytes)
    requires Decode(b) == Some((t, rest))
    ensures Fits(t)
    decreases |b|, 0
  {
    HeadFits(b);
    var (h, body) := DecodeHead(b).value;
    match h
    case UintHead(_) =>
    case BoolHead(_) =>
    case StrHead(size) =>
    case ArrHead(count) => DecodedItemsFit(body, count, t.items, rest);
    case MapHead(count) => DecodedFieldsFit(body, count, t.fields, rest);
  }

  lemma {:induction false} DecodedItemsFit(b: Bytes, count: nat, items: seq<Tree>, rest: Bytes)
    requires DecodeItems(b, count) == Some((items, rest))
    ensures |items| == count && ItemsFit(items)
    decreases |b|, 1 + count
  {
    if count > 0 {
      var (first, body) := Decode(b).value;
      DecodedFits(b, first, body);
      assert items == [first] + items[1..];
      DecodedItemsFit(body, count - 1, items[1..], rest);
    }
  }

  lemma DecodedFieldsSplit(b: Bytes, count: nat, fields: seq<Field>, rest: Bytes)
    returns (b1: Bytes, b2: Bytes)
    requires count > 0 && DecodeFields(b, count) == Some((fields, rest))
    ensures fields != [] && Decode(b) == Some((Str(fields[0].key), b1)) && |b1| < |b|
    ensures Decode(b1) == Some((fields[0].value, b2)) && |b2| < |b1|
    ensures DecodeFields(b2, count - 1) == Some((fields[1..], rest))
  {
    b1 := Decode(b).value.1;
    b2 := Decode(b1).value.1;
    assert fields == [Field(Decode(b).value.0.text, Decode(b1).value.0)] + DecodeFields(b2, count - 1).value.0;
    assert fields[1..] == DecodeFields(b2, count - 1).value.0;
  }

  lemma {:induction false} DecodedFieldsFit(b: Bytes, count: nat, fields: seq<Field>, rest: Bytes)
    requires DecodeFields(b, count) == Some((fields, rest))
    ensures |fields| == count && FieldsFit(fields)
    decreases |b|, 1 + count
  {
    if count > 0 {
      var b1, b2 := DecodedFieldsSplit(b, count, fields, rest);
      DecodedFits(b, Str(fields[0].key), b1);
      DecodedFits(b1, fields[0].value, b2);
      DecodedFieldsFit(b2, count - 1, fields[1..], rest);
    }
  }

  /** A tree is read back from its bytes exactly when every length in it fits its prefix. */
  lemma ReadBackIffFits(t: Tree, rest: Bytes)
    ensures Decode(Encode(t) + rest) == Some((t, rest)) <==> Fits(t)
  {
    if Fits(t) {
      DecodeEncode(t, rest);
    } else if Decode(Encode(t) + rest) == Some((t, rest)) {
      DecodedFits(Encode(t) + rest, t, rest);
    }
  }
}
