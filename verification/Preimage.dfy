/** The signed bytes determine the request, the nonce and the vault, for every request. */
module Preimage {
  import opened Types
  import opened Trees
  import opened MsgPack
  import opened Actions
  import ActionLaws
  import D = Decimal

  // ---------- The order preimage, flat ----------

  /** Everything before the first field of the order. */
  function Front(): Bytes {
    PackMapSize(3) + (PackStr("type") + Encode(Str("order"))) + PackStr("orders") + PackArraySize(1) + PackMapSize(6)
  }

  function Target(o: Order): seq<Field> {
    [Field("a", Uint(o.asset)), Field("b", Bool(o.isBuy))]
  }

  function Terms(o: Order): seq<Field> {
    [Field("r", Bool(o.reduceOnly)), Field("t", Limit(o))]
  }

  function AfterSize(o: Order, tail: Bytes): Bytes {
    EncodeFields(Terms(o)) + (EncodeFields([Field("grouping", Str("na"))]) + tail)
  }

  function AfterPrice(o: Order, tail: Bytes): Bytes {
    PackStr("s") + (PackStr(Size(o)) + AfterSize(o, tail))
  }

  function Flat(o: Order, tail: Bytes): Bytes {
    Front() + (EncodeFields(Target(o)) + (PackStr("p") + (PackStr(Price(o)) + AfterPrice(o, tail))))
  }

  lemma EncodeOne(f: Field)
    ensures EncodeFields([f]) == PackStr(f.key) + Encode(f.value)
  {
    EncodeSnoc([], f);
    assert [] + [f] == [f];
    assert EncodeFields([]) == [];
  }

  lemma FlatWhat(o: Order, rest: Bytes)
    ensures EncodeFields(What(o)) + rest == EncodeFields(Target(o)) + (PackStr("p") + (PackStr(Price(o)) + rest))
  {
    var p := Field("p", Str(Price(o)));
    assert What(o) == Target(o) + [p];
    EncodeSnoc(Target(o), p);
    Regroup(EncodeFields(Target(o)), PackStr("p") + PackStr(Price(o)), rest);
    Regroup(PackStr("p"), PackStr(Price(o)), rest);
  }

  lemma FlatHow(o: Order, rest: Bytes)
    ensures EncodeFields(How(o)) + rest == PackStr("s") + (PackStr(Size(o)) + (EncodeFields(Terms(o)) + rest))
  {
    var s := Field("s", Str(Size(o)));
    assert How(o) == [s] + Terms(o);
    EncodeBoth([s], Terms(o));
    EncodeOne(s);
    Regroup(EncodeFields([s]), EncodeFields(Terms(o)), rest);
    Regroup(PackStr("s"), PackStr(Size(o)), EncodeFields(Terms(o)) + rest);
  }

  lemma FlatLeg(o: Order, rest: Bytes)
    ensures EncodeFields(Leg(o)) + rest
            == EncodeFields(Target(o)) + (PackStr("p") + (PackStr(Price(o))
               + (PackStr("s") + (PackStr(Size(o)) + (EncodeFields(Terms(o)) + rest)))))
  {
    EncodeBoth(What(o), How(o));
    Regroup(EncodeFields(What(o)), EncodeFields(How(o)), rest);
    FlatHow(o, rest);
    FlatWhat(o, EncodeFields(How(o)) + rest);
  }

  lemma FlatList(leg: seq<Field>, rest: Bytes)
    requires |leg| == 6
    ensures Encode(Arr([Map(leg)])) + rest == PackArraySize(1) + (PackMapSize(6) + (EncodeFields(leg) + rest))
  {
    SinglePacked([], Map(leg), [] + PackArraySize(1) + Encode(Map(leg)));
    assert [] + PackArraySize(1) + Encode(Map(leg)) == PackArraySize(1) + Encode(Map(leg));
    assert [] + Encode(Arr([Map(leg)])) == Encode(Arr([Map(leg)]));
    Regroup(PackArraySize(1), Encode(Map(leg)), rest);
    Regroup(PackMapSize(6), EncodeFields(leg), rest);
  }

  lemma FlatFields(kind: Field, orders: Field, grouping: Field, list: Bytes, tail: Bytes)
    requires list == Encode(orders.value)
    ensures Encode(Map([kind, orders, grouping])) + tail
            == (PackMapSize(3) + (PackStr(kind.key) + Encode(kind.value)) + PackStr(orders.key))
               + (list + (EncodeFields([grouping]) + tail))
  {
    var fields := [kind, orders, grouping];
    assert fields == [kind] + [orders, grouping] && [orders, grouping] == [orders] + [grouping];
    EncodeBoth([kind], [orders, grouping]);
    EncodeBoth([orders], [grouping]);
    EncodeOne(kind);
    EncodeOne(orders);
    var t, k, g := PackStr(kind.key) + Encode(kind.value), PackStr(orders.key), EncodeFields([grouping]);
    assert Encode(Map(fields)) == PackMapSize(3) + (t + ((k + list) + g));
    Spread(PackMapSize(3), t, k, list, g, tail);
  }

  lemma Spread(m: Bytes, t: Bytes, k: Bytes, list: Bytes, g: Bytes, tail: Bytes)
    ensures (m + (t + ((k + list) + g))) + tail == (m + t + k) + (list + (g + tail))
  {
    Regroup(m, t + ((k + list) + g), tail);
    Regroup(t, (k + list) + g, tail);
    Regroup(k + list, g, tail);
    Regroup(k, list, g + tail);
    Regroup(m + t, k, list + (g + tail));
    Regroup(m, t, k + (list + (g + tail)));
  }

  lemma OrderIsFlat(o: Order, tail: Bytes)
    ensures Encode(OrderTree(o)) + tail == Flat(o, tail)
  {
    var list := Arr([Map(Leg(o))]);
    var end := EncodeFields([Field("grouping", Str("na"))]) + tail;
    FlatFields(Field("type", Str("order")), Field("orders", list), Field("grouping", Str("na")), Encode(list), tail);
    FlatList(Leg(o), end);
    FlatLeg(o, end);
    var head, body := PackMapSize(3) + (PackStr("type") + Encode(Str("order"))) + PackStr("orders"), EncodeFields(Leg(o)) + end;
    Regroup(head, PackArraySize(1), PackMapSize(6) + body);
    Regroup(head + PackArraySize(1), PackMapSize(6), body);
  }

  // ---------- Peeling ----------

  /** Fields that fit are the same in equal bytes, and so is what follows. */
  lemma SameFields(x: seq<Field>, y: seq<Field>, restX: Bytes, restY: Bytes)
    requires |x| == |y| && FieldsFit(x) && FieldsFit(y)
    requires EncodeFields(x) + restX == EncodeFields(y) + restY
    ensures x == y && restX == restY
  {
    DecodeEncodedFields(x, restX);
    DecodeEncodedFields(y, restY);
  }

  predicate AmountByte(b: byte) {
    b == 0x2e || 0x30 <= b <= 0x39
  }

  predicate AmountBytes(b: Bytes) {
    forall i :: 0 <= i < |b| ==> AmountByte(b[i])
  }

  lemma SameUntil(x: Bytes, y: Bytes, restX: Bytes, restY: Bytes)
    requires AmountBytes(x) && AmountBytes(y) && x + restX == y + restY
    requires restX != [] && restY != [] && !AmountByte(restX[0]) && !AmountByte(restY[0])
    ensures x == y && restX == restY
  {
    var all := x + restX;
    assert all[|x|] == restX[0] && all[|y|] == (y + restY)[|y|] == restY[0];
    assert all == y + restY;
    assert |x| >= |y|;
    assert |y| >= |x|;
    assert x == all[..|x|] && y == (y + restY)[..|y|];
    assert restX == all[|x|..] && restY == (y + restY)[|y|..];
  }

  /** A price or size of any length is delimited by the label that follows it. */
  lemma SameAmount(x: nat, y: nat, restX: Bytes, restY: Bytes)
    requires restX != [] && restY != [] && !AmountByte(restX[0]) && !AmountByte(restY[0])
    requires PackStr(D.Wire(x, D.PLACES)) + restX == PackStr(D.Wire(y, D.PLACES)) + restY
    ensures x == y && restX == restY
  {
    var s, t := D.Wire(x, D.PLACES), D.Wire(y, D.PLACES);
    WireBytes(x);
    WireBytes(y);
    var p, q := PackStr(s) + restX, PackStr(t) + restY;
    var k := if p[0] == 0xd9 then 2 else 1;
    StrBody(s, restX, k);
    StrBody(t, restY, k);
    SameUntil(ToBytes(s), ToBytes(t), restX, restY);
    assert FromBytes(ToBytes(s)) == FromBytes(ToBytes(t));
    BytesRoundTrip(s);
    BytesRoundTrip(t);
    D.WireIsInjective(x, y, D.PLACES);
  }

  lemma StrBody(s: string, rest: Bytes, k: nat)
    requires k == if (PackStr(s) + rest)[0] == 0xd9 then 2 else 1
    ensures (PackStr(s) + rest)[k..] == ToBytes(s) + rest
  {
  }

  lemma WireBytes(units: nat)
    ensures IsByteString(D.Wire(units, D.PLACES)) && AmountBytes(ToBytes(D.Wire(units, D.PLACES)))
  {
    D.WireShape(units, D.PLACES);
    var a := D.Amount(D.Text(D.Shift(units, D.PLACES)), D.Fraction(units, D.PLACES));
    ShownBytes(a.whole, a.fraction);
  }

  lemma ShownBytes(whole: string, fraction: string)
    requires D.AllDigits(whole) && D.AllDigits(fraction)
    ensures var s := D.Show(D.Amount(whole, fraction)); IsByteString(s) && AmountBytes(ToBytes(s))
  {
    var s := D.Show(D.Amount(whole, fraction));
    assert forall i :: 0 <= i < |s| ==> D.IsDigit(s[i]) || s[i] == '.';
  }

  lemma SameTail(n: uint64, m: uint64, v: Option<Bytes>, w: Option<Bytes>)
    requires Tail(n, v) == Tail(m, w)
    ensures n == m && v == w
  {
    var x, y := if v.Some? then [1] + v.value else [0], if w.Some? then [1] + w.value else [0];
    assert Tail(n, v)[..8] == BigEndian(n, 8) && Tail(m, w)[..8] == BigEndian(m, 8);
    assert Tail(n, v)[8..] == x && Tail(m, w)[8..] == y;
    Widths();
    BigValueOfBigEndian(n, 8);
    BigValueOfBigEndian(m, 8);
    assert x[0] == y[0];
    if v.Some? {
      assert v.value == x[1..] && w.value == y[1..];
    }
  }

  lemma TargetFits(o: Order)
    ensures FieldsFit(Target(o))
  {
    TwoFit(Field("a", Uint(o.asset)), Field("b", Bool(o.isBuy)));
  }

  lemma TermsFit(o: Order)
    ensures FieldsFit(Terms(o))
  {
    LimitFits(o);
    TwoFit(Field("r", Bool(o.reduceOnly)), Field("t", Limit(o)));
  }

  // ---------- Injectivity ----------

  /** What the exchange is told: two requests that agree on it are the same order. */
  predicate SameOrder(a: Order, b: Order) {
    && a.asset == b.asset && a.isBuy == b.isBuy && a.priceUnits == b.priceUnits && a.sizeUnits == b.sizeUnits
    && a.reduceOnly == b.reduceOnly && Tif(a) == Tif(b)
  }

  lemma SameAfterSize(a: Order, b: Order, x: Bytes, y: Bytes)
    requires AfterSize(a, x) == AfterSize(b, y)
    ensures a.reduceOnly == b.reduceOnly && Tif(a) == Tif(b) && x == y
  {
    var g := EncodeFields([Field("grouping", Str("na"))]);
    TermsFit(a);
    TermsFit(b);
    SameFields(Terms(a), Terms(b), g + x, g + y);
    ActionLaws.DropFront(g, x, y);
    assert Terms(a)[0] == Terms(b)[0] && Terms(a)[1] == Terms(b)[1];
    SameTif(a, b);
  }

  lemma SameTif(a: Order, b: Order)
    requires Limit(a) == Limit(b)
    ensures Tif(a) == Tif(b)
  {
    var x, y := [Field("tif", Str(Tif(a)))], [Field("tif", Str(Tif(b)))];
    assert [Field("limit", Map(x))][0] == [Field("limit", Map(y))][0];
    assert x[0] == y[0];
  }

  lemma SameAfterPrice(a: Order, b: Order, x: Bytes, y: Bytes)
    requires AfterPrice(a, x) == AfterPrice(b, y)
    ensures a.sizeUnits == b.sizeUnits && a.reduceOnly == b.reduceOnly && Tif(a) == Tif(b) && x == y
  {
    ActionLaws.DropFront(PackStr("s"), PackStr(Size(a)) + AfterSize(a, x), PackStr(Size(b)) + AfterSize(b, y));
    TermsStart(a, x);
    TermsStart(b, y);
    SameAmount(a.sizeUnits, b.sizeUnits, AfterSize(a, x), AfterSize(b, y));
    SameAfterSize(a, b, x, y);
  }

  lemma TermsStart(o: Order, x: Bytes)
    ensures AfterSize(o, x) != [] && AfterSize(o, x)[0] == 0xa1
  {
    assert PackStr("r")[0] == 0xa1;
    assert EncodeFields(Terms(o)) == PackStr("r") + PackBool(o.reduceOnly) + EncodeFields(Terms(o)[1..]);
  }

  lemma SizeStarts(o: Order, x: Bytes)
    ensures AfterPrice(o, x) != [] && AfterPrice(o, x)[0] == 0xa1
  {
    assert PackStr("s")[0] == 0xa1;
  }

  lemma SameFlat(a: Order, b: Order, x: Bytes, y: Bytes)
    requires Flat(a, x) == Flat(b, y)
    ensures SameOrder(a, b) && x == y
  {
    var p := PackStr("p");
    var priceA, priceB := PackStr(Price(a)) + AfterPrice(a, x), PackStr(Price(b)) + AfterPrice(b, y);
    ActionLaws.DropFront(Front(), EncodeFields(Target(a)) + (p + priceA), EncodeFields(Target(b)) + (p + priceB));
    TargetFits(a);
    TargetFits(b);
    SameFields(Target(a), Target(b), p + priceA, p + priceB);
    assert Target(a)[0] == Target(b)[0] && Target(a)[1] == Target(b)[1];
    ActionLaws.DropFront(p, priceA, priceB);
    SizeStarts(a, x);
    SizeStarts(b, y);
    SameAmount(a.priceUnits, b.priceUnits, AfterPrice(a, x), AfterPrice(b, y));
    SameAfterPrice(a, b, x, y);
  }

  /** The hashed bytes of an order determine the order, the nonce and the vault, at any price and
      size: even where a length is truncated, no two different requests are hashed alike. */
  lemma OrderPreimageIsInjective(a: Order, b: Order, n: uint64, m: uint64, v: Option<Bytes>, w: Option<Bytes>)
    ensures OrderPreimage(a, n, v) == OrderPreimage(b, m, w) <==> SameOrder(a, b) && n == m && v == w
  {
    OrderIsFlat(a, Tail(n, v));
    OrderIsFlat(b, Tail(m, w));
    if OrderPreimage(a, n, v) == OrderPreimage(b, m, w) {
      SameFlat(a, b, Tail(n, v), Tail(m, w));
      SameTail(n, m, v, w);
    }
  }

  /** So do those of a cancel. */
  lemma CancelPreimageIsInjective(a: uint64, b: uint64, i: uint64, j: uint64,
                                                     n: uint64, m: uint64, v: Option<Bytes>, w: Option<Bytes>)
    ensures CancelPreimage(a, i, n, v) == CancelPreimage(b, j, m, w) <==> a == b && i == j && n == m && v == w
  {
    if CancelPreimage(a, i, n, v) == CancelPreimage(b, j, m, w) {
      ActionLaws.CancelTreeFits(a, i);
      ActionLaws.CancelTreeFits(b, j);
      DecodeEncode(CancelTree(a, i), Tail(n, v));
      DecodeEncode(CancelTree(b, j), Tail(m, w));
      SameTail(n, m, v, w);
      SameCancel(a, b, i, j);
    }
  }

  lemma SameCancel(a: uint64, b: uint64, i: uint64, j: uint64)
    requires CancelTree(a, i) == CancelTree(b, j)
    ensures a == b && i == j
  {
    var x, y := CancelLeg(a, i), CancelLeg(b, j);
    assert CancelTree(a, i).fields[1].value.items[0] == CancelTree(b, j).fields[1].value.items[0];
    assert x[0] == y[0] && x[1] == y[1];
  }

  /** An order and a cancel are never hashed alike. */
  lemma OrderIsNoCancel(o: Order, asset: uint64, oid: uint64, n: uint64, m: uint64, v: Option<Bytes>, w: Option<Bytes>)
    ensures OrderPreimage(o, n, v) != CancelPreimage(asset, oid, m, w)
  {
    MapTag(OrderFields(Arr([Map(Leg(o))])), Tail(n, v));
    MapTag([Field("type", Str("cancel")), Field("cancels", Arr([Map(CancelLeg(asset, oid))]))], Tail(m, w));
  }

  lemma MapTag(fields: seq<Field>, rest: Bytes)
    requires |fields| <= 15
    ensures (Encode(Map(fields)) + rest)[0] == 0x80 + |fields|
  {
    assert Encode(Map(fields)) == PackMapSize(|fields|) + EncodeFields(fields);
  }
}
