/** The order and cancel actions of the Hyperliquid signer: the bytes that are hashed and the JSON
    that is posted. */
module Actions {
  import opened Types
  import opened Trees
  import opened MsgPack
  import D = Decimal
  import J = JsonText

  /** A limit order with price and size already rounded, in units of 10^-8. */
  datatype Order = Order(asset: uint64, isBuy: bool, priceUnits: nat, sizeUnits: nat, postOnly: bool, ioc: bool, reduceOnly: bool)

  function Tif(o: Order): string {
    if o.ioc then "Ioc" else if o.postOnly then "Alo" else "Gtc"
  }

  function Price(o: Order): string {
    D.Wire(o.priceUnits, D.PLACES)
  }

  function Size(o: Order): string {
    D.Wire(o.sizeUnits, D.PLACES)
  }

  function Flag(f: bool): string {
    if f then "true" else "false"
  }

  // ---------- What is posted ----------

  function OrderJson(o: Order): string {
    "{\"type\":\"order\",\"orders\":[{\"a\":" + (D.Text(o.asset)
    + (",\"b\":" + (Flag(o.isBuy)
    + (",\"p\":\"" + (Price(o)
    + ("\",\"s\":\"" + (Size(o)
    + ("\",\"r\":" + (Flag(o.reduceOnly)
    + (",\"t\":{\"limit\":{\"tif\":\"" + (Tif(o)
    + "\"}}}],\"grouping\":\"na\"}")))))))))))
  }

  function CancelJson(asset: uint64, oid: string): string {
    "{\"type\":\"cancel\",\"cancels\":[{\"a\":" + (D.Text(asset) + (",\"o\":" + (oid + "}]}")))
  }

  // ---------- What both stand for ----------

  function What(o: Order): seq<Field> {
    [Field("a", Uint(o.asset)), Field("b", Bool(o.isBuy)), Field("p", Str(Price(o)))]
  }

  function How(o: Order): seq<Field> {
    [Field("s", Str(Size(o))), Field("r", Bool(o.reduceOnly)), Field("t", Limit(o))]
  }

  function Leg(o: Order): seq<Field> {
    What(o) + How(o)
  }

  function Limit(o: Order): Tree {
    Map([Field("limit", Map([Field("tif", Str(Tif(o)))]))])
  }

  function OrderFields(orders: Tree): seq<Field> {
    [Field("type", Str("order")), Field("orders", orders), Field("grouping", Str("na"))]
  }

  function OrderTree(o: Order): Tree {
    Map(OrderFields(Arr([Map(Leg(o))])))
  }

  function CancelLeg(asset: uint64, oid: uint64): seq<Field> {
    [Field("a", Uint(asset)), Field("o", Uint(oid))]
  }

  function CancelFields(cancels: Tree): seq<Field> {
    [Field("type", Str("cancel")), Field("cancels", cancels)]
  }

  function CancelTree(asset: uint64, oid: uint64): Tree {
    Map(CancelFields(Arr([Map(CancelLeg(asset, oid))])))
  }

  // ---------- What is hashed ----------

  /** The nonce, then the vault flag and address. */
  function Tail(nonce: uint64, vault: Option<Bytes>): Bytes {
    BigEndian(nonce, 8) + (if vault.Some? then [1] + vault.value else [0])
  }

  function OrderPreimage(o: Order, nonce: uint64, vault: Option<Bytes>): Bytes {
    Encode(OrderTree(o)) + Tail(nonce, vault)
  }

  function CancelPreimage(asset: uint64, oid: uint64, nonce: uint64, vault: Option<Bytes>): Bytes {
    Encode(CancelTree(asset, oid)) + Tail(nonce, vault)
  }

  // ---------- Packing field by field ----------

  lemma {:induction false} EncodeSnoc(fields: seq<Field>, f: Field)
    ensures EncodeFields(fields + [f]) == EncodeFields(fields) + (PackStr(f.key) + Encode(f.value))
  {
    if fields == [] {
      assert fields + [f] == [f] && [f][1..] == [];
      assert EncodeFields([]) == [];
    } else {
      EncodeSnoc(fields[1..], f);
      assert (fields + [f])[1..] == fields[1..] + [f];
      Regroup(PackStr(fields[0].key) + Encode(fields[0].value), EncodeFields(fields[1..]), PackStr(f.key) + Encode(f.value));
    }
  }

  lemma {:induction false} EncodeBoth(first: seq<Field>, second: seq<Field>)
    ensures EncodeFields(first + second) == EncodeFields(first) + EncodeFields(second)
    decreases |second|
  {
    if second == [] {
      assert first + second == first;
      assert EncodeFields(second) == [];
    } else {
      var n := |second| - 1;
      EncodeBoth(first, second[..n]);
      assert first + second == (first + second[..n]) + [second[n]] && second == second[..n] + [second[n]];
      EncodeSnoc(first + second[..n], second[n]);
      EncodeSnoc(second[..n], second[n]);
      Regroup(EncodeFields(first), EncodeFields(second[..n]), PackStr(second[n].key) + Encode(second[n].value));
    }
  }

  /** One more field packed behind those already packed. */
  lemma Appended(start: Bytes, done: seq<Field>, f: Field, before: Bytes, after: Bytes)
    requires before == start + EncodeFields(done)
    requires after == before + PackStr(f.key) + Encode(f.value)
    ensures after == start + EncodeFields(done + [f])
  {
    EncodeSnoc(done, f);
    Regroup(before, PackStr(f.key), Encode(f.value));
    Regroup(start, EncodeFields(done), PackStr(f.key) + Encode(f.value));
  }

  lemma NothingPacked(start: Bytes)
    ensures start == start + EncodeFields([])
  {
  }

  lemma MapPacked(start: Bytes, fields: seq<Field>, data: Bytes)
    requires data == (start + PackMapSize(|fields|)) + EncodeFields(fields)
    ensures data == start + Encode(Map(fields))
  {
    Regroup(start, PackMapSize(|fields|), EncodeFields(fields));
  }

  lemma SinglePacked(start: Bytes, t: Tree, data: Bytes)
    requires data == (start + PackArraySize(1)) + Encode(t)
    ensures data == start + Encode(Arr([t]))
  {
    assert [t][1..] == [];
    assert EncodeItems([]) == [];
    assert EncodeItems([t]) == Encode(t);
    Regroup(start, PackArraySize(1), Encode(t));
  }

  class Signer {
    const vault: Option<Bytes>

    constructor (vault: Option<Bytes>)
      ensures this.vault == vault
    {
      this.vault := vault;
    }

    method AppendVaultAndNonce(out: ByteBuffer, nonce: uint64)
      modifies out
      ensures out.data == old(out.data) + Tail(nonce, vault)
    {
      out.PushShifted(nonce, 8);
      if vault.Some? {
        out.PushBack(1);
        out.data := out.data + vault.value;
      } else {
        out.PushBack(0);
      }
    }

    method PackLimit(out: ByteBuffer, o: Order)
      modifies out
      ensures out.data == old(out.data) + Encode(Limit(o))
    {
      ghost var start := out.data;
      out.MapSize(1);
      ghost var outer := out.data;
      out.Str("limit");
      ghost var middle := out.data;
      out.MapSize(1);
      ghost var inner := out.data;
      out.Str("tif");
      out.Str(Tif(o));
      ghost var tif := Field("tif", Str(Tif(o)));
      NothingPacked(inner);
      Appended(inner, [], tif, inner, out.data);
      MapPacked(middle, [] + [tif], out.data);
      ghost var limit := Field("limit", Map([] + [tif]));
      NothingPacked(outer);
      Appended(outer, [], limit, outer, out.data);
      MapPacked(start, [] + [limit], out.data);
      assert [] + [tif] == [tif] && [] + [limit] == [limit];
    }

    /** The one order of the action: six fields. */
    method PackLeg(out: ByteBuffer, o: Order)
      modifies out
      ensures out.data == old(out.data) + Encode(Map(Leg(o)))
    {
      ghost var start := out.data;
      out.MapSize(6);
      ghost var base := out.data;
      PackWhat(out, o);
      PackHow(out, o);
      EncodeBoth(What(o), How(o));
      Regroup(base, EncodeFields(What(o)), EncodeFields(How(o)));
      MapPacked(start, Leg(o), out.data);
    }

    method PackWhat(out: ByteBuffer, o: Order)
      modifies out
      ensures out.data == old(out.data) + EncodeFields(What(o))
    {
      ghost var base := out.data;
      ghost var leg := What(o);
      NothingPacked(base);
      out.Str("a");
      out.Uint(o.asset);
      Appended(base, [], leg[0], base, out.data);
      ghost var before := out.data;
      out.Str("b");
      out.Boolean(o.isBuy);
      Appended(base, [] + [leg[0]], leg[1], before, out.data);
      before := out.data;
      out.Str("p");
      out.Str(Price(o));
      Appended(base, [] + [leg[0]] + [leg[1]], leg[2], before, out.data);
      assert [] + [leg[0]] + [leg[1]] + [leg[2]] == leg;
    }

    method PackHow(out: ByteBuffer, o: Order)
      modifies out
      ensures out.data == old(out.data) + EncodeFields(How(o))
    {
      ghost var base := out.data;
      ghost var leg := How(o);
      NothingPacked(base);
      out.Str("s");
      out.Str(Size(o));
      Appended(base, [], leg[0], base, out.data);
      ghost var before := out.data;
      out.Str("r");
      out.Boolean(o.reduceOnly);
      Appended(base, [] + [leg[0]], leg[1], before, out.data);
      before := out.data;
      out.Str("t");
      PackLimit(out, o);
      Appended(base, [] + [leg[0]] + [leg[1]], leg[2], before, out.data);
      assert [] + [leg[0]] + [leg[1]] + [leg[2]] == leg;
    }

    method PackOrders(out: ByteBuffer, o: Order)
      modifies out
      ensures out.data == old(out.data) + Encode(Arr([Map(Leg(o))]))
    {
      ghost var start := out.data;
      out.ArraySize(1);
      PackLeg(out, o);
      SinglePacked(start, Map(Leg(o)), out.data);
    }

    /** The bytes hashed for an order. */
    method OrderBytes(o: Order, nonce: uint64) returns (out: ByteBuffer)
      ensures fresh(out) && out.data == OrderPreimage(o, nonce, vault)
    {
      out := new ByteBuffer();
      PackOrder(out, o);
      AppendVaultAndNonce(out, nonce);
    }

    method PackOrder(out: ByteBuffer, o: Order)
      modifies out
      ensures out.data == old(out.data) + Encode(OrderTree(o))
    {
      ghost var start := out.data;
      out.MapSize(3);
      ghost var base := out.data;
      ghost var fields := OrderFields(Arr([Map(Leg(o))]));
      NothingPacked(base);
      out.Str("type");
      out.Str("order");
      Appended(base, [], fields[0], base, out.data);
      ghost var before := out.data;
      out.Str("orders");
      PackOrders(out, o);
      Appended(base, [] + [fields[0]], fields[1], before, out.data);
      before := out.data;
      out.Str("grouping");
      out.Str("na");
      Appended(base, [] + [fields[0]] + [fields[1]], fields[2], before, out.data);
      assert [] + [fields[0]] + [fields[1]] + [fields[2]] == fields;
      MapPacked(start, fields, out.data);
    }

    /** The bytes hashed for a cancel; none if the order id is not a number. */
    method CancelBytes(asset: uint64, oid: string, nonce: uint64) returns (out: ByteBuffer?)
      ensures out == null <==> Stoull(oid).None?
      ensures out != null ==> fresh(out) && out.data == CancelPreimage(asset, Stoull(oid).value, nonce, vault)
    {
      out := null;
      var n := Stoull(oid);
      if n.None? {
        return;
      }
      var buffer := new ByteBuffer();
      PackCancelAction(buffer, asset, n.value);
      AppendVaultAndNonce(buffer, nonce);
      out := buffer;
    }

    method PackCancelAction(out: ByteBuffer, asset: uint64, oid: uint64)
      modifies out
      ensures out.data == old(out.data) + Encode(CancelTree(asset, oid))
    {
      ghost var start := out.data;
      out.MapSize(2);
      ghost var base := out.data;
      ghost var fields := CancelFields(Arr([Map(CancelLeg(asset, oid))]));
      NothingPacked(base);
      out.Str("type");
      out.Str("cancel");
      Appended(base, [], fields[0], base, out.data);
      ghost var before := out.data;
      out.Str("cancels");
      PackCancels(out, asset, oid);
      Appended(base, [] + [fields[0]], fields[1], before, out.data);
      assert [] + [fields[0]] + [fields[1]] == fields;
      MapPacked(start, fields, out.data);
    }

    method PackCancels(out: ByteBuffer, asset: uint64, oid: uint64)
      modifies out
      ensures out.data == old(out.data) + Encode(Arr([Map(CancelLeg(asset, oid))]))
    {
      ghost var start := out.data;
      out.ArraySize(1);
      PackCancel(out, asset, oid);
      SinglePacked(start, Map(CancelLeg(asset, oid)), out.data);
    }

    method PackCancel(out: ByteBuffer, asset: uint64, oid: uint64)
      modifies out
      ensures out.data == old(out.data) + Encode(Map(CancelLeg(asset, oid)))
    {
      ghost var start := out.data;
      out.MapSize(2);
      ghost var base := out.data;
      ghost var leg := CancelLeg(asset, oid);
      NothingPacked(base);
      out.Str("a");
      out.Uint(asset);
      Appended(base, [], leg[0], base, out.data);
      ghost var before := out.data;
      out.Str("o");
      out.Uint(oid);
      Appended(base, [] + [leg[0]], leg[1], before, out.data);
      assert [] + [leg[0]] + [leg[1]] == leg;
      MapPacked(start, leg, out.data);
    }
  }

  // ---------- std::stoull in base ten ----------

  predicate IsSpace(c: char) {
    c == ' ' || '\t' <= c <= '\r'
  }

  function SkipSpaces(s: string): string {
    if s != "" && IsSpace(s[0]) then SkipSpaces(s[1..]) else s
  }

  /** Leading blanks, an optional sign and a digit prefix; None stands for the exceptions. */
  function Stoull(s: string): Option<uint64> {
    var t := SkipSpaces(s);
    var negative := t != "" && t[0] == '-';
    var u := if t != "" && (t[0] == '-' || t[0] == '+') then t[1..] else t;
    var digits := u[..J.DigitPrefix(u)];
    if digits == "" || D.Value(digits) >= TWO_TO_64 then None
    else if negative && D.Value(digits) > 0 then Some(TWO_TO_64 - D.Value(digits))
    else Some(D.Value(digits))
  }

  lemma StoullOfCanonical(s: string)
    requires D.Canonical(s)
    ensures Stoull(s) == (if D.Value(s) < TWO_TO_64 then Some(D.Value(s)) else None)
  {
    assert SkipSpaces(s) == s;
    J.DigitPrefixStops(s, "");
    assert s + "" == s;
    assert s[..|s|] == s;
  }

  // ---------- What the length prefixes can carry ----------

  /** Prices and sizes short enough for a one-byte length. */
  predicate WireFits(o: Order) {
    |Price(o)| <= 255 && |Size(o)| <= 255
  }

  lemma AmountIsPlain(units: nat, places: nat)
    ensures J.Plain(D.Wire(units, places)) && IsByteString(D.Wire(units, places))
  {
    D.WireShape(units, places);
  }

  predicate FieldFits(f: Field) {
    StrFits(f.key) && Fits(f.value)
  }

  predicate FieldPrints(f: Field) {
    J.Plain(f.key) && J.Printable(f.value)
  }

  lemma {:induction false} BothFit(first: seq<Field>, second: seq<Field>)
    ensures FieldsFit(first + second) <==> FieldsFit(first) && FieldsFit(second)
    ensures J.FieldsPrintable(first + second) <==> J.FieldsPrintable(first) && J.FieldsPrintable(second)
  {
    if first == [] {
      assert first + second == second;
    } else {
      BothFit(first[1..], second);
      assert (first + second)[1..] == first[1..] + second;
    }
  }

  lemma OneFits(f: Field)
    ensures FieldsFit([f]) <==> FieldFits(f)
    ensures J.FieldsPrintable([f]) <==> FieldPrints(f)
  {
    assert [f][1..] == [];
  }

  lemma TwoFit(a: Field, b: Field)
    ensures FieldsFit([a, b]) <==> FieldFits(a) && FieldFits(b)
    ensures J.FieldsPrintable([a, b]) <==> FieldPrints(a) && FieldPrints(b)
  {
    OneFits(a);
    OneFits(b);
    BothFit([a], [b]);
    assert [a] + [b] == [a, b];
  }

  lemma ThreeFit(a: Field, b: Field, c: Field)
    ensures FieldsFit([a, b, c]) <==> FieldFits(a) && FieldFits(b) && FieldFits(c)
    ensures J.FieldsPrintable([a, b, c]) <==> FieldPrints(a) && FieldPrints(b) && FieldPrints(c)
  {
    TwoFit(a, b);
    OneFits(c);
    BothFit([a, b], [c]);
    assert [a, b] + [c] == [a, b, c];
  }

  lemma OnlyItem(t: Tree)
    ensures Fits(Arr([t])) <==> Fits(t)
    ensures J.Printable(Arr([t])) <==> J.Printable(t)
  {
    assert [t][1..] == [];
    assert ItemsFit([t]) <==> Fits(t);
    assert J.ItemsPrintable([t]) <==> J.Printable(t);
  }

  lemma LimitFits(o: Order)
    ensures Fits(Limit(o)) && J.Printable(Limit(o))
  {
    OneFits(Field("tif", Str(Tif(o))));
    OneFits(Field("limit", Map([Field("tif", Str(Tif(o)))])));
  }

  lemma WhatFits(o: Order)
    ensures FieldsFit(What(o)) <==> |Price(o)| <= 255
    ensures J.FieldsPrintable(What(o))
  {
    AmountIsPlain(o.priceUnits, D.PLACES);
    ThreeFit(Field("a", Uint(o.asset)), Field("b", Bool(o.isBuy)), Field("p", Str(Price(o))));
  }

  lemma HowFits(o: Order)
    ensures FieldsFit(How(o)) <==> |Size(o)| <= 255
    ensures J.FieldsPrintable(How(o))
  {
    AmountIsPlain(o.sizeUnits, D.PLACES);
    LimitFits(o);
    ThreeFit(Field("s", Str(Size(o))), Field("r", Bool(o.reduceOnly)), Field("t", Limit(o)));
  }

  lemma LegFits(o: Order)
    ensures Fits(Map(Leg(o))) <==> WireFits(o)
    ensures J.Printable(Map(Leg(o)))
  {
    WhatFits(o);
    HowFits(o);
    BothFit(What(o), How(o));
  }

  lemma OrderFieldsFit(orders: Tree)
    ensures Fits(Map(OrderFields(orders))) <==> Fits(orders)
    ensures J.Printable(Map(OrderFields(orders))) <==> J.Printable(orders)
  {
    ThreeFit(Field("type", Str("order")), Field("orders", orders), Field("grouping", Str("na")));
  }

  lemma OrderTreeFits(o: Order)
    ensures Fits(OrderTree(o)) <==> WireFits(o)
    ensures J.Printable(OrderTree(o))
  {
    LegFits(o);
    OnlyItem(Map(Leg(o)));
    OrderFieldsFit(Arr([Map(Leg(o))]));
  }
}
