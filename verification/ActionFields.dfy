/** What a reader of the posted text or of the hashed bytes finds in them, field by field. */
module ActionFields {
  import opened Types
  import opened Trees
  import opened MsgPack
  import opened Actions
  import opened ActionLaws
  import D = Decimal
  import J = JsonText

  /** The value of the first field with this key. */
  function Lookup(fields: seq<Field>, key: string): Option<Tree> {
    if fields == [] then None
    else if fields[0].key == key then Some(fields[0].value)
    else Lookup(fields[1..], key)
  }

  function At(t: Tree, key: string): Option<Tree> {
    if t.Map? then Lookup(t.fields, key) else None
  }

  lemma LookupOne(f: Field, key: string)
    ensures Lookup([f], key) == if f.key == key then Some(f.value) else None
  {
    assert [f][1..] == [];
  }

  lemma LookupTwo(a: Field, b: Field, key: string)
    ensures Lookup([a, b], key) == if a.key == key then Some(a.value) else if b.key == key then Some(b.value) else None
  {
    assert [a, b][1..] == [b];
    LookupOne(b, key);
  }

  lemma LookupThree(a: Field, b: Field, c: Field, key: string)
    ensures Lookup([a, b, c], key)
            == if a.key == key then Some(a.value) else if b.key == key then Some(b.value)
               else if c.key == key then Some(c.value) else None
  {
    assert [a, b, c][1..] == [b, c];
    LookupTwo(b, c, key);
  }

  lemma {:induction false} LookupBoth(first: seq<Field>, second: seq<Field>, key: string)
    ensures Lookup(first + second, key) == if Lookup(first, key).Some? then Lookup(first, key) else Lookup(second, key)
  {
    if first == [] {
      assert first + second == second;
    } else {
      assert (first + second)[1..] == first[1..] + second;
      LookupBoth(first[1..], second, key);
    }
  }

  /** The text of a price or size field, read as an amount with eight decimals. */
  function AmountAt(t: Tree, key: string): Option<nat> {
    var field := At(t, key);
    if field.Some? && field.value.Str? then D.Read(field.value.text, 8) else None
  }

  /** The tif of the limit type. */
  function TifAt(t: Tree): Option<Tree> {
    var kind := At(t, "t");
    var limit := if kind.Some? then At(kind.value, "limit") else None;
    if limit.Some? then At(limit.value, "tif") else None
  }

  /** The six fields of an order are those of the request. */
  predicate LegMeans(leg: Tree, o: Order) {
    && leg.Map? && |leg.fields| == 6
    && At(leg, "a") == Some(Uint(o.asset))
    && At(leg, "b") == Some(Bool(o.isBuy))
    && AmountAt(leg, "p") == Some(o.priceUnits)
    && AmountAt(leg, "s") == Some(o.sizeUnits)
    && At(leg, "r") == Some(Bool(o.reduceOnly))
    && (TifAt(leg) == Some(Str("Ioc")) <==> o.ioc)
    && (TifAt(leg) == Some(Str("Alo")) <==> !o.ioc && o.postOnly)
    && (TifAt(leg) == Some(Str("Gtc")) <==> !o.ioc && !o.postOnly)
  }

  /** An action of type order with one order in it. */
  predicate OrderMeans(t: Tree, o: Order) {
    && t.Map? && |t.fields| == 3
    && At(t, "type") == Some(Str("order"))
    && At(t, "grouping") == Some(Str("na"))
    && var orders := At(t, "orders");
       orders.Some? && orders.value.Arr? && |orders.value.items| == 1 && LegMeans(orders.value.items[0], o)
  }

  predicate CancelMeans(t: Tree, asset: uint64, oid: uint64) {
    && t.Map? && |t.fields| == 2
    && At(t, "type") == Some(Str("cancel"))
    && var cancels := At(t, "cancels");
       && cancels.Some? && cancels.value.Arr? && |cancels.value.items| == 1
       && var leg := cancels.value.items[0];
          leg.Map? && |leg.fields| == 2 && At(leg, "a") == Some(Uint(asset)) && At(leg, "o") == Some(Uint(oid))
  }

  lemma WhatFields(o: Order, key: string)
    ensures Lookup(What(o), key)
            == if key == "a" then Some(Uint(o.asset)) else if key == "b" then Some(Bool(o.isBuy))
               else if key == "p" then Some(Str(Price(o))) else None
  {
    LookupThree(Field("a", Uint(o.asset)), Field("b", Bool(o.isBuy)), Field("p", Str(Price(o))), key);
  }

  lemma HowFields(o: Order, key: string)
    ensures Lookup(How(o), key)
            == if key == "s" then Some(Str(Size(o))) else if key == "r" then Some(Bool(o.reduceOnly))
               else if key == "t" then Some(Limit(o)) else None
  {
    LookupThree(Field("s", Str(Size(o))), Field("r", Bool(o.reduceOnly)), Field("t", Limit(o)), key);
  }

  lemma LegField(o: Order, key: string)
    ensures Lookup(Leg(o), key)
            == if key == "a" then Some(Uint(o.asset)) else if key == "b" then Some(Bool(o.isBuy))
               else if key == "p" then Some(Str(Price(o))) else if key == "s" then Some(Str(Size(o)))
               else if key == "r" then Some(Bool(o.reduceOnly)) else if key == "t" then Some(Limit(o)) else None
  {
    LookupBoth(What(o), How(o), key);
    WhatFields(o, key);
    HowFields(o, key);
  }

  lemma LimitTif(o: Order, leg: Tree)
    requires At(leg, "t") == Some(Limit(o))
    ensures TifAt(leg) == Some(Str(Tif(o)))
  {
    var tif := Field("tif", Str(Tif(o)));
    LookupOne(tif, "tif");
    LookupOne(Field("limit", Map([tif])), "limit");
  }

  /** The six fields of the model's order. */
  lemma LegFields(o: Order, leg: seq<Field>)
    requires leg == Leg(o)
    ensures |leg| == 6
    ensures Lookup(leg, "a") == Some(Uint(o.asset)) && Lookup(leg, "b") == Some(Bool(o.isBuy))
    ensures Lookup(leg, "p") == Some(Str(Price(o))) && Lookup(leg, "s") == Some(Str(Size(o)))
    ensures Lookup(leg, "r") == Some(Bool(o.reduceOnly)) && Lookup(leg, "t") == Some(Limit(o))
  {
    LegField(o, "a");
    LegField(o, "b");
    LegField(o, "p");
    LegField(o, "s");
    LegField(o, "r");
    LegField(o, "t");
  }

  lemma LegIsMeant(o: Order, leg: seq<Field>)
    requires leg == Leg(o)
    ensures LegMeans(Map(leg), o)
  {
    LegFields(o, leg);
    LimitTif(o, Map(leg));
    D.WireRoundTrip(o.priceUnits, 8);
    D.WireRoundTrip(o.sizeUnits, 8);
  }

  lemma OrderIsMeant(o: Order)
    ensures OrderMeans(OrderTree(o), o)
  {
    var kind, orders := Field("type", Str("order")), Field("orders", Arr([Map(Leg(o))]));
    var grouping := Field("grouping", Str("na"));
    LookupThree(kind, orders, grouping, "type");
    LookupThree(kind, orders, grouping, "orders");
    LookupThree(kind, orders, grouping, "grouping");
    LegIsMeant(o, Leg(o));
  }

  lemma CancelIsMeant(asset: uint64, oid: uint64)
    ensures CancelMeans(CancelTree(asset, oid), asset, oid)
  {
    LookupTwo(Field("a", Uint(asset)), Field("o", Uint(oid)), "a");
    LookupTwo(Field("a", Uint(asset)), Field("o", Uint(oid)), "o");
    var leg := Map(CancelLeg(asset, oid));
    LookupTwo(Field("type", Str("cancel")), Field("cancels", Arr([leg])), "type");
    LookupTwo(Field("type", Str("cancel")), Field("cancels", Arr([leg])), "cancels");
  }

  /** Behind the action: the nonce in eight bytes, most significant first, and the vault with its
      flag, or the flag alone. */
  predicate TailMeans(tail: Bytes, nonce: uint64, vault: Option<Bytes>) {
    && |tail| >= 9
    && BigValue(tail[..8]) == nonce
    && tail[8] == (if vault.Some? then 1 else 0)
    && tail[9..] == (if vault.Some? then vault.value else [])
  }

  lemma TailIsMeant(nonce: uint64, vault: Option<Bytes>)
    ensures TailMeans(Tail(nonce, vault), nonce, vault)
  {
    Widths();
    BigValueOfBigEndian(nonce, 8);
    assert Tail(nonce, vault)[..8] == BigEndian(nonce, 8);
  }

  /** What an order's posted text reads as, and what its hashed bytes decode to whenever they decode
      to their tree: side, price, size, flags and time in force are those of the request. */
  lemma OrderCarriesRequest(o: Order, nonce: uint64, vault: Option<Bytes>)
    ensures
      var posted := J.Read(OrderJson(o));
      posted.Some? && posted.value.1 == "" && OrderMeans(posted.value.0, o)
    ensures
      WireFits(o) ==>
        var hashed := Decode(OrderPreimage(o, nonce, vault));
        hashed.Some? && OrderMeans(hashed.value.0, o) && TailMeans(hashed.value.1, nonce, vault)
  {
    OrderCarriesOneTree(o, nonce, vault);
    OrderIsMeant(o);
    TailIsMeant(nonce, vault);
  }

  /** So it is with a cancel: asset and parsed order id. */
  lemma CancelCarriesRequest(asset: uint64, oid: string, nonce: uint64, vault: Option<Bytes>)
    requires Stoull(oid).Some?
    ensures
      var n := Stoull(oid).value;
      var hashed := Decode(CancelPreimage(asset, n, nonce, vault));
      hashed.Some? && CancelMeans(hashed.value.0, asset, n) && TailMeans(hashed.value.1, nonce, vault)
    ensures
      D.Canonical(oid) ==>
        var posted := J.Read(CancelJson(asset, oid));
        posted.Some? && posted.value.1 == "" && CancelMeans(posted.value.0, asset, Stoull(oid).value)
  {
    CancelCarriesOneTree(asset, oid, nonce, vault);
    CancelIsMeant(asset, Stoull(oid).value);
    TailIsMeant(nonce, vault);
  }

  // ---------- Order ids ----------

  /** Space, tab, line feed, vertical tab, form feed or carriage return. */
  predicate Blank(c: char) {
    c == ' ' || 9 <= c as int <= 13
  }

  lemma {:induction false} SpacesEnd(blanks: string, rest: string)
    requires forall i :: 0 <= i < |blanks| ==> Blank(blanks[i])
    requires rest != "" ==> !Blank(rest[0])
    ensures SkipSpaces(blanks + rest) == rest
    decreases |blanks|
  {
    if blanks == "" {
      assert blanks + rest == rest;
    } else {
      assert (blanks + rest)[1..] == blanks[1..] + rest;
      SpacesEnd(blanks[1..], rest);
    }
  }

  lemma ParsedOrderId(s: string, t: string, u: string, digits: string)
    requires SkipSpaces(s) == t && u == (if t != "" && (t[0] == '-' || t[0] == '+') then t[1..] else t)
    requires digits == u[..J.DigitPrefix(u)] && D.AllDigits(digits)
    ensures Stoull(s) == if digits == "" || D.Value(digits) >= TWO_TO_64 then None
                         else if t != "" && t[0] == '-' && D.Value(digits) > 0 then Some(TWO_TO_64 - D.Value(digits))
                         else Some(D.Value(digits))
  {
  }

  lemma DigitsOf(digits: string, rest: string)
    requires D.AllDigits(digits) && (rest != "" ==> !D.IsDigit(rest[0]))
    ensures var u := digits + rest; u[..J.DigitPrefix(u)] == digits
  {
    J.DigitPrefixStops(digits, rest);
  }

  /** How an order id is parsed: blanks, a sign and leading zeros are skipped, the digits make the
      number, whatever follows them is ignored; a number of more than 64 bits does not parse, and a
      minus sign negates modulo 2^64. */
  lemma OrderIdIsParsed(blanks: string, sign: string, digits: string, rest: string)
    requires forall i :: 0 <= i < |blanks| ==> Blank(blanks[i])
    requires sign == "" || sign == "+" || sign == "-"
    requires digits != "" && D.AllDigits(digits) && (rest != "" ==> !D.IsDigit(rest[0]))
    ensures
      var n := D.Value(digits);
      Stoull(blanks + (sign + (digits + rest)))
      == if n >= 0x1_0000_0000_0000_0000 then None
         else if sign == "-" && n > 0 then Some(0x1_0000_0000_0000_0000 - n) else Some(n)
  {
    var u := digits + rest;
    var t := sign + u;
    assert D.IsDigit(u[0]) && u[0] == digits[0];
    if sign == "" {
      assert t == u;
    } else {
      assert t[0] == sign[0] && t[1..] == u;
    }
    SpacesEnd(blanks, t);
    DigitsOf(digits, rest);
    ParsedOrderId(blanks + t, t, u, digits);
  }

  /** Without a digit behind blanks and sign it does not parse. */
  lemma NoDigitNoOrderId(blanks: string, sign: string, rest: string)
    requires forall i :: 0 <= i < |blanks| ==> Blank(blanks[i])
    requires sign == "" || sign == "+" || sign == "-"
    requires sign == "" && rest != "" ==> !Blank(rest[0]) && rest[0] != '+' && rest[0] != '-'
    requires rest != "" ==> !D.IsDigit(rest[0])
    ensures Stoull(blanks + (sign + rest)).None?
  {
    var t := sign + rest;
    if sign == "" {
      assert t == rest;
    } else {
      assert t[0] == sign[0] && t[1..] == rest;
    }
    SpacesEnd(blanks, t);
    ParsedOrderId(blanks + t, t, rest, "");
  }
}
