/** The bytes that are signed and the JSON that is posted carry the same tree, and the signed
    bytes determine everything that went into them. */
module ActionLaws {
  import opened Types
  import opened Trees
  import opened MsgPack
  import opened Actions
  import D = Decimal
  import J = JsonText

  // ---------- The posted text is the printed tree ----------

  /** A field in front of others, with its text taken apart. */
  lemma PrintMore(f: Field, others: seq<Field>, lead: string, end: string, next: string)
    requires others != [] && next == J.PrintFields(others) + end
    requires lead == J.Quoted(f.key) + ":"
    ensures J.PrintFields([f] + others) + end == lead + (J.Print(f.value) + ("," + next))
  {
    J.JoinFields(f, others, end);
    J.Regroup(J.Quoted(f.key), ":", J.Print(f.value));
    J.Regroup(lead, J.Print(f.value), "," + next);
  }

  lemma PrintLast(f: Field, lead: string, end: string)
    requires lead == J.Quoted(f.key) + ":"
    ensures J.PrintFields([f]) + end == lead + (J.Print(f.value) + ("}" + end))
  {
    J.Regroup(J.Quoted(f.key), ":", J.Print(f.value));
    J.Regroup(lead + J.Print(f.value), "}", end);
    J.Regroup(lead, J.Print(f.value), "}" + end);
  }

  /** A lead and the piece before it are one literal of the source. */
  lemma Glue(a: string, b: string, literal: string, rest: string)
    requires a + b == literal
    ensures a + (b + rest) == literal + rest
  {
    J.Regroup(a, b, rest);
  }

  lemma Unquote(s: string, rest: string)
    ensures J.Quoted(s) + rest == "\"" + (s + ("\"" + rest))
  {
    J.Regroup("\"" + s, "\"", rest);
    J.Regroup("\"", s, "\"" + rest);
  }

  /** A map of one field whose value opens with a text of its own. */
  lemma PrintOnly(f: Field, lead: string, begun: string, joined: string, tail: string, end: string)
    requires lead == J.Quoted(f.key) + ":" && J.Print(f.value) + ("}" + end) == begun + tail
    requires joined == "{" + (lead + begun)
    ensures J.Print(Map([f])) + end == joined + tail
  {
    PrintLast(f, lead, end);
    J.Regroup(lead, begun, tail);
    J.Regroup("{", J.PrintFields([f]), end);
    J.Regroup("{", lead + begun, tail);
  }

  lemma PrintLimit(o: Order, end: string)
    ensures J.Print(Limit(o)) + ("}" + end) == "{\"limit\":{\"tif\":\"" + (Tif(o) + ("\"}}}" + end))
  {
    var inner, rest := Field("tif", Str(Tif(o))), "}" + ("}" + end);
    Unquote(Tif(o), "}" + rest);
    Glue("\"", "}}}", "\"}}}", end);
    assert "}" + rest == "}}}" + end;
    var tail := Tif(o) + ("\"}}}" + end);
    var middle, outer := LimitLiterals();
    PrintOnly(inner, "\"tif\":", "\"", middle, tail, rest);
    PrintOnly(Field("limit", Map([inner])), "\"limit\":", middle, outer, tail, "}" + end);
  }

  lemma LimitLiterals() returns (middle: string, outer: string)
    ensures middle == "{" + ("\"tif\":" + "\"")
    ensures outer == "{" + ("\"limit\":" + middle) && outer == "{\"limit\":{\"tif\":\""
  {
    middle, outer := "{\"tif\":\"", "{\"limit\":{\"tif\":\"";
  }

  /** Two fields, the second opening with a text of its own. */
  lemma PrintTwo(r: Field, t: Field, leadR: string, leadT: string, begun: string, joined: string,
                                    tail: string, end: string)
    requires leadR == J.Quoted(r.key) + ":" && leadT == J.Quoted(t.key) + ":"
    requires J.Print(t.value) + ("}" + end) == begun + tail && joined == "," + (leadT + begun)
    ensures J.PrintFields([r, t]) + end == leadR + (J.Print(r.value) + (joined + tail))
  {
    PrintLast(t, leadT, end);
    J.Regroup(leadT, begun, tail);
    PrintMore(r, [t], leadR, end, (leadT + begun) + tail);
    J.Regroup(",", leadT + begun, tail);
    assert [r] + [t] == [r, t];
  }

  lemma TermsLiterals() returns (begun: string, joined: string)
    ensures begun == "{\"limit\":{\"tif\":\"" && joined == ",\"t\":{\"limit\":{\"tif\":\""
    ensures joined == "," + ("\"t\":" + begun)
  {
    begun, joined := "{\"limit\":{\"tif\":\"", ",\"t\":{\"limit\":{\"tif\":\"";
  }

  lemma PrintTerms(r: Field, t: Field, o: Order, end: string)
    requires r == Field("r", Bool(o.reduceOnly)) && t.key == "t"
    requires J.Print(t.value) + ("}" + end) == "{\"limit\":{\"tif\":\"" + (Tif(o) + ("\"}}}" + end))
    ensures J.PrintFields([r, t]) + end
            == "\"r\":" + (Flag(o.reduceOnly) + (",\"t\":{\"limit\":{\"tif\":\"" + (Tif(o) + ("\"}}}" + end))))
  {
    var begun, joined := TermsLiterals();
    PrintTwo(r, t, "\"r\":", "\"t\":", begun, joined, Tif(o) + ("\"}}}" + end), end);
  }

  lemma PrintSize(size: string, s: Field, others: seq<Field>, end: string, flag: string)
    requires s == Field("s", Str(size)) && others != [] && J.PrintFields(others) + end == "\"r\":" + flag
    ensures J.PrintFields([s] + others) + end == "\"s\":\"" + (size + ("\",\"r\":" + flag))
  {
    PrintMore(s, others, "\"s\":", end, "\"r\":" + flag);
    PrintText(size, "\"s\":", "\"s\":\"", "\"r\":", "\",\"r\":", flag);
  }

  lemma PrintHow(o: Order, end: string)
    ensures J.PrintFields(How(o)) + end
            == "\"s\":\"" + (Size(o) + ("\",\"r\":" + (Flag(o.reduceOnly)
               + (",\"t\":{\"limit\":{\"tif\":\"" + (Tif(o) + ("\"}}}" + end))))))
  {
    var s, r, t := Field("s", Str(Size(o))), Field("r", Bool(o.reduceOnly)), Field("t", Limit(o));
    PrintLimit(o, end);
    PrintTerms(r, t, o, end);
    var flag := Flag(o.reduceOnly) + (",\"t\":{\"limit\":{\"tif\":\"" + (Tif(o) + ("\"}}}" + end)));
    PrintSize(Size(o), s, [r, t], end, flag);
    assert [s] + [r, t] == How(o);
  }

  /** A quoted value between two labels. */
  lemma PrintText(text: string, lead: string, begun: string, next: string, closed: string, rest: string)
    requires begun == lead + "\"" && closed == "\"," + next
    ensures lead + (J.Quoted(text) + ("," + (next + rest))) == begun + (text + (closed + rest))
  {
    Unquote(text, "," + (next + rest));
    Glue("\"", ",", "\",", next + rest);
    Glue("\",", next, closed, rest);
    Glue(lead, "\"", begun, text + (closed + rest));
  }

  lemma PrintLeg(o: Order, end: string, close: string)
    requires close == "\"}}}" + end
    ensures J.PrintFields(Leg(o)) + end
            == "\"a\":" + (D.Text(o.asset) + (",\"b\":" + (Flag(o.isBuy) + (",\"p\":\"" + (Price(o)
               + ("\",\"s\":\"" + (Size(o) + ("\",\"r\":" + (Flag(o.reduceOnly)
               + (",\"t\":{\"limit\":{\"tif\":\"" + (Tif(o) + close)))))))))))
  {
    var a, b, p := Field("a", Uint(o.asset)), Field("b", Bool(o.isBuy)), Field("p", Str(Price(o)));
    var how := Size(o) + ("\",\"r\":" + (Flag(o.reduceOnly)
               + (",\"t\":{\"limit\":{\"tif\":\"" + (Tif(o) + close))));
    PrintHow(o, end);
    PrintWhat(a, b, p, Price(o), How(o), end, how);
    assert [a] + ([b] + ([p] + How(o))) == Leg(o);
  }

  lemma PrintWhat(a: Field, b: Field, p: Field, price: string, others: seq<Field>, end: string, how: string)
    requires a.key == "a" && b.key == "b" && p.key == "p" && p.value == Str(price)
    requires others != [] && J.PrintFields(others) + end == "\"s\":\"" + how
    ensures J.PrintFields([a] + ([b] + ([p] + others))) + end
            == "\"a\":" + (J.Print(a.value) + (",\"b\":" + (J.Print(b.value) + (",\"p\":\"" + (price + ("\",\"s\":\"" + how))))))
  {
    PrintMore(p, others, "\"p\":", end, "\"s\":\"" + how);
    PrintText(price, "\"p\":", "\"p\":\"", "\"s\":\"", "\",\"s\":\"", how);
    var tail := price + ("\",\"s\":\"" + how);
    PrintMore(b, [p] + others, "\"b\":", end, "\"p\":\"" + tail);
    Glue(",", "\"p\":\"", ",\"p\":\"", tail);
    var side := J.Print(b.value) + (",\"p\":\"" + tail);
    PrintMore(a, [b] + ([p] + others), "\"a\":", end, "\"b\":" + side);
    Glue(",", "\"b\":", ",\"b\":", side);
  }

  /** The wrapper around the one order of an action. */
  lemma PrintOrderFields(list: Tree, body: string)
    requires J.Print(list) + ",\"grouping\":\"na\"}" == "[{" + body
    ensures J.Print(Map(OrderFields(list))) == "{\"type\":\"order\",\"orders\":[{" + body
  {
    var t, os, g := Field("type", Str("order")), Field("orders", list), Field("grouping", Str("na"));
    var last := "\"grouping\":\"na\"}";
    PrintLast(g, "\"grouping\":", "");
    assert "\"grouping\":" + (J.Quoted("na") + ("}" + "")) == last;
    PrintMore(os, [g], "\"orders\":", "", last);
    assert "," + last == ",\"grouping\":\"na\"}";
    assert [os] + [g] == [os, g];
    PrintType(t, [os, g], body);
    assert [t] + [os, g] == OrderFields(list);
  }

  lemma PrintType(t: Field, others: seq<Field>, body: string)
    requires others != [] && t == Field("type", Str("order"))
    requires J.PrintFields(others) + "" == "\"orders\":" + ("[{" + body)
    ensures J.Print(Map([t] + others)) == "{\"type\":\"order\",\"orders\":[{" + body
  {
    Glue("\"orders\":", "[{", "\"orders\":[{", body);
    var quoted := J.Quoted("order");
    var literal := OrderHead(quoted);
    PrintFront(t, others, "\"type\":", quoted, "\"orders\":[{", literal, body);
  }

  lemma OrderHead(quoted: string) returns (literal: string)
    requires quoted == J.Quoted("order")
    ensures literal == "{\"type\":\"order\",\"orders\":[{"
    ensures literal == (("{" + "\"type\":") + quoted) + ("," + "\"orders\":[{")
  {
    literal := "{\"type\":\"order\",\"orders\":[{";
    assert "{" + "\"type\":" == "{\"type\":";
    assert quoted == "\"order\"";
    assert "{\"type\":" + quoted == "{\"type\":\"order\"";
    assert "," + "\"orders\":[{" == ",\"orders\":[{";
    assert "{\"type\":\"order\"" + ",\"orders\":[{" == literal;
  }

  lemma PrintFront(t: Field, others: seq<Field>, lead: string, quoted: string, next: string, literal: string, body: string)
    requires others != [] && lead == J.Quoted(t.key) + ":" && J.PrintFields(others) + "" == next + body
    requires quoted == J.Print(t.value) && literal == (("{" + lead) + quoted) + ("," + next)
    ensures J.Print(Map([t] + others)) == literal + body
  {
    var text := J.PrintFields([t] + others);
    PrintMore(t, others, lead, "", next + body);
    assert text + "" == text;
    J.Regroup(",", next, body);
    J.Regroup(J.Print(t.value), "," + next, body);
    J.Regroup("{", lead, J.Print(t.value) + (("," + next) + body));
    J.Regroup("{" + lead, J.Print(t.value), ("," + next) + body);
    J.Regroup(("{" + lead) + J.Print(t.value), "," + next, body);
  }

  lemma PrintSingle(leg: seq<Field>, rest: string)
    ensures J.Print(Arr([Map(leg)])) + rest == "[{" + (J.PrintFields(leg) + ("]" + rest))
  {
    var text := J.PrintFields(leg);
    assert J.PrintItems([Map(leg)]) == ("{" + text) + "]";
    J.Regroup("[", ("{" + text) + "]", rest);
    J.Regroup("{" + text, "]", rest);
    J.Regroup("{", text, "]" + rest);
    Glue("[", "{", "[{", text + ("]" + rest));
  }

  lemma PrintOneOrder(leg: seq<Field>, rest: string)
    requires J.PrintFields(leg) + "],\"grouping\":\"na\"}" == "\"a\":" + rest
    ensures J.Print(Map(OrderFields(Arr([Map(leg)])))) == "{\"type\":\"order\",\"orders\":[{\"a\":" + rest
  {
    PrintSingle(leg, ",\"grouping\":\"na\"}");
    assert "]" + ",\"grouping\":\"na\"}" == "],\"grouping\":\"na\"}";
    PrintOrderFields(Arr([Map(leg)]), "\"a\":" + rest);
    Glue("{\"type\":\"order\",\"orders\":[{", "\"a\":", "{\"type\":\"order\",\"orders\":[{\"a\":", rest);
  }

  /** The posted text of an order is the compact print of its tree. */
  lemma OrderJsonIsPrinted(o: Order)
    ensures OrderJson(o) == J.Print(OrderTree(o))
  {
    PrintLeg(o, "],\"grouping\":\"na\"}", "\"}}}],\"grouping\":\"na\"}");
    PrintOneOrder(Leg(o), D.Text(o.asset) + (",\"b\":" + (Flag(o.isBuy) + (",\"p\":\"" + (Price(o)
               + ("\",\"s\":\"" + (Size(o) + ("\",\"r\":" + (Flag(o.reduceOnly)
               + (",\"t\":{\"limit\":{\"tif\":\"" + (Tif(o) + "\"}}}],\"grouping\":\"na\"}")))))))))));
  }

  lemma PrintCancelLeg(asset: uint64, oid: uint64, end: string)
    ensures J.PrintFields(CancelLeg(asset, oid)) + end
            == "\"a\":" + (D.Text(asset) + (",\"o\":" + (D.Text(oid) + ("}" + end))))
  {
    var a, o := Field("a", Uint(asset)), Field("o", Uint(oid));
    var tail := D.Text(oid) + ("}" + end);
    PrintLast(o, "\"o\":", end);
    PrintMore(a, [o], "\"a\":", end, "\"o\":" + tail);
    Glue(",", "\"o\":", ",\"o\":", tail);
    assert [a] + [o] == CancelLeg(asset, oid);
  }

  lemma PrintOneCancel(leg: seq<Field>, rest: string)
    requires J.PrintFields(leg) + "]}" == "\"a\":" + rest
    ensures J.Print(Map([Field("type", Str("cancel"))] + [Field("cancels", Arr([Map(leg)]))]))
            == "{\"type\":\"cancel\",\"cancels\":[{\"a\":" + rest
  {
    var list := Arr([Map(leg)]);
    var cancels := Field("cancels", list);
    PrintSingle(leg, "}");
    assert "]" + "}" == "]}";
    PrintLast(cancels, "\"cancels\":", "");
    assert "}" + "" == "}";
    Glue("[{", "\"a\":", "[{\"a\":", rest);
    Glue("\"cancels\":", "[{\"a\":", "\"cancels\":[{\"a\":", rest);
    var quoted := J.Quoted("cancel");
    var literal := CancelHead(quoted);
    PrintFront(Field("type", Str("cancel")), [cancels], "\"type\":", quoted, "\"cancels\":[{\"a\":", literal, rest);
  }

  lemma CancelHead(quoted: string) returns (literal: string)
    requires quoted == J.Quoted("cancel")
    ensures literal == "{\"type\":\"cancel\",\"cancels\":[{\"a\":"
    ensures literal == (("{" + "\"type\":") + quoted) + ("," + "\"cancels\":[{\"a\":")
  {
    literal := "{\"type\":\"cancel\",\"cancels\":[{\"a\":";
    assert "{" + "\"type\":" == "{\"type\":";
    assert quoted == "\"cancel\"";
    assert "{\"type\":" + quoted == "{\"type\":\"cancel\"";
    assert "," + "\"cancels\":[{\"a\":" == ",\"cancels\":[{\"a\":";
    assert "{\"type\":\"cancel\"" + ",\"cancels\":[{\"a\":" == literal;
  }

  /** With the number printed back as its order id, so is the posted text of a cancel. */
  lemma CancelJsonIsPrinted(asset: uint64, oid: uint64)
    ensures CancelJson(asset, D.Text(oid)) == J.Print(CancelTree(asset, oid))
  {
    PrintCancelLeg(asset, oid, "]}");
    assert "}" + "]}" == "}]}";
    PrintOneCancel(CancelLeg(asset, oid), D.Text(asset) + (",\"o\":" + (D.Text(oid) + "}]}")));
    var kind, cancels := Field("type", Str("cancel")), Field("cancels", Arr([Map(CancelLeg(asset, oid))]));
    assert [kind] + [cancels] == [kind, cancels];
  }

  // ---------- One tree in both ----------

  /** An order's posted text reads as its tree and nothing more, and its hashed bytes decode to the
      same tree and leave the nonce and vault, exactly when price and size fit a one-byte length. */
  lemma OrderCarriesOneTree(o: Order, nonce: uint64, vault: Option<Bytes>)
    ensures J.Read(OrderJson(o)) == Some((OrderTree(o), ""))
    ensures Decode(OrderPreimage(o, nonce, vault)) == Some((OrderTree(o), Tail(nonce, vault))) <==> WireFits(o)
  {
    OrderTreeFits(o);
    ReadWhole(OrderTree(o));
    OrderJsonIsPrinted(o);
    ReadBackIffFits(OrderTree(o), Tail(nonce, vault));
  }

  lemma ReadWhole(t: Tree)
    requires J.Printable(t)
    ensures J.Read(J.Print(t)) == Some((t, ""))
  {
    J.ReadPrinted(t, "");
    assert J.Print(t) + "" == J.Print(t);
  }

  /** A cancel's hashed bytes decode to the tree of the parsed order id; the posted text reads as
      that same tree exactly when the order id is canonical decimal. */
  lemma CancelCarriesOneTree(asset: uint64, oid: string, nonce: uint64, vault: Option<Bytes>)
    requires Stoull(oid).Some?
    ensures var n := Stoull(oid).value;
            && Decode(CancelPreimage(asset, n, nonce, vault)) == Some((CancelTree(asset, n), Tail(nonce, vault)))
            && (J.Read(CancelJson(asset, oid)) == Some((CancelTree(asset, n), "")) <==> D.Canonical(oid))
  {
    var n := Stoull(oid).value;
    CancelTreeFits(asset, n);
    DecodeEncode(CancelTree(asset, n), Tail(nonce, vault));
    CancelJsonIsPrinted(asset, n);
    ReadWhole(CancelTree(asset, n));
    D.ValueOfText(n);
    if D.Canonical(oid) {
      StoullOfCanonical(oid);
      D.TextOfValue(oid);
    }
    if J.Read(CancelJson(asset, oid)) == Some((CancelTree(asset, n), "")) {
      J.ReadIsPrinted(CancelJson(asset, oid));
      var printed := J.Print(CancelTree(asset, n));
      assert printed + "" == printed;
      SameOid(asset, oid, D.Text(n));
    }
  }

  lemma SameOid(asset: uint64, x: string, y: string)
    requires CancelJson(asset, x) == CancelJson(asset, y)
    ensures x == y
  {
    var front := "{\"type\":\"cancel\",\"cancels\":[{\"a\":" ;
    DropFront(front, D.Text(asset) + (",\"o\":" + (x + "}]}")), D.Text(asset) + (",\"o\":" + (y + "}]}")));
    DropFront(D.Text(asset), ",\"o\":" + (x + "}]}"), ",\"o\":" + (y + "}]}"));
    DropFront(",\"o\":", x + "}]}", y + "}]}");
    DropBack(x, y, "}]}");
  }

  lemma DropFront<T>(front: seq<T>, x: seq<T>, y: seq<T>)
    requires front + x == front + y
    ensures x == y
  {
    assert x == (front + x)[|front|..];
    assert y == (front + y)[|front|..];
  }

  lemma DropBack<T>(x: seq<T>, y: seq<T>, back: seq<T>)
    requires x + back == y + back
    ensures x == y
  {
    assert |x + back| == |x| + |back| && |y + back| == |y| + |back|;
    assert x == (x + back)[..|x|];
    assert y == (y + back)[..|y|];
  }

  lemma CancelTreeFits(asset: uint64, oid: uint64)
    ensures Fits(CancelTree(asset, oid)) && J.Printable(CancelTree(asset, oid))
  {
    var leg := Map(CancelLeg(asset, oid));
    TwoFit(Field("a", Uint(asset)), Field("o", Uint(oid)));
    OnlyItem(leg);
    TwoFit(Field("type", Str("cancel")), Field("cancels", Arr([leg])));
  }
}
