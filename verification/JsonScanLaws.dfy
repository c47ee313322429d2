/** The scanner returns exactly the text of the value that follows the key. */
module JsonScanLaws {
  import opened Types
  import opened Trees
  import opened JsonValue
  import opened JsonScan
  import D = Decimal
  import J = JsonText

  predicate Pair(open: char, close: char) {
    (open == '{' && close == '}') || (open == '[' && close == ']')
  }

  // ---------- Running through a piece of text ----------

  /** The state behind a, or none if the loop returns inside it. */
  function After(s: Scan, a: string, open: char, close: char): Option<Scan>
    decreases |a|
  {
    if a == "" then Some(s)
    else if Closes(s, a[0], open, close) then None
    else After(Advance(s, a[0], open, close), a[1..], open, close)
  }

  lemma {:induction false} AfterBoth(s: Scan, a: string, b: string, open: char, close: char)
    requires After(s, a, open, close).Some?
    ensures After(s, a + b, open, close) == After(After(s, a, open, close).value, b, open, close)
    decreases |a|
  {
    if a == "" {
      assert a + b == b;
    } else {
      assert (a + b)[1..] == a[1..] + b;
      AfterBoth(Advance(s, a[0], open, close), a[1..], b, open, close);
    }
  }

  lemma {:induction false} EndBehind(s: Scan, a: string, b: string, open: char, close: char)
    requires After(s, a, open, close).Some?
    ensures var r := BracketEnd(b, After(s, a, open, close).value, open, close);
            BracketEnd(a + b, s, open, close) == if r.None? then None else Some(|a| + r.value)
    decreases |a|
  {
    if a == "" {
      assert a + b == b;
    } else {
      assert (a + b)[1..] == a[1..] + b;
      EndBehind(Advance(s, a[0], open, close), a[1..], b, open, close);
    }
  }

  /** Text that the scan passes without returning and without a trace. */
  predicate Keeps(s: Scan, a: string, open: char, close: char) {
    After(s, a, open, close) == Some(s)
  }

  lemma KeepsBoth(s: Scan, a: string, b: string, open: char, close: char)
    requires Keeps(s, a, open, close) && Keeps(s, b, open, close)
    ensures Keeps(s, a + b, open, close)
  {
    AfterBoth(s, a, b, open, close);
  }

  predicate Neutral(c: char) {
    c != '"' && c != '{' && c != '}' && c != '[' && c != ']'
  }

  lemma {:induction false} NeutralKeeps(s: Scan, a: string, open: char, close: char)
    requires Pair(open, close) && !s.inString && forall i :: 0 <= i < |a| ==> Neutral(a[i])
    ensures Keeps(s, a, open, close)
    decreases |a|
  {
    if a != "" {
      assert Neutral(a[0]);
      assert forall i :: 0 <= i < |a| - 1 ==> a[1..][i] == a[i + 1];
      NeutralKeeps(s, a[1..], open, close);
    }
  }

  // ---------- Strings ----------

  lemma CharKeeps(s: Scan, c: Char, open: char, close: char)
    requires CharOk(c) && s.inString && !s.escaped
    ensures Keeps(s, CharText(c), open, close)
  {
    match c
    case Plain(c) =>
      assert [c][1..] == "";
      assert Advance(s, c, open, close) == s;
    case Escape(e) => EscapeKeeps(s, e, open, close);
    case Unicode(a, b, c, d) =>
      var rest := [a, b, c, d];
      assert ['\\', 'u'] + rest == ['\\', 'u', a, b, c, d];
      EscapeKeeps(s, 'u', open, close);
      InsideKeeps(s, rest, open, close);
      AfterBoth(s, ['\\', 'u'], rest, open, close);
  }

  lemma EscapeKeeps(s: Scan, e: char, open: char, close: char)
    requires s.inString && !s.escaped
    ensures Keeps(s, ['\\', e], open, close)
  {
    var escaping := s.(escaped := true);
    assert ['\\', e][1..] == [e] && [e][1..] == "";
    assert Advance(s, '\\', open, close) == escaping && Advance(escaping, e, open, close) == s;
    assert After(escaping, [e], open, close) == After(s, "", open, close);
  }

  lemma {:induction false} InsideKeeps(s: Scan, a: string, open: char, close: char)
    requires s.inString && !s.escaped && forall i :: 0 <= i < |a| ==> a[i] != '"' && a[i] != '\\'
    ensures Keeps(s, a, open, close)
    decreases |a|
  {
    if a != "" {
      assert forall i :: 0 <= i < |a| - 1 ==> a[1..][i] == a[i + 1];
      InsideKeeps(s, a[1..], open, close);
    }
  }

  lemma {:induction false} CharsKeep(s: Scan, chars: seq<Char>, open: char, close: char)
    requires CharsOk(chars) && s.inString && !s.escaped
    ensures Keeps(s, CharsText(chars), open, close)
    decreases |chars|
  {
    if chars != [] {
      CharKeeps(s, chars[0], open, close);
      CharsKeep(s, chars[1..], open, close);
      KeepsBoth(s, CharText(chars[0]), CharsText(chars[1..]), open, close);
    }
  }

  lemma StringKeeps(s: Scan, chars: seq<Char>, open: char, close: char)
    requires CharsOk(chars) && !s.inString && !s.escaped
    ensures Keeps(s, StringText(chars), open, close)
  {
    var inside := s.(inString := true);
    CharsKeep(inside, chars, open, close);
    AfterBoth(inside, CharsText(chars), "\"", open, close);
    assert "\""[1..] == "";
    assert After(inside, "\"", open, close) == Some(s);
    var t := StringText(chars);
    assert t[1..] == CharsText(chars) + "\"";
  }

  // ---------- Values ----------

  lemma NumberIsNeutral(minus: bool, whole: string, fraction: string, exponent: string)
    requires NumberOk(whole, fraction, exponent)
    ensures forall i :: 0 <= i < |NumberText(minus, whole, fraction, exponent)| ==>
              Neutral(NumberText(minus, whole, fraction, exponent)[i]) && !Terminates(NumberText(minus, whole, fraction, exponent)[i])
  {
    PartIsNeutral(whole, whole, 0);
    if fraction != "" {
      PartIsNeutral(fraction, fraction[1..], 1);
    }
    if exponent != "" {
      var e := exponent[1..];
      PartIsNeutral(exponent, Unsigned(e), |exponent| - |Unsigned(e)|);
    }
  }

  lemma PartIsNeutral(s: string, digits: string, k: nat)
    requires k <= |s| && s[k..] == digits && Digits(digits)
    requires forall i :: 0 <= i < k ==> s[i] in ".eE+-"
    ensures forall i :: 0 <= i < |s| ==> Neutral(s[i]) && !Terminates(s[i])
  {
    forall i | 0 <= i < |s| ensures Neutral(s[i]) && !Terminates(s[i]) {
      if i >= k {
        assert s[i] == digits[i - k];
      }
    }
  }

  lemma ScalarIsNeutral(v: Value)
    requires Ok(v) && Scalar(v)
    ensures forall i :: 0 <= i < |Text(v)| ==> Neutral(Text(v)[i]) && !Terminates(Text(v)[i])
  {
    if v.Number? {
      NumberIsNeutral(v.minus, v.whole, v.fraction, v.exponent);
    }
  }

  /** A bracketed body inside depth s: nothing of it is left behind the closing bracket. */
  lemma BracketKeeps(s: Scan, left: char, body: string, right: char, open: char, close: char)
    requires Pair(left, right) && Pair(open, close) && !s.inString && !s.escaped && s.depth >= 1
    requires var inner := if left == open then s.(depth := s.depth + 1) else s; Keeps(inner, body, open, close)
    ensures Keeps(s, [left] + (body + [right]), open, close)
  {
    var inner := if left == open then s.(depth := s.depth + 1) else s;
    AfterBoth(inner, body, [right], open, close);
    assert [right][1..] == "";
    assert After(inner, [right], open, close) == Some(s);
    assert ([left] + (body + [right]))[1..] == body + [right];
  }

  /** A whole value leaves depth, string and escape state as they were, and never closes a bracket
      that was open before it, whichever kind of bracket is counted. */
  lemma {:induction false} ValueKeeps(s: Scan, v: Value, open: char, close: char)
    requires Ok(v) && Pair(open, close) && !s.inString && !s.escaped && s.depth >= 1
    ensures Keeps(s, Text(v), open, close)
    decreases v, 1
  {
    match v
    case Literal(_) =>
      ScalarIsNeutral(v);
      NeutralKeeps(s, Text(v), open, close);
    case Number(_, _, _, _) =>
      ScalarIsNeutral(v);
      NeutralKeeps(s, Text(v), open, close);
    case String(chars) => StringKeeps(s, chars, open, close);
    case Array(items) =>
      ItemsKeep(if open == '[' then s.(depth := s.depth + 1) else s, items, open, close);
      BracketKeeps(s, '[', ItemsText(items), ']', open, close);
    case Object(members) =>
      MembersKeep(if open == '{' then s.(depth := s.depth + 1) else s, members, open, close);
      BracketKeeps(s, '{', MembersText(members), '}', open, close);
  }

  lemma {:induction false} ItemsKeep(s: Scan, items: seq<Value>, open: char, close: char)
    requires ItemsOk(items) && Pair(open, close) && !s.inString && !s.escaped && s.depth >= 1
    ensures Keeps(s, ItemsText(items), open, close)
    decreases items, 0
  {
    if items != [] {
      var comma := if |items| == 1 then "" else ",";
      ValueKeeps(s, items[0], open, close);
      NeutralKeeps(s, comma, open, close);
      ItemsKeep(s, items[1..], open, close);
      KeepsBoth(s, comma, ItemsText(items[1..]), open, close);
      KeepsBoth(s, Text(items[0]), comma + ItemsText(items[1..]), open, close);
    }
  }

  lemma {:induction false} MembersKeep(s: Scan, members: seq<Member>, open: char, close: char)
    requires MembersOk(members) && Pair(open, close) && !s.inString && !s.escaped && s.depth >= 1
    ensures Keeps(s, MembersText(members), open, close)
    decreases members, 0
  {
    if members != [] {
      var m, comma := members[0], if |members| == 1 then "" else ",";
      StringKeeps(s, m.name, open, close);
      ValueKeeps(s, m.value, open, close);
      NeutralKeeps(s, ":", open, close);
      KeepsBoth(s, ":", Text(m.value), open, close);
      KeepsBoth(s, StringText(m.name), ":" + Text(m.value), open, close);
      NeutralKeeps(s, comma, open, close);
      MembersKeep(s, members[1..], open, close);
      KeepsBoth(s, comma, MembersText(members[1..]), open, close);
      KeepsBoth(s, MemberText(m), comma + MembersText(members[1..]), open, close);
    }
  }

  // ---------- Where the scan stops ----------

  /** Counting one kind of bracket stops at the value's own end, whatever follows. */
  lemma BracketsEnd(left: char, body: string, right: char, rest: string)
    requires Pair(left, right) && Keeps(Scan(1, false, false), body, left, right)
    ensures BracketEnd([left] + (body + [right]) + rest, OUTSIDE, left, right) == Some(|body| + 2)
  {
    var t, inner := [left] + (body + [right]) + rest, Scan(1, false, false);
    assert t[1..] == body + ([right] + rest);
    assert Advance(OUTSIDE, left, left, right) == inner;
    EndBehind(inner, body, [right] + rest, left, right);
    assert BracketEnd([right] + rest, inner, left, right) == Some(1);
  }

  lemma {:induction false} CharEnd(c: Char, rest: string) // default induction gets in the way
    requires CharOk(c)
    ensures var r := StringEnd(rest, false);
            StringEnd(CharText(c) + rest, false) == if r.None? then None else Some(|CharText(c)| + r.value)
  {
    var t := CharText(c) + rest;
    match c
    case Plain(c) =>
      assert t[1..] == rest;
    case Escape(e) =>
      assert t[1..] == [e] + rest && ([e] + rest)[1..] == rest;
    case Unicode(a, b, c, d) =>
      var four := [a, b, c, d];
      assert t[1..] == ['u'] + (four + rest) && (['u'] + (four + rest))[1..] == four + rest;
      InsideEnd(four, rest);
  }

  lemma {:induction false} InsideEnd(a: string, rest: string)
    requires forall i :: 0 <= i < |a| ==> a[i] != '"' && a[i] != '\\'
    ensures var r := StringEnd(rest, false);
            StringEnd(a + rest, false) == if r.None? then None else Some(|a| + r.value)
    decreases |a|
  {
    if a == "" {
      assert a + rest == rest;
    } else {
      assert (a + rest)[1..] == a[1..] + rest;
      InsideEnd(a[1..], rest);
    }
  }

  lemma {:induction false} CharsEnd(chars: seq<Char>, rest: string)
    requires CharsOk(chars)
    ensures StringEnd(CharsText(chars) + ("\"" + rest), false) == Some(|CharsText(chars)| + 1)
    decreases |chars|
  {
    if chars == [] {
      assert CharsText(chars) + ("\"" + rest) == "\"" + rest;
    } else {
      var others := CharsText(chars[1..]) + ("\"" + rest);
      CharEnd(chars[0], others);
      CharsEnd(chars[1..], rest);
      Regroup(CharText(chars[0]), CharsText(chars[1..]), "\"" + rest);
    }
  }

  lemma Regroup(a: string, b: string, c: string)
    ensures (a + b) + c == a + (b + c)
  {
  }

  lemma {:induction false} ScalarEndIs(t: string, rest: string)
    requires forall i :: 0 <= i < |t| ==> !Terminates(t[i])
    ensures ScalarEnd(t + rest) == |t| + ScalarEnd(rest)
    decreases |t|
  {
    if t == "" {
      assert t + rest == rest;
    } else {
      assert (t + rest)[1..] == t[1..] + rest;
      ScalarEndIs(t[1..], rest);
    }
  }

  /** What follows a scalar in a well-formed document. */
  predicate Ended(rest: string) {
    rest == "" || rest[0] == ',' || rest[0] == '}' || rest[0] == ']'
  }

  lemma ScalarAt(v: Value, rest: string)
    requires Ok(v) && Scalar(v)
    ensures ValueAt(Text(v) + rest) == Some(Text(v)) <==> Ended(rest)
  {
    var t := Text(v) + rest;
    ScalarIsNeutral(v);
    assert Neutral(Text(v)[0]);
    ScalarEndIs(Text(v), rest);
    assert t[..|Text(v)|] == Text(v);
    if ScalarEnd(rest) > 0 {
      assert |t[..ScalarEnd(t)]| > |Text(v)|;
    }
  }

  lemma StringAt(chars: seq<Char>, rest: string)
    requires CharsOk(chars)
    ensures ValueAt(StringText(chars) + rest) == Some(StringText(chars))
  {
    var t := StringText(chars) + rest;
    assert t[1..] == CharsText(chars) + ("\"" + rest);
    CharsEnd(chars, rest);
    assert t[..|StringText(chars)|] == StringText(chars);
  }

  lemma BracketedAt(left: char, body: string, right: char, rest: string)
    requires Pair(left, right) && Keeps(Scan(1, false, false), body, left, right)
    ensures ValueAt([left] + (body + [right]) + rest) == Some([left] + (body + [right]))
  {
    var v := [left] + (body + [right]);
    var t := v + rest;
    BracketsEnd(left, body, right, rest);
    assert t[0] == left && t[..|v|] == v;
  }

  /** A value at the front of a text is cut out exactly; a scalar, exactly when a comma, a closing
      bracket or the end of the text follows it. */
  lemma ValueIsCutOut(v: Value, rest: string)
    requires Ok(v)
    ensures ValueAt(Text(v) + rest) == Some(Text(v)) <==> !Scalar(v) || Ended(rest)
  {
    match v
    case Literal(_) => ScalarAt(v, rest);
    case Number(_, _, _, _) => ScalarAt(v, rest);
    case String(chars) => StringAt(chars, rest);
    case Array(items) =>
      ItemsKeep(Scan(1, false, false), items, '[', ']');
      BracketedAt('[', ItemsText(items), ']', rest);
    case Object(members) =>
      MembersKeep(Scan(1, false, false), members, '{', '}');
      BracketedAt('{', MembersText(members), '}', rest);
  }

  predicate AllSeparators(s: string) {
    forall i :: 0 <= i < |s| ==> s[i] == ' ' || s[i] == ':'
  }

  lemma {:induction false} SeparatorsEnd(s: string, rest: string)
    requires AllSeparators(s) && rest != "" && !IsSeparator(rest[0])
    ensures Separators(s + rest) == |s|
    decreases |s|
  {
    if s == "" {
      assert s + rest == rest;
    } else {
      assert (s + rest)[1..] == s[1..] + rest;
      SeparatorsEnd(s[1..], rest);
    }
  }

  lemma ValueStarts(v: Value)
    requires Ok(v)
    ensures Text(v) != "" && !IsSeparator(Text(v)[0])
  {
    if v.Number? {
      assert IsDigit(v.whole[0]);
    }
  }

  lemma Behind(front: string, key: string, t: string)
    ensures (front + key + t)[|front| + |key|..] == t
  {
  }

  /** The scanner finds the value of a key: if the key's first occurrence is followed by separators
      and a well-formed value, that value's own text is the result. */
  lemma ExtractFindsTheValue(front: string, key: string, separators: string, v: Value, rest: string)
    requires Ok(v) && AllSeparators(separators)
    requires Find(front + key + (separators + (Text(v) + rest)), key, 0) == Some(|front|)
    ensures Extract(front + key + (separators + (Text(v) + rest)), key) == Some(Text(v)) <==> !Scalar(v) || Ended(rest)
  {
    var t := Text(v) + rest;
    ValueStarts(v);
    Behind(front, key, separators + t);
    SeparatorsEnd(separators, t);
    assert (separators + t)[|separators|..] == t;
    ValueIsCutOut(v, rest);
  }

  /** Whatever follows the key, the value is looked for behind exactly the blanks and colons. */
  lemma ExtractStartsBehindSeparators(front: string, key: string, separators: string, t: string)
    requires AllSeparators(separators) && (t != "" ==> t[0] != ' ' && t[0] != ':')
    requires Find(front + key + (separators + t), key, 0) == Some(|front|)
    ensures Extract(front + key + (separators + t), key) == ValueAt(t)
  {
    Behind(front, key, separators + t);
    if t == "" {
      AllSeparated(separators);
      assert separators + t == separators;
    } else {
      SeparatorsEnd(separators, t);
    }
    assert (separators + t)[|separators|..] == t;
  }

  lemma {:induction false} AllSeparated(s: string)
    requires AllSeparators(s)
    ensures Separators(s) == |s|
  {
    if s != "" {
      AllSeparated(s[1..]);
    }
  }

  /** Text that starts with neither a quote nor an opening bracket is cut at the first comma or closing
      bracket, or at the end; an empty text has no value. */
  lemma BareTextIsCut(t: string, rest: string)
    requires forall i :: 0 <= i < |t| ==> t[i] != ',' && t[i] != '}' && t[i] != ']'
    requires t != "" ==> t[0] != '"' && t[0] != '{' && t[0] != '['
    requires Ended(rest)
    ensures ValueAt(t + rest) == if t + rest == "" then None else Some(t)
  {
    ScalarEndIs(t, rest);
    assert t + rest != "" ==> (t + rest)[..|t|] == t;
    assert t != "" ==> (t + rest)[0] == t[0];
    assert t == "" ==> t + rest == rest;
  }

  /** The place that `Find` reports is the first one. */
  lemma {:induction false} FindIsFirst(msg: string, key: string, i: nat, k: nat)
    requires i <= k && k + |key| <= |msg| && msg[k..k + |key|] == key
    ensures Find(msg, key, i).Some? && Find(msg, key, i).value <= k
    decreases |msg| - i
  {
    if msg[i..i + |key|] != key {
      FindIsFirst(msg, key, i + 1, k);
    }
  }

  // ---------- The id of a reply ----------

  lemma {:induction false} BlanksEnd(blanks: string, rest: string)
    requires forall i :: 0 <= i < |blanks| ==> blanks[i] == ' '
    requires rest != "" && rest[0] != ' '
    ensures Blanks(blanks + rest) == |blanks|
    decreases |blanks|
  {
    if blanks == "" {
      assert blanks + rest == rest;
    } else {
      assert (blanks + rest)[1..] == blanks[1..] + rest;
      BlanksEnd(blanks[1..], rest);
    }
  }

  lemma IdAtFront(blanks: string, id: uint64, rest: string)
    requires forall i :: 0 <= i < |blanks| ==> blanks[i] == ' '
    requires rest != "" ==> !D.IsDigit(rest[0])
    ensures IdAt(blanks + (D.Text(id) + rest)) == Id(id)
  {
    var digits := D.Text(id);
    var u := digits + rest;
    D.ValueOfText(id);
    BlanksEnd(blanks, u);
    assert (blanks + u)[|blanks|..] == u;
    J.DigitPrefixStops(digits, rest);
    assert u[..|digits|] == digits;
  }

  /** The id that a request carries in decimal is read back from its reply, whatever follows it. */
  lemma PostIdIsReadBack(front: string, blanks: string, id: uint64, rest: string)
    requires forall i :: 0 <= i < |blanks| ==> blanks[i] == ' '
    requires rest != "" ==> !D.IsDigit(rest[0])
    requires var msg := front + ID_KEY + (blanks + (D.Text(id) + rest));
             Find(msg, CHANNEL, 0).Some? && Find(msg, ID_KEY, 0) == Some(|front|)
    ensures PostIdOf(front + ID_KEY + (blanks + (D.Text(id) + rest))) == Id(id)
  {
    Behind(front, ID_KEY, blanks + (D.Text(id) + rest));
    IdAtFront(blanks, id, rest);
  }

  /** What the id of a message is, by what follows the first id key: a number below 2^64, out of range,
      or none without a digit; and none without the post channel or the key. */
  lemma PostIdCases(front: string, blanks: string, digits: string, rest: string)
    requires forall i :: 0 <= i < |blanks| ==> blanks[i] == ' '
    requires D.AllDigits(digits) && (rest != "" ==> !D.IsDigit(rest[0]))
    requires digits == "" && rest != "" ==> rest[0] != ' '
    requires Find(front + "\"id\":" + (blanks + (digits + rest)), "\"id\":", 0) == Some(|front|)
    ensures
      var msg := front + "\"id\":" + (blanks + (digits + rest));
      PostIdOf(msg) == if Find(msg, "\"channel\":\"post\"", 0).None? || digits == "" then NoId
                       else if D.Value(digits) >= 0x1_0000_0000_0000_0000 then OutOfRange
                       else Id(D.Value(digits))
  {
    var t := blanks + (digits + rest);
    Behind(front, "\"id\":", t);
    IdAtDigits(blanks, digits, rest);
  }

  lemma IdAtDigits(blanks: string, digits: string, rest: string)
    requires forall i :: 0 <= i < |blanks| ==> blanks[i] == ' '
    requires D.AllDigits(digits) && (rest != "" ==> !D.IsDigit(rest[0]))
    requires digits == "" && rest != "" ==> rest[0] != ' '
    ensures IdAt(blanks + (digits + rest)) == IdOf(digits)
  {
    var u := digits + rest;
    if u == "" {
      AllBlanks(blanks);
      assert blanks + u == blanks;
    } else {
      BlanksEnd(blanks, u);
    }
    assert (blanks + u)[|blanks|..] == u;
    J.DigitPrefixStops(digits, rest);
    assert u[..|digits|] == digits;
  }

  lemma {:induction false} AllBlanks(blanks: string)
    requires forall i :: 0 <= i < |blanks| ==> blanks[i] == ' '
    ensures Blanks(blanks) == |blanks|
  {
    if blanks != "" {
      AllBlanks(blanks[1..]);
    }
  }

  lemma NoKeyNoId(msg: string)
    requires Find(msg, "\"id\":", 0).None? || Find(msg, "\"channel\":\"post\"", 0).None?
    ensures PostIdOf(msg) == NoId
  {
  }

  // ---------- Text that breaks off ----------

  lemma {:induction false} StringEndGoesOn(t: string, k: nat, escaped: bool)
    requires k <= |t| && StringEnd(t[..k], escaped).Some?
    ensures StringEnd(t, escaped) == StringEnd(t[..k], escaped)
    decreases |t|
  {
    var p := t[..k];
    if p != "" && (escaped || p[0] != '"') {
      assert p[1..] == t[1..][..k - 1];
      StringEndGoesOn(t[1..], k - 1, !escaped && p[0] == '\\');
    }
  }

  lemma {:induction false} BracketEndGoesOn(t: string, k: nat, s: Scan, open: char, close: char)
    requires k <= |t| && BracketEnd(t[..k], s, open, close).Some?
    ensures BracketEnd(t, s, open, close) == BracketEnd(t[..k], s, open, close)
    decreases |t|
  {
    var p := t[..k];
    if p != "" && !Closes(s, p[0], open, close) {
      assert p[1..] == t[1..][..k - 1];
      BracketEndGoesOn(t[1..], k - 1, Advance(s, p[0], open, close), open, close);
    }
  }

  /** A string, array or object that breaks off before its end yields nothing. */
  lemma TruncatedValueIsNone(v: Value, k: nat)
    requires Ok(v) && !Scalar(v) && 0 < k < |Text(v)|
    ensures ValueAt(Text(v)[..k]).None?
  {
    var t := Text(v);
    var p := t[..k];
    ValueIsCutOut(v, "");
    assert t + "" == t;
    assert p[0] == t[0];
    if v.String? {
      assert p[1..] == t[1..][..k - 1];
      if StringEnd(p[1..], false).Some? {
        StringEndGoesOn(t[1..], k - 1, false);
      }
    } else {
      var close := if t[0] == '{' then '}' else ']';
      if BracketEnd(p, OUTSIDE, t[0], close).Some? {
        BracketEndGoesOn(t, k, OUTSIDE, t[0], close);
      }
    }
  }
}
