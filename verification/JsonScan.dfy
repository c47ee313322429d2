/** JSON values as RFC 8259 sections 4 to 7 define them, and their compact text. */
module JsonValue {
  /** One character of a string: as itself, after a backslash, or as four hexadecimal digits. */
  datatype Char = Plain(c: char) | Escape(e: char) | Unicode(h0: char, h1: char, h2: char, h3: char)

  datatype Value =
    | Literal(word: string)
    | Number(minus: bool, whole: string, fraction: string, exponent: string)
    | String(chars: seq<Char>)
    | Array(items: seq<Value>)
    | Object(members: seq<Member>)

  datatype Member = Member(name: seq<Char>, value: Value)

  predicate IsDigit(c: char) {
    '0' <= c <= '9'
  }

  predicate Digits(s: string) {
    s != "" && forall i :: 0 <= i < |s| ==> IsDigit(s[i])
  }

  predicate IsHex(c: char) {
    IsDigit(c) || 'a' <= c <= 'f' || 'A' <= c <= 'F'
  }

  predicate CharOk(c: Char) {
    match c
    case Plain(c) => c >= ' ' && c != '"' && c != '\\'
    case Escape(e) => e in "\"\\/bfnrt"
    case Unicode(a, b, c, d) => IsHex(a) && IsHex(b) && IsHex(c) && IsHex(d)
  }

  predicate CharsOk(chars: seq<Char>) {
    forall i :: 0 <= i < |chars| ==> CharOk(chars[i])
  }

  predicate NumberOk(whole: string, fraction: string, exponent: string) {
    && Digits(whole) && (whole[0] == '0' ==> |whole| == 1)
    && (fraction == "" || (fraction[0] == '.' && Digits(fraction[1..])))
    && (exponent == "" || (exponent[0] in "eE" && Digits(Unsigned(exponent[1..]))))
  }

  function Unsigned(s: string): string {
    if s != "" && s[0] in "+-" then s[1..] else s
  }

  predicate Ok(v: Value)
    decreases v, 1
  {
    match v
    case Literal(word) => word == "true" || word == "false" || word == "null"
    case Number(_, whole, fraction, exponent) => NumberOk(whole, fraction, exponent)
    case String(chars) => CharsOk(chars)
    case Array(items) => ItemsOk(items)
    case Object(members) => MembersOk(members)
  }

  predicate ItemsOk(items: seq<Value>)
    decreases items, 0
  {
    items == [] || (Ok(items[0]) && ItemsOk(items[1..]))
  }

  predicate MembersOk(members: seq<Member>)
    decreases members, 0
  {
    members == [] || (CharsOk(members[0].name) && Ok(members[0].value) && MembersOk(members[1..]))
  }

  function CharText(c: Char): string {
    match c
    case Plain(c) => [c]
    case Escape(e) => ['\\', e]
    case Unicode(a, b, c, d) => ['\\', 'u', a, b, c, d]
  }

  function CharsText(chars: seq<Char>): string {
    if chars == [] then "" else CharText(chars[0]) + CharsText(chars[1..])
  }

  function StringText(chars: seq<Char>): string {
    "\"" + (CharsText(chars) + "\"")
  }

  function NumberText(minus: bool, whole: string, fraction: string, exponent: string): string {
    (if minus then "-" else "") + whole + fraction + exponent
  }

  function Text(v: Value): string
    decreases v, 1
  {
    match v
    case Literal(word) => word
    case Number(minus, whole, fraction, exponent) => NumberText(minus, whole, fraction, exponent)
    case String(chars) => StringText(chars)
    case Array(items) => "[" + (ItemsText(items) + "]")
    case Object(members) => "{" + (MembersText(members) + "}")
  }

  function ItemsText(items: seq<Value>): string
    decreases items, 0
  {
    if items == [] then ""
    else Text(items[0]) + ((if |items| == 1 then "" else ",") + ItemsText(items[1..]))
  }

  function MemberText(m: Member): string
    decreases m, 2
  {
    StringText(m.name) + (":" + Text(m.value))
  }

  function MembersText(members: seq<Member>): string
    decreases members, 0
  {
    if members == [] then ""
    else MemberText(members[0]) + ((if |members| == 1 then "" else ",") + MembersText(members[1..]))
  }

  predicate Scalar(v: Value) {
    v.Literal? || v.Number?
  }
}

/** The hand-written scanner that cuts a value out of a reply. */
module JsonScan {
  import opened Types
  import opened Trees
  import D = Decimal
  import J = JsonText

  // ---------- What each loop computes, on the text from its start ----------

  /** `std::string::find`: the first place where key occurs in msg, from i on. */
  function Find(msg: string, key: string, i: nat): (r: Option<nat>)
    ensures r.Some? ==> i <= r.value && r.value + |key| <= |msg| && msg[r.value..r.value + |key|] == key
    decreases |msg| - i
  {
    if |msg| < i + |key| then None
    else if msg[i..i + |key|] == key then Some(i)
    else Find(msg, key, i + 1)
  }

  predicate IsSeparator(c: char) {
    c == ' ' || c == ':'
  }

  function Separators(t: string): (n: nat)
    ensures n <= |t|
    ensures n < |t| ==> !IsSeparator(t[n])
  {
    if t == "" || !IsSeparator(t[0]) then 0 else 1 + Separators(t[1..])
  }

  /** Length up to and including the closing quote of text that starts inside a string. */
  function StringEnd(t: string, escaped: bool): (r: Option<nat>)
    ensures r.Some? ==> 0 < r.value <= |t|
  {
    if t == "" then None
    else if !escaped && t[0] == '"' then Some(1)
    else
      var r := StringEnd(t[1..], !escaped && t[0] == '\\');
      if r.None? then None else Some(1 + r.value)
  }

  datatype Scan = Scan(depth: int, inString: bool, escaped: bool)

  function Advance(s: Scan, ch: char, open: char, close: char): Scan {
    if s.inString then
      if s.escaped then s.(escaped := false)
      else if ch == '\\' then s.(escaped := true)
      else if ch == '"' then s.(inString := false)
      else s
    else if ch == '"' then s.(inString := true)
    else if ch == open then s.(depth := s.depth + 1)
    else if ch == close then s.(depth := s.depth - 1)
    else s
  }

  /** The character at which the loop returns. */
  predicate Closes(s: Scan, ch: char, open: char, close: char) {
    !s.inString && ch != '"' && ch != open && ch == close && s.depth == 1
  }

  function BracketEnd(t: string, s: Scan, open: char, close: char): (r: Option<nat>)
    ensures r.Some? ==> 0 < r.value <= |t|
    decreases |t|
  {
    if t == "" then None
    else if Closes(s, t[0], open, close) then Some(1)
    else
      var r := BracketEnd(t[1..], Advance(s, t[0], open, close), open, close);
      if r.None? then None else Some(1 + r.value)
  }

  predicate Terminates(c: char) {
    c == ',' || c == '}' || c == ']'
  }

  function ScalarEnd(t: string): (n: nat)
    ensures n <= |t|
    ensures n < |t| ==> Terminates(t[n])
    ensures forall i :: 0 <= i < n ==> !Terminates(t[i])
  {
    if t == "" || Terminates(t[0]) then 0
    else
      var n := ScalarEnd(t[1..]);
      assert forall i :: 0 < i < 1 + n ==> t[i] == t[1..][i - 1];
      1 + n
  }

  const OUTSIDE := Scan(0, false, false)

  /** The value at the front of t: a quoted string, a bracketed text, or everything before a
      terminator. */
  function ValueAt(t: string): Option<string> {
    if t == "" then None
    else if t[0] == '"' then
      var r := StringEnd(t[1..], false);
      if r.None? then None else Some(t[..1 + r.value])
    else if t[0] == '{' || t[0] == '[' then
      var r := BracketEnd(t, OUTSIDE, t[0], if t[0] == '{' then '}' else ']');
      if r.None? then None else Some(t[..r.value])
    else Some(t[..ScalarEnd(t)])
  }

  function Extract(msg: string, key: string): Option<string> {
    var k := Find(msg, key, 0);
    if k.None? then None else
    var t := msg[k.value + |key|..];
    ValueAt(t[Separators(t)..])
  }

  // ---------- The scanner ----------

  method ScanString(msg: string, start: nat) returns (r: Option<string>)
    requires start < |msg| && msg[start] == '"'
    ensures r == ValueAt(msg[start..])
  {
    ghost var t := msg[start..];
    ghost var goal := StringEnd(t[1..], false);
    var pos := start + 1;
    var escaped := false;
    while pos < |msg|
      invariant start < pos <= |msg|
      invariant var g := StringEnd(msg[pos..], escaped);
                goal == if g.None? then None else Some(pos - start - 1 + g.value)
    {
      var ch := msg[pos];
      ghost var u := msg[pos..];
      assert u[0] == ch && u[1..] == msg[pos + 1..];
      if escaped {
        escaped := false;
      } else if ch == '\\' {
        escaped := true;
      } else if ch == '"' {
        assert goal == Some(pos - start);
        assert msg[start..pos + 1] == t[..1 + goal.value];
        return Some(msg[start..pos + 1]);
      }
      pos := pos + 1;
    }
    return None;
  }

  method ScanBrackets(msg: string, start: nat) returns (r: Option<string>)
    requires start < |msg| && (msg[start] == '{' || msg[start] == '[')
    ensures r == ValueAt(msg[start..])
  {
    var open := msg[start];
    var close := if open == '{' then '}' else ']';
    ghost var t := msg[start..];
    ghost var goal := BracketEnd(t, OUTSIDE, open, close);
    var pos := start;
    var depth, inString, escaped := 0, false, false;
    while pos < |msg|
      invariant start <= pos <= |msg|
      invariant var g := BracketEnd(msg[pos..], Scan(depth, inString, escaped), open, close);
                goal == if g.None? then None else Some(pos - start + g.value)
    {
      var ch := msg[pos];
      ghost var u := msg[pos..];
      assert u[0] == ch && u[1..] == msg[pos + 1..];
      if inString {
        if escaped {
          escaped := false;
        } else if ch == '\\' {
          escaped := true;
        } else if ch == '"' {
          inString := false;
        }
      } else {
        if ch == '"' {
          inString := true;
        } else if ch == open {
          depth := depth + 1;
        } else if ch == close {
          depth := depth - 1;
          if depth == 0 {
            assert goal == Some(pos - start + 1);
            assert msg[start..pos + 1] == t[..goal.value];
            return Some(msg[start..pos + 1]);
          }
        }
      }
      pos := pos + 1;
    }
    return None;
  }

  method ScanScalar(msg: string, start: nat) returns (r: string)
    requires start < |msg|
    ensures r == msg[start..][..ScalarEnd(msg[start..])]
  {
    ghost var t := msg[start..];
    var end := start;
    while end < |msg| && msg[end] != ',' && msg[end] != '}' && msg[end] != ']'
      invariant start <= end <= |msg|
      invariant ScalarEnd(t) == end - start + ScalarEnd(msg[end..])
    {
      assert msg[end..][1..] == msg[end + 1..];
      end := end + 1;
    }
    assert ScalarEnd(msg[end..]) == 0;
    return msg[start..end];
  }

  method SkipSeparators(msg: string, start: nat) returns (pos: nat)
    requires start <= |msg|
    ensures pos == start + Separators(msg[start..])
  {
    pos := start;
    while pos < |msg| && (msg[pos] == ' ' || msg[pos] == ':')
      invariant start <= pos <= |msg|
      invariant Separators(msg[start..]) == pos - start + Separators(msg[pos..])
    {
      assert msg[pos..][1..] == msg[pos + 1..];
      pos := pos + 1;
    }
    assert Separators(msg[pos..]) == 0;
  }

  method ExtractJsonValue(msg: string, key: string) returns (r: Option<string>)
    ensures r == Extract(msg, key)
  {
    var keyPos := Find(msg, key, 0);
    if keyPos.None? {
      return None;
    }
    var start := keyPos.value + |key|;
    ghost var t := msg[start..];
    start := SkipSeparators(msg, start);
    assert t[Separators(t)..] == msg[start..];
    if start >= |msg| {
      return None;
    }
    if msg[start] == '"' {
      r := ScanString(msg, start);
      return;
    }
    if msg[start] == '{' || msg[start] == '[' {
      r := ScanBrackets(msg, start);
      return;
    }
    var scalar := ScanScalar(msg, start);
    return Some(scalar);
  }

  // ---------- The id of a reply ----------

  /** OutOfRange stands for the exception of `std::stoull`. */
  datatype PostId = NoId | Id(id: uint64) | OutOfRange

  const CHANNEL := "\"channel\":\"post\""

  const ID_KEY := "\"id\":"

  function Blanks(t: string): (n: nat)
    ensures n <= |t|
    ensures n < |t| ==> t[n] != ' '
  {
    if t == "" || t[0] != ' ' then 0 else 1 + Blanks(t[1..])
  }

  function IdOf(digits: string): PostId
    requires D.AllDigits(digits)
  {
    if digits == "" then NoId
    else if D.Value(digits) >= TWO_TO_64 then OutOfRange
    else Id(D.Value(digits))
  }

  function IdAt(t: string): PostId {
    var u := t[Blanks(t)..];
    IdOf(u[..J.DigitPrefix(u)])
  }

  function PostIdOf(msg: string): PostId {
    var k := Find(msg, ID_KEY, 0);
    if Find(msg, CHANNEL, 0).None? || k.None? then NoId else IdAt(msg[k.value + |ID_KEY|..])
  }

  method ParsePostId(msg: string) returns (r: PostId)
    ensures r == PostIdOf(msg)
  {
    var channel, idPos := Find(msg, CHANNEL, 0), Find(msg, ID_KEY, 0);
    if channel.None? || idPos.None? {
      return NoId;
    }
    r := ReadId(msg, idPos.value + |ID_KEY|);
  }

  method SkipBlanks(msg: string, start: nat) returns (pos: nat)
    requires start <= |msg|
    ensures pos == start + Blanks(msg[start..])
  {
    pos := start;
    while pos < |msg| && msg[pos] == ' '
      invariant start <= pos <= |msg|
      invariant Blanks(msg[start..]) == pos - start + Blanks(msg[pos..])
    {
      assert msg[pos..][1..] == msg[pos + 1..];
      pos := pos + 1;
    }
    assert Blanks(msg[pos..]) == 0;
  }

  method SkipDigits(msg: string, start: nat) returns (pos: nat)
    requires start <= |msg|
    ensures pos == start + J.DigitPrefix(msg[start..])
  {
    pos := start;
    while pos < |msg| && D.IsDigit(msg[pos])
      invariant start <= pos <= |msg|
      invariant J.DigitPrefix(msg[start..]) == pos - start + J.DigitPrefix(msg[pos..])
    {
      assert msg[pos..][1..] == msg[pos + 1..];
      pos := pos + 1;
    }
    assert J.DigitPrefix(msg[pos..]) == 0;
  }

  method ReadId(msg: string, from: nat) returns (r: PostId)
    requires from <= |msg|
    ensures r == IdAt(msg[from..])
  {
    ghost var t := msg[from..];
    var start := SkipBlanks(msg, from);
    ghost var u := msg[start..];
    assert u == t[Blanks(t)..];
    var end := SkipDigits(msg, start);
    assert msg[start..end] == u[..J.DigitPrefix(u)];
    if end == start {
      return NoId;
    }
    r := IdOf(msg[start..end]);
  }

  // ---------- The body of a reply ----------

  function ErrorBody(message: string): string {
    "{\"status\":\"error\",\"error\":\"" + message + "\"}"
  }

  const TYPE_KEY := "\"type\""

  const PAYLOAD_KEY := "\"payload\""

  /** What the caller gets for a reply. */
  function ReplyBody(msg: string): string {
    var kind, payload := Extract(msg, TYPE_KEY), Extract(msg, PAYLOAD_KEY);
    if kind.None? then ErrorBody("ws_post_missing_payload")
    else if kind.value == "\"error\"" then
      if payload.Some? then ErrorBody(payload.value) else ErrorBody("ws_post_error")
    else if payload.Some? then payload.value
    else ErrorBody("ws_post_missing_payload")
  }
}
