/** The compact JSON that the actions are posted as: printing, and an exact strict reader. */
module JsonText {
  import opened Types
  import opened Trees
  import D = Decimal

  /** Text that needs no escaping inside quotes. */
  predicate Plain(s: string) {
    forall i :: 0 <= i < |s| ==> s[i] >= ' ' && s[i] != '"' && s[i] != '\\'
  }

  function Quoted(s: string): string {
    "\"" + s + "\""
  }

  function Print(t: Tree): string
    decreases t, 1
  {
    match t
    case Str(s) => Quoted(s)
    case Uint(n) => D.Text(n)
    case Bool(f) => if f then "true" else "false"
    case Arr(items) => "[" + PrintItems(items)
    case Map(fields) => "{" + PrintFields(fields)
  }

  /** The items with the separators between them and the closing bracket. */
  function PrintItems(items: seq<Tree>): string
    decreases items, 0
  {
    if items == [] then "]"
    else Print(items[0]) + (if |items| == 1 then "]" else "," + PrintItems(items[1..]))
  }

  function PrintField(f: Field): string
    decreases f, 2
  {
    Quoted(f.key) + (":" + Print(f.value))
  }

  function PrintFields(fields: seq<Field>): string
    decreases fields, 0
  {
    if fields == [] then "}"
    else PrintField(fields[0]) + (if |fields| == 1 then "}" else "," + PrintFields(fields[1..]))
  }

  predicate Printable(t: Tree)
    decreases t, 1
  {
    match t
    case Str(s) => Plain(s)
    case Arr(items) => ItemsPrintable(items)
    case Map(fields) => FieldsPrintable(fields)
    case _ => true
  }

  predicate ItemsPrintable(items: seq<Tree>)
    decreases items, 0
  {
    items == [] || (Printable(items[0]) && ItemsPrintable(items[1..]))
  }

  predicate FieldsPrintable(fields: seq<Field>)
    decreases fields, 0
  {
    fields == [] || (Plain(fields[0].key) && Printable(fields[0].value) && FieldsPrintable(fields[1..]))
  }

  // ---------- Reading ----------

  /** Length of the longest prefix of plain characters. */
  function PlainPrefix(s: string): (n: nat)
    ensures n <= |s| && Plain(s[..n])
    ensures n < |s| ==> !Plain([s[n]])
  {
    if s == "" || !Plain([s[0]]) then 0
    else
      var n := PlainPrefix(s[1..]);
      assert s[..1 + n] == [s[0]] + s[1..][..n];
      assert [s[0]][0] == s[0];
      1 + n
  }

  function DigitPrefix(s: string): (n: nat)
    ensures n <= |s| && D.AllDigits(s[..n])
    ensures n < |s| ==> !D.IsDigit(s[n])
  {
    if s == "" || !D.IsDigit(s[0]) then 0
    else
      var n := DigitPrefix(s[1..]);
      assert s[..1 + n] == [s[0]] + s[1..][..n];
      1 + n
  }

  /** A quoted string at the front of s. */
  function ReadString(s: string): (r: Option<(string, string)>)
    ensures r.Some? ==> |r.value.1| < |s|
  {
    if s == "" || s[0] != '"' then None else
    var n := PlainPrefix(s[1..]);
    if 1 + n < |s| && s[1 + n] == '"' then Some((s[1..1 + n], s[2 + n..])) else None
  }

  function ReadNumber(s: string): (r: Option<(Tree, string)>)
    ensures r.Some? ==> |r.value.1| < |s|
  {
    var n := DigitPrefix(s);
    if D.Canonical(s[..n]) && D.Value(s[..n]) < TWO_TO_64 then Some((Uint(D.Value(s[..n])), s[n..])) else None
  }

  function Read(s: string): (r: Option<(Tree, string)>)
    ensures r.Some? ==> |r.value.1| < |s|
    decreases |s|, 0
  {
    if s == "" then None
    else if s[0] == '"' then
      var r := ReadString(s);
      if r.None? then None else Some((Str(r.value.0), r.value.1))
    else if s[0] == '[' then
      if 1 < |s| && s[1] == ']' then Some((Arr([]), s[2..])) else
      var r := ReadItems(s[1..]);
      if r.None? then None else Some((Arr(r.value.0), r.value.1))
    else if s[0] == '{' then
      if 1 < |s| && s[1] == '}' then Some((Map([]), s[2..])) else
      var r := ReadFields(s[1..]);
      if r.None? then None else Some((Map(r.value.0), r.value.1))
    else if "true" <= s then Some((Bool(true), s[4..]))
    else if "false" <= s then Some((Bool(false), s[5..]))
    else ReadNumber(s)
  }

  /** One or more items up to and including the closing bracket. */
  function ReadItems(s: string): (r: Option<(seq<Tree>, string)>)
    ensures r.Some? ==> |r.value.1| < |s|
    decreases |s|, 1
  {
    var first := Read(s);
    if first.None? then None else
    var (item, rest) := first.value;
    if rest == "" then None
    else if rest[0] == ']' then Some(([item], rest[1..]))
    else if rest[0] == ',' then
      var others := ReadItems(rest[1..]);
      if others.None? then None else Some(([item] + others.value.0, others.value.1))
    else None
  }

  function ReadField(s: string): (r: Option<(Field, string)>)
    ensures r.Some? ==> |r.value.1| < |s|
    decreases |s|, 1
  {
    var key := ReadString(s);
    if key.None? || key.value.1 == "" || key.value.1[0] != ':' then None else
    var value := Read(key.value.1[1..]);
    if value.None? then None else Some((Field(key.value.0, value.value.0), value.value.1))
  }

  function ReadFields(s: string): (r: Option<(seq<Field>, string)>)
    ensures r.Some? ==> |r.value.1| < |s|
    decreases |s|, 2
  {
    var first := ReadField(s);
    if first.None? then None else
    var (field, rest) := first.value;
    if rest == "" then None
    else if rest[0] == '}' then Some(([field], rest[1..]))
    else if rest[0] == ',' then
      var others := ReadFields(rest[1..]);
      if others.None? then None else Some(([field] + others.value.0, others.value.1))
    else None
  }

  // ---------- Reading what was printed ----------

  lemma Regroup(a: string, b: string, c: string)
    ensures (a + b) + c == a + (b + c)
  {
  }

  lemma {:induction false} PlainPrefixStops(s: string, rest: string)
    requires Plain(s) && rest != "" && !Plain([rest[0]])
    ensures PlainPrefix(s + rest) == |s|
    decreases |s|
  {
    if s == "" {
      assert s + rest == rest;
    } else {
      assert (s + rest)[1..] == s[1..] + rest;
      PlainPrefixStops(s[1..], rest);
    }
  }

  lemma {:induction false} DigitPrefixStops(s: string, rest: string)
    requires D.AllDigits(s) && (rest != "" ==> !D.IsDigit(rest[0]))
    ensures DigitPrefix(s + rest) == |s|
    decreases |s|
  {
    if s == "" {
      assert s + rest == rest;
    } else {
      assert (s + rest)[1..] == s[1..] + rest;
      DigitPrefixStops(s[1..], rest);
    }
  }

  lemma ReadQuoted(s: string, rest: string)
    requires Plain(s)
    ensures ReadString(Quoted(s) + rest) == Some((s, rest))
  {
    var t := Quoted(s) + rest;
    assert t[1..] == s + ("\"" + rest);
    PlainPrefixStops(s, "\"" + rest);
    assert t[1..1 + |s|] == s && t[2 + |s|..] == rest;
  }

  lemma ReadText(n: uint64, rest: string)
    requires rest != "" ==> !D.IsDigit(rest[0])
    ensures ReadNumber(D.Text(n) + rest) == Some((Uint(n), rest))
  {
    var s := D.Text(n);
    D.ValueOfText(n);
    DigitPrefixStops(s, rest);
    assert (s + rest)[..|s|] == s && (s + rest)[|s|..] == rest;
  }

  /** Numbers are the only values whose end depends on what follows. */
  predicate Ends(rest: string) {
    rest != "" ==> !D.IsDigit(rest[0])
  }

  /** What a printed value starts with: enough to tell it from a closing bracket. */
  lemma PrintStarts(t: Tree)
    ensures Print(t) != "" && Print(t)[0] != ']' && Print(t)[0] != '}'
    ensures t.Uint? ==> D.IsDigit(Print(t)[0])
  {
  }

  lemma ReadBool(f: bool, rest: string)
    ensures Read(Print(Bool(f)) + rest) == Some((Bool(f), rest))
  {
    var s := Print(Bool(f)) + rest;
    if f {
      assert s[4..] == rest;
    } else {
      assert s[5..] == rest;
    }
  }

  lemma ReadList(items: seq<Tree>, rest: string)
    requires items != [] ==> ReadItems(PrintItems(items) + rest) == Some((items, rest))
    ensures Read(Print(Arr(items)) + rest) == Some((Arr(items), rest))
  {
    if items != [] {
      ItemsStart(items);
    }
    ReadArr(items, PrintItems(items) + rest, rest);
    Regroup("[", PrintItems(items), rest);
  }

  lemma ReadObject(fields: seq<Field>, rest: string)
    requires fields != [] ==> ReadFields(PrintFields(fields) + rest) == Some((fields, rest))
    ensures Read(Print(Map(fields)) + rest) == Some((Map(fields), rest))
  {
    if fields != [] {
      FieldsStart(fields);
    }
    ReadMap(fields, PrintFields(fields) + rest, rest);
    Regroup("{", PrintFields(fields), rest);
  }

  lemma ReadLeaf(t: Tree, rest: string)
    requires Printable(t) && Ends(rest) && (t.Str? || t.Uint?)
    ensures Read(Print(t) + rest) == Some((t, rest))
  {
    if t.Str? {
      ReadQuoted(t.text, rest);
    } else {
      PrintStarts(t);
      ReadText(t.number, rest);
    }
  }

  lemma {:induction false} ReadPrinted(t: Tree, rest: string)
    requires Printable(t) && Ends(rest)
    ensures Read(Print(t) + rest) == Some((t, rest))
    decreases t, 1
  {
    match t
    case Str(_) => ReadLeaf(t, rest);
    case Uint(_) => ReadLeaf(t, rest);
    case Bool(f) => ReadBool(f, rest);
    case Arr(items) =>
      if items != [] {
        ReadPrintedItems(items, rest);
      }
      ReadList(items, rest);
    case Map(fields) =>
      if fields != [] {
        ReadPrintedFields(fields, rest);
      }
      ReadObject(fields, rest);
  }

  lemma ReadArr(items: seq<Tree>, body: string, rest: string)
    requires items == [] ==> body == "]" + rest
    requires items != [] ==> body != "" && body[0] != ']' && ReadItems(body) == Some((items, rest))
    ensures Read("[" + body) == Some((Arr(items), rest))
  {
    var s := "[" + body;
    assert s[1..] == body;
    if items == [] {
      assert s[2..] == rest;
    }
  }

  lemma ReadMap(fields: seq<Field>, body: string, rest: string)
    requires fields == [] ==> body == "}" + rest
    requires fields != [] ==> body != "" && body[0] != '}' && ReadFields(body) == Some((fields, rest))
    ensures Read("{" + body) == Some((Map(fields), rest))
  {
    var s := "{" + body;
    assert s[1..] == body;
    if fields == [] {
      assert s[2..] == rest;
    }
  }

  lemma FieldsStart(fields: seq<Field>)
    requires fields != []
    ensures PrintFields(fields) != "" && PrintFields(fields)[0] == '"'
  {
    assert Quoted(fields[0].key)[0] == '"';
    assert PrintField(fields[0])[0] == '"';
  }

  lemma ItemsStart(items: seq<Tree>)
    requires items != []
    ensures PrintItems(items) != "" && PrintItems(items)[0] != ']'
  {
    PrintStarts(items[0]);
  }

  lemma {:induction false} ReadPrintedItems(items: seq<Tree>, rest: string)
    requires items != [] && ItemsPrintable(items)
    ensures ReadItems(PrintItems(items) + rest) == Some((items, rest))
    decreases items, 0
  {
    var tail := (if |items| == 1 then "]" else "," + PrintItems(items[1..])) + rest;
    Regroup(Print(items[0]), if |items| == 1 then "]" else "," + PrintItems(items[1..]), rest);
    ReadPrinted(items[0], tail);
    if |items| == 1 {
      assert tail[1..] == rest;
      assert items == [items[0]];
    } else {
      assert tail[1..] == PrintItems(items[1..]) + rest;
      ReadPrintedItems(items[1..], rest);
      assert items == [items[0]] + items[1..];
    }
  }

  lemma {:induction false} ReadPrintedField(f: Field, rest: string) // default induction gets in the way
    requires Plain(f.key) && Read(Print(f.value) + rest) == Some((f.value, rest))
    ensures ReadField(PrintField(f) + rest) == Some((f, rest))
  {
    var tail := (":" + Print(f.value)) + rest;
    Regroup(Quoted(f.key), ":" + Print(f.value), rest);
    ReadQuoted(f.key, tail);
    assert tail[1..] == Print(f.value) + rest;
  }

  lemma ReadFieldsOn(s: string, field: Field, tail: string, others: seq<Field>, rest: string)
    requires ReadField(s) == Some((field, tail)) && tail != ""
    requires tail[0] == '}' ==> others == [] && rest == tail[1..]
    requires tail[0] != '}' ==> tail[0] == ',' && ReadFields(tail[1..]) == Some((others, rest))
    ensures ReadFields(s) == Some(([field] + others, rest))
  {
    if others == [] {
      assert [field] + others == [field];
    }
  }

  lemma {:induction false} ReadPrintedFields(fields: seq<Field>, rest: string)
    requires fields != [] && FieldsPrintable(fields)
    ensures ReadFields(PrintFields(fields) + rest) == Some((fields, rest))
    decreases fields, 0
  {
    var others := fields[1..];
    var end := if others == [] then "}" else "," + PrintFields(others);
    var tail := end + rest;
    if others == [] {
      assert tail[1..] == rest;
    } else {
      assert tail[1..] == PrintFields(others) + rest;
      ReadPrintedFields(others, rest);
    }
    ReadPrinted(fields[0].value, tail);
    ReadPrintedField(fields[0], tail);
    ReadFieldsOn(PrintField(fields[0]) + tail, fields[0], tail, others, rest);
    Regroup(PrintField(fields[0]), end, rest);
    assert fields == [fields[0]] + others;
  }

  // ---------- Printing what was read ----------

  lemma ReadStringIsQuoted(s: string)
    requires ReadString(s).Some?
    ensures s == Quoted(ReadString(s).value.0) + ReadString(s).value.1
  {
    var n := PlainPrefix(s[1..]);
    assert s == "\"" + s[1..1 + n] + "\"" + s[2 + n..];
  }

  lemma ReadNumberIsText(s: string)
    requires ReadNumber(s).Some?
    ensures s == Print(ReadNumber(s).value.0) + ReadNumber(s).value.1
  {
    var n := DigitPrefix(s);
    D.TextOfValue(s[..n]);
  }

  /** Nothing else is read as a tree: the reader accepts exactly the printed text. */
  lemma {:induction false} ReadIsPrinted(s: string)
    requires Read(s).Some?
    ensures s == Print(Read(s).value.0) + Read(s).value.1
    decreases |s|, 0
  {
    var (t, rest) := Read(s).value;
    if s[0] == '"' {
      ReadStringIsQuoted(s);
    } else if s[0] == '[' {
      if 1 < |s| && s[1] == ']' {
        assert s == "[]" + s[2..];
        assert Print(t) == "[" + "]";
      } else {
        ReadItemsArePrinted(s[1..]);
        assert s == "[" + s[1..];
        Regroup("[", PrintItems(t.items), rest);
      }
    } else if s[0] == '{' {
      if 1 < |s| && s[1] == '}' {
        assert s == "{}" + s[2..];
        assert Print(t) == "{" + "}";
      } else {
        ReadFieldsArePrinted(s[1..]);
        assert s == "{" + s[1..];
        Regroup("{", PrintFields(t.fields), rest);
      }
    } else if "true" <= s {
    } else if "false" <= s {
    } else {
      ReadNumberIsText(s);
    }
  }

  lemma JoinItems(item: Tree, others: seq<Tree>, end: string)
    requires others != []
    ensures PrintItems([item] + others) + end == Print(item) + ("," + (PrintItems(others) + end))
  {
    var items := [item] + others;
    assert items[0] == item && items[1..] == others;
    Regroup(",", PrintItems(others), end);
    Regroup(Print(item), "," + PrintItems(others), end);
  }

  lemma JoinFields(field: Field, others: seq<Field>, end: string)
    requires others != []
    ensures PrintFields([field] + others) + end == PrintField(field) + ("," + (PrintFields(others) + end))
  {
    var fields := [field] + others;
    assert fields[0] == field && fields[1..] == others;
    Regroup(",", PrintFields(others), end);
    Regroup(PrintField(field), "," + PrintFields(others), end);
  }

  lemma {:induction false} ReadItemsArePrinted(s: string)
    requires ReadItems(s).Some?
    ensures ReadItems(s).value.0 != []
    ensures s == PrintItems(ReadItems(s).value.0) + ReadItems(s).value.1
    decreases |s|, 1
  {
    var (items, end) := ReadItems(s).value;
    var (item, rest) := Read(s).value;
    ReadIsPrinted(s);
    if rest[0] == ']' {
      assert rest == "]" + rest[1..];
      Regroup(Print(item), "]", end);
    } else {
      ReadItemsArePrinted(rest[1..]);
      var others := ReadItems(rest[1..]).value.0;
      assert rest == "," + rest[1..];
      JoinItems(item, others, end);
    }
  }

  lemma {:induction false} ReadFieldsArePrinted(s: string)
    requires ReadFields(s).Some?
    ensures ReadFields(s).value.0 != []
    ensures s == PrintFields(ReadFields(s).value.0) + ReadFields(s).value.1
    decreases |s|, 2
  {
    var (fields, end) := ReadFields(s).value;
    var (field, rest) := ReadField(s).value;
    ReadFieldIsPrinted(s);
    if rest[0] == '}' {
      assert rest == "}" + rest[1..];
      Regroup(PrintField(field), "}", end);
    } else {
      ReadFieldsArePrinted(rest[1..]);
      var others := ReadFields(rest[1..]).value.0;
      assert rest == "," + rest[1..];
      JoinFields(field, others, end);
    }
  }

  lemma {:induction false} ReadFieldIsPrinted(s: string)
    requires ReadField(s).Some?
    ensures s == PrintField(ReadField(s).value.0) + ReadField(s).value.1
    decreases |s|, 1
  {
    var (field, rest) := ReadField(s).value;
    ReadStringIsQuoted(s);
    var afterKey := ReadString(s).value.1;
    ReadIsPrinted(afterKey[1..]);
    assert afterKey == ":" + afterKey[1..];
    Regroup(":", Print(field.value), rest);
    Regroup(Quoted(field.key), ":" + Print(field.value), rest);
  }
}
