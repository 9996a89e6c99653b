/** The text `JSON.stringify` gives a tree, and that no other tree has the same text. */
module JsonText {
  import opened Decimals
  import opened Json

  function HexDigit(n: nat): char
    requires n < 16
  {
    if n < 10 then ('0' as int + n) as char else ('a' as int + n - 10) as char
  }

  function HexValue(c: char): nat {
    if c <= '9' then (c as int - '0' as int + 48) % 48 else (c as int - 'a' as int + 107) % 97
  }

  /** Quotes, backslashes and control characters are escaped. */
  function Escape(c: char): string {
    if c == '"' then "\\\""
    else if c == '\\' then "\\\\"
    else if c == '\U{0008}' then "\\b"
    else if c == '\U{000C}' then "\\f"
    else if c == '\n' then "\\n"
    else if c == '\r' then "\\r"
    else if c == '\t' then "\\t"
    else if c < ' ' then "\\u00" + [HexDigit(c as int / 16), HexDigit(c as int % 16)]
    else [c]
  }

  /** How many characters an escape takes, read off its first two. */
  function EscapeLength(s: string): nat {
    if |s| < 2 || s[0] != '\\' then 1 else if s[1] == 'u' then 6 else 2
  }

  function EscapedBy(s: string): char {
    if |s| < 2 || s[0] != '\\' then (if s == [] then ' ' else s[0])
    else if s[1] == 'b' then '\U{0008}'
    else if s[1] == 'f' then '\U{000C}'
    else if s[1] == 'n' then '\n'
    else if s[1] == 'r' then '\r'
    else if s[1] == 't' then '\t'
    else if s[1] == 'u' && |s| >= 6 then Control(s[4], s[5])
    else s[1]
  }

  function Control(high: char, low: char): char {
    ((HexValue(high) * 16 + HexValue(low)) % 256) as char
  }

  lemma HexBack(n: nat)
    requires n < 16
    ensures HexValue(HexDigit(n)) == n
  {
  }

  lemma ControlBack(c: char)
    requires c < ' '
    ensures Control(HexDigit(c as int / 16), HexDigit(c as int % 16)) == c
  {
    HexBack(c as int / 16);
    HexBack(c as int % 16);
  }

  lemma EscapeBack(c: char, s: string)
    ensures EscapedBy(Escape(c) + s) == c && EscapeLength(Escape(c) + s) == |Escape(c)|
    ensures Escape(c) != [] && Escape(c)[0] != '"'
  {
    var e := Escape(c) + s;
    assert e[0] == Escape(c)[0];
    if |Escape(c)| >= 2 {
      assert e[1] == Escape(c)[1];
    }
    if |Escape(c)| == 6 {
      assert e[4] == Escape(c)[4] && e[5] == Escape(c)[5];
      ControlBack(c);
    }
  }

  lemma EscapeEnds(c: char, d: char, s: string, t: string)
    requires Escape(c) + s == Escape(d) + t
    ensures c == d && s == t
  {
    EscapeBack(c, s);
    EscapeBack(d, t);
    assert s == (Escape(c) + s)[|Escape(c)|..];
    assert t == (Escape(d) + t)[|Escape(d)|..];
  }

  // -------------------------------------------------------------------- text

  /** The rest of a quoted string, with its closing quote. */
  function Quoted(s: string): string {
    if s == [] then "\"" else Escape(s[0]) + Quoted(s[1..])
  }

  function Number(n: int): string {
    if n < 0 then "-" + Decimal(-n) else Decimal(n)
  }

  function Width(j: Json): nat {
    if j.Arr? then |j.items| + 1 else if j.Obj? then |j.entries| + 1 else 0
  }

  function Print(j: Json): string
    decreases j, Width(j)
  {
    match j
    case Null => "null"
    case Bool(b) => if b then "true" else "false"
    case Num(n) => Number(n)
    case Str(s) => "\"" + Quoted(s)
    case Arr(items) => "[" + PrintItems(j, 0)
    case Obj(entries) => "{" + PrintEntries(j, 0)
  }

  /** The items from `i` on, each after the first behind a comma, and the closing bracket. */
  function PrintItems(j: Json, i: nat): string
    requires j.Arr? && i <= |j.items|
    decreases j, |j.items| - i
  {
    if i == |j.items| then "]" else (if i == 0 then "" else ",") + Print(j.items[i]) + PrintItems(j, i + 1)
  }

  function PrintEntries(j: Json, i: nat): string
    requires j.Obj? && i <= |j.entries|
    decreases j, |j.entries| - i
  {
    if i == |j.entries| then "}"
    else
      (if i == 0 then ""
        else ",") + "\"" + Quoted(j.entries[i].0) + ":" + Print(j.entries[i].1) + PrintEntries(j, i + 1)
  }

  // ------------------------------------------------- the text determines it

  /** Nothing, or a character that ends a value inside an array or an object. */
  predicate Ends(s: string) { s == [] || s[0] in {',', ']', '}'} }

  lemma AfterPrefix(p: string, s: string, t: string)
    requires p + s == p + t
    ensures s == t
  {
    assert s == (p + s)[|p|..] && t == (p + t)[|p|..];
  }

  lemma QuotedStart(a: string, s: string)
    ensures Quoted(a) != [] && ((Quoted(a) + s)[0] == '"' <==> a == [])
  {
    if a != [] {
      EscapeBack(a[0], Quoted(a[1..]));
      assert (Quoted(a) + s)[0] == Escape(a[0])[0];
    }
  }

  lemma QuotedText(a: string, s: string)
    requires a != []
    ensures Quoted(a) + s == Escape(a[0]) + (Quoted(a[1..]) + s)
  {
  }

  lemma {:induction false} QuotedEnds(a: string, b: string, s: string, t: string)
    requires Quoted(a) + s == Quoted(b) + t
    ensures a == b && s == t
    decreases |a|
  {
    QuotedStart(a, s);
    QuotedStart(b, t);
    if a == [] {
      AfterPrefix("\"", s, t);
    } else {
      QuotedText(a, s);
      QuotedText(b, t);
      EscapeEnds(a[0], b[0], Quoted(a[1..]) + s, Quoted(b[1..]) + t);
      QuotedEnds(a[1..], b[1..], s, t);
      assert a == [a[0]] + a[1..] && b == [b[0]] + b[1..];
    }
  }

  lemma NumberEnds(m: int, n: int, s: string, t: string)
    requires Number(m) + s == Number(n) + t && Ends(s) && Ends(t)
    ensures m == n && s == t
  {
    NumberStart(m, s);
    NumberStart(n, t);
    if m < 0 {
      NegativeText(m, s);
      NegativeText(n, t);
      AfterPrefix("-", Decimal(-m) + s, Decimal(-n) + t);
      DecimalEnds(-m, -n, s, t);
    } else {
      DecimalEnds(m, n, s, t);
    }
  }

  lemma NegativeText(n: int, s: string)
    requires n < 0
    ensures Number(n) + s == "-" + (Decimal(-n) + s)
  {
  }

  lemma NumberStart(n: int, s: string)
    ensures Number(n) != [] && (Number(n) + s)[0] == Number(n)[0]
    ensures Number(n)[0] == '-' <==> n < 0
    ensures n >= 0 ==> IsDecimal(Number(n)[0])
  {
    if n >= 0 {
      assert IsDecimal(Decimal(n)[0]);
    }
  }

  /** What kind of value a text starts. */
  function Kind(c: char): nat {
    if c == '"' then 1 else if c == '[' then 2 else if c == '{' then 3 else if c == 'n' then 4
    else if c == 't' then 5 else if c == 'f' then 6 else 0
  }

  function KindOf(j: Json): nat {
    match j
    case Null => 4
    case Bool(b) => if b then 5 else 6
    case Num(_) => 0
    case Str(_) => 1
    case Arr(_) => 2
    case Obj(_) => 3
  }

  lemma PrintStart(j: Json, s: string)
    ensures Print(j) != [] && Kind((Print(j) + s)[0]) == KindOf(j)
    ensures (Print(j) + s)[0] !in {',', ']', '}'}
  {
    if j.Num? {
      NumberStart(j.n, s);
    }
  }

  lemma StrText(j: Json, s: string)
    requires j.Str?
    ensures Print(j) + s == "\"" + (Quoted(j.s) + s)
  {
  }

  lemma ArrText(j: Json, s: string)
    requires j.Arr?
    ensures Print(j) + s == "[" + (PrintItems(j, 0) + s)
  {
  }

  lemma ObjText(j: Json, s: string)
    requires j.Obj?
    ensures Print(j) + s == "{" + (PrintEntries(j, 0) + s)
  {
  }

  /** Equal texts that go on alike come from equal values. */
  lemma {:induction false} PrintEnds(a: Json, b: Json, s: string, t: string)
    requires Print(a) + s == Print(b) + t && Ends(s) && Ends(t)
    ensures a == b && s == t
    decreases a, Width(a)
  {
    PrintStart(a, s);
    PrintStart(b, t);
    if a.Null? || a.Bool? {
      AfterPrefix(Print(a), s, t);
    } else if a.Num? {
      NumberEnds(a.n, b.n, s, t);
    } else if a.Str? {
      StrText(a, s);
      StrText(b, t);
      AfterPrefix("\"", Quoted(a.s) + s, Quoted(b.s) + t);
      QuotedEnds(a.s, b.s, s, t);
    } else if a.Arr? {
      ArrText(a, s);
      ArrText(b, t);
      AfterPrefix("[", PrintItems(a, 0) + s, PrintItems(b, 0) + t);
      ItemsEnd(a, b, 0, s, t);
    } else {
      ObjText(a, s);
      ObjText(b, t);
      AfterPrefix("{", PrintEntries(a, 0) + s, PrintEntries(b, 0) + t);
      EntriesEnd(a, b, 0, s, t);
    }
  }

  /** The first character of what follows an item. */
  lemma ItemsStart(j: Json, i: nat, s: string)
    requires j.Arr? && i <= |j.items|
    ensures PrintItems(j, i) != []
    ensures i > 0 ==> Ends(PrintItems(j, i) + s)
    ensures i == |j.items| <==> (PrintItems(j, i) + s)[0] == ']'
  {
    if i < |j.items| {
      PrintStart(j.items[i], PrintItems(j, i + 1) + s);
      ItemSplit(j, i, s);
    }
  }

  function Comma(i: nat): string { if i == 0 then "" else "," }

  lemma ItemSplit(j: Json, i: nat, s: string)
    requires j.Arr? && i < |j.items|
    ensures PrintItems(j, i) + s == Comma(i) + (Print(j.items[i]) + (PrintItems(j, i + 1) + s))
  {
  }

  lemma OneMoreAlike<T>(a: seq<T>, b: seq<T>, i: nat)
    requires i < |a| && i < |b| && a[..i] == b[..i] && a[i] == b[i]
    ensures a[..i + 1] == b[..i + 1]
  {
    assert a[..i + 1] == a[..i] + [a[i]] && b[..i + 1] == b[..i] + [b[i]];
  }

  lemma AllAlike<T>(a: seq<T>, b: seq<T>, i: nat)
    requires i == |a| == |b| && a[..i] == b[..i]
    ensures a == b
  {
    assert a == a[..i] && b == b[..i];
  }

  lemma {:induction false} ItemsEnd(a: Json, b: Json, i: nat, s: string, t: string)
    requires a.Arr? && b.Arr? && i <= |a.items| && i <= |b.items| && a.items[..i] == b.items[..i]
    requires PrintItems(a, i) + s == PrintItems(b, i) + t
    ensures a == b && s == t
    decreases a, |a.items| - i
  {
    ItemsStart(a, i, s);
    ItemsStart(b, i, t);
    if i == |a.items| {
      AfterPrefix("]", s, t);
      AllAlike(a.items, b.items, i);
    } else {
      var x, y := a.items[i], b.items[i];
      var restA, restB := PrintItems(a, i + 1) + s, PrintItems(b, i + 1) + t;
      ItemSplit(a, i, s);
      ItemSplit(b, i, t);
      AfterPrefix(Comma(i), Print(x) + restA, Print(y) + restB);
      ItemsStart(a, i + 1, s);
      ItemsStart(b, i + 1, t);
      PrintEnds(x, y, restA, restB);
      OneMoreAlike(a.items, b.items, i);
      ItemsEnd(a, b, i + 1, s, t);
    }
  }

  lemma EntriesStart(j: Json, i: nat, s: string)
    requires j.Obj? && i <= |j.entries|
    ensures PrintEntries(j, i) != []
    ensures i > 0 ==> Ends(PrintEntries(j, i) + s)
    ensures i == |j.entries| <==> (PrintEntries(j, i) + s)[0] == '}'
  {
    if 0 < i < |j.entries| {
      assert PrintEntries(j, i)[0] == ',';
    } else if i < |j.entries| {
      assert PrintEntries(j, i)[0] == '"';
    }
  }

  /** An entry's text, with what follows it. */
  lemma EntrySplit(j: Json, i: nat, s: string)
    requires j.Obj? && i < |j.entries|
    ensures PrintEntries(j, i) + s ==
      (Comma(i) + "\"")
      + (Quoted(j.entries[i].0) + (":" + (Print(j.entries[i].1) + (PrintEntries(j, i + 1) + s))))
  {
  }

  lemma {:induction false} EntriesEnd(a: Json, b: Json, i: nat, s: string, t: string)
    requires a.Obj? && b.Obj? && i <= |a.entries| && i <= |b.entries| && a.entries[..i] == b.entries[..i]
    requires PrintEntries(a, i) + s == PrintEntries(b, i) + t
    ensures a == b && s == t
    decreases a, |a.entries| - i
  {
    EntriesStart(a, i, s);
    EntriesStart(b, i, t);
    if i == |a.entries| {
      AfterPrefix("}", s, t);
      AllAlike(a.entries, b.entries, i);
    } else {
      var restA, restB := PrintEntries(a, i + 1) + s, PrintEntries(b, i + 1) + t;
      var x, y := a.entries[i], b.entries[i];
      EntrySplit(a, i, s);
      EntrySplit(b, i, t);
      var tailA, tailB := Print(x.1) + restA, Print(y.1) + restB;
      AfterPrefix(Comma(i) + "\"", Quoted(x.0) + (":" + tailA), Quoted(y.0) + (":" + tailB));
      QuotedEnds(x.0, y.0, ":" + tailA, ":" + tailB);
      AfterPrefix(":", tailA, tailB);
      EntriesStart(a, i + 1, s);
      EntriesStart(b, i + 1, t);
      PrintEnds(x.1, y.1, restA, restB);
      OneMoreAlike(a.entries, b.entries, i);
      EntriesEnd(a, b, i + 1, s, t);
    }
  }

  /** No two values have the same text. */
  lemma TextDetermines(a: Json, b: Json)
    ensures Print(a) == Print(b) <==> a == b
  {
    if Print(a) == Print(b) {
      assert Print(a) + [] == Print(a) && Print(b) + [] == Print(b);
      PrintEnds(a, b, [], []);
    }
  }
}
