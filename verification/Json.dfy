/** JSON trees, the text that `json.dumps` gives them and the reader `json.loads`.

    A number is kept as the token it is written with, since neither the sorter nor the comparison
    of configurations ever computes with it. */
module Json {

  datatype Entry = Entry(key: string, value: Json)

  datatype Json =
    | Null
    | Bool(b: bool)
    | Number(token: string)
    | Str(s: string)
    | List(items: seq<Json>)
    | Dict(entries: seq<Entry>)

  predicate IsDigit(c: char) { '0' <= c <= '9' }

  predicate IsNumberStart(c: char) { IsDigit(c) || c == '-' || c == 'N' || c == 'I' }

  predicate IsNumberChar(c: char) {
    IsDigit(c) || c == '-' || c == '+' || c == '.' || 'a' <= c <= 'z' || 'A' <= c <= 'Z'
  }

  predicate IsToken(token: string) {
    token != [] && IsNumberStart(token[0]) && forall c <- token :: IsNumberChar(c)
  }

  /** Every number is a token and no dictionary holds a key twice. */
  predicate Valid(v: Json) {
    match v
    case Number(token) => IsToken(token)
    case List(items) => forall x <- items :: Valid(x)
    case Dict(entries) => DistinctKeys(entries) && forall e <- entries :: Valid(e.value)
    case _ => true
  }

  predicate DistinctKeys(entries: seq<Entry>) {
    forall i, j :: 0 <= i < j < |entries| ==> entries[i].key != entries[j].key
  }

  // ---------------------------------------------------------------- dumps

  const HEX := "0123456789abcdef"

  function Hex4(n: nat): (r: string)
    requires n < 0x10000
    ensures |r| == 4
  {
    [HEX[n / 16 / 16 / 16], HEX[n / 16 / 16 % 16], HEX[n / 16 % 16], HEX[n % 16]]
  }

  function UnicodeEscape(n: nat): (r: string)
    requires n < 0x10000
    ensures |r| == 6
  {
    "\\u" + Hex4(n)
  }

  /** The letter of a two-character escape, or a space where there is none. */
  function ShortEscape(c: char): char {
    if c == '\"' || c == '\\' then c
    else if c == '\n' then 'n'
    else if c == '\r' then 'r'
    else if c == '\t' then 't'
    else if c as int == 0x08 then 'b'
    else if c as int == 0x0c then 'f'
    else ' '
  }

  /** The ASCII-only escaping of one character; above the basic plane, as a surrogate pair. */
  function EscapeChar(c: char): (r: string)
    ensures r != [] && (r[0] != '\\' ==> r == [c]) && r[0] != '\"'
  {
    if ShortEscape(c) != ' ' then ['\\', ShortEscape(c)]
    else if ' ' <= c <= '~' then [c]
    else if (c as int) < 0x10000 then UnicodeEscape(c as int)
    else UnicodeEscape(0xd800 + (c as int - 0x10000) / 0x400) + UnicodeEscape(0xdc00 + (c as int - 0x10000) % 0x400)
  }

  function Escape(s: string): string {
    if s == [] then [] else EscapeChar(s[0]) + Escape(s[1..])
  }

  function Quote(s: string): string { "\"" + Escape(s) + "\"" }

  /** `json.dumps(v)` with its default separators; keys in the order they have. */
  function Print(v: Json): string
    decreases v, 1
  {
    match v
    case Null => "null"
    case Bool(b) => if b then "true" else "false"
    case Number(token) => token
    case Str(s) => Quote(s)
    case List(items) => "[" + PrintItems(items) + "]"
    case Dict(entries) => "{" + PrintEntries(entries) + "}"
  }

  function PrintItems(items: seq<Json>): string
    decreases items, 0
  {
    if items == [] then ""
    else if |items| == 1 then Print(items[0])
    else Print(items[0]) + ", " + PrintItems(items[1..])
  }

  function PrintEntries(entries: seq<Entry>): string
    decreases entries, 0
  {
    if entries == [] then ""
    else if |entries| == 1 then PrintEntry(entries[0])
    else PrintEntry(entries[0]) + ", " + PrintEntries(entries[1..])
  }

  function PrintEntry(e: Entry): string
    decreases e, 0
  {
    Quote(e.key) + ": " + Print(e.value)
  }

  // ---------------------------------------------------------------- loads

  datatype Parsed<+T> = Fail | Done(value: T, rest: string)

  predicate IsSpace(c: char) { c == ' ' || c == '\t' || c == '\n' || c == '\r' }

  function SkipSpace(s: string): (r: string)
    ensures |r| <= |s|
    ensures s == [] || !IsSpace(s[0]) ==> r == s
  {
    if s == [] || !IsSpace(s[0]) then s else SkipSpace(s[1..])
  }

  predicate Head(s: string, c: char) { s != [] && s[0] == c }

  predicate StartsWith(s: string, prefix: string) {
    |prefix| <= |s| && s[..|prefix|] == prefix
  }

  function HexValue(c: char): (r: int)
    ensures -1 <= r < 16
  {
    if '0' <= c <= '9' then c as int - '0' as int
    else if 'a' <= c <= 'f' then c as int - 'a' as int + 10
    else if 'A' <= c <= 'F' then c as int - 'A' as int + 10
    else -1
  }

  /** The code unit of a \uXXXX escape at the head of `s`, or -1. */
  function CodeUnit(s: string): (r: int)
    ensures -1 <= r < 0x10000 && (r >= 0 ==> |s| >= 6)
  {
    if |s| < 6 || s[0] != '\\' || s[1] != 'u' then -1
    else
      var a, b, c, d := HexValue(s[2]), HexValue(s[3]), HexValue(s[4]), HexValue(s[5]);
      if a < 0 || b < 0 || c < 0 || d < 0 then -1 else ((a * 16 + b) * 16 + c) * 16 + d
  }

  function SimpleEscape(c: char): Parsed<char> {
    if c == '\"' || c == '\\' || c == '/' then Done(c, [])
    else if c == 'b' then Done(0x08 as char, [])
    else if c == 'f' then Done(0x0c as char, [])
    else if c == 'n' then Done('\n', [])
    else if c == 'r' then Done('\r', [])
    else if c == 't' then Done('\t', [])
    else Fail
  }

  /** One character of a string body. A surrogate that has no partner is not a character here. */
  function ParseChar(s: string): (r: Parsed<char>)
    requires s != []
    ensures r.Done? ==> |r.rest| < |s|
  {
    if s[0] != '\\' then (if s[0] < ' ' then Fail else Done(s[0], s[1..]))
    else if |s| == 1 then Fail
    else if s[1] != 'u' then
      var simple := SimpleEscape(s[1]);
      if simple.Fail? then Fail else Done(simple.value, s[2..])
    else
      var unit := CodeUnit(s);
      if unit < 0 then Fail
      else if unit < 0xd800 || 0xe000 <= unit then Done(unit as char, s[6..])
      else
        var low := CodeUnit(s[6..]);
        if unit < 0xdc00 && 0xdc00 <= low < 0xe000 then
          Done((0x10000 + (unit - 0xd800) * 0x400 + (low - 0xdc00)) as char, s[12..])
        else Fail
  }

  /** The rest of a string whose opening quote has been read. */
  function ParseString(s: string): (r: Parsed<string>)
    ensures r.Done? ==> |r.rest| < |s|
    decreases |s|
  {
    if s == [] then Fail
    else if s[0] == '\"' then Done([], s[1..])
    else match ParseChar(s)
      case Fail => Fail
      case Done(c, rest) =>
        match ParseString(rest)
        case Fail => Fail
        case Done(cs, rest') => Done([c] + cs, rest')
  }

  function TokenLength(s: string): (r: nat)
    ensures r <= |s|
  {
    if s == [] || !IsNumberChar(s[0]) then 0 else 1 + TokenLength(s[1..])
  }

  function ParseValue(s: string): (r: Parsed<Json>)
    ensures r.Done? ==> |r.rest| < |s|
    decreases |s|, 1
  {
    if s == [] then Fail
    else if s[0] == 'n' then (if StartsWith(s, "null") then Done(Null, s[4..]) else Fail)
    else if s[0] == 't' then (if StartsWith(s, "true") then Done(Bool(true), s[4..]) else Fail)
    else if s[0] == 'f' then (if StartsWith(s, "false") then Done(Bool(false), s[5..]) else Fail)
    else if s[0] == '\"' then
      match ParseString(s[1..])
      case Fail => Fail
      case Done(text, rest) => Done(Str(text), rest)
    else if s[0] == '[' then
      var inside := SkipSpace(s[1..]);
      if Head(inside, ']') then Done(List([]), inside[1..])
      else match ParseItems(inside)
        case Fail => Fail
        case Done(items, rest) => Done(List(items), rest)
    else if s[0] == '{' then
      var inside := SkipSpace(s[1..]);
      if Head(inside, '}') then Done(Dict([]), inside[1..])
      else match ParseEntries(inside)
        case Fail => Fail
        case Done(entries, rest) => Done(Dict(entries), rest)
    else if IsNumberStart(s[0]) then
      var n := TokenLength(s);
      if n == 0 then Fail else Done(Number(s[..n]), s[n..])
    else Fail
  }

  function ParseItems(s: string): (r: Parsed<seq<Json>>)
    ensures r.Done? ==> |r.rest| < |s|
    decreases |s|, 2
  {
    match ParseValue(s)
    case Fail => Fail
    case Done(first, rest) =>
      var next := SkipSpace(rest);
      if Head(next, ']') then Done([first], next[1..])
      else if Head(next, ',') then
        match ParseItems(SkipSpace(next[1..]))
        case Fail => Fail
        case Done(more, rest') => Done([first] + more, rest')
      else Fail
  }

  function ParseEntry(s: string): (r: Parsed<Entry>)
    ensures r.Done? ==> |r.rest| < |s|
    decreases |s|, 2
  {
    if !Head(s, '\"') then Fail
    else match ParseString(s[1..])
      case Fail => Fail
      case Done(key, rest) =>
        var colon := SkipSpace(rest);
        if !Head(colon, ':') then Fail
        else match ParseValue(SkipSpace(colon[1..]))
          case Fail => Fail
          case Done(value, rest') => Done(Entry(key, value), rest')
  }

  function ParseEntries(s: string): (r: Parsed<seq<Entry>>)
    ensures r.Done? ==> |r.rest| < |s|
    decreases |s|, 3
  {
    match ParseEntry(s)
    case Fail => Fail
    case Done(first, rest) =>
      var next := SkipSpace(rest);
      if Head(next, '}') then Done([first], next[1..])
      else if Head(next, ',') then
        match ParseEntries(SkipSpace(next[1..]))
        case Fail => Fail
        case Done(more, rest') => Done([first] + more, rest')
      else Fail
  }

  datatype Loaded = Malformed | Loaded(value: Json)

  /** `json.loads`: one value and nothing after it. */
  function Loads(s: string): Loaded {
    match ParseValue(SkipSpace(s))
    case Fail => Malformed
    case Done(v, rest) => if SkipSpace(rest) == [] then Loaded(v) else Malformed
  }

  // ---------------------------------------------------------------- loads undoes dumps

  lemma HexDigit(n: nat)
    requires n < 16
    ensures HexValue(HEX[n]) == n
  {
  }

  lemma CodeUnitOfEscape(n: nat, rest: string)
    requires n < 0x10000
    ensures CodeUnit(UnicodeEscape(n) + rest) == n
    ensures (UnicodeEscape(n) + rest)[6..] == rest
  {
    var text := UnicodeEscape(n) + rest;
    HexDigit(n / 16 / 16 / 16);
    HexDigit(n / 16 / 16 % 16);
    HexDigit(n / 16 % 16);
    HexDigit(n % 16);
    assert text[0] == '\\' && text[1] == 'u';
    assert text[2] == Hex4(n)[0] && text[3] == Hex4(n)[1] && text[4] == Hex4(n)[2] && text[5] == Hex4(n)[3];
  }

  lemma UnitRoundTrip(n: nat, rest: string)
    requires n < 0xd800 || 0xe000 <= n < 0x10000
    ensures ParseChar(UnicodeEscape(n) + rest) == Done(n as char, rest)
  {
    CodeUnitOfEscape(n, rest);
  }

  lemma PairRoundTrip(high: nat, low: nat, rest: string)
    requires 0xd800 <= high < 0xdc00 <= low < 0xe000
    ensures ParseChar(UnicodeEscape(high) + UnicodeEscape(low) + rest)
         == Done((0x10000 + (high - 0xd800) * 0x400 + (low - 0xdc00)) as char, rest)
  {
    var text := UnicodeEscape(high) + UnicodeEscape(low) + rest;
    assert text == UnicodeEscape(high) + (UnicodeEscape(low) + rest);
    CodeUnitOfEscape(high, UnicodeEscape(low) + rest);
    CodeUnitOfEscape(low, rest);
    assert text[12..] == rest;
  }

  lemma ShortRoundTrip(c: char, rest: string)
    requires ShortEscape(c) != ' '
    ensures ParseChar(['\\', ShortEscape(c)] + rest) == Done(c, rest)
  {
    var text := ['\\', ShortEscape(c)] + rest;
    assert text[0] == '\\' && text[1] == ShortEscape(c) != 'u' && text[2..] == rest;
    assert SimpleEscape(ShortEscape(c)).Done? && SimpleEscape(ShortEscape(c)).value == c;
  }

  lemma CharRoundTrip(c: char, rest: string)
    ensures ParseChar(EscapeChar(c) + rest) == Done(c, rest)
  {
    if ShortEscape(c) != ' ' {
      ShortRoundTrip(c, rest);
    } else if ' ' <= c <= '~' {
      assert ([c] + rest)[1..] == rest;
    } else if (c as int) < 0x10000 {
      UnitRoundTrip(c as int, rest);
    } else {
      PairRoundTrip(0xd800 + (c as int - 0x10000) / 0x400, 0xdc00 + (c as int - 0x10000) % 0x400, rest);
    }
  }

  lemma {:induction false} StringRoundTrip(s: string, rest: string)
    ensures ParseString(Escape(s) + "\"" + rest) == Done(s, rest)
  {
    if s == [] {
      assert Escape(s) + "\"" + rest == "\"" + rest;
    } else {
      var tail := Escape(s[1..]) + "\"" + rest;
      assert Escape(s) + "\"" + rest == EscapeChar(s[0]) + tail;
      CharRoundTrip(s[0], tail);
      StringRoundTrip(s[1..], rest);
      assert (EscapeChar(s[0]) + tail)[0] == EscapeChar(s[0])[0] != '\"';
      assert [s[0]] + s[1..] == s;
    }
  }

  /** What may follow a value: the end, or a character that no number contains. */
  predicate Delimited(rest: string) { rest == [] || !IsNumberChar(rest[0]) }

  lemma {:induction false} TokenRoundTrip(token: string, rest: string)
    requires (forall c <- token :: IsNumberChar(c)) && Delimited(rest)
    ensures TokenLength(token + rest) == |token|
  {
    if token == [] {
      assert token + rest == rest;
    } else {
      assert (token + rest)[1..] == token[1..] + rest;
      TokenRoundTrip(token[1..], rest);
    }
  }

  /** The first character decides what is read, and is never a space or a closing bracket. */
  lemma FirstChar(v: Json)
    requires Valid(v)
    ensures Print(v) != [] && !IsSpace(Print(v)[0]) && Print(v)[0] != ']'
  {
  }

  lemma WordRoundTrip(v: Json, rest: string)
    requires v.Null? || v.Bool?
    ensures ParseValue(Print(v) + rest) == Done(v, rest)
  {
    var text := Print(v) + rest;
    assert text[0] == Print(v)[0];
    assert text[..|Print(v)|] == Print(v) && text[|Print(v)|..] == rest;
  }

  lemma RegroupAround(open: string, inside: string, close: string, rest: string)
    ensures open + inside + close + rest == open + (inside + close + rest)
  {
  }

  lemma ListRoundTrip(items: seq<Json>, rest: string)
    requires var inside := PrintItems(items) + "]" + rest;
             items != [] ==> inside[0] != ']' && !IsSpace(inside[0]) && ParseItems(inside) == Done(items, rest)
    ensures ParseValue(Print(List(items)) + rest) == Done(List(items), rest)
  {
    var inside := PrintItems(items) + "]" + rest;
    RegroupAround("[", PrintItems(items), "]", rest);
    if items == [] {
      assert inside == "]" + rest && inside[1..] == rest;
    }
    ParseList(inside, items, rest);
  }

  lemma ParseList(inside: string, items: seq<Json>, rest: string)
    requires inside != [] && !IsSpace(inside[0])
    requires if items == [] then inside[0] == ']' && inside[1..] == rest
             else inside[0] != ']' && ParseItems(inside) == Done(items, rest)
    ensures ParseValue("[" + inside) == Done(List(items), rest)
  {
    assert ("[" + inside)[1..] == inside;
  }

  lemma DictRoundTrip(entries: seq<Entry>, rest: string)
    requires var inside := PrintEntries(entries) + "}" + rest;
             entries != [] ==> inside[0] == '\"' && ParseEntries(inside) == Done(entries, rest)
    ensures ParseValue(Print(Dict(entries)) + rest) == Done(Dict(entries), rest)
  {
    var inside := PrintEntries(entries) + "}" + rest;
    RegroupAround("{", PrintEntries(entries), "}", rest);
    if entries == [] {
      assert inside == "}" + rest && inside[1..] == rest;
    }
    ParseDict(inside, entries, rest);
  }

  lemma ParseDict(inside: string, entries: seq<Entry>, rest: string)
    requires inside != [] && !IsSpace(inside[0])
    requires if entries == [] then inside[0] == '}' && inside[1..] == rest
             else inside[0] != '}' && ParseEntries(inside) == Done(entries, rest)
    ensures ParseValue("{" + inside) == Done(Dict(entries), rest)
  {
    assert ("{" + inside)[1..] == inside;
  }

  lemma StrRoundTrip(s: string, rest: string)
    ensures ParseValue(Print(Str(s)) + rest) == Done(Str(s), rest)
  {
    var text := Print(Str(s)) + rest;
    assert text[0] == '\"' && text[1..] == Escape(s) + "\"" + rest;
    StringRoundTrip(s, rest);
  }

  lemma {:induction false} ValueRoundTrip(v: Json, rest: string)
    requires Valid(v) && Delimited(rest)
    ensures ParseValue(Print(v) + rest) == Done(v, rest)
    decreases v, 1
  {
    match v
    case Null => WordRoundTrip(v, rest);
    case Bool(_) => WordRoundTrip(v, rest);
    case Number(token) => NumberRoundTrip(token, rest);
    case Str(s) => StrRoundTrip(s, rest);
    case List(items) =>
      if items != [] {
        ItemsRoundTrip(items, rest);
        ItemsStart(items, rest);
      }
      ListRoundTrip(items, rest);
    case Dict(entries) =>
      if entries != [] {
        EntriesRoundTrip(entries, rest);
        EntriesStart(entries, rest);
      }
      DictRoundTrip(entries, rest);
  }

  lemma NumberRoundTrip(token: string, rest: string)
    requires IsToken(token) && Delimited(rest)
    ensures ParseValue(token + rest) == Done(Number(token), rest)
  {
    var text := token + rest;
    assert text[0] == token[0];
    TokenRoundTrip(token, rest);
    assert text[..|token|] == token && text[|token|..] == rest;
  }

  lemma LastItem(text: string, first: Json, rest: string)
    requires ParseValue(text) == Done(first, "]" + rest)
    ensures ParseItems(text) == Done([first], rest)
  {
    assert ("]" + rest)[1..] == rest;
  }

  lemma MoreItems(text: string, first: Json, tail: string, more: seq<Json>, rest: string)
    requires ParseValue(text) == Done(first, ", " + tail)
    requires tail != [] && !IsSpace(tail[0]) && ParseItems(tail) == Done(more, rest)
    ensures ParseItems(text) == Done([first] + more, rest)
  {
    SkipOneSpace(',', tail);
  }

  lemma RegroupOne(a: string, close: string, rest: string)
    ensures a + close + rest == a + (close + rest)
  {
  }

  lemma RegroupMore(a: string, comma: string, more: string, close: string, rest: string)
    ensures a + comma + more + close + rest == a + (comma + (more + close + rest))
  {
    RegroupOne(a + comma + more, close, rest);
    RegroupOne(a + comma, more, close + rest);
    RegroupOne(a, comma, more + (close + rest));
    RegroupOne(more, close, rest);
  }

  lemma SplitItems(items: seq<Json>, rest: string)
    requires |items| > 1
    ensures PrintItems(items) + "]" + rest == Print(items[0]) + (", " + (PrintItems(items[1..]) + "]" + rest))
  {
    RegroupMore(Print(items[0]), ", ", PrintItems(items[1..]), "]", rest);
  }

  lemma ItemsStart(items: seq<Json>, rest: string)
    requires items != [] && Valid(items[0])
    ensures var text := PrintItems(items) + "]" + rest; text != [] && !IsSpace(text[0]) && text[0] != ']'
  {
    FirstChar(items[0]);
    assert PrintItems(items)[0] == Print(items[0])[0];
  }

  lemma JoinItems(text: string, tail: string, items: seq<Json>, rest: string)
    requires |items| > 1 && tail != [] && !IsSpace(tail[0])
    requires ParseValue(text) == Done(items[0], ", " + tail) && ParseItems(tail) == Done(items[1..], rest)
    ensures ParseItems(text) == Done(items, rest)
  {
    MoreItems(text, items[0], tail, items[1..], rest);
    assert items == [items[0]] + items[1..];
  }

  lemma {:induction false} ItemsRoundTrip(items: seq<Json>, rest: string)
    requires items != [] && forall x <- items :: Valid(x)
    ensures ParseItems(PrintItems(items) + "]" + rest) == Done(items, rest)
    decreases items, 0
  {
    if |items| == 1 {
      RegroupOne(Print(items[0]), "]", rest);
      ValueRoundTrip(items[0], "]" + rest);
      LastItem(PrintItems(items) + "]" + rest, items[0], rest);
      assert [items[0]] == items;
    } else {
      var tail := PrintItems(items[1..]) + "]" + rest;
      SplitItems(items, rest);
      ItemsStart(items[1..], rest);
      ValueRoundTrip(items[0], ", " + tail);
      ItemsRoundTrip(items[1..], rest);
      JoinItems(PrintItems(items) + "]" + rest, tail, items, rest);
    }
  }

  lemma QuoteThen(key: string, after: string)
    ensures Head(Quote(key) + after, '\"')
    ensures (Quote(key) + after)[1..] == Escape(key) + "\"" + after
  {
  }

  lemma SkipOneSpace(c: char, tail: string)
    requires tail != [] && !IsSpace(tail[0])
    ensures SkipSpace(([c, ' '] + tail)[1..]) == tail
  {
    assert ([c, ' '] + tail)[1..] == " " + tail && (" " + tail)[1..] == tail;
  }

  lemma SplitEntry(e: Entry, rest: string)
    ensures PrintEntry(e) + rest == Quote(e.key) + (": " + (Print(e.value) + rest))
  {
    RegroupOne(Quote(e.key) + ": ", Print(e.value), rest);
    RegroupOne(Quote(e.key), ": ", Print(e.value) + rest);
  }

  lemma {:induction false} EntryRoundTrip(e: Entry, rest: string)
    requires Valid(e.value) && Delimited(rest)
    ensures ParseEntry(PrintEntry(e) + rest) == Done(e, rest) && Head(PrintEntry(e) + rest, '\"')
    decreases e, 2
  {
    SplitEntry(e, rest);
    var value := Print(e.value) + rest;
    var after := ": " + value;
    QuoteThen(e.key, after);
    StringRoundTrip(e.key, after);
    FirstChar(e.value);
    SkipOneSpace(':', value);
    ValueRoundTrip(e.value, rest);
  }

  lemma LastEntry(text: string, first: Entry, rest: string)
    requires ParseEntry(text) == Done(first, "}" + rest)
    ensures ParseEntries(text) == Done([first], rest)
  {
    assert ("}" + rest)[1..] == rest;
  }

  lemma MoreEntries(text: string, first: Entry, tail: string, more: seq<Entry>, rest: string)
    requires ParseEntry(text) == Done(first, ", " + tail)
    requires tail != [] && !IsSpace(tail[0]) && ParseEntries(tail) == Done(more, rest)
    ensures ParseEntries(text) == Done([first] + more, rest)
  {
    SkipOneSpace(',', tail);
  }

  lemma SplitEntries(entries: seq<Entry>, rest: string)
    requires |entries| > 1
    ensures PrintEntries(entries) + "}" + rest ==
            PrintEntry(entries[0]) + (", " + (PrintEntries(entries[1..]) + "}" + rest))
  {
    RegroupMore(PrintEntry(entries[0]), ", ", PrintEntries(entries[1..]), "}", rest);
  }

  lemma EntriesStart(entries: seq<Entry>, rest: string)
    requires entries != []
    ensures (PrintEntries(entries) + "}" + rest)[0] == '\"'
  {
    assert PrintEntry(entries[0])[0] == '\"';
    assert PrintEntries(entries)[0] == PrintEntry(entries[0])[0];
  }

  lemma JoinEntries(text: string, tail: string, entries: seq<Entry>, rest: string)
    requires |entries| > 1 && tail != [] && !IsSpace(tail[0])
    requires ParseEntry(text) == Done(entries[0], ", " + tail) && ParseEntries(tail) == Done(entries[1..], rest)
    ensures ParseEntries(text) == Done(entries, rest)
  {
    MoreEntries(text, entries[0], tail, entries[1..], rest);
    assert entries == [entries[0]] + entries[1..];
  }

  lemma {:induction false} EntriesRoundTrip(entries: seq<Entry>, rest: string)
    requires entries != [] && forall e <- entries :: Valid(e.value)
    ensures ParseEntries(PrintEntries(entries) + "}" + rest) == Done(entries, rest)
    decreases entries, 0
  {
    if |entries| == 1 {
      RegroupOne(PrintEntry(entries[0]), "}", rest);
      EntryRoundTrip(entries[0], "}" + rest);
      LastEntry(PrintEntries(entries) + "}" + rest, entries[0], rest);
      assert entries == [entries[0]];
    } else {
      var tail := PrintEntries(entries[1..]) + "}" + rest;
      SplitEntries(entries, rest);
      EntriesStart(entries[1..], rest);
      EntryRoundTrip(entries[0], ", " + tail);
      EntriesRoundTrip(entries[1..], rest);
      JoinEntries(PrintEntries(entries) + "}" + rest, tail, entries, rest);
    }
  }

  /** Reading back what was printed gives the same tree. */
  lemma LoadsDumps(v: Json)
    requires Valid(v)
    ensures Loads(Print(v)) == Loaded(v)
  {
    FirstChar(v);
    assert Print(v) + [] == Print(v);
    ValueRoundTrip(v, []);
  }

  /** Hence the printer is injective. */
  lemma PrintInjective(a: Json, b: Json)
    requires Valid(a) && Valid(b) && Print(a) == Print(b)
    ensures a == b
  {
    LoadsDumps(a);
    LoadsDumps(b);
  }
}
