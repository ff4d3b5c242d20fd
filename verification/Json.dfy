/**
 The JSON fragment of the network annotation: arrays, objects and strings (sections 2, 4, 5 and 7 of
 RFC 8259), a parser for it, and Go's `%q` quoting, which the printer uses in place of a JSON encoder.
 */
module Json {

  datatype Json = Str(text: string) | Arr(items: seq<Json>) | Obj(members: seq<Member>)

  datatype Member = Member(key: string, value: Json)

  /** A parser's answer: nothing, or a value and the unread rest of the input. */
  datatype Parsed<+T> = Fail | Done(value: T, rest: string)

  // ---------- Parsing ----------

  predicate IsSpace(c: char) {
    c == ' ' || c == '\t' || c == '\n' || c == '\r'
  }

  function SkipSpace(s: string): (r: string)
    ensures |r| <= |s|
    ensures r != [] ==> !IsSpace(r[0])
  {
    if s != [] && IsSpace(s[0]) then SkipSpace(s[1..]) else s
  }

  predicate StartsWith(s: string, c: char) {
    s != [] && s[0] == c
  }

  function HexValue(c: char): int {
    if '0' <= c <= '9' then c as int - '0' as int
    else if 'a' <= c <= 'f' then c as int - 'a' as int + 10
    else if 'A' <= c <= 'F' then c as int - 'A' as int + 10
    else -1
  }

  /** The character of a `\u` escape; escapes in the surrogate range are not part of the fragment. */
  function UnicodeEscape(s: string): (r: Parsed<char>)
    ensures r.Done? ==> |r.rest| < |s|
  {
    if |s| < 4 then Fail else
    var h := [HexValue(s[0]), HexValue(s[1]), HexValue(s[2]), HexValue(s[3])];
    if h[0] < 0 || h[1] < 0 || h[2] < 0 || h[3] < 0 then Fail else
    var code := ((h[0] * 16 + h[1]) * 16 + h[2]) * 16 + h[3];
    if 0 <= code < 0xD800 || 0xE000 <= code < 0x1_0000 then Done(code as char, s[4..]) else Fail
  }

  function ShortEscape(c: char): (r: string)
    ensures |r| <= 1
  {
    match c
    case '\"' => "\""
    case '\\' => "\\"
    case '/' => "/"
    case 'b' => "\U{0008}"
    case 'f' => "\U{000C}"
    case 'n' => "\n"
    case 'r' => "\r"
    case 't' => "\t"
    case _ => ""
  }

  /** The characters of a string up to its closing quotation mark. */
  function ParseChars(s: string): (r: Parsed<string>)
    ensures r.Done? ==> |r.rest| < |s|
  {
    if s == [] then Fail
    else if s[0] == '\"' then Done("", s[1..])
    else if s[0] == '\\' then
      if |s| == 1 then Fail
      else if s[1] == 'u' then
        match UnicodeEscape(s[2..])
        case Fail => Fail
        case Done(c, rest) => Prepend([c], ParseChars(rest))
      else if ShortEscape(s[1]) == "" then Fail
      else Prepend(ShortEscape(s[1]), ParseChars(s[2..]))
    else if s[0] < ' ' then Fail
    else Prepend([s[0]], ParseChars(s[1..]))
  }

  function Prepend(text: string, r: Parsed<string>): Parsed<string> {
    if r.Done? then Done(text + r.value, r.rest) else Fail
  }

  function ParseValue(s: string): (r: Parsed<Json>)
    ensures r.Done? ==> |r.rest| < |s|
    decreases |s|, 0
  {
    var t := SkipSpace(s);
    if StartsWith(t, '\"') then
      match ParseChars(t[1..])
      case Fail => Fail
      case Done(text, rest) => Done(Str(text), rest)
    else if StartsWith(t, '[') then
      var u := SkipSpace(t[1..]);
      if StartsWith(u, ']') then Done(Arr([]), u[1..]) else
      match ParseItems(t[1..])
      case Fail => Fail
      case Done(items, rest) => Done(Arr(items), rest)
    else if StartsWith(t, '{') then
      var u := SkipSpace(t[1..]);
      if StartsWith(u, '}') then Done(Obj([]), u[1..]) else
      match ParseMembers(t[1..])
      case Fail => Fail
      case Done(members, rest) => Done(Obj(members), rest)
    else Fail
  }

  /** One or more values separated by commas, and the closing bracket. */
  function ParseItems(s: string): (r: Parsed<seq<Json>>)
    ensures r.Done? ==> |r.rest| < |s|
    decreases |s|, 1
  {
    match ParseValue(s)
    case Fail => Fail
    case Done(item, rest) =>
      var u := SkipSpace(rest);
      if StartsWith(u, ']') then Done([item], u[1..])
      else if StartsWith(u, ',') then
        match ParseItems(u[1..])
        case Fail => Fail
        case Done(items, rest') => Done([item] + items, rest')
      else Fail
  }

  /** A quoted key, a colon and a value. */
  function ParseMember(s: string): (r: Parsed<Member>)
    ensures r.Done? ==> |r.rest| < |s|
    decreases |s|, 1
  {
    var t := SkipSpace(s);
    if !StartsWith(t, '\"') then Fail else
    match ParseChars(t[1..])
    case Fail => Fail
    case Done(key, rest) =>
      var u := SkipSpace(rest);
      if !StartsWith(u, ':') then Fail else
      match ParseValue(u[1..])
      case Fail => Fail
      case Done(value, rest') => Done(Member(key, value), rest')
  }

  /** One or more members separated by commas, and the closing brace. */
  function ParseMembers(s: string): (r: Parsed<seq<Member>>)
    ensures r.Done? ==> |r.rest| < |s|
    decreases |s|, 2
  {
    match ParseMember(s)
    case Fail => Fail
    case Done(member, rest) =>
      var u := SkipSpace(rest);
      if StartsWith(u, '}') then Done([member], u[1..])
      else if StartsWith(u, ',') then
        match ParseMembers(u[1..])
        case Fail => Fail
        case Done(members, rest') => Done([member] + members, rest')
      else Fail
  }

  /** A complete document: one value and nothing but white space after it. */
  function ParseDocument(s: string): (r: Parsed<Json>) {
    match ParseValue(s)
    case Fail => Fail
    case Done(value, rest) => if SkipSpace(rest) == "" then Done(value, "") else Fail
  }

  // ---------- Go's %q ----------

  function HexDigit(n: nat): char
    requires n < 16
  {
    "0123456789abcdef"[n]
  }

  /** How `%q` writes one character; characters above DEL are taken to be printable. */
  function Escape(c: char): (r: string)
    ensures r != []
  {
    match c
    case '\"' => "\\\""
    case '\\' => "\\\\"
    case '\U{0007}' => "\\a"
    case '\U{0008}' => "\\b"
    case '\U{000C}' => "\\f"
    case '\n' => "\\n"
    case '\r' => "\\r"
    case '\t' => "\\t"
    case '\U{000B}' => "\\v"
    case _ =>
      if c < ' ' || c == '\U{007F}' then "\\x" + [HexDigit(c as int / 16), HexDigit(c as int % 16)] else [c]
  }

  function EscapeAll(s: string): string {
    if s == [] then "" else Escape(s[0]) + EscapeAll(s[1..])
  }

  function Quote(s: string): string {
    "\"" + EscapeAll(s) + "\""
  }

  /** Go escapes these characters in a way JSON has no reading for. */
  predicate HasJsonEscape(c: char) {
    (c >= ' ' && c != '\U{007F}') || c in "\U{0008}\U{000C}\n\r\t"
  }

  predicate Quotable(s: string) {
    forall i :: 0 <= i < |s| ==> HasJsonEscape(s[i])
  }

  // ---------- Reading back what %q wrote ----------

  lemma {:induction false} EscapeReadsBack(c: char, tail: string)
    ensures ParseChars(Escape(c) + tail) == if HasJsonEscape(c) then Prepend([c], ParseChars(tail)) else Fail
  {
    var s := Escape(c) + tail;
    if |Escape(c)| == 1 {
      assert s[1..] == tail;
    } else if |Escape(c)| == 2 {
      assert s[2..] == tail;
    }
  }

  /** A quoted string is read back exactly, unless it holds a character JSON cannot read. */
  lemma {:induction false} QuoteReadsBack(x: string, tail: string)
    ensures ParseChars(EscapeAll(x) + "\"" + tail) == if Quotable(x) then Done(x, tail) else Fail
  {
    if x == [] {
      assert EscapeAll(x) + "\"" + tail == "\"" + tail;
    } else {
      var rest := EscapeAll(x[1..]) + "\"" + tail;
      assert EscapeAll(x) + "\"" + tail == Escape(x[0]) + rest;
      EscapeReadsBack(x[0], rest);
      QuoteReadsBack(x[1..], tail);
      assert x == [x[0]] + x[1..];
      assert Quotable(x) <==> HasJsonEscape(x[0]) && Quotable(x[1..]);
    }
  }
}
