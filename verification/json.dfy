/**
 The slice of `JSON.stringify` / `JSON.parse` the notification service relies
 on: string literals, and objects whose members are all strings. A push
 subscription's `keys` (`{p256dh, auth}`) are stored as the text
 `JSON.stringify(keys)` and turned back into an object with `JSON.parse`
 just before each push; `ParseStringify` proves the second undoes the first.
 */
module Json {
  import opened Common

  /** A JSON object whose members are all strings, in insertion order. */
  type KeyMap = seq<(string, string)>

  // ---------------------------------------------------------------------
  // Writing (JSON.stringify)
  // ---------------------------------------------------------------------

  /** Lower-case hexadecimal digit, as `JSON.stringify` writes in `\u00XX`. */
  function HexDigit(n: nat): char
    requires n < 16
  {
    if n < 10 then ('0' as int + n) as char else ('a' as int + (n - 10)) as char
  }

  /** How `JSON.stringify` writes one character inside a string literal:
      quote and backslash are escaped, control characters get their short
      escape or `\u00XX`, everything else is written as is. */
  function EscapeChar(c: char): string {
    if c == '"' then ['\\', '"']
    else if c == '\\' then ['\\', '\\']
    else if c as int == 8 then ['\\', 'b']
    else if c == '\t' then ['\\', 't']
    else if c == '\n' then ['\\', 'n']
    else if c as int == 12 then ['\\', 'f']
    else if c == '\r' then ['\\', 'r']
    else if c as int < 0x20 then ['\\', 'u', '0', '0', HexDigit(c as int / 16), HexDigit(c as int % 16)]
    else [c]
  }

  function Escape(s: string): string
    decreases |s|
  {
    if |s| == 0 then "" else EscapeChar(s[0]) + Escape(s[1..])
  }

  /** `JSON.stringify(s)` for a string `s`. */
  function Literal(s: string): string {
    "\"" + Escape(s) + "\""
  }

  /** Members `"name":value` separated by commas; values are already rendered JSON. */
  function RenderMembers(fields: seq<(string, string)>): string
    decreases |fields|
  {
    if |fields| == 0 then ""
    else if |fields| == 1 then Literal(fields[0].0) + ":" + fields[0].1
    else Literal(fields[0].0) + ":" + fields[0].1 + "," + RenderMembers(fields[1..])
  }

  /** `JSON.stringify` of an object whose (present) members are already rendered. */
  function RenderObject(fields: seq<(string, string)>): string {
    "{" + RenderMembers(fields) + "}"
  }

  function QuoteValues(m: KeyMap): (r: seq<(string, string)>)
    ensures |r| == |m|
    decreases |m|
  {
    if |m| == 0 then [] else [(m[0].0, Literal(m[0].1))] + QuoteValues(m[1..])
  }

  /** `JSON.stringify(m)` for an object of string members. */
  function Stringify(m: KeyMap): string {
    RenderObject(QuoteValues(m))
  }

  // ---------------------------------------------------------------------
  // Reading (JSON.parse)
  // ---------------------------------------------------------------------

  /** JSON insignificant whitespace. */
  predicate IsWs(c: char) {
    c == ' ' || c == '\t' || c == '\n' || c == '\r'
  }

  function SkipWs(t: string): (r: string)
    ensures |r| <= |t|
    ensures |t| > 0 && !IsWs(t[0]) ==> r == t
    decreases |t|
  {
    if |t| > 0 && IsWs(t[0]) then SkipWs(t[1..]) else t
  }

  function HexValue(c: char): (r: Option<nat>)
    ensures r.Some? ==> r.value < 16
  {
    if '0' <= c <= '9' then Some(c as int - '0' as int)
    else if 'a' <= c <= 'f' then Some(c as int - 'a' as int + 10)
    else if 'A' <= c <= 'F' then Some(c as int - 'A' as int + 10)
    else None
  }

  /** The code unit written by four hexadecimal digits. */
  function ParseHex4(t: string): (r: Option<nat>)
    requires |t| == 4
    ensures r.Some? ==> r.value < 0x1_0000
  {
    match (HexValue(t[0]), HexValue(t[1]), HexValue(t[2]), HexValue(t[3]))
    case (Some(a), Some(b), Some(c), Some(d)) => Some(a * 4096 + b * 256 + c * 16 + d)
    case _ => None
  }

  /** A `\uXXXX` escape, `t` starting at the `u`: the code unit and the rest. */
  function ParseUnit(t: string): (r: Option<(nat, string)>)
    ensures r.Some? ==> r.value.0 < 0x1_0000 && |r.value.1| + 5 == |t|
  {
    if |t| >= 5 && t[0] == 'u' then
      match ParseHex4(t[1..5])
      case None => None
      case Some(v) => Some((v, t[5..]))
    else None
  }

  /** One escape sequence, `t` starting just after the backslash: the
      character it stands for and the text after it. A surrogate pair of
      `\u` escapes stands for one character; a lone surrogate is refused. */
  function ParseEscape(t: string): (r: Option<(char, string)>)
    ensures r.Some? ==> |r.value.1| < |t|
  {
    if |t| == 0 then None
    else if t[0] == '"' then Some(('"', t[1..]))
    else if t[0] == '\\' then Some(('\\', t[1..]))
    else if t[0] == '/' then Some(('/', t[1..]))
    else if t[0] == 'b' then Some((8 as char, t[1..]))
    else if t[0] == 'f' then Some((12 as char, t[1..]))
    else if t[0] == 'n' then Some(('\n', t[1..]))
    else if t[0] == 'r' then Some(('\r', t[1..]))
    else if t[0] == 't' then Some(('\t', t[1..]))
    else
      match ParseUnit(t)
      case None => None
      case Some((v, rest)) =>
        if v < 0xD800 || 0xE000 <= v then Some((v as char, rest))
        else if 0xDC00 <= v || |rest| < 6 || rest[0] != '\\' then None
        else
          match ParseUnit(rest[1..])
          case None => None
          case Some((w, rest')) =>
            if 0xDC00 <= w < 0xE000
            then Some(((0x1_0000 + (v - 0xD800) * 0x400 + (w - 0xDC00)) as char, rest'))
            else None
  }

  function Prepend(c: char, r: Option<(string, string)>): Option<(string, string)> {
    match r
    case None => None
    case Some((s, rest)) => Some(([c] + s, rest))
  }

  /** The characters of a string literal, `t` starting just after its opening
      quote: the decoded text and what follows the closing quote. Raw control
      characters are refused, as `JSON.parse` refuses them. */
  function ParseChars(t: string): (r: Option<(string, string)>)
    ensures r.Some? ==> |r.value.1| < |t|
    decreases |t|
  {
    if |t| == 0 then None
    else if t[0] == '"' then Some(("", t[1..]))
    else if t[0] == '\\' then
      match ParseEscape(t[1..])
      case None => None
      case Some((c, rest)) => Prepend(c, ParseChars(rest))
    else if t[0] < ' ' then None
    else Prepend(t[0], ParseChars(t[1..]))
  }

  /** A string literal at the start of `t`: its text and the rest. */
  function ParseString(t: string): (r: Option<(string, string)>)
    ensures r.Some? ==> |r.value.1| < |t|
  {
    if |t| > 0 && t[0] == '"' then ParseChars(t[1..]) else None
  }

  /** `"name" : "value"` followed by optional whitespace. */
  function ParseMember(t: string): (r: Option<((string, string), string)>)
    ensures r.Some? ==> |r.value.1| < |t|
  {
    match ParseString(t)
    case None => None
    case Some((name, a)) =>
      var b := SkipWs(a);
      if |b| == 0 || b[0] != ':' then None
      else
        match ParseString(SkipWs(b[1..]))
        case None => None
        case Some((value, c)) => Some(((name, value), SkipWs(c)))
  }

  /** One or more members separated by commas; stops before anything else. */
  function ParseMembers(t: string): (r: Option<(KeyMap, string)>)
    ensures r.Some? ==> |r.value.0| >= 1 && |r.value.1| < |t|
    decreases |t|
  {
    match ParseMember(t)
    case None => None
    case Some((kv, a)) =>
      if |a| > 0 && a[0] == ',' then
        match ParseMembers(SkipWs(a[1..]))
        case None => None
        case Some((rest, b)) => Some(([kv] + rest, b))
      else Some(([kv], a))
  }

  /** `JSON.parse(t)` when `t` is an object of string members; `None` for
      text that is not such an object (where `JSON.parse` throws). */
  function ParseKeys(t: string): Option<KeyMap> {
    var a := SkipWs(t);
    if |a| == 0 || a[0] != '{' then None
    else
      var b := SkipWs(a[1..]);
      if |b| > 0 && b[0] == '}' then
        (if SkipWs(b[1..]) == "" then Some([]) else None)
      else
        match ParseMembers(b)
        case None => None
        case Some((m, c)) =>
          if |c| > 0 && c[0] == '}' && SkipWs(c[1..]) == "" then Some(m) else None
  }

  // ---------------------------------------------------------------------
  // Round trip
  // ---------------------------------------------------------------------

  lemma HexDigitValue(n: nat)
    requires n < 16
    ensures HexValue(HexDigit(n)) == Some(n)
  {
  }

  /** Reading back one escaped character consumes exactly its escape. */
  lemma EscapeCharParses(c: char, u: string)
    ensures ParseChars(EscapeChar(c) + u) == Prepend(c, ParseChars(u))
  {
    var t := EscapeChar(c) + u;
    if c as int < 0x20 && c != '\t' && c != '\n' && c != '\r' && c as int != 8 && c as int != 12 {
      var hi, lo := c as int / 16, c as int % 16;
      HexDigitValue(hi);
      HexDigitValue(lo);
      assert t[1..] == ['u', '0', '0', HexDigit(hi), HexDigit(lo)] + u;
      assert t[1..][1..5] == ['0', '0', HexDigit(hi), HexDigit(lo)];
      assert ParseHex4(t[1..][1..5]) == Some(hi * 16 + lo);
      assert t[1..][5..] == u;
    } else if c == '"' || c == '\\' || c as int == 8 || c == '\t' || c == '\n' || c as int == 12 || c == '\r' {
      assert t[1..][1..] == u;
    } else {
      assert t[1..] == u;
    }
  }

  /** The escaped text of `s`, closed by a quote, decodes to `s`. */
  lemma {:induction false} EscapeParses(s: string, rest: string)
    ensures ParseChars(Escape(s) + "\"" + rest) == Some((s, rest))
    decreases |s|
  {
    if |s| == 0 {
      assert Escape(s) + "\"" + rest == "\"" + rest;
    } else {
      var u := Escape(s[1..]) + "\"" + rest;
      EscapeParses(s[1..], rest);
      assert Escape(s) + "\"" + rest == EscapeChar(s[0]) + u;
      EscapeCharParses(s[0], u);
      assert [s[0]] + s[1..] == s;
    }
  }

  /** `JSON.parse` reads back a string literal written by `JSON.stringify`. */
  lemma LiteralParses(s: string, rest: string)
    ensures ParseString(Literal(s) + rest) == Some((s, rest))
  {
    var t := Literal(s) + rest;
    assert t[1..] == Escape(s) + "\"" + rest;
    EscapeParses(s, rest);
  }

  /** One written member `"k":"v"` followed by `tail` reads back as `(k, v)`. */
  lemma MemberParses(k: string, v: string, tail: string)
    requires |tail| > 0 && !IsWs(tail[0])
    ensures ParseMember(Literal(k) + ":" + Literal(v) + tail) == Some(((k, v), tail))
  {
    var t := Literal(k) + ":" + Literal(v) + tail;
    var a := ":" + Literal(v) + tail;
    assert t == Literal(k) + a;
    LiteralParses(k, a);
    assert SkipWs(a) == a;
    assert a[1..] == Literal(v) + tail;
    assert SkipWs(a[1..]) == a[1..];
    LiteralParses(v, tail);
  }

  /** How the members of an object with two or more members are written. */
  lemma RenderStep(m: KeyMap)
    requires |m| >= 2
    ensures RenderMembers(QuoteValues(m))
         == Literal(m[0].0) + ":" + Literal(m[0].1) + ("," + RenderMembers(QuoteValues(m[1..])))
  {
    var q := QuoteValues(m);
    assert q[0] == (m[0].0, Literal(m[0].1));
    assert q[1..] == QuoteValues(m[1..]);
  }

  /** The written members of a non-empty object, followed by its closing
      brace, read back as the same members. */
  lemma {:induction false} MembersParse(m: KeyMap, rest: string)
    requires |m| >= 1
    requires |rest| > 0 && rest[0] == '}'
    ensures ParseMembers(RenderMembers(QuoteValues(m)) + rest) == Some((m, rest))
    decreases |m|
  {
    if |m| == 1 {
      SingleMemberParses(m, rest);
    } else {
      MembersParse(m[1..], rest);
      NextMemberParses(m, rest);
    }
  }

  /** The base case: one written member before the closing brace. */
  lemma SingleMemberParses(m: KeyMap, rest: string)
    requires |m| == 1
    requires |rest| > 0 && rest[0] == '}'
    ensures ParseMembers(RenderMembers(QuoteValues(m)) + rest) == Some((m, rest))
  {
    var k, v := m[0].0, m[0].1;
    assert QuoteValues(m) == [(k, Literal(v))];
    assert RenderMembers(QuoteValues(m)) + rest == Literal(k) + ":" + Literal(v) + rest;
    MemberParses(k, v, rest);
    ParseMembersOne(RenderMembers(QuoteValues(m)) + rest, (k, v), rest);
    assert m == [(k, v)];
  }

  /** The step: a first member and a comma in front of members that read back. */
  lemma NextMemberParses(m: KeyMap, rest: string)
    requires |m| >= 2
    requires ParseMembers(RenderMembers(QuoteValues(m[1..])) + rest) == Some((m[1..], rest))
    ensures ParseMembers(RenderMembers(QuoteValues(m)) + rest) == Some((m, rest))
  {
    var k, v := m[0].0, m[0].1;
    var t := RenderMembers(QuoteValues(m)) + rest;
    var more := RenderMembers(QuoteValues(m[1..])) + rest;
    var a := "," + more;
    WrittenShape(m, rest);
    MemberParses(k, v, a);
    MoreStartsWithQuote(m[1..], rest);
    assert a[1..] == more;
    ParseMembersCons(t, (k, v), a, m[1..], rest);
    assert [(k, v)] + m[1..] == m;
  }

  /** The text of two or more members: the first member, a comma, the rest. */
  lemma WrittenShape(m: KeyMap, rest: string)
    requires |m| >= 2
    ensures RenderMembers(QuoteValues(m)) + rest
         == Literal(m[0].0) + ":" + Literal(m[0].1) + ("," + (RenderMembers(QuoteValues(m[1..])) + rest))
  {
    RenderStep(m);
    AppendAfterComma(Literal(m[0].0) + ":" + Literal(m[0].1), RenderMembers(QuoteValues(m[1..])), rest);
  }

  lemma AppendAfterComma(a: string, r: string, rest: string)
    ensures a + ("," + r) + rest == a + ("," + (r + rest))
  {
  }

  lemma ParseMembersCons(t: string, kv: (string, string), a: string, rest: KeyMap, b: string)
    requires ParseMember(t) == Some((kv, a))
    requires |a| > 0 && a[0] == ','
    requires ParseMembers(SkipWs(a[1..])) == Some((rest, b))
    ensures ParseMembers(t) == Some(([kv] + rest, b))
  {
  }

  lemma ParseMembersOne(t: string, kv: (string, string), a: string)
    requires ParseMember(t) == Some((kv, a))
    requires |a| > 0 && a[0] == '}'
    ensures ParseMembers(t) == Some(([kv], a))
  {
  }

  lemma MoreStartsWithQuote(m: KeyMap, rest: string)
    requires |m| >= 1
    ensures var t := RenderMembers(QuoteValues(m)) + rest; |t| > 0 && t[0] == '"' && SkipWs(t) == t
  {
    var q := QuoteValues(m);
    assert q[0] == (m[0].0, Literal(m[0].1));
  }

  /** Round trip: `JSON.parse(JSON.stringify(m))` gives back `m`. */
  lemma ParseStringify(m: KeyMap)
    ensures ParseKeys(Stringify(m)) == Some(m)
  {
    var t := Stringify(m);
    assert t[0] == '{';
    assert SkipWs(t) == t;
    if |m| == 0 {
      assert t == "{}";
    } else {
      var body := RenderMembers(QuoteValues(m));
      assert t[1..] == body + "}";
      assert body[0] == '"';
      assert SkipWs(t[1..]) == t[1..];
      MembersParse(m, "}");
      assert "}"[1..] == "";
    }
  }
}
