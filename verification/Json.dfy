/** JSON text (RFC 8259) as Go's encoding/json writes and reads it: compact output, a
    recursive-descent reader, strings of ASCII characters with escapes. */
module Json {
  import opened Prelude
  import opened Numerals
  import Names = ChunkNames

  datatype Json =
    | Null
    | Bool(b: bool)
    | Number(text: string)
    | Text(s: string)
    | Array(items: seq<Json>)
    | Object(members: seq<Member>)

  datatype Member = Member(key: string, value: Json)

  // ---- strings ----

  predicate IsAscii(s: string) {
    forall i :: 0 <= i < |s| ==> s[i] < 128 as char
  }

  /** One character inside a JSON string; "<", ">", "&" and controls are written as \u00xx. */
  function Escape(c: char): string
    requires c < 128 as char
  {
    if c == '"' then "\\\""
    else if c == '\\' then "\\\\"
    else if c == '\n' then "\\n"
    else if c == '\r' then "\\r"
    else if c == '\t' then "\\t"
    else if c == 8 as char then "\\b"
    else if c == 12 as char then "\\f"
    else if c < ' ' || c in "<>&" then
      "\\u00" + [DigitChar(c as nat / 16), DigitChar(c as nat % 16)]
    else [c]
  }

  function EscapeAll(s: string): string
    requires IsAscii(s)
  {
    if s == "" then "" else Escape(s[0]) + EscapeAll(s[1..])
  }

  function Quote(s: string): string
    requires IsAscii(s)
  {
    "\"" + (EscapeAll(s) + "\"")
  }

  /** The character an escape stands for, and what follows; `s` starts behind the backslash. */
  function Unescape(s: string): (o: Option<(char, string)>)
    ensures o.Some? ==> |o.value.1| < |s|
  {
    if s == "" then None
    else if s[0] in "\"\\/" then Some((s[0], s[1..]))
    else if s[0] == 'n' then Some(('\n', s[1..]))
    else if s[0] == 'r' then Some(('\r', s[1..]))
    else if s[0] == 't' then Some(('\t', s[1..]))
    else if s[0] == 'b' then Some((8 as char, s[1..]))
    else if s[0] == 'f' then Some((12 as char, s[1..]))
    else if |s| >= 5 && s[..3] == "u00" && IsHexDigit(s[3]) && IsHexDigit(s[4]) && HexValue(s[3]) < 8 then
      Some(((HexValue(s[3]) * 16 + HexValue(s[4])) as char, s[5..]))
    else None
  }

  /** The text up to the closing quote, and what follows it; `s` starts behind the opening quote. */
  function ReadText(s: string): (o: Option<(string, string)>)
    ensures o.Some? ==> |o.value.1| < |s|
    decreases |s|
  {
    if s == "" || s[0] < ' ' then None
    else if s[0] == '"' then Some(("", s[1..]))
    else if s[0] == '\\' then
      match Unescape(s[1..])
      case None => None
      case Some((c, rest)) => Push(c, ReadText(rest))
    else Push(s[0], ReadText(s[1..]))
  }

  function Push(c: char, o: Option<(string, string)>): Option<(string, string)> {
    match o
    case None => None
    case Some((text, rest)) => Some(([c] + text, rest))
  }

  // ---- numbers ----

  /** The length of an optional fraction; None when there is a point without digits. */
  function FractionLength(s: string): (o: Option<nat>)
    ensures o.Some? ==> o.value <= |s|
  {
    if s == "" || s[0] != '.' then Some(0)
    else if Names.DigitRun(s[1..]) == 0 then None
    else Some(1 + Names.DigitRun(s[1..]))
  }

  function ExponentLength(s: string): (o: Option<nat>)
    ensures o.Some? ==> o.value <= |s|
  {
    if s == "" || s[0] !in "eE" then Some(0)
    else
      var from := if |s| > 1 && s[1] in "+-" then 2 else 1;
      if Names.DigitRun(s[from..]) == 0 then None else Some(from + Names.DigitRun(s[from..]))
  }

  function ReadNumber(s: string): (o: Option<(Json, string)>)
    ensures o.Some? ==> |o.value.1| < |s|
  {
    var sign := if s != "" && s[0] == '-' then 1 else 0;
    var digits := Names.DigitRun(s[sign..]);
    if digits == 0 || (digits > 1 && s[sign] == '0') then None
    else
      var end := sign + digits;
      match FractionLength(s[end..])
      case None => None
      case Some(f) =>
        match ExponentLength(s[end + f..])
        case None => None
        case Some(e) => Some((Number(s[..end + f + e]), s[end + f + e..]))
  }

  // ---- values ----

  function SkipSpace(s: string): (r: string)
    ensures |r| <= |s|
  {
    if s != "" && s[0] in " \t\n\r" then SkipSpace(s[1..]) else s
  }

  function Expect(s: string, c: char): (o: Option<string>)
    ensures o.Some? ==> |o.value| < |s|
  {
    var t := SkipSpace(s);
    if t != "" && t[0] == c then Some(t[1..]) else None
  }

  function ReadWord(s: string, word: string, v: Json): (o: Option<(Json, string)>)
    requires word != ""
    ensures o.Some? ==> |o.value.1| < |s|
  {
    if HasPrefix(s, word) then Some((v, s[|word|..])) else None
  }

  function ReadValue(s: string): (o: Option<(Json, string)>)
    ensures o.Some? ==> |o.value.1| < |s|
    decreases |s|, 2
  {
    var t := SkipSpace(s);
    if t == "" then None
    else if t[0] == 'n' then ReadWord(t, "null", Null)
    else if t[0] == 't' then ReadWord(t, "true", Bool(true))
    else if t[0] == 'f' then ReadWord(t, "false", Bool(false))
    else if t[0] == '"' then
      match ReadText(t[1..])
      case None => None
      case Some((text, rest)) => Some((Text(text), rest))
    else if t[0] == '[' then
      if Expect(t[1..], ']').Some? then Some((Array([]), Expect(t[1..], ']').value))
      else
        match ReadItems(t[1..])
        case None => None
        case Some((items, rest)) => Some((Array(items), rest))
    else if t[0] == '{' then
      if Expect(t[1..], '}').Some? then Some((Object([]), Expect(t[1..], '}').value))
      else
        match ReadMembers(t[1..])
        case None => None
        case Some((members, rest)) => Some((Object(members), rest))
    else ReadNumber(t)
  }

  function ReadItems(s: string): (o: Option<(seq<Json>, string)>)
    ensures o.Some? ==> |o.value.1| < |s|
    decreases |s|, 3
  {
    match ReadValue(s)
    case None => None
    case Some((item, rest)) =>
      if Expect(rest, ']').Some? then Some(([item], Expect(rest, ']').value))
      else
        match Expect(rest, ',')
        case None => None
        case Some(more) =>
          match ReadItems(more)
          case None => None
          case Some((items, end)) => Some(([item] + items, end))
  }

  function ReadMember(s: string): (o: Option<(Member, string)>)
    ensures o.Some? ==> |o.value.1| < |s|
    decreases |s|, 0
  {
    match Expect(s, '"')
    case None => None
    case Some(t) =>
      match ReadText(t)
      case None => None
      case Some((key, rest)) =>
        match Expect(rest, ':')
        case None => None
        case Some(u) =>
          match ReadValue(u)
          case None => None
          case Some((value, end)) => Some((Member(key, value), end))
  }

  function ReadMembers(s: string): (o: Option<(seq<Member>, string)>)
    ensures o.Some? ==> |o.value.1| < |s|
    decreases |s|, 1
  {
    match ReadMember(s)
    case None => None
    case Some((m, rest)) =>
      if Expect(rest, '}').Some? then Some(([m], Expect(rest, '}').value))
      else
        match Expect(rest, ',')
        case None => None
        case Some(more) =>
          match ReadMembers(more)
          case None => None
          case Some((members, end)) => Some(([m] + members, end))
  }

  /** A complete document: one value and nothing but white space behind it. */
  function Read(s: string): Option<Json> {
    match ReadValue(s)
    case None => None
    case Some((value, rest)) => if SkipSpace(rest) == "" then Some(value) else None
  }

  // ---- writing flat objects ----

  predicate IsFlat(v: Json) {
    (v.Text? && IsAscii(v.s)) || (v.Number? && ParseInt(v.text).Some? && v.text == FormatInt(ParseInt(v.text).value, 0))
  }

  predicate IsFlatMember(m: Member) {
    IsAscii(m.key) && IsFlat(m.value)
  }

  predicate AllFlat(ms: seq<Member>) {
    forall i :: 0 <= i < |ms| ==> IsFlatMember(ms[i])
  }

  function WriteValue(v: Json): string
    requires IsFlat(v)
  {
    if v.Text? then Quote(v.s) else v.text
  }

  function WriteMember(m: Member): string
    requires IsFlatMember(m)
  {
    Quote(m.key) + (":" + WriteValue(m.value))
  }

  function WriteMembers(ms: seq<Member>): string
    requires AllFlat(ms)
  {
    if |ms| == 0 then "" else if |ms| == 1 then WriteMember(ms[0])
    else WriteMember(ms[0]) + ("," + WriteMembers(ms[1..]))
  }

  function WriteObject(ms: seq<Member>): string
    requires AllFlat(ms)
  {
    "{" + (WriteMembers(ms) + "}")
  }

  // ---- reading back what was written ----

  lemma UnescapeOf(c: char, rest: string)
    requires c < 128 as char && |Escape(c)| > 1
    ensures Escape(c)[0] == '\\' && Unescape((Escape(c) + rest)[1..]) == Some((c, rest))
  {
    var t := (Escape(c) + rest)[1..];
    assert t == Escape(c)[1..] + rest;
    if |Escape(c)| == 6 {
      assert t[..3] == "u00" && t[5..] == rest;
      assert DigitChar(c as nat / 16) == t[3] && DigitChar(c as nat % 16) == t[4];
    } else {
      assert t[1..] == rest;
    }
  }

  lemma {:induction false} ReadTextOf(s: string, rest: string)
    requires IsAscii(s)
    ensures ReadText(EscapeAll(s) + ("\"" + rest)) == Some((s, rest))
  {
    hide ReadText, Escape;
    if s == "" {
      ReadClose(rest);
      assert EscapeAll(s) + ("\"" + rest) == "\"" + rest;
    } else {
      ReadTextOf(s[1..], rest);
      EscapeStep(s, "\"" + rest);
      ReadCharOf(s[0], EscapeAll(s[1..]) + ("\"" + rest));
      assert [s[0]] + s[1..] == s;
    }
  }

  lemma ReadClose(rest: string)
    ensures ReadText("\"" + rest) == Some(("", rest))
  {
    assert ("\"" + rest)[1..] == rest;
  }

  lemma EscapeStep(s: string, tail: string)
    requires IsAscii(s) && s != ""
    ensures EscapeAll(s) + tail == Escape(s[0]) + (EscapeAll(s[1..]) + tail)
  {
    hide Escape;
  }

  lemma ReadCharOf(c: char, tail: string)
    requires c < 128 as char
    ensures ReadText(Escape(c) + tail) == Push(c, ReadText(tail))
  {
    var t := Escape(c) + tail;
    if |Escape(c)| > 1 {
      UnescapeOf(c, tail);
    } else {
      assert t[1..] == tail;
    }
  }

  lemma ParseIntOfPrinted(n: int)
    requires IsInt64(n)
    ensures ParseInt(FormatInt(n, 0)) == Some(n)
    ensures IsFlat(Number(FormatInt(n, 0)))
  {
    ParseIntOfFormatInt(n);
  }

  lemma QuoteOnto(s: string, rest: string)
    requires IsAscii(s)
    ensures Quote(s) + rest == "\"" + (EscapeAll(s) + ("\"" + rest))
  {
  }
}
