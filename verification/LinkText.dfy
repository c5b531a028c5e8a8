/** The text form of a link tree: one line per folder ("name:") or file ("[size:][modified:]url"),
    indented by two spaces per level. */
module LinkText {
  import opened Prelude
  import opened Numerals
  import opened LinkTree

  /** strings.Split on one character. */
  function SplitOn(s: string, sep: char): (parts: seq<string>)
    ensures |parts| > 0
  {
    if s == "" then [""]
    else
      var rest := SplitOn(s[1..], sep);
      if s[0] == sep then [""] + rest else [[s[0]] + rest[0]] + rest[1..]
  }

  lemma {:induction false} SplitWord(word: string, rest: string, sep: char)
    requires sep !in word && (rest == "" || rest[0] == sep)
    ensures SplitOn(word + rest, sep) == [word] + SplitOn(rest, sep)[1..]
  {
    if word == "" {
      assert word + rest == rest;
      assert rest != "" ==> SplitOn(rest, sep)[0] == "";
    } else {
      assert (word + rest)[1..] == word[1..] + rest;
      assert word[0] in word;
      SplitWord(word[1..], rest, sep);
      assert [word[0]] + word[1..] == word;
    }
  }

  lemma SplitSep(s: string, sep: char)
    ensures SplitOn([sep] + s, sep) == [""] + SplitOn(s, sep)
  {
    assert ([sep] + s)[1..] == s;
  }

  predicate IsSpace(c: char) {
    c == ' ' || c == '\t' || c == '\n' || c == '\r' || c == 11 as char || c == 12 as char
  }

  /** A blank, or one of the five control characters from the tabulator on. */
  lemma SpaceIs(c: char)
    ensures IsSpace(c) <==> c as int == 32 || 9 <= c as int <= 13
  {
  }

  function TrimLeft(s: string): string {
    if s != "" && IsSpace(s[0]) then TrimLeft(s[1..]) else s
  }

  function TrimRight(s: string): string {
    if s != "" && IsSpace(s[|s| - 1]) then TrimRight(s[..|s| - 1]) else s
  }

  /** strings.TrimSpace */
  function Trim(s: string): string {
    TrimRight(TrimLeft(s))
  }

  predicate AllSpace(s: string) {
    forall i :: 0 <= i < |s| ==> IsSpace(s[i])
  }

  lemma {:induction false} TrimLeftOf(a: string, s: string)
    requires AllSpace(a) && (s == "" || !IsSpace(s[0]))
    ensures TrimLeft(a + s) == s
  {
    if a == "" {
      assert a + s == s;
    } else {
      assert (a + s)[1..] == a[1..] + s;
      TrimLeftOf(a[1..], s);
    }
  }

  lemma {:induction false} TrimRightOf(s: string, b: string)
    requires AllSpace(b) && (s == "" || !IsSpace(s[|s| - 1]))
    ensures TrimRight(s + b) == s
  {
    if b == "" {
      assert s + b == s;
    } else {
      assert (s + b)[..|s + b| - 1] == s + b[..|b| - 1];
      TrimRightOf(s, b[..|b| - 1]);
    }
  }

  /** What trimming leaves: the text between the white space. */
  lemma TrimIs(a: string, s: string, b: string)
    requires AllSpace(a) && AllSpace(b) && (s == "" || (!IsSpace(s[0]) && !IsSpace(s[|s| - 1])))
    ensures Trim(a + s + b) == s
  {
    if s == "" {
      assert a + s + b == a + b + "";
      TrimLeftOf(a + b, "");
      assert "" + "" == "";
    } else {
      assert a + s + b == a + (s + b) && (s + b)[0] == s[0];
      TrimLeftOf(a, s + b);
      TrimRightOf(s, b);
    }
  }

  /** The number of leading spaces. */
  function Indent(line: string): (n: nat)
    ensures n <= |line| && (forall i :: 0 <= i < n ==> line[i] == ' ') && (n < |line| ==> line[n] != ' ')
  {
    if line != "" && line[0] == ' ' then 1 + Indent(line[1..]) else 0
  }

  /** strings.Index: the first place where `pat` starts. */
  function Index(s: string, pat: string): (o: Option<nat>)
    ensures o.Some? ==> o.value <= |s| && HasPrefix(s[o.value..], pat)
    ensures o.Some? ==> forall j :: 0 <= j < o.value ==> !HasPrefix(s[j..], pat)
    ensures o.None? ==> forall j :: 0 <= j <= |s| ==> !HasPrefix(s[j..], pat)
  {
    if HasPrefix(s, pat) then Some(0)
    else if s == "" then None
    else
      assert s[0..] == s && forall j :: 0 < j <= |s| ==> s[j..] == s[1..][j - 1..];
      match Index(s[1..], pat)
      case None => None
      case Some(i) => Some(i + 1)
  }

  const HTTP: string := "http://"
  const HTTPS: string := "https://"

  function DropSlashes(s: string): string {
    if s != "" && s[|s| - 1] == '/' then DropSlashes(s[..|s| - 1]) else s
  }

  function LastSegment(s: string): string {
    var parts := SplitOn(s, '/');
    parts[|parts| - 1]
  }

  /** path.Base */
  function Base(s: string): string {
    if s == "" then "."
    else
      var b := LastSegment(DropSlashes(s));
      if b == "" then "/" else b
  }

  /** url.PathUnescape; None when a percent sign is not followed by two hexadecimal digits. */
  function Unescape(s: string): Option<string>
    decreases |s|
  {
    if s == "" then Some("")
    else if s[0] != '%' then
      match Unescape(s[1..])
      case None => None
      case Some(r) => Some([s[0]] + r)
    else if |s| < 3 || !IsHexDigit(s[1]) || !IsHexDigit(s[2]) then None
    else
      match Unescape(s[3..])
      case None => None
      case Some(r) => Some([(HexValue(s[1]) * 16 + HexValue(s[2])) as char] + r)
  }

  /** A file is named after the last segment of its url. */
  function NameOf(url: string): string {
    Unescape(Base(url)).GetOr(Base(url))
  }

  // ---- what a url names ----

  lemma {:induction false} SplitLast(q: string, seg: string)
    requires '/' !in seg && (q == "" || q[|q| - 1] == '/')
    ensures LastSegment(q + seg) == seg && (q != "" ==> |SplitOn(q + seg, '/')| > 1)
    decreases |q|
  {
    if q == "" {
      assert q + seg == seg == seg + "";
      SplitWord(seg, "", '/');
    } else {
      assert (q + seg)[1..] == q[1..] + seg;
      SplitLast(q[1..], seg);
    }
  }

  lemma {:induction false} DropsSlashes(s: string, k: nat)
    requires s == "" || s[|s| - 1] != '/'
    ensures DropSlashes(s + Repeat('/', k)) == s
  {
    var t := s + Repeat('/', k);
    if k == 0 {
      assert t == s;
    } else {
      assert t[..|t| - 1] == s + Repeat('/', k - 1);
      DropsSlashes(s, k - 1);
    }
  }

  /** The last segment, with any number of slashes behind it; nothing but slashes is the root. */
  lemma BaseIsLastSegment(q: string, seg: string, k: nat)
    requires '/' !in seg && (q == "" || q[|q| - 1] == '/')
    ensures seg != "" ==> Base(q + seg + Repeat('/', k)) == seg
    ensures k > 0 ==> Base(Repeat('/', k)) == "/"
  {
    if seg != "" {
      assert seg[|seg| - 1] in seg && (q + seg)[|q + seg| - 1] == seg[|seg| - 1];
      DropsSlashes(q + seg, k);
      SplitLast(q, seg);
    }
    if k > 0 {
      DropsSlashes("", k);
      assert "" + Repeat('/', k) == Repeat('/', k);
    }
  }

  /** Every percent sign has two hexadecimal digits behind it. */
  predicate WellEscaped(s: string) {
    forall i :: 0 <= i < |s| && s[i] == '%' ==> i + 2 < |s| && IsHexDigit(s[i + 1]) && IsHexDigit(s[i + 2])
  }

  lemma {:induction false} UnescapesExactly(s: string)
    ensures Unescape(s).Some? <==> WellEscaped(s)
    decreases |s|
  {
    if s != "" {
      if s[0] != '%' {
        UnescapesExactly(s[1..]);
        assert forall i :: 0 < i < |s| ==> s[i] == s[1..][i - 1];
      } else if |s| >= 3 && IsHexDigit(s[1]) && IsHexDigit(s[2]) {
        UnescapesExactly(s[3..]);
        assert forall i :: 3 <= i < |s| ==> s[i] == s[3..][i - 3];
      }
    }
  }

  function HexChar(d: nat, upper: bool): (c: char)
    requires d < 16
    ensures IsHexDigit(c) && HexValue(c) == d
  {
    if d >= 10 && upper then 'A' + (d - 10) as char else DigitChar(d)
  }

  /** Percent-encoding (section 2.1 of RFC 3986): the characters outside `plain`, and the percent sign, as two
      hexadecimal digits of either case. */
  function Escape(s: string, plain: set<char>, upper: bool): string {
    if s == "" then ""
    else
      (if (s[0] in plain && s[0] != '%') || s[0] as int >= 0x100 then [s[0]]
       else ['%', HexChar(s[0] as int / 16, upper), HexChar(s[0] as int % 16, upper)])
      + Escape(s[1..], plain, upper)
  }

  /** Every percent-encoding of a byte string reads back. */
  lemma {:induction false} UnescapeOfEscape(s: string, plain: set<char>, upper: bool)
    ensures Unescape(Escape(s, plain, upper)) == Some(s)
  {
    if s != "" {
      UnescapeOfEscape(s[1..], plain, upper);
      var rest := Escape(s[1..], plain, upper);
      var c := s[0];
      var head := if (c in plain && c != '%') || c as int >= 0x100 then [c]
                  else ['%', HexChar(c as int / 16, upper), HexChar(c as int % 16, upper)];
      UnescapeHead(head, rest);
      assert [c] + s[1..] == s;
    }
  }

  lemma UnescapeHead(head: string, rest: string)
    requires if |head| == 1 then head[0] != '%'
             else |head| == 3 && head[0] == '%' && IsHexDigit(head[1]) && IsHexDigit(head[2])
    ensures var c := if |head| == 1 then head[0] else (HexValue(head[1]) * 16 + HexValue(head[2])) as char;
      Unescape(head + rest) == match Unescape(rest) case None => None case Some(r) => Some([c] + r)
  {
    var s := head + rest;
    assert s[|head|..] == rest && s[0] == head[0];
    if |head| == 3 { assert s[1] == head[1] && s[2] == head[2]; }
  }

  /** A file is named after the last segment of its url, unescaped where it is well escaped and as it stands
      otherwise, with any number of slashes behind it. */
  lemma NameOfUrl(q: string, seg: string, k: nat)
    requires seg != "" && '/' !in seg && (q == "" || q[|q| - 1] == '/')
    ensures var name := NameOf(q + seg + Repeat('/', k));
      && (!WellEscaped(seg) ==> name == seg)
      && (WellEscaped(seg) ==> Unescape(seg) == Some(name))
      && ('%' !in seg ==> name == seg)
    ensures forall text, plain, upper :: seg == Escape(text, plain, upper) ==> NameOf(q + seg + Repeat('/', k)) == text
  {
    BaseIsLastSegment(q, seg, k);
    UnescapesExactly(seg);
    if '%' !in seg { PlainUnescapes(seg); }
    forall text, plain, upper | seg == Escape(text, plain, upper)
      ensures Unescape(seg) == Some(text)
    {
      UnescapeOfEscape(text, plain, upper);
    }
    hide Unescape, Base;
  }

  lemma {:induction false} PlainUnescapes(s: string)
    requires '%' !in s
    ensures Unescape(s) == Some(s)
  {
    if s != "" {
      assert s[0] in s && forall i :: 0 <= i < |s[1..]| ==> s[1..][i] in s;
      PlainUnescapes(s[1..]);
      assert [s[0]] + s[1..] == s;
    }
  }

  function UrlStart(line: string): Option<nat> {
    if Index(line, HTTP).Some? then Index(line, HTTP) else Index(line, HTTPS)
  }

  /** Size and modification time in front of the url. */
  function ParseInfo(info: string, now: int): Option<(int, int)> {
    if info == "" || info[|info| - 1] != ':' || |info| == 1 then None
    else
      var parts := SplitOn(info[..|info| - 1], ':');
      if ParseInt(parts[0]).None? then None
      else if |parts| == 1 then Some((ParseInt(parts[0]).value, now))
      else if ParseInt(parts[1]).None? then None
      else Some((ParseInt(parts[0]).value, ParseInt(parts[1]).value))
  }

  /** Without a colon at the end it is refused; a single numeral is the size, and the clock the time; of two or more
      pieces the first two count, and both must be numerals. */
  lemma ParseInfoIs(a: string, b: string, rest: string, now: int)
    requires ':' !in a && ':' !in b && (rest == "" || rest[|rest| - 1] == ':')
    ensures a != "" ==> ParseInfo(a, now).None?
    ensures ParseInfo(a + ":", now) == match ParseInt(a) case None => None case Some(size) => Some((size, now))
    ensures ParseInfo(a + (":" + (b + (":" + rest))), now) ==
      if ParseInt(a).Some? && ParseInt(b).Some? then Some((ParseInt(a).value, ParseInt(b).value)) else None
  {
    if a != "" { assert a[|a| - 1] in a; }
    assert (a + ":")[..|a + ":"| - 1] == a == a + "";
    SplitWord(a, "", ':');
    assert SplitOn("", ':')[1..] == [];
    TwoPieces(a, b, rest);
    hide ParseInt, SplitOn;
  }

  lemma TwoPieces(a: string, b: string, rest: string)
    requires ':' !in a && ':' !in b
    ensures var info := a + (":" + (b + (":" + rest)));
      var parts := SplitOn(info[..|info| - 1], ':');
      |info| > 1 && |parts| > 1 && parts[0] == a && parts[1] == b
  {
    var info := a + (":" + (b + (":" + rest)));
    var tail := if rest == "" then "" else ":" + rest[..|rest| - 1];
    assert info[..|info| - 1] == a + (":" + (b + tail));
    SplitWord(a, ":" + (b + tail), ':');
    SplitSep(b + tail, ':');
    SplitWord(b, tail, ':');
  }

  /** parseFileLine; `now` is the clock. */
  function ParseFile(line: string, level: int, now: int): (o: Option<Item>)
    ensures o.Some? ==> !o.value.folder && o.value.url != ""
  {
    match UrlStart(line)
    case None => None
    case Some(i) =>
      var url := line[i..];
      if i == 0 then Some(Item(level, false, NameOf(url), 0, 0, url))
      else
        match ParseInfo(line[..i], now)
        case None => None
        case Some((size, modified)) => Some(Item(level, false, NameOf(url), size, modified, url))
  }

  datatype Line = Blank | Bad | Entry(item: Item)

  /** isFolder: a line that ends in a colon. */
  predicate IsFolder(line: string) {
    line != "" && line[|line| - 1] == ':'
  }

  /** One turn of BuildTree's loop up to the new node. */
  function ParseLine(line: string, now: int): (r: Line)
    ensures r.Entry? ==> r.item.level >= 0 && IsKind(r.item)
  {
    var indent := Indent(line);
    var text := Trim(line[indent..]);
    if indent % 2 != 0 then Bad
    else if text == "" then Blank
    else if IsFolder(text) then Entry(Item(indent / 2, true, text[..|text| - 1], 0, 0, ""))
    else
      match ParseFile(text, indent / 2, now)
      case None => Bad
      case Some(item) => Entry(item)
  }

  /** A line by its indentation, its text and the white space behind. */
  lemma ParseLineIs(n: nat, text: string, b: string, now: int)
    requires AllSpace(b) && (text == "" ==> b == "" || b[0] != ' ')
    requires text == "" || (!IsSpace(text[0]) && !IsSpace(text[|text| - 1]))
    ensures ParseLine(Repeat(' ', n) + text + b, now) ==
      if n % 2 != 0 then Bad
      else if text == "" then Blank
      else if IsFolder(text) then Entry(Item(n / 2, true, text[..|text| - 1], 0, 0, ""))
      else match ParseFile(text, n / 2, now) case None => Bad case Some(item) => Entry(item)
  {
    var line := Repeat(' ', n) + text + b;
    assert n < |line| ==> line[n] == (text + b)[0];
    assert Indent(line) == n && line[n..] == "" + text + b;
    TrimIs("", text, b);
    hide ParseFile, Trim;
  }

  /** A file line has a url, the first http:// or, if there is none, the first https://, and nothing in front of it
      or what ParseInfo takes. */
  lemma ParseFileIs(line: string, level: int, now: int)
    ensures UrlStart(line).None? <==> forall i :: 0 <= i <= |line| ==> !HasPrefix(line[i..], HTTP) && !HasPrefix(line[i..], HTTPS)
    ensures ParseFile(line, level, now).None? <==>
      UrlStart(line).None? || (UrlStart(line).value > 0 && ParseInfo(line[..UrlStart(line).value], now).None?)
    ensures UrlStart(line).Some? ==> var i := UrlStart(line).value;
      && i <= |line|
      && if exists j :: 0 <= j <= |line| && HasPrefix(line[j..], HTTP)
         then HasPrefix(line[i..], HTTP) && forall j :: 0 <= j < i ==> !HasPrefix(line[j..], HTTP)
         else HasPrefix(line[i..], HTTPS) && forall j :: 0 <= j < i ==> !HasPrefix(line[j..], HTTPS)
    ensures UrlStart(line) == Some(0) ==> ParseFile(line, level, now) == Some(Item(level, false, NameOf(line), 0, 0, line))
    ensures forall i: nat, size, modified ::
      UrlStart(line) == Some(i) && i > 0 && ParseInfo(line[..i], now) == Some((size, modified)) ==>
        ParseFile(line, level, now) == Some(Item(level, false, NameOf(line[i..]), size, modified, line[i..]))
  {
    hide ParseInfo, NameOf;
    assert line[0..] == line;
  }

  /** The items of all non-blank lines, root first; None if some line is bad. */
  function Items(lines: seq<string>, now: int): (o: Option<seq<Item>>)
    ensures o.Some? ==> Rooted(o.value) && o.value[0] == ROOT && Kinds(o.value)
  {
    if lines == [] then Some([ROOT])
    else
      match Items(lines[..|lines| - 1], now)
      case None => None
      case Some(items) =>
        match ParseLine(lines[|lines| - 1], now)
        case Bad => None
        case Blank => Some(items)
        case Entry(item) => Some(items + [item])
  }

  /** One more line. */
  lemma ItemsSnoc(lines: seq<string>, line: string, now: int)
    requires Items(lines, now).Some?
    ensures Items(lines + [line], now) ==
      match ParseLine(line, now)
      case Bad => None
      case Blank => Items(lines, now)
      case Entry(item) => Some(Items(lines, now).value + [item])
  {
    hide ParseLine;
    var all := lines + [line];
    assert all[..|all| - 1] == lines && all[|all| - 1] == line;
  }
}
