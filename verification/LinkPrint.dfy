/** Printing a link tree and reading it back: two spaces per level, "name:" for folders and
    "size:modified:url" for files. */
module LinkPrint {
  import opened Prelude
  import opened Numerals
  import opened LinkTree
  import opened LinkText

  predicate OneLine(s: string) {
    '\n' !in s
  }

  /** Folder names that survive: on one line, not starting with a space. */
  predicate PrintableFolder(item: Item) {
    && item.folder && item.size == 0 && item.modified == 0 && item.url == ""
    && OneLine(item.name) && (item.name == "" || !IsSpace(item.name[0]))
  }

  /** Urls that survive: one scheme, at the front, and no space or colon at the end. */
  predicate PrintableUrl(url: string) {
    && (Index(url, HTTP) == Some(0) || (Index(url, HTTP).None? && Index(url, HTTPS) == Some(0)))
    && OneLine(url) && url != "" && !IsSpace(url[|url| - 1]) && url[|url| - 1] != ':'
  }

  predicate PrintableFile(item: Item) {
    && !item.folder && IsInt64(item.size) && IsInt64(item.modified)
    && PrintableUrl(item.url) && item.name == NameOf(item.url)
  }

  predicate Printable(item: Item) {
    item.level >= 0 && (PrintableFolder(item) || PrintableFile(item))
  }

  function Info(item: Item): string {
    FormatInt(item.size, 0) + (":" + (FormatInt(item.modified, 0) + ":"))
  }

  function Body(item: Item): string {
    if item.folder then item.name + ":" else Info(item) + item.url
  }

  function PrintLine(item: Item): string {
    Repeat(' ', Max(2 * item.level, 0)) + Body(item)
  }

  /** Every line ends in a newline. */
  function Text(items: seq<Item>): string {
    if items == [] then "" else PrintLine(items[0]) + ("\n" + Text(items[1..]))
  }

  function PrintLines(items: seq<Item>): (ls: seq<string>)
    ensures |ls| == |items| && forall i :: 0 <= i < |ls| ==> ls[i] == PrintLine(items[i])
  {
    seq(|items|, i requires 0 <= i < |items| => PrintLine(items[i]))
  }

  // ---- one line ----

  lemma {:induction false} IndentOf(n: nat, body: string)
    requires body == "" || body[0] != ' '
    ensures Indent(Repeat(' ', n) + body) == n
  {
    var s := Repeat(' ', n) + body;
    if n > 0 {
      assert s[1..] == Repeat(' ', n - 1) + body;
      IndentOf(n - 1, body);
    } else {
      assert s == body;
    }
  }

  lemma TrimOf(s: string)
    requires s != "" && !IsSpace(s[0]) && !IsSpace(s[|s| - 1])
    ensures Trim(s) == s
  {
    assert TrimLeft(s) == s;
  }

  lemma IndexStep(t: string, pat: string)
    requires t != "" && pat != "" && t[0] != pat[0]
    ensures Index(t, pat) == match Index(t[1..], pat) case None => None case Some(i) => Some(i + 1)
  {
    assert |t| >= |pat| ==> t[..|pat|][0] == t[0];
  }

  lemma {:induction false} IndexSkips(p: string, s: string, pat: string)
    requires pat != "" && forall i :: 0 <= i < |p| ==> p[i] != pat[0]
    ensures Index(p + s, pat) == match Index(s, pat) case None => None case Some(i) => Some(|p| + i)
  {
    if p == "" {
      assert p + s == s;
    } else {
      IndexStep(p + s, pat);
      hide Index;
      assert (p + s)[1..] == p[1..] + s;
      IndexSkips(p[1..], s, pat);
    }
  }

  predicate IsNumeral(s: string) {
    s != "" && forall i :: 0 <= i < |s| ==> IsDigit(s[i]) || s[i] == '-'
  }

  lemma NumeralOf(n: int)
    ensures IsNumeral(FormatInt(n, 0))
  {
    var ds := Print(10, if n < 0 then -n else n);
    assert FormatInt(n, 0) == (if n < 0 then "-" + ds else ds);
  }

  lemma InfoChars(item: Item)
    ensures forall i :: 0 <= i < |Info(item)| ==> IsDigit(Info(item)[i]) || Info(item)[i] == '-' || Info(item)[i] == ':'
    ensures |Info(item)| > 1 && Info(item)[|Info(item)| - 1] == ':'
  {
    NumeralOf(item.size);
    NumeralOf(item.modified);
    hide FormatInt;
  }

  lemma SplitTwo(a: string, b: string)
    requires ':' !in a && ':' !in b
    ensures SplitOn(a + (":" + b), ':') == [a, b]
  {
    SplitWord(a, ":" + b, ':');
    SplitSep(b, ':');
    SplitWord(b, "", ':');
    assert b + "" == b;
    assert SplitOn("", ':')[1..] == [];
  }

  lemma InfoShape(a: string, b: string)
    requires a != "" && b != ""
    ensures var info := a + (":" + (b + ":"));
      |info| > 1 && info[|info| - 1] == ':' && info[..|info| - 1] == a + (":" + b)
  {
  }

  lemma ParseInfoParts(info: string, a: string, b: string, now: int)
    requires IsNumeral(a) && IsNumeral(b) && ParseInt(a).Some? && ParseInt(b).Some?
    requires |info| > 1 && info[|info| - 1] == ':' && info[..|info| - 1] == a + (":" + b)
    ensures ParseInfo(info, now) == Some((ParseInt(a).value, ParseInt(b).value))
  {
    SplitTwo(a, b);
    hide SplitOn, ParseInt, IsNumeral;
  }

  lemma ParseInfoOf(item: Item, now: int)
    requires IsInt64(item.size) && IsInt64(item.modified)
    ensures ParseInfo(Info(item), now) == Some((item.size, item.modified))
  {
    var a, b := FormatInt(item.size, 0), FormatInt(item.modified, 0);
    NumeralOf(item.size);
    NumeralOf(item.modified);
    ParseIntOfFormatInt(item.size);
    ParseIntOfFormatInt(item.modified);
    InfoShape(a, b);
    hide FormatInt, ParseInt, ParseInfo;
    ParseInfoParts(Info(item), a, b, now);
  }

  lemma ParseFileOf(item: Item, now: int)
    requires PrintableFile(item)
    ensures ParseFile(Body(item), item.level, now) == Some(item)
  {
    var p := Info(item);
    InfoChars(item);
    ParseInfoOf(item, now);
    hide Info, ParseInfo, NameOf, Index;
    IndexSkips(p, item.url, HTTP);
    IndexSkips(p, item.url, HTTPS);
    assert (p + item.url)[..|p|] == p && (p + item.url)[|p|..] == item.url;
  }

  lemma BodyEnds(item: Item)
    requires Printable(item)
    ensures Body(item) != "" && !IsSpace(Body(item)[0]) && !IsSpace(Body(item)[|Body(item)| - 1])
    ensures IsFolder(Body(item)) <==> item.folder
    ensures OneLine(Body(item))
  {
    InfoChars(item);
    hide Info;
    if item.folder {
      assert item.name != "" ==> Body(item)[0] == item.name[0];
    } else {
      assert Body(item)[|Body(item)| - 1] == item.url[|item.url| - 1];
    }
  }

  /** A printed line reads back as its item. */
  lemma ParseLineOf(item: Item, now: int)
    requires Printable(item)
    ensures ParseLine(PrintLine(item), now) == Entry(item)
  {
    var body, n := Body(item), 2 * item.level;
    BodyEnds(item);
    if !item.folder { ParseFileOf(item, now); }
    assert item.folder ==> body[..|body| - 1] == item.name;
    hide Body, ParseFile;
    IndentOf(n, body);
    TrimOf(body);
    assert (Repeat(' ', n) + body)[n..] == body;
    assert n % 2 == 0 && n / 2 == item.level;
  }

  // ---- the whole text ----

  predicate AllPrintable(items: seq<Item>) {
    forall i :: 0 <= i < |items| ==> Printable(items[i])
  }

  lemma PrintLineIsOneLine(item: Item)
    requires Printable(item)
    ensures OneLine(PrintLine(item))
  {
    BodyEnds(item);
    hide Body;
  }

  lemma {:induction false} SplitOfText(items: seq<Item>)
    requires AllPrintable(items)
    ensures SplitOn(Text(items), '\n') == PrintLines(items) + [""]
  {
    hide Printable, SplitOn, PrintLine;
    if items == [] {
      SplitNothing();
      assert PrintLines(items) == [];
    } else {
      var line, rest := PrintLine(items[0]), Text(items[1..]);
      PrintLineIsOneLine(items[0]);
      SplitOfText(items[1..]);
      SplitWord(line, "\n" + rest, '\n');
      SplitSep(rest, '\n');
      assert PrintLines(items) == [line] + PrintLines(items[1..]);
    }
  }

  lemma SplitNothing()
    ensures SplitOn("", '\n') == [""]
  {
  }

  lemma {:induction false} ItemsOfLines(items: seq<Item>, now: int)
    requires AllPrintable(items)
    ensures Items(PrintLines(items), now) == Some([ROOT] + items)
  {
    hide Printable, ParseLine, PrintLine;
    if items == [] {
      assert PrintLines(items) == [] && [ROOT] + items == [ROOT];
    } else {
      var n := |items| - 1;
      ItemsOfLines(items[..n], now);
      assert PrintLines(items) == PrintLines(items[..n]) + [PrintLine(items[n])];
      ItemsSnoc(PrintLines(items[..n]), PrintLine(items[n]), now);
      ParseLineOf(items[n], now);
      hide Items, PrintLines;
      assert [ROOT] + items == ([ROOT] + items[..n]) + [items[n]];
    }
  }

  lemma BlankLine(now: int)
    ensures ParseLine("", now) == Blank
  {
    assert ""[0..] == "";
  }

  /** The lines of a printed text are the items that were printed. */
  lemma ItemsOfText(items: seq<Item>, now: int)
    requires AllPrintable(items)
    ensures Items(SplitOn(Text(items), '\n'), now) == Some([ROOT] + items)
  {
    hide ParseLine, Text, SplitOn, AllPrintable;
    SplitOfText(items);
    ItemsOfLines(items, now);
    BlankLine(now);
    ItemsSnoc(PrintLines(items), "", now);
  }

  /** Printing a tree and building it again gives the tree back. */
  lemma PrintBuildRoundTrip(t: Tree, now: int)
    requires Levelled(t, -1) && t.item == ROOT && AllPrintable(PreorderAll(t.kids))
    ensures var items := Items(SplitOn(Text(PreorderAll(t.kids)), '\n'), now);
      items.Some? && items.value == Preorder(t) && TreeOf(items.value, 0) == t
  {
    ItemsOfText(PreorderAll(t.kids), now);
    LayoutRoundTrip(t);
  }
}
