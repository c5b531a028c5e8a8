/**
 Chunk file names: the printf format that makes them and the regular expression that reads them
 back.  The expression is

   ^before(.+?)between(?:([0-9]{w,})|_([a-z][a-z0-9]{2,6}))after(?:_([0-9a-z]{4,9})|\.\.tmp_([0-9]{10,13}))?$

 with leftmost-first matching: the name group takes as few characters as possible, the
 alternatives are tried left to right, and repetitions take as many characters as possible.
 */
module ChunkNames {
  import opened Prelude
  import opened Numerals

  /** The pieces of a name pattern before{name}between{chunk:width}after; width 0 is a plain {chunk}. */
  datatype Format = Format(before: string, between: string, after: string, width: nat)

  const MARKER: string := ".rclone_chunk."

  const DEFAULT_FORMAT := Format("", MARKER, "", 3)

  /** What parseChunkName reports: no match, or the main name, chunk number (-1 for a control chunk),
      control type and transaction id. */
  datatype Parsed = NoMatch | Match(main: string, no: int, ctrl: string, xact: string)

  /** The capture groups after the name: digits, control type, new-style and old-style suffix. */
  datatype Groups = Groups(digits: string, ctrl: string, xact: string, tmp: string)

  const TMP: string := "..tmp_"

  // ---- making names ----

  function Suffix(xact: string): string {
    if xact == "" then "" else "_" + PadLeft(xact, 4)
  }

  /** makeChunkName; the chunk number and the configured base are 64-bit integers. */
  function Make(fmt: Format, start: int, name: string, no: int, xact: string): string {
    fmt.before + name + fmt.between + FormatInt(Wrap64(no + start), fmt.width) + fmt.after + Suffix(xact)
  }

  /** The transaction id Put derives from the clock: the last nine base-36 places of the nanosecond
      count, padded to four. */
  function XactId(nanos: nat): (x: string)
    ensures 4 <= |x| <= 9 && AllBase36(x)
  {
    PadLeft(LastPlaces(Print(36, nanos), 9), 4)
  }

  // ---- reading names ----

  /** The optional last group, anchored at the end of the name. */
  function MatchSuffix(t: string): Option<Groups> {
    if t == "" then Some(Groups("", "", "", ""))
    else if 5 <= |t| <= 10 && t[0] == '_' && AllBase36(t[1..]) then Some(Groups("", "", t[1..], ""))
    else if HasPrefix(t, TMP) && 10 <= |t| - |TMP| <= 13 && AllDigits(t[|TMP|..]) then
      Some(Groups("", "", "", t[|TMP|..]))
    else None
  }

  /** afterChunk, then the suffix. */
  function MatchRest(fmt: Format, t: string): Option<Groups> {
    if HasPrefix(t, fmt.after) then MatchSuffix(t[|fmt.after|..]) else None
  }

  /** The number of leading characters of `t` in the digit class. */
  function DigitRun(t: string): (n: nat)
    ensures n <= |t| && AllDigits(t[..n])
    ensures n < |t| ==> !IsDigit(t[n])
  {
    if t == "" || !IsDigit(t[0]) then 0
    else
      var n := 1 + DigitRun(t[1..]);
      assert t[..n] == [t[0]] + t[1..][..n - 1];
      n
  }

  /** First alternative: digits, longest repetition first. */
  function MatchDigits(fmt: Format, t: string, k: nat): Option<Groups>
    requires k <= |t|
    decreases k
  {
    if k < Max(fmt.width, 1) then None
    else
      match MatchRest(fmt, t[k..])
      case Some(g) => Some(g.(digits := t[..k]))
      case None => MatchDigits(fmt, t, k - 1)
  }

  predicate IsCtrlType(s: string) {
    3 <= |s| <= 7 && IsLower(s[0]) && AllBase36(s)
  }

  /** Second alternative: a control type, longest repetition first. */
  function MatchCtrl(fmt: Format, t: string, k: nat): Option<Groups>
    decreases k
  {
    if k < 3 then None
    else if 1 + k <= |t| && t[0] == '_' && IsCtrlType(t[1..1 + k]) && MatchRest(fmt, t[1 + k..]).Some? then
      Some(MatchRest(fmt, t[1 + k..]).value.(ctrl := t[1..1 + k]))
    else MatchCtrl(fmt, t, k - 1)
  }

  /** Everything behind the name group. */
  function MatchTail(fmt: Format, t: string): Option<Groups> {
    if !HasPrefix(t, fmt.between) then None
    else
      var body := t[|fmt.between|..];
      match MatchDigits(fmt, body, DigitRun(body))
      case Some(g) => Some(g)
      case None => MatchCtrl(fmt, body, 7)
  }

  /** The name group is lazy: try lengths p, p + 1, ... and stop at a newline, which "." does not match. */
  function Search(fmt: Format, s: string, p: nat): Option<(string, Groups)>
    decreases |s| - p
  {
    if p > |s| || (p > 0 && s[p - 1] == '\n') then None
    else if p > 0 && MatchTail(fmt, s[p..]).Some? then Some((s[..p], MatchTail(fmt, s[p..]).value))
    else Search(fmt, s, p + 1)
  }

  function OldXact(digits: string): string
    requires AllDigits(digits)
  {
    PadLeft(Print(36, Value(10, digits)), 4)
  }

  /** parseChunkName on one path component. */
  function Parse(fmt: Format, start: int, name: string): Parsed {
    if !HasPrefix(name, fmt.before) then NoMatch
    else
      match Search(fmt, name[|fmt.before|..], 0)
      case None => NoMatch
      case Some((main, g)) => Interpret(start, main, g)
  }

  function Interpret(start: int, main: string, g: Groups): Parsed {
    var xact := if AllDigits(g.tmp) && g.tmp != "" then OldXact(g.tmp) else g.xact;
    if g.digits == "" then Match(main, -1, g.ctrl, xact)
    else if !AllDigits(g.digits) || Atoi(g.digits).None? then NoMatch
    else
      var no := Wrap64(Atoi(g.digits).value - start);
      if no < 0 then NoMatch else Match(main, no, g.ctrl, xact)
  }

  // ---- what can be named ----

  /** Names as they occur as one path component. */
  predicate PlainName(name: string) {
    name != "" && '\n' !in name
  }

  /** Transaction ids as the reader returns them. */
  predicate IsXact(x: string) {
    x == "" || (4 <= |x| <= 9 && AllBase36(x))
  }

  /** Chunk numbers whose printed form reads back. */
  predicate IsNumber(start: int, no: int) {
    0 <= no <= MAX_INT64 && 0 <= no + start <= MAX_INT64
  }
}
