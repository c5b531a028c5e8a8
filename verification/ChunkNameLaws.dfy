/** The laws of chunk names in the default format: made names read back, and what reads as a chunk
    could have been made. */
module ChunkNameLaws {
  import opened Prelude
  import opened Numerals
  import opened ChunkNames
  import opened ChunkNameMatching

  lemma DefaultMake(start: int, name: string, no: int, xact: string)
    ensures Make(DEFAULT_FORMAT, start, name, no, xact)
         == name + MARKER + (FormatInt(Wrap64(no + start), 3) + Suffix(xact))
  {
  }

  /** Reading a made name gives back its parts, the transaction id padded to four characters. */
  lemma ParseOfMake(start: int, name: string, no: int, xact: string)
    requires PlainName(name) && IsInt64(start) && IsNumber(start, no)
    requires AllBase36(xact) && |xact| <= 9
    ensures Parse(DEFAULT_FORMAT, start, Make(DEFAULT_FORMAT, start, name, no, xact))
         == Match(name, no, "", if xact == "" then "" else PadLeft(xact, 4))
  {
    hide Make, Search, MatchTail, Parse, Suffix, Atoi;
    var n: nat := no + start;
    var rest := FormatInt(n, 3) + Suffix(xact);
    var made := name + MARKER + rest;
    DefaultMake(start, name, no, xact);
    MatchTailOf(n, 3, xact);
    SearchFindsName(name, rest, 0);
    ParseOfSearch(start, made);
    AtoiOfFormatInt(n, 3);
  }

  /** However far the number is padded, at least to three digits, the name reads as the same chunk. */
  lemma AnyPaddingReads(start: int, name: string, no: int, w: nat, xact: string)
    requires PlainName(name) && IsInt64(start) && IsNumber(start, no) && w >= 3 && IsXact(xact)
    ensures Parse(DEFAULT_FORMAT, start, name + MARKER + (FormatInt(no + start, w) + Suffix(xact))) == Match(name, no, "", xact)
  {
    hide Make, Search, MatchTail, Parse, Suffix, Atoi;
    var n: nat := no + start;
    var rest := FormatInt(n, w) + Suffix(xact);
    MatchTailOf(n, w, xact);
    SearchFindsName(name, rest, 0);
    ParseOfSearch(start, name + MARKER + rest);
    AtoiOfFormatInt(n, w);
    assert xact != "" ==> PadLeft(xact, 4) == xact;
  }

  /** So does a name with a suffix of the old style, a time of ten to thirteen digits, under the id made of it. */
  lemma OldSuffixReads(start: int, name: string, no: int, w: nat, digits: string)
    requires PlainName(name) && IsInt64(start) && IsNumber(start, no) && w >= 3
    requires AllDigits(digits) && 10 <= |digits| <= 13
    ensures Parse(DEFAULT_FORMAT, start, name + MARKER + (FormatInt(no + start, w) + (TMP + digits)))
         == Match(name, no, "", OldXact(digits))
  {
    hide Make, Search, MatchTail, Parse, OldXact, Atoi;
    var ds := FormatInt(no + start, w);
    MatchTailOfOld(ds, digits);
    SearchFindsName(name, ds + (TMP + digits), 0);
    ParseOfSearch(start, name + MARKER + (ds + (TMP + digits)));
    AtoiOfFormatInt(no + start, w);
  }

  lemma MatchTailOfOld(ds: string, digits: string)
    requires AllDigits(ds) && |ds| >= 3 && AllDigits(digits) && 10 <= |digits| <= 13
    ensures MatchTail(DEFAULT_FORMAT, MARKER + (ds + (TMP + digits))) == Some(Groups(ds, "", "", digits))
  {
    var suf := TMP + digits;
    DigitRunOf(ds, suf);
    assert (MARKER + (ds + suf))[|MARKER|..] == ds + suf;
    assert (ds + suf)[|ds|..] == suf && (ds + suf)[..|ds|] == ds;
    assert suf[0..] == suf && suf[|TMP|..] == digits;
  }

  /** A name with a control type behind the marker reads as a control chunk, which a listing skips. */
  lemma ControlReads(start: int, name: string, ctrl: string, xact: string)
    requires PlainName(name) && IsInt64(start) && IsXact(xact)
    requires ControlShape(ctrl)
    ensures Parse(DEFAULT_FORMAT, start, name + MARKER + ("_" + ctrl + Suffix(xact))) == Match(name, -1, ctrl, xact)
  {
    hide Make, Search, Parse, Suffix, MatchTail;
    var rest := "_" + ctrl + Suffix(xact);
    MatchTailOfControl(ctrl, xact);
    SearchFindsName(name, rest, 0);
    ParseOfSearch(start, name + MARKER + rest);
    assert xact != "" ==> PadLeft(xact, 4) == xact;
  }

  lemma MatchTailOfControl(ctrl: string, xact: string)
    requires IsXact(xact) && IsCtrlType(ctrl)
    ensures MatchTail(DEFAULT_FORMAT, MARKER + ("_" + ctrl + Suffix(xact)))
         == Some(Groups("", ctrl, if xact == "" then "" else PadLeft(xact, 4), ""))
  {
    var suf := Suffix(xact);
    var body := "_" + ctrl + suf;
    MatchSuffixOf(xact);
    assert (MARKER + body)[|MARKER|..] == body;
    assert body[1..1 + |ctrl|] == ctrl && body[1 + |ctrl|..] == suf && suf[0..] == suf;
    LongestControl(ctrl, xact, 7);
  }

  lemma TooLong(ctrl: string, xact: string, k: nat)
    requires IsXact(xact) && |ctrl| < k
    ensures var body := "_" + ctrl + Suffix(xact); 1 + k <= |body| ==> !IsCtrlType(body[1..1 + k])
  {
    var body := "_" + ctrl + Suffix(xact);
    if 1 + k <= |body| {
      assert body[1 + |ctrl|] == Suffix(xact)[0] == '_';
      hide Suffix;
      var long := body[1..1 + k];
      assert long[|ctrl|] == '_';
    }
  }

  /** No longer control type fits: what follows would have to be an underscore. */
  lemma {:induction false} LongestControl(ctrl: string, xact: string, k: nat)
    requires IsXact(xact) && IsCtrlType(ctrl) && |ctrl| <= k <= 7
    ensures var body := "_" + ctrl + Suffix(xact);
      MatchCtrl(DEFAULT_FORMAT, body, k) == MatchCtrl(DEFAULT_FORMAT, body, |ctrl|)
    decreases k
  {
    hide Suffix, MatchRest, IsCtrlType;
    if k > |ctrl| {
      TooLong(ctrl, xact, k);
      LongestControl(ctrl, xact, k - 1);
    }
  }

  /** The round trip holds exactly when the number is in range and the id is empty or at least four
      characters long. */
  lemma RoundTrip(start: int, name: string, no: int, xact: string)
    requires PlainName(name) && IsInt64(start) && IsInt64(no)
    requires AllBase36(xact) && |xact| <= 9
    ensures Parse(DEFAULT_FORMAT, start, Make(DEFAULT_FORMAT, start, name, no, xact)) == Match(name, no, "", xact)
       <==> IsNumber(start, no) && IsXact(xact)
  {
    var made := Make(DEFAULT_FORMAT, start, name, no, xact);
    if IsNumber(start, no) {
      ParseOfMake(start, name, no, xact);
      assert xact != "" ==> |PadLeft(xact, 4)| == Max(|xact|, 4);
    } else if Parse(DEFAULT_FORMAT, start, made) == Match(name, no, "", xact) {
      ParseRange(start, made);
      assert false;
    }
  }

  /** How many nanoseconds pass before ids repeat, somewhat over 28 hours. */
  const PERIOD := 101_559_956_668_416

  /** The id is the clock, in base 36, up to whole periods. */
  lemma XactIdIsTheClock(nanos: nat)
    ensures IsXact(XactId(nanos)) && XactId(nanos) != "" && Value(36, XactId(nanos)) == nanos % PERIOD
  {
    var s := LastPlaces(Print(36, nanos), 9);
    assert Pow(36, 9) == PERIOD by { Pow36(); }
    ValueOfLast(36, nanos, 9);
    ValueOfPadded(36, Max(4 - |s|, 0), s);
  }

  /** Two clock values that are less than a period apart give different ids. */
  lemma XactIdsDiffer(a: nat, b: nat)
    requires a != b && -PERIOD < b - a < PERIOD
    ensures XactId(a) != XactId(b)
  {
    XactIdIsTheClock(a);
    XactIdIsTheClock(b);
  }

  /** An old-style suffix becomes an id of the current shape. */
  lemma OldXactIsXact(digits: string)
    requires AllDigits(digits) && 10 <= |digits| <= 13
    ensures IsXact(OldXact(digits))
  {
    ValueBound(10, digits, 13);
    assert Pow(10, 13) == 10_000_000_000_000 by { Pow10(); }
    assert Pow(36, 9) == 101_559_956_668_416 by { Pow36(); }
    PrintLength(36, Value(10, digits), 9);
    PadLeftBase36(Print(36, Value(10, digits)), 4);
  }

  /** The id is the suffix's number in base 36. */
  lemma OldXactValue(digits: string)
    requires AllDigits(digits)
    ensures AllBase36(OldXact(digits)) && Value(36, OldXact(digits)) == Value(10, digits)
  {
    var s := Print(36, Value(10, digits));
    ValueOfPrint(36, Value(10, digits));
    ValueOfPadded(36, Max(4 - |s|, 0), s);
  }

  lemma Pow10()
    ensures Pow(10, 13) == 10_000_000_000_000
  {
    assert Pow(10, 4) == 10_000;
    assert Pow(10, 8) == 100_000_000;
    assert Pow(10, 12) == 1_000_000_000_000;
  }

  lemma Pow36()
    ensures Pow(36, 9) == 101_559_956_668_416
  {
    assert Pow(36, 3) == 46_656;
    assert Pow(36, 6) == 2_176_782_336;
  }

  predicate ControlShape(s: string) {
    3 <= |s| <= 7 && 'a' <= s[0] <= 'z' && forall i :: 0 <= i < |s| ==> '0' <= s[i] <= '9' || 'a' <= s[i] <= 'z'
  }

  lemma ControlTypes(s: string)
    ensures IsCtrlType(s) <==> ControlShape(s)
  {
  }

  /** Whatever is read as a chunk has a main name, a number in range or a control type, and an id of
      the shape the writer uses. */
  lemma ParseRange(start: int, name: string)
    requires IsInt64(start)
    requires Parse(DEFAULT_FORMAT, start, name).Match?
    ensures var p := Parse(DEFAULT_FORMAT, start, name);
      && PlainName(p.main) && |p.main| < |name| && IsXact(p.xact)
      && (if p.ctrl == "" then IsNumber(start, p.no) else p.no == -1 && ControlShape(p.ctrl))
    ensures Search(DEFAULT_FORMAT, name, 0).Some?
    ensures Parse(DEFAULT_FORMAT, start, name).ctrl == "" ==> Search(DEFAULT_FORMAT, name, 0).value.1.digits != ""
  {
    hide IsCtrlType, ControlShape, OldXact;
    assert name[0..] == name;
    var (main, g) := Search(DEFAULT_FORMAT, name, 0).value;
    SearchShape(name, 0);
    assert main[0..] == main;
    var body := name[|main|..][|MARKER|..];
    if MatchDigits(DEFAULT_FORMAT, body, DigitRun(body)).Some? {
      MatchDigitsShape(body, DigitRun(body));
    } else {
      MatchCtrlShape(body, 7);
      ControlTypes(g.ctrl);
    }
    if g.tmp != "" {
      OldXactIsXact(g.tmp);
    }
  }

  /** Printing what was read and reading it again changes nothing: every data chunk name has one
      canonical spelling, and the spelling is read as the same chunk. */
  lemma ParseNormalises(start: int, name: string)
    requires IsInt64(start)
    requires Parse(DEFAULT_FORMAT, start, name).Match? && Parse(DEFAULT_FORMAT, start, name).ctrl == ""
    ensures var p := Parse(DEFAULT_FORMAT, start, name);
      Parse(DEFAULT_FORMAT, start, Make(DEFAULT_FORMAT, start, p.main, p.no, p.xact)) == p
  {
    var p := Parse(DEFAULT_FORMAT, start, name);
    ParseRange(start, name);
    RoundTrip(start, p.main, p.no, p.xact);
  }

  // ---- what does not read back ----

  lemma MarkerStart(t: string)
    ensures HasPrefix(t, MARKER) ==> |t| > 1 && t[0] == '.' && t[1] == 'r'
  {
    if HasPrefix(t, MARKER) {
      assert t[0] == t[..|MARKER|][0] && t[1] == t[..|MARKER|][1];
    }
  }

  /** The marker does not start again behind its own start. */
  lemma LateMarker(name: string, rest: string, p: nat)
    requires '.' !in rest && rest != "" && rest[0] != 'r'
    requires |name| < p <= |name + MARKER + rest|
    ensures !HasPrefix((name + MARKER + rest)[p..], MARKER)
  {
    var s := name + MARKER + rest;
    MarkerStart(s[p..]);
    assert forall i :: 0 < i < |MARKER| - 1 ==> MARKER[i] != '.';
    assert forall i :: |name| < i < |name| + |MARKER| ==> s[i] == MARKER[i - |name|];
    assert forall i :: |name| + |MARKER| <= i < |s| ==> s[i] == rest[i - |name| - |MARKER|];
  }

  /** At the true end of the name only a number or a control type can follow the marker. */
  lemma NoMatchHere(name: string, rest: string)
    requires rest != "" && !(IsDigit(rest[0]) || rest[0] == '_')
    ensures MatchTail(DEFAULT_FORMAT, (name + MARKER + rest)[|name|..]).None?
  {
    var t := (name + MARKER + rest)[|name|..];
    assert t == MARKER + rest && t[|MARKER|] == rest[0];
    if MatchTail(DEFAULT_FORMAT, t).Some? { TailShape(t); }
  }

  lemma NoLateMatch(name: string, rest: string, p: nat)
    requires '.' !in rest && rest != "" && rest[0] != 'r'
    requires |name| < p <= |name + MARKER + rest|
    ensures MatchTail(DEFAULT_FORMAT, (name + MARKER + rest)[p..]).None?
  {
    LateMarker(name, rest, p);
  }

  lemma UnreadTail(name: string, rest: string)
    requires '.' !in rest && rest != "" && rest[0] != 'r'
    requires name == "" || '\n' in name || !(IsDigit(rest[0]) || rest[0] == '_')
    ensures Search(DEFAULT_FORMAT, name + MARKER + rest, 0).None?
  {
    var s := name + MARKER + rest;
    assert s[..|name|] == name;
    if Search(DEFAULT_FORMAT, s, 0).Some? {
      SearchShape(s, 0);
      var main := Search(DEFAULT_FORMAT, s, 0).value.0;
      var p := |main|;
      assert main[0..] == main && main == s[..p];
      hide Search, MatchTail;
      if p < |name| {
        NoEarlierMatch(name, rest, p);
      } else if p > |name| {
        NoLateMatch(name, rest, p);
      } else if !(IsDigit(rest[0]) || rest[0] == '_') {
        NoMatchHere(name, rest);
      }
      assert false;
    }
  }

  lemma FormatHasNoDot(n: int)
    ensures '.' !in FormatInt(n, 3) && FormatInt(n, 3) != "" && FormatInt(n, 3)[0] != 'r'
    ensures n < 0 ==> FormatInt(n, 3)[0] == '-'
  {
    if n < 0 {
      PadLeftBase36(Print(10, -n), 2);
    }
  }

  lemma SuffixHasNoDot(x: string)
    requires IsXact(x)
    ensures '.' !in Suffix(x)
  {
    PadLeftBase36(x, 4);
  }

  /** A made name does not read as a chunk at all if its number, with the base, is out of range or its
      main name is empty or has several lines. */
  lemma UnspellableUnread(start: int, name: string, no: nat, x: string)
    requires IsInt64(start) && no <= MAX_INT64 && IsXact(x)
    requires !(PlainName(name) && IsNumber(start, no))
    ensures Parse(DEFAULT_FORMAT, start, Make(DEFAULT_FORMAT, start, name, no, x)) == NoMatch
  {
    var n := Wrap64(no + start);
    var rest := FormatInt(n, 3) + Suffix(x);
    DefaultMake(start, name, no, x);
    FormatHasNoDot(n);
    SuffixHasNoDot(x);
    OutOfRangeIsNegative(start, no);
    hide FormatInt, Suffix, Wrap64, Search;
    UnreadTail(name, rest);
    var s := Make(DEFAULT_FORMAT, start, name, no, x);
    assert s[0..] == s == name + MARKER + rest;
  }

  lemma OutOfRangeIsNegative(start: int, no: nat)
    requires IsInt64(start) && no <= MAX_INT64
    ensures IsNumber(start, no) <==> Wrap64(no + start) >= 0
  {
  }
}
