/** How the default name pattern matches: what each piece of the expression can and must consume. */
module ChunkNameMatching {
  import opened Prelude
  import opened Numerals
  import opened ChunkNames

  predicate NoDotR(t: string) {
    forall i :: 0 <= i < |t| - 1 ==> !(t[i] == '.' && t[i + 1] == 'r')
  }

  lemma SuffixHasNoDotR(t: string)
    requires MatchSuffix(t).Some?
    ensures NoDotR(t)
  {
    if HasPrefix(t, TMP) {
      assert forall i :: 0 <= i < |TMP| ==> t[i] == t[..|TMP|][i];
      assert forall i :: |TMP| <= i < |t| ==> t[i] == t[|TMP|..][i - |TMP|];
    } else if t != "" {
      assert forall i :: 1 <= i < |t| ==> t[i] == t[1..][i - 1];
    }
  }

  lemma {:induction false} DigitsHaveNoDotR(t: string, k: nat)
    requires k <= |t| && AllDigits(t[..k])
    requires MatchDigits(DEFAULT_FORMAT, t, k).Some?
    ensures NoDotR(t)
  {
    if MatchRest(DEFAULT_FORMAT, t[k..]).Some? {
      assert t[k..][0..] == t[k..];
      SuffixHasNoDotR(t[k..]);
      forall i | 0 <= i < |t| - 1
        ensures !(t[i] == '.' && t[i + 1] == 'r')
      {
        if i >= k { assert t[k..][i - k] == t[i] && t[k..][i + 1 - k] == t[i + 1]; } else { assert t[..k][i] == t[i]; }
      }
    } else {
      assert forall i :: 0 <= i < k - 1 ==> t[..k - 1][i] == t[..k][i];
      DigitsHaveNoDotR(t, k - 1);
    }
  }

  lemma {:induction false} CtrlHasNoDotR(t: string, k: nat)
    requires MatchCtrl(DEFAULT_FORMAT, t, k).Some?
    ensures NoDotR(t)
  {
    if 1 + k <= |t| && t[0] == '_' && IsCtrlType(t[1..1 + k]) && MatchRest(DEFAULT_FORMAT, t[1 + k..]).Some? {
      assert t[1 + k..][0..] == t[1 + k..];
      SuffixHasNoDotR(t[1 + k..]);
      forall i | 0 <= i < |t| - 1
        ensures !(t[i] == '.' && t[i + 1] == 'r')
      {
        if i > k { assert t[1 + k..][i - k - 1] == t[i] && t[1 + k..][i - k] == t[i + 1]; }
        else if i > 0 { assert t[1..1 + k][i - 1] == t[i]; }
      }
    } else {
      CtrlHasNoDotR(t, k - 1);
    }
  }

  /** What follows the marker in a match never holds ".r", and starts with a digit or an underscore. */
  lemma TailShape(t: string)
    requires MatchTail(DEFAULT_FORMAT, t).Some?
    ensures HasPrefix(t, MARKER) && NoDotR(t[|MARKER|..])
    ensures |t| > |MARKER| && (IsDigit(t[|MARKER|]) || t[|MARKER|] == '_')
    ensures MatchTail(DEFAULT_FORMAT, t).value.digits != "" ==> IsDigit(t[|MARKER|])
  {
    var body := t[|MARKER|..];
    if MatchDigits(DEFAULT_FORMAT, body, DigitRun(body)).Some? {
      DigitsHaveNoDotR(body, DigitRun(body));
      assert DigitRun(body) >= 3;
      assert body[..DigitRun(body)][0] == body[0] == t[|MARKER|];
    } else {
      CtrlHasNoDotR(body, 7);
      CtrlStart(body, 7);
      assert body[0] == t[|MARKER|];
    }
  }

  lemma {:induction false} CtrlStart(t: string, k: nat)
    requires MatchCtrl(DEFAULT_FORMAT, t, k).Some?
    ensures |t| > 0 && t[0] == '_' && MatchCtrl(DEFAULT_FORMAT, t, k).value.digits == ""
  {
    if !(1 + k <= |t| && t[0] == '_' && IsCtrlType(t[1..1 + k]) && MatchRest(DEFAULT_FORMAT, t[1 + k..]).Some?) {
      CtrlStart(t, k - 1);
    }
  }

  /** Two occurrences of the marker overlap in at most one character. */
  lemma MarkerOverlap(t: string, d: nat)
    requires HasPrefix(t, MARKER) && 0 < d && d + 1 < |t| && t[d] == '.'
    ensures d >= |MARKER| - 1
  {
    assert d < |MARKER| ==> t[d] == t[..|MARKER|][d] == MARKER[d];
    assert forall i :: 0 < i < |MARKER| - 1 ==> MARKER[i] != '.';
  }

  /** No shorter name group can match when the marker really starts at |name|. */
  lemma NoEarlierMatch(name: string, rest: string, p: nat)
    requires p < |name|
    ensures MatchTail(DEFAULT_FORMAT, (name + MARKER + rest)[p..]).None?
  {
    var s := name + MARKER + rest;
    var t := s[p..];
    var d := |name| - p;
    assert t[d] == s[|name|] == MARKER[0] == '.';
    assert t[d + 1] == s[|name| + 1] == MARKER[1] == 'r';
    var body := t[|MARKER|..];
    assert d >= |MARKER| ==> body[d - |MARKER|] == '.' && body[d - |MARKER| + 1] == 'r';
    if MatchTail(DEFAULT_FORMAT, t).Some? {
      MarkerOverlap(t, d);
      TailShape(t);
    }
  }

  /** The search finds exactly the true name. */
  lemma {:induction false} SearchFindsName(name: string, rest: string, p: nat)
    requires PlainName(name) && p <= |name|
    requires MatchTail(DEFAULT_FORMAT, MARKER + rest).Some?
    ensures Search(DEFAULT_FORMAT, name + MARKER + rest, p)
         == Some((name, MatchTail(DEFAULT_FORMAT, MARKER + rest).value))
    decreases |name| - p
  {
    var s := name + MARKER + rest;
    assert p > 0 ==> s[p - 1] == name[p - 1];
    if p == |name| {
      assert s[p..] == MARKER + rest;
      assert s[..p] == name;
    } else {
      NoEarlierMatch(name, rest, p);
      SearchFindsName(name, rest, p + 1);
    }
  }

  lemma {:induction false} DigitRunOf(ds: string, rest: string)
    requires AllDigits(ds) && (rest == "" || !IsDigit(rest[0]))
    ensures DigitRun(ds + rest) == |ds|
  {
    var t := ds + rest;
    if ds != "" {
      assert t[1..] == ds[1..] + rest;
      DigitRunOf(ds[1..], rest);
    }
  }

  lemma MatchSuffixOf(xact: string)
    requires AllBase36(xact) && |xact| <= 9
    ensures xact == "" ==> MatchSuffix(Suffix(xact)) == Some(Groups("", "", "", ""))
    ensures xact != "" ==> MatchSuffix(Suffix(xact)) == Some(Groups("", "", PadLeft(xact, 4), ""))
    ensures Suffix(xact) == "" || !IsDigit(Suffix(xact)[0])
  {
    PadLeftBase36(xact, 4);
    assert Suffix(xact) != "" ==> Suffix(xact)[1..] == PadLeft(xact, 4);
  }

  lemma MatchTailOfDigits(ds: string, xact: string)
    requires AllDigits(ds) && |ds| >= 3 && AllBase36(xact) && |xact| <= 9
    ensures MatchTail(DEFAULT_FORMAT, MARKER + (ds + Suffix(xact))) == Some(Groups(ds, "", if xact == "" then "" else PadLeft(xact, 4), ""))
  {
    var suf := Suffix(xact);
    MatchSuffixOf(xact);
    DigitRunOf(ds, suf);
    assert (MARKER + (ds + suf))[|MARKER|..] == ds + suf;
    assert (ds + suf)[|ds|..] == suf && (ds + suf)[..|ds|] == ds;
    assert suf[0..] == suf;
  }

  lemma MatchTailOf(n: nat, w: nat, xact: string)
    requires w >= 3 && AllBase36(xact) && |xact| <= 9
    ensures var x := if xact == "" then "" else PadLeft(xact, 4);
      MatchTail(DEFAULT_FORMAT, MARKER + (FormatInt(n, w) + Suffix(xact)))
      == Some(Groups(FormatInt(n, w), "", x, ""))
  {
    MatchTailOfDigits(FormatInt(n, w), xact);
  }

  lemma ParseOfSearch(start: int, s: string)
    requires Search(DEFAULT_FORMAT, s, 0).Some?
    ensures var (main, g) := Search(DEFAULT_FORMAT, s, 0).value;
      Parse(DEFAULT_FORMAT, start, s) == Interpret(start, main, g)
  {
    assert s[0..] == s;
  }

  /** A name read as a data chunk spells its number with digits right behind the marker. */
  lemma {:induction false} SearchShape(s: string, p: nat)
    requires Search(DEFAULT_FORMAT, s, p).Some?
    ensures var (main, g) := Search(DEFAULT_FORMAT, s, p).value;
      && 0 < |main| && p <= |main| && main <= s && '\n' !in main[p..]
      && MatchTail(DEFAULT_FORMAT, s[|main|..]) == Some(g)
    decreases |s| - p
  {
    hide MatchTail;
    if !(p > 0 && MatchTail(DEFAULT_FORMAT, s[p..]).Some?) {
      SearchShape(s, p + 1);
      var main := Search(DEFAULT_FORMAT, s, p).value.0;
      assert main[p] == s[p];
      assert main[p..] == [main[p]] + main[p + 1..];
    }
  }

  lemma {:induction false} MatchDigitsShape(t: string, k: nat)
    requires k <= |t| && AllDigits(t[..k])
    requires MatchDigits(DEFAULT_FORMAT, t, k).Some?
    ensures var g := MatchDigits(DEFAULT_FORMAT, t, k).value;
      g.digits != "" && AllDigits(g.digits) && g.ctrl == "" && SuffixGroups(g)
  {
    if MatchRest(DEFAULT_FORMAT, t[k..]).None? {
      assert forall i :: 0 <= i < k - 1 ==> t[..k - 1][i] == t[..k][i];
      MatchDigitsShape(t, k - 1);
    }
  }

  lemma {:induction false} MatchCtrlShape(t: string, k: nat)
    requires k <= 7 && MatchCtrl(DEFAULT_FORMAT, t, k).Some?
    ensures var g := MatchCtrl(DEFAULT_FORMAT, t, k).value; g.digits == "" && IsCtrlType(g.ctrl) && SuffixGroups(g)
  {
    if !(1 + k <= |t| && t[0] == '_' && IsCtrlType(t[1..1 + k]) && MatchRest(DEFAULT_FORMAT, t[1 + k..]).Some?) {
      MatchCtrlShape(t, k - 1);
    }
  }

  predicate SuffixGroups(g: Groups) {
    && (g.xact == "" || (4 <= |g.xact| <= 9 && AllBase36(g.xact)))
    && (g.tmp == "" || (10 <= |g.tmp| <= 13 && AllDigits(g.tmp)))
  }
}
