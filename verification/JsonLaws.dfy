/** Every JSON value, written with white space before every token, reads back. */
module JsonLaws {
  import opened Prelude
  import opened Numerals
  import opened Json
  import Matching = ChunkNameMatching
  import Names = ChunkNames

  // ---- what can be written ----

  predicate IsWhite(w: string) {
    forall i :: 0 <= i < |w| ==> w[i] in " \t\n\r"
  }

  /** Digits without a leading zero. */
  predicate IsWhole(ds: string) {
    ds != "" && AllDigits(ds) && (|ds| == 1 || ds[0] != '0')
  }

  predicate IsFraction(f: string) {
    f == "" || (|f| > 1 && f[0] == '.' && AllDigits(f[1..]))
  }

  predicate IsExponent(e: string) {
    e == "" || (|e| > 1 && e[0] in "eE" && AllDigits(e[1..])) || (|e| > 2 && e[0] in "eE" && e[1] in "+-" && AllDigits(e[2..]))
  }

  /** A numeral by its pieces (section 6 of RFC 8259). */
  predicate IsNumeral(t: string, neg: bool, ds: string, f: string, e: string) {
    t == (if neg then "-" else "") + ds + f + e && IsWhole(ds) && IsFraction(f) && IsExponent(e)
  }

  /** Strings are ASCII and numbers numerals, however deep. */
  ghost predicate Sayable(v: Json)
    decreases v
  {
    match v
    case Null => true
    case Bool(_) => true
    case Number(t) => exists neg, ds, f, e :: IsNumeral(t, neg, ds, f, e)
    case Text(s) => IsAscii(s)
    case Array(items) => forall i :: 0 <= i < |items| ==> Sayable(items[i])
    case Object(members) => forall i :: 0 <= i < |members| ==> IsAscii(members[i].key) && Sayable(members[i].value)
  }

  /** The text of a value with the same white space before every token but the first. */
  ghost function Bare(v: Json, w: string): string
    requires Sayable(v)
    decreases v, 0
  {
    match v
    case Null => "null"
    case Bool(b) => if b then "true" else "false"
    case Number(t) => t
    case Text(s) => Quote(s)
    case Array(items) => "[" + ((if items == [] then "" else SayItems(items, w)) + (w + ("]" + "")))
    case Object(members) => "{" + ((if members == [] then "" else SayMembers(members, w)) + (w + ("}" + "")))
  }

  ghost function Say(v: Json, w: string): string
    requires Sayable(v)
    decreases v, 1
  {
    w + Bare(v, w)
  }

  ghost function SayItems(items: seq<Json>, w: string): string
    requires items != [] && forall i :: 0 <= i < |items| ==> Sayable(items[i])
    decreases items
  {
    if |items| == 1 then Say(items[0], w) else Say(items[0], w) + (w + ("," + SayItems(items[1..], w)))
  }

  ghost function SayMember(m: Member, w: string): string
    requires IsAscii(m.key) && Sayable(m.value)
    decreases m
  {
    w + (Quote(m.key) + (w + (":" + Say(m.value, w))))
  }

  ghost function SayMembers(members: seq<Member>, w: string): string
    requires members != [] && forall i :: 0 <= i < |members| ==> IsAscii(members[i].key) && Sayable(members[i].value)
    decreases members
  {
    if |members| == 1 then SayMember(members[0], w) else SayMember(members[0], w) + (w + ("," + SayMembers(members[1..], w)))
  }

  // ---- tokens ----

  lemma {:induction false} SkipWhite(w: string, t: string)
    requires IsWhite(w) && (t == "" || t[0] !in " \t\n\r")
    ensures SkipSpace(w + t) == t
  {
    if w == "" {
      assert w + t == t;
    } else {
      assert (w + t)[1..] == w[1..] + t;
      SkipWhite(w[1..], t);
    }
  }

  /** A punctuation mark behind white space. */
  lemma ExpectMark(w: string, c: char, rest: string)
    requires IsWhite(w) && c !in " \t\n\r"
    ensures Expect(w + ([c] + rest), c) == Some(rest)
    ensures forall d :: d != c ==> Expect(w + ([c] + rest), d).None?
  {
    SkipWhite(w, [c] + rest);
    assert ([c] + rest)[1..] == rest;
    hide SkipSpace;
  }

  /** What may follow a value. */
  predicate Ends(rest: string) {
    rest == "" || rest[0] in ",]} \t\n\r"
  }

  lemma MarkEnds(w: string, c: char, rest: string)
    requires IsWhite(w) && c in ",]}"
    ensures Ends(w + ([c] + rest))
  {
    if w != "" { assert (w + ([c] + rest))[0] == w[0]; }
  }

  // ---- numbers ----

  lemma DigitRunEnds(ds: string, rest: string)
    requires AllDigits(ds) && (rest == "" || !IsDigit(rest[0]))
    ensures Names.DigitRun(ds + rest) == |ds|
  {
    Matching.DigitRunOf(ds, rest);
  }

  lemma ExponentOf(e: string, rest: string)
    requires IsExponent(e) && Ends(rest)
    ensures ExponentLength(e + rest) == Some(|e|)
  {
    var s := e + rest;
    if e == "" {
      assert s == rest;
    } else {
      var from := if |e| > 1 && e[1] in "+-" then 2 else 1;
      assert s[from..] == e[from..] + rest && s[0] == e[0] && s[1] == e[1];
      DigitRunEnds(e[from..], rest);
    }
    hide Names.DigitRun;
  }

  lemma FractionOf(f: string, rest: string)
    requires IsFraction(f) && (rest == "" || (!IsDigit(rest[0]) && rest[0] != '.'))
    ensures FractionLength(f + rest) == Some(|f|)
  {
    var s := f + rest;
    if f == "" {
      assert s == rest;
    } else {
      assert s[1..] == f[1..] + rest;
      DigitRunEnds(f[1..], rest);
    }
    hide Names.DigitRun;
  }

  lemma TailStarts(f: string, e: string, rest: string)
    requires IsFraction(f) && IsExponent(e) && Ends(rest)
    ensures e + rest == "" || (!IsDigit((e + rest)[0]) && (e + rest)[0] != '.')
    ensures f + (e + rest) == "" || !IsDigit((f + (e + rest))[0])
  {
    if e != "" { assert (e + rest)[0] == e[0]; } else { assert e + rest == rest; }
    if f != "" { assert (f + (e + rest))[0] == f[0]; } else { assert f + (e + rest) == e + rest; }
  }

  /** Cutting off one piece after another. */
  lemma CutPieces(s: string, sign: nat, ds: string, f: string, e: string, rest: string)
    requires sign <= |s| && s[sign..] == ds + (f + (e + rest))
    ensures var end := sign + |ds|;
      && end + |f| + |e| + |rest| == |s|
      && s[end..] == f + (e + rest) && s[end + |f|..] == e + rest && s[end + |f| + |e|..] == rest
    ensures ds != "" ==> s[sign] == ds[0]
  {
    var end := sign + |ds|;
    assert s[end..] == s[sign..][|ds|..];
    assert s[end + |f|..] == s[end..][|f|..];
    assert s[end + |f| + |e|..] == s[end + |f|..][|e|..];
  }

  lemma ReadPieces(s: string, sign: nat, ds: string, f: string, e: string, rest: string)
    requires IsWhole(ds) && IsFraction(f) && IsExponent(e) && Ends(rest)
    requires sign <= |s| && s[sign..] == ds + (f + (e + rest)) && sign == (if s != "" && s[0] == '-' then 1 else 0)
    ensures var n := sign + |ds| + |f| + |e|; n <= |s| && ReadNumber(s) == Some((Number(s[..n]), rest))
  {
    hide Names.DigitRun, FractionLength, ExponentLength, IsFraction, IsExponent, Ends;
    CutPieces(s, sign, ds, f, e, rest);
    TailStarts(f, e, rest);
    DigitRunEnds(ds, f + (e + rest));
    FractionOf(f, e + rest);
    ExponentOf(e, rest);
    var tail := s[sign..];
    var at := s[sign + |ds|..];
    var last := s[sign + |ds| + |f|..];
    hide IsWhole;
    assert Names.DigitRun(tail) == |ds| && FractionLength(at) == Some(|f|) && ExponentLength(last) == Some(|e|);
  }

  lemma ReadNumeral(t: string, neg: bool, ds: string, f: string, e: string, rest: string)
    requires IsNumeral(t, neg, ds, f, e) && Ends(rest)
    ensures ReadNumber(t + rest) == Some((Number(t), rest))
    ensures t != "" && (IsDigit(t[0]) || t[0] == '-')
  {
    hide ReadNumber, IsFraction, IsExponent, Ends;
    var s, sign := t + rest, if neg then 1 else 0;
    if neg {
      assert t == "-" + (ds + f + e) && s == "-" + (ds + (f + (e + rest)));
    } else {
      assert t == ds + f + e && s == ds + (f + (e + rest));
      assert s[0..] == s && s[0] == ds[0];
    }
    ReadPieces(s, sign, ds, f, e, rest);
    assert s[..|t|] == t;
  }

  // ---- values ----

  lemma ReadWhite(w: string, t: string)
    requires IsWhite(w) && t != "" && t[0] !in " \t\n\r"
    ensures ReadValue(w + t) == ReadValue(t)
  {
    SkipWhite(w, t);
    SkipWhite("", t);
    assert "" + t == t;
    hide SkipSpace, ReadText, ReadItems, ReadMembers, ReadNumber, Expect, ReadWord;
  }

  lemma ReadWordOf(word: string, v: Json, rest: string)
    requires (word, v) in [("null", Null), ("true", Bool(true)), ("false", Bool(false))]
    ensures ReadValue(word + rest) == Some((v, rest))
  {
    assert (word + rest)[..|word|] == word && (word + rest)[|word|..] == rest;
    hide ReadText, ReadItems, ReadMembers, ReadNumber, Expect;
  }

  lemma ReadQuoted(s: string, rest: string)
    requires IsAscii(s)
    ensures ReadValue(Quote(s) + rest) == Some((Text(s), rest))
  {
    QuoteOnto(s, rest);
    ReadTextOf(s, rest);
    var t := Quote(s) + rest;
    assert t[1..] == EscapeAll(s) + ("\"" + rest) && t[0] == '"';
    hide ReadText, ReadItems, ReadMembers, ReadNumber, Expect, EscapeAll, Quote;
  }

  lemma ReadDigit(t: string)
    requires t != "" && (IsDigit(t[0]) || t[0] == '-')
    ensures ReadValue(t) == ReadNumber(t)
  {
    hide ReadNumber, ReadText, ReadItems, ReadMembers, Expect;
    assert SkipSpace(t) == t;
  }

  lemma ReadBracket(inner: string, rest: string)
    ensures Expect(inner, ']') == Some(rest) ==> ReadValue("[" + inner) == Some((Array([]), rest))
    ensures Expect(inner, ']').None? && ReadItems(inner).Some? ==>
      ReadValue("[" + inner) == Some((Array(ReadItems(inner).value.0), ReadItems(inner).value.1))
  {
    assert ("[" + inner)[1..] == inner;
    hide ReadNumber, ReadText, ReadItems, ReadMembers, Expect;
  }

  lemma ReadBrace(inner: string, rest: string)
    ensures Expect(inner, '}') == Some(rest) ==> ReadValue("{" + inner) == Some((Object([]), rest))
    ensures Expect(inner, '}').None? && ReadMembers(inner).Some? ==>
      ReadValue("{" + inner) == Some((Object(ReadMembers(inner).value.0), ReadMembers(inner).value.1))
  {
    assert ("{" + inner)[1..] == inner;
    hide ReadNumber, ReadText, ReadItems, ReadMembers, Expect;
  }

  // ---- reading back ----

  /** A value starts with a character that is neither white nor a mark that could end or separate values. */
  lemma BareStarts(v: Json, w: string)
    requires Sayable(v)
    ensures Bare(v, w) != "" && Bare(v, w)[0] !in " \t\n\r,]}"
  {
    hide SayItems, SayMembers, EscapeAll;
    if v.Number? {
      var neg, ds, f, e :| IsNumeral(v.text, neg, ds, f, e);
      assert v.text[0] == if neg then '-' else ds[0];
    }
  }

  /** So a list of them is not empty. */
  lemma NotEmpty(w: string, t: string, rest: string)
    requires IsWhite(w) && t != "" && t[0] !in " \t\n\r,]}"
    ensures Expect(w + t + rest, ']').None? && Expect(w + t + rest, '}').None?
  {
    assert w + t + rest == w + ([t[0]] + (t[1..] + rest));
    ExpectMark(w, t[0], t[1..] + rest);
  }

  /** A written value reads back, and reading stops right behind it. */
  lemma {:induction false} ReadSay(v: Json, w: string, rest: string)
    requires Sayable(v) && IsWhite(w) && Ends(rest)
    ensures ReadValue(Say(v, w) + rest) == Some((v, rest))
    decreases v, 2
  {
    BareStarts(v, w);
    var b := Bare(v, w);
    assert Say(v, w) + rest == w + (b + rest);
    ReadWhite(w, b + rest);
    ReadBare(v, w, rest);
  }

  lemma {:induction false} ReadBare(v: Json, w: string, rest: string)
    requires Sayable(v) && IsWhite(w) && Ends(rest)
    ensures ReadValue(Bare(v, w) + rest) == Some((v, rest))
    decreases v, 1
  {
    match v
    case Null => ReadWordOf("null", Null, rest);
    case Bool(b) => ReadWordOf(if b then "true" else "false", Bool(b), rest);
    case Number(t) =>
      var neg, ds, f, e :| IsNumeral(t, neg, ds, f, e);
      ReadNumeral(t, neg, ds, f, e, rest);
      ReadDigit(t + rest);
    case Text(s) => ReadQuoted(s, rest);
    case Array(items) => ReadArray(items, w, rest);
    case Object(members) => ReadObject(members, w, rest);
  }

  lemma {:induction false} ReadArray(items: seq<Json>, w: string, rest: string)
    requires Sayable(Array(items)) && IsWhite(w)
    ensures ReadValue(Bare(Array(items), w) + rest) == Some((Array(items), rest))
    decreases items, 1
  {
    hide ReadValue, ReadItems, Expect, Bare;
    if items == [] {
      var inner := w + ("]" + rest);
      BareArray(items, w, inner, rest);
      ExpectMark(w, ']', rest);
      ReadBracket(inner, rest);
    } else {
      var inner := SayItems(items, w) + (w + ("]" + rest));
      BareArray(items, w, inner, rest);
      ReadSayItems(items, w, rest);
      ItemsStart(items, w, w + ("]" + rest));
      ReadBracket(inner, rest);
    }
  }

  lemma BareArray(items: seq<Json>, w: string, inner: string, rest: string)
    requires Sayable(Array(items))
    requires inner == (if items == [] then "" else SayItems(items, w)) + (w + ("]" + rest))
    ensures Bare(Array(items), w) + rest == "[" + inner
  {
    hide SayItems;
  }

  lemma ItemsStart(items: seq<Json>, w: string, rest: string)
    requires items != [] && (forall i :: 0 <= i < |items| ==> Sayable(items[i])) && IsWhite(w)
    ensures Expect(SayItems(items, w) + rest, ']').None?
  {
    var b := Bare(items[0], w);
    BareStarts(items[0], w);
    hide Expect, Bare;
    var more := if |items| == 1 then rest else w + ("," + SayItems(items[1..], w)) + rest;
    assert SayItems(items, w) + rest == w + b + more;
    NotEmpty(w, b, more);
  }

  lemma {:induction false} ReadSayItems(items: seq<Json>, w: string, rest: string)
    requires items != [] && (forall i :: 0 <= i < |items| ==> Sayable(items[i])) && IsWhite(w)
    ensures ReadItems(SayItems(items, w) + (w + ("]" + rest))) == Some((items, rest))
    decreases items, 0
  {
    hide ReadValue, Expect, Say, IsWhite;
    if |items| == 1 {
      var tail := w + ("]" + rest);
      MarkEnds(w, ']', rest);
      ReadSay(items[0], w, tail);
      ExpectMark(w, ']', rest);
      assert [items[0]] == items;
    } else {
      var after := SayItems(items[1..], w) + (w + ("]" + rest));
      var tail := w + ("," + after);
      assert SayItems(items, w) + (w + ("]" + rest)) == Say(items[0], w) + tail;
      MarkEnds(w, ',', after);
      ReadSay(items[0], w, tail);
      ExpectMark(w, ',', after);
      ReadSayItems(items[1..], w, rest);
      assert [items[0]] + items[1..] == items;
    }
  }

  lemma {:induction false} ReadObject(members: seq<Member>, w: string, rest: string)
    requires Sayable(Object(members)) && IsWhite(w)
    ensures ReadValue(Bare(Object(members), w) + rest) == Some((Object(members), rest))
    decreases members, 2
  {
    hide ReadValue, ReadMembers, Expect, Bare;
    if members == [] {
      var inner := w + ("}" + rest);
      BareObject(members, w, inner, rest);
      ExpectMark(w, '}', rest);
      ReadBrace(inner, rest);
    } else {
      var inner := SayMembers(members, w) + (w + ("}" + rest));
      BareObject(members, w, inner, rest);
      ReadSayMembers(members, w, rest);
      MembersStart(members, w, w + ("}" + rest));
      ReadBrace(inner, rest);
    }
  }

  lemma BareObject(members: seq<Member>, w: string, inner: string, rest: string)
    requires Sayable(Object(members))
    requires inner == (if members == [] then "" else SayMembers(members, w)) + (w + ("}" + rest))
    ensures Bare(Object(members), w) + rest == "{" + inner
  {
    hide SayMembers;
  }

  lemma Regroup(w: string, q: string, v: string, u: string, rest: string)
    ensures w + (q + v) + u + rest == w + q + (v + u + rest)
  {
  }

  lemma MembersStart(members: seq<Member>, w: string, rest: string)
    requires members != [] && IsWhite(w)
    requires forall i :: 0 <= i < |members| ==> IsAscii(members[i].key) && Sayable(members[i].value)
    ensures Expect(SayMembers(members, w) + rest, '}').None?
  {
    hide Expect, Say, EscapeAll;
    var q := Quote(members[0].key);
    assert q[0] == '"';
    hide Quote;
    var v := w + (":" + Say(members[0].value, w));
    var u := if |members| == 1 then "" else w + ("," + SayMembers(members[1..], w));
    assert SayMembers(members, w) == w + (q + v) + u;
    hide SayMembers, SayMember;
    Regroup(w, q, v, u, rest);
    NotEmpty(w, q, v + u + rest);
  }

  lemma {:induction false} ReadSayMember(m: Member, w: string, rest: string)
    requires IsAscii(m.key) && Sayable(m.value) && IsWhite(w) && Ends(rest)
    ensures ReadMember(SayMember(m, w) + rest) == Some((m, rest))
    decreases m
  {
    hide ReadValue, Expect, Say, EscapeAll, ReadText, IsWhite;
    var u := Say(m.value, w) + rest;
    var t := w + (":" + u);
    QuoteOnto(m.key, t);
    assert SayMember(m, w) + rest == w + (Quote(m.key) + t) == w + ("\"" + (EscapeAll(m.key) + ("\"" + t)));
    hide Quote, SayMember;
    ExpectMark(w, '"', EscapeAll(m.key) + ("\"" + t));
    ReadTextOf(m.key, t);
    ExpectMark(w, ':', u);
    ReadSay(m.value, w, rest);
  }

  lemma {:induction false} ReadSayMembers(members: seq<Member>, w: string, rest: string)
    requires members != [] && IsWhite(w)
    requires forall i :: 0 <= i < |members| ==> IsAscii(members[i].key) && Sayable(members[i].value)
    ensures ReadMembers(SayMembers(members, w) + (w + ("}" + rest))) == Some((members, rest))
    decreases members, 1
  {
    hide ReadMember, Expect, SayMember, IsWhite;
    if |members| == 1 {
      MarkEnds(w, '}', rest);
      ReadSayMember(members[0], w, w + ("}" + rest));
      ExpectMark(w, '}', rest);
      assert [members[0]] == members;
    } else {
      var after := SayMembers(members[1..], w) + (w + ("}" + rest));
      assert SayMembers(members, w) + (w + ("}" + rest)) == SayMember(members[0], w) + (w + ("," + after));
      MarkEnds(w, ',', after);
      ReadSayMember(members[0], w, w + ("," + after));
      ExpectMark(w, ',', after);
      ReadSayMembers(members[1..], w, rest);
      assert [members[0]] + members[1..] == members;
    }
  }

  /** A document: any value, with any white space between its tokens and around it. */
  lemma ReadOfSay(v: Json, w: string, end: string)
    requires Sayable(v) && IsWhite(w) && IsWhite(end)
    ensures Read(Say(v, w) + end) == Some(v)
  {
    ReadSay(v, w, end);
    SkipWhite(end, "");
    assert end + "" == end;
    hide ReadValue, Say;
  }

  // ---- flat objects ----

  lemma IntIsNumeral(n: int)
    ensures IsNumeral(FormatInt(n, 0), n < 0, Print(10, if n < 0 then -n else n), "", "")
  {
    var ds := Print(10, if n < 0 then -n else n);
    assert n == 0 ==> |ds| == 1;
    hide Print;
    assert PadLeft(ds, 0) == ds && "" + ds == ds && ds + "" == ds && ("-" + ds) + "" == "-" + ds;
  }

  lemma Nothing(t: string)
    ensures "" + t == t && t + "" == t
  {
  }

  lemma FlatIsSayable(v: Json)
    requires IsFlat(v)
    ensures Sayable(v) && Say(v, "") == WriteValue(v)
  {
    if v.Number? {
      IntIsNumeral(ParseInt(v.text).value);
      Nothing(v.text);
    } else {
      Nothing(Quote(v.s));
    }
    hide ParseInt, FormatInt, Quote, IsNumeral;
  }

  lemma FlatMemberIsSayable(m: Member)
    requires IsFlatMember(m)
    ensures IsAscii(m.key) && Sayable(m.value) && SayMember(m, "") == WriteMember(m)
  {
    FlatIsSayable(m.value);
    hide Say, Sayable, IsFlat, WriteValue, Quote;
    Nothing(":" + WriteValue(m.value));
    Nothing(Quote(m.key) + (":" + WriteValue(m.value)));
  }

  lemma {:induction false} FlatMembersAreSayable(ms: seq<Member>)
    requires ms != [] && AllFlat(ms)
    ensures forall i :: 0 <= i < |ms| ==> IsAscii(ms[i].key) && Sayable(ms[i].value)
    ensures SayMembers(ms, "") == WriteMembers(ms)
  {
    hide Sayable, SayMember, WriteMember, IsFlatMember, IsAscii;
    forall i | 0 <= i < |ms|
      ensures IsAscii(ms[i].key) && Sayable(ms[i].value)
    {
      FlatMemberIsSayable(ms[i]);
    }
    FlatMemberIsSayable(ms[0]);
    if |ms| > 1 {
      FlatMembersAreSayable(ms[1..]);
      Nothing("," + WriteMembers(ms[1..]));
    }
  }

  /** Reading a written flat object gives back its members, in order. */
  lemma ReadOfWrite(ms: seq<Member>)
    requires |ms| > 0 && AllFlat(ms)
    ensures Read(WriteObject(ms)) == Some(Object(ms))
  {
    hide SayMembers, WriteMembers, Read, IsFlatMember, IsAscii;
    FlatMembersAreSayable(ms);
    ReadOfSay(Object(ms), "", "");
    ObjectSaid(ms);
  }

  lemma ObjectSaid(ms: seq<Member>)
    requires |ms| > 0 && AllFlat(ms) && (forall i :: 0 <= i < |ms| ==> IsAscii(ms[i].key) && Sayable(ms[i].value))
    requires SayMembers(ms, "") == WriteMembers(ms)
    ensures Sayable(Object(ms)) && Say(Object(ms), "") + "" == WriteObject(ms)
  {
    hide SayMembers, WriteMembers, IsFlatMember, IsAscii, IsNumeral;
    assert Sayable(Object(ms));
    hide Sayable;
    assert Bare(Object(ms), "") == "{" + (SayMembers(ms, "") + ("" + ("}" + "")));
    assert Say(Object(ms), "") == "" + Bare(Object(ms), "");
    hide Bare, Say;
    Nothing("}");
    Nothing("{" + (WriteMembers(ms) + "}"));
  }
}
