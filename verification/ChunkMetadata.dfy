/** The metadata file: what marshalMetadata writes and what unmarshalMetadata accepts. */
module ChunkMetadata {
  import opened Prelude
  import opened Numerals
  import opened ChunkView
  import opened Json
  import JsonLaws

  const VERSION := 2

  // ---- writing ----

  function VersionOf(xact: string): int {
    if xact == "" then 1 else VERSION
  }

  function IntMember(key: string, n: int): Member {
    Member(key, Number(FormatInt(n, 0)))
  }

  /** omitempty */
  function TextMember(key: string, s: string): seq<Member> {
    if s == "" then [] else [Member(key, Text(s))]
  }

  function Numbers(size: int, nChunks: int, xact: string): seq<Member> {
    [IntMember("ver", VersionOf(xact)), IntMember("size", size), IntMember("nchunks", nChunks)]
  }

  function Texts(md5: string, sha1: string, xact: string): seq<Member> {
    TextMember("md5", md5) + TextMember("sha1", sha1) + TextMember("txn", xact)
  }

  lemma IntFlat(key: string, n: int)
    requires IsInt64(n) && IsAscii(key)
    ensures IsFlatMember(IntMember(key, n))
  {
    ParseIntOfPrinted(n);
  }

  lemma KeysPlain()
    ensures AllBase36("ver") && AllBase36("size") && AllBase36("nchunks")
    ensures IsAscii("ver") && IsAscii("size") && IsAscii("nchunks")
  {
  }

  lemma NumbersFlat(size: int, nChunks: int, xact: string)
    requires IsInt64(size) && IsInt64(nChunks)
    ensures AllFlat(Numbers(size, nChunks, xact))
  {
    KeysPlain();
    hide IsFlatMember, IntMember, IsAscii;
    IntFlat("ver", VersionOf(xact));
    IntFlat("size", size);
    IntFlat("nchunks", nChunks);
  }

  lemma TextsFlat(md5: string, sha1: string, xact: string)
    requires IsAscii(md5) && IsAscii(sha1) && IsAscii(xact)
    ensures AllFlat(Texts(md5, sha1, xact))
  {
    TextFlat("md5", md5);
    TextFlat("sha1", sha1);
    TextFlat("txn", xact);
    hide IsFlatMember, TextMember;
  }

  lemma TextFlat(key: string, s: string)
    requires IsAscii(key) && IsAscii(s)
    ensures AllFlat(TextMember(key, s))
  {
  }

  function Members(size: int, nChunks: int, md5: string, sha1: string, xact: string): (ms: seq<Member>)
    requires IsInt64(size) && IsInt64(nChunks)
    requires IsAscii(md5) && IsAscii(sha1) && IsAscii(xact)
    ensures |ms| > 0 && AllFlat(ms)
  {
    NumbersFlat(size, nChunks, xact);
    TextsFlat(md5, sha1, xact);
    hide IsFlatMember, Numbers, Texts;
    Numbers(size, nChunks, xact) + Texts(md5, sha1, xact)
  }

  function Marshal(size: int, nChunks: int, md5: string, sha1: string, xact: string): (r: Result<Bytes>)
    requires IsInt64(size) && IsInt64(nChunks)
    requires IsAscii(md5) && IsAscii(sha1) && IsAscii(xact)
    ensures r.Ok? ==> |r.value| < MAX_META_WRITE
    ensures r.Err? ==> |WriteObject(Members(size, nChunks, md5, sha1, xact))| >= MAX_META_WRITE
  {
    var data := WriteObject(Members(size, nChunks, md5, sha1, xact));
    if |data| >= MAX_META_WRITE then Err("metadata can't be this big") else Ok(data)
  }

  // ---- reading ----

  /** metadataJSON: pointers for the numbers, strings for the rest. */
  datatype Fields = Fields(ver: Option<int>, size: Option<int>, nChunks: Option<int>, md5: string, sha1: string, xact: string)

  const EMPTY := Fields(None, None, None, "", "", "")

  function Lower(c: char): char {
    if 'A' <= c <= 'Z' then c + 32 as char else c
  }

  /** Keys match without regard to (ASCII) case. */
  function Fold(s: string): string {
    seq(|s|, i requires 0 <= i < |s| => Lower(s[i]))
  }

  /** Two keys that differ only in the case of their letters are the same. */
  lemma AnyCase(a: string, b: string)
    requires |a| == |b|
    requires forall i :: 0 <= i < |a| ==>
      a[i] == b[i] || ('a' <= a[i] <= 'z' && b[i] as int == a[i] as int - 32) || ('a' <= b[i] <= 'z' && a[i] as int == b[i] as int - 32)
    ensures Fold(a) == Fold(b)
  {
  }

  /** A value stored into a *int64: null resets it, anything but a 64-bit integer is an error. */
  function IntField(v: Json): Option<Option<int>> {
    if v.Null? then Some(None)
    else if v.Number? && ParseInt(v.text).Some? then Some(ParseInt(v.text))
    else None
  }

  /** A value stored into a string: null leaves it alone. */
  function TextField(v: Json, current: string): Option<string> {
    if v.Null? then Some(current) else if v.Text? then Some(v.s) else None
  }

  function Store(f: Fields, m: Member): Option<Fields> {
    var key := Fold(m.key);
    if key in ["ver", "size", "nchunks"] then
      match IntField(m.value)
      case None => None
      case Some(n) =>
        if key == "ver" then Some(f.(ver := n)) else if key == "size" then Some(f.(size := n)) else Some(f.(nChunks := n))
    else if key == "md5" then MapText(TextField(m.value, f.md5), s => f.(md5 := s))
    else if key == "sha1" then MapText(TextField(m.value, f.sha1), s => f.(sha1 := s))
    else if key == "txn" then MapText(TextField(m.value, f.xact), s => f.(xact := s))
    else Some(f)
  }

  function MapText(o: Option<string>, store: string -> Fields): Option<Fields> {
    if o.Some? then Some(store(o.value)) else None
  }

  /** Members in order; a repeated key overwrites. */
  function StoreAll(f: Fields, ms: seq<Member>): Option<Fields>
    decreases |ms|
  {
    if ms == [] then Some(f)
    else
      match Store(f, ms[0])
      case None => None
      case Some(g) => StoreAll(g, ms[1..])
  }

  predicate IsHexHash(h: string, n: nat) {
    h == "" || (|h| == n && forall i :: 0 <= i < n ==> IsHexDigit(h[i]))
  }

  /** The checks on the decoded fields. */
  function Checked(f: Fields): Option<Meta> {
    if f.ver.None? || f.size.None? || f.nChunks.None? then None
    else if f.ver.value < 1 || f.size.value < 0 then None
    else if f.nChunks.value < 1 || f.nChunks.value > MAX_CHUNKS then None
    else if !IsHexHash(f.md5, 32) || !IsHexHash(f.sha1, 40) then None
    else if f.ver.value > VERSION then None
    else Some(Meta(f.ver.value, f.size.value, f.nChunks.value, f.md5, f.sha1, f.xact))
  }

  function Unmarshal(data: Bytes): Option<Meta> {
    if |data| > MAX_META_WRITE then None
    else if |data| < 2 || data[0] != '{' || data[|data| - 1] != '}' then None
    else
      match Read(data)
      case None => None
      case Some(v) =>
        if !v.Object? then None
        else
          match StoreAll(EMPTY, v.members)
          case None => None
          case Some(f) => Checked(f)
  }

  // ---- round trip ----

  lemma {:induction false} StoreAllAppend(f: Fields, a: seq<Member>, b: seq<Member>)
    requires StoreAll(f, a).Some?
    ensures StoreAll(f, a + b) == StoreAll(StoreAll(f, a).value, b)
    decreases |a|
  {
    if a == [] {
      assert a + b == b;
    } else {
      assert (a + b)[1..] == a[1..] + b;
      StoreAllAppend(Store(f, a[0]).value, a[1..], b);
    }
  }

  lemma FoldLower(s: string)
    requires forall i :: 0 <= i < |s| ==> !('A' <= s[i] <= 'Z')
    ensures Fold(s) == s
  {
  }

  lemma FoldKey(key: string)
    requires key in ["ver", "size", "nchunks"]
    ensures Fold(key) == key
  {
    FoldLower(key);
  }

  lemma StoreOne(f: Fields, m: Member)
    ensures StoreAll(f, [m]) == Store(f, m)
  {
    assert [m][1..] == [];
  }

  lemma StoreInt(f: Fields, key: string, n: int)
    requires IsInt64(n) && key in ["ver", "size", "nchunks"]
    ensures StoreAll(f, [IntMember(key, n)]) == Some(
      if key == "ver" then f.(ver := Some(n)) else if key == "size" then f.(size := Some(n)) else f.(nChunks := Some(n)))
  {
    hide FormatInt, ParseInt, StoreAll, Fold;
    StoreOne(f, IntMember(key, n));
    FoldKey(key);
    ParseIntOfPrinted(n);
  }

  lemma StoreNumbers(size: int, nChunks: int, xact: string)
    requires IsInt64(size) && IsInt64(nChunks)
    ensures StoreAll(EMPTY, Numbers(size, nChunks, xact))
         == Some(Fields(Some(VersionOf(xact)), Some(size), Some(nChunks), "", "", ""))
  {
    var a, b, c := [IntMember("ver", VersionOf(xact))], [IntMember("size", size)], [IntMember("nchunks", nChunks)];
    assert Numbers(size, nChunks, xact) == a + (b + c);
    hide StoreAll, IntMember, Store;
    StoreInt(EMPTY, "ver", VersionOf(xact));
    StoreAllAppend(EMPTY, a, b + c);
    var f := EMPTY.(ver := Some(VersionOf(xact)));
    StoreInt(f, "size", size);
    StoreAllAppend(f, b, c);
    StoreInt(f.(size := Some(size)), "nchunks", nChunks);
  }

  lemma StoreText(f: Fields, key: string, s: string)
    requires key in ["md5", "sha1", "txn"]
    requires key == "md5" ==> f.md5 == ""
    requires key == "sha1" ==> f.sha1 == ""
    requires key == "txn" ==> f.xact == ""
    ensures StoreAll(f, TextMember(key, s)) == Some(
      if key == "md5" then f.(md5 := s) else if key == "sha1" then f.(sha1 := s) else f.(xact := s))
  {
    if s != "" {
      StoreOne(f, Member(key, Text(s)));
      FoldLower(key);
    }
  }

  lemma StoreTexts(f: Fields, md5: string, sha1: string, xact: string)
    requires f.md5 == "" && f.sha1 == "" && f.xact == ""
    ensures StoreAll(f, Texts(md5, sha1, xact)) == Some(f.(md5 := md5, sha1 := sha1, xact := xact))
  {
    var a, b, c := TextMember("md5", md5), TextMember("sha1", sha1), TextMember("txn", xact);
    hide StoreAll, TextMember, Store;
    StoreText(f, "md5", md5);
    var g := f.(md5 := md5);
    StoreText(g, "sha1", sha1);
    StoreAllAppend(f, a, b);
    var h := g.(sha1 := sha1);
    StoreText(h, "txn", xact);
    StoreAllAppend(f, a + b, c);
  }

  /** What unmarshalling makes of any marshalled record: the record itself, version 2 exactly when it
      names a transaction, and only if it passes the checks; otherwise nothing. */
  lemma UnmarshalOfMarshal(size: int, nChunks: int, md5: string, sha1: string, xact: string)
    requires IsInt64(size) && IsInt64(nChunks)
    requires IsAscii(md5) && IsAscii(sha1) && IsAscii(xact)
    ensures Marshal(size, nChunks, md5, sha1, xact).Ok? ==>
      Unmarshal(Marshal(size, nChunks, md5, sha1, xact).value)
      == if 0 <= size && 1 <= nChunks <= MAX_CHUNKS && IsHexHash(md5, 32) && IsHexHash(sha1, 40)
         then Some(Meta(VersionOf(xact), size, nChunks, md5, sha1, xact)) else None
  {
    var ms := Members(size, nChunks, md5, sha1, xact);
    JsonLaws.ReadOfWrite(ms);
    hide WriteMembers, Read, Members, StoreAll, Checked, Texts, Numbers;
    StoreNumbers(size, nChunks, xact);
    var f := Fields(Some(VersionOf(xact)), Some(size), Some(nChunks), "", "", "");
    StoreTexts(f, md5, sha1, xact);
    StoreAllAppend(EMPTY, Numbers(size, nChunks, xact), Texts(md5, sha1, xact));
    MembersAre(size, nChunks, md5, sha1, xact);
    CheckedIs(f.(md5 := md5, sha1 := sha1, xact := xact));
  }

  lemma MembersAre(size: int, nChunks: int, md5: string, sha1: string, xact: string)
    requires IsInt64(size) && IsInt64(nChunks)
    requires IsAscii(md5) && IsAscii(sha1) && IsAscii(xact)
    ensures Members(size, nChunks, md5, sha1, xact) == Numbers(size, nChunks, xact) + Texts(md5, sha1, xact)
  {
  }

  lemma CheckedIs(f: Fields)
    requires f.ver.Some? && f.size.Some? && f.nChunks.Some? && 1 <= f.ver.value <= VERSION
    ensures Checked(f) ==
      if 0 <= f.size.value && 1 <= f.nChunks.value <= MAX_CHUNKS && IsHexHash(f.md5, 32) && IsHexHash(f.sha1, 40)
      then Some(Meta(f.ver.value, f.size.value, f.nChunks.value, f.md5, f.sha1, f.xact)) else None
  {
  }

  // ---- size ----

  /** Characters that are written as they are. */
  lemma {:induction false} PlainLength(s: string)
    requires AllBase36(s)
    ensures IsAscii(s) && |EscapeAll(s)| == |s|
  {
    if s != "" { PlainLength(s[1..]); }
  }

  function Cost(ms: seq<Member>): nat
    requires AllFlat(ms)
  {
    if ms == [] then 0 else |WriteMember(ms[0])| + 1 + Cost(ms[1..])
  }

  lemma {:induction false} CostAppend(a: seq<Member>, b: seq<Member>)
    requires AllFlat(a)
    requires AllFlat(b)
    ensures Cost(a + b) == Cost(a) + Cost(b)
  {
    if a == [] {
      assert a + b == b;
    } else {
      assert (a + b)[1..] == a[1..] + b;
      hide WriteMember, IsFlatMember;
      CostAppend(a[1..], b);
    }
  }

  lemma {:induction false} CostOfMembers(ms: seq<Member>)
    requires |ms| > 0 && AllFlat(ms)
    ensures |WriteMembers(ms)| + 1 == Cost(ms)
  {
    hide WriteMember, IsFlatMember;
    if |ms| > 1 { CostOfMembers(ms[1..]); } else { assert ms[1..] == []; }
  }

  lemma Int64Digits(n: nat)
    requires n <= MAX_INT64
    ensures |FormatInt(n, 0)| <= 19
  {
    assert Pow(10, 4) == 10_000;
    assert Pow(10, 8) == 100_000_000;
    assert Pow(10, 12) == 1_000_000_000_000;
    assert Pow(10, 16) == 10_000_000_000_000_000;
    assert Pow(10, 19) == 10_000_000_000_000_000_000;
    PrintLength(10, n, 19);
  }

  lemma CostOfOne(m: Member)
    requires IsFlatMember(m)
    ensures AllFlat([m]) && Cost([m]) == |WriteMember(m)| + 1
  {
    hide WriteMember, IsFlatMember;
    assert [m][1..] == [];
  }

  lemma CostOfInt(key: string, n: nat)
    requires AllBase36(key) && n <= MAX_INT64
    ensures AllFlat([IntMember(key, n)]) && Cost([IntMember(key, n)]) <= |key| + 23
  {
    PlainLength(key);
    IntFlat(key, n);
    Int64Digits(n);
    CostOfOne(IntMember(key, n));
    hide EscapeAll, FormatInt, Cost, AllFlat, IsFlatMember;
    assert |Quote(key)| == |key| + 2;
  }

  lemma CostOfText(key: string, s: string)
    requires AllBase36(key) && AllBase36(s)
    ensures AllFlat(TextMember(key, s)) && Cost(TextMember(key, s)) <= |key| + |s| + 6
  {
    PlainLength(key);
    PlainLength(s);
    if s != "" {
      CostOfOne(Member(key, Text(s)));
      hide EscapeAll, Cost, AllFlat;
      assert |Quote(key)| == |key| + 2 && |Quote(s)| == |s| + 2;
    }
  }

  lemma CostOfThree(a: seq<Member>, b: seq<Member>, c: seq<Member>)
    requires AllFlat(a) && AllFlat(b) && AllFlat(c)
    ensures AllFlat(a + b + c) && Cost(a + b + c) == Cost(a) + Cost(b) + Cost(c)
  {
    hide Cost, IsFlatMember;
    CostAppend(a, b);
    CostAppend(a + b, c);
  }

  lemma CostOfNumbers(size: nat, nChunks: nat, xact: string)
    requires size <= MAX_INT64 && nChunks <= MAX_INT64
    ensures AllFlat(Numbers(size, nChunks, xact)) && Cost(Numbers(size, nChunks, xact)) <= 83
  {
    var a, b, c := [IntMember("ver", VersionOf(xact))], [IntMember("size", size)], [IntMember("nchunks", nChunks)];
    KeysPlain();
    hide Cost, IntMember, AllFlat, AllBase36, IsAscii;
    CostOfInt("ver", VersionOf(xact));
    CostOfInt("size", size);
    CostOfInt("nchunks", nChunks);
    CostOfThree(a, b, c);
    assert Numbers(size, nChunks, xact) == a + b + c;
  }

  lemma CostOfTexts(md5: string, sha1: string, xact: string)
    requires IsHash(md5, 32) && IsHash(sha1, 40) && AllBase36(xact) && |xact| <= 9
    ensures AllFlat(Texts(md5, sha1, xact)) && Cost(Texts(md5, sha1, xact)) <= 109
  {
    CostOfText("md5", md5);
    CostOfText("sha1", sha1);
    CostOfText("txn", xact);
    hide Cost, TextMember, AllFlat;
    CostOfThree(TextMember("md5", md5), TextMember("sha1", sha1), TextMember("txn", xact));
  }

  lemma TextsAscii(md5: string, sha1: string, xact: string)
    requires IsHash(md5, 32) && IsHash(sha1, 40) && AllBase36(xact)
    ensures IsAscii(md5) && IsAscii(sha1) && IsAscii(xact)
  {
  }

  lemma MembersFit(size: nat, nChunks: nat, md5: string, sha1: string, xact: string)
    requires size <= MAX_INT64 && nChunks <= MAX_INT64
    requires IsHash(md5, 32) && IsHash(sha1, 40) && AllBase36(xact) && |xact| <= 9
    requires IsAscii(md5) && IsAscii(sha1) && IsAscii(xact)
    ensures |WriteObject(Members(size, nChunks, md5, sha1, xact))| < 200
  {
    hide Cost, WriteMembers, Numbers, Texts, AllFlat, IsAscii, Members, IsHash, AllBase36;
    CostOfNumbers(size, nChunks, xact);
    CostOfTexts(md5, sha1, xact);
    MembersAre(size, nChunks, md5, sha1, xact);
    CostAppend(Numbers(size, nChunks, xact), Texts(md5, sha1, xact));
    CostOfMembers(Members(size, nChunks, md5, sha1, xact));
  }

  /** Every record a Put writes fits. */
  lemma MarshalFits(size: nat, nChunks: nat, md5: string, sha1: string, xact: string)
    requires size <= MAX_INT64 && nChunks <= MAX_INT64
    requires IsHash(md5, 32) && IsHash(sha1, 40) && AllBase36(xact) && |xact| <= 9
    ensures IsAscii(md5) && IsAscii(sha1) && IsAscii(xact)
    ensures Marshal(size, nChunks, md5, sha1, xact).Ok?
    ensures |Marshal(size, nChunks, md5, sha1, xact).value| < 200
  {
    TextsAscii(md5, sha1, xact);
    hide IsHash, AllBase36, IsAscii, WriteObject, Members;
    MembersFit(size, nChunks, md5, sha1, xact);
  }

  /** Whatever is accepted is short, has a known version and sane numbers; the transaction id is not
      checked. */
  lemma UnmarshalAccepts(data: Bytes)
    requires Unmarshal(data).Some?
    ensures var m := Unmarshal(data).value;
      && 2 <= |data| <= MAX_META_WRITE && data[0] == '{' && data[|data| - 1] == '}'
      && 1 <= m.version <= VERSION && 0 <= m.size <= MAX_INT64 && 1 <= m.nChunks <= MAX_CHUNKS
      && IsHexHash(m.md5, 32) && IsHexHash(m.sha1, 40)
  {
    var f := StoreAll(EMPTY, Read(data).value.members).value;
    StoreAllInts(EMPTY, Read(data).value.members);
  }

  predicate IntsInRange(f: Fields) {
    f.size.Some? ==> IsInt64(f.size.value)
  }

  lemma {:induction false} StoreAllInts(f: Fields, ms: seq<Member>)
    requires IntsInRange(f) && StoreAll(f, ms).Some?
    ensures IntsInRange(StoreAll(f, ms).value)
    decreases |ms|
  {
    if ms != [] {
      StoreAllInts(Store(f, ms[0]).value, ms[1..]);
    }
  }
}
