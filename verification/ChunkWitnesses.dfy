/** Inputs on which the chunker does less than one would expect, each in a storage as Init returns it. */
module ChunkWitnesses {
  import opened Prelude
  import opened Numerals
  import opened RemoteStore
  import opened RemoteOps
  import opened ChunkView
  import opened ChunkStates
  import opened BaseSweep
  import opened BaseWrite
  import opened ChunkUpload
  import opened ChunkTransfer
  import opened ChunkInit
  import opened Mirror
  import opened PutMeta
  import opened PutSmall
  import opened PutBare
  import opened ChunkAccess
  import opened ChunkRename
  import opened TransferViews
  import ChunkMetadata
  import Names = ChunkNames
  import NameLaws = ChunkNameLaws
  import Matching = ChunkNameMatching

  /** Options that Init accepts. */
  ghost predicate Shipped(o: Options, h: Digests) {
    IsInt64(o.chunkSize) && IsInt64(o.startFrom) && AreHex(h) && Init(o, h).Ok?
  }

  function Cfg(o: Options, h: Digests): Config
    requires Init(o, h).Ok?
  {
    Init(o, h).value
  }

  /** A name that is too short to hold the marker reads as no chunk. */
  lemma ShortIsBase(o: Options, h: Digests, name: string)
    requires Shipped(o, h) && |name| <= |Names.MARKER|
    ensures Lawful(Cfg(o, h)) && IsBaseName(Cfg(o, h), name)
  {
    InitIsLawful(o, h);
    if Names.Search(Names.DEFAULT_FORMAT, name, 0).Some? {
      Matching.SearchShape(name, 0);
      var main := Names.Search(Names.DEFAULT_FORMAT, name, 0).value.0;
      Matching.TailShape(name[|main|..]);
    }
    assert name[0..] == name;
    hide Names.Search;
  }

  const X := "x"
  const OLD_XACT := "0000"
  const NEW_XACT := "1111"

  /** Metadata of an empty object of an earlier transaction. */
  const LEFT := Meta(2, 0, 1, "", "", OLD_XACT)

  function LeftText(cfg: Config): Bytes {
    match cfg.marshal(LEFT)
    case Ok(text) => text
    case Err(_) => ""
  }

  lemma LeftReads(cfg: Config)
    requires Lawful(cfg)
    ensures cfg.unmarshal(LeftText(cfg)) == Some(LEFT) && |LeftText(cfg)| < MAX_META_WRITE
  {
    assert Writable(LEFT);
  }

  function ChunkPath(cfg: Config, no: nat, x: string): Path {
    PartPath(cfg, [], X, no, x)
  }

  /** The paths of the base file and of the chunks are all different. */
  lemma PathsApart(cfg: Config, a: nat, x: string, b: nat, y: string)
    requires Lawful(cfg) && IsNumber(cfg, a) && IsNumber(cfg, b) && Names.IsXact(x) && Names.IsXact(y)
    ensures ChunkPath(cfg, a, x) == ChunkPath(cfg, b, y) ==> (a, x) == (b, y)
    ensures ChunkPath(cfg, a, x) != [X] && [] + [X] == [X]
  {
    PathsDiffer(cfg, [], X, x, a, a);
    if ChunkPath(cfg, a, x) == ChunkPath(cfg, b, y) { SamePath(cfg, [], X, a, x, b, y); }
  }

  // ---- a dormant base file ----

  function DormantState(cfg: Config): Remotes {
    [map[[X] := File(LeftText(cfg))]]
  }

  function WokenState(cfg: Config): Remotes {
    [map[[X] := File(LeftText(cfg)), ChunkPath(cfg, 0, NEW_XACT) := File("a")]]
  }

  /** The only files that read as chunks. */
  lemma OnlyTheseChunks(cfg: Config, file: string)
    requires Lawful(cfg) && IsNumber(cfg, 0) && IsBaseName(cfg, X) && IsChunkName(cfg, file)
    ensures FileAt(DormantState(cfg)[0], [] + [file]).None?
    ensures FileAt(WokenState(cfg)[0], [] + [file]) == if file == cfg.make(X, 0, NEW_XACT) then Some("a") else None
    ensures FileAt(LeftOverState(cfg)[0], [] + [file]) == if file == cfg.make(X, 0, NEW_XACT) then Some("a") else None
  {
    PathsApart(cfg, 0, NEW_XACT, 0, NEW_XACT);
    assert [] + [file] == [file] && ChunkPath(cfg, 0, NEW_XACT) == [cfg.make(X, 0, NEW_XACT)];
    assert file != X;
  }

  lemma NewChunkReads(cfg: Config)
    requires Lawful(cfg) && IsNumber(cfg, 0)
    ensures ReadsAs(cfg, cfg.make(X, 0, NEW_XACT), X, NEW_XACT)
  {
    SpellingReads(cfg, [], X, 0, NEW_XACT, cfg.make(X, 0, NEW_XACT));
  }

  /** What is there of chunks of "x": nothing, and one of the new transaction. */
  lemma ChunksThere(cfg: Config)
    requires Lawful(cfg) && IsNumber(cfg, 0) && IsBaseName(cfg, X)
    ensures !AnyPart(cfg, DormantState(cfg), [], X) && AnyPart(cfg, WokenState(cfg), [], X)
    ensures forall no: nat, x :: x != NEW_XACT ==>
      !PartExists(cfg, WokenState(cfg), [], X, no, x) && !PartExists(cfg, LeftOverState(cfg), [], X, no, x)
  {
    hide Seen;
    NewChunkReads(cfg);
    OnlyTheseChunks(cfg, cfg.make(X, 0, NEW_XACT));
    AnyPartIsRead(cfg, DormantState(cfg), [], X);
    AnyPartIsRead(cfg, WokenState(cfg), [], X);
    forall i, file | 0 <= i < 1 && IsChunkName(cfg, file)
      ensures FileAt(DormantState(cfg)[i], [] + [file]).None?
    {
      OnlyTheseChunks(cfg, file);
    }
    forall no: nat, x | x != NEW_XACT
      ensures !PartExists(cfg, WokenState(cfg), [], X, no, x) && !PartExists(cfg, LeftOverState(cfg), [], X, no, x)
    {
      OtherTransaction(cfg, no, x);
    }
  }

  lemma OtherTransaction(cfg: Config, no: nat, x: string)
    requires Lawful(cfg) && IsNumber(cfg, 0) && IsBaseName(cfg, X) && x != NEW_XACT
    ensures !PartExists(cfg, WokenState(cfg), [], X, no, x) && !PartExists(cfg, LeftOverState(cfg), [], X, no, x)
  {
    hide Seen;
    NewChunkReads(cfg);
    PartIsRead(cfg, WokenState(cfg), [], X, x);
    PartIsRead(cfg, LeftOverState(cfg), [], X, x);
    forall i, file | 0 <= i < 1 && ReadsAs(cfg, file, X, x)
      ensures FileAt(WokenState(cfg)[i], [] + [file]).None? && FileAt(LeftOverState(cfg)[i], [] + [file]).None?
    {
      OnlyTheseChunks(cfg, file);
    }
    hide PartExists, WokenState, LeftOverState, FileAt;
  }

  /** The base file is the text of metadata whose chunks are gone: a plain file.  The first chunk of a new
      upload turns it into an empty object before anything is committed. */
  lemma DormantWakes(o: Options, h: Digests)
    requires Shipped(o, h) && 0 <= o.startFrom
    ensures var cfg := Cfg(o, h); var rs0, rs := DormantState(cfg), WokenState(cfg);
      && Setting(cfg, rs0, [], X, NEW_XACT) && Uploading(cfg, rs0, rs, [], X, NEW_XACT)
      && ViewOf(cfg, rs0, [], X) == Plain(0, LeftText(cfg))
      && ViewOf(cfg, rs, [], X) == Chunked(0, 0, Some(LEFT), [])
  {
    ShortIsBase(o, h, X);
    InitIsLawful(o, h);
    var cfg := Cfg(o, h);
    hide Init, Names.Parse, Names.Make;
    LeftReads(cfg);
    WokenLists(cfg);
    DormantSetting(cfg);
  }

  lemma WokenLists(cfg: Config)
    requires Lawful(cfg) && IsBaseName(cfg, X) && IsNumber(cfg, 0)
    requires cfg.unmarshal(LeftText(cfg)) == Some(LEFT) && |LeftText(cfg)| < MAX_META_WRITE
    ensures ViewOf(cfg, DormantState(cfg), [], X) == Plain(0, LeftText(cfg))
    ensures ViewOf(cfg, WokenState(cfg), [], X) == Chunked(0, 0, Some(LEFT), [])
  {
    var rs0, rs := DormantState(cfg), WokenState(cfg);
    PathsApart(cfg, 0, NEW_XACT, 0, NEW_XACT);
    assert FileAt(rs0[0], [] + [X]) == Some(LeftText(cfg)) && FileAt(rs[0], [] + [X]) == Some(LeftText(cfg));
    ChunksThere(cfg);
    hide Seen, PartExists, NamesLawful, MetaLawful, SpellingLawful, Parts, AnyPart;
    NoParts(cfg, rs, [], X, OLD_XACT);
    hide DormantState, WokenState, LeftText;
    ViewPlain(cfg, rs0, [], X, 0, LeftText(cfg));
    ViewWithMeta(cfg, rs, [], X, 0, LeftText(cfg), LEFT);
  }

  lemma DormantSetting(cfg: Config)
    requires Lawful(cfg) && IsNumber(cfg, 0) && cfg.unmarshal(LeftText(cfg)) == Some(LEFT) && IsBaseName(cfg, X)
    ensures Setting(cfg, DormantState(cfg), [], X, NEW_XACT)
    ensures Uploading(cfg, DormantState(cfg), WokenState(cfg), [], X, NEW_XACT)
  {
    var rs0, rs := DormantState(cfg), WokenState(cfg);
    PathsApart(cfg, 0, NEW_XACT, 0, NEW_XACT);
    IsPartPathOf(cfg, [], X, 0, NEW_XACT);
    assert FileAt(rs0[0], [] + [X]) == Some(LeftText(cfg));
    assert FirstFile(rs0, [] + [X]) == Some(0);
    hide MetaLawful, Seen;
    forall no: nat, i | 0 <= i < |rs0| && IsNumber(cfg, no)
      ensures FileAt(Seen(cfg, rs0)[i], PartPath(cfg, [], X, no, NEW_XACT)).None?
    {
      var n := SeenSome(cfg, rs0, i, [], cfg.make(X, no, NEW_XACT));
      if Canon(cfg, n) == cfg.make(X, no, NEW_XACT) {
        SpellingReads(cfg, [], X, no, NEW_XACT, n);
        OnlyTheseChunks(cfg, n);
      }
    }
  }

  // ---- a small file that reads as metadata ----

  function LeftOverState(cfg: Config): Remotes {
    [map[ChunkPath(cfg, 0, NEW_XACT) := File("a")]]
  }

  /** A small Put of a text that happens to be metadata, beside a left-over chunk of that name: the file
      lists as an empty object and not as itself. */
  lemma SmallTurnsToMeta(o: Options, h: Digests)
    requires Shipped(o, h) && 0 <= o.startFrom && Cfg(o, h).chunkSize >= MAX_META_WRITE
    ensures var cfg := Cfg(o, h); var rs0, rs, data := LeftOverState(cfg), WokenState(cfg), LeftText(cfg);
      && |data| <= cfg.chunkSize && Landed(cfg, rs0, rs, [], X, data)
      && LeftOver(cfg, rs0, [], X, ObjectLocations(cfg, [], X, ViewOf(cfg, rs0, [], X)))
      && ViewOf(cfg, rs, [], X) == Chunked(0, 0, Some(LEFT), [])
  {
    ShortIsBase(o, h, X);
    InitIsLawful(o, h);
    var cfg := Cfg(o, h);
    hide Init, Names.Parse, Names.Make;
    LeftReads(cfg);
    WokenLists(cfg);
    LeftOverLands(cfg);
  }

  lemma LeftOverLands(cfg: Config)
    requires Lawful(cfg) && IsBaseName(cfg, X) && IsNumber(cfg, 0)
    ensures var rs0 := LeftOverState(cfg);
      && Landed(cfg, rs0, WokenState(cfg), [], X, LeftText(cfg))
      && LeftOver(cfg, rs0, [], X, ObjectLocations(cfg, [], X, ViewOf(cfg, rs0, [], X)))
  {
    hide ViewOf, Landed, LeftOverState, WokenState, LeftText, NamesLawful, MetaLawful, SpellingLawful;
    LeftOverUnlisted(cfg);
    LeftOverThere(cfg);
    OneWritten(cfg);
  }

  lemma LeftOverUnlisted(cfg: Config)
    requires Lawful(cfg) && IsBaseName(cfg, X) && IsNumber(cfg, 0)
    ensures ViewOf(cfg, LeftOverState(cfg), [], X) == Absent
  {
    hide Seen, PartExists, AnyPart, Parts, NamesLawful, MetaLawful, SpellingLawful;
    PathsApart(cfg, 0, NEW_XACT, 0, NEW_XACT);
    ChunksThere(cfg);
    assert FileAt(LeftOverState(cfg)[0], [] + [X]).None?;
    hide LeftOverState, WokenState;
    NoParts(cfg, LeftOverState(cfg), [], X, "");
    ViewBare(cfg, LeftOverState(cfg), [], X);
  }

  lemma LeftOverThere(cfg: Config)
    requires Lawful(cfg) && IsBaseName(cfg, X) && IsNumber(cfg, 0)
    ensures LeftOver(cfg, LeftOverState(cfg), [], X, [])
  {
    hide LeftText;
    NewChunkReads(cfg);
    OnlyTheseChunks(cfg, cfg.make(X, 0, NEW_XACT));
  }

  lemma OneWritten(cfg: Config)
    requires Lawful(cfg) && IsBaseName(cfg, X) && IsNumber(cfg, 0)
    ensures Landed(cfg, LeftOverState(cfg), WokenState(cfg), [], X, LeftText(cfg))
  {
    PathsApart(cfg, 0, NEW_XACT, 0, NEW_XACT);
    hide LeftText, NamesLawful, MetaLawful, SpellingLawful, PartPath, Owned;
  }

  // ---- metadata without chunks ----

  /** The metadata of the woken state as an object: it has no chunk of its own. */
  const EMPTY_OBJECT := Chunked(0, 0, Some(LEFT), [])

  /** An empty object like that does not survive a copy: there it lists as its metadata text. */
  lemma MetadataAloneIsLost(o: Options, h: Digests)
    requires Shipped(o, h) && 0 <= o.startFrom
    ensures var cfg := Cfg(o, h); var rs0 := WokenState(cfg);
      var job := TransferOf(cfg, CopyIt, rs0, 0, [], ["d"], X, EMPTY_OBJECT);
      && ViewOf(cfg, rs0, [], X) == EMPTY_OBJECT && job.Sound() && FreshAt(cfg, rs0, ["d"], X)
      && (exists rs :: job.Done(rs, |job.locs|))
      && forall rs :: job.Done(rs, |job.locs|) ==> ViewOf(cfg, rs, ["d"], X) == Plain(0, LeftText(cfg))
  {
    ShortIsBase(o, h, X);
    InitIsLawful(o, h);
    var cfg := Cfg(o, h);
    hide Init, Names.Parse, Names.Make, Lawful, ViewOf, WokenState, FreshAt, Transfer.Sound, Transfer.Done;
    LeftReads(cfg);
    WokenLists(cfg);
    NothingInside(cfg);
    MetadataCopied(cfg);
  }

  lemma MetadataCopied(cfg: Config)
    requires Lawful(cfg) && IsNumber(cfg, 0) && IsBaseName(cfg, X) && ViewOf(cfg, WokenState(cfg), [], X) == EMPTY_OBJECT
    requires FreshAt(cfg, WokenState(cfg), ["d"], X)
    ensures var job := TransferOf(cfg, CopyIt, WokenState(cfg), 0, [], ["d"], X, EMPTY_OBJECT);
      && job.Sound() && (exists rs :: job.Done(rs, |job.locs|))
      && forall rs :: job.Done(rs, |job.locs|) ==> ViewOf(cfg, rs, ["d"], X) == Plain(0, LeftText(cfg))
  {
    var rs0 := WokenState(cfg);
    var job := TransferOf(cfg, CopyIt, rs0, 0, [], ["d"], X, EMPTY_OBJECT);
    hide Seen, ViewOf, FreshAt, Transfer.Sound, Transfer.Done, Transfer.Exists, Unobstructed, Unambiguous;
    hide NamesLawful, MetaLawful, SpellingLawful, WokenState, LeftText, FirstData;
    WokenTransfer(cfg);
    TransferIsSound(cfg, CopyIt, rs0, 0, [], ["d"], X);
    WokenBase(cfg);
    WokenUnambiguous(cfg);
    CanFinish(job);
    forall rs | job.Done(rs, |job.locs|)
      ensures ViewOf(cfg, rs, ["d"], X) == Plain(0, LeftText(cfg))
    {
      DestLists(cfg, job, rs, |job.locs|, X, EMPTY_OBJECT);
    }
  }

  lemma WokenTransfer(cfg: Config)
    requires Lawful(cfg) && IsNumber(cfg, 0)
    ensures var job := TransferOf(cfg, CopyIt, WokenState(cfg), 0, [], ["d"], X, EMPTY_OBJECT);
      job.locs == [Location([] + [X], 0)] && job.Exists(job.locs[0]) && Unobstructed(job)
  {
    PathsApart(cfg, 0, NEW_XACT, 0, NEW_XACT);
    assert FileAt(WokenState(cfg)[0], [] + [X]) == Some(LeftText(cfg));
    hide WokenState, NamesLawful, MetaLawful, SpellingLawful;
  }

  lemma WokenUnambiguous(cfg: Config)
    requires Lawful(cfg) && IsNumber(cfg, 0) && IsBaseName(cfg, X)
    ensures Unambiguous(cfg, WokenState(cfg), [], X)
  {
    NewChunkReads(cfg);
    forall i, a, b | 0 <= i < 1 && FileAt(WokenState(cfg)[i], [] + [a]).Some? && FileAt(WokenState(cfg)[i], [] + [b]).Some?
                     && Canon(cfg, a) == Canon(cfg, b)
      ensures a == b
    {
      CanonParses(cfg, a);
      CanonParses(cfg, b);
      assert [] + [a] == [a] && [] + [b] == [b] && ChunkPath(cfg, 0, NEW_XACT) == [cfg.make(X, 0, NEW_XACT)];
    }
  }

  lemma CanFinish(job: Transfer)
    requires job.Sound() && |job.locs| == 1 && job.Exists(job.locs[0])
    ensures exists rs :: job.Done(rs, |job.locs|)
  {
    assert job.Done(job.rs0, 0);
    job.Step(job.rs0, 0);
  }

  lemma NothingInside(cfg: Config)
    ensures FreshAt(cfg, WokenState(cfg), ["d"], X)
  {
    assert |[X]| == 1 && |ChunkPath(cfg, 0, NEW_XACT)| == 1;
  }

  lemma WokenBase(cfg: Config)
    requires Lawful(cfg) && IsNumber(cfg, 0)
    ensures FirstData(WokenState(cfg), [] + [X]) == LeftText(cfg)
  {
    PathsApart(cfg, 0, NEW_XACT, 0, NEW_XACT);
    assert FileAt(WokenState(cfg)[0], [] + [X]) == Some(LeftText(cfg));
    assert FirstFile(WokenState(cfg), [] + [X]) == Some(0);
  }

  // ---- a stray untagged chunk ----

  function StrayBefore(cfg: Config): Remotes {
    [map[[X] := File("z"), ChunkPath(cfg, 5, "") := File("s")]]
  }

  function StrayAfter(cfg: Config): Remotes {
    [map[ChunkPath(cfg, 0, "") := File("a"), ChunkPath(cfg, 1, "") := File("b"), ChunkPath(cfg, 5, "") := File("s")]]
  }

  const STRAY_PARTS := [Part(0, 0, "", "a"), Part(1, 0, "", "b"), Part(5, 0, "", "s")]

  /** What lies at the paths of the untagged chunks, before and after. */
  function StrayFile(no: nat, after: bool): Option<Bytes> {
    if no == 5 then Some("s") else if after && no == 0 then Some("a") else if after && no == 1 then Some("b") else None
  }

  lemma StrayFiles(cfg: Config, no: nat)
    requires Lawful(cfg) && NumbersOk(cfg, 6) && IsNumber(cfg, no)
    ensures FileAt(StrayBefore(cfg)[0], PartPath(cfg, [], X, no, "")) == StrayFile(no, false)
    ensures FileAt(StrayAfter(cfg)[0], PartPath(cfg, [], X, no, "")) == StrayFile(no, true)
    ensures PartPath(cfg, [], X, no, "") != [X]
  {
    PathsApart(cfg, 0, "", 1, "");
    PathsApart(cfg, 1, "", 5, "");
    PathsApart(cfg, 5, "", 0, "");
    PathsApart(cfg, no, "", 0, "");
    PathsApart(cfg, no, "", 1, "");
    PathsApart(cfg, no, "", 5, "");
    hide NamesLawful, MetaLawful, PartPath;
  }

  lemma StrayBase(cfg: Config)
    requires Lawful(cfg) && NumbersOk(cfg, 6)
    ensures FileAt(StrayBefore(cfg)[0], [] + [X]) == Some("z") && FileAt(StrayAfter(cfg)[0], [] + [X]) == None
  {
    PathsApart(cfg, 0, "", 1, "");
    PathsApart(cfg, 1, "", 5, "");
    PathsApart(cfg, 5, "", 0, "");
    hide NamesLawful, MetaLawful, PartPath;
  }

  /** A plain file replaced by a stream of two chunks in format "none", with an untagged chunk 5 lying
      around that the plain file hid: although everything succeeds, the stray ends up in the object. */
  lemma StrayJoins(o: Options, h: Digests)
    requires Shipped(o, h) && 0 <= o.startFrom && NumbersOk(Cfg(o, h), 6) && o.metaFormat == "none" && o.chunkSize == 1
    ensures var cfg := Cfg(o, h); var rs0, rs := StrayBefore(cfg), StrayAfter(cfg);
      var locs := ObjectLocations(cfg, [], X, Plain(0, "z"));
      && cfg.metaFormat == NoMeta && ViewOf(cfg, rs0, [], X) == Plain(0, "z")
      && BareDone(cfg, rs0, rs, [], X, Split("ab", 1), locs) && BaseOut(cfg, rs0, [], X, locs, [true])
      && !NoStrays(cfg, rs0, [], X, locs, 2)
      && ViewOf(cfg, rs, [], X) == Chunked(3, 0, None, STRAY_PARTS)
      && ViewOf(cfg, rs, [], X) != BareView(cfg, 1, "ab")
  {
    ShortIsBase(o, h, X);
    InitIsLawful(o, h);
    var cfg := Cfg(o, h);
    assert cfg.metaFormat == NoMeta && cfg.chunkSize == 1;
    assert cfg.unmarshal("z") == ChunkMetadata.Unmarshal("z") == None;
    hide Init, Names.Parse, Names.Make;
    StrayIsHidden(cfg);
    StrayDone(cfg);
    StrayListed(cfg);
    SplitTwo();
  }

  lemma SplitTwo()
    ensures Split("ab", 1) == ["a", "b"]
  {
    assert "ab"[1..] == "b" && "ab"[..1] == "a" && "b"[1..] == "" && "b"[..1] == "b";
    assert Split("b", 1) == ["b"] + Split("", 1);
    assert Split("ab", 1) == ["a"] + Split("b", 1);
  }

  lemma StrayIsHidden(cfg: Config)
    requires Lawful(cfg) && NumbersOk(cfg, 6) && IsBaseName(cfg, X) && cfg.unmarshal("z").None?
    ensures ViewOf(cfg, StrayBefore(cfg), [], X) == Plain(0, "z")
  {
    StrayBase(cfg);
    var rs := StrayBefore(cfg);
    assert |rs| == 1 && FirstFile(rs, [] + [X]) == Some(0);
    hide StrayBefore, Parts, AnyPart;
  }

  lemma StrayDone(cfg: Config)
    requires Lawful(cfg) && NumbersOk(cfg, 6)
    ensures var rs0, rs := StrayBefore(cfg), StrayAfter(cfg);
      var locs := ObjectLocations(cfg, [], X, Plain(0, "z"));
      && BareDone(cfg, rs0, rs, [], X, ["a", "b"], locs) && BaseOut(cfg, rs0, [], X, locs, [true])
      && !NoStrays(cfg, rs0, [], X, locs, 2)
  {
    var rs0, rs := StrayBefore(cfg), StrayAfter(cfg);
    var locs := ObjectLocations(cfg, [], X, Plain(0, "z"));
    assert locs == [Location([] + [X], 0)] && |rs0| == |rs| == 1 && [] + [X] == [X];
    hide StrayBefore, StrayAfter, NamesLawful, MetaLawful, SpellingLawful, PartPath, ObjectLocations;
    forall file, i | 0 <= i < 1 && ReadsAs(cfg, file, X, "")
      ensures BareAt(cfg, rs0, rs, [], X, ["a", "b"], locs, file, i)
    {
      StrayAt(cfg, file);
    }
    var stray := cfg.make(X, 5, "");
    SpellingReads(cfg, [], X, 5, "", stray);
    StrayFiles(cfg, 5);
    assert PartPath(cfg, [], X, 5, "") == [] + [stray];
    assert ReadsAs(cfg, stray, X, "") && FileAt(rs0[0], [] + [stray]).Some?;
  }

  lemma StrayAt(cfg: Config, file: string)
    requires Lawful(cfg) && NumbersOk(cfg, 6) && ReadsAs(cfg, file, X, "")
    ensures var no := cfg.parse(file).no;
      && FileAt(StrayBefore(cfg)[0], [] + [file]) == (if CanonicalName(cfg, file) then StrayFile(no, false) else None)
      && FileAt(StrayAfter(cfg)[0], [] + [file]) == (if CanonicalName(cfg, file) then StrayFile(no, true) else None)
      && [] + [file] != [X]
  {
    assert [] + [file] == [file];
    StrayCanonical(cfg);
    if CanonicalName(cfg, file) {
      assert PartPath(cfg, [], X, cfg.parse(file).no, "") == [] + [file];
      StrayFiles(cfg, cfg.parse(file).no);
    }
    hide StrayBefore, StrayAfter, NamesLawful;
  }

  lemma StrayCanonical(cfg: Config)
    requires Lawful(cfg) && NumbersOk(cfg, 6)
    ensures forall n :: IsChunkName(cfg, n) && FileAt(StrayBefore(cfg)[0], [] + [n]).Some? ==> CanonicalName(cfg, n)
    ensures forall n :: FileAt(StrayAfter(cfg)[0], [] + [n]).Some? ==> CanonicalName(cfg, n)
  {
    forall no: nat | no < 6
      ensures CanonicalName(cfg, cfg.make(X, no, "")) && ChunkPath(cfg, no, "") == [cfg.make(X, no, "")]
    {
      SpellingReads(cfg, [], X, no, "", cfg.make(X, no, ""));
    }
    hide CanonicalName, NamesLawful;
    assert ChunkPath(cfg, 0, "") == [cfg.make(X, 0, "")] && ChunkPath(cfg, 1, "") == [cfg.make(X, 1, "")];
    forall n | FileAt(StrayAfter(cfg)[0], [] + [n]).Some?
      ensures CanonicalName(cfg, n)
    {
      assert [] + [n] == [n];
    }
    forall n | IsChunkName(cfg, n) && FileAt(StrayBefore(cfg)[0], [] + [n]).Some?
      ensures CanonicalName(cfg, n)
    {
      assert [] + [n] == [n];
      CanonOfX(cfg, n);
    }
  }

  lemma CanonOfX(cfg: Config, n: string)
    requires Lawful(cfg) && IsChunkName(cfg, n)
    ensures n != X
  {
    assert Names.PlainName(cfg.parse(n).main);
  }

  lemma StrayPart(cfg: Config, no: nat)
    requires Lawful(cfg) && NumbersOk(cfg, 6)
    ensures PartExists(cfg, StrayAfter(cfg), [], X, no, "") <==> no in [0, 1, 5]
    ensures no in [0, 1, 5] ==> PartOf(cfg, StrayAfter(cfg), [], X, "", no) == Part(no, 0, "", StrayFile(no, true).GetOr(""))
  {
    var rs := StrayAfter(cfg);
    assert |rs| == 1;
    StrayCanonical(cfg);
    hide StrayAfter, MetaLawful, SpellingLawful, PartPath, Seen, PartExists, PartOf, FileAt;
    assert Canonical(cfg, rs, []);
    hide Canonical;
    CanonicalPart(cfg, rs, [], X, no, "");
    hide NamesLawful;
    if IsNumber(cfg, no) {
      StrayFirst(cfg, no);
    }
  }

  lemma StrayFirst(cfg: Config, no: nat)
    requires Lawful(cfg) && NumbersOk(cfg, 6) && IsNumber(cfg, no)
    ensures var rs, p := StrayAfter(cfg), PartPath(cfg, [], X, no, "");
      FirstFile(rs, p) == (if no in [0, 1, 5] then Some(0) else None) && FirstData(rs, p) == StrayFile(no, true).GetOr("")
  {
    StrayFiles(cfg, no);
    assert |StrayAfter(cfg)| == 1;
    hide StrayAfter, NamesLawful, MetaLawful, SpellingLawful, PartPath;
  }

  lemma StrayParts(cfg: Config)
    requires Lawful(cfg) && NumbersOk(cfg, 6)
    ensures Parts(cfg, StrayAfter(cfg), [], X, "") == STRAY_PARTS
  {
    var rs, ps := StrayAfter(cfg), STRAY_PARTS;
    hide StrayAfter, MetaLawful, NamesLawful, PartPath, PartExists, PartOf;
    assert ps[0] == Part(0, 0, "", "a") && ps[1] == Part(1, 0, "", "b") && ps[2] == Part(5, 0, "", "s");
    forall no: nat
      ensures PartExists(cfg, rs, [], X, no, "") <==> no in [0, 1, 5]
      ensures no in [0, 1, 5] ==> PartOf(cfg, rs, [], X, "", no) == Part(no, 0, "", StrayFile(no, true).GetOr(""))
    {
      StrayPart(cfg, no);
    }
    PartsAre(cfg, rs, [], X, "", ps);
  }

  lemma StrayTotal()
    ensures TotalSize(STRAY_PARTS) == 3
  {
    var ps := STRAY_PARTS;
    assert TotalSize(ps[2..]) == 1 && TotalSize(ps[1..]) == 2;
  }

  lemma StrayListed(cfg: Config)
    requires Lawful(cfg) && NumbersOk(cfg, 6)
    ensures ViewOf(cfg, StrayAfter(cfg), [], X) == Chunked(3, 0, None, STRAY_PARTS)
  {
    StrayParts(cfg);
    StrayTotal();
    StrayBase(cfg);
    var rs := StrayAfter(cfg);
    assert |rs| == 1 && FirstFile(rs, [] + [X]).None?;
    hide StrayAfter, Parts, NamesLawful, MetaLawful, TotalSize;
    ViewBare(cfg, rs, [], X);
  }

  // ---- too many chunks ----

  lemma {:induction false} SplitOnes(data: Bytes)
    ensures |Split(data, 1)| == |data|
  {
    if data != "" { SplitOnes(data[1..]); }
  }

  /** An upload can always be carried through to its last chunk. */
  lemma {:induction false} BuiltUpload(cfg: Config, rs0: Remotes, dir: Path, name: string, x: string, chunks: seq<Bytes>)
      returns (rs: Remotes)
    requires NamesLawful(cfg) && Spellable(cfg, name, |chunks|) && Names.IsXact(x) && |rs0| > 0
    ensures Progress(cfg, rs0, rs, dir, name, x, chunks)
  {
    if chunks == [] {
      rs := rs0;
    } else {
      var n := |chunks| - 1;
      var before := BuiltUpload(cfg, rs0, dir, name, x, chunks[..n]);
      WriteChunk(cfg, rs0, before, dir, name, x, chunks[..n], chunks[n]);
      var i := Target(cfg, |before|, n);
      rs := before[i := Written(before[i], PartPath(cfg, dir, name, n, x), chunks[n])];
      assert chunks[..n] + [chunks[n]] == chunks;
    }
  }

  /** With a chunk size of one byte, every stream of 10000001 bytes ends up as its metadata text. */
  lemma TooManyChunks(o: Options, h: Digests, data: Bytes) returns (rs: Remotes)
    requires Shipped(o, h) && 0 <= o.startFrom && o.chunkSize == 1
    requires |data| == MAX_CHUNKS + 1 && NumbersOk(Cfg(o, h), |data|)
    ensures var cfg := Cfg(o, h);
      && cfg.chunkSize == 1 && Committed(cfg, [map[]], rs, [], X, NEW_XACT, data)
      && var text := cfg.marshal(MetaFor(cfg, data, |data|, NEW_XACT));
         text.Ok? && ViewOf(cfg, rs, [], X) == Plain(0, text.value)
  {
    ShortIsBase(o, h, X);
    InitIsLawful(o, h);
    var cfg := Cfg(o, h);
    assert cfg.chunkSize == 1;
    hide Init, Names.Parse, Names.Make, Lawful, Committed, Split, MetaFor, ViewOf;
    SplitOnes(data);
    rs := UploadAll(cfg, data);
  }

  lemma NothingIsFresh(cfg: Config)
    requires Lawful(cfg)
    ensures Setting(cfg, [map[]], [], X, NEW_XACT)
  {
    hide Seen, Lawful;
    var rs: Remotes := [map[]];
    forall no: nat, i | 0 <= i < |rs|
      ensures FileAt(Seen(cfg, rs)[i], PartPath(cfg, [], X, no, NEW_XACT)).None?
    {
      var n := SeenSome(cfg, rs, i, [], cfg.make(X, no, NEW_XACT));
    }
  }

  lemma UploadAll(cfg: Config, data: Bytes) returns (rs: Remotes)
    requires Lawful(cfg) && 0 < |data| <= MAX_INT64 && NumbersOk(cfg, |Split(data, cfg.chunkSize)|)
    requires IsBaseName(cfg, X)
    ensures Committed(cfg, [map[]], rs, [], X, NEW_XACT, data)
    ensures var n := |Split(data, cfg.chunkSize)|;
      var text := cfg.marshal(MetaFor(cfg, data, n, NEW_XACT));
      text.Ok? && (n > MAX_CHUNKS ==> ViewOf(cfg, rs, [], X) == Plain(0, text.value))
  {
    hide Split, NamesLawful, MetaLawful, Committed, ViewOf, MetaFor;
    var up := BuiltUpload(cfg, [map[]], [], X, NEW_XACT, Split(data, cfg.chunkSize));
    NothingIsFresh(cfg);
    CommitStep(cfg, [map[]], up, [], X, NEW_XACT, data);
    rs := up[0 := Written(up[0], [] + [X], cfg.marshal(MetaFor(cfg, data, |Split(data, cfg.chunkSize)|, NEW_XACT)).value)];
    CommittedIsAfter(cfg, [map[]], rs, [], X, NEW_XACT, data);
  }

  // ---- a name that reads as a chunk name ----

  const CHUNK_NAME := "x.rclone_chunk.001"

  lemma ChunkNameIsMade(o: Options, h: Digests)
    requires Shipped(o, h) && o.startFrom in [0, 1]
    ensures Cfg(o, h).make(X, 0, "") == CHUNK_NAME && Cfg(o, h).startFrom == 1
  {
    NameLaws.DefaultMake(1, X, 0, "");
    assert Print(10, 1) == "1";
    assert FormatInt(1, 3) == "001";
    assert X + Names.MARKER + ("001" + "") == CHUNK_NAME;
    hide Names.Make, FormatInt;
  }

  /** A file of that name, small or metadata, never lists: it becomes chunk 0 of "x", which was not there. */
  lemma ChunkNameSwallowed(o: Options, h: Digests, data: Bytes)
    requires Shipped(o, h) && o.startFrom in [0, 1]
    ensures var cfg := Cfg(o, h); var rs0, rs: Remotes := [map[]], [map[[CHUNK_NAME] := File(data)]];
      && Lawful(cfg) && Landed(cfg, rs0, rs, [], CHUNK_NAME, data) && Intrudes(cfg, rs0, [], CHUNK_NAME, data)
      && ViewOf(cfg, rs, [], CHUNK_NAME) == Absent
      && ViewOf(cfg, rs0, [], X) == Absent && ViewOf(cfg, rs, [], X) == Chunked(|data|, 0, None, [Part(0, 0, "", data)])
  {
    InitIsLawful(o, h);
    ChunkNameIsMade(o, h);
    var cfg := Cfg(o, h);
    hide Init, Names.Parse, Names.Make;
    SpellingReads(cfg, [], X, 0, "", CHUNK_NAME);
    Swallowed(cfg, CHUNK_NAME, data);
  }

  /** A file whose name reads as chunk 0 of "x", in whatever spelling, on an empty remote. */
  lemma Swallowed(cfg: Config, name: string, data: Bytes)
    requires Lawful(cfg) && cfg.parse(name) == Names.Match(X, 0, "", "")
    ensures var rs0, rs: Remotes := [map[]], [map[[name] := File(data)]];
      && Landed(cfg, rs0, rs, [], name, data) && Intrudes(cfg, rs0, [], name, data)
      && ViewOf(cfg, rs, [], name) == Absent
      && ViewOf(cfg, rs0, [], X) == Absent && ViewOf(cfg, rs, [], X) == Chunked(|data|, 0, None, [Part(0, 0, "", data)])
  {
    hide ViewOf, Intrudes, MetaLawful, SpellingLawful;
    var rs0, rs: Remotes := [map[]], [map[[name] := File(data)]];
    SwallowedLists(cfg, name, data);
    EmptyDirectory(cfg, rs0, [], X);
    assert [] + [name] == [name];
    assert Landed(cfg, rs0, rs, [], name, data) && Alone(cfg, rs0, [], name);
    hide NamesLawful, Landed, Alone;
    LandedOthers(cfg, rs0, rs, [], name, data);
  }

  lemma SwallowedLists(cfg: Config, name: string, data: Bytes)
    requires Lawful(cfg) && cfg.parse(name) == Names.Match(X, 0, "", "")
    ensures X != name
    ensures var rs: Remotes := [map[[name] := File(data)]];
      ViewOf(cfg, rs, [], name) == Absent && ViewOf(cfg, rs, [], X) == Chunked(|data|, 0, None, [Part(0, 0, "", data)])
  {
    hide Seen, Parts, ViewOf, MetaLawful, SpellingLawful;
    var rs: Remotes := [map[[name] := File(data)]];
    var ps := [Part(0, 0, "", data)];
    assert [] + [name] == [name] && [] + [X] == [X] && X != name;
    assert FirstFile(rs, [] + [X]).None?;
    forall file | ReadsAs(cfg, file, name, "")
      ensures FileAt(rs[0], [] + [file]).None?
    {
      assert [] + [file] == [file];
    }
    AbsentExactly(cfg, rs, [], name);
    SwallowedPart(cfg, name, data);
    hide NamesLawful, FirstFile;
    ViewBare(cfg, rs, [], X);
    assert TotalSize(ps[1..]) == 0 && TotalSize(ps) == |data|;
  }

  lemma SwallowedPart(cfg: Config, name: string, data: Bytes)
    requires Lawful(cfg) && cfg.parse(name) == Names.Match(X, 0, "", "")
    ensures Parts(cfg, [map[[name] := File(data)]], [], X, "") == [Part(0, 0, "", data)]
  {
    var rs: Remotes := [map[[name] := File(data)]];
    var ps := [Part(0, 0, "", data)];
    forall no: nat
      ensures PartExists(cfg, rs, [], X, no, "") <==> no == 0
      ensures no == 0 ==> PartOf(cfg, rs, [], X, "", no) == ps[0]
    {
      SwallowedChunk(cfg, name, data, no);
    }
    hide PartExists, PartOf, NamesLawful, MetaLawful, PartPath, Seen;
    forall no: nat | PartExists(cfg, rs, [], X, no, "")
      ensures exists j :: 0 <= j < |ps| && ps[j].no == no
    {
      assert ps[0].no == no;
    }
    PartsAre(cfg, rs, [], X, "", ps);
  }

  lemma SwallowedChunk(cfg: Config, name: string, data: Bytes, no: nat)
    requires Lawful(cfg) && cfg.parse(name) == Names.Match(X, 0, "", "")
    ensures var rs: Remotes := [map[[name] := File(data)]];
      && (PartExists(cfg, rs, [], X, no, "") <==> no == 0)
      && (no == 0 ==> PartOf(cfg, rs, [], X, "", no) == Part(0, 0, "", data))
  {
    hide Seen;
    var rs: Remotes := [map[[name] := File(data)]];
    assert [] + [name] == [name] && Canon(cfg, name) == cfg.make(X, 0, "");
    if no == 0 {
      forall k | FileAt(rs[0], [] + [k]).Some?
        ensures k == name
      {
        assert [] + [k] == [k];
      }
      SeenOnly(cfg, rs, 0, [], name);
      assert FileAt(Seen(cfg, rs)[0], PartPath(cfg, [], X, 0, "")) == Some(data);
      assert FirstFile(Seen(cfg, rs), PartPath(cfg, [], X, 0, "")) == Some(0);
    } else if IsNumber(cfg, no) {
      var n := SeenSome(cfg, rs, 0, [], cfg.make(X, no, ""));
      SpellingReads(cfg, [], X, no, "", n);
      assert [] + [n] == [n];
    }
  }

  // ---- the same in another spelling ----

  const PADDED_NAME := "x.rclone_chunk.0001"

  lemma PaddedReads(o: Options, h: Digests)
    requires Shipped(o, h) && o.startFrom in [0, 1]
    ensures var cfg := Cfg(o, h);
      && cfg.parse(PADDED_NAME) == Names.Match(X, 0, "", "") && !CanonicalName(cfg, PADDED_NAME) && cfg.make(X, 0, "") == CHUNK_NAME
  {
    ChunkNameIsMade(o, h);
    hide Names.Make, Names.Parse;
    NameLaws.AnyPaddingReads(1, X, 0, 4, "");
    OnePrints();
    assert X + Names.MARKER + ("0001" + "") == PADDED_NAME;
    hide FormatInt, Init;
  }

  /** A file under a name with one digit more than the chunker writes: it never lists, "x" appears, which was not
      there, and cannot be read. */
  lemma PaddedNameSwallowed(o: Options, h: Digests, data: Bytes)
    requires Shipped(o, h) && o.startFrom in [0, 1]
    ensures var cfg := Cfg(o, h); var rs0, rs: Remotes := [map[]], [map[[PADDED_NAME] := File(data)]];
      && Lawful(cfg) && Landed(cfg, rs0, rs, [], PADDED_NAME, data) && Intrudes(cfg, rs0, [], PADDED_NAME, data)
      && ViewOf(cfg, rs, [], PADDED_NAME) == Absent && ViewOf(cfg, rs0, [], X) == Absent
      && ViewOf(cfg, rs, [], X) == Chunked(|data|, 0, None, [Part(0, 0, "", data)])
      && !AllLinked(cfg, rs, [], X, [Part(0, 0, "", data)])
  {
    InitIsLawful(o, h);
    PaddedReads(o, h);
    var cfg := Cfg(o, h);
    hide Init, Names.Parse, Names.Make, ViewOf;
    Swallowed(cfg, PADDED_NAME, data);
    PaddedNotLinked(cfg, data);
  }

  lemma PaddedNotLinked(cfg: Config, data: Bytes)
    requires cfg.make(X, 0, "") != PADDED_NAME
    ensures !AllLinked(cfg, [map[[PADDED_NAME] := File(data)]], [], X, [Part(0, 0, "", data)])
  {
    var parts := [Part(0, 0, "", data)];
    assert PartPath(cfg, [], X, 0, "") == [cfg.make(X, 0, "")];
    assert !IsLinked(cfg, [map[[PADDED_NAME] := File(data)]], [], X, parts[0]);
  }

  /** An untagged chunk 5 of "x" spelled so is stray for every Put of fewer chunks in format none, and a chunk 0 mixes
      with the new one. */
  lemma PaddedStray(o: Options, h: Digests)
    requires Shipped(o, h) && o.startFrom in [0, 1]
    ensures var cfg := Cfg(o, h); var rs0: Remotes := [map[["x.rclone_chunk.0006"] := File("s")]];
      && Lawful(cfg) && ViewOf(cfg, rs0, [], X) != Absent
      && forall locs, n :: n <= 5 && Location([] + ["x.rclone_chunk.0006"], 0) !in locs ==> !NoStrays(cfg, rs0, [], X, locs, n)
    ensures var cfg := Cfg(o, h); var rs0: Remotes := [map[[PADDED_NAME] := File("s")]];
      forall locs, n :: n > 0 && Location([] + [PADDED_NAME], 0) !in locs ==> !Unmixed(cfg, rs0, [], X, locs, n)
  {
    InitIsLawful(o, h);
    PaddedReads(o, h);
    SixReads(o, h);
    var cfg := Cfg(o, h);
    hide Init, Names.Parse, Names.Make, ViewOf;
    StrayCounts(cfg, "x.rclone_chunk.0006");
    MixedCounts(cfg, PADDED_NAME);
  }

  lemma SixReads(o: Options, h: Digests)
    requires Shipped(o, h) && o.startFrom in [0, 1]
    ensures Cfg(o, h).parse("x.rclone_chunk.0006") == Names.Match(X, 5, "", "")
  {
    ChunkNameIsMade(o, h);
    hide Names.Make, Names.Parse;
    NameLaws.AnyPaddingReads(1, X, 5, 4, "");
    SixPrints();
    assert X + Names.MARKER + ("0006" + "") == "x.rclone_chunk.0006";
    hide FormatInt, Init;
  }

  lemma OnePrints()
    ensures FormatInt(1, 4) == "0001"
  {
    assert Print(10, 1) == "1";
  }

  lemma SixPrints()
    ensures FormatInt(6, 4) == "0006"
  {
    assert Print(10, 6) == "6";
  }

  lemma StrayCounts(cfg: Config, name: string)
    requires Lawful(cfg) && cfg.parse(name) == Names.Match(X, 5, "", "")
    ensures var rs0: Remotes := [map[[name] := File("s")]];
      && ViewOf(cfg, rs0, [], X) != Absent
      && forall locs, n :: n <= 5 && Location([] + [name], 0) !in locs ==> !NoStrays(cfg, rs0, [], X, locs, n)
  {
    var rs0: Remotes := [map[[name] := File("s")]];
    assert [] + [name] == [name];
    assert ReadsAs(cfg, name, X, "") && FileAt(rs0[0], [] + [name]).Some?;
    hide ViewOf;
    AbsentExactly(cfg, rs0, [], X);
  }

  lemma MixedCounts(cfg: Config, name: string)
    requires Lawful(cfg) && cfg.parse(name) == Names.Match(X, 0, "", "") && !CanonicalName(cfg, name)
    ensures var rs0: Remotes := [map[[name] := File("s")]];
      forall locs, n :: n > 0 && Location([] + [name], 0) !in locs ==> !Unmixed(cfg, rs0, [], X, locs, n)
  {
    var rs0: Remotes := [map[[name] := File("s")]];
    assert [] + [name] == [name];
    assert ReadsAs(cfg, name, X, "") && FileAt(rs0[0], [] + [name]).Some? && Target(cfg, 1, 0) == 0;
  }

  // ---- a plain file renamed to a name that reads as a chunk name ----

  function FileY(data: Bytes): Remotes {
    [map[["y"] := File(data)]]
  }

  function RenameY(cfg: Config, name: string, data: Bytes): Renaming {
    Renaming(cfg, FileY(data), [], "y", name, [Item(0, "", 0, true)])
  }

  /** The finished rename of the plain file "y" to that name: nothing lists under either name, and "x" appears. */
  lemma RenamedIntoChunk(o: Options, h: Digests, data: Bytes)
    requires Shipped(o, h) && o.startFrom in [0, 1]
    ensures var cfg := Cfg(o, h); var job := RenameY(cfg, CHUNK_NAME, data); var rs: Remotes := [map[[CHUNK_NAME] := File(data)]];
      && Lawful(cfg) && ViewOf(cfg, job.rs0, [], "y") == Plain(0, data) && job.items == ItemsOf(Plain(0, data))
      && job.Sound() && job.Done(rs, 1) && RenameIntrudes(job, Plain(0, data))
      && ViewOf(cfg, rs, [], "y") == Absent && ViewOf(cfg, rs, [], CHUNK_NAME) == Absent
      && ViewOf(cfg, job.rs0, [], X) == Absent && ViewOf(cfg, rs, [], X) == Chunked(|data|, 0, None, [Part(0, 0, "", data)])
  {
    InitIsLawful(o, h);
    ChunkNameIsMade(o, h);
    ChunkNameSwallowed(o, h, data);
    ShortIsBase(o, h, "y");
    var cfg := Cfg(o, h);
    hide Init, Names.Parse, Names.Make, ViewOf, Lawful;
    RenamedY(cfg, CHUNK_NAME, data);
  }

  lemma RenamedY(cfg: Config, name: string, data: Bytes)
    requires Lawful(cfg) && IsBaseName(cfg, "y") && IsNumber(cfg, 0) && name != "y" && name == cfg.make(X, 0, "")
    requires ViewOf(cfg, [map[[name] := File(data)]], [], X) != Absent
    ensures var job := RenameY(cfg, name, data); var rs: Remotes := [map[[name] := File(data)]];
      && ViewOf(cfg, job.rs0, [], "y") == Plain(0, data) && ViewOf(cfg, job.rs0, [], X) == Absent
      && job.items == ItemsOf(Plain(0, data)) && job.Sound() && job.Done(rs, 1) && RenameIntrudes(job, Plain(0, data))
      && ViewOf(cfg, rs, [], "y") == Absent
  {
    var job := RenameY(cfg, name, data);
    var rs: Remotes := [map[[name] := File(data)]];
    assert cfg.parse(name) == Names.Match(X, 0, "", "") && name != X;
    hide ViewOf, MetaLawful, NamesLawful, SpellingLawful, Renaming.Sound, Renaming.Done, RenameIntrudes, Vacated, FileY;
    FileYLists(cfg, data);
    RenamingIsSound(cfg, FileY(data), [], "y", name, Plain(0, data));
    YMoved(cfg, name, data);
    YVacated(cfg, name, data);
    RenameVacates(cfg, job, rs);
    XAppears(cfg, job, rs, Plain(0, data));
  }

  /** A third name that lists differently shows that the rename intrudes. */
  lemma XAppears(cfg: Config, job: Renaming, rs: Remotes, v: View)
    requires job.cfg == cfg && job.Sound() && job.Done(rs, |job.items|) && job.items == ItemsOf(v)
    requires v == ViewOf(cfg, job.rs0, job.dir, job.name) && X != job.name && X != job.newName
    requires ViewOf(cfg, rs, job.dir, X) != ViewOf(cfg, job.rs0, job.dir, X)
    ensures RenameIntrudes(job, v)
  {
    hide ViewOf, Renaming.Sound, Renaming.Done, RenameIntrudes, ItemsOf;
    RenameKeepsOthers(cfg, job, rs, |job.items|, v);
  }

  lemma FileYLists(cfg: Config, data: Bytes)
    requires Lawful(cfg) && IsBaseName(cfg, "y")
    ensures ViewOf(cfg, FileY(data), [], "y") == Plain(0, data) && ViewOf(cfg, FileY(data), [], X) == Absent
  {
    var rs := FileY(data);
    assert [] + ["y"] == ["y"] && [] + [X] == [X] && FileAt(rs[0], ["y"]) == Some(data) && FirstFile(rs, ["y"]) == Some(0);
    hide Seen, AnyPart, ViewOf;
    forall i, file | 0 <= i < 1 && IsChunkName(cfg, file)
      ensures FileAt(rs[i], [] + [file]).None?
    {
      assert [] + [file] == [file];
    }
    AnyPartIsRead(cfg, rs, [], "y");
    AbsentExactly(cfg, rs, [], X);
    assert FileAt(rs[0], [X]).None?;
    ViewPlain(cfg, rs, [], "y", 0, data);
  }

  lemma YMoved(cfg: Config, name: string, data: Bytes)
    requires name != "y"
    ensures RenameY(cfg, name, data).Done([map[[name] := File(data)]], 1)
  {
    var job := RenameY(cfg, name, data);
    var rs: Remotes := [map[[name] := File(data)]];
    assert [] + ["y"] == ["y"] && [] + [name] == [name];
    forall p
      ensures FileAt(rs[0], p) == job.Expected(0, p, 1)
    {
      assert job.items[..1] == job.items && FileAt(job.rs0[0], ["y"]) == Some(data);
      if |p| == 1 { assert p == [p[0]] && p[..0] == []; }
      if job.ItemAt("y", 0, p).Some? { job.ItemAtPath("y", 0, p); }
      if job.ItemAt(name, 0, p).Some? { job.ItemAtPath(name, 0, p); }
    }
  }

  lemma YVacated(cfg: Config, name: string, data: Bytes)
    requires Lawful(cfg) && IsBaseName(cfg, "y") && cfg.parse(name) == Names.Match(X, 0, "", "")
    ensures Vacated(cfg, RenameY(cfg, name, data))
  {
    forall file | ReadsAs(cfg, file, "y", "")
      ensures FileAt(FileY(data)[0], [] + [file]).None?
    {
      assert [] + [file] == [file];
    }
  }

  // ---- what a Put in format "none" removes besides ----

  /** "x" is an untagged object of the one chunk "x.rclone_chunk.001".  A large Put under that chunk's name
      can succeed and list whole; its clearing step has removed the chunk, and "x" is gone. */
  lemma ChunkPlucked(o: Options, h: Digests, chunk: Bytes, data: Bytes)
    requires Shipped(o, h) && o.startFrom in [0, 1] && o.metaFormat == "none"
    requires Cfg(o, h).chunkSize < |data| && Spellable(Cfg(o, h), CHUNK_NAME, |Split(data, Cfg(o, h).chunkSize)|)
    ensures var cfg := Cfg(o, h); var rs0: Remotes := [map[[CHUNK_NAME] := File(chunk)]];
      var locs := ObjectLocations(cfg, [], CHUNK_NAME, ViewOf(cfg, rs0, [], CHUNK_NAME));
      && cfg.metaFormat == NoMeta && ViewOf(cfg, rs0, [], X) == Chunked(|chunk|, 0, None, [Part(0, 0, "", chunk)])
      && cfg.chunkSize > 0 && Replaced(cfg, rs0, [], CHUNK_NAME, data, locs, [true])
      && Unmixed(cfg, rs0, [], CHUNK_NAME, locs, |Split(data, cfg.chunkSize)|)
      && ViewOf(cfg, Swept(rs0, [] + [CHUNK_NAME], [true]), [], X) == Absent
      && !SweepSpares(cfg, rs0, [], CHUNK_NAME, [true])
  {
    InitIsLawful(o, h);
    ChunkNameIsMade(o, h);
    ChunkNameSwallowed(o, h, chunk);
    var cfg := Cfg(o, h);
    assert cfg.metaFormat == NoMeta;
    hide Init, Names.Parse, Names.Make, ViewOf, Lawful, SweepSpares, Split;
    Plucked(cfg, chunk, data);
  }

  lemma Plucked(cfg: Config, chunk: Bytes, data: Bytes)
    requires Lawful(cfg) && IsNumber(cfg, 0) && CHUNK_NAME == cfg.make(X, 0, "")
    requires Spellable(cfg, CHUNK_NAME, |Split(data, cfg.chunkSize)|)
    requires ViewOf(cfg, [map[]], [], X) == Absent && ViewOf(cfg, [map[[CHUNK_NAME] := File(chunk)]], [], X) != Absent
    ensures var rs0: Remotes := [map[[CHUNK_NAME] := File(chunk)]];
      && Replaced(cfg, rs0, [], CHUNK_NAME, data, [], [true])
      && Unmixed(cfg, rs0, [], CHUNK_NAME, [], |Split(data, cfg.chunkSize)|)
      && Swept(rs0, [] + [CHUNK_NAME], [true]) == [map[]]
      && !SweepSpares(cfg, rs0, [], CHUNK_NAME, [true])
  {
    var rs0: Remotes := [map[[CHUNK_NAME] := File(chunk)]];
    var empty: Remotes := [map[]];
    assert [] + [CHUNK_NAME] == [CHUNK_NAME];
    assert Swept(rs0, [] + [CHUNK_NAME], [true])[0] == empty[0];
    assert Swept(rs0, [] + [CHUNK_NAME], [true]) == empty;
    NoOwnChunk(cfg, chunk);
    SpellingReads(cfg, [], X, 0, "", CHUNK_NAME);
    hide ViewOf, Split, Disturbs, MetaLawful, Seen, Survives, Lost;
    SweptOthers(cfg, rs0, [], CHUNK_NAME, [true]);
    assert X != CHUNK_NAME;
  }

  lemma NoOwnChunk(cfg: Config, chunk: Bytes)
    requires Lawful(cfg)
    ensures forall file :: ReadsAs(cfg, file, CHUNK_NAME, "") ==> FileAt(map[[CHUNK_NAME] := File(chunk)], [] + [file]).None?
  {
    forall file | ReadsAs(cfg, file, CHUNK_NAME, "")
      ensures [] + [file] != [CHUNK_NAME]
    {
      assert [] + [file] == [file];
    }
  }

  function DirectoryState(): Remotes {
    [map[], map[[X] := Dir, [X, "y"] := File("v")]]
  }

  /** The second remote has a directory "x" with a file in it.  The clearing step of a Put of "x" takes the
      directory with it. */
  lemma DirectorySwept(o: Options, h: Digests)
    requires Shipped(o, h)
    ensures var cfg := Cfg(o, h); var rs0 := DirectoryState();
      && ParentsExist(rs0) && ViewOf(cfg, rs0, [X], "y") == Plain(1, "v")
      && ViewOf(cfg, Swept(rs0, [] + [X], [true, true]), [X], "y") == Absent
      && !SweepSpares(cfg, rs0, [], X, [true, true])
  {
    ShortIsBase(o, h, X);
    ShortIsBase(o, h, "y");
    InitIsLawful(o, h);
    var cfg := Cfg(o, h);
    hide Init, Names.Parse, Names.Make, ViewOf, Swept, DirectoryState, Lawful, SweepSpares;
    DirectoryLists(cfg);
    DirectoryParents();
    DirectoryGone(cfg);
  }

  lemma DirectoryGone(cfg: Config)
    requires Lawful(cfg) && ParentsExist(DirectoryState()) && ViewOf(cfg, DirectoryState(), [X], "y") == Plain(1, "v")
    ensures var rs0 := DirectoryState();
      && ViewOf(cfg, Swept(rs0, [] + [X], [true, true]), [X], "y") == Absent
      && !SweepSpares(cfg, rs0, [], X, [true, true])
  {
    var rs0 := DirectoryState();
    forall i, k | 0 <= i < 2
      ensures FileAt(Swept(rs0, [] + [X], [true, true])[i], [X] + [k]).None?
    {
      NothingLeft(rs0, [] + [X], [true, true], i, [X] + [k]);
    }
    hide ViewOf, Swept, DirectoryState, Disturbs, Survives, Lost, ChunkWinner;
    EmptyDirectory(cfg, Swept(rs0, [] + [X], [true, true]), [X], "y");
    assert [] + [X] <= [X] && ([X], "y") != ([], X);
    hide NamesLawful, SpellingLawful, MetaLawful;
    SweptOthers(cfg, rs0, [], X, [true, true]);
  }

  lemma DirectoryParents()
    ensures ParentsExist(DirectoryState())
  {
    var rs := DirectoryState();
    forall i, d: Path, n | 0 <= i < |rs| && d + [n] in rs[i]
      ensures IsDir(rs[i], d)
    {
      if d + [n] == [X] { assert |d| == 0; }
      if d + [n] == [X, "y"] { assert d == [X, "y"][..1] == [X]; }
    }
  }

  lemma DirectoryLists(cfg: Config)
    requires Lawful(cfg) && IsBaseName(cfg, "y")
    ensures ViewOf(cfg, DirectoryState(), [X], "y") == Plain(1, "v")
  {
    var rs := DirectoryState();
    assert [X] + ["y"] == [X, "y"];
    assert FileAt(rs[0], [X, "y"]) == None && FileAt(rs[1], [X, "y"]) == Some("v");
    assert FirstFile(rs, [X, "y"]) == Some(1);
    hide Seen, AnyPart;
    forall i, file | 0 <= i < 2 && IsChunkName(cfg, file)
      ensures FileAt(rs[i], [X] + [file]).None?
    {
      assert [X] + [file] == [X, file];
    }
    AnyPartIsRead(cfg, rs, [X], "y");
    hide NamesLawful, MetaLawful, DirectoryState;
    ViewPlain(cfg, rs, [X], "y", 1, "v");
  }

  // ---- a negative number base ----

  /** Init accepts it, and then no state whatever lists a name as a new chunked object. */
  lemma NegativeBaseNeverLists(o: Options, h: Digests, rs: Remotes, dir: Path, name: string, x: string, data: Bytes)
    requires Shipped(o, h) && o.startFrom < 0 && |rs| > 0 && data != ""
    ensures var cfg := Cfg(o, h);
      && Lawful(cfg)
      && ViewOf(cfg, rs, dir, name) != NewView(cfg, |rs|, data, x) && ViewOf(cfg, rs, dir, name) != BareView(cfg, |rs|, data)
  {
    InitIsLawful(o, h);
    var cfg := Cfg(o, h);
    assert cfg.startFrom < 0;
    hide Init, Names.Parse, Names.Make, ViewOf;
    assert Split(data, cfg.chunkSize) != [];
    if ViewOf(cfg, rs, dir, name) == NewView(cfg, |rs|, data, x) {
      OnlyListable(cfg, rs, dir, name, x, data);
    }
    if ViewOf(cfg, rs, dir, name) == BareView(cfg, |rs|, data) {
      OnlySpellable(cfg, rs, dir, name, data);
    }
  }

  /** Instead a chunk whose number does not print, or whose main name has several lines, lists as a file
      of its own. */
  lemma UnspellableShows(o: Options, h: Digests, rs: Remotes, dir: Path, name: string, no: nat, x: string)
    requires Shipped(o, h) && no <= MAX_INT64 && Names.IsXact(x)
    requires !(Names.PlainName(name) && IsNumber(Cfg(o, h), no))
    requires FirstFile(rs, PartPath(Cfg(o, h), dir, name, no, x)).Some?
    ensures var cfg := Cfg(o, h);
      IsBaseName(cfg, cfg.make(name, no, x)) && ViewOf(cfg, rs, dir, cfg.make(name, no, x)) != Absent
  {
    var cfg := Cfg(o, h);
    NameLaws.UnspellableUnread(cfg.startFrom, name, no, x);
    hide Names.Parse, Names.Make;
    assert IsBaseName(cfg, cfg.make(name, no, x));
    hide Parts, AnyPart;
  }
}
