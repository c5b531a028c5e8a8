/**
 What a directory listing of the chunker shows for one logical name, as a function of the remotes.
 This is the specification that the imperative listing is proved against and that the protocol
 theorems speak about.
 */
module ChunkView {
  import opened Prelude
  import opened RemoteStore
  import Names = ChunkNames

  datatype MetaFormat = SimpleJson | NoMeta

  datatype HashType = NoHash | Md5 | Sha1

  /** The metadata record; the version follows from the transaction id. */
  datatype Meta = Meta(version: int, size: int, nChunks: int, md5: string, sha1: string, xact: string)

  /** One selected chunk: number, winning remote, transaction id and bytes. */
  datatype Part = Part(no: nat, remote: nat, xact: string, data: Bytes)

  /** A logical name as listed: not there, one base file, or a list of chunks with or without metadata. */
  datatype View =
    | Absent
    | Plain(remote: nat, data: Bytes)
    | Chunked(size: int, main: nat, meta: Option<Meta>, parts: seq<Part>)

  /** The storage's options.  Chunk naming, the metadata codec and the two digests are functions, so
      the theorems hold for every naming scheme and codec that obey `Lawful`. */
  datatype Config = Config(
    chunkSize: int,
    startFrom: int,
    metaFormat: MetaFormat,
    hashType: HashType,
    storeChunksInPrimary: bool,
    make: (string, nat, string) -> string,
    parse: string -> Names.Parsed,
    marshal: Meta -> Result<Bytes>,
    unmarshal: Bytes -> Option<Meta>,
    md5: Bytes -> string,
    sha1: Bytes -> string)

  const MAX_META_READ := 1023
  const MAX_META_WRITE := 255
  const MAX_CHUNKS := 10_000_000

  predicate IsNumber(cfg: Config, no: nat) {
    Names.IsNumber(cfg.startFrom, no)
  }

  /** Made names read back, and whatever reads as a data chunk has a shorter main name and number and id in range. */
  ghost predicate NamesLawful(cfg: Config) {
    && (forall name, no: nat, x ::
          Names.PlainName(name) && IsNumber(cfg, no) && Names.IsXact(x) ==>
            cfg.parse(cfg.make(name, no, x)) == Names.Match(name, no, "", x) && cfg.make(name, no, x) != name)
    && (forall s ::
          cfg.parse(s).Match? && cfg.parse(s).ctrl == "" ==>
            Names.PlainName(cfg.parse(s).main) && |cfg.parse(s).main| < |s| && cfg.parse(s).no >= 0
            && IsNumber(cfg, cfg.parse(s).no) && Names.IsXact(cfg.parse(s).xact))
  }

  /** A made name is longer than its main name, and reads as no chunk at all if the main name has several
      lines or the number is out of range. */
  ghost predicate SpellingLawful(cfg: Config) {
    forall name, no: nat, x :: no <= MAX_INT64 && Names.IsXact(x) ==>
      && |cfg.make(name, no, x)| > |name|
      && (!(Names.PlainName(name) && IsNumber(cfg, no)) ==> cfg.parse(cfg.make(name, no, x)).NoMatch?)
  }

  predicate IsHash(h: string, n: nat) {
    h == "" || (|h| == n && forall i :: 0 <= i < n ==> '0' <= h[i] <= '9' || 'a' <= h[i] <= 'f')
  }

  /** Metadata a Put writes: version 2 with a transaction id, version 1 without. */
  predicate Writable(m: Meta) {
    && m.version == (if m.xact == "" then 1 else 2)
    && 0 <= m.size <= MAX_INT64 && 1 <= m.nChunks <= MAX_INT64
    && IsHash(m.md5, 32) && IsHash(m.sha1, 40) && Names.IsXact(m.xact)
  }

  /** Written metadata fits the limit and reads back, unless it counts too many chunks; none that counts
      no chunk or too many is ever accepted. */
  ghost predicate MetaLawful(cfg: Config) {
    && (forall m :: Writable(m) ==>
          && cfg.marshal(m).Ok? && |cfg.marshal(m).value| < MAX_META_WRITE
          && cfg.unmarshal(cfg.marshal(m).value) == if m.nChunks <= MAX_CHUNKS then Some(m) else None)
    && (forall data :: cfg.unmarshal(data).Some? ==> 1 <= cfg.unmarshal(data).value.nChunks <= MAX_CHUNKS)
    && (forall data :: IsHash(cfg.md5(data), 32))
    && (forall data :: IsHash(cfg.sha1(data), 40))
  }

  ghost predicate Lawful(cfg: Config) {
    cfg.chunkSize > 0 && NamesLawful(cfg) && SpellingLawful(cfg) && MetaLawful(cfg)
  }

  // ---- how chunk files are spelled ----

  /** The name reads as a data chunk of another name, in whatever spelling. */
  predicate IsChunkName(cfg: Config, n: string) {
    cfg.parse(n).Match? && cfg.parse(n).ctrl == "" && cfg.parse(n).no >= 0
  }

  /** How the chunker itself spells the chunk that a file name reads as; other names stay as they are. */
  function Canon(cfg: Config, n: string): string {
    if IsChunkName(cfg, n) then cfg.make(cfg.parse(n).main, cfg.parse(n).no, cfg.parse(n).xact) else n
  }

  predicate CanonicalName(cfg: Config, n: string) {
    Canon(cfg, n) == n
  }

  lemma CanonParses(cfg: Config, n: string)
    requires NamesLawful(cfg)
    ensures cfg.parse(Canon(cfg, n)) == cfg.parse(n) && CanonicalName(cfg, Canon(cfg, n))
  {
  }

  /** The names under which a directory of one remote holds a file that reads like `m`. */
  ghost function Spellings(cfg: Config, r: Remote, dir: Path, m: string): set<string> {
    set p | p in r && r[p].File? && |p| == |dir| + 1 && p[..|dir|] == dir && Canon(cfg, p[|dir|]) == m :: p[|dir|]
  }

  lemma SpellingsMembers(cfg: Config, r: Remote, dir: Path, m: string)
    ensures forall n :: n in Spellings(cfg, r, dir, m) <==> FileAt(r, dir + [n]).Some? && Canon(cfg, n) == m
  {
    hide Canon;
    forall n
      ensures n in Spellings(cfg, r, dir, m) <==> FileAt(r, dir + [n]).Some? && Canon(cfg, n) == m
    {
      assert (dir + [n])[..|dir|] == dir && (dir + [n])[|dir|] == n;
      if n in Spellings(cfg, r, dir, m) {
        var p :| p in r && r[p].File? && |p| == |dir| + 1 && p[..|dir|] == dir && Canon(cfg, p[|dir|]) == m && p[|dir|] == n;
        assert p == dir + [n];
      }
    }
  }

  /** Which of several spellings of one chunk on one remote a listing takes is left open. */
  ghost function Pick(names: set<string>): (n: string)
    requires names != {}
    ensures n in names
  {
    var n :| n in names;
    n
  }

  ghost function SeenData(cfg: Config, r: Remote, p: Path): Option<Bytes> {
    if p == [] then None
    else
      var dir := p[..|p| - 1];
      var names := Spellings(cfg, r, dir, p[|p| - 1]);
      if names == {} then None else FileAt(r, dir + [Pick(names)])
  }

  ghost function SeenRemote(cfg: Config, r: Remote): Remote {
    var paths := set p | p in r && p != [] :: p[..|p| - 1] + [Canon(cfg, p[|p| - 1])];
    map p | p in paths && SeenData(cfg, r, p).Some? :: File(SeenData(cfg, r, p).value)
  }

  /** The files of the remotes as a listing takes them: every chunk file under its canonical name. */
  ghost function Seen(cfg: Config, rs: Remotes): (s: Remotes)
    ensures |s| == |rs|
  {
    seq(|rs|, i requires 0 <= i < |rs| => SeenRemote(cfg, rs[i]))
  }

  lemma SeenFile(cfg: Config, rs: Remotes, i: nat, dir: Path, m: string)
    requires i < |rs|
    ensures var names := Spellings(cfg, rs[i], dir, m);
      FileAt(Seen(cfg, rs)[i], dir + [m]) == if names == {} then None else FileAt(rs[i], dir + [Pick(names)])
  {
    var r, p := rs[i], dir + [m];
    var names := Spellings(cfg, r, dir, m);
    assert p[..|p| - 1] == dir && p[|p| - 1] == m;
    SpellingsMembers(cfg, r, dir, m);
    if names != {} {
      var q := dir + [Pick(names)];
      assert q[..|q| - 1] == dir && q[|q| - 1] == Pick(names) && q in r;
    }
    hide Spellings, Canon;
  }

  /** A chunk is seen exactly if some file reads as it, and then it is one of these. */
  lemma SeenSome(cfg: Config, rs: Remotes, i: nat, dir: Path, m: string) returns (n: string)
    requires i < |rs|
    ensures FileAt(Seen(cfg, rs)[i], dir + [m]).Some? ==>
      Canon(cfg, n) == m && FileAt(rs[i], dir + [n]) == FileAt(Seen(cfg, rs)[i], dir + [m])
    ensures FileAt(Seen(cfg, rs)[i], dir + [m]).None? ==> forall k :: Canon(cfg, k) == m ==> FileAt(rs[i], dir + [k]).None?
  {
    SeenFile(cfg, rs, i, dir, m);
    SpellingsMembers(cfg, rs[i], dir, m);
    hide Seen, Spellings, Canon;
    var names := Spellings(cfg, rs[i], dir, m);
    n := if names == {} then "" else Pick(names);
  }

  /** What has no second spelling is seen as it is. */
  lemma SeenOnly(cfg: Config, rs: Remotes, i: nat, dir: Path, n: string)
    requires i < |rs|
    requires forall k :: Canon(cfg, k) == Canon(cfg, n) && FileAt(rs[i], dir + [k]).Some? ==> k == n
    ensures FileAt(Seen(cfg, rs)[i], dir + [Canon(cfg, n)]) == FileAt(rs[i], dir + [n])
  {
    SeenFile(cfg, rs, i, dir, Canon(cfg, n));
    SpellingsMembers(cfg, rs[i], dir, Canon(cfg, n));
    hide Seen, Spellings, Canon;
  }

  /** So is what reads as no chunk. */
  lemma SeenPlain(cfg: Config, rs: Remotes, i: nat, dir: Path, n: string)
    requires NamesLawful(cfg) && i < |rs| && !IsChunkName(cfg, n)
    ensures FileAt(Seen(cfg, rs)[i], dir + [n]) == FileAt(rs[i], dir + [n])
  {
    forall k | Canon(cfg, k) == Canon(cfg, n)
      ensures k == n
    {
      CanonParses(cfg, k);
    }
    SeenOnly(cfg, rs, i, dir, n);
  }

  lemma SameSpellings(cfg: Config, r: Remote, dir: Path, r': Remote, dir': Path, m: string)
    requires forall n :: Canon(cfg, n) == m ==> FileAt(r, dir + [n]) == FileAt(r', dir' + [n])
    ensures Spellings(cfg, r, dir, m) == Spellings(cfg, r', dir', m)
  {
    SpellingsMembers(cfg, r, dir, m);
    SpellingsMembers(cfg, r', dir', m);
    hide Spellings, Canon, FileAt;
    forall n
      ensures n in Spellings(cfg, r, dir, m) <==> n in Spellings(cfg, r', dir', m)
    {
      assert Canon(cfg, n) == m ==> FileAt(r, dir + [n]) == FileAt(r', dir' + [n]);
    }
  }

  /** The same files of every spelling are seen as the same. */
  lemma SeenSame(cfg: Config, rs: Remotes, i: nat, dir: Path, rs': Remotes, j: nat, dir': Path, m: string)
    requires i < |rs| && j < |rs'|
    requires forall n :: Canon(cfg, n) == m ==> FileAt(rs[i], dir + [n]) == FileAt(rs'[j], dir' + [n])
    ensures FileAt(Seen(cfg, rs)[i], dir + [m]) == FileAt(Seen(cfg, rs')[j], dir' + [m])
  {
    SameSpellings(cfg, rs[i], dir, rs'[j], dir', m);
    SeenFile(cfg, rs, i, dir, m);
    SeenFile(cfg, rs', j, dir', m);
    var names := Spellings(cfg, rs[i], dir, m);
    if names != {} {
      SpellingsMembers(cfg, rs[i], dir, m);
      assert Canon(cfg, Pick(names)) == m;
    }
    hide Seen, Spellings, Canon, FileAt, Pick;
  }

  lemma SeenAgree(cfg: Config, rs: Remotes, rs': Remotes, dir: Path, m: string)
    requires |rs| == |rs'| && forall n :: Canon(cfg, n) == m ==> Agree(rs, rs', dir + [n])
    ensures Agree(Seen(cfg, rs), Seen(cfg, rs'), dir + [m])
  {
    hide Seen, Canon;
    forall i | 0 <= i < |rs|
      ensures FileAt(Seen(cfg, rs)[i], dir + [m]) == FileAt(Seen(cfg, rs')[i], dir + [m])
    {
      SeenSame(cfg, rs, i, dir, rs', i, dir, m);
    }
  }

  ghost predicate AllCanonical(cfg: Config, r: Remote, dir: Path) {
    forall n :: FileAt(r, dir + [n]).Some? ==> CanonicalName(cfg, n)
  }

  /** Chunk files of the directory are spelled the way the chunker spells them. */
  ghost predicate Canonical(cfg: Config, rs: Remotes, dir: Path) {
    forall i :: 0 <= i < |rs| ==> AllCanonical(cfg, rs[i], dir)
  }

  /** Such a directory is seen as it is. */
  lemma CanonicalSeen(cfg: Config, rs: Remotes, dir: Path, m: string)
    requires NamesLawful(cfg) && Canonical(cfg, rs, dir)
    ensures Agree(Seen(cfg, rs), rs, dir + [m])
  {
    forall i | 0 <= i < |rs|
      ensures FileAt(Seen(cfg, rs)[i], dir + [m]) == FileAt(rs[i], dir + [m])
    {
      assert AllCanonical(cfg, rs[i], dir);
      if CanonicalName(cfg, m) {
        SeenOnly(cfg, rs, i, dir, m);
      } else {
        var n := SeenSome(cfg, rs, i, dir, m);
        CanonParses(cfg, n);
      }
      hide Seen;
    }
  }

  // ---- the files that make up one logical name ----

  function PartPath(cfg: Config, dir: Path, name: string, no: nat, x: string): Path {
    dir + [cfg.make(name, no, x)]
  }

  /** The base file counts only if its name does not itself read as a chunk name. */
  predicate IsBaseName(cfg: Config, name: string) {
    cfg.parse(name).NoMatch?
  }

  /** Files that belong to a logical name: what reads as its chunks, and the file of that very name
      unless that itself reads as a chunk. */
  predicate Owned(cfg: Config, dir: Path, name: string, p: Path) {
    && |p| == |dir| + 1 && p[..|dir|] == dir
    && ((IsBaseName(cfg, name) && p[|dir|] == name)
        || (cfg.parse(p[|dir|]).Match? && cfg.parse(p[|dir|]).ctrl == "" && cfg.parse(p[|dir|]).main == name))
  }

  /** No file belongs to two names. */
  lemma OwnedApart(cfg: Config, dir: Path, name: string, d: Path, n: string, p: Path)
    requires Owned(cfg, dir, name, p) && Owned(cfg, d, n, p)
    ensures (d, n) == (dir, name)
  {
  }

  /** Every spelling of a chunk belongs to its name. */
  lemma SpellingReads(cfg: Config, dir: Path, name: string, no: nat, x: string, file: string)
    requires NamesLawful(cfg) && Names.PlainName(name) && IsNumber(cfg, no) && Names.IsXact(x)
    ensures Canon(cfg, file) == cfg.make(name, no, x) <==> cfg.parse(file) == Names.Match(name, no, "", x)
    ensures Canon(cfg, file) == cfg.make(name, no, x) ==> Owned(cfg, dir, name, dir + [file])
    ensures Canon(cfg, cfg.make(name, no, x)) == cfg.make(name, no, x)
  {
    CanonParses(cfg, file);
    assert (dir + [file])[..|dir|] == dir && (dir + [file])[|dir|] == file;
  }

  /** A file name that reads as a chunk of transaction `x` of the name. */
  predicate ReadsAs(cfg: Config, file: string, name: string, x: string) {
    IsChunkName(cfg, file) && cfg.parse(file).main == name && cfg.parse(file).xact == x
  }

  /** No file reads as a chunk of that transaction of the name. */
  ghost predicate Unused(cfg: Config, rs: Remotes, dir: Path, name: string, x: string) {
    forall i, file :: 0 <= i < |rs| && ReadsAs(cfg, file, name, x) ==> FileAt(rs[i], dir + [file]).None?
  }

  /** The files that read so are spelled canonically. */
  ghost predicate Proper(cfg: Config, rs: Remotes, dir: Path, name: string, x: string) {
    forall i, file :: 0 <= i < |rs| && ReadsAs(cfg, file, name, x) && FileAt(rs[i], dir + [file]).Some? ==> CanonicalName(cfg, file)
  }

  lemma ProperSeen(cfg: Config, rs: Remotes, dir: Path, name: string, x: string, no: nat, i: nat)
    requires NamesLawful(cfg) && Names.PlainName(name) && IsNumber(cfg, no) && Names.IsXact(x) && Proper(cfg, rs, dir, name, x) && i < |rs|
    ensures FileAt(Seen(cfg, rs)[i], PartPath(cfg, dir, name, no, x)) == FileAt(rs[i], PartPath(cfg, dir, name, no, x))
  {
    var file := cfg.make(name, no, x);
    forall k | Canon(cfg, k) == Canon(cfg, file) && FileAt(rs[i], dir + [k]).Some?
      ensures k == file
    {
      SpellingReads(cfg, dir, name, no, x, k);
      SpellingReads(cfg, dir, name, no, x, file);
    }
    SpellingReads(cfg, dir, name, no, x, file);
    SeenOnly(cfg, rs, i, dir, file);
  }

  ghost predicate PartExists(cfg: Config, rs: Remotes, dir: Path, name: string, no: nat, x: string) {
    && Names.PlainName(name) && IsNumber(cfg, no) && Names.IsXact(x)
    && FirstFile(Seen(cfg, rs), PartPath(cfg, dir, name, no, x)).Some?
  }

  ghost predicate AnyPart(cfg: Config, rs: Remotes, dir: Path, name: string) {
    exists no, x :: PartExists(cfg, rs, dir, name, no, x)
  }

  /** In a directory with canonical names a chunk is the file that spells it. */
  lemma CanonicalPart(cfg: Config, rs: Remotes, dir: Path, name: string, no: nat, x: string)
    requires NamesLawful(cfg) && Canonical(cfg, rs, dir)
    ensures var p := PartPath(cfg, dir, name, no, x);
      && (PartExists(cfg, rs, dir, name, no, x) <==>
            Names.PlainName(name) && IsNumber(cfg, no) && Names.IsXact(x) && FirstFile(rs, p).Some?)
      && PartOf(cfg, rs, dir, name, x, no) == Part(no, FirstFile(rs, p).GetOr(0), x, FirstData(rs, p))
  {
    CanonicalSeen(cfg, rs, dir, cfg.make(name, no, x));
    AgreeFirst(Seen(cfg, rs), rs, PartPath(cfg, dir, name, no, x));
    hide Seen;
  }

  /** A name has chunks of a transaction exactly if some file reads as one. */
  lemma PartIsRead(cfg: Config, rs: Remotes, dir: Path, name: string, x: string)
    requires NamesLawful(cfg)
    ensures (exists no :: PartExists(cfg, rs, dir, name, no, x)) <==>
      exists i, file :: 0 <= i < |rs| && ReadsAs(cfg, file, name, x) && FileAt(rs[i], dir + [file]).Some?
  {
    hide Seen;
    if no :| PartExists(cfg, rs, dir, name, no, x) {
      var i := FirstFile(Seen(cfg, rs), PartPath(cfg, dir, name, no, x)).value;
      var file := SeenSome(cfg, rs, i, dir, cfg.make(name, no, x));
      SpellingReads(cfg, dir, name, no, x, file);
      assert ReadsAs(cfg, file, name, x) && FileAt(rs[i], dir + [file]).Some?;
    }
    if i, file :| 0 <= i < |rs| && ReadsAs(cfg, file, name, x) && FileAt(rs[i], dir + [file]).Some? {
      var no := cfg.parse(file).no;
      assert PartPath(cfg, dir, name, no, x) == dir + [Canon(cfg, file)];
      var n := SeenSome(cfg, rs, i, dir, Canon(cfg, file));
      assert PartExists(cfg, rs, dir, name, no, x);
    }
  }

  /** No remote spells a chunk of the name in two ways. */
  ghost predicate Unambiguous(cfg: Config, rs: Remotes, dir: Path, name: string) {
    forall i, a, b ::
      0 <= i < |rs| && Owned(cfg, dir, name, dir + [a]) && FileAt(rs[i], dir + [a]).Some? && FileAt(rs[i], dir + [b]).Some? ==>
        Canon(cfg, a) == Canon(cfg, b) ==> a == b
  }

  /** Does path `p` spell chunk `no` of transaction `x`? */
  predicate IsPartPath(cfg: Config, dir: Path, name: string, x: string, p: Path) {
    && |p| == |dir| + 1 && p[..|dir|] == dir
    && cfg.parse(p[|dir|]).Match? && cfg.parse(p[|dir|]).no >= 0
    && cfg.parse(p[|dir|]).main == name && cfg.parse(p[|dir|]).ctrl == "" && cfg.parse(p[|dir|]).xact == x
    && p[|dir|] == cfg.make(name, cfg.parse(p[|dir|]).no, x)
  }

  ghost function PartNos(cfg: Config, rs: Remotes, dir: Path, name: string, x: string): set<nat> {
    var seen: Remotes := Seen(cfg, rs);
    set i, p | 0 <= i < |seen| && p in seen[i] && seen[i][p].File? && IsPartPath(cfg, dir, name, x, p)
      :: cfg.parse(p[|dir|]).no as nat
  }

  lemma PartNosMembers(cfg: Config, rs: Remotes, dir: Path, name: string, x: string)
    requires NamesLawful(cfg)
    ensures forall no: nat :: no in PartNos(cfg, rs, dir, name, x) <==> PartExists(cfg, rs, dir, name, no, x)
  {
    hide Seen;
    var seen: Remotes := Seen(cfg, rs);
    forall no: nat
      ensures no in PartNos(cfg, rs, dir, name, x) <==> PartExists(cfg, rs, dir, name, no, x)
    {
      var q := PartPath(cfg, dir, name, no, x);
      assert q[|dir|] == cfg.make(name, no, x) && q[..|dir|] == dir;
      if no in PartNos(cfg, rs, dir, name, x) {
        var i, p :| 0 <= i < |seen| && p in seen[i] && seen[i][p].File? && IsPartPath(cfg, dir, name, x, p)
          && cfg.parse(p[|dir|]).no == no;
        assert p == q;
        assert FileAt(seen[i], q).Some?;
      }
      if PartExists(cfg, rs, dir, name, no, x) {
        var i := FirstFile(seen, q).value;
        assert q in seen[i] && seen[i][q].File? && IsPartPath(cfg, dir, name, x, q);
      }
    }
  }

  ghost function PartOf(cfg: Config, rs: Remotes, dir: Path, name: string, x: string, no: nat): Part {
    var seen, p := Seen(cfg, rs), PartPath(cfg, dir, name, no, x);
    Part(no, FirstFile(seen, p).GetOr(0), x, FirstData(seen, p))
  }

  /** sortChunkParts over the winning chunks of one transaction. */
  ghost function Parts(cfg: Config, rs: Remotes, dir: Path, name: string, x: string): seq<Part> {
    var nos := Sorted(PartNos(cfg, rs, dir, name, x));
    seq(|nos|, j requires 0 <= j < |nos| => PartOf(cfg, rs, dir, name, x, nos[j]))
  }

  function TotalSize(parts: seq<Part>): nat {
    if parts == [] then 0 else |parts[0].data| + TotalSize(parts[1..])
  }

  function Datas(parts: seq<Part>): seq<Bytes> {
    seq(|parts|, j requires 0 <= j < |parts| => parts[j].data)
  }

  /** Metadata is read only if the base is small and some chunk, of whatever transaction, exists. */
  ghost function MetaOf(cfg: Config, rs: Remotes, dir: Path, name: string): Option<Meta> {
    if IsBaseName(cfg, name) && FirstFile(rs, dir + [name]).Some?
       && |FirstData(rs, dir + [name])| <= MAX_META_READ && AnyPart(cfg, rs, dir, name)
    then cfg.unmarshal(FirstData(rs, dir + [name]))
    else None
  }

  ghost function ViewOf(cfg: Config, rs: Remotes, dir: Path, name: string): View {
    var base := if IsBaseName(cfg, name) then FirstFile(rs, dir + [name]) else None;
    match MetaOf(cfg, rs, dir, name)
    case Some(meta) => Chunked(meta.size, base.value, Some(meta), Parts(cfg, rs, dir, name, meta.xact))
    case None =>
      if base.Some? then Plain(base.value, FirstData(rs, dir + [name]))
      else
        var parts := Parts(cfg, rs, dir, name, "");
        if parts == [] then Absent else Chunked(TotalSize(parts), 0, None, parts)
  }

  // ---- views depend only on the files that make up the name ----

  /** The two states hold the same chunks of transaction `x` of the name. */
  ghost predicate AgreeParts(cfg: Config, rs: Remotes, rs': Remotes, dir: Path, name: string, x: string) {
    forall no: nat :: IsNumber(cfg, no) && Names.IsXact(x) ==>
      Agree(Seen(cfg, rs), Seen(cfg, rs'), PartPath(cfg, dir, name, no, x))
  }

  /** An explicit ascending list with the right members is the list of parts. */
  lemma PartsAre(cfg: Config, rs: Remotes, dir: Path, name: string, x: string, ps: seq<Part>)
    requires NamesLawful(cfg)
    requires forall i, j :: 0 <= i < j < |ps| ==> ps[i].no < ps[j].no
    requires forall j :: 0 <= j < |ps| ==> ps[j] == PartOf(cfg, rs, dir, name, x, ps[j].no)
    requires forall j :: 0 <= j < |ps| ==> PartExists(cfg, rs, dir, name, ps[j].no, x)
    requires forall no: nat :: PartExists(cfg, rs, dir, name, no, x) ==> exists j :: 0 <= j < |ps| && ps[j].no == no
    ensures Parts(cfg, rs, dir, name, x) == ps
  {
    var nos := seq(|ps|, j requires 0 <= j < |ps| => ps[j].no);
    PartNosMembers(cfg, rs, dir, name, x);
    forall no: nat
      ensures no in PartNos(cfg, rs, dir, name, x) <==> no in nos
    {
      if PartExists(cfg, rs, dir, name, no, x) {
        var j :| 0 <= j < |ps| && ps[j].no == no;
        assert nos[j] == no;
      }
    }
    SortedUnique(PartNos(cfg, rs, dir, name, x), nos);
  }

  lemma PartsByNumber(cfg: Config, rs: Remotes, dir: Path, name: string, x: string)
    ensures var nos := Sorted(PartNos(cfg, rs, dir, name, x)); var ps := Parts(cfg, rs, dir, name, x);
      |ps| == |nos| && forall j :: 0 <= j < |nos| ==> ps[j] == PartOf(cfg, rs, dir, name, x, nos[j]) && ps[j].no == nos[j]
  {
    hide PartNos, Sorted, Seen, FirstFile, FirstData, PartPath;
  }

  /** Parts lists ascend and hold only what exists. */
  lemma PartsProperties(cfg: Config, rs: Remotes, dir: Path, name: string, x: string)
    requires NamesLawful(cfg)
    ensures var ps := Parts(cfg, rs, dir, name, x);
      && (forall i, j :: 0 <= i < j < |ps| ==> ps[i].no < ps[j].no)
      && (forall j :: 0 <= j < |ps| ==>
            ps[j] == PartOf(cfg, rs, dir, name, x, ps[j].no) && PartExists(cfg, rs, dir, name, ps[j].no, x))
  {
    hide PartNos, NamesLawful, PartExists, Sorted, Parts, PartOf, Seen;
    PartNosMembers(cfg, rs, dir, name, x);
    PartsByNumber(cfg, rs, dir, name, x);
    var nos := Sorted(PartNos(cfg, rs, dir, name, x));
    assert forall j :: 0 <= j < |nos| ==> nos[j] in nos;
  }

  /** ... and all that exists. */
  lemma PartsComplete(cfg: Config, rs: Remotes, dir: Path, name: string, x: string, no: nat) returns (j: nat)
    requires NamesLawful(cfg) && PartExists(cfg, rs, dir, name, no, x)
    ensures j < |Parts(cfg, rs, dir, name, x)| && Parts(cfg, rs, dir, name, x)[j].no == no
  {
    PartNosMembers(cfg, rs, dir, name, x);
    var nos := Sorted(PartNos(cfg, rs, dir, name, x));
    assert no in nos;
    j :| 0 <= j < |nos| && nos[j] == no;
  }

  lemma PartSame(cfg: Config, rs: Remotes, rs': Remotes, dir: Path, name: string, x: string, no: nat)
    requires AgreeParts(cfg, rs, rs', dir, name, x)
    ensures PartExists(cfg, rs, dir, name, no, x) <==> PartExists(cfg, rs', dir, name, no, x)
    ensures PartExists(cfg, rs, dir, name, no, x) ==>
      PartOf(cfg, rs, dir, name, x, no) == PartOf(cfg, rs', dir, name, x, no)
  {
    if IsNumber(cfg, no) && Names.IsXact(x) {
      AgreeFirst(Seen(cfg, rs), Seen(cfg, rs'), PartPath(cfg, dir, name, no, x));
    }
  }

  lemma PartsSame(cfg: Config, rs: Remotes, rs': Remotes, dir: Path, name: string, x: string)
    requires NamesLawful(cfg) && AgreeParts(cfg, rs, rs', dir, name, x)
    ensures Parts(cfg, rs, dir, name, x) == Parts(cfg, rs', dir, name, x)
    ensures forall no: nat :: PartExists(cfg, rs, dir, name, no, x) <==> PartExists(cfg, rs', dir, name, no, x)
  {
    forall no: nat
      ensures PartExists(cfg, rs, dir, name, no, x) <==> PartExists(cfg, rs', dir, name, no, x)
      ensures PartExists(cfg, rs, dir, name, no, x) ==>
        PartOf(cfg, rs, dir, name, x, no) == PartOf(cfg, rs', dir, name, x, no)
    {
      PartSame(cfg, rs, rs', dir, name, x, no);
    }
    PartsProperties(cfg, rs, dir, name, x);
    forall no: nat | PartExists(cfg, rs, dir, name, no, x)
      ensures exists j :: 0 <= j < |Parts(cfg, rs, dir, name, x)| && Parts(cfg, rs, dir, name, x)[j].no == no
    {
      var j := PartsComplete(cfg, rs, dir, name, x, no);
    }
    PartsAre(cfg, rs', dir, name, x, Parts(cfg, rs, dir, name, x));
  }

  /** `x` is fresh for a name: no remote holds a chunk of it and the base file is no metadata naming it. */
  ghost predicate Fresh(cfg: Config, rs: Remotes, dir: Path, name: string, x: string) {
    && (forall no: nat, i :: 0 <= i < |rs| && IsNumber(cfg, no) ==>
          FileAt(Seen(cfg, rs)[i], PartPath(cfg, dir, name, no, x)).None?)
    && (FirstFile(rs, dir + [name]).Some? && cfg.unmarshal(FirstData(rs, dir + [name])).Some? ==>
          cfg.unmarshal(FirstData(rs, dir + [name])).value.xact != x)
  }

  /** A base file that becomes metadata the moment any chunk appears beside it. */
  ghost predicate Dormant(cfg: Config, rs: Remotes, dir: Path, name: string) {
    && IsBaseName(cfg, name) && FirstFile(rs, dir + [name]).Some?
    && |FirstData(rs, dir + [name])| <= MAX_META_READ
    && cfg.unmarshal(FirstData(rs, dir + [name])).Some?
    && !AnyPart(cfg, rs, dir, name)
  }

  /** Chunks of a fresh transaction never change what a name lists as, unless its base is dormant. */
  lemma ViewIgnoresFresh(cfg: Config, rs: Remotes, rs': Remotes, dir: Path, name: string, x: string)
    requires NamesLawful(cfg) && x != "" && Fresh(cfg, rs, dir, name, x)
    requires Agree(rs, rs', dir + [name])
    requires forall y :: y != x ==> AgreeParts(cfg, rs, rs', dir, name, y)
    requires Dormant(cfg, rs, dir, name) ==> !AnyPart(cfg, rs', dir, name)
    ensures ViewOf(cfg, rs', dir, name) == ViewOf(cfg, rs, dir, name)
  {
    AgreeFirst(rs, rs', dir + [name]);
    assert AgreeParts(cfg, rs, rs', dir, name, "");
    PartsSame(cfg, rs, rs', dir, name, "");
    AnyPartGrows(cfg, rs, rs', dir, name, x);
    if MetaOf(cfg, rs, dir, name).Some? {
      var y := MetaOf(cfg, rs, dir, name).value.xact;
      PartsSame(cfg, rs, rs', dir, name, y);
    }
  }

  lemma AnyPartGrows(cfg: Config, rs: Remotes, rs': Remotes, dir: Path, name: string, x: string)
    requires NamesLawful(cfg) && Fresh(cfg, rs, dir, name, x)
    requires forall y :: y != x ==> AgreeParts(cfg, rs, rs', dir, name, y)
    ensures AnyPart(cfg, rs, dir, name) ==> AnyPart(cfg, rs', dir, name)
  {
    if AnyPart(cfg, rs, dir, name) {
      var no, y :| PartExists(cfg, rs, dir, name, no, y);
      var i := FirstFile(Seen(cfg, rs), PartPath(cfg, dir, name, no, y)).value;
      assert FileAt(Seen(cfg, rs)[i], PartPath(cfg, dir, name, no, y)).Some?;
      assert y != x;
      PartsSame(cfg, rs, rs', dir, name, y);
      assert PartExists(cfg, rs', dir, name, no, y);
    }
  }

  ghost predicate SameChunks(cfg: Config, rs: Remotes, rs': Remotes, dir: Path, name: string) {
    Names.PlainName(name) ==> forall y :: AgreeParts(cfg, rs, rs', dir, name, y)
  }

  lemma PartsFrame(cfg: Config, rs: Remotes, rs': Remotes, dir: Path, name: string, y: string)
    requires NamesLawful(cfg) && SameChunks(cfg, rs, rs', dir, name)
    ensures Parts(cfg, rs, dir, name, y) == Parts(cfg, rs', dir, name, y)
    ensures forall no: nat :: PartExists(cfg, rs, dir, name, no, y) <==> PartExists(cfg, rs', dir, name, no, y)
  {
    if Names.PlainName(name) {
      PartsSame(cfg, rs, rs', dir, name, y);
    } else {
      PartNosMembers(cfg, rs, dir, name, y);
      PartNosMembers(cfg, rs', dir, name, y);
      assert PartNos(cfg, rs, dir, name, y) == {} == PartNos(cfg, rs', dir, name, y);
    }
  }

  lemma AnyPartFrame(cfg: Config, rs: Remotes, rs': Remotes, dir: Path, name: string)
    requires NamesLawful(cfg) && SameChunks(cfg, rs, rs', dir, name)
    ensures AnyPart(cfg, rs, dir, name) <==> AnyPart(cfg, rs', dir, name)
  {
    if AnyPart(cfg, rs, dir, name) {
      var no, y :| PartExists(cfg, rs, dir, name, no, y);
      PartsFrame(cfg, rs, rs', dir, name, y);
      assert PartExists(cfg, rs', dir, name, no, y);
    }
    if AnyPart(cfg, rs', dir, name) {
      var no, y :| PartExists(cfg, rs', dir, name, no, y);
      PartsFrame(cfg, rs, rs', dir, name, y);
      assert PartExists(cfg, rs, dir, name, no, y);
    }
  }

  /** Same base, same chunks, same view. */
  lemma ViewKept(cfg: Config, rs: Remotes, rs': Remotes, dir: Path, name: string)
    requires NamesLawful(cfg) && |rs| == |rs'| && SameChunks(cfg, rs, rs', dir, name)
    requires IsBaseName(cfg, name) ==> Agree(rs, rs', dir + [name])
    ensures ViewOf(cfg, rs', dir, name) == ViewOf(cfg, rs, dir, name)
  {
    if IsBaseName(cfg, name) { AgreeFirst(rs, rs', dir + [name]); }
    AnyPartFrame(cfg, rs, rs', dir, name);
    PartsFrame(cfg, rs, rs', dir, name, "");
    if MetaOf(cfg, rs, dir, name).Some? {
      PartsFrame(cfg, rs, rs', dir, name, MetaOf(cfg, rs, dir, name).value.xact);
    }
  }

  /** One chunk, however it is spelled. */
  lemma ChunkFrame(cfg: Config, rs: Remotes, rs': Remotes, dir: Path, name: string, no: nat, x: string)
    requires NamesLawful(cfg) && |rs| == |rs'| && Names.PlainName(name) && IsNumber(cfg, no) && Names.IsXact(x)
    requires forall file :: cfg.parse(file) == Names.Match(name, no, "", x) ==> Agree(rs, rs', dir + [file])
    ensures Agree(Seen(cfg, rs), Seen(cfg, rs'), PartPath(cfg, dir, name, no, x))
  {
    forall file | Canon(cfg, file) == cfg.make(name, no, x)
      ensures Agree(rs, rs', dir + [file])
    {
      SpellingReads(cfg, dir, name, no, x, file);
    }
    SeenAgree(cfg, rs, rs', dir, cfg.make(name, no, x));
  }

  /** What a name lists as depends on the files that belong to it and nothing else. */
  lemma ViewFrame(cfg: Config, rs: Remotes, rs': Remotes, dir: Path, name: string)
    requires NamesLawful(cfg) && |rs| == |rs'|
    requires forall i, p :: 0 <= i < |rs| && Owned(cfg, dir, name, p) ==> FileAt(rs'[i], p) == FileAt(rs[i], p)
    ensures ViewOf(cfg, rs', dir, name) == ViewOf(cfg, rs, dir, name)
  {
    assert (dir + [name])[..|dir|] == dir && (dir + [name])[|dir|] == name;
    assert IsBaseName(cfg, name) ==> Owned(cfg, dir, name, dir + [name]);
    hide ViewOf, Seen;
    if Names.PlainName(name) {
      forall no: nat, x | IsNumber(cfg, no) && Names.IsXact(x)
        ensures Agree(Seen(cfg, rs), Seen(cfg, rs'), PartPath(cfg, dir, name, no, x))
      {
        forall file | cfg.parse(file) == Names.Match(name, no, "", x)
          ensures Agree(rs, rs', dir + [file])
        {
          assert (dir + [file])[..|dir|] == dir && (dir + [file])[|dir|] == file;
          assert Owned(cfg, dir, name, dir + [file]);
        }
        ChunkFrame(cfg, rs, rs', dir, name, no, x);
      }
    }
    ViewKept(cfg, rs, rs', dir, name);
  }
}
