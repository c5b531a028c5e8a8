/** Init with the default name format: the configuration it produces is lawful, so the protocol theorems
    hold of the storage as it is shipped.  Chunk numbers print exactly if the number base is not negative,
    and Init accepts a negative one: then no chunked object ever lists as it was put. */
module ChunkInit {
  import opened Prelude
  import opened Numerals
  import opened ChunkStates
  import opened ChunkView
  import opened ChunkMetadata
  import NameLaws = ChunkNameLaws
  import Names = ChunkNames
  import J = Json

  const DEFAULT_CHUNK_SIZE := 2147483648

  /** The options as stored; zero and empty values stand for the defaults. */
  datatype Options = Options(chunkSize: int, startFrom: int, metaFormat: string, hashType: string, storeChunksInPrimary: bool)

  /** The two hash functions, in lower-case hexadecimal. */
  datatype Digests = Digests(md5: Bytes -> string, sha1: Bytes -> string)

  ghost predicate AreHex(h: Digests) {
    && (forall data :: IsHash(h.md5(data), 32))
    && (forall data :: IsHash(h.sha1(data), 40))
  }

  function OrElse(s: string, default: string): string {
    if s == "" then default else s
  }

  function MetaFormatOf(s: string): Option<MetaFormat> {
    if s == "simplejson" then Some(SimpleJson) else if s == "none" then Some(NoMeta) else None
  }

  function HashTypeOf(s: string): Option<HashType> {
    if s == "none" then Some(NoHash) else if s == "md5" then Some(Md5) else if s == "sha1" then Some(Sha1) else None
  }

  /** A record in Go's types: 64-bit integers and text. */
  predicate Encodable(m: Meta) {
    IsInt64(m.size) && IsInt64(m.nChunks) && J.IsAscii(m.md5) && J.IsAscii(m.sha1) && J.IsAscii(m.xact)
  }

  function MarshalMeta(m: Meta): Result<Bytes> {
    if Encodable(m) then Marshal(m.size, m.nChunks, m.md5, m.sha1, m.xact) else Err("unsupported value")
  }

  function DefaultConfig(chunkSize: int, startFrom: int, meta: MetaFormat, hash: HashType, inPrimary: bool, h: Digests): Config {
    Config(chunkSize, startFrom, meta, hash, inPrimary,
      (name, no, x) => Names.Make(Names.DEFAULT_FORMAT, startFrom, name, no, x),
      s => Names.Parse(Names.DEFAULT_FORMAT, startFrom, s),
      m => MarshalMeta(m),
      data => Unmarshal(data),
      h.md5, h.sha1)
  }

  /** Init and validateOptions. */
  function Init(o: Options, h: Digests): Result<Config> {
    var chunkSize := if o.chunkSize == 0 then DEFAULT_CHUNK_SIZE else o.chunkSize;
    var startFrom := if o.startFrom == 0 then 1 else o.startFrom;
    var meta := MetaFormatOf(OrElse(o.metaFormat, "simplejson"));
    var hash := HashTypeOf(OrElse(o.hashType, "md5"));
    if chunkSize <= 0 then Err("chunk_size must be positive")
    else if meta.None? then Err("unsupported meta_format")
    else if hash.None? then Err("unsupported hash_type")
    else if meta.value == NoMeta && hash.value != NoHash then Err("hash_type requires meta_format=simplejson")
    else Ok(DefaultConfig(chunkSize, startFrom, meta.value, hash.value, o.storeChunksInPrimary, h))
  }

  lemma MadeNamesReadBack(startFrom: int, name: string, no: nat, x: string)
    requires IsInt64(startFrom) && Names.PlainName(name) && Names.IsNumber(startFrom, no) && Names.IsXact(x)
    ensures var made := Names.Make(Names.DEFAULT_FORMAT, startFrom, name, no, x);
      Names.Parse(Names.DEFAULT_FORMAT, startFrom, made) == Names.Match(name, no, "", x) && made != name
  {
    NameLaws.RoundTrip(startFrom, name, no, x);
    NameLaws.DefaultMake(startFrom, name, no, x);
    hide Names.Make, Names.Parse, Names.Suffix, FormatInt;
    var rest := FormatInt(Wrap64(no + startFrom), 3) + Names.Suffix(x);
    assert |name + Names.MARKER + rest| >= |name| + |Names.MARKER|;
  }

  lemma DefaultNamesLawful(cfg: Config, startFrom: int)
    requires IsInt64(startFrom) && cfg.startFrom == startFrom
    requires forall name, no: nat, x :: cfg.make(name, no, x) == Names.Make(Names.DEFAULT_FORMAT, startFrom, name, no, x)
    requires forall s :: cfg.parse(s) == Names.Parse(Names.DEFAULT_FORMAT, startFrom, s)
    ensures NamesLawful(cfg)
  {
    hide Names.Make, Names.Parse;
    forall name, no: nat, x | Names.PlainName(name) && IsNumber(cfg, no) && Names.IsXact(x)
      ensures cfg.parse(cfg.make(name, no, x)) == Names.Match(name, no, "", x) && cfg.make(name, no, x) != name
    {
      MadeNamesReadBack(startFrom, name, no, x);
    }
    forall s | cfg.parse(s).Match? && cfg.parse(s).ctrl == ""
      ensures Names.PlainName(cfg.parse(s).main) && |cfg.parse(s).main| < |s| && cfg.parse(s).no >= 0
      ensures IsNumber(cfg, cfg.parse(s).no) && Names.IsXact(cfg.parse(s).xact)
    {
      NameLaws.ParseRange(startFrom, s);
    }
  }

  lemma MadeIsLonger(startFrom: int, name: string, no: nat, x: string)
    ensures |Names.Make(Names.DEFAULT_FORMAT, startFrom, name, no, x)| > |name|
  {
    NameLaws.DefaultMake(startFrom, name, no, x);
    hide Names.Make, Names.Suffix, FormatInt;
    var rest := FormatInt(Wrap64(no + startFrom), 3) + Names.Suffix(x);
    assert |name + Names.MARKER + rest| >= |name| + |Names.MARKER|;
  }

  lemma DefaultSpellingLawful(cfg: Config, startFrom: int)
    requires IsInt64(startFrom) && cfg.startFrom == startFrom
    requires forall name, no: nat, x :: cfg.make(name, no, x) == Names.Make(Names.DEFAULT_FORMAT, startFrom, name, no, x)
    requires forall s :: cfg.parse(s) == Names.Parse(Names.DEFAULT_FORMAT, startFrom, s)
    ensures SpellingLawful(cfg)
  {
    hide Names.Make, Names.Parse;
    forall name, no: nat, x | no <= MAX_INT64 && Names.IsXact(x)
      ensures |cfg.make(name, no, x)| > |name|
      ensures !(Names.PlainName(name) && IsNumber(cfg, no)) ==> cfg.parse(cfg.make(name, no, x)).NoMatch?
    {
      MadeIsLonger(startFrom, name, no, x);
      if !(Names.PlainName(name) && IsNumber(cfg, no)) { NameLaws.UnspellableUnread(startFrom, name, no, x); }
    }
  }

  /** marshalMetadata and unmarshalMetadata on the records a Put writes. */
  lemma WrittenMetaReadsBack(m: Meta)
    requires Writable(m)
    ensures MarshalMeta(m).Ok? && |MarshalMeta(m).value| < MAX_META_WRITE
    ensures Unmarshal(MarshalMeta(m).value) == if m.nChunks <= MAX_CHUNKS then Some(m) else None
  {
    hide Marshal, Unmarshal;
    MarshalFits(m.size, m.nChunks, m.md5, m.sha1, m.xact);
    UnmarshalOfMarshal(m.size, m.nChunks, m.md5, m.sha1, m.xact);
    assert IsHexHash(m.md5, 32) && IsHexHash(m.sha1, 40);
  }

  lemma DefaultMetaLawful(cfg: Config)
    requires forall m :: cfg.marshal(m) == MarshalMeta(m)
    requires forall data :: cfg.unmarshal(data) == Unmarshal(data)
    requires AreHex(Digests(cfg.md5, cfg.sha1))
    ensures MetaLawful(cfg)
  {
    hide MarshalMeta, Unmarshal;
    forall m | Writable(m)
      ensures cfg.marshal(m).Ok? && |cfg.marshal(m).value| < MAX_META_WRITE
      ensures cfg.unmarshal(cfg.marshal(m).value) == if m.nChunks <= MAX_CHUNKS then Some(m) else None
    {
      WrittenMetaReadsBack(m);
    }
    forall data | cfg.unmarshal(data).Some?
      ensures 1 <= cfg.unmarshal(data).value.nChunks <= MAX_CHUNKS
    {
      UnmarshalAccepts(data);
    }
  }

  /** Init fails exactly on a bad option; a configuration it returns is lawful, never counts chunks from
      zero, and can print the number of a first chunk exactly if the base is not negative. */
  lemma InitIsLawful(o: Options, h: Digests)
    requires IsInt64(o.chunkSize) && IsInt64(o.startFrom) && AreHex(h)
    ensures Init(o, h).Ok? <==>
      && o.chunkSize >= 0 && o.metaFormat in ["", "simplejson", "none"] && o.hashType in ["", "none", "md5", "sha1"]
      && (o.metaFormat == "none" ==> o.hashType == "none")
    ensures Init(o, h).Ok? ==>
      && Lawful(Init(o, h).value) && Init(o, h).value.startFrom != 0
      && (NumbersOk(Init(o, h).value, 1) <==> o.startFrom >= 0)
  {
    hide Names.Make, Names.Parse, MarshalMeta, Unmarshal;
    if Init(o, h).Ok? {
      var cfg := Init(o, h).value;
      DefaultNamesLawful(cfg, cfg.startFrom);
      DefaultSpellingLawful(cfg, cfg.startFrom);
      DefaultMetaLawful(cfg);
    }
  }
}
