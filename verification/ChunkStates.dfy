/** Where the chunks of an object go, and the shapes of the states a Put, Move, Copy or Remove passes through. */
module ChunkStates {
  import opened Prelude
  import opened RemoteStore
  import opened RemoteOps
  import opened ChunkView
  import Names = ChunkNames

  // ---- where chunks go ----

  /** chunkTargetIndexes: all remotes, or all but the primary. */
  function TargetIndexes(cfg: Config, remotes: nat): (s: seq<nat>)
    requires remotes > 0
    ensures |s| > 0 && forall t :: t in s ==> t < remotes
  {
    if remotes == 1 then [0]
    else if cfg.storeChunksInPrimary then seq(remotes, i => i)
    else seq(remotes - 1, i => i + 1)
  }

  function Target(cfg: Config, remotes: nat, no: nat): (t: nat)
    requires remotes > 0
    ensures t < remotes
  {
    var s := TargetIndexes(cfg, remotes);
    s[no % |s|]
  }

  /** The pieces of at most `size` bytes a stream is cut into. */
  function Split(data: Bytes, size: int): (s: seq<Bytes>)
    requires size > 0
    ensures |s| <= |data|
  {
    if data == "" then []
    else
      var n := Min(|data|, size);
      [data[..n]] + Split(data[n..], size)
  }

  lemma {:induction false} ConcatOfSplit(data: Bytes, size: int)
    requires size > 0
    ensures Concat(Split(data, size)) == data
  {
    if data != "" {
      ConcatOfSplit(data[Min(|data|, size)..], size);
    }
  }

  // ---- where an object lives ----

  datatype Location = Location(path: Path, remote: nat)

  /** objectLocationsForObject: metadata first, then the chunks in ascending order. */
  function ObjectLocations(cfg: Config, dir: Path, name: string, v: View): seq<Location> {
    match v
    case Absent => []
    case Plain(remote, _) => [Location(dir + [name], remote)]
    case Chunked(_, main, meta, parts) =>
      (if meta.Some? then [Location(dir + [name], main)] else [])
      + seq(|parts|, j requires 0 <= j < |parts| =>
          Location(PartPath(cfg, dir, name, parts[j].no, parts[j].xact), parts[j].remote))
  }

  // ---- shapes of intermediate states ----

  /** Directories appear only on the way to `dir`. */
  ghost predicate NoNewDirs(rs0: Remotes, rs: Remotes, dir: Path) {
    && |rs| == |rs0|
    && forall i, p :: 0 <= i < |rs| && p in rs[i] && rs[i][p].Dir? ==>
        (p in rs0[i] && rs0[i][p].Dir?) || |p| <= |dir|
  }

  /** Only files that spell chunks of transaction `x` of the name differ, and no directory is lost. */
  ghost predicate Uploading(cfg: Config, rs0: Remotes, rs: Remotes, dir: Path, name: string, x: string) {
    && NoNewDirs(rs0, rs, dir) && KeepsDirs(cfg, rs0, rs, dir, name, x)
    && forall i, p :: 0 <= i < |rs| && !IsPartPath(cfg, dir, name, x, p) ==> FileAt(rs[i], p) == FileAt(rs0[i], p)
  }

  ghost predicate KeepsDirs(cfg: Config, rs0: Remotes, rs: Remotes, dir: Path, name: string, x: string) {
    && |rs| == |rs0|
    && forall i, p :: 0 <= i < |rs| && !IsPartPath(cfg, dir, name, x, p) && p in rs0[i] && rs0[i][p].Dir? ==>
        p in rs[i] && rs[i][p].Dir?
  }

  /** Every chunk written so far lies on its target. */
  ghost predicate Holds(cfg: Config, rs: Remotes, dir: Path, name: string, x: string, chunks: seq<Bytes>) {
    && |rs| > 0
    && forall no :: 0 <= no < |chunks| ==>
        FileAt(rs[Target(cfg, |rs|, no)], PartPath(cfg, dir, name, no, x)) == Some(chunks[no])
  }

  /** Nothing but those chunks and what was there before is spelled as a chunk of `x`. */
  ghost predicate OnlyAdds(cfg: Config, rs0: Remotes, rs: Remotes, dir: Path, name: string, x: string, n: nat) {
    && |rs| == |rs0| > 0
    && forall i, no: nat :: 0 <= i < |rs| && IsNumber(cfg, no) && !(no < n && i == Target(cfg, |rs|, no)) ==>
        FileAt(rs[i], PartPath(cfg, dir, name, no, x)) == FileAt(rs0[i], PartPath(cfg, dir, name, no, x))
  }

  /** Chunk numbers below `n` print as names that read back: the number base is not negative and the
      last number, base included, is a 64-bit one. */
  predicate NumbersOk(cfg: Config, n: nat) {
    n == 0 || (cfg.startFrom >= 0 && n - 1 + cfg.startFrom <= MAX_INT64)
  }

  lemma NumbersOkExact(cfg: Config, n: nat)
    ensures NumbersOk(cfg, n) <==> forall no: nat :: no < n ==> IsNumber(cfg, no)
  {
    if n > 0 && forall no: nat :: no < n ==> IsNumber(cfg, no) {
      assert IsNumber(cfg, 0) && IsNumber(cfg, n - 1);
    }
  }

  /** The name is one line and the chunk numbers print: its chunks can be found again. */
  predicate Spellable(cfg: Config, name: string, n: nat) {
    Names.PlainName(name) && NumbersOk(cfg, n)
  }

  lemma IsPartPathOf(cfg: Config, dir: Path, name: string, no: nat, x: string)
    requires NamesLawful(cfg) && Names.PlainName(name) && IsNumber(cfg, no) && Names.IsXact(x)
    ensures IsPartPath(cfg, dir, name, x, PartPath(cfg, dir, name, no, x))
    ensures cfg.parse(cfg.make(name, no, x)) == Names.Match(name, no, "", x)
  {
    var p := PartPath(cfg, dir, name, no, x);
    assert p[..|dir|] == dir && p[|dir|] == cfg.make(name, no, x);
  }

  /** One chunk write. */
  lemma WriteChunk(cfg: Config, rs0: Remotes, rs: Remotes, dir: Path, name: string, x: string,
                   chunks: seq<Bytes>, data: Bytes)
    requires NamesLawful(cfg) && Names.PlainName(name) && Names.IsXact(x) && NumbersOk(cfg, |chunks| + 1)
    requires Uploading(cfg, rs0, rs, dir, name, x) && Holds(cfg, rs, dir, name, x, chunks)
    requires OnlyAdds(cfg, rs0, rs, dir, name, x, |chunks|)
    ensures var no := |chunks|; var i := Target(cfg, |rs|, no);
      var rs' := rs[i := Written(rs[i], PartPath(cfg, dir, name, no, x), data)];
      && Uploading(cfg, rs0, rs', dir, name, x) && Holds(cfg, rs', dir, name, x, chunks + [data])
      && OnlyAdds(cfg, rs0, rs', dir, name, x, no + 1)
  {
    var no := |chunks|;
    var i := Target(cfg, |rs|, no);
    var p := PartPath(cfg, dir, name, no, x);
    IsPartPathOf(cfg, dir, name, no, x);
    forall k: nat | k != no && IsNumber(cfg, k)
      ensures PartPath(cfg, dir, name, k, x) != p
    {
      IsPartPathOf(cfg, dir, name, k, x);
      assert PartPath(cfg, dir, name, k, x)[|dir|] == cfg.make(name, k, x);
    }
    WroteUploading(cfg, rs0, rs, dir, name, x, i, p, data);
    assert forall q :: FileAt(Written(rs[i], p, data), q) == if q == p then Some(data) else FileAt(rs[i], q);
    hide NamesLawful, Uploading, Written, PartPath, IsPartPath;
  }

  lemma WroteUploading(cfg: Config, rs0: Remotes, rs: Remotes, dir: Path, name: string, x: string, i: nat, p: Path, data: Bytes)
    requires Uploading(cfg, rs0, rs, dir, name, x) && i < |rs| && IsPartPath(cfg, dir, name, x, p)
    ensures Uploading(cfg, rs0, rs[i := Written(rs[i], p, data)], dir, name, x)
  {
    assert p[..|p| - 1] == dir;
    assert forall q :: FileAt(Written(rs[i], p, data), q) == if q == p then Some(data) else FileAt(rs[i], q);
    hide IsPartPath;
  }

  // ---- what the three kinds of Put leave behind ----

  function MetaFor(cfg: Config, data: Bytes, n: nat, x: string): Meta {
    Meta(if x == "" then 1 else 2, |data|, n,
         if cfg.hashType == Md5 then cfg.md5(data) else "",
         if cfg.hashType == Sha1 then cfg.sha1(data) else "", x)
  }

  function NewParts(cfg: Config, remotes: nat, x: string, chunks: seq<Bytes>): seq<Part>
    requires remotes > 0
  {
    seq(|chunks|, k requires 0 <= k < |chunks| => Part(k, Target(cfg, remotes, k), x, chunks[k]))
  }

  function NewView(cfg: Config, remotes: nat, data: Bytes, x: string): View
    requires remotes > 0 && cfg.chunkSize > 0
  {
    var chunks := Split(data, cfg.chunkSize);
    Chunked(|data|, 0, Some(MetaFor(cfg, data, |chunks|, x)), NewParts(cfg, remotes, x, chunks))
  }

  /** Files differ from `rs0` only by having vanished, and only at `locs`. */
  ghost predicate Pruned(rs0: Remotes, rs: Remotes, locs: set<Location>) {
    && |rs| == |rs0|
    && forall i, p :: 0 <= i < |rs| ==>
        FileAt(rs[i], p) == FileAt(rs0[i], p) || (FileAt(rs[i], p).None? && Location(p, i) in locs)
  }

  ghost predicate OthersUntouched(cfg: Config, rs0: Remotes, rs: Remotes, dir: Path, name: string) {
    && |rs| == |rs0|
    && forall i, p :: 0 <= i < |rs| && !Owned(cfg, dir, name, p) ==> FileAt(rs[i], p) == FileAt(rs0[i], p)
  }

  /** Every other logical name, in whatever directory, lists as before. */
  ghost predicate OthersSame(cfg: Config, rs0: Remotes, rs: Remotes, dir: Path, name: string) {
    forall d, n :: (d, n) != (dir, name) ==> ViewOf(cfg, rs, d, n) == ViewOf(cfg, rs0, d, n)
  }

  lemma OthersFrame(cfg: Config, rs0: Remotes, rs: Remotes, dir: Path, name: string)
    requires NamesLawful(cfg) && OthersUntouched(cfg, rs0, rs, dir, name)
    ensures OthersSame(cfg, rs0, rs, dir, name)
  {
    hide ViewOf, NamesLawful;
    forall d, n | (d, n) != (dir, name)
      ensures ViewOf(cfg, rs, d, n) == ViewOf(cfg, rs0, d, n)
    {
      forall i, p | 0 <= i < |rs| && Owned(cfg, d, n, p)
        ensures FileAt(rs[i], p) == FileAt(rs0[i], p)
      {
        if Owned(cfg, dir, name, p) { OwnedApart(cfg, dir, name, d, n, p); }
      }
      ViewFrame(cfg, rs0, rs, d, n);
    }
  }
}
