/** What the source and the destination of a half-finished transfer list and read as. */
module TransferViews {
  import opened Prelude
  import opened RemoteStore
  import opened ChunkView
  import opened ChunkStates
  import opened ChunkUpload
  import opened ChunkAccess
  import opened ChunkTransfer
  import opened Mirror
  import opened BaseWrite
  import Names = ChunkNames

  function TransferOf(cfg: Config, kind: Kind, rs0: Remotes, start: nat, src: Path, dst: Path, name: string, v: View): Transfer {
    Transfer(kind, rs0, start, src, dst, ObjectLocations(cfg, src, name, v))
  }

  /** Location number j of a chunked object. */
  lemma LocationAt(cfg: Config, src: Path, name: string, v: View, j: nat)
    requires v.Chunked? && j < |ObjectLocations(cfg, src, name, v)|
    ensures var off := if v.meta.Some? then 1 else 0;
      && |ObjectLocations(cfg, src, name, v)| == |v.parts| + off
      && ObjectLocations(cfg, src, name, v)[j] ==
          if j < off then Location(src + [name], v.main)
          else Location(PartPath(cfg, src, name, v.parts[j - off].no, v.parts[j - off].xact), v.parts[j - off].remote)
  {
    var head := if v.meta.Some? then [Location(src + [name], v.main)] else [];
    var tail := seq(|v.parts|, q requires 0 <= q < |v.parts| =>
      Location(PartPath(cfg, src, name, v.parts[q].no, v.parts[q].xact), v.parts[q].remote));
    assert ObjectLocations(cfg, src, name, v) == head + tail;
    hide ObjectLocations, PartPath;
  }

  /** Paths tell chunk numbers and the base file apart. */
  lemma PathsDiffer(cfg: Config, dir: Path, name: string, x: string, a: nat, b: nat)
    requires NamesLawful(cfg) && Names.PlainName(name) && Names.IsXact(x) && IsNumber(cfg, a) && IsNumber(cfg, b)
    ensures PartPath(cfg, dir, name, a, x) == PartPath(cfg, dir, name, b, x) ==> a == b
    ensures PartPath(cfg, dir, name, a, x) != dir + [name]
  {
    assert PartPath(cfg, dir, name, a, x)[|dir|] == cfg.make(name, a, x);
    assert PartPath(cfg, dir, name, b, x)[|dir|] == cfg.make(name, b, x);
    assert (dir + [name])[|dir|] == name;
    assert cfg.parse(cfg.make(name, a, x)).no == a && cfg.parse(cfg.make(name, b, x)).no == b;
  }

  lemma LocationsDistinct(cfg: Config, rs: Remotes, dir: Path, name: string, i: nat, j: nat)
    requires NamesLawful(cfg)
    requires var locs := ObjectLocations(cfg, dir, name, ViewOf(cfg, rs, dir, name)); i < j < |locs|
    ensures var locs := ObjectLocations(cfg, dir, name, ViewOf(cfg, rs, dir, name)); locs[i] != locs[j]
  {
    hide ViewOf, Parts, NamesLawful, Seen, FirstFile, FirstData, PartOf, PartPath, XactOf;
    var v := ViewOf(cfg, rs, dir, name);
    if v.Chunked? {
      ListedParts(cfg, rs, dir, name);
      var off := if v.meta.Some? then 1 else 0;
      LocationAt(cfg, dir, name, v, i);
      LocationAt(cfg, dir, name, v, j);
      hide ObjectLocations;
      var b := v.parts[j - off];
      assert PartExists(cfg, rs, dir, name, b.no, XactOf(v)) && b.xact == XactOf(v);
      if i < off {
        PathsDiffer(cfg, dir, name, XactOf(v), b.no, b.no);
      } else {
        var a := v.parts[i - off];
        assert PartExists(cfg, rs, dir, name, a.no, XactOf(v)) && a.xact == XactOf(v);
        PathsDiffer(cfg, dir, name, XactOf(v), a.no, b.no);
      }
    }
  }

  /** Where a chunk is listed in another spelling only, nothing stands in the place of its canonical name, nor comes
      to stand there on the way to the destination. */
  ghost predicate Unobstructed(job: Transfer) {
    forall l :: l in job.locs && l.remote < |job.rs0| && !job.Exists(l) ==>
      l.path !in job.rs0[l.remote] && (job.kind == RemoveIt || !(l.path <= job.dst))
  }

  /** A transfer of an object as it is listed is sound, unless a directory is in the way. */
  lemma TransferIsSound(cfg: Config, kind: Kind, rs0: Remotes, start: nat, src: Path, dst: Path, name: string)
    requires NamesLawful(cfg) && (kind != RemoveIt ==> src != dst)
    ensures var job := TransferOf(cfg, kind, rs0, start, src, dst, name, ViewOf(cfg, rs0, src, name));
      Unobstructed(job) ==> job.Sound()
  {
    hide Seen;
    var v := ViewOf(cfg, rs0, src, name);
    var locs := ObjectLocations(cfg, src, name, v);
    ListedLocations(cfg, rs0, src, name);
    forall i, j | 0 <= i < j < |locs|
      ensures locs[i] != locs[j]
    {
      LocationsDistinct(cfg, rs0, src, name, i, j);
    }
    hide ViewOf, ObjectLocations, NamesLawful;
  }

  /** It never is where the selected chunks are spelled canonically. */
  lemma ProperIsUnobstructed(cfg: Config, kind: Kind, rs0: Remotes, start: nat, src: Path, dst: Path, name: string)
    requires NamesLawful(cfg)
    ensures var v := ViewOf(cfg, rs0, src, name); var job := TransferOf(cfg, kind, rs0, start, src, dst, name, v);
      Proper(cfg, rs0, src, name, XactOf(v)) ==> Unobstructed(job) && forall l :: l in job.locs ==> job.Exists(l)
  {
    hide Seen, Proper, ViewOf;
    var v := ViewOf(cfg, rs0, src, name);
    if v.Plain? || (v.Chunked? && v.meta.Some?) { ListedBasePresent(cfg, rs0, src, name, v); }
    if v.Chunked? && Proper(cfg, rs0, src, name, XactOf(v)) { ProperIsLinked(cfg, rs0, src, name, v); }
    hide NamesLawful, PartPath, LinkedBytes;
  }

  // ---- the source ----

  /** Nothing but the first `k` locations makes the source visible without its metadata: no other base
      copy, and no other file that reads as an untagged chunk, however it is spelled. */
  ghost predicate Lone(cfg: Config, job: Transfer, name: string, k: nat)
    requires k <= |job.locs|
  {
    && (IsBaseName(cfg, name) ==>
          forall i :: 0 <= i < |job.rs0| && FileAt(job.rs0[i], job.src + [name]).Some? ==>
            Location(job.src + [name], i) in job.locs[..k])
    && (forall i, file ::
          0 <= i < |job.rs0| && ReadsAs(cfg, file, name, "") && FileAt(job.rs0[i], job.src + [file]).Some? ==>
            Location(job.src + [file], i) in job.locs[..k])
  }

  lemma SourceFile(job: Transfer, rs: Remotes, k: nat, i: nat, n: string)
    requires job.Sound() && job.Done(rs, k) && i < |rs| && job.kind != CopyIt
    ensures FileAt(rs[i], job.src + [n]) ==
      if Location(job.src + [n], i) in job.locs[..k] then None else FileAt(job.rs0[i], job.src + [n])
  {
    var p := job.src + [n];
    assert p[..|job.src|] == job.src;
    assert FileAt(rs[i], p) == job.Expected(i, p, k);
  }

  /** The source is unlisted after `k` locations if and only if nothing else of that name was lying
      around. */
  lemma SourceVanishes(cfg: Config, job: Transfer, rs: Remotes, k: nat, name: string)
    requires NamesLawful(cfg) && job.Sound() && job.Done(rs, k) && job.kind != CopyIt
    ensures ViewOf(cfg, rs, job.src, name) == Absent <==> Lone(cfg, job, name, k)
  {
    AbsentExactly(cfg, rs, job.src, name);
    forall i, n | 0 <= i < |rs|
      ensures FileAt(rs[i], job.src + [n]) ==
        if Location(job.src + [n], i) in job.locs[..k] then None else FileAt(job.rs0[i], job.src + [n])
    {
      SourceFile(job, rs, k, i, n);
    }
    DoneLength(job, rs, k);
    hide Transfer.Sound, Transfer.Done, NamesLawful, ViewOf;
  }

  // ---- the destination ----

  /** No remote holds a file of that name in the destination directory. */
  ghost predicate FreshAt(cfg: Config, rs0: Remotes, dst: Path, name: string) {
    forall i, p :: 0 <= i < |rs0| && Owned(cfg, dst, name, p) ==> FileAt(rs0[i], p).None?
  }

  lemma DestFile(cfg: Config, job: Transfer, rs: Remotes, k: nat, i: nat, n: string, name: string)
    requires job.Sound() && job.Done(rs, k) && i < |rs| && job.kind != RemoveIt
    requires FreshAt(cfg, job.rs0, job.dst, name) && Owned(cfg, job.dst, name, job.dst + [n])
    ensures FileAt(rs[i], job.dst + [n]) ==
      if Location(job.src + [n], i) in job.locs[..k] then FileAt(job.rs0[i], job.src + [n]) else None
  {
    var p := job.dst + [n];
    assert p[..|job.dst|] == job.dst && p[|job.dst|] == n;
    assert FileAt(rs[i], p) == job.Expected(i, p, k);
    assert Location(p, i) in job.locs ==> job.IsSource(Location(p, i));
  }

  /** How many chunks the first `k` locations contain. */
  function Sent(v: View, k: nat): nat
    requires v.Chunked?
  {
    if v.meta.Some? && k > 0 then k - 1 else k
  }

  /** A chunk among the first `k` locations is among the first chunks. */
  lemma PrefixOnly(cfg: Config, src: Path, name: string, v: View, k: nat, no: nat, x: string, i: nat)
    requires NamesLawful(cfg) && Names.PlainName(name) && IsNumber(cfg, no) && Names.IsXact(x)
    requires v.Chunked? && k <= |ObjectLocations(cfg, src, name, v)| && Sent(v, k) <= |v.parts|
    requires forall j :: 0 <= j < |v.parts| ==> IsNumber(cfg, v.parts[j].no) && Names.IsXact(v.parts[j].xact)
    requires Location(PartPath(cfg, src, name, no, x), i) in ObjectLocations(cfg, src, name, v)[..k]
    ensures IsSent(v, Sent(v, k), no, x, i)
  {
    PathsDiffer(cfg, src, name, x, no, no);
    hide ObjectLocations, NamesLawful, PartPath;
    var l :| 0 <= l < k && ObjectLocations(cfg, src, name, v)[l] == Location(PartPath(cfg, src, name, no, x), i);
    LocationAt(cfg, src, name, v, l);
    var part := v.parts[l - if v.meta.Some? then 1 else 0];
    SamePath(cfg, src, name, no, x, part.no, part.xact);
  }

  lemma PrefixHas(cfg: Config, src: Path, name: string, v: View, k: nat, j: nat)
    requires v.Chunked? && k <= |ObjectLocations(cfg, src, name, v)| && j < Sent(v, k) <= |v.parts|
    ensures Location(PartPath(cfg, src, name, v.parts[j].no, v.parts[j].xact), v.parts[j].remote)
         in ObjectLocations(cfg, src, name, v)[..k]
  {
    var locs := ObjectLocations(cfg, src, name, v);
    var l := j + if v.meta.Some? then 1 else 0;
    LocationAt(cfg, src, name, v, l);
    assert locs[..k][l] == locs[l];
  }

  lemma SamePath(cfg: Config, dir: Path, name: string, a: nat, x: string, b: nat, y: string)
    requires NamesLawful(cfg) && Names.PlainName(name) && IsNumber(cfg, a) && IsNumber(cfg, b)
    requires Names.IsXact(x) && Names.IsXact(y)
    requires PartPath(cfg, dir, name, a, x) == PartPath(cfg, dir, name, b, y)
    ensures a == b && x == y
  {
    assert PartPath(cfg, dir, name, a, x)[|dir|] == cfg.make(name, a, x);
    assert PartPath(cfg, dir, name, b, y)[|dir|] == cfg.make(name, b, y);
    assert cfg.parse(cfg.make(name, a, x)) == Names.Match(name, a, "", x);
  }

  /** A sound transfer to a fresh destination mirrors the object there. */
  lemma TransferMirrors(cfg: Config, job: Transfer, rs: Remotes, k: nat, name: string, v: View)
    requires NamesLawful(cfg) && Names.PlainName(name)
    requires v.Chunked? && v == ViewOf(cfg, job.rs0, job.src, name) && job.locs == ObjectLocations(cfg, job.src, name, v)
    requires job.Sound() && job.Done(rs, k) && job.kind != RemoveIt && FreshAt(cfg, job.rs0, job.dst, name)
    requires Unambiguous(cfg, job.rs0, job.src, name)
    ensures Sent(v, k) <= |v.parts|
    ensures Mirrors(cfg, job.rs0, job.src, name, v, rs, job.dst, name, Sent(v, k), v.meta.Some? && k > 0)
  {
    ListedNumbers(cfg, job.rs0, job.src, name);
    SentBound(cfg, job, rs, k, name, v);
    DoneLength(job, rs, k);
    hide ViewOf, ObjectLocations, FreshAt, NamesLawful, Transfer.Sound, Transfer.Done, Seen, Unambiguous;
    ChunksMirrored(cfg, job, rs, k, name, v);
    BaseMirrored(cfg, job, rs, k, name, v);
    hide IsSent, PartPath, FileAt;
  }

  lemma ListedNumbers(cfg: Config, rs: Remotes, dir: Path, name: string)
    requires NamesLawful(cfg) && ViewOf(cfg, rs, dir, name).Chunked?
    ensures var v := ViewOf(cfg, rs, dir, name);
      forall j :: 0 <= j < |v.parts| ==> IsNumber(cfg, v.parts[j].no) && Names.IsXact(v.parts[j].xact)
  {
    ListedParts(cfg, rs, dir, name);
    var v := ViewOf(cfg, rs, dir, name);
    assert forall j :: 0 <= j < |v.parts| ==> PartExists(cfg, rs, dir, name, v.parts[j].no, XactOf(v));
  }

  lemma ChunksMirrored(cfg: Config, job: Transfer, rs: Remotes, k: nat, name: string, v: View)
    requires NamesLawful(cfg) && Names.PlainName(name)
    requires v.Chunked? && job.locs == ObjectLocations(cfg, job.src, name, v) && Sent(v, k) <= |v.parts|
    requires forall j :: 0 <= j < |v.parts| ==> IsNumber(cfg, v.parts[j].no) && Names.IsXact(v.parts[j].xact)
    requires job.Sound() && job.Done(rs, k) && job.kind != RemoveIt && FreshAt(cfg, job.rs0, job.dst, name)
    requires |rs| == |job.rs0| && Unambiguous(cfg, job.rs0, job.src, name)
    ensures forall i, no: nat, x :: 0 <= i < |rs| && IsNumber(cfg, no) && Names.IsXact(x) ==>
      FileAt(Seen(cfg, rs)[i], PartPath(cfg, job.dst, name, no, x)) ==
        if IsSent(v, Sent(v, k), no, x, i) then FileAt(Seen(cfg, job.rs0)[i], PartPath(cfg, job.src, name, no, x)) else None
  {
    hide ObjectLocations, FreshAt, NamesLawful, Transfer.Sound, Transfer.Done, Seen, Unambiguous;
    forall i, no: nat, x | 0 <= i < |rs| && IsNumber(cfg, no) && Names.IsXact(x)
      ensures FileAt(Seen(cfg, rs)[i], PartPath(cfg, job.dst, name, no, x)) ==
        if IsSent(v, Sent(v, k), no, x, i) then FileAt(Seen(cfg, job.rs0)[i], PartPath(cfg, job.src, name, no, x)) else None
    {
      DestPart(cfg, job, rs, k, name, v, no, x, i);
    }
  }

  lemma BaseMirrored(cfg: Config, job: Transfer, rs: Remotes, k: nat, name: string, v: View)
    requires NamesLawful(cfg) && Names.PlainName(name)
    requires v.Chunked? && job.locs == ObjectLocations(cfg, job.src, name, v)
    requires forall j :: 0 <= j < |v.parts| ==> IsNumber(cfg, v.parts[j].no) && Names.IsXact(v.parts[j].xact)
    requires job.Sound() && job.Done(rs, k) && job.kind != RemoveIt && FreshAt(cfg, job.rs0, job.dst, name)
    requires |rs| == |job.rs0|
    ensures forall i :: 0 <= i < |rs| && IsBaseName(cfg, name) ==>
      FileAt(rs[i], job.dst + [name]) ==
        if v.meta.Some? && k > 0 && i == v.main then FileAt(job.rs0[i], job.src + [name]) else None
  {
    hide ObjectLocations, FreshAt, NamesLawful, Transfer.Sound, Transfer.Done;
    forall i | 0 <= i < |rs| && IsBaseName(cfg, name)
      ensures FileAt(rs[i], job.dst + [name]) ==
        if v.meta.Some? && k > 0 && i == v.main then FileAt(job.rs0[i], job.src + [name]) else None
    {
      DestBase(cfg, job, rs, k, name, v, i);
    }
  }

  lemma DestPart(cfg: Config, job: Transfer, rs: Remotes, k: nat, name: string, v: View, no: nat, x: string, i: nat)
    requires NamesLawful(cfg) && Names.PlainName(name) && IsNumber(cfg, no) && Names.IsXact(x)
    requires v.Chunked? && job.locs == ObjectLocations(cfg, job.src, name, v) && Sent(v, k) <= |v.parts|
    requires forall j :: 0 <= j < |v.parts| ==> IsNumber(cfg, v.parts[j].no) && Names.IsXact(v.parts[j].xact)
    requires job.Sound() && job.Done(rs, k) && job.kind != RemoveIt && FreshAt(cfg, job.rs0, job.dst, name) && i < |rs|
    requires Unambiguous(cfg, job.rs0, job.src, name)
    ensures FileAt(Seen(cfg, rs)[i], PartPath(cfg, job.dst, name, no, x)) ==
      if IsSent(v, Sent(v, k), no, x, i) then FileAt(Seen(cfg, job.rs0)[i], PartPath(cfg, job.src, name, no, x)) else None
  {
    hide Seen, ObjectLocations, FreshAt, Transfer.Done, Transfer.Sound, Unambiguous;
    var file := cfg.make(name, no, x);
    SpellingReads(cfg, job.dst, name, no, x, file);
    DoneLength(job, rs, k);
    forall n | Canon(cfg, n) == Canon(cfg, file)
      ensures FileAt(rs[i], job.dst + [n]) ==
        if n == file && IsSent(v, Sent(v, k), no, x, i) then FileAt(job.rs0[i], job.src + [n]) else None
    {
      DestSpelling(cfg, job, rs, k, name, v, no, x, i, n);
    }
    SeenOnly(cfg, rs, i, job.dst, file);
    if IsSent(v, Sent(v, k), no, x, i) {
      SentIsSeen(cfg, job, rs, k, name, v, no, x, i);
    }
    hide NamesLawful, Canon;
  }

  /** What arrives of the files that read as one chunk: the canonically spelled one, if it was sent. */
  lemma DestSpelling(cfg: Config, job: Transfer, rs: Remotes, k: nat, name: string, v: View, no: nat, x: string, i: nat, n: string)
    requires NamesLawful(cfg) && Names.PlainName(name) && IsNumber(cfg, no) && Names.IsXact(x)
    requires v.Chunked? && job.locs == ObjectLocations(cfg, job.src, name, v) && Sent(v, k) <= |v.parts|
    requires forall j :: 0 <= j < |v.parts| ==> IsNumber(cfg, v.parts[j].no) && Names.IsXact(v.parts[j].xact)
    requires job.Sound() && job.Done(rs, k) && job.kind != RemoveIt && FreshAt(cfg, job.rs0, job.dst, name) && i < |rs|
    requires Canon(cfg, n) == cfg.make(name, no, x)
    ensures FileAt(rs[i], job.dst + [n]) ==
      if n == cfg.make(name, no, x) && IsSent(v, Sent(v, k), no, x, i) then FileAt(job.rs0[i], job.src + [n]) else None
  {
    SpellingReads(cfg, job.dst, name, no, x, n);
    hide ObjectLocations, FreshAt, Transfer.Done, Transfer.Sound;
    DestFile(cfg, job, rs, k, i, n, name);
    assert k <= |job.locs| by { DoneLength(job, rs, k); }
    if Location(job.src + [n], i) in job.locs[..k] {
      var l :| 0 <= l < k && job.locs[l] == Location(job.src + [n], i);
      LocationAt(cfg, job.src, name, v, l);
      LocationNames(cfg, job.src, name, v, l, n, i);
      PrefixOnly(cfg, job.src, name, v, k, no, x, i);
    }
    if IsSent(v, Sent(v, k), no, x, i) {
      var j :| 0 <= j < Sent(v, k) && v.parts[j].no == no && v.parts[j].remote == i && v.parts[j].xact == x;
      PrefixHas(cfg, job.src, name, v, k, j);
    }
  }

  /** The only chunk files among the locations are spelled canonically. */
  lemma LocationNames(cfg: Config, src: Path, name: string, v: View, l: nat, n: string, i: nat)
    requires NamesLawful(cfg) && v.Chunked? && l < |ObjectLocations(cfg, src, name, v)| && Names.PlainName(name)
    requires forall j :: 0 <= j < |v.parts| ==> IsNumber(cfg, v.parts[j].no) && Names.IsXact(v.parts[j].xact)
    requires ObjectLocations(cfg, src, name, v)[l] == Location(src + [n], i) && IsChunkName(cfg, n) && cfg.parse(n).main == name
    ensures CanonicalName(cfg, n)
  {
    LocationAt(cfg, src, name, v, l);
    assert (src + [n])[|src|] == n && (src + [name])[|src|] == name;
    if l >= if v.meta.Some? then 1 else 0 {
      var p := v.parts[l - if v.meta.Some? then 1 else 0];
      assert PartPath(cfg, src, name, p.no, p.xact)[|src|] == cfg.make(name, p.no, p.xact);
      SpellingReads(cfg, src, name, p.no, p.xact, n);
    }
  }

  /** What was sent is what the listing took, where the remotes spell each chunk in one way. */
  lemma SentIsSeen(cfg: Config, job: Transfer, rs: Remotes, k: nat, name: string, v: View, no: nat, x: string, i: nat)
    requires NamesLawful(cfg) && Names.PlainName(name) && IsNumber(cfg, no) && Names.IsXact(x)
    requires v.Chunked? && job.locs == ObjectLocations(cfg, job.src, name, v) && Sent(v, k) <= |v.parts|
    requires job.Done(rs, k) && job.kind != RemoveIt && i < |job.rs0|
    requires Unambiguous(cfg, job.rs0, job.src, name) && IsSent(v, Sent(v, k), no, x, i)
    ensures FileAt(Seen(cfg, job.rs0)[i], PartPath(cfg, job.src, name, no, x)) == FileAt(job.rs0[i], PartPath(cfg, job.src, name, no, x))
  {
    var file := cfg.make(name, no, x);
    var j :| 0 <= j < Sent(v, k) && v.parts[j].no == no && v.parts[j].remote == i && v.parts[j].xact == x;
    PrefixHas(cfg, job.src, name, v, k, j);
    assert job.Exists(Location(job.src + [file], i));
    SpellingReads(cfg, job.src, name, no, x, file);
    hide Seen, Transfer.Done, ObjectLocations;
    forall n | Canon(cfg, n) == Canon(cfg, file) && FileAt(job.rs0[i], job.src + [n]).Some?
      ensures n == file
    {
      assert Owned(cfg, job.src, name, job.src + [file]);
    }
    SeenOnly(cfg, job.rs0, i, job.src, file);
  }

  lemma DestBase(cfg: Config, job: Transfer, rs: Remotes, k: nat, name: string, v: View, i: nat)
    requires NamesLawful(cfg) && Names.PlainName(name)
    requires v.Chunked? && job.locs == ObjectLocations(cfg, job.src, name, v)
    requires forall j :: 0 <= j < |v.parts| ==> IsNumber(cfg, v.parts[j].no) && Names.IsXact(v.parts[j].xact)
    requires job.Sound() && job.Done(rs, k) && job.kind != RemoveIt && FreshAt(cfg, job.rs0, job.dst, name) && i < |rs|
    requires IsBaseName(cfg, name)
    ensures FileAt(rs[i], job.dst + [name]) ==
      if v.meta.Some? && k > 0 && i == v.main then FileAt(job.rs0[i], job.src + [name]) else None
  {
    var p := job.dst + [name];
    assert p[..|job.dst|] == job.dst && p[|job.dst|] == name;
    hide ObjectLocations, FreshAt, Transfer.Done;
    DestFile(cfg, job, rs, k, i, name, name);
    BasePrefix(cfg, job.src, name, v, k, i);
  }

  lemma BasePrefix(cfg: Config, src: Path, name: string, v: View, k: nat, i: nat)
    requires NamesLawful(cfg) && Names.PlainName(name) && v.Chunked? && k <= |ObjectLocations(cfg, src, name, v)|
    requires forall j :: 0 <= j < |v.parts| ==> IsNumber(cfg, v.parts[j].no) && Names.IsXact(v.parts[j].xact)
    ensures Location(src + [name], i) in ObjectLocations(cfg, src, name, v)[..k]
       <==> v.meta.Some? && k > 0 && i == v.main
  {
    var locs := ObjectLocations(cfg, src, name, v);
    if k > 0 { LocationAt(cfg, src, name, v, 0); }
    forall j | 0 <= j < |v.parts|
      ensures PartPath(cfg, src, name, v.parts[j].no, v.parts[j].xact) != src + [name]
    {
      PathsDiffer(cfg, src, name, v.parts[j].xact, v.parts[j].no, v.parts[j].no);
    }
    if Location(src + [name], i) in locs[..k] {
      var l :| 0 <= l < k && locs[l] == Location(src + [name], i);
      LocationAt(cfg, src, name, v, l);
    }
    if v.meta.Some? && k > 0 {
      assert locs[..k][0] == Location(src + [name], v.main);
    }
  }

  lemma SentBound(cfg: Config, job: Transfer, rs: Remotes, k: nat, name: string, v: View)
    requires v.Chunked? && job.locs == ObjectLocations(cfg, job.src, name, v)
    requires job.Done(rs, k)
    ensures Sent(v, k) <= |v.parts|
  {
    if k > 0 { LocationAt(cfg, job.src, name, v, k - 1); }
  }

  lemma DoneLength(job: Transfer, rs: Remotes, k: nat)
    requires job.Done(rs, k)
    ensures |rs| == |job.rs0| && k <= |job.locs|
  {
  }

  /** What the destination lists after `k` locations, where no remote spells a chunk of the object in two ways. */
  lemma DestLists(cfg: Config, job: Transfer, rs: Remotes, k: nat, name: string, v: View)
    requires NamesLawful(cfg)
    requires v.Chunked? && v == ViewOf(cfg, job.rs0, job.src, name) && job.locs == ObjectLocations(cfg, job.src, name, v)
    requires job.Sound() && job.Done(rs, k) && job.kind != RemoveIt && FreshAt(cfg, job.rs0, job.dst, name)
    requires Unambiguous(cfg, job.rs0, job.src, name)
    ensures Sent(v, k) <= |v.parts|
    ensures ViewOf(cfg, rs, job.dst, name)
         == MirrorView(v, FirstData(job.rs0, job.src + [name]), Sent(v, k), v.meta.Some? && k > 0)
  {
    ListedNames(cfg, job.rs0, job.src, name);
    TransferMirrors(cfg, job, rs, k, name, v);
    ListedMeta(cfg, job.rs0, job.src, name);
    hide ViewOf, Mirrors, Transfer.Sound, Transfer.Done, ObjectLocations, FreshAt;
    MirrorLists(cfg, job.rs0, job.src, name, v, rs, job.dst, name, Sent(v, k), v.meta.Some? && k > 0);
  }

  /** At a fresh destination all chunk files are spelled canonically. */
  lemma DestProper(cfg: Config, job: Transfer, rs: Remotes, k: nat, name: string, v: View, x: string)
    requires NamesLawful(cfg)
    requires v.Chunked? && v == ViewOf(cfg, job.rs0, job.src, name) && job.locs == ObjectLocations(cfg, job.src, name, v)
    requires job.Sound() && job.Done(rs, k) && job.kind != RemoveIt && FreshAt(cfg, job.rs0, job.dst, name)
    ensures Proper(cfg, rs, job.dst, name, x)
  {
    ListedNumbers(cfg, job.rs0, job.src, name);
    ListedNames(cfg, job.rs0, job.src, name);
    DoneLength(job, rs, k);
    hide ViewOf, ObjectLocations, FreshAt, Transfer.Done, Transfer.Sound;
    forall i, file | 0 <= i < |rs| && ReadsAs(cfg, file, name, x) && FileAt(rs[i], job.dst + [file]).Some?
      ensures CanonicalName(cfg, file)
    {
      WhoseFile(cfg, job.dst, file, job.dst, name);
      DestFile(cfg, job, rs, k, i, file, name);
      var l :| 0 <= l < k && job.locs[l] == Location(job.src + [file], i);
      LocationNames(cfg, job.src, name, v, l, file, i);
    }
  }

  /** A plain file arrives in one step. */
  lemma PlainArrives(cfg: Config, job: Transfer, rs: Remotes, k: nat, name: string, v: View)
    requires NamesLawful(cfg) && v.Plain? && v == ViewOf(cfg, job.rs0, job.src, name) && job.locs == ObjectLocations(cfg, job.src, name, v)
    requires job.Sound() && job.Done(rs, k) && job.kind != RemoveIt && FreshAt(cfg, job.rs0, job.dst, name)
    ensures ViewOf(cfg, rs, job.dst, name) == if k == 0 then Absent else v
  {
    ListedNames(cfg, job.rs0, job.src, name);
    assert (job.dst + [name])[..|job.dst|] == job.dst && (job.dst + [name])[|job.dst|] == name;
    assert job.locs == [Location(job.src + [name], v.remote)];
    assert k > 0 ==> job.locs[..k] == job.locs;
    forall i | 0 <= i < |rs|
      ensures FileAt(rs[i], job.dst + [name]) == if k > 0 && i == v.remote then FileAt(job.rs0[i], job.src + [name]) else None
    {
      DestFile(cfg, job, rs, k, i, name, name);
    }
    forall no: nat, x
      ensures !PartExists(cfg, rs, job.dst, name, no, x)
    {
      if Names.PlainName(name) && IsNumber(cfg, no) && Names.IsXact(x) {
        PlainSendsNoChunk(cfg, job, rs, k, name, v, no, x);
      }
    }
    DoneLength(job, rs, k);
    assert FileAt(job.rs0[v.remote], job.src + [name]) == Some(v.data) && IsBaseName(cfg, name);
    hide NamesLawful, Transfer.Sound, Transfer.Done, FreshAt, ViewOf, ObjectLocations;
    if k > 0 {
      assert FirstFile(rs, job.dst + [name]) == Some(v.remote);
      ViewPlain(cfg, rs, job.dst, name, v.remote, v.data);
    } else {
      NoParts(cfg, rs, job.dst, name, "");
      ViewBare(cfg, rs, job.dst, name);
    }
  }

  lemma PlainSendsNoChunk(cfg: Config, job: Transfer, rs: Remotes, k: nat, name: string, v: View, no: nat, x: string)
    requires NamesLawful(cfg) && v.Plain? && job.locs == ObjectLocations(cfg, job.src, name, v)
    requires Names.PlainName(name) && IsNumber(cfg, no) && Names.IsXact(x)
    requires job.Sound() && job.Done(rs, k) && job.kind != RemoveIt && FreshAt(cfg, job.rs0, job.dst, name)
    ensures FirstFile(Seen(cfg, rs), PartPath(cfg, job.dst, name, no, x)).None?
  {
    hide Seen;
    forall i | 0 <= i < |rs|
      ensures FileAt(Seen(cfg, rs)[i], PartPath(cfg, job.dst, name, no, x)).None?
    {
      var n := SeenSome(cfg, rs, i, job.dst, cfg.make(name, no, x));
      SpellingReads(cfg, job.dst, name, no, x, n);
      if Canon(cfg, n) == cfg.make(name, no, x) {
        DestFile(cfg, job, rs, k, i, n, name);
        JoinUnique(job.src, n, job.src, name);
      }
    }
  }
}
