/** Move, Copy and Remove of file objects, and what they promise at every step. */
module ChunkMoves {
  import opened Prelude
  import opened RemoteStore
  import opened RemoteOps
  import opened ChunkView
  import opened ChunkStates
  import opened ChunkUpload
  import opened ChunkReader
  import opened ChunkAccess
  import opened ChunkTransfer
  import opened Mirror
  import opened TransferViews

  /** Every other logical name lists as before. */
  ghost predicate OthersKept(cfg: Config, job: Transfer, rs: Remotes, name: string) {
    forall d, n :: (d, n) != (job.src, name) && (job.kind == RemoveIt || (d, n) != (job.dst, name)) ==>
      ViewOf(cfg, rs, d, n) == ViewOf(cfg, job.rs0, d, n)
  }

  lemma ElsewhereSame(cfg: Config, job: Transfer, rs: Remotes, k: nat, name: string, i: nat, p: Path)
    requires job.Sound() && job.Done(rs, k) && i < |rs|
    requires forall l :: l in job.locs ==> Owned(cfg, job.src, name, l.path)
    requires !Owned(cfg, job.src, name, p) && (job.kind == RemoveIt || !Owned(cfg, job.dst, name, p))
    ensures FileAt(rs[i], p) == FileAt(job.rs0[i], p)
  {
    assert FileAt(rs[i], p) == job.Expected(i, p, k);
    if |p| == |job.dst| + 1 {
      var q := job.src + [p[|job.dst|]];
      assert q[..|job.src|] == job.src && q[|job.src|] == p[|job.dst|];
      assert Location(q, i) in job.locs ==> Owned(cfg, job.src, name, q);
    }
  }

  lemma TransferKeepsOthers(cfg: Config, job: Transfer, rs: Remotes, k: nat, name: string)
    requires NamesLawful(cfg) && job.Sound() && job.Done(rs, k)
    requires forall l :: l in job.locs ==> Owned(cfg, job.src, name, l.path)
    ensures OthersKept(cfg, job, rs, name)
  {
    DoneLength(job, rs, k);
    hide NamesLawful, Transfer.Sound, Transfer.Done, ViewOf;
    forall d, n | (d, n) != (job.src, name) && (job.kind == RemoveIt || (d, n) != (job.dst, name))
      ensures ViewOf(cfg, rs, d, n) == ViewOf(cfg, job.rs0, d, n)
    {
      forall i, p | 0 <= i < |rs| && Owned(cfg, d, n, p)
        ensures FileAt(rs[i], p) == FileAt(job.rs0[i], p)
      {
        if Owned(cfg, job.src, name, p) { OwnedApart(cfg, job.src, name, d, n, p); }
        if job.kind != RemoveIt && Owned(cfg, job.dst, name, p) { OwnedApart(cfg, job.dst, name, d, n, p); }
        ElsewhereSame(cfg, job, rs, k, name, i, p);
      }
      ViewFrame(cfg, job.rs0, rs, d, n);
    }
  }

  /** What a state of a transfer promises when `k` locations have been handled. */
  ghost predicate Halfway(cfg: Config, job: Transfer, rs: Remotes, k: nat, name: string, v: View) {
    && k <= |job.locs|
    // The source is unlisted exactly when nothing else of that name was lying around.
    && (job.kind != CopyIt ==> (ViewOf(cfg, rs, job.src, name) == Absent <==> Lone(cfg, job, name, k)))
    && (job.kind == CopyIt ==> ViewOf(cfg, rs, job.src, name) == v)
    // A fresh destination shows the metadata text, then the object with its first chunks.
    && (job.kind != RemoveIt && v.Chunked? && FreshAt(cfg, job.rs0, job.dst, name) && Unambiguous(cfg, job.rs0, job.src, name) ==>
          && Sent(v, k) <= |v.parts|
          && ViewOf(cfg, rs, job.dst, name)
             == MirrorView(v, FirstData(job.rs0, job.src + [name]), Sent(v, k), v.meta.Some? && k > 0))
    && (job.kind != RemoveIt && v.Chunked? && FreshAt(cfg, job.rs0, job.dst, name) ==>
          Proper(cfg, rs, job.dst, name, XactOf(v)))
    && (job.kind != RemoveIt && v.Plain? && FreshAt(cfg, job.rs0, job.dst, name) ==>
          ViewOf(cfg, rs, job.dst, name) == if k == 0 then Absent else v)
    && OthersKept(cfg, job, rs, name)
  }

  lemma CopyKeepsSource(cfg: Config, job: Transfer, rs: Remotes, k: nat, name: string, v: View)
    requires NamesLawful(cfg) && job.kind == CopyIt && job.Sound() && job.Done(rs, k)
    requires v == ViewOf(cfg, job.rs0, job.src, name)
    ensures ViewOf(cfg, rs, job.src, name) == v
  {
    hide ViewOf, NamesLawful;
    forall i, p | 0 <= i < |rs| && Owned(cfg, job.src, name, p)
      ensures FileAt(rs[i], p) == FileAt(job.rs0[i], p)
    {
      assert p == job.src + [p[|job.src|]] && FileAt(rs[i], p) == job.Expected(i, p, k);
    }
    hide Transfer.Sound, Transfer.Done;
    ViewFrame(cfg, job.rs0, rs, job.src, name);
  }

  lemma HalfwayHolds(cfg: Config, job: Transfer, rs: Remotes, k: nat, name: string, v: View)
    requires NamesLawful(cfg)
    requires v == ViewOf(cfg, job.rs0, job.src, name) && job.locs == ObjectLocations(cfg, job.src, name, v)
    requires job.Sound() && job.Done(rs, k)
    ensures Halfway(cfg, job, rs, k, name, v)
  {
    ListedLocations(cfg, job.rs0, job.src, name);
    hide ViewOf, Transfer.Sound, NamesLawful, FreshAt, ObjectLocations, Seen, Unambiguous, Lone, Proper;
    if job.kind != CopyIt {
      SourceVanishes(cfg, job, rs, k, name);
    } else {
      CopyKeepsSource(cfg, job, rs, k, name, v);
    }
    TransferKeepsOthers(cfg, job, rs, k, name);
    if job.kind != RemoveIt && v.Chunked? && FreshAt(cfg, job.rs0, job.dst, name) && Unambiguous(cfg, job.rs0, job.src, name) {
      DestLists(cfg, job, rs, k, name, v);
    }
    if job.kind != RemoveIt && v.Chunked? && FreshAt(cfg, job.rs0, job.dst, name) {
      DestProper(cfg, job, rs, k, name, v, XactOf(v));
    }
    if job.kind != RemoveIt && v.Plain? && FreshAt(cfg, job.rs0, job.dst, name) {
      PlainArrives(cfg, job, rs, k, name, v);
    }
  }

  ghost predicate AllHalfway(cfg: Config, job: Transfer, trace: seq<Remotes>, steps: seq<nat>, name: string, v: View) {
    && |trace| == job.start + |steps|
    && (forall j :: 0 <= j < |steps| ==> Halfway(cfg, job, trace[job.start + j], steps[j], name, v))
    && (forall i, j :: 0 <= i <= j < |steps| ==> steps[i] <= steps[j])
  }

  lemma RunIsHalfway(cfg: Config, job: Transfer, rs: Remotes, trace: seq<Remotes>, steps: seq<nat>, k: nat, name: string, v: View)
    requires NamesLawful(cfg)
    requires v == ViewOf(cfg, job.rs0, job.src, name) && job.locs == ObjectLocations(cfg, job.src, name, v)
    requires job.Sound() && job.Run(rs, trace, steps, k)
    ensures AllHalfway(cfg, job, trace, steps, name, v) && Halfway(cfg, job, rs, k, name, v)
  {
    HalfwayHolds(cfg, job, rs, k, name, v);
    forall j | 0 <= j < |steps|
      ensures Halfway(cfg, job, trace[job.start + j], steps[j], name, v)
    {
      HalfwayHolds(cfg, job, trace[job.start + j], steps[j], name, v);
    }
  }

  /** Move, Copy or Remove of a file object as it is listed.  `steps` counts the locations handled in
      every state the run passes through, up to where it stopped.  It asks for one operation on every location in
      turn, and fails only where one of these does.  A Move or Copy stops at the latest at a chunk
      that is listed in another spelling only; a Remove passes over it. */
  method TransferFile(m: Mounts, cfg: Config, kind: Kind, src: Path, dst: Path, name: string, v: View)
      returns (ok: bool, ghost steps: seq<nat>)
    requires m.Valid() && Lawful(cfg) && v == ViewOf(cfg, m.remotes, src, name)
    modifies m
    ensures m.Valid() && old(m.trace) <= m.trace
    ensures var job := TransferOf(cfg, kind, old(m.remotes), |old(m.trace)|, src, dst, name, v);
      (kind != RemoveIt ==> src != dst) && Unobstructed(job) ==>
        && AllHalfway(cfg, job, m.trace, steps, name, v)
        && (ok ==> Halfway(cfg, job, m.remotes, |job.locs|, name, v))
        && (ok && kind != RemoveIt ==> forall l :: l in job.locs ==> job.Exists(l))
    ensures var locs := ObjectLocations(cfg, src, name, v);
      old(m.log) <= m.log && InOrder(m.log, |old(m.log)|, TransferCalls(kind, dst, locs, |locs|), ok)
  {
    ghost var job := TransferOf(cfg, kind, m.remotes, |m.trace|, src, dst, name, v);
    var locs := ObjectLocations(cfg, src, name, v);
    ListedLocations(cfg, m.remotes, src, name);
    ghost var sound := (kind != RemoveIt ==> src != dst) && Unobstructed(job);
    if sound {
      TransferIsSound(cfg, kind, m.remotes, |m.trace|, src, dst, name);
    }
    hide ViewOf, Transfer.Sound, Transfer.Run, NamesLawful, MetaLawful, AllHalfway, Halfway, Seen, Unobstructed, InOrder, TransferCalls;
    ghost var k;
    ok, steps, k := TransferObject(m, kind, dst, locs, job);
    if sound {
      RunIsHalfway(cfg, job, m.remotes, m.trace, steps, k, name, v);
      if ok && kind != RemoveIt { AllExisted(job, m.remotes, m.trace, steps); }
    }
  }

  lemma AllExisted(job: Transfer, rs: Remotes, trace: seq<Remotes>, steps: seq<nat>)
    requires job.Sound() && job.Run(rs, trace, steps, |job.locs|) && job.kind != RemoveIt
    ensures forall l :: l in job.locs ==> job.Exists(l)
  {
  }

  /** Once at least one chunk has reached a fresh destination, every range read there gives the bytes that were
      listed at the source, or fails for missing data; and where the source's chunks were spelled canonically those
      are the bytes it gave. */
  lemma HalfMovedReads(cfg: Config, job: Transfer, rs: Remotes, k: nat, name: string, v: View,
                       own: OwnLink, start: int, length: int)
    requires job.kind != RemoveIt && v.Chunked? && v.meta.Some? && FreshAt(cfg, job.rs0, job.dst, name)
    requires Unambiguous(cfg, job.rs0, job.src, name)
    requires NamesLawful(cfg) && v == ViewOf(cfg, job.rs0, job.src, name) && Halfway(cfg, job, rs, k, name, v) && k >= 2
    ensures var r := ReadNow(cfg, rs, job.dst, name, own, start, length);
      r == ReadView(v, own, start, length) || r == Err(MISSING)
    ensures Proper(cfg, job.rs0, job.src, name, XactOf(v)) ==>
      ReadNow(cfg, job.rs0, job.src, name, own, start, length) == ReadView(v, own, start, length)
  {
    hide ViewOf, FreshAt, Lone, OthersKept, Unambiguous, FirstData, Proper, NamesLawful, ReadNow;
    if Proper(cfg, job.rs0, job.src, name, XactOf(v)) { ProperReads(cfg, job.rs0, job.src, name, own, start, length); }
    ProperReads(cfg, rs, job.dst, name, own, start, length);
    assert Datas(v.parts[..k - 1]) == Datas(v.parts)[..k - 1];
    PrefixRead(Datas(v.parts), k - 1, v.size, start, length);
  }

  /** A finished Move or Copy of a chunked object to a fresh destination lists it there unchanged, chunk
      numbers, remotes and all, unless metadata came without any chunk. */
  lemma TransferComplete(cfg: Config, job: Transfer, rs: Remotes, name: string, v: View)
    requires job.kind != RemoveIt && v.Chunked? && job.locs == ObjectLocations(cfg, job.src, name, v)
    ensures
      && FreshAt(cfg, job.rs0, job.dst, name) && Unambiguous(cfg, job.rs0, job.src, name) && v == ViewOf(cfg, job.rs0, job.src, name)
      && Halfway(cfg, job, rs, |job.locs|, name, v) ==>
      (ViewOf(cfg, rs, job.dst, name) == v <==> v.parts != [])
  {
    hide ViewOf, FreshAt, OthersKept, Lone, FirstFile, FirstData, PartPath, Unambiguous;
    if v == ViewOf(cfg, job.rs0, job.src, name) { ListedMeta(cfg, job.rs0, job.src, name); }
    assert v.parts[..|v.parts|] == v.parts;
  }

  /** A tagged object with no second base copy and no untagged chunks of its name, in any spelling, is alone, however
      many of its locations have been handled, as long as the metadata is among them. */
  lemma TaggedIsLone(cfg: Config, job: Transfer, name: string, v: View, k: nat)
    requires v.Chunked? && v.meta.Some? && 1 <= k <= |job.locs| && job.locs == ObjectLocations(cfg, job.src, name, v)
    requires forall i :: 0 <= i < |job.rs0| && i != v.main ==> FileAt(job.rs0[i], job.src + [name]).None?
    requires Unused(cfg, job.rs0, job.src, name, "")
    ensures Lone(cfg, job, name, k)
  {
    LocationAt(cfg, job.src, name, v, 0);
    assert job.locs[..k][0] == Location(job.src + [name], v.main);
  }
}
