/** The steps a Put is made of: the chunk loop and the cleanup of what was replaced. */
module ChunkUpload {
  import opened Prelude
  import opened RemoteStore
  import opened RemoteOps
  import opened ChunkView
  import opened ChunkStates
  import Names = ChunkNames

  /** Where a location of a listed object points: the remote holds that file of the name, in whatever spelling. */
  ghost predicate Present(cfg: Config, rs: Remotes, dir: Path, name: string, l: Location) {
    l.remote < |rs| && FileAt(Seen(cfg, rs)[l.remote], l.path).Some? && Owned(cfg, dir, name, l.path)
  }

  lemma PartPresent(cfg: Config, rs: Remotes, dir: Path, name: string, x: string, no: nat)
    requires NamesLawful(cfg) && PartExists(cfg, rs, dir, name, no, x)
    ensures var p := PartOf(cfg, rs, dir, name, x, no);
      p.xact == x && Present(cfg, rs, dir, name, Location(PartPath(cfg, dir, name, no, x), p.remote))
  {
    hide Seen;
    IsPartPathOf(cfg, dir, name, no, x);
  }

  lemma ListedPartsPresent(cfg: Config, rs: Remotes, dir: Path, name: string, v: View)
    requires NamesLawful(cfg) && v == ViewOf(cfg, rs, dir, name) && v.Chunked?
    ensures forall j :: 0 <= j < |v.parts| ==>
      Present(cfg, rs, dir, name, Location(PartPath(cfg, dir, name, v.parts[j].no, v.parts[j].xact), v.parts[j].remote))
  {
    hide Present, NamesLawful, PartNos, FirstFile, FirstData, PartExists, Parts, PartOf, Seen, MetaOf, AnyPart;
    var x := if v.meta.Some? then v.meta.value.xact else "";
    assert v.parts == Parts(cfg, rs, dir, name, x);
    hide ViewOf;
    PartsProperties(cfg, rs, dir, name, x);
    forall j | 0 <= j < |v.parts|
      ensures Present(cfg, rs, dir, name, Location(PartPath(cfg, dir, name, v.parts[j].no, v.parts[j].xact), v.parts[j].remote))
    {
      PartPresent(cfg, rs, dir, name, x, v.parts[j].no);
    }
  }

  lemma ListedBasePresent(cfg: Config, rs: Remotes, dir: Path, name: string, v: View)
    requires NamesLawful(cfg) && v == ViewOf(cfg, rs, dir, name) && (v.Plain? || (v.Chunked? && v.meta.Some?))
    ensures Present(cfg, rs, dir, name, Location(dir + [name], if v.Plain? then v.remote else v.main))
    ensures FileAt(rs[if v.Plain? then v.remote else v.main], dir + [name]).Some?
  {
    hide Seen, Parts, AnyPart, FirstData;
    SeenPlain(cfg, rs, if v.Plain? then v.remote else v.main, dir, name);
    assert (dir + [name])[|dir|] == name && (dir + [name])[..|dir|] == dir;
    hide NamesLawful;
  }

  /** Every location of a listed object is where its remote holds that file of the object, in whatever spelling. */
  lemma ListedLocations(cfg: Config, rs: Remotes, dir: Path, name: string)
    requires NamesLawful(cfg)
    ensures forall l :: l in ObjectLocations(cfg, dir, name, ViewOf(cfg, rs, dir, name)) ==> Present(cfg, rs, dir, name, l)
  {
    hide Seen;
    var v := ViewOf(cfg, rs, dir, name);
    if v.Plain? || (v.Chunked? && v.meta.Some?) {
      ListedBasePresent(cfg, rs, dir, name, v);
    }
    if v.Chunked? {
      ListedPartsPresent(cfg, rs, dir, name, v);
    }
    hide Present, ViewOf, NamesLawful, PartPath;
  }

  /** From state number `from` on, files have only vanished, and only at `locs`. */
  ghost predicate AllPruned(rs0: Remotes, trace: seq<Remotes>, from: nat, locs: set<Location>) {
    forall j :: from <= j < |trace| ==> Pruned(rs0, trace[j], locs)
  }

  /** The locations of `locs` that cleanup removes. */
  function Doomed(locs: seq<Location>, keep: set<Location>): set<Location> {
    set l | l in locs && l !in keep
  }

  /** What cleanup asks for: the removal of every location that is not kept, in order. */
  function Removals(locs: seq<Location>, keep: set<Location>): seq<Call> {
    if locs == [] then []
    else
      var l := locs[|locs| - 1];
      Removals(locs[..|locs| - 1], keep) + if l in keep then [] else [Call(l.remote, Delete(l.path))]
  }

  lemma RemovalsSnoc(locs: seq<Location>, keep: set<Location>, k: nat)
    ensures k < |locs| ==>
      Removals(locs[..k + 1], keep) == if locs[k] in keep then Removals(locs[..k], keep)
                                       else Removals(locs[..k], keep) + [Call(locs[k].remote, Delete(locs[k].path))]
    ensures Removals(locs[..0], keep) == [] && locs[..|locs|] == locs
  {
    if k < |locs| {
      assert locs[..k + 1][..k] == locs[..k];
      assert Removals(locs[..k], keep) + [] == Removals(locs[..k], keep);
    }
  }

  lemma NothingTried(log: seq<Event>)
    ensures AllTried(log, |log|, [], true)
  {
  }

  /** cleanupReplacedObject: remove every location that is not kept; go on after errors. */
  method Cleanup(m: Mounts, locs: seq<Location>, keep: set<Location>) returns (ok: bool)
    requires m.Valid()
    requires forall l :: l in locs ==>
      l.remote < |m.remotes| && (l.path !in m.remotes[l.remote] || m.remotes[l.remote][l.path].File?)
    modifies m
    ensures m.Valid() && |m.remotes| == |old(m.remotes)| && old(m.trace) <= m.trace
    ensures AllPruned(old(m.remotes), m.trace, |old(m.trace)|, Doomed(locs, keep))
    ensures Pruned(old(m.remotes), m.remotes, Doomed(locs, keep))
    ensures ok ==> forall l :: l in Doomed(locs, keep) ==> FileAt(m.remotes[l.remote], l.path).None?
    ensures old(m.log) <= m.log && AllTried(m.log, |old(m.log)|, Removals(locs, keep), ok)
  {
    ok := true;
    hide AllTried, Removals;
    RemovalsSnoc(locs, keep, 0);
    NothingTried(m.log);
    for k := 0 to |locs|
      invariant m.Valid() && |m.remotes| == |old(m.remotes)| && old(m.trace) <= m.trace
      invariant forall l :: l in locs ==>
        l.path !in m.remotes[l.remote] || m.remotes[l.remote][l.path].File?
      invariant AllPruned(old(m.remotes), m.trace, |old(m.trace)|, Doomed(locs, keep))
      invariant Pruned(old(m.remotes), m.remotes, Doomed(locs, keep))
      invariant ok ==> forall i :: 0 <= i < k && locs[i] !in keep ==> FileAt(m.remotes[locs[i].remote], locs[i].path).None?
      invariant old(m.log) <= m.log && AllTried(m.log, |old(m.log)|, Removals(locs[..k], keep), ok)
    {
      var l := locs[k];
      RemovalsSnoc(locs, keep, k);
      if l in keep {
        continue;
      }
      assert l in Doomed(locs, keep);
      AllTriedOn(m.log, |old(m.log)|, Removals(locs[..k], keep), ok, Call(l.remote, Delete(l.path)), true);
      AllTriedOn(m.log, |old(m.log)|, Removals(locs[..k], keep), ok, Call(l.remote, Delete(l.path)), false);
      var removed := m.Remove(l.remote, l.path);
      ok := ok && removed;
    }
    assert locs[..|locs|] == locs;
  }

  ghost predicate Printable(cfg: Config, name: string, x: string, n: nat) {
    NamesLawful(cfg) && Names.IsXact(x) && Spellable(cfg, name, n)
  }

  /** The first chunks are in place and nothing else has changed. */
  ghost predicate Progress(cfg: Config, rs0: Remotes, rs: Remotes, dir: Path, name: string, x: string,
                           chunks: seq<Bytes>) {
    && Uploading(cfg, rs0, rs, dir, name, x)
    && Holds(cfg, rs, dir, name, x, chunks)
    && OnlyAdds(cfg, rs0, rs, dir, name, x, |chunks|)
  }

  /** Every state from number `from` up to `to` is one of an upload under way. */
  ghost predicate AllUploading(cfg: Config, rs0: Remotes, trace: seq<Remotes>, from: nat, to: nat,
                               dir: Path, name: string, x: string) {
    to <= |trace| && forall j :: from <= j < to ==> Uploading(cfg, rs0, trace[j], dir, name, x)
  }

  /** The path of one of the first `n` chunks, whether or not it reads back as that. */
  ghost predicate IsMade(cfg: Config, dir: Path, name: string, x: string, n: nat, p: Path) {
    exists no :: 0 <= no < n && p == PartPath(cfg, dir, name, no, x)
  }

  /** Only what `n` chunk writes made differs, and, if `base` says so, what lies at the base path and files of the name
      that have vanished. */
  ghost predicate Touched(cfg: Config, rs0: Remotes, rs: Remotes, dir: Path, name: string, x: string, n: nat, base: bool) {
    && |rs| == |rs0|
    && forall i, p ::
        0 <= i < |rs| && !IsMade(cfg, dir, name, x, n, p) && !(base && p == dir + [name]) ==>
          FileAt(rs[i], p) == FileAt(rs0[i], p) || (base && Owned(cfg, dir, name, p) && FileAt(rs[i], p).None?)
  }

  ghost predicate DirsStay(cfg: Config, rs0: Remotes, rs: Remotes, dir: Path, name: string, x: string, n: nat) {
    && |rs| == |rs0|
    && forall i, p :: 0 <= i < |rs| && !IsMade(cfg, dir, name, x, n, p) && p in rs0[i] && rs0[i][p].Dir? ==> p in rs[i] && rs[i][p].Dir?
  }

  /** The first `k` chunk writes have left a file where they should. */
  ghost predicate InPlace(cfg: Config, rs: Remotes, dir: Path, name: string, x: string, k: nat) {
    |rs| > 0 && forall no :: 0 <= no < k ==> FileAt(rs[Target(cfg, |rs|, no)], PartPath(cfg, dir, name, no, x)).Some?
  }

  ghost predicate AllTouched(cfg: Config, rs0: Remotes, trace: seq<Remotes>, from: nat, to: nat, dir: Path, name: string, x: string,
                             n: nat, base: bool) {
    to <= |trace| && forall j :: from <= j < to ==> Touched(cfg, rs0, trace[j], dir, name, x, n, base)
  }

  function NewLocations(cfg: Config, remotes: nat, dir: Path, name: string, x: string, n: nat): set<Location>
    requires remotes > 0
  {
    set no | 0 <= no < n :: Location(PartPath(cfg, dir, name, no, x), Target(cfg, remotes, no))
  }

  /** One upload: its parameters, the remotes it started from and the number of the first state after. */
  datatype Job = Job(cfg: Config, rs0: Remotes, start: nat, dir: Path, name: string, x: string, chunks: seq<Bytes>) {
    ghost predicate Nice() {
      Printable(cfg, name, x, |chunks|)
    }

    /** Whatever has been done so far shows only as chunks of this transaction. */
    ghost predicate Clean(rs: Remotes, trace: seq<Remotes>) {
      && NoNewDirs(rs0, rs, dir)
      && (Nice() ==> AllUploading(cfg, rs0, trace, start, |trace|, dir, name, x))
    }

    /** What holds of names and numbers of every kind. */
    ghost predicate Loose(rs: Remotes, trace: seq<Remotes>, k: nat) {
      && AllTouched(cfg, rs0, trace, start, |trace|, dir, name, x, |chunks|, false)
      && Touched(cfg, rs0, rs, dir, name, x, |chunks|, false) && DirsStay(cfg, rs0, rs, dir, name, x, |chunks|)
      && InPlace(cfg, rs, dir, name, x, k)
    }

    lemma LooseStays(rs: Remotes, trace: seq<Remotes>, k: nat, rs': Remotes)
      requires Loose(rs, trace, k) && |rs'| == |rs|
      requires forall i, p :: 0 <= i < |rs| ==> FileAt(rs'[i], p) == FileAt(rs[i], p)
      requires forall i, p :: 0 <= i < |rs| && p in rs[i] && rs[i][p].Dir? ==> p in rs'[i] && rs'[i][p].Dir?
      ensures Loose(rs', trace + [rs'], k)
    {
      hide PartPath, IsMade;
    }

    lemma LooseOn(rs: Remotes, trace: seq<Remotes>, k: nat)
      requires Loose(rs, trace, k) && k < |chunks|
      ensures Loose(Next(rs, k), trace + [Next(rs, k)], k + 1)
    {
      var p := PartPath(cfg, dir, name, k, x);
      var i, rs' := Target(cfg, |rs|, k), Next(rs, k);
      assert p[..|p| - 1] == dir;
      assert IsMade(cfg, dir, name, x, |chunks|, p);
      assert forall j, q :: 0 <= j < |rs| ==> FileAt(rs'[j], q) == if j == i && q == p then Some(chunks[k]) else FileAt(rs[j], q);
      assert forall j, q :: 0 <= j < |rs| && q != p && q in rs[j] && rs[j][q].Dir? ==> q in rs'[j] && rs'[j][q].Dir?;
      hide IsMade, Written;
    }

    /** The first `k` chunks are written. */
    ghost predicate At(rs: Remotes, trace: seq<Remotes>, k: nat) {
      && Clean(rs, trace) && k <= |chunks| && Loose(rs, trace, k)
      && (Nice() ==> Progress(cfg, rs0, rs, dir, name, x, chunks[..k]))
    }

    function Next(rs: Remotes, k: nat): Remotes
      requires |rs| > 0 && k < |chunks|
    {
      var i := Target(cfg, |rs|, k);
      rs[i := Written(rs[i], PartPath(cfg, dir, name, k, x), chunks[k])]
    }

    lemma Began(rs: Remotes, trace: seq<Remotes>)
      requires rs == rs0 && |rs| > 0 && start == |trace|
      ensures At(rs, trace, 0)
    {
    }

    lemma DirMade(rs: Remotes, trace: seq<Remotes>, k: nat, i: nat)
      requires At(rs, trace, k) && i < |rs|
      ensures var rs' := rs[i := WithDirs(rs[i], dir)]; At(rs', trace + [rs'], k)
      ensures At(rs, trace + [rs], k)
    {
      var rs' := rs[i := WithDirs(rs[i], dir)];
      LooseStays(rs, trace, k, rs);
      LooseStays(rs, trace, k, rs');
      hide Loose;
    }

    lemma ChunkWritten(rs: Remotes, trace: seq<Remotes>, k: nat)
      requires At(rs, trace, k) && k < |chunks| && |rs| > 0
      ensures var rs' := Next(rs, k); At(rs', trace + [rs'], k + 1)
      ensures At(rs, trace + [rs], k)
    {
      var p := PartPath(cfg, dir, name, k, x);
      assert p[..|dir|] == dir;
      LooseOn(rs, trace, k);
      LooseStays(rs, trace, k, rs);
      if Nice() { ProgressOn(rs, k); }
      NoNewDirsOn(rs, k);
      hide Loose, Uploading, Progress, NoNewDirs, Printable, Next;
    }

    lemma ProgressOn(rs: Remotes, k: nat)
      requires Nice() && k < |chunks| && Progress(cfg, rs0, rs, dir, name, x, chunks[..k])
      ensures |rs| > 0 && Progress(cfg, rs0, Next(rs, k), dir, name, x, chunks[..k + 1])
      ensures Uploading(cfg, rs0, rs, dir, name, x) && Uploading(cfg, rs0, Next(rs, k), dir, name, x)
    {
      assert chunks[..k + 1] == chunks[..k] + [chunks[k]];
      WriteChunk(cfg, rs0, rs, dir, name, x, chunks[..k], chunks[k]);
    }

    lemma NoNewDirsOn(rs: Remotes, k: nat)
      requires NoNewDirs(rs0, rs, dir) && k < |chunks| && |rs| > 0
      ensures NoNewDirs(rs0, Next(rs, k), dir)
    {
      var p := PartPath(cfg, dir, name, k, x);
      assert p[..|dir|] == dir;
    }
  }

  /** The remote has not been used for an earlier chunk and is not the primary. */
  predicate IsNewTarget(cfg: Config, remotes: nat, no: nat)
    requires remotes > 0
  {
    Target(cfg, remotes, no) != 0 && forall k: nat :: k < no ==> Target(cfg, remotes, k) != Target(cfg, remotes, no)
  }

  /** What one turn of the chunk loop asks for. */
  function ChunkCalls(cfg: Config, remotes: nat, dir: Path, name: string, x: string, no: nat, chunk: Bytes): seq<Call>
    requires remotes > 0
  {
    var t := Target(cfg, remotes, no);
    (if IsNewTarget(cfg, remotes, no) then [Call(t, MakeDir(dir))] else []) + [Call(t, Write(PartPath(cfg, dir, name, no, x), chunk))]
  }

  /** What an upload asks for: the directory on the primary, then every chunk on its target in ascending order,
      with the directory on each remote that is used for the first time. */
  function UploadCalls(cfg: Config, remotes: nat, dir: Path, name: string, x: string, chunks: seq<Bytes>): seq<Call>
    requires remotes > 0
  {
    if chunks == [] then [Call(0, MakeDir(dir))]
    else
      var n := |chunks| - 1;
      UploadCalls(cfg, remotes, dir, name, x, chunks[..n]) + ChunkCalls(cfg, remotes, dir, name, x, n, chunks[n])
  }

  lemma UploadCallsSnoc(cfg: Config, remotes: nat, dir: Path, name: string, x: string, chunks: seq<Bytes>, k: nat)
    requires remotes > 0 && k < |chunks|
    ensures UploadCalls(cfg, remotes, dir, name, x, chunks[..k + 1])
         == UploadCalls(cfg, remotes, dir, name, x, chunks[..k]) + ChunkCalls(cfg, remotes, dir, name, x, k, chunks[k])
  {
    assert chunks[..k + 1][..k] == chunks[..k];
  }

  /** An upload that stopped early has asked for the first of all these. */
  lemma {:induction false} UploadStops(cfg: Config, remotes: nat, dir: Path, name: string, x: string, chunks: seq<Bytes>, k: nat,
                                       log: seq<Event>, from: nat)
    requires remotes > 0 && k <= |chunks| && InOrder(log, from, UploadCalls(cfg, remotes, dir, name, x, chunks[..k]), false)
    ensures InOrder(log, from, UploadCalls(cfg, remotes, dir, name, x, chunks), false)
    decreases |chunks| - k
  {
    hide InOrder, UploadCalls, ChunkCalls;
    if k == |chunks| {
      assert chunks[..k] == chunks;
    } else {
      UploadCallsSnoc(cfg, remotes, dir, name, x, chunks, k);
      InOrderStops(log, from, UploadCalls(cfg, remotes, dir, name, x, chunks[..k]), ChunkCalls(cfg, remotes, dir, name, x, k, chunks[k]));
      UploadStops(cfg, remotes, dir, name, x, chunks, k + 1, log, from);
    }
  }

  /** One turn of the chunk loop: make the directory on a target seen for the first time, then write. */
  method SendChunk(m: Mounts, cfg: Config, dir: Path, name: string, x: string, no: nat, chunk: Bytes, target: nat,
                   newTarget: bool, ghost job: Job) returns (ok: bool)
    requires m.Valid() && job.At(m.remotes, m.trace, no) && no < |job.chunks|
    requires (cfg, dir, name, x, chunk) == (job.cfg, job.dir, job.name, job.x, job.chunks[no])
    requires target == Target(cfg, |m.remotes|, no) && newTarget == IsNewTarget(cfg, |m.remotes|, no)
    modifies m
    ensures m.Valid() && |m.remotes| == |old(m.remotes)| && old(m.trace) <= m.trace
    ensures job.At(m.remotes, m.trace, if ok then no + 1 else no)
    ensures old(m.log) <= m.log && InOrder(m.log, |old(m.log)|, ChunkCalls(cfg, |m.remotes|, dir, name, x, no, chunk), ok)
  {
    hide Job.At, Written, WithDirs, IsNewTarget;
    if newTarget {
      job.DirMade(m.remotes, m.trace, no, target);
      ok := m.EnsureDir(target, dir);
      if !ok {
        return;
      }
    }
    job.ChunkWritten(m.remotes, m.trace, no);
    ok := m.Put(target, dir, cfg.make(name, no, x), chunk);
  }

  lemma SplitStep(remaining: Bytes, size: int, all: seq<Bytes>, k: nat)
    requires size > 0 && remaining != "" && k <= |all| && Split(remaining, size) == all[k..]
    ensures var n := Min(|remaining|, size);
      && k < |all| && all[k] == remaining[..n]
      && Split(remaining[n..], size) == all[k + 1..]
  {
    assert all[k] == Split(remaining, size)[0];
    assert all[k + 1..] == Split(remaining, size)[1..];
  }

  lemma NewLocationsStep(cfg: Config, remotes: nat, dir: Path, name: string, x: string, n: nat)
    requires remotes > 0
    ensures NewLocations(cfg, remotes, dir, name, x, n + 1)
         == NewLocations(cfg, remotes, dir, name, x, n) + {Location(PartPath(cfg, dir, name, n, x), Target(cfg, remotes, n))}
    ensures NewLocations(cfg, remotes, dir, name, x, 0) == {}
  {
  }

  lemma CutOff(hashed: Bytes, remaining: Bytes, n: nat)
    requires n <= |remaining|
    ensures hashed + remaining[..n] + remaining[n..] == hashed + remaining
  {
  }

  /** The chunk loop of Put: cut off, send to its target, hash on the way. */
  method ChunkLoop(m: Mounts, cfg: Config, dir: Path, name: string, x: string, data: Bytes, ghost job: Job, ghost from: nat)
      returns (ok: bool, chunkCount: nat, keep: set<Location>, hashed: Bytes)
    requires m.Valid() && cfg.chunkSize > 0 && job.At(m.remotes, m.trace, 0)
    requires InOrder(m.log, from, UploadCalls(cfg, |m.remotes|, dir, name, x, []), true)
    requires (cfg, dir, name, x, Split(data, cfg.chunkSize)) == (job.cfg, job.dir, job.name, job.x, job.chunks)
    modifies m
    ensures m.Valid() && |m.remotes| == |old(m.remotes)| && old(m.trace) <= m.trace
    ensures chunkCount <= |job.chunks| && job.At(m.remotes, m.trace, chunkCount)
    ensures ok ==> chunkCount == |job.chunks| && hashed == data
    ensures keep == NewLocations(cfg, |m.remotes|, dir, name, x, chunkCount)
    ensures old(m.log) <= m.log && InOrder(m.log, from, UploadCalls(cfg, |m.remotes|, dir, name, x, job.chunks), ok)
  {
    hide Job.At, Target, NewLocations, PartPath, Split, InOrder, UploadCalls, ChunkCalls, IsNewTarget;
    var remaining := data;
    var ensured: set<nat> := {0};
    assert job.chunks[..0] == [];
    NothingEnsured(cfg, |m.remotes|);
    ok, chunkCount, keep, hashed := true, 0, {}, [];
    NewLocationsStep(cfg, |m.remotes|, dir, name, x, 0);
    while remaining != ""
      invariant ok && m.Valid() && |m.remotes| == |old(m.remotes)| && old(m.trace) <= m.trace
      invariant hashed + remaining == data
      invariant chunkCount <= |job.chunks| && Split(remaining, cfg.chunkSize) == job.chunks[chunkCount..]
      invariant job.At(m.remotes, m.trace, chunkCount)
      invariant keep == NewLocations(cfg, |m.remotes|, dir, name, x, chunkCount)
      invariant old(m.log) <= m.log
      invariant InOrder(m.log, from, UploadCalls(cfg, |m.remotes|, dir, name, x, job.chunks[..chunkCount]), true)
      invariant EnsuredAre(cfg, |m.remotes|, chunkCount, ensured)
      decreases |remaining|
    {
      var chunkLen := Min(|remaining|, cfg.chunkSize);
      var chunk := remaining[..chunkLen];
      var target := Target(cfg, |m.remotes|, chunkCount);
      SplitStep(remaining, cfg.chunkSize, job.chunks, chunkCount);
      CutOff(hashed, remaining, chunkLen);
      NewLocationsStep(cfg, |m.remotes|, dir, name, x, chunkCount);
      EnsuredNext(cfg, |m.remotes|, chunkCount, ensured);
      UploadCallsSnoc(cfg, |m.remotes|, dir, name, x, job.chunks, chunkCount);
      ghost var log := m.log;
      ok := SendChunk(m, cfg, dir, name, x, chunkCount, chunk, target, target !in ensured, job);
      InOrderOn(log, from, UploadCalls(cfg, |m.remotes|, dir, name, x, job.chunks[..chunkCount]),
                ChunkCalls(cfg, |m.remotes|, dir, name, x, chunkCount, chunk), m.log, ok);
      if !ok {
        UploadStops(cfg, |m.remotes|, dir, name, x, job.chunks, chunkCount + 1, m.log, from);
        return;
      }
      ensured := ensured + {target};
      hashed := hashed + chunk;
      keep := keep + {Location(PartPath(cfg, dir, name, chunkCount, x), target)};
      remaining := remaining[chunkLen..];
      chunkCount := chunkCount + 1;
    }
    assert job.chunks[..|job.chunks|] == job.chunks;
  }

  /** The directory has been made on the primary and on the targets of the first `n` chunks. */
  ghost predicate EnsuredAre(cfg: Config, remotes: nat, n: nat, ensured: set<nat>)
    requires remotes > 0
  {
    forall t :: t in ensured <==> t == 0 || exists k: nat :: k < n && Target(cfg, remotes, k) == t
  }

  lemma NothingEnsured(cfg: Config, remotes: nat)
    requires remotes > 0
    ensures EnsuredAre(cfg, remotes, 0, {0})
  {
  }

  lemma EnsuredNext(cfg: Config, remotes: nat, n: nat, ensured: set<nat>)
    requires remotes > 0 && EnsuredAre(cfg, remotes, n, ensured)
    ensures Target(cfg, remotes, n) !in ensured <==> IsNewTarget(cfg, remotes, n)
    ensures EnsuredAre(cfg, remotes, n + 1, ensured + {Target(cfg, remotes, n)})
  {
  }

  /** Make the directory on the primary, then upload. */
  method UploadChunks(m: Mounts, cfg: Config, dir: Path, name: string, x: string, data: Bytes, ghost job: Job)
      returns (ok: bool, chunkCount: nat, keep: set<Location>, hashed: Bytes)
    requires m.Valid() && cfg.chunkSize > 0
    requires job == Job(cfg, m.remotes, |m.trace|, dir, name, x, Split(data, cfg.chunkSize))
    modifies m
    ensures m.Valid() && |m.remotes| == |old(m.remotes)| && old(m.trace) <= m.trace
    ensures chunkCount <= |job.chunks| && job.At(m.remotes, m.trace, chunkCount)
    ensures ok ==> chunkCount == |job.chunks| && hashed == data
    ensures keep == NewLocations(cfg, |m.remotes|, dir, name, x, chunkCount)
    ensures old(m.log) <= m.log && InOrder(m.log, |old(m.log)|, UploadCalls(cfg, |m.remotes|, dir, name, x, job.chunks), ok)
  {
    job.Began(m.remotes, m.trace);
    job.DirMade(m.remotes, m.trace, 0, 0);
    NewLocationsStep(cfg, |m.remotes|, dir, name, x, 0);
    hide Job.At, NewLocations, UploadCalls;
    chunkCount, keep, hashed := 0, {}, [];
    ghost var from := |m.log|;
    ok := m.EnsureDir(0, dir);
    hide UploadCalls, InOrder;
    assert job.chunks[..0] == [];
    if !ok {
      UploadStops(cfg, |m.remotes|, dir, name, x, job.chunks, 0, m.log, from);
      return;
    }
    ok, chunkCount, keep, hashed := ChunkLoop(m, cfg, dir, name, x, data, job, from);
  }

  lemma WriteKeepsDirs(rs0: Remotes, rs: Remotes, i: nat, dir: Path, file: string, data: Bytes)
    requires i < |rs| && NoNewDirs(rs0, rs, dir)
    ensures NoNewDirs(rs0, rs[i := Written(rs[i], dir + [file], data)], dir)
  {
    assert (dir + [file])[..|dir|] == dir;
  }

  /** What a Put asks of the locations it is told to replace: files of the name, there or not. */
  ghost predicate Removable(cfg: Config, rs: Remotes, dir: Path, name: string, locs: seq<Location>) {
    forall l :: l in locs ==>
      && l.remote < |rs| && Owned(cfg, dir, name, l.path)
      && (l.path !in rs[l.remote] || rs[l.remote][l.path].File?)
  }

  /** An object as it was listed at some time qualifies, whatever has happened to its files since, and so does no
      object at all, unless a directory is in the place of one of them. */
  lemma ListedIsRemovable(cfg: Config, was: Remotes, rs: Remotes, dir: Path, name: string)
    requires NamesLawful(cfg) && |rs| == |was|
    ensures var locs := ObjectLocations(cfg, dir, name, ViewOf(cfg, was, dir, name));
      Removable(cfg, rs, dir, name, locs) <==> forall l :: l in locs ==> l.remote < |rs| && !IsDir(rs[l.remote], l.path)
    ensures Removable(cfg, rs, dir, name, ObjectLocations(cfg, dir, name, Absent))
  {
    hide ViewOf, NamesLawful, Seen, ObjectLocations;
    ListedLocations(cfg, was, dir, name);
    NoLocations(cfg, dir, name);
  }

  lemma NoLocations(cfg: Config, dir: Path, name: string)
    ensures ObjectLocations(cfg, dir, name, Absent) == []
  {
  }

  lemma StillRemovable(cfg: Config, rs0: Remotes, rs: Remotes, dir: Path, name: string, locs: seq<Location>)
    requires NoNewDirs(rs0, rs, dir) && Removable(cfg, rs0, dir, name, locs)
    ensures Removable(cfg, rs, dir, name, locs)
  {
  }
}
