/** Put of a stream that fits one chunk. */
module PutSmall {
  import opened Prelude
  import opened RemoteStore
  import opened RemoteOps
  import opened ChunkView
  import opened ChunkStates
  import opened BaseWrite
  import opened ChunkUpload

  /** Only the file at the base path of the primary has been written. */
  ghost predicate OnlyBase(rs0: Remotes, rs: Remotes, dir: Path, name: string) {
    && |rs| == |rs0| > 0
    && forall i, p :: 0 <= i < |rs| && !(i == 0 && p == dir + [name]) ==> FileAt(rs[i], p) == FileAt(rs0[i], p)
  }

  /** A small stream that reads as metadata. */
  ghost predicate LooksLikeMeta(cfg: Config, data: Bytes) {
    |data| <= MAX_META_READ && cfg.unmarshal(data).Some?
  }

  /** A small file lists as itself, except when its name reads as a chunk name, or it happens to be
      metadata and a chunk of the same name exists.  Other names list as before exactly if what now counts as
      the chunk that the name reads as, the file unless the primary has another spelling too, disturbs none of
      them. */
  ghost predicate AfterSmall(cfg: Config, rs0: Remotes, rs: Remotes, dir: Path, name: string, data: Bytes) {
    && |rs0| > 0
    && (ViewOf(cfg, rs, dir, name) == Plain(0, data)
        <==> IsBaseName(cfg, name) && !(LooksLikeMeta(cfg, data) && AnyPart(cfg, rs, dir, name)))
    && (OthersSame(cfg, rs0, rs, dir, name) <==> !Disturbs(cfg, rs0, dir, name, ChunkWinner(cfg, rs, dir, name)))
    && (Alone(cfg, rs0, dir, name) ==> (OthersSame(cfg, rs0, rs, dir, name) <==> !Intrudes(cfg, rs0, dir, name, data)))
  }

  lemma SmallView(cfg: Config, rs0: Remotes, rs: Remotes, dir: Path, name: string, data: Bytes)
    requires NamesLawful(cfg) && Landed(cfg, rs0, rs, dir, name, data)
    ensures AfterSmall(cfg, rs0, rs, dir, name, data)
  {
    hide OthersSame, Intrudes, Disturbs, AnyPart, Parts, NamesLawful, ChunkWinner, Alone, Owned;
    assert FirstFile(rs, dir + [name]) == Some(0);
    hide FirstFile;
    LandedOthers(cfg, rs0, rs, dir, name, data);
  }

  ghost predicate AllAfterSmall(cfg: Config, rs0: Remotes, trace: seq<Remotes>, from: nat, dir: Path, name: string, data: Bytes) {
    forall j :: from <= j < |trace| ==> AfterSmall(cfg, rs0, trace[j], dir, name, data)
  }

  /** Nothing at all lists differently. */
  ghost predicate SameViews(cfg: Config, rs0: Remotes, rs: Remotes) {
    forall d, n :: ViewOf(cfg, rs, d, n) == ViewOf(cfg, rs0, d, n)
  }

  lemma EnsureDirViews(cfg: Config, rs: Remotes, i: nat, dir: Path, name: string)
    requires NamesLawful(cfg) && i < |rs|
    ensures var rs' := rs[i := WithDirs(rs[i], dir)];
      && NoNewDirs(rs, rs, dir) && NoNewDirs(rs, rs', dir) && OnlyBase(rs, rs, dir, name) && OnlyBase(rs, rs', dir, name)
    ensures SameViews(cfg, rs, rs) && SameViews(cfg, rs, rs[i := WithDirs(rs[i], dir)])
  {
    var rs' := rs[i := WithDirs(rs[i], dir)];
    assert forall k, p :: 0 <= k < |rs| ==> FileAt(rs'[k], p) == FileAt(rs[k], p);
    hide ViewOf, WithDirs, FileAt;
    forall d, n
      ensures ViewOf(cfg, rs', d, n) == ViewOf(cfg, rs, d, n)
    {
      ViewFrame(cfg, rs, rs', d, n);
    }
  }

  /** After the cleanup of `locs`, or part of it, the file is still there. */
  lemma SmallLanded(cfg: Config, rs0: Remotes, rs1: Remotes, rs: Remotes, dir: Path, name: string, data: Bytes, locs: seq<Location>)
    requires OnlyBase(rs0, rs1, dir, name) && FileAt(rs1[0], dir + [name]) == Some(data)
    requires Pruned(rs1, rs, Doomed(locs, {Location(dir + [name], 0)}))
    requires forall l :: l in locs ==> Owned(cfg, dir, name, l.path)
    ensures Landed(cfg, rs0, rs, dir, name, data)
  {
    hide Owned;
  }

  lemma SmallAfterCleanup(cfg: Config, rs0: Remotes, rs1: Remotes, trace: seq<Remotes>, from: nat, dir: Path, name: string,
                          data: Bytes, locs: seq<Location>)
    requires NamesLawful(cfg) && OnlyBase(rs0, rs1, dir, name) && FileAt(rs1[0], dir + [name]) == Some(data)
    requires forall l :: l in locs ==> Owned(cfg, dir, name, l.path)
    requires 0 < from <= |trace| && trace[from - 1] == rs1
    requires AllPruned(rs1, trace, from, Doomed(locs, {Location(dir + [name], 0)}))
    ensures AllAfterSmall(cfg, rs0, trace, from - 1, dir, name, data)
  {
    hide AfterSmall, OnlyBase, Landed, NamesLawful, Owned;
    forall j | from - 1 <= j < |trace|
      ensures AfterSmall(cfg, rs0, trace[j], dir, name, data)
    {
      SmallLanded(cfg, rs0, rs1, trace[j], dir, name, data, locs);
      SmallView(cfg, rs0, trace[j], dir, name, data);
    }
  }

  /** A chunk of the name, in whatever spelling, that the replaced object does not account for. */
  ghost predicate LeftOver(cfg: Config, rs0: Remotes, dir: Path, name: string, locs: seq<Location>) {
    exists i, file ::
      && 0 <= i < |rs0| && IsChunkName(cfg, file) && cfg.parse(file).main == name
      && FileAt(rs0[i], dir + [file]).Some? && Location(dir + [file], i) !in locs
  }

  /** A name has chunks exactly if some file reads as one. */
  lemma AnyPartIsRead(cfg: Config, rs: Remotes, dir: Path, name: string)
    requires NamesLawful(cfg)
    ensures AnyPart(cfg, rs, dir, name) <==>
      exists i, file :: 0 <= i < |rs| && IsChunkName(cfg, file) && cfg.parse(file).main == name && FileAt(rs[i], dir + [file]).Some?
  {
    hide Seen;
    if AnyPart(cfg, rs, dir, name) {
      var no, x :| PartExists(cfg, rs, dir, name, no, x);
      PartIsRead(cfg, rs, dir, name, x);
    }
    if i, file :| 0 <= i < |rs| && IsChunkName(cfg, file) && cfg.parse(file).main == name && FileAt(rs[i], dir + [file]).Some? {
      PartIsRead(cfg, rs, dir, name, cfg.parse(file).xact);
      assert ReadsAs(cfg, file, name, cfg.parse(file).xact);
    }
  }

  /** After a cleanup without errors exactly the left-over chunks are there. */
  lemma SmallLeaves(cfg: Config, rs0: Remotes, rs1: Remotes, rs: Remotes, dir: Path, name: string, locs: seq<Location>)
    requires NamesLawful(cfg) && OnlyBase(rs0, rs1, dir, name)
    requires var gone := Doomed(locs, {Location(dir + [name], 0)});
      Pruned(rs1, rs, gone) && forall l :: l in gone ==> l.remote < |rs| && FileAt(rs[l.remote], l.path).None?
    ensures AnyPart(cfg, rs, dir, name) <==> LeftOver(cfg, rs0, dir, name, locs)
  {
    AnyPartIsRead(cfg, rs, dir, name);
    forall i, file | 0 <= i < |rs| && IsChunkName(cfg, file) && cfg.parse(file).main == name
      ensures FileAt(rs[i], dir + [file]) == if Location(dir + [file], i) in locs then None else FileAt(rs0[i], dir + [file])
    {
      SmallKeepsChunk(cfg, rs0, rs1, rs, dir, name, locs, i, file);
    }
    hide AnyPart, OnlyBase, Pruned, NamesLawful;
  }

  lemma SmallKeepsChunk(cfg: Config, rs0: Remotes, rs1: Remotes, rs: Remotes, dir: Path, name: string, locs: seq<Location>,
                        i: nat, file: string)
    requires NamesLawful(cfg) && OnlyBase(rs0, rs1, dir, name) && i < |rs0| && IsChunkName(cfg, file) && cfg.parse(file).main == name
    requires var gone := Doomed(locs, {Location(dir + [name], 0)});
      Pruned(rs1, rs, gone) && forall l :: l in gone ==> l.remote < |rs| && FileAt(rs[l.remote], l.path).None?
    ensures FileAt(rs[i], dir + [file]) == if Location(dir + [file], i) in locs then None else FileAt(rs0[i], dir + [file])
  {
    var p := dir + [file];
    JoinUnique(dir, file, dir, name);
    assert Location(p, i) in Doomed(locs, {Location(dir + [name], 0)}) <==> Location(p, i) in locs;
  }

  ghost predicate AllUnchanged(cfg: Config, rs0: Remotes, trace: seq<Remotes>, from: nat, to: nat)
    requires to <= |trace|
  {
    forall j :: from <= j < to ==> SameViews(cfg, rs0, trace[j])
  }

  /** What WriteSmall leaves: on success the last state is the first that holds the new file. */
  ghost predicate SmallRun(cfg: Config, rs0: Remotes, start: nat, rs: Remotes, trace: seq<Remotes>,
                           dir: Path, name: string, data: Bytes, written: bool) {
    && NoNewDirs(rs0, rs, dir) && OnlyBase(rs0, rs, dir, name) && start < |trace|
    && (written ==> FileAt(rs[0], dir + [name]) == Some(data))
    && AllUnchanged(cfg, rs0, trace, start, if written then |trace| - 1 else |trace|)
  }

  /** After MakeDir on the primary, whether or not it worked. */
  lemma SmallDirMade(cfg: Config, rs0: Remotes, trace: seq<Remotes>, dir: Path, name: string, data: Bytes)
    requires NamesLawful(cfg) && |rs0| > 0
    ensures SmallRun(cfg, rs0, |trace|, rs0, trace + [rs0], dir, name, data, false)
    ensures var rs := rs0[0 := WithDirs(rs0[0], dir)];
      SmallRun(cfg, rs0, |trace|, rs, trace + [rs], dir, name, data, false)
  {
    EnsureDirViews(cfg, rs0, 0, dir, name);
  }

  /** After the write, whether or not it worked. */
  lemma SmallFileWritten(cfg: Config, rs0: Remotes, start: nat, rs: Remotes, trace: seq<Remotes>,
                         dir: Path, name: string, data: Bytes)
    requires SmallRun(cfg, rs0, start, rs, trace, dir, name, data, false)
    requires |rs| > 0 && trace[|trace| - 1] == rs
    ensures SmallRun(cfg, rs0, start, rs, trace + [rs], dir, name, data, false)
    ensures var rs' := rs[0 := Written(rs[0], dir + [name], data)];
      SmallRun(cfg, rs0, start, rs', trace + [rs'], dir, name, data, true)
  {
    WriteKeepsDirs(rs0, rs, 0, dir, name, data);
    WriteIsOnlyBase(rs0, rs, dir, name, data);
    hide SameViews, OnlyBase, NoNewDirs, Written;
  }

  lemma WriteIsOnlyBase(rs0: Remotes, rs: Remotes, dir: Path, name: string, data: Bytes)
    requires OnlyBase(rs0, rs, dir, name)
    ensures var rs' := rs[0 := Written(rs[0], dir + [name], data)];
      OnlyBase(rs0, rs', dir, name) && FileAt(rs'[0], dir + [name]) == Some(data)
  {
  }

  /** What a small Put asks for before the cleanup. */
  function SmallCalls(dir: Path, name: string, data: Bytes): seq<Call> {
    [Call(0, MakeDir(dir)), Call(0, Write(dir + [name], data))]
  }

  lemma SmallOrder(log: seq<Event>, dir: Path, name: string, data: Bytes, ok: bool)
    ensures var made := Call(0, MakeDir(dir));
      && InOrder(log + [Event(made, false)], |log|, SmallCalls(dir, name, data), false)
      && InOrder(log + [Event(made, true)] + [Event(Call(0, Write(dir + [name], data)), ok)], |log|, SmallCalls(dir, name, data), ok)
  {
  }

  /** Make the directory, write the file. */
  method WriteSmall(m: Mounts, cfg: Config, dir: Path, name: string, data: Bytes) returns (ok: bool)
    requires m.Valid() && Lawful(cfg)
    modifies m
    ensures m.Valid() && old(m.trace) <= m.trace
    ensures SmallRun(cfg, old(m.remotes), |old(m.trace)|, m.remotes, m.trace, dir, name, data, ok)
    ensures old(m.log) <= m.log && InOrder(m.log, |old(m.log)|, SmallCalls(dir, name, data), ok)
  {
    ghost var rs0, start := m.remotes, |m.trace|;
    SmallDirMade(cfg, rs0, m.trace, dir, name, data);
    ghost var log := m.log;
    SmallOrder(log, dir, name, data, true);
    SmallOrder(log, dir, name, data, false);
    hide SmallRun, InOrder, Written, WithDirs, NamesLawful, MetaLawful, SpellingLawful, CanMakeDir, IsDir;
    ok := m.EnsureDir(0, dir);
    hide InOrder, SmallRun;
    if !ok {
      return;
    }
    SmallFileWritten(cfg, rs0, start, m.remotes, m.trace, dir, name, data);
    ok := m.Put(0, dir, name, data);
    hide InOrder, SmallRun;
  }

  /** Put of a stream that fits one chunk: one write to the primary, then cleanup.  It fails only if one of its
      calls does, and makes no others. */
  method PutSmall(m: Mounts, cfg: Config, dir: Path, name: string, data: Bytes, existing: View)
      returns (ok: bool, ghost commit: nat)
    requires m.Valid() && Lawful(cfg)
    requires Removable(cfg, m.remotes, dir, name, ObjectLocations(cfg, dir, name, existing))
    modifies m
    ensures m.Valid() && old(m.trace) <= m.trace && |old(m.trace)| <= commit <= |m.trace|
    ensures ok ==> commit < |m.trace|
    ensures AllUnchanged(cfg, old(m.remotes), m.trace, |old(m.trace)|, commit)
    ensures AllAfterSmall(cfg, old(m.remotes), m.trace, commit, dir, name, data)
    ensures ok ==>
      (AnyPart(cfg, m.remotes, dir, name) <==> LeftOver(cfg, old(m.remotes), dir, name, ObjectLocations(cfg, dir, name, existing)))
    ensures old(m.log) <= m.log
    ensures OrderThenAll(m.log, |old(m.log)|, SmallCalls(dir, name, data),
                         Removals(ObjectLocations(cfg, dir, name, existing), {Location(dir + [name], 0)}), ok)
  {
    ghost var rs0, start := m.remotes, |m.trace|;
    var locs := ObjectLocations(cfg, dir, name, existing);
    LawfulParts(cfg);
    hide *;
    ok := WriteSmall(m, cfg, dir, name, data);
    hide *;
    ghost var rs1, before := m.remotes, m.trace;
    SmallRunMeans(cfg, rs0, start, rs1, before, dir, name, data, ok);
    commit := if ok then |m.trace| - 1 else |m.trace|;
    if !ok {
      return;
    }
    StillRemovable(cfg, rs0, rs1, dir, name, locs);
    ok := SmallFinish(m, cfg, dir, name, data, locs, rs0, start, |old(m.log)|);
  }

  /** The rest of the call once the file is written. */
  method SmallFinish(m: Mounts, cfg: Config, dir: Path, name: string, data: Bytes, locs: seq<Location>,
                     ghost rs0: Remotes, ghost start: nat, ghost from: nat)
      returns (ok: bool)
    requires m.Valid() && NamesLawful(cfg) && SmallRun(cfg, rs0, start, m.remotes, m.trace, dir, name, data, true)
    requires Removable(cfg, m.remotes, dir, name, locs) && InOrder(m.log, from, SmallCalls(dir, name, data), true)
    modifies m
    ensures m.Valid() && old(m.trace) <= m.trace && old(m.log) <= m.log
    ensures AllUnchanged(cfg, rs0, m.trace, start, |old(m.trace)| - 1)
    ensures AllAfterSmall(cfg, rs0, m.trace, |old(m.trace)| - 1, dir, name, data)
    ensures ok ==> (AnyPart(cfg, m.remotes, dir, name) <==> LeftOver(cfg, rs0, dir, name, locs))
    ensures OrderThenAll(m.log, from, SmallCalls(dir, name, data), Removals(locs, {Location(dir + [name], 0)}), ok)
  {
    LastIsNow(m);
    RemovableLocations(cfg, m.remotes, dir, name, locs);
    hide *;
    ok := Cleanup(m, locs, {Location(dir + [name], 0)});
    hide *;
    OrderThenAllOf(old(m.log), from, SmallCalls(dir, name, data), Removals(locs, {Location(dir + [name], 0)}), m.log, ok);
    SmallCleaned(cfg, rs0, start, old(m.remotes), old(m.trace), m.remotes, m.trace, dir, name, data, locs, ok);
  }

  lemma LastIsNow(m: Mounts)
    requires m.Valid()
    ensures m.trace != [] && m.trace[|m.trace| - 1] == m.remotes
  {
  }

  /** The write went well and the cleanup is through, with or without an error. */
  lemma SmallCleaned(cfg: Config, rs0: Remotes, start: nat, rs1: Remotes, before: seq<Remotes>, rs: Remotes, trace: seq<Remotes>,
                     dir: Path, name: string, data: Bytes, locs: seq<Location>, ok: bool)
    requires NamesLawful(cfg) && SmallRun(cfg, rs0, start, rs1, before, dir, name, data, true)
    requires before != [] && before[|before| - 1] == rs1 && before <= trace && |rs| == |rs1|
    requires Removable(cfg, rs1, dir, name, locs)
    requires var gone := Doomed(locs, {Location(dir + [name], 0)});
      && AllPruned(rs1, trace, |before|, gone) && Pruned(rs1, rs, gone)
      && (ok ==> forall l :: l in gone ==> l.remote < |rs| && FileAt(rs[l.remote], l.path).None?)
    ensures AllUnchanged(cfg, rs0, trace, start, |before| - 1)
    ensures AllAfterSmall(cfg, rs0, trace, |before| - 1, dir, name, data)
    ensures ok ==> (AnyPart(cfg, rs, dir, name) <==> LeftOver(cfg, rs0, dir, name, locs))
  {
    hide NamesLawful, SmallRun, AllUnchanged, AllPruned, Pruned, AnyPart, LeftOver, AllAfterSmall, Doomed, OnlyBase, NoNewDirs, Owned;
    SmallRunMeans(cfg, rs0, start, rs1, before, dir, name, data, true);
    UnchangedPrefix(cfg, rs0, before, trace, start, |before| - 1);
    SmallAfterCleanup(cfg, rs0, rs1, trace, |before|, dir, name, data, locs);
    if ok {
      SmallLeaves(cfg, rs0, rs1, rs, dir, name, locs);
    }
  }

  lemma LawfulParts(cfg: Config)
    requires Lawful(cfg)
    ensures NamesLawful(cfg) && MetaLawful(cfg) && SpellingLawful(cfg)
  {
  }

  lemma RemovableLocations(cfg: Config, rs: Remotes, dir: Path, name: string, locs: seq<Location>)
    requires Removable(cfg, rs, dir, name, locs)
    ensures forall l, keep :: l in Doomed(locs, keep) ==> l.remote < |rs|
    ensures forall l :: l in locs ==> l.remote < |rs| && (l.path !in rs[l.remote] || rs[l.remote][l.path].File?)
  {
  }

  lemma SmallRunMeans(cfg: Config, rs0: Remotes, start: nat, rs: Remotes, trace: seq<Remotes>,
                      dir: Path, name: string, data: Bytes, written: bool)
    requires SmallRun(cfg, rs0, start, rs, trace, dir, name, data, written)
    ensures NoNewDirs(rs0, rs, dir) && OnlyBase(rs0, rs, dir, name) && start < |trace| && |rs| > 0
    ensures written ==> FileAt(rs[0], dir + [name]) == Some(data)
    ensures AllUnchanged(cfg, rs0, trace, start, if written then |trace| - 1 else |trace|)
    ensures !written ==> AllAfterSmall(cfg, rs0, trace, |trace|, dir, name, data)
  {
  }

  lemma UnchangedPrefix(cfg: Config, rs0: Remotes, before: seq<Remotes>, trace: seq<Remotes>, start: nat, to: nat)
    requires to <= |before| && before <= trace && AllUnchanged(cfg, rs0, before, start, to)
    ensures AllUnchanged(cfg, rs0, trace, start, to)
  {
  }
}
