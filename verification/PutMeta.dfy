/** Put with metadata: chunks of a fresh transaction, committed by one metadata write. */
module PutMeta {
  import opened Prelude
  import opened RemoteStore
  import opened RemoteOps
  import opened ChunkView
  import opened ChunkStates
  import opened BaseWrite
  import opened ChunkUpload
  import opened StrayChunks
  import opened Mirror
  import Names = ChunkNames

  // ---- what a state means for the listing ----

  /** What the theorems about a chunked Put assume: a lawful configuration and a transaction id that
      nothing on the remotes uses yet. */
  ghost predicate Setting(cfg: Config, rs0: Remotes, dir: Path, name: string, x: string) {
    Lawful(cfg) && Names.IsXact(x) && x != "" && Fresh(cfg, rs0, dir, name, x)
  }

  /** What it takes for a new object to be listed: its chunks can be found again, its metadata file is
      not taken for a chunk, and the reader accepts the count. */
  predicate Listable(cfg: Config, name: string, n: nat) {
    Spellable(cfg, name, n) && IsBaseName(cfg, name) && n <= MAX_CHUNKS
  }

  lemma UploadingLeavesOthers(cfg: Config, rs0: Remotes, rs: Remotes, dir: Path, name: string, x: string)
    requires Uploading(cfg, rs0, rs, dir, name, x)
    ensures OthersUntouched(cfg, rs0, rs, dir, name)
  {
    forall i, p | 0 <= i < |rs| && !Owned(cfg, dir, name, p)
      ensures FileAt(rs[i], p) == FileAt(rs0[i], p)
    {
      assert !IsPartPath(cfg, dir, name, x, p);
    }
  }

  lemma NotBaseAndPart(cfg: Config, dir: Path, name: string, x: string)
    requires NamesLawful(cfg)
    ensures !IsPartPath(cfg, dir, name, x, dir + [name])
  {
    assert (dir + [name])[|dir|] == name;
  }

  lemma UploadingOtherParts(cfg: Config, rs0: Remotes, rs: Remotes, dir: Path, name: string, x: string, y: string)
    requires NamesLawful(cfg) && Names.PlainName(name) && Uploading(cfg, rs0, rs, dir, name, x) && y != x
    ensures AgreeParts(cfg, rs0, rs, dir, name, y)
  {
    assert |rs| == |rs0|;
    hide Seen;
    forall no: nat | IsNumber(cfg, no) && Names.IsXact(y)
      ensures Agree(Seen(cfg, rs0), Seen(cfg, rs), PartPath(cfg, dir, name, no, y))
    {
      forall file | cfg.parse(file) == Names.Match(name, no, "", y)
        ensures Agree(rs0, rs, dir + [file])
      {
        assert (dir + [file])[|dir|] == file && !IsPartPath(cfg, dir, name, x, dir + [file]);
      }
      hide Uploading;
      ChunkFrame(cfg, rs0, rs, dir, name, no, y);
    }
  }

  /** A name of several lines has no chunks. */
  lemma NoPlainNoPart(cfg: Config, rs: Remotes, dir: Path, name: string)
    ensures AnyPart(cfg, rs, dir, name) ==> Names.PlainName(name)
  {
  }

  /** While chunks are being uploaded the name lists as before, unless its base file is dormant
      metadata and a chunk has appeared beside it. */
  lemma UploadingView(cfg: Config, rs0: Remotes, rs: Remotes, dir: Path, name: string, x: string)
    requires Setting(cfg, rs0, dir, name, x) && Uploading(cfg, rs0, rs, dir, name, x)
    ensures ViewOf(cfg, rs, dir, name) == ViewOf(cfg, rs0, dir, name)
       <==> !(Dormant(cfg, rs0, dir, name) && AnyPart(cfg, rs, dir, name))
    ensures OthersSame(cfg, rs0, rs, dir, name)
  {
    UploadingLeavesOthers(cfg, rs0, rs, dir, name, x);
    OthersFrame(cfg, rs0, rs, dir, name);
    NotBaseAndPart(cfg, dir, name, x);
    assert Agree(rs0, rs, dir + [name]);
    AgreeFirst(rs0, rs, dir + [name]);
    NoPlainNoPart(cfg, rs, dir, name);
    hide Uploading, OthersUntouched, OthersSame, IsPartPath, Owned, Seen;
    if !Names.PlainName(name) {
      ViewKept(cfg, rs0, rs, dir, name);
    } else if !(Dormant(cfg, rs0, dir, name) && AnyPart(cfg, rs, dir, name)) {
      forall y | y != x
        ensures AgreeParts(cfg, rs0, rs, dir, name, y)
      {
        UploadingOtherParts(cfg, rs0, rs, dir, name, x, y);
      }
      ViewIgnoresFresh(cfg, rs0, rs, dir, name, x);
    }
  }

  /** The chunks of `x` in the state are exactly `chunks`, each on its target only. */
  ghost predicate ExactChunks(cfg: Config, rs: Remotes, dir: Path, name: string, x: string, chunks: seq<Bytes>) {
    && |rs| > 0
    && (forall no: nat, i :: 0 <= i < |rs| && IsNumber(cfg, no) ==>
          FileAt(Seen(cfg, rs)[i], PartPath(cfg, dir, name, no, x))
          == if no < |chunks| && i == Target(cfg, |rs|, no) then Some(chunks[no]) else None)
  }

  lemma FreshIsUnused(cfg: Config, rs: Remotes, dir: Path, name: string, x: string)
    requires NamesLawful(cfg) && Fresh(cfg, rs, dir, name, x)
    ensures Unused(cfg, rs, dir, name, x)
  {
    hide Seen;
    forall i, file | 0 <= i < |rs| && ReadsAs(cfg, file, name, x)
      ensures FileAt(rs[i], dir + [file]).None?
    {
      var no := cfg.parse(file).no;
      assert PartPath(cfg, dir, name, no, x) == dir + [Canon(cfg, file)];
      var n := SeenSome(cfg, rs, i, dir, Canon(cfg, file));
    }
  }

  /** A transaction that was unused has the chunks written and no others. */
  lemma UploadedChunks(cfg: Config, rs0: Remotes, rs: Remotes, dir: Path, name: string, x: string, chunks: seq<Bytes>)
    requires NamesLawful(cfg) && Spellable(cfg, name, |chunks|) && Names.IsXact(x) && Unused(cfg, rs0, dir, name, x)
    requires Progress(cfg, rs0, rs, dir, name, x, chunks)
    ensures Proper(cfg, rs, dir, name, x) && ExactChunks(cfg, rs, dir, name, x, chunks)
  {
    hide Seen;
    forall i, file | 0 <= i < |rs| && ReadsAs(cfg, file, name, x) && FileAt(rs[i], dir + [file]).Some?
      ensures CanonicalName(cfg, file)
    {
      assert (dir + [file])[|dir|] == file;
      assert CanonicalName(cfg, file) || !IsPartPath(cfg, dir, name, x, dir + [file]);
    }
    hide Uploading;
    forall no: nat, i | 0 <= i < |rs| && IsNumber(cfg, no)
      ensures FileAt(Seen(cfg, rs)[i], PartPath(cfg, dir, name, no, x))
           == if no < |chunks| && i == Target(cfg, |rs|, no) then Some(chunks[no]) else None
    {
      ProperSeen(cfg, rs, dir, name, x, no, i);
      SpellingReads(cfg, dir, name, no, x, cfg.make(name, no, x));
      assert ReadsAs(cfg, cfg.make(name, no, x), name, x) && FileAt(rs0[i], dir + [cfg.make(name, no, x)]).None?;
    }
  }

  lemma ExactChunk(cfg: Config, rs: Remotes, dir: Path, name: string, x: string, chunks: seq<Bytes>, no: nat)
    requires Names.PlainName(name) && Names.IsXact(x) && IsNumber(cfg, no) && ExactChunks(cfg, rs, dir, name, x, chunks)
    ensures PartExists(cfg, rs, dir, name, no, x) <==> no < |chunks|
    ensures no < |chunks| ==> PartOf(cfg, rs, dir, name, x, no) == Part(no, Target(cfg, |rs|, no), x, chunks[no])
  {
    hide Target, PartPath, IsNumber, Seen;
    var p := PartPath(cfg, dir, name, no, x);
    if no < |chunks| { assert FileAt(Seen(cfg, rs)[Target(cfg, |rs|, no)], p).Some?; }
  }

  lemma ExactChunksAreParts(cfg: Config, rs: Remotes, dir: Path, name: string, x: string, chunks: seq<Bytes>)
    requires NamesLawful(cfg) && Spellable(cfg, name, |chunks|) && Names.IsXact(x)
    requires ExactChunks(cfg, rs, dir, name, x, chunks)
    ensures Parts(cfg, rs, dir, name, x) == NewParts(cfg, |rs|, x, chunks)
    ensures |chunks| > 0 ==> AnyPart(cfg, rs, dir, name)
  {
    hide Seen, PartOf, Target;
    var ps := NewParts(cfg, |rs|, x, chunks);
    forall no: nat | IsNumber(cfg, no)
      ensures PartExists(cfg, rs, dir, name, no, x) <==> no < |chunks|
      ensures no < |chunks| ==> PartOf(cfg, rs, dir, name, x, no) == ps[no]
    {
      ExactChunk(cfg, rs, dir, name, x, chunks, no);
    }
    hide ExactChunks, NamesLawful, PartOf, Target;
    forall no: nat | PartExists(cfg, rs, dir, name, no, x)
      ensures exists j :: 0 <= j < |ps| && ps[j].no == no
    {
      assert ps[no].no == no;
    }
    if |chunks| > 0 { assert PartExists(cfg, rs, dir, name, 0, x); }
    hide PartExists;
    PartsAre(cfg, rs, dir, name, x, ps);
  }

  /** In no state whatever does a name list as a new object unless that is listable. */
  lemma OnlyListable(cfg: Config, rs: Remotes, dir: Path, name: string, x: string, data: Bytes)
    requires Lawful(cfg) && |rs| > 0 && |data| > 0
    requires ViewOf(cfg, rs, dir, name) == NewView(cfg, |rs|, data, x)
    ensures Listable(cfg, name, |Split(data, cfg.chunkSize)|)
  {
    hide Seen, Parts, PartOf, Target, FirstFile, FirstData;
    var n := |Split(data, cfg.chunkSize)|;
    ListedMeta(cfg, rs, dir, name);
    ListedParts(cfg, rs, dir, name);
    var v := ViewOf(cfg, rs, dir, name);
    assert Split(data, cfg.chunkSize) != [] && n <= MAX_CHUNKS;
    hide ViewOf, Parts, PartOf, Split, NamesLawful, MetaLawful, MetaFor, Target, FirstFile, FirstData;
    assert |v.parts| == n && v.parts[0].no == 0 && v.parts[n - 1].no == n - 1;
    assert PartExists(cfg, rs, dir, name, 0, XactOf(v)) && PartExists(cfg, rs, dir, name, n - 1, XactOf(v));
  }

  /** Once the metadata of a complete set of chunks is the primary's base file, the name lists as the
      new object if that is listable; if only the count is too high it lists as the metadata text. */
  lemma CommittedView(cfg: Config, rs: Remotes, dir: Path, name: string, x: string, data: Bytes)
    requires Lawful(cfg) && Names.IsXact(x) && x != "" && 0 < |data| <= MAX_INT64
    requires var chunks := Split(data, cfg.chunkSize); var m := MetaFor(cfg, data, |chunks|, x);
      && Spellable(cfg, name, |chunks|) && ExactChunks(cfg, rs, dir, name, x, chunks)
      && cfg.marshal(m).Ok? && FileAt(rs[0], dir + [name]) == Some(cfg.marshal(m).value)
    ensures var n := |Split(data, cfg.chunkSize)|;
      && (ViewOf(cfg, rs, dir, name) == NewView(cfg, |rs|, data, x) <==> Listable(cfg, name, n))
      && (IsBaseName(cfg, name) && n > MAX_CHUNKS ==>
            ViewOf(cfg, rs, dir, name) == Plain(0, cfg.marshal(MetaFor(cfg, data, n, x)).value))
  {
    hide Seen, Parts, Target, ExactChunks, NamesLawful;
    var chunks := Split(data, cfg.chunkSize);
    var m := MetaFor(cfg, data, |chunks|, x);
    assert Writable(m) by { assert Split(data, cfg.chunkSize) != []; }
    ExactChunksAreParts(cfg, rs, dir, name, x, chunks);
    assert FirstFile(rs, dir + [name]) == Some(0);
    hide AnyPart, FirstFile;
    if ViewOf(cfg, rs, dir, name) == NewView(cfg, |rs|, data, x) {
      OnlyListable(cfg, rs, dir, name, x, data);
    }
  }

  // ---- Put with metadata: atomic replacement ----

  /** Before the commit the name lists as it did, unless dormant metadata has woken up. */
  ghost predicate BeforeCommit(cfg: Config, rs0: Remotes, rs: Remotes, dir: Path, name: string) {
    && (ViewOf(cfg, rs, dir, name) == ViewOf(cfg, rs0, dir, name)
        <==> !(Dormant(cfg, rs0, dir, name) && AnyPart(cfg, rs, dir, name)))
    && OthersSame(cfg, rs0, rs, dir, name)
  }

  /** After the commit it lists as the new object exactly if that is listable, and as the metadata text
      when only the count is too high; other names list as before exactly if what now counts as the chunk that
      the name reads as, the metadata file unless the primary has another spelling too, disturbs none of them.
      The new chunks have no second spelling. */
  ghost predicate AfterCommit(cfg: Config, rs0: Remotes, rs: Remotes, dir: Path, name: string, x: string, data: Bytes)
    requires cfg.chunkSize > 0
  {
    var n := |Split(data, cfg.chunkSize)|;
    var meta := cfg.marshal(MetaFor(cfg, data, n, x));
    && |rs| == |rs0| > 0 && meta.Ok?
    && (ViewOf(cfg, rs, dir, name) == NewView(cfg, |rs|, data, x) <==> Listable(cfg, name, n))
    && (Spellable(cfg, name, n) && IsBaseName(cfg, name) && n > MAX_CHUNKS ==>
          ViewOf(cfg, rs, dir, name) == Plain(0, meta.value))
    && (Spellable(cfg, name, n) ==>
          && Proper(cfg, rs, dir, name, x)
          && (OthersSame(cfg, rs0, rs, dir, name) <==> !Disturbs(cfg, rs0, dir, name, ChunkWinner(cfg, rs, dir, name)))
          && (Alone(cfg, rs0, dir, name) ==> (OthersSame(cfg, rs0, rs, dir, name) <==> !Intrudes(cfg, rs0, dir, name, meta.value))))
  }

  /** The upload is complete and the metadata has been written. */
  ghost predicate Committed(cfg: Config, rs0: Remotes, rs: Remotes, dir: Path, name: string, x: string, data: Bytes)
    requires cfg.chunkSize > 0
  {
    var chunks := Split(data, cfg.chunkSize);
    var meta := cfg.marshal(MetaFor(cfg, data, |chunks|, x));
    && ExactChunks(cfg, rs, dir, name, x, chunks) && Proper(cfg, rs, dir, name, x)
    && meta.Ok? && Landed(cfg, rs0, rs, dir, name, meta.value)
  }

  lemma CommittedIsAfter(cfg: Config, rs0: Remotes, rs: Remotes, dir: Path, name: string, x: string, data: Bytes)
    requires Lawful(cfg) && Names.IsXact(x) && x != "" && 0 < |data| <= MAX_INT64
    requires Spellable(cfg, name, |Split(data, cfg.chunkSize)|) && Committed(cfg, rs0, rs, dir, name, x, data)
    ensures AfterCommit(cfg, rs0, rs, dir, name, x, data)
  {
    hide NamesLawful, MetaLawful, ExactChunks, Split, NewView, ViewOf, Intrudes, Disturbs, OthersSame, Alone, ChunkWinner, Proper;
    CommittedView(cfg, rs, dir, name, x, data);
    var meta := cfg.marshal(MetaFor(cfg, data, |Split(data, cfg.chunkSize)|, x)).value;
    LandedOthers(cfg, rs0, rs, dir, name, meta);
  }

  /** Names or number bases whose chunks do not read back: the new object never lists. */
  lemma UnspellableIsAfter(cfg: Config, rs0: Remotes, rs: Remotes, dir: Path, name: string, x: string, data: Bytes)
    requires Lawful(cfg) && Names.IsXact(x) && 0 < |data| <= MAX_INT64 && |rs| == |rs0| > 0
    requires !Spellable(cfg, name, |Split(data, cfg.chunkSize)|)
    ensures AfterCommit(cfg, rs0, rs, dir, name, x, data)
  {
    assert Split(data, cfg.chunkSize) != [];
    assert Writable(MetaFor(cfg, data, |Split(data, cfg.chunkSize)|, x));
    hide NamesLawful, MetaLawful, NewView, ViewOf, Spellable;
    if ViewOf(cfg, rs, dir, name) == NewView(cfg, |rs|, data, x) {
      OnlyListable(cfg, rs, dir, name, x, data);
    }
  }

  lemma PrunedChunks(cfg: Config, rs1: Remotes, rs: Remotes, dir: Path, name: string, x: string, chunks: seq<Bytes>, locs: set<Location>)
    requires NamesLawful(cfg) && Names.PlainName(name) && Names.IsXact(x) && Proper(cfg, rs1, dir, name, x)
    requires ExactChunks(cfg, rs1, dir, name, x, chunks) && Pruned(rs1, rs, locs)
    requires forall no :: 0 <= no < |chunks| ==> Location(PartPath(cfg, dir, name, no, x), Target(cfg, |rs1|, no)) !in locs
    ensures ExactChunks(cfg, rs, dir, name, x, chunks) && Proper(cfg, rs, dir, name, x)
  {
    hide PartPath, Seen, Target;
    assert Proper(cfg, rs, dir, name, x);
    hide Proper;
    forall no: nat, i | 0 <= i < |rs| && IsNumber(cfg, no)
      ensures FileAt(Seen(cfg, rs)[i], PartPath(cfg, dir, name, no, x))
           == if no < |chunks| && i == Target(cfg, |rs|, no) then Some(chunks[no]) else None
    {
      var p := PartPath(cfg, dir, name, no, x);
      ProperSeen(cfg, rs1, dir, name, x, no, i);
      ProperSeen(cfg, rs, dir, name, x, no, i);
      assert FileAt(rs1[i], p) == if no < |chunks| && i == Target(cfg, |rs1|, no) then Some(chunks[no]) else None;
    }
  }

  /** Cleanup removes neither the new chunks nor the new metadata, nor anything of another name: the
      listing stays as it was committed. */
  lemma PrunedCommit(cfg: Config, rs0: Remotes, rs1: Remotes, rs: Remotes, dir: Path, name: string, x: string,
                     data: Bytes, locs: set<Location>)
    requires Lawful(cfg) && Names.IsXact(x) && x != "" && 0 < |data| <= MAX_INT64
    requires Spellable(cfg, name, |Split(data, cfg.chunkSize)|) && Committed(cfg, rs0, rs1, dir, name, x, data)
    requires forall no :: 0 <= no < |Split(data, cfg.chunkSize)| ==>
      Location(PartPath(cfg, dir, name, no, x), Target(cfg, |rs1|, no)) !in locs
    requires Location(dir + [name], 0) !in locs
    requires Pruned(rs1, rs, locs) && forall l :: l in locs ==> Owned(cfg, dir, name, l.path)
    ensures Committed(cfg, rs0, rs, dir, name, x, data) && AfterCommit(cfg, rs0, rs, dir, name, x, data)
  {
    assert Names.PlainName(name);
    hide ExactChunks, Split, MetaFor, NamesLawful, MetaLawful, AfterCommit, Spellable, Proper;
    PrunedChunks(cfg, rs1, rs, dir, name, x, Split(data, cfg.chunkSize), locs);
    CommittedIsAfter(cfg, rs0, rs, dir, name, x, data);
  }

  lemma CommitStep(cfg: Config, rs0: Remotes, rs: Remotes, dir: Path, name: string, x: string, data: Bytes)
    requires cfg.chunkSize > 0 && 0 < |data| <= MAX_INT64 && |rs| > 0
    requires Setting(cfg, rs0, dir, name, x) && Spellable(cfg, name, |Split(data, cfg.chunkSize)|)
    requires Progress(cfg, rs0, rs, dir, name, x, Split(data, cfg.chunkSize))
    ensures var meta := cfg.marshal(MetaFor(cfg, data, |Split(data, cfg.chunkSize)|, x));
      meta.Ok? && Committed(cfg, rs0, rs[0 := Written(rs[0], dir + [name], meta.value)], dir, name, x, data)
  {
    var chunks := Split(data, cfg.chunkSize);
    var m := MetaFor(cfg, data, |chunks|, x);
    assert Split(data, cfg.chunkSize) != [];
    assert Writable(m);
    var meta := cfg.marshal(m).value;
    var rs' := rs[0 := Written(rs[0], dir + [name], meta)];
    FreshIsUnused(cfg, rs0, dir, name, x);
    UploadedChunks(cfg, rs0, rs, dir, name, x, chunks);
    CommitKeepsChunks(cfg, rs, dir, name, x, chunks, meta);
    hide Lawful, NamesLawful, MetaLawful, Split, MetaFor, Fresh, Landed, Written, Progress, Setting, PartPath, Spellable,
         ExactChunks, Proper, Unused;
    BaseLands(cfg, rs0, rs, dir, name, x, chunks, meta);
  }

  lemma BaseLands(cfg: Config, rs0: Remotes, rs: Remotes, dir: Path, name: string, x: string, chunks: seq<Bytes>, data: Bytes)
    requires Progress(cfg, rs0, rs, dir, name, x, chunks) && |rs| > 0
    ensures Landed(cfg, rs0, rs[0 := Written(rs[0], dir + [name], data)], dir, name, data)
  {
    UploadingLeavesOthers(cfg, rs0, rs, dir, name, x);
    hide Owned, Uploading, OnlyAdds, Holds;
  }

  /** The metadata file is none of the chunks. */
  lemma CommitKeepsChunks(cfg: Config, rs: Remotes, dir: Path, name: string, x: string, chunks: seq<Bytes>, data: Bytes)
    requires NamesLawful(cfg) && Names.PlainName(name) && Names.IsXact(x) && |rs| > 0
    requires Proper(cfg, rs, dir, name, x) && ExactChunks(cfg, rs, dir, name, x, chunks)
    ensures var rs' := rs[0 := Written(rs[0], dir + [name], data)];
      Proper(cfg, rs', dir, name, x) && ExactChunks(cfg, rs', dir, name, x, chunks)
  {
    hide Seen, Target;
    var rs' := rs[0 := Written(rs[0], dir + [name], data)];
    forall i, file | 0 <= i < |rs| && ReadsAs(cfg, file, name, x)
      ensures FileAt(rs'[i], dir + [file]) == FileAt(rs[i], dir + [file])
    {
      JoinUnique(dir, file, dir, name);
    }
    hide Written;
    assert Proper(cfg, rs', dir, name, x);
    forall no: nat, i | 0 <= i < |rs'| && IsNumber(cfg, no)
      ensures FileAt(Seen(cfg, rs')[i], PartPath(cfg, dir, name, no, x))
           == if no < |chunks| && i == Target(cfg, |rs'|, no) then Some(chunks[no]) else None
    {
      ProperSeen(cfg, rs, dir, name, x, no, i);
      ProperSeen(cfg, rs', dir, name, x, no, i);
      SpellingReads(cfg, dir, name, no, x, cfg.make(name, no, x));
      assert ReadsAs(cfg, cfg.make(name, no, x), name, x);
    }
  }

  lemma AfterCleanup(cfg: Config, rs0: Remotes, rs1: Remotes, rs: Remotes, dir: Path, name: string, x: string,
                     data: Bytes, locs: seq<Location>, keep: set<Location>)
    requires Lawful(cfg) && Names.IsXact(x) && x != "" && 0 < |data| <= MAX_INT64
    requires Spellable(cfg, name, |Split(data, cfg.chunkSize)|) && Committed(cfg, rs0, rs1, dir, name, x, data)
    requires keep == NewLocations(cfg, |rs1|, dir, name, x, |Split(data, cfg.chunkSize)|) + {Location(dir + [name], 0)}
    requires forall l :: l in locs ==> Owned(cfg, dir, name, l.path)
    requires Pruned(rs1, rs, Doomed(locs, keep))
    ensures AfterCommit(cfg, rs0, rs, dir, name, x, data)
  {
    hide Committed, AfterCommit, Split, NamesLawful, MetaLawful, Spellable, Pruned, Owned;
    forall no | 0 <= no < |Split(data, cfg.chunkSize)|
      ensures Location(PartPath(cfg, dir, name, no, x), Target(cfg, |rs1|, no)) !in Doomed(locs, keep)
    {
      assert Location(PartPath(cfg, dir, name, no, x), Target(cfg, |rs1|, no)) in keep;
    }
    CommittedLength(cfg, rs0, rs1, dir, name, x, data);
    PrunedCommit(cfg, rs0, rs1, rs, dir, name, x, data, Doomed(locs, keep));
  }

  lemma CommittedLength(cfg: Config, rs0: Remotes, rs: Remotes, dir: Path, name: string, x: string, data: Bytes)
    requires cfg.chunkSize > 0 && Committed(cfg, rs0, rs, dir, name, x, data)
    ensures |rs| == |rs0| > 0
  {
  }

  ghost predicate AllBefore(cfg: Config, rs0: Remotes, trace: seq<Remotes>, from: nat, to: nat, dir: Path, name: string)
    requires to <= |trace|
  {
    forall j :: from <= j < to ==> BeforeCommit(cfg, rs0, trace[j], dir, name)
  }

  ghost predicate AllAfter(cfg: Config, rs0: Remotes, trace: seq<Remotes>, from: nat,
                           dir: Path, name: string, x: string, data: Bytes)
    requires cfg.chunkSize > 0
  {
    forall j :: from <= j < |trace| ==> AfterCommit(cfg, rs0, trace[j], dir, name, x, data)
  }

  lemma UploadIsBefore(cfg: Config, rs0: Remotes, trace: seq<Remotes>, from: nat, to: nat, dir: Path, name: string, x: string)
    requires Setting(cfg, rs0, dir, name, x)
    requires AllUploading(cfg, rs0, trace, from, to, dir, name, x)
    ensures AllBefore(cfg, rs0, trace, from, to, dir, name)
  {
    forall j | from <= j < to
      ensures BeforeCommit(cfg, rs0, trace[j], dir, name)
    {
      UploadingView(cfg, rs0, trace[j], dir, name, x);
    }
  }

  lemma CleanupIsAfter(cfg: Config, rs0: Remotes, rs1: Remotes, trace: seq<Remotes>, from: nat, dir: Path, name: string,
                       x: string, data: Bytes, locs: seq<Location>, keep: set<Location>)
    requires Setting(cfg, rs0, dir, name, x) && 0 < |data| <= MAX_INT64
    requires Spellable(cfg, name, |Split(data, cfg.chunkSize)|) && Committed(cfg, rs0, rs1, dir, name, x, data)
    requires keep == NewLocations(cfg, |rs1|, dir, name, x, |Split(data, cfg.chunkSize)|) + {Location(dir + [name], 0)}
    requires forall l :: l in locs ==> Owned(cfg, dir, name, l.path)
    requires AllPruned(rs1, trace, from, Doomed(locs, keep))
    ensures AllAfter(cfg, rs0, trace, from, dir, name, x, data)
  {
    forall j | from <= j < |trace|
      ensures AfterCommit(cfg, rs0, trace[j], dir, name, x, data)
    {
      AfterCleanup(cfg, rs0, rs1, trace[j], dir, name, x, data, locs, keep);
    }
  }

  lemma AllUnspellable(cfg: Config, rs0: Remotes, trace: seq<Remotes>, from: nat, dir: Path, name: string, x: string, data: Bytes)
    requires Lawful(cfg) && Names.IsXact(x) && 0 < |data| <= MAX_INT64 && |rs0| > 0
    requires forall j :: 0 <= j < |trace| ==> |trace[j]| == |rs0|
    requires !Spellable(cfg, name, |Split(data, cfg.chunkSize)|)
    ensures AllAfter(cfg, rs0, trace, from, dir, name, x, data)
  {
    forall j | from <= j < |trace|
      ensures AfterCommit(cfg, rs0, trace[j], dir, name, x, data)
    {
      UnspellableIsAfter(cfg, rs0, trace[j], dir, name, x, data);
    }
  }

  /** Up to the commit nothing but chunk files has appeared, and after it nothing else but the name's own files
      has changed, whether or not the chunks can be found again; from then on all of them are there. */
  ghost predicate Scattered(cfg: Config, rs0: Remotes, trace: seq<Remotes>, from: nat, commit: nat, dir: Path, name: string,
                            x: string, n: nat, text: Result<Bytes>) {
    && AllTouched(cfg, rs0, trace, from, commit, dir, name, x, n, false)
    && AllTouched(cfg, rs0, trace, commit, |trace|, dir, name, x, n, true)
    && forall j :: commit <= j < |trace| ==> InPlace(cfg, trace[j], dir, name, x, n) && Placed(trace[j], dir + [name], text)
  }

  /** The metadata lies on the primary. */
  predicate Placed(rs: Remotes, p: Path, text: Result<Bytes>) {
    |rs| > 0 && text.Ok? && FileAt(rs[0], p) == Some(text.value)
  }

  ghost predicate Scattering(job: Job, rs: Remotes, trace: seq<Remotes>, ok: bool, text: Result<Bytes>) {
    && AllTouched(job.cfg, job.rs0, trace, job.start, if ok && |trace| > 0 then |trace| - 1 else |trace|,
                  job.dir, job.name, job.x, |job.chunks|, false)
    && (ok ==>
          && Touched(job.cfg, job.rs0, rs, job.dir, job.name, job.x, |job.chunks|, true)
          && InPlace(job.cfg, rs, job.dir, job.name, job.x, |job.chunks|) && Placed(rs, job.dir + [job.name], text))
  }

  lemma ScatteringStops(job: Job, rs: Remotes, trace: seq<Remotes>, k: nat, text: Result<Bytes>)
    requires job.Loose(rs, trace, k)
    ensures Scattering(job, rs, trace, false, text) && Scattering(job, rs, trace + [rs], false, text)
  {
    hide Touched, InPlace;
  }

  lemma ScatteringCommits(job: Job, rs: Remotes, trace: seq<Remotes>, data: Bytes)
    requires job.Loose(rs, trace, |job.chunks|)
    ensures var rs' := rs[0 := Written(rs[0], job.dir + [job.name], data)]; Scattering(job, rs', trace + [rs'], true, Ok(data))
  {
    var base := job.dir + [job.name];
    var rs' := rs[0 := Written(rs[0], base, data)];
    assert base[..|base| - 1] == job.dir;
    assert forall i, p :: 0 <= i < |rs| ==> FileAt(rs'[i], p) == if i == 0 && p == base then Some(data) else FileAt(rs[i], p);
    hide Written, IsMade, PartPath, Owned, Target;
  }

  lemma ScatteredPruned(cfg: Config, rs0: Remotes, rs1: Remotes, rs: Remotes, dir: Path, name: string, x: string, n: nat,
                        locs: set<Location>, text: Result<Bytes>)
    requires Placed(rs1, dir + [name], text) && Location(dir + [name], 0) !in locs
    requires Touched(cfg, rs0, rs1, dir, name, x, n, true) && InPlace(cfg, rs1, dir, name, x, n) && Pruned(rs1, rs, locs)
    requires forall l :: l in locs ==> Owned(cfg, dir, name, l.path)
    requires forall no :: 0 <= no < n ==> Location(PartPath(cfg, dir, name, no, x), Target(cfg, |rs1|, no)) !in locs
    ensures Touched(cfg, rs0, rs, dir, name, x, n, true) && InPlace(cfg, rs, dir, name, x, n) && Placed(rs, dir + [name], text)
  {
    hide IsMade, PartPath, Owned, Target;
  }

  lemma ScatteredRun(job: Job, rs1: Remotes, before: seq<Remotes>, trace: seq<Remotes>, commit: nat, locs: seq<Location>,
                     keep: set<Location>, text: Result<Bytes>)
    requires Scattering(job, rs1, before, true, text) && before <= trace && commit == |before| - 1 && |rs1| > 0
    requires Removable(job.cfg, rs1, job.dir, job.name, locs)
    requires keep == NewLocations(job.cfg, |rs1|, job.dir, job.name, job.x, |job.chunks|) + {Location(job.dir + [job.name], 0)}
    requires AllPruned(rs1, trace, commit, Doomed(locs, keep))
    ensures Scattered(job.cfg, job.rs0, trace, job.start, commit, job.dir, job.name, job.x, |job.chunks|, text)
  {
    forall no | 0 <= no < |job.chunks|
      ensures Location(PartPath(job.cfg, job.dir, job.name, no, job.x), Target(job.cfg, |rs1|, no)) in keep
    {
    }
    hide NewLocations, Touched, InPlace, Pruned, PartPath, Owned, Target;
    forall j | commit <= j < |trace|
      ensures Touched(job.cfg, job.rs0, trace[j], job.dir, job.name, job.x, |job.chunks|, true)
      ensures InPlace(job.cfg, trace[j], job.dir, job.name, job.x, |job.chunks|) && Placed(trace[j], job.dir + [job.name], text)
    {
      ScatteredPruned(job.cfg, job.rs0, rs1, trace[j], job.dir, job.name, job.x, |job.chunks|, Doomed(locs, keep), text);
    }
  }

  function TextOf(job: Job, data: Bytes): Result<Bytes> {
    job.cfg.marshal(MetaFor(job.cfg, data, |job.chunks|, job.x))
  }

  /** What upload and commit leave: on success the last state is the first committed one. */
  ghost predicate Uploaded(job: Job, rs: Remotes, trace: seq<Remotes>, ok: bool, data: Bytes)
    requires job.cfg.chunkSize > 0
  {
    && NoNewDirs(job.rs0, rs, job.dir) && Scattering(job, rs, trace, ok, TextOf(job, data))
    && (ok ==> job.start < |trace|)
    && (Setting(job.cfg, job.rs0, job.dir, job.name, job.x) && Spellable(job.cfg, job.name, |job.chunks|) ==>
          && AllUploading(job.cfg, job.rs0, trace, job.start, if ok then |trace| - 1 else |trace|, job.dir, job.name, job.x)
          && (ok ==> Committed(job.cfg, job.rs0, rs, job.dir, job.name, job.x, data)))
  }

  lemma UploadStopped(job: Job, rs: Remotes, trace: seq<Remotes>, k: nat, data: Bytes)
    requires job.At(rs, trace, k) && job.cfg.chunkSize > 0
    ensures Uploaded(job, rs, trace, false, data) && (|rs| > 0 ==> Uploaded(job, rs, trace + [rs], false, data))
  {
    ScatteringStops(job, rs, trace, k, TextOf(job, data));
    hide Scattering;
    if Setting(job.cfg, job.rs0, job.dir, job.name, job.x) && Spellable(job.cfg, job.name, |job.chunks|) {
      assert job.Nice();
    }
  }

  lemma UploadFinished(job: Job, rs: Remotes, trace: seq<Remotes>, data: Bytes, meta: Bytes)
    requires job.At(rs, trace, |job.chunks|) && Lawful(job.cfg) && 0 < |data| <= MAX_INT64 && |rs| > 0
    requires job.chunks == Split(data, job.cfg.chunkSize) && job.start <= |trace|
    requires job.cfg.marshal(MetaFor(job.cfg, data, |job.chunks|, job.x)) == Ok(meta)
    ensures var rs' := rs[0 := Written(rs[0], job.dir + [job.name], meta)];
      Uploaded(job, rs', trace + [rs'], true, data)
  {
    hide Job.At, Job.Nice, Job.Loose, Committed, Split, Written, Progress, AllUploading, NoNewDirs, MetaFor, Setting, Spellable,
         NamesLawful, MetaLawful, Scattering;
    var rs' := rs[0 := Written(rs[0], job.dir + [job.name], meta)];
    FinishedJob(job, rs, trace);
    ScatteringCommits(job, rs, trace, meta);
    WriteKeepsDirs(job.rs0, rs, 0, job.dir, job.name, meta);
    if Setting(job.cfg, job.rs0, job.dir, job.name, job.x) && Spellable(job.cfg, job.name, |job.chunks|) {
      SettingIsPrintable(job);
      CommitStep(job.cfg, job.rs0, rs, job.dir, job.name, job.x, data);
      UploadingStays(job, trace, rs');
    }
  }

  lemma FinishedJob(job: Job, rs: Remotes, trace: seq<Remotes>)
    requires job.At(rs, trace, |job.chunks|)
    ensures NoNewDirs(job.rs0, rs, job.dir) && job.Loose(rs, trace, |job.chunks|)
    ensures job.Nice() ==>
      && AllUploading(job.cfg, job.rs0, trace, job.start, |trace|, job.dir, job.name, job.x)
      && Progress(job.cfg, job.rs0, rs, job.dir, job.name, job.x, job.chunks)
  {
    assert job.chunks[..|job.chunks|] == job.chunks;
  }

  lemma SettingIsPrintable(job: Job)
    requires Setting(job.cfg, job.rs0, job.dir, job.name, job.x) && Spellable(job.cfg, job.name, |job.chunks|)
    ensures job.Nice()
  {
  }

  lemma UploadingStays(job: Job, trace: seq<Remotes>, rs: Remotes)
    requires AllUploading(job.cfg, job.rs0, trace, job.start, |trace|, job.dir, job.name, job.x)
    ensures AllUploading(job.cfg, job.rs0, trace + [rs], job.start, |trace|, job.dir, job.name, job.x)
  {
  }

  /** What a Put asks for up to the metadata write. */
  function CommitCalls(job: Job, text: Bytes): seq<Call>
    requires |job.rs0| > 0
  {
    UploadCalls(job.cfg, |job.rs0|, job.dir, job.name, job.x, job.chunks) + [Call(0, Write(job.dir + [job.name], text))]
  }

  /** It asks for this and nothing else, up to the first failure. */
  ghost predicate CommitCalled(job: Job, log: seq<Event>, from: nat, data: Bytes, ok: bool) {
    && |job.rs0| > 0
    && match TextOf(job, data)
       case Ok(text) => InOrder(log, from, CommitCalls(job, text), ok)
       case Err(_) =>
         !ok && exists up :: InOrder(log, from, UploadCalls(job.cfg, |job.rs0|, job.dir, job.name, job.x, job.chunks), up)
  }

  lemma CommitNot(job: Job, log: seq<Event>, from: nat, data: Bytes)
    requires |job.rs0| > 0
    requires InOrder(log, from, UploadCalls(job.cfg, |job.rs0|, job.dir, job.name, job.x, job.chunks), false)
    ensures CommitCalled(job, log, from, data, false)
  {
    hide InOrder, UploadCalls;
    if TextOf(job, data).Ok? {
      InOrderStops(log, from, UploadCalls(job.cfg, |job.rs0|, job.dir, job.name, job.x, job.chunks),
                   [Call(0, Write(job.dir + [job.name], TextOf(job, data).value))]);
    }
  }

  lemma CommitLast(job: Job, log: seq<Event>, from: nat, data: Bytes, more: seq<Event>, ok: bool)
    requires |job.rs0| > 0 && TextOf(job, data).Ok?
    requires InOrder(log, from, UploadCalls(job.cfg, |job.rs0|, job.dir, job.name, job.x, job.chunks), true)
    requires more == log + [Event(Call(0, Write(job.dir + [job.name], TextOf(job, data).value)), ok)]
    ensures CommitCalled(job, more, from, data, ok)
  {
    hide UploadCalls;
    InOrderOn(log, from, UploadCalls(job.cfg, |job.rs0|, job.dir, job.name, job.x, job.chunks),
              [Call(0, Write(job.dir + [job.name], TextOf(job, data).value))], more, ok);
  }

  /** Upload, then write the metadata. */
  method UploadAndCommit(m: Mounts, cfg: Config, dir: Path, name: string, x: string, data: Bytes, ghost job: Job)
      returns (ok: bool, keep: set<Location>)
    requires m.Valid() && Lawful(cfg) && cfg.chunkSize < |data| <= MAX_INT64
    requires job == Job(cfg, m.remotes, |m.trace|, dir, name, x, Split(data, cfg.chunkSize))
    modifies m
    ensures m.Valid() && |m.remotes| == |old(m.remotes)| && old(m.trace) <= m.trace
    ensures Uploaded(job, m.remotes, m.trace, ok, data)
    ensures ok ==> keep == NewLocations(cfg, |m.remotes|, dir, name, x, |job.chunks|) + {Location(dir + [name], 0)}
    ensures old(m.log) <= m.log && CommitCalled(job, m.log, |old(m.log)|, data, ok)
  {
    hide Job.At, Uploaded, NewLocations, MetaFor, UploadCalls, InOrder, CommitCalls;
    var chunkCount, hashed;
    ok, chunkCount, keep, hashed := UploadChunks(m, cfg, dir, name, x, data, job);
    UploadStopped(job, m.remotes, m.trace, chunkCount, data);
    ghost var calls, log := UploadCalls(cfg, |m.remotes|, dir, name, x, job.chunks), m.log;
    if !ok {
      CommitNot(job, m.log, |old(m.log)|, data);
      return;
    }
    var meta := cfg.marshal(MetaFor(cfg, hashed, chunkCount, x));
    if meta.Err? {
      return false, keep;
    }
    UploadFinished(job, m.remotes, m.trace, data, meta.value);
    ok := m.Put(0, dir, name, meta.value);
    CommitLast(job, log, |old(m.log)|, data, m.log, ok);
    keep := keep + {Location(dir + [name], 0)};
  }

  /** Everything a Put asks for: the upload and the metadata write up to the first failure, then all removals. */
  ghost predicate MetaCalled(job: Job, log: seq<Event>, from: nat, data: Bytes, locs: seq<Location>, ok: bool) {
    || (!ok && CommitCalled(job, log, from, data, false))
    || (|job.rs0| > 0 && TextOf(job, data).Ok?
        && OrderThenAll(log, from, CommitCalls(job, TextOf(job, data).value),
             Removals(locs, NewLocations(job.cfg, |job.rs0|, job.dir, job.name, job.x, |job.chunks|) + {Location(job.dir + [job.name], 0)}),
             ok))
  }

  /** Put of a large stream in "simplejson" format.  `commit` is the number of the first state after the
      metadata write.  Whatever fails, and wherever the run stops, every state so far is a whole one.  It fails only
      if one of its calls does, or the metadata cannot be written down, and makes no others. */
  method PutWithMeta(m: Mounts, cfg: Config, dir: Path, name: string, x: string, data: Bytes, existing: View)
      returns (ok: bool, ghost commit: nat)
    requires m.Valid() && Lawful(cfg) && cfg.chunkSize < |data| <= MAX_INT64
    requires Removable(cfg, m.remotes, dir, name, ObjectLocations(cfg, dir, name, existing))
    modifies m
    ensures m.Valid() && old(m.trace) <= m.trace && |old(m.trace)| <= commit <= |m.trace|
    ensures ok ==> commit < |m.trace|
    ensures old(Setting(cfg, m.remotes, dir, name, x)) ==>
      && (Spellable(cfg, name, |Split(data, cfg.chunkSize)|) ==>
            AllBefore(cfg, old(m.remotes), m.trace, |old(m.trace)|, commit, dir, name))
      && AllAfter(cfg, old(m.remotes), m.trace, commit, dir, name, x, data)
    ensures Scattered(cfg, old(m.remotes), m.trace, |old(m.trace)|, commit, dir, name, x, |Split(data, cfg.chunkSize)|,
                      cfg.marshal(MetaFor(cfg, data, |Split(data, cfg.chunkSize)|, x)))
    ensures old(m.log) <= m.log
    ensures MetaCalled(Job(cfg, old(m.remotes), |old(m.trace)|, dir, name, x, Split(data, cfg.chunkSize)), m.log, |old(m.log)|, data,
                       ObjectLocations(cfg, dir, name, existing), ok)
  {
    ghost var job := Job(cfg, m.remotes, |m.trace|, dir, name, x, Split(data, cfg.chunkSize));
    var locs := ObjectLocations(cfg, dir, name, existing);
    hide ViewOf, Owned, NamesLawful, MetaLawful, NoNewDirs, NewLocations, Committed, Setting, AllPruned, Spellable,
         AllBefore, AllAfter, AllUploading, Pruned, Split, ObjectLocations, Scattering, Scattered, InOrder, AllTried,
         CommitCalls, Removals, UploadCalls;
    var keep;
    ok, keep := UploadAndCommit(m, cfg, dir, name, x, data, job);
    ghost var rs1, before := m.remotes, m.trace;
    commit := if ok then |m.trace| - 1 else |m.trace|;
    if !ok {
      Finished(job, m.remotes, m.trace, commit, data);
      ScatteredStopped(job, m.remotes, m.trace, TextOf(job, data));
      return;
    }
    StillRemovable(cfg, job.rs0, rs1, dir, name, locs);
    ghost var log := m.log;
    ok := Cleanup(m, locs, keep);
    OrderThenAllOf(log, |old(m.log)|, CommitCalls(job, TextOf(job, data).value), Removals(locs, keep), m.log, ok);
    CleanupCommitted(rs1, before, m.trace, commit, Doomed(locs, keep));
    CommittedRun(job, rs1, before, m.trace, commit, data, locs, keep);
    ScatteredRun(job, rs1, before, m.trace, commit, locs, keep, TextOf(job, data));
  }

  lemma ScatteredStopped(job: Job, rs: Remotes, trace: seq<Remotes>, text: Result<Bytes>)
    requires Scattering(job, rs, trace, false, text)
    ensures Scattered(job.cfg, job.rs0, trace, job.start, |trace|, job.dir, job.name, job.x, |job.chunks|, text)
  {
    hide Touched, InPlace;
  }

  /** A run that stopped before the metadata was written. */
  lemma Finished(job: Job, rs: Remotes, trace: seq<Remotes>, commit: nat, data: Bytes)
    requires job.cfg.chunkSize > 0 && Uploaded(job, rs, trace, false, data) && commit == |trace|
    ensures Setting(job.cfg, job.rs0, job.dir, job.name, job.x) ==>
      && (Spellable(job.cfg, job.name, |job.chunks|) ==>
            AllBefore(job.cfg, job.rs0, trace, job.start, commit, job.dir, job.name))
      && AllAfter(job.cfg, job.rs0, trace, commit, job.dir, job.name, job.x, data)
  {
    if Setting(job.cfg, job.rs0, job.dir, job.name, job.x) && Spellable(job.cfg, job.name, |job.chunks|) {
      UploadIsBefore(job.cfg, job.rs0, trace, job.start, commit, job.dir, job.name, job.x);
    }
  }

  /** A run that went on to the cleanup. */
  lemma CommittedRun(job: Job, rs1: Remotes, before: seq<Remotes>, trace: seq<Remotes>, commit: nat, data: Bytes,
                     locs: seq<Location>, keep: set<Location>)
    requires Lawful(job.cfg) && 0 < |data| <= MAX_INT64 && job.chunks == Split(data, job.cfg.chunkSize) && |job.rs0| > 0
    requires Uploaded(job, rs1, before, true, data) && before <= trace && commit == |before| - 1
    requires |rs1| == |job.rs0| && forall j :: 0 <= j < |trace| ==> |trace[j]| == |job.rs0|
    requires Removable(job.cfg, rs1, job.dir, job.name, locs)
    requires keep == NewLocations(job.cfg, |job.rs0|, job.dir, job.name, job.x, |job.chunks|) + {Location(job.dir + [job.name], 0)}
    requires AllPruned(rs1, trace, commit, Doomed(locs, keep))
    ensures Setting(job.cfg, job.rs0, job.dir, job.name, job.x) ==>
      && (Spellable(job.cfg, job.name, |job.chunks|) ==>
            AllBefore(job.cfg, job.rs0, trace, job.start, commit, job.dir, job.name))
      && AllAfter(job.cfg, job.rs0, trace, commit, job.dir, job.name, job.x, data)
  {
    hide Owned, NamesLawful, MetaLawful, NoNewDirs, NewLocations, Committed, AllPruned, Spellable, Fresh,
         AllBefore, AllAfter, AllUploading, Split;
    if Setting(job.cfg, job.rs0, job.dir, job.name, job.x) {
      if Spellable(job.cfg, job.name, |job.chunks|) {
        CleanupIsAfter(job.cfg, job.rs0, rs1, trace, commit, job.dir, job.name, job.x, data, locs, keep);
        UploadingPrefix(job, before, trace, commit);
        UploadIsBefore(job.cfg, job.rs0, trace, job.start, commit, job.dir, job.name, job.x);
      } else {
        AllUnspellable(job.cfg, job.rs0, trace, commit, job.dir, job.name, job.x, data);
      }
    }
  }

  lemma UploadingPrefix(job: Job, before: seq<Remotes>, trace: seq<Remotes>, to: nat)
    requires AllUploading(job.cfg, job.rs0, before, job.start, to, job.dir, job.name, job.x) && before <= trace
    ensures AllUploading(job.cfg, job.rs0, trace, job.start, to, job.dir, job.name, job.x)
  {
  }

  /** The committed state itself counts as pruned of nothing. */
  lemma CleanupCommitted(rs1: Remotes, before: seq<Remotes>, trace: seq<Remotes>, commit: nat, locs: set<Location>)
    requires |before| == commit + 1 && before[commit] == rs1 && before <= trace
    requires AllPruned(rs1, trace, |before|, locs)
    ensures AllPruned(rs1, trace, commit, locs)
  {
    assert trace[commit] == rs1;
  }

  lemma ScatteredWinner(cfg: Config, rs0: Remotes, rs: Remotes, dir: Path, name: string, x: string, n: nat, data: Bytes)
    requires Ours(cfg, x, n) && Touched(cfg, rs0, rs, dir, name, x, n, true) && |rs| > 0 && FileAt(rs[0], dir + [name]) == Some(data)
    ensures IsChunkName(cfg, name) && Alone(cfg, rs0, dir, name) ==> ChunkWinner(cfg, rs, dir, name) == Some((0, data))
  {
    if IsChunkName(cfg, name) {
      forall k | Canon(cfg, k) == Canon(cfg, name) && k != name
        ensures FileAt(rs[0], dir + [k]) == FileAt(rs0[0], dir + [k])
      {
        SpellingStays(cfg, rs0, rs, dir, name, x, n, k);
      }
      WrittenWinner(cfg, rs0, rs, dir, name, data);
    }
  }

  lemma SpellingStays(cfg: Config, rs0: Remotes, rs: Remotes, dir: Path, name: string, x: string, n: nat, k: string)
    requires Ours(cfg, x, n) && Touched(cfg, rs0, rs, dir, name, x, n, true) && |rs| > 0 && IsChunkName(cfg, name)
    requires Canon(cfg, k) == Canon(cfg, name) && k != name
    ensures FileAt(rs[0], dir + [k]) == FileAt(rs0[0], dir + [k])
  {
    SpellingNotMade(cfg, dir, name, x, n, k);
    CanonParses(cfg, k);
    CanonParses(cfg, name);
    WhoseFile(cfg, dir, k, dir, name);
    JoinUnique(dir, k, dir, name);
    hide IsMade, SpellingLawful;
  }

  /** In every state of a Put with metadata, under whatever name and number base: before the commit all other
      names list as before but for the stray chunk files; from then on these are files of their own, and the
      others stay exactly if what counts as the chunk that the name reads as disturbs none of them. */
  lemma ScatteredViews(cfg: Config, rs0: Remotes, trace: seq<Remotes>, from: nat, commit: nat, j: nat, dir: Path, name: string, x: string,
                       n: nat, text: Result<Bytes>)
    requires Ours(cfg, x, n) && Scattered(cfg, rs0, trace, from, commit, dir, name, x, n, text) && from <= j < |trace|
    ensures j < commit ==> OthersBut(cfg, rs0, trace[j], dir, name, x, n)
    ensures j >= commit ==>
      && text.Ok?
      && (OthersBut(cfg, rs0, trace[j], dir, name, x, n) <==> !Disturbs(cfg, rs0, dir, name, ChunkWinner(cfg, trace[j], dir, name)))
      && (Alone(cfg, rs0, dir, name) ==>
            (OthersBut(cfg, rs0, trace[j], dir, name, x, n) <==> !Intrudes(cfg, rs0, dir, name, text.value)))
    ensures j >= commit ==> forall file :: Stray(cfg, name, x, n, file) ==>
      IsBaseName(cfg, file) && ViewOf(cfg, trace[j], dir, file) != Absent
  {
    if j < commit { StillUndisturbed(cfg, rs0, trace[j], dir, name, x, n); }
    if j >= commit { ScatteredWinner(cfg, rs0, trace[j], dir, name, x, n, text.value); }
    assert j >= commit && Intrudes(cfg, rs0, dir, name, text.value) ==> IsChunkName(cfg, name);
    assert Disturbs(cfg, rs0, dir, name, ChunkWinner(cfg, trace[j], dir, name)) ==> IsChunkName(cfg, name);
    hide Touched, InPlace, OthersBut, Disturbs, ViewOf, Stray, Ours, ChunkWinner, Alone;
    TouchedOthers(cfg, rs0, trace[j], dir, name, x, n);
    if j >= commit {
      forall file | Stray(cfg, name, x, n, file)
        ensures IsBaseName(cfg, file) && ViewOf(cfg, trace[j], dir, file) != Absent
      {
        StrayShows(cfg, trace[j], dir, name, x, n, file);
      }
    }
  }
}
