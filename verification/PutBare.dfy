/** Put with metadata format "none": the chunks carry no transaction id. */
module PutBare {
  import opened Prelude
  import opened RemoteStore
  import opened RemoteOps
  import opened ChunkView
  import opened ChunkStates
  import opened BaseSweep
  import opened StrayChunks
  import opened BaseWrite
  import opened ChunkUpload
  import opened Mirror
  import Names = ChunkNames

  /** Every file that read as an untagged chunk belongs to the replaced object, or its number is written again and
      it is overwritten or shadowed by the new chunk on an earlier remote. */
  ghost predicate NoStrays(cfg: Config, rs0: Remotes, dir: Path, name: string, locs: seq<Location>, n: nat) {
    && |rs0| > 0
    && forall file, i :: 0 <= i < |rs0| && ReadsAs(cfg, file, name, "") && FileAt(rs0[i], dir + [file]).Some? ==>
        Location(dir + [file], i) in locs || (cfg.parse(file).no < n && i >= Target(cfg, |rs0|, cfg.parse(file).no))
  }

  /** No new chunk comes to lie beside another spelling of it: which of two on one remote counts is left open. */
  ghost predicate Unmixed(cfg: Config, rs0: Remotes, dir: Path, name: string, locs: seq<Location>, n: nat) {
    && |rs0| > 0
    && forall file :: ReadsAs(cfg, file, name, "") && !CanonicalName(cfg, file) && cfg.parse(file).no < n ==>
        var i := Target(cfg, |rs0|, cfg.parse(file).no);
        FileAt(rs0[i], dir + [file]).None? || Location(dir + [file], i) in locs
  }

  /** Wherever a base file lay, it was removed: by the clearing step, whose outcome on each remote
      `removed` records, or as part of the replaced object. */
  ghost predicate BaseOut(cfg: Config, rs0: Remotes, dir: Path, name: string, locs: seq<Location>, removed: seq<bool>) {
    IsBaseName(cfg, name) ==>
      forall i :: 0 <= i < |rs0| && FileAt(rs0[i], dir + [name]).Some? ==>
        (i < |removed| && removed[i]) || Location(dir + [name], i) in locs
  }

  /** No base file of that name is left anywhere. */
  ghost predicate BaseGone(cfg: Config, rs: Remotes, dir: Path, name: string) {
    IsBaseName(cfg, name) ==> FirstFile(rs, dir + [name]).None?
  }

  function BareView(cfg: Config, remotes: nat, data: Bytes): View
    requires remotes > 0 && cfg.chunkSize > 0
  {
    Chunked(|data|, 0, None, NewParts(cfg, remotes, "", Split(data, cfg.chunkSize)))
  }

  /** A file on remote `i` that reads as an untagged chunk: written if it is a new chunk on its target, else gone
      if it was to be replaced, else as it was. */
  ghost predicate BareAt(cfg: Config, rs0: Remotes, rs: Remotes, dir: Path, name: string, chunks: seq<Bytes>,
                         locs: seq<Location>, file: string, i: nat)
    requires i < |rs| == |rs0| && IsChunkName(cfg, file)
  {
    var no := cfg.parse(file).no;
    FileAt(rs[i], dir + [file]) ==
      if CanonicalName(cfg, file) && no < |chunks| && i == Target(cfg, |rs|, no) then Some(chunks[no])
      else if Location(dir + [file], i) in locs then None
      else FileAt(rs0[i], dir + [file])
  }

  /** The new chunks are written, the replaced locations are gone, the rest is as it was. */
  ghost predicate BareDone(cfg: Config, rs0: Remotes, rs: Remotes, dir: Path, name: string, chunks: seq<Bytes>,
                           locs: seq<Location>) {
    && |rs| == |rs0| > 0
    && forall file, i :: 0 <= i < |rs| && ReadsAs(cfg, file, name, "") ==> BareAt(cfg, rs0, rs, dir, name, chunks, locs, file, i)
  }

  /** Before the target, and beyond the last new number, nothing reads as the chunk. */
  lemma BareBefore(cfg: Config, rs0: Remotes, rs: Remotes, dir: Path, name: string, chunks: seq<Bytes>, locs: seq<Location>,
                   no: nat, i: nat)
    requires Printable(cfg, name, "", |chunks|) && BareDone(cfg, rs0, rs, dir, name, chunks, locs) && i < |rs|
    requires NoStrays(cfg, rs0, dir, name, locs, |chunks|) && IsNumber(cfg, no) && (no >= |chunks| || i < Target(cfg, |rs|, no))
    ensures FileAt(Seen(cfg, rs)[i], PartPath(cfg, dir, name, no, "")).None?
  {
    hide Seen, Target;
    var file := SeenSome(cfg, rs, i, dir, cfg.make(name, no, ""));
    SpellingReads(cfg, dir, name, no, "", file);
    if cfg.parse(file) == Names.Match(name, no, "", "") {
      assert ReadsAs(cfg, file, name, "");
      assert BareAt(cfg, rs0, rs, dir, name, chunks, locs, file, i);
    }
  }

  /** On the target it is the new chunk. */
  lemma BareOnTarget(cfg: Config, rs0: Remotes, rs: Remotes, dir: Path, name: string, chunks: seq<Bytes>, locs: seq<Location>, no: nat)
    requires Printable(cfg, name, "", |chunks|) && BareDone(cfg, rs0, rs, dir, name, chunks, locs)
    requires Unmixed(cfg, rs0, dir, name, locs, |chunks|) && IsNumber(cfg, no) && no < |chunks|
    ensures FileAt(Seen(cfg, rs)[Target(cfg, |rs|, no)], PartPath(cfg, dir, name, no, "")) == Some(chunks[no])
  {
    hide Seen, Target;
    var i, file := Target(cfg, |rs|, no), cfg.make(name, no, "");
    SpellingReads(cfg, dir, name, no, "", file);
    assert ReadsAs(cfg, file, name, "") && BareAt(cfg, rs0, rs, dir, name, chunks, locs, file, i);
    forall k | Canon(cfg, k) == Canon(cfg, file) && FileAt(rs[i], dir + [k]).Some?
      ensures k == file
    {
      SpellingReads(cfg, dir, name, no, "", k);
      assert ReadsAs(cfg, k, name, "") && BareAt(cfg, rs0, rs, dir, name, chunks, locs, k, i);
      assert CanonicalName(cfg, k);
    }
    SeenOnly(cfg, rs, i, dir, file);
  }

  lemma BarePart(cfg: Config, rs0: Remotes, rs: Remotes, dir: Path, name: string, chunks: seq<Bytes>, locs: seq<Location>, no: nat)
    requires Printable(cfg, name, "", |chunks|) && BareDone(cfg, rs0, rs, dir, name, chunks, locs)
    requires NoStrays(cfg, rs0, dir, name, locs, |chunks|) && Unmixed(cfg, rs0, dir, name, locs, |chunks|) && IsNumber(cfg, no)
    ensures PartExists(cfg, rs, dir, name, no, "") <==> no < |chunks|
    ensures no < |chunks| ==> PartOf(cfg, rs, dir, name, "", no) == Part(no, Target(cfg, |rs|, no), "", chunks[no])
  {
    assert |rs| > 0;
    hide Seen, PartPath, Target, IsNumber, BareAt, BareDone, NoStrays, Unmixed, NamesLawful;
    var p := PartPath(cfg, dir, name, no, "");
    forall i | 0 <= i < |rs| && (no >= |chunks| || i < Target(cfg, |rs|, no))
      ensures FileAt(Seen(cfg, rs)[i], p).None?
    {
      BareBefore(cfg, rs0, rs, dir, name, chunks, locs, no, i);
    }
    hide FileAt, FirstData;
    if no < |chunks| {
      BareOnTarget(cfg, rs0, rs, dir, name, chunks, locs, no);
      FirstCopy(Seen(cfg, rs), p, Target(cfg, |rs|, no));
    }
  }

  lemma PartsWithoutStrays(cfg: Config, rs0: Remotes, rs: Remotes, dir: Path, name: string, chunks: seq<Bytes>, locs: seq<Location>)
    requires Printable(cfg, name, "", |chunks|) && BareDone(cfg, rs0, rs, dir, name, chunks, locs)
    requires NoStrays(cfg, rs0, dir, name, locs, |chunks|) && Unmixed(cfg, rs0, dir, name, locs, |chunks|)
    ensures Parts(cfg, rs, dir, name, "") == NewParts(cfg, |rs|, "", chunks)
  {
    assert |rs| > 0;
    hide BareDone, NoStrays, Unmixed, PartOf, PartExists, Target, NamesLawful;
    var ps := NewParts(cfg, |rs|, "", chunks);
    BarePieces(cfg, rs0, rs, dir, name, chunks, locs);
    forall no: nat | PartExists(cfg, rs, dir, name, no, "")
      ensures exists j :: 0 <= j < |ps| && ps[j].no == no
    {
      assert ps[no].no == no;
    }
    PartsAre(cfg, rs, dir, name, "", ps);
  }

  lemma BarePieces(cfg: Config, rs0: Remotes, rs: Remotes, dir: Path, name: string, chunks: seq<Bytes>, locs: seq<Location>)
    requires Printable(cfg, name, "", |chunks|) && BareDone(cfg, rs0, rs, dir, name, chunks, locs)
    requires NoStrays(cfg, rs0, dir, name, locs, |chunks|) && Unmixed(cfg, rs0, dir, name, locs, |chunks|)
    ensures forall no: nat ::
      && (PartExists(cfg, rs, dir, name, no, "") <==> no < |chunks|)
      && (no < |chunks| ==> PartOf(cfg, rs, dir, name, "", no) == Part(no, Target(cfg, |rs|, no), "", chunks[no]))
  {
    assert |rs| > 0;
    hide Seen, BareDone, NoStrays, Unmixed, PartOf, Target, NamesLawful, FirstFile, PartPath;
    forall no: nat
      ensures PartExists(cfg, rs, dir, name, no, "") <==> no < |chunks|
      ensures no < |chunks| ==> PartOf(cfg, rs, dir, name, "", no) == Part(no, Target(cfg, |rs|, no), "", chunks[no])
    {
      if IsNumber(cfg, no) { BarePart(cfg, rs0, rs, dir, name, chunks, locs, no); }
    }
  }

  lemma StraySpoils(cfg: Config, rs0: Remotes, rs: Remotes, dir: Path, name: string, chunks: seq<Bytes>, locs: seq<Location>,
                    file: string, i: nat)
    requires Printable(cfg, name, "", |chunks|) && BareDone(cfg, rs0, rs, dir, name, chunks, locs)
    requires i < |rs| && ReadsAs(cfg, file, name, "") && FileAt(rs0[i], dir + [file]).Some?
    requires Location(dir + [file], i) !in locs && !(cfg.parse(file).no < |chunks| && i >= Target(cfg, |rs|, cfg.parse(file).no))
    ensures Parts(cfg, rs, dir, name, "") != NewParts(cfg, |rs|, "", chunks)
  {
    hide Seen, Parts;
    var no := cfg.parse(file).no;
    assert BareAt(cfg, rs0, rs, dir, name, chunks, locs, file, i);
    var k := SeenSome(cfg, rs, i, dir, Canon(cfg, file));
    assert PartPath(cfg, dir, name, no, "") == dir + [Canon(cfg, file)];
    var j := EarlyPart(cfg, rs, dir, name, no, i);
    hide BareDone, NamesLawful, Target, Canon;
  }

  /** A chunk on remote `i` is listed, from there or from an earlier one. */
  lemma EarlyPart(cfg: Config, rs: Remotes, dir: Path, name: string, no: nat, i: nat) returns (j: nat)
    requires NamesLawful(cfg) && Names.PlainName(name) && IsNumber(cfg, no) && i < |rs|
    requires FileAt(Seen(cfg, rs)[i], PartPath(cfg, dir, name, no, "")).Some?
    ensures j < |Parts(cfg, rs, dir, name, "")|
    ensures Parts(cfg, rs, dir, name, "")[j].no == no && Parts(cfg, rs, dir, name, "")[j].remote <= i
  {
    hide Seen, Parts, PartPath;
    assert PartExists(cfg, rs, dir, name, no, "");
    j := PartsComplete(cfg, rs, dir, name, "", no);
    PartsProperties(cfg, rs, dir, name, "");
    assert Parts(cfg, rs, dir, name, "")[j] == PartOf(cfg, rs, dir, name, "", no);
  }

  lemma BareParts(cfg: Config, rs0: Remotes, rs: Remotes, dir: Path, name: string, chunks: seq<Bytes>, locs: seq<Location>)
    requires Printable(cfg, name, "", |chunks|) && BareDone(cfg, rs0, rs, dir, name, chunks, locs)
    ensures Parts(cfg, rs, dir, name, "") == NewParts(cfg, |rs|, "", chunks) ==> NoStrays(cfg, rs0, dir, name, locs, |chunks|)
    ensures NoStrays(cfg, rs0, dir, name, locs, |chunks|) && Unmixed(cfg, rs0, dir, name, locs, |chunks|) ==>
      Parts(cfg, rs, dir, name, "") == NewParts(cfg, |rs|, "", chunks)
  {
    hide Seen, Parts, NewParts;
    if NoStrays(cfg, rs0, dir, name, locs, |chunks|) {
      if Unmixed(cfg, rs0, dir, name, locs, |chunks|) { PartsWithoutStrays(cfg, rs0, rs, dir, name, chunks, locs); }
    } else {
      var file, i :| 0 <= i < |rs0| && ReadsAs(cfg, file, name, "") && FileAt(rs0[i], dir + [file]).Some?
        && Location(dir + [file], i) !in locs && !(cfg.parse(file).no < |chunks| && i >= Target(cfg, |rs0|, cfg.parse(file).no));
      StraySpoils(cfg, rs0, rs, dir, name, chunks, locs, file, i);
    }
  }

  lemma {:induction false} TotalOfParts(ps: seq<Part>)
    ensures TotalSize(ps) == |Concat(Datas(ps))|
  {
    if ps != [] {
      assert Datas(ps)[1..] == Datas(ps[1..]);
      TotalOfParts(ps[1..]);
    }
  }

  lemma DatasOfNewParts(cfg: Config, remotes: nat, x: string, data: Bytes)
    requires remotes > 0 && cfg.chunkSize > 0
    ensures Concat(Datas(NewParts(cfg, remotes, x, Split(data, cfg.chunkSize)))) == data
  {
    assert Datas(NewParts(cfg, remotes, x, Split(data, cfg.chunkSize))) == Split(data, cfg.chunkSize);
    ConcatOfSplit(data, cfg.chunkSize);
  }

  /** A finished Put without metadata lists as exactly the new chunks only if no base file is left and no stray
      untagged chunk was lying around, and if so, unless a new chunk lies beside another spelling of it. */
  lemma BareResult(cfg: Config, rs0: Remotes, rs: Remotes, dir: Path, name: string, data: Bytes, locs: seq<Location>)
    requires cfg.chunkSize > 0 && data != ""
    requires Printable(cfg, name, "", |Split(data, cfg.chunkSize)|)
    requires BareDone(cfg, rs0, rs, dir, name, Split(data, cfg.chunkSize), locs)
    ensures var n := |Split(data, cfg.chunkSize)|;
      && (ViewOf(cfg, rs, dir, name) == BareView(cfg, |rs|, data) ==>
            BaseGone(cfg, rs, dir, name) && NoStrays(cfg, rs0, dir, name, locs, n))
      && (Unmixed(cfg, rs0, dir, name, locs, n) ==>
            (ViewOf(cfg, rs, dir, name) == BareView(cfg, |rs|, data)
             <==> BaseGone(cfg, rs, dir, name) && NoStrays(cfg, rs0, dir, name, locs, n)))
  {
    var chunks := Split(data, cfg.chunkSize);
    BareParts(cfg, rs0, rs, dir, name, chunks, locs);
    assert |rs| > 0 && chunks != [];
    hide Seen, NoStrays, Unmixed, BareDone, Parts, Split, Target, NamesLawful;
    var ps := NewParts(cfg, |rs|, "", chunks);
    TotalOfParts(ps);
    DatasOfNewParts(cfg, |rs|, "", data);
  }

  /** In no state whatever does a name list as a new bare object unless its chunks can be found again. */
  lemma OnlySpellable(cfg: Config, rs: Remotes, dir: Path, name: string, data: Bytes)
    requires NamesLawful(cfg) && cfg.chunkSize > 0 && |rs| > 0 && |data| > 0
    requires ViewOf(cfg, rs, dir, name) == BareView(cfg, |rs|, data)
    ensures Spellable(cfg, name, |Split(data, cfg.chunkSize)|)
  {
    hide ViewOf, Parts, PartOf, Seen, NamesLawful;
    var n := |Split(data, cfg.chunkSize)|;
    ListedParts(cfg, rs, dir, name);
    var v := ViewOf(cfg, rs, dir, name);
    assert Split(data, cfg.chunkSize) != [];
    assert |v.parts| == n && v.parts[0].no == 0 && v.parts[n - 1].no == n - 1;
    assert PartExists(cfg, rs, dir, name, 0, "") && PartExists(cfg, rs, dir, name, n - 1, "");
  }

  // ---- the run ----

  /** Nodes have only vanished, and only at or below the base path. */
  ghost predicate BaseCleared(rs0: Remotes, rs: Remotes, base: Path) {
    && |rs| == |rs0|
    && (forall i, p :: 0 <= i < |rs| && !(base <= p) ==> FileAt(rs[i], p) == FileAt(rs0[i], p))
    && (forall i, p :: 0 <= i < |rs| && p in rs[i] ==> p in rs0[i] && rs[i][p] == rs0[i][p])
  }

  /** What the clearing step did to the base path, remote by remote. */
  ghost predicate ClearedAs(rs0: Remotes, rs: Remotes, base: Path, removed: seq<bool>) {
    && |rs| == |rs0| && |removed| <= |rs|
    && forall i :: 0 <= i < |rs| ==>
        FileAt(rs[i], base) == if i < |removed| && removed[i] then None else FileAt(rs0[i], base)
  }

  /** The states of the clearing step: after each attempt, what has been removed so far is gone. */
  ghost predicate AllSwept(rs0: Remotes, trace: seq<Remotes>, from: nat, base: Path, removed: seq<bool>) {
    && |trace| == from + |removed|
    && forall j :: from <= j < |trace| ==> trace[j] == Swept(rs0, base, removed[..j - from + 1])
  }

  lemma SweptIsCleared(rs0: Remotes, base: Path, removed: seq<bool>)
    requires |removed| <= |rs0|
    ensures BaseCleared(rs0, Swept(rs0, base, removed), base) && ClearedAs(rs0, Swept(rs0, base, removed), base, removed)
  {
    forall i, p | 0 <= i < |rs0|
      ensures FileAt(Swept(rs0, base, removed)[i], p) ==
        if i < |removed| && removed[i] && Takes(rs0[i], base, p) then None else FileAt(rs0[i], p)
    {
      SweptFile(rs0, base, removed, i, p);
    }
  }

  lemma SweptOneMore(rs0: Remotes, trace: seq<Remotes>, from: nat, base: Path, removed: seq<bool>, gone: bool)
    requires AllSwept(rs0, trace, from, base, removed) && |removed| < |rs0|
    ensures AllSwept(rs0, trace + [Swept(rs0, base, removed + [gone])], from, base, removed + [gone])
  {
    var more := removed + [gone];
    var states := trace + [Swept(rs0, base, more)];
    assert more[..|more|] == more;
    forall j | from <= j < |states|
      ensures states[j] == Swept(rs0, base, more[..j - from + 1])
    {
      if j < |trace| { assert more[..j - from + 1] == removed[..j - from + 1]; }
    }
  }

  /** One attempt on every remote, with these outcomes. */
  function ClearEvents(base: Path, removed: seq<bool>): seq<Event> {
    seq(|removed|, i requires 0 <= i < |removed| => Event(Call(i, Delete(base)), removed[i]))
  }

  /** Remove the base path on every remote, one attempt each; errors are ignored. */
  method ClearBase(m: Mounts, base: Path) returns (ghost removed: seq<bool>)
    requires m.Valid()
    modifies m
    ensures m.Valid() && old(m.trace) <= m.trace
    ensures |removed| == |old(m.remotes)| && m.remotes == Swept(old(m.remotes), base, removed)
    ensures AllSwept(old(m.remotes), m.trace, |old(m.trace)|, base, removed)
    ensures m.log == old(m.log) + ClearEvents(base, removed)
  {
    removed := [];
    assert m.log == old(m.log) + ClearEvents(base, []);
    SweptNothing(m.remotes, base);
    hide Removed, Swept;
    for i := 0 to |m.remotes|
      invariant m.Valid() && old(m.trace) <= m.trace && |m.remotes| == |old(m.remotes)|
      invariant |removed| == i && m.remotes == Swept(old(m.remotes), base, removed)
      invariant AllSwept(old(m.remotes), m.trace, |old(m.trace)|, base, removed)
      invariant m.log == old(m.log) + ClearEvents(base, removed)
    {
      SweptStep(old(m.remotes), base, removed, true);
      SweptStep(old(m.remotes), base, removed, false);
      ghost var states := m.trace;
      var gone := m.Remove(i, base);
      SweptOneMore(old(m.remotes), states, |old(m.trace)|, base, removed, gone);
      assert ClearEvents(base, removed + [gone]) == ClearEvents(base, removed) + [Event(Call(i, Delete(base)), gone)];
      removed := removed + [gone];
    }
  }

  lemma KeptLocation(cfg: Config, remotes: nat, dir: Path, name: string, n: nat, file: string, i: nat)
    requires remotes > 0 && Printable(cfg, name, "", n) && ReadsAs(cfg, file, name, "")
    ensures Location(dir + [file], i) in NewLocations(cfg, remotes, dir, name, "", n)
       <==> CanonicalName(cfg, file) && cfg.parse(file).no < n && i == Target(cfg, remotes, cfg.parse(file).no)
  {
    var no := cfg.parse(file).no;
    if Location(dir + [file], i) in NewLocations(cfg, remotes, dir, name, "", n) {
      var k: nat :| k < n && Location(dir + [file], i) == Location(PartPath(cfg, dir, name, k, ""), Target(cfg, remotes, k));
      assert PartPath(cfg, dir, name, k, "")[|dir|] == (dir + [file])[|dir|];
      SpellingReads(cfg, dir, name, k, "", file);
    }
    if CanonicalName(cfg, file) && no < n && i == Target(cfg, remotes, no) {
      assert PartPath(cfg, dir, name, no, "") == dir + [file];
    }
  }

  lemma BaseNotKept(cfg: Config, remotes: nat, dir: Path, name: string, n: nat, i: nat)
    requires remotes > 0 && Printable(cfg, name, "", n)
    ensures Location(dir + [name], i) !in NewLocations(cfg, remotes, dir, name, "", n)
  {
    hide Target;
    forall k: nat | k < n
      ensures PartPath(cfg, dir, name, k, "") != dir + [name]
    {
      assert PartPath(cfg, dir, name, k, "")[|dir|] == cfg.make(name, k, "") && (dir + [name])[|dir|] == name;
    }
  }

  lemma BaseNotUploaded(cfg: Config, rs0: Remotes, rs1: Remotes, dir: Path, name: string, i: nat)
    requires NamesLawful(cfg) && Uploading(cfg, rs0, rs1, dir, name, "") && i < |rs1|
    ensures FileAt(rs1[i], dir + [name]) == FileAt(rs0[i], dir + [name])
  {
    assert (dir + [name])[|dir|] == name;
    assert !IsPartPath(cfg, dir, name, "", dir + [name]);
  }

  /** The states a finished run went through: chunks written, base path cleared, replaced object removed. */
  ghost predicate Steps(cfg: Config, rs0: Remotes, rs1: Remotes, rs2: Remotes, rs: Remotes, dir: Path, name: string,
                        chunks: seq<Bytes>, locs: seq<Location>, removed: seq<bool>)
  {
    && |rs0| > 0 && Progress(cfg, rs0, rs1, dir, name, "", chunks)
    && BaseCleared(rs1, rs2, dir + [name]) && ClearedAs(rs1, rs2, dir + [name], removed)
    && var gone := Doomed(locs, NewLocations(cfg, |rs0|, dir, name, "", |chunks|));
       Pruned(rs2, rs, gone) && forall l :: l in gone ==> l.remote < |rs| && FileAt(rs[l.remote], l.path).None?
  }

  /** What the chunk writes have left of a file that reads as an untagged chunk. */
  lemma UploadedAt(cfg: Config, rs0: Remotes, rs1: Remotes, dir: Path, name: string, chunks: seq<Bytes>, file: string, i: nat)
    requires Printable(cfg, name, "", |chunks|) && |rs0| > 0 && Progress(cfg, rs0, rs1, dir, name, "", chunks)
    requires i < |rs0| && ReadsAs(cfg, file, name, "")
    ensures FileAt(rs1[i], dir + [file]) ==
      var no := cfg.parse(file).no;
      if CanonicalName(cfg, file) && no < |chunks| && i == Target(cfg, |rs0|, no) then Some(chunks[no]) else FileAt(rs0[i], dir + [file])
  {
    var p, no := dir + [file], cfg.parse(file).no;
    assert p[|dir|] == file;
    if CanonicalName(cfg, file) {
      assert PartPath(cfg, dir, name, no, "") == p;
    } else {
      assert !IsPartPath(cfg, dir, name, "", p);
    }
  }

  lemma BareDoneAt(cfg: Config, rs0: Remotes, rs1: Remotes, rs2: Remotes, rs: Remotes, dir: Path, name: string,
                   chunks: seq<Bytes>, locs: seq<Location>, removed: seq<bool>, file: string, i: nat)
    requires Printable(cfg, name, "", |chunks|) && Steps(cfg, rs0, rs1, rs2, rs, dir, name, chunks, locs, removed)
    requires i < |rs0| && ReadsAs(cfg, file, name, "")
    ensures BareAt(cfg, rs0, rs, dir, name, chunks, locs, file, i)
  {
    var p := dir + [file];
    KeptLocation(cfg, |rs0|, dir, name, |chunks|, file, i);
    UploadedAt(cfg, rs0, rs1, dir, name, chunks, file, i);
    JoinUnique(dir, file, dir, name);
    SamePrefix(dir + [name], p);
    hide Progress, NewLocations, Target, NamesLawful;
    assert FileAt(rs2[i], p) == FileAt(rs1[i], p);
    assert Location(p, i) in Doomed(locs, NewLocations(cfg, |rs0|, dir, name, "", |chunks|))
      <==> Location(p, i) in locs && Location(p, i) !in NewLocations(cfg, |rs0|, dir, name, "", |chunks|);
  }

  /** On each remote the base file is gone exactly if it was never there, was cleared or was replaced. */
  lemma BaseDoneAt(cfg: Config, rs0: Remotes, rs1: Remotes, rs2: Remotes, rs: Remotes, dir: Path, name: string,
                   chunks: seq<Bytes>, locs: seq<Location>, removed: seq<bool>, i: nat)
    requires Printable(cfg, name, "", |chunks|) && Steps(cfg, rs0, rs1, rs2, rs, dir, name, chunks, locs, removed)
    requires i < |rs0|
    ensures var base := dir + [name];
      FileAt(rs[i], base) ==
        if (i < |removed| && removed[i]) || Location(base, i) in locs then None else FileAt(rs0[i], base)
  {
    BaseNotKept(cfg, |rs0|, dir, name, |chunks|, i);
    BaseNotUploaded(cfg, rs0, rs1, dir, name, i);
    hide NewLocations, Uploading, Holds, OnlyAdds, NamesLawful, BaseCleared;
  }

  lemma BareDoneHolds(cfg: Config, rs0: Remotes, rs1: Remotes, rs2: Remotes, rs: Remotes, dir: Path, name: string,
                      chunks: seq<Bytes>, locs: seq<Location>, removed: seq<bool>)
    requires Printable(cfg, name, "", |chunks|) && Steps(cfg, rs0, rs1, rs2, rs, dir, name, chunks, locs, removed)
    ensures BareDone(cfg, rs0, rs, dir, name, chunks, locs)
  {
    assert |rs| == |rs0| > 0;
    hide Steps, IsNumber, Printable, BareAt;
    forall file, i | 0 <= i < |rs| && ReadsAs(cfg, file, name, "")
      ensures BareAt(cfg, rs0, rs, dir, name, chunks, locs, file, i)
    {
      BareDoneAt(cfg, rs0, rs1, rs2, rs, dir, name, chunks, locs, removed, file, i);
    }
  }

  lemma BaseDoneHolds(cfg: Config, rs0: Remotes, rs1: Remotes, rs2: Remotes, rs: Remotes, dir: Path, name: string,
                      chunks: seq<Bytes>, locs: seq<Location>, removed: seq<bool>)
    requires Printable(cfg, name, "", |chunks|) && Steps(cfg, rs0, rs1, rs2, rs, dir, name, chunks, locs, removed)
    ensures BaseGone(cfg, rs, dir, name) <==> BaseOut(cfg, rs0, dir, name, locs, removed)
  {
    assert |rs| == |rs0| > 0;
    hide Steps, Printable;
    forall i | 0 <= i < |rs|
      ensures FileAt(rs[i], dir + [name]).None? <==>
        (i < |removed| && removed[i]) || Location(dir + [name], i) in locs || FileAt(rs0[i], dir + [name]).None?
    {
      BaseDoneAt(cfg, rs0, rs1, rs2, rs, dir, name, chunks, locs, removed, i);
    }
    if FirstFile(rs, dir + [name]).None? {
      assert forall i :: 0 <= i < |rs| ==> FileAt(rs[i], dir + [name]).None?;
    }
  }

  // ---- what stays unchanged ----

  /** What had been removed when state number `j` was reached, if the clearing step began with state
      number `cleared`. */
  function Gone(removed: seq<bool>, cleared: nat, j: nat): seq<bool> {
    if j < cleared then [] else removed[..Min(j - cleared + 1, |removed|)]
  }

  /** In every state other names list as in the old one with the base path removed where it has been so far, but
      for chunk files that cannot be found again. */
  ghost predicate AllBeside(cfg: Config, rs0: Remotes, trace: seq<Remotes>, from: nat, cleared: nat, removed: seq<bool>,
                            dir: Path, name: string, n: nat) {
    forall j :: from <= j < |trace| ==>
      OthersBut(cfg, Swept(rs0, dir + [name], Gone(removed, cleared, j)), trace[j], dir, name, "", n)
  }

  /** So what neither lies below the base path nor is spelled by the name lists as before. */
  lemma BesideElsewhere(cfg: Config, rs0: Remotes, rs: Remotes, dir: Path, name: string, removed: seq<bool>, n: nat, d: Path, m: string)
    requires NamesLawful(cfg) && OthersBut(cfg, Swept(rs0, dir + [name], removed), rs, dir, name, "", n)
    requires (d, m) != (dir, name) && !(dir + [name] <= d) && !(IsChunkName(cfg, name) && (d, m) == (dir, cfg.parse(name).main))
    requires !(d == dir && Stray(cfg, name, "", n, m))
    ensures ViewOf(cfg, rs, d, m) == ViewOf(cfg, rs0, d, m)
  {
    SweptIsSpared(cfg, rs0, dir, name, removed);
    hide Swept, Spared, ViewOf, NamesLawful, Stray;
    SparedElsewhere(cfg, rs0, Swept(rs0, dir + [name], removed), dir, name, name, d, m);
  }

  /** What the chunk writes have left. */
  ghost predicate Laid(cfg: Config, rs0: Remotes, rs1: Remotes, dir: Path, name: string, n: nat) {
    && Ours(cfg, "", n) && Touched(cfg, rs0, rs1, dir, name, "", n, false)
    && NoNewDirs(rs0, rs1, dir) && DirsStay(cfg, rs0, rs1, dir, name, "", n)
  }

  /** The base path holds the same before and after the upload, so its removal takes the same files. */
  lemma TakesTheSame(cfg: Config, rs0: Remotes, rs1: Remotes, dir: Path, name: string, n: nat, i: nat, p: Path)
    requires Laid(cfg, rs0, rs1, dir, name, n) && i < |rs1|
    ensures Takes(rs1[i], dir + [name], p) <==> Takes(rs0[i], dir + [name], p)
    ensures FileAt(rs1[i], dir + [name]) == FileAt(rs0[i], dir + [name])
  {
    BaseNotOwnChunk(cfg, dir, name, "", n);
    hide IsMade, Ours;
    var base := dir + [name];
    assert FileAt(rs1[i], base) == FileAt(rs0[i], base);
  }

  lemma SweptUpload(cfg: Config, rs0: Remotes, rs1: Remotes, dir: Path, name: string, n: nat, removed: seq<bool>)
    requires Laid(cfg, rs0, rs1, dir, name, n)
    ensures Touched(cfg, Swept(rs0, dir + [name], removed), Swept(rs1, dir + [name], removed), dir, name, "", n, false)
  {
    var base := dir + [name];
    assert |rs1| == |rs0|;
    forall i, p | 0 <= i < |rs1| && !IsMade(cfg, dir, name, "", n, p)
      ensures FileAt(Swept(rs1, base, removed)[i], p) == FileAt(Swept(rs0, base, removed)[i], p)
    {
      TakesTheSame(cfg, rs0, rs1, dir, name, n, i, p);
      SweptFile(rs0, base, removed, i, p);
      SweptFile(rs1, base, removed, i, p);
      hide Swept, Takes, IsMade;
    }
  }

  lemma SweptCleanup(cfg: Config, rs0: Remotes, rs2: Remotes, rs: Remotes, dir: Path, name: string, n: nat, gone: set<Location>)
    requires Touched(cfg, rs0, rs2, dir, name, "", n, false) && Pruned(rs2, rs, gone)
    requires forall l :: l in gone ==> Owned(cfg, dir, name, l.path)
    requires Ours(cfg, "", n)
    ensures Touched(cfg, rs0, rs, dir, name, "", n, true)
    ensures IsChunkName(cfg, name) ==> Agree(Seen(cfg, rs0), Seen(cfg, rs), dir + [Canon(cfg, name)])
  {
    if IsChunkName(cfg, name) {
      assert |rs| == |rs0|;
      forall k | Canon(cfg, k) == Canon(cfg, name)
        ensures Agree(rs0, rs, dir + [k])
      {
        SpellingSpared(cfg, rs0, rs2, rs, dir, name, n, gone, k);
      }
      SeenAgree(cfg, rs0, rs, dir, Canon(cfg, name));
    }
    hide Owned, IsMade, NamesLawful, Ours, Seen;
  }

  /** Files that read as the chunk which the name reads as are none of the name's own. */
  lemma SpellingSpared(cfg: Config, rs0: Remotes, rs2: Remotes, rs: Remotes, dir: Path, name: string, n: nat,
                       gone: set<Location>, k: string)
    requires Touched(cfg, rs0, rs2, dir, name, "", n, false) && Pruned(rs2, rs, gone) && Ours(cfg, "", n)
    requires (forall l :: l in gone ==> Owned(cfg, dir, name, l.path)) && IsChunkName(cfg, name) && Canon(cfg, k) == Canon(cfg, name)
    ensures Agree(rs0, rs, dir + [k])
  {
    SpellingNotMade(cfg, dir, name, "", n, k);
    CanonParses(cfg, k);
    CanonParses(cfg, name);
    WhoseFile(cfg, dir, k, dir, name);
    hide IsMade, Ours, NamesLawful;
  }

  lemma UploadBeside(cfg: Config, rs0: Remotes, rs: Remotes, dir: Path, name: string, n: nat)
    requires Ours(cfg, "", n) && Touched(cfg, rs0, rs, dir, name, "", n, false)
    ensures OthersBut(cfg, Swept(rs0, dir + [name], []), rs, dir, name, "", n)
  {
    SweptNothing(rs0, dir + [name]);
    StillUndisturbed(cfg, rs0, rs, dir, name, "", n);
    hide Swept, OthersBut, Touched, Ours, Disturbs;
    TouchedOthers(cfg, rs0, rs, dir, name, "", n);
  }

  lemma ClearBeside(cfg: Config, rs0: Remotes, rs1: Remotes, rs: Remotes, dir: Path, name: string, n: nat, removed: seq<bool>,
                    gone: set<Location>)
    requires Laid(cfg, rs0, rs1, dir, name, n)
    requires Pruned(Swept(rs1, dir + [name], removed), rs, gone) && forall l :: l in gone ==> Owned(cfg, dir, name, l.path)
    ensures OthersBut(cfg, Swept(rs0, dir + [name], removed), rs, dir, name, "", n)
  {
    SweptUpload(cfg, rs0, rs1, dir, name, n, removed);
    hide Swept, OthersBut, Touched, NamesLawful, SpellingLawful, Owned, Pruned, Seen, Canon;
    var base := dir + [name];
    SweptCleanup(cfg, Swept(rs0, base, removed), Swept(rs1, base, removed), rs, dir, name, n, gone);
    TouchedBeside(cfg, Swept(rs0, base, removed), rs, dir, name, "", n);
  }

  /** The states of the upload, of the clearing step and of the cleanup. */
  lemma AllStatesBeside(cfg: Config, rs0: Remotes, rs1: Remotes, before: seq<Remotes>, mid: seq<Remotes>, trace: seq<Remotes>,
                        from: nat, dir: Path, name: string, n: nat, removed: seq<bool>, gone: set<Location>)
    requires Laid(cfg, rs0, rs1, dir, name, n) && AllTouched(cfg, rs0, before, from, |before|, dir, name, "", n, false)
    requires before <= mid <= trace
    requires AllSwept(rs1, mid, |before|, dir + [name], removed)
    requires AllPruned(Swept(rs1, dir + [name], removed), trace, |mid|, gone)
    requires forall l :: l in gone ==> Owned(cfg, dir, name, l.path)
    ensures AllBeside(cfg, rs0, trace, from, |before|, removed, dir, name, n)
  {
    var base := dir + [name];
    assert Ours(cfg, "", n);
    hide OthersBut, Owned, Swept, Laid, Touched, Ours;
    forall j | from <= j < |trace|
      ensures OthersBut(cfg, Swept(rs0, base, Gone(removed, |before|, j)), trace[j], dir, name, "", n)
    {
      if j < |before| {
        assert trace[j] == before[j];
        UploadBeside(cfg, rs0, trace[j], dir, name, n);
      } else if j < |mid| {
        assert trace[j] == mid[j];
        ClearBeside(cfg, rs0, rs1, trace[j], dir, name, n, removed[..j - |before| + 1], {});
      } else {
        assert removed[..|removed|] == removed;
        ClearBeside(cfg, rs0, rs1, trace[j], dir, name, n, removed, gone);
      }
    }
  }

  /** Compared with the old state, other names stay exactly if the sweep spares them. */
  lemma BesideIsSpared(cfg: Config, rs0: Remotes, rs: Remotes, dir: Path, name: string, n: nat, removed: seq<bool>)
    requires Ours(cfg, "", n) && OthersBut(cfg, Swept(rs0, dir + [name], removed), rs, dir, name, "", n)
    ensures OthersBut(cfg, rs0, rs, dir, name, "", n) <==> SweepSpares(cfg, rs0, dir, name, removed)
  {
    var rs1 := Swept(rs0, dir + [name], removed);
    SweptOthers(cfg, rs0, dir, name, removed);
    SweptIsSpared(cfg, rs0, dir, name, removed);
    if IsChunkName(cfg, name) {
      MainIsNoStray(cfg, dir, name, "", n);
      SparedSpelled(cfg, rs0, rs1, dir, name, name);
    }
    NotBelowItself(dir, name);
    hide Swept, ViewOf, Ours, Spared, Disturbs, Stray, Survives, Lost, ChunkWinner;
    forall d, m | dir + [name] <= d
      ensures ViewOf(cfg, rs1, d, m) == ViewOf(cfg, rs0, d, m) <==> Survives(cfg, rs0, Lost(rs0, dir + [name], removed), d, m)
    {
      SweptBelow(rs0, dir + [name], removed, d);
      hide Thinned, NamesLawful;
      SurvivesExactly(cfg, rs0, rs1, Lost(rs0, dir + [name], removed), d, m);
    }
  }

  /** Put of a large stream in format "none".  A finished run lists as exactly the new chunks if and only
      if they can be found again, every base file that was there could be removed, and no stray untagged
      chunk was there before; where a new chunk lies beside another spelling of it, that much is needed but which
      of the two counts is left open.  In every state on the way other names list as if only the base path had been
      removed, where it has been; at the end they list as before the call if and only if that removal spares
      them.  Chunk files that cannot be found again are the exception: each is a file of its own.  `cleared`
      is the number of the first state of the clearing step. */
  method PutBare(m: Mounts, cfg: Config, dir: Path, name: string, data: Bytes, existing: View)
      returns (ok: bool, ghost removed: seq<bool>, ghost cleared: nat)
    requires m.Valid() && Lawful(cfg) && cfg.chunkSize < |data| <= MAX_INT64
    requires Removable(cfg, m.remotes, dir, name, ObjectLocations(cfg, dir, name, existing))
    modifies m
    ensures m.Valid() && |m.remotes| == |old(m.remotes)| && old(m.trace) <= m.trace
    ensures ok ==> BareOutcome(cfg, old(m.remotes), m.remotes, dir, name, data, ObjectLocations(cfg, dir, name, existing), removed)
    ensures ok && Spellable(cfg, name, |Split(data, cfg.chunkSize)|) ==>
      BaseLeft(old(m.remotes), m.remotes, dir + [name], ObjectLocations(cfg, dir, name, existing), removed)
    ensures var n := |Split(data, cfg.chunkSize)|;
      && AllBeside(cfg, old(m.remotes), m.trace, |old(m.trace)|, cleared, removed, dir, name, n)
      && (OthersBut(cfg, old(m.remotes), m.remotes, dir, name, "", n) <==> SweepSpares(cfg, old(m.remotes), dir, name, removed))
      && (ok ==> InPlace(cfg, m.remotes, dir, name, "", n))
    ensures old(m.log) <= m.log && BareCalled(cfg, |m.remotes|, dir, name, Split(data, cfg.chunkSize), m.log, |old(m.log)|,
                                              ObjectLocations(cfg, dir, name, existing), removed, ok)
  {
    ghost var rs0, start := m.remotes, |m.trace|;
    ghost var chunks := Split(data, cfg.chunkSize);
    ghost var job := Job(cfg, rs0, start, dir, name, "", chunks);
    var locs := ObjectLocations(cfg, dir, name, existing);
    assert |rs0| > 0;
    hide *;
    var chunkCount, keep, hashed;
    ok, chunkCount, keep, hashed := UploadChunks(m, cfg, dir, name, "", data, job);
    hide *;
    removed, cleared := [], |m.trace|;
    BareUploaded(job, m.remotes, m.trace, chunkCount);
    if !ok {
      BareStopped(job, m.log, |old(m.log)|, locs);
      return;
    }
    StillRemovable(cfg, rs0, m.remotes, dir, name, locs);
    ok, removed := BareFinish(m, cfg, dir, name, data, locs, keep, job, |old(m.log)|);
  }

  /** The rest of the call once all chunks are written. */
  method BareFinish(m: Mounts, cfg: Config, dir: Path, name: string, data: Bytes, locs: seq<Location>, keep: set<Location>,
                    ghost job: Job, ghost from: nat)
      returns (ok: bool, ghost removed: seq<bool>)
    requires m.Valid() && Lawful(cfg) && 0 < |data| <= MAX_INT64
    requires (job.cfg, job.dir, job.name, job.x) == (cfg, dir, name, "") && job.chunks == Split(data, cfg.chunkSize)
    requires job.At(m.remotes, m.trace, |job.chunks|) && |m.remotes| == |job.rs0|
    requires Removable(cfg, m.remotes, dir, name, locs)
    requires keep == NewLocations(cfg, |job.rs0|, dir, name, "", |job.chunks|)
    requires InOrder(m.log, from, UploadCalls(cfg, |job.rs0|, dir, name, "", job.chunks), true)
    modifies m
    ensures m.Valid() && |m.remotes| == |job.rs0| && old(m.trace) <= m.trace && old(m.log) <= m.log
    ensures BareCalled(cfg, |job.rs0|, dir, name, job.chunks, m.log, from, locs, removed, ok)
    ensures var n := |job.chunks|;
      && AllBeside(cfg, job.rs0, m.trace, job.start, |old(m.trace)|, removed, dir, name, n)
      && (OthersBut(cfg, job.rs0, m.remotes, dir, name, "", n) <==> SweepSpares(cfg, job.rs0, dir, name, removed))
      && InPlace(cfg, m.remotes, dir, name, "", n)
    ensures ok ==> BareOutcome(cfg, job.rs0, m.remotes, dir, name, data, locs, removed)
    ensures ok && Spellable(cfg, name, |job.chunks|) ==> BaseLeft(job.rs0, m.remotes, dir + [name], locs, removed)
  {
    assert |m.remotes| > 0 && cfg.chunkSize > 0;
    hide *;
    ghost var mid;
    ok, removed, mid := ClearAndClean(m, cfg, dir, name, locs, keep);
    hide *;
    BareThrough(job, old(m.remotes), m.remotes, old(m.trace), mid, m.trace, old(m.log), m.log, from, data, locs, removed, keep, ok);
  }

  /** All about a run that came as far as the cleanup. */
  lemma BareThrough(job: Job, rs1: Remotes, rs: Remotes, before: seq<Remotes>, mid: seq<Remotes>, trace: seq<Remotes>,
                    log: seq<Event>, more: seq<Event>, from: nat, data: Bytes, locs: seq<Location>, removed: seq<bool>,
                    keep: set<Location>, ok: bool)
    requires Lawful(job.cfg) && job.x == "" && job.chunks == Split(data, job.cfg.chunkSize) && 0 < |data| <= MAX_INT64
    requires job.At(rs1, before, |job.chunks|) && before <= mid <= trace && |rs| == |rs1| == |job.rs0| == |removed| > 0
    requires keep == NewLocations(job.cfg, |job.rs0|, job.dir, job.name, "", |job.chunks|)
    requires AllSwept(rs1, mid, |before|, job.dir + [job.name], removed)
    requires var rs2 := Swept(rs1, job.dir + [job.name], removed);
      && AllPruned(rs2, trace, |mid|, Doomed(locs, keep)) && Pruned(rs2, rs, Doomed(locs, keep))
      && Removable(job.cfg, rs2, job.dir, job.name, locs)
    requires ok ==> forall l :: l in Doomed(locs, keep) ==> l.remote < |rs| && FileAt(rs[l.remote], l.path).None?
    requires InOrder(log, from, UploadCalls(job.cfg, |job.rs0|, job.dir, job.name, "", job.chunks), true)
    requires var log2 := log + ClearEvents(job.dir + [job.name], removed);
      log2 <= more && AllTried(more, |log2|, Removals(locs, keep), ok)
    ensures BareCalled(job.cfg, |job.rs0|, job.dir, job.name, job.chunks, more, from, locs, removed, ok)
    ensures var n := |job.chunks|;
      && AllBeside(job.cfg, job.rs0, trace, job.start, |before|, removed, job.dir, job.name, n)
      && (OthersBut(job.cfg, job.rs0, rs, job.dir, job.name, "", n) <==> SweepSpares(job.cfg, job.rs0, job.dir, job.name, removed))
      && InPlace(job.cfg, rs, job.dir, job.name, "", n)
    ensures ok ==> BareOutcome(job.cfg, job.rs0, rs, job.dir, job.name, data, locs, removed)
    ensures ok && Spellable(job.cfg, job.name, |job.chunks|) ==> BaseLeft(job.rs0, rs, job.dir + [job.name], locs, removed)
  {
    assert |job.chunks| <= |data|;
    hide *;
    BareCallsAre(job, log, from, locs, removed, more, ok);
    BareFinished(job, rs1, rs, before, mid, trace, locs, removed, keep);
    if ok {
      SweptIsCleared(rs1, job.dir + [job.name], removed);
      BareConcluded(job, rs1, Swept(rs1, job.dir + [job.name], removed), rs, before, data, locs, removed, keep);
    }
  }

  /** What follows the chunks: the base path goes on every remote, then whatever else was replaced. */
  method ClearAndClean(m: Mounts, cfg: Config, dir: Path, name: string, locs: seq<Location>, keep: set<Location>)
      returns (ok: bool, ghost removed: seq<bool>, ghost mid: seq<Remotes>)
    requires m.Valid() && Removable(cfg, m.remotes, dir, name, locs)
    modifies m
    ensures m.Valid() && |m.remotes| == |old(m.remotes)| == |removed| && old(m.trace) <= mid <= m.trace
    ensures AllSwept(old(m.remotes), mid, |old(m.trace)|, dir + [name], removed)
    ensures AllPruned(Swept(old(m.remotes), dir + [name], removed), m.trace, |mid|, Doomed(locs, keep))
    ensures Pruned(Swept(old(m.remotes), dir + [name], removed), m.remotes, Doomed(locs, keep))
    ensures Removable(cfg, Swept(old(m.remotes), dir + [name], removed), dir, name, locs)
    ensures ok ==> forall l :: l in Doomed(locs, keep) ==> l.remote < |m.remotes| && FileAt(m.remotes[l.remote], l.path).None?
    ensures var log2 := old(m.log) + ClearEvents(dir + [name], removed);
      log2 <= m.log && AllTried(m.log, |log2|, Removals(locs, keep), ok)
  {
    hide AllSwept, AllPruned, Pruned, Owned, AllTried, Removals, ClearEvents;
    removed := ClearBase(m, dir + [name]);
    mid := m.trace;
    SweptRemovable(cfg, old(m.remotes), dir, name, locs, removed);
    ok := Cleanup(m, locs, keep);
  }

  lemma SweptRemovable(cfg: Config, rs: Remotes, dir: Path, name: string, locs: seq<Location>, removed: seq<bool>)
    requires |removed| <= |rs| && Removable(cfg, rs, dir, name, locs)
    ensures Removable(cfg, Swept(rs, dir + [name], removed), dir, name, locs)
  {
    hide Owned, Swept, ClearedAs;
    SweptIsCleared(rs, dir + [name], removed);
  }

  lemma BareStaysProper(cfg: Config, rs0: Remotes, rs: Remotes, dir: Path, name: string, chunks: seq<Bytes>, locs: seq<Location>)
    requires BareDone(cfg, rs0, rs, dir, name, chunks, locs)
    ensures Proper(cfg, rs0, dir, name, "") ==> Proper(cfg, rs, dir, name, "")
  {
    forall i, file | 0 <= i < |rs| && ReadsAs(cfg, file, name, "") && !CanonicalName(cfg, file)
      ensures FileAt(rs[i], dir + [file]).Some? ==> FileAt(rs0[i], dir + [file]).Some?
    {
      assert BareAt(cfg, rs0, rs, dir, name, chunks, locs, file, i);
    }
  }

  /** Everything a Put in format "none" asks for: the upload up to the first failure, then one removal of the base path on
      every remote, whatever comes of it, then all removals of the cleanup. */
  ghost predicate BareCalled(cfg: Config, remotes: nat, dir: Path, name: string, chunks: seq<Bytes>, log: seq<Event>, from: nat,
                             locs: seq<Location>, removed: seq<bool>, ok: bool) {
    && remotes > 0
    && var calls := UploadCalls(cfg, remotes, dir, name, "", chunks); var at := from + |calls|;
       || (!ok && removed == [] && InOrder(log, from, calls, false))
       || (|removed| == remotes && at + remotes <= |log|
           && InOrder(log[..at], from, calls, true) && log[at..at + remotes] == ClearEvents(dir + [name], removed)
           && AllTried(log, at + remotes, Removals(locs, NewLocations(cfg, remotes, dir, name, "", |chunks|)), ok))
  }

  lemma BareStopped(job: Job, log: seq<Event>, from: nat, locs: seq<Location>)
    requires |job.rs0| > 0 && InOrder(log, from, UploadCalls(job.cfg, |job.rs0|, job.dir, job.name, "", job.chunks), false)
    ensures BareCalled(job.cfg, |job.rs0|, job.dir, job.name, job.chunks, log, from, locs, [], false)
  {
    hide InOrder, UploadCalls;
  }

  lemma BareCallsAre(job: Job, log: seq<Event>, from: nat, locs: seq<Location>, removed: seq<bool>, more: seq<Event>, ok: bool)
    requires |job.rs0| > 0 && |removed| == |job.rs0| && job.x == ""
    requires InOrder(log, from, UploadCalls(job.cfg, |job.rs0|, job.dir, job.name, "", job.chunks), true)
    requires var log2 := log + ClearEvents(job.dir + [job.name], removed);
      log2 <= more
      && AllTried(more, |log2|, Removals(locs, NewLocations(job.cfg, |job.rs0|, job.dir, job.name, "", |job.chunks|)), ok)
    ensures BareCalled(job.cfg, |job.rs0|, job.dir, job.name, job.chunks, more, from, locs, removed, ok)
  {
    var log2 := log + ClearEvents(job.dir + [job.name], removed);
    assert more[..|log|] == log && more[|log|..|log2|] == log2[|log|..] == ClearEvents(job.dir + [job.name], removed);
    hide UploadCalls, AllTried, Removals, NewLocations;
  }

  /** What is left at the base path: nothing where it was cleared or belonged to the replaced object. */
  ghost predicate BaseLeft(rs0: Remotes, rs: Remotes, base: Path, locs: seq<Location>, removed: seq<bool>) {
    && |rs| == |rs0| == |removed|
    && forall i :: 0 <= i < |rs| ==>
        FileAt(rs[i], base) == if removed[i] || Location(base, i) in locs then None else FileAt(rs0[i], base)
  }

  /** The name lists as the new object only if all has come together, and if it has, unless spellings are mixed.
      No untagged chunk comes to be spelled in another way. */
  ghost predicate BareOutcome(cfg: Config, rs0: Remotes, rs: Remotes, dir: Path, name: string, data: Bytes, locs: seq<Location>,
                              removed: seq<bool>)
    requires cfg.chunkSize > 0
  {
    && |rs| > 0
    && var listed, n := ViewOf(cfg, rs, dir, name) == BareView(cfg, |rs|, data), |Split(data, cfg.chunkSize)|;
       && (listed ==> Replaced(cfg, rs0, dir, name, data, locs, removed))
       && (Unmixed(cfg, rs0, dir, name, locs, n) ==> (listed <==> Replaced(cfg, rs0, dir, name, data, locs, removed)))
       && (Spellable(cfg, name, n) && Proper(cfg, rs0, dir, name, "") ==> Proper(cfg, rs, dir, name, ""))
  }

  /** Everything that has to come together for the new object to be listed, before the call but for the
      outcomes of the clearing step. */
  ghost predicate Replaced(cfg: Config, rs0: Remotes, dir: Path, name: string, data: Bytes, locs: seq<Location>, removed: seq<bool>)
    requires cfg.chunkSize > 0
  {
    var n := |Split(data, cfg.chunkSize)|;
    && Spellable(cfg, name, n) && BaseOut(cfg, rs0, dir, name, locs, removed) && NoStrays(cfg, rs0, dir, name, locs, n)
  }

  /** After the upload, finished or not. */
  lemma BareUploaded(job: Job, rs: Remotes, trace: seq<Remotes>, k: nat)
    requires job.At(rs, trace, k) && Lawful(job.cfg) && job.x == "" && |job.chunks| <= MAX_INT64
    ensures NoNewDirs(job.rs0, rs, job.dir)
    ensures var n := |job.chunks|;
      && AllBeside(job.cfg, job.rs0, trace, job.start, |trace|, [], job.dir, job.name, n)
      && (OthersBut(job.cfg, job.rs0, rs, job.dir, job.name, "", n) <==> SweepSpares(job.cfg, job.rs0, job.dir, job.name, []))
  {
    assert job.Loose(rs, trace, k) && Ours(job.cfg, "", |job.chunks|);
    hide OthersBut, Ours, Lawful, Swept, SweepSpares, Touched, Job.Nice;
    forall j | job.start <= j < |trace|
      ensures OthersBut(job.cfg, Swept(job.rs0, job.dir + [job.name], []), trace[j], job.dir, job.name, "", |job.chunks|)
    {
      UploadBeside(job.cfg, job.rs0, trace[j], job.dir, job.name, |job.chunks|);
    }
    UploadBeside(job.cfg, job.rs0, rs, job.dir, job.name, |job.chunks|);
    BesideIsSpared(job.cfg, job.rs0, rs, job.dir, job.name, |job.chunks|, []);
  }

  /** The states of a run that came as far as the cleanup. */
  lemma BareFinished(job: Job, rs1: Remotes, rs: Remotes, before: seq<Remotes>, mid: seq<Remotes>, trace: seq<Remotes>,
                     locs: seq<Location>, removed: seq<bool>, keep: set<Location>)
    requires Lawful(job.cfg) && job.x == "" && job.At(rs1, before, |job.chunks|) && before <= mid <= trace
    requires |job.chunks| <= MAX_INT64 && AllSwept(rs1, mid, |before|, job.dir + [job.name], removed)
    requires AllPruned(Swept(rs1, job.dir + [job.name], removed), trace, |mid|, Doomed(locs, keep))
    requires Pruned(Swept(rs1, job.dir + [job.name], removed), rs, Doomed(locs, keep))
    requires Removable(job.cfg, Swept(rs1, job.dir + [job.name], removed), job.dir, job.name, locs)
    requires |rs1| > 0 && keep == NewLocations(job.cfg, |rs1|, job.dir, job.name, "", |job.chunks|)
    ensures var n := |job.chunks|;
      && AllBeside(job.cfg, job.rs0, trace, job.start, |before|, removed, job.dir, job.name, n)
      && (OthersBut(job.cfg, job.rs0, rs, job.dir, job.name, "", n) <==> SweepSpares(job.cfg, job.rs0, job.dir, job.name, removed))
      && InPlace(job.cfg, rs, job.dir, job.name, "", n)
  {
    var n := |job.chunks|;
    assert job.Loose(rs1, before, n) && Ours(job.cfg, "", n);
    assert Laid(job.cfg, job.rs0, rs1, job.dir, job.name, n);
    StillInPlace(job.cfg, job.rs0, rs1, rs, job.dir, job.name, n, removed, locs, keep);
    hide OthersBut, Ours, Lawful, Swept, SweepSpares, Touched, Job.Nice, AllSwept, AllPruned, Pruned, Owned, Laid, InPlace, NewLocations;
    AllStatesBeside(job.cfg, job.rs0, rs1, before, mid, trace, job.start, job.dir, job.name, n, removed, Doomed(locs, keep));
    ClearBeside(job.cfg, job.rs0, rs1, rs, job.dir, job.name, n, removed, Doomed(locs, keep));
    BesideIsSpared(job.cfg, job.rs0, rs, job.dir, job.name, n, removed);
  }

  lemma SamePrefix(a: Path, b: Path)
    requires |a| == |b|
    ensures a <= b ==> a == b
  {
    if a <= b { assert b[..|a|] == b; }
  }

  /** Neither the clearing step nor the cleanup removes a chunk that was written. */
  lemma StillInPlace(cfg: Config, rs0: Remotes, rs1: Remotes, rs: Remotes, dir: Path, name: string, n: nat, removed: seq<bool>,
                     locs: seq<Location>, keep: set<Location>)
    requires Laid(cfg, rs0, rs1, dir, name, n) && InPlace(cfg, rs1, dir, name, "", n)
    requires keep == NewLocations(cfg, |rs1|, dir, name, "", n) && Pruned(Swept(rs1, dir + [name], removed), rs, Doomed(locs, keep))
    ensures InPlace(cfg, rs, dir, name, "", n)
  {
    BaseNotOwnChunk(cfg, dir, name, "", n);
    var base := dir + [name];
    forall no | 0 <= no < n
      ensures FileAt(rs[Target(cfg, |rs|, no)], PartPath(cfg, dir, name, no, "")).Some?
    {
      var p := PartPath(cfg, dir, name, no, "");
      assert IsMade(cfg, dir, name, "", n, p) && Location(p, Target(cfg, |rs1|, no)) in keep;
      SamePrefix(base, p);
      SweptFile(rs1, base, removed, Target(cfg, |rs1|, no), p);
      hide Swept, Target, PartPath, IsMade, NewLocations, Laid;
    }
  }

  lemma BareConcluded(job: Job, rs1: Remotes, rs2: Remotes, rs: Remotes, before: seq<Remotes>,
                      data: Bytes, locs: seq<Location>, removed: seq<bool>, keep: set<Location>)
    requires Lawful(job.cfg) && job.x == "" && job.chunks == Split(data, job.cfg.chunkSize) && data != "" && |job.rs0| > 0
    requires job.At(rs1, before, |job.chunks|) && |rs| == |job.rs0|
    requires BaseCleared(rs1, rs2, job.dir + [job.name]) && ClearedAs(rs1, rs2, job.dir + [job.name], removed)
    requires keep == NewLocations(job.cfg, |job.rs0|, job.dir, job.name, "", |job.chunks|)
    requires Pruned(rs2, rs, Doomed(locs, keep))
    requires forall l :: l in Doomed(locs, keep) ==> l.remote < |rs| && FileAt(rs[l.remote], l.path).None?
    requires |removed| == |rs|
    ensures BareOutcome(job.cfg, job.rs0, rs, job.dir, job.name, data, locs, removed)
    ensures Spellable(job.cfg, job.name, |job.chunks|) ==> BaseLeft(job.rs0, rs, job.dir + [job.name], locs, removed)
  {
    var cfg, dir, name := job.cfg, job.dir, job.name;
    assert job.chunks[..|job.chunks|] == job.chunks;
    assert job.chunks != [];
    hide ViewOf, BareView, NamesLawful, MetaLawful, BaseCleared, ClearedAs, Pruned, NewLocations, Split, Progress, BareDone,
         BaseGone, BaseOut, NoStrays, Unmixed, Doomed, AllUploading, Seen, Proper;
    if Spellable(cfg, name, |job.chunks|) {
      assert job.Nice();
      assert Steps(cfg, job.rs0, rs1, rs2, rs, dir, name, job.chunks, locs, removed);
      hide Steps, Spellable, Job.At;
      BareDoneHolds(cfg, job.rs0, rs1, rs2, rs, dir, name, job.chunks, locs, removed);
      BaseDoneHolds(cfg, job.rs0, rs1, rs2, rs, dir, name, job.chunks, locs, removed);
      forall i | 0 <= i < |rs|
        ensures FileAt(rs[i], dir + [name]) ==
          if removed[i] || Location(dir + [name], i) in locs then None else FileAt(job.rs0[i], dir + [name])
      {
        BaseDoneAt(cfg, job.rs0, rs1, rs2, rs, dir, name, job.chunks, locs, removed, i);
      }
      BareResult(cfg, job.rs0, rs, dir, name, data, locs);
      BareStaysProper(cfg, job.rs0, rs, dir, name, job.chunks, locs);
    } else if ViewOf(cfg, rs, dir, name) == BareView(cfg, |rs|, data) {
      OnlySpellable(cfg, rs, dir, name, data);
    }
  }

  // ---- when nothing stands in the way ----

  /** Overwriting an untagged object as it is listed, or a name that is not there: if its untagged chunks are
      spelled canonically, no number lies on two remotes and there is no base file, nothing is stray or mixed,
      whatever the lengths. */
  lemma OwnChunksAreNoStrays(cfg: Config, rs0: Remotes, dir: Path, name: string, n: nat)
    requires NamesLawful(cfg) && |rs0| > 0 && FirstFile(rs0, dir + [name]).None? && Names.PlainName(name)
    requires Proper(cfg, rs0, dir, name, "")
    requires forall no: nat, i, j :: 0 <= i < j < |rs0| && IsNumber(cfg, no) ==>
      FileAt(rs0[i], PartPath(cfg, dir, name, no, "")).None? || FileAt(rs0[j], PartPath(cfg, dir, name, no, "")).None?
    ensures var locs := ObjectLocations(cfg, dir, name, ViewOf(cfg, rs0, dir, name));
      && NoStrays(cfg, rs0, dir, name, locs, n) && Unmixed(cfg, rs0, dir, name, locs, n)
      && forall removed :: BaseOut(cfg, rs0, dir, name, locs, removed)
  {
    hide Seen, Target, ViewOf, ObjectLocations, Proper, NamesLawful;
    var locs := ObjectLocations(cfg, dir, name, ViewOf(cfg, rs0, dir, name));
    forall file, i | 0 <= i < |rs0| && ReadsAs(cfg, file, name, "") && FileAt(rs0[i], dir + [file]).Some?
      ensures Location(dir + [file], i) in locs
    {
      OwnFileListed(cfg, rs0, dir, name, file, i);
    }
  }

  lemma OwnFileListed(cfg: Config, rs0: Remotes, dir: Path, name: string, file: string, i: nat)
    requires NamesLawful(cfg) && FirstFile(rs0, dir + [name]).None? && Names.PlainName(name) && Proper(cfg, rs0, dir, name, "")
    requires forall no: nat, i, j :: 0 <= i < j < |rs0| && IsNumber(cfg, no) ==>
      FileAt(rs0[i], PartPath(cfg, dir, name, no, "")).None? || FileAt(rs0[j], PartPath(cfg, dir, name, no, "")).None?
    requires i < |rs0| && ReadsAs(cfg, file, name, "") && FileAt(rs0[i], dir + [file]).Some?
    ensures Location(dir + [file], i) in ObjectLocations(cfg, dir, name, ViewOf(cfg, rs0, dir, name))
  {
    hide ViewOf, ObjectLocations;
    assert PartPath(cfg, dir, name, cfg.parse(file).no, "") == dir + [file];
    OwnChunkListed(cfg, rs0, dir, name, cfg.parse(file).no, i);
  }

  lemma OwnChunkListed(cfg: Config, rs0: Remotes, dir: Path, name: string, no: nat, i: nat)
    requires NamesLawful(cfg) && FirstFile(rs0, dir + [name]).None? && Names.PlainName(name) && Proper(cfg, rs0, dir, name, "")
    requires i < |rs0| && IsNumber(cfg, no) && FileAt(rs0[i], PartPath(cfg, dir, name, no, "")).Some?
    requires forall j :: 0 <= j < |rs0| && j != i ==> FileAt(rs0[j], PartPath(cfg, dir, name, no, "")).None?
    ensures Location(PartPath(cfg, dir, name, no, ""), i) in ObjectLocations(cfg, dir, name, ViewOf(cfg, rs0, dir, name))
  {
    hide Seen, PartPath, Parts;
    var p, v := PartPath(cfg, dir, name, no, ""), ViewOf(cfg, rs0, dir, name);
    forall j | 0 <= j < |rs0|
      ensures FileAt(Seen(cfg, rs0)[j], p).Some? <==> j == i
    {
      ProperSeen(cfg, rs0, dir, name, "", no, j);
    }
    OnlyCopy(Seen(cfg, rs0), p, i);
    assert PartExists(cfg, rs0, dir, name, no, "");
    var j := PartsComplete(cfg, rs0, dir, name, "", no);
    ListedParts(cfg, rs0, dir, name);
    assert v.parts[j] == PartOf(cfg, rs0, dir, name, "", no);
    hide ViewOf, NamesLawful, PartOf;
    assert ObjectLocations(cfg, dir, name, v)[j] == Location(p, i);
  }
}
