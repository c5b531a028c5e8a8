/** Put as a whole, and what it promises about listing and reading. */
module ChunkPut {
  import opened Prelude
  import opened RemoteStore
  import opened RemoteOps
  import opened ChunkView
  import opened ChunkStates
  import opened ChunkUpload
  import opened BaseSweep
  import opened StrayChunks
  import opened ChunkAccess
  import opened BaseWrite
  import opened Mirror
  import opened PutMeta
  import opened PutSmall
  import opened PutBare
  import Names = ChunkNames
  import NameLaws = ChunkNameLaws

  /** The new object of a chunked Put holds the stream whole, whatever the chunk size and the targets. */
  lemma NewViewHoldsStream(cfg: Config, remotes: nat, data: Bytes, x: string)
    requires remotes > 0 && cfg.chunkSize > 0
    ensures HoldsWhole(NewView(cfg, remotes, data, x), data)
    ensures HoldsWhole(BareView(cfg, remotes, data), data)
  {
    DatasOfNewParts(cfg, remotes, x, data);
    DatasOfNewParts(cfg, remotes, "", data);
  }

  /** Its listing reports the stream's own digest, of the kind the options ask for and of no other. */
  lemma NewViewHashes(cfg: Config, remotes: nat, data: Bytes, x: string)
    requires remotes > 0 && cfg.chunkSize > 0 && cfg.md5(data) != "" && cfg.sha1(data) != ""
    ensures HashInfo(NewView(cfg, remotes, data, x)) ==
      match cfg.hashType
      case NoHash => map[]
      case Md5 => map[Md5 := cfg.md5(data)]
      case Sha1 => map[Sha1 := cfg.sha1(data)]
    ensures HashInfo(BareView(cfg, remotes, data)) == map[]
  {
    hide Split;
  }

  /** Put.  The transaction id comes from the clock; the object to be replaced is the one the caller
      holds: as listed now, listed earlier, or none. */
  method Put(m: Mounts, cfg: Config, dir: Path, name: string, data: Bytes, existing: View, nanos: nat)
      returns (ok: bool, ghost commit: nat, ghost removed: seq<bool>, ghost cleared: nat)
    requires m.Valid() && Lawful(cfg) && |data| <= MAX_INT64
    requires Removable(cfg, m.remotes, dir, name, ObjectLocations(cfg, dir, name, existing))
    modifies m
    ensures m.Valid() && old(m.trace) <= m.trace && |old(m.trace)| <= commit <= |m.trace|
    // A small stream: old content up to the write, the new file from then on.
    ensures |data| <= cfg.chunkSize ==>
      && (ok ==> commit < |m.trace|)
      && AllUnchanged(cfg, old(m.remotes), m.trace, |old(m.trace)|, commit)
      && AllAfterSmall(cfg, old(m.remotes), m.trace, commit, dir, name, data)
    // A large stream with metadata: old content up to the metadata write, the new object from then on.
    ensures
      && |data| > cfg.chunkSize && cfg.metaFormat == SimpleJson
      && old(Setting(cfg, m.remotes, dir, name, Names.XactId(nanos))) ==>
      && (ok ==> commit < |m.trace|)
      && (Spellable(cfg, name, |Split(data, cfg.chunkSize)|) ==>
            AllBefore(cfg, old(m.remotes), m.trace, |old(m.trace)|, commit, dir, name))
      && AllAfter(cfg, old(m.remotes), m.trace, commit, dir, name, Names.XactId(nanos), data)
    ensures |data| > cfg.chunkSize && cfg.metaFormat == SimpleJson ==>
      var n, x := |Split(data, cfg.chunkSize)|, Names.XactId(nanos);
      Scattered(cfg, old(m.remotes), m.trace, |old(m.trace)|, commit, dir, name, x, n, cfg.marshal(MetaFor(cfg, data, n, x)))
    // A large stream without metadata: the finished result, and what other names list as in every state.
    ensures |data| > cfg.chunkSize && cfg.metaFormat == NoMeta && ok ==>
      BareOutcome(cfg, old(m.remotes), m.remotes, dir, name, data, ObjectLocations(cfg, dir, name, existing), removed)
    ensures |data| > cfg.chunkSize && cfg.metaFormat == NoMeta ==>
      var n := |Split(data, cfg.chunkSize)|;
      && AllBeside(cfg, old(m.remotes), m.trace, |old(m.trace)|, cleared, removed, dir, name, n)
      && (OthersBut(cfg, old(m.remotes), m.remotes, dir, name, "", n) <==> SweepSpares(cfg, old(m.remotes), dir, name, removed))
      && (ok ==> InPlace(cfg, m.remotes, dir, name, "", n))
    // What is asked of the remotes, and that nothing else makes it fail.
    ensures old(m.log) <= m.log
    ensures
      var locs, chunks, from := ObjectLocations(cfg, dir, name, existing), Split(data, cfg.chunkSize), |old(m.log)|;
      if |data| <= cfg.chunkSize then
        OrderThenAll(m.log, from, SmallCalls(dir, name, data), Removals(locs, {Location(dir + [name], 0)}), ok)
      else if cfg.metaFormat == SimpleJson then
        MetaCalled(Job(cfg, old(m.remotes), |old(m.trace)|, dir, name, Names.XactId(nanos), chunks), m.log, from, data, locs, ok)
      else
        BareCalled(cfg, |m.remotes|, dir, name, chunks, m.log, from, locs, removed, ok)
  {
    hide ViewOf, Setting, AllBefore, AllAfter, AllUnchanged, AllAfterSmall, AllBeside, OthersBut, InPlace, SweepSpares, BareOutcome,
         Spellable, Removable, NamesLawful, MetaLawful, Scattered, Split, MetaFor, OrderThenAll, MetaCalled, BareCalled,
         SmallCalls, Removals;
    removed, cleared := [], 0;
    if |data| <= cfg.chunkSize {
      ok, commit := PutSmall.PutSmall(m, cfg, dir, name, data, existing);
    } else if cfg.metaFormat == SimpleJson {
      ok, commit := PutWithMeta(m, cfg, dir, name, Names.XactId(nanos), data, existing);
    } else {
      ok, removed, cleared := PutBare.PutBare(m, cfg, dir, name, data, existing);
      commit := |m.trace|;
    }
  }

  // ---- ids from the clock ----

  ghost predicate IsStamp(x: string, times: set<nat>) {
    x == "" || exists t :: t in times && x == Names.XactId(t)
  }

  /** Every chunk file of the name, and the metadata under it, is untagged or of a Put at one of these times. */
  ghost predicate Stamped(cfg: Config, rs: Remotes, dir: Path, name: string, times: set<nat>) {
    && (forall i, file :: 0 <= i < |rs| && IsChunkName(cfg, file) && cfg.parse(file).main == name && FileAt(rs[i], dir + [file]).Some? ==>
          IsStamp(cfg.parse(file).xact, times))
    && (FirstFile(rs, dir + [name]).Some? && cfg.unmarshal(FirstData(rs, dir + [name])).Some? ==>
          IsStamp(cfg.unmarshal(FirstData(rs, dir + [name])).value.xact, times))
  }

  /** Before the ids repeat. */
  ghost predicate Lately(times: set<nat>, now: nat) {
    forall t :: t in times ==> t != now && -NameLaws.PERIOD < now - t < NameLaws.PERIOD
  }

  /** An id from a later clock is one that nothing uses yet. */
  lemma ClockIsFresh(cfg: Config, rs: Remotes, dir: Path, name: string, times: set<nat>, now: nat)
    requires Lawful(cfg) && Names.PlainName(name) && Stamped(cfg, rs, dir, name, times) && Lately(times, now)
    ensures Setting(cfg, rs, dir, name, Names.XactId(now))
  {
    hide Seen, MetaLawful, SpellingLawful;
    var x := Names.XactId(now);
    NameLaws.XactIdIsTheClock(now);
    assert !IsStamp(x, times) by {
      forall t | t in times
        ensures Names.XactId(t) != x
      {
        NameLaws.XactIdsDiffer(t, now);
      }
    }
    hide Names.XactId, IsStamp;
    forall no: nat, i | 0 <= i < |rs| && IsNumber(cfg, no)
      ensures FileAt(Seen(cfg, rs)[i], PartPath(cfg, dir, name, no, x)).None?
    {
      var n := SeenSome(cfg, rs, i, dir, cfg.make(name, no, x));
      SpellingReads(cfg, dir, name, no, x, n);
    }
  }

  /** A Put leaves nothing but its own stamp beside the earlier ones, in every state. */
  lemma PutStamps(cfg: Config, rs0: Remotes, rs: Remotes, dir: Path, name: string,
                  times: set<nat>, now: nat, data: Bytes, n: nat, base: bool)
    requires Lawful(cfg) && Stamped(cfg, rs0, dir, name, times) && 0 < n <= MAX_INT64 && |data| <= MAX_INT64
    requires Touched(cfg, rs0, rs, dir, name, Names.XactId(now), n, base)
    requires base ==> Placed(rs, dir + [name], cfg.marshal(MetaFor(cfg, data, n, Names.XactId(now))))
    ensures Stamped(cfg, rs, dir, name, times + {now})
  {
    var x := Names.XactId(now);
    NameLaws.XactIdIsTheClock(now);
    MoreTimes(times, now);
    hide Names.XactId, IsStamp;
    forall i, file | 0 <= i < |rs| && IsChunkName(cfg, file) && cfg.parse(file).main == name && FileAt(rs[i], dir + [file]).Some?
      ensures IsStamp(cfg.parse(file).xact, times + {now})
    {
      ChunkStamped(cfg, rs0, rs, dir, name, x, n, base, i, file);
    }
    hide IsChunkName, Touched;
    if base {
      assert Writable(MetaFor(cfg, data, n, x));
      assert FirstFile(rs, dir + [name]) == Some(0);
    } else {
      BaseUntouched(cfg, rs0, rs, dir, name, x, n);
    }
  }

  lemma MoreTimes(times: set<nat>, now: nat)
    ensures IsStamp(Names.XactId(now), times + {now})
    ensures forall x :: IsStamp(x, times) ==> IsStamp(x, times + {now})
  {
  }

  /** A chunk file of the name is one of those just made or was there before. */
  lemma ChunkStamped(cfg: Config, rs0: Remotes, rs: Remotes, dir: Path, name: string, x: string, n: nat, base: bool, i: nat, file: string)
    requires NamesLawful(cfg) && SpellingLawful(cfg) && Names.IsXact(x) && n <= MAX_INT64 && i < |rs|
    requires Touched(cfg, rs0, rs, dir, name, x, n, base) && FileAt(rs[i], dir + [file]).Some?
    requires IsChunkName(cfg, file) && cfg.parse(file).main == name
    ensures cfg.parse(file).xact == x || (i < |rs0| && FileAt(rs0[i], dir + [file]).Some?)
  {
    JoinUnique(dir, file, dir, name);
    if IsMade(cfg, dir, name, x, n, dir + [file]) {
      var no: nat :| no < n && dir + [file] == PartPath(cfg, dir, name, no, x);
      JoinUnique(dir, file, dir, cfg.make(name, no, x));
    }
  }

  lemma BaseUntouched(cfg: Config, rs0: Remotes, rs: Remotes, dir: Path, name: string, x: string, n: nat)
    requires NamesLawful(cfg) && SpellingLawful(cfg) && Names.IsXact(x) && n <= MAX_INT64
    requires Touched(cfg, rs0, rs, dir, name, x, n, false)
    ensures FirstFile(rs, dir + [name]) == FirstFile(rs0, dir + [name]) && FirstData(rs, dir + [name]) == FirstData(rs0, dir + [name])
  {
    BaseNotOwnChunk(cfg, dir, name, x, n);
    hide IsMade;
    AgreeFirst(rs0, rs, dir + [name]);
  }

  /** One Put after another: whatever state the first has come to, wherever it stopped, the id of a later one is not
      in use there, so that one replaces the object atomically in its turn. */
  lemma NextPutIsFresh(cfg: Config, rs0: Remotes, trace: seq<Remotes>, from: nat, commit: nat, j: nat, dir: Path, name: string,
                       data: Bytes, times: set<nat>, first: nat, second: nat)
    requires Lawful(cfg) && Names.PlainName(name) && 0 < |data| <= MAX_INT64
    requires Stamped(cfg, rs0, dir, name, times) && Lately(times + {first}, second)
    requires var n, x := |Split(data, cfg.chunkSize)|, Names.XactId(first);
      Scattered(cfg, rs0, trace, from, commit, dir, name, x, n, cfg.marshal(MetaFor(cfg, data, n, x)))
    requires from <= j < |trace| && commit <= |trace|
    ensures Stamped(cfg, trace[j], dir, name, times + {first}) && Setting(cfg, trace[j], dir, name, Names.XactId(second))
  {
    assert Split(data, cfg.chunkSize) != [];
    hide Split, Stamped, Touched, Names.XactId, Lawful, Lately, Placed;
    PutStamps(cfg, rs0, trace[j], dir, name, times, first, data, |Split(data, cfg.chunkSize)|, j >= commit);
    ClockIsFresh(cfg, trace[j], dir, name, times + {first}, second);
  }

  /** What the old object reads as stays, as long as only chunks of the new transaction have been made. */
  lemma OldRead(cfg: Config, rs0: Remotes, rs: Remotes, dir: Path, name: string, x: string, n: nat, own: OwnLink, start: int, length: int)
    requires Setting(cfg, rs0, dir, name, x) && Spellable(cfg, name, n) && Touched(cfg, rs0, rs, dir, name, x, n, false)
    requires ViewOf(cfg, rs, dir, name) == ViewOf(cfg, rs0, dir, name)
    ensures ReadNow(cfg, rs, dir, name, own, start, length) == ReadNow(cfg, rs0, dir, name, own, start, length)
  {
    hide ViewOf, Seen, SpellingLawful, MetaLawful, Touched, IsMade, ReadNow;
    var v := ViewOf(cfg, rs0, dir, name);
    if v.Chunked? {
      ListedParts(cfg, rs0, dir, name);
      forall j | 0 <= j < |v.parts|
        ensures Agree(rs0, rs, PartPath(cfg, dir, name, v.parts[j].no, v.parts[j].xact))
      {
        OldPartStays(cfg, rs0, rs, dir, name, x, n, v.parts[j].no, v.parts[j].xact);
      }
    }
    assert |rs| == |rs0| by { TouchedLength(cfg, rs0, rs, dir, name, x, n, false); }
    SameRead(cfg, rs0, rs, dir, name, own, start, length);
  }

  lemma TouchedLength(cfg: Config, rs0: Remotes, rs: Remotes, dir: Path, name: string, x: string, n: nat, base: bool)
    requires Touched(cfg, rs0, rs, dir, name, x, n, base)
    ensures |rs| == |rs0|
  {
  }

  lemma OldPartStays(cfg: Config, rs0: Remotes, rs: Remotes, dir: Path, name: string, x: string, n: nat, no: nat, y: string)
    requires Setting(cfg, rs0, dir, name, x) && Spellable(cfg, name, n) && Touched(cfg, rs0, rs, dir, name, x, n, false)
    requires PartExists(cfg, rs0, dir, name, no, y)
    ensures Agree(rs0, rs, PartPath(cfg, dir, name, no, y))
  {
    hide Seen, SpellingLawful, MetaLawful;
    assert y != x;
    SpellingReads(cfg, dir, name, no, y, cfg.make(name, no, y));
    forall k | 0 <= k < n
      ensures PartPath(cfg, dir, name, k, x) != PartPath(cfg, dir, name, no, y)
    {
      SpellingReads(cfg, dir, name, k, x, cfg.make(name, k, x));
    }
    hide PartPath;
    assert !IsMade(cfg, dir, name, x, n, PartPath(cfg, dir, name, no, y));
  }

  /** So does what any other name reads as, also when the metadata has been written and files of the name removed. */
  lemma OthersRead(cfg: Config, rs0: Remotes, rs: Remotes, dir: Path, name: string, x: string, n: nat, base: bool, d: Path, m: string,
                   own: OwnLink, start: int, length: int)
    requires NamesLawful(cfg) && Names.IsXact(x) && Spellable(cfg, name, n) && Touched(cfg, rs0, rs, dir, name, x, n, base)
    requires (d, m) != (dir, name) && IsBaseName(cfg, name) && ViewOf(cfg, rs, d, m) == ViewOf(cfg, rs0, d, m)
    ensures ReadNow(cfg, rs, d, m, own, start, length) == ReadNow(cfg, rs0, d, m, own, start, length)
  {
    hide ViewOf, Seen, Touched, IsMade, ReadNow, NamesLawful;
    var v := ViewOf(cfg, rs0, d, m);
    if v.Chunked? {
      ListedParts(cfg, rs0, d, m);
      forall j | 0 <= j < |v.parts|
        ensures Agree(rs0, rs, PartPath(cfg, d, m, v.parts[j].no, v.parts[j].xact))
      {
        OtherPartStays(cfg, rs0, rs, dir, name, x, n, base, d, m, v.parts[j].no, v.parts[j].xact);
      }
    }
    assert |rs| == |rs0| by { TouchedLength(cfg, rs0, rs, dir, name, x, n, base); }
    SameRead(cfg, rs0, rs, d, m, own, start, length);
  }

  lemma OtherPartStays(cfg: Config, rs0: Remotes, rs: Remotes, dir: Path, name: string, x: string, n: nat, base: bool, d: Path, m: string,
                       no: nat, y: string)
    requires NamesLawful(cfg) && Names.IsXact(x) && Spellable(cfg, name, n) && Touched(cfg, rs0, rs, dir, name, x, n, base)
    requires (d, m) != (dir, name) && IsBaseName(cfg, name) && PartExists(cfg, rs0, d, m, no, y)
    ensures Agree(rs0, rs, PartPath(cfg, d, m, no, y))
  {
    hide Seen;
    var p := PartPath(cfg, d, m, no, y);
    SpellingReads(cfg, d, m, no, y, cfg.make(m, no, y));
    if Owned(cfg, dir, name, p) { OwnedApart(cfg, dir, name, d, m, p); }
    WhoseFile(cfg, dir, name, dir, name);
    forall k | 0 <= k < n
      ensures PartPath(cfg, dir, name, k, x) != p
    {
      SpellingReads(cfg, dir, name, k, x, cfg.make(name, k, x));
    }
    hide PartPath;
    assert !IsMade(cfg, dir, name, x, n, p);
  }

  /** Atomic replacement, read by read: a state a Put with metadata passes through serves every range
      read of the name either exactly as before the Put or exactly from the new stream, and lists and serves every
      other name exactly as before. */
  lemma AtomicReplacement(cfg: Config, rs0: Remotes, trace: seq<Remotes>, from: nat, commit: nat, j: nat,
                          dir: Path, name: string, x: string, data: Bytes, own: OwnLink, start: int, length: int)
    requires Setting(cfg, rs0, dir, name, x) && from <= j < |trace| && commit <= |trace|
    requires AllBefore(cfg, rs0, trace, from, commit, dir, name)
    requires AllAfter(cfg, rs0, trace, commit, dir, name, x, data)
    requires var n := |Split(data, cfg.chunkSize)|;
      Scattered(cfg, rs0, trace, from, commit, dir, name, x, n, cfg.marshal(MetaFor(cfg, data, n, x)))
    requires !Dormant(cfg, rs0, dir, name) && Listable(cfg, name, |Split(data, cfg.chunkSize)|)
    requires 0 <= start <= |data| <= MAX_INT64 && IsInt64(length) && (length < 0 || start + length <= MAX_INT64)
    ensures j < commit ==>
      ReadNow(cfg, trace[j], dir, name, own, start, length) == ReadNow(cfg, rs0, dir, name, own, start, length)
    ensures j >= commit ==>
      ReadNow(cfg, trace[j], dir, name, own, start, length)
      == Ok(data[start..if length < 0 then |data| else Min(start + length, |data|)])
    ensures forall d, n :: (d, n) != (dir, name) ==>
      && ViewOf(cfg, trace[j], d, n) == ViewOf(cfg, rs0, d, n)
      && ReadNow(cfg, trace[j], d, n, own, start, length) == ReadNow(cfg, rs0, d, n, own, start, length)
  {
    hide ViewOf, Split, NamesLawful, SpellingLawful, MetaLawful, Touched, InPlace, Placed, ReadNow, Fresh, Proper, MetaFor, NewView;
    var n := |Split(data, cfg.chunkSize)|;
    if j < commit {
      assert BeforeCommit(cfg, rs0, trace[j], dir, name);
      OldRead(cfg, rs0, trace[j], dir, name, x, n, own, start, length);
    } else {
      assert AfterCommit(cfg, rs0, trace[j], dir, name, x, data);
      NewRead(cfg, trace[j], dir, name, x, data, own, start, length);
    }
    assert OthersSame(cfg, rs0, trace[j], dir, name);
    forall d, m | (d, m) != (dir, name)
      ensures ReadNow(cfg, trace[j], d, m, own, start, length) == ReadNow(cfg, rs0, d, m, own, start, length)
    {
      OthersRead(cfg, rs0, trace[j], dir, name, x, n, j >= commit, d, m, own, start, length);
    }
  }

  lemma NewRead(cfg: Config, rs: Remotes, dir: Path, name: string, x: string, data: Bytes, own: OwnLink, start: int, length: int)
    requires NamesLawful(cfg) && cfg.chunkSize > 0 && |rs| > 0 && Proper(cfg, rs, dir, name, x)
    requires ViewOf(cfg, rs, dir, name) == NewView(cfg, |rs|, data, x)
    requires 0 <= start <= |data| <= MAX_INT64 && IsInt64(length) && (length < 0 || start + length <= MAX_INT64)
    ensures ReadNow(cfg, rs, dir, name, own, start, length)
         == Ok(data[start..if length < 0 then |data| else Min(start + length, |data|)])
  {
    hide ViewOf, NamesLawful, Proper, ReadNow, Split;
    NewViewHoldsStream(cfg, |rs|, data, x);
    ProperReads(cfg, rs, dir, name, own, start, length);
    WholeReads(NewView(cfg, |rs|, data, x), own, data, start, length);
  }

  /** Replacement without metadata, from what is known before the call: an untagged object without a base
      file, with its chunks spelled canonically and none of them on two remotes, or no object at all, is replaced
      by exactly the new chunks whether the new stream is longer or shorter, and every range read is served from
      it. */
  lemma BareReplacement(cfg: Config, rs0: Remotes, rs: Remotes, dir: Path, name: string, data: Bytes, removed: seq<bool>,
                        own: OwnLink, start: int, length: int)
    requires Lawful(cfg) && |rs0| > 0 && |rs| == |rs0| && 0 <= start <= |data| <= MAX_INT64
    requires IsInt64(length) && (length < 0 || start + length <= MAX_INT64)
    requires Spellable(cfg, name, |Split(data, cfg.chunkSize)|)
    requires FirstFile(rs0, dir + [name]).None? && Proper(cfg, rs0, dir, name, "")
    requires forall no: nat, i, j :: 0 <= i < j < |rs0| && IsNumber(cfg, no) ==>
      FileAt(rs0[i], PartPath(cfg, dir, name, no, "")).None? || FileAt(rs0[j], PartPath(cfg, dir, name, no, "")).None?
    requires BareOutcome(cfg, rs0, rs, dir, name, data, ObjectLocations(cfg, dir, name, ViewOf(cfg, rs0, dir, name)), removed)
    ensures HoldsWhole(ViewOf(cfg, rs, dir, name), data)
    ensures ReadNow(cfg, rs, dir, name, own, start, length)
         == Ok(data[start..if length < 0 then |data| else Min(start + length, |data|)])
  {
    OwnChunksAreNoStrays(cfg, rs0, dir, name, |Split(data, cfg.chunkSize)|);
    hide ViewOf, NoStrays, Unmixed, BaseOut, NamesLawful, MetaLawful, Spellable, Proper, ReadNow;
    ProperReads(cfg, rs, dir, name, own, start, length);
    NewViewHoldsStream(cfg, |rs|, data, "");
    WholeReads(BareView(cfg, |rs|, data), own, data, start, length);
  }
}
