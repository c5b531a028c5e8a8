/** A Put under a name, or with a number base, whose chunks cannot all be found again: what every other name
    lists as. */
module StrayChunks {
  import opened Prelude
  import opened RemoteStore
  import opened ChunkView
  import opened ChunkStates
  import opened BaseWrite
  import opened ChunkUpload
  import Names = ChunkNames

  predicate Findable(cfg: Config, name: string, no: nat) {
    Names.PlainName(name) && IsNumber(cfg, no)
  }

  /** The file name of one of the first `n` chunks that does not read back as that chunk. */
  ghost predicate Stray(cfg: Config, name: string, x: string, n: nat, file: string) {
    exists no :: 0 <= no < n && !Findable(cfg, name, no) && file == cfg.make(name, no, x)
  }

  /** Every other name lists as before, but for the chunk files that list as files of their own. */
  ghost predicate OthersBut(cfg: Config, rs0: Remotes, rs: Remotes, dir: Path, name: string, x: string, n: nat) {
    forall d, m :: (d, m) != (dir, name) && !(d == dir && Stray(cfg, name, x, n, m)) ==>
      ViewOf(cfg, rs, d, m) == ViewOf(cfg, rs0, d, m)
  }

  ghost predicate Ours(cfg: Config, x: string, n: nat) {
    NamesLawful(cfg) && SpellingLawful(cfg) && Names.IsXact(x) && n <= MAX_INT64
  }

  /** No file of a third name is one of the files made. */
  lemma NotMade(cfg: Config, dir: Path, name: string, x: string, n: nat, d: Path, m: string, p: Path)
    requires Ours(cfg, x, n) && (d, m) != (dir, name) && !(d == dir && Stray(cfg, name, x, n, m)) && Owned(cfg, d, m, p)
    ensures !IsMade(cfg, dir, name, x, n, p)
  {
    if IsMade(cfg, dir, name, x, n, p) {
      var no: nat :| no < n && p == PartPath(cfg, dir, name, no, x);
      WhoseFile(cfg, dir, cfg.make(name, no, x), d, m);
    }
  }

  lemma BaseNotOwnChunk(cfg: Config, dir: Path, name: string, x: string, n: nat)
    requires Ours(cfg, x, n)
    ensures !IsMade(cfg, dir, name, x, n, dir + [name])
  {
    if IsMade(cfg, dir, name, x, n, dir + [name]) {
      var no :| 0 <= no < n && dir + [name] == PartPath(cfg, dir, name, no, x);
      JoinUnique(dir, name, dir, cfg.make(name, no, x));
    }
  }

  lemma ThirdFile(cfg: Config, rs0: Remotes, rs: Remotes, dir: Path, name: string, x: string, n: nat, d: Path, m: string, i: nat, p: Path)
    requires Ours(cfg, x, n) && Touched(cfg, rs0, rs, dir, name, x, n, true) && i < |rs|
    requires (d, m) != (dir, name) && !(d == dir && Stray(cfg, name, x, n, m)) && Owned(cfg, d, m, p) && p != dir + [name]
    ensures FileAt(rs[i], p) == FileAt(rs0[i], p)
  {
    NotMade(cfg, dir, name, x, n, d, m, p);
    if Owned(cfg, dir, name, p) { OwnedApart(cfg, dir, name, d, m, p); }
  }

  lemma ThirdName(cfg: Config, rs0: Remotes, rs: Remotes, dir: Path, name: string, x: string, n: nat, d: Path, m: string)
    requires Ours(cfg, x, n) && Touched(cfg, rs0, rs, dir, name, x, n, true)
    requires (d, m) != (dir, name) && !(d == dir && Stray(cfg, name, x, n, m))
    requires !(IsChunkName(cfg, name) && (d, m) == (dir, cfg.parse(name).main))
    ensures ViewOf(cfg, rs, d, m) == ViewOf(cfg, rs0, d, m)
  {
    TouchedLength(cfg, rs0, rs, dir, name, x, n);
    WhoseFile(cfg, dir, name, d, m);
    hide Touched, SpellingLawful, Stray, ViewOf;
    forall i, p | 0 <= i < |rs| && Owned(cfg, d, m, p)
      ensures FileAt(rs[i], p) == FileAt(rs0[i], p)
    {
      ThirdFile(cfg, rs0, rs, dir, name, x, n, d, m, i, p);
    }
    ViewFrame(cfg, rs0, rs, d, m);
  }

  lemma TouchedLength(cfg: Config, rs0: Remotes, rs: Remotes, dir: Path, name: string, x: string, n: nat)
    requires Touched(cfg, rs0, rs, dir, name, x, n, true)
    ensures |rs| == |rs0|
  {
  }

  lemma MainIsNoStray(cfg: Config, dir: Path, name: string, x: string, n: nat)
    requires Ours(cfg, x, n) && IsChunkName(cfg, name)
    ensures cfg.parse(name).main != name && !Stray(cfg, name, x, n, cfg.parse(name).main)
  {
    ChunkNameFacts(cfg, dir, name);
    assert |name| > |cfg.parse(name).main|;
  }

  /** The object whose chunk the name spells. */
  lemma SpelledName(cfg: Config, rs0: Remotes, rs: Remotes, dir: Path, name: string, x: string, n: nat)
    requires Ours(cfg, x, n) && Touched(cfg, rs0, rs, dir, name, x, n, true) && IsChunkName(cfg, name)
    ensures ViewOf(cfg, rs, dir, cfg.parse(name).main) == ViewOf(cfg, rs0, dir, cfg.parse(name).main)
       <==> !Disturbs(cfg, rs0, dir, name, ChunkWinner(cfg, rs, dir, name))
    ensures cfg.parse(name).main != name && !Stray(cfg, name, x, n, cfg.parse(name).main)
  {
    var q := cfg.parse(name);
    ChunkNameFacts(cfg, dir, name);
    MainIsNoStray(cfg, dir, name, x, n);
    TouchedLength(cfg, rs0, rs, dir, name, x, n);
    hide Touched, SpellingLawful, Stray, Disturbs, ViewOf;
    forall i, file | 0 <= i < |rs| && Owned(cfg, dir, q.main, dir + [file]) && cfg.parse(file) != Names.Match(q.main, q.no, "", q.xact)
      ensures FileAt(rs[i], dir + [file]) == FileAt(rs0[i], dir + [file])
    {
      JoinUnique(dir, file, dir, name);
      ThirdFile(cfg, rs0, rs, dir, name, x, n, dir, q.main, i, dir + [file]);
    }
    FilesAllBut(cfg, rs0, rs, dir, q.main, q.no, q.xact);
    hide NamesLawful, AllBut;
    ShiftView(cfg, rs0, rs, dir, name);
  }

  /** All others list as before, but for the stray chunk files, exactly if what now lies under the name itself
      does not disturb the object whose chunk it spells. */
  lemma TouchedOthers(cfg: Config, rs0: Remotes, rs: Remotes, dir: Path, name: string, x: string, n: nat)
    requires Ours(cfg, x, n) && Touched(cfg, rs0, rs, dir, name, x, n, true)
    ensures OthersBut(cfg, rs0, rs, dir, name, x, n) <==> !Disturbs(cfg, rs0, dir, name, ChunkWinner(cfg, rs, dir, name))
  {
    if IsChunkName(cfg, name) { SpelledName(cfg, rs0, rs, dir, name, x, n); }
    hide Ours, Touched, ViewOf, Stray, ChunkWinner;
    forall d, m | (d, m) != (dir, name) && !(d == dir && Stray(cfg, name, x, n, m))
                  && !(IsChunkName(cfg, name) && (d, m) == (dir, cfg.parse(name).main))
      ensures ViewOf(cfg, rs, d, m) == ViewOf(cfg, rs0, d, m)
    {
      ThirdName(cfg, rs0, rs, dir, name, x, n, d, m);
    }
  }

  /** Before the commit nothing counts as the chunk that the name reads as that did not. */
  lemma StillUndisturbed(cfg: Config, rs0: Remotes, rs: Remotes, dir: Path, name: string, x: string, n: nat)
    requires Ours(cfg, x, n) && Touched(cfg, rs0, rs, dir, name, x, n, false)
    ensures Touched(cfg, rs0, rs, dir, name, x, n, true) && !Disturbs(cfg, rs0, dir, name, ChunkWinner(cfg, rs, dir, name))
  {
    TouchedMore(cfg, rs0, rs, dir, name, x, n);
    if IsChunkName(cfg, name) {
      assert |rs| == |rs0|;
      hide Seen, IsMade, Owned, Disturbs;
      forall k | Canon(cfg, k) == Canon(cfg, name)
        ensures Agree(rs0, rs, dir + [k])
      {
        SpellingNotMade(cfg, dir, name, x, n, k);
      }
      hide Touched, Ours, Canon, Agree;
      SeenAgree(cfg, rs0, rs, dir, Canon(cfg, name));
      AgreeFirst(Seen(cfg, rs0), Seen(cfg, rs), dir + [Canon(cfg, name)]);
    }
  }

  lemma TouchedMore(cfg: Config, rs0: Remotes, rs: Remotes, dir: Path, name: string, x: string, n: nat)
    requires Touched(cfg, rs0, rs, dir, name, x, n, false)
    ensures Touched(cfg, rs0, rs, dir, name, x, n, true)
  {
    hide Owned;
  }

  lemma SpellingNotMade(cfg: Config, dir: Path, name: string, x: string, n: nat, k: string)
    requires Ours(cfg, x, n) && IsChunkName(cfg, name) && Canon(cfg, k) == Canon(cfg, name)
    ensures !IsMade(cfg, dir, name, x, n, dir + [k])
  {
    CanonParses(cfg, k);
    CanonParses(cfg, name);
    ChunkNameFacts(cfg, dir, name);
    MainIsNoStray(cfg, dir, name, x, n);
    WhoseFile(cfg, dir, k, dir, cfg.parse(name).main);
    NotMade(cfg, dir, name, x, n, dir, cfg.parse(name).main, dir + [k]);
  }

  /** A stray chunk file lists as a file of its own. */
  lemma StrayShows(cfg: Config, rs: Remotes, dir: Path, name: string, x: string, n: nat, file: string)
    requires Ours(cfg, x, n) && InPlace(cfg, rs, dir, name, x, n) && Stray(cfg, name, x, n, file)
    ensures IsBaseName(cfg, file) && ViewOf(cfg, rs, dir, file) != Absent
  {
    var no :| 0 <= no < n && !Findable(cfg, name, no) && file == cfg.make(name, no, x);
    assert dir + [file] == PartPath(cfg, dir, name, no, x);
    assert FirstFile(rs, dir + [file]).Some?;
    hide Parts, AnyPart;
  }

  /** All others list as before, but for the stray chunk files, in a state where the name itself does not spell a
      chunk that has changed. */
  lemma TouchedBeside(cfg: Config, rs0: Remotes, rs: Remotes, dir: Path, name: string, x: string, n: nat)
    requires Ours(cfg, x, n) && Touched(cfg, rs0, rs, dir, name, x, n, true)
    requires IsChunkName(cfg, name) ==> Agree(Seen(cfg, rs0), Seen(cfg, rs), dir + [Canon(cfg, name)])
    ensures OthersBut(cfg, rs0, rs, dir, name, x, n)
  {
    hide Touched, OthersBut, Ours, Seen, Canon;
    TouchedOthers(cfg, rs0, rs, dir, name, x, n);
    if IsChunkName(cfg, name) { AgreeFirst(Seen(cfg, rs0), Seen(cfg, rs), dir + [Canon(cfg, name)]); }
  }

  /** Chunks that can all be found again leave no strays. */
  lemma NoStrayFile(cfg: Config, rs0: Remotes, rs: Remotes, dir: Path, name: string, x: string, n: nat)
    requires Spellable(cfg, name, n)
    ensures OthersBut(cfg, rs0, rs, dir, name, x, n) <==> OthersSame(cfg, rs0, rs, dir, name)
  {
    assert forall file :: !Stray(cfg, name, x, n, file);
    hide ViewOf, Stray;
  }
}
