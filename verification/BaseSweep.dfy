/** Removing a path on every remote, as a Put in format "none" does with the base path of its name, and what
    that does to everybody else. */
module BaseSweep {
  import opened Prelude
  import opened RemoteStore
  import opened RemoteOps
  import opened ChunkView
  import opened ChunkStates
  import opened BaseWrite
  import Names = ChunkNames

  /** The remotes after the path was removed where `removed` says so, files and directories alike. */
  function Swept(rs: Remotes, base: Path, removed: seq<bool>): (rs': Remotes)
    ensures |rs'| == |rs|
  {
    seq(|rs|, i requires 0 <= i < |rs| => if i < |removed| && removed[i] then Removed(rs[i], base) else rs[i])
  }

  lemma SweptNothing(rs: Remotes, base: Path)
    ensures Swept(rs, base, []) == rs
  {
  }

  /** One more remote, with either outcome. */
  lemma SweptStep(rs: Remotes, base: Path, removed: seq<bool>, gone: bool)
    requires |removed| < |rs|
    ensures var now := Swept(rs, base, removed); var i := |removed|;
      Swept(rs, base, removed + [gone]) == if gone then now[i := Removed(now[i], base)] else now
  {
    var now := Swept(rs, base, removed);
    var i := |removed|;
    var next := if gone then now[i := Removed(now[i], base)] else now;
    assert |Swept(rs, base, removed + [gone])| == |next|;
    forall k | 0 <= k < |rs|
      ensures Swept(rs, base, removed + [gone])[k] == next[k]
    {
      assert (removed + [gone])[..i] == removed;
    }
  }

  /** The removal of the path takes this file along. */
  predicate Takes(r: Remote, base: Path, p: Path) {
    base in r && base <= p && (r[base].Dir? || p == base)
  }

  lemma SweptFile(rs: Remotes, base: Path, removed: seq<bool>, i: nat, p: Path)
    requires i < |rs|
    ensures FileAt(Swept(rs, base, removed)[i], p) ==
      if i < |removed| && removed[i] && Takes(rs[i], base, p) then None else FileAt(rs[i], p)
  {
  }

  // ---- below the path ----

  /** The remotes whose directory at the path was removed with everything in it. */
  function Lost(rs: Remotes, base: Path, removed: seq<bool>): (s: set<nat>)
    ensures forall i :: i in s <==> 0 <= i < |rs| && i < |removed| && removed[i] && base in rs[i] && rs[i][base].Dir?
  {
    set i | 0 <= i < |rs| && i < |removed| && removed[i] && base in rs[i] && rs[i][base].Dir?
  }

  /** In the directory the remotes of `lost` have no files left, the others what they had. */
  ghost predicate Thinned(rs0: Remotes, rs: Remotes, lost: set<nat>, d: Path) {
    && |rs| == |rs0|
    && forall i, k :: 0 <= i < |rs| ==> FileAt(rs[i], d + [k]) == if i in lost then None else FileAt(rs0[i], d + [k])
  }

  /** Some chunk of the name, of whatever transaction, lies on a remote that is not lost. */
  ghost predicate PartLeft(cfg: Config, rs0: Remotes, lost: set<nat>, d: Path, n: string) {
    exists i, no: nat, x ::
      && 0 <= i < |rs0| && i !in lost && Names.PlainName(n) && IsNumber(cfg, no) && Names.IsXact(x)
      && FileAt(Seen(cfg, rs0)[i], PartPath(cfg, d, n, no, x)).Some?
  }

  /** Nothing that the name lists was on a lost remote, and its metadata, if any, still has a chunk beside it. */
  ghost predicate Survives(cfg: Config, rs0: Remotes, lost: set<nat>, d: Path, n: string) {
    match ViewOf(cfg, rs0, d, n)
    case Absent => true
    case Plain(i, _) => i !in lost
    case Chunked(_, main, meta, parts) =>
      && (forall j :: 0 <= j < |parts| ==> parts[j].remote !in lost)
      && (meta.Some? ==> main !in lost && PartLeft(cfg, rs0, lost, d, n))
  }

  lemma ThinnedFirst(rs0: Remotes, rs: Remotes, lost: set<nat>, p: Path)
    requires |rs| == |rs0| && forall i :: 0 <= i < |rs| ==> FileAt(rs[i], p) == if i in lost then None else FileAt(rs0[i], p)
    ensures FirstFile(rs0, p).None? ==> FirstFile(rs, p).None?
    ensures FirstFile(rs0, p).Some? && FirstFile(rs0, p).value !in lost ==>
      FirstFile(rs, p) == FirstFile(rs0, p) && FirstData(rs, p) == FirstData(rs0, p)
    ensures FirstFile(rs, p).Some? ==> FirstFile(rs, p).value !in lost
  {
    var a, b := FirstFile(rs0, p), FirstFile(rs, p);
    if a.Some? { assert FileAt(rs0[a.value], p).Some?; }
    if b.Some? { assert FileAt(rs[b.value], p).Some?; }
  }

  lemma ThinnedSeen(cfg: Config, rs0: Remotes, rs: Remotes, lost: set<nat>, d: Path, m: string, i: nat)
    requires Thinned(rs0, rs, lost, d) && i < |rs|
    ensures FileAt(Seen(cfg, rs)[i], d + [m]) == if i in lost then None else FileAt(Seen(cfg, rs0)[i], d + [m])
  {
    hide Seen, Canon;
    if i in lost {
      var n := SeenSome(cfg, rs, i, d, m);
    } else {
      SeenSame(cfg, rs, i, d, rs0, i, d, m);
    }
  }

  lemma ThinnedPart(cfg: Config, rs0: Remotes, rs: Remotes, lost: set<nat>, d: Path, n: string, no: nat, x: string)
    requires Thinned(rs0, rs, lost, d)
    ensures PartExists(cfg, rs, d, n, no, x) ==>
      PartExists(cfg, rs0, d, n, no, x) && PartOf(cfg, rs, d, n, x, no).remote !in lost
    ensures PartExists(cfg, rs0, d, n, no, x) && PartOf(cfg, rs0, d, n, x, no).remote !in lost ==>
      PartExists(cfg, rs, d, n, no, x) && PartOf(cfg, rs, d, n, x, no) == PartOf(cfg, rs0, d, n, x, no)
  {
    hide Seen, FirstFile, FirstData;
    forall i | 0 <= i < |rs|
      ensures FileAt(Seen(cfg, rs)[i], PartPath(cfg, d, n, no, x))
           == if i in lost then None else FileAt(Seen(cfg, rs0)[i], PartPath(cfg, d, n, no, x))
    {
      ThinnedSeen(cfg, rs0, rs, lost, d, cfg.make(n, no, x), i);
    }
    ThinnedFirst(Seen(cfg, rs0), Seen(cfg, rs), lost, PartPath(cfg, d, n, no, x));
  }

  lemma ThinnedAny(cfg: Config, rs0: Remotes, rs: Remotes, lost: set<nat>, d: Path, n: string)
    requires Thinned(rs0, rs, lost, d)
    ensures AnyPart(cfg, rs, d, n) <==> PartLeft(cfg, rs0, lost, d, n)
    ensures AnyPart(cfg, rs, d, n) ==> AnyPart(cfg, rs0, d, n)
  {
    hide Seen;
    if AnyPart(cfg, rs, d, n) {
      var no, x :| PartExists(cfg, rs, d, n, no, x);
      ThinnedPart(cfg, rs0, rs, lost, d, n, no, x);
      var i := FirstFile(Seen(cfg, rs), PartPath(cfg, d, n, no, x)).value;
      ThinnedSeen(cfg, rs0, rs, lost, d, cfg.make(n, no, x), i);
      assert FileAt(Seen(cfg, rs0)[i], PartPath(cfg, d, n, no, x)).Some?;
    }
    if PartLeft(cfg, rs0, lost, d, n) {
      var i, no: nat, x :| 0 <= i < |rs0| && i !in lost && Names.PlainName(n) && IsNumber(cfg, no) && Names.IsXact(x)
        && FileAt(Seen(cfg, rs0)[i], PartPath(cfg, d, n, no, x)).Some?;
      ThinnedSeen(cfg, rs0, rs, lost, d, cfg.make(n, no, x), i);
      assert PartExists(cfg, rs, d, n, no, x);
    }
  }

  /** The parts stay exactly if their winners do. */
  lemma ThinnedParts(cfg: Config, rs0: Remotes, rs: Remotes, lost: set<nat>, d: Path, n: string, x: string)
    requires NamesLawful(cfg) && Thinned(rs0, rs, lost, d)
    ensures var ps := Parts(cfg, rs0, d, n, x);
      Parts(cfg, rs, d, n, x) == ps <==> forall j :: 0 <= j < |ps| ==> ps[j].remote !in lost
  {
    hide Parts, PartExists, PartOf;
    var ps := Parts(cfg, rs0, d, n, x);
    PartsProperties(cfg, rs0, d, n, x);
    PartsProperties(cfg, rs, d, n, x);
    hide Thinned, NamesLawful;
    forall no: nat
      ensures PartExists(cfg, rs, d, n, no, x) ==> PartExists(cfg, rs0, d, n, no, x) && PartOf(cfg, rs, d, n, x, no).remote !in lost
      ensures PartExists(cfg, rs0, d, n, no, x) && PartOf(cfg, rs0, d, n, x, no).remote !in lost ==>
        PartExists(cfg, rs, d, n, no, x) && PartOf(cfg, rs, d, n, x, no) == PartOf(cfg, rs0, d, n, x, no)
    {
      ThinnedPart(cfg, rs0, rs, lost, d, n, no, x);
    }
    if forall j :: 0 <= j < |ps| ==> ps[j].remote !in lost {
      forall no: nat | PartExists(cfg, rs, d, n, no, x)
        ensures exists j :: 0 <= j < |ps| && ps[j].no == no
      {
        var j := PartsComplete(cfg, rs0, d, n, x, no);
      }
      PartsAre(cfg, rs, d, n, x, ps);
    }
  }

  lemma ThinnedMeta(cfg: Config, rs0: Remotes, rs: Remotes, lost: set<nat>, d: Path, n: string)
    requires Thinned(rs0, rs, lost, d)
    ensures
      && MetaOf(cfg, rs0, d, n).None?
      && (IsBaseName(cfg, n) && FirstFile(rs0, d + [n]).Some? ==> FirstFile(rs0, d + [n]).value !in lost) ==>
      MetaOf(cfg, rs, d, n).None?
    ensures MetaOf(cfg, rs0, d, n).Some? && FirstFile(rs0, d + [n]).value !in lost ==>
      MetaOf(cfg, rs, d, n) == if PartLeft(cfg, rs0, lost, d, n) then MetaOf(cfg, rs0, d, n) else None
  {
    hide AnyPart, PartLeft;
    ThinnedAny(cfg, rs0, rs, lost, d, n);
    ThinnedFirst(rs0, rs, lost, d + [n]);
    hide FirstFile, FirstData, Thinned;
  }

  /** A name lists as before exactly if what it lists survives. */
  lemma SurvivesExactly(cfg: Config, rs0: Remotes, rs: Remotes, lost: set<nat>, d: Path, n: string)
    requires NamesLawful(cfg) && Thinned(rs0, rs, lost, d)
    ensures ViewOf(cfg, rs, d, n) == ViewOf(cfg, rs0, d, n) <==> Survives(cfg, rs0, lost, d, n)
  {
    hide Parts, PartLeft, FirstFile, FirstData, MetaOf;
    ThinnedFirst(rs0, rs, lost, d + [n]);
    ThinnedMeta(cfg, rs0, rs, lost, d, n);
    MetaNeedsBase(cfg, rs0, d, n);
    MetaNeedsBase(cfg, rs, d, n);
    if IsBaseName(cfg, n) && FirstFile(rs0, d + [n]).Some? && FirstFile(rs0, d + [n]).value in lost {
      hide NamesLawful, Thinned;
    } else if MetaOf(cfg, rs0, d, n).Some? {
      ThinnedParts(cfg, rs0, rs, lost, d, n, MetaOf(cfg, rs0, d, n).value.xact);
      hide NamesLawful, Thinned;
    } else {
      ThinnedParts(cfg, rs0, rs, lost, d, n, "");
      hide NamesLawful, Thinned;
    }
  }

  lemma MetaNeedsBase(cfg: Config, rs: Remotes, d: Path, n: string)
    ensures MetaOf(cfg, rs, d, n).Some? ==> IsBaseName(cfg, n) && FirstFile(rs, d + [n]).Some?
  {
  }

  lemma SweptBelow(rs: Remotes, base: Path, removed: seq<bool>, d: Path)
    requires base <= d
    ensures Thinned(rs, Swept(rs, base, removed), Lost(rs, base, removed), d)
  {
    forall i, k | 0 <= i < |rs|
      ensures FileAt(Swept(rs, base, removed)[i], d + [k])
           == if i in Lost(rs, base, removed) then None else FileAt(rs[i], d + [k])
    {
      SweptFile(rs, base, removed, i, d + [k]);
      assert |d + [k]| > |base|;
    }
  }

  /** The removal shows nowhere but in the name itself: what is listed below the path survives, and the path does
      not spell a chunk whose loss disturbs its object. */
  ghost predicate SweepSpares(cfg: Config, rs0: Remotes, dir: Path, name: string, removed: seq<bool>) {
    var base := dir + [name];
    && (forall d, n :: base <= d ==> Survives(cfg, rs0, Lost(rs0, base, removed), d, n))
    && !Disturbs(cfg, rs0, dir, name, ChunkWinner(cfg, Swept(rs0, base, removed), dir, name))
  }

  lemma SweptIsSpared(cfg: Config, rs0: Remotes, dir: Path, name: string, removed: seq<bool>)
    ensures Spared(cfg, rs0, Swept(rs0, dir + [name], removed), dir, name, name)
  {
    forall i, p | 0 <= i < |rs0| && !(dir + [name] <= p)
      ensures FileAt(Swept(rs0, dir + [name], removed)[i], p) == FileAt(rs0[i], p)
    {
      SweptFile(rs0, dir + [name], removed, i, p);
    }
  }

  /** Every other name, in whatever directory, lists as before if and only if the sweep spares it. */
  lemma SweptOthers(cfg: Config, rs0: Remotes, dir: Path, name: string, removed: seq<bool>)
    requires NamesLawful(cfg)
    ensures OthersSame(cfg, rs0, Swept(rs0, dir + [name], removed), dir, name) <==> SweepSpares(cfg, rs0, dir, name, removed)
  {
    var base := dir + [name];
    var rs := Swept(rs0, base, removed);
    SweptIsSpared(cfg, rs0, dir, name, removed);
    NotBelowItself(dir, name);
    hide Spared, ViewOf, NamesLawful, Swept, Survives, Lost, ChunkWinner;
    forall d, n | base <= d
      ensures ViewOf(cfg, rs, d, n) == ViewOf(cfg, rs0, d, n) <==> Survives(cfg, rs0, Lost(rs0, base, removed), d, n)
    {
      SweptBelow(rs0, base, removed, d);
      SurvivesExactly(cfg, rs0, rs, Lost(rs0, base, removed), d, n);
    }
    forall d, n | (d, n) != (dir, name) && !(base <= d) && !(IsChunkName(cfg, name) && (d, n) == (dir, cfg.parse(name).main))
      ensures ViewOf(cfg, rs, d, n) == ViewOf(cfg, rs0, d, n)
    {
      SparedElsewhere(cfg, rs0, rs, dir, name, name, d, n);
    }
    if IsChunkName(cfg, name) {
      ChunkNameFacts(cfg, dir, name);
      SparedSpelled(cfg, rs0, rs, dir, name, name);
    }
  }

  lemma NotBelowItself(dir: Path, name: string)
    ensures !(dir + [name] <= dir)
  {
  }

  /** Removed on every remote. */
  predicate Everywhere(rs: Remotes, removed: seq<bool>) {
    |removed| == |rs| && forall i :: 0 <= i < |removed| ==> removed[i]
  }

  lemma {:induction false} BelowDir(rs: Remotes, i: nat, base: Path, p: Path)
    requires ParentsExist(rs) && i < |rs| && base != [] && p in rs[i] && base <= p && base != p
    ensures base in rs[i] && rs[i][base].Dir?
    decreases |p|
  {
    var d, n := p[..|p| - 1], p[|p| - 1];
    assert p == d + [n];
    assert IsDir(rs[i], d);
    if d != base { BelowDir(rs, i, base, d); }
  }

  /** Then nothing at all is left at or below the path. */
  lemma NothingLeft(rs: Remotes, base: Path, removed: seq<bool>, i: nat, p: Path)
    requires ParentsExist(rs) && base != [] && Everywhere(rs, removed) && i < |rs| && base <= p
    ensures FileAt(Swept(rs, base, removed)[i], p).None?
  {
    SweptFile(rs, base, removed, i, p);
    if p in rs[i] && base != p { BelowDir(rs, i, base, p); }
  }

  lemma EmptyDirectory(cfg: Config, rs: Remotes, d: Path, n: string)
    requires NamesLawful(cfg) && forall i, k :: 0 <= i < |rs| ==> FileAt(rs[i], d + [k]).None?
    ensures ViewOf(cfg, rs, d, n) == Absent
  {
    PartNosMembers(cfg, rs, d, n, "");
    hide Seen;
    forall no: nat, x
      ensures !PartExists(cfg, rs, d, n, no, x)
    {
      forall i | 0 <= i < |rs|
        ensures FileAt(Seen(cfg, rs)[i], PartPath(cfg, d, n, no, x)).None?
      {
        var k := SeenSome(cfg, rs, i, d, cfg.make(n, no, x));
      }
    }
    assert PartNos(cfg, rs, d, n, "") == {};
  }

  /** Files of the directory of the path under other names that read as the chunk which the name reads as. */
  ghost predicate OtherwiseSpelled(cfg: Config, rs0: Remotes, dir: Path, name: string) {
    exists i, k :: 0 <= i < |rs0| && k != name && Canon(cfg, k) == Canon(cfg, name) && FileAt(rs0[i], dir + [k]).Some?
  }

  /** When the path is removed everywhere the others stay exactly if nothing was listed below it and, if it
      spells a chunk that was there in this spelling only, its object neither listed that chunk nor needed it to
      be metadata. */
  lemma SweptEverywhere(cfg: Config, rs0: Remotes, dir: Path, name: string, removed: seq<bool>)
    requires NamesLawful(cfg) && ParentsExist(rs0) && Everywhere(rs0, removed)
    ensures SweepSpares(cfg, rs0, dir, name, removed) <==>
      && (forall d, n :: dir + [name] <= d ==> ViewOf(cfg, rs0, d, n) == Absent)
      && !Disturbs(cfg, rs0, dir, name, ChunkWinner(cfg, Swept(rs0, dir + [name], removed), dir, name))
    ensures IsChunkName(cfg, name) && !OtherwiseSpelled(cfg, rs0, dir, name) ==>
      ChunkWinner(cfg, Swept(rs0, dir + [name], removed), dir, name) == None
  {
    var base := dir + [name];
    var rs := Swept(rs0, base, removed);
    forall i, p | 0 <= i < |rs| && base <= p
      ensures FileAt(rs[i], p).None?
    {
      NothingLeft(rs0, base, removed, i, p);
    }
    if !OtherwiseSpelled(cfg, rs0, dir, name) { NoSpellingLeft(cfg, rs0, dir, name, removed); }
    hide Swept, ViewOf, NamesLawful, Disturbs, Survives, Lost, ChunkWinner, OtherwiseSpelled;
    forall d, n | base <= d
      ensures ViewOf(cfg, rs0, d, n) == Absent <==> Survives(cfg, rs0, Lost(rs0, base, removed), d, n)
    {
      EmptyDirectory(cfg, rs, d, n);
      SweptBelow(rs0, base, removed, d);
      SurvivesExactly(cfg, rs0, rs, Lost(rs0, base, removed), d, n);
    }
  }

  lemma NoSpellingLeft(cfg: Config, rs0: Remotes, dir: Path, name: string, removed: seq<bool>)
    requires ParentsExist(rs0) && Everywhere(rs0, removed) && !OtherwiseSpelled(cfg, rs0, dir, name)
    ensures ChunkWinner(cfg, Swept(rs0, dir + [name], removed), dir, name) == None
  {
    var base := dir + [name];
    var rs := Swept(rs0, base, removed);
    hide Seen, Swept, Canon;
    forall i | 0 <= i < |rs|
      ensures FileAt(Seen(cfg, rs)[i], dir + [Canon(cfg, name)]).None?
    {
      var k := SeenSome(cfg, rs, i, dir, Canon(cfg, name));
      SweptFile(rs0, base, removed, i, dir + [k]);
      NothingLeft(rs0, base, removed, i, base);
    }
  }
}
