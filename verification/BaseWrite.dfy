/** What happens to other names when the file at a name's own path is written or removed: the only step of
    a Put or a Rename that can change what another name lists as. */
module BaseWrite {
  import opened Prelude
  import opened RemoteStore
  import opened ChunkView
  import opened ChunkStates
  import Names = ChunkNames

  /** A name lists its chunks of transaction `x`: its metadata names them, or they are untagged and it
      has no base file. */
  ghost predicate Selects(cfg: Config, rs: Remotes, dir: Path, name: string, x: string) {
    match MetaOf(cfg, rs, dir, name)
    case Some(meta) => meta.xact == x
    case None => x == "" && (IsBaseName(cfg, name) ==> FirstFile(rs, dir + [name]).None?)
  }

  /** The copy of a file that counts: its remote and its bytes. */
  function Winner(rs: Remotes, p: Path): Option<(nat, Bytes)> {
    match FirstFile(rs, p)
    case None => None
    case Some(i) => Some((i, FirstData(rs, p)))
  }

  /** The copy that counts of the chunk that a name reads as, whatever its spelling. */
  ghost function ChunkWinner(cfg: Config, rs: Remotes, dir: Path, name: string): Option<(nat, Bytes)> {
    Winner(Seen(cfg, rs), dir + [Canon(cfg, name)])
  }

  ghost predicate OtherPart(cfg: Config, rs: Remotes, dir: Path, name: string, no: nat, x: string) {
    exists k: nat, y :: PartExists(cfg, rs, dir, name, k, y) && (k, y) != (no, x)
  }

  /** Chunk `no` of transaction `x` is the last one that makes the base file of its name metadata. */
  ghost predicate LastAwake(cfg: Config, rs: Remotes, dir: Path, name: string, no: nat, x: string) {
    MetaOf(cfg, rs, dir, name).Some? && !OtherPart(cfg, rs, dir, name, no, x)
  }

  /** The name reads as a chunk whose winning copy becomes `after`, and this shows in the listing of its object:
      that lists the chunk, or its appearance wakes dormant metadata, or it was the last to keep metadata awake. */
  ghost predicate Disturbs(cfg: Config, rs0: Remotes, dir: Path, name: string, after: Option<(nat, Bytes)>) {
    && IsChunkName(cfg, name) && after != ChunkWinner(cfg, rs0, dir, name)
    && var q := cfg.parse(name);
       || Selects(cfg, rs0, dir, q.main, q.xact)
       || (after.Some? && Dormant(cfg, rs0, dir, q.main))
       || (after.None? && LastAwake(cfg, rs0, dir, q.main, q.no, q.xact))
  }

  /** A file with these bytes, written under that name on the primary, shows up in another listing. */
  ghost predicate Intrudes(cfg: Config, rs0: Remotes, dir: Path, name: string, data: Bytes) {
    Disturbs(cfg, rs0, dir, name, Some((0, data)))
  }

  // ---- states that differ at and around one path ----

  /** Only files that belong to `a` or `b`, and what lies at or below the path of `b`, may differ. */
  ghost predicate Spared(cfg: Config, rs0: Remotes, rs: Remotes, dir: Path, a: string, b: string) {
    && |rs| == |rs0|
    && forall i, p ::
        0 <= i < |rs| && !Owned(cfg, dir, a, p) && !Owned(cfg, dir, b, p) && !(dir + [b] <= p) ==>
          FileAt(rs[i], p) == FileAt(rs0[i], p)
  }

  lemma ChunkNameFacts(cfg: Config, dir: Path, name: string)
    requires NamesLawful(cfg) && IsChunkName(cfg, name)
    ensures var q := cfg.parse(name);
      && Names.PlainName(q.main) && IsNumber(cfg, q.no) && Names.IsXact(q.xact) && |q.main| < |name|
      && PartPath(cfg, dir, q.main, q.no, q.xact) == dir + [Canon(cfg, name)] && Owned(cfg, dir, q.main, dir + [name])
  {
    assert (dir + [name])[|dir|] == name && (dir + [name])[..|dir|] == dir;
  }

  lemma JoinUnique(d: Path, n: string, dir: Path, name: string)
    ensures d + [n] == dir + [name] <==> (d, n) == (dir, name)
  {
    var a, b := d + [n], dir + [name];
    assert a[..|a| - 1] == d && a[|a| - 1] == n;
    assert b[..|b| - 1] == dir && b[|b| - 1] == name;
  }

  /** Who a file of that very name belongs to: itself, or the object whose chunk the name reads as. */
  lemma WhoseFile(cfg: Config, dir: Path, name: string, d: Path, n: string)
    ensures Owned(cfg, d, n, dir + [name]) <==>
      d == dir && (if IsBaseName(cfg, name) then n == name else cfg.parse(name).ctrl == "" && n == cfg.parse(name).main)
  {
    var p := dir + [name];
    assert p[..|dir|] == dir && p[|dir|] == name;
    if |p| == |d| + 1 && p[..|d|] == d { assert d == dir; }
  }

  /** Third names list as before, but for what lies below the path and the object whose chunk it spells. */
  lemma SparedElsewhere(cfg: Config, rs0: Remotes, rs: Remotes, dir: Path, a: string, b: string, d: Path, n: string)
    requires NamesLawful(cfg) && Spared(cfg, rs0, rs, dir, a, b) && !(dir + [b] <= d)
    requires (d, n) != (dir, a) && (d, n) != (dir, b)
    requires !(IsChunkName(cfg, b) && (d, n) == (dir, cfg.parse(b).main))
    ensures ViewOf(cfg, rs, d, n) == ViewOf(cfg, rs0, d, n)
  {
    forall i, p | 0 <= i < |rs| && Owned(cfg, d, n, p)
      ensures FileAt(rs[i], p) == FileAt(rs0[i], p)
    {
      SparedFile(cfg, rs0, rs, dir, a, b, d, n, i, p);
    }
    hide Spared, ViewOf, NamesLawful;
    ViewFrame(cfg, rs0, rs, d, n);
  }

  lemma SparedFile(cfg: Config, rs0: Remotes, rs: Remotes, dir: Path, a: string, b: string, d: Path, n: string, i: nat, p: Path)
    requires NamesLawful(cfg) && Spared(cfg, rs0, rs, dir, a, b) && !(dir + [b] <= d) && i < |rs|
    requires (d, n) != (dir, a) && (d, n) != (dir, b) && Owned(cfg, d, n, p)
    requires p != dir + [b] || !(IsChunkName(cfg, b) && (d, n) == (dir, cfg.parse(b).main))
    ensures FileAt(rs[i], p) == FileAt(rs0[i], p)
  {
    if Owned(cfg, dir, a, p) { OwnedApart(cfg, dir, a, d, n, p); }
    if Owned(cfg, dir, b, p) { OwnedApart(cfg, dir, b, d, n, p); }
    WhoseFile(cfg, dir, b, d, n);
    BelowOrAt(dir + [b], d, p);
  }

  lemma BelowOrAt(base: Path, d: Path, p: Path)
    requires |p| == |d| + 1 && p[..|d|] == d
    ensures base <= p <==> base <= d || base == p
  {
    assert p == d + [p[|d|]];
  }

  // ---- the object whose chunk changes ----

  /** All files of `m` agree but chunk `no` of transaction `x`. */
  ghost predicate AllBut(cfg: Config, rs0: Remotes, rs: Remotes, dir: Path, m: string, no: nat, x: string) {
    && |rs| == |rs0| && Names.PlainName(m) && IsNumber(cfg, no) && Names.IsXact(x)
    && (IsBaseName(cfg, m) ==> Agree(rs0, rs, dir + [m]))
    && (forall k: nat, y :: IsNumber(cfg, k) && Names.IsXact(y) && (k, y) != (no, x) ==>
          Agree(Seen(cfg, rs0), Seen(cfg, rs), PartPath(cfg, dir, m, k, y)))
  }

  /** So if they agree file by file but for what reads as that chunk. */
  lemma FilesAllBut(cfg: Config, rs0: Remotes, rs: Remotes, dir: Path, m: string, no: nat, x: string)
    requires NamesLawful(cfg) && |rs| == |rs0| && Names.PlainName(m) && IsNumber(cfg, no) && Names.IsXact(x)
    requires forall i, file :: 0 <= i < |rs| && Owned(cfg, dir, m, dir + [file]) && cfg.parse(file) != Names.Match(m, no, "", x) ==>
      FileAt(rs[i], dir + [file]) == FileAt(rs0[i], dir + [file])
    ensures AllBut(cfg, rs0, rs, dir, m, no, x)
  {
    hide Seen;
    WhoseFile(cfg, dir, m, dir, m);
    forall k: nat, y | IsNumber(cfg, k) && Names.IsXact(y) && (k, y) != (no, x)
      ensures Agree(Seen(cfg, rs0), Seen(cfg, rs), PartPath(cfg, dir, m, k, y))
    {
      forall file | cfg.parse(file) == Names.Match(m, k, "", y)
        ensures Agree(rs0, rs, dir + [file])
      {
        WhoseFile(cfg, dir, file, dir, m);
      }
      ChunkFrame(cfg, rs0, rs, dir, m, k, y);
    }
  }

  lemma OtherPartStays(cfg: Config, rs0: Remotes, rs: Remotes, dir: Path, m: string, no: nat, x: string)
    requires NamesLawful(cfg) && AllBut(cfg, rs0, rs, dir, m, no, x)
    ensures OtherPart(cfg, rs, dir, m, no, x) <==> OtherPart(cfg, rs0, dir, m, no, x)
    ensures AnyPart(cfg, rs, dir, m) <==> OtherPart(cfg, rs0, dir, m, no, x) || FirstFile(Seen(cfg, rs), PartPath(cfg, dir, m, no, x)).Some?
    ensures AnyPart(cfg, rs0, dir, m) <==>
      OtherPart(cfg, rs0, dir, m, no, x) || FirstFile(Seen(cfg, rs0), PartPath(cfg, dir, m, no, x)).Some?
  {
    hide Seen;
    forall k: nat, y | (k, y) != (no, x)
      ensures PartExists(cfg, rs, dir, m, k, y) <==> PartExists(cfg, rs0, dir, m, k, y)
    {
      if IsNumber(cfg, k) && Names.IsXact(y) { AgreeFirst(Seen(cfg, rs0), Seen(cfg, rs), PartPath(cfg, dir, m, k, y)); }
    }
    assert PartExists(cfg, rs, dir, m, no, x) <==> FirstFile(Seen(cfg, rs), PartPath(cfg, dir, m, no, x)).Some?;
    assert PartExists(cfg, rs0, dir, m, no, x) <==> FirstFile(Seen(cfg, rs0), PartPath(cfg, dir, m, no, x)).Some?;
    hide PartExists, NamesLawful, AllBut, PartPath;
  }

  lemma HasPart(cfg: Config, rs: Remotes, dir: Path, m: string, no: nat, x: string)
    requires NamesLawful(cfg) && Names.PlainName(m) && IsNumber(cfg, no) && Names.IsXact(x)
    ensures var w := Winner(Seen(cfg, rs), PartPath(cfg, dir, m, no, x)); var ps := Parts(cfg, rs, dir, m, x);
      && (w.Some? ==> Part(no, w.value.0, x, w.value.1) in ps)
      && (forall p :: p in ps && p.no == no ==> w.Some? && p == Part(no, w.value.0, x, w.value.1))
  {
    PartsProperties(cfg, rs, dir, m, x);
    hide Seen;
    var w := Winner(Seen(cfg, rs), PartPath(cfg, dir, m, no, x));
    if w.Some? {
      assert PartExists(cfg, rs, dir, m, no, x);
      var j := PartsComplete(cfg, rs, dir, m, x, no);
    }
    hide Parts, NamesLawful, PartPath;
  }

  /** Another winner makes another list of parts. */
  lemma PartsShift(cfg: Config, rs0: Remotes, rs: Remotes, dir: Path, m: string, no: nat, x: string)
    requires NamesLawful(cfg) && Names.PlainName(m) && IsNumber(cfg, no) && Names.IsXact(x)
    requires Winner(Seen(cfg, rs), PartPath(cfg, dir, m, no, x)) != Winner(Seen(cfg, rs0), PartPath(cfg, dir, m, no, x))
    ensures Parts(cfg, rs, dir, m, x) != Parts(cfg, rs0, dir, m, x)
  {
    HasPart(cfg, rs0, dir, m, no, x);
    HasPart(cfg, rs, dir, m, no, x);
    hide Parts, NamesLawful, PartPath, Winner, Seen;
  }

  lemma SameWinner(rs0: Remotes, rs: Remotes, p: Path)
    requires Winner(rs, p) == Winner(rs0, p)
    ensures FirstFile(rs, p) == FirstFile(rs0, p) && FirstData(rs, p) == FirstData(rs0, p)
  {
  }

  lemma OtherXactSame(cfg: Config, rs0: Remotes, rs: Remotes, dir: Path, m: string, no: nat, x: string, y: string)
    requires NamesLawful(cfg) && AllBut(cfg, rs0, rs, dir, m, no, x) && y != x
    ensures Parts(cfg, rs, dir, m, y) == Parts(cfg, rs0, dir, m, y)
  {
    hide Seen;
    assert AgreeParts(cfg, rs0, rs, dir, m, y);
    PartsSame(cfg, rs0, rs, dir, m, y);
  }

  /** The object has metadata. */
  lemma ShiftWithMeta(cfg: Config, rs0: Remotes, rs: Remotes, dir: Path, m: string, no: nat, x: string)
    requires NamesLawful(cfg) && AllBut(cfg, rs0, rs, dir, m, no, x) && MetaOf(cfg, rs0, dir, m).Some?
    requires Winner(Seen(cfg, rs), PartPath(cfg, dir, m, no, x)) != Winner(Seen(cfg, rs0), PartPath(cfg, dir, m, no, x))
    ensures ViewOf(cfg, rs, dir, m) == ViewOf(cfg, rs0, dir, m) <==>
      && MetaOf(cfg, rs0, dir, m).value.xact != x
      && (FirstFile(Seen(cfg, rs), PartPath(cfg, dir, m, no, x)).Some? || OtherPart(cfg, rs0, dir, m, no, x))
  {
    OtherPartStays(cfg, rs0, rs, dir, m, no, x);
    PartsShift(cfg, rs0, rs, dir, m, no, x);
    if AnyPart(cfg, rs, dir, m) { SameMeta(cfg, rs0, rs, dir, m); }
    AgreeFirst(rs0, rs, dir + [m]);
    if MetaOf(cfg, rs0, dir, m).value.xact != x {
      OtherXactSame(cfg, rs0, rs, dir, m, no, x, MetaOf(cfg, rs0, dir, m).value.xact);
    }
    hide NamesLawful, Parts, Agree, AnyPart, OtherPart, PartPath, AllBut, FirstFile, FirstData, Seen;
  }

  /** The object has none. */
  lemma ShiftWithoutMeta(cfg: Config, rs0: Remotes, rs: Remotes, dir: Path, m: string, no: nat, x: string)
    requires NamesLawful(cfg) && AllBut(cfg, rs0, rs, dir, m, no, x) && MetaOf(cfg, rs0, dir, m).None?
    requires Winner(Seen(cfg, rs), PartPath(cfg, dir, m, no, x)) != Winner(Seen(cfg, rs0), PartPath(cfg, dir, m, no, x))
    ensures ViewOf(cfg, rs, dir, m) == ViewOf(cfg, rs0, dir, m) <==>
      !((Winner(Seen(cfg, rs), PartPath(cfg, dir, m, no, x)).Some? && Dormant(cfg, rs0, dir, m))
        || (x == "" && (IsBaseName(cfg, m) ==> FirstFile(rs0, dir + [m]).None?)))
  {
    WokenMeta(cfg, rs0, rs, dir, m, no, x);
    PartsShift(cfg, rs0, rs, dir, m, no, x);
    if IsBaseName(cfg, m) { AgreeFirst(rs0, rs, dir + [m]); }
    if x != "" { OtherXactSame(cfg, rs0, rs, dir, m, no, x, ""); }
    hide NamesLawful, Parts, Agree, AnyPart, MetaOf, Winner, PartPath, AllBut, FirstFile, FirstData, Seen;
  }

  /** Metadata appears exactly if the chunk does and woke it. */
  lemma WokenMeta(cfg: Config, rs0: Remotes, rs: Remotes, dir: Path, m: string, no: nat, x: string)
    requires NamesLawful(cfg) && AllBut(cfg, rs0, rs, dir, m, no, x) && MetaOf(cfg, rs0, dir, m).None?
    requires Winner(Seen(cfg, rs), PartPath(cfg, dir, m, no, x)) != Winner(Seen(cfg, rs0), PartPath(cfg, dir, m, no, x))
    ensures MetaOf(cfg, rs, dir, m).Some? <==>
      Winner(Seen(cfg, rs), PartPath(cfg, dir, m, no, x)).Some? && Dormant(cfg, rs0, dir, m)
    ensures Dormant(cfg, rs0, dir, m) ==> IsBaseName(cfg, m) && FirstFile(rs0, dir + [m]).Some?
  {
    hide Seen, PartPath, FirstFile, FirstData;
    OtherPartStays(cfg, rs0, rs, dir, m, no, x);
    if IsBaseName(cfg, m) { AgreeFirst(rs0, rs, dir + [m]); }
    hide NamesLawful, Agree, AnyPart, OtherPart, PartPath, AllBut, FirstFile, FirstData, Seen;
  }

  /** The object lists as before exactly if the change of that chunk does not disturb it. */
  lemma ShiftView(cfg: Config, rs0: Remotes, rs: Remotes, dir: Path, name: string)
    requires NamesLawful(cfg) && IsChunkName(cfg, name)
    requires var q := cfg.parse(name); AllBut(cfg, rs0, rs, dir, q.main, q.no, q.xact)
    ensures ViewOf(cfg, rs, dir, cfg.parse(name).main) == ViewOf(cfg, rs0, dir, cfg.parse(name).main)
       <==> !Disturbs(cfg, rs0, dir, name, ChunkWinner(cfg, rs, dir, name))
  {
    var q := cfg.parse(name);
    var m, no, x := q.main, q.no as nat, q.xact;
    ChunkNameFacts(cfg, dir, name);
    assert PartPath(cfg, dir, m, no, x) == dir + [Canon(cfg, name)];
    hide Seen, Canon;
    if ChunkWinner(cfg, rs, dir, name) == ChunkWinner(cfg, rs0, dir, name) {
      SameWinner(Seen(cfg, rs0), Seen(cfg, rs), dir + [Canon(cfg, name)]);
      SameViewOf(cfg, rs0, rs, dir, m, no, x);
    } else {
      hide NamesLawful, ViewOf, OtherPart, PartPath, AllBut;
      if MetaOf(cfg, rs0, dir, m).Some? {
        ShiftWithMeta(cfg, rs0, rs, dir, m, no, x);
      } else {
        ShiftWithoutMeta(cfg, rs0, rs, dir, m, no, x);
      }
    }
  }

  lemma SameMeta(cfg: Config, rs0: Remotes, rs: Remotes, dir: Path, m: string)
    requires (IsBaseName(cfg, m) ==> Agree(rs0, rs, dir + [m])) && (AnyPart(cfg, rs, dir, m) <==> AnyPart(cfg, rs0, dir, m))
    ensures MetaOf(cfg, rs, dir, m) == MetaOf(cfg, rs0, dir, m)
    ensures IsBaseName(cfg, m) ==>
      FirstFile(rs, dir + [m]) == FirstFile(rs0, dir + [m]) && FirstData(rs, dir + [m]) == FirstData(rs0, dir + [m])
  {
    if IsBaseName(cfg, m) { AgreeFirst(rs0, rs, dir + [m]); }
    hide Agree, AnyPart, FirstFile, FirstData;
  }

  /** The same winner everywhere, the same view. */
  lemma SameViewOf(cfg: Config, rs0: Remotes, rs: Remotes, dir: Path, m: string, no: nat, x: string)
    requires NamesLawful(cfg) && AllBut(cfg, rs0, rs, dir, m, no, x)
    requires var p, a, b := PartPath(cfg, dir, m, no, x), Seen(cfg, rs0), Seen(cfg, rs);
      FirstFile(b, p) == FirstFile(a, p) && FirstData(b, p) == FirstData(a, p)
    ensures ViewOf(cfg, rs, dir, m) == ViewOf(cfg, rs0, dir, m)
  {
    hide Seen, PartPath, FirstFile, FirstData;
    OtherPartStays(cfg, rs0, rs, dir, m, no, x);
    SameMeta(cfg, rs0, rs, dir, m);
    hide NamesLawful, Parts, MetaOf, AnyPart, OtherPart, PartPath, AllBut, FirstFile, FirstData, Seen, Agree;
    SamePartsOf(cfg, rs0, rs, dir, m, no, x, "");
    if MetaOf(cfg, rs0, dir, m).Some? {
      SamePartsOf(cfg, rs0, rs, dir, m, no, x, MetaOf(cfg, rs0, dir, m).value.xact);
    }
  }

  lemma SamePartsOf(cfg: Config, rs0: Remotes, rs: Remotes, dir: Path, m: string, no: nat, x: string, y: string)
    requires NamesLawful(cfg) && AllBut(cfg, rs0, rs, dir, m, no, x)
    requires var p, a, b := PartPath(cfg, dir, m, no, x), Seen(cfg, rs0), Seen(cfg, rs);
      FirstFile(b, p) == FirstFile(a, p) && FirstData(b, p) == FirstData(a, p)
    ensures Parts(cfg, rs, dir, m, y) == Parts(cfg, rs0, dir, m, y)
  {
    hide Seen;
    forall k: nat
      ensures PartExists(cfg, rs, dir, m, k, y) <==> PartExists(cfg, rs0, dir, m, k, y)
      ensures PartExists(cfg, rs0, dir, m, k, y) ==> PartOf(cfg, rs, dir, m, y, k) == PartOf(cfg, rs0, dir, m, y, k)
    {
      if IsNumber(cfg, k) && Names.IsXact(y) && (k, y) != (no, x) {
        AgreeFirst(Seen(cfg, rs0), Seen(cfg, rs), PartPath(cfg, dir, m, k, y));
      }
    }
    PartsProperties(cfg, rs0, dir, m, y);
    hide AllBut, PartOf, PartPath;
    forall k: nat | PartExists(cfg, rs, dir, m, k, y)
      ensures exists j :: 0 <= j < |Parts(cfg, rs0, dir, m, y)| && Parts(cfg, rs0, dir, m, y)[j].no == k
    {
      var j := PartsComplete(cfg, rs0, dir, m, y, k);
    }
    hide PartExists, Parts;
    PartsAre(cfg, rs, dir, m, y, Parts(cfg, rs0, dir, m, y));
  }

  /** In a spared state, the object whose chunk `b` spells. */
  lemma SparedSpelled(cfg: Config, rs0: Remotes, rs: Remotes, dir: Path, a: string, b: string)
    requires NamesLawful(cfg) && Spared(cfg, rs0, rs, dir, a, b) && IsChunkName(cfg, b) && cfg.parse(b).main != a
    ensures ViewOf(cfg, rs, dir, cfg.parse(b).main) == ViewOf(cfg, rs0, dir, cfg.parse(b).main)
       <==> !Disturbs(cfg, rs0, dir, b, ChunkWinner(cfg, rs, dir, b))
  {
    var q := cfg.parse(b);
    ChunkNameFacts(cfg, dir, b);
    assert !(dir + [b] <= dir);
    forall i, file | 0 <= i < |rs| && Owned(cfg, dir, q.main, dir + [file]) && cfg.parse(file) != Names.Match(q.main, q.no, "", q.xact)
      ensures FileAt(rs[i], dir + [file]) == FileAt(rs0[i], dir + [file])
    {
      JoinUnique(dir, file, dir, b);
      SparedFile(cfg, rs0, rs, dir, a, b, dir, q.main, i, dir + [file]);
    }
    hide Spared, Disturbs, ViewOf;
    FilesAllBut(cfg, rs0, rs, dir, q.main, q.no, q.xact);
    hide NamesLawful, AllBut;
    ShiftView(cfg, rs0, rs, dir, b);
  }

  // ---- a file written on the primary ----

  /** The file is there, and nothing else differs but files that belong to the name. */
  ghost predicate Landed(cfg: Config, rs0: Remotes, rs: Remotes, dir: Path, name: string, data: Bytes) {
    && |rs| == |rs0| > 0 && FileAt(rs[0], dir + [name]) == Some(data)
    && forall i, p :: 0 <= i < |rs| && !Owned(cfg, dir, name, p) && !(i == 0 && p == dir + [name]) ==>
        FileAt(rs[i], p) == FileAt(rs0[i], p)
  }

  /** The primary does not hold the chunk that the name reads as, if it does, under another spelling. */
  ghost predicate Alone(cfg: Config, rs0: Remotes, dir: Path, name: string) {
    |rs0| > 0 && forall k :: Canon(cfg, k) == Canon(cfg, name) && k != name ==> FileAt(rs0[0], dir + [k]).None?
  }

  /** A file on the primary wins, or another spelling of the same chunk there. */
  lemma WrittenWinner(cfg: Config, rs0: Remotes, rs: Remotes, dir: Path, name: string, data: Bytes)
    requires |rs0| > 0 && |rs| > 0 && FileAt(rs[0], dir + [name]) == Some(data)
    requires forall k :: Canon(cfg, k) == Canon(cfg, name) && k != name ==> FileAt(rs[0], dir + [k]) == FileAt(rs0[0], dir + [k])
    ensures ChunkWinner(cfg, rs, dir, name).Some? && ChunkWinner(cfg, rs, dir, name).value.0 == 0
    ensures Alone(cfg, rs0, dir, name) ==> ChunkWinner(cfg, rs, dir, name) == Some((0, data))
  {
    hide Seen, Canon, Winner;
    var n := SeenSome(cfg, rs, 0, dir, Canon(cfg, name));
    if Alone(cfg, rs0, dir, name) { SeenOnly(cfg, rs, 0, dir, name); }
    FirstWins(Seen(cfg, rs), dir + [Canon(cfg, name)]);
  }

  lemma LandedWinner(cfg: Config, rs0: Remotes, rs: Remotes, dir: Path, name: string, data: Bytes)
    requires NamesLawful(cfg) && Landed(cfg, rs0, rs, dir, name, data) && IsChunkName(cfg, name)
    ensures Alone(cfg, rs0, dir, name) ==> ChunkWinner(cfg, rs, dir, name) == Some((0, data))
  {
    forall k | Canon(cfg, k) == Canon(cfg, name) && k != name
      ensures FileAt(rs[0], dir + [k]) == FileAt(rs0[0], dir + [k])
    {
      OtherSpelling(cfg, rs0, rs, dir, name, data, k);
    }
    WrittenWinner(cfg, rs0, rs, dir, name, data);
  }

  lemma FirstWins(rs: Remotes, p: Path)
    requires |rs| > 0 && FileAt(rs[0], p).Some?
    ensures Winner(rs, p) == Some((0, FileAt(rs[0], p).value))
  {
  }

  lemma OtherSpelling(cfg: Config, rs0: Remotes, rs: Remotes, dir: Path, name: string, data: Bytes, k: string)
    requires NamesLawful(cfg) && Landed(cfg, rs0, rs, dir, name, data) && IsChunkName(cfg, name)
    requires Canon(cfg, k) == Canon(cfg, name) && k != name
    ensures FileAt(rs[0], dir + [k]) == FileAt(rs0[0], dir + [k])
  {
    CanonParses(cfg, k);
    CanonParses(cfg, name);
    WhoseFile(cfg, dir, k, dir, name);
    JoinUnique(dir, k, dir, name);
  }

  lemma LandedBelow(cfg: Config, rs0: Remotes, rs: Remotes, dir: Path, name: string, data: Bytes, d: Path, n: string)
    requires NamesLawful(cfg) && Landed(cfg, rs0, rs, dir, name, data) && dir + [name] <= d
    ensures ViewOf(cfg, rs, d, n) == ViewOf(cfg, rs0, d, n)
  {
    assert |d| >= |dir + [name]|;
    forall i, p | 0 <= i < |rs| && Owned(cfg, d, n, p)
      ensures FileAt(rs[i], p) == FileAt(rs0[i], p)
    {
      assert |p| > |dir + [name]| && !Owned(cfg, dir, name, p);
    }
    hide Landed, Owned;
    ViewFrame(cfg, rs0, rs, d, n);
  }

  /** Every other name lists as before if and only if what now counts as the chunk that the name reads as does
      not disturb its object; that is the file written, unless the primary has another spelling as well. */
  lemma LandedOthers(cfg: Config, rs0: Remotes, rs: Remotes, dir: Path, name: string, data: Bytes)
    requires NamesLawful(cfg) && Landed(cfg, rs0, rs, dir, name, data)
    ensures OthersSame(cfg, rs0, rs, dir, name) <==> !Disturbs(cfg, rs0, dir, name, ChunkWinner(cfg, rs, dir, name))
    ensures Alone(cfg, rs0, dir, name) ==> (OthersSame(cfg, rs0, rs, dir, name) <==> !Intrudes(cfg, rs0, dir, name, data))
  {
    assert Spared(cfg, rs0, rs, dir, name, name);
    if IsChunkName(cfg, name) { LandedWinner(cfg, rs0, rs, dir, name, data); }
    hide Spared, Landed, ViewOf, NamesLawful, Owned, Alone, ChunkWinner;
    forall d, n | (d, n) != (dir, name) && !(IsChunkName(cfg, name) && (d, n) == (dir, cfg.parse(name).main))
      ensures ViewOf(cfg, rs, d, n) == ViewOf(cfg, rs0, d, n)
    {
      if dir + [name] <= d {
        LandedBelow(cfg, rs0, rs, dir, name, data, d, n);
      } else {
        SparedElsewhere(cfg, rs0, rs, dir, name, name, d, n);
      }
    }
    if IsChunkName(cfg, name) {
      ChunkNameFacts(cfg, dir, name);
      SparedSpelled(cfg, rs0, rs, dir, name, name);
    }
  }
}
