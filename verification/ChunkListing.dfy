/**
 listDirObjects: merge the directory listings of all remotes into groups, then turn every group into
 one listed object.  Proved against ViewOf.
 */
module ChunkListing {
  import opened Prelude
  import opened RemoteStore
  import opened ChunkView
  import opened ChunkStates
  import Names = ChunkNames

  /** One entry of a remote's directory: a sub-directory or a file. */
  datatype Entry = Entry(name: string, node: Node)

  datatype FsList = Entries(entries: seq<Entry>) | NotFound | ListError

  /** The base file of a group and the remote it was found on. */
  datatype Located = Located(remote: nat, data: Bytes)

  datatype Group = Group(base: Option<Located>, parts: map<string, map<nat, Part>>)

  type Groups = map<string, Group>

  /** What the listing of a directory reports. */
  datatype Listing = Listing(dirs: set<string>, files: map<string, View>)

  datatype ListResult = Listed(listing: Listing) | ObjectNotFound | Failed

  // ---- one remote ----

  function Children(r: Remote, dir: Path): set<string> {
    set p | p in r && |p| == |dir| + 1 && p[..|dir|] == dir :: p[|dir|]
  }

  predicate IsFile(r: Remote, p: Path) {
    p != [] && p in r && r[p].File?
  }

  predicate IsEntryOf(r: Remote, dir: Path, e: Entry) {
    dir + [e.name] in r && r[dir + [e.name]] == e.node
  }

  predicate Distinct(es: seq<Entry>) {
    forall i, j :: 0 <= i < j < |es| ==> es[i].name != es[j].name
  }

  lemma ChildrenMembers(r: Remote, dir: Path)
    ensures forall n :: n in Children(r, dir) <==> dir + [n] in r
  {
    forall n
      ensures n in Children(r, dir) <==> dir + [n] in r
    {
      assert (dir + [n])[..|dir|] == dir && (dir + [n])[|dir|] == n;
      if n in Children(r, dir) {
        var p :| p in r && |p| == |dir| + 1 && p[..|dir|] == dir && p[|dir|] == n;
        assert p == dir + [n];
      }
    }
  }

  /** fs.List on one remote: the entries of a directory, each once, in whatever order the remote likes.
      It fails if the remote is down or a file stands where the directory is asked for. */
  method ListRemote(r: Remote, dir: Path, down: bool) returns (o: FsList)
    ensures o.ListError? <==> down || IsFile(r, dir)
    ensures o.Entries? <==> !down && IsDir(r, dir)
    ensures o.Entries? ==> Distinct(o.entries)
    ensures o.Entries? ==> forall k :: 0 <= k < |o.entries| ==> IsEntryOf(r, dir, o.entries[k])
    ensures o.Entries? ==> forall n :: dir + [n] in r ==> exists k :: 0 <= k < |o.entries| && o.entries[k].name == n
  {
    if down || IsFile(r, dir) {
      return ListError;
    }
    if !IsDir(r, dir) {
      return NotFound;
    }
    var todo := Children(r, dir);
    ChildrenMembers(r, dir);
    var es: seq<Entry> := [];
    while todo != {}
      invariant todo <= Children(r, dir)
      invariant Distinct(es)
      invariant forall k :: 0 <= k < |es| ==> IsEntryOf(r, dir, es[k]) && es[k].name !in todo
      invariant forall n :: dir + [n] in r ==> n in todo || exists k :: 0 <= k < |es| && es[k].name == n
      decreases |todo|
    {
      var n :| n in todo;
      ghost var was := es;
      es := es + [Entry(n, r[dir + [n]])];
      assert es[|es| - 1].name == n;
      forall q | dir + [q] in r && q !in todo - {n}
        ensures exists k :: 0 <= k < |es| && es[k].name == q
      {
        if q != n {
          var k :| 0 <= k < |was| && was[k].name == q;
          assert es[k].name == q;
        }
      }
      todo := todo - {n};
    }
    return Entries(es);
  }

  // ---- grouping ----

  /** In `r'` every file of the directory lies under its canonical name; of several spellings of one chunk
      one is kept. */
  ghost predicate Respells(cfg: Config, r: Remote, r': Remote, dir: Path) {
    && (forall n :: FileAt(r, dir + [n]).Some? ==> FileAt(r', dir + [Canon(cfg, n)]).Some?)
    && (forall m :: FileAt(r', dir + [m]).Some? ==> exists n :: Canon(cfg, n) == m && FileAt(r, dir + [n]) == FileAt(r', dir + [m]))
  }

  ghost predicate Respelled(cfg: Config, rs: Remotes, named: Remotes, dir: Path) {
    |named| == |rs| && forall i :: 0 <= i < |rs| ==> Respells(cfg, rs[i], named[i], dir)
  }

  /** No remote spells a chunk in two ways. */
  ghost predicate OneSpelling(cfg: Config, rs: Remotes, dir: Path) {
    forall i, a, b ::
      0 <= i < |rs| && FileAt(rs[i], dir + [a]).Some? && FileAt(rs[i], dir + [b]).Some? && Canon(cfg, a) == Canon(cfg, b) ==>
        a == b
  }

  /** The part a group has recorded for a transaction and chunk number. */
  function PartIn(g: Groups, name: string, x: string, no: nat): Option<Part> {
    if name in g && x in g[name].parts && no in g[name].parts[x] then Some(g[name].parts[x][no]) else None
  }

  function BaseIn(g: Groups, name: string): Option<Located> {
    if name in g then g[name].base else None
  }

  function BaseOf(cfg: Config, rs: Remotes, dir: Path, name: string): Option<Located> {
    if IsBaseName(cfg, name) && FirstFile(rs, dir + [name]).Some? then
      Some(Located(FirstFile(rs, dir + [name]).value, FirstData(rs, dir + [name])))
    else None
  }

  ghost function PartFor(cfg: Config, rs: Remotes, dir: Path, name: string, x: string, no: nat): Option<Part> {
    if PartExists(cfg, rs, dir, name, no, x) then Some(PartOf(cfg, rs, dir, name, x, no)) else None
  }

  /** No empty groups and no empty transaction maps. */
  ghost predicate Tight(g: Groups) {
    && (forall n :: n in g ==> g[n].base.Some? || g[n].parts != map[])
    && (forall n, x :: n in g && x in g[n].parts ==> g[n].parts[x] != map[])
  }

  /** The same for a directory with canonical names. */
  lemma PartForCanonical(cfg: Config, rs: Remotes, dir: Path, name: string, x: string, no: nat)
    requires NamesLawful(cfg) && Canonical(cfg, rs, dir)
    ensures var p := PartPath(cfg, dir, name, no, x);
      PartFor(cfg, rs, dir, name, x, no) ==
        if Names.PlainName(name) && IsNumber(cfg, no) && Names.IsXact(x) && FirstFile(rs, p).Some? then
          Some(Part(no, FirstFile(rs, p).value, x, FirstData(rs, p)))
        else None
  {
    CanonicalSeen(cfg, rs, dir, cfg.make(name, no, x));
    AgreeFirst(Seen(cfg, rs), rs, PartPath(cfg, dir, name, no, x));
    hide Seen;
  }

  /** The groups record exactly the winning base files and chunks of the remotes seen, whose names are canonical. */
  ghost predicate Match(cfg: Config, rs: Remotes, dir: Path, g: Groups) {
    && Canonical(cfg, rs, dir)
    && (forall n :: BaseIn(g, n) == BaseOf(cfg, rs, dir, n))
    && (forall n, x, no: nat :: PartIn(g, n, x, no) == PartFor(cfg, rs, dir, n, x, no))
    && Tight(g)
  }

  /** One file entry, as the inner loop of listDirObjects handles it. */
  function AddEntry(cfg: Config, g: Groups, remote: nat, n: string, data: Bytes): Groups {
    var p := cfg.parse(n);
    if p.NoMatch? then
      var group := if n in g then g[n] else Group(None, map[]);
      if group.base.None? || remote < group.base.value.remote then g[n := group.(base := Some(Located(remote, data)))]
      else g[n := group]
    else if p.no < 0 || p.ctrl != "" then g
    else
      var group := if p.main in g then g[p.main] else Group(None, map[]);
      var ps := if p.xact in group.parts then group.parts[p.xact] else map[];
      var part := Part(p.no, remote, p.xact, data);
      var ps' := if p.no !in ps || remote < ps[p.no].remote then ps[p.no := part] else ps;
      g[p.main := group.(parts := group.parts[p.xact := ps'])]
  }

  /** A new file on the last remote seen: it wins only where nothing was. */
  lemma FirstFileGrows(rs: Remotes, r: Remote, p: Path, data: Bytes, q: Path)
    requires |rs| > 0 && rs[|rs| - 1] == r && p !in r
    ensures var rs' := rs[..|rs| - 1] + [r[p := File(data)]];
      && FirstFile(rs', q) ==
           (if q == p && FirstFile(rs, p).None? then Some(|rs| - 1) else FirstFile(rs, q))
      && FirstData(rs', q) ==
           (if q == p && FirstFile(rs, p).None? then data else FirstData(rs, q))
  {
    var rs' := rs[..|rs| - 1] + [r[p := File(data)]];
    assert rs'[..|rs| - 1] == rs[..|rs| - 1];
    assert rs' [|rs| - 1] == r[p := File(data)];
  }

  lemma CanonicalGrows(cfg: Config, rs: Remotes, r: Remote, dir: Path, n: string, data: Bytes)
    requires |rs| > 0 && rs[|rs| - 1] == r && Canonical(cfg, rs, dir) && CanonicalName(cfg, n)
    ensures Canonical(cfg, rs[..|rs| - 1] + [r[dir + [n] := File(data)]], dir)
  {
    assert AllCanonical(cfg, r, dir);
    assert (dir + [n])[|dir|] == n;
    forall m | FileAt(r[dir + [n] := File(data)], dir + [m]).Some?
      ensures CanonicalName(cfg, m)
    {
      assert (dir + [m])[|dir|] == m;
    }
  }

  lemma BaseStep(cfg: Config, rs: Remotes, r: Remote, dir: Path, g: Groups, n: string, data: Bytes, m: string)
    requires |rs| > 0 && rs[|rs| - 1] == r && dir + [n] !in r
    requires BaseIn(g, m) == BaseOf(cfg, rs, dir, m) && IsBaseName(cfg, n)
    ensures BaseIn(AddEntry(cfg, g, |rs| - 1, n, data), m)
         == BaseOf(cfg, rs[..|rs| - 1] + [r[dir + [n] := File(data)]], dir, m)
  {
    FirstFileGrows(rs, r, dir + [n], data, dir + [m]);
    assert (dir + [m])[|dir|] == m && (dir + [n])[|dir|] == n;
  }

  /** A file whose name is no chunk name adds no chunk. */
  lemma PartsStay(cfg: Config, rs: Remotes, r: Remote, dir: Path, n: string, data: Bytes, m: string, x: string, no: nat)
    requires NamesLawful(cfg) && |rs| > 0 && rs[|rs| - 1] == r && dir + [n] !in r
    requires (cfg.parse(n).NoMatch? || cfg.parse(n).ctrl != "" || cfg.parse(n).no < 0) && Canonical(cfg, rs, dir)
    ensures PartFor(cfg, rs[..|rs| - 1] + [r[dir + [n] := File(data)]], dir, m, x, no) == PartFor(cfg, rs, dir, m, x, no)
  {
    CanonicalGrows(cfg, rs, r, dir, n, data);
    PartForCanonical(cfg, rs, dir, m, x, no);
    PartForCanonical(cfg, rs[..|rs| - 1] + [r[dir + [n] := File(data)]], dir, m, x, no);
    hide PartFor, Canonical;
    if Names.PlainName(m) && IsNumber(cfg, no) && Names.IsXact(x) {
      var p := PartPath(cfg, dir, m, no, x);
      assert p[|dir|] == cfg.make(m, no, x) && (dir + [n])[|dir|] == n;
      FirstFileGrows(rs, r, dir + [n], data, p);
    }
  }

  /** A file whose name is a chunk name adds no base. */
  lemma BasesStay(cfg: Config, rs: Remotes, r: Remote, dir: Path, n: string, data: Bytes, m: string)
    requires |rs| > 0 && rs[|rs| - 1] == r && dir + [n] !in r && !IsBaseName(cfg, n)
    ensures BaseOf(cfg, rs[..|rs| - 1] + [r[dir + [n] := File(data)]], dir, m) == BaseOf(cfg, rs, dir, m)
  {
    FirstFileGrows(rs, r, dir + [n], data, dir + [m]);
    assert (dir + [m])[|dir|] == m && (dir + [n])[|dir|] == n;
  }

  lemma AddBase(cfg: Config, rs: Remotes, r: Remote, dir: Path, g: Groups, n: string, data: Bytes)
    requires NamesLawful(cfg) && |rs| > 0 && rs[|rs| - 1] == r && dir + [n] !in r
    requires Match(cfg, rs, dir, g) && IsBaseName(cfg, n)
    ensures Match(cfg, rs[..|rs| - 1] + [r[dir + [n] := File(data)]], dir, AddEntry(cfg, g, |rs| - 1, n, data))
  {
    var rs' := rs[..|rs| - 1] + [r[dir + [n] := File(data)]];
    var g' := AddEntry(cfg, g, |rs| - 1, n, data);
    assert forall m, x, no: nat :: PartIn(g', m, x, no) == PartIn(g, m, x, no);
    assert Tight(g');
    CanonicalGrows(cfg, rs, r, dir, n, data);
    hide AddEntry, NamesLawful, PartIn, BaseIn, BaseOf, PartFor, Canonical;
    forall m
      ensures BaseIn(g', m) == BaseOf(cfg, rs', dir, m)
    {
      BaseStep(cfg, rs, r, dir, g, n, data, m);
    }
    forall m, x, no: nat
      ensures PartIn(g', m, x, no) == PartFor(cfg, rs', dir, m, x, no)
    {
      PartsStay(cfg, rs, r, dir, n, data, m, x, no);
    }
  }

  lemma AddPart(cfg: Config, rs: Remotes, r: Remote, dir: Path, g: Groups, n: string, data: Bytes)
    requires NamesLawful(cfg) && |rs| > 0 && rs[|rs| - 1] == r && dir + [n] !in r
    requires Match(cfg, rs, dir, g) && CanonicalName(cfg, n)
    requires cfg.parse(n).Match? && cfg.parse(n).ctrl == "" && cfg.parse(n).no >= 0
    ensures Match(cfg, rs[..|rs| - 1] + [r[dir + [n] := File(data)]], dir, AddEntry(cfg, g, |rs| - 1, n, data))
  {
    var rs' := rs[..|rs| - 1] + [r[dir + [n] := File(data)]];
    var g' := AddEntry(cfg, g, |rs| - 1, n, data);
    var q := cfg.parse(n);
    CanonicalGrows(cfg, rs, r, dir, n, data);
    hide PartFor, Canonical;
    forall m
      ensures BaseIn(g', m) == BaseOf(cfg, rs', dir, m)
    {
      BasesStay(cfg, rs, r, dir, n, data, m);
      assert BaseIn(g, m) == BaseOf(cfg, rs, dir, m);
    }
    forall m, x, no: nat
      ensures PartIn(g', m, x, no) == PartFor(cfg, rs', dir, m, x, no)
    {
      PartStep(cfg, rs, r, dir, g, n, data, m, x, no);
    }
    assert g'[q.main].parts[q.xact] != map[];
    assert Tight(g');
  }

  /** A chunk entry replaces a recorded part exactly if that lies on a later remote. */
  lemma AddedPart(cfg: Config, g: Groups, remote: nat, n: string, data: Bytes)
    requires IsChunkName(cfg, n)
    ensures var q := cfg.parse(n); var before := PartIn(g, q.main, q.xact, q.no);
      PartIn(AddEntry(cfg, g, remote, n, data), q.main, q.xact, q.no)
      == if before.Some? && before.value.remote <= remote then before else Some(Part(q.no, remote, q.xact, data))
  {
  }

  /** Every other part stays. */
  lemma OtherParts(cfg: Config, g: Groups, remote: nat, n: string, data: Bytes, m: string, x: string, no: nat)
    requires IsChunkName(cfg, n) && (m, x, no) != (cfg.parse(n).main, cfg.parse(n).xact, cfg.parse(n).no)
    ensures PartIn(AddEntry(cfg, g, remote, n, data), m, x, no) == PartIn(g, m, x, no)
  {
  }

  /** The chunk that the new file spells. */
  lemma PartStepHere(cfg: Config, rs: Remotes, r: Remote, dir: Path, g: Groups, n: string, data: Bytes)
    requires NamesLawful(cfg) && |rs| > 0 && rs[|rs| - 1] == r && dir + [n] !in r
    requires Match(cfg, rs, dir, g) && CanonicalName(cfg, n) && IsChunkName(cfg, n)
    ensures var q := cfg.parse(n);
      PartIn(AddEntry(cfg, g, |rs| - 1, n, data), q.main, q.xact, q.no)
      == PartFor(cfg, rs[..|rs| - 1] + [r[dir + [n] := File(data)]], dir, q.main, q.xact, q.no)
  {
    var q := cfg.parse(n);
    assert PartIn(g, q.main, q.xact, q.no) == PartFor(cfg, rs, dir, q.main, q.xact, q.no);
    var p := dir + [n];
    assert PartPath(cfg, dir, q.main, q.no, q.xact) == p;
    assert Names.PlainName(q.main) && IsNumber(cfg, q.no) && Names.IsXact(q.xact);
    AddedPart(cfg, g, |rs| - 1, n, data);
    FirstFileGrows(rs, r, p, data, p);
    CanonicalGrows(cfg, rs, r, dir, n, data);
    PartForCanonical(cfg, rs, dir, q.main, q.xact, q.no);
    PartForCanonical(cfg, rs[..|rs| - 1] + [r[dir + [n] := File(data)]], dir, q.main, q.xact, q.no);
    hide Match, NamesLawful, PartFor, Canonical, FirstFile, FirstData, PartPath, AddEntry, PartIn, IsNumber;
  }

  /** Every other chunk. */
  lemma PartStepElse(cfg: Config, rs: Remotes, r: Remote, dir: Path, g: Groups, n: string, data: Bytes,
                     m: string, x: string, no: nat)
    requires NamesLawful(cfg) && |rs| > 0 && rs[|rs| - 1] == r && dir + [n] !in r
    requires Match(cfg, rs, dir, g) && CanonicalName(cfg, n)
    requires cfg.parse(n).Match? && cfg.parse(n).ctrl == "" && cfg.parse(n).no >= 0
    requires (m, x, no) != (cfg.parse(n).main, cfg.parse(n).xact, cfg.parse(n).no)
    ensures PartIn(AddEntry(cfg, g, |rs| - 1, n, data), m, x, no)
         == PartFor(cfg, rs[..|rs| - 1] + [r[dir + [n] := File(data)]], dir, m, x, no)
  {
    hide AddEntry, PartIn, PartFor, Canonical, FirstFile, FirstData;
    assert PartIn(g, m, x, no) == PartFor(cfg, rs, dir, m, x, no);
    OtherParts(cfg, g, |rs| - 1, n, data, m, x, no);
    CanonicalGrows(cfg, rs, r, dir, n, data);
    hide Match;
    PartForCanonical(cfg, rs, dir, m, x, no);
    PartForCanonical(cfg, rs[..|rs| - 1] + [r[dir + [n] := File(data)]], dir, m, x, no);
    if Names.PlainName(m) && IsNumber(cfg, no) && Names.IsXact(x) {
      var p := PartPath(cfg, dir, m, no, x);
      assert p[|dir|] == cfg.make(m, no, x) && (dir + [n])[|dir|] == n;
      FirstFileGrows(rs, r, dir + [n], data, p);
    }
  }

  lemma PartStep(cfg: Config, rs: Remotes, r: Remote, dir: Path, g: Groups, n: string, data: Bytes,
                 m: string, x: string, no: nat)
    requires NamesLawful(cfg) && |rs| > 0 && rs[|rs| - 1] == r && dir + [n] !in r
    requires Match(cfg, rs, dir, g) && CanonicalName(cfg, n)
    requires cfg.parse(n).Match? && cfg.parse(n).ctrl == "" && cfg.parse(n).no >= 0
    ensures PartIn(AddEntry(cfg, g, |rs| - 1, n, data), m, x, no)
         == PartFor(cfg, rs[..|rs| - 1] + [r[dir + [n] := File(data)]], dir, m, x, no)
  {
    hide Match, AddEntry, PartIn, PartFor, NamesLawful, CanonicalName;
    if (m, x, no) == (cfg.parse(n).main, cfg.parse(n).xact, cfg.parse(n).no) {
      PartStepHere(cfg, rs, r, dir, g, n, data);
    } else {
      PartStepElse(cfg, rs, r, dir, g, n, data, m, x, no);
    }
  }

  /** A control chunk file is nobody's base and nobody's data chunk. */
  lemma AddSkipped(cfg: Config, rs: Remotes, r: Remote, dir: Path, g: Groups, n: string, data: Bytes)
    requires NamesLawful(cfg) && |rs| > 0 && rs[|rs| - 1] == r && dir + [n] !in r
    requires Match(cfg, rs, dir, g)
    requires cfg.parse(n).Match? && (cfg.parse(n).ctrl != "" || cfg.parse(n).no < 0)
    ensures Match(cfg, rs[..|rs| - 1] + [r[dir + [n] := File(data)]], dir, g)
  {
    var rs' := rs[..|rs| - 1] + [r[dir + [n] := File(data)]];
    CanonicalGrows(cfg, rs, r, dir, n, data);
    hide PartFor, Canonical;
    forall m
      ensures BaseIn(g, m) == BaseOf(cfg, rs', dir, m)
    {
      BasesStay(cfg, rs, r, dir, n, data, m);
      assert BaseIn(g, m) == BaseOf(cfg, rs, dir, m);
    }
    forall m, x, no: nat
      ensures PartIn(g, m, x, no) == PartFor(cfg, rs', dir, m, x, no)
    {
      PartsStay(cfg, rs, r, dir, n, data, m, x, no);
      assert PartIn(g, m, x, no) == PartFor(cfg, rs, dir, m, x, no);
    }
  }

  /** Match looks only at the files directly inside `dir`. */
  lemma MatchFrame(cfg: Config, rs: Remotes, rs': Remotes, dir: Path, g: Groups)
    requires NamesLawful(cfg) && Match(cfg, rs, dir, g) && Canonical(cfg, rs', dir)
    requires forall n :: FirstFile(rs, dir + [n]) == FirstFile(rs', dir + [n]) && FirstData(rs, dir + [n]) == FirstData(rs', dir + [n])
    ensures Match(cfg, rs', dir, g)
  {
    forall m, x, no: nat
      ensures PartIn(g, m, x, no) == PartFor(cfg, rs', dir, m, x, no)
    {
      assert PartIn(g, m, x, no) == PartFor(cfg, rs, dir, m, x, no);
      PartForCanonical(cfg, rs, dir, m, x, no);
      PartForCanonical(cfg, rs', dir, m, x, no);
      assert PartPath(cfg, dir, m, no, x) == dir + [cfg.make(m, no, x)];
    }
    forall m
      ensures BaseIn(g, m) == BaseOf(cfg, rs', dir, m)
    {
      assert BaseIn(g, m) == BaseOf(cfg, rs, dir, m);
    }
  }

  lemma AddRemote(rs: Remotes, p: Path)
    ensures FirstFile(rs + [map[]], p) == FirstFile(rs, p) && FirstData(rs + [map[]], p) == FirstData(rs, p)
  {
    assert (rs + [map[]])[..|rs|] == rs;
  }

  /** One more entry of the directory; the first of several spellings of a chunk stays. */
  function Enter(cfg: Config, seen: Remote, dir: Path, e: Entry): Remote {
    var p := dir + [Canon(cfg, e.name)];
    if e.node.Dir? || p in seen then seen else seen[p := e.node]
  }

  /** The files among the first `k` entries, under their canonical names. */
  ghost predicate Entered(cfg: Config, seen: Remote, dir: Path, es: seq<Entry>, k: nat) {
    && k <= |es|
    && (forall p :: p in seen ==> seen[p].File?)
    && (forall i :: 0 <= i < k && es[i].node.File? ==> FileAt(seen, dir + [Canon(cfg, es[i].name)]).Some?)
    && (forall m :: FileAt(seen, dir + [m]).Some? ==>
          exists i :: 0 <= i < k && Canon(cfg, es[i].name) == m && es[i].node == File(FileAt(seen, dir + [m]).value))
  }

  lemma EnteredStep(cfg: Config, seen: Remote, dir: Path, es: seq<Entry>, k: nat)
    requires Entered(cfg, seen, dir, es, k) && k < |es|
    ensures Entered(cfg, Enter(cfg, seen, dir, es[k]), dir, es, k + 1)
    ensures SubDirs(es, k + 1) == SubDirs(es, k) + if es[k].node.Dir? then {es[k].name} else {}
  {
    var p := dir + [Canon(cfg, es[k].name)];
    var seen' := Enter(cfg, seen, dir, es[k]);
    hide Canon;
    forall m | FileAt(seen', dir + [m]).Some?
      ensures exists i :: 0 <= i < k + 1 && Canon(cfg, es[i].name) == m && es[i].node == File(FileAt(seen', dir + [m]).value)
    {
      assert (dir + [m])[|dir|] == m && p[|dir|] == Canon(cfg, es[k].name);
      if FileAt(seen, dir + [m]).Some? {
        var i :| 0 <= i < k && Canon(cfg, es[i].name) == m && es[i].node == File(FileAt(seen, dir + [m]).value);
        assert i < k + 1;
      } else {
        assert m == Canon(cfg, es[k].name);
      }
    }
  }

  lemma GroupBegin(cfg: Config, front: Remotes, dir: Path, es: seq<Entry>, g: Groups)
    requires NamesLawful(cfg)
    ensures Entered(cfg, map[], dir, es, 0) && SubDirs(es, 0) == {}
    ensures Match(cfg, front, dir, g) ==> Match(cfg, front + [map[]], dir, g)
  {
    forall n { AddRemote(front, dir + [n]); }
    if Match(cfg, front, dir, g) {
      MatchFrame(cfg, front, front + [map[]], dir, g);
    }
  }

  lemma GroupEnd(cfg: Config, r: Remote, seen: Remote, dir: Path, es: seq<Entry>)
    requires Entered(cfg, seen, dir, es, |es|)
    requires forall k :: 0 <= k < |es| ==> IsEntryOf(r, dir, es[k])
    requires forall n :: dir + [n] in r ==> exists k :: 0 <= k < |es| && es[k].name == n
    ensures Respells(cfg, r, seen, dir)
  {
    hide Canon;
    forall n | FileAt(r, dir + [n]).Some?
      ensures FileAt(seen, dir + [Canon(cfg, n)]).Some?
    {
      var k :| 0 <= k < |es| && es[k].name == n;
      assert IsEntryOf(r, dir, es[k]);
    }
    forall m | FileAt(seen, dir + [m]).Some?
      ensures exists n :: Canon(cfg, n) == m && FileAt(r, dir + [n]) == FileAt(seen, dir + [m])
    {
      var i :| 0 <= i < |es| && Canon(cfg, es[i].name) == m && es[i].node == File(FileAt(seen, dir + [m]).value);
      assert IsEntryOf(r, dir, es[i]);
    }
  }

  function SubDirs(es: seq<Entry>, k: nat): set<string>
    requires k <= |es|
  {
    set i | 0 <= i < k && es[i].node.Dir? :: es[i].name
  }

  /** The inner loop: every entry of one remote's directory goes into the groups or the directory set. */
  method GroupRemote(cfg: Config, ghost front: Remotes, r: Remote, dir: Path, es: seq<Entry>, g0: Groups, dirs0: set<string>,
                     remote: nat) returns (g: Groups, dirs: set<string>, ghost seen: Remote)
    requires NamesLawful(cfg) && remote == |front| && Match(cfg, front, dir, g0)
    requires Distinct(es) && forall k :: 0 <= k < |es| ==> IsEntryOf(r, dir, es[k])
    requires forall n :: dir + [n] in r ==> exists k :: 0 <= k < |es| && es[k].name == n
    ensures dirs == dirs0 + SubDirs(es, |es|)
    ensures Respells(cfg, r, seen, dir) && Match(cfg, front + [seen], dir, g)
  {
    g, dirs, seen := g0, dirs0, map[];
    GroupBegin(cfg, front, dir, es, g);
    hide Match, AddEntry, NamesLawful, Canon, Entered, Enter, Respells, FileAt, SubDirs;
    for k := 0 to |es|
      invariant Entered(cfg, seen, dir, es, k)
      invariant dirs == dirs0 + SubDirs(es, k)
      invariant Match(cfg, front + [seen], dir, g)
    {
      var e := es[k];
      EnteredStep(cfg, seen, dir, es, k);
      AddFile(cfg, front, seen, dir, g, es, k);
      seen := Enter(cfg, seen, dir, e);
      if e.node.Dir? {
        dirs := dirs + {e.name};
      } else {
        g := AddEntry(cfg, g, remote, e.name, e.node.data);
      }
    }
    GroupEnd(cfg, r, seen, dir, es);
  }

  lemma AddFile(cfg: Config, front: Remotes, seen: Remote, dir: Path, g: Groups, es: seq<Entry>, k: nat)
    requires NamesLawful(cfg) && Match(cfg, front + [seen], dir, g) && Entered(cfg, seen, dir, es, k) && k < |es|
    ensures var e := es[k];
      Match(cfg, front + [Enter(cfg, seen, dir, e)], dir,
            if e.node.Dir? then g else AddEntry(cfg, g, |front|, e.name, e.node.data))
  {
    var e := es[k];
    if e.node.File? {
      var n, data := Canon(cfg, e.name), e.node.data;
      CanonParses(cfg, e.name);
      assert AddEntry(cfg, g, |front|, e.name, data) == AddEntry(cfg, g, |front|, n, data);
      hide AddEntry, Match;
      if dir + [n] in seen {
        AddAgain(cfg, front, seen, dir, g, n, data);
      } else {
        AddNew(cfg, front, seen, dir, g, n, data);
      }
    }
  }

  /** A second spelling of a chunk changes nothing. */
  lemma AddAgain(cfg: Config, front: Remotes, seen: Remote, dir: Path, g: Groups, n: string, data: Bytes)
    requires NamesLawful(cfg) && Match(cfg, front + [seen], dir, g) && CanonicalName(cfg, n) && FileAt(seen, dir + [n]).Some?
    ensures AddEntry(cfg, g, |front|, n, data) == g
  {
    var rs, q := front + [seen], cfg.parse(n);
    assert FileAt(rs[|front|], dir + [n]).Some? && FirstFile(rs, dir + [n]).Some?;
    if IsBaseName(cfg, n) {
      assert BaseIn(g, n) == BaseOf(cfg, rs, dir, n);
      hide Match, NamesLawful;
    } else if q.ctrl == "" && q.no >= 0 {
      assert PartPath(cfg, dir, q.main, q.no, q.xact) == dir + [n];
      assert PartIn(g, q.main, q.xact, q.no) == PartFor(cfg, rs, dir, q.main, q.xact, q.no);
      PartForCanonical(cfg, rs, dir, q.main, q.xact, q.no);
      assert Names.PlainName(q.main) && IsNumber(cfg, q.no) && Names.IsXact(q.xact);
      hide Match, NamesLawful, PartFor, FirstFile, FirstData;
      SamePartAgain(cfg, g, |front|, n, data);
    }
  }

  lemma SamePartAgain(cfg: Config, g: Groups, remote: nat, n: string, data: Bytes)
    requires IsChunkName(cfg, n)
    requires var q := cfg.parse(n); var part := PartIn(g, q.main, q.xact, q.no); part.Some? && part.value.remote <= remote
    ensures AddEntry(cfg, g, remote, n, data) == g
  {
    var q := cfg.parse(n);
    var group := g[q.main];
    assert group.parts[q.xact := group.parts[q.xact]] == group.parts;
  }

  lemma AddNew(cfg: Config, front: Remotes, seen: Remote, dir: Path, g: Groups, n: string, data: Bytes)
    requires NamesLawful(cfg) && Match(cfg, front + [seen], dir, g) && CanonicalName(cfg, n) && dir + [n] !in seen
    ensures Match(cfg, front + [seen[dir + [n] := File(data)]], dir, AddEntry(cfg, g, |front|, n, data))
  {
    var rs := front + [seen];
    assert rs[..|rs| - 1] == front;
    if IsBaseName(cfg, n) {
      AddBase(cfg, rs, seen, dir, g, n, data);
    } else if cfg.parse(n).ctrl == "" && cfg.parse(n).no >= 0 {
      AddPart(cfg, rs, seen, dir, g, n, data);
    } else {
      AddSkipped(cfg, rs, seen, dir, g, n, data);
    }
  }

  // ---- from groups to objects ----

  lemma SortedCons(s: set<nat>, least: nat)
    requires least in s && forall k :: k in s ==> least <= k
    ensures Sorted(s) == [least] + Sorted(s - {least})
  {
    assert Least(s) == least;
  }

  method SortNumbers(s: set<nat>) returns (r: seq<nat>)
    ensures r == Sorted(s)
  {
    hide Sorted;
    r := [];
    var left := s;
    while left != {}
      invariant r + Sorted(left) == Sorted(s)
      decreases |left|
    {
      var least := Smallest(left);
      SortedCons(left, least);
      r := r + [least];
      left := left - {least};
    }
    SortedNone();
  }

  lemma SortedNone()
    ensures Sorted({}) == []
  {
  }

  /** sortChunkParts: the parts of one transaction by ascending number. */
  method SortParts(parts: map<nat, Part>) returns (r: seq<Part>)
    ensures |r| == |Sorted(parts.Keys)|
    ensures forall j :: 0 <= j < |r| ==> Sorted(parts.Keys)[j] in parts && r[j] == parts[Sorted(parts.Keys)[j]]
  {
    var nos := SortNumbers(parts.Keys);
    assert forall j :: 0 <= j < |nos| ==> nos[j] in nos;
    r := seq(|nos|, j requires 0 <= j < |nos| => parts[nos[j]]);
  }

  method Smallest(s: set<nat>) returns (m: nat)
    requires s != {}
    ensures m in s && forall k :: k in s ==> m <= k
  {
    m :| m in s;
    var left := s - {m};
    while left != {}
      invariant left <= s && m in s
      invariant forall k :: k in s ==> m <= k || k in left
      decreases |left|
    {
      var k :| k in left;
      if k < m { m := k; }
      left := left - {k};
    }
  }

  /** The sum over a parts list that listedSize needs. */
  method SumSizes(parts: seq<Part>) returns (size: nat)
    ensures size == TotalSize(parts)
  {
    size := 0;
    assert parts[0..] == parts;
    for i := 0 to |parts|
      invariant size + TotalSize(parts[i..]) == TotalSize(parts)
    {
      size := size + |parts[i].data|;
    }
  }

  lemma SortedAreParts(cfg: Config, rs: Remotes, dir: Path, g: Groups, name: string, x: string, r: seq<Part>)
    requires NamesLawful(cfg) && Match(cfg, rs, dir, g) && name in g
    requires var ps := if x in g[name].parts then g[name].parts[x] else map[];
      && |r| == |Sorted(ps.Keys)|
      && forall j :: 0 <= j < |r| ==> Sorted(ps.Keys)[j] in ps && r[j] == ps[Sorted(ps.Keys)[j]]
    ensures r == Parts(cfg, rs, dir, name, x)
  {
    var ps := if x in g[name].parts then g[name].parts[x] else map[];
    PartsOfGroup(cfg, rs, dir, g, name, x);
    PartsByNumber(cfg, rs, dir, name, x);
    hide PartOf, PartNos, Match, PartExists, NamesLawful, Parts, Sorted;
    assert PartNos(cfg, rs, dir, name, x) == ps.Keys;
  }

  lemma PartsOfGroup(cfg: Config, rs: Remotes, dir: Path, g: Groups, name: string, x: string)
    requires NamesLawful(cfg) && Match(cfg, rs, dir, g) && name in g
    ensures var ps := if x in g[name].parts then g[name].parts[x] else map[];
      forall no: nat ::
        && (no in PartNos(cfg, rs, dir, name, x) <==> no in ps)
        && (no in ps ==> ps[no] == PartOf(cfg, rs, dir, name, x, no))
  {
    PartNosMembers(cfg, rs, dir, name, x);
    hide PartOf, PartNos, NamesLawful, PartExists;
    var ps := if x in g[name].parts then g[name].parts[x] else map[];
    forall no: nat
      ensures no in PartNos(cfg, rs, dir, name, x) <==> no in ps
      ensures no in ps ==> ps[no] == PartOf(cfg, rs, dir, name, x, no)
    {
      assert PartIn(g, name, x, no) == PartFor(cfg, rs, dir, name, x, no);
    }
  }

  lemma GroupFacts(cfg: Config, rs: Remotes, dir: Path, g: Groups, name: string)
    requires Match(cfg, rs, dir, g) && name in g
    ensures g[name].base == BaseOf(cfg, rs, dir, name)
    ensures g[name].parts != map[] <==> AnyPart(cfg, rs, dir, name)
    ensures forall x, no :: x in g[name].parts && no in g[name].parts[x] ==> g[name].parts[x][no].no == no
  {
    hide BaseOf, PartExists, Canonical, FirstFile, FirstData;
    assert BaseIn(g, name) == BaseOf(cfg, rs, dir, name);
    if g[name].parts != map[] {
      var x :| x in g[name].parts;
      assert g[name].parts[x] != map[];
      var no :| no in g[name].parts[x];
      assert PartIn(g, name, x, no) == PartFor(cfg, rs, dir, name, x, no);
      assert PartExists(cfg, rs, dir, name, no, x);
    }
    if AnyPart(cfg, rs, dir, name) {
      var no, x :| PartExists(cfg, rs, dir, name, no, x);
      assert PartIn(g, name, x, no) == PartFor(cfg, rs, dir, name, x, no);
    }
    forall x, no | x in g[name].parts && no in g[name].parts[x]
      ensures g[name].parts[x][no].no == no
    {
      assert PartIn(g, name, x, no) == PartFor(cfg, rs, dir, name, x, no);
    }
  }

  /** What a name lists as when the base files of `unread` cannot be read: they count as plain ones,
      whatever chunks there are. */
  ghost function ListedAs(cfg: Config, rs: Remotes, dir: Path, name: string, unread: set<string>): View {
    if name in unread && IsBaseName(cfg, name) && FirstFile(rs, dir + [name]).Some? then
      Plain(FirstFile(rs, dir + [name]).value, FirstData(rs, dir + [name]))
    else ViewOf(cfg, rs, dir, name)
  }

  /** buildListedObject: one group becomes one listed object, or nothing. */
  method BuildListedObject(cfg: Config, ghost rs: Remotes, dir: Path, ghost g: Groups, name: string, group: Group, unread: set<string>)
      returns (v: View)
    requires NamesLawful(cfg) && name in g && group == g[name]
    ensures Match(cfg, rs, dir, g) ==> v == ListedAs(cfg, rs, dir, name, unread)
  {
    var meta := ReadMetadata(cfg, rs, dir, g, name, group, unread);
    hide Match, AnyPart;
    if meta.None? && group.base.Some? {
      return Plain(group.base.value.remote, group.base.value.data);
    }
    var x := if meta.Some? then meta.value.xact else "";
    var selected := if x in group.parts then group.parts[x] else map[];
    var parts := SortParts(selected);
    if Match(cfg, rs, dir, g) {
      SortedAreParts(cfg, rs, dir, g, name, x, parts);
    }
    hide Parts, FirstFile, FirstData, PartOf;
    if meta.Some? {
      return Chunked(meta.value.size, group.base.value.remote, meta, parts);
    }
    if parts == [] {
      return Absent;
    }
    var size := SumSizes(parts);
    return Chunked(size, 0, None, parts);
  }

  /** readMetadata, if the base file is small, some chunk exists, and the file can be read. */
  method ReadMetadata(cfg: Config, ghost rs: Remotes, dir: Path, ghost g: Groups, name: string, group: Group, unread: set<string>)
      returns (meta: Option<Meta>)
    requires NamesLawful(cfg) && name in g && group == g[name]
    ensures Match(cfg, rs, dir, g) ==>
      && meta == (if name in unread then None else MetaOf(cfg, rs, dir, name))
      && group.base == BaseOf(cfg, rs, dir, name)
    ensures group.base.None? ==> meta.None?
  {
    if Match(cfg, rs, dir, g) {
      GroupFacts(cfg, rs, dir, g, name);
    }
    hide Match, AnyPart;
    meta := None;
    if group.base.Some? && |group.base.value.data| <= MAX_META_READ && group.parts != map[] {
      meta := if name !in unread then cfg.unmarshal(group.base.value.data) else None;
    }
  }

  lemma UngroupedIsAbsent(cfg: Config, rs: Remotes, dir: Path, g: Groups, name: string, unread: set<string>)
    requires NamesLawful(cfg) && Match(cfg, rs, dir, g) && name !in g
    ensures ListedAs(cfg, rs, dir, name, unread) == Absent
  {
    assert BaseIn(g, name) == BaseOf(cfg, rs, dir, name);
    PartNosMembers(cfg, rs, dir, name, "");
    forall no: nat, x
      ensures !PartExists(cfg, rs, dir, name, no, x)
    {
      assert PartIn(g, name, x, no) == PartFor(cfg, rs, dir, name, x, no);
    }
    assert PartNos(cfg, rs, dir, name, "") == {};
  }

  // ---- the whole listing ----

  /** What a listing of `dir` must report when the base files of `unread` cannot be read and the files are
      called as in `named`. */
  ghost predicate IsListingAs(cfg: Config, rs: Remotes, named: Remotes, dir: Path, unread: set<string>, l: Listing) {
    && (forall n :: n in l.dirs <==> HasSubDir(rs, dir, n))
    && (forall n :: n in l.files <==> ListedAs(cfg, named, dir, n, unread) != Absent)
    && (forall n :: n in l.files ==> l.files[n] == ListedAs(cfg, named, dir, n, unread))
  }

  ghost predicate IsListing(cfg: Config, rs: Remotes, dir: Path, unread: set<string>, l: Listing) {
    IsListingAs(cfg, rs, rs, dir, unread, l)
  }

  lemma RespelledIsCanonical(cfg: Config, rs: Remotes, named: Remotes, dir: Path)
    requires NamesLawful(cfg) && Respelled(cfg, rs, named, dir)
    ensures Canonical(cfg, named, dir)
  {
    hide Canon;
    forall i, m | 0 <= i < |named| && FileAt(named[i], dir + [m]).Some?
      ensures CanonicalName(cfg, m)
    {
      assert Respells(cfg, rs[i], named[i], dir);
      var n :| Canon(cfg, n) == m && FileAt(rs[i], dir + [n]) == FileAt(named[i], dir + [m]);
      CanonParses(cfg, n);
    }
  }

  /** Where no chunk is spelled in two ways on one remote the respelling is what is seen. */
  lemma SeenRespelled(cfg: Config, rs: Remotes, named: Remotes, dir: Path, m: string)
    requires OneSpelling(cfg, rs, dir) && Respelled(cfg, rs, named, dir)
    ensures Agree(Seen(cfg, rs), named, dir + [m])
  {
    hide Canon, Seen;
    forall i | 0 <= i < |rs|
      ensures FileAt(Seen(cfg, rs)[i], dir + [m]) == FileAt(named[i], dir + [m])
    {
      assert Respells(cfg, rs[i], named[i], dir);
      var n := SeenSome(cfg, rs, i, dir, m);
    }
  }

  lemma RespelledView(cfg: Config, rs: Remotes, named: Remotes, dir: Path, name: string, unread: set<string>)
    requires NamesLawful(cfg) && OneSpelling(cfg, rs, dir) && Respelled(cfg, rs, named, dir)
    ensures ListedAs(cfg, named, dir, name, unread) == ListedAs(cfg, rs, dir, name, unread)
  {
    RespelledIsCanonical(cfg, rs, named, dir);
    assert |named| == |rs|;
    hide OneSpelling, Respelled, Canonical, Seen, ViewOf;
    forall m
      ensures Agree(Seen(cfg, rs), Seen(cfg, named), dir + [m])
    {
      CanonicalSeen(cfg, named, dir, m);
      SeenRespelled(cfg, rs, named, dir, m);
    }
    if IsBaseName(cfg, name) {
      SeenRespelled(cfg, rs, named, dir, name);
      forall i | 0 <= i < |rs|
        ensures FileAt(rs[i], dir + [name]) == FileAt(named[i], dir + [name])
      {
        SeenPlain(cfg, rs, i, dir, name);
      }
      AgreeFirst(rs, named, dir + [name]);
    }
    forall y
      ensures AgreeParts(cfg, rs, named, dir, name, y)
    {
      forall no: nat | IsNumber(cfg, no) && Names.IsXact(y)
        ensures Agree(Seen(cfg, rs), Seen(cfg, named), PartPath(cfg, dir, name, no, y))
      {
        assert PartPath(cfg, dir, name, no, y) == dir + [cfg.make(name, no, y)];
      }
    }
    ViewKept(cfg, rs, named, dir, name);
  }

  /** Unless a remote spells one chunk in two ways the listing is determined, whatever the order of the entries:
      it reports what the names list as. */
  lemma SpellingSettled(cfg: Config, rs: Remotes, named: Remotes, dir: Path, unread: set<string>, l: Listing)
    requires NamesLawful(cfg) && OneSpelling(cfg, rs, dir) && Respelled(cfg, rs, named, dir)
    ensures IsListingAs(cfg, rs, named, dir, unread, l) <==> IsListing(cfg, rs, dir, unread, l)
  {
    forall n
      ensures ListedAs(cfg, named, dir, n, unread) == ListedAs(cfg, rs, dir, n, unread)
    {
      RespelledView(cfg, rs, named, dir, n, unread);
    }
    hide ListedAs, Respelled, OneSpelling, NamesLawful;
  }

  predicate HasSubDir(rs: Remotes, dir: Path, n: string) {
    exists i :: 0 <= i < |rs| && IsSubDir(rs[i], dir, n)
  }

  predicate IsSubDir(r: Remote, dir: Path, n: string) {
    IsDir(r, dir) && dir + [n] in r && r[dir + [n]].Dir?
  }

  /** The first `k` remotes have been merged; `named` are their respellings. */
  ghost predicate Merged(cfg: Config, rs: Remotes, named: Remotes, dir: Path, k: nat, found: bool, dirs: set<string>, g: Groups) {
    && |named| == k <= |rs|
    && (found <==> exists i :: 0 <= i < k && IsDir(rs[i], dir))
    && (forall n :: n in dirs <==> exists i :: 0 <= i < k && IsSubDir(rs[i], dir, n))
    && Respelled(cfg, rs[..k], named, dir) && Match(cfg, named, dir, g)
  }

  lemma MergeStart(cfg: Config, rs: Remotes, dir: Path)
    ensures Merged(cfg, rs, [], dir, 0, false, {}, map[])
  {
    assert rs[..0] == [];
  }

  lemma RespelledOn(cfg: Config, rs: Remotes, named: Remotes, dir: Path, k: nat, r': Remote)
    requires k < |rs| && Respelled(cfg, rs[..k], named, dir) && Respells(cfg, rs[k], r', dir)
    ensures Respelled(cfg, rs[..k + 1], named + [r'], dir)
  {
    hide Respells;
  }

  lemma MergeMissing(cfg: Config, rs: Remotes, named: Remotes, dir: Path, k: nat, found: bool, dirs: set<string>, g: Groups)
    requires NamesLawful(cfg) && Merged(cfg, rs, named, dir, k, found, dirs, g) && k < |rs| && !IsDir(rs[k], dir)
    requires forall n :: FileAt(rs[k], dir + [n]).None?
    ensures Merged(cfg, rs, named + [map[]], dir, k + 1, found, dirs, g)
  {
    RespelledOn(cfg, rs, named, dir, k, map[]);
    GroupBegin(cfg, named, dir, [], g);
    hide Match, Respelled;
  }

  lemma MergeFound(cfg: Config, rs: Remotes, named: Remotes, dir: Path, k: nat, found: bool, dirs: set<string>, g: Groups,
                   es: seq<Entry>, dirs': set<string>, g': Groups, seen: Remote)
    requires Merged(cfg, rs, named, dir, k, found, dirs, g) && k < |rs| && IsDir(rs[k], dir)
    requires forall i :: 0 <= i < |es| ==> IsEntryOf(rs[k], dir, es[i])
    requires forall n :: dir + [n] in rs[k] ==> exists i :: 0 <= i < |es| && es[i].name == n
    requires dirs' == dirs + SubDirs(es, |es|)
    requires Respells(cfg, rs[k], seen, dir) && Match(cfg, named + [seen], dir, g')
    ensures Merged(cfg, rs, named + [seen], dir, k + 1, true, dirs', g')
  {
    RespelledOn(cfg, rs, named, dir, k, seen);
    hide Match, Respelled, Respells;
    forall n
      ensures n in SubDirs(es, |es|) <==> IsSubDir(rs[k], dir, n)
    {
      if IsSubDir(rs[k], dir, n) {
        var i :| 0 <= i < |es| && es[i].name == n;
        assert IsEntryOf(rs[k], dir, es[i]);
      }
    }
    forall n
      ensures n in dirs' <==> exists i :: 0 <= i < k + 1 && IsSubDir(rs[i], dir, n)
    {
      if n in dirs {
        var i :| 0 <= i < k && IsSubDir(rs[i], dir, n);
        assert i < k + 1;
      }
    }
  }

  /** listDirObjects.  Remotes without the directory are skipped; a remote that is down or has a file in
      its place is an error; if no remote has it and it is not the root, it does not exist.  Every chunk file
      counts as the chunk it reads as, however it is spelled; of two spellings of one chunk on one remote the
      first that the remote lists counts. */
  method ListDirObjects(cfg: Config, rs: Remotes, dir: Path, down: set<nat>, unread: set<string>)
      returns (r: ListResult, ghost named: Remotes)
    requires NamesLawful(cfg) && ParentsExist(rs)
    ensures r.Failed? <==> exists i: nat :: i < |rs| && (i in down || (dir != [] && FileAt(rs[i], dir).Some?))
    ensures r.ObjectNotFound? <==> !r.Failed? && dir != [] && forall i :: 0 <= i < |rs| ==> !IsDir(rs[i], dir)
    ensures r.Listed? ==> Respelled(cfg, rs, named, dir) && IsListingAs(cfg, rs, named, dir, unread, r.listing)
    ensures r.Listed? && OneSpelling(cfg, rs, dir) ==> IsListing(cfg, rs, dir, unread, r.listing)
  {
    named := [];
    var g: Groups, dirs: set<string>, found := map[], {}, false;
    MergeStart(cfg, rs, dir);
    hide Match, Respelled, Respells, NamesLawful, ListedAs, OneSpelling, SubDirs;
    for k := 0 to |rs|
      invariant Merged(cfg, rs, named, dir, k, found, dirs, g)
      invariant forall i: nat :: i < k ==> i !in down && !IsFile(rs[i], dir)
    {
      var entries := ListRemote(rs[k], dir, k in down);
      if entries.ListError? {
        r := Failed;
        return;
      }
      if entries.NotFound? {
        MergeMissing(cfg, rs, named, dir, k, found, dirs, g);
        named := named + [map[]];
        continue;
      }
      var g', dirs', seen := GroupRemote(cfg, named, rs[k], dir, entries.entries, g, dirs, k);
      MergeFound(cfg, rs, named, dir, k, found, dirs, g, entries.entries, dirs', g', seen);
      g, dirs, found, named := g', dirs', true, named + [seen];
    }
    if !found && dir != [] {
      r := ObjectNotFound;
      return;
    }
    assert rs[..|rs|] == rs;
    var files := BuildAll(cfg, named, dir, g, unread);
    r := Listed(Listing(dirs, files));
    if OneSpelling(cfg, rs, dir) { SpellingSettled(cfg, rs, named, dir, unread, r.listing); }
  }

  /** The last loop: keep the groups that list as something. */
  method BuildAll(cfg: Config, ghost rs: Remotes, dir: Path, g: Groups, unread: set<string>) returns (files: map<string, View>)
    requires NamesLawful(cfg)
    ensures Match(cfg, rs, dir, g) ==>
      && (forall n :: n in files <==> ListedAs(cfg, rs, dir, n, unread) != Absent)
      && (forall n :: n in files ==> files[n] == ListedAs(cfg, rs, dir, n, unread))
  {
    files := map[];
    var left := g.Keys;
    while left != {}
      invariant left <= g.Keys
      invariant Match(cfg, rs, dir, g) ==>
        && (forall n :: n in files <==> n in g.Keys - left && ListedAs(cfg, rs, dir, n, unread) != Absent)
        && (forall n :: n in files ==> files[n] == ListedAs(cfg, rs, dir, n, unread))
      decreases |left|
    {
      var n :| n in left;
      left := left - {n};
      var v := BuildListedObject(cfg, rs, dir, g, n, g[n], unread);
      if v != Absent {
        files := files[n := v];
      }
    }
    if Match(cfg, rs, dir, g) {
      forall n | n !in g
        ensures ListedAs(cfg, rs, dir, n, unread) == Absent
      {
        UngroupedIsAbsent(cfg, rs, dir, g, n, unread);
      }
    }
  }
}
