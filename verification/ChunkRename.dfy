/** Rename of a file object: the chunks first, the metadata last.  Only a finished run is safe. */
module ChunkRename {
  import opened Prelude
  import opened RemoteStore
  import opened RemoteOps
  import opened ChunkView
  import opened ChunkStates
  import opened ChunkUpload
  import opened BaseWrite
  import opened Mirror
  import opened TransferViews
  import Names = ChunkNames

  /** A file of the old name and what it is called under the new one. */
  datatype Item = Item(no: nat, xact: string, remote: nat, base: bool)

  /** The renames to be done inside one directory. */
  datatype Renaming = Renaming(cfg: Config, rs0: Remotes, dir: Path, name: string, newName: string, items: seq<Item>) {

    function PathOf(n: string, it: Item): Path {
      if it.base then dir + [n] else PartPath(cfg, dir, n, it.no, it.xact)
    }

    predicate Exists(it: Item) {
      it.remote < |rs0| && FileAt(rs0[it.remote], PathOf(name, it)).Some?
    }

    /** A file of the old name, or where one would be: not even a directory is there. */
    predicate IsItem(it: Item) {
      && it.remote < |rs0| && (Exists(it) || PathOf(name, it) !in rs0[it.remote])
      && (it.base ==> (it.no, it.xact) == (0, ""))
      && (!it.base ==> IsNumber(cfg, it.no) && Names.IsXact(it.xact))
    }

    /** A name under which the file is found again: a base file's is not a chunk name, a chunk's is one line. */
    predicate Keeps(n: string, it: Item) {
      if it.base then IsBaseName(cfg, n) else Names.PlainName(n)
    }

    /** Distinct files of the old name, the base file last.  The new name of a base file may be any. */
    ghost predicate Sound() {
      && NamesLawful(cfg) && name != newName
      && (forall i, j :: 0 <= i < j < |items| ==> items[i] != items[j])
      && (forall j :: 0 <= j < |items| - 1 ==> !items[j].base)
      && (forall it :: it in items ==> IsItem(it) && Keeps(name, it) && (!it.base ==> Names.PlainName(newName)))
    }

    /** Which item of remote `i` a path of name `n` spells, if any. */
    function ItemAt(n: string, i: nat, p: Path): Option<Item> {
      if |p| != |dir| + 1 || p[..|dir|] != dir then None
      else if p[|dir|] == n then Some(Item(0, "", i, true))
      else
        var q := cfg.parse(p[|dir|]);
        if q.Match? && q.ctrl == "" && q.main == n && q.no >= 0 && p[|dir|] == cfg.make(n, q.no, q.xact) then
          Some(Item(q.no, q.xact, i, false))
        else None
    }

    lemma ItemPaths(n: string, it: Item)
      requires Sound()
      requires it.base ==> (it.no, it.xact) == (0, "")
      requires !it.base ==> Names.PlainName(n) && IsNumber(cfg, it.no) && Names.IsXact(it.xact)
      ensures ItemAt(n, it.remote, PathOf(n, it)) == Some(it)
    {
      var p := PathOf(n, it);
      assert p[..|dir|] == dir && p[|dir|] == if it.base then n else cfg.make(n, it.no, it.xact);
      assert !it.base ==> cfg.parse(cfg.make(n, it.no, it.xact)) == Names.Match(n, it.no, "", it.xact);
    }

    lemma ItemAtPath(n: string, i: nat, p: Path)
      requires ItemAt(n, i, p).Some?
      ensures p == PathOf(n, ItemAt(n, i, p).value) && ItemAt(n, i, p).value.remote == i
    {
      assert p == dir + [p[|dir|]];
    }

    /** What lies at a path once the first `k` items have been renamed. */
    function Expected(i: nat, p: Path, k: nat): Option<Bytes>
      requires k <= |items| && i < |rs0|
    {
      var to, from := ItemAt(newName, i, p), ItemAt(name, i, p);
      if to.Some? && to.value in items[..k] then FileAt(rs0[i], PathOf(name, to.value))
      else if from.Some? && from.value in items[..k] then None
      else FileAt(rs0[i], p)
    }

    ghost predicate Done(rs: Remotes, k: nat) {
      && |rs| == |rs0| && k <= |items|
      && (forall j :: 0 <= j < k ==> Exists(items[j]))
      && (forall j :: k <= j < |items| && items[j].remote < |rs| && !Exists(items[j]) ==> PathOf(name, items[j]) !in rs[items[j].remote])
      && forall i, p :: 0 <= i < |rs| ==> FileAt(rs[i], p) == Expected(i, p, k)
    }

    /** The names differ, so the only path that spells an item of both is a chunk that the base file replaces. */
    lemma NotBoth(i: nat, p: Path)
      requires Sound()
      ensures ItemAt(newName, i, p).Some? && ItemAt(name, i, p).Some? && ItemAt(name, i, p).value in items ==>
        ItemAt(newName, i, p).value.base && !ItemAt(name, i, p).value.base
    {
    }

    /** Until the last step no base file has arrived. */
    lemma BaseIsLast(it: Item, k: nat)
      requires Sound() && it.base && k < |items|
      ensures it !in items[..k] && (it in items[..k + 1] ==> k == |items| - 1 && items[k] == it)
    {
    }

    lemma StillThere(rs: Remotes, k: nat)
      requires Sound() && Done(rs, k) && k < |items|
      ensures items[k].remote < |rs| && PathOf(name, items[k]) != []
      ensures FileAt(rs[items[k].remote], PathOf(name, items[k])) == FileAt(rs0[items[k].remote], PathOf(name, items[k]))
      ensures PathOf(name, items[k]) in rs[items[k].remote] ==> Exists(items[k])
    {
      var it := items[k];
      assert IsItem(it) && it !in items[..k];
      ItemPaths(name, it);
      NotBoth(it.remote, PathOf(name, it));
      var to := ItemAt(newName, it.remote, PathOf(name, it));
      if to.Some? && to.value.base { BaseIsLast(to.value, k); }
      assert FileAt(rs[it.remote], PathOf(name, it)) == Expected(it.remote, PathOf(name, it), k);
    }

    function Next(rs: Remotes, k: nat): Remotes
      requires k < |items| && items[k].remote < |rs|
    {
      var it := items[k];
      rs[it.remote := Relocated(rs[it.remote], PathOf(name, it), PathOf(newName, it))]
    }

    lemma NextFiles(rs: Remotes, k: nat, i: nat, p: Path)
      requires k < |items| && items[k].remote < |rs| && i < |rs|
      requires FileAt(rs[items[k].remote], PathOf(name, items[k])).Some?
      ensures FileAt(Next(rs, k)[i], p) ==
        if i == items[k].remote && p == PathOf(newName, items[k]) then FileAt(rs[i], PathOf(name, items[k]))
        else if i == items[k].remote && p == PathOf(name, items[k]) then None
        else FileAt(rs[i], p)
    {
    }

    lemma Step(rs: Remotes, k: nat)
      requires Sound() && Done(rs, k) && k < |items|
      ensures items[k].remote < |rs| && PathOf(name, items[k]) != []
      ensures PathOf(name, items[k]) in rs[items[k].remote] ==> Done(Next(rs, k), k + 1)
    {
      StillThere(rs, k);
      if PathOf(name, items[k]) in rs[items[k].remote] {
        StepFiles(rs, k);
        StepNodes(rs, k);
      }
    }

    lemma StepFiles(rs: Remotes, k: nat)
      requires Sound() && Done(rs, k) && k < |items| && items[k].remote < |rs| && Exists(items[k])
      ensures forall i, p :: 0 <= i < |rs| ==> FileAt(Next(rs, k)[i], p) == Expected(i, p, k + 1)
    {
      StillThere(rs, k);
      var it := items[k];
      assert IsItem(it);
      ItemPaths(name, it);
      ItemPaths(newName, it);
      assert items[..k + 1] == items[..k] + [it];
      forall i, p | 0 <= i < |rs|
        ensures FileAt(Next(rs, k)[i], p) == Expected(i, p, k + 1)
      {
        NextFiles(rs, k, i, p);
        NotBoth(i, p);
        assert FileAt(rs[i], p) == Expected(i, p, k);
        if ItemAt(newName, i, p).Some? {
          ItemAtPath(newName, i, p);
          if ItemAt(newName, i, p).value.base { BaseIsLast(ItemAt(newName, i, p).value, k); }
        }
        if ItemAt(name, i, p).Some? { ItemAtPath(name, i, p); }
      }
    }

    /** A chunk under the new name is not in the place of a file still to come. */
    lemma StepNodes(rs: Remotes, k: nat)
      requires Sound() && Done(rs, k) && k < |items| && items[k].remote < |rs| && Exists(items[k])
      ensures forall j :: k + 1 <= j < |items| && items[j].remote < |rs| && !Exists(items[j]) ==>
        PathOf(name, items[j]) !in Next(rs, k)[items[j].remote]
    {
      StillThere(rs, k);
      var at := items[k];
      assert IsItem(at) && at in items;
      ItemPaths(newName, at);
      forall j | k + 1 <= j < |items| && items[j].remote < |rs| && !Exists(items[j])
        ensures PathOf(name, items[j]) !in Next(rs, k)[items[j].remote]
      {
        var it := items[j];
        assert it in items && IsItem(it) && !at.base;
        ItemPaths(name, it);
        NotBoth(it.remote, PathOf(name, it));
      }
    }

    /** The same in the words of the rename operation. */
    lemma Stepped(rs: Remotes, k: nat)
      requires (Sound() ==> Done(rs, k)) && k < |items| && items[k].remote < |rs|
      ensures var it := items[k];
        var actual := if it.base then dir + [name] else PartPath(cfg, dir, name, it.no, it.xact);
        var to := if it.base then newName else cfg.make(newName, it.no, it.xact);
        && actual != []
        && (Sound() && actual in rs[it.remote] ==>
              Done(rs[it.remote := Relocated(rs[it.remote], actual, actual[..|actual| - 1] + [to])], k + 1))
    {
      var it := items[k];
      var actual := if it.base then dir + [name] else PartPath(cfg, dir, name, it.no, it.xact);
      assert actual[..|actual| - 1] == dir;
      if Sound() {
        Step(rs, k);
        hide Done, Relocated, Sound;
      }
    }
  }

  /** Chunks in ascending order, then the base file of a plain or metadata object. */
  function ItemsOf(v: View): seq<Item> {
    match v
    case Absent => []
    case Plain(remote, _) => [Item(0, "", remote, true)]
    case Chunked(_, main, meta, parts) =>
      seq(|parts|, j requires 0 <= j < |parts| => Item(parts[j].no, parts[j].xact, parts[j].remote, false))
      + (if meta.Some? then [Item(0, "", main, true)] else [])
  }

  // ---- what is asked of the remotes ----

  /** Rename of a file to what it is called under the new name. */
  function ItemCall(cfg: Config, dir: Path, name: string, newName: string, it: Item): Call {
    Call(it.remote, if it.base then RenameTo(dir + [name], newName)
                    else RenameTo(PartPath(cfg, dir, name, it.no, it.xact), cfg.make(newName, it.no, it.xact)))
  }

  /** The chunks as they are listed, then the base file. */
  function RenameCalls(cfg: Config, dir: Path, name: string, newName: string, v: View): seq<Call> {
    match v
    case Absent => []
    case Plain(remote, _) => [Call(remote, RenameTo(dir + [name], newName))]
    case Chunked(_, main, meta, parts) =>
      seq(|parts|, j requires 0 <= j < |parts| =>
        Call(parts[j].remote, RenameTo(PartPath(cfg, dir, name, parts[j].no, parts[j].xact),
                                       cfg.make(newName, parts[j].no, parts[j].xact))))
      + (if meta.Some? then [Call(main, RenameTo(dir + [name], newName))] else [])
  }

  lemma RenameCallsAre(cfg: Config, dir: Path, name: string, newName: string, v: View)
    ensures |RenameCalls(cfg, dir, name, newName, v)| == |ItemsOf(v)|
    ensures forall j :: 0 <= j < |ItemsOf(v)| ==>
      RenameCalls(cfg, dir, name, newName, v)[j] == ItemCall(cfg, dir, name, newName, ItemsOf(v)[j])
  {
  }

  lemma RenameOn(log: seq<Event>, from: nat, calls: seq<Call>, k: nat)
    requires k < |calls| && InOrder(log, from, calls[..k], true)
    ensures InOrder(log + [Event(calls[k], true)], from, calls[..k + 1], true)
    ensures InOrder(log + [Event(calls[k], false)], from, calls, false)
  {
  }

  /** Rename of one file of the object. */
  method RenameItem(m: Mounts, cfg: Config, dir: Path, name: string, newName: string, it: Item, ghost k: nat, ghost job: Renaming)
      returns (ok: bool)
    requires m.Valid() && (job.Sound() ==> job.Done(m.remotes, k)) && k < |job.items| && it == job.items[k]
    requires (cfg, dir, name, newName) == (job.cfg, job.dir, job.name, job.newName) && it.remote < |m.remotes|
    modifies m
    ensures m.Valid() && |m.remotes| == |old(m.remotes)| && old(m.trace) <= m.trace
    ensures job.Sound() ==> job.Done(m.remotes, if ok then k + 1 else k)
    ensures m.log == old(m.log) + [Event(ItemCall(cfg, dir, name, newName, it), ok)]
  {
    hide Renaming.Done, Renaming.Sound, Relocated, PartPath;
    var actual := if it.base then dir + [name] else PartPath(cfg, dir, name, it.no, it.xact);
    var to := if it.base then newName else cfg.make(newName, it.no, it.xact);
    job.Stepped(m.remotes, k);
    ok := m.Rename(it.remote, actual, to);
  }

  /** The new name is another one, and of one line if chunks are to be found under it. */
  predicate Renamable(v: View, name: string, newName: string) {
    name != newName && (v.Chunked? && v.parts != [] ==> Names.PlainName(newName))
  }

  /** Where a chunk is listed in another spelling only, nothing stands in the place of its canonical name. */
  ghost predicate Unhindered(job: Renaming) {
    forall it :: it in job.items && it.remote < |job.rs0| && !job.Exists(it) ==> job.PathOf(job.name, it) !in job.rs0[it.remote]
  }

  /** Rename of a file object as it is listed; the first error ends it after `k` files, and so does a chunk that is
      listed in another spelling only. */
  method RenameFile(m: Mounts, cfg: Config, dir: Path, name: string, newName: string, v: View, ghost job: Renaming)
      returns (ok: bool, ghost k: nat)
    requires m.Valid() && v == ViewOf(cfg, m.remotes, dir, name) && NamesLawful(cfg)
    requires job == Renaming(cfg, m.remotes, dir, name, newName, ItemsOf(v))
    modifies m
    ensures m.Valid() && old(m.trace) <= m.trace
    ensures Renamable(v, name, newName) && Unhindered(job) ==> job.Sound() && job.Done(m.remotes, k)
    ensures ok ==> k == |job.items|
    ensures old(m.log) <= m.log && InOrder(m.log, |old(m.log)|, RenameCalls(cfg, dir, name, newName, v), ok)
  {
    ItemRemotes(cfg, m.remotes, dir, name);
    JobBegins(job);
    if Renamable(v, name, newName) && Unhindered(job) { RenamingIsSound(cfg, m.remotes, dir, name, newName, v); }
    RenameCallsAre(cfg, dir, name, newName, v);
    hide ViewOf, NamesLawful, Renaming.Sound, Renaming.Done, ItemsOf, Renamable, Unhindered, InOrder, RenameCalls, ItemCall;
    ok, k := RenameItems(m, cfg, dir, name, newName, ItemsOf(v), RenameCalls(cfg, dir, name, newName, v), job);
  }

  /** The loop over the files. */
  method RenameItems(m: Mounts, cfg: Config, dir: Path, name: string, newName: string, items: seq<Item>, ghost calls: seq<Call>,
                     ghost job: Renaming) returns (ok: bool, ghost k: nat)
    requires m.Valid() && (job.Sound() ==> job.Done(m.remotes, 0)) && forall it :: it in items ==> it.remote < |m.remotes|
    requires (cfg, dir, name, newName, items) == (job.cfg, job.dir, job.name, job.newName, job.items)
    requires |calls| == |items| && forall j :: 0 <= j < |items| ==> calls[j] == ItemCall(cfg, dir, name, newName, items[j])
    modifies m
    ensures m.Valid() && old(m.trace) <= m.trace
    ensures job.Sound() ==> job.Done(m.remotes, k)
    ensures ok ==> k == |items|
    ensures old(m.log) <= m.log && InOrder(m.log, |old(m.log)|, calls, ok)
  {
    hide Renaming.Sound, Renaming.Done, InOrder, ItemCall;
    assert calls[..0] == [] && calls[..|calls|] == calls;
    NoCalls(m.log);
    ok, k := true, 0;
    for j := 0 to |items|
      invariant ok && k == j && m.Valid() && |m.remotes| == |old(m.remotes)| && old(m.trace) <= m.trace
      invariant job.Sound() ==> job.Done(m.remotes, k)
      invariant old(m.log) <= m.log && InOrder(m.log, |old(m.log)|, calls[..j], true)
    {
      assert items[j] in items;
      RenameOn(m.log, |old(m.log)|, calls, j);
      ok := RenameItem(m, cfg, dir, name, newName, items[j], k, job);
      if !ok {
        return;
      }
      k := k + 1;
    }
  }

  lemma JobBegins(job: Renaming)
    ensures job.Sound() ==> job.Done(job.rs0, 0)
  {
    if job.Sound() {
      forall j | 0 <= j < |job.items| && !job.Exists(job.items[j])
        ensures job.PathOf(job.name, job.items[j]) !in job.rs0[job.items[j].remote]
      {
        assert job.IsItem(job.items[j]);
      }
    }
  }

  lemma ItemRemotes(cfg: Config, rs: Remotes, dir: Path, name: string)
    requires NamesLawful(cfg)
    ensures forall it :: it in ItemsOf(ViewOf(cfg, rs, dir, name)) ==> it.remote < |rs|
  {
    hide Seen, Parts, FirstData;
    var v := ViewOf(cfg, rs, dir, name);
    if v.Chunked? {
      ListedMeta(cfg, rs, dir, name);
      forall j | 0 <= j < |v.parts|
        ensures v.parts[j].remote < |rs|
      {
        ListedPartData(cfg, rs, dir, name, j);
      }
      hide ViewOf;
    }
  }

  // ---- what a finished rename means ----

  /** The files of a listed object are found again under a name: an object with chunks needs one line, an
      object with a base file a name that does not read as a chunk. */
  predicate Carries(cfg: Config, v: View, n: string) {
    && (v.Chunked? && v.parts != [] ==> Names.PlainName(n))
    && (v.Plain? || (v.Chunked? && v.meta.Some?) ==> IsBaseName(cfg, n))
  }

  /** Any rename is sound that changes the name, and keeps it one line if there are chunks. */
  lemma RenamingIsSound(cfg: Config, rs: Remotes, dir: Path, name: string, newName: string, v: View)
    requires NamesLawful(cfg) && Renamable(v, name, newName) && v == ViewOf(cfg, rs, dir, name)
    requires Unhindered(Renaming(cfg, rs, dir, name, newName, ItemsOf(v)))
    ensures Renaming(cfg, rs, dir, name, newName, ItemsOf(v)).Sound()
  {
    var job := Renaming(cfg, rs, dir, name, newName, ItemsOf(v));
    hide Seen;
    ListedNames(cfg, rs, dir, name);
    ItemsDiffer(cfg, rs, dir, name, v);
    if v.Chunked? {
      AllAreItems(cfg, rs, dir, name, newName, v);
    }
    hide ViewOf, Parts, PartOf, PartExists, NamesLawful, IsBaseName;
  }

  lemma ItemsDiffer(cfg: Config, rs: Remotes, dir: Path, name: string, v: View)
    requires NamesLawful(cfg) && v == ViewOf(cfg, rs, dir, name)
    ensures forall i, j :: 0 <= i < j < |ItemsOf(v)| ==> ItemsOf(v)[i] != ItemsOf(v)[j]
  {
    hide ViewOf, Parts, PartOf, PartExists, NamesLawful;
    if v.Chunked? { ListedParts(cfg, rs, dir, name); }
  }

  lemma AllAreItems(cfg: Config, rs: Remotes, dir: Path, name: string, newName: string, v: View)
    requires NamesLawful(cfg) && v == ViewOf(cfg, rs, dir, name) && v.Chunked?
    requires Unhindered(Renaming(cfg, rs, dir, name, newName, ItemsOf(v)))
    ensures var job := Renaming(cfg, rs, dir, name, newName, ItemsOf(v));
      forall it :: it in job.items ==> job.IsItem(it)
  {
    var job := Renaming(cfg, rs, dir, name, newName, ItemsOf(v));
    hide Seen, FirstData;
    ListedMeta(cfg, rs, dir, name);
    hide ViewOf;
    forall it | it in job.items
      ensures job.IsItem(it)
    {
      var j :| 0 <= j < |job.items| && job.items[j] == it;
      if j < |v.parts| { ListedPartData(cfg, rs, dir, name, j); }
    }
  }

  /** The items of a listed object by number, transaction and remote. */
  lemma ItemIsSent(v: View, no: nat, x: string, i: nat)
    requires v.Chunked?
    ensures Item(no, x, i, false) in ItemsOf(v) <==> IsSent(v, |v.parts|, no, x, i)
    ensures Item(0, "", i, true) in ItemsOf(v) <==> v.meta.Some? && i == v.main
  {
    var items := ItemsOf(v);
    if IsSent(v, |v.parts|, no, x, i) {
      var j :| 0 <= j < |v.parts| && v.parts[j].no == no && v.parts[j].remote == i && v.parts[j].xact == x;
      assert items[j] == Item(no, x, i, false);
    }
    if Item(no, x, i, false) in items {
      var j :| 0 <= j < |items| && items[j] == Item(no, x, i, false);
      assert v.parts[j].no == no;
    }
    if v.meta.Some? {
      assert items[|v.parts|] == Item(0, "", v.main, true);
    }
  }

  lemma RenameMirrors(cfg: Config, job: Renaming, rs: Remotes, v: View)
    requires job.cfg == cfg && job.Sound() && job.Done(rs, |job.items|) && job.items == ItemsOf(v) && v.Chunked?
    requires FreshAt(cfg, job.rs0, job.dir, job.newName) && Names.PlainName(job.newName)
    requires Unambiguous(cfg, job.rs0, job.dir, job.name) && Names.PlainName(job.name)
    ensures Mirrors(cfg, job.rs0, job.dir, job.name, v, rs, job.dir, job.newName, |v.parts|, v.meta.Some?)
  {
    assert job.items[..|job.items|] == job.items;
    hide Seen, Unambiguous, IsSent;
    forall i, no: nat, x | 0 <= i < |rs| && IsNumber(cfg, no) && Names.IsXact(x)
      ensures FileAt(Seen(cfg, rs)[i], PartPath(cfg, job.dir, job.newName, no, x)) ==
        if IsSent(v, |v.parts|, no, x, i) then FileAt(Seen(cfg, job.rs0)[i], PartPath(cfg, job.dir, job.name, no, x)) else None
    {
      RenamedPart(cfg, job, rs, v, i, no, x);
    }
    forall i | 0 <= i < |rs| && IsBaseName(cfg, job.newName)
      ensures FileAt(rs[i], job.dir + [job.newName]) ==
        if v.meta.Some? && i == v.main then FileAt(job.rs0[i], job.dir + [job.name]) else None
    {
      RenamedBase(cfg, job, rs, v, i);
    }
  }

  lemma RenamedPart(cfg: Config, job: Renaming, rs: Remotes, v: View, i: nat, no: nat, x: string)
    requires job.cfg == cfg && job.Sound() && job.Done(rs, |job.items|) && job.items == ItemsOf(v) && v.Chunked?
    requires FreshAt(cfg, job.rs0, job.dir, job.newName) && i < |rs| && IsNumber(cfg, no) && Names.IsXact(x)
    requires Names.PlainName(job.newName) && Names.PlainName(job.name) && Unambiguous(cfg, job.rs0, job.dir, job.name)
    ensures FileAt(Seen(cfg, rs)[i], PartPath(cfg, job.dir, job.newName, no, x)) ==
      if IsSent(v, |v.parts|, no, x, i) then FileAt(Seen(cfg, job.rs0)[i], PartPath(cfg, job.dir, job.name, no, x)) else None
  {
    hide Seen, Unambiguous;
    var file := cfg.make(job.newName, no, x);
    SpellingReads(cfg, job.dir, job.newName, no, x, file);
    forall n | Canon(cfg, n) == Canon(cfg, file)
      ensures FileAt(rs[i], job.dir + [n]) ==
        if n == file && IsSent(v, |v.parts|, no, x, i) then FileAt(job.rs0[i], PartPath(cfg, job.dir, job.name, no, x)) else None
    {
      RenamedSpelling(cfg, job, rs, v, i, no, x, n);
    }
    SeenOnly(cfg, rs, i, job.dir, file);
    if IsSent(v, |v.parts|, no, x, i) { RenamedIsSeen(cfg, job, rs, v, i, no, x); }
    hide NamesLawful, Canon, Renaming.Sound, Renaming.Done;
  }

  /** What comes to lie under the new name of the files that read as one chunk: the canonically spelled one. */
  lemma RenamedSpelling(cfg: Config, job: Renaming, rs: Remotes, v: View, i: nat, no: nat, x: string, n: string)
    requires job.cfg == cfg && job.Sound() && job.Done(rs, |job.items|) && job.items == ItemsOf(v) && v.Chunked?
    requires FreshAt(cfg, job.rs0, job.dir, job.newName) && i < |rs| && IsNumber(cfg, no) && Names.IsXact(x)
    requires Names.PlainName(job.newName) && Canon(cfg, n) == cfg.make(job.newName, no, x)
    ensures FileAt(rs[i], job.dir + [n]) ==
      if n == cfg.make(job.newName, no, x) && IsSent(v, |v.parts|, no, x, i)
      then FileAt(job.rs0[i], PartPath(cfg, job.dir, job.name, no, x)) else None
  {
    SpellingReads(cfg, job.dir, job.newName, no, x, n);
    var it, p := Item(no, x, i, false), job.dir + [n];
    assert p[..|job.dir|] == job.dir && p[|job.dir|] == n;
    assert job.items[..|job.items|] == job.items;
    if n == cfg.make(job.newName, no, x) {
      assert job.ItemAt(job.newName, i, p) == Some(it);
    } else {
      assert job.ItemAt(job.newName, i, p).None?;
    }
    NotFrom(cfg, job, i, n);
    ItemIsSent(v, no, x, i);
    hide NamesLawful, Renaming.Sound, ItemsOf, IsSent;
    assert FileAt(rs[i], p) == job.Expected(i, p, |job.items|);
  }

  /** A chunk of the new name is none of the items. */
  lemma NotFrom(cfg: Config, job: Renaming, i: nat, n: string)
    requires job.cfg == cfg && job.Sound() && IsChunkName(cfg, n) && cfg.parse(n).main == job.newName
    ensures var from := job.ItemAt(job.name, i, job.dir + [n]); from.Some? ==> from.value !in job.items
  {
    var p := job.dir + [n];
    assert p[..|job.dir|] == job.dir && p[|job.dir|] == n;
  }

  lemma RenamedIsSeen(cfg: Config, job: Renaming, rs: Remotes, v: View, i: nat, no: nat, x: string)
    requires job.cfg == cfg && job.Sound() && job.Done(rs, |job.items|) && job.items == ItemsOf(v) && v.Chunked?
    requires i < |job.rs0| && IsNumber(cfg, no) && Names.IsXact(x) && Names.PlainName(job.name)
    requires Unambiguous(cfg, job.rs0, job.dir, job.name) && IsSent(v, |v.parts|, no, x, i)
    ensures var p := PartPath(cfg, job.dir, job.name, no, x); FileAt(Seen(cfg, job.rs0)[i], p) == FileAt(job.rs0[i], p)
  {
    var file, it := cfg.make(job.name, no, x), Item(no, x, i, false);
    ItemIsSent(v, no, x, i);
    var j :| 0 <= j < |job.items| && job.items[j] == it;
    assert job.Exists(it);
    SpellingReads(cfg, job.dir, job.name, no, x, file);
    hide Seen, Renaming.Done, Renaming.Sound, ItemsOf;
    forall n | Canon(cfg, n) == Canon(cfg, file) && FileAt(job.rs0[i], job.dir + [n]).Some?
      ensures n == file
    {
      assert Owned(cfg, job.dir, job.name, job.dir + [file]);
    }
    SeenOnly(cfg, job.rs0, i, job.dir, file);
  }

  lemma RenamedBase(cfg: Config, job: Renaming, rs: Remotes, v: View, i: nat)
    requires job.cfg == cfg && job.Sound() && job.Done(rs, |job.items|) && job.items == ItemsOf(v) && v.Chunked?
    requires FreshAt(cfg, job.rs0, job.dir, job.newName) && i < |rs| && IsBaseName(cfg, job.newName)
    ensures FileAt(rs[i], job.dir + [job.newName]) ==
      if v.meta.Some? && i == v.main then FileAt(job.rs0[i], job.dir + [job.name]) else None
  {
    var it := Item(0, "", i, true);
    var p := job.dir + [job.newName];
    assert p[..|job.dir|] == job.dir && p[|job.dir|] == job.newName;
    assert job.items[..|job.items|] == job.items;
    job.ItemPaths(job.newName, it);
    job.NotBoth(i, p);
    ItemIsSent(v, 0, "", i);
    assert p == job.PathOf(job.newName, it) && Owned(cfg, job.dir, job.newName, p);
    hide NamesLawful, Renaming.Sound, ItemsOf, Owned;
    assert FileAt(rs[i], p) == job.Expected(i, p, |job.items|);
  }

  lemma RenamedObject(cfg: Config, job: Renaming, rs: Remotes, v: View)
    requires job.cfg == cfg && NamesLawful(cfg) && job.Sound() && job.Done(rs, |job.items|)
    requires v == ViewOf(cfg, job.rs0, job.dir, job.name) && v.Chunked? && job.items == ItemsOf(v)
    requires FreshAt(cfg, job.rs0, job.dir, job.newName) && Names.PlainName(job.newName)
    requires (v.meta.Some? ==> IsBaseName(cfg, job.newName)) && Unambiguous(cfg, job.rs0, job.dir, job.name)
    ensures ViewOf(cfg, rs, job.dir, job.newName) == v <==> v.parts != []
  {
    hide Mirrors, Renaming.Done, Renaming.Sound, ItemsOf, FreshAt, ViewOf, NamesLawful, Unambiguous;
    ListedNames(cfg, job.rs0, job.dir, job.name);
    RenameMirrors(cfg, job, rs, v);
    ListedMeta(cfg, job.rs0, job.dir, job.name);
    MirrorLists(cfg, job.rs0, job.dir, job.name, v, rs, job.dir, job.newName, |v.parts|, v.meta.Some?);
    assert v.parts[..|v.parts|] == v.parts;
  }

  lemma RenamedPlain(cfg: Config, job: Renaming, rs: Remotes, v: View)
    requires job.cfg == cfg && NamesLawful(cfg) && job.Sound() && job.Done(rs, |job.items|)
    requires v == ViewOf(cfg, job.rs0, job.dir, job.name) && v.Plain? && job.items == ItemsOf(v)
    requires FreshAt(cfg, job.rs0, job.dir, job.newName) && IsBaseName(cfg, job.newName)
    ensures ViewOf(cfg, rs, job.dir, job.newName) == v
  {
    hide Renaming.Sound, NamesLawful, FreshAt, ItemsOf, Parts, Seen;
    var p := job.dir + [job.newName];
    assert v.remote < |rs|;
    hide Renaming.Done, ViewOf;
    forall i | 0 <= i < |rs|
      ensures FileAt(rs[i], p) == if i == v.remote then Some(v.data) else None
    {
      RenamedPlainBase(cfg, job, rs, v, i);
    }
    forall no: nat, x
      ensures !PartExists(cfg, rs, job.dir, job.newName, no, x)
    {
      if Names.PlainName(job.newName) && IsNumber(cfg, no) && Names.IsXact(x) {
        PlainBringsNoChunk(cfg, job, rs, v, no, x);
      }
    }
    assert FileAt(rs[v.remote], p) == Some(v.data);
    assert FirstFile(rs, p) == Some(v.remote);
    ViewPlain(cfg, rs, job.dir, job.newName, v.remote, v.data);
  }

  lemma RenamedPlainBase(cfg: Config, job: Renaming, rs: Remotes, v: View, i: nat)
    requires job.cfg == cfg && job.Sound() && job.Done(rs, |job.items|) && i < |rs|
    requires v == ViewOf(cfg, job.rs0, job.dir, job.name) && v.Plain? && job.items == ItemsOf(v)
    requires FreshAt(cfg, job.rs0, job.dir, job.newName) && IsBaseName(cfg, job.newName)
    ensures FileAt(rs[i], job.dir + [job.newName]) == if i == v.remote then Some(v.data) else None
  {
    var it := Item(0, "", i, true);
    var p := job.dir + [job.newName];
    assert FileAt(job.rs0[v.remote], job.dir + [job.name]) == Some(v.data);
    assert job.items == [Item(0, "", v.remote, true)] && job.items[..|job.items|] == job.items;
    assert p[..|job.dir|] == job.dir && p[|job.dir|] == job.newName;
    assert Owned(cfg, job.dir, job.newName, p) && p == job.PathOf(job.newName, it);
    job.ItemPaths(job.newName, it);
    job.NotBoth(i, p);
    assert FileAt(rs[i], p) == job.Expected(i, p, |job.items|);
    hide ViewOf, Renaming.Sound, Renaming.Done, NamesLawful;
  }

  lemma PlainBringsNoChunk(cfg: Config, job: Renaming, rs: Remotes, v: View, no: nat, x: string)
    requires job.cfg == cfg && job.Sound() && job.Done(rs, |job.items|) && v.Plain? && job.items == ItemsOf(v)
    requires FreshAt(cfg, job.rs0, job.dir, job.newName)
    requires Names.PlainName(job.newName) && IsNumber(cfg, no) && Names.IsXact(x)
    ensures FirstFile(Seen(cfg, rs), PartPath(cfg, job.dir, job.newName, no, x)).None?
  {
    hide Seen;
    forall i | 0 <= i < |rs|
      ensures FileAt(Seen(cfg, rs)[i], PartPath(cfg, job.dir, job.newName, no, x)).None?
    {
      var n := SeenSome(cfg, rs, i, job.dir, cfg.make(job.newName, no, x));
      if Canon(cfg, n) == cfg.make(job.newName, no, x) { NoChunkAt(cfg, job, rs, v, no, x, i, n); }
    }
  }

  lemma NoChunkAt(cfg: Config, job: Renaming, rs: Remotes, v: View, no: nat, x: string, i: nat, n: string)
    requires job.cfg == cfg && job.Sound() && job.Done(rs, |job.items|) && v.Plain? && job.items == ItemsOf(v)
    requires FreshAt(cfg, job.rs0, job.dir, job.newName) && i < |rs|
    requires Names.PlainName(job.newName) && IsNumber(cfg, no) && Names.IsXact(x) && Canon(cfg, n) == cfg.make(job.newName, no, x)
    ensures FileAt(rs[i], job.dir + [n]).None?
  {
    SpellingReads(cfg, job.dir, job.newName, no, x, n);
    var p := job.dir + [n];
    assert p[..|job.dir|] == job.dir && p[|job.dir|] == n && n != job.newName;
    assert job.items[..|job.items|] == job.items;
    NotFrom(cfg, job, i, n);
    assert FileAt(rs[i], p) == job.Expected(i, p, 1);
  }

  /** Under a name that does not carry an object, or without chunks, nothing lists as it. */
  lemma OnlyCarried(cfg: Config, rs: Remotes, dir: Path, n: string, v: View)
    requires NamesLawful(cfg) && ViewOf(cfg, rs, dir, n) == v
    ensures Carries(cfg, v, n)
    ensures v.Chunked? && v.meta.Some? ==> Names.PlainName(n)
  {
    ListedNames(cfg, rs, dir, n);
  }

  /** After a finished rename to a fresh name, where no remote spells a chunk of the object in two ways, the object
      lists there exactly as it did, chunk numbers, remotes and all, if and only if the new name carries its files
      and it is not metadata without any chunk. */
  lemma RenameComplete(cfg: Config, job: Renaming, rs: Remotes, v: View)
    requires job.cfg == cfg && NamesLawful(cfg) && job.name != job.newName
    requires v == ViewOf(cfg, job.rs0, job.dir, job.name) && v != Absent && job.items == ItemsOf(v)
    requires job.Sound() ==> job.Done(rs, |job.items|)
    requires FreshAt(cfg, job.rs0, job.dir, job.newName) && Unambiguous(cfg, job.rs0, job.dir, job.name) && Unhindered(job)
    ensures ViewOf(cfg, rs, job.dir, job.newName) == v
       <==> Carries(cfg, v, job.newName) && (v.Chunked? ==> v.parts != [])
  {
    if Carries(cfg, v, job.newName) {
      RenamingIsSound(cfg, job.rs0, job.dir, job.name, job.newName, v);
      hide ViewOf, NamesLawful, Renaming.Sound, Renaming.Done, FreshAt, ItemsOf, Unambiguous, Unhindered;
      if v.Plain? {
        RenamedPlain(cfg, job, rs, v);
      } else {
        if Names.PlainName(job.newName) {
          RenamedObject(cfg, job, rs, v);
        }
        if ViewOf(cfg, rs, job.dir, job.newName) == v { OnlyCarried(cfg, rs, job.dir, job.newName, v); }
      }
    } else if ViewOf(cfg, rs, job.dir, job.newName) == v {
      OnlyCarried(cfg, rs, job.dir, job.newName, v);
    }
  }

  // ---- the old name and other names ----

  /** The winning copy of the chunk that the new name reads as once the base file lies there on remote `r`. */
  ghost function Planted(job: Renaming, r: nat, data: Bytes): Option<(nat, Bytes)>
    requires r < |job.rs0|
  {
    ChunkWinner(job.cfg, Plant(job, r, data), job.dir, job.newName)
  }

  /** The base file arrives under a name that spells a chunk of a third object, and that object shows it. */
  ghost predicate RenameIntrudes(job: Renaming, v: View) {
    && (v.Plain? || (v.Chunked? && v.meta.Some?))
    && IsChunkName(job.cfg, job.newName) && job.cfg.parse(job.newName).main != job.name
    && var r := if v.Plain? then v.remote else v.main;
       r < |job.rs0|
       && Disturbs(job.cfg, job.rs0, job.dir, job.newName, Planted(job, r, FirstData(job.rs0, job.dir + [job.name])))
  }

  lemma RenameIsSpared(job: Renaming, rs: Remotes, k: nat)
    requires job.Sound() && job.Done(rs, k)
    ensures Spared(job.cfg, job.rs0, rs, job.dir, job.name, job.newName)
  {
    forall i, p | 0 <= i < |rs| && !Owned(job.cfg, job.dir, job.name, p) && !Owned(job.cfg, job.dir, job.newName, p)
                  && !(job.dir + [job.newName] <= p)
      ensures FileAt(rs[i], p) == FileAt(job.rs0[i], p)
    {
      NotTouched(job, rs, k, i, p);
    }
  }

  lemma NotTouched(job: Renaming, rs: Remotes, k: nat, i: nat, p: Path)
    requires job.Sound() && job.Done(rs, k) && i < |rs| && p != job.dir + [job.newName]
    requires !Owned(job.cfg, job.dir, job.name, p) && !Owned(job.cfg, job.dir, job.newName, p)
    ensures FileAt(rs[i], p) == FileAt(job.rs0[i], p)
  {
    var to, from := job.ItemAt(job.newName, i, p), job.ItemAt(job.name, i, p);
    if to.Some? { job.ItemAtPath(job.newName, i, p); }
    assert FileAt(rs[i], p) == job.Expected(i, p, k);
  }

  lemma RenameBelow(job: Renaming, rs: Remotes, k: nat, d: Path, n: string)
    requires job.Sound() && job.Done(rs, k) && job.dir + [job.newName] <= d
    ensures ViewOf(job.cfg, rs, d, n) == ViewOf(job.cfg, job.rs0, d, n)
  {
    assert |rs| == |job.rs0| && |d| >= |job.dir + [job.newName]|;
    forall i, p | 0 <= i < |rs| && Owned(job.cfg, d, n, p)
      ensures FileAt(rs[i], p) == FileAt(job.rs0[i], p)
    {
      assert |p| > |job.dir + [job.newName]|;
      NotTouched(job, rs, k, i, p);
    }
    hide Renaming.Done, Renaming.Sound;
    ViewFrame(job.cfg, job.rs0, rs, d, n);
  }

  lemma RenameElsewhere(job: Renaming, rs: Remotes, k: nat, d: Path, n: string)
    requires job.Sound() && job.Done(rs, k) && (d, n) != (job.dir, job.name) && (d, n) != (job.dir, job.newName)
    requires !(IsChunkName(job.cfg, job.newName) && (d, n) == (job.dir, job.cfg.parse(job.newName).main))
    ensures ViewOf(job.cfg, rs, d, n) == ViewOf(job.cfg, job.rs0, d, n)
  {
    RenameIsSpared(job, rs, k);
    hide Renaming.Done, Spared, NamesLawful, ViewOf;
    if job.dir + [job.newName] <= d {
      RenameBelow(job, rs, k, d, n);
    } else {
      SparedElsewhere(job.cfg, job.rs0, rs, job.dir, job.name, job.newName, d, n);
    }
  }

  /** What counts as the chunk that a new name reads as. */
  lemma PlantedWins(job: Renaming, rs: Remotes, k: nat, v: View)
    requires job.Sound() && job.Done(rs, k) && job.items == ItemsOf(v) && v == ViewOf(job.cfg, job.rs0, job.dir, job.name)
    requires IsChunkName(job.cfg, job.newName) && job.cfg.parse(job.newName).main != job.name
    ensures var at := job.dir + [job.newName];
      if k == |job.items| && (v.Plain? || (v.Chunked? && v.meta.Some?)) then
        var r := if v.Plain? then v.remote else v.main;
        r < |job.rs0| && ChunkWinner(job.cfg, rs, job.dir, job.newName) == Planted(job, r, FirstData(job.rs0, job.dir + [job.name]))
      else ChunkWinner(job.cfg, rs, job.dir, job.newName) == ChunkWinner(job.cfg, job.rs0, job.dir, job.newName)
  {
    hide Seen, Canon, Winner;
    var r := if v.Plain? then v.remote else if v.Chunked? then v.main else 0;
    var based := k == |job.items| && (v.Plain? || (v.Chunked? && v.meta.Some?));
    if based { BaseListed(job, v, r); }
    var after := if based then Plant(job, r, FirstData(job.rs0, job.dir + [job.name])) else job.rs0;
    AfterFiles(job, rs, k, v, r, based, after);
    hide ViewOf, ItemsOf, Renaming.Sound, Renaming.Done;
    SeenAgree(job.cfg, rs, after, job.dir, Canon(job.cfg, job.newName));
    AgreeFirst(Seen(job.cfg, rs), Seen(job.cfg, after), job.dir + [Canon(job.cfg, job.newName)]);
    SameFirst(Seen(job.cfg, rs), Seen(job.cfg, after), job.dir + [Canon(job.cfg, job.newName)]);
  }

  function Plant(job: Renaming, r: nat, data: Bytes): Remotes
    requires r < |job.rs0|
  {
    job.rs0[r := job.rs0[r][job.dir + [job.newName] := File(data)]]
  }

  lemma SameFirst(a: Remotes, b: Remotes, p: Path)
    requires FirstFile(a, p) == FirstFile(b, p) && FirstData(a, p) == FirstData(b, p)
    ensures Winner(a, p) == Winner(b, p)
  {
  }

  /** The base file is the winning one, and one of the items. */
  lemma BaseListed(job: Renaming, v: View, r: nat)
    requires v == ViewOf(job.cfg, job.rs0, job.dir, job.name) && job.items == ItemsOf(v)
    requires (v.Plain? && r == v.remote) || (v.Chunked? && v.meta.Some? && r == v.main)
    ensures r < |job.rs0| && FileAt(job.rs0[r], job.dir + [job.name]) == Some(FirstData(job.rs0, job.dir + [job.name]))
    ensures forall i: nat :: Item(0, "", i, true) in job.items <==> i == r
  {
    hide Seen, Parts, AnyPart;
    if v.Chunked? {
      ListedMeta(job.cfg, job.rs0, job.dir, job.name);
      forall i: nat
        ensures Item(0, "", i, true) in job.items <==> i == r
      {
        ItemIsSent(v, 0, "", i);
      }
    }
  }

  /** Every file that reads as that chunk is as in the old state, but for the base file under its new name. */
  lemma AfterFiles(job: Renaming, rs: Remotes, k: nat, v: View, r: nat, based: bool, after: Remotes)
    requires job.Sound() && job.Done(rs, k) && job.items == ItemsOf(v) && v == ViewOf(job.cfg, job.rs0, job.dir, job.name)
    requires IsChunkName(job.cfg, job.newName) && job.cfg.parse(job.newName).main != job.name
    requires based <==> k == |job.items| && (v.Plain? || (v.Chunked? && v.meta.Some?))
    requires if based then
        && r < |job.rs0| && after == Plant(job, r, FirstData(job.rs0, job.dir + [job.name]))
        && FileAt(job.rs0[r], job.dir + [job.name]) == Some(FirstData(job.rs0, job.dir + [job.name]))
        && forall i: nat :: Item(0, "", i, true) in job.items <==> i == r
      else after == job.rs0
    ensures |after| == |rs| && forall n :: Canon(job.cfg, n) == Canon(job.cfg, job.newName) ==> Agree(rs, after, job.dir + [n])
  {
    hide Seen, Canon, FirstData, ViewOf;
    assert |rs| == |job.rs0|;
    forall i: nat | i < |rs|
      ensures FileAt(rs[i], job.dir + [job.newName]) == FileAt(after[i], job.dir + [job.newName])
    {
      UnderNewName(job, rs, k, v, i);
      if !based && k == |job.items| { NoBaseItem(v, i); }
    }
    forall n | Canon(job.cfg, n) == Canon(job.cfg, job.newName) && n != job.newName
      ensures Agree(rs, after, job.dir + [n])
    {
      OtherSpellingStays(job, rs, k, n);
      JoinUnique(job.dir, n, job.dir, job.newName);
    }
  }

  lemma NoBaseItem(v: View, i: nat)
    requires v.Absent? || (v.Chunked? && v.meta.None?)
    ensures Item(0, "", i, true) !in ItemsOf(v)
  {
  }

  lemma OtherSpellingStays(job: Renaming, rs: Remotes, k: nat, n: string)
    requires job.Sound() && job.Done(rs, k) && IsChunkName(job.cfg, job.newName) && job.cfg.parse(job.newName).main != job.name
    requires Canon(job.cfg, n) == Canon(job.cfg, job.newName) && n != job.newName
    ensures Agree(rs, job.rs0, job.dir + [n])
  {
    CanonParses(job.cfg, n);
    CanonParses(job.cfg, job.newName);
    WhoseFile(job.cfg, job.dir, n, job.dir, job.name);
    WhoseFile(job.cfg, job.dir, n, job.dir, job.newName);
    JoinUnique(job.dir, n, job.dir, job.newName);
    forall i | 0 <= i < |rs|
      ensures FileAt(rs[i], job.dir + [n]) == FileAt(job.rs0[i], job.dir + [n])
    {
      NotTouched(job, rs, k, i, job.dir + [n]);
    }
  }

  lemma UnderNewName(job: Renaming, rs: Remotes, k: nat, v: View, i: nat)
    requires job.Sound() && job.Done(rs, k) && job.items == ItemsOf(v) && i < |rs|
    requires IsChunkName(job.cfg, job.newName) && job.cfg.parse(job.newName).main != job.name
    ensures FileAt(rs[i], job.dir + [job.newName]) ==
      if k == |job.items| && Item(0, "", i, true) in job.items then FileAt(job.rs0[i], job.dir + [job.name])
      else FileAt(job.rs0[i], job.dir + [job.newName])
  {
    var p := job.dir + [job.newName];
    assert p[..|job.dir|] == job.dir && p[|job.dir|] == job.newName;
    if k < |job.items| { job.BaseIsLast(Item(0, "", i, true), k); } else { assert job.items[..k] == job.items; }
    assert job.ItemAt(job.newName, i, p) == Some(Item(0, "", i, true)) && job.ItemAt(job.name, i, p).None?;
    assert FileAt(rs[i], p) == job.Expected(i, p, k);
  }

  /** After any number of renames every third name lists as before, but for a finished one whose base file
      intrudes under its new name. */
  lemma RenameKeepsOthers(cfg: Config, job: Renaming, rs: Remotes, k: nat, v: View)
    requires job.cfg == cfg && job.Sound() && job.Done(rs, k)
    requires v == ViewOf(cfg, job.rs0, job.dir, job.name) && job.items == ItemsOf(v)
    ensures (forall d, n :: (d, n) != (job.dir, job.name) && (d, n) != (job.dir, job.newName) ==>
               ViewOf(cfg, rs, d, n) == ViewOf(cfg, job.rs0, d, n))
       <==> !(k == |job.items| && RenameIntrudes(job, v))
  {
    assert !Disturbs(cfg, job.rs0, job.dir, job.newName, ChunkWinner(cfg, job.rs0, job.dir, job.newName));
    hide ViewOf, Renaming.Done, Planted, Disturbs, ItemsOf, ChunkWinner;
    forall d, n | (d, n) != (job.dir, job.name) && (d, n) != (job.dir, job.newName)
                  && !(IsChunkName(cfg, job.newName) && (d, n) == (job.dir, cfg.parse(job.newName).main))
      ensures ViewOf(cfg, rs, d, n) == ViewOf(cfg, job.rs0, d, n)
    {
      RenameElsewhere(job, rs, k, d, n);
    }
    if IsChunkName(cfg, job.newName) && cfg.parse(job.newName).main != job.name {
      ChunkNameFacts(cfg, job.dir, job.newName);
      PlantedWins(job, rs, k, v);
      RenameIsSpared(job, rs, k);
      hide NamesLawful, Renaming.Sound, Spared;
      SparedSpelled(cfg, job.rs0, rs, job.dir, job.name, job.newName);
    }
  }

  /** Nothing else of the old name was lying around, in any spelling, and the base file does not come back as its
      chunk. */
  ghost predicate Vacated(cfg: Config, job: Renaming) {
    && (IsBaseName(cfg, job.name) ==>
          forall i :: 0 <= i < |job.rs0| && FileAt(job.rs0[i], job.dir + [job.name]).Some? ==> Item(0, "", i, true) in job.items)
    && (forall i, file ::
          0 <= i < |job.rs0| && ReadsAs(cfg, file, job.name, "") && FileAt(job.rs0[i], job.dir + [file]).Some? ==>
            CanonicalName(cfg, file) && Item(cfg.parse(file).no, "", i, false) in job.items)
    && !(ReadsAs(cfg, job.newName, job.name, "") && exists i :: Item(0, "", i, true) in job.items)
  }

  lemma OldBase(cfg: Config, job: Renaming, rs: Remotes, i: nat)
    requires job.cfg == cfg && job.Sound() && job.Done(rs, |job.items|) && i < |rs| && IsBaseName(cfg, job.name)
    ensures FileAt(rs[i], job.dir + [job.name]) ==
      if Item(0, "", i, true) in job.items then None else FileAt(job.rs0[i], job.dir + [job.name])
  {
    var p := job.dir + [job.name];
    assert p[..|job.dir|] == job.dir && p[|job.dir|] == job.name;
    assert job.items[..|job.items|] == job.items;
    assert job.ItemAt(job.name, i, p) == Some(Item(0, "", i, true)) && job.ItemAt(job.newName, i, p).None?;
    assert FileAt(rs[i], p) == job.Expected(i, p, |job.items|);
  }

  lemma OldChunk(cfg: Config, job: Renaming, rs: Remotes, i: nat, file: string)
    requires job.cfg == cfg && job.Sound() && job.Done(rs, |job.items|) && i < |rs| && ReadsAs(cfg, file, job.name, "")
    ensures FileAt(rs[i], job.dir + [file]) ==
      if file == job.newName && Item(0, "", i, true) in job.items then FileAt(job.rs0[i], job.dir + [job.name])
      else if CanonicalName(cfg, file) && Item(cfg.parse(file).no, "", i, false) in job.items then None
      else FileAt(job.rs0[i], job.dir + [file])
  {
    var p := job.dir + [file];
    assert p[..|job.dir|] == job.dir && p[|job.dir|] == file && file != job.name;
    assert job.items[..|job.items|] == job.items;
    assert job.ItemAt(job.newName, i, p) == if file == job.newName then Some(Item(0, "", i, true)) else None;
    assert job.ItemAt(job.name, i, p) == if CanonicalName(cfg, file) then Some(Item(cfg.parse(file).no, "", i, false)) else None;
    assert FileAt(rs[i], p) == job.Expected(i, p, |job.items|);
  }

  /** After a finished rename the old name is unlisted if and only if it was vacated: no other base copy and no other
      file that reads as an untagged chunk of it was there, and it was not renamed to an untagged chunk of itself. */
  lemma RenameVacates(cfg: Config, job: Renaming, rs: Remotes)
    requires job.cfg == cfg && job.Sound() && job.Done(rs, |job.items|)
    ensures ViewOf(cfg, rs, job.dir, job.name) == Absent <==> Vacated(cfg, job)
  {
    assert |rs| == |job.rs0|;
    hide Renaming.Sound, Renaming.Done, NamesLawful, ViewOf, CanonicalName, ReadsAs;
    AbsentExactly(cfg, rs, job.dir, job.name);
    ChunksFreed(cfg, job, rs);
    forall i | 0 <= i < |rs| && IsBaseName(cfg, job.name)
      ensures FileAt(rs[i], job.dir + [job.name]).None? <==>
        FileAt(job.rs0[i], job.dir + [job.name]).None? || Item(0, "", i, true) in job.items
    {
      OldBase(cfg, job, rs, i);
    }
    hide FileAt;
  }

  lemma ChunksFreed(cfg: Config, job: Renaming, rs: Remotes)
    requires job.cfg == cfg && job.Sound() && job.Done(rs, |job.items|)
    ensures (forall i, file :: 0 <= i < |rs| && ReadsAs(cfg, file, job.name, "") ==> FileAt(rs[i], job.dir + [file]).None?) <==>
      && (forall i, file ::
            0 <= i < |job.rs0| && ReadsAs(cfg, file, job.name, "") && FileAt(job.rs0[i], job.dir + [file]).Some? ==>
              CanonicalName(cfg, file) && Item(cfg.parse(file).no, "", i, false) in job.items)
      && !(ReadsAs(cfg, job.newName, job.name, "") && exists i :: Item(0, "", i, true) in job.items)
  {
    assert |rs| == |job.rs0| && forall it :: it in job.items ==> job.Exists(it);
    hide Renaming.Sound, Renaming.Done, NamesLawful, CanonicalName;
    FreedMeans(cfg, job);
    forall i, file | 0 <= i < |rs| && ReadsAs(cfg, file, job.name, "")
      ensures FileAt(rs[i], job.dir + [file]).None? <==> Freed(cfg, job, i, file)
    {
      OldChunk(cfg, job, rs, i, file);
      BaseItemHasFile(job, i);
    }
    hide FileAt, Freed, ReadsAs;
  }

  lemma FreedMeans(cfg: Config, job: Renaming)
    requires job.Sound() && forall it :: it in job.items ==> job.Exists(it)
    ensures (forall i, file :: 0 <= i < |job.rs0| && ReadsAs(cfg, file, job.name, "") ==> Freed(cfg, job, i, file)) <==>
      && (forall i, file ::
            0 <= i < |job.rs0| && ReadsAs(cfg, file, job.name, "") && FileAt(job.rs0[i], job.dir + [file]).Some? ==>
              CanonicalName(cfg, file) && Item(cfg.parse(file).no, "", i, false) in job.items)
      && !(ReadsAs(cfg, job.newName, job.name, "") && exists i :: Item(0, "", i, true) in job.items)
  {
    hide Renaming.Sound, CanonicalName;
    if ReadsAs(cfg, job.newName, job.name, "") && exists i :: Item(0, "", i, true) in job.items {
      var i: nat :| Item(0, "", i, true) in job.items;
      assert job.Exists(Item(0, "", i, true));
      assert !Freed(cfg, job, i, job.newName);
    }
    forall i, file | 0 <= i < |job.rs0| && ReadsAs(cfg, file, job.name, "")
      ensures Freed(cfg, job, i, file) ==>
        FileAt(job.rs0[i], job.dir + [file]).None? || (CanonicalName(cfg, file) && Item(cfg.parse(file).no, "", i, false) in job.items)
    {
    }
  }

  /** No file is left there that reads as an untagged chunk of the old name. */
  predicate Freed(cfg: Config, job: Renaming, i: nat, file: string)
    requires i < |job.rs0| && ReadsAs(cfg, file, job.name, "")
  {
    && !(file == job.newName && Item(0, "", i, true) in job.items)
    && (FileAt(job.rs0[i], job.dir + [file]).None? || (CanonicalName(cfg, file) && Item(cfg.parse(file).no, "", i, false) in job.items))
  }

  lemma BaseItemHasFile(job: Renaming, i: nat)
    requires job.Sound() && forall it :: it in job.items ==> job.Exists(it)
    ensures Item(0, "", i, true) in job.items ==> i < |job.rs0| && FileAt(job.rs0[i], job.dir + [job.name]).Some?
  {
    if Item(0, "", i, true) in job.items { assert job.Exists(Item(0, "", i, true)); }
  }
}
