/** The remotes a chunker storage spans.  Each remote is a map from paths to directories and files;
    the root directory always exists. */
module RemoteStore {
  import opened Prelude

  type Path = seq<string>

  datatype Node = Dir | File(data: Bytes)

  type Remote = map<Path, Node>

  type Remotes = seq<Remote>

  predicate IsDir(r: Remote, p: Path) {
    p == [] || (p in r && r[p].Dir?)
  }

  /** A directory is missing on a remote together with all its files. */
  ghost predicate ParentsExist(rs: Remotes) {
    forall i, d: Path, n :: 0 <= i < |rs| && d + [n] in rs[i] ==> IsDir(rs[i], d)
  }

  function FileAt(r: Remote, p: Path): Option<Bytes> {
    if p in r && r[p].File? then Some(r[p].data) else None
  }

  /** The least remote that holds a file at `p`: "remoteIndex < existing.RemoteIndex" wins. */
  function FirstFile(rs: Remotes, p: Path): (o: Option<nat>)
    ensures o.Some? ==>
      && o.value < |rs| && FileAt(rs[o.value], p).Some?
      && forall j :: 0 <= j < o.value ==> FileAt(rs[j], p).None?
    ensures o.None? ==> forall j :: 0 <= j < |rs| ==> FileAt(rs[j], p).None?
  {
    if rs == [] then None
    else
      var n := |rs| - 1;
      match FirstFile(rs[..n], p)
      case Some(i) => Some(i)
      case None => if FileAt(rs[n], p).Some? then Some(n) else None
  }

  /** The bytes of the winning copy. */
  function FirstData(rs: Remotes, p: Path): Bytes {
    match FirstFile(rs, p)
    case Some(i) => FileAt(rs[i], p).value
    case None => []
  }

  /** The first copy is the one with none before it. */
  lemma FirstCopy(rs: Remotes, p: Path, i: nat)
    requires i < |rs| && FileAt(rs[i], p).Some? && forall j :: 0 <= j < i ==> FileAt(rs[j], p).None?
    ensures FirstFile(rs, p) == Some(i) && FirstData(rs, p) == FileAt(rs[i], p).value
  {
  }

  /** Two states hold the same file, or none, at `p` on every remote. */
  ghost predicate Agree(rs: Remotes, rs': Remotes, p: Path) {
    |rs| == |rs'| && forall i :: 0 <= i < |rs| ==> FileAt(rs[i], p) == FileAt(rs'[i], p)
  }

  lemma AgreeFirst(rs: Remotes, rs': Remotes, p: Path)
    requires Agree(rs, rs', p)
    ensures FirstFile(rs, p) == FirstFile(rs', p) && FirstData(rs, p) == FirstData(rs', p)
  {
    var a, b := FirstFile(rs, p), FirstFile(rs', p);
    if a.Some? { assert FileAt(rs'[a.value], p).Some?; }
    if b.Some? { assert FileAt(rs[b.value], p).Some?; }
  }

  ghost function Least(s: set<nat>): (m: nat)
    requires s != {}
    ensures m in s && forall k :: k in s ==> m <= k
  {
    var x :| x in s;
    if s == {x} then x
    else
      assert s == {x} + (s - {x});
      var y := Least(s - {x});
      assert forall k :: k in s ==> k == x || k in s - {x};
      if x < y then x else y
  }

  /** A set in ascending order, as sort.Slice leaves the part numbers. */
  ghost function Sorted(s: set<nat>): (r: seq<nat>)
    ensures Ascending(r) && forall k :: k in s <==> k in r
  {
    if s == {} then []
    else
      var m := Least(s);
      var rest := Sorted(s - {m});
      assert forall k :: k in s <==> k == m || k in rest;
      assert forall i :: 0 <= i < |rest| ==> rest[i] in rest;
      [m] + rest
  }

  /** Ascending order leaves one enumeration only. */
  lemma {:induction false} SortedUnique(s: set<nat>, r: seq<nat>)
    requires Ascending(r) && forall k :: k in s <==> k in r
    ensures Sorted(s) == r
  {
    var t := Sorted(s);
    AscendingUnique(t, r);
  }
}
