/** Directory operations run on every remote that has the directory; the merged view follows them. */
module DirOps {
  import opened Prelude
  import opened RemoteStore
  import opened RemoteOps
  import opened ChunkView
  import opened ChunkListing
  import opened ChunkStates
  import opened BaseWrite

  function NodeAt(r: Remote, p: Path): Option<Node> {
    if p in r then Some(r[p]) else None
  }

  /** Every node lies in a directory. */
  ghost predicate WellFormed(r: Remote) {
    forall p :: p in r && |p| > 0 ==> IsDir(r, p[..|p| - 1])
  }

  /** Nothing lies at or below `p`. */
  ghost predicate Free(r: Remote, p: Path) {
    forall q :: p <= q ==> q !in r
  }

  lemma {:induction false} NothingBelow(r: Remote, p: Path, q: Path)
    requires WellFormed(r) && p <= q && p != [] && (p !in r || (r[p].File? && p != q))
    ensures q !in r
  {
    if q in r && p != q {
      assert p <= q[..|q| - 1];
      if p != q[..|q| - 1] { NothingBelow(r, p, q[..|q| - 1]); }
    }
  }

  /** Every file outside the two trees stays, and every directory but those on the way to `dst`. */
  ghost predicate Beside(r: Remote, r': Remote, src: Path, dst: Path) {
    && (forall p :: !(src <= p) && !(dst <= p) ==> FileAt(r', p) == FileAt(r, p))
    && (forall p :: !(src <= p) && !(dst <= p) && !(p <= dst) ==> NodeAt(r', p) == NodeAt(r, p))
  }

  /** What a successful move or rename of `src` to `dst` does to one remote. */
  ghost predicate TreeMoved(r: Remote, r': Remote, src: Path, dst: Path) {
    && (forall q :: NodeAt(r', dst + q) == NodeAt(r, src + q))
    && (forall q :: NodeAt(r', src + q) == None)
    && Beside(r, r', src, dst)
  }

  /** What a successful copy does to one remote. */
  ghost predicate TreeCopied(r: Remote, r': Remote, src: Path, dst: Path) {
    && (forall q :: NodeAt(r', dst + q) == NodeAt(r, src + q))
    && (forall q :: NodeAt(r', src + q) == NodeAt(r, src + q))
    && Beside(r, r', src, dst)
  }

  ghost predicate TreeRemoved(r: Remote, r': Remote, src: Path) {
    && (forall q :: NodeAt(r', src + q) == None)
    && (forall p :: !(src <= p) ==> NodeAt(r', p) == NodeAt(r, p))
  }

  lemma MovedNodes(r: Remote, src: Path, dst: Path, p: Path)
    ensures p in Moved(r, src, dst) <==> dst <= p && src + p[|dst|..] in r
    ensures p in Moved(r, src, dst) ==> Moved(r, src, dst)[p] == r[src + p[|dst|..]]
  {
    if dst <= p && src + p[|dst|..] in r {
      var o := src + p[|dst|..];
      assert src <= o && o[|src|..] == p[|dst|..];
      assert p == dst + o[|src|..];
    }
  }

  /** Directories made on the way to `dir` lie neither below `src` nor at `dst`. */
  lemma DirsMade(r: Remote, dir: Path, src: Path, dst: Path)
    requires !(src <= dir) && |dst| > |dir| && Free(r, dst)
    ensures Free(WithDirs(r, dir), dst)
    ensures forall q :: src <= q ==> NodeAt(WithDirs(r, dir), q) == NodeAt(r, q)
    ensures forall q :: FileAt(WithDirs(r, dir), q) == FileAt(r, q)
    ensures forall q :: !(q <= dir) ==> NodeAt(WithDirs(r, dir), q) == NodeAt(r, q)
  {
    forall q | src <= q
      ensures NodeAt(WithDirs(r, dir), q) == NodeAt(r, q)
    {
      assert q <= dir ==> src <= dir;
    }
  }

  lemma RelocateMovesTree(r: Remote, src: Path, dst: Path)
    requires src != [] && src in r && Free(r, dst) && !(src <= dst)
    requires r[src].File? ==> forall q :: src <= q && q != src ==> q !in r
    ensures TreeMoved(r, Relocated(r, src, dst), src, dst)
  {
    assert !(dst <= src);
    RelocateBeside(r, src, dst);
    hide Beside;
    var r' := Relocated(r, src, dst);
    forall q
      ensures NodeAt(r', dst + q) == NodeAt(r, src + q)
      ensures NodeAt(r', src + q) == None
    {
      assert dst <= dst + q && src <= src + q && (dst + q)[|dst|..] == q;
      Overlap(src, dst, q);
      MovedNodes(r, src, dst, dst + q);
      MovedNodes(r, src, dst, src + q);
      assert r[src].File? && q != [] ==> src + q != src && dst + q != dst;
      assert q == [] ==> src + q == src && dst + q == dst;
    }
  }

  lemma RelocateBeside(r: Remote, src: Path, dst: Path)
    requires src in r
    ensures Beside(r, Relocated(r, src, dst), src, dst)
  {
    var r' := Relocated(r, src, dst);
    forall p | !(src <= p) && !(dst <= p)
      ensures NodeAt(r', p) == NodeAt(r, p)
    {
      MovedNodes(r, src, dst, p);
    }
  }

  lemma Comparable(a: Path, b: Path, q: Path)
    requires a <= b + q
    ensures a <= b || b <= a
  {
    assert a == (b + q)[..|a|];
    if |a| <= |b| {
      assert b[..|a|] == a;
    } else {
      assert a[..|b|] == b;
    }
  }

  /** Two trees neither of which contains the other share no path. */
  lemma Overlap(src: Path, dst: Path, q: Path)
    requires !(src <= dst) && !(dst <= src)
    ensures !(src <= dst + q) && !(dst <= src + q)
  {
    if src <= dst + q { Comparable(src, dst, q); }
    if dst <= src + q { Comparable(dst, src, q); }
  }

  lemma CopyCopiesTree(r: Remote, src: Path, dst: Path)
    requires src != [] && src in r && Free(r, dst) && !(src <= dst)
    requires r[src].File? ==> forall q :: src <= q && q != src ==> q !in r
    ensures TreeCopied(r, Copied(r, src, dst), src, dst)
  {
    assert !(dst <= src);
    CopyBeside(r, src, dst);
    hide Beside;
    var r' := Copied(r, src, dst);
    forall q
      ensures NodeAt(r', dst + q) == NodeAt(r, src + q)
      ensures NodeAt(r', src + q) == NodeAt(r, src + q)
    {
      assert dst <= dst + q && (dst + q)[|dst|..] == q;
      Overlap(src, dst, q);
      MovedNodes(r, src, dst, dst + q);
      MovedNodes(r, src, dst, src + q);
      assert r[src].File? && q != [] ==> src + q != src && dst + q != dst;
      assert q == [] ==> src + q == src && dst + q == dst;
    }
  }

  lemma CopyBeside(r: Remote, src: Path, dst: Path)
    requires src in r
    ensures Beside(r, Copied(r, src, dst), src, dst)
  {
    var r' := Copied(r, src, dst);
    forall p | !(dst <= p)
      ensures NodeAt(r', p) == NodeAt(r, p)
    {
      MovedNodes(r, src, dst, p);
    }
  }

  /** MakeDir of the parent, or not: the source is untouched and the destination still free. */
  ghost predicate Prepared(r: Remote, mid: Remote, src: Path, dst: Path) {
    && (forall q :: NodeAt(mid, src + q) == NodeAt(r, src + q))
    && Beside(r, mid, src, dst) && Free(mid, dst)
  }

  lemma Prepares(r: Remote, mid: Remote, src: Path, dst: Path)
    requires src != [] && dst != [] && !(src <= dst[..|dst| - 1]) && Free(r, dst)
    requires mid == r || mid == WithDirs(r, dst[..|dst| - 1])
    ensures Prepared(r, mid, src, dst)
  {
    DirsMade(r, dst[..|dst| - 1], src, dst);
    forall q
      ensures NodeAt(mid, src + q) == NodeAt(r, src + q)
    {
      assert src <= src + q;
    }
    forall p | !(p <= dst)
      ensures NodeAt(mid, p) == NodeAt(r, p)
    {
      assert p <= dst[..|dst| - 1] ==> p <= dst;
    }
  }

  lemma FreePrepared(r: Remote, mid: Remote, src: Path, dst: Path)
    requires Prepared(r, mid, src, dst)
    ensures Free(mid, dst)
  {
  }

  lemma MovedAfter(r: Remote, mid: Remote, r': Remote, src: Path, dst: Path)
    requires Prepared(r, mid, src, dst)
    ensures TreeMoved(mid, r', src, dst) ==> TreeMoved(r, r', src, dst)
    ensures TreeCopied(mid, r', src, dst) ==> TreeCopied(r, r', src, dst)
  {
  }

  // ---- across all remotes ----

  datatype Kind = MoveDir | CopyDir | RenameDir | RemoveDir

  /** The operation proper. */
  function Operation(kind: Kind, src: Path, dst: Path): Action
    requires dst != []
  {
    match kind
    case MoveDir => MoveTo(src, dst[..|dst| - 1])
    case CopyDir => CopyTo(src, dst[..|dst| - 1])
    case RenameDir => RenameTo(src, dst[|dst| - 1])
    case RemoveDir => Delete(src)
  }

  /** One directory operation and the state it started from. */
  datatype Job = Job(kind: Kind, rs0: Remotes, src: Path, dst: Path) {

    /** The place is free on every remote and not inside the source. */
    ghost predicate Sound() {
      && src != [] && dst != []
      && (forall r :: r in rs0 ==> WellFormed(r))
      && (kind != RemoveDir ==> !(src <= dst) && !(src <= dst[..|dst| - 1]) && forall r :: r in rs0 ==> Free(r, dst))
    }

    /** What the operation makes of one remote. */
    ghost predicate Made(r: Remote, r': Remote) {
      match kind
      case MoveDir => TreeMoved(r, r', src, dst)
      case RenameDir => TreeMoved(r, r', src, dst)
      case CopyDir => TreeCopied(r, r', src, dst)
      case RemoveDir => TreeRemoved(r, r', src)
    }

    /** Remote `i` has been handled. */
    ghost predicate Handled(rs: Remotes, i: nat)
      requires i < |rs| == |rs0|
    {
      Made(rs0[i], rs[i])
    }

    /** Remote `i` is as it was, but perhaps for directories on the way to the destination. */
    ghost predicate Spared(rs: Remotes, i: nat)
      requires i < |rs| == |rs0|
    {
      rs[i] == rs0[i] || ((kind == MoveDir || kind == CopyDir) && dst != [] && rs[i] == WithDirs(rs0[i], dst[..|dst| - 1]))
    }

    ghost predicate Done(rs: Remotes) {
      && |rs| == |rs0|
      && (forall i: nat :: i < |rs| ==> Handled(rs, i))
    }

    /** What is asked of remote `k` in its turn; a copy first asks once more whether the source is there. */
    function Steps(k: nat): (plan: seq<Call>)
      requires k < |rs0| && dst != []
    {
      var made, done := Call(k, MakeDir(dst[..|dst| - 1])), Call(k, Operation(kind, src, dst));
      match kind
      case MoveDir => [made, done]
      case CopyDir => [Call(k, Ask(src))] + if src in rs0[k] then [made, done] else []
      case RenameDir => [done]
      case RemoveDir => [done]
    }

    /** How far a turn can get. */
    lemma Steppings(k: nat)
      requires k < |rs0| && dst != []
      ensures var made, done, ask := Call(k, MakeDir(dst[..|dst| - 1])), Call(k, Operation(kind, src, dst)), Call(k, Ask(src));
        match kind
        case MoveDir =>
          && InOrder([] + [Event(made, false)], 0, Steps(k), false)
          && forall ok :: InOrder([] + [Event(made, true)] + [Event(done, ok)], 0, Steps(k), ok)
        case CopyDir =>
          && InOrder([Event(ask, false)], 0, Steps(k), false)
          && (src !in rs0[k] ==> InOrder([Event(ask, true)], 0, Steps(k), true))
          && (src in rs0[k] ==> InOrder([Event(ask, true)] + [Event(made, false)], 0, Steps(k), false))
          && (src in rs0[k] ==> forall ok :: InOrder([Event(ask, true)] + [Event(made, true)] + [Event(done, ok)], 0, Steps(k), ok))
        case RenameDir => forall ok :: InOrder([] + [Event(done, ok)], 0, Steps(k), ok)
        case RemoveDir => forall ok :: InOrder([] + [Event(done, ok)], 0, Steps(k), ok)
    {
    }

    /** Remote `k` has had its turn: it is handled if all its steps succeeded, and spared otherwise. */
    ghost predicate Settled(rs: Remotes, events: seq<Event>, k: nat)
      requires k < |rs| == |rs0| && dst != []
    {
      exists ok :: InOrder(EventsOn(events, k), 0, Steps(k), ok) && (if ok then Sound() ==> Handled(rs, k) else Spared(rs, k))
    }

    /** Every remote that has the source has had its turn, whatever happened on the others, and nothing was asked of
        the rest; a copy of what no remote has asks them all. */
    ghost predicate Halfway(rs: Remotes, events: seq<Event>)
      requires dst != []
    {
      && |rs| == |rs0|
      && (forall i: nat :: i < |rs| ==>
            if src in rs0[i] || (kind == CopyDir && forall r :: r in rs0 ==> src !in r) then Settled(rs, events, i)
            else rs[i] == rs0[i] && EventsOn(events, i) == [])
    }

    /** A remote without the source directory needs no handling. */
    lemma Absent(i: nat)
      requires Sound() && i < |rs0| && src !in rs0[i]
      ensures Handled(rs0, i)
    {
      var r := rs0[i];
      assert r in rs0;
      forall q
        ensures src + q !in r && (kind != RemoveDir ==> dst + q !in r)
      {
        NothingBelow(r, src, src + q);
        assert dst <= dst + q;
      }
    }

    /** The first `j` locations have been visited, the other remotes not been touched. */
    ghost predicate At(rs: Remotes, events: seq<Event>, locations: seq<nat>, j: nat)
      requires dst != []
    {
      && |rs| == |rs0| && j <= |locations|
      && (forall a, b :: 0 <= a < b < |locations| ==> locations[a] < locations[b])
      && (forall i :: i in locations ==> i < |rs|)
      && (forall i: nat :: i < |rs| && i !in locations[..j] ==> rs[i] == rs0[i] && EventsOn(events, i) == [])
      && (forall i: nat :: i < |rs| && i in locations[..j] ==> Settled(rs, events, i))
    }

    /** The remotes to be visited. */
    ghost predicate Located(locations: seq<nat>) {
      && (forall a, b :: 0 <= a < b < |locations| ==> locations[a] < locations[b])
      && (forall i :: i in locations ==> i < |rs0|)
      && (forall i: nat :: i < |rs0| ==> (i in locations <==>
            src in rs0[i] || (kind == CopyDir && forall r :: r in rs0 ==> src !in r)))
    }

    lemma Started(locations: seq<nat>)
      requires Located(locations) && dst != []
      ensures At(rs0, [], locations, 0)
    {
    }

    /** What was found is to be visited, or all of them if a copy found nothing. */
    lemma AllLocated(found: seq<nat>)
      requires forall a, b :: 0 <= a < b < |found| ==> found[a] < found[b]
      requires forall i :: i in found ==> i < |rs0| && src in rs0[i]
      requires forall i: nat :: i < |rs0| && src in rs0[i] ==> i in found
      requires |found| == 0 <==> forall r :: r in rs0 ==> src !in r
      ensures |found| > 0 ==> Located(found)
      ensures |found| == 0 && kind == CopyDir ==> Located(seq(|rs0|, i => i))
    {
      var all := seq(|rs0|, i => i);
      forall i: nat | i < |rs0|
        ensures i in all
      {
        assert all[i] == i;
      }
    }

    /** A visited remote has the source, or this is a copy. */
    lemma Visits(locations: seq<nat>, j: nat)
      requires Located(locations) && j < |locations|
      ensures locations[j] < |rs0| && (kind == CopyDir || src in rs0[locations[j]])
    {
      assert locations[j] in locations;
    }

    /** No remote has the source exactly if none was found. */
    lemma NothingFound(found: seq<nat>)
      requires forall i :: i in found ==> i < |rs0| && src in rs0[i]
      requires forall i: nat :: i < |rs0| && src in rs0[i] ==> i in found
      ensures |found| == 0 <==> forall r :: r in rs0 ==> src !in r
    {
      if |found| > 0 {
        assert found[0] in found && rs0[found[0]] in rs0;
      } else {
        forall r | r in rs0
          ensures src !in r
        {
          var i: nat :| i < |rs0| && rs0[i] == r;
          assert i !in found;
        }
      }
    }

    /** The location to be visited next. */
    lemma Next(rs: Remotes, events: seq<Event>, locations: seq<nat>, j: nat)
      requires dst != [] && At(rs, events, locations, j) && j < |locations|
      ensures locations[j] < |rs| == |rs0| && rs[locations[j]] == rs0[locations[j]] && EventsOn(events, locations[j]) == []
    {
      assert locations[j] in locations && locations[j] !in locations[..j];
    }

    lemma Visited(rs: Remotes, events: seq<Event>, rs': Remotes, more: seq<Event>, locations: seq<nat>, j: nat, ok: bool)
      requires dst != [] && At(rs, events, locations, j) && j < |locations| && |rs'| == |rs|
      requires forall i :: 0 <= i < |rs| && i != locations[j] ==> rs'[i] == rs[i]
      requires locations[j] < |rs0| && InOrder(more, 0, Steps(locations[j]), ok)
      requires if ok then Sound() ==> Handled(rs', locations[j]) else Spared(rs', locations[j])
      ensures At(rs', events + more, locations, j + 1)
    {
      hide Sound, Made, Steps, InOrder, Spared, EventsOn, Settled;
      var k := locations[j];
      Next(rs, events, locations, j);
      assert locations[..j + 1] == locations[..j] + [k] && k in locations;
      StepsAreOn(k, more, ok);
      ThisSettled(rs', events, more, k, ok);
      forall i: nat | i < |rs| && i != k
        ensures EventsOn(events + more, i) == EventsOn(events, i)
        ensures Settled(rs, events, i) ==> Settled(rs', events + more, i)
      {
        OthersSettled(rs, events, rs', more, i, k);
      }
    }

    lemma ThisSettled(rs: Remotes, events: seq<Event>, more: seq<Event>, k: nat, ok: bool)
      requires dst != [] && k < |rs| == |rs0| && EventsOn(events, k) == [] && InOrder(more, 0, Steps(k), ok)
      requires if ok then Sound() ==> Handled(rs, k) else Spared(rs, k)
      requires forall e :: e in more ==> e.call.remote == k
      ensures Settled(rs, events + more, k)
    {
      OnlyOn(more, k);
      EventsOnAppend(events, more, k);
      hide Sound, Made, Steps, InOrder, Spared, EventsOn;
      assert [] + more == more;
    }

    lemma OthersSettled(rs: Remotes, events: seq<Event>, rs': Remotes, more: seq<Event>, i: nat, k: nat)
      requires dst != [] && i < |rs| == |rs0| == |rs'| && i != k && rs'[i] == rs[i]
      requires forall e :: e in more ==> e.call.remote == k
      ensures EventsOn(events + more, i) == EventsOn(events, i)
      ensures Settled(rs, events, i) ==> Settled(rs', events + more, i)
    {
      EventsOnAppend(events, more, i);
      NoneOn(more, k, i);
      hide Sound, Made, Steps, InOrder, EventsOn, Spared;
      assert EventsOn(events, i) + [] == EventsOn(events, i);
    }

    lemma StepsAreOn(k: nat, more: seq<Event>, ok: bool)
      requires dst != [] && k < |rs0| && InOrder(more, 0, Steps(k), ok)
      ensures forall e :: e in more ==> e.call.remote == k
    {
      assert forall c :: c in Steps(k) ==> c.remote == k;
      hide Steps;
      forall e | e in more
        ensures e.call.remote == k
      {
        var i :| 0 <= i < |more| && more[i] == e;
        assert e.call == Steps(k)[i];
      }
    }

    /** All locations have been visited. */
    lemma Ended(rs: Remotes, events: seq<Event>, locations: seq<nat>)
      requires dst != [] && At(rs, events, locations, |locations|) && Located(locations)
      ensures Halfway(rs, events)
      ensures Sound() && AllOk(events) ==> Done(rs)
    {
      assert locations[..|locations|] == locations;
      if Sound() && AllOk(events) {
        forall i: nat | i < |rs|
          ensures Handled(rs, i)
        {
          if i in locations {
            AllWell(rs, events, i);
          } else {
            Absent(i);
          }
        }
      }
    }

    lemma AllWell(rs: Remotes, events: seq<Event>, i: nat)
      requires dst != [] && i < |rs| == |rs0| && Settled(rs, events, i) && Sound() && AllOk(events)
      ensures Handled(rs, i)
    {
      EventsOnIn(events, i);
      var mine := EventsOn(events, i);
      hide Steps, Sound, Made, Spared;
      assert mine != [] ==> mine[|mine| - 1] in mine;
    }

    /** MakeDir of the parent, or not, then the operation itself. */
    lemma Transfers(r: Remote, mid: Remote)
      requires Sound() && r in rs0 && src in r && kind != RemoveDir
      requires mid == r || mid == WithDirs(r, dst[..|dst| - 1])
      ensures src in mid
      ensures kind != CopyDir ==> Made(r, Relocated(mid, src, dst))
      ensures kind == CopyDir ==> Made(r, Copied(mid, src, dst))
    {
      Prepares(r, mid, src, dst);
      assert src + [] == src && NodeAt(mid, src + []) == NodeAt(r, src + []);
      forall q | src <= q && q != src && r[src].File?
        ensures q !in mid
      {
        NothingBelow(r, src, q);
        assert q == src + q[|src|..] && NodeAt(mid, src + q[|src|..]) == NodeAt(r, src + q[|src|..]);
      }
      hide Prepared, Relocated, Copied, TreeMoved, TreeCopied, WithDirs;
      FreePrepared(r, mid, src, dst);
      if kind == CopyDir {
        CopyCopiesTree(mid, src, dst);
        MovedAfter(r, mid, Copied(mid, src, dst), src, dst);
      } else {
        RelocateMovesTree(mid, src, dst);
        MovedAfter(r, mid, Relocated(mid, src, dst), src, dst);
      }
    }

    lemma Removes(r: Remote)
      requires Sound() && r in rs0 && src in r && kind == RemoveDir
      ensures Made(r, Removed(r, src))
    {
      forall q
        ensures src + q !in Removed(r, src)
      {
        assert src <= src + q && (q == [] ==> src + q == src);
        if r[src].File? && q != [] { NothingBelow(r, src, src + q); }
      }
    }

    /** The operation on one remote, from the state before its MakeDir. */
    lemma Handle(r: Remote, mid: Remote)
      requires Sound() && r in rs0 && src in r
      requires mid == r || (kind != RemoveDir && mid == WithDirs(r, dst[..|dst| - 1]))
      ensures kind == MoveDir || kind == RenameDir ==> Made(r, Relocated(mid, src, dst))
      ensures kind == CopyDir ==> Made(r, Copied(mid, src, dst))
      ensures kind == RemoveDir ==> Made(r, Removed(mid, src))
    {
      if kind == RemoveDir {
        Removes(r);
      } else {
        Transfers(r, mid);
      }
    }
  }

  ghost predicate AllOk(events: seq<Event>) {
    forall e :: e in events ==> e.ok
  }

  /** What was asked of one remote. */
  ghost function EventsOn(events: seq<Event>, k: nat): seq<Event> {
    if events == [] then []
    else
      var last := events[|events| - 1];
      EventsOn(events[..|events| - 1], k) + if last.call.remote == k then [last] else []
  }

  lemma {:induction false} EventsOnAppend(a: seq<Event>, b: seq<Event>, k: nat)
    ensures EventsOn(a + b, k) == EventsOn(a, k) + EventsOn(b, k)
  {
    if b == [] {
      assert a + b == a;
    } else {
      assert (a + b)[..|a + b| - 1] == a + b[..|b| - 1];
      EventsOnAppend(a, b[..|b| - 1], k);
    }
  }

  lemma {:induction false} OnlyOn(events: seq<Event>, k: nat)
    requires forall e :: e in events ==> e.call.remote == k
    ensures EventsOn(events, k) == events
  {
    if events != [] { OnlyOn(events[..|events| - 1], k); }
  }

  lemma {:induction false} NoneOn(events: seq<Event>, k: nat, i: nat)
    requires i != k && forall e :: e in events ==> e.call.remote == k
    ensures EventsOn(events, i) == []
  {
    if events != [] { NoneOn(events[..|events| - 1], k, i); }
  }

  lemma {:induction false} EventsOnIn(events: seq<Event>, k: nat)
    ensures forall e :: e in EventsOn(events, k) ==> e in events
  {
    if events != [] { EventsOnIn(events[..|events| - 1], k); }
  }

  /** existingLocationsForDir: the remotes that have the path, unless one of them cannot be asked. */
  method ExistingLocations(rs: Remotes, p: Path, down: set<nat>) returns (found: Option<seq<nat>>)
    ensures found.None? <==> exists i: nat :: i < |rs| && i in down
    ensures found.Some? ==> forall i :: i in found.value ==> i < |rs| && p in rs[i]
    ensures found.Some? ==> forall i: nat :: i < |rs| && p in rs[i] ==> i in found.value
    ensures found.Some? ==> forall a, b :: 0 <= a < b < |found.value| ==> found.value[a] < found.value[b]
  {
    var s: seq<nat> := [];
    for i := 0 to |rs|
      invariant forall k: nat :: k < i ==> k !in down
      invariant forall k :: k in s ==> k < i && p in rs[k]
      invariant forall k: nat :: k < i && p in rs[k] ==> k in s
      invariant forall a, b :: 0 <= a < b < |s| ==> s[a] < s[b]
    {
      if i in down {
        return None;
      }
      if p in rs[i] {
        assert forall a :: 0 <= a < |s| ==> s[a] in s;
        s := s + [i];
      }
    }
    found := Some(s);
  }

  /** A rename stays in its directory, a move or copy keeps the last name. */
  predicate Suits(kind: Kind, src: Path, dst: Path)
    requires src != [] && dst != []
  {
    && (kind == RenameDir ==> dst[..|dst| - 1] == src[..|src| - 1])
    && (kind == MoveDir || kind == CopyDir ==> dst[|dst| - 1] == src[|src| - 1])
  }

  datatype Outcome = Success | SourceMissing | SomeFailed | NotLocated

  /** One turn of the loops: MakeDir of the destination's parent for a move or copy, then the operation.  A copy
      asks once more whether the source is there and passes over a remote without it. */
  method OnTarget(m: Mounts, kind: Kind, src: Path, dst: Path, k: nat, ghost job: Job)
      returns (ok: bool, ghost events: seq<Event>)
    requires m.Valid() && src != [] && dst != [] && k < |m.remotes| == |job.rs0| && (kind == CopyDir || src in m.remotes[k])
    requires Suits(kind, src, dst)
    requires (kind, src, dst) == (job.kind, job.src, job.dst) && m.remotes[k] == job.rs0[k]
    modifies m
    ensures m.Valid() && old(m.trace) <= m.trace && |m.remotes| == |old(m.remotes)|
    ensures forall i :: 0 <= i < |m.remotes| && i != k ==> m.remotes[i] == old(m.remotes)[i]
    ensures ok && job.Sound() ==> job.Handled(m.remotes, k)
    ensures !ok ==> job.Spared(m.remotes, k)
    ensures m.log == old(m.log) + events && InOrder(events, 0, job.Steps(k), ok)
  {
    hide Job.Made, Job.Sound, Relocated, Copied, Removed, WithDirs, Job.Steps, InOrder;
    ghost var r := m.remotes[k];
    assert r in job.rs0;
    events := [];
    if kind == CopyDir {
      var there := m.Exists(k, src);
      job.Steppings(k);
      events := [Event(Call(k, Ask(src)), there.Some?)];
      if there.None? {
        return false, events;
      }
      if !there.value {
        if job.Sound() { job.Absent(k); }
        return true, events;
      }
    }
    if kind == MoveDir || kind == CopyDir {
      ok := m.EnsureDir(k, dst[..|dst| - 1]);
      job.Steppings(k);
      events := events + [Event(Call(k, MakeDir(dst[..|dst| - 1])), ok)];
      if !ok {
        return;
      }
    }
    if job.Sound() {
      job.Handle(r, m.remotes[k]);
    }
    ok := Operate(m, kind, src, dst, k);
    job.Steppings(k);
    events := events + [Event(Call(k, Operation(kind, src, dst)), ok)];
  }

  /** The remote operation itself. */
  method Operate(m: Mounts, kind: Kind, src: Path, dst: Path, k: nat) returns (ok: bool)
    requires m.Valid() && src != [] && dst != [] && k < |m.remotes|
    requires Suits(kind, src, dst)
    modifies m
    ensures m.Valid() && old(m.trace) <= m.trace
    ensures m.log == old(m.log) + [Event(Call(k, Operation(kind, src, dst)), ok)]
    ensures ok ==> m.remotes == old(m.remotes)[k := match kind
      case MoveDir => Relocated(old(m.remotes)[k], src, dst)
      case RenameDir => Relocated(old(m.remotes)[k], src, dst)
      case CopyDir => Copied(old(m.remotes)[k], src, dst)
      case RemoveDir => Removed(old(m.remotes)[k], src)]
    ensures !ok ==> m.remotes == old(m.remotes)
  {
    hide Relocated, Copied, Removed;
    var parent := dst[..|dst| - 1];
    assert dst == parent + [dst[|dst| - 1]];
    match kind {
      case MoveDir => ok := m.Move(k, src, parent);
      case CopyDir => ok := m.Copy(k, src, parent);
      case RenameDir => ok := m.Rename(k, src, dst[|dst| - 1]);
      case RemoveDir => ok := m.Remove(k, src);
    }
  }

  /** moveDirAcrossTargets, copyDirAcrossTargets, renameDirAcrossTargets and removeDirAcrossTargets: the
      same operation on every remote that has the source; errors are collected and the loop goes on.
      A missing source is an error except for a copy, and so is a remote that cannot be asked. */
  method AcrossTargets(m: Mounts, kind: Kind, src: Path, dst: Path, down: set<nat>, ghost job: Job) returns (o: Outcome)
    requires m.Valid() && src != [] && dst != []
    requires Suits(kind, src, dst)
    requires job == Job(kind, m.remotes, src, dst)
    modifies m
    ensures m.Valid() && old(m.trace) <= m.trace && |m.remotes| == |old(m.remotes)|
    ensures o == NotLocated <==> exists i: nat :: i < |old(m.remotes)| && i in down
    ensures o == SourceMissing <==> o != NotLocated && kind != CopyDir && forall r :: r in old(m.remotes) ==> src !in r
    ensures o == NotLocated || o == SourceMissing ==> m.remotes == old(m.remotes)
    ensures o == NotLocated || o == SourceMissing ==> m.log == old(m.log)
    ensures o == Success && job.Sound() ==> job.Done(m.remotes)
    ensures o == Success || o == SomeFailed ==>
      && old(m.log) <= m.log && job.Halfway(m.remotes, m.log[|old(m.log)|..])
      && (o == Success <==> AllOk(m.log[|old(m.log)|..]))
  {
    var found := ExistingLocations(m.remotes, src, down);
    if found.None? {
      return NotLocated;
    }
    var locations := found.value;
    job.NothingFound(locations);
    job.AllLocated(locations);
    hide Job.Done, Job.Sound, Job.Halfway, Job.Located;
    if |locations| == 0 {
      if kind != CopyDir {
        return SourceMissing;
      }
      locations := seq(|m.remotes|, i => i);
    }
    ghost var events;
    o, events := VisitAll(m, kind, src, dst, locations, job);
    assert m.log[|old(m.log)|..] == events;
  }

  /** The loops: every location has its turn, errors are collected. */
  method VisitAll(m: Mounts, kind: Kind, src: Path, dst: Path, locations: seq<nat>, ghost job: Job)
      returns (o: Outcome, ghost events: seq<Event>)
    requires m.Valid() && src != [] && dst != []
    requires Suits(kind, src, dst)
    requires job == Job(kind, m.remotes, src, dst) && job.Located(locations)
    modifies m
    ensures m.Valid() && old(m.trace) <= m.trace && |m.remotes| == |old(m.remotes)|
    ensures m.log == old(m.log) + events && job.Halfway(m.remotes, events)
    ensures o == if AllOk(events) then Success else SomeFailed
    ensures o == Success && job.Sound() ==> job.Done(m.remotes)
  {
    events := [];
    job.Started(locations);
    assert m.log == old(m.log) + events && AllOk(events);
    hide Job.Made, Job.Sound, Job.At, Job.Steps, Job.Located, Job.Spared, Job.Handled, Job.Halfway, Job.Done, InOrder, EventsOn, Operation,
         Suits, AllOk;
    o := Success;
    for j := 0 to |locations|
      invariant m.Valid() && old(m.trace) <= m.trace && |m.remotes| == |old(m.remotes)|
      invariant m.log == old(m.log) + events
      invariant o == if AllOk(events) then Success else SomeFailed
      invariant job.At(m.remotes, events, locations, j)
    {
      ghost var more;
      var ok;
      ok, more := Turn(m, kind, src, dst, locations, j, job, events);
      events := events + more;
      if !ok {
        o := SomeFailed;
      }
    }
    job.Ended(m.remotes, events, locations);
  }

  /** One turn of the loop. */
  method Turn(m: Mounts, kind: Kind, src: Path, dst: Path, locations: seq<nat>, j: nat, ghost job: Job, ghost events: seq<Event>)
      returns (ok: bool, ghost more: seq<Event>)
    requires m.Valid() && src != [] && dst != []
    requires Suits(kind, src, dst)
    requires job.kind == kind && job.src == src && job.dst == dst && job.Located(locations) && j < |locations|
    requires job.At(m.remotes, events, locations, j)
    modifies m
    ensures m.Valid() && old(m.trace) <= m.trace && |m.remotes| == |old(m.remotes)|
    ensures m.log == old(m.log) + more && job.At(m.remotes, events + more, locations, j + 1)
    ensures AllOk(events + more) <==> AllOk(events) && ok
  {
    hide Job.Made, Job.Sound, Job.At, Job.Steps, Job.Located, Job.Spared, Job.Handled, Job.Halfway, Job.Done, InOrder, EventsOn, Operation,
         Suits, AllOk;
    job.Next(m.remotes, events, locations, j);
    job.Visits(locations, j);
    ghost var was := m.remotes;
    ok, more := OnTarget(m, kind, src, dst, locations[j], job);
    job.Visited(was, events, m.remotes, more, locations, j, ok);
    OrderWell(events, more, job.Steps(locations[j]), ok);
  }

  /** Steps in order have all succeeded or the last has not. */
  lemma OrderWell(events: seq<Event>, more: seq<Event>, plan: seq<Call>, ok: bool)
    requires InOrder(more, 0, plan, ok)
    ensures AllOk(events + more) <==> AllOk(events) && ok
  {
    if !ok { assert more[|more| - 1] in events + more; }
    assert forall e :: e in events ==> e in events + more;
  }

  // ---- the merged view ----

  /** `rs'` shows below `dst` what `rs` shows below `src`, remote by remote. */
  ghost predicate SameTree(rs: Remotes, src: Path, rs': Remotes, dst: Path) {
    && |rs| == |rs'|
    && forall i: nat, q :: i < |rs| ==> NodeAt(rs'[i], dst + q) == NodeAt(rs[i], src + q)
  }

  lemma FirstTransport(rs: Remotes, p: Path, rs': Remotes, p': Path)
    requires |rs| == |rs'| && forall i: nat :: i < |rs| ==> FileAt(rs'[i], p') == FileAt(rs[i], p)
    ensures FirstFile(rs', p') == FirstFile(rs, p) && FirstData(rs', p') == FirstData(rs, p)
  {
    var a, b := FirstFile(rs, p), FirstFile(rs', p');
    if a.Some? { assert FileAt(rs'[a.value], p').Some?; }
    if b.Some? { assert FileAt(rs[b.value], p).Some?; }
  }

  lemma FileTransport(rs: Remotes, src: Path, rs': Remotes, dst: Path, q: Path, n: string)
    requires SameTree(rs, src, rs', dst)
    ensures FirstFile(rs', dst + q + [n]) == FirstFile(rs, src + q + [n])
    ensures FirstData(rs', dst + q + [n]) == FirstData(rs, src + q + [n])
  {
    assert dst + q + [n] == dst + (q + [n]) && src + q + [n] == src + (q + [n]);
    forall i: nat | i < |rs|
      ensures FileAt(rs'[i], dst + q + [n]) == FileAt(rs[i], src + q + [n])
    {
      assert NodeAt(rs'[i], dst + (q + [n])) == NodeAt(rs[i], src + (q + [n]));
    }
    FirstTransport(rs, src + q + [n], rs', dst + q + [n]);
  }

  /** Chunks are seen as the same, whatever their spelling. */
  lemma SeenTransport(cfg: Config, rs: Remotes, src: Path, rs': Remotes, dst: Path, q: Path, m: string)
    requires SameTree(rs, src, rs', dst)
    ensures FirstFile(Seen(cfg, rs'), dst + q + [m]) == FirstFile(Seen(cfg, rs), src + q + [m])
    ensures FirstData(Seen(cfg, rs'), dst + q + [m]) == FirstData(Seen(cfg, rs), src + q + [m])
  {
    hide Seen, Canon, FirstFile, FirstData;
    forall i: nat | i < |rs|
      ensures FileAt(Seen(cfg, rs')[i], dst + q + [m]) == FileAt(Seen(cfg, rs)[i], src + q + [m])
    {
      forall n
        ensures FileAt(rs'[i], dst + q + [n]) == FileAt(rs[i], src + q + [n])
      {
        assert dst + q + [n] == dst + (q + [n]) && src + q + [n] == src + (q + [n]);
        assert NodeAt(rs'[i], dst + (q + [n])) == NodeAt(rs[i], src + (q + [n]));
      }
      SeenSame(cfg, rs', i, dst + q, rs, i, src + q, m);
    }
    FirstTransport(Seen(cfg, rs), src + q + [m], Seen(cfg, rs'), dst + q + [m]);
  }

  lemma PartsTransport(cfg: Config, rs: Remotes, src: Path, rs': Remotes, dst: Path, q: Path, name: string, x: string)
    requires NamesLawful(cfg) && SameTree(rs, src, rs', dst)
    ensures Parts(cfg, rs', dst + q, name, x) == Parts(cfg, rs, src + q, name, x)
    ensures forall no: nat :: PartExists(cfg, rs', dst + q, name, no, x) <==> PartExists(cfg, rs, src + q, name, no, x)
  {
    hide Seen, Parts, FirstFile, FirstData;
    forall no: nat
      ensures PartExists(cfg, rs', dst + q, name, no, x) <==> PartExists(cfg, rs, src + q, name, no, x)
      ensures PartOf(cfg, rs', dst + q, name, x, no) == PartOf(cfg, rs, src + q, name, x, no)
    {
      SeenTransport(cfg, rs, src, rs', dst, q, cfg.make(name, no, x));
    }
    PartsProperties(cfg, rs, src + q, name, x);
    hide PartOf, NamesLawful;
    forall no: nat | PartExists(cfg, rs', dst + q, name, no, x)
      ensures exists j :: 0 <= j < |Parts(cfg, rs, src + q, name, x)| && Parts(cfg, rs, src + q, name, x)[j].no == no
    {
      var j := PartsComplete(cfg, rs, src + q, name, x, no);
    }
    hide PartExists;
    PartsAre(cfg, rs', dst + q, name, x, Parts(cfg, rs, src + q, name, x));
  }

  lemma AnyPartTransport(cfg: Config, rs: Remotes, src: Path, rs': Remotes, dst: Path, q: Path, name: string)
    requires NamesLawful(cfg) && SameTree(rs, src, rs', dst)
    ensures AnyPart(cfg, rs', dst + q, name) <==> AnyPart(cfg, rs, src + q, name)
  {
    if AnyPart(cfg, rs', dst + q, name) {
      var no, x :| PartExists(cfg, rs', dst + q, name, no, x);
      PartsTransport(cfg, rs, src, rs', dst, q, name, x);
      assert PartExists(cfg, rs, src + q, name, no, x);
    }
    if AnyPart(cfg, rs, src + q, name) {
      var no, x :| PartExists(cfg, rs, src + q, name, no, x);
      PartsTransport(cfg, rs, src, rs', dst, q, name, x);
      assert PartExists(cfg, rs', dst + q, name, no, x);
    }
  }

  /** The merged view of every name in every sub-directory is carried over, including which remote wins
      each base file and each chunk. */
  lemma ViewTransport(cfg: Config, rs: Remotes, src: Path, rs': Remotes, dst: Path, q: Path, name: string)
    requires NamesLawful(cfg) && SameTree(rs, src, rs', dst)
    ensures ViewOf(cfg, rs', dst + q, name) == ViewOf(cfg, rs, src + q, name)
  {
    hide Seen, Parts, AnyPart, FirstFile, FirstData;
    FileTransport(rs, src, rs', dst, q, name);
    AnyPartTransport(cfg, rs, src, rs', dst, q, name);
    PartsTransport(cfg, rs, src, rs', dst, q, name, "");
    if MetaOf(cfg, rs, src + q, name).Some? {
      PartsTransport(cfg, rs, src, rs', dst, q, name, MetaOf(cfg, rs, src + q, name).value.xact);
    }
  }

  /** After a successful move, rename or copy, the merged listing of every sub-directory below the
      destination is the one that was below the source; after a move, rename or removal nothing is left
      below the source. */
  lemma UnionCommutes(cfg: Config, job: Job, rs: Remotes, q: Path, unread: set<string>, l: Listing)
    requires NamesLawful(cfg) && job.Sound() && job.Done(rs)
    ensures job.kind != RemoveDir ==>
      (IsListing(cfg, rs, job.dst + q, unread, l) <==> IsListing(cfg, job.rs0, job.src + q, unread, l))
    ensures job.kind != RemoveDir ==> forall i: nat :: i < |rs| ==>
      (IsDir(rs[i], job.dst + q) <==> IsDir(job.rs0[i], job.src + q))
    ensures job.kind != CopyDir ==> forall i: nat :: i < |rs| ==> job.src + q !in rs[i]
  {
    forall i: nat | i < |rs| && job.kind != CopyDir
      ensures job.src + q !in rs[i]
    {
      assert job.Handled(rs, i);
      assert NodeAt(rs[i], job.src + q) == None;
    }
    if job.kind != RemoveDir {
      TreesAgree(job, rs);
      hide Job.Done, Job.Sound, NamesLawful;
      forall i: nat | i < |rs|
        ensures IsDir(rs[i], job.dst + q) <==> IsDir(job.rs0[i], job.src + q)
      {
        assert NodeAt(rs[i], job.dst + q) == NodeAt(job.rs0[i], job.src + q);
      }
      ListingTransport(cfg, job.rs0, job.src, rs, job.dst, q, unread, l);
    }
  }

  /** The same however the chunk files are spelled: every respelling of the source goes along. */
  lemma RespellingCommutes(cfg: Config, job: Job, rs: Remotes, q: Path, unread: set<string>, l: Listing, named0: Remotes)
      returns (named: Remotes)
    requires NamesLawful(cfg) && job.Sound() && job.Done(rs) && job.kind != RemoveDir
    requires Respelled(cfg, job.rs0, named0, job.src + q)
    ensures Respelled(cfg, rs, named, job.dst + q)
    ensures IsListingAs(cfg, rs, named, job.dst + q, unread, l) <==> IsListingAs(cfg, job.rs0, named0, job.src + q, unread, l)
  {
    var src, dst := job.src + q, job.dst + q;
    TreesAgree(job, rs);
    hide Job.Done, Job.Sound, NamesLawful, Canon;
    Below(job.rs0, job.src, rs, job.dst, q);
    named := Shifted(named0, src, dst);
    hide SameTree;
    RespelledMoves(cfg, job.rs0, named0, rs, named, src, dst);
    hide Respelled, ListedAs, HasSubDir;
    forall n
      ensures ListedAs(cfg, named, dst, n, unread) == ListedAs(cfg, named0, src, n, unread)
      ensures HasSubDir(rs, dst, n) <==> HasSubDir(job.rs0, src, n)
    {
      SameListed(cfg, named0, src, named, dst, n, unread);
      SameSubDir(job.rs0, job.src, rs, job.dst, q, n);
    }
  }

  /** The same files below another path. */
  lemma Shifted(rs: Remotes, src: Path, dst: Path) returns (rs': Remotes)
    ensures SameTree(rs, src, rs', dst)
  {
    rs' := seq(|rs|, i requires 0 <= i < |rs| => Moved(rs[i], src, dst));
    forall i: nat, p | i < |rs|
      ensures NodeAt(rs'[i], dst + p) == NodeAt(rs[i], src + p)
    {
      assert dst <= dst + p && (dst + p)[|dst|..] == p;
      MovedNodes(rs[i], src, dst, dst + p);
    }
  }

  lemma Below(rs: Remotes, src: Path, rs': Remotes, dst: Path, q: Path)
    requires SameTree(rs, src, rs', dst)
    ensures SameTree(rs, src + q, rs', dst + q)
  {
    forall i: nat, p | i < |rs|
      ensures NodeAt(rs'[i], dst + q + p) == NodeAt(rs[i], src + q + p)
    {
      assert dst + q + p == dst + (q + p) && src + q + p == src + (q + p);
    }
  }

  lemma RespelledMoves(cfg: Config, rs0: Remotes, named0: Remotes, rs: Remotes, named: Remotes, src: Path, dst: Path)
    requires Respelled(cfg, rs0, named0, src) && SameTree(rs0, src, rs, dst) && SameTree(named0, src, named, dst)
    ensures Respelled(cfg, rs, named, dst)
  {
    hide Canon;
    forall i: nat | i < |rs|
      ensures Respells(cfg, rs[i], named[i], dst)
    {
      assert Respells(cfg, rs0[i], named0[i], src);
      forall n
        ensures FileAt(rs[i], dst + [n]) == FileAt(rs0[i], src + [n]) && FileAt(named[i], dst + [n]) == FileAt(named0[i], src + [n])
      {
        assert NodeAt(rs[i], dst + [n]) == NodeAt(rs0[i], src + [n]) && NodeAt(named[i], dst + [n]) == NodeAt(named0[i], src + [n]);
      }
      forall m | FileAt(named[i], dst + [m]).Some?
        ensures exists n :: Canon(cfg, n) == m && FileAt(rs[i], dst + [n]) == FileAt(named[i], dst + [m])
      {
        var n :| Canon(cfg, n) == m && FileAt(rs0[i], src + [n]) == FileAt(named0[i], src + [m]);
        assert FileAt(rs[i], dst + [n]) == FileAt(rs0[i], src + [n]);
      }
    }
  }

  lemma SameListed(cfg: Config, rs: Remotes, src: Path, rs': Remotes, dst: Path, n: string, unread: set<string>)
    requires NamesLawful(cfg) && SameTree(rs, src, rs', dst)
    ensures ListedAs(cfg, rs', dst, n, unread) == ListedAs(cfg, rs, src, n, unread)
  {
    assert src + [] == src && dst + [] == dst;
    hide ViewOf;
    ViewTransport(cfg, rs, src, rs', dst, [], n);
    FileTransport(rs, src, rs', dst, [], n);
  }

  lemma SameSubDir(rs: Remotes, src: Path, rs': Remotes, dst: Path, q: Path, n: string)
    requires SameTree(rs, src, rs', dst) && src != [] && dst != []
    ensures HasSubDir(rs', dst + q, n) <==> HasSubDir(rs, src + q, n)
  {
    assert |rs| == |rs'|;
    hide IsSubDir, SameTree;
    forall i: nat | i < |rs|
      ensures IsSubDir(rs'[i], dst + q, n) <==> IsSubDir(rs[i], src + q, n)
    {
      SubDirTransport(rs, src, rs', dst, q, i, n);
    }
  }

  // ---- what lies outside ----

  lemma OutsideNode(job: Job, rs: Remotes, i: nat, p: Path)
    requires job.Sound() && job.Done(rs) && i < |rs| && !(job.src <= p) && (job.kind != RemoveDir ==> !(job.dst <= p))
    ensures FileAt(rs[i], p) == FileAt(job.rs0[i], p)
    ensures (job.kind != RemoveDir ==> !(p <= job.dst)) ==> NodeAt(rs[i], p) == NodeAt(job.rs0[i], p)
  {
    assert job.Handled(rs, i);
    assert job.kind == RemoveDir ==> NodeAt(rs[i], p) == NodeAt(job.rs0[i], p);
  }

  lemma AtTheRoots(job: Job, rs: Remotes, i: nat)
    requires job.Sound() && job.Done(rs) && i < |rs| && FileAt(job.rs0[i], job.src).None?
    ensures FileAt(rs[i], job.src).None?
    ensures job.kind != RemoveDir ==> FileAt(rs[i], job.dst) == FileAt(job.rs0[i], job.dst) == None
  {
    assert job.Handled(rs, i) && job.src + [] == job.src && job.dst + [] == job.dst;
    assert NodeAt(rs[i], job.src + []) != None ==> NodeAt(rs[i], job.src + []) == NodeAt(job.rs0[i], job.src + []);
    if job.kind != RemoveDir {
      assert NodeAt(rs[i], job.dst + []) == NodeAt(job.rs0[i], job.src + []);
      assert job.rs0[i] in job.rs0;
    }
  }

  /** Every name outside the source and the destination lists as before, wherever no remote has a plain file
      in the place of the source directory, or that file is none of the name's own. */
  lemma OutsideStays(cfg: Config, job: Job, rs: Remotes, d: Path, n: string)
    requires NamesLawful(cfg) && job.Sound() && job.Done(rs)
    requires !(job.src <= d) && (job.kind != RemoveDir ==> !(job.dst <= d))
    requires (forall r :: r in job.rs0 ==> FileAt(r, job.src).None?)
      || (!Owned(cfg, d, n, job.src) && (job.kind != RemoveDir ==> !Owned(cfg, d, n, job.dst)))
    ensures ViewOf(cfg, rs, d, n) == ViewOf(cfg, job.rs0, d, n)
  {
    forall i: nat, p | i < |rs| && Owned(cfg, d, n, p)
      ensures FileAt(rs[i], p) == FileAt(job.rs0[i], p)
    {
      assert job.rs0[i] in job.rs0;
      BelowOrAt(job.src, d, p);
      BelowOrAt(job.dst, d, p);
      if p == job.src || (job.kind != RemoveDir && p == job.dst) {
        AtTheRoots(job, rs, i);
      } else {
        OutsideNode(job, rs, i, p);
      }
    }
    hide Job.Done, Job.Sound, ViewOf;
    ViewFrame(cfg, job.rs0, rs, d, n);
  }

  /** A directory that neither contains the source or the destination nor lies in one has the same merged
      listing as before. */
  lemma ApartListing(cfg: Config, job: Job, rs: Remotes, d: Path, unread: set<string>, l: Listing)
    requires NamesLawful(cfg) && job.Sound() && job.Done(rs)
    requires !(job.src <= d) && !(d <= job.src) && (job.kind != RemoveDir ==> !(job.dst <= d) && !(d <= job.dst))
    ensures IsListing(cfg, rs, d, unread, l) <==> IsListing(cfg, job.rs0, d, unread, l)
  {
    forall n
      ensures ListedAs(cfg, rs, d, n, unread) == ListedAs(cfg, job.rs0, d, n, unread)
      ensures HasSubDir(rs, d, n) <==> HasSubDir(job.rs0, d, n)
    {
      assert d <= d + [n];
      OutsideStays(cfg, job, rs, d, n);
      forall i: nat | i < |rs|
        ensures IsSubDir(rs[i], d, n) <==> IsSubDir(job.rs0[i], d, n)
        ensures FileAt(rs[i], d + [n]) == FileAt(job.rs0[i], d + [n])
      {
        OutsideNode(job, rs, i, d);
        OutsideNode(job, rs, i, d + [n]);
      }
      assert Agree(job.rs0, rs, d + [n]);
      AgreeFirst(job.rs0, rs, d + [n]);
    }
    hide ListedAs, HasSubDir;
  }

  lemma TreesAgree(job: Job, rs: Remotes)
    requires job.Done(rs) && job.kind != RemoveDir
    ensures SameTree(job.rs0, job.src, rs, job.dst) && (job.Sound() ==> job.src != [] && job.dst != [])
  {
    forall i: nat, q | i < |rs|
      ensures NodeAt(rs[i], job.dst + q) == NodeAt(job.rs0[i], job.src + q)
    {
      assert job.Handled(rs, i);
    }
  }

  lemma SubDirTransport(rs: Remotes, src: Path, rs': Remotes, dst: Path, q: Path, i: nat, n: string)
    requires SameTree(rs, src, rs', dst) && src != [] && dst != [] && i < |rs|
    ensures IsSubDir(rs'[i], dst + q, n) <==> IsSubDir(rs[i], src + q, n)
  {
    assert dst + q + [n] == dst + (q + [n]) && src + q + [n] == src + (q + [n]);
    assert NodeAt(rs'[i], dst + q) == NodeAt(rs[i], src + q);
    assert NodeAt(rs'[i], dst + (q + [n])) == NodeAt(rs[i], src + (q + [n]));
  }

  lemma ListingTransport(cfg: Config, rs: Remotes, src: Path, rs': Remotes, dst: Path, q: Path, unread: set<string>, l: Listing)
    requires NamesLawful(cfg) && SameTree(rs, src, rs', dst) && src != [] && dst != []
    ensures IsListing(cfg, rs', dst + q, unread, l) <==> IsListing(cfg, rs, src + q, unread, l)
  {
    forall n
      ensures ListedAs(cfg, rs', dst + q, n, unread) == ListedAs(cfg, rs, src + q, n, unread)
      ensures HasSubDir(rs', dst + q, n) <==> HasSubDir(rs, src + q, n)
    {
      ViewTransport(cfg, rs, src, rs', dst, q, n);
      FileTransport(rs, src, rs', dst, q, n);
      SameSubDir(rs, src, rs', dst, q, n);
    }
    hide ListedAs, HasSubDir;
  }
}
