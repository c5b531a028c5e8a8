/** The storage operations the chunker issues, one atomic step each.  A step fails if it is impossible or the outside
    world makes it fail, and then it leaves the remotes as they were; `trace` records the state after every step,
    `log` what was asked of which remote and whether it succeeded. */
module RemoteOps {
  import opened Prelude
  import opened RemoteStore

  /** MakeDir: every missing directory on the way to `p`. */
  function WithDirs(r: Remote, p: Path): (r': Remote)
    ensures forall q :: FileAt(r', q) == FileAt(r, q)
    ensures forall q :: q in r ==> q in r' && r'[q] == r[q]
    ensures forall q :: q in r' && q !in r ==> q <= p
  {
    if p == [] then r
    else
      var up := WithDirs(r, p[..|p| - 1]);
      if p in up then up else up[p := Dir]
  }

  /** No prefix of `p` is a file, so MakeDir can succeed. */
  predicate CanMakeDir(r: Remote, p: Path) {
    p == [] || ((p !in r || r[p].Dir?) && CanMakeDir(r, p[..|p| - 1]))
  }

  lemma {:induction false} CanMakeDirIs(r: Remote, p: Path)
    ensures CanMakeDir(r, p) <==> forall k :: 0 < k <= |p| ==> FileAt(r, p[..k]).None?
  {
    if p != [] {
      var q := p[..|p| - 1];
      CanMakeDirIs(r, q);
      assert forall k :: 0 < k < |p| ==> q[..k] == p[..k];
      assert p[..|p|] == p;
    }
  }

  function Written(r: Remote, p: Path, data: Bytes): Remote
    requires p != []
  {
    WithDirs(r, p[..|p| - 1])[p := File(data)]
  }

  /** The tree at `src` without what lies at or below it. */
  function Without(r: Remote, src: Path): Remote {
    map q | q in r && !(src <= q) :: r[q]
  }

  /** The nodes at or below `src`, moved so that `src` becomes `dst`. */
  function Moved(r: Remote, src: Path, dst: Path): Remote {
    map q | q in (set p | p in r && src <= p :: dst + p[|src|..]) && dst <= q && src + q[|dst|..] in r
      :: r[src + q[|dst|..]]
  }

  function Removed(r: Remote, p: Path): Remote {
    if p !in r then r
    else if r[p].File? then r - {p}
    else Without(r, p)
  }

  function Copied(r: Remote, src: Path, dst: Path): Remote {
    if src in r && r[src].File? then r[dst := r[src]] else r + Moved(r, src, dst)
  }

  function Relocated(r: Remote, src: Path, dst: Path): Remote {
    if src in r && r[src].File? then (r - {src})[dst := r[src]] else Without(r, src) + Moved(r, src, dst)
  }

  // ---- what was asked of the remotes ----

  datatype Action =
    | MakeDir(dir: Path)
    | Write(path: Path, data: Bytes)
    | Delete(path: Path)
    | MoveTo(src: Path, dstDir: Path)
    | CopyTo(src: Path, dstDir: Path)
    | RenameTo(src: Path, newName: string)
    | Ask(path: Path)

  datatype Call = Call(remote: nat, action: Action)

  datatype Event = Event(call: Call, ok: bool)

  /** The calls since number `from` are those of the plan, in order, up to the first that failed; `ok` if none did. */
  ghost predicate InOrder(log: seq<Event>, from: nat, plan: seq<Call>, ok: bool) {
    && from <= |log| <= from + |plan|
    && (forall i :: from <= i < |log| ==> log[i].call == plan[i - from] && (log[i].ok <==> ok || i < |log| - 1))
    && (if ok then |log| == from + |plan| else |log| > from)
  }

  /** The calls since number `from` are all those of the plan, whether they failed or not; `ok` if none did. */
  ghost predicate AllTried(log: seq<Event>, from: nat, plan: seq<Call>, ok: bool) {
    && |log| == from + |plan|
    && (forall i :: from <= i < |log| ==> log[i].call == plan[i - from])
    && (ok <==> forall i :: from <= i < |log| ==> log[i].ok)
  }

  /** First the one plan up to a failure, then, if there was none, all of the other. */
  ghost predicate OrderThenAll(log: seq<Event>, from: nat, first: seq<Call>, rest: seq<Call>, ok: bool) {
    || (!ok && InOrder(log, from, first, false))
    || (from + |first| <= |log| && InOrder(log[..from + |first|], from, first, true) && AllTried(log, from + |first|, rest, ok))
  }

  lemma NoCalls(log: seq<Event>)
    ensures InOrder(log, |log|, [], true)
  {
  }

  /** One plan after another. */
  lemma InOrderOn(log: seq<Event>, from: nat, first: seq<Call>, rest: seq<Call>, more: seq<Event>, ok: bool)
    requires InOrder(log, from, first, true) && log <= more && InOrder(more, |log|, rest, ok)
    ensures InOrder(more, from, first + rest, ok)
  {
  }

  lemma InOrderStops(log: seq<Event>, from: nat, first: seq<Call>, rest: seq<Call>)
    requires InOrder(log, from, first, false)
    ensures InOrder(log, from, first + rest, false)
  {
  }

  /** One more call, with either outcome. */
  lemma AllTriedOn(log: seq<Event>, from: nat, plan: seq<Call>, ok: bool, c: Call, well: bool)
    requires AllTried(log, from, plan, ok)
    ensures AllTried(log + [Event(c, well)], from, plan + [c], ok && well)
  {
    var more := log + [Event(c, well)];
    assert more[|log|] == Event(c, well) && forall i :: 0 <= i < |log| ==> more[i] == log[i];
  }

  lemma OrderThenAllOf(log: seq<Event>, from: nat, first: seq<Call>, rest: seq<Call>, more: seq<Event>, ok: bool)
    requires InOrder(log, from, first, true) && log <= more && AllTried(more, |log|, rest, ok)
    ensures OrderThenAll(more, from, first, rest, ok)
  {
    assert more[..|log|] == log;
  }

  class Mounts {
    var remotes: Remotes
    var log: seq<Event>
    ghost var trace: seq<Remotes>
    /** The calls that fail although they could be carried out, by number. */
    const trouble: nat -> bool

    ghost predicate Valid()
      reads this
    {
      && |remotes| > 0
      && |trace| > 0 && trace[|trace| - 1] == remotes
      && forall j :: 0 <= j < |trace| ==> |trace[j]| == |remotes|
    }

    constructor (rs: Remotes, trouble: nat -> bool)
      requires |rs| > 0
      ensures Valid() && remotes == rs && trace == [rs] && log == [] && this.trouble == trouble
    {
      remotes, log, this.trouble := rs, [], trouble;
      trace := [rs];
    }

    /** One remote changes, or nothing does; either way the call and the state are recorded. */
    method Record(i: nat, action: Action, ok: bool)
      requires |trace| > 0 && |remotes| > 0
      requires forall j :: 0 <= j < |trace| ==> |trace[j]| == |remotes|
      modifies this`trace, this`log
      ensures Valid() && trace == old(trace) + [remotes] && log == old(log) + [Event(Call(i, action), ok)]
    {
      trace := trace + [remotes];
      log := log + [Event(Call(i, action), ok)];
    }

    /** targetPathExists; None if the remote cannot be asked. */
    method Exists(i: nat, p: Path) returns (there: Option<bool>)
      requires Valid() && i < |remotes|
      modifies this
      ensures Valid() && trace == old(trace) + [remotes] && log == old(log) + [Event(Call(i, Ask(p)), there.Some?)]
      ensures remotes == old(remotes) && there == if trouble(|old(log)|) then None else Some(p in remotes[i])
    {
      var asked := !trouble(|log|);
      there := if asked then Some(p in remotes[i]) else None;
      Record(i, Ask(p), asked);
    }

    /** The root is always there. */
    method EnsureDir(i: nat, dir: Path) returns (ok: bool)
      requires Valid() && i < |remotes|
      modifies this
      ensures Valid() && trace == old(trace) + [remotes] && log == old(log) + [Event(Call(i, MakeDir(dir)), ok)]
      ensures ok <==> dir == [] || (!trouble(|old(log)|) && CanMakeDir(old(remotes)[i], dir))
      ensures ok ==> remotes == old(remotes)[i := WithDirs(old(remotes)[i], dir)]
      ensures !ok ==> remotes == old(remotes)
    {
      ok := dir == [] || (!trouble(|log|) && CanMakeDir(remotes[i], dir));
      if ok {
        remotes := remotes[i := WithDirs(remotes[i], dir)];
      }
      Record(i, MakeDir(dir), ok);
    }

    method Put(i: nat, dir: Path, name: string, data: Bytes) returns (ok: bool)
      requires Valid() && i < |remotes|
      modifies this
      ensures Valid() && trace == old(trace) + [remotes] && log == old(log) + [Event(Call(i, Write(dir + [name], data)), ok)]
      ensures ok <==> !trouble(|old(log)|) && CanMakeDir(old(remotes)[i], dir) && !IsDir(old(remotes)[i], dir + [name])
      ensures ok ==> remotes == old(remotes)[i := Written(old(remotes)[i], dir + [name], data)]
      ensures !ok ==> remotes == old(remotes)
    {
      ok := !trouble(|log|) && CanMakeDir(remotes[i], dir) && !IsDir(remotes[i], dir + [name]);
      if ok {
        remotes := remotes[i := Written(remotes[i], dir + [name], data)];
      }
      Record(i, Write(dir + [name], data), ok);
    }

    /** Removing what is not there succeeds. */
    method Remove(i: nat, p: Path) returns (ok: bool)
      requires Valid() && i < |remotes|
      modifies this
      ensures Valid() && trace == old(trace) + [remotes] && log == old(log) + [Event(Call(i, Delete(p)), ok)]
      ensures ok <==> !trouble(|old(log)|) && p != []
      ensures ok ==> remotes == old(remotes)[i := Removed(old(remotes)[i], p)]
      ensures !ok ==> remotes == old(remotes)
    {
      ok := !trouble(|log|) && p != [];
      if ok {
        remotes := remotes[i := Removed(remotes[i], p)];
      }
      Record(i, Delete(p), ok);
    }

    method Move(i: nat, src: Path, dstDir: Path) returns (ok: bool)
      requires Valid() && i < |remotes|
      modifies this
      ensures Valid() && trace == old(trace) + [remotes] && log == old(log) + [Event(Call(i, MoveTo(src, dstDir)), ok)]
      ensures ok <==> !trouble(|old(log)|) && src != [] && src in old(remotes)[i] && IsDir(old(remotes)[i], dstDir)
      ensures ok ==> remotes == old(remotes)[i := Relocated(old(remotes)[i], src, dstDir + [src[|src| - 1]])]
      ensures !ok ==> remotes == old(remotes)
    {
      ok := !trouble(|log|) && src != [] && src in remotes[i] && IsDir(remotes[i], dstDir);
      if ok {
        remotes := remotes[i := Relocated(remotes[i], src, dstDir + [src[|src| - 1]])];
      }
      Record(i, MoveTo(src, dstDir), ok);
    }

    method Copy(i: nat, src: Path, dstDir: Path) returns (ok: bool)
      requires Valid() && i < |remotes|
      modifies this
      ensures Valid() && trace == old(trace) + [remotes] && log == old(log) + [Event(Call(i, CopyTo(src, dstDir)), ok)]
      ensures ok <==> !trouble(|old(log)|) && src != [] && src in old(remotes)[i] && IsDir(old(remotes)[i], dstDir)
      ensures ok ==> remotes == old(remotes)[i := Copied(old(remotes)[i], src, dstDir + [src[|src| - 1]])]
      ensures !ok ==> remotes == old(remotes)
    {
      ok := !trouble(|log|) && src != [] && src in remotes[i] && IsDir(remotes[i], dstDir);
      if ok {
        remotes := remotes[i := Copied(remotes[i], src, dstDir + [src[|src| - 1]])];
      }
      Record(i, CopyTo(src, dstDir), ok);
    }

    method Rename(i: nat, src: Path, newName: string) returns (ok: bool)
      requires Valid() && i < |remotes|
      modifies this
      ensures Valid() && trace == old(trace) + [remotes] && log == old(log) + [Event(Call(i, RenameTo(src, newName)), ok)]
      ensures ok <==> !trouble(|old(log)|) && src != [] && src in old(remotes)[i]
      ensures ok ==> remotes == old(remotes)[i := Relocated(old(remotes)[i], src, src[..|src| - 1] + [newName])]
      ensures !ok ==> remotes == old(remotes)
    {
      ok := !trouble(|log|) && src != [] && src in remotes[i];
      if ok {
        remotes := remotes[i := Relocated(remotes[i], src, src[..|src| - 1] + [newName])];
      }
      Record(i, RenameTo(src, newName), ok);
    }
  }
}
