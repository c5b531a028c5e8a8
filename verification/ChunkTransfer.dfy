/**
 Move, Copy and Remove of a file object: one remote operation per location, metadata first, then the
 chunks in ascending order.  A run may stop after any step.
 */
module ChunkTransfer {
  import opened Prelude
  import opened RemoteStore
  import opened RemoteOps
  import opened ChunkView
  import opened ChunkStates
  import opened ChunkUpload

  datatype Kind = MoveIt | CopyIt | RemoveIt

  /** One transfer: the state it started from, the directories, and the locations to go through. */
  datatype Transfer = Transfer(kind: Kind, rs0: Remotes, start: nat, src: Path, dst: Path, locs: seq<Location>) {

    /** A file of the source directory, or where one would be: not even a directory is there, nor comes to be on
        the way to the destination. */
    predicate IsSource(l: Location) {
      && l.remote < |rs0| && |l.path| == |src| + 1 && l.path[..|src|] == src
      && (Exists(l) || (l.path !in rs0[l.remote] && (kind == RemoveIt || !(l.path <= dst))))
    }

    predicate Exists(l: Location) {
      l.remote < |rs0| && FileAt(rs0[l.remote], l.path).Some?
    }

    /** The locations are distinct files of the source directory, there or not, which is not the destination. */
    ghost predicate Sound() {
      && (kind != RemoveIt ==> src != dst)
      && (forall i, j :: 0 <= i < j < |locs| ==> locs[i] != locs[j])
      && (forall l :: l in locs ==> IsSource(l))
    }

    /** The file a location of the destination directory came from, if it is one of the first `k`. */
    predicate Arrived(i: nat, p: Path, k: nat)
      requires k <= |locs|
    {
      kind != RemoveIt && |p| == |dst| + 1 && p[..|dst|] == dst && Location(src + [p[|dst|]], i) in locs[..k]
    }

    /** What lies at a path once the first `k` locations have been handled. */
    function Expected(i: nat, p: Path, k: nat): Option<Bytes>
      requires k <= |locs| && i < |rs0|
    {
      if Arrived(i, p, k) then FileAt(rs0[i], src + [p[|dst|]])
      else if kind != CopyIt && Location(p, i) in locs[..k] then None
      else FileAt(rs0[i], p)
    }

    /** Only removing what is not there succeeds. */
    ghost predicate Done(rs: Remotes, k: nat) {
      && |rs| == |rs0| && k <= |locs|
      && (kind != RemoveIt ==> forall j :: 0 <= j < k ==> Exists(locs[j]))
      && (forall l :: l in locs && l.remote < |rs| && !Exists(l) ==> l.path !in rs[l.remote])
      && (forall i, p :: 0 <= i < |rs| ==> FileAt(rs[i], p) == Expected(i, p, k))
    }

    /** `steps[j]` tells how many locations had been handled in the j-th state of the run. */
    ghost predicate Run(rs: Remotes, trace: seq<Remotes>, steps: seq<nat>, k: nat) {
      && |trace| == start + |steps| && k <= |locs|
      && (Sound() ==>
            && Done(rs, k)
            && (forall j :: 0 <= j < |steps| ==> steps[j] <= k && Done(trace[start + j], steps[j]))
            && (forall i, j :: 0 <= i <= j < |steps| ==> steps[i] <= steps[j]))
    }

    /** The remotes after the operation on location `k`. */
    function Next(rs: Remotes, k: nat): Remotes
      requires k < |locs| && locs[k].remote < |rs| && locs[k].path != []
    {
      var i, p := locs[k].remote, locs[k].path;
      var to := dst + [p[|p| - 1]];
      match kind
      case MoveIt => rs[i := Relocated(rs[i], p, to)]
      case CopyIt => rs[i := Copied(rs[i], p, to)]
      case RemoveIt => rs[i := Removed(rs[i], p)]
    }

    lemma Began(rs: Remotes, trace: seq<Remotes>)
      requires rs == rs0 && start == |trace|
      ensures Run(rs, trace, [], 0)
    {
      if Sound() {
        forall l | l in locs && !Exists(l)
          ensures l.path !in rs[l.remote]
        {
          assert IsSource(l);
        }
      }
    }

    /** A failed operation, or a new directory on the way to the destination, leaves the files as they are. */
    lemma Stutter(rs: Remotes, rs': Remotes, trace: seq<Remotes>, steps: seq<nat>, k: nat)
      requires Run(rs, trace, steps, k) && |rs'| == |rs|
      requires forall i, p :: 0 <= i < |rs| ==> FileAt(rs'[i], p) == FileAt(rs[i], p)
      requires forall i, p :: 0 <= i < |rs| && p in rs'[i] ==> p in rs[i] || (kind != RemoveIt && p <= dst)
      ensures Run(rs', trace + [rs'], steps + [k], k)
    {
      if Sound() {
        forall l | l in locs && !Exists(l)
          ensures l.path !in rs'[l.remote]
        {
          assert IsSource(l);
        }
        hide Sound;
      }
    }

    lemma Step(rs: Remotes, k: nat)
      requires Sound() && Done(rs, k) && k < |locs|
      ensures locs[k].remote < |rs| && locs[k].path != []
      ensures kind == RemoveIt || locs[k].path in rs[locs[k].remote] ==> Done(Next(rs, k), k + 1)
    {
      var l := locs[k];
      assert IsSource(l) && l !in locs[..k];
      assert FileAt(rs[l.remote], l.path) == Expected(l.remote, l.path, k) == FileAt(rs0[l.remote], l.path);
      if kind == RemoveIt || l.path in rs[l.remote] {
        StepFiles(rs, k);
        StepNodes(rs, k);
      }
    }

    /** What is handled next is still a file, or there is still nothing. */
    lemma StepFiles(rs: Remotes, k: nat)
      requires Sound() && Done(rs, k) && k < |locs| && locs[k].remote < |rs| && locs[k].path != []
      requires locs[k].path in rs[locs[k].remote] || kind == RemoveIt
      ensures kind != RemoveIt ==> Exists(locs[k])
      ensures forall i, p :: 0 <= i < |rs| ==> FileAt(Next(rs, k)[i], p) == Expected(i, p, k + 1)
    {
      var l := locs[k];
      assert IsSource(l) && l !in locs[..k];
      var n := l.path[|src|];
      var to := dst + [n];
      assert l.path == src + [n] && to[..|dst|] == dst && to[|dst|] == n;
      assert locs[..k + 1] == locs[..k] + [l];
      assert FileAt(rs[l.remote], l.path) == Expected(l.remote, l.path, k);
      forall i, p | 0 <= i < |rs|
        ensures FileAt(Next(rs, k)[i], p) == Expected(i, p, k + 1)
      {
        assert FileAt(rs[i], p) == Expected(i, p, k);
        assert FileAt(rs[i], l.path) == Expected(i, l.path, k);
        if |p| == |dst| + 1 && p[..|dst|] == dst {
          assert p == dst + [p[|dst|]];
        }
      }
    }

    lemma StepNodes(rs: Remotes, k: nat)
      requires Sound() && Done(rs, k) && k < |locs| && locs[k].remote < |rs| && locs[k].path != []
      requires locs[k].path in rs[locs[k].remote] || kind == RemoveIt
      ensures forall l :: l in locs && l.remote < |rs| && !Exists(l) ==> l.path !in Next(rs, k)[l.remote]
    {
      var at := locs[k];
      assert IsSource(at) && at !in locs[..k];
      assert FileAt(rs[at.remote], at.path) == Expected(at.remote, at.path, k);
      forall l | l in locs && l.remote < |rs| && !Exists(l)
        ensures l.path !in Next(rs, k)[l.remote]
      {
        assert IsSource(l) && l.path !in rs[l.remote];
        var to := dst + [at.path[|at.path| - 1]];
        assert to[..|dst|] == dst;
        assert kind != RemoveIt ==> l.path != to;
      }
    }

    lemma Stepped(rs: Remotes, trace: seq<Remotes>, steps: seq<nat>, k: nat)
      requires Run(rs, trace, steps, k) && k < |locs|
      requires locs[k].remote < |rs| && locs[k].path != []
      ensures kind == RemoveIt || locs[k].path in rs[locs[k].remote] ==>
        Run(Next(rs, k), trace + [Next(rs, k)], steps + [k + 1], k + 1)
    {
      if Sound() {
        Step(rs, k);
        hide Done;
      }
    }
  }

  // ---- what is asked of the remotes ----

  function Operation(kind: Kind, dst: Path, l: Location): Call {
    match kind
    case MoveIt => Call(l.remote, MoveTo(l.path, dst))
    case CopyIt => Call(l.remote, CopyTo(l.path, dst))
    case RemoveIt => Call(l.remote, Delete(l.path))
  }

  /** No earlier location lies on that remote. */
  predicate IsNewRemote(locs: seq<Location>, k: nat)
    requires k < |locs|
  {
    forall j :: 0 <= j < k ==> locs[j].remote != locs[k].remote
  }

  /** The destination directory, if the remote is used for the first time, and the operation itself. */
  function LocationCalls(kind: Kind, dst: Path, locs: seq<Location>, k: nat): seq<Call>
    requires k < |locs|
  {
    (if kind != RemoveIt && IsNewRemote(locs, k) then [Call(locs[k].remote, MakeDir(dst))] else []) + [Operation(kind, dst, locs[k])]
  }

  /** The locations one after the other. */
  function TransferCalls(kind: Kind, dst: Path, locs: seq<Location>, k: nat): seq<Call>
    requires k <= |locs|
  {
    if k == 0 then [] else TransferCalls(kind, dst, locs, k - 1) + LocationCalls(kind, dst, locs, k - 1)
  }

  lemma {:induction false} TransferStops(kind: Kind, dst: Path, locs: seq<Location>, k: nat, log: seq<Event>, from: nat)
    requires k <= |locs| && InOrder(log, from, TransferCalls(kind, dst, locs, k), false)
    ensures InOrder(log, from, TransferCalls(kind, dst, locs, |locs|), false)
    decreases |locs| - k
  {
    if k < |locs| {
      InOrderStops(log, from, TransferCalls(kind, dst, locs, k), LocationCalls(kind, dst, locs, k));
      TransferStops(kind, dst, locs, k + 1, log, from);
    }
  }

  /** The operation on one location. */
  method TransferOne(m: Mounts, kind: Kind, dst: Path, l: Location, ghost job: Transfer, ghost steps: seq<nat>, ghost k: nat)
      returns (ok: bool)
    requires m.Valid() && job.Run(m.remotes, m.trace, steps, k) && k < |job.locs|
    requires (kind, dst, l) == (job.kind, job.dst, job.locs[k]) && l.remote < |m.remotes| && l.path != []
    modifies m
    ensures m.Valid() && |m.remotes| == |old(m.remotes)| && m.trace == old(m.trace) + [m.remotes]
    ensures var done := if ok then k + 1 else k; job.Run(m.remotes, m.trace, steps + [done], done)
    ensures m.log == old(m.log) + [Event(Operation(kind, dst, l), ok)]
  {
    hide Transfer.Run, Transfer.Sound, Relocated, Copied, Removed;
    job.Stutter(m.remotes, m.remotes, m.trace, steps, k);
    job.Stepped(m.remotes, m.trace, steps, k);
    match kind {
      case MoveIt => ok := m.Move(l.remote, l.path, dst);
      case CopyIt => ok := m.Copy(l.remote, l.path, dst);
      case RemoveIt => ok := m.Remove(l.remote, l.path);
    }
  }

  /** MakeDir on a target seen for the first time. */
  method MakeTarget(m: Mounts, dst: Path, remote: nat, ghost job: Transfer, ghost steps: seq<nat>, ghost k: nat)
      returns (ok: bool)
    requires m.Valid() && job.Run(m.remotes, m.trace, steps, k) && remote < |m.remotes| && dst == job.dst && job.kind != RemoveIt
    modifies m
    ensures m.Valid() && |m.remotes| == |old(m.remotes)| && m.trace == old(m.trace) + [m.remotes]
    ensures job.Run(m.remotes, m.trace, steps + [k], k)
    ensures m.log == old(m.log) + [Event(Call(remote, MakeDir(dst)), ok)]
  {
    hide Transfer.Run;
    ghost var was, states := m.remotes, m.trace;
    ok := m.EnsureDir(remote, dst);
    job.Stutter(was, m.remotes, states, steps, k);
  }

  /** One location's turn. */
  method TransferTurn(m: Mounts, kind: Kind, dst: Path, l: Location, newRemote: bool, ghost job: Transfer, ghost steps: seq<nat>,
                      ghost k: nat) returns (ok: bool, ghost steps': seq<nat>)
    requires m.Valid() && job.Run(m.remotes, m.trace, steps, k) && k < |job.locs|
    requires (kind, dst, l) == (job.kind, job.dst, job.locs[k]) && l.remote < |m.remotes| && l.path != []
    requires kind != RemoveIt ==> newRemote == IsNewRemote(job.locs, k)
    modifies m
    ensures m.Valid() && |m.remotes| == |old(m.remotes)| && old(m.trace) <= m.trace
    ensures job.Run(m.remotes, m.trace, steps', if ok then k + 1 else k)
    ensures old(m.log) <= m.log && InOrder(m.log, |old(m.log)|, LocationCalls(kind, dst, job.locs, k), ok)
  {
    hide Transfer.Run, IsNewRemote;
    steps' := steps;
    if kind != RemoveIt && newRemote {
      ok := MakeTarget(m, dst, l.remote, job, steps, k);
      steps' := steps + [k];
      if !ok {
        return;
      }
    }
    ok := TransferOne(m, kind, dst, l, job, steps', k);
    steps' := steps' + [if ok then k + 1 else k];
  }

  /** The loop over the locations of a file object.  The destination directory is made on every target
      seen for the first time; the first error ends the run. */
  method TransferObject(m: Mounts, kind: Kind, dst: Path, locs: seq<Location>, ghost job: Transfer)
      returns (ok: bool, ghost steps: seq<nat>, ghost k: nat)
    requires m.Valid() && forall l :: l in locs ==> l.remote < |m.remotes| && l.path != []
    requires job.rs0 == m.remotes && job.start == |m.trace| && (kind, dst, locs) == (job.kind, job.dst, job.locs)
    modifies m
    ensures m.Valid() && |m.remotes| == |old(m.remotes)| && old(m.trace) <= m.trace
    ensures job.Run(m.remotes, m.trace, steps, k)
    ensures ok ==> k == |locs|
    ensures old(m.log) <= m.log && InOrder(m.log, |old(m.log)|, TransferCalls(kind, dst, locs, |locs|), ok)
  {
    hide Transfer.Run, InOrder, LocationCalls;
    job.Began(m.remotes, m.trace);
    ok, steps, k := true, [], 0;
    var ensured: set<nat> := {};
    NoCalls(m.log);
    for i := 0 to |locs|
      invariant ok && m.Valid() && |m.remotes| == |old(m.remotes)| && old(m.trace) <= m.trace
      invariant k == i && job.Run(m.remotes, m.trace, steps, k)
      invariant forall r :: r in ensured <==> exists j :: 0 <= j < i && locs[j].remote == r
      invariant old(m.log) <= m.log && InOrder(m.log, |old(m.log)|, TransferCalls(kind, dst, locs, i), true)
    {
      var l := locs[i];
      assert l in locs;
      ghost var log := m.log;
      ok, steps := TransferTurn(m, kind, dst, l, l.remote !in ensured, job, steps, k);
      InOrderOn(log, |old(m.log)|, TransferCalls(kind, dst, locs, i), LocationCalls(kind, dst, locs, i), m.log, ok);
      k := if ok then k + 1 else k;
      if !ok {
        TransferStops(kind, dst, locs, i + 1, m.log, |old(m.log)|);
        return;
      }
      ensured := ensured + {l.remote};
    }
  }
}
