/** The parallel upload itself: upload addresses are asked for in batches of a hundred, every part is
    sent from its own slice of the file in whatever order the workers get to it, and the upload is
    completed only when all of them are stored. */
module ParallelUpload {
  import opened Prelude
  import opened Sha256
  import opened ParallelParts

  const BATCH := 100

  /** One entry of a server answer: where to send which part. */
  datatype Address = Address(number: int, url: string)

  /** The server's answers to /file/create, /file/getUploadUrl and /file/complete, and whether it takes a part; None is
      a failed request, and in `create` an answer without addresses is a file the server already has.  `cancelled` says
      whether the caller has given up by the time so many workers have started. */
  datatype Server = Server(
    known: bool,
    create: seq<PartInfo> -> Option<Option<seq<Address>>>,
    more: seq<PartInfo> -> Option<seq<Address>>,
    send: int -> bool,
    cancelled: nat -> bool,
    complete: seq<byte> -> bool)

  /** An answer names the parts it was asked about, one address each. */
  predicate Names(answer: seq<Address>, parts: seq<PartInfo>) {
    |answer| == |parts| && forall i :: 0 <= i < |parts| ==> answer[i].number == parts[i].number
  }

  ghost predicate Faithful(s: Server) {
    && (forall ps :: s.create(ps).Some? && s.create(ps).value.Some? ==> Names(s.create(ps).value.value, ps))
    && (forall ps :: s.more(ps).Some? ==> Names(s.more(ps).value, ps))
  }

  lemma NamesAppend(a: seq<Address>, b: seq<Address>, parts: seq<PartInfo>, i: nat, j: nat)
    requires i <= j <= |parts| && Names(a, parts[..i]) && Names(b, parts[i..j])
    ensures Names(a + b, parts[..j])
  {
    assert parts[..j] == parts[..i] + parts[i..j];
  }

  /** The batches from part `i` on. */
  function Batches(parts: seq<PartInfo>, i: nat): seq<seq<PartInfo>>
    decreases |parts| - i
  {
    if i >= |parts| then [] else [parts[i..Min(i + BATCH, |parts|)]] + Batches(parts, i + BATCH)
  }

  /** The request for one of the later batches fails. */
  ghost predicate MoreFails(s: Server, parts: seq<PartInfo>) {
    exists b :: b in Batches(parts, BATCH) && s.more(b).None?
  }

  /** The later batches; `asked` lists what was asked for, the first batch included. */
  method CollectAddresses(s: Server, parts: seq<PartInfo>, first: seq<Address>)
      returns (r: Option<seq<Address>>, ghost asked: seq<seq<PartInfo>>)
    ensures r.None? <==> MoreFails(s, parts)
    ensures r.Some? ==> Concat(asked) == parts && forall b :: b in asked ==> |b| <= BATCH
    ensures r.Some? && Faithful(s) && Names(first, parts[..Min(|parts|, BATCH)]) ==> Names(r.value, parts)
  {
    hide Names, Faithful;
    var addresses := first;
    var i := Min(|parts|, BATCH);
    asked := [parts[..i]];
    assert Batches(parts, i) == Batches(parts, BATCH);
    ConcatSnoc([], parts[..i]);
    assert [] + [parts[..i]] == asked;
    ghost var faithful := Faithful(s) && Names(first, parts[..i]);
    while i < |parts|
      invariant Min(|parts|, BATCH) <= i <= |parts|
      invariant Concat(asked) == parts[..i] && forall b :: b in asked ==> |b| <= BATCH
      invariant faithful ==> Names(addresses, parts[..i])
      invariant MoreFails(s, parts) <==> exists b :: b in Batches(parts, i) && s.more(b).None?
    {
      var end := if i + BATCH > |parts| then |parts| else i + BATCH;
      var answer := s.more(parts[i..end]);
      BatchesOn(parts, i);
      if answer.None? {
        assert parts[i..end] in Batches(parts, i);
        return None, asked;
      }
      AskedOn(asked, parts, i, end);
      if faithful {
        MoreNames(s, parts[i..end]);
        NamesAppend(addresses, answer.value, parts, i, end);
      }
      asked := asked + [parts[i..end]];
      addresses := addresses + answer.value;
      i := end;
    }
    assert parts[..i] == parts;
    r := Some(addresses);
  }

  lemma AskedOn(asked: seq<seq<PartInfo>>, parts: seq<PartInfo>, i: nat, j: nat)
    requires i <= j <= |parts| && j - i <= BATCH && Concat(asked) == parts[..i] && forall b :: b in asked ==> |b| <= BATCH
    ensures Concat(asked + [parts[i..j]]) == parts[..j] && forall b :: b in asked + [parts[i..j]] ==> |b| <= BATCH
  {
    ConcatSnoc(asked, parts[i..j]);
    assert parts[..j] == parts[..i] + parts[i..j];
  }

  lemma MoreNames(s: Server, batch: seq<PartInfo>)
    requires Faithful(s) && s.more(batch).Some?
    ensures Names(s.more(batch).value, batch)
  {
  }

  lemma BatchesOn(parts: seq<PartInfo>, i: nat)
    requires i < |parts|
    ensures var end := Min(i + BATCH, |parts|);
      forall b :: b in Batches(parts, i) <==> b == parts[i..end] || b in Batches(parts, end)
  {
    var end := Min(i + BATCH, |parts|);
    assert Batches(parts, end) == Batches(parts, i + BATCH);
  }

  /** The bytes that belong to part `number`. */
  function Piece(file: seq<byte>, parts: seq<PartInfo>, number: int): seq<byte>
    requires 1 <= number <= |parts| && parts[number - 1].offset >= 0 && parts[number - 1].size >= 0
  {
    Section(file, parts[number - 1].offset, parts[number - 1].size)
  }

  predicate Placed(parts: seq<PartInfo>) {
    forall i :: 0 <= i < |parts| ==> parts[i].offset >= 0 && parts[i].size >= 0
  }

  ghost predicate OnlyPieces(stored: map<int, seq<byte>>, file: seq<byte>, parts: seq<PartInfo>)
    requires Placed(parts)
  {
    forall n :: n in stored ==> 1 <= n <= |parts| && stored[n] == Piece(file, parts, n)
  }

  /** What a worker came to: its part was sent, well or not, the server named an unknown one, or the upload was
      cancelled. */
  datatype Work = Sending(number: int, ok: bool) | Unknown(number: int) | Cancelled

  predicate Well(log: seq<Work>) {
    forall w :: w in log ==> w.Sending? && w.ok
  }

  /** What the server stores, by part number, and the work that led there. */
  class Bucket {
    var stored: map<int, seq<byte>>
    var log: seq<Work>

    constructor ()
      ensures stored == map[] && log == []
    {
      stored, log := map[], [];
    }

    /** Only right bytes are ever stored. */
    ghost predicate Sound(file: seq<byte>, parts: seq<PartInfo>)
      requires Placed(parts)
      reads this
    {
      OnlyPieces(stored, file, parts)
    }

    /** One worker: look the part up by the number the server gave, send its slice. */
    method SendPart(s: Server, file: seq<byte>, parts: seq<PartInfo>, a: Address) returns (ok: bool)
      requires Placed(parts) && Sound(file, parts)
      modifies this
      ensures Sound(file, parts)
      ensures ok <==> 1 <= a.number <= |parts| && s.send(a.number)
      ensures ok ==> stored == old(stored)[a.number := Piece(file, parts, a.number)]
      ensures !ok ==> stored == old(stored)
      ensures log == old(log) + [if 1 <= a.number <= |parts| then Sending(a.number, ok) else Unknown(a.number)]
    {
      var index := a.number - 1;
      if index < 0 || index >= |parts| {
        log := log + [Unknown(a.number)];
        return false;
      }
      var part := parts[index];
      ok := s.send(a.number);
      log := log + [Sending(a.number, ok)];
      if ok {
        stored := stored[a.number := Section(file, part.offset, part.size)];
      }
    }

    /** All workers, finishing in any order; any failure or cancellation fails the whole. */
    method SendAll(s: Server, file: seq<byte>, parts: seq<PartInfo>, addresses: seq<Address>) returns (ok: bool)
      requires Placed(parts) && Sound(file, parts)
      modifies this
      ensures Sound(file, parts)
      ensures ok ==> forall a :: a in addresses ==> a.number in stored
      ensures old(log) <= log && (ok <==> Well(log[|old(log)|..])) && (log == old(log) ==> stored == old(stored))
      ensures forall j :: |old(log)| <= j < |log| ==> (log[j].Cancelled? <==> s.cancelled(j))
    {
      var left := addresses;
      while left != []
        invariant Sound(file, parts)
        invariant old(log) <= log && Well(log[|old(log)|..]) && (log == old(log) ==> stored == old(stored))
        invariant forall a :: a in addresses ==> a in left || a.number in stored
        invariant forall j :: |old(log)| <= j < |log| ==> (log[j].Cancelled? <==> s.cancelled(j))
        decreases |left|
      {
        ghost var done := log[|old(log)|..];
        if s.cancelled(|log|) {
          log := log + [Cancelled];
          WellOn(done, Cancelled);
          assert log[|old(log)|..] == done + [Cancelled];
          return false;
        }
        var i :| 0 <= i < |left|;
        ok := SendPart(s, file, parts, left[i]);
        WellOn(done, log[|log| - 1]);
        assert log[|old(log)|..] == done + [log[|log| - 1]];
        if !ok {
          return false;
        }
        assert left == left[..i] + [left[i]] + left[i + 1..];
        left := left[..i] + left[i + 1..];
      }
      ok := true;
    }
  }

  lemma WellOn(log: seq<Work>, w: Work)
    ensures Well(log + [w]) <==> Well(log) && w.Sending? && w.ok
  {
    assert w in log + [w] && forall v :: v in log ==> v in log + [w];
  }

  datatype Outcome = Failed | AlreadyThere | Completed(digest: seq<byte>)

  /** Why an upload of these parts ended as it did: the server has the file already, or a request, a worker or the
      completion failed, or the caller gave up, or nothing of that. */
  ghost predicate Accounts(s: Server, parts: seq<PartInfo>, work: seq<Work>, digest: seq<byte>, r: Outcome) {
    var created := s.create(parts[..Min(|parts|, BATCH)]);
    && (forall j :: 0 <= j < |work| ==> (work[j].Cancelled? <==> s.cancelled(j)))
    && if created.None? then r == Failed && work == []
    else if s.known || created.value.None? then r == AlreadyThere && work == []
    else if MoreFails(s, parts) then r == Failed && work == []
    else r == if Well(work) && !s.cancelled(|work|) && s.complete(digest) then Completed(digest) else Failed
  }

  /** All parts of the plan are stored with their own bytes. */
  ghost predicate AllStored(stored: map<int, seq<byte>>, file: seq<byte>, parts: seq<PartInfo>) {
    Placed(parts) && OnlyPieces(stored, file, parts) && forall n :: 1 <= n <= |parts| ==> n in stored
  }

  lemma PlanIsPlaced(f: Compression, file: seq<byte>, size: int, partSize: int, parts: seq<PartInfo>)
    requires IsPlan(f, file, size, partSize, parts)
    ensures Placed(parts)
    ensures forall i :: 0 <= i < |parts| ==> parts[i].number == i + 1
  {
    if size > 0 {
      forall i | 0 <= i < |parts|
        ensures parts[i].offset >= 0 && parts[i].size >= 0 && parts[i].number == i + 1
      {
        assert IsPart(f, file, size, partSize, i, parts[i]);
      }
    }
  }

  lemma NamedAreStored(stored: map<int, seq<byte>>, parts: seq<PartInfo>, addresses: seq<Address>)
    requires Names(addresses, parts) && forall i :: 0 <= i < |parts| ==> parts[i].number == i + 1
    requires forall a :: a in addresses ==> a.number in stored
    ensures forall n :: 1 <= n <= |parts| ==> n in stored
  {
    forall n | 1 <= n <= |parts|
      ensures n in stored
    {
      assert addresses[n - 1] in addresses && addresses[n - 1].number == parts[n - 1].number == n;
    }
  }

  /** putPersonalNewParallel up to the renaming: it ends as the answers and the workers' results account for; a
      completed upload names the file's digest, nothing but right bytes was stored, and every part is there if the
      server names the parts it was asked about. */
  method PutParallel(f: Compression, s: Server, b: Bucket, file: seq<byte>, partSize: int) returns (r: Outcome)
    requires |file| <= MAX_INT64 && (partSize > 0 || partSize % BLOCK != 0) && b.stored == map[] && b.log == []
    modifies b
    ensures partSize % BLOCK != 0 ==> r == Failed && b.log == []
    ensures partSize % BLOCK == 0 ==>
      exists parts :: IsPlan(f, file, |file|, partSize, parts) && Accounts(s, parts, b.log, Digest(f, file), r)
    ensures b.log == [] ==> b.stored == map[]
    ensures r.Completed? ==>
      exists parts :: IsPlan(f, file, |file|, partSize, parts) && Placed(parts) && b.Sound(file, parts)
                      && (Faithful(s) ==> AllStored(b.stored, file, parts))
  {
    if partSize % BLOCK != 0 {
      return Failed;
    }
    var planned := PlanParallelParts(f, file, |file|, partSize);
    LastStartInside(|file|, partSize);
    if planned.Err? {
      return Failed;
    }
    var plan := planned.value;
    PlanIsPlaced(f, file, |file|, partSize, plan.parts);
    assert Section(file, 0, |file|) == file;
    hide IsPlan, Accounts, AllStored;
    r := UploadPlan(s, b, file, plan.parts, plan.digest);
  }

  /** The requests and the workers, once the upload is planned. */
  method UploadPlan(s: Server, b: Bucket, file: seq<byte>, parts: seq<PartInfo>, digest: seq<byte>) returns (r: Outcome)
    requires Placed(parts) && (forall i :: 0 <= i < |parts| ==> parts[i].number == i + 1) && b.stored == map[] && b.log == []
    modifies b
    ensures Accounts(s, parts, b.log, digest, r) && (b.log == [] ==> b.stored == map[])
    ensures r.Completed? ==> b.Sound(file, parts) && (Faithful(s) ==> AllStored(b.stored, file, parts))
  {
    var created := s.create(parts[..Min(|parts|, BATCH)]);
    if created.None? {
      return Failed;
    }
    if s.known || created.value.None? {
      return AlreadyThere;
    }
    hide Names, MoreFails, Well;
    var addresses, asked := CollectAddresses(s, parts, created.value.value);
    if addresses.None? {
      return Failed;
    }
    var ok := b.SendAll(s, file, parts, addresses.value);
    assert b.log[0..] == b.log;
    if !ok {
      return Failed;
    }
    if Faithful(s) {
      NamedAreStored(b.stored, parts, addresses.value);
    }
    if s.cancelled(|b.log|) || !s.complete(digest) {
      return Failed;
    }
    r := Completed(digest);
  }

  function Pieces(stored: map<int, seq<byte>>, k: nat): seq<seq<byte>>
    requires forall n :: 1 <= n <= k ==> n in stored
  {
    if k == 0 then [] else Pieces(stored, k - 1) + [stored[k]]
  }

  lemma PieceAppends(file: seq<byte>, off: nat, n: nat)
    requires off + n <= |file|
    ensures file[..off] + Section(file, off, n) == file[..off + n]
  {
  }

  /** The pieces of the first `k` parts put together. */
  lemma {:induction false} PiecesAreThePrefix(f: Compression, file: seq<byte>, partSize: int, parts: seq<PartInfo>,
                                              stored: map<int, seq<byte>>, k: nat)
    requires partSize > 0 && |file| > 0 && IsPlan(f, file, |file|, partSize, parts)
    requires AllStored(stored, file, parts) && k < |parts|
    ensures parts[k].offset + parts[k].size <= |file|
    ensures Concat(Pieces(stored, k + 1)) == file[..parts[k].offset + parts[k].size]
  {
    PlanTiles(f, file, |file|, partSize, parts);
    assert IsPart(f, file, |file|, partSize, k, parts[k]);
    hide IsPlan, IsPart, PartStart;
    if k > 0 {
      PiecesAreThePrefix(f, file, partSize, parts, stored, k - 1);
    }
    ConcatSnoc(Pieces(stored, k), stored[k + 1]);
    assert stored[k + 1] == Piece(file, parts, k + 1);
    PieceAppends(file, parts[k].offset, parts[k].size);
  }

  /** The stored pieces of a completed upload, put together by part number, are the file. */
  lemma StoredIsFile(f: Compression, file: seq<byte>, partSize: int, parts: seq<PartInfo>, stored: map<int, seq<byte>>)
    requires partSize > 0 && |file| > 0 && IsPlan(f, file, |file|, partSize, parts)
    requires AllStored(stored, file, parts)
    ensures Concat(Pieces(stored, |parts|)) == file
  {
    hide AreParts, AllStored, Pieces;
    PiecesAreThePrefix(f, file, partSize, parts, stored, |parts| - 1);
    assert file[..|file|] == file;
  }
}
