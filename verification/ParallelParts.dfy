/** Planning a parallel upload: one pass over the file yields its digest and, for every part, the
    SHA-256 registers at the part's start, so that a storage node can check a part on its own. */
module ParallelParts {
  import opened Prelude
  import opened Sha256

  datatype HashCtx = HashCtx(h: Registers, partOffset: int)

  /** parallelPartInfo; the first part carries no hash context. */
  datatype PartInfo = PartInfo(number: int, size: int, ctx: Option<HashCtx>, offset: int)

  datatype Planned = Planned(digest: seq<byte>, parts: seq<PartInfo>)

  const COPY_BUFFER := 1024 * 1024

  /** io.NewSectionReader: what there is of `n` bytes from `off`. */
  function Section(file: seq<byte>, off: nat, n: nat): seq<byte> {
    file[Min(off, |file|)..Min(off + n, |file|)]
  }

  /** Where part number `i`, counted from zero, starts: `i` part sizes from the beginning. */
  function PartStart(i: nat, partSize: int): int {
    if i == 0 then 0 else PartStart(i - 1, partSize) + partSize
  }

  /** What the plan of a file must look like: parts in order, end to end, all of the same size but
      the last, each with the registers over everything before it. */
  ghost predicate IsPart(f: Compression, file: seq<byte>, size: int, partSize: int, i: nat, p: PartInfo) {
    && p.number == i + 1
    && p.offset == PartStart(i, partSize)
    && p.size == Min(partSize, size - PartStart(i, partSize)) && 0 < p.size
    && 0 <= PartStart(i, partSize) <= |file| && WholeBlocks(file[..PartStart(i, partSize)])
    && p.ctx == if i == 0 then None else Some(HashCtx(Fold(f, INITIAL, file[..PartStart(i, partSize)]), PartStart(i, partSize)))
  }

  ghost predicate AreParts(f: Compression, file: seq<byte>, size: int, partSize: int, parts: seq<PartInfo>) {
    forall i: nat :: i < |parts| ==> IsPart(f, file, size, partSize, i, parts[i])
  }

  ghost predicate IsPlan(f: Compression, file: seq<byte>, size: int, partSize: int, parts: seq<PartInfo>) {
    if size <= 0 then parts == [PartInfo(1, 0, None, 0)]
    else
      && |parts| > 0 && AreParts(f, file, size, partSize, parts)
      && parts[|parts| - 1].offset + parts[|parts| - 1].size == size
  }

  /** The parts tile the file. */
  lemma PlanTiles(f: Compression, file: seq<byte>, size: int, partSize: int, parts: seq<PartInfo>)
    requires size > 0 && partSize > 0 && IsPlan(f, file, size, partSize, parts)
    ensures parts[0].offset == 0
    ensures forall i :: 0 <= i < |parts| - 1 ==>
      parts[i].size == partSize && parts[i + 1].offset == parts[i].offset + parts[i].size
    ensures parts[|parts| - 1].offset + parts[|parts| - 1].size == size
  {
    assert IsPart(f, file, size, partSize, 0, parts[0]);
    forall i | 0 <= i < |parts| - 1
      ensures parts[i].size == partSize && parts[i + 1].offset == parts[i].offset + parts[i].size
    {
      assert IsPart(f, file, size, partSize, i, parts[i]);
      assert IsPart(f, file, size, partSize, i + 1, parts[i + 1]);
    }
    var last := |parts| - 1;
    assert IsPart(f, file, size, partSize, last, parts[last]);
  }

  lemma {:induction false} MultipleAligned(k: nat, d: nat)
    requires d % BLOCK == 0
    ensures PartStart(k, d) % BLOCK == 0
  {
    if k > 0 {
      MultipleAligned(k - 1, d);
      SumAligned(PartStart(k - 1, d), d);
    }
  }

  lemma SumAligned(a: int, b: int)
    requires a % BLOCK == 0 && b % BLOCK == 0
    ensures (a + b) % BLOCK == 0
  {
  }

  /** io.CopyBuffer into the hasher, a buffer at a time; a short file ends the copy without an error. */
  method CopyInto(h: Hasher, file: seq<byte>, off: nat, n: nat)
    requires h.Valid()
    modifies h
    ensures h.Valid() && h.written == old(h.written) + Section(file, off, n)
  {
    var pos, end := Min(off, |file|), Min(off + n, |file|);
    ghost var start := pos;
    assert h.written == old(h.written) + file[start..pos];
    while pos < end
      invariant start <= pos <= end && h.Valid()
      invariant h.written == old(h.written) + file[start..pos]
    {
      var next := Min(pos + COPY_BUFFER, end);
      h.Write(file[pos..next]);
      assert file[start..next] == file[start..pos] + file[pos..next];
      pos := next;
    }
  }

  /** The start of the last part. */
  function LastStart(size: int, partSize: int): int
    requires partSize > 0
    decreases size
  {
    if size <= partSize then 0 else partSize + LastStart(size - partSize, partSize)
  }

  /** What the pass over the file has reached at `offset`: the planned parts and the hashed bytes. */
  ghost predicate Reached(f: Compression, file: seq<byte>, size: int, partSize: int, parts: seq<PartInfo>,
                          written: seq<byte>, offset: int) {
    && AreParts(f, file, size, partSize, parts)
    && 0 <= offset <= Max(size, 0) && written == file[..Min(offset, |file|)]
    && (offset < size ==> offset == PartStart(|parts|, partSize))
    && (offset >= size > 0 ==> |parts| > 0 && parts[|parts| - 1].offset + parts[|parts| - 1].size == size)
  }

  lemma ReachedNext(f: Compression, file: seq<byte>, size: int, partSize: int, parts: seq<PartInfo>,
                    written: seq<byte>, offset: int, p: PartInfo)
    requires Reached(f, file, size, partSize, parts, written, offset) && offset < size && partSize > 0
    requires p.number == |parts| + 1 && p.offset == offset && p.size == Min(partSize, size - offset)
    requires offset <= |file| && offset % BLOCK == 0
    requires p.ctx == if |parts| == 0 then None else Some(HashCtx(Fold(f, INITIAL, file[..offset]), offset))
    ensures Reached(f, file, size, partSize, parts + [p], written + Section(file, offset, p.size), offset + p.size)
  {
    assert IsPart(f, file, size, partSize, |parts|, p);
    assert PartStart(|parts| + 1, partSize) == PartStart(|parts|, partSize) + partSize;
    hide PartStart, Fold, IsPart;
    assert file[..Min(offset + p.size, |file|)] == file[..Min(offset, |file|)] + Section(file, offset, p.size);
  }

  /** Part starts inside the file do not pass the last one. */
  lemma {:induction false} StartsBefore(k: nat, size: int, partSize: int)
    requires partSize > 0 && PartStart(k, partSize) < size
    ensures 0 <= PartStart(k, partSize) <= LastStart(size, partSize)
    decreases k
  {
    if k > 0 {
      StartsBefore(k - 1, size - partSize, partSize);
    }
    if k == 0 { LastStartPositive(size, partSize); }
  }

  lemma {:induction false} LastStartPositive(size: int, partSize: int)
    requires partSize > 0
    ensures LastStart(size, partSize) >= 0
    decreases size
  {
    if size > partSize { LastStartPositive(size - partSize, partSize); }
  }

  /** The last part of a file starts inside it. */
  lemma {:induction false} LastStartInside(size: nat, partSize: int)
    requires partSize > 0
    ensures LastStart(size, partSize) <= size
    decreases size
  {
    if size > partSize { LastStartInside(size - partSize, partSize); }
  }

  /** The part that reaches the end of the file is the last one. */
  lemma {:induction false} LastStartIs(k: nat, size: int, partSize: int)
    requires partSize > 0 && PartStart(k, partSize) < size <= PartStart(k, partSize) + partSize
    ensures LastStart(size, partSize) == PartStart(k, partSize)
    decreases k
  {
    if k > 0 {
      PartStartPositive(k - 1, partSize);
      LastStartIs(k - 1, size - partSize, partSize);
    }
  }

  lemma {:induction false} PartStartPositive(k: nat, partSize: int)
    requires partSize > 0
    ensures PartStart(k, partSize) >= 0
  {
    if k > 0 { PartStartPositive(k - 1, partSize); }
  }

  lemma PartBegins(f: Compression, file: seq<byte>, size: int, partSize: int, parts: seq<PartInfo>,
                   written: seq<byte>, offset: int)
    requires Reached(f, file, size, partSize, parts, written, offset) && offset < size
    requires partSize > 0 && partSize % BLOCK == 0
    ensures 0 <= offset <= LastStart(size, partSize) && offset % BLOCK == 0
    ensures written == file[..Min(offset, |file|)] && (|parts| == 0 ==> offset == 0)
  {
    assert PartStart(0, partSize) == 0;
    hide PartStart, LastStart, AreParts;
    MultipleAligned(|parts|, partSize);
    StartsBefore(|parts|, size, partSize);
  }

  /** One more part at `offset`: the next registers, unless the hasher has not got that far. */
  method ContextAt(h: Hasher, ghost file: seq<byte>, offset: int, number: int) returns (r: Result<Option<HashCtx>>)
    requires h.Valid() && |h.written| <= MAX_INT64 && number >= 1
    requires 0 <= offset && offset % BLOCK == 0 && h.written == file[..Min(offset, |file|)]
    requires number == 1 ==> offset == 0
    ensures r.Err? <==> number > 1 && |file| < offset
    ensures r.Ok? ==> offset <= |file|
    ensures r.Ok? ==>
      r.value == if number == 1 then None else Some(HashCtx(Fold(h.f, INITIAL, file[..offset]), offset))
  {
    if number > 1 {
      var regs, hashed := Midstate(h);
      if hashed != offset {
        return Err("sha256 state does not cover the part");
      }
      WholeUnique(offset, offset);
      assert h.written[..offset] == h.written;
      return Ok(Some(HashCtx(regs, offset)));
    }
    r := Ok(None);
  }

  /** One turn of the loop: plan the part at `offset` and hash its bytes. */
  method PlanPart(h: Hasher, file: seq<byte>, size: int, partSize: int, ghost parts: seq<PartInfo>, offset: int,
                  partNumber: int) returns (r: Result<PartInfo>)
    requires |file| <= MAX_INT64 && partSize > 0 && partSize % BLOCK == 0
    requires h.Valid() && Reached(h.f, file, size, partSize, parts, h.written, offset)
    requires offset < size && partNumber == |parts| + 1
    modifies h
    ensures r.Err? ==> |file| < LastStart(size, partSize)
    ensures h.Valid()
    ensures r.Ok? ==>
      r.value.size > 0 && Reached(h.f, file, size, partSize, parts + [r.value], h.written, offset + r.value.size)
  {
    var byteSize := if size - offset > partSize then partSize else size - offset;
    hide Fold, LastStart, Reached, Section;
    PartBegins(h.f, file, size, partSize, parts, h.written, offset);
    var ctx := ContextAt(h, file, offset, partNumber);
    if ctx.Err? {
      return Err(ctx.error);
    }
    var p := PartInfo(partNumber, byteSize, ctx.value, offset);
    ReachedNext(h.f, file, size, partSize, parts, h.written, offset, p);
    CopyInto(h, file, offset, byteSize);
    r := Ok(p);
  }

  lemma PlanReachesEnd(f: Compression, file: seq<byte>, size: int, partSize: int, parts: seq<PartInfo>)
    requires size > 0 && partSize > 0 && IsPlan(f, file, size, partSize, parts)
    ensures LastStart(size, partSize) <= |file|
  {
    var last := |parts| - 1;
    assert IsPart(f, file, size, partSize, last, parts[last]);
    LastStartIs(last, size, partSize);
  }

  lemma PassBegins(f: Compression, file: seq<byte>, size: int, partSize: int)
    requires partSize > 0
    ensures Reached(f, file, size, partSize, [], [], 0)
    ensures size <= 0 ==> LastStart(size, partSize) == 0
  {
    assert PartStart(0, partSize) == 0;
  }

  /** The pass is over: a file without bytes still has one part. */
  lemma PassOver(f: Compression, file: seq<byte>, size: int, partSize: int, parts: seq<PartInfo>, written: seq<byte>, offset: int)
    requires Reached(f, file, size, partSize, parts, written, offset) && offset >= size
    ensures written == Section(file, 0, Max(size, 0))
    ensures IsPlan(f, file, size, partSize, if |parts| == 0 then [PartInfo(1, 0, None, 0)] else parts)
  {
    assert |parts| > 0 ==> IsPart(f, file, size, partSize, 0, parts[0]);
    assert written == file[..Min(offset, |file|)];
  }

  /** planParallelParts.  A part size that is not positive but a multiple of 64 never ends. */
  method PlanParallelParts(f: Compression, file: seq<byte>, size: int, partSize: int) returns (r: Result<Planned>)
    requires |file| <= MAX_INT64 && (partSize > 0 || partSize % BLOCK != 0)
    ensures r.Err? <==> partSize % BLOCK != 0 || |file| < LastStart(size, partSize)
    ensures r.Ok? ==> IsPlan(f, file, size, partSize, r.value.parts)
    ensures r.Ok? ==> r.value.digest == Digest(f, Section(file, 0, Max(size, 0)))
  {
    if partSize % BLOCK != 0 {
      return Err("part size is not a multiple of 64 bytes");
    }
    var h := new Hasher(f);
    var parts: seq<PartInfo> := [];
    var offset, partNumber := 0, 1;
    PassBegins(f, file, size, partSize);
    hide Reached, LastStart, Section, IsPlan, Digest;
    while offset < size
      invariant partNumber == |parts| + 1 && h.f == f
      invariant h.Valid() && Reached(f, file, size, partSize, parts, h.written, offset)
      decreases size - offset
    {
      var p := PlanPart(h, file, size, partSize, parts, offset, partNumber);
      if p.Err? {
        return Err(p.error);
      }
      parts := parts + [p.value];
      offset, partNumber := offset + p.value.size, partNumber + 1;
    }
    PassOver(f, file, size, partSize, parts, h.written, offset);
    if |parts| == 0 {
      parts := [PartInfo(1, 0, None, 0)];
    }
    if size > 0 {
      PlanReachesEnd(f, file, size, partSize, parts);
    }
    var digest := h.Sum();
    r := Ok(Planned(digest, parts));
  }

  // ---- checking the parts one by one ----

  function RegistersOf(p: PartInfo): Registers {
    if p.ctx.Some? then p.ctx.value.h else INITIAL
  }

  /** What a storage node checks of part `i`: length, and the registers of the next part, or, on the
      last part, the digest of the whole file. */
  predicate Verifies(f: Compression, plan: Planned, i: nat, blob: seq<byte>)
    requires i < |plan.parts|
  {
    var p := plan.parts[i];
    && |blob| == p.size
    && if i < |plan.parts| - 1
       then WholeBlocks(blob) && Fold(f, RegistersOf(p), blob) == RegistersOf(plan.parts[i + 1])
       else p.offset >= 0 && p.offset % BLOCK == 0 && Finish(f, RegistersOf(p), p.offset, blob) == plan.digest
  }

  ghost predicate AllVerify(f: Compression, plan: Planned, blobs: seq<seq<byte>>) {
    |blobs| == |plan.parts| && forall i: nat :: i < |blobs| ==> Verifies(f, plan, i, blobs[i])
  }

  /** Registers chain through verified parts. */
  lemma {:induction false} Chain(f: Compression, file: seq<byte>, size: int, partSize: int, plan: Planned,
                                 blobs: seq<seq<byte>>, k: nat)
    requires size > 0 && partSize > 0 && partSize % BLOCK == 0
    requires IsPlan(f, file, size, partSize, plan.parts) && AllVerify(f, plan, blobs) && k < |blobs|
    ensures |Concat(blobs[..k])| == PartStart(k, partSize) && WholeBlocks(Concat(blobs[..k]))
    ensures Fold(f, INITIAL, Concat(blobs[..k])) == RegistersOf(plan.parts[k])
  {
    MultipleAligned(k, partSize);
    assert IsPart(f, file, size, partSize, k, plan.parts[k]);
    if k > 0 {
      var j := k - 1;
      Chain(f, file, size, partSize, plan, blobs, j);
      PlanTiles(f, file, size, partSize, plan.parts);
      assert blobs[..k] == blobs[..j] + [blobs[j]];
      ConcatSnoc(blobs[..j], blobs[j]);
      assert Verifies(f, plan, j, blobs[j]);
      FoldAppend(f, INITIAL, Concat(blobs[..j]), blobs[j]);
    }
  }

  /** Parts that verify one by one make up a file with the planned digest. */
  lemma VerifiedPartsHashAsPlanned(f: Compression, file: seq<byte>, size: int, partSize: int, plan: Planned,
                                   blobs: seq<seq<byte>>)
    requires size > 0 && partSize > 0 && partSize % BLOCK == 0
    requires IsPlan(f, file, size, partSize, plan.parts) && AllVerify(f, plan, blobs)
    ensures Digest(f, Concat(blobs)) == plan.digest && |Concat(blobs)| == size
  {
    var last := |blobs| - 1;
    Chain(f, file, size, partSize, plan, blobs, last);
    assert IsPart(f, file, size, partSize, last, plan.parts[last]);
    assert Verifies(f, plan, last, blobs[last]);
    assert blobs == blobs[..last] + [blobs[last]];
    ConcatSnoc(blobs[..last], blobs[last]);
    var before := Concat(blobs[..last]);
    var all := Concat(blobs);
    assert all[..|before|] == before && all[|before|..] == blobs[last];
    FinishIsDigest(f, all, |before|);
  }

  /** The file's own pieces verify. */
  lemma OwnPiecesVerify(f: Compression, file: seq<byte>, size: int, partSize: int, plan: Planned, i: nat)
    requires 0 < size == |file| && partSize > 0 && partSize % BLOCK == 0
    requires IsPlan(f, file, size, partSize, plan.parts) && plan.digest == Digest(f, file) && i < |plan.parts|
    ensures var p := plan.parts[i];
      0 <= p.offset <= p.offset + p.size <= |file| && Verifies(f, plan, i, file[p.offset..p.offset + p.size])
  {
    hide Finish, Digest, PartStart;
    var p := plan.parts[i];
    assert IsPart(f, file, size, partSize, i, p);
    MultipleAligned(i, partSize);
    PlanTiles(f, file, size, partSize, plan.parts);
    if i < |plan.parts| - 1 {
      assert IsPart(f, file, size, partSize, i + 1, plan.parts[i + 1]);
      var piece := file[p.offset..p.offset + p.size];
      assert file[..p.offset + p.size] == file[..p.offset] + piece;
      FoldAppend(f, INITIAL, file[..p.offset], piece);
    } else {
      FinishIsDigest(f, file, p.offset);
      assert file[p.offset..p.offset + p.size] == file[p.offset..];
    }
  }

  /** A collision of the compression function: two different inputs, one output. */
  ghost predicate Collides(f: Compression) {
    exists r, s, a: seq<byte>, b: seq<byte> :: |a| == |b| == BLOCK && (r != s || a != b) && f(r, a) == f(s, b)
  }

  /** Two different runs of the same length that end in the same registers contain a collision. */
  lemma {:induction false} FoldCollides(f: Compression, r: Registers, s: Registers, a: seq<byte>, b: seq<byte>)
    requires WholeBlocks(a) && |a| == |b| && (r != s || a != b) && Fold(f, r, a) == Fold(f, s, b)
    ensures Collides(f)
    decreases |a|
  {
    if a != [] {
      var x, y := a[..BLOCK], b[..BLOCK];
      assert a == x + a[BLOCK..] && b == y + b[BLOCK..];
      if f(r, x) == f(s, y) && (r != s || x != y) {
        assert |x| == |y| == BLOCK;
      } else {
        FoldCollides(f, f(r, x), f(s, y), a[BLOCK..], b[BLOCK..]);
      }
    }
  }

  lemma WordsInjective(r: Registers, s: Registers)
    requires PutWords(r) == PutWords(s)
    ensures r == s
  {
    forall i | 0 <= i < 8
      ensures r[i] == s[i]
    {
      WordAt(r, i);
      WordAt(s, i);
    }
  }

  /** Whoever gets a wrong part past its check has found a collision. */
  lemma VerifiedPartIsTheFiles(f: Compression, file: seq<byte>, size: int, partSize: int, plan: Planned, i: nat,
                               blob: seq<byte>)
    requires 0 < size == |file| && partSize > 0 && partSize % BLOCK == 0 && i < |plan.parts|
    ensures IsPlan(f, file, size, partSize, plan.parts) && plan.digest == Digest(f, file) && Verifies(f, plan, i, blob) ==>
      blob == Section(file, PartStart(i, partSize), plan.parts[i].size) || Collides(f)
  {
    if IsPlan(f, file, size, partSize, plan.parts) && plan.digest == Digest(f, file) && Verifies(f, plan, i, blob) {
      var p := plan.parts[i];
      assert IsPart(f, file, size, partSize, i, p);
      OwnPiecesVerify(f, file, size, partSize, plan, i);
      var own := file[p.offset..p.offset + p.size];
      if blob != own {
        var r := RegistersOf(p);
        if i < |plan.parts| - 1 {
          FoldCollides(f, r, r, blob, own);
        } else {
          FinishCollides(f, r, p.offset, blob, own);
        }
      }
    }
  }

  lemma FinishCollides(f: Compression, r: Registers, before: nat, a: seq<byte>, b: seq<byte>)
    requires before % BLOCK == 0 && |a| == |b| && a != b && Finish(f, r, before, a) == Finish(f, r, before, b)
    ensures Collides(f)
  {
    var p := Padding(before + |a|);
    AlignedRest(before, |a| + |p|);
    hide Padding, PutWords;
    WordsInjective(Fold(f, r, a + p), Fold(f, r, b + p));
    assert (a + p)[..|a|] == a && (b + p)[..|b|] == b;
    FoldCollides(f, r, r, a + p, b + p);
  }
}
