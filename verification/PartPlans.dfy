/** How uploads are cut into parts, and the servers' limits on their number and size. */
module PartPlans {
  import opened Prelude
  import Numerals

  const KB: int := 1024
  const MB: int := 1024 * KB
  const GB: int := 1024 * MB
  const TB: int := 1024 * GB

  const MAX_PARTS := 10000

  datatype Chunk = Chunk(number: int, offset: int, size: int)

  /** Parts numbered from one, end to end, covering exactly `size` bytes. */
  ghost predicate Tiles(chunks: seq<Chunk>, size: int) {
    && (forall i :: 0 <= i < |chunks| ==> chunks[i].number == i + 1 && chunks[i].size > 0)
    && (|chunks| > 0 ==> chunks[0].offset == 0)
    && (forall i :: 0 < i < |chunks| ==> chunks[i].offset == chunks[i - 1].offset + chunks[i - 1].size)
    && End(chunks) == size
  }

  function End(chunks: seq<Chunk>): int {
    if chunks == [] then 0 else chunks[|chunks| - 1].offset + chunks[|chunks| - 1].size
  }

  lemma TilesSnoc(chunks: seq<Chunk>, size: int, n: int)
    requires Tiles(chunks, size) && n > 0
    ensures Tiles(chunks + [Chunk(|chunks| + 1, size, n)], size + n)
  {
  }

  /** All parts but the last have `q` bytes. */
  predicate Even(chunks: seq<Chunk>, q: int) {
    forall i :: 0 <= i < |chunks| - 1 ==> chunks[i].size == q
  }

  function Times(i: int, q: int): int {
    i * q
  }

  lemma TimesStep(i: int, q: int)
    ensures Times(i + 1, q) == Times(i, q) + q && Times(0, q) == 0
  {
  }

  /** Division with remainder, and what it says about the quotient. */
  lemma Division(a: nat, b: int)
    requires b > 0
    ensures a == Times(a / b, b) + a % b && 0 <= a % b < b
    ensures Times(b, a / b) == Times(a / b, b) && 0 <= a / b <= a && (b <= a ==> a / b >= 1)
  {
  }

  // ---- drivers/115/util.go ----

  method SplitFileByPartNum(fileSize: nat, chunkNum: int) returns (r: Result<seq<Chunk>>)
    ensures r.Err? <==> chunkNum <= 0 || chunkNum > MAX_PARTS || chunkNum > fileSize
    ensures r == Err("chunkNum invalid") <==> chunkNum <= 0 || chunkNum > MAX_PARTS
    ensures r.Ok? ==> Tiles(r.value, fileSize) && |r.value| == chunkNum && Even(r.value, fileSize / chunkNum)
    ensures r.Ok? ==> r.value[chunkNum - 1].size == fileSize / chunkNum + fileSize % chunkNum
  {
    if chunkNum <= 0 || chunkNum > MAX_PARTS {
      return Err("chunkNum invalid");
    }
    if chunkNum > fileSize {
      return Err("oss: chunkNum invalid");
    }
    var chunks: seq<Chunk> := [];
    var q, rest := fileSize / chunkNum, fileSize % chunkNum;
    Division(fileSize, chunkNum);
    TimesStep(0, q);
    TimesStep(chunkNum - 1, q);
    hide Times, Tiles;
    NoChunks();
    for i := 0 to chunkNum
      invariant |chunks| == i && forall k :: 0 <= k < i ==> chunks[k].size == if k == chunkNum - 1 then q + rest else q
      invariant Tiles(chunks, if i == chunkNum then fileSize else Times(i, q))
    {
      var offset := Times(i, q);
      var size := if i == chunkNum - 1 then q + rest else q;
      TilesSnoc(chunks, offset, size);
      TimesStep(i, q);
      chunks := chunks + [Chunk(i + 1, offset, size)];
    }
    r := Ok(chunks);
  }

  lemma NoChunks()
    ensures Tiles([], 0)
  {
  }

  method SplitFileByPartSize(fileSize: nat, chunkSize: int) returns (r: Result<seq<Chunk>>)
    ensures r.Err? <==> chunkSize <= 0 || fileSize / chunkSize >= MAX_PARTS
    ensures r.Ok? ==> Tiles(r.value, fileSize) && Even(r.value, chunkSize)
    ensures r.Ok? ==> |r.value| == fileSize / chunkSize + if fileSize % chunkSize > 0 then 1 else 0
  {
    if chunkSize <= 0 {
      return Err("chunkSize invalid");
    }
    var chunkN, rest := fileSize / chunkSize, fileSize % chunkSize;
    if chunkN >= MAX_PARTS {
      return Err("Too many parts, please increase part size");
    }
    Division(fileSize, chunkSize);
    TimesStep(0, chunkSize);
    hide Times, Tiles;
    NoChunks();
    var chunks: seq<Chunk> := [];
    for i := 0 to chunkN
      invariant |chunks| == i && forall k :: 0 <= k < i ==> chunks[k].size == chunkSize
      invariant Tiles(chunks, Times(i, chunkSize))
    {
      TilesSnoc(chunks, Times(i, chunkSize), chunkSize);
      TimesStep(i, chunkSize);
      chunks := chunks + [Chunk(i + 1, Times(i, chunkSize), chunkSize)];
    }
    if rest > 0 {
      TilesSnoc(chunks, Times(chunkN, chunkSize), rest);
      chunks := chunks + [Chunk(|chunks| + 1, Times(|chunks|, chunkSize), rest)];
    }
    r := Ok(chunks);
  }

  /** What SplitFile does: a plan, an error, or an index into an empty list. */
  datatype Split = Parts(chunks: seq<Chunk>) | Failed | Panics

  /** A thousand parts for every gigabyte begun, and at most 10000. */
  function WantedParts(fileSize: nat): (n: nat)
    ensures 1000 <= n <= MAX_PARTS
  {
    if fileSize < 9 * GB then (fileSize / GB + 1) * 1000 else MAX_PARTS
  }

  /** SplitFile: it panics exactly at nine gigabytes and fails exactly below a thousand bytes; otherwise the file is
      cut evenly into as many parts as wanted, or, if these would be below 100KB, into parts of that size.  So at most
      10000 parts tile the file, none but the last below 100KB. */
  method SplitFile(fileSize: nat) returns (r: Split)
    ensures r.Panics? <==> fileSize == 9 * GB
    ensures r.Failed? <==> fileSize < 1000
    ensures r.Parts? ==> Tiles(r.chunks, fileSize) && 0 < |r.chunks| <= MAX_PARTS
    ensures r.Parts? ==> forall i :: 0 <= i < |r.chunks| - 1 ==> r.chunks[i].size >= 100 * KB
    ensures r.Parts? ==>
      var n := WantedParts(fileSize);
      if fileSize / n >= 100 * KB then |r.chunks| == n && Even(r.chunks, fileSize / n)
      else |r.chunks| == PartCount(fileSize, 100 * KB) && Even(r.chunks, 100 * KB)
  {
    var chunks: seq<Chunk> := [];
    var n := 0;
    var i := 1;
    while i < 10 && n == 0
      invariant 1 <= i <= 10 && n == 0
      invariant fileSize >= (i - 1) * GB && chunks == []
    {
      if fileSize < i * GB {
        n := i * 1000;
        break;
      }
      i := i + 1;
    }
    if fileSize > 9 * GB {
      n := 10000;
    }
    if n > 0 {
      Gigabytes(fileSize, i);
      assert n == WantedParts(fileSize);
      var split := SplitFileByPartNum(fileSize, n);
      if split.Err? {
        return Failed;
      }
      chunks := split.value;
    }
    if chunks == [] {
      return Panics;
    }
    if chunks[0].size < 100 * KB {
      FewSmallParts(fileSize, n);
      RoundedUp(fileSize, 100 * KB);
      var split := SplitFileByPartSize(fileSize, 100 * KB);
      if split.Err? {
        return Failed;
      }
      chunks := split.value;
    }
    r := Parts(chunks);
  }

  lemma Gigabytes(fileSize: nat, i: nat)
    ensures i > 0 && (i - 1) * GB <= fileSize < i * GB ==> fileSize / GB == i - 1
  {
  }

  /** Ceiling division, either way it is written. */
  lemma RoundedUp(size: nat, part: int)
    requires part > 0
    ensures PartCount(size, part) == size / part + if size % part > 0 then 1 else 0
  {
    var n := size / part + if size % part > 0 then 1 else 0;
    Division(size, part);
    TimesStep(size / part, part);
    PartCountIsLeast(size, part, n);
    if n > 0 {
      TimesStep(n - 1, part);
      PartCountIsLeast(size, part, n - 1);
    }
  }

  /** If an n-th of the file is under 100KB, the file has fewer than n pieces of 100KB. */
  lemma FewSmallParts(fileSize: nat, n: int)
    requires 0 < n
    ensures fileSize / n < 100 * KB ==> fileSize / (100 * KB) < n
  {
    Division(fileSize, n);
    Division(fileSize, 100 * KB);
    if fileSize / n < 100 * KB {
      Numerals.MulMonotone(fileSize / n + 1, 100 * KB, n);
    }
  }

  /** The number of parts of size `part` that hold `size` bytes: (size + part - 1) / part. */
  function PartCount(size: nat, part: int): nat
    requires part > 0
  {
    (size + part - 1) / part
  }

  /** Ceiling division: the least number of parts that is enough. */
  lemma PartCountIsLeast(size: nat, part: int, n: nat)
    requires part > 0
    ensures PartCount(size, part) <= n <==> size <= Times(n, part)
  {
    var c := PartCount(size, part);
    Division(size + part - 1, part);
    TimesStep(c, part);
    if c <= n {
      Numerals.MulMonotone(c, n, part);
    } else {
      Numerals.MulMonotone(n, c - 1, part);
      TimesStep(c - 1, part);
    }
  }

  // ---- drivers/115_open/upload.go ----

  function CalPartSize(fileSize: nat): (p: int)
    ensures p > 0
  {
    if fileSize <= 20 * MB then 20 * MB
    else if fileSize > 1 * TB then 5 * GB
    else if fileSize > 768 * GB then 109951163
    else if fileSize > 512 * GB then 82463373
    else if fileSize > 384 * GB then 54975582
    else if fileSize > 256 * GB then 41231687
    else if fileSize > 128 * GB then 27487791
    else 20 * MB
  }

  /** The steps, in gigabytes, up to each of which one part size serves. */
  const STEPS: seq<int> := [256, 384, 512, 768, 1024]

  /** Between 128GB and a terabyte it is the least part size that cuts the next step into 10000 parts. */
  lemma CalPartSizeIs(fileSize: nat, k: nat)
    ensures fileSize <= 128 * GB ==> CalPartSize(fileSize) == 20 * MB
    ensures fileSize > 1 * TB ==> CalPartSize(fileSize) == 5 * GB
    ensures k < |STEPS| && (if k == 0 then 128 else STEPS[k - 1]) * GB < fileSize <= STEPS[k] * GB ==>
      forall p: nat :: p > 0 ==> (PartCount(STEPS[k] * GB, p) <= MAX_PARTS <==> CalPartSize(fileSize) <= p)
  {
    if k < |STEPS| && (if k == 0 then 128 else STEPS[k - 1]) * GB < fileSize <= STEPS[k] * GB {
      forall p: nat | p > 0
        ensures PartCount(STEPS[k] * GB, p) <= MAX_PARTS <==> CalPartSize(fileSize) <= p
      {
        PartCountIsLeast(STEPS[k] * GB, p, MAX_PARTS);
      }
    }
  }

  /** The server's limit of 10000 parts is kept exactly up to 50000GB. */
  lemma CalPartSizeLimit(fileSize: nat)
    ensures PartCount(fileSize, CalPartSize(fileSize)) <= MAX_PARTS <==> fileSize <= 50000 * GB
  {
    PartCountIsLeast(fileSize, CalPartSize(fileSize), MAX_PARTS);
  }

  /** The part loop of multpartUpload; the first part that fails, or finds the call cancelled, ends it. */
  method MultipartUpload(fileSize: nat, fails: nat -> bool) returns (done: bool, sent: seq<Chunk>)
    requires fileSize > 0
    ensures forall i: nat :: 1 <= i <= |sent| ==> !fails(i)
    ensures !done ==> fails(|sent| + 1) && |sent| < PartCount(fileSize, CalPartSize(fileSize))
    ensures done ==> Tiles(sent, fileSize) && |sent| == PartCount(fileSize, CalPartSize(fileSize))
    ensures !done ==> exists n: nat :: n < fileSize && Tiles(sent, n)
    ensures Even(sent, CalPartSize(fileSize))
  {
    var chunkSize := CalPartSize(fileSize);
    var partNum := PartCount(fileSize, chunkSize);
    var offset := 0;
    sent := [];
    PartCountIsLeast(fileSize, chunkSize, 0);
    PartCountIsLeast(fileSize, chunkSize, partNum);
    PartCountIsLeast(fileSize, chunkSize, partNum - 1);
    TimesStep(0, chunkSize);
    TimesStep(partNum - 1, chunkSize);
    NoChunks();
    hide Times, Tiles, PartCount, CalPartSize;
    for i := 1 to partNum + 1
      invariant |sent| == i - 1 && forall k :: 0 <= k < |sent| && k < partNum - 1 ==> sent[k].size == chunkSize
      invariant offset == (if i == partNum + 1 then fileSize else Times(i - 1, chunkSize)) && Tiles(sent, offset)
      invariant i <= partNum ==> 0 <= offset < fileSize
      invariant forall k: nat :: 1 <= k < i ==> !fails(k)
    {
      if fails(i) {
        return false, sent;
      }
      var partSize := chunkSize;
      if i == partNum {
        partSize := fileSize - Times(i - 1, chunkSize);
      }
      TilesSnoc(sent, offset, partSize);
      TimesStep(i - 1, chunkSize);
      BelowLast(i, partNum, chunkSize);
      sent := sent + [Chunk(i, offset, partSize)];
      offset := if i == partNum then fileSize else offset + partSize;
    }
    done := true;
  }

  lemma BelowLast(i: int, n: int, q: int)
    requires q > 0 && i >= 0
    ensures i <= n - 1 ==> 0 <= Times(i, q) <= Times(n - 1, q)
  {
    if i <= n - 1 { Numerals.MulMonotone(i, n - 1, q); }
    Numerals.MulMonotone(0, i, q);
  }

  // ---- drivers/189pc/help.go ----

  const DEFAULT_189: int := 10 * MB

  /** Exact ceiling in place of the floating-point one. */
  function PartSize189(size: nat): (p: int)
    ensures p >= DEFAULT_189
  {
    if size > DEFAULT_189 * 2 * 999 then Max(PartCount(size, 1999 * DEFAULT_189), 5) * DEFAULT_189
    else if size > DEFAULT_189 * 999 then DEFAULT_189 * 2
    else DEFAULT_189
  }

  /** At most 999 parts up to the large-file threshold and 1999 above; parts are whole multiples of
      10MB, and the least one that is enough, but above the threshold not under 50MB. */
  lemma PartSize189Limit(size: nat)
    ensures size <= DEFAULT_189 * 2 * 999 ==> PartCount(size, PartSize189(size)) <= 999
    ensures size <= DEFAULT_189 * 2 * 999 ==>
      PartSize189(size) == if PartCount(size, DEFAULT_189) <= 999 then DEFAULT_189 else 2 * DEFAULT_189
    ensures size > DEFAULT_189 * 2 * 999 ==> PartCount(size, PartSize189(size)) <= 1999
    ensures size > DEFAULT_189 * 2 * 999 ==>
      forall m: nat :: 5 <= m && size <= Times(m, 1999 * DEFAULT_189) ==> PartSize189(size) <= m * DEFAULT_189
  {
    if size <= DEFAULT_189 * 2 * 999 {
      PartCountIsLeast(size, PartSize189(size), 999);
      PartCountIsLeast(size, DEFAULT_189, 999);
    } else {
      var f := PartCount(size, 1999 * DEFAULT_189);
      PartCountIsLeast(size, 1999 * DEFAULT_189, f);
      PartCountIsLeast(size, PartSize189(size), 1999);
      forall m: nat | 5 <= m && size <= Times(m, 1999 * DEFAULT_189)
        ensures PartSize189(size) <= m * DEFAULT_189
      {
        PartCountIsLeast(size, 1999 * DEFAULT_189, m);
      }
    }
  }

  // ---- drivers/baidu_netdisk/util.go ----

  const DEFAULT_SLICE: int := 4 * MB
  const VIP_SLICE: int := 16 * MB
  const SVIP_SLICE: int := 32 * MB
  const MAX_SLICES := 2048
  const STEP: int := 1 * MB

  function MaxSlice(vipType: int): (m: int)
    ensures m >= DEFAULT_SLICE
  {
    if vipType == 1 then VIP_SLICE else if vipType == 2 then SVIP_SLICE else DEFAULT_SLICE
  }

  /** The sizes low-bandwidth mode tries. */
  predicate IsStep(size: int) {
    size >= DEFAULT_SLICE && (size - DEFAULT_SLICE) % STEP == 0
  }

  /**
   getSliceSize.  Members without a custom size get the largest slice, or, to save bandwidth, the
   least step that keeps the count within 2048; whenever the file fits at all, so does the plan.
   */
  method GetSliceSize(vipType: int, custom: int, lowBandwidth: bool, fileSize: nat) returns (size: int)
    ensures vipType == 0 ==> size == DEFAULT_SLICE
    ensures vipType in {1, 2} && custom != 0 ==>
      size == Max(DEFAULT_SLICE, Min(custom, MaxSlice(vipType)))
    ensures vipType !in {0, 1, 2} && custom != 0 ==> size == Max(DEFAULT_SLICE, custom)
    ensures vipType != 0 && custom == 0 && !lowBandwidth ==> size == MaxSlice(vipType)
    ensures vipType != 0 && custom == 0 && lowBandwidth && fileSize <= MAX_SLICES * MaxSlice(vipType) ==>
      && IsStep(size) && size <= MaxSlice(vipType) && PartCount(fileSize, size) <= MAX_SLICES
      && forall smaller :: IsStep(smaller) && smaller < size ==> PartCount(fileSize, smaller) > MAX_SLICES
    ensures vipType != 0 && custom == 0 && fileSize > MAX_SLICES * MaxSlice(vipType) ==>
      size == MaxSlice(vipType) && PartCount(fileSize, size) > MAX_SLICES
    ensures size > 0
  {
    if vipType == 0 {
      return DEFAULT_SLICE;
    }
    if custom != 0 {
      if custom < DEFAULT_SLICE {
        return DEFAULT_SLICE;
      }
      if vipType == 1 && custom > VIP_SLICE {
        return VIP_SLICE;
      }
      if vipType == 2 && custom > SVIP_SLICE {
        return SVIP_SLICE;
      }
      return custom;
    }
    var maxSliceSize := MaxSlice(vipType);
    PartCountIsLeast(fileSize, maxSliceSize, MAX_SLICES);
    if lowBandwidth {
      size := DEFAULT_SLICE;
      hide PartCount;
      while size <= maxSliceSize
        invariant IsStep(size)
        invariant forall smaller :: IsStep(smaller) && smaller < size ==> fileSize > MAX_SLICES * smaller
        decreases maxSliceSize - size
      {
        if fileSize <= MAX_SLICES * size {
          SmallerAreTooSmall(fileSize, size);
          return size;
        }
        NextStep(size);
        size := size + STEP;
      }
    }
    size := maxSliceSize;
  }

  lemma NextStep(size: int)
    requires IsStep(size)
    ensures IsStep(size + STEP)
    ensures forall smaller :: IsStep(smaller) && smaller < size + STEP ==> smaller <= size
  {
  }

  lemma SmallerAreTooSmall(fileSize: nat, size: int)
    requires IsStep(size) && fileSize <= MAX_SLICES * size
    requires forall smaller :: IsStep(smaller) && smaller < size ==> fileSize > MAX_SLICES * smaller
    ensures PartCount(fileSize, size) <= MAX_SLICES
    ensures forall smaller :: IsStep(smaller) && smaller < size ==> PartCount(fileSize, smaller) > MAX_SLICES
  {
    PartCountIsLeast(fileSize, size, MAX_SLICES);
    forall smaller | IsStep(smaller) && smaller < size
      ensures PartCount(fileSize, smaller) > MAX_SLICES
    {
      PartCountIsLeast(fileSize, smaller, MAX_SLICES);
    }
  }
}
