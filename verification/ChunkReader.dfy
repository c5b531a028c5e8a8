/** Range reads over the chunks of one object. */
module ChunkReader {
  import opened Prelude

  const OUT_OF_BOUND := "range start out of bound"
  const MISSING := "missing chunk data"

  /** The requested length after clamping to the object's size.  The sum is a 64-bit one: when it
      wraps round, a request that ends beyond the object is not clamped. */
  function Clamp(total: int, start: int, length: int): int {
    if length < 0 || Wrap64(start + length) > total then total - start else length
  }

  /** What a range read returns, in terms of the concatenated chunks. */
  function ReadParts(parts: seq<Bytes>, total: int, start: int, length: int): Result<Bytes> {
    var want := Clamp(total, start, length);
    if start < 0 || start > total then Err(OUT_OF_BOUND)
    else if want == 0 then Ok("")
    else if want < 0 || start + want > |Concat(parts)| then Err(MISSING)
    else Ok(Concat(parts)[start..start + want])
  }

  /** The bytes of `s` that fall into [from, from + len). */
  function Window(s: Bytes, from: nat, len: nat): Bytes {
    s[Min(from, |s|)..Min(from + len, |s|)]
  }

  /** One more chunk adds exactly the section of it that the request covers. */
  lemma WindowStep(s: Bytes, part: Bytes, from: nat, len: nat)
    requires from < |s| + |part| && |Window(s, from, len)| < len
    ensures var local := Max(from - |s|, 0);
      var n := Min(|part| - local, len - |Window(s, from, len)|);
      && 0 <= local <= |part| && 0 <= n && local + n <= |part|
      && Window(s + part, from, len) == Window(s, from, len) + part[local..local + n]
  {
    var local := Max(from - |s|, 0);
    var n := Min(|part| - local, len - |Window(s, from, len)|);
    var a := Min(from, |s + part|);
    assert (s + part)[a..Min(from + len, |s + part|)] == Window(s, from, len) + part[local..local + n];
  }

  lemma WindowFull(s: Bytes, part: Bytes, from: nat, len: nat)
    requires from >= |s| + |part| || |Window(s, from, len)| >= len
    ensures Window(s + part, from, len) == Window(s, from, len)
  {
  }

  lemma WindowDone(s: Bytes, from: nat, len: nat)
    requires len > 0
    ensures |Window(s, from, len)| < len <==> from + len > |s|
    ensures from + len <= |s| ==> Window(s, from, len) == s[from..from + len]
  {
  }

  /** The loop of openChunkReader: one section reader per chunk the range touches. */
  method CollectSections(parts: seq<Bytes>, start: nat, want: nat) returns (readers: seq<Bytes>, remaining: int)
    ensures Concat(readers) == Window(Concat(parts), start, want)
    ensures remaining == want - |Concat(readers)| >= 0
  {
    readers, remaining := [], want;
    var offset := 0;
    for i := 0 to |parts|
      invariant offset == |Concat(parts[..i])|
      invariant Concat(readers) == Window(Concat(parts[..i]), start, want)
      invariant remaining == want - |Concat(readers)| >= 0
    {
      var part := parts[i];
      var partStart := offset;
      var partEnd := offset + |part|;
      ghost var before := Concat(parts[..i]);
      assert parts[..i + 1] == parts[..i] + [part];
      ConcatSnoc(parts[..i], part);
      offset := partEnd;
      if start >= partEnd || remaining <= 0 {
        WindowFull(before, part, start, want);
        continue;
      }
      WindowStep(before, part, start, want);
      var localStart := if start > partStart then start - partStart else 0;
      var localLength := Min(|part| - localStart, remaining);
      var section := part[localStart..localStart + localLength];
      ConcatSnoc(readers, section);
      readers := readers + [section];
      remaining := remaining - localLength;
    }
    assert parts[..|parts|] == parts;
  }

  /** openChunkReader: clamp the request, collect the sections, read them in a row. */
  method OpenChunkReader(parts: seq<Bytes>, total: int, start: int, length: int) returns (r: Result<Bytes>)
    requires IsInt64(total) && IsInt64(start) && IsInt64(length)
    ensures r == ReadParts(parts, total, start, length)
  {
    if start < 0 || start > total {
      return Err(OUT_OF_BOUND);
    }
    var want := length;
    if want < 0 || Wrap64(start + want) > total {
      want := total - start;
    }
    if want == 0 {
      return Ok("");
    }
    var readers, remaining := CollectSections(parts, start, want);
    WindowDone(Concat(parts), start, want);
    if remaining > 0 {
      return Err(MISSING);
    }
    return Ok(Concat(readers));
  }

  /** A request whose end does not wrap round is served as the clamped slice of the whole; it fails
      exactly when the clamped range is non-empty and ends beyond the chunks. */
  lemma RangeRead(parts: seq<Bytes>, total: int, start: int, length: int)
    requires 0 <= start <= total <= MAX_INT64 && IsInt64(length)
    requires length < 0 || start + length <= MAX_INT64
    ensures var end := if length < 0 then total else Min(start + length, total);
      var r := ReadParts(parts, total, start, length);
      && (r == Err(MISSING) <==> start < end && |Concat(parts)| < end)
      && (r != Err(MISSING) ==> r == Ok(if start == end then "" else Concat(parts)[start..end]))
  {
  }

  /** It is out of bounds exactly if it starts before or behind the object. */
  lemma OutOfBounds(parts: seq<Bytes>, total: int, start: int, length: int)
    ensures ReadParts(parts, total, start, length) == Err(OUT_OF_BOUND) <==> start < 0 || start > total
  {
  }

  /** A request whose end wraps round always fails: the chunks cannot reach that far. */
  lemma WrappedRangeFails(parts: seq<Bytes>, total: int, start: int, length: int)
    requires 0 <= start <= total <= MAX_INT64 && IsInt64(length) && start + length > MAX_INT64
    requires |Concat(parts)| <= MAX_INT64
    ensures ReadParts(parts, total, start, length) == Err(MISSING)
  {
  }

  /** With only the first chunks in place a read gives the same answer as with all of them, or fails
      for missing data; it never gives other bytes. */
  lemma PrefixRead(parts: seq<Bytes>, j: nat, total: int, start: int, length: int)
    requires j <= |parts|
    ensures var r := ReadParts(parts[..j], total, start, length);
      r == ReadParts(parts, total, start, length) || r == Err(MISSING)
  {
    ConcatAppend(parts[..j], parts[j..]);
    assert parts[..j] + parts[j..] == parts;
    var whole, front := Concat(parts), Concat(parts[..j]);
    var end := start + Clamp(total, start, length);
    if 0 <= start <= end <= |front| {
      assert whole[start..end] == front[start..end];
    }
  }
}
