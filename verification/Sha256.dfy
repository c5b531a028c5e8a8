/** The SHA-256 iteration of FIPS 180-4 over an arbitrary compression function, and the streaming
    hasher that computes it block by block and can export its state. */
module Sha256 {
  import opened Prelude

  type word = x: int | 0 <= x < 0x1_0000_0000

  /** Eight registers. */
  type Registers = r: seq<word> | |r| == 8 witness [0, 0, 0, 0, 0, 0, 0, 0]

  /** The round function on one 64-byte block, which the theorems leave open. */
  type Compression = (Registers, seq<byte>) -> Registers

  const BLOCK := 64

  /** Section 5.3.3 of FIPS 180-4. */
  const INITIAL: Registers := [0x6a09e667, 0xbb67ae85, 0x3c6ef372, 0xa54ff53a, 0x510e527f, 0x9b05688c, 0x1f83d9ab, 0x5be0cd19]

  predicate WholeBlocks(data: seq<byte>) {
    |data| % BLOCK == 0
  }

  /** The registers after whole blocks (section 6.2). */
  function Fold(f: Compression, r: Registers, data: seq<byte>): Registers
    requires WholeBlocks(data)
    decreases |data|
  {
    if data == [] then r else Fold(f, f(r, data[..BLOCK]), data[BLOCK..])
  }

  lemma {:induction false} FoldAppend(f: Compression, r: Registers, a: seq<byte>, b: seq<byte>)
    requires WholeBlocks(a) && WholeBlocks(b)
    ensures WholeBlocks(a + b) && Fold(f, r, a + b) == Fold(f, Fold(f, r, a), b)
    decreases |a|
  {
    if a == [] {
      assert a + b == b;
    } else {
      var d := a + b;
      assert d[..BLOCK] == a[..BLOCK] && d[BLOCK..] == a[BLOCK..] + b;
      FoldAppend(f, f(r, a[..BLOCK]), a[BLOCK..], b);
    }
  }

  // ---- big-endian numbers ----

  function PutWord(w: word): (s: seq<byte>)
    ensures |s| == 4
  {
    [w / 0x100_0000, w / 0x1_0000 % 0x100, w / 0x100 % 0x100, w % 0x100]
  }

  function GetWord(s: seq<byte>): word
    requires |s| >= 4
  {
    var a: int, b: int, c: int, d: int := s[0], s[1], s[2], s[3];
    a * 0x100_0000 + b * 0x1_0000 + c * 0x100 + d
  }

  lemma WordRoundTrip(w: word)
    ensures GetWord(PutWord(w)) == w
  {
    var high, low := w / 0x1_0000, w % 0x1_0000;
    assert w / 0x100_0000 == high / 0x100;
    assert w / 0x100 % 0x100 == low / 0x100 && w % 0x100 == low % 0x100;
  }

  /** binary.BigEndian.PutUint64: the value modulo 2^64. */
  function PutLong(n: nat): (s: seq<byte>)
    ensures |s| == 8
  {
    PutWord(n / 0x1_0000_0000 % 0x1_0000_0000) + PutWord(n % 0x1_0000_0000)
  }

  function GetLong(s: seq<byte>): nat
    requires |s| >= 8
  {
    GetWord(s[..4]) * 0x1_0000_0000 + GetWord(s[4..8])
  }

  lemma LongRoundTrip(n: nat)
    requires n <= MAX_INT64
    ensures GetLong(PutLong(n)) == n
  {
    var s := PutLong(n);
    assert s[..4] == PutWord(n / 0x1_0000_0000) && s[4..8] == PutWord(n % 0x1_0000_0000);
    WordRoundTrip(n / 0x1_0000_0000);
    WordRoundTrip(n % 0x1_0000_0000);
  }

  function PutWords(ws: seq<word>): (s: seq<byte>)
    ensures |s| == 4 * |ws|
  {
    if ws == [] then [] else PutWords(ws[..|ws| - 1]) + PutWord(ws[|ws| - 1])
  }

  lemma {:induction false} WordAt(ws: seq<word>, i: nat)
    requires i < |ws|
    ensures GetWord(PutWords(ws)[4 * i..]) == ws[i]
  {
    var last := |ws| - 1;
    var head := PutWords(ws[..last]);
    if i == last {
      assert PutWords(ws)[4 * i..] == PutWord(ws[last]);
      WordRoundTrip(ws[last]);
    } else {
      WordAt(ws[..last], i);
      assert forall k :: 0 <= k < 4 ==> PutWords(ws)[4 * i..][k] == head[4 * i..][k];
    }
  }

  // ---- the digest ----

  /** The number of zero bytes between the 0x80 and the length. */
  function Zeros(n: nat): (z: nat)
    ensures (n + 9 + z) % BLOCK == 0 && z < BLOCK
  {
    var r := n % BLOCK;
    var z: nat := if r < 56 then 55 - r else 119 - r;
    assert n + 9 + z == (if r < 56 then n / BLOCK + 1 else n / BLOCK + 2) * BLOCK;
    z
  }

  /** Padding behind a message of `n` bytes: 0x80, zeros, the bit length (section 5.1.1). */
  function Padding(n: nat): (p: seq<byte>)
    ensures (n + |p|) % BLOCK == 0
    ensures |p| == 9 + Zeros(n)
  {
    [0x80] + Repeat(0, Zeros(n)) + PutLong(8 * n)
  }

  /** The padding of section 5.1.1: a one bit, zeros up to the last eight bytes of a block, fewer than a block of
      them, and there the number of bits. */
  lemma PaddingIs(n: nat)
    requires 8 * n <= MAX_INT64
    ensures var p := Padding(n);
      && (n + |p|) % BLOCK == 0 && 9 <= |p| < 9 + BLOCK
      && p[0] == 0x80 && (forall i :: 0 < i < |p| - 8 ==> p[i] == 0)
      && GetLong(p[|p| - 8..]) == 8 * n
  {
    var p := Padding(n);
    assert p[|p| - 8..] == PutLong(8 * n);
    LongRoundTrip(8 * n);
  }

  /** Sections 5.1 and 6.2: pad, fold, write out the registers. */
  function Digest(f: Compression, data: seq<byte>): (d: seq<byte>)
    ensures |d| == 32
  {
    PutWords(Fold(f, INITIAL, data + Padding(|data|)))
  }

  lemma AlignedRest(a: nat, b: nat)
    requires a % BLOCK == 0 && (a + b) % BLOCK == 0
    ensures b % BLOCK == 0
  {
  }

  /** Finish from registers that already cover `before` bytes. */
  function Finish(f: Compression, r: Registers, before: nat, rest: seq<byte>): seq<byte>
    requires before % BLOCK == 0
  {
    var p := Padding(before + |rest|);
    AlignedRest(before, |rest| + |p|);
    PutWords(Fold(f, r, rest + p))
  }

  /** Finishing from a midstate gives the digest of the whole message. */
  lemma FinishIsDigest(f: Compression, data: seq<byte>, at: nat)
    requires at <= |data| && at % BLOCK == 0
    ensures Finish(f, Fold(f, INITIAL, data[..at]), at, data[at..]) == Digest(f, data)
  {
    var p := Padding(|data|);
    var tail := data[at..] + p;
    hide Padding, PutWords;
    AlignedRest(at, |data| - at + |p|);
    FoldAppend(f, INITIAL, data[..at], tail);
    assert data + Padding(|data|) == data[..at] + tail;
  }

  // ---- the streaming hasher ----

  const MAGIC: seq<byte> := [0x73, 0x68, 0x61, 0x03]

  function Whole(n: nat): (k: nat)
    ensures k <= n < k + BLOCK && k % BLOCK == 0
  {
    n / BLOCK * BLOCK
  }

  lemma WholeUnique(n: nat, k: nat)
    requires k <= n < k + BLOCK && k % BLOCK == 0
    ensures Whole(n) == k
  {
  }

  class Hasher {
    const f: Compression
    /** The registers, the bytes of the unfinished block, and the number of bytes written. */
    var h: Registers
    var x: seq<byte>
    var len: nat
    ghost var written: seq<byte>

    ghost predicate Valid()
      reads this
    {
      && len == |written|
      && h == Fold(f, INITIAL, written[..Whole(len)])
      && x == written[Whole(len)..]
    }

    constructor (f: Compression)
      ensures Valid() && written == [] && this.f == f
    {
      this.f := f;
      h, x, len, written := INITIAL, [], 0, [];
    }

    /** Fill the pending block, then take whole blocks from `p`, then keep the rest. */
    method Write(p: seq<byte>)
      requires Valid()
      modifies this
      ensures Valid() && written == old(written) + p
    {
      var data := x + p;
      var n := Whole(|data|);
      ghost var all := written + p;
      Absorb(written, p);
      h := Blocks(h, data[..n]);
      x := data[n..];
      len := len + |p|;
      written := all;
    }

    /** Where the block boundary moves when `p` is written. */
    lemma Absorb(w: seq<byte>, p: seq<byte>)
      ensures var n := Whole(|w[Whole(|w|)..] + p|);
        && Whole(|w + p|) == Whole(|w|) + n
        && Fold(f, INITIAL, (w + p)[..Whole(|w + p|)]) == Fold(f, Fold(f, INITIAL, w[..Whole(|w|)]), (w[Whole(|w|)..] + p)[..n])
        && (w + p)[Whole(|w + p|)..] == (w[Whole(|w|)..] + p)[n..]
    {
      var k := Whole(|w|);
      var data := w[k..] + p;
      var n := Whole(|data|);
      assert w + p == w[..k] + data;
      WholeUnique(|w + p|, k + n);
      assert (w + p)[..k + n] == w[..k] + data[..n];
      FoldAppend(f, INITIAL, w[..k], data[..n]);
    }

    /** The block loop. */
    method Blocks(start: Registers, data: seq<byte>) returns (r: Registers)
      requires WholeBlocks(data)
      ensures r == Fold(f, start, data)
    {
      r := start;
      var i := 0;
      assert data[0..] == data;
      while i < |data|
        invariant 0 <= i <= |data| && i % BLOCK == 0
        invariant Fold(f, r, data[i..]) == Fold(f, start, data)
      {
        assert data[i..][..BLOCK] == data[i..i + BLOCK] && data[i..][BLOCK..] == data[i + BLOCK..];
        r := f(r, data[i..i + BLOCK]);
        i := i + BLOCK;
      }
      assert data[i..] == [];
    }

    /** MarshalBinary: magic, registers, the pending block filled with zeros, the length. */
    function State(): (s: seq<byte>)
      requires Valid()
      reads this
      ensures |s| == 4 + 32 + BLOCK + 8
    {
      MAGIC + PutWords(h) + (x + Repeat(0, BLOCK - |x|)) + PutLong(len)
    }

    /** Sum: pad and fold a copy of the state. */
    method Sum() returns (d: seq<byte>)
      requires Valid()
      ensures d == Digest(f, written)
    {
      var p := Padding(len);
      hide Padding, PutWords;
      AlignedRest(Whole(len), |x| + |p|);
      FinishIsDigest(f, written, Whole(len));
      var r := Blocks(h, x + p);
      d := PutWords(r);
    }
  }

  /** sha256Midstate: the registers at offset 4 and the length in the last eight bytes. */
  method Midstate(h: Hasher) returns (regs: Registers, hashed: int)
    requires h.Valid() && |h.written| <= MAX_INT64
    ensures regs == Fold(h.f, INITIAL, h.written[..Whole(|h.written|)])
    ensures hashed == |h.written|
  {
    var state := h.State();
    var rs: seq<word> := [];
    for i := 0 to 8
      invariant rs == h.h[..i]
    {
      RegisterAt(h, i);
      rs := rs + [GetWord(state[4 + i * 4..])];
    }
    regs := rs;
    assert state[|state| - 8..] == PutLong(h.len);
    LongRoundTrip(h.len);
    hashed := GetLong(state[|state| - 8..]);
  }

  lemma RegisterAt(h: Hasher, i: nat)
    requires h.Valid() && i < 8
    ensures GetWord(h.State()[4 + i * 4..]) == h.h[i]
  {
    WordAt(h.h, i);
    assert forall k :: 0 <= k < 4 ==> h.State()[4 + i * 4..][k] == PutWords(h.h)[4 * i..][k];
  }
}
