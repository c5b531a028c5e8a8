/** How chunks are spread over the remotes. */
module Striping {
  import opened ChunkStates
  import opened ChunkView

  lemma DivMod(n: nat, w: nat)
    requires w > 0
    ensures n == n / w * w + n % w && 0 <= n / w && 0 <= n % w < w
  {
  }

  lemma {:induction false} MulAtLeast(k: nat, w: nat)
    requires k >= 1
    ensures k * w >= w
  {
    if k > 1 {
      MulAtLeast(k - 1, w);
      assert k * w == (k - 1) * w + w;
    }
  }

  lemma Spread(a: int, b: int, w: int)
    ensures b * w == a * w + (b - a) * w
  {
  }

  /** Multiples of `w` plus something smaller are told apart. */
  lemma DivUnique(w: nat, a: nat, x: nat, b: nat, y: nat)
    requires x < w && y < w && a * w + x == b * w + y
    ensures a == b && x == y
  {
    if a < b {
      Spread(a, b, w);
      MulAtLeast(b - a, w);
    } else if b < a {
      Spread(b, a, w);
      MulAtLeast(a - b, w);
    }
  }

  lemma ModOf(q: nat, w: nat, m: nat)
    requires m < w
    ensures (q * w + m) % w == m
  {
    DivMod(q * w + m, w);
    DivUnique(w, q, m, (q * w + m) / w, (q * w + m) % w);
  }

  /** Every remainder comes up once among `w` numbers in a row. */
  lemma NextWith(no: nat, w: nat, r: nat) returns (k: nat)
    requires r < w
    ensures no <= k < no + w && k % w == r
  {
    DivMod(no, w);
    var q := no / w;
    Spread(q, q + 1, w);
    k := if r >= no % w then q * w + r else (q + 1) * w + r;
    ModOf(if r >= no % w then q else q + 1, w, r);
  }

  lemma NoRepeat(no: nat, k: nat, w: nat)
    requires no < k < no + w
    ensures k % w != no % w
  {
    DivMod(no, w);
    DivMod(k, w);
    if k % w == no % w {
      var a, b := no / w, k / w;
      Spread(a, b, w);
      if b > a { MulAtLeast(b - a, w); } else { Spread(b, a, w); }
    }
  }

  /** The targets are all remotes, or all but the primary. */
  lemma TargetsAre(cfg: Config, remotes: nat, t: nat)
    requires remotes > 0 && t < remotes
    ensures t in TargetIndexes(cfg, remotes) <==> remotes == 1 || cfg.storeChunksInPrimary || t != 0
    ensures forall i, j :: 0 <= i < j < |TargetIndexes(cfg, remotes)| ==>
      TargetIndexes(cfg, remotes)[i] != TargetIndexes(cfg, remotes)[j]
  {
    var s := TargetIndexes(cfg, remotes);
    if remotes > 1 && (cfg.storeChunksInPrimary || t != 0) {
      assert s[if cfg.storeChunksInPrimary then t else t - 1] == t;
    }
  }

  /** Chunks go round in order, beginning with the primary or, if that is spared, the remote behind it. */
  lemma TargetIs(cfg: Config, remotes: nat, no: nat)
    requires remotes > 0
    ensures Target(cfg, remotes, no) ==
      if remotes == 1 then 0 else if cfg.storeChunksInPrimary then no % remotes else 1 + no % (remotes - 1)
  {
  }

  /** A run of as many chunks as there are targets uses every target once and no other remote. */
  lemma RunCoversTargets(cfg: Config, remotes: nat, no: nat, t: nat)
    requires remotes > 0 && t < remotes
    ensures var w := |TargetIndexes(cfg, remotes)|;
      && (remotes == 1 || cfg.storeChunksInPrimary || t != 0 <==> exists k: nat :: no <= k < no + w && Target(cfg, remotes, k) == t)
      && (forall k: nat :: no < k < no + w ==> Target(cfg, remotes, k) != Target(cfg, remotes, no))
  {
    var s := TargetIndexes(cfg, remotes);
    TargetsAre(cfg, remotes, t);
    if t in s {
      var r: nat :| r < |s| && s[r] == t;
      var k := NextWith(no, |s|, r);
      assert Target(cfg, remotes, k) == t;
    }
    forall k: nat | no < k < no + |s|
      ensures Target(cfg, remotes, k) != Target(cfg, remotes, no)
    {
      NoRepeat(no, k, |s|);
    }
  }
}
