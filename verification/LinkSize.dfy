/** Size aggregation: calSize gives every folder the sum of the files below it, in place. */
module LinkSize {
  import opened Prelude
  import opened LinkTree
  import opened LinkBuild

  /** The sizes of the files among the lines from `lo` to `hi`, added up without overflow. */
  function FileSum(items: seq<Item>, lo: nat, hi: nat): int
    requires lo <= hi <= |items|
    decreases hi - lo
  {
    if lo == hi then 0 else FileSum(items, lo, hi - 1) + if items[hi - 1].url != "" then items[hi - 1].size else 0
  }

  lemma {:induction false} FileSumSplit(items: seq<Item>, lo: nat, mid: nat, hi: nat)
    requires lo <= mid <= hi <= |items|
    ensures FileSum(items, lo, hi) == FileSum(items, lo, mid) + FileSum(items, mid, hi)
    decreases hi - mid
  {
    if mid < hi { FileSumSplit(items, lo, mid, hi - 1); }
  }

  /** What calSize makes of line `k`: a file keeps its size, a folder gets the 64-bit sum of the files
      below it. */
  function TotalOf(items: seq<Item>, k: nat): int
    requires k < |items|
  {
    if items[k].url != "" then items[k].size else Wrap64(FileSum(items, k + 1, Span(items, k)))
  }

  function Resized(items: seq<Item>, lo: nat, hi: nat): (r: seq<Item>)
    requires lo <= hi <= |items|
    ensures |r| == |items|
  {
    seq(|items|, k requires 0 <= k < |items| => if lo <= k < hi then items[k].(size := TotalOf(items, k)) else items[k])
  }

  /** Two lists of lines that differ in the sizes of folders only. */
  predicate SameFiles(a: seq<Item>, b: seq<Item>) {
    && |a| == |b|
    && forall k :: 0 <= k < |a| ==> a[k].(size := 0) == b[k].(size := 0) && (a[k].url != "" ==> a[k] == b[k])
  }

  lemma ResizedSame(items: seq<Item>, lo: nat, hi: nat)
    requires lo <= hi <= |items|
    ensures SameFiles(items, Resized(items, lo, hi))
  {
  }

  lemma {:induction false} SameClose(a: seq<Item>, b: seq<Item>, level: int, k: nat)
    requires SameFiles(a, b) && k <= |a|
    ensures Close(a, level, k) == Close(b, level, k)
    decreases |a| - k
  {
    if k < |a| {
      assert a[k].level == a[k].(size := 0).level == b[k].(size := 0).level == b[k].level;
      if a[k].level > level { SameClose(a, b, level, k + 1); }
    }
  }

  lemma SameSpan(a: seq<Item>, b: seq<Item>, k: nat)
    requires SameFiles(a, b) && k < |a|
    ensures Span(a, k) == Span(b, k)
  {
    assert a[k].(size := 0) == b[k].(size := 0);
    assert a[k].folder == a[k].(size := 0).folder == b[k].folder;
    SameClose(a, b, a[k].level, k + 1);
  }

  lemma {:induction false} SameSum(a: seq<Item>, b: seq<Item>, lo: nat, hi: nat)
    requires SameFiles(a, b) && lo <= hi <= |a|
    ensures FileSum(a, lo, hi) == FileSum(b, lo, hi)
    decreases hi - lo
  {
    if lo < hi {
      assert a[hi - 1].url == a[hi - 1].(size := 0).url == b[hi - 1].(size := 0).url;
      SameSum(a, b, lo, hi - 1);
    }
  }

  /** Totals depend on the files alone. */
  lemma SameTotal(a: seq<Item>, b: seq<Item>, k: nat)
    requires SameFiles(a, b) && k < |a|
    ensures TotalOf(a, k) == TotalOf(b, k)
  {
    assert a[k].url == a[k].(size := 0).url == b[k].(size := 0).url;
    SameSpan(a, b, k);
    SameSum(a, b, k + 1, Span(a, k));
  }

  /** Doing it twice changes nothing more. */
  lemma ResizeIdempotent(items: seq<Item>, lo: nat, hi: nat)
    requires lo <= hi <= |items|
    ensures Resized(Resized(items, lo, hi), lo, hi) == Resized(items, lo, hi)
  {
    ResizedSame(items, lo, hi);
    forall k: nat | lo <= k < hi
      ensures TotalOf(Resized(items, lo, hi), k) == TotalOf(items, k)
    {
      SameTotal(items, Resized(items, lo, hi), k);
    }
  }

  lemma ResizeSteps(items: seq<Item>, lo: nat, mid: nat, hi: nat)
    requires lo <= mid <= hi <= |items|
    ensures Resized(Resized(items, lo, mid), mid, hi) == Resized(items, lo, hi)
  {
    ResizedSame(items, lo, mid);
    forall k: nat | k < |items|
      ensures TotalOf(Resized(items, lo, mid), k) == TotalOf(items, k)
    {
      SameTotal(items, Resized(items, lo, mid), k);
    }
  }

  /** A subtree's total is the 64-bit sum of all its files. */
  lemma TotalIsSum(items: seq<Item>, k: nat)
    requires Kinds(items) && k < |items| && (items[k].url != "" ==> IsInt64(items[k].size))
    ensures TotalOf(items, k) == Wrap64(FileSum(items, k, Span(items, k)))
  {
    assert IsKind(items[k]);
    FileSumSplit(items, k, k + 1, Span(items, k));
    assert FileSum(items, k, k + 1) == FileSum(items, k, k) + if items[k].url != "" then items[k].size else 0;
  }

  const MODULUS := 0x1_0000_0000_0000_0000

  lemma WrapShift(n: int, q: int)
    ensures Wrap64(n + MODULUS * q) == Wrap64(n)
  {
  }

  /** Overflow in the middle of a sum does not matter. */
  lemma WrapAdd(a: int, b: int)
    ensures Wrap64(Wrap64(a) + Wrap64(b)) == Wrap64(a + b)
    ensures Wrap64(Wrap64(a)) == Wrap64(a)
  {
    var p, q := (a - MIN_INT64) / MODULUS, (b - MIN_INT64) / MODULUS;
    assert Wrap64(a) == a - MODULUS * p && Wrap64(b) == b - MODULUS * q;
    WrapShift(a + b, -p - q);
  }

  // ---- in place ----

  lemma {:induction false} SameKids(a: seq<Item>, b: seq<Item>, i: nat, k: nat)
    requires SameFiles(a, b) && i < |a| && i < k
    ensures Kids(a, i, k) == Kids(b, i, k)
    decreases |a| - k
  {
    SameSpan(a, b, i);
    if k < Span(a, i) {
      SameSpan(a, b, k);
      SameKids(a, b, i, Span(a, k));
    }
  }

  /** Setting sizes leaves the links as they are. */
  lemma SameLinks(nodes: seq<Node>, a: seq<Item>, b: seq<Item>, i: nat)
    requires SameFiles(a, b) && i < |a| == |nodes|
    ensures NodesAt(nodes, ChildList(a, i, |a|)) == NodesAt(nodes, ChildList(b, i, |b|))
  {
    assert |a| == |b|;
    hide NodesAt, Kids, ChildList, SameFiles;
    ChildListIsKids(a, i);
    ChildListIsKids(b, i);
    SameKids(a, b, i, i + 1);
  }

  lemma ShapeChildren(nodes: seq<Node>, items: seq<Item>, i: nat)
    requires Shape(nodes, items) && i < |items|
    ensures |nodes| == |items| && nodes[i] in nodes && nodes[i].item == items[i]
    ensures ChildrenAre(nodes, items, i, nodes[i].children)
  {
    ChildListIsKids(items, i);
  }

  /** Where the walk over the children of `i` stands: children before `c` done, `pos` is the next. */
  ghost predicate At(items: seq<Item>, i: nat, kids: seq<nat>, c: nat, pos: nat)
    requires i < |items|
  {
    i < pos <= Span(items, i) && c <= |kids| && kids[c..] == Kids(items, i, pos)
  }

  lemma Walk(items: seq<Item>, i: nat, kids: seq<nat>, c: nat, pos: nat)
    requires i < |items| && At(items, i, kids, c, pos) && (pos < Span(items, i) ==> IsParent(items, pos, i))
    ensures c == |kids| ==> pos == Span(items, i)
    ensures c < |kids| ==>
      && kids[c] == pos < Span(items, i) && At(items, i, kids, c + 1, Span(items, pos))
      && (Span(items, pos) < Span(items, i) ==> IsParent(items, Span(items, pos), i))
  {
    if pos < Span(items, i) {
      NextKid(items, i, pos);
      assert kids[c..][0] == kids[c] && kids[c..][1..] == kids[c + 1..];
    }
  }

  predicate FilesFit(items: seq<Item>) {
    forall k :: 0 <= k < |items| && items[k].url != "" ==> IsInt64(items[k].size)
  }

  /** The next child has been resized as well. */
  lemma ChildDone(items: seq<Item>, i: nat, pos: nat, total: int)
    requires Kinds(items) && i < pos < |items| && total == Wrap64(FileSum(items, i + 1, pos))
    requires FilesFit(items)
    ensures var now := Resized(items, i + 1, pos);
      && Span(now, pos) == Span(items, pos)
      && Resized(now, pos, Span(now, pos)) == Resized(items, i + 1, Span(items, pos))
      && Wrap64(total + TotalOf(now, pos)) == Wrap64(FileSum(items, i + 1, Span(items, pos)))
      && SameFiles(items, now)
  {
    hide Resized, Span, FileSum, TotalOf, SameFiles, Wrap64, Kinds;
    var now := Resized(items, i + 1, pos);
    var e := Span(items, pos);
    ResizedSame(items, i + 1, pos);
    SameSpan(items, now, pos);
    ResizeSteps(items, i + 1, pos, e);
    SameTotal(items, now, pos);
    TotalIsSum(items, pos);
    FileSumSplit(items, i + 1, pos, e);
    WrapAdd(FileSum(items, i + 1, pos), FileSum(items, pos, e));
  }

  /** Writing one folder's size. */
  method SetSize(node: Node, size: int, ghost nodes: seq<Node>, ghost items: seq<Item>, ghost i: nat)
    requires Shape(nodes, items) && i < |items| && node == nodes[i] && items[i].url == ""
    modifies node
    ensures Shape(nodes, items[i := items[i].(size := size)])
  {
    ghost var after := items[i := items[i].(size := size)];
    DistinctFrom(nodes, i);
    assert SameFiles(items, after);
    hide Distinct, ChildList, NodesAt, SameFiles;
    node.item := node.item.(size := size);
    forall k: nat | k < |nodes|
      ensures nodes[k].children == NodesAt(nodes, ChildList(after, k, |after|))
    {
      SameLinks(nodes, items, after, k);
    }
  }

  lemma FolderDone(items: seq<Item>, i: nat, e: nat, size: int)
    requires i < e <= |items| && items[i].url == "" && size == TotalOf(items, i)
    ensures Resized(items, i + 1, e)[i] == items[i]
    ensures Resized(items, i + 1, e)[i := items[i].(size := size)] == Resized(items, i, e)
  {
  }

  lemma FileDone(items: seq<Item>, i: nat)
    requires Kinds(items) && i < |items| && items[i].url != ""
    ensures SizedBelow(items, i) == items && TotalOf(items, i) == items[i].size
  {
    assert IsKind(items[i]);
  }

  /** The walk over the children of `i` has reached `pos`: everything before it is resized and added up. */
  ghost predicate Summed(items: seq<Item>, i: nat, c: nat, pos: nat, now: seq<Item>, size: int)
    requires i < |items|
  {
    && i < pos <= Span(items, i) && At(items, i, Kids(items, i, i + 1), c, pos)
    && (pos < Span(items, i) ==> IsParent(items, pos, i))
    && now == Resized(items, i + 1, pos) && size == Wrap64(FileSum(items, i + 1, pos))
  }

  /** The lines after calSize on line `i`: totals for its whole span. */
  function SizedBelow(items: seq<Item>, i: nat): seq<Item>
    requires i < |items|
  {
    Resized(items, i, Span(items, i))
  }

  function EndOf(items: seq<Item>, i: nat): nat
    requires i < |items|
  {
    Span(items, i)
  }

  ghost predicate ChildrenAre(nodes: seq<Node>, items: seq<Item>, i: nat, children: seq<Node>)
    requires i < |items|
  {
    var kids := Kids(items, i, i + 1);
    |kids| == |children| && forall c: nat :: c < |kids| ==> kids[c] < |nodes| && children[c] == nodes[kids[c]]
  }

  /** The next child of the walk. */
  lemma SummedChild(nodes: seq<Node>, items: seq<Item>, i: nat, children: seq<Node>, c: nat, pos: nat, now: seq<Item>, size: int)
    requires Kinds(items) && FilesFit(items) && i < |items| == |nodes| && Summed(items, i, c, pos, now, size)
    requires ChildrenAre(nodes, items, i, children) && c < |children|
    ensures c < |Kids(items, i, i + 1)|
    ensures i < pos < |items| == |now| && children[c] == nodes[pos] && Kinds(now) && FilesFit(now)
  {
    hide At, Resized, Span, FileSum, IsParent, Kinds, FilesFit, TotalOf;
    Walk(items, i, Kids(items, i, i + 1), c, pos);
    ChildDone(items, i, pos, size);
    StillFits(items, now);
  }

  /** The next child's total is added. */
  lemma SummedNext(items: seq<Item>, i: nat, c: nat, pos: nat, now: seq<Item>, size: int, total: int)
    requires Kinds(items) && FilesFit(items) && i < pos < |items| == |now| && Summed(items, i, c, pos, now, size)
    requires c < |Kids(items, i, i + 1)| && total == TotalOf(now, pos)
    ensures Summed(items, i, c + 1, EndOf(items, pos), SizedBelow(now, pos), Wrap64(size + total))
  {
    hide At, Resized, Span, FileSum, IsParent, Kinds, FilesFit, TotalOf;
    Walk(items, i, Kids(items, i, i + 1), c, pos);
    ChildDone(items, i, pos, size);
  }

  lemma SummedAll(nodes: seq<Node>, items: seq<Item>, i: nat, children: seq<Node>, pos: nat, now: seq<Item>, size: int)
    requires i < |items| && items[i].url == "" && Summed(items, i, |children|, pos, now, size)
    requires ChildrenAre(nodes, items, i, children)
    ensures size == TotalOf(items, i) && |now| == |items| && now[i] == items[i]
    ensures now[i := items[i].(size := size)] == SizedBelow(items, i)
  {
    hide At, Resized, Span, FileSum, IsParent;
    Walk(items, i, Kids(items, i, i + 1), |Kids(items, i, i + 1)|, pos);
    FolderTotal(items, i);
    FolderDone(items, i, pos, size);
  }

  /** calSize: every folder at and below the node gets the sum of the files below it, everything else
      stays. */
  method CalSize(node: Node, ghost nodes: seq<Node>, ghost items: seq<Item>, ghost i: nat) returns (size: int)
    requires Kinds(items) && FilesFit(items) && Shape(nodes, items) && i < |items| && node == nodes[i]
    modifies nodes
    ensures Shape(nodes, SizedBelow(items, i)) && size == TotalOf(items, i)
    decreases |items| - i
  {
    ShapeChildren(nodes, items, i);
    hide Shape, Kinds, FilesFit, TotalOf, Summed, ChildrenAre, SizedBelow, EndOf;
    if node.item.url != "" {
      FileDone(items, i);
      return node.item.size;
    }
    size := 0;
    ghost var pos: nat, now := i + 1, items;
    WalkBegins(items, i);
    var children := node.children;
    for c := 0 to |children|
      invariant Summed(items, i, c, pos, now, size) && Shape(nodes, now)
    {
      SummedChild(nodes, items, i, children, c, pos, now, size);
      var s := CalSize(children[c], nodes, now, pos);
      SummedNext(items, i, c, pos, now, size, s);
      size := Wrap64(size + s);
      now := SizedBelow(now, pos);
      pos := EndOf(items, pos);
    }
    SummedAll(nodes, items, i, children, pos, now, size);
    SetSize(node, size, nodes, now, i);
  }

  lemma FolderTotal(items: seq<Item>, i: nat)
    requires i < |items| && items[i].url == ""
    ensures TotalOf(items, i) == Wrap64(FileSum(items, i + 1, Span(items, i)))
  {
  }

  lemma WalkBegins(items: seq<Item>, i: nat)
    requires i < |items|
    ensures Summed(items, i, 0, i + 1, items, 0)
  {
    if i + 1 < Span(items, i) { FirstKid(items, i); }
  }

  lemma StillFits(a: seq<Item>, b: seq<Item>)
    requires SameFiles(a, b) && Kinds(a) && FilesFit(a)
    ensures Kinds(b) && FilesFit(b)
  {
    forall k | 0 <= k < |b|
      ensures IsKind(b[k])
    {
      assert IsKind(a[k]) && a[k].(size := 0) == b[k].(size := 0);
      assert b[k].folder == b[k].(size := 0).folder && b[k].url == b[k].(size := 0).url;
    }
  }
}
