/**
 Trees from indented lines, by index: line 0 is the root, every other line has a level and may be a
 folder.  The parent of a line is the last folder before it that no later line has closed.
 */
module LinkTree {
  /** One node as its line states it. */
  datatype Item = Item(level: int, folder: bool, name: string, size: int, modified: int, url: string)

  const ROOT := Item(-1, true, "root", 0, 0, "")

  /** isFile tests the url; folders have none. */
  predicate IsKind(item: Item) {
    item.folder <==> item.url == ""
  }

  predicate Kinds(items: seq<Item>) {
    forall k :: 0 <= k < |items| ==> IsKind(items[k])
  }

  /** Lines with the root in front of them. */
  predicate Rooted(items: seq<Item>) {
    && |items| > 0 && items[0].folder
    && forall k :: 0 < k < |items| ==> items[k].level > items[0].level
  }

  /** Folder `j` is still open at line `i`: no line behind `j` up to `i` has come back to its level. */
  predicate Open(items: seq<Item>, i: nat, j: nat)
    requires i < |items|
  {
    j < i && items[j].folder && forall k :: j < k <= i ==> items[k].level > items[j].level
  }

  /** The parent of line `i`, by definition. */
  predicate IsParent(items: seq<Item>, i: nat, j: nat)
    requires i < |items|
  {
    && j < i && Open(items, i, j)
    && forall k :: j < k < i ==> !Open(items, i, k)
  }

  lemma ParentUnique(items: seq<Item>, i: nat, j: nat, k: nat)
    requires i < |items| && IsParent(items, i, j) && IsParent(items, i, k)
    ensures j == k
  {
  }

  /** Where the lines below `i` end: the next line at its level or above; a file has none below it. */
  function Span(items: seq<Item>, i: nat): (e: nat)
    requires i < |items|
    ensures i < e <= |items|
    ensures !items[i].folder ==> e == i + 1
    ensures items[i].folder ==> forall k :: i < k < e ==> items[k].level > items[i].level
    ensures items[i].folder && e < |items| ==> items[e].level <= items[i].level
  {
    if items[i].folder then Close(items, items[i].level, i + 1) else i + 1
  }

  function Close(items: seq<Item>, level: int, k: nat): (e: nat)
    requires k <= |items|
    ensures k <= e <= |items|
    ensures forall j :: k <= j < e ==> items[j].level > level
    ensures e < |items| ==> items[e].level <= level
    decreases |items| - k
  {
    if k == |items| || items[k].level <= level then k else Close(items, level, k + 1)
  }

  /** The children of `i` from line `k` on, skipping from one child to the line behind its span. */
  function Kids(items: seq<Item>, i: nat, k: nat): (s: seq<nat>)
    requires i < |items| && i < k
    ensures forall c :: c in s ==> k <= c < Span(items, i)
    decreases |items| - k
  {
    if k >= Span(items, i) then [] else [k] + Kids(items, i, Span(items, k))
  }

  /** Behind a child's span comes the next child. */
  lemma NextKid(items: seq<Item>, i: nat, k: nat)
    requires i < |items| && i < k < Span(items, i) && IsParent(items, k, i)
    ensures Span(items, k) <= Span(items, i)
    ensures Span(items, k) < Span(items, i) ==> IsParent(items, Span(items, k), i)
    ensures forall m :: k < m < Span(items, k) ==> !IsParent(items, m, i)
  {
    var e := Span(items, k);
    assert items[k].level > items[i].level;
    forall m | k < m < e
      ensures !IsParent(items, m, i)
    {
      assert Open(items, m, k);
    }
    if e < Span(items, i) {
      assert Open(items, e, i);
      forall j | i < j < e
        ensures !Open(items, e, j)
      {
        if j < k {
          assert !Open(items, k, j);
        } else if j > k {
          assert items[j].level > items[k].level >= items[e].level;
        }
      }
    }
  }

  /** Skipping from span to span finds exactly the lines whose parent is `i`, in order. */
  lemma {:induction false} KidsAreChildren(items: seq<Item>, i: nat, k: nat)
    requires i < |items| && i < k
    requires k < Span(items, i) ==> IsParent(items, k, i)
    ensures forall m :: k <= m < |items| ==> (m in Kids(items, i, k) <==> IsParent(items, m, i))
    ensures forall a, b :: 0 <= a < b < |Kids(items, i, k)| ==> Kids(items, i, k)[a] < Kids(items, i, k)[b]
    decreases |items| - k
  {
    if k < Span(items, i) {
      NextKid(items, i, k);
      var e := Span(items, k);
      hide IsParent, Span;
      KidsAreChildren(items, i, e);
      var rest := Kids(items, i, e);
      assert Kids(items, i, k) == [k] + rest;
      hide Kids;
      forall m | k <= m < |items|
        ensures m in [k] + rest <==> IsParent(items, m, i)
      {
        assert m in [k] + rest <==> m == k || m in rest;
      }
      assert forall a :: 0 <= a < |rest| ==> rest[a] in rest;
    } else {
      NoKidsBehind(items, i, k);
    }
  }

  lemma NoKidsBehind(items: seq<Item>, i: nat, k: nat)
    requires i < |items| && i < k && k >= Span(items, i)
    ensures forall m :: k <= m < |items| ==> !IsParent(items, m, i)
  {
    forall m | k <= m < |items|
      ensures !IsParent(items, m, i)
    {
      assert items[i].folder ==> items[Span(items, i)].level <= items[i].level;
    }
  }

  /** The first line below a folder is its child. */
  lemma FirstKid(items: seq<Item>, i: nat)
    requires i < |items| && i + 1 < Span(items, i)
    ensures IsParent(items, i + 1, i)
  {
  }

  // ---- trees ----

  datatype Tree = Tree(item: Item, kids: seq<Tree>)

  function TreeOf(items: seq<Item>, i: nat): Tree
    requires i < |items|
    decreases |items| - i, 1
  {
    Tree(items[i], TreesFrom(items, i, i + 1))
  }

  function TreesFrom(items: seq<Item>, i: nat, k: nat): (ts: seq<Tree>)
    requires i < |items| && i < k
    ensures |ts| == |Kids(items, i, k)|
    decreases |items| - k, 2
  {
    if k >= Span(items, i) then [] else [TreeOf(items, k)] + TreesFrom(items, i, Span(items, k))
  }

  /** The subtrees are the trees of the children. */
  lemma {:induction false} SubtreeAt(items: seq<Item>, i: nat, k: nat, j: nat)
    requires i < |items| && i < k && j < |Kids(items, i, k)|
    ensures var c := Kids(items, i, k)[j];
      c < |items| && TreesFrom(items, i, k)[j] == TreeOf(items, c)
    decreases |items| - k
  {
    hide TreeOf;
    assert Kids(items, i, k)[j] in Kids(items, i, k);
    if j > 0 { SubtreeAt(items, i, Span(items, k), j - 1); }
  }

  function Preorder(t: Tree): seq<Item>
    decreases t
  {
    [t.item] + PreorderAll(t.kids)
  }

  function PreorderAll(ts: seq<Tree>): seq<Item>
    decreases ts
  {
    if ts == [] then [] else Preorder(ts[0]) + PreorderAll(ts[1..])
  }

  /** A tree's preorder is the stretch of lines from its root to the end of its span. */
  lemma {:induction false} PreorderIsSpan(items: seq<Item>, i: nat)
    requires i < |items|
    ensures Preorder(TreeOf(items, i)) == items[i..Span(items, i)]
    decreases |items| - i, 1
  {
    if i + 1 < Span(items, i) { FirstKid(items, i); }
    PreorderIsRange(items, i, i + 1);
    assert items[i..Span(items, i)] == [items[i]] + items[i + 1..Span(items, i)];
  }

  lemma {:induction false} PreorderIsRange(items: seq<Item>, i: nat, k: nat)
    requires i < |items| && i < k <= Span(items, i)
    requires k < Span(items, i) ==> IsParent(items, k, i)
    ensures PreorderAll(TreesFrom(items, i, k)) == items[k..Span(items, i)]
    decreases |items| - k, 2
  {
    hide Span, TreesFrom, TreeOf, Kids, Preorder, IsParent;
    if k >= Span(items, i) {
      TreesFromEnd(items, i, k);
    } else {
      NextKid(items, i, k);
      PreorderIsSpan(items, k);
      PreorderIsRange(items, i, Span(items, k));
      TreesFromStep(items, i, k);
      var ts := TreesFrom(items, i, k);
      assert ts[0] == TreeOf(items, k) && ts[1..] == TreesFrom(items, i, Span(items, k));
      assert items[k..Span(items, i)] == items[k..Span(items, k)] + items[Span(items, k)..Span(items, i)];
    }
  }

  /** The preorder of the whole tree is the list of lines. */
  lemma PreorderIsLines(items: seq<Item>)
    requires Rooted(items)
    ensures Preorder(TreeOf(items, 0)) == items
  {
    PreorderIsSpan(items, 0);
    assert Span(items, 0) == |items|;
    assert items[0..|items|] == items;
  }

  // ---- a tree laid out as lines and read again ----

  /** Levels count the depth, and files have nothing below them. */
  predicate Levelled(t: Tree, level: int)
    decreases t
  {
    && t.item.level == level && (!t.item.folder ==> t.kids == [])
    && forall i :: 0 <= i < |t.kids| ==> Levelled(t.kids[i], level + 1)
  }

  predicate AllLevelled(ts: seq<Tree>, level: int) {
    forall i :: 0 <= i < |ts| ==> Levelled(ts[i], level)
  }

  lemma {:induction false} PreorderLevels(t: Tree, level: int)
    requires Levelled(t, level)
    ensures Preorder(t)[0] == t.item
    ensures forall k :: 0 < k < |Preorder(t)| ==> Preorder(t)[k].level > level
    decreases t
  {
    PreorderAllLevels(t.kids, level + 1);
  }

  lemma {:induction false} PreorderAllLevels(ts: seq<Tree>, level: int)
    requires AllLevelled(ts, level)
    ensures forall k :: 0 <= k < |PreorderAll(ts)| ==> PreorderAll(ts)[k].level >= level
    decreases ts
  {
    if ts != [] {
      PreorderLevels(ts[0], level);
      PreorderAllLevels(ts[1..], level);
    }
  }

  /** Reading a laid-out tree inside a longer list of lines gives the tree back. */
  lemma {:induction false} TreeOfPreorder(items: seq<Item>, i: nat, t: Tree, level: int)
    requires Levelled(t, level) && i + |Preorder(t)| <= |items|
    requires items[i..i + |Preorder(t)|] == Preorder(t)
    requires i + |Preorder(t)| < |items| ==> items[i + |Preorder(t)|].level <= level
    ensures i < |items| && Span(items, i) == i + |Preorder(t)| && TreeOf(items, i) == t
    decreases t, 1
  {
    var p := Preorder(t);
    PreorderLevels(t, level);
    assert items[i] == items[i..i + |p|][0];
    assert forall k :: i < k < i + |p| ==> items[k] == p[k - i];
    assert items[i + 1..i + |p|] == p[1..];
    TreesOfPreorder(items, i, i + 1, t.kids, level + 1);
  }

  lemma {:induction false} TreesOfPreorder(items: seq<Item>, i: nat, k: nat, ts: seq<Tree>, level: int)
    requires i < |items| && i < k && AllLevelled(ts, level)
    requires Span(items, i) == k + |PreorderAll(ts)| && items[k..Span(items, i)] == PreorderAll(ts)
    requires Span(items, i) < |items| ==> items[Span(items, i)].level <= level
    ensures TreesFrom(items, i, k) == ts
    decreases ts, 0
  {
    hide Span, Levelled, TreesFrom, TreeOf, Kids, Preorder;
    if ts == [] {
      TreesFromEnd(items, i, k);
    } else {
      var p, rest := Preorder(ts[0]), PreorderAll(ts[1..]);
      var e, end := k + |p|, Span(items, i);
      SplitRange(items, k, end, p, rest);
      NextLevel(items, e, end, ts[1..], level);
      TreeOfPreorder(items, k, ts[0], level);
      TreesOfPreorder(items, i, e, ts[1..], level);
      TreesFromStep(items, i, k);
      assert ts == [ts[0]] + ts[1..];
    }
  }

  lemma TreesFromStep(items: seq<Item>, i: nat, k: nat)
    requires i < |items| && i < k < Span(items, i)
    ensures TreesFrom(items, i, k) == [TreeOf(items, k)] + TreesFrom(items, i, Span(items, k))
  {
  }

  lemma TreesFromEnd(items: seq<Item>, i: nat, k: nat)
    requires i < |items| && i < k && k >= Span(items, i)
    ensures TreesFrom(items, i, k) == []
  {
  }

  lemma SplitRange(items: seq<Item>, k: nat, end: nat, p: seq<Item>, rest: seq<Item>)
    requires k <= end <= |items| && items[k..end] == p + rest
    ensures k + |p| <= end && items[k..k + |p|] == p && items[k + |p|..end] == rest
  {
    assert items[k..k + |p|] == items[k..end][..|p|];
    assert items[k + |p|..end] == items[k..end][|p|..];
  }

  lemma NextLevel(items: seq<Item>, e: nat, end: nat, ts: seq<Tree>, level: int)
    requires e <= end <= |items| && items[e..end] == PreorderAll(ts) && AllLevelled(ts, level)
    requires end < |items| ==> items[end].level <= level
    ensures e < |items| ==> items[e].level <= level
  {
    if e < end {
      FirstLevel(ts, level);
      assert items[e] == items[e..end][0];
    }
  }

  lemma FirstLevel(ts: seq<Tree>, level: int)
    requires AllLevelled(ts, level) && PreorderAll(ts) != []
    ensures PreorderAll(ts)[0].level == level
  {
    assert Levelled(ts[0], level);
  }

  /** The lines of a tree read back as the tree. */
  lemma LayoutRoundTrip(t: Tree)
    requires Levelled(t, -1) && t.item.folder
    ensures Rooted(Preorder(t)) && TreeOf(Preorder(t), 0) == t
  {
    var items := Preorder(t);
    PreorderLevels(t, -1);
    assert items[0..0 + |items|] == items;
    TreeOfPreorder(items, 0, t, -1);
  }
}
