/** BuildTree on the heap: nodes linked through child lists, and the stack of open folders. */
module LinkBuild {
  import opened Prelude
  import opened LinkTree
  import opened LinkText

  class Node {
    var item: Item
    var children: seq<Node>

    constructor (item: Item)
      ensures this.item == item && children == []
    {
      this.item, children := item, [];
    }
  }

  /** The lines among the first `n` whose parent is `i`. */
  ghost function ChildList(items: seq<Item>, i: nat, n: nat): (s: seq<nat>)
    requires n <= |items|
    ensures forall c: nat :: c in s <==> c < n && IsParent(items, c, i)
    ensures Ascending(s)
  {
    if n == 0 then []
    else if IsParent(items, n - 1, i) then
      var s := ChildList(items, i, n - 1);
      assert forall t :: 0 <= t < |s| ==> s[t] in s;
      s + [n - 1]
    else ChildList(items, i, n - 1)
  }

  ghost function NodesAt(nodes: seq<Node>, at: seq<nat>): (s: seq<Node>)
    requires forall c: nat :: c in at ==> c < |nodes|
    ensures |s| == |at| && forall j :: 0 <= j < |at| ==> at[j] in at && s[j] == nodes[at[j]]
  {
    seq(|at|, j requires 0 <= j < |at| => assert at[j] in at; nodes[at[j]])
  }

  ghost predicate Distinct(nodes: seq<Node>) {
    forall i, j :: 0 <= i < j < |nodes| ==> nodes[i] != nodes[j]
  }

  lemma DistinctFrom(nodes: seq<Node>, i: nat)
    requires Distinct(nodes) && i < |nodes|
    ensures forall j: nat :: j < |nodes| && j != i ==> nodes[j] != nodes[i]
  {
  }

  lemma DistinctSnoc(nodes: seq<Node>, node: Node)
    requires Distinct(nodes) && node !in nodes
    ensures Distinct(nodes + [node])
  {
  }

  /** One node per line, each holding its line and linked to the lines whose parent it is. */
  ghost predicate Shape(nodes: seq<Node>, items: seq<Item>)
    reads set n | n in nodes
  {
    && |nodes| == |items| > 0 && Distinct(nodes)
    && (forall i: nat :: i < |nodes| ==> nodes[i].item == items[i])
    && (forall i: nat :: i < |nodes| ==> nodes[i].children == NodesAt(nodes, ChildList(items, i, |items|)))
  }

  // ---- the stack ----

  predicate InRange(at: seq<nat>, n: nat) {
    forall t :: 0 <= t < |at| ==> at[t] < n
  }

  /** Folder `j` is open behind all lines. */
  predicate OpenAtEnd(items: seq<Item>, j: nat) {
    j < |items| && items[j].folder && forall k :: j < k < |items| ==> items[k].level > items[j].level
  }

  /** The stack holds the open folders below `level`, deepest on top. */
  ghost predicate StackOf(items: seq<Item>, at: seq<nat>, level: int) {
    && |at| > 0 && at[0] == 0 && Ascending(at)
    && InRange(at, |items|)
    && forall j: nat :: j in at <==> OpenAtEnd(items, j) && items[j].level < level
  }

  /** All open folders, whatever their level. */
  ghost predicate FullStack(items: seq<Item>, at: seq<nat>) {
    && |at| > 0 && at[0] == 0 && Ascending(at)
    && InRange(at, |items|)
    && forall j: nat :: j in at <==> OpenAtEnd(items, j)
  }

  /** Levels grow along the stack. */
  lemma StackLevels(items: seq<Item>, at: seq<nat>, a: nat, b: nat)
    requires FullStack(items, at) && a < b < |at|
    ensures items[at[a]].level < items[at[b]].level
  {
    assert OpenAtEnd(items, at[a]) && OpenAtEnd(items, at[b]) by { assert at[a] in at && at[b] in at; }
    assert at[a] < at[b];
  }

  /** Popping everything at `level` or above leaves the possible parents, the last one on top. */
  lemma PoppedStack(items: seq<Item>, at: seq<nat>, k: nat, level: int)
    requires FullStack(items, at) && 0 < k <= |at| && items[at[0]].level < level
    requires items[at[k - 1]].level < level
    requires forall t :: k <= t < |at| ==> items[at[t]].level >= level
    ensures StackOf(items, at[..k], level)
  {
    forall t | 0 <= t < k
      ensures items[at[t]].level < level
    {
      if t < k - 1 { StackLevels(items, at, t, k - 1); }
    }
    var top := at[..k];
    forall j: nat
      ensures j in top <==> OpenAtEnd(items, j) && items[j].level < level
    {
      if j in top {
        assert j in at;
      }
      if OpenAtEnd(items, j) && items[j].level < level {
        assert j in at;
        var t :| 0 <= t < |at| && at[t] == j;
        assert t < k && top[t] == j;
      }
    }
  }

  lemma OpenAtNew(items: seq<Item>, item: Item, j: nat)
    ensures Open(items + [item], |items|, j) <==> OpenAtEnd(items, j) && items[j].level < item.level
    ensures OpenAtEnd(items + [item], j) <==>
      if j < |items| then Open(items + [item], |items|, j) else j == |items| && item.folder
  {
    var all, n := items + [item], |items|;
    assert all[n] == item && forall k :: 0 <= k < n ==> all[k] == items[k];
    if Open(all, n, j) {
      forall k | j < k < n
        ensures items[k].level > items[j].level
      {
        assert all[k].level > all[j].level;
      }
    }
  }

  /** Appending a line: its parent is the top of the popped stack. */
  lemma AppendLine(items: seq<Item>, at: seq<nat>, item: Item)
    requires Rooted(items) && StackOf(items, at, item.level)
    ensures IsParent(items + [item], |items|, at[|at| - 1])
    ensures forall m: nat, j: nat :: m < |items| ==> (IsParent(items + [item], m, j) <==> IsParent(items, m, j))
    ensures item.folder ==> FullStack(items + [item], at + [|items|])
    ensures !item.folder ==> FullStack(items + [item], at)
  {
    var all, n := items + [item], |items|;
    forall j: nat
      ensures Open(all, n, j) <==> j in at
    {
      OpenAtNew(items, item, j);
    }
    var top := at[|at| - 1];
    assert top in at && forall t :: 0 <= t < |at| ==> at[t] <= top;
    forall k | top < k < n
      ensures !Open(all, n, k)
    {
    }
    forall j: nat
      ensures OpenAtEnd(all, j) <==> j in at || (j == n && item.folder)
    {
      OpenAtNew(items, item, j);
    }
    SameParents(items, item);
    assert forall t :: 0 <= t < |at| ==> at[t] in at;
  }

  lemma SameParents(items: seq<Item>, item: Item)
    ensures forall m: nat, j: nat :: m < |items| ==> (IsParent(items + [item], m, j) <==> IsParent(items, m, j))
  {
    var all := items + [item];
    assert forall k: nat :: k < |items| ==> all[k] == items[k];
    forall m: nat, j: nat | m < |items|
      ensures Open(all, m, j) <==> Open(items, m, j)
    {
    }
  }

  // ---- the heap ----

  lemma ChildListGrows(items: seq<Item>, item: Item, i: nat)
    ensures ChildList(items + [item], i, |items|) == ChildList(items, i, |items|)
  {
    SameParents(items, item);
    AscendingUnique(ChildList(items + [item], i, |items|), ChildList(items, i, |items|));
  }

  /** What one appended line does to the list of children of `i`. */
  lemma ChildListAfter(items: seq<Item>, at: seq<nat>, item: Item, i: nat)
    requires Rooted(items) && StackOf(items, at, item.level)
    ensures ChildList(items + [item], i, |items| + 1)
         == ChildList(items, i, |items|) + if i == at[|at| - 1] then [|items|] else []
  {
    var top := at[|at| - 1];
    hide IsParent, StackOf, FullStack, Rooted;
    AppendLine(items, at, item);
    ChildListGrows(items, item, i);
    if IsParent(items + [item], |items|, i) {
      ParentUnique(items + [item], |items|, i, top);
    }
  }

  lemma {:induction false} NoChildrenYet(items: seq<Item>, i: nat, n: nat)
    requires n <= |items| && n <= i + 1
    ensures ChildList(items, i, n) == []
  {
    if n > 0 { NoChildrenYet(items, i, n - 1); }
  }

  lemma NodesGrow(nodes: seq<Node>, node: Node, at: seq<nat>)
    requires forall c: nat :: c in at ==> c < |nodes|
    ensures NodesAt(nodes + [node], at) == NodesAt(nodes, at)
    ensures NodesAt(nodes + [node], at + [|nodes|]) == NodesAt(nodes, at) + [node]
  {
  }

  /** Pop the stack while its top is at `level` or deeper. */
  method Pop(stack: seq<Node>, level: int) returns (left: seq<Node>)
    requires |stack| > 0 && stack[0].item.level < level
    ensures 0 < |left| <= |stack| && left == stack[..|left|] && left[|left| - 1].item.level < level
    ensures forall t :: |left| <= t < |stack| ==> stack[t].item.level >= level
  {
    left := stack;
    while level <= left[|left| - 1].item.level
      invariant 0 < |left| <= |stack| && left == stack[..|left|]
      invariant forall t :: |left| <= t < |stack| ==> stack[t].item.level >= level
      decreases |left|
    {
      left := left[..|left| - 1];
    }
  }

  lemma StackItems(nodes: seq<Node>, items: seq<Item>, at: seq<nat>)
    requires Shape(nodes, items) && FullStack(items, at)
    ensures forall c: nat :: c in at ==> c < |nodes|
    ensures |NodesAt(nodes, at)| == |at| > 0 && at[0] == 0
    ensures forall t :: 0 <= t < |at| ==> at[t] < |items| && NodesAt(nodes, at)[t].item == items[at[t]]
  {
  }

  lemma NodesPrefix(nodes: seq<Node>, at: seq<nat>, k: nat)
    requires k <= |at| && forall c: nat :: c in at ==> c < |nodes|
    ensures forall c: nat :: c in at[..k] ==> c < |nodes|
    ensures NodesAt(nodes, at[..k]) == NodesAt(nodes, at)[..k]
  {
    assert forall c: nat :: c in at[..k] ==> c in at;
  }

  /** Make the node for a line and hang it under the top of the stack. */
  method AddNode(stack: seq<Node>, item: Item, ghost nodes: seq<Node>, ghost items: seq<Item>, ghost at: seq<nat>)
      returns (node: Node)
    requires Rooted(items) && Shape(nodes, items) && StackOf(items, at, item.level) && stack == NodesAt(nodes, at)
    modifies stack[|stack| - 1]
    ensures fresh(node) && Shape(nodes + [node], items + [item])
  {
    var parent := stack[|stack| - 1];
    node := new Node(item);
    ghost var top := at[|at| - 1];
    assert top in at && parent == nodes[top];
    parent.children := parent.children + [node];
    ghost var all := nodes + [node];
    DistinctFrom(nodes, top);
    DistinctSnoc(nodes, node);
    hide ChildList, NodesAt, StackOf, Distinct, Rooted;
    forall i: nat | i < |all|
      ensures all[i].item == (items + [item])[i]
      ensures all[i].children == NodesAt(all, ChildList(items + [item], i, |all|))
    {
      ChildrenAfter(nodes, node, items, at, item, i);
      if i < |nodes| {
        assert old(nodes[i].children) == NodesAt(nodes, ChildList(items, i, |items|));
      }
    }
  }

  /** The child nodes of `i` after a line has been appended. */
  lemma ChildrenAfter(nodes: seq<Node>, node: Node, items: seq<Item>, at: seq<nat>, item: Item, i: nat)
    requires Rooted(items) && StackOf(items, at, item.level) && |nodes| == |items| && i <= |nodes|
    ensures NodesAt(nodes + [node], ChildList(items + [item], i, |items| + 1))
         == if i == |nodes| then []
            else NodesAt(nodes, ChildList(items, i, |items|)) + if i == at[|at| - 1] then [node] else []
  {
    if i < |nodes| {
      ChildListAfter(items, at, item, i);
      NodesGrow(nodes, node, ChildList(items, i, |items|));
    } else {
      NoChildrenYet(items + [item], i, |items| + 1);
    }
  }

  /** What BuildTree's loop keeps: the tree of the lines so far and the stack of its open folders. */
  ghost predicate Building(nodes: seq<Node>, items: seq<Item>, stack: seq<Node>, at: seq<nat>)
    reads set n | n in nodes
  {
    && Rooted(items) && items[0] == ROOT && Shape(nodes, items)
    && FullStack(items, at) && stack == NodesAt(nodes, at)
  }

  lemma StackGrows(nodes: seq<Node>, node: Node, items: seq<Item>, at: seq<nat>, item: Item)
    requires Rooted(items) && StackOf(items, at, item.level) && |nodes| == |items|
    ensures forall c: nat :: c in at ==> c < |nodes|
    ensures FullStack(items + [item], if item.folder then at + [|items|] else at)
    ensures NodesAt(nodes + [node], if item.folder then at + [|items|] else at)
         == if item.folder then NodesAt(nodes, at) + [node] else NodesAt(nodes, at)
  {
    AppendLine(items, at, item);
    NodesGrow(nodes, node, at);
  }

  /** One non-blank line: pop, make the node, push it if it is a folder. */
  method AddLine(stack: seq<Node>, item: Item, ghost nodes: seq<Node>, ghost items: seq<Item>, ghost at: seq<nat>)
      returns (stack': seq<Node>, node: Node, ghost at': seq<nat>)
    requires Building(nodes, items, stack, at) && item.level >= 0
    modifies nodes
    ensures fresh(node) && Building(nodes + [node], items + [item], stack', at')
  {
    StackItems(nodes, items, at);
    stack' := Pop(stack, item.level);
    ghost var below := at[..|stack'|];
    PoppedStack(items, at, |stack'|, item.level);
    NodesPrefix(nodes, at, |stack'|);
    hide FullStack, StackOf, NodesAt, ChildList;
    StackGrows(nodes, stack'[0], items, below, item);
    node := AddNode(stack', item, nodes, items, below);
    StackGrows(nodes, node, items, below, item);
    at' := below;
    if item.folder {
      stack' := stack' + [node];
      at' := at' + [|items|];
    }
  }

  /** BuildTree: null exactly when some line is bad; otherwise one node per non-blank line, linked as
      the definition of parent says. */
  method BuildTree(text: string, now: int) returns (root: Node?, ghost nodes: seq<Node>)
    ensures root == null <==> Items(SplitOn(text, '\n'), now).None?
    ensures root != null ==> Shape(nodes, Items(SplitOn(text, '\n'), now).value) && root == nodes[0]
    ensures root != null ==> fresh(nodes)
  {
    var lines := SplitOn(text, '\n');
    var top := new Node(ROOT);
    nodes := [top];
    var stack := [top];
    ghost var items, at := [ROOT], [0 as nat];
    RootAlone(top);
    assert lines[..0] == [];
    hide Building, SplitOn, ParseLine;
    for k := 0 to |lines|
      invariant Items(lines[..k], now) == Some(items)
      invariant |nodes| > 0 && nodes[0] == top && fresh(nodes) && Building(nodes, items, stack, at)
    {
      ItemsStep(lines, now, k);
      match ParseLine(lines[k], now)
      case Bad =>
        BadStays(lines, now, k + 1);
        return null, [];
      case Blank =>
      case Entry(item) =>
        var node;
        stack, node, at := AddLine(stack, item, nodes, items, at);
        nodes, items := nodes + [node], items + [item];
    }
    assert lines[..|lines|] == lines;
    BuildingShape(nodes, items, stack, at);
    root := top;
  }

  lemma RootAlone(top: Node)
    requires top.item == ROOT && top.children == []
    ensures Building([top], [ROOT], [top], [0])
  {
    NoChildrenYet([ROOT], 0, 1);
  }

  lemma BuildingShape(nodes: seq<Node>, items: seq<Item>, stack: seq<Node>, at: seq<nat>)
    requires Building(nodes, items, stack, at)
    ensures Shape(nodes, items)
  {
  }

  lemma ItemsStep(lines: seq<string>, now: int, k: nat)
    requires k < |lines| && Items(lines[..k], now).Some?
    ensures var items := Items(lines[..k], now).value;
      match ParseLine(lines[k], now)
      case Bad => Items(lines[..k + 1], now) == None
      case Blank => Items(lines[..k + 1], now) == Some(items)
      case Entry(item) => item.level >= 0 && Items(lines[..k + 1], now) == Some(items + [item])
  {
    hide ParseLine, Items;
    assert lines[..k + 1] == lines[..k] + [lines[k]];
    ItemsSnoc(lines[..k], lines[k], now);
  }

  /** One bad line spoils the text. */
  lemma {:induction false} BadStays(lines: seq<string>, now: int, k: nat)
    requires k <= |lines| && Items(lines[..k], now).None?
    ensures Items(lines, now).None?
    decreases |lines| - k
  {
    if k < |lines| {
      assert lines[..k + 1][..k] == lines[..k];
      BadStays(lines, now, k + 1);
    } else {
      assert lines[..k] == lines;
    }
  }

  /** The child list is the walk from span to span. */
  lemma ChildListIsKids(items: seq<Item>, i: nat)
    requires i < |items|
    ensures ChildList(items, i, |items|) == Kids(items, i, i + 1)
  {
    var kids := Kids(items, i, i + 1);
    if i + 1 < Span(items, i) { FirstKid(items, i); }
    KidsAreChildren(items, i, i + 1);
    forall c: nat
      ensures c in kids <==> c in ChildList(items, i, |items|)
    {
    }
    AscendingUnique(ChildList(items, i, |items|), kids);
  }
}
