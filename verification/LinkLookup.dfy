/** Path lookup in a link tree.  A node is named by its location: which child to take at every step. */
module LinkLookup {
  import opened Prelude
  import opened LinkTree
  import opened LinkText

  type Location = seq<nat>

  // ---- the code ----

  /** getByPath: the node itself, or the first hit among the children in order. */
  function GetByPath(t: Tree, names: seq<string>): Option<Location>
    decreases t, 1
  {
    if names == [] || t.item.name != names[0] then None
    else if |names| == 1 then Some([])
    else GetAmong(t.kids, 0, names[1..])
  }

  function GetAmong(kids: seq<Tree>, j: nat, names: seq<string>): Option<Location>
    requires j <= |kids|
    decreases kids, 0, |kids| - j
  {
    if j == |kids| then None
    else
      match GetByPath(kids[j], names)
      case Some(rest) => Some([j] + rest)
      case None => GetAmong(kids, j + 1, names)
  }

  function SplitPath(path: string): seq<string> {
    if path == "/" then ["root"] else ["root"] + SplitOn(path, '/')[1..]
  }

  function GetNodeFromRootByPath(root: Tree, path: string): Option<Location> {
    GetByPath(root, SplitPath(path))
  }

  // ---- what it finds ----

  /** The names on the way to `loc`, the tree's own included, are `names`. */
  predicate Matches(t: Tree, names: seq<string>, loc: Location)
    decreases |loc|
  {
    && |names| == |loc| + 1 && t.item.name == names[0]
    && (loc == [] || (loc[0] < |t.kids| && Matches(t.kids[loc[0]], names[1..], loc[1..])))
  }

  /** Order of locations, left to right. */
  predicate Before(a: Location, b: Location)
    decreases |a|
  {
    a != [] && b != [] && (a[0] < b[0] || (a[0] == b[0] && Before(a[1..], b[1..])))
  }

  /** Lookup finds the first location whose chain of names matches, and nothing only if there is none,
      also when folders share a name. */
  lemma {:induction false} FindsFirst(t: Tree, names: seq<string>, loc: Location)
    ensures GetByPath(t, names).Some? ==> Matches(t, names, GetByPath(t, names).value)
    ensures Matches(t, names, loc) ==>
      GetByPath(t, names).Some? && (GetByPath(t, names).value == loc || Before(GetByPath(t, names).value, loc))
    decreases t, 1
  {
    if names != [] && t.item.name == names[0] && |names| > 1 {
      FindsFirstAmong(t.kids, 0, names[1..], loc);
    }
  }

  lemma {:induction false} FindsFirstAmong(kids: seq<Tree>, j: nat, names: seq<string>, loc: Location)
    requires j <= |kids|
    ensures var r := GetAmong(kids, j, names);
      && (r.Some? ==> r.value != [] && j <= r.value[0] < |kids| && Matches(kids[r.value[0]], names, r.value[1..]))
      && (loc != [] && j <= loc[0] < |kids| && Matches(kids[loc[0]], names, loc[1..]) ==>
            r.Some? && (r.value == loc || Before(r.value, loc)))
    decreases kids, 0, |kids| - j
  {
    if j < |kids| {
      var rest := if loc != [] then loc[1..] else [];
      FindsFirst(kids[j], names, rest);
      FindsFirstAmong(kids, j + 1, names, loc);
      if GetByPath(kids[j], names).Some? {
        var found := GetByPath(kids[j], names).value;
        assert ([j] + found)[1..] == found;
        assert loc != [] && loc[0] == j ==> loc == [j] + rest;
      }
    }
  }

  // ---- locations and preorder ----

  predicate IsLocation(t: Tree, loc: Location)
    decreases |loc|
  {
    loc == [] || (loc[0] < |t.kids| && IsLocation(t.kids[loc[0]], loc[1..]))
  }

  function NodeAt(t: Tree, loc: Location): Tree
    requires IsLocation(t, loc)
    decreases |loc|
  {
    if loc == [] then t else NodeAt(t.kids[loc[0]], loc[1..])
  }

  /** The number of a location in preorder. */
  function Rank(t: Tree, loc: Location): nat
    requires IsLocation(t, loc)
    decreases |loc|
  {
    if loc == [] then 0 else 1 + |PreorderAll(t.kids[..loc[0]])| + Rank(t.kids[loc[0]], loc[1..])
  }

  lemma {:induction false} MatchIsLocation(t: Tree, names: seq<string>, loc: Location)
    requires Matches(t, names, loc)
    ensures IsLocation(t, loc)
    decreases |loc|
  {
    if loc != [] { MatchIsLocation(t.kids[loc[0]], names[1..], loc[1..]); }
  }

  lemma {:induction false} PreorderAllAppend(a: seq<Tree>, b: seq<Tree>)
    ensures PreorderAll(a + b) == PreorderAll(a) + PreorderAll(b)
  {
    if a == [] {
      assert a + b == b;
    } else {
      assert (a + b)[1..] == a[1..] + b;
      PreorderAllAppend(a[1..], b);
    }
  }

  lemma PreorderOfOne(t: Tree)
    ensures PreorderAll([t]) == Preorder(t)
  {
    hide Preorder;
    assert [t][1..] == [];
  }

  lemma KidStep(ts: seq<Tree>, j: nat)
    requires j < |ts|
    ensures PreorderAll(ts[..j + 1]) == PreorderAll(ts[..j]) + Preorder(ts[j])
  {
    PreorderOfOne(ts[j]);
    hide Preorder, PreorderAll;
    PreorderAllAppend(ts[..j], [ts[j]]);
    assert ts[..j + 1] == ts[..j] + [ts[j]];
  }

  lemma KidSplit(ts: seq<Tree>, j: nat)
    requires j <= |ts|
    ensures PreorderAll(ts) == PreorderAll(ts[..j]) + PreorderAll(ts[j..])
  {
    hide Preorder, PreorderAll;
    PreorderAllAppend(ts[..j], ts[j..]);
    assert ts == ts[..j] + ts[j..];
  }

  lemma KidRange(ts: seq<Tree>, j: nat)
    requires j < |ts|
    ensures PreorderAll(ts[..j + 1]) == PreorderAll(ts[..j]) + Preorder(ts[j])
    ensures PreorderAll(ts) == PreorderAll(ts[..j + 1]) + PreorderAll(ts[j + 1..])
  {
    hide Preorder, PreorderAll;
    KidStep(ts, j);
    KidSplit(ts, j + 1);
  }

  /** The rank is where the node stands in the preorder. */
  lemma {:induction false} RankIsIndex(t: Tree, loc: Location)
    requires IsLocation(t, loc)
    ensures Rank(t, loc) < |Preorder(t)| && Preorder(t)[Rank(t, loc)] == NodeAt(t, loc).item
    decreases |loc|
  {
    if loc != [] {
      RankIsIndex(t.kids[loc[0]], loc[1..]);
      KidRange(t.kids, loc[0]);
    }
  }

  lemma {:induction false} PrefixLength(ts: seq<Tree>, i: nat, j: nat)
    requires i < j <= |ts|
    ensures |PreorderAll(ts[..i])| + |Preorder(ts[i])| <= |PreorderAll(ts[..j])|
    decreases j
  {
    KidRange(ts, j - 1);
    if i < j - 1 { PrefixLength(ts, i, j - 1); }
  }

  /** What lies before in the order of locations comes before in preorder. */
  lemma {:induction false} BeforeIsEarlier(t: Tree, a: Location, b: Location)
    requires IsLocation(t, a) && IsLocation(t, b) && Before(a, b)
    ensures Rank(t, a) < Rank(t, b)
    decreases |a|
  {
    if a[0] == b[0] {
      BeforeIsEarlier(t.kids[a[0]], a[1..], b[1..]);
    } else {
      RankIsIndex(t.kids[a[0]], a[1..]);
      PrefixLength(t.kids, a[0], b[0]);
    }
  }

  /** The node found is the first in preorder with a matching chain of names. */
  lemma FoundIsFirstInPreorder(t: Tree, names: seq<string>, loc: Location)
    requires Matches(t, names, loc)
    ensures GetByPath(t, names).Some?
    ensures var found := GetByPath(t, names).value;
      IsLocation(t, found) && IsLocation(t, loc) && Rank(t, found) <= Rank(t, loc)
  {
    FindsFirst(t, names, loc);
    var found := GetByPath(t, names).value;
    MatchIsLocation(t, names, found);
    MatchIsLocation(t, names, loc);
    if found != loc { BeforeIsEarlier(t, found, loc); }
  }

  // ---- paths as text ----

  function PathOf(names: seq<string>): string {
    if names == [] then "" else "/" + names[0] + PathOf(names[1..])
  }

  lemma {:induction false} SplitOfPath(names: seq<string>)
    requires forall i :: 0 <= i < |names| ==> '/' !in names[i]
    ensures SplitOn(PathOf(names), '/') == [""] + names
  {
    if names != [] {
      var rest := PathOf(names[1..]);
      SplitOfPath(names[1..]);
      assert PathOf(names) == "/" + (names[0] + rest);
      SplitSep(names[0] + rest, '/');
      hide SplitOn, PathOf;
      SplitWord(names[0], rest, '/');
      assert [names[0]] + names[1..] == names;
    }
  }

  /** Every chain of names from the root can be asked for as a path. */
  lemma PathFinds(root: Tree, names: seq<string>)
    requires forall i :: 0 <= i < |names| ==> '/' !in names[i]
    requires names != [""]
    ensures GetNodeFromRootByPath(root, PathOf(names)) == GetByPath(root, ["root"] + names)
    ensures GetNodeFromRootByPath(root, "/") == GetByPath(root, ["root"])
  {
    SplitOfPath(names);
    PathLength(names);
    assert ([""] + names)[1..] == names;
  }

  lemma {:induction false} PathLength(names: seq<string>)
    ensures |PathOf(names)| >= |names|
    ensures PathOf(names) == "/" ==> names == [""]
  {
    if names != [] {
      PathLength(names[1..]);
      assert |PathOf(names)| == 1 + |names[0]| + |PathOf(names[1..])|;
      assert |names| == 1 ==> names == [names[0]];
    }
  }
}
