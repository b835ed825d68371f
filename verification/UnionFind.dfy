/**
 Union-find with path halving, and the cluster count built on it
 (services/capital_cells/breadth.py).
 */
module UnionFind {
  import opened Partition

  type Parent = map<string, string>
  type Height = map<string, nat>

  /** `x` stays in its tree when it moves to its parent, and climbs unless it is the root. */
  ghost predicate Climbs(parent: Parent, root: Parent, height: Height, top: nat, x: string)
    requires height.Keys == parent.Keys && root.Keys == parent.Keys && x in parent
  {
    && parent[x] in parent && root[parent[x]] == root[x] && height[x] <= top
    && (parent[x] == x <==> root[x] == x)
    && (parent[x] != x ==> height[x] < height[parent[x]])
  }

  /**
   `parent` is a forest whose trees have the roots `root`: every item climbs, so
   there is no cycle, and a climb stops exactly at the root of its tree.
   */
  ghost predicate Forest(parent: Parent, root: Parent, height: Height, top: nat) {
    && height.Keys == parent.Keys && root.Keys == parent.Keys
    && forall x {:trigger Climbs(parent, root, height, top, x)} :: x in parent ==> Climbs(parent, root, height, top, x)
  }

  /** The item reached after following `n` parents. */
  ghost function Climb(parent: Parent, x: string, n: nat): string
    decreases n
  {
    if n == 0 || x !in parent then x else Climb(parent, parent[x], n - 1)
  }

  /** In a forest every climb ends at the root of its tree, within `top` steps. */
  lemma {:induction false} ClimbEndsAtRoot(parent: Parent, root: Parent, height: Height, top: nat, x: string)
    requires Forest(parent, root, height, top) && x in parent
    ensures height[x] <= top && Climb(parent, x, top - height[x]) == root[x]
    ensures root[x] in parent && parent[root[x]] == root[x]
    decreases top - height[x]
  {
    assert Climbs(parent, root, height, top, x);
    if parent[x] == x {
      StayAtRoot(parent, x, top - height[x]);
    } else {
      var p := parent[x];
      assert Climbs(parent, root, height, top, p);
      ClimbEndsAtRoot(parent, root, height, top, p);
      ClimbPast(parent, p, root[p], top - height[p], top - height[x] - 1);
    }
  }

  lemma {:induction false} StayAtRoot(parent: Parent, x: string, n: nat)
    requires x in parent && parent[x] == x
    ensures Climb(parent, x, n) == x
  {
    if n > 0 {
      StayAtRoot(parent, x, n - 1);
    }
  }

  lemma {:induction false} ClimbPast(parent: Parent, x: string, r: string, m: nat, n: nat)
    requires m <= n && Climb(parent, x, m) == r && r in parent && parent[r] == r
    ensures Climb(parent, x, n) == r
    decreases m
  {
    if m == 0 {
      StayAtRoot(parent, x, n);
    } else if x in parent {
      ClimbPast(parent, parent[x], r, m - 1, n - 1);
    }
  }

  /** Path halving keeps the forest and moves no item to another tree. */
  lemma HalvingKeepsForest(parent: Parent, root: Parent, height: Height, top: nat, x: string, p: string, g: string)
    requires Forest(parent, root, height, top)
    requires x in parent && parent[x] == p && p in parent && parent[p] == g
    ensures Forest(parent[x := g], root, height, top)
    ensures g in parent && root[g] == root[x] && (x != p ==> height[x] < height[g])
  {
    assert Climbs(parent, root, height, top, x) && Climbs(parent, root, height, top, p);
    forall y | y in parent
      ensures Climbs(parent[x := g], root, height, top, y)
    {
      assert Climbs(parent, root, height, top, y);
    }
  }

  /** The trees after the tree of root `a` has been hung below `b`. */
  ghost function Merge(root: Parent, a: string, b: string): Parent {
    map z | z in root :: if root[z] == a then b else root[z]
  }

  /** Hanging root `a` below root `b` merges exactly these two trees. */
  lemma LinkingMergesTrees(
    parent: Parent, root: Parent, height: Height, top: nat, a: string, b: string) returns (raised: Height)
    requires Forest(parent, root, height, top)
    requires a in parent && b in parent && a != b && parent[a] == a && parent[b] == b
    ensures Forest(parent[a := b], Merge(root, a, b), raised, top + 1)
  {
    raised := height[b := if height[a] < height[b] then height[b] else height[a] + 1];
    assert Climbs(parent, root, height, top, a) && Climbs(parent, root, height, top, b);
    forall y | y in parent
      ensures Climbs(parent[a := b], Merge(root, a, b), raised, top + 1, y)
    {
      assert Climbs(parent, root, height, top, y);
    }
  }

  lemma RootIsItsOwnParent(parent: Parent, root: Parent, height: Height, top: nat, r: string)
    requires Forest(parent, root, height, top) && r in parent
    ensures root.Keys == parent.Keys && (root[r] == r ==> parent[r] == r)
  {
    assert Climbs(parent, root, height, top, r);
  }

  class DisjointSets {
    var parent: Parent
    ghost var root: Parent
    ghost var height: Height
    ghost var top: nat

    ghost predicate Valid()
      reads this
    {
      Forest(parent, root, height, top)
    }

    constructor (items: seq<string>)
      ensures Valid() && parent.Keys == Members(items)
      ensures forall x :: x in parent ==> root[x] == x
    {
      parent := map x | x in items :: x;
      root := map x | x in items :: x;
      height := map x | x in items :: 0;
      top := 0;
    }

    /** Climbs to the root, halving the path on the way; no item changes tree. */
    method Find(x: string) returns (r: string)
      requires Valid() && x in parent
      modifies this`parent
      ensures Valid() && parent.Keys == old(parent.Keys)
      ensures r in parent && parent[r] == r && r == root[r] == root[x]
    {
      r := x;
      while parent[r] != r
        invariant Valid() && parent.Keys == old(parent.Keys)
        invariant r in parent && root[r] == root[x]
        decreases top - height[r]
      {
        assert Climbs(parent, root, height, top, r);
        var p := parent[r];
        assert Climbs(parent, root, height, top, p);
        var g := parent[p];
        HalvingKeepsForest(parent, root, height, top, r, p, g);
        parent := parent[r := g];
        r := parent[r];
      }
      assert Climbs(parent, root, height, top, r);
    }

    /** Merges the tree of `x` into the tree of `y` and leaves every other tree alone. */
    method Union(x: string, y: string)
      requires Valid() && x in parent && y in parent
      modifies this
      ensures Valid() && parent.Keys == old(parent.Keys)
      ensures root == old(Merge(root, root[x], root[y]))
    {
      hide Forest, Climbs;
      var rx := Find(x);
      var ry := Find(y);
      RootIsItsOwnParent(parent, root, height, top, rx);
      if rx != ry {
        height := LinkingMergesTrees(parent, root, height, top, rx, ry);
        parent := parent[rx := ry];
        root, top := Merge(root, rx, ry), top + 1;
      } else {
        assert root == Merge(root, rx, ry);
      }
    }
  }

  /** The trees are exactly the connected components of `edges`. */
  ghost predicate Represents(root: Parent, items: seq<string>, edges: Edges) {
    && root.Keys == Members(items)
    && (forall u, v :: (u, v) in edges ==> u in root && v in root)
    && forall x, y :: x in root && y in root ==> (root[x] == root[y] <==> Connected(edges, x, y))
  }

  /** The similar pairs of row `i`, before column `j`. */
  ghost function RowEdges(items: seq<string>, similarity: Similarity, threshold: real, i: nat, j: nat): Edges
    requires i < |items| && j <= |items|
  {
    if j <= i + 1 then {}
    else if similarity(items[i], items[j - 1]) >= threshold
    then RowEdges(items, similarity, threshold, i, j - 1) + {(items[i], items[j - 1])}
    else RowEdges(items, similarity, threshold, i, j - 1)
  }

  /** The similar pairs of the rows before `i`. */
  ghost function Scanned(items: seq<string>, similarity: Similarity, threshold: real, i: nat): Edges
    requires i <= |items|
  {
    if i == 0 then {}
    else Scanned(items, similarity, threshold, i - 1) + RowEdges(items, similarity, threshold, i - 1, |items|)
  }

  lemma {:induction false} RowMembers(
    items: seq<string>, similarity: Similarity, threshold: real, i: nat, j: nat, e: (string, string))
    requires i < |items| && j <= |items|
    ensures e in RowEdges(items, similarity, threshold, i, j) <==>
            exists l :: i < l < j && similarity(items[i], items[l]) >= threshold && e == (items[i], items[l])
  {
    if j > i + 1 {
      RowMembers(items, similarity, threshold, i, j - 1, e);
    }
  }

  lemma {:induction false} ScannedMembers(
    items: seq<string>, similarity: Similarity, threshold: real, i: nat, e: (string, string))
    requires i <= |items|
    ensures e in Scanned(items, similarity, threshold, i) <==>
            exists k, l :: 0 <= k < i && k < l < |items| && similarity(items[k], items[l]) >= threshold && e == (items[k], items[l])
  {
    if i > 0 {
      ScannedMembers(items, similarity, threshold, i - 1, e);
      RowMembers(items, similarity, threshold, i - 1, |items|, e);
    }
  }

  lemma ScanMeetsEveryPair(items: seq<string>, similarity: Similarity, threshold: real)
    ensures Scanned(items, similarity, threshold, |items|) == Similar(items, similarity, threshold)
  {
    forall e
      ensures e in Scanned(items, similarity, threshold, |items|) <==> e in Similar(items, similarity, threshold)
    {
      ScannedMembers(items, similarity, threshold, |items|, e);
    }
  }

  lemma SingletonsRepresentNoEdges(root: Parent, items: seq<string>)
    requires root.Keys == Members(items)
    requires forall x :: x in root ==> root[x] == x
    ensures Represents(root, items, {})
  {
    forall x, y | x in root && y in root
      ensures root[x] == root[y] <==> Connected({}, x, y)
    {
      Reflexive({}, x);
      if Connected({}, x, y) {
        var p :| Path({}, p, x, y);
        TagAlongPath({}, u => u, p, x, y);
      }
    }
  }

  /** Merging two trees represents one more edge. */
  lemma MergeRepresentsEdge(root: Parent, merged: Parent, items: seq<string>, edges: Edges, a: string, b: string)
    requires Represents(root, items, edges) && a in root && b in root
    requires merged == Merge(root, root[a], root[b])
    ensures Represents(merged, items, edges + {(a, b)})
  {
    forall x, y | x in root && y in root
      ensures merged[x] == merged[y] <==> Connected(edges + {(a, b)}, x, y)
    {
      MergeConnects(root, merged, items, edges, a, b, x, y);
    }
  }

  lemma MergeConnects(
    root: Parent, merged: Parent, items: seq<string>, edges: Edges, a: string, b: string, x: string, y: string)
    requires Represents(root, items, edges) && a in root && b in root && x in root && y in root
    requires merged == Merge(root, root[a], root[b])
    ensures merged[x] == merged[y] <==> Connected(edges + {(a, b)}, x, y)
  {
    var more := edges + {(a, b)};
    forall u, v | (u, v) in edges
      ensures Connected(more, u, v)
    {
      Single(more, u, v);
    }
    Single(more, a, b);
    Symmetric(more, a, b);
    if merged[x] == merged[y] {
      if root[x] == root[y] {
        Monotone(edges, more, x, y);
      } else if root[x] == root[a] {
        Monotone(edges, more, x, a);
        Monotone(edges, more, b, y);
        Transitive(more, x, a, b);
        Transitive(more, x, b, y);
      } else {
        Monotone(edges, more, x, b);
        Monotone(edges, more, a, y);
        Transitive(more, x, b, a);
        Transitive(more, x, a, y);
      }
    }
    if Connected(more, x, y) {
      var tag := (u: string) => if u in merged then merged[u] else u;
      forall u, v | (u, v) in more
        ensures tag(u) == tag(v)
      {
        if (u, v) in edges {
          Single(edges, u, v);
        }
      }
      var p :| Path(more, p, x, y);
      TagAlongPath(more, tag, p, x, y);
    }
  }

  /** One root per class. */
  lemma RootsCountClasses(root: Parent, items: seq<string>, edges: Edges, roots: set<string>)
    requires Represents(root, items, edges)
    requires roots == set x | x in items :: root[x]
    ensures |roots| == |Classes(edges, items)|
  {
    var rootOf := (x: string) => if x in root then root[x] else x;
    var classOf := x => ClassOf(edges, items, x);
    forall x, y | x in Members(items) && y in Members(items)
      ensures rootOf(x) == rootOf(y) <==> classOf(x) == classOf(y)
    {
      SameClass(edges, items, x, y);
    }
    ImageLe(Members(items), rootOf, classOf);
    ImageLe(Members(items), classOf, rootOf);
    forall x | x in items
      ensures rootOf(x) == root[x]
    {
      assert x in Members(items);
    }
    assert roots == Image(Members(items), rootOf);
  }

  /** One similar pair: its two trees become one. */
  method UnitePair(sets: DisjointSets, items: seq<string>, ghost edges: Edges, x: string, y: string)
    requires sets.Valid() && Represents(sets.root, items, edges) && x in items && y in items
    modifies sets
    ensures sets.Valid() && Represents(sets.root, items, edges + {(x, y)})
  {
    ghost var root := sets.root;
    assert x in Members(items) && y in Members(items);
    sets.Union(x, y);
    MergeRepresentsEdge(root, sets.root, items, edges, x, y);
  }

  /** Row `i` of the scan: unites item `i` with every later item similar to it. */
  method UniteRow(sets: DisjointSets, items: seq<string>, similarity: Similarity, threshold: real, i: nat)
    requires i < |items| && sets.Valid()
    requires Represents(sets.root, items, Scanned(items, similarity, threshold, i))
    modifies sets
    ensures sets.Valid() && Represents(sets.root, items, Scanned(items, similarity, threshold, i + 1))
  {
    ghost var above := Scanned(items, similarity, threshold, i);
    assert above + {} == above;
    for j := i + 1 to |items|
      invariant sets.Valid() && Represents(sets.root, items, above + RowEdges(items, similarity, threshold, i, j))
    {
      if similarity(items[i], items[j]) >= threshold {
        ghost var edges := above + RowEdges(items, similarity, threshold, i, j);
        UnitePair(sets, items, edges, items[i], items[j]);
        assert edges + {(items[i], items[j])} == above + RowEdges(items, similarity, threshold, i, j + 1);
      }
    }
  }

  /** Collects the root of every item. */
  method Roots(sets: DisjointSets, items: seq<string>) returns (roots: set<string>)
    requires sets.Valid() && sets.root.Keys == Members(items)
    modifies sets
    ensures sets.Valid() && sets.root == old(sets.root)
    ensures roots == set x | x in items :: sets.root[x]
  {
    roots := {};
    for i := 0 to |items|
      invariant sets.Valid() && sets.root == old(sets.root)
      invariant roots == set x | x in items[..i] :: sets.root[x]
    {
      assert items[i] in Members(items);
      assert items[..i + 1] == items[..i] + [items[i]];
      var r := sets.Find(items[i]);
      roots := roots + {r};
    }
    assert items[..|items|] == items;
  }

  /** The cluster count is the number of classes of the closure of "similar enough". */
  method ConnectedComponentCount(items: seq<string>, similarity: Similarity, threshold: real) returns (count: nat)
    ensures count == |Classes(Similar(items, similarity, threshold), items)|
  {
    var sets := new DisjointSets(items);
    SingletonsRepresentNoEdges(sets.root, items);
    for i := 0 to |items|
      invariant fresh(sets) && sets.Valid()
      invariant Represents(sets.root, items, Scanned(items, similarity, threshold, i))
    {
      UniteRow(sets, items, similarity, threshold, i);
    }
    ScanMeetsEveryPair(items, similarity, threshold);
    var roots := Roots(sets, items);
    RootsCountClasses(sets.root, items, Similar(items, similarity, threshold), roots);
    count := |roots|;
  }
}
