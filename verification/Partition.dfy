/**
 The reference meaning of a cluster count: the classes of the reflexive,
 symmetric and transitive closure of "similar enough". Nothing here mentions
 parents or roots.
 */
module Partition {
  type Edges = set<(string, string)>
  type Similarity = (string, string) -> real

  /** The pairs, taken in list order, that meet the threshold. */
  ghost function Similar(items: seq<string>, similarity: Similarity, threshold: real): Edges {
    set i, j | 0 <= i < j < |items| && similarity(items[i], items[j]) >= threshold :: (items[i], items[j])
  }

  ghost predicate Linked(edges: Edges, x: string, y: string) {
    (x, y) in edges || (y, x) in edges
  }

  ghost predicate Path(edges: Edges, p: seq<string>, x: string, y: string) {
    && p != [] && p[0] == x && p[|p| - 1] == y
    && forall k :: 0 <= k < |p| - 1 ==> Linked(edges, p[k], p[k + 1])
  }

  ghost predicate Connected(edges: Edges, x: string, y: string) {
    exists p :: Path(edges, p, x, y)
  }

  ghost function ClassOf(edges: Edges, items: seq<string>, x: string): set<string> {
    set y | y in items && Connected(edges, x, y)
  }

  ghost function Image<T(!new), A(!new)>(s: set<T>, f: T -> A): set<A> {
    set x | x in s :: f(x)
  }

  ghost function Members(items: seq<string>): set<string> {
    set x | x in items
  }

  ghost function Classes(edges: Edges, items: seq<string>): set<set<string>> {
    Image(Members(items), x => ClassOf(edges, items, x))
  }

  // ----- connectedness is an equivalence, monotone in the edges -----

  lemma Reflexive(edges: Edges, x: string)
    ensures Connected(edges, x, x)
  {
    assert Path(edges, [x], x, x);
  }

  lemma Single(edges: Edges, x: string, y: string)
    requires Linked(edges, x, y)
    ensures Connected(edges, x, y)
  {
    assert Path(edges, [x, y], x, y);
  }

  lemma Symmetric(edges: Edges, x: string, y: string)
    requires Connected(edges, x, y)
    ensures Connected(edges, y, x)
  {
    var p :| Path(edges, p, x, y);
    var r := seq(|p|, i requires 0 <= i < |p| => p[|p| - 1 - i]);
    forall k | 0 <= k < |r| - 1
      ensures Linked(edges, r[k], r[k + 1])
    {
      assert Linked(edges, p[|p| - 2 - k], p[|p| - 2 - k + 1]);
    }
    assert Path(edges, r, y, x);
  }

  lemma Transitive(edges: Edges, x: string, y: string, z: string)
    requires Connected(edges, x, y) && Connected(edges, y, z)
    ensures Connected(edges, x, z)
  {
    var p :| Path(edges, p, x, y);
    var q :| Path(edges, q, y, z);
    var r := p + q[1..];
    forall k | 0 <= k < |r| - 1
      ensures Linked(edges, r[k], r[k + 1])
    {
      if k >= |p| - 1 {
        assert r[k] == q[k - |p| + 1] && r[k + 1] == q[k - |p| + 2];
      }
    }
    assert Path(edges, r, x, z);
  }

  /** Paths survive when every old edge is still bridged by some new path. */
  lemma Monotone(few: Edges, many: Edges, x: string, y: string)
    requires Connected(few, x, y)
    requires forall u, v :: (u, v) in few ==> Connected(many, u, v)
    ensures Connected(many, x, y)
  {
    var p :| Path(few, p, x, y);
    MonotonePath(few, many, p, x, y);
  }

  lemma {:induction false} MonotonePath(few: Edges, many: Edges, p: seq<string>, x: string, y: string)
    requires Path(few, p, x, y)
    requires forall u, v :: (u, v) in few ==> Connected(many, u, v)
    ensures Connected(many, x, y)
    decreases |p|
  {
    if |p| == 1 {
      Reflexive(many, x);
    } else {
      TailPath(few, p, x, y);
      MonotonePath(few, many, p[1..], p[1], y);
      if (p[0], p[1]) !in few {
        Symmetric(many, p[1], p[0]);
      }
      Transitive(many, x, p[1], y);
    }
  }

  lemma TailPath(edges: Edges, p: seq<string>, x: string, y: string)
    requires Path(edges, p, x, y) && |p| > 1
    ensures Linked(edges, p[0], p[1]) && Path(edges, p[1..], p[1], y)
  {
    forall k | 0 <= k < |p[1..]| - 1
      ensures Linked(edges, p[1..][k], p[1..][k + 1])
    {
      assert Linked(edges, p[k + 1], p[k + 2]);
    }
  }

  /** A labelling that agrees along every edge agrees along every path. */
  lemma {:induction false} TagAlongPath(edges: Edges, tag: string -> string, p: seq<string>, x: string, y: string)
    requires Path(edges, p, x, y)
    requires forall u, v :: (u, v) in edges ==> tag(u) == tag(v)
    ensures tag(x) == tag(y)
    decreases |p|
  {
    if |p| > 1 {
      TailPath(edges, p, x, y);
      TagAlongPath(edges, tag, p[1..], p[1], y);
    }
  }

  lemma SameClass(edges: Edges, items: seq<string>, x: string, y: string)
    requires x in items && y in items
    ensures ClassOf(edges, items, x) == ClassOf(edges, items, y) <==> Connected(edges, x, y)
  {
    if Connected(edges, x, y) {
      Symmetric(edges, x, y);
      forall z | z in items
        ensures Connected(edges, x, z) <==> Connected(edges, y, z)
      {
        if Connected(edges, x, z) { Transitive(edges, y, x, z); }
        if Connected(edges, y, z) { Transitive(edges, x, y, z); }
      }
    } else {
      Reflexive(edges, y);
      assert y in ClassOf(edges, items, y) && y !in ClassOf(edges, items, x);
    }
  }

  /** The coarser of two views of a set has no more values. */
  lemma {:induction false} ImageLe<T(!new), A(!new), B(!new)>(s: set<T>, fine: T -> A, coarse: T -> B)
    requires forall x, y :: x in s && y in s && fine(x) == fine(y) ==> coarse(x) == coarse(y)
    ensures |Image(s, coarse)| <= |Image(s, fine)|
    decreases |s|
  {
    if s == {} {
      assert Image(s, coarse) == {};
    } else {
      var x :| x in s;
      var rest := s - {x};
      ImageLe(rest, fine, coarse);
      assert Image(s, fine) == Image(rest, fine) + {fine(x)};
      assert Image(s, coarse) == Image(rest, coarse) + {coarse(x)};
      if fine(x) in Image(rest, fine) {
        var y :| y in rest && fine(y) == fine(x);
        assert coarse(x) in Image(rest, coarse);
        assert Image(s, coarse) == Image(rest, coarse);
        assert Image(s, fine) == Image(rest, fine);
      }
    }
  }

  /** More edges, or the same edges on the same items in another order, never give more classes. */
  lemma ClassesLe(few: Edges, many: Edges, a: seq<string>, b: seq<string>)
    requires Members(a) == Members(b)
    requires forall u, v :: (u, v) in few ==> Connected(many, u, v)
    ensures |Classes(many, b)| <= |Classes(few, a)|
  {
    var fine := x => ClassOf(few, a, x);
    var coarse := x => ClassOf(many, b, x);
    forall x, y | x in Members(a) && y in Members(a) && fine(x) == fine(y)
      ensures coarse(x) == coarse(y)
    {
      assert x in a && y in a;
      assert x in Members(b) && y in Members(b);
      SameClass(few, a, x, y);
      Monotone(few, many, x, y);
      SameClass(many, b, x, y);
    }
    ImageLe(Members(a), fine, coarse);
    assert Classes(many, b) == Image(Members(a), coarse);
    assert Classes(few, a) == Image(Members(a), fine);
  }

  /** Raising the threshold never lowers the count. */
  lemma CountRisesWithThreshold(items: seq<string>, similarity: Similarity, low: real, high: real)
    requires low <= high
    ensures |Classes(Similar(items, similarity, low), items)| <= |Classes(Similar(items, similarity, high), items)|
  {
    var few, many := Similar(items, similarity, high), Similar(items, similarity, low);
    forall u, v | (u, v) in few
      ensures Connected(many, u, v)
    {
      Single(many, u, v);
    }
    ClassesLe(few, many, items, items);
  }

  /** With a symmetric similarity the order of the items does not matter. */
  lemma CountIgnoresOrder(a: seq<string>, b: seq<string>, similarity: Similarity, threshold: real)
    requires multiset(a) == multiset(b)
    requires forall x, y :: similarity(x, y) == similarity(y, x)
    ensures |Classes(Similar(a, similarity, threshold), a)| == |Classes(Similar(b, similarity, threshold), b)|
  {
    CountReordered(a, b, similarity, threshold);
    CountReordered(b, a, similarity, threshold);
  }

  lemma CountReordered(a: seq<string>, b: seq<string>, similarity: Similarity, threshold: real)
    requires multiset(a) == multiset(b)
    requires forall x, y :: similarity(x, y) == similarity(y, x)
    ensures |Classes(Similar(b, similarity, threshold), b)| <= |Classes(Similar(a, similarity, threshold), a)|
  {
    var few, many := Similar(a, similarity, threshold), Similar(b, similarity, threshold);
    forall x
      ensures x in a <==> x in b
    {
      assert x in a <==> x in multiset(a);
      assert x in b <==> x in multiset(b);
    }
    forall u, v | (u, v) in few
      ensures Connected(many, u, v)
    {
      var k, l :| 0 <= k < l < |a| && (a[k], a[l]) == (u, v) && similarity(u, v) >= threshold;
      assert u in a && v in a;
      var i :| 0 <= i < |b| && b[i] == u;
      var j :| 0 <= j < |b| && b[j] == v;
      if i == j {
        Reflexive(many, u);
      } else {
        assert (b[i], b[j]) in many || (b[j], b[i]) in many;
        Single(many, u, v);
      }
    }
    ClassesLe(few, many, a, b);
  }
}
