/** Tree coordinates and tree distance (`_getDist`, ironwood/network/router.go). */
module Coordinates {
  import opened Basics
  import opened Keys
  import opened Tables

  /** Length of the longest common prefix. */
  function Common(p: seq<Port>, q: seq<Port>): (n: nat)
    ensures n <= |p| && n <= |q|
  {
    if p == [] || q == [] || p[0] != q[0] then 0 else 1 + Common(p[1..], q[1..])
  }

  /** `_getDist`: both lengths, less two for every shared leading port. */
  function Dist(p: seq<Port>, q: seq<Port>): (d: nat)
  {
    |p| + |q| - 2 * Common(p, q)
  }

  lemma {:induction false} CommonIsPrefix(p: seq<Port>, q: seq<Port>)
    ensures p[..Common(p, q)] == q[..Common(p, q)]
    ensures Common(p, q) < |p| && Common(p, q) < |q| ==> p[Common(p, q)] != q[Common(p, q)]
  {
    if p == [] || q == [] || p[0] != q[0] {
    } else {
      CommonIsPrefix(p[1..], q[1..]);
      var n := Common(p[1..], q[1..]);
      assert p[..n + 1] == [p[0]] + p[1..][..n];
      assert q[..n + 1] == [q[0]] + q[1..][..n];
    }
  }

  lemma {:induction false} CommonUnique(p: seq<Port>, q: seq<Port>, n: nat)
    requires n <= |p| && n <= |q| && p[..n] == q[..n]
    requires n < |p| && n < |q| ==> p[n] != q[n]
    ensures Common(p, q) == n
  {
    if n > 0 {
      assert p[..n][0] == q[..n][0];
      assert p[1..][..n - 1] == p[..n][1..];
      assert q[1..][..n - 1] == q[..n][1..];
      CommonUnique(p[1..], q[1..], n - 1);
    }
  }

  lemma DistZero(p: seq<Port>, q: seq<Port>)
    ensures Dist(p, q) == 0 <==> p == q
  {
    CommonIsPrefix(p, q);
    if p == q {
      CommonUnique(p, q, |p|);
    }
    if Dist(p, q) == 0 {
      assert p[..|p|] == p && q[..|q|] == q;
    }
  }

  lemma DistSymmetric(p: seq<Port>, q: seq<Port>)
    ensures Dist(p, q) == Dist(q, p)
  {
    CommonIsPrefix(p, q);
    CommonUnique(q, p, Common(p, q));
  }

  /** One step down changes the distance to any target by exactly one, and
      brings it nearer exactly when the target lies that way. */
  lemma DistChild(p: seq<Port>, x: Port, q: seq<Port>)
    ensures Dist(p + [x], q) == if p + [x] <= q then Dist(p, q) - 1 else Dist(p, q) + 1
  {
    CommonIsPrefix(p, q);
    var n := Common(p, q);
    var c := p + [x];
    if c <= q {
      assert q[..|p|] == c[..|p|] == p;
      CommonUnique(p, q, |p|);
      CommonUnique(c, q, |c|);
    } else {
      assert c[..n] == p[..n];
      assert n == |p| && n < |q| ==> q[..n + 1] == p + [q[n]];
      CommonUnique(c, q, n);
    }
  }

  // ------------------------------------------------------ coordinates in a tree

  /** A table in which every chain of a known node ends at the one root. */
  ghost predicate IsTree(t: Table, root: Key)
  {
    && root in t && t[root].parent == root
    && (forall k :: k in t ==> Rooted(t, k) && Root(t, k) == root)
  }

  /** Siblings have distinct non-zero ports. */
  ghost predicate PortsDistinct(t: Table)
  {
    && (forall k :: k in t && t[k].parent != k ==> t[k].port != 0)
    && (forall j, k | j in t && k in t && t[j].parent != j && t[k].parent != k ::
          t[j].parent == t[k].parent && t[j].port == t[k].port ==> j == k)
  }

  /** The chain of a non-root node is the node on top of its parent's chain. */
  lemma RootedParent(t: Table, k: Key)
    requires Rooted(t, k) && t[k].parent != k
    ensures var p := t[k].parent;
            p in t && Rooted(t, p) && Chain(t, k, {}) == [k] + Chain(t, p, {}) && Root(t, p) == Root(t, k)
  {
    var c := Chain(t, k, {});
    ChainIsChain(t, k, {});
    var rest := c[1..];
    assert c == [k] + rest;
    assert c[0] == k && t[c[|c| - 1]].parent == c[|c| - 1];
    assert forall i :: 0 <= i < |rest| ==> rest[i] == c[i + 1];
    assert rest[|rest| - 1] == c[|c| - 1];
    ChainUnique(t, t[k].parent, {}, rest);
  }

  lemma RootPath(t: Table, k: Key)
    requires k in t && t[k].parent == k
    ensures Chain(t, k, {}) == [k] && Rooted(t, k) && Path(t, k) == [] && Root(t, k) == k
  {
    ChainUnique(t, k, {}, [k]);
  }

  /** A node's coordinates are its parent's followed by its own port. */
  lemma PathOfChild(t: Table, k: Key)
    requires Rooted(t, k) && t[k].parent != k
    ensures t[k].parent in t && Rooted(t, t[k].parent)
    ensures Path(t, k) == Path(t, t[k].parent) + [t[k].port]
  {
    RootedParent(t, k);
    assert Chain(t, k, {})[1..] == Chain(t, t[k].parent, {});
  }

  /** Distinct nodes have distinct coordinates. */
  lemma {:induction false} PathInjective(t: Table, root: Key, j: Key, k: Key)
    requires IsTree(t, root) && PortsDistinct(t) && j in t && k in t && Path(t, j) == Path(t, k)
    ensures j == k
    decreases |Path(t, j)|
  {
    if t[j].parent == j { RootPath(t, j); } else { PathOfChild(t, j); }
    if t[k].parent == k { RootPath(t, k); } else { PathOfChild(t, k); }
    if t[j].parent != j && t[k].parent != k {
      var pj, pk := Path(t, t[j].parent), Path(t, t[k].parent);
      assert Path(t, j)[..|pj|] == pj && Path(t, k)[..|pk|] == pk;
      assert Path(t, j)[|pj|] == t[j].port && Path(t, k)[|pk|] == t[k].port;
      PathInjective(t, root, t[j].parent, t[k].parent);
    } else {
      assert t[j].parent == j && t[k].parent == k;
      assert Root(t, j) == root && Root(t, k) == root;
    }
  }

  /** Some node on the way from the root to `k` owns any prefix of its coordinates. */
  lemma {:induction false} AncestorAt(t: Table, k: Key, n: nat) returns (a: Key)
    requires Rooted(t, k) && n <= |Path(t, k)|
    ensures a in t && Rooted(t, a) && Path(t, a) == Path(t, k)[..n]
    decreases |Path(t, k)|
  {
    KnownIfRooted(t, k);
    if n == |Path(t, k)| {
      a := k;
      assert Path(t, k)[..n] == Path(t, k);
    } else {
      var p := t[k].parent;
      NotRootIfDeep(t, k);
      PathOfChild(t, k);
      var up := Path(t, p);
      assert Path(t, k)[..n] == up[..n];
      a := AncestorAt(t, p, n);
    }
  }

  lemma KnownIfRooted(t: Table, k: Key)
    requires Rooted(t, k)
    ensures k in t
  {
  }

  lemma NotRootIfDeep(t: Table, k: Key)
    requires Rooted(t, k) && Path(t, k) != []
    ensures k in t && t[k].parent != k
  {
    if t[k].parent == k { RootPath(t, k); }
  }

  // -------------------------------------------- distance is hop count in the tree

  ghost predicate TreeEdge(t: Table, a: Key, b: Key)
  {
    a in t && b in t && a != b && (t[a].parent == b || t[b].parent == a)
  }

  ghost predicate IsWalk(t: Table, w: seq<Key>)
  {
    && |w| > 0
    && (forall i :: 0 <= i < |w| ==> w[i] in t)
    && (forall i :: 0 < i < |w| ==> TreeEdge(t, w[i - 1], w[i]))
  }

  /** Crossing a tree edge changes the distance to any coordinates by exactly one. */
  lemma EdgeChangesDistByOne(t: Table, root: Key, a: Key, b: Key, q: seq<Port>)
    requires IsTree(t, root) && TreeEdge(t, a, b)
    ensures Dist(Path(t, a), q) == Dist(Path(t, b), q) + 1 || Dist(Path(t, a), q) == Dist(Path(t, b), q) - 1
  {
    if t[a].parent == b {
      PathOfChild(t, a);
      DistChild(Path(t, b), t[a].port, q);
    } else {
      PathOfChild(t, b);
      DistChild(Path(t, a), t[b].port, q);
    }
  }

  /** The neighbour of `a` on the way to `b`. */
  lemma StepTowards(t: Table, root: Key, a: Key, b: Key) returns (n: Key)
    requires IsTree(t, root) && PortsDistinct(t) && a in t && b in t && a != b
    ensures TreeEdge(t, a, n) && Dist(Path(t, n), Path(t, b)) == Dist(Path(t, a), Path(t, b)) - 1
  {
    var p, q := Path(t, a), Path(t, b);
    if p <= q {
      if p == q { PathInjective(t, root, a, b); }
      n := AncestorAt(t, b, |p| + 1);
      var c := Path(t, n);
      assert c == p + [q[|p|]];
      NotRootIfDeep(t, n);
      PathOfChild(t, n);
      assert c[..|c| - 1] == Path(t, t[n].parent);
      assert c[..|c| - 1] == p;
      PathInjective(t, root, t[n].parent, a);
      DistChild(p, q[|p|], q);
    } else {
      NotRootIfDeep(t, a);
      PathOfChild(t, a);
      n := t[a].parent;
      DistChild(Path(t, n), t[a].port, q);
    }
  }

  lemma {:induction false} WalkAtLeastDist(t: Table, root: Key, w: seq<Key>)
    requires IsTree(t, root) && IsWalk(t, w)
    ensures Dist(Path(t, w[0]), Path(t, w[|w| - 1])) <= |w| - 1
    decreases |w|
  {
    if |w| == 1 {
      DistZero(Path(t, w[0]), Path(t, w[0]));
    } else {
      WalkAtLeastDist(t, root, w[1..]);
      EdgeChangesDistByOne(t, root, w[0], w[1], Path(t, w[|w| - 1]));
    }
  }

  lemma {:induction false} ShortestWalk(t: Table, root: Key, a: Key, b: Key) returns (w: seq<Key>)
    requires IsTree(t, root) && PortsDistinct(t) && a in t && b in t
    ensures IsWalk(t, w) && w[0] == a && w[|w| - 1] == b && |w| - 1 == Dist(Path(t, a), Path(t, b))
    decreases Dist(Path(t, a), Path(t, b))
  {
    if a == b {
      DistZero(Path(t, a), Path(t, b));
      w := [a];
    } else {
      var n := StepTowards(t, root, a, b);
      var rest := ShortestWalk(t, root, n, b);
      w := [a] + rest;
    }
  }

  /** `_getDist` is tree hop distance: no walk along tree edges is shorter, and
      one has exactly that length. */
  lemma DistIsHopDistance(t: Table, root: Key, a: Key, b: Key)
    requires IsTree(t, root) && PortsDistinct(t) && a in t && b in t
    ensures forall w :: IsWalk(t, w) && w[0] == a && w[|w| - 1] == b ==> Dist(Path(t, a), Path(t, b)) <= |w| - 1
    ensures exists w :: IsWalk(t, w) && w[0] == a && w[|w| - 1] == b && |w| - 1 == Dist(Path(t, a), Path(t, b))
  {
    forall w | IsWalk(t, w) && w[0] == a && w[|w| - 1] == b
      ensures Dist(Path(t, a), Path(t, b)) <= |w| - 1
    {
      WalkAtLeastDist(t, root, w);
    }
    var w := ShortestWalk(t, root, a, b);
  }
}
