/** Gossip at rest gives greedy routing the coordinates it needs. */
module EndToEnd {
  import opened Keys
  import opened Tables
  import opened Coordinates
  import opened NodeSpec
  import opened Gossip
  import opened Greedy
  import opened Convergence

  /** Everybody's own entry. */
  function OwnTable(s: State): (t: Table)
  {
    map a | a in s.nodes && a in s.nodes[a].infos :: s.nodes[a].infos[a]
  }

  /** Every node has an entry of its own whose parent is itself or a peer, and
      peerings go both ways. */
  ghost predicate ParentsArePeers(s: State)
  {
    && (forall a :: a in s.nodes ==> a in s.nodes[a].infos)
    && (forall a, b :: a in s.nodes && b in s.nodes[a].sent ==> Neighbours(s, a, b))
    && (forall a :: a in s.nodes && s.nodes[a].infos[a].parent != a ==> s.nodes[a].infos[a].parent in s.nodes[a].sent)
  }

  /** The parents that the nodes chose form one spanning tree over peerings. */
  ghost predicate ParentsFormTree(s: State, root: Key)
  {
    ParentsArePeers(s) && IsTree(OwnTable(s), root) && PortsDistinct(OwnTable(s))
  }

  ghost predicate SameEntries(t: Table, u: Table, c: seq<Key>)
  {
    forall k :: k in c ==> k in t && k in u && t[k] == u[k]
  }

  lemma {:induction false} SamePorts(t: Table, u: Table, c: seq<Key>)
    requires SameEntries(t, u, c)
    ensures PortsDown(t, c) == PortsDown(u, c)
  {
    if |c| > 1 {
      assert c[0] in c;
      assert forall k :: k in c[1..] ==> k in c;
      SamePorts(t, u, c[1..]);
    }
  }

  /** A table that repeats the entries of a rooted chain has the same chain and coordinates. */
  lemma SameChainSamePath(t: Table, u: Table, x: Key)
    requires Rooted(t, x) && SameEntries(t, u, Chain(t, x, {}))
    ensures Chain(u, x, {}) == Chain(t, x, {}) && Rooted(u, x) && Path(u, x) == Path(t, x)
  {
    var c := Chain(t, x, {});
    ChainIsChain(t, x, {});
    assert c[|c| - 1] in c;
    assert forall i :: 0 <= i < |c| ==> c[i] in c;
    ChainUnique(u, x, {}, c);
    SamePorts(t, u, c);
  }

  /** Neighbours hold the same entries for the ancestry of either. */
  ghost predicate NeighboursAgree(s: State)
  {
    forall a, b :: Neighbours(s, a, b) ==> AgreeAbove(s, a, b, b)
  }

  lemma RestMeansAgreement(s: State)
    requires Inv(s) && Quiescent(s)
    ensures NeighboursAgree(s)
  {
    forall a, b | Neighbours(s, a, b) ensures AgreeAbove(s, a, b, b) {
      QuiescentNeighboursAgree(s, a, b);
    }
  }

  /** The chain of the parent continues where the node's own chain does. */
  lemma ParentChainContinues(g: Table, a: Key, n: nat)
    requires 1 < n <= |Chain(g, a, {})|
    ensures a in g && n - 1 <= |Chain(g, g[a].parent, {})|
    ensures Chain(g, a, {})[..n] == [a] + Chain(g, g[a].parent, {})[..n - 1]
  {
    var c := Chain(g, a, {});
    ChainIsChain(g, a, {});
    var w := c[1..];
    assert forall j :: 0 <= j < |w| ==> w[j] == c[j + 1];
    WalkIsPrefix(g, g[a].parent, w);
    assert c == [a] + w;
    assert c[..n] == [a] + w[..n - 1];
  }

  /** A table with the entries of the first keys of a chain begins its own chain with them. */
  lemma SeenIsChain(g: Table, t: Table, x: Key, n: nat)
    requires 0 < n <= |Chain(g, x, {})|
    requires forall k :: k in Chain(g, x, {})[..n] ==> k in g && k in t && t[k] == g[k]
    ensures Chain(g, x, {})[..n] <= Chain(t, x, {})
  {
    var w := Chain(g, x, {})[..n];
    ChainIsChain(g, x, {});
    assert forall j :: 0 <= j < |w| ==> w[j] in w;
    WalkIsPrefix(t, x, w);
  }

  /** What a neighbour knows of its first `n` ancestors we know too. */
  lemma AncestorsPassedOn(s: State, a: Key, b: Key, n: nat)
    requires NeighboursAgree(s) && Neighbours(s, a, b) && 0 < n <= |Chain(OwnTable(s), b, {})|
    requires SameEntries(OwnTable(s), s.nodes[b].infos, Chain(OwnTable(s), b, {})[..n])
    ensures SameEntries(OwnTable(s), s.nodes[a].infos, Chain(OwnTable(s), b, {})[..n])
  {
    var g, u := OwnTable(s), s.nodes[b].infos;
    SeenIsChain(g, u, b, n);
    assert AgreeAbove(s, a, b, b);
    assert forall k :: k in Chain(g, b, {})[..n] ==> k in Chain(u, b, {});
  }

  lemma SameEntriesCons(t: Table, u: Table, k: Key, c: seq<Key>)
    requires k in t && k in u && t[k] == u[k] && SameEntries(t, u, c)
    ensures SameEntries(t, u, [k] + c)
  {
  }

  /** News of every ancestor travels down peer by peer, on cycles too. */
  lemma {:induction false} SeesAncestors(s: State, a: Key, n: nat)
    requires NeighboursAgree(s) && ParentsArePeers(s) && a in s.nodes && 0 < n <= |Chain(OwnTable(s), a, {})|
    ensures SameEntries(OwnTable(s), s.nodes[a].infos, Chain(OwnTable(s), a, {})[..n])
    decreases n
  {
    var g := OwnTable(s);
    var c := Chain(g, a, {});
    if n > 1 {
      var p := ParentIsNeighbour(s, a);
      ParentChainContinues(g, a, n);
      SeesAncestors(s, p, n - 1);
      AncestorsPassedOn(s, a, p, n - 1);
      SameEntriesCons(g, s.nodes[a].infos, a, Chain(g, p, {})[..n - 1]);
    } else {
      assert c[..n] == [a];
    }
  }

  lemma ParentIsNeighbour(s: State, a: Key) returns (p: Key)
    requires ParentsArePeers(s) && a in s.nodes && |Chain(OwnTable(s), a, {})| > 1
    ensures a in OwnTable(s) && p == OwnTable(s)[a].parent && Neighbours(s, a, p)
  {
    var g := OwnTable(s);
    p := g[a].parent;
    if p == a { RootPath(g, a); }
  }

  /** Every node's view of its own ancestry is the ancestors' own view. */
  lemma OwnAncestryIsTrue(s: State, a: Key)
    requires NeighboursAgree(s) && ParentsArePeers(s) && a in s.nodes
    ensures SameEntries(OwnTable(s), s.nodes[a].infos, Chain(OwnTable(s), a, {}))
    ensures Chain(s.nodes[a].infos, a, {}) == Chain(OwnTable(s), a, {})
  {
    var c := Chain(OwnTable(s), a, {});
    SeesAncestors(s, a, |c|);
    assert c[..|c|] == c;
    SameChain(s, s.nodes[a].infos, a);
  }

  lemma SameChain(s: State, t: Table, x: Key)
    requires ParentsArePeers(s) && SameEntries(OwnTable(s), t, Chain(OwnTable(s), x, {})) && x in s.nodes
    ensures Chain(t, x, {}) == Chain(OwnTable(s), x, {})
  {
    var g := OwnTable(s);
    var c := Chain(g, x, {});
    ChainIsChain(g, x, {});
    assert forall i :: 0 <= i < |c| ==> c[i] in c;
    var last := c[|c| - 1];
    assert last in g;
    assert g[last].parent in g;
    ChainUnique(t, x, {}, c);
  }

  /** So is its view of a neighbour's ancestry. */
  lemma NeighbourAncestryIsTrue(s: State, a: Key, b: Key)
    requires NeighboursAgree(s) && ParentsArePeers(s) && a in s.nodes && b in s.nodes[a].sent
    ensures b in s.nodes && SameEntries(OwnTable(s), s.nodes[a].infos, Chain(OwnTable(s), b, {}))
    ensures Chain(s.nodes[a].infos, b, {}) == Chain(OwnTable(s), b, {})
  {
    var g := OwnTable(s);
    assert Neighbours(s, a, b);
    OwnAncestryIsTrue(s, b);
    assert AgreeAbove(s, a, b, b);
  }

  function Views(s: State): (net: map<Key, View>)
  {
    map a | a in s.nodes :: View(a, s.nodes[a].infos, s.nodes[a].sent.Keys)
  }

  /** A quiescent gossip state whose parents form a spanning tree is converged
      in the sense that greedy delivery needs. */
  lemma QuiescentIsConverged(s: State, root: Key)
    requires Inv(s) && Quiescent(s) && ParentsFormTree(s, root)
    ensures Converged(Views(s), OwnTable(s), root)
  {
    RestMeansAgreement(s);
    AgreementIsConverged(s, root);
  }

  lemma AgreementIsConverged(s: State, root: Key)
    requires NeighboursAgree(s) && ParentsFormTree(s, root)
    ensures Converged(Views(s), OwnTable(s), root)
  {
    var g, net := OwnTable(s), Views(s);
    assert net.Keys == g.Keys;
    forall n | n in net ensures Path(net[n].infos, n) == Path(g, n) {
      OwnAncestryIsTrue(s, n);
      SameChainSamePath(g, s.nodes[n].infos, n);
    }
    forall n, m | n in net && m in net[n].peers ensures m in net && Path(net[n].infos, m) == Path(g, m) {
      assert Neighbours(s, n, m);
      NeighbourAncestryIsTrue(s, n, m);
      SameChainSamePath(g, s.nodes[n].infos, m);
    }
    forall n, m | n in net && TreeEdge(g, n, m) ensures m in net[n].peers {
      if g[n].parent == m {
      } else {
        assert Neighbours(s, m, n);
      }
    }
  }

  /** From gossip to delivery: any fair run of the gossip protocol whose nodes
      keep their own entries reaches a state from which, if the parents chosen
      form a spanning tree, every packet is delivered whatever hops are chosen. */
  lemma GossipThenDelivery(states: nat -> State, steps: nat -> Step, u: set<Ann>) returns (j: nat)
    requires GossipRun(states, steps) && Fair(states, steps)
    requires Universe(u) && Within(states(0), u) && Inv(states(0))
    ensures forall t: nat :: j <= t ==> states(t) == states(j)
    ensures forall root, dst :: ParentsFormTree(states(j), root) && dst in states(j).nodes ==>
              Delivers(Views(states(j)), OwnTable(states(j)), dst)
  {
    j := GossipConverges(states, steps, u);
    InvAlongGossip(states, steps, j);
    forall root, dst | ParentsFormTree(states(j), root) && dst in states(j).nodes
      ensures Delivers(Views(states(j)), OwnTable(states(j)), dst)
    {
      QuiescentIsConverged(states(j), root);
      GreedyDelivery(Views(states(j)), OwnTable(states(j)), root, dst);
    }
  }
}
