/** What the elections of all routers add up to.  With gossip at rest, nobody
    wants to change its parent exactly when the parents form a spanning tree
    whose root is the least key. */
module Spanning {
  import opened Basics
  import opened Keys
  import opened Tables
  import opened Coordinates
  import opened NodeSpec
  import opened Gossip
  import opened RouterTypes
  import opened Election
  import opened EndToEnd
  import opened Greedy
  import opened Convergence
  import Router
  import Multicast
  import Refinement

  /** What the routers hold besides their share of the gossip: links and
      responses, and one outcome of the selection loop at each of them. */
  datatype Polls = Polls(peers: map<Key, map<Key, set<Link>>>, responses: map<Key, map<Key, SigRes>>, cost: Link -> nat,
                         inits: map<Key, Choice>, orders: map<Key, seq<Choice>>)

  /** All peers have answered and the responses were walked in some order. */
  ghost predicate PolledAt(n: Node, a: Key, peers: map<Key, set<Link>>, responses: map<Key, SigRes>, cost: Link -> nat,
                           init: Choice, order: seq<Choice>)
  {
    && peers.Keys == responses.Keys == n.sent.Keys
    && IsInitial(n.infos, a, peers, cost, init)
    && IsOrder(n.infos, a, peers, responses, cost, responses.Keys, order)
  }

  ghost predicate Polled(s: State, v: Polls)
  {
    && v.peers.Keys == v.responses.Keys == v.inits.Keys == v.orders.Keys == s.nodes.Keys
    && forall a :: a in s.nodes ==>
         PolledAt(s.nodes[a], a, v.peers[a], v.responses[a], v.cost, v.inits[a], v.orders[a])
  }

  ghost function Elected(s: State, v: Polls, a: Key): (best: Choice)
    requires Polled(s, v) && a in s.nodes
  {
    ConsiderAll(false, ParentOf(s.nodes[a].infos, a), v.inits[a], v.orders[a])
  }

  /** `_fix` has nothing to do at `a`, outside a refresh. */
  ghost predicate Content(s: State, v: Polls, a: Key)
    requires Polled(s, v) && a in s.nodes
  {
    !Router.MustAct(s.nodes[a].infos, a, Elected(s, v, a), Router.Flags(false, false, false))
  }

  /** Every node has an entry of its own, and peerings go both ways. */
  ghost predicate Peered(s: State)
  {
    && (forall a :: a in s.nodes ==> a in s.nodes[a].infos)
    && (forall a, b :: a in s.nodes && b in s.nodes[a].sent ==> Neighbours(s, a, b))
  }

  /** In addition neighbours agree, as they do once gossip is quiescent. */
  ghost predicate AtRest(s: State) { Peered(s) && NeighboursAgree(s) }

  ghost predicate ClosedPart(s: State, part: set<Key>)
  {
    forall a, b :: a in part && a in s.nodes && b in s.nodes[a].sent ==> b in part
  }

  /** No proper part of the network keeps to itself. */
  ghost predicate Connected(s: State)
  {
    forall part :: ClosedPart(s, part) && part <= s.nodes.Keys && part != {} ==> part == s.nodes.Keys
  }

  /** The parents form a spanning tree over peerings, with the least key as root. */
  ghost predicate LeastSpanningTree(s: State, root: Key)
  {
    ParentsArePeers(s) && IsTree(OwnTable(s), root) && forall a :: a in s.nodes ==> root <= a
  }

  // ------------------------------------------------------ contentment gives a tree

  /** A contented node is its own root, or follows a peer to a root below itself;
      no eligible peer leads lower. */
  lemma ContentNode(s: State, v: Polls, a: Key)
    requires AtRest(s) && Polled(s, v) && a in s.nodes && Content(s, v, a)
    ensures var t := s.nodes[a].infos;
            && (t[a].parent == a || (t[a].parent in s.nodes[a].sent && Root(t, a) < a))
            && Root(t, a) <= a
            && (forall b :: Eligible(t, a, v.responses[a], b) ==> Root(t, a) <= Root(t, b))
  {
    ConfirmedParent(s.nodes[a].infos, a, v.peers[a], v.responses[a], v.cost, false, v.inits[a], v.orders[a]);
  }

  /** A parent that reaches a self-parent takes its child there. */
  lemma RootedChild(t: Table, k: Key)
    requires k in t && Rooted(t, t[k].parent)
    ensures Rooted(t, k)
  {
    var p := t[k].parent;
    var up := Chain(t, p, {});
    KnownIfRooted(t, p);
    if k in up {
      var i :| 0 <= i < |up| && up[i] == k;
      RestIsChain(t, p, i);
    } else {
      assert t[k := t[k]] == t;
      AdoptingLeavesCycles(t, k, t[k]);
    }
  }

  lemma {:induction false} LostUpwards(t: Table, k: Key, i: nat)
    requires !Rooted(t, k) && i < |Chain(t, k, {})|
    ensures !Rooted(t, Chain(t, k, {})[i])
  {
    if i > 0 {
      var c := Chain(t, k, {});
      ChainIsChain(t, k, {});
      LostUpwards(t, k, i - 1);
      if Rooted(t, c[i]) { RootedChild(t, c[i - 1]); }
    }
  }

  /** Everybody's own view shows a root below itself, unless it is one. */
  ghost predicate RootsBelow(g: Table)
  {
    forall a :: a in g ==> Root(g, a) <= a && (g[a].parent == a || Root(g, a) < a)
  }

  /** There is no cycle: where a chain turned back we would find ever smaller keys. */
  lemma {:induction false} EverybodyRooted(g: Table, a: Key)
    requires RootsBelow(g) && a in g
    ensures Rooted(g, a)
    decreases a
  {
    if !Rooted(g, a) {
      var c := Chain(g, a, {});
      if g[a].parent == a { RootPath(g, a); }
      ChainIsChain(g, a, {});
      LostUpwards(g, a, |c| - 1);
      EverybodyRooted(g, Root(g, a));
    }
  }

  lemma ContentParents(s: State, v: Polls)
    requires AtRest(s) && Polled(s, v) && forall a :: a in s.nodes ==> Content(s, v, a)
    ensures ParentsArePeers(s) && RootsBelow(OwnTable(s))
  {
    forall a | a in s.nodes
      ensures s.nodes[a].infos[a].parent != a ==> s.nodes[a].infos[a].parent in s.nodes[a].sent
    {
      ContentNode(s, v, a);
    }
    var g := OwnTable(s);
    forall a | a in g ensures Root(g, a) <= a && (g[a].parent == a || Root(g, a) < a) {
      ContentNode(s, v, a);
      OwnAncestryIsTrue(s, a);
    }
  }

  /** A node's root is no worse than that of any of its peers. */
  lemma RootNoWorse(s: State, v: Polls, a: Key, b: Key)
    requires AtRest(s) && Polled(s, v) && ParentsArePeers(s) && RootsBelow(OwnTable(s))
    requires a in s.nodes && Content(s, v, a) && b in s.nodes[a].sent
    ensures b in s.nodes && Root(OwnTable(s), a) <= Root(OwnTable(s), b)
  {
    var g, t := OwnTable(s), s.nodes[a].infos;
    OwnAncestryIsTrue(s, a);
    NeighbourAncestryIsTrue(s, a, b);
    ContentNode(s, v, a);
    EverybodyRooted(g, b);
    var c := Chain(g, b, {});
    if a in c {
      var i :| 0 <= i < |c| && c[i] == a;
      RestIsChain(g, b, i);
    } else {
      assert b == c[0] && b in c;
      assert Eligible(t, a, v.responses[a], b);
    }
  }

  ghost predicate RootsNoWorse(s: State, g: Table)
  {
    forall a, b :: a in s.nodes && b in s.nodes[a].sent ==>
      b in s.nodes && a in s.nodes[b].sent && Root(g, a) <= Root(g, b)
  }

  lemma ContentRoots(s: State, v: Polls)
    requires AtRest(s) && Polled(s, v) && forall a :: a in s.nodes ==> Content(s, v, a)
    ensures ParentsArePeers(s) && RootsBelow(OwnTable(s)) && RootsNoWorse(s, OwnTable(s))
  {
    ContentParents(s, v);
    forall a, b | a in s.nodes && b in s.nodes[a].sent
      ensures b in s.nodes && a in s.nodes[b].sent && Root(OwnTable(s), a) <= Root(OwnTable(s), b)
    {
      assert Neighbours(s, a, b);
      RootNoWorse(s, v, a, b);
    }
  }

  /** Hence connected nodes all have the same root. */
  lemma SameRoot(s: State, g: Table, x: Key, y: Key)
    requires Connected(s) && RootsNoWorse(s, g) && x in s.nodes && y in s.nodes
    ensures Root(g, x) == Root(g, y)
  {
    var part := set a | a in s.nodes && Root(g, a) == Root(g, x);
    assert ClosedPart(s, part) && x in part;
    assert y in part;
  }

  lemma OneTree(s: State, g: Table) returns (root: Key)
    requires Connected(s) && RootsNoWorse(s, g) && RootsBelow(g) && g.Keys == s.nodes.Keys && g != map[]
    ensures IsTree(g, root) && forall k :: k in g ==> root <= k
  {
    var x :| x in g;
    root := Root(g, x);
    forall k | k in g ensures Rooted(g, k) && Root(g, k) == root && root <= k {
      EverybodyRooted(g, k);
      SameRoot(s, g, x, k);
    }
    RootIsSelfParent(g, x);
  }

  lemma ContentMeansTree(s: State, v: Polls) returns (root: Key)
    requires AtRest(s) && Polled(s, v) && Connected(s) && s.nodes != map[]
    requires forall a :: a in s.nodes ==> Content(s, v, a)
    ensures LeastSpanningTree(s, root)
  {
    ContentRoots(s, v);
    OwnTableIsTotal(s);
    root := OneTree(s, OwnTable(s));
  }

  lemma OwnTableIsTotal(s: State)
    requires forall a :: a in s.nodes ==> a in s.nodes[a].infos
    ensures OwnTable(s).Keys == s.nodes.Keys
    ensures OwnTable(s) == map[] ==> s.nodes == map[]
  {
    assert forall a :: a in s.nodes <==> a in OwnTable(s);
  }

  lemma RootIsSelfParent(g: Table, x: Key)
    requires Rooted(g, x)
    ensures Root(g, x) in g && g[Root(g, x)].parent == Root(g, x)
  {
  }

  // ------------------------------------------------------ a tree gives contentment

  /** Every node sees the root of the tree through itself and through each peer. */
  lemma TreeIsSeen(s: State, root: Key, a: Key)
    requires AtRest(s) && LeastSpanningTree(s, root) && a in s.nodes
    ensures Root(s.nodes[a].infos, a) == root <= a
    ensures forall b :: b in s.nodes[a].sent ==> Root(s.nodes[a].infos, b) == root
    ensures var p := s.nodes[a].infos[a].parent; p == a || (p in s.nodes[a].sent && root != a)
  {
    var g, t := OwnTable(s), s.nodes[a].infos;
    OwnTableIsTotal(s);
    OwnAncestryIsTrue(s, a);
    assert Root(t, a) == root;
    forall b | b in s.nodes[a].sent ensures Root(t, b) == root {
      NeighbourAncestryIsTrue(s, a, b);
      assert b in g;
    }
  }

  lemma TreeMeansContent(s: State, v: Polls, root: Key, a: Key)
    requires AtRest(s) && Polled(s, v) && LeastSpanningTree(s, root) && a in s.nodes
    ensures Content(s, v, a)
  {
    TreeIsSeen(s, root, a);
    LeastRootIsKept(s.nodes[a].infos, a, v.peers[a], v.responses[a], v.cost, v.inits[a], v.orders[a]);
  }

  /** With gossip at rest on a connected network, and whatever links cost and in
      whatever order responses were walked: no router wants another parent if and
      only if the parents form a spanning tree rooted at the least key. */
  lemma ElectionSettlesOnLeastTree(s: State, v: Polls)
    requires AtRest(s) && Polled(s, v) && Connected(s) && s.nodes != map[]
    ensures (forall a :: a in s.nodes ==> Content(s, v, a)) <==> (exists root :: LeastSpanningTree(s, root))
  {
    if forall a :: a in s.nodes ==> Content(s, v, a) {
      var root := ContentMeansTree(s, v);
    }
    if root :| LeastSpanningTree(s, root) {
      forall a | a in s.nodes ensures Content(s, v, a) {
        TreeMeansContent(s, v, root, a);
      }
    }
  }

  // ------------------------------------------------------------- the whole stack

  /** Every entry carries the port that its parent's allocator gave to the node:
      non-zero and different for each peer (`Ports.Peers.Valid`). */
  ghost predicate PortsAssigned(g: Table, ports: map<Key, map<Key, Port>>)
  {
    && (forall p, k :: p in ports && k in ports[p] ==> ports[p][k] != 0)
    && (forall p, j, k :: p in ports && j in ports[p] && k in ports[p] && ports[p][j] == ports[p][k] ==> j == k)
    && (forall k :: k in g && g[k].parent != k ==>
          g[k].parent in ports && k in ports[g[k].parent] && g[k].port == ports[g[k].parent][k])
  }

  /** Nobody wants another parent, on a connected network. */
  ghost predicate ElectionOver(s: State, v: Polls, ports: map<Key, map<Key, Port>>)
  {
    && Peered(s) && Polled(s, v) && Connected(s) && s.nodes != map[]
    && (forall a :: a in s.nodes ==> Content(s, v, a))
    && PortsAssigned(OwnTable(s), ports)
  }

  /** One spanning tree under the least key, over which every packet arrives. */
  ghost predicate Routes(s: State, root: Key)
  {
    && LeastSpanningTree(s, root)
    && Converged(Views(s), OwnTable(s), root)
    && (forall dst :: dst in s.nodes ==> Delivers(Views(s), OwnTable(s), dst))
  }

  lemma AssignedPortsDistinct(g: Table, ports: map<Key, map<Key, Port>>)
    requires PortsAssigned(g, ports)
    ensures PortsDistinct(g)
  {
  }

  lemma TreeRoutes(s: State, root: Key)
    requires NeighboursAgree(s) && LeastSpanningTree(s, root) && PortsDistinct(OwnTable(s))
    ensures Routes(s, root)
  {
    AgreementIsConverged(s, root);
    var net, g := Views(s), OwnTable(s);
    forall dst | dst in s.nodes ensures Delivers(net, g, dst) {
      GreedyDelivery(net, g, root, dst);
    }
  }

  lemma SettledRoutes(s: State, v: Polls, ports: map<Key, map<Key, Port>>) returns (root: Key)
    requires NeighboursAgree(s) && ElectionOver(s, v, ports)
    ensures Routes(s, root)
  {
    root := ContentMeansTree(s, v);
    AssignedPortsDistinct(OwnTable(s), ports);
    TreeRoutes(s, root);
  }

  /** From gossip and election to delivery.  Take any fair run of the gossip
      protocol; once it has come to rest, if no router wants another parent, the
      parents form one spanning tree under the least key and every packet
      reaches its destination, whatever next hops are chosen. */
  lemma GossipElectsAndDelivers(states: nat -> State, steps: nat -> Step, u: set<Ann>) returns (j: nat)
    requires GossipRun(states, steps) && Fair(states, steps)
    requires Universe(u) && Within(states(0), u) && Inv(states(0))
    ensures forall t: nat :: j <= t ==> states(t) == states(j)
    ensures forall v, ports :: ElectionOver(states(j), v, ports) ==> exists root :: Routes(states(j), root)
  {
    j := GossipConverges(states, steps, u);
    var s := states(j);
    assert NeighboursAgree(s);
    forall v, ports | ElectionOver(s, v, ports) ensures exists root :: Routes(s, root) {
      var root := SettledRoutes(s, v, ports);
    }
  }

  function Known(s: State): (ts: map<Key, Table>) { map a | a in s.nodes :: s.nodes[a].infos }

  /** Filters are kept for exactly the peers, nobody peers with itself, and the
      last filter sent over a tree link has been received. */
  ghost predicate FiltersExchanged(s: State, n: Multicast.Net)
  {
    && n.blooms.Keys == s.nodes.Keys
    && (forall a :: a in s.nodes ==> n.blooms[a].Keys == s.nodes[a].sent.Keys && a !in s.nodes[a].sent)
    && (forall a, b :: a in s.nodes && b in s.nodes && b in n.blooms[a] && a in n.blooms[b] && TreeEdge(n.t, a, b) ==>
          n.blooms[b][a].recv == n.blooms[a][b].send)
  }

  lemma PeersAreKnown(s: State, a: Key, b: Key)
    requires AtRest(s) && ParentsArePeers(s) && a in s.nodes && b in s.nodes[a].sent
    ensures b in OwnTable(s) && b in Known(s)[a] && Known(s)[a][b] == OwnTable(s)[b]
  {
    NeighbourAncestryIsTrue(s, a, b);
    assert b == Chain(OwnTable(s), b, {})[0];
  }

  lemma TreeEdgesArePeerings(s: State, a: Key, b: Key)
    requires ParentsArePeers(s) && TreeEdge(OwnTable(s), a, b)
    ensures Neighbours(s, a, b)
  {
    if OwnTable(s)[a].parent == b { assert Neighbours(s, a, b); } else { assert Neighbours(s, b, a); }
  }

  lemma FiltersConnect(s: State, n: Multicast.Net)
    requires AtRest(s) && ParentsArePeers(s) && n.t == OwnTable(s) && FiltersExchanged(s, n)
    ensures n.blooms.Keys == n.t.Keys == Known(s).Keys && Refinement.WellConnected(n, Known(s))
  {
    OwnTableIsTotal(s);
    forall a, b | a in n.t && b in n.blooms[a] ensures b in n.t && b in Known(s)[a] && Known(s)[a][b] == n.t[b] {
      PeersAreKnown(s, a, b);
    }
    forall a, b | TreeEdge(n.t, a, b)
      ensures b in n.blooms[a] && a in n.blooms[b] && n.blooms[b][a].recv == n.blooms[a][b].send
    {
      TreeEdgesArePeerings(s, a, b);
    }
  }

  /** On such a tree, once every router has maintained its filters, lookups are
      settled too: they reach every node that matches. */
  lemma LookupsSettle(s: State, n: Multicast.Net)
    requires AtRest(s) && LeastSpanningTree(s, n.root) && n.t == OwnTable(s)
    requires FiltersExchanged(s, n) && Refinement.Maintained(n, Known(s))
    ensures Multicast.Settled(n)
  {
    FiltersConnect(s, n);
    Refinement.MaintenanceSettles(n, Known(s));
  }

  // ---------------------------------------------------------- the smallest example

  const PAIR: Table := map[1 := Info(1, 1, 0, 0, 0, 0), 2 := Info(1, 1, 0, 1, 0, 0)]
  const LINK1: Link := Link(1, 0, 0, 0)
  const LINK2: Link := Link(2, 0, 0, 0)
  const ANSWER: SigRes := SigRes(SigReq(1, 0), 1, 0)

  /** Two routers, the second below the first, that have told each other everything. */
  function Pair(): (s: State)
  {
    State(map[1 := Node(PAIR, map[2 := {1, 2}]), 2 := Node(PAIR, map[1 := {1, 2}])], [])
  }

  function PairPolls(): (v: Polls)
  {
    Polls(map[1 := map[2 := {LINK2}], 2 := map[1 := {LINK1}]], map[1 := map[2 := ANSWER], 2 := map[1 := ANSWER]],
          l => 1, map[1 := Choice(1, 1, MAX64), 2 := Choice(1, 1, 1)], map[1 := [], 2 := [Choice(1, 1, 0)]])
  }

  lemma PairChains()
    ensures Chain(PAIR, 1, {}) == [1] && Chain(PAIR, 2, {}) == [2, 1]
  {
    ChainUnique(PAIR, 1, {}, [1]);
    ChainUnique(PAIR, 2, {}, [2, 1]);
  }

  lemma PairConnected()
    ensures Connected(Pair())
  {
    forall part | ClosedPart(Pair(), part) && part <= Pair().nodes.Keys && part != {}
      ensures part == Pair().nodes.Keys
    {
      var x :| x in part;
      assert 1 in part && 2 in part;
    }
  }

  lemma FirstPolled(cost: Link -> nat)
    ensures PolledAt(Node(PAIR, map[2 := {1, 2}]), 1, map[2 := {LINK2}], map[2 := ANSWER], cost, Choice(1, 1, MAX64),
                     [])
  {
    PairChains();
  }

  lemma SecondPolled(cost: Link -> nat)
    requires cost(LINK1) == 1
    ensures PolledAt(Node(PAIR, map[1 := {1, 2}]), 2, map[1 := {LINK1}], map[1 := ANSWER], cost, Choice(1, 1, 1),
                     [Choice(1, 1, 0)])
  {
    PairChains();
    assert Mul64(1, cost(LINK1)) == 1 && Mul64(0, cost(LINK1)) == 0;
    assert Parents([Choice(1, 1, 0)]) == {1};
  }

  lemma PairPolled()
    ensures Polled(Pair(), PairPolls())
  {
    FirstPolled(PairPolls().cost);
    SecondPolled(PairPolls().cost);
  }

  lemma PairOwnTable()
    ensures OwnTable(Pair()) == PAIR && ParentsArePeers(Pair()) && NeighboursAgree(Pair())
  {
    var s := Pair();
    assert s.nodes[1].infos == PAIR && s.nodes[2].infos == PAIR;
    forall a, b | Neighbours(s, a, b) ensures AgreeAbove(s, a, b, b) {
      assert (a == 1 || a == 2) && (b == 1 || b == 2);
      ChainIsChain(PAIR, b, {});
    }
  }

  lemma PairIsTree()
    ensures IsTree(PAIR, 1)
  {
    PairChains();
  }

  lemma PairOwesNothing()
    ensures Owed(Node(PAIR, map[2 := {1, 2}]), 1, 2) == {} && Owed(Node(PAIR, map[1 := {1, 2}]), 2, 1) == {}
  {
    PairChains();
  }

  lemma PairInv()
    ensures Inv(Pair())
  {
    var s := Pair();
    assert s.nodes[1].infos == PAIR && s.nodes[2].infos == PAIR;
    forall a, b, k ensures SentIsKnown(s, a, b, k) {
      if a in s.nodes && b in s.nodes[a].sent && k in s.nodes[a].sent[b] {
        assert Holds(s, b, k, PAIR[k]);
      }
    }
  }

  lemma PairIsQuiescent()
    ensures Quiescent(Pair())
  {
    PairOwesNothing();
  }

  lemma PairTree()
    ensures LeastSpanningTree(Pair(), 1) && AtRest(Pair())
  {
    PairOwnTable();
    PairIsTree();
  }

  lemma PairPorts()
    ensures PortsAssigned(OwnTable(Pair()), map[1 := map[2 := 1]])
  {
    PairOwnTable();
  }

  lemma TreeEndsElection(s: State, v: Polls, ports: map<Key, map<Key, Port>>, root: Key)
    requires AtRest(s) && Polled(s, v) && Connected(s) && s.nodes != map[]
    requires LeastSpanningTree(s, root) && PortsAssigned(OwnTable(s), ports)
    ensures ElectionOver(s, v, ports)
  {
    forall a | a in s.nodes ensures Content(s, v, a) {
      TreeMeansContent(s, v, root, a);
    }
  }

  /** The hypotheses above can be met together, by more than a lone router. */
  lemma PairSettles()
    ensures AtRest(Pair()) && ElectionOver(Pair(), PairPolls(), map[1 := map[2 := 1]])
  {
    PairConnected();
    PairPolled();
    PairTree();
    PairPorts();
    TreeEndsElection(Pair(), PairPolls(), map[1 := map[2 := 1]], 1);
  }
}
