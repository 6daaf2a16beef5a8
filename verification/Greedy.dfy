/** Greedy forwarding in tree space (`_lookup`, `handleTraffic`, `_handleNotify`,
    `_handleBroken`), as what one router may do with a packet. */
module Greedy {
  import opened Keys
  import opened Tables
  import opened Coordinates

  /** What a router consults when it forwards. */
  datatype View = View(self: Key, infos: Table, peers: set<Key>)

  function DistFrom(v: View, k: Key, path: seq<Port>): (d: nat)
  {
    Dist(Path(v.infos, k), path)
  }

  /** The packet leaves towards `next`: the router is nearer than the watermark,
      which drops to its own distance, and `next` is strictly nearer still. */
  predicate Forwards(v: View, path: seq<Port>, watermark: nat, next: Key, watermark': nat)
  {
    && DistFrom(v, v.self, path) < watermark
    && watermark' == DistFrom(v, v.self, path)
    && next in v.peers
    && DistFrom(v, next, path) < watermark'
  }

  /** `_lookup` finds no next hop. */
  predicate Stops(v: View, path: seq<Port>, watermark: nat)
  {
    || watermark <= DistFrom(v, v.self, path)
    || forall k :: k in v.peers ==> DistFrom(v, v.self, path) <= DistFrom(v, k, path)
  }

  // ------------------------------------------------------------------ hop bound

  /** A packet passing through arbitrary routers whose tables may change
      between any two hops; nothing ties one view to the next. */
  ghost predicate HopRun(views: seq<View>, nexts: seq<Key>, wms: seq<nat>, path: seq<Port>)
  {
    && |nexts| == |views| && |wms| == |views| + 1
    && forall i :: 0 <= i < |views| ==> Forwards(views[i], path, wms[i], nexts[i], wms[i + 1])
  }

  lemma {:induction false} WatermarkFalls(views: seq<View>, nexts: seq<Key>, wms: seq<nat>, path: seq<Port>, i: nat)
    requires HopRun(views, nexts, wms, path) && i < |views|
    ensures wms[i + 1] + i <= DistFrom(views[0], views[0].self, path)
  {
    if i > 0 {
      WatermarkFalls(views, nexts, wms, path, i - 1);
      assert Forwards(views[i], path, wms[i], nexts[i], wms[i + 1]);
    } else {
      assert Forwards(views[0], path, wms[0], nexts[0], wms[1]);
    }
  }

  /** A packet is forwarded at most d0 times, where d0 is the distance that its
      first forwarding router computed, however the tables change. */
  lemma HopBound(views: seq<View>, nexts: seq<Key>, wms: seq<nat>, path: seq<Port>)
    requires HopRun(views, nexts, wms, path) && views != []
    ensures |views| <= DistFrom(views[0], views[0].self, path)
  {
    var last := |views| - 1;
    WatermarkFalls(views, nexts, wms, path, last);
    assert Forwards(views[last], path, wms[last], nexts[last], wms[last + 1]);
  }

  // ------------------------------------------------------------------- delivery

  /** Every router's coordinates for itself and its peers are those of one
      spanning tree, and tree edges are peerings. */
  ghost predicate Converged(net: map<Key, View>, t: Table, root: Key)
  {
    && IsTree(t, root) && PortsDistinct(t)
    && net.Keys == t.Keys
    && (forall n :: n in net ==>
          && net[n].self == n
          && net[n].peers <= net.Keys
          && Path(net[n].infos, n) == Path(t, n))
    && (forall n, m :: n in net && m in net[n].peers ==> Path(net[n].infos, m) == Path(t, m))
    && (forall n, m :: n in net && TreeEdge(t, n, m) ==> m in net[n].peers)
  }

  /** A route through the network: every hop is one that the router allows. */
  ghost predicate Route(net: map<Key, View>, path: seq<Port>, nodes: seq<Key>, wms: seq<nat>)
  {
    && |nodes| > 0 && |wms| == |nodes|
    && (forall i :: 0 <= i < |nodes| ==> nodes[i] in net)
    && (forall i :: 0 <= i < |nodes| - 1 ==> Forwards(net[nodes[i]], path, wms[i], nodes[i + 1], wms[i + 1]))
  }

  /** On a converged network a router other than the destination always has a
      next hop, and the destination has none. */
  lemma StopsExactlyAtDestination(net: map<Key, View>, t: Table, root: Key, n: Key, dst: Key, wm: nat)
    requires Converged(net, t, root) && n in net && dst in net
    requires Dist(Path(t, n), Path(t, dst)) < wm
    ensures Stops(net[n], Path(t, dst), wm) <==> n == dst
  {
    if n == dst {
      DistZero(Path(t, dst), Path(t, dst));
      assert DistFrom(net[n], net[n].self, Path(t, dst)) == 0;
    } else {
      var next := NearerPeer(net, t, root, n, dst);
    }
  }

  lemma NearerPeer(net: map<Key, View>, t: Table, root: Key, n: Key, dst: Key) returns (next: Key)
    requires Converged(net, t, root) && n in net && dst in net && n != dst
    ensures next in net[n].peers && DistFrom(net[n], next, Path(t, dst)) < DistFrom(net[n], net[n].self, Path(t, dst))
    ensures DistFrom(net[n], net[n].self, Path(t, dst)) == Dist(Path(t, n), Path(t, dst))
  {
    next := StepTowards(t, root, n, dst);
    assert TreeEdge(t, n, next);
    assert Path(net[n].infos, n) == Path(t, n) && Path(net[n].infos, next) == Path(t, next);
  }

  /** One hop on a converged network: nearer, and the watermark is the distance left behind. */
  lemma HopGetsNearer(net: map<Key, View>, t: Table, root: Key, dst: Key, n: Key, next: Key, wm: nat, wm': nat)
    requires Converged(net, t, root) && dst in net && n in net && Forwards(net[n], Path(t, dst), wm, next, wm')
    ensures next in net && wm' == Dist(Path(t, n), Path(t, dst))
    ensures Dist(Path(t, next), Path(t, dst)) < wm'
  {
    assert Path(net[n].infos, n) == Path(t, n) && Path(net[n].infos, next) == Path(t, next);
  }

  lemma RouteHop(net: map<Key, View>, path: seq<Port>, nodes: seq<Key>, wms: seq<nat>, k: nat)
    requires Route(net, path, nodes, wms) && k + 1 < |nodes|
    ensures nodes[k] in net && Forwards(net[nodes[k]], path, wms[k], nodes[k + 1], wms[k + 1])
  {
  }

  lemma {:induction false} RouteGetsNearer(net: map<Key, View>, t: Table, root: Key, dst: Key, nodes: seq<Key>,
                                           wms: seq<nat>, i: nat)
    requires Converged(net, t, root) && dst in net && Route(net, Path(t, dst), nodes, wms) && i < |nodes|
    requires Dist(Path(t, nodes[0]), Path(t, dst)) < wms[0]
    ensures i + Dist(Path(t, nodes[i]), Path(t, dst)) <= Dist(Path(t, nodes[0]), Path(t, dst))
    ensures Dist(Path(t, nodes[i]), Path(t, dst)) < wms[i]
  {
    if i > 0 {
      var k := i - 1;
      RouteGetsNearer(net, t, root, dst, nodes, wms, k);
      RouteHop(net, Path(t, dst), nodes, wms, k);
      HopGetsNearer(net, t, root, dst, nodes[k], nodes[i], wms[k], wms[i]);
    }
  }

  /** Every route towards `dst` is no longer than the tree distance, and the
      router where it cannot continue is `dst`. */
  ghost predicate Delivers(net: map<Key, View>, t: Table, dst: Key)
  {
    forall nodes, wms | Route(net, Path(t, dst), nodes, wms) && Dist(Path(t, nodes[0]), Path(t, dst)) < wms[0] ::
      && |nodes| - 1 <= Dist(Path(t, nodes[0]), Path(t, dst))
      && (Stops(net[nodes[|nodes| - 1]], Path(t, dst), wms[|nodes| - 1]) <==> nodes[|nodes| - 1] == dst)
  }

  /** Greedy delivery: on a converged network, whatever next hop is picked among
      the allowed ones (that is, whatever the link costs). */
  lemma GreedyDelivery(net: map<Key, View>, t: Table, root: Key, dst: Key)
    requires Converged(net, t, root) && dst in net
    ensures Delivers(net, t, dst)
  {
    forall nodes, wms | Route(net, Path(t, dst), nodes, wms) && Dist(Path(t, nodes[0]), Path(t, dst)) < wms[0]
      ensures |nodes| - 1 <= Dist(Path(t, nodes[0]), Path(t, dst))
      ensures Stops(net[nodes[|nodes| - 1]], Path(t, dst), wms[|nodes| - 1]) <==> nodes[|nodes| - 1] == dst
    {
      var last := |nodes| - 1;
      RouteGetsNearer(net, t, root, dst, nodes, wms, last);
      StopsExactlyAtDestination(net, t, root, nodes[last], dst, wms[last]);
    }
  }

  /** A choice of next hop at every router, for every watermark. */
  ghost predicate Chooses(net: map<Key, View>, path: seq<Port>, choose: (Key, nat) -> Key)
  {
    forall n, wm: nat :: n in net && !Stops(net[n], path, wm) ==>
      Forwards(net[n], path, wm, choose(n, wm), DistFrom(net[n], net[n].self, path))
  }

  lemma RouteCons(net: map<Key, View>, path: seq<Port>, n: Key, wm: nat, nodes: seq<Key>, wms: seq<nat>)
    requires n in net && Route(net, path, nodes, wms) && Forwards(net[n], path, wm, nodes[0], wms[0])
    ensures Route(net, path, [n] + nodes, [wm] + wms)
  {
  }

  /** The route is the one that `choose` picks. */
  ghost predicate Chosen(choose: (Key, nat) -> Key, nodes: seq<Key>, wms: seq<nat>)
  {
    |nodes| == |wms| && forall i :: 0 <= i < |nodes| - 1 ==> nodes[i + 1] == choose(nodes[i], wms[i])
  }

  lemma ChosenCons(choose: (Key, nat) -> Key, n: Key, wm: nat, nodes: seq<Key>, wms: seq<nat>)
    requires Chosen(choose, nodes, wms) && nodes != [] && nodes[0] == choose(n, wm)
    ensures Chosen(choose, [n] + nodes, [wm] + wms)
  {
  }

  /** The route ends at `dst`, which passes the packet no further. */
  ghost predicate Arrives(net: map<Key, View>, path: seq<Port>, dst: Key, nodes: seq<Key>, wms: seq<nat>)
  {
    nodes != [] && |nodes| == |wms| && dst in net && nodes[|nodes| - 1] == dst && Stops(net[dst], path, wms[|wms| - 1])
  }

  lemma ArrivesCons(net: map<Key, View>, path: seq<Port>, dst: Key, n: Key, wm: nat, nodes: seq<Key>, wms: seq<nat>)
    requires Arrives(net, path, dst, nodes, wms)
    ensures Arrives(net, path, dst, [n] + nodes, [wm] + wms)
  {
  }

  /** The hop that `choose` makes away from a router other than the destination. */
  lemma ChosenHop(net: map<Key, View>, t: Table, root: Key, n: Key, dst: Key, wm: nat, choose: (Key, nat) -> Key)
    returns (wm': nat)
    requires Converged(net, t, root) && n in net && dst in net && n != dst && Chooses(net, Path(t, dst), choose)
    requires Dist(Path(t, n), Path(t, dst)) < wm
    ensures choose(n, wm) in net && Forwards(net[n], Path(t, dst), wm, choose(n, wm), wm')
    ensures wm' == Dist(Path(t, n), Path(t, dst)) && Dist(Path(t, choose(n, wm)), Path(t, dst)) < wm'
  {
    StopsExactlyAtDestination(net, t, root, n, dst, wm);
    wm' := DistFrom(net[n], net[n].self, Path(t, dst));
    HopGetsNearer(net, t, root, dst, n, choose(n, wm), wm, wm');
  }

  /** Following any choice delivers the packet. */
  lemma {:induction false} EveryChoiceDelivers(net: map<Key, View>, t: Table, root: Key, src: Key, dst: Key, wm: nat,
                             choose: (Key, nat) -> Key) returns (nodes: seq<Key>, wms: seq<nat>)
    requires Converged(net, t, root) && src in net && dst in net && Chooses(net, Path(t, dst), choose)
    requires Dist(Path(t, src), Path(t, dst)) < wm
    ensures Route(net, Path(t, dst), nodes, wms) && nodes[0] == src && wms[0] == wm
    ensures Chosen(choose, nodes, wms) && Arrives(net, Path(t, dst), dst, nodes, wms)
    decreases Dist(Path(t, src), Path(t, dst))
  {
    if src == dst {
      StopsExactlyAtDestination(net, t, root, src, dst, wm);
      nodes, wms := [src], [wm];
    } else {
      var d := ChosenHop(net, t, root, src, dst, wm, choose);
      var rest, rwms := EveryChoiceDelivers(net, t, root, choose(src, wm), dst, d, choose);
      RouteCons(net, Path(t, dst), src, wm, rest, rwms);
      ChosenCons(choose, src, wm, rest, rwms);
      ArrivesCons(net, Path(t, dst), dst, src, wm, rest, rwms);
      nodes, wms := [src] + rest, [wm] + rwms;
    }
  }
}
