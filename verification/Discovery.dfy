/** From a packet for an unknown destination to its delivery. */
module Discovery {
  import opened Basics
  import opened Keys
  import opened Tables
  import opened Coordinates
  import opened RouterTypes
  import opened EndToEnd
  import opened Greedy
  import Gossip
  import Spanning
  import Multicast
  import opened PathBook

  /** A packet's way through the network, from `src` until no router has a next hop. */
  ghost predicate WholeRoute(s: Gossip.State, path: seq<Port>, wm: nat, src: Key, nodes: seq<Key>, wms: seq<nat>)
  {
    && Route(Views(s), path, nodes, wms) && nodes[0] == src && wms[0] == wm
    && Stops(Views(s)[nodes[|nodes| - 1]], path, wms[|nodes| - 1])
  }

  lemma RouteArrives(s: Gossip.State, root: Key, path: seq<Port>, wm: nat, src: Key, dst: Key, nodes: seq<Key>,
                     wms: seq<nat>)
    requires Spanning.Routes(s, root) && dst in s.nodes && path == Path(OwnTable(s), dst)
    requires Dist(Path(OwnTable(s), src), path) < wm && WholeRoute(s, path, wm, src, nodes, wms)
    ensures nodes[|nodes| - 1] == dst
  {
    assert Delivers(Views(s), OwnTable(s), dst);
  }

  /** On a settled network, the whole exchange.  The packet `tr` for `dst`, whose
      path is unknown to `src`, is held while a lookup spreads; the lookup reaches
      `dst`; the answer, on whatever route, comes back to `src`; it releases the
      packet, which, on whatever route, arrives at `dst`. */
  lemma PacketToUnknownArrives(s: Gossip.State, n: Multicast.Net, src: Key, dst: Key, c: Config, d: Config,
                               b: Book, tr: Packet, now: int,
                               runs: seq<Multicast.Run>, hops: seq<Multicast.Hop>,
                               when: int, answer: NotifyMsg, back: seq<Key>, backWms: seq<nat>,
                               ms: seq<Moment>, sent: Packet, later: int, there: seq<Key>, thereWms: seq<nat>)
    returns (held: Book)
    requires Spanning.Routes(s, n.root) && n.t == OwnTable(s) && Multicast.Settled(n)
    requires src in s.nodes && dst in s.nodes && src != dst && c.self == src && d == c.(self := dst)
    // The packet reaches the pathfinder of its source.
    requires Kept(c, b) && tr.dest == dst && dst !in b.paths && !Throttled(c, b, dst, now)
    requires Dist(Path(n.t, src), Path(n.t, dst)) < MAX64 && Dist(Path(n.t, src), Path(n.t, dst)) < tr.watermark
    // The lookup spreads until no copy is left.
    requires Multicast.IsRun(n, src, dst, runs, hops) && runs[|hops|].flight == multiset{}
    // The answer travels back.
    requires AnswerLookup(d, src, dst, Path(s.nodes[src].infos, src), Path(s.nodes[dst].infos, dst), when) ==
             Some(answer)
    requires WholeRoute(s, answer.path, answer.watermark, dst, back, backWms)
    // Meanwhile other things happen at the source; then the packet leaves.
    requires forall j :: 0 <= j < |ms| ==> Undisturbed(c, tr, ms[j].event)
    requires sent == tr.(path := answer.coords, from := Path(s.nodes[src].infos, src))
    requires WholeRoute(s, sent.path, sent.watermark, src, there, thereWms)
    ensures held == HandleTraffic(c, b, tr, Path(s.nodes[src].infos, src), now).0 && Kept(c, held)
    ensures Ask(dst, Path(s.nodes[src].infos, src)) in HandleTraffic(c, b, tr, Path(s.nodes[src].infos, src), now).1
    ensures HandleNotify(c, After(c, held, ms), answer.source, answer.seqno, answer.coords, true,
                         Path(s.nodes[src].infos, src), later).1 == [Forward(sent)]
    ensures Multicast.Handled(runs[|hops|], dst)
    ensures back[|back| - 1] == src == answer.dest
    ensures there[|there| - 1] == dst
  {
    var from := Path(s.nodes[src].infos, src);
    SeesOwnPath(s, n.root, src);
    SeesOwnPath(s, n.root, dst);
    UnknownDestinationWaits(c, b, tr, from, now);
    held := HandleTraffic(c, b, tr, from, now).0;
    WaitsThenLeaves(c, held, tr, ms, answer.seqno, answer.coords, from, later);
    Multicast.LookupReachesTarget(n, src, dst, dst, runs, hops);
    DistSymmetric(Path(n.t, src), Path(n.t, dst));
    RouteArrives(s, n.root, answer.path, answer.watermark, dst, src, back, backWms);
    RouteArrives(s, n.root, sent.path, sent.watermark, src, dst, there, thereWms);
  }

  lemma SeesOwnPath(s: Gossip.State, root: Key, a: Key)
    requires Spanning.Routes(s, root) && a in s.nodes
    ensures a in OwnTable(s) && Path(s.nodes[a].infos, a) == Path(OwnTable(s), a)
  {
    assert a in Views(s);
  }
}
