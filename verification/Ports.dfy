/** Port allocation for peers (ironwood/network/peers.go). */
module Ports {
  import opened Keys

  datatype Peer = Peer(key: Key, port: nat, order: nat)

  class Peers {
    var ports: set<nat>
    var peers: map<Key, set<Peer>>
    var order: nat
    ghost var portOf: map<Key, nat>  // the port of every live key

    /** Every live key has links, all on its one non-zero port, no two keys share
        a port, and the used ports are exactly those. */
    ghost predicate Valid()
      reads this
    {
      LinksFit(peers, portOf, order) && OnePortEach(portOf, ports)
    }

    constructor ()
      ensures Valid() && peers == map[] && ports == {}
    {
      ports, peers, order, portOf := {}, map[], 0, map[];
    }

    /** `addPeer`: a known key keeps its port, a new one gets the least free port. */
    method AddPeer(key: Key) returns (p: Peer)
      requires Valid()
      modifies this
      ensures Valid()
      ensures p.key == key && key in portOf && p.port == portOf[key] && p.order == old(order) && order == old(order) + 1
      ensures key in old(peers) ==>
                ports == old(ports) && portOf == old(portOf) && peers == old(peers)[key := old(peers)[key] + {p}]
      ensures key !in old(peers) ==>
                && peers == old(peers)[key := {p}] && ports == old(ports) + {p.port}
                && portOf == old(portOf)[key := p.port]
                && IsLeastFree(old(ports), p.port)
    {
      if key in peers {
        var q :| q in peers[key];
        p := Peer(key, q.port, order);
        peers := peers[key := peers[key] + {p}];
        order := order + 1;
      } else {
        var port := LeastFree(ports);
        p := Peer(key, port, order);
        Start(p);
      }
    }

    method Start(p: Peer)
      requires Valid() && p.key !in peers && p.order == order && p.port !in ports && p.port != 0
      modifies this
      ensures Valid() && ports == old(ports) + {p.port} && order == old(order) + 1
      ensures peers == old(peers)[p.key := {p}] && portOf == old(portOf)[p.key := p.port]
    {
      OneMorePort(portOf, ports, p.key, p.port);
      FirstLinkFits(peers, portOf, p);
      ports, order := ports + {p.port}, order + 1;
      peers, portOf := peers[p.key := {p}], portOf[p.key := p.port];
    }

    /** `removePeer`: the port becomes free with the key's last link. */
    method RemovePeer(p: Peer) returns (found: bool)
      requires Valid()
      modifies this
      ensures Valid() && order == old(order)
      ensures found <==> p.key in old(peers) && p in old(peers)[p.key]
      ensures !found ==> peers == old(peers) && ports == old(ports)
      ensures found && old(peers)[p.key] != {p} ==>
                peers == old(peers)[p.key := old(peers)[p.key] - {p}] && ports == old(ports)
      ensures found && old(peers)[p.key] == {p} ==> peers == old(peers) - {p.key} && ports == old(ports) - {p.port}
    {
      found := p.key in peers && p in peers[p.key];
      if found {
        var kps := peers[p.key] - {p};
        if kps == {} {
          assert peers[p.key] == {p};
          Leave(p);
        } else {
          peers := peers[p.key := kps];
        }
      }
    }

    method Leave(p: Peer)
      requires Valid() && p.key in peers && peers[p.key] == {p}
      modifies this`peers, this`ports, this`portOf
      ensures Valid() && peers == old(peers) - {p.key} && ports == old(ports) - {p.port}
    {
      assert p in peers[p.key];
      peers := peers - {p.key};
      ports := ports - {p.port};
      portOf := portOf - {p.key};
      OneLessPort(old(portOf), old(ports), p.key);
    }
  }

  /** Every key has links, all on its one non-zero port, numbered below `order`. */
  ghost predicate LinksFit(peers: map<Key, set<Peer>>, portOf: map<Key, nat>, order: nat)
  {
    && portOf.Keys == peers.Keys
    && (forall k :: k in peers ==> peers[k] != {} && portOf[k] != 0)
    && (forall k, p :: k in peers && p in peers[k] ==> p.key == k && p.port == portOf[k] && p.order < order)
  }

  lemma FirstLinkFits(peers: map<Key, set<Peer>>, portOf: map<Key, nat>, p: Peer)
    requires LinksFit(peers, portOf, p.order) && p.key !in peers && p.port != 0
    ensures LinksFit(peers[p.key := {p}], portOf[p.key := p.port], p.order + 1)
  {
  }

  /** Distinct keys have distinct ports, and those are the ports in use. */
  ghost predicate OnePortEach(portOf: map<Key, nat>, ports: set<nat>)
  {
    && (forall j, k :: j in portOf && k in portOf && portOf[j] == portOf[k] ==> j == k)
    && (forall k :: k in portOf ==> portOf[k] in ports)
    && (forall x :: x in ports ==> exists k :: k in portOf && portOf[k] == x)
  }

  lemma OneMorePort(portOf: map<Key, nat>, ports: set<nat>, key: Key, port: nat)
    requires OnePortEach(portOf, ports) && key !in portOf && port !in ports
    ensures OnePortEach(portOf[key := port], ports + {port})
  {
    var more := portOf[key := port];
    forall x | x in ports + {port} ensures exists k :: k in more && more[k] == x {
      if x == port {
        assert more[key] == x;
      } else {
        var k :| k in portOf && portOf[k] == x;
        assert more[k] == x;
      }
    }
  }

  lemma OneLessPort(portOf: map<Key, nat>, ports: set<nat>, key: Key)
    requires OnePortEach(portOf, ports) && key in portOf
    ensures OnePortEach(portOf - {key}, ports - {portOf[key]})
  {
    var fewer := portOf - {key};
    forall x | x in ports - {portOf[key]} ensures exists k :: k in fewer && fewer[k] == x {
      var k :| k in portOf && portOf[k] == x;
      assert fewer[k] == x;
    }
  }

  ghost predicate IsLeastFree(ports: set<nat>, port: nat)
  {
    port != 0 && port !in ports && forall x :: 0 < x < port ==> x in ports
  }

  /** The search loop of `addPeer`; it ends because only finitely many ports are in use. */
  method LeastFree(ports: set<nat>) returns (port: nat)
    ensures IsLeastFree(ports, port)
  {
    port := 1;
    while port in ports
      invariant port >= 1
      invariant forall x :: 0 < x < port ==> x in ports
      decreases set x | x in ports && x >= port
    {
      ghost var before := set x | x in ports && x >= port;
      assert port in before;
      port := port + 1;
    }
  }
}
