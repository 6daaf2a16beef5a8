/** The router class and the protocol models speak of the same behaviour. */
module Refinement {
  import opened Keys
  import opened Tables
  import opened NodeSpec
  import opened RouterTypes
  import opened BloomSpec
  import Gossip
  import Router
  import Multicast
  import Coordinates
  import Election

  /** `batch` lists what goes out over the links, in any order. */
  ghost predicate Lists(self: Key, out: map<Link, seq<Ann>>, batch: seq<Gossip.Msg>)
  {
    forall m: Gossip.Msg :: m in batch <==> m.src == self && Carries(out, m.dst, m.link, m.ann)
  }

  /** Link number `id` to `peer` carries `ann`. */
  ghost predicate Carries(out: map<Link, seq<Ann>>, peer: Key, id: nat, ann: Ann)
  {
    exists l :: l in out && l.key == peer && l.id == id && ann in out[l]
  }

  lemma AnnouncedIsOwed(n: Node, self: Key, peer: Key, anns: seq<Ann>, ann: Ann)
    requires Router.Told(n, self, peer, anns)
    ensures ann in anns <==> ann.key in Owed(n, self, peer) && ann.key in n.infos && ann.info == n.infos[ann.key]
  {
    var ks := Router.OwedList(n, self, peer);
    Router.OwedListIsOwed(n, self, peer);
    assert forall k :: k in ks <==> k in Elements(ks);
    if ann in anns {
      var i :| 0 <= i < |anns| && anns[i] == ann;
      assert ks[i] in ks;
    }
    if ann.key in Owed(n, self, peer) && ann.key in n.infos && ann.info == n.infos[ann.key] {
      assert ann.key in ks;
      var i :| 0 <= i < |ks| && ks[i] == ann.key;
      assert anns[i] == ann;
    }
  }

  /** What `SendAnnounces` puts on the links is a maintenance step of the gossip
      protocol: it tells every peer exactly the keys it is owed. */
  lemma SendAnnouncesIsMaintenance(n: Node, self: Key, peers: map<Key, set<Link>>, out: map<Link, seq<Ann>>,
                                   batch: seq<Gossip.Msg>)
    requires n.sent.Keys == peers.Keys && (forall k :: k in peers ==> peers[k] != {})
    requires forall k, l :: k in peers && l in peers[k] ==> l.key == k
    requires Router.ToldSoFar(n, self, peers, out, {}) && Lists(self, out, batch)
    ensures Gossip.OwedBatch(n, self, batch)
  {
    var owed := Gossip.AllOwed(n, self);
    forall m: Gossip.Msg | m in batch
      ensures m.dst in owed && m.ann.key in owed[m.dst] && Gossip.Tells(n, self, m.dst, m.ann.key, m)
    {
      var l :| l in out && l.key == m.dst && l.id == m.link && m.ann in out[l];
      AnnouncedIsOwed(n, self, m.dst, out[l], m.ann);
    }
    forall b, k | b in owed && k in owed[b] && k in n.infos
      ensures exists m: Gossip.Msg :: m in batch && Gossip.Tells(n, self, b, k, m)
    {
      var l :| l in peers[b];
      assert l in out;
      var ann := Ann(k, n.infos[k]);
      AnnouncedIsOwed(n, self, b, out[l], ann);
      assert Carries(out, b, l.id, ann);
      assert Gossip.Msg(self, b, l.id, ann) in batch;
    }
  }

  /** `_fix` leaves a node as it was or renews its own entry. */
  lemma FixIsSelfUpdate(n: Node, self: Key, responses: map<Key, SigRes>, sign: (Key, Key, SigReq, Port) -> Signature,
                        best: Election.Choice, nonce: nat, f: Router.Flags) returns (info: Info)
    ensures var n' := Router.FixState(n, self, responses, sign, best, nonce, f);
            (n' == n || n' == Update(n, Ann(self, info))) && n'.sent.Keys == n.sent.Keys
  {
    if Router.CanAdopt(n.infos, self, responses, sign, best) {
      info := Router.Adoption(self, best.parent, responses[best.parent], sign).info;
    } else {
      info := Router.SelfRoot(n.infos, self, nonce, sign).info;
    }
  }

  lemma RenewalStep(s: Gossip.State, self: Key, info: Info, n': Node)
    requires self in s.nodes && (n' == s.nodes[self] || n' == Update(s.nodes[self], Ann(self, info)))
    ensures var mid := s.(nodes := s.nodes[self := n']); mid == s || Gossip.Next(s, Gossip.SelfUpdate(self, info), mid)
  {
    if n' == s.nodes[self] { assert s.nodes[self := n'] == s.nodes; }
  }

  lemma AnnounceStep(s: Gossip.State, self: Key, n: Node, batch: seq<Gossip.Msg>)
    requires self in s.nodes && Gossip.OwedBatch(n, self, batch)
    ensures Gossip.Next(s.(nodes := s.nodes[self := n]), Gossip.Maintain(self, batch),
                        Gossip.State(s.nodes[self := SendAll(n, self)], s.net + batch))
  {
    assert s.nodes[self := n][self := SendAll(n, self)] == s.nodes[self := SendAll(n, self)];
  }

  /** A whole pass of maintenance is at most two steps of the gossip protocol: an
      own update, if `_fix` made one, and a maintenance that carries exactly what
      went out on the links. */
  lemma PassIsProtocolSteps(s: Gossip.State, p: Router.Pass, out: map<Link, seq<Ann>>, batch: seq<Gossip.Msg>)
    returns (info: Info, mid: Gossip.State)
    requires Router.IsPass(p) && p.self in s.nodes && p.before == s.nodes[p.self]
    requires p.before.sent.Keys == p.peers.Keys && (forall k :: k in p.peers ==> p.peers[k] != {})
    requires forall k, l :: k in p.peers && l in p.peers[k] ==> l.key == k
    requires Router.ToldSoFar(p.fixed, p.self, p.peers, out, {}) && Lists(p.self, out, batch)
    ensures mid == s || Gossip.Next(s, Gossip.SelfUpdate(p.self, info), mid)
    ensures Gossip.Next(mid, Gossip.Maintain(p.self, batch),
                        Gossip.State(s.nodes[p.self := SendAll(p.fixed, p.self)], s.net + batch))
  {
    info := FixIsSelfUpdate(p.before, p.self, p.responses, p.sign, p.best, p.nonce, p.flags);
    mid := s.(nodes := s.nodes[p.self := p.fixed]);
    RenewalStep(s, p.self, info, p.fixed);
    SendAnnouncesIsMaintenance(p.fixed, p.self, p.peers, out, batch);
    AnnounceStep(s, p.self, p.fixed, batch);
  }

  /** A network of routers right after their maintenance: tree marks and filters
      as `BloomMaintenance` leaves them. */
  ghost predicate Maintained(n: Multicast.Net, tables: map<Key, Table>)
  {
    && n.blooms.Keys == n.t.Keys && tables.Keys == n.t.Keys
    && (forall a, b :: a in n.t && b in n.blooms[a] ==> n.blooms[a][b].onTree == IsOnTree(tables[a], a, b))
    && (forall a, b :: a in n.t && b in n.blooms[a] && n.blooms[a][b].onTree ==>
          Fresh(n.bits(a), n.blooms[a], b) <= n.blooms[a][b].send)
  }

  /** Each node knows its own and its peers' entries of the tree, has filters for
      every tree neighbour, never peers with itself, and received last what its
      tree neighbours last sent. */
  ghost predicate WellConnected(n: Multicast.Net, tables: map<Key, Table>)
    requires n.blooms.Keys == n.t.Keys && tables.Keys == n.t.Keys
  {
    && (forall a :: a in n.t ==> a in tables[a] && tables[a][a] == n.t[a] && a !in n.blooms[a])
    && (forall a, b :: a in n.t && b in n.blooms[a] ==> b in n.t && b in tables[a] && tables[a][b] == n.t[b])
    && (forall a, b :: Coordinates.TreeEdge(n.t, a, b) ==>
          b in n.blooms[a] && a in n.blooms[b] && n.blooms[b][a].recv == n.blooms[a][b].send)
  }

  /** The links marked as on the tree are the tree's edges. */
  lemma MarksAreEdges(n: Multicast.Net, tables: map<Key, Table>, a: Key, b: Key)
    requires Maintained(n, tables) && WellConnected(n, tables) && a in n.t
    ensures b in n.blooms[a] && n.blooms[a][b].onTree <==> Coordinates.TreeEdge(n.t, a, b)
  {
    if b in n.blooms[a] {
      assert n.blooms[a][b].onTree == IsOnTree(tables[a], a, b);
    }
  }

  lemma EdgesAreCovered(n: Multicast.Net, tables: map<Key, Table>, a: Key, b: Key)
    requires Maintained(n, tables) && WellConnected(n, tables) && Coordinates.TreeEdge(n.t, a, b)
    ensures b in n.blooms[a] && a in n.blooms[b]
    ensures Fresh(n.bits(a), n.blooms[a], b) <= n.blooms[a][b].send && n.blooms[b][a].recv == n.blooms[a][b].send
  {
    MarksAreEdges(n, tables, a, b);
  }

  /** After maintenance a well-connected tree is settled, so lookups reach their target. */
  lemma MaintenanceSettles(n: Multicast.Net, tables: map<Key, Table>)
    requires Coordinates.IsTree(n.t, n.root)
    requires Maintained(n, tables) && WellConnected(n, tables)
    ensures Multicast.Settled(n)
  {
    assert forall a, b :: a in n.t ==> (b in n.blooms[a] && n.blooms[a][b].onTree <==>
                                        Coordinates.TreeEdge(n.t, a, b)) by {
      forall a, b | a in n.t ensures b in n.blooms[a] && n.blooms[a][b].onTree <==> Coordinates.TreeEdge(n.t, a, b) {
        MarksAreEdges(n, tables, a, b);
      }
    }
    forall a, b | Coordinates.TreeEdge(n.t, a, b)
      ensures Fresh(n.bits(a), n.blooms[a], b) <= n.blooms[a][b].send && n.blooms[b][a].recv == n.blooms[a][b].send
    {
      EdgesAreCovered(n, tables, a, b);
    }
  }
}
