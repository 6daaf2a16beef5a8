/** Where the ports in the entries come from: a router asks, the peer answers with
    the port it allocated (`_handleRequest`), the answer is kept
    (`_handleResponse`), adopted (`_useResponse`) and gossiped. */
module PortRuns {
  import opened Basics
  import opened Keys
  import opened Tables
  import opened NodeSpec
  import opened RouterTypes
  import opened EndToEnd
  import Coordinates
  import Gossip
  import Ports
  import Router
  import Refinement
  import Spanning

  type Allocation = map<Key, map<Key, Port>>

  /** A response on its way from the peer `src` to the node `dst` that asked. */
  datatype Reply = Reply(src: Key, dst: Key, res: SigRes)

  /** The gossip, every router's allocated ports and kept responses, and the
      responses in flight. */
  datatype Net = Net(gossip: Gossip.State, ports: Allocation, kept: map<Key, map<Key, SigRes>>, flight: seq<Reply>)

  datatype Act =
    | Spread(step: Gossip.Step)                // any step of the gossip but an own update
    | Renew(pass: Router.Pass)                 // _fix
    | Clear(self: Key, left: set<Key>)         // _sendReqs, removePeer: only some responses are left
    | Allocate(self: Key, peer: Key, p: Port)  // addPeer, for the first link
    | Free(self: Key, peer: Key)               // removePeer, for the last link
    | Answer(self: Key, peer: Key, req: SigReq, psig: Signature)  // _handleRequest
    | Hear(i: nat, keep: bool)                 // _handleResponse, for the i-th response in flight

  predicate Allocated(ports: Allocation, a: Key, k: Key) { a in ports && k in ports[a] }

  function PortsAt(ports: Allocation, a: Key): (m: map<Key, Port>) { if a in ports then ports[a] else map[] }

  function KeptAt(n: Net, a: Key): (m: map<Key, SigRes>) { if a in n.kept then n.kept[a] else map[] }

  ghost predicate Next(n: Net, act: Act, n': Net)
  {
    match act
    case Spread(step) =>
      !step.SelfUpdate? && Gossip.Next(n.gossip, step, n'.gossip) && n' == n.(gossip := n'.gossip)
    case Renew(p) =>
      && Router.IsPass(p) && p.self in n.gossip.nodes && p.before == n.gossip.nodes[p.self]
      && p.responses == KeptAt(n, p.self)
      && n' == n.(gossip := n.gossip.(nodes := n.gossip.nodes[p.self := p.fixed]))
    case Clear(a, left) =>
      n' == n.(kept := n.kept[a := map q | q in KeptAt(n, a) && q in left :: KeptAt(n, a)[q]])
    case Allocate(a, k, p) =>
      && !Allocated(n.ports, a, k) && Ports.IsLeastFree(PortsAt(n.ports, a).Values, p)
      && n' == n.(ports := n.ports[a := PortsAt(n.ports, a)[k := p]])
    case Free(a, k) =>
      Allocated(n.ports, a, k) && n' == n.(ports := n.ports[a := n.ports[a] - {k}])
    case Answer(a, k, req, psig) =>
      && Allocated(n.ports, a, k)
      && n' == n.(flight := n.flight + [Reply(a, k, SigRes(req, n.ports[a][k], psig))])
    case Hear(i, keep) =>
      && i < |n.flight|
      && var r := n.flight[i];
         n' == n.(flight := Gossip.Drop(n.flight, i),
                  kept := if keep then n.kept[r.dst := KeptAt(n, r.dst)[r.src := r.res]] else n.kept)
  }

  // ------------------------------------------------------------------- invariant

  /** The entry of `k` has the port that its parent allocated for it. */
  predicate Assigned(ports: Allocation, k: Key, i: Info)
  {
    i.parent != k ==> Allocated(ports, i.parent, k) && i.port == ports[i.parent][k]
  }

  predicate AnnAssigned(ports: Allocation, ann: Ann) { Assigned(ports, ann.key, ann.info) }

  predicate TableAssigned(ports: Allocation, t: Table) { forall k :: k in t ==> Assigned(ports, k, t[k]) }

  predicate NetAssigned(ports: Allocation, net: seq<Gossip.Msg>) { forall m :: m in net ==> AnnAssigned(ports, m.ann) }

  ghost predicate GossipAssigned(ports: Allocation, s: Gossip.State)
  {
    (forall a :: a in s.nodes ==> TableAssigned(ports, s.nodes[a].infos)) && NetAssigned(ports, s.net)
  }

  predicate ResAssigned(ports: Allocation, src: Key, dst: Key, res: SigRes)
  {
    Allocated(ports, src, dst) && res.port == ports[src][dst]
  }

  predicate KeptAssigned(ports: Allocation, a: Key, kept: map<Key, SigRes>)
  {
    forall q :: q in kept ==> ResAssigned(ports, q, a, kept[q])
  }

  ghost predicate RepliesAssigned(n: Net)
  {
    && (forall a :: a in n.kept ==> KeptAssigned(n.ports, a, n.kept[a]))
    && (forall r :: r in n.flight ==> ResAssigned(n.ports, r.src, r.dst, r.res))
  }

  /** No router gives two peers one port, nor any the port zero. */
  ghost predicate ValidPorts(m: map<Key, Port>)
  {
    (forall k :: k in m ==> m[k] != 0) && forall j, k :: j in m && k in m && m[j] == m[k] ==> j == k
  }

  ghost predicate PortInv(n: Net)
  {
    && (forall a :: a in n.ports ==> ValidPorts(n.ports[a]))
    && GossipAssigned(n.ports, n.gossip) && RepliesAssigned(n)
  }

  /** Allocated ports stay. */
  ghost predicate Keeps(ports: Allocation, ports': Allocation)
  {
    forall a, k :: Allocated(ports, a, k) ==> Allocated(ports', a, k) && ports'[a][k] == ports[a][k]
  }

  // ---------------------------------------------------------------- preservation

  /** What a table holds after an announcement it held before, or was announced. */
  lemma HandledIsAssigned(ports: Allocation, n: Node, from: Key, ann: Ann)
    requires from in n.sent && TableAssigned(ports, n.infos) && AnnAssigned(ports, ann)
    ensures var r := Handle(n, from, ann);
            TableAssigned(ports, r.0.infos) && forall x :: x in r.1 ==> AnnAssigned(ports, x)
  {
    NodeLawsOfUpdate(n, ann);
    if !Accepts(n.infos, ann) { assert Assigned(ports, ann.key, n.infos[ann.key]); }
  }

  lemma NodeLawsOfUpdate(n: Node, ann: Ann)
    ensures var t := Update(n, ann).infos;
            forall k :: k in t ==> (k == ann.key && t[k] == ann.info) || (k in n.infos && t[k] == n.infos[k])
  {
  }

  lemma DeliveryIsAssigned(ports: Allocation, s: Gossip.State, i: nat, s': Gossip.State)
    requires GossipAssigned(ports, s) && Gossip.Next(s, Gossip.Deliver(i), s')
    ensures GossipAssigned(ports, s')
  {
    var m := s.net[i];
    assert m in s.net;
    var r := Handle(s.nodes[m.dst], m.src, m.ann);
    HandledIsAssigned(ports, s.nodes[m.dst], m.src, m.ann);
    forall x | x in s'.net ensures AnnAssigned(ports, x.ann) {
      if x !in s.net {
        assert x in Gossip.Replies(m, r.1);
        assert x.ann in r.1;
      }
    }
  }

  /** A batch tells entries of the sender's table. */
  lemma BatchIsAssigned(ports: Allocation, n: Node, self: Key, owed: map<Key, set<Key>>, batch: seq<Gossip.Msg>)
    requires TableAssigned(ports, n.infos) && Gossip.Announces(n, self, owed, batch)
    ensures NetAssigned(ports, batch)
  {
    forall m | m in batch ensures AnnAssigned(ports, m.ann) {
      assert Gossip.Tells(n, self, m.dst, m.ann.key, m);
    }
  }

  lemma GossipKeepsAssigned(ports: Allocation, s: Gossip.State, step: Gossip.Step, s': Gossip.State)
    requires GossipAssigned(ports, s) && Gossip.Next(s, step, s') && !step.SelfUpdate?
    ensures GossipAssigned(ports, s')
  {
    match step
    case Deliver(i) => DeliveryIsAssigned(ports, s, i, s');
    case Maintain(a, batch) => BatchIsAssigned(ports, s.nodes[a], a, Gossip.AllOwed(s.nodes[a], a), batch);
    case AddLink(a, b, batch) =>
      if b in s.nodes[a].sent { BatchIsAssigned(ports, s.nodes[a], a, map[b := s.nodes[a].sent[b]], batch); }
    case Expire(a, k) =>
      var t, t' := s.nodes[a].infos, s'.nodes[a].infos;
      assert forall x :: x in t' ==> x in t && t'[x] == t[x];
    case RemovePeer(a, b) =>
    case LoseLink(link) =>
  }

  /** A new own entry under a parent is what that parent answered. */
  lemma RenewalKeepsAssigned(n: Net, p: Router.Pass, n': Net)
    requires PortInv(n) && Next(n, Renew(p), n')
    ensures TableAssigned(n.ports, p.fixed.infos)
  {
    var t, t', self := p.before.infos, p.fixed.infos, p.self;
    if t' != t {
      Router.NewEntryIsAnswered(p);
      forall k | k in t' ensures Assigned(n.ports, k, t'[k]) {
        if k == self {
          assert t'[k].parent != self ==> ResAssigned(n.ports, t'[k].parent, self, p.responses[t'[k].parent]);
        } else {
          assert k in t' - {self} && (t' - {self})[k] == t'[k];
          assert k in t - {self} && (t - {self})[k] == t[k];
        }
      }
    }
  }

  lemma MorePortsKeep(n: Net, n': Net)
    requires PortInv(n) && Keeps(n.ports, n'.ports) && n' == n.(ports := n'.ports)
    requires forall a :: a in n'.ports ==> ValidPorts(n'.ports[a])
    ensures PortInv(n')
  {
    forall a | a in n.gossip.nodes ensures TableAssigned(n'.ports, n.gossip.nodes[a].infos) {
      var t := n.gossip.nodes[a].infos;
      assert TableAssigned(n.ports, t);
      forall k | k in t ensures Assigned(n'.ports, k, t[k]) { assert Assigned(n.ports, k, t[k]); }
    }
    forall m | m in n.gossip.net ensures AnnAssigned(n'.ports, m.ann) { assert AnnAssigned(n.ports, m.ann); }
    forall a | a in n.kept ensures KeptAssigned(n'.ports, a, n.kept[a]) {
      assert KeptAssigned(n.ports, a, n.kept[a]);
      forall q | q in n.kept[a] ensures ResAssigned(n'.ports, q, a, n.kept[a][q]) {
        assert ResAssigned(n.ports, q, a, n.kept[a][q]);
      }
    }
    forall r | r in n.flight ensures ResAssigned(n'.ports, r.src, r.dst, r.res) {
      assert ResAssigned(n.ports, r.src, r.dst, r.res);
    }
  }

  lemma AllocationIsValid(m: map<Key, Port>, k: Key, p: Port)
    requires ValidPorts(m) && k !in m && Ports.IsLeastFree(m.Values, p)
    ensures ValidPorts(m[k := p])
  {
    assert forall j :: j in m ==> m[j] in m.Values;
  }

  lemma RepliesKeepAssigned(n: Net, act: Act, n': Net)
    requires PortInv(n) && Next(n, act, n') && (act.Answer? || act.Hear? || act.Clear?)
    ensures RepliesAssigned(n')
  {
    match act
    case Answer(a, k, req, psig) =>
    case Clear(a, left) => assert a in n.kept ==> KeptAssigned(n.ports, a, n.kept[a]);
    case Hear(i, keep) =>
      var r := n.flight[i];
      assert r in n.flight;
      assert r.dst in n.kept ==> KeptAssigned(n.ports, r.dst, n.kept[r.dst]);
      assert forall x :: x in n'.flight ==> x in n.flight;
  }

  /** Every step but the loss of a port keeps the assignment. */
  lemma StepKeepsPorts(n: Net, act: Act, n': Net)
    requires PortInv(n) && Next(n, act, n') && !act.Free?
    ensures PortInv(n')
  {
    match act
    case Spread(step) => GossipKeepsAssigned(n.ports, n.gossip, step, n'.gossip);
    case Renew(p) => RenewalKeepsAssigned(n, p, n');
    case Allocate(a, k, p) =>
      if a in n.ports { assert ValidPorts(n.ports[a]); }
      AllocationIsValid(PortsAt(n.ports, a), k, p);
      MorePortsKeep(n, n');
    case Answer(_, _, _, _) => RepliesKeepAssigned(n, act, n');
    case Hear(_, _) => RepliesKeepAssigned(n, act, n');
    case Clear(_, _) => RepliesKeepAssigned(n, act, n');
  }

  // ------------------------------------------------------------- freeing a port

  predicate Names(i: Info, k: Key, a: Key) { i.parent == a && a != k }

  /** Somebody still knows, is told or is about to adopt that `a` is the parent of `k`. */
  ghost predicate InUse(n: Net, a: Key, k: Key)
  {
    || (exists x :: x in n.gossip.nodes && Lists(n.gossip.nodes[x].infos, k, a))
    || (exists m :: m in n.gossip.net && m.ann.key == k && Names(m.ann.info, k, a))
    || (k in n.kept && a in n.kept[k])
    || (exists r :: r in n.flight && r.src == a && r.dst == k)
  }

  predicate Lists(t: Table, k: Key, a: Key) { k in t && Names(t[k], k, a) }

  /** Giving a port back keeps the assignment if and only if nobody uses it: the
      source frees it with the last link, whoever still names it. */
  lemma FreeKeepsPortsExactly(n: Net, a: Key, k: Key, n': Net)
    requires PortInv(n) && Next(n, Free(a, k), n')
    ensures PortInv(n') <==> !InUse(n, a, k)
  {
    if InUse(n, a, k) {
      UsedPortIsMissed(n, a, k, n');
    } else {
      UnusedPortIsNot(n, a, k, n');
    }
  }

  lemma UsedPortIsMissed(n: Net, a: Key, k: Key, n': Net)
    requires Next(n, Free(a, k), n') && InUse(n, a, k)
    ensures !PortInv(n')
  {
  }

  /** The other allocations stay. */
  lemma UnusedPortIsNot(n: Net, a: Key, k: Key, n': Net)
    requires PortInv(n) && Next(n, Free(a, k), n') && !InUse(n, a, k)
    ensures PortInv(n')
  {
    assert ValidPorts(n.ports[a]);
    forall x | x in n.gossip.nodes ensures TableAssigned(n'.ports, n.gossip.nodes[x].infos) {
      var t := n.gossip.nodes[x].infos;
      assert TableAssigned(n.ports, t) && !Lists(t, k, a);
      forall j | j in t ensures Assigned(n'.ports, j, t[j]) { assert Assigned(n.ports, j, t[j]); }
    }
    forall m | m in n.gossip.net ensures AnnAssigned(n'.ports, m.ann) {
      assert AnnAssigned(n.ports, m.ann) && !(m.ann.key == k && Names(m.ann.info, k, a));
    }
    forall x | x in n.kept ensures KeptAssigned(n'.ports, x, n.kept[x]) {
      assert KeptAssigned(n.ports, x, n.kept[x]);
    }
    forall r | r in n.flight ensures ResAssigned(n'.ports, r.src, r.dst, r.res) {
      assert ResAssigned(n.ports, r.src, r.dst, r.res);
    }
  }

  // ------------------------------------------------------------------------ runs

  ghost predicate Start(n: Net)
  {
    && n.ports == map[] && n.kept == map[] && n.flight == [] && n.gossip.net == []
    && forall a :: a in n.gossip.nodes ==> n.gossip.nodes[a].infos == map[]
  }

  /** No port is given back while somebody uses it. */
  ghost predicate IsRun(ns: seq<Net>, acts: seq<Act>)
  {
    && |ns| == |acts| + 1 && Start(ns[0])
    && forall i :: 0 <= i < |acts| ==>
         Next(ns[i], acts[i], ns[i + 1]) && (acts[i].Free? ==> !InUse(ns[i], acts[i].self, acts[i].peer))
  }

  lemma {:induction false} PortsAlongRun(ns: seq<Net>, acts: seq<Act>, i: nat)
    requires IsRun(ns, acts) && i < |ns|
    ensures PortInv(ns[i])
  {
    if i > 0 {
      var k := i - 1;
      PortsAlongRun(ns, acts, k);
      assert Next(ns[k], acts[k], ns[i]);
      if acts[k].Free? {
        FreeKeepsPortsExactly(ns[k], acts[k].self, acts[k].peer, ns[i]);
      } else {
        StepKeepsPorts(ns[k], acts[k], ns[i]);
      }
    }
  }

  /** In every state of every such run, whatever is asked, answered, lost, adopted
      and gossiped in whatever order, every entry carries the port that its parent
      allocated, so no two children of a node share a coordinate. */
  lemma RunsAssignPorts(ns: seq<Net>, acts: seq<Act>, i: nat)
    requires IsRun(ns, acts) && i < |ns|
    ensures Spanning.PortsAssigned(OwnTable(ns[i].gossip), ns[i].ports)
    ensures Coordinates.PortsDistinct(OwnTable(ns[i].gossip))
  {
    PortsAlongRun(ns, acts, i);
    var n := ns[i];
    var g := OwnTable(n.gossip);
    forall k | k in g ensures Assigned(n.ports, k, g[k]) {
      assert TableAssigned(n.ports, n.gossip.nodes[k].infos);
    }
    assert forall a :: a in n.ports ==> ValidPorts(n.ports[a]);
    Spanning.AssignedPortsDistinct(g, n.ports);
  }

  /** So on such a run a settled network whose routers want no other parent routes
      every packet to its destination; nothing is assumed of the ports. */
  lemma RunsRoute(ns: seq<Net>, acts: seq<Act>, i: nat, v: Spanning.Polls) returns (root: Key)
    requires IsRun(ns, acts) && i < |ns|
    requires var s := ns[i].gossip;
             && Spanning.AtRest(s) && Spanning.Polled(s, v) && Spanning.Connected(s) && s.nodes != map[]
             && forall a :: a in s.nodes ==> Spanning.Content(s, v, a)
    ensures Spanning.Routes(ns[i].gossip, root)
  {
    RunsAssignPorts(ns, acts, i);
    root := Spanning.SettledRoutes(ns[i].gossip, v, ns[i].ports);
  }
}
