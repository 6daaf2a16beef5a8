/** One router's share of the gossip protocol, as functions of its table and
    its per-peer `sent` sets.  `Router.Router` implements these in place; the
    `Gossip` module runs many of them against each other. */
module NodeSpec {
  import opened Keys
  import opened Tables

  datatype Node = Node(infos: Table, sent: map<Key, set<Key>>)

  /** `_update`: store an accepted announcement and forget who was sent the old one. */
  function Update(n: Node, ann: Ann): (n': Node)
  {
    if Accepts(n.infos, ann)
    then Node(n.infos[ann.key := ann.info], map p | p in n.sent :: n.sent[p] - {ann.key})
    else n
  }

  /** The timer of another node's entry: forget it, and that anybody was told. */
  function Forget(n: Node, k: Key): (n': Node)
  {
    Node(n.infos - {k}, map p | p in n.sent :: n.sent[p] - {k})
  }

  function MarkSent(n: Node, peer: Key, k: Key): (n': Node)
    requires peer in n.sent
  {
    n.(sent := n.sent[peer := n.sent[peer] + {k}])
  }

  /** `_handleAnnounce`: the new state, and the better announcement to send
      back when the received one was worse. */
  function Handle(n: Node, from: Key, ann: Ann): (r: (Node, seq<Ann>))
    requires from in n.sent
  {
    if Accepts(n.infos, ann) then
      (MarkSent(Update(n, ann), from, ann.key), [])
    else if n.infos[ann.key] != ann.info then
      (MarkSent(n, from, ann.key), [Ann(ann.key, n.infos[ann.key])])
    else
      (MarkSent(n, from, ann.key), [])
  }

  /** The keys that `_sendAnnounces` at `self` still owes to `peer`: whatever
      of the two ancestries is not marked as sent. */
  function Owed(n: Node, self: Key, peer: Key): (ks: set<Key>)
    requires peer in n.sent
  {
    Elements(Chain(n.infos, self, {})) + Elements(Chain(n.infos, peer, {})) - n.sent[peer]
  }

  /** `_sendAnnounces`: mark everything owed as sent. */
  function SendAll(n: Node, self: Key): (n': Node)
  {
    n.(sent := map p | p in n.sent :: n.sent[p] + Owed(n, self, p))
  }
}

/** What the handlers leave alone, and what they save. */
module NodeLaws {
  import opened Keys
  import opened Tables
  import opened NodeSpec

  /** An accepted announcement replaces one entry and takes back the marks of its
      key; a refused one changes nothing. */
  lemma UpdateIsLocal(n: Node, ann: Ann)
    ensures var n' := Update(n, ann);
            && n'.sent.Keys == n.sent.Keys
            && (forall k :: k != ann.key ==> (k in n'.infos <==> k in n.infos))
            && (forall k :: k != ann.key && k in n.infos ==> n'.infos[k] == n.infos[k])
            && (forall p, k :: p in n.sent && k != ann.key ==> (k in n'.sent[p] <==> k in n.sent[p]))
            && (n'.infos != n.infos ==> forall p :: p in n.sent ==> ann.key !in n'.sent[p])
  {
  }

  /** What a peer told us is not owed to it: either it knows, or a better entry
      went back at once. */
  lemma NotOwedBack(n: Node, self: Key, from: Key, ann: Ann)
    requires from in n.sent
    ensures var r := Handle(n, from, ann); from in r.0.sent && ann.key !in Owed(r.0, self, from)
  {
  }

  /** At most the sender is answered, and only when what it said differs from what
      we keep. */
  lemma AnswersOnlyDifferences(n: Node, from: Key, ann: Ann)
    requires from in n.sent
    ensures var r := Handle(n, from, ann);
            && ann.key in r.0.infos
            && (r.1 == [] <==> r.0.infos[ann.key] == ann.info)
            && (r.1 != [] ==> r.1 == [Ann(ann.key, r.0.infos[ann.key])] && r.0.infos == n.infos)
  {
  }
}

/** The gossip protocol over any number of routers with announcements in
    flight, each on one of possibly several links between two routers.  Messages
    may overtake each other: any message in flight can be the next one delivered. */
module Gossip {
  import opened Keys
  import opened Tables
  import opened NodeSpec

  /** `link` numbers the connection that carries the announcement. */
  datatype Msg = Msg(src: Key, dst: Key, link: nat, ann: Ann)

  datatype State = State(nodes: map<Key, Node>, net: seq<Msg>)

  datatype Step =
    | Deliver(i: nat)                       // the i-th message in flight arrives
    | Maintain(self: Key, batch: seq<Msg>)  // _sendAnnounces
    | SelfUpdate(self: Key, info: Info)     // _useResponse or _becomeRoot
    | AddLink(self: Key, peer: Key, batch: seq<Msg>)  // addPeer
    | Expire(self: Key, key: Key)           // an entry's timer
    | RemovePeer(self: Key, peer: Key)      // removePeer, for the last link
    | LoseLink(link: nat)                   // a connection fails with what it carries

  function Drop<T>(s: seq<T>, i: nat): (r: seq<T>)
    requires i < |s|
  {
    s[..i] + s[i + 1..]
  }

  /** A reply goes back over the link that brought the message. */
  function Replies(m: Msg, anns: seq<Ann>): (ms: seq<Msg>)
  {
    seq(|anns|, i requires 0 <= i < |anns| => Msg(m.dst, m.src, m.link, anns[i]))
  }

  /** What is in flight on other links. */
  function Others(net: seq<Msg>, link: nat): (r: seq<Msg>)
    ensures forall m :: m in r <==> m in net && m.link != link
  {
    if net == [] then [] else
    var last, r := net[|net| - 1], Others(net[..|net| - 1], link);
    assert net == net[..|net| - 1] + [last];
    if last.link == link then r else r + [last]
  }

  /** The entry of `n` for `k`, for node `b`. */
  ghost predicate Tells(n: Node, self: Key, b: Key, k: Key, m: Msg)
  {
    m.src == self && m.dst == b && k in n.infos && m.ann == Ann(k, n.infos[k])
  }

  /** `batch` announces exactly the keys `owed` to each peer, each over one or more links. */
  ghost predicate Announces(n: Node, self: Key, owed: map<Key, set<Key>>, batch: seq<Msg>)
  {
    && (forall m :: m in batch ==> m.dst in owed && m.ann.key in owed[m.dst] && Tells(n, self, m.dst, m.ann.key, m))
    && (forall b, k :: b in owed && k in owed[b] && k in n.infos ==> exists m :: m in batch && Tells(n, self, b, k, m))
  }

  ghost predicate OwedBatch(n: Node, self: Key, batch: seq<Msg>)
  {
    Announces(n, self, AllOwed(n, self), batch)
  }

  ghost function AllOwed(n: Node, self: Key): (owed: map<Key, set<Key>>)
  {
    map b | b in n.sent :: Owed(n, self, b)
  }

  /** The message can be handed to its destination. */
  predicate Deliverable(s: State, m: Msg) { m.dst in s.nodes && m.src in s.nodes[m.dst].sent }

  ghost predicate Next(s: State, step: Step, s': State)
  {
    match step
    case Deliver(i) =>
      && i < |s.net|
      && var m := s.net[i];
      && Deliverable(s, m)
      && var r := Handle(s.nodes[m.dst], m.src, m.ann);
      && s' == State(s.nodes[m.dst := r.0], Drop(s.net, i) + Replies(m, r.1))
    case Maintain(a, batch) =>
      && a in s.nodes
      && OwedBatch(s.nodes[a], a, batch)
      && s' == State(s.nodes[a := SendAll(s.nodes[a], a)], s.net + batch)
    case SelfUpdate(a, info) =>
      && a in s.nodes
      && s' == s.(nodes := s.nodes[a := Update(s.nodes[a], Ann(a, info))])
    case AddLink(a, b, batch) =>
      && a in s.nodes && b in s.nodes
      && var n := s.nodes[a];
      if b !in n.sent
      then s' == s.(nodes := s.nodes[a := n.(sent := n.sent[b := {}])])
      else Announces(n, a, map[b := n.sent[b]], batch) && s' == s.(net := s.net + batch)
    case Expire(a, k) =>
      && a in s.nodes && k != a
      && s' == s.(nodes := s.nodes[a := Forget(s.nodes[a], k)])
    case RemovePeer(a, b) =>
      && a in s.nodes
      && s' == s.(nodes := s.nodes[a := s.nodes[a].(sent := s.nodes[a].sent - {b})])
    case LoseLink(link) =>
      s' == s.(net := Others(s.net, link))
  }

  // ------------------------------------------------------------------ invariant

  /** Node `b` holds `i` for `k`, or something that outranks it. */
  predicate Holds(s: State, b: Key, k: Key, i: Info)
  {
    b in s.nodes && k in s.nodes[b].infos && Covers(s.nodes[b].infos[k], i)
  }

  ghost predicate InFlight(s: State, a: Key, b: Key, ann: Ann)
  {
    exists m :: m in s.net && m.src == a && m.dst == b && m.ann == ann
  }

  /** Node `b` holds something else of the same rank, which is on its way to `a`. */
  ghost predicate Contested(s: State, a: Key, b: Key, k: Key, i: Info)
  {
    && b in s.nodes && k in s.nodes[b].infos && SameRank(s.nodes[b].infos[k], i)
    && InFlight(s, b, a, Ann(k, s.nodes[b].infos[k]))
  }

  ghost predicate Marked(s: State, a: Key, b: Key, k: Key)
  {
    a in s.nodes && b in s.nodes[a].sent && k in s.nodes[a].sent[b]
  }

  ghost predicate Promised(s: State, a: Key, b: Key, k: Key, i: Info)
  {
    Holds(s, b, k, i) || InFlight(s, a, b, Ann(k, i)) || Contested(s, a, b, k, i)
  }

  /** What `a` marks as sent to `b` it knows, and `b` has it or better, or has it
      coming, or contests it with an entry of the same rank that is on its way. */
  ghost predicate SentIsKnown(s: State, a: Key, b: Key, k: Key)
  {
    Marked(s, a, b, k) ==> b in s.nodes && k in s.nodes[a].infos && Promised(s, a, b, k, s.nodes[a].infos[k])
  }

  ghost predicate Inv(s: State)
  {
    && (forall a, b, k :: SentIsKnown(s, a, b, k))
    // Every sender still holds what it sent, or something that outranks it.
    && (forall m :: m in s.net ==> Holds(s, m.src, m.ann.key, m.ann.info))
    && (forall a, b :: a in s.nodes && b in s.nodes[a].sent ==> b in s.nodes)
  }

  /** Steps that forget nothing. */
  ghost predicate Keeps(step: Step) { !step.Expire? && !step.RemovePeer? && !step.LoseLink? }

  /** Entries only improve. */
  lemma Monotone(s: State, step: Step, s': State)
    requires Next(s, step, s') && Keeps(step)
    ensures s'.nodes.Keys == s.nodes.Keys
    ensures forall b, k :: b in s.nodes && k in s.nodes[b].infos ==>
              k in s'.nodes[b].infos && Covers(s'.nodes[b].infos[k], s.nodes[b].infos[k])
  {
  }

  lemma HoldsOn(s: State, step: Step, s': State, b: Key, k: Key, i: Info)
    requires Next(s, step, s') && Keeps(step) && Holds(s, b, k, i)
    ensures Holds(s', b, k, i)
  {
    Monotone(s, step, s');
  }

  lemma InDrop<T>(s: seq<T>, i: nat, x: T)
    requires i < |s|
    ensures x in s ==> x in Drop(s, i) || x == s[i]
    ensures x in Drop(s, i) ==> x in s
  {
    assert s == s[..i] + [s[i]] + s[i + 1..];
  }

  /** Unless it is the one delivered, a message stays in flight. */
  lemma StaysInFlight(s: State, i: nat, s': State, a: Key, b: Key, ann: Ann)
    requires Next(s, Deliver(i), s') && InFlight(s, a, b, ann)
    ensures InFlight(s', a, b, ann) || (s.net[i].src == a && s.net[i].dst == b && s.net[i].ann == ann)
  {
    var m :| m in s.net && m.src == a && m.dst == b && m.ann == ann;
    InDrop(s.net, i, m);
    if m in Drop(s.net, i) { assert m in s'.net; }
  }

  /** What the receiver makes of a message: it holds it or better, or its own
      entry of the same rank goes back. */
  lemma DeliveredIsAnswered(s: State, i: nat, s': State)
    requires Next(s, Deliver(i), s')
    ensures var m := s.net[i];
            Holds(s', m.dst, m.ann.key, m.ann.info) || Contested(s', m.src, m.dst, m.ann.key, m.ann.info)
  {
    var m := s.net[i];
    var r := Handle(s.nodes[m.dst], m.src, m.ann);
    if r.1 != [] { assert Replies(m, r.1)[0] in s'.net; }
  }

  /** A promise about an entry that stands is kept by every delivery. */
  lemma StillPromised(s: State, i: nat, s': State, a: Key, b: Key, k: Key, info: Info)
    requires Next(s, Deliver(i), s') && Promised(s, a, b, k, info)
    requires a in s.nodes && k in s.nodes[a].infos && s.nodes[a].infos[k] == info && s'.nodes[a].infos[k] == info
    ensures Promised(s', a, b, k, info)
  {
    Monotone(s, Deliver(i), s');
    DeliveredIsAnswered(s, i, s');
    if Holds(s, b, k, info) {
      HoldsOn(s, Deliver(i), s', b, k, info);
    } else if InFlight(s, a, b, Ann(k, info)) {
      StaysInFlight(s, i, s', a, b, Ann(k, info));
    } else {
      ContestGoesOn(s, i, s', a, b, k, info);
    }
  }

  lemma ContestGoesOn(s: State, i: nat, s': State, a: Key, b: Key, k: Key, info: Info)
    requires Next(s, Deliver(i), s') && Contested(s, a, b, k, info)
    requires a in s.nodes && k in s.nodes[a].infos && s.nodes[a].infos[k] == info && s'.nodes[a].infos[k] == info
    ensures Promised(s', a, b, k, info)
  {
    var theirs, m := s.nodes[b].infos[k], s.net[i];
    Monotone(s, Deliver(i), s');
    if s'.nodes[b].infos[k] == theirs {
      StaysInFlight(s, i, s', b, a, Ann(k, theirs));
      if m.src == b && m.dst == a && m.ann == Ann(k, theirs) && theirs != info {
        var r := Handle(s.nodes[a], b, m.ann);
        assert Replies(m, r.1)[0] in s'.net;
      }
    }
  }

  lemma DeliverKeepsKnown(s: State, i: nat, s': State, a: Key, b: Key, j: Key)
    requires Inv(s) && Next(s, Deliver(i), s')
    ensures SentIsKnown(s', a, b, j)
  {
    var m := s.net[i];
    assert m in s.net && SentIsKnown(s, a, b, j);
    if Marked(s', a, b, j) {
      if Marked(s, a, b, j) && s'.nodes[a].infos[j] == s.nodes[a].infos[j] {
        StillPromised(s, i, s', a, b, j, s.nodes[a].infos[j]);
      } else {
        assert a == m.dst && b == m.src && j == m.ann.key;
        NewMarkIsPromised(s, i, s');
      }
    }
  }

  /** The receiver marks what it was sent. */
  lemma NewMarkIsPromised(s: State, i: nat, s': State)
    requires Inv(s) && Next(s, Deliver(i), s')
    ensures var m := s.net[i];
            && m.src in s'.nodes && m.ann.key in s'.nodes[m.dst].infos
            && Promised(s', m.dst, m.src, m.ann.key, s'.nodes[m.dst].infos[m.ann.key])
  {
    var m := s.net[i];
    assert m in s.net;
    HoldsOn(s, Deliver(i), s', m.src, m.ann.key, m.ann.info);
    var r := Handle(s.nodes[m.dst], m.src, m.ann);
    if r.1 != [] { assert Replies(m, r.1)[0] in s'.net; }
  }

  lemma DeliverPreserves(s: State, i: nat, s': State)
    requires Inv(s) && Next(s, Deliver(i), s')
    ensures Inv(s')
  {
    Monotone(s, Deliver(i), s');
    var m := s.net[i];
    var back := Replies(m, Handle(s.nodes[m.dst], m.src, m.ann).1);
    forall x | x in s'.net ensures Holds(s', x.src, x.ann.key, x.ann.info) {
      InDrop(s.net, i, x);
      if x in Drop(s.net, i) { HoldsOn(s, Deliver(i), s', x.src, x.ann.key, x.ann.info); } else { assert x in back; }
    }
    forall a, b, j ensures SentIsKnown(s', a, b, j) {
      DeliverKeepsKnown(s, i, s', a, b, j);
    }
  }

  lemma ChainIsKnown(t: Table, x: Key, k: Key)
    requires k in Chain(t, x, {})
    ensures k in t
  {
    ChainIsChain(t, x, {});
  }

  lemma OwedIsKnown(n: Node, self: Key, b: Key, k: Key)
    requires b in n.sent && k in Owed(n, self, b)
    ensures k in n.infos
  {
    if k in Chain(n.infos, self, {}) { ChainIsKnown(n.infos, self, k); } else { ChainIsKnown(n.infos, b, k); }
  }

  lemma OwedIsTold(n: Node, self: Key, batch: seq<Msg>, b: Key, k: Key) returns (m: Msg)
    requires OwedBatch(n, self, batch) && b in n.sent && k in Owed(n, self, b)
    ensures k in n.infos && m in batch && Tells(n, self, b, k, m)
  {
    OwedIsKnown(n, self, b, k);
    assert b in AllOwed(n, self) && k in AllOwed(n, self)[b];
    m :| m in batch && Tells(n, self, b, k, m);
  }

  lemma FlightGrows(s: State, s': State, a: Key, b: Key, ann: Ann)
    requires InFlight(s, a, b, ann) && forall m :: m in s.net ==> m in s'.net
    ensures InFlight(s', a, b, ann)
  {
    var m :| m in s.net && m.src == a && m.dst == b && m.ann == ann;
    assert m in s'.net;
  }

  /** Where nothing leaves the net and entries only improve, promises about
      entries that stand are kept. */
  lemma PromiseStands(s: State, step: Step, s': State, a: Key, b: Key, k: Key, i: Info)
    requires Next(s, step, s') && Keeps(step) && !step.Deliver? && Promised(s, a, b, k, i)
    ensures Promised(s', a, b, k, i)
  {
    Monotone(s, step, s');
    if InFlight(s, a, b, Ann(k, i)) { FlightGrows(s, s', a, b, Ann(k, i)); }
    if Contested(s, a, b, k, i) { FlightGrows(s, s', b, a, Ann(k, s.nodes[b].infos[k])); }
  }

  lemma MaintainKeepsKnown(s: State, a: Key, batch: seq<Msg>, s': State, c: Key, b: Key, k: Key)
    requires Inv(s) && Next(s, Maintain(a, batch), s')
    ensures SentIsKnown(s', c, b, k)
  {
    assert SentIsKnown(s, c, b, k);
    if Marked(s, c, b, k) {
      PromiseStands(s, Maintain(a, batch), s', c, b, k, s.nodes[c].infos[k]);
    } else if Marked(s', c, b, k) {
      var m := OwedIsTold(s.nodes[a], a, batch, b, k);
      assert m in s'.net;
    }
  }

  lemma SendersHold(s: State, step: Step, s': State, m: Msg)
    requires Inv(s) && Next(s, step, s') && Keeps(step) && m in s.net
    ensures Holds(s', m.src, m.ann.key, m.ann.info)
  {
    HoldsOn(s, step, s', m.src, m.ann.key, m.ann.info);
  }

  lemma MaintainPreserves(s: State, a: Key, batch: seq<Msg>, s': State)
    requires Inv(s) && Next(s, Maintain(a, batch), s')
    ensures Inv(s')
  {
    forall c, b, k ensures SentIsKnown(s', c, b, k) {
      MaintainKeepsKnown(s, a, batch, s', c, b, k);
    }
    forall m | m in s'.net ensures Holds(s', m.src, m.ann.key, m.ann.info) {
      if m in s.net { SendersHold(s, Maintain(a, batch), s', m); } else { assert m in batch; }
    }
  }

  lemma OtherPreserves(s: State, step: Step, s': State)
    requires Inv(s) && Next(s, step, s') && (step.SelfUpdate? || step.AddLink?)
    ensures Inv(s')
  {
    forall c, b, k ensures SentIsKnown(s', c, b, k) {
      assert SentIsKnown(s, c, b, k);
      if Marked(s', c, b, k) { PromiseStands(s, step, s', c, b, k, s.nodes[c].infos[k]); }
    }
    forall m | m in s'.net ensures Holds(s', m.src, m.ann.key, m.ann.info) {
      if m in s.net { SendersHold(s, step, s', m); } else { assert m in step.batch; }
    }
  }

  /** Forgetting a peer forgets what it was sent, so nothing is promised any more. */
  lemma RemovePreserves(s: State, a: Key, b: Key, s': State)
    requires Inv(s) && Next(s, RemovePeer(a, b), s')
    ensures Inv(s')
  {
    forall c, d, k ensures SentIsKnown(s', c, d, k) {
      assert SentIsKnown(s, c, d, k);
    }
  }

  // ------------------------------------------------- what forgetting may take away

  /** Whoever marked `k` as sent to `a` has its entry in flight to `a`, and `a`
      has nothing about `k` in flight. */
  ghost predicate ExpiresSafely(s: State, a: Key, k: Key)
  {
    && (forall b :: Marked(s, b, a, k) && b != a && k in s.nodes[b].infos ==>
        InFlight(s, b, a, Ann(k, s.nodes[b].infos[k])))
    && (forall m :: m in s.net && m.src == a ==> m.ann.key != k)
  }

  /** An expiring entry keeps the invariant if and only if nobody relies on it. */
  lemma ExpiryKeepsInvExactly(s: State, a: Key, k: Key, s': State)
    requires Inv(s) && Next(s, Expire(a, k), s')
    ensures Inv(s') <==> ExpiresSafely(s, a, k)
  {
    if ExpiresSafely(s, a, k) { SafeExpiryPreserves(s, a, k, s'); }
    if Inv(s') {
      forall b | Marked(s, b, a, k) && b != a && k in s.nodes[b].infos
        ensures InFlight(s, b, a, Ann(k, s.nodes[b].infos[k]))
      {
        assert SentIsKnown(s', b, a, k);
      }
      forall m | m in s.net && m.src == a ensures m.ann.key != k {
        assert m in s'.net;
      }
    }
  }

  lemma SafeExpiryPreserves(s: State, a: Key, k: Key, s': State)
    requires Inv(s) && Next(s, Expire(a, k), s') && ExpiresSafely(s, a, k)
    ensures Inv(s')
  {
    forall c, b, j ensures SentIsKnown(s', c, b, j) {
      assert SentIsKnown(s, c, b, j);
    }
  }

  ghost predicate InFlightElsewhere(s: State, link: nat, a: Key, b: Key, ann: Ann)
  {
    exists m :: m in s.net && m.src == a && m.dst == b && m.link != link && m.ann == ann
  }

  /** Every promise is kept by what the other end holds or by a message on another link. */
  ghost predicate LosesSafely(s: State, link: nat)
  {
    forall a, b, k :: Marked(s, a, b, k) && k in s.nodes[a].infos && !Holds(s, b, k, s.nodes[a].infos[k]) ==>
      || InFlightElsewhere(s, link, a, b, Ann(k, s.nodes[a].infos[k]))
      || ContestedElsewhere(s, link, a, b, k, s.nodes[a].infos[k])
  }

  ghost predicate ContestedElsewhere(s: State, link: nat, a: Key, b: Key, k: Key, i: Info)
  {
    && b in s.nodes && k in s.nodes[b].infos && SameRank(s.nodes[b].infos[k], i)
    && InFlightElsewhere(s, link, b, a, Ann(k, s.nodes[b].infos[k]))
  }

  lemma StillInFlight(s: State, link: nat, s': State, a: Key, b: Key, ann: Ann)
    requires Next(s, LoseLink(link), s')
    ensures InFlight(s', a, b, ann) <==> InFlightElsewhere(s, link, a, b, ann)
  {
    if InFlight(s', a, b, ann) {
      var m :| m in s'.net && m.src == a && m.dst == b && m.ann == ann;
      assert m in s.net && m.link != link;
    }
    if InFlightElsewhere(s, link, a, b, ann) {
      var m :| m in s.net && m.src == a && m.dst == b && m.link != link && m.ann == ann;
      assert m in s'.net;
    }
  }

  /** A failing link keeps the invariant if and only if all it carried that a mark
      relies on is in flight on another link as well. */
  lemma LossKeepsInvExactly(s: State, link: nat, s': State)
    requires Inv(s) && Next(s, LoseLink(link), s')
    ensures Inv(s') <==> LosesSafely(s, link)
  {
    if LosesSafely(s, link) {
      forall a, b, k ensures SentIsKnown(s', a, b, k) {
        assert SentIsKnown(s, a, b, k);
        if Marked(s, a, b, k) { PromiseAfterLoss(s, link, s', a, b, k); }
      }
    }
    if Inv(s') {
      forall a, b, k | Marked(s, a, b, k) && k in s.nodes[a].infos && !Holds(s, b, k, s.nodes[a].infos[k])
        ensures || InFlightElsewhere(s, link, a, b, Ann(k, s.nodes[a].infos[k]))
                || ContestedElsewhere(s, link, a, b, k, s.nodes[a].infos[k])
      {
        assert SentIsKnown(s', a, b, k);
        PromiseAfterLoss(s, link, s', a, b, k);
      }
    }
  }

  lemma PromiseAfterLoss(s: State, link: nat, s': State, a: Key, b: Key, k: Key)
    requires Next(s, LoseLink(link), s') && a in s.nodes && k in s.nodes[a].infos
    ensures var i := s.nodes[a].infos[k];
            Promised(s', a, b, k, i) <==>
              || Holds(s, b, k, i) || InFlightElsewhere(s, link, a, b, Ann(k, i))
              || ContestedElsewhere(s, link, a, b, k, i)
  {
    StillInFlight(s, link, s', a, b, Ann(k, s.nodes[a].infos[k]));
    if b in s.nodes && k in s.nodes[b].infos { StillInFlight(s, link, s', b, a, Ann(k, s.nodes[b].infos[k])); }
  }

  /** The step forgets nothing that a mark relies on. */
  ghost predicate Safe(s: State, step: Step)
  {
    (step.Expire? ==> ExpiresSafely(s, step.self, step.key)) && (step.LoseLink? ==> LosesSafely(s, step.link))
  }

  /** Every step keeps the invariant if and only if it forgets nothing that a mark
      relies on: no other hypothesis on the announcements, the schedule or the
      order of delivery. */
  lemma InvPreserved(s: State, step: Step, s': State)
    requires Inv(s) && Next(s, step, s')
    ensures Inv(s') <==> Safe(s, step)
  {
    match step
    case Deliver(i) => DeliverPreserves(s, i, s');
    case Maintain(a, batch) => MaintainPreserves(s, a, batch, s');
    case SelfUpdate(_, _) => OtherPreserves(s, step, s');
    case AddLink(_, _, _) => OtherPreserves(s, step, s');
    case Expire(a, k) => ExpiryKeepsInvExactly(s, a, k, s');
    case RemovePeer(a, b) => RemovePreserves(s, a, b, s');
    case LoseLink(link) => LossKeepsInvExactly(s, link, s');
  }

  ghost predicate IsRun(states: seq<State>, steps: seq<Step>)
  {
    && |states| == |steps| + 1
    && forall i :: 0 <= i < |steps| ==> Next(states[i], steps[i], states[i + 1])
  }

  /** Routers as they start: no peers yet, nothing in flight. */
  ghost predicate Init(s: State)
  {
    s.net == [] && forall a :: a in s.nodes ==> s.nodes[a].sent == map[]
  }

  lemma {:induction false} InvAlongRun(states: seq<State>, steps: seq<Step>)
    requires IsRun(states, steps) && Init(states[0])
    requires forall i :: 0 <= i < |steps| ==> Safe(states[i], steps[i])
    ensures Inv(states[|steps|])
    decreases |steps|
  {
    if steps != [] {
      var n := |steps| - 1;
      InvAlongRun(states[..n + 1], steps[..n]);
      InvPreserved(states[n], steps[n], states[n + 1]);
    }
  }

  // ---------------------------------------------------------- local consistency

  /** Nothing left to deliver, and nothing left for any maintenance to send. */
  ghost predicate Quiescent(s: State)
  {
    && (forall m :: m in s.net ==> !Deliverable(s, m))
    && forall a, b :: a in s.nodes && b in s.nodes[a].sent ==> Owed(s.nodes[a], a, b) == {}
  }

  ghost predicate Neighbours(s: State, a: Key, b: Key)
  {
    a in s.nodes && b in s.nodes && b in s.nodes[a].sent && a in s.nodes[b].sent
  }

  /** `a` and `b` see the same ancestry, entry by entry, above `x`. */
  ghost predicate AgreeAbove(s: State, a: Key, b: Key, x: Key)
    requires a in s.nodes && b in s.nodes
  {
    var t, u := s.nodes[a].infos, s.nodes[b].infos;
    && Chain(t, x, {}) == Chain(u, x, {})
    && forall k :: k in Chain(t, x, {}) ==> k in t && k in u && t[k] == u[k]
  }

  lemma OwedNothingIsDominated(s: State, a: Key, b: Key, x: Key, k: Key)
    requires Inv(s) && Quiescent(s) && Neighbours(s, a, b) && (x == a || x == b)
    requires k in Chain(s.nodes[a].infos, x, {})
    ensures k in s.nodes[a].infos && Holds(s, b, k, s.nodes[a].infos[k])
  {
    assert k !in Owed(s.nodes[a], a, b);
    assert k in Elements(Chain(s.nodes[a].infos, x, {}));
    assert k in s.nodes[a].sent[b];
    assert SentIsKnown(s, a, b, k);
    NothingBetween(s, a, b);
    NothingBetween(s, b, a);
  }

  lemma NothingBetween(s: State, a: Key, b: Key)
    requires Quiescent(s) && Neighbours(s, a, b)
    ensures forall ann :: !InFlight(s, a, b, ann)
  {
    assert forall m :: m in s.net && m.src == a && m.dst == b ==> Deliverable(s, m);
  }

  /** Local consistency: at quiescence neighbours hold the same entries for the
      whole ancestry of both of them, whatever announcements are about. */
  lemma QuiescentNeighboursAgree(s: State, a: Key, b: Key)
    requires Inv(s) && Quiescent(s) && Neighbours(s, a, b)
    ensures AgreeAbove(s, a, b, a) && AgreeAbove(s, a, b, b)
  {
    AgreeOn(s, a, b, a);
    AgreeOn(s, a, b, b);
  }

  lemma AgreeOn(s: State, a: Key, b: Key, x: Key)
    requires Inv(s) && Quiescent(s) && Neighbours(s, a, b) && (x == a || x == b)
    ensures AgreeAbove(s, a, b, x)
  {
    var t, u := s.nodes[a].infos, s.nodes[b].infos;
    forall k | k in Chain(t, x, {}) ensures k in t && k in u && Covers(u[k], t[k]) {
      OwedNothingIsDominated(s, a, b, x, k);
    }
    forall k | k in Chain(u, x, {}) ensures k in t && k in u && Covers(t[k], u[k]) {
      OwedNothingIsDominated(s, b, a, x, k);
    }
    MutualDominanceAgrees(t, u, x, {});
  }

  /** So in every run that forgets nothing relied on, neighbours that disagree on
      an ancestry still have something to deliver or to send. */
  lemma DisagreementIsNotRest(states: seq<State>, steps: seq<Step>, a: Key, b: Key)
    requires IsRun(states, steps) && Init(states[0])
    requires forall i :: 0 <= i < |steps| ==> Safe(states[i], steps[i])
    requires var s := states[|steps|]; Neighbours(s, a, b) && !(AgreeAbove(s, a, b, a) && AgreeAbove(s, a, b, b))
    ensures !Quiescent(states[|steps|])
  {
    InvAlongRun(states, steps);
    if Quiescent(states[|steps|]) { QuiescentNeighboursAgree(states[|steps|], a, b); }
  }
}
