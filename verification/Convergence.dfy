/** Gossip comes to rest.  Once no node changes its own entry, every step of
    the protocol lowers a well-founded measure, so a fair run reaches a state
    where nothing is left to deliver, nothing is owed, and neighbours agree. */
module Convergence {
  import opened Keys
  import opened Tables
  import opened NodeSpec
  import opened Gossip

  /** The finitely many announcements in play; a rank occurs once per key. */
  ghost predicate Universe(u: set<Ann>)
  {
    forall x, y :: x in u && y in u && x.key == y.key && SameRank(x.info, y.info) ==> x == y
  }

  /** Every entry and every message in flight comes from `u`. */
  ghost predicate Within(s: State, u: set<Ann>)
  {
    && (forall a, k :: a in s.nodes && k in s.nodes[a].infos ==> Ann(k, s.nodes[a].infos[k]) in u)
    && (forall m :: m in s.net ==> m.ann in u)
  }

  /** A corrective reply strictly outranks the message it answers. */
  lemma ReplyOutranks(n: Node, from: Key, ann: Ann, u: set<Ann>)
    requires Universe(u) && ann in u && from in n.sent
    requires ann.key in n.infos && Ann(ann.key, n.infos[ann.key]) in u
    ensures var reply := Handle(n, from, ann).1;
            |reply| <= 1 && (reply != [] ==> reply[0].key == ann.key && Better(reply[0].info, ann.info))
  {
  }

  /** Without that hypothesis there is exactly one way a reply can fail to
      outrank: equal sequence number, parent and nonce, but another port. */
  lemma ReplyOutranksUnlessConflict(n: Node, from: Key, ann: Ann)
    requires from in n.sent && Handle(n, from, ann).1 != []
    ensures var reply := Handle(n, from, ann).1[0];
            reply.key == ann.key && reply != ann && (Better(reply.info, ann.info) <==> !SameRank(reply.info, ann.info))
  {
  }

  /** And then the two nodes can answer each other for ever: delivering the reply
      to the first sender puts the first message back in flight. */
  lemma ConflictGoesRound(s: State, k: Key, a: Key, b: Key, link: nat)
    requires a != b && a in s.nodes && b in s.nodes && b in s.nodes[a].sent && a in s.nodes[b].sent
    requires k in s.nodes[a].infos && k in s.nodes[b].infos
    requires SameRank(s.nodes[a].infos[k], s.nodes[b].infos[k]) && s.nodes[a].infos[k] != s.nodes[b].infos[k]
    requires k in s.nodes[a].sent[b] && k in s.nodes[b].sent[a]
    requires s.net == [Msg(a, b, link, Ann(k, s.nodes[a].infos[k]))]
    ensures exists s' :: s' != s && Next(s, Deliver(0), s') && Next(s', Deliver(0), s)
  {
    var there := Msg(b, a, link, Ann(k, s.nodes[b].infos[k]));
    var s' := State(s.nodes, [there]);
    NothingMarked(s.nodes[b], a, k);
    NothingMarked(s.nodes[a], b, k);
    assert s.nodes[b := s.nodes[b]] == s.nodes && s.nodes[a := s.nodes[a]] == s.nodes;
    assert Drop(s.net, 0) == [] && Drop(s'.net, 0) == [];
    assert Next(s, Deliver(0), s');
    assert Next(s', Deliver(0), s);
  }

  lemma NothingMarked(n: Node, peer: Key, k: Key)
    requires peer in n.sent && k in n.sent[peer]
    ensures MarkSent(n, peer, k) == n
  {
    assert n.sent[peer] + {k} == n.sent[peer];
    assert n.sent[peer := n.sent[peer]] == n.sent;
  }

  // ------------------------------------------------------------------- measure

  /** Announcements that node `a` would still accept. */
  ghost function Improvable(s: State, u: set<Ann>): (r: set<(Key, Ann)>)
  {
    set a, x | a in s.nodes && x in u && Accepts(s.nodes[a].infos, x) :: (a, x)
  }

  /** Keys not yet marked as sent, per directed neighbour pair. */
  ghost function Unsent(s: State, u: set<Ann>): (r: set<(Key, Key, Key)>)
  {
    set a, b, x | a in s.nodes && b in s.nodes[a].sent && x in u && x.key !in s.nodes[a].sent[b] :: (a, b, x.key)
  }

  /** How many announcements of the same key outrank this one. */
  ghost function Above(x: Ann, u: set<Ann>): (n: nat)
  {
    |set y | y in u && y.key == x.key && Better(y.info, x.info)|
  }

  ghost function Weight(net: seq<Msg>, u: set<Ann>): (w: nat)
  {
    if net == [] then 0 else Weight(net[..|net| - 1], u) + 1 + Above(net[|net| - 1].ann, u)
  }

  lemma {:induction false} WeightConcat(p: seq<Msg>, q: seq<Msg>, u: set<Ann>)
    ensures Weight(p + q, u) == Weight(p, u) + Weight(q, u)
  {
    if q == [] {
      assert p + q == p;
    } else {
      assert (p + q)[..|p + q| - 1] == p + q[..|q| - 1];
      WeightConcat(p, q[..|q| - 1], u);
    }
  }

  lemma WeightDrop(net: seq<Msg>, i: nat, u: set<Ann>)
    requires i < |net|
    ensures Weight(net, u) == Weight(Drop(net, i), u) + 1 + Above(net[i].ann, u)
  {
    assert net == net[..i] + ([net[i]] + net[i + 1..]);
    WeightConcat(net[..i], [net[i]] + net[i + 1..], u);
    WeightConcat([net[i]], net[i + 1..], u);
    WeightConcat(net[..i], net[i + 1..], u);
    assert [net[i]][..0] == [];
    assert Weight([net[i]], u) == 1 + Above(net[i].ann, u);
  }

  lemma AboveIsMonotone(x: Ann, y: Ann, u: set<Ann>)
    requires x.key == y.key && x in u && Better(x.info, y.info)
    ensures Above(x, u) < Above(y, u)
  {
    var ax := set z | z in u && z.key == x.key && Better(z.info, x.info);
    var ay := set z | z in u && z.key == y.key && Better(z.info, y.info);
    assert x in ay && x !in ax;
    ProperSubsetIsSmaller(ax, ay);
  }

  ghost predicate Less3(a: (nat, nat, nat), b: (nat, nat, nat))
  {
    a.0 < b.0 || (a.0 == b.0 && (a.1 < b.1 || (a.1 == b.1 && a.2 < b.2)))
  }

  ghost function Measure(s: State, u: set<Ann>): (m: (nat, nat, nat))
  {
    (|Improvable(s, u)|, |Unsent(s, u)|, Weight(s.net, u))
  }

  ghost predicate GossipStep(step: Step) { step.Deliver? || step.Maintain? }

  lemma WithinPreserved(s: State, step: Step, s': State, u: set<Ann>)
    requires Within(s, u) && Next(s, step, s') && GossipStep(step)
    ensures Within(s', u)
  {
    match step
    case Deliver(i) =>
      var m := s.net[i];
      assert m in s.net;
      forall x | x in s'.net ensures x.ann in u {
        InDrop(s.net, i, x);
      }
    case Maintain(a, batch) =>
      forall x | x in s'.net ensures x.ann in u {
        assert x in s.net || x in batch;
      }
  }

  lemma DeliverLowers(s: State, i: nat, s': State, u: set<Ann>)
    requires Universe(u) && Within(s, u) && Next(s, Deliver(i), s')
    ensures Less3(Measure(s', u), Measure(s, u))
  {
    var m := s.net[i];
    assert m in s.net;
    var n := s.nodes[m.dst];
    var r := Handle(n, m.src, m.ann);
    if Accepts(n.infos, m.ann) {
      assert (m.dst, m.ann) in Improvable(s, u);
      assert (m.dst, m.ann) !in Improvable(s', u);
      assert Improvable(s', u) < Improvable(s, u);
      ProperSubsetIsSmaller(Improvable(s', u), Improvable(s, u));
    } else {
      assert Improvable(s', u) == Improvable(s, u);
      assert Unsent(s', u) <= Unsent(s, u);
      SubsetIsNotLarger(Unsent(s', u), Unsent(s, u));
      assert Ann(m.ann.key, n.infos[m.ann.key]) in u;
      ReplyOutranks(n, m.src, m.ann, u);
      var back := Replies(m, r.1);
      WeightDrop(s.net, i, u);
      WeightConcat(Drop(s.net, i), back, u);
      if r.1 == [] {
        assert back == [];
      } else {
        assert back == [Msg(m.dst, m.src, m.link, r.1[0])] && back[..0] == [];
        AboveIsMonotone(r.1[0], m.ann, u);
      }
    }
  }

  lemma IdleSendAll(n: Node, a: Key)
    requires forall b :: b in n.sent ==> Owed(n, a, b) == {}
    ensures SendAll(n, a) == n
  {
    var n' := SendAll(n, a);
    assert n'.sent.Keys == n.sent.Keys;
    forall b | b in n.sent ensures n'.sent[b] == n.sent[b] {
      assert Owed(n, a, b) == {};
    }
    assert n'.sent == n.sent;
  }

  lemma BatchNeedsDebt(n: Node, a: Key, batch: seq<Msg>)
    requires OwedBatch(n, a, batch) && batch != []
    ensures exists b :: b in n.sent && Owed(n, a, b) != {}
  {
    assert batch[0] in batch;
    assert batch[0].dst in AllOwed(n, a);
  }

  lemma NothingOwedNothingChanges(s: State, a: Key, batch: seq<Msg>, s': State)
    requires Next(s, Maintain(a, batch), s')
    requires forall b :: b in s.nodes[a].sent ==> Owed(s.nodes[a], a, b) == {}
    ensures s' == s
  {
    IdleSendAll(s.nodes[a], a);
    if batch != [] { BatchNeedsDebt(s.nodes[a], a, batch); }
    assert s'.nodes == s.nodes;
    assert s'.net == s.net;
  }

  /** Something owed by `a` to `b` is unsent before maintenance and sent after. */
  lemma OwedBecomesSent(s: State, a: Key, b: Key, batch: seq<Msg>, s': State, u: set<Ann>)
    requires Within(s, u) && Next(s, Maintain(a, batch), s')
    requires b in s.nodes[a].sent && Owed(s.nodes[a], a, b) != {}
    ensures Unsent(s', u) < Unsent(s, u)
  {
    var n := s.nodes[a];
    var k :| k in Owed(n, a, b);
    OwedIsKnown(n, a, b, k);
    var x := Ann(k, n.infos[k]);
    assert x in u && x.key !in n.sent[b];
    assert (a, b, k) in Unsent(s, u);
    assert k in SendAll(n, a).sent[b];
    assert (a, b, k) !in Unsent(s', u);
    NothingUnsentAnew(s, a, batch, s', u);
  }

  lemma NothingUnsentAnew(s: State, a: Key, batch: seq<Msg>, s': State, u: set<Ann>)
    requires Next(s, Maintain(a, batch), s')
    ensures Unsent(s', u) <= Unsent(s, u)
  {
    forall c, b, k | (c, b, k) in Unsent(s', u) ensures (c, b, k) in Unsent(s, u) {
      var x :| x in u && x.key == k && k !in s'.nodes[c].sent[b];
    }
  }

  lemma MaintainLowers(s: State, a: Key, batch: seq<Msg>, s': State, u: set<Ann>)
    requires Within(s, u) && Next(s, Maintain(a, batch), s') && s' != s
    ensures Less3(Measure(s', u), Measure(s, u))
  {
    if forall b :: b in s.nodes[a].sent ==> Owed(s.nodes[a], a, b) == {} {
      NothingOwedNothingChanges(s, a, batch, s');
      assert false;
    }
    var b :| b in s.nodes[a].sent && Owed(s.nodes[a], a, b) != {};
    OwedBecomesSent(s, a, b, batch, s', u);
    ProperSubsetIsSmaller(Unsent(s', u), Unsent(s, u));
    assert Improvable(s', u) == Improvable(s, u);
  }

  /** Every gossip step that changes anything lowers the measure. */
  lemma StepLowers(s: State, step: Step, s': State, u: set<Ann>)
    requires Universe(u) && Within(s, u) && Next(s, step, s') && GossipStep(step) && s' != s
    ensures Less3(Measure(s', u), Measure(s, u))
  {
    match step
    case Deliver(i) => DeliverLowers(s, i, s', u);
    case Maintain(a, batch) => MaintainLowers(s, a, batch, s', u);
  }

  // --------------------------------------------------------------- infinite runs

  /** An infinite run of deliveries and maintenance, from some point on. */
  ghost predicate GossipRun(states: nat -> State, steps: nat -> Step)
  {
    forall t: nat :: GossipStep(steps(t)) && Next(states(t), steps(t), states(t + 1))
  }

  /** Every node keeps doing maintenance, and while something deliverable is in
      flight a delivery eventually happens. */
  ghost predicate Fair(states: nat -> State, steps: nat -> Step)
  {
    && (forall t: nat, a: Key {:trigger a in states(t).nodes} :: a in states(t).nodes ==>
          exists t': nat :: t <= t' && steps(t').Maintain? && steps(t').self == a)
    && (forall t: nat, m: Msg {:trigger m in states(t).net} :: m in states(t).net && Deliverable(states(t), m) ==>
          exists t': nat :: t <= t' && steps(t').Deliver?)
  }

  ghost predicate StableFrom(states: nat -> State, j: nat)
  {
    forall t: nat :: j <= t ==> states(t) == states(j)
  }

  lemma {:induction false} UnchangedUntil(states: nat -> State, j: nat, t: nat)
    requires j <= t
    requires forall i: nat :: j <= i ==> states(i + 1) == states(i)
    ensures states(t) == states(j)
    decreases t - j
  {
    if j < t {
      UnchangedUntil(states, j, t - 1);
      assert states(t - 1 + 1) == states(t - 1);
    }
  }

  lemma {:induction false} WithinAlongRun(states: nat -> State, steps: nat -> Step, u: set<Ann>, t: nat)
    requires GossipRun(states, steps) && Within(states(0), u)
    ensures Within(states(t), u)
  {
    if t > 0 {
      WithinAlongRun(states, steps, u, t - 1);
      assert Next(states(t - 1), steps(t - 1), states(t - 1 + 1));
      WithinPreserved(states(t - 1), steps(t - 1), states(t), u);
    }
  }

  lemma {:induction false} InvAlongGossip(states: nat -> State, steps: nat -> Step, t: nat)
    requires GossipRun(states, steps) && Inv(states(0))
    ensures Inv(states(t))
  {
    if t > 0 {
      InvAlongGossip(states, steps, t - 1);
      assert Next(states(t - 1), steps(t - 1), states(t - 1 + 1));
      InvPreserved(states(t - 1), steps(t - 1), states(t));
    }
  }

  lemma {:induction false} FirstChange(states: nat -> State, i: nat, t: nat) returns (f: nat)
    requires i <= t && states(t + 1) != states(t)
    ensures i <= f && states(f) == states(i) && states(f + 1) != states(f)
    decreases t - i
  {
    if states(i + 1) != states(i) {
      f := i;
    } else {
      f := FirstChange(states, i + 1, t);
    }
  }

  /** Every run stops changing, whatever the schedule. */
  lemma {:induction false} RunsStabilize(states: nat -> State, steps: nat -> Step, u: set<Ann>, i: nat)
    returns (j: nat)
    requires GossipRun(states, steps) && Universe(u) && Within(states(0), u)
    ensures i <= j && StableFrom(states, j)
    decreases Measure(states(i), u).0, Measure(states(i), u).1, Measure(states(i), u).2
  {
    if t: nat :| i <= t && states(t + 1) != states(t) {
      var f := FirstChange(states, i, t);
      WithinAlongRun(states, steps, u, f);
      assert Next(states(f), steps(f), states(f + 1));
      StepLowers(states(f), steps(f), states(f + 1), u);
      j := RunsStabilize(states, steps, u, f + 1);
    } else {
      j := i;
      forall t: nat | j <= t ensures states(t) == states(j) {
        UnchangedUntil(states, j, t);
      }
    }
  }

  lemma StableMeansQuiescent(states: nat -> State, steps: nat -> Step, u: set<Ann>, j: nat)
    requires GossipRun(states, steps) && Fair(states, steps) && Universe(u) && Within(states(0), u)
    requires StableFrom(states, j)
    ensures Quiescent(states(j))
  {
    var s := states(j);
    WithinAlongRun(states, steps, u, j);
    if m :| m in s.net && Deliverable(s, m) {
      assert m in states(j).net;
      var t: nat :| j <= t && steps(t).Deliver?;
      assert Next(states(t), steps(t), states(t + 1));
      assert states(t) == s && states(t + 1) == s;
      DeliverLowers(s, steps(t).i, s, u);
      assert false;
    }
    forall a, b | a in s.nodes && b in s.nodes[a].sent ensures Owed(s.nodes[a], a, b) == {} {
      assert a in states(j).nodes;
      var t: nat :| j <= t && steps(t).Maintain? && steps(t).self == a;
      assert Next(states(t), steps(t), states(t + 1));
      assert states(t) == s && states(t + 1) == s;
      assert SendAll(s.nodes[a], a) == s.nodes[a];
      assert s.nodes[a].sent[b] == s.nodes[a].sent[b] + Owed(s.nodes[a], a, b);
    }
  }

  /** Main liveness result.  Take any infinite fair run in which nodes only
      deliver and do maintenance, starting from a state of the protocol whose
      announcements are identified by (key, seq, parent, nonce).  From some
      point on nothing is left to deliver, nothing is owed, and any two neighbours
      hold identical entries for the ancestry of both. */
  lemma GossipConverges(states: nat -> State, steps: nat -> Step, u: set<Ann>) returns (j: nat)
    requires GossipRun(states, steps) && Fair(states, steps)
    requires Universe(u) && Within(states(0), u) && Inv(states(0))
    ensures forall t: nat :: j <= t ==> states(t) == states(j)
    ensures Quiescent(states(j))
    ensures forall a, b :: Neighbours(states(j), a, b) ==>
              AgreeAbove(states(j), a, b, a) && AgreeAbove(states(j), a, b, b)
  {
    j := RunsStabilize(states, steps, u, 0);
    InvAlongGossip(states, steps, j);
    StableMeansQuiescent(states, steps, u, j);
    forall a, b | Neighbours(states(j), a, b)
      ensures AgreeAbove(states(j), a, b, a) && AgreeAbove(states(j), a, b, b)
    {
      QuiescentNeighboursAgree(states(j), a, b);
    }
  }

  // ------------------------------------------------------------- lasting conflicts

  /** `a` and `b` are neighbours and hold different entries of one rank for `k`,
      which nothing in play outranks. */
  ghost predicate TopConflict(s: State, u: set<Ann>, a: Key, b: Key, k: Key)
  {
    && Neighbours(s, a, b) && k in s.nodes[a].infos && k in s.nodes[b].infos
    && s.nodes[a].infos[k] != s.nodes[b].infos[k] && SameRank(s.nodes[a].infos[k], s.nodes[b].infos[k])
    && forall x :: x in u && x.key == k ==> !Better(x.info, s.nodes[a].infos[k])
  }

  /** A step of gossip leaves an entry that nothing in play outranks, and the links. */
  lemma TopEntryStays(s: State, step: Step, s': State, u: set<Ann>, a: Key, k: Key)
    requires Within(s, u) && Next(s, step, s') && GossipStep(step) && a in s.nodes && k in s.nodes[a].infos
    requires forall x :: x in u && x.key == k ==> !Better(x.info, s.nodes[a].infos[k])
    ensures a in s'.nodes && k in s'.nodes[a].infos && s'.nodes[a].infos[k] == s.nodes[a].infos[k]
    ensures s'.nodes[a].sent.Keys == s.nodes[a].sent.Keys
  {
    if step.Deliver? { assert s.net[step.i] in s.net; }
  }

  lemma {:induction false} ConflictLasts(states: nat -> State, steps: nat -> Step, u: set<Ann>, a: Key, b: Key, k: Key,
                                         t: nat)
    requires GossipRun(states, steps) && Within(states(0), u) && TopConflict(states(0), u, a, b, k)
    ensures TopConflict(states(t), u, a, b, k)
  {
    if t > 0 {
      ConflictLasts(states, steps, u, a, b, k, t - 1);
      WithinAlongRun(states, steps, u, t - 1);
      assert Next(states(t - 1), steps(t - 1), states(t - 1 + 1));
      TopEntryStays(states(t - 1), steps(t - 1), states(t), u, a, k);
      TopEntryStays(states(t - 1), steps(t - 1), states(t), u, b, k);
    }
  }

  /** Without unique ranks gossip need not settle: once two neighbours hold
      different entries of one top rank for either of them, no run of deliveries
      and maintenance, whatever the schedule, ever comes to rest. */
  lemma ConflictNeverSettles(states: nat -> State, steps: nat -> Step, u: set<Ann>, a: Key, b: Key, k: Key, t: nat)
    requires GossipRun(states, steps) && Within(states(0), u) && Inv(states(0))
    requires TopConflict(states(0), u, a, b, k) && (k == a || k == b)
    ensures !Quiescent(states(t))
  {
    ConflictLasts(states, steps, u, a, b, k, t);
    InvAlongGossip(states, steps, t);
    assert k in Chain(states(t).nodes[a].infos, k, {});
    if Quiescent(states(t)) { QuiescentNeighboursAgree(states(t), a, b); }
  }
}
