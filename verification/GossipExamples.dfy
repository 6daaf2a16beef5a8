/** Runs that show why the hypotheses of the gossip results are there. */
module GossipExamples {
  import opened Keys
  import opened Tables
  import opened NodeSpec
  import opened Gossip
  import Convergence
  import Spanning

  /** The steps lead from `s` to `s'`. */
  ghost predicate Leads(s: State, steps: seq<Step>, s': State)
  {
    exists states :: IsRun(states, steps) && states[0] == s && states[|steps|] == s'
  }

  lemma NoStep(s: State)
    ensures Leads(s, [], s)
  {
    assert IsRun([s], []) && [s][0] == s;
  }

  lemma OneMore(s: State, steps: seq<Step>, s1: State, step: Step, s2: State)
    requires Leads(s, steps, s1) && Next(s1, step, s2)
    ensures Leads(s, steps + [step], s2)
  {
    var states :| IsRun(states, steps) && states[0] == s && states[|steps|] == s1;
    var more := states + [s2];
    assert IsRun(more, steps + [step]) && more[0] == s && more[|steps + [step]|] == s2;
  }

  lemma OneStep(s: State, step: Step, s1: State)
    requires Next(s, step, s1)
    ensures Leads(s, [step], s1)
  {
    NoStep(s);
    OneMore(s, [], s, step, s1);
    assert [] + [step] == [step];
  }

  lemma TwoSteps(s: State, t1: Step, s1: State, t2: Step, s2: State)
    requires Next(s, t1, s1) && Next(s1, t2, s2)
    ensures Leads(s, [t1, t2], s2)
  {
    OneStep(s, t1, s1);
    OneMore(s, [t1], s1, t2, s2);
    assert [t1] + [t2] == [t1, t2];
  }

  lemma {:induction false} Join(s: State, p: seq<Step>, m: State, q: seq<Step>, e: State)
    requires Leads(s, p, m) && Leads(m, q, e)
    ensures Leads(s, p + q, e)
  {
    var xs :| IsRun(xs, p) && xs[0] == s && xs[|p|] == m;
    var ys :| IsRun(ys, q) && ys[0] == m && ys[|q|] == e;
    var zs := xs + ys[1..];
    forall i | 0 <= i < |p + q| ensures Next(zs[i], (p + q)[i], zs[i + 1]) {
      if i >= |p| { assert Next(ys[i - |p|], q[i - |p|], ys[i - |p| + 1]); }
    }
    assert IsRun(zs, p + q) && zs[0] == s && zs[|p + q|] == e;
  }

  // ------------------------------------------------------------------- expiry

  /** Two settled routers, after the first one's entry for the second expired. */
  function Expired(): (s: State)
  {
    State(map[1 := Node(map[1 := Spanning.PAIR[1]], map[2 := {1}]), 2 := Node(Spanning.PAIR, map[1 := {1, 2}])], [])
  }

  /** The marks of the second say that the first was told, so nothing is owed any
      more, and the neighbours disagree for good. */
  lemma ExpiryDisagrees()
    ensures Inv(Spanning.Pair()) && Quiescent(Spanning.Pair()) && Next(Spanning.Pair(), Expire(1, 2), Expired())
    ensures Quiescent(Expired()) && Neighbours(Expired(), 1, 2) && !AgreeAbove(Expired(), 1, 2, 2)
  {
    Spanning.PairInv();
    Spanning.PairIsQuiescent();
    ExpiredIsNext();
    ExpiredOwesNothing();
  }

  lemma ExpiredIsNext()
    ensures Next(Spanning.Pair(), Expire(1, 2), Expired())
  {
    var n := Node(Spanning.PAIR, map[2 := {1, 2}]);
    assert Forget(n, 2).infos == map[1 := Spanning.PAIR[1]];
    assert {1, 2} - {2} == {1};
    assert Forget(n, 2).sent == map[2 := {1}];
    assert Expired().nodes == Spanning.Pair().nodes[1 := Forget(n, 2)];
  }

  lemma ExpiredOwesNothing()
    ensures Owed(Expired().nodes[1], 1, 2) == {} && Owed(Expired().nodes[2], 2, 1) == {}
    ensures Quiescent(Expired()) && !AgreeAbove(Expired(), 1, 2, 2)
  {
    Spanning.PairChains();
    ChainUnique(map[1 := Spanning.PAIR[1]], 1, {}, [1]);
    ChainUnique(map[1 := Spanning.PAIR[1]], 2, {}, []);
  }

  // ----------------------------------------------------------------- two routers

  /** The routers 1 and 2, with what they know and what they marked as sent. */
  function Two(t1: Table, sent1: set<Key>, t2: Table, sent2: set<Key>, net: seq<Msg>): (s: State)
  {
    State(map[1 := Node(t1, map[2 := sent1]), 2 := Node(t2, map[1 := sent2])], net)
  }

  /** Neither has a peer yet. */
  function Unlinked(t1: Table, t2: Table): (s: State) { State(map[1 := Node(t1, map[]), 2 := Node(t2, map[])], []) }

  /** Both connect to each other. */
  lemma Connect(t1: Table, t2: Table)
    ensures Leads(Unlinked(t1, t2), [AddLink(1, 2, []), AddLink(2, 1, [])], Two(t1, {}, t2, {}, []))
  {
    var half := State(map[1 := Node(t1, map[2 := {}]), 2 := Node(t2, map[])], []);
    assert half.nodes == Unlinked(t1, t2).nodes[1 := Node(t1, map[2 := {}])];
    assert Two(t1, {}, t2, {}, []).nodes == half.nodes[2 := Node(t2, map[1 := {}])];
    TwoSteps(Unlinked(t1, t2), AddLink(1, 2, []), half, AddLink(2, 1, []), Two(t1, {}, t2, {}, []));
  }

  function Back(m: Msg, i: Info): (r: seq<Msg>)
  {
    if m.ann.info == i then [] else [Msg(m.dst, m.src, m.link, Ann(m.ann.key, i))]
  }

  /** Router 1 turns down what router 2 says. */
  lemma TurnedDownBy1(t1: Table, sent1: set<Key>, t2: Table, sent2: set<Key>, net: seq<Msg>, i: nat)
    requires i < |net| && net[i].src == 2 && net[i].dst == 1
    requires net[i].ann.key in t1 && !Better(net[i].ann.info, t1[net[i].ann.key])
    ensures Next(Two(t1, sent1, t2, sent2, net), Deliver(i),
                 Two(t1, sent1 + {net[i].ann.key}, t2, sent2, Drop(net, i) + Back(net[i], t1[net[i].ann.key])))
  {
    var n, m := Node(t1, map[2 := sent1]), net[i];
    var r := Handle(n, 2, m.ann);
    assert r.0 == Node(t1, map[2 := sent1 + {m.ann.key}]);
    assert Replies(m, r.1) == Back(m, t1[m.ann.key]);
    assert Two(t1, sent1, t2, sent2, net).nodes[1 := r.0] == Two(t1, sent1 + {m.ann.key}, t2, sent2, net).nodes;
  }

  /** Likewise the other way round. */
  lemma TurnedDownBy2(t1: Table, sent1: set<Key>, t2: Table, sent2: set<Key>, net: seq<Msg>, i: nat)
    requires i < |net| && net[i].src == 1 && net[i].dst == 2
    requires net[i].ann.key in t2 && !Better(net[i].ann.info, t2[net[i].ann.key])
    ensures Next(Two(t1, sent1, t2, sent2, net), Deliver(i),
                 Two(t1, sent1, t2, sent2 + {net[i].ann.key}, Drop(net, i) + Back(net[i], t2[net[i].ann.key])))
  {
    var n, m := Node(t2, map[1 := sent2]), net[i];
    var r := Handle(n, 1, m.ann);
    assert r.0 == Node(t2, map[1 := sent2 + {m.ann.key}]);
    assert Replies(m, r.1) == Back(m, t2[m.ann.key]);
    assert Two(t1, sent1, t2, sent2, net).nodes[2 := r.0] == Two(t1, sent1, t2, sent2 + {m.ann.key}, net).nodes;
  }

  /** A table of both routers in which the first is the root and the second its child. */
  ghost predicate ParentAndChild(t: Table) { t.Keys == {1, 2} && t[1].parent == 1 && t[2].parent == 1 }

  lemma BothChains(t: Table)
    requires ParentAndChild(t)
    ensures Chain(t, 1, {}) == [1] && Chain(t, 2, {}) == [2, 1]
  {
    ChainUnique(t, 1, {}, [1]);
    ChainUnique(t, 2, {}, [2, 1]);
  }

  lemma BothOwed(t: Table, sent: set<Key>)
    requires ParentAndChild(t)
    ensures Owed(Node(t, map[2 := sent]), 1, 2) == {1, 2} - sent
    ensures Owed(Node(t, map[1 := sent]), 2, 1) == {1, 2} - sent
  {
    BothChains(t);
    assert Elements([1]) == {1} && Elements([2, 1]) == {1, 2};
  }

  /** Router 1 tells router 2 both entries. */
  lemma ToldBoth(t1: Table, t2: Table, link: nat)
    requires ParentAndChild(t1)
    ensures var batch := [Msg(1, 2, link, Ann(1, t1[1])), Msg(1, 2, link, Ann(2, t1[2]))];
            Next(Two(t1, {}, t2, {}, []), Maintain(1, batch), Two(t1, {1, 2}, t2, {}, batch))
  {
    var n := Node(t1, map[2 := {}]);
    BothOwed(t1, {});
    assert {1, 2} - {} == {1, 2};
    BatchTellsBoth(n, link);
    assert SendAll(n, 1).sent[2] == {1, 2};
    assert SendAll(n, 1).sent == map[2 := {1, 2}];
    assert Two(t1, {}, t2, {}, []).nodes[1 := SendAll(n, 1)] == Two(t1, {1, 2}, t2, {}, []).nodes;
  }

  lemma BatchTellsBoth(n: Node, link: nat)
    requires n.sent.Keys == {2} && Owed(n, 1, 2) == {1, 2} && n.infos.Keys == {1, 2}
    ensures OwedBatch(n, 1, [Msg(1, 2, link, Ann(1, n.infos[1])), Msg(1, 2, link, Ann(2, n.infos[2]))])
  {
    var batch := [Msg(1, 2, link, Ann(1, n.infos[1])), Msg(1, 2, link, Ann(2, n.infos[2]))];
    assert Tells(n, 1, 2, 1, batch[0]) && Tells(n, 1, 2, 2, batch[1]);
  }

  // ---------------------------------------------------------------- a lost reply

  const NEW: Info := Info(1, 2, 0, 0, 0, 0)

  function Renewed(): (t: Table) { Spanning.PAIR[1 := NEW] }

  function Echo(k: Key): (m: Msg)
    requires k in Spanning.PAIR
  {
    Msg(2, 1, 1, Ann(k, Spanning.PAIR[k]))
  }

  function Reply(): (m: Msg) { Msg(1, 2, 1, Ann(1, NEW)) }

  function Settled(): (s: State) { Two(Spanning.PAIR, {1, 2}, Spanning.PAIR, {1, 2}, []) }

  lemma SettledIsPair()
    ensures Settled() == Spanning.Pair() && ParentAndChild(Spanning.PAIR) && ParentAndChild(Renewed())
  {
  }

  /** Two routers that know each other's entries settle after they connect. */
  lemma PairIsReached()
    ensures Init(Unlinked(Spanning.PAIR, Spanning.PAIR))
    ensures Leads(Unlinked(Spanning.PAIR, Spanning.PAIR), [AddLink(1, 2, []), AddLink(2, 1, [])] +
                  [Maintain(1, Told())] + [Deliver(0), Deliver(0)], Settled())
  {
    var t := Spanning.PAIR;
    SettledIsPair();
    Connect(t, t);
    ToldBoth(t, t, 0);
    OneMore(Unlinked(t, t), [AddLink(1, 2, []), AddLink(2, 1, [])], Two(t, {}, t, {}, []), Maintain(1, Told()),
            Two(t, {1, 2}, t, {}, Told()));
    BothHeard();
    Join(Unlinked(t, t), [AddLink(1, 2, []), AddLink(2, 1, [])] + [Maintain(1, Told())], Two(t, {1, 2}, t, {}, Told()),
         [Deliver(0), Deliver(0)], Settled());
  }

  function Told(): (batch: seq<Msg>)
  {
    [Msg(1, 2, 0, Ann(1, Spanning.PAIR[1])), Msg(1, 2, 0, Ann(2, Spanning.PAIR[2]))]
  }

  lemma BothHeard()
    ensures Leads(Two(Spanning.PAIR, {1, 2}, Spanning.PAIR, {}, Told()), [Deliver(0), Deliver(0)], Settled())
  {
    var t, batch := Spanning.PAIR, Told();
    TurnedDownBy2(t, {1, 2}, t, {}, batch, 0);
    assert Drop(batch, 0) + Back(batch[0], t[1]) == [batch[1]];
    assert {} + {1} == {1} && {1} + {2} == {1, 2};
    TurnedDownBy2(t, {1, 2}, t, {1}, [batch[1]], 0);
    assert Drop([batch[1]], 0) + Back(batch[1], t[2]) == [];
    TwoSteps(Two(t, {1, 2}, t, {}, batch), Deliver(0), Two(t, {1, 2}, t, {1}, [batch[1]]), Deliver(0), Settled());
  }

  /** Router 2 has a second link, and repeats over it what it sent before. */
  lemma Repeated()
    ensures Next(Settled(), AddLink(2, 1, [Echo(1), Echo(2)]),
                 Two(Spanning.PAIR, {1, 2}, Spanning.PAIR, {1, 2}, [Echo(1), Echo(2)]))
  {
    var n := Node(Spanning.PAIR, map[1 := {1, 2}]);
    var batch := [Echo(1), Echo(2)];
    assert Tells(n, 2, 1, 1, batch[0]) && Tells(n, 2, 1, 2, batch[1]);
    assert Announces(n, 2, map[1 := {1, 2}], batch);
  }

  /** Router 1 renews its entry, which unmarks it. */
  lemma Renews(net: seq<Msg>)
    ensures Next(Two(Spanning.PAIR, {1, 2}, Spanning.PAIR, {1, 2}, net), SelfUpdate(1, NEW),
                 Two(Renewed(), {2}, Spanning.PAIR, {1, 2}, net))
  {
    var n := Node(Spanning.PAIR, map[2 := {1, 2}]);
    assert {1, 2} - {1} == {2};
    assert Update(n, Ann(1, NEW)) == Node(Renewed(), map[2 := {2}]);
    assert Two(Spanning.PAIR, {1, 2}, Spanning.PAIR, {1, 2}, net).nodes[1 := Update(n, Ann(1, NEW))]
        == Two(Renewed(), {2}, Spanning.PAIR, {1, 2}, net).nodes;
  }

  /** The repeated messages arrive; the outdated one is corrected over its link. */
  lemma RepeatsHeard()
    ensures Leads(Two(Renewed(), {2}, Spanning.PAIR, {1, 2}, [Echo(1), Echo(2)]), [Deliver(1), Deliver(0)],
                  Two(Renewed(), {1, 2}, Spanning.PAIR, {1, 2}, [Reply()]))
  {
    var t, u := Renewed(), Spanning.PAIR;
    TurnedDownBy1(t, {2}, u, {1, 2}, [Echo(1), Echo(2)], 1);
    assert Drop([Echo(1), Echo(2)], 1) + Back(Echo(2), t[2]) == [Echo(1)];
    assert {2} + {2} == {2} && {2} + {1} == {1, 2};
    TurnedDownBy1(t, {2}, u, {1, 2}, [Echo(1)], 0);
    assert Drop([Echo(1)], 0) + Back(Echo(1), NEW) == [Reply()];
    TwoSteps(Two(t, {2}, u, {1, 2}, [Echo(1), Echo(2)]), Deliver(1), Two(t, {2}, u, {1, 2}, [Echo(1)]),
             Deliver(0), Two(t, {1, 2}, u, {1, 2}, [Reply()]));
  }

  lemma LinkLost()
    ensures Next(Two(Renewed(), {1, 2}, Spanning.PAIR, {1, 2}, [Reply()]), LoseLink(1),
                 Two(Renewed(), {1, 2}, Spanning.PAIR, {1, 2}, []))
  {
    assert Reply() in [Reply()] && [Reply()][..0] == [];
    assert Others([Reply()], 1) == [];
  }

  /** Two settled routers get a second link, over which router 2 repeats what it
      sent.  Router 1 has meanwhile renewed its entry; its correction goes back
      over that link only, and is lost with it. */
  lemma LostReplyRun()
    ensures Leads(Settled(), [AddLink(2, 1, [Echo(1), Echo(2)]), SelfUpdate(1, NEW)] + [Deliver(1), Deliver(0)] +
                  [LoseLink(1)], Two(Renewed(), {1, 2}, Spanning.PAIR, {1, 2}, []))
  {
    var s2 := Two(Renewed(), {2}, Spanning.PAIR, {1, 2}, [Echo(1), Echo(2)]);
    var s4 := Two(Renewed(), {1, 2}, Spanning.PAIR, {1, 2}, [Reply()]);
    Repeated();
    Renews([Echo(1), Echo(2)]);
    RepeatsHeard();
    LinkLost();
    var first, more := [AddLink(2, 1, [Echo(1), Echo(2)]), SelfUpdate(1, NEW)], [Deliver(1), Deliver(0)];
    TwoSteps(Settled(), first[0], Two(Spanning.PAIR, {1, 2}, Spanning.PAIR, {1, 2}, [Echo(1), Echo(2)]), first[1], s2);
    Join(Settled(), first, s2, more, s4);
    OneMore(Settled(), first + more, s4, LoseLink(1), Two(Renewed(), {1, 2}, Spanning.PAIR, {1, 2}, []));
  }

  /** So a reachable state can be quiescent while neighbours disagree. */
  lemma LostReplyDisagrees()
    ensures var s := Two(Renewed(), {1, 2}, Spanning.PAIR, {1, 2}, []);
            Quiescent(s) && Neighbours(s, 1, 2) && !AgreeAbove(s, 1, 2, 1)
  {
    SettledIsPair();
    BothChains(Spanning.PAIR);
    BothChains(Renewed());
    BothOwed(Renewed(), {1, 2});
    BothOwed(Spanning.PAIR, {1, 2});
  }

  // ------------------------------------------------------------------ a conflict

  const ROOT: Info := Info(1, 1, 0, 0, 0, 0)
  const ALONE: Info := Info(2, 1, 9, 0, 0, 0)
  const MINE: Info := Info(1, 2, 0, 4, 0, 0)
  const THEIRS: Info := Info(1, 2, 0, 3, 0, 0)

  /** What router 1 knows and remembers, and what router 2 knows in the end. */
  function Memory(): (t: Table) { map[1 := ROOT, 2 := THEIRS] }
  function Joined(): (t: Table) { map[1 := ROOT, 2 := MINE] }

  function News(k: Key): (m: Msg)
    requires k in Memory()
  {
    Msg(1, 2, 0, Ann(k, Memory()[k]))
  }

  function Claim(): (m: Msg) { Msg(2, 1, 0, Ann(2, MINE)) }

  function Conflict(): (s: State) { Two(Memory(), {1, 2}, Joined(), {1, 2}, [News(2)]) }

  /** Router 2 has started again: it makes itself a root. */
  lemma StartsAgain()
    ensures Next(Unlinked(Memory(), map[]), SelfUpdate(2, ALONE), Unlinked(Memory(), map[2 := ALONE]))
  {
    var none := Node(map[], map[]);
    assert Update(none, Ann(2, ALONE)) == Node(map[2 := ALONE], map[]);
    assert Unlinked(Memory(), map[]).nodes[2 := Update(none, Ann(2, ALONE))]
        == Unlinked(Memory(), map[2 := ALONE]).nodes;
  }

  /** It hears of router 1 before it hears of its own past, and adopts router 1. */
  lemma Adopts()
    ensures Leads(Two(Memory(), {1, 2}, map[2 := ALONE], {}, [News(1), News(2)]), [Deliver(0), SelfUpdate(2, MINE)],
                  Two(Memory(), {1, 2}, Joined(), {1}, [News(2)]))
  {
    var t, heard := map[2 := ALONE], map[1 := ROOT, 2 := ALONE];
    var n := Node(t, map[1 := {}]);
    var r := Handle(n, 1, News(1).ann);
    assert {} - {1} + {1} == {1} && {1} - {2} == {1};
    assert r.0 == Node(heard, map[1 := {1}]) && r.1 == [];
    var s0, s1 := Two(Memory(), {1, 2}, t, {}, [News(1), News(2)]), Two(Memory(), {1, 2}, heard, {1}, [News(2)]);
    assert Drop([News(1), News(2)], 0) + Replies(News(1), []) == [News(2)];
    assert s0.nodes[2 := r.0] == s1.nodes;
    var m := Node(heard, map[1 := {1}]);
    assert Update(m, Ann(2, MINE)) == Node(Joined(), map[1 := {1}]);
    assert s1.nodes[2 := Update(m, Ann(2, MINE))] == Two(Memory(), {1, 2}, Joined(), {1}, [News(2)]).nodes;
    TwoSteps(s0, Deliver(0), s1, SelfUpdate(2, MINE), Two(Memory(), {1, 2}, Joined(), {1}, [News(2)]));
  }

  /** Then its past arrives, and neither gives in. */
  lemma NeitherGivesIn(sent: set<Key>)
    requires sent == {1} || sent == {1, 2}
    ensures Leads(Two(Memory(), {1, 2}, Joined(), sent, [News(2)]), [Deliver(0), Deliver(0)], Conflict())
  {
    TurnedDownBy2(Memory(), {1, 2}, Joined(), sent, [News(2)], 0);
    assert Drop([News(2)], 0) + Back(News(2), MINE) == [Claim()];
    assert sent + {2} == {1, 2} && {1, 2} + {2} == {1, 2};
    TurnedDownBy1(Memory(), {1, 2}, Joined(), {1, 2}, [Claim()], 0);
    assert Drop([Claim()], 0) + Back(Claim(), THEIRS) == [News(2)];
    TwoSteps(Two(Memory(), {1, 2}, Joined(), sent, [News(2)]), Deliver(0),
             Two(Memory(), {1, 2}, Joined(), {1, 2}, [Claim()]), Deliver(0), Conflict());
  }

  lemma Remembered()
    ensures Leads(Unlinked(Memory(), map[]), [SelfUpdate(2, ALONE)] + [AddLink(1, 2, []), AddLink(2, 1, [])] +
                  [Maintain(1, [News(1), News(2)])], Two(Memory(), {1, 2}, map[2 := ALONE], {}, [News(1), News(2)]))
  {
    var t, s0 := map[2 := ALONE], Unlinked(Memory(), map[]);
    StartsAgain();
    OneStep(s0, SelfUpdate(2, ALONE), Unlinked(Memory(), t));
    Connect(Memory(), t);
    Join(s0, [SelfUpdate(2, ALONE)], Unlinked(Memory(), t), [AddLink(1, 2, []), AddLink(2, 1, [])],
         Two(Memory(), {}, t, {}, []));
    ToldBoth(Memory(), t, 0);
    OneMore(s0, [SelfUpdate(2, ALONE)] + [AddLink(1, 2, []), AddLink(2, 1, [])], Two(Memory(), {}, t, {}, []),
            Maintain(1, [News(1), News(2)]), Two(Memory(), {1, 2}, t, {}, [News(1), News(2)]));
  }

  /** Router 2 starts again, adopts router 1 as in its past, with the same sequence
      number and nonce but another port, and only then hears of its past. */
  lemma ConflictIsReached() returns (steps: seq<Step>)
    ensures Init(Unlinked(Memory(), map[])) && Leads(Unlinked(Memory(), map[]), steps, Conflict())
    ensures steps == [SelfUpdate(2, ALONE)] + [AddLink(1, 2, []), AddLink(2, 1, [])] +
                     [Maintain(1, [News(1), News(2)])] + [Deliver(0), SelfUpdate(2, MINE)] + [Deliver(0), Deliver(0)]
  {
    var s0, s4 := Unlinked(Memory(), map[]), Two(Memory(), {1, 2}, map[2 := ALONE], {}, [News(1), News(2)]);
    var s6 := Two(Memory(), {1, 2}, Joined(), {1}, [News(2)]);
    Remembered();
    Adopts();
    NeitherGivesIn({1});
    steps := [SelfUpdate(2, ALONE)] + [AddLink(1, 2, []), AddLink(2, 1, [])] + [Maintain(1, [News(1), News(2)])];
    Join(s0, steps, s4, [Deliver(0), SelfUpdate(2, MINE)], s6);
    steps := steps + [Deliver(0), SelfUpdate(2, MINE)];
    Join(s0, steps, s6, [Deliver(0), Deliver(0)], Conflict());
    steps := steps + [Deliver(0), Deliver(0)];
  }

  /** From there the two can answer each other for ever, and no schedule comes to rest. */
  lemma ConflictLoops()
    ensures Leads(Conflict(), [Deliver(0), Deliver(0)], Conflict())
    ensures Convergence.TopConflict(Conflict(), {Ann(1, ROOT), Ann(2, MINE), Ann(2, THEIRS)}, 1, 2, 2)
    ensures Convergence.Within(Conflict(), {Ann(1, ROOT), Ann(2, MINE), Ann(2, THEIRS)})
  {
    NeitherGivesIn({1, 2});
  }
}
