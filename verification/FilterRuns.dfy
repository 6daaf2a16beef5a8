/** Filters come to rest.  On a fixed tree, any fair run of filter maintenance and
    delivery, with filters overtaking each other at will, ends settled for good. */
module FilterRuns {
  import opened Basics
  import opened Keys
  import opened Tables
  import opened Coordinates
  import opened BloomSpec
  import Multicast

  /** A filter on its way; `id` tells copies apart. */
  datatype FMsg = FMsg(src: Key, dst: Key, filter: Filter, id: nat)

  datatype FState = FState(blooms: map<Key, Blooms>, net: set<FMsg>)

  datatype FStep = Deliver(m: FMsg) | Maintain(self: Key, batch: set<FMsg>)

  /** What does not change: the tree, what each node knows of it, and key bits. */
  datatype Setting = Setting(t: Table, root: Key, tables: map<Key, Table>, bits: Key -> Filter)

  /** `batch` carries what the filters' maintenance sends, each over one or more links. */
  ghost predicate Carries(a: Key, pass: (Blooms, map<Key, Filter>, set<Key>), batch: set<FMsg>)
  {
    && (forall m :: m in batch ==>
          m.src == a && ((m.dst in pass.1 && m.filter == pass.1[m.dst]) || (m.dst in pass.2 && m.filter == {})))
    && (forall k :: k in pass.1 ==> exists m :: m in batch && m.dst == k && m.filter == pass.1[k])
  }

  function Pass(w: Setting, s: FState, a: Key): (r: (Blooms, map<Key, Filter>, set<Key>))
    requires a in s.blooms && a in w.tables
  {
    BloomPass(w.bits(a), w.tables[a], a, s.blooms[a])
  }

  ghost predicate Next(w: Setting, s: FState, step: FStep, s': FState)
  {
    match step
    case Deliver(m) =>
      && m in s.net && s'.net == s.net - {m}
      && s'.blooms == (if m.dst in s.blooms && m.src in s.blooms[m.dst]
                       then s.blooms[m.dst := s.blooms[m.dst][m.src := s.blooms[m.dst][m.src].(recv := m.filter)]]
                       else s.blooms)
    case Maintain(a, batch) =>
      && a in s.blooms && a in w.tables && Carries(a, Pass(w, s, a), batch)
      && s'.blooms == s.blooms[a := Pass(w, s, a).0] && s'.net == s.net + batch
  }

  /** Everybody has filters for its tree neighbours and marked exactly those links,
      and knows enough of the tree to do so again. */
  ghost predicate Marked(w: Setting, s: FState)
  {
    && s.blooms.Keys == w.t.Keys && w.tables.Keys == w.t.Keys
    && (forall a, b :: a in w.t ==> (b in s.blooms[a] && s.blooms[a][b].onTree <==> TreeEdge(w.t, a, b)))
    && (forall a, b :: a in w.t && b in s.blooms[a] ==> (IsOnTree(w.tables[a], a, b) <==> TreeEdge(w.t, a, b)))
  }

  lemma RefitsNothing(w: Setting, s: FState, a: Key)
    requires Marked(w, s) && a in w.t
    ensures RefitAll(w.tables[a], a, s.blooms[a]) == s.blooms[a] && Blanked(w.tables[a], a, s.blooms[a]) == {}
  {
    forall b | b in s.blooms[a] ensures Refit(s.blooms[a][b], IsOnTree(w.tables[a], a, b)) == s.blooms[a][b] {
      assert IsOnTree(w.tables[a], a, b) <==> TreeEdge(w.t, a, b);
    }
  }

  /** What a maintenance of `a` does to its link with `b`. */
  lemma MaintainedLink(w: Setting, s: FState, a: Key, batch: set<FMsg>, s': FState, b: Key)
    requires Marked(w, s) && Next(w, s, Maintain(a, batch), s') && TreeEdge(w.t, a, b)
    ensures a in s'.blooms && b in s'.blooms[a] && b in s.blooms[a]
    ensures s'.blooms[a][b] == AfterRound(w.bits(a), s.blooms[a], b)
    ensures forall m :: m in batch && m.dst == b ==> m.filter == s'.blooms[a][b].send
    ensures Sends(w.bits(a), s.blooms[a], b) ==> exists m :: m in batch && m.src == a && m.dst == b
  {
    RefitsNothing(w, s, a);
    if Sends(w.bits(a), s.blooms[a], b) { assert b in Pass(w, s, a).1; }
  }

  lemma StaysMarked(w: Setting, s: FState, step: FStep, s': FState)
    requires Marked(w, s) && Next(w, s, step, s')
    ensures Marked(w, s')
  {
    match step
    case Deliver(m) =>
    case Maintain(a, batch) => RefitsNothing(w, s, a);
  }

  // ------------------------------------------------------------------------- runs

  ghost predicate IsRun(w: Setting, states: nat -> FState, steps: nat -> FStep)
  {
    IsTree(w.t, w.root) && Marked(w, states(0)) && forall i: nat :: StepAt(w, states, steps, i)
  }

  ghost predicate StepAt(w: Setting, states: nat -> FState, steps: nat -> FStep, i: nat)
  {
    Next(w, states(i), steps(i), states(i + 1))
  }

  lemma OneStep(w: Setting, states: nat -> FState, steps: nat -> FStep, i: nat, j: nat)
    requires IsRun(w, states, steps) && j == i + 1
    ensures Next(w, states(i), steps(i), states(j))
  {
    assert StepAt(w, states, steps, i);
  }

  ghost predicate DeliveredAt(steps: nat -> FStep, m: FMsg, i: nat) { steps(i) == Deliver(m) }

  ghost predicate MaintainsAt(steps: nat -> FStep, a: Key, i: nat) { steps(i).Maintain? && steps(i).self == a }

  /** Every node keeps doing maintenance, and every filter on its way arrives. */
  ghost predicate Fair(w: Setting, states: nat -> FState, steps: nat -> FStep)
  {
    && (forall i: nat, a: Key :: a in w.t ==> MaintainsLater(steps, a, i))
    && (forall i: nat, m: FMsg :: m in states(i).net ==> DeliveredLater(steps, m, i))
  }

  ghost predicate MaintainsLater(steps: nat -> FStep, a: Key, i: nat)
  {
    exists j: nat :: i <= j && MaintainsAt(steps, a, j)
  }

  ghost predicate DeliveredLater(steps: nat -> FStep, m: FMsg, i: nat)
  {
    exists j: nat :: i <= j && DeliveredAt(steps, m, j)
  }

  lemma {:induction false} MarkedAlong(w: Setting, states: nat -> FState, steps: nat -> FStep, i: nat)
    requires IsRun(w, states, steps)
    ensures Marked(w, states(i))
  {
    if i > 0 {
      MarkedAlong(w, states, steps, i - 1);
      MarkedNext(w, states, steps, i - 1, i);
    }
  }

  lemma MarkedNext(w: Setting, states: nat -> FState, steps: nat -> FStep, i: nat, j: nat)
    requires IsRun(w, states, steps) && Marked(w, states(i)) && j == i + 1
    ensures Marked(w, states(j))
  {
    OneStep(w, states, steps, i, j);
    StaysMarked(w, states(i), steps(i), states(j));
  }

  // -------------------------------------------------------------------- one link

  /** The link from `a` to `b` at its sending end. */
  function Out(s: FState, a: Key, b: Key): (l: BloomInfo)
  {
    if a in s.blooms && b in s.blooms[a] then s.blooms[a][b] else BloomInfo({}, {}, 0, false, false)
  }

  /** What `b` last heard from `a`. */
  function Heard(s: FState, a: Key, b: Key): (f: Filter) { Out(s, b, a).recv }

  /** What `b` needs to hear from `a`. */
  function Needed(w: Setting, s: FState, a: Key, b: Key): (f: Filter)
  {
    if a in s.blooms then Fresh(w.bits(a), s.blooms[a], b) else {}
  }

  /** The sending end changes by a round of maintenance there and by nothing else. */
  ghost predicate SameSending(l: BloomInfo, l': BloomInfo)
  {
    l'.send == l.send && l'.zDirty == l.zDirty && l'.seqno == l.seqno
  }

  /** What one step does to the link from `a` to `b`. */
  ghost predicate LinkStep(w: Setting, s: FState, step: FStep, s': FState, a: Key, b: Key)
  {
    && (if step.Maintain? && step.self == a
        then && Round(Needed(w, s, a, b), Out(s, a, b), Out(s', a, b))
             && (Due(Needed(w, s, a, b), Out(s, a, b)) ==>
                   exists m :: m in s'.net && m.src == a && m.dst == b && m.filter == Out(s', a, b).send)
        else SameSending(Out(s, a, b), Out(s', a, b)))
    && (forall m :: m in s'.net && m.src == a && m.dst == b ==> m in s.net || m.filter == Out(s', a, b).send)
    && (if step.Deliver? && step.m.src == a && step.m.dst == b
        then Heard(s', a, b) == step.m.filter && step.m !in s'.net
        else Heard(s', a, b) == Heard(s, a, b))
  }

  /** The filter to advertise when `need` is needed. */
  function Merged(need: Filter, l: BloomInfo): (f: Filter) { if l.zDirty then need else need + l.send }

  predicate Due(need: Filter, l: BloomInfo) { Merged(need, l) != l.send || l.seqno + 1 >= RESEND }

  predicate Round(need: Filter, l: BloomInfo, l': BloomInfo)
  {
    var f := Merged(need, l);
    && l'.send == f && l'.seqno == (if Due(need, l) then 0 else l.seqno + 1)
    && l'.zDirty == (if f == l.send then l.zDirty else !l.zDirty && f != need)
  }

  lemma AfterRoundIsRound(own: Filter, bs: Blooms, key: Key)
    requires key in bs
    ensures Round(Fresh(own, bs, key), bs[key], AfterRound(own, bs, key))
    ensures Due(Fresh(own, bs, key), bs[key]) <==> Sends(own, bs, key)
  {
  }

  /** A maintenance of `a` is a round for its own links. */
  lemma OwnRound(w: Setting, s: FState, a: Key, batch: set<FMsg>, s': FState, b: Key)
    requires Marked(w, s) && Next(w, s, Maintain(a, batch), s') && TreeEdge(w.t, a, b)
    ensures LinkStep(w, s, Maintain(a, batch), s', a, b)
  {
    assert TreeEdge(w.t, b, a);
    MaintainedLink(w, s, a, batch, s', b);
    AfterRoundIsRound(w.bits(a), s.blooms[a], b);
    if Due(Needed(w, s, a, b), Out(s, a, b)) {
      var m :| m in batch && m.src == a && m.dst == b;
      assert m in s'.net;
    }
  }

  /** A maintenance of another node leaves the link from `a` to `b` alone. */
  lemma OthersRound(w: Setting, s: FState, c: Key, batch: set<FMsg>, s': FState, a: Key, b: Key)
    requires Marked(w, s) && Next(w, s, Maintain(c, batch), s') && TreeEdge(w.t, a, b) && c != a
    ensures LinkStep(w, s, Maintain(c, batch), s', a, b)
  {
    SentByItself(w, s, c, batch, s');
    if c == b { ReceivingStands(w, s, b, batch, s', a); }
  }

  lemma SentByItself(w: Setting, s: FState, c: Key, batch: set<FMsg>, s': FState)
    requires Next(w, s, Maintain(c, batch), s')
    ensures forall m :: m in s'.net ==> m in s.net || m.src == c
    ensures forall d :: d != c ==>
              (d in s'.blooms <==> d in s.blooms) && (d in s.blooms ==> s'.blooms[d] == s.blooms[d])
  {
  }

  lemma ReceivingStands(w: Setting, s: FState, b: Key, batch: set<FMsg>, s': FState, a: Key)
    requires Marked(w, s) && Next(w, s, Maintain(b, batch), s') && TreeEdge(w.t, a, b)
    ensures Heard(s', a, b) == Heard(s, a, b)
  {
    assert TreeEdge(w.t, b, a);
    MaintainedLink(w, s, b, batch, s', a);
  }

  lemma MaintainLinkStep(w: Setting, s: FState, step: FStep, s': FState, a: Key, b: Key)
    requires Marked(w, s) && Next(w, s, step, s') && TreeEdge(w.t, a, b) && step.Maintain?
    ensures LinkStep(w, s, step, s', a, b)
  {
    if step.self == a {
      OwnRound(w, s, a, step.batch, s', b);
    } else {
      OthersRound(w, s, step.self, step.batch, s', a, b);
    }
  }

  lemma DeliverLinkStep(w: Setting, s: FState, step: FStep, s': FState, a: Key, b: Key)
    requires Marked(w, s) && Next(w, s, step, s') && TreeEdge(w.t, a, b) && step.Deliver?
    ensures LinkStep(w, s, step, s', a, b)
  {
    assert TreeEdge(w.t, b, a);
    assert a in s.blooms && b in s.blooms[a] && b in s.blooms && a in s.blooms[b];
    DeliveryChangesOne(w, s, step.m, s', a, b);
  }

  /** A delivery changes what one end heard of one link. */
  lemma DeliveryChangesOne(w: Setting, s: FState, m: FMsg, s': FState, a: Key, b: Key)
    requires Next(w, s, Deliver(m), s')
    requires a in s.blooms && b in s.blooms[a] && b in s.blooms && a in s.blooms[b]
    ensures SameSending(Out(s, a, b), Out(s', a, b))
    ensures Heard(s', a, b) == if m.src == a && m.dst == b then m.filter else Heard(s, a, b)
  {
  }

  lemma LinkStepAt(w: Setting, states: nat -> FState, steps: nat -> FStep, a: Key, b: Key, i: nat, j: nat)
    requires IsRun(w, states, steps) && TreeEdge(w.t, a, b) && j == i + 1
    ensures LinkStep(w, states(i), steps(i), states(j), a, b)
  {
    MarkedAlong(w, states, steps, i);
    OneStep(w, states, steps, i, j);
    if steps(i).Maintain? {
      MaintainLinkStep(w, states(i), steps(i), states(j), a, b);
    } else {
      DeliverLinkStep(w, states(i), steps(i), states(j), a, b);
    }
  }

  ghost predicate LinkStepsAt(w: Setting, states: nat -> FState, steps: nat -> FStep, a: Key, b: Key, i: nat)
  {
    LinkStep(w, states(i), steps(i), states(i + 1), a, b)
  }

  /** Every step of the run does to the link from `a` to `b` what it should. */
  ghost predicate LinkRun(w: Setting, states: nat -> FState, steps: nat -> FStep, a: Key, b: Key)
  {
    forall i: nat :: LinkStepsAt(w, states, steps, a, b, i)
  }

  lemma RunIsLinkRun(w: Setting, states: nat -> FState, steps: nat -> FStep, a: Key, b: Key)
    requires IsRun(w, states, steps) && TreeEdge(w.t, a, b)
    ensures LinkRun(w, states, steps, a, b)
  {
    forall i: nat ensures LinkStepsAt(w, states, steps, a, b, i) {
      LinkStepAt(w, states, steps, a, b, i, i + 1);
    }
  }

  lemma OneLinkStep(w: Setting, states: nat -> FState, steps: nat -> FStep, a: Key, b: Key, i: nat, j: nat)
    requires LinkRun(w, states, steps, a, b) && j == i + 1
    ensures LinkStep(w, states(i), steps(i), states(j), a, b)
  {
    assert LinkStepsAt(w, states, steps, a, b, i);
  }

  // --------------------------------------------------- the sending end comes to rest

  /** How many rounds can still change the filter while `need` stays. */
  function Phase(need: Filter, l: BloomInfo): (n: nat)
  {
    if Merged(need, l) == l.send then 0 else if l.zDirty then 1 else 2
  }

  lemma RoundLowers(need: Filter, l: BloomInfo, l': BloomInfo)
    requires Round(need, l, l')
    ensures Phase(need, l) > 0 ==> Phase(need, l') < Phase(need, l)
    ensures Phase(need, l) == 0 ==> Phase(need, l') == 0 && l'.send == l.send && l'.zDirty == l.zDirty
  {
    if Phase(need, l) > 0 {
      assert need + (need + l.send) == need + l.send && need + need == need;
    }
  }

  /** From `i` on, `b` needs the same of `a`. */
  ghost predicate NeedFixed(w: Setting, states: nat -> FState, a: Key, b: Key, need: Filter, i: nat)
  {
    forall j: nat :: i <= j ==> NeedIs(w, states, a, b, need, j)
  }

  ghost predicate NeedIs(w: Setting, states: nat -> FState, a: Key, b: Key, need: Filter, i: nat)
  {
    Needed(w, states(i), a, b) == need
  }

  lemma PhaseStep(w: Setting, states: nat -> FState, steps: nat -> FStep, a: Key, b: Key, need: Filter, i: nat, j: nat)
    requires LinkRun(w, states, steps, a, b) && j == i + 1 && NeedIs(w, states, a, b, need, i)
    ensures Phase(need, Out(states(j), a, b)) <= Phase(need, Out(states(i), a, b))
    ensures MaintainsAt(steps, a, i) && Phase(need, Out(states(i), a, b)) > 0 ==>
              Phase(need, Out(states(j), a, b)) < Phase(need, Out(states(i), a, b))
    ensures Phase(need, Out(states(i), a, b)) == 0 ==> Out(states(j), a, b).send == Out(states(i), a, b).send
  {
    OneLinkStep(w, states, steps, a, b, i, j);
    if MaintainsAt(steps, a, i) { RoundLowers(need, Out(states(i), a, b), Out(states(j), a, b)); }
  }

  lemma {:induction false} PhaseFalls(w: Setting, states: nat -> FState, steps: nat -> FStep, a: Key, b: Key,
                                      need: Filter, i: nat, j: nat)
    requires LinkRun(w, states, steps, a, b) && NeedFixed(w, states, a, b, need, i) && i <= j
    ensures Phase(need, Out(states(j), a, b)) <= Phase(need, Out(states(i), a, b))
    ensures Phase(need, Out(states(i), a, b)) == 0 ==> Out(states(j), a, b).send == Out(states(i), a, b).send
    decreases j - i
  {
    if i < j {
      PhaseFalls(w, states, steps, a, b, need, i, j - 1);
      PhaseStep(w, states, steps, a, b, need, j - 1, j);
    }
  }

  lemma Later(states: nat -> FState, w: Setting, a: Key, b: Key, need: Filter, i: nat, j: nat)
    requires NeedFixed(w, states, a, b, need, i) && i <= j
    ensures NeedFixed(w, states, a, b, need, j)
  {
  }

  lemma NextMaintenance(w: Setting, states: nat -> FState, steps: nat -> FStep, a: Key, i: nat) returns (j: nat)
    requires Fair(w, states, steps) && a in w.t
    ensures i <= j && MaintainsAt(steps, a, j)
  {
    assert MaintainsLater(steps, a, i);
    j :| i <= j && MaintainsAt(steps, a, j);
  }

  lemma {:induction false} SendingRests(w: Setting, states: nat -> FState, steps: nat -> FStep, a: Key, b: Key,
                                        need: Filter, i: nat) returns (j: nat)
    requires LinkRun(w, states, steps, a, b) && Fair(w, states, steps) && a in w.t
    requires NeedFixed(w, states, a, b, need, i)
    ensures i <= j && Phase(need, Out(states(j), a, b)) == 0
    decreases Phase(need, Out(states(i), a, b))
  {
    if Phase(need, Out(states(i), a, b)) == 0 {
      j := i;
    } else {
      var k := NextMaintenance(w, states, steps, a, i);
      PhaseFalls(w, states, steps, a, b, need, i, k);
      PhaseStep(w, states, steps, a, b, need, k, k + 1);
      Later(states, w, a, b, need, i, k + 1);
      j := SendingRests(w, states, steps, a, b, need, k + 1);
    }
  }

  // ------------------------------------------------ the receiving end comes to rest

  /** From `i` on `a` advertises `f` to `b`. */
  ghost predicate Advertises(states: nat -> FState, a: Key, b: Key, f: Filter, i: nat)
  {
    forall j: nat :: i <= j ==> AdvertisesAt(states, a, b, f, j)
  }

  ghost predicate AdvertisesAt(states: nat -> FState, a: Key, b: Key, f: Filter, i: nat)
  {
    Out(states(i), a, b).send == f
  }

  /** Outdated filters on their way from `a` to `b`. */
  ghost function Outdated(s: FState, a: Key, b: Key, f: Filter): (ms: set<FMsg>)
  {
    set m | m in s.net && m.src == a && m.dst == b && m.filter != f
  }

  lemma OutdatedStep(w: Setting, states: nat -> FState, steps: nat -> FStep, a: Key, b: Key, f: Filter, i: nat, j: nat)
    requires LinkRun(w, states, steps, a, b) && j == i + 1 && AdvertisesAt(states, a, b, f, j)
    ensures Outdated(states(j), a, b, f) <= Outdated(states(i), a, b, f)
  {
    OneLinkStep(w, states, steps, a, b, i, j);
  }

  lemma {:induction false} OutdatedFalls(w: Setting, states: nat -> FState, steps: nat -> FStep, a: Key, b: Key,
                                         f: Filter, i: nat, j: nat)
    requires LinkRun(w, states, steps, a, b) && Advertises(states, a, b, f, i) && i <= j
    ensures Outdated(states(j), a, b, f) <= Outdated(states(i), a, b, f)
    decreases j - i
  {
    if i < j {
      OutdatedFalls(w, states, steps, a, b, f, i, j - 1);
      OutdatedStep(w, states, steps, a, b, f, j - 1, j);
    }
  }

  lemma Arrival(w: Setting, states: nat -> FState, steps: nat -> FStep, m: FMsg, i: nat) returns (j: nat)
    requires Fair(w, states, steps) && m in states(i).net
    ensures i <= j && DeliveredAt(steps, m, j)
  {
    assert DeliveredLater(steps, m, i);
    j :| i <= j && DeliveredAt(steps, m, j);
  }

  lemma {:induction false} OutdatedVanish(w: Setting, states: nat -> FState, steps: nat -> FStep, a: Key, b: Key,
                                          f: Filter, i: nat) returns (j: nat)
    requires LinkRun(w, states, steps, a, b) && Fair(w, states, steps) && a in w.t && Advertises(states, a, b, f, i)
    ensures i <= j && Outdated(states(j), a, b, f) == {}
    decreases |Outdated(states(i), a, b, f)|
  {
    if Outdated(states(i), a, b, f) == {} {
      j := i;
    } else {
      var m :| m in Outdated(states(i), a, b, f);
      var k := Arrival(w, states, steps, m, i);
      OutdatedFalls(w, states, steps, a, b, f, i, k + 1);
      OneLinkStep(w, states, steps, a, b, k, k + 1);
      assert m !in Outdated(states(k + 1), a, b, f);
      ProperSubsetIsSmaller(Outdated(states(k + 1), a, b, f), Outdated(states(i), a, b, f));
      j := OutdatedVanish(w, states, steps, a, b, f, k + 1);
    }
  }

  /** While `a` advertises `f`, it will send it again. */
  lemma {:induction false} WillSend(w: Setting, states: nat -> FState, steps: nat -> FStep, a: Key, b: Key, f: Filter,
                                    i: nat) returns (j: nat, m: FMsg)
    requires LinkRun(w, states, steps, a, b) && Fair(w, states, steps) && a in w.t && Advertises(states, a, b, f, i)
    ensures i <= j && m in states(j).net && m.src == a && m.dst == b && m.filter == f
    decreases if Out(states(i), a, b).seqno < RESEND then RESEND - Out(states(i), a, b).seqno else 0
  {
    var bound := NextMaintenance(w, states, steps, a, i);
    var k := FirstRound(w, states, steps, a, b, i, bound);
    AdvertisesLater(states, a, b, f, i, k + 1);
    RoundSendsOrCounts(w, states, steps, a, b, f, k, k + 1);
    if n :| n in states(k + 1).net && n.src == a && n.dst == b && n.filter == f {
      j, m := k + 1, n;
    } else {
      j, m := WillSend(w, states, steps, a, b, f, k + 1);
    }
  }

  /** A round sends the filter, or counts towards the next time it is due. */
  lemma RoundSendsOrCounts(w: Setting, states: nat -> FState, steps: nat -> FStep, a: Key, b: Key, f: Filter,
                           k: nat, j: nat)
    requires LinkRun(w, states, steps, a, b) && MaintainsAt(steps, a, k) && j == k + 1
    requires AdvertisesAt(states, a, b, f, j)
    ensures || (exists m :: m in states(j).net && m.src == a && m.dst == b && m.filter == f)
            || (Out(states(k), a, b).seqno + 1 < RESEND && Out(states(j), a, b).seqno == Out(states(k), a, b).seqno + 1)
  {
    OneLinkStep(w, states, steps, a, b, k, j);
  }

  lemma AdvertisesLater(states: nat -> FState, a: Key, b: Key, f: Filter, i: nat, j: nat)
    requires Advertises(states, a, b, f, i) && i <= j
    ensures Advertises(states, a, b, f, j)
  {
  }

  /** The first maintenance of `a` from `i` on; until then its counter stands. */
  lemma {:induction false} FirstRound(w: Setting, states: nat -> FState, steps: nat -> FStep, a: Key, b: Key, i: nat,
                                      bound: nat) returns (j: nat)
    requires LinkRun(w, states, steps, a, b) && i <= bound && MaintainsAt(steps, a, bound)
    ensures i <= j && MaintainsAt(steps, a, j) && Out(states(j), a, b).seqno == Out(states(i), a, b).seqno
    decreases bound - i
  {
    if MaintainsAt(steps, a, i) {
      j := i;
    } else {
      OneLinkStep(w, states, steps, a, b, i, i + 1);
      j := FirstRound(w, states, steps, a, b, i + 1, bound);
    }
  }

  /** From `i` on nothing outdated is on its way, and `b` has heard `f`. */
  lemma {:induction false} HeardStays(w: Setting, states: nat -> FState, steps: nat -> FStep, a: Key, b: Key, f: Filter,
                                      i: nat, j: nat)
    requires LinkRun(w, states, steps, a, b) && Advertises(states, a, b, f, i) && i <= j
    requires Outdated(states(i), a, b, f) == {} && Heard(states(i), a, b) == f
    requires forall k: nat :: OnlySent(states, steps, k)
    ensures Heard(states(j), a, b) == f
    decreases j - i
  {
    if i < j {
      HeardStays(w, states, steps, a, b, f, i, j - 1);
      OutdatedFalls(w, states, steps, a, b, f, i, j - 1);
      OneLinkStep(w, states, steps, a, b, j - 1, j);
      assert OnlySent(states, steps, j - 1);
      if steps(j - 1).Deliver? && steps(j - 1).m.src == a && steps(j - 1).m.dst == b {
        assert steps(j - 1).m !in Outdated(states(j - 1), a, b, f);
      }
    }
  }

  /** What is delivered was on its way. */
  ghost predicate OnlySent(states: nat -> FState, steps: nat -> FStep, i: nat)
  {
    steps(i).Deliver? ==> steps(i).m in states(i).net
  }

  lemma RunOnlySent(w: Setting, states: nat -> FState, steps: nat -> FStep)
    requires IsRun(w, states, steps)
    ensures forall k: nat :: OnlySent(states, steps, k)
  {
    forall k: nat ensures OnlySent(states, steps, k) {
      OneStep(w, states, steps, k, k + 1);
    }
  }

  /** From `i` on the link is settled: `a` advertises one filter that covers what
      `b` needs, and `b` has heard it. */
  ghost predicate LinkSettledAt(w: Setting, s: FState, a: Key, b: Key, f: Filter)
  {
    Out(s, a, b).send == f && Heard(s, a, b) == f && Needed(w, s, a, b) <= f
  }

  ghost predicate LinkSettled(w: Setting, states: nat -> FState, a: Key, b: Key, f: Filter, i: nat)
  {
    forall j: nat :: i <= j ==> LinkSettledAt(w, states(j), a, b, f)
  }

  lemma AdvertisingRests(w: Setting, states: nat -> FState, steps: nat -> FStep, a: Key, b: Key, need: Filter, i: nat)
    returns (j: nat)
    requires LinkRun(w, states, steps, a, b) && Fair(w, states, steps) && a in w.t
    requires NeedFixed(w, states, a, b, need, i)
    ensures i <= j && need <= Out(states(j), a, b).send && Advertises(states, a, b, Out(states(j), a, b).send, j)
  {
    j := SendingRests(w, states, steps, a, b, need, i);
    Later(states, w, a, b, need, i, j);
    forall k: nat | j <= k ensures AdvertisesAt(states, a, b, Out(states(j), a, b).send, k) {
      PhaseFalls(w, states, steps, a, b, need, j, k);
    }
  }

  /** Once what `b` needs of `a` no longer changes, the link settles. */
  lemma LinkRests(w: Setting, states: nat -> FState, steps: nat -> FStep, a: Key, b: Key, need: Filter, i: nat)
    returns (j: nat, f: Filter)
    requires LinkRun(w, states, steps, a, b) && Fair(w, states, steps) && a in w.t
    requires NeedFixed(w, states, a, b, need, i)
    requires forall k: nat :: OnlySent(states, steps, k)
    ensures i <= j && LinkSettled(w, states, a, b, f, j)
  {
    var i1 := AdvertisingRests(w, states, steps, a, b, need, i);
    f := Out(states(i1), a, b).send;
    var i2 := OutdatedVanish(w, states, steps, a, b, f, i1);
    AdvertisesLater(states, a, b, f, i1, i2);
    var i3, m := WillSend(w, states, steps, a, b, f, i2);
    var i4 := Arrival(w, states, steps, m, i3);
    OneLinkStep(w, states, steps, a, b, i4, i4 + 1);
    OutdatedFalls(w, states, steps, a, b, f, i2, i4 + 1);
    AdvertisesLater(states, a, b, f, i2, i4 + 1);
    j := i4 + 1;
    forall k: nat | j <= k ensures LinkSettledAt(w, states(k), a, b, f) {
      HeardStays(w, states, steps, a, b, f, j, k);
      assert AdvertisesAt(states, a, b, f, k) && NeedIs(w, states, a, b, need, k);
    }
  }

  // ------------------------------------------------------------------ all the links

  /** Links towards the root come first, the deepest before the others; then those
      away from the root, the deepest last.  What a link has to carry depends on
      earlier ones only. */
  ghost function Rank(t: Table, a: Key, b: Key): (n: int)
  {
    if a in t && t[a].parent == b then |t.Keys| - |Chain(t, a, {})| else |t.Keys| + |Chain(t, b, {})|
  }

  lemma ChainIsShort(t: Table, k: Key)
    ensures |Chain(t, k, {})| <= |t.Keys|
  {
    ChainIsChain(t, k, {});
    ElementsCount(Chain(t, k, {}), t.Keys);
  }

  lemma {:induction false} ElementsCount(c: seq<Key>, ks: set<Key>)
    requires NoRepeats(c) && forall i :: 0 <= i < |c| ==> c[i] in ks
    ensures |c| <= |ks|
  {
    if c != [] {
      var last := c[|c| - 1];
      ElementsCount(c[..|c| - 1], ks - {last});
    }
  }

  lemma RankIsNatural(t: Table, a: Key, b: Key)
    ensures Rank(t, a, b) >= 0
  {
    ChainIsShort(t, a);
  }

  lemma EarlierLink(t: Table, root: Key, a: Key, b: Key, c: Key)
    requires IsTree(t, root) && TreeEdge(t, a, b) && TreeEdge(t, a, c) && c != b
    ensures Rank(t, c, a) < Rank(t, a, b)
  {
    if t[c].parent == a {
      RootedParent(t, c);
      ChainIsShort(t, c);
    } else {
      assert t[a].parent == c;
      RootedParent(t, a);
      assert t[b].parent == a;
      RootedParent(t, b);
    }
  }

  /** What `a` heard from each of `cs` no longer changes. */
  ghost predicate AllHeard(states: nat -> FState, a: Key, cs: set<Key>, i: nat)
  {
    forall c, j: nat :: c in cs && i <= j ==> SameAs(states, c, a, i, j)
  }

  ghost predicate SameAs(states: nat -> FState, c: Key, a: Key, i: nat, j: nat)
  {
    Heard(states(j), c, a) == Heard(states(i), c, a)
  }

  ghost function Others(t: Table, a: Key, b: Key): (cs: set<Key>)
  {
    set c | c in t && c != b && TreeEdge(t, a, c)
  }

  /** With all other links into `a` at rest, what `b` needs of `a` is fixed. */
  lemma NeedRests(w: Setting, states: nat -> FState, steps: nat -> FStep, a: Key, b: Key, i: nat) returns (need: Filter)
    requires IsRun(w, states, steps) && TreeEdge(w.t, a, b) && AllHeard(states, a, Others(w.t, a, b), i)
    ensures NeedFixed(w, states, a, b, need, i)
  {
    need := Needed(w, states(i), a, b);
    forall j: nat | i <= j ensures NeedIs(w, states, a, b, need, j) {
      MarkedAlong(w, states, steps, i);
      MarkedAlong(w, states, steps, j);
      SameNeed(w, states(i), states(j), a, b, states, i, j);
    }
  }

  lemma SameNeed(w: Setting, s: FState, s': FState, a: Key, b: Key, states: nat -> FState, i: nat, j: nat)
    requires Marked(w, s) && Marked(w, s') && TreeEdge(w.t, a, b) && s == states(i) && s' == states(j) && i <= j
    requires AllHeard(states, a, Others(w.t, a, b), i)
    ensures Needed(w, s', a, b) == Needed(w, s, a, b)
  {
    forall c | c in w.t && c != b && TreeEdge(w.t, a, c) ensures s'.blooms[a][c].recv == s.blooms[a][c].recv {
      assert c in Others(w.t, a, b);
      assert SameAs(states, c, a, i, j);
    }
    SameFresh(w.bits(a), s.blooms[a], s'.blooms[a], b);
  }

  lemma SameFresh(own: Filter, bs: Blooms, cs: Blooms, key: Key)
    requires forall k :: k != key ==> (k in bs && bs[k].onTree <==> k in cs && cs[k].onTree)
    requires forall k :: k != key && k in bs && k in cs && bs[k].onTree ==> bs[k].recv == cs[k].recv
    ensures Fresh(own, bs, key) == Fresh(own, cs, key)
  {
  }

  lemma {:induction false} InputsRest(w: Setting, states: nat -> FState, steps: nat -> FStep, a: Key, b: Key,
                                      cs: set<Key>)
    returns (i: nat)
    requires IsRun(w, states, steps) && Fair(w, states, steps) && TreeEdge(w.t, a, b) && cs <= Others(w.t, a, b)
    ensures AllHeard(states, a, cs, i)
    decreases Rank(w.t, a, b), 0, |cs|
  {
    RankIsNatural(w.t, a, b);
    i := 0;
    if cs != {} {
      var c :| c in cs;
      OtherLink(w, a, b, c);
      var i1 := InputsRest(w, states, steps, a, b, cs - {c});
      var i2, f := LinkComesToRest(w, states, steps, c, a);
      i := if i1 <= i2 then i2 else i1;
      HeardFrom(w, states, a, cs, c, i1, i2, f, i);
    }
  }

  lemma OtherLink(w: Setting, a: Key, b: Key, c: Key)
    requires IsTree(w.t, w.root) && TreeEdge(w.t, a, b) && c in Others(w.t, a, b)
    ensures TreeEdge(w.t, c, a) && Rank(w.t, c, a) < Rank(w.t, a, b)
  {
    EarlierLink(w.t, w.root, a, b, c);
  }

  lemma HeardFrom(w: Setting, states: nat -> FState, a: Key, cs: set<Key>, c: Key, i1: nat, i2: nat, f: Filter, i: nat)
    requires c in cs && AllHeard(states, a, cs - {c}, i1) && LinkSettled(w, states, c, a, f, i2) && i1 <= i && i2 <= i
    ensures AllHeard(states, a, cs, i)
  {
    forall d, j: nat | d in cs && i <= j ensures SameAs(states, d, a, i, j) {
      if d == c {
        assert LinkSettledAt(w, states(i), c, a, f) && LinkSettledAt(w, states(j), c, a, f);
      } else {
        assert SameAs(states, d, a, i1, i) && SameAs(states, d, a, i1, j);
      }
    }
  }

  /** Every tree link comes to rest, by induction over the links. */
  lemma {:induction false} LinkComesToRest(w: Setting, states: nat -> FState, steps: nat -> FStep, a: Key, b: Key)
    returns (j: nat, f: Filter)
    requires IsRun(w, states, steps) && Fair(w, states, steps) && TreeEdge(w.t, a, b)
    ensures LinkSettled(w, states, a, b, f, j)
    decreases Rank(w.t, a, b), 1, 0
  {
    var i := InputsRest(w, states, steps, a, b, Others(w.t, a, b));
    var need := NeedRests(w, states, steps, a, b, i);
    RunIsLinkRun(w, states, steps, a, b);
    RunOnlySent(w, states, steps);
    j, f := LinkRests(w, states, steps, a, b, need, i);
  }

  ghost predicate LinkAtRest(w: Setting, states: nat -> FState, e: (Key, Key), i: nat)
  {
    exists f :: LinkSettled(w, states, e.0, e.1, f, i)
  }

  lemma RestLasts(w: Setting, states: nat -> FState, e: (Key, Key), i: nat, j: nat)
    requires LinkAtRest(w, states, e, i) && i <= j
    ensures LinkAtRest(w, states, e, j)
  {
    var f :| LinkSettled(w, states, e.0, e.1, f, i);
    assert LinkSettled(w, states, e.0, e.1, f, j);
  }

  lemma {:induction false} AllLinksRest(w: Setting, states: nat -> FState, steps: nat -> FStep, es: set<(Key, Key)>)
    returns (j: nat)
    requires IsRun(w, states, steps) && Fair(w, states, steps) && forall e :: e in es ==> TreeEdge(w.t, e.0, e.1)
    ensures forall e :: e in es ==> LinkAtRest(w, states, e, j)
    decreases |es|
  {
    j := 0;
    if es != {} {
      var e :| e in es;
      var j1 := AllLinksRest(w, states, steps, es - {e});
      var j2, f := LinkComesToRest(w, states, steps, e.0, e.1);
      assert LinkAtRest(w, states, e, j2);
      j := if j1 <= j2 then j2 else j1;
      RestLasts(w, states, e, j2, j);
      forall d | d in es - {e} ensures LinkAtRest(w, states, d, j) {
        RestLasts(w, states, d, j1, j);
      }
    }
  }

  ghost function Links(t: Table): (es: set<(Key, Key)>) { set a, b | a in t && b in t && TreeEdge(t, a, b) :: (a, b) }

  function NetOf(w: Setting, s: FState): (n: Multicast.Net) { Multicast.Net(w.t, w.root, s.blooms, w.bits) }

  lemma RestIsSettled(w: Setting, states: nat -> FState, steps: nat -> FStep, j: nat, i: nat)
    requires IsRun(w, states, steps) && j <= i && forall e :: e in Links(w.t) ==> LinkAtRest(w, states, e, j)
    ensures Multicast.Settled(NetOf(w, states(i)))
  {
    MarkedAlong(w, states, steps, i);
    forall a, b | TreeEdge(w.t, a, b)
      ensures Fresh(w.bits(a), states(i).blooms[a], b) <= states(i).blooms[a][b].send
      ensures states(i).blooms[b][a].recv == states(i).blooms[a][b].send
    {
      LinkIsSettled(w, states, j, i, a, b);
      assert TreeEdge(w.t, b, a);
    }
  }

  lemma LinkIsSettled(w: Setting, states: nat -> FState, j: nat, i: nat, a: Key, b: Key)
    requires TreeEdge(w.t, a, b) && j <= i && forall e :: e in Links(w.t) ==> LinkAtRest(w, states, e, j)
    ensures Needed(w, states(i), a, b) <= Out(states(i), a, b).send == Heard(states(i), a, b)
  {
    assert (a, b) in Links(w.t);
    var f :| LinkSettled(w, states, a, b, f, j);
    assert LinkSettledAt(w, states(i), a, b, f);
  }

  ghost predicate SettledAt(w: Setting, states: nat -> FState, i: nat) { Multicast.Settled(NetOf(w, states(i))) }

  lemma MarkedRunRests(w: Setting, states: nat -> FState, steps: nat -> FStep) returns (j: nat)
    requires IsRun(w, states, steps) && Fair(w, states, steps)
    ensures forall i: nat :: j <= i ==> SettledAt(w, states, i)
  {
    j := AllLinksRest(w, states, steps, Links(w.t));
    forall i: nat | j <= i ensures SettledAt(w, states, i) {
      RestIsSettled(w, states, steps, j, i);
    }
  }

  // ------------------------------------------------------------------- the first marks

  /** Everybody has filters for its tree neighbours and knows which of its links are
      on the tree; marks may still be wrong. */
  ghost predicate Peered(w: Setting, s: FState)
  {
    && s.blooms.Keys == w.t.Keys && w.tables.Keys == w.t.Keys
    && (forall a, b :: TreeEdge(w.t, a, b) ==> b in s.blooms[a])
    && (forall a, b :: a in w.t && b in s.blooms[a] ==> (IsOnTree(w.tables[a], a, b) <==> TreeEdge(w.t, a, b)))
  }

  ghost predicate MarkedNode(w: Setting, s: FState, a: Key)
  {
    a in s.blooms && forall b :: b in s.blooms[a] ==> (s.blooms[a][b].onTree <==> TreeEdge(w.t, a, b))
  }

  lemma StaysPeered(w: Setting, s: FState, step: FStep, s': FState)
    requires Peered(w, s) && Next(w, s, step, s')
    ensures Peered(w, s') && forall a :: a in s.blooms ==> a in s'.blooms && s'.blooms[a].Keys == s.blooms[a].Keys
  {
  }

  /** A maintenance marks a node's links, and nothing unmarks them. */
  lemma MarksStay(w: Setting, s: FState, step: FStep, s': FState, a: Key)
    requires Peered(w, s) && Next(w, s, step, s') && a in w.t
    requires MarkedNode(w, s, a) || (step.Maintain? && step.self == a)
    ensures MarkedNode(w, s', a)
  {
    if step.Maintain? && step.self == a {
      var refitted := RefitAll(w.tables[a], a, s.blooms[a]);
      forall b | b in s'.blooms[a] ensures s'.blooms[a][b].onTree <==> TreeEdge(w.t, a, b) {
        assert b in refitted && refitted[b].onTree == IsOnTree(w.tables[a], a, b);
      }
    }
  }

  /** A run from any marks. */
  ghost predicate IsAnyRun(w: Setting, states: nat -> FState, steps: nat -> FStep)
  {
    IsTree(w.t, w.root) && Peered(w, states(0)) && forall i: nat :: StepAt(w, states, steps, i)
  }

  lemma AnyStep(w: Setting, states: nat -> FState, steps: nat -> FStep, i: nat, j: nat)
    requires IsAnyRun(w, states, steps) && j == i + 1
    ensures Next(w, states(i), steps(i), states(j))
  {
    assert StepAt(w, states, steps, i);
  }

  lemma {:induction false} PeeredAlong(w: Setting, states: nat -> FState, steps: nat -> FStep, i: nat)
    requires IsAnyRun(w, states, steps)
    ensures Peered(w, states(i))
  {
    if i > 0 {
      var k := i - 1;
      PeeredAlong(w, states, steps, k);
      PeeredNext(w, states, steps, k, i);
    }
  }

  lemma PeeredNext(w: Setting, states: nat -> FState, steps: nat -> FStep, i: nat, j: nat)
    requires IsAnyRun(w, states, steps) && Peered(w, states(i)) && j == i + 1
    ensures Peered(w, states(j))
  {
    AnyStep(w, states, steps, i, j);
    StaysPeered(w, states(i), steps(i), states(j));
  }

  lemma MarksNext(w: Setting, states: nat -> FState, steps: nat -> FStep, a: Key, i: nat, j: nat)
    requires IsAnyRun(w, states, steps) && a in w.t && j == i + 1
    requires MarkedNode(w, states(i), a) || MaintainsAt(steps, a, i)
    ensures MarkedNode(w, states(j), a)
  {
    PeeredAlong(w, states, steps, i);
    AnyStep(w, states, steps, i, j);
    MarksStay(w, states(i), steps(i), states(j), a);
  }

  lemma {:induction false} MarksLast(w: Setting, states: nat -> FState, steps: nat -> FStep, a: Key, i: nat, j: nat)
    requires IsAnyRun(w, states, steps) && a in w.t && MarkedNode(w, states(i), a) && i <= j
    ensures MarkedNode(w, states(j), a)
    decreases j - i
  {
    if i < j {
      MarksLast(w, states, steps, a, i, j - 1);
      MarksNext(w, states, steps, a, j - 1, j);
    }
  }

  lemma {:induction false} EverybodyMarks(w: Setting, states: nat -> FState, steps: nat -> FStep, ks: set<Key>)
    returns (j: nat)
    requires IsAnyRun(w, states, steps) && Fair(w, states, steps) && ks <= w.t.Keys
    ensures forall a :: a in ks ==> MarkedNode(w, states(j), a)
    decreases |ks|
  {
    j := 0;
    if ks != {} {
      var a :| a in ks;
      var j1 := EverybodyMarks(w, states, steps, ks - {a});
      var k := NextMaintenance(w, states, steps, a, j1);
      j := k + 1;
      MarksNext(w, states, steps, a, k, j);
      forall b | b in ks - {a} ensures MarkedNode(w, states(j), b) {
        MarksLast(w, states, steps, b, j1, j);
      }
    }
  }

  lemma AllMarked(w: Setting, s: FState)
    requires Peered(w, s) && forall a :: a in w.t.Keys ==> MarkedNode(w, s, a)
    ensures Marked(w, s)
  {
    forall a, b | a in w.t ensures b in s.blooms[a] && s.blooms[a][b].onTree <==> TreeEdge(w.t, a, b) {
      assert MarkedNode(w, s, a);
    }
  }

  function Shifted<T>(f: nat -> T, n: nat): (g: nat -> T) { (i: nat) => f(n + i) }

  lemma ShiftedStep(w: Setting, states: nat -> FState, steps: nat -> FStep, n: nat, i: nat)
    requires StepAt(w, states, steps, n + i)
    ensures StepAt(w, Shifted(states, n), Shifted(steps, n), i)
  {
    assert Shifted(states, n)(i) == states(n + i) && Shifted(steps, n)(i) == steps(n + i);
    assert Shifted(states, n)(i + 1) == states(n + i + 1);
  }

  lemma ShiftedRun(w: Setting, states: nat -> FState, steps: nat -> FStep, n: nat)
    requires IsAnyRun(w, states, steps) && Marked(w, states(n))
    ensures IsRun(w, Shifted(states, n), Shifted(steps, n))
  {
    forall i: nat ensures StepAt(w, Shifted(states, n), Shifted(steps, n), i) {
      assert StepAt(w, states, steps, n + i);
      ShiftedStep(w, states, steps, n, i);
    }
    assert Shifted(states, n)(0) == states(n);
  }

  lemma ShiftedFair(w: Setting, states: nat -> FState, steps: nat -> FStep, n: nat)
    requires Fair(w, states, steps)
    ensures Fair(w, Shifted(states, n), Shifted(steps, n))
  {
    forall i: nat, a: Key | a in w.t ensures MaintainsLater(Shifted(steps, n), a, i) {
      var j := NextMaintenance(w, states, steps, a, n + i);
      assert MaintainsAt(Shifted(steps, n), a, j - n);
    }
    forall i: nat, m: FMsg | m in Shifted(states, n)(i).net ensures DeliveredLater(Shifted(steps, n), m, i) {
      var j := Arrival(w, states, steps, m, n + i);
      assert DeliveredAt(Shifted(steps, n), m, j - n);
    }
  }

  lemma ShiftedSettled(w: Setting, states: nat -> FState, n: nat, i: nat)
    requires n <= i
    ensures SettledAt(w, Shifted(states, n), i - n) <==> SettledAt(w, states, i)
  {
    assert Shifted(states, n)(i - n) == states(i);
  }

  lemma ComesToBeMarked(w: Setting, states: nat -> FState, steps: nat -> FStep) returns (n: nat)
    requires IsAnyRun(w, states, steps) && Fair(w, states, steps)
    ensures Marked(w, states(n))
  {
    n := EverybodyMarks(w, states, steps, w.t.Keys);
    PeeredAlong(w, states, steps, n);
    AllMarked(w, states(n));
  }

  /** Filters come to rest: every fair run of filter maintenance and delivery on a
      fixed tree, from any marks and filters, and with filters overtaking each
      other at will, is settled from some point on, so that lookups reach their
      target. */
  lemma FiltersComeToRest(w: Setting, states: nat -> FState, steps: nat -> FStep) returns (j: nat)
    requires IsAnyRun(w, states, steps) && Fair(w, states, steps)
    ensures forall i: nat :: j <= i ==> SettledAt(w, states, i)
  {
    var n := ComesToBeMarked(w, states, steps);
    ShiftedRun(w, states, steps, n);
    ShiftedFair(w, states, steps, n);
    var k := MarkedRunRests(w, Shifted(states, n), Shifted(steps, n));
    j := n + k;
    forall i: nat | j <= i ensures SettledAt(w, states, i) {
      ShiftedSettled(w, states, n, i);
    }
  }
}
