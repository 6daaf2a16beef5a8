/** Lookups guided by bloom filters (`_handleLookup`, `_sendMulticast`) on a
    settled tree: they reach their target, and no node handles one twice. */
module Multicast {
  import opened Basics
  import opened Keys
  import opened Tables
  import opened Coordinates
  import opened BloomSpec

  /** Everybody's filter bookkeeping, over the tree `t` of everybody's own entries. */
  datatype Net = Net(t: Table, root: Key, blooms: map<Key, Blooms>, bits: Key -> Filter)

  /** Tree marks agree with the tree, every node's last maintenance advertised a
      covering filter on each tree link, and each received filter is the one the
      neighbour last sent. */
  ghost predicate Settled(n: Net)
  {
    && IsTree(n.t, n.root)
    && n.blooms.Keys == n.t.Keys
    && (forall a, b :: a in n.t ==> (b in n.blooms[a] && n.blooms[a][b].onTree <==> TreeEdge(n.t, a, b)))
    && (forall a, b :: TreeEdge(n.t, a, b) ==>
          && Fresh(n.bits(a), n.blooms[a], b) <= n.blooms[a][b].send
          && n.blooms[b][a].recv == n.blooms[a][b].send)
  }

  // ----------------------------------------------------------------- labelling

  /** Filters never read a port, so the proofs are free to choose ports. */
  function Relabelled(t: Table): (t': Table) { map k | k in t :: t[k].(port := k + 1) }

  /** The same network with ports that tell siblings apart. */
  function Labelling(n: Net): (n': Net) { n.(t := Relabelled(n.t)) }

  lemma RelabelledChain(t: Table, k: Key)
    ensures Chain(Relabelled(t), k, {}) == Chain(t, k, {})
  {
    ChainIsChain(t, k, {});
    var t' := Relabelled(t);
    assert t'.Keys == t.Keys && forall x :: x in t ==> t'[x].parent == t[x].parent;
    ChainUnique(t', k, {}, Chain(t, k, {}));
  }

  lemma RelabelledTree(t: Table, root: Key)
    requires IsTree(t, root)
    ensures IsTree(Relabelled(t), root) && PortsDistinct(Relabelled(t))
    ensures forall a, b :: TreeEdge(Relabelled(t), a, b) <==> TreeEdge(t, a, b)
  {
    forall k | k in t ensures Rooted(Relabelled(t), k) && Root(Relabelled(t), k) == root {
      RelabelledChain(t, k);
    }
  }

  ghost predicate Labelled(n: Net) { Settled(n) && PortsDistinct(n.t) }

  lemma LabellingSettles(n: Net)
    requires Settled(n)
    ensures Labelled(Labelling(n)) && Labelling(n).t.Keys == n.t.Keys
  {
    RelabelledTree(n.t, n.root);
  }

  lemma LabellingRuns(n: Net, src: Key, dest: Key, runs: seq<Run>, hops: seq<Hop>)
    requires IsRun(n, src, dest, runs, hops)
    ensures IsRun(Labelling(n), src, dest, runs, hops)
  {
    forall i | 0 <= i < |hops| ensures Step(Labelling(n), dest, runs[i], hops[i], runs[i + 1]) {
      assert Step(n, dest, runs[i], hops[i], runs[i + 1]);
      assert Targets(Labelling(n), hops[i], dest) == Targets(n, hops[i], dest);
    }
  }

  // ------------------------------------------------------------------- coverage

  /** A walk over tree edges that never turns straight back. */
  ghost predicate Onward(t: Table, w: seq<Key>)
  {
    IsWalk(t, w) && forall i, j :: 0 <= i && j == i + 2 && j < |w| ==> w[i] != w[j]
  }

  lemma OnwardTail(t: Table, w: seq<Key>)
    requires Onward(t, w) && |w| >= 2
    ensures Onward(t, w[1..]) && TreeEdge(t, w[0], w[1])
  {
    var rest := w[1..];
    forall i | 0 < i < |rest| ensures TreeEdge(t, rest[i - 1], rest[i]) {
      var k := i + 1;
      assert TreeEdge(t, w[k - 1], w[k]);
    }
    var one := 1;
    assert TreeEdge(t, w[one - 1], w[one]);
  }

  /** `b` passes on to `a` its own bits and whatever it heard from `c`. */
  lemma FilterPassesOn(n: Net, a: Key, b: Key)
    requires Settled(n) && TreeEdge(n.t, a, b)
    ensures b in n.blooms[a] && n.bits(b) <= n.blooms[a][b].recv
    ensures forall c :: TreeEdge(n.t, b, c) && c != a ==> c in n.blooms[b] && n.blooms[b][c].recv <= n.blooms[a][b].recv
  {
    assert TreeEdge(n.t, b, a);
    assert Fresh(n.bits(b), n.blooms[b], a) <= n.blooms[b][a].send;
    assert n.blooms[a][b].recv == n.blooms[b][a].send;
    forall c | TreeEdge(n.t, b, c) && c != a ensures c in n.blooms[b] && n.blooms[b][c].recv <= n.blooms[a][b].recv {
      assert n.blooms[b][c].recv <= Fresh(n.bits(b), n.blooms[b], a);
    }
  }

  /** No false negatives: the filter that `w[0]` received from its neighbour
      `w[1]` holds the bits of every node on that side of the edge. */
  lemma {:induction false} FilterCoversSide(n: Net, w: seq<Key>)
    requires Settled(n) && Onward(n.t, w) && |w| >= 2
    ensures TreeEdge(n.t, w[0], w[1]) && w[1] in n.blooms[w[0]] && n.bits(w[|w| - 1]) <= n.blooms[w[0]][w[1]].recv
    decreases |w|
  {
    OnwardTail(n.t, w);
    FilterPassesOn(n, w[0], w[1]);
    if |w| > 2 {
      FilterCoversSide(n, w[1..]);
    }
  }

  // ------------------------------------------------------------ lookup runs

  /** `to` is handed the lookup by `from`; the origin hands it to itself. */
  datatype Hop = Hop(from: Key, to: Key)

  datatype Run = Run(flight: multiset<Hop>, handled: seq<Hop>)

  /** `_sendMulticast` at `h.to`. */
  function Targets(n: Net, h: Hop, dest: Key): (ks: set<Key>)
    requires h.to in n.blooms
  {
    MulticastTo(n.blooms[h.to], n.bits(dest), h.from)
  }

  ghost predicate Start(r: Run, src: Key)
  {
    r == Run(multiset{Hop(src, src)}, [])
  }

  /** Some copy in flight is handled and multicast onwards. */
  ghost predicate Step(n: Net, dest: Key, r: Run, h: Hop, r': Run)
  {
    && h in r.flight && h.to in n.blooms
    && r'.handled == r.handled + [h]
    && forall g :: r'.flight[g] ==
         r.flight[g] - (if g == h then 1 else 0) + (if g.from == h.to && g.to in Targets(n, h, dest) then 1 else 0)
  }

  ghost function Away(n: Net, src: Key, k: Key): (d: nat)
  {
    Dist(Path(n.t, k), Path(n.t, src))
  }

  ghost predicate Handled(r: Run, k: Key) { exists h :: h in r.handled && h.to == k }

  /** A copy in flight: one only, moving outward, to a node that has not
      handled the lookup, from one that has. */
  ghost predicate InFlight(n: Net, src: Key, r: Run, h: Hop)
  {
    && Outward(n, src, h) && r.flight[h] == 1
    && !Handled(r, h.to)
    && (if h.from == h.to then r.handled == [] else Handled(r, h.from))
  }

  ghost predicate WasHandled(n: Net, src: Key, r: Run, h: Hop)
  {
    Outward(n, src, h) && (h.from != h.to ==> Handled(r, h.from))
  }

  ghost predicate RunInv(n: Net, src: Key, r: Run)
  {
    && (forall h :: h in r.flight ==> InFlight(n, src, r, h))
    && (forall h :: h in r.handled ==> WasHandled(n, src, r, h))
    && (forall i, j :: 0 <= i < j < |r.handled| ==> r.handled[i].to != r.handled[j].to)
  }

  ghost predicate Outward(n: Net, src: Key, h: Hop)
  {
    || (h == Hop(src, src) && src in n.t)
    || (TreeEdge(n.t, h.from, h.to) && Away(n, src, h.to) == Away(n, src, h.from) + 1)
  }

  /** Only one neighbour of a node is nearer to a given place. */
  lemma NearerNeighbourUnique(n: Net, src: Key, k: Key, a: Key, b: Key)
    requires IsTree(n.t, n.root) && PortsDistinct(n.t) && src in n.t
    requires TreeEdge(n.t, a, k) && TreeEdge(n.t, b, k)
    requires Away(n, src, k) == Away(n, src, a) + 1 && Away(n, src, k) == Away(n, src, b) + 1
    ensures a == b
  {
    NearerNeighbour(n, src, k, a);
    NearerNeighbour(n, src, k, b);
    if n.t[a].parent == k && n.t[b].parent == k {
      PathInjective(n.t, n.root, a, b);
    }
  }

  /** The nearer neighbour is the child towards `src`, or else the parent. */
  lemma NearerNeighbour(n: Net, src: Key, k: Key, a: Key)
    requires IsTree(n.t, n.root) && src in n.t && TreeEdge(n.t, a, k)
    requires Away(n, src, k) == Away(n, src, a) + 1
    ensures var p, q := Path(n.t, k), Path(n.t, src);
            if n.t[a].parent == k then |p| < |q| && Path(n.t, a) == q[..|p| + 1] && p <= q
            else n.t[k].parent == a && !(p <= q)
  {
    var p, q := Path(n.t, k), Path(n.t, src);
    if n.t[a].parent == k {
      PathOfChild(n.t, a);
      DistChild(p, n.t[a].port, q);
    } else {
      PathOfChild(n.t, k);
      DistChild(Path(n.t, a), n.t[k].port, q);
    }
  }

  /** Forwarding never turns back, so it keeps moving away from the origin. */
  lemma TargetsAreOutward(n: Net, src: Key, h: Hop, dest: Key, k: Key)
    requires Labelled(n) && src in n.t && Outward(n, src, h) && h.to in n.blooms && k in Targets(n, h, dest)
    ensures Outward(n, src, Hop(h.to, k)) && h.to != k
  {
    assert TreeEdge(n.t, h.to, k);
    EdgeChangesDistByOne(n.t, n.root, h.to, k, Path(n.t, src));
    if Away(n, src, k) == Away(n, src, h.to) - 1 {
      if h == Hop(src, src) {
        DistZero(Path(n.t, src), Path(n.t, src));
      } else {
        NearerNeighbourUnique(n, src, h.to, h.from, k);
      }
    }
  }

  /** Two outward hops into one node come from one neighbour. */
  lemma ArrivesFrom(n: Net, src: Key, g: Hop, h: Hop)
    requires IsTree(n.t, n.root) && PortsDistinct(n.t) && src in n.t
    requires Outward(n, src, g) && Outward(n, src, h) && g.to == h.to
    ensures g == h
  {
    DistZero(Path(n.t, src), Path(n.t, src));
    if g != Hop(src, src) && h != Hop(src, src) {
      NearerNeighbourUnique(n, src, g.to, g.from, h.from);
    }
  }

  /** A target of `h` was not handled before: it is reached through `h.to` only. */
  lemma TargetIsNew(n: Net, src: Key, dest: Key, r: Run, h: Hop, k: Key)
    requires Labelled(n) && src in n.t && RunInv(n, src, r) && h in r.flight && h.to in n.blooms &&
             k in Targets(n, h, dest)
    ensures Outward(n, src, Hop(h.to, k)) && k != h.to
    ensures !Handled(r, k)
    ensures Hop(h.to, k) !in r.flight
  {
    TargetsAreOutward(n, src, h, dest, k);
    assert InFlight(n, src, r, h);
    forall g | g in r.handled ensures g.to != k {
      assert WasHandled(n, src, r, g);
      if g.to == k {
        ArrivesFrom(n, src, g, Hop(h.to, k));
        assert false;
      }
    }
    assert Hop(h.to, k) in r.flight ==> InFlight(n, src, r, Hop(h.to, k));
  }

  /** After a step: what was in flight, less `h`, plus the targets of `h`. */
  lemma FlightAfter(n: Net, src: Key, dest: Key, r: Run, h: Hop, r': Run, g: Hop)
    requires Labelled(n) && src in n.t && RunInv(n, src, r) && Step(n, dest, r, h, r') && g in r'.flight
    ensures InFlight(n, src, r', g)
  {
    assert InFlight(n, src, r, h);
    HandledAfter(n, dest, r, h, r');
    assert r'.flight[g] > 0;
    if g.from == h.to && g.to in Targets(n, h, dest) {
      TargetIsNew(n, src, dest, r, h, g.to);
      assert g == Hop(h.to, g.to);
    } else {
      assert g in r.flight && g != h;
      assert InFlight(n, src, r, g);
      OtherCopyStands(n, src, r, h, g);
    }
  }

  lemma HandledAfter(n: Net, dest: Key, r: Run, h: Hop, r': Run)
    requires Step(n, dest, r, h, r')
    ensures forall k :: Handled(r', k) <==> Handled(r, k) || k == h.to
  {
    assert forall x :: x in r'.handled <==> x in r.handled || x == h;
    forall k ensures Handled(r', k) <==> Handled(r, k) || k == h.to {
      if k == h.to { assert h in r'.handled; }
      if Handled(r, k) {
        var x :| x in r.handled && x.to == k;
        assert x in r'.handled;
      }
    }
  }

  /** Two copies in flight are headed for different nodes. */
  lemma OtherCopyStands(n: Net, src: Key, r: Run, h: Hop, g: Hop)
    requires Labelled(n) && src in n.t && RunInv(n, src, r) && h in r.flight && g in r.flight && g != h
    ensures g.to != h.to && g.from != g.to
  {
    assert InFlight(n, src, r, h) && InFlight(n, src, r, g);
    if g.to == h.to { ArrivesFrom(n, src, g, h); }
    assert h.from != h.to ==> exists x :: x in r.handled && x.to == h.from;
  }

  lemma StartHoldsInv(n: Net, src: Key, r: Run)
    requires src in n.t && Start(r, src)
    ensures RunInv(n, src, r)
  {
    forall h | h in r.flight ensures InFlight(n, src, r, h) {
      assert h == Hop(src, src);
    }
  }

  /** One step keeps the invariant. */
  lemma StepKeepsInv(n: Net, src: Key, dest: Key, r: Run, h: Hop, r': Run)
    requires Labelled(n) && src in n.t && RunInv(n, src, r) && Step(n, dest, r, h, r')
    ensures RunInv(n, src, r')
  {
    assert InFlight(n, src, r, h);
    forall g | g in r'.flight ensures InFlight(n, src, r', g) {
      FlightAfter(n, src, dest, r, h, r', g);
    }
    forall g | g in r'.handled ensures WasHandled(n, src, r', g) {
      assert g != h ==> WasHandled(n, src, r, g);
      assert forall x :: x in r.handled ==> x in r'.handled;
    }
    forall i, j | 0 <= i < j < |r'.handled| ensures r'.handled[i].to != r'.handled[j].to {
      if j == |r.handled| { assert r.handled[i] in r.handled; }
    }
  }

  ghost predicate IsRun(n: Net, src: Key, dest: Key, runs: seq<Run>, hops: seq<Hop>)
  {
    && |runs| == |hops| + 1 && Start(runs[0], src)
    && forall i :: 0 <= i < |hops| ==> Step(n, dest, runs[i], hops[i], runs[i + 1])
  }

  lemma {:induction false} InvAlongRun(n: Net, src: Key, dest: Key, runs: seq<Run>, hops: seq<Hop>, i: nat)
    requires Labelled(n) && src in n.t && IsRun(n, src, dest, runs, hops) && i < |runs|
    ensures RunInv(n, src, runs[i])
  {
    if i == 0 {
      StartHoldsInv(n, src, runs[0]);
    } else {
      var k := i - 1;
      InvAlongRun(n, src, dest, runs, hops, k);
      StepKeepsInv(n, src, dest, runs[k], hops[k], runs[k + 1]);
    }
  }

  /** No node handles the same lookup twice, in any order of delivery. */
  lemma NoNodeTwice(n: Net, src: Key, dest: Key, runs: seq<Run>, hops: seq<Hop>)
    requires Settled(n) && src in n.t && IsRun(n, src, dest, runs, hops)
    ensures var done := runs[|hops|].handled;
            forall i, j :: 0 <= i < j < |done| ==> done[i].to != done[j].to
  {
    LabellingSettles(n);
    LabellingRuns(n, src, dest, runs, hops);
    InvAlongRun(Labelling(n), src, dest, runs, hops, |hops|);
  }

  // ----------------------------------------------------------------- reaching

  /** Everything handled has passed the lookup on: its targets are in flight or handled. */
  ghost predicate PassedOn(n: Net, dest: Key, r: Run)
  {
    forall h, k :: h in r.handled && h.to in n.blooms && k in Targets(n, h, dest) ==>
      Hop(h.to, k) in r.flight || Hop(h.to, k) in r.handled
  }

  lemma StepPassesOn(n: Net, dest: Key, r: Run, h: Hop, r': Run)
    requires PassedOn(n, dest, r) && Step(n, dest, r, h, r')
    ensures PassedOn(n, dest, r')
  {
    assert forall x :: x in r'.handled <==> x in r.handled || x == h;
    forall g, k | g in r'.handled && g.to in n.blooms && k in Targets(n, g, dest)
      ensures Hop(g.to, k) in r'.flight || Hop(g.to, k) in r'.handled
    {
      var x := Hop(g.to, k);
      assert r'.flight[x] >= r.flight[x] - (if x == h then 1 else 0);
      if g == h {
        assert r'.flight[x] > 0 || x == h;
      }
    }
  }

  lemma {:induction false} PassedOnAlongRun(n: Net, src: Key, dest: Key, runs: seq<Run>, hops: seq<Hop>, i: nat)
    requires IsRun(n, src, dest, runs, hops) && i < |runs|
    ensures PassedOn(n, dest, runs[i])
    ensures Hop(src, src) in runs[i].flight || Hop(src, src) in runs[i].handled
  {
    if i > 0 {
      var k := i - 1;
      PassedOnAlongRun(n, src, dest, runs, hops, k);
      StepPassesOn(n, dest, runs[k], hops[k], runs[k + 1]);
      var x := Hop(src, src);
      assert runs[k + 1].flight[x] >= runs[k].flight[x] - (if x == hops[k] then 1 else 0);
      assert forall y :: y in runs[k].handled ==> y in runs[k + 1].handled;
    }
  }

  /** The sender's filter from that tree neighbour holds all bits of the target. */
  ghost predicate AskedFor(n: Net, dest: Key, h: Hop)
  {
    && h.from in n.blooms && h.to in n.blooms[h.from] && n.blooms[h.from][h.to].onTree
    && forall x :: x in n.bits(dest) ==> x in n.blooms[h.from][h.to].recv
  }

  /** No flooding: in every run, whatever the filters hold, a lookup goes only over
      links whose received filter asked for it. */
  lemma {:induction false} OnlyWhereAsked(n: Net, src: Key, dest: Key, runs: seq<Run>, hops: seq<Hop>, i: nat, h: Hop)
    requires IsRun(n, src, dest, runs, hops) && i < |runs| && (h in runs[i].flight || h in runs[i].handled)
    ensures h == Hop(src, src) || AskedFor(n, dest, h)
  {
    if i > 0 {
      var k := i - 1;
      assert Step(n, dest, runs[k], hops[k], runs[i]);
      if h in runs[k].flight || h in runs[k].handled {
        OnlyWhereAsked(n, src, dest, runs, hops, k, h);
      } else {
        assert h != hops[k] && runs[i].flight[h] > 0;
        assert h.from == hops[k].to && h.to in Targets(n, hops[k], dest);
      }
    }
  }

  /** Along an onward walk from the origin to a node whose bits the lookup asks
      for, everyone handles it. */
  lemma {:induction false} ReachesAlong(n: Net, src: Key, dest: Key, r: Run, w: seq<Key>, i: nat)
    requires Settled(n) && Onward(n.t, w) && w[0] == src && i < |w|
    requires PassedOn(n, dest, r) && r.flight == multiset{} && Hop(src, src) in r.handled
    requires n.bits(dest) <= n.bits(w[|w| - 1])
    ensures Hop(w[if i == 0 then 0 else i - 1], w[i]) in r.handled
  {
    if i > 0 {
      ReachesAlong(n, src, dest, r, w, i - 1);
      var h := Hop(w[if i - 1 == 0 then 0 else i - 1 - 1], w[i - 1]);
      OnwardFrom(n.t, w, i - 1);
      FilterCoversSide(n, w[i - 1..]);
      assert w[i - 1..][0] == w[i - 1] && w[i - 1..][1] == w[i];
      NotBack(n.t, w, i);
      assert w[i] in Targets(n, h, dest);
    }
  }

  lemma {:induction false} OnwardFrom(t: Table, w: seq<Key>, i: nat)
    requires Onward(t, w) && i < |w|
    ensures Onward(t, w[i..])
  {
    if i == 0 {
      assert w[0..] == w;
    } else {
      OnwardFrom(t, w, i - 1);
      OnwardTail(t, w[i - 1..]);
      assert w[i - 1..][1..] == w[i..];
    }
  }

  lemma NotBack(t: Table, w: seq<Key>, i: nat)
    requires Onward(t, w) && 0 < i < |w|
    ensures w[i] != w[if i - 1 == 0 then 0 else i - 2]
  {
    assert TreeEdge(t, w[i - 1], w[i]);
  }

  /** Shortest walks never turn back. */
  lemma ShortestIsOnward(t: Table, root: Key, w: seq<Key>)
    requires IsTree(t, root) && IsWalk(t, w) && |w| - 1 == Dist(Path(t, w[0]), Path(t, w[|w| - 1]))
    ensures Onward(t, w)
  {
    forall i, j | 0 <= i && j == i + 2 && j < |w| ensures w[i] != w[j] {
      if w[i] == w[j] {
        ShortCut(t, root, w, i);
        assert false;
      }
    }
  }

  /** A walk that turns straight back, with the two steps cut out. */
  lemma CutIsWalk(t: Table, w: seq<Key>, i: nat)
    requires IsWalk(t, w) && i + 2 < |w| && w[i] == w[i + 2]
    ensures IsWalk(t, w[..i + 1] + w[i + 3..])
  {
    var v := w[..i + 1] + w[i + 3..];
    forall k | 0 <= k < |v| ensures v[k] in t && (0 < k ==> TreeEdge(t, v[k - 1], v[k])) {
      var m := if k <= i then k else k + 2;
      assert v[k] == w[m];
      assert 0 < m ==> TreeEdge(t, w[m - 1], w[m]);
    }
  }

  lemma ShortCut(t: Table, root: Key, w: seq<Key>, i: nat)
    requires IsTree(t, root) && IsWalk(t, w) && i + 2 < |w| && w[i] == w[i + 2]
    ensures Dist(Path(t, w[0]), Path(t, w[|w| - 1])) < |w| - 1
  {
    var v := w[..i + 1] + w[i + 3..];
    CutIsWalk(t, w, i);
    assert v[0] == w[0] && v[|v| - 1] == w[|w| - 1];
    WalkAtLeastDist(t, root, v);
  }

  /** When no copy is left in flight, every node whose transformed key matches
      the one asked for has handled the lookup, wherever it started. */
  lemma LookupReachesTarget(n: Net, src: Key, dest: Key, target: Key, runs: seq<Run>, hops: seq<Hop>)
    requires Settled(n) && src in n.t && target in n.t && n.bits(dest) == n.bits(target)
    requires IsRun(n, src, dest, runs, hops) && runs[|hops|].flight == multiset{}
    ensures Handled(runs[|hops|], target)
  {
    PassedOnAlongRun(n, src, dest, runs, hops, |hops|);
    var t := Relabelled(n.t);
    RelabelledTree(n.t, n.root);
    var w := ShortestWalk(t, n.root, src, target);
    ShortestIsOnward(t, n.root, w);
    assert IsWalk(n.t, w) by {
      assert forall i :: 0 < i < |w| ==> TreeEdge(t, w[i - 1], w[i]);
    }
    ReachesAlong(n, src, dest, runs[|hops|], w, |w| - 1);
  }

  // -------------------------------------------------------------- termination

  lemma {:induction false} HandledTargets(hs: seq<Hop>, t: set<Key>)
    requires forall i, j :: 0 <= i < j < |hs| ==> hs[i].to != hs[j].to
    requires forall h :: h in hs ==> h.to in t
    ensures |hs| <= |t|
  {
    if hs != [] {
      var pre, last := hs[..|hs| - 1], hs[|hs| - 1];
      assert forall h :: h in pre ==> h in hs;
      forall h | h in pre ensures h.to in t - {last.to} {
        var i :| 0 <= i < |pre| && pre[i] == h;
      }
      assert last in hs;
      HandledTargets(pre, t - {last.to});
    }
  }

  /** A lookup is handled at most once per node, so every run ends. */
  lemma LookupTerminates(n: Net, src: Key, dest: Key, runs: seq<Run>, hops: seq<Hop>)
    requires Settled(n) && src in n.t && IsRun(n, src, dest, runs, hops)
    ensures |hops| <= |n.t.Keys|
  {
    var n' := Labelling(n);
    LabellingSettles(n);
    LabellingRuns(n, src, dest, runs, hops);
    InvAlongRun(n', src, dest, runs, hops, |hops|);
    HandledLength(n, src, dest, runs, hops, |hops|);
    var done := runs[|hops|].handled;
    forall h | h in done ensures h.to in n.t.Keys {
      assert WasHandled(n', src, runs[|hops|], h);
    }
    HandledTargets(done, n.t.Keys);
  }

  lemma {:induction false} HandledLength(n: Net, src: Key, dest: Key, runs: seq<Run>, hops: seq<Hop>, i: nat)
    requires IsRun(n, src, dest, runs, hops) && i < |runs|
    ensures |runs[i].handled| == i
  {
    if i > 0 {
      var k := i - 1;
      HandledLength(n, src, dest, runs, hops, k);
      assert Step(n, dest, runs[k], hops[k], runs[k + 1]);
    }
  }
}
