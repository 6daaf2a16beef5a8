/** How the tree under the least key grows, election by election, while gossip
    keeps settling in between. */
module Growth {
  import opened Basics
  import opened Keys
  import opened Tables
  import opened Coordinates
  import opened NodeSpec
  import opened Gossip
  import opened RouterTypes
  import opened Election
  import opened EndToEnd
  import Router
  import Spanning

  type Turn = Router.Pass

  /** The turn is one of a router of the settled network `s`. */
  ghost predicate IsTurn(s: State, u: Turn)
  {
    && Spanning.AtRest(s) && ParentsArePeers(s)
    && u.self in s.nodes && s.nodes[u.self].infos[u.self].seqno < MAX64
    && u.responses.Keys <= u.peers.Keys == s.nodes[u.self].sent.Keys
    && Router.IsPass(u) && u.before == s.nodes[u.self]
  }

  /** `root` is the least key of the network. */
  ghost predicate IsLeast(s: State, root: Key) { root in s.nodes && forall x :: x in s.nodes ==> root <= x }

  /** `x` hangs below `root`. */
  ghost predicate InTree(g: Table, root: Key, x: Key) { x in g && Rooted(g, x) && Root(g, x) == root }

  ghost function Tree(g: Table, root: Key): (xs: set<Key>) { set x | x in g && InTree(g, root, x) }

  /** Everybody's own entries after the turn. */
  ghost function Turned(s: State, u: Turn): (g: Table)
    requires IsTurn(s, u)
  {
    if u.self in u.fixed.infos then OwnTable(s)[u.self := u.fixed.infos[u.self]] else OwnTable(s)
  }

  /** The router gives up its parent and makes itself a root. */
  ghost predicate Retreats(s: State, u: Turn)
    requires IsTurn(s, u)
  {
    var t := s.nodes[u.self].infos;
    && Router.MustAct(t, u.self, u.best, u.flags) && u.flags.doRoot2
    && !Router.CanAdopt(t, u.self, u.responses, u.sign, u.best)
  }

  ghost predicate Adopts(s: State, u: Turn)
    requires IsTurn(s, u)
  {
    var t := s.nodes[u.self].infos;
    Router.MustAct(t, u.self, u.best, u.flags) && Router.CanAdopt(t, u.self, u.responses, u.sign, u.best)
  }

  // --------------------------------------------------------------- trees and turns

  /** A new entry outside the tree leaves the tree alone. */
  lemma OutsideLeavesTree(g: Table, root: Key, a: Key, info: Info, x: Key)
    requires a in g && !InTree(g, root, a) && InTree(g, root, x)
    ensures InTree(g[a := info], root, x)
  {
    var c := Chain(g, x, {});
    if a in c {
      var i :| 0 <= i < |c| && c[i] == a;
      RestIsChain(g, x, i);
    }
    ChainAvoids(g, x, a, info, {});
    assert c[|c| - 1] in c;
  }

  /** If the changed node is in the tree afterwards, so is everybody who was. */
  lemma {:induction false} InsideKeepsTree(g: Table, root: Key, a: Key, info: Info, x: Key)
    requires a in g && InTree(g[a := info], root, a) && InTree(g, root, x)
    ensures InTree(g[a := info], root, x)
    decreases |Chain(g, x, {})|
  {
    var g' := g[a := info];
    if x != a {
      if g[x].parent == x {
        RootPath(g, x);
        RootPath(g', x);
      } else {
        RootedParent(g, x);
        InsideKeepsTree(g, root, a, info, g[x].parent);
        Spanning.RootedChild(g', x);
        RootedParent(g', x);
      }
    }
  }

  /** Adopting a tree member whose ancestry avoids us puts us in the tree. */
  lemma AdoptingJoins(g: Table, root: Key, a: Key, info: Info)
    requires a in g && InTree(g, root, info.parent) && a !in Chain(g, info.parent, {})
    ensures InTree(g[a := info], root, a)
  {
    var c := Chain(g, info.parent, {});
    AdoptingLeavesCycles(g, a, info);
    assert c[|c| - 1] in c;
  }

  lemma ParentAvoidsChild(g: Table, root: Key, a: Key)
    requires InTree(g, root, a) && g[a].parent != a
    ensures InTree(g, root, g[a].parent) && a !in Chain(g, g[a].parent, {})
  {
    RootedParent(g, a);
    ChainIsChain(g, a, {});
    var c, up := Chain(g, a, {}), Chain(g, g[a].parent, {});
    forall i | 0 <= i < |up| ensures up[i] != a {
      assert up[i] == c[i + 1] && c[0] == a;
    }
  }

  /** With the root its own parent, whoever's chain ends there is in the tree. */
  lemma EndsAtRoot(g: Table, root: Key, x: Key)
    requires root in g && g[root].parent == root && x in g && Root(g, x) == root
    ensures InTree(g, root, x)
  {
    assert Chain(g, x, {}) != [];
  }

  // --------------------------------------------------------------- what a turn sees

  lemma RootIsNode(s: State, x: Key)
    requires ParentsArePeers(s) && x in s.nodes
    ensures x in OwnTable(s) && Root(OwnTable(s), x) in s.nodes
  {
    RootIsOnChain(OwnTable(s), x);
    ChainIsKnown(OwnTable(s), x, Root(OwnTable(s), x));
  }

  /** Two tables with the same chains for `a` and for the peers of `a`. */
  ghost predicate SameViews(t: Table, g: Table, a: Key, peers: set<Key>)
  {
    && a in t && a in g && t[a] == g[a] && Chain(t, a, {}) == Chain(g, a, {})
    && forall b :: b in peers ==> b in t && b in g && Chain(t, b, {}) == Chain(g, b, {})
  }

  lemma SeesTruth(s: State, a: Key)
    requires Spanning.AtRest(s) && ParentsArePeers(s) && a in s.nodes
    ensures SameViews(s.nodes[a].infos, OwnTable(s), a, s.nodes[a].sent.Keys)
  {
    OwnAncestryIsTrue(s, a);
    forall b | b in s.nodes[a].sent
      ensures b in s.nodes[a].infos && b in OwnTable(s) && Chain(s.nodes[a].infos, b, {}) == Chain(OwnTable(s), b, {})
    {
      Spanning.PeersAreKnown(s, a, b);
      NeighbourAncestryIsTrue(s, a, b);
    }
  }

  /** The elected root is no worse than any on offer; the elected parent is
      ourselves, the current parent, or a peer whose ancestry avoids us. */
  ghost predicate Elects(g: Table, a: Key, responses: set<Key>, best: Choice)
  {
    && a in g && best.root <= a && best.root <= Root(g, a)
    && (forall b :: b in responses && a !in Chain(g, b, {}) ==> best.root <= Root(g, b))
    && (|| (best.parent == a && best.root == a)
        || (best.parent == g[a].parent && best.root == Root(g, a) < a)
        || (best.parent in responses && a !in Chain(g, best.parent, {}) && best.root == Root(g, best.parent)))
  }

  lemma ElectsOnTruth(t: Table, g: Table, u: Turn)
    requires SameViews(t, g, u.self, u.peers.Keys) && u.responses.Keys <= u.peers.Keys
    requires IsInitial(t, u.self, u.peers, u.cost, u.init)
    requires IsOrder(t, u.self, u.peers, u.responses, u.cost, u.responses.Keys, u.order)
    requires u.best == ConsiderAll(u.flags.refresh, ParentOf(t, u.self), u.init, u.order)
    requires t[u.self].parent == u.self || t[u.self].parent in u.peers
    ensures Elects(g, u.self, u.responses.Keys, u.best)
  {
    ElectionResult(t, u.self, u.peers, u.responses, u.cost, u.flags.refresh, u.init, u.order);
    if t[u.self].parent == u.self { RootPath(t, u.self); }
    forall b | b in u.responses && u.self !in Chain(g, b, {}) ensures u.best.root <= Root(g, b) {
      assert Eligible(t, u.self, u.responses, b);
    }
  }

  lemma TurnElects(s: State, u: Turn)
    requires IsTurn(s, u)
    ensures Elects(OwnTable(s), u.self, u.responses.Keys, u.best)
  {
    SeesTruth(s, u.self);
    ElectsOnTruth(s.nodes[u.self].infos, OwnTable(s), u);
  }

  lemma FixedEntry(n: Node, u: Turn)
    requires u.self in n.infos && n.infos[u.self].seqno < MAX64
    requires u.fixed == Router.FixState(n, u.self, u.responses, u.sign, u.best, u.nonce, u.flags)
    ensures u.self in u.fixed.infos
    ensures var acts := Router.MustAct(n.infos, u.self, u.best, u.flags);
            var can := Router.CanAdopt(n.infos, u.self, u.responses, u.sign, u.best);
            var info := u.fixed.infos[u.self];
            && (acts && can ==> info.parent == u.best.parent)
            && (acts && !can && u.flags.doRoot2 ==> info.parent == u.self)
            && (!acts || (!can && !u.flags.doRoot2) ==> info == n.infos[u.self])
  {
  }

  /** What the turn does to the router's own entry. */
  lemma TurnedEntry(s: State, u: Turn) returns (info: Info)
    requires IsTurn(s, u)
    ensures u.self in OwnTable(s) && Turned(s, u) == OwnTable(s)[u.self := info]
    ensures Adopts(s, u) ==> info.parent == u.best.parent
    ensures Retreats(s, u) ==> info.parent == u.self
    ensures !Adopts(s, u) && !Retreats(s, u) ==> Turned(s, u) == OwnTable(s)
  {
    OwnEntry(s, u.self);
    FixedEntry(s.nodes[u.self], u);
    info := u.fixed.infos[u.self];
    if info == s.nodes[u.self].infos[u.self] { SameEntry(OwnTable(s), u.self); }
  }

  lemma OwnEntry(s: State, a: Key)
    requires a in s.nodes && a in s.nodes[a].infos
    ensures a in OwnTable(s) && OwnTable(s)[a] == s.nodes[a].infos[a]
  {
  }

  lemma SameEntry(g: Table, a: Key)
    requires a in g
    ensures g[a := g[a]] == g
  {
  }

  /** A node of the least tree elects its root. */
  lemma MemberElectsLeast(s: State, u: Turn, root: Key)
    requires IsTurn(s, u) && IsLeast(s, root) && InTree(OwnTable(s), root, u.self)
    ensures u.best.root == root
  {
    TurnElects(s, u);
    if u.best.parent in u.responses {
      assert Neighbours(s, u.self, u.best.parent);
      RootIsNode(s, u.best.parent);
    }
    RootIsNode(s, u.self);
  }

  /** Members that adopt stay members. */
  lemma AdoptingMemberStays(s: State, u: Turn, root: Key)
    requires IsTurn(s, u) && IsLeast(s, root) && InTree(OwnTable(s), root, u.self) && Adopts(s, u)
    ensures InTree(Turned(s, u), root, u.self)
  {
    var g := OwnTable(s);
    MemberElectsLeast(s, u, root);
    TurnElects(s, u);
    RespondersAreNodes(s, u);
    var info := TurnedEntry(s, u);
    ElectedParentFits(g, root, u.self, u.responses.Keys, u.best);
    AdoptingJoins(g, root, u.self, info);
  }

  /** A member whose elected root is the tree's and not itself elects a member that avoids it. */
  lemma ElectedParentFits(g: Table, root: Key, a: Key, responses: set<Key>, best: Choice)
    requires Elects(g, a, responses, best) && InTree(g, root, a) && best.root == root != a
    requires forall b :: b in responses ==> b in g
    ensures InTree(g, root, best.parent) && a !in Chain(g, best.parent, {})
  {
    Spanning.RootIsSelfParent(g, a);
    if g[a].parent == a { RootPath(g, a); }
    if best.parent in responses && a !in Chain(g, best.parent, {}) && best.root == Root(g, best.parent) {
      EndsAtRoot(g, root, best.parent);
    } else {
      ParentAvoidsChild(g, root, a);
    }
  }

  lemma RespondersAreNodes(s: State, u: Turn)
    requires IsTurn(s, u)
    ensures forall b :: b in u.responses ==> b in OwnTable(s)
  {
    forall b | b in u.responses ensures b in OwnTable(s) {
      assert Neighbours(s, u.self, b);
    }
  }

  /** Main result.  Under settled gossip a turn keeps everybody in the tree of the
      least key if and only if it is not that of a member, other than the root,
      which retreats. */
  lemma TreeShrinksExactlyByRetreat(s: State, u: Turn, root: Key)
    requires IsTurn(s, u) && IsLeast(s, root)
    ensures Tree(OwnTable(s), root) <= Tree(Turned(s, u), root) <==>
              !(InTree(OwnTable(s), root, u.self) && u.self != root && Retreats(s, u))
  {
    var g, g' := OwnTable(s), Turned(s, u);
    var info := TurnedEntry(s, u);
    if InTree(g, root, u.self) && u.self != root && Retreats(s, u) {
      RootPath(g', u.self);
      assert u.self in Tree(g, root) && u.self !in Tree(g', root);
    } else {
      forall x | x in Tree(g, root) ensures x in Tree(g', root) {
        StaysInTree(s, u, root, x);
      }
    }
  }

  lemma StaysInTree(s: State, u: Turn, root: Key, x: Key)
    requires IsTurn(s, u) && IsLeast(s, root) && InTree(OwnTable(s), root, x)
    requires !(InTree(OwnTable(s), root, u.self) && u.self != root && Retreats(s, u))
    ensures InTree(Turned(s, u), root, x)
  {
    var g := OwnTable(s);
    var info := TurnedEntry(s, u);
    if Adopts(s, u) {
      if InTree(g, root, u.self) {
        AdoptingMemberStays(s, u, root);
        InsideKeepsTree(g, root, u.self, info, x);
      } else {
        OutsideLeavesTree(g, root, u.self, info, x);
      }
    } else if Retreats(s, u) {
      if InTree(g, root, u.self) {
        RootPath(g[u.self := info], u.self);
        InsideKeepsTree(g, root, u.self, info, x);
      } else {
        OutsideLeavesTree(g, root, u.self, info, x);
      }
    }
  }

  // ---------------------------------------------------------------------- growth

  /** The router's election, and a usable response from whom it elects. */
  ghost predicate HasUsableResponse(s: State, u: Turn)
    requires IsTurn(s, u)
  {
    u.best.parent in u.responses ==>
      Accepts(s.nodes[u.self].infos, Router.Adoption(u.self, u.best.parent, u.responses[u.best.parent], u.sign))
  }

  /** Outside the tree, with a member among the responses, the choice is a member that avoids us. */
  lemma OutsiderElectsMember(g: Table, root: Key, a: Key, responses: set<Key>, best: Choice, b: Key)
    requires Elects(g, a, responses, best) && !InTree(g, root, a) && b in responses && InTree(g, root, b)
    requires best.root >= root && forall x :: x in responses ==> x in g
    ensures best.root == root != a && best.parent in responses && best.parent != g[a].parent
    ensures InTree(g, root, best.parent) && a !in Chain(g, best.parent, {})
  {
    Spanning.RootIsSelfParent(g, b);
    RootPath(g, root);
    var c := Chain(g, b, {});
    if a in c {
      var i :| 0 <= i < |c| && c[i] == a;
      RestIsChain(g, b, i);
    }
    assert best.root == root;
    if Root(g, a) == root { EndsAtRoot(g, root, a); }
    EndsAtRoot(g, root, best.parent);
    if g[a].parent == best.parent {
      Spanning.RootedChild(g, a);
      if g[a].parent != a { RootedParent(g, a); }
    }
  }

  lemma ElectedRootIsNode(s: State, u: Turn)
    requires IsTurn(s, u)
    ensures u.best.root in s.nodes
  {
    TurnElects(s, u);
    RootIsNode(s, u.self);
    if u.best.parent in u.responses {
      assert Neighbours(s, u.self, u.best.parent);
      RootIsNode(s, u.best.parent);
    }
  }

  /** A router outside the tree that hears from a member joins. */
  lemma NeighbourJoins(s: State, u: Turn, root: Key, b: Key)
    requires IsTurn(s, u) && IsLeast(s, root) && HasUsableResponse(s, u)
    requires !InTree(OwnTable(s), root, u.self) && b in u.responses && InTree(OwnTable(s), root, b)
    ensures InTree(Turned(s, u), root, u.self)
  {
    var g := OwnTable(s);
    TurnElects(s, u);
    RespondersAreNodes(s, u);
    ElectedRootIsNode(s, u);
    OutsiderElectsMember(g, root, u.self, u.responses.Keys, u.best, b);
    OwnEntry(s, u.self);
    assert Adopts(s, u);
    var info := TurnedEntry(s, u);
    AdoptingJoins(g, root, u.self, info);
  }

  /** The least key never adopts anybody: off the root it makes itself one, or arms the switch to do so. */
  lemma LeastTakesRoot(s: State, u: Turn)
    requires IsTurn(s, u) && IsLeast(s, u.self)
    ensures !Adopts(s, u)
    ensures !InTree(OwnTable(s), u.self, u.self) ==>
              if u.flags.doRoot2 then InTree(Turned(s, u), u.self, u.self)
              else Router.FixFlags(s.nodes[u.self].infos, u.self, u.responses, u.sign, u.best, u.flags).doRoot1
  {
    var g := OwnTable(s);
    TurnElects(s, u);
    ElectedRootIsNode(s, u);
    RespondersAreNodes(s, u);
    OwnEntry(s, u.self);
    var info := TurnedEntry(s, u);
    if g[u.self].parent == u.self { RootPath(g, u.self); }
    if Retreats(s, u) { RootPath(Turned(s, u), u.self); }
    if u.best.parent == g[u.self].parent { ElectedSelf(g, u.self, u.responses.Keys, u.best); }
  }

  /** Electing oneself as root means being one's own parent already, or leaving one's parent. */
  lemma ElectedSelf(g: Table, a: Key, responses: set<Key>, best: Choice)
    requires Elects(g, a, responses, best) && best.root == a && best.parent == g[a].parent
    requires forall b :: b in responses ==> b in g
    ensures g[a].parent == a
  {
    if best.parent in responses { RootIsOnChain(g, best.parent); }
  }

  /** While the tree does not span a connected network, some router outside has a
      peer inside. */
  lemma SomebodyCanJoin(s: State, root: Key) returns (a: Key, b: Key)
    requires Spanning.Connected(s) && Spanning.Peered(s) && InTree(OwnTable(s), root, root)
    requires exists x :: x in s.nodes && !InTree(OwnTable(s), root, x)
    ensures a in s.nodes && b in s.nodes[a].sent && !InTree(OwnTable(s), root, a) && InTree(OwnTable(s), root, b)
  {
    var g := OwnTable(s);
    var tree := Tree(g, root);
    assert root in tree;
    var x :| x in s.nodes && !InTree(g, root, x);
    assert x !in tree;
    assert !Spanning.ClosedPart(s, tree);
    var m, o :| m in tree && m in s.nodes && o in s.nodes[m].sent && o !in tree;
    assert Neighbours(s, m, o);
    Spanning.OwnTableIsTotal(s);
    a, b := o, m;
  }

  /** A run of turns between which gossip settles; nobody in the tree retreats. */
  ghost predicate IsGrowth(ss: seq<State>, us: seq<Turn>, root: Key)
  {
    && |ss| == |us| + 1
    && (forall i :: 0 <= i < |us| ==>
          && IsTurn(ss[i], us[i]) && IsLeast(ss[i], root) && OwnTable(ss[i + 1]) == Turned(ss[i], us[i])
          && (InTree(OwnTable(ss[i]), root, us[i].self) && us[i].self != root ==> !Retreats(ss[i], us[i])))
  }

  ghost predicate Enters(g: Table, g': Table, root: Key, a: Key) { !InTree(g, root, a) && InTree(g', root, a) }

  /** The number of turns at which a router enters the tree. */
  ghost function Joins(ss: seq<State>, us: seq<Turn>, root: Key): (n: nat)
    requires |ss| == |us| + 1
    decreases |us|
  {
    if us == [] then 0 else
    var k := |us| - 1;
    Joins(ss[..k + 1], us[..k], root) + if Enters(OwnTable(ss[k]), OwnTable(ss[k + 1]), root, us[k].self) then 1 else 0
  }

  lemma OneTurn(s: State, u: Turn, root: Key, g': Table)
    requires IsTurn(s, u) && IsLeast(s, root) && g' == Turned(s, u)
    requires InTree(OwnTable(s), root, u.self) && u.self != root ==> !Retreats(s, u)
    ensures Tree(OwnTable(s), root) <= Tree(g', root)
    ensures |Tree(OwnTable(s), root)| + (if Enters(OwnTable(s), g', root, u.self) then 1 else 0) <= |Tree(g', root)|
  {
    TreeShrinksExactlyByRetreat(s, u, root);
    var before, after := Tree(OwnTable(s), root), Tree(g', root);
    SubsetIsNotLarger(before, after);
    if Enters(OwnTable(s), g', root, u.self) {
      assert u.self in after && u.self !in before;
      ProperSubsetIsSmaller(before, after);
    }
  }

  lemma GrowthPrefix(ss: seq<State>, us: seq<Turn>, root: Key)
    requires IsGrowth(ss, us, root) && us != []
    ensures IsGrowth(ss[..|us|], us[..|us| - 1], root)
  {
  }

  /** Along such a run the tree never shrinks, and there are no more joins than it
      has gained members, so at most one for every router. */
  lemma {:induction false} JoinsAreFew(ss: seq<State>, us: seq<Turn>, root: Key)
    requires IsGrowth(ss, us, root)
    ensures Tree(OwnTable(ss[0]), root) <= Tree(OwnTable(ss[|us|]), root)
    ensures |Tree(OwnTable(ss[0]), root)| + Joins(ss, us, root) <= |Tree(OwnTable(ss[|us|]), root)|
    decreases |us|
  {
    if us != [] {
      var k := |us| - 1;
      GrowthPrefix(ss, us, root);
      JoinsAreFew(ss[..k + 1], us[..k], root);
      OneTurn(ss[k], us[k], root, OwnTable(ss[k + 1]));
    }
  }

  // -------------------------------------------------------------------- the limit

  /** All peers have answered, and the answer of the elected one can still be used. */
  ghost predicate WellAnswered(s: State, u: Turn)
    requires IsTurn(s, u)
  {
    u.responses.Keys == u.peers.Keys && HasUsableResponse(s, u)
  }

  /** A member other than the root with such answers does not retreat. */
  lemma MemberStays(s: State, u: Turn, root: Key)
    requires IsTurn(s, u) && IsLeast(s, root) && WellAnswered(s, u)
    requires InTree(OwnTable(s), root, u.self) && u.self != root
    ensures !Retreats(s, u)
  {
    var g := OwnTable(s);
    MemberElectsLeast(s, u, root);
    TurnElects(s, u);
    OwnEntry(s, u.self);
    if g[u.self].parent == u.self { RootPath(g, u.self); }
  }

  /** An infinite run of turns between which gossip settles, on fixed links.
      `flags` is what each router remembers of its switch to root; a refresh may
      fall due at any time. */
  ghost predicate IsLongRun(states: nat -> State, turns: nat -> Turn, flags: nat -> map<Key, Router.Flags>, root: Key)
  {
    && (forall t: nat :: IsLongStep(states, turns, root, t))
    && (forall t: nat :: RemembersFlags(turns, flags, t))
  }

  ghost predicate IsLongStep(states: nat -> State, turns: nat -> Turn, root: Key, t: nat)
  {
    && IsTurn(states(t), turns(t)) && WellAnswered(states(t), turns(t)) && IsLeast(states(t), root)
    && OwnTable(states(t + 1)) == Turned(states(t), turns(t))
    && SameLinks(states(t), states(t + 1))
  }

  ghost predicate SameLinks(s: State, s': State)
  {
    && s'.nodes.Keys == s.nodes.Keys
    && (forall a :: a in s.nodes && a in s'.nodes ==> s'.nodes[a].sent.Keys == s.nodes[a].sent.Keys)
  }

  ghost predicate RemembersFlags(turns: nat -> Turn, flags: nat -> map<Key, Router.Flags>, t: nat)
  {
    var u := turns(t);
    && u.self in flags(t) && u.flags.doRoot1 == flags(t)[u.self].doRoot1
    && u.flags.doRoot2 == (flags(t)[u.self].doRoot1 || flags(t)[u.self].doRoot2)
    && flags(t + 1) == flags(t)[u.self := Router.FlagsAfter(u)]
  }

  /** Every router keeps having turns. */
  ghost predicate EverybodyActs(states: nat -> State, turns: nat -> Turn)
  {
    forall t: nat, a: Key {:trigger a in states(t).nodes} :: a in states(t).nodes ==>
      exists t': nat :: t <= t' && turns(t').self == a
  }

  ghost function TreeAt(states: nat -> State, root: Key, t: nat): (xs: set<Key>) { Tree(OwnTable(states(t)), root) }

  lemma TurnKeepsTree(states: nat -> State, turns: nat -> Turn, root: Key, t: nat)
    requires IsLongStep(states, turns, root, t)
    ensures TreeAt(states, root, t) <= TreeAt(states, root, t + 1)
  {
    var s, u := states(t), turns(t);
    if InTree(OwnTable(s), root, u.self) && u.self != root { MemberStays(s, u, root); }
    OneTurn(s, u, root, OwnTable(states(t + 1)));
  }

  lemma {:induction false} TreeLasts(states: nat -> State, turns: nat -> Turn, flags: nat -> map<Key, Router.Flags>,
                                     root: Key, t: nat, t': nat)
    requires IsLongRun(states, turns, flags, root) && t <= t'
    ensures TreeAt(states, root, t) <= TreeAt(states, root, t') && SameLinks(states(t), states(t'))
    decreases t' - t
  {
    if t < t' {
      TreeLasts(states, turns, flags, root, t, t' - 1);
      OneStepLasts(states, turns, flags, root, t' - 1, t');
      SameLinksJoin(states(t), states(t' - 1), states(t'));
    }
  }

  lemma OneStepLasts(states: nat -> State, turns: nat -> Turn, flags: nat -> map<Key, Router.Flags>, root: Key, t: nat,
                     t': nat)
    requires IsLongRun(states, turns, flags, root) && t' == t + 1
    ensures TreeAt(states, root, t) <= TreeAt(states, root, t') && SameLinks(states(t), states(t'))
  {
    assert IsLongStep(states, turns, root, t);
    TurnKeepsTree(states, turns, root, t);
  }

  lemma SameLinksJoin(s: State, s1: State, s2: State)
    requires SameLinks(s, s1) && SameLinks(s1, s2)
    ensures SameLinks(s, s2)
  {
  }

  /** The first turn of `a` from `t` on; until then it remembers its flags. */
  lemma {:induction false} NextTurn(states: nat -> State, turns: nat -> Turn, flags: nat -> map<Key, Router.Flags>,
                                    root: Key, a: Key, t: nat, bound: nat) returns (t': nat)
    requires IsLongRun(states, turns, flags, root) && t <= bound && turns(bound).self == a
    ensures t <= t' && turns(t').self == a
    ensures a in flags(t') && a in flags(t) && flags(t')[a] == flags(t)[a]
    decreases bound - t
  {
    assert RemembersFlags(turns, flags, t);
    if turns(t).self == a {
      t' := t;
    } else {
      t' := NextTurn(states, turns, flags, root, a, t + 1, bound);
    }
  }

  /** After a turn of the least key it is a root, or the switch is armed. */
  lemma RootsTurn(states: nat -> State, turns: nat -> Turn, root: Key, t: nat)
    requires IsLongStep(states, turns, root, t) && turns(t).self == root
    ensures root in TreeAt(states, root, t + 1) || (!turns(t).flags.doRoot2 && Router.FlagsAfter(turns(t)).doRoot1)
  {
    LeastTakesRoot(states(t), turns(t));
    TurnKeepsTree(states, turns, root, t);
    OwnEntry(states(t), root);
    if InTree(OwnTable(states(t)), root, root) { assert root in TreeAt(states, root, t); }
  }

  ghost predicate Armed(flags: nat -> map<Key, Router.Flags>, root: Key, t: nat)
  {
    root in flags(t) && flags(t)[root].doRoot1
  }

  lemma AtRootsTurn(states: nat -> State, turns: nat -> Turn, flags: nat -> map<Key, Router.Flags>, root: Key, t: nat,
                    t': nat)
    requires IsLongRun(states, turns, flags, root) && turns(t).self == root && t' == t + 1
    ensures root in TreeAt(states, root, t') || (Armed(flags, root, t') && !Armed(flags, root, t))
  {
    assert IsLongStep(states, turns, root, t);
    assert RemembersFlags(turns, flags, t);
    RootsTurn(states, turns, root, t);
  }

  lemma RootActs(states: nat -> State, turns: nat -> Turn, flags: nat -> map<Key, Router.Flags>, root: Key, t: nat)
    returns (bound: nat)
    requires IsLongRun(states, turns, flags, root) && EverybodyActs(states, turns)
    ensures t <= bound && turns(bound).self == root
  {
    assert IsLongStep(states, turns, root, t);
    assert root in states(t).nodes;
    bound :| t <= bound && turns(bound).self == root;
  }

  /** After its next turn the least key is a root, or the switch is newly armed. */
  lemma NextRootsTurn(states: nat -> State, turns: nat -> Turn, flags: nat -> map<Key, Router.Flags>, root: Key, t: nat)
    returns (t': nat)
    requires IsLongRun(states, turns, flags, root) && EverybodyActs(states, turns)
    ensures t <= t' && (root in TreeAt(states, root, t') || (Armed(flags, root, t') && !Armed(flags, root, t)))
  {
    var bound := RootActs(states, turns, flags, root, t);
    var t1 := NextTurn(states, turns, flags, root, root, t, bound);
    t' := t1 + 1;
    AtRootsTurn(states, turns, flags, root, t1, t');
  }

  /** Within two of its turns the least key is a root for good. */
  lemma LeastBecomesRoot(states: nat -> State, turns: nat -> Turn, flags: nat -> map<Key, Router.Flags>, root: Key,
                         t: nat)
    returns (t': nat)
    requires IsLongRun(states, turns, flags, root) && EverybodyActs(states, turns)
    ensures t <= t' && root in TreeAt(states, root, t')
  {
    t' := NextRootsTurn(states, turns, flags, root, t);
    if root !in TreeAt(states, root, t') {
      t' := NextRootsTurn(states, turns, flags, root, t');
    }
  }

  /** While somebody is outside the tree, it will grow. */
  lemma TreeWillGrow(states: nat -> State, turns: nat -> Turn, flags: nat -> map<Key, Router.Flags>, root: Key, t: nat)
    returns (t': nat)
    requires IsLongRun(states, turns, flags, root) && EverybodyActs(states, turns)
    requires Spanning.Connected(states(t)) && root in TreeAt(states, root, t)
    requires exists x :: x in states(t).nodes && !InTree(OwnTable(states(t)), root, x)
    ensures t <= t' && TreeAt(states, root, t) < TreeAt(states, root, t')
  {
    assert IsLongStep(states, turns, root, t);
    var a, b := SomebodyCanJoin(states(t), root);
    var t1: nat :| t <= t1 && turns(t1).self == a;
    assert IsLongStep(states, turns, root, t1);
    TreeLasts(states, turns, flags, root, t, t1);
    TurnKeepsTree(states, turns, root, t1);
    t' := t1 + 1;
    var s, u := states(t1), turns(t1);
    assert b in TreeAt(states, root, t1) && a !in TreeAt(states, root, t);
    if !InTree(OwnTable(s), root, a) {
      assert b in u.responses;
      NeighbourJoins(s, u, root, b);
    }
    assert a in TreeAt(states, root, t');
  }

  lemma {:induction false} TreeFills(states: nat -> State, turns: nat -> Turn, flags: nat -> map<Key, Router.Flags>,
                                     root: Key, t: nat) returns (j: nat)
    requires IsLongRun(states, turns, flags, root) && EverybodyActs(states, turns) && root in TreeAt(states, root, t)
    requires forall i: nat :: Spanning.Connected(states(i))
    ensures t <= j && forall x :: x in states(j).nodes ==> InTree(OwnTable(states(j)), root, x)
    decreases |states(t).nodes.Keys - TreeAt(states, root, t)|
  {
    if forall x :: x in states(t).nodes ==> InTree(OwnTable(states(t)), root, x) {
      j := t;
    } else {
      var t' := TreeWillGrow(states, turns, flags, root, t);
      TreeLasts(states, turns, flags, root, t, t');
      FewerOutside(states, turns, root, t, t');
      j := TreeFills(states, turns, flags, root, t');
    }
  }

  lemma FewerOutside(states: nat -> State, turns: nat -> Turn, root: Key, t: nat, t': nat)
    requires IsLongStep(states, turns, root, t') && states(t').nodes.Keys == states(t).nodes.Keys
    requires TreeAt(states, root, t) < TreeAt(states, root, t')
    ensures |states(t').nodes.Keys - TreeAt(states, root, t')| < |states(t).nodes.Keys - TreeAt(states, root, t)|
  {
    Spanning.OwnTableIsTotal(states(t'));
    var x :| x in TreeAt(states, root, t') && x !in TreeAt(states, root, t);
    var before := states(t).nodes.Keys - TreeAt(states, root, t);
    var after := states(t').nodes.Keys - TreeAt(states, root, t');
    assert x in before && x !in after && after <= before;
    ProperSubsetIsSmaller(after, before);
  }

  /** Elections come to an end.  In every infinite run of maintenance passes on a
      connected network, between which gossip settles and peers answer, and in
      which everybody keeps having passes, from some point on the parents form a
      spanning tree under the least key, for good. */
  lemma ElectionsEnd(states: nat -> State, turns: nat -> Turn, flags: nat -> map<Key, Router.Flags>, root: Key)
    returns (j: nat)
    requires IsLongRun(states, turns, flags, root) && EverybodyActs(states, turns)
    requires forall i: nat :: Spanning.Connected(states(i))
    ensures forall t: nat :: j <= t ==> Spanning.LeastSpanningTree(states(t), root)
  {
    var t0 := LeastBecomesRoot(states, turns, flags, root, 0);
    j := TreeFills(states, turns, flags, root, t0);
    forall t: nat | j <= t ensures Spanning.LeastSpanningTree(states(t), root) {
      AllInTree(states, turns, flags, root, j, t);
      assert IsLongStep(states, turns, root, t);
      WholeTreeSpans(states(t), root);
    }
  }

  lemma AllInTree(states: nat -> State, turns: nat -> Turn, flags: nat -> map<Key, Router.Flags>, root: Key, j: nat,
                  t: nat)
    requires IsLongRun(states, turns, flags, root) && j <= t
    requires forall x :: x in states(j).nodes ==> InTree(OwnTable(states(j)), root, x)
    ensures forall x :: x in states(t).nodes ==> InTree(OwnTable(states(t)), root, x)
  {
    TreeLasts(states, turns, flags, root, j, t);
    forall x | x in states(t).nodes ensures InTree(OwnTable(states(t)), root, x) {
      assert x in TreeAt(states, root, j);
    }
  }

  lemma WholeTreeSpans(s: State, root: Key)
    requires ParentsArePeers(s) && IsLeast(s, root)
    requires forall x :: x in s.nodes ==> InTree(OwnTable(s), root, x)
    ensures Spanning.LeastSpanningTree(s, root)
  {
    Spanning.OwnTableIsTotal(s);
    Spanning.RootIsSelfParent(OwnTable(s), root);
  }
}
