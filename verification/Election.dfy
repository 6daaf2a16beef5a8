/** Parent selection (`_fix`, ironwood/network/router.go) as a fold over the
    candidates in whatever order the response map is walked. */
module Election {
  import opened Basics
  import opened Keys
  import opened Tables
  import opened Coordinates
  import opened RouterTypes

  /** A possible parent: the root it leads to and the price of going there. */
  datatype Choice = Choice(root: Key, parent: Key, cost: nat)

  /** The body of the loop over responses. */
  function Consider(refresh: bool, current: Key, best: Choice, c: Choice): (r: Choice)
  {
    if c.root > best.root then best
    else
      var b := if c.root < best.root then c else best;
      if (refresh && Mul64(c.cost, 2) < b.cost) || (b.parent != current && c.cost < b.cost) then c else b
  }

  function ConsiderAll(refresh: bool, current: Key, init: Choice, cs: seq<Choice>): (r: Choice)
  {
    if cs == [] then init
    else Consider(refresh, current, ConsiderAll(refresh, current, init, cs[..|cs| - 1]), cs[|cs| - 1])
  }

  /** In every order the outcome is one of the candidates and leads to the least root. */
  lemma {:induction false} ElectsLeastRoot(refresh: bool, current: Key, init: Choice, cs: seq<Choice>)
    ensures var r := ConsiderAll(refresh, current, init, cs);
            && (r == init || r in cs)
            && r.root <= init.root
            && (forall c :: c in cs ==> r.root <= c.root)
  {
    if cs != [] {
      var pre := cs[..|cs| - 1];
      ElectsLeastRoot(refresh, current, init, pre);
      assert cs == pre + [cs[|cs| - 1]];
    }
  }

  /** Outside a refresh a node keeps a parent that leads to the least root. */
  lemma {:induction false} KeepsGoodParent(current: Key, init: Choice, cs: seq<Choice>)
    requires init.parent == current && forall c :: c in cs ==> init.root <= c.root
    ensures ConsiderAll(false, current, init, cs) == init
  {
    if cs != [] {
      assert cs == cs[..|cs| - 1] + [cs[|cs| - 1]];
      KeepsGoodParent(current, init, cs[..|cs| - 1]);
    }
  }

  ghost predicate CheapEnough(refresh: bool, current: Key, best: Choice, c: Choice)
  {
    c.root == best.root ==>
      && (best.parent != current ==> best.cost <= c.cost)
      && (best.parent == current && refresh ==> best.cost <= 2 * c.cost)
  }

  lemma ConsiderKeepsCheap(refresh: bool, current: Key, best: Choice, c: Choice, d: Choice)
    requires best.root <= d.root && CheapEnough(refresh, current, best, d)
    requires refresh ==> 2 * c.cost < U64 && 2 * d.cost < U64
    ensures CheapEnough(refresh, current, Consider(refresh, current, best, c), d)
    ensures CheapEnough(refresh, current, Consider(refresh, current, best, c), c)
  {
    assert refresh ==> Mul64(c.cost, 2) == 2 * c.cost;
  }

  /** A newly chosen parent is a cheapest one for its root, and at a refresh the
      current parent is only kept when nothing costs less than half as much. */
  lemma {:induction false} ElectsCheap(refresh: bool, current: Key, init: Choice, cs: seq<Choice>)
    requires refresh ==> forall c :: c in cs ==> 2 * c.cost < U64
    ensures forall c :: c in cs ==> CheapEnough(refresh, current, ConsiderAll(refresh, current, init, cs), c)
  {
    if cs != [] {
      var pre, last := cs[..|cs| - 1], cs[|cs| - 1];
      assert cs == pre + [last];
      ElectsCheap(refresh, current, init, pre);
      ElectsLeastRoot(refresh, current, init, pre);
      var best := ConsiderAll(refresh, current, init, pre);
      forall d | d in cs ensures CheapEnough(refresh, current, Consider(refresh, current, best, last), d) {
        if d in pre {
          ConsiderKeepsCheap(refresh, current, best, last, d);
        } else {
          assert d == last;
          assert refresh ==> Mul64(last.cost, 2) == 2 * last.cost;
        }
      }
    }
  }

  /** At a refresh a parent that leads to the least root is only given up for one
      that costs less than half. */
  lemma {:induction false} RefreshNeedsHalf(current: Key, init: Choice, cs: seq<Choice>)
    requires init.parent == current && forall c :: c in cs ==> init.root <= c.root && 2 * c.cost < U64
    ensures var r := ConsiderAll(true, current, init, cs); r != init ==> r in cs && 2 * r.cost < init.cost
    ensures ConsiderAll(true, current, init, cs).root == init.root
  {
    if cs != [] {
      var pre, last := cs[..|cs| - 1], cs[|cs| - 1];
      assert cs == pre + [last];
      RefreshNeedsHalf(current, init, pre);
      assert Mul64(last.cost, 2) == 2 * last.cost;
    }
  }

  /** At a refresh a cost of 2^63 and more wraps when doubled: the dearest path can
      replace a cheap one. */
  lemma DoublingWraps()
    ensures var cheap, dear := Choice(1, 2, 10), Choice(1, 3, 0x8000_0000_0000_0000);
            ConsiderAll(true, 2, cheap, [dear]) == dear
  {
    var cheap, dear := Choice(1, 2, 10), Choice(1, 3, 0x8000_0000_0000_0000);
    assert [dear][..0] == [];
    assert ConsiderAll(true, 2, cheap, []) == cheap;
    assert Mul64(dear.cost, 2) == 0;
  }

  // ------------------------------------------------------------------- cycles

  /** Following parents from `k` comes back to `k` through another node. */
  predicate OnCycle(t: Table, k: Key)
  {
    k in t && t[k].parent != k && k in Chain(t, t[k].parent, {})
  }

  /** `k` is the least key among its cyclic ancestry. */
  ghost predicate LeastOnCycle(t: Table, k: Key)
  {
    OnCycle(t, k) && forall a :: a in Chain(t, k, {}) ==> k <= a
  }

  /** Changing an entry that a chain does not meet leaves the chain alone. */
  lemma ChainAvoids(t: Table, x: Key, self: Key, info: Info, seen: set<Key>)
    requires self in t && self !in Chain(t, x, {}) && seen <= {self}
    ensures Chain(t[self := info], x, seen) == Chain(t, x, {})
  {
    var t' := t[self := info];
    var c := Chain(t, x, {});
    ChainIsChain(t, x, {});
    assert forall i :: 0 <= i < |c| ==> c[i] in c;
    if c == [] {
      assert x !in t';
    } else {
      assert c[|c| - 1] != self;
    }
    ChainUnique(t', x, seen, c);
  }

  /** Adopting a parent whose chain avoids `self` puts `self` on top of that
      chain: it shares the parent's root and lies on no cycle. */
  lemma AdoptingLeavesCycles(t: Table, self: Key, info: Info)
    requires self in t && info.parent in t && self !in Chain(t, info.parent, {})
    ensures Chain(t[self := info], self, {}) == [self] + Chain(t, info.parent, {})
    ensures Root(t[self := info], self) == Root(t, info.parent)
    ensures !OnCycle(t[self := info], self)
  {
    var p := info.parent;
    ChainAvoids(t, p, self, info, {});
    ChainAvoids(t, p, self, info, {self});
    assert {} + {self} == {self};
    assert Chain(t, p, {}) != [];
  }

  /** A node that roots itself is on no cycle. */
  lemma RootLeavesCycles(t: Table, self: Key, info: Info)
    requires info.parent == self
    ensures !OnCycle(t[self := info], self) && Root(t[self := info], self) == self
  {
    RootPath(t[self := info], self);
  }

  /** The least key of a cycle sees a worse root than itself through its
      current parent, and that parent leads back to it. */
  lemma LeastSeesWorseRoot(t: Table, self: Key)
    requires LeastOnCycle(t, self)
    ensures Root(t, self) > self && self in Chain(t, t[self].parent, {})
  {
    var c := Chain(t, self, {});
    var p := t[self].parent;
    ChainIsChain(t, self, {});
    assert p in t && {} + {self} == {self};
    assert c == [self] + Chain(t, p, {self});
    assert Chain(t, p, {self}) != [];
    assert c[|c| - 1] in c;
    assert c[|c| - 1] != c[0];
  }

  // ------------------------------------------------------- the choices on offer

  function Hops(t: Table, key: Key): (n: nat)
  {
    var c := Chain(t, key, {});
    if c == [] then 0 else |c| - 1
  }

  function ParentOf(t: Table, self: Key): (p: Key) { if self in t then t[self].parent else 0 }

  /** The cheapest link's cost times the hop count, in uint64 arithmetic. */
  ghost predicate IsPathCost(links: set<Link>, hops: nat, cost: Link -> nat, c: nat)
  {
    && c <= MAX64
    && (forall l :: l in links ==> c <= Mul64(hops, cost(l)))
    && (c == MAX64 || exists l :: l in links && c == Mul64(hops, cost(l)))
  }

  /** The starting point: the current parent if it is a peer leading to a root
      below ourselves, otherwise ourselves. */
  ghost predicate IsInitial(t: Table, self: Key, peers: map<Key, set<Link>>, cost: Link -> nat, init: Choice)
  {
    var current := ParentOf(t, self);
    if current in peers && Root(t, self) < self
    then && init.root == Root(t, self) && init.parent == current
         && IsPathCost(peers[current], Hops(t, self), cost, init.cost)
    else init == Choice(self, self, MAX64)
  }

  /** A peer that answered our request, whose place in the tree we know and
      whose ancestry does not run through us. */
  ghost predicate Eligible(t: Table, self: Key, responses: map<Key, SigRes>, pk: Key)
  {
    pk in responses && pk in t && self !in Chain(t, pk, {})
  }

  ghost predicate IsOffer(t: Table, self: Key, peers: map<Key, set<Link>>, responses: map<Key, SigRes>,
                          cost: Link -> nat, c: Choice)
  {
    && Eligible(t, self, responses, c.parent) && c.parent in peers
    && c.root == Root(t, c.parent)
    && IsPathCost(peers[c.parent], Hops(t, c.parent), cost, c.cost)
  }

  function Parents(cs: seq<Choice>): (ks: set<Key>) { set c | c in cs :: c.parent }

  /** `cs` lists an offer for every eligible peer among `done`, and nothing else. */
  ghost predicate IsOrder(t: Table, self: Key, peers: map<Key, set<Link>>, responses: map<Key, SigRes>,
                          cost: Link -> nat, done: set<Key>, cs: seq<Choice>)
  {
    && (forall c :: c in cs ==> IsOffer(t, self, peers, responses, cost, c))
    && (forall pk :: pk in Parents(cs) <==> pk in done && Eligible(t, self, responses, pk))
  }

  lemma OrderSkips(t: Table, self: Key, peers: map<Key, set<Link>>, responses: map<Key, SigRes>, cost: Link -> nat,
                   done: set<Key>, cs: seq<Choice>, pk: Key)
    requires IsOrder(t, self, peers, responses, cost, done, cs) && !Eligible(t, self, responses, pk)
    ensures IsOrder(t, self, peers, responses, cost, done + {pk}, cs)
  {
  }

  lemma OrderGrows(t: Table, self: Key, peers: map<Key, set<Link>>, responses: map<Key, SigRes>, cost: Link -> nat,
                   done: set<Key>, cs: seq<Choice>, c: Choice)
    requires IsOrder(t, self, peers, responses, cost, done, cs) && IsOffer(t, self, peers, responses, cost, c)
    ensures IsOrder(t, self, peers, responses, cost, done + {c.parent}, cs + [c])
  {
    assert Parents(cs + [c]) == Parents(cs) + {c.parent};
  }

  /** What `_fix` elects: the least root on offer, held by a legitimate choice. */
  lemma ElectionResult(t: Table, self: Key, peers: map<Key, set<Link>>, responses: map<Key, SigRes>,
                       cost: Link -> nat, refresh: bool, init: Choice, cs: seq<Choice>)
    requires IsInitial(t, self, peers, cost, init)
    requires IsOrder(t, self, peers, responses, cost, responses.Keys, cs)
    ensures var best := ConsiderAll(refresh, ParentOf(t, self), init, cs);
            && best.root <= self
            && (ParentOf(t, self) in peers ==> best.root <= Root(t, self))
            && (forall pk :: Eligible(t, self, responses, pk) ==> best.root <= Root(t, pk))
            && (|| (best.parent == self && best.root == self)
                || (best.parent == ParentOf(t, self) && best.parent in peers && best.root == Root(t, self) < self)
                || (Eligible(t, self, responses, best.parent) && best.root == Root(t, best.parent)))
  {
    var best := ConsiderAll(refresh, ParentOf(t, self), init, cs);
    ElectsLeastRoot(refresh, ParentOf(t, self), init, cs);
    forall pk | Eligible(t, self, responses, pk) ensures best.root <= Root(t, pk) {
      assert pk in Parents(cs);
      var c :| c in cs && c.parent == pk;
      assert IsOffer(t, self, peers, responses, cost, c);
    }
    if best in cs { assert IsOffer(t, self, peers, responses, cost, best); }
  }

  /** A new parent always leads to a root strictly below us. */
  lemma NewParentIsBelow(t: Table, self: Key, peers: map<Key, set<Link>>, responses: map<Key, SigRes>,
                         cost: Link -> nat, refresh: bool, init: Choice, cs: seq<Choice>)
    requires IsInitial(t, self, peers, cost, init)
    requires IsOrder(t, self, peers, responses, cost, responses.Keys, cs)
    requires var best := ConsiderAll(refresh, ParentOf(t, self), init, cs);
             best.parent != ParentOf(t, self) && best.parent != self
    ensures var best := ConsiderAll(refresh, ParentOf(t, self), init, cs);
            Eligible(t, self, responses, best.parent) && best.root == Root(t, best.parent) < self
  {
    var best := ConsiderAll(refresh, ParentOf(t, self), init, cs);
    ElectionResult(t, self, peers, responses, cost, refresh, init, cs);
    RootIsOnChain(t, best.parent);
  }

  lemma RootIsOnChain(t: Table, k: Key)
    requires k in t
    ensures Root(t, k) in Chain(t, k, {})
  {
    assert Chain(t, k, {}) != [];
  }

  /** The least member of a cycle never re-elects the parent that keeps it there. */
  lemma LeastMemberTurnsAway(t: Table, self: Key, peers: map<Key, set<Link>>, responses: map<Key, SigRes>,
                             cost: Link -> nat, refresh: bool, init: Choice, cs: seq<Choice>)
    requires LeastOnCycle(t, self)
    requires IsInitial(t, self, peers, cost, init)
    requires IsOrder(t, self, peers, responses, cost, responses.Keys, cs)
    ensures ConsiderAll(refresh, ParentOf(t, self), init, cs).parent != ParentOf(t, self)
  {
    LeastSeesWorseRoot(t, self);
    ElectionResult(t, self, peers, responses, cost, refresh, init, cs);
  }

  // ------------------------------------------------------ wanting no other parent

  /** A node whose election confirms its parent is its own root, or follows a
      peer to a root below itself; no eligible peer leads lower. */
  lemma ConfirmedParent(t: Table, self: Key, peers: map<Key, set<Link>>, responses: map<Key, SigRes>,
                        cost: Link -> nat, refresh: bool, init: Choice, cs: seq<Choice>)
    requires self in t && responses.Keys <= peers.Keys
    requires IsInitial(t, self, peers, cost, init)
    requires IsOrder(t, self, peers, responses, cost, responses.Keys, cs)
    requires ConsiderAll(refresh, t[self].parent, init, cs).parent == t[self].parent
    ensures Root(t, self) <= self && (t[self].parent == self || (t[self].parent in peers && Root(t, self) < self))
    ensures forall pk :: Eligible(t, self, responses, pk) ==> Root(t, self) <= Root(t, pk)
  {
    var p := t[self].parent;
    ElectionResult(t, self, peers, responses, cost, refresh, init, cs);
    if p == self {
      RootPath(t, self);
      RootIsOnChain(t, p);
    } else if Eligible(t, self, responses, p) {
      assert t[self := t[self]] == t;
      AdoptingLeavesCycles(t, self, t[self]);
      RootIsOnChain(t, p);
    }
  }

  /** A node under the least root on offer, through a peer or as that root, keeps its parent. */
  lemma LeastRootIsKept(t: Table, self: Key, peers: map<Key, set<Link>>, responses: map<Key, SigRes>, cost: Link -> nat,
                        init: Choice, cs: seq<Choice>)
    requires self in t
    requires IsInitial(t, self, peers, cost, init)
    requires IsOrder(t, self, peers, responses, cost, responses.Keys, cs)
    requires t[self].parent == self || (t[self].parent in peers && Root(t, self) < self)
    requires forall pk :: pk in peers && Eligible(t, self, responses, pk) ==> Root(t, self) <= Root(t, pk)
    ensures ConsiderAll(false, t[self].parent, init, cs).parent == t[self].parent
  {
    if t[self].parent == self { RootPath(t, self); }
    forall c | c in cs ensures init.root <= c.root {
      assert IsOffer(t, self, peers, responses, cost, c);
    }
    KeepsGoodParent(t[self].parent, init, cs);
  }
}
