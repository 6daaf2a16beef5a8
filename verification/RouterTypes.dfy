/** Values that the router handles: links, signing requests and responses, the
    order of delta announcements and the choice among links. */
module RouterTypes {
  import opened Basics
  import opened Keys
  import opened Tables

  /** uint64 arithmetic. */
  function Add64(a: nat, b: nat): (r: nat) { (a + b) % U64 }
  function Mul64(a: nat, b: nat): (r: nat) { (a * b) % U64 }

  /** One connection to a peer node. */
  datatype Link = Link(key: Key, id: nat, prio: nat, order: nat)

  datatype SigReq = SigReq(seqno: nat, nonce: nat)
  datatype SigRes = SigRes(req: SigReq, port: Port, psig: Signature)

  // ------------------------------------------------------ delta announcements

  /** `anc` without what is already in `sent`, each key once, in order. */
  function Unsent(anc: seq<Key>, sent: set<Key>): (r: seq<Key>)
  {
    if anc == [] then []
    else if anc[0] in sent then Unsent(anc[1..], sent)
    else [anc[0]] + Unsent(anc[1..], sent + {anc[0]})
  }

  lemma {:induction false} UnsentElements(anc: seq<Key>, sent: set<Key>, k: Key)
    ensures k in Unsent(anc, sent) <==> k in anc && k !in sent
  {
    if anc != [] {
      assert anc == [anc[0]] + anc[1..];
      UnsentElements(anc[1..], sent, k);
      UnsentElements(anc[1..], sent + {anc[0]}, k);
    }
  }

  lemma {:induction false} UnsentNoRepeats(anc: seq<Key>, sent: set<Key>)
    ensures NoRepeats(Unsent(anc, sent))
  {
    if anc == [] {
    } else if anc[0] in sent {
      UnsentNoRepeats(anc[1..], sent);
    } else {
      UnsentNoRepeats(anc[1..], sent + {anc[0]});
      UnsentElements(anc[1..], sent + {anc[0]}, anc[0]);
    }
  }

  // ------------------------------------------------------------ link selection

  datatype Cand = Cand(link: Link, dist: nat, cost: nat)

  /** The switch in `_lookup`: does `p` replace the best candidate so far? */
  predicate Replaces(p: Cand, best: Cand)
  {
    if p.link.key == best.link.key && p.link.prio < best.link.prio then true
    else if p.link.key == best.link.key && p.link.prio > best.link.prio then false
    else if Mul64(p.cost, p.dist) != Mul64(best.cost, best.dist)
    then Mul64(p.cost, p.dist) < Mul64(best.cost, best.dist)
    else if p.dist != best.dist then p.dist < best.dist
    else if p.cost != best.cost then p.cost < best.cost
    else p.link.order < best.link.order
  }

  /** The best candidate after a scan in the given order. */
  function Pick(cands: seq<Cand>): (best: Option<Cand>)
    ensures best.None? <==> cands == []
    ensures best.Some? ==> best.value in cands
  {
    if cands == [] then None else
    var last := cands[|cands| - 1];
    match Pick(cands[..|cands| - 1])
    case None => Some(last)
    case Some(b) => Some(if Replaces(last, b) then last else b)
  }

  /** Ordering by cost times distance, then distance, then cost, then age. */
  predicate ScoreLess(a: Cand, b: Cand)
  {
    var x, y := Mul64(a.cost, a.dist), Mul64(b.cost, b.dist);
    x < y || (x == y && (a.dist < b.dist || (a.dist == b.dist &&
      (a.cost < b.cost || (a.cost == b.cost && a.link.order < b.link.order)))))
  }

  /** Where the links of each node have one priority, whatever those of other
      nodes have, the winner minimizes cost times remaining distance, with the
      stated tie-breaks. */
  lemma {:induction false} PickMinimizes(cands: seq<Cand>)
    requires cands != []
    requires forall c, d :: c in cands && d in cands && c.link.key == d.link.key ==> c.link.prio == d.link.prio
    ensures forall c :: c in cands ==> !ScoreLess(c, Pick(cands).value)
  {
    var init, last := cands[..|cands| - 1], cands[|cands| - 1];
    assert cands == init + [last];
    if init != [] {
      PickMinimizes(init);
      var b := Pick(init).value;
      assert last in cands && b in cands;
    }
  }

  /** Among links to one node the winner has the lowest priority value. */
  lemma {:induction false} PickPrefersPriority(cands: seq<Cand>)
    requires cands != []
    requires forall c, d :: c in cands && d in cands ==> c.link.key == d.link.key
    ensures forall c :: c in cands ==> Pick(cands).value.link.prio <= c.link.prio
  {
    var init, last := cands[..|cands| - 1], cands[|cands| - 1];
    assert cands == init + [last];
    if init != [] {
      PickPrefersPriority(init);
      assert last in cands && Pick(init).value in cands;
    }
  }

  /** `w` replaces `c`, and not the other way round. */
  predicate Beats(w: Cand, c: Cand) { Replaces(w, c) && !Replaces(c, w) }

  ghost predicate Winner(cands: seq<Cand>, w: Cand)
  {
    w in cands && forall c :: c in cands && c != w ==> Beats(w, c)
  }

  ghost predicate SameCands(p: seq<Cand>, q: seq<Cand>) { multiset(p) == multiset(q) }

  /** Once a winner is met it is kept. */
  lemma {:induction false} WinnerIsPicked(p: seq<Cand>, w: Cand)
    requires w in p && forall c :: c in p && c != w ==> Beats(w, c)
    ensures Pick(p) == Some(w)
  {
    var init, last := p[..|p| - 1], p[|p| - 1];
    assert p == init + [last];
    if w in init {
      WinnerIsPicked(init, w);
    } else if init != [] {
      assert Pick(init).value in init;
    }
  }

  /** What a scan holds after `p` is only replaced by something later. */
  lemma {:induction false} PickOfConcat(p: seq<Cand>, q: seq<Cand>)
    requires p != []
    ensures Pick(p + q) == Pick(p) || Pick(p + q).value in q
    decreases |q|
  {
    if q == [] {
      assert p + q == p;
    } else {
      var init := q[..|q| - 1];
      assert (p + q)[..|p + q| - 1] == p + init;
      assert q == init + [q[|q| - 1]];
      PickOfConcat(p, init);
    }
  }

  /** The candidates in another order. */
  lemma Reordered(cands: seq<Cand>, c: Cand, w: Cand) returns (rest: seq<Cand>)
    requires NoRepeats(cands) && c in cands && w in cands && c != w
    ensures SameCands([c, w] + rest, cands) && SameCands([w] + rest + [c], cands) && c !in rest && w !in rest
  {
    var r1 := Without(cands, c);
    rest := Without(r1, w);
    assert c in rest ==> c in multiset(r1);
    assert multiset([c, w] + rest) == multiset([c]) + multiset([w]) + multiset(rest);
    assert multiset([w] + rest + [c]) == multiset([w]) + multiset(rest) + multiset([c]);
  }

  lemma Without(cands: seq<Cand>, c: Cand) returns (rest: seq<Cand>)
    requires NoRepeats(cands) && c in cands
    ensures NoRepeats(rest) && c !in rest && multiset(cands) == multiset([c]) + multiset(rest)
    ensures forall x :: x in cands && x != c ==> x in rest
  {
    var i :| 0 <= i < |cands| && cands[i] == c;
    rest := cands[..i] + cands[i + 1..];
    assert cands == cands[..i] + [c] + cands[i + 1..];
    forall x | x in cands && x != c ensures x in rest {
      var j :| 0 <= j < |cands| && cands[j] == x;
      if j < i { assert cands[..i][j] == x; } else { assert cands[i + 1..][j - i - 1] == x; }
    }
  }

  /** A candidate picked in every order beats all others. */
  lemma PickedAlwaysBeats(cands: seq<Cand>, w: Cand, c: Cand)
    requires NoRepeats(cands) && c in cands && w in cands && c != w
    requires forall p :: SameCands(p, cands) ==> Pick(p) == Some(w)
    ensures Beats(w, c)
  {
    var rest := Reordered(cands, c, w);
    var early, late := [c, w] + rest, [w] + rest + [c];
    assert late[..|late| - 1] == [w] + rest;
    PickOfConcat([c, w], rest);
    assert [c, w][..1] == [c] && [c][..0] == [];
    assert Pick(early) == Some(w) && Pick(late) == Some(w);
  }

  /** The scan order does not matter if and only if one candidate beats all others. */
  lemma PickOrderFreeExactly(cands: seq<Cand>)
    requires NoRepeats(cands) && cands != []
    ensures (forall p :: SameCands(p, cands) ==> Pick(p) == Pick(cands)) <==> exists w :: Winner(cands, w)
  {
    if w :| Winner(cands, w) {
      forall p | SameCands(p, cands) ensures Pick(p) == Some(w) {
        assert forall x :: x in p <==> x in multiset(p);
        assert forall x :: x in cands <==> x in multiset(cands);
        WinnerIsPicked(p, w);
      }
      assert SameCands(cands, cands);
    }
    if forall p :: SameCands(p, cands) ==> Pick(p) == Pick(cands) {
      var w := Pick(cands).value;
      forall c | c in cands && c != w ensures Beats(w, c) {
        PickedAlwaysBeats(cands, w, c);
      }
      assert Winner(cands, w);
    }
  }

  /** Where the links of each node have one priority, and each link its own age,
      there is such a candidate: the one of least score. */
  lemma EqualPrioritiesHaveWinner(cands: seq<Cand>)
    requires cands != []
    requires forall c, d :: c in cands && d in cands && c.link.key == d.link.key ==> c.link.prio == d.link.prio
    requires forall c, d :: c in cands && d in cands && c.link.order == d.link.order ==> c == d
    ensures Winner(cands, Pick(cands).value)
  {
    PickMinimizes(cands);
  }

  /** Otherwise it does: across nodes, unequal priorities can leave no such
      candidate, and the order in which the peer map is walked decides. */
  lemma PickDependsOnOrder()
    ensures var x1 := Cand(Link(1, 0, 1, 0), 1, 10);
            var x2 := Cand(Link(1, 1, 0, 1), 1, 50);
            var y := Cand(Link(2, 2, 0, 2), 1, 20);
            Pick([y, x1, x2]) != Pick([y, x2, x1])
  {
    var x1 := Cand(Link(1, 0, 1, 0), 1, 10);
    var x2 := Cand(Link(1, 1, 0, 1), 1, 50);
    var y := Cand(Link(2, 2, 0, 2), 1, 20);
    assert [y][..0] == [] && [y, x1][..1] == [y] && [y, x2][..1] == [y];
    assert [y, x1, x2][..2] == [y, x1] && [y, x2, x1][..2] == [y, x2];
    assert Pick([y]) == Some(y);
    assert Pick([y, x1]) == Some(x1);
    assert Pick([y, x2]) == Some(y);
    assert Pick([y, x1, x2]) == Some(x2);
    assert Pick([y, x2, x1]) == Some(x1);
  }
}
