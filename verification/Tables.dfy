/** A router's table of tree announcements (ironwood/network/router.go): the
    fixed merge order of `_update` and the parent chains that the three chain
    walkers follow. */
module Tables {
  import opened Keys

  type Port = nat
  type Signature = nat

  /** routerInfo: a node's claim to a parent, with the parent's response. */
  datatype Info = Info(parent: Key, seqno: nat, nonce: nat, port: Port, psig: Signature, sig: Signature)

  /** routerAnnounce: an info together with the key it is about. */
  datatype Ann = Ann(key: Key, info: Info)

  type Table = map<Key, Info>

  // ---------------------------------------------------------------- merge order

  /** `a` strictly outranks `b`: higher sequence number, then lower parent,
      then lower nonce. */
  predicate Better(a: Info, b: Info)
  {
    || a.seqno > b.seqno
    || (a.seqno == b.seqno && a.parent < b.parent)
    || (a.seqno == b.seqno && a.parent == b.parent && a.nonce < b.nonce)
  }

  predicate AtLeast(a: Info, b: Info) { !Better(b, a) }

  /** `a` is `b` or strictly outranks it. */
  predicate Covers(a: Info, b: Info) { a == b || Better(a, b) }

  predicate SameRank(a: Info, b: Info)
  {
    a.seqno == b.seqno && a.parent == b.parent && a.nonce == b.nonce
  }

  /** The announcement would replace what the table holds for its key. */
  predicate Accepts(t: Table, ann: Ann)
  {
    ann.key in t ==> Better(ann.info, t[ann.key])
  }

  function Merge(t: Table, ann: Ann): (t': Table)
  {
    if Accepts(t, ann) then t[ann.key := ann.info] else t
  }

  function MergeAll(t: Table, anns: seq<Ann>): (t': Table)
  {
    if anns == [] then t else Merge(MergeAll(t, anns[..|anns| - 1]), anns[|anns| - 1])
  }

  /** Everything known about key `k`: the table's entry and the announcements. */
  ghost predicate Candidate(t: Table, anns: seq<Ann>, k: Key, i: Info)
  {
    (k in t && t[k] == i) || Ann(k, i) in anns
  }

  /** (seq, parent, nonce) determines the announcement for a key. */
  ghost predicate Coherent(t: Table, anns: seq<Ann>)
  {
    forall k, i, j :: Candidate(t, anns, k, i) && Candidate(t, anns, k, j) && SameRank(i, j) ==> i == j
  }

  /** The merged table holds, for every key, a candidate that no candidate outranks. */
  lemma {:induction false} MergeKeepsMaximum(t: Table, anns: seq<Ann>, k: Key)
    ensures k in MergeAll(t, anns) <==> exists i :: Candidate(t, anns, k, i)
    ensures k in MergeAll(t, anns) ==> Candidate(t, anns, k, MergeAll(t, anns)[k])
    ensures forall i :: Candidate(t, anns, k, i) ==> k in MergeAll(t, anns) && AtLeast(MergeAll(t, anns)[k], i)
  {
    if anns == [] {
      if k in t { assert Candidate(t, anns, k, t[k]); }
    } else {
      var init, last := anns[..|anns| - 1], anns[|anns| - 1];
      MergeKeepsMaximum(t, init, k);
      assert anns == init + [last];
      assert forall i :: Candidate(t, anns, k, i) <==> Candidate(t, init, k, i) || Ann(k, i) == last;
      if last.key == k { assert Candidate(t, anns, k, last.info); }
      if k in MergeAll(t, init) { assert Candidate(t, anns, k, MergeAll(t, init)[k]); }
    }
  }

  /** Spelled out: of all candidates for a key the table ends with one of highest
      sequence number, among those of least parent, among those of least nonce. */
  lemma MergePicksHighest(t: Table, anns: seq<Ann>, k: Key, i: Info)
    requires Candidate(t, anns, k, i)
    ensures k in MergeAll(t, anns) && Candidate(t, anns, k, MergeAll(t, anns)[k])
    ensures var m := MergeAll(t, anns)[k];
            && m.seqno >= i.seqno
            && (m.seqno == i.seqno ==> m.parent <= i.parent)
            && (m.seqno == i.seqno && m.parent == i.parent ==> m.nonce <= i.nonce)
  {
    MergeKeepsMaximum(t, anns, k);
  }

  ghost predicate SameAnns(anns: seq<Ann>, anns': seq<Ann>) { forall a :: a in anns <==> a in anns' }

  /** A candidate that no candidate outranks. */
  ghost predicate Unbeaten(t: Table, anns: seq<Ann>, k: Key, i: Info)
  {
    Candidate(t, anns, k, i) && forall j :: Candidate(t, anns, k, j) ==> AtLeast(i, j)
  }

  /** What the table already holds for `k` is not outranked. */
  ghost predicate Unbeatable(t: Table, anns: seq<Ann>, k: Key) { k in t && Unbeaten(t, anns, k, t[k]) }

  /** For every key the top rank is held by one candidate, or by what the table
      already holds. */
  ghost predicate OneWinner(t: Table, anns: seq<Ann>)
  {
    forall k, i, j :: Unbeaten(t, anns, k, i) && Unbeaten(t, anns, k, j) ==> i == j || Unbeatable(t, anns, k)
  }

  /** An unbeaten entry of the table stays. */
  lemma {:induction false} UnbeatenEntryStays(t: Table, anns: seq<Ann>, k: Key)
    requires k in t && forall i :: Ann(k, i) in anns ==> AtLeast(t[k], i)
    ensures k in MergeAll(t, anns) && MergeAll(t, anns)[k] == t[k]
  {
    if anns != [] {
      var init, last := anns[..|anns| - 1], anns[|anns| - 1];
      assert anns == init + [last];
      assert last == Ann(last.key, last.info);
      UnbeatenEntryStays(t, init, k);
    }
  }

  lemma {:induction false} MergeAllCons(t: Table, a: Ann, anns: seq<Ann>)
    ensures MergeAll(t, [a] + anns) == MergeAll(Merge(t, a), anns)
    decreases |anns|
  {
    if anns == [] {
      assert [a][..0] == [];
      assert [a] + [] == [a];
    } else {
      var init := anns[..|anns| - 1];
      assert ([a] + anns)[..|anns|] == [a] + init;
      MergeAllCons(t, a, init);
    }
  }

  /** An unbeaten announcement that comes first is kept, unless the table holds an unbeaten entry. */
  lemma FirstWins(t: Table, anns: seq<Ann>, k: Key, i: Info)
    requires Unbeaten(t, anns, k, i) && !Unbeatable(t, anns, k)
    ensures SameAnns(anns, [Ann(k, i)] + anns)
    ensures k in MergeAll(t, [Ann(k, i)] + anns) && MergeAll(t, [Ann(k, i)] + anns)[k] == i
  {
    if k in t {
      assert Candidate(t, anns, k, t[k]);
      assert Better(i, t[k]);
    }
    MergeAllCons(t, Ann(k, i), anns);
    forall j | Ann(k, j) in anns ensures AtLeast(i, j) {
      assert Candidate(t, anns, k, j);
    }
    UnbeatenEntryStays(Merge(t, Ann(k, i)), anns, k);
  }

  lemma MergedIsUnbeaten(t: Table, anns: seq<Ann>, anns': seq<Ann>, k: Key)
    requires SameAnns(anns, anns')
    ensures k in MergeAll(t, anns') <==> exists i :: Candidate(t, anns, k, i)
    ensures k in MergeAll(t, anns') ==> Unbeaten(t, anns, k, MergeAll(t, anns')[k])
  {
    MergeKeepsMaximum(t, anns', k);
    assert forall i :: Candidate(t, anns, k, i) <==> Candidate(t, anns', k, i);
  }

  lemma OneWinnerAgrees(t: Table, anns: seq<Ann>, anns': seq<Ann>)
    requires SameAnns(anns, anns') && OneWinner(t, anns)
    ensures MergeAll(t, anns') == MergeAll(t, anns)
  {
    var m, m' := MergeAll(t, anns), MergeAll(t, anns');
    forall k
      ensures k in m <==> k in m'
      ensures k in m ==> m[k] == m'[k]
    {
      MergedIsUnbeaten(t, anns, anns, k);
      MergedIsUnbeaten(t, anns, anns', k);
      if k in m && m[k] != m'[k] {
        assert forall i :: Ann(k, i) in anns ==> Candidate(t, anns, k, i);
        UnbeatenEntryStays(t, anns, k);
        UnbeatenEntryStays(t, anns', k);
      }
    }
  }

  /** Nodes given the same announcements, in any order and with any duplicates,
      end with the same table if and only if for every key the top rank is held
      by one candidate, or by what the table already holds. */
  lemma MergeConvergesExactly(t: Table, anns: seq<Ann>)
    ensures (forall anns' :: SameAnns(anns, anns') ==> MergeAll(t, anns') == MergeAll(t, anns)) <==> OneWinner(t, anns)
  {
    if OneWinner(t, anns) {
      forall anns' | SameAnns(anns, anns') ensures MergeAll(t, anns') == MergeAll(t, anns) {
        OneWinnerAgrees(t, anns, anns');
      }
    }
    if forall anns' :: SameAnns(anns, anns') ==> MergeAll(t, anns') == MergeAll(t, anns) {
      forall k, i, j | Unbeaten(t, anns, k, i) && Unbeaten(t, anns, k, j)
        ensures i == j || Unbeatable(t, anns, k)
      {
        if !Unbeatable(t, anns, k) {
          FirstWins(t, anns, k, i);
          FirstWins(t, anns, k, j);
        }
      }
    }
  }

  /** In particular when (seq, parent, nonce) determines the announcement. */
  lemma MergeConverges(t: Table, anns: seq<Ann>, anns': seq<Ann>)
    requires SameAnns(anns, anns') && Coherent(t, anns)
    ensures MergeAll(t, anns) == MergeAll(t, anns')
  {
    forall k, i, j | Unbeaten(t, anns, k, i) && Unbeaten(t, anns, k, j) ensures i == j {
      assert SameRank(i, j);
    }
    OneWinnerAgrees(t, anns, anns');
  }

  /** Otherwise the order matters: two announcements that differ
      only in their port are both kept by whoever saw them first. */
  lemma PortConflictDiverges()
    ensures var a := Ann(5, Info(1, 7, 3, 10, 0, 0));
            var b := Ann(5, Info(1, 7, 3, 11, 0, 0));
            MergeAll(map[], [a, b]) != MergeAll(map[], [b, a])
  {
    var a := Ann(5, Info(1, 7, 3, 10, 0, 0));
    var b := Ann(5, Info(1, 7, 3, 11, 0, 0));
    assert [a, b][..1] == [a] && [b, a][..1] == [b];
    assert [a][..0] == [] && [b][..0] == [];
    assert MergeAll(map[], [a]) == map[5 := a.info];
    assert MergeAll(map[], [b]) == map[5 := b.info];
    assert MergeAll(map[], [a, b])[5] == a.info;
    assert MergeAll(map[], [b, a])[5] == b.info;
  }

  // ---------------------------------------------------------------- parent chains

  /** The keys met from `key` upwards, until a key is unknown or already seen. */
  function Chain(t: Table, key: Key, seen: set<Key>): (c: seq<Key>)
    decreases |t.Keys - seen|
  {
    if key in seen || key !in t then []
    else
      assert t.Keys - (seen + {key}) < t.Keys - seen by {
        assert key in t.Keys - seen;
      }
      ProperSubsetIsSmaller(t.Keys - (seen + {key}), t.Keys - seen);
      [key] + Chain(t, t[key].parent, seen + {key})
  }

  lemma ProperSubsetIsSmaller<T>(a: set<T>, b: set<T>)
    requires a < b
    ensures |a| < |b|
  {
    SubsetIsNotLarger(a, b);
    var x :| x in b && x !in a;
    SubsetIsNotLarger(a, b - {x});
  }

  lemma {:induction false} SubsetIsNotLarger<T>(a: set<T>, b: set<T>)
    requires a <= b
    ensures |a| <= |b|
    decreases a
  {
    if a != {} {
      var x :| x in a;
      SubsetIsNotLarger(a - {x}, b - {x});
    }
  }

  function Elements<T>(s: seq<T>): (r: set<T>) { set x | x in s }

  ghost predicate NoRepeats<T>(s: seq<T>)
  {
    forall i, j :: 0 <= i < j < |s| ==> s[i] != s[j]
  }

  /** `c` follows parent links in `t`. */
  ghost predicate Follows(t: Table, c: seq<Key>)
  {
    && (forall i :: 0 <= i < |c| ==> c[i] in t)
    && (forall i :: 0 < i < |c| ==> c[i] == t[c[i - 1]].parent)
  }

  /** `c` is the longest repeat-free walk upwards from `key` avoiding `seen`. */
  ghost predicate IsChain(t: Table, key: Key, seen: set<Key>, c: seq<Key>)
  {
    && Follows(t, c)
    && NoRepeats(c)
    && (forall x :: x in c ==> x !in seen)
    && (if c == [] then key in seen || key !in t
        else c[0] == key && var up := t[c[|c| - 1]].parent; up !in t || up in seen || up in c)
  }

  lemma {:induction false} ChainIsChain(t: Table, key: Key, seen: set<Key>)
    ensures IsChain(t, key, seen, Chain(t, key, seen))
    decreases |t.Keys - seen|
  {
    if key in seen || key !in t {
    } else {
      ProperSubsetIsSmaller(t.Keys - (seen + {key}), t.Keys - seen);
      var parent := t[key].parent;
      ChainIsChain(t, parent, seen + {key});
      var rest := Chain(t, parent, seen + {key});
      var c := [key] + rest;
      assert forall i :: 0 < i < |c| ==> c[i] == rest[i - 1];
      assert forall x :: x in c <==> x == key || x in rest;
      if rest != [] {
        assert c[|c| - 1] == rest[|rest| - 1];
      }
    }
  }

  /** `IsChain` pins the chain down. */
  lemma {:induction false} ChainUnique(t: Table, key: Key, seen: set<Key>, c: seq<Key>)
    requires IsChain(t, key, seen, c)
    ensures c == Chain(t, key, seen)
    decreases |c|
  {
    if c != [] {
      assert c[0] in c;
      var rest := c[1..];
      assert forall x :: x in c <==> x == key || x in rest;
      assert forall i :: 0 <= i < |rest| ==> rest[i] == c[i + 1];
      if rest != [] { assert rest[|rest| - 1] == c[|c| - 1]; }
      assert c == [key] + rest;
      ChainUnique(t, t[key].parent, seen + {key}, rest);
    }
  }

  /** Every repeat-free walk upwards is a beginning of the chain. */
  lemma {:induction false} WalkIsPrefix(t: Table, key: Key, w: seq<Key>)
    requires Follows(t, w) && NoRepeats(w) && w != [] && w[0] == key
    ensures w <= Chain(t, key, {})
    decreases |w|
  {
    var c, n := Chain(t, key, {}), |w| - 1;
    ChainIsChain(t, key, {});
    if n > 0 {
      var pre := w[..n];
      WalkIsPrefix(t, key, pre);
      assert w[n] == t[w[n - 1]].parent;
      assert c[n - 1] == pre[n - 1];
      assert |c| == n ==> c == pre;
    }
  }

  /** Two tables whose chains from `x` only name entries that the other holds, or
      holds something better for, have the same chain and the same entries on it. */
  lemma {:induction false} MutualDominanceAgrees(t: Table, u: Table, x: Key, seen: set<Key>)
    requires forall k :: k in Chain(t, x, seen) ==> k in t && k in u && Covers(u[k], t[k])
    requires forall k :: k in Chain(u, x, seen) ==> k in t && k in u && Covers(t[k], u[k])
    ensures Chain(t, x, seen) == Chain(u, x, seen)
    ensures forall k :: k in Chain(t, x, seen) ==> t[k] == u[k]
    decreases |t.Keys - seen|
  {
    if x in seen {
    } else if x in t {
      var ct := Chain(t, x, seen);
      assert x == ct[0];
      var cu := Chain(u, x, seen);
      assert x == cu[0];
      assert t[x] == u[x];
      var p := t[x].parent;
      ProperSubsetIsSmaller(t.Keys - (seen + {x}), t.Keys - seen);
      assert forall k :: k in Chain(t, p, seen + {x}) ==> k in ct;
      assert forall k :: k in Chain(u, p, seen + {x}) ==> k in cu;
      MutualDominanceAgrees(t, u, p, seen + {x});
    } else {
      assert x in u ==> x in Chain(u, x, seen);
    }
  }

  /** The chain of a known key on a chain that ends at a self-parent is the rest of that chain. */
  lemma RestIsChain(t: Table, key: Key, i: nat)
    requires Rooted(t, key) && i < |Chain(t, key, {})|
    ensures var k := Chain(t, key, {})[i];
            Chain(t, k, {}) == Chain(t, key, {})[i..] && Rooted(t, k) && Root(t, k) == Root(t, key)
  {
    var c := Chain(t, key, {});
    var rest := c[i..];
    ChainIsChain(t, key, {});
    assert forall j :: 0 <= j < |rest| ==> rest[j] == c[i + j];
    assert rest[|rest| - 1] == c[|c| - 1];
    ChainUnique(t, c[i], {}, rest);
  }

  // ------------------------------------------------- what the walkers compute

  /** The last key of the chain; the zero key when the chain is empty. */
  function Root(t: Table, key: Key): (r: Key)
  {
    LastOf(Chain(t, key, {}))
  }

  function LastOf(c: seq<Key>): (k: Key) { if c == [] then 0 else c[|c| - 1] }

  /** The chain from `key` ends in a node that is its own parent. */
  predicate Rooted(t: Table, key: Key)
  {
    var c := Chain(t, key, {});
    c != [] && c[|c| - 1] in t && t[c[|c| - 1]].parent == c[|c| - 1]
  }

  function Reverse<T>(s: seq<T>): (r: seq<T>)
    ensures |r| == |s|
    ensures forall i :: 0 <= i < |s| ==> r[i] == s[|s| - 1 - i]
  {
    seq(|s|, i requires 0 <= i < |s| => s[|s| - 1 - i])
  }

  function PortOf(t: Table, k: Key): (p: Port) { if k in t then t[k].port else 0 }

  /** Ports along a chain, from the top down, leaving out the topmost key. */
  function PortsDown(t: Table, c: seq<Key>): (p: seq<Port>)
    ensures |p| == if c == [] then 0 else |c| - 1
  {
    if |c| <= 1 then [] else PortsDown(t, c[1..]) + [PortOf(t, c[0])]
  }

  /** Tree coordinates: ports from the root down; empty for a chain that loops
      or dead-ends. */
  function Path(t: Table, key: Key): (p: seq<Port>)
  {
    if Rooted(t, key) then PortsDown(t, Chain(t, key, {})) else []
  }
}
