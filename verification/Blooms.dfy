/** Bloom filters along tree links (ironwood/network/bloomfilter.go).  A filter
    is the set of its one bits; a key occupies a fixed set of bit positions. */
module BloomSpec {
  import opened Keys
  import opened Tables

  type Filter = set<nat>

  datatype BloomInfo = BloomInfo(send: Filter, recv: Filter, seqno: nat, onTree: bool, zDirty: bool)

  type Blooms = map<Key, BloomInfo>

  const RESEND: nat := 3600

  /** A link is on the tree when either end is the other's parent. */
  predicate IsOnTree(t: Table, self: Key, pk: Key)
  {
    (self in t && t[self].parent == pk) || (pk in t && t[pk].parent == self)
  }

  /** `_fixOnTree`: leaving the tree blanks what we advertise on that link. */
  function Refit(b: BloomInfo, on: bool): (r: BloomInfo)
  {
    b.(onTree := on, send := if b.onTree && !on then {} else b.send)
  }

  /** Our own bits and everything heard on the other tree links. */
  function Fresh(own: Filter, bs: Blooms, key: Key): (f: Filter)
  {
    own + set k, x | k in bs && bs[k].onTree && k != key && x in bs[k].recv :: x
  }

  /** `_getBloomFor`: the filter to advertise to `key`. */
  function Advertised(own: Filter, bs: Blooms, key: Key, keepOnes: bool): (f: Filter)
    requires key in bs
  {
    if keepOnes then Fresh(own, bs, key) + bs[key].send else Fresh(own, bs, key)
  }

  /** A round of `_sendAllBlooms` for the tree link to `key`: is a filter sent? */
  predicate Sends(own: Filter, bs: Blooms, key: Key)
    requires key in bs
  {
    Advertised(own, bs, key, !bs[key].zDirty) != bs[key].send || bs[key].seqno + 1 >= RESEND
  }

  /** What the round makes of the link.  Spare one bits are kept the first time
      and marked; the mark is lost when the filter does not change. */
  function AfterRound(own: Filter, bs: Blooms, key: Key): (b: BloomInfo)
    requires key in bs
    ensures b.recv == bs[key].recv && b.onTree == bs[key].onTree && b.send == Advertised(own, bs, key, !bs[key].zDirty)
  {
    var b, f := bs[key], Advertised(own, bs, key, !bs[key].zDirty);
    b.(send := f, seqno := if Sends(own, bs, key) then 0 else b.seqno + 1,
       zDirty := if f == b.send then b.zDirty else !b.zDirty && f != Fresh(own, bs, key))
  }

  /** A round leaves exactly the needed bits if and only if the link was marked, or
      had none to spare. */
  lemma SpareBitsClearedExactly(own: Filter, bs: Blooms, key: Key)
    requires key in bs
    ensures AfterRound(own, bs, key).send == Fresh(own, bs, key) <==>
              bs[key].zDirty || bs[key].send <= Fresh(own, bs, key)
  {
  }

  /** A link that already advertises all that is needed, and more, is never marked:
      filter and mark stay as they are, round after round. */
  lemma SpareBitsCanStay(own: Filter, bs: Blooms, key: Key)
    requires key in bs && !bs[key].zDirty && Fresh(own, bs, key) < bs[key].send
    ensures AfterRound(own, bs, key).send == bs[key].send && !AfterRound(own, bs, key).zDirty
    ensures Fresh(own, bs[key := AfterRound(own, bs, key)], key) == Fresh(own, bs, key)
  {
    assert Fresh(own, bs, key) + bs[key].send == bs[key].send;
    var next := bs[key := AfterRound(own, bs, key)];
    forall x ensures x in Fresh(own, next, key) <==> x in Fresh(own, bs, key) {
      if k :| k in bs && bs[k].onTree && k != key && x in bs[k].recv { assert k in next && x in next[k].recv; }
      if k :| k in next && next[k].onTree && k != key && x in next[k].recv { assert k in bs && x in bs[k].recv; }
    }
  }

  /** All of `_fixOnTree`, and the peers sent an empty filter by it. */
  function RefitAll(t: Table, self: Key, bs: Blooms): (r: Blooms)
  {
    map k | k in bs :: Refit(bs[k], IsOnTree(t, self, k))
  }

  function Blanked(t: Table, self: Key, bs: Blooms): (ks: set<Key>)
  {
    set k | k in bs && bs[k].onTree && !IsOnTree(t, self, k)
  }

  /** All of `_sendAllBlooms`, and the filters it sends. */
  function SendRound(own: Filter, bs: Blooms): (r: Blooms)
  {
    map k | k in bs :: if bs[k].onTree then AfterRound(own, bs, k) else bs[k]
  }

  function SentFilters(own: Filter, bs: Blooms): (fs: map<Key, Filter>)
  {
    map k | k in bs && bs[k].onTree && Sends(own, bs, k) :: AfterRound(own, bs, k).send
  }

  /** The filters' `_doMaintenance`: the links after it, the filters sent, and the
      peers sent an empty one. */
  function BloomPass(own: Filter, t: Table, self: Key, bs: Blooms): (r: (Blooms, map<Key, Filter>, set<Key>))
  {
    var refitted := RefitAll(t, self, bs);
    (SendRound(own, refitted), SentFilters(own, refitted), Blanked(t, self, bs))
  }

  /** Links off the tree advertise nothing. */
  predicate BlankOffTree(bs: Blooms) { forall k :: k in bs && !bs[k].onTree ==> bs[k].send == {} }

  /** Maintenance keeps it so: whoever leaves the tree is sent an empty filter, and
      only tree links are sent others. */
  lemma PassBlanksOffTree(own: Filter, t: Table, self: Key, bs: Blooms)
    requires BlankOffTree(bs)
    ensures var (bs', sent, blanked) := BloomPass(own, t, self, bs);
            && BlankOffTree(bs') && bs'.Keys == bs.Keys
            && (forall k :: k in sent ==> k in bs' && bs'[k].onTree && sent[k] == bs'[k].send)
            && (forall k :: k in bs && bs[k].send != {} && !bs'[k].onTree ==> k in blanked)
  {
  }

  /** The link to `key` through `n` rounds; what the other links receive may change. */
  ghost predicate Rounds(own: Filter, key: Key, links: seq<Blooms>)
  {
    forall i :: 0 <= i < |links| ==>
      && key in links[i]
      && (i + 1 < |links| ==> key in links[i + 1] && links[i + 1][key] == AfterRound(own, links[i], key))
  }

  /** At least once in `RESEND` rounds the filter is sent, changed or not. */
  lemma {:induction false} ResentInTime(own: Filter, key: Key, links: seq<Blooms>)
    requires Rounds(own, key, links) && links != []
    requires forall i :: 0 <= i < |links| ==> !Sends(own, links[i], key)
    ensures links[|links| - 1][key].seqno == links[0][key].seqno + |links| - 1 && |links| < RESEND
  {
    var n := |links| - 1;
    assert !Sends(own, links[n], key);
    if n > 0 {
      var k := n - 1;
      assert forall i :: 0 <= i < n ==> links[..n][i] == links[i];
      ResentInTime(own, key, links[..n]);
      assert key in links[k] && links[k + 1][key] == AfterRound(own, links[k], key);
      assert !Sends(own, links[k], key);
    }
  }

  /** The tree neighbours that a lookup is passed on to. */
  function MulticastTo(bs: Blooms, bits: Filter, fromKey: Key): (ks: set<Key>)
  {
    set k | k in bs && bs[k].onTree && k != fromKey && bits <= bs[k].recv
  }
}
