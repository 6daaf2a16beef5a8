/** The nested-heap packet queue (ironwood/network/packetqueue.go): a heap of
    destinations, each a heap of sources, each a FIFO, with sizes kept at all
    three levels. */
module PacketQueue {
  import opened Basics
  import opened Keys
  import opened Heap

  datatype Packet = Packet(source: Key, dest: Key, id: nat, size: nat)

  datatype Info = Info(packet: Packet, time: int)

  datatype Source = Source(key: Key, infos: seq<Info>, size: nat)

  datatype Dest = Dest(key: Key, sources: seq<Source>, size: nat)

  function SourceTime(s: Source): (t: int) { if s.infos == [] then 0 else s.infos[0].time }

  function DestTime(d: Dest): (t: int) { if d.sources == [] then 0 else SourceTime(d.sources[0]) }

  // ----------------------------------------------------------------------- sums

  function Sum<T>(s: seq<T>, w: T -> nat): (n: nat)
  {
    if s == [] then 0 else Sum(s[..|s| - 1], w) + w(s[|s| - 1])
  }

  lemma {:induction false} SumConcat<T>(a: seq<T>, b: seq<T>, w: T -> nat)
    ensures Sum(a + b, w) == Sum(a, w) + Sum(b, w)
  {
    if b == [] {
      assert a + b == a;
    } else {
      assert (a + b)[..|a + b| - 1] == a + b[..|b| - 1];
      SumConcat(a, b[..|b| - 1], w);
    }
  }

  lemma SumSplit<T>(s: seq<T>, i: nat, w: T -> nat)
    requires i < |s|
    ensures Sum(s, w) == Sum(s[..i], w) + w(s[i]) + Sum(s[i + 1..], w)
  {
    assert s == (s[..i] + [s[i]]) + s[i + 1..];
    assert (s[..i] + [s[i]])[..i] == s[..i];
    SumConcat(s[..i] + [s[i]], s[i + 1..], w);
  }

  lemma SumUpdate<T>(s: seq<T>, i: nat, x: T, w: T -> nat)
    requires i < |s|
    ensures Sum(s[i := x], w) + w(s[i]) == Sum(s, w) + w(x)
  {
    SumSplit(s, i, w);
    SumSplit(s[i := x], i, w);
    assert s[i := x][..i] == s[..i] && s[i := x][i + 1..] == s[i + 1..];
  }

  lemma SameAfterRemoval<T>(a: multiset<T>, b: multiset<T>, x: multiset<T>)
    requires a + x == b + x
    ensures a == b
  {
    assert a == (a + x) - x && b == (b + x) - x;
  }

  /** Sums do not depend on the order. */
  lemma {:induction false} SumPermutes<T>(a: seq<T>, b: seq<T>, w: T -> nat)
    requires multiset(a) == multiset(b)
    ensures Sum(a, w) == Sum(b, w)
    decreases |a|
  {
    if a == [] {
      assert |multiset(a)| == |a| && |multiset(b)| == |b|;
    } else {
      var x := a[|a| - 1];
      assert x in multiset(b);
      var i :| 0 <= i < |b| && b[i] == x;
      var rest := b[..i] + b[i + 1..];
      assert b == b[..i] + [x] + b[i + 1..];
      assert a == a[..|a| - 1] + [x];
      assert multiset(b) == multiset(rest) + multiset{x};
      assert multiset(a) == multiset(a[..|a| - 1]) + multiset{x};
      SameAfterRemoval(multiset(a[..|a| - 1]), multiset(rest), multiset{x});
      SumPermutes(a[..|a| - 1], rest, w);
      SumSplit(b, i, w);
      SumConcat(b[..i], b[i + 1..], w);
    }
  }

  function InfoSize(i: Info): (n: nat) { i.packet.size }
  function SourceSize(s: Source): (n: nat) { s.size }
  function DestSize(d: Dest): (n: nat) { d.size }

  lemma {:induction false} PositiveSum(s: seq<Info>)
    requires forall i :: i in s ==> i.packet.size > 0
    ensures Sum(s, InfoSize) == 0 <==> s == []
  {
    if s != [] {
      assert s[|s| - 1] in s;
    }
  }

  // ------------------------------------------------------------------ invariants

  ghost predicate InTimeOrder(s: seq<Info>)
  {
    forall i, j :: 0 <= i < j < |s| ==> s[i].time <= s[j].time
  }

  /** A non-empty FIFO of one flow, oldest first, all packets of positive size. */
  ghost predicate ValidSource(s: Source, dest: Key)
  {
    && s.infos != []
    && (forall i :: i in s.infos ==> i.packet.size > 0 && i.packet.source == s.key && i.packet.dest == dest)
    && InTimeOrder(s.infos)
    && s.size == Sum(s.infos, InfoSize)
  }

  ghost predicate UniqueKeys<T>(h: seq<T>, key: T -> Key)
  {
    forall i, j :: 0 <= i < j < |h| ==> key(h[i]) != key(h[j])
  }

  function SourceKey(s: Source): (k: Key) { s.key }

  function DestKey(d: Dest): (k: Key) { d.key }

  ghost predicate UniqueSources(h: seq<Source>) { UniqueKeys(h, SourceKey) }

  ghost predicate UniqueDests(h: seq<Dest>) { UniqueKeys(h, DestKey) }

  /** Everything about a destination except that it is non-empty. */
  ghost predicate GoodDest(d: Dest)
  {
    && (forall s :: s in d.sources ==> ValidSource(s, d.key))
    && UniqueSources(d.sources)
    && IsHeap(d.sources, SourceTime)
    && d.size == Sum(d.sources, SourceSize)
  }

  ghost predicate ValidDest(d: Dest) { GoodDest(d) && d.sources != [] }

  ghost predicate ValidQueue(dests: seq<Dest>, size: nat)
  {
    && (forall d :: d in dests ==> ValidDest(d))
    && UniqueDests(dests)
    && IsHeap(dests, DestTime)
    && size == Sum(dests, DestSize)
  }

  /** The bytes of packets, of a destination's packets, and of everything queued. */
  function Bytes(infos: seq<Info>): (n: nat)
  {
    if infos == [] then 0 else Bytes(infos[..|infos| - 1]) + infos[|infos| - 1].packet.size
  }

  function SourcesBytes(ss: seq<Source>): (n: nat)
  {
    if ss == [] then 0 else SourcesBytes(ss[..|ss| - 1]) + Bytes(ss[|ss| - 1].infos)
  }

  function QueueBytes(ds: seq<Dest>): (n: nat)
  {
    if ds == [] then 0 else QueueBytes(ds[..|ds| - 1]) + SourcesBytes(ds[|ds| - 1].sources)
  }

  lemma {:induction false} SourceCountsBytes(infos: seq<Info>)
    ensures Sum(infos, InfoSize) == Bytes(infos)
  {
    if infos != [] { SourceCountsBytes(infos[..|infos| - 1]); }
  }

  lemma {:induction false} DestCountsBytes(ss: seq<Source>, dest: Key)
    requires forall s :: s in ss ==> ValidSource(s, dest)
    ensures Sum(ss, SourceSize) == SourcesBytes(ss)
  {
    if ss != [] {
      var last := ss[|ss| - 1];
      assert ValidSource(last, dest);
      SourceCountsBytes(last.infos);
      DestCountsBytes(ss[..|ss| - 1], dest);
    }
  }

  lemma {:induction false} DestsCountBytes(ds: seq<Dest>)
    requires forall d :: d in ds ==> ValidDest(d)
    ensures Sum(ds, DestSize) == QueueBytes(ds)
  {
    if ds != [] {
      var last := ds[|ds| - 1];
      assert ValidDest(last);
      DestCountsBytes(last.sources, last.key);
      DestsCountBytes(ds[..|ds| - 1]);
    }
  }

  /** The sizes kept at the three levels are the bytes of the packets below. */
  lemma SizesCountBytes(dests: seq<Dest>, size: nat)
    requires ValidQueue(dests, size)
    ensures size == QueueBytes(dests)
    ensures forall d :: d in dests ==> d.size == SourcesBytes(d.sources)
    ensures forall d, s :: d in dests && s in d.sources ==> s.size == Bytes(s.infos)
  {
    DestsCountBytes(dests);
    forall d | d in dests ensures d.size == SourcesBytes(d.sources) {
      DestCountsBytes(d.sources, d.key);
    }
    forall d, s | d in dests && s in d.sources ensures s.size == Bytes(s.infos) {
      assert ValidSource(s, d.key);
      SourceCountsBytes(s.infos);
    }
  }

  /** A flow: source and destination. */
  type Flow = (Key, Key)

  type FlowMap = map<Flow, seq<Info>>

  ghost predicate HasFlow(dests: seq<Dest>, f: Flow)
  {
    exists d, s :: d in dests && s in d.sources && s.key == f.0 && d.key == f.1
  }

  ghost predicate Shows(m: FlowMap, d: Dest, s: Source)
  {
    (s.key, d.key) in m && m[(s.key, d.key)] == s.infos
  }

  /** The heaps hold exactly the flows of `m`, each with its FIFO. */
  ghost predicate Represents(dests: seq<Dest>, m: FlowMap)
  {
    && (forall d, s :: d in dests && s in d.sources ==> Shows(m, d, s))
    && (forall f :: f in m ==> HasFlow(dests, f))
  }

  /** The heaps determine the flows. */
  lemma RepresentsOne(dests: seq<Dest>, m: FlowMap, n: FlowMap)
    requires Represents(dests, m) && Represents(dests, n)
    ensures m == n
  {
    forall f | f in m ensures f in n && n[f] == m[f] {
      var d, s :| d in dests && s in d.sources && s.key == f.0 && d.key == f.1;
      assert Shows(m, d, s) && Shows(n, d, s);
    }
    forall f | f in n ensures f in m {
      var d, s :| d in dests && s in d.sources && s.key == f.0 && d.key == f.1;
      assert Shows(m, d, s);
    }
  }

  // --------------------------------------------------------- uniqueness and order

  lemma {:induction false} TwiceHasTwoPlaces<T>(s: seq<T>, x: T)
    requires multiset(s)[x] >= 2
    ensures exists i, j :: 0 <= i < j < |s| && s[i] == x && s[j] == x
  {
    var init, last := s[..|s| - 1], s[|s| - 1];
    assert s == init + [last];
    if last == x {
      assert x in multiset(init);
      var i :| 0 <= i < |init| && init[i] == x;
      assert s[i] == x && s[|s| - 1] == x;
    } else {
      TwiceHasTwoPlaces(init, x);
      var i, j :| 0 <= i < j < |init| && init[i] == x && init[j] == x;
      assert s[i] == x && s[j] == x;
    }
  }

  lemma {:induction false} TwoPlacesAreTwice<T>(s: seq<T>, i: nat, j: nat)
    requires i < j < |s| && s[i] == s[j]
    ensures multiset(s)[s[i]] >= 2
  {
    assert s == s[..i + 1] + s[i + 1..];
    assert s[i] == s[..i + 1][i] && s[j] == s[i + 1..][j - i - 1];
    assert s[i] in multiset(s[..i + 1]) && s[i] in multiset(s[i + 1..]);
    assert multiset(s) == multiset(s[..i + 1]) + multiset(s[i + 1..]);
  }

  /** Keys stay unique when elements are permuted or left out. */
  lemma StayUnique<T>(a: seq<T>, b: seq<T>, key: T -> Key)
    requires UniqueKeys(a, key) && multiset(b) <= multiset(a)
    ensures UniqueKeys(b, key)
  {
    forall i, j | 0 <= i < j < |b| ensures key(b[i]) != key(b[j]) {
      assert b[i] in multiset(b) && b[j] in multiset(b);
      assert b[i] in multiset(a) && b[j] in multiset(a);
      if b[i] == b[j] {
        TwoPlacesAreTwice(b, i, j);
        TwiceHasTwoPlaces(a, b[i]);
      }
    }
  }

  lemma SameKeySame<T>(h: seq<T>, x: T, y: T, key: T -> Key)
    requires UniqueKeys(h, key) && x in h && y in h && key(x) == key(y)
    ensures x == y
  {
    var i, j :| 0 <= i < |h| && 0 <= j < |h| && h[i] == x && h[j] == y;
  }

  /** Replacing an element by one of the same key. */
  lemma UpdatedMembers<T>(h: seq<T>, i: nat, x: T, key: T -> Key)
    requires UniqueKeys(h, key) && i < |h| && key(x) == key(h[i])
    ensures UniqueKeys(h[i := x], key)
    ensures forall y :: y in h[i := x] <==> (y in h && key(y) != key(h[i])) || y == x
  {
    var g := h[i := x];
    forall y | y in g ensures (y in h && key(y) != key(h[i])) || y == x {
      var k :| 0 <= k < |g| && g[k] == y;
      if k != i { assert h[k] == y; }
    }
    forall y | y in h && key(y) != key(h[i]) ensures y in g {
      var k :| 0 <= k < |h| && h[k] == y;
      assert g[k] == y;
    }
    assert g[i] == x;
  }

  /** Taking an element out. */
  lemma RemovedMembers<T>(h: seq<T>, i: nat, key: T -> Key)
    requires UniqueKeys(h, key) && i < |h|
    ensures UniqueKeys(h[..i] + h[i + 1..], key)
    ensures forall y :: y in h[..i] + h[i + 1..] <==> y in h && key(y) != key(h[i])
  {
    var g := h[..i] + h[i + 1..];
    assert forall k :: 0 <= k < |g| ==> g[k] == h[if k < i then k else k + 1];
    forall y | y in g ensures y in h && key(y) != key(h[i]) {
      var k :| 0 <= k < |g| && g[k] == y;
      assert y == h[if k < i then k else k + 1];
    }
    forall y | y in h && key(y) != key(h[i]) ensures y in g {
      var k :| 0 <= k < |h| && h[k] == y;
      assert y == g[if k < i then k else k - 1];
    }
  }

  // ------------------------------------------- taking the oldest packet of a source

  /** A source without its oldest packet. */
  function Tail(s: Source): (r: Source)
  {
    Source(s.key, if s.infos == [] then [] else s.infos[1..], if HeadSize(s) <= s.size then s.size - HeadSize(s) else 0)
  }

  function HeadSize(s: Source): (n: nat) { if s.infos == [] then 0 else InfoSize(s.infos[0]) }

  lemma TailIsValid(s: Source, dest: Key)
    requires ValidSource(s, dest)
    ensures HeadSize(s) <= s.size
    ensures Tail(s).size == Sum(Tail(s).infos, InfoSize)
    ensures Tail(s).infos != [] ==> ValidSource(Tail(s), dest)
    ensures Tail(s).infos == [] <==> Tail(s).size == 0
  {
    SumSplit(s.infos, 0, InfoSize);
    var t := s.infos[1..];
    assert forall i :: i in t ==> i in s.infos;
    PositiveSum(t);
  }

  /** `d'` is `d` after source `i` gave up its oldest packet. */
  ghost predicate Took(d: Dest, i: nat, d': Dest)
    requires i < |d.sources|
  {
    var s := d.sources[i];
    && GoodDest(d') && d'.key == d.key
    && d'.size + HeadSize(s) == d.size
    && forall x :: x in d'.sources <==> (x in d.sources && x.key != s.key) || (x == Tail(s) && x.infos != [])
  }

  /** Membership transfers along permutations. */
  lemma SameMembers<T>(a: seq<T>, b: seq<T>)
    requires multiset(a) == multiset(b)
    ensures forall x :: x in a <==> x in b
  {
    assert forall x :: x in a <==> x in multiset(a);
    assert forall x :: x in b <==> x in multiset(b);
  }

  lemma TookByFix(d: Dest, i: nat, h: seq<Source>)
    requires GoodDest(d) && i < |d.sources| && Tail(d.sources[i]).infos != []
    requires multiset(h) == multiset(d.sources[i := Tail(d.sources[i])]) && IsHeap(h, SourceTime)
    ensures HeadSize(d.sources[i]) <= d.size
    ensures Took(d, i, Dest(d.key, h, d.size - HeadSize(d.sources[i])))
  {
    var s := d.sources[i];
    assert s in d.sources;
    var g := d.sources[i := Tail(s)];
    TailIsValid(s, d.key);
    SumUpdate(d.sources, i, Tail(s), SourceSize);
    SumSplit(d.sources, i, SourceSize);
    SumPermutes(h, g, SourceSize);
    StayUnique(g, h, SourceKey);
    UpdatedMembers(d.sources, i, Tail(s), SourceKey);
    SameMembers(h, g);
  }

  lemma TookByRemove(d: Dest, i: nat, h: seq<Source>)
    requires GoodDest(d) && i < |d.sources| && Tail(d.sources[i]).infos == []
    requires multiset(h) == multiset(d.sources[..i] + d.sources[i + 1..]) && IsHeap(h, SourceTime)
    ensures HeadSize(d.sources[i]) <= d.size
    ensures Took(d, i, Dest(d.key, h, d.size - HeadSize(d.sources[i])))
  {
    var s := d.sources[i];
    assert s in d.sources;
    TailIsValid(s, d.key);
    var g := d.sources[..i] + d.sources[i + 1..];
    SumWithout(d.sources, i, SourceSize);
    SumPermutes(h, g, SourceSize);
    RemovedMembers(d.sources, i, SourceKey);
    StayUnique(g, h, SourceKey);
    SameMembers(h, g);
  }

  lemma SumWithout<T>(s: seq<T>, i: nat, w: T -> nat)
    requires i < |s|
    ensures Sum(s, w) == Sum(s[..i] + s[i + 1..], w) + w(s[i])
  {
    SumSplit(s, i, w);
    SumConcat(s[..i], s[i + 1..], w);
  }

  lemma WithoutOne<T>(s: seq<T>, i: nat)
    requires i < |s|
    ensures multiset(s) - multiset{s[i]} == multiset(s[..i] + s[i + 1..])
  {
    assert s == s[..i] + [s[i]] + s[i + 1..];
  }

  lemma RemovedAfterUpdate<T>(h: seq<T>, i: nat, x: T)
    requires i < |h|
    ensures multiset(h[i := x]) - multiset{x} == multiset(h[..i] + h[i + 1..])
  {
    WithoutOne(h, i);
  }

  /** What a destination knows about its i-th source. */
  lemma SourceFacts(d: Dest, i: nat)
    requires GoodDest(d) && i < |d.sources|
    ensures ValidSource(d.sources[i], d.key) && HeadSize(d.sources[i]) <= d.sources[i].size <= d.size
    ensures Tail(d.sources[i]).infos == [] <==> Tail(d.sources[i]).size == 0
  {
    assert d.sources[i] in d.sources;
    TailIsValid(d.sources[i], d.key);
    SumSplit(d.sources, i, SourceSize);
  }

  /** Store the shortened source and restore the heap. */
  method FixSource(d: Dest, i: nat, source: Source) returns (h: seq<Source>)
    requires GoodDest(d) && i < |d.sources| && source == Tail(d.sources[i]) && source.infos != []
    ensures HeadSize(d.sources[i]) <= d.size && Took(d, i, Dest(d.key, h, d.size - HeadSize(d.sources[i])))
  {
    ChangedElement(d.sources, SourceTime, i, source);
    h := Fix(d.sources[i := source], SourceTime, i);
    TookByFix(d, i, h);
  }

  /** Store the exhausted source and take it out of the heap. */
  method RemoveSource(d: Dest, i: nat, source: Source) returns (h: seq<Source>, popped: Source)
    requires GoodDest(d) && i < |d.sources| && Tail(d.sources[i]).infos == []
    ensures popped == source
    ensures HeadSize(d.sources[i]) <= d.size && Took(d, i, Dest(d.key, h, d.size - HeadSize(d.sources[i])))
  {
    ChangedElement(d.sources, SourceTime, i, source);
    h, popped := Remove(d.sources[i := source], SourceTime, i);
    RemovedAfterUpdate(d.sources, i, source);
    TookByRemove(d, i, h);
  }

  /** The part of `pop` that works on the first source of a destination. */
  method PopFromDest(d: Dest) returns (d': Dest)
    requires ValidDest(d)
    ensures Took(d, 0, d')
  {
    SourceFacts(d, 0);
    var source := d.sources[0];
    var info := source.infos[0];
    var dsize := d.size - InfoSize(info);
    if |source.infos| > 1 {
      var h := FixSource(d, 0, Source(source.key, source.infos[1..], source.size - InfoSize(info)));
      d' := Dest(d.key, h, dsize);
    } else {
      var h, popped := RemoveSource(d, 0, Source(source.key, source.infos, source.size - InfoSize(info)));
      d' := Dest(d.key, h, dsize - popped.size);
    }
  }

  /** The part of `drop` that works on the chosen source of a destination. */
  method DropFromDest(d: Dest, sIdx: nat) returns (d': Dest)
    requires ValidDest(d) && sIdx < |d.sources|
    ensures Took(d, sIdx, d')
  {
    SourceFacts(d, sIdx);
    var source := d.sources[sIdx];
    var info := source.infos[0];
    source := Source(source.key, source.infos[1..], source.size - InfoSize(info));
    if source.size > 0 {
      var h := FixSource(d, sIdx, source);
      d' := Dest(d.key, h, d.size - InfoSize(info));
    } else {
      var h, popped := RemoveSource(d, sIdx, source);
      d' := Dest(d.key, h, d.size - popped.size - InfoSize(info));
    }
  }

  // ------------------------------------------------ the same, one level further up

  /** The queue after destination `i` became `d'`, or went when `d'` is empty. */
  ghost predicate Replaced(dests: seq<Dest>, i: nat, d': Dest, dests': seq<Dest>)
    requires i < |dests|
  {
    && UniqueDests(dests') && IsHeap(dests', DestTime)
    && Sum(dests', DestSize) + dests[i].size == Sum(dests, DestSize) + d'.size
    && forall x :: x in dests' <==> (x in dests && x.key != dests[i].key) || (x == d' && x.sources != [])
  }

  method FixDest(dests: seq<Dest>, i: nat, d': Dest) returns (h: seq<Dest>)
    requires UniqueDests(dests) && IsHeap(dests, DestTime) && i < |dests| && d'.key == dests[i].key && d'.sources != []
    ensures Replaced(dests, i, d', h)
  {
    ChangedElement(dests, DestTime, i, d');
    h := Fix(dests[i := d'], DestTime, i);
    UpdatedMembers(dests, i, d', DestKey);
    StayUnique(dests[i := d'], h, DestKey);
    SumUpdate(dests, i, d', DestSize);
    SumPermutes(h, dests[i := d'], DestSize);
    SameMembers(h, dests[i := d']);
  }

  method RemoveDest(dests: seq<Dest>, i: nat, d': Dest) returns (h: seq<Dest>, popped: Dest)
    requires UniqueDests(dests) && IsHeap(dests, DestTime) && i < |dests| && d'.sources == [] && d'.size == 0
    ensures popped == d' && Replaced(dests, i, d', h)
  {
    ChangedElement(dests, DestTime, i, d');
    h, popped := Remove(dests[i := d'], DestTime, i);
    RemovedAfterUpdate(dests, i, d');
    var g := dests[..i] + dests[i + 1..];
    RemovedMembers(dests, i, DestKey);
    StayUnique(g, h, DestKey);
    SumWithout(dests, i, DestSize);
    SumPermutes(h, g, DestSize);
    SameMembers(h, g);
  }

  // -------------------------------------------------------------- flows after a take

  lemma TakeKeepsDests(dests: seq<Dest>, size: nat, i: nat, j: nat, d': Dest, dests': seq<Dest>)
    requires ValidQueue(dests, size) && i < |dests| && j < |dests[i].sources|
    requires Took(dests[i], j, d') && Replaced(dests, i, d', dests')
    ensures HeadSize(dests[i].sources[j]) <= size && ValidQueue(dests', size - HeadSize(dests[i].sources[j]))
  {
    assert dests[i] in dests;
    SourceFacts(dests[i], j);
    SumSplit(dests, i, DestSize);
  }

  /** Flow `f` without its oldest packet; an emptied flow disappears. */
  function Taken(m: FlowMap, f: Flow): (m': FlowMap)
  {
    if f in m && |m[f]| > 1 then m[f := m[f][1..]] else m - {f}
  }

  /** In `dests'` destination `d` became `d'` (or went), because its source `s`
      gave up its oldest packet. */
  ghost predicate TakeStep(dests: seq<Dest>, d: Dest, s: Source, d': Dest, dests': seq<Dest>)
  {
    && d in dests && s in d.sources && s.infos != [] && d'.key == d.key
    && (forall x :: x in d'.sources <==> (x in d.sources && x.key != s.key) || (x == Tail(s) && x.infos != []))
    && (forall x :: x in dests' <==> (x in dests && x.key != d.key) || (x == d' && x.sources != []))
  }

  lemma TakenShows(dests: seq<Dest>, m: FlowMap, d: Dest, s: Source, d': Dest, dests': seq<Dest>, e: Dest, t: Source)
    requires Represents(dests, m) && TakeStep(dests, d, s, d', dests') && e in dests' && t in e.sources
    ensures Shows(Taken(m, (s.key, d.key)), e, t)
  {
    assert Shows(m, d, s);
    if e.key != d.key {
      assert Shows(m, e, t);
    } else if t.key != s.key {
      assert Shows(m, d, t);
    }
  }

  lemma TakenHas(dests: seq<Dest>, m: FlowMap, d: Dest, s: Source, d': Dest, dests': seq<Dest>, f: Flow)
    requires Represents(dests, m) && UniqueDests(dests) && TakeStep(dests, d, s, d', dests') &&
             f in Taken(m, (s.key, d.key))
    ensures HasFlow(dests', f)
  {
    assert Shows(m, d, s);
    assert HasFlow(dests, f);
    var e, t :| e in dests && t in e.sources && t.key == f.0 && e.key == f.1;
    if e.key != d.key {
      assert e in dests';
    } else {
      SameKeySame(dests, e, d, DestKey);
      var t' := if t.key != s.key then t else Tail(s);
      assert t' in d'.sources;
      assert d' in dests';
    }
  }

  lemma TakeChangesOneFlow(dests: seq<Dest>, m: FlowMap, d: Dest, s: Source, d': Dest, dests': seq<Dest>)
    requires Represents(dests, m) && UniqueDests(dests) && TakeStep(dests, d, s, d', dests')
    ensures Represents(dests', Taken(m, (s.key, d.key)))
  {
    forall e, t | e in dests' && t in e.sources ensures Shows(Taken(m, (s.key, d.key)), e, t) {
      TakenShows(dests, m, d, s, d', dests', e, t);
    }
    forall f | f in Taken(m, (s.key, d.key)) ensures HasFlow(dests', f) {
      TakenHas(dests, m, d, s, d', dests', f);
    }
  }

  // --------------------------------------------------------------------- pushing

  /** Nothing in the queue is later than `now`. */
  ghost predicate NotAfter(dests: seq<Dest>, now: int)
  {
    forall d, s, i :: d in dests && s in d.sources && i in s.infos ==> i.time <= now
  }

  function Extended(s: Source, i: Info): (s': Source) { Source(s.key, s.infos + [i], s.size + InfoSize(i)) }

  lemma ExtendedIsValid(s: Source, dest: Key, i: Info)
    requires (s.infos == [] && s.size == 0) || ValidSource(s, dest)
    requires i.packet.size > 0 && i.packet.source == s.key && i.packet.dest == dest
    requires forall x :: x in s.infos ==> x.time <= i.time
    ensures ValidSource(Extended(s, i), dest)
    ensures s.infos != [] ==> SourceTime(Extended(s, i)) == SourceTime(s)
  {
    SumConcat(s.infos, [i], InfoSize);
    assert [i][..0] == [];
    assert forall k :: 0 <= k < |s.infos| ==> s.infos[k] in s.infos;
  }

  /** `d'` is a valid destination with packet `i` at the end of its source's FIFO. */
  ghost predicate Gave(d: Dest, i: Info, d': Dest)
  {
    && ValidDest(d') && d'.key == d.key && d'.size == d.size + InfoSize(i)
    && DestTime(d') == (if d.sources == [] then i.time else DestTime(d))
    && SourceGained(d, i, d')
  }

  /** Other sources are the same, and the one of `i` has it appended. */
  ghost predicate SourceGained(d: Dest, i: Info, d': Dest)
  {
    && (forall x: Source :: x.key != i.packet.source ==> (x in d'.sources <==> x in d.sources))
    && (exists x :: x in d'.sources && x.key == i.packet.source)
    && (forall x, s :: x in d'.sources && s in d.sources && x.key == s.key == i.packet.source ==>
        x.infos == s.infos + [i])
    && (forall x :: x in d'.sources && x.key == i.packet.source && Lacks(d, x.key) ==> x.infos == [i])
  }

  ghost predicate Lacks(d: Dest, key: Key) { forall s :: s in d.sources ==> s.key != key }

  /** Replacing a source by a valid one with the same key and head keeps the heap. */
  lemma ReplacedSource(d: Dest, k: nat, s': Source)
    requires GoodDest(d) && k < |d.sources| && s'.key == d.sources[k].key && ValidSource(s', d.key)
    requires SourceTime(s') == SourceTime(d.sources[k]) && d.sources[k].size <= s'.size
    ensures ValidDest(Dest(d.key, d.sources[k := s'], d.size + (s'.size - d.sources[k].size)))
  {
    var h := d.sources[k := s'];
    UpdatedMembers(d.sources, k, s', SourceKey);
    SumUpdate(d.sources, k, s', SourceSize);
    SameTimeKeeps(d.sources, SourceTime, k, s');
  }

  lemma GaveToOld(d: Dest, k: nat, i: Info)
    requires GoodDest(d) && k < |d.sources| && d.sources[k].key == i.packet.source && i.packet.dest == d.key &&
             i.packet.size > 0
    requires forall s, x :: s in d.sources && x in s.infos ==> x.time <= i.time
    ensures Gave(d, i, Dest(d.key, d.sources[k := Extended(d.sources[k], i)], d.size + InfoSize(i)))
  {
    var s := d.sources[k];
    assert s in d.sources;
    var s' := Extended(s, i);
    ExtendedIsValid(s, d.key, i);
    ReplacedSource(d, k, s');
    GainedByUpdate(d, k, i, s', d.size + InfoSize(i));
  }

  lemma GainedByUpdate(d: Dest, k: nat, i: Info, s': Source, size: nat)
    requires UniqueSources(d.sources) && k < |d.sources| && d.sources[k].key == s'.key == i.packet.source
    requires s'.infos == d.sources[k].infos + [i]
    ensures SourceGained(d, i, Dest(d.key, d.sources[k := s'], size))
  {
    var h := d.sources[k := s'];
    UpdatedMembers(d.sources, k, s', SourceKey);
    assert d.sources[k] in d.sources;
    assert s' in h;
  }

  lemma AppendedSource(d: Dest, s': Source, now: int)
    requires GoodDest(d) && ValidSource(s', d.key) && SourceTime(s') == now
    requires forall s :: s in d.sources ==> s.key != s'.key
    requires forall s, x :: s in d.sources && x in s.infos ==> x.time <= now
    ensures ValidDest(Dest(d.key, d.sources + [s'], d.size + s'.size))
  {
    forall s | s in d.sources ensures SourceTime(s) <= SourceTime(s') {
      assert ValidSource(s, d.key);
      assert s.infos[0] in s.infos;
    }
    AppendLatest(d.sources, SourceTime, s');
    SumConcat(d.sources, [s'], SourceSize);
    assert [s'][..0] == [];
    assert forall k :: 0 <= k < |d.sources| ==> d.sources[k] in d.sources;
  }

  lemma GaveToNew(d: Dest, i: Info)
    requires GoodDest(d) && Lacks(d, i.packet.source) && i.packet.dest == d.key && i.packet.size > 0
    requires forall s, x :: s in d.sources && x in s.infos ==> x.time <= i.time
    ensures Gave(d, i, Dest(d.key, d.sources + [Extended(Source(i.packet.source, [], 0), i)], d.size + InfoSize(i)))
  {
    var s' := Extended(Source(i.packet.source, [], 0), i);
    ExtendedIsValid(Source(i.packet.source, [], 0), d.key, i);
    AppendedSource(d, s', i.time);
    var h := d.sources + [s'];
    assert s' in h;
    assert forall x :: x in h <==> x in d.sources || x == s';
  }

  /** The second loop of `push` and the append or store that follows it. */
  method PushToDest(d: Dest, i: Info) returns (d': Dest)
    requires GoodDest(d) && i.packet.dest == d.key && i.packet.size > 0
    requires forall s, x :: s in d.sources && x in s.infos ==> x.time <= i.time
    ensures Gave(d, i, d')
  {
    var idx := 0;
    while idx < |d.sources| && d.sources[idx].key != i.packet.source
      invariant 0 <= idx <= |d.sources|
      invariant forall k :: 0 <= k < idx ==> d.sources[k].key != i.packet.source
    {
      idx := idx + 1;
    }
    if idx < |d.sources| {
      GaveToOld(d, idx, i);
      d' := Dest(d.key, d.sources[idx := Extended(d.sources[idx], i)], d.size + InfoSize(i));
    } else {
      GaveToNew(d, i);
      d' := Dest(d.key, d.sources + [Extended(Source(i.packet.source, [], 0), i)], d.size + InfoSize(i));
    }
  }

  /** In `dests'` destination `d`, possibly new, became `d'` by gaining packet `i`. */
  ghost predicate GiveStep(dests: seq<Dest>, d: Dest, i: Info, d': Dest, dests': seq<Dest>)
  {
    && d.key == i.packet.dest && d'.key == d.key
    && (d in dests || (d.sources == [] && forall x :: x in dests ==> x.key != d.key))
    && (forall x :: x in dests' <==> (x in dests && x.key != d.key) || x == d')
    && SourceGained(d, i, d')
  }

  /** Packet `i` at the end of its flow. */
  function Given(m: FlowMap, i: Info): (m': FlowMap)
  {
    m[FlowOf(i) := (if FlowOf(i) in m then m[FlowOf(i)] else []) + [i]]
  }

  lemma GivenShows(dests: seq<Dest>, m: FlowMap, d: Dest, i: Info, d': Dest, dests': seq<Dest>, e: Dest, t: Source)
    requires Represents(dests, m) && UniqueDests(dests) && GiveStep(dests, d, i, d', dests') && e in dests' &&
             t in e.sources
    ensures Shows(Given(m, i), e, t)
  {
    if e.key != d.key {
      assert Shows(m, e, t);
    } else if t.key != i.packet.source {
      assert t in d.sources;
      assert Shows(m, d, t);
    } else if s :| s in d.sources && s.key == t.key {
      assert Shows(m, d, s);
    } else {
      assert Lacks(d, t.key);
      NoSuchFlow(dests, m, d, t.key);
    }
  }

  lemma NoSuchFlow(dests: seq<Dest>, m: FlowMap, d: Dest, key: Key)
    requires Represents(dests, m) && UniqueDests(dests) && (d in dests || forall x :: x in dests ==> x.key != d.key)
    requires Lacks(d, key)
    ensures (key, d.key) !in m
  {
    assert (key, d.key) in m ==> HasFlow(dests, (key, d.key));
  }

  lemma GivenHas(dests: seq<Dest>, m: FlowMap, d: Dest, i: Info, d': Dest, dests': seq<Dest>, f: Flow)
    requires Represents(dests, m) && UniqueDests(dests) && GiveStep(dests, d, i, d', dests') && f in Given(m, i)
    ensures HasFlow(dests', f)
  {
    assert d' in dests';
    if f != FlowOf(i) {
      assert HasFlow(dests, f);
      var e, t :| e in dests && t in e.sources && t.key == f.0 && e.key == f.1;
      if e.key != d.key {
        assert e in dests';
      } else {
        assert e == d;
        assert t in d'.sources;
      }
    }
  }

  lemma GiveChangesOneFlow(dests: seq<Dest>, m: FlowMap, d: Dest, i: Info, d': Dest, dests': seq<Dest>)
    requires Represents(dests, m) && UniqueDests(dests) && GiveStep(dests, d, i, d', dests')
    ensures Represents(dests', Given(m, i))
  {
    forall e, t | e in dests' && t in e.sources ensures Shows(Given(m, i), e, t) {
      GivenShows(dests, m, d, i, d', dests', e, t);
    }
    forall f | f in Given(m, i) ensures HasFlow(dests', f) {
      GivenHas(dests, m, d, i, d', dests', f);
    }
  }

  lemma StoreIsValid(dests: seq<Dest>, size: nat, k: nat, i: Info, d': Dest)
    requires ValidQueue(dests, size) && k < |dests| && Gave(dests[k], i, d')
    ensures ValidQueue(dests[k := d'], size + InfoSize(i))
    ensures forall x :: x in dests[k := d'] <==> (x in dests && x.key != dests[k].key) || x == d'
  {
    StoredMembers(dests, k, d');
    assert dests[k] in dests && dests[k].sources != [];
    SumUpdate(dests, k, d', DestSize);
    SameTimeKeeps(dests, DestTime, k, d');
  }

  lemma StoredMembers(dests: seq<Dest>, k: nat, d': Dest)
    requires UniqueDests(dests) && k < |dests| && d'.key == dests[k].key
    ensures UniqueDests(dests[k := d'])
    ensures forall x :: x in dests[k := d'] <==> (x in dests && x.key != dests[k].key) || x == d'
  {
    UpdatedMembers(dests, k, d', DestKey);
  }

  lemma AppendIsValid(dests: seq<Dest>, size: nat, i: Info, d': Dest)
    requires ValidQueue(dests, size) && NotAfter(dests, i.time) && Gave(Dest(i.packet.dest, [], 0), i, d')
    requires forall x :: x in dests ==> x.key != i.packet.dest
    ensures ValidQueue(dests + [d'], size + InfoSize(i))
    ensures forall x :: x in dests + [d'] <==> x in dests || x == d'
  {
    forall d | d in dests ensures DestTime(d) <= DestTime(d') {
      assert d.sources[0] in d.sources;
      assert d.sources[0].infos[0] in d.sources[0].infos;
    }
    AppendLatest(dests, DestTime, d');
    SumConcat(dests, [d'], DestSize);
    assert [d'][..0] == [];
    assert forall k :: 0 <= k < |dests| ==> dests[k] in dests;
  }

  /** `push` on the destinations: first loop, then the append or store. */
  method PushToQueue(dests: seq<Dest>, size: nat, i: Info, ghost m: FlowMap) returns (dests': seq<Dest>)
    requires ValidQueue(dests, size) && Represents(dests, m) && i.packet.size > 0 && NotAfter(dests, i.time)
    ensures ValidQueue(dests', size + InfoSize(i)) && Represents(dests', Given(m, i))
  {
    var idx := 0;
    while idx < |dests| && dests[idx].key != i.packet.dest
      invariant 0 <= idx <= |dests|
      invariant forall k :: 0 <= k < idx ==> dests[k].key != i.packet.dest
    {
      idx := idx + 1;
    }
    if idx < |dests| {
      assert dests[idx] in dests;
      var d' := PushToDest(dests[idx], i);
      dests' := dests[idx := d'];
      StoreIsValid(dests, size, idx, i, d');
      GiveChangesOneFlow(dests, m, dests[idx], i, d', dests');
    } else {
      var d := Dest(i.packet.dest, [], 0);
      var d' := PushToDest(d, i);
      dests' := dests + [d'];
      AppendIsValid(dests, size, i, d');
      GiveChangesOneFlow(dests, m, d, i, d', dests');
    }
  }

  /** `pop` on the destinations. */
  method PopFromQueue(dests: seq<Dest>, size: nat, ghost m: FlowMap) returns (dests': seq<Dest>, size': nat, info: Info)
    requires ValidQueue(dests, size) && Represents(dests, m) && dests != []
    ensures size' + InfoSize(info) == size && ValidQueue(dests', size') && Represents(dests', Taken(m, FlowOf(info)))
    ensures Oldest(m, info) && IsHead(m, info)
  {
    HeadIsOldest(dests, size, m);
    var dest := dests[0];
    assert dest in dests;
    info := dest.sources[0].infos[0];
    var dest' := PopFromDest(dest);
    if |dest'.sources| > 0 {
      dests' := FixDest(dests, 0, dest');
    } else {
      var popped;
      dests', popped := RemoveDest(dests, 0, dest');
    }
    TookFromQueue(dests, size, m, 0, 0, dest', dests');
    size' := size - InfoSize(info);
  }

  /** `drop` on the destinations. */
  method DropFromQueue(dests: seq<Dest>, size: nat, ghost m: FlowMap)
    returns (dests': seq<Dest>, size': nat, info: Info)
    requires ValidQueue(dests, size) && Represents(dests, m) && dests != []
    ensures size' + InfoSize(info) == size && ValidQueue(dests', size') && Represents(dests', Taken(m, FlowOf(info)))
    ensures InLargest(dests, info) && IsHead(m, info)
  {
    var dIdx := LargestDest(dests);
    var dest := dests[dIdx];
    assert dest in dests;
    var sIdx := LargestSource(dest.sources);
    HeadsItsFlow(dests, size, m, dIdx, sIdx);
    info := dest.sources[sIdx].infos[0];
    assert LargestAt(dests, dIdx, sIdx, info);
    var dest' := DropFromDest(dest, sIdx);
    dests' := PutBack(dests, dIdx, dest');
    TookFromQueue(dests, size, m, dIdx, sIdx, dest', dests');
    size' := size - InfoSize(info);
  }

  /** The last test of `drop`, on the destination's size. */
  method PutBack(dests: seq<Dest>, i: nat, d': Dest) returns (dests': seq<Dest>)
    requires UniqueDests(dests) && IsHeap(dests, DestTime) && i < |dests| && d'.key == dests[i].key && GoodDest(d')
    ensures Replaced(dests, i, d', dests')
  {
    NoSizeNoSources(d');
    if d'.size > 0 {
      dests' := FixDest(dests, i, d');
    } else {
      var popped;
      dests', popped := RemoveDest(dests, i, d');
    }
  }

  lemma HeadsItsFlow(dests: seq<Dest>, size: nat, m: FlowMap, i: nat, j: nat)
    requires ValidQueue(dests, size) && Represents(dests, m) && i < |dests| && j < |dests[i].sources|
    ensures var s := dests[i].sources[j];
            s.infos != [] && FlowOf(s.infos[0]) == (s.key, dests[i].key) && IsHead(m, s.infos[0])
  {
    var d := dests[i];
    var s := d.sources[j];
    assert d in dests && s in d.sources;
    assert ValidSource(s, d.key);
    assert s.infos[0] in s.infos;
    assert Shows(m, d, s);
  }

  // ------------------------------------------------------------------- the queue

  class Queue {
    var dests: seq<Dest>
    var size: nat
    ghost var flows: FlowMap  // the abstract queue: one FIFO per (source, destination)

    ghost predicate Valid()
      reads this
    {
      ValidQueue(dests, size) && Represents(dests, flows)
    }

    constructor ()
      ensures Valid() && flows == map[] && size == 0
    {
      dests, size, flows := [], 0, map[];
    }

    /** `push`: the packet joins the end of its flow. */
    method Push(packet: Packet, now: int)
      requires Valid() && packet.size > 0 && NotAfter(dests, now)
      modifies this
      ensures Valid() && NotAfter(dests, now)
      ensures flows == Given(old(flows), Info(packet, now))
      ensures size == old(size) + packet.size
    {
      GivenNotAfter(dests, flows, Info(packet, now), now);
      dests := PushToQueue(dests, size, Info(packet, now), flows);
      flows := Given(flows, Info(packet, now));
      size := size + packet.size;
      FlowsNotAfter(dests, flows, now);
    }

    /** `pop`: the oldest packet of the whole queue leaves its flow. */
    method Pop() returns (r: Option<Info>)
      requires Valid()
      modifies this
      ensures Valid()
      ensures r.None? <==> old(flows) == map[]
      ensures r.None? ==> flows == old(flows) && size == old(size)
      ensures r.Some? ==> Oldest(old(flows), r.value) && IsHead(old(flows), r.value)
      ensures r.Some? ==> flows == Taken(old(flows), FlowOf(r.value)) && size + InfoSize(r.value) == old(size)
      ensures forall t :: NotAfter(old(dests), t) ==> NotAfter(dests, t)
    {
      EmptyIffNoSize(dests, size, flows);
      r := None;
      if size > 0 {
        var h, n, info := PopFromQueue(dests, size, flows);
        forall t | NotAfter(dests, t) ensures NotAfter(h, t) {
          TakenNotAfter(dests, flows, h, FlowOf(info), t);
        }
        dests, size, r := h, n, Some(info);
        flows := Taken(flows, FlowOf(info));
      }
    }

    /** `peek`: what `pop` would return. */
    method Peek() returns (r: Option<Info>)
      requires Valid()
      ensures r.None? <==> flows == map[]
      ensures r.Some? ==> Oldest(flows, r.value) && IsHead(flows, r.value)
    {
      EmptyIffNoSize(dests, size, flows);
      if |dests| > 0 {
        HeadIsOldest(dests, size, flows);
        r := Some(dests[0].sources[0].infos[0]);
      } else {
        r := None;
      }
    }

    /** `drop`: the oldest packet of a largest source of a largest destination goes. */
    method Drop() returns (ok: bool, ghost gone: Info)
      requires Valid()
      modifies this
      ensures Valid()
      ensures ok <==> old(flows) != map[]
      ensures !ok ==> flows == old(flows) && size == old(size)
      ensures ok ==> InLargest(old(dests), gone) && IsHead(old(flows), gone)
      ensures ok ==> flows == Taken(old(flows), FlowOf(gone)) && size + InfoSize(gone) == old(size)
      ensures forall t :: NotAfter(old(dests), t) ==> NotAfter(dests, t)
    {
      EmptyIffNoSize(dests, size, flows);
      ok, gone := false, Info(Packet(0, 0, 0, 0), 0);
      if size > 0 {
        var h, n, info := DropFromQueue(dests, size, flows);
        forall t | NotAfter(dests, t) ensures NotAfter(h, t) {
          TakenNotAfter(dests, flows, h, FlowOf(info), t);
        }
        dests, size, ok, gone := h, n, true, info;
        flows := Taken(flows, FlowOf(info));
      }
    }
  }

  ghost predicate AllNotAfter(m: FlowMap, now: int)
  {
    forall f, i :: f in m && i in m[f] ==> i.time <= now
  }

  lemma GivenNotAfter(dests: seq<Dest>, m: FlowMap, i: Info, now: int)
    requires Represents(dests, m) && NotAfter(dests, now) && i.time <= now
    ensures AllNotAfter(Given(m, i), now)
  {
    forall f, x | f in m && x in m[f] ensures x.time <= now {
      var d, s :| d in dests && s in d.sources && s.key == f.0 && d.key == f.1;
      assert Shows(m, d, s);
    }
  }

  /** Taking a packet makes nothing later. */
  lemma TakenNotAfter(dests: seq<Dest>, m: FlowMap, dests': seq<Dest>, f: Flow, now: int)
    requires Represents(dests, m) && Represents(dests', Taken(m, f)) && NotAfter(dests, now)
    ensures NotAfter(dests', now)
  {
    var m' := Taken(m, f);
    forall d, s, i | d in dests' && s in d.sources && i in s.infos ensures i.time <= now {
      assert Shows(m', d, s);
      var g := (s.key, d.key);
      assert i in m[g];
      assert HasFlow(dests, g);
      var e, t :| e in dests && t in e.sources && t.key == g.0 && e.key == g.1;
      assert Shows(m, e, t);
    }
  }

  lemma FlowsNotAfter(dests: seq<Dest>, m: FlowMap, now: int)
    requires Represents(dests, m) && AllNotAfter(m, now)
    ensures NotAfter(dests, now)
  {
    forall d, s, i | d in dests && s in d.sources && i in s.infos ensures i.time <= now {
      assert Shows(m, d, s);
    }
  }

  lemma NoSizeNoSources(d: Dest)
    requires GoodDest(d)
    ensures d.size == 0 <==> d.sources == []
  {
    if d.sources != [] {
      SourceFacts(d, 0);
      PositiveSum(d.sources[0].infos);
    }
  }

  /** First loop of `drop`: index of a destination of greatest size. */
  method LargestDest(h: seq<Dest>) returns (best: nat)
    requires h != []
    ensures best < |h| && forall k :: 0 <= k < |h| ==> h[k].size <= h[best].size
  {
    best := 0;
    for idx := 0 to |h|
      invariant best < |h|
      invariant forall k :: 0 <= k < idx ==> h[k].size <= h[best].size
    {
      if h[idx].size > h[best].size {
        best := idx;
      }
    }
  }

  /** Second loop of `drop`: index of a source of greatest size. */
  method LargestSource(h: seq<Source>) returns (best: nat)
    requires h != []
    ensures best < |h| && forall k :: 0 <= k < |h| ==> h[k].size <= h[best].size
  {
    best := 0;
    for idx := 0 to |h|
      invariant best < |h|
      invariant forall k :: 0 <= k < idx ==> h[k].size <= h[best].size
    {
      if h[idx].size > h[best].size {
        best := idx;
      }
    }
  }

  /** Source `j` of destination `i` is a largest one of a largest one, headed by `x`. */
  ghost predicate LargestAt(dests: seq<Dest>, i: nat, j: nat, x: Info)
  {
    && i < |dests| && j < |dests[i].sources|
    && dests[i].sources[j].infos != [] && dests[i].sources[j].infos[0] == x
    && (forall k :: 0 <= k < |dests| ==> dests[k].size <= dests[i].size)
    && (forall k :: 0 <= k < |dests[i].sources| ==> dests[i].sources[k].size <= dests[i].sources[j].size)
  }

  /** `x` heads a source of greatest size within a destination of greatest size. */
  ghost predicate InLargest(dests: seq<Dest>, x: Info)
  {
    exists i, j :: LargestAt(dests, i, j, x)
  }

  /** A queue is empty exactly when its size is zero. */
  lemma EmptyIffNoSize(dests: seq<Dest>, size: nat, m: FlowMap)
    requires ValidQueue(dests, size) && Represents(dests, m)
    ensures size == 0 <==> dests == []
    ensures m == map[] <==> dests == []
  {
    if dests != [] {
      var d := dests[0];
      assert d in dests && d.sources[0] in d.sources;
      SourceFacts(d, 0);
      PositiveSum(d.sources[0].infos);
      SumSplit(dests, 0, DestSize);
      assert Shows(m, d, d.sources[0]);
    }
  }

  lemma SourceHeadIsOldest(s: Source, dest: Key, x: Info)
    requires ValidSource(s, dest) && x in s.infos
    ensures SourceTime(s) <= x.time
  {
    var m :| 0 <= m < |s.infos| && s.infos[m] == x;
  }

  lemma DestHeadIsOldest(d: Dest, t: Source, x: Info)
    requires ValidDest(d) && t in d.sources && x in t.infos
    ensures DestTime(d) <= x.time
  {
    var k :| 0 <= k < |d.sources| && d.sources[k] == t;
    RootIsLeast(d.sources, SourceTime, k);
    SourceHeadIsOldest(t, d.key, x);
  }

  lemma QueueHeadIsOldest(dests: seq<Dest>, size: nat, e: Dest, t: Source, x: Info)
    requires ValidQueue(dests, size) && e in dests && t in e.sources && x in t.infos
    ensures DestTime(dests[0]) <= x.time
  {
    var n :| 0 <= n < |dests| && dests[n] == e;
    RootIsLeast(dests, DestTime, n);
    DestHeadIsOldest(e, t, x);
  }

  /** Through both heaps and the FIFO, the packet at the very front is the oldest. */
  lemma HeadIsOldest(dests: seq<Dest>, size: nat, m: FlowMap)
    requires ValidQueue(dests, size) && Represents(dests, m) && dests != []
    ensures dests[0].sources != [] && dests[0].sources[0].infos != []
    ensures var i := dests[0].sources[0].infos[0];
            Oldest(m, i) && IsHead(m, i) && FlowOf(i) == (dests[0].sources[0].key, dests[0].key)
  {
    assert dests[0] in dests;
    HeadsItsFlow(dests, size, m, 0, 0);
    var i := dests[0].sources[0].infos[0];
    forall f, x | f in m && x in m[f] ensures i.time <= x.time {
      var e, t :| e in dests && t in e.sources && t.key == f.0 && e.key == f.1;
      assert Shows(m, e, t);
      QueueHeadIsOldest(dests, size, e, t, x);
    }
  }

  lemma TookFromQueue(dests: seq<Dest>, size: nat, m: FlowMap, i: nat, j: nat, d': Dest, dests': seq<Dest>)
    requires ValidQueue(dests, size) && Represents(dests, m) && i < |dests| && j < |dests[i].sources|
    requires Took(dests[i], j, d') && Replaced(dests, i, d', dests')
    ensures HeadSize(dests[i].sources[j]) <= size
    ensures ValidQueue(dests', size - HeadSize(dests[i].sources[j]))
    ensures Represents(dests', Taken(m, (dests[i].sources[j].key, dests[i].key)))
  {
    TakeKeepsDests(dests, size, i, j, d', dests');
    assert dests[i] in dests && dests[i].sources[j] in dests[i].sources;
    TakeChangesOneFlow(dests, m, dests[i], dests[i].sources[j], d', dests');
  }

  function FlowOf(i: Info): (f: Flow) { (i.packet.source, i.packet.dest) }

  /** `i` is not later than any packet of any flow. */
  ghost predicate Oldest(m: FlowMap, i: Info)
  {
    forall f, x :: f in m && x in m[f] ==> i.time <= x.time
  }

  /** `i` is at the front of its flow. */
  ghost predicate IsHead(m: FlowMap, i: Info)
  {
    FlowOf(i) in m && m[FlowOf(i)] != [] && m[FlowOf(i)][0] == i
  }

  // ------------------------------------------------------------- conservation

  /** All packets of a set of flows. */
  ghost predicate Queued(m: FlowMap, i: Info)
  {
    exists f :: f in m && i in m[f]
  }

  /** `push` adds exactly its packet. */
  lemma GivenConserves(m: FlowMap, i: Info, x: Info)
    ensures Queued(Given(m, i), x) <==> Queued(m, x) || x == i
  {
    var f := FlowOf(i);
    var m' := Given(m, i);
    if Queued(m, x) {
      var g :| g in m && x in m[g];
      assert g in m' && x in m'[g];
    }
    if x == i { assert f in m' && x in m'[f]; }
    if Queued(m', x) {
      var g :| g in m' && x in m'[g];
      if g != f { assert g in m && x in m[g]; } else if x != i { assert f in m && x in m[f]; }
    }
  }

  /** `pop` and `drop` remove exactly the head of one flow and reorder nothing:
      every other flow is untouched and the rest of that flow keeps its order. */
  lemma TakenConserves(m: FlowMap, f: Flow, g: Flow)
    requires f in m && m[f] != [] && forall h :: h in m ==> m[h] != []
    ensures var m' := Taken(m, f);
            && (g != f ==> (g in m' <==> g in m) && (g in m ==> m'[g] == m[g]))
            && (if f in m' then m[f] == [m[f][0]] + m'[f] else m[f] == [m[f][0]])
  {
  }
}
