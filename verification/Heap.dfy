/** Go's container/heap on a sequence ordered by a time stamp: `Fix` and
    `Remove`, with their sifting loops. */
module Heap {

  /** The edge from the parent of `k` to `k` is in order. */
  predicate InOrder<T>(h: seq<T>, time: T -> int, k: nat)
    requires 0 < k < |h|
  {
    time(h[(k - 1) / 2]) <= time(h[k])
  }

  ghost predicate IsHeap<T>(h: seq<T>, time: T -> int)
  {
    forall k :: 0 < k < |h| ==> InOrder(h, time, k)
  }

  /** All edges but those touching `i` are in order, and the children of `i`
      are not before its parent. */
  ghost predicate HeapBut<T>(h: seq<T>, time: T -> int, i: nat)
    requires i < |h|
  {
    && (forall k :: 0 < k < |h| && k != i && (k - 1) / 2 != i ==> InOrder(h, time, k))
    && (i > 0 ==> forall k :: 0 < k < |h| && (k - 1) / 2 == i ==> time(h[(i - 1) / 2]) <= time(h[k]))
  }

  /** Only the edges below `i` may be out of order. */
  ghost predicate SinkingAt<T>(h: seq<T>, time: T -> int, i: nat)
    requires i < |h|
  {
    HeapBut(h, time, i) && (i > 0 ==> InOrder(h, time, i))
  }

  /** Only the edge above `i` may be out of order. */
  ghost predicate RisingAt<T>(h: seq<T>, time: T -> int, i: nat)
    requires i < |h|
  {
    HeapBut(h, time, i) && forall k :: 0 < k < |h| && (k - 1) / 2 == i ==> InOrder(h, time, k)
  }

  function Swap<T>(h: seq<T>, i: nat, j: nat): (r: seq<T>)
    requires i < |h| && j < |h|
    ensures |r| == |h|
  {
    h[i := h[j]][j := h[i]]
  }

  lemma SwapPermutes<T>(h: seq<T>, i: nat, j: nat)
    requires i < |h| && j < |h|
    ensures multiset(Swap(h, i, j)) == multiset(h)
  {
  }

  /** The element at `i` changes places with its earlier child `j`. */
  lemma SinkStep<T>(h: seq<T>, time: T -> int, i: nat, j: nat)
    requires i < |h| && j < |h| && 0 < j && (j - 1) / 2 == i && HeapBut(h, time, i)
    requires time(h[j]) < time(h[i])
    requires forall k :: 0 < k < |h| && (k - 1) / 2 == i ==> time(h[j]) <= time(h[k])
    ensures SinkingAt(Swap(h, i, j), time, j)
  {
    var r := Swap(h, i, j);
    forall k | 0 < k < |r| && k != j && (k - 1) / 2 != j ensures InOrder(r, time, k) {
      if k != i && (k - 1) / 2 != i { assert InOrder(h, time, k); }
    }
    forall k | 0 < k < |r| && (k - 1) / 2 == j ensures time(r[(j - 1) / 2]) <= time(r[k]) {
      assert InOrder(h, time, k);
    }
  }

  lemma RiseStep<T>(h: seq<T>, time: T -> int, j: nat)
    requires 0 < j < |h| && RisingAt(h, time, j) && time(h[j]) < time(h[(j - 1) / 2])
    ensures RisingAt(Swap(h, (j - 1) / 2, j), time, (j - 1) / 2)
  {
    var i := (j - 1) / 2;
    var r := Swap(h, i, j);
    forall k | 0 < k < |r| && k != i ensures InOrder(r, time, k) {
      if k != j && (k - 1) / 2 != i { assert (k - 1) / 2 == j || InOrder(h, time, k); }
      if k != j && (k - 1) / 2 == i { assert InOrder(h, time, k); }
    }
    if i > 0 {
      assert InOrder(h, time, i);
      forall k | 0 < k < |r| && (k - 1) / 2 == i ensures time(r[(i - 1) / 2]) <= time(r[k]) {
        if k != j { assert InOrder(h, time, k); }
      }
    }
  }

  /** `down`: sift the element at `i0` towards the leaves. */
  method Down<T>(h: seq<T>, time: T -> int, i0: nat) returns (r: seq<T>, moved: bool)
    requires i0 < |h| && HeapBut(h, time, i0)
    ensures |r| == |h| && multiset(r) == multiset(h)
    ensures moved ==> IsHeap(r, time)
    ensures !moved ==> r == h && RisingAt(h, time, i0)
  {
    r := h;
    var i := i0;
    while true
      invariant i0 <= i < |r| == |h|
      invariant multiset(r) == multiset(h)
      invariant i == i0 ==> r == h
      invariant i > i0 ==> SinkingAt(r, time, i)
      invariant HeapBut(r, time, i)
      decreases |h| - i
    {
      var j1 := 2 * i + 1;
      if j1 >= |r| {
        break;
      }
      var j := j1;
      var j2 := j1 + 1;
      if j2 < |r| && time(r[j2]) < time(r[j1]) {
        j := j2;
      }
      if !(time(r[j]) < time(r[i])) {
        break;
      }
      SinkStep(r, time, i, j);
      SwapPermutes(r, i, j);
      r := Swap(r, i, j);
      i := j;
    }
    moved := i > i0;
  }

  /** `up`: sift the element at `j0` towards the root. */
  method Up<T>(h: seq<T>, time: T -> int, j0: nat) returns (r: seq<T>)
    requires j0 < |h| && RisingAt(h, time, j0)
    ensures |r| == |h| && multiset(r) == multiset(h) && IsHeap(r, time)
  {
    r := h;
    var j := j0;
    while j > 0 && time(r[j]) < time(r[(j - 1) / 2])
      invariant 0 <= j < |r| == |h|
      invariant multiset(r) == multiset(h)
      invariant RisingAt(r, time, j)
      decreases j
    {
      RiseStep(r, time, j);
      SwapPermutes(r, (j - 1) / 2, j);
      r := Swap(r, (j - 1) / 2, j);
      j := (j - 1) / 2;
    }
  }

  /** `heap.Fix`: the element at `i` has changed. */
  method Fix<T>(h: seq<T>, time: T -> int, i: nat) returns (r: seq<T>)
    requires i < |h| && HeapBut(h, time, i)
    ensures |r| == |h| && multiset(r) == multiset(h) && IsHeap(r, time)
  {
    var moved;
    r, moved := Down(h, time, i);
    if !moved {
      r := Up(r, time, i);
    }
  }

  /** `heap.Remove`: take out the element at `i`, filling the hole with the last one. */
  method Remove<T>(h: seq<T>, time: T -> int, i: nat) returns (r: seq<T>, popped: T)
    requires i < |h| && HeapBut(h, time, i)
    ensures popped == h[i]
    ensures |r| == |h| - 1 && multiset(r) == multiset(h) - multiset{h[i]} && IsHeap(r, time)
  {
    var n := |h| - 1;
    popped := h[i];
    if n != i {
      var s := Swap(h, i, n);
      CutAfterSwap(h, i);
      FilledHole(h, time, i);
      r := Fix(s[..n], time, i);
    } else {
      LastCut(h);
      LastWasOdd(h, time);
      r := h[..n];
    }
  }

  lemma LastCut<T>(s: seq<T>)
    requires s != []
    ensures multiset(s[..|s| - 1]) == multiset(s) - multiset{s[|s| - 1]}
  {
    assert s == s[..|s| - 1] + [s[|s| - 1]];
  }

  lemma CutAfterSwap<T>(h: seq<T>, i: nat)
    requires i < |h|
    ensures multiset(Swap(h, i, |h| - 1)[..|h| - 1]) == multiset(h) - multiset{h[i]}
  {
    SwapPermutes(h, i, |h| - 1);
    LastCut(Swap(h, i, |h| - 1));
  }

  lemma LastWasOdd<T>(h: seq<T>, time: T -> int)
    requires h != [] && HeapBut(h, time, |h| - 1)
    ensures IsHeap(h[..|h| - 1], time)
  {
    var r := h[..|h| - 1];
    forall k | 0 < k < |r| ensures InOrder(r, time, k) {
      assert InOrder(h, time, k);
    }
  }

  lemma FilledHole<T>(h: seq<T>, time: T -> int, i: nat)
    requires i < |h| - 1 && HeapBut(h, time, i)
    ensures HeapBut(Swap(h, i, |h| - 1)[..|h| - 1], time, i)
  {
    var n := |h| - 1;
    var r := Swap(h, i, n)[..n];
    forall k | 0 < k < |r| && k != i && (k - 1) / 2 != i ensures InOrder(r, time, k) {
      assert InOrder(h, time, k);
    }
  }

  /** Changing one element of a heap leaves everything else in order. */
  lemma ChangedElement<T>(h: seq<T>, time: T -> int, i: nat, x: T)
    requires i < |h| && IsHeap(h, time)
    ensures HeapBut(h[i := x], time, i)
  {
    var r := h[i := x];
    forall k | 0 < k < |r| && k != i && (k - 1) / 2 != i ensures InOrder(r, time, k) {
      assert InOrder(h, time, k);
    }
    if i > 0 {
      assert InOrder(h, time, i);
      forall k | 0 < k < |r| && (k - 1) / 2 == i ensures time(r[(i - 1) / 2]) <= time(r[k]) {
        assert InOrder(h, time, k);
      }
    }
  }

  /** Replacing an element by one with the same time keeps the heap. */
  lemma SameTimeKeeps<T>(h: seq<T>, time: T -> int, i: nat, x: T)
    requires i < |h| && IsHeap(h, time) && time(x) == time(h[i])
    ensures IsHeap(h[i := x], time)
  {
    var r := h[i := x];
    forall k | 0 < k < |r| ensures InOrder(r, time, k) {
      assert InOrder(h, time, k);
    }
  }

  /** The root of a heap comes before everything else. */
  lemma {:induction false} RootIsLeast<T>(h: seq<T>, time: T -> int, i: nat)
    requires IsHeap(h, time) && i < |h|
    ensures time(h[0]) <= time(h[i])
  {
    if i > 0 {
      assert InOrder(h, time, i);
      RootIsLeast(h, time, (i - 1) / 2);
    }
  }

  /** Appending something not before anything keeps the heap without sifting. */
  lemma AppendLatest<T>(h: seq<T>, time: T -> int, x: T)
    requires IsHeap(h, time) && forall y :: y in h ==> time(y) <= time(x)
    ensures IsHeap(h + [x], time)
  {
    forall k | 0 < k < |h + [x]| ensures InOrder(h + [x], time, k) {
      if k < |h| { assert InOrder(h, time, k); } else { assert h[(k - 1) / 2] in h; }
    }
  }
}
