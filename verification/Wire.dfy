/** Wire primitives (ironwood/network/wire.go): varints, fixed-size slices and
    zero-terminated paths. */
module Wire {
  import opened Basics
  import opened Keys

  type Bytes = seq<Byte>

  // -------------------------------------------------------------------- varints

  /** `wireAppendUint`, on its own: seven bits a byte, least significant first. */
  function EncodeUint(u: nat): (b: Bytes)
    ensures b != []
  {
    if u < 128 then [u] else [u % 128 + 128] + EncodeUint(u / 128)
  }

  /** `wireSizeUint` */
  function SizeUint(u: nat): (n: nat)
    ensures n == |EncodeUint(u)|
  {
    if u < 128 then 1 else 1 + SizeUint(u / 128)
  }

  /** What Go's `binary.Uvarint` reads from the i-th byte on: at most ten bytes,
      the tenth at most 1. */
  function UintFrom(data: Bytes, i: nat): (r: Option<(nat, Bytes)>)
    ensures r.Some? ==> |r.value.1| < |data|
  {
    if data == [] || i >= 10 then None
    else if data[0] < 128 then
      if i == 9 && data[0] > 1 then None else Some((data[0], data[1..]))
    else
      var (hi, rest) :- UintFrom(data[1..], i + 1);
      Some((data[0] - 128 + 128 * hi, rest))
  }

  /** `wireChopUint` */
  function ChopUint(data: Bytes): (r: Option<(nat, Bytes)>)
    ensures r.Some? ==> |r.value.1| < |data|
  {
    UintFrom(data, 0)
  }

  /** Values that fit from the i-th byte on. */
  function Cap(i: nat): (c: nat)
    requires i <= 9
    decreases 9 - i
  {
    if i == 9 then 2 else 128 * Cap(i + 1)
  }

  lemma CapIsU64()
    ensures Cap(0) == U64
  {
    assert Cap(8) == 256 && Cap(7) == 128 * 256 && Cap(6) == 128 * 128 * 256;
    assert Cap(5) == 128 * Cap(6) && Cap(4) == 128 * Cap(5) && Cap(3) == 128 * Cap(4);
    assert Cap(2) == 128 * Cap(3) && Cap(1) == 128 * Cap(2);
  }

  lemma ContinuedByte(b: Byte, tail: Bytes, i: nat, hi: nat, rest: Bytes)
    requires b >= 128 && i < 10 && UintFrom(tail, i + 1) == Some((hi, rest))
    ensures UintFrom([b] + tail, i) == Some((b - 128 + 128 * hi, rest))
  {
    assert ([b] + tail)[1..] == tail;
  }

  lemma FinalByte(b: Byte, rest: Bytes, i: nat)
    requires b < 128 && i < 10 && (i == 9 ==> b < 2)
    ensures UintFrom([b] + rest, i) == Some((b, rest))
  {
    assert ([b] + rest)[1..] == rest;
  }

  lemma EncodeSplits(u: nat, rest: Bytes)
    requires u >= 128
    ensures EncodeUint(u) + rest == [u % 128 + 128] + (EncodeUint(u / 128) + rest)
  {
  }

  lemma CapStep(u: nat, i: nat)
    requires i <= 9 && 128 <= u < Cap(i)
    ensures i < 9 && u / 128 < Cap(i + 1)
  {
  }

  lemma {:induction false} UintFromEncode(u: nat, i: nat, rest: Bytes)
    requires i <= 9 && u < Cap(i)
    ensures UintFrom(EncodeUint(u) + rest, i) == Some((u, rest))
    decreases u
  {
    if u < 128 {
      FinalByte(u, rest, i);
    } else {
      var hi, lo := u / 128, u % 128;
      CapStep(u, i);
      UintFromEncode(hi, i + 1, rest);
      ContinuedByte(lo + 128, EncodeUint(hi) + rest, i, hi, rest);
      EncodeSplits(u, rest);
    }
  }

  /** Decoding undoes encoding before any suffix, so varints are prefix-free. */
  lemma UintRoundTrip(u: nat, rest: Bytes)
    requires u < U64
    ensures ChopUint(EncodeUint(u) + rest) == Some((u, rest))
  {
    CapIsU64();
    UintFromEncode(u, 0, rest);
  }

  lemma {:induction false} UintFromFits(data: Bytes, i: nat)
    requires i <= 9 && UintFrom(data, i).Some?
    ensures UintFrom(data, i).value.0 < Cap(i)
  {
    if data[0] >= 128 {
      if i < 9 {
        UintFromFits(data[1..], i + 1);
      }
    } else if i < 9 {
      CapAtLeast(i);
    }
  }

  lemma {:induction false} CapAtLeast(i: nat)
    requires i < 9
    ensures Cap(i) >= 256
    decreases 9 - i
  {
    if i < 8 { CapAtLeast(i + 1); }
  }

  /** Whatever is decoded fits in 64 bits. */
  lemma ChopUintFits(data: Bytes)
    requires ChopUint(data).Some?
    ensures ChopUint(data).value.0 < U64
  {
    CapIsU64();
    UintFromFits(data, 0);
  }

  /** Every byte but the last says that more follow. */
  predicate IsVarint(b: Bytes)
  {
    b != [] && b[|b| - 1] < 128 && forall i :: 0 <= i < |b| - 1 ==> b[i] >= 128
  }

  /** The number that the low seven bits of the bytes spell, least significant first. */
  function Spelled(b: Bytes): (u: nat)
  {
    if b == [] then 0 else b[0] % 128 + 128 * Spelled(b[1..])
  }

  /** The encoding spells the number, without a superfluous byte. */
  lemma {:induction false} EncodeUintSpells(u: nat)
    ensures var b := EncodeUint(u); IsVarint(b) && Spelled(b) == u && (|b| > 1 ==> b[|b| - 1] != 0)
  {
    if u >= 128 {
      EncodeUintSpells(u / 128);
      var b, hi := EncodeUint(u), EncodeUint(u / 128);
      assert b[1..] == hi && b[|b| - 1] == hi[|hi| - 1];
      assert forall i :: 0 < i < |b| ==> b[i] == hi[i - 1];
    }
  }

  lemma {:induction false} UintFromExactly(data: Bytes, i: nat, n: nat)
    requires i < 10 && n <= |data| && IsVarint(data[..n])
    ensures UintFrom(data, i) == if i + n < 10 || (i + n == 10 && data[n - 1] < 2)
                                 then Some((Spelled(data[..n]), data[n..])) else None
  {
    var b, rest := data[..n], data[1..];
    assert b[n - 1] == data[n - 1];
    if n > 1 {
      assert data[0] == b[0] >= 128;
      assert rest[..n - 1] == b[1..] && rest[n - 1..] == data[n..];
      assert forall j :: 0 <= j < n - 1 ==> b[1..][j] == b[j + 1];
      if i < 9 { UintFromExactly(rest, i + 1, n - 1); }
    }
  }

  /** What is decoded is exactly what the bytes spell, up to the first that ends a
      number, shortest encoding or not, if it is within ten bytes and 64 bits. */
  lemma ChopUintExactly(data: Bytes, n: nat)
    requires n <= |data| && IsVarint(data[..n])
    ensures ChopUint(data) == if n < 10 || (n == 10 && data[n - 1] < 2)
                              then Some((Spelled(data[..n]), data[n..])) else None
  {
    UintFromExactly(data, 0, n);
  }

  /** Nothing is decoded from bytes that never end a number. */
  lemma {:induction false} EndlessIsNone(data: Bytes, i: nat)
    requires forall j :: 0 <= j < |data| ==> data[j] >= 128
    ensures UintFrom(data, i).None?
  {
    if data != [] { EndlessIsNone(data[1..], i + 1); }
  }

  /** What the loop still owes: the value read so far plus the scaled rest. */
  function Pending(data: Bytes, i: nat, x: nat, scale: nat): (r: Option<(nat, Bytes)>)
    requires i <= |data|
  {
    var (hi, rest) :- UintFrom(data[i..], i);
    Some((x + scale * hi, rest))
  }

  function Scaled(digit: nat, scale: nat): (x: nat) { digit * scale }

  lemma PendingStep(data: Bytes, i: nat, x: nat, scale: nat)
    requires i < |data| && i < 10 && data[i] >= 128
    ensures Pending(data, i, x, scale) == Pending(data, i + 1, x + Scaled(data[i] - 128, scale), scale * 128)
  {
    assert data[i..][1..] == data[i + 1..];
    var r := UintFrom(data[i + 1..], i + 1);
    if r.Some? {
      var hi := r.value.0;
      assert scale * (data[i] - 128 + 128 * hi) == (data[i] - 128) * scale + scale * 128 * hi;
    }
  }

  lemma PendingLast(data: Bytes, i: nat, x: nat, scale: nat)
    requires i < |data| && i < 10 && data[i] < 128
    ensures Pending(data, i, x, scale) == if i == 9 && data[i] > 1 then None
            else Some((x + Scaled(data[i], scale), data[i + 1..]))
  {
    assert data[i..][0] == data[i] && data[i..][1..] == data[i + 1..];
    assert scale * data[i] == data[i] * scale;
  }

  lemma PendingNone(data: Bytes, i: nat, x: nat, scale: nat)
    requires i <= |data| && (i == |data| || i == 10)
    ensures Pending(data, i, x, scale) == None
  {
  }

  lemma PendingFirst(data: Bytes)
    ensures Pending(data, 0, 0, 1) == ChopUint(data)
  {
    assert data[0..] == data;
  }

  /** The loop of `binary.Uvarint` behind `wireChopUint`. */
  method ChopUintLoop(data: Bytes) returns (r: Option<(nat, Bytes)>)
    ensures r == ChopUint(data)
  {
    var i: nat, x: nat, scale: nat := 0, 0, 1;
    PendingFirst(data);
    while i < |data|
      invariant 0 <= i <= |data| && i <= 10
      invariant ChopUint(data) == Pending(data, i, x, scale)
    {
      if i == 10 {
        PendingNone(data, i, x, scale);
        return None;
      }
      var b: nat := data[i];
      if b < 128 {
        PendingLast(data, i, x, scale);
        if i == 9 && b > 1 {
          return None;
        }
        return Some((x + Scaled(b, scale), data[i + 1..]));
      }
      PendingStep(data, i, x, scale);
      x := x + Scaled(b - 128, scale);
      scale := scale * 128;
      i := i + 1;
    }
    PendingNone(data, i, x, scale);
    r := None;
  }

  // --------------------------------------------------------------------- slices

  /** `wireChopSlice` */
  function ChopSlice(n: nat, data: Bytes): (r: Option<(Bytes, Bytes)>)
    ensures r.Some? ==> |r.value.0| == n && data == r.value.0 + r.value.1
  {
    if |data| < n then None else Some((data[..n], data[n..]))
  }

  lemma SliceRoundTrip(s: Bytes, rest: Bytes)
    ensures ChopSlice(|s|, s + rest) == Some((s, rest))
  {
    assert (s + rest)[..|s|] == s && (s + rest)[|s|..] == rest;
  }

  // ---------------------------------------------------------------------- paths

  type Path = seq<nat>

  /** Ports fit in 64 bits. */
  predicate Fits(p: Path) { forall i :: 0 <= i < |p| ==> p[i] < U64 }

  predicate ZeroFree(p: Path) { forall i :: 0 <= i < |p| ==> p[i] != 0 }

  function EncodePath(p: Path): (b: Bytes)
  {
    if p == [] then EncodeUint(0) else EncodeUint(p[0]) + EncodePath(p[1..])
  }

  function SizePath(p: Path): (n: nat)
    ensures n == |EncodePath(p)|
  {
    if p == [] then SizeUint(0) else SizeUint(p[0]) + SizePath(p[1..])
  }

  /** `wireChopPath` */
  function ChopPath(data: Bytes): (r: Option<(Path, Bytes)>)
    ensures r.Some? ==> |r.value.1| < |data|
    decreases |data|
  {
    var (u, rest) :- ChopUint(data);
    if u == 0 then Some(([], rest))
    else
      var (p, end) :- ChopPath(rest);
      Some(([u] + p, end))
  }

  /** The part of a path before its first zero. */
  function BeforeZero(p: Path): (q: Path)
  {
    if p == [] || p[0] == 0 then [] else [p[0]] + BeforeZero(p[1..])
  }

  lemma {:induction false} PathDecodes(p: Path, rest: Bytes)
    requires Fits(p)
    ensures ChopPath(EncodePath(p) + rest).Some?
    ensures ChopPath(EncodePath(p) + rest).value.0 == BeforeZero(p)
    ensures ZeroFree(p) ==> ChopPath(EncodePath(p) + rest).value.1 == rest
  {
    if p == [] {
      UintRoundTrip(0, rest);
    } else {
      assert EncodePath(p) + rest == EncodeUint(p[0]) + (EncodePath(p[1..]) + rest);
      UintRoundTrip(p[0], EncodePath(p[1..]) + rest);
      PathDecodes(p[1..], rest);
    }
  }

  lemma {:induction false} BeforeZeroWhole(p: Path)
    ensures BeforeZero(p) == p <==> ZeroFree(p)
  {
    if p != [] {
      BeforeZeroWhole(p[1..]);
      assert ZeroFree(p) <==> p[0] != 0 && ZeroFree(p[1..]);
      assert p == [p[0]] + p[1..];
    }
  }

  /** A path survives the wire exactly when no port in it is zero. */
  lemma PathRoundTrip(p: Path, rest: Bytes)
    requires Fits(p)
    ensures ChopPath(EncodePath(p) + rest) == Some((p, rest)) <==> ZeroFree(p)
  {
    PathDecodes(p, rest);
    BeforeZeroWhole(p);
  }

  /** The loop of `wireAppendPath`. */
  method AppendPathLoop(dest: Bytes, p: Path) returns (b: Bytes)
    ensures b == dest + EncodePath(p)
  {
    b := dest;
    var i := 0;
    while i < |p|
      invariant 0 <= i <= |p|
      invariant b + EncodePath(p[i..]) == dest + EncodePath(p)
    {
      assert p[i..][1..] == p[i + 1..];
      assert b + EncodePath(p[i..]) == (b + EncodeUint(p[i])) + EncodePath(p[i + 1..]);
      b := b + EncodeUint(p[i]);
      i := i + 1;
    }
    assert p[i..] == [];
    b := b + EncodeUint(0);
  }

  /** The loop of `wireDecodePath`, as `wireChopPath` uses it. */
  method ChopPathLoop(data: Bytes) returns (r: Option<(Path, Bytes)>)
    ensures r == ChopPath(data)
  {
    var path: Path, bs := [], data;
    PrependNothing(ChopPath(data));
    while true
      invariant ChopPath(data) == Prepended(path, ChopPath(bs))
      decreases |bs|
    {
      var c := ChopUint(bs);
      if c.None? {
        return None;
      }
      if c.value.0 == 0 {
        assert path + [] == path;
        return Some((path, c.value.1));
      }
      PrependTwice(path, c.value.0, ChopPath(c.value.1));
      path := path + [c.value.0];
      bs := c.value.1;
    }
  }

  function Prepended(p: Path, r: Option<(Path, Bytes)>): (s: Option<(Path, Bytes)>)
  {
    var (q, rest) :- r;
    Some((p + q, rest))
  }

  lemma PrependNothing(r: Option<(Path, Bytes)>)
    ensures Prepended([], r) == r
  {
    if r.Some? { assert [] + r.value.0 == r.value.0; }
  }

  lemma PrependTwice(p: Path, u: nat, r: Option<(Path, Bytes)>)
    ensures Prepended(p, Prepended([u], r)) == Prepended(p + [u], r)
  {
    if r.Some? { assert p + ([u] + r.value.0) == (p + [u]) + r.value.0; }
  }
}
