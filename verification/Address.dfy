/** Bits of bytes and byte strings, most significant first. */
module Bits {

  /** `0x80 >> j` */
  function Mask(j: nat): (m: bv8)
    requires j < 8
  {
    if j == 0 then 0x80 else if j == 1 then 0x40 else if j == 2 then 0x20 else if j == 3 then 0x10
    else if j == 4 then 0x08 else if j == 5 then 0x04 else if j == 6 then 0x02 else 0x01
  }

  predicate Bit(b: bv8, j: nat)
    requires j < 8
  {
    b & Mask(j) != 0
  }

  /** A byte is determined by its bits. */
  lemma SameBits(a: bv8, b: bv8)
    requires forall j :: 0 <= j < 8 ==> Bit(a, j) == Bit(b, j)
    ensures a == b
  {
    assert Bit(a, 0) == Bit(b, 0) && Bit(a, 1) == Bit(b, 1) && Bit(a, 2) == Bit(b, 2) && Bit(a, 3) == Bit(b, 3);
    assert Bit(a, 4) == Bit(b, 4) && Bit(a, 5) == Bit(b, 5) && Bit(a, 6) == Bit(b, 6) && Bit(a, 7) == Bit(b, 7);
  }

  lemma NotFlips(b: bv8, j: nat)
    requires j < 8
    ensures Bit(!b, j) == !Bit(b, j)
  {
  }

  lemma SetBitSets(b: bv8, j: nat, k: nat)
    requires j < 8 && k < 8
    ensures Bit(b | Mask(j), k) == (k == j || Bit(b, k))
  {
  }

  /** `(b << 1) | x` in a byte. */
  function ShiftIn(b: bv8, x: bool): (r: bv8) { (b << 1) | if x then 1 else 0 }

  lemma ShiftMoves(b: bv8, x: bool, j: nat)
    requires j < 8
    ensures Bit(ShiftIn(b, x), j) == if j < 7 then Bit(b, j + 1) else x
  {
  }

  // ------------------------------------------------------------- byte strings

  /** The i-th bit of a byte string. */
  predicate BitAt(s: seq<bv8>, i: nat)
    requires i < 8 * |s|
  {
    Bit(s[i / 8], i % 8)
  }

  function SetAt(s: seq<bv8>, i: nat): (r: seq<bv8>)
    requires i < 8 * |s|
    ensures |r| == |s|
  {
    s[i / 8 := s[i / 8] | Mask(i % 8)]
  }

  lemma SetAtSets(s: seq<bv8>, i: nat, j: nat)
    requires i < 8 * |s| && j < 8 * |s|
    ensures BitAt(SetAt(s, i), j) == (j == i || BitAt(s, j))
  {
    if i / 8 == j / 8 { SetBitSets(s[i / 8], i % 8, j % 8); }
  }

  lemma SameBitsAt(s: seq<bv8>, t: seq<bv8>)
    requires |s| == |t| && forall i :: 0 <= i < 8 * |s| ==> BitAt(s, i) == BitAt(t, i)
    ensures s == t
  {
    forall k | 0 <= k < |s| ensures s[k] == t[k] {
      forall j | 0 <= j < 8 ensures Bit(s[k], j) == Bit(t[k], j) {
        var i := 8 * k + j;
        assert BitAt(s, i) == BitAt(t, i);
      }
      SameBits(s[k], t[k]);
    }
  }

  function PackByte(b0: bool, b1: bool, b2: bool, b3: bool, b4: bool, b5: bool, b6: bool, b7: bool): (b: bv8)
    ensures Bit(b, 0) == b0 && Bit(b, 1) == b1 && Bit(b, 2) == b2 && Bit(b, 3) == b3
    ensures Bit(b, 4) == b4 && Bit(b, 5) == b5 && Bit(b, 6) == b6 && Bit(b, 7) == b7
  {
    (if b0 then 0x80 else 0) | (if b1 then 0x40 else 0) | (if b2 then 0x20 else 0) | (if b3 then 0x10 else 0) |
    (if b4 then 0x08 else 0) | (if b5 then 0x04 else 0) | (if b6 then 0x02 else 0) | (if b7 then 0x01 else 0)
  }

  /** The byte string of length `n` whose i-th bit is `f(i)`. */
  function Pack(n: nat, f: nat -> bool): (s: seq<bv8>)
    ensures |s| == n
  {
    seq(n, i requires 0 <= i < n =>
      PackByte(f(8 * i), f(8 * i + 1), f(8 * i + 2), f(8 * i + 3), f(8 * i + 4), f(8 * i + 5), f(8 * i + 6),
               f(8 * i + 7)))
  }

  lemma PackBits(n: nat, f: nat -> bool, i: nat)
    requires i < 8 * n
    ensures BitAt(Pack(n, f), i) == f(i)
  {
    var k, j := i / 8, i % 8;
    assert i == 8 * k + j;
    var b := Pack(n, f)[k];
    assert b == PackByte(f(8 * k), f(8 * k + 1), f(8 * k + 2), f(8 * k + 3), f(8 * k + 4), f(8 * k + 5), f(8 * k + 6),
                         f(8 * k + 7));
    PackedBit(b, f, k, j);
  }

  lemma PackedBit(b: bv8, f: nat -> bool, k: nat, j: nat)
    requires j < 8
    requires Bit(b, 0) == f(8 * k) && Bit(b, 1) == f(8 * k + 1) && Bit(b, 2) == f(8 * k + 2) &&
             Bit(b, 3) == f(8 * k + 3)
    requires Bit(b, 4) == f(8 * k + 4) && Bit(b, 5) == f(8 * k + 5) && Bit(b, 6) == f(8 * k + 6) &&
             Bit(b, 7) == f(8 * k + 7)
    ensures Bit(b, j) == f(8 * k + j)
  {
  }

  ghost predicate HasBits(s: seq<bv8>, n: nat, f: nat -> bool)
  {
    |s| == n && forall i :: 0 <= i < 8 * n ==> BitAt(s, i) == f(i)
  }

  /** The byte string of length `n` with the given bits, by its property alone. */
  ghost function WithBits(n: nat, f: nat -> bool): (s: seq<bv8>)
    ensures HasBits(s, n, f)
  {
    PackHasBits(n, f);
    var s :| HasBits(s, n, f);
    s
  }

  lemma PackHasBits(n: nat, f: nat -> bool)
    ensures HasBits(Pack(n, f), n, f)
  {
    forall i | 0 <= i < 8 * n ensures BitAt(Pack(n, f), i) == f(i) {
      PackBits(n, f, i);
    }
  }

  function Zeros(n: nat): (s: seq<bv8>)
    ensures |s| == n && forall i :: 0 <= i < n ==> s[i] == 0
  {
    seq(n, i => 0)
  }

  lemma ZerosAreClear(n: nat, i: nat)
    requires i < 8 * n
    ensures !BitAt(Zeros(n), i)
  {
  }
}

/** Node addresses and subnets derived from keys (src/address/address.go). */
module Address {
  import opened Basics
  import opened Bits

  const KEY_BITS: nat := 256
  const REST: nat := 14  // bytes of a 16-byte address after the prefix and the ones count
  const SUBNET_REST: nat := 6

  /** An address: prefix byte, number of leading ones, and the bits after them. */
  datatype Address = Address(prefix: bv8, ones: nat, rest: seq<bv8>)

  type PublicKey = k: seq<bv8> | |k| == 32 witness Zeros(32)

  /** The i-th bit of the inverted key. */
  predicate Inv(k: PublicKey, i: nat)
    requires i < KEY_BITS
  {
    !BitAt(k, i)
  }

  /** First clear bit of the inverted key at or after `i`. */
  function LeadingOnes(k: PublicKey, i: nat): (o: nat)
    requires i <= KEY_BITS
    ensures i <= o <= KEY_BITS
    ensures forall j :: i <= j < o ==> Inv(k, j)
    ensures o < KEY_BITS ==> !Inv(k, o)
    decreases KEY_BITS - i
  {
    if i < KEY_BITS && Inv(k, i) then LeadingOnes(k, i + 1) else i
  }

  /** How many payload bits follow the first zero in whole bytes. */
  function WholeBits(ones: nat): (n: nat)
    ensures ones < KEY_BITS ==> ones + 1 + n <= KEY_BITS
  {
    if ones < KEY_BITS then 8 * ((KEY_BITS - 1 - ones) / 8) else 0
  }

  predicate PayloadBit(k: PublicKey, j: nat)
  {
    var o := LeadingOnes(k, 0);
    j < WholeBits(o) && Inv(k, o + 1 + j)
  }

  function PayloadBits(k: PublicKey): (f: nat -> bool) { (j: nat) => PayloadBit(k, j) }

  /** What `AddrForKey` computes: the count of leading ones, in a byte, and as
      many of the following bits as make whole bytes and fit. */
  ghost function AddrOf(prefix: bv8, k: PublicKey): (a: Address)
  {
    Address(prefix, LeadingOnes(k, 0) % 256, WithBits(REST, PayloadBits(k)))
  }

  predicate KeyBit(a: Address, i: nat)
  {
    i < a.ones || (a.ones < i && i - a.ones - 1 < 8 * |a.rest| && BitAt(a.rest, i - a.ones - 1))
  }

  function KeyBits(a: Address): (f: nat -> bool) { (i: nat) => !KeyBit(a, i) }

  /** What `GetKey` computes: the inverse of ones, a zero, and the address's bits. */
  ghost function KeyOf(a: Address): (k: PublicKey)
  {
    WithBits(32, KeyBits(a))
  }

  /** `SubnetForKey`: the first eight bytes with the lowest prefix bit set. */
  function SubnetOf(a: Address): (s: Address)
    requires |a.rest| >= SUBNET_REST
  {
    Address(a.prefix | 1, a.ones, a.rest[..SUBNET_REST])
  }

  /** `Subnet.GetKey`: a subnet read as an address padded with zeros. */
  ghost function SubnetKey(s: Address): (k: PublicKey)
    requires |s.rest| == SUBNET_REST
  {
    KeyOf(Address(s.prefix, s.ones, s.rest + Zeros(REST - SUBNET_REST)))
  }

  /** The bloom transform of a key (src/core/core.go). */
  ghost function Transform(prefix: bv8, k: PublicKey): (x: PublicKey)
  {
    SubnetKey(SubnetOf(AddrOf(prefix, k)))
  }

  // ------------------------------------------------------------------ the loops

  /** The whole bytes after the leading ones, cut or padded to length, are the rest of the address. */
  lemma PaddedIsRest(prefix: bv8, k: PublicKey, temp: seq<bv8>, rest: seq<bv8>)
    requires 8 * |temp| == WholeBits(LeadingOnes(k, 0))
    requires forall m :: 0 <= m < 8 * |temp| ==> BitAt(temp, m) == Inv(k, LeadingOnes(k, 0) + 1 + m)
    requires rest == if |temp| >= REST then temp[..REST] else temp + Zeros(REST - |temp|)
    ensures rest == AddrOf(prefix, k).rest
  {
    var whole := AddrOf(prefix, k).rest;
    assert HasBits(whole, REST, PayloadBits(k));
    forall j | 0 <= j < 8 * REST ensures BitAt(rest, j) == BitAt(whole, j) {
      if j < 8 * |temp| {
        assert BitAt(rest, j) == BitAt(temp, j);
      } else {
        ZerosAreClear(REST - |temp|, j - 8 * |temp|);
        assert rest[j / 8] == Zeros(REST - |temp|)[j / 8 - |temp|];
      }
    }
    SameBitsAt(rest, whole);
  }

  /** `AddrForKey`, bit by bit. */
  method AddrForKey(publicKey: seq<bv8>, prefix: bv8) returns (addr: Option<Address>)
    ensures addr == if |publicKey| == 32 then Some(AddrOf(prefix, publicKey)) else None
  {
    if |publicKey| != 32 {
      return None;
    }
    var temp, ones := PayloadBytes(publicKey, LeadingOnes(publicKey, 0));
    var rest := if |temp| >= REST then temp[..REST] else temp + Zeros(REST - |temp|);
    PaddedIsRest(prefix, publicKey, temp, rest);
    addr := Some(Address(prefix, ones, rest));
  }

  /** State of the loop once the first zero, at `o`, has been passed. */
  ghost predicate Collected(k: PublicKey, o: nat, idx: nat, temp: seq<bv8>, bits: bv8, nBits: nat)
  {
    && o < idx <= KEY_BITS && nBits < 8 && idx == o + 1 + 8 * |temp| + nBits
    && (forall m :: 0 <= m < 8 * |temp| ==> BitAt(temp, m) == Inv(k, o + 1 + m))
    && (forall p :: 8 - nBits <= p < 8 ==> Bit(bits, p) == Inv(k, idx - 8 + p))
  }

  /** The inverted key starts with exactly `o` ones. */
  ghost predicate IsOnes(k: PublicKey, o: nat)
  {
    o <= KEY_BITS && (forall j :: 0 <= j < o ==> Inv(k, j)) && (o < KEY_BITS ==> !Inv(k, o))
  }

  /** The loop of `AddrForKey`: count the ones, skip the zero, collect whole bytes. */
  method PayloadBytes(k: PublicKey, ghost o: nat) returns (temp: seq<bv8>, ones: nat)
    requires IsOnes(k, o)
    ensures ones == o % 256
    ensures 8 * |temp| == WholeBits(o)
    ensures forall m :: 0 <= m < 8 * |temp| ==> BitAt(temp, m) == Inv(k, o + 1 + m)
  {
    temp, ones := [], 0;
    var done, bits, nBits: nat := false, 0, 0;
    for idx := 0 to KEY_BITS
      invariant !done ==> idx <= o && ones == idx % 256 && temp == [] && nBits == 0
      invariant done ==> o < KEY_BITS && ones == o % 256 && Collected(k, o, idx, temp, bits, nBits)
    {
      var bit := !BitAt(k, idx);
      assert bit == Inv(k, idx);
      if !done && bit {
        ones := (ones + 1) % 256;
      } else if !done && !bit {
        done := true;
      } else {
        temp, bits, nBits := Collect(k, o, idx, temp, bits, nBits);
      }
    }
    if done { WholeBytesCollected(o, |temp|, nBits); }
  }

  /** The last part of the loop body: shift the bit in, and store a full byte. */
  method Collect(k: PublicKey, ghost o: nat, idx: nat, temp: seq<bv8>, bits: bv8, nBits: nat)
    returns (temp': seq<bv8>, bits': bv8, nBits': nat)
    requires idx < KEY_BITS && Collected(k, o, idx, temp, bits, nBits)
    ensures Collected(k, o, idx + 1, temp', bits', nBits')
  {
    CollectBit(k, o, idx, temp, bits, nBits);
    bits' := ShiftIn(bits, !BitAt(k, idx));
    nBits' := nBits + 1;
    temp' := temp;
    if nBits' == 8 {
      nBits' := 0;
      temp' := temp' + [bits'];
    }
  }

  lemma WholeBytesCollected(o: nat, bytes: nat, left: nat)
    requires o < KEY_BITS && left < 8 && KEY_BITS == o + 1 + 8 * bytes + left
    ensures 8 * bytes == WholeBits(o)
  {
  }

  lemma CollectBit(k: PublicKey, o: nat, idx: nat, temp: seq<bv8>, bits: bv8, nBits: nat)
    requires idx < KEY_BITS && Collected(k, o, idx, temp, bits, nBits)
    ensures var b := ShiftIn(bits, Inv(k, idx));
            if nBits == 7 then Collected(k, o, idx + 1, temp + [b], b, 0)
            else Collected(k, o, idx + 1, temp, b, nBits + 1)
  {
    var b := ShiftIn(bits, Inv(k, idx));
    var n := nBits + 1;
    forall p | 8 - n <= p < 8 ensures Bit(b, p) == Inv(k, idx + 1 - 8 + p) {
      ShiftMoves(bits, Inv(k, idx), p);
      if p < 7 { assert Bit(bits, p + 1) == Inv(k, idx - 8 + (p + 1)); }
    }
    if n == 8 {
      var temp' := temp + [b];
      forall m | 0 <= m < 8 * |temp'| ensures BitAt(temp', m) == Inv(k, o + 1 + m) {
        if m < 8 * |temp| {
          assert BitAt(temp, m) == Inv(k, o + 1 + m);
        } else {
          var p := m - 8 * |temp|;
          assert Bit(b, p) == Inv(k, idx + 1 - 8 + p);
        }
      }
    }
  }

  /** `Address.GetKey`, bit by bit. */
  method GetKey(a: Address) returns (key: PublicKey)
    requires a.ones < 256 && |a.rest| == REST
    ensures key == KeyOf(a)
  {
    var buf := Zeros(32);
    assert forall j :: 0 <= j < KEY_BITS ==> !BitAt(buf, j) by {
      forall j | 0 <= j < KEY_BITS ensures !BitAt(buf, j) { ZerosAreClear(32, j); }
    }
    for idx := 0 to a.ones
      invariant |buf| == 32
      invariant forall j :: 0 <= j < KEY_BITS ==> BitAt(buf, j) == (j < idx)
    {
      SetAtAll(buf, idx);
      buf := SetAt(buf, idx);
    }
    buf := CopyBits(a, buf);
    key := InvertAll(buf);
    forall i | 0 <= i < KEY_BITS ensures BitAt(key, i) == BitAt(KeyOf(a), i) {
      assert HasBits(KeyOf(a), 32, KeyBits(a));
    }
    SameBitsAt(key, KeyOf(a));
  }

  lemma SetAtAll(s: seq<bv8>, i: nat)
    requires i < 8 * |s|
    ensures forall j :: 0 <= j < 8 * |s| ==> BitAt(SetAt(s, i), j) == (j == i || BitAt(s, j))
  {
    forall j | 0 <= j < 8 * |s| ensures BitAt(SetAt(s, i), j) == (j == i || BitAt(s, j)) {
      SetAtSets(s, i, j);
    }
  }

  /** The second loop of `GetKey`, which stops at the end of the key. */
  method CopyBits(a: Address, start: seq<bv8>) returns (buf: seq<bv8>)
    requires a.ones < 256 && |a.rest| == REST && |start| == 32
    requires forall j :: 0 <= j < KEY_BITS ==> BitAt(start, j) == (j < a.ones)
    ensures |buf| == 32 && forall i :: 0 <= i < KEY_BITS ==> BitAt(buf, i) == KeyBit(a, i)
  {
    buf := start;
    var n := 0;
    while n < 8 * REST && a.ones + 1 + n < KEY_BITS
      invariant 0 <= n <= 8 * REST && |buf| == 32
      invariant forall i :: 0 <= i < KEY_BITS ==> BitAt(buf, i) == (KeyBit(a, i) && i < a.ones + 1 + n)
    {
      var keyIdx := a.ones + 1 + n;
      if BitAt(a.rest, n) {
        SetAtAll(buf, keyIdx);
        buf := SetAt(buf, keyIdx);
      }
      n := n + 1;
    }
  }

  /** The final loop of `GetKey`. */
  method InvertAll(buf: seq<bv8>) returns (key: seq<bv8>)
    ensures |key| == |buf| && forall i :: 0 <= i < 8 * |buf| ==> BitAt(key, i) == !BitAt(buf, i)
  {
    key := buf;
    for idx := 0 to |buf|
      invariant |key| == |buf|
      invariant forall k :: 0 <= k < |buf| ==> key[k] == if k < idx then !buf[k] else buf[k]
    {
      key := key[idx := !key[idx]];
    }
    forall i | 0 <= i < 8 * |buf| ensures BitAt(key, i) == !BitAt(buf, i) {
      NotFlips(buf[i / 8], i % 8);
    }
  }

  // ---------------------------------------------------------------- one key's address

  /** Byte `m` of the inverted key moved up by one bit. */
  function MovedUp(k: PublicKey, m: nat): (b: bv8)
    requires m + 1 < 32
  {
    (!k[m] << 1) | (!k[m + 1] >> 7)
  }

  lemma MovedUpBits(k: PublicKey, m: nat, j: nat)
    requires m + 1 < 32 && j < 8
    ensures Bit(MovedUp(k, m), j) == Inv(k, 8 * m + j + 1)
  {
    var x, y := k[m], k[m + 1];
    if j < 7 {
      assert (8 * m + j + 1) / 8 == m && (8 * m + j + 1) % 8 == j + 1;
      assert j == 0 || j == 1 || j == 2 || j == 3 || j == 4 || j == 5 || j == 6;
    } else {
      assert (8 * m + j + 1) / 8 == m + 1 && (8 * m + j + 1) % 8 == 0;
    }
  }

  /** When the key's first bit is set, nothing is counted and the address is the
      inverted key without that bit. */
  lemma HighKeyAddress(prefix: bv8, k: PublicKey, m: nat)
    requires BitAt(k, 0) && m < REST
    ensures AddrOf(prefix, k).prefix == prefix && AddrOf(prefix, k).ones == 0
    ensures AddrOf(prefix, k).rest[m] == MovedUp(k, m)
  {
    var a := AddrOf(prefix, k);
    assert !Inv(k, 0) && LeadingOnes(k, 0) == 0;
    forall j | 0 <= j < 8 ensures Bit(a.rest[m], j) == Bit(MovedUp(k, m), j) {
      assert HasBits(a.rest, REST, PayloadBits(k));
      assert BitAt(a.rest, 8 * m + j) == PayloadBit(k, 8 * m + j);
      MovedUpBits(k, m, j);
    }
    SameBits(a.rest[m], MovedUp(k, m));
  }

  const SAMPLE: PublicKey :=
    [189, 186, 207, 216, 34, 64, 222, 61, 205, 18, 57, 36, 203, 181, 82, 86,
     251, 141, 171, 8, 170, 152, 227, 5, 82, 138, 184, 79, 65, 158, 110, 251]

  /** The repository's own example of a key, its address and its subnet. */
  lemma SampleAddress()
    ensures AddrOf(2, SAMPLE) == Address(2, 0, [132, 138, 96, 79, 187, 126, 67, 132, 101, 219, 141, 182, 104, 149])
    ensures SubnetOf(AddrOf(2, SAMPLE)) == Address(3, 0, [132, 138, 96, 79, 187, 126])
  {
    var a := AddrOf(2, SAMPLE);
    assert BitAt(SAMPLE, 0);
    forall m | 0 <= m < REST ensures a.rest[m] == MovedUp(SAMPLE, m) {
      HighKeyAddress(2, SAMPLE, m);
    }
    HighKeyAddress(2, SAMPLE, 0);
  }

  // ----------------------------------------------------------------- round trips

  /** The payload bits that a key of this shape cannot fill are clear. */
  ghost predicate Canonical(a: Address)
  {
    && a.ones < 256 && |a.rest| == REST
    && forall j :: WholeBits(a.ones) <= j < 8 * REST ==> !BitAt(a.rest, j)
  }

  lemma KeyOfBits(a: Address, i: nat)
    requires i < KEY_BITS
    ensures Inv(KeyOf(a), i) == KeyBit(a, i)
  {
    assert HasBits(KeyOf(a), 32, KeyBits(a));
  }

  /** The partial key has as many leading ones as the address says. */
  lemma KeyOfOnes(a: Address)
    requires a.ones < 256
    ensures LeadingOnes(KeyOf(a), 0) == a.ones
  {
    var o := LeadingOnes(KeyOf(a), 0);
    KeyOfBits(a, a.ones);
    if o < a.ones { KeyOfBits(a, o); }
  }

  lemma AddrBits(prefix: bv8, k: PublicKey, j: nat)
    requires j < 8 * REST
    ensures BitAt(AddrOf(prefix, k).rest, j) == PayloadBit(k, j)
  {
    assert HasBits(AddrOf(prefix, k).rest, REST, PayloadBits(k));
  }

  lemma AddrOfKeyBits(prefix: bv8, a: Address, j: nat)
    requires a.ones < 256 && |a.rest| == REST && j < 8 * REST
    ensures BitAt(AddrOf(prefix, KeyOf(a)).rest, j) == (j < WholeBits(a.ones) && BitAt(a.rest, j))
  {
    AddrBits(prefix, KeyOf(a), j);
    KeyOfOnes(a);
    if j < WholeBits(a.ones) { KeyOfBits(a, a.ones + 1 + j); }
  }

  /** An address comes back from its own partial key exactly when the bits that
      no key could have put there are clear. */
  lemma AddressRoundTrip(a: Address)
    requires a.ones < 256 && |a.rest| == REST
    ensures AddrOf(a.prefix, KeyOf(a)) == a <==> Canonical(a)
  {
    var b := AddrOf(a.prefix, KeyOf(a));
    KeyOfOnes(a);
    forall j | 0 <= j < 8 * REST ensures BitAt(b.rest, j) == (j < WholeBits(a.ones) && BitAt(a.rest, j)) {
      AddrOfKeyBits(a.prefix, a, j);
    }
    if Canonical(a) {
      SameBitsAt(b.rest, a.rest);
    }
  }

  /** With at most 143 leading ones every payload bit is the key's. */
  lemma ShortOnesAreCanonical(a: Address)
    requires a.ones <= 143 && |a.rest| == REST
    ensures Canonical(a) && AddrOf(a.prefix, KeyOf(a)) == a
  {
    AddressRoundTrip(a);
  }

  /** With 144 leading ones the last payload byte is out of reach. */
  lemma LongOnesLoseBits()
    ensures var a := Address(2, 144, Zeros(13) + [1]);
            AddrOf(2, KeyOf(a)) != a
  {
    var a := Address(2, 144, Zeros(13) + [1]);
    assert BitAt(a.rest, 111);
    AddressRoundTrip(a);
  }

  /** Past the whole bytes there is no payload, also when the count wraps to zero. */
  lemma BeyondIsClear(k: PublicKey, j: nat)
    requires WholeBits(LeadingOnes(k, 0) % 256) <= j
    ensures !PayloadBit(k, j)
  {
    var o := LeadingOnes(k, 0);
    assert o < 256 ==> o % 256 == o;
    assert o == 256 ==> WholeBits(o) == 0;
  }

  lemma AddrIsCanonical(prefix: bv8, k: PublicKey)
    ensures Canonical(AddrOf(prefix, k))
  {
    var a := AddrOf(prefix, k);
    forall j | WholeBits(a.ones) <= j < 8 * REST ensures !BitAt(a.rest, j) {
      AddrBits(prefix, k, j);
      BeyondIsClear(k, j);
    }
  }

  /** Every key's address survives the trip through its partial key, even for
      the zero key, whose 256 ones do not fit the count. */
  lemma KeyAddressRoundTrip(prefix: bv8, k: PublicKey)
    ensures AddrOf(prefix, KeyOf(AddrOf(prefix, k))) == AddrOf(prefix, k)
  {
    AddrIsCanonical(prefix, k);
    AddressRoundTrip(AddrOf(prefix, k));
  }

  /** The partial key of a key's address transforms like the key itself. */
  lemma PartialKeyMatches(prefix: bv8, k: PublicKey)
    ensures Transform(prefix, KeyOf(AddrOf(prefix, k))) == Transform(prefix, k)
  {
    KeyAddressRoundTrip(prefix, k);
  }

  /** KeyOf does not look at the prefix. */
  lemma PrefixIgnored(a: Address, p: bv8)
    requires |a.rest| == REST
    ensures KeyOf(a.(prefix := p)) == KeyOf(a)
  {
    forall i | 0 <= i < KEY_BITS ensures BitAt(KeyOf(a.(prefix := p)), i) == BitAt(KeyOf(a), i) {
      KeyOfBits(a, i);
      KeyOfBits(a.(prefix := p), i);
    }
    SameBitsAt(KeyOf(a.(prefix := p)), KeyOf(a));
  }

  /** The transform is idempotent: a key's subnet, read back as a key, has the
      same subnet, so lookups by subnet land in the same place. */
  lemma TransformIdempotent(prefix: bv8, k: PublicKey)
    ensures Transform(prefix, Transform(prefix, k)) == Transform(prefix, k)
  {
    var a := AddrOf(prefix, k);
    var padded := Address(prefix, a.ones, a.rest[..SUBNET_REST] + Zeros(REST - SUBNET_REST));
    AddrIsCanonical(prefix, k);
    forall j | WholeBits(padded.ones) <= j < 8 * REST ensures !BitAt(padded.rest, j) {
      if j < 8 * SUBNET_REST {
        assert BitAt(padded.rest, j) == BitAt(a.rest, j);
      } else {
        ZerosAreClear(REST - SUBNET_REST, j - 8 * SUBNET_REST);
        assert padded.rest[j / 8] == Zeros(REST - SUBNET_REST)[j / 8 - SUBNET_REST];
      }
    }
    AddressRoundTrip(padded);
    PrefixIgnored(padded, prefix | 1);
    assert Transform(prefix, k) == KeyOf(padded);
    assert padded.rest[..SUBNET_REST] == a.rest[..SUBNET_REST];
  }
}
