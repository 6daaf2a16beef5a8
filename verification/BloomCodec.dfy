/** The run-flag encoding of bloom filters (ironwood/network/bloomfilter.go):
    words that are all zeros or all ones become one flag bit each. */
module BloomCodec {
  import opened Basics
  import opened Bits

  const FLAG_BYTES: nat := 16
  const WORDS: nat := 128
  const ONES: bv64 := 0xFFFF_FFFF_FFFF_FFFF

  // ---------------------------------------------------------------------- words

  /** `binary.BigEndian.PutUint64` */
  function WordBytes(u: bv64): (b: seq<bv8>)
    ensures |b| == 8
  {
    [((u >> 56) & 0xFF) as bv8, ((u >> 48) & 0xFF) as bv8, ((u >> 40) & 0xFF) as bv8, ((u >> 32) & 0xFF) as bv8,
     ((u >> 24) & 0xFF) as bv8, ((u >> 16) & 0xFF) as bv8, ((u >> 8) & 0xFF) as bv8, (u & 0xFF) as bv8]
  }

  /** `binary.BigEndian.Uint64` */
  function BytesWord(b: seq<bv8>): (u: bv64)
    requires |b| == 8
  {
    (b[0] as bv64 << 56) | (b[1] as bv64 << 48) | (b[2] as bv64 << 40) | (b[3] as bv64 << 32) |
    (b[4] as bv64 << 24) | (b[5] as bv64 << 16) | (b[6] as bv64 << 8) | (b[7] as bv64)
  }

  lemma WordRoundTrip(u: bv64)
    ensures BytesWord(WordBytes(u)) == u
  {
  }

  // ------------------------------------------------------------------- encoding

  predicate Kept(u: bv64) { u != 0 && u != ONES }

  /** The words that need their own bytes, in order. */
  function KeptBytes(us: seq<bv64>): (b: seq<bv8>)
  {
    if us == [] then [] else
    (if Kept(us[0]) then WordBytes(us[0]) else []) + KeptBytes(us[1..])
  }

  /** `size`: two flag fields and eight bytes a kept word. */
  function Size(us: seq<bv64>): (n: nat)
  {
    2 * FLAG_BYTES + KeptSize(us)
  }

  function KeptSize(us: seq<bv64>): (n: nat)
    ensures n == |KeptBytes(us)|
  {
    if us == [] then 0 else (if Kept(us[0]) then 8 else 0) + KeptSize(us[1..])
  }

  /** `f` flags exactly the words equal to `w`. */
  ghost predicate Flags(f: seq<bv8>, us: seq<bv64>, w: bv64)
  {
    |f| == FLAG_BYTES && |us| == WORDS && forall i :: 0 <= i < WORDS ==> BitAt(f, i) == (us[i] == w)
  }

  /** `out` is the encoding of `us`. */
  ghost predicate IsEncoding(us: seq<bv64>, out: seq<bv8>)
  {
    && |out| >= 2 * FLAG_BYTES
    && Flags(out[..FLAG_BYTES], us, 0) && Flags(out[FLAG_BYTES..2 * FLAG_BYTES], us, ONES)
    && out[2 * FLAG_BYTES..] == KeptBytes(us)
  }

  /** The flags set so far cover the first `idx` words. */
  ghost predicate FlagsUpTo(f: seq<bv8>, us: seq<bv64>, w: bv64, idx: nat)
  {
    && |f| == FLAG_BYTES && |us| == WORDS
    && forall i :: 0 <= i < WORDS ==> BitAt(f, i) == (i < idx && us[i] == w)
  }

  lemma FlagSet(f: seq<bv8>, us: seq<bv64>, w: bv64, idx: nat)
    requires FlagsUpTo(f, us, w, idx) && idx < WORDS
    ensures FlagsUpTo(if us[idx] == w then SetAt(f, idx) else f, us, w, idx + 1)
  {
    if us[idx] == w {
      forall i | 0 <= i < WORDS ensures BitAt(SetAt(f, idx), i) == (i < idx + 1 && us[i] == w) {
        SetAtSets(f, idx, i);
      }
    }
  }

  lemma NoFlags(us: seq<bv64>, w: bv64)
    requires |us| == WORDS
    ensures FlagsUpTo(Zeros(FLAG_BYTES), us, w, 0)
  {
    forall i | 0 <= i < WORDS ensures !BitAt(Zeros(FLAG_BYTES), i) {
      ZerosAreClear(FLAG_BYTES, i);
    }
  }

  lemma {:induction false} KeptSnoc(us: seq<bv64>, u: bv64)
    ensures KeptBytes(us + [u]) == KeptBytes(us) + if Kept(u) then WordBytes(u) else []
  {
    if us == [] {
      assert ([u] + [])[1..] == [];
      assert us + [u] == [u];
    } else {
      assert (us + [u])[1..] == us[1..] + [u];
      KeptSnoc(us[1..], u);
    }
  }

  /** `encode`: one pass over the words, then the kept words. */
  method Encode(us: seq<bv64>) returns (out: seq<bv8>)
    requires |us| == WORDS
    ensures IsEncoding(us, out) && |out| == Size(us)
  {
    var flags0, flags1, keep: seq<bv8> := Zeros(FLAG_BYTES), Zeros(FLAG_BYTES), [];
    NoFlags(us, 0);
    NoFlags(us, ONES);
    for idx := 0 to WORDS
      invariant FlagsUpTo(flags0, us, 0, idx) && FlagsUpTo(flags1, us, ONES, idx)
      invariant keep == KeptBytes(us[..idx])
    {
      FlagSet(flags0, us, 0, idx);
      FlagSet(flags1, us, ONES, idx);
      KeptSnoc(us[..idx], us[idx]);
      assert us[..idx + 1] == us[..idx] + [us[idx]];
      if us[idx] == 0 {
        flags0 := SetAt(flags0, idx);
      } else if us[idx] == ONES {
        flags1 := SetAt(flags1, idx);
      } else {
        keep := keep + WordBytes(us[idx]);
      }
    }
    assert us[..WORDS] == us;
    out := flags0 + flags1 + keep;
    assert out[..FLAG_BYTES] == flags0 && out[FLAG_BYTES..2 * FLAG_BYTES] == flags1 && out[2 * FLAG_BYTES..] == keep;
  }

  // ------------------------------------------------------------------- decoding

  /** The words from the idx-th on, reading `data` where no flag is set. */
  function WordsFrom(f0: seq<bv8>, f1: seq<bv8>, data: seq<bv8>, idx: nat): (r: Option<seq<bv64>>)
    requires |f0| == FLAG_BYTES && |f1| == FLAG_BYTES && idx <= WORDS
    decreases WORDS - idx
  {
    if idx == WORDS then if data == [] then Some([]) else None
    else if BitAt(f0, idx) && BitAt(f1, idx) then None
    else if BitAt(f0, idx) then Cons(0, WordsFrom(f0, f1, data, idx + 1))
    else if BitAt(f1, idx) then Cons(ONES, WordsFrom(f0, f1, data, idx + 1))
    else if |data| >= 8 then Cons(BytesWord(data[..8]), WordsFrom(f0, f1, data[8..], idx + 1))
    else None
  }

  function Cons(u: bv64, r: Option<seq<bv64>>): (s: Option<seq<bv64>>)
  {
    if r.None? then None else Some([u] + r.value)
  }

  function Decoded(data: seq<bv8>): (r: Option<seq<bv64>>)
  {
    if |data| < 2 * FLAG_BYTES then None
    else WordsFrom(data[..FLAG_BYTES], data[FLAG_BYTES..2 * FLAG_BYTES], data[2 * FLAG_BYTES..], 0)
  }

  /** `decode`, word by word. */
  method Decode(data: seq<bv8>) returns (r: Option<seq<bv64>>)
    ensures r == Decoded(data)
  {
    if |data| < 2 * FLAG_BYTES {
      return None;
    }
    r := DecodeWords(data[..FLAG_BYTES], data[FLAG_BYTES..2 * FLAG_BYTES], data[2 * FLAG_BYTES..]);
  }

  function Before(us: seq<bv64>, r: Option<seq<bv64>>): (s: Option<seq<bv64>>)
  {
    if r.None? then None else Some(us + r.value)
  }

  lemma BeforeCons(us: seq<bv64>, u: bv64, r: Option<seq<bv64>>)
    ensures Before(us, Cons(u, r)) == Before(us + [u], r)
  {
    if r.Some? { assert us + ([u] + r.value) == (us + [u]) + r.value; }
  }

  lemma BeforeEnds(us: seq<bv64>, r: Option<seq<bv64>>)
    ensures Before([], r) == r && Before(us, Some([])) == Some(us)
  {
    assert us + [] == us;
    if r.Some? { assert [] + r.value == r.value; }
  }

  method DecodeWords(f0: seq<bv8>, f1: seq<bv8>, start: seq<bv8>) returns (r: Option<seq<bv64>>)
    requires |f0| == FLAG_BYTES && |f1| == FLAG_BYTES
    ensures r == WordsFrom(f0, f1, start, 0)
  {
    var us, data, idx := [], start, 0;
    BeforeEnds(us, WordsFrom(f0, f1, start, 0));
    while idx < WORDS
      invariant 0 <= idx <= WORDS
      invariant WordsFrom(f0, f1, start, 0) == Before(us, WordsFrom(f0, f1, data, idx))
    {
      var flag0, flag1 := BitAt(f0, idx), BitAt(f1, idx);
      var u: bv64;
      if flag0 && flag1 {
        return None;
      } else if flag0 {
        u := 0;
      } else if flag1 {
        u := ONES;
      } else if |data| >= 8 {
        u := BytesWord(data[..8]);
      } else {
        return None;
      }
      var rest := if flag0 || flag1 then data else data[8..];
      BeforeCons(us, u, WordsFrom(f0, f1, rest, idx + 1));
      us, data, idx := us + [u], rest, idx + 1;
    }
    BeforeEnds(us, None);
    if data != [] {
      return None;
    }
    r := Some(us);
  }

  // ----------------------------------------------------------------- round trip

  lemma {:induction false} WordsRoundTrip(us: seq<bv64>, f0: seq<bv8>, f1: seq<bv8>, idx: nat)
    requires Flags(f0, us, 0) && Flags(f1, us, ONES) && idx <= WORDS
    ensures WordsFrom(f0, f1, KeptBytes(us[idx..]), idx) == Some(us[idx..])
    decreases WORDS - idx
  {
    if idx < WORDS {
      WordsRoundTrip(us, f0, f1, idx + 1);
      FirstWord(us[idx..]);
      assert us[idx..][1..] == us[idx + 1..];
      OneWord(us, f0, f1, idx, KeptBytes(us[idx..]), KeptBytes(us[idx + 1..]));
      HeadAndTail(us, idx);
    } else {
      assert us[idx..] == [];
    }
  }

  lemma HeadAndTail(us: seq<bv64>, idx: nat)
    requires idx < |us|
    ensures Cons(us[idx], Some(us[idx + 1..])) == Some(us[idx..])
  {
    assert us[idx..] == [us[idx]] + us[idx + 1..];
  }

  /** What the first word contributes to the kept bytes. */
  lemma FirstWord(us: seq<bv64>)
    requires us != []
    ensures Kept(us[0]) ==>
              var d := KeptBytes(us);
              |d| >= 8 && d[..8] == WordBytes(us[0]) && d[8..] == KeptBytes(us[1..])
    ensures !Kept(us[0]) ==> KeptBytes(us) == KeptBytes(us[1..])
  {
  }

  lemma OneWord(us: seq<bv64>, f0: seq<bv8>, f1: seq<bv8>, idx: nat, data: seq<bv8>, rest: seq<bv8>)
    requires Flags(f0, us, 0) && Flags(f1, us, ONES) && idx < WORDS
    requires Kept(us[idx]) ==> |data| >= 8 && data[..8] == WordBytes(us[idx]) && data[8..] == rest
    requires !Kept(us[idx]) ==> data == rest
    ensures WordsFrom(f0, f1, data, idx) == Cons(us[idx], WordsFrom(f0, f1, rest, idx + 1))
  {
    WordRoundTrip(us[idx]);
    assert BitAt(f0, idx) == (us[idx] == 0) && BitAt(f1, idx) == (us[idx] == ONES);
  }

  /** Decoding the encoding of any filter gives it back. */
  lemma FilterRoundTrip(us: seq<bv64>, out: seq<bv8>)
    requires IsEncoding(us, out)
    ensures Decoded(out) == Some(us)
  {
    WordsRoundTrip(us, out[..FLAG_BYTES], out[FLAG_BYTES..2 * FLAG_BYTES], 0);
    assert us[0..] == us;
  }

  /** A filter has one encoding. */
  lemma EncodingUnique(us: seq<bv64>, a: seq<bv8>, b: seq<bv8>)
    requires IsEncoding(us, a) && IsEncoding(us, b)
    ensures a == b
  {
    SameBitsAt(a[..FLAG_BYTES], b[..FLAG_BYTES]);
    SameBitsAt(a[FLAG_BYTES..2 * FLAG_BYTES], b[FLAG_BYTES..2 * FLAG_BYTES]);
    assert a == a[..FLAG_BYTES] + a[FLAG_BYTES..2 * FLAG_BYTES] + a[2 * FLAG_BYTES..];
    assert b == b[..FLAG_BYTES] + b[FLAG_BYTES..2 * FLAG_BYTES] + b[2 * FLAG_BYTES..];
  }
}
