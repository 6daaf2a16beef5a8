/** How keys get out of sync: traffic that overtakes the ack it belongs to. */
module SessionDesync {
  import opened Basics
  import opened Ratchet
  import opened SessionProtocol

  // ------------------------------------------------------------------- the run

  /** The right end's two messages. */
  function First(c: Crypto): (t: Traffic) { Traffic(1, 0, 1, c.seal(c.pub(23), [], 1, c.dh(c.pub(1), 22))) }
  function Second(c: Crypto): (t: Traffic) { Traffic(2, 0, 2, c.seal(c.pub(40), [], 2, c.dh(c.pub(10007), 23))) }

  function I1(c: Crypto): (i: Init) { Init(c.pub(1), c.pub(2), 0, 1) }
  function Lost(c: Crypto): (i: Init) { Init(c.pub(10007), c.pub(10008), 0, 2) }
  function Ack1(c: Crypto): (i: Init) { Init(c.pub(22), c.pub(23), 1, 1) }
  function Ack2(c: Crypto): (i: Init) { Init(c.pub(23), c.pub(40), 2, 2) }

  function Left1(c: Crypto): (p: Peer)
  {
    Peer(Waiting(1, 2, I1(c), []), {InitMsg(I1(c))}, map[1 := 1, 2 := 2], [], {}, None)
  }

  function Left4(c: Crypto): (p: Peer) { ThrowAway(c, Left1(c), 2, 10007, 10008) }

  function Right2(c: Crypto): (p: Peer)
  {
    Peer(Open(Updated(c, NewSess(c, I1(c), 20, 21, 22), I1(c), 23)), {AckMsg(Ack1(c))},
         map[0 := 20, 1 := 21, 2 := 22, 3 := 23], [], {}, Some(I1(c)))
  }

  function Right3(c: Crypto): (p: Peer)
  {
    var p := Right2(c);
    p.(end := Open(p.end.sess.(sendNonce := 1)), out := p.out + {TrafficMsg(First(c))},
       seals := [Seal(22, c.pub(1), 1, 0, 1)])
  }

  function Right5(c: Crypto): (p: Peer)
  {
    var p := Right3(c);
    p.(end := Open(Updated(c, p.end.sess, Lost(c), 40)), out := p.out + {AckMsg(Ack2(c))}, keys := p.keys[4 := 40],
       taken := Some(Lost(c)))
  }

  function Right6(c: Crypto): (p: Peer)
  {
    var p := Right5(c);
    p.(end := Open(p.end.sess.(sendNonce := 2)), out := p.out + {TrafficMsg(Second(c))},
       seals := p.seals + [Seal(23, c.pub(10007), 2, 0, 2)])
  }

  lemma Move1(c: Crypto)
    ensures Act(c, IDLE, Write([], 1), Five(1)) == Left1(c)
  {
  }

  lemma Move2(c: Crypto)
    ensures Act(c, IDLE, Get(InitMsg(I1(c)), false, 1), Five(20)) == Right2(c)
  {
  }

  lemma Move3(c: Crypto)
    ensures Act(c, Right2(c), Write([], 1), Five(30)) == Right3(c)
  {
  }

  lemma Move5(c: Crypto)
    ensures Act(c, Right3(c), Get(InitMsg(Lost(c)), false, 2), Five(40)) == Right5(c)
  {
  }

  lemma Move6(c: Crypto)
    ensures Act(c, Right5(c), Write([], 2), Five(50)) == Right6(c)
  {
  }

  function Left7(c: Crypto): (p: Peer)
  {
    Act(c, Left4(c), Get(AckMsg(Ack2(c)), false, 2), Five(60))
  }

  /** The left end's session holds K[0] to K[3] with send key 2, labels the right
      end's keys by 2, and tries key 1 on what comes under that label. */
  lemma Move7(c: Crypto)
    ensures Left7(c).end.Open? && CaseOf(Left7(c).end.sess, Second(c)) == CurrentToRecv
    ensures Left7(c).end.sess.recvShared == c.dh(c.pub(23), 1) && Left7(c).end.sess.recvNonce == 0
  {
  }

  /** The keys that are in play, and five new ones. */
  ghost predicate Among(p: Peer, known: set<Secret>)
  {
    (forall n :: n in p.keys ==> p.keys[n] in known) && p.lost <= known
  }

  function Five(k: Secret): (made: seq<Secret>) { [k, k + 1, k + 2, k + 3, k + 4] }

  ghost predicate Clear(known: set<Secret>, k: Secret) { forall x :: x in known ==> x < k || x > k + 4 }

  lemma FiveAreFresh(p: Peer, known: set<Secret>, k: Secret)
    requires Among(p, known) && Clear(known, k)
    ensures Fresh(p, Five(k))
  {
  }

  lemma PeersAmong(c: Crypto)
    ensures Among(IDLE, {}) && Among(Left1(c), {1, 2}) && Among(Left4(c), {1, 2, 10007, 10008})
    ensures Among(Right2(c), {20, 21, 22, 23}) && Among(Right3(c), {20, 21, 22, 23})
  {
  }

  lemma LaterPeersAmong(c: Crypto)
    ensures Among(Right5(c), {20, 21, 22, 23, 40}) && Among(Right6(c), {20, 21, 22, 23, 40})
  {
    PeersAmong(c);
  }

  /** One move of the run, between given peers. */
  lemma StepFrom(c: Crypto, p: Peer, q: Peer, a: Action, k: Secret, p': Peer, known: set<Secret>, theirs: set<Secret>)
    requires Among(p, known) && Among(q, theirs) && Clear(known, k) && Clear(theirs, k)
    requires 0 < a.now < U64 && (a.Get? ==> a.msg in q.out) && p' == Act(c, p, a, Five(k))
    ensures Step(c, p, q, a, Five(k), p')
  {
    FiveAreFresh(p, known, k);
    FiveAreFresh(q, theirs, k);
  }

  function M1(): (m: Move) { Move(true, Write([], 1), Five(1)) }
  function M2(c: Crypto): (m: Move) { Move(false, Get(InitMsg(I1(c)), false, 1), Five(20)) }
  function M3(): (m: Move) { Move(false, Write([], 1), Five(30)) }
  function M4(c: Crypto): (m: Move) { Move(true, Get(TrafficMsg(First(c)), false, 2), Five(10007)) }
  function M5(c: Crypto): (m: Move) { Move(false, Get(InitMsg(Lost(c)), false, 2), Five(40)) }
  function M6(): (m: Move) { Move(false, Write([], 2), Five(50)) }
  function M7(c: Crypto): (m: Move) { Move(true, Get(AckMsg(Ack2(c)), false, 2), Five(60)) }

  lemma Next1(c: Crypto)
    ensures Next(c, World(IDLE, IDLE), M1(), World(Left1(c), IDLE))
  {
    Move1(c);
    StepFrom(c, IDLE, IDLE, M1().action, 1, Left1(c), {}, {});
  }

  lemma Next2(c: Crypto)
    ensures Next(c, World(Left1(c), IDLE), M2(c), World(Left1(c), Right2(c)))
  {
    Move2(c);
    PeersAmong(c);
    StepFrom(c, IDLE, Left1(c), M2(c).action, 20, Right2(c), {}, {1, 2});
  }

  lemma Next3(c: Crypto)
    ensures Next(c, World(Left1(c), Right2(c)), M3(), World(Left1(c), Right3(c)))
  {
    Move3(c);
    PeersAmong(c);
    StepFrom(c, Right2(c), Left1(c), M3().action, 30, Right3(c), {20, 21, 22, 23}, {1, 2});
  }

  lemma Next4(c: Crypto)
    ensures Next(c, World(Left1(c), Right3(c)), M4(c), World(Left4(c), Right3(c)))
  {
    PeersAmong(c);
    StepFrom(c, Left1(c), Right3(c), M4(c).action, 10007, Left4(c), {1, 2}, {20, 21, 22, 23});
  }

  lemma Next5(c: Crypto)
    ensures Next(c, World(Left4(c), Right3(c)), M5(c), World(Left4(c), Right5(c)))
  {
    Move5(c);
    PeersAmong(c);
    StepFrom(c, Right3(c), Left4(c), M5(c).action, 40, Right5(c), {20, 21, 22, 23}, {1, 2, 10007, 10008});
  }

  lemma Next6(c: Crypto)
    ensures Next(c, World(Left4(c), Right5(c)), M6(), World(Left4(c), Right6(c)))
  {
    Move6(c);
    PeersAmong(c);
    LaterPeersAmong(c);
    StepFrom(c, Right5(c), Left4(c), M6().action, 50, Right6(c), {20, 21, 22, 23, 40}, {1, 2, 10007, 10008});
  }

  lemma Next7(c: Crypto)
    ensures Next(c, World(Left4(c), Right6(c)), M7(c), World(Left7(c), Right6(c)))
  {
    PeersAmong(c);
    LaterPeersAmong(c);
    StepFrom(c, Left4(c), Right6(c), M7(c).action, 60, Left7(c), {1, 2, 10007, 10008}, {20, 21, 22, 23, 40});
  }

  lemma OneMore(c: Crypto, ws: seq<World>, ms: seq<Move>, m: Move, w: World)
    requires IsRun(c, ws, ms) && Next(c, ws[|ms|], m, w)
    ensures IsRun(c, ws + [w], ms + [m])
  {
  }

  lemma FirstHalf(c: Crypto) returns (ws: seq<World>, ms: seq<Move>)
    ensures IsRun(c, ws, ms) && |ms| == 3 && ws[3] == World(Left1(c), Right3(c))
  {
    Next1(c);
    Next2(c);
    Next3(c);
    ws, ms := [World(IDLE, IDLE)], [];
    OneMore(c, ws, ms, M1(), World(Left1(c), IDLE));
    ws, ms := ws + [World(Left1(c), IDLE)], ms + [M1()];
    OneMore(c, ws, ms, M2(c), World(Left1(c), Right2(c)));
    ws, ms := ws + [World(Left1(c), Right2(c))], ms + [M2(c)];
    OneMore(c, ws, ms, M3(), World(Left1(c), Right3(c)));
    ws, ms := ws + [World(Left1(c), Right3(c))], ms + [M3()];
  }

  /** Seven moves: the left end writes; the right end accepts and writes; its
      traffic reaches the left end before its ack, and is answered with keys that
      the left end forgets; the right end takes those and writes again; then the
      second ack opens the left end's session. */
  lemma DesyncRun(c: Crypto) returns (ws: seq<World>, ms: seq<Move>)
    ensures IsRun(c, ws, ms) && |ms| == 7 && ws[7] == World(Left7(c), Right6(c))
  {
    ws, ms := FirstHalf(c);
    Next4(c);
    Next5(c);
    Next6(c);
    Next7(c);
    OneMore(c, ws, ms, M4(c), World(Left4(c), Right3(c)));
    ws, ms := ws + [World(Left4(c), Right3(c))], ms + [M4(c)];
    OneMore(c, ws, ms, M5(c), World(Left4(c), Right5(c)));
    ws, ms := ws + [World(Left4(c), Right5(c))], ms + [M5(c)];
    OneMore(c, ws, ms, M6(), World(Left4(c), Right6(c)));
    ws, ms := ws + [World(Left4(c), Right6(c))], ms + [M6()];
    OneMore(c, ws, ms, M7(c), World(Left7(c), Right6(c)));
    ws, ms := ws + [World(Left7(c), Right6(c))], ms + [M7(c)];
  }

  lemma SecondDoesNotOpen(c: Crypto, may: bool, made: Secret)
    requires Separated(c, Left7(c), Right6(c))
    ensures Left7(c).end.Open? && CaseOf(Left7(c).end.sess, Second(c)) != Senseless
    ensures Receive(c, Left7(c).end.sess, Second(c), may, made).1.OutOfSync?
  {
    Move7(c);
    RightTookLost(c);
    LastKeys(c);
    assert SealedAs(c, Second(c), c.pub(40), [], SharedBy(c, 10007, 23));
    OtherPairFails(c, Left7(c), Right6(c), Second(c), c.pub(40), 10007, 23, 23, 1);
  }

  lemma RightTookLost(c: Crypto)
    ensures TookLost(c, Right6(c), Left7(c)) && Right6(c).end.Open? && TrafficMsg(Second(c)) in Right6(c).out
  {
    assert 10007 in Left7(c).lost && 10008 in Left7(c).lost;
  }

  /** The keys in play at the end. */
  lemma LastKeys(c: Crypto)
    ensures Left7(c).lost == {10007, 10008} && Right6(c).lost == {}
    ensures Among(Left7(c), {1, 2, 60, 63, 10007, 10008}) && Among(Right6(c), {20, 21, 22, 23, 40})
    ensures !NewKey(Left7(c).keys, 1) && !NewKey(Right6(c).keys, 23)
  {
    LaterPeersAmong(c);
    assert Left7(c).keys == map[0 := 60, 1 := 1, 2 := 2, 3 := 63];
    assert Left7(c).keys[1] == 1 && Right6(c).keys[3] == 23;
  }

  /** After these moves the right end's second message has labels that make sense
      to the left end, is no replay, and does not open: the left end takes the
      out-of-sync branch, and the right end's session is not in agreement.  Nothing
      is asked of the cryptography but that the keys of this run do not collide. */
  lemma OvertakenAckDesyncs(c: Crypto, may: bool, made: Secret) returns (ws: seq<World>, ms: seq<Move>, t: Traffic)
    requires Lawful(c) && Separated(c, Left7(c), Right6(c))
    ensures IsRun(c, ws, ms) && |ms| == 7
    ensures ws[7].left.end.Open? && ws[7].right.end.Open? && TrafficMsg(t) in ws[7].right.out
    ensures CaseOf(ws[7].left.end.sess, t) != Senseless && Receive(c, ws[7].left.end.sess, t, may, made).1.OutOfSync?
    ensures !GoodSess(c, ws[7].right.keys, ws[7].left.keys, ws[7].right.end.sess)
  {
    ws, ms := DesyncRun(c);
    t := Second(c);
    SecondDoesNotOpen(c, may, made);
    RightTookLost(c);
    KeyAgreement(c, ws, ms, 7, false);
  }

  // ----------------------------------------------------------- a group has the laws

  /** Diffie-Hellman in a group, elements written by their exponents: the secret
      depends on the product of the two private keys. */
  function GroupDh(a: Pub, b: Secret): (s: Shared) { Shared([a * b]) }

  function ToySeal(k: Pub, d: Data, n: nat, s: Shared): (x: Cipher)
  {
    Cipher([k, n, |s.bytes|] + s.bytes + d)
  }

  function ToyOpen(x: Cipher, n: nat, s: Shared): (plain: Option<(Pub, Data)>)
  {
    var len := |s.bytes|;
    if |x.bytes| >= 3 + len && x.bytes[1] == n && x.bytes[2] == len && x.bytes[3..3 + len] == s.bytes
    then Some((x.bytes[0], x.bytes[3 + len..])) else None
  }

  const GROUP: Crypto := Crypto((a: Secret) => a, GroupDh, ToySeal, ToyOpen)

  lemma ToySealOpens(k: Pub, d: Data, n: nat, s: Shared)
    ensures ToyOpen(ToySeal(k, d, n, s), n, s) == Some((k, d))
  {
    var x, len := ToySeal(k, d, n, s).bytes, |s.bytes|;
    assert x[3..3 + len] == s.bytes && x[3 + len..] == d;
  }

  lemma ToyOneSecret(k: Pub, d: Data, n: nat, s: Shared, tried: Shared)
    ensures ToyOpen(ToySeal(k, d, n, s), n, tried).Some? ==> tried == s
  {
    var x, len := ToySeal(k, d, n, s).bytes, |s.bytes|;
    assert x[2] == len && x[3..3 + len] == s.bytes;
  }

  lemma GroupIsLawful()
    ensures Lawful(GROUP)
  {
    forall k: Pub, d: Data, n: nat, s: Shared ensures ToyOpen(ToySeal(k, d, n, s), n, s) == Some((k, d)) {
      ToySealOpens(k, d, n, s);
    }
    forall a: Secret, b: Secret ensures GroupDh(a, b) == GroupDh(b, a) {
      assert a * b == b * a;
    }
  }

  /** A small key, or one of the two forgotten ones. */
  predicate RunKey(k: Secret) { 1 <= k <= 99 || k == 10007 || k == 10008 }

  lemma SmallProduct(x: nat, y: nat)
    requires x <= 99 && y <= 99
    ensures x * y <= 9801
  {
    assert x * y <= 99 * y;
  }

  /** No other two keys of the run have the product of a forgotten key and another. */
  lemma ProductsDiffer(a: Secret, b: Secret, x: Secret, y: Secret)
    requires (a == 10007 || a == 10008) && RunKey(b) && RunKey(x) && RunKey(y) && a * b == x * y
    ensures SamePair(a, b, x, y)
  {
    if x <= 99 && y <= 99 {
      SmallProduct(x, y);
    } else if x > 99 {
      assert x == 10007 || x == 10008;
    } else {
      assert y == 10007 || y == 10008;
    }
  }

  /** Two ends with the keys that are left at the end of the run. */
  ghost predicate HaveLastKeys(p: Peer, q: Peer)
  {
    && p.lost == {10007, 10008} && q.lost == {}
    && Among(p, {1, 2, 60, 63, 10007, 10008}) && Among(q, {20, 21, 22, 23, 40})
  }

  lemma KeysAreRunKeys(p: Peer, q: Peer, k: Secret)
    requires HaveLastKeys(p, q) && InPlay(p, q, k)
    ensures RunKey(k) && (LostBy(p, q, k) ==> k == 10007 || k == 10008)
  {
  }

  lemma GroupOnlyPair(p: Peer, q: Peer, a: Secret, b: Secret, x: Secret, y: Secret)
    requires HaveLastKeys(p, q)
    ensures OnlyPair(GROUP, p, q, a, b, x, y)
  {
    if LostBy(p, q, a) && InPlay(p, q, b) && InPlay(p, q, x) && InPlay(p, q, y) &&
       SharedBy(GROUP, a, b) == SharedBy(GROUP, x, y) {
      KeysAreRunKeys(p, q, a);
      KeysAreRunKeys(p, q, b);
      KeysAreRunKeys(p, q, x);
      KeysAreRunKeys(p, q, y);
      assert GroupDh(a, b).bytes[0] == GroupDh(x, y).bytes[0];
      ProductsDiffer(a, b, x, y);
    }
  }

  lemma GroupOnlySecret(p: Peer, q: Peer, t: Traffic, k: Pub, a: Secret, b: Secret, x: Secret, y: Secret)
    ensures OnlySecret(GROUP, p, q, t, k, a, b, x, y)
  {
    var sealed, tried := SharedBy(GROUP, x, y), SharedBy(GROUP, a, b);
    if Sealed(GROUP, t, k, sealed) {
      var d :| SealedAs(GROUP, t, k, d, sealed);
      ToyOneSecret(k, d, t.nonce, sealed, tried);
    }
  }

  lemma GroupSeparates(p: Peer, q: Peer)
    requires HaveLastKeys(p, q)
    ensures Separated(GROUP, p, q)
  {
    forall a, b, x, y ensures OnlyPair(GROUP, p, q, a, b, x, y) {
      GroupOnlyPair(p, q, a, b, x, y);
    }
    forall t, k, a, b, x, y ensures OnlySecret(GROUP, p, q, t, k, a, b, x, y) {
      GroupOnlySecret(p, q, t, k, a, b, x, y);
    }
  }

  /** So the run above is one of group Diffie-Hellman. */
  lemma GroupIsSeparated()
    ensures Lawful(GROUP) && Separated(GROUP, Left7(GROUP), Right6(GROUP))
  {
    GroupIsLawful();
    LastKeys(GROUP);
    GroupSeparates(Left7(GROUP), Right6(GROUP));
  }
}
