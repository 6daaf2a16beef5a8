/** Encrypted sessions (ironwood/encrypted/session.go): what each handler does
    to a session, with the cryptography abstract. */
module Ratchet {
  import opened Basics

  type Secret = nat
  type Pub = nat
  datatype Shared = Shared(bytes: seq<nat>)
  datatype Cipher = Cipher(bytes: seq<nat>)
  type Data = seq<nat>

  /** Key pairs, Diffie-Hellman and authenticated boxes. */
  datatype Crypto = Crypto(
    pub: Secret -> Pub,
    dh: (Pub, Secret) -> Shared,
    seal: (Pub, Data, nat, Shared) -> Cipher,
    open: (Cipher, nat, Shared) -> Option<(Pub, Data)>)

  /** Diffie-Hellman is symmetric (section 6.1 of RFC 7748) and a box opens
      under the key and nonce that sealed it. */
  ghost predicate Lawful(c: Crypto)
  {
    && (forall a: Secret, b: Secret :: c.dh(c.pub(a), b) == c.dh(c.pub(b), a))
    && (forall k: Pub, d: Data, n: nat, s: Shared :: c.open(c.seal(k, d, n, s), n, s) == Some((k, d)))
  }

  /** sessionInit, the body of init and ack messages. */
  datatype Init = Init(current: Pub, next: Pub, keySeq: nat, seqno: nat)

  datatype Traffic = Traffic(localKeySeq: nat, remoteKeySeq: nat, nonce: nat, box: Cipher)

  /** The fields of sessionInfo. */
  datatype Sess = Sess(
    seqno: nat, remoteKeySeq: nat, current: Pub, next: Pub,
    localKeySeq: nat, recvPriv: Secret, sendPriv: Secret, nextPriv: Secret,
    recvShared: Shared, recvNonce: nat, sendShared: Shared, sendNonce: nat,
    nextSendShared: Shared, nextSendNonce: nat, nextRecvShared: Shared, nextRecvNonce: nat)

  /** `_fixShared`: recompute the four shared secrets and reset the nonces. */
  function FixShared(c: Crypto, s: Sess, recvNonce: nat, sendNonce: nat): (s': Sess)
  {
    s.(recvShared := c.dh(s.current, s.recvPriv), sendShared := c.dh(s.current, s.sendPriv),
       nextSendShared := c.dh(s.next, s.sendPriv), nextRecvShared := c.dh(s.next, s.recvPriv),
       nextSendNonce := 0, nextRecvNonce := 0, recvNonce := recvNonce, sendNonce := sendNonce)
  }

  /** Advance our own keys by one. */
  function Rotate(s: Sess, made: Secret): (s': Sess)
  {
    s.(recvPriv := s.sendPriv, sendPriv := s.nextPriv, nextPriv := made, localKeySeq := s.localKeySeq + 1)
  }

  const UNSET: Shared := Shared([])

  /** `newSession`, or `_sessionForInit` with the keys of a waiting buffer. */
  function NewSess(c: Crypto, i: Init, recv: Secret, send: Secret, next: Secret): (s: Sess)
  {
    FixShared(c, Sess((i.seqno + U64 - 1) % U64, 0, i.current, i.next, 0, recv, send, next, UNSET, 0, UNSET, 0, UNSET,
                      0, UNSET, 0), 0, 0)
  }

  /** `_handleUpdate`: take the remote's keys and advance ours, keeping the send nonce. */
  function Updated(c: Crypto, s: Sess, i: Init, made: Secret): (s': Sess)
  {
    FixShared(c, Rotate(s.(current := i.current, next := i.next, seqno := i.seqno, remoteKeySeq := i.keySeq), made),
              0, s.sendNonce)
  }

  /** `handleInit` and `handleAck` ignore anything not newer. */
  function HandleInit(c: Crypto, s: Sess, i: Init, made: Secret): (s': Sess)
  {
    if i.seqno <= s.seqno then s else Updated(c, s, i, made)
  }

  /** `_sendInit` and `_sendAck`: our send and next keys. */
  function InitFor(c: Crypto, s: Sess, now: nat): (i: Init)
  {
    Init(c.pub(s.sendPriv), c.pub(s.nextPriv), s.localKeySeq, now)
  }

  /** `doSend`, the state: bump the nonce, rotating keys when it overflows. */
  function Bumped(c: Crypto, s: Sess, made: Secret): (s': Sess)
  {
    var n := (s.sendNonce + 1) % U64;
    if n == 0 then FixShared(c, Rotate(s.(sendNonce := n), made), 0, 0) else s.(sendNonce := n)
  }

  /** `doSend`, the message. */
  function TrafficFor(c: Crypto, s: Sess, d: Data): (t: Traffic)
  {
    Traffic(s.localKeySeq, s.remoteKeySeq, s.sendNonce, c.seal(c.pub(s.nextPriv), d, s.sendNonce, s.sendShared))
  }

  datatype Case = CurrentToRecv | NextToSend | NextToRecv | Senseless

  /** Which shared secret `doRecv` tries, from the message's labels. */
  function CaseOf(s: Sess, t: Traffic): (k: Case)
  {
    var fromCurrent, fromNext := t.localKeySeq == s.remoteKeySeq, t.localKeySeq == s.remoteKeySeq + 1;
    var toRecv, toSend := t.remoteKeySeq + 1 == s.localKeySeq, t.remoteKeySeq == s.localKeySeq;
    if fromCurrent && toRecv then CurrentToRecv
    else if fromNext && toSend then NextToSend
    else if fromNext && toRecv then NextToRecv
    else Senseless
  }

  function NonceOf(s: Sess, k: Case): (n: nat)
  {
    match k
    case CurrentToRecv => s.recvNonce
    case NextToSend => s.nextSendNonce
    case NextToRecv => s.nextRecvNonce
    case Senseless => 0
  }

  function SharedOf(s: Sess, k: Case): (n: Shared)
  {
    match k
    case CurrentToRecv => s.recvShared
    case NextToSend => s.nextSendShared
    case NextToRecv => s.nextRecvShared
    case Senseless => UNSET
  }

  /** The remote ratcheted forward: follow it and advance our own keys. */
  function Follow(c: Crypto, s: Sess, inner: Pub, nonce: nat, made: Secret): (s': Sess)
  {
    FixShared(c, Rotate(s.(current := s.next, next := inner, remoteKeySeq := s.remoteKeySeq + 1), made), nonce, 0)
  }

  function OnSuccess(c: Crypto, s: Sess, k: Case, nonce: nat, inner: Pub, mayRotate: bool, made: Secret): (s': Sess)
  {
    match k
    case CurrentToRecv => s.(recvNonce := nonce)
    case NextToSend => if mayRotate then Follow(c, s, inner, nonce, made) else s.(nextSendNonce := nonce)
    case NextToRecv => if mayRotate then Follow(c, s, inner, nonce, made) else s.(nextRecvNonce := nonce)
    case Senseless => s
  }

  datatype Outcome = Replayed | OutOfSync | Delivered(data: Data)

  /** `doRecv`: the new state and what becomes of the message.  `mayRotate`
      says that the last rotation is more than a minute old. */
  function Receive(c: Crypto, s: Sess, t: Traffic, mayRotate: bool, made: Secret): (r: (Sess, Outcome))
  {
    var k := CaseOf(s, t);
    if k == Senseless then (s, OutOfSync)
    else if t.nonce <= NonceOf(s, k) then (s, Replayed)
    else match c.open(t.box, t.nonce, SharedOf(s, k))
      case None => (s, OutOfSync)
      case Some(plain) => (OnSuccess(c, s, k, t.nonce, plain.0, mayRotate, made), Delivered(plain.1))
  }

  /** sessionInfo, updated in place. */
  class Session {
    const crypto: Crypto
    var seqno: nat
    var remoteKeySeq: nat
    var current: Pub
    var next: Pub
    var localKeySeq: nat
    var recvPriv: Secret
    var sendPriv: Secret
    var nextPriv: Secret
    var recvShared: Shared
    var recvNonce: nat
    var sendShared: Shared
    var sendNonce: nat
    var nextSendShared: Shared
    var nextSendNonce: nat
    var nextRecvShared: Shared
    var nextRecvNonce: nat

    ghost function State(): (s: Sess)
      reads this
    {
      Sess(seqno, remoteKeySeq, current, next, localKeySeq, recvPriv, sendPriv, nextPriv, recvShared, recvNonce,
           sendShared, sendNonce, nextSendShared, nextSendNonce, nextRecvShared, nextRecvNonce)
    }

    constructor (c: Crypto, i: Init, recv: Secret, send: Secret, nextKey: Secret)
      ensures crypto == c && State() == NewSess(c, i, recv, send, nextKey)
    {
      crypto := c;
      seqno := (i.seqno + U64 - 1) % U64;
      remoteKeySeq, localKeySeq := 0, 0;
      current, next := i.current, i.next;
      recvPriv, sendPriv, nextPriv := recv, send, nextKey;
      new;
      FixSharedKeys(0, 0);
    }

    method FixSharedKeys(rNonce: nat, sNonce: nat)
      modifies this
      ensures State() == FixShared(crypto, old(State()), rNonce, sNonce)
    {
      recvShared, sendShared := crypto.dh(current, recvPriv), crypto.dh(current, sendPriv);
      nextSendShared, nextRecvShared := crypto.dh(next, sendPriv), crypto.dh(next, recvPriv);
      ResetNonces(rNonce, sNonce);
    }

    method ResetNonces(rNonce: nat, sNonce: nat)
      modifies this`nextSendNonce, this`nextRecvNonce, this`recvNonce, this`sendNonce
      ensures nextSendNonce == nextRecvNonce == 0 && recvNonce == rNonce && sendNonce == sNonce
    {
      nextSendNonce, nextRecvNonce, recvNonce, sendNonce := 0, 0, rNonce, sNonce;
    }

    method RotateKeys(made: Secret)
      modifies this
      ensures State() == Rotate(old(State()), made)
    {
      recvPriv := sendPriv;
      sendPriv := nextPriv;
      nextPriv := made;
      localKeySeq := localKeySeq + 1;
    }

    /** `_handleUpdate` behind the sequence check; `ok` when the update applied. */
    method Update(i: Init, made: Secret) returns (ok: bool)
      modifies this
      ensures State() == HandleInit(crypto, old(State()), i, made)
      ensures ok <==> i.seqno > old(seqno)
    {
      ok := i.seqno > seqno;
      if ok {
        current := i.current;
        next := i.next;
        seqno := i.seqno;
        remoteKeySeq := i.keySeq;
        RotateKeys(made);
        FixSharedKeys(0, sendNonce);
      }
    }

    method DoSend(d: Data, made: Secret) returns (t: Traffic)
      modifies this
      ensures State() == Bumped(crypto, old(State()), made)
      ensures t == TrafficFor(crypto, State(), d)
    {
      sendNonce := (sendNonce + 1) % U64;
      if sendNonce == 0 {
        RotateKeys(made);
        FixSharedKeys(0, 0);
      }
      t := Traffic(localKeySeq, remoteKeySeq, sendNonce, crypto.seal(crypto.pub(nextPriv), d, sendNonce, sendShared));
    }

    method FollowRemote(inner: Pub, nonce: nat, made: Secret)
      modifies this
      ensures State() == Follow(crypto, old(State()), inner, nonce, made)
    {
      current := next;
      next := inner;
      remoteKeySeq := remoteKeySeq + 1;
      RotateKeys(made);
      FixSharedKeys(nonce, 0);
    }

    method DoRecv(t: Traffic, mayRotate: bool, made: Secret) returns (outcome: Outcome)
      modifies this
      ensures (State(), outcome) == Receive(crypto, old(State()), t, mayRotate, made)
    {
      var fromCurrent := t.localKeySeq == remoteKeySeq;
      var fromNext := t.localKeySeq == remoteKeySeq + 1;
      var toRecv := t.remoteKeySeq + 1 == localKeySeq;
      var toSend := t.remoteKeySeq == localKeySeq;
      var shared: Shared;
      if fromCurrent && toRecv {
        if !(recvNonce < t.nonce) {
          return Replayed;
        }
        shared := recvShared;
      } else if fromNext && toSend {
        if !(nextSendNonce < t.nonce) {
          return Replayed;
        }
        shared := nextSendShared;
      } else if fromNext && toRecv {
        if !(nextRecvNonce < t.nonce) {
          return Replayed;
        }
        shared := nextRecvShared;
      } else {
        return OutOfSync;
      }
      match crypto.open(t.box, t.nonce, shared)
      case None =>
        outcome := OutOfSync;
      case Some(plain) =>
        if fromCurrent && toRecv {
          recvNonce := t.nonce;
        } else if fromNext && toSend {
          nextSendNonce := t.nonce;
          if mayRotate {
            FollowRemote(plain.0, t.nonce, made);
          }
        } else {
          nextRecvNonce := t.nonce;
          if mayRotate {
            FollowRemote(plain.0, t.nonce, made);
          }
        }
        outcome := Delivered(plain.1);
    }
  }
}

/** Two endpoints over a network that loses, duplicates and reorders. */
module SessionProtocol {
  import opened Basics
  import opened Ratchet

  datatype Msg = InitMsg(init: Init) | AckMsg(init: Init) | TrafficMsg(traffic: Traffic)

  /** What the session manager holds for the other endpoint. */
  datatype End = Nothing | Waiting(sendPriv: Secret, nextPriv: Secret, init: Init, data: Data) | Open(sess: Sess)

  /** What a traffic message was sealed with: our key, the remote's, both labels and the nonce. */
  datatype Seal = Seal(key: Secret, to: Pub, local: nat, remote: nat, nonce: nat)

  /** One endpoint: everything it ever sent, the keys it ever held in order,
      every (send key, nonce) pair it sealed traffic under, the keys it offered
      without keeping them, and the last init or ack its session took. */
  datatype Peer = Peer(end: End, out: set<Msg>, keys: map<nat, Secret>, seals: seq<Seal>, lost: set<Secret>,
                       taken: Option<Init>)

  datatype Action =
    | Write(data: Data, now: nat)
    | Get(msg: Msg, mayRotate: bool, now: nat)

  function Grown(keys: map<nat, Secret>, s: Sess): (keys': map<nat, Secret>)
  {
    keys[s.localKeySeq + 2 := s.nextPriv]
  }

  function SealOf(s: Sess): (x: Seal) { Seal(s.sendPriv, s.current, s.localKeySeq, s.remoteKeySeq, s.sendNonce) }

  /** `doSend` on an open session. */
  function SendOn(c: Crypto, p: Peer, s: Sess, d: Data, made: Secret): (p': Peer)
  {
    var s' := Bumped(c, s, made);
    p.(end := Open(s'), out := p.out + {TrafficMsg(TrafficFor(c, s', d))}, keys := Grown(p.keys, s'),
       seals := p.seals + [SealOf(s')])
  }

  /** `handleInit` of a session, which is acknowledged when it is news. */
  function TakeInit(c: Crypto, p: Peer, s: Sess, i: Init, now: nat, made: Secret): (p': Peer)
  {
    if i.seqno <= s.seqno then p
    else
      var s' := Updated(c, s, i, made);
      p.(end := Open(s'), out := p.out + {AckMsg(InitFor(c, s', now))}, keys := Grown(p.keys, s'), taken := Some(i))
  }

  /** The session that `_sessionForInit` creates, with the keys of a waiting buffer if there is one. */
  function Begin(c: Crypto, p: Peer, i: Init, made: seq<Secret>): (p': Peer)
    requires |made| >= 5 && !p.end.Open?
  {
    var send := if p.end.Waiting? then p.end.sendPriv else made[1];
    var next := if p.end.Waiting? then p.end.nextPriv else made[2];
    p.(end := Open(NewSess(c, i, made[0], send, next)), keys := map[0 := made[0], 1 := send, 2 := next],
       taken := Some(i))
  }

  /** `_handleInit` or `_handleAck` of the manager without a session: creation
      together with the first `handleInit`, then the data that waited. */
  function Accept(c: Crypto, p: Peer, i: Init, now: nat, made: seq<Secret>): (p': Peer)
    requires |made| >= 5 && !p.end.Open?
  {
    var p0 := Begin(c, p, i, made);
    var p1 := TakeInit(c, p0, p0.end.sess, i, now, made[3]);
    if p.end.Waiting? then SendOn(c, p1, p1.end.sess, p.end.data, made[4]) else p1
  }

  /** Traffic without a session, buffer or not: an init whose private keys are forgotten. */
  function ThrowAway(c: Crypto, p: Peer, now: nat, current: Secret, next: Secret): (p': Peer)
  {
    p.(out := p.out + {InitMsg(Init(c.pub(current), c.pub(next), 0, now))}, lost := p.lost + {current, next})
  }

  /** One step of an endpoint.  `made` are the keys generated on the way. */
  function Act(c: Crypto, p: Peer, a: Action, made: seq<Secret>): (p': Peer)
    requires |made| >= 5
  {
    match a
    case Write(d, now) =>
      (match p.end
       case Open(s) => SendOn(c, p, s, d, made[0])
       case Waiting(_, _, i, _) => p.(end := p.end.(data := d), out := p.out + {InitMsg(i)})
       case Nothing =>
         var i := Init(c.pub(made[0]), c.pub(made[1]), 0, now);
         p.(end := Waiting(made[0], made[1], i, d), out := p.out + {InitMsg(i)},
            keys := map[1 := made[0], 2 := made[1]]))
    case Get(TrafficMsg(t), mayRotate, now) =>
      if !p.end.Open? then ThrowAway(c, p, now, made[0], made[1]) else
      var s := p.end.sess;
      var r := Receive(c, s, t, mayRotate, made[0]);
      p.(end := Open(r.0), keys := Grown(p.keys, r.0),
         out := if r.1.OutOfSync? then p.out + {InitMsg(InitFor(c, s, now))} else p.out)
    case Get(InitMsg(i), _, now) =>
      if p.end.Open? then TakeInit(c, p, p.end.sess, i, now, made[0]) else Accept(c, p, i, now, made)
    case Get(AckMsg(i), _, now) =>
      if p.end.Open? then TakeInit(c, p, p.end.sess, i, now, made[0]).(out := p.out) else Accept(c, p, i, now, made)
  }

  /** `k` is not among the keys. */
  ghost predicate NewKey(keys: map<nat, Secret>, k: Secret) { forall n :: n in keys ==> keys[n] != k }

  /** `p` never held or offered `k`. */
  ghost predicate NewTo(p: Peer, k: Secret) { NewKey(p.keys, k) && k !in p.lost }

  /** New keys differ from each other and from all keys generated before. */
  ghost predicate Fresh(p: Peer, made: seq<Secret>)
  {
    && |made| >= 5
    && (forall i, j :: 0 <= i < j < |made| ==> made[i] != made[j])
    && (forall i :: 0 <= i < |made| ==> NewTo(p, made[i]))
  }

  /** Endpoint `p` takes a step while the other one is `q`: it may only receive
      what `q` sent, the clock is past the epoch, and no key is generated twice. */
  ghost predicate Step(c: Crypto, p: Peer, q: Peer, a: Action, made: seq<Secret>, p': Peer)
  {
    && Fresh(p, made) && Fresh(q, made)
    && 0 < a.now < U64
    && (a.Get? ==> a.msg in q.out)
    && p' == Act(c, p, a, made)
  }

  // ------------------------------------------------------- an endpoint on its own

  predicate Has(keys: map<nat, Secret>, n: nat, k: Secret) { n in keys && keys[n] == k }

  /** Exactly K[0] to K[n] exist. */
  ghost predicate UpTo(keys: map<nat, Secret>, n: nat)
  {
    forall m :: m in keys <==> 0 <= m <= n
  }

  ghost predicate Distinct(keys: map<nat, Secret>)
  {
    forall m, n :: m in keys && n in keys && m != n ==> keys[m] != keys[n]
  }

  /** Local keys are K[n], K[n+1], K[n+2], and the four cached shared secrets
      belong to them and the stored remote keys. */
  ghost predicate LocalSess(c: Crypto, keys: map<nat, Secret>, s: Sess)
  {
    && Has(keys, s.localKeySeq, s.recvPriv) && Has(keys, s.localKeySeq + 1, s.sendPriv)
    && Has(keys, s.localKeySeq + 2, s.nextPriv)
    && s.sendNonce < U64
    && s.recvShared == c.dh(s.current, s.recvPriv) && s.sendShared == c.dh(s.current, s.sendPriv)
    && s.nextSendShared == c.dh(s.next, s.sendPriv) && s.nextRecvShared == c.dh(s.next, s.recvPriv)
  }

  /** The open session `s` fits the key sequence, with nothing beyond K[n+2]. */
  ghost predicate Fits(c: Crypto, keys: map<nat, Secret>, s: Sess)
  {
    LocalSess(c, keys, s) && Distinct(keys) && UpTo(keys, s.localKeySeq + 2)
  }

  ghost predicate LocalEnd(c: Crypto, p: Peer)
  {
    match p.end
    case Nothing => p.keys == map[]
    case Waiting(send, next, i, _) =>
      p.keys.Keys == {1, 2} && p.keys[1] == send && p.keys[2] == next && send != next && GoodInit(c, p.keys, i)
    case Open(s) => Fits(c, p.keys, s) && p.taken.Some?
  }

  /** `p`'s side of the ratchet is in order; kept keys are not forgotten ones. */
  ghost predicate LocalOk(c: Crypto, p: Peer)
  {
    LocalEnd(c, p) && (forall k :: k in p.lost ==> NewKey(p.keys, k))
  }

  /** Key sequences and forgotten keys only grow. */
  ghost predicate Extends(k: map<nat, Secret>, k': map<nat, Secret>)
  {
    forall n :: n in k ==> n in k' && k'[n] == k[n]
  }

  ghost predicate Grows(p: Peer, p': Peer) { Extends(p.keys, p'.keys) && p.lost <= p'.lost }

  lemma GrowKeys(keys: map<nat, Secret>, n: nat, k: Secret)
    requires Distinct(keys) && UpTo(keys, n) && NewKey(keys, k)
    ensures Distinct(keys[n + 1 := k]) && Extends(keys, keys[n + 1 := k]) && UpTo(keys[n + 1 := k], n + 1)
  {
  }

  /** Advancing our keys with a new one, towards any remote keys. */
  lemma RotateFits(c: Crypto, keys: map<nat, Secret>, s: Sess, s1: Sess, made: Secret, rn: nat, sn: nat)
    requires Fits(c, keys, s) && NewKey(keys, made) && sn < U64 && s1.localKeySeq == s.localKeySeq
    requires s1.recvPriv == s.recvPriv && s1.sendPriv == s.sendPriv && s1.nextPriv == s.nextPriv
    ensures var s' := FixShared(c, Rotate(s1, made), rn, sn);
            && Fits(c, Grown(keys, s'), s') && Extends(keys, Grown(keys, s'))
            && Grown(keys, s') == keys[s.localKeySeq + 3 := made]
  {
    var n := s.localKeySeq;
    var s' := FixShared(c, Rotate(s1, made), rn, sn);
    GrowKeys(keys, n + 2, made);
    var keys' := keys[n + 3 := made];
    assert Grown(keys, s') == keys';
    assert Has(keys', n + 1, s'.recvPriv) && Has(keys', n + 2, s'.sendPriv) && Has(keys', n + 3, s'.nextPriv);
  }

  /** The keys grew by at most the new one. */
  ghost predicate GrewBy(keys: map<nat, Secret>, keys': map<nat, Secret>, made: Secret)
  {
    Extends(keys, keys') && forall n :: n in keys' ==> Has(keys, n, keys'[n]) || keys'[n] == made
  }

  lemma UpdateFits(c: Crypto, keys: map<nat, Secret>, s: Sess, i: Init, made: Secret)
    requires Fits(c, keys, s) && NewKey(keys, made)
    ensures var s' := Updated(c, s, i, made); Fits(c, Grown(keys, s'), s') && GrewBy(keys, Grown(keys, s'), made)
  {
    var s1 := s.(current := i.current, next := i.next, seqno := i.seqno, remoteKeySeq := i.keySeq);
    RotateFits(c, keys, s, s1, made, 0, s.sendNonce);
  }

  lemma BumpFits(c: Crypto, keys: map<nat, Secret>, s: Sess, made: Secret)
    requires Fits(c, keys, s) && NewKey(keys, made)
    ensures var s' := Bumped(c, s, made); Fits(c, Grown(keys, s'), s') && GrewBy(keys, Grown(keys, s'), made)
  {
    var n := (s.sendNonce + 1) % U64;
    if n == 0 {
      RotateFits(c, keys, s, s.(sendNonce := n), made, 0, 0);
    } else {
      assert Grown(keys, s) == keys;
    }
  }

  lemma ReceiveFits(c: Crypto, keys: map<nat, Secret>, s: Sess, t: Traffic, may: bool, made: Secret)
    requires Fits(c, keys, s) && NewKey(keys, made)
    ensures var s' := Receive(c, s, t, may, made).0; Fits(c, Grown(keys, s'), s') && GrewBy(keys, Grown(keys, s'), made)
  {
    var k := CaseOf(s, t);
    var r := Receive(c, s, t, may, made);
    if r.1.Delivered? && k != CurrentToRecv && may {
      var inner := c.open(t.box, t.nonce, SharedOf(s, k)).value.0;
      var s1 := s.(current := s.next, next := inner, remoteKeySeq := s.remoteKeySeq + 1);
      RotateFits(c, keys, s, s1, made, t.nonce, 0);
    } else {
      assert Grown(keys, r.0) == keys;
    }
  }

  lemma GrewStaysApart(p: Peer, p': Peer, made: Secret)
    requires forall k :: k in p.lost ==> NewKey(p.keys, k)
    requires GrewBy(p.keys, p'.keys, made) && made !in p.lost && p'.lost == p.lost
    ensures forall k :: k in p'.lost ==> NewKey(p'.keys, k)
  {
  }

  lemma SendLocal(c: Crypto, p: Peer, d: Data, made: Secret)
    requires LocalOk(c, p) && p.end.Open? && NewTo(p, made)
    ensures var p' := SendOn(c, p, p.end.sess, d, made); LocalOk(c, p') && GrewBy(p.keys, p'.keys, made)
  {
    BumpFits(c, p.keys, p.end.sess, made);
    GrewStaysApart(p, SendOn(c, p, p.end.sess, d, made), made);
  }

  lemma TakeLocal(c: Crypto, p: Peer, i: Init, now: nat, made: Secret)
    requires LocalOk(c, p) && p.end.Open? && NewTo(p, made)
    ensures var p' := TakeInit(c, p, p.end.sess, i, now, made);
            LocalOk(c, p') && p'.end.Open? && GrewBy(p.keys, p'.keys, made) && p'.lost == p.lost
  {
    if i.seqno > p.end.sess.seqno {
      UpdateFits(c, p.keys, p.end.sess, i, made);
      GrewStaysApart(p, TakeInit(c, p, p.end.sess, i, now, made), made);
    }
  }

  lemma BeginLocal(c: Crypto, p: Peer, i: Init, made: seq<Secret>)
    requires LocalOk(c, p) && !p.end.Open? && Fresh(p, made)
    ensures var p0 := Begin(c, p, i, made);
            && LocalOk(c, p0) && Extends(p.keys, p0.keys) && p0.lost == p.lost
            && (forall n :: n in p0.keys ==> Has(p.keys, n, p0.keys[n]) || p0.keys[n] in made[..3])
  {
    var p0 := Begin(c, p, i, made);
    assert made[0] in made[..3] && made[1] in made[..3] && made[2] in made[..3];
    forall k | k in p0.lost ensures NewKey(p0.keys, k) {
      assert NewTo(p, made[0]) && NewTo(p, made[1]) && NewTo(p, made[2]);
    }
  }

  /** Every new key comes from `made`. */
  ghost predicate GrewFrom(p: Peer, p': Peer, made: seq<Secret>)
  {
    && Grows(p, p')
    && (forall n :: n in p'.keys ==> Has(p.keys, n, p'.keys[n]) || p'.keys[n] in made)
    && (forall k :: k in p'.lost ==> k in p.lost || k in made)
  }

  lemma AcceptLocal(c: Crypto, p: Peer, i: Init, now: nat, made: seq<Secret>)
    requires LocalOk(c, p) && !p.end.Open? && Fresh(p, made)
    ensures var p' := Accept(c, p, i, now, made); LocalOk(c, p') && p'.end.Open? && GrewFrom(p, p', made)
  {
    var p0 := Begin(c, p, i, made);
    BeginLocal(c, p, i, made);
    StillNew(p, p0, made, 3);
    var p1 := TakeInit(c, p0, p0.end.sess, i, now, made[3]);
    TakeLocal(c, p0, i, now, made[3]);
    if p.end.Waiting? {
      assert NewTo(p0, made[4]) by { StillNew(p, p0, made, 4); }
      SendLocal(c, p1, p.end.data, made[4]);
    }
  }

  lemma StillNew(p: Peer, p0: Peer, made: seq<Secret>, i: nat)
    requires Fresh(p, made) && 3 <= i < |made| && p0.lost == p.lost
    requires forall n :: n in p0.keys ==> Has(p.keys, n, p0.keys[n]) || p0.keys[n] in made[..3]
    ensures NewTo(p0, made[i])
  {
    assert NewTo(p, made[i]);
  }

  /** The local half needs nothing from the other side: it holds whatever
      messages arrive, forged ones included. */
  lemma ActLocal(c: Crypto, p: Peer, a: Action, made: seq<Secret>)
    requires LocalOk(c, p) && Fresh(p, made) && 0 < a.now < U64
    ensures var p' := Act(c, p, a, made); LocalOk(c, p') && GrewFrom(p, p', made)
  {
    var p' := Act(c, p, a, made);
    assert NewTo(p, made[0]) && NewTo(p, made[1]);
    match a
    case Write(d, _) => if p.end.Open? { SendLocal(c, p, d, made[0]); }
    case Get(TrafficMsg(t), may, _) =>
      if p.end.Open? {
        ReceiveFits(c, p.keys, p.end.sess, t, may, made[0]);
        GrewStaysApart(p, p', made[0]);
      }
    case Get(InitMsg(i), _, now) =>
      if p.end.Open? { TakeLocal(c, p, i, now, made[0]); } else { AcceptLocal(c, p, i, now, made); }
    case Get(AckMsg(i), _, now) =>
      if p.end.Open? { TakeLocal(c, p, i, now, made[0]); } else { AcceptLocal(c, p, i, now, made); }
  }

  // ------------------------------------------------------------- the other endpoint

  /** `x` is the public half of the n-th key. */
  predicate Names(c: Crypto, keys: map<nat, Secret>, n: nat, x: Pub) { n in keys && x == c.pub(keys[n]) }

  /** An init offers K[n+1] and K[n+2] under label n. */
  predicate GoodInit(c: Crypto, keys: map<nat, Secret>, i: Init)
  {
    0 < i.seqno < U64 && Names(c, keys, i.keySeq + 1, i.current) && Names(c, keys, i.keySeq + 2, i.next)
  }

  ghost predicate IsLost(c: Crypto, lost: set<Secret>, x: Pub) { exists a :: a in lost && x == c.pub(a) }

  /** An init offers forgotten keys. */
  ghost predicate LostInit(c: Crypto, lost: set<Secret>, i: Init)
  {
    0 < i.seqno < U64 && i.keySeq == 0 && IsLost(c, lost, i.current) && IsLost(c, lost, i.next)
  }

  /** Stored remote keys are the peer's K[r+1] and K[r+2]. */
  predicate KeptKeys(c: Crypto, remote: map<nat, Secret>, s: Sess)
  {
    Names(c, remote, s.remoteKeySeq + 1, s.current) && Names(c, remote, s.remoteKeySeq + 2, s.next)
  }

  ghost predicate LostKeys(c: Crypto, lost: set<Secret>, s: Sess)
  {
    s.remoteKeySeq == 0 && IsLost(c, lost, s.current) && IsLost(c, lost, s.next)
  }

  /** Local keys are K[n], K[n+1], K[n+2]; remote keys are the peer's K[r+1],
      K[r+2]; the four cached shared secrets belong to them. */
  ghost predicate GoodSess(c: Crypto, keys: map<nat, Secret>, remote: map<nat, Secret>, s: Sess)
  {
    LocalSess(c, keys, s) && KeptKeys(c, remote, s)
  }

  /** The message carries key `k` and data `d` sealed under `shared`. */
  predicate SealedAs(c: Crypto, t: Traffic, k: Pub, d: Data, shared: Shared)
  {
    t.box == c.seal(k, d, t.nonce, shared)
  }

  ghost predicate Sealed(c: Crypto, t: Traffic, k: Pub, shared: Shared)
  {
    exists d :: SealedAs(c, t, k, d, shared)
  }

  /** Traffic labelled (n, r) is sealed between our K[n+1] and the remote's `x`
      and carries our K[n+2]. */
  ghost predicate SealedTo(c: Crypto, keys: map<nat, Secret>, x: Secret, t: Traffic)
  {
    && t.localKeySeq + 1 in keys && t.localKeySeq + 2 in keys
    && Sealed(c, t, c.pub(keys[t.localKeySeq + 2]), c.dh(c.pub(x), keys[t.localKeySeq + 1]))
  }

  /** Sealed to the remote's K[r+1]. */
  ghost predicate GoodTraffic(c: Crypto, keys: map<nat, Secret>, remote: map<nat, Secret>, t: Traffic)
  {
    t.remoteKeySeq + 1 in remote && SealedTo(c, keys, remote[t.remoteKeySeq + 1], t)
  }

  /** Sealed to a key that the remote has forgotten. */
  ghost predicate LostTraffic(c: Crypto, keys: map<nat, Secret>, lost: set<Secret>, t: Traffic)
  {
    exists x :: x in lost && SealedTo(c, keys, x, t)
  }

  ghost predicate GoodMsg(c: Crypto, p: Peer, q: Peer, m: Msg)
  {
    match m
    case InitMsg(i) => GoodInit(c, p.keys, i) || LostInit(c, p.lost, i)
    case AckMsg(i) => GoodInit(c, p.keys, i)
    case TrafficMsg(t) => GoodTraffic(c, p.keys, q.keys, t) || LostTraffic(c, p.keys, q.lost, t)
  }

  /** What `p` holds of the other side is what the last init or ack it took makes of it. */
  ghost predicate RemoteOk(c: Crypto, p: Peer, q: Peer)
    requires p.end.Open? && p.taken.Some?
  {
    || (GoodInit(c, q.keys, p.taken.value) && KeptKeys(c, q.keys, p.end.sess))
    || (LostInit(c, q.lost, p.taken.value) && LostKeys(c, q.lost, p.end.sess))
  }

  ghost predicate Apart(p: Peer, q: Peer)
  {
    (forall n :: n in p.keys ==> NewTo(q, p.keys[n])) && (forall k :: k in p.lost ==> NewTo(q, k))
  }

  ghost predicate PeerOk(c: Crypto, p: Peer, q: Peer)
  {
    && LocalOk(c, p) && Apart(p, q)
    && (p.end.Open? ==> RemoteOk(c, p, q))
    && (forall m :: m in p.out ==> GoodMsg(c, p, q, m))
  }

  lemma GoodMsgGrows(c: Crypto, p: Peer, q: Peer, p': Peer, q': Peer, m: Msg)
    requires GoodMsg(c, p, q, m) && Grows(p, p') && Grows(q, q')
    ensures GoodMsg(c, p', q', m)
  {
    match m
    case InitMsg(i) =>
    case AckMsg(i) =>
    case TrafficMsg(t) =>
      if LostTraffic(c, p.keys, q.lost, t) {
        var x :| x in q.lost && SealedTo(c, p.keys, x, t);
        assert SealedTo(c, p'.keys, x, t);
      }
  }

  /** The other side's step leaves what we hold in order. */
  lemma OtherSideGrows(c: Crypto, p: Peer, q: Peer, q': Peer, made: seq<Secret>)
    requires PeerOk(c, p, q) && GrewFrom(q, q', made) && Fresh(p, made)
    ensures PeerOk(c, p, q')
  {
    forall m | m in p.out ensures GoodMsg(c, p, q', m) {
      GoodMsgGrows(c, p, q, p, q', m);
    }
    ApartGrows(q, p, q', made);
  }

  lemma ApartGrows(p: Peer, q: Peer, p': Peer, made: seq<Secret>)
    requires Apart(p, q) || Apart(q, p)
    requires GrewFrom(p, p', made) && Fresh(q, made)
    ensures Apart(p', q) && Apart(q, p')
  {
    assert forall k :: k in made ==> NewTo(q, k);
  }

  // ------------------------------------------------------------------- separation

  /** The secret that two key pairs share. */
  function SharedBy(c: Crypto, a: Secret, b: Secret): (s: Shared) { c.dh(c.pub(a), b) }

  predicate SamePair(a: Secret, b: Secret, x: Secret, y: Secret) { (a == x && b == y) || (a == y && b == x) }

  /** `k` was generated by one of the two. */
  ghost predicate InPlay(p: Peer, q: Peer, k: Secret) { !NewTo(p, k) || !NewTo(q, k) }

  ghost predicate LostBy(p: Peer, q: Peer, k: Secret) { k in p.lost || k in q.lost }

  ghost predicate SentBy(p: Peer, q: Peer, t: Traffic) { TrafficMsg(t) in p.out || TrafficMsg(t) in q.out }

  /** A secret shared with the forgotten key `a` is shared by no other two of the
      keys generated so far. */
  ghost predicate OnlyPair(c: Crypto, p: Peer, q: Peer, a: Secret, b: Secret, x: Secret, y: Secret)
  {
    LostBy(p, q, a) && InPlay(p, q, b) && InPlay(p, q, x) && InPlay(p, q, y) &&
    SharedBy(c, a, b) == SharedBy(c, x, y) ==>
      SamePair(a, b, x, y)
  }

  /** A message sealed between `x` and `y` opens under the secret of `a` and `b`
      only if that is the same secret; asked of forgotten keys only. */
  ghost predicate OnlySecret(c: Crypto, p: Peer, q: Peer, t: Traffic, k: Pub, a: Secret, b: Secret, x: Secret,
                             y: Secret)
  {
    SentBy(p, q, t) && InPlay(p, q, a) && InPlay(p, q, b) && InPlay(p, q, x) && InPlay(p, q, y) &&
    (LostBy(p, q, a) || LostBy(p, q, x)) && Sealed(c, t, k, SharedBy(c, x, y)) &&
    c.open(t.box, t.nonce, SharedBy(c, a, b)).Some? ==>
      SharedBy(c, a, b) == SharedBy(c, x, y)
  }

  /** What is asked of the cryptography beyond its laws: of the finitely many keys
      and messages so far, forgotten keys do not collide with others.  Nothing is
      asked when no key was forgotten. */
  ghost predicate Separated(c: Crypto, p: Peer, q: Peer)
  {
    && (forall a, b, x, y :: OnlyPair(c, p, q, a, b, x, y))
    && (forall t, k, a, b, x, y :: OnlySecret(c, p, q, t, k, a, b, x, y))
  }

  lemma SeparatedOtherWay(c: Crypto, p: Peer, q: Peer)
    requires Separated(c, p, q)
    ensures Separated(c, q, p)
  {
    forall a, b, x, y ensures OnlyPair(c, q, p, a, b, x, y) {
      assert OnlyPair(c, p, q, a, b, x, y);
    }
    forall t, k, a, b, x, y ensures OnlySecret(c, q, p, t, k, a, b, x, y) {
      assert OnlySecret(c, p, q, t, k, a, b, x, y);
    }
  }

  lemma NothingLostIsSeparated(c: Crypto, p: Peer, q: Peer)
    requires p.lost == {} && q.lost == {}
    ensures Separated(c, p, q)
  {
  }

  /** What is separated later was separated before. */
  lemma SeparatedBefore(c: Crypto, p: Peer, q: Peer, p': Peer)
    requires Separated(c, p', q) && Grows(p, p') && p.out <= p'.out
    ensures Separated(c, p, q)
  {
    forall a, b, x, y ensures OnlyPair(c, p, q, a, b, x, y) {
      StillInPlay(p, q, p', b);
      StillInPlay(p, q, p', x);
      StillInPlay(p, q, p', y);
      assert OnlyPair(c, p', q, a, b, x, y);
    }
    forall t, k, a, b, x, y ensures OnlySecret(c, p, q, t, k, a, b, x, y) {
      StillInPlay(p, q, p', a);
      StillInPlay(p, q, p', b);
      StillInPlay(p, q, p', x);
      StillInPlay(p, q, p', y);
      assert OnlySecret(c, p', q, t, k, a, b, x, y);
    }
  }

  lemma StillInPlay(p: Peer, q: Peer, p': Peer, k: Secret)
    requires Grows(p, p')
    ensures InPlay(p, q, k) ==> InPlay(p', q, k)
  {
  }

  // -------------------------------------------------------------- which boxes open

  /** What was sealed with key `k` inside is what opens under `shared`. */
  ghost predicate OpensAs(c: Crypto, t: Traffic, k: Pub, shared: Shared)
  {
    exists d :: SealedAs(c, t, k, d, shared) && c.open(t.box, t.nonce, shared) == Some((k, d))
  }

  lemma SealedOpens(c: Crypto, t: Traffic, k: Pub, shared: Shared)
    requires Lawful(c) && Sealed(c, t, k, shared)
    ensures OpensAs(c, t, k, shared)
  {
    var d :| SealedAs(c, t, k, d, shared);
    assert SealedAs(c, t, k, d, shared) && c.open(c.seal(k, d, t.nonce, shared), t.nonce, shared) == Some((k, d));
  }

  /** Labels that hit an accepting case name the secret between the sender's
      K[n+1] and our K[r+1]. */
  lemma TriedIsNamed(c: Crypto, keys: map<nat, Secret>, remote: map<nat, Secret>, s: Sess, t: Traffic)
    requires GoodSess(c, keys, remote, s) && CaseOf(s, t) != Senseless
    ensures Names(c, remote, t.localKeySeq + 1, if CaseOf(s, t) == CurrentToRecv then s.current else s.next)
    ensures t.remoteKeySeq + 1 in keys && t.localKeySeq + 1 in remote
    ensures SharedOf(s, CaseOf(s, t)) == c.dh(c.pub(remote[t.localKeySeq + 1]), keys[t.remoteKeySeq + 1])
  {
  }

  /** When the labels hit an accepting case and both ends hold kept keys, the
      secret tried is exactly the one that sealed the message, so it opens to
      what was sent, and the key inside is the sender's K[n+2]. */
  lemma AcceptedTrafficOpens(c: Crypto, keys: map<nat, Secret>, remote: map<nat, Secret>, s: Sess, t: Traffic)
    requires Lawful(c) && GoodSess(c, keys, remote, s) && GoodTraffic(c, remote, keys, t) && CaseOf(s, t) != Senseless
    ensures SharedOf(s, CaseOf(s, t)) == c.dh(c.pub(keys[t.remoteKeySeq + 1]), remote[t.localKeySeq + 1])
    ensures OpensAs(c, t, c.pub(remote[t.localKeySeq + 2]), SharedOf(s, CaseOf(s, t)))
  {
    TriedIsNamed(c, keys, remote, s, t);
    var sealed := c.dh(c.pub(keys[t.remoteKeySeq + 1]), remote[t.localKeySeq + 1]);
    assert sealed == c.dh(c.pub(remote[t.localKeySeq + 1]), keys[t.remoteKeySeq + 1]);
    SealedOpens(c, t, c.pub(remote[t.localKeySeq + 2]), sealed);
  }

  /** A message sealed between one pair of keys does not open under another
      pair's secret, if a forgotten key is among them. */
  lemma OtherPairFails(c: Crypto, p: Peer, q: Peer, t: Traffic, k: Pub, x: Secret, y: Secret, a: Secret, b: Secret)
    requires Separated(c, p, q) && SentBy(p, q, t) && Sealed(c, t, k, SharedBy(c, x, y)) && !SamePair(a, b, x, y)
    requires InPlay(p, q, a) && InPlay(p, q, b) && InPlay(p, q, x) && InPlay(p, q, y)
    requires LostBy(p, q, a) || LostBy(p, q, x)
    ensures c.open(t.box, t.nonce, SharedBy(c, a, b)).None?
  {
    assert OnlySecret(c, p, q, t, k, a, b, x, y);
    assert OnlyPair(c, p, q, a, b, x, y) && OnlyPair(c, p, q, x, y, a, b);
  }

  /** The two private keys behind the secret that `doRecv` tries: one of ours, one of the remote's. */
  lemma TriedPair(c: Crypto, p: Peer, q: Peer, t: Traffic) returns (a: Secret, b: Secret)
    requires LocalOk(c, p) && p.end.Open? && RemoteOk(c, p, q) && CaseOf(p.end.sess, t) != Senseless
    ensures SharedOf(p.end.sess, CaseOf(p.end.sess, t)) == c.dh(c.pub(a), b) && !NewKey(p.keys, b)
    ensures if KeptKeys(c, q.keys, p.end.sess) then !NewKey(q.keys, a) else a in q.lost
  {
    var s := p.end.sess;
    var k := CaseOf(s, t);
    b := if k == NextToSend then s.sendPriv else s.recvPriv;
    var x := if k == CurrentToRecv then s.current else s.next;
    if KeptKeys(c, q.keys, s) {
      a := q.keys[if k == CurrentToRecv then s.remoteKeySeq + 1 else s.remoteKeySeq + 2];
    } else {
      a :| a in q.lost && x == c.pub(a);
    }
  }

  /** A pair tried and a pair sealed differ as soon as either has a forgotten key. */
  lemma PairsDiffer(c: Crypto, p: Peer, q: Peer, a: Secret, b: Secret, x: Secret, y: Secret)
    requires LocalOk(c, p) && LocalOk(c, q) && Apart(p, q) && !NewKey(p.keys, b) && !NewKey(q.keys, y)
    requires (a in q.lost && !NewTo(p, x)) || (!NewKey(q.keys, a) && x in p.lost)
    ensures !SamePair(a, b, x, y)
  {
  }

  lemma SealedByKept(c: Crypto, keys: map<nat, Secret>, x: Secret, t: Traffic) returns (k: Pub, y: Secret)
    requires SealedTo(c, keys, x, t)
    ensures !NewKey(keys, y) && Sealed(c, t, k, c.dh(c.pub(x), y))
  {
    k, y := c.pub(keys[t.localKeySeq + 2]), keys[t.localKeySeq + 1];
  }

  /** The key that a message was sealed to, forgotten or not. */
  lemma SealedToSome(c: Crypto, p: Peer, q: Peer, t: Traffic) returns (x: Secret)
    requires GoodMsg(c, q, p, TrafficMsg(t))
    ensures SealedTo(c, q.keys, x, t) && !NewTo(p, x)
    ensures GoodTraffic(c, q.keys, p.keys, t) || x in p.lost
  {
    if GoodTraffic(c, q.keys, p.keys, t) {
      x := p.keys[t.remoteKeySeq + 1];
    } else {
      x :| x in p.lost && SealedTo(c, q.keys, x, t);
    }
  }

  /** With forgotten keys on either side nothing opens. */
  lemma LostKeysOpenNothing(c: Crypto, p: Peer, q: Peer, t: Traffic)
    requires Separated(c, p, q) && PeerOk(c, p, q) && LocalOk(c, q) && p.end.Open?
    requires CaseOf(p.end.sess, t) != Senseless && TrafficMsg(t) in q.out && GoodMsg(c, q, p, TrafficMsg(t))
    requires !KeptKeys(c, q.keys, p.end.sess) || !GoodTraffic(c, q.keys, p.keys, t)
    ensures c.open(t.box, t.nonce, SharedOf(p.end.sess, CaseOf(p.end.sess, t))).None?
  {
    var a, b := TriedPair(c, p, q, t);
    var x := SealedToSome(c, p, q, t);
    var k, y := SealedByKept(c, q.keys, x, t);
    PairsDiffer(c, p, q, a, b, x, y);
    OtherPairFails(c, p, q, t, k, x, y, a, b);
  }

  // ----------------------------------------------------------------- preservation

  lemma TrafficForIsGood(c: Crypto, p: Peer, q: Peer, d: Data)
    requires LocalOk(c, p) && p.end.Open? && RemoteOk(c, p, q)
    ensures GoodMsg(c, p, q, TrafficMsg(TrafficFor(c, p.end.sess, d)))
  {
    var s := p.end.sess;
    var t := TrafficFor(c, s, d);
    assert SealedAs(c, t, c.pub(p.keys[s.localKeySeq + 2]), d, s.sendShared);
    if !KeptKeys(c, q.keys, s) {
      var x :| x in q.lost && s.current == c.pub(x);
      assert SealedTo(c, p.keys, x, t);
    }
  }

  lemma InitForIsGood(c: Crypto, keys: map<nat, Secret>, s: Sess, now: nat)
    requires LocalSess(c, keys, s) && 0 < now < U64
    ensures GoodInit(c, keys, InitFor(c, s, now))
  {
  }

  /** One more message, from keys that grew. */
  lemma MessagesStayGood(c: Crypto, p: Peer, q: Peer, p': Peer)
    requires forall m :: m in p.out ==> GoodMsg(c, p, q, m)
    requires Grows(p, p') && forall m :: m in p'.out ==> m in p.out || GoodMsg(c, p', q, m)
    ensures forall m :: m in p'.out ==> GoodMsg(c, p', q, m)
  {
    forall m | m in p'.out ensures GoodMsg(c, p', q, m) {
      if m in p.out { GoodMsgGrows(c, p, q, p', q, m); }
    }
  }

  /** All of `PeerOk` but that keys are apart, which growth takes care of. */
  ghost predicate HalfOk(c: Crypto, p: Peer, q: Peer)
  {
    LocalOk(c, p) && (p.end.Open? ==> RemoteOk(c, p, q)) && forall m :: m in p.out ==> GoodMsg(c, p, q, m)
  }

  lemma SendHalf(c: Crypto, p: Peer, q: Peer, d: Data, made: Secret)
    requires HalfOk(c, p, q) && p.end.Open? && NewTo(p, made)
    ensures HalfOk(c, SendOn(c, p, p.end.sess, d, made), q)
  {
    var p' := SendOn(c, p, p.end.sess, d, made);
    SendLocal(c, p, d, made);
    TrafficForIsGood(c, p', q, d);
    MessagesStayGood(c, p, q, p');
  }

  lemma TakeHalf(c: Crypto, p: Peer, q: Peer, i: Init, now: nat, made: Secret)
    requires HalfOk(c, p, q) && p.end.Open? && NewTo(p, made) && 0 < now < U64
    requires GoodInit(c, q.keys, i) || LostInit(c, q.lost, i)
    ensures HalfOk(c, TakeInit(c, p, p.end.sess, i, now, made), q)
  {
    var p' := TakeInit(c, p, p.end.sess, i, now, made);
    TakeLocal(c, p, i, now, made);
    if i.seqno > p.end.sess.seqno {
      InitForIsGood(c, p'.keys, p'.end.sess, now);
      MessagesStayGood(c, p, q, p');
    }
  }

  /** The session created from an init, kept or forgotten, and what waited for it. */
  lemma AcceptHalf(c: Crypto, p: Peer, q: Peer, i: Init, now: nat, made: seq<Secret>)
    requires HalfOk(c, p, q) && !p.end.Open? && Fresh(p, made) && 0 < now < U64
    requires GoodInit(c, q.keys, i) || LostInit(c, q.lost, i)
    ensures HalfOk(c, Accept(c, p, i, now, made), q)
  {
    var p0 := Begin(c, p, i, made);
    BeginLocal(c, p, i, made);
    StillNew(p, p0, made, 3);
    StillNew(p, p0, made, 4);
    var p1 := TakeInit(c, p0, p0.end.sess, i, now, made[3]);
    TakeLocal(c, p0, i, now, made[3]);
    assert i.seqno > p0.end.sess.seqno;
    InitForIsGood(c, p1.keys, p1.end.sess, now);
    MessagesStayGood(c, p, q, p1);
    if p.end.Waiting? {
      assert NewTo(p1, made[4]);
      SendHalf(c, p1, q, p.end.data, made[4]);
    }
  }

  /** The labels make sense and the box opens. */
  predicate Opens(c: Crypto, s: Sess, t: Traffic)
  {
    CaseOf(s, t) != Senseless && c.open(t.box, t.nonce, SharedOf(s, CaseOf(s, t))).Some?
  }

  /** Given sensible labels, a message opens if and only if both ends hold kept keys. */
  lemma OpensWhenKept(c: Crypto, p: Peer, q: Peer, t: Traffic)
    requires Lawful(c) && Separated(c, p, q) && PeerOk(c, p, q) && PeerOk(c, q, p) && p.end.Open?
    requires CaseOf(p.end.sess, t) != Senseless && TrafficMsg(t) in q.out
    ensures Opens(c, p.end.sess, t) <==> KeptKeys(c, q.keys, p.end.sess) && GoodTraffic(c, q.keys, p.keys, t)
    ensures Opens(c, p.end.sess, t) ==> OpensToNext(c, q.keys, p.end.sess, t)
  {
    var s := p.end.sess;
    assert GoodMsg(c, q, p, TrafficMsg(t));
    if KeptKeys(c, q.keys, s) && GoodTraffic(c, q.keys, p.keys, t) {
      AcceptedTrafficOpens(c, p.keys, q.keys, s, t);
    } else {
      LostKeysOpenNothing(c, p, q, t);
    }
  }

  /** The key inside is the sender's next. */
  ghost predicate OpensToNext(c: Crypto, remote: map<nat, Secret>, s: Sess, t: Traffic)
  {
    t.localKeySeq + 2 in remote && OpensAs(c, t, c.pub(remote[t.localKeySeq + 2]), SharedOf(s, CaseOf(s, t)))
  }

  ghost predicate SameRemote(s: Sess, s': Sess)
  {
    s'.remoteKeySeq == s.remoteKeySeq && s'.current == s.current && s'.next == s.next
  }

  lemma ClosedChangesNothing(c: Crypto, s: Sess, t: Traffic, may: bool, made: Secret)
    requires !Opens(c, s, t)
    ensures Receive(c, s, t, may, made).0 == s
  {
  }

  lemma FollowKeeps(c: Crypto, remote: map<nat, Secret>, s: Sess, t: Traffic, may: bool, made: Secret)
    requires KeptKeys(c, remote, s) && CaseOf(s, t) != Senseless && OpensToNext(c, remote, s, t)
    ensures KeptKeys(c, remote, Receive(c, s, t, may, made).0)
  {
  }

  /** Receiving leaves the stored remote keys alone or moves along the sequence of kept ones. */
  lemma ReceivedKeys(c: Crypto, p: Peer, q: Peer, t: Traffic, may: bool, made: Secret)
    requires Lawful(c) && Separated(c, p, q) && PeerOk(c, p, q) && PeerOk(c, q, p) && p.end.Open?
    requires TrafficMsg(t) in q.out
    ensures var s' := Receive(c, p.end.sess, t, may, made).0;
            SameRemote(p.end.sess, s') || (KeptKeys(c, q.keys, p.end.sess) && KeptKeys(c, q.keys, s'))
  {
    if CaseOf(p.end.sess, t) != Senseless { OpensWhenKept(c, p, q, t); }
    if Opens(c, p.end.sess, t) {
      FollowKeeps(c, q.keys, p.end.sess, t, may, made);
    } else {
      ClosedChangesNothing(c, p.end.sess, t, may, made);
    }
  }

  lemma SameRemoteStaysOk(c: Crypto, p: Peer, q: Peer, p': Peer)
    requires p.end.Open? && p.taken.Some? && p'.end.Open? && p'.taken == p.taken && RemoteOk(c, p, q)
    requires SameRemote(p.end.sess, p'.end.sess) ||
             (GoodInit(c, q.keys, p.taken.value) && KeptKeys(c, q.keys, p'.end.sess))
    ensures RemoteOk(c, p', q)
  {
  }

  lemma TrafficHalf(c: Crypto, p: Peer, q: Peer, a: Action, made: seq<Secret>, p': Peer)
    requires Lawful(c) && Separated(c, p, q) && PeerOk(c, p, q) && PeerOk(c, q, p) && p.end.Open?
    requires a.Get? && a.msg.TrafficMsg? && Step(c, p, q, a, made, p')
    ensures RemoteOk(c, p', q)
  {
    assert GoodMsg(c, q, p, a.msg);
    ReceivedKeys(c, p, q, a.msg.traffic, a.mayRotate, made[0]);
    if KeptKeys(c, q.keys, p.end.sess) { KeptMeansGood(c, p, q); }
    SameRemoteStaysOk(c, p, q, p');
  }

  lemma KeptMeansGood(c: Crypto, p: Peer, q: Peer)
    requires Separated(c, p, q) && p.end.Open? && p.taken.Some? && RemoteOk(c, p, q) && LocalOk(c, q)
    requires KeptKeys(c, q.keys, p.end.sess)
    ensures GoodInit(c, q.keys, p.taken.value)
  {
    LostIsNotKept(c, p, q, p.end.sess.remoteKeySeq + 1, p.end.sess.current);
  }

  lemma TrafficMessages(c: Crypto, p: Peer, q: Peer, a: Action, made: seq<Secret>, p': Peer)
    requires PeerOk(c, p, q) && p.end.Open? && a.Get? && a.msg.TrafficMsg? && Step(c, p, q, a, made, p') && Grows(p, p')
    ensures forall m :: m in p'.out ==> GoodMsg(c, p', q, m)
  {
    var m := InitMsg(InitFor(c, p.end.sess, a.now));
    InitForIsGood(c, p.keys, p.end.sess, a.now);
    GoodMsgGrows(c, p, q, p', q, m);
    MessagesStayGood(c, p, q, p');
  }

  lemma ThrowHalf(c: Crypto, p: Peer, q: Peer, now: nat, x: Secret, y: Secret)
    requires HalfOk(c, p, q) && !p.end.Open? && NewTo(p, x) && NewTo(p, y) && 0 < now < U64
    ensures HalfOk(c, ThrowAway(c, p, now, x, y), q)
  {
    var p' := ThrowAway(c, p, now, x, y);
    assert LostInit(c, p'.lost, Init(c.pub(x), c.pub(y), 0, now));
    MessagesStayGood(c, p, q, p');
  }

  lemma WriteHalf(c: Crypto, p: Peer, q: Peer, a: Action, made: seq<Secret>, p': Peer)
    requires HalfOk(c, p, q) && a.Write? && Step(c, p, q, a, made, p')
    ensures HalfOk(c, p', q)
  {
    if p.end.Open? {
      assert NewTo(p, made[0]);
      SendHalf(c, p, q, a.data, made[0]);
    } else {
      ActLocal(c, p, a, made);
      MessagesStayGood(c, p, q, p');
    }
  }

  lemma StepKeepsOk(c: Crypto, p: Peer, q: Peer, a: Action, made: seq<Secret>, p': Peer)
    requires Lawful(c) && Separated(c, p, q) && PeerOk(c, p, q) && PeerOk(c, q, p) && Step(c, p, q, a, made, p')
    ensures PeerOk(c, p', q) && PeerOk(c, q, p')
  {
    ActLocal(c, p, a, made);
    ApartGrows(p, q, p', made);
    OtherSideGrows(c, q, p, p', made);
    assert NewTo(p, made[0]) && NewTo(p, made[1]);
    if a.Get? { assert GoodMsg(c, q, p, a.msg); }
    match a
    case Write(_, _) => WriteHalf(c, p, q, a, made, p');
    case Get(TrafficMsg(t), _, now) =>
      if p.end.Open? {
        TrafficHalf(c, p, q, a, made, p');
        TrafficMessages(c, p, q, a, made, p');
      } else {
        ThrowHalf(c, p, q, now, made[0], made[1]);
      }
    case Get(InitMsg(i), _, now) =>
      if p.end.Open? { TakeHalf(c, p, q, i, now, made[0]); } else { AcceptHalf(c, p, q, i, now, made); }
    case Get(AckMsg(i), _, now) =>
      if p.end.Open? {
        TakeHalf(c, p, q, i, now, made[0]);
        MessagesStayGood(c, p, q, p');
      } else {
        AcceptHalf(c, p, q, i, now, made);
      }
  }

  // ---------------------------------------------------------------------- runs

  datatype World = World(left: Peer, right: Peer)

  datatype Move = Move(onLeft: bool, action: Action, made: seq<Secret>)

  ghost predicate Next(c: Crypto, w: World, m: Move, w': World)
  {
    if m.onLeft
    then Step(c, w.left, w.right, m.action, m.made, w'.left) && w'.right == w.right
    else Step(c, w.right, w.left, m.action, m.made, w'.right) && w'.left == w.left
  }

  const IDLE: Peer := Peer(Nothing, {}, map[], [], {}, None)

  ghost predicate IsRun(c: Crypto, ws: seq<World>, ms: seq<Move>)
  {
    && |ws| == |ms| + 1 && ws[0] == World(IDLE, IDLE)
    && forall i :: 0 <= i < |ms| ==> Next(c, ws[i], ms[i], ws[i + 1])
  }

  function Side(w: World, onLeft: bool): (p: Peer) { if onLeft then w.left else w.right }

  /** The keys and messages of the run so far are separated. */
  ghost predicate SeparatedIn(c: Crypto, w: World) { Separated(c, w.left, w.right) }

  lemma {:induction false} LocalAlongRun(c: Crypto, ws: seq<World>, ms: seq<Move>, i: nat)
    requires IsRun(c, ws, ms) && i < |ws|
    ensures LocalOk(c, ws[i].left) && LocalOk(c, ws[i].right)
  {
    if i > 0 {
      var k := i - 1;
      LocalAlongRun(c, ws, ms, k);
      assert Next(c, ws[k], ms[k], ws[k + 1]);
      ActLocal(c, Side(ws[k], ms[k].onLeft), ms[k].action, ms[k].made);
    }
  }

  lemma ActKeepsOut(c: Crypto, p: Peer, a: Action, made: seq<Secret>)
    requires |made| >= 5
    ensures p.out <= Act(c, p, a, made).out
  {
  }

  lemma SeparatedOneBefore(c: Crypto, w: World, m: Move, w': World)
    requires SeparatedIn(c, w') && Next(c, w, m, w') && LocalOk(c, w.left) && LocalOk(c, w.right)
    ensures SeparatedIn(c, w)
  {
    var p, p' := Side(w, m.onLeft), Side(w', m.onLeft);
    ActLocal(c, p, m.action, m.made);
    ActKeepsOut(c, p, m.action, m.made);
    if m.onLeft {
      SeparatedBefore(c, w.left, w.right, w'.left);
    } else {
      SeparatedOtherWay(c, w'.left, w'.right);
      SeparatedBefore(c, w.right, w.left, w'.right);
      SeparatedOtherWay(c, w.right, w.left);
    }
  }

  lemma {:induction false} RunIsOk(c: Crypto, ws: seq<World>, ms: seq<Move>, i: nat)
    requires Lawful(c) && IsRun(c, ws, ms) && i < |ws| && SeparatedIn(c, ws[i])
    ensures PeerOk(c, ws[i].left, ws[i].right) && PeerOk(c, ws[i].right, ws[i].left)
  {
    if i > 0 {
      var k := i - 1;
      assert Next(c, ws[k], ms[k], ws[k + 1]);
      LocalAlongRun(c, ws, ms, k);
      SeparatedOneBefore(c, ws[k], ms[k], ws[i]);
      RunIsOk(c, ws, ms, k);
      SeparatedOtherWay(c, ws[k].left, ws[k].right);
      var w, m, w' := ws[k], ms[k], ws[i];
      if m.onLeft {
        StepKeepsOk(c, w.left, w.right, m.action, m.made, w'.left);
      } else {
        StepKeepsOk(c, w.right, w.left, m.action, m.made, w'.right);
      }
    }
  }

  /** The last init or ack that `p`'s session took offered keys that `q` had forgotten. */
  ghost predicate TookLost(c: Crypto, p: Peer, q: Peer) { p.taken.Some? && LostInit(c, q.lost, p.taken.value) }

  lemma LostIsNotKept(c: Crypto, p: Peer, q: Peer, n: nat, x: Pub)
    requires Separated(c, p, q) && LocalOk(c, q)
    ensures IsLost(c, q.lost, x) ==> !Names(c, q.keys, n, x)
  {
    if a :| a in q.lost && x == c.pub(a) {
      if n in q.keys { assert OnlyPair(c, p, q, a, a, q.keys[n], a); }
    }
  }

  lemma KeptUnlessLost(c: Crypto, p: Peer, q: Peer)
    requires Separated(c, p, q) && LocalOk(c, p) && LocalOk(c, q) && p.end.Open? && RemoteOk(c, p, q)
    ensures KeptKeys(c, q.keys, p.end.sess) <==> !TookLost(c, p, q)
  {
    LostIsNotKept(c, p, q, p.taken.value.keySeq + 1, p.taken.value.current);
    LostIsNotKept(c, p, q, p.end.sess.remoteKeySeq + 1, p.end.sess.current);
  }

  /** Key agreement: in every reachable state an open session's local keys are
      K[n], K[n+1], K[n+2] and its cached secrets belong to the keys it stores;
      its remote keys are the peer's K[r+1], K[r+2] if and only if the last init
      or ack it took was not one with forgotten keys. */
  lemma KeyAgreement(c: Crypto, ws: seq<World>, ms: seq<Move>, i: nat, onLeft: bool)
    requires Lawful(c) && IsRun(c, ws, ms) && i < |ws| && SeparatedIn(c, ws[i]) && Side(ws[i], onLeft).end.Open?
    ensures var p, q := Side(ws[i], onLeft), Side(ws[i], !onLeft);
            && LocalSess(c, p.keys, p.end.sess) && Distinct(p.keys) && UpTo(p.keys, p.end.sess.localKeySeq + 2)
            && (GoodSess(c, p.keys, q.keys, p.end.sess) <==> !TookLost(c, p, q))
  {
    RunIsOk(c, ws, ms, i);
    SeparatedOtherWay(c, ws[i].left, ws[i].right);
    KeptUnlessLost(c, Side(ws[i], onLeft), Side(ws[i], !onLeft));
  }

  /** In every reachable state, traffic that is not replayed and whose labels make
      sense opens if and only if the receiver's session is in agreement and the
      message was sealed to a key that the receiver kept; otherwise the receiver
      reports that keys are out of sync. */
  lemma OpensExactlyInAgreement(c: Crypto, ws: seq<World>, ms: seq<Move>, i: nat, onLeft: bool, t: Traffic, may: bool,
                                made: Secret)
    requires Lawful(c) && IsRun(c, ws, ms) && i < |ws| && SeparatedIn(c, ws[i])
    requires Side(ws[i], onLeft).end.Open? && TrafficMsg(t) in Side(ws[i], !onLeft).out
    requires CaseOf(Side(ws[i], onLeft).end.sess, t) != Senseless
    requires t.nonce > NonceOf(Side(ws[i], onLeft).end.sess, CaseOf(Side(ws[i], onLeft).end.sess, t))
    ensures var p, q := Side(ws[i], onLeft), Side(ws[i], !onLeft);
            var outcome := Receive(c, p.end.sess, t, may, made).1;
            && (outcome.Delivered? <==> !TookLost(c, p, q) && GoodTraffic(c, q.keys, p.keys, t))
            && (outcome.OutOfSync? <==> TookLost(c, p, q) || !GoodTraffic(c, q.keys, p.keys, t))
  {
    RunIsOk(c, ws, ms, i);
    var p, q := Side(ws[i], onLeft), Side(ws[i], !onLeft);
    SeparatedOtherWay(c, ws[i].left, ws[i].right);
    KeyAgreement(c, ws, ms, i, onLeft);
    OpensWhenKept(c, p, q, t);
    FreshOutcome(c, p.end.sess, t, may, made);
  }

  lemma FreshOutcome(c: Crypto, s: Sess, t: Traffic, may: bool, made: Secret)
    requires CaseOf(s, t) != Senseless && t.nonce > NonceOf(s, CaseOf(s, t))
    ensures var outcome := Receive(c, s, t, may, made).1;
            (outcome.Delivered? <==> Opens(c, s, t)) && (outcome.OutOfSync? <==> !Opens(c, s, t))
  {
  }

  /** An init or ack with kept keys, once taken, puts the session in agreement
      whatever it held before. */
  lemma KeptInitHeals(c: Crypto, ws: seq<World>, ms: seq<Move>, i: nat, x: Init)
    requires Lawful(c) && IsRun(c, ws, ms) && i < |ms| && SeparatedIn(c, ws[i + 1]) && ms[i].action.Get?
    requires ms[i].action.msg == InitMsg(x) || ms[i].action.msg == AckMsg(x)
    requires var p := Side(ws[i], ms[i].onLeft); p.end.Open? ==> x.seqno > p.end.sess.seqno
    requires GoodInit(c, Side(ws[i], !ms[i].onLeft).keys, x)
    ensures var p', q := Side(ws[i + 1], ms[i].onLeft), Side(ws[i + 1], !ms[i].onLeft);
            p'.end.Open? && GoodSess(c, p'.keys, q.keys, p'.end.sess)
  {
    var side := ms[i].onLeft;
    assert Next(c, ws[i], ms[i], ws[i + 1]);
    var p', q := Side(ws[i + 1], side), Side(ws[i + 1], !side);
    assert p'.end.Open? && p'.taken == Some(x);
    RunIsOk(c, ws, ms, i + 1);
    KeyAgreement(c, ws, ms, i + 1, side);
    SeparatedOtherWay(c, ws[i + 1].left, ws[i + 1].right);
    LostIsNotKept(c, p', q, x.keySeq + 1, x.current);
  }

  // --------------------------------------------------- when nothing is thrown away

  /** The move hands traffic to an endpoint that has no session. */
  ghost predicate Surprise(w: World, m: Move)
  {
    m.action.Get? && m.action.msg.TrafficMsg? && !Side(w, m.onLeft).end.Open?
  }

  /** Keys are forgotten exactly when traffic reaches an endpoint without a session. */
  lemma {:induction false} LostExactlyBySurprise(c: Crypto, ws: seq<World>, ms: seq<Move>, i: nat, onLeft: bool)
    requires IsRun(c, ws, ms) && i < |ws|
    ensures Side(ws[i], onLeft).lost != {} <==>
              exists k :: 0 <= k < i && ms[k].onLeft == onLeft && Surprise(ws[k], ms[k])
  {
    if i > 0 {
      var k := i - 1;
      LostExactlyBySurprise(c, ws, ms, k, onLeft);
      assert Next(c, ws[k], ms[k], ws[k + 1]);
      var p, m := Side(ws[k], ms[k].onLeft), ms[k];
      if Surprise(ws[k], m) {
        assert Side(ws[i], m.onLeft).lost == p.lost + {m.made[0], m.made[1]};
        assert m.made[0] in Side(ws[i], m.onLeft).lost;
      } else {
        assert Side(ws[i], m.onLeft).lost == p.lost;
      }
    }
  }

  /** As long as no traffic reaches an endpoint without a session, both sessions
      are in agreement and every message with sensible labels opens. */
  lemma AgreementWithoutSurprise(c: Crypto, ws: seq<World>, ms: seq<Move>, i: nat, onLeft: bool)
    requires Lawful(c) && IsRun(c, ws, ms) && i < |ws| && Side(ws[i], onLeft).end.Open?
    requires forall k :: 0 <= k < i ==> !Surprise(ws[k], ms[k])
    ensures var p, q := Side(ws[i], onLeft), Side(ws[i], !onLeft);
            && GoodSess(c, p.keys, q.keys, p.end.sess)
            && (forall t :: TrafficMsg(t) in q.out && CaseOf(p.end.sess, t) != Senseless ==> Opens(c, p.end.sess, t))
  {
    var p, q := Side(ws[i], onLeft), Side(ws[i], !onLeft);
    LostExactlyBySurprise(c, ws, ms, i, onLeft);
    LostExactlyBySurprise(c, ws, ms, i, !onLeft);
    NothingLostIsSeparated(c, p, q);
    NothingLostIsSeparated(c, q, p);
    KeyAgreement(c, ws, ms, i, onLeft);
    RunIsOk(c, ws, ms, i);
    forall t | TrafficMsg(t) in q.out && CaseOf(p.end.sess, t) != Senseless ensures Opens(c, p.end.sess, t) {
      assert GoodMsg(c, q, p, TrafficMsg(t));
      OpensWhenKept(c, p, q, t);
    }
  }

  // ------------------------------------------------------------- nonce discipline

  /** Every sealed pair uses a key already passed or the current send key with a
      nonce not above the current one. */
  ghost predicate SealsBelow(p: Peer)
  {
    && (p.end.Open? ==> forall x :: x in p.seals ==> SealUsed(p.keys, p.end.sess, x))
    && (!p.end.Open? ==> p.seals == [])
  }

  ghost predicate SealUsed(keys: map<nat, Secret>, s: Sess, x: Seal)
  {
    exists j :: && j in keys && j <= s.localKeySeq + 1 && keys[j] == x.key
                && (j == s.localKeySeq + 1 ==> x.nonce <= s.sendNonce)
  }

  ghost predicate NoSealTwice(p: Peer)
  {
    forall i, j :: 0 <= i < j < |p.seals| ==> !SameUse(p.seals[i], p.seals[j])
  }

  /** The same send key and nonce. */
  predicate SameUse(x: Seal, y: Seal) { x.key == y.key && x.nonce == y.nonce }

  /** The session advances or keeps its keys and nonce. */
  ghost predicate Onward(s: Sess, s': Sess)
  {
    || (s'.localKeySeq == s.localKeySeq && s.sendNonce <= s'.sendNonce)
    || s'.localKeySeq == s.localKeySeq + 1
  }

  lemma UsedStaysUsed(keys: map<nat, Secret>, keys': map<nat, Secret>, s: Sess, s': Sess, x: Seal)
    requires SealUsed(keys, s, x) && Extends(keys, keys') && Onward(s, s')
    ensures SealUsed(keys', s', x)
  {
  }

  /** A pair sealed before is none that a send key or nonce further on can make. */
  lemma UsedIsOther(keys: map<nat, Secret>, keys': map<nat, Secret>, s: Sess, s': Sess, x: Seal)
    requires SealUsed(keys, s, x) && Extends(keys, keys') && Distinct(keys') &&
             Has(keys', s'.localKeySeq + 1, s'.sendPriv)
    requires (s'.localKeySeq == s.localKeySeq && s.sendNonce < s'.sendNonce) || s'.localKeySeq == s.localKeySeq + 1
    ensures !SameUse(x, SealOf(s'))
  {
  }

  /** Sending uses a pair that was never used before. */
  lemma SendSealsAnew(c: Crypto, p: Peer, d: Data, made: Secret)
    requires LocalOk(c, p) && p.end.Open? && SealsBelow(p) && NoSealTwice(p) && NewTo(p, made)
    ensures SealsBelow(SendOn(c, p, p.end.sess, d, made)) && NoSealTwice(SendOn(c, p, p.end.sess, d, made))
  {
    var s, p' := p.end.sess, SendOn(c, p, p.end.sess, d, made);
    var s' := p'.end.sess;
    SendLocal(c, p, d, made);
    var x := SealOf(s');
    forall y | y in p.seals ensures !SameUse(y, x) && SealUsed(p'.keys, s', y) {
      UsedStaysUsed(p.keys, p'.keys, s, s', y);
      UsedIsOther(p.keys, p'.keys, s, s', y);
    }
    assert SealUsed(p'.keys, s', x) by { assert Has(p'.keys, s'.localKeySeq + 1, s'.sendPriv); }
    forall i, j | 0 <= i < j < |p'.seals| ensures !SameUse(p'.seals[i], p'.seals[j]) {
      if j == |p.seals| { assert p.seals[i] in p.seals; }
    }
  }

  lemma QuietStepKeepsSeals(p: Peer, p': Peer)
    requires SealsBelow(p) && NoSealTwice(p) && p'.seals == p.seals && p.end.Open? && p'.end.Open?
    requires Extends(p.keys, p'.keys) && Onward(p.end.sess, p'.end.sess)
    ensures SealsBelow(p') && NoSealTwice(p')
  {
    forall x | x in p'.seals ensures SealUsed(p'.keys, p'.end.sess, x) {
      UsedStaysUsed(p.keys, p'.keys, p.end.sess, p'.end.sess, x);
    }
  }

  /** Receiving never seals and never turns the send nonce back under one key. */
  lemma ReceivingIsQuiet(c: Crypto, p: Peer, a: Action, made: seq<Secret>)
    requires a.Get? && p.end.Open? && |made| >= 5
    ensures var p' := Act(c, p, a, made); p'.end.Open? && p'.seals == p.seals && Onward(p.end.sess, p'.end.sess)
  {
  }

  lemma AcceptSealsAnew(c: Crypto, p: Peer, i: Init, now: nat, made: seq<Secret>)
    requires LocalOk(c, p) && !p.end.Open? && Fresh(p, made) && p.seals == []
    ensures SealsBelow(Accept(c, p, i, now, made)) && NoSealTwice(Accept(c, p, i, now, made))
  {
    if p.end.Waiting? {
      var p' := Accept(c, p, i, now, made);
      assert |p'.seals| == 1;
      AcceptLocal(c, p, i, now, made);
      var s' := p'.end.sess;
      assert Has(p'.keys, s'.localKeySeq + 1, s'.sendPriv);
      assert SealUsed(p'.keys, s', SealOf(s'));
    }
  }

  lemma ActSealsAnew(c: Crypto, p: Peer, a: Action, made: seq<Secret>)
    requires LocalOk(c, p) && Fresh(p, made) && 0 < a.now < U64 && SealsBelow(p) && NoSealTwice(p)
    ensures SealsBelow(Act(c, p, a, made)) && NoSealTwice(Act(c, p, a, made))
  {
    assert NewTo(p, made[0]);
    if p.end.Open? && a.Write? {
      SendSealsAnew(c, p, a.data, made[0]);
    } else if p.end.Open? {
      ActLocal(c, p, a, made);
      ReceivingIsQuiet(c, p, a, made);
      QuietStepKeepsSeals(p, Act(c, p, a, made));
    } else if a.Get? && !a.msg.TrafficMsg? {
      AcceptSealsAnew(c, p, a.msg.init, a.now, made);
    }
  }

  /** A run of one endpoint against anything at all: any messages, in any order. */
  ghost predicate IsEndRun(c: Crypto, ps: seq<Peer>, acts: seq<Action>, made: seq<seq<Secret>>)
  {
    && |ps| == |acts| + 1 && |made| == |acts| && ps[0] == IDLE
    && forall i :: 0 <= i < |acts| ==>
         Fresh(ps[i], made[i]) && 0 < acts[i].now < U64 && ps[i + 1] == Act(c, ps[i], acts[i], made[i])
  }

  /** Nonce discipline: in every run of an endpoint, whatever mix of inits, acks,
      ratchets and counter overflow, and whatever is sent to it, it never seals
      two traffic messages under the same send key and nonce. */
  lemma {:induction false} NoNonceReuse(c: Crypto, ps: seq<Peer>, acts: seq<Action>, made: seq<seq<Secret>>, i: nat)
    requires IsEndRun(c, ps, acts, made) && i < |ps|
    ensures LocalOk(c, ps[i]) && SealsBelow(ps[i]) && NoSealTwice(ps[i])
  {
    if i > 0 {
      var k := i - 1;
      NoNonceReuse(c, ps, acts, made, k);
      ActLocal(c, ps[k], acts[k], made[k]);
      ActSealsAnew(c, ps[k], acts[k], made[k]);
    }
  }

  /** In particular for both endpoints in every run of the two. */
  lemma {:induction false} NoNonceReuseTogether(c: Crypto, ws: seq<World>, ms: seq<Move>, i: nat, onLeft: bool)
    requires IsRun(c, ws, ms) && i < |ws|
    ensures var p := Side(ws[i], onLeft); LocalOk(c, p) && SealsBelow(p) && NoSealTwice(p)
  {
    if i > 0 {
      var k := i - 1;
      NoNonceReuseTogether(c, ws, ms, k, onLeft);
      assert Next(c, ws[k], ms[k], ws[k + 1]);
      if ms[k].onLeft == onLeft {
        ActLocal(c, Side(ws[k], onLeft), ms[k].action, ms[k].made);
        ActSealsAnew(c, Side(ws[k], onLeft), ms[k].action, ms[k].made);
      }
    }
  }
}
