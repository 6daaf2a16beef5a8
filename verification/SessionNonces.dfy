/** A box key is the same in both directions.  No secret and nonce is used twice
    by either end, because labels never cross: whoever follows the other's keys
    advances its own. */
module SessionNonces {
  import opened Basics
  import opened Ratchet
  import opened SessionProtocol

  // ---------------------------------------------------------------------- labels

  /** The label of our keys; the keys of a waiting buffer are offered under 0. */
  function Label(p: Peer): (n: nat) { if p.end.Open? then p.end.sess.localKeySeq else 0 }

  /** The message is labelled with keys that both ends have had. */
  predicate LabelledBelow(m: Msg, ours: nat, theirs: nat)
  {
    match m
    case InitMsg(i) => i.keySeq <= ours && 0 < i.seqno < U64
    case AckMsg(i) => i.keySeq <= ours && 0 < i.seqno < U64
    case TrafficMsg(t) => t.localKeySeq <= ours && t.remoteKeySeq <= theirs
  }

  /** `p` knows no keys of `q` that `q` has not had, and all it sent is labelled
      with keys that both have had. */
  ghost predicate Knows(p: Peer, q: Peer)
  {
    && (p.end.Open? ==> p.end.sess.remoteKeySeq <= Label(q))
    && (p.end.Waiting? ==> p.end.init.keySeq == 0 && 0 < p.end.init.seqno < U64)
    && (forall m :: m in p.out ==> LabelledBelow(m, Label(p), Label(q)))
    && (forall x :: x in p.seals ==> x.local <= Label(p) && x.remote <= Label(q))
  }

  /** Whoever knows our current keys has advanced its own beyond those we know:
      in its session, and in everything it sealed to these keys. */
  ghost predicate Ahead(p: Peer, q: Peer)
  {
    p.end.Open? ==>
      && (q.end.Open? && q.end.sess.remoteKeySeq == p.end.sess.localKeySeq ==>
            q.end.sess.localKeySeq > p.end.sess.remoteKeySeq)
      && (forall y :: y in q.seals && y.remote == p.end.sess.localKeySeq ==> y.local > p.end.sess.remoteKeySeq)
  }

  /** No two messages of the two ends are sealed between the same two labels. */
  ghost predicate NoCrossing(p: Peer, q: Peer)
  {
    forall x, y :: x in p.seals && y in q.seals ==> !(x.local == y.remote && x.remote == y.local)
  }

  ghost predicate InStep(p: Peer, q: Peer)
  {
    Knows(p, q) && Knows(q, p) && Ahead(p, q) && Ahead(q, p) && NoCrossing(p, q)
  }

  /** What any step does to the labels of an endpoint: they advance, or stay with
      what it knows of the other; what it sends carries its new labels. */
  ghost predicate Advances(p: Peer, p': Peer, theirs: nat)
  {
    && (|| Label(p) < Label(p')
        || (Label(p) == Label(p') && p'.end.Open? == p.end.Open? &&
            (p.end.Open? ==> p'.end.sess.remoteKeySeq == p.end.sess.remoteKeySeq)))
    && (p'.end.Open? ==> p'.end.sess.remoteKeySeq <= theirs)
    && (p'.end.Waiting? ==> p'.end.init.keySeq == 0 && 0 < p'.end.init.seqno < U64)
    && (forall m :: m in p'.out ==> m in p.out || LabelledBelow(m, Label(p'), theirs))
    && (p'.seals == p.seals || (p'.end.Open? && p'.seals == p.seals + [SealOf(p'.end.sess)]))
  }

  lemma AdvancingKnows(p: Peer, q: Peer, p': Peer)
    requires InStep(p, q) && Advances(p, p', Label(q))
    ensures Knows(p', q) && Knows(q, p')
  {
    forall m | m in p'.out ensures LabelledBelow(m, Label(p'), Label(q)) {
      if m in p.out { assert LabelledBelow(m, Label(p), Label(q)); }
    }
    forall m | m in q.out ensures LabelledBelow(m, Label(q), Label(p')) {
      assert LabelledBelow(m, Label(q), Label(p));
    }
  }

  lemma AdvancingIsAhead(p: Peer, q: Peer, p': Peer)
    requires InStep(p, q) && Advances(p, p', Label(q))
    ensures Ahead(p', q) && Ahead(q, p') && NoCrossing(p', q)
  {
    assert Ahead(p', q);
    forall x | x in p'.seals ensures x in p.seals || (p'.end.Open? && x == SealOf(p'.end.sess)) {
    }
  }

  lemma AdvancingKeepsStep(p: Peer, q: Peer, p': Peer)
    requires InStep(p, q) && Advances(p, p', Label(q))
    ensures InStep(p', q)
  {
    AdvancingKnows(p, q, p');
    AdvancingIsAhead(p, q, p');
  }

  lemma OtherWay(p: Peer, q: Peer)
    requires InStep(p, q)
    ensures InStep(q, p)
  {
  }

  // ----------------------------------------------------------------- every action

  lemma SendAdvances(c: Crypto, p: Peer, d: Data, made: Secret, theirs: nat)
    requires p.end.Open? && p.end.sess.remoteKeySeq <= theirs
    ensures Advances(p, SendOn(c, p, p.end.sess, d, made), theirs)
  {
  }

  lemma TakeAdvances(c: Crypto, p: Peer, i: Init, now: nat, made: Secret, theirs: nat)
    requires p.end.Open? && p.end.sess.remoteKeySeq <= theirs && i.keySeq <= theirs && 0 < now < U64
    ensures Advances(p, TakeInit(c, p, p.end.sess, i, now, made), theirs)
  {
  }

  lemma AcceptAdvances(c: Crypto, p: Peer, i: Init, now: nat, made: seq<Secret>, theirs: nat)
    requires !p.end.Open? && |made| >= 5 && i.keySeq <= theirs && 0 < i.seqno < U64 && 0 < now < U64
    ensures Advances(p, Accept(c, p, i, now, made), theirs)
  {
    var p0 := Begin(c, p, i, made);
    var p1 := TakeInit(c, p0, p0.end.sess, i, now, made[3]);
    assert i.seqno > p0.end.sess.seqno;
    assert Label(p1) == 1 && p1.end.sess.sendNonce == 0;
  }

  lemma ReceiveAdvances(c: Crypto, p: Peer, t: Traffic, may: bool, now: nat, made: seq<Secret>, theirs: nat)
    requires p.end.Open? && |made| >= 5 && p.end.sess.remoteKeySeq <= theirs && t.localKeySeq <= theirs && 0 < now < U64
    ensures Advances(p, Act(c, p, Get(TrafficMsg(t), may, now), made), theirs)
  {
  }

  lemma ActAdvances(c: Crypto, p: Peer, q: Peer, a: Action, made: seq<Secret>)
    requires InStep(p, q) && |made| >= 5 && 0 < a.now < U64 && (a.Get? ==> a.msg in q.out)
    ensures Advances(p, Act(c, p, a, made), Label(q))
  {
    if a.Get? { assert LabelledBelow(a.msg, Label(q), Label(p)); }
    match a
    case Write(d, _) => if p.end.Open? { SendAdvances(c, p, d, made[0], Label(q)); }
    case Get(TrafficMsg(t), may, now) => if p.end.Open? { ReceiveAdvances(c, p, t, may, now, made, Label(q)); }
    case Get(InitMsg(i), _, now) =>
      if p.end.Open? {
        TakeAdvances(c, p, i, now, made[0], Label(q));
      } else {
        AcceptAdvances(c, p, i, now, made, Label(q));
      }
    case Get(AckMsg(i), _, now) =>
      if p.end.Open? {
        TakeAdvances(c, p, i, now, made[0], Label(q));
      } else {
        AcceptAdvances(c, p, i, now, made, Label(q));
      }
  }

  /** In every run labels never cross, whatever the cryptography. */
  lemma {:induction false} LabelsNeverCross(c: Crypto, ws: seq<World>, ms: seq<Move>, i: nat)
    requires IsRun(c, ws, ms) && i < |ws|
    ensures InStep(ws[i].left, ws[i].right)
  {
    if i > 0 {
      var k := i - 1;
      LabelsNeverCross(c, ws, ms, k);
      assert Next(c, ws[k], ms[k], ws[k + 1]);
      var w, m, w' := ws[k], ms[k], ws[i];
      if m.onLeft {
        ActAdvances(c, w.left, w.right, m.action, m.made);
        AdvancingKeepsStep(w.left, w.right, w'.left);
      } else {
        OtherWay(w.left, w.right);
        ActAdvances(c, w.right, w.left, m.action, m.made);
        AdvancingKeepsStep(w.right, w.left, w'.right);
        OtherWay(w'.right, w'.left);
      }
    }
  }

  // ---------------------------------------------------------------------- secrets

  /** The seal names our key of its label, and the other end's key of its label or
      one that the other end forgot. */
  ghost predicate Named(c: Crypto, p: Peer, q: Peer, x: Seal)
  {
    Has(p.keys, x.local + 1, x.key) && (Names(c, q.keys, x.remote + 1, x.to) || IsLost(c, q.lost, x.to))
  }

  ghost predicate AllNamed(c: Crypto, p: Peer, q: Peer) { forall x :: x in p.seals ==> Named(c, p, q, x) }

  lemma NamedGrows(c: Crypto, p: Peer, q: Peer, p': Peer, q': Peer, x: Seal)
    requires Named(c, p, q, x) && Grows(p, p') && Grows(q, q')
    ensures Named(c, p', q', x)
  {
  }

  /** What is sealed now is named by the session. */
  lemma NewSealIsNamed(c: Crypto, p: Peer, q: Peer)
    requires LocalOk(c, p) && p.end.Open? && RemoteOk(c, p, q)
    ensures Named(c, p, q, SealOf(p.end.sess))
  {
  }

  lemma StepNames(c: Crypto, p: Peer, q: Peer, p': Peer, theirs: nat)
    requires AllNamed(c, p, q) && AllNamed(c, q, p) && Grows(p, p') && Advances(p, p', theirs) && PeerOk(c, p', q)
    ensures AllNamed(c, p', q) && AllNamed(c, q, p')
  {
    forall x | x in p'.seals ensures Named(c, p', q, x) {
      if x in p.seals { NamedGrows(c, p, q, p', q, x); } else { NewSealIsNamed(c, p', q); }
    }
    forall y | y in q.seals ensures Named(c, q, p', y) {
      NamedGrows(c, q, p, q, p', y);
    }
  }

  lemma {:induction false} SealsAreNamed(c: Crypto, ws: seq<World>, ms: seq<Move>, i: nat)
    requires Lawful(c) && IsRun(c, ws, ms) && i < |ws| && SeparatedIn(c, ws[i])
    ensures AllNamed(c, ws[i].left, ws[i].right) && AllNamed(c, ws[i].right, ws[i].left)
  {
    if i > 0 {
      var k := i - 1;
      var w, m, w' := ws[k], ms[k], ws[i];
      assert Next(c, ws[k], ms[k], ws[k + 1]);
      LocalAlongRun(c, ws, ms, k);
      SeparatedOneBefore(c, w, m, w');
      SealsAreNamed(c, ws, ms, k);
      RunIsOk(c, ws, ms, i);
      LabelsNeverCross(c, ws, ms, k);
      OtherWay(w.left, w.right);
      var p, q, p' := Side(w, m.onLeft), Side(w, !m.onLeft), Side(w', m.onLeft);
      ActLocal(c, p, m.action, m.made);
      ActAdvances(c, p, q, m.action, m.made);
      StepNames(c, p, q, p', Label(q));
    }
  }

  /** Different pairs of keys generated in the run share different secrets. */
  ghost predicate PairsApart(c: Crypto, p: Peer, q: Peer)
  {
    forall a, b, x, y :: OnlyPairOf(c, p, q, a, b, x, y)
  }

  ghost predicate OnlyPairOf(c: Crypto, p: Peer, q: Peer, a: Secret, b: Secret, x: Secret, y: Secret)
  {
    InPlay(p, q, a) && InPlay(p, q, b) && InPlay(p, q, x) && InPlay(p, q, y) &&
    SharedBy(c, a, b) == SharedBy(c, x, y) ==>
      SamePair(a, b, x, y)
  }

  /** The secret that a message was sealed under. */
  function SecretOf(c: Crypto, x: Seal): (s: Shared) { c.dh(x.to, x.key) }

  /** The remote's private key behind a seal. */
  lemma Partner(c: Crypto, p: Peer, q: Peer, x: Seal) returns (k: Secret)
    requires Named(c, p, q, x)
    ensures SecretOf(c, x) == SharedBy(c, k, x.key) && !NewTo(q, k) && !NewTo(p, x.key)
    ensures Has(q.keys, x.remote + 1, k) || k in q.lost
  {
    if Names(c, q.keys, x.remote + 1, x.to) {
      k := q.keys[x.remote + 1];
    } else {
      k :| k in q.lost && x.to == c.pub(k);
    }
  }

  /** Two messages of one end under one secret use one send key. */
  lemma SameEndSameKey(c: Crypto, p: Peer, q: Peer, x: Seal, y: Seal)
    requires PairsApart(c, p, q) && Apart(p, q) && Named(c, p, q, x) && Named(c, p, q, y)
    requires SecretOf(c, x) == SecretOf(c, y)
    ensures x.key == y.key
  {
    var kx := Partner(c, p, q, x);
    var ky := Partner(c, p, q, y);
    assert OnlyPairOf(c, p, q, kx, x.key, ky, y.key);
  }

  /** Messages of different ends never share a secret. */
  lemma OtherEndOtherSecret(c: Crypto, p: Peer, q: Peer, x: Seal, y: Seal)
    requires PairsApart(c, p, q) && Apart(p, q) && Apart(q, p) && LocalOk(c, p) && LocalOk(c, q)
    requires p.end.Open? && q.end.Open? && InStep(p, q) && x in p.seals && y in q.seals
    requires Named(c, p, q, x) && Named(c, q, p, y)
    ensures SecretOf(c, x) != SecretOf(c, y)
  {
    var kx := Partner(c, p, q, x);
    var ky := Partner(c, q, p, y);
    assert OnlyPairOf(c, p, q, kx, x.key, ky, y.key);
  }

  /** No secret and nonce is used for two traffic messages, by the same end or by
      different ones, in any run whose keys do not collide.  Messages of different
      ends do not even share a secret. */
  lemma NoSecretTwice(c: Crypto, ws: seq<World>, ms: seq<Move>, i: nat, onLeft: bool)
    requires Lawful(c) && IsRun(c, ws, ms) && i < |ws|
    requires SeparatedIn(c, ws[i]) && PairsApart(c, ws[i].left, ws[i].right)
    ensures var p, q := Side(ws[i], onLeft), Side(ws[i], !onLeft);
            && (forall j, k :: 0 <= j < k < |p.seals| ==>
                  SecretOf(c, p.seals[j]) != SecretOf(c, p.seals[k]) || p.seals[j].nonce != p.seals[k].nonce)
            && (forall x, y :: x in p.seals && y in q.seals ==> SecretOf(c, x) != SecretOf(c, y))
  {
    var p, q := Side(ws[i], onLeft), Side(ws[i], !onLeft);
    RunIsOk(c, ws, ms, i);
    SealsAreNamed(c, ws, ms, i);
    LabelsNeverCross(c, ws, ms, i);
    OtherWay(ws[i].left, ws[i].right);
    NoNonceReuseTogether(c, ws, ms, i, onLeft);
    NoNonceReuseTogether(c, ws, ms, i, !onLeft);
    PairsApartOtherWay(c, ws[i].left, ws[i].right);
    forall j, k | 0 <= j < k < |p.seals|
      ensures SecretOf(c, p.seals[j]) != SecretOf(c, p.seals[k]) || p.seals[j].nonce != p.seals[k].nonce
    {
      assert p.seals[j] in p.seals && p.seals[k] in p.seals;
      if SecretOf(c, p.seals[j]) == SecretOf(c, p.seals[k]) { SameEndSameKey(c, p, q, p.seals[j], p.seals[k]); }
    }
    forall x, y | x in p.seals && y in q.seals ensures SecretOf(c, x) != SecretOf(c, y) {
      OtherEndOtherSecret(c, p, q, x, y);
    }
  }

  lemma PairsApartOtherWay(c: Crypto, p: Peer, q: Peer)
    requires PairsApart(c, p, q)
    ensures PairsApart(c, q, p)
  {
    forall a, b, x, y ensures OnlyPairOf(c, q, p, a, b, x, y) {
      assert OnlyPairOf(c, p, q, a, b, x, y);
    }
  }
}
