/** No message is delivered twice: when a session has done with a message, and
    exactly what can bring the message back. */
module SessionReplay {
  import opened Basics
  import opened Ratchet
  import opened SessionProtocol

  // ----------------------------------------------------------- one event at a time

  /** The message is sealed to keys we have had, and either under keys that were
      given up, or with a nonce that is not above the last one under its labels. */
  predicate Spent(s: Sess, t: Traffic)
  {
    && t.remoteKeySeq <= s.localKeySeq
    && (|| t.remoteKeySeq + 1 < s.localKeySeq
        || t.localKeySeq < s.remoteKeySeq
        || (CaseOf(s, t) != Senseless && t.nonce <= NonceOf(s, CaseOf(s, t))))
  }

  /** Whatever the box holds, in any session. */
  lemma SpentIsRefused(c: Crypto, s: Sess, t: Traffic, may: bool, made: Secret)
    requires Spent(s, t)
    ensures !Receive(c, s, t, may, made).1.Delivered? && Receive(c, s, t, may, made).0 == s
  {
  }

  /** What is delivered is spent, whether keys rotate or not. */
  lemma DeliveredIsSpent(c: Crypto, s: Sess, t: Traffic, may: bool, made: Secret)
    requires Receive(c, s, t, may, made).1.Delivered?
    ensures Spent(Receive(c, s, t, may, made).0, t)
  {
  }

  /** So the same message again is refused and changes nothing. */
  lemma AtOnceRefused(c: Crypto, s: Sess, t: Traffic, may: bool, made: Secret, may': bool, made': Secret)
    requires Receive(c, s, t, may, made).1.Delivered?
    ensures var s' := Receive(c, s, t, may, made).0;
            !Receive(c, s', t, may', made').1.Delivered? && Receive(c, s', t, may', made').0 == s'
  {
    DeliveredIsSpent(c, s, t, may, made);
    SpentIsRefused(c, Receive(c, s, t, may, made).0, t, may', made');
  }

  /** What can happen to a session. */
  datatype Event =
    | Sent(made: Secret)
    | Received(traffic: Traffic, mayRotate: bool, made: Secret)
    | Took(init: Init, made: Secret)

  function After(c: Crypto, s: Sess, e: Event): (s': Sess)
  {
    match e
    case Sent(made) => Bumped(c, s, made)
    case Received(u, may, made) => Receive(c, s, u, may, made).0
    case Took(i, made) => HandleInit(c, s, i, made)
  }

  /** The message was sealed to our send key by the remote's next key. */
  predicate ToSendKey(s: Sess, t: Traffic) { CaseOf(s, t) == NextToSend }

  /** The three events that bring a spent message back: the send nonce overflows;
      the remote's keys are followed on a lower nonce sealed to our receive key;
      or an init or ack brings back keys that the message is labelled with. */
  predicate Revives(c: Crypto, s: Sess, e: Event, t: Traffic)
  {
    match e
    case Sent(_) => s.sendNonce + 1 == U64 && ToSendKey(s, t) && t.nonce > 0
    case Received(u, may, made) =>
      && ToSendKey(s, t) && may && Receive(c, s, u, may, made).1.Delivered?
      && CaseOf(s, u) == NextToRecv && u.nonce < t.nonce
    case Took(i, _) =>
      && s.seqno < i.seqno && t.remoteKeySeq == s.localKeySeq && i.keySeq <= t.localKeySeq
      && (t.nonce > 0 || i.keySeq + 1 < t.localKeySeq)
  }

  /** A spent message stays spent exactly through the other events. */
  lemma SpentStaysExactly(c: Crypto, s: Sess, e: Event, t: Traffic)
    requires Spent(s, t) && s.sendNonce < U64
    ensures Spent(After(c, s, e), t) <==> !Revives(c, s, e, t)
  {
  }

  /** The overflow does it: of the messages just delivered, exactly those to our
      send key are delivered once more after it. */
  lemma OverflowRedelivers(c: Crypto, s: Sess, t: Traffic, may: bool, made: Secret, more: Secret, may': bool,
                           made': Secret)
    requires s.nextSendShared == c.dh(s.next, s.sendPriv)
    requires var r := Receive(c, s, t, may, made); r.1.Delivered? && r.0.sendNonce + 1 == U64
    ensures var r := Receive(c, s, t, may, made);
            var again := Receive(c, Bumped(c, r.0, more), t, may', made').1;
            (again.Delivered? <==> ToSendKey(s, t)) && (again.Delivered? ==> again == r.1)
  {
  }

  // ------------------------------------------------------------------------ runs

  /** All that `q` sent under one label of its own was sealed to one key. */
  ghost predicate OneAddressee(q: Peer)
  {
    && (forall t, u :: TrafficMsg(t) in q.out && TrafficMsg(u) in q.out && t.localKeySeq == u.localKeySeq ==>
          t.remoteKeySeq == u.remoteKeySeq)
    && (forall t :: TrafficMsg(t) in q.out ==> q.end.Open? && UnderLabel(q.end.sess, t))
  }

  predicate UnderLabel(s: Sess, t: Traffic)
  {
    t.localKeySeq < s.localKeySeq || (t.localKeySeq == s.localKeySeq && t.remoteKeySeq == s.remoteKeySeq)
  }

  /** Our label advances or both labels stay, and what is sent carries the new ones. */
  ghost predicate Relabels(p: Peer, p': Peer)
  {
    && (p.end.Open? ==> p'.end.Open? && forall t :: UnderLabel(p.end.sess, t) ==> UnderLabel(p'.end.sess, t))
    && (forall t :: TrafficMsg(t) in p'.out && TrafficMsg(t) !in p.out ==>
          p'.end.Open? && t.localKeySeq == p'.end.sess.localKeySeq && t.remoteKeySeq == p'.end.sess.remoteKeySeq)
  }

  lemma RelabelledKeeps(p: Peer, p': Peer)
    requires OneAddressee(p) && Relabels(p, p')
    ensures OneAddressee(p')
  {
    forall t | TrafficMsg(t) in p'.out ensures p'.end.Open? && UnderLabel(p'.end.sess, t) {
    }
  }

  lemma ActRelabels(c: Crypto, p: Peer, a: Action, made: seq<Secret>)
    requires |made| >= 5
    ensures Relabels(p, Act(c, p, a, made))
  {
  }

  lemma {:induction false} OneAddresseeInRuns(c: Crypto, ws: seq<World>, ms: seq<Move>, i: nat, onLeft: bool)
    requires IsRun(c, ws, ms) && i < |ws|
    ensures OneAddressee(Side(ws[i], onLeft))
  {
    if i > 0 {
      var k := i - 1;
      OneAddresseeInRuns(c, ws, ms, k, onLeft);
      assert Next(c, ws[k], ms[k], ws[k + 1]);
      if ms[k].onLeft == onLeft {
        ActRelabels(c, Side(ws[k], onLeft), ms[k].action, ms[k].made);
        RelabelledKeeps(Side(ws[k], onLeft), Side(ws[i], onLeft));
      }
    }
  }

  /** The move hands `t` to the session of an endpoint, which passes on what is in it. */
  ghost predicate Delivers(c: Crypto, w: World, m: Move, t: Traffic)
  {
    && m.action.Get? && m.action.msg == TrafficMsg(t) && Side(w, m.onLeft).end.Open? && |m.made| >= 5
    && Receive(c, Side(w, m.onLeft).end.sess, t, m.action.mayRotate, m.made[0]).1.Delivered?
  }

  /** The endpoint takes no init or ack in this move, and its send nonce does not overflow. */
  ghost predicate Steady(w: World, m: Move, onLeft: bool)
  {
    m.onLeft == onLeft && Side(w, onLeft).end.Open? ==>
      var s := Side(w, onLeft).end.sess;
      match m.action
      case Write(_, _) => s.sendNonce + 1 < U64
      case Get(TrafficMsg(_), _, _) => true
      case Get(InitMsg(i), _, _) => i.seqno <= s.seqno
      case Get(AckMsg(i), _, _) => i.seqno <= s.seqno
  }

  ghost predicate SpentAt(w: World, onLeft: bool, t: Traffic)
  {
    Side(w, onLeft).end.Open? && Spent(Side(w, onLeft).end.sess, t)
  }

  /** Between two ends that follow the protocol, a steady move brings nothing back. */
  lemma SteadyStaysSpent(c: Crypto, w: World, m: Move, w': World, onLeft: bool, t: Traffic)
    requires Next(c, w, m, w') && Steady(w, m, onLeft) && SpentAt(w, onLeft, t)
    requires OneAddressee(Side(w, !onLeft)) && TrafficMsg(t) in Side(w, !onLeft).out
    requires Side(w, onLeft).end.sess.sendNonce < U64
    ensures SpentAt(w', onLeft, t)
  {
    if m.onLeft == onLeft {
      var s, made := Side(w, onLeft).end.sess, m.made[0];
      var e := match m.action
        case Write(_, _) => Sent(made)
        case Get(TrafficMsg(u), may, _) => Received(u, may, made)
        case Get(InitMsg(i), _, _) => Took(i, made)
        case Get(AckMsg(i), _, _) => Took(i, made);
      assert Side(w', onLeft).end == Open(After(c, s, e));
      assert !Revives(c, s, e, t);
      SpentStaysExactly(c, s, e, t);
    }
  }

  lemma {:induction false} StaysSpent(c: Crypto, ws: seq<World>, ms: seq<Move>, i: nat, j: nat, t: Traffic)
    requires IsRun(c, ws, ms) && i < j < |ws| && Delivers(c, ws[i], ms[i], t)
    requires forall k :: i < k < j ==> Steady(ws[k], ms[k], ms[i].onLeft)
    ensures SpentAt(ws[j], ms[i].onLeft, t) && TrafficMsg(t) in Side(ws[j], !ms[i].onLeft).out
  {
    var side, k := ms[i].onLeft, j - 1;
    assert Next(c, ws[k], ms[k], ws[j]);
    if k == i {
      DeliveredIsSpent(c, Side(ws[i], side).end.sess, t, ms[i].action.mayRotate, ms[i].made[0]);
    } else {
      StaysSpent(c, ws, ms, i, k, t);
      OneAddresseeInRuns(c, ws, ms, k, !side);
      LocalAlongRun(c, ws, ms, k);
      SteadyStaysSpent(c, ws[k], ms[k], ws[j], side, t);
      if ms[k].onLeft != side { ActKeepsOut(c, Side(ws[k], !side), ms[k].action, ms[k].made); }
    }
  }

  /** No replay: in every run of the two, over a network that duplicates and
      reorders at will, an endpoint is handed no message twice with success unless
      it took an init or ack or used up its send nonces in between.  Nothing is
      asked of the cryptography. */
  lemma DeliveredAtMostOnce(c: Crypto, ws: seq<World>, ms: seq<Move>, i: nat, j: nat, t: Traffic)
    requires IsRun(c, ws, ms) && i < j < |ms| && ms[j].onLeft == ms[i].onLeft
    requires Delivers(c, ws[i], ms[i], t) && forall k :: i < k < j ==> Steady(ws[k], ms[k], ms[i].onLeft)
    ensures !Delivers(c, ws[j], ms[j], t)
  {
    StaysSpent(c, ws, ms, i, j, t);
    if ms[j].action.Get? && |ms[j].made| >= 5 {
      SpentIsRefused(c, Side(ws[j], ms[i].onLeft).end.sess, t, ms[j].action.mayRotate, ms[j].made[0]);
    }
  }
}
