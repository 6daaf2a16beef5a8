/** What goes through a session: a message sealed around some data is delivered as
    that data, and nothing is delivered that the other end did not write. */
module SessionData {
  import opened Basics
  import opened Ratchet
  import opened SessionProtocol

  /** Sealed around `d` under the secret that the labels select. */
  lemma SealedIsDelivered(c: Crypto, s: Sess, t: Traffic, k: Pub, d: Data, may: bool, made: Secret)
    requires Lawful(c) && CaseOf(s, t) != Senseless && t.nonce > NonceOf(s, CaseOf(s, t))
    requires SealedAs(c, t, k, d, SharedOf(s, CaseOf(s, t)))
    ensures Receive(c, s, t, may, made).1 == Delivered(d)
  {
    assert c.open(c.seal(k, d, t.nonce, SharedOf(s, CaseOf(s, t))), t.nonce, SharedOf(s, CaseOf(s, t))) == Some((k, d));
  }

  /** Traffic labelled (n, r) around `d` is sealed between our K[n+1] and the remote's `x`. */
  predicate Holds(c: Crypto, keys: map<nat, Secret>, x: Secret, t: Traffic, d: Data)
  {
    && t.localKeySeq + 1 in keys && t.localKeySeq + 2 in keys
    && SealedAs(c, t, c.pub(keys[t.localKeySeq + 2]), d, c.dh(c.pub(x), keys[t.localKeySeq + 1]))
  }

  /** `x` is the key that the message's label names, or a forgotten one. */
  predicate Addressed(q: Peer, x: Secret, t: Traffic) { Has(q.keys, t.remoteKeySeq + 1, x) || x in q.lost }

  /** The message of `p` to `q` carries `d`. */
  ghost predicate Carries(c: Crypto, p: Peer, q: Peer, t: Traffic, d: Data)
  {
    exists x :: Addressed(q, x, t) && Holds(c, p.keys, x, t, d)
  }

  lemma CarriesGrows(c: Crypto, p: Peer, q: Peer, p': Peer, q': Peer, t: Traffic, d: Data)
    requires Carries(c, p, q, t, d) && Grows(p, p') && Grows(q, q')
    ensures Carries(c, p', q', t, d)
  {
    var x :| Addressed(q, x, t) && Holds(c, p.keys, x, t, d);
    assert Addressed(q', x, t) && Holds(c, p'.keys, x, t, d);
  }

  /** What an open session seals carries what it was given. */
  lemma SentCarries(c: Crypto, p: Peer, q: Peer, d: Data)
    requires LocalOk(c, p) && p.end.Open? && RemoteOk(c, p, q)
    ensures Carries(c, p, q, TrafficFor(c, p.end.sess, d), d)
  {
    var s := p.end.sess;
    var t := TrafficFor(c, s, d);
    var x;
    if KeptKeys(c, q.keys, s) {
      x := q.keys[s.remoteKeySeq + 1];
    } else {
      x :| x in q.lost && s.current == c.pub(x);
    }
    assert Addressed(q, x, t) && Holds(c, p.keys, x, t, d);
  }

  /** What is sealed to a key that we kept is delivered as it was, if it opens. */
  lemma KeptIsDelivered(c: Crypto, keys: map<nat, Secret>, remote: map<nat, Secret>, s: Sess, t: Traffic, x: Secret,
                        d: Data, may: bool, made: Secret)
    requires Lawful(c) && GoodSess(c, keys, remote, s) && GoodTraffic(c, remote, keys, t)
    requires Has(keys, t.remoteKeySeq + 1, x) && Holds(c, remote, x, t, d)
    requires CaseOf(s, t) != Senseless && t.nonce > NonceOf(s, CaseOf(s, t))
    ensures Receive(c, s, t, may, made).1 == Delivered(d)
  {
    AcceptedTrafficOpens(c, keys, remote, s, t);
    SealedIsDelivered(c, s, t, c.pub(remote[t.localKeySeq + 2]), d, may, made);
  }

  /** What is sealed to a key that we forgot does not open. */
  lemma ForgottenIsNot(c: Crypto, p: Peer, q: Peer, t: Traffic, x: Secret, d: Data)
    requires Separated(c, p, q) && LocalOk(c, p) && LocalOk(c, q) && Apart(p, q) && p.end.Open? && RemoteOk(c, p, q)
    requires KeptKeys(c, q.keys, p.end.sess) && TrafficMsg(t) in q.out && CaseOf(p.end.sess, t) != Senseless
    requires x in p.lost && Holds(c, q.keys, x, t, d)
    ensures !Opens(c, p.end.sess, t)
  {
    var k, y := c.pub(q.keys[t.localKeySeq + 2]), q.keys[t.localKeySeq + 1];
    var a, b := TriedPair(c, p, q, t);
    assert Sealed(c, t, k, SharedBy(c, x, y));
    PairsDiffer(c, p, q, a, b, x, y);
    OtherPairFails(c, p, q, t, k, x, y, a, b);
  }

  lemma DeliveredOpens(c: Crypto, p: Peer, q: Peer, t: Traffic, may: bool, made: Secret)
    requires Lawful(c) && Separated(c, p, q) && PeerOk(c, p, q) && PeerOk(c, q, p) && p.end.Open?
    requires TrafficMsg(t) in q.out && Receive(c, p.end.sess, t, may, made).1.Delivered?
    ensures var s := p.end.sess;
            && CaseOf(s, t) != Senseless && t.nonce > NonceOf(s, CaseOf(s, t)) && Opens(c, s, t)
            && GoodSess(c, p.keys, q.keys, s) && GoodTraffic(c, q.keys, p.keys, t)
    ensures LocalOk(c, p) && LocalOk(c, q) && Apart(p, q) && RemoteOk(c, p, q)
  {
    OpensWhenKept(c, p, q, t);
  }

  lemma HeldIsDelivered(c: Crypto, p: Peer, q: Peer, t: Traffic, x: Secret, d: Data, may: bool, made: Secret)
    requires Lawful(c) && Separated(c, p, q) && TrafficMsg(t) in q.out && p.end.Open?
    requires var s := p.end.sess;
             && CaseOf(s, t) != Senseless && t.nonce > NonceOf(s, CaseOf(s, t)) && Opens(c, s, t)
             && GoodSess(c, p.keys, q.keys, s) && GoodTraffic(c, q.keys, p.keys, t)
    requires LocalOk(c, p) && LocalOk(c, q) && Apart(p, q) && RemoteOk(c, p, q)
    requires Addressed(p, x, t) && Holds(c, q.keys, x, t, d)
    ensures Receive(c, p.end.sess, t, may, made).1 == Delivered(d)
  {
    if x in p.lost { ForgottenIsNot(c, p, q, t, x, d); }
    KeptIsDelivered(c, p.keys, q.keys, p.end.sess, t, x, d, may, made);
  }

  /** If the receiver delivers anything from the message, it is what the message carries. */
  lemma DeliveredIsCarried(c: Crypto, p: Peer, q: Peer, t: Traffic, d: Data, may: bool, made: Secret)
    requires Lawful(c) && Separated(c, p, q) && PeerOk(c, p, q) && PeerOk(c, q, p) && p.end.Open?
    requires TrafficMsg(t) in q.out && Carries(c, q, p, t, d)
    requires Receive(c, p.end.sess, t, may, made).1.Delivered?
    ensures Receive(c, p.end.sess, t, may, made).1 == Delivered(d)
  {
    DeliveredOpens(c, p, q, t, may, made);
    var x :| Addressed(p, x, t) && Holds(c, q.keys, x, t, d);
    HeldIsDelivered(c, p, q, t, x, d, may, made);
  }

  // ------------------------------------------------------------------------ runs

  /** What an endpoint was given to send in these moves. */
  ghost predicate Wrote(ms: seq<Move>, n: nat, onLeft: bool, d: Data)
    requires n <= |ms|
  {
    exists k :: 0 <= k < n && ms[k].onLeft == onLeft && ms[k].action.Write? && ms[k].action.data == d
  }

  ghost predicate FromWritten(c: Crypto, ws: seq<World>, ms: seq<Move>, i: nat, onLeft: bool, t: Traffic)
    requires i < |ws| && i <= |ms|
  {
    exists d :: Wrote(ms, i, onLeft, d) && Carries(c, Side(ws[i], onLeft), Side(ws[i], !onLeft), t, d)
  }

  /** Everything an endpoint sent, or keeps waiting, was written. */
  ghost predicate OnlyWritten(c: Crypto, ws: seq<World>, ms: seq<Move>, i: nat, onLeft: bool)
    requires i < |ws| && i <= |ms|
  {
    && (forall t :: TrafficMsg(t) in Side(ws[i], onLeft).out ==> FromWritten(c, ws, ms, i, onLeft, t))
    && (Side(ws[i], onLeft).end.Waiting? ==> Wrote(ms, i, onLeft, Side(ws[i], onLeft).end.data))
  }

  /** The new traffic of a step: at most one message, around what was written now or waited. */
  lemma NewTraffic(c: Crypto, p: Peer, a: Action, made: seq<Secret>, t: Traffic)
    requires |made| >= 5 && TrafficMsg(t) in Act(c, p, a, made).out && TrafficMsg(t) !in p.out
    ensures a.Write? || p.end.Waiting?
    ensures var p' := Act(c, p, a, made);
            p'.end.Open? && t == TrafficFor(c, p'.end.sess, if a.Write? then a.data else p.end.data)
  {
  }

  lemma StillWaiting(c: Crypto, p: Peer, a: Action, made: seq<Secret>)
    requires |made| >= 5
    ensures var p' := Act(c, p, a, made);
            p'.end.Waiting? ==> if a.Write? then p'.end.data == a.data else p'.end == p.end
  {
  }

  lemma FromWrittenStays(c: Crypto, ws: seq<World>, ms: seq<Move>, k: nat, onLeft: bool, t: Traffic)
    requires k < |ms| && |ws| == |ms| + 1 && FromWritten(c, ws, ms, k, onLeft, t)
    requires Grows(ws[k].left, ws[k + 1].left) && Grows(ws[k].right, ws[k + 1].right)
    ensures FromWritten(c, ws, ms, k + 1, onLeft, t)
  {
    var d :| Wrote(ms, k, onLeft, d) && Carries(c, Side(ws[k], onLeft), Side(ws[k], !onLeft), t, d);
    var p', q' := Side(ws[k + 1], onLeft), Side(ws[k + 1], !onLeft);
    CarriesGrows(c, Side(ws[k], onLeft), Side(ws[k], !onLeft), p', q', t, d);
    assert Wrote(ms, k + 1, onLeft, d) && Carries(c, p', q', t, d);
  }

  lemma WorldGrows(c: Crypto, ws: seq<World>, ms: seq<Move>, k: nat)
    requires IsRun(c, ws, ms) && k < |ms|
    ensures Grows(ws[k].left, ws[k + 1].left) && Grows(ws[k].right, ws[k + 1].right)
  {
    LocalAlongRun(c, ws, ms, k);
    assert Next(c, ws[k], ms[k], ws[k + 1]);
    ActLocal(c, Side(ws[k], ms[k].onLeft), ms[k].action, ms[k].made);
  }

  lemma {:induction false} RunsSendWritten(c: Crypto, ws: seq<World>, ms: seq<Move>, i: nat, onLeft: bool)
    requires Lawful(c) && IsRun(c, ws, ms) && i < |ws| && SeparatedIn(c, ws[i])
    ensures OnlyWritten(c, ws, ms, i, onLeft)
  {
    if i > 0 {
      var k := i - 1;
      assert Next(c, ws[k], ms[k], ws[i]);
      LocalAlongRun(c, ws, ms, k);
      SeparatedOneBefore(c, ws[k], ms[k], ws[i]);
      RunsSendWritten(c, ws, ms, k, onLeft);
      RunIsOk(c, ws, ms, i);
      OneMoveWritten(c, ws, ms, k, onLeft);
    }
  }

  lemma OneMoveWritten(c: Crypto, ws: seq<World>, ms: seq<Move>, k: nat, onLeft: bool)
    requires IsRun(c, ws, ms) && k < |ms| && OnlyWritten(c, ws, ms, k, onLeft)
    requires PeerOk(c, Side(ws[k + 1], onLeft), Side(ws[k + 1], !onLeft))
    ensures OnlyWritten(c, ws, ms, k + 1, onLeft)
  {
    WorldGrows(c, ws, ms, k);
    var p, p', q' := Side(ws[k], onLeft), Side(ws[k + 1], onLeft), Side(ws[k + 1], !onLeft);
    assert Next(c, ws[k], ms[k], ws[k + 1]);
    var a := ms[k].action;
    forall t | TrafficMsg(t) in p'.out ensures FromWritten(c, ws, ms, k + 1, onLeft, t) {
      if TrafficMsg(t) in p.out {
        FromWrittenStays(c, ws, ms, k, onLeft, t);
      } else {
        NewTraffic(c, p, a, ms[k].made, t);
        var d := if a.Write? then a.data else p.end.data;
        SentCarries(c, p', q', d);
        assert Wrote(ms, k + 1, onLeft, d);
      }
    }
    if ms[k].onLeft == onLeft { StillWaiting(c, p, a, ms[k].made); }
  }

  /** In every run, whatever an endpoint delivers is something that the other end
      wrote before. */
  lemma DeliveredWasWritten(c: Crypto, ws: seq<World>, ms: seq<Move>, i: nat, onLeft: bool, t: Traffic, may: bool,
                            made: Secret)
    requires Lawful(c) && IsRun(c, ws, ms) && i < |ws| && SeparatedIn(c, ws[i])
    requires Side(ws[i], onLeft).end.Open? && TrafficMsg(t) in Side(ws[i], !onLeft).out
    requires Receive(c, Side(ws[i], onLeft).end.sess, t, may, made).1.Delivered?
    ensures Wrote(ms, i, !onLeft, Receive(c, Side(ws[i], onLeft).end.sess, t, may, made).1.data)
  {
    RunIsOk(c, ws, ms, i);
    SeparatedOtherWay(c, ws[i].left, ws[i].right);
    RunsSendWritten(c, ws, ms, i, !onLeft);
    var p, q := Side(ws[i], onLeft), Side(ws[i], !onLeft);
    assert FromWritten(c, ws, ms, i, !onLeft, t);
    var d :| Wrote(ms, i, !onLeft, d) && Carries(c, q, p, t, d);
    DeliveredIsCarried(c, p, q, t, d, may, made);
  }

  lemma {:induction false} CarriesOn(c: Crypto, ws: seq<World>, ms: seq<Move>, i: nat, j: nat, onLeft: bool, t: Traffic,
                                     d: Data)
    requires IsRun(c, ws, ms) && i <= j < |ws| && Carries(c, Side(ws[i], onLeft), Side(ws[i], !onLeft), t, d)
    requires TrafficMsg(t) in Side(ws[i], onLeft).out
    ensures Carries(c, Side(ws[j], onLeft), Side(ws[j], !onLeft), t, d) && TrafficMsg(t) in Side(ws[j], onLeft).out
  {
    if i < j {
      var k := j - 1;
      CarriesOn(c, ws, ms, i, k, onLeft, t, d);
      WorldGrows(c, ws, ms, k);
      assert Next(c, ws[k], ms[k], ws[j]);
      ActKeepsOut(c, Side(ws[k], ms[k].onLeft), ms[k].action, ms[k].made);
      var w, w' := ws[k], ws[j];
      CarriesGrows(c, Side(w, onLeft), Side(w, !onLeft), Side(w', onLeft), Side(w', !onLeft), t, d);
    }
  }

  lemma {:induction false} SeparatedEarlier(c: Crypto, ws: seq<World>, ms: seq<Move>, i: nat, j: nat)
    requires IsRun(c, ws, ms) && i <= j < |ws| && SeparatedIn(c, ws[j])
    ensures SeparatedIn(c, ws[i])
  {
    if i < j {
      var k := j - 1;
      assert Next(c, ws[k], ms[k], ws[j]);
      LocalAlongRun(c, ws, ms, k);
      SeparatedOneBefore(c, ws[k], ms[k], ws[j]);
      SeparatedEarlier(c, ws, ms, i, k);
    }
  }

  /** And what is written on an open session is what the other end delivers, at any
      later time at which it accepts the message at all. */
  lemma WrittenIsDelivered(c: Crypto, ws: seq<World>, ms: seq<Move>, i: nat, j: nat, may: bool, made: Secret)
    requires Lawful(c) && IsRun(c, ws, ms) && i < j < |ws| && SeparatedIn(c, ws[j])
    requires ms[i].action.Write? && Side(ws[i], ms[i].onLeft).end.Open? && Side(ws[j], !ms[i].onLeft).end.Open?
    ensures Side(ws[i + 1], ms[i].onLeft).end.Open?
    ensures var t := TrafficFor(c, Side(ws[i + 1], ms[i].onLeft).end.sess, ms[i].action.data);
            var outcome := Receive(c, Side(ws[j], !ms[i].onLeft).end.sess, t, may, made).1;
            && TrafficMsg(t) in Side(ws[j], ms[i].onLeft).out
            && (outcome.Delivered? ==> outcome.data == ms[i].action.data)
  {
    var side, d := ms[i].onLeft, ms[i].action.data;
    assert Next(c, ws[i], ms[i], ws[i + 1]);
    SeparatedEarlier(c, ws, ms, i + 1, j);
    RunIsOk(c, ws, ms, i + 1);
    RunIsOk(c, ws, ms, j);
    SeparatedOtherWay(c, ws[j].left, ws[j].right);
    var t := TrafficFor(c, Side(ws[i + 1], side).end.sess, d);
    SentCarries(c, Side(ws[i + 1], side), Side(ws[i + 1], !side), d);
    CarriesOn(c, ws, ms, i + 1, j, side, t, d);
    var p, q := Side(ws[j], !side), Side(ws[j], side);
    if Receive(c, p.end.sess, t, may, made).1.Delivered? { DeliveredIsCarried(c, p, q, t, d, may, made); }
  }

  lemma WaitingBecomesTraffic(c: Crypto, p: Peer, a: Action, made: seq<Secret>)
    requires |made| >= 5 && p.end.Waiting? && Act(c, p, a, made).end.Open?
    ensures var p' := Act(c, p, a, made); TrafficMsg(TrafficFor(c, p'.end.sess, p.end.data)) in p'.out
  {
  }

  /** What waits for a session leaves as soon as there is one. */
  lemma WaitingIsSent(c: Crypto, ws: seq<World>, ms: seq<Move>, i: nat) returns (t: Traffic)
    requires Lawful(c) && IsRun(c, ws, ms) && i < |ms| && SeparatedIn(c, ws[i + 1])
    requires Side(ws[i], ms[i].onLeft).end.Waiting? && Side(ws[i + 1], ms[i].onLeft).end.Open?
    ensures var p, p', q' := Side(ws[i], ms[i].onLeft), Side(ws[i + 1], ms[i].onLeft), Side(ws[i + 1], !ms[i].onLeft);
            TrafficMsg(t) in p'.out && Carries(c, p', q', t, p.end.data)
  {
    assert Next(c, ws[i], ms[i], ws[i + 1]);
    RunIsOk(c, ws, ms, i + 1);
    var p, p' := Side(ws[i], ms[i].onLeft), Side(ws[i + 1], ms[i].onLeft);
    WaitingBecomesTraffic(c, p, ms[i].action, ms[i].made);
    SentCarries(c, p', Side(ws[i + 1], !ms[i].onLeft), p.end.data);
    t := TrafficFor(c, p'.end.sess, p.end.data);
  }

  /** It is the latest thing written. */
  lemma {:induction false} WaitingIsLatest(c: Crypto, ws: seq<World>, ms: seq<Move>, i: nat, k: nat, onLeft: bool)
    requires IsRun(c, ws, ms) && k < i < |ws| && Side(ws[i], onLeft).end.Waiting?
    requires ms[k].onLeft == onLeft && ms[k].action.Write?
    requires forall j :: k < j < i && ms[j].onLeft == onLeft ==> !ms[j].action.Write?
    ensures Side(ws[i], onLeft).end.data == ms[k].action.data
  {
    var j := i - 1;
    assert Next(c, ws[j], ms[j], ws[i]);
    StillWaiting(c, Side(ws[j], ms[j].onLeft), ms[j].action, ms[j].made);
    if j > k { WaitingIsLatest(c, ws, ms, j, k, onLeft); }
  }

  // --------------------------------------------------------------- ratchet and repair

  ghost predicate SameKeys(s: Sess, s': Sess)
  {
    && SameRemote(s, s') && s'.localKeySeq == s.localKeySeq
    && s'.recvPriv == s.recvPriv && s'.sendPriv == s.sendPriv && s'.nextPriv == s.nextPriv
  }

  /** Receiving moves both key sequences on by one, to the keys announced before,
      exactly when a message under the remote's next key opens and the last
      rotation is long enough ago; otherwise no key changes. */
  lemma RatchetsExactly(c: Crypto, s: Sess, t: Traffic, may: bool, made: Secret)
    ensures var r := Receive(c, s, t, may, made);
            if r.1.Delivered? && may && t.localKeySeq == s.remoteKeySeq + 1 then
              && r.0.remoteKeySeq == t.localKeySeq && r.0.current == s.next && OpensTo(c, s, t, r.0.next)
              && r.0.localKeySeq == s.localKeySeq + 1 && r.0.recvPriv == s.sendPriv && r.0.sendPriv == s.nextPriv
              && r.0.nextPriv == made
            else SameKeys(s, r.0)
  {
  }

  /** The key inside the message, under the secret that the labels select. */
  predicate OpensTo(c: Crypto, s: Sess, t: Traffic, k: Pub)
  {
    var plain := c.open(t.box, t.nonce, SharedOf(s, CaseOf(s, t)));
    plain.Some? && plain.value.0 == k
  }

  /** What is not delivered is asked about, unless it is a replay under labels that
      make sense, which is dropped in silence. */
  lemma UndeliveredIsAskedAbout(c: Crypto, s: Sess, t: Traffic, may: bool, made: Secret)
    ensures var r := Receive(c, s, t, may, made);
            && (r.1.Replayed? <==> CaseOf(s, t) != Senseless && t.nonce <= NonceOf(s, CaseOf(s, t)))
            && (r.1.OutOfSync? <==> !Opens(c, s, t) && !r.1.Replayed?)
            && (!r.1.Delivered? ==> r.0 == s)
  {
  }

  /** An init or ack that was taken is not taken again, and costs no send nonce. */
  lemma TakenOnce(c: Crypto, s: Sess, i: Init, made: Secret, made': Secret)
    ensures var s' := HandleInit(c, s, i, made);
            HandleInit(c, s', i, made') == s' && s'.sendNonce == s.sendNonce && s'.seqno >= s.seqno
  {
  }

  /** In every run a session that takes an init answers with an ack of its own new
      keys; one that cannot make sense of traffic asks with an init of them. */
  lemma AnswersWithKeys(c: Crypto, ws: seq<World>, ms: seq<Move>, i: nat)
    requires IsRun(c, ws, ms) && i < |ms| && ms[i].action.Get? && Side(ws[i], ms[i].onLeft).end.Open?
    requires |ms[i].made| >= 5
    ensures var p, p', a := Side(ws[i], ms[i].onLeft), Side(ws[i + 1], ms[i].onLeft), ms[i].action;
            && p'.end.Open? && GoodInit(c, p'.keys, InitFor(c, p'.end.sess, a.now))
            && (a.msg.InitMsg? && a.msg.init.seqno > p.end.sess.seqno ==>
                  AckMsg(InitFor(c, p'.end.sess, a.now)) in p'.out)
            && (a.msg.TrafficMsg? &&
                Receive(c, p.end.sess, a.msg.traffic, a.mayRotate, ms[i].made[0]).1.OutOfSync? ==>
                  InitMsg(InitFor(c, p'.end.sess, a.now)) in p'.out)
            && (a.msg.AckMsg? ==> p'.out == p.out)
  {
    LocalAlongRun(c, ws, ms, i + 1);
    assert Next(c, ws[i], ms[i], ws[i + 1]);
    InitForIsGood(c, Side(ws[i + 1], ms[i].onLeft).keys, Side(ws[i + 1], ms[i].onLeft).end.sess, ms[i].action.now);
  }

  lemma {:induction false} KeysGrow(c: Crypto, ws: seq<World>, ms: seq<Move>, i: nat, j: nat, onLeft: bool)
    requires IsRun(c, ws, ms) && i <= j < |ws|
    ensures Grows(Side(ws[i], onLeft), Side(ws[j], onLeft))
  {
    if i < j {
      KeysGrow(c, ws, ms, i, j - 1, onLeft);
      WorldGrows(c, ws, ms, j - 1);
    }
  }

  /** Repair: once the other end takes the init or ack with which a session answered
      at move i, it is in agreement again, whatever it held before. */
  lemma AnswerHeals(c: Crypto, ws: seq<World>, ms: seq<Move>, i: nat, j: nat, x: Init)
    requires Lawful(c) && IsRun(c, ws, ms) && i < j < |ms| && SeparatedIn(c, ws[j + 1])
    requires ms[i].action.Get? && Side(ws[i], ms[i].onLeft).end.Open? && |ms[i].made| >= 5
    requires x == InitFor(c, Act(c, Side(ws[i], ms[i].onLeft), ms[i].action, ms[i].made).end.sess, ms[i].action.now)
    requires ms[j].onLeft != ms[i].onLeft && ms[j].action.Get? &&
             (ms[j].action.msg == InitMsg(x) || ms[j].action.msg == AckMsg(x))
    requires var q := Side(ws[j], ms[j].onLeft); q.end.Open? ==> x.seqno > q.end.sess.seqno
    ensures var q', p := Side(ws[j + 1], ms[j].onLeft), Side(ws[j + 1], ms[i].onLeft);
            q'.end.Open? && GoodSess(c, q'.keys, p.keys, q'.end.sess)
  {
    assert Next(c, ws[i], ms[i], ws[i + 1]);
    assert Next(c, ws[j], ms[j], ws[j + 1]);
    AnswersWithKeys(c, ws, ms, i);
    KeysGrow(c, ws, ms, i + 1, j, ms[i].onLeft);
    KeptInitHeals(c, ws, ms, j, x);
  }
}
