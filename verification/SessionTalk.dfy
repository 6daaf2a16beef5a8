/** A conversation: two sessions in step understand each other for ever, however
    often their keys rotate, if each message arrives before the next is written. */
module SessionTalk {
  import opened Basics
  import opened Ratchet
  import opened SessionProtocol

  /** The cached secrets belong to the keys. */
  predicate Cached(c: Crypto, s: Sess)
  {
    && s.recvShared == c.dh(s.current, s.recvPriv) && s.sendShared == c.dh(s.current, s.sendPriv)
    && s.nextSendShared == c.dh(s.next, s.sendPriv) && s.nextRecvShared == c.dh(s.next, s.recvPriv)
  }

  /** `p` has followed `q`, and `q` has not yet followed `p`: `p` knows the keys of
      `q` as they are, and `q` those of `p` as they were one step ago. */
  predicate Leads(c: Crypto, p: Sess, q: Sess)
  {
    && Cached(c, p) && Cached(c, q)
    && p.localKeySeq == q.remoteKeySeq + 1 && p.remoteKeySeq == q.localKeySeq
    && p.current == c.pub(q.sendPriv) && p.next == c.pub(q.nextPriv)
    && q.current == c.pub(p.recvPriv) && q.next == c.pub(p.sendPriv)
    && p.recvNonce <= q.sendNonce && q.nextSendNonce <= p.sendNonce && p.nextSendNonce == 0
  }

  predicate InStep(c: Crypto, p: Sess, q: Sess) { Leads(c, p, q) || Leads(c, q, p) }

  /** The message of the one that leads arrives, and passes the lead on if the other
      may rotate its keys. */
  lemma LeaderIsHeard(c: Crypto, p: Sess, q: Sess, d: Data, may: bool, made: Secret, more: Secret)
    requires Lawful(c) && Leads(c, p, q) && p.sendNonce + 1 < U64
    ensures var p' := Bumped(c, p, more);
            var r := Receive(c, q, TrafficFor(c, p', d), may, made);
            && r.1 == Delivered(d) && (if may then Leads(c, r.0, p') else Leads(c, p', r.0))
            && p'.sendNonce == p.sendNonce + 1 && r.0.sendNonce <= q.sendNonce
  {
    var p' := Bumped(c, p, more);
    var t := TrafficFor(c, p', d);
    assert CaseOf(q, t) == NextToSend;
    assert p'.sendShared == q.nextSendShared;
    assert c.open(t.box, t.nonce, q.nextSendShared) == Some((c.pub(p.nextPriv), d));
  }

  /** So does the message of the other, which changes no keys. */
  lemma FollowerIsHeard(c: Crypto, p: Sess, q: Sess, d: Data, may: bool, made: Secret, more: Secret)
    requires Lawful(c) && Leads(c, p, q) && q.sendNonce + 1 < U64
    ensures var q' := Bumped(c, q, more);
            var r := Receive(c, p, TrafficFor(c, q', d), may, made);
            && r.1 == Delivered(d) && Leads(c, r.0, q')
            && q'.sendNonce == q.sendNonce + 1 && r.0.sendNonce == p.sendNonce
  {
    var q' := Bumped(c, q, more);
    var t := TrafficFor(c, q', d);
    assert CaseOf(p, t) == CurrentToRecv;
    assert q'.sendShared == p.recvShared;
    assert c.open(t.box, t.nonce, p.recvShared) == Some((c.pub(q.nextPriv), d));
  }

  // ------------------------------------------------------------------- conversations

  /** One end writes, and the other receives; keys are made on the way. */
  datatype Turn = Turn(byFirst: bool, data: Data, mayRotate: bool, made: Secret, more: Secret)

  /** Both sessions after a turn, and what came of the message. */
  function Taken(c: Crypto, p: Sess, q: Sess, u: Turn): (r: (Sess, Sess, Outcome))
  {
    var from := Bumped(c, if u.byFirst then p else q, u.more);
    var to := Receive(c, if u.byFirst then q else p, TrafficFor(c, from, u.data), u.mayRotate, u.made);
    if u.byFirst then (from, to.0, to.1) else (to.0, from, to.1)
  }

  /** What is delivered in a conversation, turn by turn. */
  function Heard(c: Crypto, p: Sess, q: Sess, us: seq<Turn>): (os: seq<Outcome>)
    ensures |os| == |us|
    decreases |us|
  {
    if us == [] then [] else
    var r := Taken(c, p, q, us[0]);
    [r.2] + Heard(c, r.0, r.1, us[1..])
  }

  /** Send nonces grow by at most one a turn, or start again. */
  lemma SpokenIsHeard(c: Crypto, p: Sess, q: Sess, u: Turn)
    requires Lawful(c) && InStep(c, p, q) && p.sendNonce + 1 < U64
    ensures var p' := Bumped(c, p, u.more);
            var r := Receive(c, q, TrafficFor(c, p', u.data), u.mayRotate, u.made);
            && r.1 == Delivered(u.data) && InStep(c, p', r.0)
            && p'.sendNonce == p.sendNonce + 1 && r.0.sendNonce <= q.sendNonce
  {
    if Leads(c, p, q) {
      LeaderIsHeard(c, p, q, u.data, u.mayRotate, u.made, u.more);
    } else {
      FollowerIsHeard(c, q, p, u.data, u.mayRotate, u.made, u.more);
    }
  }

  lemma TurnIsHeard(c: Crypto, p: Sess, q: Sess, u: Turn, n: nat)
    requires Lawful(c) && InStep(c, p, q) && p.sendNonce <= n && q.sendNonce <= n && n + 1 < U64
    ensures var r := Taken(c, p, q, u);
            && r.2 == Delivered(u.data) && InStep(c, r.0, r.1)
            && r.0.sendNonce <= n + 1 && r.1.sendNonce <= n + 1
  {
    if u.byFirst { SpokenIsHeard(c, p, q, u); } else { SpokenIsHeard(c, q, p, u); }
  }

  /** Every message of a conversation of less than 2^64 turns is delivered as it was
      written, whoever writes when and however often keys rotate. */
  lemma {:induction false} ConversationIsHeard(c: Crypto, p: Sess, q: Sess, us: seq<Turn>, n: nat, i: nat)
    requires Lawful(c) && InStep(c, p, q) && p.sendNonce <= n && q.sendNonce <= n && n + |us| < U64 && i < |us|
    ensures Heard(c, p, q, us)[i] == Delivered(us[i].data)
    decreases |us|
  {
    var r := Taken(c, p, q, us[0]);
    TurnIsHeard(c, p, q, us[0], n);
    if i > 0 { ConversationIsHeard(c, r.0, r.1, us[1..], n + 1, i - 1); }
  }

  // ------------------------------------------------------------------------ handshake

  /** From nothing: one end writes, the other takes its init, and the ack comes back.
      Then both have sessions in step, and the data that waited is heard. */
  lemma HandshakeIsInStep(c: Crypto, d: Data, now: nat, now': nat, ours: seq<Secret>, theirs: seq<Secret>,
                          more: seq<Secret>, may: bool, made: Secret)
    requires Lawful(c) && |ours| >= 5 && |theirs| >= 5 && |more| >= 5 && 0 < now < U64 && 0 < now' < U64
    ensures var p := Act(c, IDLE, Write(d, now), ours);
            p.end.Waiting? && InitMsg(p.end.init) in p.out &&
            var q := Act(c, IDLE, Get(InitMsg(p.end.init), may, now'), theirs);
            q.end.Open? && AckMsg(InitFor(c, q.end.sess, now')) in q.out &&
            var p' := Act(c, p, Get(AckMsg(InitFor(c, q.end.sess, now')), may, now'), more);
            && p'.end.Open? && TrafficMsg(TrafficFor(c, p'.end.sess, d)) in p'.out
            && InStep(c, p'.end.sess, q.end.sess)
            && Receive(c, q.end.sess, TrafficFor(c, p'.end.sess, d), may, made).1 == Delivered(d)
  {
    var p := Act(c, IDLE, Write(d, now), ours);
    var q := Act(c, IDLE, Get(InitMsg(p.end.init), may, now'), theirs);
    var ack := InitFor(c, q.end.sess, now');
    var s := TakeInit(c, Begin(c, p, ack, more), Begin(c, p, ack, more).end.sess, ack, now', more[3]).end.sess;
    assert Leads(c, s, q.end.sess);
    LeaderIsHeard(c, s, q.end.sess, d, may, made, more[4]);
    LeaderIsHeard(c, s, q.end.sess, d, false, made, more[4]);
  }
}
