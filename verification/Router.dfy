/** The router actor (ironwood/network/router.go, and the filter bookkeeping of
    ironwood/network/bloomfilter.go), updated in place.  Every method is one
    actor message; maps are walked in an arbitrary order, as in the source. */
module Router {
  import opened Basics
  import opened Keys
  import opened Tables
  import opened Coordinates
  import opened NodeSpec
  import opened Greedy
  import opened RouterTypes
  import opened Election
  import opened BloomSpec

  /** Root-first list of what is owed to `peer`. */
  function OwedList(n: Node, self: Key, peer: Key): (r: seq<Key>)
    requires peer in n.sent
  {
    var mine := Reverse(Chain(n.infos, self, {}));
    var theirs := Reverse(Chain(n.infos, peer, {}));
    Unsent(mine, n.sent[peer]) + Unsent(theirs, n.sent[peer] + Elements(mine))
  }

  lemma ReverseElements<T>(s: seq<T>, x: T)
    ensures x in Reverse(s) <==> x in s
  {
    if x in s {
      var i :| 0 <= i < |s| && s[i] == x;
      assert Reverse(s)[|s| - 1 - i] == x;
    }
  }

  lemma ReverseSameElements<T>(s: seq<T>)
    ensures Elements(Reverse(s)) == Elements(s)
  {
    forall x ensures x in Reverse(s) <==> x in s {
      ReverseElements(s, x);
    }
  }

  /** The list names exactly the owed keys, each once. */
  lemma OwedListIsOwed(n: Node, self: Key, peer: Key)
    requires peer in n.sent
    ensures NoRepeats(OwedList(n, self, peer))
    ensures Elements(OwedList(n, self, peer)) == Owed(n, self, peer)
  {
    var mine := Reverse(Chain(n.infos, self, {}));
    var theirs := Reverse(Chain(n.infos, peer, {}));
    var sent := n.sent[peer];
    var l, r := Unsent(mine, sent), Unsent(theirs, sent + Elements(mine));
    UnsentNoRepeats(mine, sent);
    UnsentNoRepeats(theirs, sent + Elements(mine));
    forall k ensures k in l <==> k in mine && k !in sent {
      UnsentElements(mine, sent, k);
    }
    forall k ensures k in r <==> k in theirs && k !in sent + Elements(mine) {
      UnsentElements(theirs, sent + Elements(mine), k);
    }
    forall k ensures k in OwedList(n, self, peer) <==> k in Owed(n, self, peer) {
      ReverseElements(Chain(n.infos, self, {}), k);
      ReverseElements(Chain(n.infos, peer, {}), k);
    }
    forall i, j | 0 <= i < |l| && 0 <= j < |r| ensures l[i] != r[j] {
      assert l[i] in l && r[j] in r;
    }
  }

  function Announcements(t: Table, ks: seq<Key>): (r: seq<Ann>)
    requires forall k :: k in ks ==> k in t
    ensures |r| == |ks|
  {
    seq(|ks|, i requires 0 <= i < |ks| => assert ks[i] in ks; Ann(ks[i], t[ks[i]]))
  }

  class Router {
    const self: Key
    const sign: (Key, Key, SigReq, Port) -> Signature
    const keyBits: Key -> Filter  // bit positions of a key after the bloom transform

    var infos: Table
    var sent: map<Key, set<Key>>
    var peers: map<Key, set<Link>>
    var cache: map<Key, seq<Port>>
    var requests: map<Key, SigReq>
    var responses: map<Key, SigRes>
    var refresh: bool
    var doRoot1: bool
    var doRoot2: bool
    var blooms: Blooms

    /** `peers`, `sent` and `blooms` share one domain with non-empty link sets, only known
        keys are marked as sent, cached paths are exact, and there is a self
        entry unless the router is about to make one. */
    ghost predicate Valid()
      reads this
    {
      && sent.Keys == peers.Keys && blooms.Keys == peers.Keys
      && (forall k :: k in peers ==> peers[k] != {})
      && (forall k, l :: k in peers && l in peers[k] ==> l.key == k)
      && (forall p :: p in sent ==> sent[p] <= infos.Keys)
      && (forall k :: k in cache ==> cache[k] == Path(infos, k))
      && responses.Keys <= peers.Keys
      && (doRoot2 || self in infos)
    }

    ghost function State(): (n: Node)
      reads this`infos, this`sent
    {
      Node(infos, sent)
    }

    ghost function AsView(): (v: View)
      reads this`infos, this`peers
    {
      View(self, infos, peers.Keys)
    }

    constructor (key: Key, signer: (Key, Key, SigReq, Port) -> Signature, bits: Key -> Filter)
      ensures Valid() && self == key && sign == signer && keyBits == bits
      ensures infos == map[] && sent == map[] && peers == map[] && doRoot2
    {
      self, sign, keyBits := key, signer, bits;
      blooms := map[];
      infos, sent, peers, cache := map[], map[], map[], map[];
      requests, responses := map[], map[];
      refresh, doRoot1, doRoot2 := false, false, true;
    }

    // -------------------------------------------------------------- chain walkers

    /** `_getRootAndDists`: hop counts from `dest` up to its root. */
    method GetRootAndDists(dest: Key) returns (root: Key, dists: map<Key, nat>)
      ensures root == Root(infos, dest)
      ensures IsIndex(dists, Chain(infos, dest, {}))
    {
      root, dists := WalkDists(infos, dest);
    }

    /** `_getAncestry`: the chain, root first. */
    method GetAncestry(key: Key) returns (r: seq<Key>)
      ensures r == Reverse(Chain(infos, key, {}))
    {
      var back := BackwardsAncestry(infos, key);
      r := InPlaceReverse(back);
    }

    /** `_getRootAndPath`: coordinates when the chain ends in a self-parent,
        otherwise the key itself with the empty path. */
    method GetRootAndPath(dest: Key) returns (root: Key, path: seq<Port>)
      ensures path == Path(infos, dest)
      ensures root == if Rooted(infos, dest) then Root(infos, dest) else dest
    {
      root, path := WalkPath(infos, dest);
    }

    // ------------------------------------------------------------ table updates

    /** `_resetCache`. */
    method ResetCache()
      modifies this`cache
      ensures cache == map[]
    {
      cache := map[];
    }

    /** `_update`: keep the better announcement; a change forgets who was told
        about the key and drops all cached paths. */
    method Update(ann: Ann) returns (ok: bool)
      requires Valid()
      modifies this`infos, this`sent, this`cache
      ensures Valid()
      ensures ok <==> Accepts(old(infos), ann)
      ensures ok <==>
                || ann.key !in old(infos)
                || ann.info.seqno > old(infos)[ann.key].seqno
                || (ann.info.seqno == old(infos)[ann.key].seqno &&
                    (|| ann.info.parent < old(infos)[ann.key].parent
                     || (ann.info.parent == old(infos)[ann.key].parent && ann.info.nonce < old(infos)[ann.key].nonce)))
      ensures infos == if ok then old(infos)[ann.key := ann.info] else old(infos)
      ensures State() == NodeSpec.Update(old(State()), ann)
    {
      if ann.key in infos {
        var info := infos[ann.key];
        if info.seqno > ann.info.seqno {
          return false;
        } else if info.seqno < ann.info.seqno {
        } else if info.parent < ann.info.parent {
          return false;
        } else if ann.info.parent < info.parent {
        } else if ann.info.nonce < info.nonce {
        } else {
          return false;
        }
      }
      ForgetSent(ann.key);
      ResetCache();
      infos := infos[ann.key := ann.info];
      ok := true;
    }

    /** The loop that removes a key from every `sent` set. */
    method ForgetSent(key: Key)
      modifies this`sent
      ensures sent == map p | p in old(sent) :: old(sent)[p] - {key}
    {
      var todo := sent.Keys;
      while todo != {}
        invariant todo <= sent.Keys == old(sent).Keys
        invariant forall p :: p in sent ==> sent[p] == if p in todo then old(sent)[p] else old(sent)[p] - {key}
        decreases todo
      {
        var p :| p in todo;
        sent := sent[p := sent[p] - {key}];
        todo := todo - {p};
      }
    }

    /** The expiry timer of another node's entry fires. */
    method Expire(key: Key)
      requires Valid() && key != self
      modifies this`infos, this`sent, this`cache
      ensures Valid() && State() == Forget(old(State()), key)
    {
      infos := infos - {key};
      ForgetSent(key);
      ResetCache();
    }

    /** `_handleAnnounce`: the announcements returned go back over `p`. */
    method HandleAnnounce(p: Link, ann: Ann) returns (reply: seq<Ann>)
      requires Valid() && p.key in peers
      modifies this`infos, this`sent, this`cache, this`refresh
      ensures Valid()
      ensures (State(), reply) == Handle(old(State()), p.key, ann)
      ensures refresh == (old(refresh) || (ann.key == self && Accepts(old(infos), ann)))
    {
      reply := [];
      var ok := Update(ann);
      if ok {
        if ann.key == self {
          refresh := true;
        }
        MarkSent(p.key, ann.key);
      } else {
        var oldInfo := infos[ann.key];
        if ann.info != oldInfo {
          MarkSent(p.key, ann.key);
          reply := [Ann(ann.key, oldInfo)];
        } else {
          MarkSent(p.key, ann.key);
        }
      }
    }

    /** Remember that `peer` needs not be told about `k`. */
    method MarkSent(peer: Key, k: Key)
      requires Valid() && peer in sent && k in infos
      modifies this`sent
      ensures Valid() && State() == NodeSpec.MarkSent(old(State()), peer, k)
    {
      sent := sent[peer := sent[peer] + {k}];
    }

    /** The announcements for one peer, root first, and its new `sent` set.
        The lookup that could panic never misses. */
    method OwedTo(peerKey: Key, selfAnc: seq<Key>) returns (anns: seq<Ann>, marked: set<Key>)
      requires peerKey in sent && selfAnc == Reverse(Chain(infos, self, {}))
      ensures forall k :: k in OwedList(State(), self, peerKey) ==> k in infos
      ensures anns == Announcements(infos, OwedList(State(), self, peerKey))
      ensures marked == sent[peerKey] + Owed(State(), self, peerKey)
    {
      var peerAnc := GetAncestry(peerKey);
      var mine, marked1 := CollectUnsent(selfAnc, sent[peerKey]);
      var theirs, marked2 := CollectUnsent(peerAnc, marked1);
      var toSend := mine + theirs;
      marked := marked2;
      OwedAreKnown(State(), self, peerKey);
      MarkedIsOwed(State(), self, peerKey);
      assert toSend == OwedList(State(), self, peerKey);
      anns := Announcements(infos, toSend);
    }

    /** The loop of `_sendAnnounces` over the peers. */
    method AnnounceToPeers() returns (out: map<Link, seq<Ann>>, marks: map<Key, set<Key>>)
      requires Valid()
      ensures marks == SendAll(State(), self).sent
      ensures ToldSoFar(State(), self, peers, out, {})
    {
      var selfAnc := GetAncestry(self);
      out, marks := map[], sent;
      var todo := sent.Keys;
      while todo != {}
        invariant SentSoFar(State(), self, marks, todo)
        invariant ToldSoFar(State(), self, peers, out, todo)
        decreases todo
      {
        var peerKey :| peerKey in todo;
        var anns, marked := OwedTo(peerKey, selfAnc);
        SentStep(State(), self, marks, todo, peerKey);
        ToldStep(State(), self, peers, out, todo, peerKey, anns);
        out := out + OverLinks(peers[peerKey], anns);
        marks := marks[peerKey := marked];
        todo := todo - {peerKey};
      }
      SentDone(State(), self, marks);
    }

    /** `_sendAnnounces`: tell every peer, over each of its links, what it is owed. */
    method SendAnnounces() returns (out: map<Link, seq<Ann>>)
      requires Valid()
      modifies this`sent
      ensures Valid()
      ensures State() == SendAll(old(State()), self)
      ensures ToldSoFar(old(State()), self, peers, out, {})
    {
      var marks;
      out, marks := AnnounceToPeers();
      SendAllKeepsKnown(State(), self);
      sent := marks;
    }

    // -------------------------------------------------------------------- peers

    /** `addPeer`: a first link starts an empty record; a further link is sent
        again everything that earlier links carried. */
    method AddPeer(p: Link, nonce: nat) returns (resend: set<Ann>, req: SigReq, filter: Filter)
      requires Valid()
      modifies this`peers, this`sent, this`requests, this`blooms
      ensures Valid()
      ensures peers == old(peers)[p.key := LinksTo(old(peers), p.key) + {p}]
      ensures p.key !in old(peers) ==>
                sent == old(sent)[p.key := {}] && blooms == old(blooms)[p.key := NEW_BLOOM] && resend == {}
      ensures p.key in old(peers) ==>
                sent == old(sent) && blooms == old(blooms) && resend == AnnsOf(infos, sent[p.key])
      ensures filter == blooms[p.key].send
      ensures p.key in requests && req == requests[p.key]
      ensures requests == if p.key in old(requests) then old(requests)
              else old(requests)[p.key := NewReq(infos, self, nonce)]
    {
      if p.key !in peers {
        resend := {};
        assert LinksTo(peers, p.key) + {p} == {p};
        peers := peers[p.key := {p}];
        sent := sent[p.key := {}];
        blooms := blooms[p.key := NEW_BLOOM];
      } else {
        resend := CollectSent(p.key);
        peers := peers[p.key := peers[p.key] + {p}];
      }
      req := RequestTo(p.key, nonce);
      filter := blooms[p.key].send;
    }

    method RequestTo(k: Key, nonce: nat) returns (req: SigReq)
      requires Valid()
      modifies this`requests
      ensures Valid()
      ensures k in requests && req == requests[k]
      ensures requests == if k in old(requests) then old(requests) else old(requests)[k := NewReq(infos, self, nonce)]
    {
      if k !in requests {
        requests := requests[k := NewReq(infos, self, nonce)];
      }
      req := requests[k];
    }

    /** The resending loop of `addPeer`; the lookup that could panic never misses. */
    method CollectSent(pk: Key) returns (resend: set<Ann>)
      requires pk in sent && sent[pk] <= infos.Keys
      ensures resend == AnnsOf(infos, sent[pk])
      ensures |resend| == |sent[pk]|
    {
      resend := {};
      var todo := sent[pk];
      while todo != {}
        invariant todo <= sent[pk]
        invariant resend == AnnsOf(infos, sent[pk] - todo)
        invariant |resend| == |sent[pk]| - |todo|
        decreases todo
      {
        var k :| k in todo;
        assert sent[pk] - (todo - {k}) == (sent[pk] - todo) + {k};
        assert Ann(k, infos[k]) !in resend;
        resend := resend + {Ann(k, infos[k])};
        todo := todo - {k};
      }
      assert sent[pk] - {} == sent[pk];
    }

    /** `removePeer`: the last link takes the whole record with it. */
    method RemovePeer(p: Link) returns (filter: Option<Filter>)
      requires Valid()
      modifies this`peers, this`sent, this`requests, this`responses, this`cache, this`blooms
      ensures Valid()
      ensures var ps := LinksTo(old(peers), p.key) - {p};
              if ps == {} then
                && peers == old(peers) - {p.key} && sent == old(sent) - {p.key} && blooms == old(blooms) - {p.key}
                && requests == old(requests) - {p.key} && responses == old(responses) - {p.key} && filter == None
              else
                && peers == old(peers)[p.key := ps] && sent == old(sent) && blooms == old(blooms)
                && requests == old(requests) && responses == old(responses) && filter == Some(blooms[p.key].send)
    {
      var ps := LinksTo(peers, p.key) - {p};
      if ps == {} {
        peers := peers - {p.key};
        sent := sent - {p.key};
        requests := requests - {p.key};
        responses := responses - {p.key};
        cache := cache - {p.key};
        blooms := blooms - {p.key};
        filter := None;
      } else {
        peers := peers[p.key := ps];
        filter := Some(blooms[p.key].send);
      }
    }

    // --------------------------------------------------------------- forwarding

    /** `_getDist`, with its path cache. */
    method GetDist(destPath: seq<Port>, key: Key) returns (dist: nat)
      requires Valid()
      modifies this`cache
      ensures Valid()
      ensures dist == Dist(Path(infos, key), destPath)
    {
      var keyPath;
      if key in cache {
        keyPath := cache[key];
      } else {
        var root;
        root, keyPath := GetRootAndPath(key);
        cache := cache[key := keyPath];
      }
      dist := PathDist(keyPath, destPath);
    }

    /** Every link of the peers that are nearer than `bound`. */
    method NearerLinks(path: seq<Port>, bound: nat, cost: Link -> nat) returns (cands: seq<Cand>)
      requires Valid()
      modifies this`cache
      ensures Valid()
      ensures AreCands(infos, peers, path, bound, cost, peers.Keys, cands)
    {
      cands := [];
      var done: set<Key> := {};
      while done != peers.Keys
        invariant Valid()
        invariant done <= peers.Keys
        invariant AreCands(infos, peers, path, bound, cost, done, cands)
        decreases peers.Keys - done
      {
        var k :| k in peers.Keys && k !in done;
        var dist := GetDist(path, k);
        if dist < bound {
          var more := LinksOf(peers[k], dist, cost);
          CandsGrow(infos, peers, path, bound, cost, done, cands, k, more);
          cands := cands + more;
        } else {
          CandsSkip(infos, peers, path, bound, cost, done, cands, k);
        }
        done := done + {k};
      }
    }

    /** `_lookup`: a link to a peer strictly nearer than we are, or none. */
    method Lookup(path: seq<Port>, watermark: nat, cost: Link -> nat)
      returns (best: Option<Link>, watermark': nat, ghost cands: seq<Cand>)
      requires Valid()
      modifies this`cache
      ensures Valid()
      ensures best.None? <==> Stops(AsView(), path, watermark)
      ensures best.Some? ==>
                Forwards(AsView(), path, watermark, best.value.key, watermark') && best.value in peers[best.value.key]
      ensures best.Some? ==>
                && AreCands(infos, peers, path, watermark', cost, peers.Keys, cands)
                && Pick(cands).Some? && best.value == Pick(cands).value.link
      ensures best.Some? && OnePriorityEach(peers) ==>
                forall k, l :: k in peers && l in peers[k] && DistFrom(AsView(), k, path) < watermark' ==>
                  !ScoreLess(CandOf(infos, path, cost, l), CandOf(infos, path, cost, best.value))
    {
      best, watermark', cands := None, watermark, [];
      var selfDist := GetDist(path, self);
      if selfDist >= watermark {
        return;
      }
      watermark' := selfDist;
      var cs := NearerLinks(path, selfDist, cost);
      cands := cs;
      var winner := Scan(cs);
      CandsDecide(AsView(), peers, path, selfDist, cost, cs);
      if winner.Some? {
        assert winner.value in cs;
        best := Some(winner.value.link);
        LeastScoreIsTaken(infos, peers, path, selfDist, cost, cs);
      }
    }

    /** `handleTraffic`: forward, hand to the application, or report the path broken. */
    method HandleTraffic(path: seq<Port>, watermark: nat, dest: Key, cost: Link -> nat)
      returns (outcome: Outcome, ghost cands: seq<Cand>)
      requires Valid()
      modifies this`cache
      ensures Valid()
      ensures outcome.Forward? ==> Forwards(AsView(), path, watermark, outcome.link.key, outcome.watermark)
      ensures outcome.Forward? ==>
                && outcome.link in peers[outcome.link.key]
                && AreCands(infos, peers, path, outcome.watermark, cost, peers.Keys, cands)
                && Pick(cands).Some? && outcome.link == Pick(cands).value.link
      ensures outcome.Deliver? <==> Stops(AsView(), path, watermark) && dest == self
      ensures outcome.Broken? <==> Stops(AsView(), path, watermark) && dest != self
    {
      var p, wm;
      p, wm, cands := Lookup(path, watermark, cost);
      if p.Some? {
        outcome := Forward(p.value, wm);
      } else if dest == self {
        outcome := Deliver;
      } else {
        outcome := Broken;
      }
    }

    // -------------------------------------------------------- parent selection

    /** Selection loop of `_fix`. */
    method SelectParent(cost: Link -> nat) returns (best: Choice, ghost init: Choice, ghost order: seq<Choice>)
      requires Valid()
      ensures IsInitial(infos, self, peers, cost, init)
      ensures IsOrder(infos, self, peers, responses, cost, responses.Keys, order)
      ensures best == ConsiderAll(refresh, ParentOf(infos, self), init, order)
    {
      best := InitialChoice(cost);
      init, order := best, [];
      var current := ParentOf(infos, self);
      var done: set<Key> := {};
      while done != responses.Keys
        invariant done <= responses.Keys
        invariant IsOrder(infos, self, peers, responses, cost, done, order)
        invariant best == ConsiderAll(refresh, current, init, order)
        decreases responses.Keys - done
      {
        var pk :| pk in responses.Keys && pk !in done;
        var offer := OfferFrom(pk, cost);
        if offer.None? {
          OrderSkips(infos, self, peers, responses, cost, done, order, pk);
        } else {
          var c := offer.value;
          OrderGrows(infos, self, peers, responses, cost, done, order, c);
          ConsiderOne(refresh, current, init, order, c);
          order := order + [c];
          best := WeighOffer(refresh, current, best, c);
        }
        done := done + {pk};
      }
    }

    /** Does our current parent lead to a better root than ourselves? */
    method InitialChoice(cost: Link -> nat) returns (init: Choice)
      ensures IsInitial(infos, self, peers, cost, init)
    {
      var current := ParentOf(infos, self);
      init := Choice(self, self, MAX64);
      if current in peers {
        var root, dists := GetRootAndDists(self);
        if root < self {
          var hops := if root in dists then dists[root] else 0;
          HopsIsDist(infos, self, dists);
          var c := CheapestLink(peers[current], hops, cost);
          init := Choice(root, current, c);
        }
      }
    }

    /** What one response offers, if it is eligible. */
    method OfferFrom(pk: Key, cost: Link -> nat) returns (offer: Option<Choice>)
      requires Valid() && pk in responses
      ensures offer.None? <==> !Eligible(infos, self, responses, pk)
      ensures offer.Some? ==> offer.value.parent == pk && IsOffer(infos, self, peers, responses, cost, offer.value)
    {
      offer := None;
      if pk in infos {
        var root, dists := GetRootAndDists(pk);
        if self !in dists {
          var hops := if root in dists then dists[root] else 0;
          HopsIsDist(infos, pk, dists);
          var c := CheapestLink(peers[pk], hops, cost);
          offer := Some(Choice(root, pk, c));
        }
      }
    }

    /** `_useResponse`: adopt `peerKey` as parent, if its response is not stale. */
    method UseResponse(peerKey: Key, res: SigRes) returns (ok: bool)
      requires Valid()
      modifies this`infos, this`sent, this`cache
      ensures Valid()
      ensures ok <==> Accepts(old(infos), Adoption(self, peerKey, res, sign))
      ensures State() == NodeSpec.Update(old(State()), Adoption(self, peerKey, res, sign))
    {
      ok := Update(Adoption(self, peerKey, res, sign));
    }

    /** `_becomeRoot`: always accepted while the sequence number can grow. */
    method BecomeRoot(nonce: nat) returns (ok: bool)
      requires Valid()
      requires self in infos ==> infos[self].seqno < MAX64
      modifies this`infos, this`sent, this`cache
      ensures Valid() && ok
      ensures State() == NodeSpec.Update(old(State()), SelfRoot(old(infos), self, nonce, sign))
    {
      ok := Update(SelfRoot(infos, self, nonce, sign));
    }

    /** `_handleRequest`: sign the peer's request, naming the port we gave it. */
    method HandleRequest(p: Link, port: Port, req: SigReq) returns (res: SigRes)
      ensures res == SigRes(req, port, sign(p.key, self, req, port))
    {
      res := SigRes(req, port, sign(p.key, self, req, port));
    }

    /** `_handleResponse`: keep the first response that answers our request. */
    method HandleResponse(p: Link, res: SigRes)
      requires Valid() && p.key in peers
      modifies this`responses
      ensures Valid()
      ensures responses == if p.key !in old(responses) && Requested(requests, p.key) == res.req
                           then old(responses)[p.key := res] else old(responses)
    {
      if p.key !in responses && Requested(requests, p.key) == res.req {
        responses := responses[p.key := res];
      }
    }

    /** `_sendReqs`: forget all responses and ask every peer anew. */
    method SendReqs(nonces: Key -> nat)
      requires Valid()
      modifies this`requests, this`responses
      ensures Valid() && responses == map[] && requests == NewReqs(infos, self, peers, nonces)
    {
      responses := map[];
      requests := NewReqs(infos, self, peers, nonces);
    }

    /** `_fix`: act on the selection.  The panic after `_becomeRoot` is unreachable. */
    method Fix(cost: Link -> nat, nonce: nat, nonces: Key -> nat)
      returns (best: Choice, ghost init: Choice, ghost order: seq<Choice>)
      requires Valid()
      requires self in infos ==> infos[self].seqno < MAX64
      modifies this`infos, this`sent, this`cache, this`requests, this`responses, this`refresh, this`doRoot1,
               this`doRoot2
      ensures Valid() && self in infos
      ensures IsInitial(old(infos), self, peers, cost, init)
      ensures IsOrder(old(infos), self, peers, old(responses), cost, old(responses).Keys, order)
      ensures best == ConsiderAll(old(refresh), ParentOf(old(infos), self), init, order)
      ensures Flags(refresh, doRoot1, doRoot2) ==
                FixFlags(old(infos), self, old(responses), sign, best, Flags(old(refresh), old(doRoot1), old(doRoot2)))
      ensures State() ==
                FixState(old(State()), self, old(responses), sign, best, nonce,
                         Flags(old(refresh), old(doRoot1), old(doRoot2)))
      ensures var acts := Acts(old(infos), self, old(responses), sign, best,
                               Flags(old(refresh), old(doRoot1), old(doRoot2)));
              && responses == (if acts then map[] else old(responses))
              && requests == (if acts then NewReqs(infos, self, peers, nonces) else old(requests))
    {
      best, init, order := SelectParent(cost);
      if refresh || doRoot1 || doRoot2 || ParentOf(infos, self) != best.parent {
        ChangeParent(best, nonce, nonces);
      }
    }

    /** The switch at the end of `_fix`. */
    method ChangeParent(best: Choice, nonce: nat, nonces: Key -> nat)
      requires Valid()
      requires self in infos ==> infos[self].seqno < MAX64
      requires MustAct(infos, self, best, Flags(refresh, doRoot1, doRoot2))
      modifies this`infos, this`sent, this`cache, this`requests, this`responses, this`refresh, this`doRoot1,
               this`doRoot2
      ensures Valid() && self in infos
      ensures Flags(refresh, doRoot1, doRoot2) ==
                FixFlags(old(infos), self, old(responses), sign, best, Flags(old(refresh), old(doRoot1), old(doRoot2)))
      ensures State() ==
                FixState(old(State()), self, old(responses), sign, best, nonce,
                         Flags(old(refresh), old(doRoot1), old(doRoot2)))
      ensures var acts := Acts(old(infos), self, old(responses), sign, best,
                               Flags(old(refresh), old(doRoot1), old(doRoot2)));
              && responses == (if acts then map[] else old(responses))
              && requests == (if acts then NewReqs(infos, self, peers, nonces) else old(requests))
    {
      var adopted := false;
      if best.parent in responses && best.root != self {
        adopted := UseResponse(best.parent, responses[best.parent]);
      }
      if adopted {
        Settle(nonces);
      } else if doRoot2 {
        var ok := BecomeRoot(nonce);
        if !ok {
          assert false;
        }
        Settle(nonces);
      } else if !doRoot1 {
        doRoot1 := true;
      }
    }

    method Settle(nonces: Key -> nat)
      requires Valid() && self in infos
      modifies this`requests, this`responses, this`refresh, this`doRoot1, this`doRoot2
      ensures Valid() && !refresh && !doRoot1 && !doRoot2
      ensures responses == map[] && requests == NewReqs(infos, self, peers, nonces)
    {
      refresh, doRoot1, doRoot2 := false, false, false;
      SendReqs(nonces);
    }

    // ------------------------------------------------------------ bloom filters

    /** `_handleBloom`. */
    method HandleBloom(p: Link, f: Filter)
      requires Valid()
      modifies this`blooms
      ensures Valid()
      ensures blooms == if p.key in old(blooms) then old(blooms)[p.key := old(blooms)[p.key].(recv := f)]
              else old(blooms)
    {
      if p.key in blooms {
        blooms := blooms[p.key := blooms[p.key].(recv := f)];
      }
    }

    /** `_fixOnTree`: mark the tree links; `blanked` are the peers sent an empty filter. */
    method FixOnTree() returns (blanked: set<Key>)
      requires Valid() && self in infos
      modifies this`blooms
      ensures Valid()
      ensures blooms == RefitAll(infos, self, old(blooms)) && blanked == Blanked(infos, self, old(blooms))
    {
      blanked := {};
      var todo := blooms.Keys;
      while todo != {}
        invariant RefittedSoFar(infos, self, old(blooms), blooms, blanked, todo)
        decreases todo
      {
        var pk :| pk in todo;
        var pbi, blank := RefitLink(pk);
        if blank {
          blanked := blanked + {pk};
        }
        blooms := blooms[pk := pbi];
        todo := todo - {pk};
      }
      AllRefitted(infos, self, old(blooms), blooms, blanked);
    }

    method RefitLink(pk: Key) returns (pbi: BloomInfo, blank: bool)
      requires pk in blooms && self in infos
      ensures pbi == Refit(blooms[pk], IsOnTree(infos, self, pk))
      ensures blank <==> blooms[pk].onTree && !IsOnTree(infos, self, pk)
    {
      pbi, blank := blooms[pk], false;
      var wasOn := pbi.onTree;
      pbi := pbi.(onTree := false);
      if infos[self].parent == pk {
        pbi := pbi.(onTree := true);
      } else if pk in infos {
        if infos[pk].parent == self {
          pbi := pbi.(onTree := true);
        }
      }
      if wasOn && !pbi.onTree {
        pbi := pbi.(send := {});
        blank := true;
      }
    }

    /** The merging loop of `_getBloomFor`. */
    method MergeReceived(key: Key) returns (f: Filter)
      ensures f == Fresh(keyBits(self), blooms, key)
    {
      f := keyBits(self);
      var todo := blooms.Keys;
      while todo != {}
        invariant todo <= blooms.Keys
        invariant f == Fresh(keyBits(self), blooms - todo, key)
        decreases todo
      {
        var k :| k in todo;
        FreshGrows(keyBits(self), blooms, todo, k, key);
        if blooms[k].onTree && k != key {
          f := f + blooms[k].recv;
        }
        todo := todo - {k};
      }
      assert blooms - {} == blooms;
    }

    /** `_getBloomFor`: what we advertise always covers ourselves and everything
        heard on the other tree links.  A dirty mark is lost when nothing new is sent. */
    method GetBloomFor(key: Key, keepOnes: bool) returns (f: Filter, isNew: bool)
      requires Valid() && key in blooms
      modifies this`blooms
      ensures Valid()
      ensures f == Advertised(keyBits(self), old(blooms), key, keepOnes) && Fresh(keyBits(self), old(blooms), key) <= f
      ensures isNew <==> f != old(blooms)[key].send
      ensures blooms == if !isNew then old(blooms)
                        else old(blooms)[key := old(blooms)[key].(send := f,
                               zDirty := keepOnes && (old(blooms)[key].zDirty ||
                                                      f != Fresh(keyBits(self), old(blooms), key)))]
    {
      var pbi := blooms[key];
      f := MergeReceived(key);
      if keepOnes {
        if !pbi.zDirty {
          var c := f;
          f := f + pbi.send;
          if f != c {
            pbi := pbi.(zDirty := true);
          }
        } else {
          f := f + pbi.send;
        }
      } else {
        pbi := pbi.(zDirty := false);
      }
      if f == pbi.send {
        isNew := false;
      } else {
        isNew := true;
        pbi := pbi.(send := f);
        blooms := blooms[key := pbi];
      }
    }

    /** One round of `_sendAllBlooms` for the tree link to `k`. */
    method SendBloomTo(k: Key) returns (out: Option<Filter>)
      requires Valid() && k in blooms && blooms[k].onTree
      modifies this`blooms
      ensures Valid() && blooms == old(blooms)[k := AfterRound(keyBits(self), old(blooms), k)]
      ensures out == if Sends(keyBits(self), old(blooms), k) then Some(blooms[k].send) else None
    {
      ghost var first := blooms;
      var f, isNew := GetBloomFor(k, !blooms[k].zDirty);
      var pbi := blooms[k];
      pbi := pbi.(seqno := pbi.seqno + 1);
      out := None;
      if isNew || pbi.seqno >= RESEND {
        if k !in peers {
          assert false;
        }
        out := Some(f);
        pbi := pbi.(seqno := 0);
      }
      assert pbi == AfterRound(keyBits(self), first, k);
      StoreBloom(k, pbi, first);
    }

    method StoreBloom(k: Key, pbi: BloomInfo, ghost first: Blooms)
      requires Valid() && k in first && blooms.Keys == first.Keys
      requires forall j :: j in first && j != k ==> blooms[j] == first[j]
      modifies this`blooms
      ensures Valid() && blooms == first[k := pbi]
    {
      blooms := blooms[k := pbi];
    }

    /** `_sendAllBlooms`: afterwards every tree link has been advertised a filter
        covering us and all other tree links, and every change went out. */
    method SendAllBlooms() returns (out: map<Key, Filter>)
      requires Valid()
      modifies this`blooms
      ensures Valid()
      ensures blooms == SendRound(keyBits(self), old(blooms)) && out == SentFilters(keyBits(self), old(blooms))
    {
      out := map[];
      var todo := blooms.Keys;
      while todo != {}
        invariant Valid() && todo <= blooms.Keys
        invariant BloomsSent(keyBits(self), old(blooms), blooms, out, todo)
        decreases todo
      {
        var k :| k in todo;
        if blooms[k].onTree {
          ghost var before := blooms;
          var f := SendBloomTo(k);
          BloomsSentStep(keyBits(self), old(blooms), before, out, todo, k, f);
          if f.Some? {
            out := out[k := f.value];
          }
        }
        todo := todo - {k};
      }
      AllSent(keyBits(self), old(blooms), blooms, out);
    }

    /** `_sendMulticast`: one copy for every tree neighbour other than the sender
        whose filter matches, over a link of least priority value.  Every such
        neighbour has a link, so the panic is unreachable. */
    method SendMulticast(fromKey: Key, toKey: Key) returns (out: map<Key, Link>)
      requires Valid()
      ensures out.Keys == MulticastTo(blooms, keyBits(toKey), fromKey)
      ensures forall k :: k in out <==>
                k in blooms && blooms[k].onTree && k != fromKey && keyBits(toKey) <= blooms[k].recv
      ensures forall k :: k in out ==> k in peers && IsLeastPrio(peers[k], out[k])
    {
      out := map[];
      var todo := blooms.Keys;
      while todo != {}
        invariant todo <= blooms.Keys
        invariant out.Keys == MulticastTo(blooms, keyBits(toKey), fromKey) - todo
        invariant forall k :: k in out ==> k in peers && IsLeastPrio(peers[k], out[k])
        decreases todo
      {
        var k :| k in todo;
        if blooms[k].onTree && k != fromKey && keyBits(toKey) <= blooms[k].recv {
          var bestPeer := LeastPrio(peers[k]);
          out := out[k := bestPeer];
        }
        todo := todo - {k};
      }
    }

    // -------------------------------------------------------------- maintenance

    /** `_doMaintenance`: the parent is fixed, then everybody is told what they are
        owed, then filters go out.  None of its panics is reachable. */
    method DoMaintenance(cost: Link -> nat, nonce: nat, nonces: Key -> nat)
      returns (anns: map<Link, seq<Ann>>, filters: map<Key, Filter>, blanked: set<Key>, ghost pass: Pass)
      requires Valid()
      requires self in infos ==> infos[self].seqno < MAX64
      modifies this`infos, this`sent, this`cache, this`requests, this`responses, this`refresh, this`doRoot1,
               this`doRoot2, this`blooms
      ensures Valid() && self in infos
      ensures IsPass(pass) && pass.before == old(State())
      ensures pass.responses == old(responses) && pass.flags == old(PassFlags())
      ensures pass.self == self && pass.peers == peers && pass.sign == sign && pass.cost == cost && pass.nonce == nonce
      ensures State() == SendAll(pass.fixed, self) && ToldSoFar(pass.fixed, self, peers, anns, {})
      ensures Flags(refresh, doRoot1, doRoot2) ==
                FlagsAfter(pass)
      ensures (blooms, filters, blanked) == BloomPass(keyBits(self), infos, self, old(blooms))
    {
      pass, anns := FixAndAnnounce(cost, nonce, nonces);
      filters, blanked := BloomMaintenance();
    }

    /** The flags that `_fix` sees in a pass. */
    ghost function PassFlags(): (f: Flags)
      reads this`refresh, this`doRoot1, this`doRoot2
    {
      Flags(refresh, doRoot1, doRoot2 || doRoot1)
    }

    /** The part of `_doMaintenance` that concerns the tree. */
    method FixAndAnnounce(cost: Link -> nat, nonce: nat, nonces: Key -> nat)
      returns (ghost pass: Pass, anns: map<Link, seq<Ann>>)
      requires Valid()
      requires self in infos ==> infos[self].seqno < MAX64
      modifies this`infos, this`sent, this`cache, this`requests, this`responses, this`refresh, this`doRoot1,
               this`doRoot2
      ensures Valid() && self in infos
      ensures IsPass(pass) && pass.before == old(State())
      ensures pass.responses == old(responses) && pass.flags == old(PassFlags())
      ensures pass.self == self && pass.peers == peers && pass.sign == sign && pass.cost == cost && pass.nonce == nonce
      ensures State() == SendAll(pass.fixed, self) && ToldSoFar(pass.fixed, self, peers, anns, {})
      ensures Flags(refresh, doRoot1, doRoot2) ==
                FlagsAfter(pass)
    {
      ghost var n, rs, f := State(), responses, PassFlags();
      Wake();
      pass := FixPass(cost, nonce, nonces, n, rs, f);
      anns := SendAnnounces();
    }

    method FixPass(cost: Link -> nat, nonce: nat, nonces: Key -> nat, ghost n: Node, ghost rs: map<Key, SigRes>,
                   ghost f: Flags)
      returns (ghost pass: Pass)
      requires Valid() && n == State() && rs == responses && f == Flags(refresh, doRoot1, doRoot2)
      requires self in infos ==> infos[self].seqno < MAX64
      modifies this`infos, this`sent, this`cache, this`requests, this`responses, this`refresh, this`doRoot1,
               this`doRoot2
      ensures Valid() && self in infos && pass.fixed == State()
      ensures IsPass(pass) && pass.before == n && pass.responses == rs && pass.flags == f
      ensures pass.self == self && pass.peers == peers && pass.sign == sign && pass.cost == cost && pass.nonce == nonce
      ensures Flags(refresh, doRoot1, doRoot2) == FlagsAfter(pass)
    {
      var best;
      ghost var init, order;
      best, init, order := Fix(cost, nonce, nonces);
      pass := Pass(self, n, peers, rs, sign, cost, nonce, f, init, order, best, State());
    }

    method Wake()
      requires Valid()
      modifies this`cache, this`doRoot2
      ensures Valid() && doRoot2 == (old(doRoot2) || doRoot1)
    {
      doRoot2 := doRoot2 || doRoot1;
      ResetCache();
    }

    /** The filters' own `_doMaintenance`. */
    method BloomMaintenance() returns (filters: map<Key, Filter>, blanked: set<Key>)
      requires Valid() && self in infos
      modifies this`blooms
      ensures Valid()
      ensures (blooms, filters, blanked) == BloomPass(keyBits(self), infos, self, old(blooms))
    {
      blanked := FixOnTree();
      filters := SendAllBlooms();
    }

    /** The least-key member of a parent cycle leaves it within two undisturbed
        maintenance passes. */
    method TwoPassesBreakCycle(cost: Link -> nat, nonce: nat, nonces: Key -> nat, cost2: Link -> nat, nonce2: nat,
                               nonces2: Key -> nat)
      requires Valid() && LeastOnCycle(infos, self)
      requires infos[self].seqno < MAX64
      modifies this`infos, this`sent, this`cache, this`requests, this`responses, this`refresh, this`doRoot1,
               this`doRoot2, this`blooms
      ensures Valid() && !OnCycle(infos, self)
    {
      var anns, filters, blanked;
      ghost var pass;
      anns, filters, blanked, pass := DoMaintenance(cost, nonce, nonces);
      PassLeavesCycle(pass);
      if OnCycle(infos, self) {
        anns, filters, blanked, pass := DoMaintenance(cost2, nonce2, nonces2);
        PassLeavesCycle(pass);
      }
    }
  }

  /** One pass of maintenance: what the router saw, how its election went, and the
      node after `_fix`. */
  datatype Pass = Pass(self: Key, before: Node, peers: map<Key, set<Link>>, responses: map<Key, SigRes>,
                       sign: (Key, Key, SigReq, Port) -> Signature, cost: Link -> nat, nonce: nat, flags: Flags,
                       init: Choice, order: seq<Choice>, best: Choice, fixed: Node)

  ghost predicate IsPass(p: Pass)
  {
    && IsInitial(p.before.infos, p.self, p.peers, p.cost, p.init)
    && IsOrder(p.before.infos, p.self, p.peers, p.responses, p.cost, p.responses.Keys, p.order)
    && p.best == ConsiderAll(p.flags.refresh, ParentOf(p.before.infos, p.self), p.init, p.order)
    && p.fixed == FixState(p.before, p.self, p.responses, p.sign, p.best, p.nonce, p.flags)
  }

  ghost function FlagsAfter(p: Pass): (f: Flags)
  {
    FixFlags(p.before.infos, p.self, p.responses, p.sign, p.best, p.flags)
  }

  /** What a new own entry carries: under another parent, exactly what that parent
      answered, port and signature included; as a root, the next sequence number,
      our nonce and port zero.  No other entry changes. */
  lemma NewEntryIsAnswered(p: Pass)
    requires IsPass(p) && p.fixed.infos != p.before.infos
    ensures p.self in p.fixed.infos && p.fixed.infos - {p.self} == p.before.infos - {p.self}
    ensures var i := p.fixed.infos[p.self];
            i.parent != p.self ==>
              && i.parent in p.responses
              && i.port == p.responses[i.parent].port && i.psig == p.responses[i.parent].psig
              && i.seqno == p.responses[i.parent].req.seqno && i.nonce == p.responses[i.parent].req.nonce
              && i.sig == p.sign(p.self, i.parent, p.responses[i.parent].req, i.port)
    ensures var i := p.fixed.infos[p.self];
            i.parent == p.self ==>
              && i.port == 0 && i.nonce == p.nonce && i.psig == i.sig
              && i.seqno == ((if p.self in p.before.infos then p.before.infos[p.self].seqno else 0) + 1) % U64
              && i.sig == p.sign(p.self, p.self, SigReq(i.seqno, i.nonce), 0)
  {
    if CanAdopt(p.before.infos, p.self, p.responses, p.sign, p.best) {
      ElectionResult(p.before.infos, p.self, p.peers, p.responses, p.cost, p.flags.refresh, p.init, p.order);
      AdoptedIsNotSelf(p);
    }
  }

  /** A router that is due for a refresh, or armed to become root, and elects a parent
      that has answered a current request, issues a newer entry under that parent,
      also when it is the parent it has. */
  lemma DueIsRenewed(p: Pass)
    requires IsPass(p) && p.flags != Flags(false, false, false)
    requires p.self in p.before.infos && p.before.infos[p.self].seqno < MAX64
    requires p.best.parent in p.responses && p.responses[p.best.parent].req.seqno > p.before.infos[p.self].seqno
    requires p.best.root != p.self
    ensures p.self in p.fixed.infos && p.fixed.infos[p.self].seqno > p.before.infos[p.self].seqno
    ensures p.fixed.infos[p.self].parent == p.best.parent && FlagsAfter(p) == Flags(false, false, false)
  {
  }

  /** Armed twice and without an answer from the parent elected, it becomes a root,
      whatever parent it had. */
  lemma ArmedBecomesRoot(p: Pass)
    requires IsPass(p) && p.flags.doRoot2 && p.best.parent !in p.responses
    requires p.self in p.before.infos ==> p.before.infos[p.self].seqno < MAX64
    ensures p.self in p.fixed.infos && p.fixed.infos[p.self].parent == p.self
    ensures p.self in p.before.infos ==> p.fixed.infos[p.self].seqno == p.before.infos[p.self].seqno + 1
    ensures FlagsAfter(p) == Flags(false, false, false)
  {
  }

  /** Nothing that is due is forgotten: flags only fall with a new entry, and a pass
      that makes none though one is due, or though another parent is elected, arms the
      switch to root. */
  lemma FlagsFallWithRenewal(p: Pass)
    requires IsPass(p) && (p.self in p.before.infos ==> p.before.infos[p.self].seqno < MAX64)
    ensures var f := FlagsAfter(p);
            if p.fixed.infos != p.before.infos then f == Flags(false, false, false)
            else && f.refresh == p.flags.refresh && f.doRoot2 == p.flags.doRoot2 == false
                 && (f.doRoot1 <==> p.flags.doRoot1 || p.flags.refresh ||
                                    ParentOf(p.before.infos, p.self) != p.best.parent)
  {
  }

  /** Everybody is asked under our next sequence number, each with its own nonce. */
  lemma AskedAnew(t: Table, self: Key, peers: map<Key, set<Link>>, nonces: Key -> nat, pk: Key)
    requires pk in peers && (self in t ==> t[self].seqno < MAX64)
    ensures var req := Requested(NewReqs(t, self, peers, nonces), pk);
            req.nonce == nonces(pk) && (self in t ==> req.seqno == t[self].seqno + 1) && (self !in t ==> req.seqno == 1)
  {
  }

  /** Nobody adopts itself. */
  lemma AdoptedIsNotSelf(p: Pass)
    requires IsPass(p) && CanAdopt(p.before.infos, p.self, p.responses, p.sign, p.best)
    ensures p.best.parent != p.self
  {
    ElectionResult(p.before.infos, p.self, p.peers, p.responses, p.cost, p.flags.refresh, p.init, p.order);
    var t := p.before.infos;
    if p.self in t {
      if t[p.self].parent == p.self { RootPath(t, p.self); }
      assert p.self in Chain(t, p.self, {});
    }
  }

  /** An answer to our current request can always be used. */
  lemma FreshAnswerIsUsable(t: Table, self: Key, parent: Key, nonce: nat, res: SigRes,
                            sign: (Key, Key, SigReq, Port) -> Signature)
    requires res.req == NewReq(t, self, nonce) && (self in t ==> t[self].seqno < MAX64)
    ensures Accepts(t, Adoption(self, parent, res, sign))
  {
  }

  /** The flags that the next pass starts with, if no refresh falls due. */
  function Woken(f: Flags): (f': Flags) { Flags(f.refresh, f.doRoot1, f.doRoot2 || f.doRoot1) }

  /** A pass that renewed our entry is followed by one that leaves it alone, as long
      as nobody has answered the new requests. */
  lemma RestAfterRenewal(p: Pass, q: Pass)
    requires IsPass(p) && p.fixed.infos != p.before.infos
    requires p.responses.Keys <= p.peers.Keys && p.self in p.before.infos
    requires IsPass(q) && q.self == p.self && q.before == p.fixed && q.peers == p.peers && q.responses == map[]
    requires q.flags == Woken(FlagsAfter(p))
    ensures q.fixed == q.before && FlagsAfter(q) == Flags(false, false, false)
  {
    assert q.order == [] by { NothingOnOffer(q); }
    var t, self := q.before.infos, q.self;
    NewEntryIsAnswered(p);
    if t[self].parent == self {
      RootPath(t, self);
    } else {
      AdoptedLeadsBelow(p);
    }
  }

  /** Two tables with the same keys and parents have the same chains. */
  lemma SameParentsSameChain(t: Table, u: Table, k: Key)
    requires t.Keys == u.Keys && forall x :: x in t ==> t[x].parent == u[x].parent
    ensures Chain(t, k, {}) == Chain(u, k, {})
  {
    ChainIsChain(t, k, {});
    ChainUnique(u, k, {}, Chain(t, k, {}));
  }

  /** After an adoption our parent is a peer that leads to a root below us. */
  lemma AdoptedLeadsBelow(p: Pass)
    requires IsPass(p) && p.fixed.infos != p.before.infos
    requires p.responses.Keys <= p.peers.Keys && p.self in p.before.infos
    requires CanAdopt(p.before.infos, p.self, p.responses, p.sign, p.best)
    ensures ParentOf(p.fixed.infos, p.self) in p.peers && Root(p.fixed.infos, p.self) < p.self
  {
    var t := p.before.infos;
    ElectionResult(t, p.self, p.peers, p.responses, p.cost, p.flags.refresh, p.init, p.order);
    AdoptedIsNotSelf(p);
    if Eligible(t, p.self, p.responses, p.best.parent) && p.best.root == Root(t, p.best.parent) {
      AdoptingLeavesCycles(t, p.self, p.fixed.infos[p.self]);
    } else {
      SameParentsSameChain(t, p.fixed.infos, p.self);
    }
  }

  lemma NothingOnOffer(q: Pass)
    requires IsPass(q) && q.responses == map[]
    ensures q.order == []
  {
    assert forall c :: c in q.order ==> c.parent in q.responses;
  }

  /** A pass at the least member of a cycle takes it off, or arms the switch to root. */
  lemma PassLeavesCycle(p: Pass)
    requires IsPass(p) && LeastOnCycle(p.before.infos, p.self) && p.before.infos[p.self].seqno < MAX64
    ensures !OnCycle(p.fixed.infos, p.self) || (!p.flags.doRoot2 && p.fixed == p.before && FlagsAfter(p).doRoot1)
  {
    FixLeavesCycle(p.before, p.self, p.peers, p.responses, p.sign, p.cost, p.init, p.order, p.nonce, p.flags);
  }

  /** After the filters' maintenance the tree marks are right and no tree link
      misses anything: its filter covers our bits and all heard on other tree links. */
  lemma MaintainedFilters(t: Table, self: Key, own: Filter, bs: Blooms, k: Key)
    requires k in bs
    ensures var after := SendRound(own, RefitAll(t, self, bs));
            && k in after && after[k].recv == bs[k].recv && after[k].onTree == IsOnTree(t, self, k)
            && (after[k].onTree ==> Fresh(own, after, k) <= after[k].send)
  {
    SentCovers(own, RefitAll(t, self, bs), k);
  }

  const NEW_BLOOM: BloomInfo := BloomInfo({}, {}, 0, false, false)

  /** A new link gets no lookups, adds nothing to what other links are told, and
      advertises nothing until it is on the tree. */
  lemma NewLinkIsBlank(own: Filter, bs: Blooms, k: Key, bits: Filter, fromKey: Key)
    requires k !in bs && BlankOffTree(bs)
    ensures BlankOffTree(bs[k := NEW_BLOOM])
    ensures MulticastTo(bs[k := NEW_BLOOM], bits, fromKey) == MulticastTo(bs, bits, fromKey)
    ensures forall j :: Fresh(own, bs[k := NEW_BLOOM], j) == Fresh(own, bs, j)
    ensures bs[k := NEW_BLOOM][k].send == {}
  {
    forall j ensures Fresh(own, bs[k := NEW_BLOOM], j) == Fresh(own, bs, j) {
      SameFilters(own, bs, bs[k := NEW_BLOOM], j);
    }
  }

  lemma SameFilters(own: Filter, bs: Blooms, bs': Blooms, j: Key)
    requires forall k :: k in bs ==> k in bs' && bs'[k] == bs[k]
    requires forall k :: k in bs' && k !in bs ==> !bs'[k].onTree
    ensures Fresh(own, bs', j) == Fresh(own, bs, j)
  {
    forall x ensures x in Fresh(own, bs', j) <==> x in Fresh(own, bs, j) {
      if k :| k in bs && bs[k].onTree && k != j && x in bs[k].recv { assert k in bs' && x in bs'[k].recv; }
      if k :| k in bs' && bs'[k].onTree && k != j && x in bs'[k].recv { assert k in bs && x in bs[k].recv; }
    }
  }

  function LinksTo(peers: map<Key, set<Link>>, k: Key): (ls: set<Link>) { if k in peers then peers[k] else {} }

  function AnnsOf(t: Table, ks: set<Key>): (r: set<Ann>) { set k | k in ks && k in t :: Ann(k, t[k]) }

  datatype Flags = Flags(refresh: bool, doRoot1: bool, doRoot2: bool)

  /** The selected parent's response can be used. */
  predicate CanAdopt(t: Table, self: Key, responses: map<Key, SigRes>, sign: (Key, Key, SigReq, Port) -> Signature,
                     best: Choice)
  {
    && best.parent in responses && best.root != self
    && Accepts(t, Adoption(self, best.parent, responses[best.parent], sign))
  }

  predicate MustAct(t: Table, self: Key, best: Choice, f: Flags)
  {
    f.refresh || f.doRoot1 || f.doRoot2 || ParentOf(t, self) != best.parent
  }

  /** Our entry is replaced, and everybody is asked anew. */
  predicate Acts(t: Table, self: Key, responses: map<Key, SigRes>, sign: (Key, Key, SigReq, Port) -> Signature,
                 best: Choice, f: Flags)
  {
    MustAct(t, self, best, f) && (CanAdopt(t, self, responses, sign, best) || f.doRoot2)
  }

  function NewReqs(t: Table, self: Key, peers: map<Key, set<Link>>, nonces: Key -> nat): (rs: map<Key, SigReq>)
  {
    map pk | pk in peers :: NewReq(t, self, nonces(pk))
  }

  /** Flags after `_fix`: cleared by a change of entry, otherwise a first
      failure to find a parent arms the switch to root. */
  function FixFlags(t: Table, self: Key, responses: map<Key, SigRes>, sign: (Key, Key, SigReq, Port) -> Signature,
                    best: Choice, f: Flags): (f': Flags)
  {
    if !MustAct(t, self, best, f) then f
    else if CanAdopt(t, self, responses, sign, best) || f.doRoot2 then Flags(false, false, false)
    else f.(doRoot1 := true)
  }

  /** State after `_fix`: adopt the selected parent, else become root if armed. */
  function FixState(n: Node, self: Key, responses: map<Key, SigRes>, sign: (Key, Key, SigReq, Port) -> Signature,
                    best: Choice, nonce: nat, f: Flags): (n': Node)
  {
    if !MustAct(n.infos, self, best, f) then n
    else if CanAdopt(n.infos, self, responses, sign, best) then
      NodeSpec.Update(n, Adoption(self, best.parent, responses[best.parent], sign))
    else if f.doRoot2 then NodeSpec.Update(n, SelfRoot(n.infos, self, nonce, sign))
    else n
  }

  /** The least member of a cycle acts in `_fix`: it adopts an eligible parent,
      becomes root, or arms the switch to do so next time. */
  lemma FixLeavesCycle(n: Node, self: Key, peers: map<Key, set<Link>>, responses: map<Key, SigRes>,
                       sign: (Key, Key, SigReq, Port) -> Signature, cost: Link -> nat,
                       init: Choice, order: seq<Choice>, nonce: nat, f: Flags)
    requires LeastOnCycle(n.infos, self) && n.infos[self].seqno < MAX64
    requires IsInitial(n.infos, self, peers, cost, init)
    requires IsOrder(n.infos, self, peers, responses, cost, responses.Keys, order)
    ensures var best := ConsiderAll(f.refresh, ParentOf(n.infos, self), init, order);
            var n' := FixState(n, self, responses, sign, best, nonce, f);
            || !OnCycle(n'.infos, self)
            || (!f.doRoot2 && n' == n && FixFlags(n.infos, self, responses, sign, best, f).doRoot1)
  {
    var best := ConsiderAll(f.refresh, ParentOf(n.infos, self), init, order);
    LeastMemberTurnsAway(n.infos, self, peers, responses, cost, f.refresh, init, order);
    if CanAdopt(n.infos, self, responses, sign, best) {
      var ann := Adoption(self, best.parent, responses[best.parent], sign);
      ElectionResult(n.infos, self, peers, responses, cost, f.refresh, init, order);
      AdoptingLeavesCycles(n.infos, self, ann.info);
    } else if f.doRoot2 {
      RootLeavesCycles(n.infos, self, SelfRoot(n.infos, self, nonce, sign).info);
    }
  }

  /** A change of parent by `_fix` puts us above an eligible peer, on no cycle,
      under a root strictly below us. */
  lemma FixAdoptsSafely(n: Node, self: Key, peers: map<Key, set<Link>>, responses: map<Key, SigRes>,
                        sign: (Key, Key, SigReq, Port) -> Signature, cost: Link -> nat,
                        init: Choice, order: seq<Choice>, nonce: nat, f: Flags)
    requires self in n.infos
    requires IsInitial(n.infos, self, peers, cost, init)
    requires IsOrder(n.infos, self, peers, responses, cost, responses.Keys, order)
    ensures var best := ConsiderAll(f.refresh, ParentOf(n.infos, self), init, order);
            var t' := FixState(n, self, responses, sign, best, nonce, f).infos;
            ParentOf(t', self) != ParentOf(n.infos, self) && ParentOf(t', self) != self ==>
              ParentOf(t', self) == best.parent && Root(t', self) == best.root < self && !OnCycle(t', self)
  {
    var best := ConsiderAll(f.refresh, ParentOf(n.infos, self), init, order);
    var t' := FixState(n, self, responses, sign, best, nonce, f).infos;
    if ParentOf(t', self) != ParentOf(n.infos, self) && ParentOf(t', self) != self {
      NewParentIsBelow(n.infos, self, peers, responses, cost, f.refresh, init, order);
      AdoptingLeavesCycles(n.infos, self, Adoption(self, best.parent, responses[best.parent], sign).info);
    }
  }

  /** A missing request reads as the zero request. */
  function Requested(requests: map<Key, SigReq>, k: Key): (req: SigReq)
  {
    if k in requests then requests[k] else SigReq(0, 0)
  }

  lemma NothingOwedAfter(n: Node, self: Key)
    ensures forall p :: p in n.sent ==> Owed(SendAll(n, self), self, p) == {}
  {
  }

  lemma FreshGrows(own: Filter, bs: Blooms, todo: set<Key>, k: Key, key: Key)
    requires todo <= bs.Keys && k in todo
    ensures Fresh(own, bs - (todo - {k}), key)
         == Fresh(own, bs - todo, key) + if bs[k].onTree && k != key then bs[k].recv else {}
  {
    var l := Fresh(own, bs - (todo - {k}), key);
    var r := Fresh(own, bs - todo, key) + if bs[k].onTree && k != key then bs[k].recv else {};
    assert forall j :: j in bs - (todo - {k}) <==> j == k || j in bs - todo;
    forall x ensures x in l <==> x in r {}
  }

  lemma FreshSame(own: Filter, bs: Blooms, cs: Blooms, key: Key)
    requires bs.Keys == cs.Keys
    requires forall j :: j in bs ==> bs[j].recv == cs[j].recv && bs[j].onTree == cs[j].onTree
    ensures Fresh(own, bs, key) == Fresh(own, cs, key)
  {
  }

  /** Outside `todo` the tree marks are right, and the peers whose link left the
      tree are blanked. */
  ghost predicate RefittedSoFar(t: Table, self: Key, before: Blooms, after: Blooms, blanked: set<Key>, todo: set<Key>)
  {
    && after.Keys == before.Keys && todo <= after.Keys
    && (forall k :: k in after ==> after[k] == if k in todo then before[k] else Refit(before[k], IsOnTree(t, self, k)))
    && (forall k :: k in blanked <==> k in before && k !in todo && before[k].onTree && !IsOnTree(t, self, k))
  }

  /** The link to `k` before and after its turn in `_sendAllBlooms`, and what went out on it. */
  ghost predicate LinkAdvertised(own: Filter, first: Blooms, after: Blooms, out: map<Key, Filter>, k: Key,
                                 todo: set<Key>)
    requires k in first && k in after
  {
    && after[k] == (if k !in todo && first[k].onTree then AfterRound(own, first, k) else first[k])
    && (k in out <==> k !in todo && first[k].onTree && Sends(own, first, k))
    && (k in out ==> out[k] == after[k].send)
  }

  ghost predicate BloomsSent(own: Filter, first: Blooms, after: Blooms, out: map<Key, Filter>, todo: set<Key>)
  {
    && after.Keys == first.Keys && out.Keys <= first.Keys
    && forall k :: k in first ==> LinkAdvertised(own, first, after, out, k, todo)
  }

  lemma BloomsSentStep(own: Filter, first: Blooms, before: Blooms, out: map<Key, Filter>, todo: set<Key>, k: Key,
                       f: Option<Filter>)
    requires BloomsSent(own, first, before, out, todo) && k in todo && k in before && before[k].onTree
    requires f == if Sends(own, before, k) then Some(AfterRound(own, before, k).send) else None
    ensures BloomsSent(own, first, before[k := AfterRound(own, before, k)], if f.Some? then out[k := f.value] else out,
                       todo - {k})
  {
    var after, out' := before[k := AfterRound(own, before, k)], if f.Some? then out[k := f.value] else out;
    assert forall i :: i in first ==> LinkAdvertised(own, first, before, out, i, todo);
    FreshSame(own, first, before, k);
    assert AfterRound(own, before, k) == AfterRound(own, first, k);
    forall j | j in first ensures LinkAdvertised(own, first, after, out', j, todo - {k}) {
      assert LinkAdvertised(own, first, before, out, j, todo);
    }
  }

  /** After `_sendAllBlooms` no tree link misses anything: its filter covers our
      own bits and everything heard on the other tree links. */
  lemma SentCovers(own: Filter, bs: Blooms, k: Key)
    requires k in bs
    ensures bs[k].onTree ==> Fresh(own, SendRound(own, bs), k) <= SendRound(own, bs)[k].send
  {
    FreshSame(own, bs, SendRound(own, bs), k);
  }

  lemma AllRefitted(t: Table, self: Key, before: Blooms, after: Blooms, blanked: set<Key>)
    requires RefittedSoFar(t, self, before, after, blanked, {})
    ensures after == RefitAll(t, self, before) && blanked == Blanked(t, self, before)
  {
  }

  lemma AllSent(own: Filter, first: Blooms, after: Blooms, out: map<Key, Filter>)
    requires BloomsSent(own, first, after, out, {})
    ensures after == SendRound(own, first) && out == SentFilters(own, first)
  {
    forall k | k in first
      ensures after[k] == SendRound(own, first)[k] && (k in out <==> k in SentFilters(own, first))
      ensures k in out ==> out[k] == SentFilters(own, first)[k]
    {
      assert LinkAdvertised(own, first, after, out, k, {});
    }
  }

  ghost predicate IsLeastPrio(links: set<Link>, best: Link)
  {
    best in links && forall l :: l in links ==> best.prio <= l.prio
  }

  method LeastPrio(links: set<Link>) returns (best: Link)
    requires links != {}
    ensures IsLeastPrio(links, best)
  {
    best :| best in links;
    var todo := links - {best};
    while todo != {}
      invariant todo <= links && best in links
      invariant forall l :: l in links - todo ==> best.prio <= l.prio
      decreases todo
    {
      var l :| l in todo;
      if l.prio < best.prio {
        best := l;
      }
      todo := todo - {l};
    }
  }

  datatype Outcome = Forward(link: Link, watermark: nat) | Deliver | Broken

  /** `_newReq`: the next sequence number, wrapping like the uint64 it is. */
  function NewReq(t: Table, self: Key, nonce: nat): (req: SigReq)
  {
    SigReq(Add64(if self in t then t[self].seqno else 0, 1), nonce)
  }

  function Adoption(self: Key, parent: Key, res: SigRes, sign: (Key, Key, SigReq, Port) -> Signature): (ann: Ann)
  {
    Ann(self, Info(parent, res.req.seqno, res.req.nonce, res.port, res.psig, sign(self, parent, res.req, res.port)))
  }

  function SelfRoot(t: Table, self: Key, nonce: nat, sign: (Key, Key, SigReq, Port) -> Signature): (ann: Ann)
  {
    var req := NewReq(t, self, nonce);
    var s := sign(self, self, req, 0);
    Ann(self, Info(self, req.seqno, req.nonce, 0, s, s))
  }

  lemma HopsIsDist(t: Table, key: Key, dists: map<Key, nat>)
    requires IsIndex(dists, Chain(t, key, {}))
    ensures Hops(t, key) == if Root(t, key) in dists then dists[Root(t, key)] else 0
  {
    var c := Chain(t, key, {});
    if c != [] { assert c[|c| - 1] in dists; }
  }

  /** The comparisons in the loop of `_fix`. */
  method WeighOffer(refresh: bool, current: Key, best: Choice, c: Choice) returns (b: Choice)
    ensures b == Consider(refresh, current, best, c)
  {
    b := best;
    if c.root < b.root {
      b := c;
    } else if c.root != b.root {
      return;
    }
    if (refresh && Mul64(c.cost, 2) < b.cost) || (b.parent != current && c.cost < b.cost) {
      b := c;
    }
  }

  lemma ConsiderOne(refresh: bool, current: Key, init: Choice, order: seq<Choice>, c: Choice)
    ensures ConsiderAll(refresh, current, init, order + [c])
         == Consider(refresh, current, ConsiderAll(refresh, current, init, order), c)
  {
    assert (order + [c])[..|order + [c]| - 1] == order;
  }

  /** The inner loop of `_fix`: least hop count times link cost. */
  method CheapestLink(links: set<Link>, hops: nat, cost: Link -> nat) returns (c: nat)
    ensures IsPathCost(links, hops, cost, c)
  {
    c := MAX64;
    var todo := links;
    while todo != {}
      invariant todo <= links
      invariant IsPathCost(links - todo, hops, cost, c)
      decreases todo
    {
      var l :| l in todo;
      if Mul64(hops, cost(l)) < c {
        c := Mul64(hops, cost(l));
      }
      todo := todo - {l};
    }
    assert links - todo == links;
  }

  /** The comparison loop of `_getDist`. */
  method PathDist(keyPath: seq<Port>, destPath: seq<Port>) returns (dist: nat)
    ensures dist == Dist(keyPath, destPath)
  {
    var end := if |keyPath| < |destPath| then |keyPath| else |destPath|;
    dist := |keyPath| + |destPath|;
    var idx := 0;
    while idx < end && keyPath[idx] == destPath[idx]
      invariant 0 <= idx <= end
      invariant keyPath[..idx] == destPath[..idx]
      invariant dist == |keyPath| + |destPath| - 2 * idx
    {
      assert keyPath[..idx + 1] == keyPath[..idx] + [keyPath[idx]];
      assert destPath[..idx + 1] == destPath[..idx] + [destPath[idx]];
      dist := dist - 2;
      idx := idx + 1;
    }
    CommonUnique(keyPath, destPath, idx);
  }

  /** `cands` are exactly the links of the peers in `done` that are nearer than `bound`. */
  ghost predicate AreCands(t: Table, peers: map<Key, set<Link>>, path: seq<Port>, bound: nat, cost: Link -> nat,
                           done: set<Key>, cands: seq<Cand>)
  {
    forall c :: c in cands <==>
      && c.link.key in done && c.link.key in peers && c.link in peers[c.link.key]
      && c.dist == Dist(Path(t, c.link.key), path) && c.dist < bound && c.cost == cost(c.link)
  }

  lemma CandsGrow(t: Table, peers: map<Key, set<Link>>, path: seq<Port>, bound: nat, cost: Link -> nat,
                  done: set<Key>, cands: seq<Cand>, k: Key, more: seq<Cand>)
    requires AreCands(t, peers, path, bound, cost, done, cands) && k in peers && k !in done
    requires forall l :: l in peers[k] ==> l.key == k
    requires Dist(Path(t, k), path) < bound
    requires forall c :: c in more <==> c.link in peers[k] && c.dist == Dist(Path(t, k), path) && c.cost == cost(c.link)
    ensures AreCands(t, peers, path, bound, cost, done + {k}, cands + more)
  {
  }

  lemma CandsSkip(t: Table, peers: map<Key, set<Link>>, path: seq<Port>, bound: nat, cost: Link -> nat,
                  done: set<Key>, cands: seq<Cand>, k: Key)
    requires AreCands(t, peers, path, bound, cost, done, cands)
    requires Dist(Path(t, k), path) >= bound
    ensures AreCands(t, peers, path, bound, cost, done + {k}, cands)
  {
  }

  /** The links of each peer have one priority. */
  ghost predicate OnePriorityEach(peers: map<Key, set<Link>>)
  {
    forall k, l, m :: k in peers && l in peers[k] && m in peers[k] ==> l.prio == m.prio
  }

  function CandOf(t: Table, path: seq<Port>, cost: Link -> nat, l: Link): (c: Cand)
  {
    Cand(l, Dist(Path(t, l.key), path), cost(l))
  }

  /** Priorities of different peers do not matter: where each peer's links have
      one, the link taken has the least score of all nearer links. */
  lemma LeastScoreIsTaken(t: Table, peers: map<Key, set<Link>>, path: seq<Port>, bound: nat, cost: Link -> nat,
                          cands: seq<Cand>)
    requires AreCands(t, peers, path, bound, cost, peers.Keys, cands) && cands != []
    requires forall k, l :: k in peers && l in peers[k] ==> l.key == k
    ensures Pick(cands).value == CandOf(t, path, cost, Pick(cands).value.link)
    ensures OnePriorityEach(peers) ==>
              forall k, l :: k in peers && l in peers[k] && Dist(Path(t, k), path) < bound ==>
                !ScoreLess(CandOf(t, path, cost, l), Pick(cands).value)
  {
    assert Pick(cands).value in cands;
    if OnePriorityEach(peers) {
      PickMinimizes(cands);
      forall k, l | k in peers && l in peers[k] && Dist(Path(t, k), path) < bound
        ensures !ScoreLess(CandOf(t, path, cost, l), Pick(cands).value)
      {
        assert CandOf(t, path, cost, l) in cands;
      }
    }
  }

  /** A link that beats all others is taken, in whatever order the peer map is walked. */
  lemma WinnerIsTaken(t: Table, peers: map<Key, set<Link>>, path: seq<Port>, bound: nat, cost: Link -> nat,
                      cands: seq<Cand>, cands': seq<Cand>, w: Cand)
    requires AreCands(t, peers, path, bound, cost, peers.Keys, cands)
    requires AreCands(t, peers, path, bound, cost, peers.Keys, cands') && Winner(cands, w)
    ensures Pick(cands) == Pick(cands') == Some(w)
  {
    assert forall c :: c in cands <==> c in cands';
    WinnerIsPicked(cands, w);
    WinnerIsPicked(cands', w);
  }

  /** There is a candidate exactly when some peer is nearer than we are. */
  lemma CandsDecide(v: View, peers: map<Key, set<Link>>, path: seq<Port>, bound: nat, cost: Link -> nat,
                    cands: seq<Cand>)
    requires v.peers == peers.Keys && bound == DistFrom(v, v.self, path)
    requires forall k :: k in peers ==> peers[k] != {}
    requires forall k, l :: k in peers && l in peers[k] ==> l.key == k
    requires AreCands(v.infos, peers, path, bound, cost, peers.Keys, cands)
    ensures cands == [] <==> forall k :: k in v.peers ==> bound <= DistFrom(v, k, path)
    ensures forall c :: c in cands ==> c.link.key in v.peers && DistFrom(v, c.link.key, path) < bound
  {
    if k :| k in v.peers && DistFrom(v, k, path) < bound {
      var l :| l in peers[k];
      assert Cand(l, DistFrom(v, k, path), cost(l)) in cands;
    }
    if cands != [] {
      assert cands[0] in cands;
    }
  }

  /** One candidate per link. */
  method LinksOf(links: set<Link>, dist: nat, cost: Link -> nat) returns (cands: seq<Cand>)
    ensures forall c :: c in cands <==> c.link in links && c.dist == dist && c.cost == cost(c.link)
  {
    cands := [];
    var todo := links;
    while todo != {}
      invariant todo <= links
      invariant forall c :: c in cands <==> c.link in links - todo && c.dist == dist && c.cost == cost(c.link)
      decreases todo
    {
      var l :| l in todo;
      cands := cands + [Cand(l, dist, cost(l))];
      todo := todo - {l};
    }
  }

  /** The second loop of `_lookup`, with its chain of comparisons. */
  method Scan(cands: seq<Cand>) returns (best: Option<Cand>)
    ensures best == Pick(cands)
  {
    best := None;
    var idx := 0;
    while idx < |cands|
      invariant 0 <= idx <= |cands|
      invariant best == Pick(cands[..idx])
    {
      var p := cands[idx];
      assert cands[..idx + 1][..idx] == cands[..idx];
      if best.None? {
        best := Some(p);
      } else {
        var b := best.value;
        if p.link.key == b.link.key && p.link.prio < b.link.prio {
          best := Some(p);
        } else if p.link.key == b.link.key && p.link.prio > b.link.prio {
        } else if Mul64(p.cost, p.dist) < Mul64(b.cost, b.dist) {
          best := Some(p);
        } else if Mul64(p.cost, p.dist) > Mul64(b.cost, b.dist) {
        } else if p.dist < b.dist {
          best := Some(p);
        } else if p.dist > b.dist {
        } else if p.cost < b.cost {
          best := Some(p);
        } else if p.cost > b.cost {
        } else if p.link.order < b.link.order {
          best := Some(p);
        }
      }
      idx := idx + 1;
    }
    assert cands[..|cands|] == cands;
  }

  function OverLinks(links: set<Link>, anns: seq<Ann>): (m: map<Link, seq<Ann>>)
  {
    map l | l in links :: anns
  }

  ghost predicate SentSoFar(n: Node, self: Key, sent: map<Key, set<Key>>, todo: set<Key>)
  {
    && todo <= sent.Keys == n.sent.Keys
    && forall p :: p in sent ==> sent[p] == if p in todo then n.sent[p] else n.sent[p] + Owed(n, self, p)
  }

  lemma SentStep(n: Node, self: Key, sent: map<Key, set<Key>>, todo: set<Key>, p: Key)
    requires SentSoFar(n, self, sent, todo) && p in todo
    ensures SentSoFar(n, self, sent[p := sent[p] + Owed(n, self, p)], todo - {p})
  {
  }

  lemma SentDone(n: Node, self: Key, sent: map<Key, set<Key>>)
    requires SentSoFar(n, self, sent, {})
    ensures sent == SendAll(n, self).sent
  {
  }

  lemma SendAllKeepsKnown(n: Node, self: Key)
    requires forall p :: p in n.sent ==> n.sent[p] <= n.infos.Keys
    ensures forall p :: p in SendAll(n, self).sent ==> SendAll(n, self).sent[p] <= n.infos.Keys
  {
    forall p | p in n.sent ensures Owed(n, self, p) <= n.infos.Keys {
      OwedAreKnown(n, self, p);
    }
  }

  /** Every link of a peer outside `todo`, and no other, carries what that peer is owed. */
  ghost predicate ToldSoFar(n: Node, self: Key, peers: map<Key, set<Link>>, out: map<Link, seq<Ann>>, todo: set<Key>)
  {
    && (forall l :: l in out <==> l.key in peers && l.key !in todo && l in peers[l.key])
    && (forall l :: l in out ==> Told(n, self, l.key, out[l]))
  }

  lemma ToldStep(n: Node, self: Key, peers: map<Key, set<Link>>, out: map<Link, seq<Ann>>, todo: set<Key>, p: Key,
                 anns: seq<Ann>)
    requires ToldSoFar(n, self, peers, out, todo) && p in todo && p in peers && Told(n, self, p, anns)
    requires forall l :: l in peers[p] ==> l.key == p
    ensures ToldSoFar(n, self, peers, out + OverLinks(peers[p], anns), todo - {p})
  {
  }

  /** `anns` is what `self` owes `peer`, root first. */
  ghost predicate Told(n: Node, self: Key, peer: Key, anns: seq<Ann>)
  {
    && peer in n.sent
    && (forall k :: k in OwedList(n, self, peer) ==> k in n.infos)
    && anns == Announcements(n.infos, OwedList(n, self, peer))
  }

  /** One of the two filtering loops of `_sendAnnounces`. */
  method CollectUnsent(anc: seq<Key>, before: set<Key>) returns (toSend: seq<Key>, marked: set<Key>)
    ensures toSend == Unsent(anc, before)
    ensures marked == before + Elements(anc)
  {
    toSend, marked := [], before;
    var idx := 0;
    while idx < |anc|
      invariant 0 <= idx <= |anc|
      invariant toSend + Unsent(anc[idx..], marked) == Unsent(anc, before)
      invariant marked == before + Elements(anc[..idx])
    {
      UnsentStep(anc, idx, toSend, marked);
      OneMore(anc, idx);
      if anc[idx] !in marked {
        toSend := toSend + [anc[idx]];
        marked := marked + {anc[idx]};
      }
      idx := idx + 1;
    }
    assert anc[..|anc|] == anc;
  }

  lemma UnsentStep(anc: seq<Key>, idx: nat, toSend: seq<Key>, marked: set<Key>)
    requires idx < |anc|
    ensures toSend + Unsent(anc[idx..], marked) ==
              if anc[idx] in marked then toSend + Unsent(anc[idx + 1..], marked)
              else (toSend + [anc[idx]]) + Unsent(anc[idx + 1..], marked + {anc[idx]})
  {
    assert anc[idx..][1..] == anc[idx + 1..];
  }

  lemma OneMore(anc: seq<Key>, idx: nat)
    requires idx < |anc|
    ensures Elements(anc[..idx + 1]) == Elements(anc[..idx]) + {anc[idx]}
  {
    assert anc[..idx + 1] == anc[..idx] + [anc[idx]];
  }

  /** The loop of `_getRootAndDists`. */
  method WalkDists(t: Table, dest: Key) returns (root: Key, dists: map<Key, nat>)
    ensures root == Root(t, dest)
    ensures IsIndex(dists, Chain(t, dest, {}))
  {
    dists := map[];
    root := 0;
    var next, dist := dest, 0;
    ghost var walked: seq<Key> := [];
    while next !in dists && next in t
      invariant Walked(t, dest, walked, next)
      invariant dist == |walked|
      invariant IsIndex(dists, walked)
      invariant root == LastOf(walked)
      decreases |t.Keys - Elements(walked)|
    {
      WalkOn(t, dest, walked, next);
      IndexGrows(dists, walked, next);
      root := next;
      dists := dists[next := dist];
      walked := walked + [next];
      dist := dist + 1;
      next := t[next].parent;
    }
    WalkEnd(t, dest, walked, next);
  }

  /** `_backwardsAncestry`, started from an empty list: the chain itself. */
  method BackwardsAncestry(t: Table, key: Key) returns (anc: seq<Key>)
    ensures anc == Chain(t, key, {})
  {
    anc := [];
    var here := key;
    while here !in anc && here in t
      invariant Walked(t, key, anc, here)
      decreases |t.Keys - Elements(anc)|
    {
      WalkOn(t, key, anc, here);
      anc := anc + [here];
      here := t[here].parent;
    }
    WalkEnd(t, key, anc, here);
  }

  /** The walk of `_getRootAndPath` before it reverses the ports. */
  method WalkPorts(t: Table, dest: Key) returns (next: Key, ports: seq<Port>, ghost walked: seq<Key>)
    ensures Walked(t, dest, walked, next) && LastPointsOn(t, walked, next) && PortsOf(t, walked, ports)
    ensures next in walked || next !in t || t[next].parent == next
  {
    ports, walked := [], [];
    var visited: set<Key> := {};
    next := dest;
    while next !in visited && next in t && t[next].parent != next
      invariant visited == Elements(walked)
      invariant Walked(t, dest, walked, next)
      invariant LastPointsOn(t, walked, next)
      invariant PortsOf(t, walked, ports)
      decreases |t.Keys - Elements(walked)|
    {
      WalkOn(t, dest, walked, next);
      PortsGrow(t, walked, ports, next);
      visited := visited + {next};
      ports := ports + [t[next].port];
      walked := walked + [next];
      next := t[next].parent;
    }
  }

  /** `_getRootAndPath`: no path after a loop or a dead end, else the ports reversed. */
  method WalkPath(t: Table, dest: Key) returns (root: Key, path: seq<Port>)
    ensures path == Path(t, dest)
    ensures root == if Rooted(t, dest) then Root(t, dest) else dest
  {
    var next, ports; ghost var walked;
    next, ports, walked := WalkPorts(t, dest);
    if next !in t || t[next].parent != next {
      NoPathFound(t, dest, walked, next);
      root, path := dest, [];
    } else {
      SelfParentIsNew(t, dest, walked, next);
      WalkOn(t, dest, walked, next);
      PathFound(t, dest, walked, next, ports);
      root := next;
      path := InPlaceReverse(ports);
    }
  }

  /** A walker that started at `dest` has met `w` and is about to look at `next`. */
  ghost predicate Walked(t: Table, dest: Key, w: seq<Key>, next: Key)
  {
    && (forall k :: k in w ==> k in t)
    && Chain(t, dest, {}) == w + Chain(t, next, Elements(w))
  }

  lemma WalkOn(t: Table, dest: Key, w: seq<Key>, next: Key)
    requires Walked(t, dest, w, next) && next !in w && next in t
    ensures Walked(t, dest, w + [next], t[next].parent)
    ensures Elements(w + [next]) == Elements(w) + {next}
    ensures |t.Keys - Elements(w + [next])| < |t.Keys - Elements(w)|
  {
    assert Elements(w + [next]) == Elements(w) + {next};
    ProperSubsetIsSmaller(t.Keys - Elements(w + [next]), t.Keys - Elements(w));
    assert Chain(t, next, Elements(w)) == [next] + Chain(t, t[next].parent, Elements(w) + {next});
  }

  lemma WalkEnd(t: Table, dest: Key, w: seq<Key>, next: Key)
    requires Walked(t, dest, w, next) && (next in w || next !in t)
    ensures w == Chain(t, dest, {})
  {
  }

  /** The walk's last key names `next`, another key, as its parent. */
  ghost predicate LastPointsOn(t: Table, w: seq<Key>, next: Key)
  {
    w != [] ==> var last := w[|w| - 1]; last in t && t[last].parent == next && next != last
  }

  ghost predicate PortsOf(t: Table, w: seq<Key>, ports: seq<Port>)
  {
    |ports| == |w| && forall i :: 0 <= i < |w| ==> w[i] in t && ports[i] == t[w[i]].port
  }

  lemma PortsGrow(t: Table, w: seq<Key>, ports: seq<Port>, x: Key)
    requires PortsOf(t, w, ports) && x in t
    ensures PortsOf(t, w + [x], ports + [t[x].port])
  {
  }

  /** A self-parent ends the walk the first time it is met. */
  lemma SelfParentIsNew(t: Table, dest: Key, w: seq<Key>, next: Key)
    requires Walked(t, dest, w, next) && LastPointsOn(t, w, next) && next in t && t[next].parent == next
    ensures next !in w
  {
    var c := Chain(t, dest, {});
    ChainIsChain(t, dest, {});
    assert forall i :: 0 <= i < |w| ==> c[i] == w[i];
    forall i | 0 <= i < |w| ensures w[i] != next {
      var j := i + 1;
      assert j < |w| ==> c[j] == t[c[j - 1]].parent && c[i] != c[j];
    }
  }

  lemma NoPathFound(t: Table, dest: Key, w: seq<Key>, next: Key)
    requires Walked(t, dest, w, next) && LastPointsOn(t, w, next) && (next in w || next !in t)
    ensures !Rooted(t, dest)
  {
    WalkEnd(t, dest, w, next);
  }

  lemma PathFound(t: Table, dest: Key, w: seq<Key>, next: Key, ports: seq<Port>)
    requires Walked(t, dest, w + [next], next) && PortsOf(t, w, ports)
    requires next in t && t[next].parent == next
    ensures Rooted(t, dest) && Root(t, dest) == next && Path(t, dest) == Reverse(ports)
  {
    WalkEnd(t, dest, w + [next], next);
    PortsDownReversed(t, w + [next], ports);
  }

  /** `m` maps every element of `w` to its position, and nothing else. */
  ghost predicate IsIndex(m: map<Key, nat>, w: seq<Key>)
  {
    && m.Keys == Elements(w)
    && forall i :: 0 <= i < |w| ==> w[i] in m && m[w[i]] == i
  }

  lemma IndexGrows(m: map<Key, nat>, w: seq<Key>, x: Key)
    requires IsIndex(m, w) && x !in m
    ensures IsIndex(m[x := |w|], w + [x])
  {
    assert Elements(w + [x]) == Elements(w) + {x};
    assert forall i :: 0 <= i < |w| ==> w[i] in Elements(w);
  }

  /** The two-index reversal loop used by both walkers. */
  method InPlaceReverse<T>(s: seq<T>) returns (r: seq<T>)
    ensures r == Reverse(s)
  {
    r := s;
    var left, right := 0, |s| - 1;
    while left < right
      invariant 0 <= left <= right + 1 && left + right == |s| - 1
      invariant |r| == |s|
      invariant forall i :: left <= i <= right ==> r[i] == s[i]
      invariant forall i :: 0 <= i < left ==> r[i] == s[|s| - 1 - i]
      invariant forall i :: right < i < |s| ==> r[i] == s[|s| - 1 - i]
    {
      var atLeft, atRight := r[left], r[right];
      r := r[left := atRight];
      r := r[right := atLeft];
      left, right := left + 1, right - 1;
    }
  }

  lemma {:induction false} PortsDownReversed(t: Table, c: seq<Key>, ports: seq<Port>)
    requires c != [] && |ports| == |c| - 1
    requires forall i :: 0 <= i < |ports| ==> c[i] in t && ports[i] == t[c[i]].port
    ensures PortsDown(t, c) == Reverse(ports)
  {
    if |c| == 1 {
    } else {
      PortsDownReversed(t, c[1..], ports[1..]);
      assert Reverse(ports) == Reverse(ports[1..]) + [ports[0]];
    }
  }

  lemma OwedAreKnown(n: Node, self: Key, peer: Key)
    requires peer in n.sent
    ensures Owed(n, self, peer) <= n.infos.Keys
    ensures forall k :: k in OwedList(n, self, peer) ==> k in n.infos
  {
    ChainIsChain(n.infos, self, {});
    ChainIsChain(n.infos, peer, {});
    OwedListIsOwed(n, self, peer);
    assert forall k :: k in OwedList(n, self, peer) ==> k in Elements(OwedList(n, self, peer));
  }

  lemma MarkedIsOwed(n: Node, self: Key, peer: Key)
    requires peer in n.sent
    ensures n.sent[peer] + Elements(Reverse(Chain(n.infos, self, {}))) + Elements(Reverse(Chain(n.infos, peer, {})))
         == n.sent[peer] + Owed(n, self, peer)
  {
    var mine, theirs := Chain(n.infos, self, {}), Chain(n.infos, peer, {});
    ReverseSameElements(mine);
    ReverseSameElements(theirs);
  }
}
