/** What a node knows about the coordinates of others, and the packets that
    wait for an answer (ironwood/network/pathfinder.go), as functions. */
module PathBook {
  import opened Basics
  import opened Keys
  import opened Tables

  datatype Packet = Packet(path: seq<Port>, from: seq<Port>, source: Key, dest: Key, watermark: nat, payload: seq<bv8>)

  datatype PathInfo = PathInfo(path: seq<Port>, seqno: nat, reqTime: int, timer: nat, held: Option<Packet>,
                               broken: bool)

  datatype Rumor = Rumor(held: Option<Packet>, sendTime: int, timer: nat)

  /** `timers` numbers the timers started so far. */
  datatype Book = Book(paths: map<Key, PathInfo>, rumors: map<Key, Rumor>, timers: nat)

  /** Our key, the bloom transform, the throttle interval, and how a time reads
      as the sequence number of an answer. */
  datatype Config = Config(self: Key, xform: Key -> Key, throttle: int, stamp: int -> nat)

  datatype Action =
    | Forward(tr: Packet)                // hand to the router
    | Ask(dest: Key, from: seq<Port>)    // start a lookup

  datatype Event =
    | Traffic(tr: Packet)
    | Lookup(dest: Key)                                               // asked for by the layer above
    | Notify(source: Key, seqno: nat, path: seq<Port>, checks: bool)  // a notify that ends here
    | Broken(dest: Key)                                               // a pathBroken that ends here
    | PathTimeout(key: Key, timer: nat)
    | RumorTimeout(slot: Key, timer: nat)

  // -------------------------------------------------------------------- handlers

  /** `_handleTraffic` for a destination with a stored path: send along it, and keep a copy. */
  function SendKnown(b: Book, tr: Packet, from: seq<Port>): (r: (Book, seq<Action>))
    requires tr.dest in b.paths
  {
    var info := b.paths[tr.dest];
    var out := tr.(path := info.path, from := from);
    (b.(paths := b.paths[tr.dest := info.(held := Some(out))]), [Forward(out)])
  }

  /** Does `_handleNotify` take the news? */
  predicate TakesNotify(c: Config, b: Book, source: Key, seqno: nat, path: seq<Port>, checks: bool)
  {
    if source in b.paths
    then seqno > b.paths[source].seqno && path != b.paths[source].path && checks
    else c.xform(source) in b.rumors && checks
  }

  /** A first answer starts an entry, which takes over a packet waiting for this source. */
  function OpenPath(c: Config, b: Book, source: Key, now: int): (b': Book)
    requires c.xform(source) in b.rumors
  {
    var x := c.xform(source);
    var rumor := b.rumors[x];
    var info := PathInfo([], 0, now, b.timers, None, false);
    if rumor.held.Some? && rumor.held.value.dest == source
    then Book(b.paths[source := info.(held := rumor.held)], b.rumors[x := rumor.(held := None)], b.timers + 1)
    else Book(b.paths[source := info], b.rumors, b.timers + 1)
  }

  /** The rest of `_handleNotify`: store the path, and send what was held along it. */
  function StorePath(b: Book, source: Key, seqno: nat, path: seq<Port>, from: seq<Port>): (r: (Book, seq<Action>))
    requires source in b.paths && (b.paths[source].held.Some? ==> b.paths[source].held.value.dest == source)
  {
    var info := b.paths[source];
    var b1 := b.(paths := b.paths[source := info.(path := path, seqno := seqno, broken := false, held := None)]);
    if info.held.Some? then SendKnown(b1, info.held.value, from) else (b1, [])
  }

  /** `_handleNotify`, where the router knows no next hop and we are addressed. */
  function HandleNotify(c: Config, b: Book, source: Key, seqno: nat, path: seq<Port>, checks: bool, from: seq<Port>,
                        now: int)
    : (r: (Book, seq<Action>))
    requires Kept(c, b)
  {
    if !TakesNotify(c, b, source, seqno, path, checks) then (b, [])
    else StorePath(if source in b.paths then b else OpenPath(c, b, source, now), source, seqno, path, from)
  }

  /** `_sendLookup`: handled here first, so that a node matching its own lookup
      answers itself at once.  The answer ends here too, since no peer is nearer
      to our own coordinates than we are. */
  function SendLookup(c: Config, b: Book, dest: Key, from: seq<Port>, now: int): (r: (Book, seq<Action>))
    requires Kept(c, b)
  {
    if dest in b.paths && now - b.paths[dest].reqTime < c.throttle then (b, [])
    else if c.xform(dest) != c.xform(c.self) then (b, [Ask(dest, from)])
    else
      var r := HandleNotify(c, b, c.self, c.stamp(now), from, true, from, now);
      (r.0, [Ask(dest, from)] + r.1)
  }

  predicate Throttled(c: Config, b: Book, dest: Key, now: int)
  {
    c.xform(dest) in b.rumors && now - b.rumors[c.xform(dest)].sendTime < c.throttle
  }

  function StartRumor(c: Config, b: Book, dest: Key, now: int): (b': Book)
    requires Kept(c, b)
    ensures Kept(c, b') && b'.paths == b.paths && c.xform(dest) in b'.rumors
  {
    var x := c.xform(dest);
    if x in b.rumors then b.(rumors := b.rumors[x := b.rumors[x].(sendTime := now)])
    else b.(rumors := b.rumors[x := Rumor(None, now, b.timers)], timers := b.timers + 1)
  }

  /** `_rumorSendLookup` */
  function RumorSendLookup(c: Config, b: Book, dest: Key, from: seq<Port>, now: int): (r: (Book, seq<Action>))
    requires Kept(c, b)
  {
    if Throttled(c, b, dest, now) then (b, [])
    else SendLookup(c, StartRumor(c, b, dest, now), dest, from, now)
  }

  /** `_handleTraffic`.  A missing rumor is where the source panics. */
  function HandleTraffic(c: Config, b: Book, tr: Packet, from: seq<Port>, now: int): (r: (Book, seq<Action>))
    requires Kept(c, b)
  {
    if tr.dest in b.paths then SendKnown(b, tr, from)
    else
      var r, x := RumorSendLookup(c, b, tr.dest, from, now), c.xform(tr.dest);
      (if x in r.0.rumors then r.0.(rumors := r.0.rumors[x := r.0.rumors[x].(held := Some(tr))]) else r.0, r.1)
  }

  /** pathNotify */
  datatype NotifyMsg = NotifyMsg(path: seq<Port>, watermark: nat, source: Key, dest: Key, seqno: nat, coords: seq<Port>)

  /** `_handleLookup`: a node whose transformed key matches answers with its coordinates. */
  function AnswerLookup(c: Config, source: Key, dest: Key, from: seq<Port>, coords: seq<Port>, now: int)
    : (a: Option<NotifyMsg>)
  {
    if c.xform(dest) == c.xform(c.self) then Some(NotifyMsg(from, MAX64, c.self, source, c.stamp(now), coords))
    else None
  }

  /** `_handleBroken`, where we are addressed. */
  function HandleBroken(c: Config, b: Book, dest: Key, from: seq<Port>, now: int): (r: (Book, seq<Action>))
    requires Kept(c, b)
  {
    if dest in b.paths then SendLookup(c, b.(paths := b.paths[dest := b.paths[dest].(broken := true)]), dest, from, now)
    else (b, [])
  }

  function Handle(c: Config, b: Book, e: Event, from: seq<Port>, now: int): (r: (Book, seq<Action>))
    requires Kept(c, b)
  {
    match e
    case Traffic(tr) => HandleTraffic(c, b, tr, from, now)
    case Lookup(dest) => RumorSendLookup(c, b, dest, from, now)
    case Notify(source, seqno, path, checks) => HandleNotify(c, b, source, seqno, path, checks, from, now)
    case Broken(dest) => HandleBroken(c, b, dest, from, now)
    case PathTimeout(key, timer) =>
      (if key in b.paths && b.paths[key].timer == timer then b.(paths := b.paths - {key}) else b, [])
    case RumorTimeout(slot, timer) =>
      (if slot in b.rumors && b.rumors[slot].timer == timer then b.(rumors := b.rumors - {slot}) else b, [])
  }

  // ------------------------------------------------------------------ invariant

  /** Packets are kept with their own destination, or in the slot it transforms
      to; no packet for another node waits for an answer that is already known;
      timers are distinct from those still to be started. */
  ghost predicate Kept(c: Config, b: Book)
  {
    && (forall k :: k in b.paths ==>
          b.paths[k].timer < b.timers && (b.paths[k].held.Some? ==> b.paths[k].held.value.dest == k))
    && (forall x :: x in b.rumors ==> b.rumors[x].timer < b.timers)
    && (forall x :: x in b.rumors && b.rumors[x].held.Some? ==>
          && c.xform(b.rumors[x].held.value.dest) == x
          && (b.rumors[x].held.value.dest in b.paths ==> b.rumors[x].held.value.dest == c.self))
  }

  /** What leaves goes along the path stored for its destination, with our own coordinates as return path. */
  ghost predicate SentAlongStored(b: Book, acts: seq<Action>, from: seq<Port>)
  {
    forall a :: a in acts && a.Forward? ==>
      a.tr.dest in b.paths && a.tr.path == b.paths[a.tr.dest].path && a.tr.from == from
  }

  lemma NotifyKeeps(c: Config, b: Book, source: Key, seqno: nat, path: seq<Port>, checks: bool, from: seq<Port>,
                    now: int)
    requires Kept(c, b)
    ensures var r := HandleNotify(c, b, source, seqno, path, checks, from, now);
            && Kept(c, r.0) && SentAlongStored(r.0, r.1, from)
            && r.0.rumors.Keys == b.rumors.Keys && r.0.paths.Keys <= b.paths.Keys + {source}
  {
    if TakesNotify(c, b, source, seqno, path, checks) {
      if source in b.paths {
        StoreKeeps(c, b, source, seqno, path, from);
      } else {
        OpenKeeps(c, b, source, now);
        StoreKeeps(c, OpenPath(c, b, source, now), source, seqno, path, from);
      }
    }
  }

  lemma OpenKeeps(c: Config, b: Book, source: Key, now: int)
    requires Kept(c, b) && source !in b.paths && c.xform(source) in b.rumors
    ensures var b' := OpenPath(c, b, source, now);
            && Kept(c, b') && b'.rumors.Keys == b.rumors.Keys && b'.paths.Keys == b.paths.Keys + {source}
  {
  }

  lemma StoreKeeps(c: Config, b: Book, source: Key, seqno: nat, path: seq<Port>, from: seq<Port>)
    requires Kept(c, b) && source in b.paths
    ensures var r := StorePath(b, source, seqno, path, from);
            && Kept(c, r.0) && SentAlongStored(r.0, r.1, from)
            && r.0.rumors == b.rumors && r.0.paths.Keys == b.paths.Keys
  {
  }

  lemma LookupKeeps(c: Config, b: Book, dest: Key, from: seq<Port>, now: int)
    requires Kept(c, b)
    ensures var r := SendLookup(c, b, dest, from, now);
            && Kept(c, r.0) && SentAlongStored(r.0, r.1, from)
            && r.0.rumors.Keys == b.rumors.Keys && r.0.paths.Keys <= b.paths.Keys + {c.self}
  {
    NotifyKeeps(c, b, c.self, c.stamp(now), from, true, from, now);
  }

  /** After `_rumorSendLookup` the slot exists: the panic in `_handleTraffic` is unreachable. */
  lemma RumorExists(c: Config, b: Book, dest: Key, from: seq<Port>, now: int)
    requires Kept(c, b)
    ensures var r := RumorSendLookup(c, b, dest, from, now);
            && Kept(c, r.0) && SentAlongStored(r.0, r.1, from)
            && c.xform(dest) in r.0.rumors && r.0.paths.Keys <= b.paths.Keys + {c.self}
  {
    if !Throttled(c, b, dest, now) { LookupKeeps(c, StartRumor(c, b, dest, now), dest, from, now); }
  }

  lemma TrafficKeeps(c: Config, b: Book, tr: Packet, from: seq<Port>, now: int)
    requires Kept(c, b)
    ensures var r := HandleTraffic(c, b, tr, from, now); Kept(c, r.0) && SentAlongStored(r.0, r.1, from)
  {
    if tr.dest !in b.paths { RumorExists(c, b, tr.dest, from, now); }
  }

  /** Every event keeps the invariant, and every packet sent goes where it belongs. */
  lemma EveryEventKeeps(c: Config, b: Book, e: Event, from: seq<Port>, now: int)
    requires Kept(c, b)
    ensures var r := Handle(c, b, e, from, now); Kept(c, r.0) && SentAlongStored(r.0, r.1, from)
  {
    match e
    case Traffic(tr) => TrafficKeeps(c, b, tr, from, now);
    case Lookup(dest) => RumorExists(c, b, dest, from, now);
    case Notify(source, seqno, path, checks) => NotifyKeeps(c, b, source, seqno, path, checks, from, now);
    case Broken(dest) =>
      if dest in b.paths {
        LookupKeeps(c, b.(paths := b.paths[dest := b.paths[dest].(broken := true)]), dest, from, now);
      }
    case PathTimeout(key, timer) =>
    case RumorTimeout(slot, timer) =>
  }

  /** A packet for a destination without a stored path is always kept in its
      slot.  The destination's path is nevertheless stored by then if and only
      if the packet is for ourselves and a lookup went out: we answered that
      lookup before the packet was put in its slot, so the answer did not
      release it. */
  lemma OwnPacketMissesAnswer(c: Config, b: Book, tr: Packet, from: seq<Port>, now: int)
    requires Kept(c, b) && tr.dest !in b.paths
    ensures var b' := HandleTraffic(c, b, tr, from, now).0;
            && c.xform(tr.dest) in b'.rumors && b'.rumors[c.xform(tr.dest)].held == Some(tr)
            && (tr.dest in b'.paths <==> tr.dest == c.self && !Throttled(c, b, tr.dest, now))
  {
    RumorExists(c, b, tr.dest, from, now);
  }

  // ------------------------------------------------------- what becomes of packets

  /** The same packet, whatever its routing header. */
  predicate SamePacket(out: Packet, tr: Packet)
  {
    out.source == tr.source && out.dest == tr.dest && out.watermark == tr.watermark && out.payload == tr.payload
  }

  /** No packet is lost on the spot: it goes on, or it waits in its slot. */
  lemma GoesOnOrWaits(c: Config, b: Book, tr: Packet, from: seq<Port>, now: int)
    requires Kept(c, b)
    ensures var r := HandleTraffic(c, b, tr, from, now);
            || (exists out :: Forward(out) in r.1 && SamePacket(out, tr))
            || (c.xform(tr.dest) in r.0.rumors && r.0.rumors[c.xform(tr.dest)].held == Some(tr))
  {
    if tr.dest in b.paths {
      KnownLeavesAtOnce(c, b, tr, from, now);
      assert Forward(tr.(path := b.paths[tr.dest].path, from := from)) in HandleTraffic(c, b, tr, from, now).1;
    } else {
      OwnPacketMissesAnswer(c, b, tr, from, now);
    }
  }

  /** With a stored path it leaves along it at once, and a copy is kept for the next news. */
  lemma KnownLeavesAtOnce(c: Config, b: Book, tr: Packet, from: seq<Port>, now: int)
    requires Kept(c, b) && tr.dest in b.paths
    ensures var r, out := HandleTraffic(c, b, tr, from, now), tr.(path := b.paths[tr.dest].path, from := from);
            && r.1 == [Forward(out)] && SamePacket(out, tr)
            && tr.dest in r.0.paths && r.0.paths[tr.dest] == b.paths[tr.dest].(held := Some(out))
            && r.0.paths - {tr.dest} == b.paths - {tr.dest} && r.0.rumors == b.rumors && r.0.timers == b.timers
  {
  }

  /** The last packet sent is sent again along every newer path. */
  lemma SentAgainOnNews(c: Config, b: Book, tr: Packet, from: seq<Port>, now: int, seqno: nat, path: seq<Port>,
                        from': seq<Port>, now': int)
    requires Kept(c, b) && tr.dest in b.paths && seqno > b.paths[tr.dest].seqno && path != b.paths[tr.dest].path
    ensures var b' := HandleTraffic(c, b, tr, from, now).0;
            && Kept(c, b')
            && HandleNotify(c, b', tr.dest, seqno, path, true, from', now').1 ==
               [Forward(tr.(path := path, from := from'))]
  {
    TrafficKeeps(c, b, tr, from, now);
  }

  /** News that does not check, is not newer, or repeats the stored path changes
      nothing, so a path once reported broken stays so until it differs. */
  lemma NoNewsChangesNothing(c: Config, b: Book, source: Key, seqno: nat, path: seq<Port>, checks: bool,
                             from: seq<Port>, now: int)
    requires Kept(c, b)
    requires !checks || (source in b.paths && (seqno <= b.paths[source].seqno || path == b.paths[source].path)) ||
             (source !in b.paths && c.xform(source) !in b.rumors)
    ensures HandleNotify(c, b, source, seqno, path, checks, from, now) == (b, [])
  {
  }

  /** A path reported broken is marked so, unless we answered ourselves at once, and
      asked for again unless that was done recently. */
  lemma BrokenAsksAgain(c: Config, b: Book, dest: Key, from: seq<Port>, now: int)
    requires Kept(c, b)
    ensures var r := HandleBroken(c, b, dest, from, now);
            && (Ask(dest, from) in r.1 <==> dest in b.paths && now - b.paths[dest].reqTime >= c.throttle)
            && (dest in b.paths && dest != c.self ==>
                  dest in r.0.paths && r.0.paths[dest] == b.paths[dest].(broken := true))
  {
  }

  /** Valid news, first and asked for or newer and different, is what is stored, and
      takes back a mark of being broken. */
  lemma NewsIsStored(c: Config, b: Book, source: Key, seqno: nat, path: seq<Port>, from: seq<Port>, now: int)
    requires Kept(c, b)
    requires if source in b.paths then seqno > b.paths[source].seqno && path != b.paths[source].path
             else c.xform(source) in b.rumors
    ensures var r := HandleNotify(c, b, source, seqno, path, true, from, now);
            && source in r.0.paths && r.0.paths[source].path == path && r.0.paths[source].seqno == seqno
            && !r.0.paths[source].broken && r.0.paths - {source} == b.paths - {source}
  {
  }

  /** A path just found is not asked for again at once, even if it is reported broken. */
  lemma FreshPathIsNotAsked(c: Config, b: Book, source: Key, seqno: nat, path: seq<Port>, from: seq<Port>, now: int,
                            from': seq<Port>, now': int)
    requires Kept(c, b) && source !in b.paths && c.xform(source) in b.rumors && now' - now < c.throttle
    ensures var b' := HandleNotify(c, b, source, seqno, path, true, from, now).0;
            && Kept(c, b') && source in b'.paths
            && HandleBroken(c, b', source, from', now') ==
               (b'.(paths := b'.paths[source := b'.paths[source].(broken := true)]), [])
  {
    NotifyKeeps(c, b, source, seqno, path, true, from, now);
  }

  /** Timers of entries that are gone remove nothing. */
  lemma StaleTimersRemoveNothing(c: Config, b: Book, key: Key, timer: nat, from: seq<Port>, now: int)
    requires Kept(c, b)
    ensures (key in b.paths ==> b.paths[key].timer != timer) ==>
              Handle(c, b, PathTimeout(key, timer), from, now) == (b, [])
    ensures (key in b.rumors ==> b.rumors[key].timer != timer) ==>
              Handle(c, b, RumorTimeout(key, timer), from, now) == (b, [])
    ensures key in b.paths && b.paths[key].timer == timer ==>
              Handle(c, b, PathTimeout(key, timer), from, now).0.paths == b.paths - {key}
    ensures key in b.rumors && b.rumors[key].timer == timer ==>
              Handle(c, b, RumorTimeout(key, timer), from, now).0.rumors == b.rumors - {key}
  {
  }

  /** From `p` to `q`, one entry: the sequence number never falls, and the path
      changes only for strictly newer news; a mark of being broken goes only with
      such a change. */
  ghost predicate Newer(p: PathInfo, q: PathInfo)
  {
    && q.timer == p.timer && q.seqno >= p.seqno
    && (q.seqno == p.seqno ==> q.path == p.path && (p.broken ==> q.broken))
  }

  ghost predicate AllNewer(b: Book, b': Book)
  {
    forall k :: k in b.paths ==> k in b'.paths && Newer(b.paths[k], b'.paths[k])
  }

  lemma NotifyIsNewer(c: Config, b: Book, source: Key, seqno: nat, path: seq<Port>, checks: bool, from: seq<Port>,
                      now: int)
    requires Kept(c, b)
    ensures AllNewer(b, HandleNotify(c, b, source, seqno, path, checks, from, now).0)
  {
  }

  lemma LookupIsNewer(c: Config, b: Book, dest: Key, from: seq<Port>, now: int)
    requires Kept(c, b)
    ensures AllNewer(b, SendLookup(c, b, dest, from, now).0)
  {
    NotifyIsNewer(c, b, c.self, c.stamp(now), from, true, from, now);
  }

  lemma RumorIsNewer(c: Config, b: Book, dest: Key, from: seq<Port>, now: int)
    requires Kept(c, b)
    ensures AllNewer(b, RumorSendLookup(c, b, dest, from, now).0)
  {
    if !Throttled(c, b, dest, now) { LookupIsNewer(c, StartRumor(c, b, dest, now), dest, from, now); }
  }

  /** While entries live they only get newer. */
  lemma PathsOnlyGetNewer(c: Config, b: Book, e: Event, from: seq<Port>, now: int)
    requires Kept(c, b)
    ensures var b' := Handle(c, b, e, from, now).0;
            forall k :: k in b.paths ==>
              (k in b'.paths && Newer(b.paths[k], b'.paths[k])) || e == PathTimeout(k, b.paths[k].timer)
  {
    match e
    case Traffic(tr) => if tr.dest !in b.paths { RumorIsNewer(c, b, tr.dest, from, now); }
    case Lookup(dest) => RumorIsNewer(c, b, dest, from, now);
    case Notify(source, seqno, path, checks) => NotifyIsNewer(c, b, source, seqno, path, checks, from, now);
    case Broken(dest) =>
      if dest in b.paths {
        var b1 := b.(paths := b.paths[dest := b.paths[dest].(broken := true)]);
        LookupIsNewer(c, b1, dest, from, now);
      }
    case PathTimeout(key, timer) =>
    case RumorTimeout(slot, timer) =>
  }

  // ------------------------------------------------------------------------ runs

  datatype Moment = Moment(event: Event, from: seq<Port>, now: int)

  /** The book after a run of events, from one that keeps packets where they belong. */
  ghost function After(c: Config, b: Book, ms: seq<Moment>): (b': Book)
    requires Kept(c, b)
    ensures Kept(c, b')
    decreases |ms|
  {
    if ms == [] then b
    else
      EveryEventKeeps(c, b, ms[0].event, ms[0].from, ms[0].now);
      After(c, Handle(c, b, ms[0].event, ms[0].from, ms[0].now).0, ms[1..])
  }

  /** A lookup was sent for the slot at the given time or later. */
  predicate AskedSince(b: Book, x: Key, since: int) { x in b.rumors && b.rumors[x].sendTime >= since }

  lemma NotifyKeepsAsked(c: Config, b: Book, x: Key, since: int, source: Key, seqno: nat, path: seq<Port>,
                         checks: bool, from: seq<Port>, now: int)
    requires Kept(c, b) && AskedSince(b, x, since)
    ensures AskedSince(HandleNotify(c, b, source, seqno, path, checks, from, now).0, x, since)
  {
  }

  lemma LookupKeepsAsked(c: Config, b: Book, x: Key, since: int, dest: Key, from: seq<Port>, now: int)
    requires Kept(c, b) && AskedSince(b, x, since)
    ensures AskedSince(SendLookup(c, b, dest, from, now).0, x, since)
  {
    NotifyKeepsAsked(c, b, x, since, c.self, c.stamp(now), from, true, from, now);
  }

  /** Unless it was throttled, a lookup is noted in the slot. */
  lemma RumorIsAsked(c: Config, b: Book, x: Key, since: int, dest: Key, from: seq<Port>, now: int)
    requires Kept(c, b) && now >= since
    requires AskedSince(b, x, since) || (x == c.xform(dest) && !Throttled(c, b, dest, now))
    ensures AskedSince(RumorSendLookup(c, b, dest, from, now).0, x, since)
  {
    if !Throttled(c, b, dest, now) { LookupKeepsAsked(c, StartRumor(c, b, dest, now), x, since, dest, from, now); }
  }

  lemma StepKeepsAsked(c: Config, b: Book, x: Key, since: int, e: Event, from: seq<Port>, now: int)
    requires Kept(c, b) && AskedSince(b, x, since) && now >= since && !(e.RumorTimeout? && e.slot == x)
    ensures AskedSince(Handle(c, b, e, from, now).0, x, since)
  {
    match e
    case Traffic(tr) => if tr.dest !in b.paths { RumorIsAsked(c, b, x, since, tr.dest, from, now); }
    case Lookup(dest) => RumorIsAsked(c, b, x, since, dest, from, now);
    case Notify(source, seqno, path, checks) =>
      NotifyKeepsAsked(c, b, x, since, source, seqno, path, checks, from, now);
    case Broken(dest) =>
      if dest in b.paths {
        LookupKeepsAsked(c, b.(paths := b.paths[dest := b.paths[dest].(broken := true)]), x, since, dest, from, now);
      }
    case PathTimeout(_, _) =>
    case RumorTimeout(_, _) =>
  }

  lemma {:induction false} RunKeepsAsked(c: Config, b: Book, x: Key, since: int, ms: seq<Moment>)
    requires Kept(c, b) && AskedSince(b, x, since)
    requires forall m :: m in ms ==> m.now >= since && !(m.event.RumorTimeout? && m.event.slot == x)
    ensures AskedSince(After(c, b, ms), x, since)
    decreases |ms|
  {
    if ms != [] {
      var m := ms[0];
      assert m in ms && forall k :: k in ms[1..] ==> k in ms;
      StepKeepsAsked(c, b, x, since, m.event, m.from, m.now);
      EveryEventKeeps(c, b, m.event, m.from, m.now);
      RunKeepsAsked(c, Handle(c, b, m.event, m.from, m.now).0, x, since, ms[1..]);
    }
  }

  /** No flooding: after a lookup went out, whatever happens but the time-out of its
      slot, none goes out for any destination of the slot within the interval. */
  lemma AskedOncePerInterval(c: Config, b: Book, dest: Key, from: seq<Port>, now: int, ms: seq<Moment>, other: Key,
                             from': seq<Port>, now': int)
    requires Kept(c, b) && !Throttled(c, b, dest, now) && c.xform(other) == c.xform(dest) && now' - now < c.throttle
    requires forall m :: m in ms ==> m.now >= now && !(m.event.RumorTimeout? && m.event.slot == c.xform(dest))
    ensures var b1 := RumorSendLookup(c, b, dest, from, now).0;
            Kept(c, b1) && RumorSendLookup(c, After(c, b1, ms), other, from', now') == (After(c, b1, ms), [])
  {
    RumorExists(c, b, dest, from, now);
    RumorIsAsked(c, b, c.xform(dest), now, dest, from, now);
    RunKeepsAsked(c, RumorSendLookup(c, b, dest, from, now).0, c.xform(dest), now, ms);
  }

  /** `tr` waits in the slot of its destination. */
  ghost predicate Waits(c: Config, b: Book, tr: Packet)
  {
    c.xform(tr.dest) in b.rumors && b.rumors[c.xform(tr.dest)].held == Some(tr) && tr.dest !in b.paths
  }

  /** Events that leave a waiting packet alone: not its slot's time-out, no other
      packet for the slot, no valid news of its destination. */
  ghost predicate Undisturbed(c: Config, tr: Packet, e: Event)
  {
    match e
    case Traffic(other) => c.xform(other.dest) != c.xform(tr.dest)
    case Notify(source, _, _, checks) => source != tr.dest || !checks
    case RumorTimeout(slot, _) => slot != c.xform(tr.dest)
    case Lookup(_) => true
    case Broken(_) => true
    case PathTimeout(_, _) => true
  }

  lemma NotifyLeaves(c: Config, b: Book, tr: Packet, source: Key, seqno: nat, path: seq<Port>, checks: bool,
                     from: seq<Port>, now: int)
    requires Kept(c, b) && Waits(c, b, tr) && (source != tr.dest || !checks)
    ensures Waits(c, HandleNotify(c, b, source, seqno, path, checks, from, now).0, tr)
  {
  }

  lemma LookupLeaves(c: Config, b: Book, tr: Packet, dest: Key, from: seq<Port>, now: int)
    requires Kept(c, b) && Waits(c, b, tr) && tr.dest != c.self
    ensures Waits(c, SendLookup(c, b, dest, from, now).0, tr)
  {
    NotifyLeaves(c, b, tr, c.self, c.stamp(now), from, true, from, now);
  }

  lemma RumorLeaves(c: Config, b: Book, tr: Packet, dest: Key, from: seq<Port>, now: int)
    requires Kept(c, b) && Waits(c, b, tr) && tr.dest != c.self
    ensures Waits(c, RumorSendLookup(c, b, dest, from, now).0, tr)
  {
    if !Throttled(c, b, dest, now) { LookupLeaves(c, StartRumor(c, b, dest, now), tr, dest, from, now); }
  }

  lemma WaitsOn(c: Config, b: Book, tr: Packet, e: Event, from: seq<Port>, now: int)
    requires Kept(c, b) && Waits(c, b, tr) && tr.dest != c.self && Undisturbed(c, tr, e)
    ensures Waits(c, Handle(c, b, e, from, now).0, tr)
  {
    match e
    case Traffic(other) => if other.dest !in b.paths { RumorLeaves(c, b, tr, other.dest, from, now); }
    case Lookup(dest) => RumorLeaves(c, b, tr, dest, from, now);
    case Notify(source, seqno, path, checks) => NotifyLeaves(c, b, tr, source, seqno, path, checks, from, now);
    case Broken(dest) =>
      if dest in b.paths {
        LookupLeaves(c, b.(paths := b.paths[dest := b.paths[dest].(broken := true)]), tr, dest, from, now);
      }
    case PathTimeout(key, timer) =>
    case RumorTimeout(slot, timer) =>
  }

  lemma {:induction false} WaitsAlongRun(c: Config, b: Book, tr: Packet, ms: seq<Moment>)
    requires Kept(c, b) && Waits(c, b, tr) && tr.dest != c.self
    requires forall j :: 0 <= j < |ms| ==> Undisturbed(c, tr, ms[j].event)
    ensures Waits(c, After(c, b, ms), tr)
    decreases |ms|
  {
    if ms != [] {
      var m := ms[0];
      EveryEventKeeps(c, b, m.event, m.from, m.now);
      WaitsOn(c, b, tr, m.event, m.from, m.now);
      WaitsAlongRun(c, Handle(c, b, m.event, m.from, m.now).0, tr, ms[1..]);
    }
  }

  /** The first answer sends the waiting packet along the answered path, and
      ends the wait. */
  lemma AnswerReleases(c: Config, b: Book, tr: Packet, seqno: nat, path: seq<Port>, from: seq<Port>, now: int)
    requires Kept(c, b) && Waits(c, b, tr)
    ensures var r := HandleNotify(c, b, tr.dest, seqno, path, true, from, now);
            && r.1 == [Forward(tr.(path := path, from := from))]
            && c.xform(tr.dest) in r.0.rumors && r.0.rumors[c.xform(tr.dest)].held.None?
            && tr.dest in r.0.paths && r.0.paths[tr.dest].path == path && r.0.paths[tr.dest].seqno == seqno
  {
  }

  /** A packet for another node without a stored path waits, and a lookup goes
      out unless one just did. */
  lemma UnknownDestinationWaits(c: Config, b: Book, tr: Packet, from: seq<Port>, now: int)
    requires Kept(c, b) && tr.dest !in b.paths && tr.dest != c.self
    ensures var r := HandleTraffic(c, b, tr, from, now);
            Kept(c, r.0) && Waits(c, r.0, tr) && (Ask(tr.dest, from) in r.1 <==> !Throttled(c, b, tr.dest, now))
  {
    TrafficKeeps(c, b, tr, from, now);
    OwnPacketMissesAnswer(c, b, tr, from, now);
  }

  /** It waits through any undisturbed run, and the first answer sends it along
      the answered path. */
  lemma WaitsThenLeaves(c: Config, b: Book, tr: Packet, ms: seq<Moment>, seqno: nat, path: seq<Port>, from: seq<Port>,
                        now: int)
    requires Kept(c, b) && Waits(c, b, tr) && tr.dest != c.self
    requires forall j :: 0 <= j < |ms| ==> Undisturbed(c, tr, ms[j].event)
    ensures HandleNotify(c, After(c, b, ms), tr.dest, seqno, path, true, from, now).1 ==
              [Forward(tr.(path := path, from := from))]
  {
    WaitsAlongRun(c, b, tr, ms);
    AnswerReleases(c, After(c, b, ms), tr, seqno, path, from, now);
  }
}

/** The pathfinder, which keeps its maps in place. */
module Pathfinder {
  import opened Basics
  import opened Keys
  import opened Tables
  import opened RouterTypes
  import opened Greedy
  import Router
  import opened PathBook

  datatype Fate = PassedOn(link: Link, watermark: nat) | Dropped | Handled

  class Pathfinder {
    const config: Config
    var paths: map<Key, PathInfo>
    var rumors: map<Key, Rumor>
    var timers: nat

    ghost function State(): (b: Book)
      reads this
    {
      Book(paths, rumors, timers)
    }

    ghost predicate Valid()
      reads this
    {
      Kept(config, State())
    }

    constructor (config: Config)
      ensures Valid() && this.config == config && paths == map[] && rumors == map[]
    {
      this.config := config;
      paths, rumors, timers := map[], map[], 0;
    }

    /** `_handleTraffic`: the panic for a missing rumor is unreachable. */
    method HandleTraffic(tr: Packet, from: seq<Port>, now: int) returns (acts: seq<Action>)
      requires Valid()
      modifies this
      ensures Valid() && (State(), acts) == PathBook.HandleTraffic(config, old(State()), tr, from, now)
    {
      TrafficKeeps(config, State(), tr, from, now);
      if tr.dest in paths {
        acts := SendKnown(tr, from);
      } else {
        RumorExists(config, State(), tr.dest, from, now);
        acts := RumorSendLookup(tr.dest, from, now);
        var x := config.xform(tr.dest);
        if x in rumors {
          rumors := rumors[x := rumors[x].(held := Some(tr))];
        } else {
          assert false;
        }
      }
    }

    method SendKnown(tr: Packet, from: seq<Port>) returns (acts: seq<Action>)
      requires tr.dest in paths
      modifies this`paths
      ensures (State(), acts) == PathBook.SendKnown(old(State()), tr, from)
    {
      var info := paths[tr.dest];
      var out := tr.(path := info.path, from := from);
      paths := paths[tr.dest := info.(held := Some(out))];
      acts := [Forward(out)];
    }

    /** `_rumorSendLookup` */
    method RumorSendLookup(dest: Key, from: seq<Port>, now: int) returns (acts: seq<Action>)
      requires Valid()
      modifies this
      ensures Valid() && (State(), acts) == PathBook.RumorSendLookup(config, old(State()), dest, from, now)
    {
      RumorExists(config, State(), dest, from, now);
      var x := config.xform(dest);
      if x in rumors && now - rumors[x].sendTime < config.throttle {
        return [];
      }
      ghost var started := StartRumor(config, State(), dest, now);
      if x in rumors {
        rumors := rumors[x := rumors[x].(sendTime := now)];
      } else {
        rumors := rumors[x := Rumor(None, now, timers)];
        timers := timers + 1;
      }
      assert State() == started;
      acts := SendLookup(dest, from, now);
    }

    /** `_sendLookup` */
    method SendLookup(dest: Key, from: seq<Port>, now: int) returns (acts: seq<Action>)
      requires Valid()
      modifies this
      ensures Valid() && (State(), acts) == PathBook.SendLookup(config, old(State()), dest, from, now)
    {
      if dest in paths && now - paths[dest].reqTime < config.throttle {
        return [];
      }
      acts := [Ask(dest, from)];
      if config.xform(dest) == config.xform(config.self) {
        var more := HandleNotify(config.self, config.stamp(now), from, true, from, now);
        acts := acts + more;
      }
    }

    /** `_handleNotify`, where the router knows no next hop and we are addressed. */
    method HandleNotify(source: Key, seqno: nat, path: seq<Port>, checks: bool, from: seq<Port>, now: int)
      returns (acts: seq<Action>)
      requires Valid()
      modifies this
      ensures Valid()
      ensures (State(), acts) == PathBook.HandleNotify(config, old(State()), source, seqno, path, checks, from, now)
    {
      NotifyKeeps(config, State(), source, seqno, path, checks, from, now);
      if source in paths {
        if seqno <= paths[source].seqno || path == paths[source].path || !checks {
          return [];
        }
      } else if config.xform(source) !in rumors || !checks {
        return [];
      } else {
        OpenEntry(source, now);
      }
      acts := StoreEntry(source, seqno, path, from);
    }

    /** A notify or broken report that arrives: passed on if the router knows a next
        hop, dropped if it is for somebody else, and otherwise handled. */
    method Arrives(r: Router.Router, path: seq<Port>, watermark: nat, cost: Link -> nat, addressee: Key, e: Event,
                   from: seq<Port>, now: int)
      returns (fate: Fate, acts: seq<Action>)
      requires Valid() && r.Valid() && (e.Notify? || e.Broken?)
      modifies this, r`cache
      ensures Valid() && r.Valid()
      ensures fate.PassedOn? <==> !Stops(r.AsView(), path, watermark)
      ensures fate.PassedOn? ==> Forwards(r.AsView(), path, watermark, fate.link.key, fate.watermark)
      ensures fate.Handled? <==> Stops(r.AsView(), path, watermark) && addressee == config.self
      ensures (State(), acts) ==
                if fate.Handled? then Handle(config, old(State()), e, from, now) else (old(State()), [])
    {
      acts := [];
      var next, wm;
      ghost var cands;
      next, wm, cands := r.Lookup(path, watermark, cost);
      if next.Some? {
        fate := PassedOn(next.value, wm);
      } else if addressee != config.self {
        fate := Dropped;
      } else {
        fate := Handled;
        acts := HandleEvent(e, from, now);
      }
    }

    method HandleEvent(e: Event, from: seq<Port>, now: int) returns (acts: seq<Action>)
      requires Valid() && (e.Notify? || e.Broken?)
      modifies this
      ensures Valid() && (State(), acts) == Handle(config, old(State()), e, from, now)
    {
      match e
      case Notify(source, seqno, path, checks) =>
        acts := HandleNotify(source, seqno, path, checks, from, now);
      case Broken(dest) =>
        acts := HandleBroken(dest, from, now);
    }

    method OpenEntry(source: Key, now: int)
      requires config.xform(source) in rumors
      modifies this
      ensures State() == OpenPath(config, old(State()), source, now)
    {
      var x := config.xform(source);
      var rumor := rumors[x];
      var info := PathInfo([], 0, now, timers, None, false);
      timers := timers + 1;
      if rumor.held.Some? && rumor.held.value.dest == source {
        info := info.(held := rumor.held);
        rumors := rumors[x := rumor.(held := None)];
      }
      paths := paths[source := info];
    }

    method StoreEntry(source: Key, seqno: nat, path: seq<Port>, from: seq<Port>) returns (acts: seq<Action>)
      requires source in paths && (paths[source].held.Some? ==> paths[source].held.value.dest == source)
      modifies this`paths
      ensures (State(), acts) == StorePath(old(State()), source, seqno, path, from)
    {
      var info := paths[source];
      paths := paths[source := info.(path := path, seqno := seqno, broken := false, held := None)];
      acts := [];
      if info.held.Some? {
        acts := SendKnown(info.held.value, from);
      }
    }

    /** `_handleBroken`, where we are addressed. */
    method HandleBroken(dest: Key, from: seq<Port>, now: int) returns (acts: seq<Action>)
      requires Valid()
      modifies this
      ensures Valid() && (State(), acts) == PathBook.HandleBroken(config, old(State()), dest, from, now)
    {
      acts := [];
      if dest in paths {
        paths := paths[dest := paths[dest].(broken := true)];
        acts := SendLookup(dest, from, now);
      }
    }

    /** The timers; one that was replaced removes nothing. */
    method Timeout(e: Event)
      requires Valid() && (e.PathTimeout? || e.RumorTimeout?)
      modifies this`paths, this`rumors
      ensures Valid() && State() == Handle(config, old(State()), e, [], 0).0
    {
      match e
      case PathTimeout(key, timer) =>
        if key in paths && paths[key].timer == timer {
          paths := paths - {key};
        }
      case RumorTimeout(slot, timer) =>
        if slot in rumors && rumors[slot].timer == timer {
          rumors := rumors - {slot};
        }
    }
  }
}
