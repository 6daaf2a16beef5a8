/** Codecs of the routing messages (ironwood/network/router.go, pathfinder.go,
    traffic.go).  Decoding a message undoes encoding it, and the size computed
    beforehand is the encoded length. */
module Messages {
  import opened Basics
  import opened Keys
  import opened Wire

  const SIG_SIZE: nat := 64

  predicate IsKey(b: Bytes) { |b| == KEY_SIZE }
  predicate IsSig(b: Bytes) { |b| == SIG_SIZE }
  predicate Is64(u: nat) { u < U64 }
  predicate GoodPath(p: Path) { Fits(p) && ZeroFree(p) }

  lemma UintThen(u: nat, rest: Bytes)
    requires Is64(u)
    ensures ChopUint(EncodeUint(u) + rest) == Some((u, rest))
  {
    UintRoundTrip(u, rest);
  }

  lemma PathThen(p: Path, rest: Bytes)
    requires GoodPath(p)
    ensures ChopPath(EncodePath(p) + rest) == Some((p, rest))
  {
    PathRoundTrip(p, rest);
  }

  // --------------------------------------------------------------- routerSigReq

  datatype SigReq = SigReq(seqno: nat, nonce: nat) {
    predicate Valid() { Is64(seqno) && Is64(nonce) }
    function Encode(): (b: Bytes) { EncodeUint(seqno) + EncodeUint(nonce) }
    function Size(): (n: nat) { SizeUint(seqno) + SizeUint(nonce) }
  }

  function ChopSigReq(data: Bytes): (r: Option<(SigReq, Bytes)>)
  {
    var (seqno, d1) :- ChopUint(data);
    var (nonce, d2) :- ChopUint(d1);
    Some((SigReq(seqno, nonce), d2))
  }

  lemma SigReqRoundTrip(m: SigReq, rest: Bytes)
    requires m.Valid()
    ensures ChopSigReq(m.Encode() + rest) == Some((m, rest)) && |m.Encode()| == m.Size()
  {
    assert m.Encode() + rest == EncodeUint(m.seqno) + (EncodeUint(m.nonce) + rest);
    UintThen(m.seqno, EncodeUint(m.nonce) + rest);
    UintThen(m.nonce, rest);
  }

  /** `decode`: chop and require that nothing is left. */
  function Whole<T>(r: Option<(T, Bytes)>): (o: Option<T>)
  {
    if r.Some? && r.value.1 == [] then Some(r.value.0) else None
  }

  // --------------------------------------------------------------- routerSigRes

  datatype SigRes = SigRes(req: SigReq, port: nat, psig: Bytes) {
    predicate Valid() { req.Valid() && Is64(port) && IsSig(psig) }
    function Encode(): (b: Bytes) { req.Encode() + EncodeUint(port) + psig }
    function Size(): (n: nat) { req.Size() + SizeUint(port) + |psig| }
  }

  function ChopSigRes(data: Bytes): (r: Option<(SigRes, Bytes)>)
  {
    var (req, d1) :- ChopSigReq(data);
    var (port, d2) :- ChopUint(d1);
    var (psig, d3) :- ChopSlice(SIG_SIZE, d2);
    Some((SigRes(req, port, psig), d3))
  }

  lemma SigResRoundTrip(m: SigRes, rest: Bytes)
    requires m.Valid()
    ensures ChopSigRes(m.Encode() + rest) == Some((m, rest)) && |m.Encode()| == m.Size()
  {
    assert m.Encode() + rest == m.req.Encode() + (EncodeUint(m.port) + (m.psig + rest));
    SigReqRoundTrip(m.req, EncodeUint(m.port) + (m.psig + rest));
    UintThen(m.port, m.psig + rest);
    SliceRoundTrip(m.psig, rest);
  }

  /** The bytes that both ends of a tree link sign. */
  function SigBytes(node: Bytes, parent: Bytes, res: SigRes): (b: Bytes)
  {
    node + parent + res.req.Encode() + EncodeUint(res.port)
  }

  /** Equal signing bytes come from equal claims: nobody's signature can be
      reused for another node, parent, sequence number, nonce or port. */
  lemma SigBytesInjective(n: Bytes, p: Bytes, r: SigRes, n': Bytes, p': Bytes, r': SigRes)
    requires IsKey(n) && IsKey(p) && IsKey(n') && IsKey(p') && r.Valid() && r'.Valid()
    requires SigBytes(n, p, r) == SigBytes(n', p', r')
    ensures n == n' && p == p' && r.req == r'.req && r.port == r'.port
  {
    var t, t' := r.req.Encode() + EncodeUint(r.port), r'.req.Encode() + EncodeUint(r'.port);
    assert SigBytes(n, p, r) == n + (p + t) && SigBytes(n', p', r') == n' + (p' + t');
    SliceRoundTrip(n, p + t);
    SliceRoundTrip(n', p' + t');
    SliceRoundTrip(p, t);
    SliceRoundTrip(p', t');
    SigReqRoundTrip(r.req, EncodeUint(r.port));
    SigReqRoundTrip(r'.req, EncodeUint(r'.port));
    UintThen(r.port, []);
    UintThen(r'.port, []);
    assert EncodeUint(r.port) + [] == EncodeUint(r.port) && EncodeUint(r'.port) + [] == EncodeUint(r'.port);
  }

  // ------------------------------------------------------------- routerAnnounce

  datatype Announce = Announce(key: Bytes, parent: Bytes, res: SigRes, sig: Bytes) {
    predicate Valid() { IsKey(key) && IsKey(parent) && res.Valid() && IsSig(sig) }
    function Encode(): (b: Bytes) { key + parent + res.Encode() + sig }
    function Size(): (n: nat) { |key| + |parent| + res.Size() + |sig| }
  }

  function ChopAnnounce(data: Bytes): (r: Option<(Announce, Bytes)>)
  {
    var (key, d1) :- ChopSlice(KEY_SIZE, data);
    var (parent, d2) :- ChopSlice(KEY_SIZE, d1);
    var (res, d3) :- ChopSigRes(d2);
    var (sig, d4) :- ChopSlice(SIG_SIZE, d3);
    Some((Announce(key, parent, res, sig), d4))
  }

  lemma AnnounceParts(m: Announce)
    requires m.Valid()
    ensures ChopSlice(KEY_SIZE, m.Encode()) == Some((m.key, m.parent + (m.res.Encode() + m.sig)))
    ensures ChopSlice(KEY_SIZE, m.parent + (m.res.Encode() + m.sig)) == Some((m.parent, m.res.Encode() + m.sig))
    ensures |m.Encode()| == |m.key| + |m.parent| + |m.res.Encode()| + |m.sig|
  {
    assert m.Encode() == m.key + (m.parent + (m.res.Encode() + m.sig));
    SliceRoundTrip(m.key, m.parent + (m.res.Encode() + m.sig));
    SliceRoundTrip(m.parent, m.res.Encode() + m.sig);
  }

  lemma AnnounceRoundTrip(m: Announce)
    requires m.Valid()
    ensures Whole(ChopAnnounce(m.Encode())) == Some(m) && |m.Encode()| == m.Size()
  {
    AnnounceParts(m);
    SigResRoundTrip(m.res, m.sig);
    SliceRoundTrip(m.sig, []);
    assert m.sig + [] == m.sig;
  }

  // ----------------------------------------------------------------- pathLookup

  datatype Lookup = Lookup(source: Bytes, dest: Bytes, from: Path) {
    predicate Valid() { IsKey(source) && IsKey(dest) && GoodPath(from) }
    function Encode(): (b: Bytes) { source + dest + EncodePath(from) }
    function Size(): (n: nat) { |source| + |dest| + SizePath(from) }
  }

  function ChopLookup(data: Bytes): (r: Option<(Lookup, Bytes)>)
  {
    var (source, d1) :- ChopSlice(KEY_SIZE, data);
    var (dest, d2) :- ChopSlice(KEY_SIZE, d1);
    var (from, d3) :- ChopPath(d2);
    Some((Lookup(source, dest, from), d3))
  }

  lemma LookupRoundTrip(m: Lookup)
    requires m.Valid()
    ensures Whole(ChopLookup(m.Encode())) == Some(m) && |m.Encode()| == m.Size()
  {
    assert m.Encode() == m.source + (m.dest + (EncodePath(m.from) + []));
    SliceRoundTrip(m.source, m.dest + (EncodePath(m.from) + []));
    SliceRoundTrip(m.dest, EncodePath(m.from) + []);
    PathThen(m.from, []);
  }

  // ------------------------------------------------------ pathNotifyInfo, pathNotify

  datatype NotifyInfo = NotifyInfo(seqno: nat, path: Path, sig: Bytes) {
    predicate Valid() { Is64(seqno) && GoodPath(path) && IsSig(sig) }
    function Encode(): (b: Bytes) { EncodeUint(seqno) + EncodePath(path) + sig }
    function Size(): (n: nat) { SizeUint(seqno) + SizePath(path) + |sig| }
  }

  function ChopNotifyInfo(data: Bytes): (r: Option<(NotifyInfo, Bytes)>)
  {
    var (seqno, d1) :- ChopUint(data);
    var (path, d2) :- ChopPath(d1);
    var (sig, d3) :- ChopSlice(SIG_SIZE, d2);
    Some((NotifyInfo(seqno, path, sig), d3))
  }

  lemma NotifyInfoRoundTrip(m: NotifyInfo, rest: Bytes)
    requires m.Valid()
    ensures ChopNotifyInfo(m.Encode() + rest) == Some((m, rest)) && |m.Encode()| == m.Size()
  {
    assert m.Encode() + rest == EncodeUint(m.seqno) + (EncodePath(m.path) + (m.sig + rest));
    UintThen(m.seqno, EncodePath(m.path) + (m.sig + rest));
    PathThen(m.path, m.sig + rest);
    SliceRoundTrip(m.sig, rest);
  }

  datatype Notify = Notify(path: Path, watermark: nat, source: Bytes, dest: Bytes, info: NotifyInfo) {
    predicate Valid() { GoodPath(path) && Is64(watermark) && IsKey(source) && IsKey(dest) && info.Valid() }
    function Encode(): (b: Bytes) { EncodePath(path) + EncodeUint(watermark) + source + dest + info.Encode() }
    function Size(): (n: nat) { SizePath(path) + SizeUint(watermark) + |source| + |dest| + info.Size() }
  }

  function ChopNotify(data: Bytes): (r: Option<(Notify, Bytes)>)
  {
    var (path, d1) :- ChopPath(data);
    var (watermark, d2) :- ChopUint(d1);
    var (source, d3) :- ChopSlice(KEY_SIZE, d2);
    var (dest, d4) :- ChopSlice(KEY_SIZE, d3);
    var (info, d5) :- ChopNotifyInfo(d4);
    Some((Notify(path, watermark, source, dest, info), d5))
  }

  lemma NotifyRoundTrip(m: Notify)
    requires m.Valid()
    ensures Whole(ChopNotify(m.Encode())) == Some(m) && |m.Encode()| == m.Size()
  {
    var t := m.info.Encode() + [];
    assert m.Encode() == EncodePath(m.path) + (EncodeUint(m.watermark) + (m.source + (m.dest + t)));
    PathThen(m.path, EncodeUint(m.watermark) + (m.source + (m.dest + t)));
    UintThen(m.watermark, m.source + (m.dest + t));
    SliceRoundTrip(m.source, m.dest + t);
    SliceRoundTrip(m.dest, t);
    NotifyInfoRoundTrip(m.info, []);
  }

  // ----------------------------------------------------------------- pathBroken

  datatype Broken = Broken(path: Path, watermark: nat, source: Bytes, dest: Bytes) {
    predicate Valid() { GoodPath(path) && Is64(watermark) && IsKey(source) && IsKey(dest) }
    function Encode(): (b: Bytes) { EncodePath(path) + EncodeUint(watermark) + source + dest }
    function Size(): (n: nat) { SizePath(path) + SizeUint(watermark) + |source| + |dest| }
  }

  function ChopBroken(data: Bytes): (r: Option<(Broken, Bytes)>)
  {
    var (path, d1) :- ChopPath(data);
    var (watermark, d2) :- ChopUint(d1);
    var (source, d3) :- ChopSlice(KEY_SIZE, d2);
    var (dest, d4) :- ChopSlice(KEY_SIZE, d3);
    Some((Broken(path, watermark, source, dest), d4))
  }

  lemma BrokenRoundTrip(m: Broken)
    requires m.Valid()
    ensures Whole(ChopBroken(m.Encode())) == Some(m) && |m.Encode()| == m.Size()
  {
    assert m.Encode() == EncodePath(m.path) + (EncodeUint(m.watermark) + (m.source + (m.dest + [])));
    PathThen(m.path, EncodeUint(m.watermark) + (m.source + (m.dest + [])));
    UintThen(m.watermark, m.source + (m.dest + []));
    SliceRoundTrip(m.source, m.dest + []);
    SliceRoundTrip(m.dest, []);
  }

  // -------------------------------------------------------------------- traffic

  datatype Traffic = Traffic(path: Path, from: Path, source: Bytes, dest: Bytes, watermark: nat, payload: Bytes) {
    predicate Valid() { GoodPath(path) && GoodPath(from) && IsKey(source) && IsKey(dest) && Is64(watermark) }
    function Encode(): (b: Bytes)
    {
      EncodePath(path) + EncodePath(from) + source + dest + EncodeUint(watermark) + payload
    }
    function Size(): (n: nat) { SizePath(path) + SizePath(from) + |source| + |dest| + SizeUint(watermark) + |payload| }
  }

  /** The payload is whatever is left. */
  function DecodeTraffic(data: Bytes): (r: Option<Traffic>)
  {
    var (path, d1) :- ChopPath(data);
    var (from, d2) :- ChopPath(d1);
    var (source, d3) :- ChopSlice(KEY_SIZE, d2);
    var (dest, d4) :- ChopSlice(KEY_SIZE, d3);
    var (watermark, d5) :- ChopUint(d4);
    Some(Traffic(path, from, source, dest, watermark, d5))
  }

  lemma TrafficRoundTrip(m: Traffic)
    requires m.Valid()
    ensures DecodeTraffic(m.Encode()) == Some(m) && |m.Encode()| == m.Size()
  {
    var t := EncodeUint(m.watermark) + m.payload;
    assert m.Encode() == EncodePath(m.path) + (EncodePath(m.from) + (m.source + (m.dest + t)));
    PathThen(m.path, EncodePath(m.from) + (m.source + (m.dest + t)));
    PathThen(m.from, m.source + (m.dest + t));
    SliceRoundTrip(m.source, m.dest + t);
    SliceRoundTrip(m.dest, t);
    UintThen(m.watermark, m.payload);
  }

  /** Every packet of a queue has positive size, as the queue needs. */
  lemma SizesArePositive(t: Traffic, l: Lookup, n: Notify, b: Broken)
    requires t.Valid() && l.Valid() && n.Valid() && b.Valid()
    ensures t.Size() > 0 && l.Size() > 0 && n.Size() > 0 && b.Size() > 0
  {
  }
}
