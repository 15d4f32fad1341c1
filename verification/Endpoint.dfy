/**
 The media endpoint facing one phone (internal/media/endpoint.go): where to send (NAT latching), which packets to
 accept, and which SRTP keys are installed.
 */
module Endpoint {
  import opened Basics
  import opened Netip
  import opened SdpCrypto
  import opened SdpParse
  import PortPool

  datatype AddrPort = AddrPort(addr: Addr, port: int)

  /** Where a path's packets go, and whether that came from real traffic. */
  datatype Path = Path(peer: Option<AddrPort>, latched: bool)

  /** Installed keys; serial tells one set of SRTP contexts from the next. */
  datatype LegCrypto = LegCrypto(inKey: Crypto, outKey: Crypto, serial: nat)

  /** signal is the signalling address, when known. */
  datatype Allowed = Allowed(signal: Option<Addr>, sdp: Addr) {
    predicate Admits(a: Addr) { signal == Some(a) || sdp == a }
  }

  datatype State = State(
    allowed: Option<Allowed>, sdpPort: int, rtp: Path, rtcp: Path, crypto: Option<LegCrypto>, built: nat,
    packetsIn: nat, dropped: nat, badCrypto: nat)

  const FRESH := State(None, 0, Path(None, false), Path(None, false), None, 0, 0, 0, 0)

  /** A packet from the network: its source, its path, and whether the current key decrypts it. */
  datatype Packet = Packet(src: AddrPort, isRtcp: bool, decrypts: bool)

  function Port16(p: int): int { p % 65536 }

  /** The best guess before packets arrive: a local SDP address is replaced by the signalling address. */
  function GuessAddr(i: Info, signal: Option<Addr>): Addr {
    if signal.Some? && i.addr != signal.value && i.addr.IsLocal() then signal.value else i.addr
  }

  predicate IsHoldSdp(i: Info) { i.addr.IsUnspecified() || i.port == 0 }

  function Remoted(s: State, i: Info, signal: Option<Addr>): State {
    if IsHoldSdp(i) then s
    else
      var t := s.(allowed := Some(Allowed(signal, i.addr)));
      if i.port == s.sdpPort && s.rtp.latched then t
      else
        var ip := GuessAddr(i, signal);
        t.(sdpPort := i.port,
           rtp := Path(Some(AddrPort(ip, Port16(i.port))), false),
           rtcp := Path(Some(AddrPort(ip, Port16(i.rtcpPort))), false))
  }

  predicate Accepts(s: State, p: Packet) {
    s.allowed.Some? && s.allowed.value.Admits(p.src.addr) && (s.crypto.Some? ==> p.decrypts)
  }

  function Received(s: State, p: Packet): State {
    if s.allowed.None? || !s.allowed.value.Admits(p.src.addr) then s.(dropped := s.dropped + 1)
    else if s.crypto.Some? && !p.decrypts then s.(badCrypto := s.badCrypto + 1)
    else
      var t := s.(packetsIn := s.packetsIn + 1);
      if p.isRtcp then t.(rtcp := Path(Some(p.src), true)) else t.(rtp := Path(Some(p.src), true))
  }

  /** Keys in both directions or none; the contexts are rebuilt only when a suite or key changes. */
  function Keyed(s: State, inKey: Option<Crypto>, outKey: Option<Crypto>): State {
    match (inKey, outKey)
    case (None, None) => s.(crypto := None)
    case (Some(i), Some(o)) =>
      if s.crypto.Some? && s.crypto.value.inKey.Equal(i) && s.crypto.value.outKey.Equal(o) then s
      else s.(crypto := Some(LegCrypto(i, o, s.built)), built := s.built + 1)
    case _ => s
  }

  class Leg {
    const port: nat
    const pool: PortPool.Pool
    var allowed: Option<Allowed>
    var sdpPort: int
    var rtp: Path
    var rtcp: Path
    var crypto: Option<LegCrypto>
    var built: nat
    var packetsIn: nat
    var dropped: nat
    var badCrypto: nat
    var closed: bool

    ghost function View(): State
      reads this
    {
      State(allowed, sdpPort, rtp, rtcp, crypto, built, packetsIn, dropped, badCrypto)
    }

    constructor (pool: PortPool.Pool, port: nat)
      ensures View() == FRESH && this.port == port && this.pool == pool && !closed
    {
      this.pool, this.port := pool, port;
      allowed, sdpPort, rtp, rtcp := None, 0, Path(None, false), Path(None, false);
      crypto, built, packetsIn, dropped, badCrypto, closed := None, 0, 0, 0, 0, false;
    }

    method SetRemote(i: Info, signal: Option<Addr>)
      modifies this
      ensures View() == Remoted(old(View()), i, signal) && closed == old(closed)
    {
      if i.addr.IsUnspecified() || i.port == 0 { return; }
      allowed := Some(Allowed(signal, i.addr));
      if i.port == sdpPort && rtp.latched { return; }
      sdpPort := i.port;
      var ip := i.addr;
      if signal.Some? && ip != signal.value && ip.IsLocal() { ip := signal.value; }
      rtp := Path(Some(AddrPort(ip, Port16(i.port))), false);
      rtcp := Path(Some(AddrPort(ip, Port16(i.rtcpPort))), false);
    }

    /** One turn of the read loop; the handler gets the packet exactly when it is accepted. */
    method Receive(p: Packet) returns (delivered: bool)
      modifies this
      ensures View() == Received(old(View()), p) && closed == old(closed)
      ensures delivered == Accepts(old(View()), p)
    {
      if allowed.None? || !allowed.value.Admits(p.src.addr) {
        dropped := dropped + 1;
        return false;
      }
      if crypto.Some? && !p.decrypts {
        badCrypto := badCrypto + 1;
        return false;
      }
      var path := if p.isRtcp then rtcp else rtp;
      if path.peer != Some(p.src) || !path.latched {
        path := Path(Some(p.src), true);
      }
      if p.isRtcp { rtcp := path; } else { rtp := path; }
      packetsIn := packetsIn + 1;
      return true;
    }

    method SetCrypto(inKey: Option<Crypto>, outKey: Option<Crypto>) returns (ok: bool)
      requires inKey.Some? ==> inKey.value.WellFormed()
      requires outKey.Some? ==> outKey.value.WellFormed()
      modifies this
      ensures View() == Keyed(old(View()), inKey, outKey) && closed == old(closed)
      ensures ok == (inKey.Some? == outKey.Some?)
    {
      if inKey.None? || outKey.None? {
        if inKey.Some? || outKey.Some? { return false; }
        crypto := None;
        return true;
      }
      if crypto.Some? && crypto.value.inKey.Equal(inKey.value) && crypto.value.outKey.Equal(outKey.value) {
        return true;
      }
      crypto := Some(LegCrypto(inKey.value, outKey.value, built));
      built := built + 1;
      return true;
    }

    /** Safe to call more than once: the pair goes back once. */
    method Close()
      requires pool as object != this
      modifies this, pool
      ensures closed && View() == old(View())
      ensures pool.free == if old(closed) then old(pool.free) else old(pool.free) + [port]
    {
      if !closed {
        closed := true;
        pool.Release(port);
      }
    }
  }

  // ---- latching as a function of the history ----

  /** What happens to an endpoint: SDP from its phone, keys on or off, packets. */
  datatype Event =
    | Remote(i: Info, signal: Option<Addr>)
    | Keys(inKey: Option<Crypto>, outKey: Option<Crypto>)
    | Arrived(p: Packet)

  function Step(s: State, e: Event): State {
    match e
    case Remote(i, signal) => Remoted(s, i, signal)
    case Keys(inKey, outKey) => Keyed(s, inKey, outKey)
    case Arrived(p) => Received(s, p)
  }

  function Run(es: seq<Event>): State {
    if es == [] then FRESH else Step(Run(es[..|es| - 1]), es[|es| - 1])
  }

  // The history says it without a state, by the place of the last event that matters.

  /** SDP that is not a hold names the allowed sources; a well-formed key change turns encryption on or off. */
  predicate Names(e: Event) { e.Remote? && e.i.addr != Addr(0, 0, 0, 0) && e.i.port != 0 }

  predicate SetsKeys(e: Event) { e.Keys? && e.inKey.Some? == e.outKey.Some? }

  ghost predicate LastNaming(es: seq<Event>, k: nat) {
    k < |es| && Names(es[k]) && forall j | k < j < |es| :: !Names(es[j])
  }

  ghost predicate LastKeying(es: seq<Event>, k: nat) {
    k < |es| && SetsKeys(es[k]) && forall j | k < j < |es| :: !SetsKeys(es[j])
  }

  /** A packet is accepted after some events: from a source the last SDP names, and decrypting if keys are on. */
  ghost predicate AcceptedAfter(es: seq<Event>, p: Packet) {
    && (exists k: nat :: LastNaming(es, k) && (es[k].signal == Some(p.src.addr) || es[k].i.addr == p.src.addr))
    && ((exists k: nat :: LastKeying(es, k) && es[k].inKey.Some?) ==> p.decrypts)
  }

  /** The k-th event is an accepted packet of a path. */
  ghost predicate HeardAt(es: seq<Event>, k: nat, isRtcp: bool)
    requires k < |es|
  {
    es[k].Arrived? && es[k].p.isRtcp == isRtcp && AcceptedAfter(es[..k], es[k].p)
  }

  /** SDP moves the endpoint, unless it is a hold, or repeats the port of the last that did with audio heard since. */
  ghost predicate Retargets(before: seq<Event>, i: Info)
    decreases |before|, 1
  {
    && i.addr != Addr(0, 0, 0, 0) && i.port != 0
    && !exists t: nat, h: nat ::
          && t < h < |before| && LastRetarget(before, t) && before[t].Remote? && before[t].i.port == i.port
          && HeardAt(before, h, false)
  }

  ghost predicate RetargetAt(es: seq<Event>, k: nat)
    requires k < |es|
    decreases k, 2
  {
    es[k].Remote? && Retargets(es[..k], es[k].i)
  }

  ghost predicate LastRetarget(es: seq<Event>, t: nat)
    decreases |es|, 0
  {
    t < |es| && RetargetAt(es, t) && forall j | t < j < |es| :: !RetargetAt(es, j)
  }

  /** The k-th event sets the peer of a path: an accepted packet to its source, a retarget to its guess. */
  ghost predicate SetsPeer(es: seq<Event>, k: nat, isRtcp: bool)
    requires k < |es|
  {
    HeardAt(es, k, isRtcp) || RetargetAt(es, k)
  }

  /** 10.0.0.0/8, 172.16.0.0/12, 192.168.0.0/16, 127.0.0.0/8 and 169.254.0.0/16. */
  predicate NotRoutable(ip: Addr) {
    || ip.a == 10 || (ip.a == 172 && ip.b in {16, 17, 18, 19, 20, 21, 22, 23, 24, 25, 26, 27, 28, 29, 30, 31})
    || (ip.a == 192 && ip.b == 168) || ip.a == 127 || (ip.a == 169 && ip.b == 254)
  }

  /** A packet's source; else the address in the SDP, or for one not routable the signalling address when known. */
  function PeerFrom(e: Event, isRtcp: bool): AddrPort
    requires !e.Keys?
  {
    if e.Arrived? then e.p.src
    else
      var guess := if e.signal.Some? && NotRoutable(e.i.addr) then e.signal.value else e.i.addr;
      AddrPort(guess, (if isRtcp then e.i.rtcpPort else e.i.port) % 65536)
  }

  ghost predicate LastPeer(es: seq<Event>, k: nat, isRtcp: bool) {
    k < |es| && SetsPeer(es, k, isRtcp) && forall j | k < j < |es| :: !SetsPeer(es, j, isRtcp)
  }

  ghost predicate AllowedTraced(es: seq<Event>, allowed: Option<Allowed>) {
    match allowed
    case Some(a) => exists k: nat :: LastNaming(es, k) && a == Allowed(es[k].signal, es[k].i.addr)
    case None => forall k | 0 <= k < |es| :: !Names(es[k])
  }

  ghost predicate KeysTraced(es: seq<Event>, on: bool) {
    on <==> exists k: nat :: LastKeying(es, k) && es[k].inKey.Some?
  }

  ghost predicate PeerTraced(es: seq<Event>, isRtcp: bool, peer: Option<AddrPort>) {
    match peer
    case Some(x) => exists k: nat :: LastPeer(es, k, isRtcp) && PeerFrom(es[k], isRtcp) == x
    case None => forall k | 0 <= k < |es| :: !SetsPeer(es, k, isRtcp)
  }

  ghost predicate HeardSince(es: seq<Event>, t: nat) {
    exists h: nat :: t < h < |es| && HeardAt(es, h, false)
  }

  ghost predicate TargetTraced(es: seq<Event>, sdpPort: int, latched: bool) {
    || (sdpPort == 0 && !latched && forall t | 0 <= t < |es| :: !Names(es[t]))
    || (exists t: nat ::
        LastRetarget(es, t) && es[t].Remote? && es[t].i.port == sdpPort && latched == HeardSince(es, t))
  }

  /** A path is latched when a packet was accepted on it and no retarget came after. */
  ghost predicate LatchTraced(es: seq<Event>, isRtcp: bool, latched: bool) {
    latched <==> exists h: nat :: LatchedAt(es, h, isRtcp)
  }

  ghost predicate LatchedAt(es: seq<Event>, h: nat, isRtcp: bool) {
    h < |es| && HeardAt(es, h, isRtcp) && forall j | h < j < |es| :: !RetargetAt(es, j)
  }

  /** The indexes of the packets, and of those accepted. */
  ghost function Packets(es: seq<Event>): set<nat> { set k: nat | k < |es| && es[k].Arrived? }

  ghost function Heard(es: seq<Event>): set<nat> {
    set k: nat | k < |es| && es[k].Arrived? && AcceptedAfter(es[..k], es[k].p)
  }

  ghost predicate Traced(es: seq<Event>, s: State) {
    && AllowedTraced(es, s.allowed) && KeysTraced(es, s.crypto.Some?)
    && TargetTraced(es, s.sdpPort, s.rtp.latched)
    && PeerTraced(es, false, s.rtp.peer) && PeerTraced(es, true, s.rtcp.peer)
    && LatchTraced(es, false, s.rtp.latched) && LatchTraced(es, true, s.rtcp.latched)
    && s.packetsIn == |Heard(es)| && s.packetsIn + s.dropped + s.badCrypto == |Packets(es)|
  }

  // One more event: what was said of the earlier ones stands.

  lemma {:induction false} EarlierStand(es: seq<Event>, e: Event, k: nat)
    requires k < |es|
    ensures (es + [e])[k] == es[k] && RetargetAt(es + [e], k) == RetargetAt(es, k)
    ensures forall isRtcp :: HeardAt(es + [e], k, isRtcp) == HeardAt(es, k, isRtcp)
  {
    assert (es + [e])[..k] == es[..k];
  }

  lemma LastOne(es: seq<Event>, e: Event)
    ensures (es + [e])[|es|] == e && (es + [e])[..|es|] == es
  {}

  lemma {:induction false} AllowedStep(es: seq<Event>, e: Event, allowed: Option<Allowed>)
    requires AllowedTraced(es, allowed)
    ensures AllowedTraced(es + [e], if Names(e) then Some(Allowed(e.signal, e.i.addr)) else allowed)
  {
    var after := es + [e];
    assert forall j | 0 <= j < |es| :: after[j] == es[j];
    if Names(e) {
      assert LastNaming(after, |es|);
    } else if allowed.Some? {
      var k: nat :| LastNaming(es, k) && allowed.value == Allowed(es[k].signal, es[k].i.addr);
      assert LastNaming(after, k);
    }
  }

  lemma {:induction false} OneNaming(es: seq<Event>, k: nat, l: nat)
    requires LastNaming(es, k) && LastNaming(es, l)
    ensures k == l
  {}

  lemma {:induction false} OneKeying(es: seq<Event>, k: nat, l: nat)
    requires LastKeying(es, k) && LastKeying(es, l)
    ensures k == l
  {}

  lemma {:induction false} OneRetarget(es: seq<Event>, k: nat, l: nat)
    requires LastRetarget(es, k) && LastRetarget(es, l)
    ensures k == l
  {
    hide RetargetAt;
  }

  lemma {:induction false} KeysStep(es: seq<Event>, e: Event, on: bool)
    requires KeysTraced(es, on)
    ensures KeysTraced(es + [e], if SetsKeys(e) then e.inKey.Some? else on)
  {
    var after := es + [e];
    assert forall j | 0 <= j < |es| :: after[j] == es[j];
    if SetsKeys(e) {
      assert LastKeying(after, |es|);
      forall k: nat | LastKeying(after, k) ensures k == |es| { OneKeying(after, k, |es|); }
    } else {
      forall k: nat ensures LastKeying(after, k) == LastKeying(es, k) {
        if k < |es| { assert after[k] == es[k]; }
      }
    }
  }

  /** The state accepts a packet exactly when the history does. */
  lemma {:induction false} AcceptedTraced(es: seq<Event>, s: State, p: Packet)
    requires AllowedTraced(es, s.allowed) && KeysTraced(es, s.crypto.Some?)
    ensures Accepts(s, p) == AcceptedAfter(es, p)
  {
    if s.allowed.Some? {
      var k: nat :| LastNaming(es, k) && s.allowed.value == Allowed(es[k].signal, es[k].i.addr);
      forall l: nat | LastNaming(es, l) ensures l == k { OneNaming(es, k, l); }
    }
  }

  /** And SDP moves it exactly when the history says so. */
  lemma {:induction false} RetargetsTraced(es: seq<Event>, s: State, i: Info)
    requires TargetTraced(es, s.sdpPort, s.rtp.latched)
    ensures Retargets(es, i) <==> !IsHoldSdp(i) && !(i.port == s.sdpPort && s.rtp.latched)
  {
    hide RetargetAt, HeardAt, LastRetarget;
    if exists t: nat :: LastRetarget(es, t) {
      var t: nat :| LastRetarget(es, t);
      forall u: nat | LastRetarget(es, u) ensures u == t { OneRetarget(es, t, u); }
    }
    if !IsHoldSdp(i) && forall t | 0 <= t < |es| :: !Names(es[t]) {
      NothingNamed(es);
    }
  }

  lemma RetargetNames(es: seq<Event>, k: nat)
    requires k < |es| && RetargetAt(es, k)
    ensures Names(es[k])
  {
    RetargetIsNoHold(es[..k], es[k].i);
  }

  lemma RetargetIsNoHold(before: seq<Event>, i: Info)
    requires Retargets(before, i)
    ensures !IsHoldSdp(i)
  {}

  lemma {:induction false} NothingNamed(es: seq<Event>)
    requires forall t | 0 <= t < |es| :: !Names(es[t])
    ensures forall t: nat :: !LastRetarget(es, t)
  {
    forall t: nat ensures !LastRetarget(es, t) {
      if LastRetarget(es, t) { RetargetNames(es, t); }
    }
  }

  /** What the last event of es + [e] did, by the state before it. */
  lemma {:induction false} LastEvent(es: seq<Event>, s: State, e: Event)
    requires Traced(es, s)
    ensures var after, n := es + [e], |es|;
            && (e.Arrived? ==> Accepts(s, e.p) == AcceptedAfter(es, e.p))
            && (forall isRtcp :: HeardAt(after, n, isRtcp) == (e.Arrived? && e.p.isRtcp == isRtcp && Accepts(s, e.p)))
            && RetargetAt(after, n) == (Names(e) && !(e.i.port == s.sdpPort && s.rtp.latched))
  {
    LastOne(es, e);
    if e.Arrived? { AcceptedTraced(es, s, e.p); }
    if e.Remote? { RetargetsTraced(es, s, e.i); }
  }

  lemma {:induction false} AllStand(es: seq<Event>, e: Event)
    ensures var after := es + [e];
            forall k: nat | k < |es| :: after[k] == es[k] && RetargetAt(after, k) == RetargetAt(es, k)
    ensures var after := es + [e];
            forall k: nat, isRtcp | k < |es| :: HeardAt(after, k, isRtcp) == HeardAt(es, k, isRtcp)
  {
    forall k: nat | k < |es| ensures (es + [e])[k] == es[k] && RetargetAt(es + [e], k) == RetargetAt(es, k) {
      EarlierStand(es, e, k);
    }
    forall k: nat, isRtcp | k < |es| ensures HeardAt(es + [e], k, isRtcp) == HeardAt(es, k, isRtcp) {
      EarlierStand(es, e, k);
    }
  }

  lemma {:induction false} TargetStep(es: seq<Event>, s: State, e: Event)
    requires Traced(es, s)
    ensures var t := Step(s, e); TargetTraced(es + [e], t.sdpPort, t.rtp.latched)
  {
    hide HeardAt, RetargetAt, KeysTraced, PeerTraced, LatchTraced, AllowedTraced, Packets, Heard, AcceptedAfter;
    var after, n, d := es + [e], |es|, Step(s, e);
    LastEvent(es, s, e);
    AllStand(es, e);
    if RetargetAt(after, n) {
      assert LastRetarget(after, n) && !HeardSince(after, n);
    } else if s.sdpPort == 0 && !s.rtp.latched && forall t | 0 <= t < |es| :: !Names(es[t]) {
      NothingAccepted(es, s);
      assert forall t | 0 <= t < |after| :: !Names(after[t]);
    } else {
      var t: nat :| LastRetarget(es, t) && es[t].Remote? && es[t].i.port == s.sdpPort
          && s.rtp.latched == HeardSince(es, t);
      assert LastRetarget(after, t);
      if HeardSince(es, t) {
        var h: nat :| t < h < |es| && HeardAt(es, h, false);
        assert HeardAt(after, h, false);
      }
      assert HeardSince(after, t) == (HeardSince(es, t) || HeardAt(after, n, false));
    }
  }

  lemma {:induction false} NothingAccepted(es: seq<Event>, s: State)
    requires AllowedTraced(es, s.allowed) && forall t | 0 <= t < |es| :: !Names(es[t])
    ensures s.allowed == None
  {}

  lemma PeerEvents(es: seq<Event>, k: nat, isRtcp: bool)
    requires k < |es| && SetsPeer(es, k, isRtcp)
    ensures !es[k].Keys?
  {}

  lemma {:induction false} PeerStep(es: seq<Event>, s: State, e: Event, isRtcp: bool)
    requires Traced(es, s)
    ensures var t := Step(s, e); PeerTraced(es + [e], isRtcp, if isRtcp then t.rtcp.peer else t.rtp.peer)
  {
    hide HeardAt, RetargetAt, KeysTraced, TargetTraced, LatchTraced, AllowedTraced, Packets, Heard, AcceptedAfter;
    var after, n := es + [e], |es|;
    var was := if isRtcp then s.rtcp.peer else s.rtp.peer;
    LastEvent(es, s, e);
    AllStand(es, e);
    forall k: nat | k < n ensures SetsPeer(after, k, isRtcp) == SetsPeer(es, k, isRtcp) && after[k] == es[k] {}
    forall k: nat | k < n && SetsPeer(es, k, isRtcp) ensures !es[k].Keys? { PeerEvents(es, k, isRtcp); }
    if SetsPeer(after, n, isRtcp) {
      assert LastPeer(after, n, isRtcp);
    } else if was.Some? {
      var k: nat :| LastPeer(es, k, isRtcp) && PeerFrom(es[k], isRtcp) == was.value;
      assert LastPeer(after, k, isRtcp);
    }
  }

  lemma {:induction false} LatchStep(es: seq<Event>, s: State, e: Event, isRtcp: bool)
    requires Traced(es, s)
    ensures var t := Step(s, e); LatchTraced(es + [e], isRtcp, if isRtcp then t.rtcp.latched else t.rtp.latched)
  {
    hide HeardAt, RetargetAt, KeysTraced, TargetTraced, AllowedTraced, PeerTraced, Packets, Heard, AcceptedAfter;
    var after, n := es + [e], |es|;
    LastEvent(es, s, e);
    AllStand(es, e);
    forall h: nat ensures LatchedAt(after, h, isRtcp) <==>
                          !RetargetAt(after, n) && (LatchedAt(es, h, isRtcp) || (h == n && HeardAt(after, n, isRtcp)))
    {}
    if HeardAt(after, n, isRtcp) { assert !RetargetAt(after, n) && LatchedAt(after, n, isRtcp); }
  }

  lemma {:induction false} PacketsMore(es: seq<Event>, e: Event)
    ensures |Packets(es + [e])| == |Packets(es)| + if e.Arrived? then 1 else 0
  {
    var after, n := es + [e], |es|;
    LastOne(es, e);
    forall k: nat | k < n ensures after[k] == es[k] {}
    assert Packets(after) == Packets(es) + if e.Arrived? then {n} else {};
  }

  lemma {:induction false} HeardMore(es: seq<Event>, e: Event)
    ensures |Heard(es + [e])| == |Heard(es)| + if e.Arrived? && AcceptedAfter(es, e.p) then 1 else 0
  {
    hide AcceptedAfter;
    var after, n := es + [e], |es|;
    LastOne(es, e);
    forall k ensures k in Heard(after) <==> k in Heard(es) || (k == n && e.Arrived? && AcceptedAfter(es, e.p)) {
      if 0 <= k < n { HeardEarlier(es, e, k); }
    }
    assert Heard(after) == Heard(es) + if e.Arrived? && AcceptedAfter(es, e.p) then {n} else {};
  }

  lemma HeardEarlier(es: seq<Event>, e: Event, k: nat)
    requires k < |es|
    ensures k in Heard(es + [e]) <==> k in Heard(es)
  {
    hide AcceptedAfter;
    assert (es + [e])[k] == es[k] && (es + [e])[..k] == es[..k];
  }

  lemma {:induction false} CountStep(es: seq<Event>, s: State, e: Event)
    requires Traced(es, s)
    ensures var t := Step(s, e);
            t.packetsIn == |Heard(es + [e])| && t.packetsIn + t.dropped + t.badCrypto == |Packets(es + [e])|
  {
    hide KeysTraced, TargetTraced, AllowedTraced, PeerTraced, LatchTraced, RetargetAt, AcceptedAfter, Heard, Packets;
    LastEvent(es, s, e);
    PacketsMore(es, e);
    HeardMore(es, e);
  }

  /**
   After every history the endpoint's state is what the events say by their places: the allowed sources are those the
   last SDP that is not a hold names; the peer of a path was set by the last event that was an accepted packet on it,
   to its source, or a retarget, to its guess; audio is latched if it was accepted since the last retarget; and every
   packet read is counted once, as accepted or in one of the other counters.
   */
  lemma {:induction false} LatchingTrace(es: seq<Event>)
    ensures Traced(es, Run(es))
  {
    hide AllowedTraced, KeysTraced, TargetTraced, PeerTraced, LatchTraced, Packets, Heard;
    if es == [] {
      NothingTraced();
    } else {
      var before, e := es[..|es| - 1], es[|es| - 1];
      LatchingTrace(before);
      assert before + [e] == es;
      var s := Run(before);
      AllowedStep(before, e, s.allowed);
      KeysStep(before, e, s.crypto.Some?);
      TargetStep(before, s, e);
      PeerStep(before, s, e, false);
      PeerStep(before, s, e, true);
      LatchStep(before, s, e, false);
      LatchStep(before, s, e, true);
      CountStep(before, s, e);
    }
  }

  lemma NothingTraced()
    ensures Traced([], FRESH)
  {
    assert Packets([]) == {} && Heard([]) == {};
  }

  /** Both peers after a retarget: the SDP's address, or the signalling one for an address that cannot be reached. */
  lemma RetargetPeers(es: seq<Event>, i: Info, signal: Option<Addr>)
    requires Retargets(es, i) && 0 <= i.port < 65536 && 0 <= i.rtcpPort < 65536
    ensures var s := Run(es + [Remote(i, signal)]);
            var ip := if signal.Some? && NotRoutable(i.addr) then signal.value else i.addr;
            && s.rtp.peer == Some(AddrPort(ip, i.port)) && s.rtcp.peer == Some(AddrPort(ip, i.rtcpPort))
            && !s.rtp.latched && !s.rtcp.latched && s.allowed == Some(Allowed(signal, i.addr)) && s.sdpPort == i.port
  {
    hide Retargets, Traced, TargetTraced, Step;
    var b := Run(es);
    LatchingTrace(es);
    TracedTarget(es, b);
    RetargetsTraced(es, b, i);
    RunLast(es, Remote(i, signal));
    RemotedMoves(b, i, signal);
  }

  lemma TracedTarget(es: seq<Event>, s: State)
    requires Traced(es, s)
    ensures TargetTraced(es, s.sdpPort, s.rtp.latched)
  {
    hide AllowedTraced, KeysTraced, TargetTraced, PeerTraced, LatchTraced, Packets, Heard;
  }

  lemma RunLast(es: seq<Event>, e: Event)
    ensures Run(es + [e]) == Step(Run(es), e)
  {
    hide Step;
    assert (es + [e])[..|es|] == es;
  }

  lemma RemotedMoves(s: State, i: Info, signal: Option<Addr>)
    requires !IsHoldSdp(i) && !(i.port == s.sdpPort && s.rtp.latched)
    requires 0 <= i.port < 65536 && 0 <= i.rtcpPort < 65536
    ensures var t := Step(s, Remote(i, signal));
            var ip := if signal.Some? && NotRoutable(i.addr) then signal.value else i.addr;
            && t.rtp.peer == Some(AddrPort(ip, i.port)) && t.rtcp.peer == Some(AddrPort(ip, i.rtcpPort))
            && !t.rtp.latched && !t.rtcp.latched && t.allowed == Some(Allowed(signal, i.addr)) && t.sdpPort == i.port
  {}

  /** A refused packet changes its own counter only, and a hold SDP changes nothing. */
  lemma RefusedChangesNothing(s: State, p: Packet, i: Info, signal: Option<Addr>)
    ensures !Accepts(s, p) ==>
              var t := Received(s, p);
              t.(dropped := s.dropped, badCrypto := s.badCrypto) == s
                  && t.dropped + t.badCrypto == s.dropped + s.badCrypto + 1
    ensures i.addr == Addr(0, 0, 0, 0) || i.port == 0 ==> Remoted(s, i, signal) == s
    ensures i.port == s.sdpPort && s.rtp.latched ==>
        Remoted(s, i, signal).rtp == s.rtp && Remoted(s, i, signal).rtcp == s.rtcp
  {}

  /**
   What SDP does to where media goes, said of the states before and after: a hold does nothing; else its address and the
   signalling one are allowed, and unless audio was latched with the same port both paths start anew from the guess.
   */
  ghost predicate Aimed(s: State, t: State, i: Info, signal: Option<Addr>) {
    if i.addr == Addr(0, 0, 0, 0) || i.port == 0 then
      t.allowed == s.allowed && t.rtp == s.rtp && t.rtcp == s.rtcp && t.sdpPort == s.sdpPort
    else
      && t.allowed == Some(Allowed(signal, i.addr)) && t.sdpPort == i.port
      && if i.port == s.sdpPort && s.rtp.latched then t.rtp == s.rtp && t.rtcp == s.rtcp
         else
           var guess := if signal.Some? && NotRoutable(i.addr) then signal.value else i.addr;
           t.rtp == Path(Some(AddrPort(guess, i.port % 65536)), false)
           && t.rtcp == Path(Some(AddrPort(guess, i.rtcpPort % 65536)), false)
  }

  lemma RemotedAims(s: State, i: Info, signal: Option<Addr>, inKey: Option<Crypto>, outKey: Option<Crypto>)
    ensures Aimed(s, Remoted(s, i, signal), i, signal)
    ensures Aimed(s, Keyed(Remoted(s, i, signal), inKey, outKey), i, signal)
  {}

  /** Installed keys are those given, by suite and key; the contexts are built anew exactly if one of these changes. */
  lemma KeyedIff(s: State, inKey: Crypto, outKey: Crypto)
    ensures var t := Keyed(s, Some(inKey), Some(outKey));
            && t.crypto.Some?
            && t.crypto.value.inKey.suite == inKey.suite && t.crypto.value.inKey.key == inKey.key
            && t.crypto.value.outKey.suite == outKey.suite && t.crypto.value.outKey.key == outKey.key
            && (t == s <==> s.crypto.Some?
                            && s.crypto.value.inKey.suite == inKey.suite && s.crypto.value.inKey.key == inKey.key
                            && s.crypto.value.outKey.suite == outKey.suite && s.crypto.value.outKey.key == outKey.key)
            && (t != s ==> t.crypto.value.serial == s.built && t.built == s.built + 1)
    ensures Keyed(s, None, None) == s.(crypto := None)
  {}
}
