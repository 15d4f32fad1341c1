/**
 Rooms, their participants' endpoints and their audio together: how many participants a tick can find with a frame
 (Join, Leave, receive and tick, internal/conference/conference.go, over internal/media/pool.go).
 */
module RoomAudio {
  import opened Basics
  import opened Audio
  import Fifo
  import Mixer
  import P = PortPool
  import R = Rooms

  /** A participant: its endpoint, whether Join has started it, a packet between the socket and receive, its buffer. */
  datatype Phone = Phone(ep: nat, started: bool, reading: bool, fifo: seq<Sample>)

  /** stranded: participants whose endpoint was closed while they were listed with audio. */
  datatype World = World(rooms: R.World, ports: P.Ports, phones: map<nat, Phone>, stranded: set<nat>) {
    function SetPhone(p: nat, x: Phone): World { this.(phones := phones[p := x]) }

    predicate Open(p: nat)
      requires p in phones
    {
      phones[p].ep < |ports.made| && ports.made[phones[p].ep].open
    }

    predicate Listed(p: nat) { rooms.At(p).join.In? && !rooms.At(p).removed }

    predicate Audible(p: nat)
      requires p in phones
    {
      phones[p].fifo != [] || phones[p].reading
    }
  }

  datatype Event =
    | Arrive(p: nat, binds: nat -> bool)
    | Others(op: P.Op)
    | InRoom(e: R.Event)
    | Start(p: nat)
    | Read(p: nat)
    | Receive(p: nat, xs: seq<Sample>)
    | Tick(p: nat, admitted: bool)
    | Close(p: nat)

  /** A new participant's endpoint, if a pair binds. */
  function OnArrive(w: World, p: nat, binds: nat -> bool): World {
    if p in w.phones then w
    else
      var d := w.(ports := P.Step(w.ports, P.Open(binds)));
      if |d.ports.made| > |w.ports.made| then d.SetPhone(p, Phone(|w.ports.made|, false, false, [])) else d
  }

  /** Calls open and close endpoints of their own. */
  function OnOthers(w: World, op: P.Op): World {
    if op.Close? && exists p | p in w.phones :: w.phones[p].ep == op.id then w else w.(ports := P.Step(w.ports, op))
  }

  /** Leave closes the endpoint last; a leg that never joined is closed too. Closing again does nothing. */
  function OnClose(w: World, p: nat): World {
    if p !in w.phones || !(w.rooms.At(p).leave.Left? || w.rooms.At(p).join.NotYet?) || !w.Open(p) then w
    else
      w.(ports := P.Step(w.ports, P.Close(w.phones[p].ep)),
         stranded := if w.Listed(p) && w.Audible(p) then w.stranded + {p} else w.stranded)
  }

  function Step(w: World, e: Event): World {
    match e
    case Arrive(p, binds) => OnArrive(w, p, binds)
    case Others(op) => OnOthers(w, op)
    case InRoom(re) => if re.p in w.phones then w.(rooms := R.Step(w.rooms, re)) else w
    case Start(p) =>
      if p in w.phones && w.rooms.At(p).join.In? then w.SetPhone(p, w.phones[p].(started := true)) else w
    case Read(p) =>
      if p in w.phones && w.phones[p].started && w.Open(p) then w.SetPhone(p, w.phones[p].(reading := true)) else w
    case Receive(p, xs) =>
      if p in w.phones && w.phones[p].reading then
        var q := Fifo.Newest(w.phones[p].fifo + xs, Fifo.MAX_BUFFER);
        w.SetPhone(p, w.phones[p].(reading := false, fifo := q))
      else w
    case Tick(p, admitted) =>
      if p in w.phones then w.SetPhone(p, w.phones[p].(fifo := Fifo.Taken(w.phones[p].fifo, admitted).0)) else w
    case Close(p) => OnClose(w, p)
  }

  function Run(w: World, es: seq<Event>): World {
    if es == [] then w else Step(Run(w, es[..|es| - 1]), es[|es| - 1])
  }

  function Empty(free: seq<nat>): World { World(R.EMPTY, P.Ports(free, []), map[], {}) }

  // ---- invariants ----

  ghost predicate EndpointsOk(w: World) {
    && (forall p | p in w.phones :: w.phones[p].ep < |w.ports.made|)
    && (forall p, q | p in w.phones && q in w.phones && p != q :: w.phones[p].ep != w.phones[q].ep)
    && (forall p | p in w.rooms.people :: p in w.phones)
  }

  /** Only a started participant has audio; one whose endpoint is closed has none, unless it was removed or stranded. */
  ghost predicate AudioOk(w: World) {
    && (forall p | p in w.phones && w.Audible(p) :: w.phones[p].started)
    && (forall p | p in w.phones && w.phones[p].started :: w.rooms.At(p).join.In?)
    && (forall p | p in w.phones && !w.Open(p) && p !in w.stranded && !w.rooms.At(p).removed :: !w.Audible(p))
  }

  ghost predicate WorldOk(w: World, free: seq<nat>) {
    P.Partition(w.ports, free) && EndpointsOk(w) && AudioOk(w)
  }

  /** Endpoints are never forgotten, moved or opened again. */
  ghost predicate Kept(w: P.Ports, d: P.Ports) {
    |w.made| <= |d.made| && forall i | 0 <= i < |w.made| ::
        d.made[i].port == w.made[i].port && (d.made[i].open ==> w.made[i].open)
  }

  lemma PortsKept(w: P.Ports, op: P.Op)
    ensures Kept(w, P.Step(w, op))
    ensures op.Open? ==> forall i | 0 <= i < |w.made| :: P.Step(w, op).made[i] == w.made[i]
    ensures op.Close? ==>
              |P.Step(w, op).made| == |w.made|
              && forall i | 0 <= i < |w.made| && i != op.id :: P.Step(w, op).made[i] == w.made[i]
  {
    hide P.Failures, P.Rotated;
  }

  lemma PortsPartition(w: P.Ports, op: P.Op, free: seq<nat>)
    requires P.Partition(w, free)
    ensures P.Partition(P.Step(w, op), free)
  {
    match op
    case Open(binds) => P.OpenKeepsPartition(w, binds, free);
    case Close(id) => P.CloseKeepsPartition(w, id, free);
  }

  /** A room event changes one participant: it never leaves a room it is in, and a removal stands. */
  lemma {:induction false} RoomStep(w: R.World, e: R.Event, p: nat)
    ensures w.At(p).join.In? ==> R.Step(w, e).At(p).join == w.At(p).join
    ensures p != e.p ==> R.Step(w, e).At(p) == w.At(p)
    ensures forall q :: q in R.Step(w, e).people ==> q in w.people || q == e.p
  {
    hide R.Without;
  }

  lemma {:induction false} RemovalStands(w: R.World, e: R.Event, p: nat)
    requires R.RoomsOk(w)
    ensures w.At(p).removed ==> R.Step(w, e).At(p).removed
  {
    R.RemovedStep(w, e, p);
  }

  lemma {:induction false} ArriveEndpoints(w: World, p: nat, binds: nat -> bool)
    requires EndpointsOk(w) && AudioOk(w)
    ensures EndpointsOk(OnArrive(w, p, binds))
  {
    hide P.Step, AudioOk;
    PortsKept(w.ports, P.Open(binds));
  }

  lemma {:induction false} AddedAudio(w: World, d: World)
    requires AudioOk(w) && d.rooms == w.rooms && d.stranded == w.stranded
    requires forall q | q in w.phones :: q in d.phones && d.phones[q] == w.phones[q] && d.Open(q) == w.Open(q)
    requires forall q | q in d.phones && q !in w.phones :: !d.Audible(q) && !d.phones[q].started
    ensures AudioOk(d)
  {}

  lemma {:induction false} ArriveAudio(w: World, p: nat, binds: nat -> bool)
    requires EndpointsOk(w) && AudioOk(w)
    ensures AudioOk(OnArrive(w, p, binds))
  {
    hide P.Step, AudioOk;
    PortsKept(w.ports, P.Open(binds));
    var d := OnArrive(w, p, binds);
    assert forall q | q in w.phones :: d.phones[q] == w.phones[q] && d.Open(q) == w.Open(q);
    AddedAudio(w, d);
  }

  lemma {:induction false} ArriveOk(w: World, p: nat, binds: nat -> bool, free: seq<nat>)
    requires WorldOk(w, free)
    ensures WorldOk(OnArrive(w, p, binds), free)
  {
    hide P.Partition, P.Step, EndpointsOk, AudioOk;
    PortsPartition(w.ports, P.Open(binds), free);
    ArriveEndpoints(w, p, binds);
    ArriveAudio(w, p, binds);
  }

  lemma {:induction false} OthersOk(w: World, op: P.Op, free: seq<nat>)
    requires WorldOk(w, free)
    ensures WorldOk(OnOthers(w, op), free)
  {
    hide P.Partition, P.Step;
    PortsPartition(w.ports, op, free);
    PortsKept(w.ports, op);
    var d := OnOthers(w, op);
    if d != w {
      forall p | p in w.phones ensures d.Open(p) == w.Open(p) {
        if op.Close? { assert w.phones[p].ep != op.id; }
      }
    }
  }

  lemma {:induction false} InRoomOk(w: World, e: R.Event, free: seq<nat>)
    requires WorldOk(w, free) && R.RoomsOk(w.rooms)
    ensures WorldOk(Step(w, InRoom(e)), free)
  {
    hide P.Partition, R.RoomsOk, R.Step;
    var d := Step(w, InRoom(e));
    forall p ensures w.rooms.At(p).join.In? ==> R.Step(w.rooms, e).At(p).join == w.rooms.At(p).join {
      RoomStep(w.rooms, e, p);
    }
    forall p ensures w.rooms.At(p).removed ==> R.Step(w.rooms, e).At(p).removed { RemovalStands(w.rooms, e, p); }
    RoomStep(w.rooms, e, e.p);
  }

  lemma {:induction false} CloseOk(w: World, p: nat, free: seq<nat>)
    requires WorldOk(w, free)
    ensures WorldOk(OnClose(w, p), free)
  {
    hide P.Partition, P.Step;
    var d := OnClose(w, p);
    if d != w {
      PortsPartition(w.ports, P.Close(w.phones[p].ep), free);
      PortsKept(w.ports, P.Close(w.phones[p].ep));
      forall q | q in w.phones && q != p ensures d.Open(q) == w.Open(q) {}
    }
  }

  /** A step of one phone that keeps its endpoint and gives it audio only when it is open and started, or had some. */
  ghost predicate FitPhone(w: World, p: nat, x: Phone)
    requires p in w.phones
  {
    && x.ep == w.phones[p].ep
    && (x.started ==> w.phones[p].started || w.rooms.At(p).join.In?) && (w.phones[p].started ==> x.started)
    && (x.fifo != [] || x.reading ==> x.started && (w.Open(p) || w.Audible(p)))
  }

  lemma {:induction false} PhoneEndpoints(w: World, p: nat, x: Phone)
    requires EndpointsOk(w) && p in w.phones && FitPhone(w, p, x)
    ensures EndpointsOk(w.SetPhone(p, x))
  {}

  lemma {:induction false} PhoneAudio(w: World, p: nat, x: Phone)
    requires AudioOk(w) && p in w.phones && FitPhone(w, p, x)
    ensures AudioOk(w.SetPhone(p, x))
  {
    var d := w.SetPhone(p, x);
    forall q | q in w.phones ensures d.phones[q] == (if q == p then x else w.phones[q]) && d.Open(q) == w.Open(q) {}
  }

  lemma {:induction false} PhoneOk(w: World, p: nat, x: Phone, free: seq<nat>)
    requires WorldOk(w, free) && p in w.phones && FitPhone(w, p, x)
    ensures WorldOk(w.SetPhone(p, x), free)
  {
    hide P.Partition, EndpointsOk, AudioOk, FitPhone;
    PhoneEndpoints(w, p, x);
    PhoneAudio(w, p, x);
  }

  lemma {:induction false} PhoneStepOk(w: World, e: Event, free: seq<nat>)
    requires WorldOk(w, free) && (e.Start? || e.Read? || e.Receive? || e.Tick?)
    ensures WorldOk(Step(w, e), free)
  {
    hide P.Partition, EndpointsOk, Fifo.Newest;
    if e.p in w.phones && Step(w, e) != w {
      PhoneOk(w, e.p, Step(w, e).phones[e.p], free);
    }
  }

  lemma {:induction false} RunOk(w: World, es: seq<Event>, free: seq<nat>)
    requires WorldOk(w, free) && R.RoomsOk(w.rooms)
    ensures WorldOk(Run(w, es), free) && R.RoomsOk(Run(w, es).rooms)
  {
    hide WorldOk, R.RoomsOk, R.Step, OnArrive, OnOthers, OnClose;
    if es != [] {
      var b, e := Run(w, es[..|es| - 1]), es[|es| - 1];
      RunOk(w, es[..|es| - 1], free);
      match e {
        case Arrive(p, binds) => ArriveOk(b, p, binds, free);
        case Others(op) => OthersOk(b, op, free);
        case InRoom(re) =>
          InRoomOk(b, re, free);
          RoomEventOk(b.rooms, re);
        case Close(p) => CloseOk(b, p, free);
        case _ => PhoneStepOk(b, e, free);
      }
      RoomsOnlyByRooms(b, e);
    }
  }

  lemma RoomsOnlyByRooms(w: World, e: Event)
    ensures !e.InRoom? ==> Step(w, e).rooms == w.rooms
    ensures e.InRoom? ==> Step(w, e).rooms == w.rooms || Step(w, e).rooms == R.Step(w.rooms, e.e)
  {
    hide P.Step, R.Step;
  }

  lemma RoomEventOk(w: R.World, e: R.Event)
    requires R.RoomsOk(w)
    ensures R.RoomsOk(R.Step(w, e))
  {
    hide R.RoomsOk, R.OnBeginJoin, R.OnAdd, R.OnBeginLeave, R.OnUnlink, R.OnCheck, R.OnAct;
    match e
    case BeginJoin(p, number) => R.BeginJoinOk(w, p, number);
    case Add(p) => R.AddOk(w, p);
    case BeginLeave(p) => R.BeginLeaveOk(w, p);
    case Unlink(p) => R.UnlinkOk(w, p);
    case Check(p) => R.CheckOk(w, p);
    case Act(p) => R.ActOk(w, p);
  }

  lemma StartOk(free: seq<nat>)
    requires NoDuplicates(free)
    ensures WorldOk(Empty(free), free) && R.RoomsOk(Empty(free).rooms)
  {
    assert R.Run([]) == R.EMPTY;
    R.RunOk([]);
  }

  // ---- silent for good ----

  /** Closed and without audio: so it stays. */
  ghost predicate Silent(w: World, p: nat) {
    p in w.phones && w.phones[p].ep < |w.ports.made| && !w.ports.made[w.phones[p].ep].open && !w.Audible(p)
  }

  lemma {:induction false} SilentStep(w: World, e: Event, p: nat)
    requires Silent(w, p)
    ensures Silent(Step(w, e), p)
  {
    hide P.Step, R.Step, Fifo.Newest;
    if e.Arrive? { PortsKept(w.ports, P.Open(e.binds)); }
    if e.Others? { PortsKept(w.ports, e.op); }
    if e.Close? && e.p in w.phones { PortsKept(w.ports, P.Close(w.phones[e.p].ep)); }
  }

  lemma {:induction false} SilentStays(w: World, es: seq<Event>, p: nat)
    requires Silent(w, p)
    ensures Silent(Run(w, es), p)
  {
    hide Silent, Step;
    if es != [] {
      SilentStays(w, es[..|es| - 1], p);
      SilentStep(Run(w, es[..|es| - 1]), es[|es| - 1], p);
    }
  }

  // ---- how many can speak ----

  lemma {:induction false} DistinctFit(s: seq<nat>, t: seq<nat>)
    requires NoDuplicates(s) && forall x | x in s :: x in t
    ensures |s| <= |t|
  {
    if s != [] {
      assert s[0] in t;
      var i :| 0 <= i < |t| && t[i] == s[0];
      var rest := t[..i] + t[i + 1..];
      forall x | x in s[1..] ensures x in rest {
        assert x in s && x in t;
        var k :| 0 <= k < |t| && t[k] == x;
        assert x != s[0];
        assert x == if k < i then rest[k] else rest[k - 1];
      }
      DistinctFit(s[1..], rest);
    }
  }

  /** Participants that each hold an open endpoint of their own are no more than the pairs of the pool. */
  lemma {:induction false} OpenFit(w: World, free: seq<nat>, ps: seq<nat>)
    requires WorldOk(w, free) && NoDuplicates(ps)
    requires forall i | 0 <= i < |ps| :: ps[i] in w.phones && w.Open(ps[i])
    ensures |ps| <= |free|
  {
    hide AudioOk;
    var ports := seq(|ps|, i requires 0 <= i < |ps| => w.ports.made[w.phones[ps[i]].ep].port);
    forall x | x in ports ensures x in free {
      var i :| 0 <= i < |ps| && ports[i] == x;
      assert w.ports.made[w.phones[ps[i]].ep].open;
      assert P.Held(w.ports, x);
    }
    forall i, k | 0 <= i < k < |ports| ensures ports[i] != ports[k] {
      var a, b := w.phones[ps[i]].ep, w.phones[ps[k]].ep;
      assert a != b && w.ports.made[a].open && w.ports.made[b].open;
    }
    DistinctFit(ports, free);
  }

  /** A listed participant that is not stranded and will be heard holds an open endpoint now. */
  lemma {:induction false} HeardIsOpen(w: World, free: seq<nat>, later: seq<Event>, p: nat)
    requires WorldOk(w, free) && p in w.phones && w.Listed(p) && p !in w.stranded
    requires p in Run(w, later).phones && Run(w, later).phones[p].fifo != []
    ensures w.Open(p)
  {
    hide P.Partition, Step;
    if !w.Open(p) {
      assert Silent(w, p);
      SilentStays(w, later, p);
      assert false;
    }
  }

  // ---- one tick ----

  /**
   What a tick takes: from each participant listed when it begins, at some later moment of the participant's own,
   whatever happens in between.
   */
  ghost predicate TickFrames(w: World, parts: seq<nat>, visit: nat -> seq<Event>, frames: seq<Option<seq<Sample>>>) {
    && |frames| == |parts|
    && forall i | 0 <= i < |parts| && frames[i].Some? ::
         var b := Run(w, visit(parts[i]));
         parts[i] in b.phones && frames[i] == Fifo.Taken(b.phones[parts[i]].fifo, true).1
  }

  /** The participants with a frame that are not stranded, in order. */
  ghost function Speaking(w: World, parts: seq<nat>, frames: seq<Option<seq<Sample>>>): seq<nat>
    requires |frames| == |parts|
  {
    if parts == [] then []
    else
      var n := |parts| - 1;
      Speaking(w, parts[..n], frames[..n]) + if frames[n].Some? && parts[n] !in w.stranded then [parts[n]] else []
  }

  ghost predicate SpeaksAt(parts: seq<nat>, frames: seq<Option<seq<Sample>>>, i: nat, p: nat)
    requires |frames| == |parts|
  {
    i < |parts| && parts[i] == p && frames[i].Some?
  }

  lemma {:induction false} SpeakingWhere(w: World, parts: seq<nat>, frames: seq<Option<seq<Sample>>>,
      p: nat)
    returns (i: nat)
    requires |frames| == |parts| && p in Speaking(w, parts, frames)
    ensures SpeaksAt(parts, frames, i, p) && p !in w.stranded
  {
    var n := |parts| - 1;
    if p in Speaking(w, parts[..n], frames[..n]) {
      i := SpeakingWhere(w, parts[..n], frames[..n], p);
    } else {
      i := n;
    }
  }

  lemma {:induction false} SpeakingDistinct(w: World, parts: seq<nat>, frames: seq<Option<seq<Sample>>>)
    requires |frames| == |parts| && NoDuplicates(parts)
    ensures NoDuplicates(Speaking(w, parts, frames))
  {
    if parts != [] {
      var n := |parts| - 1;
      var before := Speaking(w, parts[..n], frames[..n]);
      assert forall i | 0 <= i < n :: parts[..n][i] == parts[i];
      SpeakingDistinct(w, parts[..n], frames[..n]);
      forall i | 0 <= i < |before| ensures before[i] != parts[n] {
        assert before[i] in before;
        var k := SpeakingWhere(w, parts[..n], frames[..n], before[i]);
      }
    }
  }

  ghost function Members(parts: seq<nat>): set<nat> { set p | p in parts }

  lemma {:induction false} SpeakingCount(w: World, parts: seq<nat>, frames: seq<Option<seq<Sample>>>)
    requires |frames| == |parts| && NoDuplicates(parts)
    ensures Mixer.Speakers(frames) <= |Speaking(w, parts, frames)| + |w.stranded * Members(parts)|
  {
    if parts != [] {
      var n := |parts| - 1;
      assert forall i | 0 <= i < n :: parts[..n][i] == parts[i];
      SpeakingCount(w, parts[..n], frames[..n]);
      MembersMore(w.stranded, parts);
    }
  }

  lemma LastMember(parts: seq<nat>, x: nat)
    requires parts != []
    ensures x in parts <==> x in parts[..|parts| - 1] || x == parts[|parts| - 1]
  {
    assert parts == parts[..|parts| - 1] + [parts[|parts| - 1]];
  }

  lemma NotBefore(parts: seq<nat>)
    requires parts != [] && NoDuplicates(parts)
    ensures parts[|parts| - 1] !in parts[..|parts| - 1]
  {}

  lemma {:induction false} MembersMore(s: set<nat>, parts: seq<nat>)
    requires parts != [] && NoDuplicates(parts)
    ensures var n := |parts| - 1;
            |s * Members(parts)| == |s * Members(parts[..n])| + if parts[n] in s then 1 else 0
  {
    var n := |parts| - 1;
    var a, b := s * Members(parts), s * Members(parts[..n]);
    forall x ensures x in Members(parts) <==> x in Members(parts[..n]) || x == parts[n] { LastMember(parts, x); }
    NotBefore(parts);
    if parts[n] in s {
      assert a == b + {parts[n]} && parts[n] !in b;
    } else {
      assert a == b;
    }
  }

  lemma {:induction false} SpeakersFit(w: World, free: seq<nat>, r: nat, visit: nat -> seq<Event>,
      frames: seq<Option<seq<Sample>>>)
    requires WorldOk(w, free) && R.RoomsOk(w.rooms) && r < |w.rooms.made|
    requires TickFrames(w, w.rooms.made[r].parts, visit, frames)
    ensures Mixer.Speakers(frames) <= |free| + |w.stranded|
  {
    hide P.Partition, EndpointsOk, AudioOk, Run, Speaking, Mixer.Speakers, R.MapOk, R.LockOk, R.NoneForgotten;
    var parts := w.rooms.made[r].parts;
    var ps := Speaking(w, parts, frames);
    assert NoDuplicates(parts);
    SpeakingDistinct(w, parts, frames);
    SpeakingCount(w, parts, frames);
    forall i | 0 <= i < |ps| ensures ps[i] in w.phones && w.Open(ps[i]) {
      assert ps[i] in ps;
      var k := SpeakingWhere(w, parts, frames, ps[i]);
      Listing(w, free, r, ps[i]);
      HeardIsOpen(w, free, visit(ps[i]), ps[i]);
    }
    OpenFit(w, free, ps);
    SubsetSize(w.stranded * Members(parts), w.stranded);
  }

  lemma Listing(w: World, free: seq<nat>, r: nat, p: nat)
    requires WorldOk(w, free) && R.RoomsOk(w.rooms) && r < |w.rooms.made| && p in w.rooms.made[r].parts
    ensures p in w.phones && w.Listed(p)
  {
    assert p in w.rooms.people && w.rooms.people[p].join == R.In(r) && !w.rooms.people[p].removed;
  }

  lemma SubsetSize(a: set<nat>, b: set<nat>)
    requires a <= b
    ensures |a| <= |b|
  {
    assert b == a + (b - a);
  }

  /** In every run, whatever the pool binds: while at most s are stranded, all partial sums of every tick fit. */
  ghost predicate FitsWith(free: seq<nat>, s: nat) {
    forall es, r: nat, visit, frames, k: nat, j: nat |
      && r < |Run(Empty(free), es).rooms.made| && |Run(Empty(free), es).stranded| <= s && k <= |frames|
      && TickFrames(Run(Empty(free), es), Run(Empty(free), es).rooms.made[r].parts, visit, frames) ::
      -0x8000_0000 <= Mixer.Total(frames[..k], j) < 0x8000_0000
  }

  lemma SumsFit(free: seq<nat>, es: seq<Event>, r: nat, visit: nat -> seq<Event>,
      frames: seq<Option<seq<Sample>>>, k: nat, j: nat)
    requires NoDuplicates(free) && k <= |frames|
    requires var w := Run(Empty(free), es);
             r < |w.rooms.made| && TickFrames(w, w.rooms.made[r].parts, visit, frames)
    ensures var w := Run(Empty(free), es);
            && Mixer.Speakers(frames) <= |free| + |w.stranded|
            && (|free| + |w.stranded| <= Mixer.MAX_SPEAKERS ==>
                  -0x8000_0000 <= Mixer.Total(frames[..k], j) < 0x8000_0000)
  {
    hide Run, TickFrames, WorldOk, R.RoomsOk, Mixer.Speakers, Mixer.Total;
    var w := Run(Empty(free), es);
    StartOk(free);
    RunOk(Empty(free), es, free);
    SpeakersFit(w, free, r, visit, frames);
    Mixer.SpeakersOfBoth(frames[..k], frames[k..]);
    assert frames[..k] + frames[k..] == frames;
    if |free| + |w.stranded| <= Mixer.MAX_SPEAKERS { Mixer.TotalFits(frames[..k], j); }
  }

  lemma FewFit(free: seq<nat>, s: nat)
    requires NoDuplicates(free) && |free| + s <= Mixer.MAX_SPEAKERS
    ensures FitsWith(free, s)
  {
    hide Run, TickFrames, Mixer.Total;
    forall es, r: nat, visit, frames, k: nat, j: nat |
      && r < |Run(Empty(free), es).rooms.made| && |Run(Empty(free), es).stranded| <= s && k <= |frames|
      && TickFrames(Run(Empty(free), es), Run(Empty(free), es).rooms.made[r].parts, visit, frames)
      ensures -0x8000_0000 <= Mixer.Total(frames[..k], j) < 0x8000_0000
    {
      SumsFit(free, es, r, visit, frames, k, j);
    }
  }

  /**
   In every reachable state, for every valid port range, room and interleaving of what follows: a tick finds at most
   32256 frames among the participants listed when it begins, not counting those stranded; and its 32-bit partial sums
   are exact while the stranded and the pairs of the pool together are at most 65536.
   */
  lemma TickFits(min: nat, max: nat, es: seq<Event>, r: nat, visit: nat -> seq<Event>,
      frames: seq<Option<seq<Sample>>>, k: nat, j: nat)
    requires 1024 <= min && max <= 65535 && k <= |frames|
    requires var w := Run(Empty(P.InitialPorts(min, max)), es);
             r < |w.rooms.made| && TickFrames(w, w.rooms.made[r].parts, visit, frames)
    ensures var free := P.InitialPorts(min, max);
            var w := Run(Empty(free), es);
            && |free| <= 32256 && Mixer.Speakers(frames) <= |free| + |w.stranded|
            && (|free| + |w.stranded| <= Mixer.MAX_SPEAKERS ==>
                  -0x8000_0000 <= Mixer.Total(frames[..k], j) < 0x8000_0000)
  {
    hide Run, TickFrames, Mixer.Speakers, Mixer.Total;
    P.InitialPortsAre(min, max);
    SumsFit(P.InitialPorts(min, max), es, r, visit, frames, k, j);
  }

  // ---- nobody is stranded when Join and Leave do not overlap ----

  /**
   Join and Leave of a participant do not overlap: no Leave begins while its Join is adding, and a Join that comes after
   the Leave comes after its endpoint was closed.
   */
  ghost predicate Apart(w: World, es: seq<Event>) {
    forall i | 0 <= i < |es| && es[i].InRoom? ::
      var b, p := Run(w, es[..i]), es[i].e.p;
      && (es[i].e.BeginLeave? ==> !b.rooms.At(p).join.Adding?)
      && (es[i].e.BeginJoin? && p in b.phones ==> b.rooms.At(p).leave.Here? || !b.Open(p))
  }

  /** Still there; or left after joining; or left, and closed, before. */
  predicate Settling(w: World, p: nat)
    requires p in w.phones
  {
    var x := w.rooms.At(p);
    || x.leave.Here?
    || (x.join.In? && (x.leave.Unlinking? || x.removed))
    || (x.leave.Left? && (x.join.NotYet? || !w.Open(p)))
  }

  ghost predicate NoneStranded(w: World) {
    w.stranded == {} && forall p | p in w.phones :: Settling(w, p)
  }

  lemma {:induction false} SettlingRoom(w: World, e: R.Event, p: nat)
    requires R.RoomsOk(w.rooms) && p in w.phones && Settling(w, p)
    requires e == R.BeginLeave(p) ==> !w.rooms.At(p).join.Adding?
    requires e.BeginJoin? && e.p == p ==> w.rooms.At(p).leave.Here? || !w.Open(p)
    ensures Settling(Step(w, InRoom(e)), p)
  {
    hide R.NoneForgotten, R.MapOk, R.PartsOk, R.LockOk, R.Without;
    if e == R.Unlink(p) && w.rooms.At(p).leave.Unlinking? { R.UnlinkFinds(w.rooms, p); }
    if p in w.rooms.people { assert R.LeaveOk(w.rooms.people[p]); }
  }

  lemma {:induction false} ApartStep(w: World, free: seq<nat>, e: Event)
    requires WorldOk(w, free) && R.RoomsOk(w.rooms) && NoneStranded(w)
    requires e.InRoom? && e.e.BeginLeave? ==> !w.rooms.At(e.e.p).join.Adding?
    requires e.InRoom? && e.e.BeginJoin? && e.e.p in w.phones ==> w.rooms.At(e.e.p).leave.Here? || !w.Open(e.e.p)
    ensures NoneStranded(Step(w, e))
  {
    hide P.Partition, P.Step, R.RoomsOk, R.Step, Fifo.Newest, AudioOk;
    match e {
      case InRoom(re) =>
        forall p | p in w.phones ensures Settling(Step(w, e), p) { SettlingRoom(w, re, p); }
      case Arrive(p, binds) =>
        PortsKept(w.ports, P.Open(binds));
        assert p !in w.phones ==> w.rooms.At(p) == R.STRANGER;
      case Others(op) => PortsKept(w.ports, op);
      case Close(p) => CloseApart(w, free, p);
      case _ =>
    }
  }

  lemma {:induction false} CloseApart(w: World, free: seq<nat>, p: nat)
    requires WorldOk(w, free) && NoneStranded(w)
    ensures NoneStranded(OnClose(w, p))
  {
    hide P.Partition, P.Step, AudioOk;
    if OnClose(w, p) != w {
      assert Settling(w, p);
      PortsKept(w.ports, P.Close(w.phones[p].ep));
    }
  }

  /** Then nobody ever is: the sums of every tick are exact, in every run. */
  lemma {:induction false} ApartStrandsNone(w: World, free: seq<nat>, es: seq<Event>)
    requires WorldOk(w, free) && R.RoomsOk(w.rooms) && NoneStranded(w) && Apart(w, es)
    ensures NoneStranded(Run(w, es))
  {
    hide WorldOk, R.RoomsOk, Step, NoneStranded;
    if es != [] {
      var init, e := es[..|es| - 1], es[|es| - 1];
      forall i | 0 <= i < |init| ensures init[i] == es[i] && init[..i] == es[..i] {}
      assert Apart(w, init);
      ApartStrandsNone(w, free, init);
      RunOk(w, init, free);
      assert es[|init|] == e && es[..|init|] == init;
      ApartStep(Run(w, init), free, e);
    }
  }

  lemma TickFitsApart(min: nat, max: nat, es: seq<Event>, r: nat, visit: nat -> seq<Event>,
                      frames: seq<Option<seq<Sample>>>, k: nat, j: nat)
    requires 1024 <= min && max <= 65535 && k <= |frames| && Apart(Empty(P.InitialPorts(min, max)), es)
    requires var w := Run(Empty(P.InitialPorts(min, max)), es);
             r < |w.rooms.made| && TickFrames(w, w.rooms.made[r].parts, visit, frames)
    ensures Mixer.Speakers(frames) <= 32256
    ensures -0x8000_0000 <= Mixer.Total(frames[..k], j) < 0x8000_0000
  {
    hide Run, TickFrames, WorldOk, R.RoomsOk, Mixer.Speakers, Mixer.Total, Apart;
    var free := P.InitialPorts(min, max);
    P.InitialPortsAre(min, max);
    StartOk(free);
    ApartStrandsNone(Empty(free), free, es);
    TickFits(min, max, es, r, visit, frames, k, j);
  }
}
