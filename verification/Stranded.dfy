/**
 When the 32-bit sums of a tick fit, exactly. Where Join and Leave overlap, a participant stays listed with a frame
 although its endpoint is closed and its pair is free again; so a room can hold any number of such participants, and
 then one more for every pair of the pool.
 */
module Stranded {
  import opened Basics
  import opened Audio
  import Fifo
  import Mixer
  import P = PortPool
  import R = Rooms
  import opened RoomAudio

  /** A frame at full negative level. */
  function LoudFrame(): seq<Sample> { seq(FRAME, j => -0x8000) }

  function UpTo(k: nat): seq<nat> {
    if k == 0 then [] else UpTo(k - 1) + [k - 1]
  }

  /** A participant whose Leave begins before its Join, every bind succeeding: it joins, is heard and closes. */
  function Overlap(p: nat, number: nat): seq<Event> {
    [Arrive(p, n => true), InRoom(R.BeginLeave(p)), InRoom(R.BeginJoin(p, number)), InRoom(R.Add(p))]
    + [Start(p), Read(p), Receive(p, LoudFrame()), Close(p)]
  }

  function Overlaps(s: nat, number: nat): seq<Event> {
    if s == 0 then [] else Overlaps(s - 1, number) + Overlap(s - 1, number)
  }

  /** One that joins and is heard. */
  function Speech(p: nat, number: nat): seq<Event> {
    [Arrive(p, n => true), InRoom(R.BeginJoin(p, number)), InRoom(R.Add(p)), Start(p)]
    + [Read(p), Receive(p, LoudFrame())]
  }

  /** First s that overlap, then n that stay. */
  function CrowdEvents(s: nat, n: nat, number: nat): seq<Event> {
    if n == 0 then Overlaps(s, number) else CrowdEvents(s, n - 1, number) + Speech(s + n - 1, number)
  }

  /** A room of k, each with its frame, at most the first s of them stranded, and n pairs left in the pool. */
  ghost predicate Crowd(w: World, k: nat, s: nat, n: nat, number: nat) {
    && w.rooms.lock == None
    && w.rooms.rooms == (if k == 0 then map[] else map[number := 0])
    && w.rooms.made == (if k == 0 then [] else [R.RoomState(number, UpTo(k), 0)])
    && (forall p :: p in w.rooms.people <==> 0 <= p < k) && (forall p :: p in w.phones <==> 0 <= p < k)
    && (forall p | 0 <= p < k :: w.phones[p].fifo == LoudFrame())
    && (forall p :: p in w.stranded ==> p < s)
    && |w.ports.free| == n
  }

  /** The same with p on its way: listed, with an open endpoint and no audio yet. */
  ghost predicate Coming(w: World, p: nat, s: nat, n: nat, number: nat) {
    && w.rooms.lock == None && w.rooms.rooms == map[number := 0]
    && w.rooms.made == [R.RoomState(number, UpTo(p + 1), 0)] && w.rooms.At(p).join == R.In(0)
    && (forall q :: q in w.rooms.people <==> 0 <= q < p + 1) && (forall q :: q in w.phones <==> 0 <= q < p + 1)
    && (forall q | 0 <= q < p :: w.phones[q].fifo == LoudFrame())
    && w.phones[p].fifo == [] && !w.phones[p].reading && w.Open(p)
    && (forall q :: q in w.stranded ==> q < s)
    && |w.ports.free| == n
  }

  lemma {:induction false} Arrives(w: World, k: nat, s: nat, n: nat, number: nat)
    requires Crowd(w, k, s, n + 1, number)
    ensures var d := OnArrive(w, k, n => true);
            && d.rooms == w.rooms && d.stranded == w.stranded && |d.ports.free| == n
            && (forall q :: q in d.phones <==> 0 <= q < k + 1)
            && (forall q | 0 <= q < k :: d.phones[q] == w.phones[q])
            && d.phones[k].fifo == [] && !d.phones[k].reading && d.Open(k)
  {
    var binds := n => true;
    var f := P.Failures(|w.ports.free|, binds);
    assert binds(0);
    assert f == 0;
  }

  /** The room after the Join of a participant that is new, or has begun and ended its Leave already. */
  lemma {:induction false} Joins(w: R.World, k: nat, number: nat)
    requires w.lock == None && w.rooms == (if k == 0 then map[] else map[number := 0])
    requires w.made == if k == 0 then [] else [R.RoomState(number, UpTo(k), 0)]
    requires w.At(k).join == R.NotYet
    ensures var d := R.OnAdd(R.OnBeginJoin(w, k, number), k);
            && d.lock == None && d.rooms == map[number := 0] && d.made == [R.RoomState(number, UpTo(k + 1), 0)]
            && d.people == w.people[k := w.At(k).(join := R.In(0))]
  {
    var b := R.OnBeginJoin(w, k, number);
    assert b.At(k) == w.At(k).(join := R.Adding(0));
    assert b.made == [R.RoomState(number, UpTo(k), 0)] && b.rooms == map[number := 0];
  }

  lemma {:induction false} OverlapJoins(w: World, k: nat, s: nat, n: nat, number: nat)
    requires Crowd(w, k, s, n + 1, number)
    ensures var d := Step(Step(Step(Step(w, Arrive(k, n => true)), InRoom(R.BeginLeave(k))),
                                    InRoom(R.BeginJoin(k, number))), InRoom(R.Add(k)));
            Coming(d, k, s, n, number) && d.rooms.At(k).leave == R.Left
  {
    hide OnArrive, R.OnAdd, R.OnBeginJoin, P.Step;
    Arrives(w, k, s, n, number);
    var a := R.OnBeginLeave(w.rooms, k);
    assert a.At(k) == R.Person(R.NotYet, R.Left, false);
    Joins(a, k, number);
  }

  lemma {:induction false} SpeechJoins(w: World, k: nat, s: nat, n: nat, number: nat)
    requires Crowd(w, k, s, n + 1, number)
    ensures var d := Step(Step(Step(w, Arrive(k, n => true)), InRoom(R.BeginJoin(k, number))), InRoom(R.Add(k)));
            Coming(d, k, s, n, number)
  {
    hide OnArrive, R.OnAdd, R.OnBeginJoin, P.Step;
    Arrives(w, k, s, n, number);
    Joins(w.rooms, k, number);
  }

  lemma {:induction false} Hears(w: World, p: nat, s: nat, n: nat, number: nat)
    requires Coming(w, p, s, n, number)
    ensures var d := Step(Step(Step(w, Start(p)), Read(p)), Receive(p, LoudFrame()));
            && Crowd(d, p + 1, s, n, number) && d.Open(p) && d.rooms == w.rooms
  {
    hide R.Step;
    var a := Step(w, Start(p));
    assert a == w.SetPhone(p, w.phones[p].(started := true));
    var b := Step(a, Read(p));
    assert b == a.SetPhone(p, a.phones[p].(reading := true));
    assert [] + LoudFrame() == LoudFrame();
    var c := Step(b, Receive(p, LoudFrame()));
    assert c.phones[p].fifo == LoudFrame() && c.rooms == w.rooms && c.ports == w.ports;
  }

  lemma {:induction false} Closes(w: World, p: nat, s: nat, n: nat, number: nat)
    requires Crowd(w, p + 1, s, n, number) && w.Open(p) && w.rooms.At(p).leave == R.Left && p < s
    ensures Crowd(Step(w, Close(p)), p + 1, s, n + 1, number)
  {
    var d := Step(w, Close(p));
    assert d.ports.free == w.ports.free + [w.ports.made[w.phones[p].ep].port];
  }

  lemma {:induction false} RunFour(w: World, es: seq<Event>, a: seq<Event>)
    requires |a| == 4
    ensures Run(w, es + a) == Step(Step(Step(Step(Run(w, es), a[0]), a[1]), a[2]), a[3])
  {
    hide Step;
    RunTwo(w, es, a[..2]);
    RunTwo(w, es + a[..2], a[2..]);
    assert es + a[..2] + a[2..] == es + a;
  }

  lemma {:induction false} RunTwo(w: World, es: seq<Event>, a: seq<Event>)
    requires |a| == 2
    ensures Run(w, es + a) == Step(Step(Run(w, es), a[0]), a[1])
  {
    hide Step;
    assert es + a == es + [a[0]] + [a[1]];
    RunOne(w, es, a[0]);
    RunOne(w, es + [a[0]], a[1]);
  }

  lemma RunOne(w: World, es: seq<Event>, e: Event)
    ensures Run(w, es + [e]) == Step(Run(w, es), e)
  {
    assert (es + [e])[..|es|] == es;
  }

  lemma {:induction false} OverlapsCrowd(free: seq<nat>, k: nat, s: nat, number: nat)
    requires free != [] && k <= s
    ensures Crowd(Run(Empty(free), Overlaps(k, number)), k, s, |free|, number)
  {
    hide Step, Coming;
    if k > 0 {
      var p, n := k - 1, |free| - 1;
      var before := Overlaps(p, number);
      OverlapsCrowd(free, p, s, number);
      var first := [Arrive(p, n => true), InRoom(R.BeginLeave(p)), InRoom(R.BeginJoin(p, number)), InRoom(R.Add(p))];
      var second := [Start(p), Read(p), Receive(p, LoudFrame()), Close(p)];
      assert before + Overlap(p, number) == before + first + second;
      RunFour(Empty(free), before, first);
      RunFour(Empty(free), before + first, second);
      OverlapJoins(Run(Empty(free), before), p, s, n, number);
      var w := Run(Empty(free), before + first);
      Hears(w, p, s, n, number);
      Closes(Step(Step(Step(w, second[0]), second[1]), second[2]), p, s, n, number);
    }
  }

  lemma {:induction false} CrowdGathers(free: seq<nat>, s: nat, n: nat, number: nat)
    requires free != [] && n <= |free|
    ensures Crowd(Run(Empty(free), CrowdEvents(s, n, number)), s + n, s, |free| - n, number)
  {
    hide Step, Coming;
    if n == 0 {
      OverlapsCrowd(free, s, s, number);
    } else {
      var p, left := s + n - 1, |free| - n;
      var before := CrowdEvents(s, n - 1, number);
      CrowdGathers(free, s, n - 1, number);
      var first := [Arrive(p, n => true), InRoom(R.BeginJoin(p, number)), InRoom(R.Add(p)), Start(p)];
      var second := [Read(p), Receive(p, LoudFrame())];
      assert before + Speech(p, number) == before + first + second;
      RunFour(Empty(free), before, first);
      RunTwo(Empty(free), before + first, second);
      SpeechJoins(Run(Empty(free), before), p, s, left, number);
      Hears(Step(Step(Step(Run(Empty(free), before), first[0]), first[1]), first[2]), p, s, left, number);
    }
  }

  /** The frames of a tick in that room. */
  lemma {:induction false} LoudFrames(k: nat)
    ensures |Mixer.Loud(k)| == |UpTo(k)| == k
    ensures forall i | 0 <= i < k :: Mixer.Loud(k)[i] == Some(LoudFrame()) && UpTo(k)[i] == i
  {
    if k > 0 { LoudFrames(k - 1); }
  }

  lemma {:induction false} BelowSize(s: set<nat>, n: nat)
    requires forall p | p in s :: p < n
    ensures |s| <= n
  {
    if n == 0 {
      assert s == {};
    } else {
      var t := s - {n - 1};
      BelowSize(t, n - 1);
      assert s <= t + {n - 1};
      SubsetSize(s, t + {n - 1});
    }
  }

  /** So one participant more than 65536 less the pairs of the pool, stranded, can be too many. */
  lemma OverlapOverflows(free: seq<nat>, s: nat, number: nat)
    requires free != [] && |free| + s > Mixer.MAX_SPEAKERS
    ensures var w := Run(Empty(free), CrowdEvents(s, |free|, number));
            && |w.rooms.made| == 1 && |w.stranded| <= s
            && TickFrames(w, w.rooms.made[0].parts, p => [], Mixer.Loud(|free| + s))
            && Mixer.Total(Mixer.Loud(|free| + s), 0) < -0x8000_0000
  {
    hide Run, Mixer.Loud, UpTo, CrowdEvents;
    var k := |free| + s;
    var w := Run(Empty(free), CrowdEvents(s, |free|, number));
    CrowdGathers(free, s, |free|, number);
    BelowSize(w.stranded, s);
    LoudFrames(k);
    Mixer.LoudTotal(k);
    NoMore(w);
    assert Fifo.Taken(LoudFrame(), true).1 == Some(LoudFrame()) by { assert LoudFrame()[..FRAME] == LoudFrame(); }
  }

  lemma NoMore(w: World)
    ensures Run(w, []) == w
  {}

  /** Without a pair nobody ever arrives. */
  lemma {:induction false} NobodyArrives(es: seq<Event>)
    ensures var w := Run(Empty([]), es); w.phones == map[] && w.stranded == {} && w.ports == P.Ports([], [])
  {
    if es != [] { NobodyArrives(es[..|es| - 1]); }
  }

  lemma NoPairsFit(s: nat)
    ensures FitsWith([], s)
  {
    hide Run, TickFrames, Mixer.Total;
    forall es, r: nat, visit, frames, k: nat, j: nat |
      && r < |Run(Empty([]), es).rooms.made| && |Run(Empty([]), es).stranded| <= s && k <= |frames|
      && TickFrames(Run(Empty([]), es), Run(Empty([]), es).rooms.made[r].parts, visit, frames)
      ensures -0x8000_0000 <= Mixer.Total(frames[..k], j) < 0x8000_0000
    {
      NobodyArrives(es);
      SumsFit([], es, r, visit, frames, k, j);
    }
  }

  /**
   For every pool and number s: the sums of all ticks of all runs in which at most s participants are stranded when the
   tick begins fit 32 bits if and only if s and the pairs of the pool together are at most 65536. (A pool without pairs
   has no participants.)
   */
  lemma FitsIff(free: seq<nat>, s: nat)
    requires NoDuplicates(free)
    ensures FitsWith(free, s) <==> free == [] || |free| + s <= Mixer.MAX_SPEAKERS
  {
    hide Run, Mixer.Total, TickFrames, CrowdEvents;
    if free == [] {
      NoPairsFit(s);
    } else if |free| + s <= Mixer.MAX_SPEAKERS {
      FewFit(free, s);
    } else {
      OverlapOverflows(free, s, 0);
      var frames := Mixer.Loud(|free| + s);
      assert frames[..|frames|] == frames;
    }
  }
}
