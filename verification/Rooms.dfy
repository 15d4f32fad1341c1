/**
 Conference rooms coming and going (Manager.Join, Manager.Leave and room.remove, internal/conference/conference.go):
 every interleaving of joins and leaves under the manager's lock and the rooms' own locks.
 */
module Rooms {
  import opened Basics

  /** Without its first p. */
  function Without(parts: seq<nat>, p: nat): seq<nat> {
    if parts == [] then [] else if parts[0] == p then parts[1..] else [parts[0]] + Without(parts[1..], p)
  }

  lemma WithoutAt(parts: seq<nat>, i: nat, p: nat)
    requires i < |parts| && Without(parts, p) == parts[..i] + Without(parts[i..], p)
    ensures Without(parts, p) ==
            if parts[i] == p then parts[..i] + parts[i + 1..] else parts[..i + 1] + Without(parts[i + 1..], p)
  {
    assert parts[i..][1..] == parts[i + 1..];
    if parts[i] != p {
      var rest := Without(parts[i + 1..], p);
      assert parts[..i] + ([parts[i]] + rest) == parts[..i + 1] + rest;
    }
  }

  lemma WithoutNone(parts: seq<nat>, p: nat)
    ensures Without(parts, p) == parts[..0] + Without(parts[0..], p) && Without([], p) == []
  {}

  // ---- one room and the manager, as objects ----

  class Room {
    const number: nat
    var parts: seq<nat>
    var stopped: bool

    constructor (number: nat)
      ensures this.number == number && parts == [] && !stopped
    {
      this.number, parts, stopped := number, [], false;
    }

    method Add(p: nat)
      modifies this
      ensures parts == old(parts) + [p] && stopped == old(stopped)
    {
      parts := parts + [p];
    }

    /** The first half of remove: take p out of the list. */
    method Unlink(p: nat)
      modifies this
      ensures parts == Without(old(parts), p) && stopped == old(stopped)
    {
      hide Without;
      WithoutNone(parts, p);
      for i := 0 to |parts|
        invariant parts == old(parts) && stopped == old(stopped)
        invariant Without(parts, p) == parts[..i] + Without(parts[i..], p)
      {
        WithoutAt(parts, i, p);
        if parts[i] == p {
          parts := parts[..i] + parts[i + 1..];
          return;
        }
      }
      assert parts[|parts|..] == [] && parts[..|parts|] == parts;
    }
  }

  class Manager {
    var rooms: map<nat, Room>

    ghost predicate Valid()
      reads this, rooms.Values
    {
      && (forall n | n in rooms :: rooms[n].number == n && !rooms[n].stopped)
    }

    constructor ()
      ensures Valid() && rooms == map[]
    {
      rooms := map[];
    }

    /** Join, when nothing interrupts it. */
    method Join(p: nat, number: nat) returns (r: Room)
      requires Valid()
      modifies this, rooms.Values
      ensures Valid() && rooms == old(rooms)[number := r]
      ensures number in old(rooms) ==> r == old(rooms)[number] && r.parts == old(rooms[number].parts) + [p]
      ensures number !in old(rooms) ==> fresh(r) && r.parts == [p]
      ensures forall n | n in old(rooms) && n != number :: old(rooms)[n].parts == old(rooms[n].parts)
    {
      if number in rooms {
        r := rooms[number];
        assert r in rooms.Values;
      } else {
        r := new Room(number);
        rooms := rooms[number := r];
      }
      r.Add(p);
    }

    /** Leave's work on the room it is in, when nothing interrupts it: an emptied room stops and goes. */
    method Remove(r: Room, p: nat)
      requires Valid() && (r.number in rooms && rooms[r.number] == r)
      modifies this, r
      ensures Valid() && r.parts == Without(old(r.parts), p)
      ensures r.stopped == (r.parts == []) && rooms == if r.parts == [] then old(rooms) - {r.number} else old(rooms)
    {
      r.Unlink(p);
      var empty := |r.parts| == 0;
      if empty && r.number in rooms && rooms[r.number] == r {
        rooms := rooms - {r.number};
        r.stopped := true;
      }
    }
  }

  // ---- every interleaving ----

  /** Join: between its two room operations it holds the manager's lock. */
  datatype Joining = NotYet | Adding(room: nat) | In(room: nat)

  /** Leave: the room found at the start, if any; then the list, then the check, which reads and acts under the lock. */
  datatype Leaving = Here | Unlinking(room: nat) | Checking(room: nat) | Acting(room: nat, empty: bool) | Left

  /** removed: the unlinking found the participant in the list. */
  datatype Person = Person(join: Joining, leave: Leaving, removed: bool)

  const STRANGER := Person(NotYet, Here, false)

  /** A room object; closes counts the closes of its stop channel. */
  datatype RoomState = RoomState(number: nat, parts: seq<nat>, closes: nat)

  datatype Holder = Joiner(p: nat) | Leaver(p: nat)

  datatype World = World(rooms: map<nat, nat>, made: seq<RoomState>, people: map<nat, Person>, lock: Option<Holder>) {
    function At(p: nat): Person { if p in people then people[p] else STRANGER }

    function Put(p: nat, x: Person): World { this.(people := people[p := x]) }

    function SetParts(r: nat, parts: seq<nat>): World
      requires r < |made|
    {
      this.(made := made[r := made[r].(parts := parts)])
    }
  }

  const EMPTY := World(map[], [], map[], None)

  datatype Event =
    BeginJoin(p: nat, number: nat) | Add(p: nat) | BeginLeave(p: nat) | Unlink(p: nat) | Check(p: nat) | Act(p: nat)

  function OnBeginJoin(w: World, p: nat, number: nat): World {
    var x := w.At(p);
    if x.join != NotYet || w.lock.Some? then w
    else if number in w.rooms then w.Put(p, x.(join := Adding(w.rooms[number]))).(lock := Some(Joiner(p)))
    else
      var r := |w.made|;
      w.(rooms := w.rooms[number := r], made := w.made + [RoomState(number, [], 0)])
        .Put(p, x.(join := Adding(r))).(lock := Some(Joiner(p)))
  }

  function OnAdd(w: World, p: nat): World {
    var x := w.At(p);
    if !x.join.Adding? || x.join.room >= |w.made| then w
    else w.SetParts(x.join.room, w.made[x.join.room].parts + [p]).Put(p, x.(join := In(x.join.room))).(lock := None)
  }

  /** A second Leave does nothing; one that finds no room is over at once. */
  function OnBeginLeave(w: World, p: nat): World {
    var x := w.At(p);
    if x.leave != Here then w
    else w.Put(p, x.(leave := if x.join == NotYet then Left else Unlinking(x.join.room)))
  }

  function OnUnlink(w: World, p: nat): World {
    var x := w.At(p);
    if !x.leave.Unlinking? || x.leave.room >= |w.made| then w
    else
      var r := x.leave.room;
      w.SetParts(r, Without(w.made[r].parts, p)).Put(p, x.(leave := Checking(r), removed := p in w.made[r].parts))
  }

  function OnCheck(w: World, p: nat): World {
    var x := w.At(p);
    if !x.leave.Checking? || x.leave.room >= |w.made| || w.lock.Some? then w
    else w.Put(p, x.(leave := Acting(x.leave.room, w.made[x.leave.room].parts == []))).(lock := Some(Leaver(p)))
  }

  function OnAct(w: World, p: nat): World {
    var x := w.At(p);
    if !x.leave.Acting? || x.leave.room >= |w.made| then w
    else
      var r := x.leave.room;
      var d := w.Put(p, x.(leave := Left)).(lock := None);
      var number := w.made[r].number;
      if x.leave.empty && number in w.rooms && w.rooms[number] == r then
        d.(rooms := w.rooms - {number}, made := w.made[r := w.made[r].(closes := w.made[r].closes + 1)])
      else d
  }

  function Step(w: World, e: Event): World {
    match e
    case BeginJoin(p, number) => OnBeginJoin(w, p, number)
    case Add(p) => OnAdd(w, p)
    case BeginLeave(p) => OnBeginLeave(w, p)
    case Unlink(p) => OnUnlink(w, p)
    case Check(p) => OnCheck(w, p)
    case Act(p) => OnAct(w, p)
  }

  function Run(es: seq<Event>): World {
    if es == [] then EMPTY else Step(Run(es[..|es| - 1]), es[|es| - 1])
  }

  // ---- invariants ----

  predicate Open(w: World, r: nat) { r < |w.made| && w.made[r].closes == 0 }

  predicate Mapped(w: World, r: nat) {
    r < |w.made| && w.made[r].number in w.rooms && w.rooms[w.made[r].number] == r
  }

  /** A room is in the map if and only if its stop channel is open, and no channel is closed twice. */
  ghost predicate MapOk(w: World) {
    && (forall n | n in w.rooms :: w.rooms[n] < |w.made| && w.made[w.rooms[n]].number == n)
    && (forall r | 0 <= r < |w.made| :: w.made[r].closes <= 1 && (Mapped(w, r) <==> w.made[r].closes == 0))
  }

  /** One holder of the lock: a joiner about to add to an open room, or a leaver whose reading still holds. */
  ghost predicate LockOk(w: World) {
    && (forall p | p in w.people :: w.people[p].join.Adding? <==> w.lock == Some(Joiner(p)))
    && (forall p | p in w.people :: w.people[p].leave.Acting? <==> w.lock == Some(Leaver(p)))
    && (w.lock.Some? ==> w.lock.value.p in w.people)
    && (forall p | p in w.people && w.people[p].join.Adding? :: Open(w, w.people[p].join.room))
    && (forall p | p in w.people && w.people[p].leave.Acting? ::
          var l := w.people[p].leave; l.room < |w.made| && (l.empty ==> w.made[l.room].parts == []))
  }

  /** A participant is listed where it joined and was not removed, once, and only open rooms list anyone. */
  ghost predicate PartsOk(w: World) {
    && (forall r, p | 0 <= r < |w.made| ::
           p in w.made[r].parts <==> p in w.people && w.people[p].join == In(r) && !w.people[p].removed)
    && (forall r | 0 <= r < |w.made| :: NoDuplicates(w.made[r].parts))
    && (forall r | 0 <= r < |w.made| && w.made[r].parts != [] :: w.made[r].closes == 0)
    && (forall p | p in w.people && w.people[p].join.In? :: w.people[p].join.room < |w.made|)
  }

  /** Where a leaver is: its room is the one it joined, and only after unlinking can it be removed. */
  ghost predicate LeaveOk(x: Person) {
    && (x.removed ==> x.join.In? && !x.leave.Here? && !x.leave.Unlinking?)
    && match x.leave
       case Unlinking(r) => x.join == Adding(r) || x.join == In(r)
       case Checking(r) => x.join == Adding(r) || x.join == In(r)
       case Acting(r, _) => x.join == Adding(r) || x.join == In(r)
       case _ => true
  }

  predicate Pending(x: Person, r: nat) {
    x.join == Adding(r) || x.leave == Checking(r) || x.leave == Acting(r, true)
  }

  /** An open room without participants has someone about to add to it or to check it. */
  ghost predicate NoneForgotten(w: World) {
    forall r: nat | Open(w, r) && w.made[r].parts == [] :: exists p :: p in w.people && Pending(w.people[p], r)
  }

  ghost predicate RoomsOk(w: World) {
    MapOk(w) && LockOk(w) && PartsOk(w) && NoneForgotten(w) && forall p | p in w.people :: LeaveOk(w.people[p])
  }

  lemma {:induction false} WithoutMembers(parts: seq<nat>, p: nat)
    requires NoDuplicates(parts)
    ensures forall q :: q in Without(parts, p) <==> q in parts && q != p
    ensures NoDuplicates(Without(parts, p))
  {
    if parts != [] {
      var tail := parts[1..];
      assert NoDuplicates(tail) && parts[0] !in tail;
      WithoutMembers(tail, p);
      assert forall q :: q in parts <==> q == parts[0] || q in tail;
      if parts[0] != p {
        HeadDistinct(parts[0], Without(tail, p));
        assert forall q :: q in [parts[0]] + Without(tail, p) <==> q == parts[0] || q in Without(tail, p);
      }
    }
  }

  lemma HeadDistinct(x: nat, tail: seq<nat>)
    requires NoDuplicates(tail) && x !in tail
    ensures NoDuplicates([x] + tail)
  {
    var s := [x] + tail;
    forall i, j | 0 <= i < j < |s| ensures s[i] != s[j] {
      assert s[j] == tail[j - 1] && tail[j - 1] in tail;
    }
  }

  /** A step of one participant: everyone else's pending work still covers the other rooms. */
  lemma {:induction false} StillPending(w: World, d: World, p: nat)
    requires NoneForgotten(w)
    requires forall q | q in w.people && q != p :: q in d.people && d.people[q] == w.people[q]
    requires forall r: nat | Open(d, r) && d.made[r].parts == [] ::
               (p in d.people && Pending(d.people[p], r))
                   || (Open(w, r) && w.made[r].parts == [] && !Pending(w.At(p), r))
    ensures NoneForgotten(d)
  {
    forall r: nat | Open(d, r) && d.made[r].parts == [] ensures exists q :: q in d.people && Pending(d.people[q], r) {
      if !(p in d.people && Pending(d.people[p], r)) {
        var q :| q in w.people && Pending(w.people[q], r);
        assert q != p && Pending(d.people[q], r);
      }
    }
  }

  lemma {:induction false} BeginJoinLists(w: World, p: nat, number: nat)
    requires MapOk(w) && LockOk(w) && PartsOk(w) && LeaveOk(w.At(p))
    ensures PartsOk(OnBeginJoin(w, p, number))
  {
    hide MapOk;
  }

  lemma {:induction false} BeginJoinMapped(w: World, p: nat, number: nat)
    requires MapOk(w) && LockOk(w) && LeaveOk(w.At(p))
    ensures MapOk(OnBeginJoin(w, p, number))
  {
    hide NoDuplicates, Without;
  }

  lemma {:induction false} BeginJoinLock(w: World, p: nat, number: nat)
    requires MapOk(w) && LockOk(w) && LeaveOk(w.At(p))
    ensures LockOk(OnBeginJoin(w, p, number)) && LeaveOk(OnBeginJoin(w, p, number).At(p))
  {
    hide NoDuplicates;
  }

  lemma {:induction false} BeginJoinMap(w: World, p: nat, number: nat)
    requires MapOk(w) && LockOk(w) && LeaveOk(w.At(p))
    ensures MapOk(OnBeginJoin(w, p, number)) && LockOk(OnBeginJoin(w, p, number))
        && LeaveOk(OnBeginJoin(w, p, number).At(p))
  {
    hide MapOk, LockOk, LeaveOk, PartsOk, OnBeginJoin;
    BeginJoinMapped(w, p, number);
    BeginJoinLock(w, p, number);
  }

  lemma {:induction false} BeginJoinOk(w: World, p: nat, number: nat)
    requires RoomsOk(w)
    ensures RoomsOk(OnBeginJoin(w, p, number))
  {
    hide NoneForgotten, PartsOk, LockOk, NoDuplicates;
    var d := OnBeginJoin(w, p, number);
    if d != w {
      BeginJoinLists(w, p, number);
      BeginJoinMap(w, p, number);
      StillPending(w, d, p);
    }
  }

  lemma {:induction false} AddLists(w: World, p: nat)
    requires MapOk(w) && LockOk(w) && PartsOk(w) && LeaveOk(w.At(p))
    ensures PartsOk(OnAdd(w, p))
  {
    hide Mapped, MapOk;
    var d := OnAdd(w, p);
    if d != w {
      hide OnAdd, LockOk, LeaveOk;
      var r := w.At(p).join.room;
      AddedState(w, p);
      assert w.made[r].closes == 0 by { AddsToOpen(w, p); }
      forall q, x | 0 <= q < |d.made|
        ensures x in d.made[q].parts <==> x in d.people && d.people[x].join == In(q) && !d.people[x].removed
      {
        assert x in w.made[q].parts <==> x in w.people && w.people[x].join == In(q) && !w.people[x].removed;
      }
      BothLists(w, d, r);
    }
  }

  lemma AddedState(w: World, p: nat)
    requires OnAdd(w, p) != w && LeaveOk(w.At(p))
    ensures var d, x := OnAdd(w, p), w.At(p);
            && x.join.Adding? && x.join.room < |w.made| && p in w.people && !x.removed
            && d.people == w.people[p := x.(join := In(x.join.room))]
            && d.made == w.made[x.join.room := w.made[x.join.room].(parts := w.made[x.join.room].parts + [p])]
  {}

  lemma AddsToOpen(w: World, p: nat)
    requires LockOk(w) && p in w.people && w.people[p].join.Adding?
    ensures Open(w, w.people[p].join.room)
  {}

  lemma {:induction false} AddMap(w: World, p: nat)
    requires MapOk(w) && LockOk(w) && PartsOk(w) && LeaveOk(w.At(p))
    ensures MapOk(OnAdd(w, p)) && LockOk(OnAdd(w, p)) && LeaveOk(OnAdd(w, p).At(p))
  {
    hide NoDuplicates, PartsOk;
  }

  lemma {:induction false} AddOk(w: World, p: nat)
    requires RoomsOk(w)
    ensures RoomsOk(OnAdd(w, p))
  {
    hide NoneForgotten, PartsOk, LockOk, MapOk, NoDuplicates;
    var d := OnAdd(w, p);
    if d != w {
      AddLists(w, p);
      AddMap(w, p);
      StillPending(w, d, p);
    }
  }

  lemma {:induction false} BeginLeaveLists(w: World, p: nat)
    requires MapOk(w) && LockOk(w) && PartsOk(w) && LeaveOk(w.At(p))
    ensures PartsOk(OnBeginLeave(w, p))
  {
    hide LeaveOk, LockOk;
  }

  lemma {:induction false} BeginLeaveMap(w: World, p: nat)
    requires MapOk(w) && LockOk(w) && PartsOk(w) && LeaveOk(w.At(p))
    ensures MapOk(OnBeginLeave(w, p)) && LockOk(OnBeginLeave(w, p)) && LeaveOk(OnBeginLeave(w, p).At(p))
  {
    hide NoDuplicates, PartsOk;
  }

  lemma {:induction false} BeginLeaveOk(w: World, p: nat)
    requires RoomsOk(w)
    ensures RoomsOk(OnBeginLeave(w, p))
  {
    hide NoneForgotten, PartsOk, LockOk, MapOk, NoDuplicates;
    var d := OnBeginLeave(w, p);
    if d != w {
      BeginLeaveLists(w, p);
      BeginLeaveMap(w, p);
      StillPending(w, d, p);
    }
  }

  /** Rooms other than the one unlinked from. */
  lemma {:induction false} OtherLists(w: World, d: World, r: nat, p: nat)
    requires PartsOk(w) && |d.made| == |w.made| && forall q | 0 <= q < |w.made| && q != r :: d.made[q] == w.made[q]
    requires forall x | x in w.people && x != p :: x in d.people && d.people[x] == w.people[x]
    requires forall x | x in d.people && x != p :: x in w.people
    requires p in w.people && p in d.people && d.people[p].join == w.people[p].join
    requires w.people[p].join.In? ==> w.people[p].join == In(r)
    ensures forall q, x | 0 <= q < |d.made| && q != r ::
              x in d.made[q].parts <==> x in d.people && d.people[x].join == In(q) && !d.people[x].removed
  {
    hide NoDuplicates;
    forall q, x | 0 <= q < |d.made| && q != r
      ensures x in d.made[q].parts <==> x in d.people && d.people[x].join == In(q) && !d.people[x].removed
    {
      assert x in w.made[q].parts <==> x in w.people && w.people[x].join == In(q) && !w.people[x].removed;
    }
  }

  /** The room unlinked from. */
  lemma {:induction false} OwnList(w: World, p: nat)
    requires LockOk(w) && PartsOk(w) && LeaveOk(w.At(p)) && OnUnlink(w, p) != w
    ensures var d, r := OnUnlink(w, p), w.At(p).leave.room;
            && r < |d.made| && NoDuplicates(d.made[r].parts) && (d.made[r].parts != [] ==> w.made[r].parts != [])
            && forall x :: x in d.made[r].parts <==> x in d.people && d.people[x].join == In(r) && !d.people[x].removed
  {
    hide Without;
    var d, r := OnUnlink(w, p), w.At(p).leave.room;
    WithoutMembers(w.made[r].parts, p);
    if d.made[r].parts != [] { assert d.made[r].parts[0] in d.made[r].parts; }
    assert p in w.made[r].parts <==> w.At(p).join == In(r);
    forall x: nat ensures x in d.made[r].parts <==> x in d.people && d.people[x].join == In(r) && !d.people[x].removed {
      assert x in w.made[r].parts <==> x in w.people && w.people[x].join == In(r) && !w.people[x].removed;
    }
  }

  lemma {:induction false} BothLists(w: World, d: World, r: nat)
    requires PartsOk(w) && r < |d.made| == |w.made|
    requires forall q | 0 <= q < |w.made| && q != r :: d.made[q] == w.made[q]
    requires NoDuplicates(d.made[r].parts) && (d.made[r].parts != [] ==> d.made[r].closes == 0)
    requires forall x :: x in d.made[r].parts <==> x in d.people && d.people[x].join == In(r) && !d.people[x].removed
    requires forall q, x | 0 <= q < |d.made| && q != r ::
               x in d.made[q].parts <==> x in d.people && d.people[x].join == In(q) && !d.people[x].removed
    requires forall x | x in d.people && d.people[x].join.In? :: d.people[x].join.room < |d.made|
    ensures PartsOk(d)
  {
    hide NoDuplicates;
  }

  lemma {:induction false} UnlinkLists(w: World, p: nat)
    requires MapOk(w) && LockOk(w) && PartsOk(w) && LeaveOk(w.At(p))
    ensures PartsOk(OnUnlink(w, p))
  {
    hide Without, MapOk, LockOk, NoDuplicates;
    var d := OnUnlink(w, p);
    if d != w {
      var r := w.At(p).leave.room;
      OwnList(w, p);
      assert w.At(p).join.In? ==> w.At(p).join == In(r);
      OtherLists(w, d, r, p);
      BothLists(w, d, r);
    }
  }

  lemma {:induction false} UnlinkMapped(w: World, p: nat)
    requires MapOk(w) && LockOk(w) && LeaveOk(w.At(p)) && PartsOk(w)
    ensures MapOk(OnUnlink(w, p))
  {
    hide NoDuplicates, Without;
  }

  lemma {:induction false} UnlinkLock(w: World, p: nat)
    requires MapOk(w) && LockOk(w) && LeaveOk(w.At(p)) && PartsOk(w)
    ensures LockOk(OnUnlink(w, p)) && LeaveOk(OnUnlink(w, p).At(p))
  {
    hide NoDuplicates, MapOk;
  }

  lemma {:induction false} UnlinkMap(w: World, p: nat)
    requires MapOk(w) && LockOk(w) && LeaveOk(w.At(p)) && PartsOk(w)
    ensures MapOk(OnUnlink(w, p)) && LockOk(OnUnlink(w, p)) && LeaveOk(OnUnlink(w, p).At(p))
  {
    hide MapOk, LockOk, LeaveOk, PartsOk, OnUnlink;
    UnlinkMapped(w, p);
    UnlinkLock(w, p);
  }

  lemma {:induction false} UnlinkOk(w: World, p: nat)
    requires RoomsOk(w)
    ensures RoomsOk(OnUnlink(w, p))
  {
    hide NoneForgotten, NoDuplicates, MapOk, LockOk, PartsOk, Without;
    var d := OnUnlink(w, p);
    if d != w {
      UnlinkLists(w, p);
      UnlinkMap(w, p);
      StillPending(w, d, p);
    }
  }

  lemma {:induction false} CheckLists(w: World, p: nat)
    requires MapOk(w) && LockOk(w) && PartsOk(w) && LeaveOk(w.At(p))
    ensures PartsOk(OnCheck(w, p))
  {
  }

  lemma {:induction false} CheckMap(w: World, p: nat)
    requires MapOk(w) && LockOk(w) && PartsOk(w) && LeaveOk(w.At(p))
    ensures MapOk(OnCheck(w, p)) && LockOk(OnCheck(w, p)) && LeaveOk(OnCheck(w, p).At(p))
  {
    hide NoDuplicates, PartsOk;
  }

  lemma {:induction false} CheckOk(w: World, p: nat)
    requires RoomsOk(w)
    ensures RoomsOk(OnCheck(w, p))
  {
    hide NoneForgotten, PartsOk, LockOk, MapOk, NoDuplicates;
    var d := OnCheck(w, p);
    if d != w {
      CheckLists(w, p);
      CheckMap(w, p);
      StillPending(w, d, p);
    }
  }

  lemma {:induction false} ActLists(w: World, p: nat)
    requires MapOk(w) && LockOk(w) && PartsOk(w) && LeaveOk(w.At(p))
    ensures PartsOk(OnAct(w, p))
  {
    hide MapOk;
  }

  lemma {:induction false} ActMapped(w: World, p: nat)
    requires MapOk(w) && LockOk(w) && LeaveOk(w.At(p)) && PartsOk(w)
    ensures MapOk(OnAct(w, p))
  {
    hide NoDuplicates, Without;
  }

  lemma {:induction false} ActLock(w: World, p: nat)
    requires MapOk(w) && LockOk(w) && LeaveOk(w.At(p)) && PartsOk(w)
    ensures LockOk(OnAct(w, p)) && LeaveOk(OnAct(w, p).At(p))
  {
    hide NoDuplicates;
  }

  lemma {:induction false} ActMap(w: World, p: nat)
    requires MapOk(w) && LockOk(w) && LeaveOk(w.At(p)) && PartsOk(w)
    ensures MapOk(OnAct(w, p)) && LockOk(OnAct(w, p)) && LeaveOk(OnAct(w, p).At(p))
  {
    hide MapOk, LockOk, LeaveOk, PartsOk, OnAct;
    ActMapped(w, p);
    ActLock(w, p);
  }

  lemma {:induction false} ActOk(w: World, p: nat)
    requires RoomsOk(w)
    ensures RoomsOk(OnAct(w, p))
  {
    hide NoneForgotten, PartsOk, LockOk, NoDuplicates;
    var d := OnAct(w, p);
    if d != w {
      ActLists(w, p);
      ActMap(w, p);
      StillPending(w, d, p);
    }
  }

  lemma {:induction false} RunOk(es: seq<Event>)
    ensures RoomsOk(Run(es))
  {
    if es != [] {
      var w := Run(es[..|es| - 1]);
      RunOk(es[..|es| - 1]);
      match es[|es| - 1] {
        case BeginJoin(p, number) => BeginJoinOk(w, p, number);
        case Add(p) => AddOk(w, p);
        case BeginLeave(p) => BeginLeaveOk(w, p);
        case Unlink(p) => UnlinkOk(w, p);
        case Check(p) => CheckOk(w, p);
        case Act(p) => ActOk(w, p);
      }
    }
  }

  // ---- what follows for every run ----

  /** Joins and leaves under way are finished. */
  predicate Quiet(w: World) {
    w.lock.None? && forall p | p in w.people ::
        !w.people[p].join.Adding? && (w.people[p].leave.Here? || w.people[p].leave.Left?)
  }

  /**
   In every interleaving: a room is in the map if and only if its stop channel is open, which is closed at most once;
   whoever joined and was not removed is listed in the mapped room it joined, and nowhere else; and once joins and
   leaves are finished every room in the map has a participant, so no empty room is left running.
   */
  lemma RoomLifecycle(es: seq<Event>, r: nat, p: nat)
    requires r < |Run(es).made|
    ensures var w := Run(es);
            && w.made[r].closes <= 1 && (Mapped(w, r) <==> w.made[r].closes == 0)
            && (w.At(p).join == In(r) && !w.At(p).removed <==> p in w.made[r].parts)
            && (p in w.made[r].parts ==> Mapped(w, r))
            && (Mapped(w, r) && w.made[r].parts == [] ==> exists q :: q in w.people && Pending(w.people[q], r))
            && (Quiet(w) && Mapped(w, r) ==> w.made[r].parts != [])
  {
    hide Run;
    RunOk(es);
    var w := Run(es);
    assert p in w.made[r].parts <==> p in w.people && w.people[p].join == In(r) && !w.people[p].removed;
    if Mapped(w, r) && w.made[r].parts == [] {
      assert Open(w, r);
      var q :| q in w.people && Pending(w.people[q], r);
    }
  }

  /** At some point the participant was unlinked, after its Join had listed it. */
  ghost predicate UnlinkedIn(es: seq<Event>, p: nat) {
    exists j | 0 <= j < |es| && es[j] == Unlink(p) :: Found(Run(es[..j]).At(p))
  }

  predicate Found(x: Person) { x.leave.Unlinking? && x.join.In? }

  /** The unlinking finds a participant if and only if its Join has listed it. */
  lemma {:induction false} UnlinkFinds(w: World, p: nat)
    requires RoomsOk(w) && w.At(p).leave.Unlinking?
    ensures var x := OnUnlink(w, p).At(p); x.leave.Checking? && (x.removed <==> w.At(p).join.In?)
  {
    hide NoneForgotten, NoDuplicates, Without;
    var r := w.At(p).leave.room;
    assert p in w.made[r].parts <==> p in w.people && w.people[p].join == In(r) && !w.people[p].removed;
  }

  lemma {:induction false} RemovedStep(w: World, e: Event, p: nat)
    requires RoomsOk(w)
    ensures Step(w, e).At(p).removed == (w.At(p).removed || (e == Unlink(p) && Found(w.At(p))))
  {
    hide NoneForgotten, MapOk, PartsOk, LockOk, NoDuplicates, Without;
    if e == Unlink(p) && w.At(p).leave.Unlinking? {
      UnlinkFinds(w, p);
      assert p in w.people && LeaveOk(w.people[p]);
    }
  }

  lemma {:induction false} RemovedIff(es: seq<Event>, p: nat)
    ensures Run(es).At(p).removed <==> UnlinkedIn(es, p)
  {
    hide Step, RoomsOk, Found;
    if es != [] {
      var init, e := es[..|es| - 1], es[|es| - 1];
      RemovedIff(init, p);
      RunOk(init);
      RemovedStep(Run(init), e, p);
      forall j | 0 <= j < |init| ensures es[j] == init[j] && es[..j] == init[..j] {}
      assert es[..|init|] == init;
      if UnlinkedIn(init, p) {
        var j :| 0 <= j < |init| && init[j] == Unlink(p) && Found(Run(init[..j]).At(p));
        assert es[j] == Unlink(p) && Found(Run(es[..j]).At(p));
      }
    }
  }

  /**
   Who is listed, in every state of every run: exactly those who joined the room and were not unlinked after that. So a
   participant that has left is still listed if and only if its unlinking, if any, came before its listing.
   */
  lemma ListedIff(es: seq<Event>, r: nat, p: nat)
    requires r < |Run(es).made|
    ensures p in Run(es).made[r].parts <==> Run(es).At(p).join == In(r) && !UnlinkedIn(es, p)
  {
    RoomLifecycle(es, r, p);
    RemovedIff(es, p);
  }

  /** Whoever joined and left was unlinked in between. */
  ghost predicate Orderly(es: seq<Event>) {
    forall p | p in Run(es).people && Run(es).people[p].join.In? && Run(es).people[p].leave.Left? :: UnlinkedIn(es, p)
  }

  /** Every room lists exactly those who joined it and have not left. */
  ghost predicate RoomsTrue(w: World) {
    forall r, p: nat | 0 <= r < |w.made| :: p in w.made[r].parts <==> w.At(p).join == In(r) && w.At(p).leave.Here?
  }

  /** Once joins and leaves are finished the lists are true if and only if the run was orderly. */
  lemma OrderlyRooms(es: seq<Event>)
    requires Quiet(Run(es))
    ensures Orderly(es) <==> RoomsTrue(Run(es))
  {
    hide UnlinkedIn, Run;
    var w := Run(es);
    RunOk(es);
    forall r, p: nat | 0 <= r < |w.made| ensures p in w.made[r].parts <==> w.At(p).join == In(r) && !UnlinkedIn(es, p) {
      ListedIff(es, r, p);
    }
    if Orderly(es) {
      forall r, p: nat | 0 <= r < |w.made|
          ensures p in w.made[r].parts <==> w.At(p).join == In(r) && w.At(p).leave.Here? {
        UnlinkedHasLeft(es, p);
      }
    }
    if RoomsTrue(w) {
      forall p | p in w.people && w.people[p].join.In? && w.people[p].leave.Left? ensures UnlinkedIn(es, p) {
        var r := w.people[p].join.room;
        assert r < |w.made| && !(p in w.made[r].parts);
      }
    }
  }

  lemma UnlinkedHasLeft(es: seq<Event>, p: nat)
    ensures UnlinkedIn(es, p) ==> !Run(es).At(p).leave.Here?
  {
    RunOk(es);
    RemovedIff(es, p);
    if Run(es).At(p).removed { assert LeaveOk(Run(es).people[p]); }
  }

  /** Leaves that begin once their Join has listed the participant make an orderly run. */
  lemma {:induction false} JoinsFirst(es: seq<Event>)
    requires forall i, p | 0 <= i < |es| && es[i] == BeginLeave(p) :: Run(es[..i]).At(p).join.In?
    ensures Orderly(es)
  {
    RunOk(es);
    forall p | p in Run(es).people && Run(es).people[p].join.In? && Run(es).people[p].leave.Left?
        ensures UnlinkedIn(es, p) {
      PromptRun(es, p);
      RemovedIff(es, p);
    }
  }

  /** Removed as soon as the unlinking is done. */
  predicate Prompt(x: Person) {
    x.leave.Here? || (x.join.In? && (x.leave.Unlinking? || x.removed))
  }

  lemma {:induction false} PromptStep(w: World, e: Event, p: nat)
    requires RoomsOk(w) && Prompt(w.At(p)) && (e == BeginLeave(p) ==> w.At(p).join.In?)
    ensures Prompt(Step(w, e).At(p))
  {
    hide NoneForgotten, MapOk, PartsOk, LockOk, NoDuplicates, Without;
    if e == Unlink(p) && w.At(p).leave.Unlinking? { UnlinkFinds(w, p); }
  }

  lemma {:induction false} PromptRun(es: seq<Event>, p: nat)
    requires forall i, q | 0 <= i < |es| && es[i] == BeginLeave(q) :: Run(es[..i]).At(q).join.In?
    ensures Prompt(Run(es).At(p))
  {
    hide Step, RoomsOk;
    if es != [] {
      var init, e := es[..|es| - 1], es[|es| - 1];
      forall i, q | 0 <= i < |init| && init[i] == BeginLeave(q) ensures Run(init[..i]).At(q).join.In? {
        assert es[i] == BeginLeave(q) && init[..i] == es[..i];
      }
      PromptRun(init, p);
      RunOk(init);
      assert es[|init|] == e && es[..|init|] == init;
      PromptStep(Run(init), e, p);
    }
  }

  /**
   When all who joined have left: the map is empty if and only if the run was orderly, and then every room ever made
   was stopped, once.
   */
  lemma AllGone(es: seq<Event>)
    requires Quiet(Run(es))
    requires forall p | p in Run(es).people && Run(es).people[p].join.In? :: Run(es).people[p].leave.Left?
    ensures Orderly(es) <==> Run(es).rooms == map[]
    ensures Orderly(es) <==> forall r | 0 <= r < |Run(es).made| :: Run(es).made[r].closes == 1
  {
    hide UnlinkedIn;
    var w := Run(es);
    RunOk(es);
    OrderlyRooms(es);
    MappedOpen(w);
    forall r: nat | r < |w.made| ensures w.made[r].closes == 1 <==> w.made[r].parts == [] {
      RoomLifecycle(es, r, 0);
    }
    if forall r | 0 <= r < |w.made| :: w.made[r].closes == 1 {
      assert RoomsTrue(w);
    } else {
      var r :| 0 <= r < |w.made| && w.made[r].closes != 1;
      assert w.made[r].parts[0] in w.made[r].parts;
      assert !RoomsTrue(w) by { ListedIff(es, r, w.made[r].parts[0]); }
    }
  }

  /** The map is empty exactly when every room is stopped. */
  lemma MappedOpen(w: World)
    requires MapOk(w)
    ensures w.rooms == map[] <==> forall r | 0 <= r < |w.made| :: w.made[r].closes == 1
  {
    if w.rooms == map[] {
      assert forall r | 0 <= r < |w.made| :: !Mapped(w, r);
    } else if forall r | 0 <= r < |w.made| :: w.made[r].closes == 1 {
      forall n ensures n !in w.rooms {
        if n in w.rooms { assert Mapped(w, w.rooms[n]); }
      }
    }
  }

  /** Nothing brings a participant back from Left, and then nothing removes it. */
  lemma {:induction false} LeftStays(w: World, e: Event, p: nat)
    requires w.At(p).leave == Left && !w.At(p).removed
    ensures Step(w, e).At(p).leave == Left && !Step(w, e).At(p).removed
  {
    hide Without;
  }

  /**
   The order matters: Join does not look at whether its participant has left, so one whose Leave came first is listed
   from its Join on, and its room never stops.
   */
  lemma {:induction false} LeaveBeforeJoinStays(es: seq<Event>, more: seq<Event>, p: nat)
    requires Run(es).At(p).join == NotYet && Run(es).At(p).leave == Left
    ensures var w := Run(es + more);
            && w.At(p).leave == Left && !w.At(p).removed
            && (w.At(p).join.In? ==>
                   w.At(p).join.room < |w.made| && p in w.made[w.At(p).join.room].parts
                   && Mapped(w, w.At(p).join.room))
  {
    hide Step, NoneForgotten, LockOk, NoDuplicates;
    var w := Run(es + more);
    RunOk(es + more);
    if more == [] {
      assert es + more == es;
      RunOk(es);
      if p in w.people { assert LeaveOk(w.people[p]); }
    } else {
      var init := more[..|more| - 1];
      LeaveBeforeJoinStays(es, init, p);
      assert (es + more)[..|es + more| - 1] == es + init;
      LeftStays(Run(es + init), more[|more| - 1], p);
      if w.At(p).join.In? {
        var r := w.At(p).join.room;
        assert p in w.made[r].parts <==> p in w.people && w.people[p].join == In(r) && !w.people[p].removed;
      }
    }
  }

  /** It happens: a phone that hangs up before it was put in its room. */
  lemma LeaveBeforeJoin(p: nat, number: nat)
    ensures var w := Run([BeginLeave(p), BeginJoin(p, number), Add(p)]);
            Quiet(w) && w.At(p).leave == Left && w.rooms == map[number := 0] && w.made == [RoomState(number, [p], 0)]
  {
    var a, b, c := BeginLeave(p), BeginJoin(p, number), Add(p);
    assert [a][..0] == [] && [a, b][..1] == [a] && [a, b, c][..2] == [a, b];
    var w1, w2 := Run([a]), Run([a, b]);
    assert Run([]) == EMPTY && EMPTY.At(p) == STRANGER;
    assert w1 == World(map[], [], map[p := Person(NotYet, Left, false)], None);
    assert w2 == World(map[number := 0], [RoomState(number, [], 0)], map[p := Person(Adding(0), Left, false)],
        Some(Joiner(p)));
    assert [] + [p] == [p] && w2.made[0 := RoomState(number, [p], 0)] == [RoomState(number, [p], 0)];
  }

  // ---- a join or leave that nothing interrupts ----

  lemma JoinUninterrupted(w: World, p: nat, number: nat)
    requires RoomsOk(w) && w.lock.None? && w.At(p).join == NotYet
    ensures var d := OnAdd(OnBeginJoin(w, p, number), p);
            && d.rooms.Keys == w.rooms.Keys + {number} && d.lock.None? && d.rooms[number] < |d.made|
            && d.made[d.rooms[number]].parts == (if number in w.rooms then w.made[w.rooms[number]].parts else []) + [p]
            && forall r | 0 <= r < |w.made| && r != d.rooms[number] :: d.made[r] == w.made[r]
  {
    hide LockOk, PartsOk, NoneForgotten, LeaveOk;
    var d := OnBeginJoin(w, p, number);
    assert d.At(p).join == Adding(d.rooms[number]) && d.rooms[number] < |d.made|;
  }

  lemma LeaveUninterrupted(w: World, p: nat, r: nat)
    requires RoomsOk(w) && w.lock.None? && w.At(p).leave == Here && w.At(p).join == In(r) && r < |w.made|
    ensures var d := OnAct(OnCheck(OnUnlink(OnBeginLeave(w, p), p), p), p);
            var parts := Without(w.made[r].parts, p);
            && |d.made| == |w.made| && d.lock.None? && d.made[r].parts == parts
            && (d.made[r].closes == 1 <==> parts == [])
            && d.rooms == if parts == [] then w.rooms - {w.made[r].number} else w.rooms
  {
    hide NoneForgotten, NoDuplicates, Without, LockOk;
    assert p in w.people && LeaveOk(w.people[p]);
    assert p in w.made[r].parts && Mapped(w, r);
  }
}
