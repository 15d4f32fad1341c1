/**
 Received audio waiting to be mixed (the fifo of a conference participant, internal/conference/conference.go): decoded
 samples go in at the back, the oldest are dropped beyond 100 ms, and each tick takes one frame from the front.
 */
module Fifo {
  import opened Basics
  import opened Audio

  const MAX_BUFFER := 5 * FRAME

  function Newest(q: seq<Sample>, n: nat): seq<Sample> {
    if |q| > n then q[|q| - n..] else q
  }

  /** A slice: its storage, of which the first len are in use. */
  class Buffer {
    var data: array<Sample>
    var len: nat

    ghost predicate Valid()
      reads this
    {
      len <= data.Length
    }

    ghost function Contents(): seq<Sample>
      requires Valid()
      reads this, data
    {
      data[..len]
    }

    constructor ()
      ensures Valid() && fresh(data) && Contents() == []
    {
      data, len := new Sample[0], 0;
    }

    /** Makes room for n more samples, in larger storage when needed. */
    method Grow(n: nat)
      requires Valid()
      modifies this`data
      ensures Valid() && (data == old(data) || fresh(data)) && len + n <= data.Length
      ensures Contents() == old(Contents())
    {
      if len + n > data.Length {
        var bigger := new Sample[len + n](i => 0);
        for i := 0 to len
          modifies bigger
          invariant forall k | 0 <= k < i :: bigger[k] == data[k]
        {
          bigger[i] := data[i];
        }
        data := bigger;
      }
    }

    /** Decode: append. */
    method Append(xs: seq<Sample>)
      requires Valid()
      modifies this, data
      ensures Valid() && (data == old(data) || fresh(data))
      ensures Contents() == old(Contents()) + xs
    {
      Grow(|xs|);
      for i := 0 to |xs|
        invariant len == old(len) && len + |xs| <= data.Length
        invariant data == old(data) || fresh(data)
        invariant data[..len + i] == old(Contents()) + xs[..i]
      {
        data[len + i] := xs[i];
      }
      len := len + |xs|;
    }

    /** Shifts the samples from n on to the front, in place. */
    method DropFront(n: nat)
      requires Valid() && n <= len
      modifies this`len, data
      ensures Valid() && Contents() == old(Contents())[n..]
    {
      for i := 0 to len - n
        invariant len == old(len)
        invariant forall j | 0 <= j < i :: data[j] == old(data[j + n])
        invariant forall j | i <= j < data.Length :: data[j] == old(data[j])
      {
        data[i] := data[i + n];
      }
      len := len - n;
    }

    method Receive(xs: seq<Sample>)
      requires Valid()
      modifies this, data
      ensures Valid() && (data == old(data) || fresh(data))
      ensures Contents() == Newest(old(Contents()) + xs, MAX_BUFFER)
    {
      Append(xs);
      if len > MAX_BUFFER {
        DropFront(len - MAX_BUFFER);
      }
    }

    /** One tick's turn: a frame from an admitted participant who has one; a waiting one is not heard. */
    method Take(admitted: bool) returns (frame: Option<seq<Sample>>)
      requires Valid()
      modifies this`len, data
      ensures Valid() && (Contents(), frame) == Taken(old(Contents()), admitted)
    {
      frame := None;
      if admitted {
        if len >= FRAME {
          frame := Some(data[..FRAME]);
          assert old(Contents())[..FRAME] == data[..FRAME];
          DropFront(FRAME);
        }
      } else {
        len := 0;
      }
    }
  }

  function Taken(q: seq<Sample>, admitted: bool): (seq<Sample>, Option<seq<Sample>>) {
    if !admitted then ([], None)
    else if |q| >= FRAME then (q[FRAME..], Some(q[..FRAME]))
    else (q, None)
  }

  // ---- as a view of the stream ----

  datatype Event = Received(xs: seq<Sample>) | Ticked(admitted: bool)

  datatype State = State(queue: seq<Sample>, frames: seq<seq<Sample>>)

  function Step(s: State, e: Event): State {
    match e
    case Received(xs) => s.(queue := Newest(s.queue + xs, MAX_BUFFER))
    case Ticked(admitted) =>
      var (q, f) := Taken(s.queue, admitted);
      State(q, if f.Some? then s.frames + [f.value] else s.frames)
  }

  function Run(es: seq<Event>): State {
    if es == [] then State([], []) else Step(Run(es[..|es| - 1]), es[|es| - 1])
  }

  /** Everything decoded so far. */
  function Stream(es: seq<Event>): seq<Sample> {
    if es == [] then []
    else
      var e := es[|es| - 1];
      if e.Received? then Stream(es[..|es| - 1]) + e.xs else Stream(es[..|es| - 1])
  }

  /** How much of the stream is gone: played, too old, or heard while waiting for the PIN. */
  function Gone(es: seq<Event>): nat {
    if es == [] then 0
    else
      var init := es[..|es| - 1];
      match es[|es| - 1]
      case Received(xs) => if |Stream(es)| > Gone(init) + 800 then |Stream(es)| - 800 else Gone(init)
      case Ticked(admitted) =>
        if !admitted then |Stream(es)|
        else if |Stream(es)| >= Gone(init) + 160 then Gone(init) + 160
        else Gone(init)
  }

  /** Where in the stream the frames taken begin. */
  function Places(es: seq<Event>): seq<nat> {
    if es == [] then []
    else
      var init := es[..|es| - 1];
      Places(init) + if es[|es| - 1] == Ticked(true) && |Stream(es)| >= Gone(init) + 160 then [Gone(init)] else []
  }

  ghost predicate FramesAt(frames: seq<seq<Sample>>, places: seq<nat>, stream: seq<Sample>, gone: nat) {
    && |frames| == |places|
    && (forall k | 0 <= k < |places| :: places[k] + 160 <= gone)
    && (forall k, l | 0 <= k < l < |places| :: places[k] + 160 <= places[l])
    && (gone <= |stream|)
    && (forall k | 0 <= k < |places| :: frames[k] == stream[places[k]..places[k] + 160])
  }

  lemma MoreStream(frames: seq<seq<Sample>>, places: seq<nat>, stream: seq<Sample>, gone: nat, xs: seq<Sample>,
      later: nat)
    requires FramesAt(frames, places, stream, gone) && gone <= later <= |stream + xs|
    ensures FramesAt(frames, places, stream + xs, later)
  {
    forall k | 0 <= k < |places| ensures frames[k] == (stream + xs)[places[k]..places[k] + FRAME] {
      assert (stream + xs)[..|stream|] == stream;
      assert (stream + xs)[places[k]..places[k] + FRAME] == stream[places[k]..places[k] + FRAME];
    }
  }

  lemma MoreFrames(frames: seq<seq<Sample>>, places: seq<nat>, stream: seq<Sample>, gone: nat)
    requires FramesAt(frames, places, stream, gone) && gone + FRAME <= |stream|
    ensures FramesAt(frames + [stream[gone..gone + FRAME]], places + [gone], stream, gone + FRAME)
  {}

  lemma NewestIsEnd(s: seq<Sample>, g: nat, xs: seq<Sample>)
    requires g <= |s|
    ensures Newest(s[g..] + xs, 800) == (s + xs)[if |s + xs| > g + 800 then |s + xs| - 800 else g..]
  {
    assert s[g..] + xs == (s + xs)[g..];
    if |s + xs| > g + 800 {
      assert (s + xs)[g..][|s + xs| - g - 800..] == (s + xs)[|s + xs| - 800..];
    }
  }

  lemma {:induction false} ReceivedTrace(es: seq<Event>, xs: seq<Sample>)
    requires es != [] && es[|es| - 1] == Received(xs)
    requires var init := es[..|es| - 1]; Traced(init)
    ensures Traced(es)
  {
    hide FramesAt, Newest;
    var init := es[..|es| - 1];
    var s, g := Stream(init), Gone(init);
    NewestIsEnd(s, g, xs);
    MoreStream(Run(init).frames, Places(init), s, g, xs, Gone(es));
    assert Places(es) == Places(init) + [] == Places(init);
  }

  lemma {:induction false} TickedTrace(es: seq<Event>, admitted: bool)
    requires es != [] && es[|es| - 1] == Ticked(admitted)
    requires var init := es[..|es| - 1]; Traced(init)
    ensures Traced(es)
  {
    hide FramesAt;
    var init := es[..|es| - 1];
    var s, g := Stream(init), Gone(init);
    if admitted && |s| >= g + FRAME {
      MoreFrames(Run(init).frames, Places(init), s, g);
      assert s[g..][..FRAME] == s[g..g + FRAME] && s[g..][FRAME..] == s[g + FRAME..];
    } else {
      assert s + [] == s && s[|s|..] == [] && Places(es) == Places(init) + [] == Places(init);
      MoreStream(Run(init).frames, Places(init), s, g, [], Gone(es));
    }
  }

  /**
   The buffer is the end of the decoded stream, at most 800 samples of it, and the frames taken are whole slices of
   the stream, in order, none overlapping another or what is still waiting.
   */
  ghost predicate Traced(es: seq<Event>) {
    && Gone(es) <= |Stream(es)| && Run(es).queue == Stream(es)[Gone(es)..] && |Run(es).queue| <= 800
    && FramesAt(Run(es).frames, Places(es), Stream(es), Gone(es))
  }

  /** So it is after any packets and ticks. */
  lemma {:induction false} BufferTrace(es: seq<Event>)
    ensures Traced(es)
  {
    if es != [] {
      BufferTrace(es[..|es| - 1]);
      match es[|es| - 1] {
        case Received(xs) => ReceivedTrace(es, xs);
        case Ticked(admitted) => TickedTrace(es, admitted);
      }
    }
  }
}
