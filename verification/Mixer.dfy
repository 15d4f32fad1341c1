/**
 The conference mixer (room.tick, internal/conference/conference.go): one pass takes a frame from every admitted
 participant, a second gives everyone the sum of the others. Between the passes, and between participants, anything
 may happen to a participant; so the second pass is stated for any state it finds.
 */
module Mixer {
  import opened Basics
  import opened Audio
  import Fifo

  const PIN_TIMEOUT := 30_000
  const REPROMPT := 3_000

  /** As many frames as a 32-bit sum can always hold. */
  const MAX_SPEAKERS := 65536

  // ---- sums ----

  type Frame = seq<Sample>

  function At(f: Option<Frame>, j: nat): Sample {
    if f.Some? && j < |f.value| then f.value[j] else 0
  }

  function Total(frames: seq<Option<Frame>>, j: nat): int {
    if frames == [] then 0 else Total(frames[..|frames| - 1], j) + At(frames[|frames| - 1], j)
  }

  /** What everyone but the i-th says. */
  function Others(frames: seq<Option<Frame>>, i: nat, j: nat): int
    requires i < |frames|
  {
    Total(frames[..i] + frames[i + 1..], j)
  }

  /** How many frames there are: silent participants have none. */
  function Speakers(frames: seq<Option<Frame>>): nat {
    if frames == [] then 0 else Speakers(frames[..|frames| - 1]) + if frames[|frames| - 1].Some? then 1 else 0
  }

  lemma {:induction false} TotalBounds(frames: seq<Option<Frame>>, j: nat)
    ensures -0x8000 * Speakers(frames) <= Total(frames, j) <= 0x7FFF * Speakers(frames)
  {
    if frames != [] {
      TotalBounds(frames[..|frames| - 1], j);
    }
  }

  /** Partial sums stay within 32 bits, however many participants are listed, while few enough have a frame. */
  lemma TotalFits(frames: seq<Option<Frame>>, j: nat)
    requires Speakers(frames) <= MAX_SPEAKERS
    ensures -0x8000_0000 <= Total(frames, j) < 0x8000_0000
  {
    TotalBounds(frames, j);
  }

  /** n participants at full negative level. */
  function Loud(n: nat): seq<Option<Frame>> {
    if n == 0 then [] else Loud(n - 1) + [Some(seq(FRAME, j => -0x8000))]
  }

  lemma {:induction false} LoudTotal(n: nat)
    ensures Speakers(Loud(n)) == n && Total(Loud(n), 0) == -0x8000 * n
  {
    if n > 0 {
      LoudTotal(n - 1);
      assert Loud(n)[..|Loud(n)| - 1] == Loud(n - 1);
    }
  }

  ghost predicate FitsAll(n: nat) {
    forall frames: seq<Option<Frame>>, j: nat | Speakers(frames) <= n :: -0x8000_0000 <= Total(frames, j) < 0x8000_0000
  }

  /** No bound on the frames is better: one more can leave 32 bits. */
  lemma SumsFitIff(n: nat)
    ensures FitsAll(n) <==> n <= MAX_SPEAKERS
  {
    if n <= MAX_SPEAKERS {
      forall frames: seq<Option<Frame>>, j: nat | Speakers(frames) <= n
        ensures -0x8000_0000 <= Total(frames, j) < 0x8000_0000
      {
        TotalFits(frames, j);
      }
    } else {
      LoudTotal(n);
    }
  }

  lemma {:induction false} TotalOfBoth(a: seq<Option<Frame>>, b: seq<Option<Frame>>, j: nat)
    ensures Total(a + b, j) == Total(a, j) + Total(b, j)
  {
    if b == [] {
      assert a + b == a;
    } else {
      TotalOfBoth(a, b[..|b| - 1], j);
      assert (a + b)[..|a + b| - 1] == a + b[..|b| - 1];
    }
  }

  lemma {:induction false} SpeakersOfBoth(a: seq<Option<Frame>>, b: seq<Option<Frame>>)
    ensures Speakers(a + b) == Speakers(a) + Speakers(b)
  {
    if b == [] {
      assert a + b == a;
    } else {
      SpeakersOfBoth(a, b[..|b| - 1]);
      assert (a + b)[..|a + b| - 1] == a + b[..|b| - 1];
    }
  }

  lemma FewerOthers(frames: seq<Option<Frame>>, i: nat)
    requires i < |frames|
    ensures Speakers(frames[..i] + frames[i + 1..]) <= Speakers(frames)
  {
    hide Speakers;
    var a, own, b := frames[..i], [frames[i]], frames[i + 1..];
    assert frames == a + own + b;
    SpeakersOfBoth(a + own, b);
    SpeakersOfBoth(a, own);
    SpeakersOfBoth(a, b);
  }

  /** Taking one's own sample off the total leaves the sum of the others. */
  lemma TotalLessOwn(frames: seq<Option<Frame>>, i: nat, j: nat)
    requires i < |frames|
    ensures Total(frames, j) - At(frames[i], j) == Others(frames, i, j)
  {
    var a, own, b := frames[..i], [frames[i]], frames[i + 1..];
    assert frames == a + own + b && own[..0] == [];
    TotalOfBoth(a + own, b, j);
    TotalOfBoth(a, own, j);
    TotalOfBoth(a, b, j);
  }

  // ---- one participant ----

  datatype State = State(fifo: seq<Sample>, admitted: bool, tones: seq<Sample>, musicPos: nat, waitingSince: int,
      lastPrompt: int)

  /** The first pass's frame and what is left in the buffer. */
  function Collected(v: State): (State, Option<Frame>) {
    var (q, f) := Fifo.Taken(v.fifo, v.admitted);
    (v.(fifo := q), f)
  }

  /** What the room sounds like while the second pass runs: the sums, how many were admitted, and the clock. */
  datatype Room = Room(total: seq<Int32>, admitted: nat, music: seq<Sample>, prompt: seq<Sample>, now: int)

  datatype Output = Kicked(reason: string) | Sent(pcm: seq<Sample>)

  /** Go's division of a sample by two: toward zero. */
  function Half(s: Sample): Sample {
    var v: int := s;
    if v >= 0 then v / 2 else -(-v / 2)
  }

  /** k counted round and round a length n. */
  function Wrap(k: nat, n: nat): (w: nat)
    requires n > 0
    ensures w < n
  {
    if k < n then k else Wrap(k - n, n)
  }

  lemma {:induction false} WrapNext(k: nat, n: nat)
    requires n > 0
    ensures Wrap(k + 1, n) == if Wrap(k, n) + 1 < n then Wrap(k, n) + 1 else 0
  {
    if k < n {
      if k + 1 == n { assert Wrap(n, n) == 0; }
    } else {
      WrapNext(k - n, n);
    }
  }

  lemma ModOnce(k: nat, n: nat)
    requires 0 < k <= n
    ensures k % n == if k < n then k else 0
  {}

  /** A frame of music, looping from a position, at half volume. */
  function MusicFrom(music: seq<Sample>, pos: nat): Frame
    requires music != []
  {
    seq<Sample>(FRAME, j requires 0 <= j < FRAME => Half(music[Wrap(pos + j, |music|)]))
  }

  predicate RoomFits(r: Room, own: Option<Frame>) {
    |r.total| == FRAME && forall j | 0 <= j < FRAME :: -0x8000_0000 <= r.total[j] - At(own, j) < 0x8000_0000
  }

  /** The total less one's own frame. */
  function MixFor(r: Room, own: Option<Frame>): Frame
    requires RoomFits(r, own)
  {
    seq(FRAME, j requires 0 <= j < FRAME => ClipDifference(r.total[j], At(own, j)))
  }

  function ClipDifference(v: Int32, s: Sample): Sample
    requires -0x8000_0000 <= (v as int) - (s as int) < 0x8000_0000
  {
    Clip((v as int) - (s as int))
  }

  function Silence(): Frame { seq(FRAME, j => 0) }

  /** A frame for a participant as the second pass finds it, before tones; and its new place in the music. */
  function PreTone(v: State, r: Room, own: Option<Frame>): (Frame, nat)
    requires RoomFits(r, own)
  {
    if !v.admitted then (Silence(), v.musicPos)
    else if r.admitted == 1 && r.music != [] then (MusicFrom(r.music, v.musicPos), Wrap(v.musicPos + FRAME, |r.music|))
    else (MixFor(r, own), v.musicPos)
  }

  /** A waiting participant with nothing to hear is asked again. */
  function Prompted(v: State, r: Room): State {
    if !v.admitted && v.tones == [] && r.now - v.lastPrompt >= REPROMPT then v.(tones := r.prompt, lastPrompt := r.now)
    else v
  }

  function Min(a: nat, b: nat): nat { if a < b then a else b }

  function Rendered(v: State, r: Room, own: Option<Frame>, idle: bool): (State, Output)
    requires RoomFits(r, own)
  {
    if !v.admitted && r.now - v.waitingSince > PIN_TIMEOUT then (v, Kicked("no PIN entered"))
    else
      var p := Prompted(v, r);
      var out := PreTone(p, r, own);
      var k := Min(|p.tones|, FRAME);
      (p.(musicPos := out.1, tones := p.tones[k..]),
          if idle then Kicked("no audio") else Sent(Mixed(out.0, p.tones[..k])))
  }

  lemma {:induction false} MixedPart(pcm: seq<Sample>, tones: seq<Sample>)
    requires |tones| <= |pcm|
    ensures Mixed(pcm, tones) == Mixed(pcm[..|tones|], tones) + pcm[|tones|..]
  {}

  class Participant {
    var fifo: seq<Sample>
    var admitted: bool
    var tones: seq<Sample>
    var musicPos: nat
    var waitingSince: int
    var lastPrompt: int

    function View(): State
      reads this
    {
      State(fifo, admitted, tones, musicPos, waitingSince, lastPrompt)
    }

    /** Its part of the first pass. */
    method Collect() returns (frame: Option<Frame>)
      modifies this`fifo
      ensures (View(), frame) == Collected(old(View()))
    {
      frame := None;
      if admitted {
        if |fifo| >= FRAME {
          frame := Some(fifo[..FRAME]);
          fifo := fifo[FRAME..];
        }
      } else {
        fifo := [];
      }
    }

    /** Its part of the second. */
    method Render(r: Room, own: Option<Frame>, idle: bool) returns (o: Output)
      requires RoomFits(r, own) && (own.Some? ==> |own.value| == FRAME) && (r.music != [] ==> musicPos < |r.music|)
      modifies this
      ensures r.music != [] ==> musicPos < |r.music|
      ensures (View(), o) == Rendered(old(View()), r, own, idle)
    {
      hide MixFor, MusicFrom, Mixed, Wrap, RoomFits;
      var out := new Sample[FRAME](j => 0);
      assert out[..] == Silence();
      if !admitted {
        if r.now - waitingSince > PIN_TIMEOUT {
          return Kicked("no PIN entered");
        }
        if |tones| == 0 && r.now - lastPrompt >= REPROMPT {
          tones := tones + r.prompt;
          lastPrompt := r.now;
          assert [] + r.prompt == r.prompt;
        }
      } else if r.admitted == 1 && |r.music| > 0 {
        PlayMusic(out, r.music);
      } else {
        PlayRoom(out, r, own);
      }
      PlayTones(out);
      if idle { return Kicked("no audio"); }
      return Sent(out[..]);
    }

    method PlayRoom(out: array<Sample>, r: Room, own: Option<Frame>)
      requires out.Length == FRAME && RoomFits(r, own) && (own.Some? ==> |own.value| == FRAME)
      modifies out
      ensures out[..] == MixFor(r, own)
    {
      for j := 0 to FRAME
        invariant forall m | 0 <= m < j :: out[m] == MixFor(r, own)[m]
      {
        var v: Int32 := r.total[j];
        // Never hear yourself.
        if own.Some? { v := v - own.value[j]; }
        out[j] := Clip(v);
      }
    }

    method PlayTones(out: array<Sample>)
      requires out.Length == FRAME
      modifies this`tones, out
      ensures var k := Min(|old(tones)|, FRAME);
              tones == old(tones)[k..] && out[..] == Mixed(old(out[..]), old(tones)[..k])
    {
      var n := |tones|;
      if n > 0 {
        var k := Min(n, FRAME);
        MixedPart(out[..], tones[..k]);
        assert out[..][..k] == out[..k] && out[..][k..] == out[k..];
        MixInto(out, k, tones[..k]);
        tones := tones[k..];
      } else {
        assert Mixed(out[..], []) == out[..];
      }
    }

    method PlayMusic(out: array<Sample>, music: seq<Sample>)
      requires out.Length == FRAME && musicPos < |music|
      modifies this`musicPos, out
      ensures out[..] == MusicFrom(music, old(musicPos)) && musicPos == Wrap(old(musicPos) + FRAME, |music|)
    {
      for j := 0 to FRAME
        invariant forall m | 0 <= m < j :: out[m] == Half(music[Wrap(old(musicPos) + m, |music|)])
        invariant musicPos == Wrap(old(musicPos) + j, |music|)
      {
        WrapNext(old(musicPos) + j, |music|);
        ModOnce(musicPos + 1, |music|);
        out[j] := Half(music[musicPos]);
        musicPos := (musicPos + 1) % |music|;
      }
    }
  }

  // ---- the first pass ----

  function CountAdmitted(ss: seq<State>): nat {
    if ss == [] then 0 else CountAdmitted(ss[..|ss| - 1]) + if ss[|ss| - 1].admitted then 1 else 0
  }

  ghost function AdmittedIn(ss: seq<State>): set<nat> { set i: nat | i < |ss| && ss[i].admitted }

  /** As many as are admitted. */
  lemma {:induction false} CountIs(ss: seq<State>)
    ensures CountAdmitted(ss) == |AdmittedIn(ss)|
  {
    if ss == [] {
      assert AdmittedIn(ss) == {};
    } else {
      var init := ss[..|ss| - 1];
      CountIs(init);
      assert AdmittedIn(ss) == AdmittedIn(init) + if ss[|init|].admitted then {|init|} else {};
    }
  }

  /** Adds one frame to the sums, in place; no partial sum leaves 32 bits. */
  method AddFrame(sum: array<Int32>, f: Frame, ghost before: seq<Option<Frame>>)
    requires sum.Length == FRAME == |f| && Speakers(before) < MAX_SPEAKERS
    requires forall j | 0 <= j < FRAME :: sum[j] == Total(before, j)
    modifies sum
    ensures forall j | 0 <= j < FRAME :: sum[j] == Total(before + [Some(f)], j)
  {
    assert (before + [Some(f)])[..|before|] == before;
    for j := 0 to FRAME
      invariant forall m | 0 <= m < j :: sum[m] == Total(before + [Some(f)], m)
      invariant forall m | j <= m < FRAME :: sum[m] == Total(before, m)
    {
      SpeakersOfBoth(before, [Some(f)]);
      assert [Some(f)][..0] == [];
      TotalFits(before + [Some(f)], j);
      sum[j] := (sum[j] as int) + (f[j] as int);
    }
  }

  ghost predicate NoRepeats(parts: seq<Participant>) {
    forall i, k | 0 <= i < k < |parts| :: parts[i] != parts[k]
  }

  ghost function States(parts: seq<Participant>): (ss: seq<State>)
    reads parts
    ensures |ss| == |parts| && forall i | 0 <= i < |parts| :: ss[i] == parts[i].View()
  {
    if parts == [] then [] else [parts[0].View()] + States(parts[1..])
  }

  /** How many will have a frame. */
  function Ready(ss: seq<State>): nat {
    if ss == [] then 0
    else Ready(ss[..|ss| - 1]) + if Collected(ss[|ss| - 1]).1.Some? then 1 else 0
  }

  lemma ReadyNext(ss: seq<State>, i: nat)
    requires i < |ss|
    ensures Ready(ss[..i + 1]) == Ready(ss[..i]) + if Collected(ss[i]).1.Some? then 1 else 0
  {
    assert ss[..i + 1][..i] == ss[..i];
  }

  lemma {:induction false} ReadyUpTo(ss: seq<State>, i: nat)
    requires i <= |ss|
    ensures Ready(ss[..i]) <= Ready(ss)
    decreases |ss| - i
  {
    if i == |ss| {
      assert ss[..i] == ss;
    } else {
      ReadyNext(ss, i);
      ReadyUpTo(ss, i + 1);
    }
  }

  lemma SpeakersNext(frames: seq<Option<Frame>>, f: Option<Frame>)
    ensures Speakers(frames + [f]) == Speakers(frames) + if f.Some? then 1 else 0
  {
    assert (frames + [f])[..|frames|] == frames;
  }

  method CollectAll(parts: seq<Participant>) returns (frames: seq<Option<Frame>>, sum: array<Int32>, admitted: nat)
    requires NoRepeats(parts) && Ready(States(parts)) <= MAX_SPEAKERS
    modifies parts
    ensures |frames| == |parts| && fresh(sum) && sum.Length == FRAME
    ensures forall i | 0 <= i < |parts| :: (parts[i].View(), frames[i]) == Collected(old(States(parts))[i])
    ensures forall j | 0 <= j < FRAME :: sum[j] == Total(frames, j)
    ensures admitted == CountAdmitted(old(States(parts)))
  {
    hide Total, CountAdmitted, Ready, Speakers, Collected, States;
    ghost var ss := States(parts);
    frames := [];
    sum := new Int32[FRAME](j => 0);
    admitted := 0;
    StartCounts(ss);
    for i := 0 to |parts|
      invariant |frames| == i && fresh(sum) && sum.Length == FRAME
      invariant forall k | 0 <= k < i :: (parts[k].View(), frames[k]) == Collected(ss[k])
      invariant forall k | i <= k < |parts| :: parts[k].View() == ss[k]
      invariant forall j | 0 <= j < FRAME :: sum[j] == Total(frames, j)
      invariant admitted == CountAdmitted(ss[..i]) && Speakers(frames) == Ready(ss[..i])
    {
      var p := parts[i];
      CountNext(ss, i);
      ReadyNext(ss, i);
      ReadyUpTo(ss, i + 1);
      if p.admitted { admitted := admitted + 1; }
      var f := p.Collect();
      CollectedFrame(ss[i]);
      SpeakersNext(frames, f);
      if f.Some? {
        AddFrame(sum, f.value, frames);
      } else {
        TotalSilent(frames);
      }
      frames := frames + [f];
    }
    assert ss[..|parts|] == ss;
  }

  lemma CollectedFrame(v: State)
    ensures Collected(v).1.Some? ==> |Collected(v).1.value| == FRAME
  {}

  lemma StartCounts(ss: seq<State>)
    ensures CountAdmitted(ss[..0]) == 0 && Ready(ss[..0]) == 0 && Speakers([]) == 0 && forall j :: Total([], j) == 0
  {}

  lemma CountNext(ss: seq<State>, i: nat)
    requires i < |ss|
    ensures CountAdmitted(ss[..i + 1]) == CountAdmitted(ss[..i]) + if ss[i].admitted then 1 else 0
  {
    assert ss[..i + 1][..i] == ss[..i];
  }

  lemma TotalSilent(frames: seq<Option<Frame>>)
    ensures forall j :: Total(frames + [None], j) == Total(frames, j)
  {
    assert (frames + [None])[..|frames|] == frames;
  }

  // ---- mix-minus ----

  /** The room's state for the second pass: the sums of the frames taken in the first. */
  ghost predicate Heard(r: Room, frames: seq<Option<Frame>>) {
    && Speakers(frames) <= MAX_SPEAKERS && |r.total| == FRAME
    && (forall k | 0 <= k < |frames| && frames[k].Some? :: |frames[k].value| == FRAME)
    && (forall j | 0 <= j < FRAME :: r.total[j] == Total(frames, j))
  }

  lemma HeardFits(r: Room, frames: seq<Option<Frame>>, i: nat)
    requires Heard(r, frames) && i < |frames|
    ensures RoomFits(r, frames[i])
  {
    forall j | 0 <= j < FRAME ensures -0x8000_0000 <= r.total[j] - At(frames[i], j) < 0x8000_0000 {
      TotalLessOwn(frames, i, j);
      FewerOthers(frames, i);
      TotalFits(frames[..i] + frames[i + 1..], j);
    }
  }

  function OthersMixed(frames: seq<Option<Frame>>, i: nat): Frame
    requires i < |frames| && Speakers(frames) <= MAX_SPEAKERS
  {
    seq<Sample>(FRAME, j requires 0 <= j < FRAME => ClipOthers(frames, i, j))
  }

  function ClipOthers(frames: seq<Option<Frame>>, i: nat, j: nat): Sample
    requires i < |frames| && Speakers(frames) <= MAX_SPEAKERS
  {
    FewerOthers(frames, i);
    TotalFits(frames[..i] + frames[i + 1..], j);
    Clip(Others(frames, i, j))
  }

  /**
   Whenever the second pass mixes the room for a participant, in whatever state it finds it, even admitted only after
   the first pass, it sends the clipped sum of everyone else who was admitted and had a full frame, with the
   participant's own tones on top.
   */
  lemma MixMinus(v: State, r: Room, frames: seq<Option<Frame>>, i: nat)
    requires Heard(r, frames) && i < |frames|
    requires v.admitted && !(r.admitted == 1 && r.music != [])
    ensures RoomFits(r, frames[i])
    ensures Rendered(v, r, frames[i], false).1 == Sent(Mixed(OthersMixed(frames, i), v.tones[..Min(|v.tones|, FRAME)]))
  {
    HeardFits(r, frames, i);
    var out := MixFor(r, frames[i]);
    forall j | 0 <= j < FRAME ensures out[j] == OthersMixed(frames, i)[j] {
      TotalLessOwn(frames, i, j);
    }
    assert out == OthersMixed(frames, i);
  }

  /** Nobody hears their own voice: what a participant says makes no difference to what it is sent. */
  lemma NeverOwnVoice(frames: seq<Option<Frame>>, i: nat, said: Option<Frame>)
    requires i < |frames| && Speakers(frames) <= MAX_SPEAKERS && Speakers(frames[i := said]) <= MAX_SPEAKERS
    ensures OthersMixed(frames[i := said], i) == OthersMixed(frames, i)
  {
    forall j | 0 <= j < FRAME ensures OthersMixed(frames[i := said], i)[j] == OthersMixed(frames, i)[j] {
      NeverOwnSum(frames, i, said, j);
    }
  }

  /** A participant waiting for the PIN is heard by nobody, now or later: it gives none and its buffer is emptied. */
  lemma WaitingIsNotHeard(frames: seq<Option<Frame>>, v: State, i: nat, k: nat)
    requires i < |frames| && Speakers(frames) < MAX_SPEAKERS && k < |frames| && i != k
    requires !v.admitted && frames[k] == Collected(v).1
    ensures Collected(v).0.fifo == []
    ensures Speakers(frames[k := Some(Silence())]) == Speakers(frames) + 1
    ensures OthersMixed(frames, i) == OthersMixed(frames[k := Some(Silence())], i)
  {
    hide Total, Speakers;
    var quiet := frames[k := Some(Silence())];
    SpeakersSet(frames, k, Some(Silence()));
    forall j | 0 <= j < FRAME ensures OthersMixed(frames, i)[j] == OthersMixed(quiet, i)[j] {
      TotalLessOwn(frames, i, j);
      TotalLessOwn(quiet, i, j);
      TotalLessOwn(frames, k, j);
      TotalLessOwn(quiet, k, j);
      NeverOwnSum(frames, k, Some(Silence()), j);
    }
  }

  lemma SpeakersSet(frames: seq<Option<Frame>>, k: nat, f: Option<Frame>)
    requires k < |frames|
    ensures Speakers(frames[k := f]) ==
            Speakers(frames) - (if frames[k].Some? then 1 else 0) + if f.Some? then 1 else 0
  {
    var a, b := frames[..k], frames[k + 1..];
    assert frames == a + [frames[k]] + b && frames[k := f] == a + [f] + b;
    SpeakersOfBoth(a + [frames[k]], b);
    SpeakersOfBoth(a + [f], b);
    SpeakersNext(a, frames[k]);
    SpeakersNext(a, f);
  }

  lemma NeverOwnSum(frames: seq<Option<Frame>>, i: nat, said: Option<Frame>, j: nat)
    requires i < |frames|
    ensures Others(frames[i := said], i, j) == Others(frames, i, j)
  {
    assert frames[i := said][..i] == frames[..i] && frames[i := said][i + 1..] == frames[i + 1..];
  }
}
