/**
 What one tick sends to one participant, sample by sample (the second pass of room.tick,
 internal/conference/conference.go): callers who have not keyed the PIN hear their prompt and tones and nothing of the
 room, somebody alone hears music, and everyone else the room without themselves.
 */
module Rendering {
  import opened Basics
  import opened Audio
  import opened Mixer

  /** s is v kept within 16 bits. */
  ghost predicate Saturated(s: int, v: int) {
    && (-32768 <= v <= 32767 ==> s == v)
    && (v > 32767 ==> s == 32767)
    && (v < -32768 ==> s == -32768)
  }

  /** h is half of m, toward zero. */
  ghost predicate Halved(h: int, m: int) {
    if m >= 0 then 0 <= m - 2 * h <= 1 else -1 <= m - 2 * h <= 0
  }

  /** Clipping loses as little as possible: no sample is nearer. */
  lemma ClipSaturates(v: Int32, s: Sample)
    ensures Saturated(Clip(v), v)
    ensures var c: int, d: int := Clip(v) - v, s - v; (if c < 0 then -c else c) <= if d < 0 then -d else d
  {}

  /** A caller with no tones left is asked for the PIN, if 3 s have passed since it was last asked. */
  ghost predicate Asked(v: State, now: int) {
    !v.admitted && v.tones == [] && now - v.lastPrompt >= 3000
  }

  /** The tones to be heard, with the prompt where it comes. */
  ghost function TonesDue(v: State, r: Room): seq<Sample> {
    if Asked(v, r.now) then r.prompt else v.tones
  }

  /** What is left of tones after a tick. */
  ghost function TonesLeft(tones: seq<Sample>): seq<Sample> {
    if |tones| <= 160 then [] else tones[160..]
  }

  /** What a tone adds to sample j. */
  ghost function ToneAt(tones: seq<Sample>, j: nat): int {
    if j < |tones| then tones[j] else 0
  }

  /** out is the background with the tones on top. */
  ghost predicate Toned(out: Frame, background: Frame, tones: seq<Sample>) {
    |out| == |background| == 160
    && forall j | 0 <= j < 160 :: var x: int := background[j]; Saturated(out[j], x + ToneAt(tones, j))
  }

  lemma {:induction false} MixedToned(background: Frame, tones: seq<Sample>)
    requires |background| == 160
    ensures Toned(Mixed(background, tones[..Min(|tones|, FRAME)]), background, tones)
  {
    var part := tones[..Min(|tones|, FRAME)];
    var out := Mixed(background, part);
    forall j | 0 <= j < 160 ensures var x: int := background[j]; Saturated(out[j], x + ToneAt(tones, j)) {
      if j < |part| {
        assert out[j] == Clip(Sum2(background[j], part[j]));
      }
    }
  }

  /** Who is disconnected: nobody but a caller who has had more than 30 s for the PIN, and one whose audio stopped. */
  lemma KickedIff(v: State, r: Room, own: Option<Frame>, idle: bool)
    requires RoomFits(r, own)
    ensures var (after, o) := Rendered(v, r, own, idle);
            var late := !v.admitted && r.now - v.waitingSince > 30000;
            && (o == Kicked("no PIN entered") <==> late)
            && (o == Kicked("no audio") <==> !late && idle)
            && (o.Sent? <==> !late && !idle)
            && (late ==> after == v)
  {
    assert "no PIN entered"[3] != "no audio"[3];
  }

  /** Everything that changes in a tick: tones are used up, the prompt is noted, and music moves on while it plays. */
  lemma RenderedState(v: State, r: Room, own: Option<Frame>, idle: bool)
    requires RoomFits(r, own) && (v.admitted || r.now - v.waitingSince <= 30000)
    ensures Rendered(v, r, own, idle).0 ==
            v.(tones := TonesLeft(TonesDue(v, r)), lastPrompt := if Asked(v, r.now) then r.now else v.lastPrompt,
            musicPos := if v.admitted && r.admitted == 1 && r.music != [] then (v.musicPos + 160) % |r.music|
            else v.musicPos)
  {
    hide MixFor, Mixed, MusicFrom, Wrap;
    if r.music != [] { WrapIsMod(v.musicPos + 160, |r.music|); }
  }

  lemma {:induction false} WrapIsMod(k: nat, n: nat)
    requires n > 0
    ensures Wrap(k, n) == k % n
  {
    if k >= n {
      WrapIsMod(k - n, n);
      ModLess(k, n);
    }
  }

  lemma ModLess(k: nat, n: nat)
    requires 0 < n <= k
    ensures (k - n) % n == k % n
  {
    var q, m := (k - n) / n, (k - n) % n;
    assert k == (q + 1) * n + m;
    ModUnique(k, n, q + 1, m);
  }

  lemma ModUnique(k: nat, n: nat, q: nat, m: nat)
    requires m < n && k == q * n + m
    ensures k % n == m
  {
    var d := k / n - q;
    assert d * n == m - k % n by {
      assert k == (k / n) * n + k % n;
    }
  }

  /** A caller who has not keyed the PIN hears its tones and silence after them. */
  lemma WaitingHearsTones(v: State, r: Room, own: Option<Frame>)
    requires RoomFits(r, own) && !v.admitted && r.now - v.waitingSince <= 30000
    ensures var o := Rendered(v, r, own, false).1;
            && o.Sent? && |o.pcm| == 160
            && forall j | 0 <= j < 160 :: o.pcm[j] == if j < |TonesDue(v, r)| then TonesDue(v, r)[j] else 0
  {
    hide MixFor, Mixed;
    var o, tones := Rendered(v, r, own, false).1, TonesDue(v, r);
    assert Prompted(v, r).tones == tones;
    assert o == Sent(Mixed(Silence(), tones[..Min(|tones|, FRAME)]));
    MixedToned(Silence(), tones);
    forall j | 0 <= j < 160 ensures o.pcm[j] == ToneAt(tones, j) {
      assert Silence()[j] == 0;
    }
  }

  lemma HalfHalves(m: Sample)
    ensures Halved(Half(m), m)
  {}

  /** Somebody alone hears the music from where it was, half as loud. */
  lemma AloneHearsMusic(v: State, r: Room, own: Option<Frame>)
    requires RoomFits(r, own) && v.admitted && r.admitted == 1 && r.music != []
    ensures var o := Rendered(v, r, own, false).1;
            && o.Sent?
            && exists music: Frame ::
                 Toned(o.pcm, music, v.tones)
                 && forall j | 0 <= j < 160 :: Halved(music[j], r.music[(v.musicPos + j) % |r.music|])
  {
    hide MixFor, Mixed, Wrap;
    var music := MusicFrom(r.music, v.musicPos);
    MixedToned(music, v.tones);
    forall j | 0 <= j < 160 ensures Halved(music[j], r.music[(v.musicPos + j) % |r.music|]) {
      WrapIsMod(v.musicPos + j, |r.music|);
      HalfHalves(r.music[Wrap(v.musicPos + j, |r.music|)]);
    }
    assert Rendered(v, r, own, false).1 == Sent(Mixed(music, v.tones[..Min(|v.tones|, FRAME)]));
  }

  /** Everyone else hears the sum of the room without themselves. */
  lemma CompanyHearsRoom(v: State, r: Room, own: Option<Frame>)
    requires RoomFits(r, own) && v.admitted && (r.admitted != 1 || r.music == [])
    ensures var o := Rendered(v, r, own, false).1;
            && o.Sent?
            && exists mix: Frame ::
                 Toned(o.pcm, mix, v.tones)
                 && forall j | 0 <= j < 160 :: var t: int, s: int := r.total[j], At(own, j); Saturated(mix[j], t - s)
  {
    hide Mixed;
    var mix := MixFor(r, own);
    MixedToned(mix, v.tones);
    assert Rendered(v, r, own, false).1 == Sent(Mixed(mix, v.tones[..Min(|v.tones|, FRAME)]));
  }

  // ---- nothing of the room before the PIN ----

  /** The ticks of one participant: the room and the participant's own frame at each. */
  ghost predicate Ticks(rs: seq<Room>, owns: seq<Option<Frame>>) {
    |rs| == |owns| && forall i | 0 <= i < |rs| :: RoomFits(rs[i], owns[i])
  }

  ghost function Renderings(v: State, rs: seq<Room>, owns: seq<Option<Frame>>): (State, seq<Output>)
    requires Ticks(rs, owns)
    decreases rs
  {
    if rs == [] then (v, [])
    else
      var (after, o) := Rendered(v, rs[0], owns[0], false);
      var (last, os) := Renderings(after, rs[1..], owns[1..]);
      (last, [o] + os)
  }

  /**
   However long a caller waits, nothing anybody says, no music and nobody's coming or going makes any difference to
   what it is sent: only the clock and the prompt do.
   */
  lemma {:induction false} WaitingHearsNobody(v: State, rs: seq<Room>, owns: seq<Option<Frame>>, rs': seq<Room>,
      owns': seq<Option<Frame>>)
    requires Ticks(rs, owns) && Ticks(rs', owns') && !v.admitted && |rs| == |rs'|
    requires forall i | 0 <= i < |rs| :: rs[i].prompt == rs'[i].prompt && rs[i].now == rs'[i].now
    ensures Renderings(v, rs, owns) == Renderings(v, rs', owns')
    decreases rs
  {
    if rs != [] {
      hide MixFor, Mixed, RoomFits;
      WaitingHearsNobody(Rendered(v, rs[0], owns[0], false).0, rs[1..], owns[1..], rs'[1..], owns'[1..]);
    }
  }
}
