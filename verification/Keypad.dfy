/**
 Keying the room PIN (dtmfEvent, digit and kick, internal/conference/conference.go): telephone events are counted once
 each, and keys are compared with the PIN as they come in.
 */
module Keypad {
  import opened Basics

  const KEYS := "0123456789*#"
  const MAX_TRIES := 3

  /** lastEvent is the timestamp of the last end packet; hangups counts the calls of the hang-up function. */
  datatype State = State(admitted: bool, kicked: bool, left: bool, entered: string, tries: nat, lastEvent: Option<nat>,
      hangups: nat)

  /** A participant about to key the PIN. */
  const WAITING := State(false, false, false, "", 0, None, 0)

  // ---- one step ----

  /** A full or closed entry is a try. */
  function Tried(pin: string, s: State, entered: string): State {
    if entered == pin then s.(entered := "", admitted := true) else s.(entered := "", tries := s.tries + 1)
  }

  function Pressed(pin: string, s: State, d: char): State {
    if s.admitted || s.kicked then s
    else if d == '#' then Tried(pin, s, s.entered)
    else
      var entered := s.entered + [d];
      if |entered| < |pin| then s.(entered := entered) else Tried(pin, s, entered)
  }

  /** The timestamp of an end-of-event packet; other packets are ignored. */
  predicate IsEnd(payload: seq<Byte>) { |payload| >= 4 && payload[1] >= 128 }

  function Heard(pin: string, s: State, ts: nat, payload: seq<Byte>): State {
    if !IsEnd(payload) || s.lastEvent == Some(ts) then s
    else
      var t := s.(lastEvent := Some(ts));
      if payload[0] < |KEYS| then Pressed(pin, t, KEYS[payload[0]]) else t
  }

  function KickedOut(s: State): State {
    if s.kicked || s.left then s else s.(kicked := true, hangups := s.hangups + 1)
  }

  class Keypad {
    const pin: string
    var admitted: bool
    var kicked: bool
    var left: bool
    var entered: string
    var tries: nat
    var lastDTMF: nat
    var haveDTMF: bool
    var hangups: nat

    ghost function View(): State
      reads this
    {
      State(admitted, kicked, left, entered, tries, if haveDTMF then Some(lastDTMF) else None, hangups)
    }

    constructor (pin: string)
      ensures this.pin == pin && View() == WAITING
    {
      this.pin, admitted, kicked, left := pin, false, false, false;
      entered, tries, lastDTMF, haveDTMF, hangups := "", 0, 0, false, 0;
    }

    /** The result tells whether a kick is due, after the error tone. */
    method Digit(d: char) returns (kick: bool)
      modifies this
      ensures View() == Pressed(pin, old(View()), d)
      ensures kick <==> tries > old(tries) && tries >= 3
    {
      if admitted || kicked { return false; }
      if d != '#' {
        entered := entered + [d];
        if |entered| < |pin| { return false; }
      }
      var ok := entered == pin;
      entered := "";
      if ok {
        admitted := true;
        return false;
      }
      tries := tries + 1;
      return tries >= MAX_TRIES;
    }

    method DtmfEvent(ts: nat, payload: seq<Byte>) returns (kick: bool)
      modifies this
      ensures View() == Heard(pin, old(View()), ts, payload)
      ensures kick <==> tries > old(tries) && tries >= 3
    {
      if |payload| < 4 || payload[1] < 128 { return false; }
      var dup := haveDTMF && lastDTMF == ts;
      lastDTMF, haveDTMF := ts, true;
      if dup { return false; }
      if payload[0] < |KEYS| {
        kick := Digit(KEYS[payload[0]]);
        return;
      }
      return false;
    }

    method Kick()
      modifies this
      ensures View() == KickedOut(old(View()))
    {
      if kicked || left { return; }
      kicked := true;
      hangups := hangups + 1;
    }
  }

  // ---- every history ----

  /** RTP telephone events, digits from SIP INFO, kicks (delayed ones after wrong PINs, and timeouts), leaving. */
  datatype Event = Rtp(ts: nat, payload: seq<Byte>) | Info(d: char) | Kick | Leave

  function Step(pin: string, s: State, e: Event): State {
    match e
    case Rtp(ts, payload) => Heard(pin, s, ts, payload)
    case Info(d) => Pressed(pin, s, d)
    case Kick => KickedOut(s)
    case Leave => s.(left := true)
  }

  function Run(pin: string, s: State, es: seq<Event>): State {
    if es == [] then s else Step(pin, Run(pin, s, es[..|es| - 1]), es[|es| - 1])
  }

  /** The timestamp of the last end packet. */
  function LastEnd(es: seq<Event>): Option<nat> {
    if es == [] then None
    else
      var e := es[|es| - 1];
      if e.Rtp? && |e.payload| >= 4 && e.payload[1] >= 128 then Some(e.ts) else LastEnd(es[..|es| - 1])
  }

  /** A kick took effect: the participant had not left. */
  predicate KickedIn(es: seq<Event>) {
    es != [] && (KickedIn(es[..|es| - 1]) || (es[|es| - 1] == Kick && Leave !in es[..|es| - 1]))
  }

  /** Events 0 to 9 are the digits, 10 is the star, 11 the hash; others are no keys. */
  function KeyNumbered(n: Byte): string {
    if n < 10 then [('0' as int + n as int) as char] else if n == 10 then "*" else if n == 11 then "#" else ""
  }

  /** The key an event adds: each telephone event once, when its end is first heard, and digits sent by INFO. */
  function KeyOf(before: seq<Event>, e: Event): string {
    match e
    case Rtp(ts, payload) =>
      if |payload| >= 4 && payload[1] >= 128 && LastEnd(before) != Some(ts) then KeyNumbered(payload[0]) else ""
    case Info(d) => [d]
    case _ => ""
  }

  /** The keys pressed until a kick. */
  function KeysIn(es: seq<Event>): string {
    if es == [] then ""
    else
      var before := es[..|es| - 1];
      KeysIn(before) + if KickedIn(before) then "" else KeyOf(before, es[|es| - 1])
  }

  // ---- the batch reading of the keys ----

  /** Where the first try ends: at a '#', or with the n-th key; |keys| when it is unfinished. */
  function FirstEnd(keys: string, n: nat): (i: nat)
    requires n > 0
    ensures i <= |keys| && (forall k | 0 <= k < i :: keys[k] != '#')
    ensures if i < |keys| then i < n && (keys[i] == '#' || i + 1 == n) else i < n
  {
    if keys == "" || keys[0] == '#' || n == 1 then 0 else 1 + FirstEnd(keys[1..], n - 1)
  }

  /** The tries made, and what is keyed towards the next. */
  datatype Tries = Tries(made: seq<string>, rest: string) {
    function After(first: string): Tries { Tries([first] + made, rest) }
  }

  function Cut(keys: string, n: nat): Tries
    requires n > 0
    decreases |keys|
  {
    var i := FirstEnd(keys, n);
    if i == |keys| then Tries([], keys)
    else
      var t := Cut(keys[i + 1..], n);
      t.After(if keys[i] == '#' then keys[..i] else keys[..i + 1])
  }

  /** The failures before the first right try. */
  function Wrong(made: seq<string>, pin: string): (k: nat)
    ensures k <= |made| && (forall i | 0 <= i < k :: made[i] != pin) && (k < |made| ==> made[k] == pin)
  {
    if made == [] || made[0] == pin then 0 else 1 + Wrong(made[1..], pin)
  }

  ghost predicate ReadsAs(s: State, keys: string, pin: string)
    requires pin != ""
  {
    var t := Cut(keys, |pin|);
    && (s.admitted <==> pin in t.made)
    && s.tries == Wrong(t.made, pin)
    && s.entered == (if s.admitted then "" else t.rest)
    && |s.entered| < |pin|
  }

  lemma {:induction false} FirstEndMore(keys: string, d: char, n: nat)
    requires n > 0
    ensures FirstEnd(keys + [d], n) ==
            if FirstEnd(keys, n) < |keys| || d == '#' || |keys| + 1 == n then FirstEnd(keys, n) else |keys| + 1
  {
    if keys == "" {
      assert keys + [d] == [d] && [d][1..] == "";
    } else {
      assert (keys + [d])[1..] == keys[1..] + [d];
      if keys[0] != '#' && n > 1 { FirstEndMore(keys[1..], d, n - 1); }
    }
  }

  /** One more key ends the try being made, or goes on with it. */
  function CutMore(t: Tries, d: char, n: nat): Tries {
    if d == '#' then Tries(t.made + [t.rest], "")
    else if |t.rest| + 1 < n then Tries(t.made, t.rest + [d])
    else Tries(t.made + [t.rest + [d]], "")
  }

  lemma CutMoreAfter(t: Tries, first: string, d: char, n: nat)
    ensures CutMore(t.After(first), d, n) == CutMore(t, d, n).After(first)
  {
    assert [first] + t.made + [t.rest] == [first] + (t.made + [t.rest]);
    assert [first] + t.made + [t.rest + [d]] == [first] + (t.made + [t.rest + [d]]);
  }

  /** An unfinished try, and one more key. */
  lemma CutUnfinished(keys: string, d: char, n: nat)
    requires n > 0 && FirstEnd(keys, n) == |keys|
    ensures Cut(keys, n) == Tries([], keys) && Cut(keys + [d], n) == CutMore(Tries([], keys), d, n)
  {
    var more := keys + [d];
    FirstEndMore(keys, d, n);
    if d == '#' || |keys| + 1 == n {
      assert more[..|keys|] == keys && more[..|keys| + 1] == more && more[|keys| + 1..] == "";
      assert FirstEnd("", n) == 0 && Cut("", n) == Tries([], "");
    }
  }

  /** The first try, and the rest of the keys. */
  lemma CutFirst(keys: string, n: nat, i: nat)
    requires n > 0 && i == FirstEnd(keys, n) < |keys|
    ensures Cut(keys, n) == Cut(keys[i + 1..], n).After(if keys[i] == '#' then keys[..i] else keys[..i + 1])
  {}

  lemma {:induction false} CutNext(keys: string, d: char, n: nat)
    requires n > 0
    ensures Cut(keys + [d], n) == CutMore(Cut(keys, n), d, n) && |Cut(keys, n).rest| < n
    decreases |keys|
  {
    hide Cut, CutMore;
    var i := FirstEnd(keys, n);
    if i < |keys| {
      var more := keys + [d];
      FirstEndMore(keys, d, n);
      CutNext(keys[i + 1..], d, n);
      assert more[i + 1..] == keys[i + 1..] + [d] && more[..i] == keys[..i] && more[..i + 1] == keys[..i + 1];
      CutFirst(keys, n, i);
      CutFirst(more, n, i);
      CutMoreAfter(Cut(keys[i + 1..], n), if keys[i] == '#' then keys[..i] else keys[..i + 1], d, n);
    } else {
      CutUnfinished(keys, d, n);
    }
  }

  lemma {:induction false} WrongNext(made: seq<string>, x: string, pin: string)
    ensures Wrong(made + [x], pin) == if pin in made then Wrong(made, pin) else if x == pin then |made| else |made| + 1
    ensures pin !in made ==> Wrong(made, pin) == |made|
  {
    if made == [] {
      assert made + [x] == [x] && [x][1..] == [];
    } else {
      assert (made + [x])[1..] == made[1..] + [x];
      WrongNext(made[1..], x, pin);
    }
  }

  lemma PressedReads(pin: string, s: State, keys: string, d: char)
    requires pin != "" && !s.kicked && ReadsAs(s, keys, pin)
    ensures ReadsAs(Pressed(pin, s, d), keys + [d], pin)
  {
    hide Cut, Wrong;
    var t := Cut(keys, |pin|);
    CutNext(keys, d, |pin|);
    WrongNext(t.made, t.rest, pin);
    WrongNext(t.made, t.rest + [d], pin);
  }

  /**
   Keying digit by digit is reading the keys as a batch: cut at every '#' and after as many keys as the PIN has, the
   participant is admitted if and only if some try is the PIN; the count of failures is the wrong tries before it; and
   what is keyed so far is always shorter than the PIN. A kick stops it, and hangs up at most once.
   */
  lemma {:induction false} KeypadReads(pin: string, es: seq<Event>)
    requires pin != ""
    ensures var s := Run(pin, WAITING, es);
            && ReadsAs(s, KeysIn(es), pin) && s.lastEvent == LastEnd(es)
            && s.kicked == KickedIn(es) && s.left == (Leave in es) && s.hangups == if KickedIn(es) then 1 else 0
  {
    hide Pressed, Wrong, Cut;
    if es == [] {
      NoKeys(pin);
    } else {
      var before, e := es[..|es| - 1], es[|es| - 1];
      KeypadReads(pin, before);
      assert forall x :: x in es <==> x in before || x == e;
      var s := Run(pin, WAITING, before);
      assert KeysIn(before) + "" == KeysIn(before);
      StepReads(pin, s, before, e);
    }
  }

  lemma NoKeys(pin: string)
    requires pin != ""
    ensures ReadsAs(WAITING, "", pin)
  {}

  lemma PressedRest(pin: string, s: State, d: char)
    ensures var t := Pressed(pin, s, d);
            t.kicked == s.kicked && t.left == s.left && t.lastEvent == s.lastEvent && t.hangups == s.hangups
                && (s.kicked ==> t == s)
  {}

  /** A step adds the event's key, unless the participant was kicked. */
  lemma StepReads(pin: string, s: State, before: seq<Event>, e: Event)
    requires pin != "" && ReadsAs(s, KeysIn(before), pin) && s.lastEvent == LastEnd(before)
    ensures var t := Step(pin, s, e);
            && ReadsAs(t, KeysIn(before) + if s.kicked then "" else KeyOf(before, e), pin)
            && t.lastEvent == (if e.Rtp? && |e.payload| >= 4 && e.payload[1] >= 128 then Some(e.ts) else s.lastEvent)
            && t.kicked == (s.kicked || (e == Kick && !s.left)) && t.left == (s.left || e == Leave)
            && t.hangups == s.hangups + if !s.kicked && t.kicked then 1 else 0
  {
    hide Pressed, Wrong, Cut, KeysIn;
    var keys := KeysIn(before);
    assert keys + "" == keys;
    match e {
      case Info(d) =>
        PressedRest(pin, s, d);
        if !s.kicked { PressedReads(pin, s, keys, d); }
      case Rtp(ts, payload) =>
        if IsEnd(payload) && s.lastEvent != Some(ts) && payload[0] < 12 {
          var d := KEYS[payload[0]];
          assert KeyNumbered(payload[0]) == [d];
          var t := s.(lastEvent := Some(ts));
          PressedRest(pin, t, d);
          if !s.kicked { PressedReads(pin, t, keys, d); }
        }
      case _ =>
    }
  }

  // ---- repeated end packets ----

  function Copies(e: Event, n: nat): seq<Event> {
    if n == 0 then [] else Copies(e, n - 1) + [e]
  }

  lemma {:induction false} RunBoth(pin: string, s: State, a: seq<Event>, b: seq<Event>)
    ensures Run(pin, s, a + b) == Run(pin, Run(pin, s, a), b)
  {
    if b == [] {
      assert a + b == a;
    } else {
      RunBoth(pin, s, a, b[..|b| - 1]);
      assert (a + b)[..|a + b| - 1] == a + b[..|b| - 1];
    }
  }

  lemma {:induction false} CopiesChangeNothing(pin: string, s: State, ts: nat, payload: seq<Byte>, n: nat)
    requires Heard(pin, s, ts, payload) == s
    ensures Run(pin, s, Copies(Rtp(ts, payload), n)) == s
  {
    if n > 0 {
      CopiesChangeNothing(pin, s, ts, payload, n - 1);
      RunBoth(pin, s, Copies(Rtp(ts, payload), n - 1), [Rtp(ts, payload)]);
      assert [Rtp(ts, payload)][..0] == [];
    }
  }

  lemma HeardTwice(pin: string, s: State, ts: nat, payload: seq<Byte>)
    ensures Heard(pin, Heard(pin, s, ts, payload), ts, payload) == Heard(pin, s, ts, payload)
  {
    if payload != [] && payload[0] < |KEYS| {
      PressedRest(pin, s.(lastEvent := Some(ts)), KEYS[payload[0]]);
    }
  }

  /** However often a telephone-event packet is repeated in place, the whole history comes to the same. */
  lemma RepeatsChangeNothing(pin: string, s: State, a: seq<Event>, ts: nat, payload: seq<Byte>, n: nat, b: seq<Event>)
    ensures var p := Rtp(ts, payload); Run(pin, s, a + [p] + Copies(p, n) + b) == Run(pin, s, a + [p] + b)
  {
    hide Heard;
    var p := Rtp(ts, payload);
    var t := Run(pin, s, a);
    assert [p][..0] == [];
    assert Run(pin, t, [p]) == Heard(pin, t, ts, payload);
    HeardTwice(pin, t, ts, payload);
    CopiesChangeNothing(pin, Heard(pin, t, ts, payload), ts, payload, n);
    RunBoth(pin, s, a, [p]);
    RunBoth(pin, s, a + [p], Copies(p, n));
    RunBoth(pin, s, a + [p] + Copies(p, n), b);
    RunBoth(pin, s, a + [p], b);
  }

  // ---- what the batch reading shows ----

  lemma {:induction false} WholeTry(w: string, rest: string, n: nat)
    requires |w| == n > 0 && '#' !in w
    ensures FirstEnd(w + rest, n) == n - 1
  {
    assert w[0] in w;
    assert (w + rest)[1..] == w[1..] + rest;
    if n > 1 { WholeTry(w[1..], rest, n - 1); }
  }

  lemma CutWhole(w: string, rest: string, n: nat)
    requires |w| == n > 0 && '#' !in w
    ensures Cut(w + rest, n) == Cut(rest, n).After(w)
  {
    WholeTry(w, rest, n);
    assert w[n - 1] in w && (w + rest)[n - 1] == w[n - 1];
    assert (w + rest)[..n] == w && (w + rest)[n..] == rest;
  }

  /** A wrong PIN is already a try with its last key, so a '#' after it is a second, empty one. */
  lemma HashCostsATry(pin: string, es: seq<Event>, w: string)
    requires pin != "" && w != pin && |w| == |pin| && '#' !in w && KeysIn(es) == w + "#"
    ensures Run(pin, WAITING, es).tries == 2 && !Run(pin, WAITING, es).admitted
  {
    KeypadReads(pin, es);
    CutWhole(w, "#", |pin|);
    assert "#"[..0] == "" && "#"[1..] == "";
    assert Cut("", |pin|) == Tries([], "") && Cut("#", |pin|) == Tries([""], "");
    assert [w] + [""] == [w, ""] && [w, ""][1..] == [""] && [""][1..] == [];
  }

  function Again(w: string, k: nat): string {
    if k == 0 then "" else w + Again(w, k - 1)
  }

  lemma CutNothing(n: nat)
    requires n > 0
    ensures Cut("", n) == Tries([], "")
  {}

  lemma WrongThen(w: string, made: seq<string>, pin: string)
    ensures Wrong([w] + made, pin) == if w == pin then 0 else 1 + Wrong(made, pin)
  {
    assert ([w] + made)[1..] == made;
  }

  lemma {:induction false} CutAgain(pin: string, w: string, k: nat)
    requires pin != "" && w != pin && |w| == |pin| && '#' !in w && '#' !in pin
    ensures pin in Cut(Again(w, k) + pin, |pin|).made && Wrong(Cut(Again(w, k) + pin, |pin|).made, pin) == k
  {
    hide Cut, Wrong;
    if k == 0 {
      assert "" + pin == pin == pin + "";
      CutWhole(pin, "", |pin|);
      CutNothing(|pin|);
      WrongThen(pin, [], pin);
    } else {
      CutAgain(pin, w, k - 1);
      var rest := Again(w, k - 1) + pin;
      assert Again(w, k) + pin == w + rest;
      CutWhole(w, rest, |pin|);
      WrongThen(w, Cut(rest, |pin|).made, pin);
    }
  }

  /** The kick after three failures comes later: until it does, the right PIN still admits, after any number of them. */
  lemma RightAfterManyWrong(pin: string, es: seq<Event>, w: string, k: nat)
    requires pin != "" && w != pin && |w| == |pin| && '#' !in w && '#' !in pin && KeysIn(es) == Again(w, k) + pin
    ensures Run(pin, WAITING, es).admitted && Run(pin, WAITING, es).tries == k
  {
    KeypadReads(pin, es);
    CutAgain(pin, w, k);
  }
}
