/**
 What a rewritten body says, for every body: Rewrite moves the first stream that is audio by its first word, whether
 or not Parse takes that line for audio.
 */
module AudioChoice {
  import opened Basics
  import opened Text
  import opened SdpParse
  import opened SdpMeaning
  import opened SdpRewrite
  import opened RewriteLines
  import opened RewriteTwice
  import opened RewriteMeaning

  // ---- the line Rewrite takes ----

  /** The line Rewrite takes for the audio, as Parse would have to see it: single spaces and a port it can read. */
  function AsAudio(line: string): string
    requires AudioWord(line)
  {
    var f := Fields(line);
    Join([f[0], if f[1] == "0" then "0" else "1"] + f[2..])
  }

  /** The body with that line written so. */
  function Repaired(ls: seq<string>): seq<string> {
    if ls == [] then []
    else if Chosen(ls[0]) then [AsAudio(ls[0])] + ls[1..]
    else [ls[0]] + Repaired(ls[1..])
  }

  predicate Chosen(line: string) { KindOf(line) == Media && AudioWord(line) }

  /** The index of the line Rewrite takes, or the length. */
  function FirstChosen(ls: seq<string>): (n: nat)
    ensures n <= |ls| && forall i | 0 <= i < n :: !Chosen(ls[i])
    ensures n < |ls| ==> Chosen(ls[n])
  {
    if ls == [] || Chosen(ls[0]) then 0 else 1 + FirstChosen(ls[1..])
  }

  /** That line has a codec, and an address applies to it. */
  predicate Carries(ls: seq<string>) {
    var a := FirstChosen(ls);
    && a < |ls| && |Fields(ls[a])| >= 4
    && (LastAddr(Session(ls)).Some? || LastAddr(UpToMedia(ls[a + 1..])).Some?)
  }

  lemma OneIsWord()
    ensures Word("1") && Word("0")
  {}

  lemma AsAudioShape(line: string)
    requires Line(line) && Chosen(line)
    ensures var l := AsAudio(line);
            && Line(l) && Chosen(l) && IsAudio(l)
            && Fields(l) == [Fields(line)[0], if Fields(line)[1] == "0" then "0" else "1"] + Fields(line)[2..]
  {
    hide Fields;
    var f := Fields(line);
    var g := [f[0], if f[1] == "0" then "0" else "1"] + f[2..];
    OneIsWord();
    FirstField("m=", line);
    Rejoined("m=", g);
    JoinStartsWith(g);
  }

  lemma AsAudioMoved(line: string, t: Target)
    requires Line(line) && Chosen(line)
    ensures MoveMedia(AsAudio(line), t, true) == MoveMedia(line, t, true)
  {
    AsAudioShape(line);
    var f, g := Fields(line), Fields(AsAudio(line));
    assert g[3..] == f[3..];
    assert MoveWords(g, t, true) == MoveWords(f, t, true);
  }

  /** Rewrite cannot tell the repaired body from the original. */
  lemma {:induction false} RepairedMoved(w: Flags, ls: seq<string>, t: Target)
    requires AllLines(ls) && !w.seen
    ensures AllLines(Repaired(ls)) && AudioPlain(Repaired(ls))
    ensures MovedLines(w, Repaired(ls), t) == MovedLines(w, ls, t)
    decreases |ls|
  {
    hide KindOf, Fields, MoveMedia, IsAudio, AsAudio;
    if ls != [] {
      assert Line(ls[0]);
      var rest := ls[1..];
      if Chosen(ls[0]) {
        AsAudioShape(ls[0]);
        AsAudioMoved(ls[0], t);
        assert ([AsAudio(ls[0])] + rest)[1..] == rest;
      } else {
        RepairedMoved(Next(w, ls[0]), rest, t);
        assert ([ls[0]] + Repaired(rest))[1..] == Repaired(rest);
      }
    }
  }

  // ---- how the repaired body parses ----

  lemma {:induction false} RepairedAt(ls: seq<string>)
    requires FirstChosen(ls) < |ls|
    ensures var a := FirstChosen(ls); Repaired(ls) == ls[..a] + [AsAudio(ls[a])] + ls[a + 1..]
  {
    if Chosen(ls[0]) {
      assert ls[..0] == [];
    } else {
      RepairedAt(ls[1..]);
      var a := FirstChosen(ls);
      assert ls[1..][..a - 1] == ls[1..a] && [ls[0]] + ls[1..a] == ls[..a] && ls[1..][a..] == ls[a + 1..];
    }
  }

  lemma {:induction false} FirstAudioAt(ls: seq<string>, a: nat)
    requires a < |ls| && IsAudio(ls[a]) && forall i | 0 <= i < a :: !IsAudio(ls[i])
    ensures FirstAudio(ls) == a
  {
    var n := FirstAudio(ls);
  }

  lemma {:induction false} FirstMediaAt(ls: seq<string>, ms: seq<string>)
    requires |ls| == |ms| && forall i | 0 <= i < |ls| :: KindOf(ms[i]) == KindOf(ls[i])
    ensures FirstMedia(ls) == FirstMedia(ms)
  {
    var n, m := FirstMedia(ls), FirstMedia(ms);
  }

  lemma {:induction false} SameSession(ls: seq<string>, ms: seq<string>, a: nat)
    requires |ls| == |ms| && a < |ls| && KindOf(ls[a]) == KindOf(ms[a]) == Media
    requires forall i | 0 <= i < |ls| && i != a :: ms[i] == ls[i]
    ensures Session(ms) == Session(ls)
  {
    hide KindOf;
    FirstMediaAt(ls, ms);
    assert FirstMedia(ls) <= a;
    assert ms[..FirstMedia(ls)] == ls[..FirstMedia(ls)];
  }

  /** What Parse reads in it: the chosen stream. */
  lemma {:induction false} RepairedSections(ls: seq<string>)
    requires AllLines(ls) && FirstChosen(ls) < |ls| && forall i | 0 <= i < FirstChosen(ls) :: !IsAudio(ls[i])
    ensures var a, ms := FirstChosen(ls), Repaired(ls);
            && |ms| == |ls| && FirstAudio(ms) == a && ms[a] == AsAudio(ls[a])
            && Session(ms) == Session(ls) && Section(ms) == UpToMedia(ls[a + 1..])
  {
    hide KindOf, IsAudio, Repaired, AsAudio;
    var a, ms := FirstChosen(ls), Repaired(ls);
    RepairedAt(ls);
    assert Line(ls[a]);
    AsAudioShape(ls[a]);
    FirstAudioAt(ms, a);
    SameSession(ls, ms, a);
    assert ms[a + 1..] == ls[a + 1..];
  }

  lemma ReadablePort(word: string)
    requires word == "0" || word == "1"
    ensures Atoi(Before(word, '/')).Some?
  {
    IndexOfAbsent(word, '/');
    AtoiItoa(0);
    AtoiItoa(1);
    assert Decimal(0) == "0" && Decimal(1) == "1";
  }

  lemma ReadableMeaning(line: string, session: View, section: View)
    requires Line(line) && Chosen(line)
    ensures MeaningOf(AsAudio(line), session, section).Ok? <==>
            |Fields(line)| >= 4 && (session.addr.Some? || section.addr.Some?)
  {
    hide AsAudio, Atoi, Before, Numbers, Chosen;
    AsAudioShape(line);
    assert AudioWord(line) by { ChosenWords(line); }
    ReadablePort(Fields(AsAudio(line))[1]);
  }

  lemma ChosenWords(line: string)
    requires Chosen(line)
    ensures AudioWord(line) && |Fields(line)| >= 3
  {}

  lemma RepairedParses(ls: seq<string>)
    requires AllLines(ls) && FirstChosen(ls) < |ls| && forall i | 0 <= i < FirstChosen(ls) :: !IsAudio(ls[i])
    ensures ParsedLines(Repaired(ls)).Ok? <==> Carries(ls)
  {
    hide KindOf, LastAddr, ParsedLines, Repaired, AsAudio, MeaningOf, Fields;
    var a := FirstChosen(ls);
    RepairedSections(ls);
    ParsedMeaning(Repaired(ls));
    assert Line(ls[a]);
    ReadableMeaning(ls[a], ViewOf(Session(ls)), ViewOf(UpToMedia(ls[a + 1..])));
  }

  // ---- how the rewritten body parses ----

  /** Parse accepts a body only if Rewrite finds a stream in it, at the same line or before. */
  lemma ParsedIsChosen(ls: seq<string>)
    requires ParsedLines(ls).Ok?
    ensures FirstChosen(ls) <= FirstAudio(ls) < |ls|
    ensures forall i | 0 <= i < FirstChosen(ls) :: !IsAudio(ls[i])
  {
    ParsedHasAudio(ls);
  }

  lemma ShortAudio(r: Scan, line: string, t: Target)
    requires Line(line) && Chosen(line) && |Fields(line)| == 3 && !r.found && !r.done
    ensures ScanLine(r, MoveMedia(line, t, true)) == Err(MalformedMedia)
  {
    MediaMoved(line, t, true);
  }

  /** A chosen line without a codec: what is written for it stops Parse. */
  lemma {:induction false} ShortAudioStops(s: Scan, r: Scan, w: Flags, ls: seq<string>, t: Target, zero: bool)
    requires t.Valid() && AllLines(ls) && Alike(s, r, w, t, zero) && !w.seen
    requires FirstChosen(ls) < |ls| && |Fields(ls[FirstChosen(ls)])| == 3
    requires forall i | 0 <= i < FirstChosen(ls) :: !IsAudio(ls[i])
    ensures ScanLines(r, MovedLines(w, ls, t)) == Err(MalformedMedia)
    decreases |ls|
  {
    hide KindOf, Fields, ScanLine, MoveMedia, IsAudio, Alike, AudioWord, ConnAddr;
    var line := ls[0];
    assert Line(line);
    ScanConcat(r, Emit(w, line, t), MovedLines(Next(w, line), ls[1..], t));
    if Chosen(line) {
      NotFound(s, r, w, t, zero);
      ShortAudio(r, line, t);
      assert Closing(w, t) + [MoveMedia(line, t, true)] == [MoveMedia(line, t, true)];
      ScanOne(r, MoveMedia(line, t, true));
    } else {
      NotChosenAlike(s, r, w, line, t, zero);
      var s', r' := ScanLine(s, line).value, ScanLines(r, Emit(w, line, t)).value;
      ShortAudioStops(s', r', Next(w, line), ls[1..], t, zero);
    }
  }

  lemma NotFound(s: Scan, r: Scan, w: Flags, t: Target, zero: bool)
    requires Alike(s, r, w, t, zero) && !w.seen
    ensures !r.found && !r.done && !w.inAudio
  {}

  lemma NotChosenAlike(s: Scan, r: Scan, w: Flags, line: string, t: Target, zero: bool)
    requires t.Valid() && Line(line) && Alike(s, r, w, t, zero) && !w.seen && !Chosen(line) && !IsAudio(line)
    ensures ScanLine(s, line).Ok? && ScanLines(r, Emit(w, line, t)).Ok? && !Next(w, line).seen
    ensures Alike(ScanLine(s, line).value, ScanLines(r, Emit(w, line, t)).value, Next(w, line), t, zero)
  {
    hide Emit, MoveMedia, ConnAddr, ScanLines;
    if KindOf(line) == Media {
      AlikeOther(s, r, w, line, t, zero);
    } else {
      AlikeLine(s, r, w, line, t, zero);
    }
  }

  lemma {:induction false} ScanErrors(s: Scan, ls: seq<string>)
    ensures ScanLines(s, ls).Err? ==> ScanLines(s, ls).error == MalformedMedia || ScanLines(s, ls).error == BadPort
    decreases |ls|
  {
    if ls != [] && ScanLine(s, ls[0]).Ok? {
      ScanErrors(ScanLine(s, ls[0]).value, ls[1..]);
    }
  }

  lemma FinishBoth(s: Scan, r: Scan, t: Target, zero: bool)
    requires AlikeAtEnd(s, r, t, zero) && t.Valid()
    ensures match Finish(s)
            case Ok(i) => Finish(r).Ok? && Relayed(i, Finish(r).value, t, zero)
            case Err(e) => Finish(r) == Err(e)
  {}

  /** Fewer than four words, or no address: which one Parse stumbles over in the repaired body. */
  lemma RepairedError(ls: seq<string>)
    requires AllLines(ls) && FirstChosen(ls) < |ls| && forall i | 0 <= i < FirstChosen(ls) :: !IsAudio(ls[i])
    requires ParsedLines(Repaired(ls)).Err?
    ensures ParsedLines(Repaired(ls)).error == if |Fields(ls[FirstChosen(ls)])| < 4 then MalformedMedia else NoAddress
  {
    hide KindOf, LastAddr, ParsedLines, Repaired, AsAudio, Fields, Numbers;
    var a := FirstChosen(ls);
    RepairedSections(ls);
    ParsedMeaning(Repaired(ls));
    assert Line(ls[a]);
    AsAudioShape(ls[a]);
    ReadablePort(Fields(AsAudio(ls[a]))[1]);
  }

  /**
   What Parse makes of a rewritten body, for every body it accepts and every target: just what it makes of the
   repaired body, moved to the target; and the same error when it does not accept that. It accepts the rewritten body
   if and only if the stream Rewrite takes has a codec and an address.
   */
  lemma MovedMeans(ls: seq<string>, t: Target)
    requires AllLines(ls) && t.Valid() && ParsedLines(ls).Ok?
    ensures match ParsedLines(Repaired(ls))
            case Ok(i) =>
              var r := ParsedLines(Moved(ls, t));
              r.Ok? && Relayed(i, r.value, t, PortWord(Repaired(ls)) == "0")
            case Err(e) => ParsedLines(Moved(ls, t)) == Err(e)
    ensures ParsedLines(Moved(ls, t)).Ok? <==> Carries(ls)
  {
    hide KindOf, Fields, ScanLine, Repaired, AsAudio, IsAudio, Finish, MovedLines, Carries, PortWord, Alike;
    var a, ms := FirstChosen(ls), Repaired(ls);
    var zero := PortWord(ms) == "0";
    ParsedIsChosen(ls);
    RepairedParses(ls);
    RepairedMoved(OUTSIDE, ls, t);
    StartAlike(t, zero);
    if ParsedLines(ms).Err? { RepairedError(ls); }
    ChosenWords(ls[a]);
    if |Fields(ls[a])| == 3 {
      ShortAudioStops(START, START, OUTSIDE, ls, t, zero);
      NotCarried(ls);
    } else {
      ScanErrors(START, ms);
      FinishErrors(START, ms);
      AlikeLines(START, START, OUTSIDE, ms, t, zero);
      FinishBoth(ScanLines(START, ms).value, ScanLines(START, Moved(ls, t)).value, t, zero);
    }
  }

  lemma StartAlike(t: Target, zero: bool)
    ensures Alike(START, START, OUTSIDE, t, zero)
  {}

  lemma NotCarried(ls: seq<string>)
    requires FirstChosen(ls) < |ls| && |Fields(ls[FirstChosen(ls)])| < 4
    ensures !Carries(ls)
  {}

  /** An error other than a scan's comes from the end. */
  lemma FinishErrors(s: Scan, ls: seq<string>)
    requires ParsedFrom(s, ls) == Err(NoAddress) || ParsedFrom(s, ls).Ok?
    ensures ScanLines(s, ls).Ok?
  {
    hide ScanLines;
    ScanErrors(s, ls);
  }

  // ---- when the meaning is kept ----

  /** Two readings that come to the same call once they are moved to the target. */
  predicate SameCall(i: Info, j: Info, t: Target) {
    && i.formats == j.formats && i.direction == j.direction && i.dtmf == j.dtmf
    && (i.addr.IsUnspecified() == j.addr.IsUnspecified() || t.ip.IsUnspecified())
  }

  lemma RelayedIff(i: Info, j: Info, r: Info, t: Target, zi: bool, zj: bool)
    requires t.Valid() && Relayed(j, r, t, zj)
    ensures Relayed(i, r, t, zi) <==> SameCall(i, j, t) && zi == zj
  {}

  /** The rewritten body parses, to the call the body describes. */
  ghost predicate Kept(ls: seq<string>, t: Target)
    requires ParsedLines(ls).Ok?
  {
    var r := ParsedLines(Moved(ls, t));
    r.Ok? && Relayed(ParsedLines(ls).value, r.value, t, PortWord(ls) == "0")
  }

  /**
   Exactly when rewriting keeps the meaning, for every body Parse accepts: when the repaired body parses too, and
   describes the same call.
   */
  lemma MeaningKeptIff(ls: seq<string>, t: Target)
    requires AllLines(ls) && t.Valid() && ParsedLines(ls).Ok?
    ensures Kept(ls, t) <==>
            var j := ParsedLines(Repaired(ls));
            && j.Ok? && SameCall(ParsedLines(ls).value, j.value, t)
            && (PortWord(ls) == "0") == (PortWord(Repaired(ls)) == "0")
  {
    hide ParsedLines, Moved, Repaired, Relayed, SameCall, PortWord, Carries;
    MovedMeans(ls, t);
    var j, r := ParsedLines(Repaired(ls)), ParsedLines(Moved(ls, t));
    if j.Ok? {
      RelayedIff(ParsedLines(ls).value, j.value, r.value, t, PortWord(ls) == "0", PortWord(Repaired(ls)) == "0");
    }
  }

  /** The same for whole bodies: what the phone that gets the rewritten body reads. */
  lemma RewriteMeans(body: string, t: Target)
    requires t.Valid() && Parsed(body).Ok?
    ensures Rewritten(body, t).Ok?
    ensures var r, j := Parsed(Rewritten(body, t).value), ParsedLines(Repaired(Lines(body)));
            && (r.Ok? <==> Carries(Lines(body))) && (r.Ok? <==> j.Ok?)
            && (r.Ok? ==> Relayed(j.value, r.value, t, PortWord(Repaired(Lines(body))) == "0"))
    ensures Parsed(Rewritten(body, t).value) == ParsedLines(Moved(Lines(body), t))
  {
    hide ParsedLines, Moved, Repaired, Relayed, PortWord, Carries, Lines;
    LinesAreLines(body);
    LinesOfRewritten(body, t);
    MovedMeans(Lines(body), t);
  }

  /** A second rewriting works exactly then, and comes to one rewriting of the original. */
  lemma RewriteTwiceIff(body: string, t1: Target, t2: Target)
    requires t1.Valid() && !t1.ip.IsUnspecified() && Parsed(body).Ok?
    ensures Rewritten(body, t1).Ok?
    ensures Carries(Lines(body)) ==> Rewritten(Rewritten(body, t1).value, t2) == Rewritten(body, t2)
    ensures !Carries(Lines(body)) ==> Rewritten(Rewritten(body, t1).value, t2).Err?
  {
    hide Parsed, Carries, Lines, Rewritten;
    RewriteFailsWithParse(body, t1);
    RewriteMeans(body, t1);
    RewriteFailsWithParse(Rewritten(body, t1).value, t2);
    if Carries(Lines(body)) { LastWriteWins(body, t1, t2); }
  }

  // ---- plain bodies, and disabled streams ----

  /** A body is plain if and only if Rewrite takes the very line Parse does; and then the output always parses. */
  lemma PlainIff(ls: seq<string>, t: Target)
    requires AllLines(ls) && t.Valid() && ParsedLines(ls).Ok?
    ensures AudioPlain(ls) <==> FirstChosen(ls) == FirstAudio(ls)
    ensures AudioPlain(ls) ==> Carries(ls)
  {
    hide ParsedLines, KindOf, IsAudio, AudioWord, Carries, Moved, Finish, AudioPlain, Lines;
    ParsedHasAudio(ls);
    PlainUpTo(ls);
    if AudioPlain(ls) {
      LinesKeepMeaning(ls, t);
      MovedMeans(ls, t);
    }
  }

  lemma {:induction false} PlainUpTo(ls: seq<string>)
    requires FirstAudio(ls) < |ls| && Chosen(ls[FirstAudio(ls)])
    ensures AudioPlain(ls) <==> FirstChosen(ls) == FirstAudio(ls)
  {
    if !IsAudio(ls[0]) && !Chosen(ls[0]) { PlainUpTo(ls[1..]); }
  }

  /** A stream Parse finds disabled stays so if and only if its port word is just "0". */
  lemma DisabledIffZero(body: string, t: Target)
    requires t.Valid() && Parsed(body).Ok? && AudioPlain(Lines(body))
    ensures Rewritten(body, t).Ok? && Parsed(Rewritten(body, t).value).Ok?
    ensures Parsed(Rewritten(body, t).value).value.port == 0 <==> PortWord(Lines(body)) == "0"
  {
    hide ParsedLines, Moved, PortWord, AudioPlain, Lines;
    RewriteKeepsMeaning(body, t);
  }
}
