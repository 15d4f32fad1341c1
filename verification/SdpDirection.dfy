/** Answering hold and resume: SetDirection, BumpVersion and AnswerDirection (internal/sdp/sdp.go). */
module SdpDirection {
  import opened Basics
  import opened Text
  import opened SdpParse

  predicate IsDirectionName(dir: string) {
    dir == "sendrecv" || dir == "sendonly" || dir == "recvonly" || dir == "inactive"
  }

  /** The mirror image of an offered direction. */
  function AnswerDirection(offer: string): (dir: string)
    ensures IsDirectionName(dir)
  {
    if offer == "sendonly" then "recvonly"
    else if offer == "recvonly" then "sendonly"
    else if offer == "inactive" then "inactive" else "sendrecv"
  }

  /** Who may send under a direction: the side that states it, and the other side. No direction means both. */
  predicate MaySend(dir: string) { dir != "recvonly" && dir != "inactive" }

  predicate MayReceive(dir: string) { dir != "sendonly" && dir != "inactive" }

  /** The answerer sends exactly what the offerer would receive, and the other way round, whatever was offered. */
  lemma AnswerIsMirror(offer: string)
    ensures MaySend(AnswerDirection(offer)) == MayReceive(offer)
    ensures MayReceive(AnswerDirection(offer)) == MaySend(offer)
  {}

  // ---- SetDirection ----

  function DirectionLine(dir: string): string { "a=" + dir }

  /** Lines with the direction set; inAudio and placed are SetDirection's flags. */
  function Directed(inAudio: bool, placed: bool, ls: seq<string>, dir: string): seq<string>
    decreases |ls|
  {
    var flush := if inAudio && !placed then [DirectionLine(dir)] else [];
    if ls == [] then flush
    else match KindOf(ls[0])
      case Direction => Directed(inAudio, placed, ls[1..], dir)
      case Media =>
        var placed' := placed || inAudio;
        flush + [ls[0]] + Directed(IsAudio(ls[0]) && !placed', placed', ls[1..], dir)
      case _ => [ls[0]] + Directed(inAudio, placed, ls[1..], dir)
  }

  /** The result of SetDirection. */
  function WithDirection(body: string, dir: string): string {
    Unlines(Directed(false, false, Lines(body), dir))
  }

  /** One line more of the pass: what was written and what is still to come. */
  lemma DirectedStep(out: seq<string>, inAudio: bool, placed: bool, ls: seq<string>, i: nat, dir: string)
    requires i < |ls| && out + Directed(inAudio, placed, ls[i..], dir) == Directed(false, false, ls, dir)
    ensures KindOf(ls[i]) == Direction ==>
        out + Directed(inAudio, placed, ls[i + 1..], dir) == Directed(false, false, ls, dir)
    ensures KindOf(ls[i]) == Media ==>
              (if inAudio && !placed then out + [DirectionLine(dir)] else out) + [ls[i]]
              + Directed(IsAudio(ls[i]) && !(placed || inAudio), placed || inAudio, ls[i + 1..], dir)
              == Directed(false, false, ls, dir)
    ensures KindOf(ls[i]) != Direction && KindOf(ls[i]) != Media ==>
              out + [ls[i]] + Directed(inAudio, placed, ls[i + 1..], dir) == Directed(false, false, ls, dir)
  {
    hide KindOf, IsAudio;
    assert ls[i..][1..] == ls[i + 1..];
  }

  lemma DirectedStop(out: seq<string>, inAudio: bool, placed: bool, ls: seq<string>, dir: string)
    requires out + Directed(inAudio, placed, ls[|ls|..], dir) == Directed(false, false, ls, dir)
    ensures (if inAudio && !placed then out + [DirectionLine(dir)] else out) == Directed(false, false, ls, dir)
  {
    assert ls[|ls|..] == [];
    assert out + [] == out;
  }

  method SetDirection(body: string, dir: string) returns (r: string)
    ensures r == WithDirection(body, dir)
  {
    var ls := Lines(body);
    var out: seq<string> := [];
    var inAudio, placed := false, false;
    for i := 0 to |ls|
      invariant out + Directed(inAudio, placed, ls[i..], dir) == Directed(false, false, ls, dir)
      invariant inAudio ==> !placed
    {
      DirectedStep(out, inAudio, placed, ls, i, dir);
      if KindOf(ls[i]) != Direction {
        if KindOf(ls[i]) == Media {
          if inAudio && !placed {
            out := out + [DirectionLine(dir)];
            placed := true;
          }
          inAudio := IsAudio(ls[i]) && !placed;
        }
        out := out + [ls[i]];
      }
    }
    DirectedStop(out, inAudio, placed, ls, dir);
    if inAudio && !placed {
      out := out + [DirectionLine(dir)];
    }
    r := Unlines(out);
  }

  // ---- what Parse sees after SetDirection ----

  lemma DirectionLineShape(dir: string)
    requires IsDirectionName(dir)
    ensures KindOf(DirectionLine(dir)) == Direction && Line(DirectionLine(dir)) && DirectionLine(dir)[2..] == dir
  {
    var l := DirectionLine(dir);
    assert IsDirection(l);
    DirectionKind(l);
    assert l[2..] == dir;
  }

  lemma DirectionKind(l: string)
    requires IsDirection(l)
    ensures KindOf(l) == Direction && Line(l)
  {
    assert l[0] == 'a' && l[|l| - 1] != '\n';
    assert l[2] == 's' || l[2] == 'i' || (l[2] == 'r' && l[3] == 'e');
  }

  lemma {:induction false} DirectedAreLines(inAudio: bool, placed: bool, ls: seq<string>, dir: string)
    requires AllLines(ls) && IsDirectionName(dir)
    ensures AllLines(Directed(inAudio, placed, ls, dir))
    decreases |ls|
  {
    hide IsDirectionName, DirectionLine, Line, KindOf, IsAudio;
    DirectionLineShape(dir);
    if ls != [] {
      DirectedAreLines(inAudio, placed, ls[1..], dir);
      DirectedAreLines(IsAudio(ls[0]) && !(placed || inAudio), placed || inAudio, ls[1..], dir);
    }
  }

  /** Parse's flags on the original and on the edited body: the same but for directions. */
  ghost predicate AlikeButDirection(s: Scan, r: Scan) {
    r == s.(sessionDir := r.sessionDir, mediaDir := r.mediaDir)
  }

  /** The scan of the edited body has seen no direction except the one set, once the section has ended. */
  ghost predicate DirectionSet(r: Scan, placed: bool, dir: string) {
    r.sessionDir == "" && r.mediaDir == if placed then dir else ""
  }

  ghost predicate Track(s: Scan, r: Scan, placed: bool, dir: string) {
    && AlikeButDirection(s, r) && DirectionSet(r, placed, dir)
    && (s.inAudio ==> s.found && !placed && !s.done) && (s.found && !s.inAudio ==> placed)
    && (!s.found ==> !placed && !s.done)
  }

  lemma ScanDirectionLine(r: Scan, dir: string)
    requires IsDirectionName(dir) && r.inAudio && r.seenM
    ensures ScanLine(r, DirectionLine(dir)) == Ok(r.(mediaDir := dir))
  {
    DirectionLineShape(dir);
  }

  /** The result of Parse, with another direction. */
  function Redirected(p: Result<Info, ParseError>, dir: string): Result<Info, ParseError> {
    match p
    case Err(e) => Err(e)
    case Ok(i) => Ok(i.(direction := dir))
  }

  lemma FinishTrack(s: Scan, r: Scan, dir: string)
    requires AlikeButDirection(s, r) && DirectionSet(r, s.found, dir) && dir != ""
    ensures Finish(r) == Redirected(Finish(s), dir)
  {}

  lemma ParsedCons(r: Scan, line: string, rest: seq<string>)
    ensures ParsedFrom(r, [line] + rest) ==
            match ScanLine(r, line) case Err(e) => Err(e) case Ok(t) => ParsedFrom(t, rest)
  {
    assert ([line] + rest)[1..] == rest;
  }

  lemma {:induction false} DirectedParse(s: Scan, r: Scan, placed: bool, ls: seq<string>, dir: string)
    requires IsDirectionName(dir) && Track(s, r, placed, dir) && (s.inAudio ==> s.seenM)
    ensures ParsedFrom(r, Directed(s.inAudio, placed, ls, dir)) == Redirected(ParsedFrom(s, ls), dir)
    decreases |ls|
  {
    hide IsAudio, Redirected, Finish, ScanMedia, IsDirectionName, KindOf, RtcpPort, UsableKey, Before;
    if ls == [] {
      DirectedEnd(s, r, placed, dir);
    } else {
      var line, rest := ls[0], ls[1..];
      match KindOf(line)
      case Direction => DirectedParse(ScanLine(s, line).value, r, placed, rest, dir);
      case Media => DirectedMedia(s, r, placed, ls, dir);
      case _ =>
        DirectedKept(s, r, placed, line, dir);
        ParsedCons(r, line, Directed(s.inAudio, placed, rest, dir));
        DirectedParse(ScanLine(s, line).value, ScanLine(r, line).value, placed, rest, dir);
    }
  }

  lemma DirectedEnd(s: Scan, r: Scan, placed: bool, dir: string)
    requires IsDirectionName(dir) && Track(s, r, placed, dir) && (s.inAudio ==> s.seenM)
    ensures ParsedFrom(r, Directed(s.inAudio, placed, [], dir)) == Redirected(ParsedFrom(s, []), dir)
  {
    if s.inAudio {
      ScanDirectionLine(r, dir);
      ParsedCons(r, DirectionLine(dir), []);
      assert [DirectionLine(dir)] + [] == [DirectionLine(dir)];
      FinishTrack(s, r.(mediaDir := dir), dir);
    } else {
      FinishTrack(s, r, dir);
    }
  }

  lemma DirectedKept(s: Scan, r: Scan, placed: bool, line: string, dir: string)
    requires Track(s, r, placed, dir) && KindOf(line) != Media && KindOf(line) != Direction
    ensures ScanLine(s, line).Ok? && ScanLine(r, line).Ok?
    ensures var s', r' := ScanLine(s, line).value, ScanLine(r, line).value;
            Track(s', r', placed, dir) && s'.inAudio == s.inAudio && s'.seenM == s.seenM
  {}

  lemma ScanMediaAlike(s: Scan, r: Scan, line: string)
    requires AlikeButDirection(s, r)
    ensures match ScanMedia(s, line)
            case Err(e) => ScanMedia(r, line) == Err(e)
            case Ok(t) => ScanMedia(r, line) == Ok(t.(sessionDir := r.sessionDir, mediaDir := r.mediaDir))
  {}

  lemma TrackMedia(s: Scan, r: Scan, placed: bool, line: string, dir: string)
    requires Track(s, r, placed, dir) && KindOf(line) == Media && ScanMedia(s, line).Ok?
    ensures var r1 := if s.inAudio then r.(mediaDir := dir) else r;
            && ScanMedia(r1, line).Ok?
            && Track(ScanMedia(s, line).value, ScanMedia(r1, line).value, placed || s.inAudio, dir)
            && ScanMedia(s, line).value.inAudio == (IsAudio(line) && !(placed || s.inAudio))
            && ScanMedia(s, line).value.seenM
  {}

  lemma {:induction false} DirectedMedia(s: Scan, r: Scan, placed: bool, ls: seq<string>, dir: string)
    requires IsDirectionName(dir) && Track(s, r, placed, dir) && (s.inAudio ==> s.seenM)
    requires ls != [] && KindOf(ls[0]) == Media
    ensures ParsedFrom(r, Directed(s.inAudio, placed, ls, dir)) == Redirected(ParsedFrom(s, ls), dir)
    decreases |ls|, 0
  {
    hide IsAudio, ScanMedia, Finish;
    var line, rest := ls[0], ls[1..];
    var placed' := placed || s.inAudio;
    var tail := Directed(IsAudio(line) && !placed', placed', rest, dir);
    var r1 := if s.inAudio then r.(mediaDir := dir) else r;
    if s.inAudio {
      ScanDirectionLine(r, dir);
      assert [DirectionLine(dir)] + [line] + tail == [DirectionLine(dir)] + ([line] + tail);
      ParsedCons(r, DirectionLine(dir), [line] + tail);
    } else {
      assert [] + [line] + tail == [line] + tail;
    }
    ParsedCons(r1, line, tail);
    ScanMediaAlike(s, r1, line);
    if ScanMedia(s, line).Ok? {
      TrackMedia(s, r, placed, line, dir);
      DirectedParse(ScanMedia(s, line).value, ScanMedia(r1, line).value, placed', rest, dir);
    }
  }

  /** SetDirection changes the direction and nothing else, for every body; a body Parse refuses is refused alike. */
  lemma SetDirectionMeaning(body: string, dir: string)
    requires IsDirectionName(dir)
    ensures Parsed(WithDirection(body, dir)) == Redirected(Parsed(body), dir)
  {
    LinesAreLines(body);
    DirectedAreLines(false, false, Lines(body), dir);
    LinesUnlines(Directed(false, false, Lines(body), dir));
    DirectedParse(START, START, false, Lines(body), dir);
  }
}
