/** What Parse finds, said without the scan: by the sections of the body. */
module SdpMeaning {
  import opened Basics
  import opened Text
  import opened Netip
  import opened SdpCrypto
  import opened SdpParse

  /** The index of the first m= line, or the length. */
  function FirstMedia(ls: seq<string>): (n: nat)
    ensures n <= |ls| && forall i | 0 <= i < n :: KindOf(ls[i]) != Media
    ensures n < |ls| ==> KindOf(ls[n]) == Media
  {
    if ls == [] || KindOf(ls[0]) == Media then 0 else 1 + FirstMedia(ls[1..])
  }

  /** The index of the first audio line, or the length. */
  function FirstAudio(ls: seq<string>): (n: nat)
    ensures n <= |ls| && forall i | 0 <= i < n :: !IsAudio(ls[i])
    ensures n < |ls| ==> IsAudio(ls[n])
  {
    if ls == [] || IsAudio(ls[0]) then 0 else 1 + FirstAudio(ls[1..])
  }

  /** The lines before any media. */
  function Session(ls: seq<string>): seq<string> { UpToMedia(ls) }

  function UpToMedia(ls: seq<string>): seq<string> { ls[..FirstMedia(ls)] }

  /** The attribute lines of the first audio stream. */
  function Section(ls: seq<string>): seq<string> {
    var a := FirstAudio(ls);
    if a == |ls| then [] else UpToMedia(ls[a + 1..])
  }

  // The last usable value of each kind; all keys, in order.

  function LastAddr(sec: seq<string>): Option<Addr> {
    if sec == [] then None
    else var l := sec[|sec| - 1];
      if KindOf(l) == Connection && ConnAddr(l).Some? then ConnAddr(l) else LastAddr(sec[..|sec| - 1])
  }

  function LastDirection(sec: seq<string>): string {
    if sec == [] then ""
    else var l := sec[|sec| - 1]; if KindOf(l) == Direction then l[2..] else LastDirection(sec[..|sec| - 1])
  }

  function LastEvent(sec: seq<string>): int {
    if sec == [] then -1
    else var l := sec[|sec| - 1];
      if KindOf(l) == Rtpmap && EventType(l).Some? then EventType(l).value else LastEvent(sec[..|sec| - 1])
  }

  function LastRtcp(sec: seq<string>): int {
    if sec == [] then 0
    else var l := sec[|sec| - 1];
      if KindOf(l) == Rtcp && RtcpPort(l).Some? then RtcpPort(l).value else LastRtcp(sec[..|sec| - 1])
  }

  function Keys(sec: seq<string>): seq<Crypto> {
    if sec == [] then []
    else var l := sec[|sec| - 1];
      var before := Keys(sec[..|sec| - 1]);
      if KindOf(l) == KeyAttribute && UsableKey(l).Some? then before + [UsableKey(l).value] else before
  }

  /** The values a section's lines leave. */
  datatype View = View(addr: Option<Addr>, direction: string, rtcp: int, keys: seq<Crypto>, event: int)

  function ViewOf(sec: seq<string>): View {
    View(LastAddr(sec), LastDirection(sec), LastRtcp(sec), Keys(sec), LastEvent(sec))
  }

  /** The result of Parse in terms of the sections: media level wins over session level, sendrecv is the default. */
  function Meaning(ls: seq<string>): Result<Info, ParseError> {
    var a := FirstAudio(ls);
    if a == |ls| then Err(NoAudio) else MeaningOf(ls[a], ViewOf(Session(ls)), ViewOf(Section(ls)))
  }

  function MeaningOf(audio: string, session: View, section: View): Result<Info, ParseError> {
    var f := Fields(audio);
    if |f| < 4 then Err(MalformedMedia)
    else match Atoi(Before(f[1], '/'))
      case None => Err(BadPort)
      case Some(port) =>
        match (if section.addr.Some? then section.addr else session.addr)
        case None => Err(NoAddress)
        case Some(addr) =>
          Ok(Info(addr, port, if section.rtcp == 0 && port != 0 then port + 1 else section.rtcp,
                  if section.direction != "" then section.direction
                  else if session.direction != "" then session.direction else "sendrecv",
                  Contains(f[2], "SAVP"), section.keys, Numbers(f[3..]), section.event))
  }

  lemma ScanLast(s: Scan, sec: seq<string>)
    requires sec != []
    ensures var n := |sec| - 1;
            ScanLines(s, sec) == match ScanLines(s, sec[..n]) case Err(e) => Err(e) case Ok(t) => ScanLine(t, sec[n])
  {
    var n := |sec| - 1;
    assert sec == sec[..n] + [sec[n]];
    ScanConcat(s, sec[..n], [sec[n]]);
  }

  lemma ScanNothing(s: Scan)
    ensures ScanLines(s, []) == Ok(s)
  {}

  lemma ScanSessionLine(s: Scan, sec: seq<string>)
    requires sec != [] && !s.seenM && !s.inAudio && KindOf(sec[|sec| - 1]) != Media
    requires s.sessionAddr == LastAddr(sec[..|sec| - 1]) && s.sessionDir == LastDirection(sec[..|sec| - 1])
    ensures ScanLine(s, sec[|sec| - 1]) == Ok(s.(sessionAddr := LastAddr(sec), sessionDir := LastDirection(sec)))
  {
    hide KindOf, ConnAddr, UsableKey, ScanMedia;
  }

  lemma {:induction false} ScanSession(sec: seq<string>)
    requires forall i | 0 <= i < |sec| :: KindOf(sec[i]) != Media
    ensures ScanLines(START, sec) == Ok(START.(sessionAddr := LastAddr(sec), sessionDir := LastDirection(sec)))
  {
    hide ScanLines, KindOf;
    if sec == [] {
      ScanNothing(START);
    } else {
      var n := |sec| - 1;
      ScanSession(sec[..n]);
      ScanLast(START, sec);
      ScanSessionLine(START.(sessionAddr := LastAddr(sec[..n]), sessionDir := LastDirection(sec[..n])), sec);
    }
  }

  /** Other streams before the audio leave no trace. */
  lemma {:induction false} ScanSkipped(s: Scan, sec: seq<string>)
    requires s.seenM && !s.inAudio && !s.found && !s.done
    requires forall i | 0 <= i < |sec| :: !IsAudio(sec[i])
    ensures ScanLines(s, sec) == Ok(s)
  {
    if sec != [] {
      assert ScanLine(s, sec[0]) == Ok(s);
      ScanSkipped(s, sec[1..]);
    }
  }

  /** The flags after the lines of the audio section. */
  function InSection(s: Scan, v: View): Scan {
    s.(mediaAddr := v.addr, mediaDir := v.direction,
       info := s.info.(rtcpPort := v.rtcp, cryptos := v.keys, dtmf := v.event))
  }

  ghost predicate FreshAudio(s: Scan) {
    s.seenM && s.inAudio && s.mediaAddr == None && s.mediaDir == "" &&
    s.info.rtcpPort == 0 && s.info.cryptos == [] && s.info.dtmf == -1
  }

  lemma {:induction false} ScanSection(s: Scan, sec: seq<string>)
    requires FreshAudio(s)
    requires forall i | 0 <= i < |sec| :: KindOf(sec[i]) != Media
    ensures ScanLines(s, sec) == Ok(InSection(s, ViewOf(sec)))
  {
    if sec != [] {
      ScanSection(s, sec[..|sec| - 1]);
      ScanLast(s, sec);
      ScanSectionLine(s, sec);
    }
  }

  lemma ScanSectionLine(s: Scan, sec: seq<string>)
    requires FreshAudio(s) && sec != [] && KindOf(sec[|sec| - 1]) != Media
    ensures ScanLine(InSection(s, ViewOf(sec[..|sec| - 1])), sec[|sec| - 1]) == Ok(InSection(s, ViewOf(sec)))
  {}

  lemma {:induction false} ScanDone(s: Scan, ls: seq<string>)
    requires s.seenM && s.done && !s.inAudio
    ensures ScanLines(s, ls) == Ok(s)
  {
    if ls != [] {
      assert ScanLine(s, ls[0]) == Ok(s);
      ScanDone(s, ls[1..]);
    }
  }

  lemma AudioIsMedia(line: string)
    requires IsAudio(line)
    ensures KindOf(line) == Media && Fields(line) != [] && Fields(line)[0] == "m=audio"
  {
    assert Word("m=audio") && "m=audio" < line && line[7] == ' ';
    FirstField("m=audio", line);
    assert line[0] == 'm' && line[1] == '=';
  }

  /** The session and skipped lines up to the audio line. */
  lemma ScanOthers(s: Scan, sec: seq<string>)
    requires !s.inAudio && !s.found && !s.done
    requires sec != [] && KindOf(sec[0]) == Media && forall i | 0 <= i < |sec| :: !IsAudio(sec[i])
    ensures ScanLines(s, sec) == Ok(s.(seenM := true))
  {
    hide KindOf, IsAudio;
    assert ScanLine(s, sec[0]) == Ok(s.(seenM := true));
    ScanSkipped(s.(seenM := true), sec[1..]);
  }

  lemma ScanBefore(ls: seq<string>)
    ensures ScanLines(START, ls[..FirstAudio(ls)]) == Ok(AtAudio(ls))
    ensures FirstMedia(ls) <= FirstAudio(ls)
  {
    hide LastAddr, LastDirection, KindOf, RtcpPort, FirstAudio;
    var m, a := FirstMedia(ls), FirstAudio(ls);
    if a < m {
      AudioIsMedia(ls[a]);
    }
    var s := START.(sessionAddr := LastAddr(Session(ls)), sessionDir := LastDirection(Session(ls)));
    ScanSession(ls[..m]);
    assert ls[..a] == ls[..m] + ls[m..a];
    ScanConcat(START, ls[..m], ls[m..a]);
    if m < a {
      ScanOthers(s, ls[m..a]);
    } else {
      assert ls[m..a] == [];
    }
  }

  ghost predicate BeforeAudio(s: Scan) {
    !s.done && !s.found && s.info == BLANK && s.mediaAddr == None && s.mediaDir == ""
  }

  lemma ScanAudioLine(s: Scan, line: string)
    requires BeforeAudio(s) && IsAudio(line)
    ensures ScanLine(s, line) == ScanMedia(s, line)
    ensures ScanMedia(s, line).Ok? ==> FreshAudio(ScanMedia(s, line).value) && ScanMedia(s, line).value.found
  {
    AudioIsMedia(line);
  }

  /** After the section's lines nothing more counts. */
  lemma ScanRest(t: Scan, rest: seq<string>)
    requires FreshAudio(t) && t.found
    ensures ParsedFrom(t, rest) == Finish(InSection(t, ViewOf(UpToMedia(rest))))
  {
    hide FirstMedia, ViewOf;
    var m := FirstMedia(rest);
    var u := InSection(t, ViewOf(rest[..m]));
    ScanSection(t, rest[..m]);
    assert rest == rest[..m] + rest[m..];
    ScanConcat(t, rest[..m], rest[m..]);
    ScanTail(u, rest[m..]);
  }

  lemma ScanTail(u: Scan, tail: seq<string>)
    requires u.seenM && u.found
    requires tail != [] ==> KindOf(tail[0]) == Media
    ensures ParsedFrom(u, tail) == Finish(u)
  {
    if tail != [] {
      var v := u.(inAudio := false, done := true);
      assert ScanLine(u, tail[0]) == Ok(v);
      ScanDone(v, tail[1..]);
    }
  }

  lemma FinishMeaning(s: Scan, line: string, session: View, section: View)
    requires BeforeAudio(s) && IsAudio(line)
    requires s.sessionAddr == session.addr && s.sessionDir == session.direction
    ensures match ScanMedia(s, line)
            case Err(e) => MeaningOf(line, session, section) == Err(e)
            case Ok(t) => Finish(InSection(t, section)) == MeaningOf(line, session, section)
  {
    hide IsAudio, Fields, Atoi, Before, Contains, Numbers;
  }

  /** The flags when the scan reaches the audio line, or the end. */
  function AtAudio(ls: seq<string>): Scan {
    START.(sessionAddr := LastAddr(Session(ls)), sessionDir := LastDirection(Session(ls)),
           seenM := FirstMedia(ls) < FirstAudio(ls))
  }

  lemma ParsedAfter(ls: seq<string>, a: nat, s: Scan)
    requires a <= |ls| && ScanLines(START, ls[..a]) == Ok(s)
    ensures ParsedLines(ls) == ParsedFrom(s, ls[a..])
  {
    assert ls == ls[..a] + ls[a..];
    ScanConcat(START, ls[..a], ls[a..]);
  }

  lemma FromAudio(ls: seq<string>, a: nat, s: Scan, session: View)
    requires a < |ls| && IsAudio(ls[a]) && BeforeAudio(s)
    requires s.sessionAddr == session.addr && s.sessionDir == session.direction
    ensures ParsedFrom(s, ls[a..]) == MeaningOf(ls[a], session, ViewOf(UpToMedia(ls[a + 1..])))
  {
    var rest := ls[a + 1..];
    var next := ScanStep(s, ls, a);
    ScanAudioLine(s, ls[a]);
    if next.Ok? {
      ScanRest(next.value, rest);
    }
    FinishMeaning(s, ls[a], session, ViewOf(UpToMedia(rest)));
  }

  /** The scan finds what the sections mean, for every list of lines and with the same errors. */
  lemma ParsedMeaning(ls: seq<string>)
    ensures ParsedLines(ls) == Meaning(ls)
  {
    hide ScanLine, KindOf, LastAddr, LastDirection, MeaningOf;
    ScanBefore(ls);
    ParsedAfter(ls, FirstAudio(ls), AtAudio(ls));
    if FirstAudio(ls) < |ls| {
      FromAudio(ls, FirstAudio(ls), AtAudio(ls), ViewOf(Session(ls)));
    }
  }
}
