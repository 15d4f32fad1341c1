/** Redirecting an SDP body to the relay (Rewrite and audioProto, internal/sdp/sdp.go). */
module SdpRewrite {
  import opened Basics
  import opened Text
  import opened Netip
  import opened SdpCrypto
  import opened SdpParse

  /** Where audio is sent instead: RTP to ip:port, RTCP to port+1, SRTP when there is a key. */
  datatype Target = Target(ip: Addr, port: int, key: Option<Crypto>) {
    ghost predicate Valid() {
      1 <= port < MAX_INT && (key.Some? ==> key.value.WellFormed())
    }

    function Keys(): seq<Crypto> {
      if key.Some? then [key.value] else []
    }
  }

  function AudioProto(proto: string, secure: bool): string {
    if HasSuffix(proto, "AVPF") then (if secure then "RTP/SAVPF" else "RTP/AVPF")
    else if secure then "RTP/SAVP" else "RTP/AVP"
  }

  // ---- single lines ----

  function MoveOrigin(line: string, t: Target): string {
    var f := Fields(line);
    if |f| == 6 then Join(f[..4] + ["IP4", t.ip.ToString()]) else line
  }

  function MoveConnection(line: string, t: Target): string
    requires |line| >= 2
  {
    var a := ConnAddr(line);
    if a.Some? && !a.value.IsUnspecified() then ConnectionLine(t) else line
  }

  function ConnectionLine(t: Target): string { "c=IN IP4 " + t.ip.ToString() }

  function RtcpLine(t: Target): string { "a=rtcp:" + Itoa(t.port + 1) + " IN IP4 " + t.ip.ToString() }

  /** Rewrite's test for an audio line: by its first word. */
  predicate AudioWord(line: string) {
    var f := Fields(line);
    |f| >= 3 && f[0] == "m=audio"
  }

  /** The words of a rewritten m= line. */
  function MoveWords(f: seq<string>, t: Target, audio: bool): seq<string>
    requires |f| >= 3
  {
    if audio then [f[0], if f[1] == "0" then "0" else Itoa(t.port), AudioProto(f[2], t.key.Some?)] + f[3..]
    else [f[0], "0"] + f[2..]
  }

  function MoveMedia(line: string, t: Target, audio: bool): string {
    var f := Fields(line);
    if |f| >= 3 then Join(MoveWords(f, t, audio)) else line
  }

  // ---- the pass over the lines ----

  /** Rewrite's flags: inside the audio section, and past its start. */
  datatype Flags = Flags(inAudio: bool, seen: bool)

  const OUTSIDE := Flags(false, false)

  /** The line that ends an audio section. */
  function Closing(w: Flags, t: Target): seq<string> {
    if w.inAudio && t.key.Some? then [KeyLine(t.key.value)] else []
  }

  function Next(w: Flags, line: string): Flags {
    if KindOf(line) != Media then w
    else if AudioWord(line) && !w.seen then Flags(true, true) else Flags(false, w.seen)
  }

  /** The lines written for one line read. */
  function Emit(w: Flags, line: string, t: Target): seq<string> {
    match KindOf(line)
    case Origin => [MoveOrigin(line, t)]
    case Connection => [MoveConnection(line, t)]
    case Media => Closing(w, t) + [MoveMedia(line, t, !w.seen && AudioWord(line))]
    case Rtcp => if w.inAudio then [RtcpLine(t)] else []
    case Transport => []
    case KeyAttribute => []
    case _ => [line]
  }

  function MovedLines(w: Flags, ls: seq<string>, t: Target): seq<string>
    decreases |ls|
  {
    if ls == [] then Closing(w, t) else Emit(w, ls[0], t) + MovedLines(Next(w, ls[0]), ls[1..], t)
  }

  function Moved(ls: seq<string>, t: Target): seq<string> {
    MovedLines(OUTSIDE, ls, t)
  }

  /** The result of Rewrite. */
  function Rewritten(body: string, t: Target): Result<string, ParseError> {
    match Parsed(body)
    case Err(e) => Err(e)
    case Ok(_) => Ok(Unlines(Moved(Lines(body), t)))
  }

  /** One line more of the pass: what was written and what is still to come. */
  lemma MovedStep(out: seq<string>, w: Flags, ls: seq<string>, i: nat, t: Target)
    requires i < |ls| && out + MovedLines(w, ls[i..], t) == Moved(ls, t)
    ensures out + Emit(w, ls[i], t) + MovedLines(Next(w, ls[i]), ls[i + 1..], t) == Moved(ls, t)
  {
    assert ls[i..][1..] == ls[i + 1..];
  }

  lemma MovedEnd(out: seq<string>, w: Flags, ls: seq<string>, t: Target)
    requires out + MovedLines(w, ls[|ls|..], t) == Moved(ls, t)
    ensures out + Closing(w, t) == Moved(ls, t)
  {
    assert ls[|ls|..] == [];
  }

  /** Rewrite: one pass, writing lines as it goes. */
  method Rewrite(body: string, t: Target) returns (r: Result<string, ParseError>)
    ensures r == Rewritten(body, t)
  {
    hide Parsed, MoveOrigin, MoveConnection, MoveMedia, AudioWord, Lines, Unlines, KeyLine, RtcpLine, MovedLines;
    var parsed := Parse(body);
    if parsed.Err? {
      return Err(parsed.error);
    }
    var out: seq<string> := [];
    var inAudio, audioSeen := false, false;
    var ls := Lines(body);
    for i := 0 to |ls|
      invariant out + MovedLines(Flags(inAudio, audioSeen), ls[i..], t) == Moved(ls, t)
    {
      var line := ls[i];
      ghost var before, w := out, Flags(inAudio, audioSeen);
      MovedStep(out, w, ls, i, t);
      match KindOf(line) {
      case Origin => out := out + [MoveOrigin(line, t)];
      case Connection => out := out + [MoveConnection(line, t)];
      case Media =>
        if inAudio && t.key.Some? { out := out + [KeyLine(t.key.value)]; }
        inAudio := false;
        if AudioWord(line) && !audioSeen {
          audioSeen, inAudio := true, true;
          out := out + [MoveMedia(line, t, true)];
        } else {
          out := out + [MoveMedia(line, t, false)];
        }
      case Rtcp => if inAudio { out := out + [RtcpLine(t)]; }
      case Transport =>
      case KeyAttribute =>
      case _ => out := out + [line];
      }
      assert out == before + Emit(w, line, t);
      assert Flags(inAudio, audioSeen) == Next(w, line);
    }
    MovedEnd(out, Flags(inAudio, audioSeen), ls, t);
    assert out + [] == out;
    if inAudio && t.key.Some? {
      out := out + [KeyLine(t.key.value)];
    }
    r := Ok(Unlines(out));
  }

  /** Rewrite fails exactly when Parse does, so a parsed offer can always be rewritten for every phone. */
  lemma RewriteFailsWithParse(body: string, t: Target)
    ensures Rewritten(body, t).Err? <==> Parsed(body).Err?
  {}
}
