/**
 The SDP a phone gets back when it puts the call on hold or resumes it (handleHold, internal/b2bua/call.go): the
 SDP it already has, moved to the relay again, with the mirrored direction and the next session version.
 */
module HoldAnswers {
  import opened Basics
  import opened Text
  import opened Netip
  import opened SdpParse
  import opened SdpRewrite
  import opened RewriteTwice
  import opened RewriteMeaning
  import opened SdpDirection
  import opened SdpVersion
  import opened SdpOurs

  /** Old-style hold (c=0.0.0.0) is answered inactive. */
  function HoldDirection(offer: Info): (dir: string)
    ensures IsDirectionName(dir)
  {
    if offer.addr.IsUnspecified() then "inactive" else AnswerDirection(offer.direction)
  }

  /** The answer to an offer, from the SDP last sent to that phone. */
  function HoldAnswer(prev: string, t: Target, offer: Info): Result<string, ParseError> {
    match Rewritten(prev, t)
    case Err(e) => Err(e)
    case Ok(b) => Ok(Bumped(WithDirection(b, HoldDirection(offer))))
  }

  /**
   The direction of the answer: inactive to an offer at 0.0.0.0; else each side may send what the other may receive,
   and an offer without direction or with an unknown one counts as sendrecv.
   */
  predicate Mirrors(dir: string, offer: Info) {
    if offer.addr == Addr(0, 0, 0, 0) then dir == "inactive"
    else
      && MaySend(dir) == MayReceive(offer.direction) && MayReceive(dir) == MaySend(offer.direction)
      && (offer.direction == "sendonly" ==> dir == "recvonly") && (offer.direction == "recvonly" ==> dir == "sendonly")
      && (offer.direction == "inactive" ==> dir == "inactive") && (offer.direction == "sendrecv" ==> dir == "sendrecv")
  }

  /** What one answer says, compared with the SDP before it. */
  ghost predicate Answers(i: Info, r: Info, t: Target, offer: Info, zero: bool) {
    && r.formats == i.formats && r.dtmf == i.dtmf
    && IsDirectionName(r.direction) && Mirrors(r.direction, offer)
    && r.secure == t.key.Some? && r.cryptos == t.Keys()
    && r.addr == (if i.addr.IsUnspecified() then i.addr else t.ip)
    && r.port == (if zero then 0 else t.port)
  }

  lemma HoldMirrors(offer: Info)
    ensures Mirrors(HoldDirection(offer), offer)
  {
    AnswerIsMirror(offer.direction);
  }

  lemma LinesOfDirected(body: string, dir: string)
    requires IsDirectionName(dir)
    ensures Lines(WithDirection(body, dir)) == Directed(false, false, Lines(body), dir)
  {
    LinesAreLines(body);
    DirectedAreLines(false, false, Lines(body), dir);
    LinesUnlines(Directed(false, false, Lines(body), dir));
  }

  lemma OneHoldAnswer(prev: string, t: Target, offer: Info)
    requires t.Valid() && Parsed(prev).Ok? && AudioPlain(Lines(prev))
    ensures HoldAnswer(prev, t, offer).Ok?
    ensures var a := HoldAnswer(prev, t, offer).value;
            && Parsed(a).Ok? && Answers(Parsed(prev).value, Parsed(a).value, t, offer, PortWord(Lines(prev)) == "0")
            && OurLines(Lines(a), t)
            && Sessions(Lines(a)) == AdvanceAll(Sessions(Lines(prev)), 1)
  {
    hide HoldDirection, Mirrors;
    var dir := HoldDirection(offer);
    var b := Rewritten(prev, t).value;
    HoldMirrors(offer);
    RewriteKeepsMeaning(prev, t);
    SetDirectionMeaning(b, dir);
    BumpVersionMeaning(WithDirection(b, dir));
    HoldAnswerLines(prev, t, dir);
  }

  lemma HoldAnswerLines(prev: string, t: Target, dir: string)
    requires t.Valid() && Rewritten(prev, t).Ok? && IsDirectionName(dir)
    ensures var a := Bumped(WithDirection(Rewritten(prev, t).value, dir));
            OurLines(Lines(a), t) && Sessions(Lines(a)) == AdvanceAll(Sessions(Lines(prev)), 1)
  {
    var ls := Lines(prev);
    var b := Rewritten(prev, t).value;
    var moved := Moved(ls, t);
    var directed := Directed(false, false, moved, dir);
    LinesAreLines(prev);
    LinesOfRewritten(prev, t);
    LinesOfDirected(b, dir);
    LinesOfBumped(WithDirection(b, dir));
    DirectedAreLines(false, false, moved, dir);
    MovedOurs(OUTSIDE, ls, t);
    DirectedOurs(false, false, moved, dir, t);
    BumpedOurs(directed, t);
    MovedSessions(OUTSIDE, ls, t);
    DirectedSessions(false, false, moved, dir);
    BumpedSessions(directed);
  }

  // ---- runs ----

  /** One re-INVITE: the target of the answer (its key as negotiated) and the offer. */
  datatype HoldOffer = HoldOffer(t: Target, offer: Info)

  /** The SDP sent after answering some offers in turn. */
  function AnswerRun(start: string, offers: seq<HoldOffer>): Result<string, ParseError> {
    if offers == [] then Ok(start)
    else
      var last := offers[|offers| - 1];
      match AnswerRun(start, offers[..|offers| - 1])
      case Err(e) => Err(e)
      case Ok(prev) => HoldAnswer(prev, last.t, last.offer)
  }

  /** All answers go to one phone: the same relay address and port, whatever the keys. */
  ghost predicate OneLeg(offers: seq<HoldOffer>, ip: Addr, port: int) {
    forall i | 0 <= i < |offers| :: offers[i].t.Valid() && offers[i].t.ip == ip && offers[i].t.port == port
  }

  /** The state of the phone's SDP after n answers; the last one decides key and direction. */
  ghost predicate AfterRun(start: string, now: string, offers: seq<HoldOffer>, ip: Addr, port: int) {
    && Parsed(start).Ok? && Parsed(now).Ok? && AudioPlain(Lines(now))
    && Sessions(Lines(now)) == AdvanceAll(Sessions(Lines(start)), |offers|)
    && (offers != [] ==>
      var last := offers[|offers| - 1];
      && OurLines(Lines(now), last.t)
      && Answers(Parsed(start).value, Parsed(now).value, last.t, last.offer, PortWord(Lines(start)) == "0")
      && (PortWord(Lines(now)) == "0") == (PortWord(Lines(start)) == "0"))
  }

  /**
   Along any run of hold and resume offers, the n-th answer keeps the codec list, keypad type and session identity,
   has the session version n above the start (in 64 bits), carries exactly the key negotiated for it, and has the
   mirrored direction, or inactive for 0.0.0.0.
   */
  lemma {:induction false} HoldRun(start: string, offers: seq<HoldOffer>, ip: Addr, port: int)
    requires Parsed(start).Ok? && AudioPlain(Lines(start)) && OneLeg(offers, ip, port)
    ensures AnswerRun(start, offers).Ok?
    ensures AfterRun(start, AnswerRun(start, offers).value, offers, ip, port)
  {
    hide Mirrors, IsDirectionName, HoldAnswer, Lines, OurLines, AudioPlain, AdvanceAll, Sessions, PortWord, ParsedLines;
    if offers == [] {
      NoAdvance(Sessions(Lines(start)));
    } else {
      var n := |offers| - 1;
      var last := offers[n];
      HoldRun(start, offers[..n], ip, port);
      var prev := AnswerRun(start, offers[..n]).value;
      OneHoldAnswer(prev, last.t, last.offer);
      var now := AnswerRun(start, offers).value;
      AdvanceTwice(Sessions(Lines(start)), n, 1);
      OursArePlain(Lines(now), last.t);
      ParsedOurs(Lines(now), last.t);
    }
  }

  lemma {:induction false} NoAdvance(os: seq<Identity>)
    ensures AdvanceAll(os, 0) == os
  {
    if os != [] {
      NoAdvance(os[1..]);
    }
  }
}
