/**
 What the line editors leave alone (internal/sdp/sdp.go): codec lists, fmtp, ptime and vendor attributes of a phone pass
 through byte for byte. Lines are told apart here by their text alone.
 */
module PassThrough {
  import opened Basics
  import opened Text
  import opened Netip
  import opened SdpCrypto
  import opened SdpParse
  import opened SdpRewrite
  import opened RewriteLines
  import opened RewriteTwice
  import opened SdpDirection
  import opened SdpVersion
  import opened HoldAnswers
  import Base64

  /** The lines of a kind, in order. */
  function Select(ls: seq<string>, keep: string -> bool): seq<string> {
    if ls == [] then [] else (if keep(ls[0]) then [ls[0]] else []) + Select(ls[1..], keep)
  }

  lemma {:induction false} SelectBoth(a: seq<string>, b: seq<string>, keep: string -> bool)
    ensures Select(a + b, keep) == Select(a, keep) + Select(b, keep)
  {
    if a == [] {
      assert a + b == b;
    } else {
      assert (a + b)[1..] == a[1..] + b;
      SelectBoth(a[1..], b, keep);
    }
  }

  lemma SelectOne(l: string, keep: string -> bool)
    ensures Select([l], keep) == if keep(l) then [l] else []
  {
    assert [l][1..] == [];
  }

  /** Addresses, ports and streams. */
  predicate Redirected(l: string) { "o=" <= l || "c=" <= l || "m=" <= l }

  /** What the PBX writes anew where it belongs. */
  predicate Renewed(l: string) { "a=rtcp:" <= l || "a=crypto:" <= l }

  /** ICE, DTLS, ZRTP and rtcp-mux. */
  predicate Terminated(l: string) {
    || "a=candidate:" <= l || "a=ice-" <= l || l == "a=end-of-candidates" || l == "a=rtcp-mux"
    || "a=fingerprint:" <= l || "a=setup:" <= l || "a=zrtp-hash:" <= l
  }

  predicate SaysDirection(l: string) {
    l == "a=sendrecv" || l == "a=sendonly" || l == "a=recvonly" || l == "a=inactive"
  }

  predicate NotEdited(l: string) { !Redirected(l) && !Renewed(l) }

  predicate Untouched(l: string) { NotEdited(l) && !Terminated(l) }

  predicate Standing(l: string) { !Renewed(l) && !Terminated(l) }

  predicate NotRenewed(l: string) { !Renewed(l) }

  predicate Undirected(l: string) { !SaysDirection(l) }

  lemma Letters(l: string)
    ensures Redirected(l) ==> |l| >= 2 && (l[0] == 'o' || l[0] == 'c' || l[0] == 'm')
    ensures Renewed(l) ==> |l| >= 7 && l[0] == 'a' && ((l[2] == 'r' && l[6] == ':') || l[2] == 'c')
    ensures Renewed(l) ==> (l[2] == 'c' ==> l[3] == 'r') && (l[2] == 'r' ==> l[3] == 't')
    ensures "a=rtpmap:" <= l ==> |l| >= 9 && l[0] == 'a' && l[2] == 'r' && l[3] == 't' && l[4] == 'p'
  {}

  lemma TerminatedLetters(l: string)
    requires Terminated(l)
    ensures |l| >= 6 && l[0] == 'a'
    ensures l[2] == 'c' || l[2] == 'i' || l[2] == 'e' || l[2] == 'f' || l[2] == 's' || l[2] == 'z' || l == "a=rtcp-mux"
    ensures l[2] == 'c' ==> l[3] == 'a'
    ensures l[2] == 'i' ==> l[3] == 'c'
    ensures l[2] == 's' ==> l[4] == 't'
  {}

  lemma EditedByText(l: string)
    ensures KindOf(l) == Origin <==> "o=" <= l
    ensures KindOf(l) == Connection <==> "c=" <= l
    ensures KindOf(l) == Media <==> "m=" <= l
    ensures KindOf(l) == Rtcp <==> "a=rtcp:" <= l
    ensures KindOf(l) == KeyAttribute <==> "a=crypto:" <= l
    ensures KindOf(l) == Rtpmap <==> "a=rtpmap:" <= l
  {
    hide IsTransport;
    Letters(l);
  }

  lemma {:induction false} DroppedByText(l: string)
    ensures KindOf(l) == Transport <==> Terminated(l)
    ensures KindOf(l) == Direction <==> SaysDirection(l)
  {
    Letters(l);
    if Terminated(l) { TerminatedLetters(l); }
    if SaysDirection(l) { assert |l| >= 10 && l[0] == 'a' && (l[2] == 's' || l[2] == 'r' || l[2] == 'i'); }
  }

  /** The kinds the editors tell apart are these texts. */
  lemma KindByText(l: string)
    ensures KindOf(l) == Origin <==> "o=" <= l
    ensures KindOf(l) == Connection <==> "c=" <= l
    ensures KindOf(l) == Media <==> "m=" <= l
    ensures KindOf(l) == Rtcp <==> "a=rtcp:" <= l
    ensures KindOf(l) == KeyAttribute <==> "a=crypto:" <= l
    ensures KindOf(l) == Rtpmap <==> "a=rtpmap:" <= l
    ensures KindOf(l) == Transport <==> Terminated(l)
    ensures KindOf(l) == Direction <==> SaysDirection(l)
  {
    hide KindOf, Terminated, SaysDirection;
    EditedByText(l);
    DroppedByText(l);
  }

  lemma OriginByText(l: string)
    ensures KindOf(l) == Origin <==> "o=" <= l
  {
    hide KindOf;
    KindByText(l);
  }

  lemma MediaByText(l: string)
    ensures KindOf(l) == Media <==> "m=" <= l
  {
    hide KindOf;
    KindByText(l);
  }

  // ---- Rewrite: what is left alone ----

  /** What one line read comes to: itself if it is left alone, nothing if it is terminated, else no such line. */
  lemma EmitLeaves(w: Flags, line: string, t: Target)
    requires Line(line) && t.Valid()
    ensures Select(Emit(w, line, t), NotEdited) == if Untouched(line) then [line] else []
  {
    hide MoveOrigin, MoveConnection, MoveMedia, KeyLine, RtcpLine, Fields, Line;
    KindByText(line);
    ClosingLeaves(w, t);
    match KindOf(line)
    case Origin =>
      OriginMoved(line, t);
      OneEdited(MoveOrigin(line, t));
    case Connection =>
      ConnectionMoved(line, t);
      OneEdited(MoveConnection(line, t));
    case Media =>
      var m := MoveMedia(line, t, !w.seen && AudioWord(line));
      MediaMoved(line, t, !w.seen && AudioWord(line));
      OneEdited(m);
      SelectBoth(Closing(w, t), [m], NotEdited);
    case Rtcp =>
      RtcpLineShape(t);
      OneEdited(RtcpLine(t));
    case Transport =>
    case KeyAttribute =>
    case _ => SelectOne(line, NotEdited);
  }

  lemma OneEdited(l: string)
    requires KindOf(l) == Origin || KindOf(l) == Connection || KindOf(l) == Media || KindOf(l) == Rtcp
             || KindOf(l) == KeyAttribute
    ensures Select([l], NotEdited) == []
  {
    KindByText(l);
    SelectOne(l, NotEdited);
  }

  lemma ClosingLeaves(w: Flags, t: Target)
    requires t.Valid()
    ensures Select(Closing(w, t), NotEdited) == []
  {
    if w.inAudio && t.key.Some? {
      KeyLineShape(t.key.value);
      AttributeKind(KeyLine(t.key.value));
      OneEdited(KeyLine(t.key.value));
    }
  }

  lemma {:induction false} MovedLeaves(w: Flags, ls: seq<string>, t: Target)
    requires AllLines(ls) && t.Valid()
    ensures Select(MovedLines(w, ls, t), NotEdited) == Select(ls, Untouched)
    decreases |ls|
  {
    hide Emit, NotEdited, Untouched, Next;
    if ls == [] {
      ClosingLeaves(w, t);
    } else {
      EmitLeaves(w, ls[0], t);
      MovedLeaves(Next(w, ls[0]), ls[1..], t);
      SelectBoth(Emit(w, ls[0], t), MovedLines(Next(w, ls[0]), ls[1..], t), NotEdited);
    }
  }

  /**
   Every line that is no address, port, stream, key or ICE, DTLS, ZRTP or rtcp-mux attribute is in the rewritten body
   byte for byte and in order; and nothing else but the five kinds the PBX writes itself is.
   */
  lemma RewriteLeaves(body: string, t: Target)
    requires t.Valid() && Parsed(body).Ok?
    ensures Rewritten(body, t).Ok?
    ensures Select(Lines(Rewritten(body, t).value), NotEdited) == Select(Lines(body), Untouched)
  {
    LinesAreLines(body);
    LinesOfRewritten(body, t);
    MovedLeaves(OUTSIDE, Lines(body), t);
  }

  // ---- Rewrite: line by line ----

  /** An m= line whose first word says audio. */
  predicate AudioStream(l: string) { "m=" <= l && |Fields(l)| >= 3 && Fields(l)[0] == "m=audio" }

  ghost predicate FirstStream(ls: seq<string>, i: nat) {
    i < |ls| && AudioStream(ls[i]) && forall k | 0 <= k < i :: !AudioStream(ls[k])
  }

  /** The profile: SRTP exactly with a key, with feedback exactly if there was. */
  function ProfileFor(was: string, secure: bool): string {
    var feedback := |was| >= 4 && was[|was| - 4..] == "AVPF";
    if feedback then (if secure then "RTP/SAVPF" else "RTP/AVPF") else if secure then "RTP/SAVP" else "RTP/AVP"
  }

  /** One line and what became of it; audio says that it is the stream taken for the call. */
  ghost predicate BecameLine(line: string, out: string, audio: bool, t: Target) {
    var f, g := Fields(line), Fields(out);
    if "o=" <= line then
      "o=" <= out && if |f| == 6 then g == [f[0], f[1], f[2], f[3], "IP4", t.ip.ToString()] else out == line
    else if "c=" <= line then
      out == if ConnAddr(line).Some? && ConnAddr(line) != Some(Addr(0, 0, 0, 0)) then "c=IN IP4 " + t.ip.ToString()
             else line
    else if "m=" <= line then
      "m=" <= out &&
      if |f| < 3 then out == line
      else if audio then g == [f[0], if f[1] == "0" then "0" else Itoa(t.port), ProfileFor(f[2], t.key.Some?)] + f[3..]
      else g == [f[0], "0"] + f[2..]
    else out == line
  }

  ghost predicate BecameLines(ls: seq<string>, outs: seq<string>, seen: bool, t: Target) {
    && |ls| == |outs|
    && forall i | 0 <= i < |ls| :: BecameLine(ls[i], outs[i], !seen && FirstStream(ls, i), t)
  }

  lemma OriginBecomes(line: string, t: Target)
    requires "o=" <= line && Line(line)
    ensures BecameLine(line, MoveOrigin(line, t), false, t) && KindOf(MoveOrigin(line, t)) == Origin
  {
    hide Fields, Line, KindOf;
    OriginByText(line);
    OriginMoved(line, t);
    OriginByText(MoveOrigin(line, t));
  }

  lemma ConnectionBecomes(line: string, t: Target)
    requires "c=" <= line && Line(line)
    ensures BecameLine(line, MoveConnection(line, t), false, t) && KindOf(MoveConnection(line, t)) == Connection
  {
    hide Fields, Line, KindOf, ConnAddr;
    KindByText(line);
    ConnectionMoved(line, t);
  }

  lemma MediaBecomes(line: string, audio: bool, t: Target)
    requires "m=" <= line && Line(line)
    ensures BecameLine(line, MoveMedia(line, t, audio), audio, t) && KindOf(MoveMedia(line, t, audio)) == Media
  {
    hide Fields, Line, KindOf, Itoa;
    assert line[0] == 'm';
    MediaByText(line);
    MediaMoved(line, t, audio);
    MediaByText(MoveMedia(line, t, audio));
  }

  lemma StreamIsWord(line: string)
    ensures "m=" <= line ==> AudioStream(line) == AudioWord(line)
    ensures AudioStream(line) ==> "m=" <= line
  {}

  lemma OtherBecomes(line: string, t: Target, audio: bool)
    requires !Redirected(line)
    ensures BecameLine(line, line, audio, t)
  {}

  lemma NotAudio(line: string, out: string, audio: bool, t: Target)
    requires BecameLine(line, out, false, t) && !("m=" <= line)
    ensures BecameLine(line, out, audio, t)
  {}

  lemma EmitBecomes(w: Flags, line: string, t: Target)
    requires Line(line) && t.Valid()
    ensures var outs := Select(Emit(w, line, t), NotRenewed);
            if Standing(line) then |outs| == 1 && BecameLine(line, outs[0], !w.seen && AudioStream(line), t)
            else outs == []
  {
    hide KeyLine, RtcpLine, Line, Fields, BecameLine, MoveOrigin, MoveConnection, MoveMedia, AudioStream, AudioWord,
         KindOf, Select, Closing;
    var audio := !w.seen && AudioStream(line);
    KindByText(line);
    StreamIsWord(line);
    ClosingRenewed(w, t);
    match KindOf(line)
    case Origin =>
      OriginBecomes(line, t);
      NotAudio(line, MoveOrigin(line, t), audio, t);
      NotRenewedLine(MoveOrigin(line, t));
    case Connection =>
      ConnectionBecomes(line, t);
      NotAudio(line, MoveConnection(line, t), audio, t);
      NotRenewedLine(MoveConnection(line, t));
    case Media =>
      var m := MoveMedia(line, t, audio);
      MediaBecomes(line, audio, t);
      NotRenewedLine(m);
      SelectBoth(Closing(w, t), [m], NotRenewed);
    case Rtcp =>
      RtcpLineShape(t);
      KindByText(RtcpLine(t));
      SelectOne(RtcpLine(t), NotRenewed);
      SelectNone(NotRenewed);
    case Transport => SelectNone(NotRenewed);
    case KeyAttribute => SelectNone(NotRenewed);
    case _ =>
      OtherBecomes(line, t, audio);
      SelectOne(line, NotRenewed);
  }

  lemma SelectNone(keep: string -> bool)
    ensures Select([], keep) == []
  {}

  lemma NotRenewedLine(l: string)
    requires KindOf(l) == Origin || KindOf(l) == Connection || KindOf(l) == Media
    ensures Select([l], NotRenewed) == [l]
    ensures KindOf(l) == Origin ==> "o=" <= l
    ensures KindOf(l) == Media ==> "m=" <= l
  {
    KindByText(l);
    SelectOne(l, NotRenewed);
  }

  lemma ClosingRenewed(w: Flags, t: Target)
    requires t.Valid()
    ensures Select(Closing(w, t), NotRenewed) == []
  {
    if w.inAudio && t.key.Some? {
      KeyLineShape(t.key.value);
      SelectOne(KeyLine(t.key.value), NotRenewed);
    }
  }

  lemma {:induction false} MovedBecomes(w: Flags, ls: seq<string>, t: Target)
    requires AllLines(ls) && t.Valid()
    ensures BecameLines(Select(ls, Standing), Select(MovedLines(w, ls, t), NotRenewed), w.seen, t)
    decreases |ls|
  {
    hide Emit, NotRenewed, Standing, Next, BecameLine, AudioStream;
    if ls == [] {
      ClosingRenewed(w, t);
    } else {
      var v := Next(w, ls[0]);
      var head, tail := Emit(w, ls[0], t), MovedLines(v, ls[1..], t);
      EmitBecomes(w, ls[0], t);
      MovedBecomes(v, ls[1..], t);
      SelectBoth(head, tail, NotRenewed);
      SeenNext(w, ls[0]);
      OneMoreBecame(ls[0], Select(ls[1..], Standing), Select(head, NotRenewed), Select(tail, NotRenewed), w.seen, t);
    }
  }

  lemma SeenNext(w: Flags, line: string)
    ensures Next(w, line).seen == (w.seen || AudioStream(line))
    ensures AudioStream(line) ==> Standing(line)
  {
    hide Fields;
    KindByText(line);
    StreamIsWord(line);
  }

  lemma OneMoreBecame(line: string, ls: seq<string>, head: seq<string>, tail: seq<string>, seen: bool, t: Target)
    requires BecameLines(ls, tail, seen || AudioStream(line), t)
    requires if Standing(line) then |head| == 1 && BecameLine(line, head[0], !seen && AudioStream(line), t)
             else head == []
    requires AudioStream(line) ==> Standing(line)
    ensures BecameLines((if Standing(line) then [line] else []) + ls, head + tail, seen, t)
  {
    hide BecameLine, AudioStream, Standing;
    if Standing(line) {
      var all, outs := [line] + ls, head + tail;
      forall i | 0 <= i < |all| ensures BecameLine(all[i], outs[i], !seen && FirstStream(all, i), t) {
        if i > 0 {
          assert all[i] == ls[i - 1] && outs[i] == tail[i - 1];
          LaterStream(line, ls, i - 1);
        }
      }
    } else {
      assert [] + ls == ls && head + tail == tail;
    }
  }

  lemma LaterStream(line: string, ls: seq<string>, i: nat)
    requires i < |ls|
    ensures FirstStream([line] + ls, i + 1) <==> !AudioStream(line) && FirstStream(ls, i)
  {
    hide AudioStream;
    var all := [line] + ls;
    assert forall k | 0 <= k < |ls| :: all[k + 1] == ls[k];
    if FirstStream(all, i + 1) { assert all[0] == line; }
  }

  /**
   All lines but a=rtcp and a=crypto ones, in order and one for one: what became of each. Every stream but the one taken
   for audio gets port 0, and no word of any line changes but those named.
   */
  lemma RewriteLineByLine(body: string, t: Target)
    requires t.Valid() && Parsed(body).Ok?
    ensures Rewritten(body, t).Ok?
    ensures BecameLines(Select(Lines(body), Standing), Select(Lines(Rewritten(body, t).value), NotRenewed), false, t)
  {
    LinesAreLines(body);
    LinesOfRewritten(body, t);
    MovedBecomes(OUTSIDE, Lines(body), t);
  }

  // ---- Rewrite: what is written anew ----

  /** The lines up to the next stream. */
  function Section(ls: seq<string>): seq<string> {
    if ls == [] || "m=" <= ls[0] then [] else [ls[0]] + Section(ls[1..])
  }

  /** The lines of the stream taken for audio. */
  function StreamLines(ls: seq<string>): seq<string> {
    if ls == [] then [] else if AudioStream(ls[0]) then Section(ls[1..]) else StreamLines(ls[1..])
  }

  predicate HasStream(ls: seq<string>) { exists i | 0 <= i < |ls| :: AudioStream(ls[i]) }

  predicate GivesRtcp(l: string) { "a=rtcp:" <= l }

  function Copies(l: string, n: nat): seq<string> {
    if n == 0 then [] else [l] + Copies(l, n - 1)
  }

  function RtcpText(t: Target): string { "a=rtcp:" + Itoa(t.port + 1) + " IN IP4 " + t.ip.ToString() }

  function KeyText(k: Crypto): string {
    "a=crypto:" + Itoa(k.tag) + " " + k.suite + " inline:" + Base64.Encode(k.key)
  }

  lemma KeyTexts(k: Crypto)
    ensures KeyLine(k) == KeyText(k)
  {
    hide Itoa, Base64.Encode;
    var a, b, c := Itoa(k.tag), k.suite, Base64.Encode(k.key);
    assert "a=" + ("crypto:" + a + " " + b + " inline:" + c) == "a=crypto:" + a + " " + b + " inline:" + c;
  }

  /** The lines of the stream still to come, by the flags. */
  function StreamAhead(w: Flags, ls: seq<string>): seq<string> {
    if w.inAudio then Section(ls) else if w.seen then [] else StreamLines(ls)
  }

  ghost predicate Renews(w: Flags, ls: seq<string>, outs: seq<string>, t: Target) {
    Select(outs, Renewed) ==
    Copies(RtcpText(t), |Select(StreamAhead(w, ls), GivesRtcp)|)
    + if t.key.Some? && (w.inAudio || (!w.seen && HasStream(ls))) then [KeyText(t.key.value)] else []
  }

  lemma {:induction false} EmitRenews(w: Flags, line: string, t: Target)
    requires Line(line) && t.Valid()
    ensures Select(Emit(w, line, t), Renewed) ==
            if "a=rtcp:" <= line && w.inAudio then [RtcpText(t)]
            else if "m=" <= line && w.inAudio && t.key.Some? then [KeyText(t.key.value)]
            else []
  {
    hide MoveOrigin, MoveConnection, MoveMedia, AudioWord, KeyLine, Fields, Line, KindOf, Select, Closing;
    KindByText(line);
    ClosingKey(w, t);
    SelectNone(Renewed);
    match KindOf(line)
    case Origin =>
      OriginMoved(line, t);
      NotRenewedOne(MoveOrigin(line, t));
    case Connection =>
      ConnectionMoved(line, t);
      NotRenewedOne(MoveConnection(line, t));
    case Media =>
      var m := MoveMedia(line, t, !w.seen && AudioWord(line));
      MediaMoved(line, t, !w.seen && AudioWord(line));
      NotRenewedOne(m);
      SelectBoth(Closing(w, t), [m], Renewed);
    case Rtcp =>
      RtcpLineShape(t);
      KindByText(RtcpLine(t));
      SelectOne(RtcpLine(t), Renewed);
    case Transport =>
    case KeyAttribute =>
    case _ => SelectOne(line, Renewed);
  }

  lemma NotRenewedOne(l: string)
    requires KindOf(l) == Origin || KindOf(l) == Connection || KindOf(l) == Media
    ensures Select([l], Renewed) == []
  {
    KindByText(l);
    SelectOne(l, Renewed);
  }

  lemma ClosingKey(w: Flags, t: Target)
    requires t.Valid()
    ensures Select(Closing(w, t), Renewed) == if w.inAudio && t.key.Some? then [KeyText(t.key.value)] else []
  {
    if w.inAudio && t.key.Some? {
      KeyLineShape(t.key.value);
      KeyTexts(t.key.value);
      SelectOne(KeyLine(t.key.value), Renewed);
    }
  }

  lemma StreamStep(w: Flags, line: string, rest: seq<string>)
    requires w.inAudio ==> w.seen
    ensures var v, ls := Next(w, line), [line] + rest;
            && (v.inAudio ==> v.seen)
            && StreamAhead(w, ls) ==
               (if w.inAudio && !("m=" <= line) then [line] else []) + (if w.inAudio && "m=" <= line then []
                                                                        else StreamAhead(v, rest))
            && (w.inAudio && "m=" <= line ==> v.seen)
            && (HasStream(ls) <==> AudioStream(line) || HasStream(rest))
  {
    hide Fields;
    var ls := [line] + rest;
    assert ls[1..] == rest && ls[0] == line;
    KindByText(line);
    StreamIsWord(line);
    assert forall k | 0 <= k < |rest| :: ls[k + 1] == rest[k];
  }

  lemma {:induction false} OneMoreRenewed(w: Flags, line: string, rest: seq<string>, outs: seq<string>, t: Target)
    requires (w.inAudio ==> w.seen) && t.Valid() && Line(line) && Renews(Next(w, line), rest, outs, t)
    ensures Renews(w, [line] + rest, Emit(w, line, t) + outs, t)
  {
    hide Emit, Select, StreamAhead, HasStream, RtcpText, KeyText, Copies;
    var v, ls, rtcp := Next(w, line), [line] + rest, RtcpText(t);
    EmitRenews(w, line, t);
    SelectBoth(Emit(w, line, t), outs, Renewed);
    StreamStep(w, line, rest);
    SeenNext(w, line);
    InAudioNext(w, line);
    if w.inAudio && !("m=" <= line) {
      SelectHead(line, StreamAhead(v, rest), GivesRtcp);
      assert StreamAhead(w, ls) == [line] + StreamAhead(v, rest);
      CopiesNext(rtcp, |Select(StreamAhead(v, rest), GivesRtcp)|);
      NoneBefore(Select(outs, Renewed));
    } else if w.inAudio {
      SelectNone(GivesRtcp);
      NothingAhead(v, rest);
      CopiesNext(rtcp, 0);
      assert StreamAhead(w, ls) == [] + [] == [];
      assert Select(outs, Renewed) == [] + [] == [];
    } else {
      NoneBefore(StreamAhead(v, rest));
      NoneBefore(Select(outs, Renewed));
    }
  }

  lemma CopiesNext(l: string, n: nat)
    ensures Copies(l, n + 1) == [l] + Copies(l, n) && Copies(l, 0) == []
  {}

  lemma NoneBefore(ls: seq<string>)
    ensures [] + ls == ls
  {}

  lemma InAudioNext(w: Flags, line: string)
    ensures !("m=" <= line) ==> Next(w, line) == w
    ensures "m=" <= line ==> Next(w, line).inAudio == (!w.seen && AudioStream(line))
    ensures AudioStream(line) ==> "m=" <= line
  {
    hide Fields;
    KindByText(line);
    StreamIsWord(line);
  }

  lemma NothingAhead(w: Flags, ls: seq<string>)
    requires !w.inAudio && w.seen
    ensures StreamAhead(w, ls) == []
  {}

  lemma {:induction false} MovedRenews(w: Flags, ls: seq<string>, t: Target)
    requires (w.inAudio ==> w.seen) && t.Valid() && AllLines(ls)
    ensures Renews(w, ls, MovedLines(w, ls, t), t)
    decreases |ls|
  {
    hide Emit, Next, Renews;
    if ls == [] {
      NoneRenewed(w, t);
    } else {
      StreamStep(w, ls[0], ls[1..]);
      MovedRenews(Next(w, ls[0]), ls[1..], t);
      OneMoreRenewed(w, ls[0], ls[1..], MovedLines(Next(w, ls[0]), ls[1..], t), t);
      assert [ls[0]] + ls[1..] == ls;
    }
  }

  lemma NoneRenewed(w: Flags, t: Target)
    requires t.Valid()
    ensures Renews(w, [], Closing(w, t), t)
  {
    ClosingKey(w, t);
    assert !HasStream([]);
  }

  /**
   The rewritten body has the PBX's own a=rtcp line for each one the phone gave its audio stream, none for other
   streams, and then, if there is a key and an audio stream, that one key and no other.
   */
  lemma RewriteRenews(body: string, t: Target)
    requires t.Valid() && Parsed(body).Ok?
    ensures Rewritten(body, t).Ok?
    ensures var given := |Select(StreamLines(Lines(body)), GivesRtcp)|;
            Select(Lines(Rewritten(body, t).value), Renewed) ==
            Copies(RtcpText(t), given)
            + if t.key.Some? && HasStream(Lines(body)) then [KeyText(t.key.value)] else []
  {
    LinesAreLines(body);
    LinesOfRewritten(body, t);
    MovedRenews(OUTSIDE, Lines(body), t);
  }

  // ---- SetDirection ----

  /** The index of the first line of a kind, or the length. */
  function FirstOf(ls: seq<string>, such: string -> bool): (i: nat)
    ensures i <= |ls| && (forall k | 0 <= k < i :: !such(ls[k])) && (i < |ls| ==> such(ls[i]))
  {
    if ls == [] || such(ls[0]) then 0 else 1 + FirstOf(ls[1..], such)
  }

  predicate AudioLine(l: string) { "m=audio " <= l }

  predicate StreamLine(l: string) { "m=" <= l }

  /** Where the new direction goes after the audio line: before the next stream, or at the end. */
  function PlacedAhead(ls: seq<string>, dir: string): seq<string> {
    var e := FirstOf(ls, StreamLine);
    Select(ls[..e], Undirected) + ["a=" + dir] + Select(ls[e..], Undirected)
  }

  /** With everything else in place: the new direction at the end of the first audio section, if there is one. */
  function Placed(ls: seq<string>, dir: string): seq<string> {
    var a := FirstOf(ls, AudioLine);
    if a == |ls| then Select(ls, Undirected) else Select(ls[..a + 1], Undirected) + PlacedAhead(ls[a + 1..], dir)
  }

  lemma {:induction false} DirectedAfter(ls: seq<string>, dir: string)
    ensures Directed(false, true, ls, dir) == Select(ls, Undirected)
  {
    hide IsAudio;
    if ls != [] {
      KindByText(ls[0]);
      DirectedAfter(ls[1..], dir);
    }
  }

  lemma SelectHead(line: string, rest: seq<string>, keep: string -> bool)
    ensures Select([line] + rest, keep) == (if keep(line) then [line] else []) + Select(rest, keep)
  {
    SelectBoth([line], rest, keep);
    SelectOne(line, keep);
  }

  lemma {:induction false} PlacedNow(line: string, rest: seq<string>, dir: string)
    requires "m=" <= line
    ensures PlacedAhead([line] + rest, dir) == ["a=" + dir] + ([line] + Select(rest, Undirected))
  {
    hide Undirected, Select;
    var ls := [line] + rest;
    SelectNone(Undirected);
    SelectHead(line, rest, Undirected);
    MediaUndirected(line);
    assert FirstOf(ls, StreamLine) == 0 && ls[..0] == [] && ls[0..] == ls;
  }

  lemma {:induction false} PlacedLater(line: string, rest: seq<string>, dir: string)
    requires !("m=" <= line)
    ensures PlacedAhead([line] + rest, dir) == (if Undirected(line) then [line] else []) + PlacedAhead(rest, dir)
  {
    hide Undirected, Select;
    var ls := [line] + rest;
    assert ls[1..] == rest;
    var e := FirstOf(rest, StreamLine);
    assert ls[..e + 1] == [line] + rest[..e] && ls[e + 1..] == rest[e..];
    SelectHead(line, rest[..e], Undirected);
  }

  lemma {:induction false} DirectedInside(ls: seq<string>, dir: string)
    ensures Directed(true, false, ls, dir) == PlacedAhead(ls, dir)
  {
    hide IsAudio, Undirected, Select, PlacedAhead, KindOf;
    if ls == [] {
      NothingPlaced(dir);
    } else {
      var line, rest := ls[0], ls[1..];
      assert ls == [line] + rest;
      MediaByText(line);
      ByDirection(line);
      if "m=" <= line {
        DirectedAfter(rest, dir);
        PlacedNow(line, rest, dir);
        assert Directed(true, false, ls, dir) == [DirectionLine(dir)] + [line] + Directed(false, true, rest, dir);
      } else {
        DirectedInside(rest, dir);
        PlacedLater(line, rest, dir);
      }
    }
  }

  lemma NothingPlaced(dir: string)
    ensures PlacedAhead([], dir) == ["a=" + dir]
  {}

  lemma MediaUndirected(line: string)
    requires "m=" <= line
    ensures Undirected(line)
  {
    assert line[0] == 'm';
  }

  lemma ByDirection(line: string)
    ensures Undirected(line) <==> KindOf(line) != Direction
  {
    KindByText(line);
  }

  lemma {:induction false} PlacedEarlier(line: string, rest: seq<string>, dir: string)
    requires !("m=audio " <= line)
    ensures Placed([line] + rest, dir) == (if Undirected(line) then [line] else []) + Placed(rest, dir)
  {
    hide Undirected, Select, FirstOf, PlacedAhead;
    SelectHead(line, rest, Undirected);
    FirstLater(line, rest, AudioLine);
    var a := FirstOf(rest, AudioLine);
    if a < |rest| {
      Slices(line, rest, a + 1);
      SelectHead(line, rest[..a + 1], Undirected);
    }
  }

  lemma FirstLater(line: string, rest: seq<string>, such: string -> bool)
    requires !such(line)
    ensures FirstOf([line] + rest, such) == 1 + FirstOf(rest, such)
  {
    assert ([line] + rest)[1..] == rest;
  }

  lemma Slices(line: string, rest: seq<string>, e: nat)
    requires e <= |rest|
    ensures var ls := [line] + rest; ls[..e + 1] == [line] + rest[..e] && ls[e + 1..] == rest[e..]
  {}

  lemma {:induction false} PlacedHere(line: string, rest: seq<string>, dir: string)
    requires "m=audio " <= line
    ensures Placed([line] + rest, dir) == [line] + PlacedAhead(rest, dir)
  {
    hide Undirected, Select, FirstOf, PlacedAhead;
    FirstNow(line, rest, AudioLine);
    Slices(line, rest, 0);
    SelectOne(line, Undirected);
    AudioIsMedia(line);
    MediaUndirected(line);
  }

  lemma AudioIsMedia(line: string)
    requires "m=audio " <= line
    ensures "m=" <= line
  {}

  lemma FirstNow(line: string, rest: seq<string>, such: string -> bool)
    requires such(line)
    ensures FirstOf([line] + rest, such) == 0
  {}

  lemma {:induction false} DirectedOutside(ls: seq<string>, dir: string)
    ensures Directed(false, false, ls, dir) == Placed(ls, dir)
  {
    hide Undirected, Select, PlacedAhead, Placed, KindOf;
    if ls == [] {
      NoAudioPlaced(dir);
    } else {
      var line, rest := ls[0], ls[1..];
      assert ls == [line] + rest;
      MediaByText(line);
      ByDirection(line);
      if "m=audio " <= line {
        DirectedInside(rest, dir);
        PlacedHere(line, rest, dir);
        assert "m=" <= line && [] + [line] == [line];
      } else {
        DirectedOutside(rest, dir);
        PlacedEarlier(line, rest, dir);
        assert [] + [line] == [line];
      }
    }
  }

  lemma NoAudioPlaced(dir: string)
    ensures Placed([], dir) == []
  {}

  /**
   SetDirection leaves every line but the four direction lines as it was and in order, and puts the new one at the end
   of the first audio section; a body without one only loses its directions.
   */
  lemma DirectionLeaves(body: string, dir: string)
    requires IsDirectionName(dir)
    ensures Lines(WithDirection(body, dir)) == Placed(Lines(body), dir)
  {
    LinesAreLines(body);
    DirectedAreLines(false, false, Lines(body), dir);
    LinesUnlines(Directed(false, false, Lines(body), dir));
    DirectedOutside(Lines(body), dir);
  }

  // ---- BumpVersion ----

  /** One line and what became of it: only the third word of a six-word o= line with a 64-bit number there changes. */
  ghost predicate BumpedAs(line: string, out: string) {
    var f := Fields(line);
    if "o=" <= line && |f| == 6 && ParseUint(f[2]).Some? then
      "o=" <= out
      && Fields(out) == [f[0], f[1], Decimal((ParseUint(f[2]).value + 1) % 0x1_0000_0000_0000_0000), f[3], f[4], f[5]]
    else out == line
  }

  lemma OneBumped(line: string)
    requires Line(line)
    ensures BumpedAs(line, BumpLine(line))
  {
    hide Fields, KindOf, Line, ParseUint;
    OriginByText(line);
    if KindOf(line) == Origin && VersionOf(line).Some? {
      BumpedLine(line);
      OriginByText(BumpLine(line));
    }
  }

  /** BumpVersion changes no other line, and none but that word. */
  lemma BumpLeaves(body: string)
    ensures var ls, outs := Lines(body), Lines(Bumped(body));
            |outs| == |ls| && forall i | 0 <= i < |ls| :: BumpedAs(ls[i], outs[i])
  {
    hide Lines, BumpedAs;
    LinesAreLines(body);
    LinesOfBumped(body);
    BumpedLines(Lines(body));
    forall i | 0 <= i < |Lines(body)| ensures BumpedAs(Lines(body)[i], Lines(Bumped(body))[i]) {
      OneBumped(Lines(body)[i]);
    }
  }

  // ---- the answer to hold and resume ----

  predicate Kept(l: string) { Untouched(l) && !SaysDirection(l) }

  lemma {:induction false} SelectWithin(ls: seq<string>, wide: string -> bool, narrow: string -> bool)
    requires forall l :: narrow(l) ==> wide(l)
    ensures Select(Select(ls, wide), narrow) == Select(ls, narrow)
  {
    if ls != [] {
      SelectWithin(ls[1..], wide, narrow);
      var rest := Select(ls[1..], wide);
      if wide(ls[0]) { SelectHead(ls[0], rest, narrow); }
      assert [] + rest == rest;
    }
  }

  lemma KeptMoved(ls: seq<string>, t: Target)
    requires AllLines(ls) && t.Valid()
    ensures Select(Moved(ls, t), Kept) == Select(ls, Kept)
  {
    hide Select, Redirected, Renewed, Terminated, SaysDirection;
    MovedLeaves(OUTSIDE, ls, t);
    SelectWithin(Moved(ls, t), NotEdited, Kept);
    SelectWithin(ls, Untouched, Kept);
  }

  lemma {:induction false} KeptAhead(ls: seq<string>, dir: string)
    requires IsDirectionName(dir)
    ensures Select(PlacedAhead(ls, dir), Kept) == Select(ls, Kept)
  {
    hide Select, Redirected, Renewed, Terminated, SaysDirection, IsDirectionName, FirstOf;
    var e := FirstOf(ls, StreamLine);
    var x, y := Select(ls[..e], Undirected), Select(ls[e..], Undirected);
    DirectionNotKept(dir);
    SelectBoth(x + ["a=" + dir], y, Kept);
    SelectBoth(x, ["a=" + dir], Kept);
    SelectOne("a=" + dir, Kept);
    SelectWithin(ls[..e], Undirected, Kept);
    SelectWithin(ls[e..], Undirected, Kept);
    SelectBoth(ls[..e], ls[e..], Kept);
    assert ls[..e] + ls[e..] == ls;
  }

  lemma {:induction false} KeptPlaced(ls: seq<string>, dir: string)
    requires IsDirectionName(dir)
    ensures Select(Placed(ls, dir), Kept) == Select(ls, Kept)
  {
    hide Select, Redirected, Renewed, Terminated, SaysDirection, IsDirectionName, FirstOf, PlacedAhead;
    var a := FirstOf(ls, AudioLine);
    SelectWithin(ls, Undirected, Kept);
    if a < |ls| {
      var x, y := ls[..a + 1], ls[a + 1..];
      KeptAhead(y, dir);
      SelectWithin(x, Undirected, Kept);
      SelectBoth(Select(x, Undirected), PlacedAhead(y, dir), Kept);
      SelectBoth(x, y, Kept);
      assert x + y == ls;
    }
  }

  lemma DirectionNotKept(dir: string)
    requires IsDirectionName(dir)
    ensures !Kept("a=" + dir)
  {
    assert SaysDirection("a=" + dir);
  }

  lemma {:induction false} KeptBumped(ls: seq<string>)
    requires AllLines(ls)
    ensures Select(BumpLines(ls), Kept) == Select(ls, Kept)
  {
    hide Kept, Line, BumpLine;
    if ls != [] {
      KeptBumped(ls[1..]);
      OneKept(ls[0]);
      SelectHead(BumpLine(ls[0]), BumpLines(ls[1..]), Kept);
    }
  }

  lemma OneKept(line: string)
    requires Line(line)
    ensures if Kept(line) then BumpLine(line) == line else !Kept(BumpLine(line))
  {
    hide Fields, Line, ParseUint, Renewed, Terminated, SaysDirection;
    OneBumped(line);
  }

  /** The answer to hold or resume repeats every other line of the SDP the phone has, byte for byte and in order. */
  lemma HoldLeaves(prev: string, t: Target, offer: Info)
    requires t.Valid() && Parsed(prev).Ok?
    ensures HoldAnswer(prev, t, offer).Ok?
    ensures Select(Lines(HoldAnswer(prev, t, offer).value), Kept) == Select(Lines(prev), Kept)
  {
    hide Select, Kept, Lines, Parsed, Moved, HoldDirection, IsDirectionName, BumpLines, Placed;
    var dir, b := HoldDirection(offer), Rewritten(prev, t).value;
    var d := WithDirection(b, dir);
    LinesAreLines(prev);
    LinesOfRewritten(prev, t);
    KeptMoved(Lines(prev), t);
    DirectionLeaves(b, dir);
    KeptPlaced(Lines(b), dir);
    LinesAreLines(d);
    LinesOfBumped(d);
    KeptBumped(Lines(d));
  }
}
