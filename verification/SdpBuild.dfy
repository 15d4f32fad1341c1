/** SDP for audio the PBX terminates itself (Build, internal/sdp/sdp.go). */
module SdpBuild {
  import opened Basics
  import opened Text
  import opened Netip
  import opened SdpCrypto
  import opened SdpParse
  import opened SdpRewrite
  import opened RewriteLines
  import opened RewriteMeaning
  import opened SdpDirection

  /** direction "" means sendrecv; dtmf -1 means none. */
  datatype Local = Local(
    ip: Addr, port: nat, pt: nat, dtmf: int, key: Option<Crypto>, sessionId: nat, version: nat, direction: string)
  {
    ghost predicate Valid() {
      && port < MAX_INT && pt <= MAX_INT && -1 <= dtmf <= MAX_INT
      && (key.Some? ==> key.value.WellFormed())
      && (direction == "" || IsDirectionName(direction))
    }

    function At(): Target { Target(ip, port, key) }
  }

  function OriginLine(l: Local): string {
    "o=" + Join(["sipbxgo", Decimal(l.sessionId), Decimal(l.version), "IN", "IP4", l.ip.ToString()])
  }

  function AudioWords(l: Local): seq<string> {
    ["m=audio", Itoa(l.port), if l.key.Some? then "RTP/SAVP" else "RTP/AVP", Itoa(l.pt)]
    + if l.dtmf >= 0 then [Itoa(l.dtmf)] else []
  }

  function RtpmapLine(pt: int, codec: string): string {
    "a=rtpmap:" + Join([Itoa(pt), codec])
  }

  function Header(l: Local): seq<string> {
    ["v=0", OriginLine(l), "s=SIPBXGO", ConnectionLine(l.At()), "t=0 0"]
  }

  function CodecLine(pt: int): string { RtpmapLine(pt, if pt == 8 then "PCMA/8000" else "PCMU/8000") }

  function EventMap(dtmf: int): string { RtpmapLine(dtmf, "telephone-event/8000") }

  function EventRange(dtmf: int): string { "a=fmtp:" + Itoa(dtmf) + " 0-15" }

  function EventLines(l: Local): seq<string> {
    if l.dtmf >= 0 then [EventMap(l.dtmf), EventRange(l.dtmf)] else []
  }

  /** The direction written, which is the direction Parse gives. */
  function DirectionOf(l: Local): string { if l.direction == "" then "sendrecv" else l.direction }

  function Tail(l: Local): seq<string> {
    ["a=ptime:20", DirectionLine(DirectionOf(l))] + Closing(Flags(true, true), l.At())
  }

  function Attributes(l: Local): seq<string> {
    [CodecLine(l.pt)] + EventLines(l) + Tail(l)
  }

  function BuiltLines(l: Local): seq<string> {
    Header(l) + [Join(AudioWords(l))] + Attributes(l)
  }

  /** The result of Build. */
  function Built(l: Local): string {
    Unlines(BuiltLines(l))
  }

  // ---- every line, as Lines and Parse see it ----

  lemma OriginLineShape(l: Local)
    ensures Line(OriginLine(l)) && KindOf(OriginLine(l)) == Origin
  {
    var ws := ["sipbxgo", Decimal(l.sessionId), Decimal(l.version), "IN", "IP4", l.ip.ToString()];
    DigitsAreWord(Decimal(l.sessionId));
    DigitsAreWord(Decimal(l.version));
    AddrRoundTrip(l.ip);
    assert Word("sipbxgo") && Word("IN") && Word("IP4");
    JoinIsLine(ws);
    PrefixedLine("o=", Join(ws));
    PrefixedKind(OriginLine(l));
  }

  /** Lines of no kind the SDP functions tell apart, by their first and third characters. */
  lemma OtherKind(l: string)
    requires |l| >= 3 && l[0] != 'o' && l[0] != 'c' && l[0] != 'm'
    requires l[0] == 'a' ==> l[2] == 'p'
    ensures KindOf(l) == Other
  {
    assert !("o=" <= l) && !("c=" <= l) && !("m=" <= l);
    assert !("a=rtpmap:" <= l) && !("a=crypto:" <= l) && !("a=rtcp:" <= l);
    assert !IsDirection(l);
  }

  lemma ShortOther(l: string)
    requires l == "v=0" || l == "t=0 0" || l == "s=SIPBXGO" || l == "a=ptime:20"
    ensures Line(l) && KindOf(l) == Other
  {
    OtherKind(l);
  }

  lemma FixedLines()
    ensures Line("v=0") && KindOf("v=0") == Other && Line("s=SIPBXGO") && KindOf("s=SIPBXGO") == Other
    ensures Line("t=0 0") && KindOf("t=0 0") == Other && Line("a=ptime:20") && KindOf("a=ptime:20") == Other
  {
    ShortOther("v=0");
    ShortOther("s=SIPBXGO");
    ShortOther("t=0 0");
    ShortOther("a=ptime:20");
  }

  lemma HeaderScan(l: Local)
    ensures AllLines(Header(l))
    ensures ScanLines(START, Header(l)) == Ok(START.(sessionAddr := Some(l.ip)))
  {
    hide KindOf, ConnectionLine;
    FixedLines();
    OriginLineShape(l);
    ConnectionLineShape(l.At());
    var h := Header(l);
    var s := START.(sessionAddr := Some(l.ip));
    ScanOther(START, h[..3]);
    ScanOther(s, h[4..]);
    ScanOne(START, h[3]);
    ScanConcat(START, h[..3], [h[3]]);
    ScanConcat(START, h[..3] + [h[3]], h[4..]);
    assert h == h[..3] + [h[3]] + h[4..];
  }

  lemma {:induction false} ScanOther(s: Scan, ls: seq<string>)
    requires forall i | 0 <= i < |ls| :: KindOf(ls[i]) == Other || KindOf(ls[i]) == Origin
    ensures ScanLines(s, ls) == Ok(s)
  {
    if ls != [] {
      ScanOther(s, ls[1..]);
    }
  }

  lemma AudioProfile(l: Local)
    ensures Word(AudioWords(l)[2]) && Contains(AudioWords(l)[2], "SAVP") == l.key.Some?
  {
    ProtoWords();
    if l.key.Some? { SecureNames(); } else { PlainNames(); }
  }

  lemma AudioPortWord(l: Local)
    requires l.Valid()
    ensures Word(Itoa(l.port)) && Atoi(Before(Itoa(l.port), '/')) == Some(l.port)
  {
    ItoaIsWord(l.port);
    IndexOfAbsent(Itoa(l.port), '/');
    AtoiItoa(l.port);
  }

  lemma AudioWordsShape(l: Local)
    requires l.Valid()
    ensures Words(AudioWords(l)) && AudioWords(l)[0] == "m=audio" && "m=" <= "m=audio" && "m=audio" + " " == "m=audio "
  {
    hide Itoa;
    AudioProfile(l);
    AudioPortWord(l);
    ItoaIsWord(l.pt);
    ItoaIsWord(l.dtmf);
  }

  function Formats(l: Local): seq<int> {
    [l.pt] + if l.dtmf >= 0 then [l.dtmf] else []
  }

  lemma NumbersOf(n: nat, rest: seq<string>)
    requires n <= MAX_INT
    ensures Numbers([Itoa(n)] + rest) == [n] + Numbers(rest)
  {
    AtoiItoa(n);
    assert ([Itoa(n)] + rest)[1..] == rest;
  }

  lemma AudioFormats(l: Local)
    requires l.Valid()
    ensures Numbers(AudioWords(l)[3..]) == Formats(l)
  {
    var rest := if l.dtmf >= 0 then [Itoa(l.dtmf)] else [];
    assert AudioWords(l)[3..] == [Itoa(l.pt)] + rest;
    NumbersOf(l.pt, rest);
    if l.dtmf >= 0 {
      NumbersOf(l.dtmf, []);
      assert [Itoa(l.dtmf)] + [] == rest;
    }
  }

  function AtAudio(s: Scan, l: Local): Scan {
    s.(seenM := true, inAudio := true, found := true,
       info := s.info.(port := l.port, secure := l.key.Some?, formats := Formats(l)))
  }

  lemma AudioLineScan(s: Scan, l: Local)
    requires l.Valid() && !s.found && !s.done
    ensures Line(Join(AudioWords(l))) && ScanLine(s, Join(AudioWords(l))) == Ok(AtAudio(s, l))
  {
    var f := AudioWords(l);
    AudioWordsShape(l);
    AudioProfile(l);
    AudioPortWord(l);
    AudioFormats(l);
    Rejoined("m=", f);
    JoinStartsWith(f);
  }

  lemma RtpmapText(w: string, l: string)
    requires Line(w) && l == "a=rtpmap:" + w
    ensures Line(l) && KindOf(l) == Rtpmap && l[9..] == w
  {
    PrefixedLine("a=rtpmap:", w);
    assert "a=rtpmap:" <= l && l[0] == 'a';
  }

  lemma RtpmapShape(pt: nat, codec: string)
    requires pt <= MAX_INT && Word(codec)
    ensures var l := RtpmapLine(pt, codec);
            Line(l) && KindOf(l) == Rtpmap
                && EventType(l) == if "telephone-event/8000" <= Lower(codec) then Some(pt) else None
  {
    var ws := [Itoa(pt), codec];
    ItoaIsWord(pt);
    AtoiItoa(pt);
    FieldsJoin(ws);
    JoinIsLine(ws);
    RtpmapText(Join(ws), RtpmapLine(pt, codec));
  }

  lemma CodecNames(name: string)
    requires name == "PCMA/8000" || name == "PCMU/8000"
    ensures Word(name) && !("telephone-event/8000" <= Lower(name))
  {
    assert Lower(name)[0] == 'p';
  }

  lemma {:induction false} LowerOfLower(s: string)
    requires forall i | 0 <= i < |s| :: !('A' <= s[i] <= 'Z')
    ensures Lower(s) == s
  {
    if s != "" {
      LowerOfLower(s[1..]);
    }
  }

  lemma CodecLineShape(pt: nat)
    requires pt <= MAX_INT
    ensures Line(CodecLine(pt)) && KindOf(CodecLine(pt)) == Rtpmap && EventType(CodecLine(pt)) == None
  {
    var codec := if pt == 8 then "PCMA/8000" else "PCMU/8000";
    CodecNames(codec);
    RtpmapShape(pt, codec);
  }

  lemma EventMapShape(dtmf: nat)
    requires dtmf <= MAX_INT
    ensures Line(EventMap(dtmf)) && KindOf(EventMap(dtmf)) == Rtpmap && EventType(EventMap(dtmf)) == Some(dtmf)
  {
    EventName("telephone-event/8000");
    RtpmapShape(dtmf, "telephone-event/8000");
  }

  lemma EventName(e: string)
    requires e == "telephone-event/8000"
    ensures Word(e) && e <= Lower(e)
  {
    assert forall i | 0 <= i < |e| :: 'a' <= e[i] <= 'z' || e[i] == '-' || e[i] == '/' || '0' <= e[i] <= '9';
    LowerOfLower(e);
  }

  lemma EventRangeText(dtmf: nat)
    ensures Line(EventRange(dtmf)) && "a=fmtp:" <= EventRange(dtmf)
  {
    hide KindOf, Itoa;
    var l := EventRange(dtmf);
    ItoaIsWord(dtmf);
    NoBreak(Itoa(dtmf));
    assert l[|l| - 1] == '5';
  }

  lemma NoBreak(w: string)
    requires Word(w)
    ensures '\n' !in w
  {}

  lemma FmtpKind(l: string)
    requires "a=fmtp:" <= l
    ensures KindOf(l) == Other
  {
    assert l[0] == 'a' && l[2] == 'f' && l[3] == 'm';
  }

  lemma EventRangeShape(dtmf: nat)
    ensures Line(EventRange(dtmf)) && KindOf(EventRange(dtmf)) == Other
  {
    hide KindOf, EventRange;
    EventRangeText(dtmf);
    FmtpKind(EventRange(dtmf));
  }

  lemma EventScan(s: Scan, l: Local)
    requires l.Valid() && s.inAudio
    ensures AllLines(EventLines(l))
    ensures ScanLines(s, EventLines(l)) == Ok(if l.dtmf >= 0 then s.(info := s.info.(dtmf := l.dtmf)) else s)
  {
    hide EventMap, EventRange;
    if l.dtmf >= 0 {
      EventMapShape(l.dtmf);
      EventRangeShape(l.dtmf);
      ScanTwo(s, EventMap(l.dtmf), EventRange(l.dtmf), s.(info := s.info.(dtmf := l.dtmf)));
    }
  }

  lemma TailScan(s: Scan, l: Local)
    requires l.Valid() && s.inAudio && s.seenM
    ensures AllLines(Tail(l))
    ensures ScanLines(s, Tail(l)) ==
            Ok(s.(mediaDir := DirectionOf(l), info := s.info.(cryptos := s.info.cryptos + l.At().Keys())))
  {
    hide KindOf;
    var s' := s.(mediaDir := DirectionOf(l));
    FixedLines();
    DirectionLineShape(DirectionOf(l));
    ScanTwo(s, "a=ptime:20", DirectionLine(DirectionOf(l)), s);
    ScanConcat(s, ["a=ptime:20", DirectionLine(DirectionOf(l))], Closing(Flags(true, true), l.At()));
    KeyScan(s', l);
  }

  lemma KeyScan(s: Scan, l: Local)
    requires l.Valid() && s.inAudio
    ensures AllLines(Closing(Flags(true, true), l.At()))
    ensures ScanLines(s, Closing(Flags(true, true), l.At())) ==
            Ok(s.(info := s.info.(cryptos := s.info.cryptos + l.At().Keys())))
  {
    hide KeyLine;
    if l.key.Some? {
      KeyLineShape(l.key.value);
      AttributeKind(KeyLine(l.key.value));
      ScanOne(s, KeyLine(l.key.value));
    } else {
      assert s.info.cryptos + [] == s.info.cryptos;
    }
  }

  lemma CodecEventScan(s: Scan, l: Local)
    requires l.Valid() && s.inAudio && s.info.dtmf == -1
    ensures AllLines([CodecLine(l.pt)] + EventLines(l))
    ensures ScanLines(s, [CodecLine(l.pt)] + EventLines(l)) == Ok(s.(info := s.info.(dtmf := l.dtmf)))
  {
    CodecLineShape(l.pt);
    ScanOne(s, CodecLine(l.pt));
    EventScan(s, l);
    ScanConcat(s, [CodecLine(l.pt)], EventLines(l));
  }

  lemma AttributesScan(s: Scan, l: Local)
    requires l.Valid() && s.inAudio && s.seenM && s.info.cryptos == [] && s.info.dtmf == -1
    ensures AllLines(Attributes(l))
    ensures ScanLines(s, Attributes(l)) ==
            Ok(s.(mediaDir := DirectionOf(l), info := s.info.(dtmf := l.dtmf, cryptos := l.At().Keys())))
  {
    CodecEventScan(s, l);
    TailScan(s.(info := s.info.(dtmf := l.dtmf)), l);
    ScanConcat(s, [CodecLine(l.pt)] + EventLines(l), Tail(l));
    assert [] + l.At().Keys() == l.At().Keys();
  }

  lemma BuiltScan(l: Local)
    requires l.Valid()
    ensures AllLines(BuiltLines(l))
    ensures ScanLines(START, BuiltLines(l)) ==
            Ok(AtAudio(START, l).(sessionAddr := Some(l.ip), mediaDir := DirectionOf(l),
                 info := AtAudio(START, l).info.(dtmf := l.dtmf, cryptos := l.At().Keys())))
  {
    hide Attributes, AudioWords;
    var s := START.(sessionAddr := Some(l.ip));
    var m := Join(AudioWords(l));
    HeaderScan(l);
    AudioLineScan(s, l);
    AttributesScan(AtAudio(s, l), l);
    ScanOne(s, m);
    ScanConcat(START, Header(l), [m]);
    ScanConcat(START, Header(l) + [m], Attributes(l));
  }

  /** Parse reads back exactly what Build was given, for every well-formed description. */
  lemma BuildRoundTrip(l: Local)
    requires l.Valid()
    ensures Parsed(Built(l)) ==
            Ok(Info(l.ip, l.port, if l.port != 0 then l.port + 1 else 0, DirectionOf(l), l.key.Some?,
                    l.At().Keys(), Formats(l), l.dtmf))
  {
    hide Formats, Attributes, Header, BuiltLines, Lines, Unlines, ScanLines;
    BuiltScan(l);
    LinesUnlines(BuiltLines(l));
  }

  // ---- the text ----

  /** The lines Build writes, as its templates: l.pt 8 is PCMA, anything else PCMU. */
  function TextLines(l: Local): seq<string> {
    var ip, pt, event := l.ip.ToString(), Itoa(l.pt), Itoa(l.dtmf);
    ["v=0", "o=sipbxgo " + Decimal(l.sessionId) + " " + Decimal(l.version) + " IN IP4 " + ip, "s=SIPBXGO"]
    + ["c=IN IP4 " + ip, "t=0 0"]
    + ["m=audio " + Itoa(l.port) + (if l.key.Some? then " RTP/SAVP " else " RTP/AVP ") + pt
       + if l.dtmf >= 0 then " " + event else ""]
    + ["a=rtpmap:" + pt + if l.pt == 8 then " PCMA/8000" else " PCMU/8000"]
    + (if l.dtmf >= 0 then ["a=rtpmap:" + event + " telephone-event/8000", "a=fmtp:" + event + " 0-15"] else [])
    + ["a=ptime:20", "a=" + if l.direction == "" then "sendrecv" else l.direction]
    + if l.key.Some? then ["a=" + l.key.value.ToString()] else []
  }

  lemma JoinMore(w: string, ws: seq<string>)
    requires ws != []
    ensures Join([w] + ws) == w + " " + Join(ws)
  {
    assert ([w] + ws)[1..] == ws;
  }

  lemma OriginText(l: Local)
    ensures OriginLine(l) ==
            "o=sipbxgo " + Decimal(l.sessionId) + " " + Decimal(l.version) + " IN IP4 " + l.ip.ToString()
  {
    hide Decimal, Join;
    var id, version, ip := Decimal(l.sessionId), Decimal(l.version), l.ip.ToString();
    JoinThree("IN", "IP4", ip);
    JoinMore(version, ["IN", "IP4", ip]);
    JoinMore(id, [version] + ["IN", "IP4", ip]);
    JoinMore("sipbxgo", [id] + ([version] + ["IN", "IP4", ip]));
    assert ["sipbxgo"] + ([id] + ([version] + ["IN", "IP4", ip])) == ["sipbxgo", id, version, "IN", "IP4", ip];
    OriginConcat(id, version, ip);
  }

  lemma OriginConcat(id: string, version: string, ip: string)
    ensures "o=" + ("sipbxgo" + " " + (id + " " + (version + " " + ("IN" + " " + "IP4" + " " + ip)))) ==
            "o=sipbxgo " + id + " " + version + " IN IP4 " + ip
  {
    assert "o=" + ("sipbxgo" + " ") == "o=sipbxgo " && " " + ("IN" + " " + "IP4" + " ") == " IN IP4 ";
  }

  lemma AudioText(l: Local)
    ensures Join(AudioWords(l)) ==
            "m=audio " + Itoa(l.port) + (if l.key.Some? then " RTP/SAVP " else " RTP/AVP ") + Itoa(l.pt)
            + if l.dtmf >= 0 then " " + Itoa(l.dtmf) else ""
  {
    hide Itoa, Join;
    var port, profile, pt := Itoa(l.port), if l.key.Some? then "RTP/SAVP" else "RTP/AVP", Itoa(l.pt);
    var last := if l.dtmf >= 0 then [Itoa(l.dtmf)] else [];
    LastWords(pt, last);
    JoinMore(profile, [pt] + last);
    JoinMore(port, [profile] + ([pt] + last));
    JoinMore("m=audio", [port] + ([profile] + ([pt] + last)));
    assert ["m=audio"] + ([port] + ([profile] + ([pt] + last))) == AudioWords(l);
    AudioConcat(port, profile, Join([pt] + last));
    assert profile == "RTP/SAVP" ==> " " + profile + " " == " RTP/SAVP ";
    assert profile == "RTP/AVP" ==> " " + profile + " " == " RTP/AVP ";
  }

  lemma LastWords(pt: string, last: seq<string>)
    requires |last| <= 1
    ensures Join([pt] + last) == pt + if last == [] then "" else " " + last[0]
  {
    if last == [] {
      assert [pt] + last == [pt];
    } else {
      JoinMore(pt, last);
      assert last == [last[0]];
    }
  }

  lemma AudioConcat(port: string, profile: string, rest: string)
    ensures "m=audio" + " " + (port + " " + (profile + " " + rest)) == "m=audio " + port + (" " + profile + " ") + rest
  {
    assert "m=audio" + " " == "m=audio ";
  }

  lemma RtpmapTexts(pt: int, codec: string)
    ensures RtpmapLine(pt, codec) == "a=rtpmap:" + Itoa(pt) + (" " + codec)
  {
    hide Itoa;
    assert [Itoa(pt), codec][1..] == [codec];
    assert Join([Itoa(pt), codec]) == Itoa(pt) + " " + codec;
  }

  lemma HeaderText(l: Local)
    ensures var ip := l.ip.ToString();
            Header(l) ==
            ["v=0", "o=sipbxgo " + Decimal(l.sessionId) + " " + Decimal(l.version) + " IN IP4 " + ip, "s=SIPBXGO"]
            + ["c=IN IP4 " + ip, "t=0 0"]
  {
    hide Decimal, OriginLine;
    OriginText(l);
  }

  lemma AttributesText(l: Local)
    ensures var pt, event := Itoa(l.pt), Itoa(l.dtmf);
            Attributes(l) ==
            ["a=rtpmap:" + pt + if l.pt == 8 then " PCMA/8000" else " PCMU/8000"]
            + (if l.dtmf >= 0 then ["a=rtpmap:" + event + " telephone-event/8000", "a=fmtp:" + event + " 0-15"] else [])
            + ["a=ptime:20", "a=" + if l.direction == "" then "sendrecv" else l.direction]
            + if l.key.Some? then ["a=" + l.key.value.ToString()] else []
  {
    hide Itoa, RtpmapLine;
    RtpmapTexts(l.pt, if l.pt == 8 then "PCMA/8000" else "PCMU/8000");
    RtpmapTexts(l.dtmf, "telephone-event/8000");
    SpacedNames();
  }

  /** A built body is these lines. */
  lemma BuiltText(l: Local)
    requires l.Valid()
    ensures Lines(Built(l)) == TextLines(l)
  {
    hide Itoa, Decimal, Join, AudioWords, Lines, Unlines, ScanLines, Header, Attributes;
    BuiltScan(l);
    LinesUnlines(BuiltLines(l));
    HeaderText(l);
    AudioText(l);
    AttributesText(l);
  }

  lemma SpacedNames()
    ensures " " + "PCMA/8000" == " PCMA/8000" && " " + "PCMU/8000" == " PCMU/8000"
    ensures " " + "telephone-event/8000" == " telephone-event/8000"
  {}
}
