/** What the lines Rewrite writes are to every scanner of the body. */
module RewriteLines {
  import opened Basics
  import opened Text
  import opened Netip
  import opened SdpCrypto
  import opened SdpParse
  import opened SdpMeaning
  import opened SdpRewrite

  // ---- prefixes fix the kind ----

  lemma PrefixedKind(line: string)
    ensures "o=" <= line ==> KindOf(line) == Origin
    ensures "c=" <= line ==> KindOf(line) == Connection
    ensures "m=" <= line ==> KindOf(line) == Media
  {
    if |line| >= 2 {
      var first := line[0];
    }
  }

  lemma AttributeKind(line: string)
    ensures "a=rtcp:" <= line ==> KindOf(line) == Rtcp
    ensures "a=crypto:" <= line ==> KindOf(line) == KeyAttribute
  {
    if |line| >= 7 {
      assert "a=rtcp:" <= line ==> line[0] == 'a' && line[2] == 'r' && line[4] == 'c';
      assert "a=crypto:" <= line ==> line[0] == 'a' && line[2] == 'c';
    }
  }

  lemma {:induction false} JoinStartsWith(ws: seq<string>)
    requires ws != []
    ensures ws[0] <= Join(ws)
    ensures |ws| > 1 ==> ws[0] + " " <= Join(ws)
  {}

  // ---- o= ----

  function OriginWords(f: seq<string>, t: Target): seq<string> {
    if |f| == 6 then f[..4] + ["IP4", t.ip.ToString()] else f
  }

  lemma OriginWordsShape(f: seq<string>, t: Target)
    requires Words(f) && |f| == 6
    ensures Words(OriginWords(f, t)) && OriginWords(f, t)[0] == f[0]
  {
    AddrRoundTrip(t.ip);
  }

  lemma OriginMoved(line: string, t: Target)
    requires KindOf(line) == Origin && Line(line)
    ensures KindOf(MoveOrigin(line, t)) == Origin && Line(MoveOrigin(line, t))
    ensures Fields(MoveOrigin(line, t)) == OriginWords(Fields(line), t)
  {
    var f := Fields(line);
    if |f| == 6 {
      OriginWordsShape(f, t);
      FirstField("o=", line);
      Rejoined("o=", OriginWords(f, t));
    }
  }

  /** Words joined again: the same words, on a line of the same type. */
  lemma Rejoined(p: string, f: seq<string>)
    requires f != [] && Words(f) && p <= f[0]
    ensures p <= Join(f) && Fields(Join(f)) == f && Line(Join(f))
    ensures p == "o=" ==> KindOf(Join(f)) == Origin
    ensures p == "m=" ==> KindOf(Join(f)) == Media
  {
    JoinStartsWith(f);
    FieldsJoin(f);
    JoinIsLine(f);
    PrefixedKind(Join(f));
  }

  // ---- c= ----

  lemma ConnectionLineWords(ip: string)
    requires Word(ip)
    ensures Join(["IN", "IP4", ip]) == "IN IP4 " + ip
    ensures Fields("IN IP4 " + ip) == ["IN", "IP4", ip]
    ensures Line("IN IP4 " + ip)
  {
    hide Fields;
    var ws := ["IN", "IP4", ip];
    JoinThree("IN", "IP4", ip);
    assert Word("IN") && Word("IP4");
    FieldsJoin(ws);
    JoinIsLine(ws);
  }

  lemma ConnectionLineShape(t: Target)
    ensures KindOf(ConnectionLine(t)) == Connection && Line(ConnectionLine(t))
    ensures ConnAddr(ConnectionLine(t)) == Some(t.ip)
  {
    var ip := t.ip.ToString();
    AddrRoundTrip(t.ip);
    ConnectionLineWords(ip);
    IndexOfAbsent(ip, '/');
    PrefixedLine("c=", "IN IP4 " + ip);
    ConnectionText(t, ip);
    PrefixedKind(ConnectionLine(t));
  }

  lemma ConnectionText(t: Target, ip: string)
    requires ip == t.ip.ToString()
    ensures ConnectionLine(t) == "c=" + ("IN IP4 " + ip)
    ensures "c=" <= ConnectionLine(t) && ConnectionLine(t)[2..] == "IN IP4 " + ip
  {
    assert "c=IN IP4 " == "c=" + "IN IP4 ";
  }

  /** The address a moved connection line gives: the target's, unless it was unspecified. */
  function MovedAddr(a: Option<Addr>, ip: Addr): Option<Addr> {
    if a.Some? && !a.value.IsUnspecified() then Some(ip) else a
  }

  lemma ConnectionMoved(line: string, t: Target)
    requires KindOf(line) == Connection && Line(line)
    ensures var l := MoveConnection(line, t);
            KindOf(l) == Connection && Line(l) && ConnAddr(l) == MovedAddr(ConnAddr(line), t.ip)
  {
    ConnectionLineShape(t);
  }

  // ---- a=rtcp ----

  lemma RtcpLineShape(t: Target)
    requires 0 <= t.port < MAX_INT
    ensures KindOf(RtcpLine(t)) == Rtcp && Line(RtcpLine(t))
    ensures RtcpPort(RtcpLine(t)) == Some(t.port + 1)
  {
    hide KindOf, Atoi, Decimal, Fields;
    var ip := t.ip.ToString();
    var n := Itoa(t.port + 1);
    AddrRoundTrip(t.ip);
    ConnectionLineWords(ip);
    ItoaIsWord(t.port + 1);
    AtoiItoa(t.port + 1);
    FieldsWord(n, " IN IP4 " + ip);
    PrefixedLine("a=rtcp:" + n + " ", "IN IP4 " + ip);
    RtcpText(t, n, ip);
    AttributeKind(RtcpLine(t));
  }

  lemma RtcpText(t: Target, n: string, ip: string)
    requires n == Itoa(t.port + 1) && ip == t.ip.ToString()
    ensures RtcpLine(t) == "a=rtcp:" + n + " " + ("IN IP4 " + ip)
    ensures "a=rtcp:" <= RtcpLine(t) && RtcpLine(t)[7..] == n + (" IN IP4 " + ip)
  {
    assert " IN IP4 " == " " + "IN IP4 ";
    Shift("a=rtcp:", n, " IN IP4 ", ip);
  }

  lemma Shift(p: string, n: string, mid: string, ip: string)
    ensures (p + n + mid + ip)[|p|..] == n + (mid + ip)
  {}

  // ---- m= ----

  /** The profile says exactly whether audio is SRTP, and keeps feedback. */
  lemma AudioProtoShape(proto: string, secure: bool)
    ensures Word(AudioProto(proto, secure))
    ensures Contains(AudioProto(proto, secure), "SAVP") == secure
    ensures HasSuffix(AudioProto(proto, secure), "AVPF") == HasSuffix(proto, "AVPF")
  {
    ProtoWords();
    if secure { SecureNames(); } else { PlainNames(); }
    FeedbackNames();
  }

  lemma ProtoWords()
    ensures Word("RTP/SAVPF") && Word("RTP/SAVP")
    ensures Word("RTP/AVPF") && Word("RTP/AVP")
  {}

  lemma {:induction false} ContainsAt(s: string, part: string, i: nat)
    requires i <= |s| && part <= s[i..]
    ensures Contains(s, part)
  {
    if i > 0 {
      assert s[1..][i - 1..] == s[i..];
      ContainsAt(s[1..], part, i - 1);
    }
  }

  lemma {:induction false} NotContained(s: string, part: string, c: char)
    requires c in part && forall i | 0 <= i < |s| :: s[i] != c
    ensures !Contains(s, part)
  {
    assert !(part <= s);
    if s != "" {
      NotContained(s[1..], part, c);
    }
  }

  lemma SecureNames()
    ensures Contains("RTP/SAVPF", "SAVP") && Contains("RTP/SAVP", "SAVP")
  {
    assert "RTP/SAVPF"[4..] == "SAVPF";
    ContainsAt("RTP/SAVPF", "SAVP", 4);
    assert "RTP/SAVP"[4..] == "SAVP";
    ContainsAt("RTP/SAVP", "SAVP", 4);
  }

  lemma PlainNames()
    ensures !Contains("RTP/AVPF", "SAVP") && !Contains("RTP/AVP", "SAVP")
  {
    assert "SAVP"[0] == 'S';
    NotContained("RTP/AVPF", "SAVP", 'S');
    NotContained("RTP/AVP", "SAVP", 'S');
  }

  lemma FeedbackNames()
    ensures HasSuffix("RTP/SAVPF", "AVPF") && HasSuffix("RTP/AVPF", "AVPF")
    ensures !HasSuffix("RTP/SAVP", "AVPF") && !HasSuffix("RTP/AVP", "AVPF")
  {
    assert "RTP/SAVPF"[5..] == "AVPF" && "RTP/AVPF"[4..] == "AVPF";
    assert "RTP/SAVP"[4..][0] == 'S' && "RTP/AVP"[3..][0] == '/';
  }

  lemma MoveWordsShape(f: seq<string>, t: Target, audio: bool)
    requires |f| >= 3 && Words(f)
    ensures var g := MoveWords(f, t, audio); Words(g) && |g| == |f| && g[0] == f[0]
  {
    AudioProtoShape(f[2], t.key.Some?);
    ItoaIsWord(t.port);
  }

  lemma MediaMoved(line: string, t: Target, audio: bool)
    requires KindOf(line) == Media && Line(line)
    ensures var l := MoveMedia(line, t, audio); KindOf(l) == Media && Line(l)
    ensures var f, g := Fields(line), Fields(MoveMedia(line, t, audio));
            g == if |f| >= 3 then MoveWords(f, t, audio) else f
    ensures AudioWord(MoveMedia(line, t, audio)) == AudioWord(line)
    ensures AudioWord(line) ==> IsAudio(MoveMedia(line, t, audio))
  {
    hide MoveWords, Join, Line;
    var f := Fields(line);
    if |f| >= 3 {
      var g := MoveWords(f, t, audio);
      MoveWordsShape(f, t, audio);
      FirstField("m=", line);
      Rejoined("m=", g);
      JoinStartsWith(g);
    }
  }

  /** Before the audio was found, a line rewritten as another stream is not taken for audio. */
  lemma OtherMediaMoved(line: string, t: Target)
    requires KindOf(line) == Media && Line(line) && !AudioWord(line) && |Fields(line)| >= 3
    ensures !IsAudio(MoveMedia(line, t, false))
  {
    MediaMoved(line, t, false);
    var l := MoveMedia(line, t, false);
    if IsAudio(l) {
      AudioIsMedia(l);
      assert false;
    }
  }
}
