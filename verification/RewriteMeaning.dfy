/** What Parse sees in a rewritten body: the same call, moved to the relay. */
module RewriteMeaning {
  import opened Basics
  import opened Text
  import opened SdpCrypto
  import opened SdpParse
  import opened SdpMeaning
  import opened SdpRewrite
  import opened RewriteLines
  import opened RewriteTwice

  /**
   No line before Parse's audio line is an audio line to Rewrite alone: Rewrite goes by the first word, Parse by
   the prefix with a space, and a tab tells them apart.
   */
  predicate AudioPlain(ls: seq<string>) {
    ls == [] || IsAudio(ls[0]) || (!(KindOf(ls[0]) == Media && AudioWord(ls[0])) && AudioPlain(ls[1..]))
  }

  /** The port word of Parse's audio line. */
  function PortWord(ls: seq<string>): string {
    var a := FirstAudio(ls);
    if a < |ls| && |Fields(ls[a])| >= 2 then Fields(ls[a])[1] else ""
  }

  /** Both scans side by side: the original's flags, the rewritten body's, and Rewrite's own. */
  ghost predicate Alike(s: Scan, r: Scan, w: Flags, t: Target, zero: bool) {
    && s.inAudio == r.inAudio == w.inAudio && s.found == r.found == w.seen
    && s.done == r.done && s.seenM == r.seenM && (s.inAudio ==> s.found) && (s.done ==> s.found)
    && s.sessionDir == r.sessionDir && s.mediaDir == r.mediaDir
    && r.sessionAddr == MovedAddr(s.sessionAddr, t.ip) && r.mediaAddr == MovedAddr(s.mediaAddr, t.ip)
    && r.info.formats == s.info.formats && r.info.dtmf == s.info.dtmf
    && (r.info.rtcpPort == 0 || r.info.rtcpPort == t.port + 1)
    && (!s.found ==> r.info.cryptos == [])
    && (s.found ==>
      r.info.port == (if zero then 0 else t.port) && r.info.secure == t.key.Some? &&
      r.info.cryptos == if s.inAudio then [] else t.Keys())
  }

  /** What is left of Alike once the last section is closed. */
  ghost predicate AlikeAtEnd(s: Scan, r: Scan, t: Target, zero: bool) {
    && s.found == r.found && s.sessionDir == r.sessionDir && s.mediaDir == r.mediaDir
    && r.sessionAddr == MovedAddr(s.sessionAddr, t.ip) && r.mediaAddr == MovedAddr(s.mediaAddr, t.ip)
    && r.info.formats == s.info.formats && r.info.dtmf == s.info.dtmf
    && (r.info.rtcpPort == 0 || r.info.rtcpPort == t.port + 1)
    && (s.found ==>
      r.info.port == (if zero then 0 else t.port) && r.info.secure == t.key.Some? && r.info.cryptos == t.Keys())
  }

  lemma ScanOne(s: Scan, line: string)
    ensures ScanLines(s, [line]) == ScanLine(s, line)
  {
    assert [line][1..] == [];
  }

  lemma ScanTwo(s: Scan, a: string, b: string, t: Scan)
    requires ScanLine(s, a) == Ok(t)
    ensures ScanLines(s, [a, b]) == ScanLine(t, b)
  {
    assert [a, b][1..] == [b];
    ScanOne(t, b);
  }

  /** The key line closes the audio section: the section's keys are the target's. */
  function Closed(r: Scan, w: Flags, t: Target): Scan {
    if w.inAudio then r.(info := r.info.(cryptos := r.info.cryptos + t.Keys())) else r
  }

  lemma ScanKeyLine(r: Scan, w: Flags, t: Target)
    requires t.Valid() && r.inAudio == w.inAudio
    ensures ScanLines(r, Closing(w, t)) == Ok(Closed(r, w, t))
  {
    hide KeyLine, Fields, Atoi;
    if w.inAudio && t.key.Some? {
      var l := KeyLine(t.key.value);
      KeyLineShape(t.key.value);
      AttributeKind(l);
      ScanOne(r, l);
    } else if w.inAudio {
      assert r.info.cryptos + t.Keys() == r.info.cryptos;
    }
  }

  lemma AudioPort(word: string, t: Target, zero: bool)
    requires t.Valid() && zero == (word == "0")
    ensures var p := if word == "0" then "0" else Itoa(t.port);
            Atoi(Before(p, '/')) == Some(if zero then 0 else t.port)
  {
    if zero {
      IndexOfAbsent("0", '/');
      assert Decimal(0) == "0";
      AtoiItoa(0);
    } else {
      ItoaIsWord(t.port);
      IndexOfAbsent(Itoa(t.port), '/');
      AtoiItoa(t.port);
    }
  }

  /** The moved audio line, as Parse reads it. */
  lemma ScanAudioWords(r: Scan, line: string, g: seq<string>, port: int)
    requires IsAudio(line) && Fields(line) == g && |g| >= 4 && Atoi(Before(g[1], '/')) == Some(port)
    requires !r.found && !r.done
    ensures ScanMedia(r, line) ==
            Ok(r.(seenM := true, inAudio := true, found := true,
                  info := r.info.(port := port, secure := Contains(g[2], "SAVP"), formats := Numbers(g[3..]))))
  {
    hide Numbers, Fields, Atoi, Before, Contains, IsAudio;
  }

  lemma ScanMovedAudio(r: Scan, line: string, t: Target, zero: bool)
    requires t.Valid() && Line(line) && IsAudio(line) && |Fields(line)| >= 4
    requires !r.found && !r.done && zero == (Fields(line)[1] == "0")
    ensures ScanLine(r, MoveMedia(line, t, true)) ==
            Ok(r.(seenM := true, inAudio := true, found := true,
                  info := r.info.(port := if zero then 0 else t.port, secure := t.key.Some?,
                      formats := Numbers(Fields(line)[3..]))))
  {
    hide Numbers, KindOf, Fields, Atoi, Before, Contains, IsAudio, Line, AudioProto, MoveMedia, ScanMedia;
    AudioIsMedia(line);
    MediaMoved(line, t, true);
    var f := Fields(line);
    var g := MoveWords(f, t, true);
    AudioPort(f[1], t, zero);
    AudioProtoShape(f[2], t.key.Some?);
    assert g[3..] == f[3..];
    ScanAudioWords(r, MoveMedia(line, t, true), g, if zero then 0 else t.port);
  }

  lemma AlikeAudio(s: Scan, r: Scan, w: Flags, line: string, t: Target, zero: bool)
    requires t.Valid() && Line(line) && KindOf(line) == Media && Alike(s, r, w, t, zero)
    requires IsAudio(line) && !w.seen && ScanLine(s, line).Ok?
    requires |Fields(line)| >= 2 && zero == (Fields(line)[1] == "0")
    ensures ScanLines(r, Emit(w, line, t)).Ok?
    ensures Alike(ScanLine(s, line).value, ScanLines(r, Emit(w, line, t)).value, Next(w, line), t, zero)
  {
    AudioIsMedia(line);
    ScanMovedAudio(r, line, t, zero);
    var m := MoveMedia(line, t, true);
    assert Closing(w, t) == [] && Emit(w, line, t) == [m];
    ScanOne(r, m);
  }

  /** Any other m= line ends the section, if one was open, and starts none. */
  lemma AlikeOther(s: Scan, r: Scan, w: Flags, line: string, t: Target, zero: bool)
    requires t.Valid() && Line(line) && KindOf(line) == Media && Alike(s, r, w, t, zero)
    requires w.seen || !AudioWord(line)
    requires ScanLine(s, line).Ok?
    ensures ScanLines(r, Emit(w, line, t)).Ok?
    ensures Alike(ScanLine(s, line).value, ScanLines(r, Emit(w, line, t)).value, Next(w, line), t, zero)
  {
    var m := MoveMedia(line, t, false);
    var c := Closed(r, w, t);
    ScanKeyLine(r, w, t);
    ScanConcat(r, Closing(w, t), [m]);
    ScanOne(c, m);
    MediaMoved(line, t, false);
    if !w.seen {
      NotAudio(s, line);
      if |Fields(line)| >= 3 { OtherMediaMoved(line, t); }
    }
    assert [] + t.Keys() == t.Keys();
  }

  lemma NotAudio(s: Scan, line: string)
    requires KindOf(line) == Media && !AudioWord(line) && !s.done && !s.found && ScanLine(s, line).Ok?
    ensures !IsAudio(line)
  {
    if IsAudio(line) {
      AudioIsMedia(line);
    }
  }

  lemma AlikeLine(s: Scan, r: Scan, w: Flags, line: string, t: Target, zero: bool)
    requires t.Valid() && Line(line) && KindOf(line) != Media && Alike(s, r, w, t, zero)
    ensures ScanLine(s, line).Ok? && ScanLines(r, Emit(w, line, t)).Ok?
    ensures Alike(ScanLine(s, line).value, ScanLines(r, Emit(w, line, t)).value, Next(w, line), t, zero)
  {
    match KindOf(line)
    case Origin =>
      OriginMoved(line, t);
      ScanOne(r, MoveOrigin(line, t));
    case Connection => AlikeConnection(s, r, w, line, t, zero);
    case Rtcp => AlikeRtcp(s, r, w, line, t, zero);
    case Transport =>
    case KeyAttribute =>
    case _ => ScanOne(r, line);
  }

  lemma AlikeConnection(s: Scan, r: Scan, w: Flags, line: string, t: Target, zero: bool)
    requires t.Valid() && Line(line) && KindOf(line) == Connection && Alike(s, r, w, t, zero)
    ensures ScanLine(s, line).Ok? && ScanLines(r, Emit(w, line, t)).Ok?
    ensures Alike(ScanLine(s, line).value, ScanLines(r, Emit(w, line, t)).value, w, t, zero)
  {
    hide ScanLines, Line, ConnAddr, ConnectionLine;
    ConnectionMoved(line, t);
    ScanOne(r, MoveConnection(line, t));
  }

  lemma AlikeRtcp(s: Scan, r: Scan, w: Flags, line: string, t: Target, zero: bool)
    requires t.Valid() && KindOf(line) == Rtcp && Alike(s, r, w, t, zero)
    ensures ScanLine(s, line).Ok? && ScanLines(r, Emit(w, line, t)).Ok?
    ensures Alike(ScanLine(s, line).value, ScanLines(r, Emit(w, line, t)).value, w, t, zero)
  {
    hide ScanMedia, UsableKey, KindOf, Fields, Line, RtcpLine;
    RtcpLineShape(t);
    ScanOne(r, RtcpLine(t));
  }

  /** The first line: both scans go on alike, and the rest of the body is as plain as before. */
  lemma {:induction false} AlikeFirst(s: Scan, r: Scan, w: Flags, ls: seq<string>, t: Target, zero: bool)
    requires ls != [] && t.Valid() && Line(ls[0]) && Alike(s, r, w, t, zero)
    requires !w.seen ==> AudioPlain(ls) && zero == (PortWord(ls) == "0")
    requires ScanLine(s, ls[0]).Ok?
    ensures ScanLines(r, Emit(w, ls[0], t)).Ok?
    ensures Alike(ScanLine(s, ls[0]).value, ScanLines(r, Emit(w, ls[0], t)).value, Next(w, ls[0]), t, zero)
  {
    hide ScanLine, Emit, Next, ScanLines, MoveMedia, ConnAddr;
    var line := ls[0];
    if KindOf(line) != Media {
      AlikeLine(s, r, w, line, t, zero);
    } else if !w.seen && IsAudio(line) {
      ScannedAudio(s, r, w, line, t, zero);
      AlikeAudio(s, r, w, line, t, zero);
    } else {
      AlikeOther(s, r, w, line, t, zero);
    }
  }

  lemma ScannedAudio(s: Scan, r: Scan, w: Flags, line: string, t: Target, zero: bool)
    requires Alike(s, r, w, t, zero) && !w.seen && IsAudio(line) && ScanLine(s, line).Ok?
    ensures |Fields(line)| >= 4 && AudioWord(line) && KindOf(line) == Media
  {
    AudioIsMedia(line);
  }

  lemma NotAudioYet(s: Scan, r: Scan, w: Flags, line: string, t: Target, zero: bool)
    requires Alike(s, r, w, t, zero) && !Next(w, line).seen && ScanLine(s, line).Ok?
    ensures !w.seen && !IsAudio(line)
  {
    hide ScanLine;
    if IsAudio(line) { ScannedAudio(s, r, w, line, t, zero); }
  }

  lemma {:induction false} PlainRest(ls: seq<string>, zero: bool)
    requires ls != [] && !IsAudio(ls[0]) && AudioPlain(ls) && zero == (PortWord(ls) == "0")
    ensures AudioPlain(ls[1..]) && zero == (PortWord(ls[1..]) == "0")
  {}

  lemma {:induction false} AlikeLines(s: Scan, r: Scan, w: Flags, ls: seq<string>, t: Target, zero: bool)
    requires t.Valid() && AllLines(ls) && Alike(s, r, w, t, zero)
    requires !w.seen ==> AudioPlain(ls) && zero == (PortWord(ls) == "0")
    requires ScanLines(s, ls).Ok?
    ensures ScanLines(r, MovedLines(w, ls, t)).Ok?
    ensures AlikeAtEnd(ScanLines(s, ls).value, ScanLines(r, MovedLines(w, ls, t)).value, t, zero)
    decreases |ls|
  {
    hide ScanLine, Emit, Next, AudioPlain, PortWord;
    if ls == [] {
      ScanKeyLine(r, w, t);
      assert [] + t.Keys() == t.Keys();
    } else {
      var w' := Next(w, ls[0]);
      AlikeFirst(s, r, w, ls, t, zero);
      if !w'.seen {
        NotAudioYet(s, r, w, ls[0], t, zero);
        PlainRest(ls, zero);
      }
      ScanConcat(r, Emit(w, ls[0], t), MovedLines(w', ls[1..], t));
      AlikeLines(ScanLine(s, ls[0]).value, ScanLines(r, Emit(w, ls[0], t)).value, w', ls[1..], t, zero);
    }
  }

  /** The call a rewritten body describes. */
  ghost predicate Relayed(i: Info, r: Info, t: Target, zero: bool) {
    && r.formats == i.formats && r.direction == i.direction && r.dtmf == i.dtmf
    && r.secure == t.key.Some? && r.cryptos == t.Keys()
    && r.addr == (if i.addr.IsUnspecified() then i.addr else t.ip)
    && r.port == (if zero then 0 else t.port)
    && (r.rtcpPort == t.port + 1 || (zero && r.rtcpPort == 0))
  }

  lemma FinishAlike(s: Scan, r: Scan, t: Target, zero: bool)
    requires AlikeAtEnd(s, r, t, zero) && t.Valid() && Finish(s).Ok?
    ensures Finish(r).Ok? && Relayed(Finish(s).value, Finish(r).value, t, zero)
  {}

  lemma LinesKeepMeaning(ls: seq<string>, t: Target)
    requires t.Valid() && AllLines(ls) && AudioPlain(ls) && ParsedLines(ls).Ok?
    ensures ParsedLines(Moved(ls, t)).Ok?
    ensures Relayed(ParsedLines(ls).value, ParsedLines(Moved(ls, t)).value, t, PortWord(ls) == "0")
  {
    hide Finish, MovedLines, AudioPlain, PortWord, ScanLines, Relayed;
    var zero := PortWord(ls) == "0";
    AlikeLines(START, START, OUTSIDE, ls, t, zero);
    FinishAlike(ScanLines(START, ls).value, ScanLines(START, Moved(ls, t)).value, t, zero);
  }

  /**
   Rewriting preserves meaning: the rewritten body parses, to the same codecs, direction and keypad type, at the
   relay's address (unless on hold at 0.0.0.0) and port (unless disabled), with the relay's key or none.
   */
  lemma RewriteKeepsMeaning(body: string, t: Target)
    requires t.Valid() && AudioPlain(Lines(body)) && Parsed(body).Ok?
    ensures Rewritten(body, t).Ok? && Parsed(Rewritten(body, t).value).Ok?
    ensures Relayed(Parsed(body).value, Parsed(Rewritten(body, t).value).value, t, PortWord(Lines(body)) == "0")
  {
    hide ParsedLines, Moved, Relayed, AudioPlain, PortWord, Lines;
    LinesAreLines(body);
    LinesOfRewritten(body, t);
    LinesKeepMeaning(Lines(body), t);
  }

  // ---- bodies that are not plain ----

  lemma {:induction false} SeenBeforeAudio(w: Flags, ls: seq<string>, a: nat)
    requires a == FirstAudio(ls) && a < |ls|
    ensures After(w, ls[..a]).seen == (w.seen || !AudioPlain(ls))
    decreases |ls|
  {
    if a == 0 {
      assert ls[..0] == [];
    } else {
      assert ls[..a][1..] == ls[1..][..a - 1] && FirstAudio(ls[1..]) == a - 1;
      SeenBeforeAudio(Next(w, ls[0]), ls[1..], a - 1);
    }
  }

  lemma ParsedHasAudio(ls: seq<string>)
    requires ParsedLines(ls).Ok?
    ensures FirstAudio(ls) < |ls|
    ensures KindOf(ls[FirstAudio(ls)]) == Media && AudioWord(ls[FirstAudio(ls)])
  {
    ParsedMeaning(ls);
    AudioIsMedia(ls[FirstAudio(ls)]);
  }

  lemma OtherIsDisabled(line: string, t: Target)
    requires |Fields(line)| >= 3
    ensures var g := Fields(MoveMedia(line, t, false)); |g| >= 3 && g[1] == "0"
  {
    MoveWordsShape(Fields(line), t, false);
    FieldsJoin(MoveWords(Fields(line), t, false));
  }

  /**
   The condition is exact: Rewrite treats Parse's audio line as the audio if and only if the body is plain;
   otherwise it disables that stream and redirects an earlier one.
   */
  lemma AudioChosenIffPlain(ls: seq<string>, a: nat, t: Target)
    requires ParsedLines(ls).Ok? && a == FirstAudio(ls)
    ensures a < |ls|
    ensures var w := After(OUTSIDE, ls[..a]);
            Emit(w, ls[a], t) == Closing(w, t) + [MoveMedia(ls[a], t, AudioPlain(ls))]
    ensures !AudioPlain(ls) ==> var g := Fields(MoveMedia(ls[a], t, AudioPlain(ls))); |g| >= 3 && g[1] == "0"
  {
    ParsedHasAudio(ls);
    SeenBeforeAudio(OUTSIDE, ls, a);
    OtherIsDisabled(ls[a], t);
  }
}
