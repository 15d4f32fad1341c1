/**
 Bodies Rewrite and Parse read differently: an m=audio line with a tab, before the audio line Parse knows, so that the
 phones are offered the codecs of the wrong line or nothing they can read; and a port that is zero in other words.
 */
module TabbedAudio {
  import opened Basics
  import opened Text
  import opened SdpCrypto
  import opened SdpParse
  import opened SdpMeaning
  import opened SdpRewrite
  import opened RewriteLines
  import opened RewriteMeaning
  import opened AudioChoice

  predicate Readable(line: string) {
    var f := Fields(line);
    |f| >= 4 && Atoi(Before(f[1], '/')).Some?
  }

  lemma ScanAudioAs(s: Scan, line: string)
    requires BeforeAudio(s) && IsAudio(line) && Readable(line)
    ensures ScanLine(s, line).Ok?
    ensures var t := ScanLine(s, line).value; t.found && t.seenM && t.info.formats == Numbers(Fields(line)[3..])
    ensures ScanLine(s, line).value.sessionAddr == s.sessionAddr && ScanLine(s, line).value.mediaAddr == None
  {
    AudioIsMedia(line);
  }

  lemma ScanThree(conn: string, second: string, third: string)
    requires KindOf(conn) == Connection && ConnAddr(conn).Some?
    ensures ParsedLines([conn, second, third]) == ParsedFrom(START.(sessionAddr := ConnAddr(conn)), [second, third])
  {
    assert [conn, second, third][1..] == [second, third];
  }

  lemma SecondSkipped(s: Scan, second: string, third: string)
    requires BeforeAudio(s) && s.sessionAddr.Some? && KindOf(second) == Media && !IsAudio(second)
    requires IsAudio(third) && Readable(third)
    ensures var r := ParsedFrom(s, [second, third]); r.Ok? && r.value.formats == Numbers(Fields(third)[3..])
  {
    var t := s.(seenM := true, inAudio := false);
    assert ScanLine(s, second) == Ok(t);
    ScanTwo(s, second, third, t);
    ScanAudioAs(t, third);
  }

  lemma SameFormats(line: string)
    requires Line(line) && Chosen(line) && |Fields(AsAudio(line))| >= 4
    ensures |Fields(line)| >= 4 && Fields(AsAudio(line))[3..] == Fields(line)[3..]
  {
    hide AsAudio, Fields;
    AsAudioShape(line);
  }

  lemma {:induction false} ChosenFormats(ls: seq<string>)
    requires AllLines(ls) && ParsedLines(ls).Ok? && ParsedLines(Repaired(ls)).Ok?
    ensures FirstChosen(ls) < |ls| && FirstAudio(ls) < |ls|
    ensures |Fields(ls[FirstAudio(ls)])| >= 4 && |Fields(ls[FirstChosen(ls)])| >= 4
    ensures ParsedLines(ls).value.formats == Numbers(Fields(ls[FirstAudio(ls)])[3..])
    ensures ParsedLines(Repaired(ls)).value.formats == Numbers(Fields(ls[FirstChosen(ls)])[3..])
  {
    hide KindOf, ParsedLines, Repaired, Fields, Numbers, FirstAudio;
    ParsedIsChosen(ls);
    OwnFormats(ls);
    OwnFormats(Repaired(ls));
    RepairedSections(ls);
    assert Line(ls[FirstChosen(ls)]);
    SameFormats(ls[FirstChosen(ls)]);
  }

  /**
   For every body Parse accepts and every target: Parse reads the codecs of its own audio line, and in the rewritten
   body those of the first line that is audio by its first word; or, when that line has fewer than four words or no
   address applies to it, it accepts the rewritten body no more, with that error.
   */
  lemma EarlierLineTakesOver(ls: seq<string>, t: Target)
    requires AllLines(ls) && t.Valid() && ParsedLines(ls).Ok?
    ensures FirstChosen(ls) <= FirstAudio(ls) < |ls| && |Fields(ls[FirstAudio(ls)])| >= 4
    ensures ParsedLines(ls).value.formats == Numbers(Fields(ls[FirstAudio(ls)])[3..])
    ensures var f := Fields(ls[FirstChosen(ls)]);
            match ParsedLines(Moved(ls, t))
            case Ok(r) => |f| >= 4 && r.formats == Numbers(f[3..])
            case Err(e) => e == if |f| < 4 then MalformedMedia else NoAddress
  {
    hide KindOf, LastAddr, ParsedLines, Repaired, AsAudio, Fields, Numbers, Moved, AudioWord;
    ParsedIsChosen(ls);
    MovedMeans(ls, t);
    OwnFormats(ls);
    if ParsedLines(Repaired(ls)).Ok? {
      ChosenFormats(ls);
    } else {
      RepairedError(ls);
    }
  }

  lemma OwnFormats(ls: seq<string>)
    requires ParsedLines(ls).Ok?
    ensures FirstAudio(ls) < |ls| && |Fields(ls[FirstAudio(ls)])| >= 4
    ensures ParsedLines(ls).value.formats == Numbers(Fields(ls[FirstAudio(ls)])[3..])
  {
    hide KindOf, LastAddr, ParsedLines, Fields, Numbers, Atoi;
    ParsedMeaning(ls);
  }

  // ---- concrete ones ----

  lemma SeparatedWord(first: string, sep: char, rest: string)
    requires Word(first) && (sep == ' ' || sep == '\t') && Line(rest)
    ensures Fields(first + [sep] + rest) == [first] + Fields(rest) && Line(first + [sep] + rest)
  {
    FieldsWord(first, [sep] + rest);
    assert ([sep] + rest)[1..] == rest;
    assert first + [sep] + rest == first + ([sep] + rest);
    assert IsSpace('\n');
    PrefixedLine(first + [sep], rest);
  }

  lemma ThreeWords(port: string, codec: string, rest: string)
    requires Word(port) && Word(codec) && rest == port + " RTP/AVP " + codec
    ensures Fields(rest) == [port, "RTP/AVP", codec] && Line(rest)
  {
    var ws := [port, "RTP/AVP", codec];
    ProtoWords();
    JoinThree(port, "RTP/AVP", codec);
    assert " RTP/AVP " == " " + "RTP/AVP" + " ";
    assert Join(ws) == rest;
    FieldsJoin(ws);
    JoinIsLine(ws);
  }

  lemma FourWords(line: string, sep: char, port: string, codec: string)
    requires Word(port) && Word(codec) && (sep == ' ' || sep == '\t')
    requires line == "m=audio" + [sep] + (port + " RTP/AVP " + codec)
    ensures Line(line) && Fields(line) == ["m=audio", port, "RTP/AVP", codec]
  {
    hide Fields;
    var rest := port + " RTP/AVP " + codec;
    ThreeWords(port, codec, rest);
    SeparatedWord("m=audio", sep, rest);
  }

  lemma OneNumber(ws: seq<string>, n: nat)
    requires n < 10 && ws == [[DigitChar(n)]]
    ensures Numbers(ws) == [n]
  {
    AtoiItoa(n);
    assert Itoa(n) == [DigitChar(n)];
    assert ws[1..] == [];
  }

  /** An audio line whose first word ends at sep. */
  function AudioLine(sep: char, port: string, codec: nat): string
    requires codec < 10
  {
    "m=audio" + [sep] + (port + " RTP/AVP " + [DigitChar(codec)])
  }

  lemma AudioLineShape(sep: char, port: string, codec: nat)
    requires codec < 10 && (sep == ' ' || sep == '\t') && Word(port)
    ensures var line := AudioLine(sep, port, codec);
            && Line(line) && KindOf(line) == Media && AudioWord(line) && IsAudio(line) == (sep == ' ')
            && |Fields(line)| == 4 && Fields(line)[1] == port && Numbers(Fields(line)[3..]) == [codec]
  {
    var line := AudioLine(sep, port, codec);
    FourWords(line, sep, port, [DigitChar(codec)]);
    PrefixedKind(line);
    assert line[7] == sep;
    OneNumber(Fields(line)[3..], codec);
  }

  lemma NinePort()
    ensures Word("9") && Atoi(Before("9", '/')) == Some(9)
  {
    AtoiItoa(9);
    assert Itoa(9) == "9";
    IndexOfAbsent("9", '/');
  }

  /** A c= line, an early line that is audio by its first word alone, and an audio line. */
  lemma ThreeLineBody(conn: string, early: string, audio: string)
    requires AllLines([conn, early, audio]) && KindOf(conn) == Connection && ConnAddr(conn).Some?
    requires Chosen(early) && !IsAudio(early) && IsAudio(audio) && Readable(audio)
    ensures var ls := [conn, early, audio]; ParsedLines(ls).Ok? && FirstChosen(ls) == 1 && FirstAudio(ls) == 2
  {
    hide ParsedLines, Fields, ParsedFrom;
    var ls := [conn, early, audio];
    AudioIsMedia(audio);
    ScanThree(conn, early, audio);
    SecondSkipped(START.(sessionAddr := ConnAddr(conn)), early, audio);
    FirstAudioAt(ls, 2);
    assert !Chosen(ls[0]) && Chosen(ls[1]);
    var n := FirstChosen(ls);
  }

  lemma ThreeLineAddress(ls: seq<string>)
    requires |ls| == 3 && KindOf(ls[0]) == Connection && ConnAddr(ls[0]).Some? && KindOf(ls[1]) == Media
    ensures LastAddr(Session(ls)).Some?
  {
    assert FirstMedia(ls) == 1;
    assert ls[..1] == [ls[0]];
  }

  lemma AreLines(a: string, b: string, c: string)
    requires Line(a) && Line(b) && Line(c)
    ensures AllLines([a, b, c])
  {}

  /**
   The concrete body: a c= line, "m=audio<TAB>9 RTP/AVP a", "m=audio 9 RTP/AVP b". Parse reads codec b, the
   rewritten body offers codec a, for every target.
   */
  lemma TabbedAudioIsMistaken(from: Target, a: nat, b: nat, t: Target)
    requires a < 10 && b < 10 && t.Valid()
    ensures var ls := [ConnectionLine(from), AudioLine('\t', "9", a), AudioLine(' ', "9", b)];
            && ParsedLines(ls).Ok? && ParsedLines(ls).value.formats == [b]
            && ParsedLines(Moved(ls, t)).Ok? && ParsedLines(Moved(ls, t)).value.formats == [a]
  {
    hide ParsedLines, Moved, KindOf, Numbers, Fields, IsAudio, AudioWord, ConnAddr, LastAddr, AudioLine, ConnectionLine;
    var conn, early, audio := ConnectionLine(from), AudioLine('\t', "9", a), AudioLine(' ', "9", b);
    var ls := [conn, early, audio];
    NinePort();
    ConnectionLineShape(from);
    AudioLineShape('\t', "9", a);
    AudioLineShape(' ', "9", b);
    AreLines(conn, early, audio);
    ThreeLineBody(conn, early, audio);
    ThreeLineAddress(ls);
    EarlierLineTakesOver(ls, t);
    MovedMeans(ls, t);
  }

  /** "m=audio<TAB>9 RTP/AVP", with no codec. */
  lemma NoCodecShape(line: string)
    requires line == "m=audio" + ['\t'] + ("9" + " " + "RTP/AVP")
    ensures Line(line) && Chosen(line) && !IsAudio(line) && |Fields(line)| == 3
  {
    hide Fields;
    var rest := "9" + " " + "RTP/AVP";
    NinePort();
    ProtoWords();
    var ws := ["9", "RTP/AVP"];
    assert Join(ws) == rest;
    FieldsJoin(ws);
    JoinIsLine(ws);
    SeparatedWord("m=audio", '\t', rest);
    PrefixedKind(line);
    assert line[7] == '\t';
  }

  /** Without the codec on the early line both Parse and Rewrite accept the body, and nobody accepts what comes out. */
  lemma TabbedAudioIsLost(from: Target, early: string, b: nat, t: Target)
    requires b < 10 && t.Valid() && early == "m=audio" + ['\t'] + ("9" + " " + "RTP/AVP")
    ensures var ls := [ConnectionLine(from), early, AudioLine(' ', "9", b)];
            ParsedLines(ls).Ok? && ParsedLines(Moved(ls, t)) == Err(MalformedMedia)
  {
    hide ParsedLines, Moved, KindOf, Numbers, Fields, IsAudio, AudioWord, ConnAddr, LastAddr, AudioLine, ConnectionLine;
    var conn, audio := ConnectionLine(from), AudioLine(' ', "9", b);
    NinePort();
    ConnectionLineShape(from);
    NoCodecShape(early);
    AudioLineShape(' ', "9", b);
    AreLines(conn, early, audio);
    ThreeLineBody(conn, early, audio);
    EarlierLineTakesOver([conn, early, audio], t);
  }

  // ---- a port that is zero in other words ----

  lemma ZeroPort(word: string)
    requires word == "0/2" || word == "00"
    ensures Word(word) && Atoi(Before(word, '/')) == Some(0) && word != "0"
  {
    AtoiItoa(0);
    assert Itoa(0) == "0";
    if word == "0/2" {
      IndexOfFirst("0", '/', "2");
      assert word == "0" + ['/'] + "2" && word[..1] == "0";
    } else {
      IndexOfAbsent("00", '/');
      DoubleZero();
    }
  }

  lemma DoubleZero()
    ensures Atoi("00") == Some(0)
  {
    assert "00"[..1] == "0" && "0"[..0] == "" && DecimalValue("") == 0;
    assert DecimalValue("0") == 0;
    assert DecimalValue("00") == 0;
  }

  lemma TwoLineBody(conn: string, audio: string, port: int)
    requires AllLines([conn, audio]) && KindOf(conn) == Connection && ConnAddr(conn).Some?
    requires IsAudio(audio) && |Fields(audio)| >= 4 && Atoi(Before(Fields(audio)[1], '/')) == Some(port)
    ensures var ls := [conn, audio];
            && ParsedLines(ls).Ok? && ParsedLines(ls).value.port == port
            && AudioPlain(ls) && PortWord(ls) == Fields(audio)[1]
  {
    hide Fields, Numbers, ParsedLines, Atoi;
    var ls := [conn, audio];
    AudioIsMedia(audio);
    FirstAudioAt(ls, 1);
    assert ls[1..] == [audio] && AudioPlain([audio]);
    assert FirstMedia(ls) == 1;
    assert ls[..1] == [conn] && conn == ls[0];
    ParsedMeaning(ls);
  }

  /** "0/2" and "00" are zero to Parse, but not the word "0": the rewritten body opens the stream at our port. */
  lemma DisabledStreamReopens(from: Target, word: string, b: nat, t: Target)
    requires b < 10 && t.Valid() && (word == "0/2" || word == "00")
    ensures var ls := [ConnectionLine(from), AudioLine(' ', word, b)];
            && ParsedLines(ls).Ok? && ParsedLines(ls).value.port == 0
            && ParsedLines(Moved(ls, t)).Ok? && ParsedLines(Moved(ls, t)).value.port == t.port
  {
    hide ParsedLines, Moved, KindOf, Numbers, Fields, IsAudio, AudioWord, ConnAddr, AudioLine, ConnectionLine, PortWord,
         Atoi, Before, AudioPlain;
    var conn, audio := ConnectionLine(from), AudioLine(' ', word, b);
    ZeroPort(word);
    ConnectionLineShape(from);
    AudioLineShape(' ', word, b);
    AreTwoLines(conn, audio);
    TwoLineBody(conn, audio, 0);
    LinesKeepMeaning([conn, audio], t);
  }

  lemma AreTwoLines(a: string, b: string)
    requires Line(a) && Line(b)
    ensures AllLines([a, b])
  {}
}
