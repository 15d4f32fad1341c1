/** Rewriting what was already rewritten: the last target wins, byte for byte. */
module RewriteTwice {
  import opened Text
  import opened SdpCrypto
  import opened SdpParse
  import opened SdpRewrite
  import opened RewriteLines

  lemma EmittedLines(w: Flags, line: string, t: Target)
    requires Line(line) && t.Valid()
    ensures AllLines(Emit(w, line, t))
  {
    hide KindOf;
    if t.key.Some? { KeyLineShape(t.key.value); }
    match KindOf(line)
    case Origin => OriginMoved(line, t);
    case Connection => ConnectionMoved(line, t);
    case Media => MediaMoved(line, t, !w.seen && AudioWord(line));
    case Rtcp => RtcpLineShape(t);
    case _ =>
  }

  lemma {:induction false} MovedAreLines(w: Flags, ls: seq<string>, t: Target)
    requires AllLines(ls) && t.Valid()
    ensures AllLines(MovedLines(w, ls, t))
    decreases |ls|
  {
    if ls == [] {
      if t.key.Some? { KeyLineShape(t.key.value); }
    } else {
      EmittedLines(w, ls[0], t);
      MovedAreLines(Next(w, ls[0]), ls[1..], t);
    }
  }

  /** The lines of a rewritten body are the lines Rewrite wrote. */
  lemma LinesOfRewritten(body: string, t: Target)
    requires t.Valid()
    ensures Lines(Unlines(Moved(Lines(body), t))) == Moved(Lines(body), t)
    ensures AllLines(Moved(Lines(body), t))
  {
    LinesAreLines(body);
    MovedAreLines(OUTSIDE, Lines(body), t);
    LinesUnlines(Moved(Lines(body), t));
  }

  // ---- a second pass over the lines written for one line ----

  /** The flags after some lines. */
  function After(w: Flags, ls: seq<string>): Flags
    decreases |ls|
  {
    if ls == [] then w else After(Next(w, ls[0]), ls[1..])
  }

  /** The lines written for some lines, the section still open. */
  function Written(w: Flags, ls: seq<string>, t: Target): seq<string>
    decreases |ls|
  {
    if ls == [] then [] else Emit(w, ls[0], t) + Written(Next(w, ls[0]), ls[1..], t)
  }

  lemma {:induction false} MovedConcat(w: Flags, a: seq<string>, b: seq<string>, t: Target)
    ensures MovedLines(w, a + b, t) == Written(w, a, t) + MovedLines(After(w, a), b, t)
    decreases |a|
  {
    if a == [] {
      assert a + b == b;
    } else {
      assert (a + b)[0] == a[0] && (a + b)[1..] == a[1..] + b;
      MovedConcat(Next(w, a[0]), a[1..], b, t);
    }
  }

  lemma OriginTwice(line: string, t1: Target, t2: Target)
    requires KindOf(line) == Origin && Line(line)
    ensures MoveOrigin(MoveOrigin(line, t1), t2) == MoveOrigin(line, t2)
  {
    OriginMoved(line, t1);
    var f := Fields(line);
    if |f| == 6 {
      assert OriginWords(f, t1)[..4] == f[..4];
    }
  }

  lemma ConnectionTwice(line: string, t1: Target, t2: Target)
    requires KindOf(line) == Connection && Line(line) && !t1.ip.IsUnspecified()
    ensures KindOf(MoveConnection(line, t1)) == Connection
    ensures MoveConnection(MoveConnection(line, t1), t2) == MoveConnection(line, t2)
  {
    ConnectionMoved(line, t1);
  }

  lemma MoveWordsTwice(f: seq<string>, t1: Target, t2: Target, audio: bool)
    requires |f| >= 3 && Words(f) && t1.port >= 1
    ensures MoveWords(MoveWords(f, t1, audio), t2, audio) == MoveWords(f, t2, audio)
  {
    if audio {
      AudioProtoShape(f[2], t1.key.Some?);
      DecimalValueOf(t1.port);
      assert Itoa(t1.port) != "0" by { assert Decimal(t1.port)[0] != '0'; }
      assert MoveWords(f, t1, true)[3..] == f[3..];
    } else {
      assert MoveWords(f, t1, false)[2..] == f[2..];
    }
  }

  lemma MediaTwice(line: string, t1: Target, t2: Target, audio: bool)
    requires KindOf(line) == Media && Line(line) && t1.port >= 1
    ensures MoveMedia(MoveMedia(line, t1, audio), t2, audio) == MoveMedia(line, t2, audio)
  {
    MediaMoved(line, t1, audio);
    if |Fields(line)| >= 3 {
      MoveWordsTwice(Fields(line), t1, t2, audio);
    }
  }

  lemma WrittenOne(w: Flags, line: string, t: Target)
    ensures Written(w, [line], t) == Emit(w, line, t) && After(w, [line]) == Next(w, line)
  {
    assert [line][1..] == [];
    assert Written(Next(w, line), [], t) == [];
  }

  lemma WrittenTwo(w: Flags, a: string, b: string, t: Target)
    ensures Written(w, [a, b], t) == Emit(w, a, t) + Emit(Next(w, a), b, t)
    ensures After(w, [a, b]) == Next(Next(w, a), b)
  {
    assert [a, b][1..] == [b];
    WrittenOne(Next(w, a), b, t);
  }

  lemma ClosingKind(w: Flags, t: Target)
    ensures Closing(w, t) == [] || (|Closing(w, t)| == 1 && KindOf(Closing(w, t)[0]) == KeyAttribute)
  {
    if t.key.Some? {
      var l := KeyLine(t.key.value);
      assert "a=crypto:" == "a=" + "crypto:";
      assert "a=crypto:" <= l;
      AttributeKind(l);
    }
  }

  lemma EmitTwiceMedia(w: Flags, line: string, t1: Target, t2: Target)
    requires KindOf(line) == Media && Line(line) && t1.port >= 1
    ensures Written(w, Emit(w, line, t1), t2) == Emit(w, line, t2)
    ensures After(w, Emit(w, line, t1)) == Next(w, line)
  {
    hide After, AudioWord, Closing;
    var audio := !w.seen && AudioWord(line);
    var m := MoveMedia(line, t1, audio);
    MediaMoved(line, t1, audio);
    MediaTwice(line, t1, t2, audio);
    ClosingKind(w, t1);
    if Closing(w, t1) == [] {
      assert Emit(w, line, t1) == [m];
      WrittenOne(w, m, t2);
    } else {
      var k := Closing(w, t1)[0];
      assert Emit(w, line, t1) == [k, m];
      WrittenTwo(w, k, m, t2);
      assert Emit(w, k, t2) == [];
    }
  }

  lemma EmitTwice(w: Flags, line: string, t1: Target, t2: Target)
    requires Line(line) && t1.Valid() && !t1.ip.IsUnspecified()
    ensures Written(w, Emit(w, line, t1), t2) == Emit(w, line, t2)
    ensures After(w, Emit(w, line, t1)) == Next(w, line)
  {
    match KindOf(line)
    case Origin =>
      OriginMoved(line, t1);
      OriginTwice(line, t1, t2);
      WrittenOne(w, MoveOrigin(line, t1), t2);
    case Connection =>
      ConnectionTwice(line, t1, t2);
      WrittenOne(w, MoveConnection(line, t1), t2);
    case Media => EmitTwiceMedia(w, line, t1, t2);
    case Rtcp =>
      RtcpLineShape(t1);
      WrittenOne(w, RtcpLine(t1), t2);
    case Transport =>
    case KeyAttribute =>
    case _ => WrittenOne(w, line, t2);
  }

  lemma {:induction false} MovedTwice(w: Flags, ls: seq<string>, t1: Target, t2: Target)
    requires AllLines(ls) && t1.Valid() && !t1.ip.IsUnspecified()
    ensures MovedLines(w, MovedLines(w, ls, t1), t2) == MovedLines(w, ls, t2)
    decreases |ls|
  {
    if ls == [] {
      ClosingKind(w, t1);
      if Closing(w, t1) != [] {
        assert Closing(w, t1)[1..] == [];
      }
    } else {
      var w' := Next(w, ls[0]);
      EmitTwice(w, ls[0], t1, t2);
      MovedConcat(w, Emit(w, ls[0], t1), MovedLines(w', ls[1..], t1), t2);
      MovedTwice(w', ls[1..], t1, t2);
    }
  }

  /**
   Last write wins, byte for byte, for every body: whenever the rewritten body can be rewritten again, the
   result is what rewriting the original gives. Idempotence is the case of equal targets.
   */
  lemma LastWriteWins(body: string, t1: Target, t2: Target)
    requires t1.Valid() && !t1.ip.IsUnspecified()
    requires Rewritten(body, t1).Ok? && Parsed(Rewritten(body, t1).value).Ok?
    ensures Rewritten(Rewritten(body, t1).value, t2) == Rewritten(body, t2)
  {
    LinesOfRewritten(body, t1);
    LinesAreLines(body);
    MovedTwice(OUTSIDE, Lines(body), t1, t2);
  }
}
