/** Bodies the PBX wrote: every address, port and key in them is its own. */
module SdpOurs {
  import opened Basics
  import opened Text
  import opened SdpCrypto
  import opened SdpParse
  import opened SdpMeaning
  import opened SdpRewrite
  import opened RewriteLines
  import opened RewriteMeaning
  import opened SdpDirection
  import opened SdpVersion

  /** A line that gives away nothing of a phone: no address, port or key but the target's. */
  ghost predicate OurLine(line: string, t: Target) {
    match KindOf(line)
    case Origin => var f := Fields(line); |f| == 6 ==> f[4] == "IP4" && f[5] == t.ip.ToString()
    case Connection => var a := ConnAddr(line); a.None? || a.value.IsUnspecified() || a.value == t.ip
    case Media =>
      var f := Fields(line);
      (|f| >= 3 ==> f[1] == "0" || f[1] == Itoa(t.port)) && (AudioWord(line) ==> IsAudio(line))
    case KeyAttribute => t.key.Some? && line == KeyLine(t.key.value)
    case Rtcp => line == RtcpLine(t)
    case Transport => false
    case _ => true
  }

  ghost predicate OurLines(ls: seq<string>, t: Target) {
    forall i | 0 <= i < |ls| :: OurLine(ls[i], t)
  }

  lemma EmitOurs(w: Flags, line: string, t: Target)
    requires Line(line) && t.Valid()
    ensures OurLines(Emit(w, line, t), t)
  {
    hide MoveOrigin, MoveConnection, MoveMedia, AudioWord, Fields, ConnAddr;
    match KindOf(line)
    case Origin => OriginMoved(line, t);
    case Connection => ConnectionMoved(line, t);
    case Media =>
      MediaMoved(line, t, !w.seen && AudioWord(line));
      ClosingOurs(w, t);
    case Rtcp => RtcpLineShape(t);
    case _ =>
  }

  lemma ClosingOurs(w: Flags, t: Target)
    requires t.Valid()
    ensures OurLines(Closing(w, t), t)
  {
    if t.key.Some? {
      KeyLineShape(t.key.value);
      AttributeKind(KeyLine(t.key.value));
    }
  }

  /** Whatever body came in, the rewritten one is the PBX's own. */
  lemma {:induction false} MovedOurs(w: Flags, ls: seq<string>, t: Target)
    requires AllLines(ls) && t.Valid()
    ensures OurLines(MovedLines(w, ls, t), t)
    decreases |ls|
  {
    if ls == [] {
      ClosingOurs(w, t);
    } else {
      EmitOurs(w, ls[0], t);
      MovedOurs(Next(w, ls[0]), ls[1..], t);
    }
  }

  lemma {:induction false} DirectedOurs(inAudio: bool, placed: bool, ls: seq<string>, dir: string, t: Target)
    requires OurLines(ls, t) && IsDirectionName(dir)
    ensures OurLines(Directed(inAudio, placed, ls, dir), t)
    decreases |ls|
  {
    hide IsAudio, Fields, ConnAddr, KindOf;
    DirectionLineShape(dir);
    if ls != [] {
      var placed' := placed || inAudio;
      DirectedOurs(inAudio, placed, ls[1..], dir, t);
      DirectedOurs(IsAudio(ls[0]) && !placed', placed', ls[1..], dir, t);
    }
  }

  lemma BumpedOurs(ls: seq<string>, t: Target)
    requires AllLines(ls) && OurLines(ls, t)
    ensures OurLines(BumpLines(ls), t)
  {
    BumpedLines(ls);
    forall i | 0 <= i < |ls| ensures OurLine(BumpLine(ls[i]), t) {
      if BumpLine(ls[i]) != ls[i] { BumpedLine(ls[i]); }
    }
  }

  lemma {:induction false} OursArePlain(ls: seq<string>, t: Target)
    requires OurLines(ls, t)
    ensures AudioPlain(ls)
  {
    if ls != [] {
      assert OurLine(ls[0], t);
      OursArePlain(ls[1..], t);
    }
  }

  // ---- what such a body parses to ----

  lemma {:induction false} OurAddr(sec: seq<string>, t: Target)
    requires OurLines(sec, t)
    ensures LastAddr(sec).Some? ==> LastAddr(sec).value.IsUnspecified() || LastAddr(sec).value == t.ip
  {
    if sec != [] {
      assert OurLine(sec[|sec| - 1], t);
      OurAddr(sec[..|sec| - 1], t);
    }
  }

  lemma {:induction false} OurKeys(sec: seq<string>, t: Target)
    requires OurLines(sec, t) && t.Valid()
    ensures forall c | c in Keys(sec) :: t.key == Some(c)
  {
    if sec != [] {
      var l := sec[|sec| - 1];
      assert OurLine(l, t);
      OurKeys(sec[..|sec| - 1], t);
      if t.key.Some? && l == KeyLine(t.key.value) {
        KeyLineShape(t.key.value);
      }
    }
  }

  lemma OurPort(f: seq<string>, t: Target)
    requires |f| >= 4 && t.Valid() && (f[1] == "0" || f[1] == Itoa(t.port))
    ensures Atoi(Before(f[1], '/')) == Some(if f[1] == "0" then 0 else t.port)
  {
    AudioPort(f[1], t, f[1] == "0");
  }

  /** Parsed, it offers the PBX's port or none, its address or hold, and no key but its own. */
  lemma ParsedOurs(ls: seq<string>, t: Target)
    requires OurLines(ls, t) && t.Valid() && ParsedLines(ls).Ok?
    ensures var i := ParsedLines(ls).value;
            && i.port == (if PortWord(ls) == "0" then 0 else t.port)
            && (i.addr == t.ip || i.addr.IsUnspecified())
            && forall c | c in i.cryptos :: t.key == Some(c)
  {
    hide FirstAudio, Fields;
    var a := FirstAudio(ls);
    ParsedMeaning(ls);
    ParsedHasAudio(ls);
    assert OurLine(ls[a], t);
    OurPort(Fields(ls[a]), t);
    OurAddr(Session(ls), t);
    OurAddr(Section(ls), t);
    OurKeys(Section(ls), t);
  }
}
