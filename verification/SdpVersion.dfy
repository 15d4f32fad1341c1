/** The session version in the o= line: BumpVersion (internal/sdp/sdp.go). */
module SdpVersion {
  import opened Basics
  import opened Text
  import opened SdpCrypto
  import opened SdpParse
  import opened SdpRewrite
  import opened RewriteLines
  import opened SdpDirection

  /** The version of an o= line with six words, when it is a 64-bit number. */
  function VersionOf(line: string): Option<Version> {
    var f := Fields(line);
    if |f| == 6 then ParseUint(f[2]) else None
  }

  /** An o= line with its version incremented in 64 bits; any other line as it is. */
  function BumpLine(line: string): string {
    if KindOf(line) == Origin && VersionOf(line).Some? then
      Join(Fields(line)[2 := Decimal((VersionOf(line).value + 1) % TWO_64)])
    else line
  }

  function BumpLines(ls: seq<string>): seq<string> {
    if ls == [] then [] else [BumpLine(ls[0])] + BumpLines(ls[1..])
  }

  /** The result of BumpVersion. */
  function Bumped(body: string): string {
    Unlines(BumpLines(Lines(body)))
  }

  method BumpVersion(body: string) returns (r: string)
    ensures r == Bumped(body)
  {
    hide Lines, Unlines, Fields, Join, Decimal, ParseUint, KindOf;
    var ls := Lines(body);
    var out: seq<string> := [];
    for i := 0 to |ls|
      invariant out + BumpLines(ls[i..]) == BumpLines(ls)
    {
      var line := ls[i];
      BumpStep(out, ls, i);
      if KindOf(line) == Origin {
        var f := Fields(line);
        if |f| == 6 {
          var v := ParseUint(f[2]);
          if v.Some? {
            line := Join(f[2 := Decimal((v.value + 1) % TWO_64)]);
          }
        }
      }
      assert line == BumpLine(ls[i]);
      out := out + [line];
    }
    assert ls[|ls|..] == [];
    assert out + [] == out;
    r := Unlines(out);
  }

  lemma BumpStep(out: seq<string>, ls: seq<string>, i: nat)
    requires i < |ls| && out + BumpLines(ls[i..]) == BumpLines(ls)
    ensures out + [BumpLine(ls[i])] + BumpLines(ls[i + 1..]) == BumpLines(ls)
  {
    BumpFirst(ls, i);
    Regroup(out, BumpLine(ls[i]), BumpLines(ls[i + 1..]));
  }

  lemma BumpFirst(ls: seq<string>, i: nat)
    requires i < |ls|
    ensures BumpLines(ls[i..]) == [BumpLine(ls[i])] + BumpLines(ls[i + 1..])
  {
    assert ls[i..][1..] == ls[i + 1..];
  }

  lemma Regroup(out: seq<string>, line: string, rest: seq<string>)
    ensures out + [line] + rest == out + ([line] + rest)
  {}

  lemma BumpedLine(line: string)
    requires Line(line) && KindOf(line) == Origin && VersionOf(line).Some?
    ensures Line(BumpLine(line)) && KindOf(BumpLine(line)) == Origin
    ensures Fields(BumpLine(line)) == Fields(line)[2 := Decimal((VersionOf(line).value + 1) % TWO_64)]
  {
    var f := Fields(line);
    var g := f[2 := Decimal((VersionOf(line).value + 1) % TWO_64)];
    DigitsAreWord(g[2]);
    FirstField("o=", line);
    Rejoined("o=", g);
  }

  lemma BumpIsLine(line: string)
    requires Line(line)
    ensures Line(BumpLine(line))
  {
    hide Line;
    if BumpLine(line) != line { BumpedLine(line); }
  }

  lemma {:induction false} BumpedLines(ls: seq<string>)
    requires AllLines(ls)
    ensures AllLines(BumpLines(ls)) && |BumpLines(ls)| == |ls|
    ensures forall i | 0 <= i < |ls| :: BumpLines(ls)[i] == BumpLine(ls[i])
  {
    hide Line, BumpLine;
    if ls != [] {
      BumpedLines(ls[1..]);
      BumpIsLine(ls[0]);
    }
  }

  lemma LinesOfBumped(body: string)
    ensures Lines(Bumped(body)) == BumpLines(Lines(body))
  {
    LinesAreLines(body);
    BumpedLines(Lines(body));
    LinesUnlines(BumpLines(Lines(body)));
  }

  lemma {:induction false} ScanBumped(s: Scan, ls: seq<string>)
    requires AllLines(ls)
    ensures ScanLines(s, BumpLines(ls)) == ScanLines(s, ls)
    decreases |ls|
  {
    if ls != [] {
      if BumpLine(ls[0]) != ls[0] { BumpedLine(ls[0]); }
      assert ScanLine(s, BumpLine(ls[0])) == ScanLine(s, ls[0]);
      if ScanLine(s, ls[0]).Ok? {
        ScanBumped(ScanLine(s, ls[0]).value, ls[1..]);
      }
    }
  }

  /** Parse does not see the version: every body parses the same after BumpVersion, errors included. */
  lemma BumpVersionMeaning(body: string)
    ensures Parsed(Bumped(body)) == Parsed(body)
  {
    LinesAreLines(body);
    LinesOfBumped(body);
    ScanBumped(START, Lines(body));
  }

  // ---- session identities ----

  /** What an o= line says about the session: everything RFC 3264 section 8 compares, and the version. */
  datatype Identity = Identity(user: string, id: string, version: Version)

  type Version = n: nat | n < TWO_64

  function IdentityOf(line: string): Option<Identity> {
    if KindOf(line) == Origin && VersionOf(line).Some? then
      Some(Identity(Fields(line)[0], Fields(line)[1], VersionOf(line).value))
    else None
  }

  /** The sessions of a body's o= lines, in order. */
  function Sessions(ls: seq<string>): seq<Identity> {
    if ls == [] then []
    else match IdentityOf(ls[0])
      case None => Sessions(ls[1..])
      case Some(o) => [o] + Sessions(ls[1..])
  }

  function Advance(o: Identity, n: nat): Identity {
    o.(version := (o.version + n) % TWO_64)
  }

  function AdvanceAll(os: seq<Identity>, n: nat): seq<Identity> {
    if os == [] then [] else [Advance(os[0], n)] + AdvanceAll(os[1..], n)
  }

  lemma {:induction false} AdvanceTwice(os: seq<Identity>, n: nat, m: nat)
    ensures AdvanceAll(AdvanceAll(os, n), m) == AdvanceAll(os, n + m)
  {
    if os != [] {
      AdvanceTwice(os[1..], n, m);
      assert Advance(Advance(os[0], n), m) == Advance(os[0], n + m);
    }
  }

  lemma NotBumped(line: string)
    requires IdentityOf(line) == None
    ensures BumpLine(line) == line
  {}

  lemma BumpedSession(line: string)
    requires Line(line)
    ensures match IdentityOf(line)
            case None => IdentityOf(BumpLine(line)) == None
            case Some(o) => IdentityOf(BumpLine(line)) == Some(Advance(o, 1))
  {
    hide BumpLine, Fields;
    if IdentityOf(line).Some? {
      BumpedLine(line);
      BumpedVersion(line, Fields(line), (VersionOf(line).value + 1) % TWO_64);
    } else {
      NotBumped(line);
    }
  }

  lemma BumpedVersion(line: string, f: seq<string>, v: nat)
    requires |f| == 6 && v < TWO_64 && Fields(BumpLine(line)) == f[2 := Decimal(v)]
    ensures VersionOf(BumpLine(line)) == Some(v)
    ensures Fields(BumpLine(line))[0] == f[0] && Fields(BumpLine(line))[1] == f[1]
  {
    ParseUintDecimal(v);
  }

  /** BumpVersion advances every session's version by one and keeps its user and id. */
  lemma {:induction false} BumpedSessions(ls: seq<string>)
    requires AllLines(ls)
    ensures Sessions(BumpLines(ls)) == AdvanceAll(Sessions(ls), 1)
  {
    if ls != [] {
      BumpedSession(ls[0]);
      BumpedSessions(ls[1..]);
    }
  }

  lemma NoIdentity(dir: string)
    requires IsDirectionName(dir)
    ensures IdentityOf(DirectionLine(dir)) == None
  {
    DirectionLineShape(dir);
  }

  lemma DirectionIsNone(line: string)
    requires KindOf(line) == Direction
    ensures IdentityOf(line) == None
  {}

  lemma {:induction false} DirectedSessions(inAudio: bool, placed: bool, ls: seq<string>, dir: string)
    requires IsDirectionName(dir)
    ensures Sessions(Directed(inAudio, placed, ls, dir)) == Sessions(ls)
    decreases |ls|
  {
    hide IdentityOf, KindOf, IsAudio;
    NoIdentity(dir);
    if ls == [] {
      SessionsOne(DirectionLine(dir), []);
      assert [DirectionLine(dir)] + [] == [DirectionLine(dir)];
    } else {
      if KindOf(ls[0]) == Direction { DirectionIsNone(ls[0]); }
      var placed' := placed || inAudio;
      var flag := IsAudio(ls[0]) && !placed';
      DirectedSessions(inAudio, placed, ls[1..], dir);
      DirectedSessions(flag, placed', ls[1..], dir);
      SessionsOne(ls[0], Directed(flag, placed', ls[1..], dir));
      SessionsOne(ls[0], Directed(inAudio, placed, ls[1..], dir));
      if KindOf(ls[0]) == Media && inAudio && !placed {
        var tail := [ls[0]] + Directed(flag, placed', ls[1..], dir);
        SessionsOne(DirectionLine(dir), tail);
        assert Directed(inAudio, placed, ls, dir) == [DirectionLine(dir)] + tail;
      } else if KindOf(ls[0]) == Media {
        assert Directed(inAudio, placed, ls, dir) == [ls[0]] + Directed(flag, placed', ls[1..], dir);
      }
    }
  }

  lemma SessionsOne(line: string, rest: seq<string>)
    ensures Sessions([line] + rest) ==
        (if IdentityOf(line).Some? then [IdentityOf(line).value] else []) + Sessions(rest)
  {
    assert ([line] + rest)[1..] == rest;
  }

  lemma {:induction false} SessionsConcat(a: seq<string>, b: seq<string>)
    ensures Sessions(a + b) == Sessions(a) + Sessions(b)
  {
    if a == [] {
      assert a + b == b;
    } else {
      assert a + b == [a[0]] + (a[1..] + b);
      SessionsOne(a[0], a[1..] + b);
      SessionsConcat(a[1..], b);
    }
  }

  lemma MovedSession(line: string, t: Target)
    requires Line(line) && KindOf(line) == Origin
    ensures IdentityOf(MoveOrigin(line, t)) == IdentityOf(line)
  {
    OriginMoved(line, t);
  }

  lemma EmitSessions(w: Flags, line: string, t: Target)
    requires Line(line) && t.Valid()
    ensures Sessions(Emit(w, line, t)) == if IdentityOf(line).Some? then [IdentityOf(line).value] else []
  {
    hide AudioWord, MoveConnection, MoveMedia, RtcpLine, ConnAddr;
    match KindOf(line)
    case Origin =>
      MovedSession(line, t);
      SessionsOne(MoveOrigin(line, t), []);
      assert [MoveOrigin(line, t)] + [] == [MoveOrigin(line, t)];
    case Connection =>
      ConnectionMoved(line, t);
      NoSession(MoveConnection(line, t));
    case Media =>
      var m := MoveMedia(line, t, !w.seen && AudioWord(line));
      MediaMoved(line, t, !w.seen && AudioWord(line));
      ClosingSessions(w, t);
      NoSession(m);
      SessionsConcat(Closing(w, t), [m]);
    case Rtcp =>
      RtcpLineShape(t);
      NoSession(RtcpLine(t));
    case Transport =>
    case KeyAttribute =>
    case _ => NoSession(line);
  }

  lemma NoSession(line: string)
    requires KindOf(line) != Origin
    ensures Sessions([line]) == []
  {
    assert [line][1..] == [];
  }

  lemma ClosingSessions(w: Flags, t: Target)
    requires t.Valid()
    ensures Sessions(Closing(w, t)) == []
  {
    if t.key.Some? {
      KeyLineShape(t.key.value);
      AttributeKind(KeyLine(t.key.value));
      NoSession(KeyLine(t.key.value));
    }
  }

  lemma {:induction false} MovedSessions(w: Flags, ls: seq<string>, t: Target)
    requires AllLines(ls) && t.Valid()
    ensures Sessions(MovedLines(w, ls, t)) == Sessions(ls)
    decreases |ls|
  {
    if ls == [] {
      ClosingSessions(w, t);
    } else {
      EmitSessions(w, ls[0], t);
      MovedSessions(Next(w, ls[0]), ls[1..], t);
      SessionsConcat(Emit(w, ls[0], t), MovedLines(Next(w, ls[0]), ls[1..], t));
    }
  }
}
