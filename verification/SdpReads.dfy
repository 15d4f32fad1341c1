/**
 What Parse reads on lines the PBX did not write (internal/sdp/sdp.go:77-124 and 265-275, internal/sdp/crypto.go:63-94):
 the forms phones use, said by their text.
 */
module SdpReads {
  import opened Basics
  import opened Text
  import opened Netip
  import opened SdpCrypto
  import opened SdpParse
  import opened SdpMeaning
  import opened PassThrough
  import Base64

  // ---- a=crypto ----

  /** A key parameter: the key, then lifetime or master key identifier, then more parameters. */
  ghost predicate Follows(mid: string, end: string) {
    && (mid == "" || mid[0] == '|') && ';' !in mid
    && (end == "" || end[0] == ';')
  }

  /** The 30 bytes written as b, with padding or without. */
  function KeyBytes(b: string): Option<seq<Byte>> {
    match Base64.Decode(b + seq((4 - |b| % 4) % 4, _ => '='))
    case None => None
    case Some(key) => if |key| == 30 then Some(key) else None
  }

  lemma {:induction false} ColonInPieces(s: string)
    ensures HasColon(Split(s, '|')) <==> ':' in s
    decreases |s|
  {
    hide HasColon, Split;
    SplitOnce(s, '|');
    var i := IndexOf(s, '|');
    if i == |s| {
      OnePiece(s);
    } else {
      ColonInPieces(s[i + 1..]);
      MorePieces(s[..i], Split(s[i + 1..], '|'));
      InParts(s, i, ':');
    }
  }

  lemma InParts(s: string, i: nat, c: char)
    requires i < |s| && s[i] != c
    ensures c in s <==> c in s[..i] || c in s[i + 1..]
  {
    assert s == s[..i] + [s[i]] + s[i + 1..];
  }

  lemma OnePiece(s: string)
    ensures HasColon([s]) <==> ':' in s
  {
    if ':' in s { assert ':' in [s][0]; }
  }

  lemma MorePieces(head: string, rest: seq<string>)
    ensures HasColon([head] + rest) <==> ':' in head || HasColon(rest)
  {
    var all := [head] + rest;
    if ':' in head { assert ':' in all[0]; }
    if HasColon(rest) {
      var i :| 0 <= i < |rest| && ':' in rest[i];
      assert ':' in all[i + 1];
    }
    if HasColon(all) {
      var i :| 0 <= i < |all| && ':' in all[i];
      if i > 0 { assert ':' in rest[i - 1]; }
    }
  }

  lemma ParamBefore(b: string, mid: string, end: string)
    requires Follows(mid, end) && ';' !in b
    ensures Before("inline:" + b + mid + end, ';') == "inline:" + b + mid
  {
    var front := "inline:" + b + mid;
    assert ';' !in front;
    if end == "" {
      assert front + end == front;
      IndexOfAbsent(front, ';');
    } else {
      assert front + end == front + [';'] + end[1..];
      IndexOfFirst(front, ';', end[1..]);
    }
  }

  lemma ParamReads(tag: int, suite: string, b: string, mid: string)
    requires (mid == "" || mid[0] == '|') && '|' !in b
    ensures ParseKeyParam(tag, suite, "inline:" + b + mid) ==
            if ':' in mid then Unsupported else DecodeKey(tag, suite, b)
  {
    hide DecodeKey, HasColon;
    var rest := b + mid;
    assert "inline:" + b + mid == "inline:" + rest && ("inline:" + rest)[7..] == rest;
    if mid == "" {
      assert rest == b;
      IndexOfAbsent(b, '|');
      NoPieces();
    } else {
      assert rest == b + ['|'] + mid[1..] && mid == ['|'] + mid[1..];
      IndexOfFirst(b, '|', mid[1..]);
      ColonInPieces(mid[1..]);
      assert ([b] + Split(mid[1..], '|'))[1..] == Split(mid[1..], '|');
    }
  }

  lemma NoPieces()
    ensures !HasColon([]) && forall s: string :: [s][1..] == []
  {}

  lemma BytesReads(tag: int, suite: string, b: string)
    ensures DecodeKey(tag, suite, b) ==
            if KeyBytes(b).Some? then Key(Crypto(tag, suite, KeyBytes(b).value)) else Malformed
  {}

  /**
   A key line is used when its tag is a number that is not negative, its suite one of the two, and its first key
   parameter is inline with 30 bytes; a lifetime and further parameters do not matter, a master key identifier makes it
   useless.
   */
  lemma KeyLineReads(w: string, suite: string, b: string, mid: string, end: string, extra: seq<string>)
    requires Word(w) && Word(suite) && Word("inline:" + b + mid + end) && Words(extra)
    requires Follows(mid, end) && '|' !in b && ';' !in b
    ensures var line := "a=crypto:" + Join([w, suite, "inline:" + b + mid + end] + extra);
            var tag := Atoi(w);
            UsableKey(line) ==
            if tag.Some? && tag.value >= 0 && (suite == "AES_CM_128_HMAC_SHA1_80" || suite == "AES_CM_128_HMAC_SHA1_32")
               && ':' !in mid && KeyBytes(b).Some?
            then Some(Crypto(tag.value, suite, KeyBytes(b).value))
            else None
  {
    hide Fields, Join, Atoi, ParseKeyParam, DecodeKey, Before;
    var param := "inline:" + b + mid + end;
    var words := [w, suite, param] + extra;
    FieldsJoin(words);
    assert ("a=crypto:" + Join(words))[9..] == Join(words);
    ParamBefore(b, mid, end);
    if Atoi(w).Some? {
      ParamReads(Atoi(w).value, suite, b, mid);
      BytesReads(Atoi(w).value, suite, b);
    }
  }

  /** One that is not inline is not used. */
  lemma OtherKeyMethod(w: string, suite: string, param: string, extra: seq<string>)
    requires Word(w) && Word(suite) && Word(param) && Words(extra) && !("inline:" <= param)
    ensures UsableKey("a=crypto:" + Join([w, suite, param] + extra)) == None
  {
    hide Fields, Join, Atoi;
    var words := [w, suite, param] + extra;
    FieldsJoin(words);
    assert ("a=crypto:" + Join(words))[9..] == Join(words);
    assert Before(param, ';') <= param;
  }

  /** Nor is one of fewer than three words. */
  lemma ShortKeyLine(ws: seq<string>)
    requires Words(ws) && |ws| < 3
    ensures UsableKey("a=crypto:" + Join(ws)) == None
  {
    hide Fields, Join;
    FieldsJoin(ws);
    assert ("a=crypto:" + Join(ws))[9..] == Join(ws);
  }

  // ---- a=rtpmap ----

  /** The same text but for upper case in the first. */
  predicate SameLetters(a: string, b: string) {
    |a| == |b| && forall i | 0 <= i < |a| :: a[i] == b[i] || ('A' <= a[i] <= 'Z' && a[i] as int + 32 == b[i] as int)
  }

  lemma {:induction false} LowerAt(s: string)
    ensures |Lower(s)| == |s| && forall i | 0 <= i < |s| :: Lower(s)[i] == LowerChar(s[i])
  {
    if s != "" { LowerAt(s[1..]); }
  }

  lemma LowerMatches(c: char, e: char)
    requires !('A' <= e <= 'Z')
    ensures LowerChar(c) == e <==> c == e || ('A' <= c <= 'Z' && c as int + 32 == e as int)
  {}

  lemma EventNamed(name: string, event: string)
    requires forall i | 0 <= i < |event| :: !('A' <= event[i] <= 'Z')
    ensures event <= Lower(name) <==> |name| >= |event| && SameLetters(name[..|event|], event)
  {
    hide Lower, LowerChar;
    LowerAt(name);
    if |name| >= |event| {
      forall i | 0 <= i < |event|
        ensures Lower(name)[i] == event[i] <==>
                name[i] == event[i] || ('A' <= name[i] <= 'Z' && name[i] as int + 32 == event[i] as int)
      {
        LowerMatches(name[i], event[i]);
      }
      PrefixIs(event, Lower(name));
    }
  }

  lemma PrefixIs(p: string, s: string)
    requires |p| <= |s|
    ensures p <= s <==> forall i | 0 <= i < |p| :: s[i] == p[i]
  {}

  lemma EventHasNoCapitals()
    ensures forall i | 0 <= i < |"telephone-event/8000"| :: !('A' <= "telephone-event/8000"[i] <= 'Z')
    ensures |"telephone-event/8000"| == 20
  {}

  /** Keypad tones: the second of two words begins with telephone-event/8000 in any case; the first is the type. */
  lemma RtpmapReads(ws: seq<string>)
    requires Words(ws)
    ensures EventType("a=rtpmap:" + Join(ws)) ==
            if |ws| == 2 && |ws[1]| >= 20 && SameLetters(ws[1][..20], "telephone-event/8000") then Atoi(ws[0])
            else None
  {
    hide Fields, Join, Atoi, Lower, SameLetters;
    FieldsJoin(ws);
    assert ("a=rtpmap:" + Join(ws))[9..] == Join(ws);
    EventHasNoCapitals();
    if |ws| == 2 { EventNamed(ws[1], "telephone-event/8000"); }
  }

  // ---- a=rtcp and c= ----

  /** The first word is the port, whatever follows. */
  lemma RtcpReads(ws: seq<string>)
    requires Words(ws)
    ensures RtcpPort("a=rtcp:" + Join(ws)) == if ws == [] then None else Atoi(ws[0])
  {
    hide Fields, Join, Atoi;
    FieldsJoin(ws);
    assert ("a=rtcp:" + Join(ws))[7..] == Join(ws);
  }

  /** A connection of fewer than three words has no address. */
  lemma ShortConnection(ws: seq<string>)
    requires Words(ws) && |ws| < 3
    ensures ConnAddr("c=" + Join(ws)) == None
  {
    hide Fields, Join;
    FieldsJoin(ws);
    assert ("c=" + Join(ws))[2..] == Join(ws);
  }

  /** The third word up to a slash is the address, whatever the others. */
  lemma ConnectionReads(net: string, kind: string, a: string, ttl: string, rest: seq<string>)
    requires Word(net) && Word(kind) && Word(a + ttl) && Words(rest) && '/' !in a && (ttl == "" || ttl[0] == '/')
    ensures ConnAddr("c=" + Join([net, kind, a + ttl] + rest)) == ParseAddr(a)
  {
    hide Fields, Join, ParseAddr;
    var words := [net, kind, a + ttl] + rest;
    FieldsJoin(words);
    assert ("c=" + Join(words))[2..] == Join(words);
    if ttl == "" {
      assert a + ttl == a;
      IndexOfAbsent(a, '/');
    } else {
      assert a + ttl == a + ['/'] + ttl[1..];
      IndexOfFirst(a, '/', ttl[1..]);
    }
  }

  // ---- m= ----

  /**
   An audio line with its words single-spaced: the port is the second word up to a slash, the stream is SRTP if the
   third has SAVP anywhere in it, and the rest are codecs. Fewer than four words, or a port that is no number, are
   errors.
   */
  lemma AudioLineReads(s: Scan, p: string, slash: string, profile: string, codecs: seq<string>)
    requires Word(p + slash) && Word(profile) && Words(codecs) && '/' !in p && (slash == "" || slash[0] == '/')
    requires !s.found && !s.done
    ensures var r := ScanMedia(s, Join(["m=audio", p + slash, profile] + codecs));
            if codecs == [] then r == Err(MalformedMedia)
            else if Atoi(p).None? then r == Err(BadPort)
            else
              r == Ok(s.(seenM := true, found := true, inAudio := true,
                         info := s.info.(port := Atoi(p).value, formats := Numbers(codecs),
                                         secure := exists i :: 0 <= i <= |profile| && "SAVP" <= profile[i..])))
  {
    hide Fields, Join, Atoi, Numbers, Contains;
    var words := ["m=audio", p + slash, profile] + codecs;
    AudioIsWord();
    FieldsJoin(words);
    StartsAudio(words);
    ContainsIff(profile, "SAVP");
    assert words[3..] == codecs;
    if slash == "" {
      assert p + slash == p;
      IndexOfAbsent(p, '/');
    } else {
      assert p + slash == p + ['/'] + slash[1..];
      IndexOfFirst(p, '/', slash[1..]);
    }
  }

  lemma AudioIsWord()
    ensures Word("m=audio")
  {}

  lemma StartsAudio(words: seq<string>)
    requires |words| > 1 && words[0] == "m=audio"
    ensures "m=audio " <= Join(words)
  {
    assert Join(words) == words[0] + " " + Join(words[1..]);
  }

  /** The codecs are the words that are numbers, in order. */
  lemma {:induction false} NumbersOfBoth(a: seq<string>, b: seq<string>)
    ensures Numbers(a + b) == Numbers(a) + Numbers(b)
  {
    if a == [] {
      assert a + b == b;
    } else {
      assert (a + b)[1..] == a[1..] + b;
      NumbersOfBoth(a[1..], b);
    }
  }

  lemma NumberOfOne(w: string)
    ensures Numbers([w]) == if Atoi(w).Some? then [Atoi(w).value] else []
  {
    hide Atoi;
    assert [w][1..] == [] && Numbers([]) == [];
  }

  /** A number may have a sign and leading zeros. */
  lemma NumbersSigned(digits: string)
    requires digits != "" && AllDigits(digits)
    ensures var n: int := DecimalValue(digits);
            && Atoi(digits) == (if n <= 0x7FFF_FFFF_FFFF_FFFF then Some(n) else None)
            && Atoi("+" + digits) == Atoi(digits)
            && Atoi("-" + digits) == (if n <= 0x8000_0000_0000_0000 then Some(-n) else None)
            && DecimalValue("0" + digits) == n
  {
    assert ("+" + digits)[1..] == digits && ("-" + digits)[1..] == digits;
    assert digits[0] != '+' && digits[0] != '-' by { assert IsDigit(digits[0]); }
    LeadingZero(digits);
  }

  lemma {:induction false} LeadingZero(digits: string)
    requires AllDigits(digits)
    ensures AllDigits("0" + digits) && DecimalValue("0" + digits) == DecimalValue(digits)
  {
    var s := "0" + digits;
    if digits == "" {
      assert s == "0" && s[..0] == "";
    } else {
      assert s[..|s| - 1] == "0" + digits[..|digits| - 1];
      LeadingZero(digits[..|digits| - 1]);
    }
  }

  // ---- which SDP is a hold ----

  lemma {:induction false} LastDirectionIs(sec: seq<string>)
    ensures var said := Select(sec, SaysDirection);
            if said == [] then LastDirection(sec) == "" else "a=" + LastDirection(sec) == said[|said| - 1]
  {
    hide KindOf, SaysDirection;
    if sec != [] {
      var init, l := sec[..|sec| - 1], sec[|sec| - 1];
      LastDirectionIs(init);
      KindByText(l);
      assert sec == init + [l];
      SelectBoth(init, [l], SaysDirection);
      SelectOne(l, SaysDirection);
      if SaysDirection(l) { DirectionText(l); }
    }
  }

  lemma DirectionText(l: string)
    requires SaysDirection(l)
    ensures |l| >= 2 && l == "a=" + l[2..]
  {}

  /** The direction line that counts: the last of the first audio section, else the last before any stream. */
  function Decisive(ls: seq<string>): string {
    var own, general := Select(SdpMeaning.Section(ls), SaysDirection), Select(Session(ls), SaysDirection);
    if own != [] then own[|own| - 1] else if general != [] then general[|general| - 1] else ""
  }

  lemma {:induction false} SelectedSay(ls: seq<string>)
    ensures forall i | 0 <= i < |Select(ls, SaysDirection)| :: SaysDirection(Select(ls, SaysDirection)[i])
  {
    hide SaysDirection;
    if ls != [] { SelectedSay(ls[1..]); }
  }

  lemma NamesHold(line: string, dir: string)
    requires line == "a=" + dir
    ensures line == "a=sendonly" <==> dir == "sendonly"
    ensures line == "a=inactive" <==> dir == "inactive"
    ensures SaysDirection(line) ==> dir != ""
  {
    assert line[2..] == dir && "a=sendonly"[2..] == "sendonly" && "a=inactive"[2..] == "inactive";
  }

  lemma MeansDirection(ls: seq<string>)
    requires Meaning(ls).Ok?
    ensures var own, general := LastDirection(SdpMeaning.Section(ls)), LastDirection(Session(ls));
            Meaning(ls).value.direction == if own != "" then own else if general != "" then general else "sendrecv"
  {
    hide LastDirection, LastAddr, LastEvent, LastRtcp, Keys, SdpMeaning.Section, Session;
  }

  /** What counts, as the text after "a=". */
  lemma DecisiveIs(ls: seq<string>)
    ensures var own, general := LastDirection(SdpMeaning.Section(ls)), LastDirection(Session(ls));
            var dir := if own != "" then own else general;
            && (Decisive(ls) == "a=sendonly" <==> dir == "sendonly")
            && (Decisive(ls) == "a=inactive" <==> dir == "inactive")
  {
    hide SaysDirection, LastDirection, Select, SdpMeaning.Section, Session;
    var x, y := SdpMeaning.Section(ls), Session(ls);
    LastDirectionIs(x);
    LastDirectionIs(y);
    SelectedSay(x);
    SelectedSay(y);
    if Select(x, SaysDirection) != [] {
      NamesHold(Decisive(ls), LastDirection(x));
    } else if Select(y, SaysDirection) != [] {
      NamesHold(Decisive(ls), LastDirection(y));
    }
  }

  /** SDP is a hold exactly when its address is 0.0.0.0 or the line that counts says sendonly or inactive. */
  lemma OnHoldIff(body: string)
    requires Parsed(body).Ok?
    ensures var i := Parsed(body).value;
            i.OnHold() <==> i.addr == Addr(0, 0, 0, 0)
                            || Decisive(Lines(body)) == "a=sendonly" || Decisive(Lines(body)) == "a=inactive"
  {
    hide ParsedLines, Lines, LastDirection, Meaning, Decisive, SdpMeaning.Section, Session;
    ParsedMeaning(Lines(body));
    MeansDirection(Lines(body));
    DecisiveIs(Lines(body));
  }
}
