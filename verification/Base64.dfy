/** Standard base64 (section 4 of RFC 4648), as encoding/base64 prints and reads it. */
module Base64 {
  import opened Basics

  type Index = n: int | 0 <= n < 64

  function CharOf(i: Index): char {
    if i < 26 then 'A' + i as char
    else if i < 52 then 'a' + (i - 26) as char
    else if i < 62 then '0' + (i - 52) as char
    else if i == 62 then '+' else '/'
  }

  /** The index of an alphabet character, or -1. */
  function IndexOfChar(c: char): (i: int)
    ensures -1 <= i < 64
  {
    if 'A' <= c <= 'Z' then c as int - 'A' as int
    else if 'a' <= c <= 'z' then c as int - 'a' as int + 26
    else if '0' <= c <= '9' then c as int - '0' as int + 52
    else if c == '+' then 62 else if c == '/' then 63 else -1
  }

  /** The four characters of three bytes. */
  function EncodeGroup(x: Byte, y: Byte, z: Byte): string {
    [CharOf(x / 4), CharOf(x % 4 * 16 + y / 16), CharOf(y % 16 * 4 + z / 64), CharOf(z % 64)]
  }

  function Encode(bytes: seq<Byte>): string {
    if bytes == [] then ""
    else if |bytes| == 1 then EncodeGroup(bytes[0], 0, 0)[..2] + "=="
    else if |bytes| == 2 then EncodeGroup(bytes[0], bytes[1], 0)[..3] + "="
    else EncodeGroup(bytes[0], bytes[1], bytes[2]) + Encode(bytes[3..])
  }

  /** The three bytes of four characters. */
  function DecodeGroup(i: Index, j: Index, k: Index, l: Index): (Byte, Byte, Byte) {
    (i * 4 + j / 16, j % 16 * 16 + k / 4, k % 4 * 64 + l)
  }

  /** Padding may only end the text; unused trailing bits are ignored. */
  function Decode(s: string): Option<seq<Byte>> {
    if s == "" then Some([])
    else if |s| < 4 then None
    else
      var i, j, k, l := IndexOfChar(s[0]), IndexOfChar(s[1]), IndexOfChar(s[2]), IndexOfChar(s[3]);
      if i < 0 || j < 0 then None
      else if s[2..] == "==" then Some([DecodeGroup(i, j, 0, 0).0])
      else if k < 0 then None
      else if s[3..] == "=" then var g := DecodeGroup(i, j, k, 0); Some([g.0, g.1])
      else if l < 0 then None
      else
        var g := DecodeGroup(i, j, k, l);
        match Decode(s[4..])
        case None => None
        case Some(rest) => Some([g.0, g.1, g.2] + rest)
  }

  predicate InAlphabet(c: char) { IndexOfChar(c) >= 0 || c == '=' }

  lemma CharRoundTrip(i: Index)
    ensures IndexOfChar(CharOf(i)) == i
  {}

  lemma GroupRoundTrip(x: Byte, y: Byte, z: Byte)
    ensures DecodeGroup(x / 4, x % 4 * 16 + y / 16, y % 16 * 4 + z / 64, z % 64) == (x, y, z)
  {}

  lemma CharsRoundTrip(x: Byte, y: Byte, z: Byte)
    ensures var s := EncodeGroup(x, y, z);
            DecodeGroup(IndexOfChar(s[0]), IndexOfChar(s[1]), IndexOfChar(s[2]), IndexOfChar(s[3])) == (x, y, z)
    ensures forall i | 0 <= i < 4 :: IndexOfChar(EncodeGroup(x, y, z)[i]) >= 0
  {
    CharRoundTrip(x / 4);
    CharRoundTrip(x % 4 * 16 + y / 16);
    CharRoundTrip(y % 16 * 4 + z / 64);
    CharRoundTrip(z % 64);
    GroupRoundTrip(x, y, z);
  }

  lemma DecodeFull(x: Byte, y: Byte, z: Byte, rest: string)
    requires Decode(rest).Some?
    ensures Decode(EncodeGroup(x, y, z) + rest) == Some([x, y, z] + Decode(rest).value)
  {
    CharsRoundTrip(x, y, z);
    var g := EncodeGroup(x, y, z);
    var s := g + rest;
    assert s[4..] == rest;
    assert s[0] == g[0] && s[1] == g[1] && s[2] == g[2] && s[3] == g[3];
    assert IndexOfChar('=') == -1;
    assert s[2..][0] == g[2] && s[3..][0] == g[3];
  }

  lemma EncodeThree(bytes: seq<Byte>)
    requires |bytes| >= 3
    ensures Encode(bytes) == EncodeGroup(bytes[0], bytes[1], bytes[2]) + Encode(bytes[3..])
  {}

  lemma DecodeNothing()
    ensures Decode(Encode([])) == Some([])
  {}

  /** Decoding what was encoded gives back every byte, at any length. */
  lemma {:induction false} DecodeEncode(bytes: seq<Byte>)
    ensures Decode(Encode(bytes)) == Some(bytes)
  {
    hide Encode, Decode;
    if |bytes| >= 3 {
      DecodeEncode(bytes[3..]);
      EncodeThree(bytes);
      DecodeFull(bytes[0], bytes[1], bytes[2], Encode(bytes[3..]));
      assert bytes == [bytes[0], bytes[1], bytes[2]] + bytes[3..];
    } else if |bytes| == 2 {
      EncodeTwo(bytes[0], bytes[1]);
      assert bytes == [bytes[0], bytes[1]];
    } else if |bytes| == 1 {
      EncodeOne(bytes[0]);
      assert bytes == [bytes[0]];
    } else {
      DecodeNothing();
    }
  }

  lemma EncodeOne(x: Byte)
    ensures Decode(Encode([x])) == Some([x])
  {
    CharsRoundTrip(x, 0, 0);
    var g, s := EncodeGroup(x, 0, 0), Encode([x]);
    assert s == g[..2] + "==" && s[2..] == "==" && CharOf(0) == 'A';
  }

  lemma EncodeTwo(x: Byte, y: Byte)
    ensures Decode(Encode([x, y])) == Some([x, y])
  {
    CharsRoundTrip(x, y, 0);
    var g, s := EncodeGroup(x, y, 0), Encode([x, y]);
    assert s == g[..3] + "=" && s[3..] == "=" && s[2] == g[2] && IndexOfChar('=') == -1;
    assert s[2..][0] == g[2];
  }

  lemma {:induction false} EncodeLength(bytes: seq<Byte>)
    ensures |Encode(bytes)| == (|bytes| + 2) / 3 * 4
  {
    if |bytes| >= 3 {
      hide Encode;
      EncodeLength(bytes[3..]);
      EncodeThree(bytes);
      assert (|bytes| + 2) / 3 == (|bytes[3..]| + 2) / 3 + 1;
    }
  }

  lemma GroupAlphabet(x: Byte, y: Byte, z: Byte)
    ensures forall i | 0 <= i < 4 :: InAlphabet(EncodeGroup(x, y, z)[i])
    ensures InAlphabet('=')
  {}

  lemma {:induction false} EncodeAlphabet(bytes: seq<Byte>)
    ensures forall i | 0 <= i < |Encode(bytes)| :: InAlphabet(Encode(bytes)[i])
  {
    hide InAlphabet;
    if |bytes| >= 3 {
      EncodeAlphabet(bytes[3..]);
      EncodeThree(bytes);
      GroupAlphabet(bytes[0], bytes[1], bytes[2]);
    } else if |bytes| == 2 {
      GroupAlphabet(bytes[0], bytes[1], 0);
    } else if |bytes| == 1 {
      GroupAlphabet(bytes[0], 0, 0);
    }
  }

  // ---- the alphabet and the bits ----

  /** By character code: A to Z, a to z, 0 to 9, plus and slash. */
  lemma CharCode(i: Index)
    ensures CharOf(i) as int ==
            if i < 26 then 65 + i else if i < 52 then 71 + i else if i < 62 then i - 4 else if i == 62 then 43 else 47
  {}

  /** Three bytes are four times six bits of one number, the first byte highest. */
  lemma GroupIsBits(x: Byte, y: Byte, z: Byte)
    ensures var g := EncodeGroup(x, y, z);
            var i, j, k, l := IndexOfChar(g[0]), IndexOfChar(g[1]), IndexOfChar(g[2]), IndexOfChar(g[3]);
            ((i * 64 + j) * 64 + k) * 64 + l == (x * 256 + y) * 256 + z
  {
    CharRoundTrip(x / 4);
    CharRoundTrip(x % 4 * 16 + y / 16);
    CharRoundTrip(y % 16 * 4 + z / 64);
    CharRoundTrip(z % 64);
    assert x == 4 * (x / 4) + x % 4 && y == 16 * (y / 16) + y % 16 && z == 64 * (z / 64) + z % 64;
  }

  lemma CharOnly(c: char)
    ensures IndexOfChar(c) >= 0 ==> CharOf(IndexOfChar(c)) == c
    ensures IndexOfChar(c) >= 0 <==> Digit(c)
  {}

  // ---- what can be decoded ----

  /** A letter, a decimal digit, plus or slash. */
  predicate Digit(c: char) {
    var n := c as int;
    65 <= n <= 90 || 97 <= n <= 122 || 48 <= n <= 57 || n == 43 || n == 47
  }

  /** All characters are of the alphabet but the last n, at most two, which are padding. */
  ghost predicate PaddedBy(s: string, n: nat) {
    && n <= 2 && n <= |s|
    && (forall i | 0 <= i < |s| - n :: Digit(s[i]))
    && (forall i | |s| - n <= i < |s| :: s[i] == '=')
  }

  lemma GroupPadded(s: string, n: nat)
    requires |s| == 4
    ensures PaddedBy(s, n) <==>
            && n <= 2 && Digit(s[0]) && Digit(s[1])
            && (if n < 2 then Digit(s[2]) else s[2] == '=') && if n < 1 then Digit(s[3]) else s[3] == '='
  {}

  lemma GroupFirst(s: string, n: nat)
    requires |s| > 4 && |s| % 4 == 0
    ensures PaddedBy(s, n) <==>
            Digit(s[0]) && Digit(s[1]) && Digit(s[2]) && Digit(s[3]) && PaddedBy(s[4..], n)
  {
    hide Digit;
    var t := s[4..];
    if PaddedBy(s, n) { assert forall i | 0 <= i < |t| :: t[i] == s[i + 4]; }
    if PaddedBy(t, n) { assert forall i | 4 <= i < |s| :: s[i] == t[i - 4]; }
  }

  lemma DecodeOne(s: string)
    requires |s| == 4
    ensures Decode(s).Some? <==> PaddedBy(s, 0) || PaddedBy(s, 1) || PaddedBy(s, 2)
    ensures forall n: nat | PaddedBy(s, n) :: Decode(s).Some? && |Decode(s).value| == 3 - n
  {
    hide IndexOfChar, PaddedBy, DecodeGroup;
    forall n: nat { GroupPadded(s, n); }
    forall i | 0 <= i < 4 { CharOnly(s[i]); }
    assert !Digit('=');
    assert s[2..] == [s[2], s[3]] && s[3..] == [s[3]] && s[4..] == "";
  }

  lemma DecodeMore(s: string)
    requires |s| > 4
    ensures var group := Digit(s[0]) && Digit(s[1]) && Digit(s[2]) && Digit(s[3]);
            && (Decode(s).Some? <==> group && Decode(s[4..]).Some?)
            && (Decode(s).Some? ==> |Decode(s).value| == |Decode(s[4..]).value| + 3)
  {
    hide IndexOfChar, DecodeGroup, Digit;
    forall i | 0 <= i < 4 { CharOnly(s[i]); }
    assert |s[2..]| > 2 && |s[3..]| > 1;
  }

  /** Whole groups of four with at most two padding characters at the end are decoded. */
  lemma {:induction false} DecodedLength(s: string, n: nat)
    requires |s| % 4 == 0 && PaddedBy(s, n)
    ensures Decode(s).Some? && |Decode(s).value| == |s| / 4 * 3 - n
    decreases |s|
  {
    hide Decode, PaddedBy, Digit;
    if |s| > 4 {
      GroupFirst(s, n);
      DecodedLength(s[4..], n);
      DecodeMore(s);
    } else if |s| == 4 {
      DecodeOne(s);
    } else {
      DecodeShort(s);
    }
  }

  /** And nothing else is. */
  lemma {:induction false} DecodedIsPadded(s: string)
    requires Decode(s).Some?
    ensures |s| % 4 == 0 && exists n: nat :: PaddedBy(s, n)
    decreases |s|
  {
    hide Decode, PaddedBy, Digit;
    if |s| > 4 {
      DecodeMore(s);
      DecodedIsPadded(s[4..]);
      var n: nat :| PaddedBy(s[4..], n);
      GroupFirst(s, n);
    } else if |s| == 4 {
      DecodeOne(s);
    } else {
      DecodeShort(s);
    }
  }

  lemma DecodeShort(s: string)
    requires |s| < 4
    ensures Decode(s).Some? <==> s == ""
    ensures PaddedBy("", 0) && forall n: nat | PaddedBy(s, n) :: s == "" ==> n == 0
    ensures s == "" ==> Decode(s) == Some([])
  {}
}
