/** SDES keys in SDP: the a=crypto attribute of RFC 4568 (internal/sdp/crypto.go). */
module SdpCrypto {
  import opened Basics
  import opened Text
  import Base64

  const SUITE_80 := "AES_CM_128_HMAC_SHA1_80"
  const SUITE_32 := "AES_CM_128_HMAC_SHA1_32"
  const KEY_LEN := 30

  datatype Crypto = Crypto(tag: int, suite: string, key: seq<Byte>) {
    /** The attribute value, without "a=". */
    function ToString(): string {
      "crypto:" + Itoa(tag) + " " + suite + " inline:" + Base64.Encode(key)
    }

    /** Same suite and key; the tag does not matter. */
    predicate Equal(o: Crypto) {
      suite == o.suite && key == o.key
    }

    /** What parseCrypto returns and what the PBX generates. */
    predicate WellFormed() {
      0 <= tag <= MAX_INT && SupportedSuite(suite) && |key| == KEY_LEN
    }
  }

  predicate SupportedSuite(s: string) {
    s == SUITE_80 || s == SUITE_32
  }

  datatype CryptoLine = Key(c: Crypto) | Unsupported | Malformed

  method PadBase64(s: string) returns (r: string)
    ensures r == Padded(s)
  {
    r := s;
    var m := |s| % 4;
    if m != 0 {
      r := r + seq(4 - m, _ => '=');
    }
  }

  /** Filled up with '=' to a multiple of four. */
  function Padded(s: string): (r: string)
    ensures s <= r && |r| % 4 == 0 && |r| < |s| + 4
  {
    s + seq((4 - |s| % 4) % 4, _ => '=')
  }

  /** The value after "a=crypto:". */
  function ParseCrypto(v: string): (r: CryptoLine)
    ensures r.Key? ==> r.c.WellFormed()
  {
    var f := Fields(v);
    if |f| < 3 then Malformed
    else match Atoi(f[0])
      case None => Malformed
      case Some(tag) =>
        if tag < 0 then Malformed
        else if !SupportedSuite(f[1]) then Unsupported
        else ParseKeyParam(tag, f[1], Before(f[2], ';'))
  }

  function ParseKeyParam(tag: int, suite: string, param: string): CryptoLine {
    if !("inline:" <= param) then Malformed
    else
      var parts := Split(param[|"inline:"|..], '|');
      // A master key identifier changes the packet format.
      if HasColon(parts[1..]) then Unsupported else DecodeKey(tag, suite, parts[0])
  }

  predicate HasColon(parts: seq<string>) {
    exists i | 0 <= i < |parts| :: ':' in parts[i]
  }

  function DecodeKey(tag: int, suite: string, b64: string): CryptoLine {
    match Base64.Decode(Padded(b64))
    case None => Malformed
    case Some(key) => if |key| == KEY_LEN then Key(Crypto(tag, suite, key)) else Malformed
  }

  lemma SuiteIsWord(s: string)
    requires SupportedSuite(s)
    ensures Word(s)
  {
    var t := s[..22];
    assert t == "AES_CM_128_HMAC_SHA1_8"[..22] || t == "AES_CM_128_HMAC_SHA1_3"[..22];
  }

  /** Characters that end nothing inside a key parameter. */
  predicate Plain(c: char) { !IsSpace(c) && c != ';' && c != '|' }

  lemma AlphabetIsPlain(c: char)
    requires Base64.InAlphabet(c)
    ensures Plain(c)
  {}

  lemma PlainParam(b: string)
    requires forall i | 0 <= i < |b| :: Base64.InAlphabet(b[i])
    ensures Word("inline:" + b) && ';' !in "inline:" + b && '|' !in b
  {
    var param := "inline:" + b;
    forall i | 0 <= i < |b| ensures Plain(b[i]) { AlphabetIsPlain(b[i]); }
    forall i | 0 <= i < |param| ensures Plain(param[i]) {
      assert param[i] == if i < 7 then "inline:"[i] else b[i - 7];
    }
  }

  lemma ParseParam(c: Crypto, b: string)
    requires '|' !in b && DecodeKey(c.tag, c.suite, b) == Key(c)
    ensures ParseKeyParam(c.tag, c.suite, "inline:" + b) == Key(c)
  {
    assert ("inline:" + b)[|"inline:"|..] == b;
    IndexOfAbsent(b, '|');
  }

  lemma DecodePrinted(c: Crypto)
    requires c.WellFormed()
    ensures DecodeKey(c.tag, c.suite, Base64.Encode(c.key)) == Key(c)
  {
    hide Base64.Encode, Base64.Decode;
    var b := Base64.Encode(c.key);
    Base64.DecodeEncode(c.key);
    Base64.EncodeLength(c.key);
    assert Padded(b) == b;
  }

  lemma KeyParamRoundTrip(c: Crypto, param: string)
    requires c.WellFormed() && param == "inline:" + Base64.Encode(c.key)
    ensures Word(param)
    ensures ParseKeyParam(c.tag, c.suite, Before(param, ';')) == Key(c)
  {
    var b := Base64.Encode(c.key);
    DecodePrinted(c);
    Base64.EncodeAlphabet(c.key);
    PlainParam(b);
    IndexOfAbsent(param, ';');
    ParseParam(c, b);
  }

  /** The printed attribute, cut at its words. */
  lemma PrintedWords(c: Crypto, param: string)
    requires c.WellFormed() && param == "inline:" + Base64.Encode(c.key)
    ensures "crypto:" <= c.ToString()
    ensures c.ToString()[|"crypto:"|..] == Join([Itoa(c.tag), c.suite, param])
  {
    hide Base64.Encode, Join, Decimal;
    JoinThree(Itoa(c.tag), c.suite, param);
    assert " inline:" == " " + "inline:";
  }

  lemma JoinThree(a: string, b: string, c: string)
    ensures Join([a, b, c]) == a + " " + b + " " + c
  {
    assert [a, b, c][1..] == [b, c] && [b, c][1..] == [c];
    assert Join([b, c]) == b + " " + c;
  }

  /** parseCrypto undoes String for every well-formed key: tag, suite and all 30 bytes. */
  lemma CryptoRoundTrip(c: Crypto)
    requires c.WellFormed()
    ensures "crypto:" <= c.ToString()
    ensures ParseCrypto(c.ToString()[|"crypto:"|..]) == Key(c)
  {
    hide Base64.Encode, Join, Itoa, Atoi, Word, Fields, ParseKeyParam, Before;
    var param := "inline:" + Base64.Encode(c.key);
    var ws := [Itoa(c.tag), c.suite, param];
    ItoaIsWord(c.tag);
    SuiteIsWord(c.suite);
    KeyParamRoundTrip(c, param);
    AtoiItoa(c.tag);
    FieldsJoin(ws);
    PrintedWords(c, param);
  }

  /** The line an SDP body carries a key on. */
  function KeyLine(c: Crypto): string {
    "a=" + c.ToString()
  }

  lemma KeyLineShape(c: Crypto)
    requires c.WellFormed()
    ensures Line(KeyLine(c)) && "a=crypto:" <= KeyLine(c)
    ensures ParseCrypto(KeyLine(c)[|"a=crypto:"|..]) == Key(c)
  {
    hide Base64.Encode, Join, Itoa, Line, ParseCrypto;
    var param := "inline:" + Base64.Encode(c.key);
    PrintedWords(c, param);
    CryptoRoundTrip(c);
    PrintedIsLine(c, param);
    var words := Join([Itoa(c.tag), c.suite, param]);
    PrefixedLine("a=crypto:", words);
    Reassociate(KeyLine(c), c.ToString(), words);
  }

  lemma PrintedIsLine(c: Crypto, param: string)
    requires c.WellFormed() && param == "inline:" + Base64.Encode(c.key)
    ensures Line(Join([Itoa(c.tag), c.suite, param]))
  {
    hide Base64.Encode, Join, Itoa, Word, Line, ParseKeyParam, Before;
    ItoaIsWord(c.tag);
    SuiteIsWord(c.suite);
    KeyParamRoundTrip(c, param);
    JoinIsLine([Itoa(c.tag), c.suite, param]);
  }

  lemma Reassociate(line: string, printed: string, words: string)
    requires "crypto:" <= printed && printed[|"crypto:"|..] == words && line == "a=" + printed
    ensures line == "a=crypto:" + words
    ensures line[|"a=crypto:"|..] == words
  {
    assert printed == "crypto:" + words;
    assert "a=" + "crypto:" == "a=crypto:";
  }

  lemma PrefixedLine(p: string, l: string)
    requires Line(l) && '\n' !in p
    ensures Line(p + l)
  {}
}
