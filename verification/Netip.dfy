/** IPv4 addresses as net/netip reads and prints them. */
module Netip {
  import opened Basics
  import opened Text

  datatype Addr = Addr(a: Byte, b: Byte, c: Byte, d: Byte) {
    predicate IsUnspecified() { this == Addr(0, 0, 0, 0) }

    /** Private, loopback and link-local ranges: not reachable from the Internet. */
    predicate IsLocal() {
      a == 10 || (a == 172 && 16 <= b < 32) || (a == 192 && b == 168) || a == 127 || (a == 169 && b == 254)
    }

    function ToString(): string {
      Decimal(a) + "." + Decimal(b) + "." + Decimal(c) + "." + Decimal(d)
    }
  }

  /** One decimal field of a dotted quad: 0 to 255, no leading zero. */
  function ParseOctet(s: string): Option<Byte> {
    if s == "" || !AllDigits(s) || (|s| > 1 && s[0] == '0') || DecimalValue(s) > 255 then None
    else Some(DecimalValue(s))
  }

  function ParseAddr(s: string): Option<Addr> {
    var f := Split(s, '.');
    if |f| != 4 then None
    else match (ParseOctet(f[0]), ParseOctet(f[1]), ParseOctet(f[2]), ParseOctet(f[3]))
      case (Some(a), Some(b), Some(c), Some(d)) => Some(Addr(a, b, c, d))
      case _ => None
  }

  lemma OctetRoundTrip(n: Byte)
    ensures ParseOctet(Decimal(n)) == Some(n)
    ensures '.' !in Decimal(n) && '/' !in Decimal(n)
  {
    DecimalValueOf(n);
    assert forall c | c in Decimal(n) :: IsDigit(c);
    if |Decimal(n)| > 1 {
      assert n != 0;
    }
  }

  predicate Dotted(c: char) { IsDigit(c) || c == '.' }

  lemma DottedIsWord(a: string, b: string)
    requires AllDigits(a) && a != ""
    requires forall i | 0 <= i < |b| :: Dotted(b[i])
    ensures forall i | 0 <= i < |a + "." + b| :: Dotted((a + "." + b)[i])
    ensures a + "." + b == a + ['.'] + b
  {}

  /** Printing an address and parsing it back. */
  lemma AddrRoundTrip(ip: Addr)
    ensures ParseAddr(ip.ToString()) == Some(ip)
    ensures Word(ip.ToString()) && '/' !in ip.ToString()
  {
    hide Decimal, ParseOctet, Split;
    var a, b, c, d := Decimal(ip.a), Decimal(ip.b), Decimal(ip.c), Decimal(ip.d);
    OctetRoundTrip(ip.a);
    OctetRoundTrip(ip.b);
    OctetRoundTrip(ip.c);
    OctetRoundTrip(ip.d);
    var t1 := c + "." + d;
    var t2 := b + "." + t1;
    var t := a + "." + t2;
    DottedIsWord(c, d);
    DottedIsWord(b, t1);
    DottedIsWord(a, t2);
    assert ip.ToString() == t;
    assert forall i | 0 <= i < |t| :: Dotted(t[i]);
    SplitQuad(a, b, c, d);
  }

  lemma SplitQuad(a: string, b: string, c: string, d: string)
    requires '.' !in a && '.' !in b && '.' !in c && '.' !in d
    ensures Split(a + "." + (b + "." + (c + "." + d)), '.') == [a, b, c, d]
  {
    hide Split;
    IndexOfFirst(a, '.', b + "." + (c + "." + d));
    SplitTriple(b, c, d);
  }

  lemma SplitTriple(b: string, c: string, d: string)
    requires '.' !in b && '.' !in c && '.' !in d
    ensures Split(b + "." + (c + "." + d), '.') == [b, c, d]
  {
    IndexOfFirst(b, '.', c + "." + d);
    IndexOfFirst(c, '.', d);
    IndexOfAbsent(d, '.');
  }

  // ---- exactly which texts are addresses ----

  lemma {:induction false} Canonical(s: string)
    requires s != "" && AllDigits(s) && (|s| > 1 ==> s[0] != '0')
    ensures Decimal(DecimalValue(s)) == s && (s[0] != '0' ==> DecimalValue(s) > 0)
  {
    var n := |s| - 1;
    if n == 0 {
      assert s[..0] == "" && s == [s[0]];
    } else {
      var front := s[..n];
      assert front[0] == s[0] && s == front + [s[n]];
      Canonical(front);
    }
  }

  /** A field is the shortest decimal of a number up to 255: no sign, no blank, no leading zero. */
  lemma OctetIff(s: string, n: Byte)
    ensures ParseOctet(s) == Some(n) <==> s == Decimal(n)
  {
    OctetRoundTrip(n);
    if ParseOctet(s) == Some(n) { Canonical(s); }
  }

  lemma {:induction false} SplitFirst(s: string, c: char)
    ensures var i := IndexOf(s, c);
            if i == |s| then Split(s, c) == [s]
            else s == s[..i] + [c] + s[i + 1..] && Split(s, c) == [s[..i]] + Split(s[i + 1..], c)
  {
    hide Split;
    SplitOnce(s, c);
    if IndexOf(s, c) < |s| { PartsOf(s, IndexOf(s, c)); }
  }

  lemma PartsOf(s: string, i: nat)
    requires i < |s|
    ensures s == s[..i] + [s[i]] + s[i + 1..]
  {}

  lemma SplitTail(s: string) returns (t: string)
    requires |Split(s, '.')| > 1
    ensures s == Split(s, '.')[0] + "." + t && Split(t, '.') == Split(s, '.')[1..]
  {
    hide Split;
    SplitFirst(s, '.');
    t := s[IndexOf(s, '.') + 1..];
  }

  lemma {:induction false} SplitLast(s: string)
    requires |Split(s, '.')| == 1
    ensures Split(s, '.') == [s]
  {
    hide Split;
    SplitOnce(s, '.');
    var i := IndexOf(s, '.');
    if i < |s| { SplitSome(s[i + 1..]); }
  }

  lemma SplitSome(s: string)
    ensures |Split(s, '.')| > 0
  {}

  /** What is cut in four at the dots is four fields with dots between. */
  lemma CutInFour(s: string)
    requires |Split(s, '.')| == 4
    ensures var f := Split(s, '.'); s == f[0] + "." + (f[1] + "." + (f[2] + "." + f[3]))
  {
    hide Split;
    var t := SplitTail(s);
    var u := SplitTail(t);
    var v := SplitTail(u);
    SplitLast(v);
  }

  /** An address is read from its dotted decimal form and from no other text. */
  lemma AddrIff(s: string, ip: Addr)
    ensures ParseAddr(s) == Some(ip) <==>
            s == Decimal(ip.a) + "." + (Decimal(ip.b) + "." + (Decimal(ip.c) + "." + Decimal(ip.d)))
  {
    hide Decimal, ParseOctet, Split;
    var a, b, c, d := Decimal(ip.a), Decimal(ip.b), Decimal(ip.c), Decimal(ip.d);
    OctetRoundTrip(ip.a);
    OctetRoundTrip(ip.b);
    OctetRoundTrip(ip.c);
    OctetRoundTrip(ip.d);
    SplitQuad(a, b, c, d);
    if ParseAddr(s) == Some(ip) {
      var f := Split(s, '.');
      CutInFour(s);
      OctetIff(f[0], ip.a);
      OctetIff(f[1], ip.b);
      OctetIff(f[2], ip.c);
      OctetIff(f[3], ip.d);
    }
  }
}
