/** Go's strings and strconv operations on text, as the SDP code uses them. */
module Text {
  import opened Basics

  // ---- words ----

  /** unicode.IsSpace. */
  predicate IsSpace(c: char) {
    var n := c as int;
    9 <= n <= 13 || n == 0x20 || n == 0x85 || n == 0xA0 || n == 0x1680 || 0x2000 <= n <= 0x200A ||
    n == 0x2028 || n == 0x2029 || n == 0x202F || n == 0x205F || n == 0x3000
  }

  /** A nonempty run of non-space characters: what strings.Fields returns. */
  ghost predicate Word(w: string) {
    w != "" && forall i | 0 <= i < |w| :: !IsSpace(w[i])
  }

  ghost predicate Words(ws: seq<string>) {
    forall i | 0 <= i < |ws| :: Word(ws[i])
  }

  function WordLength(s: string): (n: nat)
    ensures n <= |s|
    ensures forall i | 0 <= i < n :: !IsSpace(s[i])
    ensures n < |s| ==> IsSpace(s[n])
  {
    if s == "" || IsSpace(s[0]) then 0 else 1 + WordLength(s[1..])
  }

  /** strings.Fields. */
  function Fields(s: string): (ws: seq<string>)
    ensures Words(ws)
    decreases |s|
  {
    if s == "" then []
    else if IsSpace(s[0]) then Fields(s[1..])
    else var n := WordLength(s); [s[..n]] + Fields(s[n..])
  }

  /** strings.Join(ws, " "). */
  function Join(ws: seq<string>): string {
    if ws == [] then "" else if |ws| == 1 then ws[0] else ws[0] + " " + Join(ws[1..])
  }

  lemma {:induction false} WordLengthOf(w: string, rest: string)
    requires forall i | 0 <= i < |w| :: !IsSpace(w[i])
    requires rest == "" || IsSpace(rest[0])
    ensures WordLength(w + rest) == |w|
  {
    if w == "" {
      assert w + rest == rest;
    } else {
      assert (w + rest)[1..] == w[1..] + rest;
      WordLengthOf(w[1..], rest);
    }
  }

  lemma FieldsWord(w: string, rest: string)
    requires Word(w)
    requires rest == "" || IsSpace(rest[0])
    ensures Fields(w + rest) == [w] + Fields(rest)
  {
    WordLengthOf(w, rest);
    assert (w + rest)[0] == w[0];
    assert (w + rest)[..|w|] == w && (w + rest)[|w|..] == rest;
  }

  lemma FieldsSpace(s: string)
    ensures Fields(" " + s) == Fields(s)
  {
    assert (" " + s)[1..] == s;
  }

  lemma NoFields()
    ensures Fields("") == []
  {}

  /** Splitting what was joined gives the words back. */
  lemma {:induction false} FieldsJoin(ws: seq<string>)
    requires Words(ws)
    ensures Fields(Join(ws)) == ws
  {
    hide Fields;
    if ws == [] {
      NoFields();
    } else if |ws| == 1 {
      FieldsWord(ws[0], "");
      NoFields();
      assert ws[0] + "" == ws[0];
    } else {
      var tail := Join(ws[1..]);
      FieldsJoin(ws[1..]);
      FieldsWord(ws[0], " " + tail);
      FieldsSpace(tail);
      assert Join(ws) == ws[0] + (" " + tail);
    }
  }

  /** A space-free prefix of a line is a prefix of the line's first word. */
  lemma FirstField(p: string, s: string)
    requires Word(p) && p <= s
    ensures Fields(s) != [] && p <= Fields(s)[0] <= s
    ensures p < s && IsSpace(s[|p|]) ==> Fields(s)[0] == p
  {
    assert s[0] == p[0];
    assert forall i | 0 <= i < |p| :: !IsSpace(s[i]);
  }

  // ---- prefixes, pieces ----

  /** strings.Contains. */
  predicate Contains(s: string, part: string) {
    part <= s || (s != "" && Contains(s[1..], part))
  }

  predicate HasSuffix(s: string, part: string) {
    |part| <= |s| && s[|s| - |part|..] == part
  }

  function IndexOf(s: string, c: char): (n: nat)
    ensures n <= |s| && forall i | 0 <= i < n :: s[i] != c
    ensures n < |s| ==> s[n] == c
  {
    if s == "" || s[0] == c then 0 else 1 + IndexOf(s[1..], c)
  }

  /** strings.SplitN(s, c, 2)[0]. */
  function Before(s: string, c: char): string {
    s[..IndexOf(s, c)]
  }

  /** strings.Split(s, c). */
  function Split(s: string, c: char): (parts: seq<string>)
    ensures parts != []
    decreases |s|
  {
    var n := IndexOf(s, c);
    if n == |s| then [s] else [s[..n]] + Split(s[n + 1..], c)
  }

  lemma IndexOfAbsent(s: string, c: char)
    requires c !in s
    ensures IndexOf(s, c) == |s|
    ensures Before(s, c) == s && Split(s, c) == [s]
  {
    assert forall i | 0 <= i < |s| :: s[i] in s;
  }

  lemma IndexOfFirst(s: string, c: char, rest: string)
    requires c !in s
    ensures IndexOf(s + [c] + rest, c) == |s|
    ensures Before(s + [c] + rest, c) == s
    ensures Split(s + [c] + rest, c) == [s] + Split(rest, c)
  {
    var t := s + [c] + rest;
    assert t[|s|] == c;
    assert forall i | 0 <= i < |s| :: t[i] == s[i] && s[i] in s;
    assert t[..|s|] == s && t[|s| + 1..] == rest;
  }

  lemma SplitHasNone(s: string, c: char)
    ensures forall p | p in Split(s, c) :: c !in p
    decreases |s|
  {
    var n := IndexOf(s, c);
    if n < |s| {
      SplitHasNone(s[n + 1..], c);
    }
  }

  // ---- lines ----

  predicate TrimmedRight(c: char) { c == '\r' || c == ' ' || c == '\t' }

  /** strings.TrimRight(s, "\r \t"). */
  function TrimRight(s: string): (t: string)
    ensures t <= s && (t != "" ==> !TrimmedRight(t[|t| - 1]))
  {
    if s != "" && TrimmedRight(s[|s| - 1]) then TrimRight(s[..|s| - 1]) else s
  }

  /** The nonempty trimmed pieces. */
  function Kept(raw: seq<string>): seq<string> {
    if raw == [] then []
    else var t := TrimRight(raw[0]); (if t == "" then [] else [t]) + Kept(raw[1..])
  }

  /** A body's lines: split on LF, trimmed on the right, empty ones dropped. */
  function Lines(body: string): seq<string> {
    Kept(Split(body, '\n'))
  }

  /** Lines written out, each ended by CRLF. */
  function Unlines(ls: seq<string>): string {
    if ls == [] then "" else ls[0] + "\r\n" + Unlines(ls[1..])
  }

  /** Lines are written one after another, each with CRLF after it. */
  lemma {:induction false} UnlinesBoth(a: seq<string>, b: seq<string>)
    ensures Unlines(a + b) == Unlines(a) + Unlines(b)
  {
    if a == [] {
      assert a + b == b;
    } else {
      assert (a + b)[1..] == a[1..] + b;
      UnlinesBoth(a[1..], b);
    }
  }

  lemma {:induction false} UnlinesOne(l: string)
    ensures Unlines([l]) == l + "\r\n" && Unlines([]) == ""
  {
    assert [l][1..] == [];
  }

  /** A line Lines can return. */
  ghost predicate Line(l: string) {
    l != "" && '\n' !in l && !TrimmedRight(l[|l| - 1])
  }

  ghost predicate AllLines(ls: seq<string>) {
    forall i | 0 <= i < |ls| :: Line(ls[i])
  }

  lemma {:induction false} KeptAreLines(raw: seq<string>)
    requires forall p | p in raw :: '\n' !in p
    ensures AllLines(Kept(raw))
  {
    if raw != [] {
      assert raw[0] in raw;
      assert forall p | p in raw[1..] :: p in raw;
      KeptAreLines(raw[1..]);
    }
  }

  lemma LinesAreLines(body: string)
    ensures AllLines(Lines(body))
  {
    SplitHasNone(body, '\n');
    KeptAreLines(Split(body, '\n'));
  }

  /** Reading what was written gives the lines back. */
  lemma {:induction false} LinesUnlines(ls: seq<string>)
    requires AllLines(ls)
    ensures Lines(Unlines(ls)) == ls
  {
    hide Split;
    if ls == [] {
      IndexOfAbsent("", '\n');
      assert Kept([""]) == [] by { assert TrimRight("") == ""; }
    } else {
      var l, rest := ls[0], Unlines(ls[1..]);
      var cr := l + "\r";
      assert Unlines(ls) == cr + ['\n'] + rest;
      IndexOfFirst(cr, '\n', rest);
      assert cr[..|cr| - 1] == l && TrimRight(l) == l;
      assert TrimRight(cr) == l;
      LinesUnlines(ls[1..]);
      assert ([cr] + Split(rest, '\n'))[1..] == Split(rest, '\n');
    }
  }

  /** Joined words make a line. */
  lemma {:induction false} JoinIsLine(ws: seq<string>)
    requires ws != [] && Words(ws)
    ensures Line(Join(ws))
  {
    if |ws| > 1 {
      JoinIsLine(ws[1..]);
    }
    assert IsSpace('\n') && Word(ws[0]);
    assert forall c | c in ws[0] :: !IsSpace(c);
  }

  // ---- decimal numbers ----

  const MAX_INT := 0x7FFF_FFFF_FFFF_FFFF
  const TWO_64 := 0x1_0000_0000_0000_0000

  predicate IsDigit(c: char) { '0' <= c <= '9' }

  predicate AllDigits(s: string) {
    forall i | 0 <= i < |s| :: IsDigit(s[i])
  }

  function DigitChar(n: nat): char
    requires n < 10
  { '0' + n as char }

  function Decimal(n: nat): (s: string)
    ensures s != "" && AllDigits(s)
  {
    if n < 10 then [DigitChar(n)] else Decimal(n / 10) + [DigitChar(n % 10)]
  }

  function DecimalValue(s: string): nat
    requires AllDigits(s)
  {
    if s == "" then 0
    else DecimalValue(s[..|s| - 1]) * 10 + (s[|s| - 1] as int - '0' as int)
  }

  lemma {:induction false} DecimalValueOf(n: nat)
    ensures DecimalValue(Decimal(n)) == n
    ensures n != 0 ==> Decimal(n)[0] != '0'
  {
    var s := Decimal(n);
    if n < 10 {
      assert DecimalValue(s[..0]) == 0;
    } else {
      DecimalValueOf(n / 10);
      assert s[..|s| - 1] == Decimal(n / 10);
    }
  }

  /** strconv.Itoa. */
  function Itoa(n: int): string {
    if n < 0 then "-" + Decimal(-n) else Decimal(n)
  }

  /** strconv.Atoi for Go's 64-bit int. */
  function Atoi(s: string): Option<int> {
    var signed := s != "" && (s[0] == '-' || s[0] == '+');
    var negative := signed && s[0] == '-';
    var digits := if signed then s[1..] else s;
    if digits == "" || !AllDigits(digits) then None
    else
      var v: int := DecimalValue(digits);
      if negative then (if v <= MAX_INT + 1 then Some(-v) else None)
      else if v <= MAX_INT then Some(v) else None
  }

  /** strconv.ParseUint(s, 10, 64). */
  function ParseUint(s: string): (r: Option<nat>)
    ensures r.Some? ==> r.value < TWO_64
  {
    if s == "" || !AllDigits(s) then None
    else if DecimalValue(s) < TWO_64 then Some(DecimalValue(s)) else None
  }

  lemma AtoiItoa(n: int)
    requires -MAX_INT - 1 <= n <= MAX_INT
    ensures Atoi(Itoa(n)) == Some(n)
  {
    hide Decimal, DecimalValue;
    if n < 0 {
      DecimalValueOf(-n);
      assert Itoa(n)[1..] == Decimal(-n);
    } else {
      DecimalValueOf(n);
      assert IsDigit(Decimal(n)[0]);
    }
  }

  lemma ParseUintDecimal(n: nat)
    requires n < TWO_64
    ensures ParseUint(Decimal(n)) == Some(n)
  {
    DecimalValueOf(n);
  }

  lemma DigitsAreWord(s: string)
    requires s != "" && AllDigits(s)
    ensures Word(s)
  {}

  lemma ItoaIsWord(n: int)
    ensures Word(Itoa(n)) && '/' !in Itoa(n)
    ensures n >= 0 ==> AllDigits(Itoa(n))
  {
    var d := Decimal(if n < 0 then -n else n);
    assert forall c | c in d :: IsDigit(c);
  }

  // ---- what the pieces say of any text ----

  /** strings.Contains: somewhere in it. */
  lemma {:induction false} ContainsIff(s: string, part: string)
    ensures Contains(s, part) <==> exists i :: 0 <= i <= |s| && part <= s[i..]
  {
    if part <= s {
      assert part <= s[0..];
    } else if s != "" {
      ContainsIff(s[1..], part);
      if i :| 0 <= i <= |s[1..]| && part <= s[1..][i..] { assert s[1..][i..] == s[i + 1..]; }
      if i :| 0 <= i <= |s| && part <= s[i..] {
        assert s[0..] == s;
        assert s[i..] == s[1..][i - 1..];
      }
    }
  }

  lemma {:induction false} SplitBoth(a: string, b: string, c: char)
    ensures Split(a + [c] + b, c) == Split(a, c) + Split(b, c)
    decreases |a|
  {
    hide Split, IndexOf;
    var i := IndexOf(a, c);
    SplitOnce(a, c);
    if i == |a| {
      IndexOfFirst(a, c, b);
    } else {
      var rest := a[i + 1..];
      CutText(a, b, c, i);
      IndexOfFirst(a[..i], c, rest + [c] + b);
      SplitBoth(rest, b, c);
      FourParts([a[..i]], Split(rest, c), Split(b, c));
    }
  }

  lemma CutText(a: string, b: string, c: char, i: nat)
    requires i < |a| && a[i] == c
    ensures a + [c] + b == a[..i] + [c] + (a[i + 1..] + [c] + b)
  {}

  lemma FourParts(x: seq<string>, y: seq<string>, z: seq<string>)
    ensures x + (y + z) == x + y + z
  {}

  lemma {:induction false} SplitOnce(s: string, c: char)
    ensures Split(s, c) == if IndexOf(s, c) == |s| then [s] else [s[..IndexOf(s, c)]] + Split(s[IndexOf(s, c) + 1..], c)
    ensures IndexOf(s, c) == |s| ==> c !in s
  {
    hide IndexOf;
  }

  lemma {:induction false} KeptBoth(a: seq<string>, b: seq<string>)
    ensures Kept(a + b) == Kept(a) + Kept(b)
  {
    if a == [] {
      assert a + b == b;
    } else {
      assert (a + b)[1..] == a[1..] + b;
      KeptBoth(a[1..], b);
    }
  }

  /** Every line feed ends a line, with or without a carriage return. */
  lemma LinesOfBoth(a: string, b: string)
    ensures Lines(a + "\n" + b) == Lines(a) + Lines(b)
  {
    SplitBoth(a, b, '\n');
    KeptBoth(Split(a, '\n'), Split(b, '\n'));
  }

  predicate Blank(c: char) { c == '\r' || c == ' ' || c == '\t' }

  lemma TrimOne(s: string)
    requires s != ""
    ensures TrimRight(s) == if Blank(s[|s| - 1]) then TrimRight(s[..|s| - 1]) else s
  {}

  lemma {:induction false} TrimBlanks(l: string, blanks: string)
    requires (forall i | 0 <= i < |blanks| :: Blank(blanks[i])) && (l != "" ==> !Blank(l[|l| - 1]))
    ensures TrimRight(l + blanks) == l
  {
    hide TrimRight;
    var s, n := l + blanks, |blanks| - 1;
    if n < 0 {
      assert s == l;
      if l != "" { TrimOne(l); } else { TrimNothing(); }
    } else {
      assert s[..|s| - 1] == l + blanks[..n] && s[|s| - 1] == blanks[n];
      TrimOne(s);
      TrimBlanks(l, blanks[..n]);
    }
  }

  lemma TrimNothing()
    ensures TrimRight("") == ""
  {}

  lemma KeptOne(s: string)
    ensures Kept([s]) == if TrimRight(s) == "" then [] else [TrimRight(s)]
  {
    assert [s][1..] == [] && Kept([]) == [];
  }

  /** A line is its text up to trailing carriage returns, spaces and tabs, and is dropped if nothing is left. */
  lemma LineOfText(l: string, blanks: string)
    requires '\n' !in l && (forall i | 0 <= i < |blanks| :: Blank(blanks[i]))
    requires l != "" ==> !Blank(l[|l| - 1])
    ensures Lines(l + blanks) == if l == "" then [] else [l]
  {
    hide TrimRight, Kept, Split;
    var s := l + blanks;
    forall i | 0 <= i < |s| ensures s[i] != '\n' {
      if i < |l| { assert l[i] in l; } else { assert Blank(blanks[i - |l|]); }
    }
    IndexOfAbsent(s, '\n');
    TrimBlanks(l, blanks);
    KeptOne(s);
  }

  /** n without its last k digits. */
  function Shift(n: nat, k: nat): nat { if k == 0 then n else Shift(n / 10, k - 1) }

  /** Decimal writes base ten, highest digit first, without leading zeros. */
  lemma {:induction false} DecimalDigits(n: nat, k: nat)
    requires k < |Decimal(n)|
    ensures var s := Decimal(n); s[|s| - 1 - k] as int - '0' as int == Shift(n, k) % 10
    ensures n >= 10 ==> Decimal(n)[0] != '0'
  {
    DecimalValueOf(n);
    if n >= 10 && k > 0 { DecimalDigits(n / 10, k - 1); }
  }
}
