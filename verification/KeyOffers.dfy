/**
 What the SDP the PBX sends offers (Rewrite, internal/sdp/sdp.go:168-233, with the targets of internal/b2bua/call.go):
 one key or none, whatever keys the phone's own body had.
 */
module KeyOffers {
  import opened Basics
  import opened Netip
  import opened SdpCrypto
  import opened SdpParse
  import opened SdpRewrite
  import opened Text
  import opened AudioChoice
  import opened PassThrough

  /**
   What SDP sent to a phone offers: SRTP with a key, or plain RTP, and then no key line is in it; and the media comes to
   the PBX, unless the stream is closed or on hold.
   */
  ghost predicate OffersKey(sdp: string, key: Option<Crypto>, port: int, ip: Addr) {
    && (forall line | line in Lines(sdp) && "a=crypto:" <= line :: key.Some? && line == KeyText(key.value))
    && (Parsed(sdp).Ok? ==>
          var i := Parsed(sdp).value;
          i.secure == key.Some? && i.cryptos == (if key.Some? then [key.value] else [])
          && (i.port == 0 || i.port == port) && (i.addr == ip || i.addr == Addr(0, 0, 0, 0)))
  }

  lemma {:induction false} SelectHas(ls: seq<string>, keep: string -> bool, line: string)
    requires line in ls && keep(line)
    ensures line in Select(ls, keep)
  {
    if ls[0] != line { SelectHas(ls[1..], keep, line); }
  }

  lemma {:induction false} CopiesAre(l: string, n: nat, x: string)
    requires x in Copies(l, n)
    ensures x == l
  {
    if n > 0 && x != l { CopiesAre(l, n - 1, x); }
  }

  lemma RtcpIsNoKey(t: Target)
    ensures !("a=crypto:" <= RtcpText(t))
  {
    assert RtcpText(t)[2] == 'r';
  }

  lemma KeyLinesOnly(body: string, t: Target)
    requires t.Valid() && Parsed(body).Ok? && Rewritten(body, t).Ok?
    ensures forall line | line in Lines(Rewritten(body, t).value) && "a=crypto:" <= line ::
              t.key.Some? && line == KeyText(t.key.value)
  {
    hide Parsed, Lines, Rewritten, KeyText;
    RewriteRenews(body, t);
    var sdp := Rewritten(body, t).value;
    forall line | line in Lines(sdp) && "a=crypto:" <= line ensures t.key.Some? && line == KeyText(t.key.value) {
      SelectHas(Lines(sdp), Renewed, line);
      var given := |Select(StreamLines(Lines(body)), GivesRtcp)|;
      if line in Copies(RtcpText(t), given) {
        CopiesAre(RtcpText(t), given, line);
        RtcpIsNoKey(t);
        assert false;
      }
    }
  }

  /** The rewriting of any body for a key or none. */
  lemma RewritingOffers(body: string, t: Target)
    requires t.Valid() && Parsed(body).Ok?
    ensures Rewritten(body, t).Ok?
    ensures OffersKey(Rewritten(body, t).value, t.key, t.port, t.ip)
    ensures Parsed(Rewritten(body, t).value).Ok? <==> Carries(Lines(body))
  {
    hide Parsed, Lines, Carries, Rewritten;
    RewriteMeans(body, t);
    RewriteRenews(body, t);
    KeyLinesOnly(body, t);
  }
}
