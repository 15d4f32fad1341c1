/**
 Runs in which an SRTP key that was replaced comes back (forward, internal/b2bua/call.go:408-480): in the keys, when a
 phone answers an offer made before its UPDATEs, and in the SDP, when it refreshes its session after one.
 */
module StaleKeys {
  import opened Basics
  import opened Netip
  import opened SdpCrypto
  import opened SdpParse
  import opened SdpRewrite
  import opened SdpBuild
  import opened CallMachine
  import opened CallText
  import opened CallStory
  import opened CallKeys
  import opened LastSdp
  import opened Reoffers
  import CC = CallCrypto
  import E = Endpoint

  const CALLEE: Leg := 1

  /** A phone's SDP, with a key or without. */
  function PhoneSdp(phone: Addr, key: Option<Crypto>): string { Built(Local(phone, 4000, 0, -1, key, 1, 1, "")) }

  lemma PhoneSays(phone: Addr, key: Option<Crypto>)
    requires key.Some? ==> key.value.WellFormed()
    ensures var r := Parsed(PhoneSdp(phone, key));
            && r.Ok? && r.value.secure == key.Some? && r.value.cryptos == (if key.Some? then [key.value] else [])
            && (r.value.OnHold() <==> phone.IsUnspecified())
  {
    hide Parsed, Built, Formats;
    BuildRoundTrip(Local(phone, 4000, 0, -1, key, 1, 1, ""));
  }

  /** A call whose callee is on SRTP with key k, of the long-tagged suite. */
  ghost predicate OnKey(c: Call, k: Crypto) {
    Connected(c) && CC.Consistent(c.sides.callee) && CC.OfferKey(c.sides.callee) == Some(k) && k.suite == SUITE_80
  }

  /** The callee's UPDATE with a key of its own. */
  function Update(id: nat, phone: Addr, key: Crypto, drawn: seq<Byte>): seq<Event> {
    [Request(id, CALLEE, false, Sdp(PhoneSdp(phone, Some(key)))), Accept(id, None, drawn)]
  }

  /** It leaves the PBX's key alone if the suite is the same, else the drawn one takes its place. */
  lemma Updated(c: Call, id: nat, phone: Addr, key: Crypto, drawn: seq<Byte>)
    requires id !in c.work && id !in c.replied && CC.Consistent(c.sides.callee)
    requires key.WellFormed() && |drawn| == KEY_LEN
    ensures var text := PhoneSdp(phone, Some(key));
            var d := OnAccept(OnRequest(c, id, CALLEE, false, Sdp(text)), id, None, drawn);
            && d.sides.callee.secure && d.sides.callee.ours == Some(CC.AnswerKey(c.sides.callee.ours, key, drawn))
            && CC.Consistent(d.sides.callee) && id in d.work && d.work == c.work[id := d.work[id]]
            && d.replied == c.replied && d.sdpTo == c.sdpTo && d.reinvite == c.reinvite
  {
    hide Parsed, E.Remoted, PhoneSdp, CC.Consistent;
    PhoneSays(phone, Some(key));
    var text := PhoneSdp(phone, Some(key));
    TakenInConsistent(c.sides.callee, text, None, drawn);
    var b := OnRequest(c, id, CALLEE, false, Sdp(text));
    var d := OnAccept(b, id, None, drawn);
    assert d.work == c.work[id := d.work[id]];
  }

  // ---- an answer to an old offer ----

  /** The caller's re-INVITE is with the callee, whose two UPDATEs change the suite and change it back. */
  function Crossing(caller: Addr, phone: Addr, p32: Crypto, p80: Crypto, drawn: seq<Byte>,
      drawn': seq<Byte>): seq<Event> {
    [Request(0, 0, true, Sdp(PhoneSdp(caller, None))), Accept(0, None, drawn), Route(0)]
    + Update(1, phone, p32, drawn) + Update(2, phone, p80, drawn')
  }

  lemma OfferedOld(cfg: Config, c: Call, k: Crypto, caller: Addr, drawn: seq<Byte>)
    requires OnKey(c, k) && !caller.IsUnspecified()
    ensures var text := PhoneSdp(caller, None);
            var d := OnRoute(cfg, OnAccept(OnRequest(c, 0, 0, true, Sdp(text)), 0, None, drawn), 0);
            && d.work.Keys == {0} && d.work[0].Forwarded? && d.work[0].from == 0 && d.work[0].sent.Sdp?
            && d.work[0].offered == Some(k) && d.replied == map[] && d.sides.callee == c.sides.callee
  {
    hide Parsed, E.Remoted, PhoneSdp, Rewritten, OnRequest, OnAccept, OnRoute, CC.Consistent;
    PhoneSays(caller, None);
    var text := PhoneSdp(caller, None);
    Start(c, 0, 0, text, None, drawn);
    var b := OnAccept(OnRequest(c, 0, 0, true, Sdp(text)), 0, None, drawn);
    RewriteFailsWithParse(text, cfg.TargetFor(CALLEE, Some(k)));
    OfferRoutes(cfg, b, 0);
  }

  lemma RunUpdate(cfg: Config, c: Call, es: seq<Event>, id: nat, phone: Addr, key: Crypto, drawn: seq<Byte>)
    ensures Run(cfg, c, es + Update(id, phone, key, drawn)) ==
            OnAccept(OnRequest(Run(cfg, c, es), id, CALLEE, false, Sdp(PhoneSdp(phone, Some(key)))), id, None, drawn)
  {
    hide Run, OnAccept, OnRequest, PhoneSdp;
    var ask, take := Request(id, CALLEE, false, Sdp(PhoneSdp(phone, Some(key)))), Accept(id, None, drawn);
    assert es + Update(id, phone, key, drawn) == es + [ask] + [take];
    RunLast(cfg, c, es, ask);
    RunLast(cfg, c, es + [ask], take);
  }

  /**
   Whatever the phones' keys and addresses, and whatever is drawn: then the callee's answer to the re-INVITE is stale,
   and taking it brings k back, though the callee has since been given another key.
   */
  lemma StaleAnswerReached(cfg: Config, c: Call, k: Crypto, caller: Addr, phone: Addr, p32: Crypto, p80: Crypto,
                           answer: Crypto, drawn: seq<Byte>, drawn': seq<Byte>)
    requires OnKey(c, k) && !caller.IsUnspecified() && p32.WellFormed() && p80.WellFormed() && answer.WellFormed()
    requires p32.suite == SUITE_32 && p80.suite == SUITE_80 && answer.suite == k.suite && answer.tag == k.tag
    requires |drawn| == |drawn'| == KEY_LEN && drawn' != k.key
    ensures var b := Run(cfg, c, Crossing(caller, phone, p32, p80, drawn, drawn'));
            var e := Respond(0, Final(200, Sdp(PhoneSdp(phone, Some(answer)))), None);
            && b.sides.callee.ours == Some(Crypto(p80.tag, SUITE_80, drawn'))
            && StaleAnswer(b, e, CALLEE) && Rekeyed(b.sides.callee, Step(cfg, b, e).sides.callee)
            && Step(cfg, b, e).sides.callee.ours == Some(k)
  {
    hide Run, Parsed, E.Remoted, PhoneSdp, Rewritten, OnRequest, OnAccept, OnRoute, CC.Consistent, Update;
    var text := PhoneSdp(caller, None);
    var first := [Request(0, 0, true, Sdp(text)), Accept(0, None, drawn), Route(0)];
    RunThree(cfg, c, first[0], first[1], first[2]);
    OfferedOld(cfg, c, k, caller, drawn);
    RunUpdate(cfg, c, first, 1, phone, p32, drawn);
    Updated(Run(cfg, c, first), 1, phone, p32, drawn);
    var second := first + Update(1, phone, p32, drawn);
    RunUpdate(cfg, c, second, 2, phone, p80, drawn');
    Updated(Run(cfg, c, second), 2, phone, p80, drawn');
    PhoneSays(phone, Some(answer));
    Answering(answer, k);
  }

  lemma Answering(answer: Crypto, k: Crypto)
    requires answer.suite == k.suite && answer.tag == k.tag
    ensures CC.Answering([answer], k) == Some(answer)
  {}

  // ---- an old key in the SDP ----

  /**
   An UPDATE to another suite changes the callee's key and not the SDP recorded for it: the next session refresh is
   answered with the old key, which the callee's leg no longer uses.
   */
  lemma OldKeyAnswered(cfg: Config, c: Call, k: Crypto, offer: string, answer: string, phone: Addr, p32: Crypto,
                       drawn: seq<Byte>)
    requires cfg.Valid() && OnKey(c, k) && ConnectedWith(cfg, c, offer, answer, Some(k)) && Parsed(c.sdpTo.callee).Ok?
    requires p32.WellFormed() && p32.suite == SUITE_32 && |drawn| == KEY_LEN
    ensures var refresh := [Request(2, CALLEE, true, Empty)] + [Accept(2, None, drawn)];
            var d := Run(cfg, c, Update(1, phone, p32, drawn) + refresh);
            && 2 in d.replied && d.replied[2] == Reply(200, Some(c.sdpTo.callee))
            && Parsed(c.sdpTo.callee).value.cryptos == [k] && d.sides.callee.secure
            && !InUse(d.sides.callee, Parsed(c.sdpTo.callee).value)
  {
    hide Run, Parsed, E.Remoted, PhoneSdp, Rewritten, OnRequest, OnAccept, CC.Consistent, Update, InUse;
    var up, ask, take := Update(1, phone, p32, drawn), Request(2, CALLEE, true, Empty), Accept(2, None, drawn);
    assert [] + up == up && up + ([ask] + [take]) == up + [ask] + [take];
    RunNone(cfg, c);
    RunUpdate(cfg, c, [], 1, phone, p32, drawn);
    Updated(c, 1, phone, p32, drawn);
    RunLast(cfg, c, up, ask);
    RunLast(cfg, c, up + [ask], take);
    var b := Run(cfg, c, up);
    OfferlessGets(cfg, b, 2, CALLEE, None, drawn);
    KeyWellFormed(c, k);
    RewriteFailsWithParse(offer, cfg.TargetFor(CALLEE, Some(k)));
    RewrittenHolds(offer, cfg.TargetFor(CALLEE, Some(k)));
    InUseIff(b.sides.callee, c.sdpTo.callee, Some(k));
  }

  lemma RunNone(cfg: Config, c: Call)
    ensures Run(cfg, c, []) == c
  {}

  lemma KeyWellFormed(c: Call, k: Crypto)
    requires OnKey(c, k)
    ensures k.WellFormed()
  {}
}
