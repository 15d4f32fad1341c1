/**
 Where media goes and with which keys after each SDP of a connected call (forward, internal/b2bua/call.go:350-495):
 every step either takes in one phone's SDP, for that phone's endpoint alone, or leaves both endpoints as they are.
 */
module MediaFollows {
  import opened Basics
  import opened Netip
  import opened SdpParse
  import opened CallMachine
  import opened CallText
  import opened CallKeys
  import CC = CallCrypto
  import E = Endpoint

  /** SDP taken in: whose it is, and the address it came from when that is known. */
  datatype Taking = Nothing | From(side: Leg, text: string, source: Option<Addr>)

  /** An offer being accepted, or the SDP answering one that was sent on. */
  function TakenBy(b: Call, e: Event): Taking {
    match e
    case Accept(id, signal, _) =>
      if id in b.work && b.work[id].Started? && b.work[id].body.Sdp?
      then From(b.work[id].from, b.work[id].body.text, signal) else Nothing
    case Respond(id, res, source) =>
      if id in b.work && b.work[id].Forwarded? && b.work[id].sent.Sdp? && res.Final? && res.body.Sdp?
      then From(1 - b.work[id].from, res.body.text, source) else Nothing
    case _ => Nothing
  }

  /**
   From any state, and so in every interleaving: a phone's SDP that can be read moves that phone's endpoint, answer or
   offer, whatever else is wrong with it; and nothing else moves an endpoint.
   */
  lemma {:induction false} StepAims(cfg: Config, b: Call, e: Event)
    ensures var d, t := Step(cfg, b, e), TakenBy(b, e);
            if t.From? && Parsed(t.text).Ok? then
              var other: Leg := 1 - t.side;
              E.Aimed(b.sides.At(t.side).leg, d.sides.At(t.side).leg, Parsed(t.text).value, t.source)
              && d.sides.At(other) == b.sides.At(other)
            else d.sides == b.sides
  {
    hide Parsed, E.Remoted, E.Keyed, E.Aimed, CC.AcceptedOffer, CC.AcceptedAnswer, SdpRewrite.Rewritten,
         HoldAnswers.HoldAnswer;
    var t := TakenBy(b, e);
    if t.From? && Parsed(t.text).Ok? {
      var s, i := b.sides.At(t.side), Parsed(t.text).value;
      if e.Accept? {
        OfferAims(s, i, t.source, e.drawn);
      } else {
        AnswerAims(s, i, t.source, b.work[e.id].offered);
      }
    }
  }

  lemma OfferAims(s: CC.Side, i: Info, source: Option<Addr>, drawn: seq<Byte>)
    ensures E.Aimed(s.leg, CC.AcceptedOffer(s.(leg := E.Remoted(s.leg, i, source)), i, drawn).0.leg, i, source)
  {
    hide E.Remoted, E.Keyed, E.Aimed;
    E.RemotedAims(s.leg, i, source, None, None);
    if i.cryptos != [] {
      E.RemotedAims(s.leg, i, source, Some(i.cryptos[0]), Some(CC.AnswerKey(s.ours, i.cryptos[0], drawn)));
    }
  }

  lemma AnswerAims(s: CC.Side, i: Info, source: Option<Addr>, offered: Option<SdpCrypto.Crypto>)
    ensures E.Aimed(s.leg, CC.AcceptedAnswer(s.(leg := E.Remoted(s.leg, i, source)), i, offered).0.leg, i, source)
  {
    hide E.Remoted, E.Keyed, E.Aimed, CC.Answering;
    E.RemotedAims(s.leg, i, source, None, None);
    if offered.Some? { E.RemotedAims(s.leg, i, source, CC.Answering(i.cryptos, offered.value), offered); }
  }

  /** The keys installed for one phone after its offer: none for a plain one, else its first and the PBX's for it. */
  ghost predicate OfferKeys(s: CC.Side, t: CC.Side, i: Info, drawn: seq<Byte>) {
    if !i.secure then !t.secure && t.leg.crypto.None? && t.ours == s.ours
    else if i.cryptos == [] then t.secure == s.secure && t.ours == s.ours && t.leg.crypto == s.leg.crypto
    else
      && t.secure && t.ours.Some? && t.leg.crypto.Some?
      && t.leg.crypto.value.inKey.Equal(i.cryptos[0]) && t.leg.crypto.value.outKey.Equal(t.ours.value)
      && t.ours.value.tag == i.cryptos[0].tag && t.ours.value.suite == i.cryptos[0].suite
      && t.ours.value.key ==
         if s.ours.Some? && s.ours.value.suite == i.cryptos[0].suite then s.ours.value.key else drawn
  }

  /** And after its answer to an offer of ours. */
  ghost predicate AnswerKeys(s: CC.Side, t: CC.Side, i: Info, offered: Option<SdpCrypto.Crypto>) {
    if offered.None? || !i.secure then !t.secure && t.leg.crypto.None? && t.ours == s.ours
    else
      && ((forall n: nat :: !CC.AnswersAt(i.cryptos, offered.value, n)) ==>
            t.secure == s.secure && t.ours == s.ours && t.leg.crypto == s.leg.crypto)
      && forall n: nat | CC.AnswersAt(i.cryptos, offered.value, n) ::
           t.secure && t.ours == offered && t.leg.crypto.Some?
           && t.leg.crypto.value.inKey.Equal(i.cryptos[n]) && t.leg.crypto.value.outKey.Equal(offered.value)
  }

  lemma OfferKeysAre(s: CC.Side, i: Info, source: Option<Addr>, drawn: seq<Byte>)
    requires CC.Consistent(s) && |drawn| == SdpCrypto.KEY_LEN
    requires forall n | 0 <= n < |i.cryptos| :: i.cryptos[n].WellFormed()
    ensures OfferKeys(s, CC.AcceptedOffer(s.(leg := E.Remoted(s.leg, i, source)), i, drawn).0, i, drawn)
  {
    hide E.Remoted;
    MovedConsistent(s, i, source);
    KeysUnmoved(s.leg, i, source);
    CC.OfferReply(s.(leg := E.Remoted(s.leg, i, source)), i, drawn);
  }

  lemma KeysUnmoved(s: E.State, i: Info, source: Option<Addr>)
    ensures E.Remoted(s, i, source).crypto == s.crypto
  {}

  lemma AnswerKeysAre(s: CC.Side, i: Info, source: Option<Addr>, offered: Option<SdpCrypto.Crypto>)
    requires CC.Consistent(s) && (offered.Some? ==> offered.value.WellFormed())
    requires forall n | 0 <= n < |i.cryptos| :: i.cryptos[n].WellFormed()
    ensures AnswerKeys(s, CC.AcceptedAnswer(s.(leg := E.Remoted(s.leg, i, source)), i, offered).0, i, offered)
  {
    hide CC.AcceptedAnswer, CC.AnswersAt, E.Remoted;
    KeysUnmoved(s.leg, i, source);
    CC.AnswerTaken(s.(leg := E.Remoted(s.leg, i, source)), i, offered);
  }

  /** An offer that cannot be used is refused with 488 and moves no keys; any other waits to be routed. */
  lemma {:induction false} OfferUsed(c: Call, id: nat, signal: Option<Addr>, drawn: seq<Byte>)
    requires id in c.work && c.work[id].Started? && c.work[id].body.Sdp?
    requires CC.Consistent(c.sides.At(c.work[id].from)) && |drawn| == SdpCrypto.KEY_LEN
    ensures var d, w := OnAccept(c, id, signal, drawn), c.work[id];
            var p := Parsed(w.body.text);
            && d.holdBy == c.holdBy && d.sdpTo == c.sdpTo && d.blocked == c.blocked && d.playing == c.playing
            && (p.Ok? ==> OfferKeys(c.sides.At(w.from), d.sides.At(w.from), p.value, drawn))
            && if p.Err? || (p.value.secure && p.value.cryptos == []) then
                 d.work == c.work - {id} && d.replied == c.replied[id := Reply(488, None)]
                 && d.reinvite == (c.reinvite && !w.invite)
               else
                 d.replied == c.replied && d.reinvite == c.reinvite && id in d.work
                 && d.work == c.work[id := d.work[id]] && d.work[id].Accepted? && d.work[id].from == w.from
                 && d.work[id].invite == w.invite && d.work[id].text == w.body.text && d.work[id].info == p.value
                 && (d.work[id].answerKey.Some? <==> p.value.secure)
                 && (p.value.secure ==> d.work[id].answerKey == d.sides.At(w.from).ours)
  {
    hide Parsed, E.Remoted, OfferKeys, CC.AcceptedOffer, CC.Consistent;
    var w := c.work[id];
    if Parsed(w.body.text).Ok? {
      var s, i := c.sides.At(w.from), Parsed(w.body.text).value;
      ParsedKeysWellFormed(w.body.text);
      OfferKeysAre(s, i, signal, drawn);
      MovedConsistent(s, i, signal);
      CC.OfferReply(s.(leg := E.Remoted(s.leg, i, signal)), i, drawn);
    }
  }

  /** The answer to an offer of ours installs that phone's keys, whatever its code, and goes on to be passed back. */
  lemma {:induction false} AnswerUsed(c: Call, id: nat, code: int, text: string, source: Option<Addr>)
    requires id in c.work && c.work[id].Forwarded? && c.work[id].sent.Sdp? && Parsed(text).Ok?
    requires CC.Consistent(c.sides.At(1 - c.work[id].from))
    requires c.work[id].offered.Some? ==> c.work[id].offered.value.WellFormed()
    ensures var d, w := OnRespond(c, id, Final(code, Sdp(text)), source), c.work[id];
            var to: Leg := 1 - w.from;
            && AnswerKeys(c.sides.At(to), d.sides.At(to), Parsed(text).value, w.offered)
            && d == c.(sides := d.sides, work := c.work[id := Answered(w.from, w.invite, code, text, w.answerKey)])
  {
    hide Parsed, E.Remoted, AnswerKeys, CC.AcceptedAnswer, CC.Consistent;
    var w := c.work[id];
    var to: Leg := 1 - w.from;
    ParsedKeysWellFormed(text);
    AnswerKeysAre(c.sides.At(to), Parsed(text).value, source, w.offered);
    var d := OnRespond(c, id, Final(code, Sdp(text)), source);
    assert d.work == c.work[id := Answered(w.from, w.invite, code, text, w.answerKey)];
  }
}
