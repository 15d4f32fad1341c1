/**
 The SRTP keys of both sides of a connected call (forward, internal/b2bua/call.go, over internal/b2bua/crypto.go) under
 any interleaving of requests.
 */
module CallKeys {
  import opened Basics
  import opened Netip
  import opened SdpCrypto
  import opened SdpParse
  import opened SdpRewrite
  import opened RewriteMeaning
  import opened SdpOurs
  import opened HoldAnswers
  import opened CallMachine
  import opened CallText
  import Text
  import CC = CallCrypto
  import E = Endpoint

  /** The sending side after its SDP was taken in, and its key for the answer. */
  function TakenIn(s: CC.Side, text: string, signal: Option<Addr>, drawn: seq<Byte>): (CC.Side, Option<Option<Crypto>>)
    requires Parsed(text).Ok?
  {
    var info := Parsed(text).value;
    CC.AcceptedOffer(s.(leg := E.Remoted(s.leg, info, signal)), info, drawn)
  }

  // ---- keys, whatever interleaves ----

  ghost predicate BothConsistent(sides: Pair<CC.Side>) {
    CC.Consistent(sides.caller) && CC.Consistent(sides.callee)
  }

  lemma MovedConsistent(s: CC.Side, info: Info, source: Option<Addr>)
    requires CC.Consistent(s)
    ensures CC.Consistent(s.(leg := E.Remoted(s.leg, info, source)))
  {}

  /** An answer to any offer of ours, however old. */
  lemma AnswerConsistent(s: CC.Side, info: Info, offered: Option<Crypto>)
    requires CC.Consistent(s) && (offered.Some? ==> offered.value.WellFormed())
    requires forall n | 0 <= n < |info.cryptos| :: info.cryptos[n].WellFormed()
    ensures CC.Consistent(CC.AcceptedAnswer(s, info, offered).0)
    ensures Rekeyed(s, CC.AcceptedAnswer(s, info, offered).0) <==> StaleFor(s, offered, info)
  {
    if offered.Some? && CC.Answering(info.cryptos, offered.value).Some? {
      CC.AnsweringFits(info.cryptos, offered.value);
    }
  }

  lemma TakenInConsistent(s: CC.Side, text: string, signal: Option<Addr>, drawn: seq<Byte>)
    requires CC.Consistent(s) && Parsed(text).Ok? && |drawn| == KEY_LEN
    ensures var t := TakenIn(s, text, signal, drawn).0;
            && CC.Consistent(t)
            && (s.ours.Some? ==>
                   t.ours.Some?
                   && (t.ours.value.key != s.ours.value.key ==> t.ours.value.suite != s.ours.value.suite))
  {
    hide Parsed, E.Remoted;
    var info := Parsed(text).value;
    ParsedKeysWellFormed(text);
    MovedConsistent(s, info, signal);
    CC.StepConsistent(s.(leg := E.Remoted(s.leg, info, signal)), CC.Offer(info, drawn));
  }

  /** Every key offered to the other phone so far, and every key for an answer, is well formed. */
  lemma OfferedWellFormed(c: Call, m: Made, id: nat)
    requires AllWorkOk(c.work, m, false) && id in c.work && c.work[id].Forwarded?
    ensures c.work[id].offered.Some? ==> c.work[id].offered.value.WellFormed()
  {
    assert WorkOk(c.work[id], m, false);
  }

  /** The PBX's key for a side changed, but not its suite. */
  predicate Rekeyed(s: CC.Side, t: CC.Side) {
    s.ours.Some? && t.ours.Some? && t.ours.value.key != s.ours.value.key && t.ours.value.suite == s.ours.value.suite
  }

  /** An SRTP answer to an offer whose key is no longer the side's, though its suite still is. */
  predicate StaleAnswer(c: Call, e: Event, side: Leg) {
    && e.Respond? && e.id in c.work && c.work[e.id].Forwarded?
    && c.work[e.id].from == 1 - side && c.work[e.id].sent.Sdp?
    && e.res.Final? && e.res.body.Sdp? && Parsed(e.res.body.text).Ok?
    && StaleFor(c.sides.At(side), c.work[e.id].offered, Parsed(e.res.body.text).value)
  }

  predicate StaleFor(s: CC.Side, offered: Option<Crypto>, info: Info) {
    && offered.Some? && s.ours.Some? && info.secure && CC.Answering(info.cryptos, offered.value).Some?
    && offered.value.key != s.ours.value.key && offered.value.suite == s.ours.value.suite
  }

  lemma AcceptKeys(c: Call, id: nat, signal: Option<Addr>, drawn: seq<Byte>)
    requires BothConsistent(c.sides) && |drawn| == KEY_LEN
    ensures var d := OnAccept(c, id, signal, drawn);
            && BothConsistent(d.sides) && !Rekeyed(c.sides.caller, d.sides.caller)
                && !Rekeyed(c.sides.callee, d.sides.callee)
  {
    hide Parsed, E.Remoted, CC.AcceptedOffer, CC.Consistent;
    if id in c.work && c.work[id].Started? && c.work[id].body.Sdp? && Parsed(c.work[id].body.text).Ok? {
      TakenInConsistent(c.sides.At(c.work[id].from), c.work[id].body.text, signal, drawn);
    }
  }

  lemma RespondKeys(c: Call, m: Made, id: nat, res: Response, source: Option<Addr>, side: Leg)
    requires BothConsistent(c.sides) && AllWorkOk(c.work, m, false)
    ensures var d := OnRespond(c, id, res, source);
            && BothConsistent(d.sides)
            && (Rekeyed(c.sides.At(side), d.sides.At(side)) <==> StaleAnswer(c, Respond(id, res, source), side))
  {
    hide Parsed, E.Remoted, CC.AcceptedAnswer, CC.Consistent, AllWorkOk, CC.Answering;
    if id in c.work && c.work[id].Forwarded? && c.work[id].sent.Sdp? && res.Final? && res.body.Sdp?
        && Parsed(res.body.text).Ok? {
      var w := c.work[id];
      var to: Leg := 1 - w.from;
      var info, s := Parsed(res.body.text).value, c.sides.At(to);
      OfferedWellFormed(c, m, id);
      ParsedKeysWellFormed(res.body.text);
      MovedConsistent(s, info, source);
      AnswerConsistent(s.(leg := E.Remoted(s.leg, info, source)), info, w.offered);
    }
  }

  lemma OtherKeys(cfg: Config, c: Call, e: Event)
    requires !e.Accept? && !e.Respond?
    ensures Step(cfg, c, e).sides == c.sides
  {
    hide Parsed, Rewritten, HoldAnswer;
  }

  lemma StepKeys(cfg: Config, c: Call, m: Made, e: Event, side: Leg)
    requires BothConsistent(c.sides) && AllWorkOk(c.work, m, false) && ValidEvent(e, false)
    ensures BothConsistent(Step(cfg, c, e).sides)
    ensures Rekeyed(c.sides.At(side), Step(cfg, c, e).sides.At(side)) <==> StaleAnswer(c, e, side)
  {
    hide BothConsistent, AllWorkOk, OnAccept, OnRespond, StaleFor;
    match e
    case Accept(id, signal, drawn) => AcceptKeys(c, id, signal, drawn);
    case Respond(id, res, source) => RespondKeys(c, m, id, res, source, side);
    case _ => OtherKeys(cfg, c, e);
  }

  /**
   In every state a connected call reaches, with requests of both phones interleaving in any way: each side is secure
   if and only if its leg encrypts, with that side's key outgoing and one suite both ways. And a step gives a side
   another key of the same suite exactly when it takes an answer to an offer whose key has since been replaced.
   */
  lemma {:induction false} MachineKeys(cfg: Config, c: Call, m: Made, offer: string, answer: string,
                                       offered: Option<Crypto>, es: seq<Event>, e: Event, side: Leg)
    requires cfg.Valid() && ConnectedWith(cfg, c, offer, answer, offered)
    requires KeyMade(offered, m.callee) && KeysOk(c.sides, m) && BothConsistent(c.sides)
    requires (forall i | 0 <= i < |es| :: ValidEvent(es[i], false)) && ValidEvent(e, false)
    ensures BothConsistent(Run(cfg, c, es).sides)
    ensures var b := Run(cfg, c, es);
            Rekeyed(b.sides.At(side), Step(cfg, b, e).sides.At(side)) <==> StaleAnswer(b, e, side)
  {
    hide BothConsistent, Step, ConnectedWith, KeysOk, KeyMade, Rekeyed, StaleAnswer;
    if es != [] {
      var init := es[..|es| - 1];
      MachineKeys(cfg, c, m, offer, answer, offered, init, es[|es| - 1], side);
      ConnectOk(cfg, c, m, false, offer, answer, offered);
      RunOk(cfg, c, m, false, init);
      StepKeys(cfg, Run(cfg, c, init), MadeIn(cfg, c, m, init), es[|es| - 1], side);
    }
    ConnectOk(cfg, c, m, false, offer, answer, offered);
    RunOk(cfg, c, m, false, es);
    StepKeys(cfg, Run(cfg, c, es), MadeIn(cfg, c, m, es), e, side);
  }

  /** The SDP sent carries exactly the key its side's leg encrypts with, if it does. */
  predicate KeyCarried(s: CC.Side, sent: Result<Info, ParseError>, secure: bool) {
    && sent.Ok? && s.secure == secure == s.leg.crypto.Some? && (secure ==> s.ours.Some?)
    && sent.value.cryptos == (if secure then [s.ours.value] else [])
    && (secure ==> s.leg.crypto.value.outKey.Equal(s.ours.value))
  }

  /**
   The answer to hold or resume carries the key in use: exactly the side's own, which its leg now encrypts with, when
   the phone's offer is SRTP, and none otherwise.
   */
  lemma HoldCarriesKey(cfg: Config, c: Call, m: Made, id: nat, w: Work, signal: Option<Addr>, drawn: seq<Byte>)
    requires cfg.Valid() && CallOk(cfg, c, m, false) && BothConsistent(c.sides) && |drawn| == KEY_LEN
    requires id in c.work && c.work[id] == w && w.Started? && w.invite && w.body.Sdp? && Parsed(w.body.text).Ok?
    requires Parsed(w.body.text).value.OnHold() || c.holdBy.At(w.from)
    requires TakenIn(c.sides.At(w.from), w.body.text, signal, drawn).1.Some? && Parsed(c.sdpTo.At(w.from)).Ok?
    ensures var d := OnRoute(cfg, OnAccept(c, id, signal, drawn), id);
            KeyCarried(d.sides.At(w.from), Parsed(d.sdpTo.At(w.from)), Parsed(w.body.text).value.secure)
  {
    hide Parsed, E.Remoted, HoldAnswer, CallOk, OursWith, PortWord, Answers, CC.AcceptedOffer, CC.Consistent;
    var text := w.body.text;
    var (s, key) := TakenIn(c.sides.At(w.from), text, signal, drawn);
    AcceptedWork(c, id, w, signal, drawn);
    KeyInUse(c.sides.At(w.from), text, signal, drawn);
    var b := OnAccept(c, id, signal, drawn);
    HoldAnswerKeys(cfg, c, m, w.from, key.value, Parsed(text).value);
  }

  lemma AcceptedWork(c: Call, id: nat, w: Work, signal: Option<Addr>, drawn: seq<Byte>)
    requires id in c.work && c.work[id] == w && w.Started? && w.body.Sdp? && Parsed(w.body.text).Ok?
    requires TakenIn(c.sides.At(w.from), w.body.text, signal, drawn).1.Some?
    ensures var (s, key) := TakenIn(c.sides.At(w.from), w.body.text, signal, drawn);
            OnAccept(c, id, signal, drawn) ==
            c.(sides := c.sides.With(w.from, s),
               work := c.work[id := Accepted(w.from, w.invite, w.body.text, Parsed(w.body.text).value, key.value)])
  {
    hide Parsed, E.Remoted, CC.AcceptedOffer;
  }

  lemma KeyInUse(s: CC.Side, text: string, signal: Option<Addr>, drawn: seq<Byte>)
    requires CC.Consistent(s) && |drawn| == KEY_LEN && Parsed(text).Ok? && TakenIn(s, text, signal, drawn).1.Some?
    ensures var (t, key) := TakenIn(s, text, signal, drawn);
            && t.secure == Parsed(text).value.secure == t.leg.crypto.Some? == key.value.Some?
            && (t.secure ==>
                   t.ours == key.value && key.value.value.WellFormed()
                   && t.leg.crypto.value.outKey.Equal(t.ours.value))
  {
    hide Parsed, E.Remoted;
    var info := Parsed(text).value;
    ParsedKeysWellFormed(text);
    MovedConsistent(s, info, signal);
    CC.StepConsistent(s.(leg := E.Remoted(s.leg, info, signal)), CC.Offer(info, drawn));
    CC.OfferReply(s.(leg := E.Remoted(s.leg, info, signal)), info, drawn);
  }

  lemma HoldAnswerKeys(cfg: Config, c: Call, m: Made, side: Leg, key: Option<Crypto>, offer: Info)
    requires cfg.Valid() && CallOk(cfg, c, m, false) && (key.Some? ==> key.value.WellFormed())
    requires Parsed(c.sdpTo.At(side)).Ok?
    ensures var r := HoldAnswer(c.sdpTo.At(side), cfg.TargetFor(side, key), offer);
            r.Ok? && Parsed(r.value).Ok? && Parsed(r.value).value.cryptos == (if key.Some? then [key.value] else [])
  {
    hide Parsed, OurLines, PortWord;
    var prev := c.sdpTo.At(side);
    assert TextOk(cfg, prev, side, m.At(side), false);
    var k :| OursWith(cfg, prev, side, k, m.At(side));
    OursArePlain(Text.Lines(prev), cfg.TargetFor(side, k));
    OneHoldAnswer(prev, cfg.TargetFor(side, key), offer);
  }
}
