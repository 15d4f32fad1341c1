/**
 How a re-INVITE that is sent on can end (forward, internal/b2bua/call.go:434-490), and what the phones are told
 afterwards: sdpTo of the other phone is replaced before it answers, and stays so however it answers.
 */
module Reoffers {
  import opened Basics
  import opened Text
  import opened Netip
  import opened SdpCrypto
  import opened SdpParse
  import opened SdpRewrite
  import opened AudioChoice
  import opened HoldAnswers
  import opened CallMachine
  import opened CallStory
  import opened CallKeys
  import opened LastSdp
  import opened SdpReads
  import opened KeyOffers
  import opened MediaFollows
  import CC = CallCrypto
  import T = CallText
  import E = Endpoint

  /** A re-INVITE with an offer, that the call is free to take. */
  ghost predicate Free(c: Call, id: nat, from: Leg, text: string, signal: Option<Addr>, drawn: seq<Byte>) {
    && id !in c.work && id !in c.replied && !c.reinvite
    && Parsed(text).Ok? && TakenIn(c.sides.At(from), text, signal, drawn).1.Some?
  }

  /** And that is neither hold nor resume. */
  ghost predicate Forwardable(c: Call, id: nat, from: Leg, text: string, signal: Option<Addr>, drawn: seq<Byte>) {
    Free(c, id, from, text, signal, drawn) && !c.holdBy.At(from) && !Parsed(text).value.OnHold()
  }

  /** It is taken, sent on, answered with res, and the answer passed back. */
  function OfferEvents(id: nat, from: Leg, text: string, signal: Option<Addr>, drawn: seq<Byte>,
      res: Response): seq<Event> {
    [Request(id, from, true, Sdp(text)), Accept(id, signal, drawn), Route(id), Respond(id, res, None), Deliver(id)]
  }

  /** The offer as the other phone was sent it. */
  function Onward(cfg: Config, c: Call, from: Leg, text: string): Result<string, ParseError> {
    var to: Leg := 1 - from;
    Rewritten(text, cfg.TargetFor(to, CC.OfferKey(c.sides.At(to))))
  }

  lemma Start(c: Call, id: nat, from: Leg, text: string, signal: Option<Addr>, drawn: seq<Byte>)
    requires Free(c, id, from, text, signal, drawn)
    ensures var d := OnAccept(OnRequest(c, id, from, true, Sdp(text)), id, signal, drawn);
            var (s, key) := TakenIn(c.sides.At(from), text, signal, drawn);
            d == c.(reinvite := true, sides := c.sides.With(from, s),
                    work := c.work[id := Accepted(from, true, text, Parsed(text).value, key.value)])
  {
    hide Parsed, E.Remoted, CC.AcceptedOffer;
    var b := OnRequest(c, id, from, true, Sdp(text));
    assert b.work[id] == Started(from, true, Sdp(text));
    var d := OnAccept(b, id, signal, drawn);
    assert d.work == c.work[id := d.work[id]];
  }

  lemma Taken(c: Call, id: nat, from: Leg, text: string, signal: Option<Addr>, drawn: seq<Byte>)
    requires Forwardable(c, id, from, text, signal, drawn)
    ensures Free(c, id, from, text, signal, drawn) && id !in c.work && id !in c.replied && !c.reinvite
    ensures Parsed(text).Ok? && TakenIn(c.sides.At(from), text, signal, drawn).1.Some?
    ensures !c.holdBy.At(from) && !Parsed(text).value.OnHold()
  {
    hide Parsed;
  }

  /** The key for the answer to it. */
  function KeyBack(c: Call, from: Leg, text: string, signal: Option<Addr>, drawn: seq<Byte>): Option<Crypto>
    requires Parsed(text).Ok?
  {
    var k := TakenIn(c.sides.At(from), text, signal, drawn).1;
    if k.Some? then k.value else None
  }

  /** After Request, Accept and Route: the offer is with the other phone, and recorded as its SDP. */
  ghost predicate Waiting(cfg: Config, c: Call, d: Call, id: nat, from: Leg, text: string, key: Option<Crypto>) {
    var to: Leg, sent := 1 - from, Onward(cfg, c, from, text);
    && sent.Ok? && id in d.work && d.work[id].Forwarded? && d.work[id].from == from && d.work[id].invite
    && d.work[id].sent == Sdp(sent.value) && d.work[id].answerKey == key && d.work == c.work[id := d.work[id]]
    && d.sdpTo == c.sdpTo.With(to, sent.value) && d.replied == c.replied && d.holdBy == c.holdBy && d.reinvite
  }

  lemma Sends(cfg: Config, c: Call, id: nat, from: Leg, text: string, signal: Option<Addr>, drawn: seq<Byte>)
    requires Forwardable(c, id, from, text, signal, drawn)
    ensures Parsed(text).Ok?
    ensures var d := OnRoute(cfg, OnAccept(OnRequest(c, id, from, true, Sdp(text)), id, signal, drawn), id);
            Waiting(cfg, c, d, id, from, text, KeyBack(c, from, text, signal, drawn))
  {
    hide Parsed, Rewritten, OnRequest, OnAccept, OnRoute, Forwardable, Free, TakenIn, CC.OfferKey;
    var to: Leg := 1 - from;
    Taken(c, id, from, text, signal, drawn);
    Start(c, id, from, text, signal, drawn);
    var b := OnAccept(OnRequest(c, id, from, true, Sdp(text)), id, signal, drawn);
    assert b.sides.At(to) == c.sides.At(to);
    RewriteFailsWithParse(text, cfg.TargetFor(to, CC.OfferKey(c.sides.At(to))));
    OfferRoutes(cfg, b, id);
  }

  /** The answer as the phone that asked is sent it. */
  function Back(cfg: Config, from: Leg, key: Option<Crypto>, text: string): Result<string, ParseError> {
    Rewritten(text, cfg.TargetFor(from, key))
  }

  /** How it ends: the reply, and what is recorded for both phones. */
  ghost predicate Ended(cfg: Config, c: Call, d: Call, id: nat, from: Leg, text: string, key: Option<Crypto>,
                        res: Response)
  {
    var to: Leg, sent := 1 - from, Onward(cfg, c, from, text);
    && sent.Ok? && id in d.replied && d.replied == c.replied[id := d.replied[id]] && d.work == c.work - {id}
    && !d.reinvite && d.holdBy == c.holdBy
    && match res
       case Timeout => d.replied[id] == Reply(408, None) && d.sdpTo == c.sdpTo.With(to, sent.value)
       case Final(code, body) =>
         if !body.Sdp? then d.replied[id] == Reply(code, TextOf(body)) && d.sdpTo == c.sdpTo.With(to, sent.value)
         else
           var back := Back(cfg, from, key, body.text);
           if Parsed(body.text).Err? then d.replied[id] == Reply(488, None) && d.sdpTo == c.sdpTo.With(to, sent.value)
           else
             back.Ok? && d.replied[id] == Reply(code, Some(back.value))
             && d.sdpTo == c.sdpTo.With(to, sent.value).With(from, back.value)
  }

  lemma AnswerEnds(cfg: Config, c: Call, b: Call, id: nat, from: Leg, text: string, key: Option<Crypto>, res: Response)
    requires Waiting(cfg, c, b, id, from, text, key) && id !in c.work
    ensures Ended(cfg, c, OnDeliver(cfg, OnRespond(b, id, res, None), id), id, from, text, key, res)
  {
    hide Parsed, Rewritten, E.Remoted, CC.AcceptedAnswer, Onward;
    if res.Final? && res.body.Sdp? {
      RewriteFailsWithParse(res.body.text, cfg.TargetFor(from, key));
    }
    var d := OnRespond(b, id, res, None);
    assert d.work - {id} == c.work - {id};
  }

  lemma RunFive(cfg: Config, c: Call, a: Event, b: Event, d: Event, e: Event, f: Event)
    ensures Run(cfg, c, [a, b, d, e, f]) == Step(cfg, Step(cfg, Step(cfg, Step(cfg, Step(cfg, c, a), b), d), e), f)
  {
    hide Step, Run;
    assert [a, b, d, e] == [a, b, d] + [e] && [a, b, d, e, f] == [a, b, d, e] + [f];
    RunThree(cfg, c, a, b, d);
    RunLast(cfg, c, [a, b, d], e);
    RunLast(cfg, c, [a, b, d, e], f);
  }

  /** From any state, for any answer: the reply, and the SDP recorded for both phones. */
  lemma OfferEnds(cfg: Config, c: Call, id: nat, from: Leg, text: string, signal: Option<Addr>, drawn: seq<Byte>,
                  res: Response)
    requires Forwardable(c, id, from, text, signal, drawn)
    ensures Parsed(text).Ok?
    ensures var d := Run(cfg, c, OfferEvents(id, from, text, signal, drawn, res));
            Ended(cfg, c, d, id, from, text, KeyBack(c, from, text, signal, drawn), res)
  {
    hide Run, OnRequest, OnAccept, OnRoute, OnRespond, OnDeliver, Ended, Waiting, Parsed, Forwardable, Free;
    Taken(c, id, from, text, signal, drawn);
    Sends(cfg, c, id, from, text, signal, drawn);
    var b := OnRoute(cfg, OnAccept(OnRequest(c, id, from, true, Sdp(text)), id, signal, drawn), id);
    AnswerEnds(cfg, c, b, id, from, text, KeyBack(c, from, text, signal, drawn), res);
    RunFive(cfg, c, Request(id, from, true, Sdp(text)), Accept(id, signal, drawn), Route(id), Respond(id, res, None),
            Deliver(id));
  }

  // ---- the four ways to fail ----

  /** Refused without SDP: the phone that refused still has the refused offer recorded. */
  lemma RefusedOfferStays(cfg: Config, c: Call, id: nat, from: Leg, text: string, signal: Option<Addr>,
                          drawn: seq<Byte>, code: int)
    requires Forwardable(c, id, from, text, signal, drawn)
    ensures var to: Leg := 1 - from;
            var d := Run(cfg, c, OfferEvents(id, from, text, signal, drawn, Final(code, Empty)));
            && Onward(cfg, c, from, text).Ok? && d.sdpTo == c.sdpTo.With(to, Onward(cfg, c, from, text).value)
            && id in d.replied && d.replied[id] == Reply(code, None)
  {
    hide Run, Forwardable, Onward, Parsed;
    OfferEnds(cfg, c, id, from, text, signal, drawn, Final(code, Empty));
  }

  /** Not answered at all: so has a phone that perhaps never saw the offer. */
  lemma LostOfferStays(cfg: Config, c: Call, id: nat, from: Leg, text: string, signal: Option<Addr>, drawn: seq<Byte>)
    requires Forwardable(c, id, from, text, signal, drawn)
    ensures var to: Leg := 1 - from;
            var d := Run(cfg, c, OfferEvents(id, from, text, signal, drawn, Timeout));
            && Onward(cfg, c, from, text).Ok? && d.sdpTo == c.sdpTo.With(to, Onward(cfg, c, from, text).value)
            && id in d.replied && d.replied[id] == Reply(408, None)
  {
    hide Run, Forwardable, Onward, Parsed;
    OfferEnds(cfg, c, id, from, text, signal, drawn, Timeout);
  }

  /** Accepted with SDP that cannot be read: the phone that asked is told 488, the other keeps the offer it took. */
  lemma UnreadAnswerStays(cfg: Config, c: Call, id: nat, from: Leg, text: string, signal: Option<Addr>,
                          drawn: seq<Byte>, code: int, answer: string)
    requires Forwardable(c, id, from, text, signal, drawn) && Parsed(answer).Err?
    ensures var to: Leg := 1 - from;
            var d := Run(cfg, c, OfferEvents(id, from, text, signal, drawn, Final(code, Sdp(answer))));
            && Onward(cfg, c, from, text).Ok? && d.sdpTo == c.sdpTo.With(to, Onward(cfg, c, from, text).value)
            && id in d.replied && d.replied[id] == Reply(488, None)
  {
    hide Run, Forwardable, Onward, Parsed;
    OfferEnds(cfg, c, id, from, text, signal, drawn, Final(code, Sdp(answer)));
  }

  /** Refused with SDP: what is recorded is replaced for both phones, by two SDPs nobody agreed to. */
  lemma RefusalWithSdpStays(cfg: Config, c: Call, id: nat, from: Leg, text: string, signal: Option<Addr>,
                            drawn: seq<Byte>, code: int, answer: string)
    requires Forwardable(c, id, from, text, signal, drawn) && Parsed(answer).Ok?
    ensures Parsed(text).Ok?
    ensures var to: Leg := 1 - from;
            var d := Run(cfg, c, OfferEvents(id, from, text, signal, drawn, Final(code, Sdp(answer))));
            var back := Back(cfg, from, KeyBack(c, from, text, signal, drawn), answer);
            && Onward(cfg, c, from, text).Ok? && back.Ok?
            && d.sdpTo.At(to) == Onward(cfg, c, from, text).value && d.sdpTo.At(from) == back.value
            && id in d.replied && d.replied[id] == Reply(code, Some(back.value))
  {
    hide Run, Forwardable, Onward, Parsed, Back, KeyBack;
    OfferEnds(cfg, c, id, from, text, signal, drawn, Final(code, Sdp(answer)));
  }

  /** So the reply is a 2xx exactly when the answer ends the exchange well. */
  lemma OfferSucceedsIff(cfg: Config, c: Call, id: nat, from: Leg, text: string, signal: Option<Addr>,
                         drawn: seq<Byte>, res: Response)
    requires Forwardable(c, id, from, text, signal, drawn)
    ensures var d := Run(cfg, c, OfferEvents(id, from, text, signal, drawn, res));
            && Onward(cfg, c, from, text).Ok? && id in d.replied
            && d.sdpTo.At(1 - from) == Onward(cfg, c, from, text).value
            && (Success(d.replied[id].code) <==> EndsWell(res))
  {
    hide Run, Forwardable, Onward, Parsed, Back;
    OfferEnds(cfg, c, id, from, text, signal, drawn, res);
  }

  // ---- what comes after ----

  /** An offerless re-INVITE is answered at once with the SDP recorded for that phone. */
  lemma OfferlessGets(cfg: Config, c: Call, id: nat, from: Leg, signal: Option<Addr>, drawn: seq<Byte>)
    requires id !in c.work && id !in c.replied && !c.reinvite
    ensures var d := OnAccept(OnRequest(c, id, from, true, Empty), id, signal, drawn);
            && id in d.replied && d.replied[id] == Reply(200, Some(c.sdpTo.At(from))) && d.sdpTo == c.sdpTo
            && d.sides == c.sides
  {
    hide Parsed, E.Remoted, CC.AcceptedOffer;
  }

  /** However the offer ended, the other phone's next session refresh is answered with it. */
  lemma OfferComesBack(cfg: Config, c: Call, id: nat, from: Leg, text: string, signal: Option<Addr>,
                       drawn: seq<Byte>, res: Response, later: nat)
    requires Forwardable(c, id, from, text, signal, drawn) && later != id && later !in c.work && later !in c.replied
    ensures var to: Leg := 1 - from;
            var offered := OfferEvents(id, from, text, signal, drawn, res);
            var d := Run(cfg, c, offered + [Request(later, to, true, Empty)] + [Accept(later, signal, drawn)]);
            Onward(cfg, c, from, text).Ok? && later in d.replied
            && d.replied[later] == Reply(200, Some(Onward(cfg, c, from, text).value))
  {
    hide Forwardable, Onward, Parsed, OnRequest, OnAccept, Run, Back;
    var to: Leg := 1 - from;
    var offered := OfferEvents(id, from, text, signal, drawn, res);
    var ask, take := Request(later, to, true, Empty), Accept(later, signal, drawn);
    OfferEnds(cfg, c, id, from, text, signal, drawn, res);
    OfferlessGets(cfg, Run(cfg, c, offered), later, to, signal, drawn);
    RunLast(cfg, c, offered, ask);
    RunLast(cfg, c, offered + [ask], take);
  }

  /** A hold taken and routed at once: answered from the recorded SDP if that parses, else with 488. */
  lemma HoldsFrom(cfg: Config, c: Call, id: nat, from: Leg, text: string, signal: Option<Addr>, drawn: seq<Byte>)
    requires Free(c, id, from, text, signal, drawn) && Parsed(text).value.OnHold()
    ensures Parsed(text).Ok?
    ensures var d := OnRoute(cfg, OnAccept(OnRequest(c, id, from, true, Sdp(text)), id, signal, drawn), id);
            var key := KeyBack(c, from, text, signal, drawn);
            var r := HoldAnswer(c.sdpTo.At(from), cfg.TargetFor(from, key), Parsed(text).value);
            && (r.Ok? <==> Parsed(c.sdpTo.At(from)).Ok?)
            && if r.Ok? then
                 d.sdpTo == c.sdpTo.With(from, r.value)
                 && id in d.work && d.work[id] == Holding(from, true, true, r.value)
               else d.sdpTo == c.sdpTo && id in d.replied && d.replied[id] == Reply(488, None)
  {
    hide Parsed, Rewritten, OnRequest, OnAccept, OnRoute, TakenIn;
    Start(c, id, from, text, signal, drawn);
    var b := OnAccept(OnRequest(c, id, from, true, Sdp(text)), id, signal, drawn);
    RewriteFailsWithParse(c.sdpTo.At(from), cfg.TargetFor(from, KeyBack(c, from, text, signal, drawn)));
    HoldRoutes(cfg, b, id);
  }

  lemma OnwardParses(cfg: Config, c: Call, from: Leg, text: string)
    requires cfg.Valid() && CC.Consistent(c.sides.At(1 - from)) && Parsed(text).Ok?
    ensures var sent := Onward(cfg, c, from, text); sent.Ok? && (Parsed(sent.value).Ok? <==> Carries(Lines(text)))
  {
    hide Parsed, Carries, Lines, Rewritten;
    var to: Leg := 1 - from;
    RewriteMeans(text, cfg.TargetFor(to, CC.OfferKey(c.sides.At(to))));
  }

  /**
   However the offer ended, when the other phone then holds it is answered from that offer, and if the offered body
   does not carry, with 488.
   */
  lemma OfferIsHeld(cfg: Config, c: Call, id: nat, from: Leg, text: string, signal: Option<Addr>, drawn: seq<Byte>,
                    res: Response, later: nat, hold: string)
    requires cfg.Valid() && CC.Consistent(c.sides.At(1 - from)) && Forwardable(c, id, from, text, signal, drawn)
    requires var d := Run(cfg, c, OfferEvents(id, from, text, signal, drawn, res));
             Free(d, later, 1 - from, hold, signal, drawn) && Parsed(hold).value.OnHold()
    ensures var to: Leg := 1 - from;
            var offered := OfferEvents(id, from, text, signal, drawn, res);
            var b, sent := Run(cfg, c, offered), Onward(cfg, c, from, text);
            var d := Run(cfg, b, [Request(later, to, true, Sdp(hold)), Accept(later, signal, drawn), Route(later)]);
            sent.Ok?
            && if Carries(Lines(text)) then
                 var key := KeyBack(b, to, hold, signal, drawn);
                 var answer := HoldAnswer(sent.value, cfg.TargetFor(to, key), Parsed(hold).value);
                 answer.Ok? && d.sdpTo.At(to) == answer.value && later in d.work && d.work[later].Holding?
               else later in d.replied && d.replied[later] == Reply(488, None)
  {
    hide Forwardable, Parsed, HoldAnswer, Run, OnRequest, OnAccept, OnRoute, Carries, Lines, CC.Consistent, Onward,
         OfferEvents, Success, EndsWell, Free, KeyBack;
    var to: Leg := 1 - from;
    var b := Run(cfg, c, OfferEvents(id, from, text, signal, drawn, res));
    Taken(c, id, from, text, signal, drawn);
    OfferSucceedsIff(cfg, c, id, from, text, signal, drawn, res);
    OnwardParses(cfg, c, from, text);
    HoldsFrom(cfg, b, later, to, hold, signal, drawn);
    RunThree(cfg, b, Request(later, to, true, Sdp(hold)), Accept(later, signal, drawn), Route(later));
  }

  // ---- what is answered here ----

  /** A body puts the call on hold by its address or by the direction line that counts. */
  ghost predicate SaysHold(text: string) {
    Parsed(text).Ok?
    && (Parsed(text).value.addr == Addr(0, 0, 0, 0)
        || Decisive(Lines(text)) == "a=sendonly" || Decisive(Lines(text)) == "a=inactive")
  }

  /** Answered here: nothing goes to the other phone, and the answer noted is recorded for the one that asked. */
  ghost predicate AnsweredHere(c: Call, d: Call, id: nat, from: Leg, holding: bool) {
    && d.sdpTo.At(1 - from) == c.sdpTo.At(1 - from)
    && if Parsed(c.sdpTo.At(from)).Ok? then
         id in d.work && d.work[id] == Holding(from, true, holding, d.sdpTo.At(from)) && d.replied == c.replied
       else id !in d.work && d.replied == c.replied[id := Reply(488, None)] && d.sdpTo == c.sdpTo
  }

  lemma RoutedHere(cfg: Config, c: Call, id: nat, from: Leg, text: string, signal: Option<Addr>, drawn: seq<Byte>)
    requires Free(c, id, from, text, signal, drawn) && Parsed(text).Ok?
    requires c.holdBy.At(from) || Parsed(text).value.OnHold()
    ensures var d := OnRoute(cfg, OnAccept(OnRequest(c, id, from, true, Sdp(text)), id, signal, drawn), id);
            d.holdBy == c.holdBy && AnsweredHere(c, d, id, from, Parsed(text).value.OnHold())
  {
    hide Parsed, Rewritten, OnRequest, OnAccept, OnRoute, TakenIn;
    Start(c, id, from, text, signal, drawn);
    var b := OnAccept(OnRequest(c, id, from, true, Sdp(text)), id, signal, drawn);
    RewriteFailsWithParse(c.sdpTo.At(from), cfg.TargetFor(from, KeyBack(c, from, text, signal, drawn)));
    HoldRoutes(cfg, b, id);
  }

  /**
   Which re-INVITEs are answered here, by their text and from any state: those whose body says hold, and every one of
   a phone that holds already. All others go to the other phone, and its SDP is replaced by the offer.
   */
  lemma AnsweredHereIff(cfg: Config, c: Call, id: nat, from: Leg, text: string, signal: Option<Addr>,
                        drawn: seq<Byte>)
    requires Free(c, id, from, text, signal, drawn)
    ensures var d := Run(cfg, c, [Request(id, from, true, Sdp(text)), Accept(id, signal, drawn), Route(id)]);
            && d.holdBy == c.holdBy
            && if SaysHold(text) || c.holdBy.At(from) then AnsweredHere(c, d, id, from, SaysHold(text))
               else
                 id in d.work && d.work[id].Forwarded? && d.work[id].from == from && d.replied == c.replied
                 && d.work[id].sent == Sdp(d.sdpTo.At(1 - from)) && d.sdpTo.At(from) == c.sdpTo.At(from)
  {
    hide Parsed, Lines, Decisive, OnRequest, OnAccept, OnRoute, AnsweredHere, TakenIn, Onward;
    OnHoldIff(text);
    RunThree(cfg, c, Request(id, from, true, Sdp(text)), Accept(id, signal, drawn), Route(id));
    if SaysHold(text) || c.holdBy.At(from) {
      RoutedHere(cfg, c, id, from, text, signal, drawn);
    } else {
      Sends(cfg, c, id, from, text, signal, drawn);
    }
  }

  /** One so answered makes its phone hold exactly if its body says hold; the other phone's hold stays. */
  lemma HoldsAsItSays(cfg: Config, c: Call, id: nat, from: Leg, text: string, signal: Option<Addr>, drawn: seq<Byte>)
    requires Free(c, id, from, text, signal, drawn) && (SaysHold(text) || c.holdBy.At(from))
    requires Parsed(c.sdpTo.At(from)).Ok?
    ensures var es := [Request(id, from, true, Sdp(text)), Accept(id, signal, drawn), Route(id)];
            var d := Run(cfg, c, es + [AnswerHold(id)]);
            && d.holdBy == c.holdBy.With(from, SaysHold(text))
            && id in d.work && d.work[id].Relaying? && d.work[id].answer == d.sdpTo.At(from)
            && d.work[id].holder == (if !d.holdBy.caller && !d.holdBy.callee then None
                                     else if SaysHold(text) then Some(from) else Some(1 - from))
            && (d.work[id].holder.Some? ==> d.holdBy.At(d.work[id].holder.value))
  {
    hide Parsed, Run, Free, SaysHold, OnRequest, OnAccept, OnRoute;
    AnsweredHereIff(cfg, c, id, from, text, signal, drawn);
    RunLast(cfg, c, [Request(id, from, true, Sdp(text)), Accept(id, signal, drawn), Route(id)], AnswerHold(id));
  }

  // ---- which keys are passed on ----

  /** The offer sent on has the key the other phone's endpoint encrypts with, and none if that leg is plain. */
  lemma OnwardOffers(cfg: Config, c: Call, from: Leg, text: string)
    requires cfg.Valid() && CC.Consistent(c.sides.At(1 - from)) && Parsed(text).Ok?
    ensures var to: Leg, sent := 1 - from, Onward(cfg, c, from, text);
            var s := c.sides.At(to);
            && sent.Ok? && (Parsed(sent.value).Ok? <==> Carries(Lines(text)))
            && (s.secure ==> s.ours.Some? && s.leg.crypto.Some? && s.leg.crypto.value.outKey.Equal(s.ours.value))
            && OffersKey(sent.value, if s.secure then s.ours else None, cfg.ports.At(to), cfg.ip)
  {
    hide Parsed, Rewritten, Carries, Lines, OffersKey;
    var to: Leg := 1 - from;
    CC.OfferedKeyInUse(c.sides.At(to));
    RewritingOffers(text, cfg.TargetFor(to, CC.OfferKey(c.sides.At(to))));
  }

  /** The answer passed back has the key installed when the offer was taken, if that was for SRTP, and else none. */
  lemma BackOffers(cfg: Config, c: Call, id: nat, from: Leg, text: string, signal: Option<Addr>, drawn: seq<Byte>,
                   answer: string)
    requires cfg.Valid() && Free(c, id, from, text, signal, drawn) && Parsed(answer).Ok?
    requires CC.Consistent(c.sides.At(from)) && |drawn| == KEY_LEN
    ensures Parsed(text).Ok?
    ensures var s := TakenIn(c.sides.At(from), text, signal, drawn).0;
            var key := if Parsed(text).value.secure then s.ours else None;
            var back := Back(cfg, from, KeyBack(c, from, text, signal, drawn), answer);
            && OfferKeys(c.sides.At(from), s, Parsed(text).value, drawn)
            && back.Ok? && OffersKey(back.value, key, cfg.ports.At(from), cfg.ip)
  {
    hide Parsed, Rewritten, OffersKey, OfferKeys, E.Remoted, CC.Consistent, CC.AcceptedOffer;
    var s, i := c.sides.At(from), Parsed(text).value;
    T.ParsedKeysWellFormed(text);
    OfferKeysAre(s, i, signal, drawn);
    MovedConsistent(s, i, signal);
    CC.OfferReply(s.(leg := E.Remoted(s.leg, i, signal)), i, drawn);
    RewritingOffers(answer, cfg.TargetFor(from, KeyBack(c, from, text, signal, drawn)));
  }
}
