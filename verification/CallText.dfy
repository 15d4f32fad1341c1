/**
 The SDP recorded for each phone of a connected call (sdpTo, internal/b2bua/call.go): in every reachable state it is
 the PBX's own, with that side's port and a key made for that side. What is sent without being recorded is CallStory's.
 */
module CallText {
  import opened Basics
  import opened Text
  import opened Netip
  import opened SdpCrypto
  import opened SdpParse
  import opened SdpMeaning
  import opened SdpRewrite
  import opened RewriteTwice
  import opened RewriteMeaning
  import opened AudioChoice
  import opened SdpVersion
  import opened SdpOurs
  import opened HoldAnswers
  import opened CallMachine
  import CC = CallCrypto
  import E = Endpoint

  /** The keys made for each side so far, as key bytes: a tag may change, the key may not. */
  type Made = Pair<set<seq<Byte>>>

  function MadeBy(c: Call, m: Made, e: Event): Made {
    if e.Accept? && e.id in c.work && c.work[e.id].Started? then
      var from := c.work[e.id].from; m.With(from, m.At(from) + {e.drawn})
    else m
  }

  function MadeIn(cfg: Config, c: Call, m: Made, es: seq<Event>): Made {
    if es == [] then m
    else MadeBy(Run(cfg, c, es[..|es| - 1]), MadeIn(cfg, c, m, es[..|es| - 1]), es[|es| - 1])
  }

  ghost predicate KeyMade(k: Option<Crypto>, made: set<seq<Byte>>) {
    k.Some? ==> k.value.WellFormed() && k.value.key in made
  }

  ghost predicate OursWith(cfg: Config, text: string, side: Leg, key: Option<Crypto>, made: set<seq<Byte>>) {
    KeyMade(key, made) && OurLines(Lines(text), cfg.TargetFor(side, key))
  }

  /** A body that still parses once it is rewritten, if it parses at all. */
  predicate Carried(text: string) { Parsed(text).Ok? ==> Carries(Lines(text)) }

  /** plain: whatever bodies the phones sent, they carry. Then the text also parses. */
  ghost predicate TextOk(cfg: Config, text: string, side: Leg, made: set<seq<Byte>>, plain: bool) {
    && (exists key :: OursWith(cfg, text, side, key, made))
    && (plain ==> Parsed(text).Ok?)
  }

  ghost predicate WorkOk(w: Work, m: Made, plain: bool) {
    var other: Leg := 1 - w.from;
    match w
    case Started(_, _, body) => plain && body.Sdp? ==> Carried(body.text)
    case Accepted(from, _, text, info, answerKey) =>
      KeyMade(answerKey, m.At(from)) && Parsed(text) == Ok(info) && (plain ==> Carried(text))
    case Forwarded(from, _, _, answerKey, offered) => KeyMade(answerKey, m.At(from)) && KeyMade(offered, m.At(other))
    case Answered(from, _, _, text, answerKey) => KeyMade(answerKey, m.At(from)) && (plain ==> Carried(text))
    case _ => true
  }

  ghost predicate TextsOk(cfg: Config, sdpTo: Pair<string>, m: Made, plain: bool) {
    TextOk(cfg, sdpTo.caller, 0, m.caller, plain) && TextOk(cfg, sdpTo.callee, 1, m.callee, plain)
  }

  ghost predicate KeysOk(sides: Pair<CC.Side>, m: Made) {
    KeyMade(sides.caller.ours, m.caller) && KeyMade(sides.callee.ours, m.callee)
  }

  ghost predicate AllWorkOk(work: map<nat, Work>, m: Made, plain: bool) {
    forall i | i in work :: WorkOk(work[i], m, plain)
  }

  ghost predicate CallOk(cfg: Config, c: Call, m: Made, plain: bool) {
    TextsOk(cfg, c.sdpTo, m, plain) && KeysOk(c.sides, m) && AllWorkOk(c.work, m, plain)
  }

  /** Random keys have the right length; plain speaks about every body a phone sends. */
  ghost predicate ValidEvent(e: Event, plain: bool) {
    match e
    case Accept(_, _, drawn) => |drawn| == KEY_LEN
    case Request(_, _, _, body) => plain && body.Sdp? ==> Carried(body.text)
    case Respond(_, res, _) => plain && res.Final? && res.body.Sdp? ==> Carried(res.body.text)
    case _ => true
  }

  ghost predicate More(m: Made, n: Made) { m.caller <= n.caller && m.callee <= n.callee }

  // ---- what each kind of text is ----

  lemma {:induction false} SectionKeysWellFormed(sec: seq<string>)
    ensures forall i | 0 <= i < |Keys(sec)| :: Keys(sec)[i].WellFormed()
  {
    if sec != [] {
      SectionKeysWellFormed(sec[..|sec| - 1]);
    }
  }

  lemma ParsedKeysWellFormed(text: string)
    requires Parsed(text).Ok?
    ensures var cs := Parsed(text).value.cryptos; forall i | 0 <= i < |cs| :: cs[i].WellFormed()
  {
    ParsedMeaning(Lines(text));
    SectionKeysWellFormed(Section(Lines(text)));
  }

  /** A rewritten body, for the side it goes to: it parses if and only if the body carries. */
  lemma RewrittenOk(cfg: Config, text: string, side: Leg, key: Option<Crypto>, made: set<seq<Byte>>, plain: bool)
    requires cfg.Valid() && KeyMade(key, made) && Parsed(text).Ok? && (plain ==> Carried(text))
    ensures var r := Rewritten(text, cfg.TargetFor(side, key));
            r.Ok? && TextOk(cfg, r.value, side, made, plain) && (Parsed(r.value).Ok? <==> Carries(Lines(text)))
  {
    hide Parsed, Carries, MovedLines, Repaired, OurLines;
    var t := cfg.TargetFor(side, key);
    LinesAreLines(text);
    LinesOfRewritten(text, t);
    MovedOurs(OUTSIDE, Lines(text), t);
    assert OursWith(cfg, Rewritten(text, t).value, side, key, made);
    RewriteMeans(text, t);
  }

  /**
   An answer to hold or resume: it can be made if and only if the SDP the phone has parses, and then it parses too and
   is the PBX's own.
   */
  lemma HoldAnswerOk(cfg: Config, prev: string, side: Leg, key: Option<Crypto>, made: set<seq<Byte>>, plain: bool,
      offer: Info)
    requires cfg.Valid() && KeyMade(key, made) && TextOk(cfg, prev, side, made, plain)
    ensures var r := HoldAnswer(prev, cfg.TargetFor(side, key), offer);
            && (r.Ok? <==> Parsed(prev).Ok?)
            && (r.Ok? ==> TextOk(cfg, r.value, side, made, plain) && Parsed(r.value).Ok?)
  {
    hide Parsed, OurLines, Answers, AdvanceAll, Sessions;
    var t := cfg.TargetFor(side, key);
    RewriteFailsWithParse(prev, t);
    if Parsed(prev).Ok? {
      var k :| OursWith(cfg, prev, side, k, made);
      OursArePlain(Lines(prev), cfg.TargetFor(side, k));
      OneHoldAnswer(prev, t, offer);
      assert OursWith(cfg, HoldAnswer(prev, t, offer).value, side, key, made);
    }
  }

  // ---- one step ----

  lemma MoreOk(cfg: Config, text: string, side: Leg, made: set<seq<Byte>>, more: set<seq<Byte>>, plain: bool)
    requires made <= more && TextOk(cfg, text, side, made, plain)
    ensures TextOk(cfg, text, side, more, plain)
  {
    var key :| OursWith(cfg, text, side, key, made);
    assert OursWith(cfg, text, side, key, more);
  }

  lemma MoreTextsOk(cfg: Config, sdpTo: Pair<string>, m: Made, n: Made, plain: bool)
    requires TextsOk(cfg, sdpTo, m, plain) && More(m, n)
    ensures TextsOk(cfg, sdpTo, n, plain)
  {
    MoreOk(cfg, sdpTo.caller, 0, m.caller, n.caller, plain);
    MoreOk(cfg, sdpTo.callee, 1, m.callee, n.callee, plain);
  }

  lemma MoreWorkOk(work: map<nat, Work>, m: Made, n: Made, plain: bool)
    requires AllWorkOk(work, m, plain) && More(m, n)
    ensures AllWorkOk(work, n, plain)
  {
    forall i | i in work ensures WorkOk(work[i], n, plain) { assert WorkOk(work[i], m, plain); }
  }

  lemma SentOk(cfg: Config, sdpTo: Pair<string>, side: Leg, text: string, m: Made, plain: bool)
    requires TextsOk(cfg, sdpTo, m, plain) && TextOk(cfg, text, side, m.At(side), plain)
    ensures TextsOk(cfg, sdpTo.With(side, text), m, plain)
  {}

  lemma PutOk(work: map<nat, Work>, m: Made, plain: bool, id: nat, w: Work)
    requires AllWorkOk(work, m, plain) && WorkOk(w, m, plain)
    ensures AllWorkOk(work[id := w], m, plain)
  {}

  lemma ReplyOk(work: map<nat, Work>, m: Made, plain: bool, id: nat)
    requires AllWorkOk(work, m, plain)
    ensures AllWorkOk(work - {id}, m, plain)
  {}

  /** The keys after an accepted offer: the side's key and the answer's key are made for it. */
  lemma OfferKeysOk(s: CC.Side, text: string, signal: Option<Addr>, drawn: seq<Byte>, made: set<seq<Byte>>)
    requires Parsed(text).Ok? && KeyMade(s.ours, made) && |drawn| == KEY_LEN && drawn in made
    ensures var info := Parsed(text).value;
            var (s', r) := CC.AcceptedOffer(s.(leg := E.Remoted(s.leg, info, signal)), info, drawn);
            KeyMade(s'.ours, made) && (r.Some? ==> KeyMade(r.value, made))
  {
    ParsedKeysWellFormed(text);
  }

  lemma AcceptOk(cfg: Config, c: Call, m: Made, plain: bool, id: nat, signal: Option<Addr>, drawn: seq<Byte>)
    requires AllWorkOk(c.work, m, plain) && KeysOk(c.sides, m) && |drawn| == KEY_LEN
    requires id in c.work && c.work[id].Started? ==> drawn in m.At(c.work[id].from)
    ensures var d := OnAccept(c, id, signal, drawn);
            AllWorkOk(d.work, m, plain) && KeysOk(d.sides, m) && d.sdpTo == c.sdpTo
  {
    hide Parsed, E.Remoted, AudioPlain, Carried, KeyMade, KindOf;
    if id in c.work && c.work[id].Started? {
      var w := c.work[id];
      ReplyOk(c.work, m, plain, id);
      assert WorkOk(w, m, plain);
      if w.body.Sdp? && Parsed(w.body.text).Ok? {
        OfferKeysOk(c.sides.At(w.from), w.body.text, signal, drawn, m.At(w.from));
      }
      var d := OnAccept(c, id, signal, drawn);
      if id in d.work {
        PutOk(c.work, m, plain, id, d.work[id]);
      }
    }
  }

  lemma RouteHoldOk(cfg: Config, c: Call, m: Made, plain: bool, id: nat)
    requires cfg.Valid() && CallOk(cfg, c, m, plain) && id in c.work && c.work[id].Accepted?
    requires c.work[id].invite && (c.work[id].info.OnHold() || c.holdBy.At(c.work[id].from))
    ensures CallOk(cfg, OnRoute(cfg, c, id), m, plain)
  {
    hide TextOk, HoldAnswer, Parsed;
    var w := c.work[id];
    var prev := c.sdpTo.At(w.from);
    assert WorkOk(w, m, plain);
    assert TextOk(cfg, prev, w.from, m.At(w.from), plain);
    HoldAnswerOk(cfg, prev, w.from, w.answerKey, m.At(w.from), plain, w.info);
    var r := HoldAnswer(prev, cfg.TargetFor(w.from, w.answerKey), w.info);
    ReplyOk(c.work, m, plain, id);
    if r.Ok? {
      SentOk(cfg, c.sdpTo, w.from, r.value, m, plain);
      PutOk(c.work, m, plain, id, Holding(w.from, true, w.info.OnHold(), r.value));
    }
  }

  lemma RouteOnOk(cfg: Config, c: Call, m: Made, plain: bool, id: nat)
    requires cfg.Valid() && CallOk(cfg, c, m, plain) && id in c.work && c.work[id].Accepted?
    requires !(c.work[id].invite && (c.work[id].info.OnHold() || c.holdBy.At(c.work[id].from)))
    ensures CallOk(cfg, OnRoute(cfg, c, id), m, plain)
  {
    var w := c.work[id];
    var to: Leg := 1 - w.from;
    var offered := CC.OfferKey(c.sides.At(to));
    assert WorkOk(w, m, plain);
    RewrittenOk(cfg, w.text, to, offered, m.At(to), plain);
    var body := Rewritten(w.text, cfg.TargetFor(to, offered)).value;
    SentOk(cfg, c.sdpTo, to, body, m, plain);
    PutOk(c.work, m, plain, id, Forwarded(w.from, w.invite, Sdp(body), w.answerKey, offered));
  }

  lemma RespondOk(c: Call, m: Made, plain: bool, id: nat, res: Response, source: Option<Addr>)
    requires AllWorkOk(c.work, m, plain) && KeysOk(c.sides, m)
    requires plain && res.Final? && res.body.Sdp? ==> Carried(res.body.text)
    ensures var d := OnRespond(c, id, res, source);
            AllWorkOk(d.work, m, plain) && KeysOk(d.sides, m) && d.sdpTo == c.sdpTo
  {
    hide Parsed, E.Remoted, AudioPlain;
    if id in c.work && c.work[id].Forwarded? {
      var w := c.work[id];
      assert WorkOk(w, m, plain);
      ReplyOk(c.work, m, plain, id);
      var d := OnRespond(c, id, res, source);
      if id in d.work {
        PutOk(c.work, m, plain, id, d.work[id]);
      }
    }
  }

  lemma DeliverOk(cfg: Config, c: Call, m: Made, plain: bool, id: nat)
    requires cfg.Valid() && CallOk(cfg, c, m, plain)
    ensures CallOk(cfg, OnDeliver(cfg, c, id), m, plain)
  {
    if id in c.work && c.work[id].Answered? {
      var w := c.work[id];
      assert WorkOk(w, m, plain);
      ReplyOk(c.work, m, plain, id);
      if Parsed(w.text).Ok? {
        RewrittenOk(cfg, w.text, w.from, w.answerKey, m.At(w.from), plain);
        SentOk(cfg, c.sdpTo, w.from, Rewritten(w.text, cfg.TargetFor(w.from, w.answerKey)).value, m, plain);
      }
    }
  }

  /** Requests, hold bookkeeping and relay stores touch neither text nor keys. */
  lemma OtherOk(cfg: Config, c: Call, m: Made, plain: bool, e: Event)
    requires AllWorkOk(c.work, m, plain) && ValidEvent(e, plain)
    requires e.Request? || e.AnswerHold? || e.Advance?
    ensures var d := Step(cfg, c, e);
            AllWorkOk(d.work, m, plain) && d.sides == c.sides && d.sdpTo == c.sdpTo
  {
    match e
    case Request(id, from, invite, body) => PutOk(c.work, m, plain, id, Started(from, invite, body));
    case AnswerHold(id) => NoteHolderOk(c, m, plain, id);
    case Advance(id) => AdvanceWorkOk(cfg, c, m, plain, id);
    case _ =>
  }

  lemma NoteHolderOk(c: Call, m: Made, plain: bool, id: nat)
    requires AllWorkOk(c.work, m, plain)
    ensures var d := OnAnswerHold(c, id); AllWorkOk(d.work, m, plain) && d.sides == c.sides && d.sdpTo == c.sdpTo
  {
    OneWorkOk(c.work, OnAnswerHold(c, id).work, m, plain, id);
  }

  /** The entry of one request moved to its next relay stage, or gone; texts and keys as they were. */
  ghost predicate OnlyStage(c: Call, d: Call, id: nat) {
    && d.sides == c.sides && d.sdpTo == c.sdpTo
    && (d.work == c.work || d.work == c.work - {id}
        || (id in d.work && d.work[id].Relaying? && d.work == c.work[id := d.work[id]]))
  }

  /** Among the stores of Hold. */
  predicate Blocking(c: Call, id: nat) {
    id in c.work && c.work[id].Relaying? &&
    (c.work[id].stage.BlockHolder? || c.work[id].stage.BlockOther? || c.work[id].stage.Music?)
  }

  lemma OpenStages(cfg: Config, c: Call, id: nat)
    requires !Blocking(c, id)
    ensures OnlyStage(c, OnAdvance(cfg, c, id), id)
  {}

  lemma BlockStages(cfg: Config, c: Call, id: nat)
    requires Blocking(c, id)
    ensures OnlyStage(c, OnAdvance(cfg, c, id), id)
  {}

  lemma AdvanceWorkOk(cfg: Config, c: Call, m: Made, plain: bool, id: nat)
    requires AllWorkOk(c.work, m, plain)
    ensures var d := OnAdvance(cfg, c, id); AllWorkOk(d.work, m, plain) && d.sides == c.sides && d.sdpTo == c.sdpTo
  {
    hide AllWorkOk, OnAdvance;
    if Blocking(c, id) {
      BlockStages(cfg, c, id);
    } else {
      OpenStages(cfg, c, id);
    }
    OneWorkOk(c.work, OnAdvance(cfg, c, id).work, m, plain, id);
  }

  lemma OneWorkOk(work: map<nat, Work>, after: map<nat, Work>, m: Made, plain: bool, id: nat)
    requires AllWorkOk(work, m, plain)
    requires after == work || after == work - {id}
        || (id in after && after[id].Relaying? && after == work[id := after[id]])
    ensures AllWorkOk(after, m, plain)
  {}

  lemma StepOk(cfg: Config, c: Call, m: Made, plain: bool, e: Event)
    requires cfg.Valid() && CallOk(cfg, c, m, plain) && ValidEvent(e, plain)
    ensures CallOk(cfg, Step(cfg, c, e), MadeBy(c, m, e), plain)
  {
    match e
    case Accept(id, signal, drawn) =>
      var n := MadeBy(c, m, e);
      MoreTextsOk(cfg, c.sdpTo, m, n, plain);
      MoreWorkOk(c.work, m, n, plain);
      AcceptOk(cfg, c, n, plain, id, signal, drawn);
    case Route(id) => RouteOk(cfg, c, m, plain, id);
    case Respond(id, res, source) => RespondOk(c, m, plain, id, res, source);
    case Deliver(id) => DeliverOk(cfg, c, m, plain, id);
    case _ => OtherOk(cfg, c, m, plain, e);
  }

  lemma RouteOk(cfg: Config, c: Call, m: Made, plain: bool, id: nat)
    requires cfg.Valid() && CallOk(cfg, c, m, plain)
    ensures CallOk(cfg, OnRoute(cfg, c, id), m, plain)
  {
    if id in c.work && c.work[id].Accepted? {
      if c.work[id].invite && (c.work[id].info.OnHold() || c.holdBy.At(c.work[id].from)) {
        RouteHoldOk(cfg, c, m, plain, id);
      } else {
        RouteOnOk(cfg, c, m, plain, id);
      }
    }
  }

  lemma {:induction false} RunOk(cfg: Config, c: Call, m: Made, plain: bool, es: seq<Event>)
    requires cfg.Valid() && CallOk(cfg, c, m, plain) && forall i | 0 <= i < |es| :: ValidEvent(es[i], plain)
    ensures CallOk(cfg, Run(cfg, c, es), MadeIn(cfg, c, m, es), plain)
  {
    if es != [] {
      RunOk(cfg, c, m, plain, es[..|es| - 1]);
      StepOk(cfg, Run(cfg, c, es[..|es| - 1]), MadeIn(cfg, c, m, es[..|es| - 1]), plain, es[|es| - 1]);
    }
  }

  // ---- from connect on ----

  /**
   connect: the callee was sent the caller's offer rewritten with the key offered to it, and the caller the callee's
   answer rewritten with its own key.
   */
  ghost predicate ConnectedWith(cfg: Config, c: Call, offer: string, answer: string, offered: Option<Crypto>) {
    && Connected(c)
    && Rewritten(offer, cfg.TargetFor(1, offered)) == Ok(c.sdpTo.callee)
    && Rewritten(answer, cfg.TargetFor(0, CC.OfferKey(c.sides.caller))) == Ok(c.sdpTo.caller)
  }

  lemma ConnectOk(cfg: Config, c: Call, m: Made, plain: bool, offer: string, answer: string, offered: Option<Crypto>)
    requires cfg.Valid() && ConnectedWith(cfg, c, offer, answer, offered)
    requires KeyMade(offered, m.callee) && KeysOk(c.sides, m)
    requires plain ==> Carried(offer) && Carried(answer)
    ensures CallOk(cfg, c, m, plain)
  {
    RewrittenOk(cfg, offer, 1, offered, m.callee, plain);
    RewrittenOk(cfg, answer, 0, CC.OfferKey(c.sides.caller), m.caller, plain);
  }

  /** Read by a phone: the side's own port or none, the PBX's address or hold, keys made for the side. */
  ghost predicate ReadsAsOurs(cfg: Config, i: Info, side: Leg, made: set<seq<Byte>>) {
    && (i.port == 0 || i.port == cfg.ports.At(side))
    && (i.addr == cfg.ip || i.addr.IsUnspecified())
    && forall k | k in i.cryptos :: k.key in made
  }

  lemma TextReadsAsOurs(cfg: Config, text: string, side: Leg, made: set<seq<Byte>>, plain: bool)
    requires cfg.Valid() && TextOk(cfg, text, side, made, plain) && Parsed(text).Ok?
    ensures ReadsAsOurs(cfg, Parsed(text).value, side, made)
  {
    var key :| OursWith(cfg, text, side, key, made);
    ParsedOurs(Lines(text), cfg.TargetFor(side, key));
  }

  lemma SideReadsAsOurs(cfg: Config, c: Call, m: Made, plain: bool, side: Leg)
    requires cfg.Valid() && CallOk(cfg, c, m, plain)
    ensures TextOk(cfg, c.sdpTo.At(side), side, m.At(side), plain)
    ensures Parsed(c.sdpTo.At(side)).Ok? ==> ReadsAsOurs(cfg, Parsed(c.sdpTo.At(side)).value, side, m.At(side))
  {
    hide ReadsAsOurs, Parsed;
    if Parsed(c.sdpTo.At(side)).Ok? {
      TextReadsAsOurs(cfg, c.sdpTo.At(side), side, m.At(side), plain);
    }
  }

  /**
   In every reachable state of a connected call, under any interleaving of requests and answers with any bodies: the
   SDP recorded for a side holds the PBX's address, that side's port and a key made for that side, line by line.
   When it parses, and it always does if the bodies the phones send carry, the audio port is 0 or that side's own, the
   address is the PBX's or 0.0.0.0, and every key in it was made for that side.
   */
  lemma SdpToIsOurs(cfg: Config, c: Call, m: Made, plain: bool, offer: string, answer: string, offered: Option<Crypto>,
                    es: seq<Event>, side: Leg)
    requires cfg.Valid() && ConnectedWith(cfg, c, offer, answer, offered)
    requires KeyMade(offered, m.callee) && KeysOk(c.sides, m)
    requires plain ==> Carried(offer) && Carried(answer)
    requires forall i | 0 <= i < |es| :: ValidEvent(es[i], plain)
    ensures var text, made := Run(cfg, c, es).sdpTo.At(side), MadeIn(cfg, c, m, es).At(side);
            && TextOk(cfg, text, side, made, plain)
            && (Parsed(text).Ok? ==> ReadsAsOurs(cfg, Parsed(text).value, side, made))
  {
    ConnectOk(cfg, c, m, plain, offer, answer, offered);
    RunOk(cfg, c, m, plain, es);
    SideReadsAsOurs(cfg, Run(cfg, c, es), MadeIn(cfg, c, m, es), plain, side);
  }

  // ---- exactly when it parses ----

  /** Whether the SDP recorded for each side came from a body that carries; answers to hold leave that as it was. */
  function Readable(c: Call, e: Event, was: Pair<bool>): Pair<bool> {
    match e
    case Route(id) =>
      if id in c.work && c.work[id].Accepted? && c.work[id].invite
         && !c.work[id].info.OnHold() && !c.holdBy.At(c.work[id].from)
      then var to: Leg := 1 - c.work[id].from; was.With(to, Carries(Lines(c.work[id].text)))
      else was
    case Deliver(id) =>
      if id in c.work && c.work[id].Answered? && c.work[id].invite && Parsed(c.work[id].text).Ok?
      then was.With(c.work[id].from, Carries(Lines(c.work[id].text)))
      else was
    case _ => was
  }

  function ReadableIn(cfg: Config, c: Call, was: Pair<bool>, es: seq<Event>): Pair<bool> {
    if es == [] then was
    else Readable(Run(cfg, c, es[..|es| - 1]), es[|es| - 1], ReadableIn(cfg, c, was, es[..|es| - 1]))
  }

  ghost predicate ParsesAs(sdpTo: Pair<string>, r: Pair<bool>) {
    (Parsed(sdpTo.caller).Ok? <==> r.caller) && (Parsed(sdpTo.callee).Ok? <==> r.callee)
  }

  lemma SentParses(sdpTo: Pair<string>, r: Pair<bool>, side: Leg, text: string, ok: bool)
    requires ParsesAs(sdpTo, r) && (Parsed(text).Ok? <==> ok)
    ensures ParsesAs(sdpTo.With(side, text), r.With(side, ok))
  {
    hide Parsed;
  }

  lemma RouteParses(cfg: Config, c: Call, m: Made, r: Pair<bool>, id: nat)
    requires cfg.Valid() && CallOk(cfg, c, m, false) && ParsesAs(c.sdpTo, r)
    ensures ParsesAs(OnRoute(cfg, c, id).sdpTo, Readable(c, Route(id), r))
  {
    hide Parsed, Carries, Rewritten, HoldAnswer, ParsesAs, OursWith, Lines;
    if id in c.work && c.work[id].Accepted? {
      var w := c.work[id];
      assert WorkOk(w, m, false);
      if w.invite && (w.info.OnHold() || c.holdBy.At(w.from)) {
        HoldParses(cfg, c, m, r, id);
      } else {
        var to: Leg := 1 - w.from;
        var offered := CC.OfferKey(c.sides.At(to));
        RewrittenOk(cfg, w.text, to, offered, m.At(to), false);
        SentParses(c.sdpTo, r, to, Rewritten(w.text, cfg.TargetFor(to, offered)).value, Carries(Lines(w.text)));
      }
    }
  }

  lemma HoldParses(cfg: Config, c: Call, m: Made, r: Pair<bool>, id: nat)
    requires cfg.Valid() && CallOk(cfg, c, m, false) && ParsesAs(c.sdpTo, r) && id in c.work && c.work[id].Accepted?
    requires c.work[id].invite && (c.work[id].info.OnHold() || c.holdBy.At(c.work[id].from))
    ensures ParsesAs(OnRoute(cfg, c, id).sdpTo, r)
  {
    hide Parsed, Rewritten, HoldAnswer, OursWith;
    var w := c.work[id];
    assert WorkOk(w, m, false);
    HoldAnswerOk(cfg, c.sdpTo.At(w.from), w.from, w.answerKey, m.At(w.from), false, w.info);
  }

  lemma DeliverParses(cfg: Config, c: Call, m: Made, r: Pair<bool>, id: nat)
    requires cfg.Valid() && CallOk(cfg, c, m, false) && ParsesAs(c.sdpTo, r)
    ensures ParsesAs(OnDeliver(cfg, c, id).sdpTo, Readable(c, Deliver(id), r))
  {
    hide Parsed, Carries, Rewritten, ParsesAs, OursWith, Lines;
    if id in c.work && c.work[id].Answered? {
      var w := c.work[id];
      var t := cfg.TargetFor(w.from, w.answerKey);
      assert WorkOk(w, m, false);
      RewriteFailsWithParse(w.text, t);
      if Parsed(w.text).Ok? {
        RewrittenOk(cfg, w.text, w.from, w.answerKey, m.At(w.from), false);
        SentParses(c.sdpTo, r, w.from, Rewritten(w.text, t).value, Carries(Lines(w.text)));
      }
    }
  }

  lemma OtherSdp(cfg: Config, c: Call, e: Event)
    requires !e.Route? && !e.Deliver?
    ensures Step(cfg, c, e).sdpTo == c.sdpTo
  {
    hide Parsed, CC.AcceptedOffer, CC.AcceptedAnswer, E.Remoted;
  }

  lemma StepParses(cfg: Config, c: Call, m: Made, r: Pair<bool>, e: Event)
    requires cfg.Valid() && CallOk(cfg, c, m, false) && ParsesAs(c.sdpTo, r)
    ensures ParsesAs(Step(cfg, c, e).sdpTo, Readable(c, e, r))
  {
    hide CallOk, ParsesAs, OnRoute, OnDeliver, Carries, Parsed, Lines;
    match e
    case Route(id) => RouteParses(cfg, c, m, r, id);
    case Deliver(id) => DeliverParses(cfg, c, m, r, id);
    case _ => OtherSdp(cfg, c, e);
  }

  /**
   In every reachable state, the SDP recorded for a side parses if and only if the body it was made from carries; so
   only such a phone is answered 488 when it holds or resumes.
   */
  lemma {:induction false} SdpToParsesIff(cfg: Config, c: Call, m: Made, offer: string, answer: string,
                                          offered: Option<Crypto>, es: seq<Event>)
    requires cfg.Valid() && ConnectedWith(cfg, c, offer, answer, offered)
    requires KeyMade(offered, m.callee) && KeysOk(c.sides, m)
    requires forall i | 0 <= i < |es| :: ValidEvent(es[i], false)
    ensures ParsesAs(Run(cfg, c, es).sdpTo, ReadableIn(cfg, c, Pair(Carries(Lines(answer)), Carries(Lines(offer))), es))
  {
    hide CallOk, ParsesAs, Step, Carries, Parsed, Lines, Readable, KeysOk, KeyMade, ConnectedWith, Rewritten;
    var was := Pair(Carries(Lines(answer)), Carries(Lines(offer)));
    if es == [] {
      ConnectedParses(cfg, c, m, offer, answer, offered);
    } else {
      var init := es[..|es| - 1];
      SdpToParsesIff(cfg, c, m, offer, answer, offered, init);
      ConnectOk(cfg, c, m, false, offer, answer, offered);
      RunOk(cfg, c, m, false, init);
      StepParses(cfg, Run(cfg, c, init), MadeIn(cfg, c, m, init), ReadableIn(cfg, c, was, init), es[|es| - 1]);
    }
  }

  lemma ConnectedParses(cfg: Config, c: Call, m: Made, offer: string, answer: string, offered: Option<Crypto>)
    requires cfg.Valid() && ConnectedWith(cfg, c, offer, answer, offered)
    requires KeyMade(offered, m.callee) && KeysOk(c.sides, m)
    ensures ParsesAs(c.sdpTo, Pair(Carries(Lines(answer)), Carries(Lines(offer))))
  {
    hide Carries, Parsed, Lines, Rewritten, OursWith;
    RewriteFailsWithParse(offer, cfg.TargetFor(1, offered));
    RewriteFailsWithParse(answer, cfg.TargetFor(0, CC.OfferKey(c.sides.caller)));
    RewrittenOk(cfg, offer, 1, offered, m.callee, false);
    RewrittenOk(cfg, answer, 0, CC.OfferKey(c.sides.caller), m.caller, false);
  }
}
