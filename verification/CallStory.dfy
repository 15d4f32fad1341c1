/**
 Everything a connected call tells its phones (forward and handleHold, internal/b2bua/call.go): every reply and every
 forwarded body of every run, by the request that caused it and the answer it got.
 */
module CallStory {
  import opened Basics
  import opened Text
  import opened Netip
  import opened SdpParse
  import opened SdpRewrite
  import opened SdpCrypto
  import opened SdpOurs
  import opened HoldAnswers
  import opened CallMachine
  import opened CallText
  import CC = CallCrypto
  import E = Endpoint

  // ---- by position ----

  /** The request that started id. */
  predicate AskedAt(es: seq<Event>, k: nat, id: nat) {
    k < |es| && es[k].Request? && es[k].id == id && forall i | 0 <= i < k :: !(es[i].Request? && es[i].id == id)
  }

  /** The other phone's answer that was waited for. */
  predicate AnsweredAt(cfg: Config, c: Call, es: seq<Event>, k: nat, id: nat) {
    k < |es| && es[k].Respond? && es[k].id == id
    && var b := Run(cfg, c, es[..k]); id in b.work && b.work[id].Forwarded?
  }

  // ---- the story of one request ----

  /** What became of it: nothing yet or refused here, answered as hold or resume, or sent on with this body. */
  datatype Course = Here | Held(answer: string) | SentOn(body: Body)

  datatype Story = Story(ask: Option<Event>, course: Course, res: Option<Response>)

  const UNTOLD := Story(None, Here, None)

  function CourseOf(d: Call, id: nat): Course {
    if id !in d.work then Here
    else match d.work[id]
      case Forwarded(_, _, sent, _, _) => SentOn(sent)
      case Holding(_, _, _, answer) => Held(answer)
      case _ => Here
  }

  /** The story after one more event e, which takes the call from b to d. What is told once stays. */
  function Told(b: Call, d: Call, e: Event, id: nat, s: Story): Story {
    if e.id != id then s
    else match e
      case Request(_, _, _, _) => if s.ask.None? then s.(ask := Some(e)) else s
      case Respond(_, res, _) =>
        if s.res.None? && id in b.work && b.work[id].Forwarded? then s.(res := Some(res)) else s
      case _ => if s.course.Here? then s.(course := CourseOf(d, id)) else s
  }

  function StoryOf(cfg: Config, c: Call, es: seq<Event>, id: nat): Story {
    if es == [] then UNTOLD
    else
      var init := es[..|es| - 1];
      Told(Run(cfg, c, init), Run(cfg, c, es), es[|es| - 1], id, StoryOf(cfg, c, init, id))
  }

  /** A request without an offer: its body and the answer's pass unread. An offerless re-INVITE is answered here. */
  predicate HandsOn(invite: bool, body: Body) {
    body.Opaque? || (body.Empty? && !invite)
  }

  /** An entry in work agrees with the story so far. */
  predicate WorkTold(w: Work, s: Story) {
    && s.ask.Some? && s.ask.value.Request? && w.from == s.ask.value.from && w.invite == s.ask.value.invite
    && (s.res.Some? <==> w.Answered?)
    && var body := s.ask.value.body;
       match w
       case Started(_, _, b) => s.course == Here && b == body
       case Accepted(_, _, text, info, _) => s.course == Here && body == Sdp(text) && Parsed(text) == Ok(info)
       case Forwarded(_, _, sent, _, _) =>
         && s.course == SentOn(sent) && (sent.Sdp? <==> body.Sdp?)
         && (!sent.Sdp? ==> sent == body && HandsOn(w.invite, body))
       case Answered(_, _, code, text, _) =>
         s.course.SentOn? && s.course.body.Sdp? && body.Sdp? && s.res.value == Final(code, Sdp(text))
       case Holding(_, _, _, answer) => s.course == Held(answer) && body.Sdp? && w.invite
       case Relaying(_, _, answer, _, _) => s.course == Held(answer) && body.Sdp? && w.invite
  }

  /** The reply that ends a request: the story decides its code, and whether a body it has is the other phone's. */
  predicate ReplyTold(r: Reply, s: Story) {
    && s.ask.Some? && s.ask.value.Request?
    && var body := s.ask.value.body;
       match s.course
       case Here =>
         && s.res.None?
         && ((r == Reply(491, None) && s.ask.value.invite) || (r == Reply(488, None) && body.Sdp?)
             || (r.code == 200 && r.sdp.Some? && s.ask.value.invite && body.Empty?))
       case Held(answer) => s.res.None? && r == Reply(200, Some(answer)) && body.Sdp? && s.ask.value.invite
       case SentOn(sent) =>
         && s.res.Some? && (sent.Sdp? <==> body.Sdp?)
         && (!sent.Sdp? ==> sent == body && HandsOn(s.ask.value.invite, body))
         && match s.res.value
            case Timeout => r == Reply(408, None)
            case Final(code, answer) =>
              if !sent.Sdp? || !answer.Sdp? then r == Reply(code, TextOf(answer))
              else if Parsed(answer.text).Ok? then r.code == code && r.sdp.Some?
              else r == Reply(488, None)
  }

  ghost predicate Entry(d: Call, id: nat, s: Story) {
    && (id in d.work ==> WorkTold(d.work[id], s))
    && (id in d.replied ==> ReplyTold(d.replied[id], s))
    && (s.ask.Some? <==> id in d.work || id in d.replied)
    && (s.ask.None? ==> s == UNTOLD)
  }

  lemma OtherEntry(cfg: Config, b: Call, e: Event, id: nat)
    requires Exclusive(b) && e.id != id
    ensures var d := Step(cfg, b, e);
            && (id in d.work <==> id in b.work) && (id in b.work ==> d.work[id] == b.work[id])
            && (id in d.replied <==> id in b.replied) && (id in b.replied ==> d.replied[id] == b.replied[id])
  {
    hide OnAccept, OnRoute, OnRespond, OnDeliver, OnAnswerHold, OnAdvance, Exclusive;
    if !e.Request? { StepChanges(cfg, b, e); }
  }

  lemma RequestEntry(cfg: Config, b: Call, e: Event, s: Story)
    requires Exclusive(b) && Entry(b, e.id, s) && e.Request?
    ensures Entry(Step(cfg, b, e), e.id, Told(b, Step(cfg, b, e), e, e.id, s))
  {}

  lemma SdpAccepts(b: Call, id: nat, signal: Option<Addr>, drawn: seq<Byte>)
    requires id in b.work && b.work[id].Started? && b.work[id].body.Sdp?
    ensures var d, w := OnAccept(b, id, signal, drawn), b.work[id];
            if id in d.work then
              d.replied == b.replied && d.work[id].Accepted?
              && d.work[id].from == w.from && d.work[id].invite == w.invite
              && d.work[id].text == w.body.text && Parsed(w.body.text) == Ok(d.work[id].info)
            else d.replied == b.replied[id := Reply(488, None)]
  {
    hide Parsed, E.Remoted, CC.AcceptedOffer;
  }

  lemma OtherAccepts(b: Call, id: nat, signal: Option<Addr>, drawn: seq<Byte>)
    requires !(id in b.work && b.work[id].Started? && b.work[id].body.Sdp?)
    ensures var d := OnAccept(b, id, signal, drawn);
            if !(id in b.work && b.work[id].Started?) then d == b
            else
              var w := b.work[id];
              if w.invite && w.body.Empty? then
                id !in d.work && d.replied == b.replied[id := Reply(200, Some(b.sdpTo.At(w.from)))]
              else d == b.Put(id, Forwarded(w.from, w.invite, w.body, None, None))
  {
    hide Parsed, E.Remoted, CC.AcceptedOffer;
  }

  lemma AcceptEntry(cfg: Config, b: Call, e: Event, s: Story)
    requires Exclusive(b) && Entry(b, e.id, s) && e.Accept?
    ensures Entry(Step(cfg, b, e), e.id, Told(b, Step(cfg, b, e), e, e.id, s))
  {
    hide Parsed, OnAccept;
    if e.id in b.work && b.work[e.id].Started? && b.work[e.id].body.Sdp? {
      SdpAccepts(b, e.id, e.signal, e.drawn);
    } else {
      OtherAccepts(b, e.id, e.signal, e.drawn);
    }
  }

  /** Whether Route answers the request as hold or resume. */
  predicate IsHold(b: Call, w: Work)
    requires w.Accepted?
  {
    w.invite && (w.info.OnHold() || b.holdBy.At(w.from))
  }

  lemma HoldRoutes(cfg: Config, b: Call, id: nat)
    requires id in b.work && b.work[id].Accepted? && IsHold(b, b.work[id])
    ensures var w, d := b.work[id], OnRoute(cfg, b, id);
            var r := HoldAnswer(b.sdpTo.At(w.from), cfg.TargetFor(w.from, w.answerKey), w.info);
            if r.Ok? then
              d == b.(sdpTo := b.sdpTo.With(w.from, r.value),
                      work := b.work[id := Holding(w.from, true, w.info.OnHold(), r.value)])
            else d == b.Refuse(id, 488)
  {
    hide HoldAnswer;
  }

  lemma OfferRoutes(cfg: Config, b: Call, id: nat)
    requires id in b.work && b.work[id].Accepted? && !IsHold(b, b.work[id])
    ensures var w, d := b.work[id], OnRoute(cfg, b, id);
            var to: Leg := 1 - w.from;
            var offered := CC.OfferKey(b.sides.At(to));
            var r := Rewritten(w.text, cfg.TargetFor(to, offered));
            if r.Ok? then
              d == b.(sdpTo := if w.invite then b.sdpTo.With(to, r.value) else b.sdpTo,
                      work := b.work[id := Forwarded(w.from, w.invite, Sdp(r.value), w.answerKey, offered)])
            else d == b.Refuse(id, 488)
  {
    hide Rewritten;
  }

  lemma NoRoute(cfg: Config, b: Call, id: nat)
    requires !(id in b.work && b.work[id].Accepted?)
    ensures OnRoute(cfg, b, id) == b
  {}

  lemma RouteEntry(cfg: Config, b: Call, e: Event, s: Story)
    requires Exclusive(b) && Entry(b, e.id, s) && e.Route?
    ensures Entry(Step(cfg, b, e), e.id, Told(b, Step(cfg, b, e), e, e.id, s))
  {
    hide Parsed, Rewritten, HoldAnswer, CC.OfferKey, OnRoute, IsHold;
    if !(e.id in b.work && b.work[e.id].Accepted?) {
      NoRoute(cfg, b, e.id);
    } else if IsHold(b, b.work[e.id]) {
      assert b.work[e.id].invite by { HoldIsInvite(b, b.work[e.id]); }
      HoldRoutes(cfg, b, e.id);
    } else {
      OfferRoutes(cfg, b, e.id);
    }
  }

  lemma HoldIsInvite(b: Call, w: Work)
    requires w.Accepted? && IsHold(b, w)
    ensures w.invite
  {}

  lemma RespondEntry(cfg: Config, b: Call, e: Event, s: Story)
    requires Exclusive(b) && Entry(b, e.id, s) && e.Respond?
    ensures Entry(Step(cfg, b, e), e.id, Told(b, Step(cfg, b, e), e, e.id, s))
  {
    hide Parsed, E.Remoted, CC.AcceptedAnswer;
  }

  lemma DeliverEntry(cfg: Config, b: Call, e: Event, s: Story)
    requires Exclusive(b) && Entry(b, e.id, s) && e.Deliver?
    ensures Entry(Step(cfg, b, e), e.id, Told(b, Step(cfg, b, e), e, e.id, s))
  {
    hide Parsed, Rewritten;
    if e.id in b.work && b.work[e.id].Answered? {
      var w := b.work[e.id];
      RewriteFailsWithParse(w.text, cfg.TargetFor(w.from, w.answerKey));
    }
  }

  lemma HoldEntry(cfg: Config, b: Call, e: Event, s: Story)
    requires Exclusive(b) && Entry(b, e.id, s) && e.AnswerHold?
    ensures Entry(Step(cfg, b, e), e.id, Told(b, Step(cfg, b, e), e, e.id, s))
  {
    hide ReplyTold;
  }

  /** A stage leaves the request's answer alone, or replies with it. */
  lemma StageKeeps(cfg: Config, b: Call, id: nat)
    requires Exclusive(b) && id in b.work && b.work[id].Relaying?
    ensures var d, w := OnAdvance(cfg, b, id), b.work[id];
            if w.stage == Done then id !in d.work && id in d.replied && d.replied[id] == Reply(200, Some(w.answer))
            else id !in d.replied && id in d.work
                 && (d.work[id] == w || d.work[id] == w.(stage := d.work[id].stage))
  {}

  lemma AdvanceEntry(cfg: Config, b: Call, e: Event, s: Story)
    requires Exclusive(b) && Entry(b, e.id, s) && e.Advance?
    ensures Entry(Step(cfg, b, e), e.id, Told(b, Step(cfg, b, e), e, e.id, s))
  {
    hide Exclusive, OnAdvance;
    if e.id in b.work && b.work[e.id].Relaying? { StageKeeps(cfg, b, e.id); } else { NoStage(cfg, b, e.id); }
  }

  lemma NoStage(cfg: Config, b: Call, id: nat)
    requires !(id in b.work && b.work[id].Relaying?)
    ensures OnAdvance(cfg, b, id) == b
  {}

  lemma StepEntry(cfg: Config, b: Call, e: Event, id: nat, s: Story)
    requires Exclusive(b) && Entry(b, id, s)
    ensures Entry(Step(cfg, b, e), id, Told(b, Step(cfg, b, e), e, id, s))
  {
    hide Exclusive, Step, WorkTold, ReplyTold;
    if e.id != id {
      OtherEntry(cfg, b, e, id);
    } else {
      hide Entry, Told;
      match e
      case Request(_, _, _, _) => RequestEntry(cfg, b, e, s);
      case Accept(_, _, _) => AcceptEntry(cfg, b, e, s);
      case Route(_) => RouteEntry(cfg, b, e, s);
      case Respond(_, _, _) => RespondEntry(cfg, b, e, s);
      case Deliver(_) => DeliverEntry(cfg, b, e, s);
      case AnswerHold(_) => HoldEntry(cfg, b, e, s);
      case Advance(_) => AdvanceEntry(cfg, b, e, s);
    }
  }

  lemma {:induction false} RunEntry(cfg: Config, c: Call, es: seq<Event>, id: nat)
    requires Connected(c)
    ensures Entry(Run(cfg, c, es), id, StoryOf(cfg, c, es, id))
  {
    hide Step, Told, Exclusive, WorkTold, ReplyTold;
    if es != [] {
      var init := es[..|es| - 1];
      RunEntry(cfg, c, init, id);
      RunExclusive(cfg, c, init);
      StepEntry(cfg, Run(cfg, c, init), es[|es| - 1], id, StoryOf(cfg, c, init, id));
    }
  }

  lemma AskedEarlier(es: seq<Event>, k: nat, id: nat)
    requires es != [] && k < |es| - 1
    ensures AskedAt(es, k, id) <==> AskedAt(es[..|es| - 1], k, id)
  {
    var init := es[..|es| - 1];
    assert forall i | 0 <= i <= k :: es[i] == init[i];
  }

  lemma AnsweredEarlier(cfg: Config, c: Call, es: seq<Event>, k: nat, id: nat)
    requires es != [] && k < |es| - 1
    ensures AnsweredAt(cfg, c, es, k, id) <==> AnsweredAt(cfg, c, es[..|es| - 1], k, id)
  {
    hide Run;
    assert es[..|es| - 1][..k] == es[..k];
  }

  lemma {:induction false} AskAt(cfg: Config, c: Call, es: seq<Event>, id: nat)
    ensures var s := StoryOf(cfg, c, es, id);
            if s.ask.Some? then exists k: nat :: AskedAt(es, k, id) && es[k] == s.ask.value
            else forall k | 0 <= k < |es| :: !(es[k].Request? && es[k].id == id)
  {
    hide Run, CourseOf;
    if es != [] {
      var init, n := es[..|es| - 1], |es| - 1;
      AskAt(cfg, c, init, id);
      var s := StoryOf(cfg, c, init, id);
      if s.ask.Some? {
        var k: nat :| AskedAt(init, k, id) && init[k] == s.ask.value;
        AskedEarlier(es, k, id);
      } else {
        assert forall k | 0 <= k < n :: es[k] == init[k];
        if es[n].Request? && es[n].id == id { assert AskedAt(es, n, id); }
      }
    }
  }

  lemma Waiting(b: Call, id: nat, s: Story)
    requires Entry(b, id, s) && id in b.work && b.work[id].Forwarded?
    ensures s.res.None?
  {}

  lemma {:induction false} ResAt(cfg: Config, c: Call, es: seq<Event>, id: nat)
    requires Connected(c)
    ensures var s := StoryOf(cfg, c, es, id);
            && (forall k: nat :: AnsweredAt(cfg, c, es, k, id) ==> s.res == Some(es[k].res))
            && (s.res.Some? ==> exists k: nat :: AnsweredAt(cfg, c, es, k, id))
  {
    hide Run, CourseOf, WorkTold, ReplyTold;
    if es != [] {
      var init, n := es[..|es| - 1], |es| - 1;
      ResAt(cfg, c, init, id);
      var b, s := Run(cfg, c, init), StoryOf(cfg, c, init, id);
      RunEntry(cfg, c, init, id);
      if id in b.work && b.work[id].Forwarded? { Waiting(b, id, s); }
      forall k: nat | k < n ensures AnsweredAt(cfg, c, es, k, id) <==> AnsweredAt(cfg, c, init, k, id) {
        AnsweredEarlier(cfg, c, es, k, id);
      }
      if s.res.Some? {
        var k: nat :| AnsweredAt(cfg, c, init, k, id);
        assert AnsweredAt(cfg, c, es, k, id);
      }
      assert es[..n] == init;
      if Told(b, Run(cfg, c, es), es[n], id, s).res != s.res { assert AnsweredAt(cfg, c, es, n, id); }
    }
  }

  // ---- what is in it ----

  /** The reply is the other phone's body: that of an answer to no offer, or one that is not SDP. */
  predicate HandedOn(s: Story) {
    s.course.SentOn? && s.res.Some? && s.res.value.Final? && (!s.course.body.Sdp? || !s.res.value.body.Sdp?)
  }

  /** Offers sent on, and answers to hold, are the PBX's own. */
  ghost predicate StoryOk(cfg: Config, s: Story, m: Made, plain: bool) {
    s.ask.Some? && s.ask.value.Request? ==>
      var from, other: Leg := s.ask.value.from, 1 - s.ask.value.from;
      match s.course
      case Here => true
      case Held(answer) => TextOk(cfg, answer, from, m.At(from), plain)
      case SentOn(body) => body.Sdp? ==> TextOk(cfg, body.text, other, m.At(other), plain)
  }

  /** And so is the reply, unless it is handed on. */
  ghost predicate ReplyOurs(cfg: Config, d: Call, id: nat, s: Story, m: Made, plain: bool) {
    id in d.replied && d.replied[id].sdp.Some? && !HandedOn(s) && s.ask.Some? && s.ask.value.Request? ==>
      var from := s.ask.value.from;
      TextOk(cfg, d.replied[id].sdp.value, from, m.At(from), plain)
  }

  ghost predicate Tells(cfg: Config, d: Call, id: nat, s: Story, m: Made, plain: bool) {
    StoryOk(cfg, s, m, plain) && ReplyOurs(cfg, d, id, s, m, plain)
  }

  lemma MoreTells(cfg: Config, d: Call, id: nat, s: Story, m: Made, n: Made, plain: bool)
    requires Tells(cfg, d, id, s, m, plain) && More(m, n)
    ensures Tells(cfg, d, id, s, n, plain)
  {
    hide TextOk, HandedOn;
    if s.ask.Some? && s.ask.value.Request? {
      var from, other: Leg := s.ask.value.from, 1 - s.ask.value.from;
      match s.course {
        case Here =>
        case Held(answer) => MoreOk(cfg, answer, from, m.At(from), n.At(from), plain);
        case SentOn(body) => if body.Sdp? { MoreOk(cfg, body.text, other, m.At(other), n.At(other), plain); }
      }
      if id in d.replied && d.replied[id].sdp.Some? && !HandedOn(s) {
        MoreOk(cfg, d.replied[id].sdp.value, from, m.At(from), n.At(from), plain);
      }
    }
  }

  lemma AcceptTells(cfg: Config, b: Call, e: Event, s: Story, m: Made, plain: bool)
    requires e.Accept? && Entry(b, e.id, s) && Exclusive(b) && TextsOk(cfg, b.sdpTo, m, plain)
    requires Tells(cfg, b, e.id, s, m, plain)
    ensures Tells(cfg, Step(cfg, b, e), e.id, Told(b, Step(cfg, b, e), e, e.id, s), m, plain)
  {
    hide Parsed, OnAccept, TextOk, ReplyTold;
    if e.id in b.work && b.work[e.id].Started? && b.work[e.id].body.Sdp? {
      SdpAccepts(b, e.id, e.signal, e.drawn);
    } else {
      OtherAccepts(b, e.id, e.signal, e.drawn);
    }
  }

  lemma HoldTells(cfg: Config, b: Call, id: nat, s: Story, m: Made, plain: bool)
    requires id in b.work && b.work[id].Accepted? && IsHold(b, b.work[id]) && id !in b.replied
    requires Entry(b, id, s) && cfg.Valid() && CallOk(cfg, b, m, plain) && Tells(cfg, b, id, s, m, plain)
    ensures Tells(cfg, Step(cfg, b, Route(id)), id, Told(b, Step(cfg, b, Route(id)), Route(id), id, s), m, plain)
  {
    hide Parsed, HoldAnswer, TextOk, ReplyTold, KeyMade, OnRoute, IsHold, AllWorkOk, KeysOk;
    var w := b.work[id];
    AcceptedOk(b, m, plain, id);
    HoldRoutes(cfg, b, id);
    HoldAnswerOk(cfg, b.sdpTo.At(w.from), w.from, w.answerKey, m.At(w.from), plain, w.info);
  }

  lemma AcceptedTold(b: Call, id: nat, s: Story)
    requires Entry(b, id, s) && id in b.work && b.work[id].Accepted?
    ensures s.ask.Some? && s.ask.value.Request? && s.ask.value.from == b.work[id].from && s.course == Here
  {}

  lemma SentTells(cfg: Config, b: Call, d: Call, id: nat, s: Story, m: Made, plain: bool, text: string)
    requires s.ask.Some? && s.ask.value.Request? && s.course == Here && id !in d.replied
    requires id in d.work && d.work[id].Forwarded? && d.work[id].sent == Sdp(text)
    requires var other: Leg := 1 - s.ask.value.from; TextOk(cfg, text, other, m.At(other), plain)
    ensures Tells(cfg, d, id, Told(b, d, Route(id), id, s), m, plain)
  {
    hide TextOk;
  }

  lemma OfferTells(cfg: Config, b: Call, id: nat, s: Story, m: Made, plain: bool)
    requires id in b.work && b.work[id].Accepted? && !IsHold(b, b.work[id]) && id !in b.replied
    requires Entry(b, id, s) && cfg.Valid() && AllWorkOk(b.work, m, plain) && KeysOk(b.sides, m)
    ensures Tells(cfg, Step(cfg, b, Route(id)), id, Told(b, Step(cfg, b, Route(id)), Route(id), id, s), m, plain)
  {
    hide Parsed, Rewritten, TextOk, KeyMade, CC.OfferKey, OnRoute, IsHold, AllWorkOk, KeysOk, Entry, Tells, Told,
         Lines, Carried, TextsOk;
    var w := b.work[id];
    var other: Leg := 1 - w.from;
    AcceptedTold(b, id, s);
    AcceptedOk(b, m, plain, id);
    OfferRoutes(cfg, b, id);
    OfferKeyMade(b, m, other);
    RewrittenOk(cfg, w.text, other, CC.OfferKey(b.sides.At(other)), m.At(other), plain);
    var sent := Rewritten(w.text, cfg.TargetFor(other, CC.OfferKey(b.sides.At(other)))).value;
    SentTells(cfg, b, OnRoute(cfg, b, id), id, s, m, plain, sent);
  }

  lemma RouteTells(cfg: Config, b: Call, e: Event, s: Story, m: Made, plain: bool)
    requires e.Route? && Entry(b, e.id, s) && Exclusive(b) && cfg.Valid() && CallOk(cfg, b, m, plain)
    requires Tells(cfg, b, e.id, s, m, plain)
    ensures Tells(cfg, Step(cfg, b, e), e.id, Told(b, Step(cfg, b, e), e, e.id, s), m, plain)
  {
    hide OnRoute, IsHold, TextsOk, AllWorkOk, KeysOk, TextOk, ReplyTold;
    if !(e.id in b.work && b.work[e.id].Accepted?) {
      NoRoute(cfg, b, e.id);
    } else {
      hide Tells, Entry, Told;
      if IsHold(b, b.work[e.id]) {
        HoldTells(cfg, b, e.id, s, m, plain);
      } else {
        OfferTells(cfg, b, e.id, s, m, plain);
      }
    }
  }

  lemma AcceptedOk(b: Call, m: Made, plain: bool, id: nat)
    requires AllWorkOk(b.work, m, plain) && id in b.work && b.work[id].Accepted?
    ensures var w := b.work[id];
            KeyMade(w.answerKey, m.At(w.from)) && Parsed(w.text) == Ok(w.info) && (plain ==> Carried(w.text))
  {
    assert WorkOk(b.work[id], m, plain);
  }

  lemma OfferKeyMade(b: Call, m: Made, side: Leg)
    requires KeysOk(b.sides, m)
    ensures KeyMade(CC.OfferKey(b.sides.At(side)), m.At(side))
  {}

  lemma RespondTells(cfg: Config, b: Call, e: Event, s: Story, m: Made, plain: bool)
    requires e.Respond? && Entry(b, e.id, s) && Exclusive(b) && Tells(cfg, b, e.id, s, m, plain)
    ensures Tells(cfg, Step(cfg, b, e), e.id, Told(b, Step(cfg, b, e), e, e.id, s), m, plain)
  {
    hide Parsed, E.Remoted, CC.AcceptedAnswer, TextOk, ReplyTold;
  }

  lemma DeliverTells(cfg: Config, b: Call, e: Event, s: Story, m: Made, plain: bool)
    requires e.Deliver? && Entry(b, e.id, s) && Exclusive(b) && cfg.Valid() && CallOk(cfg, b, m, plain)
    requires Tells(cfg, b, e.id, s, m, plain)
    ensures Tells(cfg, Step(cfg, b, e), e.id, Told(b, Step(cfg, b, e), e, e.id, s), m, plain)
  {
    hide Parsed, Rewritten, TextOk, ReplyTold;
    if e.id in b.work && b.work[e.id].Answered? {
      var w := b.work[e.id];
      assert WorkOk(w, m, plain);
      RewriteFailsWithParse(w.text, cfg.TargetFor(w.from, w.answerKey));
      if Parsed(w.text).Ok? { RewrittenOk(cfg, w.text, w.from, w.answerKey, m.At(w.from), plain); }
    }
  }

  lemma OtherTells(cfg: Config, b: Call, e: Event, s: Story, m: Made, plain: bool)
    requires (e.Request? || e.AnswerHold?) && Entry(b, e.id, s) && Tells(cfg, b, e.id, s, m, plain)
    ensures Tells(cfg, Step(cfg, b, e), e.id, Told(b, Step(cfg, b, e), e, e.id, s), m, plain)
  {
    hide TextOk, ReplyTold;
  }

  lemma AdvanceTells(cfg: Config, b: Call, e: Event, s: Story, m: Made, plain: bool)
    requires e.Advance? && Entry(b, e.id, s) && Exclusive(b) && Tells(cfg, b, e.id, s, m, plain)
    ensures Tells(cfg, Step(cfg, b, e), e.id, Told(b, Step(cfg, b, e), e, e.id, s), m, plain)
  {
    hide TextOk, ReplyTold, OnAdvance, Exclusive;
    if e.id in b.work && b.work[e.id].Relaying? { StageKeeps(cfg, b, e.id); } else { NoStage(cfg, b, e.id); }
  }

  lemma StepTells(cfg: Config, b: Call, e: Event, id: nat, s: Story, m: Made, plain: bool)
    requires cfg.Valid() && Exclusive(b) && Entry(b, id, s) && CallOk(cfg, b, m, plain) && ValidEvent(e, plain)
    requires Tells(cfg, b, id, s, m, plain)
    ensures Tells(cfg, Step(cfg, b, e), id, Told(b, Step(cfg, b, e), e, id, s), MadeBy(b, m, e), plain)
  {
    hide Step, Exclusive, Entry, TextsOk, KeysOk, AllWorkOk, TextOk;
    var n := MadeBy(b, m, e);
    assert More(m, n);
    MoreTells(cfg, b, id, s, m, n, plain);
    if e.id != id {
      OtherEntry(cfg, b, e, id);
    } else {
      hide Tells, Told;
      match e
      case Accept(_, _, _) =>
        MoreTextsOk(cfg, b.sdpTo, m, n, plain);
        AcceptTells(cfg, b, e, s, n, plain);
      case Route(_) => RouteTells(cfg, b, e, s, m, plain);
      case Respond(_, _, _) => RespondTells(cfg, b, e, s, m, plain);
      case Deliver(_) => DeliverTells(cfg, b, e, s, m, plain);
      case Advance(_) => AdvanceTells(cfg, b, e, s, m, plain);
      case _ => OtherTells(cfg, b, e, s, m, plain);
    }
  }

  lemma {:induction false} RunTells(cfg: Config, c: Call, m: Made, plain: bool, es: seq<Event>, id: nat)
    requires cfg.Valid() && Connected(c) && CallOk(cfg, c, m, plain)
    requires forall i | 0 <= i < |es| :: ValidEvent(es[i], plain)
    ensures Entry(Run(cfg, c, es), id, StoryOf(cfg, c, es, id))
    ensures Tells(cfg, Run(cfg, c, es), id, StoryOf(cfg, c, es, id), MadeIn(cfg, c, m, es), plain)
  {
    hide Step, Told, Exclusive, Entry, CallOk, ValidEvent, TextOk;
    RunEntry(cfg, c, es, id);
    if es != [] {
      var init := es[..|es| - 1];
      RunTells(cfg, c, m, plain, init, id);
      RunExclusive(cfg, c, init);
      RunOk(cfg, c, m, plain, init);
      StepTells(cfg, Run(cfg, c, init), es[|es| - 1], id, StoryOf(cfg, c, init, id), MadeIn(cfg, c, m, init), plain);
    }
  }

  /** The other phone answered, with or to something that is no SDP: its body goes back unread. */
  ghost predicate PassedBack(cfg: Config, c: Call, es: seq<Event>, j: nat, id: nat, asked: Body) {
    AnsweredAt(cfg, c, es, j, id) && es[j].res.Final? && (!asked.Sdp? || !es[j].res.body.Sdp?)
  }

  lemma StoryTold(cfg: Config, d: Call, id: nat, s: Story, m: Made, plain: bool, ask: Event)
    requires Entry(d, id, s) && Tells(cfg, d, id, s, m, plain) && ask.Request? && s.ask == Some(ask)
    ensures id in d.work && d.work[id].Forwarded? ==>
              var other: Leg, sent := 1 - ask.from, d.work[id].sent;
              if ask.body.Sdp? then sent.Sdp? && TextOk(cfg, sent.text, other, m.At(other), plain) else sent == ask.body
    ensures id in d.replied ==>
              if s.res.Some? && s.res.value.Final? && (!ask.body.Sdp? || !s.res.value.body.Sdp?) then
                d.replied[id] == Reply(s.res.value.code, TextOf(s.res.value.body))
              else
                d.replied[id].sdp.Some? ==> TextOk(cfg, d.replied[id].sdp.value, ask.from, m.At(ask.from), plain)
  {
    hide TextOk, Parsed;
  }

  /** What goes on to the other phone: an offer as the PBX's own, anything else as it came. */
  ghost predicate SentOnOurs(cfg: Config, d: Call, ask: Event, id: nat, made: Made, plain: bool)
    requires ask.Request?
  {
    id in d.work && d.work[id].Forwarded? ==>
      var other: Leg, sent := 1 - ask.from, d.work[id].sent;
      if ask.body.Sdp? then sent.Sdp? && TextOk(cfg, sent.text, other, made.At(other), plain) else sent == ask.body
  }

  /** What comes back: the other phone's body as it came, if it or the request was not SDP; else the PBX's own SDP. */
  ghost predicate RepliedOurs(cfg: Config, c: Call, es: seq<Event>, d: Call, ask: Event, id: nat, made: Made,
                              plain: bool)
    requires ask.Request?
  {
    id in d.replied ==>
      var r := d.replied[id];
      if exists j: nat :: PassedBack(cfg, c, es, j, id, ask.body) then
        exists j: nat :: PassedBack(cfg, c, es, j, id, ask.body) && r == Reply(es[j].res.code, TextOf(es[j].res.body))
      else r.sdp.Some? ==> TextOk(cfg, r.sdp.value, ask.from, made.At(ask.from), plain)
  }

  /**
   Everything sent, in every run: an offer sent on is the PBX's own, for the phone it goes to, and any other request's
   body goes on as it came. The reply to request number id is the answer's body as it came, if request or answer was
   not SDP; in every other case an SDP in it is the PBX's own, for the phone that asked.
   */
  lemma EverythingSent(cfg: Config, c: Call, m: Made, plain: bool, offer: string, answer: string,
                       offered: Option<Crypto>, es: seq<Event>, k: nat, id: nat)
    requires cfg.Valid() && ConnectedWith(cfg, c, offer, answer, offered)
    requires KeyMade(offered, m.callee) && KeysOk(c.sides, m) && (plain ==> Carried(offer) && Carried(answer))
    requires (forall i | 0 <= i < |es| :: ValidEvent(es[i], plain)) && AskedAt(es, k, id)
    ensures var d, made := Run(cfg, c, es), MadeIn(cfg, c, m, es);
            SentOnOurs(cfg, d, es[k], id, made, plain) && RepliedOurs(cfg, c, es, d, es[k], id, made, plain)
  {
    hide Run, MadeIn, StoryOf, TextOk, ValidEvent, CallOk, Rewritten, KeysOk, KeyMade, Carried, Parsed,
         Exclusive, Entry, Tells, TextOf;
    ConnectOk(cfg, c, m, plain, offer, answer, offered);
    RunTells(cfg, c, m, plain, es, id);
    ResAt(cfg, c, es, id);
    FirstAsk(cfg, c, es, k, id);
    var s := StoryOf(cfg, c, es, id);
    StoryTold(cfg, Run(cfg, c, es), id, s, MadeIn(cfg, c, m, es), plain, es[k]);
    if j: nat :| PassedBack(cfg, c, es, j, id, es[k].body) {
      assert s.res == Some(es[j].res);
    } else if s.res.Some? {
      var j: nat :| AnsweredAt(cfg, c, es, j, id);
      assert s.res == Some(es[j].res) && !PassedBack(cfg, c, es, j, id, es[k].body);
    }
  }

  lemma FirstAsk(cfg: Config, c: Call, es: seq<Event>, k: nat, id: nat)
    requires AskedAt(es, k, id)
    ensures StoryOf(cfg, c, es, id).ask == Some(es[k])
  {
    hide StoryOf;
    AskAt(cfg, c, es, id);
    if i: nat :| AskedAt(es, i, id) { assert i == k; }
  }

  // ---- which requests can be answered with another phone's SDP ----

  /** Whatever SDP the phones send, a request like this is never answered with SDP that is not the PBX's own. */
  ghost predicate AlwaysOurs(cfg: Config, c: Call, m: Made, from: Leg, invite: bool, body: Body) {
    forall es: seq<Event>, k: nat, id: nat |
      && AskedAt(es, k, id) && es[k] == Request(id, from, invite, body) && id in Run(cfg, c, es).replied
      && Run(cfg, c, es).replied[id].sdp.Some?
      && (forall i | 0 <= i < |es| :: ValidEvent(es[i], false) && SdpAnswer(es[i])) ::
      TextOk(cfg, Run(cfg, c, es).replied[id].sdp.value, from, MadeIn(cfg, c, m, es).At(from), false)
  }

  predicate SdpAnswer(e: Event) {
    e.Respond? && e.res.Final? ==> !e.res.body.Opaque?
  }

  lemma RunThree(cfg: Config, c: Call, x: Event, y: Event, z: Event)
    ensures Run(cfg, c, [x, y, z]) == Step(cfg, Step(cfg, Step(cfg, c, x), y), z)
  {
    hide Step;
    assert [x] == [] + [x] && [x, y] == [x] + [y] && [x, y, z] == [x, y] + [z];
    RunLast(cfg, c, [], x);
    RunLast(cfg, c, [x], y);
    RunLast(cfg, c, [x, y], z);
  }

  /** A request without an offer is replied to with whatever body the other phone answers. */
  lemma HandedOnAnything(cfg: Config, c: Call, id: nat, from: Leg, invite: bool, body: Body, drawn: seq<Byte>,
                         code: int, answer: Body)
    requires id !in c.work && id !in c.replied && !(invite && c.reinvite) && HandsOn(invite, body)
    ensures var reply := Respond(id, Final(code, answer), None);
            var es := [Request(id, from, invite, body), Accept(id, None, drawn), reply];
            var d := Run(cfg, c, es);
            id in d.replied && d.replied[id] == Reply(code, TextOf(answer))
  {
    hide Parsed, E.Remoted, CC.AcceptedOffer, CC.AcceptedAnswer;
    RunThree(cfg, c, Request(id, from, invite, body), Accept(id, None, drawn), Respond(id, Final(code, answer), None));
  }

  /** A line of a phone's own, which no target makes the PBX's. */
  const CANDIDATE := "a=ice-"

  lemma ForeignText(cfg: Config, side: Leg, made: set<seq<Byte>>)
    ensures !TextOk(cfg, Unlines([CANDIDATE]), side, made, false)
  {
    assert Line(CANDIDATE) && KindOf(CANDIDATE) == Transport by { CandidateKind(); }
    LinesUnlines([CANDIDATE]);
    forall key ensures !OursWith(cfg, Unlines([CANDIDATE]), side, key, made) {
      assert !OurLine([CANDIDATE][0], cfg.TargetFor(side, key));
    }
  }

  lemma CandidateKind()
    ensures Line(CANDIDATE) && KindOf(CANDIDATE) == Transport
  {
    var l := CANDIDATE;
    assert |l| == 6 && l[0] == 'a' && l[2] == 'i' && l[5] == '-' && !IsSpace('-');
    assert !("o=" <= l) && !("c=" <= l) && !("m=" <= l) && |"a=rtpmap:"| == |"a=crypto:"| == 9 && |"a=rtcp:"| == 7;
    assert |"a=sendrecv"| == |"a=sendonly"| == |"a=recvonly"| == |"a=inactive"| == 10;
    assert "a=ice-" <= l;
  }

  /** Exactly those that carry an offer, or are offerless re-INVITEs, are always answered with the PBX's own SDP. */
  lemma AlwaysOursIff(cfg: Config, c: Call, m: Made, offer: string, answer: string, offered: Option<Crypto>,
                      from: Leg, invite: bool, body: Body)
    requires cfg.Valid() && ConnectedWith(cfg, c, offer, answer, offered)
    requires KeyMade(offered, m.callee) && KeysOk(c.sides, m)
    ensures AlwaysOurs(cfg, c, m, from, invite, body) <==> !HandsOn(invite, body)
  {
    hide Run, MadeIn, TextOk, Rewritten, KeysOk, KeyMade, Parsed, Unlines;
    if HandsOn(invite, body) {
      var drawn := seq(KEY_LEN, i => 0);
      var reply := Final(200, Sdp(Unlines([CANDIDATE])));
      var es := [Request(0, from, invite, body), Accept(0, None, drawn), Respond(0, reply, None)];
      HandedOnAnything(cfg, c, 0, from, invite, body, drawn, 200, reply.body);
      ForeignText(cfg, from, MadeIn(cfg, c, m, es).At(from));
      assert AskedAt(es, 0, 0);
      assert forall i | 0 <= i < |es| :: ValidEvent(es[i], false) && SdpAnswer(es[i]);
    } else {
      forall es: seq<Event>, k: nat, id: nat |
        && AskedAt(es, k, id) && es[k] == Request(id, from, invite, body) && id in Run(cfg, c, es).replied
        && Run(cfg, c, es).replied[id].sdp.Some?
        && (forall i | 0 <= i < |es| :: ValidEvent(es[i], false) && SdpAnswer(es[i]))
        ensures TextOk(cfg, Run(cfg, c, es).replied[id].sdp.value, from, MadeIn(cfg, c, m, es).At(from), false)
      {
        OffersOurs(cfg, c, m, offer, answer, offered, es, k, id);
      }
    }
  }

  lemma OffersOurs(cfg: Config, c: Call, m: Made, offer: string, answer: string, offered: Option<Crypto>,
                   es: seq<Event>, k: nat, id: nat)
    requires cfg.Valid() && ConnectedWith(cfg, c, offer, answer, offered)
    requires KeyMade(offered, m.callee) && KeysOk(c.sides, m)
    requires AskedAt(es, k, id) && !HandsOn(es[k].invite, es[k].body)
    requires forall i | 0 <= i < |es| :: ValidEvent(es[i], false) && SdpAnswer(es[i])
    requires id in Run(cfg, c, es).replied && Run(cfg, c, es).replied[id].sdp.Some?
    ensures TextOk(cfg, Run(cfg, c, es).replied[id].sdp.value, es[k].from, MadeIn(cfg, c, m, es).At(es[k].from), false)
  {
    hide Run, MadeIn, StoryOf, TextOk, CallOk, Rewritten, KeysOk, KeyMade, Parsed;
    EverythingSent(cfg, c, m, false, offer, answer, offered, es, k, id);
    if j: nat :| PassedBack(cfg, c, es, j, id, es[k].body) && Run(cfg, c, es).replied[id] ==
                                                              Reply(es[j].res.code, TextOf(es[j].res.body)) {
      assert SdpAnswer(es[j]);
      RunEntry(cfg, c, es, id);
      ResAt(cfg, c, es, id);
      FirstAsk(cfg, c, es, k, id);
    }
  }
}
