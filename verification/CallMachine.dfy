/**
 In-dialog requests of a connected call (forward and handleHold, internal/b2bua/call.go) as a state machine over
 atomic steps. Requests from both phones run at the same time; every interleaving of their steps is a run.
 */
module CallMachine {
  import opened Basics
  import opened Text
  import opened Netip
  import opened SdpCrypto
  import opened SdpParse
  import opened SdpRewrite
  import opened HoldAnswers
  import CC = CallCrypto
  import E = Endpoint

  /** A side of the call: 0 is the caller, 1 the callee. */
  type Leg = n: int | 0 <= n < 2

  datatype Pair<T> = Pair(caller: T, callee: T) {
    function At(i: Leg): T { if i == 0 then caller else callee }

    function With(i: Leg, x: T): (p: Pair<T>)
      ensures p.At(i) == x && p.At(1 - i) == At(1 - i)
    {
      if i == 0 then Pair(x, callee) else Pair(caller, x)
    }
  }

  datatype Config = Config(ip: Addr, ports: Pair<int>, music: bool) {
    ghost predicate Valid() {
      1 <= ports.caller < MAX_INT && 1 <= ports.callee < MAX_INT
    }

    function TargetFor(side: Leg, key: Option<Crypto>): Target { Target(ip, ports.At(side), key) }
  }

  /** A body: none, one labelled application/sdp, or one with another label (keypad digits in an INFO). */
  datatype Body = Empty | Sdp(text: string) | Opaque(text: string)

  function TextOf(b: Body): Option<string> {
    if b.Empty? then None else Some(b.text)
  }

  /** Where a request being handled stands. Hold stages are the separate stores of Resume and Hold. */
  datatype Stage = Stop | Open0 | Open1 | BlockHolder | BlockOther | Music | Done

  datatype Work =
    | Started(from: Leg, invite: bool, body: Body)
    | Accepted(from: Leg, invite: bool, text: string, info: Info, answerKey: Option<Crypto>)
    | Forwarded(from: Leg, invite: bool, sent: Body, answerKey: Option<Crypto>, offered: Option<Crypto>)
    | Answered(from: Leg, invite: bool, code: int, text: string, answerKey: Option<Crypto>)
    | Holding(from: Leg, invite: bool, holding: bool, answer: string)
    | Relaying(from: Leg, invite: bool, answer: string, holder: Option<Leg>, stage: Stage)

  /** A final reply to the phone that asked; any body it has is labelled SDP. */
  datatype Reply = Reply(code: int, sdp: Option<string>)

  /** The call's fields, the relay's flags and players, and the requests in progress or replied to. */
  datatype Call = Call(
    reinvite: bool, holdBy: Pair<bool>, sdpTo: Pair<string>, sides: Pair<CC.Side>,
    blocked: Pair<bool>, playing: Pair<bool>, work: map<nat, Work>, replied: map<nat, Reply>)
  {
    function OnHold(): bool { holdBy.caller || holdBy.callee }

    function Put(id: nat, w: Work): Call { this.(work := work[id := w]) }

    /** The final reply; a re-INVITE gives up its turn. */
    function Answer(id: nat, r: Reply): Call
      requires id in work
    {
      this.(work := work - {id}, replied := replied[id := r], reinvite := reinvite && !work[id].invite)
    }

    function Refuse(id: nat, code: int): Call
      requires id in work
    {
      Answer(id, Reply(code, None))
    }
  }

  /** The other phone's answer to a forwarded request. */
  datatype Response = Timeout | Final(code: int, body: Body)

  datatype Event =
    | Request(id: nat, from: Leg, invite: bool, body: Body)
    | Accept(id: nat, signal: Option<Addr>, drawn: seq<Byte>)
    | Route(id: nat)
    | Respond(id: nat, res: Response, source: Option<Addr>)
    | Deliver(id: nat)
    | AnswerHold(id: nat)
    | Advance(id: nat)

  // ---- the steps ----

  /** A re-INVITE while another is in progress is refused with 491; anything else starts. */
  function OnRequest(c: Call, id: nat, from: Leg, invite: bool, body: Body): Call {
    if id in c.work || id in c.replied then c
    else if invite && c.reinvite then c.(replied := c.replied[id := Reply(491, None)])
    else c.(reinvite := c.reinvite || invite, work := c.work[id := Started(from, invite, body)])
  }

  /** Parse, SetRemote and acceptOffer; an offerless re-INVITE is answered with the SDP the phone has. */
  function OnAccept(c: Call, id: nat, signal: Option<Addr>, drawn: seq<Byte>): Call {
    if id !in c.work || !c.work[id].Started? then c
    else
      var w := c.work[id];
      match w.body
      case Empty =>
        if w.invite then c.Answer(id, Reply(200, Some(c.sdpTo.At(w.from))))
        else c.Put(id, Forwarded(w.from, false, Empty, None, None))
      case Opaque(_) => c.Put(id, Forwarded(w.from, w.invite, w.body, None, None))
      case Sdp(text) =>
        (match Parsed(text)
         case Err(_) => c.Refuse(id, 488)
         case Ok(info) =>
           var s := c.sides.At(w.from);
           var (s', r) := CC.AcceptedOffer(s.(leg := E.Remoted(s.leg, info, signal)), info, drawn);
           var c' := c.(sides := c.sides.With(w.from, s'));
           match r
           case None => c'.Refuse(id, 488)
           case Some(answerKey) => c'.Put(id, Accepted(w.from, w.invite, text, info, answerKey)))
  }

  /** Hold and resume are answered here; other offers go on to the other phone, rewritten for it. */
  function OnRoute(cfg: Config, c: Call, id: nat): Call {
    if id !in c.work || !c.work[id].Accepted? then c
    else
      var w := c.work[id];
      var to: Leg := 1 - w.from;
      if w.invite && (w.info.OnHold() || c.holdBy.At(w.from)) then
        match HoldAnswer(c.sdpTo.At(w.from), cfg.TargetFor(w.from, w.answerKey), w.info)
        case Err(_) => c.Refuse(id, 488)
        case Ok(answer) =>
          c.(sdpTo := c.sdpTo.With(w.from, answer)).Put(id, Holding(w.from, true, w.info.OnHold(), answer))
      else
        var offered := CC.OfferKey(c.sides.At(to));
        match Rewritten(w.text, cfg.TargetFor(to, offered))
        case Err(_) => c.Refuse(id, 488)
        case Ok(body) =>
          var c' := if w.invite then c.(sdpTo := c.sdpTo.With(to, body)) else c;
          c'.Put(id, Forwarded(w.from, w.invite, Sdp(body), w.answerKey, offered))
  }

  /**
   The other phone answered an offer of ours: its SDP is taken in, whatever the status and whether or not its key is
   usable. Any other body goes back as it is.
   */
  function OnRespond(c: Call, id: nat, res: Response, source: Option<Addr>): Call {
    if id !in c.work || !c.work[id].Forwarded? then c
    else
      var w := c.work[id];
      var to: Leg := 1 - w.from;
      match res
      case Timeout => c.Refuse(id, 408)
      case Final(code, body) =>
        if !body.Sdp? || !w.sent.Sdp? then c.Answer(id, Reply(code, TextOf(body)))
        else
          var c' := match Parsed(body.text)
            case Err(_) => c
            case Ok(info) =>
              var s := c.sides.At(to);
              c.(sides := c.sides.With(
                  to, CC.AcceptedAnswer(s.(leg := E.Remoted(s.leg, info, source)), info, w.offered).0));
          c'.Put(id, Answered(w.from, w.invite, code, body.text, w.answerKey))
  }

  function OnDeliver(cfg: Config, c: Call, id: nat): Call {
    if id !in c.work || !c.work[id].Answered? then c
    else
      var w := c.work[id];
      match Rewritten(w.text, cfg.TargetFor(w.from, w.answerKey))
      case Err(_) => c.Refuse(id, 488)
      case Ok(body) =>
        (if w.invite then c.(sdpTo := c.sdpTo.With(w.from, body)) else c).Answer(id, Reply(w.code, Some(body)))
  }

  /** handleHold: note who holds, and go on to the relay. */
  function OnAnswerHold(c: Call, id: nat): Call {
    if id !in c.work || !c.work[id].Holding? then c
    else
      var w := c.work[id];
      var c' := c.(holdBy := c.holdBy.With(w.from, w.holding));
      var other: Leg := 1 - w.from;
      var holder := if !c'.OnHold() then None else Some(if w.holding then w.from else other);
      c'.Put(id, Relaying(w.from, w.invite, w.answer, holder, Stop))
  }

  /** One store of Resume, then of Hold. */
  function OnAdvance(cfg: Config, c: Call, id: nat): Call {
    if id !in c.work || !c.work[id].Relaying? then c
    else
      var w := c.work[id];
      match w.stage
      case Stop => c.(playing := Pair(false, false)).Put(id, w.(stage := Open0))
      case Open0 => c.(blocked := c.blocked.With(0, false)).Put(id, w.(stage := Open1))
      case Open1 =>
        c.(blocked := c.blocked.With(1, false)).Put(id, w.(stage := if w.holder.Some? then BlockHolder else Done))
      case BlockHolder =>
        if w.holder.None? then c
            else c.(blocked := c.blocked.With(w.holder.value, true)).Put(id, w.(stage := BlockOther))
      case BlockOther =>
        if w.holder.None? then c
        else
          var other: Leg := 1 - w.holder.value;
          c.(blocked := c.blocked.With(other, true)).Put(id, w.(stage := Music))
      case Music =>
        if w.holder.None? then c
        else
          var other: Leg := 1 - w.holder.value;
          (if !c.playing.At(other) && cfg.music then c.(playing := c.playing.With(other, true)) else c)
          .Put(id, w.(stage := Done))
      case Done => c.Answer(id, Reply(200, Some(w.answer)))
  }

  function Step(cfg: Config, c: Call, e: Event): Call {
    match e
    case Request(id, from, invite, body) => OnRequest(c, id, from, invite, body)
    case Accept(id, signal, drawn) => OnAccept(c, id, signal, drawn)
    case Route(id) => OnRoute(cfg, c, id)
    case Respond(id, res, source) => OnRespond(c, id, res, source)
    case Deliver(id) => OnDeliver(cfg, c, id)
    case AnswerHold(id) => OnAnswerHold(c, id)
    case Advance(id) => OnAdvance(cfg, c, id)
  }

  function Run(cfg: Config, c: Call, es: seq<Event>): Call {
    if es == [] then c else Step(cfg, Run(cfg, c, es[..|es| - 1]), es[|es| - 1])
  }

  /** The call as connect leaves it. */
  ghost predicate Connected(c: Call) {
    && !c.reinvite && c.work == map[] && c.replied == map[]
    && c.holdBy == c.blocked == c.playing == Pair(false, false)
  }

  // ---- one re-INVITE at a time ----

  ghost predicate Exclusive(c: Call) {
    && (forall i, j | i in c.work && j in c.work && c.work[i].invite && c.work[j].invite :: i == j)
    && (c.reinvite <==> exists i :: i in c.work && c.work[i].invite)
    && (forall i | i in c.work && (c.work[i].Holding? || c.work[i].Relaying?) :: c.work[i].invite)
    && c.work.Keys !! c.replied.Keys
  }

  /** A step of one request changes that request's entry only: it moves on, or is replied to. */
  ghost predicate Moves(c: Call, d: Call, id: nat) {
    && id in c.work && id in d.work && d.work == c.work[id := d.work[id]]
    && d.work[id].invite == c.work[id].invite && d.reinvite == c.reinvite && d.replied == c.replied
  }

  ghost predicate Replies(c: Call, d: Call, id: nat) {
    && id in c.work && d.work == c.work - {id} && d.reinvite == (c.reinvite && !c.work[id].invite)
    && id in d.replied && d.replied == c.replied[id := d.replied[id]]
  }

  lemma MovesExclusive(c: Call, d: Call, id: nat)
    requires Exclusive(c) && Moves(c, d, id)
    requires d.work[id].Holding? || d.work[id].Relaying? ==> d.work[id].invite
    ensures Exclusive(d)
  {
    assert d.work.Keys == c.work.Keys;
    if c.reinvite {
      var i :| i in c.work && c.work[i].invite;
      assert i in d.work && d.work[i].invite;
    }
  }

  lemma RepliesExclusive(c: Call, d: Call, id: nat)
    requires Exclusive(c) && Replies(c, d, id)
    ensures Exclusive(d)
  {
    if !c.work[id].invite && c.reinvite {
      var i :| i in c.work && c.work[i].invite;
      assert i in d.work && d.work[i].invite;
    }
  }

  lemma RequestExclusive(c: Call, id: nat, from: Leg, invite: bool, body: Body)
    requires Exclusive(c)
    ensures Exclusive(OnRequest(c, id, from, invite, body))
  {
    var d := OnRequest(c, id, from, invite, body);
    if id !in c.work && id !in c.replied && !(invite && c.reinvite) {
      assert d.work[id].invite == invite;
      if c.reinvite {
        var i :| i in c.work && c.work[i].invite;
        assert i in d.work && d.work[i].invite;
      }
    }
  }

  ghost predicate SameHold(c: Call, d: Call) {
    d.holdBy == c.holdBy && d.blocked == c.blocked && d.playing == c.playing
  }

  /** The step of one request: nothing, a move or a reply; only the hold stages of a re-INVITE touch hold. */
  ghost predicate OwnStep(c: Call, d: Call, id: nat, hold: bool) {
    && (d == c || Replies(c, d, id) ||
        (Moves(c, d, id) && (d.work[id].Holding? || d.work[id].Relaying? ==> d.work[id].invite)))
    && (!hold ==>
           SameHold(c, d)
           && (d != c ==> id in c.work && !c.work[id].Relaying? && (id in d.work ==> !d.work[id].Relaying?)))
  }

  lemma {:induction false} AcceptStep(c: Call, id: nat, signal: Option<Addr>, drawn: seq<Byte>)
    requires Exclusive(c)
    ensures OwnStep(c, OnAccept(c, id, signal, drawn), id, false)
  {
    hide Parsed, E.Remoted, CC.AcceptedOffer, Exclusive;
  }

  lemma {:induction false} RouteStep(cfg: Config, c: Call, id: nat)
    requires Exclusive(c)
    ensures OwnStep(c, OnRoute(cfg, c, id), id, false)
  {
    hide Rewritten, HoldAnswer, CC.OfferKey;
  }

  lemma {:induction false} RespondStep(c: Call, id: nat, res: Response, source: Option<Addr>)
    requires Exclusive(c)
    ensures OwnStep(c, OnRespond(c, id, res, source), id, false)
  {
    hide Parsed, E.Remoted, CC.AcceptedAnswer;
  }

  lemma {:induction false} DeliverStep(cfg: Config, c: Call, id: nat)
    requires Exclusive(c)
    ensures OwnStep(c, OnDeliver(cfg, c, id), id, false)
  {
    hide Rewritten;
  }

  lemma AnswerHoldStep(c: Call, id: nat)
    requires Exclusive(c)
    ensures OwnStep(c, OnAnswerHold(c, id), id, true)
  {
    hide SameHold;
  }

  lemma AdvanceStep(cfg: Config, c: Call, id: nat)
    requires Exclusive(c)
    ensures OwnStep(c, OnAdvance(cfg, c, id), id, true)
  {
    hide SameHold;
  }

  lemma StepChanges(cfg: Config, c: Call, e: Event)
    requires !e.Request? && Exclusive(c)
    ensures OwnStep(c, Step(cfg, c, e), e.id, e.AnswerHold? || e.Advance?)
  {
    match e
    case Accept(id, signal, drawn) => AcceptStep(c, id, signal, drawn);
    case Route(id) => RouteStep(cfg, c, id);
    case Respond(id, res, source) => RespondStep(c, id, res, source);
    case Deliver(id) => DeliverStep(cfg, c, id);
    case AnswerHold(id) => AnswerHoldStep(c, id);
    case Advance(id) => AdvanceStep(cfg, c, id);
  }

  lemma StepExclusive(cfg: Config, c: Call, e: Event)
    requires Exclusive(c)
    ensures Exclusive(Step(cfg, c, e))
  {
    var d := Step(cfg, c, e);
    if e.Request? {
      RequestExclusive(c, e.id, e.from, e.invite, e.body);
    } else {
      StepChanges(cfg, c, e);
      if d != c && Replies(c, d, e.id) {
        RepliesExclusive(c, d, e.id);
      } else if d != c {
        MovesExclusive(c, d, e.id);
      }
    }
  }

  lemma {:induction false} RunExclusive(cfg: Config, c: Call, es: seq<Event>)
    requires Connected(c)
    ensures Exclusive(Run(cfg, c, es))
  {
    if es != [] {
      RunExclusive(cfg, c, es[..|es| - 1]);
      StepExclusive(cfg, Run(cfg, c, es[..|es| - 1]), es[|es| - 1]);
    }
  }

  /** A reply once given stands, and its request is never worked on again. */
  ghost predicate RepliesStand(c: Call, d: Call) {
    forall i | i in c.replied :: i in d.replied && d.replied[i] == c.replied[i] && i !in d.work
  }

  lemma StepReplies(cfg: Config, c: Call, e: Event)
    requires Exclusive(c)
    ensures RepliesStand(c, Step(cfg, c, e))
  {
    hide OnAccept, OnRoute, OnRespond, OnDeliver, OnAnswerHold, OnAdvance;
    if !e.Request? { StepChanges(cfg, c, e); }
  }

  lemma {:induction false} RunConcat(cfg: Config, c: Call, es: seq<Event>, more: seq<Event>)
    ensures Run(cfg, c, es + more) == Run(cfg, Run(cfg, c, es), more)
  {
    if more == [] {
      assert es + more == es;
    } else {
      RunConcat(cfg, c, es, more[..|more| - 1]);
      assert (es + more)[..|es + more| - 1] == es + more[..|more| - 1];
    }
  }

  lemma {:induction false} RunReplies(cfg: Config, c: Call, es: seq<Event>, more: seq<Event>)
    requires Connected(c)
    ensures RepliesStand(Run(cfg, c, es), Run(cfg, c, es + more))
  {
    hide Step;
    if more == [] {
      assert es + more == es;
      RunExclusive(cfg, c, es);
    } else {
      var init := more[..|more| - 1];
      RunReplies(cfg, c, es, init);
      RunExclusive(cfg, c, es + init);
      assert (es + more)[..|es + more| - 1] == es + init;
      StepReplies(cfg, Run(cfg, c, es + init), more[|more| - 1]);
    }
  }

  lemma {:induction false} Asked(c: Call, id: nat, from: Leg, invite: bool, body: Body)
    requires Exclusive(c)
    ensures var d := OnRequest(c, id, from, invite, body);
            id !in c.work && id !in c.replied ==>
              if invite && (exists i :: i in c.work && c.work[i].invite) then
                id in d.replied && d.replied[id] == Reply(491, None) && d.work == c.work
              else d.work == c.work[id := Started(from, invite, body)] && d.replied == c.replied
  {}

  lemma RunLast(cfg: Config, c: Call, es: seq<Event>, e: Event)
    ensures Run(cfg, c, es + [e]) == Step(cfg, Run(cfg, c, es), e)
  {
    assert (es + [e])[..|es|] == es;
  }

  /**
   In every run at most one re-INVITE is in progress, and the flag says whether there is one; a re-INVITE that arrives
   meanwhile, and only such a one, is answered 491 at once; and no reply is ever taken back or given again.
   */
  lemma {:induction false} OneReinvite(cfg: Config, c: Call, es: seq<Event>, more: seq<Event>, id: nat, from: Leg,
      invite: bool, body: Body)
    requires Connected(c)
    ensures var b := Run(cfg, c, es);
            Exclusive(b) && RepliesStand(b, Run(cfg, c, es + more))
    ensures var b := Run(cfg, c, es);
            var d := Run(cfg, c, es + [Request(id, from, invite, body)]);
            id !in b.work && id !in b.replied ==>
              if invite && (exists i :: i in b.work && b.work[i].invite) then
                id in d.replied && d.replied[id] == Reply(491, None) && d.work == b.work
              else d.work == b.work[id := Started(from, invite, body)] && d.replied == b.replied
  {
    hide Run, Exclusive, RepliesStand, OnRequest;
    RunExclusive(cfg, c, es);
    RunReplies(cfg, c, es, more);
    RunLast(cfg, c, es, Request(id, from, invite, body));
    Asked(Run(cfg, c, es), id, from, invite, body);
  }

  // ---- hold ----

  ghost predicate NonePlaying(c: Call) { c.playing == Pair(false, false) }

  /** Media is blocked both ways exactly on hold; then music plays once, to the phone opposite a holder. */
  ghost predicate Settled(cfg: Config, c: Call) {
    && c.blocked.caller == c.blocked.callee == c.OnHold()
    && if cfg.music && c.OnHold() then HeardBy(c, 0) || HeardBy(c, 1) else NonePlaying(c)
  }

  ghost predicate HeardBy(c: Call, leg: Leg) {
    var other: Leg := 1 - leg;
    c.playing.At(leg) && !c.playing.At(other) && c.holdBy.At(other)
  }

  /** What the stores made so far guarantee. */
  ghost predicate StageOk(cfg: Config, c: Call, w: Work)
    requires w.Relaying?
  {
    && (w.holder.Some? == c.OnHold()) && (w.holder.Some? ==> c.holdBy.At(w.holder.value))
    && match w.stage
       case Stop => true
       case Open0 => NonePlaying(c)
       case Open1 => NonePlaying(c) && !c.blocked.caller
       case BlockHolder => w.holder.Some? && NonePlaying(c) && !c.blocked.caller && !c.blocked.callee
       case BlockOther => w.holder.Some? && NonePlaying(c) && c.blocked.At(w.holder.value)
       case Music => w.holder.Some? && NonePlaying(c) && c.blocked.caller && c.blocked.callee
       case Done => Settled(cfg, c)
  }

  ghost predicate HoldOk(cfg: Config, c: Call) {
    && Exclusive(c)
    && (forall i | i in c.work && c.work[i].Relaying? :: StageOk(cfg, c, c.work[i]))
    && ((forall i | i in c.work :: !c.work[i].Relaying?) ==> Settled(cfg, c))
  }

  /** Steps outside the relay stages leave hold alone. */
  lemma QuietStep(cfg: Config, c: Call, e: Event)
    requires HoldOk(cfg, c) && !e.Advance? && !e.AnswerHold?
    ensures var d := Step(cfg, c, e);
            SameHold(c, d) && forall i | i in d.work && d.work[i].Relaying? :: i in c.work && d.work[i] == c.work[i]
    ensures var d := Step(cfg, c, e);
            forall i | i in c.work && c.work[i].Relaying? :: i in d.work && d.work[i] == c.work[i]
  {
    hide Exclusive, Parsed;
    if !e.Request? { StepChanges(cfg, c, e); }
  }

  lemma QuietHold(cfg: Config, c: Call, d: Call)
    requires HoldOk(cfg, c) && Exclusive(d) && SameHold(c, d)
    requires forall i | i in d.work && d.work[i].Relaying? :: i in c.work && d.work[i] == c.work[i]
    requires forall i | i in c.work && c.work[i].Relaying? :: i in d.work && d.work[i] == c.work[i]
    ensures HoldOk(cfg, d)
  {
    if forall i | i in d.work :: !d.work[i].Relaying? {
      assert forall i | i in c.work :: !c.work[i].Relaying?;
    }
  }

  lemma AnswerHoldOk(cfg: Config, c: Call, id: nat)
    requires HoldOk(cfg, c) && Exclusive(OnAnswerHold(c, id))
    ensures HoldOk(cfg, OnAnswerHold(c, id))
  {
    if id in c.work && c.work[id].Holding? {
      var d := OnAnswerHold(c, id);
      assert d.work[id].Relaying? && d.work[id].stage == Stop;
      forall i | i in d.work && d.work[i].Relaying? ensures i == id { assert d.work[i].invite && d.work[id].invite; }
    }
  }

  /** One store at a time, the relay reaches the settled state. */
  lemma AdvanceStage(cfg: Config, c: Call, id: nat)
    requires id in c.work && c.work[id].Relaying? && StageOk(cfg, c, c.work[id])
    ensures var d := OnAdvance(cfg, c, id);
            if c.work[id].stage == Done then id !in d.work && Settled(cfg, d)
            else id in d.work && d.work[id].Relaying? && StageOk(cfg, d, d.work[id])
  {
    var w := c.work[id];
    if w.stage == Music {
      var d := OnAdvance(cfg, c, id);
      var other: Leg := 1 - w.holder.value;
      assert cfg.music ==> HeardBy(d, other);
    }
  }

  lemma AdvanceOk(cfg: Config, c: Call, id: nat)
    requires HoldOk(cfg, c) && Exclusive(OnAdvance(cfg, c, id))
    ensures HoldOk(cfg, OnAdvance(cfg, c, id))
  {
    if id in c.work && c.work[id].Relaying? {
      var d := OnAdvance(cfg, c, id);
      AdvanceStage(cfg, c, id);
      forall i | i in d.work && d.work[i].Relaying? ensures i == id {
        assert i in c.work && c.work[i].Relaying? && c.work[i].invite && c.work[id].invite;
      }
    }
  }

  /**
   Hold safety, in every interleaving of re-INVITEs and other requests from both phones: whenever no re-INVITE is
   in progress, media is blocked in both directions if and only if a phone has the call on hold, and with music
   configured exactly one player runs on hold, to the phone opposite one that holds.
   */
  lemma {:induction false} HoldSafety(cfg: Config, c: Call, es: seq<Event>)
    requires Connected(c)
    ensures HoldOk(cfg, Run(cfg, c, es))
    ensures !Run(cfg, c, es).reinvite ==> Settled(cfg, Run(cfg, c, es))
  {
    RunExclusive(cfg, c, es);
    if es != [] {
      var b, e := Run(cfg, c, es[..|es| - 1]), es[|es| - 1];
      HoldSafety(cfg, c, es[..|es| - 1]);
      if e.AnswerHold? {
        AnswerHoldOk(cfg, b, e.id);
      } else if e.Advance? {
        AdvanceOk(cfg, b, e.id);
      } else {
        QuietStep(cfg, b, e);
        QuietHold(cfg, b, Step(cfg, b, e));
      }
    }
    var d := Run(cfg, c, es);
    if !d.reinvite {
      assert forall i | i in d.work :: !d.work[i].Relaying?;
    }
  }
}
