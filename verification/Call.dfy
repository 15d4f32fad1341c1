/** One call's own state and its handlers, as objects (internal/b2bua/call.go). */
module Call {
  import opened Basics
  import opened SdpCrypto
  import opened SdpParse
  import opened SdpRewrite
  import SdpDirection
  import SdpVersion
  import opened HoldAnswers
  import M = CallMachine
  import R = Relay

  type Leg = M.Leg

  class Call {
    const cfg: M.Config
    const relay: R.Relay
    var reinvite: bool
    var holdBy: M.Pair<bool>
    var sdpTo: M.Pair<string>

    constructor (cfg: M.Config, relay: R.Relay, sdpTo: M.Pair<string>)
      ensures this.cfg == cfg && this.relay == relay && this.sdpTo == sdpTo
      ensures !reinvite && holdBy == M.Pair(false, false)
    {
      this.cfg, this.relay, this.sdpTo := cfg, relay, sdpTo;
      reinvite, holdBy := false, M.Pair(false, false);
    }

    /** forward's test-and-set; a busy call answers 491. */
    method BeginReinvite() returns (busy: bool)
      modifies this`reinvite
      ensures busy == old(reinvite) && reinvite
    {
      busy := reinvite;
      reinvite := true;
    }

    /** handleHold: answer from the SDP the phone has, note who holds, and set the relay. */
    method HandleHold(from: Leg, info: Info, answerKey: Option<Crypto>) returns (reply: M.Reply)
      requires this as object != relay
      modifies this`holdBy, this`sdpTo, relay
      ensures var r := HoldAnswer(old(sdpTo.At(from)), cfg.TargetFor(from, answerKey), info);
              && reply == (if r.Ok? then M.Reply(200, Some(r.value)) else M.Reply(488, None))
              && (r.Err? ==> sdpTo == old(sdpTo) && holdBy == old(holdBy) && relay.State() == old(relay.State()))
              && (r.Ok? ==>
                && sdpTo == old(sdpTo).With(from, r.value)
                && holdBy == old(holdBy).With(from, info.OnHold())
                && relay.State() == RelayState(holdBy, from, cfg.music))
    {
      var holding := info.OnHold();
      var rewritten := Rewrite(sdpTo.At(from), cfg.TargetFor(from, answerKey));
      if rewritten.Err? { return M.Reply(488, None); }
      var dir := SdpDirection.AnswerDirection(info.direction);
      if info.addr.IsUnspecified() { dir := "inactive"; }
      var directed := SdpDirection.SetDirection(rewritten.value, dir);
      var answer := SdpVersion.BumpVersion(directed);
      sdpTo := sdpTo.With(from, answer);
      holdBy := holdBy.With(from, holding);
      if holdBy.caller || holdBy.callee {
        var holder := from;
        if !holding { holder := 1 - from; }
        relay.Resume();
        relay.Hold(holder, cfg.music);
      } else {
        relay.Resume();
      }
      return M.Reply(200, Some(answer));
    }
  }

  /** The relay after a hold or resume from a side: on hold, blocked, with music to the phone opposite the holder. */
  function RelayState(holdBy: M.Pair<bool>, from: Leg, music: bool): R.View {
    if !holdBy.caller && !holdBy.callee then R.OPEN
    else
      var other: Leg := 1 - from;
      R.Held(R.OPEN, if holdBy.At(from) then from else other, music)
  }

  /** The relay's stores of one hold re-INVITE: Resume's three, and Hold's three when the call is on hold. */
  function StoreEvents(id: nat, onHold: bool): seq<M.Event> {
    [M.Advance(id), M.Advance(id), M.Advance(id)]
    + if onHold then [M.Advance(id), M.Advance(id), M.Advance(id)] else []
  }

  /** The events of one hold re-INVITE handled without interruption, from its accepted offer to its reply. */
  function HoldEvents(id: nat, onHold: bool): seq<M.Event> {
    [M.Route(id), M.AnswerHold(id)] + StoreEvents(id, onHold) + [M.Advance(id)]
  }

  /** Resume's three stores. */
  lemma ResumeSteps(cfg: M.Config, c: M.Call, id: nat)
    requires id in c.work && c.work[id].Relaying? && c.work[id].stage == M.Stop
    ensures var d := M.OnAdvance(cfg, M.OnAdvance(cfg, M.OnAdvance(cfg, c, id), id), id);
            && d.blocked == d.playing == M.Pair(false, false) && d.holdBy == c.holdBy && d.sdpTo == c.sdpTo
            && id in d.work
            && d.work[id] == c.work[id].(stage := if c.work[id].holder.Some? then M.BlockHolder else M.Done)
  {}

  /** Hold's three. */
  lemma HoldSteps(cfg: M.Config, c: M.Call, id: nat)
    requires id in c.work && c.work[id].Relaying? && c.work[id].stage == M.BlockHolder && c.work[id].holder.Some?
    requires c.blocked == c.playing == M.Pair(false, false)
    ensures var d := M.OnAdvance(cfg, M.OnAdvance(cfg, M.OnAdvance(cfg, c, id), id), id);
            && R.View(d.blocked, d.playing) == R.Held(R.OPEN, c.work[id].holder.value, cfg.music)
            && d.holdBy == c.holdBy && d.sdpTo == c.sdpTo
            && id in d.work && d.work[id] == c.work[id].(stage := M.Done)
  {}

  /** The reply. */
  lemma LastStep(cfg: M.Config, c: M.Call, id: nat)
    requires id in c.work && c.work[id].Relaying? && c.work[id].stage == M.Done
    ensures M.OnAdvance(cfg, c, id) == c.Answer(id, M.Reply(200, Some(c.work[id].answer)))
  {}

  /** The answer to the hold or resume of an accepted re-INVITE. */
  function AnswerTo(cfg: M.Config, c: M.Call, w: M.Work): Result<string, ParseError>
    requires w.Accepted?
  {
    HoldAnswer(c.sdpTo.At(w.from), cfg.TargetFor(w.from, w.answerKey), w.info)
  }

  /** The phone opposite a holder hears music: from is the phone that just held or resumed. */
  function Holder(holdBy: M.Pair<bool>, from: Leg, holding: bool): Option<Leg> {
    var other: Leg := 1 - from;
    if !holdBy.caller && !holdBy.callee then None else Some(if holding then from else other)
  }

  /** The answer and the note who holds. */
  lemma BeginHold(cfg: M.Config, c: M.Call, id: nat, w: M.Work)
    requires id in c.work && c.work[id] == w && w.Accepted? && w.invite && (w.info.OnHold() || c.holdBy.At(w.from))
    requires AnswerTo(cfg, c, w).Ok?
    ensures var d := M.OnAnswerHold(M.OnRoute(cfg, c, id), id);
            var holdBy, answer := c.holdBy.With(w.from, w.info.OnHold()), AnswerTo(cfg, c, w).value;
            && d.sdpTo == c.sdpTo.With(w.from, answer) && d.holdBy == holdBy && id in d.work
            && d.work[id] == M.Relaying(w.from, true, answer, Holder(holdBy, w.from, w.info.OnHold()), M.Stop)
  {
    hide AnswerTo;
    RouteHold(cfg, c, id, w);
    NoteHolder(M.OnRoute(cfg, c, id), id, w, AnswerTo(cfg, c, w).value);
  }

  lemma RouteHold(cfg: M.Config, c: M.Call, id: nat, w: M.Work)
    requires id in c.work && c.work[id] == w && w.Accepted? && w.invite && (w.info.OnHold() || c.holdBy.At(w.from))
    requires AnswerTo(cfg, c, w).Ok?
    ensures var answer := AnswerTo(cfg, c, w).value;
            M.OnRoute(cfg, c, id) ==
            c.(sdpTo := c.sdpTo.With(w.from, answer),
               work := c.work[id := M.Holding(w.from, true, w.info.OnHold(), answer)])
  {
    hide HoldAnswer;
  }

  lemma NoteHolder(c: M.Call, id: nat, w: M.Work, answer: string)
    requires w.Accepted? && id in c.work && c.work[id] == M.Holding(w.from, true, w.info.OnHold(), answer)
    ensures var d := M.OnAnswerHold(c, id);
            var holdBy := c.holdBy.With(w.from, w.info.OnHold());
            && d.sdpTo == c.sdpTo && d.holdBy == holdBy && id in d.work
            && d.work[id] == M.Relaying(w.from, true, answer, Holder(holdBy, w.from, w.info.OnHold()), M.Stop)
  {}

  /** Resume's stores; then, on hold, Hold's. */
  lemma RelayStores(cfg: M.Config, c: M.Call, es: seq<M.Event>, id: nat)
    requires var b := M.Run(cfg, c, es); id in b.work && b.work[id].Relaying? && b.work[id].stage == M.Stop
    ensures var b := M.Run(cfg, c, es);
            var d := M.Run(cfg, c, es + StoreEvents(id, b.work[id].holder.Some?));
            && d.sdpTo == b.sdpTo && d.holdBy == b.holdBy && id in d.work && d.work[id] == b.work[id].(stage := M.Done)
            && R.View(d.blocked, d.playing)
               == (if b.work[id].holder.Some? then R.Held(R.OPEN, b.work[id].holder.value, cfg.music) else R.OPEN)
  {
    hide M.OnAdvance, R.Held, M.Run;
    var b, adv := M.Run(cfg, c, es), M.Advance(id);
    var es' := es + [adv, adv, adv];
    RunThree(cfg, c, es, adv);
    ResumeSteps(cfg, b, id);
    if b.work[id].holder.Some? {
      RunThree(cfg, c, es', adv);
      HoldSteps(cfg, M.Run(cfg, c, es'), id);
      assert es' + [adv, adv, adv] == es + StoreEvents(id, true);
    } else {
      assert es' == es + StoreEvents(id, false);
    }
  }

  /** The relay's stores and the reply. */
  lemma FinishHold(cfg: M.Config, c: M.Call, es: seq<M.Event>, id: nat)
    requires var b := M.Run(cfg, c, es); id in b.work && b.work[id].Relaying? && b.work[id].stage == M.Stop
    ensures var b := M.Run(cfg, c, es);
            var d := M.Run(cfg, c, es + StoreEvents(id, b.work[id].holder.Some?) + [M.Advance(id)]);
            && d.sdpTo == b.sdpTo && d.holdBy == b.holdBy
            && R.View(d.blocked, d.playing)
               == (if b.work[id].holder.Some? then R.Held(R.OPEN, b.work[id].holder.value, cfg.music) else R.OPEN)
            && id !in d.work && id in d.replied && d.replied[id] == M.Reply(200, Some(b.work[id].answer))
  {
    hide M.OnAdvance, R.Held, M.Run, StoreEvents;
    var stores := es + StoreEvents(id, M.Run(cfg, c, es).work[id].holder.Some?);
    RelayStores(cfg, c, es, id);
    LastStep(cfg, M.Run(cfg, c, stores), id);
    M.RunLast(cfg, c, stores, M.Advance(id));
  }

  /** The machine's steps, uninterrupted, do what HandleHold does. */
  lemma MachineHandlesHold(cfg: M.Config, c: M.Call, id: nat, w: M.Work)
    requires id in c.work && c.work[id] == w && w.Accepted? && w.invite && (w.info.OnHold() || c.holdBy.At(w.from))
    requires AnswerTo(cfg, c, w).Ok?
    ensures var holdBy, answer := c.holdBy.With(w.from, w.info.OnHold()), AnswerTo(cfg, c, w).value;
            var d := M.Run(cfg, c, HoldEvents(id, holdBy.caller || holdBy.callee));
            && d.sdpTo == c.sdpTo.With(w.from, answer)
            && d.holdBy == holdBy && R.View(d.blocked, d.playing) == RelayState(holdBy, w.from, cfg.music)
            && id !in d.work && id in d.replied && d.replied[id] == M.Reply(200, Some(answer))
  {
    hide AnswerTo, M.Run, StoreEvents, M.OnRoute, M.OnAnswerHold, R.Held;
    BeginHold(cfg, c, id, w);
    RunTwo(cfg, c, id);
    FinishHold(cfg, c, [M.Route(id), M.AnswerHold(id)], id);
    SameHolder(c.holdBy.With(w.from, w.info.OnHold()), w.from, w.info.OnHold());
  }

  lemma SameHolder(holdBy: M.Pair<bool>, from: Leg, holding: bool)
    requires holdBy.At(from) == holding
    ensures Holder(holdBy, from, holding) ==
            if !holdBy.caller && !holdBy.callee then None
            else var other: Leg := 1 - from; Some(if holdBy.At(from) then from else other)
  {}

  lemma RunTwo(cfg: M.Config, c: M.Call, id: nat)
    ensures M.Run(cfg, c, [M.Route(id), M.AnswerHold(id)]) == M.OnAnswerHold(M.OnRoute(cfg, c, id), id)
  {
    assert [M.Route(id)][..0] == [];
    M.RunLast(cfg, c, [M.Route(id)], M.AnswerHold(id));
    assert [M.Route(id)] + [M.AnswerHold(id)] == [M.Route(id), M.AnswerHold(id)];
  }

  lemma RunThree(cfg: M.Config, c: M.Call, es: seq<M.Event>, e: M.Event)
    ensures M.Run(cfg, c, es + [e, e, e]) == M.Step(cfg, M.Step(cfg, M.Step(cfg, M.Run(cfg, c, es), e), e), e)
  {
    hide M.Run, M.Step;
    M.RunLast(cfg, c, es, e);
    M.RunLast(cfg, c, es + [e], e);
    M.RunLast(cfg, c, es + [e] + [e], e);
    assert es + [e] + [e] + [e] == es + [e, e, e];
  }
}
