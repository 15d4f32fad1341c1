/**
 The SDP recorded as last sent to each phone (sdpTo, internal/b2bua/call.go:391-509) in every run of a connected call:
 which request and answer it comes from, whether that exchange succeeded, and whether the key in it is still in use.
 */
module LastSdp {
  import opened Basics
  import opened Text
  import opened SdpCrypto
  import opened SdpParse
  import opened SdpRewrite
  import opened RewriteMeaning
  import opened AudioChoice
  import opened HoldAnswers
  import opened CallMachine
  import opened CallText
  import opened CallStory
  import CC = CallCrypto
  import K = CallKeys

  // ---- who wrote it ----

  /** What an event records for a side: the SDP it sends there, and the key it was written with. */
  datatype Record = Record(text: string, key: Option<Crypto>)

  function RecordOf(r: Result<string, ParseError>, key: Option<Crypto>): Option<Record> {
    if r.Ok? then Some(Record(r.value, key)) else None
  }

  /** Route records the answer to hold or an offer sent on, Deliver an answer sent back; only for re-INVITEs. */
  function Records(cfg: Config, b: Call, e: Event, side: Leg): Option<Record> {
    if e.Route? && e.id in b.work && b.work[e.id].Accepted? then
      var w := b.work[e.id];
      if IsHold(b, w) then
        if w.from != side then None
        else RecordOf(HoldAnswer(b.sdpTo.At(side), cfg.TargetFor(side, w.answerKey), w.info), w.answerKey)
      else if !w.invite || w.from == side then None
      else
        var offered := CC.OfferKey(b.sides.At(side));
        RecordOf(Rewritten(w.text, cfg.TargetFor(side, offered)), offered)
    else if e.Deliver? && e.id in b.work && b.work[e.id].Answered? then
      var w := b.work[e.id];
      if !w.invite || w.from != side then None
      else RecordOf(Rewritten(w.text, cfg.TargetFor(side, w.answerKey)), w.answerKey)
    else None
  }

  lemma RecordsSdp(cfg: Config, b: Call, e: Event, side: Leg)
    ensures var r := Records(cfg, b, e, side);
            Step(cfg, b, e).sdpTo.At(side) == if r.Some? then r.value.text else b.sdpTo.At(side)
  {
    hide Rewritten, HoldAnswer, IsHold, CC.OfferKey, OnRoute, Parsed;
    if e.Route? {
      if !(e.id in b.work && b.work[e.id].Accepted?) {
        NoRoute(cfg, b, e.id);
      } else if IsHold(b, b.work[e.id]) {
        HoldRoutes(cfg, b, e.id);
      } else {
        OfferRoutes(cfg, b, e.id);
      }
    } else if !e.Deliver? {
      OtherSdp(cfg, b, e);
    }
  }

  predicate RecordedAt(cfg: Config, c: Call, es: seq<Event>, k: nat, side: Leg) {
    k < |es| && Records(cfg, Run(cfg, c, es[..k]), es[k], side).Some?
  }

  predicate LastRecord(cfg: Config, c: Call, es: seq<Event>, k: nat, side: Leg) {
    RecordedAt(cfg, c, es, k, side) && forall i | k < i < |es| :: !RecordedAt(cfg, c, es, i, side)
  }

  lemma RecordedEarlier(cfg: Config, c: Call, es: seq<Event>, k: nat, side: Leg)
    requires es != [] && k < |es| - 1
    ensures RecordedAt(cfg, c, es, k, side) <==> RecordedAt(cfg, c, es[..|es| - 1], k, side)
  {
    hide Run, Records;
    assert es[..|es| - 1][..k] == es[..k];
  }

  lemma LastEarlier(cfg: Config, c: Call, es: seq<Event>, k: nat, side: Leg)
    requires es != [] && k < |es| - 1 && LastRecord(cfg, c, es, k, side)
    ensures LastRecord(cfg, c, es[..|es| - 1], k, side) && !RecordedAt(cfg, c, es, |es| - 1, side)
  {
    hide RecordedAt;
    var init := es[..|es| - 1];
    RecordedEarlier(cfg, c, es, k, side);
    forall i | k < i < |init| ensures !RecordedAt(cfg, c, init, i, side) { RecordedEarlier(cfg, c, es, i, side); }
  }

  // ---- the request it comes from ----

  /** Once id has written a side's SDP: as an offer sent on to it, an answer to its hold, or an answer sent back. */
  predicate Wrote(d: Call, side: Leg, id: nat, s: Story) {
    && s.ask.Some? && s.ask.value.Request? && s.ask.value.invite && s.ask.value.body.Sdp?
    && var text := d.sdpTo.At(side);
       if s.ask.value.from != side then s.course == SentOn(Sdp(text))
       else
         || s.course == Held(text)
         || (s.course.SentOn? && s.res.Some? && s.res.value.Final? && s.res.value.body.Sdp?
             && Parsed(s.res.value.body.text).Ok?
             && id in d.replied && d.replied[id] == Reply(s.res.value.code, Some(text)))
  }

  lemma RouteWrote(cfg: Config, b: Call, id: nat, side: Leg, s: Story)
    requires Exclusive(b) && Entry(b, id, s) && Records(cfg, b, Route(id), side).Some?
    ensures var d := Step(cfg, b, Route(id)); Wrote(d, side, id, Told(b, d, Route(id), id, s))
  {
    hide Rewritten, HoldAnswer, CC.OfferKey, OnRoute, Parsed, ReplyTold;
    if IsHold(b, b.work[id]) {
      HoldRoutes(cfg, b, id);
    } else {
      OfferRoutes(cfg, b, id);
    }
  }

  lemma DeliverWrote(cfg: Config, b: Call, id: nat, side: Leg, s: Story)
    requires Exclusive(b) && Entry(b, id, s) && Records(cfg, b, Deliver(id), side).Some?
    ensures var d := Step(cfg, b, Deliver(id)); Wrote(d, side, id, Told(b, d, Deliver(id), id, s))
  {
    hide Rewritten, Parsed, ReplyTold;
    var w := b.work[id];
    RewriteFailsWithParse(w.text, cfg.TargetFor(w.from, w.answerKey));
  }

  /** A later event that does not record for that side leaves it so. */
  lemma WroteStands(cfg: Config, b: Call, e: Event, side: Leg, id: nat, s: Story)
    requires Exclusive(b) && Wrote(b, side, id, s) && Records(cfg, b, e, side).None?
    ensures Wrote(Step(cfg, b, e), side, id, Told(b, Step(cfg, b, e), e, id, s))
  {
    hide Step, Exclusive, Records;
    RecordsSdp(cfg, b, e, side);
    StepReplies(cfg, b, e);
  }

  lemma {:induction false} LastWrote(cfg: Config, c: Call, es: seq<Event>, k: nat, side: Leg)
    requires Connected(c) && LastRecord(cfg, c, es, k, side)
    ensures Wrote(Run(cfg, c, es), side, es[k].id, StoryOf(cfg, c, es, es[k].id))
    ensures Run(cfg, c, es).sdpTo.At(side) == Records(cfg, Run(cfg, c, es[..k]), es[k], side).value.text
  {
    hide Step, Records, Wrote, Entry, Exclusive, Told;
    var init, n := es[..|es| - 1], |es| - 1;
    var b, id := Run(cfg, c, init), es[k].id;
    RunExclusive(cfg, c, init);
    RecordsSdp(cfg, b, es[n], side);
    if k < n {
      LastEarlier(cfg, c, es, k, side);
      LastWrote(cfg, c, init, k, side);
      assert init[..k] == es[..k] && es[..n] == init;
      WroteStands(cfg, b, es[n], side, id, StoryOf(cfg, c, init, id));
    } else {
      RunEntry(cfg, c, init, id);
      WroteNow(cfg, b, es[n], side, StoryOf(cfg, c, init, id));
    }
  }

  lemma WroteNow(cfg: Config, b: Call, e: Event, side: Leg, s: Story)
    requires Exclusive(b) && Entry(b, e.id, s) && Records(cfg, b, e, side).Some?
    ensures Wrote(Step(cfg, b, e), side, e.id, Told(b, Step(cfg, b, e), e, e.id, s))
  {
    hide Step, Exclusive, Entry, Told, Wrote;
    if e.Route? {
      RouteWrote(cfg, b, e.id, side, s);
    } else {
      DeliverWrote(cfg, b, e.id, side, s);
    }
  }

  /** Some event was the last to record for a side, or none ever did. */
  lemma {:induction false} RecordedOrNever(cfg: Config, c: Call, es: seq<Event>, side: Leg)
    ensures (exists k: nat :: LastRecord(cfg, c, es, k, side))
            || forall k: nat | k < |es| :: !RecordedAt(cfg, c, es, k, side)
  {
    hide Run, Records;
    if es != [] {
      var init, n := es[..|es| - 1], |es| - 1;
      if RecordedAt(cfg, c, es, n, side) {
        assert LastRecord(cfg, c, es, n, side);
      } else {
        RecordedOrNever(cfg, c, init, side);
        forall i: nat | i < n ensures RecordedAt(cfg, c, es, i, side) <==> RecordedAt(cfg, c, init, i, side) {
          RecordedEarlier(cfg, c, es, i, side);
        }
        if k: nat :| LastRecord(cfg, c, init, k, side) { assert LastRecord(cfg, c, es, k, side); }
      }
    }
  }

  lemma {:induction false} NeverRecorded(cfg: Config, c: Call, es: seq<Event>, side: Leg)
    requires forall k | 0 <= k < |es| :: !RecordedAt(cfg, c, es, k, side)
    ensures Run(cfg, c, es).sdpTo.At(side) == c.sdpTo.At(side)
  {
    hide Step, Records;
    if es != [] {
      var init, n := es[..|es| - 1], |es| - 1;
      forall k | 0 <= k < |init| ensures !RecordedAt(cfg, c, init, k, side) { RecordedEarlier(cfg, c, es, k, side); }
      NeverRecorded(cfg, c, init, side);
      assert !RecordedAt(cfg, c, es, n, side) && es[..n] == init;
      RecordsSdp(cfg, Run(cfg, c, init), es[n], side);
    }
  }

  // ---- whether the exchange succeeded ----

  predicate Success(code: int) { 200 <= code < 300 }

  /** The other phone answered 2xx, without SDP or with SDP that Parse reads. */
  predicate EndsWell(res: Response) {
    res.Final? && Success(res.code) && (res.body.Sdp? ==> Parsed(res.body.text).Ok?)
  }

  /** The story of a writer at rest. */
  lemma WroteEnded(d: Call, side: Leg, id: nat, s: Story)
    requires Exclusive(d) && !d.reinvite && Entry(d, id, s) && Wrote(d, side, id, s)
    ensures id in d.replied && (Success(d.replied[id].code) <==> s.res.None? || EndsWell(s.res.value))
    ensures s.res.None? ==> s.course.Held? && d.replied[id] == Reply(200, Some(d.sdpTo.At(side)))
    ensures s.res.Some? && s.ask.value.from == side ==> d.replied[id].sdp == Some(d.sdpTo.At(side))
  {
    hide Parsed;
    if id in d.work {
      NoneAtRest(d, id);
      assert false;
    }
  }

  lemma NoneAtRest(d: Call, id: nat)
    requires Exclusive(d) && !d.reinvite && id in d.work
    ensures !d.work[id].invite
  {}

  /**
   Whenever no re-INVITE is in progress, the exchange a side's SDP was last recorded in has its final reply, and that
   is a 2xx if and only if the other phone, when it was asked at all, answered 2xx with no SDP or with SDP Parse reads.
   */
  lemma RecordedIff(cfg: Config, c: Call, es: seq<Event>, k: nat, side: Leg, a: nat)
    requires Connected(c) && LastRecord(cfg, c, es, k, side) && AskedAt(es, a, es[k].id) && !Run(cfg, c, es).reinvite
    ensures var d, id := Run(cfg, c, es), es[k].id;
            && es[a].invite && es[a].body.Sdp? && id in d.replied
            && (Success(d.replied[id].code) <==> forall j: nat | AnsweredAt(cfg, c, es, j, id) :: EndsWell(es[j].res))
            && (es[a].from == side && Success(d.replied[id].code) ==> d.replied[id].sdp == Some(d.sdpTo.At(side)))
  {
    hide Run, Records, Entry, Wrote, Exclusive, EndsWell, Success, AnsweredAt, StoryOf;
    var d, id := Run(cfg, c, es), es[k].id;
    var s := StoryOf(cfg, c, es, id);
    RunExclusive(cfg, c, es);
    RunEntry(cfg, c, es, id);
    LastWrote(cfg, c, es, k, side);
    WroteEnded(d, side, id, s);
    FirstAsk(cfg, c, es, a, id);
    ResAt(cfg, c, es, id);
    WroteAsk(d, side, id, s);
  }

  lemma WroteAsk(d: Call, side: Leg, id: nat, s: Story)
    requires Wrote(d, side, id, s)
    ensures s.ask.Some? && s.ask.value.Request? && s.ask.value.invite && s.ask.value.body.Sdp?
  {}

  // ---- what it says ----

  lemma AskedBefore(es: seq<Event>, k: nat, a: nat, id: nat)
    requires k <= |es| && AskedAt(es[..k], a, id)
    ensures AskedAt(es, a, id)
  {
    assert forall i | 0 <= i <= a :: es[..k][i] == es[i];
  }

  lemma AnsweredBefore(cfg: Config, c: Call, es: seq<Event>, k: nat, j: nat, id: nat)
    requires k <= |es| && AnsweredAt(cfg, c, es[..k], j, id)
    ensures AnsweredAt(cfg, c, es, j, id)
  {
    hide Run;
    assert es[..k][..j] == es[..j];
  }

  /** What Records sees of a request is what the request said. */
  lemma RecordFrom(cfg: Config, b: Call, e: Event, side: Leg, s: Story)
    requires Entry(b, e.id, s) && Records(cfg, b, e, side).Some?
    ensures s.ask.Some? && s.ask.value.Request? && s.ask.value.body.Sdp? && (s.res.Some? <==> e.Deliver?)
    ensures var ask, r := s.ask.value, Records(cfg, b, e, side).value;
            if ask.from != side then
              r.key == CC.OfferKey(b.sides.At(side))
              && Rewritten(ask.body.text, cfg.TargetFor(side, r.key)) == Ok(r.text)
            else if s.res.Some? then
              s.res.value.Final? && s.res.value.body.Sdp?
              && Rewritten(s.res.value.body.text, cfg.TargetFor(side, r.key)) == Ok(r.text)
            else
              Parsed(ask.body.text).Ok?
              && HoldAnswer(b.sdpTo.At(side), cfg.TargetFor(side, r.key), Parsed(ask.body.text).value) == Ok(r.text)
  {
    hide Rewritten, HoldAnswer, Parsed, CC.OfferKey, ReplyTold;
  }

  /**
   In every run, by position: a side's SDP is connect's until an event records one, and then what the last such event
   made: of another phone's re-INVITE, that offer rewritten with the key for the side; of its own, the other phone's
   answer rewritten, or the SDP the side had before turned into an answer to hold or resume.
   */
  lemma SdpToTrace(cfg: Config, c: Call, es: seq<Event>, k: nat, side: Leg, a: nat)
    requires Connected(c) && LastRecord(cfg, c, es, k, side) && AskedAt(es, a, es[k].id)
    ensures es[a].body.Sdp?
    ensures var text, b := Run(cfg, c, es).sdpTo.At(side), Run(cfg, c, es[..k]);
            var key := Records(cfg, b, es[k], side).value.key;
            if es[a].from != side then
              key == CC.OfferKey(b.sides.At(side)) && Rewritten(es[a].body.text, cfg.TargetFor(side, key)) == Ok(text)
            else if es[k].Deliver? then
              exists j: nat :: AnsweredAt(cfg, c, es, j, es[k].id) && es[j].res.Final? && es[j].res.body.Sdp?
                               && Rewritten(es[j].res.body.text, cfg.TargetFor(side, key)) == Ok(text)
            else
              Parsed(es[a].body.text).Ok?
              && HoldAnswer(b.sdpTo.At(side), cfg.TargetFor(side, key), Parsed(es[a].body.text).value) == Ok(text)
  {
    hide Run, Records, Entry, Wrote, StoryOf, Rewritten, HoldAnswer, Parsed, CC.OfferKey;
    var before, id := es[..k], es[k].id;
    var b, s := Run(cfg, c, before), StoryOf(cfg, c, before, id);
    LastWrote(cfg, c, es, k, side);
    RunEntry(cfg, c, before, id);
    RecordFrom(cfg, b, es[k], side, s);
    AskAt(cfg, c, before, id);
    var i: nat :| AskedAt(before, i, id) && before[i] == s.ask.value;
    AskedBefore(es, k, i, id);
    assert i == a;
    if es[k].Deliver? {
      ResAt(cfg, c, before, id);
      var j: nat :| AnsweredAt(cfg, c, before, j, id);
      AnsweredBefore(cfg, c, es, k, j, id);
    }
  }

  // ---- the key in it ----

  predicate Holds(text: string, key: Option<Crypto>) {
    Parsed(text).Ok? ==> Parsed(text).value.cryptos == if key.Some? then [key.value] else []
  }

  lemma RewrittenHolds(body: string, t: Target)
    requires t.Valid() && Parsed(body).Ok?
    ensures Rewritten(body, t).Ok? && Holds(Rewritten(body, t).value, t.key)
  {
    hide Parsed, PortWord, Carries, Lines;
    RewriteMeans(body, t);
  }

  lemma RecordHolds(cfg: Config, b: Call, m: Made, e: Event, side: Leg)
    requires cfg.Valid() && CallOk(cfg, b, m, false) && Records(cfg, b, e, side).Some?
    ensures var r := Records(cfg, b, e, side).value; Holds(r.text, r.key)
  {
    hide Parsed, Rewritten, HoldAnswer, TextsOk, TextOk;
    var w := b.work[e.id];
    assert WorkOk(w, m, false);
    if e.Deliver? {
      RewriteFailsWithParse(w.text, cfg.TargetFor(side, w.answerKey));
      RewrittenHolds(w.text, cfg.TargetFor(side, w.answerKey));
    } else if IsHold(b, w) {
      RewriteFailsWithParse(b.sdpTo.At(side), cfg.TargetFor(side, w.answerKey));
      HoldFails(b.sdpTo.At(side), cfg.TargetFor(side, w.answerKey), w.info);
      K.HoldAnswerKeys(cfg, b, m, side, w.answerKey, w.info);
    } else {
      RewrittenHolds(w.text, cfg.TargetFor(side, CC.OfferKey(b.sides.At(side))));
    }
  }

  lemma HoldFails(prev: string, t: Target, offer: Info)
    ensures HoldAnswer(prev, t, offer).Ok? ==> Rewritten(prev, t).Ok?
  {}

  predicate SameKey(a: Option<Crypto>, b: Option<Crypto>) {
    if a.Some? && b.Some? then a.value.Equal(b.value) else a.None? && b.None?
  }

  /** The SDP has the one key the leg encrypts with; none if it does not. */
  predicate InUse(s: CC.Side, i: Info) {
    if s.leg.crypto.Some? then |i.cryptos| == 1 && s.leg.crypto.value.outKey.Equal(i.cryptos[0]) else i.cryptos == []
  }

  lemma InUseIff(s: CC.Side, text: string, key: Option<Crypto>)
    requires CC.Consistent(s) && Holds(text, key) && Parsed(text).Ok?
    ensures InUse(s, Parsed(text).value) <==> SameKey(key, CC.OfferKey(s))
  {
    hide Parsed;
  }

  /**
   In every state of every run: the SDP recorded for a side, if it parses, carries the key that side's leg encrypts
   with if and only if the key it was written with is still the side's.
   */
  lemma KeyInUseIff(cfg: Config, c: Call, m: Made, offer: string, answer: string, offered: Option<Crypto>,
                    es: seq<Event>, k: nat, side: Leg)
    requires cfg.Valid() && ConnectedWith(cfg, c, offer, answer, offered)
    requires KeyMade(offered, m.callee) && KeysOk(c.sides, m) && K.BothConsistent(c.sides)
    requires (forall i | 0 <= i < |es| :: ValidEvent(es[i], false)) && LastRecord(cfg, c, es, k, side)
    requires Parsed(Run(cfg, c, es).sdpTo.At(side)).Ok?
    ensures var d, key := Run(cfg, c, es), Records(cfg, Run(cfg, c, es[..k]), es[k], side).value.key;
            InUse(d.sides.At(side), Parsed(d.sdpTo.At(side)).value) <==> SameKey(key, CC.OfferKey(d.sides.At(side)))
  {
    hide Run, Records, CallOk, Parsed, InUse, SameKey, Holds, CC.Consistent, Rewritten, KeysOk, KeyMade;
    var d, b := Run(cfg, c, es), Run(cfg, c, es[..k]);
    ConnectOk(cfg, c, m, false, offer, answer, offered);
    RunOk(cfg, c, m, false, es[..k]);
    RecordHolds(cfg, b, MadeIn(cfg, c, m, es[..k]), es[k], side);
    LastWrote(cfg, c, es, k, side);
    K.MachineKeys(cfg, c, m, offer, answer, offered, es, Route(0), side);
    InUseIff(d.sides.At(side), d.sdpTo.At(side), Records(cfg, b, es[k], side).value.key);
  }

  /** Until something is recorded it is connect's SDP, with connect's key. */
  lemma FirstKeyInUseIff(cfg: Config, c: Call, m: Made, offer: string, answer: string, offered: Option<Crypto>,
                         es: seq<Event>, side: Leg)
    requires cfg.Valid() && ConnectedWith(cfg, c, offer, answer, offered)
    requires KeyMade(offered, m.callee) && KeysOk(c.sides, m) && K.BothConsistent(c.sides)
    requires forall i | 0 <= i < |es| :: ValidEvent(es[i], false) && !RecordedAt(cfg, c, es, i, side)
    requires Parsed(c.sdpTo.At(side)).Ok?
    ensures var d, key := Run(cfg, c, es), if side == 0 then CC.OfferKey(c.sides.caller) else offered;
            && d.sdpTo.At(side) == c.sdpTo.At(side)
            && (InUse(d.sides.At(side), Parsed(d.sdpTo.At(side)).value) <==>
                  SameKey(key, CC.OfferKey(d.sides.At(side))))
  {
    hide Run, RecordedAt, Parsed, InUse, SameKey, Holds, CC.Consistent, Rewritten;
    var key := if side == 0 then CC.OfferKey(c.sides.caller) else offered;
    var body, t := if side == 0 then answer else offer, cfg.TargetFor(side, key);
    NeverRecorded(cfg, c, es, side);
    RewriteFailsWithParse(body, t);
    RewrittenHolds(body, t);
    K.MachineKeys(cfg, c, m, offer, answer, offered, es, Route(0), side);
    InUseIff(Run(cfg, c, es).sides.At(side), c.sdpTo.At(side), key);
  }
}
