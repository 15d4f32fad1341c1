/**
 Ringing every phone of the callee and connecting the first that answers (setup, connect and dropLateAnswers,
 internal/b2bua/call.go).
 */
module Fork {
  import opened Basics
  import opened Netip
  import opened SdpCrypto
  import opened SdpParse
  import opened SdpRewrite
  import opened Text
  import opened AudioChoice
  import M = CallMachine
  import CC = CallCrypto
  import E = Endpoint
  import T = CallText
  import K = CallKeys
  import C = CallStory
  import MF = MediaFollows
  import opened KeyOffers

  /** A registration: how the phone is reached, and whether an INVITE could be sent to it. */
  datatype Phone = Phone(tls: bool, reachable: bool)

  /** How one fork ended: an answer with its SDP, a failure response, or neither (cancelled, timed out). */
  datatype Ending = Answered(sdp: string, source: Option<Addr>) | Refused(code: int) | Broken

  datatype ForkResult = ForkResult(phone: nat, ending: Ending)

  /** What the PBX sends: to a phone, or as the final response to the caller. */
  datatype Message = Invite(phone: nat, sdp: string) | Ack(phone: nat) | Bye(phone: nat) | Final(code: int, sdp: string)

  // ---- specification ----

  /** Phones registered over TLS are offered SRTP. */
  function OfferFor(p: Phone, key: Crypto): Option<Crypto> {
    if p.tls then Some(key) else None
  }

  /** The SDP offered to a phone. */
  function BodyFor(cfg: M.Config, offer: string, p: Phone, key: Crypto): Result<string, ParseError> {
    Rewritten(offer, cfg.TargetFor(1, OfferFor(p, key)))
  }

  lemma BodyFails(cfg: M.Config, offer: string, p: Phone, key: Crypto)
    ensures BodyFor(cfg, offer, p, key).Err? <==> Parsed(offer).Err?
  {
    RewriteFailsWithParse(offer, cfg.TargetFor(1, OfferFor(p, key)));
  }

  /** The INVITEs to the first n phones. */
  function Invites(cfg: M.Config, offer: string, regs: seq<Phone>, key: Crypto, n: nat): seq<Message>
    requires n <= |regs| && Parsed(offer).Ok?
  {
    if n == 0 then []
    else
      BodyFails(cfg, offer, regs[n - 1], key);
      Invites(cfg, offer, regs, key, n - 1)
      + if regs[n - 1].reachable then [Invite(n - 1, BodyFor(cfg, offer, regs[n - 1], key).value)] else []
  }

  function Forks(regs: seq<Phone>): nat {
    if regs == [] then 0 else Forks(regs[..|regs| - 1]) + if regs[|regs| - 1].reachable then 1 else 0
  }

  ghost function Reachable(regs: seq<Phone>): set<nat> { set p: nat | p < |regs| && regs[p].reachable }

  /** As many as the phones that can be reached. */
  lemma {:induction false} ForksAre(regs: seq<Phone>)
    ensures Forks(regs) == |Reachable(regs)|
  {
    if regs == [] {
      assert Reachable(regs) == {};
    } else {
      var init := regs[..|regs| - 1];
      ForksAre(init);
      assert Reachable(regs) == Reachable(init) + if regs[|init|].reachable then {|init|} else {};
    }
  }

  /** In order of arrival: one result for each phone that was rung. */
  ghost predicate ResultsOf(regs: seq<Phone>, rs: seq<ForkResult>) {
    && |rs| == Forks(regs)
    && (forall i | 0 <= i < |rs| :: rs[i].phone < |regs| && regs[rs[i].phone].reachable)
    && (forall i, j | 0 <= i < j < |rs| :: rs[i].phone != rs[j].phone)
  }

  /** The first answer, or the number of results. */
  function First(rs: seq<ForkResult>): (w: nat)
    ensures w <= |rs| && (forall i | 0 <= i < w :: !rs[i].ending.Answered?) && (w < |rs| ==> rs[w].ending.Answered?)
  {
    if rs == [] || rs[0].ending.Answered? then 0 else 1 + First(rs[1..])
  }

  predicate SomeRefused(rs: seq<ForkResult>, code: int) {
    exists i | 0 <= i < |rs| :: rs[i].ending == Refused(code)
  }

  /** What the caller is told when nobody answers. */
  function FailureCode(rs: seq<ForkResult>, cancelled: bool, deadline: bool): int {
    if cancelled then 487
    else if deadline then 480
    else if SomeRefused(rs, 486) || SomeRefused(rs, 600) then 486
    else if SomeRefused(rs, 603) then 603
    else 480
  }

  /** Phones that answered too late are acknowledged and hung up. */
  function Late(rs: seq<ForkResult>): seq<Message> {
    if rs == [] then []
    else (if rs[0].ending.Answered? then [Ack(rs[0].phone), Bye(rs[0].phone)] else []) + Late(rs[1..])
  }

  /** The call afterwards; messages by the goroutine that sends them. */
  datatype Outcome = Outcome(b: Option<nat>, answered: bool, sdpTo: M.Pair<string>, sides: M.Pair<CC.Side>,
                             sent: seq<Message>, dropped: seq<Message>)

  /** connect, for the answer of a phone that was offered a key. */
  function Connected(cfg: M.Config, o: Outcome, phone: nat, answer: string, source: Option<Addr>,
      offered: Option<Crypto>): Outcome {
    var acked := o.(b := Some(phone), sent := o.sent + [Ack(phone)]);
    match Parsed(answer)
    case Err(_) => acked.(sent := acked.sent + [Bye(phone), Final(488, "")])
    case Ok(info) =>
      var s := o.sides.callee;
      var (s', ok) := CC.AcceptedAnswer(s.(leg := E.Remoted(s.leg, info, source)), info, offered);
      var known := acked.(sides := M.Pair(o.sides.caller, s'));
      if !ok then known.(sent := known.sent + [Bye(phone), Final(488, "")])
      else
        var body := Rewritten(answer, cfg.TargetFor(0, CC.OfferKey(o.sides.caller))).value;
        known.(answered := true, sdpTo := M.Pair(body, o.sdpTo.callee), sent := known.sent + [Final(200, body)])
  }

  /** setup, from the phones of the callee and their results to the end. */
  function Settled(cfg: M.Config, o: Outcome, offer: string, regs: seq<Phone>, rs: seq<ForkResult>, key: Crypto,
                   cancelled: bool, deadline: bool): Outcome
    requires ResultsOf(regs, rs)
  {
    var keyed := o.(sides := M.Pair(o.sides.caller, o.sides.callee.(ours := Some(key))));
    if Parsed(offer).Err? then keyed.(sent := o.sent + [Final(if regs == [] then 480 else 488, "")])
    else
      var rung := keyed.(sent := o.sent + Invites(cfg, offer, regs, key, |regs|));
      if rs == [] then rung.(sent := rung.sent + [Final(480, "")])
      else
        var w := First(rs);
        if w == |rs| then rung.(sent := rung.sent + [Final(FailureCode(rs, cancelled, deadline), "")])
        else
          var p := regs[rs[w].phone];
          BodyFails(cfg, offer, p, key);
          var sdp := BodyFor(cfg, offer, p, key).value;
          Connected(cfg, rung.(sdpTo := M.Pair(o.sdpTo.caller, sdp), dropped := o.dropped + Late(rs[w + 1..])),
                    rs[w].phone, rs[w].ending.sdp, rs[w].ending.source, OfferFor(p, key))
  }

  // ---- the call being set up ----

  class Attempt {
    const cfg: M.Config
    const caller: CC.Keys
    const callee: CC.Keys
    var b: Option<nat>
    var answered: bool
    var sdpTo: M.Pair<string>
    var sent: seq<Message>
    var dropped: seq<Message>

    ghost predicate Valid()
      reads this, callee
    {
      && caller != callee && caller.leg != callee.leg
      && (this as object) !in {caller, callee, caller.leg, callee.leg}
      && caller as object != callee.leg && callee as object != caller.leg
      && caller as object != caller.leg && callee as object != callee.leg
    }

    ghost function View(): Outcome
      reads this, caller, callee, caller.leg, callee.leg
    {
      Outcome(b, answered, sdpTo, M.Pair(caller.View(), callee.View()), sent, dropped)
    }

    constructor (cfg: M.Config, caller: CC.Keys, callee: CC.Keys)
      requires caller != callee && caller.leg != callee.leg
      requires caller as object != callee.leg && callee as object != caller.leg
      requires caller as object != caller.leg && callee as object != callee.leg
      ensures Valid() && this.cfg == cfg && this.caller == caller && this.callee == callee
      ensures View() == Outcome(None, false, M.Pair("", ""), M.Pair(caller.View(), callee.View()), [], [])
    {
      this.cfg, this.caller, this.callee := cfg, caller, callee;
      b, answered, sdpTo, sent, dropped := None, false, M.Pair("", ""), [], [];
    }

    /** dropLateAnswers, given the results still to come. */
    method DropLateAnswers(rs: seq<ForkResult>)
      modifies this`dropped
      ensures dropped == old(dropped) + Late(rs)
    {
      for i := 0 to |rs|
        invariant dropped + Late(rs[i..]) == old(dropped) + Late(rs)
      {
        assert rs[i..][1..] == rs[i + 1..];
        ghost var before, tail := dropped, Late(rs[i + 1..]);
        if rs[i].ending.Answered? {
          dropped := dropped + [Ack(rs[i].phone), Bye(rs[i].phone)];
        }
        assert dropped + tail == before + Late(rs[i..]);
      }
      assert rs[|rs|..] == [];
    }

    /** The winner's SDP and key, taken in. */
    method TakeAnswer(info: Info, source: Option<Addr>, offered: Option<Crypto>) returns (ok: bool)
      requires Valid() && (forall c | c in info.cryptos :: c.WellFormed())
          && (offered.Some? ==> offered.value.WellFormed())
      modifies callee, callee.leg
      ensures caller.View() == old(caller.View())
      ensures (callee.View(), ok) ==
              var s := old(callee.View()); CC.AcceptedAnswer(s.(leg := E.Remoted(s.leg, info, source)), info, offered)
    {
      hide E.Remoted, CC.AcceptedAnswer;
      callee.leg.SetRemote(info, source);
      ok := callee.AcceptAnswer(info, offered);
    }

    method Connect(phone: nat, answer: string, source: Option<Addr>, offered: Option<Crypto>)
      requires Valid() && (offered.Some? ==> offered.value.WellFormed())
      modifies this`b, this`answered, this`sdpTo, this`sent, callee, callee.leg
      ensures Valid() && View() == Connected(cfg, old(View()), phone, answer, source, offered)
    {
      hide Parsed, Rewritten, E.Remoted, CC.AcceptedAnswer;
      b := Some(phone);
      sent := sent + [Ack(phone)];
      var parsed := Parse(answer);
      if parsed.Err? {
        sent := sent + [Bye(phone), Final(488, "")];
        return;
      }
      var info := parsed.value;
      T.ParsedKeysWellFormed(answer);
      var ok := TakeAnswer(info, source, offered);
      if !ok {
        sent := sent + [Bye(phone), Final(488, "")];
        return;
      }
      // Rewrite cannot fail on what was just parsed.
      RewriteFailsWithParse(answer, cfg.TargetFor(0, CC.OfferKey(caller.View())));
      var body := Rewrite(answer, cfg.TargetFor(0, if caller.secure then caller.ours else None));
      sdpTo := M.Pair(body.value, sdpTo.callee);
      answered := true;
      sent := sent + [Final(200, body.value)];
    }

    method OfferTo(offer: string, p: Phone, key: Crypto) returns (body: Result<string, ParseError>)
      ensures body == BodyFor(cfg, offer, p, key)
    {
      body := Rewrite(offer, cfg.TargetFor(1, OfferFor(p, key)));
    }

    /** Rings the phones; the SDP sent to each, or None when the offer cannot be rewritten. */
    method Ring(offer: string, regs: seq<Phone>, key: Crypto) returns (offers: Option<seq<string>>, forks: nat)
      modifies this`sent
      ensures offers.None? <==> regs != [] && Parsed(offer).Err?
      ensures offers.None? ==> sent == old(sent) + [Final(488, "")]
      ensures offers.Some? ==> forks == Forks(regs) && |offers.value| == |regs|
      ensures offers.Some? && regs == [] ==> sent == old(sent)
      ensures offers.Some? && Parsed(offer).Ok? ==> sent == old(sent) + Invites(cfg, offer, regs, key, |regs|)
      ensures offers.Some? ==>
                forall m | 0 <= m < |regs| :: BodyFor(cfg, offer, regs[m], key) == Ok(offers.value[m])
    {
      hide BodyFor, Parsed;
      var bodies: seq<string> := [];
      forks := 0;
      for n := 0 to |regs|
        invariant n == 0 ==> sent == old(sent)
        invariant n > 0 ==> Parsed(offer).Ok?
        invariant Parsed(offer).Ok? ==> sent == old(sent) + Invites(cfg, offer, regs, key, n)
        invariant forks == Forks(regs[..n]) && |bodies| == n
        invariant forall m | 0 <= m < n :: BodyFor(cfg, offer, regs[m], key) == Ok(bodies[m])
      {
        BodyFails(cfg, offer, regs[n], key);
        var body := OfferTo(offer, regs[n], key);
        if body.Err? {
          sent := sent + [Final(488, "")];
          return None, 0;
        }
        bodies := bodies + [body.value];
        assert regs[..n + 1][..n] == regs[..n];
        if regs[n].reachable {
          sent := sent + [Invite(n, body.value)];
          forks := forks + 1;
        }
      }
      assert regs[..|regs|] == regs;
      offers := Some(bodies);
    }

    /** Takes results until one is an answer; otherwise the caller's failure code. */
    method Await(rs: seq<ForkResult>, cancelled: bool, deadline: bool) returns (winner: nat, code: int)
      ensures winner == First(rs)
      ensures winner == |rs| ==> code == FailureCode(rs, cancelled, deadline)
    {
      var codes: seq<int> := [];
      winner := 0;
      code := 0;
      while winner < |rs| && !rs[winner].ending.Answered?
        invariant winner <= |rs| && First(rs) == winner + First(rs[winner..])
        invariant forall c :: c in codes <==> SomeRefused(rs[..winner], c)
      {
        assert rs[winner..][1..] == rs[winner + 1..];
        ghost var c0 := codes;
        if rs[winner].ending.Refused? {
          codes := codes + [rs[winner].ending.code];
        }
        forall c ensures c in codes <==> SomeRefused(rs[..winner + 1], c) {
          OneMore(rs, winner, c);
        }
        winner := winner + 1;
      }
      if winner == |rs| {
        assert rs[..winner] == rs;
        code := if cancelled then 487
                else if deadline then 480
                else if 486 in codes || 600 in codes then 486
                else if 603 in codes then 603
                else 480;
      }
    }

    /** The results arrive in the order rs; key is drawn for this call. */
    method Setup(offer: string, regs: seq<Phone>, rs: seq<ForkResult>, key: Crypto, cancelled: bool, deadline: bool)
      requires Valid() && ResultsOf(regs, rs) && key.WellFormed()
      modifies this, callee, callee.leg
      ensures Valid() && View() == Settled(cfg, old(View()), offer, regs, rs, key, cancelled, deadline)
    {
      hide Rewritten, Parsed, Invites, Late, Connected, FailureCode, First;
      callee.ours := Some(key);
      var offers, forks := Ring(offer, regs, key);
      if offers.None? { return; }
      if forks == 0 {
        sent := sent + [Final(480, "")];
        return;
      }
      var w, code := Await(rs, cancelled, deadline);
      if w == |rs| {
        sent := sent + [Final(code, "")];
        return;
      }
      DropLateAnswers(rs[w + 1..]);
      sdpTo := M.Pair(sdpTo.caller, offers.value[rs[w].phone]);
      Connect(rs[w].phone, rs[w].ending.sdp, rs[w].ending.source, OfferFor(regs[rs[w].phone], key));
    }
  }

  lemma OneMore(rs: seq<ForkResult>, n: nat, c: int)
    requires n < |rs|
    ensures SomeRefused(rs[..n + 1], c) <==> SomeRefused(rs[..n], c) || rs[n].ending == Refused(c)
  {
    if SomeRefused(rs[..n], c) {
      var i :| 0 <= i < n && rs[..n][i].ending == Refused(c);
      assert rs[..n + 1][i].ending == Refused(c);
    }
    assert rs[..n + 1][n] == rs[n];
  }

  // ---- what every attempt does ----

  ghost predicate AnsweredBy(rs: seq<ForkResult>, p: nat) {
    exists i | 0 <= i < |rs| :: rs[i].phone == p && rs[i].ending.Answered?
  }

  ghost predicate OnePerPhone(rs: seq<ForkResult>) {
    forall i, j | 0 <= i < j < |rs| :: rs[i].phone != rs[j].phone
  }

  function Times(m: Message, ms: seq<Message>): nat { multiset(ms)[m] }

  lemma TimesInBoth(m: Message, a: seq<Message>, b: seq<Message>)
    ensures Times(m, a + b) == Times(m, a) + Times(m, b)
  {}

  lemma {:induction false} NotLate(rs: seq<ForkResult>, p: nat)
    requires forall i | 0 <= i < |rs| :: rs[i].phone != p
    ensures Times(Ack(p), Late(rs)) == Times(Bye(p), Late(rs)) == 0
  {
    if rs != [] {
      NotLate(rs[1..], p);
      var head := if rs[0].ending.Answered? then [Ack(rs[0].phone), Bye(rs[0].phone)] else [];
      TimesInBoth(Ack(p), head, Late(rs[1..]));
      TimesInBoth(Bye(p), head, Late(rs[1..]));
    }
  }

  lemma {:induction false} LateOnce(rs: seq<ForkResult>, p: nat)
    requires OnePerPhone(rs)
    ensures Times(Ack(p), Late(rs)) == Times(Bye(p), Late(rs)) == (if AnsweredBy(rs, p) then 1 else 0)
    ensures forall i | 0 <= i < |Late(rs)| :: !Late(rs)[i].Final?
  {
    hide Times, AnsweredBy;
    if rs == [] {
      NobodyYet(p);
    } else {
      LateOnce(rs[1..], p);
      var head := LateShare(rs[0]);
      assert Late(rs) == head + Late(rs[1..]);
      ShareOnce(rs[0], p);
      TimesInBoth(Ack(p), head, Late(rs[1..]));
      TimesInBoth(Bye(p), head, Late(rs[1..]));
      AnsweredFirstOrLater(rs, p);
      if rs[0].phone == p { NotLate(rs[1..], p); }
    }
  }

  function LateShare(r: ForkResult): seq<Message> {
    if r.ending.Answered? then [Ack(r.phone), Bye(r.phone)] else []
  }

  lemma ShareOnce(r: ForkResult, p: nat)
    ensures Times(Ack(p), LateShare(r)) == Times(Bye(p), LateShare(r)) ==
        (if r.phone == p && r.ending.Answered? then 1 else 0)
  {}

  lemma NobodyYet(p: nat)
    ensures Times(Ack(p), []) == Times(Bye(p), []) == 0 && !AnsweredBy([], p)
  {}

  lemma AnsweredFirstOrLater(rs: seq<ForkResult>, p: nat)
    requires rs != []
    ensures AnsweredBy(rs, p) <==> (rs[0].phone == p && rs[0].ending.Answered?) || AnsweredBy(rs[1..], p)
  {
    if AnsweredBy(rs[1..], p) {
      var i :| 0 <= i < |rs[1..]| && rs[1..][i].phone == p && rs[1..][i].ending.Answered?;
      assert rs[i + 1].phone == p;
    }
    if AnsweredBy(rs, p) {
      var i :| 0 <= i < |rs| && rs[i].phone == p && rs[i].ending.Answered?;
      if i > 0 { assert rs[1..][i - 1].phone == p; }
    }
  }

  /** The answers are the first one and those after it. */
  lemma {:induction false} AnsweredSplits(rs: seq<ForkResult>, p: nat)
    requires OnePerPhone(rs) && First(rs) < |rs|
    ensures var w := First(rs);
            && OnePerPhone(rs[w + 1..])
            && (AnsweredBy(rs, p) <==> rs[w].phone == p || AnsweredBy(rs[w + 1..], p))
            && !(rs[w].phone == p && AnsweredBy(rs[w + 1..], p))
  {
    hide First;
    var w := First(rs);
    if AnsweredBy(rs[w + 1..], p) {
      var i :| 0 <= i < |rs[w + 1..]| && rs[w + 1..][i].phone == p && rs[w + 1..][i].ending.Answered?;
      assert rs[w + 1 + i].phone == p;
    }
    if AnsweredBy(rs, p) {
      var i :| 0 <= i < |rs| && rs[i].phone == p && rs[i].ending.Answered?;
      if i > w { assert rs[w + 1..][i - w - 1].phone == p; }
    }
  }

  lemma {:induction false} InvitesOnly(cfg: M.Config, offer: string, regs: seq<Phone>, key: Crypto, n: nat)
    requires n <= |regs| && Parsed(offer).Ok?
    ensures forall i | 0 <= i < |Invites(cfg, offer, regs, key, n)| :: Invites(cfg, offer, regs, key, n)[i].Invite?
  {
    if n > 0 {
      InvitesOnly(cfg, offer, regs, key, n - 1);
    }
  }

  /** An ACK for every answer; a BYE for each of them but the one kept, if any. */
  ghost predicate AnswersSettled(d: Outcome, rs: seq<ForkResult>, p: nat) {
    && Times(Ack(p), d.sent + d.dropped) == (if AnsweredBy(rs, p) then 1 else 0)
    && Times(Bye(p), d.sent + d.dropped) == (if AnsweredBy(rs, p) && !(d.answered && d.b == Some(p)) then 1 else 0)
  }

  /** The caller gets one final response, the last message of setup. */
  ghost predicate OneFinal(d: Outcome, code: int, sdp: string) {
    && d.sent != [] && d.sent[|d.sent| - 1] == Final(code, sdp)
    && (forall i | 0 <= i < |d.sent| - 1 :: !d.sent[i].Final?)
    && (forall i | 0 <= i < |d.dropped| :: !d.dropped[i].Final?)
  }

  lemma NoTimes(m: Message, ms: seq<Message>)
    requires m !in ms
    ensures Times(m, ms) == 0
  {}

  /** What connect does with the winner, whichever way it ends. */
  lemma WinnerSettled(cfg: M.Config, o: Outcome, phone: nat, answer: string, source: Option<Addr>,
      offered: Option<Crypto>)
    requires !o.answered && o.b.None?
    ensures var d := Connected(cfg, o, phone, answer, source, offered);
            && d.b == Some(phone) && d.dropped == o.dropped && d.sdpTo.callee == o.sdpTo.callee
            && d.sent == o.sent + [Ack(phone)]
                         + if d.answered then [Final(200, d.sdpTo.caller)] else [Bye(phone), Final(488, "")]
  {
    hide Parsed, Rewritten, E.Remoted, CC.AcceptedAnswer;
    var tail := [Bye(phone), Final(488, "")];
    assert o.sent + [Ack(phone)] + tail == (o.sent + [Ack(phone)]) + tail;
  }

  lemma WinnerCounts(calls: seq<Message>, phone: nat, answered: bool, body: string, p: nat)
    requires forall i | 0 <= i < |calls| :: calls[i].Invite?
    ensures var sent := calls + [Ack(phone)] + if answered then [Final(200, body)] else [Bye(phone), Final(488, "")];
            && Times(Ack(p), sent) == (if p == phone then 1 else 0)
            && Times(Bye(p), sent) == (if p == phone && !answered then 1 else 0)
            && (forall i | 0 <= i < |sent| - 1 :: !sent[i].Final?)
            && sent[|sent| - 1] == if answered then Final(200, body) else Final(488, "")
  {
    NoTimes(Ack(p), calls);
    NoTimes(Bye(p), calls);
    var tail := if answered then [Final(200, body)] else [Bye(phone), Final(488, "")];
    TimesInBoth(Ack(p), calls + [Ack(phone)], tail);
    TimesInBoth(Bye(p), calls + [Ack(phone)], tail);
    TimesInBoth(Ack(p), calls, [Ack(phone)]);
    TimesInBoth(Bye(p), calls, [Ack(phone)]);
  }

  /** Without an answer: the INVITEs, and the failure. */
  lemma NobodyAnswers(cfg: M.Config, o: Outcome, offer: string, regs: seq<Phone>, rs: seq<ForkResult>, key: Crypto,
                      cancelled: bool, deadline: bool)
    requires ResultsOf(regs, rs) && Parsed(offer).Ok? && First(rs) == |rs|
    ensures var d := Settled(cfg, o, offer, regs, rs, key, cancelled, deadline);
            && d.b == o.b && d.answered == o.answered && d.dropped == o.dropped
            && d.sent == o.sent + Invites(cfg, offer, regs, key, |regs|)
                         + [Final(if rs == [] then 480 else FailureCode(rs, cancelled, deadline), "")]
  {
    hide Parsed, BodyFor, FailureCode, Connected, Invites;
  }

  /** With one: the INVITEs, the winner's share, and the late answers. */
  lemma SomebodyAnswers(cfg: M.Config, o: Outcome, offer: string, regs: seq<Phone>, rs: seq<ForkResult>, key: Crypto,
                        cancelled: bool, deadline: bool)
    requires ResultsOf(regs, rs) && Parsed(offer).Ok? && First(rs) < |rs| && o.b.None? && !o.answered
    ensures var d := Settled(cfg, o, offer, regs, rs, key, cancelled, deadline);
            var w := First(rs);
            && d.b == Some(rs[w].phone) && d.dropped == o.dropped + Late(rs[w + 1..])
            && Ok(d.sdpTo.callee) == BodyFor(cfg, offer, regs[rs[w].phone], key)
            && d.sent == o.sent + Invites(cfg, offer, regs, key, |regs|) + [Ack(rs[w].phone)]
                         + if d.answered then [Final(200, d.sdpTo.caller)] else [Bye(rs[w].phone), Final(488, "")]
  {
    hide Parsed, BodyFor, FailureCode, Connected, Invites;
    var w := First(rs);
    BodyFails(cfg, offer, regs[rs[w].phone], key);
    var rung := o.(sides := M.Pair(o.sides.caller, o.sides.callee.(ours := Some(key))),
                   sent := o.sent + Invites(cfg, offer, regs, key, |regs|),
                   sdpTo := M.Pair(o.sdpTo.caller, BodyFor(cfg, offer, regs[rs[w].phone], key).value),
                   dropped := o.dropped + Late(rs[w + 1..]));
    WinnerSettled(cfg, rung, rs[w].phone, rs[w].ending.sdp, rs[w].ending.source, OfferFor(regs[rs[w].phone], key));
  }

  lemma NobodyCounts(calls: seq<Message>, code: int, p: nat)
    requires forall i | 0 <= i < |calls| :: calls[i].Invite?
    ensures Times(Ack(p), calls + [Final(code, "")]) == Times(Bye(p), calls + [Final(code, "")]) == 0
  {
    NoTimes(Ack(p), calls + [Final(code, "")]);
    NoTimes(Bye(p), calls + [Final(code, "")]);
  }

  lemma {:induction false} WinnerSettles(d: Outcome, calls: seq<Message>, rs: seq<ForkResult>, p: nat)
    requires OnePerPhone(rs) && First(rs) < |rs| && forall i | 0 <= i < |calls| :: calls[i].Invite?
    requires d.b == Some(rs[First(rs)].phone) && d.dropped == Late(rs[First(rs) + 1..])
    requires d.sent == calls + [Ack(d.b.value)]
        + if d.answered then [Final(200, d.sdpTo.caller)] else [Bye(d.b.value), Final(488, "")]
    ensures AnswersSettled(d, rs, p)
    ensures if d.answered then OneFinal(d, 200, d.sdpTo.caller) else OneFinal(d, 488, "")
  {
    hide Times;
    var w := First(rs);
    WinnerCounts(calls, rs[w].phone, d.answered, d.sdpTo.caller, p);
    AnsweredSplits(rs, p);
    LateOnce(rs[w + 1..], p);
    TimesInBoth(Ack(p), d.sent, d.dropped);
    TimesInBoth(Bye(p), d.sent, d.dropped);
  }

  /** Some phone refused with this code. */
  ghost predicate RefusedWith(rs: seq<ForkResult>, code: int) {
    exists r :: r in rs && r.ending.Refused? && r.ending.code == code
  }

  lemma RefusedSome(rs: seq<ForkResult>, code: int)
    ensures SomeRefused(rs, code) <==> RefusedWith(rs, code)
  {
    if SomeRefused(rs, code) {
      var i :| 0 <= i < |rs| && rs[i].ending == Refused(code);
      assert rs[i] in rs;
    }
  }

  lemma CodeByResults(rs: seq<ForkResult>, cancelled: bool, deadline: bool)
    ensures FailureCode(rs, cancelled, deadline) ==
            if cancelled then 487
            else if deadline then 480
            else if RefusedWith(rs, 486) || RefusedWith(rs, 600) then 486
            else if RefusedWith(rs, 603) then 603
            else 480
  {
    hide SomeRefused, RefusedWith;
    RefusedSome(rs, 486);
    RefusedSome(rs, 600);
    RefusedSome(rs, 603);
  }

  /**
   For any phones and any order of arrival: every answer is acknowledged once, the first becomes the call's other
   side, every other is hung up once, and the caller gets exactly one final response: 200 when the first answer can be
   used, 488 when it cannot (and then it is hung up too), else the failure code for the results and the caller.
   */
  lemma OneWinner(cfg: M.Config, o: Outcome, offer: string, regs: seq<Phone>, rs: seq<ForkResult>, key: Crypto,
                  cancelled: bool, deadline: bool, p: nat)
    requires ResultsOf(regs, rs) && Parsed(offer).Ok?
    requires o.b.None? && !o.answered && o.sent == o.dropped == []
    ensures var d := Settled(cfg, o, offer, regs, rs, key, cancelled, deadline);
            && AnswersSettled(d, rs, p)
            && d.b == (if First(rs) < |rs| then Some(rs[First(rs)].phone) else None)
            && if d.answered then OneFinal(d, 200, d.sdpTo.caller)
               else
                 OneFinal(d, if d.b.Some? then 488
                             else if rs == [] then 480
                             else if cancelled then 487
                             else if deadline then 480
                             else if RefusedWith(rs, 486) || RefusedWith(rs, 600) then 486
                             else if RefusedWith(rs, 603) then 603
                             else 480, "")
  {
    hide Parsed, FailureCode, RefusedWith, Settled, Invites, Times, BodyFor, Forks, First;
    CodeByResults(rs, cancelled, deadline);
    var d := Settled(cfg, o, offer, regs, rs, key, cancelled, deadline);
    var calls := Invites(cfg, offer, regs, key, |regs|);
    InvitesOnly(cfg, offer, regs, key, |regs|);
    assert [] + calls == calls;
    var w := First(rs);
    if w == |rs| {
      NobodyAnswers(cfg, o, offer, regs, rs, key, cancelled, deadline);
      NobodyCounts(calls, if rs == [] then 480 else FailureCode(rs, cancelled, deadline), p);
      assert d.sent + [] == d.sent;
    } else {
      SomebodyAnswers(cfg, o, offer, regs, rs, key, cancelled, deadline);
      assert [] + Late(rs[w + 1..]) == Late(rs[w + 1..]);
      WinnerSettles(d, calls, rs, p);
    }
  }

  /** The call that goes on from an answer. */
  function AnsweredCall(d: Outcome): M.Call {
    var none := M.Pair(false, false);
    M.Call(false, none, d.sdpTo, d.sides, none, none, map[], map[])
  }

  /** A connected call starts as CallText wants it: each phone was sent the other's SDP, rewritten for it. */
  lemma AnsweredCallConnected(cfg: M.Config, o: Outcome, offer: string, regs: seq<Phone>, rs: seq<ForkResult>,
      key: Crypto, cancelled: bool, deadline: bool)
    requires ResultsOf(regs, rs) && Parsed(offer).Ok? && o.b.None? && !o.answered
    requires Settled(cfg, o, offer, regs, rs, key, cancelled, deadline).answered
    ensures First(rs) < |rs|
    ensures var d := Settled(cfg, o, offer, regs, rs, key, cancelled, deadline);
            var r := rs[First(rs)];
            T.ConnectedWith(cfg, AnsweredCall(d), offer, r.ending.sdp, OfferFor(regs[r.phone], key))
  {
    hide Parsed, Rewritten, FailureCode, CC.AcceptedAnswer, E.Remoted;
    var w := First(rs);
    if w < |rs| {
      SomebodyAnswers(cfg, o, offer, regs, rs, key, cancelled, deadline);
      RewriteFailsWithParse(rs[w].ending.sdp, cfg.TargetFor(0, CC.OfferKey(o.sides.caller)));
    } else {
      NobodyAnswers(cfg, o, offer, regs, rs, key, cancelled, deadline);
    }
  }

  lemma SettledKeys(cfg: M.Config, o: Outcome, offer: string, regs: seq<Phone>, rs: seq<ForkResult>, key: Crypto,
                    cancelled: bool, deadline: bool, m: T.Made)
    requires ResultsOf(regs, rs) && key.WellFormed() && key.key in m.callee && T.KeyMade(o.sides.caller.ours, m.caller)
    ensures T.KeysOk(Settled(cfg, o, offer, regs, rs, key, cancelled, deadline).sides, m)
  {
    hide Parsed, Rewritten, FailureCode, E.Remoted, E.Keyed, CC.Answering;
  }

  /**
   From the caller's INVITE on: whichever phone wins, in every state the answered call can reach, the SDP recorded for
   a side is the PBX's own, with keys made for that side.
   */
  lemma AnsweredCallIsOurs(cfg: M.Config, o: Outcome, offer: string, regs: seq<Phone>, rs: seq<ForkResult>, key: Crypto,
                           cancelled: bool, deadline: bool, m: T.Made, plain: bool, es: seq<M.Event>, side: M.Leg)
    requires cfg.Valid() && ResultsOf(regs, rs) && Parsed(offer).Ok? && o.b.None? && !o.answered
    requires key.WellFormed() && key.key in m.callee && T.KeyMade(o.sides.caller.ours, m.caller)
    requires Settled(cfg, o, offer, regs, rs, key, cancelled, deadline).answered
    requires plain ==> T.Carried(offer)
    requires plain ==> forall i | 0 <= i < |rs| && rs[i].ending.Answered? :: T.Carried(rs[i].ending.sdp)
    requires forall i | 0 <= i < |es| :: T.ValidEvent(es[i], plain)
    ensures var c := AnsweredCall(Settled(cfg, o, offer, regs, rs, key, cancelled, deadline));
            var text, made := M.Run(cfg, c, es).sdpTo.At(side), T.MadeIn(cfg, c, m, es).At(side);
            && T.TextOk(cfg, text, side, made, plain)
            && (Parsed(text).Ok? ==> T.ReadsAsOurs(cfg, Parsed(text).value, side, made))
  {
    hide Parsed, Settled, M.Run, T.MadeIn, T.TextOk, T.ReadsAsOurs, T.Carried;
    var d := Settled(cfg, o, offer, regs, rs, key, cancelled, deadline);
    AnsweredCallConnected(cfg, o, offer, regs, rs, key, cancelled, deadline);
    SettledKeys(cfg, o, offer, regs, rs, key, cancelled, deadline, m);
    var r := rs[First(rs)];
    T.SdpToIsOurs(cfg, AnsweredCall(d), m, plain, offer, r.ending.sdp, OfferFor(regs[r.phone], key), es, side);
  }

  /** And it parses if and only if the body it was made from carries. */
  lemma AnsweredCallParsesIff(cfg: M.Config, o: Outcome, offer: string, regs: seq<Phone>, rs: seq<ForkResult>,
      key: Crypto, cancelled: bool, deadline: bool, m: T.Made, es: seq<M.Event>)
    requires cfg.Valid() && ResultsOf(regs, rs) && Parsed(offer).Ok? && o.b.None? && !o.answered
    requires key.WellFormed() && key.key in m.callee && T.KeyMade(o.sides.caller.ours, m.caller)
    requires Settled(cfg, o, offer, regs, rs, key, cancelled, deadline).answered
    requires forall i | 0 <= i < |es| :: T.ValidEvent(es[i], false)
    ensures First(rs) < |rs|
    ensures var c := AnsweredCall(Settled(cfg, o, offer, regs, rs, key, cancelled, deadline));
            var answer := rs[First(rs)].ending.sdp;
            var start := M.Pair(Carries(Lines(answer)), Carries(Lines(offer)));
            T.ParsesAs(M.Run(cfg, c, es).sdpTo, T.ReadableIn(cfg, c, start, es))
  {
    hide Parsed, Settled, M.Run, T.ReadableIn, T.ParsesAs, Carries, Lines;
    var d := Settled(cfg, o, offer, regs, rs, key, cancelled, deadline);
    AnsweredCallConnected(cfg, o, offer, regs, rs, key, cancelled, deadline);
    SettledKeys(cfg, o, offer, regs, rs, key, cancelled, deadline, m);
    var r := rs[First(rs)];
    T.SdpToParsesIff(cfg, AnsweredCall(d), m, offer, r.ending.sdp, OfferFor(regs[r.phone], key), es);
  }

  lemma SettledConsistent(cfg: M.Config, o: Outcome, offer: string, regs: seq<Phone>, rs: seq<ForkResult>, key: Crypto,
                          cancelled: bool, deadline: bool)
    requires ResultsOf(regs, rs) && key.WellFormed()
    requires CC.Consistent(o.sides.caller) && CC.Consistent(o.sides.callee) && !o.sides.callee.secure
    ensures K.BothConsistent(Settled(cfg, o, offer, regs, rs, key, cancelled, deadline).sides)
  {
    hide Parsed, Rewritten, FailureCode, E.Remoted, CC.AcceptedAnswer, CC.Consistent, Late, Invites, BodyFor;
    var w := First(rs);
    var keyed := o.sides.callee.(ours := Some(key));
    KeyedConsistent(o.sides.callee, key);
    if Parsed(offer).Ok? && rs != [] && w < |rs| && Parsed(rs[w].ending.sdp).Ok? {
      var info := Parsed(rs[w].ending.sdp).value;
      T.ParsedKeysWellFormed(rs[w].ending.sdp);
      K.MovedConsistent(keyed, info, rs[w].ending.source);
      K.AnswerConsistent(keyed.(leg := E.Remoted(keyed.leg, info, rs[w].ending.source)), info,
                         OfferFor(regs[rs[w].phone], key));
    }
  }

  lemma KeyedConsistent(s: CC.Side, key: Crypto)
    requires CC.Consistent(s) && !s.secure && key.WellFormed()
    ensures CC.Consistent(s.(ours := Some(key)))
  {}

  /**
   From the caller's INVITE on, whichever phone wins and whatever interleaves afterwards: a side is secure if and only
   if its leg encrypts, with that side's key, and a step replaces a key within its suite exactly at a stale answer.
   */
  lemma AnsweredCallKeys(cfg: M.Config, o: Outcome, offer: string, regs: seq<Phone>, rs: seq<ForkResult>, key: Crypto,
                         cancelled: bool, deadline: bool, m: T.Made, es: seq<M.Event>, e: M.Event, side: M.Leg)
    requires cfg.Valid() && ResultsOf(regs, rs) && Parsed(offer).Ok? && o.b.None? && !o.answered
    requires key.WellFormed() && key.key in m.callee && T.KeyMade(o.sides.caller.ours, m.caller)
    requires CC.Consistent(o.sides.caller) && CC.Consistent(o.sides.callee) && !o.sides.callee.secure
    requires Settled(cfg, o, offer, regs, rs, key, cancelled, deadline).answered
    requires (forall i | 0 <= i < |es| :: T.ValidEvent(es[i], false)) && T.ValidEvent(e, false)
    ensures var b := M.Run(cfg, AnsweredCall(Settled(cfg, o, offer, regs, rs, key, cancelled, deadline)), es);
            && K.BothConsistent(b.sides)
            && (K.Rekeyed(b.sides.At(side), M.Step(cfg, b, e).sides.At(side)) <==> K.StaleAnswer(b, e, side))
  {
    hide Parsed, Settled, M.Run, M.Step, K.BothConsistent, K.Rekeyed, K.StaleAnswer, CC.Consistent;
    var d := Settled(cfg, o, offer, regs, rs, key, cancelled, deadline);
    AnsweredCallConnected(cfg, o, offer, regs, rs, key, cancelled, deadline);
    SettledKeys(cfg, o, offer, regs, rs, key, cancelled, deadline, m);
    SettledConsistent(cfg, o, offer, regs, rs, key, cancelled, deadline);
    var r := rs[First(rs)];
    K.MachineKeys(cfg, AnsweredCall(d), m, offer, r.ending.sdp, OfferFor(regs[r.phone], key), es, e, side);
  }

  /** From the INVITE on, everything sent: see CallStory.EverythingSent. */
  lemma AnsweredCallTells(cfg: M.Config, o: Outcome, offer: string, regs: seq<Phone>, rs: seq<ForkResult>, key: Crypto,
                          cancelled: bool, deadline: bool, m: T.Made, es: seq<M.Event>, k: nat, id: nat)
    requires cfg.Valid() && ResultsOf(regs, rs) && Parsed(offer).Ok? && o.b.None? && !o.answered
    requires key.WellFormed() && key.key in m.callee && T.KeyMade(o.sides.caller.ours, m.caller)
    requires Settled(cfg, o, offer, regs, rs, key, cancelled, deadline).answered
    requires (forall i | 0 <= i < |es| :: T.ValidEvent(es[i], false)) && C.AskedAt(es, k, id)
    ensures var c := AnsweredCall(Settled(cfg, o, offer, regs, rs, key, cancelled, deadline));
            var d, made := M.Run(cfg, c, es), T.MadeIn(cfg, c, m, es);
            && C.SentOnOurs(cfg, d, es[k], id, made, false) && C.RepliedOurs(cfg, c, es, d, es[k], id, made, false)
  {
    hide Parsed, Settled, M.Run, T.MadeIn, C.SentOnOurs, C.RepliedOurs;
    var d := Settled(cfg, o, offer, regs, rs, key, cancelled, deadline);
    AnsweredCallConnected(cfg, o, offer, regs, rs, key, cancelled, deadline);
    SettledKeys(cfg, o, offer, regs, rs, key, cancelled, deadline, m);
    var r := rs[First(rs)];
    C.EverythingSent(cfg, AnsweredCall(d), m, false, offer, r.ending.sdp, OfferFor(regs[r.phone], key), es, k, id);
  }

  // ---- what each phone is offered ----

  /** An INVITE of the first n phones and what it offers. */
  ghost predicate Offering(cfg: M.Config, offer: string, regs: seq<Phone>, key: Crypto, n: nat, m: Message) {
    && m.Invite? && m.phone < n <= |regs| && regs[m.phone].reachable
    && OffersKey(m.sdp, if regs[m.phone].tls then Some(key) else None, cfg.ports.callee, cfg.ip)
    && (Parsed(m.sdp).Ok? <==> Carries(Lines(offer)))
  }

  /** The INVITEs: one to each phone that can be reached and what it offers. */
  lemma {:induction false} InvitesOffer(cfg: M.Config, offer: string, regs: seq<Phone>, key: Crypto, n: nat)
    requires n <= |regs| && Parsed(offer).Ok? && cfg.Valid() && key.WellFormed()
    ensures var sent := Invites(cfg, offer, regs, key, n);
            && (forall m | m in sent :: Offering(cfg, offer, regs, key, n, m))
            && (forall p | 0 <= p < n && regs[p].reachable :: exists m :: m in sent && m.Invite? && m.phone == p)
  {
    hide Parsed, Lines, Carries, OffersKey, BodyFor;
    if n > 0 {
      var before, p := Invites(cfg, offer, regs, key, n - 1), regs[n - 1];
      InvitesOffer(cfg, offer, regs, key, n - 1);
      BodyFails(cfg, offer, p, key);
      OfferedTo(cfg, offer, p, key);
      var sent := Invites(cfg, offer, regs, key, n);
      var last := if p.reachable then [Invite(n - 1, BodyFor(cfg, offer, p, key).value)] else [];
      assert sent == before + last;
      forall m | m in sent ensures Offering(cfg, offer, regs, key, n, m) {
        if m in before { assert Offering(cfg, offer, regs, key, n - 1, m); }
      }
      forall q | 0 <= q < n && regs[q].reachable ensures exists m :: m in sent && m.Invite? && m.phone == q {
        if q < n - 1 {
          var m :| m in before && m.Invite? && m.phone == q;
          assert m in sent;
        } else {
          assert last[0] in sent;
        }
      }
    }
  }

  lemma OfferedTo(cfg: M.Config, offer: string, p: Phone, key: Crypto)
    requires Parsed(offer).Ok? && cfg.Valid() && key.WellFormed()
    ensures var b := BodyFor(cfg, offer, p, key);
            b.Ok? && OffersKey(b.value, if p.tls then Some(key) else None, cfg.ports.callee, cfg.ip)
            && (Parsed(b.value).Ok? <==> Carries(Lines(offer)))
  {
    hide Parsed, Lines, Carries, OffersKey, Rewritten;
    RewritingOffers(offer, cfg.TargetFor(1, if p.tls then Some(key) else None));
  }

  /**
   Every INVITE of an attempt: it goes to a phone that can be reached, each of them gets one, and what it offers is SRTP
   with the call's key exactly if the phone is registered over TLS; to others no key is ever sent.
   */
  lemma SetupOffers(cfg: M.Config, o: Outcome, offer: string, regs: seq<Phone>, rs: seq<ForkResult>, key: Crypto,
                    cancelled: bool, deadline: bool)
    requires ResultsOf(regs, rs) && Parsed(offer).Ok? && cfg.Valid() && key.WellFormed()
    requires o.b.None? && !o.answered && o.sent == []
    ensures var d := Settled(cfg, o, offer, regs, rs, key, cancelled, deadline);
            && (forall m | m in d.sent && m.Invite? ::
                  m.phone < |regs| && regs[m.phone].reachable
                  && OffersKey(m.sdp, if regs[m.phone].tls then Some(key) else None, cfg.ports.callee, cfg.ip)
                  && (Parsed(m.sdp).Ok? <==> Carries(Lines(offer))))
            && (forall p | 0 <= p < |regs| && regs[p].reachable :: exists m :: m in d.sent && m.Invite? && m.phone == p)
  {
    hide Parsed, Lines, Carries, OffersKey, Settled, Invites, FailureCode, BodyFor, First;
    var d := Settled(cfg, o, offer, regs, rs, key, cancelled, deadline);
    var calls := Invites(cfg, offer, regs, key, |regs|);
    InvitesOffer(cfg, offer, regs, key, |regs|);
    if First(rs) == |rs| {
      NobodyAnswers(cfg, o, offer, regs, rs, key, cancelled, deadline);
    } else {
      FirstBounded(rs);
      SomebodyAnswers(cfg, o, offer, regs, rs, key, cancelled, deadline);
    }
    assert forall m :: m in d.sent && m.Invite? <==> m in calls;
    forall m | m in d.sent && m.Invite? ensures Offering(cfg, offer, regs, key, |regs|, m) {}
  }

  lemma FirstBounded(rs: seq<ForkResult>)
    ensures First(rs) <= |rs|
  {}

  /** An offer that cannot be read rings nobody. */
  lemma UnreadOffer(cfg: M.Config, o: Outcome, offer: string, regs: seq<Phone>, rs: seq<ForkResult>, key: Crypto,
                    cancelled: bool, deadline: bool)
    requires ResultsOf(regs, rs) && Parsed(offer).Err?
    ensures var d := Settled(cfg, o, offer, regs, rs, key, cancelled, deadline);
            d.b == o.b && d.answered == o.answered && d.sent == o.sent + [Final(if regs == [] then 480 else 488, "")]
  {
    hide Parsed;
  }

  // ---- what is agreed with the winner ----

  /** The winner's answer can be used: it can be read, and takes the key it was offered, or none. */
  ghost predicate Usable(answer: string, tls: bool, key: Crypto) {
    Parsed(answer).Ok?
    && var i := Parsed(answer).value;
       tls && i.secure ==> exists n: nat :: CC.AnswersAt(i.cryptos, key, n)
  }

  /**
   What connect comes to, from the two sides before it: the call is answered exactly if the answer can be used; if it
   can be read, the callee's media goes where it says, under the offered key and the phone's own if it took SRTP; and
   the caller is told of the PBX's own address and key.
   */
  ghost predicate Agreed(cfg: M.Config, caller: CC.Side, callee: CC.Side, d: Outcome, answer: Ending, tls: bool,
                         key: Crypto)
    requires answer.Answered?
  {
    && d.sides.caller == caller && (d.answered <==> Usable(answer.sdp, tls, key))
    && if Parsed(answer.sdp).Err? then d.sides.callee == callee
       else
         var i := Parsed(answer.sdp).value;
         && E.Aimed(callee.leg, d.sides.callee.leg, i, answer.source)
         && MF.AnswerKeys(callee, d.sides.callee, i, if tls then Some(key) else None)
         && (d.answered ==>
               OffersKey(d.sdpTo.caller, if caller.secure then caller.ours else None, cfg.ports.caller, cfg.ip)
               && (Parsed(d.sdpTo.caller).Ok? <==> Carries(Lines(answer.sdp))))
  }

  lemma ConnectedMedia(cfg: M.Config, o: Outcome, phone: nat, answer: Ending, tls: bool, key: Crypto)
    requires cfg.Valid() && key.WellFormed() && CC.Consistent(o.sides.caller) && CC.Consistent(o.sides.callee)
    requires !o.answered && answer.Answered?
    ensures var d := Connected(cfg, o, phone, answer.sdp, answer.source, if tls then Some(key) else None);
            Agreed(cfg, o.sides.caller, o.sides.callee, d, answer, tls, key)
  {
    hide Parsed, Rewritten, OffersKey, Carries, Lines, E.Remoted, E.Aimed, MF.AnswerKeys, CC.AcceptedAnswer,
         CC.AnswersAt;
    if Parsed(answer.sdp).Ok? {
      var s, i, offered := o.sides.callee, Parsed(answer.sdp).value, if tls then Some(key) else None;
      T.ParsedKeysWellFormed(answer.sdp);
      MF.AnswerAims(s, i, answer.source, offered);
      MF.AnswerKeysAre(s, i, answer.source, offered);
      CC.AnswerTaken(s.(leg := E.Remoted(s.leg, i, answer.source)), i, offered);
      CC.OfferedKeyInUse(o.sides.caller);
      RewritingOffers(answer.sdp, cfg.TargetFor(0, CC.OfferKey(o.sides.caller)));
    }
  }

  /** What becomes of the first answer. */
  lemma WinnerMedia(cfg: M.Config, o: Outcome, offer: string, regs: seq<Phone>, rs: seq<ForkResult>, key: Crypto,
                    cancelled: bool, deadline: bool)
    requires ResultsOf(regs, rs) && Parsed(offer).Ok? && cfg.Valid() && key.WellFormed()
    requires o.b.None? && !o.answered && First(rs) < |rs|
    requires CC.Consistent(o.sides.caller) && CC.Consistent(o.sides.callee) && !o.sides.callee.secure
    ensures var d := Settled(cfg, o, offer, regs, rs, key, cancelled, deadline);
            var r := rs[First(rs)];
            Agreed(cfg, o.sides.caller, o.sides.callee.(ours := Some(key)), d, r.ending, regs[r.phone].tls, key)
  {
    hide Parsed, Agreed, CC.Consistent, FailureCode, Invites, BodyFor, Connected, Late;
    var r := rs[First(rs)];
    var p := regs[r.phone];
    KeyedConsistent(o.sides.callee, key);
    BodyFails(cfg, offer, p, key);
    var before := o.(sides := M.Pair(o.sides.caller, o.sides.callee.(ours := Some(key))),
                     sent := o.sent + Invites(cfg, offer, regs, key, |regs|),
                     sdpTo := M.Pair(o.sdpTo.caller, BodyFor(cfg, offer, p, key).value),
                     dropped := o.dropped + Late(rs[First(rs) + 1..]));
    assert Settled(cfg, o, offer, regs, rs, key, cancelled, deadline) ==
           Connected(cfg, before, r.phone, r.ending.sdp, r.ending.source, OfferFor(p, key));
    ConnectedMedia(cfg, before, r.phone, r.ending, p.tls, key);
  }
}
