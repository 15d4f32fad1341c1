/**
 SRTP keys of one side of a call (internal/b2bua/crypto.go): each phone has its keys with the PBX alone. The PBX's
 key for a side outlives renegotiations and changes only with the suite.
 */
module CallCrypto {
  import opened Basics
  import opened SdpCrypto
  import opened SdpParse
  import E = Endpoint

  /** keys[side], secure[side] and what is installed on that side's leg. */
  datatype Side = Side(ours: Option<Crypto>, secure: bool, leg: E.State)

  const NEW := Side(None, false, E.FRESH)

  /** setCrypto: install, then remember. */
  function Installed(s: Side, phone: Option<Crypto>, ours: Option<Crypto>): Side
    requires phone.Some? == ours.Some?
  {
    Side(if ours.Some? then ours else s.ours, ours.Some?, E.Keyed(s.leg, phone, ours))
  }

  /** The PBX key answering a phone's: the one it has when the suite fits, with the phone's tag; else a new one. */
  function AnswerKey(ours: Option<Crypto>, phone: Crypto, drawn: seq<Byte>): Crypto {
    if ours.None? || ours.value.suite != phone.suite then Crypto(phone.tag, phone.suite, drawn)
    else ours.value.(tag := phone.tag)
  }

  /** acceptOffer; None is the error "SRTP requested without a supported key". */
  function AcceptedOffer(s: Side, i: Info, drawn: seq<Byte>): (Side, Option<Option<Crypto>>) {
    if !i.secure then (Installed(s, None, None), Some(None))
    else if i.cryptos == [] then (s, None)
    else
      var ours := AnswerKey(s.ours, i.cryptos[0], drawn);
      (Installed(s, Some(i.cryptos[0]), Some(ours)), Some(Some(ours)))
  }

  /** The phone's line that answers ours: same tag, same suite. */
  function Answering(cs: seq<Crypto>, offered: Crypto): Option<Crypto> {
    if cs == [] then None
    else if cs[0].tag == offered.tag && cs[0].suite == offered.suite then Some(cs[0]) else Answering(cs[1..], offered)
  }

  /** acceptAnswer; false is the same error. */
  function AcceptedAnswer(s: Side, i: Info, offered: Option<Crypto>): (Side, bool) {
    if offered.None? || !i.secure then (Installed(s, None, None), true)
    else match Answering(i.cryptos, offered.value)
      case None => (s, false)
      case Some(phone) => (Installed(s, Some(phone), offered), true)
  }

  /** offerKey: the key for an offer to that side. */
  function OfferKey(s: Side): Option<Crypto> {
    if s.secure then s.ours else None
  }

  /** Both sides' bookkeeping, as the call keeps it. */
  class Keys {
    var ours: Option<Crypto>
    var secure: bool
    const leg: E.Leg

    ghost function View(): Side
      reads this, leg
    {
      Side(ours, secure, leg.View())
    }

    constructor (leg: E.Leg)
      ensures this.leg == leg && View() == Side(None, false, leg.View())
    {
      this.leg, ours, secure := leg, None, false;
    }

    method SetCrypto(phone: Option<Crypto>, key: Option<Crypto>) returns (ok: bool)
      requires phone.Some? == key.Some?
      requires phone.Some? ==> phone.value.WellFormed() && key.value.WellFormed()
      requires leg as object != this
      modifies this, leg
      ensures ok && View() == Installed(old(View()), phone, key)
    {
      ok := leg.SetCrypto(phone, key);
      if key.Some? { ours := key; }
      secure := key.Some?;
    }

    /** drawn is the random key, used only when the suite is new. */
    method AcceptOffer(i: Info, drawn: seq<Byte>) returns (r: Option<Option<Crypto>>)
      requires forall c | c in i.cryptos :: c.WellFormed()
      requires |drawn| == KEY_LEN && (ours.Some? ==> ours.value.WellFormed())
      requires leg as object != this
      modifies this, leg
      ensures (View(), r) == AcceptedOffer(old(View()), i, drawn)
    {
      if !i.secure {
        var ok := SetCrypto(None, None);
        return Some(None);
      }
      if i.cryptos == [] { return None; }
      var phone := i.cryptos[0];
      assert phone in i.cryptos;
      var key := if ours.None? || ours.value.suite != phone.suite then Crypto(phone.tag, phone.suite, drawn)
                 else ours.value.(tag := phone.tag);
      var ok := SetCrypto(Some(phone), Some(key));
      return Some(Some(key));
    }

    method AcceptAnswer(i: Info, offered: Option<Crypto>) returns (ok: bool)
      requires forall c | c in i.cryptos :: c.WellFormed()
      requires offered.Some? ==> offered.value.WellFormed()
      requires leg as object != this
      modifies this, leg
      ensures (View(), ok) == AcceptedAnswer(old(View()), i, offered)
    {
      if offered.None? || !i.secure {
        ok := SetCrypto(None, None);
        return;
      }
      for n := 0 to |i.cryptos|
        invariant View() == old(View())
        invariant Answering(i.cryptos[n..], offered.value) == Answering(i.cryptos, offered.value)
      {
        var pc := i.cryptos[n];
        assert i.cryptos[n..][1..] == i.cryptos[n + 1..] && pc in i.cryptos;
        if pc.tag == offered.value.tag && pc.suite == offered.value.suite {
          ok := SetCrypto(Some(pc), offered);
          return;
        }
      }
      assert i.cryptos[|i.cryptos|..] == [];
      ok := false;
    }
  }

  // ---- runs of offers and answers ----

  /** An offer from the phone, with the random key drawn for it, or the phone's answer to an offer of ours. */
  datatype Exchange = Offer(i: Info, drawn: seq<Byte>) | Answer(i: Info, keyed: bool)

  ghost predicate ValidExchange(x: Exchange) {
    && (forall n | 0 <= n < |x.i.cryptos| :: x.i.cryptos[n].WellFormed())
    && (x.Offer? ==> |x.drawn| == KEY_LEN)
  }

  /** The PBX offers the key it has, or none. */
  function Step(s: Side, x: Exchange): Side {
    match x
    case Offer(i, drawn) => AcceptedOffer(s, i, drawn).0
    case Answer(i, keyed) => AcceptedAnswer(s, i, if keyed then s.ours else None).0
  }

  function Run(s: Side, xs: seq<Exchange>): Side {
    if xs == [] then s else Step(Run(s, xs[..|xs| - 1]), xs[|xs| - 1])
  }

  /** A side is secure exactly when its leg encrypts, and then it encrypts with the side's key. */
  ghost predicate Consistent(s: Side) {
    && (s.ours.Some? ==> s.ours.value.WellFormed())
    && s.secure == s.leg.crypto.Some?
    && (s.secure ==>
      s.ours.Some? && s.leg.crypto.value.outKey.Equal(s.ours.value) &&
      s.leg.crypto.value.inKey.suite == s.ours.value.suite)
  }

  lemma AnsweringFits(cs: seq<Crypto>, offered: Crypto)
    requires Answering(cs, offered).Some?
    ensures Answering(cs, offered).value in cs
    ensures Answering(cs, offered).value.tag == offered.tag && Answering(cs, offered).value.suite == offered.suite
  {}

  lemma StepConsistent(s: Side, x: Exchange)
    requires Consistent(s) && ValidExchange(x)
    ensures Consistent(Step(s, x))
    ensures s.ours.Some? ==> Step(s, x).ours.Some?
    ensures s.ours.Some? && Step(s, x).ours.value.key != s.ours.value.key ==>
        Step(s, x).ours.value.suite != s.ours.value.suite
  {
    if x.Answer? && s.ours.Some? && Answering(x.i.cryptos, s.ours.value).Some? {
      AnsweringFits(x.i.cryptos, s.ours.value);
    }
  }

  /**
   After every run of offers and answers: secure if and only if the leg has keys, the installed outgoing key is the
   side's, both directions use one suite; and the next exchange changes the PBX's key only by changing the suite.
   */
  lemma {:induction false} KeysConsistent(s: Side, xs: seq<Exchange>, x: Exchange)
    requires Consistent(s) && ValidExchange(x)
    requires forall n | 0 <= n < |xs| :: ValidExchange(xs[n])
    ensures Consistent(Run(s, xs))
    ensures var now, then' := Run(s, xs), Step(Run(s, xs), x);
            now.ours.Some? ==>
              (then'.ours.Some? &&
               (then'.ours.value.key != now.ours.value.key ==> then'.ours.value.suite != now.ours.value.suite))
  {
    if xs != [] {
      KeysConsistent(s, xs[..|xs| - 1], xs[|xs| - 1]);
      StepConsistent(Run(s, xs[..|xs| - 1]), xs[|xs| - 1]);
    }
    StepConsistent(Run(s, xs), x);
  }

  /**
   The reply to an accepted SRTP offer echoes the phone's tag and suite, with the key the side has if it was made for
   that suite and a fresh one otherwise; the phone's first key and this one are installed.
   */
  lemma OfferReply(s: Side, i: Info, drawn: seq<Byte>)
    requires Consistent(s) && ValidExchange(Offer(i, drawn))
    ensures var (s', r) := AcceptedOffer(s, i, drawn);
            && (r.None? <==> i.secure && i.cryptos == [])
            && (r.None? ==> s' == s)
            && (r.Some? ==> r.value.Some? == i.secure == s'.secure)
            && (r.Some? && r.value.Some? ==>
              && r.value.value.WellFormed() && s'.ours == r.value
              && r.value.value.tag == i.cryptos[0].tag && r.value.value.suite == i.cryptos[0].suite
              && (s.ours.Some? && s.ours.value.suite == i.cryptos[0].suite ==> r.value.value.key == s.ours.value.key)
              && (s.ours.None? || s.ours.value.suite != i.cryptos[0].suite ==> r.value.value.key == drawn)
              && s'.leg.crypto.value.inKey.Equal(i.cryptos[0]) && s'.leg.crypto.value.outKey.Equal(r.value.value))
            && (r == Some(None) ==> s'.leg.crypto.None? && s'.ours == s.ours)
  {}

  /** The phone's line n answers ours, and none before it does. */
  ghost predicate AnswersAt(cs: seq<Crypto>, offered: Crypto, n: nat) {
    && n < |cs| && cs[n].tag == offered.tag && cs[n].suite == offered.suite
    && forall m | 0 <= m < n :: cs[m].tag != offered.tag || cs[m].suite != offered.suite
  }

  lemma {:induction false} AnsweringAt(cs: seq<Crypto>, offered: Crypto)
    ensures Answering(cs, offered).None? ==> forall n: nat :: !AnswersAt(cs, offered, n)
    ensures forall n: nat | AnswersAt(cs, offered, n) :: Answering(cs, offered) == Some(cs[n])
    ensures Answering(cs, offered).Some? ==> exists n: nat :: AnswersAt(cs, offered, n)
  {
    if cs != [] {
      if cs[0].tag == offered.tag && cs[0].suite == offered.suite {
        assert AnswersAt(cs, offered, 0);
      } else {
        AnsweringAt(cs[1..], offered);
        forall n: nat ensures AnswersAt(cs, offered, n) <==> n > 0 && AnswersAt(cs[1..], offered, n - 1) {
          AnswersLater(cs, offered, n);
        }
        if Answering(cs, offered).Some? {
          var n: nat :| AnswersAt(cs[1..], offered, n);
          AnswersLater(cs, offered, n + 1);
        }
      }
    }
  }

  lemma AnswersLater(cs: seq<Crypto>, offered: Crypto, n: nat)
    requires cs != [] && (cs[0].tag != offered.tag || cs[0].suite != offered.suite)
    ensures AnswersAt(cs, offered, n) <==> n > 0 && AnswersAt(cs[1..], offered, n - 1)
  {
    if n > 0 && AnswersAt(cs[1..], offered, n - 1) {
      forall m | 0 < m < n ensures cs[m].tag != offered.tag || cs[m].suite != offered.suite {
        assert cs[1..][m - 1] == cs[m];
      }
    }
    if AnswersAt(cs, offered, n) { assert forall m | 0 <= m < n - 1 :: cs[1..][m] == cs[m + 1]; }
  }

  /**
   A phone's answer: plain if we offered no key or it took none; else its first line with our tag and suite is
   installed with our key, and without such a line it is an error that changes nothing.
   */
  lemma AnswerTaken(s: Side, i: Info, offered: Option<Crypto>)
    requires forall n | 0 <= n < |i.cryptos| :: i.cryptos[n].WellFormed()
    requires offered.Some? ==> offered.value.WellFormed()
    ensures var (s', ok) := AcceptedAnswer(s, i, offered);
            if offered.None? || !i.secure then ok && !s'.secure && s'.leg.crypto.None? && s'.ours == s.ours
            else
              && (ok <==> exists n: nat :: AnswersAt(i.cryptos, offered.value, n)) && (!ok ==> s' == s)
              && forall n: nat | AnswersAt(i.cryptos, offered.value, n) ::
                   s'.secure && s'.ours == offered && s'.leg.crypto.Some?
                   && s'.leg.crypto.value.inKey.Equal(i.cryptos[n])
                   && s'.leg.crypto.value.outKey.Equal(offered.value)
  {
    hide Answering;
    if offered.Some? { AnsweringAt(i.cryptos, offered.value); }
  }

  /** An offer of ours has the key its leg encrypts with, and none for a plain leg. */
  lemma OfferedKeyInUse(s: Side)
    requires Consistent(s)
    ensures var k := OfferKey(s);
            && (k.Some? <==> s.leg.crypto.Some?)
            && (k.Some? ==> k == s.ours && s.leg.crypto.value.outKey.Equal(k.value))
  {}

  /** A phone that repeats its keys never rebuilds the contexts, whatever it says about tags. */
  lemma RepeatedOfferKeepsContexts(s: Side, i: Info, j: Info, drawn: seq<Byte>, again: seq<Byte>)
    requires Consistent(s) && ValidExchange(Offer(i, drawn)) && ValidExchange(Offer(j, again))
    requires i.secure && j.secure && i.cryptos != [] && j.cryptos != [] && i.cryptos[0].Equal(j.cryptos[0])
    ensures Step(Step(s, Offer(i, drawn)), Offer(j, again)).leg == Step(s, Offer(i, drawn)).leg
  {}
}
