# SIPBXGO in Dafny

A model of the parts of the SIPBXGO back-to-back PBX whose correctness is not visible in any one function, with
proofs. `dafny verify dfyconfig.toml` checks all of it.

* **SDP** (`Text`, `Netip`, `Base64`, `SdpCrypto`, `SdpParse`, `SdpMeaning`, `SdpRewrite`, `RewriteLines`,
  `RewriteTwice`, `RewriteMeaning`, `AudioChoice`, `TabbedAudio`, `SdpDirection`, `SdpVersion`, `SdpOurs`, `SdpReads`,
  `PassThrough`, `KeyOffers`, `SdpBuild`): the four line editors and the printer work on real text, line by line and word
  by word. `Parse` is proved equal to an order-free reading of the body by sections, and every editor is judged by what
  that reading sees afterwards. `SdpReads` says by their text what is read on lines phones write, `PassThrough` what
  becomes of every single line of a body, byte for byte.
* **Calls** (`Endpoint`, `CallCrypto`, `CallMachine`, `CallText`, `CallStory`, `CallKeys`, `LastSdp`, `Reoffers`,
  `StaleKeys`, `MediaFollows`, `HoldAnswers`, `Relay`, `Call`, `Fork`, `Engine`): forking, NAT latching, SRTP keys, re-INVITEs in any
  interleaving and what the phones are told, hold answered at the PBX, the call index and the call records. State
  machines have one event for each atomic step of the source and invariants over all runs; the objects' methods are
  proved against the same step functions.
* **Conference rooms** (`Rooms`, `Audio`, `Fifo`, `Mixer`, `Rendering`, `RoomAudio`, `Stranded`, `Keypad`): room creation
  and removal under two locks, the mixer and what each participant hears, the receive buffer, rooms together with their endpoints and audio, telephone
  events and the PIN.
* **Ports and bans** (`PortPool`, `BanList`).

Inputs from outside are parameters: a packet is its source, its path and whether it decrypts; a bind is a Boolean; a
SIP exchange is an event; random keys and the clock are values passed in. Text is a sequence of characters.

## What the proofs found

The model follows the code. Where code, comments and expectation part, the lemmas named here say exactly how:

* `Parse` looks for the prefix `m=audio ` and `Rewrite` for the first word `m=audio`. A line with a tab in between,
  before the audio line, makes `Rewrite` take the wrong stream (`TabbedAudio.TabbedAudioIsMistaken`), or, if it names
  no codec, write a body that no longer parses though both accepted the original (`TabbedAudio.TabbedAudioIsLost`).
  `AudioChoice.MovedMeans` says what comes out for every body, `AudioChoice.MeaningKeptIff` when it means the same, and
  `CallText.SdpToParsesIff` carries the condition through every run: a phone whose SDP came from a body that does not
  carry is answered 488 when it holds or resumes.
* `Rewrite` keeps a stream disabled only for the word `0`; `0/2` and `00` get the relay's port
  (`TabbedAudio.DisabledStreamReopens`, `AudioChoice.DisabledIffZero`).
* `BumpVersion` wraps at 2^64 (`SdpVersion.BumpedSessions` counts modulo 2^64).
* `sdpTo` of the other phone is replaced before that phone answers, and stays so however it answers: refused
  (`Reoffers.RefusedOfferStays`), not at all (`Reoffers.LostOfferStays`), with SDP that cannot be read, which the
  asking phone is told as 488 (`Reoffers.UnreadAnswerStays`), or with a failure that carries SDP, which replaces both
  phones' (`Reoffers.RefusalWithSdpStays`). `LastSdp.SdpToTrace` says what is recorded in any state of any run and
  `LastSdp.RecordedIff` when that exchange succeeded. Session refreshes and holds are answered from it
  (`Reoffers.OfferComesBack`, `Reoffers.OfferIsHeld`).
* Only offers are rewritten. Apart from offerless re-INVITEs, the answer to a request without one goes back as it came,
  with the other phone's addresses and keys, and so does an answer with another label than SDP; both are labelled SDP
  (`CallStory.EverythingSent`, `CallStory.HandedOnAnything`, `CallStory.AlwaysOursIff`).
* An answer to an offer whose key has since been replaced brings the old key back (`CallKeys.MachineKeys`; a run that
  gets there is `StaleKeys.StaleAnswerReached`).
* An UPDATE changes the key a leg uses and not the SDP recorded for it, so a session refresh can be answered with a key
  no longer in use (`StaleKeys.OldKeyAnswered`; exactly when, `LastSdp.KeyInUseIff`).
* `Join` does not look at `left`: a participant whose `Leave` came first is listed from its `Join` on and its room is
  never removed (`Rooms.LeaveBeforeJoin`, `Rooms.LeaveBeforeJoinStays`). `Rooms.ListedIff` says who is listed in any
  run.
* When `Leave` and `Join` of a participant overlap, it can be left in the room with audio on a closed endpoint, whose
  pair is free again. With at most s participants so stranded the mixer's sums fit 32 bits in every tick of every run
  if and only if s and the pairs of the pool together are at most 65536 (`Stranded.FitsIff`;
  `Stranded.OverlapOverflows` is a run beyond). Without overlap nobody is (`RoomAudio.ApartStrandsNone`) and the sums
  are exact.
* A wrong PIN is a try with its last key, so the `#` the prompt asks for is a second, empty try
  (`Keypad.HashCostsATry`). The kick after three failures is delayed, and until it happens the right PIN still admits
  (`Keypad.RightAfterManyWrong`).

## Model

| member | source | states |
|---|---|---|
| `Text.LinesAreLines` | internal/sdp/sdp.go:252-262 | lines yields non-empty lines without line ends or trailing blanks |
| `Text.LinesUnlines` | internal/sdp/sdp.go:252-262 | what an editor joins with CRLF is read back as the same lines |
| `Text.LinesOfBoth` | internal/sdp/sdp.go:252-262 | a text cut at a line feed has the lines of the two parts |
| `Text.LineOfText` | internal/sdp/sdp.go:252-262 | one without line feed is its own line without carriage returns, blanks and tabs at the end, or none |
| `Text.UnlinesBoth` | internal/sdp/sdp.go:179-182 | lines are written one after another |
| `Text.UnlinesOne` | internal/sdp/sdp.go:179-182 | each with CRLF after it |
| `Text.FieldsJoin` | internal/sdp/sdp.go:193-196 | splitting a joined list of words gives the words back |
| `Netip.AddrRoundTrip` | internal/sdp/sdp.go:265-275 | a printed IPv4 address reads as itself and is a single word without a slash |
| `Netip.AddrIff` | internal/sdp/sdp.go:265-275 | an address is read from its dotted decimal form, without leading zeros, and from no other text |
| `Base64.DecodeEncode` | internal/sdp/crypto.go:45-47 | base64 of any bytes decodes to those bytes (section 4 of RFC 4648) |
| `Base64.GroupIsBits` | internal/sdp/crypto.go:45-47 | a group of four characters holds the 24 bits of three bytes, high to low |
| `Base64.DecodedIsPadded` | internal/sdp/crypto.go:82-89 | what is decoded is whole groups of four characters of the alphabet with at most two padding characters, at the end |
| `Base64.DecodedLength` | internal/sdp/crypto.go:82-89 | all of that is decoded, to three bytes a group less the padding |
| `SdpCrypto.PadBase64` | internal/sdp/crypto.go:97-102 | keys are padded to a multiple of four, by less than four characters, with the key text as a prefix |
| `SdpCrypto.ParseCrypto` | internal/sdp/crypto.go:63-94 | only keys with a supported suite, a tag in range and 30 bytes get through |
| `SdpCrypto.CryptoRoundTrip` | internal/sdp/crypto.go:45-94 | a printed key parses to the same tag, suite and 30 key bytes (section 9.2 of RFC 4568) |
| `SdpReads.KeyLineReads` | internal/sdp/crypto.go:63-94 | for every key line by its words: it gives a key if and only if the tag is a number not below 0, the suite one of the two and the first key parameter inline with 30 bytes, padded or not, whatever lifetime or parameters follow, unless a master key identifier does |
| `SdpReads.OtherKeyMethod` | internal/sdp/crypto.go:77-80 | a key parameter that is not inline gives none |
| `SdpReads.ShortKeyLine` | internal/sdp/crypto.go:63-67 | nor do fewer than three words |
| `SdpParse.Parse` | internal/sdp/sdp.go:59-155 | the line loop with its flags computes the scan that the other lemmas speak about, errors included |
| `SdpReads.AudioLineReads` | internal/sdp/sdp.go:77-93 | an audio line by its words: port up to a slash, SRTP exactly if SAVP is anywhere in the profile, the codecs, or which of two errors |
| `SdpReads.NumbersOfBoth` | internal/sdp/sdp.go:88-92 | the codecs are read word by word, in order |
| `SdpReads.NumberOfOne` | internal/sdp/sdp.go:88-92 | a word that is no number is skipped |
| `SdpReads.NumbersSigned` | internal/sdp/sdp.go:82-92 | numbers may have a sign and leading zeros, and must fit 64 bits |
| `SdpReads.RtpmapReads` | internal/sdp/sdp.go:107-113 | keypad tones by the words of the line: exactly two, the second beginning with telephone-event/8000 in any case |
| `SdpReads.RtcpReads` | internal/sdp/sdp.go:118-124 | the first word is the port, whatever follows |
| `SdpReads.ConnectionReads` | internal/sdp/sdp.go:265-275 | the third word up to a slash is the address, whatever the others |
| `SdpReads.ShortConnection` | internal/sdp/sdp.go:265-275 | fewer than three words have none |
| `SdpReads.OnHoldIff` | internal/sdp/sdp.go:54-56 | SDP is a hold if and only if its address is 0.0.0.0 or the direction line that counts, the last of the first audio section or else the last before any stream, says sendonly or inactive |
| `SdpParse.FirstG711` | internal/sdp/sdp.go:43-50 | the codec preferred is the first PCMU or PCMA listed, the index of it |
| `SdpMeaning.ParsedMeaning` | internal/sdp/sdp.go:59-155 | for all bodies: Parse finds what the session part and the first audio section say, last usable value of each kind, all usable keys in order, media level before session level, with the same errors |
| `SdpRewrite.Rewrite` | internal/sdp/sdp.go:168-233 | the pass that writes as it reads produces the specified lines, of which PassThrough says what becomes of each |
| `SdpRewrite.RewriteFailsWithParse` | internal/sdp/sdp.go:168-171 | Rewrite fails if and only if Parse does, so callers' error branches after a successful Parse are dead |
| `PassThrough.RewriteLeaves` | internal/sdp/sdp.go:168-233 | for every body and target: the lines that begin with none of o=, c=, m=, a=rtcp:, a=crypto: come through byte for byte and in order, except that those of ICE, DTLS, ZRTP and rtcp-mux, each spelled out, are gone |
| `PassThrough.RewriteLineByLine` | internal/sdp/sdp.go:190-216 | the others but a=rtcp and a=crypto, one for one and in order: the words of every o= and m= line and the text of every c= line afterwards |
| `PassThrough.RewriteRenews` | internal/sdp/sdp.go:184-221 | the a=rtcp and a=crypto lines afterwards, in order and in full: one a=rtcp for each in the audio section, at port+1, and then the one key, if any |
| `KeyOffers.RewritingOffers` | internal/sdp/sdp.go:168-233 | SDP written for a key offers SRTP with that key, and for none plain RTP; no line of it has another key |
| `RewriteLines.AudioProtoShape` | internal/sdp/sdp.go:237-249 | whatever the profile was, the new one is a word, and secure for Parse exactly when there is a key |
| `RewriteTwice.LastWriteWins` | internal/sdp/sdp.go:168-233 | whenever a rewritten body parses again, rewriting it for a second target equals rewriting the original for it, byte for byte, hence idempotence; for a specified first address and port at least 1 |
| `RewriteMeaning.RewriteKeepsMeaning` | internal/sdp/sdp.go:159-233 | a rewritten plain body parses to the same codecs, direction and keypad type, to exactly the target's key or none, to the relay's address unless on hold at 0.0.0.0 and its port unless disabled, with RTCP at port+1; all other bodies are settled by AudioChoice.MeaningKeptIff |
| `RewriteMeaning.AudioChosenIffPlain` | internal/sdp/sdp.go:77-79 | Rewrite takes for audio the very line Parse does if and only if no earlier line is audio by its first word alone |
| `AudioChoice.RepairedMoved` | internal/sdp/sdp.go:202-216 | Rewrite cannot tell any body from the one whose first line that is audio by its first word is written with single spaces and a readable port |
| `AudioChoice.MovedMeans` | internal/sdp/sdp.go:168-233 | for every body Parse accepts and every target: what Parse makes of the rewritten body is what it makes of that repaired body, moved, or its error; and it accepts it if and only if the stream taken has a codec and an address |
| `AudioChoice.MeaningKeptIff` | internal/sdp/sdp.go:159-233 | for every body Parse accepts: the rewritten body parses to the same call if and only if the repaired body parses and describes the same call |
| `AudioChoice.RewriteMeans` | internal/sdp/sdp.go:168-233 | the same for whole texts |
| `AudioChoice.RewriteTwiceIff` | internal/sdp/sdp.go:168-233 | a second rewriting succeeds if and only if the stream taken has a codec and an address, and then equals one rewriting of the original |
| `AudioChoice.PlainIff` | internal/sdp/sdp.go:77-79 | a body is plain if and only if Parse and Rewrite take the same line, and then the output always parses |
| `AudioChoice.DisabledIffZero` | internal/sdp/sdp.go:208-210 | a plain body's stream is disabled after rewriting if and only if its port word is 0 |
| `TabbedAudio.EarlierLineTakesOver` | internal/sdp/sdp.go:202-216 | for every body Parse accepts, any length and key: Parse reads the codecs of its own line, and of the rewritten body those of the first line that is audio by its first word; or it rejects it, with the error for a line of fewer than four words or for a missing address |
| `TabbedAudio.TabbedAudioIsMistaken` | internal/sdp/sdp.go:77-77 | a concrete body for it: Parse reads codec b, the rewritten body offers codec a |
| `TabbedAudio.TabbedAudioIsLost` | internal/sdp/sdp.go:204-216 | a concrete body both accept whose rewriting nobody can parse |
| `TabbedAudio.DisabledStreamReopens` | internal/sdp/sdp.go:208-210 | concrete bodies with port 0/2 or 00: port 0 to Parse, the relay's port after rewriting |
| `SdpDirection.AnswerIsMirror` | internal/sdp/sdp.go:279-289 | the answerer may send exactly when the offerer may receive and the other way round, for any offered text (section 6.1 of RFC 3264) |
| `SdpDirection.SetDirection` | internal/sdp/sdp.go:293-314 | the loop with its two flags drops every direction line and places the new one at the end of the first audio section |
| `PassThrough.DirectionLeaves` | internal/sdp/sdp.go:293-314 | the edited body, line by line: all but the four direction lines as they were, and the new one at the end of the first audio section |
| `SdpDirection.SetDirectionMeaning` | internal/sdp/sdp.go:293-314 | Parse of the edited body is Parse of the body with the direction replaced, errors included |
| `SdpVersion.BumpVersion` | internal/sdp/sdp.go:318-332 | the loop computes the specified edit |
| `PassThrough.BumpLeaves` | internal/sdp/sdp.go:318-332 | every line afterwards: only the third word of an o= line of six words changes, to the next 64-bit number |
| `SdpVersion.BumpVersionMeaning` | internal/sdp/sdp.go:318-332 | Parse cannot tell a bumped body from the original |
| `SdpVersion.BumpedSessions` | internal/sdp/sdp.go:318-332 | every o= line keeps user and session id, and its version goes up by one modulo 2^64 |
| `SdpVersion.MovedSessions` | internal/sdp/sdp.go:192-197 | rewriting changes no session's user, id or version |
| `SdpVersion.DirectedSessions` | internal/sdp/sdp.go:293-314 | nor does setting the direction |
| `SdpBuild.BuildRoundTrip` | internal/sdp/sdp.go:348-391 | Parse of a built answer recovers address, port, codecs, keypad type, key and direction for every well-formed description |
| `SdpBuild.BuiltText` | internal/sdp/sdp.go:348-391 | the built body line by line as text: with the codec names, the keypad range, the profile, the direction and the key where they belong |
| `SdpOurs.MovedOurs` | internal/sdp/sdp.go:168-233 | whatever body came in, in the rewritten one every o= line of six words, every c= line with an address, every m= port, every a=rtcp and every a=crypto line is the PBX's; an o= line of another length or a c= line without a readable address stays as it was |
| `SdpOurs.ParsedOurs` | internal/sdp/sdp.go:59-155 | a body of such lines parses to the PBX's address or hold, the given port or 0, and no key but the given one |
| `HoldAnswers.OneHoldAnswer` | internal/b2bua/call.go:497-509 | the answer to hold or resume parses like the SDP the phone has, moved to the target; it lets each side send exactly what the other may receive, word by word sendonly to recvonly and so on, and is inactive to 0.0.0.0 (section 8.4 of RFC 3264) |
| `HoldAnswers.HoldRun` | internal/b2bua/call.go:497-509 | along any run of such re-INVITEs the n-th answer keeps the codecs and the o= user and id, has the o= version n above the start, carries the last key and mirrors the last offer in the same words |
| `PassThrough.HoldLeaves` | internal/b2bua/call.go:497-509 | and every line of the SDP the phone has that neither Rewrite nor SetDirection nor BumpVersion is about is in the answer, byte for byte and in order |
| `Endpoint.Leg.SetRemote` | internal/media/endpoint.go:94-118 | the new state of allowed sources, port and both paths for every SDP, hold included |
| `Endpoint.Leg.Receive` | internal/media/endpoint.go:194-237 | one turn of the read loop: counters, latching, and delivery exactly when accepted |
| `Endpoint.Leg.SetCrypto` | internal/media/endpoint.go:158-185 | keys in both directions or none; contexts rebuilt only for a changed key or suite |
| `Endpoint.Leg.Close` | internal/media/endpoint.go:287-294 | however often it is called, the pair goes back once |
| `Endpoint.LatchingTrace` | internal/media/endpoint.go:94-118 | after every history, by the place of events in it: the allowed sources are those of the last SDP that is not a hold; each path's peer was set by the last event that was an accepted packet on it, to its source, or an effective retarget, to the SDP's address or for an address in 10/8, 172.16/12, 192.168/16, 127/8 or 169.254/16 the signalling one, ports modulo 65536; a path is latched if a packet was accepted on it since the last retarget; every packet is counted once |
| `Endpoint.RetargetPeers` | internal/media/endpoint.go:94-118 | both peers after every effective retarget of every history, for ports below 65536 |
| `Endpoint.KeyedIff` | internal/media/endpoint.go:158-185 | the installed keys are those given, by suite and key, and the contexts are built anew exactly if one of these changes |
| `Endpoint.RefusedChangesNothing` | internal/media/endpoint.go:203-219 | a refused packet moves its own counter only; hold SDP changes nothing; repeated SDP never moves a latched path |
| `CallCrypto.Keys.SetCrypto` | internal/b2bua/crypto.go:68-79 | the side's flags and the leg's keys change together |
| `CallCrypto.Keys.AcceptOffer` | internal/b2bua/crypto.go:25-49 | the new bookkeeping and the key for the answer, or the error |
| `CallCrypto.Keys.AcceptAnswer` | internal/b2bua/crypto.go:53-66 | the search for the line answering ours, and the new bookkeeping |
| `CallCrypto.KeysConsistent` | internal/b2bua/crypto.go:25-89 | after every run of offers and answers: secure if and only if the leg encrypts, with the side's key outgoing and one suite both ways; and an exchange changes the key bytes only with the suite |
| `CallCrypto.OfferReply` | internal/b2bua/crypto.go:25-49 | the reply to an accepted SRTP offer echoes the phone's tag and suite (section 5.1.2 of RFC 4568), with the key the side has if that was made for the suite and else the fresh one; it and the phone's first key are installed; refusal changes nothing |
| `CallCrypto.AnswerTaken` | internal/b2bua/crypto.go:53-66 | an answer is taken if we offered no key, if it is plain, or if a line of it has our tag and suite: the first such is installed with our key; otherwise nothing changes |
| `CallCrypto.OfferedKeyInUse` | internal/b2bua/crypto.go:82-89 | an offer of ours has the key the leg encrypts with, and none for a plain leg |
| `CallCrypto.RepeatedOfferKeepsContexts` | internal/b2bua/crypto.go:25-49 | repeating unchanged phone keys, under any tag, rebuilds no SRTP context |
| `CallMachine.OneReinvite` | internal/b2bua/call.go:391-406 | in every interleaving at most one re-INVITE is in progress, the flag is set exactly while there is one, a re-INVITE arriving then and only then is answered 491 at once (section 14.2 of RFC 3261), and a reply never changes |
| `CallMachine.HoldSafety` | internal/b2bua/call.go:511-525 | between re-INVITEs media is blocked both ways if and only if a phone holds, and then with music configured exactly one player runs, on the leg opposite a holder; in every interleaving of the single stores |
| `MediaFollows.StepAims` | internal/b2bua/call.go:415-486 | from any state: a step that takes in a phone's readable SDP, offer or answer, moves that phone's endpoint as its address, port and source say, and every other step leaves both endpoints alone |
| `MediaFollows.OfferUsed` | internal/b2bua/call.go:415-426 | an offer that cannot be read, or wants SRTP without a usable key, is answered 488 and moves no keys; any other has its keys installed and goes on |
| `MediaFollows.AnswerUsed` | internal/b2bua/call.go:471-478 | an answer to an offer of ours installs that phone's keys, whatever its code |
| `CallText.SdpToIsOurs` | internal/b2bua/call.go:391-509 | in every state a connected call reaches with any bodies from both phones, the SDP recorded for a side has that side's port or 0, the PBX's address or 0.0.0.0, and only keys made for that side; it always parses when the bodies carry |
| `CallStory.EverythingSent` | internal/b2bua/call.go:391-490 | everything sent on or replied in any run, by the position of the request and of its answer: an offer sent on is the PBX's own and any other body goes on as it came; a reply has the other phone's body as it came if that or the request was not SDP, and otherwise, if any, SDP that is the PBX's own for the phone that asked |
| `CallStory.AlwaysOursIff` | internal/b2bua/call.go:471-490 | the requests that are never, in any run with SDP answers, replied to with SDP that is not the PBX's own are exactly those with an offer and the offerless re-INVITEs |
| `CallStory.HandedOnAnything` | internal/b2bua/call.go:471-490 | from any state: the reply to a request without an offer has whatever body the other phone answered |
| `LastSdp.SdpToTrace` | internal/b2bua/call.go:391-509 | by position in any run: what the last event that recorded SDP for a side made, of which request and which answer, and with which key |
| `LastSdp.RecordedOrNever` | internal/b2bua/call.go:391-509 | there is such a last event, or none at all |
| `LastSdp.NeverRecorded` | internal/b2bua/call.go:187-217 | and then it is still connect's |
| `LastSdp.RecordedIff` | internal/b2bua/call.go:434-490 | with no re-INVITE in progress, the exchange a side's SDP was recorded in ended in a 2xx if and only if the other phone, when it was asked, answered 2xx without SDP or with SDP Parse reads |
| `LastSdp.KeyInUseIff` | internal/b2bua/call.go:408-433 | in every state of every run: the SDP recorded for a side, when it parses, carries exactly the key that side's leg encrypts with if and only if the key it was written with is still the side's |
| `LastSdp.FirstKeyInUseIff` | internal/b2bua/call.go:187-217 | the same before anything was recorded, for the keys of the setup |
| `CallText.RewrittenOk` | internal/b2bua/call.go:434-441 | the step of it for a forwarded offer: what is sent on is the PBX's own, and parses if and only if the body carries |
| `CallText.SdpToParsesIff` | internal/b2bua/call.go:391-509 | in every reachable state the SDP recorded for a side parses if and only if the body it was made from has, in the stream Rewrite takes, a codec and an address |
| `Reoffers.OfferEnds` | internal/b2bua/call.go:434-490 | from any state, for a re-INVITE sent on and any answer or none: the reply, and the SDP then recorded for both phones |
| `Reoffers.AnsweredHereIff` | internal/b2bua/call.go:427-441 | which re-INVITEs are answered at the PBX, by their text: those that say hold and all of a phone that holds already; every other goes on and replaces what is recorded for the other phone |
| `Reoffers.HoldsAsItSays` | internal/b2bua/call.go:511-525 | and then the phone holds exactly if its body says hold, the other as before, and the relay is set for the one that asked if it holds, else for the other if that does |
| `Reoffers.OnwardOffers` | internal/b2bua/call.go:434-441 | the SDP sent on has the key the other phone's endpoint encrypts with, or none and plain RTP |
| `Reoffers.BackOffers` | internal/b2bua/call.go:471-486 | the SDP passed back has the key installed with the offer if that was for SRTP, and else none |
| `Reoffers.OfferSucceedsIff` | internal/b2bua/call.go:459-490 | that reply is a 2xx if and only if the answer is a 2xx without SDP or with SDP Parse reads; the offer is recorded in any case |
| `Reoffers.RefusedOfferStays` | internal/b2bua/call.go:434-441 | refused without SDP: the SDP recorded for the other phone is the refused offer, rewritten |
| `Reoffers.LostOfferStays` | internal/b2bua/call.go:457-462 | not answered: 408, and the same |
| `Reoffers.UnreadAnswerStays` | internal/b2bua/call.go:471-483 | answered with SDP Parse rejects, 2xx included: 488, and the same |
| `Reoffers.RefusalWithSdpStays` | internal/b2bua/call.go:471-486 | any code with SDP Parse reads: the SDP of both phones is replaced |
| `Reoffers.OfferComesBack` | internal/b2bua/call.go:408-413 | however it ended, the other phone's next offerless re-INVITE is answered 200 with that offer |
| `Reoffers.OfferIsHeld` | internal/b2bua/call.go:497-509 | however it ended, the other phone's next hold is answered from that offer if the offered body carries, and else with 488 |
| `CallKeys.MachineKeys` | internal/b2bua/crypto.go:25-89 | in every interleaving of requests: secure if and only if the leg encrypts, with the side's key; and a step replaces a key within its suite exactly when it takes an SRTP answer to an offer whose key is no longer the side's |
| `CallKeys.HoldCarriesKey` | internal/b2bua/call.go:422-433 | when no other request of that phone comes between, the SDP answering hold or resume carries exactly the key the side's leg now encrypts with, or none; with others between, LastSdp.KeyInUseIff decides |
| `StaleKeys.StaleAnswerReached` | internal/b2bua/call.go:471-478 | a run to a stale answer, for any keys and addresses: two UPDATEs while a re-INVITE is out, and the answer to it brings the replaced key back |
| `StaleKeys.OldKeyAnswered` | internal/b2bua/call.go:408-413 | after an UPDATE to another suite the next session refresh is answered with the old key, not in use any more |
| `CallText.HoldAnswerOk` | internal/b2bua/call.go:497-509 | the step of it for hold: an answer can be made if and only if the SDP the phone has parses, and then it is the PBX's own and parses |
| `Relay.Relay.Create` | internal/media/relay.go:44-55 | two open endpoints on the first two pairs that bind, or none; the pool left as the port model says |
| `Relay.Relay.Forward` | internal/media/relay.go:72-82 | a packet goes to the other leg's peer exactly when it is accepted and that leg is not blocked |
| `Relay.Relay.Hold` | internal/media/relay.go:86-95 | both legs blocked, and with music a player on the leg opposite the holder |
| `Relay.Relay.Resume` | internal/media/relay.go:98-109 | nothing blocked, nothing playing |
| `Relay.Relay.Close` | internal/media/relay.go:122-131 | a repeated close returns no port twice |
| `Call.Call.BeginReinvite` | internal/b2bua/call.go:394-406 | the test and set that answers 491 |
| `Call.Call.HandleHold` | internal/b2bua/call.go:497-528 | the reply with its SDP, the new sdpTo, holdBy and relay state, or 488 and nothing changed |
| `Call.MachineHandlesHold` | internal/b2bua/call.go:497-528 | the machine's steps for one hold re-INVITE, uninterrupted, come to the same as HandleHold |
| `Fork.Attempt.Setup` | internal/b2bua/call.go:95-184 | the whole outcome of an attempt: messages in order, winner, SDP of both sides, keys, or the failure |
| `Fork.Attempt.Ring` | internal/b2bua/call.go:116-144 | one INVITE per reachable phone, with a key exactly for TLS phones, or the failure |
| `Fork.Attempt.Await` | internal/b2bua/call.go:146-181 | the results loop stops at the first answer, else picks the failure code from all of them |
| `Fork.Attempt.DropLateAnswers` | internal/b2bua/call.go:233-244 | what is sent for the results still to come |
| `Fork.Attempt.Connect` | internal/b2bua/call.go:187-230 | the outcome for the winner's answer, with its three ways to fail |
| `Fork.SetupOffers` | internal/b2bua/call.go:96-130 | the INVITEs of every attempt: they go to the phones that can be reached, to each of them one, and offer SRTP with the call's key exactly to those registered over TLS; in the SDP of others there is no key line |
| `Fork.UnreadOffer` | internal/b2bua/call.go:116-122 | an offer that cannot be read rings nobody |
| `Fork.ForksAre` | internal/b2bua/call.go:113-144 | the results awaited are as many as the phones that were rung |
| `Fork.WinnerMedia` | internal/b2bua/call.go:187-217 | what becomes of the first answer: the call is answered if and only if it can be read and does not want SRTP without our tag and suite; the callee's media goes where it says, with both keys; and the caller is told of the PBX's address with its own key or none |
| `Fork.OneWinner` | internal/b2bua/call.go:142-184 | for any phones and order of arrival: one ACK per answer, a BYE for every answer but the one kept, the first answer is the B leg, and exactly one final response, last: 200, 488, or by the results 487 when the caller hung up, 480 at the deadline, 486 if some phone refused with 486 or 600, 603 if one did with that, else 480 |
| `Fork.AnsweredCallConnected` | internal/b2bua/call.go:182-217 | both sides of an answered call were sent the other's SDP rewritten for them |
| `Fork.AnsweredCallIsOurs` | internal/b2bua/call.go:95-217 | from the INVITE through any later run, the SDP recorded for a side is the PBX's own with keys made for that side |
| `Fork.AnsweredCallTells` | internal/b2bua/call.go:95-217 | and everything sent is as CallStory.EverythingSent says |
| `Fork.AnsweredCallKeys` | internal/b2bua/call.go:95-217 | and both sides' keys are as CallKeys.MachineKeys says, starting from the keys of the setup |
| `Fork.AnsweredCallParsesIff` | internal/b2bua/call.go:95-217 | and it parses if and only if the body it was made from carries |
| `Engine.Engine.Register` | internal/b2bua/engine.go:259-265 | the new index |
| `Engine.Engine.Unregister` | internal/b2bua/engine.go:267-277 | the new index |
| `Engine.Engine.Lookup` | internal/b2bua/engine.go:280-294 | the call and side found |
| `Engine.CallsIndexedAndRecorded` | internal/b2bua/engine.go:259-294 | in every interleaving of answers, hangups and shutdowns: a call is in all three maps or none and found from both sides, the caller's first, and nothing else is found; it has at most one record, and has it once it failed or left the maps |
| `Engine.HangupAllCompletes` | internal/b2bua/engine.go:377-394 | when HangupAll returns, every call active when it began has its record and is out of the maps |
| `Rooms.Room.Unlink` | internal/conference/conference.go:323-331 | the loop removes the first occurrence only and keeps the order |
| `Rooms.Room.Add` | internal/conference/conference.go:311-315 | the participant goes to the end of the list |
| `Rooms.Manager.Join` | internal/conference/conference.go:109-127 | a join that nothing interrupts: one room gains the participant at the end, the others are untouched |
| `Rooms.Manager.Remove` | internal/conference/conference.go:323-346 | a leave that nothing interrupts: the room stops and goes exactly when it is empty |
| `Rooms.RoomLifecycle` | internal/conference/conference.go:109-127 | in every interleaving: mapped if and only if the stop channel is open, closed at most once, participants listed where they joined and nowhere else, an empty mapped room always has a pending join or check, and none is left at rest |
| `Rooms.ListedIff` | internal/conference/conference.go:109-152 | in every state of every run a room lists exactly those who joined it and were not unlinked after that |
| `Rooms.OrderlyRooms` | internal/conference/conference.go:137-152 | at rest every room lists exactly those who joined and have not left if and only if everyone who joined and left was unlinked after the join |
| `Rooms.JoinsFirst` | internal/conference/conference.go:137-152 | leaves that begin once the join has listed the participant suffice |
| `Rooms.AllGone` | internal/conference/conference.go:334-345 | when all who joined have left: the map is empty, and every room was stopped exactly once, if and only if everyone was unlinked after the join |
| `Rooms.UnlinkFinds` | internal/conference/conference.go:323-331 | unlinking finds a participant if and only if its join has listed it |
| `Rooms.LeaveBeforeJoinStays` | internal/conference/conference.go:109-152 | a participant that left before joining is listed for ever after its join, in a room that never stops |
| `Rooms.LeaveBeforeJoin` | internal/conference/conference.go:109-152 | a concrete run for it |
| `Rooms.JoinUninterrupted` | internal/conference/conference.go:109-127 | the machine's join steps in a row come to what Manager.Join does |
| `Rooms.LeaveUninterrupted` | internal/conference/conference.go:323-346 | the machine's leave steps in a row come to what Manager.Remove does |
| `Audio.MixInto` | internal/audio/tones.go:55-62 | the in-place sum, clipped, over the shorter length, the rest unchanged |
| `Audio.Mixed` | internal/audio/tones.go:55-73 | each sample is the clipped sum where both have one, else unchanged |
| `Fifo.Buffer.Append` | internal/conference/conference.go:220-223 | appending, with or without new storage |
| `Fifo.Buffer.DropFront` | internal/conference/conference.go:223-225 | the overlapping in-place shift drops exactly the first samples |
| `Fifo.Buffer.Receive` | internal/conference/conference.go:220-226 | the newest 800 samples stay |
| `Fifo.Buffer.Take` | internal/conference/conference.go:381-397 | a whole frame from the front for an admitted participant, an emptied buffer for a waiting one |
| `Fifo.BufferTrace` | internal/conference/conference.go:220-226 | after any packets and ticks the buffer is a suffix of the decoded stream of at most 800 samples, and the frames taken are disjoint whole slices of it, in order |
| `Mixer.Participant.Collect` | internal/conference/conference.go:381-398 | a participant's part of the first pass |
| `Mixer.CollectAll` | internal/conference/conference.go:376-398 | the nested accumulation: every frame, the sums in 32 bits without overflow whenever at most 65536 participants have one, and the count |
| `Mixer.CountIs` | internal/conference/conference.go:376-388 | the count is that of the admitted participants, with a frame or not |
| `Mixer.Participant.Render` | internal/conference/conference.go:402-443 | a participant's part of the second pass, for any state it is found in |
| `Mixer.Participant.PlayRoom` | internal/conference/conference.go:422-430 | the mix branch in 32 bits without overflow |
| `Mixer.Participant.PlayTones` | internal/conference/conference.go:431-435 | at most a frame of tones is mixed in and exactly that much is used up |
| `Mixer.AddFrame` | internal/conference/conference.go:390-392 | adding a frame to the sums keeps every partial sum within 32 bits |
| `Mixer.Participant.PlayMusic` | internal/conference/conference.go:416-421 | music loops at half volume, resuming where it stopped |
| `Mixer.MixMinus` | internal/conference/conference.go:376-436 | whenever the mix branch runs the frame sent is the clipped sum of all others admitted with a full frame at the first pass, plus the participant's tones, even if it was admitted in between |
| `Mixer.NeverOwnVoice` | internal/conference/conference.go:422-430 | what a participant says makes no difference to what it is sent |
| `Rendering.WaitingHearsTones` | internal/conference/conference.go:402-436 | until it has keyed the PIN, or 30 s are over, a participant is sent its tones, sample for sample, and zeros beyond them |
| `Rendering.WaitingHearsNobody` | internal/conference/conference.go:402-436 | over any number of ticks, rooms that differ in everything but prompt and clock make no difference to what a waiting participant is sent |
| `Rendering.AloneHearsMusic` | internal/conference/conference.go:416-435 | the one admitted participant is sent the music from its place on, round and round, each sample halved toward zero, and its tones on top |
| `Rendering.CompanyHearsRoom` | internal/conference/conference.go:422-435 | every other admitted participant is sent, sample by sample within 16 bits, the sum less its own sample, and its tones on top |
| `Rendering.RenderedState` | internal/conference/conference.go:402-436 | all that a tick changes: the tones used up, the prompt when none are left and 3 s have passed, and the place in the music, only while it plays |
| `Rendering.KickedIff` | internal/conference/conference.go:406-441 | who is disconnected: a caller more than 30 s without PIN, and otherwise exactly one whose audio stopped |
| `Rendering.ClipSaturates` | internal/audio/tones.go:65-73 | clipping keeps what fits 16 bits, and no sample is nearer to what does not |
| `Mixer.WaitingIsNotHeard` | internal/conference/conference.go:394-396 | a participant waiting for the PIN sounds like silence to everyone and leaves nothing for later |
| `Mixer.TotalFits` | internal/conference/conference.go:379-393 | every sum of at most 65536 frames fits 32 bits, however many participants are listed |
| `Mixer.SumsFitIff` | internal/conference/conference.go:379-393 | 32 bits hold all sums of n frames if and only if n is at most 65536 |
| `RoomAudio.OpenFit` | internal/media/pool.go:38-63 | participants with open endpoints of their own are at most the pairs of the pool |
| `RoomAudio.TickFits` | internal/conference/conference.go:376-398 | in every run of rooms, endpoints, calls and audio: of the participants listed when a tick begins, at most the pairs of the pool, 32256 or fewer, and those stranded have a frame whenever it visits them, and if these are at most 65536 together all its partial sums fit |
| `RoomAudio.ApartStrandsNone` | internal/conference/conference.go:109-152 | when Join and Leave of a participant do not overlap nobody is ever stranded |
| `RoomAudio.TickFitsApart` | internal/conference/conference.go:376-398 | and then every tick finds at most 32256 frames and every partial sum fits |
| `Stranded.FitsIff` | internal/conference/conference.go:376-398 | for every pool and number s: all sums of all ticks with at most s stranded fit 32 bits if and only if s and the pairs of the pool together are at most 65536, or there are no pairs at all |
| `Stranded.OverlapOverflows` | internal/conference/conference.go:109-152 | beyond that, a run to a room whose sum leaves 32 bits: some overlap Join and Leave, and as many as the pool has pairs stay |
| `Keypad.Keypad.Digit` | internal/conference/conference.go:251-288 | the new state for a key, and when a kick is due |
| `Keypad.Keypad.DtmfEvent` | internal/conference/conference.go:234-249 | the new state for a telephone-event packet, and when a kick is due |
| `Keypad.Keypad.Kick` | internal/conference/conference.go:290-299 | hangs up only once, and not after leaving |
| `Keypad.KeypadReads` | internal/conference/conference.go:234-288 | for every history, with events 0 to 9 the digits, 10 the star and 11 the hash: admitted if and only if some try of the batch reading is the PIN, failures are the wrong tries before it, the entry stays shorter than the PIN, each event counts once, and there is at most one hang-up |
| `Keypad.RepeatsChangeNothing` | internal/conference/conference.go:234-249 | repeating a telephone-event packet in place any number of times changes nothing, then or later (section 2.5.1.4 of RFC 4733) |
| `Keypad.HashCostsATry` | internal/conference/conference.go:257-276 | a wrong PIN closed with # costs two tries |
| `Keypad.RightAfterManyWrong` | internal/conference/conference.go:281-287 | before the delayed kick, the right PIN admits after any number of failures |
| `PortPool.Pool.constructor` | internal/media/pool.go:17-26 | the loop queues the range's even ports |
| `PortPool.Pool.Allocate` | internal/media/pool.go:38-57 | success at position k leaves free[k+1..] + free[..k]; exhaustion leaves the queue as it was |
| `PortPool.Pool.Release` | internal/media/pool.go:59-63 | the pair goes to the end of the queue |
| `PortPool.InitialPortsAre` | internal/media/pool.go:17-26 | the pairs are exactly those of the range that begin on an even port, ascending, and at most 32256 for a valid configuration |
| `PortPool.PortsConserved` | internal/media/pool.go:38-63 | free and held pairs partition the initial ones, none twice, along every run of openings, failures and repeated closes |
| `PortPool.RotationIsFair` | internal/media/pool.go:38-63 | a queued pair is first tried only after every pair queued before it was |
| `PortPool.FailedRelayHoldsNothing` | internal/media/relay.go:44-55 | a relay that cannot be made leaves the same pairs free and holds nothing |
| `BanList.BanList.IsTrusted` | internal/security/banlist.go:46-53 | whether some trusted prefix contains the address |
| `BanList.ContainsIff` | internal/security/banlist.go:46-53 | a prefix of n bits covers exactly the addresses whose first n bits, from the highest of the first octet on, are its own |
| `BanList.TrustsIff` | internal/security/banlist.go:46-53 | trusted are the addresses that begin with the bits of some configured prefix, and no others |
| `BanList.BanList.IsBanned` | internal/security/banlist.go:56-69 | the answer, and the expired entry it drops |
| `BanList.BanList.Fail` | internal/security/banlist.go:72-95 | the filtered list and whether the failure bans |
| `BanList.BanList.Succeed` | internal/security/banlist.go:98-103 | the failures of the address are forgotten, bans stay |
| `BanList.BanList.BanNow` | internal/security/banlist.go:106-115 | a ban unless trusted |
| `BanList.BanList.Unban` | internal/security/banlist.go:118-124 | ban and failures of the address are gone |
| `BanList.BanList.Active` | internal/security/banlist.go:127-138 | exactly the entries still running |
| `BanList.BanList.Sweep` | internal/security/banlist.go:141-156 | exactly the expired bans and stale lists go, while the maps are walked |
| `BanList.AnswersAreRight` | internal/security/banlist.go:56-156 | under a clock that never goes back every answer is the one the full, unpruned history calls for: a failure bans if and only if, with it, those since the last reset inside the window reach the threshold |
| `BanList.StoredListsAreShort` | internal/security/banlist.go:72-95 | stored lists are never empty and shorter than the threshold, and trusted addresses appear nowhere |
| `BanList.SweepIsInvisible` | internal/security/banlist.go:141-156 | sweeping at any time changes no later answer |

## Left out

- RewriteMeaning.RewriteKeepsMeaning: plain bodies only; the rest, where it can fail, is decided by `AudioChoice.MeaningKeptIff`.
- Stranded.FitsIff: runs have no clock, so any number of overlaps fit between two ticks.
- Endpoint.LatchingTrace: SDP, key changes and packets are atomic steps; a packet that straddles a change of keys is not modelled.
- Fork.OneWinner: the goroutine for late answers and the one that connects are two traces; counts over both hold for every interleaving of them.
- BanList.AnswersAreRight: the clock is monotone.
- IPv6 and IPv4-mapped addresses, and bytes that are not valid UTF-8: text is a sequence of characters and addresses are IPv4.
- Sockets, sipgo dialogs and transactions, TLS, and the SRTP transforms: their outcomes are events and Booleans.
- Provisional responses, early media and the 180 of setup, and who confirms the answer: setup is modelled up to its final response.
- The headers of forwarded requests; a body is its label and text.
- The payload type used for music and in conferences, packet counts for display, display names and logging.
- RTP header and padding handling of receive: the buffer is given decoded samples, telephone events their payload.
- The G.711 tables, tone and music synthesis, and WAV reading: samples are arbitrary.
- Tones queued by announce, and conference status: short loops over members.
- Conference re-INVITEs and the shutdown of conference legs, which leave the index before their record is saved.
- A hold request that races with the relay's Close.
- SQLite, configuration other than the port range, the web interface, the registrar, digest authentication and scanner user agents.
