# MoQ relay, control codec and WebTransport parsers: a verified model

Three parts of the repository are modelled and verified in Dafny 4.11.

**The relay** (`Relay*.dfy`; `moq-relay`). `RelayClass.Relay` is the relay as `relay.rs` has it: a class with
the five maps as fields, `Session` objects with their counters and alias tables, and one method per handler
with the loops of the source. Beside it stands a specification. `RelayActs` names seventeen elementary changes
(acts), each changing the maps in one place and sending at most one output; `RelayPlan` writes every handler as
a sequence of acts. Wherever the source iterates over a hash map, the order is a free choice, recorded in
`Choice`. `RelayRuns.Reach` is the world (maps, keys used so far, everything received and sent) after a
sequence of events. The class keeps a ghost run: `Relay.Valid` says that its maps are those `Reach` leads to,
and `OnEvent` keeps it. Invariants are proved act by act (`RelayInv`, `RelayTrace`), and the theorems speak of
whole runs, mostly in terms of what goes in and what comes out: `RelayTheorems`, `RelayDelivery`,
`RelayAccepted`, `RelayWaiting`, `RelayAsking`, `RelayStarving`, `RelayAbandoned`, `RelayLingering`,
`RelayUnfed`, `RelayDropping`, `RelayLifetimes`, `RelayClosing`, `RelayMatching`, `RelayScans`, `RelayRouting`.
Four modules tie the relay to its events alone: `RelayHistory` computes the record of every session from them,
`RelayRefusals` says which events close a session and with which error, `RelayExtensions` which track extensions
are current, and `RelayContents` what every output says. `RelayStale`, `RelayWaitingRun` and
`RelayTwoPublishers` hold concrete runs. Section numbers in comments are those of draft-ietf-moq-transport-16.

**The control-message codec** (`Varint.dfy`, `Utf8.dfy`, `Codec*.dfy`; `moq-protocol`). Readers are functions
from bytes to a value and the bytes left over; writers are functions to bytes or an error. A payload is the
list of its fields (`CodecMessages.Fields`, `CodecMessages.Layout`), so round trip, canonical form, size and
the places where bytes can run out or the decoder can panic (`CodecShortage`) are proved once per kind of field
and composed through lists, payloads and frames. Independently of that, `CodecWire` writes every message out byte
by byte and `CodecGrammar` says which byte strings stand for it (both in the terms of `WireForms`): the encoder
writes exactly the one, the decoder accepts exactly the other, and `CodecRefusals` says which error it reports
otherwise. `CodecCursor` and `CodecBuffer` are the same operations as the source has them, moving a cursor and
growing a buffer, proved equal to the functions.

**The WebTransport parsers** (`VarintSlices.dfy`, `StreamParsers.dfy`, `Envelopes.dfy`, `H3Frames.dfy`,
`Capsules.dfy`, `Qpack*.dfy`, `Huffman*.dfy`, `ErrorCodes.dfy`; `webtransport`). `StreamParsers` is a theory of
feed-and-retry parsers, applied to frames and capsules. Huffman coding is treated for every prefix-free table
of up to 256 codes, header blocks for every static table; `QpackLines` writes field lines out bit by bit.

## Assumptions

- A session key is never used again: `OnEvent` asks that SESSION_OPENED bring a fresh key, because the source
  overwrites blindly.
- The configured request-id limits are at most 2^62 (`ConfigOk`). Integers off the wire are varints (`WireOk`);
  `CodecRelay.DecodedIsWireOk` proves that of every decoded message.
- A session key is any type with equality. Nothing is assumed of namespaces; where one or more fields matter,
  the statement says so.
- Request ids, aliases and lengths are unbounded numbers; `RelayMatching.CountersFit` shows that the request-id
  counters stay within 64 bits. QPACK integers and the ends of QPACK strings are computed modulo 2^64, as a
  release build on a 64-bit machine does (a debug build would panic at the addition that overflows), and the
  slice that then ends before it begins is an outcome of its own, `QpackInts.QpackResult.Fault`.
- Vectors and strings hold at most 2^63 - 1 bytes (`MoqTypes.MAX_LEN`). What one key-value pair takes up in a
  vector is left open but for being at least the 8 bytes of its key (`CodecKeyValues.PAIR_BYTES`).

## Where the code differs from what one would expect

- `handle_max_request_id` takes the wire value plus one as the exclusive limit, although section 9.5 says the wire
  value is already the maximum plus one. The model follows the code.
- SessionClosed terminates legs of other publishers but keeps their index entries
  (`RelayStale.ClosingKeepsEntries`). A later leg of the same publisher and track can then be ended, or
  established, by a reply to the old id: exactly in the states `RelayRouting.Stale` describes
  (`WrongLegIffStale`, `WrongLegAcceptedIff`), and `StaleEntryReached` gives a run into one. Entries of the
  closed session itself stay behind exactly when it has some but no leg (`RelayClosing.OwnEntriesSurviveIff`,
  `RelayStale.EntryOfClosedPublisher`).
- A publisher that has any leg on record for a track, even a dead one, is not asked for it again, neither when a
  subscriber comes (`RelayAsking.AskedIff`) nor when the publisher announces (`RelayAsking.OfferedIff`). A dead
  leg stays on record until its route goes or its publisher closes (`RelayStarving.DeadLegStays`), and until
  then no event makes the relay ask that publisher for the track (`StarvedWhileOnRecord`).
- A track can be left with live subscribers and no live leg, and nobody is told. `RelayAbandoned.AbandonedIff`
  gives the three kinds of events that do it; `RelayStale.AbandonedReached` is an instance.
- Conversely, a track can be left with a live leg and no live subscription, without an UNSUBSCRIBE to the
  publisher that goes on sending. `RelayLingering.LingeringIff` gives the one kind of event that does it, a
  PUBLISH_DONE from one of several publishers; `RelayTwoPublishers.LingeringReached` is an instance.
- An Established subscription can be left without an Established leg, with or without a Pending one:
  `RelayUnfed.UnfedIff` gives the two kinds of events, `RelayTwoPublishers.UnfedReached` an instance.
- A publisher that announces the empty namespace is offered every track when it announces, but is not found by
  that namespace when a subscriber arrives (`RelayScans.SameMatchBothWays`, `ScansAgreeIff`). The message
  decoder lets no empty namespace through, so on decoded messages the scans agree
  (`CodecRelay.ScansAgreeOverTheWire`).
- A SUBSCRIBE_OK with an alias already in use leaves the leg Established before the session is closed, so
  subscribers wait behind an Established leg. `RelayWaiting.WaitBeginsIff` says that they begin to wait so and
  in no other way, `NoWaitingBehindLiveUpstream` that nobody waits unless an open session has been told to
  close for it, and `RelayWaitingRun.WaitingReached` gives a run.
- `Vec::with_capacity` panics when a declared number of parameters needs more than 2^63 - 1 bytes, whatever memory
  is free (moq-protocol/src/params.rs:105-106, types.rs:380). So the decoder of control messages panics on input
  from the wire: exactly when it reaches a parameter list with such a count (`CodecTheorems.FaultsIff`).
  `FaultExample` is a message of eleven bytes, whatever the size of a pair; the outcome is `CodecErrors.Fault`.
- A control message whose payload ends inside a field, and no other complete one, reports BufferTooShort
  although it is complete (`CodecTheorems.TooShortInVain`); a limit capsule with a cut varint does the same, and
  its parser never moves on (`Capsules.StallsIff`, `Capsules.StalledForever`).
- A QPACK integer that means 2^64 or more is decoded, without an error, as its remainder
  (`QpackInts.DecodedIsMeantModulo`, `WrapsOnLongInput`). A string whose announced end is 2^64 or more makes the
  header decoder panic: exactly then (`QpackHeaders.BlockFaultsIff`), and `FaultingBlock` is such a block.
- The Huffman decoder takes any unfinished code for padding (`HuffmanCodes.DecodesIff`).

## Model

| member | source | states |
|---|---|---|
| `RelaySession.Session.ValidatePeerNewRequestId` | moq-relay/src/session.rs:81-93 | a peer's new request id is accepted exactly when it is the next expected one, below the local limit and of the peer's parity; then the next one moves on by two, otherwise nothing changes |
| `RelaySession.Session.AllocLocalRequestId` | moq-relay/src/session.rs:95-102 | the next local id is handed out exactly while it is below the peer's limit, and ids go up by two |
| `RelaySession.Session.OnPeerMaxRequestId` | moq-relay/src/session.rs:104-111 | the peer's limit may only grow; any other value is a protocol violation and changes nothing |
| `RelaySession.Session.AllocOutboundTrackAlias` | moq-relay/src/session.rs:113-117 | the alias returned is below every alias still to come |
| `RelaySession.Session.BindInboundAlias` | moq-relay/src/session.rs:119-129 | an alias is bound once; an alias already bound keeps its track and the attempt is a duplicate |
| `RelayClass.Relay.constructor` | moq-relay/src/relay.rs:42-51 | a new relay is in the first world of every run |
| `RelayClass.Relay.OnEvent` | moq-relay/src/relay.rs:73-104 | one event and its outputs extend the history by exactly one step of the run, so that everything proved about runs holds of the five maps of the class after every call |
| `RelayClass.Relay.OnSessionOpened` | moq-relay/src/relay.rs:111-120 | a fresh session with the role's first ids and the configured limits is entered and nothing is sent |
| `RelayClass.Relay.OnSessionClosed` | moq-relay/src/relay.rs:122-202 | the loops over namespaces, tracks, subscriptions and legs carry out the close-down acts, for some iteration order of each map |
| `RelayClass.Relay.OnSubscriptionObject` | moq-relay/src/relay.rs:215-275 | one copy to every Established subscription of the alias's track; an unknown alias closes the session |
| `RelayClass.Relay.OnControlMessage` | moq-relay/src/relay.rs:281-321 | every message does exactly the acts of its handler; before set-up, or from an unknown session, it is a violation |
| `RelayClass.Relay.HandleClientSetup` | moq-relay/src/relay.rs:327-364 | accepted once and by a server only; answered with the configured parameters and the local limit |
| `RelayClass.Relay.HandleServerSetup` | moq-relay/src/relay.rs:366-394 | accepted once and by a client only; takes over the peer's limit if there is one |
| `RelayClass.Relay.HandleMaxRequestId` | moq-relay/src/relay.rs:396-408 | the exclusive limit becomes the wire value plus one if that is an increase, else the session is closed |
| `RelayClass.Relay.HandleGoaway` | moq-relay/src/relay.rs:418-439 | recorded once; a second GOAWAY closes the session |
| `RelayClass.Relay.MatchPublishersForNamespace` | moq-relay/src/relay.rs:445-458 | the loop over prefixes collects exactly the publishers the matching function names |
| `RelayClass.Relay.HandlePublishNamespace` | moq-relay/src/relay.rs:461-576 | registers the publisher, answers REQUEST_OK, and asks it for every waiting track below its namespace, for some order of the tracks |
| `RelayClass.Relay.HandleSubscribe` | moq-relay/src/relay.rs:580-740 | records the subscription and accepts it at once, refuses it, or asks every matching publisher, for some order of those |
| `RelayClass.Relay.HandleSubscribeOk` | moq-relay/src/relay.rs:744-855 | establishes the awaited leg, binds its alias or closes the session for a duplicate, and accepts everybody who waits |
| `RelayClass.Relay.HandleRequestError` | moq-relay/src/relay.rs:859-934 | ends the leg; once no leg is left refuses everybody who waits and drops an empty route |
| `RelayClass.Relay.HandleUnsubscribe` | moq-relay/src/relay.rs:938-1024 | ends the subscription; the last one takes its route's live legs with it |
| `RelayClass.Relay.HandlePublishDone` | moq-relay/src/relay.rs:1028-1131 | ends the leg and the Established subscriptions, and the Pending ones too when no leg is left |
| `RelayInv.InvKept` | moq-relay/src/relay.rs:122-1131 | every elementary change any handler makes keeps all map invariants: request-id discipline, exact publisher index, exact downstream index, live legs indexed |
| `RelayTrace.TraceInvKept` | moq-relay/src/relay.rs:122-1131 | every elementary change keeps what ties the maps to the history of inputs and outputs |
| `RelayRuns.PlanLegal` | moq-relay/src/relay.rs:73-1131 | whatever the iteration orders, every handler consists of changes allowed where they happen |
| `RelayRuns.Reachable` | moq-relay/src/relay.rs:73-1131 | all invariants hold after every run |
| `RelayHistory.RecordIsTold` | moq-relay/src/relay.rs:106-440 | the relay has a record of a session exactly from its opening to its closing, and role, set-up, GOAWAY, next request id, both limits, published namespaces and bound aliases in it are those computed from the events alone |
| `RelayHistory.ClosesExactly` | moq-relay/src/relay.rs:215-1131 | every event closes its own session, once, if in the light of the events before it is out of order, with the one error due: for a session or state that does not admit it and for an object under an unknown alias a violation, for a skipped id an invalid request id, at the limit too many requests, for a bound alias a duplicate; nothing else is ever closed |
| `RelayHistory.LimitIsTold` | moq-relay/src/relay.rs:366-408 | the limit in force is the configured one, then what SERVER_SETUP announced, then one more than every MAX_REQUEST_ID that raised it |
| `RelayHistory.MaxIsRefusedIff` | moq-relay/src/session.rs:104-111 | MAX_REQUEST_ID is refused if and only if it does not raise that limit |
| `RelayHistory.ParameterIsFirst` | moq-protocol/src/params.rs:53-64 | a lookup gives the first varint value under its key, and none exactly if there is none |
| `RelayContents.OutputsFollow` | moq-relay/src/relay.rs:73-1131 | every output is about the event it is sent for and says what that says: parameters, namespaces, names, ids, codes, reasons, extensions, object bodies, the receiver of an answer, and the channel of every message |
| `RelayContents.DonePassedOn` | moq-relay/src/relay.rs:1060-1090 | every PUBLISH_DONE sent carries status code, stream count and reason of the PUBLISH_DONE received in that step |
| `RelayContents.ErrorPassedOn` | moq-relay/src/relay.rs:680-934 | every REQUEST_ERROR sent carries code, retry interval and reason of the REQUEST_ERROR received in that step, or 0x10, 0 and "no publisher for namespace" in answer to a SUBSCRIBE, or 0x10, 0 and "publisher done" after a PUBLISH_DONE |
| `RelayContents.ExtensionsPassedOn` | moq-relay/src/relay.rs:638-852 | every SUBSCRIBE_OK sent carries the track extensions of the SUBSCRIBE_OK received in that step, or, in answer to a SUBSCRIBE, those announced last for its track |
| `RelayExtensions.ExtensionsAreLatest` | moq-relay/src/relay.rs:812-815 | what is stored with a track are the extensions of the last accepted SUBSCRIBE_OK for it that had any since its route began, as computed from the events, or none |
| `RelayContents.AcknowledgedExactly` | moq-relay/src/relay.rs:327-486 | an accepted CLIENT_SETUP is answered with SERVER_SETUP, with the configured parameters and the configured limit under 0x02, and an accepted PUBLISH_NAMESPACE with REQUEST_OK, once and on its channel; nothing else is acknowledged |
| `RelayLifetimes.AnsweredAtOnce` | moq-relay/src/relay.rs:638-740 | an accepted SUBSCRIBE is answered in the same step with SUBSCRIBE_OK if a leg of its track is Established, with REQUEST_ERROR if nobody has published a prefix of it, and not yet otherwise |
| `RelayLifetimes.RouteIff` | moq-relay/src/relay.rs:122-1131 | a track gets a route if and only if an accepted SUBSCRIBE finds a publisher, and loses it if and only if its last session closes, a SUBSCRIBE finds it dead and without publisher, its last leg ends by REQUEST_ERROR with nobody Established or by PUBLISH_DONE, or its last live subscription is withdrawn |
| `RelayDelivery.DeliveryExact` | moq-relay/src/relay.rs:215-275 | over any run the objects sent under the alias announced to a subscription are exactly the objects received on publisher aliases bound to its track while it was Established: same order, none lost, none doubled, nothing but the alias changed |
| `RelayAccepted.RecordedWasAccepted` | moq-relay/src/relay.rs:580-636 | whatever is recorded as a subscription is that of a SUBSCRIBE with its id and its track which was not refused |
| `RelayAccepted.AcceptedForOneTrack` | moq-relay/src/session.rs:81-93 | a request id is accepted by one event of a run at most, so for one track only |
| `RelayAccepted.CarriedTrackWasAsked` | moq-relay/src/relay.rs:226-247 | what reaches a subscription is of the one track whose SUBSCRIBE was accepted from it, under an alias the publisher announced for that track |
| `RelayTheorems.SubscriptionGrammar` | moq-relay/src/relay.rs:580-1131 | the replies carrying one request id are SUBSCRIBE_OK then PUBLISH_DONE, or one REQUEST_ERROR, or a prefix of these |
| `RelayTheorems.NothingAfterUnsubscribe` | moq-relay/src/relay.rs:938-1024 | after an accepted UNSUBSCRIBE no reply carries the id again, whatever follows |
| `RelayTheorems.UnsubscribeExact` | moq-relay/src/relay.rs:947-982 | UNSUBSCRIBE is refused exactly when no live subscription has the id |
| `RelayTheorems.DownstreamIndexExact` | moq-relay/src/relay.rs:616-636 | the downstream index is exactly the map from live subscriptions to their tracks, after every run |
| `RelayTheorems.NoSilentEnd` | moq-relay/src/relay.rs:859-1131 | a live subscription never ends without a reply, save by its own UNSUBSCRIBE or the end of its session |
| `RelayTheorems.UpstreamGrammar` | moq-relay/src/relay.rs:690-740 | about one upstream id the relay sends SUBSCRIBE and then at most one UNSUBSCRIBE |
| `RelayTheorems.NothingAfterPublisherEnds` | moq-relay/src/relay.rs:881-891 | an id ended by REQUEST_ERROR or PUBLISH_DONE is never unsubscribed later |
| `RelayRouting.NoSilentLegEnd` | moq-relay/src/relay.rs:993-1013 | a live leg ends by exactly one UNSUBSCRIBE unless its publisher closes or ends a request that the index resolves to this very track |
| `RelayAccepted.GrantsAreBacked` | moq-relay/src/relay.rs:638-852 | every SUBSCRIBE_OK is sent for the track whose SUBSCRIBE was accepted, and right after that event the subscription is Established under the alias sent and some publisher's leg for the track is Established and was answered |
| `RelayDropping.DroppedWhenIdle` | moq-relay/src/relay.rs:672-1128 | a route is dropped only at a moment when no subscription and no leg of it is live |
| `RelayDropping.DroppedIsTold` | moq-relay/src/relay.rs:672-1128 | with a route that goes every live subscription is told in that step or was ended by its own session, and every live leg is unsubscribed or was ended by its publisher |
| `RelayWaiting.WaitBeginsIff` | moq-relay/src/relay.rs:638-855 | a subscription begins to wait behind an Established leg exactly when the event is a SUBSCRIBE_OK for that leg, awaited, with an alias already bound, and the subscription is Pending on its track |
| `RelayWaiting.WaitedForIsTold` | moq-relay/src/relay.rs:796-809 | whoever somebody waits behind is open and was sent CloseSession for a duplicate alias |
| `RelayWaiting.NoWaitingBehindLiveUpstream` | moq-relay/src/relay.rs:638-855 | while no open session has been told to close for a duplicate alias, no track has both an Established leg and a Pending subscription |
| `RelayWaitingRun.WaitingReached` | moq-relay/src/relay.rs:796-809 | nine concrete events lead to a subscription waiting behind an Established leg |
| `RelayAsking.AskedIff` | moq-relay/src/relay.rs:638-740 | on an accepted SUBSCRIBE a publisher is sent SUBSCRIBE for its track, once and with its next id, exactly when the track has no Established leg and the publisher matches, has no leg on record for it and is below its limit; else it is sent none |
| `RelayAsking.OfferedExactly` | moq-relay/src/relay.rs:487-572 | on an accepted PUBLISH_NAMESPACE the publisher is sent exactly these SUBSCRIBEs: for the tracks below its namespace that have a live subscriber and no leg of it on record, in the order in which the tracks are gone through, with its next ids in steps of two, as far as they are below its limit |
| `RelayAsking.OfferedIff` | moq-relay/src/relay.rs:487-572 | so, going through the tracks in some order, it is sent SUBSCRIBE for one if and only if the namespace is a prefix of the track's, the track has a live subscriber and no leg of it on record, and its next id plus two for each earlier such track is below its limit |
| `RelayStarving.DeadLegStays` | moq-relay/src/relay.rs:179-197 | a leg that has ended stays on record unchanged while its track has a route and its publisher is open |
| `RelayStarving.StarvedWhileOnRecord` | moq-relay/src/relay.rs:487-740 | and over all that time, whatever the events, that publisher is sent no SUBSCRIBE for the track |
| `RelayAbandoned.AbandonedIff` | moq-relay/src/relay.rs:122-1131 | a track comes to have live subscribers and no live leg exactly when its last live leg closes under another session's subscriber, its last live leg gets REQUEST_ERROR after having been granted, or its first subscriber comes when publishers match and none can be asked |
| `RelayAbandoned.AbandonedSometime` | moq-relay/src/relay.rs:122-1131 | every such track in a reachable state goes back to such an event |
| `RelayStale.AbandonedReached` | moq-relay/src/relay.rs:179-197 | eight concrete events lead to such a track |
| `RelayLingering.LingeringIff` | moq-relay/src/relay.rs:1028-1131 | a track comes to have a live leg and no live subscription if and only if the event is a PUBLISH_DONE that the index resolves to it while another leg is live, some subscription is Established and none is Pending |
| `RelayTwoPublishers.LingeringReached` | moq-relay/src/relay.rs:1060-1128 | eleven concrete events lead to such a track |
| `RelayUnfed.UnfedIff` | moq-relay/src/relay.rs:122-934 | an Established subscription comes to have no Established leg on its track if and only if the only Established leg's session closes under another session's Established subscriber, or that leg gets REQUEST_ERROR while somebody is Established |
| `RelayTwoPublishers.UnfedReached` | moq-relay/src/relay.rs:138-171 | eleven concrete events lead to such a track, with a leg that is still Pending |
| `RelayClosing.CloseDownComplete` | moq-relay/src/relay.rs:122-202 | after SessionClosed no session, publisher set, route or downstream index entry mentions the session, no track without live subscriptions keeps a live leg, and no output of the step is addressed to the session |
| `RelayClosing.OwnEntriesSurviveIff` | moq-relay/src/relay.rs:147-151 | upstream index entries of the closed session itself survive exactly when it has some but no leg on any track |
| `RelayStale.EntryOfClosedPublisher` | moq-relay/src/relay.rs:147-151 | ten concrete events lead to such an entry |
| `RelayClosing.NothingAfterClose` | moq-relay/src/relay.rs:199-201 | a closed session is never sent anything again, except CloseSession directly after a late message or object of its own |
| `RelayClosing.ClosesAnswerAlways` | moq-relay/src/relay.rs:215-321 | every CloseSession of a run goes to the session whose message or object has come in directly before it |
| `RelayMatching.PublisherIndexExact` | moq-relay/src/relay.rs:126-136 | the publisher index is the exact inverse of the sessions' namespaces and holds no empty set |
| `RelayScans.SameMatchBothWays` | moq-relay/src/relay.rs:445-527 | subscribing to a track on record finds exactly the publishers that announcing offers it to, and those who announced the empty namespace are offered it besides |
| `RelayScans.ScansAgreeIff` | moq-relay/src/relay.rs:445-527 | in every reachable state the two scans agree on a publisher for every track if and only if it has not announced the empty namespace |
| `RelayScans.PublishedWasAnnounced` | moq-relay/src/relay.rs:461-500 | whatever a session is recorded to publish it announced in a PUBLISH_NAMESPACE |
| `CodecRelay.ScansAgreeOverTheWire` | moq-protocol/src/types.rs:85-158 | on messages that came through the decoder, which admits no empty namespace, the two scans agree on every publisher and track |
| `RelayHistory.IssuedIdsConsecutive` | moq-relay/src/session.rs:95-102 | SUBSCRIBE ids sent to a session are consecutive steps of two, from 1 if the relay is the server and from 0 if it is the client, all below the limit in force as computed from the events, which is the one the relay holds |
| `RelayHistory.AcceptedIdsConsecutive` | moq-relay/src/session.rs:81-93 | request ids accepted from a session are consecutive steps of two, from 0 if the relay is the server and from 1 if it is the client, all below the configured limit: no gap, no repeat |
| `RelayMatching.RequestStep` | moq-relay/src/relay.rs:469-486 | a request is accepted exactly when the session is set up and the id is the next one below the limit |
| `RelayMatching.CountersFit` | moq-relay/src/session.rs:81-111 | no request-id counter or limit of a reachable session leaves 64 bits |
| `RelayMatching.OutboundAliasesFresh` | moq-relay/src/session.rs:113-117 | the aliases announced to a session are 1, 2, 3 and so on: none is given out twice |
| `RelayMatching.OutboundAliasesSafe` | moq-relay/src/relay.rs:645-669 | no alias names two subscriptions, and none is used by an object before its SUBSCRIBE_OK |
| `RelayMatching.InboundAliasAnswered` | moq-relay/src/relay.rs:796-812 | every inbound alias was announced in answer to a SUBSCRIBE for its track |
| `RelayMatching.InboundAliasKeepsTrack` | moq-relay/src/session.rs:119-129 | an inbound alias keeps its track for the life of its session |
| `RelayRouting.UpstreamCorrelation` | moq-relay/src/relay.rs:544-572 | a live leg is indexed under its own id, was asked for under that id, and shares it with no other leg of its session |
| `RelayRouting.RecordedAreSetUp` | moq-relay/src/relay.rs:469-486 | every session recorded as publisher, leg or subscriber is open and set up |
| `RelayRouting.EndReachesExactly` | moq-relay/src/relay.rs:859-934 | REQUEST_ERROR and PUBLISH_DONE end the leg the index names and leave every other live leg as it was |
| `RelayRouting.ReplyReachesItsLeg` | moq-relay/src/relay.rs:869-889 | a reply with a live leg's own id ends that leg and no other |
| `RelayRouting.OkReachesExactly` | moq-relay/src/relay.rs:753-800 | SUBSCRIBE_OK establishes exactly the awaited leg and touches no other live leg |
| `RelayRouting.WrongLegIffStale` | moq-relay/src/relay.rs:869-889 | REQUEST_ERROR or PUBLISH_DONE ends a leg that does not carry its id if and only if the index entry has outlived its leg |
| `RelayRouting.WrongLegAcceptedIff` | moq-relay/src/relay.rs:753-800 | SUBSCRIBE_OK establishes a leg that does not carry its id if and only if the index entry has outlived its leg and the newer leg is Pending |
| `RelayStale.ClosingKeepsEntries` | moq-relay/src/relay.rs:145-197 | closing a session leaves the index entries of all other publishers, also of legs it has just terminated |
| `RelayStale.StaleEntryReached` | moq-relay/src/relay.rs:145-197 | ten concrete events lead to such an outlived entry |
| `Varint.VarintRoundTrip` | moq-protocol/src/varint.rs:31-82 | decoding inverts encoding, whatever follows, and the length is the announced one |
| `Varint.VarintMinimal` | moq-protocol/src/varint.rs:66-82 | a decoded value is below 2^62 and its own encoding is no longer than the bytes it came from |
| `Varint.VarintUnique` | moq-protocol/src/varint.rs:31-82 | the shortest encoding of a value is the only one of its length |
| `Varint.VarintPrefix` | moq-protocol/src/varint.rs:66-75 | a varint cut short is always too short |
| `Varint.EncodeVarint` | moq-protocol/src/varint.rs:31-64 | the bytes cut out by shifts are the big-endian value with the length in its two high bits; a value above the maximum writes nothing |
| `Varint.DecodeVarint` | moq-protocol/src/varint.rs:66-82 | the accumulating loop computes the value of the bytes without the two length bits |
| `VarintSlices.EncodeInto` | webtransport/src/varint.rs:35-70 | the start of the slice holds the encoding and the rest is untouched; on either error the whole slice is |
| `VarintSlices.VarintDecoder.Feed` | webtransport/src/varint.rs:125-139 | with the byte that completes a varint the answer is what decoding all bytes at once gives; before it, and after it as long as there is no reset, there is none |
| `VarintSlices.FedVarint` | webtransport/src/varint.rs:35-139 | the bytes of an encoded value make a whole varint only with the last of them, and then that value |
| `CodecChains.ChainBack` | moq-protocol/src/types.rs:338-405 | for any item codec: reading a counted list inverts writing it exactly when every item is acceptable in its place |
| `CodecKeyValues.SortedIsStableSort` | moq-protocol/src/params.rs:87-91 | sorting parameters orders the keys and keeps the pairs of each key in their order |
| `CodecKeyValues.SortedCounts` | moq-protocol/src/params.rs:87-91 | sorting parameters keeps every pair and adds none |
| `CodecKeyValues.EqualIffSamePerKey` | moq-protocol/src/params.rs:26-30 | two parameter lists are equal exactly when they hold the same pairs per key in the same order |
| `CodecRelay.LookupAgrees` | moq-protocol/src/params.rs:53-64 | equal parameters answer every varint lookup alike, so a trip over the wire changes no answer |
| `CodecKeyValues.ParametersBack` | moq-protocol/src/params.rs:94-109 | encoded parameters decode to their stable sort by key, and nothing else is consumed; keys beyond 64 bits would be a violation and more pairs than a vector can hold a panic, which the types of the source exclude |
| `CodecKeyValues.ExtensionsBack` | moq-protocol/src/types.rs:407-437 | extensions written to the end of a payload are read back as they were |
| `CodecKeyValues.WrittenAscend` | moq-protocol/src/types.rs:338-377 | pairs can be written only in non-decreasing order of their keys |
| `CodecNames.NamespaceBack` | moq-protocol/src/types.rs:75-158 | an encoded namespace is accepted, and then given back, exactly when it has the allowed number of non-empty fields of at most 4096 bytes in all; otherwise it is a protocol violation |
| `CodecFields.FieldsBack` | moq-protocol/src/types.rs:14-188 | for any list of fields: reading inverts writing, up to the sorting of parameters, exactly on fields the decoder accepts |
| `CodecFields.FieldsShrink` | moq-protocol/src/types.rs:14-188 | fields that were read are acceptable, sorted, and can be written in no more bytes |
| `CodecWire.WireForm` | moq-protocol/src/message/mod.rs:103-145 | the encoder writes every message, or fails with the error due, byte for byte as written out there: type, 16-bit length, then its components in the order of the source, varints in their shortest form |
| `CodecGrammar.AcceptsIff` | moq-protocol/src/message/mod.rs:147-211 | the decoder takes n bytes for a message if and only if they are that message written out, with any length of its varints: type, exact length, the components in order, nothing left over, within all limits of the source |
| `CodecRefusals.UnknownIff` | moq-protocol/src/message/mod.rs:197 | the type is reported unknown if and only if the message is complete and its type is none of the 24 |
| `CodecRefusals.InvalidIff` | moq-protocol/src/types.rs:307-318 | an invalid value is reported if and only if the message is complete and a subscribe option beyond 2 is reached |
| `CodecRefusals.ViolationIff` | moq-protocol/src/message/mod.rs:147-211 | a protocol violation is reported for exactly the rest: complete, of a known type, not cut short, no count too large, no unknown option, and no message |
| `Utf8.ValidIff` | moq-protocol/src/types.rs:184 | valid are exactly the encodings of sequences of Unicode scalar values, one character after the other |
| `CodecTheorems.FieldsDetermine` | moq-protocol/src/message/mod.rs:73-131 | type and fields determine the message, for all 24 messages and the three forms of FETCH |
| `CodecTheorems.BuildKeepsFields` | moq-protocol/src/message/mod.rs:163-199 | the message built from decoded fields has exactly those fields and the type it was decoded for |
| `CodecTheorems.RoundTripExact` | moq-protocol/src/message/mod.rs:133-211 | an encoded message, whatever follows it, decodes to itself with sorted parameters and consumes exactly its encoding if it is well formed; it is a protocol violation if it is not |
| `CodecTheorems.ProperPrefixTooShort` | moq-protocol/src/message/mod.rs:147-158 | every proper prefix of an encoded message is too short |
| `CodecTheorems.CanonicalisationNeverGrows` | moq-protocol/src/message/mod.rs:133-211 | a decoded message can be encoded again, in no more bytes than were consumed, and decodes back to itself |
| `CodecTheorems.StreamRecovered` | moq-protocol/src/message/mod.rs:133-211 | messages sent one after the other, followed by bytes that give BufferTooShort, are received as the same list and those bytes are kept |
| `CodecTheorems.StreamWithPartialMessage` | moq-protocol/src/message/mod.rs:133-211 | in particular a list of messages followed by the beginning of another |
| `CodecTheorems.MessageChunking` | moq-protocol/src/message/mod.rs:147-211 | for a reader that keeps what is left and tries again: how a stream is cut into pieces makes no difference up to the first error or panic, which later pieces repeat |
| `CodecTheorems.PanicAfterSameMessages` | moq-protocol/src/message/mod.rs:147-211 | a stream that makes the decoder panic does so after the same messages however it is cut, and one that does not in one piece does not in several |
| `CodecTheorems.CompleteIsFinal` | moq-protocol/src/message/mod.rs:147-158 | bytes after a complete message change nothing, and an incomplete one gives only BufferTooShort |
| `CodecShortage.FieldsShort` | moq-protocol/src/codec.rs:45-97 | a list of fields asks for more bytes exactly when one of its fields is reached and its varint, or a string it announces, exceeds the bytes left; in namespaces, and in lists of pairs whose count a vector can hold, likewise item by item |
| `CodecTheorems.TooShortInVain` | moq-protocol/src/message/mod.rs:157-198 | a complete message gives BufferTooShort if and only if its payload ends inside a field of its layout, and then no further byte changes the answer |
| `CodecTheorems.FaultsIff` | moq-protocol/src/types.rs:379-380 | decoding panics if and only if the message is complete and a parameter list of its layout is reached whose count, itself complete, times the size of a pair exceeds 2^63 - 1; then no further byte changes that |
| `CodecTheorems.FaultExample` | moq-protocol/src/params.rs:103-108 | such a message of eleven bytes: CLIENT_SETUP with 2^62 - 1 parameters announced, for every size of a pair |
| `CodecTheorems.TooShortInVainExample` | moq-protocol/src/message/mod.rs:157-198 | such a message: UNSUBSCRIBE with an empty payload |
| `CodecRelay.DecodedIsWireOk` | moq-relay/src/relay.rs:386-399 | what the relay assumes about the integers of a message holds of every decoded message |
| `CodecCursor.Cursor.ReadVarint` | moq-protocol/src/codec.rs:65-70 | reads the varint the specification reads and moves behind it |
| `CodecCursor.Cursor.Split` | moq-protocol/src/codec.rs:88-97 | a cursor over the next bytes, which the parent skips; too few bytes move nothing |
| `CodecCursor.DecodeNamespace` | moq-protocol/src/types.rs:85-158 | the counting loop with its byte budget reads what the specification reads, with the same errors |
| `CodecCursor.DecodeKeyValuePairs` | moq-protocol/src/types.rs:379-405 | the panic of the vector too large, and otherwise the loop over key distances reads what the specification reads, with the same errors |
| `CodecCursor.DecodeExtensions` | moq-protocol/src/types.rs:411-437 | the loop to the end of the payload reads what the specification reads, and leaves nothing |
| `CodecCursor.DecodePayload` | moq-protocol/src/message/fetch.rs:76-122 | the fields of a payload in order, those of FETCH according to its form, or the error or panic of the specification |
| `CodecCursor.DecodeControlMessage` | moq-protocol/src/message/mod.rs:147-211 | with nested cursors: message and consumed length, or the error or panic, that the specification gives |
| `CodecBuffer.EncodeKeyValuePairs` | moq-protocol/src/types.rs:338-377 | appends the pairs or fails as the specification does, leaving what was in the buffer |
| `CodecBuffer.SortedByKey` | moq-protocol/src/params.rs:87-91 | the sorted copy, ascending by key |
| `CodecBuffer.EncodePayload` | moq-protocol/src/message/mod.rs:103-130 | appends the fields of the message in order |
| `CodecBuffer.EncodeControlMessage` | moq-protocol/src/message/mod.rs:133-145 | appends the whole message, or on failure its type alone |
| `StreamParsers.DrainMore` | webtransport/src/capsule.rs:177-196 | for any stable parser: more bytes only continue what has been found |
| `StreamParsers.ChunkingIndependent` | webtransport/src/h3/frame.rs:113-132 | for any stable parser: an error-free stream gives the same items and the same kept bytes however it is cut |
| `StreamParsers.ChunkingUpToError` | webtransport/src/capsule.rs:177-196 | for any stable parser: with an error in the stream the results agree up to it, every later feed repeats it once, and the same bytes are kept |
| `StreamParsers.SameFirstError` | webtransport/src/capsule.rs:177-196 | for any stable parser: however a stream is cut, a given error is the first after the same items or in no feed at all |
| `StreamParsers.ListRecovered` | webtransport/src/h3/frame.rs:113-132 | for any parser: encoded items followed by an unfinished tail give exactly the items and keep the tail |
| `Envelopes.EnvelopeBack` | webtransport/src/h3/frame.rs:11-49 | type, length and payload are read back, and what follows is left |
| `Envelopes.EnvelopeWire` | webtransport/src/h3/frame.rs:11-23 | written are the shortest varints of type and length, in this order, and the payload |
| `Envelopes.EnvelopeIff` | webtransport/src/h3/frame.rs:25-49 | read is an envelope if and only if the bytes are its type, its length and its payload, in this order, with any length of the varints |
| `H3Frames.FrameChunking` | webtransport/src/h3/frame.rs:113-132 | frames found and bytes kept do not depend on how the stream is cut |
| `H3Frames.FramesRecovered` | webtransport/src/h3/frame.rs:11-49 | frames written one after the other are read back, also when the last is incomplete |
| `H3Frames.SettingsBack` | webtransport/src/h3/frame.rs:52-85 | a SETTINGS list is read back as it was written |
| `H3Frames.SettingsWire` | webtransport/src/h3/frame.rs:52-70 | written are identifier and value of each setting as shortest varints |
| `H3Frames.SettingsIff` | webtransport/src/h3/frame.rs:72-85 | a payload is read as a list if and only if it is that list's identifiers and values, with any length of the varints |
| `H3Frames.EncodeFrame` | webtransport/src/h3/frame.rs:11-23 | appends the frame, or overflows as the specification does |
| `H3Frames.DecodeFrame` | webtransport/src/h3/frame.rs:25-49 | frame and length, or nothing while bytes are missing |
| `H3Frames.DecodeSettings` | webtransport/src/h3/frame.rs:72-85 | the offset loop reads what the specification reads |
| `H3Frames.FrameParser.Feed` | webtransport/src/h3/frame.rs:113-132 | the results and the kept buffer are those of draining the old buffer and the new data together |
| `Capsules.CapsuleBack` | webtransport/src/capsule.rs:36-163 | decoding a capsule inverts encoding it, whatever follows |
| `Capsules.CapsuleWire` | webtransport/src/capsule.rs:36-79 | every capsule is written, or fails, byte for byte as written out there: its registered type, length, and content |
| `Capsules.CapsuleIff` | webtransport/src/capsule.rs:82-163 | a capsule is given out if and only if an envelope of its registered type holds it: a 32-bit code and a UTF-8 message of at most 1024 bytes, nothing, or a varint at the head |
| `Capsules.RefusedIff` | webtransport/src/capsule.rs:92-152 | refused as too long is exactly a close message of more than 1024 bytes, and as malformed exactly what is otherwise complete, no limit cut short, and no capsule |
| `Capsules.CapsuleShrinks` | webtransport/src/capsule.rs:82-163 | a decoded capsule can be written again, in no more bytes than it came in |
| `Capsules.CapsuleChunking` | webtransport/src/capsule.rs:177-196 | results and kept bytes do not depend on the cut up to the first error, which later feeds repeat |
| `Capsules.CapsulesRecovered` | webtransport/src/capsule.rs:36-196 | capsules written one after the other are read back, also when the last is incomplete |
| `Capsules.StallsIff` | webtransport/src/capsule.rs:92-152 | a complete capsule asks for more bytes if and only if it is a limit whose varint is cut short |
| `Capsules.StalledForever` | webtransport/src/capsule.rs:177-196 | nothing that follows such a capsule is ever given out |
| `Capsules.DecodeCapsule` | webtransport/src/capsule.rs:82-163 | capsule and length, missing bytes, or the error of the specification |
| `Capsules.EncodeCapsule` | webtransport/src/capsule.rs:36-79 | appends the capsule; a message too long leaves the type in the buffer, a limit that does not fit the type and its length |
| `Capsules.CapsuleParser.Feed` | webtransport/src/capsule.rs:177-196 | the results and the kept buffer are those of draining the old buffer and the new data together |
| `QpackInts.PrefixIntBack` | webtransport/src/h3/qpack.rs:100-145 | decoding inverts encoding for every 64-bit value, every prefix width from 1 to 8 and every mask clear of the prefix, whatever follows |
| `QpackInts.EncodedNeverWraps` | webtransport/src/h3/qpack.rs:129-144 | on encoded input no 64-bit sum of the decoder wraps |
| `QpackInts.DecodedIsMeantModulo` | webtransport/src/h3/qpack.rs:116-145 | what is decoded is the number the digits stand for modulo 2^64, so that number itself if and only if it is below 2^64 |
| `QpackInts.WrapsOnLongInput` | webtransport/src/h3/qpack.rs:129-144 | eleven bytes that mean 2^64 + 127 are decoded as 127 |
| `QpackInts.EncodePrefixInt` | webtransport/src/h3/qpack.rs:100-114 | the loop appends the prefix and the seven-bit groups of the rest |
| `QpackInts.DecodePrefixInt` | webtransport/src/h3/qpack.rs:116-145 | the loop computes the specified value, length and errors |
| `QpackHeaders.BlockBack` | webtransport/src/h3/qpack.rs:3-176 | every list of UTF-8 headers is read back from its block, whatever the static and the Huffman table |
| `QpackLines.IndexedBack` | webtransport/src/h3/qpack.rs:37-53 | a static reference, of any index and whatever follows, is the entry of the table, or an error beyond it |
| `QpackLines.NamedBack` | webtransport/src/h3/qpack.rs:54-76 | a literal under a static name, plain or Huffman coded, is the name of the entry with its own value |
| `QpackLines.LineMeans` | webtransport/src/h3/qpack.rs:36-92 | every line of the three kinds is read as the header it stands for, and is an error if it stands for none |
| `QpackLines.OtherLinesFail` | webtransport/src/h3/qpack.rs:36-92 | lines that refer to the dynamic table or to a base are errors |
| `QpackLines.BlockMeans` | webtransport/src/h3/qpack.rs:17-92 | a block of such lines, mixed, under any insert count and base, is read as their headers in order, and is an error if one of them is |
| `QpackLines.StaticExample` | webtransport/src/h3/qpack.rs:646-656 | the block 00 00 CF is entry 15 of the table |
| `QpackLines.EncodedBlock` | webtransport/src/h3/qpack.rs:3-15 | what the encoder writes is the block of the headers as plain literals, name first |
| `QpackHeaders.DecodedBlockStays` | webtransport/src/h3/qpack.rs:17-88 | whatever a block decodes to, encoded again decodes to the same |
| `QpackHeaders.BlockFaultsIff` | webtransport/src/h3/qpack.rs:17-165 | for every block: the decoder panics if and only if it reaches a string whose announced end, counted from its beginning, is 2^64 or more |
| `QpackHeaders.FaultingBlock` | webtransport/src/h3/qpack.rs:151-165 | such a block of thirteen bytes: one literal name of announced length 2^64 - 1 |
| `QpackHeaders.HuffmanStringBack` | webtransport/src/h3/qpack.rs:151-176 | a Huffman-coded string, padded with ones, is read back as its text |
| `QpackHeaders.EncodeHeaderBlock` | webtransport/src/h3/qpack.rs:3-15 | the loop writes the specified block |
| `QpackHeaders.DecodeHeaderBlock` | webtransport/src/h3/qpack.rs:17-88 | the loop over field lines gives the specified headers, error or panic |
| `QpackHeaders.DecodeString` | webtransport/src/h3/qpack.rs:151-176 | text and length as specified, plain or Huffman coded, the end computed modulo 2^64 |
| `HuffmanTree.BuildHuffmanTree` | webtransport/src/h3/qpack.rs:584-610 | for any prefix-free table: the nodes are exactly the beginnings of codes, children extend them by their bit, and a node carries a symbol exactly when it is that symbol's code |
| `HuffmanTree.CodeLeadsToSymbol` | webtransport/src/h3/qpack.rs:584-610 | the bit path of every code leads to a leaf that holds its symbol |
| `HuffmanTree.HuffmanDecode` | webtransport/src/h3/qpack.rs:555-577 | the tree walk decodes what the table alone determines |
| `HuffmanCodes.DecodesIff` | webtransport/src/h3/qpack.rs:555-577 | bits decode to a string if and only if they are its codes followed by an unfinished code: padding is neither required to be ones nor to be short |
| `HuffmanCodes.PaddedStringDecodes` | webtransport/src/h3/qpack.rs:555-577 | codes padded with up to seven ones decode to their string, given that up to seven ones are never a code |
| `ErrorCodes.ForwardIncreasing` | webtransport/src/error.rs:91-94 | the forward map is strictly increasing |
| `ErrorCodes.ThereAndBack` | webtransport/src/error.rs:91-114 | every application code lands on an unreserved codepoint of the range and is found again |
| `ErrorCodes.BackAndThere` | webtransport/src/error.rs:100-114 | every accepted codepoint is the image of the code it is mapped to |
| `ErrorCodes.OntoNonReserved` | webtransport/src/error.rs:91-114 | the images are exactly the codepoints from 0x52e4a40fa8db to 0x52e5ac983162 that are not 0x21 above a multiple of 0x1f, and those are what the inverse map accepts |

## Left out

- Relay handling of FETCH, PUBLISH, SUBSCRIBE_NAMESPACE, REQUEST_UPDATE, TRACK_STATUS and their answers: ignored by this code once the session is set up, and modelled as ignored.
- Reason strings of CloseSession and texts of errors: only the error codes are kept. The two REQUEST_ERROR reasons the relay writes itself are kept.
- Fields of the source that no modelled operation reads: `subscribed_prefixes`, `outbound_aliases`, `sent_requests_blocked_for`, the sent flag of GOAWAY, and ids repeated inside records of a map keyed by them.
- RelaySession.Session.AllocOutboundTrackAlias: does not model that the 64-bit alias counter would overflow after 2^64 subscriptions.
- RelayClass.Relay.AskPublisher: the code that opens a leg appears twice in the source, once without the check for waiting subscribers that is always true there; the model has it once, with the check.
- RelayStale.StaleEntryReached: the publisher of the example subscribes to its own track, to keep the run short; any third session does as well.
- H3Frames.FrameParser.Feed: results are plain frames, since decoding a frame has no error but missing bytes.
- QpackHeaders.DecodedBlockStays: asks that the decoded strings be at most 2^63 - 1 bytes long, the most a string of the source can have; `QpackHeaders.BlockBack` asks the same of the headers.
- VarintSlices.VarintDecoder.Feed: does not model that the count of bytes fed without a reset would overflow after 2^64 of them.
- Memory that really runs out, for instance when room is set aside for a declared number of pairs that a vector could hold: only the panic at a number no vector can hold is modelled.
- The message structs of the `message` directory with their own encode and decode functions: the model has one table of fields per message and one loop, instead of 24 pairs of functions.
- Parameter setters and the subscription filter: single-branch accessors.
- The concrete Huffman and static tables: the proofs hold for every table, and checking the tables is a finite computation.
- `encode_settings` and `encode_goaway` as frames: an envelope around a list that is modelled.
- `connection.rs`, `h3/mod.rs`, `flow_control.rs`, `config.rs`, `session.rs` and `stream.rs` of `webtransport`: wiring around the transport, counters and short headers.
- Object caching, priorities, delivery timeouts and authorisation: in the drafts but not in the code.
