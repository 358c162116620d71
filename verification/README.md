# A verified model of KEM-MAKE

KEM-MAKE is an authenticated key exchange between an initiator and a responder who know each other's
static ML-KEM public keys. Four parts of it carry the branching and the state, and all four are modelled:

* **Session** (`src/kem_make/session.py`): one handshake attempt and the established session it grows
  into. It is cranked: PDUs and payloads are pushed in, `update(now)` takes one step, PDUs and payloads
  are pulled out. The model has all six states, both roles, retries with a budget, the responder's time
  limit, byte-exact duplicates, false-start payloads, sequence numbers per direction and `fork()`.
* **Dispatcher** and **CandidateStore** (`src/kem_make/dispatcher.py`, `src/kem_make/candidate.py`): many
  handshakes by correlation id, with competing forks for an initiator and caps with a fixed time to live.
* **KeyDirectory** (`src/kem_make/keystore.py`): a content-addressed store of key files, with a cache of
  key ids in each entry and an index of alternate ids. Each atomic write is one step of the model.
* **Wire format** (`src/kem_make/bottom.py`, `src/kem_make/common.py`): PDUs are read leniently and
  accepted only if re-encoding gives back the same octets (ITU-T X.690, sections 8.1.3, 8.3, 8.14, 8.19,
  10.1 and 11.5).

## How it is built

| files | what they hold |
|---|---|
| `Base`, `Crypto` | shared types; cryptography as a term algebra, so that decapsulation, decryption, Macs and key wrapping are pattern matching and nothing is assumed of them beyond that |
| `Der`, `Wire`, `WireLengths`, `WireLayout` | the octet-level reader and writer, the accepted language, the same message under every other way of writing lengths, and each PDU octet by octet |
| `SessionModel`, `SessionObject` | a session as a value, and as a class that updates its fields in place and is proved to go exactly where the value goes |
| `SessionInput` | exactly which PDUs a session takes in each state, what its keys depend on, and what it does with a PDU it has taken before |
| `SessionRuns`, `SessionProgress`, `SessionRepeats`, `SessionNoise`, `SessionCounter`, `Nonce`, `SessionFacts` | what sessions do over whole runs, against arbitrary input, shown the same PDU again, with rejected input woven in, and up to where the counter is spent |
| `Handshake`, `HandshakeLosses`, `TwoParty`, `TwoPartyTraffic` | two sessions, over a network that loses nothing, over one that loses PDUs and is outlasted by retries, and over one that loses, duplicates, delays and reorders; and all that is encrypted received |
| `Candidates`, `CandidateObject`, `OneCid` | the store as a value and as a class, and while it holds candidates of one cid only |
| `DispatcherModel`, `DispatcherObject` | the dispatcher as a value and as a class, iteration orders included |
| `DispatcherInvariant`, `DispatcherCrank`, `DispatcherRuns`, `DispatcherFlood`, `DispatcherCounter` | how the dicts and the store agree, what `update()` returns and leaves, bounds over whole runs, and runs that reach them |
| `DispatcherOutput` | what `update()` puts out, and what becomes of payloads handed in and of PDUs that arrive |
| `DispatcherHandshake`, `DispatcherReasons`, `DispatcherPeers`, `DispatcherDiscord` | two dispatchers connecting, what each can give reasons for, when they agree on a cid, and a run after which they do not |
| `Keystore`, `KeystoreObject`, `KeystoreProofs`, `KeystoreRuns`, `KeystoreFaults`, `KeystoreTamper` | the directory as a value and as a class, its invariant, its refinement of a plain map, crashes, files swapped and files edited |

The classes carry the source's in-place updates and loops. Each method states its whole new state by a
function on values, and the theorems are about those functions. A session object also keeps a ghost log of
what has been done with it, and every public method keeps it at the end of the run of that log, so that the
theorems about runs are theorems about the object (`SessionObject.Session.OutputIsWellBehaved`).
`dafny verify dfyconfig.toml` checks the whole project.

Passed in instead of read from the environment: the time, every random choice (`Coins`, salts, fresh
correlation ids), the key lookup of a session, the passphrase's master key and the digest functions.

## Model

In the order wire format, session, two sessions, candidate store, dispatcher, key directory.

| member | source | states |
|---|---|---|
| Wire.LoadOfEncode | src/kem_make/bottom.py:390-412 | every message that may be built and dumped is loaded back as itself |
| Wire.AcceptedLanguage | src/kem_make/common.py:13-26 | an octet string loads as a message if and only if that message is valid and the string is its one encoding |
| Wire.ByteEqualityIsSemanticEquality | src/kem_make/candidate.py:69-75 | on accepted input, equal octets and equal messages are the same thing, which is what byte-exact duplicate detection rests on |
| Wire.TrailingOctetsRejected | src/kem_make/common.py:13-26 | a valid encoding with octets after it reads as the message and is then refused as non-canonical |
| Wire.NonMinimalLengthRejected | src/kem_make/common.py:13-26 | a message whose own length has leading zero octets, or the long form where the short form fits, is understood and then refused |
| WireLengths.OnlyShortestLengthsAccepted | src/kem_make/common.py:13-26 | whatever readable way the length of each element is written in, chosen separately for each place in the message, the message is understood, and it is accepted if and only if each of its lengths has the shortest form |
| WireLengths.PaddedLengthsRejected | src/kem_make/common.py:13-26 | leading zero octets in the lengths at any places are read over, and at a single place are enough for the message to be refused |
| Wire.ExplicitDefaultVersionRejected | src/kem_make/bottom.py:375-395 | a message that spells out the default version is understood and then refused |
| Wire.AcceptedPublicKeys | src/kem_make/bottom.py:130-176 | a KEM public key on its own loads exactly when canonical and of 1184 octets for ML-KEM-768 or 1568 for ML-KEM-1024 |
| Wire.AcceptedCiphertexts | src/kem_make/bottom.py:178-213 | a KEM ciphertext on its own loads exactly when canonical and of 1088 octets for ML-KEM-768 or 1568 for ML-KEM-1024 |
| Wire.NestedOctetsDoNotMatter | src/kem_make/bottom.py:282-320 | in any accepted message the octets of every nested KEM value may be replaced by any others, and the result is accepted if and only if its size can be written at all |
| Wire.NestedLengthsAreNotChecked | src/kem_make/bottom.py:282-320 | per alternative: every accepted message has nested KEM values of their level's length if and only if the alternative carries none |
| Wire.PayloadRoundTrip | src/kem_make/bottom.py:360-372 | each of the five alternatives is read back from its own fields |
| WireLayout.LayoutIsAccepted | src/kem_make/bottom.py:258-395 | of any message: its one encoding is the stated sequence of tags, lengths and contents, with each alternative under its own context tag and a reply under [0], and those octets are accepted as that message if and only if it is valid |
| WireLayout.ConfirmationOctets | src/kem_make/bottom.py:331-340 | a confirmation with a reply, as literal octets |
| WireLayout.MessageOctets | src/kem_make/bottom.py:343-348 | an application message, as literal octets |
| WireLayout.RefusedFor | src/kem_make/bottom.py:383-395 | of messages that can be written at all, one is refused for an empty false start first, then for its cid, and otherwise accepted |
| WireLayout.KemRefusedFor | src/kem_make/bottom.py:137-155 | of KEM values that can be written at all, one of an unknown algorithm is refused as such, one of another length than its algorithm's as such, and no other |
| WireLayout.AlgorithmOctets | src/kem_make/bottom.py:60-78 | the object identifiers of ML-KEM-768, ML-KEM-1024, SHA-256 and the two AEADs, as literal octets |
| WireLayout.IntegerIs | src/kem_make/bottom.py:343-348 | sequence numbers of one to three octets are shortest two's complement, most significant octet first |
| Crypto.AeadNamesAndOidsAgree | src/kem_make/bottom.py:74-90 | the table of AEAD names is one-to-one with that of object identifiers |
| SessionObject.Session.constructor | src/kem_make/session.py:323-374 | every field starts at its initial value, with nothing put out or encrypted |
| SessionObject.Session.Sibling | src/kem_make/session.py:502-515 | the new object shares the pre-response state of its source and nothing else |
| SessionObject.Session.PostPdu | src/kem_make/session.py:378-380 | the PDU joins the end of the queue; nothing else changes |
| SessionObject.Session.PostPayload | src/kem_make/session.py:382-391 | refused exactly when empty; otherwise replaces whatever was waiting |
| SessionObject.Session.GetPdu | src/kem_make/session.py:399-401 | PDUs come out in the order they were put out, each once |
| SessionObject.Session.GetPayload | src/kem_make/session.py:407-409 | payloads come out in order, each once |
| SessionObject.Session.Initiate | src/kem_make/session.py:427-458 | the whole new state for success and for each exception, including what was assigned before it |
| SessionObject.Session.Fork | src/kem_make/session.py:467-515 | refused outside the pre-response state; otherwise a new object, the source unchanged |
| SessionObject.Session.Update | src/kem_make/session.py:519-550 | one crank: at most one PDU, then a waiting payload, then the clock; result, new state and everything put out and encrypted |
| SessionObject.Session.OnTimeout | src/kem_make/session.py:554-567 | a responder or a spent initiator is dropped in silence; otherwise the last PDU goes out again with a new deadline |
| SessionObject.Session.ProcessIncoming | src/kem_make/session.py:571-621 | duplicate, malformed, foreign, expected and unexpected PDUs, told apart in the source's order |
| SessionObject.Session.ChooseAead | src/kem_make/session.py:646-649 | the first of the responder's own preferences that was offered, found by a loop |
| SessionObject.Session.HandleInitRequest | src/kem_make/session.py:625-674 | the response, the three secrets and the deadline, or an error that leaves everything but the cid |
| SessionObject.Session.HandleCompletionRequest | src/kem_make/session.py:676-735 | keys, delivered false start, reply sealed under number 0 if a payload waits, or an error that leaves everything |
| SessionObject.Session.HandleInitResponse | src/kem_make/session.py:739-784 | keys, the completion request sealed under number 0, or an error that leaves everything |
| SessionObject.Session.HandleCompletionResponse | src/kem_make/session.py:786-808 | established with the reply delivered, only if the digest of the false start matches |
| SessionObject.Session.SendEstablishedPayload | src/kem_make/session.py:812-833 | one PDU under the next number of the sending direction; the payload leaves its slot before it can fail |
| SessionObject.Session.HandleEstablishedMessage | src/kem_make/session.py:835-863 | delivered and counted only under exactly the number expected |
| SessionObject.Session.OperationIsAStep | src/kem_make/session.py:519-550 | an operation that leads where its event leads extends the run the object has gone through by that event, so that the object is always at the end of the run of its log |
| SessionObject.Session.OutputIsWellBehaved | src/kem_make/session.py:519-578 | of any session object, constructed or forked, whatever has been done with it: all it has put out keeps to the trace grammar of its role and all it has encrypted is numbered consecutively under one key and IV |
| SessionInput.KeysTellTheTranscript | src/kem_make/session.py:162-183 | session keys are equal if and only if the nonces put together, the initiator's id, all four secrets and the AEAD are |
| SessionInput.EachKeyTellsTheTranscript | src/kem_make/session.py:171-183 | any one of the four outputs tells all of that but the AEAD, and no two outputs are alike |
| SessionInput.InitiateIsTaken | src/kem_make/session.py:427-458 | exactly who can begin a handshake, with what request, and what is left where it fails |
| SessionInput.RequestIsTaken | src/kem_make/session.py:625-674 | a request is answered if and only if both ids are known, the levels are known and there is an AEAD in common; otherwise the error, and nothing changed |
| SessionInput.ResponseIsTaken | src/kem_make/session.py:739-784 | a response is taken if and only if it names an AEAD the initiator accepts, with keys of the stated four secrets and a completion sealed under them |
| SessionInput.CompletionIsTaken | src/kem_make/session.py:676-735 | a completion request is taken if and only if it carries a sealing under number 0 by keys of the responder's own three secrets and of what it decapsulates from ct4; otherwise HandshakeFailed, and nothing changed |
| SessionInput.OtherCompletionIsRefused | src/kem_make/session.py:686-706 | the sealing of an accepted request, in a request with another ct4 or nonce, is taken if and only if the nonce is equal and ct4 decapsulates to the same secret |
| SessionInput.ConfirmationIsTaken | src/kem_make/session.py:786-808 | a confirmation is taken if and only if its digest is that of the false start and its reply, if any, opens under the responder's direction and number 0 |
| SessionInput.MessageIsDelivered | src/kem_make/session.py:835-863 | a message is delivered if and only if the peer's direction sealed it under exactly the next number, and that is below 2^96; otherwise the error, and nothing changed |
| SessionInput.OutOfPlace | src/kem_make/session.py:579-621 | of a PDU other than the one taken last: passed over in silence, unexpected, or of the kind the state waits for |
| SessionInput.DuplicateIsAnswered | src/kem_make/session.py:575-578 | whenever the head of the queue is the PDU taken last, the crank puts out the last PDU sent before anything else, and for the rest is a crank with nothing to take |
| SessionInput.TakenIsRemembered | src/kem_make/session.py:571-578 | a PDU that moves the handshake on is the one remembered, and what was put out for it the one kept; only a confirmation is answered by nothing |
| SessionRepeats.ReachableRemembers | src/kem_make/session.py:411-425 | in every state a session or a fork can reach, the kinds of the PDU taken last and of the PDU kept are those of the state |
| SessionRepeats.SameReplyAgain | src/kem_make/session.py:571-578 | in any run, a PDU that has moved the handshake on and comes again, whatever came in between while the state stayed, has put out for it first what was put out for it the first time |
| SessionRuns.InitiatorOutput | src/kem_make/session.py:554-578 | against arbitrary input all output is a prefix of R+ C+ M*, the R alike, the C alike, the M numbered consecutively, with at most 1 + max_retries copies of R and one more of C for each duplicate shown |
| SessionRuns.ResponderOutput | src/kem_make/session.py:669-735 | against arbitrary input all output is a prefix of P+ D (D or M)*, the P alike, the D alike, the M numbered consecutively |
| SessionRuns.SequenceNumbersAreConsecutive | src/kem_make/session.py:812-833 | over any run the numbers a session encrypts with are exactly 0, 1, 2, ..., handshake included, all below 2^96 and all under one key and IV |
| SessionRuns.PartyIsFixed | src/kem_make/session.py:323-344 | role, own key id and configuration never change |
| Nonce.NonceSpellsTheNumber | src/kem_make/session.py:186-188 | a nonce is the IV for number 0 and differs from it, bit by bit, where the big-endian octets of the number have a bit set |
| Nonce.NonceInjective | src/kem_make/session.py:186-188 | under one IV different sequence numbers give different nonces |
| Nonce.LimitIsPow256 | src/kem_make/session.py:186-188 | numbers that fit the 12-octet nonce are those below 2^96 |
| Nonce.NoNonceRepeats | src/kem_make/session.py:713-776 | over any run of a session or of a fork every encryption in its own direction has a nonce and no two have the same |
| SessionProgress.RaisingPduChangesNothing | src/kem_make/session.py:571-621 | a PDU that makes its crank raise leaves every field but the queue head, and the cid of an initial responder |
| SessionProgress.RaisingKeepsPayloadUnlessCounterExhausted | src/kem_make/session.py:812-829 | a crank raises and changes the waiting payload if and only if, before it, the session is established with a payload waiting and no number left to send it under, and the PDU at the head of the queue, if any, is not one that raises |
| SessionCounter.CounterRunsOut | src/kem_make/session.py:812-833 | every run that leaves a session or a fork established has a continuation after which the next crank loses the waiting payload |
| SessionCounter.LossIsReachable | src/kem_make/session.py:812-829 | the failing run: from construction, on either side, whoever can complete a handshake can get to where a payload is lost |
| SessionProgress.RunsAreWellBehaved | src/kem_make/session.py:519-578 | over any run of a new session or of a fork's start, the output grammar of its role and the consecutive numbering hold |
| SessionProgress.CrankMakesProgress | src/kem_make/session.py:519-567 | the lexicographic measure (steps left, retries left, queue length) drops if and only if there was something to take or to time out |
| SessionProgress.RetriesThenGivesUp | src/kem_make/session.py:554-567 | cranked at each of its deadlines without input, an initiator repeats its last PDU once for each retry left and is dropped on the next crank, not sooner |
| SessionProgress.UnansweredHandshake | src/kem_make/session.py:554-567 | from construction, a handshake that is never answered puts out its request 1 + max_retries times, each due one interval after the last, and is then given up |
| SessionProgress.ReadyTells | src/kem_make/session.py:293-301 | what a crank announces: a payload if and only if one can be got, else a PDU if and only if one can be got |
| SessionProgress.ReturnedDeadlineIsOwn | src/kem_make/session.py:538-550 | the deadline returned while waiting is the session's own |
| SessionProgress.ResponderDeadlineIsFixed | src/kem_make/session.py:672-672 | no input extends a responder's deadline and passing it emits nothing |
| SessionProgress.ForkIsATwin | src/kem_make/session.py:502-515 | a fork of any waiting initiator, reached by any run of a session or of a fork, gives, for the same future inputs, the same PDUs, payloads and encryptions forever as its source with what it had not yet taken left out |
| SessionProgress.ForkOutput | src/kem_make/session.py:502-515 | a fork's own output is a prefix of R* C+ M* |
| SessionNoise.ReachableIsCoherent | src/kem_make/session.py:323-374 | in every state a session or a fork can reach the fields are those the state goes with |
| SessionNoise.RejectedPdusCannotStopAGenuineOne | src/kem_make/session.py:571-621 | in any run of a session or of a fork, PDUs that make their crank raise or are passed over in silence, arriving anywhere and queued in front of genuine ones or not, leave every output, every other crank's result and the final state what they are without them, save an initial responder's cid; a crank that passes one over in front of a genuine one must have no payload to send and no deadline to act on |
| Handshake.HandshakeCompletes | src/kem_make/session.py:625-808 | with each PDU delivered once, both sides end established with equal keys under the responder's preferred common AEAD and each gets the payload the other had waiting; with no AEAD in common the first PDU fails |
| HandshakeLosses.HandshakeSurvivesLosses | src/kem_make/session.py:554-578 | however often a request or completion, or the reply to it, is lost, with retries left and the responder's time not up, one exchange of each that gets through leaves both established under equal keys with each payload delivered once |
| TwoParty.InOrderDelivery | src/kem_make/session.py:708-863 | over a network that loses, duplicates, delays and reorders, each application receives a prefix of the non-empty payloads the peer encrypted, false start first |
| TwoPartyTraffic.MessageTaken | src/kem_make/session.py:835-863 | a crank of an established session given a message sealed by its peer under the next number delivers exactly that plaintext and counts it |
| TwoPartyTraffic.AliceTakesNext | src/kem_make/session.py:835-863 | in any two-party world the initiator, handed the responder's traffic PDU of the number it expects, delivers what that PDU was encrypted from and counts it |
| TwoPartyTraffic.BobTakesNext | src/kem_make/session.py:835-863 | and the responder the initiator's |
| TwoPartyTraffic.OutstandingIsSent | src/kem_make/session.py:708-833 | in any such run all that either side has still to receive is on the wire, each number in its own traffic PDU |
| TwoPartyTraffic.EverythingIsReceived | src/kem_make/session.py:708-863 | from wherever such a run has brought two established sides, handing over the outstanding traffic in order is a legal continuation after which each application has received everything the other encrypted |
| TwoPartyTraffic.SaidIsSent | src/kem_make/session.py:382-391 | of payloads offered to an established session before a crank, the last is sealed under the next number and put out in one PDU |
| TwoParty.KeysAgree | src/kem_make/session.py:625-784 | whenever both hold keys, all four secrets and the AEAD are equal, the AEAD is the responder's most preferred among those offered, and an established initiator has an established responder |
| TwoParty.ChosenIsMostPreferred | src/kem_make/session.py:646-649 | the chosen AEAD comes first among those in common, and none is chosen only if there is none |
| CandidateObject.CandidateStore.Create | src/kem_make/candidate.py:106-120 | refused exactly for limits below one or a total below the per-cid cap; otherwise empty and valid |
| CandidateObject.CandidateStore.MatchOrNone | src/kem_make/candidate.py:128-137 | finds a candidate of the cid made for these octets if there is one |
| CandidateObject.CandidateStore.Add | src/kem_make/candidate.py:145-183 | sweeps, then adds at the end exactly when both caps allow it; the running total stays the sum of the lists |
| CandidateObject.CandidateStore.Discard | src/kem_make/candidate.py:185-202 | every candidate of the cid goes, counted, and no other |
| CandidateObject.CandidateStore.Expire | src/kem_make/candidate.py:204-222 | the in-place sweep leaves the unexpired candidates in order, no empty list, the right total, and returns how many went |
| Candidates.ExpireTwice | src/kem_make/candidate.py:204-222 | expiring at t1 and then t2 >= t1 gives the store and the total count of expiring at t2 |
| Candidates.SweepTakesTheExpired | src/kem_make/candidate.py:204-222 | a sweep takes exactly the candidates whose time to live is up |
| Candidates.LivesItsTime | src/kem_make/candidate.py:83-89 | an accepted candidate comes last in its list and is held from its creation up to, but not at, the end of its time to live |
| Candidates.RefusedAddIsExpire | src/kem_make/candidate.py:162-173 | a refused add is a bare expire to every query, and equal to it as a dict if and only if the cid still has candidates, since otherwise an empty list stays behind |
| Candidates.RefusedAddLeavesAList | src/kem_make/candidate.py:162-173 | the failing call: with the one place there is taken by another cid, an add is refused and leaves an empty list where a bare expire leaves none |
| Candidates.OneTakes | src/kem_make/candidate.py:145-183 | and one add to a new store with one place takes it |
| Candidates.Accounting | src/kem_make/candidate.py:145-222 | over any run both caps hold, the total is the sum of the lists, and what was added is live, expired or dropped |
| Candidates.WindowPerCid | src/kem_make/candidate.py:162-183 | in any half-open interval of one time to live at most max_per_cid adds succeed for a cid not dropped inside it |
| Candidates.WindowTotal | src/kem_make/candidate.py:162-202 | in any such interval at most max_total adds succeed, and one more for each candidate dropped inside it |
| DispatcherObject.Dispatcher.constructor | src/kem_make/dispatcher.py:92-113 | four empty dicts over whatever store is given, which agree with it if and only if the store is consistent and holds no candidate |
| DispatcherObject.Dispatcher.Initiate | src/kem_make/dispatcher.py:117-134 | a template and an empty list of forks under the new cid, or no trace at all if the first step raises |
| DispatcherObject.Dispatcher.PostPdu | src/kem_make/dispatcher.py:138-180 | routed by established, PDU type, responder, forks in that order; the tables still agree and every established session is still there |
| DispatcherObject.Dispatcher.PostPayload | src/kem_make/dispatcher.py:182-200 | reaches the established session, the responder, or the template and every fork; an error exactly for an empty payload or an unknown cid |
| DispatcherObject.Dispatcher.GetPdu | src/kem_make/dispatcher.py:208-211 | the oldest queued PDU, once |
| DispatcherObject.Dispatcher.GetPayload | src/kem_make/dispatcher.py:217-220 | the oldest queued payload with its cid, once |
| DispatcherObject.Dispatcher.Close | src/kem_make/dispatcher.py:222-237 | forgets one established session and touches nothing else |
| DispatcherObject.Dispatcher.Update | src/kem_make/dispatcher.py:241-265 | expiry, reconciliation and three loops over dicts in some order, with the result, the deadline and the exception that stops it |
| DispatcherObject.Dispatcher.SweepForks | src/kem_make/dispatcher.py:269-286 | survivors in order and the first established fork, found by a loop that an exception leaves half done |
| DispatcherObject.Dispatcher.CrankEstablished | src/kem_make/dispatcher.py:311-319 | every established session is cranked and drained once, up to the exception |
| DispatcherObject.Dispatcher.CrankResponders | src/kem_make/dispatcher.py:293-309 | every responder is cranked once and kept, promoted or dropped with its candidates |
| DispatcherObject.Dispatcher.CrankForks | src/kem_make/dispatcher.py:267-291 | every initiating cid is swept once and kept, promoted or dropped with its template and candidates |
| DispatcherObject.Dispatcher.RouteInitRequest | src/kem_make/dispatcher.py:323-356 | one session per cid, made only when the store accepts; a responder that stays initial leaves no candidate |
| DispatcherObject.Dispatcher.RouteInitResponse | src/kem_make/dispatcher.py:358-378 | an exact duplicate goes to the fork that accepted it; otherwise one new fork if the store accepts |
| DispatcherObject.Dispatcher.RouteToForks | src/kem_make/dispatcher.py:380-390 | forks are offered the PDU in order until one is established, which is promoted |
| DispatcherObject.Dispatcher.Promote | src/kem_make/dispatcher.py:408-413 | the winner takes the cid and every sibling, template and candidate goes at once |
| DispatcherObject.Dispatcher.ReapResponder | src/kem_make/dispatcher.py:415-424 | an established responder is promoted, a dropped one goes with its candidates |
| DispatcherObject.Dispatcher.Reconcile | src/kem_make/dispatcher.py:426-433 | exactly the pending cids without a live candidate are forgotten |
| DispatcherObject.Dispatcher.Drain | src/kem_make/dispatcher.py:402-406 | all of a session's output moves to the dispatcher's queues in order |
| DispatcherRuns.TablesAgree | src/kem_make/dispatcher.py:102-113 | in every run: an established cid is in no other table and has no candidate, templates and forks have the same keys, candidates belong to pending cids, accepted responses of forks are pairwise distinct, and every session sits under its own cid in a state its table allows |
| DispatcherRuns.EstablishedUntilClosed | src/kem_make/dispatcher.py:155-157 | in every run an established cid keeps the same session, keys and role, with counters that only grow, until it is closed |
| DispatcherRuns.PendingAtMostMaxTotal | src/kem_make/dispatcher.py:253-261 | in every run, right after an update at most max_total cids are pending in either role, and the two tables together exceed max_total at most by the cids pending in both |
| DispatcherRuns.RolesStayDisjoint | src/kem_make/dispatcher.py:117-134 | no cid is ever pending in both roles, and the overlap is empty, in a run in which no request arrives under a cid being initiated |
| DispatcherRuns.SpawnsPerWindow | src/kem_make/dispatcher.py:358-378 | in every run, while an initiator cid stays pending, at most max_per_cid forks are spawned for it in any window of one time to live, and max_per_cid less one more for each time a responder under the cid goes and takes the shared candidates with it, and one more if that responder was there from the start; requests the store refuses add nothing; its list grows by no more |
| DispatcherFlood.AllowanceIsReached | src/kem_make/dispatcher.py:323-378 | the bound is exact: for any limits and any number of responders given up there is a run, within one moment and with the cid pending throughout, that spawns and keeps that many forks |
| DispatcherFlood.RequestUnbacks | src/kem_make/dispatcher.py:323-347 | the failing call: a request that comes to nothing under a cid being initiated leaves that cid pending without a candidate |
| DispatcherRuns.NoResponderNoneGone | src/kem_make/dispatcher.py:293-331 | without a responder under the cid, and with no request under it or none that the store accepts, that number of times is zero |
| DispatcherRuns.OneForkPerResponse | src/kem_make/dispatcher.py:358-378 | a response makes one fork or none, and one exactly when it is new and the store accepts |
| DispatcherCrank.UpdateRaises | src/kem_make/dispatcher.py:311-319 | update lets an exception through if and only if some established session has a payload waiting and no sequence number left |
| DispatcherCounter.UpdateCanComeToRaise | src/kem_make/dispatcher.py:311-319 | every dispatcher with an established session can be led to where its next update raises |
| DispatcherCrank.UpdateDeadline | src/kem_make/dispatcher.py:241-319 | update returns exactly the earliest time at which an established session, responder or fork it keeps is due, none of which has given up, and one interval from now if it keeps none; with a positive interval that lies after now |
| DispatcherCrank.UpdateBound | src/kem_make/dispatcher.py:426-433 | both bounds on pending cids hold after any update of tables that agree, even one that raised |
| DispatcherCrank.DropBacked | src/kem_make/dispatcher.py:306-308 | dropping a responder leaves every pending cid with a candidate if and only if the dispatcher is not initiating under the same cid |
| DispatcherCrank.SweepKeeps | src/kem_make/dispatcher.py:267-291 | between calls no fork has input, so a sweep finds no winner, raises nothing, and keeps distinct responses distinct |
| DispatcherInvariant.PostPduKeeps | src/kem_make/dispatcher.py:138-180 | no PDU, however routed, breaks the agreement of the tables or displaces an established session |
| DispatcherInvariant.QuietConfirmedRaises | src/kem_make/dispatcher.py:311-319 | an established session without input raises exactly when its counter is spent on a waiting payload |
| DispatcherOutput.UpdatePutsOut | src/kem_make/dispatcher.py:241-319 | the queues after any update: those before, then, for each established cid in order and up to one that raises, what had been left in its session and one message sealing a waiting payload under its sending key and next number; then what had been left in responders, and nothing of forks |
| DispatcherOutput.UpdateSendsWhatWaits | src/kem_make/dispatcher.py:311-319 | where nothing has been left behind, update() puts out exactly one message for each established session with a payload waiting, in order, and no payload |
| DispatcherOutput.DrainedUnlessEscaped | src/kem_make/dispatcher.py:394-406 | only an operation through which an exception passes leaves output behind in an established session or a responder |
| DispatcherOutput.SubmittedWaits | src/kem_make/dispatcher.py:182-200 | a payload waits in the established session, else in the responder, else in the template and every fork of its cid, and nowhere else |
| DispatcherOutput.TrafficIsHeard | src/kem_make/dispatcher.py:138-180 | a message sealed by the peer under the next number comes out as a payload of its cid, and a waiting payload goes out; with the counter spent it stays with the session and the exception passes |
| DispatcherOutput.RepeatIsAnswered | src/kem_make/dispatcher.py:358-406 | a PDU that an established session, a responder or a fork has taken last has the same reply put out again, and changes neither tables nor store |
| DispatcherOutput.OnlyForeignErrorsPass | src/kem_make/dispatcher.py:394-400 | of what a crank may raise the dispatcher lets pass exactly what is not HandshakeFailed or UnexpectedPDU |
| DispatcherOutput.RefusedArrival | src/kem_make/dispatcher.py:394-400 | a PDU that an established session refuses raises nothing, is not answered and leaves the session as it was |
| DispatcherOutput.DispatchersTalk | src/kem_make/dispatcher.py:182-319 | a payload handed to one dispatcher under an established cid goes out in the next update and, given to the other, comes out there under that cid, with both in step again |
| DispatcherOutput.UpdateAnnounces | src/kem_make/session.py:293-301 | what update() announces: a payload if and only if one is queued, else a PDU if and only if one is |
| DispatcherOutput.ClosedIsForgotten | src/kem_make/dispatcher.py:222-237 | a closed cid is known no more, nothing else changes, and what still arrives or is submitted under it changes nothing |
| DispatcherOutput.AnswerIsOnRecord | src/kem_make/dispatcher.py:349-356 | the response to an accepted request is on record with the first candidate of its cid |
| DispatcherOutput.SpawnIsOnRecord | src/kem_make/dispatcher.py:371-378 | what a new fork answers is on record with every candidate made for the response it took |
| DispatcherHandshake.DispatchersConnect | src/kem_make/dispatcher.py:138-180 | two dispatchers busy with anything else establish a fresh cid under equal keys, hand over one payload each way, leave no candidate and touch no other cid; with no AEAD in common the responder keeps and sends nothing |
| DispatcherReasons.EventKeepsAccountable | src/kem_make/dispatcher.py:380-424 | whatever happens to a dispatcher, every confirmation it has put out answers a completion request it was given, under keys it has had established, every established initiator was given a confirmation of the false start it had sent under its keys, and every established responder a completion request under its keys |
| DispatcherPeers.PeersAgree | src/kem_make/dispatcher.py:380-424 | two dispatchers over a network that loses, duplicates, delays and reorders: where one has a cid established as initiator and the other has not closed it, the other has it established too, under the same keys, unless the confirmation had no reply in it and the initiator had sent the same false start under the other's keys as well; a responder's keys are those of a completion request the other has sent |
| DispatcherPeers.SameKeysWhen | src/kem_make/dispatcher.py:380-424 | the keys agree whenever the confirmation carried a reply, and whenever the initiator has sent that false start under no other keys |
| DispatcherPeers.WhoIsPromoted | src/kem_make/dispatcher.py:380-390 | a confirmation promotes the first fork that takes it: with a reply, one with the keys of the reply; without, the first that awaits a confirmation of the same false start, whatever its keys |
| DispatcherDiscord.PeersCanBeAtOdds | src/kem_make/dispatcher.py:380-390 | the failing run: after a responder expires and the request arrives once more, a confirmation without a reply makes the initiator promote its first fork, and both hold the cid, nothing closed, under different keys |
| DispatcherDiscord.SomePeersAreAtOdds | src/kem_make/dispatcher.py:380-390 | and there is such a run, for keys, configurations, stores and times that are given |
| SessionFacts.CrankFacts | src/kem_make/session.py:519-550 | what a table may rely on when it cranks a session: legal transitions, emptied queues, accepted PDUs and future deadlines |
| KeystoreObject.KeyDirectory.AddPublicKey | src/kem_make/keystore.py:603-623 | one write, or a duplicate error and no write |
| KeystoreObject.KeyDirectory.LoadEntry | src/kem_make/keystore.py:631-678 | the file the id names, then the index, each result cross-checked, errors in the source's order |
| KeystoreObject.KeyDirectory.LoadNamed | src/kem_make/keystore.py:641-648 | a verified entry that lists the id, found by a loop over its ids |
| KeystoreObject.KeyDirectory.KeyIdFor | src/kem_make/keystore.py:680-701 | the states after each of its two writes, in order, and the answer |
| KeystoreObject.KeyDirectory.IndexLookup | src/kem_make/keystore.py:728-737 | the first matching index entry, or the error of an index that does not verify |
| KeystoreObject.KeyDirectory.IndexAdd | src/kem_make/keystore.py:739-749 | the index read, extended at the end and written back, or no write |
| KeystoreObject.KeyDirectory.AddPrivateKey | src/kem_make/keystore.py:753-782 | one write, or the error of a missing public key or of a duplicate, and no write |
| KeystoreObject.KeyDirectory.GetPublicKey | src/kem_make/keystore.py:625-629 | reads only, and answers as the lookup does |
| KeystoreObject.KeyDirectory.GetPrivateKey | src/kem_make/keystore.py:784-834 | an alternate id goes through its public entry, a primary id straight to the file; wrong identity and failed unwrapping are errors |
| KeystoreRuns.DirectoryIsThePlainMap | src/kem_make/keystore.py:603-834 | with digests free of collisions, a new directory answers every sequence of operations exactly as a plain map from ids to keys and from keys to private keys does |
| KeystoreRuns.StepAgrees | src/kem_make/keystore.py:603-834 | each operation gives the plain map's answer and leaves a directory that represents the plain map's new state |
| KeystoreRuns.OtherLookupsUnchanged | src/kem_make/keystore.py:631-678 | adding or re-caching a key changes no lookup but that of the id added, even where an alternate hash is another key's file name, and adding a private key changes no private lookup but those by ids of its own key |
| KeystoreProofs.LookupExact | src/kem_make/keystore.py:631-678 | on a sound directory a lookup finds the one entry listing an id if and only if the file the id names lists it or the index has it |
| KeystoreProofs.KeyIdForKeeps | src/kem_make/keystore.py:680-701 | key_id_for answers with the digest of the key it resolves, keeps the primary id first and no digest algorithm twice, and is sound after each write |
| Keystore.LoadedListsId | src/kem_make/keystore.py:652-676 | whatever is on disk, index included, an entry a lookup returns lists the id asked for and is in the file of its name under the Mac of exactly that name, salt and contents |
| KeystoreFaults.SoundAfterCrashes | src/kem_make/keystore.py:697-700 | however often operations are cut short between writes, every index entry targets an existing file that lists its id |
| KeystoreFaults.ComputedAtMostOnce | src/kem_make/keystore.py:689-693 | over any run, crashes included, key_id_for computes the digest of a key under an algorithm not at all where it is cached, and otherwise at most once, and once more for each crash before the first write that threw one away |
| KeystoreFaults.CachedIsHashedAgain | src/kem_make/keystore.py:684-687 | of a digest already cached, an operation hashes the key again if and only if the digest is SHA-256 and the operation was handed the key itself |
| KeystoreFaults.PrimaryHashedAgain | src/kem_make/keystore.py:684-687 | the failing call: asked by key for the SHA-256 id of a key just added, key_id_for hashes it although it is cached, and writes nothing |
| KeystoreFaults.HashedOverRuns | src/kem_make/keystore.py:603-834 | over any run a key is hashed under SHA-256 exactly once for each call it is handed to, and under any other algorithm at most once, not at all if cached, except after crashes before the first write |
| KeystoreFaults.CrashLosesTheLookup | src/kem_make/keystore.py:697-700 | after a crash between the two writes the new id is cached but no later lookup finds it, whatever is done next, except when its hash is the entry's own file name |
| KeystoreFaults.OnlyCutShortLoses | src/kem_make/keystore.py:697-700 | from a sound directory that loses no id, a step leaves it so if and only if it is not a key_id_for cut short after its first write, and any other crash leaves what was there before the operation or after it |
| KeystoreFaults.CompleteUnlessCutShort | src/kem_make/keystore.py:697-700 | over any run no cached id is missing from the index if and only if no key_id_for was cut short there |
| KeystoreFaults.OtherCrashesAreHarmless | src/kem_make/keystore.py:603-834 | in any run with any other crashes the directory still answers as a plain map to which the operations cut short did all or nothing |
| KeystoreFaults.CrashWitness | src/kem_make/keystore.py:697-700 | the failing run: add a key, cut key_id_for short, and the id it then answers with is not found |
| KeystoreFaults.SwappedPublicKeys | src/kem_make/keystore.py:565-599 | however public files are copied or swapped and whatever the index says, a lookup gives the entry that lists the id or an error |
| KeystoreFaults.SwappedPrivateKeys | src/kem_make/keystore.py:803-832 | however files are copied or swapped, a private lookup gives the bytes filed for that id's key or an error |
| KeystoreTamper.EditedPublicKeys | src/kem_make/keystore.py:565-599 | of any disk whose Macs all come from a sound directory's files, contents and salts being anything: an entry returned is one that directory filed under that name |
| KeystoreTamper.EditedEntryIsRefused | src/kem_make/keystore.py:586-599 | one file of a sound directory with other contents or another salt under its old Mac: a lookup is refused with PublicKeyIntegrityError if it reads that file, and otherwise answered as before |
| KeystoreTamper.EditedEntryStopsAll | src/kem_make/keystore.py:680-701 | and so are get_public_key, key_id_for, which writes nothing, and private lookups by an alternate id |
| KeystoreTamper.EditedIndexIsRefused | src/kem_make/keystore.py:705-726 | an index edited under its old Mac: every lookup that gets as far as the index is refused, and every other answered as before |
| KeystoreTamper.EditedPrivateKeys | src/kem_make/keystore.py:803-832 | and for private files: what a lookup returns is what was wrapped for that id |
| KeystoreTamper.EditedPrivateIsRefused | src/kem_make/keystore.py:803-832 | a private file edited in any part does not unwrap |
| KeystoreTamper.OtherMasterIsRefused | src/kem_make/keystore.py:586-599 | under another master key nothing stored verifies or unwraps |

## Where the code and its documentation part

* The repository's README (lines 194-197) says KEM values are length-checked whether made locally or
  received. Values nested in a PDU are re-encoded but never loaded on their own, so their octets do not
  matter (`Wire.NestedOctetsDoNotMatter`): the promise holds of exactly those alternatives that carry none
  (`Wire.NestedLengthsAreNotChecked`).
* `add` promises to add nothing when it refuses. It leaves an empty list under a cid that had none, which
  no query shows (`Candidates.RefusedAddIsExpire`, `Candidates.RefusedAddLeavesAList`).
* The key store says an alternate id is found by a direct lookup once it has been computed. After a crash
  between the entry and the index it is not, and is not repaired (`KeystoreFaults.CrashLosesTheLookup`,
  `KeystoreFaults.CrashWitness`); every other crash is harmless (`KeystoreFaults.OnlyCutShortLoses`,
  `KeystoreFaults.OtherCrashesAreHarmless`).
* A digest is said never to be recomputed once cached. A call that is handed a key computes the primary
  SHA-256 anew to find the file (`KeystoreFaults.PrimaryHashedAgain`), and that is the only exception
  (`KeystoreFaults.CachedIsHashedAgain`).
* A payload taken for sending when the counter has reached 2^96 is lost with the exception; no other
  exception costs one (`SessionProgress.RaisingKeepsPayloadUnlessCounterExhausted`,
  `SessionCounter.LossIsReachable`).
* Both roles share one candidate list per cid, so a responder that goes takes the candidates of an
  initiation under the same cid with it (`DispatcherCrank.DropBacked`, `DispatcherFlood.RequestUnbacks`);
  the bounds of `DispatcherRuns.PendingAtMostMaxTotal` and `DispatcherRuns.SpawnsPerWindow` say what that
  costs, the latter exactly (`DispatcherFlood.AllowanceIsReached`).
* A matching h_m is taken as the proof of which candidate is the peer's (`dispatcher.py`, lines 8-13). It is
  a digest of the plaintext alone, so it fits every fork with the same false start; the first is promoted
  (`DispatcherPeers.WhoIsPromoted`). The keys agree where the confirmation carries a reply or only one fork
  has sent that false start (`DispatcherPeers.SameKeysWhen`), and otherwise may not
  (`DispatcherDiscord.PeersCanBeAtOdds`).

## Left out

- DispatcherObject.Dispatcher.Update: sessions in the tables are values, not shared objects, so that a promoted session is the very object that was a fork is stated as equality of everything but counters and queues; the in-place update of one session is modelled by `SessionObject.Session`.
- DispatcherObject.Dispatcher.constructor: with a store that already holds candidates the tables do not agree at first, and the runs proved about start from tables that do.
- KeystoreFaults.SwappedPublicKeys: restoring an older version of a file under its own name is not detected by the code and not excluded.
- Cryptography itself: ML-KEM, HKDF, AES-GCM, ChaCha20-Poly1305, PBKDF2, AES key wrap and HMAC are terms. Distinct terms are distinct values, which idealises Macs, digests and ciphertexts; h_m is a hash of the plaintext alone, and nothing is claimed about who the peer is.
- asn1crypto is not part of this model: the reader is a lenient one for this grammar, definite lengths and single-octet tags only; indefinite lengths and multi-octet tags are refused by it, where the library may read on before the re-encoding comparison refuses them.
- Object identifiers are kept as their subidentifiers, so the dotted form of the first two arcs is not modelled; parameters of algorithm identifiers are one optional opaque element.
- PDUs in the session, dispatcher and two-party models are values; `Wire.ByteEqualityIsSemanticEquality` is the reason octet equality may be replaced by equality of values.
- Ciphertexts and keys of a wrong length inside the session: the library exceptions they cause are one escaping error, as are failed lookups on the initiator's side and a failed tag on established traffic.
- Liveness of initiated handshakes in a dispatcher that is cranked in between: `update()` before the first response forgets a cid that has no candidate yet, and the crank does not drain the retransmissions of surviving forks. Both are modelled as written (`DispatcherOutput.UpdatePutsOut`); a repeated response does bring a fork's completion out again (`DispatcherOutput.RepeatIsAnswered`). Only safety, and the handshake without a crank in between, are proved of it.
- Conservation of all payloads from `post_payload` to sending: the one slot is overwritten, so of several payloads handed in between two cranks only the last is sent (`TwoPartyTraffic.SaidIsSent`).
- `reset()`, simple getters, `attempt_count` of candidates, and one-line argument checks: no invariant depends on them.
- The passphrase, `create`, `open` and the header file: a directory is opened with its master key known. File modes, temporary files, zeroing, constant-time comparison and concurrent writers are not modelled.
- File names are the octets their hex spells, so an index entry whose target is not hex is not represented; the wrap algorithm identifier is written and never read, and is not modelled.
- Digest names that the hash library does not know, and the exception they raise.
- Time is real-valued; floating-point rounding of deadlines is not modelled.
