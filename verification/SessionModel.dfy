/** One handshake attempt, and the session it grows into, as a value: what each operation of the
    session layer does to it. The class in SessionObject is proved to do exactly this. */
module SessionModel {
  import opened Base
  import opened Crypto

  type Cid = Bytes

  // ---- protocol data units ----------------------------------------------------------------------

  datatype Payload =
    | SessionInitRequest(ct1: Ciphertext, keyIdB: KeyId, pkAStar: PublicKey, keyIdA: KeyId,
                         acceptableAeads: seq<Oid>)
    | SessionInitResponse(pkBStar: PublicKey, ct2: Ciphertext, ct3: Ciphertext, nB: Bytes,
                          chosenAead: Oid)
    | SessionCompletionRequest(cM: Sealed, ct4: Ciphertext, nA: Bytes)
    | SessionCompletionResponse(hM: Digest, reply: Option<Sealed>)
    | Message(seqno: int, m: Sealed)

  /** What arrives: a message, or octets that MakeMessage.load refuses. Loading is injective on what
      it accepts, so equality of PDUs stands for equality of octets. */
  datatype Pdu = Pdu(version: int, cid: Cid, payload: Payload) | Malformed(raw: Bytes)

  // ---- configuration and environment --------------------------------------------------------------

  datatype Role = Initiator | Responder

  datatype State =
    | Initial
    | ExpectInitResponse         // initiator only
    | ExpectCompletionRequest    // responder only
    | ExpectCompletionResponse   // initiator only
    | Established
    | Dropped

  datatype Config = Config(maxRetries: int, retryInterval: real, ttl: real, kemLevel: nat,
                           acceptableAeads: seq<Aead>)

  /** The key store as the session sees it: a missing id is a lookup that raises. */
  datatype Keys = Keys(publics: map<KeyId, PublicKey>, privates: map<KeyId, Bytes>)

  /** Every random choice one crank might make. */
  datatype Coins = Coins(ephemeral: Bytes, encap1: Bytes, encap2: Bytes, nonce: Bytes)

  // ---- the session ----------------------------------------------------------------------------------

  /** Handshake-scoped values, filled in as the exchange progresses. */
  datatype Handshake = Handshake(
    ephemeral: Option<Bytes>, ephemeralPublic: Option<PublicKey>,
    peerStatic: Option<PublicKey>, peerKeyId: Option<KeyId>,
    s1: Option<Secret>, s2: Option<Secret>, s3: Option<Secret>, s4: Option<Secret>,
    nA: Option<Bytes>, nB: Option<Bytes>, chosen: Option<Aead>)

  const NO_HANDSHAKE := Handshake(None, None, None, None, None, None, None, None, None, None, None)

  datatype Session = Session(
    role: Role, ownKeyId: Option<KeyId>, config: Config,
    state: State, cid: Option<Cid>,
    lastReceived: Option<Pdu>, lastSent: Option<Pdu>, attempts: nat, deadline: Option<real>,
    outPdus: seq<Pdu>, outPayloads: seq<Bytes>, pending: Option<Bytes>,
    hs: Handshake, keys: Option<SessionKeys>, seqA2b: nat, seqB2a: nat,
    sentPlain: Option<Bytes>, inQueue: seq<Pdu>)

  function New(role: Role, ownKeyId: Option<KeyId>, config: Config): Session {
    Session(role, ownKeyId, config, Initial, None, None, None, 0, None, [], [], None,
            NO_HANDSHAKE, None, 0, 0, None, [])
  }

  // ---- results ----------------------------------------------------------------------------------------

  /** HandshakeFailed and UnexpectedPdu are the session's own errors; Escaped is an exception of a
      library or of the key store that passes through it. */
  datatype Error = HandshakeFailed | UnexpectedPdu | SessionError | Escaped

  datatype UpdateResult = NothingReady | PduReady | PayloadReady | SessionDropped

  datatype Deadline = At(time: real) | Never

  datatype CrankResult = Returned(ready: UpdateResult, next: Deadline) | Raised(error: Error)

  /** What one step puts out, and what it encrypted in the session's own direction. */
  datatype Output = Output(pdus: seq<Pdu>, payloads: seq<Bytes>, seals: seq<Sealed>)

  const NOTHING := Output([], [], [])

  datatype Step = Step(next: Session, error: Option<Error>, out: Output)

  datatype Crank = Crank(next: Session, result: CrankResult, out: Output)

  function Fail(s: Session, e: Error): Step {
    Step(s, Some(e), NOTHING)
  }

  function NextUpdateResult(hasPayload: bool, hasPdu: bool): UpdateResult {
    if hasPayload then PayloadReady else if hasPdu then PduReady else NothingReady
  }

  // ---- push in, pull out -------------------------------------------------------------------------------

  function PostPdu(s: Session, p: Pdu): Session {
    s.(inQueue := s.inQueue + [p])
  }

  /** An empty payload is refused with ValueError and changes nothing. */
  function PostPayload(s: Session, payload: Bytes): Session {
    if payload == [] then s else s.(pending := Some(payload))
  }

  // ---- lifecycle -----------------------------------------------------------------------------------------

  function OfferedAeads(aeads: seq<Aead>): seq<Oid> {
    seq(|aeads|, i requires 0 <= i < |aeads| => AeadOid(aeads[i]))
  }

  function InitRequest(cid: Cid, peer: KeyId, peerStatic: PublicKey, own: KeyId, config: Config,
                       coins: Coins): Pdu
  {
    Pdu(0, cid, SessionInitRequest(Encapsulated(peerStatic, coins.encap1), peer,
                                   PublicKey(coins.ephemeral, config.kemLevel), own,
                                   OfferedAeads(config.acceptableAeads)))
  }

  /** The first step once the peer's static key has been looked up. */
  function InitiateWith(s: Session, peer: KeyId, peerStatic: PublicKey, now: real, cid: Cid, coins: Coins): Step {
    var ready := s.(hs := s.hs.(
        ephemeral := Some(coins.ephemeral),
        ephemeralPublic := Some(PublicKey(coins.ephemeral, s.config.kemLevel))));
    if !KnownLevel(peerStatic.level) then Fail(ready, Escaped)
    else
      var keyed := ready.(hs := ready.hs.(s1 := Some(Shared(peerStatic, coins.encap1))));
      if s.ownKeyId.None? || s.config.acceptableAeads == [] then Fail(keyed, Escaped)
      else
        var pdu := InitRequest(cid, peer, peerStatic, s.ownKeyId.value, s.config, coins);
        Step(keyed.(lastSent := Some(pdu), attempts := 0,
                    deadline := Some(now + s.config.retryInterval),
                    state := ExpectInitResponse, outPdus := s.outPdus + [pdu]),
             None, Output([pdu], [], []))
  }

  /** A failing step still leaves behind what was assigned before it. */
  function Initiate(s: Session, peer: KeyId, now: real, keys: Keys, cid: Cid, coins: Coins): Step {
    if s.role != Initiator || s.state != Initial then Fail(s, SessionError)
    else
      var named := s.(cid := Some(cid), hs := s.hs.(peerKeyId := Some(peer)));
      if peer !in keys.publics || !KnownLevel(s.config.kemLevel) then Fail(named, Escaped)
      else InitiateWith(named, peer, keys.publics[peer], now, cid, coins)
  }

  /** A sibling with the pre-response state and queues of its own. */
  function Fork(s: Session): Result<Session, Error> {
    if s.role != Initiator || s.state != ExpectInitResponse then Err(SessionError)
    else
      var twin := New(s.role, s.ownKeyId, s.config);
      Ok(twin.(state := ExpectInitResponse, cid := s.cid,
               hs := twin.hs.(peerKeyId := s.hs.peerKeyId, ephemeral := s.hs.ephemeral,
                              ephemeralPublic := s.hs.ephemeralPublic, s1 := s.hs.s1),
               lastSent := s.lastSent, attempts := s.attempts, deadline := s.deadline,
               pending := s.pending))
  }

  // ---- responder handlers -----------------------------------------------------------------------------------

  /** The responder's own preference decides. */
  function ChooseAead(preferences: seq<Aead>, offered: seq<Oid>): Option<Aead> {
    if preferences == [] then None
    else if AeadOid(preferences[0]) in offered then Some(preferences[0])
    else ChooseAead(preferences[1..], offered)
  }

  function HandleInitRequest(s: Session, req: Payload, pdu: Pdu, now: real, keys: Keys, coins: Coins): Step
    requires req.SessionInitRequest? && s.cid.Some?
  {
    if req.keyIdB !in keys.privates || req.keyIdA !in keys.publics then Fail(s, HandshakeFailed)
    else
      var peerStatic := keys.publics[req.keyIdA];
      var level := req.pkAStar.level;
      if !KnownLevel(level) || !KnownLevel(peerStatic.level) then Fail(s, Escaped)
      else match ChooseAead(s.config.acceptableAeads, req.acceptableAeads)
        case None => Fail(s, HandshakeFailed)
        case Some(chosen) =>
          var ephemeralPublic := PublicKey(coins.ephemeral, level);
          var reply := Pdu(0, s.cid.value, SessionInitResponse(
              ephemeralPublic, Encapsulated(req.pkAStar, coins.encap1),
              Encapsulated(peerStatic, coins.encap2), coins.nonce, AeadOid(chosen)));
          Step(s.(hs := s.hs.(ephemeral := Some(coins.ephemeral), ephemeralPublic := Some(ephemeralPublic),
                              peerStatic := Some(peerStatic), peerKeyId := Some(req.keyIdA),
                              s1 := Some(Decapsulate(keys.privates[req.keyIdB], level, req.ct1)),
                              s2 := Some(Shared(req.pkAStar, coins.encap1)),
                              s3 := Some(Shared(peerStatic, coins.encap2)),
                              nB := Some(coins.nonce), chosen := Some(chosen)),
                  lastReceived := Some(pdu), lastSent := Some(reply), attempts := 0,
                  deadline := Some(now + s.config.ttl), state := ExpectCompletionRequest,
                  outPdus := s.outPdus + [reply]),
               None, Output([reply], [], []))
  }

  /** The values a responder awaiting completion has on hand. */
  predicate Answered(h: Handshake) {
    && h.ephemeral.Some? && h.peerKeyId.Some? && h.s1.Some? && h.s2.Some? && h.s3.Some?
    && h.nB.Some? && h.chosen.Some?
  }

  function ResponderKeys(s: Session, req: Payload): SessionKeys
    requires Answered(s.hs) && req.SessionCompletionRequest?
  {
    DeriveSessionKeys(req.nA, s.hs.nB.value, s.hs.peerKeyId.value, s.hs.s1.value, s.hs.s2.value,
                      s.hs.s3.value, Decapsulate(s.hs.ephemeral.value, s.config.kemLevel, req.ct4),
                      s.hs.chosen.value)
  }

  function NonEmpty(payload: Bytes): seq<Bytes> {
    if payload == [] then [] else [payload]
  }

  function HandleCompletionRequest(s: Session, req: Payload, pdu: Pdu): Step
    requires req.SessionCompletionRequest? && s.cid.Some?
  {
    if !Answered(s.hs) || !KnownLevel(s.config.kemLevel) then Fail(s, Escaped)
    else
      var cid := s.cid.value;
      var keys := ResponderKeys(s, req);
      match Open(keys.aead, keys.keyA2b, keys.ivA2b, 0, cid, req.cM)
      case None => Fail(s, HandshakeFailed)
      case Some(plain) =>
        var seals := if s.pending.None? then []
                     else [Seal(keys.aead, keys.keyB2a, keys.ivB2a, 0, cid, s.pending.value)];
        var reply := Pdu(0, cid, SessionCompletionResponse(
            Sha256(plain), if seals == [] then None else Some(seals[0])));
        Step(s.(hs := s.hs.(nA := Some(req.nA),
                            s4 := Some(Decapsulate(s.hs.ephemeral.value, s.config.kemLevel, req.ct4))),
                keys := Some(keys), seqA2b := 1, seqB2a := if seals == [] then s.seqB2a else 1,
                pending := None, lastReceived := Some(pdu), lastSent := Some(reply),
                state := Established, deadline := None,
                outPdus := s.outPdus + [reply], outPayloads := s.outPayloads + NonEmpty(plain)),
             None, Output([reply], NonEmpty(plain), seals))
  }

  // ---- initiator handlers ----------------------------------------------------------------------------------

  /** The values an initiator awaiting a response has on hand. */
  predicate Offered(s: Session) {
    s.hs.ephemeral.Some? && s.hs.s1.Some? && s.ownKeyId.Some?
  }

  function InitiatorKeys(s: Session, resp: Payload, ownSeed: Bytes, chosen: Aead, coins: Coins): SessionKeys
    requires Offered(s) && resp.SessionInitResponse?
  {
    var level := s.config.kemLevel;
    DeriveSessionKeys(coins.nonce, resp.nB, s.ownKeyId.value, s.hs.s1.value,
                      Decapsulate(s.hs.ephemeral.value, level, resp.ct2),
                      Decapsulate(ownSeed, level, resp.ct3),
                      Shared(resp.pkBStar, coins.encap1), chosen)
  }

  function HandleInitResponse(s: Session, resp: Payload, pdu: Pdu, now: real, keys: Keys, coins: Coins): Step
    requires resp.SessionInitResponse? && s.cid.Some?
  {
    if !Offered(s) || !KnownLevel(s.config.kemLevel) || s.ownKeyId.value !in keys.privates then
      Fail(s, Escaped)
    else
      var chosen := AeadName(resp.chosenAead);
      if chosen.None? || chosen.value !in s.config.acceptableAeads then Fail(s, HandshakeFailed)
      else if !KnownLevel(resp.pkBStar.level) then Fail(s, Escaped)
      else
        var cid := s.cid.value;
        var sk := InitiatorKeys(s, resp, keys.privates[s.ownKeyId.value], chosen.value, coins);
        var plain := if s.pending.Some? then s.pending.value else [];
        var cM := Seal(sk.aead, sk.keyA2b, sk.ivA2b, 0, cid, plain);
        var request := Pdu(0, cid, SessionCompletionRequest(cM, Encapsulated(resp.pkBStar, coins.encap1),
                                                            coins.nonce));
        Step(s.(hs := s.hs.(nA := Some(coins.nonce), nB := Some(resp.nB), chosen := chosen),
                keys := Some(sk), seqA2b := 1, sentPlain := Some(plain), pending := None,
                lastReceived := Some(pdu), lastSent := Some(request), attempts := 0,
                deadline := Some(now + s.config.retryInterval), state := ExpectCompletionResponse,
                outPdus := s.outPdus + [request]),
             None, Output([request], [], [cM]))
  }

  function HandleCompletionResponse(s: Session, resp: Payload, pdu: Pdu): Step
    requires resp.SessionCompletionResponse? && s.cid.Some?
  {
    if s.sentPlain.None? || s.keys.None? then Fail(s, Escaped)
    else if resp.hM != Sha256(s.sentPlain.value) then Fail(s, HandshakeFailed)
    else
      var done := s.(lastReceived := Some(pdu), lastSent := None, state := Established, deadline := None);
      match resp.reply
      case None => Step(done, None, NOTHING)
      case Some(m) =>
        var k := s.keys.value;
        match Open(k.aead, k.keyB2a, k.ivB2a, 0, s.cid.value, m)
        case None => Fail(s, HandshakeFailed)
        case Some(plain) =>
          Step(done.(seqB2a := 1, outPayloads := s.outPayloads + [plain]), None, Output([], [plain], []))
  }

  // ---- established traffic -----------------------------------------------------------------------------------

  /** The session's own sending counter, and the one it expects of its peer. */
  function SendSeq(s: Session): nat {
    if s.role == Initiator then s.seqA2b else s.seqB2a
  }

  function ReceiveSeq(s: Session): nat {
    if s.role == Initiator then s.seqB2a else s.seqA2b
  }

  function SealNext(s: Session, plain: Bytes): Sealed
    requires s.keys.Some? && s.cid.Some?
  {
    var k := s.keys.value;
    if s.role == Initiator then Seal(k.aead, k.keyA2b, k.ivA2b, s.seqA2b, s.cid.value, plain)
    else Seal(k.aead, k.keyB2a, k.ivB2a, s.seqB2a, s.cid.value, plain)
  }

  /** A payload waits and there is no sequence number left to send it with. */
  predicate Exhausted(s: Session) {
    s.pending.Some? && SendSeq(s) >= SEQ_LIMIT
  }

  /** The payload leaves its slot before it is encrypted. */
  function SendEstablishedPayload(s: Session): Step
    requires s.pending.Some?
  {
    var taken := s.(pending := None);
    if s.keys.None? || s.cid.None? || Exhausted(s) then Fail(taken, Escaped)
    else
      var ct := SealNext(s, s.pending.value);
      var pdu := Pdu(0, s.cid.value, Message(SendSeq(s), ct));
      Step(taken.(seqA2b := if s.role == Initiator then s.seqA2b + 1 else s.seqA2b,
                  seqB2a := if s.role == Initiator then s.seqB2a else s.seqB2a + 1,
                  outPdus := s.outPdus + [pdu]),
           None, Output([pdu], [], [ct]))
  }

  function OpenExpected(s: Session, m: Sealed): Option<Bytes>
    requires s.keys.Some? && s.cid.Some?
  {
    var k := s.keys.value;
    if s.role == Initiator then Open(k.aead, k.keyB2a, k.ivB2a, s.seqB2a, s.cid.value, m)
    else Open(k.aead, k.keyA2b, k.ivA2b, s.seqA2b, s.cid.value, m)
  }

  function HandleEstablishedMessage(s: Session, msg: Payload): Step
    requires msg.Message? && s.cid.Some?
  {
    if s.keys.None? then Fail(s, Escaped)
    else if msg.seqno != ReceiveSeq(s) then Fail(s, HandshakeFailed)
    else if ReceiveSeq(s) >= SEQ_LIMIT then Fail(s, Escaped)
    else match OpenExpected(s, msg.m)
      case None => Fail(s, Escaped)
      case Some(plain) =>
        Step(s.(seqA2b := if s.role == Initiator then s.seqA2b else s.seqA2b + 1,
                seqB2a := if s.role == Initiator then s.seqB2a + 1 else s.seqB2a,
                outPayloads := s.outPayloads + [plain]),
             None, Output([], [plain], []))
  }

  // ---- the crank -----------------------------------------------------------------------------------------------

  function ProcessIncoming(s: Session, pdu: Pdu, now: real, keys: Keys, coins: Coins): Step {
    if s.lastReceived == Some(pdu) then
      // a duplicate of what was accepted last: answer with the same octets, process nothing
      if s.lastSent.Some? then
        Step(s.(outPdus := s.outPdus + [s.lastSent.value]), None, Output([s.lastSent.value], [], []))
      else Step(s, None, NOTHING)
    else if pdu.Malformed? then Step(s, None, NOTHING)
    else if s.state == Initial && s.role == Responder then
      if !pdu.payload.SessionInitRequest? then Step(s, None, NOTHING)
      else HandleInitRequest(s.(cid := Some(pdu.cid)), pdu.payload, pdu, now, keys, coins)
    else if s.cid != Some(pdu.cid) then Step(s, None, NOTHING)
    else if s.state == ExpectInitResponse && s.role == Initiator && pdu.payload.SessionInitResponse? then
      HandleInitResponse(s, pdu.payload, pdu, now, keys, coins)
    else if s.state == ExpectCompletionRequest && s.role == Responder && pdu.payload.SessionCompletionRequest? then
      HandleCompletionRequest(s, pdu.payload, pdu)
    else if s.state == ExpectCompletionResponse && s.role == Initiator && pdu.payload.SessionCompletionResponse? then
      HandleCompletionResponse(s, pdu.payload, pdu)
    else if s.state == Established && pdu.payload.Message? then
      HandleEstablishedMessage(s, pdu.payload)
    else Fail(s, UnexpectedPdu)
  }

  predicate TimedOut(s: Session, now: real) {
    s.deadline.Some? && now >= s.deadline.value && s.state != Established && s.state != Initial
  }

  /** A responder gives up; an initiator resends the same octets until its budget is spent. */
  function OnTimeout(s: Session, now: real): Step {
    if s.role == Responder || s.attempts >= s.config.maxRetries then Step(s.(state := Dropped), None, NOTHING)
    else
      var again := if s.lastSent.Some? then [s.lastSent.value] else [];
      Step(s.(attempts := s.attempts + 1, deadline := Some(now + s.config.retryInterval),
              outPdus := s.outPdus + again),
           None, Output(again, [], []))
  }

  function Then(a: Output, b: Output): Output {
    Output(a.pdus + b.pdus, a.payloads + b.payloads, a.seals + b.seals)
  }

  lemma ThenAssociates(a: Output, b: Output, c: Output)
    ensures Then(Then(a, b), c) == Then(a, Then(b, c))
  {
  }

  lemma ThenNothing(a: Output)
    ensures Then(a, NOTHING) == a
  {
  }

  function TakeIncoming(s: Session, now: real, keys: Keys, coins: Coins): Step {
    if s.inQueue == [] then Step(s, None, NOTHING)
    else ProcessIncoming(s.(inQueue := s.inQueue[1..]), s.inQueue[0], now, keys, coins)
  }

  function SendPending(s: Session): Step {
    if s.state == Established && s.pending.Some? then SendEstablishedPayload(s) else Step(s, None, NOTHING)
  }

  function CheckTimeout(s: Session, now: real): Step {
    if TimedOut(s, now) then OnTimeout(s, now) else Step(s, None, NOTHING)
  }

  function Report(s: Session, now: real): CrankResult {
    if s.state == Dropped then Returned(SessionDropped, Never)
    else Returned(NextUpdateResult(s.outPayloads != [], s.outPdus != []),
                  At(if s.deadline.Some? then s.deadline.value else now + s.config.retryInterval))
  }

  /** At most one queued PDU, then a waiting payload, then the clock. */
  function Update(s: Session, now: real, keys: Keys, coins: Coins): Crank {
    if s.state == Dropped then Crank(s, Returned(SessionDropped, Never), NOTHING)
    else
      var a := TakeIncoming(s, now, keys, coins);
      if a.error.Some? then Crank(a.next, Raised(a.error.value), a.out)
      else
        var b := SendPending(a.next);
        if b.error.Some? then Crank(b.next, Raised(b.error.value), Then(a.out, b.out))
        else
          var c := CheckTimeout(b.next, now);
          Crank(c.next, Report(c.next, now), Then(Then(a.out, b.out), c.out))
  }
}
