/** Exactly which PDUs a session takes in each state, what it makes of them, and what it does with one it
    has taken before. */
module SessionInput {
  import opened Base
  import opened Crypto
  import opened SessionFacts
  import opened SessionModel
  import opened SessionRuns
  import opened SessionNoise

  // ---- what the keys depend on -------------------------------------------------------------------------

  /** Everything both sides have put into their keys. */
  datatype Transcript = Transcript(salt: Bytes, initiator: KeyId, s1: Secret, s2: Secret, s3: Secret, s4: Secret,
                                   aead: Aead)

  function TranscriptOf(k: SessionKeys): Transcript {
    var d := k.keyA2b;
    Transcript(d.salt, d.identity, d.s1, d.s2, d.s3, d.s4, k.aead)
  }

  /** Session keys are the same if and only if all that went into them is. */
  lemma KeysTellTheTranscript(nA: Bytes, nB: Bytes, fA: KeyId, s1: Secret, s2: Secret, s3: Secret, s4: Secret,
                              aead: Aead, mA: Bytes, mB: Bytes, gA: KeyId, t1: Secret, t2: Secret, t3: Secret,
                              t4: Secret, other: Aead)
    ensures DeriveSessionKeys(nA, nB, fA, s1, s2, s3, s4, aead) == DeriveSessionKeys(mA, mB, gA, t1, t2, t3, t4, other)
       <==> nA + nB == mA + mB && fA == gA && s1 == t1 && s2 == t2 && s3 == t3 && s4 == t4 && aead == other
    ensures TranscriptOf(DeriveSessionKeys(nA, nB, fA, s1, s2, s3, s4, aead))
         == Transcript(nA + nB, fA, s1, s2, s3, s4, aead)
  {
  }

  /** Each single one of the four outputs tells all of it but the AEAD, and no two are alike. */
  lemma EachKeyTellsTheTranscript(nA: Bytes, nB: Bytes, fA: KeyId, s1: Secret, s2: Secret, s3: Secret, s4: Secret,
                                  aead: Aead, mA: Bytes, mB: Bytes, gA: KeyId, t1: Secret, t2: Secret, t3: Secret,
                                  t4: Secret, other: Aead)
    ensures var k := DeriveSessionKeys(nA, nB, fA, s1, s2, s3, s4, aead);
            var l := DeriveSessionKeys(mA, mB, gA, t1, t2, t3, t4, other);
            && (k.keyA2b == l.keyA2b || k.ivA2b == l.ivA2b || k.keyB2a == l.keyB2a || k.ivB2a == l.ivB2a ==>
                  TranscriptOf(k) == TranscriptOf(l).(aead := aead))
            && {k.keyA2b, k.ivA2b} !! {l.keyB2a, l.ivB2a} && k.keyA2b != l.ivA2b && k.keyB2a != l.ivB2a
  {
  }

  // ---- the first step --------------------------------------------------------------------------------------

  /** A handshake is begun exactly by an initiator that has begun none, knows its peer, has a key id and an
      AEAD of its own, and is configured with a known level; anyone else is told so, and what has been
      assigned by then stays. */
  lemma InitiateIsTaken(s: Session, peer: KeyId, now: real, keys: Keys, cid: Cid, coins: Coins)
    ensures var a := SessionModel.Initiate(s, peer, now, keys, cid, coins);
            if s.role != Initiator || s.state != Initial then a == Fail(s, SessionError)
            else if peer in keys.publics && KnownLevel(s.config.kemLevel) && KnownLevel(keys.publics[peer].level)
                    && s.ownKeyId.Some? && s.config.acceptableAeads != [] then
              var known := keys.publics[peer];
              && a.error.None? && a.next.state == ExpectInitResponse && a.next.cid == Some(cid)
              && a.next.deadline == Some(now + s.config.retryInterval) && a.next.attempts == 0
              && a.next.hs.s1 == Some(Shared(known, coins.encap1)) && a.next.hs.ephemeral == Some(coins.ephemeral)
              && a.next.pending == s.pending && a.next.outPdus == s.outPdus + a.out.pdus
              && a.out.pdus == [Pdu(0, cid, SessionInitRequest(
                   Encapsulated(known, coins.encap1), peer, PublicKey(coins.ephemeral, s.config.kemLevel),
                   s.ownKeyId.value, OfferedAeads(s.config.acceptableAeads)))]
            else
              && a.error == Some(Escaped) && a.out == NOTHING && a.next.state == Initial
              && a.next == s.(cid := Some(cid), hs := a.next.hs) && a.next.hs.peerKeyId == Some(peer)
  {
  }

  // ---- requests ------------------------------------------------------------------------------------------

  /** A responder takes a request exactly when it knows both parties, every key is of a known level and the
      two sides have an AEAD in common; it then answers, and gives the peer one time to live. */
  lemma RequestIsTaken(s: Session, pdu: Pdu, now: real, keys: Keys, coins: Coins)
    requires pdu.Pdu? && pdu.payload.SessionInitRequest? && s.cid.Some?
    ensures var r, a := pdu.payload, HandleInitRequest(s, pdu.payload, pdu, now, keys, coins);
            if r.keyIdB !in keys.privates || r.keyIdA !in keys.publics then a == Fail(s, HandshakeFailed)
            else
              var known := keys.publics[r.keyIdA];
              if !KnownLevel(r.pkAStar.level) || !KnownLevel(known.level) then a == Fail(s, Escaped)
              else if forall aead <- s.config.acceptableAeads :: AeadOid(aead) !in r.acceptableAeads then
                a == Fail(s, HandshakeFailed)
              else
                && a.error.None? && a.next.state == ExpectCompletionRequest && Answered(a.next.hs)
                && a.next.hs.chosen == ChooseAead(s.config.acceptableAeads, r.acceptableAeads)
                && a.next.hs.peerKeyId == Some(r.keyIdA) && a.next.hs.nB == Some(coins.nonce)
                && a.next.hs.ephemeral == Some(coins.ephemeral)
                && a.next.hs.s1 == Some(Decapsulate(keys.privates[r.keyIdB], r.pkAStar.level, r.ct1))
                && a.next.hs.s2 == Some(Shared(r.pkAStar, coins.encap1))
                && a.next.hs.s3 == Some(Shared(known, coins.encap2))
                && a.next.lastReceived == Some(pdu) && a.next.deadline == Some(now + s.config.ttl)
                && a.out.pdus == [Pdu(0, s.cid.value, SessionInitResponse(
                     PublicKey(coins.ephemeral, r.pkAStar.level), Encapsulated(r.pkAStar, coins.encap1),
                     Encapsulated(known, coins.encap2), coins.nonce, AeadOid(a.next.hs.chosen.value)))]
  {
    ChosenIfOffered(s.config.acceptableAeads, pdu.payload.acceptableAeads);
  }

  lemma {:induction false} ChosenIfOffered(preferences: seq<Aead>, offered: seq<Oid>)
    ensures ChooseAead(preferences, offered).None? <==> forall aead <- preferences :: AeadOid(aead) !in offered
  {
    if preferences != [] {
      ChosenIfOffered(preferences[1..], offered);
      assert forall aead <- preferences :: aead == preferences[0] || aead in preferences[1..];
    }
  }

  // ---- responses and completion requests -----------------------------------------------------------------

  /** An initiator takes a response exactly when it names an AEAD the initiator accepts, and then holds
      keys of its own first secret and of what it decapsulates and encapsulates itself. */
  lemma ResponseIsTaken(s: Session, pdu: Pdu, now: real, keys: Keys, coins: Coins)
    requires pdu.Pdu? && pdu.payload.SessionInitResponse? && s.cid.Some?
    requires Offered(s) && KnownLevel(s.config.kemLevel) && s.ownKeyId.value in keys.privates
    requires KnownLevel(pdu.payload.pkBStar.level)
    ensures var r, a := pdu.payload, HandleInitResponse(s, pdu.payload, pdu, now, keys, coins);
            if exists aead <- s.config.acceptableAeads :: r.chosenAead == AeadOid(aead) then
              var level, plain := s.config.kemLevel, if s.pending.Some? then s.pending.value else [];
              && a.error.None? && a.next.state == ExpectCompletionResponse && a.next.keys.Some?
              && AeadOid(a.next.keys.value.aead) == r.chosenAead
              && TranscriptOf(a.next.keys.value)
                 == Transcript(coins.nonce + r.nB, s.ownKeyId.value, s.hs.s1.value,
                               Decapsulate(s.hs.ephemeral.value, level, r.ct2),
                               Decapsulate(keys.privates[s.ownKeyId.value], level, r.ct3),
                               Shared(r.pkBStar, coins.encap1), a.next.keys.value.aead)
              && a.next.lastReceived == Some(pdu) && a.next.deadline == Some(now + s.config.retryInterval)
              && a.next.attempts == 0 && a.next.pending.None? && a.next.sentPlain == Some(plain)
              && var k := a.next.keys.value;
                 a.out.pdus == [Pdu(0, s.cid.value, SessionCompletionRequest(
                   Seal(k.aead, k.keyA2b, k.ivA2b, 0, s.cid.value, plain), Encapsulated(r.pkBStar, coins.encap1),
                   coins.nonce))]
            else a == Fail(s, HandshakeFailed)
  {
    forall aead ensures AeadName(pdu.payload.chosenAead) == Some(aead) <==> pdu.payload.chosenAead == AeadOid(aead) {
      AeadNamesAndOidsAgree(aead, pdu.payload.chosenAead);
    }
  }

  /** A responder takes a completion request exactly when it carries a sealing under number 0 for this
      cid, by keys of the responder's own secrets and of what it decapsulates from the request. */
  lemma CompletionIsTaken(s: Session, pdu: Pdu)
    requires pdu.Pdu? && pdu.payload.SessionCompletionRequest? && s.cid.Some?
    requires Answered(s.hs) && KnownLevel(s.config.kemLevel)
    ensures var r, a, k := pdu.payload, HandleCompletionRequest(s, pdu.payload, pdu), ResponderKeys(s, pdu.payload);
            && TranscriptOf(k) == Transcript(r.nA + s.hs.nB.value, s.hs.peerKeyId.value, s.hs.s1.value, s.hs.s2.value,
                                             s.hs.s3.value,
                                             Decapsulate(s.hs.ephemeral.value, s.config.kemLevel, r.ct4),
                                             s.hs.chosen.value)
            && if exists plain :: r.cM == Seal(k.aead, k.keyA2b, k.ivA2b, 0, s.cid.value, plain) then
                 && a.error.None? && a.next.state == Established && a.next.keys == Some(k)
                 && a.out.payloads == NonEmpty(r.cM.plain) && a.next.seqA2b == 1 && a.next.pending.None?
                 && a.next.lastReceived == Some(pdu) && a.next.deadline.None?
                 && a.out.pdus == [Pdu(0, s.cid.value, SessionCompletionResponse(Sha256(r.cM.plain),
                      if s.pending.None? then None
                      else Some(Seal(k.aead, k.keyB2a, k.ivB2a, 0, s.cid.value, s.pending.value))))]
               else a == Fail(s, HandshakeFailed)
  {
  }

  /** The same sealing in another request: taken if and only if the nonce is the same and the ciphertext
      decapsulates to the same secret; and otherwise refused, with nothing changed. */
  lemma OtherCompletionIsRefused(s: Session, pdu: Pdu, ct4: Ciphertext, nA: Bytes)
    requires pdu.Pdu? && pdu.payload.SessionCompletionRequest? && s.cid.Some?
    requires Answered(s.hs) && KnownLevel(s.config.kemLevel)
    requires HandleCompletionRequest(s, pdu.payload, pdu).error.None?
    ensures var other := pdu.(payload := pdu.payload.(ct4 := ct4, nA := nA));
            var a := HandleCompletionRequest(s, other.payload, other);
            if nA == pdu.payload.nA
               && Decapsulate(s.hs.ephemeral.value, s.config.kemLevel, ct4)
                  == Decapsulate(s.hs.ephemeral.value, s.config.kemLevel, pdu.payload.ct4)
            then a.error.None? && a.next.keys == HandleCompletionRequest(s, pdu.payload, pdu).next.keys
            else a == Fail(s, HandshakeFailed)
  {
    var other := pdu.(payload := pdu.payload.(ct4 := ct4, nA := nA));
    CompletionIsTaken(s, pdu);
    CompletionIsTaken(s, other);
    hide HandleCompletionRequest, Decapsulate;
    var nB := s.hs.nB.value;
    SameEnd(nA, pdu.payload.nA, nB);
  }

  lemma SameEnd(a: Bytes, b: Bytes, end: Bytes)
    ensures a + end == b + end <==> a == b
  {
    if a + end == b + end {
      assert |a| == |b| && a == (a + end)[..|a|] && b == (b + end)[..|b|];
    }
  }

  // ---- confirmations and traffic ---------------------------------------------------------------------------

  /** An initiator takes a confirmation exactly when it is of its own false start and the reply, if there is
      one, a sealing under number 0 for this cid by the responder's direction of its own keys. */
  lemma ConfirmationIsTaken(s: Session, pdu: Pdu)
    requires pdu.Pdu? && pdu.payload.SessionCompletionResponse? && s.cid.Some? && s.sentPlain.Some? && s.keys.Some?
    ensures var r, a, k := pdu.payload, HandleCompletionResponse(s, pdu.payload, pdu), s.keys.value;
            if r.hM != Sha256(s.sentPlain.value) then a == Fail(s, HandshakeFailed)
            else if r.reply.None? then
              && a.error.None? && a.out == NOTHING
              && a.next == s.(lastReceived := Some(pdu), lastSent := None, state := Established, deadline := None)
            else if exists plain :: r.reply.value == Seal(k.aead, k.keyB2a, k.ivB2a, 0, s.cid.value, plain) then
              && a.error.None? && a.out == Output([], [r.reply.value.plain], [])
              && a.next == s.(lastReceived := Some(pdu), lastSent := None, state := Established, deadline := None,
                              seqB2a := 1, outPayloads := s.outPayloads + [r.reply.value.plain])
            else a == Fail(s, HandshakeFailed)
  {
  }

  /** Sealed by the peer's direction of the keys, under this number, for this cid. */
  predicate SealedByPeer(s: Session, m: Sealed, n: nat, plain: Bytes)
    requires s.keys.Some? && s.cid.Some?
  {
    var k := s.keys.value;
    m == if s.role == Initiator then Seal(k.aead, k.keyB2a, k.ivB2a, n, s.cid.value, plain)
         else Seal(k.aead, k.keyA2b, k.ivA2b, n, s.cid.value, plain)
  }

  /** An established session delivers a message exactly when its number is the next of the peer's, such
      numbers are left, and the peer sealed it under that number; anything else is refused, with nothing
      changed. */
  lemma MessageIsDelivered(s: Session, pdu: Pdu)
    requires pdu.Pdu? && pdu.payload.Message? && s.cid.Some? && s.keys.Some?
    ensures var r, a := pdu.payload, HandleEstablishedMessage(s, pdu.payload);
            var n := if s.role == Initiator then s.seqB2a else s.seqA2b;
            if r.seqno != n then a == Fail(s, HandshakeFailed)
            else if n < SEQ_LIMIT && exists plain :: SealedByPeer(s, r.m, n, plain) then
              && a.error.None? && a.out == Output([], [r.m.plain], [])
              && a.next == s.(outPayloads := s.outPayloads + [r.m.plain],
                              seqB2a := if s.role == Initiator then n + 1 else s.seqB2a,
                              seqA2b := if s.role == Initiator then s.seqA2b else n + 1)
            else a == Fail(s, Escaped)
  {
    if pdu.payload.m.Seal? {
      var n := if s.role == Initiator then s.seqB2a else s.seqA2b;
      assert SealedByPeer(s, pdu.payload.m, n, pdu.payload.m.plain) <==>
             exists plain :: SealedByPeer(s, pdu.payload.m, n, plain);
    }
  }

  // ---- what is out of place -----------------------------------------------------------------------------------

  /** The kind of PDU a session waits for. */
  predicate Expected(s: Session, x: Payload) {
    match s.state
    case Initial => s.role == Responder && x.SessionInitRequest?
    case ExpectInitResponse => s.role == Initiator && x.SessionInitResponse?
    case ExpectCompletionRequest => s.role == Responder && x.SessionCompletionRequest?
    case ExpectCompletionResponse => s.role == Initiator && x.SessionCompletionResponse?
    case Established => x.Message?
    case Dropped => false
  }

  /** What a session passes over in silence: what cannot be loaded, what is of another cid, and, of a
      responder that has not been asked yet, whatever is no request. */
  predicate NotForIt(s: Session, pdu: Pdu) {
    || pdu.Malformed?
    || (if s.state == Initial && s.role == Responder then !pdu.payload.SessionInitRequest? else s.cid != Some(pdu.cid))
  }

  /** Of a PDU other than the one taken last: passed over, or refused as unexpected, or of the kind
      expected. */
  lemma OutOfPlace(s: Session, pdu: Pdu, now: real, keys: Keys, coins: Coins)
    requires s.lastReceived != Some(pdu)
    ensures var a := ProcessIncoming(s, pdu, now, keys, coins);
            && (NotForIt(s, pdu) ==> a == SessionModel.Step(s, None, NOTHING))
            && (!NotForIt(s, pdu) && !Expected(s, pdu.payload) ==> a == Fail(s, UnexpectedPdu))
            && (!NotForIt(s, pdu) && Expected(s, pdu.payload) ==>
                  a.error != Some(UnexpectedPdu) && a != SessionModel.Step(s, None, NOTHING))
  {
  }

  // ---- what is taken once more --------------------------------------------------------------------------------

  /** The session as it would be cranked with nothing to take. */
  function Unfed(s: Session): Session {
    s.(inQueue := [])
  }

  /** Of a PDU equal to the one taken last: the crank puts out the PDU last sent, if there is one, before
      anything else, and for the rest is one with nothing to take. */
  lemma DuplicateIsAnswered(s: Session, now: real, keys: Keys, coins: Coins)
    requires s.state != Dropped && s.inQueue != [] && s.lastReceived == Some(s.inQueue[0])
    ensures var c := Update(s, now, keys, coins);
            var again := if s.lastSent.Some? then [s.lastSent.value] else [];
            var idle := Update(Unfed(s).(outPdus := s.outPdus + again), now, keys, coins);
            && c.next == idle.next.(inQueue := s.inQueue[1..]) && c.result == idle.result
            && c.out == Output(again + idle.out.pdus, idle.out.payloads, idle.out.seals)
            && (s.state != Established && !TimedOut(s, now) ==>
                  && c.next == s.(inQueue := s.inQueue[1..], outPdus := s.outPdus + again)
                  && c.out == Output(again, [], []))
  {
    var again := if s.lastSent.Some? then [s.lastSent.value] else [];
    var popped := s.(inQueue := s.inQueue[1..], outPdus := s.outPdus + again);
    assert TakeIncoming(s, now, keys, coins).next == popped;
    assert popped.outPdus == s.outPdus + again;
    hide ProcessIncoming;
    var fed := Unfed(s).(outPdus := s.outPdus + again);
    assert TakeIncoming(fed, now, keys, coins) == SessionModel.Step(fed, None, NOTHING);
    SendIgnoresQueue(fed, s.inQueue[1..]);
    TimeoutIgnoresQueue(SendPending(fed).next, s.inQueue[1..], now);
  }

  /** A PDU that moves the handshake on is the one remembered, and what was put out for it, if anything,
      what will be put out again. */
  lemma TakenIsRemembered(s: Session, now: real, keys: Keys, coins: Coins)
    requires Coherent(s) && s.state != Dropped && s.inQueue != []
    ensures var a := TakeIncoming(s, now, keys, coins);
            a.next.state != s.state ==>
              && a.next.lastReceived == Some(s.inQueue[0])
              && (a.next.lastSent == if a.out.pdus == [] then None else Some(a.out.pdus[0]))
              && |a.out.pdus| <= 1 && (a.out.pdus == [] <==> s.state == ExpectCompletionResponse)
  {
  }
}
