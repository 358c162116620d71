/** The handshake over a network that loses nothing: it completes exactly when the two sides have an
    AEAD in common, and carries a payload each way. */
module Handshake {
  import opened Base
  import opened Crypto
  import opened SessionModel
  import opened TwoParty

  /** Who meets whom: both key stores hold what their side needs. */
  datatype Meeting = Meeting(st: Setup, configA: Config, configB: Config, keysA: Keys, keysB: Keys, cid: Cid,
                             sayA: Option<Bytes>, sayB: Option<Bytes>)

  predicate Introduced(m: Meeting) {
    && KnownLevel(m.st.level) && m.configA.kemLevel == m.configB.kemLevel == m.st.level
    && m.configA.retryInterval > 0.0 && m.configB.ttl > 0.0 && m.configA.acceptableAeads != []
    && Honest(m.keysA, m.st) && Honest(m.keysB, m.st)
    && m.st.idB in m.keysA.publics && m.st.idA in m.keysA.privates
    && m.st.idA in m.keysB.publics && m.st.idB in m.keysB.privates
    && (m.sayA.Some? ==> m.sayA.value != []) && (m.sayB.Some? ==> m.sayB.value != [])
  }

  function Common(m: Meeting): Option<Aead> {
    ChooseAead(m.configB.acceptableAeads, OfferedAeads(m.configA.acceptableAeads))
  }

  /** There are those who can meet. */
  lemma SomeCanMeet(cid: Cid, sayA: Option<Bytes>, sayB: Option<Bytes>) returns (m: Meeting)
    requires (sayA.Some? ==> sayA.value != []) && (sayB.Some? ==> sayB.value != [])
    ensures Introduced(m) && Common(m).Some? && m.cid == cid && m.sayA == sayA && m.sayB == sayB
  {
    var st := Setup(KeyId([1], [1]), [1], KeyId([1], [2]), [2], 768);
    var config := Config(2, 5.0, 60.0, 768, [Aes256Gcm]);
    assert KeyId([1], [1]).hash != KeyId([1], [2]).hash;
    m := Meeting(st, config, config, Keys(map[st.idB := PublicKey([2], 768)], map[st.idA := [1]]),
                 Keys(map[st.idA := PublicKey([1], 768)], map[st.idB := [2]]), cid, sayA, sayB);
    assert OfferedAeads([Aes256Gcm])[0] == AeadOid(Aes256Gcm);
  }

  /** The times and coins of the five steps. */
  datatype Chance = Chance(now: real, coins: Coins)

  function Alice0(m: Meeting): Session {
    New(Initiator, Some(m.st.idA), m.configA).(pending := m.sayA)
  }

  function Bob0(m: Meeting): Session {
    New(Responder, None, m.configB).(pending := m.sayB)
  }

  function First(m: Meeting, x: Chance): SessionModel.Step {
    Initiate(Alice0(m), m.st.idB, x.now, m.keysA, m.cid, x.coins)
  }

  lemma AliceAsks(m: Meeting, x: Chance)
    requires Introduced(m)
    ensures var a := First(m, x);
            && a.error.None? && |a.out.pdus| == 1 && a.next.state == ExpectInitResponse
            && a.next.config == m.configA && a.next.ownKeyId == Some(m.st.idA) && a.next.role == Initiator
            && a.next.cid == Some(m.cid) && a.next.inQueue == [] && a.next.pending == m.sayA
            && a.next.lastReceived.None?
            && a.next.hs.ephemeral.Some? && a.next.hs.s1.Some?
            && a.out.pdus[0].Pdu? && a.out.pdus[0].cid == m.cid && IsRequest(a.out.pdus[0].payload, a.next, m.st)
  {
  }

  /** Bob's answer to any request of Alice's. */
  lemma BobReplies(m: Meeting, a: Session, request: Pdu, x: Chance)
    requires Introduced(m) && request.Pdu? && request.cid == m.cid && IsRequest(request.payload, a, m.st)
    requires a.config == m.configA
    ensures var b := Update(PostPdu(Bob0(m), request), x.now, m.keysB, x.coins);
            if Common(m).None? then b.result == Raised(HandshakeFailed) && b.out == NOTHING && b.next.state == Initial
            else && b.result.Returned? && |b.out.pdus| == 1 && b.out.payloads == []
                 && b.next.state == ExpectCompletionRequest
                 && b.next.role == Responder && b.next.config == m.configB && b.next.cid == Some(m.cid)
                 && b.next.inQueue == [] && b.next.pending == m.sayB && b.next.lastReceived == Some(request)
                 && b.next.hs.peerKeyId == Some(m.st.idA) && b.next.hs.s1 == a.hs.s1 && b.next.hs.chosen == Common(m)
                 && b.out.pdus[0].Pdu? && b.out.pdus[0].cid == m.cid
                 && IsResponse(b.out.pdus[0].payload, a, b.next, m.st)
  {
  }

  function SaidBy(say: Option<Bytes>): Bytes {
    if say.Some? then say.value else []
  }

  lemma AliceCompletes(m: Meeting, a: Session, b: Session, response: Pdu, x: Chance)
    requires Introduced(m) && Common(m).Some? && Common(m).value in m.configA.acceptableAeads
    requires a.state == ExpectInitResponse && a.role == Initiator && a.config == m.configA
             && a.ownKeyId == Some(m.st.idA)
    requires a.cid == Some(m.cid) && a.inQueue == [] && a.pending == m.sayA && a.lastReceived.None?
    requires a.hs.ephemeral.Some? && a.hs.s1.Some?
    requires response.Pdu? && response.cid == m.cid && IsResponse(response.payload, a, b, m.st)
    requires b.hs.peerKeyId == Some(m.st.idA) && b.hs.s1 == a.hs.s1 && b.hs.chosen == Common(m) && b.config == m.configB
    ensures var c := Update(PostPdu(a, response), x.now, m.keysA, x.coins);
            && c.result.Returned? && |c.out.pdus| == 1 && c.out.payloads == [] && |c.out.seals| == 1
            && c.next.state == ExpectCompletionResponse
            && c.next.role == Initiator && c.next.cid == Some(m.cid) && c.next.inQueue == [] && c.next.pending.None?
            && c.next.keys.Some? && c.next.lastReceived == Some(response) && c.next.sentPlain == Some(SaidBy(m.sayA))
            && c.out.pdus[0].Pdu? && c.out.pdus[0].cid == m.cid
            && IsCompletion(c.out.pdus[0].payload, c.next, c.out.seals, b)
            && (var k := c.next.keys.value;
                c.out.seals[0] == Seal(k.aead, k.keyA2b, k.ivA2b, 0, m.cid, SaidBy(m.sayA)))
  {
    AeadNamesAndOidsAgree(Common(m).value, response.payload.chosenAead);
  }

  lemma BobConfirms(m: Meeting, a: Session, b: Session, completion: Pdu, seals: seq<Sealed>, x: Chance)
    requires Introduced(m) && b.state == ExpectCompletionRequest && b.role == Responder && b.config == m.configB
    requires b.cid == Some(m.cid) && b.inQueue == [] && b.pending == m.sayB
    requires b.lastReceived.Some? && b.lastReceived.value.Pdu? && b.lastReceived.value.payload.SessionInitRequest?
    requires completion.Pdu? && completion.cid == m.cid && IsCompletion(completion.payload, a, seals, b)
    requires a.keys.Some?
             && seals[0] == Seal(a.keys.value.aead, a.keys.value.keyA2b, a.keys.value.ivA2b, 0, m.cid, SaidBy(m.sayA))
    ensures var c := Update(PostPdu(b, completion), x.now, m.keysB, x.coins);
            && c.result.Returned? && |c.out.pdus| == 1 && c.next.state == Established && c.next.keys == a.keys
            && c.out.payloads == NonEmpty(SaidBy(m.sayA))
            && c.out.pdus[0].Pdu? && c.out.pdus[0].cid == m.cid
            && c.out.pdus[0].payload == SessionCompletionResponse(Sha256(SaidBy(m.sayA)),
                 if m.sayB.None? then None
                 else Some(Seal(a.keys.value.aead, a.keys.value.keyB2a, a.keys.value.ivB2a, 0, m.cid, m.sayB.value)))
  {
  }

  lemma AliceConcludes(m: Meeting, a: Session, confirmation: Pdu, x: Chance)
    requires a.state == ExpectCompletionResponse && a.role == Initiator && a.cid == Some(m.cid) && a.inQueue == []
    requires a.pending.None? && a.keys.Some? && a.sentPlain == Some(SaidBy(m.sayA))
    requires a.lastReceived.Some? && a.lastReceived.value.Pdu? && a.lastReceived.value.payload.SessionInitResponse?
    requires confirmation.Pdu? && confirmation.cid == m.cid
    requires confirmation.payload == SessionCompletionResponse(Sha256(SaidBy(m.sayA)),
               if m.sayB.None? then None
               else Some(Seal(a.keys.value.aead, a.keys.value.keyB2a, a.keys.value.ivB2a, 0, m.cid, m.sayB.value)))
    ensures var c := Update(PostPdu(a, confirmation), x.now, m.keysA, x.coins);
            && c.result.Returned? && c.next.state == Established && c.next.keys == a.keys
            && c.out.payloads == if m.sayB.None? then [] else [m.sayB.value]
  {
  }

  /** For all configurations, keys, coins, times and waiting payloads: when each PDU reaches the other
      side once, in turn, the handshake fails at its first PDU if the sides have no AEAD in common;
      and otherwise both sides end up established with the same keys under the AEAD Bob prefers,
      each having been given the payload the other had waiting. */
  lemma HandshakeCompletes(m: Meeting, x: seq<Chance>)
    requires Introduced(m) && |x| == 5
    ensures var a1 := First(m, x[0]);
            && a1.error.None? && |a1.out.pdus| == 1
            && var b1 := Update(PostPdu(Bob0(m), a1.out.pdus[0]), x[1].now, m.keysB, x[1].coins);
            if forall aead <- m.configB.acceptableAeads :: aead !in m.configA.acceptableAeads then
              b1.result == Raised(HandshakeFailed) && b1.next.state == Initial && b1.out == NOTHING
            else
              && b1.result.Returned? && |b1.out.pdus| == 1
              && var a2 := Update(PostPdu(a1.next, b1.out.pdus[0]), x[2].now, m.keysA, x[2].coins);
              && a2.result.Returned? && |a2.out.pdus| == 1
              && var b2 := Update(PostPdu(b1.next, a2.out.pdus[0]), x[3].now, m.keysB, x[3].coins);
              && b2.result.Returned? && |b2.out.pdus| == 1
              && var a3 := Update(PostPdu(a2.next, b2.out.pdus[0]), x[4].now, m.keysA, x[4].coins);
              && a3.result.Returned? && a3.next.state == Established && b2.next.state == Established
              && a3.next.keys.Some? && a3.next.keys == b2.next.keys
              && MostPreferred(a3.next.keys.value.aead, m.configB.acceptableAeads, m.configA.acceptableAeads)
              && b2.out.payloads == NonEmpty(SaidBy(m.sayA))
              && a3.out.payloads == NonEmpty(SaidBy(m.sayB))
  {
    hide Update, First, MostPreferred, IsCompletion, IsRequest;
    ChosenIsMostPreferred(m.configB.acceptableAeads, m.configA.acceptableAeads);
    AliceAsks(m, x[0]);
    var a1 := First(m, x[0]);
    BobReplies(m, a1.next, a1.out.pdus[0], x[1]);
    var b1 := Update(PostPdu(Bob0(m), a1.out.pdus[0]), x[1].now, m.keysB, x[1].coins);
    if Common(m).Some? {
      MostPreferredIsCommon(Common(m).value, m.configB.acceptableAeads, m.configA.acceptableAeads);
      var response := b1.out.pdus[0];
      AliceCompletes(m, a1.next, b1.next, response, x[2]);
      var a2 := Update(PostPdu(a1.next, response), x[2].now, m.keysA, x[2].coins);
      IsRequestFacts(a1.out.pdus[0].payload, a1.next, m.st);
      SameKeysDerived(a2.out.pdus[0].payload, a2.next, a2.out.seals, b1.next);
      BobConfirms(m, a2.next, b1.next, a2.out.pdus[0], a2.out.seals, x[3]);
      var b2 := Update(PostPdu(b1.next, a2.out.pdus[0]), x[3].now, m.keysB, x[3].coins);
      AliceConcludes(m, a2.next, b2.out.pdus[0], x[4]);
    }
  }

  lemma MostPreferredIsCommon(a: Aead, bobs: seq<Aead>, alices: seq<Aead>)
    requires MostPreferred(a, bobs, alices)
    ensures a in bobs && a in alices
  {
  }

  lemma IsRequestFacts(x: Payload, sA: Session, st: Setup)
    requires IsRequest(x, sA, st)
    ensures x.SessionInitRequest?
  {
  }

  lemma SameKeysDerived(x: Payload, sA: Session, seals: seq<Sealed>, sB: Session)
    requires IsCompletion(x, sA, seals, sB)
    ensures Answered(sB.hs) && sA.keys.Some? && sA.keys.value.aead == sB.hs.chosen.value
  {
  }
}
