/** An initiator and a responder over a network that may lose, duplicate, delay and reorder PDUs,
    but delivers only what the other side has sent. */
module TwoParty {
  import opened Base
  import opened Crypto
  import opened SessionModel
  import opened SessionRuns

  // ---- the system -----------------------------------------------------------------------------------

  /** Alice and Bob: key ids, static seeds and the one security level both are configured with. */
  datatype Setup = Setup(idA: KeyId, seedA: Bytes, idB: KeyId, seedB: Bytes, level: nat)

  datatype World = World(a: History, b: History)

  datatype Move = Alice(e: Event) | Bob(e: Event)

  /** A key store may lack either party, but does not misattribute them. */
  predicate Honest(k: Keys, st: Setup) {
    && (st.idA in k.publics ==> k.publics[st.idA] == PublicKey(st.seedA, st.level))
    && (st.idB in k.publics ==> k.publics[st.idB] == PublicKey(st.seedB, st.level))
    && (st.idA in k.privates ==> k.privates[st.idA] == st.seedA)
    && (st.idB in k.privates ==> k.privates[st.idB] == st.seedB)
  }

  /** Everything ever sent may arrive, whenever and as often as the network likes. */
  predicate Legal(w: World, m: Move, st: Setup) {
    match m.e
    case Initiate(peer, _, keys, _, _) => m.Alice? && peer == st.idB && Honest(keys, st)
    case Post(pdu) => if m.Alice? then pdu in w.b.trace else pdu in w.a.trace
    case Crank(_, keys, _) => Honest(keys, st)
    case Offer(_) => true
    case TakePdu => true
    case TakePayload => true
  }

  function Step(w: World, m: Move): World {
    if m.Alice? then w.(a := Next(w.a, m.e)) else w.(b := Next(w.b, m.e))
  }

  predicate LegalRun(w: World, moves: seq<Move>, st: Setup)
    decreases |moves|
  {
    moves == [] || (Legal(w, moves[0], st) && LegalRun(Step(w, moves[0]), moves[1..], st))
  }

  function RunWorld(w: World, moves: seq<Move>): World
    decreases |moves|
  {
    if moves == [] then w else RunWorld(Step(w, moves[0]), moves[1..])
  }

  function Start(st: Setup, configA: Config, configB: Config, ownB: Option<KeyId>): World {
    World(Begin(New(Initiator, Some(st.idA), configA)), Begin(New(Responder, ownB, configB)))
  }

  // ---- payloads -------------------------------------------------------------------------------------------

  function PlainOf(ct: Sealed): Bytes {
    if ct.Seal? then ct.plain else []
  }

  /** What was encrypted, in order; an empty payload stands for "nothing to say yet". */
  function Payloads(seals: seq<Sealed>): seq<Bytes> {
    if seals == [] then [] else Payloads(seals[..|seals| - 1]) + NonEmpty(PlainOf(seals[|seals| - 1]))
  }

  lemma PayloadsGrow(seals: seq<Sealed>, ct: Sealed)
    ensures Payloads(seals + [ct]) == Payloads(seals) + NonEmpty(PlainOf(ct))
  {
    assert (seals + [ct])[..|seals|] == seals;
  }

  /** What has been delivered is what the first k encryptions carried. */
  predicate Delivered(delivered: seq<Bytes>, seals: seq<Sealed>, k: nat) {
    k <= |seals| && delivered == Payloads(seals[..k])
  }

  lemma DeliveredNext(delivered: seq<Bytes>, seals: seq<Sealed>, k: nat)
    requires Delivered(delivered, seals, k) && k < |seals|
    ensures Delivered(delivered + NonEmpty(PlainOf(seals[k])), seals, k + 1)
  {
    PayloadsGrow(seals[..k], seals[k]);
    assert seals[..k + 1] == seals[..k] + [seals[k]];
  }

  lemma DeliveredStill(delivered: seq<Bytes>, seals: seq<Sealed>, k: nat, more: seq<Sealed>)
    requires Delivered(delivered, seals, k)
    ensures Delivered(delivered, seals + more, k)
  {
    assert (seals + more)[..k] == seals[..k];
  }

  lemma {:induction false} DeliveredIsPrefix(delivered: seq<Bytes>, seals: seq<Sealed>, k: nat)
    requires Delivered(delivered, seals, k)
    ensures delivered <= Payloads(seals)
    decreases |seals| - k
  {
    if k < |seals| {
      DeliveredNext(delivered, seals, k);
      DeliveredIsPrefix(delivered + NonEmpty(PlainOf(seals[k])), seals, k + 1);
    } else {
      assert seals[..k] == seals;
    }
  }

  // ---- what may be on the wire ------------------------------------------------------------------------------

  predicate IsRequest(x: Payload, sA: Session, st: Setup) {
    && x.SessionInitRequest? && x.keyIdA == st.idA && x.keyIdB == st.idB
    && x.ct1.Encapsulated? && x.ct1.to == PublicKey(st.seedB, st.level)
    && sA.hs.s1 == Some(Shared(x.ct1.to, x.ct1.coins))
    && sA.hs.ephemeral.Some? && x.pkAStar == PublicKey(sA.hs.ephemeral.value, st.level)
    && x.acceptableAeads == OfferedAeads(sA.config.acceptableAeads)
  }

  /** A completion request from which Bob derives Alice's own keys. */
  predicate IsCompletion(x: Payload, sA: Session, seals: seq<Sealed>, sB: Session) {
    && x.SessionCompletionRequest? && seals != [] && x.cM == seals[0]
    && Answered(sB.hs) && sA.keys == Some(ResponderKeys(sB, x))
  }

  predicate IsTraffic(x: Payload, seals: seq<Sealed>) {
    x.Message? && 0 <= x.seqno < |seals| && x.m == seals[x.seqno]
  }

  predicate FromAlice(p: Pdu, w: World, st: Setup) {
    && p.Pdu? && w.a.s.cid == Some(p.cid)
    && (IsRequest(p.payload, w.a.s, st) || IsCompletion(p.payload, w.a.s, w.a.seals, w.b.s)
        || IsTraffic(p.payload, w.a.seals))
  }

  predicate IsResponse(x: Payload, sA: Session, sB: Session, st: Setup) {
    && x.SessionInitResponse? && Answered(sB.hs) && sA.hs.ephemeral.Some?
    && x.pkBStar == PublicKey(sB.hs.ephemeral.value, st.level)
    && x.ct2.Encapsulated? && x.ct2.to == PublicKey(sA.hs.ephemeral.value, st.level)
    && sB.hs.s2 == Some(Shared(x.ct2.to, x.ct2.coins))
    && x.ct3.Encapsulated? && x.ct3.to == PublicKey(st.seedA, st.level)
    && sB.hs.s3 == Some(Shared(x.ct3.to, x.ct3.coins))
    && x.nB == sB.hs.nB.value && x.chosenAead == AeadOid(sB.hs.chosen.value)
  }

  predicate IsConfirmation(x: Payload, sB: Session, seals: seq<Sealed>) {
    && x.SessionCompletionResponse? && sB.state == Established
    && (x.reply.Some? ==> seals != [] && x.reply == Some(seals[0]))
  }

  predicate FromBob(p: Pdu, w: World, st: Setup) {
    && p.Pdu? && w.b.s.cid == Some(p.cid)
    && (IsResponse(p.payload, w.a.s, w.b.s, st) || IsConfirmation(p.payload, w.b.s, w.b.seals)
        || IsTraffic(p.payload, w.b.seals))
  }

  // ---- the invariant ---------------------------------------------------------------------------------------------

  predicate AliceOk(a: History, st: Setup) {
    var s := a.s;
    && s.role == Initiator && s.ownKeyId == Some(st.idA) && s.config.kemLevel == st.level
    && Numbered(s, a.seals)
    && s.state != ExpectCompletionRequest
    && (s.lastSent.Some? ==> s.lastSent.value in a.trace)
    && (s.state == Initial ==> a.trace == [] && s.lastReceived.None?)
    && (s.state != Initial ==> s.cid.Some? && s.hs.ephemeral.Some? && s.hs.s1.Some?)
    && (s.state == Initial || s.state == ExpectInitResponse ==> s.keys.None? && a.seals == [])
    && (s.state == ExpectCompletionResponse || s.state == Established ==> s.keys.Some? && a.seals != [])
    && (s.state == ExpectCompletionResponse ==> s.sentPlain.Some?)
    && (s.state != Established ==> a.delivered == [] && s.seqB2a == 0)
  }

  predicate BobOk(b: History, st: Setup) {
    var s := b.s;
    && s.role == Responder && s.config.kemLevel == st.level
    && Numbered(s, b.seals)
    && s.state != ExpectInitResponse && s.state != ExpectCompletionResponse
    && (s.lastSent.Some? ==> s.lastSent.value in b.trace)
    && (s.state == Initial ==> b.trace == [] && s.lastReceived.None?)
    && (s.state != Initial ==> s.cid.Some? && Answered(s.hs))
    && (s.state == Established ==> s.keys.Some? && s.seqA2b >= 1)
    && (s.state != Established ==> s.keys.None? && b.seals == [] && b.delivered == [] && s.seqA2b == 0)
  }

  /** What ties the two together. */
  predicate Linked(w: World, st: Setup) {
    var sA, sB := w.a.s, w.b.s;
    && (sB.state != Initial ==>
          && sA.state != Initial && sA.cid == sB.cid
          && sB.hs.s1 == sA.hs.s1 && sB.hs.peerKeyId == Some(st.idA)
          && sB.hs.chosen == ChooseAead(sB.config.acceptableAeads, OfferedAeads(sA.config.acceptableAeads)))
    && (sA.keys.Some? ==> sB.state != Initial && sB.hs.chosen == Some(sA.keys.value.aead))
    && (sB.state == Established ==>
          && sB.keys == sA.keys
          && Delivered(w.b.delivered, w.a.seals, sB.seqA2b))
    && (sA.state == Established ==>
          && sB.state == Established
          && Delivered(w.a.delivered, w.b.seals, sA.seqB2a))
    && (forall i | 0 <= i < |w.b.seals| :: PlainOf(w.b.seals[i]) != [])
    && (sB.pending.Some? ==> sB.pending.value != [])
    && (sA.pending.Some? ==> sA.pending.value != [])
    && (forall i | 1 <= i < |w.a.seals| :: PlainOf(w.a.seals[i]) != [])
  }

  ghost predicate Wire(w: World, st: Setup) {
    && (forall p <- w.a.trace :: FromAlice(p, w, st))
    && (forall p <- w.b.trace :: FromBob(p, w, st))
    && (forall p <- w.b.s.inQueue :: p in w.a.trace)
    && (forall p <- w.a.s.inQueue :: p in w.b.trace)
  }

  ghost predicate Inv(w: World, st: Setup) {
    AliceOk(w.a, st) && BobOk(w.b, st) && Linked(w, st) && Wire(w, st)
  }

  // ---- numbering ---------------------------------------------------------------------------------------------------

  lemma NumberedStill(s: Session, next: Session, seals: seq<Sealed>)
    requires Numbered(s, seals)
    requires SendSeq(next) == SendSeq(s) && next.keys == s.keys && next.cid == s.cid && next.role == s.role
    ensures seals + [] == seals && Numbered(next, seals + [])
  {
    assert seals + [] == seals;
  }

  lemma NumberedNext(s: Session, seals: seq<Sealed>)
    requires Numbered(s, seals) && s.keys.Some? && s.cid.Some? && s.pending.Some?
    ensures |seals| == SendSeq(s)
    ensures var r := SendEstablishedPayload(s); Numbered(r.next, seals + r.out.seals)
  {
    assert seals + [] == seals;
  }

  lemma NumberedAt(s: Session, seals: seq<Sealed>, i: nat)
    requires Numbered(s, seals) && i < |seals|
    ensures s.keys.Some? && s.cid.Some?
    ensures seals[i] == Seal(s.keys.value.aead, SendKey(s), SendIv(s), i, s.cid.value, PlainOf(seals[i]))
  {
  }

  // ---- Alice's steps -----------------------------------------------------------------------------------------------

  function WithA(w: World, next: Session, out: Output): World {
    w.(a := Record(w.a, next, out))
  }

  function WithB(w: World, next: Session, out: Output): World {
    w.(b := Record(w.b, next, out))
  }

  /** A step after which everything Alice has sent still means what it meant. */
  predicate AliceKeeps(w: World, next: Session, out: Output) {
    var s := w.a.s;
    && SameParty(s, next)
    && (s.state != Initial ==> next.cid == s.cid && next.hs.s1 == s.hs.s1 && next.hs.ephemeral == s.hs.ephemeral)
    && (w.a.seals != [] ==> next.keys == s.keys)
  }

  lemma AliceWire(w: World, st: Setup, next: Session, out: Output)
    requires AliceOk(w.a, st) && BobOk(w.b, st) && Linked(w, st) && Wire(w, st)
    requires AliceKeeps(w, next, out)
    requires forall p <- next.inQueue :: p in w.b.trace
    requires forall p <- out.pdus :: p in w.a.trace || FromAlice(p, WithA(w, next, out), st)
    ensures Wire(WithA(w, next, out), st)
  {
    var v := WithA(w, next, out);
    forall p | p in v.a.trace ensures FromAlice(p, v, st) {
      if p in w.a.trace {
        assert FromAlice(p, w, st);
        assert w.a.seals != [] ==> v.a.seals[0] == w.a.seals[0];
      }
    }
    forall p | p in v.b.trace ensures FromBob(p, v, st) {
      assert FromBob(p, w, st);
    }
    forall p | p in v.b.s.inQueue ensures p in v.a.trace {
      assert p in w.a.trace;
    }
  }

  /** What answering a response changes: the keys, the first encryption and one PDU that carries it. */
  predicate AnswersWith(s: Session, r: SessionModel.Step) {
    && |r.out.pdus| == 1 && |r.out.seals| == 1 && r.out.payloads == [] && s.cid.Some?
    && r.next == s.(hs := r.next.hs, keys := r.next.keys, seqA2b := 1, sentPlain := r.next.sentPlain, pending := None,
                    lastReceived := r.next.lastReceived, lastSent := Some(r.out.pdus[0]), attempts := 0,
                    deadline := r.next.deadline, state := ExpectCompletionResponse, outPdus := r.next.outPdus)
    && r.next.hs == s.hs.(nA := r.next.hs.nA, nB := r.next.hs.nB, chosen := r.next.hs.chosen)
    && r.next.keys.Some? && r.next.sentPlain.Some?
    && var k := r.next.keys.value;
       r.out.seals[0] == Seal(k.aead, k.keyA2b, k.ivA2b, 0, s.cid.value, r.next.sentPlain.value)
  }

  lemma AnswerStep(s: Session, pdu: Pdu, now: real, keys: Keys, coins: Coins)
    requires pdu.Pdu? && pdu.payload.SessionInitResponse? && s.cid.Some?
    ensures var r := HandleInitResponse(s, pdu.payload, pdu, now, keys, coins);
            if r.error.Some? then r == Fail(s, r.error.value) else AnswersWith(s, r)
  {
  }

  /** The completion request is one from which Bob derives the same keys. */
  lemma AnswerCompletes(w: World, st: Setup, pdu: Pdu, now: real, keys: Keys, coins: Coins)
    requires AliceOk(w.a, st) && BobOk(w.b, st) && Linked(w, st) && Honest(keys, st)
             && w.a.s.state == ExpectInitResponse
    requires pdu.Pdu? && IsResponse(pdu.payload, w.a.s, w.b.s, st) && w.b.s.state != Initial
    ensures var r := HandleInitResponse(w.a.s, pdu.payload, pdu, now, keys, coins);
            r.error.None? ==>
              && |r.out.pdus| == 1 && r.out.pdus[0].Pdu? && w.a.s.cid == Some(r.out.pdus[0].cid)
              && IsCompletion(r.out.pdus[0].payload, r.next, r.out.seals, w.b.s)
              && r.next.keys.Some? && w.b.s.hs.chosen == Some(r.next.keys.value.aead)
  {
    AeadNamesAndOidsAgree(w.b.s.hs.chosen.value, pdu.payload.chosenAead);
    hide AeadOid, AeadName, Numbered, Delivered, DeriveSessionKeys;
  }

  lemma AnswerKeepsAlice(a: History, st: Setup, r: SessionModel.Step)
    requires AliceOk(a, st) && a.s.state == ExpectInitResponse && AnswersWith(a.s, r)
    ensures AliceOk(Record(a, r.next, r.out), st)
  {
    assert a.seals + r.out.seals == r.out.seals;
  }

  lemma AnswerKeepsLinked(w: World, st: Setup, r: SessionModel.Step)
    requires AliceOk(w.a, st) && BobOk(w.b, st) && Linked(w, st) && w.a.s.state == ExpectInitResponse
    requires AnswersWith(w.a.s, r) && w.b.s.state != Initial && w.b.s.hs.chosen == Some(r.next.keys.value.aead)
    ensures Linked(WithA(w, r.next, r.out), st)
  {
    hide Numbered, Delivered;
    assert w.a.seals + r.out.seals == r.out.seals;
  }

  /** A response on the wire has a Bob behind it that answered. */
  lemma ResponseIsBobs(w: World, st: Setup, pdu: Pdu)
    requires Wire(w, st) && BobOk(w.b, st) && pdu in w.b.trace && pdu.payload.SessionInitResponse?
    ensures pdu.Pdu? && IsResponse(pdu.payload, w.a.s, w.b.s, st) && w.b.s.state != Initial
  {
    assert FromBob(pdu, w, st);
  }

  lemma AliceAnswers(w: World, st: Setup, pdu: Pdu, now: real, keys: Keys, coins: Coins)
    requires Inv(w, st) && w.a.s.state == ExpectInitResponse && Honest(keys, st)
    requires pdu in w.b.trace && pdu.Pdu? && pdu.payload.SessionInitResponse?
    ensures var r := HandleInitResponse(w.a.s, pdu.payload, pdu, now, keys, coins);
            Inv(WithA(w, r.next, r.out), st)
  {
    hide HandleInitResponse, AliceOk, BobOk, Linked, Wire, Honest, IsResponse, IsCompletion;
    ResponseIsBobs(w, st, pdu);
    AliceHasCid(w.a, st);
    AnswerStep(w.a.s, pdu, now, keys, coins);
    var r := HandleInitResponse(w.a.s, pdu.payload, pdu, now, keys, coins);
    if r.error.None? {
      AnswerCompletes(w, st, pdu, now, keys, coins);
      AnswerKeepsAlice(w.a, st, r);
      AnswerKeepsLinked(w, st, r);
      assert w.a.seals + r.out.seals == r.out.seals;
      assert forall p <- r.out.pdus :: p == r.out.pdus[0];
      AliceTrace(w, st, r.next, r.out);
    } else {
      assert WithA(w, r.next, r.out) == w;
    }
  }

  lemma AliceHasCid(a: History, st: Setup)
    requires AliceOk(a, st) && a.s.state != Initial
    ensures a.s.cid.Some? && (a.s.state == ExpectInitResponse ==> a.seals == [])
  {
  }

  lemma AliceConfirms(w: World, st: Setup, pdu: Pdu)
    requires Inv(w, st) && w.a.s.state == ExpectCompletionResponse
    requires pdu in w.b.trace && pdu.payload.SessionCompletionResponse?
    ensures var r := HandleCompletionResponse(w.a.s, pdu.payload, pdu);
            Inv(WithA(w, r.next, r.out), st)
  {
    var r := HandleCompletionResponse(w.a.s, pdu.payload, pdu);
    if r.error.None? {
      assert FromBob(pdu, w, st) && IsConfirmation(pdu.payload, w.b.s, w.b.seals);
      assert Delivered([], w.b.seals, 0);
      if pdu.payload.reply.Some? {
        NumberedAt(w.b.s, w.b.seals, 0);
      }
      NumberedStill(w.a.s, r.next, w.a.seals);
      hide Wire, Numbered, Delivered;
      DeliveredStill(w.b.delivered, w.a.seals, w.b.s.seqA2b, []);
      if pdu.payload.reply.Some? {
        DeliveredNext([], w.b.seals, 0);
      }
      AliceWire(w, st, r.next, r.out);
    } else {
      assert WithA(w, r.next, r.out) == w;
    }
  }

  /** Hearing moves the receiving counter and delivers one payload. */
  lemma HearingStep(s: Session, msg: Payload)
    requires msg.Message? && s.cid.Some? && s.keys.Some?
    ensures var r := HandleEstablishedMessage(s, msg);
            if r.error.Some? then r == Fail(s, r.error.value)
            else
              && msg.seqno == ReceiveSeq(s) && OpenExpected(s, msg.m).Some?
              && r.out == Output([], [OpenExpected(s, msg.m).value], [])
              && r.next == s.(seqA2b := if s.role == Initiator then s.seqA2b else s.seqA2b + 1,
                              seqB2a := if s.role == Initiator then s.seqB2a + 1 else s.seqB2a,
                              outPayloads := s.outPayloads + r.out.payloads)
  {
  }

  lemma AliceHears(w: World, st: Setup, pdu: Pdu)
    requires Inv(w, st) && w.a.s.state == Established
    requires pdu in w.b.trace && pdu.Pdu? && pdu.payload.Message?
    ensures var r := HandleEstablishedMessage(w.a.s, pdu.payload);
            Inv(WithA(w, r.next, r.out), st)
  {
    hide HandleEstablishedMessage, Wire, Numbered, Delivered;
    HearingStep(w.a.s, pdu.payload);
    var r := HandleEstablishedMessage(w.a.s, pdu.payload);
    if r.error.None? {
      BobSealed(w, st, pdu);
      NumberedAt(w.b.s, w.b.seals, w.a.s.seqB2a);
      NumberedStill(w.a.s, r.next, w.a.seals);
      DeliveredStill(w.b.delivered, w.a.seals, w.b.s.seqA2b, []);
      DeliveredNext(w.a.delivered, w.b.seals, w.a.s.seqB2a);
      assert w.a.seals + [] == w.a.seals;
      AliceQueueKept(w, st, r.next, r.out);
    } else {
      assert WithA(w, r.next, r.out) == w;
    }
  }

  lemma BobSealed(w: World, st: Setup, pdu: Pdu)
    requires Wire(w, st) && pdu in w.b.trace && pdu.payload.Message?
    ensures IsTraffic(pdu.payload, w.b.seals)
  {
    assert FromBob(pdu, w, st);
  }

  lemma AliceQueueKept(w: World, st: Setup, next: Session, out: Output)
    requires AliceOk(w.a, st) && BobOk(w.b, st) && Linked(w, st) && Wire(w, st)
    requires AliceKeeps(w, next, out) && next.inQueue == w.a.s.inQueue && out.pdus == []
    ensures Wire(WithA(w, next, out), st)
  {
    AliceTrace(w, st, next, out);
  }

  lemma AliceRepeats(w: World, st: Setup)
    requires Inv(w, st) && w.a.s.lastSent.Some?
    ensures var again := w.a.s.lastSent.value;
            Inv(WithA(w, w.a.s.(outPdus := w.a.s.outPdus + [again]), Output([again], [], [])), st)
  {
    hide Wire;
    var again := w.a.s.lastSent.value;
    assert w.a.seals + [] == w.a.seals;
    AliceTrace(w, st, w.a.s.(outPdus := w.a.s.outPdus + [again]), Output([again], [], []));
  }

  lemma AliceTakes(w: World, st: Setup, now: real, keys: Keys, coins: Coins)
    requires Inv(w, st) && w.a.s.state != Dropped && Honest(keys, st)
    ensures var r := TakeIncoming(w.a.s, now, keys, coins);
            Inv(WithA(w, r.next, r.out), st) && r.next.state != Dropped
  {
    hide Inv, HandleInitResponse, HandleCompletionResponse, HandleEstablishedMessage;
    var r := TakeIncoming(w.a.s, now, keys, coins);
    TakingKeepsGoing(w.a.s, now, keys, coins);
    if w.a.s.inQueue == [] {
      assert WithA(w, r.next, r.out) == w;
    } else {
      var pdu := w.a.s.inQueue[0];
      var v := w.(a := w.a.(s := w.a.s.(inQueue := w.a.s.inQueue[1..])));
      AlicePops(w, st);
      var mine := v.a.s.cid == Some(pdu.cid);
      if DuplicateNext(w.a.s) && w.a.s.lastSent.Some? {
        AliceRepeats(v, st);
      } else if DuplicateNext(w.a.s) {
        assert WithA(w, r.next, r.out) == v;
      } else if mine && v.a.s.state == ExpectInitResponse && pdu.payload.SessionInitResponse? {
        AliceAnswers(v, st, pdu, now, keys, coins);
      } else if mine && v.a.s.state == ExpectCompletionResponse && pdu.payload.SessionCompletionResponse? {
        AliceConfirms(v, st, pdu);
      } else if mine && v.a.s.state == Established && pdu.payload.Message? {
        AliceHears(v, st, pdu);
      } else {
        assert r.next == v.a.s && r.out == NOTHING;
        assert WithA(w, r.next, r.out) == v;
      }
    }
  }

  lemma TakingKeepsGoing(s: Session, now: real, keys: Keys, coins: Coins)
    requires s.state != Dropped
    ensures TakeIncoming(s, now, keys, coins).next.state != Dropped
  {
  }

  lemma AlicePops(w: World, st: Setup)
    requires Inv(w, st) && w.a.s.inQueue != []
    ensures var v := w.(a := w.a.(s := w.a.s.(inQueue := w.a.s.inQueue[1..])));
            Inv(v, st) && w.a.s.role == Initiator && w.a.s.inQueue[0] in w.b.trace && w.a.s.inQueue[0].Pdu?
  {
    hide Wire, Linked, BobOk;
    AliceQueued(w, st);
    var next := w.a.s.(inQueue := w.a.s.inQueue[1..]);
    AliceQueue(w, st, next);
    var v := WithA(w, next, NOTHING);
    assert v == w.(a := w.a.(s := next));
    assert Linked(v, st) by { LinkedStill(w, v, st); }
  }

  lemma AliceQueued(w: World, st: Setup)
    requires Wire(w, st) && w.a.s.inQueue != []
    ensures w.a.s.inQueue[0] in w.b.trace && w.a.s.inQueue[0].Pdu?
  {
    assert w.a.s.inQueue[0] in w.a.s.inQueue && FromBob(w.a.s.inQueue[0], w, st);
  }

  lemma LinkedStill(w: World, v: World, st: Setup)
    requires Linked(w, st) && v == w.(a := w.a.(s := w.a.s.(inQueue := v.a.s.inQueue)))
    ensures Linked(v, st)
  {
  }

  lemma AliceQueue(w: World, st: Setup, next: Session)
    requires AliceOk(w.a, st) && BobOk(w.b, st) && Linked(w, st) && Wire(w, st)
    requires next == w.a.s.(inQueue := next.inQueue) && forall p <- next.inQueue :: p in w.a.s.inQueue || p in w.b.trace
    ensures Wire(WithA(w, next, NOTHING), st)
  {
    AliceWire(w, st, next, NOTHING);
  }

  lemma AliceSends(w: World, st: Setup)
    requires Inv(w, st) && w.a.s.state != Dropped
    ensures var r := SendPending(w.a.s); Inv(WithA(w, r.next, r.out), st) && r.next.state != Dropped
  {
    hide Wire, Numbered, Delivered;
    var r := SendPending(w.a.s);
    if w.a.s.state == Established && w.a.s.pending.Some? {
      NumberedNext(w.a.s, w.a.seals);
      assert w.a.delivered + [] == w.a.delivered;
      DeliveredStill(w.b.delivered, w.a.seals, w.b.s.seqA2b, r.out.seals);
      AliceTrace(w, st, r.next, r.out);
    } else {
      hide Inv;
      assert WithA(w, r.next, r.out) == w;
    }
  }

  lemma AliceTrace(w: World, st: Setup, next: Session, out: Output)
    requires AliceOk(w.a, st) && BobOk(w.b, st) && Linked(w, st) && Wire(w, st)
    requires AliceKeeps(w, next, out) && next.inQueue == w.a.s.inQueue
    requires forall p <- out.pdus :: p in w.a.trace || FromAlice(p, WithA(w, next, out), st)
    ensures Wire(WithA(w, next, out), st)
  {
    AliceWire(w, st, next, out);
  }

  lemma AliceTimesOut(w: World, st: Setup, now: real)
    requires Inv(w, st) && w.a.s.state != Dropped
    ensures var r := CheckTimeout(w.a.s, now); Inv(WithA(w, r.next, r.out), st)
  {
    hide Wire, Numbered, Delivered, CheckTimeout;
    var r := CheckTimeout(w.a.s, now);
    TimeoutStep(w.a.s, now);
    if r.next != w.a.s {
      NumberedStill(w.a.s, r.next, w.a.seals);
      assert w.a.delivered + [] == w.a.delivered;
      AliceTrace(w, st, r.next, r.out);
    } else {
      assert WithA(w, r.next, r.out) == w;
    }
  }

  /** The clock may end a handshake, or have the last PDU sent again. */
  lemma TimeoutStep(s: Session, now: real)
    requires s.state != Dropped
    ensures var r := CheckTimeout(s, now);
            && r.next == s.(attempts := r.next.attempts, deadline := r.next.deadline, state := r.next.state,
                            outPdus := s.outPdus + r.out.pdus)
            && r.out == Output(r.out.pdus, [], []) && (forall p <- r.out.pdus :: s.lastSent == Some(p))
            && (r.next == s ==> r.out.pdus == [])
            && (s.state == Initial || s.state == Established ==> r.next == s)
            && (r.next.state == s.state
                || (r.next.state == Dropped && s.state != Initial && s.state != Established && r.out.pdus == []))
  {
    var r := CheckTimeout(s, now);
    if TimedOut(s, now) && s.role != Responder && s.attempts < s.config.maxRetries {
      assert r.next.attempts != s.attempts;
    }
  }

  lemma AliceInitiates(w: World, st: Setup, e: Event)
    requires Inv(w, st) && e.Initiate? && e.peer == st.idB && Honest(e.keys, st)
    ensures Inv(w.(a := Next(w.a, e)), st)
  {
    hide Wire, AliceOk, BobOk, Linked, SessionModel.Initiate, Honest, IsRequest;
    var r := SessionModel.Initiate(w.a.s, e.peer, e.at, e.keys, e.cid, e.coins);
    AliceIs(w.a, st);
    if w.a.s.state == Initial {
      InitiateStep(w.a.s, e);
      RequestOf(w.a.s, st, e);
      InitiateKeepsAlice(w.a, st, e);
      InitiateKeepsLinked(w, st, e);
      AliceTrace(w, st, r.next, r.out);
    } else {
      InitiatesOnce(w.a.s, e);
      assert WithA(w, r.next, r.out) == w;
    }
  }

  lemma AliceIs(a: History, st: Setup)
    requires AliceOk(a, st)
    ensures a.s.role == Initiator && a.s.ownKeyId == Some(st.idA) && a.s.config.kemLevel == st.level
    ensures a.s.state == Initial ==> a.seals == [] && a.s.keys.None?
  {
  }

  lemma InitiateKeepsAlice(a: History, st: Setup, e: Event)
    requires AliceOk(a, st) && e.Initiate? && a.s.state == Initial
    requires var r := SessionModel.Initiate(a.s, e.peer, e.at, e.keys, e.cid, e.coins);
             r.error.None? ==> r.next.hs.ephemeral.Some? && r.next.hs.s1.Some?
    ensures var r := SessionModel.Initiate(a.s, e.peer, e.at, e.keys, e.cid, e.coins);
            AliceOk(Record(a, r.next, r.out), st)
  {
    InitiateStep(a.s, e);
    hide SessionModel.Initiate;
    var r := SessionModel.Initiate(a.s, e.peer, e.at, e.keys, e.cid, e.coins);
    assert a.seals + r.out.seals == [];
  }

  lemma InitiateKeepsLinked(w: World, st: Setup, e: Event)
    requires AliceOk(w.a, st) && BobOk(w.b, st) && Linked(w, st) && e.Initiate? && w.a.s.state == Initial
    ensures var r := SessionModel.Initiate(w.a.s, e.peer, e.at, e.keys, e.cid, e.coins);
            Linked(WithA(w, r.next, r.out), st)
  {
    InitiateStep(w.a.s, e);
    hide SessionModel.Initiate, Numbered, Delivered;
  }

  lemma RequestOf(s: Session, st: Setup, e: Event)
    requires e.Initiate? && e.peer == st.idB && Honest(e.keys, st)
    requires s.role == Initiator && s.state == Initial && s.ownKeyId == Some(st.idA) && s.config.kemLevel == st.level
    ensures var r := SessionModel.Initiate(s, e.peer, e.at, e.keys, e.cid, e.coins);
            r.error.None? ==>
              && |r.out.pdus| == 1 && r.out.pdus[0].Pdu? && r.next.cid == Some(r.out.pdus[0].cid)
              && IsRequest(r.out.pdus[0].payload, r.next, st)
  {
  }

  lemma InitiatesOnce(s: Session, e: Event)
    requires e.Initiate? && s.state != Initial
    ensures SessionModel.Initiate(s, e.peer, e.at, e.keys, e.cid, e.coins) == Fail(s, SessionError)
  {
  }

  lemma AliceCranks(w: World, st: Setup, now: real, keys: Keys, coins: Coins)
    requires Inv(w, st) && Honest(keys, st)
    ensures Inv(w.(a := Next(w.a, Event.Crank(now, keys, coins))), st)
  {
    hide Inv, TakeIncoming, SendPending, CheckTimeout;
    var d := w.a.duplicates + if DuplicateNext(w.a.s) then 1 else 0;
    var w0 := w.(a := w.a.(duplicates := d));
    DuplicatesKeepInv(w, st, d);
    assert Record(w0.a, w0.a.s, NOTHING) == w0.a;
    if w.a.s.state != Dropped {
      AliceTakes(w0, st, now, keys, coins);
      var r1 := TakeIncoming(w.a.s, now, keys, coins);
      var w1 := WithA(w0, r1.next, r1.out);
      if r1.error.None? {
        AliceSends(w1, st);
        var r2 := SendPending(r1.next);
        RecordTwice(w0.a, r1.next, r1.out, r2.next, r2.out);
        if r2.error.None? {
          AliceTimesOut(WithA(w1, r2.next, r2.out), st, now);
          var r3 := CheckTimeout(r2.next, now);
          RecordTwice(w0.a, r2.next, Then(r1.out, r2.out), r3.next, r3.out);
        }
      }
    }
  }

  lemma DuplicatesKeepInv(w: World, st: Setup, d: nat)
    requires Inv(w, st)
    ensures Inv(w.(a := w.a.(duplicates := d)), st) && Inv(w.(b := w.b.(duplicates := d)), st)
  {
  }

  // ---- Bob's steps -------------------------------------------------------------------------------------------------

  /** A step after which everything Bob has sent still means what it meant. */
  predicate BobKeeps(w: World, next: Session, out: Output) {
    var s := w.b.s;
    && SameParty(s, next)
    && (s.state != Initial ==>
          next.cid == s.cid && next.hs.(nA := None, s4 := None) == s.hs.(nA := None, s4 := None))
    && (s.state == Established ==> next.state == Established)
  }

  lemma BobWire(w: World, st: Setup, next: Session, out: Output)
    requires AliceOk(w.a, st) && BobOk(w.b, st) && Linked(w, st) && Wire(w, st)
    requires BobKeeps(w, next, out)
    requires forall p <- next.inQueue :: p in w.a.trace
    requires forall p <- out.pdus :: p in w.b.trace || FromBob(p, WithB(w, next, out), st)
    ensures Wire(WithB(w, next, out), st)
  {
    hide Numbered, Delivered;
    var v := WithB(w, next, out);
    forall p | p in v.a.trace ensures FromAlice(p, v, st) {
      assert FromAlice(p, w, st);
    }
    forall p | p in v.b.trace ensures FromBob(p, v, st) {
      if p in w.b.trace {
        assert FromBob(p, w, st);
        assert w.b.seals != [] ==> v.b.seals[0] == w.b.seals[0];
      }
    }
    forall p | p in v.a.s.inQueue ensures p in v.b.trace {
      assert p in w.b.trace;
    }
  }

  lemma BobTrace(w: World, st: Setup, next: Session, out: Output)
    requires AliceOk(w.a, st) && BobOk(w.b, st) && Linked(w, st) && Wire(w, st)
    requires BobKeeps(w, next, out) && next.inQueue == w.b.s.inQueue
    requires forall p <- out.pdus :: p in w.b.trace || FromBob(p, WithB(w, next, out), st)
    ensures Wire(WithB(w, next, out), st)
  {
    BobWire(w, st, next, out);
  }

  lemma BobAnswers(w: World, st: Setup, pdu: Pdu, now: real, keys: Keys, coins: Coins)
    requires Inv(w, st) && w.b.s.state == Initial && Honest(keys, st)
    requires pdu in w.a.trace && pdu.payload.SessionInitRequest?
    ensures var r := HandleInitRequest(w.b.s.(cid := Some(pdu.cid)), pdu.payload, pdu, now, keys, coins);
            Inv(WithB(w, r.next, r.out), st)
  {
    assert FromAlice(pdu, w, st) && IsRequest(pdu.payload, w.a.s, st);
    RequestKeepsPair(w, st, pdu, now, keys, coins);
    RequestGetsResponse(w, st, pdu, now, keys, coins);
    hide HandleInitRequest, Linked, AliceOk, BobOk, Wire, Honest, BobKeeps;
    var r := HandleInitRequest(w.b.s.(cid := Some(pdu.cid)), pdu.payload, pdu, now, keys, coins);
    BobTrace(w, st, r.next, r.out);
  }

  lemma RequestKeepsPair(w: World, st: Setup, pdu: Pdu, now: real, keys: Keys, coins: Coins)
    requires AliceOk(w.a, st) && BobOk(w.b, st) && Linked(w, st) && w.b.s.state == Initial && Honest(keys, st)
    requires pdu.Pdu? && IsRequest(pdu.payload, w.a.s, st) && w.a.s.cid == Some(pdu.cid) && w.a.s.state != Initial
    ensures var r := HandleInitRequest(w.b.s.(cid := Some(pdu.cid)), pdu.payload, pdu, now, keys, coins);
            BobOk(Record(w.b, r.next, r.out), st) && Linked(WithB(w, r.next, r.out), st)
  {
    hide AeadOid, ChooseAead, Delivered;
  }

  lemma RequestGetsResponse(w: World, st: Setup, pdu: Pdu, now: real, keys: Keys, coins: Coins)
    requires AliceOk(w.a, st) && BobOk(w.b, st) && w.b.s.state == Initial && Honest(keys, st)
    requires pdu.Pdu? && IsRequest(pdu.payload, w.a.s, st)
    ensures var r := HandleInitRequest(w.b.s.(cid := Some(pdu.cid)), pdu.payload, pdu, now, keys, coins);
            && BobKeeps(w, r.next, r.out) && r.next.inQueue == w.b.s.inQueue
            && forall p <- r.out.pdus :: FromBob(p, WithB(w, r.next, r.out), st)
  {
    hide AeadOid, ChooseAead, Delivered, Numbered;
  }

  lemma BobCompletes(w: World, st: Setup, pdu: Pdu)
    requires Inv(w, st) && w.b.s.state == ExpectCompletionRequest && w.b.s.cid.Some?
    requires pdu in w.a.trace && pdu.Pdu? && pdu.payload.SessionCompletionRequest?
    ensures var r := HandleCompletionRequest(w.b.s, pdu.payload, pdu);
            Inv(WithB(w, r.next, r.out), st)
  {
    hide HandleCompletionRequest, Wire, AliceOk, BobOk, Linked, IsCompletion;
    var r := HandleCompletionRequest(w.b.s, pdu.payload, pdu);
    BobIs(w.b, st);
    SameCid(w, st);
    CompletionIsAlices(w, st, pdu);
    CompletionStep(w.b.s, pdu);
    if r.error.None? {
      CompletionKeys(w, st, pdu);
      CompletionKeepsBob(w.b, st, pdu);
      CompletionKeepsLinked(w, st, pdu);
      assert [] + r.out.seals == r.out.seals;
      assert forall p <- r.out.pdus :: p == r.out.pdus[0];
      BobTrace(w, st, r.next, r.out);
    } else {
      assert WithB(w, r.next, r.out) == w;
    }
  }

  lemma BobIs(b: History, st: Setup)
    requires BobOk(b, st)
    ensures b.s.role == Responder && b.s.config.kemLevel == st.level
    ensures b.s.state == ExpectCompletionRequest ==> b.seals == [] && b.s.cid.Some? && b.s.seqB2a == 0 && b.s.keys.None?
  {
  }

  lemma SameCid(w: World, st: Setup)
    requires Linked(w, st) && w.b.s.state != Initial
    ensures w.a.s.cid == w.b.s.cid
  {
  }

  /** A completion request on the wire is Alice's first encryption, under keys Bob can derive. */
  lemma CompletionIsAlices(w: World, st: Setup, pdu: Pdu)
    requires Wire(w, st) && pdu in w.a.trace && pdu.payload.SessionCompletionRequest?
    ensures IsCompletion(pdu.payload, w.a.s, w.a.seals, w.b.s)
  {
    assert FromAlice(pdu, w, st);
  }

  /** What Bob derives and delivers. */
  lemma CompletionKeys(w: World, st: Setup, pdu: Pdu)
    requires AliceOk(w.a, st) && BobOk(w.b, st) && w.b.s.state == ExpectCompletionRequest && pdu.Pdu?
    requires IsCompletion(pdu.payload, w.a.s, w.a.seals, w.b.s) && w.a.s.cid == w.b.s.cid
    ensures var r := HandleCompletionRequest(w.b.s, pdu.payload, pdu);
            r.error.None? ==>
              && r.next.keys == w.a.s.keys && r.next.pending.None? && r.out.payloads == NonEmpty(PlainOf(w.a.seals[0]))
              && r.next.hs == w.b.s.hs.(nA := r.next.hs.nA, s4 := r.next.hs.s4) && r.next.inQueue == w.b.s.inQueue
              && Answered(r.next.hs) && r.next.ownKeyId == w.b.s.ownKeyId && r.next.config == w.b.s.config
              && r.out.pdus[0].cid == w.b.s.cid.value
              && (r.out.seals != [] ==> w.b.s.pending == Some(PlainOf(r.out.seals[0])))
  {
    hide DeriveSessionKeys, Decapsulate;
    NumberedAt(w.a.s, w.a.seals, 0);
  }

  lemma CompletionKeepsBob(b: History, st: Setup, pdu: Pdu)
    requires BobOk(b, st) && b.s.state == ExpectCompletionRequest && pdu.Pdu? && pdu.payload.SessionCompletionRequest?
    requires var r := HandleCompletionRequest(b.s, pdu.payload, pdu);
             r.error.None? && r.next.config == b.s.config && Answered(r.next.hs)
    ensures var r := HandleCompletionRequest(b.s, pdu.payload, pdu); BobOk(Record(b, r.next, r.out), st)
  {
    CompletionStep(b.s, pdu);
    hide HandleCompletionRequest;
    var r := HandleCompletionRequest(b.s, pdu.payload, pdu);
    assert b.seals + r.out.seals == r.out.seals;
  }

  lemma CompletionKeepsLinked(w: World, st: Setup, pdu: Pdu)
    requires AliceOk(w.a, st) && BobOk(w.b, st) && Linked(w, st) && w.b.s.state == ExpectCompletionRequest && pdu.Pdu?
    requires IsCompletion(pdu.payload, w.a.s, w.a.seals, w.b.s)
    ensures var r := HandleCompletionRequest(w.b.s, pdu.payload, pdu);
            r.error.None? ==> Linked(WithB(w, r.next, r.out), st)
  {
    hide HandleCompletionRequest, Delivered, ResponderKeys, Numbered, Answered;
    NothingSentYet(w.b, st);
    CompletionStep(w.b.s, pdu);
    CompletionKeys(w, st, pdu);
    var r := HandleCompletionRequest(w.b.s, pdu.payload, pdu);
    if r.error.None? {
      assert [] + r.out.seals == r.out.seals && [] + r.out.payloads == r.out.payloads;
      NothingDelivered(w.a.seals);
      DeliveredNext([], w.a.seals, 0);
    }
  }

  lemma NothingSentYet(b: History, st: Setup)
    requires BobOk(b, st) && b.s.state == ExpectCompletionRequest
    ensures b.s.seqB2a == 0
  {
  }

  lemma NothingDelivered(seals: seq<Sealed>)
    ensures Delivered([], seals, 0)
  {
  }

  lemma BobHears(w: World, st: Setup, pdu: Pdu)
    requires Inv(w, st) && w.b.s.state == Established
    requires pdu in w.a.trace && pdu.payload.Message?
    ensures var r := HandleEstablishedMessage(w.b.s, pdu.payload);
            Inv(WithB(w, r.next, r.out), st)
  {
    var r := HandleEstablishedMessage(w.b.s, pdu.payload);
    if r.error.None? {
      assert FromAlice(pdu, w, st) && IsTraffic(pdu.payload, w.a.seals);
      NumberedAt(w.a.s, w.a.seals, w.b.s.seqA2b);
      NumberedStill(w.b.s, r.next, w.b.seals);
      hide Wire, Numbered, Delivered;
      if w.a.s.state == Established {
        DeliveredStill(w.a.delivered, w.b.seals, w.a.s.seqB2a, []);
      }
      DeliveredNext(w.b.delivered, w.a.seals, w.b.s.seqA2b);
      BobTrace(w, st, r.next, r.out);
    } else {
      assert WithB(w, r.next, r.out) == w;
    }
  }

  lemma BobRepeats(w: World, st: Setup)
    requires Inv(w, st) && w.b.s.lastSent.Some?
    ensures var again := w.b.s.lastSent.value;
            Inv(WithB(w, w.b.s.(outPdus := w.b.s.outPdus + [again]), Output([again], [], [])), st)
  {
    hide Wire;
    var again := w.b.s.lastSent.value;
    assert w.b.seals + [] == w.b.seals;
    BobTrace(w, st, w.b.s.(outPdus := w.b.s.outPdus + [again]), Output([again], [], []));
  }

  lemma BobPops(w: World, st: Setup)
    requires Inv(w, st) && w.b.s.inQueue != []
    ensures var v := w.(b := w.b.(s := w.b.s.(inQueue := w.b.s.inQueue[1..])));
            Inv(v, st) && w.b.s.role == Responder && w.b.s.inQueue[0] in w.a.trace && w.b.s.inQueue[0].Pdu?
  {
    var pdu := w.b.s.inQueue[0];
    assert pdu in w.b.s.inQueue && FromAlice(pdu, w, st);
    hide Wire;
    var next := w.b.s.(inQueue := w.b.s.inQueue[1..]);
    BobQueue(w, st, next);
    assert WithB(w, next, NOTHING) == w.(b := w.b.(s := next));
  }

  lemma BobQueue(w: World, st: Setup, next: Session)
    requires AliceOk(w.a, st) && BobOk(w.b, st) && Linked(w, st) && Wire(w, st)
    requires next == w.b.s.(inQueue := next.inQueue) && forall p <- next.inQueue :: p in w.b.s.inQueue || p in w.a.trace
    ensures Wire(WithB(w, next, NOTHING), st)
  {
    BobWire(w, st, next, NOTHING);
  }

  lemma BobTakes(w: World, st: Setup, now: real, keys: Keys, coins: Coins)
    requires Inv(w, st) && w.b.s.state != Dropped && Honest(keys, st)
    ensures var r := TakeIncoming(w.b.s, now, keys, coins);
            Inv(WithB(w, r.next, r.out), st) && r.next.state != Dropped
  {
    hide Inv, HandleInitRequest, HandleCompletionRequest, HandleEstablishedMessage;
    var r := TakeIncoming(w.b.s, now, keys, coins);
    TakingKeepsGoing(w.b.s, now, keys, coins);
    if w.b.s.inQueue == [] {
      assert WithB(w, r.next, r.out) == w;
    } else {
      var pdu := w.b.s.inQueue[0];
      var v := w.(b := w.b.(s := w.b.s.(inQueue := w.b.s.inQueue[1..])));
      BobPops(w, st);
      var mine := v.b.s.cid == Some(pdu.cid);
      if DuplicateNext(w.b.s) && w.b.s.lastSent.Some? {
        BobRepeats(v, st);
      } else if DuplicateNext(w.b.s) {
        assert WithB(w, r.next, r.out) == v;
      } else if v.b.s.state == Initial && pdu.payload.SessionInitRequest? {
        BobAnswers(v, st, pdu, now, keys, coins);
      } else if mine && v.b.s.state == ExpectCompletionRequest && pdu.payload.SessionCompletionRequest? {
        BobCompletes(v, st, pdu);
      } else if mine && v.b.s.state == Established && pdu.payload.Message? {
        BobHears(v, st, pdu);
      } else {
        assert r.next == v.b.s && r.out == NOTHING;
        assert WithB(w, r.next, r.out) == v;
      }
    }
  }

  lemma BobSends(w: World, st: Setup)
    requires Inv(w, st) && w.b.s.state != Dropped
    ensures var r := SendPending(w.b.s); Inv(WithB(w, r.next, r.out), st) && r.next.state != Dropped
  {
    hide Wire, Numbered, Delivered;
    var r := SendPending(w.b.s);
    if w.b.s.state == Established && w.b.s.pending.Some? {
      NumberedNext(w.b.s, w.b.seals);
      assert w.b.delivered + [] == w.b.delivered;
      if w.a.s.state == Established {
        DeliveredStill(w.a.delivered, w.b.seals, w.a.s.seqB2a, r.out.seals);
      }
      BobTrace(w, st, r.next, r.out);
    } else {
      hide Inv;
      assert WithB(w, r.next, r.out) == w;
    }
  }

  lemma BobTimesOut(w: World, st: Setup, now: real)
    requires Inv(w, st) && w.b.s.state != Dropped
    ensures var r := CheckTimeout(w.b.s, now); Inv(WithB(w, r.next, r.out), st)
  {
    hide Wire, Numbered, Delivered;
    var r := CheckTimeout(w.b.s, now);
    if TimedOut(w.b.s, now) {
      NumberedStill(w.b.s, r.next, w.b.seals);
      BobTrace(w, st, r.next, r.out);
    } else {
      hide Inv;
      assert WithB(w, r.next, r.out) == w;
    }
  }

  lemma BobCranks(w: World, st: Setup, now: real, keys: Keys, coins: Coins)
    requires Inv(w, st) && Honest(keys, st)
    ensures Inv(w.(b := Next(w.b, Event.Crank(now, keys, coins))), st)
  {
    hide Inv, TakeIncoming, SendPending, CheckTimeout;
    var d := w.b.duplicates + if DuplicateNext(w.b.s) then 1 else 0;
    var w0 := w.(b := w.b.(duplicates := d));
    DuplicatesKeepInv(w, st, d);
    assert Record(w0.b, w0.b.s, NOTHING) == w0.b;
    if w.b.s.state != Dropped {
      BobTakes(w0, st, now, keys, coins);
      var r1 := TakeIncoming(w.b.s, now, keys, coins);
      var w1 := WithB(w0, r1.next, r1.out);
      if r1.error.None? {
        BobSends(w1, st);
        var r2 := SendPending(r1.next);
        RecordTwice(w0.b, r1.next, r1.out, r2.next, r2.out);
        if r2.error.None? {
          BobTimesOut(WithB(w1, r2.next, r2.out), st, now);
          var r3 := CheckTimeout(r2.next, now);
          RecordTwice(w0.b, r2.next, Then(r1.out, r2.out), r3.next, r3.out);
        }
      }
    }
  }

  // ---- every run ----------------------------------------------------------------------------------------------------

  lemma StepKeepsInv(w: World, m: Move, st: Setup)
    requires Inv(w, st) && Legal(w, m, st)
    ensures Inv(Step(w, m), st)
  {
    hide Inv, Next;
    match m.e
    case Crank(now, keys, coins) =>
      if m.Alice? { AliceCranks(w, st, now, keys, coins); } else { BobCranks(w, st, now, keys, coins); }
    case Initiate(_, _, _, _, _) => AliceInitiates(w, st, m.e);
    case Post(_) => PostKeepsInv(w, m, st);
    case Offer(_) => LocalKeepsInv(w, m, st);
    case TakePdu => LocalKeepsInv(w, m, st);
    case TakePayload => LocalKeepsInv(w, m, st);
  }

  lemma LocalKeepsInv(w: World, m: Move, st: Setup)
    requires Inv(w, st) && (m.e.Offer? || m.e.TakePdu? || m.e.TakePayload?)
    ensures Inv(Step(w, m), st)
  {
    hide Next, Wire, Numbered, Delivered;
    var v := Step(w, m);
    LocalStep(w.a, m.e);
    LocalStep(w.b, m.e);
    NumberedStill(w.a.s, v.a.s, w.a.seals);
    NumberedStill(w.b.s, v.b.s, w.b.seals);
    WireStill(w, v, st);
  }

  lemma LocalStep(h: History, e: Event)
    requires e.Offer? || e.TakePdu? || e.TakePayload?
    ensures var g := Next(h, e);
            && g == h.(s := h.s.(pending := g.s.pending, outPdus := g.s.outPdus, outPayloads := g.s.outPayloads))
            && (g.s.pending == h.s.pending || (g.s.pending.Some? && g.s.pending.value != []))
  {
  }

  lemma WireStill(w: World, v: World, st: Setup)
    requires Wire(w, st) && v.a.trace == w.a.trace && v.b.trace == w.b.trace
    requires v.a.seals == w.a.seals && v.b.seals == w.b.seals
    requires v.a.s == w.a.s.(pending := v.a.s.pending, outPdus := v.a.s.outPdus, outPayloads := v.a.s.outPayloads)
    requires v.b.s == w.b.s.(pending := v.b.s.pending, outPdus := v.b.s.outPdus, outPayloads := v.b.s.outPayloads)
    ensures Wire(v, st)
  {
    forall p | p in v.a.trace ensures FromAlice(p, v, st) {
      assert FromAlice(p, w, st);
    }
    forall p | p in v.b.trace ensures FromBob(p, v, st) {
      assert FromBob(p, w, st);
    }
  }

  lemma PostKeepsInv(w: World, m: Move, st: Setup)
    requires Inv(w, st) && Legal(w, m, st) && m.e.Post?
    ensures Inv(Step(w, m), st)
  {
    hide Wire, Delivered;
    PostKeepsWire(w, m, st);
  }

  lemma PostKeepsWire(w: World, m: Move, st: Setup)
    requires Wire(w, st) && Legal(w, m, st) && m.e.Post?
    ensures Wire(Step(w, m), st)
  {
    var v := Step(w, m);
    forall p | p in v.a.trace ensures FromAlice(p, v, st) {
      assert FromAlice(p, w, st);
    }
    forall p | p in v.b.trace ensures FromBob(p, v, st) {
      assert FromBob(p, w, st);
    }
  }

  lemma {:induction false} RunKeepsInv(w: World, moves: seq<Move>, st: Setup)
    requires Inv(w, st) && LegalRun(w, moves, st)
    ensures Inv(RunWorld(w, moves), st)
    decreases |moves|
  {
    hide Inv, Step, Legal;
    if moves != [] {
      StepKeepsInv(w, moves[0], st);
      RunKeepsInv(Step(w, moves[0]), moves[1..], st);
    }
  }

  /** Each application receives a prefix of the non-empty payloads its peer encrypted, false start
      first, in every run over any such network. */
  lemma InOrderDelivery(st: Setup, configA: Config, configB: Config, ownB: Option<KeyId>, moves: seq<Move>)
    requires configA.kemLevel == configB.kemLevel == st.level
    requires LegalRun(Start(st, configA, configB, ownB), moves, st)
    ensures var w := RunWorld(Start(st, configA, configB, ownB), moves);
            w.b.delivered <= Payloads(w.a.seals) && w.a.delivered <= Payloads(w.b.seals)
  {
    var w := RunWorld(Start(st, configA, configB, ownB), moves);
    RunKeepsInv(Start(st, configA, configB, ownB), moves, st);
    if w.b.s.state == Established {
      DeliveredIsPrefix(w.b.delivered, w.a.seals, w.b.s.seqA2b);
    }
    if w.a.s.state == Established {
      DeliveredIsPrefix(w.a.delivered, w.b.seals, w.a.s.seqB2a);
    }
  }

  /** Whenever both sides hold session keys they hold the same four secrets and the same AEAD, and
      that AEAD is the one Bob prefers among those Alice offered. */
  lemma KeysAgree(st: Setup, configA: Config, configB: Config, ownB: Option<KeyId>, moves: seq<Move>)
    requires configA.kemLevel == configB.kemLevel == st.level
    requires LegalRun(Start(st, configA, configB, ownB), moves, st)
    ensures var w := RunWorld(Start(st, configA, configB, ownB), moves);
            && (w.a.s.keys.Some? && w.b.s.keys.Some? ==> w.a.s.keys == w.b.s.keys)
            && (w.a.s.keys.Some? ==>
                  MostPreferred(w.a.s.keys.value.aead, configB.acceptableAeads, configA.acceptableAeads))
            && (w.a.s.state == Established ==> w.b.s.state == Established)
  {
    var w0 := Start(st, configA, configB, ownB);
    var w := RunWorld(w0, moves);
    RunKeepsInv(w0, moves, st);
    ConfigsAreFixed(w0, moves);
    if w.a.s.keys.Some? {
      ChosenIsMostPreferred(configB.acceptableAeads, configA.acceptableAeads);
    }
  }

  /** Offered by Alice, and before every other such in Bob's order. */
  ghost predicate MostPreferred(a: Aead, bobs: seq<Aead>, alices: seq<Aead>) {
    a in alices && exists i | 0 <= i < |bobs| :: bobs[i] == a && forall j | 0 <= j < i :: bobs[j] !in alices
  }

  lemma {:induction false} ChosenIsMostPreferred(bobs: seq<Aead>, alices: seq<Aead>)
    ensures var c := ChooseAead(bobs, OfferedAeads(alices));
            if c.Some? then MostPreferred(c.value, bobs, alices) else forall a <- bobs :: a !in alices
  {
    if bobs != [] {
      OfferedIffAcceptable(bobs[0], alices);
      ChosenIsMostPreferred(bobs[1..], alices);
      var c := ChooseAead(bobs, OfferedAeads(alices));
      if AeadOid(bobs[0]) !in OfferedAeads(alices) && c.Some? {
        var i :| 0 <= i < |bobs[1..]| && bobs[1..][i] == c.value && forall j | 0 <= j < i :: bobs[1..][j] !in alices;
        assert bobs[i + 1] == c.value;
        forall j | 0 <= j < i + 1 ensures bobs[j] !in alices {
          if j > 0 {
            assert bobs[j] == bobs[1..][j - 1];
          }
        }
      }
    }
  }

  lemma OfferedIffAcceptable(a: Aead, alices: seq<Aead>)
    ensures AeadOid(a) in OfferedAeads(alices) <==> a in alices
  {
    var offered := OfferedAeads(alices);
    if AeadOid(a) in offered {
      var i :| 0 <= i < |offered| && offered[i] == AeadOid(a);
      AeadNamesAndOidsAgree(a, AeadOid(alices[i]));
      AeadNamesAndOidsAgree(alices[i], AeadOid(alices[i]));
    }
    if a in alices {
      var i :| 0 <= i < |alices| && alices[i] == a;
      assert offered[i] == AeadOid(a);
    }
  }

  lemma {:induction false} ConfigsAreFixed(w: World, moves: seq<Move>)
    ensures SameParty(w.a.s, RunWorld(w, moves).a.s) && SameParty(w.b.s, RunWorld(w, moves).b.s)
    decreases |moves|
  {
    hide Next, SameParty;
    if moves == [] {
      PartyIsFixed(w.a, []);
      PartyIsFixed(w.b, []);
    } else {
      var v := Step(w, moves[0]);
      PartyIsFixed(w.a, if moves[0].Alice? then [moves[0].e] else []);
      PartyIsFixed(w.b, if moves[0].Alice? then [] else [moves[0].e]);
      OneEvent(w.a, moves[0].e);
      OneEvent(w.b, moves[0].e);
      ConfigsAreFixed(v, moves[1..]);
      SamePartyIsTransitive(w.a.s, v.a.s, RunWorld(w, moves).a.s);
      SamePartyIsTransitive(w.b.s, v.b.s, RunWorld(w, moves).b.s);
    }
  }

  lemma SamePartyIsTransitive(s: Session, t: Session, u: Session)
    requires SameParty(s, t) && SameParty(t, u)
    ensures SameParty(s, u)
  {
  }
}
