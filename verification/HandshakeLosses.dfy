/** A handshake over a network that loses PDUs either way: as long as the initiator has retries left and
    the responder's time is not up, it ends as one over a network that loses nothing. */
module HandshakeLosses {
  import opened Base
  import opened Crypto
  import opened SessionModel
  import opened SessionRuns
  import opened SessionInput
  import opened TwoParty
  import opened Handshake

  /** One try that comes to nothing: what Alice sent reached Bob, or not, and his answer, if any, is lost;
      then her deadline passes and she sends it again. */
  datatype Loss = Loss(heard: bool, bob: Chance, alice: Chance)

  datatype Pair = Pair(a: Session, b: Session)

  function Hear(m: Meeting, b: Session, pdu: Pdu, x: Chance): SessionModel.Crank {
    Update(PostPdu(b, pdu), x.now, m.keysB, x.coins)
  }

  function Lose(m: Meeting, p: Pair, pdu: Pdu, l: Loss): Pair {
    Pair(Update(p.a, l.alice.now, m.keysA, l.alice.coins).next,
         if l.heard then Hear(m, p.b, pdu, l.bob).next else p.b)
  }

  /** She times out with retries left; he, if he hears, hears in time. */
  predicate Bearable(p: Pair, l: Loss) {
    && TimedOut(p.a, l.alice.now) && p.a.attempts < p.a.config.maxRetries
    && (l.heard ==> !TimedOut(p.b, l.bob.now))
  }

  function LoseAll(m: Meeting, p: Pair, pdu: Pdu, losses: seq<Loss>): Pair
    decreases |losses|
  {
    if losses == [] then p else LoseAll(m, Lose(m, p, pdu, losses[0]), pdu, losses[1..])
  }

  predicate AllBearable(m: Meeting, p: Pair, pdu: Pdu, losses: seq<Loss>)
    decreases |losses|
  {
    losses == [] || (Bearable(p, losses[0]) && AllBearable(m, Lose(m, p, pdu, losses[0]), pdu, losses[1..]))
  }

  // ---- waiting and repeating ---------------------------------------------------------------------------

  /** What a retry leaves of a waiting initiator: all but its count, its deadline and its output queue. */
  predicate StillWaits(a: Session, s: Session) {
    s == a.(attempts := s.attempts, deadline := s.deadline, outPdus := s.outPdus)
  }

  /** A retry puts out what was sent last and nothing else, and waits for one more interval. */
  lemma RetryRepeats(s: Session, x: Chance, keys: Keys)
    requires s.state == ExpectInitResponse || s.state == ExpectCompletionResponse
    requires s.role == Initiator && s.inQueue == [] && s.lastSent.Some?
    requires TimedOut(s, x.now) && s.attempts < s.config.maxRetries
    ensures var c := Update(s, x.now, keys, x.coins);
            && c.out == Output([s.lastSent.value], [], []) && StillWaits(s, c.next)
            && c.next.attempts == s.attempts + 1 && c.next.deadline == Some(x.now + s.config.retryInterval)
  {
  }

  /** What answering once more leaves of a responder. */
  predicate StillStands(b: Session, s: Session) {
    s == b.(outPdus := s.outPdus)
  }

  lemma AnswerAgain(m: Meeting, b: Session, pdu: Pdu, x: Chance)
    requires b.role == Responder && b.inQueue == [] && b.state != Dropped
    requires b.lastReceived == Some(pdu) && b.lastSent.Some?
    requires !TimedOut(b, x.now) && (b.state == Established ==> b.pending.None?)
    ensures var c := Hear(m, b, pdu, x);
            && c.result.Returned? && StillStands(b, c.next) && c.out == Output([b.lastSent.value], [], [])
  {
    DuplicateIsAnswered(PostPdu(b, pdu), x.now, m.keysB, x.coins);
  }

  // ---- the first exchange ----------------------------------------------------------------------------------

  /** Alice as she waits for her response. */
  predicate WaitsFirst(m: Meeting, a: Session, request: Pdu) {
    && a.state == ExpectInitResponse && a.role == Initiator && a.config == m.configA && a.ownKeyId == Some(m.st.idA)
    && a.cid == Some(m.cid) && a.inQueue == [] && a.pending == m.sayA && a.lastReceived.None?
    && a.hs.ephemeral.Some? && a.hs.s1.Some? && a.lastSent == Some(request) && a.outPayloads == []
    && request.Pdu? && request.cid == m.cid && IsRequest(request.payload, a, m.st)
  }

  /** Bob once he has answered a request of hers. */
  predicate Heard(m: Meeting, a: Session, b: Session, request: Pdu) {
    && b.state == ExpectCompletionRequest && b.role == Responder && b.config == m.configB && b.cid == Some(m.cid)
    && b.inQueue == [] && b.pending == m.sayB && b.lastReceived == Some(request) && b.outPayloads == []
    && b.hs.peerKeyId == Some(m.st.idA) && b.hs.s1 == a.hs.s1 && b.hs.chosen == Common(m)
    && b.lastSent.Some? && b.lastSent.value.Pdu? && b.lastSent.value.cid == m.cid
    && IsResponse(b.lastSent.value.payload, a, b, m.st)
  }

  lemma FirstHearing(m: Meeting, a: Session, request: Pdu, x: Chance)
    requires Introduced(m) && Common(m).Some? && WaitsFirst(m, a, request)
    ensures var c := Hear(m, Bob0(m), request, x);
            && c.result.Returned? && c.out.pdus != [] && c.next.lastSent == Some(c.out.pdus[0])
            && Heard(m, a, c.next, request)
  {
    BobReplies(m, a, request, x);
    RequestIsTakenOnce(m, a, request, x);
  }

  lemma RequestIsTakenOnce(m: Meeting, a: Session, request: Pdu, x: Chance)
    requires Introduced(m) && Common(m).Some? && WaitsFirst(m, a, request)
    ensures var c := Hear(m, Bob0(m), request, x);
            c.next.outPayloads == [] && c.out.pdus != [] && c.next.lastSent == Some(c.out.pdus[0])
  {
  }

  /** Bob has not been reached yet, or has answered. */
  predicate FirstStands(m: Meeting, p: Pair, request: Pdu) {
    WaitsFirst(m, p.a, request) && (p.b == Bob0(m) || Heard(m, p.a, p.b, request))
  }

  lemma FirstLoss(m: Meeting, p: Pair, request: Pdu, l: Loss)
    requires Introduced(m) && Common(m).Some? && FirstStands(m, p, request) && Bearable(p, l)
    ensures FirstStands(m, Lose(m, p, request, l), request)
  {
    RetryRepeats(p.a, l.alice, m.keysA);
    if l.heard {
      if p.b == Bob0(m) {
        FirstHearing(m, p.a, request, l.bob);
      } else {
        AnswerAgain(m, p.b, request, l.bob);
      }
    }
    hide Update, Common;
  }

  lemma {:induction false} FirstLosses(m: Meeting, p: Pair, request: Pdu, losses: seq<Loss>)
    requires Introduced(m) && Common(m).Some? && FirstStands(m, p, request) && AllBearable(m, p, request, losses)
    ensures FirstStands(m, LoseAll(m, p, request, losses), request)
    decreases |losses|
  {
    hide Introduced, Common, FirstStands, Lose, Bearable;
    if losses != [] {
      FirstLoss(m, p, request, losses[0]);
      FirstLosses(m, Lose(m, p, request, losses[0]), request, losses[1..]);
    }
  }

  // ---- the second exchange ---------------------------------------------------------------------------------

  /** Alice as she waits for her confirmation. */
  predicate WaitsSecond(m: Meeting, a: Session, completion: Pdu) {
    && a.state == ExpectCompletionResponse && a.role == Initiator && a.config == m.configA
    && a.cid == Some(m.cid) && a.inQueue == [] && a.pending.None? && a.keys.Some?
    && a.sentPlain == Some(SaidBy(m.sayA)) && a.outPayloads == [] && a.lastSent == Some(completion)
    && a.lastReceived.Some? && a.lastReceived.value.Pdu? && a.lastReceived.value.payload.SessionInitResponse?
    && completion.Pdu? && completion.cid == m.cid && completion.payload.SessionCompletionRequest?
  }

  /** A completion from which Bob, having answered, derives her keys. */
  predicate Completes(m: Meeting, a: Session, b: Session, completion: Pdu) {
    && a.keys.Some? && completion.Pdu? && completion.payload.SessionCompletionRequest?
    && IsCompletion(completion.payload, a, [completion.payload.cM], b)
    && (var k := a.keys.value; completion.payload.cM == Seal(k.aead, k.keyA2b, k.ivA2b, 0, m.cid, SaidBy(m.sayA)))
  }

  function ConfirmationOf(m: Meeting, k: SessionKeys): Pdu {
    Pdu(0, m.cid, SessionCompletionResponse(Sha256(SaidBy(m.sayA)),
      if m.sayB.None? then None else Some(Seal(k.aead, k.keyB2a, k.ivB2a, 0, m.cid, m.sayB.value))))
  }

  /** Bob once he has confirmed. */
  predicate Done(m: Meeting, a: Session, b: Session, completion: Pdu) {
    && b.state == Established && b.role == Responder && b.cid == Some(m.cid) && b.inQueue == [] && b.pending.None?
    && a.keys.Some? && b.keys == a.keys && b.lastReceived == Some(completion)
    && b.lastSent == Some(ConfirmationOf(m, a.keys.value)) && b.outPayloads == NonEmpty(SaidBy(m.sayA))
    && b.deadline.None?
  }

  /** Bob is about to confirm, or has. */
  predicate SecondStands(m: Meeting, p: Pair, completion: Pdu) {
    && WaitsSecond(m, p.a, completion)
    && (Done(m, p.a, p.b, completion)
        || (Completes(m, p.a, p.b, completion) && p.b.state == ExpectCompletionRequest && p.b.role == Responder
            && p.b.config == m.configB && p.b.cid == Some(m.cid) && p.b.inQueue == [] && p.b.pending == m.sayB
            && p.b.outPayloads == [] && p.b.lastReceived.Some? && p.b.lastReceived.value.Pdu?
            && p.b.lastReceived.value.payload.SessionInitRequest?))
  }

  lemma Completing(m: Meeting, a: Session, b: Session, request: Pdu, x: Chance)
    requires Introduced(m) && Common(m).Some? && WaitsFirst(m, a, request) && Heard(m, a, b, request)
    ensures var c := Update(PostPdu(a, b.lastSent.value), x.now, m.keysA, x.coins);
            c.result.Returned? && c.out.pdus != [] && SecondStands(m, Pair(c.next, b), c.out.pdus[0])
  {
    hide Common;
    ChosenIsMostPreferred(m.configB.acceptableAeads, m.configA.acceptableAeads);
    assert Common(m).value in m.configA.acceptableAeads by { CommonIsOffered(m); }
    var response := b.lastSent.value;
    AliceCompletes(m, a, b, response, x);
    CompletionQueued(m, a, b, response, x);
  }

  lemma CommonIsOffered(m: Meeting)
    requires Common(m).Some?
    ensures Common(m).value in m.configA.acceptableAeads
  {
    ChosenIsMostPreferred(m.configB.acceptableAeads, m.configA.acceptableAeads);
    MostPreferredIsCommon(Common(m).value, m.configB.acceptableAeads, m.configA.acceptableAeads);
  }

  lemma CompletionQueued(m: Meeting, a: Session, b: Session, response: Pdu, x: Chance)
    requires a.state == ExpectInitResponse && a.role == Initiator && a.inQueue == [] && a.lastReceived.None?
    requires response.Pdu? && response.payload.SessionInitResponse?
    ensures var c := Update(PostPdu(a, response), x.now, m.keysA, x.coins);
            c.result.Returned? && c.next.state == ExpectCompletionResponse ==>
              && c.out.pdus != [] && c.next.lastSent == Some(c.out.pdus[0]) && c.next.outPayloads == a.outPayloads
              && c.next.config == a.config
  {
  }

  lemma FirstConfirming(m: Meeting, a: Session, b: Session, completion: Pdu, x: Chance)
    requires Introduced(m) && SecondStands(m, Pair(a, b), completion) && b.state == ExpectCompletionRequest
    ensures var c := Hear(m, b, completion, x);
            c.result.Returned? && c.out.pdus != [] && c.out.pdus[0] == ConfirmationOf(m, a.keys.value)
            && Done(m, a, c.next, completion)
  {
    BobConfirms(m, a, b, completion, [completion.payload.cM], x);
    CompletionTakenOnce(m, b, completion, x);
  }

  lemma CompletionTakenOnce(m: Meeting, b: Session, completion: Pdu, x: Chance)
    requires b.state == ExpectCompletionRequest && b.role == Responder && b.inQueue == [] && b.cid == Some(m.cid)
    requires b.lastReceived != Some(completion) && completion.Pdu? && completion.payload.SessionCompletionRequest?
    ensures var c := Hear(m, b, completion, x);
            c.result.Returned? && c.next.state == Established ==>
              && c.out.pdus != [] && c.out.pdus[0].Pdu? && c.out.pdus[0].version == 0
              && c.next.lastSent == Some(c.out.pdus[0]) && c.next.lastReceived == Some(completion)
              && c.next.pending.None? && c.next.deadline.None? && c.next.outPayloads == b.outPayloads + c.out.payloads
              && c.next.inQueue == [] && c.next.role == Responder && c.next.cid == b.cid
  {
  }

  lemma SecondLoss(m: Meeting, p: Pair, completion: Pdu, l: Loss)
    requires Introduced(m) && SecondStands(m, p, completion) && Bearable(p, l)
    ensures SecondStands(m, Lose(m, p, completion, l), completion)
  {
    RetryRepeats(p.a, l.alice, m.keysA);
    if l.heard {
      if p.b.state == Established {
        AnswerAgain(m, p.b, completion, l.bob);
      } else {
        FirstConfirming(m, p.a, p.b, completion, l.bob);
      }
    }
    hide Update;
  }

  lemma {:induction false} SecondLosses(m: Meeting, p: Pair, completion: Pdu, losses: seq<Loss>)
    requires Introduced(m) && SecondStands(m, p, completion) && AllBearable(m, p, completion, losses)
    ensures SecondStands(m, LoseAll(m, p, completion, losses), completion)
    decreases |losses|
  {
    hide Introduced, SecondStands, Lose, Bearable;
    if losses != [] {
      SecondLoss(m, p, completion, losses[0]);
      SecondLosses(m, Lose(m, p, completion, losses[0]), completion, losses[1..]);
    }
  }

  lemma Concluding(m: Meeting, a: Session, completion: Pdu, x: Chance)
    requires WaitsSecond(m, a, completion)
    ensures var c := Update(PostPdu(a, ConfirmationOf(m, a.keys.value)), x.now, m.keysA, x.coins);
            && c.result.Returned? && c.next.state == Established && c.next.keys == a.keys
            && c.out.payloads == if m.sayB.None? then [] else [m.sayB.value]
  {
    AliceConcludes(m, a, ConfirmationOf(m, a.keys.value), x);
  }

  // ---- both together -----------------------------------------------------------------------------------------

  /** However often either exchange is lost, either way, as long as Alice has retries left and Bob's time
      is not up: once her PDU and his answer get through, in each exchange, both end established under the
      same keys, and each application has what the other had waiting, once. */
  lemma HandshakeSurvivesLosses(m: Meeting, x: seq<Chance>, first: seq<Loss>, second: seq<Loss>)
    requires Introduced(m) && Common(m).Some? && |x| == 5
    requires var a := First(m, x[0]);
             a.out.pdus != [] ==> AllBearable(m, Pair(a.next, Bob0(m)), a.out.pdus[0], first)
    ensures var a0 := First(m, x[0]);
            && a0.error.None? && a0.out.pdus != []
            && var request := a0.out.pdus[0];
            var p := LoseAll(m, Pair(a0.next, Bob0(m)), request, first);
            !TimedOut(p.b, x[1].now) ==>
              var b1 := Hear(m, p.b, request, x[1]);
              && b1.out.pdus != []
              && var a1 := Update(PostPdu(p.a, b1.out.pdus[0]), x[2].now, m.keysA, x[2].coins);
              && a1.out.pdus != []
              && var completion := a1.out.pdus[0];
              AllBearable(m, Pair(a1.next, b1.next), completion, second) ==>
                var q := LoseAll(m, Pair(a1.next, b1.next), completion, second);
                !TimedOut(q.b, x[3].now) ==>
                  var b2 := Hear(m, q.b, completion, x[3]);
                  && b2.out.pdus != []
                  && var a2 := Update(PostPdu(q.a, b2.out.pdus[0]), x[4].now, m.keysA, x[4].coins);
                  && a2.next.state == Established && b2.next.state == Established
                  && a2.next.keys.Some? && a2.next.keys == b2.next.keys
                  && b2.next.outPayloads == NonEmpty(SaidBy(m.sayA)) && a2.out.payloads == NonEmpty(SaidBy(m.sayB))
  {
    hide Update, First, Introduced, Common, IsRequest, IsResponse, IsCompletion, LoseAll, AllBearable, TimedOut, Hear;
    var a0 := First(m, x[0]);
    StartsWaiting(m, x[0]);
    var request := a0.out.pdus[0];
    var p0 := Pair(a0.next, Bob0(m));
    FirstLosses(m, p0, request, first);
    var p := LoseAll(m, p0, request, first);
    if !TimedOut(p.b, x[1].now) {
      var b1 := Hear(m, p.b, request, x[1]);
      if p.b == Bob0(m) {
        FirstHearing(m, p.a, request, x[1]);
      } else {
        AnswerAgain(m, p.b, request, x[1]);
        StandsHeard(m, p.a, p.b, b1.next, request);
      }
      Completing(m, p.a, b1.next, request, x[2]);
      var a1 := Update(PostPdu(p.a, b1.out.pdus[0]), x[2].now, m.keysA, x[2].coins);
      var completion := a1.out.pdus[0];
      var q0 := Pair(a1.next, b1.next);
      if AllBearable(m, q0, completion, second) {
        SecondLosses(m, q0, completion, second);
        var q := LoseAll(m, q0, completion, second);
        if !TimedOut(q.b, x[3].now) {
          if q.b.state == Established {
            AnswerAgain(m, q.b, completion, x[3]);
          } else {
            FirstConfirming(m, q.a, q.b, completion, x[3]);
          }
          Concluding(m, q.a, completion, x[4]);
          SaidIsNotEmpty(m);
        }
      }
    }
  }

  lemma SaidIsNotEmpty(m: Meeting)
    requires Introduced(m)
    ensures NonEmpty(SaidBy(m.sayB)) == if m.sayB.None? then [] else [m.sayB.value]
  {
  }

  lemma StartsWaiting(m: Meeting, x: Chance)
    requires Introduced(m)
    ensures var a := First(m, x); a.error.None? && |a.out.pdus| == 1 && WaitsFirst(m, a.next, a.out.pdus[0])
  {
    AliceAsks(m, x);
  }

  lemma StandsHeard(m: Meeting, a: Session, b: Session, s: Session, request: Pdu)
    requires Heard(m, a, b, request) && StillStands(b, s)
    ensures Heard(m, a, s, request)
  {
  }
}
