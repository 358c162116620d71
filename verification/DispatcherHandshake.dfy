/** Two dispatchers, whatever else they are doing, bring a handshake about between them. */
module DispatcherHandshake {
  import opened Base
  import opened Crypto
  import opened SessionModel
  import opened Candidates
  import opened DispatcherModel
  import opened TwoParty
  import opened Handshake

  /** The meeting before either side has said anything. */
  function Silent(m: Meeting): Meeting {
    m.(sayA := None, sayB := None)
  }

  // ---- what each side holds on the way ----------------------------------------------------------------

  /** A session that has asked, or a fork of it, with its payload waiting. */
  predicate Asking(m: Meeting, a: Session) {
    && a.state == ExpectInitResponse && a.role == Initiator && a.config == m.configA && a.ownKeyId == Some(m.st.idA)
    && a.cid == Some(m.cid) && a.inQueue == [] && a.pending == m.sayA && a.lastReceived.None?
    && a.hs.ephemeral.Some? && a.hs.s1.Some? && a.outPdus == [] && a.outPayloads == []
  }

  predicate HasAnswered(m: Meeting, b: Session) {
    && b.state == ExpectCompletionRequest && b.role == Responder && b.config == m.configB
    && b.cid == Some(m.cid) && b.inQueue == []
    && b.lastReceived.Some? && b.lastReceived.value.Pdu? && b.lastReceived.value.payload.SessionInitRequest?
    && b.outPdus == [] && b.outPayloads == []
  }

  /** What the answer has of the question. */
  predicate Answers(m: Meeting, a: Session, b: Session) {
    b.hs.peerKeyId == Some(m.st.idA) && b.hs.s1 == a.hs.s1 && b.hs.chosen == Common(m)
  }

  predicate Completing(m: Meeting, a: Session) {
    && a.state == ExpectCompletionResponse && a.role == Initiator && a.cid == Some(m.cid) && a.inQueue == []
    && a.pending.None? && a.keys.Some? && a.sentPlain == Some(SaidBy(m.sayA))
    && a.lastReceived.Some? && a.lastReceived.value.Pdu? && a.lastReceived.value.payload.SessionInitResponse?
    && a.outPdus == [] && a.outPayloads == []
  }

  /** Everything but what concerns this cid is as it was. */
  predicate OthersUntouched(d: Dispatcher, e: Dispatcher, cid: Cid) {
    && e.established - {cid} == d.established - {cid} && e.responders - {cid} == d.responders - {cid}
    && e.templates - {cid} == d.templates - {cid} && e.forks - {cid} == d.forks - {cid}
  }

  predicate Unknown(d: Dispatcher, cid: Cid) {
    cid !in d.established && cid !in d.responders && cid !in d.templates && cid !in d.forks
  }

  // ---- what a crank puts out, it queues -------------------------------------------------------------------

  lemma UpdateQueues(s: Session, now: real, keys: Keys, coins: Coins)
    ensures var c := Update(s, now, keys, coins);
            c.next.outPdus == s.outPdus + c.out.pdus && c.next.outPayloads == s.outPayloads + c.out.payloads
  {
    TakingQueues(s, now, keys, coins);
    hide TakeIncoming;
  }

  lemma TakingQueues(s: Session, now: real, keys: Keys, coins: Coins)
    ensures var c := TakeIncoming(s, now, keys, coins);
            c.next.outPdus == s.outPdus + c.out.pdus && c.next.outPayloads == s.outPayloads + c.out.payloads
  {
  }

  // ---- the five steps -------------------------------------------------------------------------------------------

  lemma Starts(m: Meeting, d: Dispatcher, x: Chance)
    requires Introduced(m) && d.config == m.configA && Unknown(d, m.cid)
    ensures var o := InitiateAt(d, m.st.idA, m.st.idB, x.now, m.keysA, m.cid, x.coins);
            var e := if m.sayA.Some? then PostPayloadTo(o.d, m.cid, m.sayA.value) else o.d;
            && !o.escaped && OthersUntouched(d, e, m.cid) && e.store == d.store && e.config == d.config
            && e.outPayloads == d.outPayloads && |e.outPdus| == |d.outPdus| + 1 && d.outPdus <= e.outPdus
            && m.cid in e.templates && Asking(m, e.templates[m.cid]) && m.cid in e.forks && e.forks[m.cid] == []
            && m.cid !in e.established && m.cid !in e.responders
            && var r := e.outPdus[|d.outPdus|];
               r.Pdu? && r.cid == m.cid && IsRequest(r.payload, e.templates[m.cid], m.st)
  {
    hide Initiate, First, IsRequest, Introduced;
    InitiateQueues(m, d, x);
    AliceAsks(Silent(m), x);
    var step := Initiate(New(Initiator, Some(m.st.idA), d.config), m.st.idB, x.now, m.keysA, m.cid, x.coins);
    var t := Emptied(step.next).(pending := m.sayA);
    RequestStill(step.out.pdus[0].payload, step.next, t, m.st);
  }

  lemma RequestStill(p: Payload, a: Session, c: Session, st: Setup)
    requires IsRequest(p, a, st) && c.hs == a.hs && c.config == a.config
    ensures IsRequest(p, c, st)
  {
  }

  lemma InitiateQueues(m: Meeting, d: Dispatcher, x: Chance)
    requires Introduced(m) && d.config == m.configA
    ensures var step := Initiate(New(Initiator, Some(m.st.idA), d.config), m.st.idB, x.now, m.keysA, m.cid, x.coins);
            step == First(Silent(m), x) && step.next.outPdus == step.out.pdus && step.next.outPayloads == []
    ensures Introduced(Silent(m)) && (m.sayA.Some? ==> m.sayA.value != [])
  {
  }

  lemma Replies(m: Meeting, d: Dispatcher, a: Session, request: Pdu, x: Chance)
    requires Introduced(m) && d.config == m.configB && Unknown(d, m.cid) && Accepts(d.store, m.cid, x.now)
    requires request.Pdu? && request.cid == m.cid && IsRequest(request.payload, a, m.st) && a.config == m.configA
    ensures var o := PostPduTo(d, request, x.now, m.keysB, x.coins);
            && !o.escaped && OthersUntouched(d, o.d, m.cid) && o.d.outPayloads == d.outPayloads
            && o.d.config == d.config
            && m.cid !in o.d.established && m.cid !in o.d.templates && m.cid !in o.d.forks
            && if Common(m).None? then m.cid !in o.d.responders && o.d.outPdus == d.outPdus
               else
                 && m.cid in o.d.responders && HasAnswered(m, o.d.responders[m.cid])
                 && o.d.responders[m.cid].pending.None?
                 && Answers(m, a, o.d.responders[m.cid])
                 && |o.d.outPdus| == |d.outPdus| + 1 && d.outPdus <= o.d.outPdus
                 && var p := o.d.outPdus[|d.outPdus|];
                    p.Pdu? && p.cid == m.cid && IsResponse(p.payload, a, o.d.responders[m.cid], m.st)
  {
    hide Update, PostPduTo, IsRequest, IsResponse, Accepts, Common;
    var newcomer := New(Responder, None, d.config);
    BobReplies(Silent(m), a, request, x);
    assert newcomer == Bob0(Silent(m)) && Common(Silent(m)) == Common(m) by { SilentCommon(m); }
    UpdateQueues(PostPdu(newcomer, request), x.now, m.keysB, x.coins);
    RequestIs(m, a, request);
    RoutedRequest(m, d, request, x);
    var b := Update(PostPdu(newcomer, request), x.now, m.keysB, x.coins);
    if Common(m).Some? {
      ResponseStill(b.out.pdus[0].payload, a, a, b.next, Emptied(b.next), m.st);
    }
  }

  lemma SilentCommon(m: Meeting)
    ensures Common(Silent(m)) == Common(m)
  {
  }

  /** A response belongs to what its two sides agreed, not to what they have queued. */
  lemma ResponseStill(p: Payload, a: Session, c: Session, b: Session, e: Session, st: Setup)
    requires IsResponse(p, a, b, st) && c.hs.ephemeral == a.hs.ephemeral && e.hs == b.hs
    ensures IsResponse(p, c, e, st) && p.SessionInitResponse?
  {
  }

  lemma CompletionStill(p: Payload, a: Session, c: Session, seals: seq<Sealed>, b: Session)
    requires IsCompletion(p, a, seals, b) && c.keys == a.keys
    ensures IsCompletion(p, c, seals, b) && p.SessionCompletionRequest? && seals != [] && p.cM == seals[0]
    ensures IsCompletion(p, c, [p.cM], b)
  {
  }

  lemma RequestIs(m: Meeting, a: Session, request: Pdu)
    requires request.Pdu? && IsRequest(request.payload, a, m.st)
    ensures request.payload.SessionInitRequest?
  {
  }

  /** How a first request is routed, given what its crank does. */
  lemma RoutedRequest(m: Meeting, d: Dispatcher, request: Pdu, x: Chance)
    requires Unknown(d, m.cid) && Accepts(d.store, m.cid, x.now)
    requires request.Pdu? && request.cid == m.cid && request.payload.SessionInitRequest?
    ensures var c := Update(PostPdu(New(Responder, None, d.config), request), x.now, m.keysB, x.coins);
            var o := PostPduTo(d, request, x.now, m.keysB, x.coins);
            !EscapesFrom(c.result) && (c.next.state == Initial || c.next.state == ExpectCompletionRequest) ==>
              && !o.escaped && o.d.outPdus == d.outPdus + c.next.outPdus
              && o.d.outPayloads == d.outPayloads + Tagged(m.cid, c.next.outPayloads)
              && o.d.responders
                 == (if c.next.state == Initial then d.responders - {m.cid} else d.responders[m.cid := Emptied(c.next)])
              && o.d.established == d.established && o.d.templates == d.templates && o.d.forks == d.forks
              && o.d.config == d.config
  {
    hide Update, Add, Accepts, RecordFirstSent, Discard;
  }

  /** A completion request sealed under the keys both sides derive. */
  predicate GoodCompletion(m: Meeting, a: Session, b: Session, p: Pdu) {
    && p.Pdu? && p.cid == m.cid && p.payload.SessionCompletionRequest? && a.keys.Some?
    && IsCompletion(p.payload, a, [p.payload.cM], b)
    && p.payload.cM == Seal(a.keys.value.aead, a.keys.value.keyA2b, a.keys.value.ivA2b, 0, m.cid, SaidBy(m.sayA))
  }

  lemma Completes(m: Meeting, d: Dispatcher, b: Session, response: Pdu, x: Chance)
    requires Introduced(m) && Common(m).Some? && Accepts(d.store, m.cid, x.now)
    requires m.cid in d.templates && Asking(m, d.templates[m.cid]) && m.cid in d.forks && d.forks[m.cid] == []
    requires m.cid !in d.established && m.cid !in d.responders
    requires response.Pdu? && response.cid == m.cid && IsResponse(response.payload, d.templates[m.cid], b, m.st)
    requires Answers(m, d.templates[m.cid], b) && b.config == m.configB
    ensures var o := PostPduTo(d, response, x.now, m.keysA, x.coins);
            && !o.escaped && OthersUntouched(d, o.d, m.cid) && o.d.outPayloads == d.outPayloads
            && o.d.config == d.config
            && m.cid !in o.d.established && m.cid !in o.d.responders && m.cid in o.d.templates
            && m.cid in o.d.forks && |o.d.forks[m.cid]| == 1 && Completing(m, o.d.forks[m.cid][0])
            && |o.d.outPdus| == |d.outPdus| + 1 && d.outPdus <= o.d.outPdus
            && GoodCompletion(m, o.d.forks[m.cid][0], b, o.d.outPdus[|d.outPdus|])
  {
    hide Update, PostPduTo, IsResponse, IsCompletion, Accepts, Common, MostPreferred;
    CommonIsAcceptable(m);
    var a := d.templates[m.cid];
    var twin := Fork(a).value;
    ResponseStill(response.payload, a, twin, b, b, m.st);
    AliceCompletes(m, twin, b, response, x);
    UpdateQueues(PostPdu(twin, response), x.now, m.keysA, x.coins);
    RoutedResponse(m, d, response, x);
    var c := Update(PostPdu(twin, response), x.now, m.keysA, x.coins);
    assert [] + [Emptied(c.next)] == [Emptied(c.next)];
    CompletionStill(c.out.pdus[0].payload, c.next, Emptied(c.next), c.out.seals, b);
  }

  lemma CommonIsAcceptable(m: Meeting)
    requires Common(m).Some?
    ensures Common(m).value in m.configA.acceptableAeads
  {
    ChosenIsMostPreferred(m.configB.acceptableAeads, m.configA.acceptableAeads);
  }

  /** How a response that no fork has accepted is routed, given what its crank does. */
  lemma RoutedResponse(m: Meeting, d: Dispatcher, response: Pdu, x: Chance)
    requires m.cid in d.templates && m.cid in d.forks && Accepts(d.store, m.cid, x.now)
    requires MatchingFork(d.forks[m.cid], response) == |d.forks[m.cid]|
    requires m.cid !in d.established && Fork(d.templates[m.cid]).Ok?
    requires response.Pdu? && response.cid == m.cid && response.payload.SessionInitResponse?
    ensures var c := Update(PostPdu(Fork(d.templates[m.cid]).value, response), x.now, m.keysA, x.coins);
            var o := PostPduTo(d, response, x.now, m.keysA, x.coins);
            !EscapesFrom(c.result) ==>
              && !o.escaped && o.d.outPdus == d.outPdus + c.next.outPdus
              && o.d.outPayloads == d.outPayloads + Tagged(m.cid, c.next.outPayloads)
              && o.d.forks == d.forks[m.cid := d.forks[m.cid] + [Emptied(c.next)]] && o.d.templates == d.templates
              && o.d.established == d.established && o.d.responders == d.responders && o.d.config == d.config
  {
    hide Update, Add, Accepts, RecordSent, Fork;
  }

  lemma Confirms(m: Meeting, d: Dispatcher, a: Session, completion: Pdu, x: Chance)
    requires Introduced(m) && m.cid in d.responders && HasAnswered(m, d.responders[m.cid])
             && d.responders[m.cid].pending == m.sayB
    requires m.cid !in d.established && m.cid !in d.templates && m.cid !in d.forks
    requires GoodCompletion(m, a, d.responders[m.cid], completion)
    ensures var o := PostPduTo(d, completion, x.now, m.keysB, x.coins);
            && !o.escaped && OthersUntouched(d, o.d, m.cid) && CandidatesFor(o.d.store, m.cid) == []
            && m.cid in o.d.established && o.d.established[m.cid].state == Established
            && o.d.established[m.cid].keys == a.keys
            && m.cid !in o.d.responders && m.cid !in o.d.templates && m.cid !in o.d.forks
            && o.d.outPayloads == d.outPayloads + Tagged(m.cid, NonEmpty(SaidBy(m.sayA)))
            && |o.d.outPdus| == |d.outPdus| + 1 && d.outPdus <= o.d.outPdus
            && var p := o.d.outPdus[|d.outPdus|];
               && p.Pdu? && p.cid == m.cid
               && p.payload == SessionCompletionResponse(Sha256(SaidBy(m.sayA)),
                    if m.sayB.None? then None
                    else Some(Seal(a.keys.value.aead, a.keys.value.keyB2a, a.keys.value.ivB2a, 0, m.cid, m.sayB.value)))
  {
    hide Update, PostPduTo, IsCompletion, Introduced, CandidatesFor;
    var b := d.responders[m.cid];
    BobConfirms(m, a, b, completion, [completion.payload.cM], x);
    UpdateQueues(PostPdu(b, completion), x.now, m.keysB, x.coins);
    RoutedToResponder(m, d, completion, x);
  }

  lemma RoutedToResponder(m: Meeting, d: Dispatcher, pdu: Pdu, x: Chance)
    requires m.cid in d.responders && m.cid !in d.established && pdu.Pdu? && pdu.cid == m.cid
    requires pdu.payload.SessionCompletionRequest?
    ensures var c := Update(PostPdu(d.responders[m.cid], pdu), x.now, m.keysB, x.coins);
            var o := PostPduTo(d, pdu, x.now, m.keysB, x.coins);
            c.result.Returned? && c.next.state == Established ==>
              && !o.escaped && o.d.outPdus == d.outPdus + c.next.outPdus
              && o.d.outPayloads == d.outPayloads + Tagged(m.cid, c.next.outPayloads)
              && o.d.established == d.established[m.cid := Emptied(c.next)] && o.d.responders == d.responders - {m.cid}
              && o.d.templates == d.templates - {m.cid} && o.d.forks == d.forks - {m.cid}
              && CandidatesFor(o.d.store, m.cid) == []
  {
    hide Update;
  }

  lemma Concludes(m: Meeting, d: Dispatcher, confirmation: Pdu, x: Chance)
    requires Introduced(m) && m.cid in d.forks && |d.forks[m.cid]| >= 1 && Completing(m, d.forks[m.cid][0])
    requires m.cid !in d.established && m.cid !in d.responders
    requires confirmation.Pdu? && confirmation.cid == m.cid
    requires var a := d.forks[m.cid][0];
             confirmation.payload == SessionCompletionResponse(Sha256(SaidBy(m.sayA)),
               if m.sayB.None? then None
               else Some(Seal(a.keys.value.aead, a.keys.value.keyB2a, a.keys.value.ivB2a, 0, m.cid, m.sayB.value)))
    ensures var o := PostPduTo(d, confirmation, x.now, m.keysA, x.coins);
            && !o.escaped && OthersUntouched(d, o.d, m.cid) && CandidatesFor(o.d.store, m.cid) == []
            && m.cid in o.d.established && o.d.established[m.cid].state == Established
            && o.d.established[m.cid].keys == d.forks[m.cid][0].keys
            && m.cid !in o.d.responders && m.cid !in o.d.templates && m.cid !in o.d.forks
            && o.d.outPayloads == d.outPayloads + Tagged(m.cid, if m.sayB.None? then [] else [m.sayB.value])
  {
    hide Update, PostPduTo, Introduced, CandidatesFor;
    var a := d.forks[m.cid][0];
    AliceConcludes(m, a, confirmation, x);
    UpdateQueues(PostPdu(a, confirmation), x.now, m.keysA, x.coins);
    RoutedToFork(m, d, confirmation, x);
  }

  lemma RoutedToFork(m: Meeting, d: Dispatcher, pdu: Pdu, x: Chance)
    requires m.cid in d.forks && |d.forks[m.cid]| >= 1 && m.cid !in d.established && m.cid !in d.responders
    requires pdu.Pdu? && pdu.cid == m.cid && pdu.payload.SessionCompletionResponse?
    ensures var c := Update(PostPdu(d.forks[m.cid][0], pdu), x.now, m.keysA, x.coins);
            var o := PostPduTo(d, pdu, x.now, m.keysA, x.coins);
            c.result.Returned? && c.next.state == Established ==>
              && !o.escaped && o.d.outPayloads == d.outPayloads + Tagged(m.cid, c.next.outPayloads)
              && o.d.established == d.established[m.cid := Emptied(c.next)] && o.d.responders == d.responders - {m.cid}
              && o.d.templates == d.templates - {m.cid} && o.d.forks == d.forks - {m.cid}
              && CandidatesFor(o.d.store, m.cid) == []
  {
    hide Update;
  }

  // ---- the whole handshake ----------------------------------------------------------------------------------------

  function Say(d: Dispatcher, cid: Cid, say: Option<Bytes>): Dispatcher {
    if say.Some? then PostPayloadTo(d, cid, say.value) else d
  }

  /** Both ends of a handshake between dispatchers that may be busy with any number of others, when
      each PDU reaches the other dispatcher once, in turn. */
  datatype Ends = Ends(a1: Dispatcher, b1: Dispatcher, a2: Dispatcher, b2: Dispatcher, a3: Dispatcher)

  /** The PDU put out last. */
  function Newest(d: Dispatcher): Pdu {
    if d.outPdus == [] then Malformed([]) else d.outPdus[|d.outPdus| - 1]
  }

  ghost function Connect(m: Meeting, da: Dispatcher, db: Dispatcher, x: seq<Chance>): Ends
    requires |x| == 5
  {
    var a1 := Say(InitiateAt(da, m.st.idA, m.st.idB, x[0].now, m.keysA, m.cid, x[0].coins).d, m.cid, m.sayA);
    var b1 := Say(PostPduTo(db, Newest(a1), x[1].now, m.keysB, x[1].coins).d, m.cid, m.sayB);
    var a2 := PostPduTo(a1, Newest(b1), x[2].now, m.keysA, x[2].coins).d;
    var b2 := PostPduTo(b1, Newest(a2), x[3].now, m.keysB, x[3].coins).d;
    Ends(a1, b1, a2, b2, PostPduTo(a2, Newest(b2), x[4].now, m.keysA, x[4].coins).d)
  }

  // ---- where each side stands after each step ---------------------------------------------------------------------

  predicate Started(m: Meeting, was: Dispatcher, d: Dispatcher) {
    && OthersUntouched(was, d, m.cid) && d.outPayloads == was.outPayloads && d.config == m.configA
    && m.cid in d.templates && Asking(m, d.templates[m.cid]) && m.cid in d.forks && d.forks[m.cid] == []
    && m.cid !in d.established && m.cid !in d.responders
    && Newest(d).Pdu? && Newest(d).cid == m.cid && IsRequest(Newest(d).payload, d.templates[m.cid], m.st)
  }

  predicate Replied(m: Meeting, was: Dispatcher, d: Dispatcher, a: Session) {
    && OthersUntouched(was, d, m.cid) && d.outPayloads == was.outPayloads
    && m.cid in d.responders && HasAnswered(m, d.responders[m.cid]) && d.responders[m.cid].pending == m.sayB
    && m.cid !in d.established && m.cid !in d.templates && m.cid !in d.forks
    && Answers(m, a, d.responders[m.cid])
    && Newest(d).Pdu? && Newest(d).cid == m.cid && IsResponse(Newest(d).payload, a, d.responders[m.cid], m.st)
  }

  predicate Completed(m: Meeting, was: Dispatcher, d: Dispatcher, b: Session) {
    && OthersUntouched(was, d, m.cid) && d.outPayloads == was.outPayloads
    && m.cid in d.forks && |d.forks[m.cid]| == 1 && Completing(m, d.forks[m.cid][0])
    && m.cid !in d.established && m.cid !in d.responders
    && GoodCompletion(m, d.forks[m.cid][0], b, Newest(d))
  }

  /** The cid is established here under these keys and pending nowhere, with no candidate left. */
  predicate ConfirmedAt(d: Dispatcher, cid: Cid, keys: Option<SessionKeys>) {
    && cid in d.established && d.established[cid].state == Established && d.established[cid].keys == keys && keys.Some?
    && cid !in d.responders && cid !in d.templates && cid !in d.forks && CandidatesFor(d.store, cid) == []
  }

  /** Established, and the peer's payload, if there was one, handed over. */
  predicate HandedOver(m: Meeting, was: Dispatcher, d: Dispatcher, keys: Option<SessionKeys>, say: Option<Bytes>) {
    && OthersUntouched(was, d, m.cid) && ConfirmedAt(d, m.cid, keys)
    && d.outPayloads == was.outPayloads + Tagged(m.cid, NonEmpty(SaidBy(say)))
  }

  lemma UntouchedTrans(d: Dispatcher, e: Dispatcher, f: Dispatcher, cid: Cid)
    requires OthersUntouched(d, e, cid) && OthersUntouched(e, f, cid)
    ensures OthersUntouched(d, f, cid)
  {
  }

  lemma StartStep(m: Meeting, d: Dispatcher, x: Chance)
    requires Introduced(m) && d.config == m.configA && Unknown(d, m.cid)
    ensures var e := Say(InitiateAt(d, m.st.idA, m.st.idB, x.now, m.keysA, m.cid, x.coins).d, m.cid, m.sayA);
            Started(m, d, e) && e.store == d.store
  {
    hide InitiateAt, PostPayloadTo, IsRequest, OthersUntouched, Asking;
    Starts(m, d, x);
  }

  lemma ReplyStep(m: Meeting, d: Dispatcher, other: Dispatcher, a1: Dispatcher, x: Chance)
    requires Introduced(m) && d.config == m.configB && Unknown(d, m.cid) && Accepts(d.store, m.cid, x.now)
    requires Started(m, other, a1)
    ensures var o := PostPduTo(d, Newest(a1), x.now, m.keysB, x.coins);
            if Common(m).None? then
              m.cid !in o.d.responders && o.d.outPdus == d.outPdus && OthersUntouched(d, o.d, m.cid)
            else Replied(m, d, Say(o.d, m.cid, m.sayB), a1.templates[m.cid])
  {
    hide PostPduTo, IsRequest, IsResponse, Accepts, Common, OthersUntouched, PostPayloadTo;
    Replies(m, d, a1.templates[m.cid], Newest(a1), x);
    if Common(m).Some? {
      var o := PostPduTo(d, Newest(a1), x.now, m.keysB, x.coins);
      SayToResponder(m, o.d, a1.templates[m.cid], Newest(o.d).payload);
      RespondersAside(d, o.d, Say(o.d, m.cid, m.sayB), m.cid);
    }
  }

  lemma RespondersAside(d: Dispatcher, e: Dispatcher, f: Dispatcher, cid: Cid)
    requires OthersUntouched(d, e, cid) && f == e.(responders := f.responders)
             && f.responders - {cid} == e.responders - {cid}
    ensures OthersUntouched(d, f, cid)
  {
  }

  lemma SayToResponder(m: Meeting, d: Dispatcher, a: Session, response: Payload)
    requires m.cid in d.responders && HasAnswered(m, d.responders[m.cid]) && d.responders[m.cid].pending.None?
    requires m.cid !in d.established && Answers(m, a, d.responders[m.cid]) && (m.sayB.Some? ==> m.sayB.value != [])
    requires IsResponse(response, a, d.responders[m.cid], m.st)
    ensures var e := Say(d, m.cid, m.sayB);
            && e == d.(responders := e.responders) && m.cid in e.responders && HasAnswered(m, e.responders[m.cid])
            && e.responders - {m.cid} == d.responders - {m.cid}
            && e.responders[m.cid].pending == m.sayB && Answers(m, a, e.responders[m.cid])
            && IsResponse(response, a, e.responders[m.cid], m.st)
  {
  }

  lemma CompleteStep(m: Meeting, was: Dispatcher, d: Dispatcher, other: Dispatcher, b1: Dispatcher, x: Chance)
    requires Introduced(m) && Common(m).Some? && Accepts(d.store, m.cid, x.now)
    requires Started(m, was, d) && Replied(m, other, b1, d.templates[m.cid])
    ensures Completed(m, was, PostPduTo(d, Newest(b1), x.now, m.keysA, x.coins).d, b1.responders[m.cid])
  {
    hide PostPduTo, IsResponse, IsRequest, GoodCompletion, Accepts, Common, OthersUntouched;
    assert b1.responders[m.cid].config == m.configB;
    Completes(m, d, b1.responders[m.cid], Newest(b1), x);
    UntouchedTrans(was, d, PostPduTo(d, Newest(b1), x.now, m.keysA, x.coins).d, m.cid);
  }

  /** What Bob confirms with. */
  predicate Confirmation(m: Meeting, p: Pdu, keys: SessionKeys) {
    && p.Pdu? && p.cid == m.cid
    && p.payload == SessionCompletionResponse(Sha256(SaidBy(m.sayA)),
         if m.sayB.None? then None else Some(Seal(keys.aead, keys.keyB2a, keys.ivB2a, 0, m.cid, m.sayB.value)))
  }

  lemma ConfirmStep(m: Meeting, was: Dispatcher, d: Dispatcher, a: Session, other: Dispatcher, a2: Dispatcher,
                    x: Chance)
    requires Introduced(m) && Replied(m, was, d, a) && Completed(m, other, a2, d.responders[m.cid])
    ensures var e, f := PostPduTo(d, Newest(a2), x.now, m.keysB, x.coins).d, a2.forks[m.cid][0];
            HandedOver(m, was, e, f.keys, m.sayA) && f.keys.Some? && Confirmation(m, Newest(e), f.keys.value)
  {
    hide PostPduTo, IsResponse, OthersUntouched, CandidatesFor, Tagged;
    Confirms(m, d, a2.forks[m.cid][0], Newest(a2), x);
    UntouchedTrans(was, d, PostPduTo(d, Newest(a2), x.now, m.keysB, x.coins).d, m.cid);
  }

  lemma ConcludeStep(m: Meeting, was: Dispatcher, d: Dispatcher, b: Session, confirmation: Pdu, x: Chance)
    requires Introduced(m) && Completed(m, was, d, b) && d.forks[m.cid][0].keys.Some?
    requires Confirmation(m, confirmation, d.forks[m.cid][0].keys.value)
    ensures HandedOver(m, was, PostPduTo(d, confirmation, x.now, m.keysA, x.coins).d, d.forks[m.cid][0].keys, m.sayB)
  {
    hide PostPduTo, GoodCompletion, OthersUntouched, CandidatesFor, Tagged;
    Concludes(m, d, confirmation, x);
    UntouchedTrans(was, d, PostPduTo(d, confirmation, x.now, m.keysA, x.coins).d, m.cid);
  }

  /** Between any two dispatchers, one of which starts a handshake under a cid new to both and both of
      which have room for a candidate: if the sides have no AEAD in common the responder keeps nothing
      and sends nothing; otherwise both end up with the cid established under the same keys, each
      handing its application the payload the other was given, and no other cid is touched. */
  lemma DispatchersConnect(m: Meeting, da: Dispatcher, db: Dispatcher, x: seq<Chance>)
    requires Introduced(m) && da.config == m.configA && db.config == m.configB && |x| == 5
    requires Unknown(da, m.cid) && Unknown(db, m.cid)
    requires Accepts(db.store, m.cid, x[1].now) && Accepts(da.store, m.cid, x[2].now)
    ensures var n := Connect(m, da, db, x);
            if forall aead <- m.configB.acceptableAeads :: aead !in m.configA.acceptableAeads then
              var refused := PostPduTo(db, Newest(n.a1), x[1].now, m.keysB, x[1].coins).d;
              m.cid !in refused.responders && refused.outPdus == db.outPdus && OthersUntouched(db, refused, m.cid)
            else
              exists keys :: HandedOver(m, da, n.a3, keys, m.sayB) && HandedOver(m, db, n.b2, keys, m.sayA)
  {
    hide PostPduTo, InitiateAt, Introduced, Started, Replied, Completed, HandedOver, Confirmation, Accepts, Common,
         OthersUntouched;
    CommonOrNone(m);
    var n := Connect(m, da, db, x);
    StartStep(m, da, x[0]);
    ReplyStep(m, db, da, n.a1, x[1]);
    if Common(m).Some? {
      StartedHas(m, da, n.a1);
      var a := n.a1.templates[m.cid];
      RepliedHas(m, db, n.b1, a);
      CompleteStep(m, da, n.a1, db, n.b1, x[2]);
      CompletedHas(m, da, n.a2, n.b1.responders[m.cid]);
      ConfirmStep(m, db, n.b1, a, da, n.a2, x[3]);
      ConcludeStep(m, da, n.a2, n.b1.responders[m.cid], Newest(n.b2), x[4]);
    }
  }

  lemma StartedHas(m: Meeting, was: Dispatcher, d: Dispatcher)
    requires Started(m, was, d)
    ensures m.cid in d.templates
  {
  }

  lemma RepliedHas(m: Meeting, was: Dispatcher, d: Dispatcher, a: Session)
    requires Replied(m, was, d, a)
    ensures m.cid in d.responders
  {
  }

  lemma CompletedHas(m: Meeting, was: Dispatcher, d: Dispatcher, b: Session)
    requires Completed(m, was, d, b)
    ensures m.cid in d.forks && |d.forks[m.cid]| == 1
  {
  }

  lemma CommonOrNone(m: Meeting)
    ensures Common(m).None? <==> forall aead <- m.configB.acceptableAeads :: aead !in m.configA.acceptableAeads
  {
    ChosenIsMostPreferred(m.configB.acceptableAeads, m.configA.acceptableAeads);
    if Common(m).Some? {
      MostPreferredIsCommon(Common(m).value, m.configB.acceptableAeads, m.configA.acceptableAeads);
    }
  }
}
