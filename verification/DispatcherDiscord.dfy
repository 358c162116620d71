/** Two dispatchers brought to hold one cid under different keys: a responder that expires, a request
    that arrives once more, and a confirmation without a reply. */
module DispatcherDiscord {
  import opened Base
  import opened Crypto
  import opened SessionModel
  import opened Candidates
  import opened DispatcherModel
  import opened DispatcherInvariant
  import opened TwoParty
  import opened Handshake
  import opened OneCid
  import H = DispatcherHandshake
  import R = DispatcherRuns
  import P = DispatcherPeers

  // ---- what Bob's answers have of his coins -----------------------------------------------------------

  /** A responder's second secret is of its own coins. */
  predicate Drew(b: Session, coins: Coins) {
    b.hs.s2.Some? && b.hs.s2.value.Shared? && b.hs.s2.value.coins == coins.encap1
  }

  lemma AnswerFacts(m: Meeting, a: Session, request: Pdu, x: Chance)
    requires Introduced(m) && request.Pdu? && request.cid == m.cid && IsRequest(request.payload, a, m.st)
    requires a.config == m.configA && Common(m).Some?
    ensures var c := Update(PostPdu(New(Responder, None, m.configB), request), x.now, m.keysB, x.coins);
            var b := c.next;
            && c.result.Returned? && Drew(b, x.coins) && b.lastReceived == Some(request)
            && b.deadline == Some(x.now + m.configB.ttl) && b.state == ExpectCompletionRequest
  {
  }

  /** Where Bob's dispatcher stands once it has answered: one candidate, not expired before a certain
      time. */
  ghost predicate AnsweredAt(m: Meeting, d: Dispatcher, a: Session, request: Pdu, x: Chance) {
    && m.cid in d.responders && m.cid !in d.established && m.cid !in d.templates && m.cid !in d.forks
    && d.config == m.configB
    && (var b := d.responders[m.cid];
        && H.HasAnswered(m, b) && b.pending.None? && H.Answers(m, a, b) && Drew(b, x.coins)
        && b.lastReceived == Some(request) && b.deadline == Some(x.now + m.configB.ttl))
  }

  lemma BobAnswers(m: Meeting, d: Dispatcher, a: Session, request: Pdu, x: Chance)
    requires Introduced(m) && Common(m).Some? && d.config == m.configB && H.Unknown(d, m.cid)
    requires request.Pdu? && request.cid == m.cid && IsRequest(request.payload, a, m.st) && a.config == m.configA
    requires Accepts(d.store, m.cid, x.now)
    ensures var e := PostPduTo(d, request, x.now, m.keysB, x.coins).d;
            && AnsweredAt(m, e, a, request, x) && d.outPdus <= e.outPdus && |d.outPdus| < |e.outPdus|
            && H.Newest(e).Pdu? && H.Newest(e).cid == m.cid
            && IsResponse(H.Newest(e).payload, a, e.responders[m.cid], m.st)
  {
    hide Update, PostPduTo, IsRequest, IsResponse, Accepts, Common, Introduced;
    H.Replies(m, d, a, request, x);
    AnswerFacts(m, a, request, x);
    H.RequestIs(m, a, request);
    H.RoutedRequest(m, d, request, x);
  }

  lemma AnswerStore(m: Meeting, d: Dispatcher, request: Pdu, x: Chance)
    requires request.Pdu? && request.cid == m.cid && request.payload.SessionInitRequest? && H.Unknown(d, m.cid)
    requires Accepts(d.store, m.cid, x.now) && m.cid in PostPduTo(d, request, x.now, m.keysB, x.coins).d.responders
    ensures SameButSent(Add(d.store, m.cid, request, x.now), PostPduTo(d, request, x.now, m.keysB, x.coins).d.store)
  {
    hide Update, Add, Accepts, RecordFirstSent, Discard, RouteInitResponse, RouteToForks, DeliverToResponder;
    var s := Add(d.store, m.cid, request, x.now);
    var c := Update(PostPdu(New(Responder, None, d.config), request), x.now, m.keysB, x.coins);
    RecordingKeeps(s, m.cid, request, c.next.lastSent);
  }

  lemma AnswerStored(m: Meeting, d: Dispatcher, request: Pdu, x: Chance, until: real)
    requires request.Pdu? && request.cid == m.cid && request.payload.SessionInitRequest? && H.Unknown(d, m.cid)
    requires Holds(d.store, m.cid, 0, until) && x.now <= until < x.now + d.store.ttl
    requires m.cid in PostPduTo(d, request, x.now, m.keysB, x.coins).d.responders
    ensures Holds(PostPduTo(d, request, x.now, m.keysB, x.coins).d.store, m.cid, 1, until)
  {
    hide PostPduTo, Add, Accepts, Holds;
    HasRoom(d.store, m.cid, 0, until);
    HeldSurvives(d.store, m.cid, 0, until, x.now);
    AddHolds(d.store, m.cid, 0, request, until, x.now);
    AnswerStore(m, d, request, x);
    RecordingHolds(Add(d.store, m.cid, request, x.now), PostPduTo(d, request, x.now, m.keysB, x.coins).d.store, m.cid,
                   1, until);
  }

  lemma HasRoom(s: Store, cid: Cid, k: nat, now: real)
    requires Holds(s, cid, k, now)
    ensures 1 <= s.maxPerCid <= s.maxTotal
  {
  }

  // ---- the responder expires, and is asked once more ------------------------------------------------------

  lemma LateCrank(s: Session, request: Pdu, x: Chance, keys: Keys)
    requires s.state == ExpectCompletionRequest && s.role == Responder && s.inQueue == []
    requires s.lastReceived == Some(request) && s.deadline.Some? && s.deadline.value <= x.now
    ensures var c := Update(PostPdu(s, request), x.now, keys, x.coins);
            c.result.Returned? && c.next.state == Dropped
  {
  }

  /** The same request, come late, finds the time up and takes the responder with it. */
  lemma RequestComesLate(m: Meeting, d: Dispatcher, a: Session, request: Pdu, first: Chance, x: Chance, now: real)
    requires AnsweredAt(m, d, a, request, first) && first.now + m.configB.ttl <= x.now
    requires request.Pdu? && request.cid == m.cid && request.payload.SessionInitRequest?
    requires Holds(d.store, m.cid, 1, first.now)
    ensures var e := PostPduTo(d, request, x.now, m.keysB, x.coins).d;
            && H.Unknown(e, m.cid) && e.config == d.config && d.outPdus <= e.outPdus
            && Holds(e.store, m.cid, 0, now)
  {
    var s := d.responders[m.cid];
    LateCrank(s, request, x, m.keysB);
    DiscardHolds(d.store, m.cid, 1, first.now, now);
    H.UpdateQueues(PostPdu(s, request), x.now, m.keysB, x.coins);
    hide Update, Holds, Discard;
  }

  // ---- two forks -------------------------------------------------------------------------------------------

  /** A fork that has completed with this responder's response. */
  predicate CompletedWith(m: Meeting, f: Session, b: Session, response: Pdu, completion: Pdu) {
    && H.Completing(m, f) && H.GoodCompletion(m, f, b, completion) && f.lastReceived == Some(response)
  }

  lemma AliceAgain(m: Meeting, d: Dispatcher, b: Session, response: Pdu, x: Chance)
    requires Introduced(m) && Common(m).Some? && Accepts(d.store, m.cid, x.now)
    requires m.cid in d.templates && H.Asking(m, d.templates[m.cid]) && m.cid in d.forks
    requires MatchingFork(d.forks[m.cid], response) == |d.forks[m.cid]|
    requires m.cid !in d.established && m.cid !in d.responders
    requires response.Pdu? && response.cid == m.cid && IsResponse(response.payload, d.templates[m.cid], b, m.st)
    requires H.Answers(m, d.templates[m.cid], b) && b.config == m.configB
    ensures var e := PostPduTo(d, response, x.now, m.keysA, x.coins).d;
            && m.cid !in e.established && m.cid !in e.responders && e.templates == d.templates && e.config == d.config
            && m.cid in e.forks && |e.forks[m.cid]| == |d.forks[m.cid]| + 1
            && e.forks[m.cid][..|d.forks[m.cid]|] == d.forks[m.cid]
            && CompletedWith(m, e.forks[m.cid][|d.forks[m.cid]|], b, response, H.Newest(e))
            && d.outPdus <= e.outPdus && |d.outPdus| < |e.outPdus|
  {
    hide Update, PostPduTo, IsResponse, IsCompletion, Accepts, Common, MostPreferred;
    H.CommonIsAcceptable(m);
    var a := d.templates[m.cid];
    var twin := Fork(a).value;
    H.ResponseStill(response.payload, a, twin, b, b, m.st);
    AliceCompletes(m, twin, b, response, x);
    H.UpdateQueues(PostPdu(twin, response), x.now, m.keysA, x.coins);
    H.RoutedResponse(m, d, response, x);
    var c := Update(PostPdu(twin, response), x.now, m.keysA, x.coins);
    H.CompletionStill(c.out.pdus[0].payload, c.next, Emptied(c.next), c.out.seals, b);
  }

  lemma ResponseStored(m: Meeting, d: Dispatcher, response: Pdu, x: Chance, k: nat, until: real)
    requires response.Pdu? && response.cid == m.cid && response.payload.SessionInitResponse? && m.cid !in d.established
    requires m.cid in d.templates && m.cid in d.forks && Fork(d.templates[m.cid]).Ok?
    requires MatchingFork(d.forks[m.cid], response) == |d.forks[m.cid]|
    requires Holds(d.store, m.cid, k, until) && k < d.store.maxPerCid && x.now <= until < x.now + d.store.ttl
    ensures var e := PostPduTo(d, response, x.now, m.keysA, x.coins).d;
            Holds(e.store, m.cid, k + 1, until) && e.store.ttl == d.store.ttl && e.store.maxPerCid == d.store.maxPerCid
  {
    hide Update, Add, Accepts, Holds, RecordSent, Fork;
    HeldSurvives(d.store, m.cid, k, until, x.now);
    AddHolds(d.store, m.cid, k, response, until, x.now);
    var s := Add(d.store, m.cid, response, x.now);
    var c := Update(PostPdu(Fork(d.templates[m.cid]).value, response), x.now, m.keysA, x.coins);
    RecordingKeeps(s, m.cid, response, c.next.lastSent);
    RecordingHolds(s, RecordSent(s, m.cid, response, c.next.lastSent), m.cid, k + 1, until);
  }

  /** Responders that drew different coins gave different responses and end up with different keys. */
  lemma DifferentCoins(m: Meeting, a: Session, b: Session, c: Session, p: Pdu, q: Pdu, f: Session, g: Session, r: Pdu,
                       s: Pdu, x: Coins, y: Coins)
    requires Drew(b, x) && Drew(c, y) && x.encap1 != y.encap1
    requires p.Pdu? && q.Pdu? && IsResponse(p.payload, a, b, m.st) && IsResponse(q.payload, a, c, m.st)
    ensures p != q
    ensures CompletedWith(m, f, b, p, r) && CompletedWith(m, g, c, q, s) ==>
              f.keys.Some? && g.keys.Some? && f.keys != g.keys
  {
  }

  // ---- the run ------------------------------------------------------------------------------------------------

  /** Where both sides stand after each arrival. */
  datatype Course = Course(a0: Dispatcher, a1: Dispatcher, a2: Dispatcher, a3: Dispatcher, a4: Dispatcher,
                           b0: Dispatcher, b1: Dispatcher, b2: Dispatcher, b3: Dispatcher, b4: Dispatcher)

  ghost function Follow(m: Meeting, a0: Dispatcher, b0: Dispatcher, x: seq<Chance>): Course
    requires |x| == 8
  {
    var a1 := InitiateAt(a0, m.st.idA, m.st.idB, x[0].now, m.keysA, m.cid, x[0].coins).d;
    var b1 := PostPduTo(b0, H.Newest(a1), x[1].now, m.keysB, x[1].coins).d;
    var b2 := PostPduTo(b1, H.Newest(a1), x[2].now, m.keysB, x[2].coins).d;
    var b3 := PostPduTo(b2, H.Newest(a1), x[3].now, m.keysB, x[3].coins).d;
    var a2 := PostPduTo(a1, H.Newest(b1), x[4].now, m.keysA, x[4].coins).d;
    var a3 := PostPduTo(a2, H.Newest(b3), x[5].now, m.keysA, x[5].coins).d;
    var b4 := PostPduTo(b3, H.Newest(a3), x[6].now, m.keysB, x[6].coins).d;
    Course(a0, a1, a2, a3, PostPduTo(a3, H.Newest(b4), x[7].now, m.keysA, x[7].coins).d, b0, b1, b2, b3, b4)
  }

  /** Time passes as the story wants it: the first responder expires before the request comes again, and
      no candidate of Alice's does before the second response; and Bob draws afresh. */
  predicate Timely(m: Meeting, x: seq<Chance>, sA: Store, sB: Store) {
    && |x| == 8 && x[1].now + m.configB.ttl <= x[2].now && x[4].now <= x[5].now < x[4].now + sA.ttl
    && sB.ttl > 0.0 && sA.ttl > 0.0 && x[1].coins.encap1 != x[3].coins.encap1
  }

  lemma BobAsked(m: Meeting, a: Session, request: Pdu, sB: Store, x: seq<Chance>, sA: Store)
    requires Introduced(m) && Common(m).Some? && P.NewlyMade(sB) && Timely(m, x, sA, sB)
    requires request.Pdu? && request.cid == m.cid && IsRequest(request.payload, a, m.st) && a.config == m.configA
    ensures var b0 := NewDispatcher(m.configB, sB);
            var b1 := PostPduTo(b0, request, x[1].now, m.keysB, x[1].coins).d;
            var b2 := PostPduTo(b1, request, x[2].now, m.keysB, x[2].coins).d;
            var b3 := PostPduTo(b2, request, x[3].now, m.keysB, x[3].coins).d;
            && AnsweredAt(m, b1, a, request, x[1]) && AnsweredAt(m, b3, a, request, x[3])
            && IsNews(m, b1) && IsResponse(H.Newest(b1).payload, a, b1.responders[m.cid], m.st)
            && IsNews(m, b3) && IsResponse(H.Newest(b3).payload, a, b3.responders[m.cid], m.st)
            && b1.outPdus <= b2.outPdus <= b3.outPdus
  {
    hide PostPduTo, IsRequest, IsResponse, Accepts, Common, Introduced, Holds, AnsweredAt, Valid;
    var b0 := NewDispatcher(m.configB, sB);
    var b1 := PostPduTo(b0, request, x[1].now, m.keysB, x[1].coins).d;
    var b2 := PostPduTo(b1, request, x[2].now, m.keysB, x[2].coins).d;
    StoreIsValid(m.configB, sB);
    H.RequestIs(m, a, request);
    NewHolds(sB, m.cid, x[1].now);
    HasRoom(sB, m.cid, 0, x[1].now);
    HeldSurvives(sB, m.cid, 0, x[1].now, x[1].now);
    BobAnswers(m, b0, a, request, x[1]);
    assert m.cid in b1.responders by { AnsweredHas(m, b1, a, request, x[1]); }
    AnswerStored(m, b0, request, x[1], x[1].now);
    RequestComesLate(m, b1, a, request, x[1], x[2], x[3].now);
    AnsweredHas(m, b1, a, request, x[1]);
    HasRoom(b2.store, m.cid, 0, x[3].now);
    HeldSurvives(b2.store, m.cid, 0, x[3].now, x[3].now);
    BobAnswers(m, b2, a, request, x[3]);
  }

  lemma StoreIsValid(config: Config, store: Store)
    requires P.NewlyMade(store)
    ensures Valid(store) && store.byCid == map[]
  {
    R.NewIsGood(config, store.maxPerCid, store.maxTotal, store.ttl);
    R.GoodHasValid(NewDispatcher(config, store));
  }

  lemma AnsweredHas(m: Meeting, d: Dispatcher, a: Session, request: Pdu, x: Chance)
    requires AnsweredAt(m, d, a, request, x)
    ensures m.cid in d.responders && d.config == m.configB
  {
  }

  /** What was put out last is a PDU of the cid. */
  predicate IsNews(m: Meeting, d: Dispatcher) {
    d.outPdus != [] && H.Newest(d).Pdu? && H.Newest(d).cid == m.cid
  }

  lemma AliceAsked(m: Meeting, sA: Store, x: Chance)
    requires Introduced(m) && P.NewlyMade(sA) && m.sayA.None?
    ensures var a1 := InitiateAt(NewDispatcher(m.configA, sA), m.st.idA, m.st.idB, x.now, m.keysA, m.cid, x.coins).d;
            && m.cid in a1.templates && H.Asking(m, a1.templates[m.cid]) && m.cid in a1.forks && a1.forks[m.cid] == []
            && m.cid !in a1.established && m.cid !in a1.responders && a1.store == sA
            && IsNews(m, a1) && IsRequest(H.Newest(a1).payload, a1.templates[m.cid], m.st)
  {
    hide InitiateAt, IsRequest, Introduced;
    H.Starts(m, NewDispatcher(m.configA, sA), x);
  }

  lemma OneOther(f: Session, p: Pdu)
    requires f.lastReceived != Some(p)
    ensures MatchingFork([f], p) == 1
  {
    assert [f][1..] == [];
  }

  /** Two responses from responders that drew different coins: two forks with different keys, both of
      which await a confirmation of the same false start. */
  lemma AliceCompletesTwice(m: Meeting, a1: Dispatcher, b: Session, c: Session, p: Pdu, q: Pdu, x: Chance, y: Chance,
                            sA: Store)
    requires Introduced(m) && Common(m).Some? && P.NewlyMade(sA) && a1.store == sA && sA.maxPerCid >= 2
    requires m.cid in a1.templates && H.Asking(m, a1.templates[m.cid]) && m.cid in a1.forks && a1.forks[m.cid] == []
    requires m.cid !in a1.established && m.cid !in a1.responders
    requires p.Pdu? && p.cid == m.cid && IsResponse(p.payload, a1.templates[m.cid], b, m.st)
    requires q.Pdu? && q.cid == m.cid && IsResponse(q.payload, a1.templates[m.cid], c, m.st)
    requires H.Answers(m, a1.templates[m.cid], b) && b.config == m.configB
    requires H.Answers(m, a1.templates[m.cid], c) && c.config == m.configB
    requires p != q && x.now <= y.now < x.now + sA.ttl && sA.ttl > 0.0
    ensures var a2 := PostPduTo(a1, p, x.now, m.keysA, x.coins).d;
            var a3 := PostPduTo(a2, q, y.now, m.keysA, y.coins).d;
            && m.cid !in a3.established && m.cid !in a3.responders && m.cid in a3.forks && |a3.forks[m.cid]| == 2
            && IsNews(m, a3) && CompletedWith(m, a3.forks[m.cid][1], c, q, H.Newest(a3))
            && exists r :: CompletedWith(m, a3.forks[m.cid][0], b, p, r)
  {
    hide PostPduTo, IsResponse, Accepts, Common, Introduced, Holds, Valid, H.GoodCompletion;
    StoreIsValid(m.configA, sA);
    NewHolds(sA, m.cid, y.now);
    HeldSurvives(sA, m.cid, 0, y.now, x.now);
    HasRoom(sA, m.cid, 0, y.now);
    AliceAgain(m, a1, b, p, x);
    TwinForks(m, a1.templates[m.cid]);
    H.ResponseStill(p.payload, a1.templates[m.cid], a1.templates[m.cid], b, b, m.st);
    H.ResponseStill(q.payload, a1.templates[m.cid], a1.templates[m.cid], c, c, m.st);
    ResponseStored(m, a1, p, x, 0, y.now);
    var a2 := PostPduTo(a1, p, x.now, m.keysA, x.coins).d;
    var f := a2.forks[m.cid][0];
    assert a2.forks[m.cid] == [f];
    OneOther(f, q);
    HasRoom(a2.store, m.cid, 1, y.now);
    HeldSurvives(a2.store, m.cid, 1, y.now, y.now);
    TwoHaveRoom(sA, a2.store, m.cid, y.now);
    AliceAgain(m, a2, c, q, y);
    var a3 := PostPduTo(a2, q, y.now, m.keysA, y.coins).d;
    assert a3.forks[m.cid][..1] == [f] && a3.forks[m.cid][0] == f;
    assert CompletedWith(m, f, b, p, H.Newest(a2));
    CompletionIsNews(m, a3, a3.forks[m.cid][1], c, q);
  }

  lemma TwinForks(m: Meeting, a: Session)
    requires H.Asking(m, a)
    ensures Fork(a).Ok?
  {
  }

  lemma TwoHaveRoom(s: Store, t: Store, cid: Cid, now: real)
    requires Holds(t, cid, 1, now) && t.maxPerCid == s.maxPerCid >= 2
    ensures 1 < t.maxPerCid
  {
  }

  lemma CompletionIsNews(m: Meeting, d: Dispatcher, f: Session, b: Session, response: Pdu)
    requires CompletedWith(m, f, b, response, H.Newest(d)) && d.outPdus != []
    ensures IsNews(m, d)
  {
  }

  /** Bob confirms the second, and Alice promotes the first. */
  lemma FirstIsPromoted(m: Meeting, a3: Dispatcher, b3: Dispatcher, a: Session, request: Pdu, response: Pdu, x: Chance,
                        y: Chance, z: Chance)
    requires Introduced(m) && m.sayA.None? && m.sayB.None? && AnsweredAt(m, b3, a, request, x)
    requires m.cid !in a3.established && m.cid !in a3.responders && m.cid in a3.forks && |a3.forks[m.cid]| == 2
    requires CompletedWith(m, a3.forks[m.cid][1], b3.responders[m.cid], response, H.Newest(a3))
    requires H.Completing(m, a3.forks[m.cid][0])
    ensures var b4 := PostPduTo(b3, H.Newest(a3), y.now, m.keysB, y.coins).d;
            var a4 := PostPduTo(a3, H.Newest(b4), z.now, m.keysA, z.coins).d;
            && m.cid in b4.established && b4.established[m.cid].keys == a3.forks[m.cid][1].keys
            && m.cid in a4.established && a4.established[m.cid].keys == a3.forks[m.cid][0].keys
            && IsNews(m, b4)
  {
    hide PostPduTo, Introduced, H.GoodCompletion, IsResponse;
    H.Confirms(m, b3, a3.forks[m.cid][1], H.Newest(a3), y);
    var b4 := PostPduTo(b3, H.Newest(a3), y.now, m.keysB, y.coins).d;
    H.Concludes(m, a3, H.Newest(b4), z);
  }

  /** Both hold the cid, under different keys. */
  predicate AtOdds(d: Dispatcher, e: Dispatcher, cid: Cid) {
    && cid in d.established && cid in e.established
    && d.established[cid].keys.Some? && e.established[cid].keys.Some?
    && d.established[cid].keys != e.established[cid].keys
  }

  lemma EndsAtOdds(m: Meeting, sA: Store, sB: Store, x: seq<Chance>)
    requires Introduced(m) && Common(m).Some? && m.sayA.None? && m.sayB.None?
    requires P.NewlyMade(sA) && P.NewlyMade(sB) && sA.maxPerCid >= 2 && Timely(m, x, sA, sB)
    ensures var c := Follow(m, NewDispatcher(m.configA, sA), NewDispatcher(m.configB, sB), x);
            && AtOdds(c.a4, c.b4, m.cid)
            && IsNews(m, c.a1) && IsNews(m, c.b1) && IsNews(m, c.b3) && IsNews(m, c.a3) && IsNews(m, c.b4)
            && c.b1.outPdus <= c.b2.outPdus <= c.b3.outPdus
  {
    hide PostPduTo, InitiateAt, Introduced, IsRequest, IsResponse, Common, P.NewlyMade, CompletedWith, H.Completing,
         Drew;
    var a0, b0 := NewDispatcher(m.configA, sA), NewDispatcher(m.configB, sB);
    var c := Follow(m, a0, b0, x);
    AliceAsked(m, sA, x[0]);
    var a, request := c.a1.templates[m.cid], H.Newest(c.a1);
    BobAsked(m, a, request, sB, x, sA);
    var r1, r2 := H.Newest(c.b1), H.Newest(c.b3);
    var s1, s2 := c.b1.responders[m.cid], c.b3.responders[m.cid];
    DifferentResponses(m, a, s1, s2, r1, r2, x[1].coins, x[3].coins);
    assert s1.config == m.configB && s2.config == m.configB;
    AliceCompletesTwice(m, c.a1, s1, s2, r1, r2, x[4], x[5], sA);
    var f, g := c.a3.forks[m.cid][0], c.a3.forks[m.cid][1];
    var completion :| CompletedWith(m, f, s1, r1, completion);
    DifferentCoins(m, a, s1, s2, r1, r2, f, g, completion, H.Newest(c.a3), x[1].coins, x[3].coins);
    assert H.Completing(m, f) by { CompletedIs(m, f, s1, r1, completion); }
    FirstIsPromoted(m, c.a3, c.b3, a, request, r2, x[3], x[6], x[7]);
  }

  lemma CompletedIs(m: Meeting, f: Session, b: Session, response: Pdu, completion: Pdu)
    requires CompletedWith(m, f, b, response, completion)
    ensures H.Completing(m, f)
  {
  }

  lemma DifferentResponses(m: Meeting, a: Session, b: Session, c: Session, p: Pdu, q: Pdu, x: Coins, y: Coins)
    requires Drew(b, x) && Drew(c, y) && x.encap1 != y.encap1
    requires p.Pdu? && q.Pdu? && IsResponse(p.payload, a, b, m.st) && IsResponse(q.payload, a, c, m.st)
    ensures p != q
  {
  }

  // ---- as a run over the network -----------------------------------------------------------------------------

  function Arrival(p: Pdu, x: Chance, keys: Keys): R.Event {
    R.Arrives(p, x.now, keys, x.coins)
  }

  ghost function Script(m: Meeting, c: Course, x: seq<Chance>): seq<P.Action>
    requires |x| == 8
  {
    [P.AtA(R.Starts(m.st.idA, m.st.idB, x[0].now, m.keysA, m.cid, x[0].coins)),
     P.AtB(Arrival(H.Newest(c.a1), x[1], m.keysB)), P.AtB(Arrival(H.Newest(c.a1), x[2], m.keysB)),
     P.AtB(Arrival(H.Newest(c.a1), x[3], m.keysB)), P.AtA(Arrival(H.Newest(c.b1), x[4], m.keysA)),
     P.AtA(Arrival(H.Newest(c.b3), x[5], m.keysA)), P.AtB(Arrival(H.Newest(c.a3), x[6], m.keysB)),
     P.AtA(Arrival(H.Newest(c.b4), x[7], m.keysA))]
  }

  lemma OneAction(n: P.Net, actions: seq<P.Action>)
    requires actions != [] && P.Allowed(n, actions[0]) && P.AllowedRun(P.NetStep(n, actions[0]), actions[1..])
    ensures P.AllowedRun(n, actions)
    ensures P.RunNet(n, actions) == P.RunNet(P.NetStep(n, actions[0]), actions[1..])
  {
  }

  /** An arrival of something put out before leads where it says, and what has been put out stays known. */
  lemma ArrivalAtA(n: P.Net, p: Pdu, x: Chance, keys: Keys)
    requires p in n.xb.sent
    ensures var m := P.AtA(Arrival(p, x, keys)); var k := P.NetStep(n, m);
            && P.Allowed(n, m) && k.a == PostPduTo(n.a, p, x.now, keys, x.coins).d && k.b == n.b
            && n.xa.sent <= k.xa.sent && k.xb == n.xb && forall q <- k.a.outPdus :: q in k.xa.sent
  {
  }

  lemma ArrivalAtB(n: P.Net, p: Pdu, x: Chance, keys: Keys)
    requires p in n.xa.sent
    ensures var m := P.AtB(Arrival(p, x, keys)); var k := P.NetStep(n, m);
            && P.Allowed(n, m) && k.b == PostPduTo(n.b, p, x.now, keys, x.coins).d && k.a == n.a
            && n.xb.sent <= k.xb.sent && k.xa == n.xa && forall q <- k.b.outPdus :: q in k.xb.sent
  {
  }

  /** The second half: both responses, the completion of the second and its confirmation. */
  lemma ScriptEnds(m: Meeting, n4: P.Net, c: Course, x: seq<Chance>)
    requires |x| == 8 && c == Follow(m, c.a0, c.b0, x) && n4.a == c.a1 && n4.b == c.b3
    requires H.Newest(c.b1) in n4.xb.sent && H.Newest(c.b3) in n4.xb.sent
    requires H.Newest(c.a3) in c.a3.outPdus && H.Newest(c.b4) in c.b4.outPdus
    ensures var script := Script(m, c, x)[4..];
            P.AllowedRun(n4, script) && P.RunNet(n4, script).a == c.a4 && P.RunNet(n4, script).b == c.b4
  {
    hide PostPduTo, InitiateAt, Arrival, P.AllowedRun, P.RunNet, P.NetStep, P.Allowed;
    var s := Script(m, c, x)[4..];
    ArrivalAtA(n4, H.Newest(c.b1), x[4], m.keysA);
    var n5 := P.NetStep(n4, s[0]);
    ArrivalAtA(n5, H.Newest(c.b3), x[5], m.keysA);
    var n6 := P.NetStep(n5, s[1]);
    ArrivalAtB(n6, H.Newest(c.a3), x[6], m.keysB);
    var n7 := P.NetStep(n6, s[2]);
    ArrivalAtA(n7, H.Newest(c.b4), x[7], m.keysA);
    NoActions(P.NetStep(n7, s[3]));
    OneAction(n7, s[3..]);
    OneAction(n6, s[2..]);
    OneAction(n5, s[1..]);
    OneAction(n4, s);
  }

  /** The run is one the network allows, and ends where it should. */
  lemma ScriptRuns(m: Meeting, sA: Store, sB: Store, x: seq<Chance>, c: Course)
    requires |x| == 8 && c == Follow(m, NewDispatcher(m.configA, sA), NewDispatcher(m.configB, sB), x)
    requires IsNews(m, c.a1) && IsNews(m, c.b1) && IsNews(m, c.b3) && IsNews(m, c.a3) && IsNews(m, c.b4)
    ensures var n := P.NewNet(m.configA, sA, m.configB, sB); var script := Script(m, c, x);
            P.AllowedRun(n, script) && P.RunNet(n, script).a == c.a4 && P.RunNet(n, script).b == c.b4
  {
    hide PostPduTo, InitiateAt, Arrival, IsNews, P.AllowedRun, P.RunNet, P.NetStep, P.Allowed, H.Newest;
    NewsIsQueued(m, c);
    var s := Script(m, c, x);
    var n0 := P.NewNet(m.configA, sA, m.configB, sB);
    StartAtA(m, n0, x[0]);
    var n1 := P.NetStep(n0, s[0]);
    ArrivalAtB(n1, H.Newest(c.a1), x[1], m.keysB);
    var n2 := P.NetStep(n1, s[1]);
    ArrivalAtB(n2, H.Newest(c.a1), x[2], m.keysB);
    var n3 := P.NetStep(n2, s[2]);
    ArrivalAtB(n3, H.Newest(c.a1), x[3], m.keysB);
    var n4 := P.NetStep(n3, s[3]);
    ScriptEnds(m, n4, c, x);
    OneAction(n3, s[3..]);
    OneAction(n2, s[2..]);
    OneAction(n1, s[1..]);
    OneAction(n0, s);
  }

  lemma NoActions(n: P.Net)
    ensures P.AllowedRun(n, []) && P.RunNet(n, []) == n
  {
  }

  lemma NewsIsQueued(m: Meeting, c: Course)
    requires IsNews(m, c.a1) && IsNews(m, c.b1) && IsNews(m, c.b3) && IsNews(m, c.a3) && IsNews(m, c.b4)
    ensures H.Newest(c.a1) in c.a1.outPdus && H.Newest(c.b1) in c.b1.outPdus && H.Newest(c.b3) in c.b3.outPdus
            && H.Newest(c.a3) in c.a3.outPdus && H.Newest(c.b4) in c.b4.outPdus
  {
  }

  lemma StartAtA(m: Meeting, n: P.Net, x: Chance)
    requires n.a.established == map[] && n.a.responders == map[] && n.a.templates == map[]
    ensures var s := P.AtA(R.Starts(m.st.idA, m.st.idB, x.now, m.keysA, m.cid, x.coins)); var k := P.NetStep(n, s);
            && P.Allowed(n, s) && k.a == InitiateAt(n.a, m.st.idA, m.st.idB, x.now, m.keysA, m.cid, x.coins).d
            && k.b == n.b && k.xb == n.xb && forall q <- k.a.outPdus :: q in k.xa.sent
  {
    hide InitiateAt;
  }

  /** The failing run: whoever can meet, with no payload to say, can be brought by a network that delays
      and duplicates to hold the cid at both ends, nothing closed, under different keys. */
  lemma PeersCanBeAtOdds(m: Meeting, sA: Store, sB: Store, x: seq<Chance>)
    requires Introduced(m) && Common(m).Some? && m.sayA.None? && m.sayB.None?
    requires P.NewlyMade(sA) && P.NewlyMade(sB) && sA.maxPerCid >= 2 && Timely(m, x, sA, sB)
    ensures exists actions ::
              var n := P.NewNet(m.configA, sA, m.configB, sB);
              && P.AllowedRun(n, actions) && P.AtA(R.Closes(m.cid)) !in actions && P.AtB(R.Closes(m.cid)) !in actions
              && AtOdds(P.RunNet(n, actions).a, P.RunNet(n, actions).b, m.cid)
  {
    hide PostPduTo, InitiateAt, Introduced, Common, P.NewlyMade, P.AllowedRun, P.RunNet, AtOdds, Timely;
    assert |x| == 8 by { EightChances(m, x, sA, sB); }
    var c := Follow(m, NewDispatcher(m.configA, sA), NewDispatcher(m.configB, sB), x);
    EndsAtOdds(m, sA, sB, x);
    ScriptRuns(m, sA, sB, x, c);
    var script := Script(m, c, x);
    assert P.AtA(R.Closes(m.cid)) !in script && P.AtB(R.Closes(m.cid)) !in script;
  }

  lemma EightChances(m: Meeting, x: seq<Chance>, sA: Store, sB: Store)
    requires Timely(m, x, sA, sB)
    ensures |x| == 8
  {
  }

  /** And there are those who can meet. */
  lemma SomePeersAreAtOdds() returns (m: Meeting, sA: Store, sB: Store, actions: seq<P.Action>)
    ensures var n := P.NewNet(m.configA, sA, m.configB, sB);
            && P.NewlyMade(sA) && P.NewlyMade(sB) && P.AllowedRun(n, actions)
            && P.AtA(R.Closes(m.cid)) !in actions && P.AtB(R.Closes(m.cid)) !in actions
            && AtOdds(P.RunNet(n, actions).a, P.RunNet(n, actions).b, m.cid)
  {
    hide P.AllowedRun, P.RunNet, AtOdds, Common;
    m := SomeCanMeet([9], None, None);
    sA, sB := Store(2, 2, 60.0, map[], 0), Store(2, 2, 60.0, map[], 0);
    var before, after := Chance(0.0, Coins([1], [1], [1], [1])), Chance(m.configB.ttl, Coins([2], [2], [2], [2]));
    var x := [before, before, after, after, after, after, after, after];
    PeersCanBeAtOdds(m, sA, sB, x);
    actions :| P.AllowedRun(P.NewNet(m.configA, sA, m.configB, sB), actions)
      && P.AtA(R.Closes(m.cid)) !in actions && P.AtB(R.Closes(m.cid)) !in actions
      && AtOdds(P.RunNet(P.NewNet(m.configA, sA, m.configB, sB), actions).a,
                P.RunNet(P.NewNet(m.configA, sA, m.configB, sB), actions).b, m.cid);
  }
}
