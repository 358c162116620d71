/** What every operation of the dispatcher keeps: how the tables and the store agree, and that an established
    session stays in place. */
module DispatcherInvariant {
  import opened Base
  import opened Crypto
  import opened SessionModel
  import opened SessionFacts
  import opened Candidates
  import opened DispatcherModel

  // ---- sessions in the tables ----------------------------------------------------------------------

  predicate Confirmed(s: Session, cid: Cid, config: Config) {
    s.state == Established && Coherent(s) && s.inQueue == [] && s.cid == Some(cid) && s.config == config
  }

  /** A responder of which an exception passed through the first crank is kept while still Initial. */
  predicate Answering(s: Session, cid: Cid, config: Config) {
    && s.role == Responder && (s.state == Initial || s.state == ExpectCompletionRequest)
    && Coherent(s) && s.inQueue == [] && s.config == config
    && (s.cid == Some(cid) || (s.state == Initial && s.cid.None?))
  }

  predicate Waiting(s: Session, cid: Cid, config: Config) {
    && s.role == Initiator && s.state == ExpectInitResponse && Coherent(s) && s.inQueue == []
    && s.config == config && s.cid == Some(cid)
  }

  predicate Competing(s: Session, cid: Cid, config: Config) {
    && s.role == Initiator
    && (s.state == ExpectInitResponse || s.state == ExpectCompletionResponse || s.state == Dropped)
    && Coherent(s) && Quiet(s) && s.config == config && s.cid == Some(cid)
  }

  /** No two forks accepted the same response. */
  predicate DistinctResponses(fs: seq<Session>) {
    forall i, j | 0 <= i < j < |fs| :: fs[i].lastReceived.Some? ==> fs[i].lastReceived != fs[j].lastReceived
  }

  predicate GoodForks(fs: seq<Session>, cid: Cid, config: Config) {
    (forall f <- fs :: Competing(f, cid, config)) && DistinctResponses(fs)
  }

  // ---- the tables ----------------------------------------------------------------------------------------

  /** An established cid is in no other table; templates and forks have the same keys; and every
      session is filed under its own cid in a state its table allows. */
  ghost predicate GoodTables(d: Dispatcher) {
    && (forall cid <- d.established ::
          Confirmed(d.established[cid], cid, d.config) && cid !in d.responders && cid !in d.templates)
    && (forall cid <- d.responders :: Answering(d.responders[cid], cid, d.config))
    && d.templates.Keys == d.forks.Keys
    && (forall cid <- d.templates :: Waiting(d.templates[cid], cid, d.config))
    && (forall cid <- d.forks :: GoodForks(d.forks[cid], cid, d.config))
  }

  predicate Pending(d: Dispatcher, cid: Cid) {
    cid in d.responders || cid in d.templates
  }

  ghost predicate GoodStore(d: Dispatcher) {
    Valid(d.store) && forall cid | CandidatesFor(d.store, cid) != [] :: Pending(d, cid)
  }

  ghost predicate Good(d: Dispatcher) {
    GoodTables(d) && GoodStore(d)
  }

  /** Every established session but those of `closed` is still there, the same session. */
  ghost predicate StillThere(d: Dispatcher, e: Dispatcher, closed: set<Cid>) {
    forall cid <- d.established.Keys - closed ::
      cid in e.established && SameSession(d.established[cid], e.established[cid])
  }

  // ---- sessions being cranked -------------------------------------------------------------------------------

  /** One more PDU in the queue, or none. */
  function WithInput(s: Session, pdus: seq<Pdu>): Session {
    s.(inQueue := s.inQueue + pdus)
  }

  predicate ForCid(pdus: seq<Pdu>, cid: Cid) {
    |pdus| <= 1 && forall p <- pdus :: p.Pdu? && p.cid == cid
  }

  lemma CrankConfirmed(s: Session, cid: Cid, config: Config, pdus: seq<Pdu>, now: real, keys: Keys, coins: Coins)
    requires Confirmed(s, cid, config) && |pdus| <= 1
    ensures var c := Update(WithInput(s, pdus), now, keys, coins);
            Confirmed(c.next, cid, config) && SameSession(s, c.next)
            && Confirmed(Emptied(c.next), cid, config) && SameSession(s, Emptied(c.next))
            && (c.result.Returned? ==> c.result.next == At(Due(c.next, now)) == At(now + config.retryInterval))
  {
    hide Update;
    CrankFacts(WithInput(s, pdus), now, keys, coins);
    assert s.(inQueue := []) == s;
  }

  /** Without input, an established session raises exactly when a payload waits and the counter is
      exhausted; the exception is not one the dispatcher catches. */
  lemma QuietConfirmedRaises(s: Session, cid: Cid, config: Config, now: real, keys: Keys, coins: Coins)
    requires Confirmed(s, cid, config)
    ensures EscapesFrom(Update(s, now, keys, coins).result) <==> Exhausted(s)
    ensures Update(s, now, keys, coins).result.Raised? ==> EscapesFrom(Update(s, now, keys, coins).result)
  {
  }

  lemma CrankAnswering(s: Session, cid: Cid, config: Config, pdus: seq<Pdu>, now: real, keys: Keys, coins: Coins)
    requires Answering(s, cid, config) && ForCid(pdus, cid)
    ensures var c := Update(WithInput(s, pdus), now, keys, coins); var t := c.next;
            && Confirmed(t, cid, config) == (t.state == Established)
            && (t.state != Established && t.state != Dropped ==> Answering(t, cid, config))
            && (c.result.Raised? ==> t.state == s.state)
            && (pdus == [] ==> c.result.Returned? && t.state != Established)
            && (c.result.Returned? && t.state != Dropped ==>
                  c.result.next == At(Due(t, now)) && (config.retryInterval > 0.0 ==> now < Due(t, now)))
            && (c.result.Returned? && t.state == Dropped ==> c.result.next.Never?)
  {
    QuietReturns(s, now, keys, coins);
    assert s.(inQueue := s.inQueue + []) == s;
    hide Update;
    CrankFacts(WithInput(s, pdus), now, keys, coins);
  }

  lemma CrankCompeting(s: Session, cid: Cid, config: Config, pdus: seq<Pdu>, now: real, keys: Keys, coins: Coins)
    requires Competing(s, cid, config) && ForCid(pdus, cid)
    ensures var c := Update(WithInput(s, pdus), now, keys, coins); var t := c.next;
            && Confirmed(t, cid, config) == (t.state == Established)
            && (t.state != Established ==> Competing(t, cid, config))
            && (t.state == Established ==> pdus != [] && pdus[0].payload.SessionCompletionResponse?)
            && (t.lastReceived == s.lastReceived || t.state == Established
                || (pdus != [] && pdus[0].payload.SessionInitResponse? && s.lastReceived.None?
                    && t.lastReceived == Some(pdus[0])))
            && (c.result.Raised? ==> t.state == s.state)
            && (pdus == [] ==> c.result.Returned? && t.state != Established)
            && (c.result.Returned? && t.state != Dropped ==>
                  c.result.next == At(Due(t, now)) && (config.retryInterval > 0.0 ==> now < Due(t, now)))
            && (c.result.Returned? && t.state == Dropped ==> c.result.next.Never?)
  {
    QuietReturns(s, now, keys, coins);
    assert s.(inQueue := s.inQueue + []) == s;
    if s.state != Dropped {
      CrankFacts(WithInput(s, pdus), now, keys, coins);
    }
  }

  /** A session still in its handshake, with nothing to read, only looks at the clock. */
  lemma QuietReturns(s: Session, now: real, keys: Keys, coins: Coins)
    requires s.state != Established && Quiet(s)
    ensures Update(s, now, keys, coins).result.Returned? && Update(s, now, keys, coins).next.state != Established
  {
  }

  // ---- the store ---------------------------------------------------------------------------------------------

  lemma AddLookup(s: Store, cid: Cid, pdu: Pdu, now: real, k: Cid)
    ensures CandidatesFor(Add(s, cid, pdu, now), k) == Surviving(CandidatesFor(s, k), now)
              + if k == cid && Accepts(s, cid, now) then [NewCandidate(s, cid, pdu, now)] else []
  {
    SweptLookup(s, now, k);
  }

  lemma DiscardLookup(s: Store, cid: Cid)
    ensures forall k :: CandidatesFor(Discard(s, cid), k) == if k == cid then [] else CandidatesFor(s, k)
  {
  }

  /** The lists differ only in what was sent. */
  predicate SameTimes(cs: seq<Candidate>, cs': seq<Candidate>) {
    |cs| == |cs'| && forall i | 0 <= i < |cs| :: cs'[i] == cs[i].(sent := cs'[i].sent)
  }

  /** The store differs only in what was sent for one cid. */
  predicate SameButSent(s: Store, t: Store) {
    && t == s.(byCid := t.byCid) && t.byCid.Keys == s.byCid.Keys
    && forall k <- s.byCid :: SameTimes(s.byCid[k], t.byCid[k])
  }

  lemma RecordingKeeps(s: Store, cid: Cid, pdu: Pdu, sent: Option<Pdu>)
    ensures SameButSent(s, RecordSent(s, cid, pdu, sent)) && SameButSent(s, RecordFirstSent(s, cid, sent))
  {
  }

  lemma SameButSentKeeps(s: Store, t: Store)
    requires Valid(s) && SameButSent(s, t)
    ensures Valid(t) && forall k :: |CandidatesFor(s, k)| == |CandidatesFor(t, k)|
  {
    CountMonotone(s.byCid, t.byCid);
    CountMonotone(t.byCid, s.byCid);
    forall k | k in t.byCid
      ensures |t.byCid[k]| <= t.maxPerCid
      ensures forall c <- t.byCid[k] :: c.cid == k && c.expiresAt == c.createdAt + t.ttl
    {
      forall c | c in t.byCid[k] ensures c.cid == k && c.expiresAt == c.createdAt + t.ttl {
        var i :| 0 <= i < |t.byCid[k]| && t.byCid[k][i] == c;
        assert s.byCid[k][i] in s.byCid[k];
      }
    }
  }

  // ---- the tables, one change at a time ------------------------------------------------------------------------

  lemma SameSessionTrans(r: Session, s: Session, t: Session)
    requires SameSession(r, s) && SameSession(s, t)
    ensures SameSession(r, t)
  {
  }

  lemma PromoteKeeps(d: Dispatcher, cid: Cid, s: Session)
    requires Good(d) && Confirmed(s, cid, d.config) && cid !in d.established
    ensures Good(Promote(d, cid, s)) && StillThere(d, Promote(d, cid, s), {})
  {
    hide Confirmed, Answering, Waiting, GoodForks, Valid;
    DiscardKeepsValid(d.store, cid);
    DiscardLookup(d.store, cid);
  }

  lemma DropResponderKeeps(d: Dispatcher, cid: Cid)
    requires Good(d)
    ensures Good(DropResponder(d, cid)) && StillThere(d, DropResponder(d, cid), {})
  {
    hide Confirmed, Answering, Waiting, GoodForks, Valid;
    DiscardKeepsValid(d.store, cid);
    DiscardLookup(d.store, cid);
  }

  lemma PutResponderKeeps(d: Dispatcher, cid: Cid, s: Session)
    requires Good(d) && cid !in d.established && Answering(s, cid, d.config)
    ensures Good(d.(responders := d.responders[cid := s]))
    ensures StillThere(d, d.(responders := d.responders[cid := s]), {})
  {
    hide Confirmed, Answering, Waiting, GoodForks, Valid;
  }

  lemma PutForksKeeps(d: Dispatcher, cid: Cid, fs: seq<Session>)
    requires Good(d) && cid in d.forks && GoodForks(fs, cid, d.config)
    ensures Good(d.(forks := d.forks[cid := fs])) && StillThere(d, d.(forks := d.forks[cid := fs]), {})
  {
    hide Confirmed, Answering, Waiting, GoodForks, Valid;
  }

  lemma PutEstablishedKeeps(d: Dispatcher, cid: Cid, s: Session)
    requires Good(d) && cid in d.established && Confirmed(s, cid, d.config) && SameSession(d.established[cid], s)
    ensures Good(d.(established := d.established[cid := s]))
    ensures StillThere(d, d.(established := d.established[cid := s]), {})
  {
    hide Confirmed, Answering, Waiting, GoodForks, Valid;
  }

  /** Output queues are no part of the agreement. */
  predicate SameTables(d: Dispatcher, e: Dispatcher) {
    e == d.(outPdus := e.outPdus, outPayloads := e.outPayloads)
  }

  lemma SameTablesKeeps(d: Dispatcher, e: Dispatcher)
    requires SameTables(d, e) && Good(d)
    ensures Good(e) && StillThere(d, e, {})
  {
  }

  lemma PutStoreKeeps(d: Dispatcher, store: Store)
    requires Good(d) && Valid(store)
    requires forall k | CandidatesFor(store, k) != [] :: Pending(d, k)
    ensures Good(d.(store := store)) && StillThere(d, d.(store := store), {})
  {
    hide Confirmed, Answering, Waiting, GoodForks, Valid;
  }

  /** Adding a candidate of a cid that is, or is about to be, pending. */
  lemma AddStoreKeeps(d: Dispatcher, cid: Cid, pdu: Pdu, now: real)
    requires Good(d) && (Pending(d, cid) || !Accepts(d.store, cid, now))
    ensures Good(d.(store := Add(d.store, cid, pdu, now)))
    ensures StillThere(d, d.(store := Add(d.store, cid, pdu, now)), {})
  {
    var store := Add(d.store, cid, pdu, now);
    AddKeepsValid(d.store, cid, pdu, now);
    forall k | CandidatesFor(store, k) != [] ensures Pending(d, k) {
      AddLookup(d.store, cid, pdu, now, k);
    }
    PutStoreKeeps(d, store);
  }

  // ---- routing ---------------------------------------------------------------------------------------------------

  /** A responder put back after a crank, and promoted or dropped as its state says. */
  lemma SettleResponder(d: Dispatcher, cid: Cid, s: Session)
    requires Good(d) && cid !in d.established
    requires Answering(s, cid, d.config) || Confirmed(s, cid, d.config) || s.state == Dropped
    ensures var e := ReapResponder(d.(responders := d.responders[cid := s]), cid); Good(e) && StillThere(d, e, {})
  {
    var put := d.(responders := d.responders[cid := s]);
    assert put.responders - {cid} == d.responders - {cid};
    if s.state == Established {
      var queued := Collect(d, s, cid);
      SameTablesKeeps(d, queued);
      PromoteKeeps(queued, cid, Emptied(s));
      assert ReapResponder(put, cid) == Promote(queued, cid, Emptied(s));
    } else if s.state == Dropped {
      DropResponderKeeps(d, cid);
      assert ReapResponder(put, cid) == DropResponder(d, cid);
    } else {
      PutResponderKeeps(d, cid, s);
    }
  }

  lemma DeliverToResponderKeeps(d: Dispatcher, cid: Cid, pdu: Pdu, now: real, keys: Keys, coins: Coins)
    requires Good(d) && cid in d.responders && ForCid([pdu], cid)
    ensures var o := DeliverToResponder(d, cid, pdu, now, keys, coins); Good(o.d) && StillThere(d, o.d, {})
  {
    hide Update, Good, StillThere, ReapResponder;
    assert Answering(d.responders[cid], cid, d.config) && cid !in d.established by { GoodResponder(d, cid); }
    CrankAnswering(d.responders[cid], cid, d.config, [pdu], now, keys, coins);
    var v := Deliver(d, d.responders[cid], pdu, now, keys, coins, cid);
    SameTablesKeeps(d, v.d);
    if v.escaped {
      PutResponderKeeps(v.d, cid, v.s);
    } else {
      SettleResponder(v.d, cid, v.s);
    }
    StillThereTrans(d, v.d, DeliverToResponder(d, cid, pdu, now, keys, coins).d, {});
  }

  lemma GoodResponder(d: Dispatcher, cid: Cid)
    requires Good(d) && cid in d.responders
    ensures Answering(d.responders[cid], cid, d.config) && cid !in d.established
  {
  }

  lemma StillThereTrans(d: Dispatcher, e: Dispatcher, f: Dispatcher, closed: set<Cid>)
    requires StillThere(d, e, closed) && StillThere(e, f, closed)
    ensures StillThere(d, f, closed)
  {
    forall cid | cid in d.established.Keys - closed
      ensures cid in f.established && SameSession(d.established[cid], f.established[cid])
    {
      assert cid in e.established.Keys - closed;
    }
  }

  /** The new responder for a request there was room for, before it is delivered. */
  lemma NewResponderKeeps(d: Dispatcher, cid: Cid, pdu: Pdu, now: real)
    requires Good(d) && cid !in d.established
    ensures var e := d.(store := Add(d.store, cid, pdu, now),
                        responders := d.responders[cid := New(Responder, None, d.config)]);
            Good(e) && StillThere(d, e, {})
  {
    hide Good, StillThere;
    var placed := d.(responders := d.responders[cid := New(Responder, None, d.config)]);
    PutResponderKeeps(d, cid, New(Responder, None, d.config));
    AddStoreKeeps(placed, cid, pdu, now);
    StillThereTrans(d, placed, placed.(store := Add(d.store, cid, pdu, now)), {});
  }

  lemma RecordFirstKeeps(d: Dispatcher, cid: Cid, sent: Option<Pdu>)
    requires Good(d)
    ensures var e := d.(store := RecordFirstSent(d.store, cid, sent)); Good(e) && StillThere(d, e, {})
  {
    RecordingKeeps(d.store, cid, Malformed([]), sent);
    RecordKeeps(d, RecordFirstSent(d.store, cid, sent));
  }

  lemma RecordKeeps(d: Dispatcher, store: Store)
    requires Good(d) && SameButSent(d.store, store)
    ensures Good(d.(store := store)) && StillThere(d, d.(store := store), {})
  {
    SameButSentKeeps(d.store, store);
    forall k | CandidatesFor(store, k) != [] ensures Pending(d, k) {
      assert |CandidatesFor(d.store, k)| == |CandidatesFor(store, k)|;
    }
    PutStoreKeeps(d, store);
  }

  lemma RouteInitRequestKeeps(d: Dispatcher, cid: Cid, pdu: Pdu, now: real, keys: Keys, coins: Coins)
    requires Good(d) && cid !in d.established && ForCid([pdu], cid)
    ensures var o := RouteInitRequest(d, cid, pdu, now, keys, coins); Good(o.d) && StillThere(d, o.d, {})
  {
    hide Update, Good, StillThere, Add, Accepts, RecordFirstSent, ReapResponder, DeliverToResponder;
    if cid in d.responders {
      DeliverToResponderKeeps(d, cid, pdu, now, keys, coins);
    } else if !Accepts(d.store, cid, now) {
      AddStoreKeeps(d, cid, pdu, now);
    } else {
      var noted := d.(store := Add(d.store, cid, pdu, now));
      var newcomer := New(Responder, None, d.config);
      var placed := noted.(responders := d.responders[cid := newcomer]);
      NewResponderKeeps(d, cid, pdu, now);
      CrankAnswering(newcomer, cid, d.config, [pdu], now, keys, coins);
      var v := Deliver(noted, newcomer, pdu, now, keys, coins, cid);
      var base := v.d.(responders := d.responders[cid := newcomer]);
      SameTablesKeeps(placed, base);
      StillThereTrans(d, placed, base, {});
      var after := v.d.(responders := v.d.responders[cid := v.s]);
      assert after.responders == base.responders[cid := v.s];
      FinishInitRequest(d, base, cid, v.s, v.escaped);
    }
  }

  /** What remains once the first request has been delivered to its new responder. */
  lemma FinishInitRequest(d: Dispatcher, base: Dispatcher, cid: Cid, s: Session, escaped: bool)
    requires Good(base) && StillThere(d, base, {}) && cid !in base.established
    requires Answering(s, cid, base.config) || ((Confirmed(s, cid, base.config) || s.state == Dropped) && !escaped)
    ensures var after := base.(responders := base.responders[cid := s]);
            var e := if escaped then after
                     else if s.state == Initial then DropResponder(after, cid)
                     else ReapResponder(if s.state == ExpectCompletionRequest
                                        then after.(store := RecordFirstSent(after.store, cid, s.lastSent))
                                        else after, cid);
            Good(e) && StillThere(d, e, {})
  {
    hide Good, StillThere, RecordFirstSent, ReapResponder;
    var after := base.(responders := base.responders[cid := s]);
    if escaped || s.state == Initial {
      PutResponderKeeps(base, cid, s);
      StillThereTrans(d, base, after, {});
      if !escaped {
        DropResponderKeeps(after, cid);
        StillThereTrans(d, after, DropResponder(after, cid), {});
      }
    } else {
      var recorded := if s.state == ExpectCompletionRequest
                      then base.(store := RecordFirstSent(base.store, cid, s.lastSent)) else base;
      RecordFirstKeeps(base, cid, s.lastSent);
      if s.state == ExpectCompletionRequest {
        StillThereTrans(d, base, recorded, {});
      }
      SettleResponder(recorded, cid, s);
      StillThereTrans(d, recorded, ReapResponder(recorded.(responders := recorded.responders[cid := s]), cid), {});
    }
  }

  lemma GoodForksAt(d: Dispatcher, cid: Cid)
    requires Good(d) && cid in d.forks
    ensures GoodForks(d.forks[cid], cid, d.config) && cid in d.templates && cid !in d.established
    ensures Waiting(d.templates[cid], cid, d.config)
  {
  }

  /** The fork that accepted these very octets has nothing new to learn from them. */
  lemma DuplicateToFork(fs: seq<Session>, i: nat, cid: Cid, config: Config, pdu: Pdu, now: real, keys: Keys,
                        coins: Coins)
    requires GoodForks(fs, cid, config) && i < |fs| && ForCid([pdu], cid) && pdu.payload.SessionInitResponse?
    requires fs[i].lastReceived == Some(pdu)
    ensures GoodForks(fs[i := Update(PostPdu(fs[i], pdu), now, keys, coins).next], cid, config)
    ensures GoodForks(fs[i := Emptied(Update(PostPdu(fs[i], pdu), now, keys, coins).next)], cid, config)
  {
    hide Update;
    CrankCompeting(fs[i], cid, config, [pdu], now, keys, coins);
  }

  lemma ForkedSession(template: Session, cid: Cid, config: Config)
    requires Waiting(template, cid, config)
    ensures Fork(template).Ok? && Competing(Fork(template).value, cid, config)
            && Fork(template).value.lastReceived.None?
  {
  }

  /** A new fork either accepted nothing or accepted octets no fork of its cid had. */
  lemma NewFork(fs: seq<Session>, twin: Session, cid: Cid, config: Config, pdu: Pdu, now: real, keys: Keys,
                coins: Coins)
    requires GoodForks(fs, cid, config) && MatchingFork(fs, pdu) == |fs| && ForCid([pdu], cid)
    requires Competing(twin, cid, config) && twin.lastReceived.None? && pdu.payload.SessionInitResponse?
    ensures GoodForks(fs + [Update(PostPdu(twin, pdu), now, keys, coins).next], cid, config)
    ensures GoodForks(fs + [Emptied(Update(PostPdu(twin, pdu), now, keys, coins).next)], cid, config)
  {
    hide Update;
    CrankCompeting(twin, cid, config, [pdu], now, keys, coins);
  }

  lemma RouteInitResponseKeeps(d: Dispatcher, cid: Cid, pdu: Pdu, now: real, keys: Keys, coins: Coins)
    requires Good(d) && ForCid([pdu], cid) && pdu.payload.SessionInitResponse?
    ensures var o := RouteInitResponse(d, cid, pdu, now, keys, coins); Good(o.d) && StillThere(d, o.d, {})
  {
    hide Update, Good, StillThere, Add, Accepts, RecordSent, Fork, GoodForks;
    SameTablesKeeps(d, d);
    if cid in d.templates {
      assert cid in d.forks by { SameKeys(d); }
      GoodForksAt(d, cid);
      var fs := d.forks[cid];
      var i := MatchingFork(fs, pdu);
      if i < |fs| {
        DuplicateToFork(fs, i, cid, d.config, pdu, now, keys, coins);
        var v := Deliver(d, fs[i], pdu, now, keys, coins, cid);
        SameTablesKeeps(d, v.d);
        PutForksKeeps(v.d, cid, fs[i := v.s]);
        StillThereTrans(d, v.d, v.d.(forks := v.d.forks[cid := fs[i := v.s]]), {});
      } else {
        AddStoreKeeps(d, cid, pdu, now);
        var noted := d.(store := Add(d.store, cid, pdu, now));
        if Accepts(d.store, cid, now) {
          ForkedSession(d.templates[cid], cid, d.config);
          var twin := Fork(d.templates[cid]).value;
          NewFork(fs, twin, cid, d.config, pdu, now, keys, coins);
          var v := Deliver(noted, twin, pdu, now, keys, coins, cid);
          SameTablesKeeps(noted, v.d);
          StillThereTrans(d, noted, v.d, {});
          FinishInitResponse(d, v.d, cid, pdu, fs + [v.s], v.s.lastSent);
        }
      }
    }
  }

  lemma SameKeys(d: Dispatcher)
    requires Good(d)
    ensures d.templates.Keys == d.forks.Keys
  {
  }

  lemma FinishInitResponse(d: Dispatcher, base: Dispatcher, cid: Cid, pdu: Pdu, fs: seq<Session>, sent: Option<Pdu>)
    requires Good(base) && StillThere(d, base, {}) && cid in base.forks && GoodForks(fs, cid, base.config)
    ensures var after := base.(forks := base.forks[cid := fs]);
            Good(after) && StillThere(d, after, {})
            && Good(after.(store := RecordSent(after.store, cid, pdu, sent)))
            && StillThere(d, after.(store := RecordSent(after.store, cid, pdu, sent)), {})
  {
    var after := base.(forks := base.forks[cid := fs]);
    PutForksKeeps(base, cid, fs);
    RecordingKeeps(after.store, cid, pdu, sent);
    hide Good, StillThere, RecordSent, SameButSent;
    StillThereTrans(d, base, after, {});
    RecordKeeps(after, RecordSent(after.store, cid, pdu, sent));
    StillThereTrans(d, after, after.(store := RecordSent(after.store, cid, pdu, sent)), {});
  }

  lemma {:induction false} FeedForksKeeps(fs: seq<Session>, from: nat, cid: Cid, config: Config, pdu: Pdu, now: real,
                                          keys: Keys, coins: Coins)
    requires from <= |fs| && GoodForks(fs, cid, config) && ForCid([pdu], cid) && !pdu.payload.SessionInitResponse?
    ensures var f := FeedForks(fs, from, pdu, now, keys, coins);
            && (f.winner.None? ==> GoodForks(f.sessions, cid, config))
            && (f.winner.Some? ==> Confirmed(f.winner.value, cid, config) && !f.escaped)
    decreases |fs| - from
  {
    hide Update;
    if from < |fs| {
      var c := Update(PostPdu(fs[from], pdu), now, keys, coins);
      CrankCompeting(fs[from], cid, config, [pdu], now, keys, coins);
      if !EscapesFrom(c.result) && !(c.result.Returned? && c.next.state == Established) {
        FeedForksKeeps(fs[from := c.next], from + 1, cid, config, pdu, now, keys, coins);
      }
    }
  }

  lemma RouteToForksKeeps(d: Dispatcher, cid: Cid, pdu: Pdu, now: real, keys: Keys, coins: Coins)
    requires Good(d) && ForCid([pdu], cid) && !pdu.payload.SessionInitResponse?
    ensures var o := RouteToForks(d, cid, pdu, now, keys, coins); Good(o.d) && StillThere(d, o.d, {})
  {
    hide FeedForks, Good, StillThere, GoodForks;
    SameTablesKeeps(d, d);
    if cid in d.forks {
      GoodForksAt(d, cid);
      FeedForksKeeps(d.forks[cid], 0, cid, d.config, pdu, now, keys, coins);
      var f := FeedForks(d.forks[cid], 0, pdu, now, keys, coins);
      var after := d.(forks := d.forks[cid := f.sessions]);
      if f.winner.None? {
        PutForksKeeps(d, cid, f.sessions);
      } else {
        PromoteWinner(d, cid, f.winner.value);
        assert after.forks - {cid} == d.forks - {cid};
        assert Promote(Collect(after, f.winner.value, cid), cid, Emptied(f.winner.value))
            == Promote(Collect(d, f.winner.value, cid), cid, Emptied(f.winner.value));
      }
    }
  }

  lemma PromoteWinner(d: Dispatcher, cid: Cid, s: Session)
    requires Good(d) && Confirmed(s, cid, d.config) && cid !in d.established
    ensures var e := Promote(Collect(d, s, cid), cid, Emptied(s)); Good(e) && StillThere(d, e, {})
  {
    hide Good, StillThere;
    var queued := Collect(d, s, cid);
    SameTablesKeeps(d, queued);
    PromoteKeeps(queued, cid, Emptied(s));
    StillThereTrans(d, queued, Promote(queued, cid, Emptied(s)), {});
  }

  lemma DeliverToEstablishedKeeps(d: Dispatcher, cid: Cid, pdu: Pdu, now: real, keys: Keys, coins: Coins)
    requires Good(d) && cid in d.established
    ensures var v := Deliver(d, d.established[cid], pdu, now, keys, coins, cid);
            var e := v.d.(established := v.d.established[cid := v.s]);
            Good(e) && StillThere(d, e, {})
  {
    hide Update, Good, StillThere;
    assert Confirmed(d.established[cid], cid, d.config) by { GoodEstablished(d, cid); }
    CrankConfirmed(d.established[cid], cid, d.config, [pdu], now, keys, coins);
    var v := Deliver(d, d.established[cid], pdu, now, keys, coins, cid);
    SameTablesKeeps(d, v.d);
    PutEstablishedKeeps(v.d, cid, v.s);
    StillThereTrans(d, v.d, v.d.(established := v.d.established[cid := v.s]), {});
  }

  lemma GoodEstablished(d: Dispatcher, cid: Cid)
    requires Good(d) && cid in d.established
    ensures Confirmed(d.established[cid], cid, d.config)
  {
  }

  lemma PostPduKeeps(d: Dispatcher, pdu: Pdu, now: real, keys: Keys, coins: Coins)
    requires Good(d)
    ensures var o := PostPduTo(d, pdu, now, keys, coins); Good(o.d) && StillThere(d, o.d, {})
  {
    hide Deliver, RouteInitRequest, RouteInitResponse, RouteToForks, DeliverToResponder, Good;
    if pdu.Pdu? {
      var cid := pdu.cid;
      if cid in d.established {
        DeliverToEstablishedKeeps(d, cid, pdu, now, keys, coins);
      } else if pdu.payload.SessionInitRequest? {
        RouteInitRequestKeeps(d, cid, pdu, now, keys, coins);
      } else if pdu.payload.SessionInitResponse? {
        RouteInitResponseKeeps(d, cid, pdu, now, keys, coins);
      } else if cid in d.responders {
        DeliverToResponderKeeps(d, cid, pdu, now, keys, coins);
      } else {
        RouteToForksKeeps(d, cid, pdu, now, keys, coins);
      }
    }
  }

  // ---- the other operations -----------------------------------------------------------------------------------------

  /** The cid of a new handshake is a fresh random one. */
  lemma InitiateKeeps(d: Dispatcher, own: KeyId, peer: KeyId, now: real, keys: Keys, cid: Cid, coins: Coins)
    requires Good(d) && cid !in d.established && !Pending(d, cid)
    ensures var o := InitiateAt(d, own, peer, now, keys, cid, coins); Good(o.d) && StillThere(d, o.d, {})
  {
    var step := Initiate(New(Initiator, Some(own), d.config), peer, now, keys, cid, coins);
    assert step.error.None? ==> Waiting(Emptied(step.next), cid, d.config);
    hide Valid, Confirmed, Answering, Waiting, Initiate, Competing;
  }

  lemma PostPayloadKeeps(d: Dispatcher, cid: Cid, payload: Bytes)
    requires Good(d)
    ensures Good(PostPayloadTo(d, cid, payload)) && StillThere(d, PostPayloadTo(d, cid, payload), {})
  {
    hide Valid;
    if cid in d.established {
      PutEstablishedKeeps(d, cid, PostPayload(d.established[cid], payload));
    } else if cid in d.responders {
      PutResponderKeeps(d, cid, PostPayload(d.responders[cid], payload));
    } else if cid in d.templates {
      var fs := PostPayloadToAll(d.forks[cid], payload);
      PayloadKeepsForks(d.forks[cid], payload, cid, d.config);
      PutForksKeeps(d, cid, fs);
      var e := d.(forks := d.forks[cid := fs]);
      hide Good, StillThere, Waiting;
      PutTemplateKeeps(e, cid, payload);
      StillThereTrans(d, e, e.(templates := e.templates[cid := PostPayload(e.templates[cid], payload)]), {});
    }
  }

  lemma PutTemplateKeeps(d: Dispatcher, cid: Cid, payload: Bytes)
    requires Good(d) && cid in d.templates
    ensures var e := d.(templates := d.templates[cid := PostPayload(d.templates[cid], payload)]);
            Good(e) && StillThere(d, e, {})
  {
    hide Valid, Confirmed, Answering, GoodForks;
  }

  lemma PayloadKeepsForks(fs: seq<Session>, payload: Bytes, cid: Cid, config: Config)
    requires GoodForks(fs, cid, config)
    ensures GoodForks(PostPayloadToAll(fs, payload), cid, config)
  {
    forall f | f in PostPayloadToAll(fs, payload) ensures Competing(f, cid, config) {
      var i :| 0 <= i < |fs| && f == PostPayload(fs[i], payload);
      assert fs[i] in fs;
    }
  }

  lemma CloseKeeps(d: Dispatcher, cid: Cid)
    requires Good(d)
    ensures Good(Close(d, cid)) && StillThere(d, Close(d, cid), {cid})
  {
    hide Valid;
  }
}
