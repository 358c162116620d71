/** What a dispatcher can give reasons for: the confirmations it has put out, and the keys its sessions
    hold, in any run against any input. */
module DispatcherReasons {
  import opened Base
  import opened Crypto
  import opened SessionModel
  import opened SessionFacts
  import opened Candidates
  import opened DispatcherModel
  import opened DispatcherInvariant
  import opened DispatcherCrank
  import opened DispatcherRuns

  // ---- what is known of a dispatcher --------------------------------------------------------------------

  /** All a dispatcher has put out and been given so far, and the keys its sessions have been confirmed
      with, by cid. */
  datatype Account = Account(sent: set<Pdu>, got: set<Pdu>, confirmed: set<(Cid, SessionKeys)>)

  predicate Grows(x: Account, y: Account) {
    x.sent <= y.sent && x.got <= y.got && x.confirmed <= y.confirmed
  }

  /** All of one derivation, which one of them tells. */
  predicate Derivation(k: SessionKeys) {
    && k.keyB2a.purpose == KeyB2a && k.keyA2b == k.keyB2a.(purpose := KeyA2b)
    && k.ivA2b == k.keyB2a.(purpose := IvA2b) && k.ivB2a == k.keyB2a.(purpose := IvB2a)
  }

  /** A completion request that carries this false start under these keys. */
  predicate CompletesWith(p: Pdu, cid: Cid, k: SessionKeys, plain: Bytes) {
    && p.Pdu? && p.cid == cid && p.payload.SessionCompletionRequest?
    && p.payload.cM == Seal(k.aead, k.keyA2b, k.ivA2b, 0, cid, plain)
  }

  /** A confirmation of this false start, with a reply, if there is one, under these keys. */
  predicate ConfirmsWith(p: Pdu, cid: Cid, k: SessionKeys, plain: Bytes) {
    && p.Pdu? && p.cid == cid && p.payload.SessionCompletionResponse? && p.payload.hM == Sha256(plain)
    && (p.payload.reply.Some? ==>
          p.payload.reply.value.Seal?
          && p.payload.reply.value == Seal(k.aead, k.keyB2a, k.ivB2a, 0, cid, p.payload.reply.value.plain))
  }

  /** It answers a completion request that was received, by keys that a session of the cid was confirmed
      with. */
  ghost predicate Reasoned(p: Pdu, x: Account) {
    p.Pdu? && exists k, plain, c ::
      && (p.cid, k) in x.confirmed && Derivation(k)
      && c in x.got && CompletesWith(c, p.cid, k, plain) && ConfirmsWith(p, p.cid, k, plain)
  }

  /** No confirmation without a reason. */
  ghost predicate Founded(p: Pdu, x: Account) {
    p.Pdu? && p.payload.SessionCompletionResponse? ==> Reasoned(p, x)
  }

  /** Of a session filed under a cid: its confirmations have a reason; an initiator with keys has put out
      its false start under them and, once established, has been given a confirmation of it; and an
      established responder has been given a false start under its keys. */
  ghost predicate Vouched(cid: Cid, s: Session, x: Account) {
    && (forall p <- s.outPdus :: Founded(p, x))
    && (s.lastSent.Some? ==> Founded(s.lastSent.value, x))
    && (s.state == Initial || s.state == ExpectInitResponse ==> s.sentPlain.None?)
    && (s.role == Initiator && (s.state == ExpectCompletionResponse || s.state == Established) ==>
          && s.keys.Some? && Derivation(s.keys.value) && s.sentPlain.Some?
          && exists c <- x.sent :: CompletesWith(c, cid, s.keys.value, s.sentPlain.value))
    && (s.role == Initiator && s.state == Established ==>
          && s.lastReceived.Some? && s.lastReceived.value in x.got
          && ConfirmsWith(s.lastReceived.value, cid, s.keys.value, s.sentPlain.value))
    && (s.role == Responder && s.state == Established ==>
          && s.keys.Some? && Derivation(s.keys.value) && s.lastReceived.Some? && s.lastReceived.value in x.got
          && exists plain :: CompletesWith(s.lastReceived.value, cid, s.keys.value, plain))
  }

  lemma FoundedLater(p: Pdu, x: Account, y: Account)
    requires Founded(p, x) && Grows(x, y)
    ensures Founded(p, y)
  {
    if p.Pdu? && p.payload.SessionCompletionResponse? {
      var k, plain, c :| (p.cid, k) in x.confirmed && Derivation(k)
        && c in x.got && CompletesWith(c, p.cid, k, plain) && ConfirmsWith(p, p.cid, k, plain);
      assert (p.cid, k) in y.confirmed && c in y.got;
    }
  }

  lemma VouchedLater(cid: Cid, s: Session, x: Account, y: Account)
    requires Vouched(cid, s, x) && Grows(x, y)
    ensures Vouched(cid, s, y)
  {
    hide Founded, CompletesWith, ConfirmsWith, Derivation;
    forall p | p in s.outPdus ensures Founded(p, y) {
      FoundedLater(p, x, y);
    }
    if s.lastSent.Some? {
      FoundedLater(s.lastSent.value, x, y);
    }
  }

  // ---- what a crank keeps of it --------------------------------------------------------------------------

  /** A session as its table files it. */
  predicate FiledUnder(s: Session, cid: Cid) {
    s.inQueue == [] && (s.cid == Some(cid) || (s.state == Initial && s.role == Responder)) && Coherent(s)
  }

  /** What the account must hold for the keys this step comes by. */
  predicate Booked(s: Session, cid: Cid, t: Session, y: Account) {
    && (s.state == ExpectInitResponse && t.sentPlain.Some? ==>
          t.lastSent.Some? && t.lastSent.value in y.sent)
    && (s.state != Established && t.state == Established ==> t.keys.Some? && (cid, t.keys.value) in y.confirmed)
  }

  lemma CompletionVouches(cid: Cid, s: Session, pdu: Pdu, y: Account)
    requires Vouched(cid, s, y) && s.cid == Some(cid) && s.role == Responder && s.state == ExpectCompletionRequest
    requires pdu in y.got && pdu.Pdu? && pdu.cid == cid && pdu.payload.SessionCompletionRequest?
    requires var t := HandleCompletionRequest(s, pdu.payload, pdu).next; Booked(s, cid, t, y)
    ensures Vouched(cid, HandleCompletionRequest(s, pdu.payload, pdu).next, y)
  {
    var a := HandleCompletionRequest(s, pdu.payload, pdu);
    if a.error.None? {
      var k := ResponderKeys(s, pdu.payload);
      var plain := Open(k.aead, k.keyA2b, k.ivA2b, 0, cid, pdu.payload.cM).value;
      assert a.next.keys == Some(k) && Derivation(k);
      assert CompletesWith(pdu, cid, k, plain);
      var reply := a.next.lastSent.value;
      assert ConfirmsWith(reply, cid, k, plain);
      assert Founded(reply, y);
      assert a.next.outPdus == s.outPdus + [reply];
    }
  }

  lemma ResponseVouches(cid: Cid, s: Session, pdu: Pdu, y: Account, now: real, keys: Keys, coins: Coins)
    requires Vouched(cid, s, y) && s.cid == Some(cid) && s.role == Initiator && s.state == ExpectInitResponse
    requires pdu.Pdu? && pdu.cid == cid && pdu.payload.SessionInitResponse?
    requires var t := HandleInitResponse(s, pdu.payload, pdu, now, keys, coins).next; Booked(s, cid, t, y)
    ensures Vouched(cid, HandleInitResponse(s, pdu.payload, pdu, now, keys, coins).next, y)
  {
    var a := HandleInitResponse(s, pdu.payload, pdu, now, keys, coins);
    if a.error.None? {
      var request, k, plain := a.next.lastSent.value, a.next.keys.value, a.next.sentPlain.value;
      assert Derivation(k) && CompletesWith(request, cid, k, plain) && Founded(request, y);
      assert a.next.outPdus == s.outPdus + [request];
      hide CompletesWith, Derivation, Founded;
    }
  }

  lemma ConfirmationVouches(cid: Cid, s: Session, pdu: Pdu, y: Account)
    requires Vouched(cid, s, y) && s.cid == Some(cid) && s.role == Initiator && s.state == ExpectCompletionResponse
    requires pdu in y.got && pdu.Pdu? && pdu.cid == cid && pdu.payload.SessionCompletionResponse?
    ensures Vouched(cid, HandleCompletionResponse(s, pdu.payload, pdu).next, y)
  {
    hide Founded, CompletesWith, Derivation;
  }

  lemma RequestVouches(cid: Cid, s: Session, pdu: Pdu, y: Account, now: real, keys: Keys, coins: Coins)
    requires Vouched(cid, s, y) && s.role == Responder && s.state == Initial && pdu.Pdu?
    requires pdu.payload.SessionInitRequest?
    ensures Vouched(cid, HandleInitRequest(s.(cid := Some(pdu.cid)), pdu.payload, pdu, now, keys, coins).next, y)
  {
    var a := HandleInitRequest(s.(cid := Some(pdu.cid)), pdu.payload, pdu, now, keys, coins);
    if a.error.None? {
      assert a.next.outPdus == s.outPdus + [a.next.lastSent.value];
    }
  }

  /** The same session but for its slot, counters, queues, attempts and deadline, or dropped. */
  predicate SameStanding(s: Session, t: Session) {
    && t.role == s.role && t.lastSent == s.lastSent && t.lastReceived == s.lastReceived && t.keys == s.keys
    && t.sentPlain == s.sentPlain && (t.state == s.state || t.state == Dropped)
  }

  lemma StandingVouches(cid: Cid, s: Session, t: Session, y: Account)
    requires Vouched(cid, s, y) && SameStanding(s, t)
    requires forall p <- t.outPdus :: p in s.outPdus || Some(p) == s.lastSent || Founded(p, y)
    ensures Vouched(cid, t, y)
  {
    hide Founded, CompletesWith, ConfirmsWith, Derivation;
  }

  lemma TakingVouches(cid: Cid, s: Session, pdus: seq<Pdu>, y: Account, now: real, keys: Keys, coins: Coins)
    requires Vouched(cid, s, y) && FiledUnder(s, cid) && ForCid(pdus, cid) && s.state != Dropped
    requires forall p <- pdus :: p in y.got
    requires Booked(s, cid, TakeIncoming(WithInput(s, pdus), now, keys, coins).next, y)
    ensures Vouched(cid, TakeIncoming(WithInput(s, pdus), now, keys, coins).next, y)
  {
    hide HandleInitRequest, HandleInitResponse, HandleCompletionRequest, HandleCompletionResponse,
         HandleEstablishedMessage, Vouched, Coherent;
    if pdus == [] {
      assert WithInput(s, pdus) == s;
    } else {
      var pdu := pdus[0];
      assert pdu in pdus && WithInput(s, pdus).inQueue == [pdu] && [pdu][1..] == [];
      assert WithInput(s, pdus).(inQueue := []) == s;
      if s.lastReceived == Some(pdu) {
        DuplicateStands(s, pdu, now, keys, coins);
        StandingVouches(cid, s, ProcessIncoming(s, pdu, now, keys, coins).next, y);
      } else if s.state == Initial && s.role == Responder {
        if pdu.payload.SessionInitRequest? {
          RequestVouches(cid, s, pdu, y, now, keys, coins);
        }
      } else if s.state == ExpectInitResponse && s.role == Initiator && pdu.payload.SessionInitResponse? {
        ResponseVouches(cid, s, pdu, y, now, keys, coins);
      } else if s.state == ExpectCompletionRequest && s.role == Responder && pdu.payload.SessionCompletionRequest? {
        CompletionVouches(cid, s, pdu, y);
      } else if s.state == ExpectCompletionResponse && s.role == Initiator && pdu.payload.SessionCompletionResponse? {
        ConfirmationVouches(cid, s, pdu, y);
      } else if s.state == Established && pdu.payload.Message? {
        MessageStands(s, pdu);
        StandingVouches(cid, s, HandleEstablishedMessage(s, pdu.payload).next, y);
      }
    }
  }

  lemma DuplicateStands(s: Session, pdu: Pdu, now: real, keys: Keys, coins: Coins)
    requires s.lastReceived == Some(pdu)
    ensures var t := ProcessIncoming(s, pdu, now, keys, coins).next;
            SameStanding(s, t) && forall p <- t.outPdus :: p in s.outPdus || Some(p) == s.lastSent
  {
  }

  lemma MessageStands(s: Session, pdu: Pdu)
    requires s.cid.Some? && pdu.Pdu? && pdu.payload.Message?
    ensures var t := HandleEstablishedMessage(s, pdu.payload).next; SameStanding(s, t) && t.outPdus == s.outPdus
  {
  }

  lemma SendingStands(s: Session)
    ensures var t := SendPending(s).next;
            && SameStanding(s, t) && t.state == s.state
            && forall p <- t.outPdus :: p in s.outPdus || (p.Pdu? && p.payload.Message?)
  {
  }

  lemma TimeoutStands(s: Session, now: real)
    ensures var t := CheckTimeout(s, now).next;
            && SameStanding(s, t) && (s.state == Established ==> t == s)
            && forall p <- t.outPdus :: p in s.outPdus || Some(p) == s.lastSent
  {
  }

  lemma MessageIsFounded(p: Pdu, y: Account)
    requires p.Pdu? && p.payload.Message?
    ensures Founded(p, y)
  {
  }

  /** A crank of a filed session, with a PDU it has been given or none, leaves it vouched for. */
  lemma CrankVouches(cid: Cid, s: Session, pdus: seq<Pdu>, x: Account, y: Account, now: real, keys: Keys, coins: Coins)
    requires Vouched(cid, s, x) && Grows(x, y) && (s.state != Dropped ==> FiledUnder(s, cid)) && ForCid(pdus, cid)
    requires forall p <- pdus :: p in y.got
    requires Booked(s, cid, Update(WithInput(s, pdus), now, keys, coins).next, y)
    ensures var t := Update(WithInput(s, pdus), now, keys, coins).next;
            Vouched(cid, t, y) && Vouched(cid, Emptied(t), y) && forall p <- t.outPdus :: Founded(p, y)
  {
    hide TakeIncoming, SendPending, CheckTimeout, Founded, Coherent;
    VouchedLater(cid, s, x, y);
    if s.state != Dropped {
      var r := TakeIncoming(WithInput(s, pdus), now, keys, coins).next;
      SendingStands(r);
      var q := SendPending(r).next;
      TimeoutStands(q, now);
      assert Booked(s, cid, r, y);
      TakingVouches(cid, s, pdus, y, now, keys, coins);
      hide Vouched;
      forall p | p in q.outPdus ensures p in r.outPdus || Founded(p, y) {
        if p.Pdu? && p.payload.Message? {
          MessageIsFounded(p, y);
        }
      }
      StandingVouches(cid, r, q, y);
      StandingVouches(cid, q, CheckTimeout(q, now).next, y);
      OutputsFounded(cid, Update(WithInput(s, pdus), now, keys, coins).next, y);
    } else {
      StandingVouches(cid, s, WithInput(s, pdus), y);
      OutputsFounded(cid, WithInput(s, pdus), y);
    }
  }

  lemma OutputsFounded(cid: Cid, t: Session, y: Account)
    requires Vouched(cid, t, y)
    ensures Vouched(cid, Emptied(t), y) && forall p <- t.outPdus :: Founded(p, y)
  {
    hide Founded;
  }

  // ---- the dispatcher's tables -----------------------------------------------------------------------------

  /** Every session in every table is vouched for, and nothing is queued without a reason. */
  ghost predicate Vouches(d: Dispatcher, x: Account) {
    && (forall cid <- d.established :: Vouched(cid, d.established[cid], x))
    && (forall cid <- d.responders :: Vouched(cid, d.responders[cid], x))
    && (forall cid <- d.templates :: Vouched(cid, d.templates[cid], x))
    && (forall cid <- d.forks :: AllVouched(cid, d.forks[cid], x))
    && (forall p <- d.outPdus :: Founded(p, x))
  }

  ghost predicate AllVouched(cid: Cid, fs: seq<Session>, x: Account) {
    forall f <- fs :: Vouched(cid, f, x)
  }

  /** The account has what is queued, and the keys of what is established. */
  predicate Covers(y: Account, d: Dispatcher) {
    && (forall p <- d.outPdus :: p in y.sent)
    && (forall cid <- d.established | d.established[cid].keys.Some? ::
          (cid, d.established[cid].keys.value) in y.confirmed)
  }

  lemma VouchesLater(d: Dispatcher, x: Account, y: Account)
    requires Vouches(d, x) && Grows(x, y)
    ensures Vouches(d, y)
  {
    hide Vouched, Founded, Grows;
    forall cid, s | Vouched(cid, s, x) ensures Vouched(cid, s, y) {
      VouchedLater(cid, s, x, y);
    }
    forall p | p in d.outPdus ensures Founded(p, y) {
      FoundedLater(p, x, y);
    }
  }

  lemma CollectVouches(d: Dispatcher, s: Session, cid: Cid, y: Account)
    requires Vouches(d, y) && forall p <- s.outPdus :: Founded(p, y)
    ensures Vouches(Collect(d, s, cid), y)
  {
    hide Vouched, Founded;
  }

  lemma NewVouches(cid: Cid, role: Role, own: Option<KeyId>, config: Config, y: Account)
    ensures Vouched(cid, New(role, own, config), y)
  {
  }

  lemma PutEstablishedVouches(d: Dispatcher, cid: Cid, s: Session, y: Account)
    requires Vouches(d, y) && Vouched(cid, s, y)
    ensures Vouches(d.(established := d.established[cid := s]), y)
  {
    hide Vouched, Founded, AllVouched;
  }

  lemma PutResponderVouches(d: Dispatcher, cid: Cid, s: Session, y: Account)
    requires Vouches(d, y) && Vouched(cid, s, y)
    ensures Vouches(d.(responders := d.responders[cid := s]), y)
  {
    hide Vouched, Founded, AllVouched;
  }

  lemma PromoteVouches(d: Dispatcher, cid: Cid, s: Session, y: Account)
    requires Vouches(d, y) && Vouched(cid, s, y)
    ensures Vouches(Promote(d, cid, s), y)
  {
    hide Vouched, Founded, AllVouched;
  }

  lemma DropResponderVouches(d: Dispatcher, cid: Cid, y: Account)
    requires Vouches(d, y)
    ensures Vouches(DropResponder(d, cid), y)
  {
    hide Vouched, Founded, AllVouched;
  }

  lemma PutForksVouches(d: Dispatcher, cid: Cid, fs: seq<Session>, y: Account)
    requires Vouches(d, y) && AllVouched(cid, fs, y)
    ensures Vouches(d.(forks := d.forks[cid := fs]), y)
  {
    hide Vouched, Founded, AllVouched;
  }

  /** The same tables and queue, whatever the store. */
  lemma StoreAside(d: Dispatcher, store: Store, y: Account)
    ensures Vouches(d, y) <==> Vouches(d.(store := store), y)
  {
    hide Vouched, Founded;
  }

  // ---- arrivals ---------------------------------------------------------------------------------------------

  /** Delivering a PDU that is in the account to a filed session. */
  lemma DeliveryVouches(d: Dispatcher, s: Session, pdu: Pdu, now: real, keys: Keys, coins: Coins, cid: Cid, y: Account)
    requires Vouches(d, y) && Vouched(cid, s, y) && (s.state != Dropped ==> FiledUnder(s, cid))
    requires ForCid([pdu], cid) && pdu in y.got
    requires Booked(s, cid, Update(PostPdu(s, pdu), now, keys, coins).next, y)
    ensures var v := Deliver(d, s, pdu, now, keys, coins, cid);
            Vouches(v.d, y) && Vouched(cid, v.s, y) && v.d == d.(outPdus := v.d.outPdus, outPayloads := v.d.outPayloads)
  {
    hide Update, Vouched, FiledUnder, Founded, Vouches, Grows, Booked;
    assert Grows(y, y) by { GrowsRefl(y); }
    CrankVouches(cid, s, [pdu], y, y, now, keys, coins);
    CollectVouches(d, Update(PostPdu(s, pdu), now, keys, coins).next, cid, y);
  }

  lemma GrowsRefl(y: Account)
    ensures Grows(y, y)
  {
  }

  lemma EstablishedVouches(d: Dispatcher, pdu: Pdu, now: real, keys: Keys, coins: Coins, cid: Cid, y: Account)
    requires Good(d) && Vouches(d, y) && cid in d.established && ForCid([pdu], cid) && pdu in y.got
    ensures var v := Deliver(d, d.established[cid], pdu, now, keys, coins, cid);
            Vouches(v.d.(established := v.d.established[cid := v.s]), y)
  {
    var s := d.established[cid];
    assert Confirmed(s, cid, d.config) by { GoodEstablished(d, cid); }
    CrankConfirmed(s, cid, d.config, [pdu], now, keys, coins);
    assert Vouched(cid, s, y);
    hide Update, Vouched, Vouches, Founded, Good;
    DeliveryVouches(d, s, pdu, now, keys, coins, cid, y);
    var v := Deliver(d, s, pdu, now, keys, coins, cid);
    PutEstablishedVouches(v.d, cid, v.s, y);
  }

  lemma ReapVouches(d: Dispatcher, cid: Cid, y: Account)
    requires Vouches(d, y)
    ensures Vouches(ReapResponder(d, cid), y)
  {
    if cid in d.responders {
      var s := d.responders[cid];
      assert Vouched(cid, s, y);
      hide Vouched, Vouches, Founded, Promote, DropResponder;
      OutputsFounded(cid, s, y);
      CollectVouches(d, s, cid, y);
      PromoteVouches(Collect(d, s, cid), cid, Emptied(s), y);
      DropResponderVouches(d, cid, y);
    }
  }

  /** A responder comes by keys only as it is promoted. */
  lemma ResponderBooked(d: Dispatcher, s: Session, pdus: seq<Pdu>, now: real, keys: Keys, coins: Coins, cid: Cid,
                          e: Dispatcher, y: Account)
    requires Answering(s, cid, d.config) && ForCid(pdus, cid) && Covers(y, e)
    requires var t := Update(WithInput(s, pdus), now, keys, coins).next;
             t.state == Established ==> cid in e.established && e.established[cid].keys == t.keys
    ensures Booked(s, cid, Update(WithInput(s, pdus), now, keys, coins).next, y)
  {
    hide Update;
    CrankAnswering(s, cid, d.config, pdus, now, keys, coins);
  }

  lemma ResponderVouches(d: Dispatcher, pdu: Pdu, now: real, keys: Keys, coins: Coins, cid: Cid, y: Account)
    requires Good(d) && Vouches(d, y) && cid in d.responders && ForCid([pdu], cid) && pdu in y.got
    requires Covers(y, DeliverToResponder(d, cid, pdu, now, keys, coins).d)
    ensures Vouches(DeliverToResponder(d, cid, pdu, now, keys, coins).d, y)
  {
    var s := d.responders[cid];
    var e := DeliverToResponder(d, cid, pdu, now, keys, coins).d;
    GoodResponder(d, cid);
    CrankAnswering(s, cid, d.config, [pdu], now, keys, coins);
    assert Vouched(cid, s, y);
    hide Update, Vouched, Vouches, Founded, Good, Covers, Booked;
    ResponderBooked(d, s, [pdu], now, keys, coins, cid, e, y);
    DeliveryVouches(d, s, pdu, now, keys, coins, cid, y);
    var v := Deliver(d, s, pdu, now, keys, coins, cid);
    PutResponderVouches(v.d, cid, v.s, y);
    ReapVouches(v.d.(responders := v.d.responders[cid := v.s]), cid, y);
  }

  lemma InitRequestVouches(d: Dispatcher, pdu: Pdu, now: real, keys: Keys, coins: Coins, cid: Cid, y: Account)
    requires Good(d) && Vouches(d, y) && ForCid([pdu], cid) && pdu in y.got
    requires Covers(y, RouteInitRequest(d, cid, pdu, now, keys, coins).d)
    ensures Vouches(RouteInitRequest(d, cid, pdu, now, keys, coins).d, y)
  {
    hide Update, Vouched, Vouches, Founded, Good, Covers, Booked, Add, Accepts, DeliverToResponder, RecordFirstSent,
         Discard;
    var e := RouteInitRequest(d, cid, pdu, now, keys, coins).d;
    if cid in d.responders {
      ResponderVouches(d, pdu, now, keys, coins, cid, y);
    } else {
      var noted := d.(store := Add(d.store, cid, pdu, now));
      StoreAside(d, noted.store, y);
      if Accepts(d.store, cid, now) {
        var s := New(Responder, None, d.config);
        NewVouches(cid, Responder, None, d.config, y);
        CrankAnswering(s, cid, d.config, [pdu], now, keys, coins);
        ResponderBooked(d, s, [pdu], now, keys, coins, cid, e, y);
        DeliveryVouches(noted, s, pdu, now, keys, coins, cid, y);
        var v := Deliver(noted, s, pdu, now, keys, coins, cid);
        var after := v.d.(responders := v.d.responders[cid := v.s]);
        PutResponderVouches(v.d, cid, v.s, y);
        DropResponderVouches(after, cid, y);
        var recorded := RecordFirstSent(after.store, cid, v.s.lastSent);
        StoreAside(after, recorded, y);
        ReapVouches(after, cid, y);
        ReapVouches(after.(store := recorded), cid, y);
      }
    }
  }

  /** What a fork completes with, it has queued. */
  lemma CompletionIsQueued(s: Session, pdu: Pdu, now: real, keys: Keys, coins: Coins)
    requires s.state == ExpectInitResponse && s.sentPlain.None? && s.inQueue == []
    ensures var t := Update(PostPdu(s, pdu), now, keys, coins).next;
            t.sentPlain.Some? ==> t.lastSent.Some? && t.lastSent.value in t.outPdus
  {
  }

  lemma ForkVouches(cid: Cid, s: Session, y: Account)
    requires Vouched(cid, s, y) && Fork(s).Ok?
    ensures Vouched(cid, Fork(s).value, y) && Fork(s).value.sentPlain.None?
  {
    hide Founded;
  }

  lemma AppendVouched(cid: Cid, fs: seq<Session>, i: nat, f: Session, y: Account)
    requires AllVouched(cid, fs, y) && Vouched(cid, f, y)
    ensures AllVouched(cid, fs + [f], y)
    ensures i < |fs| ==> AllVouched(cid, fs[i := f], y)
  {
    hide Vouched;
  }

  /** A fork given what it has accepted already comes by nothing. */
  lemma DuplicateBooked(s: Session, pdu: Pdu, now: real, keys: Keys, coins: Coins, cid: Cid, config: Config, y: Account)
    requires Competing(s, cid, config) && ForCid([pdu], cid) && s.lastReceived == Some(pdu)
    requires pdu.payload.SessionInitResponse?
    ensures Booked(s, cid, Update(PostPdu(s, pdu), now, keys, coins).next, y)
  {
    CrankCompeting(s, cid, config, [pdu], now, keys, coins);
    hide Update;
  }

  /** A fork comes by keys as it puts out its completion. */
  lemma SpawnBooked(d: Dispatcher, s: Session, pdu: Pdu, now: real, keys: Keys, coins: Coins, cid: Cid, e: Dispatcher,
                      y: Account)
    requires Competing(s, cid, d.config) && ForCid([pdu], cid) && pdu.payload.SessionInitResponse? && s.sentPlain.None?
    requires s.state == ExpectInitResponse && Covers(y, e)
    requires var c := Update(PostPdu(s, pdu), now, keys, coins);
             !EscapesFrom(c.result) ==> forall p <- c.next.outPdus :: p in e.outPdus
    ensures Booked(s, cid, Update(PostPdu(s, pdu), now, keys, coins).next, y)
  {
    CompletionIsQueued(s, pdu, now, keys, coins);
    RaisingLearnsNothing(s, pdu, now, keys, coins);
    hide Update;
    CrankCompeting(s, cid, d.config, [pdu], now, keys, coins);
  }

  lemma RaisingLearnsNothing(s: Session, pdu: Pdu, now: real, keys: Keys, coins: Coins)
    requires s.state == ExpectInitResponse && s.inQueue == []
    ensures var c := Update(PostPdu(s, pdu), now, keys, coins); c.result.Raised? ==> c.next.sentPlain == s.sentPlain
  {
  }

  lemma InitResponseVouches(d: Dispatcher, pdu: Pdu, now: real, keys: Keys, coins: Coins, cid: Cid, y: Account)
    requires Good(d) && Vouches(d, y) && ForCid([pdu], cid) && pdu in y.got && pdu.payload.SessionInitResponse?
    requires Covers(y, RouteInitResponse(d, cid, pdu, now, keys, coins).d)
    ensures Vouches(RouteInitResponse(d, cid, pdu, now, keys, coins).d, y)
  {
    var e := RouteInitResponse(d, cid, pdu, now, keys, coins).d;
    if cid in d.templates {
      SameKeys(d);
      GoodForksAt(d, cid);
      var fs := d.forks[cid];
      assert AllVouched(cid, fs, y) && Vouched(cid, d.templates[cid], y);
      var i := MatchingFork(fs, pdu);
      if i < |fs| {
        var s := fs[i];
        assert Vouched(cid, s, y) && Competing(s, cid, d.config);
        hide Update, Vouched, Vouches, Founded, Good, Covers, Booked, AllVouched;
        DuplicateBooked(s, pdu, now, keys, coins, cid, d.config, y);
        DeliveryVouches(d, s, pdu, now, keys, coins, cid, y);
        var v := Deliver(d, s, pdu, now, keys, coins, cid);
        AppendVouched(cid, fs, i, v.s, y);
        PutForksVouches(v.d, cid, fs[i := v.s], y);
      } else {
        SpawnVouches(d, pdu, now, keys, coins, cid, y);
      }
    }
  }

  lemma SpawnVouches(d: Dispatcher, pdu: Pdu, now: real, keys: Keys, coins: Coins, cid: Cid, y: Account)
    requires Good(d) && Vouches(d, y) && ForCid([pdu], cid) && pdu in y.got && pdu.payload.SessionInitResponse?
    requires Covers(y, RouteInitResponse(d, cid, pdu, now, keys, coins).d)
    requires cid in d.templates && cid in d.forks && MatchingFork(d.forks[cid], pdu) == |d.forks[cid]|
    ensures Vouches(RouteInitResponse(d, cid, pdu, now, keys, coins).d, y)
  {
    GoodForksAt(d, cid);
    ForkedSession(d.templates[cid], cid, d.config);
    assert Vouched(cid, d.templates[cid], y);
    assert AllVouched(cid, d.forks[cid], y);
    assert Fork(d.templates[cid]).value.state == ExpectInitResponse;
    hide Update, Vouched, Vouches, Founded, Good, Covers, Booked, AllVouched, Fork, Add, Accepts, RecordSent, GoodForks;
    var e := RouteInitResponse(d, cid, pdu, now, keys, coins).d;
    var fs := d.forks[cid];
    var noted := d.(store := Add(d.store, cid, pdu, now));
    StoreAside(d, noted.store, y);
    if Accepts(d.store, cid, now) {
      var twin := Fork(d.templates[cid]).value;
      ForkVouches(cid, d.templates[cid], y);
      SpawnBooked(d, twin, pdu, now, keys, coins, cid, e, y);
      DeliveryVouches(noted, twin, pdu, now, keys, coins, cid, y);
      var v := Deliver(noted, twin, pdu, now, keys, coins, cid);
      AppendVouched(cid, fs, 0, v.s, y);
      PutForksVouches(v.d, cid, fs + [v.s], y);
      var after := v.d.(forks := v.d.forks[cid := fs + [v.s]]);
      StoreAside(after, RecordSent(after.store, cid, pdu, v.s.lastSent), y);
    }
  }

  /** A fork that has not won keeps its place among the others. */
  lemma FedFork(fs: seq<Session>, i: nat, cid: Cid, config: Config, pdu: Pdu, now: real, keys: Keys, coins: Coins)
    requires i < |fs| && GoodForks(fs, cid, config) && ForCid([pdu], cid) && !pdu.payload.SessionInitResponse?
    ensures Competing(fs[i], cid, config)
    ensures var c := Update(PostPdu(fs[i], pdu), now, keys, coins);
            && (c.result.Raised? ==> c.next.state != Established)
            && (c.next.state != Established ==> GoodForks(fs[i := c.next], cid, config))
  {
    hide Update, Coherent;
    CrankCompeting(fs[i], cid, config, [pdu], now, keys, coins);
  }

  /** Offered to forks in turn: the winner's keys are those it is promoted with. */
  lemma {:induction false} FeedingVouches(fs: seq<Session>, from: nat, cid: Cid, config: Config, pdu: Pdu, now: real,
                                          keys: Keys, coins: Coins, y: Account)
    requires from <= |fs| && GoodForks(fs, cid, config) && AllVouched(cid, fs, y)
    requires ForCid([pdu], cid) && !pdu.payload.SessionInitResponse? && pdu in y.got
    requires var f := FeedForks(fs, from, pdu, now, keys, coins);
             f.winner.Some? && f.winner.value.keys.Some? ==> (cid, f.winner.value.keys.value) in y.confirmed
    ensures var f := FeedForks(fs, from, pdu, now, keys, coins);
            AllVouched(cid, f.sessions, y) && (f.winner.Some? ==> Vouched(cid, f.winner.value, y))
    decreases |fs| - from
  {
    if from < |fs| {
      hide Update, Founded, GoodForks, Booked, Coherent;
      var s := fs[from];
      assert Vouched(cid, s, y);
      FedFork(fs, from, cid, config, pdu, now, keys, coins);
      var c := Update(PostPdu(s, pdu), now, keys, coins);
      FeedBooked(s, cid, config, pdu, now, keys, coins, y);
      hide Vouched, AllVouched;
      GrowsRefl(y);
      CrankVouches(cid, s, [pdu], y, y, now, keys, coins);
      AppendVouched(cid, fs, from, c.next, y);
      if !EscapesFrom(c.result) && c.next.state != Established {
        FeedingVouches(fs[from := c.next], from + 1, cid, config, pdu, now, keys, coins, y);
      }
    }
  }

  lemma FeedBooked(s: Session, cid: Cid, config: Config, pdu: Pdu, now: real, keys: Keys, coins: Coins, y: Account)
    requires Competing(s, cid, config) && ForCid([pdu], cid) && !pdu.payload.SessionInitResponse?
    requires s.state == ExpectInitResponse ==> s.sentPlain.None?
    requires var c := Update(PostPdu(s, pdu), now, keys, coins);
             c.result.Returned? && c.next.state == Established && c.next.keys.Some? ==>
               (cid, c.next.keys.value) in y.confirmed
    ensures Booked(s, cid, Update(PostPdu(s, pdu), now, keys, coins).next, y)
  {
    if s.state == ExpectInitResponse {
      NothingLearnt(s, cid, pdu, now, keys, coins);
    }
    hide Update;
    CrankCompeting(s, cid, config, [pdu], now, keys, coins);
  }

  lemma NothingLearnt(s: Session, cid: Cid, pdu: Pdu, now: real, keys: Keys, coins: Coins)
    requires s.state == ExpectInitResponse && s.inQueue == [] && !(pdu.Pdu? && pdu.payload.SessionInitResponse?)
    ensures Update(PostPdu(s, pdu), now, keys, coins).next.sentPlain == s.sentPlain
  {
  }

  lemma RouteToForksVouches(d: Dispatcher, pdu: Pdu, now: real, keys: Keys, coins: Coins, cid: Cid, y: Account)
    requires Good(d) && Vouches(d, y) && ForCid([pdu], cid) && pdu in y.got && !pdu.payload.SessionInitResponse?
    requires Covers(y, RouteToForks(d, cid, pdu, now, keys, coins).d)
    ensures Vouches(RouteToForks(d, cid, pdu, now, keys, coins).d, y)
  {
    if cid in d.forks {
      GoodForksAt(d, cid);
      assert AllVouched(cid, d.forks[cid], y);
      hide FeedForks, Vouched, Vouches, Founded, AllVouched, Good, GoodForks, Discard;
      FeedForksKeeps(d.forks[cid], 0, cid, d.config, pdu, now, keys, coins);
      var f := FeedForks(d.forks[cid], 0, pdu, now, keys, coins);
      assert f.winner.Some? ==>
               RouteToForks(d, cid, pdu, now, keys, coins).d.established[cid] == Emptied(f.winner.value);
      FeedingVouches(d.forks[cid], 0, cid, d.config, pdu, now, keys, coins, y);
      PutForksVouches(d, cid, f.sessions, y);
      if f.winner.Some? {
        var s := f.winner.value;
        var after := d.(forks := d.forks[cid := f.sessions]);
        OutputsFounded(cid, s, y);
        CollectVouches(after, s, cid, y);
        PromoteVouches(Collect(after, s, cid), cid, Emptied(s), y);
      }
    }
  }

  lemma ArrivalVouches(d: Dispatcher, pdu: Pdu, now: real, keys: Keys, coins: Coins, x: Account, y: Account)
    requires Good(d) && Vouches(d, x) && Grows(x, y) && pdu in y.got
    requires Covers(y, PostPduTo(d, pdu, now, keys, coins).d)
    ensures Vouches(PostPduTo(d, pdu, now, keys, coins).d, y)
  {
    hide Deliver, RouteInitRequest, RouteInitResponse, RouteToForks, DeliverToResponder, Good, Vouches, Covers;
    VouchesLater(d, x, y);
    if pdu.Pdu? {
      var cid := pdu.cid;
      if cid in d.established {
        EstablishedVouches(d, pdu, now, keys, coins, cid, y);
      } else if pdu.payload.SessionInitRequest? {
        InitRequestVouches(d, pdu, now, keys, coins, cid, y);
      } else if pdu.payload.SessionInitResponse? {
        InitResponseVouches(d, pdu, now, keys, coins, cid, y);
      } else if cid in d.responders {
        ResponderVouches(d, pdu, now, keys, coins, cid, y);
      } else {
        RouteToForksVouches(d, pdu, now, keys, coins, cid, y);
      }
    }
  }

  // ---- the crank ---------------------------------------------------------------------------------------------

  lemma QuietLearnsNothing(s: Session, now: real, keys: Keys, coins: Coins)
    requires s.inQueue == []
    ensures var t := Update(s, now, keys, coins).next;
            t.sentPlain == s.sentPlain && (t.state == Established ==> s.state == Established)
  {
  }

  /** Without input a session comes by nothing. */
  lemma QuietVouches(cid: Cid, s: Session, now: real, keys: Keys, coins: Coins, y: Account)
    requires Vouched(cid, s, y) && FiledUnder(s, cid)
    ensures var t := Update(s, now, keys, coins).next;
            Vouched(cid, t, y) && Vouched(cid, Emptied(t), y) && forall p <- t.outPdus :: Founded(p, y)
  {
    QuietLearnsNothing(s, now, keys, coins);
    assert s.state == ExpectInitResponse ==> s.sentPlain.None?;
    assert WithInput(s, []) == s;
    hide Update, Vouched, Founded, FiledUnder;
    GrowsRefl(y);
    CrankVouches(cid, s, [], y, y, now, keys, coins);
  }

  lemma CrankEstablishedVouches(t: Turn, cid: Cid, now: real, keys: Keys, coins: Coins, y: Account)
    requires Good(t.d) && Vouches(t.d, y)
    ensures Vouches(CrankEstablished(t, cid, now, keys, coins).d, y)
  {
    if !t.escaped && cid in t.d.established {
      var s := t.d.established[cid];
      GoodEstablished(t.d, cid);
      assert Vouched(cid, s, y);
      hide Update, Vouched, Vouches, Founded, Good;
      QuietVouches(cid, s, now, keys, coins, y);
      var c := Update(s, now, keys, coins);
      PutEstablishedVouches(t.d, cid, c.next, y);
      CollectVouches(t.d, c.next, cid, y);
      PutEstablishedVouches(Collect(t.d, c.next, cid), cid, Emptied(c.next), y);
    }
  }

  lemma CrankResponderVouches(t: Turn, cid: Cid, now: real, keys: Keys, coins: Coins, y: Account)
    requires Good(t.d) && Vouches(t.d, y)
    ensures Vouches(CrankResponder(t, cid, now, keys, coins).d, y)
  {
    if !t.escaped && cid in t.d.responders {
      var s := t.d.responders[cid];
      GoodResponder(t.d, cid);
      assert Vouched(cid, s, y);
      hide Update, Vouched, Vouches, Founded, Good, Coherent, Promote, DropResponder;
      QuietVouches(cid, s, now, keys, coins, y);
      var c := Update(s, now, keys, coins);
      PutResponderVouches(t.d, cid, c.next, y);
      DropResponderVouches(t.d, cid, y);
      CollectVouches(t.d, c.next, cid, y);
      var queued := Collect(t.d, c.next, cid);
      PutResponderVouches(queued, cid, Emptied(c.next), y);
      PromoteVouches(queued, cid, Emptied(c.next), y);
      DropResponderVouches(queued, cid, y);
    }
  }

  lemma {:induction false} SweepVouches(w: Sweep, from: nat, cid: Cid, config: Config, now: real, keys: Keys,
                                        coins: Coins, y: Account)
    requires from <= |w.sessions| && (forall i | from <= i < |w.sessions| :: Competing(w.sessions[i], cid, config))
    requires AllVouched(cid, w.sessions, y) && AllVouched(cid, w.surviving, y)
    requires w.winner.Some? ==> Vouched(cid, w.winner.value, y)
    ensures var v := SweepForks(w, from, now, keys, coins);
            && AllVouched(cid, v.sessions, y) && AllVouched(cid, v.surviving, y)
            && (v.winner.Some? ==> Vouched(cid, v.winner.value, y))
    decreases |w.sessions| - from
  {
    if from < |w.sessions| {
      var s := w.sessions[from];
      assert Vouched(cid, s, y) && Competing(s, cid, config);
      hide Update, Vouched, Founded, AllVouched, Coherent;
      var c := Update(s, now, keys, coins);
      if s.state == Dropped {
        DroppedStays(s, now, keys, coins);
      } else {
        QuietVouches(cid, s, now, keys, coins, y);
      }
      AppendVouched(cid, w.sessions, from, c.next, y);
      AppendVouched(cid, w.surviving, 0, c.next, y);
      var cranked := w.(sessions := w.sessions[from := c.next]);
      if !EscapesFrom(c.result) {
        if c.result.Returned? && c.next.state != Established {
          var timed := cranked.(soonest := Latest(c.result, w.soonest));
          if c.next.state == Dropped {
            SweepVouches(timed, from + 1, cid, config, now, keys, coins, y);
          } else {
            SweepVouches(timed.(surviving := w.surviving + [c.next]), from + 1, cid, config, now, keys, coins, y);
          }
        }
      }
    }
  }

  lemma DroppedStays(s: Session, now: real, keys: Keys, coins: Coins)
    requires s.state == Dropped
    ensures Update(s, now, keys, coins).next == s
  {
  }

  lemma CrankForksVouches(t: Turn, cid: Cid, now: real, keys: Keys, coins: Coins, y: Account)
    requires Good(t.d) && Vouches(t.d, y)
    ensures Vouches(CrankForks(t, cid, now, keys, coins).d, y)
  {
    if !t.escaped && cid in t.d.forks {
      GoodForksAt(t.d, cid);
      assert AllVouched(cid, t.d.forks[cid], y) && AllVouched(cid, [], y);
      hide SweepForks, Vouched, Vouches, Founded, AllVouched, Good, Competing, Discard, GoodForks, Promote;
      var w := Sweep(t.d.forks[cid], [], None, t.soonest, false);
      SweepVouches(w, 0, cid, t.d.config, now, keys, coins, y);
      var v := SweepForks(w, 0, now, keys, coins);
      PutForksVouches(t.d, cid, v.sessions, y);
      PutForksVouches(t.d, cid, v.surviving, y);
      DropForksVouches(t.d, cid, y);
      if v.winner.Some? {
        var s := v.winner.value;
        OutputsFounded(cid, s, y);
        CollectVouches(t.d, s, cid, y);
        PromoteVouches(Collect(t.d, s, cid), cid, Emptied(s), y);
      }
    }
  }

  lemma DropForksVouches(d: Dispatcher, cid: Cid, y: Account)
    requires Vouches(d, y)
    ensures Vouches(DropForks(d, cid), y)
  {
    hide Vouched, Founded, AllVouched;
  }

  lemma {:induction false} CrankAllEstablishedVouches(t: Turn, order: seq<Cid>, now: real, keys: Keys, coins: Coins,
                                                      y: Account)
    requires Good(t.d) && Vouches(t.d, y)
    ensures Vouches(CrankAllEstablished(t, order, now, keys, coins).d, y)
    decreases |order|
  {
    hide CrankEstablished, Good, Vouches, Cranking;
    if order != [] {
      CrankEstablishedVouches(t, order[0], now, keys, coins, y);
      CrankEstablishedKeeps(t, order[0], now, keys, coins);
      CrankingGood(t, CrankEstablished(t, order[0], now, keys, coins), now);
      CrankAllEstablishedVouches(CrankEstablished(t, order[0], now, keys, coins), order[1..], now, keys, coins, y);
    }
  }

  lemma {:induction false} CrankAllRespondersVouches(t: Turn, order: seq<Cid>, now: real, keys: Keys, coins: Coins,
                                                     y: Account)
    requires Good(t.d) && Vouches(t.d, y)
    ensures Vouches(CrankAllResponders(t, order, now, keys, coins).d, y)
    decreases |order|
  {
    hide CrankResponder, Good, Vouches, Cranking;
    if order != [] {
      CrankResponderVouches(t, order[0], now, keys, coins, y);
      CrankResponderKeeps(t, order[0], now, keys, coins);
      CrankingGood(t, CrankResponder(t, order[0], now, keys, coins), now);
      CrankAllRespondersVouches(CrankResponder(t, order[0], now, keys, coins), order[1..], now, keys, coins, y);
    }
  }

  lemma {:induction false} CrankAllForksVouches(t: Turn, order: seq<Cid>, now: real, keys: Keys, coins: Coins,
                                                y: Account)
    requires Good(t.d) && Vouches(t.d, y)
    ensures Vouches(CrankAllForks(t, order, now, keys, coins).d, y)
    decreases |order|
  {
    hide CrankForks, Good, Vouches, Cranking;
    if order != [] {
      CrankForksVouches(t, order[0], now, keys, coins, y);
      CrankForksKeeps(t, order[0], now, keys, coins);
      CrankingGood(t, CrankForks(t, order[0], now, keys, coins), now);
      CrankAllForksVouches(CrankForks(t, order[0], now, keys, coins), order[1..], now, keys, coins, y);
    }
  }

  lemma RefreshedVouches(d: Dispatcher, now: real, y: Account)
    requires Vouches(d, y)
    ensures Vouches(Refreshed(d, now), y)
  {
    hide Vouched, Founded, AllVouched, Expire;
  }

  lemma CrankVouchesAll(d: Dispatcher, orders: Orders, now: real, keys: Keys, coins: Coins, y: Account)
    requires Good(d) && GoodOrders(d, orders, now, keys, coins) && Vouches(d, y)
    ensures Vouches(CrankAll(d, orders, now, keys, coins).d, y)
  {
    hide Good, Vouches, Cranking, Refreshed, CrankAllEstablished, CrankAllResponders, CrankAllForks, SomeExhausted,
         Attained, ForkAttained, CoversAll, AllForksCovered;
    RefreshedKeeps(d, now);
    RefreshedVouches(d, now, y);
    var t := Turn(Refreshed(d, now), Never, false);
    var t1 := CrankAllEstablished(t, orders.established, now, keys, coins);
    CrankAllEstablishedKeeps(t, orders.established, now, keys, coins);
    CrankingGood(t, t1, now);
    CrankAllEstablishedVouches(t, orders.established, now, keys, coins, y);
    var t2 := CrankAllResponders(t1, orders.responders, now, keys, coins);
    CrankAllRespondersKeeps(t1, orders.responders, now, keys, coins);
    CrankingGood(t1, t2, now);
    CrankAllRespondersVouches(t1, orders.responders, now, keys, coins, y);
    CrankAllForksVouches(t2, orders.forks, now, keys, coins, y);
  }

  // ---- the other events ---------------------------------------------------------------------------------------

  lemma InitiateVouches(d: Dispatcher, own: KeyId, peer: KeyId, now: real, keys: Keys, cid: Cid, coins: Coins,
                        y: Account)
    requires Vouches(d, y)
    ensures Vouches(InitiateAt(d, own, peer, now, keys, cid, coins).d, y)
  {
    FirstStepVouches(New(Initiator, Some(own), d.config), peer, now, keys, cid, coins, y);
    hide Initiate, Vouched, Founded, AllVouched;
    assert AllVouched(cid, [], y) by { NoneToVouchFor(cid, y); }
  }

  lemma NoneToVouchFor(cid: Cid, y: Account)
    ensures AllVouched(cid, [], y)
  {
  }

  lemma FirstStepVouches(s: Session, peer: KeyId, now: real, keys: Keys, cid: Cid, coins: Coins, y: Account)
    requires s == New(Initiator, s.ownKeyId, s.config)
    ensures var t := Initiate(s, peer, now, keys, cid, coins).next;
            Vouched(cid, Emptied(t), y) && forall p <- t.outPdus :: Founded(p, y)
  {
  }

  lemma OfferVouches(cid: Cid, s: Session, payload: Bytes, y: Account)
    requires Vouched(cid, s, y)
    ensures Vouched(cid, PostPayload(s, payload), y)
  {
    hide Founded;
  }

  lemma PostPayloadVouches(d: Dispatcher, cid: Cid, payload: Bytes, y: Account)
    requires Vouches(d, y)
    ensures Vouches(PostPayloadTo(d, cid, payload), y)
  {
    hide Vouched, Founded, PostPayload, AllVouched;
    forall k, s | Vouched(k, s, y) ensures Vouched(k, PostPayload(s, payload), y) {
      OfferVouches(k, s, payload, y);
    }
    if cid in d.forks {
      OfferAllVouches(cid, d.forks[cid], payload, y);
    }
  }

  lemma OfferAllVouches(cid: Cid, fs: seq<Session>, payload: Bytes, y: Account)
    requires AllVouched(cid, fs, y)
    ensures AllVouched(cid, PostPayloadToAll(fs, payload), y)
  {
    hide Vouched, PostPayload;
    forall f | f in PostPayloadToAll(fs, payload) ensures Vouched(cid, f, y) {
      var i :| 0 <= i < |fs| && PostPayload(fs[i], payload) == f;
      OfferVouches(cid, fs[i], payload, y);
    }
  }

  // ---- whole runs ------------------------------------------------------------------------------------------------

  function KeysHeld(d: Dispatcher): set<(Cid, SessionKeys)> {
    set cid | cid in d.established && d.established[cid].keys.Some? :: (cid, d.established[cid].keys.value)
  }

  /** The account once the event has led to e. */
  function Noting(x: Account, ev: Event, e: Dispatcher): Account {
    Account(x.sent + (set p | p in e.outPdus), x.got + (if ev.Arrives? then {ev.pdu} else {}),
            x.confirmed + KeysHeld(e))
  }

  /** Tables that agree, and an account with a reason for all that is in it. */
  ghost predicate Accountable(d: Dispatcher, x: Account) {
    Good(d) && Vouches(d, x) && Covers(x, d) && forall p <- x.sent :: Founded(p, x)
  }

  lemma NewIsAccountable(config: Config, maxPerCid: int, maxTotal: int, ttl: real)
    requires NewStore(maxPerCid, maxTotal, ttl).Some?
    ensures Accountable(NewDispatcher(config, NewStore(maxPerCid, maxTotal, ttl).value), Account({}, {}, {}))
  {
    NewIsGood(config, maxPerCid, maxTotal, ttl);
  }

  lemma EventVouches(d: Dispatcher, x: Account, ev: Event, y: Account)
    requires Good(d) && Possible(d, ev) && Vouches(d, x) && Grows(x, y) && Covers(y, After(d, ev))
    requires ev.Arrives? ==> ev.pdu in y.got
    ensures Vouches(After(d, ev), y)
  {
    hide Good, Vouches, PostPduTo, CrankAll, InitiateAt, PostPayloadTo, Covers, Grows, GoodOrders;
    VouchesLater(d, x, y);
    match ev
    case Arrives(pdu, now, keys, coins) => ArrivalVouches(d, pdu, now, keys, coins, x, y);
    case Submits(cid, payload) => PostPayloadVouches(d, cid, payload, y);
    case Starts(own, peer, now, keys, cid, coins) => InitiateVouches(d, own, peer, now, keys, cid, coins, y);
    case Cranks(orders, now, keys, coins) => CrankVouchesAll(d, orders, now, keys, coins, y);
    case Closes(cid) => FewerVouched(d, After(d, ev), y);
    case TakesPdu => FewerVouched(d, After(d, ev), y);
    case TakesPayload => FewerVouched(d, After(d, ev), y);
  }

  lemma FewerVouched(d: Dispatcher, e: Dispatcher, y: Account)
    requires Vouches(d, y) && e.responders == d.responders && e.templates == d.templates && e.forks == d.forks
    requires forall cid <- e.established :: cid in d.established && e.established[cid] == d.established[cid]
    requires forall p <- e.outPdus :: p in d.outPdus
    ensures Vouches(e, y)
  {
    hide Vouched, Founded, AllVouched;
  }

  /** Whatever happens to a dispatcher, it stays accountable. */
  lemma EventKeepsAccountable(d: Dispatcher, x: Account, ev: Event)
    requires Accountable(d, x) && Possible(d, ev)
    ensures Accountable(After(d, ev), Noting(x, ev, After(d, ev))) && Grows(x, Noting(x, ev, After(d, ev)))
  {
    hide Good, Vouches, After, Possible, Founded;
    var e := After(d, ev);
    var y := Noting(x, ev, e);
    StepKeeps(d, ev);
    EventVouches(d, x, ev, y);
    QueueIsFounded(e, y);
    forall p | p in y.sent ensures Founded(p, y) {
      if p in x.sent {
        FoundedLater(p, x, y);
      }
    }
  }

  lemma QueueIsFounded(d: Dispatcher, y: Account)
    requires Vouches(d, y)
    ensures forall p <- d.outPdus :: Founded(p, y)
  {
  }
}
