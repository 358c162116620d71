/** The session as the object it is: fields updated in place, one method an operation. Every method
    is proved to take the object exactly where SessionModel says, so what SessionRuns and
    SessionProgress prove of runs holds of the object. */
module SessionObject {
  import opened Base
  import opened Crypto
  import M = SessionModel
  import P = SessionProgress
  import R = SessionRuns

  class Session {
    const role: M.Role
    const ownKeyId: Option<KeyId>
    const config: M.Config

    var state: M.State
    var cid: Option<M.Cid>
    var lastReceived: Option<M.Pdu>
    var lastSent: Option<M.Pdu>
    var attemptCount: nat
    var deadline: Option<real>
    var outgoingPdus: seq<M.Pdu>
    var outgoingPayloads: seq<Bytes>
    var pendingPayload: Option<Bytes>

    var handshake: M.Handshake  // the values the exchange fills in as it progresses
    var sessionKeys: Option<SessionKeys>
    var seqA2b: nat
    var seqB2a: nat
    var sentPlain: Option<Bytes>
    var incomingQueue: seq<M.Pdu>

    // everything put out and encrypted since the object was made, and the duplicates it was shown
    ghost var past: M.Output
    ghost var duplicates: nat

    // how the object started and what has been done with it since
    ghost const origin: M.Session
    ghost var log: seq<R.Event>

    ghost function Model(): M.Session
      reads this
    {
      M.Session(role, ownKeyId, config, state, cid, lastReceived, lastSent, attemptCount, deadline,
                outgoingPdus, outgoingPayloads, pendingPayload, handshake,
                sessionKeys, seqA2b, seqB2a, sentPlain, incomingQueue)
    }

    ghost function Past(): R.History
      reads this
    {
      R.History(Model(), past.pdus, past.payloads, past.seals, duplicates)
    }

    /** The object is where its log has led it from its start. */
    ghost predicate Valid()
      reads this
    {
      && P.Starting(origin) && origin.role == role && origin.ownKeyId == ownKeyId && origin.config == config
      && Past() == R.Run(R.Begin(origin), log)
    }

    /** Of any object, whatever has been done with it: everything it has put out keeps to the grammar of
        its role, and everything it has encrypted is numbered 0, 1, 2, ... under one key and IV. */
    lemma OutputIsWellBehaved()
      requires Valid()
      ensures P.WellBehaved(origin, Past()) && Past().trace == past.pdus
      ensures R.Numbered(Model(), past.seals)
    {
      hide R.Run, P.WellBehaved, R.Numbered, P.Starting;
      P.RunsAreWellBehaved(origin, log);
    }

    /** An operation that has led where its event leads keeps the object valid once it is logged. */
    twostate lemma OperationIsAStep(e: R.Event)
      requires old(Valid()) && log == old(log) && Past() == R.Next(old(Past()), e)
      ensures Past() == R.Run(R.Begin(origin), log + [e])
    {
      hide R.Next, R.Run;
      R.RunExtend(R.Begin(origin), log, e);
    }

    /** Where a crank or a first step has led, said by its output and as an event of a run. */
    twostate lemma LoggedIsNext(e: R.Event)
      requires e.Crank? ==>
        var c := M.Update(old(Model()), e.now, e.keys, e.coins);
        && Model() == c.next
        && Logged(old(log), old(past), old(duplicates) + (if R.DuplicateNext(old(Model())) then 1 else 0), c.out)
      requires e.Initiate? ==>
        var step := M.Initiate(old(Model()), e.peer, e.at, e.keys, e.cid, e.coins);
        Model() == step.next && Logged(old(log), old(past), old(duplicates), step.out)
      ensures e.Crank? || e.Initiate? ==> Past() == R.Next(old(Past()), e)
    {
      hide M.Update, M.Initiate;
    }

    ghost predicate Logged(events: seq<R.Event>, before: M.Output, seen: nat, out: M.Output)
      reads this
    {
      log == events && past == M.Then(before, out) && duplicates == seen
    }

    constructor (role: M.Role, ownKeyId: Option<KeyId>, config: M.Config)
      ensures Past() == R.Begin(M.New(role, ownKeyId, config))
      ensures Valid() && origin == Model() && log == []
    {
      this.role, this.ownKeyId, this.config := role, ownKeyId, config;
      state, cid, lastReceived, lastSent, attemptCount, deadline := M.Initial, None, None, None, 0, None;
      outgoingPdus, outgoingPayloads, pendingPayload := [], [], None;
      handshake, sessionKeys, seqA2b, seqB2a, sentPlain, incomingQueue := M.NO_HANDSHAKE, None, 0, 0, None, [];
      past, duplicates := M.NOTHING, 0;
      origin, log := M.New(role, ownKeyId, config), [];
    }

    /** A new object with the pre-response state of another and everything else as constructed. */
    constructor Sibling(source: Session)
      requires source.Valid() && M.Fork(source.Model()).Ok?
      ensures Past() == R.Begin(M.New(source.role, source.ownKeyId, source.config).(
                state := M.ExpectInitResponse, cid := source.cid,
                hs := M.NO_HANDSHAKE.(peerKeyId := source.handshake.peerKeyId, ephemeral := source.handshake.ephemeral,
                                      ephemeralPublic := source.handshake.ephemeralPublic, s1 := source.handshake.s1),
                lastSent := source.lastSent, attempts := source.attemptCount, deadline := source.deadline,
                pending := source.pendingPayload))
      ensures M.Fork(source.Model()) == Ok(Model())
      ensures Valid() && origin == Model() && log == []
    {
      P.ForksStart(source.origin, source.log);
      role, ownKeyId, config := source.role, source.ownKeyId, source.config;
      state, cid, lastReceived, lastSent := M.ExpectInitResponse, source.cid, None, source.lastSent;
      attemptCount, deadline, outgoingPdus, outgoingPayloads := source.attemptCount, source.deadline, [], [];
      pendingPayload := source.pendingPayload;
      var h := source.handshake;
      handshake := M.NO_HANDSHAKE.(peerKeyId := h.peerKeyId, ephemeral := h.ephemeral,
                                   ephemeralPublic := h.ephemeralPublic, s1 := h.s1);
      sessionKeys, seqA2b, seqB2a, sentPlain, incomingQueue := None, 0, 0, None, [];
      past, duplicates := M.NOTHING, 0;
      origin, log := M.Fork(source.Model()).value, [];
    }

    // ---- push in, pull out ------------------------------------------------------------------------

    method PostPdu(pdu: M.Pdu)
      requires Valid()
      modifies this
      ensures Past() == R.Next(old(Past()), R.Post(pdu))
      ensures Valid() && log == old(log) + [R.Post(pdu)]
    {
      incomingQueue := incomingQueue + [pdu];
      OperationIsAStep(R.Post(pdu));
      log := log + [R.Post(pdu)];
    }

    /** False is ValueError: an empty payload. */
    method PostPayload(payload: Bytes) returns (ok: bool)
      requires Valid()
      modifies this
      ensures ok <==> payload != []
      ensures Past() == R.Next(old(Past()), R.Offer(payload))
      ensures Valid() && log == old(log) + [R.Offer(payload)]
    {
      ok := payload != [];
      if ok {
        pendingPayload := Some(payload);
      }
      OperationIsAStep(R.Offer(payload));
      log := log + [R.Offer(payload)];
    }

    /** None is IndexError. */
    method GetPdu() returns (pdu: Option<M.Pdu>)
      requires Valid()
      modifies this
      ensures pdu == (if old(outgoingPdus) == [] then None else Some(old(outgoingPdus)[0]))
      ensures Past() == R.Next(old(Past()), R.TakePdu)
      ensures Valid() && log == old(log) + [R.TakePdu]
    {
      pdu := None;
      if outgoingPdus != [] {
        pdu := Some(outgoingPdus[0]);
        outgoingPdus := outgoingPdus[1..];
      }
      OperationIsAStep(R.TakePdu);
      log := log + [R.TakePdu];
    }

    method GetPayload() returns (payload: Option<Bytes>)
      requires Valid()
      modifies this
      ensures payload == (if old(outgoingPayloads) == [] then None else Some(old(outgoingPayloads)[0]))
      ensures Past() == R.Next(old(Past()), R.TakePayload)
      ensures Valid() && log == old(log) + [R.TakePayload]
    {
      payload := None;
      if outgoingPayloads != [] {
        payload := Some(outgoingPayloads[0]);
        outgoingPayloads := outgoingPayloads[1..];
      }
      OperationIsAStep(R.TakePayload);
      log := log + [R.TakePayload];
    }

    // ---- lifecycle ------------------------------------------------------------------------------------

    method Initiate(peer: KeyId, now: real, keys: M.Keys, freshCid: M.Cid, coins: M.Coins)
      returns (error: Option<M.Error>)
      requires Valid()
      modifies this
      ensures var step := M.Initiate(old(Model()), peer, now, keys, freshCid, coins);
              Model() == step.next && past == M.Then(old(past), step.out) && error == step.error
      ensures Valid() && log == old(log) + [R.Initiate(peer, now, keys, freshCid, coins)]
    {
      hide M.Initiate, R.Next, R.Run, P.Starting;
      ghost var e := R.Initiate(peer, now, keys, freshCid, coins);
      error := BeginHandshake(peer, now, keys, freshCid, coins);
      LoggedIsNext(e);
      OperationIsAStep(e);
      log := log + [e];
    }

    method BeginHandshake(peer: KeyId, now: real, keys: M.Keys, freshCid: M.Cid, coins: M.Coins)
      returns (error: Option<M.Error>)
      modifies this
      ensures var step := M.Initiate(old(Model()), peer, now, keys, freshCid, coins);
              Model() == step.next && Logged(old(log), old(past), old(duplicates), step.out) && error == step.error
    {
      hide M.InitiateWith, M.Then;
      M.ThenNothing(past);
      if role != M.Initiator || state != M.Initial {
        return Some(M.SessionError);
      }
      cid := Some(freshCid);
      handshake := handshake.(peerKeyId := Some(peer));
      if peer !in keys.publics || !KnownLevel(config.kemLevel) {
        return Some(M.Escaped);
      }
      error := RequestFrom(peer, keys.publics[peer], now, freshCid, coins);
    }

    /** The rest of it, with the peer's static key looked up. */
    method RequestFrom(peer: KeyId, peerPublic: PublicKey, now: real, freshCid: M.Cid, coins: M.Coins)
      returns (error: Option<M.Error>)
      modifies this
      ensures var step := M.InitiateWith(old(Model()), peer, peerPublic, now, freshCid, coins);
              Model() == step.next && Logged(old(log), old(past), old(duplicates), step.out) && error == step.error
    {
      hide M.InitRequest, M.Then;
      M.ThenNothing(past);
      handshake := handshake.(ephemeral := Some(coins.ephemeral),
                              ephemeralPublic := Some(PublicKey(coins.ephemeral, config.kemLevel)));
      if !KnownLevel(peerPublic.level) {
        return Some(M.Escaped);
      }
      handshake := handshake.(s1 := Some(Shared(peerPublic, coins.encap1)));
      if ownKeyId.None? || config.acceptableAeads == [] {
        return Some(M.Escaped);
      }
      assert M.InitiateWith(old(Model()), peer, peerPublic, now, freshCid, coins).error.None?;
      var pdu := M.InitRequest(freshCid, peer, peerPublic, ownKeyId.value, config, coins);
      Advance(lastReceived, Some(pdu), 0, Some(now + config.retryInterval), M.ExpectInitResponse);
      past := M.Then(past, M.Output([pdu], [], []));
      return None;
    }

    /** The twin is a new object; this one is not touched. */
    method Fork() returns (twin: Session?, error: Option<M.Error>)
      requires Valid()
      ensures error.Some? ==> twin == null && M.Fork(Model()) == Err(error.value)
      ensures error.None? ==> twin != null && fresh(twin) && M.Fork(Model()) == Ok(twin.Model())
      ensures twin != null ==> twin.Past() == R.Begin(twin.Model()) && twin.Valid()
    {
      if role != M.Initiator || state != M.ExpectInitResponse {
        return null, Some(M.SessionError);
      }
      twin := new Session.Sibling(this);
      error := None;
    }

    // ---- the crank --------------------------------------------------------------------------------------

    method Update(now: real, keys: M.Keys, coins: M.Coins) returns (result: M.CrankResult)
      requires Valid()
      modifies this
      ensures var c := M.Update(old(Model()), now, keys, coins);
              Model() == c.next && past == M.Then(old(past), c.out) && result == c.result
      ensures result.Returned? && state != M.Dropped ==>
                P.Announces(result.ready, |outgoingPayloads|, |outgoingPdus|)
      ensures Valid() && log == old(log) + [R.Event.Crank(now, keys, coins)]
    {
      P.ReadyTells(Model(), now, keys, coins);
      hide M.Update, R.Next, R.Run, P.Starting;
      ghost var e := R.Event.Crank(now, keys, coins);
      result := TakeTurn(now, keys, coins);
      LoggedIsNext(e);
      OperationIsAStep(e);
      log := log + [e];
    }

    method TakeTurn(now: real, keys: M.Keys, coins: M.Coins) returns (result: M.CrankResult)
      modifies this
      ensures var c := M.Update(old(Model()), now, keys, coins);
              && Model() == c.next && result == c.result
              && Logged(old(log), old(past), old(duplicates) + (if R.DuplicateNext(old(Model())) then 1 else 0), c.out)
    {
      hide M.TakeIncoming, M.SendPending, M.CheckTimeout, M.Then, M.Report;
      M.ThenNothing(past);
      ghost var a := M.TakeIncoming(Model(), now, keys, coins);
      ghost var b := M.SendPending(a.next);
      ghost var c := M.CheckTimeout(b.next, now);
      M.ThenAssociates(past, a.out, b.out);
      M.ThenAssociates(past, M.Then(a.out, b.out), c.out);
      if state == M.Dropped {
        return M.Returned(M.SessionDropped, M.Never);
      }
      if R.DuplicateNext(Model()) {
        duplicates := duplicates + 1;
      }
      var error := TakeIncoming(now, keys, coins);
      if error.Some? {
        return M.Raised(error.value);
      }
      error := SendPending();
      if error.Some? {
        return M.Raised(error.value);
      }
      CheckTimeout(now);
      result := Report(now);
    }

    method TakeIncoming(now: real, keys: M.Keys, coins: M.Coins) returns (error: Option<M.Error>)
      modifies this
      ensures var step := M.TakeIncoming(old(Model()), now, keys, coins);
              Model() == step.next && Logged(old(log), old(past), old(duplicates), step.out) && error == step.error
    {
      hide M.ProcessIncoming, M.Then;
      M.ThenNothing(past);
      error := None;
      if incomingQueue != [] {
        var incoming := incomingQueue[0];
        incomingQueue := incomingQueue[1..];
        error := ProcessIncoming(incoming, now, keys, coins);
      }
    }

    method SendPending() returns (error: Option<M.Error>)
      modifies this
      ensures var step := M.SendPending(old(Model()));
              Model() == step.next && Logged(old(log), old(past), old(duplicates), step.out) && error == step.error
    {
      hide M.SendEstablishedPayload, M.Then;
      M.ThenNothing(past);
      error := None;
      if state == M.Established && pendingPayload.Some? {
        error := SendEstablishedPayload();
      }
    }

    method CheckTimeout(now: real)
      modifies this
      ensures var step := M.CheckTimeout(old(Model()), now);
              Model() == step.next && Logged(old(log), old(past), old(duplicates), step.out)
    {
      hide M.OnTimeout, M.Then;
      M.ThenNothing(past);
      if deadline.Some? && now >= deadline.value && state != M.Established && state != M.Initial {
        OnTimeout(now);
      }
    }

    method Report(now: real) returns (result: M.CrankResult)
      ensures result == M.Report(Model(), now)
    {
      if state == M.Dropped {
        return M.Returned(M.SessionDropped, M.Never);
      }
      var next := if deadline.Some? then deadline.value else now + config.retryInterval;
      return M.Returned(M.NextUpdateResult(outgoingPayloads != [], outgoingPdus != []), M.At(next));
    }

    /** The single slots for what was last received and sent, and the count of attempts since. */
    method Remember(received: Option<M.Pdu>, sent: Option<M.Pdu>, attempts: nat)
      modifies this
      ensures Model() == old(Model()).(lastReceived := received, lastSent := sent, attempts := attempts)
      ensures log == old(log) && past == old(past) && duplicates == old(duplicates)
    {
      lastReceived, lastSent, attemptCount := received, sent, attempts;
    }

    method Send(pdu: M.Pdu)
      modifies this
      ensures Model() == old(Model()).(outPdus := old(outgoingPdus) + [pdu])
      ensures log == old(log) && past == old(past) && duplicates == old(duplicates)
    {
      outgoingPdus := outgoingPdus + [pdu];
    }

    /** A transition overwrites the slots, and sends what there is to send. */
    method Advance(received: Option<M.Pdu>, sent: Option<M.Pdu>, attempts: nat, until: Option<real>, next: M.State)
      modifies this
      ensures Model() == old(Model()).(
                lastReceived := received, lastSent := sent, attempts := attempts, deadline := until, state := next,
                outPdus := if sent.Some? then old(outgoingPdus) + [sent.value] else old(outgoingPdus))
      ensures log == old(log) && past == old(past) && duplicates == old(duplicates)
    {
      Remember(received, sent, attempts);
      deadline, state := until, next;
      if sent.Some? {
        Send(sent.value);
      }
    }

    /** Adopting session keys starts the initiator's numbering behind its first encryption. */
    method Adopt(h: M.Handshake, keys: SessionKeys)
      modifies this
      ensures Model() == old(Model()).(hs := h, keys := Some(keys), seqA2b := 1)
      ensures log == old(log) && past == old(past) && duplicates == old(duplicates)
    {
      handshake, sessionKeys, seqA2b := h, Some(keys), 1;
    }

    method OnTimeout(now: real)
      modifies this
      ensures var step := M.OnTimeout(old(Model()), now);
              Model() == step.next && Logged(old(log), old(past), old(duplicates), step.out)
    {
      hide M.Then;
      M.ThenNothing(past);
      if role == M.Responder || attemptCount >= config.maxRetries {
        state := M.Dropped;
        return;
      }
      attemptCount := attemptCount + 1;
      deadline := Some(now + config.retryInterval);
      if lastSent.Some? {
        outgoingPdus := outgoingPdus + [lastSent.value];
        past := M.Then(past, M.Output([lastSent.value], [], []));
      }
    }

    method ProcessIncoming(pdu: M.Pdu, now: real, keys: M.Keys, coins: M.Coins) returns (error: Option<M.Error>)
      modifies this
      ensures var step := M.ProcessIncoming(old(Model()), pdu, now, keys, coins);
              Model() == step.next && Logged(old(log), old(past), old(duplicates), step.out) && error == step.error
    {
      error := None;
      if lastReceived == Some(pdu) {
        if lastSent.Some? {
          outgoingPdus := outgoingPdus + [lastSent.value];
          past := M.Then(past, M.Output([lastSent.value], [], []));
        }
        return;
      }
      if pdu.Malformed? {
        return;
      }
      if state == M.Initial && role == M.Responder {
        if pdu.payload.SessionInitRequest? {
          cid := Some(pdu.cid);
          error := HandleInitRequest(pdu.payload, pdu, now, keys, coins);
        }
        return;
      }
      if cid != Some(pdu.cid) {
        return;
      }
      if state == M.ExpectInitResponse && role == M.Initiator && pdu.payload.SessionInitResponse? {
        error := HandleInitResponse(pdu.payload, pdu, now, keys, coins);
      } else if state == M.ExpectCompletionRequest && role == M.Responder && pdu.payload.SessionCompletionRequest? {
        error := HandleCompletionRequest(pdu.payload, pdu);
      } else if state == M.ExpectCompletionResponse && role == M.Initiator && pdu.payload.SessionCompletionResponse? {
        error := HandleCompletionResponse(pdu.payload, pdu);
      } else if state == M.Established && pdu.payload.Message? {
        error := HandleEstablishedMessage(pdu.payload);
      } else {
        error := Some(M.UnexpectedPdu);
      }
    }

    // ---- responder handlers -------------------------------------------------------------------------------

    /** The first of our own preferences that the peer offers. */
    method ChooseAead(preferences: seq<Aead>, offered: seq<Oid>) returns (chosen: Option<Aead>)
      ensures chosen == M.ChooseAead(preferences, offered)
    {
      for i := 0 to |preferences|
        invariant M.ChooseAead(preferences, offered) == M.ChooseAead(preferences[i..], offered)
      {
        if AeadOid(preferences[i]) in offered {
          return Some(preferences[i]);
        }
      }
      return None;
    }

    method HandleInitRequest(req: M.Payload, pdu: M.Pdu, now: real, keys: M.Keys, coins: M.Coins)
      returns (error: Option<M.Error>)
      requires req.SessionInitRequest? && cid.Some?
      modifies this
      ensures var step := M.HandleInitRequest(old(Model()), req, pdu, now, keys, coins);
              Model() == step.next && Logged(old(log), old(past), old(duplicates), step.out) && error == step.error
    {
      hide AeadOid, AeadName, Decapsulate, DeriveSessionKeys, Open, M.Then;
      M.ThenNothing(past);
      if req.keyIdB !in keys.privates || req.keyIdA !in keys.publics {
        return Some(M.HandshakeFailed);
      }
      var peerPublic := keys.publics[req.keyIdA];
      var level := req.pkAStar.level;
      if !KnownLevel(level) || !KnownLevel(peerPublic.level) {
        return Some(M.Escaped);
      }
      var chosen := ChooseAead(config.acceptableAeads, req.acceptableAeads);
      if chosen.None? {
        return Some(M.HandshakeFailed);
      }
      assert M.HandleInitRequest(old(Model()), req, pdu, now, keys, coins).error.None?;
      var public := PublicKey(coins.ephemeral, level);
      var resp := M.SessionInitResponse(public, Encapsulated(req.pkAStar, coins.encap1),
                                        Encapsulated(peerPublic, coins.encap2), coins.nonce, AeadOid(chosen.value));
      var out := M.Pdu(0, cid.value, resp);
      handshake := handshake.(
        ephemeral := Some(coins.ephemeral), ephemeralPublic := Some(public),
        peerStatic := Some(peerPublic), peerKeyId := Some(req.keyIdA),
        s1 := Some(Decapsulate(keys.privates[req.keyIdB], level, req.ct1)),
        s2 := Some(Shared(req.pkAStar, coins.encap1)), s3 := Some(Shared(peerPublic, coins.encap2)),
        nB := Some(coins.nonce), chosen := chosen);
      Advance(Some(pdu), Some(out), 0, Some(now + config.ttl), M.ExpectCompletionRequest);
      past := M.Then(past, M.Output([out], [], []));
      return None;
    }

    method HandleCompletionRequest(req: M.Payload, pdu: M.Pdu) returns (error: Option<M.Error>)
      requires req.SessionCompletionRequest? && cid.Some?
      modifies this
      ensures var step := M.HandleCompletionRequest(old(Model()), req, pdu);
              Model() == step.next && Logged(old(log), old(past), old(duplicates), step.out) && error == step.error
    {
      hide AeadOid, AeadName, Decapsulate, DeriveSessionKeys, Open, M.Then;
      M.ThenNothing(past);
      var h := handshake;
      if !M.Answered(h) || !KnownLevel(config.kemLevel) {
        return Some(M.Escaped);
      }
      var s4 := Decapsulate(h.ephemeral.value, config.kemLevel, req.ct4);
      var keys := DeriveSessionKeys(req.nA, h.nB.value, h.peerKeyId.value, h.s1.value, h.s2.value, h.s3.value, s4,
                                    h.chosen.value);
      var plain := Open(keys.aead, keys.keyA2b, keys.ivA2b, 0, cid.value, req.cM);
      if plain.None? {
        return Some(M.HandshakeFailed);
      }
      assert M.HandleCompletionRequest(old(Model()), req, pdu).error.None?;
      var reply := SealReply(keys, cid.value);
      outgoingPayloads := outgoingPayloads + M.NonEmpty(plain.value);
      var out := M.Pdu(0, cid.value, M.SessionCompletionResponse(Sha256(plain.value), reply));
      Adopt(h.(nA := Some(req.nA), s4 := Some(s4)), keys);
      Advance(Some(pdu), Some(out), attemptCount, None, M.Established);
      past := M.Then(past, M.Output([out], M.NonEmpty(plain.value), if reply.Some? then [reply.value] else []));
      return None;
    }

    /** A waiting payload rides along with the completion response. */
    method SealReply(keys: SessionKeys, ad: Bytes) returns (reply: Option<Sealed>)
      modifies this
      ensures reply == (if old(pendingPayload).None? then None
                        else Some(Seal(keys.aead, keys.keyB2a, keys.ivB2a, 0, ad, old(pendingPayload).value)))
      ensures Model() == old(Model()).(pending := None, seqB2a := if reply.None? then old(seqB2a) else 1)
      ensures log == old(log) && past == old(past) && duplicates == old(duplicates)
    {
      reply := None;
      if pendingPayload.Some? {
        reply := Some(Seal(keys.aead, keys.keyB2a, keys.ivB2a, 0, ad, pendingPayload.value));
        seqB2a := 1;
        pendingPayload := None;
      }
    }

    // ---- initiator handlers -----------------------------------------------------------------------------------

    method HandleInitResponse(resp: M.Payload, pdu: M.Pdu, now: real, keys: M.Keys, coins: M.Coins)
      returns (error: Option<M.Error>)
      requires resp.SessionInitResponse? && cid.Some?
      modifies this
      ensures var step := M.HandleInitResponse(old(Model()), resp, pdu, now, keys, coins);
              Model() == step.next && Logged(old(log), old(past), old(duplicates), step.out) && error == step.error
    {
      hide AeadOid, AeadName, Decapsulate, DeriveSessionKeys, Open, M.Then;
      M.ThenNothing(past);
      var h := handshake;
      if h.ephemeral.None? || h.s1.None? || ownKeyId.None? || !KnownLevel(config.kemLevel)
          || ownKeyId.value !in keys.privates {
        return Some(M.Escaped);
      }
      var level := config.kemLevel;
      var s2 := Decapsulate(h.ephemeral.value, level, resp.ct2);
      var s3 := Decapsulate(keys.privates[ownKeyId.value], level, resp.ct3);
      var chosen := AeadName(resp.chosenAead);
      if chosen.None? || chosen.value !in config.acceptableAeads {
        return Some(M.HandshakeFailed);
      }
      if !KnownLevel(resp.pkBStar.level) {
        return Some(M.Escaped);
      }
      assert M.HandleInitResponse(old(Model()), resp, pdu, now, keys, coins).error.None?;
      var s4, ct4 := Shared(resp.pkBStar, coins.encap1), Encapsulated(resp.pkBStar, coins.encap1);
      var sk := DeriveSessionKeys(coins.nonce, resp.nB, ownKeyId.value, h.s1.value, s2, s3, s4, chosen.value);
      var plain := TakeFalseStart();
      var cM := Seal(sk.aead, sk.keyA2b, sk.ivA2b, 0, cid.value, plain);
      var out := M.Pdu(0, cid.value, M.SessionCompletionRequest(cM, ct4, coins.nonce));
      Adopt(h.(nA := Some(coins.nonce), nB := Some(resp.nB), chosen := chosen), sk);
      Advance(Some(pdu), Some(out), 0, Some(now + config.retryInterval), M.ExpectCompletionResponse);
      past := M.Then(past, M.Output([out], [], [cM]));
      return None;
    }

    /** The false-start payload, empty when none is waiting, kept to check the peer's digest of it. */
    method TakeFalseStart() returns (plain: Bytes)
      modifies this`sentPlain, this`pendingPayload
      ensures plain == (if old(pendingPayload).Some? then old(pendingPayload).value else [])
      ensures sentPlain == Some(plain) && pendingPayload.None?
    {
      plain := if pendingPayload.Some? then pendingPayload.value else [];
      sentPlain, pendingPayload := Some(plain), None;
    }

    method HandleCompletionResponse(resp: M.Payload, pdu: M.Pdu) returns (error: Option<M.Error>)
      requires resp.SessionCompletionResponse? && cid.Some?
      modifies this
      ensures var step := M.HandleCompletionResponse(old(Model()), resp, pdu);
              Model() == step.next && Logged(old(log), old(past), old(duplicates), step.out) && error == step.error
    {
      hide M.Then;
      M.ThenNothing(past);
      if sentPlain.None? || sessionKeys.None? {
        return Some(M.Escaped);
      }
      if resp.hM != Sha256(sentPlain.value) {
        return Some(M.HandshakeFailed);
      }
      if resp.reply.Some? {
        var k := sessionKeys.value;
        var plain := Open(k.aead, k.keyB2a, k.ivB2a, 0, cid.value, resp.reply.value);
        if plain.None? {
          return Some(M.HandshakeFailed);
        }
        seqB2a := 1;
        outgoingPayloads := outgoingPayloads + [plain.value];
        past := M.Then(past, M.Output([], [plain.value], []));
      }
      Advance(Some(pdu), None, attemptCount, None, M.Established);
      return None;
    }

    // ---- established traffic -------------------------------------------------------------------------------------

    /** Encrypts under the next number of the sending direction, and counts it. */
    method SealNext(plain: Bytes) returns (ct: Sealed)
      requires sessionKeys.Some? && cid.Some?
      modifies this
      ensures log == old(log) && past == old(past) && duplicates == old(duplicates)
      ensures ct == M.SealNext(old(Model()), plain)
      ensures Model() == old(Model()).(
                seqA2b := if role == M.Initiator then old(seqA2b) + 1 else old(seqA2b),
                seqB2a := if role == M.Initiator then old(seqB2a) else old(seqB2a) + 1)
    {
      var k := sessionKeys.value;
      if role == M.Initiator {
        ct := Seal(k.aead, k.keyA2b, k.ivA2b, seqA2b, cid.value, plain);
        seqA2b := seqA2b + 1;
      } else {
        ct := Seal(k.aead, k.keyB2a, k.ivB2a, seqB2a, cid.value, plain);
        seqB2a := seqB2a + 1;
      }
    }

    method SendEstablishedPayload() returns (error: Option<M.Error>)
      requires pendingPayload.Some?
      modifies this
      ensures var step := M.SendEstablishedPayload(old(Model()));
              Model() == step.next && Logged(old(log), old(past), old(duplicates), step.out) && error == step.error
    {
      hide M.Then;
      M.ThenNothing(past);
      var payload := pendingPayload.value;
      pendingPayload := None;
      var seqno := if role == M.Initiator then seqA2b else seqB2a;
      if sessionKeys.None? || cid.None? || seqno >= SEQ_LIMIT {
        return Some(M.Escaped);
      }
      var ct := SealNext(payload);
      Send(M.Pdu(0, cid.value, M.Message(seqno, ct)));
      past := M.Then(past, M.Output([M.Pdu(0, cid.value, M.Message(seqno, ct))], [], [ct]));
      return None;
    }

    method HandleEstablishedMessage(msg: M.Payload) returns (error: Option<M.Error>)
      requires msg.Message? && cid.Some?
      modifies this
      ensures var step := M.HandleEstablishedMessage(old(Model()), msg);
              Model() == step.next && Logged(old(log), old(past), old(duplicates), step.out) && error == step.error
    {
      hide M.Then;
      M.ThenNothing(past);
      if sessionKeys.None? {
        return Some(M.Escaped);
      }
      var k := sessionKeys.value;
      var expected, key, iv := seqA2b, k.keyA2b, k.ivA2b;
      if role == M.Initiator {
        expected, key, iv := seqB2a, k.keyB2a, k.ivB2a;
      }
      if msg.seqno != expected {
        return Some(M.HandshakeFailed);
      }
      if expected >= SEQ_LIMIT {
        return Some(M.Escaped);
      }
      var plain := Open(k.aead, key, iv, expected, cid.value, msg.m);
      if plain.None? {
        return Some(M.Escaped);
      }
      if role == M.Initiator {
        seqB2a := seqB2a + 1;
      } else {
        seqA2b := seqA2b + 1;
      }
      outgoingPayloads := outgoingPayloads + [plain.value];
      past := M.Then(past, M.Output([], [plain.value], []));
      return None;
    }
  }
}
