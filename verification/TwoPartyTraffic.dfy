/** Established traffic between Alice and Bob: everything either has encrypted is on the wire, whatever
    arrives in its turn is delivered, and once all of it has, everything encrypted has been received. */
module TwoPartyTraffic {
  import opened Base
  import opened Crypto
  import opened SessionFacts
  import opened SessionModel
  import opened SessionRuns
  import opened SessionNoise
  import opened SessionInput
  import opened SessionRepeats
  import opened TwoParty

  // ---- one message ---------------------------------------------------------------------------------------

  /** The traffic PDU that carries a session's n-th encryption. */
  function TrafficOf(h: History, n: nat): Pdu
    requires n < |h.seals| && h.s.cid.Some?
  {
    Pdu(0, h.s.cid.value, Message(n, h.seals[n]))
  }

  /** The peer's numbers up to here have been received. */
  function Received(s: Session): nat {
    if s.role == Initiator then s.seqB2a else s.seqA2b
  }

  /** A crank given a message the peer has sealed under its next number delivers its plaintext and counts it. */
  lemma MessageTaken(s: Session, pdu: Pdu, plain: Bytes, now: real, keys: Keys, coins: Coins)
    requires Coherent(s) && Remembers(s) && s.state == Established && s.inQueue == []
    requires pdu.Pdu? && s.cid == Some(pdu.cid) && pdu.payload.Message? && Received(s) < SEQ_LIMIT
    requires pdu.payload.seqno == Received(s) && SealedByPeer(s, pdu.payload.m, Received(s), plain)
    ensures var c := Update(PostPdu(s, pdu), now, keys, coins);
            && c.out.payloads == [plain] && Received(c.next) == Received(s) + 1
            && c.next.outPayloads == s.outPayloads + [plain]
            && c.next.state == Established && c.next.inQueue == [] && c.next.keys == s.keys && c.next.cid == s.cid
            && c.next.role == s.role && Coherent(c.next) && Remembers(c.next)
  {
    hide HandleEstablishedMessage, SealedByPeer;
    var posted := PostPdu(s, pdu);
    assert posted.inQueue == [pdu] && [pdu][1..] == [];
    assert posted.(inQueue := []) == s;
    MessageIsDelivered(s, pdu);
    PlainIsOne(s, pdu.payload.m, Received(s), plain);
    assert TakeIncoming(posted, now, keys, coins) == HandleEstablishedMessage(s, pdu.payload);
  }

  lemma PlainIsOne(s: Session, m: Sealed, n: nat, plain: Bytes)
    requires s.keys.Some? && s.cid.Some? && SealedByPeer(s, m, n, plain)
    ensures m.Seal? && m.plain == plain
  {
  }

  /** Between two established sessions: the next of Bob's encryptions is one Alice can open. */
  lemma NextIsForAlice(w: World, st: Setup)
    requires Inv(w, st) && w.a.s.state == Established && w.a.s.seqB2a < |w.b.seals|
    ensures w.a.s.keys.Some? && w.a.s.cid.Some? && w.b.s.cid == w.a.s.cid && w.a.s.role == Initiator
    ensures SealedByPeer(w.a.s, w.b.seals[w.a.s.seqB2a], w.a.s.seqB2a, PlainOf(w.b.seals[w.a.s.seqB2a]))
    ensures w.a.s.seqB2a < SEQ_LIMIT
  {
    NumberedAt(w.b.s, w.b.seals, w.a.s.seqB2a);
  }

  lemma NextIsForBob(w: World, st: Setup)
    requires Inv(w, st) && w.b.s.state == Established && w.b.s.seqA2b < |w.a.seals|
    ensures w.b.s.keys.Some? && w.b.s.cid.Some? && w.b.s.cid == w.a.s.cid && w.b.s.role == Responder
    ensures SealedByPeer(w.b.s, w.a.seals[w.b.s.seqA2b], w.b.s.seqA2b, PlainOf(w.a.seals[w.b.s.seqA2b]))
    ensures w.b.s.seqA2b < SEQ_LIMIT
  {
    NumberedAt(w.a.s, w.a.seals, w.b.s.seqA2b);
  }

  // ---- each side by itself ---------------------------------------------------------------------------------

  function EventsOf(moves: seq<Move>, alice: bool): seq<Event>
    decreases |moves|
  {
    if moves == [] then []
    else (if moves[0].Alice? == alice then [moves[0].e] else []) + EventsOf(moves[1..], alice)
  }

  /** A run of the two is a run of each. */
  lemma {:induction false} EachRuns(w: World, moves: seq<Move>)
    ensures RunWorld(w, moves).a == Run(w.a, EventsOf(moves, true))
    ensures RunWorld(w, moves).b == Run(w.b, EventsOf(moves, false))
    decreases |moves|
  {
    hide Next;
    if moves != [] {
      EachRuns(TwoParty.Step(w, moves[0]), moves[1..]);
      var mine, others := EventsOf(moves, true), EventsOf(moves, false);
      if moves[0].Alice? {
        assert mine[0] == moves[0].e && mine[1..] == EventsOf(moves[1..], true);
        assert others == EventsOf(moves[1..], false);
      } else {
        assert others[0] == moves[0].e && others[1..] == EventsOf(moves[1..], false);
        assert mine == EventsOf(moves[1..], true);
      }
    }
  }

  /** Every encryption from this number on has gone out in a traffic PDU. */
  ghost predicate AllSent(h: History, from: nat) {
    h.s.cid.Some? && forall n | from <= n < |h.seals| :: TrafficOf(h, n) in h.trace
  }

  lemma InTraffic(h: History, from: nat, n: nat)
    requires from <= n < |h.seals| && h.s.cid.Some?
    ensures TrafficOf(h, n) in Traffic(h.s.cid.value, h.seals, from)
  {
    assert Traffic(h.s.cid.value, h.seals, from)[n - from] == TrafficOf(h, n);
  }

  lemma {:induction false} WithoutIsPart(t: seq<Pdu>, d: Pdu)
    ensures forall p :: p in Without(t, d) <==> p in t && p != d
  {
    if t != [] {
      WithoutIsPart(t[..|t| - 1], d);
      assert forall p :: p in t <==> p in t[..|t| - 1] || p == t[|t| - 1];
    }
  }

  /** An established initiator has sent all but the sealing its completion request carried. */
  lemma InitiatorSentAll(own: Option<KeyId>, config: Config, events: seq<Event>)
    requires Run(Begin(New(Initiator, own, config)), events).s.state == Established
    ensures AllSent(Run(Begin(New(Initiator, own, config)), events), 1)
  {
    hide InitiatorInv;
    var h0 := Begin(New(Initiator, own, config));
    var l := Sent(ANY_REQUEST, 0, ANY_COMPLETION, 0);
    assert InitiatorInv(h0, l, 1) by { FreshInitiator(own, config); }
    l := InitiatorRuns(h0, l, 1, events);
    EstablishedInitiatorSent(Run(h0, events), l);
  }

  lemma FreshInitiator(own: Option<KeyId>, config: Config)
    ensures InitiatorInv(Begin(New(Initiator, own, config)), Sent(ANY_REQUEST, 0, ANY_COMPLETION, 0), 1)
  {
  }

  lemma EstablishedInitiatorSent(h: History, l: Sent)
    requires InitiatorInv(h, l, 1) && h.s.state == Established
    ensures AllSent(h, 1)
  {
    hide Numbered;
    var t := Traffic(h.s.cid.value, h.seals, 1);
    forall n | 1 <= n < |h.seals| ensures TrafficOf(h, n) in h.trace {
      InTraffic(h, 1, n);
    }
  }

  /** An established responder has sent all but the sealing its confirmation carried, if that carried one. */
  lemma ResponderSentAll(own: Option<KeyId>, config: Config, events: seq<Event>, c: Pdu)
    requires var h := Run(Begin(New(Responder, own, config)), events);
             h.s.state == Established && c in h.trace && c.Pdu? && c.payload.SessionCompletionResponse?
    ensures AllSent(Run(Begin(New(Responder, own, config)), events), if c.payload.reply.Some? then 1 else 0)
  {
    hide ResponderInv;
    var h0 := Begin(New(Responder, own, config));
    var l := Replies(ANY_RESPONSE, 0, ANY_RESPONSE, [], 0);
    assert ResponderInv(h0, l) by { FreshResponder(own, config, l); }
    l := ResponderRuns(h0, l, events);
    EstablishedResponderSent(Run(h0, events), l, c);
  }

  lemma FreshResponder(own: Option<KeyId>, config: Config, l: Replies)
    ensures ResponderInv(Begin(New(Responder, own, config)), l)
  {
  }

  lemma EstablishedResponderSent(h: History, l: Replies, c: Pdu)
    requires ResponderInv(h, l) && h.s.state == Established
    requires c in h.trace && c.Pdu? && c.payload.SessionCompletionResponse?
    ensures AllSent(h, if c.payload.reply.Some? then 1 else 0)
  {
    hide Numbered;
    WithoutIsPart(l.tail, l.d);
    hide Without;
    assert c in l.tail;
    assert c == l.d;
    forall n | l.base <= n < |h.seals| ensures TrafficOf(h, n) in h.trace {
      InTraffic(h, l.base, n);
    }
  }

  // ---- what Alice has of the confirmation -------------------------------------------------------------------

  /** An established Alice remembers Bob's confirmation, and has counted its reply. */
  predicate ConfirmationKept(w: World) {
    w.a.s.state == Established ==>
      && w.a.s.lastReceived.Some? && w.a.s.lastReceived.value in w.b.trace
      && var c := w.a.s.lastReceived.value;
         c.Pdu? && c.payload.SessionCompletionResponse? && (c.payload.reply.Some? ==> w.a.s.seqB2a >= 1)
  }

  lemma TakingConfirms(s: Session, now: real, keys: Keys, coins: Coins)
    requires s.role == Initiator && s.state != Dropped && s.state != ExpectCompletionRequest
    ensures var a := TakeIncoming(s, now, keys, coins).next;
            a.state == Established ==>
              if s.state == Established then a.lastReceived == s.lastReceived && a.seqB2a >= s.seqB2a
              else
                && s.inQueue != [] && a.lastReceived == Some(s.inQueue[0]) && s.inQueue[0].Pdu?
                && s.inQueue[0].payload.SessionCompletionResponse?
                && (s.inQueue[0].payload.reply.Some? ==> a.seqB2a == 1)
  {
    hide HandleInitResponse, HandleInitRequest, HandleCompletionRequest;
    if s.inQueue != [] && s.cid.Some? && s.inQueue[0].Pdu? && s.inQueue[0].payload.SessionInitResponse? {
      AnswerStep(s.(inQueue := s.inQueue[1..]), s.inQueue[0], now, keys, coins);
    }
  }

  lemma SendingConfirms(s: Session, now: real)
    requires s.role == Initiator
    ensures var b := SendPending(s).next;
            b.state == s.state && b.lastReceived == s.lastReceived && b.seqB2a == s.seqB2a && b.role == s.role
    ensures var c := CheckTimeout(s, now).next;
            (c.state == s.state || c.state == Dropped) && c.lastReceived == s.lastReceived && c.seqB2a == s.seqB2a
  {
  }

  lemma CrankConfirms(s: Session, now: real, keys: Keys, coins: Coins)
    requires s.role == Initiator && s.state != ExpectCompletionRequest
    ensures var a := Update(s, now, keys, coins).next;
            a.state == Established ==>
              if s.state == Established then a.lastReceived == s.lastReceived && a.seqB2a >= s.seqB2a
              else
                && s.inQueue != [] && a.lastReceived == Some(s.inQueue[0]) && s.inQueue[0].Pdu?
                && s.inQueue[0].payload.SessionCompletionResponse?
                && (s.inQueue[0].payload.reply.Some? ==> a.seqB2a >= 1)
  {
    hide TakeIncoming, SendPending, CheckTimeout;
    if s.state != Dropped {
      TakingConfirms(s, now, keys, coins);
      TakingLeavesAlone(s, now, keys, coins);
      var a := TakeIncoming(s, now, keys, coins).next;
      SendingConfirms(a, now);
      SendingConfirms(SendPending(a).next, now);
    }
  }

  lemma StepConfirms(w: World, m: Move, st: Setup)
    requires Inv(w, st) && Legal(w, m, st) && ConfirmationKept(w)
    ensures ConfirmationKept(TwoParty.Step(w, m))
  {
    hide Update, SessionModel.Initiate, Linked, Numbered;
    if m.Alice? && m.e.Crank? {
      CrankConfirms(w.a.s, m.e.now, m.e.keys, m.e.coins);
      if w.a.s.state != Established && w.a.s.inQueue != [] {
        assert w.a.s.inQueue[0] in w.b.trace;
      }
    } else if m.Alice? && m.e.Initiate? {
      InitiateConfirms(w.a.s, m.e);
    }
  }

  lemma InitiateConfirms(s: Session, e: Event)
    requires e.Initiate? && s.role == Initiator
    ensures var t := SessionModel.Initiate(s, e.peer, e.at, e.keys, e.cid, e.coins).next;
            || t == s || t.state != Established
            || (t.state == s.state && t.lastReceived == s.lastReceived && t.seqB2a == s.seqB2a)
  {
  }

  lemma {:induction false} RunConfirms(w: World, moves: seq<Move>, st: Setup)
    requires Inv(w, st) && LegalRun(w, moves, st) && ConfirmationKept(w)
    ensures ConfirmationKept(RunWorld(w, moves)) && Inv(RunWorld(w, moves), st)
    decreases |moves|
  {
    hide Inv, TwoParty.Step, Legal, ConfirmationKept;
    if moves != [] {
      StepConfirms(w, moves[0], st);
      StepKeepsInv(w, moves[0], st);
      RunConfirms(TwoParty.Step(w, moves[0]), moves[1..], st);
    }
  }

  // ---- what is still to be received is on the wire ---------------------------------------------------------------

  /** All either side still has to receive has been sent. */
  lemma OutstandingIsSent(st: Setup, configA: Config, configB: Config, ownB: Option<KeyId>, moves: seq<Move>)
    requires configA.kemLevel == configB.kemLevel == st.level
    requires LegalRun(Start(st, configA, configB, ownB), moves, st)
    ensures var w := RunWorld(Start(st, configA, configB, ownB), moves);
            && Inv(w, st) && Coherent(w.a.s) && Remembers(w.a.s) && Coherent(w.b.s) && Remembers(w.b.s)
            && (w.a.s.state == Established ==>
                  AllSent(w.b, Received(w.a.s)) && AllSent(w.a, Received(w.b.s)) && w.b.s.state == Established)
  {
    hide InitiatorInv, ResponderInv, Update, AllSent, Next;
    var w0 := Start(st, configA, configB, ownB);
    var w := RunWorld(w0, moves);
    assert Inv(w0, st);
    RunConfirms(w0, moves, st);
    EachRuns(w0, moves);
    var mine, others := EventsOf(moves, true), EventsOf(moves, false);
    ReachableRemembers(w0.a.s, mine);
    ReachableRemembers(w0.b.s, others);
    if w.a.s.state == Established {
      InitiatorSentAll(Some(st.idA), configA, mine);
      ResponderSentAll(ownB, configB, others, w.a.s.lastReceived.value);
      SentFromThere(w.a, 1, Received(w.b.s));
      SentFromThere(w.b, if w.a.s.lastReceived.value.payload.reply.Some? then 1 else 0, Received(w.a.s));
    }
  }

  lemma SentFromThere(h: History, from: nat, later: nat)
    requires AllSent(h, from) && from <= later
    ensures AllSent(h, later)
  {
  }

  lemma NextIsSent(h: History, from: nat)
    requires AllSent(h, from)
    ensures h.s.cid.Some? && AllSent(h, from + 1) && (from < |h.seals| ==> TrafficOf(h, from) in h.trace)
  {
  }

  // ---- handing it over --------------------------------------------------------------------------------------------

  /** The other side's traffic, one PDU after another from number n, each followed by a crank. */
  function HandOver(from: History, n: nat, cranks: seq<Event>, alice: bool): seq<Move>
    requires n + |cranks| <= |from.seals| && from.s.cid.Some?
    decreases |cranks|
  {
    if cranks == [] then []
    else
      var pdu := Post(TrafficOf(from, n));
      (if alice then [Move.Alice(pdu), Move.Alice(cranks[0])] else [Move.Bob(pdu), Move.Bob(cranks[0])])
        + HandOver(from, n + 1, cranks[1..], alice)
  }

  predicate HonestCranks(cranks: seq<Event>, st: Setup) {
    forall e <- cranks :: e.Crank? && Honest(e.keys, st)
  }

  /** Someone established who is ready for what the other side has sent. */
  predicate Listening(s: Session) {
    s.state == Established && s.inQueue == [] && Coherent(s) && Remembers(s)
  }

  lemma TwoMoves(w: World, m: Move, k: Move, rest: seq<Move>, st: Setup)
    ensures RunWorld(w, [m, k] + rest) == RunWorld(TwoParty.Step(TwoParty.Step(w, m), k), rest)
    ensures LegalRun(w, [m, k] + rest, st)
       <==> Legal(w, m, st) && Legal(TwoParty.Step(w, m), k, st)
            && LegalRun(TwoParty.Step(TwoParty.Step(w, m), k), rest, st)
  {
    hide TwoParty.Step, Legal;
    assert ([m, k] + rest)[1..] == [k] + rest && ([k] + rest)[1..] == rest;
  }

  /** One PDU handed to Alice in its turn is delivered and counted; Bob is as he was. */
  lemma AliceTakesNext(w: World, st: Setup, e: Event)
    requires Inv(w, st) && Listening(w.a.s) && w.b.s.cid.Some? && Received(w.a.s) < |w.b.seals|
    requires TrafficOf(w.b, Received(w.a.s)) in w.b.trace && e.Crank? && Honest(e.keys, st)
    ensures var n := Received(w.a.s);
            var m, k := Move.Alice(Post(TrafficOf(w.b, n))), Move.Alice(e);
            var v := TwoParty.Step(TwoParty.Step(w, m), k);
            && Legal(w, m, st) && Legal(TwoParty.Step(w, m), k, st) && Inv(v, st) && Listening(v.a.s)
            && v.b == w.b && Received(v.a.s) == n + 1
            && v.a.delivered == w.a.delivered + [PlainOf(w.b.seals[n])]
            && v.a.s.outPayloads == w.a.s.outPayloads + [PlainOf(w.b.seals[n])]
            && v.a.s.keys == w.a.s.keys && v.a.s.cid == w.a.s.cid
            && (w.a.s.pending.None? ==> v.a.s.pending.None? && v.a.seals == w.a.seals)
  {
    var n := Received(w.a.s);
    var pdu := TrafficOf(w.b, n);
    NextIsForAlice(w, st);
    var m, k := Move.Alice(Post(pdu)), Move.Alice(e);
    StepKeepsInv(w, m, st);
    StepKeepsInv(TwoParty.Step(w, m), k, st);
    hide Inv, Update, SealedByPeer, Coherent, Remembers;
    MessageTaken(w.a.s, pdu, PlainOf(w.b.seals[n]), e.now, e.keys, e.coins);
    if w.a.s.pending.None? {
      NothingToSay(w.a.s, pdu, e.now, e.keys, e.coins);
    }
  }

  lemma BobTakesNext(w: World, st: Setup, e: Event)
    requires Inv(w, st) && Listening(w.b.s) && w.a.s.cid.Some? && Received(w.b.s) < |w.a.seals|
    requires TrafficOf(w.a, Received(w.b.s)) in w.a.trace && e.Crank? && Honest(e.keys, st)
    ensures var n := Received(w.b.s);
            var m, k := Move.Bob(Post(TrafficOf(w.a, n))), Move.Bob(e);
            var v := TwoParty.Step(TwoParty.Step(w, m), k);
            && Legal(w, m, st) && Legal(TwoParty.Step(w, m), k, st) && Inv(v, st) && Listening(v.b.s)
            && v.a == w.a && Received(v.b.s) == n + 1
            && v.b.delivered == w.b.delivered + [PlainOf(w.a.seals[n])]
            && v.b.s.outPayloads == w.b.s.outPayloads + [PlainOf(w.a.seals[n])]
            && v.b.s.keys == w.b.s.keys && v.b.s.cid == w.b.s.cid
            && (w.b.s.pending.None? ==> v.b.s.pending.None? && v.b.seals == w.b.seals)
  {
    var n := Received(w.b.s);
    var pdu := TrafficOf(w.a, n);
    NextIsForBob(w, st);
    var m, k := Move.Bob(Post(pdu)), Move.Bob(e);
    StepKeepsInv(w, m, st);
    StepKeepsInv(TwoParty.Step(w, m), k, st);
    hide Inv, Update, SealedByPeer, Coherent, Remembers;
    MessageTaken(w.b.s, pdu, PlainOf(w.a.seals[n]), e.now, e.keys, e.coins);
    if w.b.s.pending.None? {
      NothingToSay(w.b.s, pdu, e.now, e.keys, e.coins);
    }
  }

  /** Hearing a message is no occasion to send one. */
  lemma NothingToSay(s: Session, pdu: Pdu, now: real, keys: Keys, coins: Coins)
    requires s.state == Established && s.inQueue == [] && s.pending.None? && pdu.Pdu? && pdu.payload.Message?
    requires s.lastReceived != Some(pdu)
    ensures var c := Update(PostPdu(s, pdu), now, keys, coins); c.next.pending.None? && c.out.seals == []
  {
    var a := TakeIncoming(PostPdu(s, pdu), now, keys, coins);
    assert a.next.pending.None? && a.next.state == Established && a.out.seals == [];
  }

  lemma {:induction false} AliceCatchesUp(w: World, st: Setup, cranks: seq<Event>)
    requires Inv(w, st) && Listening(w.a.s) && AllSent(w.b, Received(w.a.s)) && HonestCranks(cranks, st)
    requires Received(w.a.s) + |cranks| <= |w.b.seals|
    ensures var n := Received(w.a.s);
            var moves := HandOver(w.b, n, cranks, true);
            var v := RunWorld(w, moves);
            && LegalRun(w, moves, st) && Inv(v, st) && Listening(v.a.s)
            && v.b == w.b && Received(v.a.s) == n + |cranks|
            && v.a.s.outPayloads == w.a.s.outPayloads + Plains(w.b.seals[n..n + |cranks|])
            && v.a.s.keys == w.a.s.keys && v.a.s.cid == w.a.s.cid
            && (w.a.s.pending.None? ==> v.a.s.pending.None? && v.a.seals == w.a.seals)
    decreases |cranks|
  {
    hide Inv, Listening, TwoParty.Step, Legal, AllSent, Received, Plains, Honest;
    var n := Received(w.a.s);
    if cranks != [] {
      var e := cranks[0];
      NextIsSent(w.b, n);
      AliceTakesNext(w, st, e);
      var m, k := Move.Alice(Post(TrafficOf(w.b, n))), Move.Alice(e);
      var v := TwoParty.Step(TwoParty.Step(w, m), k);
      AliceCatchesUp(v, st, cranks[1..]);
      TwoMoves(w, m, k, HandOver(w.b, n + 1, cranks[1..], true), st);
      PlainsNext(w.b.seals, n, n + |cranks|);
    } else {
      assert w.b.seals[n..n] == [];
      NoPlains();
    }
  }

  lemma {:induction false} BobCatchesUp(w: World, st: Setup, cranks: seq<Event>)
    requires Inv(w, st) && Listening(w.b.s) && AllSent(w.a, Received(w.b.s)) && HonestCranks(cranks, st)
    requires Received(w.b.s) + |cranks| <= |w.a.seals|
    ensures var n := Received(w.b.s);
            var moves := HandOver(w.a, n, cranks, false);
            var v := RunWorld(w, moves);
            && LegalRun(w, moves, st) && Inv(v, st) && Listening(v.b.s)
            && v.a == w.a && Received(v.b.s) == n + |cranks|
            && v.b.s.outPayloads == w.b.s.outPayloads + Plains(w.a.seals[n..n + |cranks|])
            && v.b.s.keys == w.b.s.keys && v.b.s.cid == w.b.s.cid
            && (w.b.s.pending.None? ==> v.b.s.pending.None? && v.b.seals == w.b.seals)
    decreases |cranks|
  {
    hide Inv, Listening, TwoParty.Step, Legal, AllSent, Received, Plains, Honest;
    var n := Received(w.b.s);
    if cranks != [] {
      var e := cranks[0];
      NextIsSent(w.a, n);
      BobTakesNext(w, st, e);
      var m, k := Move.Bob(Post(TrafficOf(w.a, n))), Move.Bob(e);
      var v := TwoParty.Step(TwoParty.Step(w, m), k);
      BobCatchesUp(v, st, cranks[1..]);
      TwoMoves(w, m, k, HandOver(w.a, n + 1, cranks[1..], false), st);
      PlainsNext(w.a.seals, n, n + |cranks|);
    } else {
      assert w.a.seals[n..n] == [];
      NoPlains();
    }
  }

  function Plains(seals: seq<Sealed>): seq<Bytes> {
    seq(|seals|, i requires 0 <= i < |seals| => PlainOf(seals[i]))
  }

  lemma NoPlains()
    ensures Plains([]) == []
  {
  }

  lemma PlainsNext(seals: seq<Sealed>, n: nat, m: nat)
    requires n < m <= |seals|
    ensures Plains(seals[n..m]) == [PlainOf(seals[n])] + Plains(seals[n + 1..m])
  {
  }

  // ---- everything encrypted is received ---------------------------------------------------------------------------

  /** Wherever a run of the two has brought them, both established: Bob's outstanding traffic, all of it on
      the wire, handed to Alice in order, and then Alice's to Bob, leaves each application with everything
      the other has encrypted. */
  lemma EverythingIsReceived(st: Setup, configA: Config, configB: Config, ownB: Option<KeyId>, past: seq<Move>,
                             toAlice: seq<Event>, toBob: seq<Event>)
    requires configA.kemLevel == configB.kemLevel == st.level
    requires LegalRun(Start(st, configA, configB, ownB), past, st)
    requires var w := RunWorld(Start(st, configA, configB, ownB), past);
             && w.a.s.state == Established && w.a.s.inQueue == [] && w.b.s.inQueue == []
             && Received(w.a.s) + |toAlice| == |w.b.seals|
    requires HonestCranks(toAlice, st) && HonestCranks(toBob, st)
    ensures var w := RunWorld(Start(st, configA, configB, ownB), past);
            && w.b.s.state == Established && w.b.s.cid.Some? && w.a.s.cid.Some?
            && var first := HandOver(w.b, Received(w.a.s), toAlice, true);
            var v := RunWorld(w, first);
            && LegalRun(w, first, st) && v.b == w.b && v.a.s.cid == w.a.s.cid && v.a.delivered == Payloads(w.b.seals)
            && v.a.s.outPayloads == w.a.s.outPayloads + Plains(w.b.seals[Received(w.a.s)..])
            && (Received(v.b.s) + |toBob| == |v.a.seals| ==>
                  var second := HandOver(v.a, Received(v.b.s), toBob, false);
                  var u := RunWorld(v, second);
                  && LegalRun(v, second, st) && u.a == v.a && u.b.delivered == Payloads(u.a.seals)
                  && u.b.s.outPayloads == v.b.s.outPayloads + Plains(v.a.seals[Received(v.b.s)..])
                  && (w.b.s.pending.None? ==> u.a.delivered == Payloads(u.b.seals)))
  {
    hide Inv, AllSent, HandOver, Received, Coherent, Remembers, Numbered, RunWorld, LegalRun;
    OutstandingIsSent(st, configA, configB, ownB, past);
    var w0 := Start(st, configA, configB, ownB);
    var w := RunWorld(w0, past);
    assert Listening(w.a.s) && Listening(w.b.s);
    SentHasCid(w.b, Received(w.a.s));
    AliceCatchesUp(w, st, toAlice);
    var first := HandOver(w.b, Received(w.a.s), toAlice, true);
    var v := RunWorld(w, first);
    AliceHasAll(v, st);
    assert w.b.seals[Received(w.a.s)..|w.b.seals|] == w.b.seals[Received(w.a.s)..];
    RunsOn(w0, past, first, st);
    OutstandingIsSent(st, configA, configB, ownB, past + first);
    SentHasCid(v.a, Received(v.b.s));
    if Received(v.b.s) + |toBob| == |v.a.seals| {
      BobCatchesUp(v, st, toBob);
      assert v.a.seals[Received(v.b.s)..|v.a.seals|] == v.a.seals[Received(v.b.s)..];
      BobHasAll(RunWorld(v, HandOver(v.a, Received(v.b.s), toBob, false)), st);
    }
  }

  lemma SentHasCid(h: History, from: nat)
    requires AllSent(h, from)
    ensures h.s.cid.Some?
  {
  }

  lemma AliceHasAll(w: World, st: Setup)
    requires Inv(w, st) && Listening(w.a.s) && Received(w.a.s) == |w.b.seals|
    ensures w.a.delivered == Payloads(w.b.seals)
  {
    assert w.b.seals[..|w.b.seals|] == w.b.seals;
  }

  lemma BobHasAll(w: World, st: Setup)
    requires Inv(w, st) && Listening(w.b.s) && Received(w.b.s) == |w.a.seals|
    ensures w.b.delivered == Payloads(w.a.seals)
  {
    assert w.a.seals[..|w.a.seals|] == w.a.seals;
  }

  lemma {:induction false} RunsOn(w: World, moves: seq<Move>, more: seq<Move>, st: Setup)
    requires LegalRun(w, moves, st) && LegalRun(RunWorld(w, moves), more, st)
    ensures LegalRun(w, moves + more, st) && RunWorld(w, moves + more) == RunWorld(RunWorld(w, moves), more)
    decreases |moves|
  {
    hide TwoParty.Step, Legal;
    if moves == [] {
      assert [] + more == more;
    } else {
      assert (moves + more)[1..] == moves[1..] + more;
      RunsOn(TwoParty.Step(w, moves[0]), moves[1..], more, st);
    }
  }

  // ---- what is said is sent ---------------------------------------------------------------------------------------

  /** Of several payloads offered before a crank it is the last that is sealed, under the next number, and
      put out in one traffic PDU. */
  lemma SaidIsSent(h: History, first: Bytes, last: Bytes, e: Event)
    requires h.s.state == Established && h.s.inQueue == [] && h.s.keys.Some? && h.s.cid.Some? && e.Crank?
    requires Numbered(h.s, h.seals) && |h.seals| < SEQ_LIMIT && last != []
    ensures var n := |h.seals|;
            var g := Next(Next(Next(h, Offer(first)), Offer(last)), e);
            && |g.seals| == n + 1 && g.seals[..n] == h.seals && PlainOf(g.seals[n]) == last
            && Numbered(g.s, g.seals) && g.s.cid == h.s.cid && g.s.pending.None?
            && g.trace == h.trace + [TrafficOf(g, n)] && g.s.outPdus == h.s.outPdus + [TrafficOf(g, n)]
  {
    hide Numbered;
    var s := PostPayload(PostPayload(h.s, first), last);
    assert s == h.s.(pending := Some(last));
    assert Numbered(s, h.seals) by { StillNumbered(h.s, last, h.seals); }
    SendStep(s, h.seals);
    var b := SendEstablishedPayload(s);
    assert TakeIncoming(s, e.now, e.keys, e.coins) == SessionModel.Step(s, None, NOTHING);
    SentPlain(s, h.seals);
    var g := Next(Next(Next(h, Offer(first)), Offer(last)), e);
    assert g.seals == h.seals + b.out.seals && g.trace == h.trace + b.out.pdus;
  }

  lemma StillNumbered(s: Session, last: Bytes, seals: seq<Sealed>)
    requires Numbered(s, seals)
    ensures Numbered(s.(pending := Some(last)), seals)
  {
  }

  lemma SentPlain(s: Session, seals: seq<Sealed>)
    requires s.pending.Some? && s.keys.Some? && s.cid.Some? && Numbered(s, seals) && |seals| < SEQ_LIMIT
    ensures var b := SendEstablishedPayload(s);
            b.error.None? && |b.out.seals| == 1 && PlainOf(b.out.seals[0]) == s.pending.value
            && |b.out.pdus| == 1 && b.next.outPdus == s.outPdus + b.out.pdus
  {
  }
}
