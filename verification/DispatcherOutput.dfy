/** What a dispatcher puts out: which PDUs and payloads update() adds to its queues, and what becomes of a
    payload handed to it and of traffic that arrives. */
module DispatcherOutput {
  import opened Base
  import opened Crypto
  import opened SessionModel
  import opened SessionInput
  import opened Candidates
  import opened DispatcherModel
  import opened DispatcherInvariant
  import opened DispatcherCrank
  import opened DispatcherRuns
  import opened DispatcherReasons
  import opened SessionProgress
  import opened TwoPartyTraffic

  // ---- one established session ------------------------------------------------------------------------

  /** The traffic PDU in which a session of this cid sends what waits. */
  function WaitingPdu(cid: Cid, s: Session): Pdu
    requires s.keys.Some? && s.pending.Some?
  {
    var k, plain := s.keys.value, s.pending.value;
    if s.role == Initiator then
      Pdu(0, cid, Message(s.seqA2b, Seal(k.aead, k.keyA2b, k.ivA2b, s.seqA2b, cid, plain)))
    else
      Pdu(0, cid, Message(s.seqB2a, Seal(k.aead, k.keyB2a, k.ivB2a, s.seqB2a, cid, plain)))
  }

  function Says(cid: Cid, s: Session): seq<Pdu> {
    if s.keys.Some? && s.pending.Some? then [WaitingPdu(cid, s)] else []
  }

  /** The session once it has said it, with its queues taken over by the dispatcher. */
  function Said(s: Session): Session {
    var t := s.(pending := None, outPdus := [], outPayloads := []);
    if s.pending.None? then t
    else if s.role == Initiator then t.(seqA2b := s.seqA2b + 1) else t.(seqB2a := s.seqB2a + 1)
  }

  lemma EstablishedSays(s: Session, cid: Cid, config: Config, now: real, keys: Keys, coins: Coins)
    requires Confirmed(s, cid, config) && !Exhausted(s)
    ensures var c := Update(s, now, keys, coins);
            && c.result.Returned? && Emptied(c.next) == Said(s)
            && c.next.outPdus == s.outPdus + Says(cid, s) && c.next.outPayloads == s.outPayloads
  {
  }

  // ---- the established sessions, in order ----------------------------------------------------------------

  predicate Within(order: seq<Cid>, m: map<Cid, Session>) {
    forall cid <- order :: cid in m
  }

  /** Those cranked before an exception ends the crank. */
  function Prompt(m: map<Cid, Session>, order: seq<Cid>): seq<Cid>
    requires Within(order, m)
  {
    if order == [] || Exhausted(m[order[0]]) then [] else [order[0]] + Prompt(m, order[1..])
  }

  /** What had been left in their queues, and one message for each with a payload waiting. */
  function Sendings(m: map<Cid, Session>, order: seq<Cid>): seq<Pdu>
    requires Within(order, m)
  {
    if order == [] then []
    else m[order[0]].outPdus + Says(order[0], m[order[0]]) + Sendings(m, order[1..])
  }

  function LeftPdus(m: map<Cid, Session>, order: seq<Cid>): seq<Pdu>
    requires Within(order, m)
  {
    if order == [] then [] else m[order[0]].outPdus + LeftPdus(m, order[1..])
  }

  function LeftPayloads(m: map<Cid, Session>, order: seq<Cid>): seq<(Cid, Bytes)>
    requires Within(order, m)
  {
    if order == [] then [] else Tagged(order[0], m[order[0]].outPayloads) + LeftPayloads(m, order[1..])
  }

  lemma {:induction false} PromptWithin(m: map<Cid, Session>, order: seq<Cid>)
    requires Within(order, m)
    ensures Prompt(m, order) <= order && Within(Prompt(m, order), m)
    ensures Prompt(m, order) == order <==> !SomeExhausted(m, order)
    ensures order == [] ==> Prompt(m, order) == []
  {
    if order != [] {
      PromptWithin(m, order[1..]);
      assert order == [order[0]] + order[1..];
      assert SomeExhausted(m, order) <==> Exhausted(m[order[0]]) || SomeExhausted(m, order[1..]);
    }
  }

  /** Only the sessions listed matter. */
  lemma {:induction false} SameListed(m: map<Cid, Session>, n: map<Cid, Session>, order: seq<Cid>)
    requires Within(order, m) && Within(order, n) && forall cid <- order :: n[cid] == m[cid]
    ensures Prompt(n, order) == Prompt(m, order) && Sendings(n, order) == Sendings(m, order)
    ensures LeftPayloads(n, order) == LeftPayloads(m, order) && LeftPdus(n, order) == LeftPdus(m, order)
  {
    if order != [] {
      assert Within(order[1..], m) && Within(order[1..], n);
      SameListed(m, n, order[1..]);
    }
  }

  lemma FirstAndRest(m: map<Cid, Session>, order: seq<Cid>)
    requires Within(order, m) && Distinct(order) && order != []
    ensures order[0] in m && order[0] in order && order[0] !in order[1..] && order == [order[0]] + order[1..]
    ensures Within(order[1..], m) && Distinct(order[1..])
    ensures Prompt(m, order) == if Exhausted(m[order[0]]) then [] else [order[0]] + Prompt(m, order[1..])
  {
    assert forall k <- order[1..] :: k in order && k != order[0];
  }

  /** Cranking one changes nothing for those listed after it. */
  lemma StillWithin(m: map<Cid, Session>, cid: Cid, rest: seq<Cid>)
    requires cid in m && cid !in rest && Within(rest, m)
    ensures var n := m[cid := Said(m[cid])];
            && Within(rest, n) && Prompt(n, rest) == Prompt(m, rest) && Within(Prompt(m, rest), m)
            && Within(Prompt(m, rest), n)
            && Sendings(n, Prompt(m, rest)) == Sendings(m, Prompt(m, rest))
            && LeftPayloads(n, Prompt(m, rest)) == LeftPayloads(m, Prompt(m, rest))
  {
    var n := m[cid := Said(m[cid])];
    hide Said;
    SameListed(m, n, rest);
    PromptWithin(m, rest);
    SameListed(m, n, Prompt(m, rest));
  }

  lemma Stepwise(m: map<Cid, Session>, cid: Cid, rest: seq<Cid>)
    requires cid in m && Within(rest, m)
    ensures Within([cid] + rest, m)
    ensures Sendings(m, [cid] + rest) == m[cid].outPdus + Says(cid, m[cid]) + Sendings(m, rest)
    ensures LeftPayloads(m, [cid] + rest) == Tagged(cid, m[cid].outPayloads) + LeftPayloads(m, rest)
  {
    assert ([cid] + rest)[1..] == rest;
  }

  /** The crank of one. */
  lemma OneIsDrained(t: Turn, cid: Cid, now: real, keys: Keys, coins: Coins)
    requires Good(t.d) && !t.escaped && cid in t.d.established
    ensures var s, u := t.d.established[cid], CrankEstablished(t, cid, now, keys, coins);
            if Exhausted(s) then
              u.escaped && u.d.outPdus == t.d.outPdus && u.d.outPayloads == t.d.outPayloads
            else
              && !u.escaped && u.d.established == t.d.established[cid := Said(s)]
              && u.d.outPdus == t.d.outPdus + (s.outPdus + Says(cid, s))
              && u.d.outPayloads == t.d.outPayloads + Tagged(cid, s.outPayloads)
  {
    hide Update, Good, Exhausted;
    GoodEstablished(t.d, cid);
    var s := t.d.established[cid];
    QuietConfirmedRaises(s, cid, t.d.config, now, keys, coins);
    if !Exhausted(s) {
      EstablishedSays(s, cid, t.d.config, now, keys, coins);
    }
  }

  /** Those cranked have said what they had to say, and those not in the order are as they were. */
  predicate SpokenFor(m: map<Cid, Session>, n: map<Cid, Session>, prompt: seq<Cid>, order: seq<Cid>) {
    forall cid <- m :: cid in n
      && (cid in prompt ==> n[cid] == Said(m[cid])) && (cid !in order ==> n[cid] == m[cid])
  }

  lemma SpokenNext(m: map<Cid, Session>, cid: Cid, n: map<Cid, Session>, prompt: seq<Cid>, order: seq<Cid>)
    requires cid in m && cid !in order && prompt <= order
    requires SpokenFor(m[cid := Said(m[cid])], n, prompt, order)
    ensures SpokenFor(m, n, [cid] + prompt, [cid] + order)
  {
    hide Said;
    var s := m[cid := Said(m[cid])];
    forall k | k in m
      ensures k in n && (k in [cid] + prompt ==> n[k] == Said(m[k])) && (k !in [cid] + order ==> n[k] == m[k])
    {
      assert k in s;
    }
  }

  lemma SpokenForNone(m: map<Cid, Session>, order: seq<Cid>)
    ensures SpokenFor(m, m, [], order)
  {
  }

  lemma StillAsBefore(t: Turn, u: Turn, cid: Cid, order: seq<Cid>, now: real)
    requires Cranking(t, u, now) && cid in order && u.d.established.Keys == t.d.established.Keys
    requires forall k <- t.d.established :: k != cid ==> u.d.established[k] == t.d.established[k]
    ensures SpokenFor(t.d.established, u.d.established, [], order)
  {
    hide Good, Said;
    CrankingGood(t, u, now);
    assert forall k <- t.d.established :: k in t.d.established.Keys;
  }

  /** The crank of all: queue by queue, up to the first that raises. */
  lemma {:induction false} AllAreDrained(t: Turn, order: seq<Cid>, now: real, keys: Keys, coins: Coins)
    requires Good(t.d) && !t.escaped && Distinct(order) && Within(order, t.d.established)
    ensures var u, m := CrankAllEstablished(t, order, now, keys, coins), t.d.established;
            var prompt := Prompt(m, order);
            && Within(prompt, m)
            && u.d.outPdus == t.d.outPdus + Sendings(m, prompt)
            && u.d.outPayloads == t.d.outPayloads + LeftPayloads(m, prompt)
            && SpokenFor(m, u.d.established, prompt, order)
    decreases |order|
  {
    hide CrankEstablished, Cranking, Good, Exhausted, Says, Said, Sendings, LeftPayloads, SomeExhausted, LeftPdus,
         SpokenFor, Distinct, Within, Prompt;
    PromptWithin(t.d.established, order);
    if order == [] {
      NothingListed(t.d.established);
      assert SpokenFor(t.d.established, t.d.established, [], []) by { SpokenForNone(t.d.established, []); }
    } else {
      var m, cid := t.d.established, order[0];
      FirstAndRest(m, order);
      OneIsDrained(t, cid, now, keys, coins);
      CrankEstablishedKeeps(t, cid, now, keys, coins);
      var u := CrankEstablished(t, cid, now, keys, coins);
      CrankingGood(t, u, now);
      var rest := Prompt(m, order[1..]);
      PromptWithin(m, order[1..]);
      if Exhausted(m[cid]) {
        StopsThere(u, order[1..], now, keys, coins);
        NothingListed(m);
        StillAsBefore(t, u, cid, order, now);
      } else {
        StillWithin(m, cid, order[1..]);
        AllAreDrained(u, order[1..], now, keys, coins);
        Stepwise(m, cid, rest);
        SpokenNext(m, cid, CrankAllEstablished(u, order[1..], now, keys, coins).d.established, rest, order[1..]);
      }
    }
  }

  lemma NothingListed(m: map<Cid, Session>)
    ensures Sendings(m, []) == [] && LeftPayloads(m, []) == []
  {
  }

  lemma {:induction false} StopsThere(t: Turn, order: seq<Cid>, now: real, keys: Keys, coins: Coins)
    requires t.escaped
    ensures CrankAllEstablished(t, order, now, keys, coins) == t
    ensures CrankAllResponders(t, order, now, keys, coins) == t
    ensures CrankAllForks(t, order, now, keys, coins) == t
    decreases |order|
  {
    if order != [] {
      StopsThere(t, order[1..], now, keys, coins);
    }
  }

  // ---- responders and forks ----------------------------------------------------------------------------------

  /** A responder with nothing to read says nothing: it waits, or gives up. */
  lemma ResponderSaysNothing(s: Session, cid: Cid, config: Config, now: real, keys: Keys, coins: Coins)
    requires Answering(s, cid, config)
    ensures var c := Update(s, now, keys, coins);
            c.result.Returned? && c.next.outPdus == s.outPdus && c.next.outPayloads == s.outPayloads
  {
  }

  lemma {:induction false} RespondersAreDrained(t: Turn, order: seq<Cid>, now: real, keys: Keys, coins: Coins)
    requires Good(t.d) && !t.escaped && Distinct(order) && Within(order, t.d.responders)
    ensures var u, m := CrankAllResponders(t, order, now, keys, coins), t.d.responders;
            && u.d.outPdus == t.d.outPdus + LeftPdus(m, order)
            && u.d.outPayloads == t.d.outPayloads + LeftPayloads(m, order)
            && u.d.established == t.d.established
            && forall cid <- u.d.responders :: cid in m && (cid in order ==> Drawn(u.d.responders[cid]))
    decreases |order|
  {
    hide CrankResponder, Cranking, Good, Drawn;
    if order != [] {
      var m, cid := t.d.responders, order[0];
      assert order[0] in order && order[0] !in order[1..];
      assert forall k <- order[1..] :: k in order && k != cid;
      OneResponderDrained(t, cid, now, keys, coins);
      CrankResponderKeeps(t, cid, now, keys, coins);
      var u := CrankResponder(t, cid, now, keys, coins);
      CrankingGood(t, u, now);
      forall k | k in order[1..] ensures k in u.d.responders && u.d.responders[k] == m[k] {
        assert k in (m - {cid}) && k in (u.d.responders - {cid});
      }
      RespondersAreDrained(u, order[1..], now, keys, coins);
      CrankAllRespondersKeeps(u, order[1..], now, keys, coins);
      SameListed(m, u.d.responders, order[1..]);
      var v := CrankAllResponders(u, order[1..], now, keys, coins);
      forall k | k in v.d.responders ensures k in m && (k in order ==> Drawn(v.d.responders[k])) {
        if k == cid {
          assert v.d.responders[k] == u.d.responders[k];
        } else {
          assert k in (u.d.responders - {cid});
        }
      }
    }
  }

  /** Nothing is left in its queues. */
  predicate Drawn(s: Session) {
    s.outPdus == [] && s.outPayloads == []
  }

  lemma OneResponderDrained(t: Turn, cid: Cid, now: real, keys: Keys, coins: Coins)
    requires Good(t.d) && !t.escaped && cid in t.d.responders
    ensures var s, u := t.d.responders[cid], CrankResponder(t, cid, now, keys, coins);
            && !u.escaped && u.d.established == t.d.established
            && u.d.outPdus == t.d.outPdus + s.outPdus
            && u.d.outPayloads == t.d.outPayloads + Tagged(cid, s.outPayloads)
            && (cid in u.d.responders ==> Drawn(u.d.responders[cid]))
  {
    hide Update, Good, Discard;
    GoodResponder(t.d, cid);
    var s := t.d.responders[cid];
    ResponderSaysNothing(s, cid, t.d.config, now, keys, coins);
    assert WithInput(s, []) == s;
    CrankAnswering(s, cid, t.d.config, [], now, keys, coins);
  }

  /** What a fork repeats stays in its own queue: a sweep of forks without a winner collects nothing. */
  lemma {:induction false} ForksSayNothing(t: Turn, order: seq<Cid>, now: real, keys: Keys, coins: Coins)
    requires Good(t.d) && !t.escaped && Distinct(order)
    ensures var u := CrankAllForks(t, order, now, keys, coins);
            && u.d.outPdus == t.d.outPdus && u.d.outPayloads == t.d.outPayloads
            && u.d.established == t.d.established && u.d.responders == t.d.responders
    decreases |order|
  {
    hide CrankForks, Cranking, Good;
    if order != [] {
      OneSweepSaysNothing(t, order[0], now, keys, coins);
      CrankForksKeeps(t, order[0], now, keys, coins);
      var u := CrankForks(t, order[0], now, keys, coins);
      CrankingGood(t, u, now);
      ForksSayNothing(u, order[1..], now, keys, coins);
    }
  }

  lemma OneSweepSaysNothing(t: Turn, cid: Cid, now: real, keys: Keys, coins: Coins)
    requires Good(t.d) && !t.escaped
    ensures var u := CrankForks(t, cid, now, keys, coins);
            && u.d.outPdus == t.d.outPdus && u.d.outPayloads == t.d.outPayloads
            && u.d.established == t.d.established && u.d.responders == t.d.responders
  {
    hide SweepForks, Good, GoodForks, Discard, AllLive, OneIsDue;
    if cid in t.d.forks {
      GoodForksAt(t.d, cid);
      assert [] + t.d.forks[cid][0..] == t.d.forks[cid];
      SweepKeeps(Sweep(t.d.forks[cid], [], None, t.soonest, false), 0, cid, t.d.config, now, keys, coins);
    }
  }

  // ---- the whole crank ------------------------------------------------------------------------------------------

  /** update() appends to the outgoing PDUs, session after session in the order of the dict and up to one
      that raises, what an earlier exception had left in the session's own queue and then, where a payload
      waits, one message that seals it under the session's sending key and next number. The payloads it
      appends are those left likewise. If nothing raises, it collects from responders what had been left
      there, and every established session has had its payload sent; from forks it collects nothing. */
  lemma UpdatePutsOut(d: Dispatcher, orders: Orders, now: real, keys: Keys, coins: Coins)
    requires Good(d) && GoodOrders(d, orders, now, keys, coins)
    ensures var e, u := Refreshed(d, now), CrankAll(d, orders, now, keys, coins);
            && Within(orders.established, d.established) && Within(orders.responders, e.responders)
            && var prompt := Prompt(d.established, orders.established);
            && Within(prompt, d.established)
            && u.d.outPdus == d.outPdus + Sendings(d.established, prompt)
                              + (if u.escaped then [] else LeftPdus(e.responders, orders.responders))
            && u.d.outPayloads == d.outPayloads + LeftPayloads(d.established, prompt)
                                  + (if u.escaped then [] else LeftPayloads(e.responders, orders.responders))
            && (!u.escaped ==>
                  && prompt == orders.established
                  && (forall cid <- d.established :: cid in u.d.established
                        && u.d.established[cid] == Said(d.established[cid]))
                  && (forall cid <- u.d.established :: cid in d.established)
                  && (forall cid <- u.d.responders :: Drawn(u.d.responders[cid])))
  {
    hide Good, Cranking, Reconcile, CrankAllEstablished, CrankAllResponders, CrankAllForks, Exhausted, Backed,
         CoversAll, AllForksCovered, Attained, ForkAttained, Said, Says, Drawn, Prompt, Sendings, LeftPdus,
         LeftPayloads, StillThere;
    RefreshedKeeps(d, now);
    var t := Turn(Refreshed(d, now), Never, false);
    RefreshedQueues(d, now);
    AllAreDrained(t, orders.established, now, keys, coins);
    PromptWithin(d.established, orders.established);
    var t1 := CrankAllEstablished(t, orders.established, now, keys, coins);
    CrankAllEstablishedKeeps(t, orders.established, now, keys, coins);
    CrankingGood(t, t1, now);
    if t1.escaped {
      StopsThere(t1, orders.responders, now, keys, coins);
      StopsThere(t1, orders.forks, now, keys, coins);
    } else {
      var t2 := CrankAllResponders(t1, orders.responders, now, keys, coins);
      RespondersAreDrained(t1, orders.responders, now, keys, coins);
      CrankAllRespondersKeeps(t1, orders.responders, now, keys, coins);
      CrankingGood(t1, t2, now);
      ForksSayNothing(t2, orders.forks, now, keys, coins);
      CrankAllForksKeeps(t2, orders.forks, now, keys, coins);
      CrankingGood(t2, CrankAllForks(t2, orders.forks, now, keys, coins), now);
      CrankingShrinks(t1, t2, now);
    }
  }

  lemma RefreshedQueues(d: Dispatcher, now: real)
    ensures Refreshed(d, now).outPdus == d.outPdus && Refreshed(d, now).outPayloads == d.outPayloads
  {
    hide Expire;
  }

  // ---- nothing is left behind -----------------------------------------------------------------------------------

  /** The dispatcher has taken over all its sessions have put out. */
  ghost predicate Drained(d: Dispatcher) {
    && (forall cid <- d.established :: Drawn(d.established[cid]))
    && (forall cid <- d.responders :: Drawn(d.responders[cid]))
  }

  /** An exception passes through the dispatcher. */
  ghost predicate Escapes(d: Dispatcher, e: Event) {
    match e
    case Arrives(pdu, now, keys, coins) => PostPduTo(d, pdu, now, keys, coins).escaped
    case Cranks(orders, now, keys, coins) => CrankAll(d, orders, now, keys, coins).escaped
    case _ => false
  }

  /** Only an exception can leave output behind in a session that is established or answering. */
  lemma DrainedUnlessEscaped(d: Dispatcher, e: Event)
    requires Good(d) && Possible(d, e) && Drained(d)
    ensures Escapes(d, e) || Drained(After(d, e))
  {
    hide Good, PostPduTo, CrankAll, InitiateAt, GoodOrders;
    match e
    case Arrives(pdu, now, keys, coins) => ArrivalDrains(d, pdu, now, keys, coins);
    case Cranks(orders, now, keys, coins) => CrankDrains(d, orders, now, keys, coins);
    case Starts(own, peer, now, keys, cid, coins) => InitiateDrains(d, own, peer, now, keys, cid, coins);
    case Submits(_, _) =>
    case Closes(_) =>
    case TakesPdu =>
    case TakesPayload =>
  }

  lemma InitiateDrains(d: Dispatcher, own: KeyId, peer: KeyId, now: real, keys: Keys, cid: Cid, coins: Coins)
    requires Drained(d)
    ensures Drained(InitiateAt(d, own, peer, now, keys, cid, coins).d)
  {
    hide SessionModel.Initiate;
  }

  lemma CrankDrains(d: Dispatcher, orders: Orders, now: real, keys: Keys, coins: Coins)
    requires Good(d) && GoodOrders(d, orders, now, keys, coins)
    ensures var u := CrankAll(d, orders, now, keys, coins); !u.escaped ==> Drained(u.d)
  {
    hide Good, CrankAll, GoodOrders, Prompt, Sendings, LeftPdus, LeftPayloads;
    UpdatePutsOut(d, orders, now, keys, coins);
  }

  lemma ArrivalDrains(d: Dispatcher, pdu: Pdu, now: real, keys: Keys, coins: Coins)
    requires Drained(d)
    ensures var o := PostPduTo(d, pdu, now, keys, coins); !o.escaped ==> Drained(o.d)
  {
    hide Update, Drained, RouteInitRequest, RouteInitResponse, RouteToForks, DeliverToResponder;
    if pdu.Pdu? {
      var cid := pdu.cid;
      if cid in d.established {
        DeliveryDrains(d, d.established[cid], pdu, now, keys, coins, cid);
        PutDrains(Deliver(d, d.established[cid], pdu, now, keys, coins, cid).d, cid,
                  Deliver(d, d.established[cid], pdu, now, keys, coins, cid).s);
      } else if pdu.payload.SessionInitRequest? {
        RequestDrains(d, cid, pdu, now, keys, coins);
      } else if pdu.payload.SessionInitResponse? {
        ResponseDrains(d, cid, pdu, now, keys, coins);
      } else if cid in d.responders {
        ResponderDrains(d, cid, pdu, now, keys, coins);
      } else {
        ForksDrain(d, cid, pdu, now, keys, coins);
      }
    }
  }

  lemma DeliveryDrains(d: Dispatcher, s: Session, pdu: Pdu, now: real, keys: Keys, coins: Coins, cid: Cid)
    requires Drained(d)
    ensures var v := Deliver(d, s, pdu, now, keys, coins, cid); Drained(v.d) && (!v.escaped ==> Drawn(v.s))
  {
    hide Update;
  }

  lemma PutDrains(d: Dispatcher, cid: Cid, s: Session)
    requires Drained(d)
    ensures Drawn(s) ==> Drained(d.(established := d.established[cid := s]))
                         && Drained(d.(responders := d.responders[cid := s])) && Drained(Promote(d, cid, s))
    ensures Drained(DropResponder(d, cid))
  {
    hide Drawn, Discard;
  }

  lemma ReapDrains(d: Dispatcher, cid: Cid)
    requires Drained(d)
    ensures Drained(ReapResponder(d, cid))
  {
    hide Drained, Promote, DropResponder;
    if cid in d.responders {
      var s := d.responders[cid];
      CollectDrains(d, s, cid);
      PutDrains(Collect(d, s, cid), cid, Emptied(s));
      PutDrains(d, cid, s);
    }
  }

  lemma CollectDrains(d: Dispatcher, s: Session, cid: Cid)
    requires Drained(d)
    ensures Drained(Collect(d, s, cid)) && Drawn(Emptied(s))
  {
  }

  lemma ResponderDrains(d: Dispatcher, cid: Cid, pdu: Pdu, now: real, keys: Keys, coins: Coins)
    requires Drained(d) && cid in d.responders
    ensures var o := DeliverToResponder(d, cid, pdu, now, keys, coins); !o.escaped ==> Drained(o.d)
  {
    hide Deliver, Drained, ReapResponder, Drawn;
    DeliveryDrains(d, d.responders[cid], pdu, now, keys, coins, cid);
    var v := Deliver(d, d.responders[cid], pdu, now, keys, coins, cid);
    if !v.escaped {
      PutDrains(v.d, cid, v.s);
      ReapDrains(v.d.(responders := v.d.responders[cid := v.s]), cid);
    }
  }

  lemma StoreIsNoQueue(d: Dispatcher, store: Store)
    requires Drained(d)
    ensures Drained(d.(store := store))
  {
  }

  lemma RequestDrains(d: Dispatcher, cid: Cid, pdu: Pdu, now: real, keys: Keys, coins: Coins)
    requires Drained(d)
    ensures var o := RouteInitRequest(d, cid, pdu, now, keys, coins); !o.escaped ==> Drained(o.d)
  {
    hide Deliver, Drained, ReapResponder, DropResponder, Drawn, Add, Accepts, RecordFirstSent, DeliverToResponder;
    if cid in d.responders {
      ResponderDrains(d, cid, pdu, now, keys, coins);
    } else {
      var noted := d.(store := Add(d.store, cid, pdu, now));
      StoreIsNoQueue(d, noted.store);
      DeliveryDrains(noted, New(Responder, None, d.config), pdu, now, keys, coins, cid);
      var v := Deliver(noted, New(Responder, None, d.config), pdu, now, keys, coins, cid);
      if !v.escaped {
        PutDrains(v.d, cid, v.s);
        var after := v.d.(responders := v.d.responders[cid := v.s]);
        PutDrains(after, cid, v.s);
        StoreIsNoQueue(after, RecordFirstSent(after.store, cid, v.s.lastSent));
        ReapDrains(after, cid);
        ReapDrains(after.(store := RecordFirstSent(after.store, cid, v.s.lastSent)), cid);
      }
    }
  }

  lemma ResponseDrains(d: Dispatcher, cid: Cid, pdu: Pdu, now: real, keys: Keys, coins: Coins)
    requires Drained(d)
    ensures Drained(RouteInitResponse(d, cid, pdu, now, keys, coins).d)
  {
    hide Update, Add, Accepts, Fork, RecordSent, Drawn;
    var e := RouteInitResponse(d, cid, pdu, now, keys, coins).d;
    assert e.established == d.established && e.responders == d.responders;
  }

  lemma ForksDrain(d: Dispatcher, cid: Cid, pdu: Pdu, now: real, keys: Keys, coins: Coins)
    requires Drained(d)
    ensures Drained(RouteToForks(d, cid, pdu, now, keys, coins).d)
  {
    hide FeedForks, Promote, Drawn;
    if cid in d.forks {
      var f := FeedForks(d.forks[cid], 0, pdu, now, keys, coins);
      var after := d.(forks := d.forks[cid := f.sessions]);
      assert Drained(after);
      hide Drained;
      if f.winner.Some? {
        CollectDrains(after, f.winner.value, cid);
        PutDrains(Collect(after, f.winner.value, cid), cid, Emptied(f.winner.value));
      }
    }
  }

  ghost predicate QuietRun(d: Dispatcher, es: seq<Event>)
    decreases |es|
  {
    es == [] || (!Escapes(d, es[0]) && QuietRun(After(d, es[0]), es[1..]))
  }

  /** Over whole runs. */
  lemma {:induction false} RunDrains(d: Dispatcher, es: seq<Event>)
    requires Good(d) && Drained(d) && PossibleRun(d, es) && QuietRun(d, es)
    ensures Drained(Final(d, es))
    decreases |es|
  {
    hide Good, After, Possible, Drained, Escapes;
    if es != [] {
      StepKeeps(d, es[0]);
      DrainedUnlessEscaped(d, es[0]);
      RunDrains(After(d, es[0]), es[1..]);
    }
  }

  /** One message for each established session with a payload waiting. */
  function Messages(m: map<Cid, Session>, order: seq<Cid>): seq<Pdu>
    requires Within(order, m)
  {
    if order == [] then [] else Says(order[0], m[order[0]]) + Messages(m, order[1..])
  }

  lemma {:induction false} NothingLeft(m: map<Cid, Session>, order: seq<Cid>)
    requires Within(order, m) && forall cid <- m :: Drawn(m[cid])
    ensures Sendings(m, order) == Messages(m, order) && LeftPdus(m, order) == [] && LeftPayloads(m, order) == []
  {
    hide Says;
    if order != [] {
      assert order[0] in order;
      NothingLeft(m, order[1..]);
    }
  }

  /** With nothing left behind, update() puts out the messages of those with a payload waiting, in the order
      of the dict and up to one that raises, and nothing else: no payload, and not a word of any handshake. */
  lemma UpdateSendsWhatWaits(d: Dispatcher, orders: Orders, now: real, keys: Keys, coins: Coins)
    requires Good(d) && GoodOrders(d, orders, now, keys, coins) && Drained(d)
    ensures var u := CrankAll(d, orders, now, keys, coins);
            && Within(orders.established, d.established)
            && var prompt := Prompt(d.established, orders.established);
            && Within(prompt, d.established)
            && u.d.outPdus == d.outPdus + Messages(d.established, prompt) && u.d.outPayloads == d.outPayloads
            && (!u.escaped ==> prompt == orders.established)
  {
    hide Good, CrankAll, GoodOrders, Refreshed, Prompt, Sendings, LeftPdus, LeftPayloads, Messages, Says, Said, Drawn;
    UpdatePutsOut(d, orders, now, keys, coins);
    NothingLeft(d.established, Prompt(d.established, orders.established));
    var e := Refreshed(d, now);
    RefreshedResponders(d, now);
    NothingLeft(e.responders, orders.responders);
  }

  lemma RefreshedResponders(d: Dispatcher, now: real)
    ensures forall cid <- Refreshed(d, now).responders ::
              cid in d.responders && Refreshed(d, now).responders[cid] == d.responders[cid]
  {
    hide Expire;
  }

  // ---- payloads handed in -----------------------------------------------------------------------------------------

  /** A payload submitted under a cid waits in every session that may yet speak for it, and in no other; an
      empty one, or one under a cid that nobody knows, changes nothing. */
  lemma SubmittedWaits(d: Dispatcher, cid: Cid, payload: Bytes)
    requires d.templates.Keys == d.forks.Keys
    ensures var e := PostPayloadTo(d, cid, payload);
            if payload == [] || (cid !in d.established && !Pending(d, cid)) then e == d
            else
              && (if cid in d.established then
                    e == d.(established := d.established[cid := d.established[cid].(pending := Some(payload))])
                  else if cid in d.responders then
                    e == d.(responders := d.responders[cid := d.responders[cid].(pending := Some(payload))])
                  else
                    && e == d.(templates := e.templates, forks := e.forks)
                    && e.templates == d.templates[cid := d.templates[cid].(pending := Some(payload))]
                    && e.forks.Keys == d.forks.Keys && |e.forks[cid]| == |d.forks[cid]|
                    && (forall i | 0 <= i < |d.forks[cid]| ::
                          e.forks[cid][i] == d.forks[cid][i].(pending := Some(payload)))
                    && (forall k <- d.forks | k != cid :: e.forks[k] == d.forks[k]))
  {
    if payload == [] && cid !in d.established && cid !in d.responders && cid in d.templates {
      assert PostPayloadToAll(d.forks[cid], payload) == d.forks[cid];
    }
  }

  // ---- traffic that arrives ---------------------------------------------------------------------------------------

  /** One more of the peer's messages counted. */
  function Heard(s: Session): Session {
    if s.role == Initiator then s.(seqB2a := s.seqB2a + 1) else s.(seqA2b := s.seqA2b + 1)
  }

  /** A message is not what an established session of an accountable dispatcher has taken last. */
  lemma MessageIsNew(d: Dispatcher, x: Account, cid: Cid, pdu: Pdu)
    requires Accountable(d, x) && cid in d.established && pdu.Pdu? && pdu.payload.Message?
    ensures d.established[cid].lastReceived != Some(pdu) && Confirmed(d.established[cid], cid, d.config)
  {
    GoodEstablished(d, cid);
    hide Good, Derivation, Founded;
    assert Vouched(cid, d.established[cid], x);
  }

  lemma SessionHears(s: Session, cid: Cid, config: Config, pdu: Pdu, plain: Bytes, now: real, keys: Keys, coins: Coins)
    requires Confirmed(s, cid, config) && s.lastReceived != Some(pdu)
    requires pdu.Pdu? && pdu.cid == cid && pdu.payload.Message? && Received(s) < SEQ_LIMIT
    requires pdu.payload.seqno == Received(s) && SealedByPeer(s, pdu.payload.m, Received(s), plain)
    ensures var c := Update(PostPdu(s, pdu), now, keys, coins);
            && c.next.outPayloads == s.outPayloads + [plain]
            && if Exhausted(s) then
                 && c.result == Raised(Escaped)
                 && c.next == Heard(s).(pending := None, outPayloads := s.outPayloads + [plain])
               else
                 c.result.Returned? && Emptied(c.next) == Heard(Said(s)) && c.next.outPdus == s.outPdus + Says(cid, s)
  {
    hide HandleEstablishedMessage, SealedByPeer;
    var posted := PostPdu(s, pdu);
    assert posted.inQueue == [pdu] && [pdu][1..] == [];
    assert posted.(inQueue := []) == s;
    MessageIsDelivered(s, pdu);
    PlainIsOne(s, pdu.payload.m, Received(s), plain);
    var heard := Heard(s).(outPayloads := s.outPayloads + [plain]);
    assert TakeIncoming(posted, now, keys, coins) == SessionModel.Step(heard, None, Output([], [plain], []));
    hide TakeIncoming;
    SpeakAfter(s, heard, cid, now);
  }

  lemma SpeakAfter(s: Session, heard: Session, cid: Cid, now: real)
    requires s.state == Established && s.keys.Some? && s.cid == Some(cid) && s.deadline.None?
    requires heard == Heard(s).(outPayloads := heard.outPayloads)
    ensures var b := SendPending(heard);
            if Exhausted(s) then b.error == Some(Escaped) && b.next == heard.(pending := None)
            else
              && b.error.None? && b.next.outPdus == s.outPdus + Says(cid, s) && CheckTimeout(b.next, now).error.None?
              && CheckTimeout(b.next, now).next == b.next && b.next.outPayloads == heard.outPayloads
              && Emptied(b.next) == Heard(Said(s)) && Report(b.next, now).Returned?
  {
  }

  /** A message that an established session's peer has sealed under its next number comes out as a payload
      of that cid, after those left behind. Where the session has a payload of its own waiting, that goes out;
      if there is no number left for it, the exception passes and what was heard waits in the session. */
  lemma TrafficIsHeard(d: Dispatcher, x: Account, cid: Cid, pdu: Pdu, plain: Bytes, now: real, keys: Keys, coins: Coins)
    requires Accountable(d, x) && cid in d.established && pdu.Pdu? && pdu.cid == cid && pdu.payload.Message?
    requires var s := d.established[cid];
             && s.keys.Some? && s.cid.Some? && Received(s) < SEQ_LIMIT && pdu.payload.seqno == Received(s)
             && SealedByPeer(s, pdu.payload.m, Received(s), plain)
    ensures var s, o := d.established[cid], PostPduTo(d, pdu, now, keys, coins);
            if Exhausted(s) then
              && o.escaped && o.d.outPdus == d.outPdus && o.d.outPayloads == d.outPayloads
              && o.d.established
                 == d.established[cid := Heard(s).(pending := None, outPayloads := s.outPayloads + [plain])]
            else
              && !o.escaped && o.d.established == d.established[cid := Heard(Said(s))]
              && o.d.outPdus == d.outPdus + (s.outPdus + Says(cid, s))
              && o.d.outPayloads == d.outPayloads + Tagged(cid, s.outPayloads) + [(cid, plain)]
  {
    hide Update, Accountable, Confirmed, SealedByPeer, Says, Said, Heard, Exhausted;
    MessageIsNew(d, x, cid, pdu);
    var s := d.established[cid];
    SessionHears(s, cid, d.config, pdu, plain, now, keys, coins);
    assert Tagged(cid, s.outPayloads + [plain]) == Tagged(cid, s.outPayloads) + [(cid, plain)];
  }

  // ---- what arrives once more -----------------------------------------------------------------------------

  /** Of one session, with nothing left to say and its time not up: the last PDU sent, again. */
  lemma SessionRepeats(s: Session, pdu: Pdu, now: real, keys: Keys, coins: Coins)
    requires s.state != Dropped && s.inQueue == [] && s.lastReceived == Some(pdu) && s.lastSent.Some?
    requires !TimedOut(s, now) && (s.state == Established ==> s.pending.None?)
    ensures var c := Update(PostPdu(s, pdu), now, keys, coins);
            c.result.Returned? && c.next == s.(outPdus := s.outPdus + [s.lastSent.value])
  {
    var posted := PostPdu(s, pdu);
    assert posted.inQueue == [pdu] && [pdu][1..] == [];
    assert posted.(inQueue := []) == s;
  }

  /** The PDU an established session, a responder or a fork has taken last, arriving once more: what the
      session put out for it is put out again, behind what was left in its queue, and nothing else happens. */
  lemma RepeatIsAnswered(d: Dispatcher, cid: Cid, pdu: Pdu, s: Session, i: nat, now: real, keys: Keys, coins: Coins)
    requires Good(d) && pdu.Pdu? && pdu.cid == cid
    requires s.lastReceived == Some(pdu) && s.lastSent.Some? && s.state != Dropped && !TimedOut(s, now)
    requires s.state == Established ==> s.pending.None?
    requires || (cid in d.established && s == d.established[cid])
             || (cid !in d.established && cid in d.responders && s == d.responders[cid]
                 && pdu.payload.SessionInitRequest? && s.state == ExpectCompletionRequest)
             || (cid !in d.established && cid in d.forks && i == MatchingFork(d.forks[cid], pdu) < |d.forks[cid]|
                 && s == d.forks[cid][i] && pdu.payload.SessionInitResponse?)
    ensures var o := PostPduTo(d, pdu, now, keys, coins);
            && !o.escaped && o.d.outPdus == d.outPdus + (s.outPdus + [s.lastSent.value])
            && o.d.outPayloads == d.outPayloads + Tagged(cid, s.outPayloads) && o.d.store == d.store
            && if cid in d.established then o.d.established == d.established[cid := Emptied(s)]
               else if pdu.payload.SessionInitRequest? then o.d.responders == d.responders[cid := Emptied(s)]
               else o.d.forks == d.forks[cid := d.forks[cid][i := Emptied(s)]]
  {
    hide Update;
    QuietlyFiled(d, cid, s, i, pdu);
    hide Good;
    SessionRepeats(s, pdu, now, keys, coins);
  }

  lemma QuietlyFiled(d: Dispatcher, cid: Cid, s: Session, i: nat, pdu: Pdu)
    requires Good(d) && s.state != Dropped
    requires || (cid in d.established && s == d.established[cid])
             || (cid in d.responders && s == d.responders[cid])
             || (cid in d.forks && i < |d.forks[cid]| && s == d.forks[cid][i])
    ensures s.inQueue == [] && d.templates.Keys == d.forks.Keys
  {
    if cid in d.established && s == d.established[cid] {
      GoodEstablished(d, cid);
    } else if cid in d.responders && s == d.responders[cid] {
      GoodResponder(d, cid);
    } else {
      GoodForksAt(d, cid);
      assert s in d.forks[cid];
    }
  }

  // ---- which exceptions pass ------------------------------------------------------------------------------

  /** Of what a crank may raise, the dispatcher lets pass what is not the session's own refusal. */
  lemma OnlyForeignErrorsPass(s: Session, now: real, keys: Keys, coins: Coins)
    ensures var c := Update(s, now, keys, coins);
            && (EscapesFrom(c.result) <==> c.result == Raised(Escaped))
            && (c.result.Raised? <==> c.result in [Raised(Escaped), Raised(HandshakeFailed), Raised(UnexpectedPdu)])
  {
    TakingRaises(s, now, keys, coins);
    hide TakeIncoming;
  }

  lemma TakingRaises(s: Session, now: real, keys: Keys, coins: Coins)
    ensures TakeIncoming(s, now, keys, coins).error
            in [None, Some(Escaped), Some(HandshakeFailed), Some(UnexpectedPdu)]
  {
  }

  /** A PDU that its established session refuses as forged or out of place raises nothing, is
      not answered, and leaves the session as it was, with its queues handed over. */
  lemma RefusedArrival(d: Dispatcher, cid: Cid, pdu: Pdu, now: real, keys: Keys, coins: Coins)
    requires Good(d) && pdu.Pdu? && pdu.cid == cid && cid in d.established
    requires d.established[cid].lastReceived != Some(pdu)
    requires !pdu.payload.Message? || pdu.payload.seqno != Received(d.established[cid])
    ensures var s, o := d.established[cid], PostPduTo(d, pdu, now, keys, coins);
            && !o.escaped && o.d.established == d.established[cid := Emptied(s)]
            && o.d.outPdus == d.outPdus + s.outPdus && o.d.outPayloads == d.outPayloads + Tagged(cid, s.outPayloads)
  {
    GoodEstablished(d, cid);
    hide Good;
    var s := d.established[cid];
    var posted := PostPdu(s, pdu);
    assert posted.inQueue == [pdu] && [pdu][1..] == [];
    assert posted.(inQueue := []) == s;
    assert Update(posted, now, keys, coins).next == s;
  }

  // ---- from one dispatcher to another -----------------------------------------------------------------------------

  /** The two ends of one connection, with nothing under way from the first to the second. */
  predicate InStep(s: Session, t: Session) {
    s.keys.Some? && t.keys == s.keys && s.role != t.role && s.cid.Some? && t.cid == s.cid && SendSeq(s) == Received(t)
  }

  lemma {:induction false} IsAmong(m: map<Cid, Session>, order: seq<Cid>, cid: Cid) returns (i: nat)
    requires Within(order, m) && cid in order && m[cid].keys.Some? && m[cid].pending.Some?
    ensures i < |Sendings(m, order)| && Sendings(m, order)[i] == WaitingPdu(cid, m[cid])
  {
    var before := m[order[0]].outPdus + Says(order[0], m[order[0]]);
    if order[0] == cid {
      i := |m[cid].outPdus|;
    } else {
      var j := IsAmong(m, order[1..], cid);
      i := |before| + j;
    }
  }

  /** A payload handed to one dispatcher under an established cid is put out by its next update(), in a PDU
      that, given to the other, makes it hand over that payload under that cid; and they are in step again. */
  lemma DispatchersTalk(a: Dispatcher, b: Dispatcher, x: Account, cid: Cid, payload: Bytes, orders: Orders,
                        now: real, keysA: Keys, coinsA: Coins, later: real, keysB: Keys, coinsB: Coins)
    returns (i: nat)
    requires Good(a) && Accountable(b, x) && cid in a.established && cid in b.established && payload != []
    requires InStep(a.established[cid], b.established[cid]) && !Exhausted(b.established[cid])
    requires GoodOrders(PostPayloadTo(a, cid, payload), orders, now, keysA, coinsA)
    requires !CrankAll(PostPayloadTo(a, cid, payload), orders, now, keysA, coinsA).escaped
    ensures var u := CrankAll(PostPayloadTo(a, cid, payload), orders, now, keysA, coinsA).d;
            && a.outPdus <= u.outPdus && |a.outPdus| <= i < |u.outPdus|
            && var o := PostPduTo(b, u.outPdus[i], later, keysB, coinsB);
            && !o.escaped
            && o.d.outPayloads == b.outPayloads + Tagged(cid, b.established[cid].outPayloads) + [(cid, payload)]
            && cid in u.established && cid in o.d.established
            && InStep(u.established[cid], o.d.established[cid])
            && (b.established[cid].pending.None? && InStep(b.established[cid], a.established[cid]) ==>
                  InStep(o.d.established[cid], u.established[cid]))
  {
    hide Good, CrankAll, GoodOrders, Accountable, PostPduTo, Says, Said, WaitingPdu, PostPayloadTo, InStep, Heard;
    var s, t := a.established[cid], b.established[cid];
    i := GoesOut(a, cid, payload, orders, now, keysA, coinsA);
    var told := s.(pending := Some(payload));
    ToTheOther(s, t, payload);
    TrafficIsHeard(b, x, cid, WaitingPdu(cid, told), payload, later, keysB, coinsB);
  }

  lemma ToTheOther(s: Session, t: Session, payload: Bytes)
    requires InStep(s, t)
    ensures var told := s.(pending := Some(payload));
            && InStep(Said(told), Heard(Said(t)))
            && SendSeq(told) == Received(t)
            && (t.pending.None? && InStep(t, s) ==> InStep(Heard(Said(t)), Said(told)))
            && t.keys.Some? && t.cid.Some? && var pdu := WaitingPdu(s.cid.value, told);
            && pdu.Pdu? && pdu.cid == s.cid.value && pdu.payload.Message? && pdu.payload.seqno == Received(t)
            && SealedByPeer(t, pdu.payload.m, Received(t), payload)
  {
  }

  /** What is submitted under an established cid goes out in the next update() that raises nothing. */
  lemma GoesOut(a: Dispatcher, cid: Cid, payload: Bytes, orders: Orders, now: real, keys: Keys, coins: Coins)
    returns (i: nat)
    requires Good(a) && cid in a.established && payload != []
    requires GoodOrders(PostPayloadTo(a, cid, payload), orders, now, keys, coins)
    requires !CrankAll(PostPayloadTo(a, cid, payload), orders, now, keys, coins).escaped
    ensures var u := CrankAll(PostPayloadTo(a, cid, payload), orders, now, keys, coins).d;
            var told := a.established[cid].(pending := Some(payload));
            && a.outPdus <= u.outPdus && |a.outPdus| <= i < |u.outPdus|
            && told.cid == Some(cid) && told.keys.Some? && SendSeq(told) < SEQ_LIMIT
            && u.outPdus[i] == WaitingPdu(cid, told)
            && cid in u.established && u.established[cid] == Said(told)
  {
    hide Good, CrankAll, GoodOrders, Refreshed, Prompt, Sendings, LeftPdus, LeftPayloads, Says, Said, WaitingPdu;
    var told := a.established[cid].(pending := Some(payload));
    var a1 := PostPayloadTo(a, cid, payload);
    assert a1.established[cid] == told && a1.outPdus == a.outPdus;
    StepKeeps(a, Submits(cid, payload));
    hide PostPayloadTo;
    UpdatePutsOut(a1, orders, now, keys, coins);
    FiledThere(a1, cid);
    NoneExhausted(a1, orders, now, keys, coins, cid);
    var j := IsAmong(a1.established, orders.established, cid);
    i := |a.outPdus| + j;
  }

  lemma FiledThere(d: Dispatcher, cid: Cid)
    requires Good(d) && cid in d.established
    ensures d.established[cid].cid == Some(cid) && d.established[cid].keys.Some?
  {
    hide Good;
    GoodEstablished(d, cid);
  }

  lemma NoneExhausted(d: Dispatcher, orders: Orders, now: real, keys: Keys, coins: Coins, cid: Cid)
    requires Good(d) && GoodOrders(d, orders, now, keys, coins) && cid in d.established
    requires !CrankAll(d, orders, now, keys, coins).escaped
    ensures cid in orders.established && !Exhausted(d.established[cid])
  {
    hide Good, CrankAll, Exhausted, CrankAllEstablished, CrankAllResponders;
    RefreshedKeeps(d, now);
    UpdateRaises(d, orders, now, keys, coins);
  }

  // ---- what is announced, recorded and forgotten ------------------------------------------------------------------

  /** An update() that returns announces what there is to be got from the dispatcher. */
  lemma UpdateAnnounces(t: Turn, now: real)
    ensures var r := UpdateReturns(t, now);
            if t.escaped then r == Raised(Escaped)
            else r.Returned? && Announces(r.ready, |t.d.outPayloads|, |t.d.outPdus|)
  {
  }

  /** A closed cid is known no more, and nothing else has changed; what still arrives or is submitted under
      it, if it does not ask or answer, changes nothing. */
  lemma ClosedIsForgotten(d: Dispatcher, cid: Cid, pdu: Pdu, payload: Bytes, now: real, keys: Keys, coins: Coins)
    requires Good(d) && cid in d.established && pdu.Pdu? && pdu.cid == cid && !pdu.payload.SessionInitRequest?
    ensures var e := Close(d, cid);
            && cid !in e.established && !Pending(e, cid)
            && e.established + map[cid := d.established[cid]] == d.established
            && e == d.(established := e.established)
            && PostPduTo(e, pdu, now, keys, coins) == Outcome(e, false) && PostPayloadTo(e, cid, payload) == e
  {
    assert cid !in d.responders && cid !in d.templates && cid !in d.forks by { SameKeys(d); }
    hide Good;
  }

  /** The response to a request that got a responder is on record with the first candidate of the cid. */
  lemma AnswerIsOnRecord(d: Dispatcher, cid: Cid, pdu: Pdu, now: real, keys: Keys, coins: Coins)
    requires cid !in d.responders && Accepts(d.store, cid, now)
    ensures var o := RouteInitRequest(d, cid, pdu, now, keys, coins);
            !o.escaped && cid in o.d.responders && o.d.responders[cid].state == ExpectCompletionRequest ==>
              var cs := CandidatesFor(o.d.store, cid); cs != [] && cs[0].sent == o.d.responders[cid].lastSent
  {
    hide Update, Accepts, Expire;
    assert CandidatesFor(Add(d.store, cid, pdu, now), cid) != [];
    hide Add;
  }

  /** What a new fork has answered is on record with every candidate made for the response. */
  lemma SpawnIsOnRecord(d: Dispatcher, cid: Cid, pdu: Pdu, now: real, keys: Keys, coins: Coins)
    requires Spawns(d, cid, pdu, now)
    ensures var o := RouteInitResponse(d, cid, pdu, now, keys, coins);
            !o.escaped ==>
              && cid in o.d.forks && o.d.forks[cid] != []
              && var cs := CandidatesFor(o.d.store, cid);
                 && cs != [] && cs[|cs| - 1].received == pdu
                 && forall c <- cs | c.received == pdu :: c.sent == o.d.forks[cid][|o.d.forks[cid]| - 1].lastSent
  {
    hide Update, Expire;
    assert Accepts(d.store, cid, now);
    var a := Add(d.store, cid, pdu, now);
    var cs := CandidatesFor(a, cid);
    assert cs != [] && cs[|cs| - 1].received == pdu;
    hide Add, Accepts, Fork;
  }
}
