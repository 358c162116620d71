/** The sequence counter can be spent: from every established session that can be reached, inputs lead
    to one that has a payload waiting and no number left to send it under. */
module SessionCounter {
  import opened Base
  import opened Crypto
  import opened SessionFacts
  import opened SessionModel
  import opened SessionRuns
  import opened SessionProgress
  import opened SessionNoise
  import opened Handshake

  const WORD: Bytes := [0]

  /** A payload offered and a crank to send it, n times over. */
  function Rounds(n: nat, now: real, keys: Keys, coins: Coins): seq<Event> {
    if n == 0 then [] else [Offer(WORD), Event.Crank(now, keys, coins)] + Rounds(n - 1, now, keys, coins)
  }

  /** Established, with nothing to take and nothing to send. */
  predicate Resting(s: Session) {
    Coherent(s) && s.state == Established && s.inQueue == [] && s.pending.None?
  }

  lemma OneRound(h: History, now: real, keys: Keys, coins: Coins)
    requires Resting(h.s) && SendSeq(h.s) < SEQ_LIMIT
    ensures var g := Next(Next(h, Offer(WORD)), Event.Crank(now, keys, coins));
            Resting(g.s) && SendSeq(g.s) == SendSeq(h.s) + 1
  {
  }

  /** n rounds take the counter from where it is to n more. */
  lemma {:induction false} RoundsCount(h: History, n: nat, now: real, keys: Keys, coins: Coins)
    requires Resting(h.s) && SendSeq(h.s) + n <= SEQ_LIMIT
    ensures var g := Run(h, Rounds(n, now, keys, coins)); Resting(g.s) && SendSeq(g.s) == SendSeq(h.s) + n
    decreases n
  {
    hide Next, Resting;
    if n > 0 {
      var offer, crank, more := Offer(WORD), Event.Crank(now, keys, coins), Rounds(n - 1, now, keys, coins);
      OneRound(h, now, keys, coins);
      var g := Next(Next(h, offer), crank);
      assert ([offer, crank] + more)[1..] == [crank] + more && ([crank] + more)[1..] == more;
      assert Run(h, [offer, crank] + more) == Run(Next(h, offer), [crank] + more) == Run(g, more);
      RoundsCount(g, n - 1, now, keys, coins);
    }
  }

  /** An established session stays established, and its queue gets shorter. */
  lemma CrankShortens(h: History, now: real, keys: Keys, coins: Coins)
    requires Coherent(h.s) && h.s.state == Established
    ensures var g := Next(h, Event.Crank(now, keys, coins));
            && Coherent(g.s) && g.s.state == Established
            && g.s.inQueue == (if h.s.inQueue == [] then [] else h.s.inQueue[1..])
            && (h.s.inQueue == [] && !Exhausted(h.s) ==> g.s.pending.None?)
  {
    CrankTakesTheHead(h.s, now, keys, coins);
    CrankFacts(h.s.(inQueue := Head(h.s)), now, keys, coins);
    hide TakeIncoming;
  }

  /** The inputs: cranks until the queue is empty and the slot too, rounds until the counter is spent,
      and one payload more. */
  lemma {:induction false} LeadsToLoss(h: History, now: real, keys: Keys, coins: Coins) returns (future: seq<Event>)
    requires Coherent(h.s) && h.s.state == Established
    ensures Coherent(Run(h, future).s) && LosesPayload(Run(h, future).s)
    decreases |h.s.inQueue|, if h.s.pending.Some? then 1 else 0
  {
    hide Next;
    if h.s.inQueue == [] && Exhausted(h.s) {
      future := [];
    } else if h.s.inQueue == [] && h.s.pending.None? {
      var n := if SendSeq(h.s) < SEQ_LIMIT then SEQ_LIMIT - SendSeq(h.s) else 0;
      if n > 0 {
        RoundsCount(h, n, now, keys, coins);
      }
      var rounds := Rounds(n, now, keys, coins);
      RunAppend(h, rounds, [Offer(WORD)]);
      OneEvent(Run(h, rounds), Offer(WORD));
      OneOfferMore(Run(h, rounds));
      future := rounds + [Offer(WORD)];
    } else {
      CrankShortens(h, now, keys, coins);
      var crank := Event.Crank(now, keys, coins);
      var rest := LeadsToLoss(Next(h, crank), now, keys, coins);
      future := [crank] + rest;
      assert ([crank] + rest)[1..] == rest;
    }
  }

  lemma OneOfferMore(h: History)
    requires Resting(h.s) && SendSeq(h.s) >= SEQ_LIMIT
    ensures var g := Next(h, Offer(WORD)); Coherent(g.s) && LosesPayload(g.s)
  {
  }

  /** Every run of a session, or of a fork, that leaves it established has a continuation after which
      the next crank loses the waiting payload. */
  lemma CounterRunsOut(s: Session, past: seq<Event>, now: real, keys: Keys, coins: Coins)
    requires Starting(s) && Run(Begin(s), past).s.state == Established
    ensures exists future ::
              var t := Run(Begin(s), past + future).s; Coherent(t) && LosesPayload(t)
  {
    hide LosesPayload, Coherent, Next;
    ReachableIsCoherent(s, past);
    var future := LeadsToLoss(Run(Begin(s), past), now, keys, coins);
    RunAppend(Begin(s), past, future);
    assert var t := Run(Begin(s), past + future).s; Coherent(t) && LosesPayload(t);
  }

  // ---- from construction on -------------------------------------------------------------------------

  function CrankAt(x: Chance, keys: Keys): Event {
    Event.Crank(x.now, keys, x.coins)
  }

  /** What Alice goes through in a handshake without payloads, as a run from her construction. */
  lemma AliceRuns(m: Meeting, x: seq<Chance>, response: Pdu, confirmation: Pdu)
    requires |x| == 5 && m.sayA.None?
    ensures var a1 := First(m, x[0]);
            var a2 := Update(PostPdu(a1.next, response), x[2].now, m.keysA, x[2].coins);
            var a3 := Update(PostPdu(a2.next, confirmation), x[4].now, m.keysA, x[4].coins);
            var begin := Event.Initiate(m.st.idB, x[0].now, m.keysA, m.cid, x[0].coins);
            Run(Begin(New(Initiator, Some(m.st.idA), m.configA)),
                [begin, Post(response), CrankAt(x[2], m.keysA), Post(confirmation), CrankAt(x[4], m.keysA)]).s
            == a3.next
  {
    hide Update, SessionModel.Initiate;
    var h := Begin(New(Initiator, Some(m.st.idA), m.configA));
    var begin := Event.Initiate(m.st.idB, x[0].now, m.keysA, m.cid, x[0].coins);
    var rest := [Post(response), CrankAt(x[2], m.keysA), Post(confirmation), CrankAt(x[4], m.keysA)];
    assert [begin] + rest == [begin, rest[0], rest[1], rest[2], rest[3]] && ([begin] + rest)[1..] == rest;
    RunOfFour(Next(h, begin), rest[0], rest[1], rest[2], rest[3]);
  }

  lemma BobRuns(m: Meeting, x: seq<Chance>, request: Pdu, completion: Pdu)
    requires |x| == 5 && m.sayB.None?
    ensures var b1 := Update(PostPdu(Bob0(m), request), x[1].now, m.keysB, x[1].coins);
            var b2 := Update(PostPdu(b1.next, completion), x[3].now, m.keysB, x[3].coins);
            Run(Begin(New(Responder, None, m.configB)),
                [Post(request), CrankAt(x[1], m.keysB), Post(completion), CrankAt(x[3], m.keysB)]).s == b2.next
  {
    hide Update;
    RunOfFour(Begin(New(Responder, None, m.configB)), Post(request), CrankAt(x[1], m.keysB), Post(completion),
              CrankAt(x[3], m.keysB));
  }

  lemma RunOfFour(h: History, a: Event, b: Event, c: Event, d: Event)
    ensures Run(h, [a, b, c, d]) == Next(Next(Next(Next(h, a), b), c), d)
  {
    hide Next;
    var h1 := Next(h, a);
    var h2 := Next(h1, b);
    assert [a, b, c, d][1..] == [b, c, d] && [b, c, d][1..] == [c, d] && [c, d][1..] == [d];
    assert Run(h, [a, b, c, d]) == Run(h1, [b, c, d]) == Run(h2, [c, d]) == Run(Next(h2, c), [d]);
    OneEvent(Next(h2, c), d);
  }

  /** The failing inputs: whoever can meet can get to where a payload is lost, on either side. */
  lemma LossIsReachable(m: Meeting, x: seq<Chance>)
    requires Introduced(m) && |x| == 5 && m.sayA.None? && m.sayB.None?
    requires exists aead <- m.configB.acceptableAeads :: aead in m.configA.acceptableAeads
    ensures exists events :: var s := Run(Begin(New(Initiator, Some(m.st.idA), m.configA)), events).s;
              s.role == Initiator && Coherent(s) && LosesPayload(s)
    ensures exists events :: var s := Run(Begin(New(Responder, None, m.configB)), events).s;
              s.role == Responder && Coherent(s) && LosesPayload(s)
  {
    hide Update, First, Introduced, LosesPayload, Coherent, Next;
    HandshakeCompletes(m, x);
    var a1 := First(m, x[0]);
    var b1 := Update(PostPdu(Bob0(m), a1.out.pdus[0]), x[1].now, m.keysB, x[1].coins);
    var a2 := Update(PostPdu(a1.next, b1.out.pdus[0]), x[2].now, m.keysA, x[2].coins);
    var b2 := Update(PostPdu(b1.next, a2.out.pdus[0]), x[3].now, m.keysB, x[3].coins);
    AliceRuns(m, x, b1.out.pdus[0], b2.out.pdus[0]);
    BobRuns(m, x, a1.out.pdus[0], a2.out.pdus[0]);
    LossFrom(New(Initiator, Some(m.st.idA), m.configA),
             [Event.Initiate(m.st.idB, x[0].now, m.keysA, m.cid, x[0].coins), Post(b1.out.pdus[0]),
              CrankAt(x[2], m.keysA), Post(b2.out.pdus[0]), CrankAt(x[4], m.keysA)], x[4]);
    LossFrom(New(Responder, None, m.configB),
             [Post(a1.out.pdus[0]), CrankAt(x[1], m.keysB), Post(a2.out.pdus[0]), CrankAt(x[3], m.keysB)], x[4]);
  }

  lemma LossFrom(s: Session, past: seq<Event>, x: Chance)
    requires Starting(s) && Run(Begin(s), past).s.state == Established
    ensures exists events :: var t := Run(Begin(s), events).s; t.role == s.role && Coherent(t) && LosesPayload(t)
  {
    hide LosesPayload, Coherent, Next;
    CounterRunsOut(s, past, x.now, Keys(map[], map[]), x.coins);
    var future :| var t := Run(Begin(s), past + future).s; Coherent(t) && LosesPayload(t);
    PartyIsFixed(Begin(s), past + future);
  }
}
