/** What PDUs that a session rejects can do to a run of it: nothing, wherever they come. */
module SessionNoise {
  import opened Base
  import opened SessionFacts
  import opened SessionModel
  import opened SessionRuns
  import opened SessionProgress

  // ---- a crank looks at the head of the queue and no further ------------------------------------------

  function WithQueue(a: Step, q: seq<Pdu>): Step {
    a.(next := a.next.(inQueue := q))
  }

  lemma HandlersIgnoreQueue(s: Session, q: seq<Pdu>, pdu: Pdu, now: real, keys: Keys, coins: Coins)
    requires pdu.Pdu? && s.cid.Some?
    ensures pdu.payload.SessionInitRequest? ==>
      HandleInitRequest(s.(inQueue := q), pdu.payload, pdu, now, keys, coins)
      == WithQueue(HandleInitRequest(s, pdu.payload, pdu, now, keys, coins), q)
    ensures pdu.payload.SessionInitResponse? ==>
      HandleInitResponse(s.(inQueue := q), pdu.payload, pdu, now, keys, coins)
      == WithQueue(HandleInitResponse(s, pdu.payload, pdu, now, keys, coins), q)
    ensures pdu.payload.SessionCompletionRequest? ==>
      HandleCompletionRequest(s.(inQueue := q), pdu.payload, pdu)
          == WithQueue(HandleCompletionRequest(s, pdu.payload, pdu), q)
    ensures pdu.payload.SessionCompletionResponse? ==>
      HandleCompletionResponse(s.(inQueue := q), pdu.payload, pdu)
          == WithQueue(HandleCompletionResponse(s, pdu.payload, pdu), q)
    ensures pdu.payload.Message? ==>
      HandleEstablishedMessage(s.(inQueue := q), pdu.payload) == WithQueue(HandleEstablishedMessage(s, pdu.payload), q)
  {
    match pdu.payload
    case SessionInitRequest(_, _, _, _, _) =>
    case SessionInitResponse(_, _, _, _, _) =>
    case SessionCompletionRequest(_, _, _) =>
    case SessionCompletionResponse(_, _) =>
    case Message(_, _) =>
  }

  lemma ProcessIgnoresQueue(s: Session, q: seq<Pdu>, pdu: Pdu, now: real, keys: Keys, coins: Coins)
    ensures ProcessIncoming(s.(inQueue := q), pdu, now, keys, coins)
            == WithQueue(ProcessIncoming(s, pdu, now, keys, coins), q)
    ensures ProcessIncoming(s, pdu, now, keys, coins).next.inQueue == s.inQueue
  {
    hide HandleInitRequest, HandleInitResponse, HandleCompletionRequest, HandleCompletionResponse,
         HandleEstablishedMessage;
    if pdu.Pdu? {
      HandlersIgnoreQueue(s.(cid := Some(pdu.cid)), q, pdu, now, keys, coins);
      HandlersIgnoreQueue(s.(cid := Some(pdu.cid)), s.inQueue, pdu, now, keys, coins);
      assert s.(cid := Some(pdu.cid)).(inQueue := q) == s.(inQueue := q).(cid := Some(pdu.cid));
      if s.cid == Some(pdu.cid) {
        assert s.(cid := Some(pdu.cid)) == s;
      }
    }
  }

  function Head(s: Session): seq<Pdu> {
    if s.inQueue == [] then [] else [s.inQueue[0]]
  }

  function WithQueueAfter(c: SessionModel.Crank, q: seq<Pdu>): SessionModel.Crank {
    c.(next := c.next.(inQueue := q))
  }

  /** Cranked with nothing behind the head, and the rest put back. */
  lemma CrankTakesTheHead(s: Session, now: real, keys: Keys, coins: Coins)
    requires s.state != Dropped
    ensures Update(s, now, keys, coins)
         == WithQueueAfter(Update(s.(inQueue := Head(s)), now, keys, coins), Popped(s).inQueue)
  {
    var t := s.(inQueue := Head(s));
    var rest := Popped(s).inQueue;
    if s.inQueue != [] {
      ProcessIgnoresQueue(s.(inQueue := []), rest, s.inQueue[0], now, keys, coins);
      assert t.inQueue[1..] == [];
    }
    hide ProcessIncoming;
    assert TakeIncoming(s, now, keys, coins) == WithQueue(TakeIncoming(t, now, keys, coins), rest);
    hide TakeIncoming;
    var a := TakeIncoming(t, now, keys, coins);
    SendIgnoresQueue(a.next, rest);
    hide SendPending;
    var b := SendPending(a.next);
    TimeoutIgnoresQueue(b.next, rest, now);
  }

  lemma SendIgnoresQueue(s: Session, q: seq<Pdu>)
    ensures SendPending(s.(inQueue := q)) == WithQueue(SendPending(s), q)
  {
  }

  lemma TimeoutIgnoresQueue(s: Session, q: seq<Pdu>, now: real)
    ensures CheckTimeout(s.(inQueue := q), now) == WithQueue(CheckTimeout(s, now), q)
    ensures s.state != Dropped ==> Report(s.(inQueue := q), now) == Report(s, now)
  {
  }

  // ---- every reachable session is coherent --------------------------------------------------------------

  lemma EventKeepsCoherent(h: History, e: Event)
    requires Coherent(h.s)
    ensures Coherent(Next(h, e).s)
  {
    if e.Crank? && h.s.state != Dropped {
      var s := h.s.(inQueue := Head(h.s));
      CrankTakesTheHead(h.s, e.now, e.keys, e.coins);
      CrankFacts(s, e.now, e.keys, e.coins);
      hide Update;
    }
  }

  lemma {:induction false} RunKeepsCoherent(h: History, events: seq<Event>)
    requires Coherent(h.s)
    ensures Coherent(Run(h, events).s)
    decreases |events|
  {
    hide Coherent, Next;
    if events != [] {
      EventKeepsCoherent(h, events[0]);
      RunKeepsCoherent(Next(h, events[0]), events[1..]);
    }
  }

  /** In every state a session or a fork can reach, its fields go with its state. */
  lemma ReachableIsCoherent(start: Session, events: seq<Event>)
    requires Starting(start)
    ensures Coherent(Run(Begin(start), events).s)
  {
    RunKeepsCoherent(Begin(start), events);
  }

  // ---- nor does it matter whose cid an initial responder last looked at ---------------------------------

  /** Sessions that differ at most in the cid of a responder that has accepted nothing yet. */
  predicate SameButCid(s: Session, t: Session) {
    s == t || (s.state == Initial && s.role == Responder && s == t.(cid := s.cid))
  }

  /** What a session that has accepted nothing has received last. */
  predicate Fresh(s: Session) {
    s.state == Initial ==> s.lastReceived.None?
  }

  lemma TakingIgnoresCid(s: Session, t: Session, now: real, keys: Keys, coins: Coins)
    requires SameButCid(s, t) && Fresh(s)
    ensures var a, b := TakeIncoming(s, now, keys, coins), TakeIncoming(t, now, keys, coins);
            a.error == b.error && a.out == b.out && SameButCid(a.next, b.next) && Fresh(a.next)
  {
    if s != t && s.inQueue != [] && s.inQueue[0].Pdu? {
      var rest, cid := s.inQueue[1..], Some(s.inQueue[0].cid);
      assert s.(inQueue := rest).(cid := cid) == t.(inQueue := rest).(cid := cid);
    }
  }

  lemma CrankIgnoresCid(s: Session, t: Session, now: real, keys: Keys, coins: Coins)
    requires SameButCid(s, t) && Fresh(s)
    ensures var c, d := Update(s, now, keys, coins), Update(t, now, keys, coins);
            c.result == d.result && c.out == d.out && SameButCid(c.next, d.next) && Fresh(c.next)
  {
    if s.state != Dropped {
      TakingIgnoresCid(s, t, now, keys, coins);
      hide TakeIncoming;
      var a, b := TakeIncoming(s, now, keys, coins), TakeIncoming(t, now, keys, coins);
      SendingIgnoresCid(a.next, b.next);
      hide SendPending;
    }
  }

  lemma SendingIgnoresCid(s: Session, t: Session)
    requires SameButCid(s, t) && Fresh(s)
    ensures var a, b := SendPending(s), SendPending(t);
            a.error == b.error && a.out == b.out && SameButCid(a.next, b.next) && Fresh(a.next)
  {
  }

  // ---- runs with noise woven in ----------------------------------------------------------------------------

  /** An event of the run, or the arrival of a PDU that will turn out to be rejected. */
  datatype Input = Genuine(e: Event) | Noise(pdu: Pdu)

  /** A session with its past, which of the PDUs in its queue are noise, and the cranks so far that
      took no noise by what they returned. */
  datatype Woven = Woven(h: History, marks: seq<bool>, results: seq<CrankResult>)

  /** The PDUs that are not noise. */
  function Sifted(q: seq<Pdu>, marks: seq<bool>): seq<Pdu>
    requires |q| == |marks|
  {
    if q == [] then [] else (if marks[0] then [] else [q[0]]) + Sifted(q[1..], marks[1..])
  }

  lemma {:induction false} SiftedAppend(q: seq<Pdu>, marks: seq<bool>, p: Pdu, noise: bool)
    requires |q| == |marks|
    ensures Sifted(q + [p], marks + [noise]) == Sifted(q, marks) + if noise then [] else [p]
  {
    if q == [] {
      assert (q + [p])[1..] == [];
    } else {
      assert (q + [p])[1..] == q[1..] + [p] && (marks + [noise])[1..] == marks[1..] + [noise];
      SiftedAppend(q[1..], marks[1..], p, noise);
    }
  }

  /** A crank whose turn it is to take noise. */
  predicate TakesNoise(w: Woven, i: Input) {
    i.Genuine? && i.e.Crank? && w.marks != [] && w.marks[0]
  }

  /** Noise is refused with an error, or reaches a session that has given up. */
  predicate Refused(w: Woven, e: Event)
    requires e.Crank?
  {
    w.h.s.state == Dropped || TakeIncoming(w.h.s, e.now, e.keys, e.coins).error.Some?
  }

  /** Noise is passed over in silence. */
  predicate PassedOver(w: Woven, e: Event)
    requires e.Crank?
  {
    TakeIncoming(w.h.s, e.now, e.keys, e.coins) == SessionModel.Step(Popped(w.h.s), None, NOTHING)
  }

  /** The crank has something to do besides taking a PDU: a payload to send, or a deadline to act on. */
  predicate Busy(s: Session, now: real) {
    (s.state == Established && s.pending.Some?) || TimedOut(s, now)
  }

  /** The crank does nothing but get rid of noise: refuse it, or pass it over in front of something
      genuine. */
  predicate OnlyClears(w: Woven, e: Event)
    requires e.Crank? && |w.marks| == |w.h.s.inQueue|
  {
    Refused(w, e) || (PassedOver(w, e) && Sifted(w.h.s.inQueue, w.marks) != [] && !Busy(w.h.s, e.now))
  }

  /** What is called noise is noise, at the crank that takes it: refused, or passed over. Where it is
      passed over in front of something genuine, that crank has nothing else to do. */
  predicate Justified(w: Woven, i: Input) {
    && |w.marks| == |w.h.s.inQueue|
    && (TakesNoise(w, i) ==>
          OnlyClears(w, i.e) || (PassedOver(w, i.e) && Sifted(w.h.s.inQueue, w.marks) == []))
  }

  function CrankResultOf(s: Session, e: Event): seq<CrankResult> {
    if e.Crank? then [Update(s, e.now, e.keys, e.coins).result] else []
  }

  /** Without the noise there is no such crank. */
  predicate Vanishes(w: Woven, i: Input) {
    TakesNoise(w, i) && |w.marks| == |w.h.s.inQueue| && OnlyClears(w, i.e)
  }

  function Weave(w: Woven, i: Input): Woven {
    match i
    case Noise(pdu) => Woven(Next(w.h, Post(pdu)), w.marks + [true], w.results)
    case Genuine(e) =>
      Woven(Next(w.h, e),
            if e.Post? then w.marks + [false]
            else if e.Crank? && w.h.s.state != Dropped && w.marks != [] then w.marks[1..]
            else w.marks,
            w.results + if Vanishes(w, i) then [] else CrankResultOf(w.h.s, e))
  }

  /** The events that are left when the noise has never been there: no arrival of it, no crank that it
      made raise or that only passed it over, and an idle crank where nothing was waiting behind it. */
  function Quietly(w: Woven, i: Input): seq<Event> {
    if i.Noise? || Vanishes(w, i) then [] else [i.e]
  }

  function WeaveAll(w: Woven, inputs: seq<Input>): Woven
    decreases |inputs|
  {
    if inputs == [] then w else WeaveAll(Weave(w, inputs[0]), inputs[1..])
  }

  predicate AllJustified(w: Woven, inputs: seq<Input>)
    decreases |inputs|
  {
    inputs == [] || (Justified(w, inputs[0]) && AllJustified(Weave(w, inputs[0]), inputs[1..]))
  }

  function AllQuietly(w: Woven, inputs: seq<Input>): seq<Event>
    decreases |inputs|
  {
    if inputs == [] then [] else Quietly(w, inputs[0]) + AllQuietly(Weave(w, inputs[0]), inputs[1..])
  }

  function Results(h: History, events: seq<Event>): seq<CrankResult>
    decreases |events|
  {
    if events == [] then [] else CrankResultOf(h.s, events[0]) + Results(Next(h, events[0]), events[1..])
  }

  // ---- the noise makes no difference ----------------------------------------------------------------------------

  /** With the noise sifted from the queue it is the other session, and it has put out the same. */
  predicate Undisturbed(w: Woven, g: History) {
    && |w.marks| == |w.h.s.inQueue|
    && SameButCid(w.h.s.(inQueue := Sifted(w.h.s.inQueue, w.marks)), g.s) && Fresh(w.h.s)
    && w.h.trace == g.trace && w.h.delivered == g.delivered && w.h.seals == g.seals
  }

  lemma NoiseArrives(w: Woven, g: History, pdu: Pdu)
    requires Undisturbed(w, g)
    ensures Undisturbed(Weave(w, Noise(pdu)), g)
  {
    SiftedAppend(w.h.s.inQueue, w.marks, pdu, true);
  }

  lemma GenuineArrives(w: Woven, g: History, pdu: Pdu)
    requires Undisturbed(w, g)
    ensures Undisturbed(Weave(w, Genuine(Post(pdu))), Next(g, Post(pdu)))
  {
    SiftedAppend(w.h.s.inQueue, w.marks, pdu, false);
  }

  lemma InitiateIgnoresQueue(s: Session, q: seq<Pdu>, e: Event)
    requires e.Initiate?
    ensures SessionModel.Initiate(s.(inQueue := q), e.peer, e.at, e.keys, e.cid, e.coins)
         == WithQueue(SessionModel.Initiate(s, e.peer, e.at, e.keys, e.cid, e.coins), q)
    ensures SessionModel.Initiate(s, e.peer, e.at, e.keys, e.cid, e.coins).next.inQueue == s.inQueue
  {
  }

  /** A responder that has accepted nothing refuses to initiate. */
  lemma InitiateIgnoresCid(s: Session, t: Session, e: Event)
    requires e.Initiate? && SameButCid(s, t) && Fresh(s)
    ensures var a, b := SessionModel.Initiate(s, e.peer, e.at, e.keys, e.cid, e.coins),
                        SessionModel.Initiate(t, e.peer, e.at, e.keys, e.cid, e.coins);
            a.out == b.out && SameButCid(a.next, b.next) && Fresh(a.next)
  {
  }

  lemma HandshakeBegins(w: Woven, g: History, e: Event)
    requires Undisturbed(w, g) && e.Initiate?
    ensures Undisturbed(Weave(w, Genuine(e)), Next(g, e))
  {
    hide SessionModel.Initiate;
    var sifted := Sifted(w.h.s.inQueue, w.marks);
    InitiateIgnoresQueue(w.h.s, sifted, e);
    InitiateIgnoresCid(w.h.s.(inQueue := sifted), g.s, e);
  }

  lemma OtherEvent(w: Woven, g: History, e: Event)
    requires Undisturbed(w, g) && (e.Offer? || e.TakePdu? || e.TakePayload?)
    ensures Undisturbed(Weave(w, Genuine(e)), Next(g, e))
  {
  }

  lemma NoiseRefused(w: Woven, g: History, e: Event)
    requires Undisturbed(w, g) && e.Crank? && TakesNoise(w, Genuine(e)) && Refused(w, e)
    ensures Undisturbed(Weave(w, Genuine(e)), g)
  {
    if w.h.s.state != Dropped {
      RaisingPduChangesNothing(w.h.s, e.now, e.keys, e.coins);
      hide Update;
    }
  }

  /** A crank that passes noise over and has nothing else to do takes it off the queue. */
  lemma NoiseOnlyPassedOver(w: Woven, g: History, e: Event)
    requires Undisturbed(w, g) && e.Crank? && TakesNoise(w, Genuine(e)) && w.h.s.state != Dropped
    requires PassedOver(w, e) && !Busy(w.h.s, e.now)
    ensures Undisturbed(Weave(w, Genuine(e)), g)
  {
    assert Update(w.h.s, e.now, e.keys, e.coins).next == Popped(w.h.s)
        && Update(w.h.s, e.now, e.keys, e.coins).out == NOTHING by {
      hide TakeIncoming;
    }
    hide Update;
  }

  lemma NotRefusedNotDropped(w: Woven, e: Event)
    requires e.Crank? && !Refused(w, e)
    ensures w.h.s.state != Dropped
  {
  }

  lemma NoisePassedOver(w: Woven, g: History, e: Event)
    requires Undisturbed(w, g) && e.Crank? && TakesNoise(w, Genuine(e)) && !Refused(w, e)
    requires PassedOver(w, e) && Sifted(w.h.s.inQueue, w.marks) == []
    ensures Undisturbed(Weave(w, Genuine(e)), Next(g, e))
    ensures CrankResultOf(w.h.s, e) == CrankResultOf(g.s, e)
  {
    var idle, rest := w.h.s.(inQueue := []), Popped(w.h.s).inQueue;
    PassedOverIsIdle(w.h.s, e.now, e.keys, e.coins);
    CrankIgnoresCid(idle, g.s, e.now, e.keys, e.coins);
    CrankTakesTheHead(idle, e.now, e.keys, e.coins);
    hide Update, TakeIncoming;
  }

  /** A crank that passes over the head of the queue does what an idle one does. */
  lemma PassedOverIsIdle(s: Session, now: real, keys: Keys, coins: Coins)
    requires s.state != Dropped && TakeIncoming(s, now, keys, coins) == SessionModel.Step(Popped(s), None, NOTHING)
    ensures Update(s, now, keys, coins)
         == WithQueueAfter(Update(s.(inQueue := []), now, keys, coins), Popped(s).inQueue)
  {
    var idle, rest := s.(inQueue := []), Popped(s).inQueue;
    assert TakeIncoming(idle, now, keys, coins) == SessionModel.Step(idle, None, NOTHING);
    hide TakeIncoming;
    SendIgnoresQueue(idle, rest);
    hide SendPending;
    TimeoutIgnoresQueue(SendPending(idle).next, rest, now);
  }

  lemma GenuineCrank(w: Woven, g: History, e: Event)
    requires Undisturbed(w, g) && e.Crank? && !TakesNoise(w, Genuine(e))
    ensures Undisturbed(Weave(w, Genuine(e)), Next(g, e))
    ensures CrankResultOf(w.h.s, e) == CrankResultOf(g.s, e)
  {
    if w.h.s.state == Dropped {
    } else {
      CrankTakesTheHead(w.h.s, e.now, e.keys, e.coins);
      CrankTakesTheHead(g.s, e.now, e.keys, e.coins);
      CrankIgnoresCid(w.h.s.(inQueue := Head(w.h.s)), g.s.(inQueue := Head(g.s)), e.now, e.keys, e.coins);
      hide Update;
    }
  }

  lemma StepUndisturbed(w: Woven, g: History, i: Input)
    requires Undisturbed(w, g) && Justified(w, i)
    ensures Undisturbed(Weave(w, i), Run(g, Quietly(w, i)))
    ensures Weave(w, i).results == w.results + Results(g, Quietly(w, i))
  {
    hide Undisturbed, Update, Next, Refused, PassedOver, Busy;
    OneResult(g, if i.Genuine? then i.e else TakePdu);
    match i
    case Noise(pdu) => NoiseArrives(w, g, pdu);
    case Genuine(e) =>
      match e
      case Post(pdu) => GenuineArrives(w, g, pdu);
      case Initiate(_, _, _, _, _) => HandshakeBegins(w, g, e);
      case Crank(_, _, _) =>
        if TakesNoise(w, i) {
          if Refused(w, e) {
            NoiseRefused(w, g, e);
          } else if OnlyClears(w, e) {
            NotRefusedNotDropped(w, e);
            NoiseOnlyPassedOver(w, g, e);
          } else {
            NoisePassedOver(w, g, e);
          }
        } else {
          GenuineCrank(w, g, e);
        }
      case _ => OtherEvent(w, g, e);
  }

  lemma OneResult(h: History, e: Event)
    ensures Run(h, [e]) == Next(h, e) && Run(h, []) == h && Results(h, [e]) == CrankResultOf(h.s, e)
  {
    hide Next, Update;
    OneEvent(h, e);
    assert [e][1..] == [];
  }

  lemma {:induction false} RunAppend(h: History, es: seq<Event>, more: seq<Event>)
    ensures Run(h, es + more) == Run(Run(h, es), more)
    ensures Results(h, es + more) == Results(h, es) + Results(Run(h, es), more)
    decreases |es|
  {
    hide Next, Update;
    if es == [] {
      assert es + more == more;
    } else {
      assert (es + more)[1..] == es[1..] + more;
      RunAppend(Next(h, es[0]), es[1..], more);
    }
  }

  lemma {:induction false} NoiseIsAsNothing(w: Woven, g: History, inputs: seq<Input>)
    requires Undisturbed(w, g) && AllJustified(w, inputs)
    ensures Undisturbed(WeaveAll(w, inputs), Run(g, AllQuietly(w, inputs)))
    ensures WeaveAll(w, inputs).results == w.results + Results(g, AllQuietly(w, inputs))
    decreases |inputs|
  {
    hide Undisturbed, Justified, Weave, Quietly, Next, Update;
    if inputs != [] {
      var here, later := Quietly(w, inputs[0]), AllQuietly(Weave(w, inputs[0]), inputs[1..]);
      StepUndisturbed(w, g, inputs[0]);
      RunAppend(g, here, later);
      NoiseIsAsNothing(Weave(w, inputs[0]), Run(g, here), inputs[1..]);
    }
  }

  /** In any run of a session, from construction or from a fork on: PDUs that turn out to be rejected,
      woven in anywhere, even in front of genuine ones in the queue, with the cranks that take them, leave
      everything the session puts out, encrypts and delivers, what every other crank returns, and the
      state at the end as they would have been without them. Only what is still queued, and the cid of
      a responder that has accepted nothing, may differ. */
  lemma RejectedPdusCannotStopAGenuineOne(start: Session, inputs: seq<Input>)
    requires Starting(start) && AllJustified(Woven(Begin(start), [], []), inputs)
    ensures var begin := Begin(start);
            var w, events := WeaveAll(Woven(begin, [], []), inputs), AllQuietly(Woven(begin, [], []), inputs);
            var g := Run(begin, events);
            && w.h.trace == g.trace && w.h.delivered == g.delivered && w.h.seals == g.seals
            && w.results == Results(begin, events)
            && |w.marks| == |w.h.s.inQueue|
            && SameButCid(w.h.s.(inQueue := Sifted(w.h.s.inQueue, w.marks)), g.s)
  {
    NoiseIsAsNothing(Woven(Begin(start), [], []), Begin(start), inputs);
  }
}
