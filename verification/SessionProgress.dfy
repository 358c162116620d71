/** What a crank may not change, how a handshake ends, and what a fork is. */
module SessionProgress {
  import opened Base
  import opened Crypto
  import opened SessionFacts
  import opened SessionModel
  import opened SessionRuns

  // ---- failure atomicity ----------------------------------------------------------------------------

  /** The session with the head of its queue gone. */
  function Popped(s: Session): Session {
    if s.inQueue == [] then s else s.(inQueue := s.inQueue[1..])
  }

  /** A PDU that makes its crank raise leaves every protocol field as it was; only a responder
      still in its initial state remembers whose cid it last looked at. */
  lemma RaisingPduChangesNothing(s: Session, now: real, keys: Keys, coins: Coins)
    requires s.state != Dropped && TakeIncoming(s, now, keys, coins).error.Some?
    ensures var c := Update(s, now, keys, coins);
            && c.result.Raised? && c.out == NOTHING
            && c.next == Popped(s).(cid := c.next.cid)
            && (c.next.cid != s.cid ==> s.state == Initial && s.role == Responder)
  {
  }

  /** An established session refuses the PDU with an error. */
  predicate Refuses(s: Session, pdu: Pdu)
    requires s.keys.Some? && s.cid.Some?
  {
    && s.lastReceived != Some(pdu) && pdu.Pdu? && s.cid == Some(pdu.cid)
    && !(pdu.payload.Message? && pdu.payload.seqno == ReceiveSeq(s) && ReceiveSeq(s) < SEQ_LIMIT
         && OpenExpected(s, pdu.payload.m).Some?)
  }

  /** The counter is spent, a payload waits, and no refused PDU comes before it. */
  predicate LosesPayload(s: Session)
    requires Coherent(s)
  {
    s.state == Established && Exhausted(s) && (s.inQueue == [] || !Refuses(s, s.inQueue[0]))
  }

  /** A crank loses the waiting payload to an exception if and only if the session is established with
      its counter spent and no refused PDU at the head of its queue, which a caller can tell before the
      call; every other crank that raises keeps the payload. */
  lemma RaisingKeepsPayloadUnlessCounterExhausted(s: Session, now: real, keys: Keys, coins: Coins)
    requires Coherent(s)
    ensures var c := Update(s, now, keys, coins);
            && (c.result.Raised? && c.next.pending != s.pending <==> LosesPayload(s))
            && (LosesPayload(s) ==> c.result.Raised? && c.next.pending.None?)
  {
    if s.state != Dropped {
      TakingAndThePayload(s, now, keys, coins);
      hide TakeIncoming;
    }
  }

  /** Taking a PDU fails only where it leaves the payload, and does not spend a number for it. */
  lemma TakingAndThePayload(s: Session, now: real, keys: Keys, coins: Coins)
    requires Coherent(s) && s.state != Dropped
    ensures var a := TakeIncoming(s, now, keys, coins);
            && (a.error.Some? ==> a.next.pending == s.pending)
            && (a.next.state == Established ==> a.next.keys.Some? && a.next.cid.Some?)
            && (s.state == Established ==>
                  && a.next.state == Established && a.next.pending == s.pending && SendSeq(a.next) == SendSeq(s)
                  && (a.error.Some? <==> s.inQueue != [] && Refuses(s, s.inQueue[0])))
            && (s.state != Established && a.next.state == Established ==> !Exhausted(a.next))
            && (a.error.Some? ==> a.next.state == s.state)
  {
  }

  // ---- termination --------------------------------------------------------------------------------------

  function StepsLeft(s: Session): nat {
    match s.state
    case Initial => 3
    case ExpectInitResponse => 2
    case ExpectCompletionRequest => 1
    case ExpectCompletionResponse => 1
    case Established => 0
    case Dropped => 0
  }

  function RetriesLeft(s: Session): nat {
    if s.attempts >= s.config.maxRetries then 0 else s.config.maxRetries - s.attempts
  }

  /** (handshake steps left, retries left, queue length), compared lexicographically. */
  predicate Closer(t: Session, s: Session) {
    || StepsLeft(t) < StepsLeft(s)
    || (StepsLeft(t) == StepsLeft(s) && RetriesLeft(t) < RetriesLeft(s))
    || (StepsLeft(t) == StepsLeft(s) && RetriesLeft(t) == RetriesLeft(s) && |t.inQueue| < |s.inQueue|)
  }

  predicate HasWork(s: Session, now: real) {
    s.state != Dropped && (s.inQueue != [] || TimedOut(s, now))
  }

  lemma SendingMovesNothing(s: Session)
    ensures var b := SendPending(s).next;
            && b.state == s.state && b.attempts == s.attempts && b.config == s.config && b.inQueue == s.inQueue
            && b.deadline == s.deadline && b.role == s.role
            && (SendPending(s).error.Some? ==> s.state == Established)
  {
  }

  lemma TimeoutMakesProgress(s: Session, now: real)
    requires s.state != Dropped
    ensures var c := CheckTimeout(s, now).next;
            && c.inQueue == s.inQueue && c.config == s.config && CheckTimeout(s, now).error.None?
            && (TimedOut(s, now) ==> StepsLeft(c) < StepsLeft(s)
                                     || (StepsLeft(c) == StepsLeft(s) && RetriesLeft(c) < RetriesLeft(s)))
            && (!TimedOut(s, now) ==> c == s)
  {
  }

  /** Without new input every crank with something to take or to time out brings the handshake
      strictly closer to its end, and every other crank leaves the measure alone. */
  lemma CrankMakesProgress(s: Session, now: real, keys: Keys, coins: Coins)
    ensures Closer(Update(s, now, keys, coins).next, s) <==> HasWork(s, now)
  {
    hide TakeIncoming, SendPending, CheckTimeout;
    if s.state != Dropped {
      TakingMakesProgress(s, now, keys, coins);
      TakingKeepsTheRest(s, now, keys, coins);
      var a := TakeIncoming(s, now, keys, coins).next;
      SendingMovesNothing(a);
      TimeoutMakesProgress(SendPending(a).next, now);
    }
  }

  lemma TakingKeepsTheRest(s: Session, now: real, keys: Keys, coins: Coins)
    ensures var a := TakeIncoming(s, now, keys, coins);
            && a.next.inQueue == (if s.inQueue == [] then [] else s.inQueue[1..])
            && a.next.config == s.config && a.next.role == s.role
            && (s.inQueue == [] ==> a.next == s && a.error.None?)
  {
  }

  lemma TakingMakesProgress(s: Session, now: real, keys: Keys, coins: Coins)
    requires s.state != Dropped
    ensures var a := TakeIncoming(s, now, keys, coins);
            && a.next.state != Dropped
            && (StepsLeft(a.next) < StepsLeft(s)
                || (a.next.state == s.state && a.next.attempts == s.attempts && a.next.deadline == s.deadline))
  {
  }

  // ---- retries ---------------------------------------------------------------------------------------------

  /** Cranks a session n times without input, each time at the deadline the last crank returned. */
  function Idle(h: History, n: nat, keys: Keys, coins: Coins): History
    decreases n
  {
    if n == 0 || h.s.deadline.None? then h
    else Idle(Next(h, Event.Crank(h.s.deadline.value, keys, coins)), n - 1, keys, coins)
  }

  predicate AwaitsReply(s: Session) {
    && s.role == Initiator && s.inQueue == [] && s.deadline.Some? && s.lastSent.Some?
    && (s.state == ExpectInitResponse || s.state == ExpectCompletionResponse)
  }

  lemma OneDeadlinePassed(h: History, keys: Keys, coins: Coins)
    requires AwaitsReply(h.s)
    ensures var g := Next(h, Event.Crank(h.s.deadline.value, keys, coins));
            && g.delivered == h.delivered && g.seals == h.seals
            && if RetriesLeft(h.s) == 0 then g.s.state == Dropped && g.trace == h.trace
               else AwaitsReply(g.s) && RetriesLeft(g.s) == RetriesLeft(h.s) - 1 && g.s.lastSent == h.s.lastSent
                    && g.trace == h.trace + [h.s.lastSent.value]
  {
  }

  /** Left alone, an initiator resends its last PDU once for every retry left, with the same octets,
      and gives up in silence on the crank after that, not sooner. */
  lemma {:induction false} RetriesThenGivesUp(h: History, n: nat, keys: Keys, coins: Coins)
    requires AwaitsReply(h.s) && n <= RetriesLeft(h.s) + 1
    ensures var g := Idle(h, n, keys, coins);
            && (g.s.state == Dropped <==> n == RetriesLeft(h.s) + 1)
            && g.trace == h.trace + Copies(h.s.lastSent.value, if n <= RetriesLeft(h.s) then n else n - 1)
            && g.delivered == h.delivered && g.seals == h.seals
    decreases n
  {
    hide Next, RetriesLeft;
    if n > 0 {
      OneDeadlinePassed(h, keys, coins);
      var g := Next(h, Event.Crank(h.s.deadline.value, keys, coins));
      if RetriesLeft(h.s) > 0 {
        RetriesThenGivesUp(g, n - 1, keys, coins);
        var k := if n - 1 <= RetriesLeft(g.s) then n - 1 else n - 2;
        assert Copies(h.s.lastSent.value, k + 1) == [h.s.lastSent.value] + Copies(h.s.lastSent.value, k);
      }
    }
  }

  /** So many intervals later. */
  function Later(t: real, n: nat, interval: real): real {
    if n == 0 then t else Later(t, n - 1, interval) + interval
  }

  lemma {:induction false} LaterStill(t: real, n: nat, interval: real)
    ensures Later(t + interval, n, interval) == Later(t, n + 1, interval)
  {
    if n > 0 {
      LaterStill(t, n - 1, interval);
    }
  }

  /** From construction: a handshake that is never answered puts out its request 1 + max_retries times, at
      intervals of retry_interval, and is given up one interval after the last. */
  lemma UnansweredHandshake(own: Option<KeyId>, config: Config, e: Event, n: nat, keys: Keys, coins: Coins)
    requires e.Initiate? && n <= Budget(config) + 1
    requires SessionModel.Initiate(New(Initiator, own, config), e.peer, e.at, e.keys, e.cid, e.coins).error.None?
    ensures var h := Next(Begin(New(Initiator, own, config)), e);
            && AwaitsReply(h.s)
            && var g := Idle(h, n, keys, coins);
            && (g.s.state == Dropped <==> n == Budget(config) + 1)
            && g.trace == Copies(h.s.lastSent.value, if n <= Budget(config) then 1 + n else n)
            && (g.s.state != Dropped ==> g.s.deadline == Some(Later(e.at, n + 1, config.retryInterval)))
  {
    hide Next, Idle, Later, AwaitsReply, SessionModel.Initiate;
    var h := Next(Begin(New(Initiator, own, config)), e);
    FirstRequest(own, config, e);
    RetriesThenGivesUp(h, n, keys, coins);
    LaterStill(e.at, n, config.retryInterval);
    IdleDeadline(h, n, keys, coins);
  }

  lemma FirstRequest(own: Option<KeyId>, config: Config, e: Event)
    requires e.Initiate?
    requires SessionModel.Initiate(New(Initiator, own, config), e.peer, e.at, e.keys, e.cid, e.coins).error.None?
    ensures var h := Next(Begin(New(Initiator, own, config)), e);
            && AwaitsReply(h.s) && RetriesLeft(h.s) == Budget(config) && h.s.config == config
            && h.trace == [h.s.lastSent.value] == Copies(h.s.lastSent.value, 1)
            && h.s.deadline == Some(e.at + config.retryInterval)
  {
  }

  /** Every retry is due one interval after the last. */
  lemma {:induction false} IdleDeadline(h: History, n: nat, keys: Keys, coins: Coins)
    requires AwaitsReply(h.s) && n <= RetriesLeft(h.s) + 1
    ensures var g := Idle(h, n, keys, coins);
            g.s.state != Dropped ==> g.s.deadline == Some(Later(h.s.deadline.value, n, h.s.config.retryInterval))
    decreases n
  {
    if n > 0 {
      OneDeadlinePassed(h, keys, coins);
      var g := Next(h, Event.Crank(h.s.deadline.value, keys, coins));
      if RetriesLeft(h.s) > 0 {
        assert g.s.deadline == Some(h.s.deadline.value + h.s.config.retryInterval) && g.s.config == h.s.config;
        hide Next, Later;
        IdleDeadline(g, n - 1, keys, coins);
        LaterStill(h.s.deadline.value, n - 1, h.s.config.retryInterval);
      }
    }
  }

  /** The deadline a crank returns while waiting is the session's own, so that Idle above cranks at
      the returned deadlines. */
  lemma ReturnedDeadlineIsOwn(s: Session, now: real, keys: Keys, coins: Coins)
    ensures var c := Update(s, now, keys, coins);
            c.result.Returned? && c.next.state != Dropped && c.next.deadline.Some?
            ==> c.result.next == At(c.next.deadline.value)
  {
  }

  /** No input extends a waiting responder's deadline, and passing it emits nothing. */
  lemma ResponderDeadlineIsFixed(s: Session, now: real, keys: Keys, coins: Coins)
    requires s.role == Responder && s.state == ExpectCompletionRequest
    ensures var c := Update(s, now, keys, coins);
            && (c.next.state == ExpectCompletionRequest ==> c.next.deadline == s.deadline)
            && (TimedOut(s, now) && s.inQueue == [] ==> c.next == s.(state := Dropped) && c.out == NOTHING)
  {
  }

  // ---- forks ---------------------------------------------------------------------------------------------------

  /** Sessions that differ at most in what they have queued for output. */
  predicate Twins(s: Session, t: Session) {
    s.(outPdus := [], outPayloads := []) == t.(outPdus := [], outPayloads := [])
  }

  /** The same step, taken with other output queues. */
  predicate SameStep(a: Step, b: Step) {
    Twins(a.next, b.next) && a.out == b.out && a.error == b.error
  }

  lemma TwinsHandle(s: Session, t: Session, pdu: Pdu, now: real, keys: Keys, coins: Coins)
    requires Twins(s, t) && pdu.Pdu? && s.cid.Some?
    ensures pdu.payload.SessionInitRequest? ==>
      SameStep(HandleInitRequest(s, pdu.payload, pdu, now, keys, coins),
               HandleInitRequest(t, pdu.payload, pdu, now, keys, coins))
    ensures pdu.payload.SessionInitResponse? ==>
      SameStep(HandleInitResponse(s, pdu.payload, pdu, now, keys, coins),
               HandleInitResponse(t, pdu.payload, pdu, now, keys, coins))
  {
    hide DeriveSessionKeys, ChooseAead;
    if pdu.payload.SessionInitRequest? {
      hide HandleInitResponse;
    } else {
      hide HandleInitRequest;
    }
  }

  lemma TwinsHandleLater(s: Session, t: Session, pdu: Pdu)
    requires Twins(s, t) && pdu.Pdu? && s.cid.Some?
    ensures pdu.payload.SessionCompletionRequest? ==>
      SameStep(HandleCompletionRequest(s, pdu.payload, pdu), HandleCompletionRequest(t, pdu.payload, pdu))
    ensures pdu.payload.SessionCompletionResponse? ==>
      SameStep(HandleCompletionResponse(s, pdu.payload, pdu), HandleCompletionResponse(t, pdu.payload, pdu))
    ensures pdu.payload.Message? ==>
      SameStep(HandleEstablishedMessage(s, pdu.payload), HandleEstablishedMessage(t, pdu.payload))
  {
    hide DeriveSessionKeys;
  }

  lemma TwinsTake(s: Session, t: Session, now: real, keys: Keys, coins: Coins)
    requires Twins(s, t)
    ensures SameStep(TakeIncoming(s, now, keys, coins), TakeIncoming(t, now, keys, coins))
  {
    hide HandleInitRequest, HandleInitResponse, HandleCompletionRequest, HandleCompletionResponse,
         HandleEstablishedMessage;
    if s.inQueue != [] && s.inQueue[0].Pdu? {
      var pdu := s.inQueue[0];
      var s1, t1 := s.(inQueue := s.inQueue[1..]), t.(inQueue := s.inQueue[1..]);
      TwinsHandle(s1.(cid := Some(pdu.cid)), t1.(cid := Some(pdu.cid)), pdu, now, keys, coins);
      TwinsHandleLater(s1.(cid := Some(pdu.cid)), t1.(cid := Some(pdu.cid)), pdu);
      if s1.cid == Some(pdu.cid) {
        TwinsHandle(s1, t1, pdu, now, keys, coins);
        TwinsHandleLater(s1, t1, pdu);
      }
    }
  }

  lemma TwinsCrank(s: Session, t: Session, now: real, keys: Keys, coins: Coins)
    requires Twins(s, t)
    ensures var c, d := Update(s, now, keys, coins), Update(t, now, keys, coins);
            Twins(c.next, d.next) && c.out == d.out
            && (c.result.Raised? || d.result.Raised? ==> c.result == d.result)
            && (c.result.Returned? && d.result.Returned? ==> c.result.next == d.result.next)
  {
    hide TakeIncoming, SendPending, CheckTimeout;
    TwinsTake(s, t, now, keys, coins);
    var a, a' := TakeIncoming(s, now, keys, coins), TakeIncoming(t, now, keys, coins);
    TwinsSend(a.next, a'.next);
    var b, b' := SendPending(a.next), SendPending(a'.next);
    TwinsTimeOut(b.next, b'.next, now);
  }

  lemma TwinsSend(s: Session, t: Session)
    requires Twins(s, t)
    ensures SameStep(SendPending(s), SendPending(t))
  {
  }

  lemma TwinsTimeOut(s: Session, t: Session, now: real)
    requires Twins(s, t)
    ensures SameStep(CheckTimeout(s, now), CheckTimeout(t, now))
  {
  }

  predicate SameOutputs(h: History, g: History) {
    h.trace == g.trace && h.delivered == g.delivered && h.seals == g.seals
  }

  lemma TwinsStep(h: History, g: History, e: Event)
    requires Twins(h.s, g.s) && SameOutputs(h, g)
    ensures Twins(Next(h, e).s, Next(g, e).s) && SameOutputs(Next(h, e), Next(g, e))
  {
    hide Update, SessionModel.Initiate;
    if e.Crank? {
      TwinsCrank(h.s, g.s, e.now, e.keys, e.coins);
    } else if e.Initiate? {
      TwinsInitiate(h.s, g.s, e);
    }
  }

  lemma TwinsInitiate(s: Session, t: Session, e: Event)
    requires Twins(s, t) && e.Initiate?
    ensures SameStep(SessionModel.Initiate(s, e.peer, e.at, e.keys, e.cid, e.coins),
                     SessionModel.Initiate(t, e.peer, e.at, e.keys, e.cid, e.coins))
  {
  }

  lemma {:induction false} TwinsRun(h: History, g: History, events: seq<Event>)
    requires Twins(h.s, g.s) && SameOutputs(h, g)
    ensures SameOutputs(Run(h, events), Run(g, events))
    decreases |events|
  {
    if events != [] {
      hide Next;
      TwinsStep(h, g, events[0]);
      TwinsRun(Next(h, events[0]), Next(g, events[0]), events[1..]);
    }
  }

  lemma ForkCopiesEverything(s: Session)
    requires s.role == Initiator && s.state == ExpectInitResponse && Unanswered(s) && s.inQueue == []
    ensures Fork(s) == Ok(s.(outPdus := [], outPayloads := []))
  {
  }

  /** The state a fork starts in. */
  predicate ForkStart(s: Session) {
    && s.role == Initiator && s.state == ExpectInitResponse && Unanswered(s)
    && s.cid.Some? && s.deadline.Some? && s.attempts <= Budget(s.config)
    && s.lastSent.Some? && s.lastSent.value.Pdu? && s.lastSent.value.payload.SessionInitRequest?
    && s.inQueue == [] && s.outPdus == [] && s.outPayloads == []
  }

  /** A session object starts as constructed, or as a fork of another. */
  predicate Starting(s: Session) {
    s == New(s.role, s.ownKeyId, s.config) || ForkStart(s)
  }

  lemma InitiatorFrom(s: Session, events: seq<Event>) returns (k: Sent)
    requires Starting(s) && s.role == Initiator
    ensures InitiatorInv(Run(Begin(s), events), k, if ForkStart(s) then 0 else 1)
    ensures ForkStart(s) ==> k.r == s.lastSent.value
    ensures Run(Begin(s), events).s.config == s.config
  {
    var l := Sent(if ForkStart(s) then s.lastSent.value else ANY_REQUEST, 0, ANY_COMPLETION, 0);
    assert InitiatorInv(Begin(s), l, if ForkStart(s) then 0 else 1);
    k := InitiatorRuns(Begin(s), l, if ForkStart(s) then 0 else 1, events);
    PartyIsFixed(Begin(s), events);
  }

  /** Of any initiator that still awaits its response, reached by any run of a session or of a fork:
      fork() gives a twin, which answers every sequence of inputs with the same PDUs, payloads and
      encryptions, forever, as its source with the input it had not yet taken left out. */
  lemma ForkIsATwin(start: Session, past: seq<Event>, future: seq<Event>)
    requires Starting(start) && start.role == Initiator
    ensures var s := Run(Begin(start), past).s;
            s.state == ExpectInitResponse ==>
              && Fork(s).Ok? && Starting(Fork(s).value)
              && Twins(s.(inQueue := []), Fork(s).value)
              && Fork(s).value.outPdus == [] && Fork(s).value.outPayloads == []
              && SameOutputs(Run(Begin(s.(inQueue := [])), future), Run(Begin(Fork(s).value), future))
  {
    var k := InitiatorFrom(start, past);
    ForksStart(start, past);
    PartyIsFixed(Begin(start), past);
    var s := Run(Begin(start), past).s;
    if s.state == ExpectInitResponse {
      ForkCopiesEverything(s.(inQueue := []));
      TwinsRun(Begin(s.(inQueue := [])), Begin(Fork(s).value), future);
    }
  }

  /** A fork of whatever has come of a session, itself perhaps a fork, starts as forks do. */
  lemma ForksStart(s: Session, events: seq<Event>)
    requires Starting(s)
    ensures var f := Fork(Run(Begin(s), events).s); f.Ok? ==> ForkStart(f.value)
  {
    PartyIsFixed(Begin(s), events);
    if s.role == Initiator {
      var k := InitiatorFrom(s, events);
    }
  }

  /** The PDUs of a fork are a prefix of R* C+ M*: it may resend the request its source sent. */
  lemma ForkOutput(own: Option<KeyId>, config: Config, past: seq<Event>, future: seq<Event>)
    ensures var s := Run(Begin(New(Initiator, own, config)), past).s;
            Fork(s).Ok? ==>
              var g := Run(Begin(Fork(s).value), future);
              s.lastSent.Some? && exists rs: nat, c, cs: nat, cid, seals ::
                && IsInitiatorTrace(g.trace, s.lastSent.value, rs, c, cs, cid, seals)
                && rs <= 1 + Budget(config)
                && cs <= 1 + Budget(config) + g.duplicates
  {
    var s := Run(Begin(New(Initiator, own, config)), past).s;
    ForksStart(New(Initiator, own, config), past);
    PartyIsFixed(Begin(New(Initiator, own, config)), past);
    if Fork(s).Ok? {
      var k := InitiatorFrom(Fork(s).value, future);
      InitiatorTraceOf(Run(Begin(Fork(s).value), future), k, 0);
    }
  }

  /** What a session may have put out: R+ C+ M*, or R* C+ M* of a fork, with the copies bounded; P+ D
      (D|M)* of a responder. */
  ghost predicate WellBehaved(start: Session, h: History) {
    if start.role == Initiator then
      exists r, rs: nat, c, cs: nat, cid, seals ::
        && IsInitiatorTrace(h.trace, r, rs, c, cs, cid, seals)
        && (h.trace != [] && !ForkStart(start) ==> rs >= 1)
        && (ForkStart(start) ==> start.lastSent == Some(r))
        && rs <= 1 + Budget(start.config)
        && cs <= 1 + Budget(start.config) + h.duplicates
    else exists p, ps: nat, d, tail, cid, seals :: IsResponderTrace(h.trace, p, ps, d, tail, cid, seals)
  }

  /** From either start, through any events, what comes out is well behaved and numbered. */
  lemma RunsAreWellBehaved(s: Session, events: seq<Event>)
    requires Starting(s)
    ensures var h := Run(Begin(s), events); WellBehaved(s, h) && Numbered(h.s, h.seals)
  {
    if s.role == Initiator {
      var k := InitiatorFrom(s, events);
      InitiatorTraceOf(Run(Begin(s), events), k, if ForkStart(s) then 0 else 1);
    } else {
      ResponderOutput(s.ownKeyId, s.config, events);
      SequenceNumbersAreConsecutive(Responder, s.ownKeyId, s.config, events);
    }
  }

  // ---- what update() announces ----------------------------------------------------------------------------

  /** A payload can be got before anything is said of PDUs. */
  predicate Announces(ready: UpdateResult, payloads: nat, pdus: nat) {
    && (ready == PayloadReady <==> payloads > 0)
    && (ready == PduReady <==> payloads == 0 && pdus > 0)
    && (ready == NothingReady <==> payloads == 0 && pdus == 0)
    && ready != SessionDropped
  }

  /** A crank that returns announces what there is to be got, unless the session has given up. */
  lemma ReadyTells(s: Session, now: real, keys: Keys, coins: Coins)
    ensures var c := Update(s, now, keys, coins);
            c.result.Returned? ==>
              if c.next.state == Dropped then c.result.ready == SessionDropped
              else Announces(c.result.ready, |c.next.outPayloads|, |c.next.outPdus|)
  {
    hide TakeIncoming, SendPending, CheckTimeout;
  }
}
