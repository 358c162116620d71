/** Whole runs of one session against arbitrary, even adversarial, input. */
module SessionRuns {
  import opened Base
  import opened Crypto
  import opened SessionModel

  // ---- runs -------------------------------------------------------------------------------------

  datatype Event =
    | Initiate(peer: KeyId, at: real, keys: Keys, cid: Cid, coins: Coins)
    | Post(pdu: Pdu)
    | Offer(payload: Bytes)
    | Crank(now: real, keys: Keys, coins: Coins)
    | TakePdu
    | TakePayload

  /** A session with everything it has put out, encrypted, and seen again since the run began. */
  datatype History = History(s: Session, trace: seq<Pdu>, delivered: seq<Bytes>, seals: seq<Sealed>,
                             duplicates: nat)

  function Begin(s: Session): History {
    History(s, [], [], [], 0)
  }

  function Record(h: History, next: Session, out: Output): History {
    h.(s := next, trace := h.trace + out.pdus, delivered := h.delivered + out.payloads,
       seals := h.seals + out.seals)
  }

  /** The PDU next in the queue repeats the one accepted last. */
  predicate DuplicateNext(s: Session) {
    s.state != Dropped && s.inQueue != [] && s.lastReceived == Some(s.inQueue[0])
  }

  function Next(h: History, e: Event): History {
    match e
    case Initiate(peer, at, keys, cid, coins) =>
      var step := SessionModel.Initiate(h.s, peer, at, keys, cid, coins);
      Record(h, step.next, step.out)
    case Post(pdu) => h.(s := PostPdu(h.s, pdu))
    case Offer(payload) => h.(s := PostPayload(h.s, payload))
    case Crank(now, keys, coins) =>
      var c := Update(h.s, now, keys, coins);
      Record(h, c.next, c.out).(duplicates := h.duplicates + if DuplicateNext(h.s) then 1 else 0)
    case TakePdu => if h.s.outPdus == [] then h else h.(s := h.s.(outPdus := h.s.outPdus[1..]))
    case TakePayload =>
      if h.s.outPayloads == [] then h else h.(s := h.s.(outPayloads := h.s.outPayloads[1..]))
  }

  function Run(h: History, events: seq<Event>): History
    decreases |events|
  {
    if events == [] then h else Run(Next(h, events[0]), events[1..])
  }

  lemma OneEvent(h: History, e: Event)
    ensures Run(h, [e]) == Next(h, e) && Run(h, []) == h
  {
    assert [e][1..] == [];
    assert Run(h, [e]) == Run(Next(h, e), []);
  }

  lemma {:induction false} RunExtend(h: History, events: seq<Event>, e: Event)
    ensures Run(h, events + [e]) == Next(Run(h, events), e)
    decreases |events|
  {
    hide Next;
    if events == [] {
      assert ([] + [e])[1..] == [];
      assert Run(h, [] + [e]) == Run(Next(h, e), []);
    } else {
      assert (events + [e])[1..] == events[1..] + [e];
      RunExtend(Next(h, events[0]), events[1..], e);
    }
  }

  // ---- what a session encrypts --------------------------------------------------------------------

  function SendKey(s: Session): Derived
    requires s.keys.Some?
  {
    if s.role == Initiator then s.keys.value.keyA2b else s.keys.value.keyB2a
  }

  function SendIv(s: Session): Derived
    requires s.keys.Some?
  {
    if s.role == Initiator then s.keys.value.ivA2b else s.keys.value.ivB2a
  }

  /** The i-th encryption of a run is under the session's one sending key and IV, with number i. */
  predicate Numbered(s: Session, seals: seq<Sealed>) {
    && |seals| == SendSeq(s)
    && (s.keys.None? ==> seals == [])
    && (seals != [] ==> s.keys.Some? && s.cid.Some?)
    && |seals| <= SEQ_LIMIT
    && forall i | 0 <= i < |seals| ::
         && seals[i].Seal? && seals[i].seqno == i && seals[i].ad == s.cid.value
         && seals[i].key == SendKey(s) && seals[i].iv == SendIv(s) && seals[i].aead == s.keys.value.aead
  }

  // ---- what a session puts on the wire --------------------------------------------------------------

  function Copies(p: Pdu, n: nat): seq<Pdu> {
    seq(n, _ => p)
  }

  /** The traffic PDUs that carry the encryptions from number `from` on. */
  function Traffic(cid: Cid, seals: seq<Sealed>, from: nat): seq<Pdu>
    requires from <= |seals|
  {
    seq(|seals| - from, i requires 0 <= i < |seals| - from => Pdu(0, cid, Message(from + i, seals[from + i])))
  }

  /** A trace without the copies of one handshake PDU. */
  function Without(t: seq<Pdu>, d: Pdu): seq<Pdu> {
    if t == [] then []
    else Without(t[..|t| - 1], d) + if t[|t| - 1] == d then [] else [t[|t| - 1]]
  }

  function Budget(config: Config): nat {
    if config.maxRetries < 0 then 0 else config.maxRetries
  }

  // ---- the initiator -----------------------------------------------------------------------------------

  /** The two handshake PDUs of an initiator and how often each has been sent. */
  datatype Sent = Sent(r: Pdu, rs: nat, c: Pdu, cs: nat)

  /** The initiator's state before any response: what fork() does not copy is as constructed. */
  predicate Unanswered(s: Session) {
    && s.lastReceived.None? && s.keys.None? && s.sentPlain.None? && s.seqA2b == 0 && s.seqB2a == 0
    && s.hs == NO_HANDSHAKE.(peerKeyId := s.hs.peerKeyId, ephemeral := s.hs.ephemeral,
                             ephemeralPublic := s.hs.ephemeralPublic, s1 := s.hs.s1)
  }

  predicate InitiatorInv(h: History, l: Sent, least: nat) {
    var s := h.s;
    && s.role == Initiator
    && Numbered(s, h.seals)
    && s.attempts <= Budget(s.config)
    && l.r.Pdu? && l.r.payload.SessionInitRequest?
    && l.c.Pdu? && l.c.payload.SessionCompletionRequest?
    && l.rs <= 1 + Budget(s.config)
    && l.cs <= 1 + Budget(s.config) + h.duplicates
    && match s.state
       case Initial => h.trace == [] && h.seals == [] && s.lastSent.None? && s.deadline.None? && Unanswered(s)
                       && h.delivered == []
       case ExpectInitResponse =>
         && Unanswered(s) && s.lastSent == Some(l.r) && s.cid.Some? && s.deadline.Some?
         && h.trace == Copies(l.r, l.rs) && h.seals == [] && h.delivered == []
         && least <= l.rs <= 1 + s.attempts
       case ExpectCompletionResponse =>
         && s.lastSent == Some(l.c) && s.cid.Some? && s.keys.Some? && s.sentPlain.Some? && s.deadline.Some?
         && h.trace == Copies(l.r, l.rs) + Copies(l.c, l.cs) && |h.seals| == 1
         && l.c == Pdu(0, s.cid.value, l.c.payload) && l.c.payload.cM == h.seals[0]
         && least <= l.rs && 1 <= l.cs <= 1 + s.attempts + h.duplicates
         && s.seqB2a == 0 && h.delivered == []
       case Established =>
         && s.lastSent.None? && s.deadline.None? && s.cid.Some? && s.keys.Some? && |h.seals| >= 1
         && h.trace == Copies(l.r, l.rs) + Copies(l.c, l.cs) + Traffic(s.cid.value, h.seals, 1)
         && l.c.payload.cM == h.seals[0]
         && least <= l.rs && 1 <= l.cs
         && s.seqB2a == |h.delivered|
       case Dropped =>
         && h.trace == Copies(l.r, l.rs) + Copies(l.c, l.cs) && |h.seals| <= 1
         && least <= l.rs && (h.seals == [] ==> l.cs == 0)
         && h.delivered == []
       case ExpectCompletionRequest => false
  }

  lemma CopiesGrow(p: Pdu, n: nat)
    ensures Copies(p, n) + [p] == Copies(p, n + 1)
  {
  }

  lemma TrafficGrows(cid: Cid, seals: seq<Sealed>, from: nat, ct: Sealed)
    requires from <= |seals|
    ensures Traffic(cid, seals + [ct], from)
         == Traffic(cid, seals, from) + [Pdu(0, cid, Message(|seals|, ct))]
  {
  }

  lemma InitiatorRepeats(h: History, l: Sent, least: nat, pdu: Pdu) returns (k: Sent)
    requires InitiatorInv(h, l, least) && h.s.state != Dropped && h.s.lastReceived == Some(pdu)
    ensures k.r == l.r
    ensures forall now, keys, coins ::
      var a := ProcessIncoming(h.s, pdu, now, keys, coins);
      InitiatorInv(Record(h, a.next, a.out).(duplicates := h.duplicates + 1), k, least) && a.next.state != Dropped
  {
    k := l;
    if h.s.state == ExpectCompletionResponse {
      k := l.(cs := l.cs + 1);
      CopiesGrow(l.c, l.cs);
    }
  }

  lemma InitiatorAnswers(h: History, l: Sent, least: nat, pdu: Pdu, now: real, keys: Keys, coins: Coins)
    returns (k: Sent)
    requires InitiatorInv(h, l, least) && h.s.state == ExpectInitResponse
    requires pdu.Pdu? && pdu.payload.SessionInitResponse?
    ensures var a := HandleInitResponse(h.s, pdu.payload, pdu, now, keys, coins);
            InitiatorInv(Record(h, a.next, a.out), k, least) && a.next.state != Dropped
    ensures k.r == l.r
  {
    k := l;
    var a := HandleInitResponse(h.s, pdu.payload, pdu, now, keys, coins);
    if a.error.None? {
      k := l.(c := a.out.pdus[0], cs := 1);
    }
  }

  lemma InitiatorConfirms(h: History, l: Sent, least: nat, pdu: Pdu)
    requires InitiatorInv(h, l, least) && h.s.state == ExpectCompletionResponse
    requires pdu.Pdu? && pdu.payload.SessionCompletionResponse?
    ensures var a := HandleCompletionResponse(h.s, pdu.payload, pdu);
            InitiatorInv(Record(h, a.next, a.out), l, least) && a.next.state != Dropped
  {
  }

  lemma InitiatorHears(h: History, l: Sent, least: nat, pdu: Pdu)
    requires InitiatorInv(h, l, least) && h.s.state == Established
    requires pdu.Pdu? && pdu.payload.Message?
    ensures var a := HandleEstablishedMessage(h.s, pdu.payload);
            InitiatorInv(Record(h, a.next, a.out), l, least) && a.next.state != Dropped
  {
  }

  lemma InitiatorTakes(h: History, l: Sent, least: nat, now: real, keys: Keys, coins: Coins) returns (k: Sent)
    requires InitiatorInv(h, l, least) && h.s.state != Dropped
    ensures var a := TakeIncoming(h.s, now, keys, coins);
            var d := h.duplicates + if DuplicateNext(h.s) then 1 else 0;
            InitiatorInv(Record(h, a.next, a.out).(duplicates := d), k, least) && a.next.state != Dropped
    ensures k.r == l.r
  {
    hide InitiatorInv, HandleInitResponse, HandleCompletionResponse, HandleEstablishedMessage, HandleInitRequest,
         HandleCompletionRequest;
    k := l;
    InitiatorPops(h, l, least);
    if h.s.inQueue != [] {
      var g := h.(s := h.s.(inQueue := h.s.inQueue[1..]));
      var pdu := h.s.inQueue[0];
      var handled := pdu.Pdu? && g.s.cid == Some(pdu.cid);
      if DuplicateNext(h.s) {
        k := InitiatorRepeats(g, l, least, pdu);
      } else if handled && g.s.state == ExpectInitResponse && pdu.payload.SessionInitResponse? {
        k := InitiatorAnswers(g, l, least, pdu, now, keys, coins);
      } else if handled && g.s.state == ExpectCompletionResponse && pdu.payload.SessionCompletionResponse? {
        InitiatorConfirms(g, l, least, pdu);
      } else if handled && g.s.state == Established && pdu.payload.Message? {
        InitiatorHears(g, l, least, pdu);
      } else {
        InitiatorIgnores(h, now, keys, coins);
      }
    }
  }

  lemma InitiatorPops(h: History, l: Sent, least: nat)
    requires InitiatorInv(h, l, least)
    ensures h.s.role == Initiator && Record(h, h.s, NOTHING).(duplicates := h.duplicates + 0) == h
    ensures h.s.inQueue != [] ==> InitiatorInv(h.(s := h.s.(inQueue := h.s.inQueue[1..])), l, least)
  {
  }

  /** What an initiator does not expect, it takes from the queue and no more. */
  lemma InitiatorIgnores(h: History, now: real, keys: Keys, coins: Coins)
    requires h.s.inQueue != [] && h.s.role == Initiator && h.s.state != Dropped && !DuplicateNext(h.s)
    requires var pdu := h.s.inQueue[0];
             !(pdu.Pdu? && h.s.cid == Some(pdu.cid)
               && ((h.s.state == ExpectInitResponse && pdu.payload.SessionInitResponse?)
                   || (h.s.state == ExpectCompletionResponse && pdu.payload.SessionCompletionResponse?)
                   || (h.s.state == Established && pdu.payload.Message?)))
    ensures var a := TakeIncoming(h.s, now, keys, coins);
            Record(h, a.next, a.out).(duplicates := h.duplicates) == h.(s := h.s.(inQueue := h.s.inQueue[1..]))
  {
    var a := TakeIncoming(h.s, now, keys, coins);
    assert a.next == h.s.(inQueue := h.s.inQueue[1..]) && a.out == NOTHING;
  }

  lemma InitiatorSends(h: History, l: Sent, least: nat)
    requires InitiatorInv(h, l, least) && h.s.state != Dropped
    ensures var b := SendPending(h.s); InitiatorInv(Record(h, b.next, b.out), l, least) && b.next.state != Dropped
  {
    var b := SendPending(h.s);
    if b.out.seals != [] {
      TrafficGrows(h.s.cid.value, h.seals, 1, b.out.seals[0]);
    }
  }

  lemma InitiatorTimesOut(h: History, l: Sent, least: nat, now: real) returns (k: Sent)
    requires InitiatorInv(h, l, least) && h.s.state != Dropped
    ensures var c := CheckTimeout(h.s, now); InitiatorInv(Record(h, c.next, c.out), k, least)
    ensures k.r == l.r
  {
    k := l;
    var c := CheckTimeout(h.s, now);
    if h.s.state == ExpectInitResponse {
      if c.out.pdus != [] {
        k := l.(rs := l.rs + 1);
        CopiesGrow(l.r, l.rs);
      } else {
        k := l.(cs := 0);
      }
    } else if h.s.state == ExpectCompletionResponse && c.out.pdus != [] {
      k := l.(cs := l.cs + 1);
      CopiesGrow(l.c, l.cs);
    }
  }

  lemma RecordTwice(h: History, s1: Session, o1: Output, s2: Session, o2: Output)
    ensures Record(Record(h, s1, o1), s2, o2) == Record(h, s2, Then(o1, o2))
  {
  }

  lemma InitiatorCranks(h: History, l: Sent, least: nat, now: real, keys: Keys, coins: Coins) returns (k: Sent)
    requires InitiatorInv(h, l, least)
    ensures InitiatorInv(Next(h, Event.Crank(now, keys, coins)), k, least)
    ensures k.r == l.r
  {
    hide InitiatorInv, TakeIncoming, SendPending, CheckTimeout;
    k := l;
    assert Record(h, h.s, NOTHING) == h;
    if h.s.state != Dropped {
      var d := h.duplicates + if DuplicateNext(h.s) then 1 else 0;
      k := InitiatorTakes(h, l, least, now, keys, coins);
      var a := TakeIncoming(h.s, now, keys, coins);
      var h1 := Record(h, a.next, a.out).(duplicates := d);
      if a.error.None? {
        InitiatorSends(h1, k, least);
        var b := SendPending(a.next);
        var h2 := Record(h1, b.next, b.out);
        RecordTwice(h.(duplicates := d), a.next, a.out, b.next, b.out);
        if b.error.None? {
          k := InitiatorTimesOut(h2, k, least, now);
          var c := CheckTimeout(b.next, now);
          RecordTwice(h.(duplicates := d), b.next, Then(a.out, b.out), c.next, c.out);
        }
      }
    }
  }

  lemma InitialIsLeftForGood(s: Session, now: real, keys: Keys, coins: Coins)
    requires s.state != Initial
    ensures Update(s, now, keys, coins).next.state != Initial
  {
    var a := TakeIncoming(s, now, keys, coins);
    assert a.next.state != Initial;
    hide TakeIncoming;
    var b := SendPending(a.next);
    assert b.next.state == a.next.state;
  }

  lemma InitiatorBegins(h: History, l: Sent, least: nat, e: Event) returns (k: Sent)
    requires InitiatorInv(h, l, least) && least <= 1 && e.Initiate?
    ensures InitiatorInv(Next(h, e), k, least)
    ensures h.s.state != Initial ==> Next(h, e).s.state != Initial && k.r == l.r
  {
    k := l;
    if h.s.state == Initial {
      InitiateStep(h.s, e);
      hide SessionModel.Initiate;
      var step := SessionModel.Initiate(h.s, e.peer, e.at, e.keys, e.cid, e.coins);
      if step.error.None? {
        k := l.(r := step.out.pdus[0], rs := 1, cs := 0);
      }
    }
  }

  /** The first step of a handshake, or as much of it as there is before an exception. */
  lemma InitiateStep(s: Session, e: Event)
    requires e.Initiate? && s.role == Initiator && s.state == Initial
    ensures var a := SessionModel.Initiate(s, e.peer, e.at, e.keys, e.cid, e.coins);
            && a.next == s.(cid := a.next.cid, hs := a.next.hs, lastSent := a.next.lastSent,
                            attempts := a.next.attempts, deadline := a.next.deadline,
                            state := a.next.state, outPdus := a.next.outPdus)
            && a.next.hs == s.hs.(peerKeyId := a.next.hs.peerKeyId, ephemeral := a.next.hs.ephemeral,
                                  ephemeralPublic := a.next.hs.ephemeralPublic, s1 := a.next.hs.s1)
            && if a.error.Some? then
                 a.out == NOTHING && a.next == s.(cid := a.next.cid, hs := a.next.hs)
               else
                 && a.next.state == ExpectInitResponse && a.next.attempts == 0 && a.next.cid.Some?
                 && a.next.deadline.Some?
                 && |a.out.pdus| == 1 && a.out.seals == [] && a.out.payloads == []
                 && a.next.lastSent == Some(a.out.pdus[0])
                 && a.out.pdus[0].Pdu? && a.out.pdus[0].payload.SessionInitRequest?
  {
  }

  lemma InitiatorSteps(h: History, l: Sent, least: nat, e: Event) returns (k: Sent)
    requires InitiatorInv(h, l, least) && least <= 1
    ensures InitiatorInv(Next(h, e), k, least)
    ensures h.s.state != Initial ==> Next(h, e).s.state != Initial && k.r == l.r
  {
    k := l;
    match e
    case Initiate(_, _, _, _, _) =>
      k := InitiatorBegins(h, l, least, e);
    case Crank(now, keys, coins) =>
      hide InitiatorInv, Update;
      k := InitiatorCranks(h, l, least, now, keys, coins);
      if h.s.state != Initial {
        InitialIsLeftForGood(h.s, now, keys, coins);
      }
    case Post(_) =>
    case Offer(_) =>
    case TakePdu =>
    case TakePayload =>
  }

  lemma {:induction false} InitiatorRuns(h: History, l: Sent, least: nat, events: seq<Event>) returns (k: Sent)
    requires InitiatorInv(h, l, least) && least <= 1
    ensures InitiatorInv(Run(h, events), k, least)
    ensures h.s.state != Initial ==> k.r == l.r
    decreases |events|
  {
    hide InitiatorInv, Next;
    k := l;
    if events != [] {
      k := InitiatorSteps(h, l, least, events[0]);
      k := InitiatorRuns(Next(h, events[0]), k, least, events[1..]);
    }
  }

  // ---- the responder ------------------------------------------------------------------------------------

  /** The responder's two handshake PDUs, the copies of the first, everything after them, and how
      many encryptions the handshake itself used. */
  datatype Replies = Replies(p: Pdu, ps: nat, d: Pdu, tail: seq<Pdu>, base: nat)

  predicate ResponderInv(h: History, l: Replies) {
    var s := h.s;
    && s.role == Responder
    && Numbered(s, h.seals)
    && match s.state
       case Initial => h.trace == [] && h.seals == [] && s.lastReceived.None? && s.lastSent.None? && s.deadline.None?
                       && s.keys.None? && s.seqA2b == 0 && s.seqB2a == 0 && h.delivered == []
       case ExpectCompletionRequest =>
         && Answered(s.hs) && s.cid.Some? && s.deadline.Some?
         && s.lastSent == Some(l.p) && l.p.Pdu? && l.p.payload.SessionInitResponse?
         && h.trace == Copies(l.p, l.ps) && l.ps >= 1 && h.seals == [] && s.keys.None?
         && s.seqA2b == 0 && s.seqB2a == 0 && h.delivered == []
       case Established =>
         && s.keys.Some? && s.cid.Some? && s.deadline.None?
         && s.lastSent == Some(l.d) && l.d.Pdu? && l.d.payload.SessionCompletionResponse?
         && l.p.Pdu? && l.p.payload.SessionInitResponse?
         && h.trace == Copies(l.p, l.ps) + l.tail && l.ps >= 1
         && l.tail != [] && l.tail[0] == l.d
         && l.base <= |h.seals|
         && l.base == (if l.d.payload.reply.Some? then 1 else 0)
         && (l.base == 1 ==> l.d.payload.reply == Some(h.seals[0]))
         && Without(l.tail, l.d) == Traffic(s.cid.value, h.seals, l.base)
         && |h.delivered| <= s.seqA2b <= |h.delivered| + 1
       case Dropped =>
         && l.p.Pdu? && l.p.payload.SessionInitResponse?
         && h.trace == Copies(l.p, l.ps) && l.ps >= 1 && h.seals == [] && h.delivered == []
       case ExpectInitResponse => false
       case ExpectCompletionResponse => false
  }

  lemma WithoutGrows(t: seq<Pdu>, d: Pdu, p: Pdu)
    ensures Without(t + [p], d) == Without(t, d) + if p == d then [] else [p]
  {
    assert (t + [p])[..|t|] == t;
  }

  lemma ResponderRepeats(h: History, l: Replies, pdu: Pdu) returns (k: Replies)
    requires ResponderInv(h, l) && h.s.state != Dropped && h.s.lastReceived == Some(pdu)
    ensures forall now, keys, coins ::
      var a := ProcessIncoming(h.s, pdu, now, keys, coins);
      ResponderInv(Record(h, a.next, a.out), k) && a.next.state != Dropped
  {
    k := l;
    if h.s.state == ExpectCompletionRequest {
      k := l.(ps := l.ps + 1);
      CopiesGrow(l.p, l.ps);
    } else if h.s.state == Established {
      k := l.(tail := l.tail + [l.d]);
      WithoutGrows(l.tail, l.d, l.d);
    }
  }

  lemma ResponderAnswers(h: History, l: Replies, pdu: Pdu, now: real, keys: Keys, coins: Coins) returns (k: Replies)
    requires ResponderInv(h, l) && h.s.state == Initial
    requires pdu.Pdu? && pdu.payload.SessionInitRequest?
    ensures var a := HandleInitRequest(h.s.(cid := Some(pdu.cid)), pdu.payload, pdu, now, keys, coins);
            ResponderInv(Record(h, a.next, a.out), k) && a.next.state != Dropped
  {
    k := l;
    var a := HandleInitRequest(h.s.(cid := Some(pdu.cid)), pdu.payload, pdu, now, keys, coins);
    if a.error.None? {
      k := l.(p := a.out.pdus[0], ps := 1);
    }
  }

  /** Completing uses number 0 of the responder's own direction, or no number at all. */
  lemma CompletionStep(s: Session, pdu: Pdu)
    requires s.cid.Some? && s.seqB2a == 0 && s.role == Responder && pdu.Pdu? && pdu.payload.SessionCompletionRequest?
    ensures var a := HandleCompletionRequest(s, pdu.payload, pdu);
            if a.error.Some? then a.next == s && a.out == NOTHING
            else
              && a.next.state == Established && a.next.role == Responder && a.next.keys.Some? && a.next.cid == s.cid
              && a.next.deadline.None? && a.next.seqA2b == 1 && a.next.seqB2a == |a.out.seals| <= 1
              && |a.out.payloads| <= 1
              && |a.out.pdus| == 1 && a.next.lastSent == Some(a.out.pdus[0])
              && a.out.pdus[0].Pdu? && a.out.pdus[0].payload.SessionCompletionResponse?
              && a.out.pdus[0].payload.reply == (if a.out.seals == [] then None else Some(a.out.seals[0]))
              && (a.out.seals != [] ==>
                    a.out.seals[0].Seal? && a.out.seals[0].seqno == 0 && a.out.seals[0].ad == s.cid.value
                    && a.out.seals[0].key == SendKey(a.next) && a.out.seals[0].iv == SendIv(a.next)
                    && a.out.seals[0].aead == a.next.keys.value.aead)
  {
  }

  lemma ResponderCompletes(h: History, l: Replies, pdu: Pdu) returns (k: Replies)
    requires ResponderInv(h, l) && h.s.state == ExpectCompletionRequest
    requires pdu.Pdu? && pdu.payload.SessionCompletionRequest?
    ensures var a := HandleCompletionRequest(h.s, pdu.payload, pdu);
            ResponderInv(Record(h, a.next, a.out), k) && a.next.state != Dropped
  {
    hide HandleCompletionRequest, Without;
    k := l;
    CompletionStep(h.s, pdu);
    var a := HandleCompletionRequest(h.s, pdu.payload, pdu);
    if a.error.None? {
      var d := a.out.pdus[0];
      k := l.(d := d, tail := [d], base := |a.out.seals|);
      WithoutItself(d);
      assert h.seals + a.out.seals == a.out.seals;
      assert h.trace + a.out.pdus == Copies(l.p, l.ps) + [d];
    } else {
      assert Record(h, a.next, a.out) == h;
    }
  }

  lemma WithoutItself(d: Pdu)
    ensures Without([d], d) == []
  {
    WithoutGrows([], d, d);
    assert [] + [d] == [d];
  }

  lemma ResponderHears(h: History, l: Replies, pdu: Pdu)
    requires ResponderInv(h, l) && h.s.state == Established
    requires pdu.Pdu? && pdu.payload.Message?
    ensures var a := HandleEstablishedMessage(h.s, pdu.payload);
            ResponderInv(Record(h, a.next, a.out), l) && a.next.state != Dropped
  {
  }

  lemma ResponderTakes(h: History, l: Replies, now: real, keys: Keys, coins: Coins) returns (k: Replies)
    requires ResponderInv(h, l) && h.s.state != Dropped
    ensures var a := TakeIncoming(h.s, now, keys, coins);
            ResponderInv(Record(h, a.next, a.out), k) && a.next.state != Dropped
  {
    k := l;
    if h.s.inQueue != [] {
      var g := h.(s := h.s.(inQueue := h.s.inQueue[1..]));
      var pdu := h.s.inQueue[0];
      var handled := pdu.Pdu? && g.s.cid == Some(pdu.cid);
      assert ResponderInv(g, l);
      if DuplicateNext(h.s) {
        k := ResponderRepeats(g, l, pdu);
      } else if pdu.Pdu? && g.s.state == Initial && pdu.payload.SessionInitRequest? {
        k := ResponderAnswers(g, l, pdu, now, keys, coins);
      } else if handled && g.s.state == ExpectCompletionRequest && pdu.payload.SessionCompletionRequest? {
        k := ResponderCompletes(g, l, pdu);
      } else if handled && g.s.state == Established && pdu.payload.Message? {
        ResponderHears(g, l, pdu);
      } else {
        hide ResponderInv;
        var a := TakeIncoming(h.s, now, keys, coins);
        assert a.next == g.s && a.out == NOTHING;
        assert Record(h, a.next, a.out) == g;
      }
    }
  }

  lemma ResponderSends(h: History, l: Replies) returns (k: Replies)
    requires ResponderInv(h, l) && h.s.state != Dropped
    ensures var b := SendPending(h.s); ResponderInv(Record(h, b.next, b.out), k) && b.next.state != Dropped
  {
    hide Without, Traffic, SendEstablishedPayload;
    k := l;
    if h.s.state == Established && h.s.pending.Some? {
      SendStep(h.s, h.seals);
      var b := SendPending(h.s);
      if b.error.None? {
        TrafficGrows(h.s.cid.value, h.seals, l.base, b.out.seals[0]);
        WithoutGrows(l.tail, l.d, b.out.pdus[0]);
        k := l.(tail := l.tail + b.out.pdus);
        assert b.out.seals == [b.out.seals[0]] && b.out.pdus == [b.out.pdus[0]];
        assert h.trace + b.out.pdus == Copies(l.p, l.ps) + k.tail;
      } else {
        assert Record(h, b.next, b.out) == h.(s := b.next);
      }
    } else {
      assert Record(h, h.s, NOTHING) == h;
    }
  }

  /** One more encryption, with the next number, in one traffic PDU. */
  lemma SendStep(s: Session, seals: seq<Sealed>)
    requires Numbered(s, seals) && s.pending.Some? && s.keys.Some? && s.cid.Some?
    ensures var b := SendEstablishedPayload(s);
            && b.next == s.(pending := None, outPdus := b.next.outPdus, seqA2b := b.next.seqA2b,
                            seqB2a := b.next.seqB2a)
            && Numbered(b.next, seals + b.out.seals) && b.out.payloads == [] && ReceiveSeq(b.next) == ReceiveSeq(s)
            && if b.error.Some? then b.out == NOTHING && b.next == s.(pending := None)
               else |b.out.seals| == 1 && b.out.pdus == [Pdu(0, s.cid.value, Message(|seals|, b.out.seals[0]))]
  {
    assert seals + [] == seals;
  }

  lemma ResponderTimesOut(h: History, l: Replies, now: real)
    requires ResponderInv(h, l) && h.s.state != Dropped
    ensures var c := CheckTimeout(h.s, now); ResponderInv(Record(h, c.next, c.out), l)
  {
  }

  lemma ResponderCranks(h: History, l: Replies, now: real, keys: Keys, coins: Coins) returns (k: Replies)
    requires ResponderInv(h, l)
    ensures ResponderInv(Next(h, Event.Crank(now, keys, coins)), k)
  {
    hide ResponderInv, TakeIncoming, SendPending, CheckTimeout;
    k := l;
    assert Record(h, h.s, NOTHING) == h;
    if h.s.state != Dropped {
      var d := h.duplicates + if DuplicateNext(h.s) then 1 else 0;
      k := ResponderTakes(h, l, now, keys, coins);
      var a := TakeIncoming(h.s, now, keys, coins);
      DuplicatesDoNotMatter(Record(h, a.next, a.out), k, d);
      var h1 := Record(h, a.next, a.out).(duplicates := d);
      if a.error.None? {
        k := ResponderSends(h1, k);
        var b := SendPending(a.next);
        var h2 := Record(h1, b.next, b.out);
        RecordTwice(h.(duplicates := d), a.next, a.out, b.next, b.out);
        if b.error.None? {
          ResponderTimesOut(h2, k, now);
          var c := CheckTimeout(b.next, now);
          RecordTwice(h.(duplicates := d), b.next, Then(a.out, b.out), c.next, c.out);
        }
      }
    }
  }

  lemma DuplicatesDoNotMatter(h: History, l: Replies, d: nat)
    requires ResponderInv(h, l)
    ensures ResponderInv(h.(duplicates := d), l)
  {
  }

  lemma ResponderSteps(h: History, l: Replies, e: Event) returns (k: Replies)
    requires ResponderInv(h, l)
    ensures ResponderInv(Next(h, e), k)
  {
    k := l;
    if e.Crank? {
      k := ResponderCranks(h, l, e.now, e.keys, e.coins);
    }
  }

  lemma {:induction false} ResponderRuns(h: History, l: Replies, events: seq<Event>) returns (k: Replies)
    requires ResponderInv(h, l)
    ensures ResponderInv(Run(h, events), k)
    decreases |events|
  {
    hide ResponderInv, Next;
    k := l;
    if events != [] {
      k := ResponderSteps(h, l, events[0]);
      k := ResponderRuns(Next(h, events[0]), k, events[1..]);
    }
  }

  // ---- theorems about whole runs -----------------------------------------------------------------------------

  /** R* C* M*, where M* is traffic numbered consecutively from 1 and C is there when M is. */
  predicate IsInitiatorTrace(t: seq<Pdu>, r: Pdu, rs: nat, c: Pdu, cs: nat, cid: Cid, seals: seq<Sealed>) {
    && r.Pdu? && r.payload.SessionInitRequest? && c.Pdu? && c.payload.SessionCompletionRequest?
    && |seals| >= 1 && (|seals| > 1 ==> cs >= 1)
    && t == Copies(r, rs) + Copies(c, cs) + Traffic(cid, seals, 1)
  }

  /** Whatever arrives, the PDUs an initiator puts out are a prefix of R+ C+ M*, with at most
      1 + max_retries copies of R, and of C at most one more for every duplicate it was shown. */
  lemma InitiatorOutput(own: Option<KeyId>, config: Config, events: seq<Event>)
    ensures var h := Run(Begin(New(Initiator, own, config)), events);
            exists r, rs: nat, c, cs: nat, cid, seals ::
              && IsInitiatorTrace(h.trace, r, rs, c, cs, cid, seals)
              && (h.trace != [] ==> rs >= 1)
              && rs <= 1 + Budget(config)
              && cs <= 1 + Budget(config) + h.duplicates
  {
    var h := Begin(New(Initiator, own, config));
    var l := Sent(ANY_REQUEST, 0, ANY_COMPLETION, 0);
    PartyIsFixed(h, events);
    l := InitiatorRuns(h, l, 1, events);
    InitiatorTraceOf(Run(h, events), l, 1);
  }

  const NO_KEY_ID := KeyId([], [])
  const ANY_REQUEST := Pdu(0, [], SessionInitRequest(OpaqueCiphertext([]), NO_KEY_ID, PublicKey([], 0), NO_KEY_ID, []))
  const ANY_RESPONSE := Pdu(0, [],
                            SessionInitResponse(PublicKey([], 0), OpaqueCiphertext([]), OpaqueCiphertext([]), [], []))
  const ANY_COMPLETION := Pdu(0, [], SessionCompletionRequest(OpaqueSeal([]), OpaqueCiphertext([]), []))

  lemma InitiatorTraceOf(h: History, l: Sent, least: nat)
    requires InitiatorInv(h, l, least)
    ensures exists rs: nat, c, cs: nat, cid, seals ::
              && IsInitiatorTrace(h.trace, l.r, rs, c, cs, cid, seals)
              && (h.trace != [] && least >= 1 ==> rs >= 1)
              && rs <= 1 + Budget(h.s.config)
              && cs <= 1 + Budget(h.s.config) + h.duplicates
  {
    var some := [OpaqueSeal([])];
    assert Traffic([], some, 1) == [];
    match h.s.state
    case Initial => assert IsInitiatorTrace(h.trace, l.r, 0, l.c, 0, [], some);
    case ExpectInitResponse => assert IsInitiatorTrace(h.trace, l.r, l.rs, l.c, 0, [], some);
    case Established => assert IsInitiatorTrace(h.trace, l.r, l.rs, l.c, l.cs, h.s.cid.value, h.seals);
    case ExpectCompletionResponse => assert IsInitiatorTrace(h.trace, l.r, l.rs, l.c, l.cs, [], some);
    case Dropped => assert IsInitiatorTrace(h.trace, l.r, l.rs, l.c, l.cs, [], some);
  }

  /** P* followed by nothing, or by one completion response D which may come again anywhere between
      traffic numbered consecutively, from 1 if D carries a payload and from 0 if not. */
  predicate IsResponderTrace(t: seq<Pdu>, p: Pdu, ps: nat, d: Pdu, tail: seq<Pdu>, cid: Cid, seals: seq<Sealed>) {
    && p.Pdu? && p.payload.SessionInitResponse? && t == Copies(p, ps) + tail
    && (tail != [] ==>
          && ps >= 1 && tail[0] == d && d.Pdu? && d.payload.SessionCompletionResponse?
          && var base := if d.payload.reply.Some? then 1 else 0;
             base <= |seals| && Without(tail, d) == Traffic(cid, seals, base))
  }

  /** Whatever arrives, the PDUs a responder puts out are a prefix of P+ D (D|M)*. */
  lemma ResponderOutput(own: Option<KeyId>, config: Config, events: seq<Event>)
    ensures var h := Run(Begin(New(Responder, own, config)), events);
            exists p, ps: nat, d, tail, cid, seals :: IsResponderTrace(h.trace, p, ps, d, tail, cid, seals)
  {
    var h := Begin(New(Responder, own, config));
    var l := Replies(ANY_RESPONSE, 0, ANY_RESPONSE, [], 0);
    l := ResponderRuns(h, l, events);
    ResponderTraceOf(Run(h, events), l);
  }

  lemma ResponderTraceOf(h: History, l: Replies)
    requires ResponderInv(h, l)
    ensures exists p, ps: nat, d, tail, cid, seals :: IsResponderTrace(h.trace, p, ps, d, tail, cid, seals)
  {
    match h.s.state
    case Initial => assert IsResponderTrace(h.trace, ANY_RESPONSE, 0, l.d, [], [], []);
    case ExpectCompletionRequest => assert IsResponderTrace(h.trace, l.p, l.ps, l.d, [], [], []);
    case Established => assert IsResponderTrace(h.trace, l.p, l.ps, l.d, l.tail, h.s.cid.value, h.seals);
    case Dropped => assert IsResponderTrace(h.trace, l.p, l.ps, l.d, [], [], []);
  }

  predicate SameParty(s: Session, t: Session) {
    s.config == t.config && s.role == t.role && s.ownKeyId == t.ownKeyId
  }

  lemma CrankKeepsParty(s: Session, now: real, keys: Keys, coins: Coins)
    ensures SameParty(s, Update(s, now, keys, coins).next)
  {
    var a := TakeIncoming(s, now, keys, coins);
    assert SameParty(s, a.next);
    hide TakeIncoming;
    var b := SendPending(a.next);
    assert SameParty(a.next, b.next);
  }

  lemma {:induction false} PartyIsFixed(h: History, events: seq<Event>)
    ensures SameParty(h.s, Run(h, events).s)
    decreases |events|
  {
    if events != [] {
      var e := events[0];
      if e.Crank? {
        CrankKeepsParty(h.s, e.now, e.keys, e.coins);
      }
      hide Update;
      PartyIsFixed(Next(h, e), events[1..]);
    }
  }

  /** In every run of a session, from construction on, the numbers it encrypts with in its own
      direction are exactly 0, 1, 2, ..., all under one key and IV, and all below 2^96. */
  lemma SequenceNumbersAreConsecutive(role: Role, own: Option<KeyId>, config: Config, events: seq<Event>)
    ensures var h := Run(Begin(New(role, own, config)), events); Numbered(h.s, h.seals)
  {
    var h := Begin(New(role, own, config));
    if role == Initiator {
      var l := Sent(ANY_REQUEST, 0, ANY_COMPLETION, 0);
      l := InitiatorRuns(h, l, 1, events);
    } else {
      var l := Replies(ANY_RESPONSE, 0, ANY_RESPONSE, [], 0);
      l := ResponderRuns(h, l, events);
    }
  }
}
