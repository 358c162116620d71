/** What a session remembers of the PDU it took last, and that it answers the same PDU with the same
    octets however often it comes. */
module SessionRepeats {
  import opened Base
  import opened Crypto
  import opened SessionFacts
  import opened SessionModel
  import opened SessionRuns
  import opened SessionProgress
  import opened SessionNoise
  import opened SessionInput

  // ---- what every reachable session remembers -------------------------------------------------------------

  datatype Kind = Request | Response | Completion | Confirmation | Data

  function KindOf(x: Payload): Kind {
    match x
    case SessionInitRequest(_, _, _, _, _) => Request
    case SessionInitResponse(_, _, _, _, _) => Response
    case SessionCompletionRequest(_, _, _) => Completion
    case SessionCompletionResponse(_, _) => Confirmation
    case Message(_, _) => Data
  }

  predicate IsOf(p: Option<Pdu>, kind: Kind) {
    p.Some? && p.value.Pdu? && KindOf(p.value.payload) == kind
  }

  /** What was taken last, and what is kept to be sent again, by state. */
  predicate Remembers(s: Session) {
    match s.state
    case Initial => s.lastReceived.None? && s.lastSent.None?
    case ExpectInitResponse => s.lastReceived.None? && IsOf(s.lastSent, Request)
    case ExpectCompletionRequest => IsOf(s.lastReceived, Request) && IsOf(s.lastSent, Response)
    case ExpectCompletionResponse => IsOf(s.lastReceived, Response) && IsOf(s.lastSent, Completion)
    case Established =>
      if s.role == Initiator then IsOf(s.lastReceived, Confirmation) && s.lastSent.None?
      else IsOf(s.lastReceived, Completion) && IsOf(s.lastSent, Confirmation)
    case Dropped => true
  }

  lemma TakingLeavesAlone(s: Session, now: real, keys: Keys, coins: Coins)
    requires s.state != Dropped
    ensures var a := TakeIncoming(s, now, keys, coins).next;
            && a.state != Dropped && a.role == s.role
            && (s.state == Established ==> a.lastReceived == s.lastReceived && a.lastSent == s.lastSent)
  {
  }

  lemma TakingRemembers(s: Session, now: real, keys: Keys, coins: Coins)
    requires Coherent(s) && Remembers(s) && s.state != Dropped
    ensures var a := TakeIncoming(s, now, keys, coins);
            && Remembers(a.next) && a.next.state != Dropped
            && (a.next.state == s.state ==> a.next.lastReceived == s.lastReceived && a.next.lastSent == s.lastSent)
  {
    hide DeriveSessionKeys, Decapsulate, ChooseAead, ResponderKeys, InitiatorKeys, OpenExpected, AeadName;
    TakingLeavesAlone(s, now, keys, coins);
    if s.state == Established {
      hide HandleInitRequest, HandleInitResponse, HandleCompletionRequest, HandleCompletionResponse, Coherent;
    }
  }

  lemma SendingRemembers(s: Session)
    ensures var b := SendPending(s).next;
            b.state == s.state && b.role == s.role && b.lastReceived == s.lastReceived && b.lastSent == s.lastSent
  {
  }

  lemma TimeoutRemembers(s: Session, now: real)
    ensures var c := CheckTimeout(s, now).next;
            && (c.state == s.state || c.state == Dropped) && c.role == s.role
            && c.lastReceived == s.lastReceived && c.lastSent == s.lastSent
  {
  }

  lemma CrankRemembers(s: Session, now: real, keys: Keys, coins: Coins)
    requires Coherent(s) && Remembers(s)
    ensures var t := Update(s, now, keys, coins).next;
            Remembers(t) && (t.state == s.state ==> t.lastReceived == s.lastReceived && t.lastSent == s.lastSent)
  {
    hide TakeIncoming, SendPending, CheckTimeout, Coherent;
    if s.state != Dropped {
      TakingRemembers(s, now, keys, coins);
      var a := TakeIncoming(s, now, keys, coins).next;
      SendingRemembers(a);
      TimeoutRemembers(SendPending(a).next, now);
    }
  }

  lemma InitiateRemembers(s: Session, e: Event)
    requires e.Initiate? && Remembers(s)
    ensures var t := SessionModel.Initiate(s, e.peer, e.at, e.keys, e.cid, e.coins).next;
            Remembers(t) && (t.state == s.state ==> t.lastReceived == s.lastReceived && t.lastSent == s.lastSent)
  {
  }

  lemma EventRemembers(h: History, e: Event)
    requires Coherent(h.s) && Remembers(h.s)
    ensures var t := Next(h, e).s;
            Remembers(t) && (t.state == h.s.state ==> t.lastReceived == h.s.lastReceived && t.lastSent == h.s.lastSent)
  {
    hide Update, SessionModel.Initiate, Coherent;
    if e.Crank? {
      CrankRemembers(h.s, e.now, e.keys, e.coins);
    } else if e.Initiate? {
      InitiateRemembers(h.s, e);
    }
  }

  /** In every state a session or a fork can reach. */
  lemma ReachableRemembers(start: Session, events: seq<Event>)
    requires Starting(start)
    ensures var s := Run(Begin(start), events).s; Coherent(s) && Remembers(s)
  {
    RunRemembers(Begin(start), events);
    ReachableIsCoherent(start, events);
  }

  lemma {:induction false} RunRemembers(h: History, events: seq<Event>)
    requires Coherent(h.s) && Remembers(h.s)
    ensures Remembers(Run(h, events).s)
    decreases |events|
  {
    hide Coherent, Remembers, Next;
    if events != [] {
      EventRemembers(h, events[0]);
      EventKeepsCoherent(h, events[0]);
      RunRemembers(Next(h, events[0]), events[1..]);
    }
  }

  predicate StaysIn(h: History, state: State, events: seq<Event>)
    decreases |events|
  {
    h.s.state == state && (events == [] || StaysIn(Next(h, events[0]), state, events[1..]))
  }

  lemma {:induction false} RememberedMeanwhile(h: History, events: seq<Event>)
    requires Coherent(h.s) && Remembers(h.s) && StaysIn(h, h.s.state, events)
    ensures var g := Run(h, events);
            && Coherent(g.s) && Remembers(g.s) && g.s.state == h.s.state
            && g.s.lastReceived == h.s.lastReceived && g.s.lastSent == h.s.lastSent
    decreases |events|
  {
    hide Coherent, Remembers, Next;
    if events != [] {
      EventRemembers(h, events[0]);
      EventKeepsCoherent(h, events[0]);
      RememberedMeanwhile(Next(h, events[0]), events[1..]);
    }
  }

  // ---- the same reply again -----------------------------------------------------------------------------------

  /** A PDU that moves a reachable session on, whatever else comes while it stays where that has brought it,
      and then the same PDU once more: whatever was put out for it the first time is put out first. */
  lemma SameReplyAgain(start: Session, past: seq<Event>, pdu: Pdu, first: Event, meanwhile: seq<Event>, again: Event)
    requires Starting(start) && first.Crank? && again.Crank?
    requires var h := Run(Begin(start), past);
             && h.s.inQueue == [] && h.s.state != Dropped
             && var k := Next(Next(h, Post(pdu)), first);
                && k.s.state != h.s.state && k.s.state != Dropped && StaysIn(k, k.s.state, meanwhile)
                && Run(k, meanwhile).s.inQueue == []
    ensures var h := Run(Begin(start), past);
            var reply := TakeIncoming(PostPdu(h.s, pdu), first.now, first.keys, first.coins).out.pdus;
            var k := Next(Next(h, Post(pdu)), first);
            var g := Run(k, meanwhile);
            var f := Next(Next(g, Post(pdu)), again);
            && h.trace + reply <= k.trace && g.trace + reply <= f.trace
            && (reply == [] ==> h.s.state == ExpectCompletionResponse)
  {
    hide Coherent, Remembers, TakeIncoming, SendPending, CheckTimeout;
    ReachableRemembers(start, past);
    var h := Run(Begin(start), past);
    var posted := PostPdu(h.s, pdu);
    assert Coherent(posted) && Remembers(posted) by { QueueAside(h.s, pdu); }
    assert posted.inQueue[0] == pdu;
    TakenIsRemembered(posted, first.now, first.keys, first.coins);
    TakingRemembers(posted, first.now, first.keys, first.coins);
    var a := TakeIncoming(posted, first.now, first.keys, first.coins);
    SendingRemembers(a.next);
    TimeoutRemembers(SendPending(a.next).next, first.now);
    var k := Next(Next(h, Post(pdu)), first);
    EventRemembers(Next(h, Post(pdu)), first);
    EventKeepsCoherent(Next(h, Post(pdu)), first);
    RememberedMeanwhile(k, meanwhile);
    var g := Run(k, meanwhile);
    var s := PostPdu(g.s, pdu);
    assert s.inQueue[0] == pdu;
    DuplicateIsAnswered(s, again.now, again.keys, again.coins);
  }

  lemma QueueAside(s: Session, pdu: Pdu)
    requires Coherent(s) && Remembers(s)
    ensures Coherent(PostPdu(s, pdu)) && Remembers(PostPdu(s, pdu))
  {
  }
}
