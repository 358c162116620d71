/** What an outer layer may rely on when it cranks a session it keeps in a table. */
module SessionFacts {
  import opened Base
  import opened SessionModel

  /** Which fields a state goes with. */
  predicate Coherent(s: Session) {
    match s.state
    case Initial => s.lastReceived.None? && s.deadline.None?
    case ExpectInitResponse => s.role == Initiator && s.lastReceived.None? && s.deadline.Some? && s.cid.Some?
    case ExpectCompletionRequest => s.role == Responder && s.lastReceived.Some? && s.deadline.Some? && s.cid.Some?
    case ExpectCompletionResponse =>
      s.role == Initiator && s.lastReceived.Some? && s.deadline.Some? && s.cid.Some? && s.keys.Some? && s.seqA2b == 1
    case Established => s.deadline.None? && s.cid.Some? && s.keys.Some?
    case Dropped => true
  }

  /** When the session wants to be cranked next: at its deadline or, without one, after an interval. */
  function Due(s: Session, now: real): real {
    if s.deadline.Some? then s.deadline.value else now + s.config.retryInterval
  }

  /** Nothing is waiting to be processed, or nothing ever will be. */
  predicate Quiet(s: Session) {
    s.state == Dropped || s.inQueue == []
  }

  /** The same established session later on: only counters, queues and the payload slot have moved. */
  predicate SameSession(s: Session, t: Session) {
    && t == s.(inQueue := t.inQueue, outPdus := t.outPdus, outPayloads := t.outPayloads,
               pending := t.pending, seqA2b := t.seqA2b, seqB2a := t.seqB2a)
    && s.seqA2b <= t.seqA2b && s.seqB2a <= t.seqB2a
  }

  /** A responder takes its cid from the first request. */
  predicate TakesCid(s: Session, t: Session) {
    s.state == Initial && s.inQueue != [] && s.inQueue[0].Pdu? && t.cid == Some(s.inQueue[0].cid)
  }

  predicate AcceptsResponse(s: Session, t: Session) {
    && s.state == ExpectInitResponse && s.inQueue != [] && s.inQueue[0].Pdu?
    && s.inQueue[0].payload.SessionInitResponse? && t.lastReceived == Some(s.inQueue[0])
  }

  /** What one crank may do to a quiet session given at most one PDU. */
  predicate Cranked(s: Session, c: Crank, now: real) {
    var t := c.next;
    && Coherent(t) && Quiet(t) && t.role == s.role && t.config == s.config
    && (t.cid == s.cid || TakesCid(s, t))
    && (s.state == Established ==> SameSession(s.(inQueue := []), t))
    && (t.state == s.state || t.state == Dropped
        || (s.state == Initial && t.state == ExpectCompletionRequest)
        || (s.state == ExpectInitResponse && t.state == ExpectCompletionResponse)
        || ((s.state == ExpectCompletionRequest || s.state == ExpectCompletionResponse) && t.state == Established))
    && (t.lastReceived != s.lastReceived ==> t.state == Established || s.state == Initial || AcceptsResponse(s, t))
    && match c.result
       case Raised(e) => t.state == s.state && t.lastReceived == s.lastReceived && t.deadline == s.deadline
       case Returned(_, Never) => t.state == Dropped
       case Returned(_, At(time)) =>
         t.state != Dropped && time == Due(t, now)
         && (t.deadline.Some? && t.state != Initial ==> now < time || s.config.retryInterval <= 0.0)
  }

  lemma TakingStays(s: Session, now: real, keys: Keys, coins: Coins)
    requires Coherent(s) && s.state != Dropped && |s.inQueue| <= 1
    ensures var a := TakeIncoming(s, now, keys, coins);
            && Coherent(a.next) && a.next.inQueue == [] && a.next.state != Dropped
            && (a.next.state == Established && s.state != Established ==> !Exhausted(a.next))
  {
  }

  lemma TakingKeepsParty(s: Session, now: real, keys: Keys, coins: Coins)
    requires Coherent(s) && s.state != Dropped && |s.inQueue| <= 1
    ensures var a := TakeIncoming(s, now, keys, coins);
            && a.next.role == s.role && a.next.config == s.config
            && (a.next.cid == s.cid || TakesCid(s, a.next))
            && (s.state == Established ==> SameSession(s.(inQueue := []), a.next))
  {
  }

  lemma TakingMoves(s: Session, now: real, keys: Keys, coins: Coins)
    requires Coherent(s) && s.state != Dropped && |s.inQueue| <= 1
    ensures var a := TakeIncoming(s, now, keys, coins);
            && (a.error.Some? ==>
                  a.next.state == s.state && a.next.lastReceived == s.lastReceived && a.next.deadline == s.deadline)
            && (a.next.state == s.state ==> a.next.lastReceived == s.lastReceived && a.next.deadline == s.deadline)
            && (a.next.state != s.state ==>
                  && s.inQueue != [] && a.next.lastReceived == Some(s.inQueue[0])
                  && match s.state
                     case Initial => a.next.state == ExpectCompletionRequest
                     case ExpectInitResponse =>
                       && a.next.state == ExpectCompletionResponse
                       && s.inQueue[0].Pdu? && s.inQueue[0].payload.SessionInitResponse?
                     case ExpectCompletionRequest => a.next.state == Established
                     case ExpectCompletionResponse => a.next.state == Established
                     case Established => false
                     case Dropped => false)
  {
  }

  lemma SendingStays(s: Session)
    requires Coherent(s) && s.state != Dropped
    ensures var b := SendPending(s);
            && Coherent(b.next)
            && b.next == s.(pending := b.next.pending, outPdus := b.next.outPdus, seqA2b := b.next.seqA2b,
                            seqB2a := b.next.seqB2a)
            && s.seqA2b <= b.next.seqA2b && s.seqB2a <= b.next.seqB2a
            && (b.error.Some? ==> s.state == Established && Exhausted(s))
  {
  }

  lemma TimeoutStays(s: Session, now: real)
    requires Coherent(s) && s.state != Dropped
    ensures var c := CheckTimeout(s, now);
            && Coherent(c.next) && c.error.None?
            && c.next == s.(attempts := c.next.attempts, deadline := c.next.deadline, state := c.next.state,
                            outPdus := c.next.outPdus)
            && (c.next.state == s.state || (c.next.state == Dropped && s.state != Initial && s.state != Established))
            && (s.state == Initial || s.state == Established ==> c.next == s)
            && (s.config.retryInterval > 0.0 && c.next.deadline.Some? && c.next.state != Dropped
                && s.state != Initial ==>
                  now < c.next.deadline.value)
  {
  }

  lemma CrankFacts(s: Session, now: real, keys: Keys, coins: Coins)
    requires Coherent(s) && Quiet(s.(inQueue := if s.inQueue == [] then [] else s.inQueue[1..]))
    ensures s.state != Dropped ==> Cranked(s, Update(s, now, keys, coins), now)
  {
    hide TakeIncoming, SendPending, CheckTimeout, Coherent;
    if s.state != Dropped {
      TakingStays(s, now, keys, coins);
      TakingKeepsParty(s, now, keys, coins);
      TakingMoves(s, now, keys, coins);
      var a := TakeIncoming(s, now, keys, coins);
      SendingStays(a.next);
      var b := SendPending(a.next);
      TimeoutStays(b.next, now);
    }
  }
}
