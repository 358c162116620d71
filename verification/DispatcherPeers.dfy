/** Two dispatchers over a network that may lose, duplicate, delay and reorder what they have put out:
    when the keys under an established cid are those the peer has it established under. */
module DispatcherPeers {
  import opened Base
  import opened Crypto
  import opened SessionModel
  import opened SessionFacts
  import opened Candidates
  import opened DispatcherModel
  import opened DispatcherInvariant
  import opened DispatcherRuns
  import opened DispatcherReasons

  // ---- the network ---------------------------------------------------------------------------------

  /** Both dispatchers, each with its account. */
  datatype Net = Net(a: Dispatcher, xa: Account, b: Dispatcher, xb: Account)

  datatype Action = AtA(e: Event) | AtB(e: Event)

  /** Whatever one side has ever put out may arrive at the other, whenever and as often as it likes. */
  ghost predicate Allowed(n: Net, m: Action) {
    match m
    case AtA(e) => Possible(n.a, e) && (e.Arrives? ==> e.pdu in n.xb.sent)
    case AtB(e) => Possible(n.b, e) && (e.Arrives? ==> e.pdu in n.xa.sent)
  }

  ghost function NetStep(n: Net, m: Action): Net {
    match m
    case AtA(e) => n.(a := After(n.a, e), xa := Noting(n.xa, e, After(n.a, e)))
    case AtB(e) => n.(b := After(n.b, e), xb := Noting(n.xb, e, After(n.b, e)))
  }

  ghost predicate AllowedRun(n: Net, actions: seq<Action>)
    decreases |actions|
  {
    actions == [] || (Allowed(n, actions[0]) && AllowedRun(NetStep(n, actions[0]), actions[1..]))
  }

  ghost function RunNet(n: Net, actions: seq<Action>): Net
    decreases |actions|
  {
    if actions == [] then n else RunNet(NetStep(n, actions[0]), actions[1..])
  }

  // ---- the invariant -----------------------------------------------------------------------------------

  /** Both sides are accountable, and each has been given only what the other has put out. */
  ghost predicate Connected(n: Net) {
    Accountable(n.a, n.xa) && Accountable(n.b, n.xb) && n.xa.got <= n.xb.sent && n.xb.got <= n.xa.sent
  }

  /** Every key the cid was confirmed with is that of the session established under it now. */
  ghost predicate StillHeld(d: Dispatcher, x: Account, cid: Cid) {
    forall k | (cid, k) in x.confirmed :: cid in d.established && d.established[cid].keys == Some(k)
  }

  lemma StepKeepsHeld(d: Dispatcher, x: Account, e: Event, cid: Cid)
    requires Good(d) && Possible(d, e) && StillHeld(d, x, cid) && e != Closes(cid)
    ensures StillHeld(After(d, e), Noting(x, e, After(d, e)), cid)
  {
    hide Good, After, Possible;
    StepKeeps(d, e);
    var next := After(d, e);
    forall k | (cid, k) in Noting(x, e, next).confirmed
      ensures cid in next.established && next.established[cid].keys == Some(k)
    {
      if (cid, k) in x.confirmed {
        assert cid in d.established.Keys - Closed(e);
      }
    }
  }

  lemma {:induction false} RunKeeps(n: Net, actions: seq<Action>, cid: Cid)
    requires Connected(n) && AllowedRun(n, actions)
    ensures Connected(RunNet(n, actions))
    ensures StillHeld(n.a, n.xa, cid) && AtA(Closes(cid)) !in actions ==>
              StillHeld(RunNet(n, actions).a, RunNet(n, actions).xa, cid)
    ensures StillHeld(n.b, n.xb, cid) && AtB(Closes(cid)) !in actions ==>
              StillHeld(RunNet(n, actions).b, RunNet(n, actions).xb, cid)
    decreases |actions|
  {
    hide Good, After, Possible, Accountable, StillHeld;
    if actions != [] {
      assert actions[0] in actions && forall m <- actions[1..] :: m in actions;
      StepConnects(n, actions[0], cid);
      RunKeeps(NetStep(n, actions[0]), actions[1..], cid);
    }
  }

  lemma StepConnects(n: Net, m: Action, cid: Cid)
    requires Connected(n) && Allowed(n, m)
    ensures Connected(NetStep(n, m))
    ensures StillHeld(n.a, n.xa, cid) && m != AtA(Closes(cid)) ==> StillHeld(NetStep(n, m).a, NetStep(n, m).xa, cid)
    ensures StillHeld(n.b, n.xb, cid) && m != AtB(Closes(cid)) ==> StillHeld(NetStep(n, m).b, NetStep(n, m).xb, cid)
  {
    hide After, Possible, StillHeld, Vouches, Covers, Founded, Good;
    match m
    case AtA(e) =>
      EventKeepsAccountable(n.a, n.xa, e);
      if e != Closes(cid) && StillHeld(n.a, n.xa, cid) {
        StepKeepsHeld(n.a, n.xa, e, cid);
      }
    case AtB(e) =>
      EventKeepsAccountable(n.b, n.xb, e);
      if e != Closes(cid) && StillHeld(n.b, n.xb, cid) {
        StepKeepsHeld(n.b, n.xb, e, cid);
      }
  }

  // ---- agreement ------------------------------------------------------------------------------------------

  /** This side has also sent the false start it was confirmed by under the other keys. */
  ghost predicate AlsoCompleted(x: Account, cid: Cid, plain: Bytes, k: SessionKeys) {
    exists c <- x.sent :: CompletesWith(c, cid, k, plain)
  }

  lemma OneDerivation(k: SessionKeys, l: SessionKeys)
    requires Derivation(k) && Derivation(l) && k.aead == l.aead && k.keyB2a == l.keyB2a
    ensures k == l
  {
  }

  /** An established initiator was confirmed by keys the peer has had under the cid, and under which it
      had itself sent what was confirmed: its own, unless the confirmation had no reply in it. */
  lemma InitiatorIsBacked(a: Dispatcher, xa: Account, xb: Account, cid: Cid)
    requires Accountable(a, xa) && (forall p <- xb.sent :: Founded(p, xb)) && xa.got <= xb.sent && xb.got <= xa.sent
    requires cid in a.established && a.established[cid].role == Initiator
    ensures var s := a.established[cid];
            && s.keys.Some? && s.sentPlain.Some? && s.lastReceived.Some?
            && exists k :: (cid, k) in xb.confirmed && AlsoCompleted(xa, cid, s.sentPlain.value, k)
                 && (k == s.keys.value
                     || (s.lastReceived.value.Pdu? && s.lastReceived.value.payload.SessionCompletionResponse?
                         && s.lastReceived.value.payload.reply.None?))
  {
    hide Good, Coherent;
    var s := a.established[cid];
    assert Vouched(cid, s, xa) && s.state == Established by { GoodEstablished(a, cid); }
    var p := s.lastReceived.value;
    assert p in xb.sent && Founded(p, xb);
    var k, plain, c :| (p.cid, k) in xb.confirmed && Derivation(k)
      && c in xb.got && CompletesWith(c, p.cid, k, plain) && ConfirmsWith(p, p.cid, k, plain);
    assert plain == s.sentPlain.value && c in xa.sent;
    if p.payload.reply.Some? {
      OneDerivation(k, s.keys.value);
    }
  }

  /** An established responder was given what it was confirmed by: a completion request that the peer has
      sent, under the very keys it holds. */
  lemma ResponderIsBacked(b: Dispatcher, xb: Account, xa: Account, cid: Cid)
    requires Accountable(b, xb) && xb.got <= xa.sent
    requires cid in b.established && b.established[cid].role == Responder
    ensures var s := b.established[cid]; s.keys.Some? && exists plain :: AlsoCompleted(xa, cid, plain, s.keys.value)
  {
    hide Good, Coherent;
    var s := b.established[cid];
    assert Vouched(cid, s, xb) && s.state == Established by { GoodEstablished(b, cid); }
    var plain :| CompletesWith(s.lastReceived.value, cid, s.keys.value, plain);
    assert AlsoCompleted(xa, cid, plain, s.keys.value);
  }

  /** The confirmation that established it had no reply in it. */
  predicate ConfirmedSilently(s: Session) {
    && s.lastReceived.Some? && s.lastReceived.value.Pdu? && s.lastReceived.value.payload.SessionCompletionResponse?
    && s.lastReceived.value.payload.reply.None?
  }

  /** If this side has the cid established as its initiator, so has the other side: under the same keys,
      or else the confirmation was silent and this side has also sent the same false start under the keys
      the other side has. */
  ghost predicate Agreed(d: Dispatcher, x: Account, e: Dispatcher, cid: Cid) {
    cid in d.established && d.established[cid].role == Initiator ==>
      && d.established[cid].keys.Some? && d.established[cid].sentPlain.Some?
      && cid in e.established && e.established[cid].keys.Some?
      && (e.established[cid].keys == d.established[cid].keys
          || (ConfirmedSilently(d.established[cid])
              && AlsoCompleted(x, cid, d.established[cid].sentPlain.value, e.established[cid].keys.value)))
  }

  function NewNet(configA: Config, storeA: Store, configB: Config, storeB: Store): Net {
    Net(NewDispatcher(configA, storeA), Account({}, {}, {}), NewDispatcher(configB, storeB), Account({}, {}, {}))
  }

  /** Limits as CandidateStore takes them. */
  predicate NewlyMade(store: Store) {
    NewStore(store.maxPerCid, store.maxTotal, store.ttl) == Some(store)
  }

  /** If this side has the cid established as its responder, the other side has sent the completion
      request it was established by, under the keys it holds. */
  ghost predicate CompletedByPeer(d: Dispatcher, cid: Cid, y: Account) {
    cid in d.established && d.established[cid].role == Responder ==>
      d.established[cid].keys.Some? && exists plain :: AlsoCompleted(y, cid, plain, d.established[cid].keys.value)
  }

  /** In every run of two dispatchers, over any network of this kind: what a responder holds under a cid
      the other side has sent; and where the one side does not close the cid, an initiator and it agree. */
  lemma PeersAgree(configA: Config, storeA: Store, configB: Config, storeB: Store, actions: seq<Action>, cid: Cid)
    requires NewlyMade(storeA) && NewlyMade(storeB) && AllowedRun(NewNet(configA, storeA, configB, storeB), actions)
    ensures var n := RunNet(NewNet(configA, storeA, configB, storeB), actions);
            && Connected(n) && CompletedByPeer(n.a, cid, n.xb) && CompletedByPeer(n.b, cid, n.xa)
            && (AtB(Closes(cid)) !in actions ==> Agreed(n.a, n.xa, n.b, cid))
            && (AtA(Closes(cid)) !in actions ==> Agreed(n.b, n.xb, n.a, cid))
  {
    hide Good, Vouches, Founded, CompletesWith, AllowedRun, RunNet;
    var n0 := NewNet(configA, storeA, configB, storeB);
    NewIsAccountable(configA, storeA.maxPerCid, storeA.maxTotal, storeA.ttl);
    NewIsAccountable(configB, storeB.maxPerCid, storeB.maxTotal, storeB.ttl);
    RunKeeps(n0, actions, cid);
    var n := RunNet(n0, actions);
    if cid in n.a.established {
      if n.a.established[cid].role == Initiator {
        InitiatorIsBacked(n.a, n.xa, n.xb, cid);
      } else {
        ResponderIsBacked(n.a, n.xa, n.xb, cid);
      }
    }
    if cid in n.b.established {
      if n.b.established[cid].role == Initiator {
        InitiatorIsBacked(n.b, n.xb, n.xa, cid);
      } else {
        ResponderIsBacked(n.b, n.xb, n.xa, cid);
      }
    }
  }

  /** The keys agree wherever the confirmation carried a reply, and wherever this side has sent that false
      start under the cid with no other keys. */
  lemma SameKeysWhen(d: Dispatcher, x: Account, e: Dispatcher, y: Account, cid: Cid)
    requires Agreed(d, x, e, cid) && Accountable(d, x) && Accountable(e, y)
    requires cid in d.established && d.established[cid].role == Initiator
    requires var s := d.established[cid];
             || !ConfirmedSilently(s)
             || forall k | AlsoCompleted(x, cid, s.sentPlain.value, k) ::
                  k.aead == s.keys.value.aead && k.keyA2b == s.keys.value.keyA2b
    ensures cid in e.established && e.established[cid].keys == d.established[cid].keys
  {
    hide Good, Founded, CompletesWith, Coherent;
    var s := d.established[cid];
    assert Vouched(cid, s, x) && s.state == Established by { GoodEstablished(d, cid); }
    var t := e.established[cid];
    assert Vouched(cid, t, y) && t.state == Established by { GoodEstablished(e, cid); }
    if ConfirmedSilently(s) && AlsoCompleted(x, cid, s.sentPlain.value, t.keys.value) {
      OneDerivation(t.keys.value, s.keys.value);
    }
  }

  // ---- which fork is promoted -------------------------------------------------------------------------------

  /** A fork that would be established by the confirmation: it awaits one of this false start, and can open
      the reply, if there is one. */
  predicate Takes(f: Session, pdu: Pdu)
    requires pdu.Pdu? && pdu.payload.SessionCompletionResponse?
  {
    && f.state == ExpectCompletionResponse && f.keys.Some? && f.sentPlain.Some? && f.cid.Some?
    && f.lastReceived != Some(pdu) && pdu.payload.hM == Sha256(f.sentPlain.value)
    && (pdu.payload.reply.Some? ==>
          var k := f.keys.value; Open(k.aead, k.keyB2a, k.ivB2a, 0, f.cid.value, pdu.payload.reply.value).Some?)
  }

  /** The first of them from a place on, or the number of forks. */
  function FirstTaker(fs: seq<Session>, from: nat, pdu: Pdu): (i: nat)
    requires from <= |fs| && pdu.Pdu? && pdu.payload.SessionCompletionResponse?
    ensures from <= i <= |fs| && (i < |fs| ==> Takes(fs[i], pdu))
    ensures forall j | from <= j < i :: !Takes(fs[j], pdu)
    decreases |fs| - from
  {
    if from == |fs| || Takes(fs[from], pdu) then from else FirstTaker(fs, from + 1, pdu)
  }

  predicate HasFalseStart(f: Session) {
    f.state == ExpectCompletionResponse ==> f.sentPlain.Some?
  }

  lemma ForkTakes(f: Session, cid: Cid, config: Config, pdu: Pdu, now: real, keys: Keys, coins: Coins)
    requires Competing(f, cid, config) && HasFalseStart(f)
    requires pdu.Pdu? && pdu.cid == cid && pdu.payload.SessionCompletionResponse?
    ensures var c := Update(PostPdu(f, pdu), now, keys, coins);
            && !EscapesFrom(c.result)
            && (c.result.Returned? && c.next.state == Established <==> Takes(f, pdu))
            && (Takes(f, pdu) ==> c.next.keys == f.keys && c.next.role == Initiator)
  {
  }

  lemma StillHasFalseStart(f: Session, cid: Cid, config: Config, pdu: Pdu, now: real, keys: Keys, coins: Coins)
    requires HasFalseStart(f) && Competing(f, cid, config) && pdu.Pdu? && pdu.payload.SessionCompletionResponse?
    ensures HasFalseStart(Update(PostPdu(f, pdu), now, keys, coins).next)
  {
  }

  lemma FirstTakerStays(fs: seq<Session>, i: nat, from: nat, f: Session, pdu: Pdu)
    requires i < from <= |fs| && pdu.Pdu? && pdu.payload.SessionCompletionResponse?
    ensures FirstTaker(fs[i := f], from, pdu) == FirstTaker(fs, from, pdu)
    decreases |fs| - from
  {
    if from < |fs| {
      FirstTakerStays(fs, i, from + 1, f, pdu);
    }
  }

  predicate AllHaveFalseStart(fs: seq<Session>) {
    forall f <- fs :: HasFalseStart(f)
  }

  lemma OneReplaced(fs: seq<Session>, i: nat, f: Session)
    requires i < |fs| && AllHaveFalseStart(fs)
    ensures HasFalseStart(fs[i])
    ensures HasFalseStart(f) ==> AllHaveFalseStart(fs[i := f])
  {
    hide HasFalseStart;
  }

  lemma {:induction false} FeedingFindsTaker(fs: seq<Session>, from: nat, cid: Cid, config: Config, pdu: Pdu, now: real,
                                             keys: Keys, coins: Coins)
    requires from <= |fs| && GoodForks(fs, cid, config) && AllHaveFalseStart(fs)
    requires pdu.Pdu? && pdu.cid == cid && pdu.payload.SessionCompletionResponse?
    ensures var g, i := FeedForks(fs, from, pdu, now, keys, coins), FirstTaker(fs, from, pdu);
            && !g.escaped && (g.winner.Some? <==> i < |fs|)
            && (i < |fs| ==> g.winner.value.keys == fs[i].keys && g.winner.value.role == Initiator)
    decreases |fs| - from
  {
    if from < |fs| {
      hide Update, GoodForks, Takes, Competing, Coherent, HasFalseStart, AllHaveFalseStart;
      var c := Update(PostPdu(fs[from], pdu), now, keys, coins);
      OneReplaced(fs, from, c.next);
      FedFork(fs, from, cid, config, pdu, now, keys, coins);
      ForkTakes(fs[from], cid, config, pdu, now, keys, coins);
      if !Takes(fs[from], pdu) {
        StillHasFalseStart(fs[from], cid, config, pdu, now, keys, coins);
        FirstTakerStays(fs, from, from + 1, c.next, pdu);
        FeedingFindsTaker(fs[from := c.next], from + 1, cid, config, pdu, now, keys, coins);
      }
    }
  }

  /** Which forks take a confirmation of this false start by these keys. */
  lemma WhoTakes(d: Dispatcher, x: Account, cid: Cid, pdu: Pdu, k: SessionKeys, plain: Bytes)
    requires Accountable(d, x) && cid in d.forks && Derivation(k) && ConfirmsWith(pdu, cid, k, plain)
    ensures AllHaveFalseStart(d.forks[cid])
    ensures forall f <- d.forks[cid] :: Takes(f, pdu) && pdu.payload.reply.Some? ==> f.keys == Some(k)
    ensures forall f <- d.forks[cid] :: pdu.payload.reply.None? ==>
              (Takes(f, pdu) <==> f.state == ExpectCompletionResponse && f.sentPlain == Some(plain)
                                  && f.lastReceived != Some(pdu))
  {
    var fs := d.forks[cid];
    GoodForksAt(d, cid);
    assert AllVouched(cid, fs, x);
    hide Vouched, Vouches, Covers, Founded, Good, Competing, Coherent;
    forall f | f in fs
      ensures HasFalseStart(f)
      ensures Takes(f, pdu) && pdu.payload.reply.Some? ==> f.keys == Some(k)
      ensures pdu.payload.reply.None? ==>
                (Takes(f, pdu) <==> f.state == ExpectCompletionResponse && f.sentPlain == Some(plain)
                                    && f.lastReceived != Some(pdu))
    {
      assert Vouched(cid, f, x) && Competing(f, cid, d.config);
      VouchedTaker(cid, f, x, d.config);
      if Takes(f, pdu) && pdu.payload.reply.Some? {
        OneDerivation(f.keys.value, k);
      }
    }
  }

  /** A confirmation promotes the first fork that takes it. With a reply in it, that fork has the keys of
      the reply. Without, it is the first that awaits a confirmation of the same false start, and so has
      the keys the peer confirmed if and only if no fork with other keys and the same false start comes
      before. */
  lemma WhoIsPromoted(d: Dispatcher, x: Account, cid: Cid, pdu: Pdu, k: SessionKeys, plain: Bytes, now: real,
                      keys: Keys, coins: Coins)
    requires Accountable(d, x) && cid in d.forks && cid !in d.responders && Derivation(k)
             && ConfirmsWith(pdu, cid, k, plain)
    ensures var fs := d.forks[cid]; var i := FirstTaker(fs, 0, pdu);
            var e := PostPduTo(d, pdu, now, keys, coins).d;
            && cid !in d.established
            && (cid in e.established <==> i < |fs|)
            && (i < |fs| ==> e.established[cid].keys == fs[i].keys && e.established[cid].role == Initiator)
            && (i < |fs| && pdu.payload.reply.Some? ==> fs[i].keys == Some(k))
            && (pdu.payload.reply.None? ==> forall j | 0 <= j < |fs| ::
                  Takes(fs[j], pdu) <==> fs[j].state == ExpectCompletionResponse && fs[j].sentPlain == Some(plain)
                                         && fs[j].lastReceived != Some(pdu))
  {
    var fs := d.forks[cid];
    GoodForksAt(d, cid);
    hide FeedForks, GoodForks, Good, Vouches, Covers, Takes, AllHaveFalseStart, Discard, Deliver, RouteInitRequest,
         RouteInitResponse, DeliverToResponder, CompletesWith, ConfirmsWith, Derivation, Waiting;
    WhoTakes(d, x, cid, pdu, k, plain);
    FeedingFindsTaker(fs, 0, cid, d.config, pdu, now, keys, coins);
    assert forall j | 0 <= j < |fs| :: fs[j] in fs;
  }

  predicate TakesVouched(f: Session, cid: Cid) {
    f.state == ExpectCompletionResponse ==>
      f.keys.Some? && f.sentPlain.Some? && f.cid == Some(cid) && Derivation(f.keys.value)
  }

  lemma VouchedTaker(cid: Cid, f: Session, x: Account, config: Config)
    requires Vouched(cid, f, x) && Competing(f, cid, config)
    ensures HasFalseStart(f) && TakesVouched(f, cid)
  {
    hide Founded, CompletesWith, ConfirmsWith, Derivation;
  }
}
