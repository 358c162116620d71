/** Whole runs of a dispatcher. */
module DispatcherRuns {
  import opened Base
  import opened Crypto
  import opened SessionModel
  import opened SessionFacts
  import opened Candidates
  import opened DispatcherModel
  import opened DispatcherInvariant
  import opened DispatcherCrank

  datatype Event =
    | Arrives(pdu: Pdu, now: real, keys: Keys, coins: Coins)
    | Submits(cid: Cid, payload: Bytes)
    | Starts(own: KeyId, peer: KeyId, now: real, keys: Keys, cid: Cid, coins: Coins)
    | Cranks(orders: Orders, now: real, keys: Keys, coins: Coins)
    | Closes(cid: Cid)
    | TakesPdu
    | TakesPayload

  /** The cid of a new handshake is fresh, and a dict is iterated in some order of its keys. */
  ghost predicate Possible(d: Dispatcher, e: Event) {
    match e
    case Starts(_, _, _, _, cid, _) => cid !in d.established && !Pending(d, cid)
    case Cranks(orders, now, keys, coins) => GoodOrders(d, orders, now, keys, coins)
    case _ => true
  }

  ghost function After(d: Dispatcher, e: Event): Dispatcher {
    match e
    case Arrives(pdu, now, keys, coins) => PostPduTo(d, pdu, now, keys, coins).d
    case Submits(cid, payload) => PostPayloadTo(d, cid, payload)
    case Starts(own, peer, now, keys, cid, coins) => InitiateAt(d, own, peer, now, keys, cid, coins).d
    case Cranks(orders, now, keys, coins) => CrankAll(d, orders, now, keys, coins).d
    case Closes(cid) => Close(d, cid)
    case TakesPdu => d.(outPdus := if d.outPdus == [] then [] else d.outPdus[1..])
    case TakesPayload => d.(outPayloads := if d.outPayloads == [] then [] else d.outPayloads[1..])
  }

  ghost predicate PossibleRun(d: Dispatcher, es: seq<Event>)
    decreases |es|
  {
    es == [] || (Possible(d, es[0]) && PossibleRun(After(d, es[0]), es[1..]))
  }

  ghost function Final(d: Dispatcher, es: seq<Event>): Dispatcher
    decreases |es|
  {
    if es == [] then d else Final(After(d, es[0]), es[1..])
  }

  // ---- the invariant --------------------------------------------------------------------------------

  function Closed(e: Event): set<Cid> {
    if e.Closes? then {e.cid} else {}
  }

  lemma StepKeeps(d: Dispatcher, e: Event)
    requires Good(d) && Possible(d, e)
    ensures Good(After(d, e)) && StillThere(d, After(d, e), Closed(e))
  {
    hide Good, StillThere, PostPduTo, CrankAll, InitiateAt, PostPayloadTo, Close;
    match e
    case Arrives(pdu, now, keys, coins) => PostPduKeeps(d, pdu, now, keys, coins);
    case Submits(cid, payload) => PostPayloadKeeps(d, cid, payload);
    case Starts(own, peer, now, keys, cid, coins) => InitiateKeeps(d, own, peer, now, keys, cid, coins);
    case Cranks(orders, now, keys, coins) => CrankKeeps(d, orders, now, keys, coins);
    case Closes(cid) => CloseKeeps(d, cid);
    case TakesPdu => SameTablesKeeps(d, After(d, e));
    case TakesPayload => SameTablesKeeps(d, After(d, e));
  }

  lemma CrankKeeps(d: Dispatcher, orders: Orders, now: real, keys: Keys, coins: Coins)
    requires Good(d) && GoodOrders(d, orders, now, keys, coins)
    ensures var u := CrankAll(d, orders, now, keys, coins); Good(u.d) && StillThere(d, u.d, {})
  {
    hide Good, CrankAll, GoodOrders, Backed, StillThere;
    CrankAllKeeps(d, orders, now, keys, coins);
    StillThereTrans(d, Refreshed(d, now), CrankAll(d, orders, now, keys, coins).d, {});
  }

  lemma NewIsGood(config: Config, maxPerCid: int, maxTotal: int, ttl: real)
    requires NewStore(maxPerCid, maxTotal, ttl).Some?
    ensures Good(NewDispatcher(config, NewStore(maxPerCid, maxTotal, ttl).value))
  {
  }

  /** The tables of a dispatcher agree in every run. */
  lemma {:induction false} TablesAgree(d: Dispatcher, es: seq<Event>)
    requires Good(d) && PossibleRun(d, es)
    ensures Good(Final(d, es))
    decreases |es|
  {
    hide Good, After, Possible;
    if es != [] {
      StepKeeps(d, es[0]);
      TablesAgree(After(d, es[0]), es[1..]);
    }
  }

  /** An established cid keeps the very same session, its keys included, until it is closed. */
  lemma {:induction false} EstablishedUntilClosed(d: Dispatcher, es: seq<Event>, cid: Cid)
    requires Good(d) && PossibleRun(d, es) && cid in d.established && forall e <- es :: e != Closes(cid)
    ensures cid in Final(d, es).established && SameSession(d.established[cid], Final(d, es).established[cid])
    decreases |es|
  {
    hide Good, After, Possible;
    if es != [] {
      StepKeeps(d, es[0]);
      var d' := After(d, es[0]);
      assert es[0] in es && cid in d.established.Keys - Closed(es[0]);
      assert forall e <- es[1..] :: e in es;
      EstablishedUntilClosed(d', es[1..], cid);
      SameSessionTrans(d.established[cid], d'.established[cid], Final(d, es).established[cid]);
    }
  }

  // ---- one role at a time -------------------------------------------------------------------------------

  /** No incoming request carries a cid this dispatcher is itself initiating. */
  predicate OneRole(d: Dispatcher, e: Event) {
    e.Arrives? && e.pdu.Pdu? && e.pdu.payload.SessionInitRequest? ==> e.pdu.cid !in d.templates
  }

  ghost predicate OneRoleRun(d: Dispatcher, es: seq<Event>)
    decreases |es|
  {
    es == [] || (OneRole(d, es[0]) && OneRoleRun(After(d, es[0]), es[1..]))
  }

  // ---- what one arrival does to the store and to the lists of forks -----------------------------------------

  function RecentOf(s: Store, cid: Cid, from: real): nat {
    |Recent(CandidatesFor(s, cid), from)|
  }

  predicate Arriving(pdu: Pdu, cid: Cid) {
    pdu.Pdu? && pdu.cid == cid && pdu.payload.SessionInitResponse?
  }

  /** This event makes a new fork for the cid. */
  ghost predicate SpawnsFork(d: Dispatcher, e: Event, cid: Cid) {
    e.Arrives? && Arriving(e.pdu, cid) && cid !in d.established && Spawns(d, cid, e.pdu, e.now)
  }

  /** A request under the cid. */
  predicate Asks(e: Event, cid: Cid) {
    e.Arrives? && e.pdu.Pdu? && e.pdu.cid == cid && e.pdu.payload.SessionInitRequest?
  }

  /** A request under the cid that reaches a responder, there before or made for it. A request that the
      store refuses reaches none. */
  ghost predicate Engages(d: Dispatcher, e: Event, cid: Cid) {
    Asks(e, cid) && cid !in d.established && (cid in d.responders || Accepts(d.store, cid, e.now))
  }

  /** A responder under the cid, there before or made for this event, is not there afterwards. */
  predicate Gone(d: Dispatcher, e: Dispatcher, cid: Cid, asked: bool) {
    (cid in d.responders || asked) && cid !in e.responders
  }

  /** The request gets a responder of its own, and a candidate for it. */
  predicate Made(d: Dispatcher, cid: Cid, asked: bool) {
    asked && cid !in d.responders
  }

  /** Whatever the time: the limits stand, a cid gets a responder only when asked, a template only where
      it has no responder, and no candidate is left where a responder has been given up. Inside the
      window, for a cid still being initiated: recent candidates grow at least by what was spawned or
      made, unless they went with a responder under the same cid; there was room for a responder that was
      made; and the forks grow at most by what was spawned. */
  ghost predicate Accounted(d: Dispatcher, e: Dispatcher, cid: Cid, from: real, now: real, spawned: bool, asked: bool) {
    && SameLimits(d.store, e.store)
    && (cid in e.responders ==> cid in d.responders || asked)
    && (cid in e.templates ==> cid in d.templates || cid !in e.responders)
    && (spawned ==> !Gone(d, e, cid, asked) && !Made(d, cid, asked))
    && (Gone(d, e, cid, asked) ==> CandidatesFor(e.store, cid) == [])
    && (from <= now < from + d.store.ttl && cid in e.templates && cid in d.templates ==>
          && (!Gone(d, e, cid, asked) ==>
                RecentOf(d.store, cid, from) + (if spawned || Made(d, cid, asked) then 1 else 0)
                <= RecentOf(e.store, cid, from))
          && (Made(d, cid, asked) ==> RecentOf(d.store, cid, from) < d.store.maxPerCid)
          && |ForksOf(e, cid)| <= |ForksOf(d, cid)| + (if spawned then 1 else 0))
  }

  lemma RecentAdd(s: Store, k: Cid, pdu: Pdu, now: real, cid: Cid, from: real)
    requires Valid(s)
    ensures from <= now < from + s.ttl ==>
            RecentOf(Add(s, k, pdu, now), cid, from)
            == RecentOf(s, cid, from) + if k == cid && Accepts(s, k, now) then 1 else 0
    ensures SameLimits(s, Add(s, k, pdu, now))
  {
    hide Valid;
    if from <= now < from + s.ttl {
      RecentStep(s, AddOp(k, pdu, now), cid, from);
    }
  }

  /** Where there is room for one more, the recent candidates do not fill the cap. */
  lemma RoomForOneMore(s: Store, cid: Cid, now: real, from: real)
    requires Valid(s) && Accepts(s, cid, now) && now < from + s.ttl
    ensures RecentOf(s, cid, from) < s.maxPerCid
  {
    SweepKeepsRecent(s, now, cid, from);
    RecentIsShorter(CandidatesFor(Expire(s, now), cid), from);
  }

  lemma RecentDiscard(s: Store, k: Cid, cid: Cid, from: real)
    ensures k != cid ==> RecentOf(Discard(s, k), cid, from) == RecentOf(s, cid, from)
    ensures SameLimits(s, Discard(s, k))
  {
    DiscardLookup(s, k);
  }

  lemma {:induction false} RecentSameTimes(cs: seq<Candidate>, cs': seq<Candidate>, from: real)
    requires SameTimes(cs, cs')
    ensures |Recent(cs, from)| == |Recent(cs', from)|
  {
    if cs != [] {
      RecentSameTimes(cs[1..], cs'[1..], from);
    }
  }

  lemma RecentRecorded(s: Store, t: Store, cid: Cid, from: real)
    requires SameButSent(s, t)
    ensures RecentOf(t, cid, from) == RecentOf(s, cid, from) && SameLimits(s, t)
  {
    if cid in s.byCid {
      RecentSameTimes(s.byCid[cid], t.byCid[cid], from);
    }
  }

  lemma GoodHasValid(d: Dispatcher)
    requires Good(d)
    ensures Valid(d.store) && d.templates.Keys == d.forks.Keys
  {
  }

  /** A responder's own traffic touches no cid but its own. */
  lemma ResponderTraffic(d: Dispatcher, k: Cid, pdu: Pdu, now: real, keys: Keys, coins: Coins, cid: Cid, from: real,
                         asked: bool)
    requires k in d.responders && (asked ==> k == cid)
    ensures Accounted(d, DeliverToResponder(d, k, pdu, now, keys, coins).d, cid, from, now, false, asked)
  {
    hide Update, Recent;
    RecentDiscard(d.store, k, cid, from);
  }

  lemma ReapTraffic(d: Dispatcher, e: Dispatcher, k: Cid, cid: Cid, from: real, now: real, asked: bool)
    requires Accounted(d, e, cid, from, now, false, asked) && k in e.responders
    ensures Accounted(d, ReapResponder(e, k), cid, from, now, false, asked)
    ensures Accounted(d, DropResponder(e, k), cid, from, now, false, asked)
  {
    hide Recent;
    RecentDiscard(e.store, k, cid, from);
  }

  lemma RecordTraffic(d: Dispatcher, e: Dispatcher, k: Cid, sent: Option<Pdu>, cid: Cid, from: real, now: real,
                      asked: bool)
    requires Accounted(d, e, cid, from, now, false, asked)
    ensures Accounted(d, e.(store := RecordFirstSent(e.store, k, sent)), cid, from, now, false, asked)
  {
    RecordingKeeps(e.store, k, Malformed([]), sent);
    RecentRecorded(e.store, RecordFirstSent(e.store, k, sent), cid, from);
    hide Recent, RecordFirstSent;
  }

  /** A candidate and a responder more, for one cid. */
  lemma AnswerTraffic(d: Dispatcher, e: Dispatcher, k: Cid, pdu: Pdu, now: real, s: Session, cid: Cid, from: real)
    requires Valid(d.store) && Accepts(d.store, k, now) && k !in d.responders
    requires e == d.(store := Add(d.store, k, pdu, now), responders := d.responders[k := s],
                     outPdus := e.outPdus, outPayloads := e.outPayloads)
    ensures Accounted(d, e, cid, from, now, false, k == cid)
  {
    RecentAdd(d.store, k, pdu, now, cid, from);
    if now < from + d.store.ttl {
      RoomForOneMore(d.store, k, now, from);
    }
    hide Recent, Add, Accepts, Valid;
  }

  lemma RequestTraffic(d: Dispatcher, k: Cid, pdu: Pdu, now: real, keys: Keys, coins: Coins, cid: Cid, from: real)
    requires Good(d)
    ensures Accounted(d, RouteInitRequest(d, k, pdu, now, keys, coins).d, cid, from, now, false,
                      k == cid && (k in d.responders || Accepts(d.store, k, now)))
  {
    hide Update, Recent, Add, Accepts, Good, DeliverToResponder, ReapResponder, DropResponder, RecordFirstSent,
         Accounted;
    GoodHasValid(d);
    if k in d.responders {
      ResponderTraffic(d, k, pdu, now, keys, coins, cid, from, k == cid);
    } else if !Accepts(d.store, k, now) {
      RefusalTraffic(d, k, pdu, now, cid, from);
    } else {
      var noted := d.(store := Add(d.store, k, pdu, now));
      var v := Deliver(noted, New(Responder, None, d.config), pdu, now, keys, coins, k);
      var after := v.d.(responders := v.d.responders[k := v.s]);
      AnswerTraffic(d, after, k, pdu, now, v.s, cid, from);
      AfterRequest(d, after, k, v.s.lastSent, cid, from, now);
    }
  }

  lemma AfterRequest(d: Dispatcher, after: Dispatcher, k: Cid, sent: Option<Pdu>, cid: Cid, from: real, now: real)
    requires Accounted(d, after, cid, from, now, false, k == cid) && k in after.responders
    ensures Accounted(d, DropResponder(after, k), cid, from, now, false, k == cid)
    ensures Accounted(d, ReapResponder(after, k), cid, from, now, false, k == cid)
    ensures Accounted(d, ReapResponder(after.(store := RecordFirstSent(after.store, k, sent)), k), cid, from, now,
                      false, k == cid)
  {
    hide Accounted, ReapResponder, DropResponder, RecordFirstSent;
    ReapTraffic(d, after, k, cid, from, now, k == cid);
    RecordTraffic(d, after, k, sent, cid, from, now, k == cid);
    ReapTraffic(d, after.(store := RecordFirstSent(after.store, k, sent)), k, cid, from, now, k == cid);
  }

  /** A candidate and a fork more, for one cid. */
  lemma SpawnTraffic(d: Dispatcher, e: Dispatcher, k: Cid, pdu: Pdu, now: real, f: Session, cid: Cid, from: real)
    requires Valid(d.store) && k in d.templates && Accepts(d.store, k, now)
    requires e == d.(store := Add(d.store, k, pdu, now), forks := d.forks[k := ForksOf(d, k) + [f]],
                     outPdus := e.outPdus, outPayloads := e.outPayloads)
    ensures Accounted(d, e, cid, from, now, k == cid, false)
  {
    RecentAdd(d.store, k, pdu, now, cid, from);
    hide Recent, Add, Accepts, Valid;
  }

  lemma RefusalTraffic(d: Dispatcher, k: Cid, pdu: Pdu, now: real, cid: Cid, from: real)
    requires Valid(d.store) && !Accepts(d.store, k, now)
    ensures Accounted(d, d.(store := Add(d.store, k, pdu, now)), cid, from, now, false, false)
  {
    RecentAdd(d.store, k, pdu, now, cid, from);
    hide Recent, Add, Accepts, Valid;
  }

  lemma RepeatTraffic(d: Dispatcher, e: Dispatcher, k: Cid, cid: Cid, from: real, now: real)
    requires e == d.(forks := e.forks, outPdus := e.outPdus, outPayloads := e.outPayloads)
    requires forall c | c in d.forks || c in e.forks :: c in d.forks && c in e.forks && |e.forks[c]| == |d.forks[c]|
    ensures Accounted(d, e, cid, from, now, false, false)
  {
  }

  lemma ResponseTraffic(d: Dispatcher, k: Cid, pdu: Pdu, now: real, keys: Keys, coins: Coins, cid: Cid, from: real)
    requires Good(d)
    ensures Accounted(d, RouteInitResponse(d, k, pdu, now, keys, coins).d, cid, from, now,
                      k == cid && Spawns(d, k, pdu, now), false)
  {
    hide Update, Recent, Add, Accepts, Good, RecordSent, Fork, Accounted;
    GoodHasValid(d);
    var e := RouteInitResponse(d, k, pdu, now, keys, coins).d;
    if k !in d.templates || MatchingFork(ForksOf(d, k), pdu) < |ForksOf(d, k)| {
      RepeatTraffic(d, e, k, cid, from, now);
    } else if !Accepts(d.store, k, now) {
      RefusalTraffic(d, k, pdu, now, cid, from);
    } else {
      assert Fork(d.templates[k]).Ok? by { GoodForksAt(d, k); ForkedSession(d.templates[k], k, d.config); }
      var v := Deliver(d.(store := Add(d.store, k, pdu, now)), Fork(d.templates[k]).value, pdu, now, keys, coins, k);
      var after := v.d.(forks := v.d.forks[k := ForksOf(d, k) + [v.s]]);
      SpawnTraffic(d, after, k, pdu, now, v.s, cid, from);
      RecordResponse(d, after, k, pdu, v.s.lastSent, cid, from, now, k == cid);
    }
  }

  lemma RecordResponse(d: Dispatcher, e: Dispatcher, k: Cid, pdu: Pdu, sent: Option<Pdu>, cid: Cid, from: real,
                       now: real, spawned: bool)
    requires Accounted(d, e, cid, from, now, spawned, false)
    ensures Accounted(d, e.(store := RecordSent(e.store, k, pdu, sent)), cid, from, now, spawned, false)
  {
    RecordingKeeps(e.store, k, pdu, sent);
    RecentRecorded(e.store, RecordSent(e.store, k, pdu, sent), cid, from);
    hide Recent, RecordSent;
  }

  /** A response makes at most one fork, and does so exactly when it spawns one. */
  lemma OneForkPerResponse(d: Dispatcher, k: Cid, pdu: Pdu, now: real, keys: Keys, coins: Coins)
    requires Good(d) && k in d.templates
    ensures |ForksOf(RouteInitResponse(d, k, pdu, now, keys, coins).d, k)|
         == |ForksOf(d, k)| + if Spawns(d, k, pdu, now) then 1 else 0
  {
    hide Update, Add, Accepts, Good, RecordSent, Fork;
    GoodHasValid(d);
    GoodForksAt(d, k);
    ForkedSession(d.templates[k], k, d.config);
  }

  lemma {:induction false} FeedKeepsLength(fs: seq<Session>, from: nat, pdu: Pdu, now: real, keys: Keys, coins: Coins)
    requires from <= |fs|
    ensures |FeedForks(fs, from, pdu, now, keys, coins).sessions| == |fs|
    decreases |fs| - from
  {
    hide Update;
    if from < |fs| {
      FeedKeepsLength(fs[from := Update(PostPdu(fs[from], pdu), now, keys, coins).next], from + 1, pdu, now, keys,
                      coins);
    }
  }

  lemma PromotionTraffic(d: Dispatcher, e: Dispatcher, k: Cid, winner: Session, cid: Cid, from: real, now: real)
    requires e == d.(forks := e.forks, outPdus := e.outPdus, outPayloads := e.outPayloads)
             && e.forks.Keys == d.forks.Keys
    requires forall c <- d.forks | c != k :: e.forks[c] == d.forks[c]
    ensures Accounted(d, Promote(e, k, winner), cid, from, now, false, false)
  {
    RecentDiscard(e.store, k, cid, from);
    DiscardLookup(e.store, k);
    hide Recent;
  }

  lemma ForkTraffic(d: Dispatcher, k: Cid, pdu: Pdu, now: real, keys: Keys, coins: Coins, cid: Cid, from: real)
    ensures Accounted(d, RouteToForks(d, k, pdu, now, keys, coins).d, cid, from, now, false, false)
  {
    hide FeedForks, Accounted, Promote;
    if k !in d.forks {
      RepeatTraffic(d, d, k, cid, from, now);
    } else {
      FeedKeepsLength(d.forks[k], 0, pdu, now, keys, coins);
      var f := FeedForks(d.forks[k], 0, pdu, now, keys, coins);
      var after := d.(forks := d.forks[k := f.sessions]);
      if f.escaped || f.winner.None? {
        RepeatTraffic(d, after, k, cid, from, now);
      } else {
        var s := f.winner.value;
        PromotionTraffic(d, Collect(after, s, k), k, Emptied(s), cid, from, now);
      }
    }
  }

  lemma ArrivalAccounts(d: Dispatcher, pdu: Pdu, now: real, keys: Keys, coins: Coins, cid: Cid, from: real)
    requires Good(d)
    ensures var e := Arrives(pdu, now, keys, coins);
            Accounted(d, After(d, e), cid, from, now, SpawnsFork(d, e, cid), Engages(d, e, cid))
  {
    hide RouteInitRequest, RouteInitResponse, RouteToForks, DeliverToResponder, Recent, Good, Deliver, Spawns;
    if pdu.Pdu? && pdu.cid !in d.established {
      var k := pdu.cid;
      if pdu.payload.SessionInitRequest? {
        RequestTraffic(d, k, pdu, now, keys, coins, cid, from);
      } else if pdu.payload.SessionInitResponse? {
        ResponseTraffic(d, k, pdu, now, keys, coins, cid, from);
      } else if k in d.responders {
        ResponderTraffic(d, k, pdu, now, keys, coins, cid, from, false);
      } else {
        ForkTraffic(d, k, pdu, now, keys, coins, cid, from);
      }
    } else {
      EstablishedTraffic(d, pdu, now, keys, coins, cid, from);
    }
  }

  lemma EstablishedTraffic(d: Dispatcher, pdu: Pdu, now: real, keys: Keys, coins: Coins, cid: Cid, from: real)
    requires pdu.Malformed? || pdu.cid in d.established
    ensures Accounted(d, PostPduTo(d, pdu, now, keys, coins).d, cid, from, now, false, false)
  {
    hide Update, Recent, RouteInitRequest, RouteInitResponse, RouteToForks, DeliverToResponder;
  }

  // ---- what any event does ------------------------------------------------------------------------------------

  /** Only arrivals and cranks look at the clock. */
  function TimeOf(e: Event, otherwise: real): real {
    match e
    case Arrives(_, now, _, _) => now
    case Cranks(_, now, _, _) => now
    case _ => otherwise
  }

  lemma CrankingStore(t: Turn, u: Turn, now: real)
    requires Cranking(t, u, now)
    ensures SameLimits(t.d.store, u.d.store) && u.d.responders.Keys <= t.d.responders.Keys
            && u.d.templates.Keys <= t.d.templates.Keys
    ensures forall k <- u.d.forks :: k in t.d.forks && |u.d.forks[k]| <= |t.d.forks[k]|
    ensures forall k <- u.d.templates | k in u.d.responders || k !in t.d.responders ::
              CandidatesFor(u.d.store, k) == CandidatesFor(t.d.store, k)
    ensures forall k :: CandidatesFor(u.d.store, k) in [CandidatesFor(t.d.store, k), []]
    ensures forall k <- t.d.responders | k !in u.d.responders :: CandidatesFor(u.d.store, k) == []
  {
    hide Good, StillThere, Backed;
  }

  lemma CrankAccounts(d: Dispatcher, orders: Orders, now: real, keys: Keys, coins: Coins, cid: Cid, from: real)
    requires Good(d) && GoodOrders(d, orders, now, keys, coins)
    ensures Accounted(d, CrankAll(d, orders, now, keys, coins).d, cid, from, now, false, false)
  {
    hide Good, CrankAll, GoodOrders, StillThere, Backed, Cranking, Expire, Recent, Reconcile;
    CrankAllKeeps(d, orders, now, keys, coins);
    RefreshedKeeps(d, now);
    GoodHasValid(d);
    var t, u := Turn(Refreshed(d, now), Never, false), CrankAll(d, orders, now, keys, coins);
    CrankingStore(t, u, now);
    if now < from + d.store.ttl {
      SweepKeepsRecent(d.store, now, cid, from);
    }
  }

  /** A handshake of one's own begins under a fresh cid and leaves the store alone. */
  lemma StartAccounts(d: Dispatcher, e: Event, cid: Cid, from: real, now: real)
    requires Good(d) && Possible(d, e) && e.Starts?
    ensures Accounted(d, After(d, e), cid, from, now, false, false)
  {
    hide Recent, Initiate;
    GoodHasValid(d);
  }

  /** Other events leave the store alone, and every table of pending cids its keys and lengths. */
  lemma QuietEventAccounts(d: Dispatcher, e: Event, cid: Cid, from: real, now: real)
    requires Good(d) && !e.Arrives? && !e.Cranks? && !e.Starts?
    ensures Accounted(d, After(d, e), cid, from, now, false, false)
  {
    hide Recent, Good, PostPayload;
  }

  lemma EventAccounts(d: Dispatcher, e: Event, cid: Cid, from: real)
    requires Good(d) && Possible(d, e)
    ensures Accounted(d, After(d, e), cid, from, TimeOf(e, from), SpawnsFork(d, e, cid), Engages(d, e, cid))
  {
    hide Accounted, Good, PostPduTo, CrankAll, RoleDisjoint;
    match e
    case Arrives(pdu, now, keys, coins) => ArrivalAccounts(d, pdu, now, keys, coins, cid, from);
    case Cranks(orders, now, keys, coins) => CrankAccounts(d, orders, now, keys, coins, cid, from);
    case Starts(_, _, _, _, _, _) => StartAccounts(d, e, cid, from, from);
    case _ => QuietEventAccounts(d, e, cid, from, from);
  }

  // ---- bounds over whole runs -----------------------------------------------------------------------------------

  lemma LimitsStep(d: Dispatcher, e: Event)
    requires Good(d) && Possible(d, e)
    ensures SameLimits(d.store, After(d, e).store)
  {
    hide Good, After;
    EventAccounts(d, e, [], 0.0);
  }

  lemma {:induction false} LimitsStay(d: Dispatcher, es: seq<Event>)
    requires Good(d) && PossibleRun(d, es)
    ensures Good(Final(d, es)) && SameLimits(d.store, Final(d, es).store)
    decreases |es|
  {
    hide Good, After, Possible;
    if es != [] {
      StepKeeps(d, es[0]);
      LimitsStep(d, es[0]);
      LimitsStay(After(d, es[0]), es[1..]);
    }
  }

  /** In every run of a new dispatcher, the cids pending right after an update(), in whichever role, are
      at most max_total; and counted once for each role they are in, no more than that but for those in
      both. */
  lemma PendingAtMostMaxTotal(config: Config, maxPerCid: int, maxTotal: int, ttl: real, es: seq<Event>, crank: Event)
    requires NewStore(maxPerCid, maxTotal, ttl).Some?
    requires var d := NewDispatcher(config, NewStore(maxPerCid, maxTotal, ttl).value);
             PossibleRun(d, es) && crank.Cranks? && Possible(Final(d, es), crank)
    ensures var d := NewDispatcher(config, NewStore(maxPerCid, maxTotal, ttl).value);
            var e := After(Final(d, es), crank);
            && |e.responders.Keys + e.forks.Keys| <= maxTotal
            && |e.responders| + |e.forks| <= maxTotal + |e.responders.Keys * e.forks.Keys|
  {
    hide Good, CrankAll, GoodOrders, PossibleRun, Final;
    NewIsGood(config, maxPerCid, maxTotal, ttl);
    var d := NewDispatcher(config, NewStore(maxPerCid, maxTotal, ttl).value);
    LimitsStay(d, es);
    UpdateBound(Final(d, es), crank.orders, crank.now, crank.keys, crank.coins);
  }

  lemma RoleStep(d: Dispatcher, e: Event)
    requires Good(d) && Possible(d, e) && RoleDisjoint(d) && OneRole(d, e)
    ensures RoleDisjoint(After(d, e))
  {
    hide Good, After;
    forall cid | cid in After(d, e).responders ensures cid !in After(d, e).templates {
      EventAccounts(d, e, cid, 0.0);
    }
  }

  /** No cid is ever pending in both roles, and the overlap above is empty, when no request arrives under
      a cid being initiated. */
  lemma {:induction false} RolesStayDisjoint(d: Dispatcher, es: seq<Event>)
    requires Good(d) && RoleDisjoint(d) && PossibleRun(d, es) && OneRoleRun(d, es)
    ensures RoleDisjoint(Final(d, es)) && Final(d, es).responders.Keys * Final(d, es).forks.Keys == {}
    decreases |es|
  {
    hide Good, After, Possible, OneRole;
    if es != [] {
      StepKeeps(d, es[0]);
      RoleStep(d, es[0]);
      RolesStayDisjoint(After(d, es[0]), es[1..]);
    } else {
      GoodHasValid(d);
    }
  }

  ghost function SpawnedIn(d: Dispatcher, es: seq<Event>, cid: Cid): nat
    decreases |es|
  {
    if es == [] then 0
    else (if SpawnsFork(d, es[0], cid) then 1 else 0) + SpawnedIn(After(d, es[0]), es[1..], cid)
  }

  /** How often a responder under the cid, there before or made for a request, has been given up. */
  ghost function GoneIn(d: Dispatcher, es: seq<Event>, cid: Cid): nat
    decreases |es|
  {
    if es == [] then 0
    else (if Gone(d, After(d, es[0]), cid, Engages(d, es[0], cid)) then 1 else 0)
         + GoneIn(After(d, es[0]), es[1..], cid)
  }

  ghost predicate StaysPending(d: Dispatcher, es: seq<Event>, cid: Cid)
    decreases |es|
  {
    cid in d.templates && (es == [] || StaysPending(After(d, es[0]), es[1..], cid))
  }

  predicate InWindow(es: seq<Event>, from: real, ttl: real) {
    forall e <- es :: from <= TimeOf(e, from) < from + ttl
  }

  lemma RecentAtMostCap(d: Dispatcher, cid: Cid, from: real)
    requires Good(d)
    ensures RecentOf(d.store, cid, from) <= d.store.maxPerCid
  {
    PerCidCap(d.store, cid);
    RecentIsShorter(CandidatesFor(d.store, cid), from);
  }

  /** Each responder given up lets through one less than the cap, its own candidate having taken the
      place of one, unless it was there from the start. */
  ghost function Allowance(d: Dispatcher, cid: Cid, gone: nat): int {
    d.store.maxPerCid + gone * (d.store.maxPerCid - 1) + if gone > 0 && cid in d.responders then 1 else 0
  }

  lemma OneMoreGone(cap: int, n: nat)
    ensures cap + (n + 1) * (cap - 1) == cap + n * (cap - 1) + (cap - 1)
  {
  }

  /** While a cid stays pending as initiator, the forks spawned for it within one time to live are at
      most max_per_cid, and as many again but one for each time that a responder under the same cid, with
      which it shares its candidates, has been given up meanwhile. Its list of forks has grown by no
      more. */
  lemma {:induction false} SpawnsPerWindow(d: Dispatcher, es: seq<Event>, cid: Cid, from: real)
    requires Good(d) && PossibleRun(d, es) && StaysPending(d, es, cid) && InWindow(es, from, d.store.ttl)
    ensures RecentOf(d.store, cid, from) + SpawnedIn(d, es, cid) <= Allowance(d, cid, GoneIn(d, es, cid))
    ensures |ForksOf(Final(d, es), cid)| <= |ForksOf(d, cid)| + SpawnedIn(d, es, cid)
    decreases |es|
  {
    hide Good, After, Possible, SpawnsFork, Recent, Engages;
    RecentAtMostCap(d, cid, from);
    if es != [] {
      assert es[0] in es && forall e <- es[1..] :: e in es;
      StepKeeps(d, es[0]);
      EventAccounts(d, es[0], cid, from);
      SpawnsPerWindow(After(d, es[0]), es[1..], cid, from);
      OneMoreGone(d.store.maxPerCid, GoneIn(After(d, es[0]), es[1..], cid));
    }
  }

  /** Whatever requests come under the cid, the store refuses them. */
  ghost predicate NeverEngaged(d: Dispatcher, es: seq<Event>, cid: Cid)
    decreases |es|
  {
    es == [] || (!Engages(d, es[0], cid) && NeverEngaged(After(d, es[0]), es[1..], cid))
  }

  /** Where no responder is under the cid, and none is asked for or the store refuses all that ask, none
      is given up: the forks spawned within one time to live are at most max_per_cid. */
  lemma {:induction false} NoResponderNoneGone(d: Dispatcher, es: seq<Event>, cid: Cid)
    requires Good(d) && PossibleRun(d, es) && cid !in d.responders
    requires NeverEngaged(d, es, cid) || forall e <- es :: !Asks(e, cid)
    ensures GoneIn(d, es, cid) == 0
    decreases |es|
  {
    hide Good, After, Possible, Asks;
    if es != [] {
      assert es[0] in es && forall e <- es[1..] :: e in es;
      StepKeeps(d, es[0]);
      EventAccounts(d, es[0], cid, 0.0);
      NoResponderNoneGone(After(d, es[0]), es[1..], cid);
    }
  }
}
