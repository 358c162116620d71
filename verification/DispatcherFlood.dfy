/** How far the list of candidates that both roles share lets the forks of one cid run: the bound of
    DispatcherRuns.SpawnsPerWindow is reached, for any limits and any number of rounds. */
module DispatcherFlood {
  import opened Base
  import opened Crypto
  import opened SessionModel
  import opened Candidates
  import opened DispatcherModel
  import opened DispatcherInvariant
  import opened DispatcherCrank
  import opened OneCid
  import opened DispatcherRuns

  const CONFIG := Config(2, 5.0, 60.0, 768, [Aes256Gcm])
  const CID: Cid := [9]
  const OWN := KeyId([1], [1])
  const PEER := KeyId([1], [2])
  const KEYS := Keys(map[PEER := PublicKey([2], 768)], map[OWN := [1]])
  const COINS := Coins([3], [4], [5], [6])

  /** A response that names no AEAD: a fork refuses it and stays. */
  const RESPONSE := Pdu(0, CID,
                        SessionInitResponse(PublicKey([], 768), OpaqueCiphertext([]), OpaqueCiphertext([]), [], []))

  /** A request from a sender nobody knows, to a key nobody holds: the new responder stays initial. */
  const REQUEST := Pdu(0, CID,
                       SessionInitRequest(OpaqueCiphertext([]), KeyId([], []), PublicKey([], 768), KeyId([], []), []))

  const START := Starts(OWN, PEER, 0.0, KEYS, CID, COINS)

  const TEMPLATE := Emptied(Initiate(New(Initiator, Some(OWN), CONFIG), PEER, 0.0, KEYS, CID, COINS).next)

  function At0(pdu: Pdu): Event {
    Arrives(pdu, 0.0, KEYS, COINS)
  }

  // ---- the dispatcher, at one moment ------------------------------------------------------------------

  /** Only the one cid is pending, as initiator, with k candidates and n forks that have accepted
      nothing. */
  ghost predicate Held(d: Dispatcher, k: nat, n: nat) {
    && Holds(d.store, CID, k, 0.0) && d.store.ttl > 0.0 && d.config == CONFIG && d.established == map[]
    && d.responders == map[]
    && d.templates == map[CID := TEMPLATE] && d.forks.Keys == {CID} && |d.forks[CID]| == n
    && forall f <- d.forks[CID] :: f.lastReceived.None?
  }

  lemma TemplateForks()
    ensures Fork(TEMPLATE).Ok? && TEMPLATE.state == ExpectInitResponse
    ensures var c := Update(PostPdu(Fork(TEMPLATE).value, RESPONSE), 0.0, KEYS, COINS);
            c.result == Raised(HandshakeFailed) && c.next.lastReceived.None? && Emptied(c.next) == c.next
  {
  }

  lemma HeldWithFork(d: Dispatcher, e: Dispatcher, k: nat, n: nat, f: Session)
    requires Held(d, k, n) && Holds(e.store, CID, k + 1, 0.0) && SameLimits(d.store, e.store) && f.lastReceived.None?
    requires e == d.(store := e.store, forks := d.forks[CID := d.forks[CID] + [f]], outPdus := e.outPdus,
                     outPayloads := e.outPayloads)
    ensures Held(e, k + 1, n + 1)
  {
    hide Holds;
  }

  lemma ResponseSpawns(d: Dispatcher, k: nat, n: nat)
    requires Held(d, k, n) && k < d.store.maxPerCid
    ensures var e := After(d, At0(RESPONSE));
            Held(e, k + 1, n + 1) && SameLimits(d.store, e.store)
    ensures SpawnsFork(d, At0(RESPONSE), CID)
  {
    hide Update, Holds, Add, Accepts, RecordSent, Fork, TEMPLATE, RouteInitRequest, RouteToForks, DeliverToResponder,
         SameButSent;
    TemplateForks();
    HeldSurvives(d.store, CID, k, 0.0, 0.0);
    AddHolds(d.store, CID, k, RESPONSE, 0.0, 0.0);
    var noted := d.(store := Add(d.store, CID, RESPONSE, 0.0));
    var v := Deliver(noted, Fork(TEMPLATE).value, RESPONSE, 0.0, KEYS, COINS, CID);
    RecordingKeeps(noted.store, CID, RESPONSE, v.s.lastSent);
    RecordingHolds(noted.store, RecordSent(noted.store, CID, RESPONSE, v.s.lastSent), CID, k + 1, 0.0);
    assert After(d, At0(RESPONSE)) == RouteInitResponse(d, CID, RESPONSE, 0.0, KEYS, COINS).d;
    assert MatchingFork(d.forks[CID], RESPONSE) == n;
    hide Held;
    HeldWithFork(d, After(d, At0(RESPONSE)), k, n, v.s);
  }

  lemma StrangerIsRefused()
    ensures var c := Update(PostPdu(New(Responder, None, CONFIG), REQUEST), 0.0, KEYS, COINS);
            c.result == Raised(HandshakeFailed) && c.next.state == Initial && Emptied(c.next) == c.next
  {
  }

  lemma RequestClears(d: Dispatcher, k: nat, n: nat)
    requires Held(d, k, n) && k < d.store.maxPerCid
    ensures var e := After(d, At0(REQUEST));
            Held(e, 0, n) && SameLimits(d.store, e.store)
            && Gone(d, e, CID, Engages(d, At0(REQUEST), CID))
  {
    hide Update, Holds, Add, Accepts, Discard, TEMPLATE;
    StrangerIsRefused();
    HeldSurvives(d.store, CID, k, 0.0, 0.0);
    AddHolds(d.store, CID, k, REQUEST, 0.0, 0.0);
    DiscardHolds(Add(d.store, CID, REQUEST, 0.0), CID, k + 1, 0.0, 0.0);
  }

  /** The failing call: a request that comes to nothing leaves the initiation under its cid without the
      candidate that its fork was paid for with. */
  lemma RequestUnbacks(d: Dispatcher, k: nat, n: nat)
    requires Held(d, k, n) && 0 < k < d.store.maxPerCid
    ensures Backed(d) && !Backed(After(d, At0(REQUEST)))
  {
    hide After, TEMPLATE, REQUEST;
    RequestClears(d, k, n);
    assert Pending(After(d, At0(REQUEST)), CID);
  }

  // ---- the run ---------------------------------------------------------------------------------------------

  /** With k candidates held: responses up to one less than the cap and then a request, n times over,
      and responses up to the cap. */
  function Flood(cap: int, k: nat, n: nat): seq<Event>
    requires k <= cap && (n > 0 ==> k < cap)
    decreases n, cap - k
  {
    if n == 0 then if k < cap then [At0(RESPONSE)] + Flood(cap, k + 1, 0) else []
    else if k < cap - 1 then [At0(RESPONSE)] + Flood(cap, k + 1, n)
    else [At0(REQUEST)] + Flood(cap, 0, n - 1)
  }

  /** A possible run of one moment, with the cid pending throughout, that gives up so many responders and
      spawns so many forks, all of which stay. */
  ghost predicate Spawning(d: Dispatcher, es: seq<Event>, gone: nat, spawned: int) {
    && PossibleRun(d, es) && StaysPending(d, es, CID) && InWindow(es, 0.0, d.store.ttl)
    && GoneIn(d, es, CID) == gone && SpawnedIn(d, es, CID) == spawned
    && |ForksOf(Final(d, es), CID)| == |ForksOf(d, CID)| + spawned
  }

  lemma OneEventMore(d: Dispatcher, pdu: Pdu, es: seq<Event>, gone: nat, spawned: int)
    requires Spawning(After(d, At0(pdu)), es, gone, spawned)
    requires CID in d.templates && 0.0 < d.store.ttl == After(d, At0(pdu)).store.ttl
    ensures var e := At0(pdu); var next := After(d, e);
            |ForksOf(next, CID)| == |ForksOf(d, CID)| + (if SpawnsFork(d, e, CID) then 1 else 0) ==>
              Spawning(d, [e] + es, gone + (if Gone(d, next, CID, Engages(d, e, CID)) then 1 else 0),
                       spawned + (if SpawnsFork(d, e, CID) then 1 else 0))
  {
    hide After, SpawnsFork, Engages, Gone;
    assert ([At0(pdu)] + es)[1..] == es;
  }

  lemma ResponseFirst(d: Dispatcher, k: nat, n: nat, es: seq<Event>, gone: nat, spawned: int)
    requires Held(d, k, n) && k < d.store.maxPerCid && Spawning(After(d, At0(RESPONSE)), es, gone, spawned)
    ensures Spawning(d, [At0(RESPONSE)] + es, gone, spawned + 1)
  {
    hide After, Holds, SpawnsFork, Engages, TEMPLATE, RESPONSE, Spawning, Gone;
    HasTtl(d, k, n);
    ResponseSpawns(d, k, n);
    ResponseIsNoRequest(d);
    OneEventMore(d, RESPONSE, es, gone, spawned);
  }

  lemma RequestFirst(d: Dispatcher, k: nat, n: nat, es: seq<Event>, gone: nat, spawned: int)
    requires Held(d, k, n) && k < d.store.maxPerCid && Spawning(After(d, At0(REQUEST)), es, gone, spawned)
    ensures Spawning(d, [At0(REQUEST)] + es, gone + 1, spawned)
  {
    hide After, Holds, SpawnsFork, Engages, TEMPLATE, REQUEST, Spawning, Gone;
    HasTtl(d, k, n);
    RequestClears(d, k, n);
    RequestIsNoResponse(d);
    OneEventMore(d, REQUEST, es, gone, spawned);
  }

  lemma {:induction false} FloodRuns(d: Dispatcher, k: nat, n: nat, forks: nat)
    requires Held(d, k, forks) && k <= d.store.maxPerCid && (n > 0 ==> k < d.store.maxPerCid)
    ensures var cap := d.store.maxPerCid; Spawning(d, Flood(cap, k, n), n, cap + n * (cap - 1) - k)
    decreases n, d.store.maxPerCid - k
  {
    hide After, Held, SpawnsFork, Engages, RESPONSE, REQUEST, Spawning, Gone;
    var cap := d.store.maxPerCid;
    if (n == 0 && k < cap) || k < cap - 1 {
      ResponseSpawns(d, k, forks);
      FloodRuns(After(d, At0(RESPONSE)), k + 1, n, forks + 1);
      ResponseFirst(d, k, forks, Flood(cap, k + 1, n), n, cap + n * (cap - 1) - (k + 1));
    } else if n > 0 {
      RequestClears(d, k, forks);
      FloodRuns(After(d, At0(REQUEST)), 0, n - 1, forks);
      RequestFirst(d, k, forks, Flood(cap, 0, n - 1), n - 1, cap + (n - 1) * (cap - 1));
      OneMoreGone(cap, n - 1);
    } else {
      assert CID in d.templates by { HasTtl(d, k, forks); }
      NothingSpawns(d);
    }
  }

  lemma NothingSpawns(d: Dispatcher)
    requires CID in d.templates
    ensures Spawning(d, [], 0, 0)
  {
  }

  lemma HasTtl(d: Dispatcher, k: nat, n: nat)
    requires Held(d, k, n)
    ensures d.store.ttl > 0.0 && CID in d.templates
  {
  }

  lemma ResponseIsNoRequest(d: Dispatcher)
    requires d.responders == map[]
    ensures !Gone(d, After(d, At0(RESPONSE)), CID, Engages(d, At0(RESPONSE), CID))
  {
  }

  lemma RequestIsNoResponse(d: Dispatcher)
    ensures !SpawnsFork(d, At0(REQUEST), CID)
  {
  }

  lemma InitiatingHolds(store: Store)
    requires Valid(store) && store.ttl > 0.0 && store.byCid == map[]
    ensures var d := NewDispatcher(CONFIG, store); Possible(d, START) && Held(After(d, START), 0, 0)
    ensures After(NewDispatcher(CONFIG, store), START).store == store
  {
    assert OWN != PEER;
  }

  /** Whatever the limits and however many rounds: with requests that come to nothing in between, a
      dispatcher initiating under one cid spawns within one moment, and keeps, as many forks for it as
      the allowance says, and so exceeds max_per_cid. */
  lemma AllowanceIsReached(maxPerCid: int, maxTotal: int, ttl: real, n: nat)
    requires NewStore(maxPerCid, maxTotal, ttl).Some? && ttl > 0.0
    ensures var d0 := NewDispatcher(CONFIG, NewStore(maxPerCid, maxTotal, ttl).value);
            var d, es := After(d0, START), Flood(maxPerCid, 0, n);
            && PossibleRun(d0, [START] + es) && StaysPending(d, es, CID) && InWindow(es, 0.0, ttl)
            && GoneIn(d, es, CID) == n
            && SpawnedIn(d, es, CID) == Allowance(d, CID, n) == maxPerCid + n * (maxPerCid - 1)
            && |ForksOf(Final(d0, [START] + es), CID)| == SpawnedIn(d, es, CID)
  {
    hide Valid, After, Possible;
    var store := NewStore(maxPerCid, maxTotal, ttl).value;
    var d0 := NewDispatcher(CONFIG, store);
    assert Valid(store) by { NewIsGood(CONFIG, maxPerCid, maxTotal, ttl); GoodHasValid(d0); }
    InitiatingHolds(store);
    var d, es := After(d0, START), Flood(maxPerCid, 0, n);
    FloodRuns(d, 0, n, 0);
    assert ([START] + es)[1..] == es;
  }
}
