/** The dispatcher as a value: four dicts and a store keyed by cid, and what each operation does to them.
    Sessions in the tables are values; iteration over a dict takes its order as an argument. */
module DispatcherModel {
  import opened Base
  import opened Crypto
  import opened SessionModel
  import opened Candidates

  datatype Dispatcher = Dispatcher(
    config: Config,
    established: map<Cid, Session>,
    responders: map<Cid, Session>,
    templates: map<Cid, Session>,
    forks: map<Cid, seq<Session>>,
    store: Store,
    outPdus: seq<Pdu>,
    outPayloads: seq<(Cid, Bytes)>)

  function NewDispatcher(config: Config, store: Store): Dispatcher {
    Dispatcher(config, map[], map[], map[], map[], store, [], [])
  }

  /** What one operation leaves behind, and whether an exception passed through it. */
  datatype Outcome = Outcome(d: Dispatcher, escaped: bool)

  /** The dispatcher catches these two; anything else passes through. */
  predicate Caught(e: Error) {
    e == HandshakeFailed || e == UnexpectedPdu
  }

  predicate EscapesFrom(r: CrankResult) {
    r.Raised? && !Caught(r.error)
  }

  // ---- bookkeeping -------------------------------------------------------------------------------------

  function Tagged(cid: Cid, payloads: seq<Bytes>): seq<(Cid, Bytes)> {
    seq(|payloads|, i requires 0 <= i < |payloads| => (cid, payloads[i]))
  }

  function Emptied(s: Session): Session {
    s.(outPdus := [], outPayloads := [])
  }

  /** Moves a session's output into the dispatcher's own queues. */
  function Collect(d: Dispatcher, s: Session, cid: Cid): Dispatcher {
    d.(outPdus := d.outPdus + s.outPdus, outPayloads := d.outPayloads + Tagged(cid, s.outPayloads))
  }

  datatype Delivery = Delivery(d: Dispatcher, s: Session, escaped: bool)

  /** Posts, cranks and drains one session; an exception that passes through skips the draining. */
  function Deliver(d: Dispatcher, s: Session, pdu: Pdu, now: real, keys: Keys, coins: Coins, cid: Cid): Delivery {
    var c := Update(PostPdu(s, pdu), now, keys, coins);
    if EscapesFrom(c.result) then Delivery(d, c.next, true)
    else Delivery(Collect(d, c.next, cid), Emptied(c.next), false)
  }

  /** A confirmed session takes over its cid: every sibling and candidate goes at once. */
  function Promote(d: Dispatcher, cid: Cid, winner: Session): Dispatcher {
    d.(established := d.established[cid := winner], responders := d.responders - {cid},
       forks := d.forks - {cid}, templates := d.templates - {cid}, store := Discard(d.store, cid))
  }

  function DropResponder(d: Dispatcher, cid: Cid): Dispatcher {
    d.(responders := d.responders - {cid}, store := Discard(d.store, cid))
  }

  function ReapResponder(d: Dispatcher, cid: Cid): Dispatcher {
    if cid !in d.responders then d
    else
      var s := d.responders[cid];
      if s.state == Established then Promote(Collect(d, s, cid), cid, Emptied(s))
      else if s.state == Dropped then DropResponder(d, cid)
      else d
  }

  /** Notes what was sent on the first candidate entry of a cid. */
  function RecordFirstSent(store: Store, cid: Cid, sent: Option<Pdu>): Store {
    var cs := CandidatesFor(store, cid);
    if cs == [] then store else store.(byCid := store.byCid[cid := cs[0 := cs[0].(sent := sent)]])
  }

  function Noted(cs: seq<Candidate>, received: Pdu, sent: Option<Pdu>): seq<Candidate> {
    seq(|cs|, i requires 0 <= i < |cs| => if cs[i].received == received then cs[i].(sent := sent) else cs[i])
  }

  /** Notes what was sent on the candidate entries of a cid that were made for a PDU. */
  function RecordSent(store: Store, cid: Cid, received: Pdu, sent: Option<Pdu>): Store {
    if cid !in store.byCid then store
    else store.(byCid := store.byCid[cid := Noted(store.byCid[cid], received, sent)])
  }

  // ---- routing ---------------------------------------------------------------------------------------------

  function DeliverToResponder(d: Dispatcher, cid: Cid, pdu: Pdu, now: real, keys: Keys, coins: Coins): Outcome
    requires cid in d.responders
  {
    var v := Deliver(d, d.responders[cid], pdu, now, keys, coins, cid);
    var after := v.d.(responders := v.d.responders[cid := v.s]);
    if v.escaped then Outcome(after, true) else Outcome(ReapResponder(after, cid), false)
  }

  ghost function RouteInitRequest(d: Dispatcher, cid: Cid, pdu: Pdu, now: real, keys: Keys, coins: Coins): Outcome {
    if cid in d.responders then DeliverToResponder(d, cid, pdu, now, keys, coins)
    else
      var noted := d.(store := Add(d.store, cid, pdu, now));
      if !Accepts(d.store, cid, now) then Outcome(noted, false)
      else
        var v := Deliver(noted, New(Responder, None, d.config), pdu, now, keys, coins, cid);
        var after := v.d.(responders := v.d.responders[cid := v.s]);
        if v.escaped then Outcome(after, true)
        else if v.s.state == Initial then Outcome(DropResponder(after, cid), false)
        else
          var recorded := if v.s.state == ExpectCompletionRequest
                          then after.(store := RecordFirstSent(after.store, cid, v.s.lastSent)) else after;
          Outcome(ReapResponder(recorded, cid), false)
  }

  /** The first fork that accepted exactly these octets, if any. */
  function MatchingFork(fs: seq<Session>, pdu: Pdu): (i: nat)
    ensures i <= |fs|
    ensures i < |fs| ==> fs[i].lastReceived == Some(pdu)
    ensures forall j | 0 <= j < i :: fs[j].lastReceived != Some(pdu)
  {
    if fs == [] then 0
    else if fs[0].lastReceived == Some(pdu) then 0
    else
      var k := MatchingFork(fs[1..], pdu);
      assert forall j | 1 <= j < k + 1 :: fs[j] == fs[1..][j - 1];
      k + 1
  }

  function ForksOf(d: Dispatcher, cid: Cid): seq<Session> {
    if cid in d.forks then d.forks[cid] else []
  }

  /** Whether an incoming response makes a new fork. */
  ghost predicate Spawns(d: Dispatcher, cid: Cid, pdu: Pdu, now: real) {
    && cid in d.templates && MatchingFork(ForksOf(d, cid), pdu) == |ForksOf(d, cid)|
    && Accepts(d.store, cid, now)
  }

  ghost function RouteInitResponse(d: Dispatcher, cid: Cid, pdu: Pdu, now: real, keys: Keys, coins: Coins): Outcome {
    if cid !in d.templates then Outcome(d, false)
    else
      var fs := ForksOf(d, cid);
      var i := MatchingFork(fs, pdu);
      if i < |fs| then
        var v := Deliver(d, fs[i], pdu, now, keys, coins, cid);
        Outcome(v.d.(forks := v.d.forks[cid := fs[i := v.s]]), v.escaped)
      else
        var noted := d.(store := Add(d.store, cid, pdu, now));
        if !Accepts(d.store, cid, now) then Outcome(noted, false)
        else match Fork(d.templates[cid])
          case Err(_) => Outcome(noted, true)
          case Ok(twin) =>
            var v := Deliver(noted, twin, pdu, now, keys, coins, cid);
            var after := v.d.(forks := v.d.forks[cid := fs + [v.s]]);
            if v.escaped then Outcome(after, true)
            else Outcome(after.(store := RecordSent(after.store, cid, pdu, v.s.lastSent)), false)
  }

  datatype Fed = Fed(sessions: seq<Session>, winner: Option<Session>, escaped: bool)

  /** Offers a PDU to each fork in turn until one is established; the forks are not drained. */
  function FeedForks(fs: seq<Session>, from: nat, pdu: Pdu, now: real, keys: Keys, coins: Coins): Fed
    requires from <= |fs|
    decreases |fs| - from
  {
    if from == |fs| then Fed(fs, None, false)
    else
      var c := Update(PostPdu(fs[from], pdu), now, keys, coins);
      var fs' := fs[from := c.next];
      if EscapesFrom(c.result) then Fed(fs', None, true)
      else if c.result.Returned? && c.next.state == Established then Fed(fs', Some(c.next), false)
      else FeedForks(fs', from + 1, pdu, now, keys, coins)
  }

  function RouteToForks(d: Dispatcher, cid: Cid, pdu: Pdu, now: real, keys: Keys, coins: Coins): Outcome {
    if cid !in d.forks then Outcome(d, false)
    else
      var f := FeedForks(d.forks[cid], 0, pdu, now, keys, coins);
      var after := d.(forks := d.forks[cid := f.sessions]);
      if f.escaped then Outcome(after, true)
      else match f.winner
        case None => Outcome(after, false)
        case Some(s) => Outcome(Promote(Collect(after, s, cid), cid, Emptied(s)), false)
  }

  ghost function PostPduTo(d: Dispatcher, pdu: Pdu, now: real, keys: Keys, coins: Coins): Outcome {
    if pdu.Malformed? then Outcome(d, false)
    else
      var cid := pdu.cid;
      if cid in d.established then
        var v := Deliver(d, d.established[cid], pdu, now, keys, coins, cid);
        Outcome(v.d.(established := v.d.established[cid := v.s]), v.escaped)
      else if pdu.payload.SessionInitRequest? then RouteInitRequest(d, cid, pdu, now, keys, coins)
      else if pdu.payload.SessionInitResponse? then RouteInitResponse(d, cid, pdu, now, keys, coins)
      else if cid in d.responders then DeliverToResponder(d, cid, pdu, now, keys, coins)
      else RouteToForks(d, cid, pdu, now, keys, coins)
  }

  // ---- other operations --------------------------------------------------------------------------------------

  /** A handshake whose first step raises leaves no trace in the dispatcher. */
  function InitiateAt(d: Dispatcher, own: KeyId, peer: KeyId, now: real, keys: Keys, cid: Cid, coins: Coins): Outcome {
    var step := Initiate(New(Initiator, Some(own), d.config), peer, now, keys, cid, coins);
    if step.error.Some? then Outcome(d, true)
    else Outcome(d.(templates := d.templates[cid := Emptied(step.next)], forks := d.forks[cid := []],
                    outPdus := d.outPdus + step.next.outPdus), false)
  }

  function PostPayloadToAll(fs: seq<Session>, payload: Bytes): seq<Session> {
    seq(|fs|, i requires 0 <= i < |fs| => PostPayload(fs[i], payload))
  }

  /** Queued on the template for every later fork, and on every fork there is. */
  function PostPayloadTo(d: Dispatcher, cid: Cid, payload: Bytes): Dispatcher {
    if cid in d.established then d.(established := d.established[cid := PostPayload(d.established[cid], payload)])
    else if cid in d.responders then d.(responders := d.responders[cid := PostPayload(d.responders[cid], payload)])
    else if cid in d.templates then
      var noted := d.(templates := d.templates[cid := PostPayload(d.templates[cid], payload)]);
      if cid in d.forks then noted.(forks := d.forks[cid := PostPayloadToAll(d.forks[cid], payload)]) else noted
    else d
  }

  function Close(d: Dispatcher, cid: Cid): Dispatcher {
    d.(established := d.established - {cid})
  }

  // ---- the crank ------------------------------------------------------------------------------------------------

  function Sooner(a: Deadline, b: Deadline): Deadline {
    if a.Never? then b else if b.Never? then a else if b.time < a.time then b else a
  }

  function Latest(r: CrankResult, soonest: Deadline): Deadline {
    if r.Returned? then Sooner(soonest, r.next) else soonest
  }

  /** A crank under way: the tables so far and the soonest deadline seen. */
  datatype Turn = Turn(d: Dispatcher, soonest: Deadline, escaped: bool)

  function Orphans(cids: set<Cid>, store: Store): set<Cid> {
    set cid | cid in cids && CandidatesFor(store, cid) == []
  }

  /** Pending cids without a live candidate are forgotten. */
  function Reconcile(d: Dispatcher): Dispatcher {
    var gone := Orphans(d.forks.Keys, d.store) - d.established.Keys;
    d.(responders := d.responders - Orphans(d.responders.Keys, d.store), forks := d.forks - gone,
       templates := d.templates - gone)
  }

  function CrankEstablished(t: Turn, cid: Cid, now: real, keys: Keys, coins: Coins): Turn {
    if t.escaped || cid !in t.d.established then t
    else
      var c := Update(t.d.established[cid], now, keys, coins);
      if EscapesFrom(c.result) then
        Turn(t.d.(established := t.d.established[cid := c.next]), t.soonest, true)
      else
        var d := Collect(t.d, c.next, cid);
        Turn(d.(established := d.established[cid := Emptied(c.next)]), Latest(c.result, t.soonest), false)
  }

  function CrankResponder(t: Turn, cid: Cid, now: real, keys: Keys, coins: Coins): Turn {
    if t.escaped || cid !in t.d.responders then t
    else
      var c := Update(t.d.responders[cid], now, keys, coins);
      if EscapesFrom(c.result) then
        Turn(t.d.(responders := t.d.responders[cid := c.next]), t.soonest, true)
      else if c.result.Raised? then Turn(DropResponder(t.d, cid), t.soonest, false)
      else
        var d := Collect(t.d, c.next, cid);
        var soonest := Latest(c.result, t.soonest);
        if c.next.state == Established then Turn(Promote(d, cid, Emptied(c.next)), soonest, false)
        else if c.next.state == Dropped then Turn(DropResponder(d, cid), soonest, false)
        else Turn(d.(responders := d.responders[cid := Emptied(c.next)]), soonest, false)
  }

  /** The forks of one cid being cranked: those cranked so far as they now are, those that stay, and
      the first found established. */
  datatype Sweep = Sweep(sessions: seq<Session>, surviving: seq<Session>, winner: Option<Session>,
                         soonest: Deadline, escaped: bool)

  function SweepForks(w: Sweep, from: nat, now: real, keys: Keys, coins: Coins): Sweep
    requires from <= |w.sessions|
    decreases |w.sessions| - from
  {
    if from == |w.sessions| then w
    else
      var c := Update(w.sessions[from], now, keys, coins);
      var cranked := w.(sessions := w.sessions[from := c.next]);
      if EscapesFrom(c.result) then cranked.(escaped := true)
      else if c.result.Raised? then SweepForks(cranked, from + 1, now, keys, coins)
      else
        var timed := cranked.(soonest := Latest(c.result, w.soonest));
        if c.next.state == Established then timed.(winner := Some(c.next))
        else if c.next.state == Dropped then SweepForks(timed, from + 1, now, keys, coins)
        else SweepForks(timed.(surviving := w.surviving + [c.next]), from + 1, now, keys, coins)
  }

  function CrankForks(t: Turn, cid: Cid, now: real, keys: Keys, coins: Coins): Turn {
    if t.escaped || cid !in t.d.forks then t
    else
      var w := SweepForks(Sweep(t.d.forks[cid], [], None, t.soonest, false), 0, now, keys, coins);
      if w.escaped then Turn(t.d.(forks := t.d.forks[cid := w.sessions]), w.soonest, true)
      else if w.winner.Some? then
        Turn(Promote(Collect(t.d, w.winner.value, cid), cid, Emptied(w.winner.value)), w.soonest, false)
      else if w.surviving != [] then Turn(t.d.(forks := t.d.forks[cid := w.surviving]), w.soonest, false)
      else Turn(t.d.(forks := t.d.forks - {cid}, templates := t.d.templates - {cid}, store := Discard(t.d.store, cid)),
                w.soonest, false)
  }

  function CrankAllEstablished(t: Turn, order: seq<Cid>, now: real, keys: Keys, coins: Coins): Turn
    decreases |order|
  {
    if order == [] then t
    else CrankAllEstablished(CrankEstablished(t, order[0], now, keys, coins), order[1..], now, keys, coins)
  }

  function CrankAllResponders(t: Turn, order: seq<Cid>, now: real, keys: Keys, coins: Coins): Turn
    decreases |order|
  {
    if order == [] then t
    else CrankAllResponders(CrankResponder(t, order[0], now, keys, coins), order[1..], now, keys, coins)
  }

  function CrankAllForks(t: Turn, order: seq<Cid>, now: real, keys: Keys, coins: Coins): Turn
    decreases |order|
  {
    if order == [] then t
    else CrankAllForks(CrankForks(t, order[0], now, keys, coins), order[1..], now, keys, coins)
  }

  /** The orders in which the three dicts are iterated. */
  datatype Orders = Orders(established: seq<Cid>, responders: seq<Cid>, forks: seq<Cid>)

  ghost predicate Lists(order: seq<Cid>, keys: set<Cid>) {
    && (forall cid <- order :: cid in keys) && (forall cid <- keys :: cid in order)
    && forall i, j | 0 <= i < j < |order| :: order[i] != order[j]
  }

  lemma Listing(keys: set<Cid>) returns (order: seq<Cid>)
    ensures Lists(order, keys)
    decreases |keys|
  {
    if keys == {} {
      order := [];
    } else {
      var cid :| cid in keys;
      var rest := Listing(keys - {cid});
      order := [cid] + rest;
    }
  }

  ghost function Refreshed(d: Dispatcher, now: real): Dispatcher {
    Reconcile(d.(store := Expire(d.store, now)))
  }

  ghost function CrankAll(d: Dispatcher, orders: Orders, now: real, keys: Keys, coins: Coins): Turn {
    var t1 := CrankAllEstablished(Turn(Refreshed(d, now), Never, false), orders.established, now, keys, coins);
    var t2 := CrankAllResponders(t1, orders.responders, now, keys, coins);
    CrankAllForks(t2, orders.forks, now, keys, coins)
  }

  /** Each order lists the keys its dict has when its loop begins. */
  ghost predicate GoodOrders(d: Dispatcher, orders: Orders, now: real, keys: Keys, coins: Coins) {
    var d0 := Refreshed(d, now);
    var t1 := CrankAllEstablished(Turn(d0, Never, false), orders.established, now, keys, coins);
    var t2 := CrankAllResponders(t1, orders.responders, now, keys, coins);
    && Lists(orders.established, d0.established.Keys)
    && Lists(orders.responders, t1.d.responders.Keys)
    && Lists(orders.forks, t2.d.forks.Keys)
  }

  /** update(): the tables it leaves and what it returns; Escaped when an exception passes through. */
  function UpdateReturns(t: Turn, now: real): CrankResult {
    if t.escaped then Raised(Escaped)
    else Returned(NextUpdateResult(t.d.outPayloads != [], t.d.outPdus != []),
                  if t.soonest.Never? then At(now + t.d.config.retryInterval) else t.soonest)
  }
}
