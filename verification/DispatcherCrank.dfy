/** update(): what the crank keeps, what it returns, and how much it leaves pending. */
module DispatcherCrank {
  import opened Base
  import opened SessionModel
  import opened SessionFacts
  import opened Candidates
  import opened DispatcherModel
  import opened DispatcherInvariant

  // ---- deadlines ------------------------------------------------------------------------------------

  predicate NoLater(a: Deadline, b: Deadline) {
    b.Never? || (a.At? && a.time <= b.time)
  }

  predicate Covers(soonest: Deadline, s: Session, now: real) {
    NoLater(soonest, At(Due(s, now)))
  }

  predicate Future(soonest: Deadline, now: real) {
    soonest.At? ==> now < soonest.time
  }

  lemma LatestFacts(r: CrankResult, soonest: Deadline, now: real)
    ensures NoLater(Latest(r, soonest), soonest)
    ensures Latest(r, soonest) == soonest || (r.Returned? && Latest(r, soonest) == r.next)
    ensures r.Returned? ==> NoLater(Latest(r, soonest), r.next)
    ensures Future(soonest, now) && (r.Returned? ==> Future(r.next, now)) ==> Future(Latest(r, soonest), now)
  {
  }

  // ---- tables that only lose entries -------------------------------------------------------------------

  /** No cid is pending in both roles. */
  predicate RoleDisjoint(d: Dispatcher) {
    d.responders.Keys !! d.templates.Keys
  }

  /** Every pending cid has a candidate that has not expired. */
  ghost predicate Backed(d: Dispatcher) {
    forall cid | Pending(d, cid) :: CandidatesFor(d.store, cid) != []
  }

  predicate SameLimits(s: Store, t: Store) {
    t.maxPerCid == s.maxPerCid && t.maxTotal == s.maxTotal && t.ttl == s.ttl
  }

  /** What one crank under way has kept since it began. */
  ghost predicate Cranking(t: Turn, u: Turn, now: real) {
    && Good(u.d) && StillThere(t.d, u.d, {}) && u.d.established.Keys == t.d.established.Keys
    && u.d.config == t.d.config
    && u.d.responders.Keys <= t.d.responders.Keys && u.d.templates.Keys <= t.d.templates.Keys
    && (forall k <- u.d.forks :: k in t.d.forks && |u.d.forks[k]| <= |t.d.forks[k]|)
    && NoLater(u.soonest, t.soonest)
    && (t.d.config.retryInterval > 0.0 && Future(t.soonest, now) ==> Future(u.soonest, now))
    && SameLimits(t.d.store, u.d.store)
    && (forall k <- u.d.templates | k in u.d.responders || k !in t.d.responders ::
          CandidatesFor(u.d.store, k) == CandidatesFor(t.d.store, k))
    && (forall k :: CandidatesFor(u.d.store, k) in [CandidatesFor(t.d.store, k), []])
    && (forall k <- t.d.responders | k !in u.d.responders :: CandidatesFor(u.d.store, k) == [])
  }

  lemma CrankingRefl(t: Turn, now: real)
    requires Good(t.d)
    ensures Cranking(t, t, now)
  {
    hide Good;
  }

  lemma CrankingTrans(t: Turn, u: Turn, v: Turn, now: real)
    requires Cranking(t, u, now) && Cranking(u, v, now)
    ensures Cranking(t, v, now)
  {
    hide Good, StillThere, Backed;
    StillThereTrans(t.d, u.d, v.d, {});
  }

  // ---- established sessions ------------------------------------------------------------------------------

  lemma CrankEstablishedKeeps(t: Turn, cid: Cid, now: real, keys: Keys, coins: Coins)
    requires Good(t.d)
    ensures var u := CrankEstablished(t, cid, now, keys, coins);
            && Cranking(t, u, now)
            && u.d.responders == t.d.responders && u.d.forks == t.d.forks && u.d.templates == t.d.templates
            && (forall k <- t.d.established :: k != cid ==> u.d.established[k] == t.d.established[k])
            && (u.escaped <==> t.escaped || (cid in t.d.established && Exhausted(t.d.established[cid])))
            && (!u.escaped && cid in t.d.established ==>
                  u.soonest == Sooner(t.soonest, At(now + t.d.config.retryInterval)))
  {
    hide Update, Good, StillThere;
    CrankingRefl(t, now);
    if !t.escaped && cid in t.d.established {
      GoodEstablished(t.d, cid);
      var s := t.d.established[cid];
      var c := Update(s, now, keys, coins);
      assert WithInput(s, []) == s;
      CrankConfirmed(s, cid, t.d.config, [], now, keys, coins);
      QuietConfirmedRaises(s, cid, t.d.config, now, keys, coins);
      LatestFacts(c.result, t.soonest, now);
      if EscapesFrom(c.result) {
        PutEstablishedKeeps(t.d, cid, c.next);
      } else {
        var queued := Collect(t.d, c.next, cid);
        SameTablesKeeps(t.d, queued);
        PutEstablishedKeeps(queued, cid, Emptied(c.next));
        StillThereTrans(t.d, queued, queued.(established := queued.established[cid := Emptied(c.next)]), {});
      }
    }
  }

  predicate Distinct(order: seq<Cid>) {
    forall i, j | 0 <= i < j < |order| :: order[i] != order[j]
  }

  ghost predicate SomeExhausted(m: map<Cid, Session>, order: seq<Cid>) {
    exists cid <- order :: cid in m && Exhausted(m[cid])
  }

  lemma {:induction false} CrankAllEstablishedKeeps(t: Turn, order: seq<Cid>, now: real, keys: Keys, coins: Coins)
    requires Good(t.d) && Distinct(order)
    ensures var u := CrankAllEstablished(t, order, now, keys, coins);
            && Cranking(t, u, now)
            && u.d.responders == t.d.responders && u.d.forks == t.d.forks && u.d.templates == t.d.templates
            && (u.escaped <==> t.escaped || SomeExhausted(t.d.established, order))
            && (!u.escaped && (forall cid <- order :: cid in t.d.established) ==>
                  u.soonest == if order == [] then t.soonest else Sooner(t.soonest, At(now + t.d.config.retryInterval)))
    decreases |order|
  {
    hide CrankEstablished, Cranking, Good, Exhausted;
    if order == [] {
      CrankingRefl(t, now);
    } else {
      var u := CrankEstablished(t, order[0], now, keys, coins);
      CrankEstablishedKeeps(t, order[0], now, keys, coins);
      CrankingGood(t, u, now);
      CrankAllEstablishedKeeps(u, order[1..], now, keys, coins);
      var v := CrankAllEstablished(u, order[1..], now, keys, coins);
      CrankingTrans(t, u, v, now);
      assert order[0] in order && order[0] !in order[1..];
      assert forall k <- order[1..] :: k in order && k != order[0];
      assert SomeExhausted(t.d.established, order) <==>
             (order[0] in t.d.established && Exhausted(t.d.established[order[0]]))
             || SomeExhausted(u.d.established, order[1..]);
      assert !v.escaped ==> !u.escaped;
    }
  }

  lemma CrankingGood(t: Turn, u: Turn, now: real)
    requires Cranking(t, u, now)
    ensures Good(u.d) && u.d.established.Keys == t.d.established.Keys && NoLater(u.soonest, t.soonest)
            && u.d.config == t.d.config
  {
    hide Good;
  }

  // ---- responders ----------------------------------------------------------------------------------------

  /** Both roles share one list of candidates per cid: dropping a responder leaves every pending cid
      backed if and only if the dispatcher is not itself initiating under the same cid. */
  lemma DropBacked(d: Dispatcher, cid: Cid)
    requires Backed(d) && cid in d.responders
    ensures Backed(DropResponder(d, cid)) <==> cid !in d.templates
  {
    DiscardLookup(d.store, cid);
    if cid in d.templates {
      assert Pending(DropResponder(d, cid), cid);
    }
  }

  /** The soonest time is that of one of these sessions. */
  ghost predicate Attained(soonest: Deadline, m: map<Cid, Session>, order: seq<Cid>, now: real) {
    exists cid <- order :: cid in m && soonest == At(Due(m[cid], now))
  }

  /** No later than before and, where that lies ahead, not past. */
  predicate InTime(soonest: Deadline, t: Turn, now: real) {
    NoLater(soonest, t.soonest) && (t.d.config.retryInterval > 0.0 && Future(t.soonest, now) ==> Future(soonest, now))
  }

  lemma CrankingDropsResponder(t: Turn, queued: Dispatcher, cid: Cid, soonest: Deadline, now: real)
    requires Good(t.d) && SameTables(t.d, queued) && InTime(soonest, t, now) && cid in t.d.responders
    ensures Cranking(t, Turn(DropResponder(queued, cid), soonest, false), now)
  {
    hide Good, StillThere;
    SameTablesKeeps(t.d, queued);
    DropResponderKeeps(queued, cid);
    StillThereTrans(t.d, queued, DropResponder(queued, cid), {});
    DiscardLookup(queued.store, cid);
  }

  lemma CrankingPutsResponder(t: Turn, queued: Dispatcher, cid: Cid, s: Session, soonest: Deadline, now: real)
    requires Good(t.d) && SameTables(t.d, queued) && InTime(soonest, t, now)
    requires cid in t.d.responders && cid !in t.d.established && Answering(s, cid, t.d.config)
    ensures Cranking(t, Turn(queued.(responders := queued.responders[cid := s]), soonest, false), now)
  {
    hide Good, StillThere, Answering;
    SameTablesKeeps(t.d, queued);
    PutResponderKeeps(queued, cid, s);
    StillThereTrans(t.d, queued, queued.(responders := queued.responders[cid := s]), {});
  }

  /** Between calls no responder has anything to read, so the crank only keeps or drops it. */
  lemma CrankResponderKeeps(t: Turn, cid: Cid, now: real, keys: Keys, coins: Coins)
    requires Good(t.d)
    ensures var u := CrankResponder(t, cid, now, keys, coins);
            && Cranking(t, u, now)
            && u.escaped == t.escaped && u.d.forks == t.d.forks && u.d.templates == t.d.templates
            && u.d.responders - {cid} == t.d.responders - {cid}
            && (!t.escaped && cid in u.d.responders ==> Covers(u.soonest, u.d.responders[cid], now))
            && (u.soonest == t.soonest || Attained(u.soonest, u.d.responders, [cid], now))
  {
    hide Update, Good, Cranking;
    CrankingRefl(t, now);
    if !t.escaped && cid in t.d.responders {
      GoodResponder(t.d, cid);
      var s := t.d.responders[cid];
      var c := Update(s, now, keys, coins);
      assert WithInput(s, []) == s;
      CrankAnswering(s, cid, t.d.config, [], now, keys, coins);
      LatestFacts(c.result, t.soonest, now);
      var queued := Collect(t.d, c.next, cid);
      if c.next.state == Dropped {
        CrankingDropsResponder(t, queued, cid, Latest(c.result, t.soonest), now);
      } else {
        CrankingPutsResponder(t, queued, cid, Emptied(c.next), Latest(c.result, t.soonest), now);
      }
    }
  }

  ghost predicate CoversAll(soonest: Deadline, m: map<Cid, Session>, but: seq<Cid>, now: real) {
    forall cid <- m :: cid in but || Covers(soonest, m[cid], now)
  }

  lemma {:induction false} AttainedLater(soonest: Deadline, m: map<Cid, Session>, n: map<Cid, Session>,
                                         a: Cid, order: seq<Cid>, now: real)
    requires a !in order && forall k | k !in order && k in m :: k in n && n[k] == m[k]
    ensures Attained(soonest, m, [a], now) || Attained(soonest, n, order, now) ==>
              Attained(soonest, n, [a] + order, now)
  {
    if Attained(soonest, m, [a], now) {
      assert a in m && a in [a] + order;
    } else if Attained(soonest, n, order, now) {
      var k :| k in order && k in n && soonest == At(Due(n[k], now));
      assert k in [a] + order;
    }
  }

  lemma {:induction false} CrankAllRespondersKeeps(t: Turn, order: seq<Cid>, now: real, keys: Keys, coins: Coins)
    requires Good(t.d) && Distinct(order)
    ensures var u := CrankAllResponders(t, order, now, keys, coins);
            && Cranking(t, u, now)
            && u.escaped == t.escaped && u.d.forks == t.d.forks && u.d.templates == t.d.templates
            && (forall k <- t.d.responders :: k !in order ==>
                  k in u.d.responders && u.d.responders[k] == t.d.responders[k])
            && (!t.escaped && CoversAll(t.soonest, t.d.responders, order, now) ==>
                  CoversAll(u.soonest, u.d.responders, [], now))
            && (u.soonest == t.soonest || Attained(u.soonest, u.d.responders, order, now))
    decreases |order|
  {
    hide CrankResponder, Cranking, Good;
    if order == [] {
      CrankingRefl(t, now);
    } else {
      var u := CrankResponder(t, order[0], now, keys, coins);
      CrankResponderKeeps(t, order[0], now, keys, coins);
      CrankingGood(t, u, now);
      CrankAllRespondersKeeps(u, order[1..], now, keys, coins);
      var v := CrankAllResponders(u, order[1..], now, keys, coins);
      CrankingTrans(t, u, v, now);
      assert order == [order[0]] + order[1..] && order[0] !in order[1..];
      if !t.escaped && CoversAll(t.soonest, t.d.responders, order, now) {
        forall cid | cid in u.d.responders ensures cid in order[1..] || Covers(u.soonest, u.d.responders[cid], now) {
          assert cid != order[0] ==> cid in (t.d.responders - {order[0]}) && t.d.responders[cid] == u.d.responders[cid];
        }
      }
      forall k | k in t.d.responders && k !in order
        ensures k in v.d.responders && v.d.responders[k] == t.d.responders[k]
      {
        assert k in (t.d.responders - {order[0]});
      }
      AttainedLater(v.soonest, u.d.responders, v.d.responders, order[0], order[1..], now);
    }
  }

  lemma CrankingShrinks(t: Turn, u: Turn, now: real)
    requires Cranking(t, u, now)
    ensures u.d.responders.Keys <= t.d.responders.Keys && u.d.templates.Keys <= t.d.templates.Keys
  {
    hide Good, StillThere, Backed;
  }

  // ---- forks -----------------------------------------------------------------------------------------------

  lemma ReplaceFork(a: seq<Session>, x: Session, y: Session, b: seq<Session>, cid: Cid, config: Config)
    requires GoodForks(a + [x] + b, cid, config) && Competing(y, cid, config) && y.lastReceived == x.lastReceived
    ensures GoodForks(a + [y] + b, cid, config) && GoodForks(a + b, cid, config)
  {
    hide Competing;
    var before, after, without := a + [x] + b, a + [y] + b, a + b;
    forall f | f in after ensures Competing(f, cid, config) {
      assert f in before || f == y;
    }
    forall f | f in without ensures Competing(f, cid, config) {
      assert f in before;
    }
    assert forall i | 0 <= i < |after| :: after[i].lastReceived == before[i].lastReceived;
    assert forall i | 0 <= i < |without| :: without[i] == before[if i < |a| then i else i + 1];
  }

  predicate AllLive(fs: seq<Session>, soonest: Deadline, now: real) {
    forall f <- fs :: f.state != Dropped && Covers(soonest, f, now)
  }

  predicate OneIsDue(fs: seq<Session>, soonest: Deadline, now: real) {
    exists f <- fs :: soonest == At(Due(f, now))
  }

  /** Between calls no fork has anything to read, so the sweep finds no winner; it keeps the forks
      that have not given up. */
  lemma {:induction false} SweepKeeps(w: Sweep, from: nat, cid: Cid, config: Config, now: real, keys: Keys,
                                      coins: Coins)
    requires from <= |w.sessions| && GoodForks(w.surviving + w.sessions[from..], cid, config)
    requires w.winner.None? && !w.escaped
    ensures var v := SweepForks(w, from, now, keys, coins);
            && !v.escaped && v.winner.None? && GoodForks(v.surviving, cid, config)
            && |v.surviving| <= |w.surviving| + |w.sessions| - from
            && NoLater(v.soonest, w.soonest)
            && (config.retryInterval > 0.0 && Future(w.soonest, now) ==> Future(v.soonest, now))
            && (AllLive(w.surviving, w.soonest, now) ==> AllLive(v.surviving, v.soonest, now))
            && w.surviving <= v.surviving
            && (v.soonest == w.soonest || OneIsDue(v.surviving, v.soonest, now))
    decreases |w.sessions| - from
  {
    hide Update, GoodForks, Competing, Confirmed, OneIsDue, AllLive, Covers, Due;
    if from == |w.sessions| {
      assert w.surviving + w.sessions[from..] == w.surviving;
    } else {
      var s := w.sessions[from];
      var rest := w.sessions[from + 1..];
      assert w.surviving + w.sessions[from..] == w.surviving + [s] + rest;
      GoodForkAt(w.surviving + [s] + rest, |w.surviving|, cid, config);
      var c := Update(s, now, keys, coins);
      CrankQuietFork(s, cid, config, now, keys, coins);
      LatestFacts(c.result, w.soonest, now);
      ReplaceFork(w.surviving, s, c.next, rest, cid, config);
      assert w.sessions[from := c.next][from + 1..] == rest;
      var soonest := Latest(c.result, w.soonest);
      var timed := w.(sessions := w.sessions[from := c.next], soonest := soonest);
      if c.next.state == Dropped {
        SweepKeeps(timed, from + 1, cid, config, now, keys, coins);
        SoonerTrans(SweepForks(timed, from + 1, now, keys, coins).soonest, soonest, w.soonest);
      } else {
        var next := timed.(surviving := w.surviving + [c.next]);
        SweepKeeps(next, from + 1, cid, config, now, keys, coins);
        var v := SweepForks(next, from + 1, now, keys, coins);
        SoonerTrans(v.soonest, soonest, w.soonest);
        OneMoreFork(w.surviving, c.next, w.soonest, soonest, now);
        assert v.soonest == soonest == At(Due(c.next, now)) ==> OneIsDue(v.surviving, v.soonest, now) by {
          ForkIsDue(v.surviving, |w.surviving|, now);
        }
      }
    }
  }

  lemma CrankQuietFork(s: Session, cid: Cid, config: Config, now: real, keys: Keys, coins: Coins)
    requires Competing(s, cid, config)
    ensures var c := Update(s, now, keys, coins);
            && c.result.Returned? && c.next.state != Established && Competing(c.next, cid, config)
            && c.next.lastReceived == s.lastReceived
            && (c.next.state == Dropped ==> c.result.next.Never?)
            && (c.next.state != Dropped ==>
                  c.result.next == At(Due(c.next, now)) && (config.retryInterval > 0.0 ==> now < Due(c.next, now)))
  {
    hide Update, Confirmed;
    assert WithInput(s, []) == s;
    CrankCompeting(s, cid, config, [], now, keys, coins);
  }

  lemma SoonerTrans(a: Deadline, b: Deadline, c: Deadline)
    requires NoLater(a, b) && NoLater(b, c)
    ensures NoLater(a, c)
  {
  }

  lemma ForkIsDue(fs: seq<Session>, i: nat, now: real)
    requires i < |fs|
    ensures OneIsDue(fs, At(Due(fs[i], now)), now)
  {
    assert fs[i] in fs;
  }

  lemma OneMoreFork(fs: seq<Session>, f: Session, before: Deadline, soonest: Deadline, now: real)
    requires NoLater(soonest, before) && NoLater(soonest, At(Due(f, now))) && f.state != Dropped
    ensures AllLive(fs, before, now) ==> AllLive(fs, soonest, now) && AllLive(fs + [f], soonest, now)
  {
  }

  lemma GoodForkAt(fs: seq<Session>, i: nat, cid: Cid, config: Config)
    requires GoodForks(fs, cid, config) && i < |fs|
    ensures Competing(fs[i], cid, config)
  {
  }

  function DropForks(d: Dispatcher, cid: Cid): Dispatcher {
    d.(forks := d.forks - {cid}, templates := d.templates - {cid}, store := Discard(d.store, cid))
  }

  lemma DropForksKeeps(d: Dispatcher, cid: Cid)
    requires Good(d)
    ensures Good(DropForks(d, cid)) && StillThere(d, DropForks(d, cid), {})
    ensures forall k | k != cid :: CandidatesFor(DropForks(d, cid).store, k) == CandidatesFor(d.store, k)
  {
    hide Confirmed, Answering, Waiting, GoodForks, Valid;
    DiscardKeepsValid(d.store, cid);
    DiscardLookup(d.store, cid);
  }

  ghost predicate ForksCovered(u: Turn, cid: Cid, now: real) {
    cid in u.d.forks ==> AllLive(u.d.forks[cid], u.soonest, now)
  }

  ghost predicate ForkAttained(soonest: Deadline, m: map<Cid, seq<Session>>, order: seq<Cid>, now: real) {
    exists cid <- order :: cid in m && OneIsDue(m[cid], soonest, now)
  }

  lemma {:induction false} ForkAttainedLater(soonest: Deadline, m: map<Cid, seq<Session>>, n: map<Cid, seq<Session>>,
                                             a: Cid, order: seq<Cid>, now: real)
    requires a !in order && forall k | k !in order && k in m :: k in n && n[k] == m[k]
    ensures ForkAttained(soonest, m, [a], now) || ForkAttained(soonest, n, order, now)
            ==> ForkAttained(soonest, n, [a] + order, now)
  {
    if ForkAttained(soonest, m, [a], now) {
      assert a in m && a in [a] + order;
    } else if ForkAttained(soonest, n, order, now) {
      var k :| k in order && k in n && OneIsDue(n[k], soonest, now);
      assert k in [a] + order;
    }
  }

  lemma CrankingPutsForks(t: Turn, cid: Cid, fs: seq<Session>, soonest: Deadline, now: real)
    requires Good(t.d) && InTime(soonest, t, now)
    requires cid in t.d.forks && GoodForks(fs, cid, t.d.config) && |fs| <= |t.d.forks[cid]|
    ensures Cranking(t, Turn(t.d.(forks := t.d.forks[cid := fs]), soonest, false), now)
  {
    hide Good, StillThere, GoodForks;
    PutForksKeeps(t.d, cid, fs);
  }

  lemma CrankingDropsForks(t: Turn, cid: Cid, soonest: Deadline, now: real)
    requires Good(t.d) && InTime(soonest, t, now) && cid in t.d.forks
    ensures Cranking(t, Turn(DropForks(t.d, cid), soonest, false), now)
  {
    hide Good, StillThere;
    SameKeys(t.d);
    DropForksKeeps(t.d, cid);
    DiscardLookup(t.d.store, cid);
  }

  lemma NoForksLeft(soonest: Deadline, now: real)
    ensures AllLive([], soonest, now) && !OneIsDue([], soonest, now)
  {
  }

  lemma CrankForksKeeps(t: Turn, cid: Cid, now: real, keys: Keys, coins: Coins)
    requires Good(t.d)
    ensures var u := CrankForks(t, cid, now, keys, coins);
            && Cranking(t, u, now)
            && u.escaped == t.escaped && u.d.responders == t.d.responders
            && u.d.forks - {cid} == t.d.forks - {cid}
            && (!t.escaped ==> ForksCovered(u, cid, now))
            && (u.soonest == t.soonest || ForkAttained(u.soonest, u.d.forks, [cid], now))
  {
    hide SweepForks, Good, Cranking, GoodForks, OneIsDue, AllLive;
    CrankingRefl(t, now);
    if !t.escaped && cid in t.d.forks {
      GoodForksAt(t.d, cid);
      var w := Sweep(t.d.forks[cid], [], None, t.soonest, false);
      assert [] + t.d.forks[cid][0..] == t.d.forks[cid];
      NoForksLeft(t.soonest, now);
      SweepKeeps(w, 0, cid, t.d.config, now, keys, coins);
      var v := SweepForks(w, 0, now, keys, coins);
      NoForksLeft(v.soonest, now);
      if v.surviving != [] {
        CrankingPutsForks(t, cid, v.surviving, v.soonest, now);
      } else {
        CrankingDropsForks(t, cid, v.soonest, now);
      }
    }
  }

  ghost predicate AllForksCovered(u: Turn, but: seq<Cid>, now: real) {
    forall cid <- u.d.forks :: cid in but || AllLive(u.d.forks[cid], u.soonest, now)
  }

  lemma StillLive(fs: seq<Session>, a: Deadline, b: Deadline, now: real)
    requires AllLive(fs, b, now) && NoLater(a, b)
    ensures AllLive(fs, a, now)
  {
  }

  lemma {:induction false} CrankAllForksKeeps(t: Turn, order: seq<Cid>, now: real, keys: Keys, coins: Coins)
    requires Good(t.d) && Distinct(order)
    ensures var u := CrankAllForks(t, order, now, keys, coins);
            && Cranking(t, u, now)
            && u.escaped == t.escaped && u.d.responders == t.d.responders
            && (forall k <- t.d.forks :: k !in order ==> k in u.d.forks && u.d.forks[k] == t.d.forks[k])
            && (!t.escaped && AllForksCovered(t, order, now) ==> AllForksCovered(u, [], now))
            && (u.soonest == t.soonest || ForkAttained(u.soonest, u.d.forks, order, now))
    decreases |order|
  {
    hide CrankForks, Cranking, Good, AllLive, OneIsDue;
    if order == [] {
      CrankingRefl(t, now);
    } else {
      var u := CrankForks(t, order[0], now, keys, coins);
      CrankForksKeeps(t, order[0], now, keys, coins);
      CrankingGood(t, u, now);
      CrankAllForksKeeps(u, order[1..], now, keys, coins);
      var v := CrankAllForks(u, order[1..], now, keys, coins);
      CrankingTrans(t, u, v, now);
      assert order == [order[0]] + order[1..] && order[0] !in order[1..];
      if !t.escaped && AllForksCovered(t, order, now) {
        forall cid | cid in u.d.forks ensures cid in order[1..] || AllLive(u.d.forks[cid], u.soonest, now) {
          assert cid != order[0] ==> cid in (t.d.forks - {order[0]}) && t.d.forks[cid] == u.d.forks[cid];
          if cid != order[0] && cid !in order[1..] {
            StillLive(u.d.forks[cid], u.soonest, t.soonest, now);
          }
        }
      }
      forall k | k in t.d.forks && k !in order ensures k in v.d.forks && v.d.forks[k] == t.d.forks[k] {
        assert k in (t.d.forks - {order[0]});
      }
      ForkAttainedLater(v.soonest, u.d.forks, v.d.forks, order[0], order[1..], now);
    }
  }

  // ---- the whole crank ----------------------------------------------------------------------------------------

  lemma RefreshedKeeps(d: Dispatcher, now: real)
    requires Good(d)
    ensures var e := Refreshed(d, now);
            && Good(e) && StillThere(d, e, {}) && Backed(e) && SameLimits(d.store, e.store)
            && e.established == d.established && e.config == d.config && e.store == Expire(d.store, now)
            && e.responders.Keys <= d.responders.Keys && e.templates.Keys <= d.templates.Keys
            && (forall k <- e.forks :: k in d.forks && e.forks[k] == d.forks[k])
            && forall k <- d.responders | k !in e.responders :: CandidatesFor(e.store, k) == []
  {
    var store := Expire(d.store, now);
    ExpireKeepsValid(d.store, now);
    forall k | CandidatesFor(store, k) != [] ensures Pending(d, k) {
      SweptLookup(d.store, now, k);
    }
    var swept := d.(store := store);
    PutStoreKeeps(d, store);
    hide Valid, Confirmed, Answering, Waiting, GoodForks, Expire;
    ReconcileKeeps(swept);
    StillThereTrans(d, swept, Reconcile(swept), {});
  }

  lemma ReconcileKeeps(d: Dispatcher)
    requires Good(d)
    ensures var e := Reconcile(d); Good(e) && StillThere(d, e, {}) && Backed(e)
  {
    hide Valid, Confirmed, Answering, Waiting, GoodForks;
  }

  lemma CrankAllKeeps(d: Dispatcher, orders: Orders, now: real, keys: Keys, coins: Coins)
    requires Good(d) && GoodOrders(d, orders, now, keys, coins)
    ensures var t, u := Turn(Refreshed(d, now), Never, false), CrankAll(d, orders, now, keys, coins);
            && Good(t.d) && StillThere(d, t.d, {}) && Backed(t.d) && Cranking(t, u, now)
            && (u.escaped <==> SomeExhausted(d.established, orders.established))
  {
    hide Good, Cranking, Reconcile, CrankAllEstablished, CrankAllResponders, CrankAllForks, Exhausted, Backed,
         CoversAll, AllForksCovered, Attained, ForkAttained;
    RefreshedKeeps(d, now);
    var t := Turn(Refreshed(d, now), Never, false);
    var t1 := CrankAllEstablished(t, orders.established, now, keys, coins);
    CrankAllEstablishedKeeps(t, orders.established, now, keys, coins);
    CrankingGood(t, t1, now);
    var t2 := CrankAllResponders(t1, orders.responders, now, keys, coins);
    CrankAllRespondersKeeps(t1, orders.responders, now, keys, coins);
    CrankingGood(t1, t2, now);
    var u := CrankAllForks(t2, orders.forks, now, keys, coins);
    CrankAllForksKeeps(t2, orders.forks, now, keys, coins);
    CrankingTrans(t, t1, t2, now);
    CrankingTrans(t, t2, u, now);
  }

  lemma CrankAllEarliest(d: Dispatcher, orders: Orders, now: real, keys: Keys, coins: Coins)
    requires Good(d) && GoodOrders(d, orders, now, keys, coins)
    ensures var u := CrankAll(d, orders, now, keys, coins); !u.escaped ==> Earliest(u, now)
  {
    hide Good, Cranking, Refreshed, CrankAllEstablished, CrankAllResponders, CrankAllForks, AllLive, OneIsDue, Covers,
         Attained, ForkAttained, SomeExhausted;
    RefreshedKeeps(d, now);
    var t := Turn(Refreshed(d, now), Never, false);
    var t1 := CrankAllEstablished(t, orders.established, now, keys, coins);
    CrankAllEstablishedKeeps(t, orders.established, now, keys, coins);
    CrankingGood(t, t1, now);
    EmptyListing(orders.established, d.established);
    var t2 := CrankAllResponders(t1, orders.responders, now, keys, coins);
    CrankAllRespondersKeeps(t1, orders.responders, now, keys, coins);
    CrankingGood(t1, t2, now);
    var u := CrankAllForks(t2, orders.forks, now, keys, coins);
    CrankAllForksKeeps(t2, orders.forks, now, keys, coins);
    CrankingGood(t2, u, now);
    CoversAllLater(t2.soonest, u.soonest, u.d.responders, now);
    SomeAttained(u.soonest, u.d.responders, orders.responders, now);
    SomeForkAttained(u.soonest, u.d.forks, orders.forks, now);
    assert u.d.established == map[] <==> d.established == map[];
  }

  /** The soonest time seen by a crank that let no exception through: the interval if any session is
      established, and otherwise the time of a responder or a fork it keeps; nothing is due before it. */
  ghost predicate Earliest(u: Turn, now: real) {
    && CoversAll(u.soonest, u.d.responders, [], now) && AllForksCovered(u, [], now)
    && (u.d.established != map[] ==> NoLater(u.soonest, At(now + u.d.config.retryInterval)))
    && (u.soonest == (if u.d.established == map[] then Never else At(now + u.d.config.retryInterval))
        || (exists cid <- u.d.responders :: u.soonest == At(Due(u.d.responders[cid], now)))
        || (exists cid <- u.d.forks :: OneIsDue(u.d.forks[cid], u.soonest, now)))
  }

  lemma EmptyListing(order: seq<Cid>, m: map<Cid, Session>)
    requires Lists(order, m.Keys)
    ensures order == [] <==> m == map[]
  {
    if order != [] {
      assert order[0] in order;
    }
    if m != map[] {
      var cid :| cid in m;
      assert cid in m.Keys;
    }
  }

  lemma SomeAttained(soonest: Deadline, m: map<Cid, Session>, order: seq<Cid>, now: real)
    ensures Attained(soonest, m, order, now) ==> exists cid <- m :: soonest == At(Due(m[cid], now))
  {
  }

  lemma SomeForkAttained(soonest: Deadline, m: map<Cid, seq<Session>>, order: seq<Cid>, now: real)
    ensures ForkAttained(soonest, m, order, now) ==> exists cid <- m :: OneIsDue(m[cid], soonest, now)
  {
  }

  lemma CoversAllLater(a: Deadline, b: Deadline, m: map<Cid, Session>, now: real)
    ensures NoLater(b, a) && CoversAll(a, m, [], now) ==> CoversAll(b, m, [], now)
  {
  }

  /** update() lets an exception through if and only if some established session has a payload
      waiting and no sequence number left to send it with. */
  lemma UpdateRaises(d: Dispatcher, orders: Orders, now: real, keys: Keys, coins: Coins)
    requires Good(d) && GoodOrders(d, orders, now, keys, coins)
    ensures UpdateReturns(CrankAll(d, orders, now, keys, coins), now).Raised? <==>
            exists cid <- d.established :: Exhausted(d.established[cid])
  {
    hide Good, CrankAll, Exhausted;
    CrankAllKeeps(d, orders, now, keys, coins);
    assert forall cid :: cid in orders.established <==> cid in d.established by {
      hide CrankAllEstablished, CrankAllResponders, CrankAllForks;
      RefreshedKeeps(d, now);
    }
  }

  ghost predicate Keeps(d: Dispatcher, s: Session) {
    || (exists cid <- d.established :: s == d.established[cid])
    || (exists cid <- d.responders :: s == d.responders[cid])
    || (exists cid <- d.forks :: s in d.forks[cid])
  }

  /** The time update() returns is the earliest at which any session or fork it keeps is due, none of
      which has given up, and one interval away if it keeps none. */
  lemma UpdateDeadline(d: Dispatcher, orders: Orders, now: real, keys: Keys, coins: Coins)
    requires Good(d) && GoodOrders(d, orders, now, keys, coins)
    ensures var u := CrankAll(d, orders, now, keys, coins); var r := UpdateReturns(u, now);
            r.Returned? ==>
              && r.next.At?
              && (forall s | Keeps(u.d, s) :: s.state != Dropped && r.next.time <= Due(s, now))
              && (if exists s :: Keeps(u.d, s) then exists s :: Keeps(u.d, s) && r.next.time == Due(s, now)
                  else r.next.time == now + d.config.retryInterval)
              && (d.config.retryInterval > 0.0 ==> now < r.next.time)
  {
    hide Good, CrankAll, GoodOrders, Earliest, Keeps;
    CrankAllKeeps(d, orders, now, keys, coins);
    CrankAllEarliest(d, orders, now, keys, coins);
    var t, u := Turn(Refreshed(d, now), Never, false), CrankAll(d, orders, now, keys, coins);
    RefreshedKeeps(d, now);
    CrankingFuture(t, u, now);
    CrankingGood(t, u, now);
    if !u.escaped {
      EarliestOfKept(u, now);
    }
  }

  lemma EarliestOfKept(u: Turn, now: real)
    requires Good(u.d) && Earliest(u, now)
    ensures forall s | Keeps(u.d, s) :: s.state != Dropped && NoLater(u.soonest, At(Due(s, now)))
    ensures u.soonest.Never? ==> forall s :: !Keeps(u.d, s)
    ensures u.soonest.At? ==> exists s :: Keeps(u.d, s) && u.soonest == At(Due(s, now))
  {
    hide Good, Coherent;
    forall s | Keeps(u.d, s) ensures s.state != Dropped && NoLater(u.soonest, At(Due(s, now))) {
      if cid :| cid in u.d.established && s == u.d.established[cid] {
        EstablishedDue(u.d, cid, now);
      } else if cid :| cid in u.d.responders && s == u.d.responders[cid] {
        GoodResponder(u.d, cid);
        assert Covers(u.soonest, s, now);
      }
    }
    if u.soonest.At? {
      if u.d.established != map[] && u.soonest == At(now + u.d.config.retryInterval) {
        var cid :| cid in u.d.established;
        EstablishedDue(u.d, cid, now);
        assert Keeps(u.d, u.d.established[cid]);
      } else if cid :| cid in u.d.responders && u.soonest == At(Due(u.d.responders[cid], now)) {
        assert Keeps(u.d, u.d.responders[cid]);
      } else {
        var cid :| cid in u.d.forks && OneIsDue(u.d.forks[cid], u.soonest, now);
        var f :| f in u.d.forks[cid] && u.soonest == At(Due(f, now));
        assert Keeps(u.d, f);
      }
    }
  }

  lemma EstablishedDue(d: Dispatcher, cid: Cid, now: real)
    requires Good(d) && cid in d.established
    ensures d.established[cid].state == Established && Due(d.established[cid], now) == now + d.config.retryInterval
  {
    hide Good;
    GoodEstablished(d, cid);
  }

  lemma CrankingFuture(t: Turn, u: Turn, now: real)
    requires Cranking(t, u, now)
    ensures t.d.config.retryInterval > 0.0 && Future(t.soonest, now) ==> Future(u.soonest, now)
    ensures u.d.config == t.d.config
  {
    hide Good, StillThere, Backed;
  }

  lemma {:induction false} UnionAndOverlap<T>(a: set<T>, b: set<T>)
    ensures |a| + |b| == |a + b| + |a * b|
  {
    assert a + b == a + (b - a) && b == (b - a) + a * b;
  }

  lemma {:induction false} SubsetIsSmaller<T>(a: set<T>, b: set<T>)
    requires a <= b
    ensures |a| <= |b|
  {
    assert b == a + (b - a);
  }

  /** Every pending cid is paid for by a candidate of its own. */
  lemma BackedBound(d: Dispatcher)
    requires Good(d) && Backed(d)
    ensures |d.responders.Keys + d.templates.Keys| <= d.store.maxTotal
  {
    var pending := d.responders.Keys + d.templates.Keys;
    forall cid | cid in pending ensures cid in d.store.byCid && d.store.byCid[cid] != [] {
      assert Pending(d, cid) && CandidatesFor(d.store, cid) != [];
    }
    KeysAtMostCount(d.store.byCid, pending);
  }

  /** Right after update(), even one that let an exception through, the cids pending in either role are
      within the global cap, and counted by role exceed it at most by those pending in both. */
  lemma UpdateBound(d: Dispatcher, orders: Orders, now: real, keys: Keys, coins: Coins)
    requires Good(d) && GoodOrders(d, orders, now, keys, coins)
    ensures var e := CrankAll(d, orders, now, keys, coins).d;
            && |e.responders.Keys + e.forks.Keys| <= d.store.maxTotal
            && |e.responders| + |e.forks| <= d.store.maxTotal + |e.responders.Keys * e.forks.Keys|
  {
    hide Good, CrankAll, GoodOrders, Backed, StillThere, Cranking;
    CrankAllKeeps(d, orders, now, keys, coins);
    RefreshedKeeps(d, now);
    var t, u := Turn(Refreshed(d, now), Never, false), CrankAll(d, orders, now, keys, coins);
    BackedBound(t.d);
    CrankingShrinks(t, u, now);
    CrankingGood(t, u, now);
    SameKeys(u.d);
    SubsetIsSmaller(u.d.responders.Keys + u.d.forks.Keys, t.d.responders.Keys + t.d.templates.Keys);
    UnionAndOverlap(u.d.responders.Keys, u.d.forks.Keys);
  }
}
