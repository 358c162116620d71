/** A dispatcher's update() can come to raise: every dispatcher with an established session can be led
    to where that session has a payload waiting and no number left. */
module DispatcherCounter {
  import opened Base
  import opened Crypto
  import opened SessionModel
  import opened SessionFacts
  import opened DispatcherModel
  import opened DispatcherInvariant
  import opened DispatcherCrank
  import opened DispatcherRuns

  const WORD: Bytes := [0]

  lemma Orderly(d: Dispatcher, now: real, keys: Keys, coins: Coins) returns (orders: Orders)
    ensures GoodOrders(d, orders, now, keys, coins)
  {
    hide CrankAllEstablished, CrankAllResponders;
    var t := Turn(Refreshed(d, now), Never, false);
    var first := Listing(t.d.established.Keys);
    var t1 := CrankAllEstablished(t, first, now, keys, coins);
    var second := Listing(t1.d.responders.Keys);
    var third := Listing(CrankAllResponders(t1, second, now, keys, coins).d.forks.Keys);
    orders := Orders(first, second, third);
  }

  /** An established session with a payload waiting and a number left sends it. */
  lemma CrankSends(s: Session, cid: Cid, config: Config, now: real, keys: Keys, coins: Coins)
    requires Confirmed(s, cid, config) && s.pending.Some? && !Exhausted(s)
    ensures SendSeq(Update(s, now, keys, coins).next) == SendSeq(s) + 1
  {
  }

  lemma {:induction false} LoopSends(t: Turn, order: seq<Cid>, cid: Cid, now: real, keys: Keys, coins: Coins)
    requires Good(t.d) && Distinct(order) && cid in order && !t.escaped && cid in t.d.established
    requires t.d.established[cid].pending.Some?
    ensures var u := CrankAllEstablished(t, order, now, keys, coins);
            !u.escaped ==> cid in u.d.established && SendSeq(u.d.established[cid]) > SendSeq(t.d.established[cid])
    decreases |order|
  {
    hide CrankEstablished, Cranking, Good, Exhausted, SameSession, Update;
    var u := CrankEstablished(t, order[0], now, keys, coins);
    CrankEstablishedKeeps(t, order[0], now, keys, coins);
    CrankingGood(t, u, now);
    var rest := order[1..];
    CrankAllEstablishedKeeps(u, rest, now, keys, coins);
    var v := CrankAllEstablished(u, rest, now, keys, coins);
    CrankingGood(u, v, now);
    if order[0] == cid {
      if !u.escaped {
        OneSends(t, cid, now, keys, coins);
        CrankingKeeps(u, v, cid, now);
      }
    } else if !u.escaped {
      assert cid in rest;
      LoopSends(u, rest, cid, now, keys, coins);
    }
  }

  lemma OneSends(t: Turn, cid: Cid, now: real, keys: Keys, coins: Coins)
    requires Good(t.d) && !t.escaped && cid in t.d.established && t.d.established[cid].pending.Some?
    ensures var u := CrankEstablished(t, cid, now, keys, coins);
            !u.escaped ==> cid in u.d.established && SendSeq(u.d.established[cid]) > SendSeq(t.d.established[cid])
  {
    hide Update, Good;
    GoodEstablished(t.d, cid);
    var s := t.d.established[cid];
    QuietConfirmedRaises(s, cid, t.d.config, now, keys, coins);
    if !Exhausted(s) {
      CrankSends(s, cid, t.d.config, now, keys, coins);
    }
  }

  lemma CrankingKeeps(t: Turn, u: Turn, cid: Cid, now: real)
    requires Cranking(t, u, now) && cid in t.d.established
    ensures cid in u.d.established && SendSeq(t.d.established[cid]) <= SendSeq(u.d.established[cid])
  {
    hide Good;
    assert cid in t.d.established.Keys - {};
  }

  /** An update() that does not raise sends what is waiting. */
  lemma UpdateSends(d: Dispatcher, cid: Cid, orders: Orders, now: real, keys: Keys, coins: Coins)
    requires Good(d) && GoodOrders(d, orders, now, keys, coins)
    requires cid in d.established && d.established[cid].pending.Some?
    ensures var u := CrankAll(d, orders, now, keys, coins);
            !u.escaped ==> cid in u.d.established && SendSeq(u.d.established[cid]) > SendSeq(d.established[cid])
  {
    hide Good, Cranking, Refreshed, CrankAllEstablished, CrankAllResponders, CrankAllForks, SomeExhausted, Exhausted,
         Earliest, Attained, ForkAttained;
    RefreshedKeeps(d, now);
    var t := Turn(Refreshed(d, now), Never, false);
    var t1 := CrankAllEstablished(t, orders.established, now, keys, coins);
    CrankAllEstablishedKeeps(t, orders.established, now, keys, coins);
    CrankingGood(t, t1, now);
    var t2 := CrankAllResponders(t1, orders.responders, now, keys, coins);
    CrankAllRespondersKeeps(t1, orders.responders, now, keys, coins);
    CrankingGood(t1, t2, now);
    var u := CrankAllForks(t2, orders.forks, now, keys, coins);
    CrankAllForksKeeps(t2, orders.forks, now, keys, coins);
    if !u.escaped {
      LoopSends(t, orders.established, cid, now, keys, coins);
      CrankingKeeps(t1, t2, cid, now);
      CrankingKeeps(t2, u, cid, now);
    }
  }

  ghost predicate RaisesNext(d: Dispatcher) {
    exists cid <- d.established :: Exhausted(d.established[cid])
  }

  lemma Submitted(d: Dispatcher, cid: Cid)
    requires Good(d) && cid in d.established
    ensures var e := After(d, Submits(cid, WORD));
            && Good(e) && cid in e.established && e.established[cid].pending.Some?
            && SendSeq(e.established[cid]) == SendSeq(d.established[cid])
  {
    hide Good;
    StepKeeps(d, Submits(cid, WORD));
  }

  /** However a dispatcher has come to have an established session, a run leads from there to where its
      next update() raises. */
  lemma {:induction false} UpdateCanComeToRaise(d: Dispatcher, cid: Cid, now: real, keys: Keys, coins: Coins)
    returns (es: seq<Event>)
    requires Good(d) && cid in d.established
    ensures PossibleRun(d, es) && Good(Final(d, es)) && RaisesNext(Final(d, es))
    decreases if SendSeq(d.established[cid]) < SEQ_LIMIT then SEQ_LIMIT - SendSeq(d.established[cid]) else 0
  {
    hide Good, CrankAll, GoodOrders;
    var submit := Submits(cid, WORD);
    Submitted(d, cid);
    var e := After(d, submit);
    if Exhausted(e.established[cid]) || RaisesNext(e) {
      es := [submit];
      assert Final(d, [submit]) == Final(e, []) && PossibleRun(e, []);
    } else {
      var orders := Orderly(e, now, keys, coins);
      var crank := Cranks(orders, now, keys, coins);
      UpdateSends(e, cid, orders, now, keys, coins);
      UpdateRaises(e, orders, now, keys, coins);
      CrankKeeps(e, orders, now, keys, coins);
      var f := After(e, crank);
      var rest := UpdateCanComeToRaise(f, cid, now, keys, coins);
      es := [submit, crank] + rest;
      assert es[1..] == [crank] + rest && ([crank] + rest)[1..] == rest;
      assert PossibleRun(e, [crank] + rest) && Final(e, [crank] + rest) == Final(f, rest);
    }
  }
}
