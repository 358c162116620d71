/** Bounded tracking of unauthenticated handshake candidates: caps, fixed expiry, sweeping. */
module Candidates {
  import opened Base
  import opened SessionModel

  // ---- the store as a value -----------------------------------------------------------------------

  datatype Candidate = Candidate(cid: Cid, received: Pdu, sent: Option<Pdu>, createdAt: real, expiresAt: real)

  predicate Expired(c: Candidate, now: real) {
    now >= c.expiresAt
  }

  /** The dict of lists and the running total, with the limits it was built with. */
  datatype Store = Store(maxPerCid: int, maxTotal: int, ttl: real, byCid: map<Cid, seq<Candidate>>, total: int)

  /** None is ValueError. */
  function NewStore(maxPerCid: int, maxTotal: int, ttl: real): Option<Store> {
    if maxPerCid < 1 || maxTotal < maxPerCid then None
    else Some(Store(maxPerCid, maxTotal, ttl, map[], 0))
  }

  function Lookup(m: map<Cid, seq<Candidate>>, cid: Cid): seq<Candidate> {
    if cid in m then m[cid] else []
  }

  function CandidatesFor(s: Store, cid: Cid): seq<Candidate> {
    Lookup(s.byCid, cid)
  }

  function Surviving(cs: seq<Candidate>, now: real): seq<Candidate> {
    if cs == [] then []
    else (if Expired(cs[0], now) then [] else [cs[0]]) + Surviving(cs[1..], now)
  }

  /** The number of candidates held, counted. */
  ghost function Count(m: map<Cid, seq<Candidate>>): nat {
    if m == map[] then 0
    else
      var cid :| cid in m;
      |m[cid]| + Count(m - {cid})
  }

  /** What a sweep leaves: the candidates not expired, and no entry without one. */
  function Swept(m: map<Cid, seq<Candidate>>, now: real): map<Cid, seq<Candidate>> {
    map cid | cid in m && Surviving(m[cid], now) != [] :: Surviving(m[cid], now)
  }

  ghost function Expire(s: Store, now: real): Store {
    var kept := Swept(s.byCid, now);
    s.(byCid := kept, total := s.total - (Count(s.byCid) - Count(kept)))
  }

  /** expire's return value. */
  ghost function ExpiredCount(s: Store, now: real): int {
    Count(s.byCid) - Count(Swept(s.byCid, now))
  }

  /** Dropping a whole cid, by promote or by discard. */
  function Discard(s: Store, cid: Cid): Store {
    s.(byCid := s.byCid - {cid}, total := s.total - |CandidatesFor(s, cid)|)
  }

  function NewCandidate(s: Store, cid: Cid, received: Pdu, now: real): Candidate {
    Candidate(cid, received, None, now, now + s.ttl)
  }

  /** Whether there is room, after the sweep. */
  ghost predicate Accepts(s: Store, cid: Cid, now: real) {
    var e := Expire(s, now);
    |CandidatesFor(e, cid)| < s.maxPerCid && e.total < s.maxTotal
  }

  /** A refused add has still swept, and may leave an entry with no candidate in it. */
  ghost function Add(s: Store, cid: Cid, received: Pdu, now: real): Store {
    var e := Expire(s, now);
    var existing := CandidatesFor(e, cid);
    if Accepts(s, cid, now) then
      e.(byCid := e.byCid[cid := existing + [NewCandidate(s, cid, received, now)]], total := e.total + 1)
    else e.(byCid := e.byCid[cid := existing])
  }

  // ---- counting ---------------------------------------------------------------------------------------

  lemma {:induction false} CountWithout(m: map<Cid, seq<Candidate>>, cid: Cid)
    requires cid in m
    ensures Count(m) == |m[cid]| + Count(m - {cid})
    decreases |m|
  {
    var k :| k in m && Count(m) == |m[k]| + Count(m - {k});
    if k != cid {
      CountWithout(m - {k}, cid);
      CountWithout(m - {cid}, k);
      assert m - {k} - {cid} == m - {cid} - {k};
    }
  }

  lemma CountUpdate(m: map<Cid, seq<Candidate>>, cid: Cid, cs: seq<Candidate>)
    ensures Count(m[cid := cs]) == Count(m - {cid}) + |cs|
    ensures cid in m ==> Count(m[cid := cs]) == Count(m) - |m[cid]| + |cs|
    ensures cid !in m ==> Count(m[cid := cs]) == Count(m) + |cs|
  {
    CountWithout(m[cid := cs], cid);
    assert m[cid := cs] - {cid} == m - {cid};
    if cid in m {
      CountWithout(m, cid);
    } else {
      assert m - {cid} == m;
    }
  }

  /** Keys with at least one candidate are no more than candidates. */
  lemma {:induction false} KeysAtMostCount(m: map<Cid, seq<Candidate>>, cids: set<Cid>)
    requires forall cid <- cids :: cid in m && m[cid] != []
    ensures |cids| <= Count(m)
    decreases |cids|
  {
    if cids != {} {
      var cid :| cid in cids;
      CountWithout(m, cid);
      assert |cids - {cid}| == |cids| - 1;
      KeysAtMostCount(m - {cid}, cids - {cid});
    }
  }

  lemma {:induction false} CountMonotone(m: map<Cid, seq<Candidate>>, n: map<Cid, seq<Candidate>>)
    requires m.Keys == n.Keys && forall cid <- m :: |m[cid]| <= |n[cid]|
    ensures Count(m) <= Count(n)
    decreases |m|
  {
    if m != map[] {
      var cid :| cid in m;
      CountWithout(m, cid);
      CountWithout(n, cid);
      CountMonotone(m - {cid}, n - {cid});
    } else {
      assert n == map[];
    }
  }

  /** Entries without a candidate do not count. */
  lemma {:induction false} CountIgnoresEmpty(m: map<Cid, seq<Candidate>>, n: map<Cid, seq<Candidate>>)
    requires forall cid :: Lookup(m, cid) == Lookup(n, cid)
    ensures Count(m) == Count(n)
    decreases |m|
  {
    if m != map[] {
      var cid :| cid in m;
      CountWithout(m, cid);
      var m', n' := m - {cid}, n - {cid};
      forall k ensures Lookup(m', k) == Lookup(n', k) {
        assert Lookup(m, k) == Lookup(n, k);
      }
      CountIgnoresEmpty(m', n');
      assert Lookup(m, cid) == Lookup(n, cid);
      if cid in n {
        CountWithout(n, cid);
      } else {
        assert n' == n;
      }
    } else {
      CountOfEmpties(n);
    }
  }

  lemma {:induction false} CountOfEmpties(n: map<Cid, seq<Candidate>>)
    requires forall cid :: Lookup(map[], cid) == Lookup(n, cid)
    ensures Count(n) == 0
    decreases |n|
  {
    if n != map[] {
      var cid :| cid in n;
      CountWithout(n, cid);
      var n' := n - {cid};
      forall k ensures Lookup(map[], k) == Lookup(n', k) {
        assert Lookup(map[], k) == Lookup(n, k);
      }
      assert Lookup(map[], cid) == Lookup(n, cid);
      CountOfEmpties(n');
    }
  }

  // ---- sweeping ------------------------------------------------------------------------------------------

  lemma {:induction false} SurvivingIsFilter(cs: seq<Candidate>, now: real)
    ensures |Surviving(cs, now)| <= |cs|
    ensures forall c :: c in Surviving(cs, now) <==> c in cs && !Expired(c, now)
  {
    if cs != [] {
      SurvivingIsFilter(cs[1..], now);
    }
  }

  /** Sweeping early and again later leaves what sweeping later alone would have left. */
  lemma {:induction false} SurvivingTwice(cs: seq<Candidate>, t1: real, t2: real)
    requires t1 <= t2
    ensures Surviving(Surviving(cs, t1), t2) == Surviving(cs, t2)
  {
    if cs != [] {
      SurvivingTwice(cs[1..], t1, t2);
      var rest := Surviving(cs[1..], t1);
      if Expired(cs[0], t1) {
        assert Surviving(cs, t1) == rest;
      } else {
        assert Surviving(cs, t1)[1..] == rest;
      }
    }
  }

  lemma SweptTwice(m: map<Cid, seq<Candidate>>, t1: real, t2: real)
    requires t1 <= t2
    ensures Swept(Swept(m, t1), t2) == Swept(m, t2)
  {
    forall cid | cid in m ensures Surviving(Surviving(m[cid], t1), t2) == Surviving(m[cid], t2) {
      SurvivingTwice(m[cid], t1, t2);
    }
    assert Surviving([], t2) == [];
  }

  /** expire(t1); expire(t2) gives the store and the total count that expire(t2) gives. */
  lemma ExpireTwice(s: Store, t1: real, t2: real)
    requires t1 <= t2
    ensures Expire(Expire(s, t1), t2) == Expire(s, t2)
    ensures ExpiredCount(s, t1) + ExpiredCount(Expire(s, t1), t2) == ExpiredCount(s, t2)
  {
    SweptTwice(s.byCid, t1, t2);
  }

  lemma SweptCount(m: map<Cid, seq<Candidate>>, now: real)
    ensures Count(Swept(m, now)) <= Count(m)
  {
    var n := map cid | cid in m :: Surviving(m[cid], now);
    forall cid | cid in m ensures |n[cid]| <= |m[cid]| {
      SurvivingIsFilter(m[cid], now);
    }
    hide Surviving, Count;
    CountMonotone(n, m);
    CountIgnoresEmpty(Swept(m, now), n);
  }

  lemma SweptLookup(s: Store, now: real, cid: Cid)
    ensures CandidatesFor(Expire(s, now), cid) == Surviving(CandidatesFor(s, cid), now)
  {
    assert Surviving([], now) == [];
  }

  // ---- the invariant ------------------------------------------------------------------------------------------

  /** The total is the sum of the list lengths, both caps hold, and every candidate sits under its
      own cid with the fixed time to live. */
  ghost predicate Valid(s: Store) {
    && 1 <= s.maxPerCid <= s.maxTotal
    && s.total == Count(s.byCid) <= s.maxTotal
    && forall cid <- s.byCid :: |s.byCid[cid]| <= s.maxPerCid
         && forall c <- s.byCid[cid] :: c.cid == cid && c.expiresAt == c.createdAt + s.ttl
  }

  lemma ExpireKeepsValid(s: Store, now: real)
    requires Valid(s)
    ensures Valid(Expire(s, now)) && 0 <= ExpiredCount(s, now) == s.total - Expire(s, now).total
  {
    SweptCount(s.byCid, now);
    forall cid | cid in s.byCid
      ensures |Surviving(s.byCid[cid], now)| <= |s.byCid[cid]|
      ensures forall c <- Surviving(s.byCid[cid], now) :: c in s.byCid[cid]
    {
      SurvivingIsFilter(s.byCid[cid], now);
    }
  }

  lemma DiscardKeepsValid(s: Store, cid: Cid)
    requires Valid(s)
    ensures Valid(Discard(s, cid))
  {
    if cid in s.byCid {
      CountWithout(s.byCid, cid);
    } else {
      assert s.byCid - {cid} == s.byCid;
    }
  }

  lemma AddKeepsValid(s: Store, cid: Cid, received: Pdu, now: real)
    requires Valid(s)
    ensures Valid(Add(s, cid, received, now))
    ensures Add(s, cid, received, now).total == Expire(s, now).total + if Accepts(s, cid, now) then 1 else 0
  {
    ExpireKeepsValid(s, now);
    var e := Expire(s, now);
    var existing := CandidatesFor(e, cid);
    CountUpdate(e.byCid, cid, existing);
    CountUpdate(e.byCid, cid, existing + [NewCandidate(s, cid, received, now)]);
  }

  /** A sweep takes exactly the candidates whose time to live is up. */
  lemma SweepTakesTheExpired(s: Store, now: real, cid: Cid, c: Candidate)
    requires Valid(s)
    ensures c in CandidatesFor(Expire(s, now), cid) <==> c in CandidatesFor(s, cid) && now < c.createdAt + s.ttl
  {
    SweptLookup(s, now, cid);
    SurvivingIsFilter(CandidatesFor(s, cid), now);
    hide Expire, Count, Surviving;
  }

  /** An accepted candidate comes last in the list of its cid, and is held from its creation up to, but not
      at, the end of its time to live. */
  lemma LivesItsTime(s: Store, cid: Cid, received: Pdu, at: real, now: real)
    requires Valid(s) && Accepts(s, cid, at)
    ensures var c, a := Candidate(cid, received, None, at, at + s.ttl), Add(s, cid, received, at);
            && CandidatesFor(a, cid) == CandidatesFor(Expire(s, at), cid) + [c]
            && (c in CandidatesFor(Expire(a, now), cid) <==> now < at + s.ttl)
  {
    hide Expire, Valid;
    AddKeepsValid(s, cid, received, at);
    SweepTakesTheExpired(Add(s, cid, received, at), now, cid, Candidate(cid, received, None, at, at + s.ttl));
    assert Add(s, cid, received, at).ttl == s.ttl by { SameTtl(s, cid, received, at); }
  }

  lemma SameTtl(s: Store, cid: Cid, received: Pdu, at: real)
    ensures Add(s, cid, received, at).ttl == s.ttl
  {
  }

  /** A refused add is a bare expire to every query; as a dict it is one if and only if the cid
      still has candidates after the sweep, since otherwise an empty list is left under it. */
  lemma RefusedAddIsExpire(s: Store, cid: Cid, received: Pdu, now: real)
    requires Valid(s) && !Accepts(s, cid, now)
    ensures var a, e := Add(s, cid, received, now), Expire(s, now);
            && a.total == e.total
            && (forall k :: CandidatesFor(a, k) == CandidatesFor(e, k))
            && (a == e <==> CandidatesFor(e, cid) != [])
  {
    var a, e := Add(s, cid, received, now), Expire(s, now);
    if CandidatesFor(e, cid) != [] {
      assert a.byCid == e.byCid;
    }
  }

  /** A store with one place, which a candidate of this cid takes. */
  ghost predicate TakenBy(s: Store, a: Cid, now: real) {
    && Valid(s) && s.maxTotal == 1 == s.total && |CandidatesFor(s, a)| == 1 && s.byCid.Keys == {a}
    && !Expired(CandidatesFor(s, a)[0], now)
  }

  lemma NothingCounted()
    ensures Count(map[]) == 0
  {
  }

  lemma OneTakes(empty: Store, a: Cid, pdu: Pdu, now: real)
    requires Valid(empty) && empty.byCid == map[] && empty.maxTotal == 1 && empty.ttl > 0.0
    ensures TakenBy(Add(empty, a, pdu, now), a, now)
  {
    hide Count, Surviving;
    NothingCounted();
    AddKeepsValid(empty, a, pdu, now);
    assert Swept(empty.byCid, now) == map[];
    var c := NewCandidate(empty, a, pdu, now);
    assert Lookup(map[], a) + [c] == [c];
    assert Add(empty, a, pdu, now).byCid.Keys == {a};
  }

  /** The failing call: with the one place there is taken by another cid, a refused add leaves a list
      without a candidate where a bare expire leaves none. */
  lemma RefusedAddLeavesAList(s: Store, a: Cid, b: Cid, pdu: Pdu, now: real)
    requires TakenBy(s, a, now) && a != b
    ensures !Accepts(s, b, now) && b in Add(s, b, pdu, now).byCid && Add(s, b, pdu, now).byCid[b] == []
    ensures b !in Expire(s, now).byCid
  {
    hide Count, Valid;
    OneSurvives(CandidatesFor(s, a)[0], now);
    assert s.byCid[a] == [CandidatesFor(s, a)[0]];
    assert Swept(s.byCid, now) == s.byCid;
    AddOfFull(s, b, pdu, now);
  }

  lemma OneSurvives(c: Candidate, now: real)
    requires !Expired(c, now)
    ensures Surviving([c], now) == [c]
  {
    assert [c][1..] == [];
  }

  lemma AddOfFull(s: Store, cid: Cid, pdu: Pdu, now: real)
    requires Swept(s.byCid, now) == s.byCid && s.total >= s.maxTotal
    ensures !Accepts(s, cid, now) && Add(s, cid, pdu, now).byCid == s.byCid[cid := CandidatesFor(s, cid)]
  {
  }

  // ---- whole runs ---------------------------------------------------------------------------------------------

  datatype Op =
    | AddOp(cid: Cid, received: Pdu, at: real)
    | ExpireOp(at: real)
    | DropOp(cid: Cid, at: real)  // promote or discard

  /** A store with what has happened to candidates so far. */
  datatype Ledger = Ledger(s: Store, added: nat, expired: int, dropped: nat)

  ghost function Apply(l: Ledger, op: Op): Ledger {
    match op
    case AddOp(cid, received, at) =>
      Ledger(Add(l.s, cid, received, at), l.added + (if Accepts(l.s, cid, at) then 1 else 0),
             l.expired + ExpiredCount(l.s, at), l.dropped)
    case ExpireOp(at) => l.(s := Expire(l.s, at), expired := l.expired + ExpiredCount(l.s, at))
    case DropOp(cid, _) => l.(s := Discard(l.s, cid), dropped := l.dropped + |CandidatesFor(l.s, cid)|)
  }

  ghost function ApplyAll(l: Ledger, ops: seq<Op>): Ledger
    decreases |ops|
  {
    if ops == [] then l else ApplyAll(Apply(l, ops[0]), ops[1..])
  }

  lemma ApplyKeepsAccounts(l: Ledger, op: Op)
    requires Valid(l.s)
    ensures var k := Apply(l, op);
            && Valid(k.s)
            && k.added - k.expired - k.dropped - k.s.total == l.added - l.expired - l.dropped - l.s.total
  {
    match op
    case AddOp(cid, received, at) =>
      AddKeepsValid(l.s, cid, received, at);
      ExpireKeepsValid(l.s, at);
    case ExpireOp(at) => ExpireKeepsValid(l.s, at);
    case DropOp(cid, _) => DiscardKeepsValid(l.s, cid);
  }

  /** Over any run the invariant holds and nothing is lost: what has been added is live, expired, or
      dropped. */
  lemma {:induction false} Accounting(l: Ledger, ops: seq<Op>)
    requires Valid(l.s)
    ensures var k := ApplyAll(l, ops);
            && Valid(k.s)
            && k.added - l.added == (k.s.total - l.s.total) + (k.expired - l.expired) + (k.dropped - l.dropped)
    decreases |ops|
  {
    hide Apply, Valid;
    if ops != [] {
      ApplyKeepsAccounts(l, ops[0]);
      Accounting(Apply(l, ops[0]), ops[1..]);
    }
  }

  // ---- the sliding window ----------------------------------------------------------------------------------------

  /** Every operation of a run happens in the half-open interval of one time to live. */
  predicate Within(ops: seq<Op>, from: real, ttl: real) {
    forall op <- ops :: from <= op.at < from + ttl
  }

  predicate DropsNothingOf(ops: seq<Op>, cid: Cid) {
    forall op <- ops :: op.DropOp? ==> op.cid != cid
  }

  ghost function AddsOf(s: Store, ops: seq<Op>, cid: Cid): nat
    decreases |ops|
  {
    if ops == [] then 0
    else (if ops[0].AddOp? && ops[0].cid == cid && Accepts(s, cid, ops[0].at) then 1 else 0)
         + AddsOf(Apply(Ledger(s, 0, 0, 0), ops[0]).s, ops[1..], cid)
  }

  ghost function AllAdds(s: Store, ops: seq<Op>): nat
    decreases |ops|
  {
    if ops == [] then 0
    else (if ops[0].AddOp? && Accepts(s, ops[0].cid, ops[0].at) then 1 else 0)
         + AllAdds(Apply(Ledger(s, 0, 0, 0), ops[0]).s, ops[1..])
  }

  ghost function AllDropped(s: Store, ops: seq<Op>): nat
    decreases |ops|
  {
    if ops == [] then 0
    else (if ops[0].DropOp? then |CandidatesFor(s, ops[0].cid)| else 0)
         + AllDropped(Apply(Ledger(s, 0, 0, 0), ops[0]).s, ops[1..])
  }

  /** The candidates made inside the window. */
  function Recent(cs: seq<Candidate>, from: real): seq<Candidate> {
    if cs == [] then [] else (if cs[0].createdAt >= from then [cs[0]] else []) + Recent(cs[1..], from)
  }

  lemma {:induction false} RecentAppend(cs: seq<Candidate>, c: Candidate, from: real)
    ensures Recent(cs + [c], from) == Recent(cs, from) + if c.createdAt >= from then [c] else []
  {
    if cs == [] {
      assert [] + [c] == [c];
    } else {
      RecentAppend(cs[1..], c, from);
      var head := if cs[0].createdAt >= from then [cs[0]] else [];
      assert (cs + [c])[1..] == cs[1..] + [c] && (cs + [c])[0] == cs[0];
      assert Recent(cs + [c], from) == head + Recent(cs[1..] + [c], from);
    }
  }

  /** No sweep inside the window takes a candidate made inside it. */
  lemma {:induction false} RecentSurvive(cs: seq<Candidate>, from: real, ttl: real, now: real)
    requires now < from + ttl && forall c <- cs :: c.expiresAt == c.createdAt + ttl
    ensures Recent(Surviving(cs, now), from) == Recent(cs, from)
  {
    if cs != [] {
      assert cs[0] in cs && forall c <- cs[1..] :: c in cs;
      RecentSurvive(cs[1..], from, ttl, now);
      var rest := Surviving(cs[1..], now);
      if Expired(cs[0], now) {
        assert Surviving(cs, now) == rest;
      } else {
        assert Surviving(cs, now)[1..] == rest;
      }
    }
  }

  lemma {:induction false} RecentIsShorter(cs: seq<Candidate>, from: real)
    ensures |Recent(cs, from)| <= |cs|
  {
    if cs != [] {
      RecentIsShorter(cs[1..], from);
    }
  }

  lemma RecentStep(s: Store, op: Op, cid: Cid, from: real)
    requires Valid(s) && from <= op.at < from + s.ttl && (op.DropOp? ==> op.cid != cid)
    ensures var t := Apply(Ledger(s, 0, 0, 0), op).s;
            |Recent(CandidatesFor(t, cid), from)| == |Recent(CandidatesFor(s, cid), from)|
              + (if op.AddOp? && op.cid == cid && Accepts(s, cid, op.at) then 1 else 0)
  {
    var cs := CandidatesFor(s, cid);
    if !op.DropOp? {
      RecentSurvive(cs, from, s.ttl, op.at);
      SweptLookup(s, op.at, cid);
      if op.AddOp? {
        RecentAppend(Surviving(cs, op.at), NewCandidate(s, cid, op.received, op.at), from);
      }
    }
  }

  /** In any half-open interval as long as the time to live, at most max_per_cid adds succeed for a
      cid that is not dropped inside it. */
  lemma {:induction false} WindowPerCid(s: Store, ops: seq<Op>, cid: Cid, from: real)
    requires Valid(s) && Within(ops, from, s.ttl) && DropsNothingOf(ops, cid)
    ensures |Recent(CandidatesFor(s, cid), from)| + AddsOf(s, ops, cid) <= s.maxPerCid
    decreases |ops|
  {
    hide Apply, Valid;
    if ops == [] {
      RecentIsShorter(CandidatesFor(s, cid), from);
      PerCidCap(s, cid);
    } else {
      assert ops[0] in ops && forall op <- ops[1..] :: op in ops;
      var l := Ledger(s, 0, 0, 0);
      ApplyKeepsAccounts(l, ops[0]);
      LimitsAreFixed(l, ops[0]);
      RecentStep(s, ops[0], cid, from);
      WindowPerCid(Apply(l, ops[0]).s, ops[1..], cid, from);
    }
  }

  lemma PerCidCap(s: Store, cid: Cid)
    requires Valid(s)
    ensures |CandidatesFor(s, cid)| <= s.maxPerCid
  {
  }

  lemma LimitsAreFixed(l: Ledger, op: Op)
    ensures var t := Apply(l, op).s; t.maxPerCid == l.s.maxPerCid && t.maxTotal == l.s.maxTotal && t.ttl == l.s.ttl
  {
  }

  function RecentMap(m: map<Cid, seq<Candidate>>, from: real): map<Cid, seq<Candidate>> {
    map cid | cid in m :: Recent(m[cid], from)
  }

  /** All candidates made inside the window. */
  ghost function RecentCount(s: Store, from: real): nat {
    Count(RecentMap(s.byCid, from))
  }

  lemma RecentLookup(m: map<Cid, seq<Candidate>>, from: real, cid: Cid)
    ensures Lookup(RecentMap(m, from), cid) == Recent(Lookup(m, cid), from)
  {
  }

  lemma RecentAfterSweep(s: Store, now: real, from: real)
    requires Valid(s) && now < from + s.ttl
    ensures RecentCount(Expire(s, now), from) == RecentCount(s, from)
  {
    var before, after := RecentMap(s.byCid, from), RecentMap(Expire(s, now).byCid, from);
    forall cid ensures Lookup(before, cid) == Lookup(after, cid) {
      SweepKeepsRecent(s, now, cid, from);
      RecentLookup(s.byCid, from, cid);
      RecentLookup(Expire(s, now).byCid, from, cid);
    }
    CountIgnoresEmpty(before, after);
  }

  lemma RecentAfterDiscard(s: Store, cid: Cid, from: real)
    ensures RecentCount(Discard(s, cid), from) + |Recent(CandidatesFor(s, cid), from)| == RecentCount(s, from)
  {
    var before, after := RecentMap(s.byCid, from), RecentMap(Discard(s, cid).byCid, from);
    assert after == before - {cid};
    if cid in before {
      CountWithout(before, cid);
    } else {
      assert before - {cid} == before;
    }
  }

  lemma RecentAfterPut(s: Store, cid: Cid, cs: seq<Candidate>, total: int, from: real)
    ensures RecentCount(s.(byCid := s.byCid[cid := cs], total := total), from) + |Recent(CandidatesFor(s, cid), from)|
         == RecentCount(s, from) + |Recent(cs, from)|
  {
    var before := RecentMap(s.byCid, from);
    assert RecentMap(s.byCid[cid := cs], from) == before[cid := Recent(cs, from)];
    CountUpdate(before, cid, Recent(cs, from));
  }

  lemma RecentCountStep(s: Store, op: Op, from: real)
    requires Valid(s) && from <= op.at < from + s.ttl
    ensures var t := Apply(Ledger(s, 0, 0, 0), op).s;
            RecentCount(t, from) + (if op.DropOp? then |Recent(CandidatesFor(s, op.cid), from)| else 0)
            == RecentCount(s, from) + (if op.AddOp? && Accepts(s, op.cid, op.at) then 1 else 0)
  {
    hide RecentCount, Valid, Expire, Recent;
    match op
    case DropOp(cid, _) => RecentAfterDiscard(s, cid, from);
    case ExpireOp(at) => RecentAfterSweep(s, at, from);
    case AddOp(cid, received, at) =>
      RecentAfterSweep(s, at, from);
      var e := Expire(s, at);
      var existing := CandidatesFor(e, cid);
      RecentAppend(existing, NewCandidate(s, cid, received, at), from);
      RecentAfterPut(e, cid, existing, e.total, from);
      RecentAfterPut(e, cid, existing + [NewCandidate(s, cid, received, at)], e.total + 1, from);
  }

  lemma SweepKeepsRecent(s: Store, now: real, cid: Cid, from: real)
    requires Valid(s) && now < from + s.ttl
    ensures Recent(CandidatesFor(Expire(s, now), cid), from) == Recent(CandidatesFor(s, cid), from)
  {
    SweptLookup(s, now, cid);
    RecentSurvive(CandidatesFor(s, cid), from, s.ttl, now);
  }

  /** In any such interval at most max_total adds succeed, and one more for each candidate dropped
      inside it. */
  lemma {:induction false} WindowTotal(s: Store, ops: seq<Op>, from: real)
    requires Valid(s) && Within(ops, from, s.ttl)
    ensures RecentCount(s, from) + AllAdds(s, ops) <= s.maxTotal + AllDropped(s, ops)
    decreases |ops|
  {
    hide Apply, Valid, RecentCount;
    if ops == [] {
      RecentAtMostTotal(s, from);
    } else {
      assert ops[0] in ops && forall op <- ops[1..] :: op in ops;
      var l := Ledger(s, 0, 0, 0);
      ApplyKeepsAccounts(l, ops[0]);
      LimitsAreFixed(l, ops[0]);
      RecentCountStep(s, ops[0], from);
      if ops[0].DropOp? {
        RecentIsShorter(CandidatesFor(s, ops[0].cid), from);
      }
      WindowTotal(Apply(l, ops[0]).s, ops[1..], from);
    }
  }

  lemma RecentAtMostTotal(s: Store, from: real)
    requires Valid(s)
    ensures RecentCount(s, from) <= s.maxTotal
  {
    forall cid | cid in s.byCid ensures |Recent(s.byCid[cid], from)| <= |s.byCid[cid]| {
      RecentIsShorter(s.byCid[cid], from);
    }
    CountMonotone(RecentMap(s.byCid, from), s.byCid);
  }
}
