/** A candidate store that holds candidates of one cid only, none of them expired. */
module OneCid {
  import opened SessionModel
  import opened Candidates
  import opened DispatcherInvariant
  import opened DispatcherCrank

  /** k candidates under the cid, none under any other, none expired at this time. */
  ghost predicate Holds(s: Store, cid: Cid, k: nat, now: real) {
    && Valid(s) && s.total == k == |CandidatesFor(s, cid)|
    && (forall other: Cid | other != cid :: CandidatesFor(s, other) == [])
    && forall c <- CandidatesFor(s, cid) :: !Expired(c, now)
  }

  lemma NewHolds(s: Store, cid: Cid, now: real)
    requires Valid(s) && s.byCid == map[]
    ensures Holds(s, cid, 0, now)
  {
  }

  lemma {:induction false} NoneExpired(cs: seq<Candidate>, now: real)
    requires forall c <- cs :: !Expired(c, now)
    ensures Surviving(cs, now) == cs
  {
    if cs != [] {
      assert cs[0] in cs && forall c <- cs[1..] :: c in cs;
      NoneExpired(cs[1..], now);
    }
  }

  /** At this time, and before it, a sweep takes nothing. */
  lemma HeldSurvives(s: Store, cid: Cid, k: nat, now: real, at: real)
    requires Holds(s, cid, k, now) && at <= now
    ensures var e := Expire(s, at);
            e.total == k && forall other :: CandidatesFor(e, other) == CandidatesFor(s, other)
    ensures Accepts(s, cid, at) <==> k < s.maxPerCid
  {
    forall other
      ensures CandidatesFor(Expire(s, at), other) == CandidatesFor(s, other)
      ensures Lookup(s.byCid, other) == Lookup(Swept(s.byCid, at), other)
    {
      SweptLookup(s, at, other);
      NoneExpired(CandidatesFor(s, other), at);
    }
    CountIgnoresEmpty(s.byCid, Swept(s.byCid, at));
    ExpireKeepsValid(s, at);
  }

  lemma AddHolds(s: Store, cid: Cid, k: nat, pdu: Pdu, now: real, at: real)
    requires Holds(s, cid, k, now) && k < s.maxPerCid && at <= now < at + s.ttl
    ensures Holds(Add(s, cid, pdu, at), cid, k + 1, now) && SameLimits(s, Add(s, cid, pdu, at))
  {
    HeldSurvives(s, cid, k, now, at);
    AddKeepsValid(s, cid, pdu, at);
    forall other ensures CandidatesFor(Add(s, cid, pdu, at), other)
                      == CandidatesFor(s, other) + if other == cid then [NewCandidate(s, cid, pdu, at)] else []
    {
      AddLookup(s, cid, pdu, at, other);
      NoneExpired(CandidatesFor(s, other), at);
    }
  }

  /** Once the cid is dropped, nothing is held, nor ever expired. */
  lemma DiscardHolds(s: Store, cid: Cid, k: nat, now: real, later: real)
    requires Holds(s, cid, k, now)
    ensures Holds(Discard(s, cid), cid, 0, later) && SameLimits(s, Discard(s, cid))
  {
    DiscardKeepsValid(s, cid);
    DiscardLookup(s, cid);
  }

  lemma RecordingHolds(s: Store, t: Store, cid: Cid, k: nat, now: real)
    requires Holds(s, cid, k, now) && SameButSent(s, t)
    ensures Holds(t, cid, k, now) && SameLimits(s, t)
  {
    SameButSentKeeps(s, t);
    hide Valid;
    var before, after := CandidatesFor(s, cid), CandidatesFor(t, cid);
    forall c | c in after ensures !Expired(c, now) {
      var i :| 0 <= i < |after| && after[i] == c;
      assert before[i] in before;
    }
  }
}
