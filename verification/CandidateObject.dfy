/** The candidate store as the object it is: a dict of lists and a running total, updated in place. */
module CandidateObject {
  import opened Base
  import opened SessionModel
  import opened C = Candidates

  lemma EmptiesDoNotCount(was: map<Cid, seq<Candidate>>, swept: map<Cid, seq<Candidate>>, now: real)
    requires swept.Keys == was.Keys && forall cid <- was :: swept[cid] == Surviving(was[cid], now)
    ensures Count(Swept(was, now)) == Count(swept)
  {
    hide Surviving, Count;
    CountIgnoresEmpty(Swept(was, now), swept);
  }

  class CandidateStore {
    const maxPerCid: int
    const maxTotal: int
    const ttl: real
    var byCid: map<Cid, seq<Candidate>>
    var total: int

    ghost function Model(): Store
      reads this
    {
      Store(maxPerCid, maxTotal, ttl, byCid, total)
    }

    constructor (maxPerCid: int, maxTotal: int, ttl: real)
      ensures Model() == Store(maxPerCid, maxTotal, ttl, map[], 0)
    {
      this.maxPerCid, this.maxTotal, this.ttl := maxPerCid, maxTotal, ttl;
      byCid, total := map[], 0;
    }

    /** Null is ValueError. */
    static method Create(maxPerCid: int, maxTotal: int, ttl: real) returns (store: CandidateStore?)
      ensures store == null <==> NewStore(maxPerCid, maxTotal, ttl).None?
      ensures store != null ==> fresh(store) && NewStore(maxPerCid, maxTotal, ttl) == Some(store.Model())
                                && Valid(store.Model())
    {
      if maxPerCid < 1 || maxTotal < maxPerCid {
        return null;
      }
      store := new CandidateStore(maxPerCid, maxTotal, ttl);
    }

    method CandidatesFor(cid: Cid) returns (cs: seq<Candidate>)
      ensures cs == C.CandidatesFor(Model(), cid)
    {
      cs := if cid in byCid then byCid[cid] else [];
    }

    method MatchOrNone(cid: Cid, received: Pdu) returns (found: Option<Candidate>)
      ensures found.Some? ==> found.value in C.CandidatesFor(Model(), cid) && found.value.received == received
      ensures found.None? ==> forall c <- C.CandidatesFor(Model(), cid) :: c.received != received
    {
      var cs := if cid in byCid then byCid[cid] else [];
      for i := 0 to |cs|
        invariant forall j | 0 <= j < i :: cs[j].received != received
      {
        if cs[i].received == received {
          return Some(cs[i]);
        }
      }
      return None;
    }

    /** False is CandidateLimitExceeded. */
    method Add(cid: Cid, received: Pdu, now: real) returns (added: bool)
      requires Valid(Model())
      modifies this
      ensures Valid(Model())
      ensures Model() == C.Add(old(Model()), cid, received, now)
      ensures added <==> Accepts(old(Model()), cid, now)
    {
      hide Valid, C.Expire;
      AddKeepsValid(Model(), cid, received, now);
      var _ := Expire(now);
      ghost var swept := byCid;
      var existing := if cid in byCid then byCid[cid] else [];
      byCid := byCid[cid := existing];
      if |existing| >= maxPerCid || total >= maxTotal {
        return false;
      }
      var candidate := Candidate(cid, received, None, now, now + ttl);
      byCid := byCid[cid := existing + [candidate]];
      assert byCid == swept[cid := existing + [candidate]];
      total := total + 1;
      return true;
    }

    /** promote() and discard() alike. */
    method Discard(cid: Cid)
      requires Valid(Model())
      modifies this
      ensures Valid(Model())
      ensures Model() == C.Discard(old(Model()), cid)
    {
      DiscardKeepsValid(Model(), cid);
      var removed := if cid in byCid then byCid[cid] else [];
      byCid := byCid - {cid};
      total := total - |removed|;
    }

    method Expire(now: real) returns (removed: int)
      requires Valid(Model())
      modifies this
      ensures Valid(Model())
      ensures Model() == C.Expire(old(Model()), now)
      ensures removed == ExpiredCount(old(Model()), now)
    {
      hide Valid, Count, Surviving;
      ExpireKeepsValid(Model(), now);
      ghost var was := byCid;
      ghost var swept := byCid;  // byCid with the lists already visited cut down, even to nothing
      removed := 0;
      var empty: set<Cid> := {};
      var todo := byCid.Keys;
      while todo != {}
        invariant todo <= was.Keys && byCid.Keys == swept.Keys == was.Keys
        invariant forall cid <- was :: swept[cid] == if cid in todo then was[cid] else Surviving(was[cid], now)
        invariant forall cid <- was :: byCid[cid] == if cid in empty then was[cid] else swept[cid]
        invariant forall cid <- was :: cid in empty <==> cid !in todo && Surviving(was[cid], now) == []
        invariant removed == Count(was) - Count(swept)
        invariant total == old(total)
        decreases todo
      {
        var cid :| cid in todo;
        var candidates := byCid[cid];
        var surviving := Surviving(candidates, now);
        CountUpdate(swept, cid, surviving);
        removed := removed + |candidates| - |surviving|;
        if surviving != [] {
          byCid := byCid[cid := surviving];
        } else {
          empty := empty + {cid};
        }
        swept := swept[cid := surviving];
        todo := todo - {cid};
      }
      byCid := byCid - empty;
      total := total - removed;
      assert byCid == Swept(was, now);
      EmptiesDoNotCount(was, swept, now);
    }
  }
}
