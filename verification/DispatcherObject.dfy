/** The dispatcher as the object it is: dicts, lists and a candidate store updated in place. */
module DispatcherObject {
  import opened Base
  import opened Crypto
  import opened S = SessionModel
  import opened Candidates
  import opened CandidateObject
  import opened M = DispatcherModel
  import opened DispatcherInvariant
  import R = DispatcherRuns
  import P = SessionProgress

  // ---- iterating over a dict -------------------------------------------------------------------------

  method ListKeys(keys: set<Cid>) returns (order: seq<Cid>)
    ensures Lists(order, keys)
  {
    order := [];
    var todo := keys;
    while todo != {}
      invariant todo <= keys && Lists(order, keys - todo)
      decreases todo
    {
      var cid :| cid in todo;
      order := order + [cid];
      todo := todo - {cid};
    }
    assert keys - todo == keys;
  }

  /** Once an exception has passed through, nothing more is cranked. */
  lemma {:induction false} EscapedStays(t: Turn, order: seq<Cid>, now: real, keys: Keys, coins: Coins)
    requires t.escaped
    ensures CrankAllEstablished(t, order, now, keys, coins) == t
    ensures CrankAllResponders(t, order, now, keys, coins) == t
    ensures CrankAllForks(t, order, now, keys, coins) == t
    decreases |order|
  {
    if order != [] {
      EscapedStays(t, order[1..], now, keys, coins);
    }
  }

  // ---- the object -----------------------------------------------------------------------------------------

  class Dispatcher {
    const config: Config
    const candidates: CandidateStore
    var established: map<Cid, Session>
    var responderSessions: map<Cid, Session>
    var initiatorTemplates: map<Cid, Session>
    var initiatorForks: map<Cid, seq<Session>>
    var outgoingPdus: seq<Pdu>
    var outgoingPayloads: seq<(Cid, Bytes)>

    ghost function Model(): M.Dispatcher
      reads this, candidates
    {
      M.Dispatcher.Dispatcher(config, established, responderSessions, initiatorTemplates, initiatorForks,
                 candidates.Model(), outgoingPdus, outgoingPayloads)
    }

    /** The dispatcher takes over whatever store it is given; its tables agree with the store from the
        start if and only if the store is consistent and holds no candidate. */
    constructor (config: Config, candidates: CandidateStore)
      ensures Model() == NewDispatcher(config, candidates.Model()) && this.candidates == candidates
      ensures Good(Model())
              <==> Valid(candidates.Model()) && forall cid: Cid :: CandidatesFor(candidates.Model(), cid) == []
    {
      this.config, this.candidates := config, candidates;
      established, responderSessions, initiatorTemplates, initiatorForks := map[], map[], map[], map[];
      outgoingPdus, outgoingPayloads := [], [];
    }

    // ---- bookkeeping --------------------------------------------------------------------------------------

    method Drain(s: Session, cid: Cid) returns (t: Session)
      modifies this`outgoingPdus, this`outgoingPayloads
      ensures t == Emptied(s)
      ensures Model() == Collect(old(Model()), s, cid)
    {
      t := s;
      while t.outPdus != []
        invariant t == s.(outPdus := t.outPdus)
        invariant outgoingPdus + t.outPdus == old(outgoingPdus) + s.outPdus && outgoingPayloads == old(outgoingPayloads)
        decreases |t.outPdus|
      {
        outgoingPdus := outgoingPdus + [t.outPdus[0]];
        t := t.(outPdus := t.outPdus[1..]);
      }
      while t.outPayloads != []
        invariant t == s.(outPdus := [], outPayloads := t.outPayloads)
        invariant outgoingPdus == old(outgoingPdus) + s.outPdus
        invariant outgoingPayloads + Tagged(cid, t.outPayloads) == old(outgoingPayloads) + Tagged(cid, s.outPayloads)
        decreases |t.outPayloads|
      {
        assert Tagged(cid, t.outPayloads) == [(cid, t.outPayloads[0])] + Tagged(cid, t.outPayloads[1..]);
        outgoingPayloads := outgoingPayloads + [(cid, t.outPayloads[0])];
        t := t.(outPayloads := t.outPayloads[1..]);
      }
    }

    method Deliver(s: Session, pdu: Pdu, now: real, keys: Keys, coins: Coins, cid: Cid)
      returns (t: Session, escaped: bool)
      modifies this`outgoingPdus, this`outgoingPayloads
      ensures M.Deliver(old(Model()), s, pdu, now, keys, coins, cid) == Delivery(Model(), t, escaped)
    {
      hide S.Update;
      var c := S.Update(S.PostPdu(s, pdu), now, keys, coins);
      t, escaped := c.next, EscapesFrom(c.result);
      if !escaped {
        t := Drain(t, cid);
      }
    }

    method Promote(cid: Cid, winner: Session)
      requires Valid(candidates.Model())
      modifies this, candidates
      ensures Model() == M.Promote(old(Model()), cid, winner) && Valid(candidates.Model())
    {
      hide Valid;
      established := established[cid := winner];
      responderSessions := responderSessions - {cid};
      initiatorForks := initiatorForks - {cid};
      initiatorTemplates := initiatorTemplates - {cid};
      candidates.Discard(cid);
    }

    method DropResponder(cid: Cid)
      requires Valid(candidates.Model())
      modifies this`responderSessions, candidates
      ensures Model() == M.DropResponder(old(Model()), cid) && Valid(candidates.Model())
    {
      hide Valid;
      responderSessions := responderSessions - {cid};
      candidates.Discard(cid);
    }

    method ReapResponder(cid: Cid)
      requires Valid(candidates.Model())
      modifies this, candidates
      ensures Model() == M.ReapResponder(old(Model()), cid) && Valid(candidates.Model())
    {
      hide Valid;
      if cid !in responderSessions {
        return;
      }
      var s := responderSessions[cid];
      if s.state == Established {
        s := Drain(s, cid);
        Promote(cid, s);
      } else if s.state == Dropped {
        DropResponder(cid);
      }
    }

    // ---- routing ------------------------------------------------------------------------------------------

    method DeliverToResponder(cid: Cid, pdu: Pdu, now: real, keys: Keys, coins: Coins) returns (escaped: bool)
      requires cid in responderSessions && Valid(candidates.Model())
      modifies this, candidates
      ensures M.DeliverToResponder(old(Model()), cid, pdu, now, keys, coins) == Outcome(Model(), escaped)
      ensures Valid(candidates.Model())
    {
      hide Valid, M.Deliver, M.ReapResponder;
      var s;
      s, escaped := Deliver(responderSessions[cid], pdu, now, keys, coins, cid);
      responderSessions := responderSessions[cid := s];
      if !escaped {
        ReapResponder(cid);
      }
    }

    method RecordFirstSent(cid: Cid, sent: Option<Pdu>)
      requires Valid(candidates.Model())
      modifies candidates
      ensures Model() == old(Model()).(store := M.RecordFirstSent(old(candidates.Model()), cid, sent))
      ensures Valid(candidates.Model())
    {
      RecordingKeeps(candidates.Model(), cid, Malformed([]), sent);
      SameButSentKeeps(candidates.Model(), M.RecordFirstSent(candidates.Model(), cid, sent));
      hide Valid;
      var entries := if cid in candidates.byCid then candidates.byCid[cid] else [];
      if entries != [] {
        candidates.byCid := candidates.byCid[cid := entries[0 := entries[0].(sent := sent)]];
      }
    }

    static method NoteSent(cs: seq<Candidate>, received: Pdu, sent: Option<Pdu>) returns (entries: seq<Candidate>)
      ensures entries == Noted(cs, received, sent)
    {
      entries := cs;
      for i := 0 to |cs|
        invariant |entries| == |cs|
        invariant forall j | 0 <= j < i :: entries[j] == Noted(cs, received, sent)[j]
        invariant forall j | i <= j < |cs| :: entries[j] == cs[j]
      {
        if entries[i].received == received {
          entries := entries[i := entries[i].(sent := sent)];
        }
      }
    }

    method RecordSent(cid: Cid, received: Pdu, sent: Option<Pdu>)
      requires Valid(candidates.Model())
      modifies candidates
      ensures Model() == old(Model()).(store := M.RecordSent(old(candidates.Model()), cid, received, sent))
      ensures Valid(candidates.Model())
    {
      RecordingKeeps(candidates.Model(), cid, received, sent);
      SameButSentKeeps(candidates.Model(), M.RecordSent(candidates.Model(), cid, received, sent));
      hide Valid, Noted;
      if cid in candidates.byCid {
        var entries := NoteSent(candidates.byCid[cid], received, sent);
        candidates.byCid := candidates.byCid[cid := entries];
      }
    }

    method RouteInitRequest(cid: Cid, pdu: Pdu, now: real, keys: Keys, coins: Coins) returns (escaped: bool)
      requires Valid(candidates.Model())
      modifies this, candidates
      ensures M.RouteInitRequest(old(Model()), cid, pdu, now, keys, coins) == Outcome(Model(), escaped)
      ensures Valid(candidates.Model())
    {
      hide Valid, M.Deliver, M.ReapResponder, M.DropResponder, M.DeliverToResponder, M.RecordFirstSent,
           Candidates.Add, Accepts;
      if cid in responderSessions {
        escaped := DeliverToResponder(cid, pdu, now, keys, coins);
        return;
      }
      var added := candidates.Add(cid, pdu, now);
      if !added {
        return false;
      }
      var s;
      s, escaped := Deliver(New(Responder, None, config), pdu, now, keys, coins, cid);
      responderSessions := responderSessions[cid := s];
      if escaped {
        return;
      }
      if s.state == Initial {
        DropResponder(cid);
        return;
      }
      if s.state == ExpectCompletionRequest {
        RecordFirstSent(cid, s.lastSent);
      }
      ReapResponder(cid);
    }

    method RouteInitResponse(cid: Cid, pdu: Pdu, now: real, keys: Keys, coins: Coins) returns (escaped: bool)
      requires Valid(candidates.Model())
      modifies this, candidates
      ensures M.RouteInitResponse(old(Model()), cid, pdu, now, keys, coins) == Outcome(Model(), escaped)
      ensures Valid(candidates.Model())
    {
      hide Valid, M.Deliver, M.RecordSent, Candidates.Add, Accepts, Fork;
      if cid !in initiatorTemplates {
        return false;
      }
      var fs := if cid in initiatorForks then initiatorForks[cid] else [];
      var i := MatchingFork(fs, pdu);
      var s;
      if i < |fs| {
        s, escaped := Deliver(fs[i], pdu, now, keys, coins, cid);
        initiatorForks := initiatorForks[cid := fs[i := s]];
        return;
      }
      var added := candidates.Add(cid, pdu, now);
      if !added {
        return false;
      }
      var forked := Fork(initiatorTemplates[cid]);
      if forked.Err? {
        return true;
      }
      s, escaped := Deliver(forked.value, pdu, now, keys, coins, cid);
      initiatorForks := initiatorForks[cid := fs + [s]];
      if !escaped {
        RecordSent(cid, pdu, s.lastSent);
      }
    }

    /** Feeding stops at the first fork that is established, or that an exception passes through. */
    static method FeedForks(forks: seq<Session>, pdu: Pdu, now: real, keys: Keys, coins: Coins)
      returns (sessions: seq<Session>, winner: Option<Session>, escaped: bool)
      ensures M.FeedForks(forks, 0, pdu, now, keys, coins) == Fed(sessions, winner, escaped)
    {
      hide S.Update;
      sessions, winner, escaped := forks, None, false;
      for i := 0 to |forks|
        invariant |sessions| == |forks| && winner.None? && !escaped
        invariant M.FeedForks(sessions, i, pdu, now, keys, coins) == M.FeedForks(forks, 0, pdu, now, keys, coins)
      {
        var c := S.Update(S.PostPdu(sessions[i], pdu), now, keys, coins);
        sessions := sessions[i := c.next];
        if EscapesFrom(c.result) {
          escaped := true;
          return;
        }
        if c.result.Returned? && c.next.state == Established {
          winner := Some(c.next);
          return;
        }
      }
    }

    method RouteToForks(cid: Cid, pdu: Pdu, now: real, keys: Keys, coins: Coins) returns (escaped: bool)
      requires cid in initiatorForks && Valid(candidates.Model())
      modifies this, candidates
      ensures M.RouteToForks(old(Model()), cid, pdu, now, keys, coins) == Outcome(Model(), escaped)
      ensures Valid(candidates.Model())
    {
      hide Valid, M.FeedForks;
      var sessions, winner;
      sessions, winner, escaped := FeedForks(initiatorForks[cid], pdu, now, keys, coins);
      initiatorForks := initiatorForks[cid := sessions];
      if !escaped && winner.Some? {
        var s := Drain(winner.value, cid);
        Promote(cid, s);
      }
    }

    method PostPdu(pdu: Pdu, now: real, keys: Keys, coins: Coins) returns (escaped: bool)
      requires Good(Model())
      modifies this, candidates
      ensures M.PostPduTo(old(Model()), pdu, now, keys, coins) == Outcome(Model(), escaped)
      ensures Good(Model()) && StillThere(old(Model()), Model(), {})
    {
      hide M.Deliver, M.RouteInitRequest, M.RouteInitResponse, M.RouteToForks, M.DeliverToResponder;
      PostPduKeeps(Model(), pdu, now, keys, coins);
      R.GoodHasValid(Model());
      hide Good, StillThere;
      escaped := false;
      if pdu.Malformed? {
        return;
      }
      var cid := pdu.cid;
      if cid in established {
        var s;
        s, escaped := Deliver(established[cid], pdu, now, keys, coins, cid);
        established := established[cid := s];
      } else if pdu.payload.SessionInitRequest? {
        escaped := RouteInitRequest(cid, pdu, now, keys, coins);
      } else if pdu.payload.SessionInitResponse? {
        escaped := RouteInitResponse(cid, pdu, now, keys, coins);
      } else if cid in responderSessions {
        escaped := DeliverToResponder(cid, pdu, now, keys, coins);
      } else if cid in initiatorForks {
        escaped := RouteToForks(cid, pdu, now, keys, coins);
      } else {
        assert M.RouteToForks(Model(), cid, pdu, now, keys, coins) == Outcome(Model(), false) by {
          UnknownCid(Model(), cid, pdu, now, keys, coins);
        }
      }
    }

    static lemma UnknownCid(d: M.Dispatcher, cid: Cid, pdu: Pdu, now: real, keys: Keys, coins: Coins)
      requires cid !in d.forks
      ensures M.RouteToForks(d, cid, pdu, now, keys, coins) == Outcome(d, false)
    {
    }

    // ---- the other operations -------------------------------------------------------------------------------

    method Initiate(own: KeyId, peer: KeyId, now: real, keys: Keys, cid: Cid, coins: Coins) returns (escaped: bool)
      requires Good(Model()) && cid !in established && !Pending(Model(), cid)
      modifies this
      ensures InitiateAt(old(Model()), own, peer, now, keys, cid, coins) == Outcome(Model(), escaped)
      ensures Good(Model()) && StillThere(old(Model()), Model(), {})
    {
      InitiateKeeps(Model(), own, peer, now, keys, cid, coins);
      hide Good, StillThere, S.Initiate;
      var step := S.Initiate(New(Initiator, Some(own), config), peer, now, keys, cid, coins);
      if step.error.Some? {
        return true;
      }
      initiatorTemplates := initiatorTemplates[cid := Emptied(step.next)];
      initiatorForks := initiatorForks[cid := []];
      outgoingPdus := outgoingPdus + step.next.outPdus;
      return false;
    }

    static method PostToForks(forks: seq<Session>, payload: Bytes) returns (posted: seq<Session>)
      ensures posted == PostPayloadToAll(forks, payload)
    {
      posted := [];
      for i := 0 to |forks|
        invariant posted == PostPayloadToAll(forks[..i], payload)
      {
        posted := posted + [S.PostPayload(forks[i], payload)];
      }
      assert forks[..|forks|] == forks;
    }

    /** False is an error: an empty payload, or a cid that is neither established nor pending. */
    method PostPayload(cid: Cid, payload: Bytes) returns (ok: bool)
      requires Good(Model())
      modifies this
      ensures Model() == PostPayloadTo(old(Model()), cid, payload)
      ensures ok <==> payload != [] && (cid in old(established) || Pending(old(Model()), cid))
      ensures Good(Model()) && StillThere(old(Model()), Model(), {})
    {
      hide Good, StillThere, PostPayloadToAll, S.PostPayload;
      PostPayloadKeeps(Model(), cid, payload);
      ok := payload != [];
      if cid in established {
        established := established[cid := S.PostPayload(established[cid], payload)];
      } else if cid in responderSessions {
        responderSessions := responderSessions[cid := S.PostPayload(responderSessions[cid], payload)];
      } else if cid in initiatorTemplates {
        initiatorTemplates := initiatorTemplates[cid := S.PostPayload(initiatorTemplates[cid], payload)];
        if cid in initiatorForks {
          var posted := PostToForks(initiatorForks[cid], payload);
          initiatorForks := initiatorForks[cid := posted];
        }
      } else {
        ok := false;
      }
    }

    /** None is IndexError. */
    method GetPdu() returns (pdu: Option<Pdu>)
      requires Good(Model())
      modifies this`outgoingPdus
      ensures pdu == if old(outgoingPdus) == [] then None else Some(old(outgoingPdus)[0])
      ensures Model() == R.After(old(Model()), R.TakesPdu) && Good(Model())
    {
      hide Good;
      SameTablesKeeps(Model(), R.After(Model(), R.TakesPdu));
      pdu := None;
      if outgoingPdus != [] {
        pdu := Some(outgoingPdus[0]);
        outgoingPdus := outgoingPdus[1..];
      }
    }

    method GetPayload() returns (payload: Option<(Cid, Bytes)>)
      requires Good(Model())
      modifies this`outgoingPayloads
      ensures payload == if old(outgoingPayloads) == [] then None else Some(old(outgoingPayloads)[0])
      ensures Model() == R.After(old(Model()), R.TakesPayload) && Good(Model())
    {
      hide Good;
      SameTablesKeeps(Model(), R.After(Model(), R.TakesPayload));
      payload := None;
      if outgoingPayloads != [] {
        payload := Some(outgoingPayloads[0]);
        outgoingPayloads := outgoingPayloads[1..];
      }
    }

    method Close(cid: Cid)
      requires Good(Model())
      modifies this`established
      ensures Model() == M.Close(old(Model()), cid) && Good(Model())
      ensures StillThere(old(Model()), Model(), {cid})
      ensures cid !in established && forall k <- old(established) :: k == cid || k in established
    {
      hide Good, StillThere;
      CloseKeeps(Model(), cid);
      established := established - {cid};
    }

    // ---- the crank --------------------------------------------------------------------------------------------

    method ReconcileResponders()
      modifies this`responderSessions
      ensures responderSessions == old(responderSessions) - Orphans(old(responderSessions).Keys, candidates.Model())
    {
      hide CandidatesFor;
      var todo := responderSessions.Keys;
      ghost var was := responderSessions;
      while todo != {}
        invariant todo <= was.Keys && responderSessions == was - Orphans(was.Keys - todo, candidates.Model())
        decreases todo
      {
        var cid :| cid in todo;
        var entries := candidates.CandidatesFor(cid);
        if entries == [] {
          responderSessions := responderSessions - {cid};
        }
        todo := todo - {cid};
      }
      assert was.Keys - todo == was.Keys;
    }

    method ReconcileForks()
      modifies this`initiatorForks, this`initiatorTemplates
      ensures var gone := Orphans(old(initiatorForks).Keys, candidates.Model()) - established.Keys;
              initiatorForks == old(initiatorForks) - gone && initiatorTemplates == old(initiatorTemplates) - gone
    {
      hide CandidatesFor;
      var todo := initiatorForks.Keys;
      ghost var forks, templates := initiatorForks, initiatorTemplates;
      while todo != {}
        invariant todo <= forks.Keys
        invariant initiatorForks == forks - (Orphans(forks.Keys - todo, candidates.Model()) - established.Keys)
        invariant initiatorTemplates == templates - (Orphans(forks.Keys - todo, candidates.Model()) - established.Keys)
        decreases todo
      {
        var cid :| cid in todo;
        var entries := candidates.CandidatesFor(cid);
        if entries == [] && cid !in established {
          initiatorForks := initiatorForks - {cid};
          initiatorTemplates := initiatorTemplates - {cid};
        }
        todo := todo - {cid};
      }
      assert forks.Keys - todo == forks.Keys;
    }

    method CrankOneEstablished(cid: Cid, now: real, keys: Keys, coins: Coins, before: Deadline)
      returns (soonest: Deadline, escaped: bool)
      requires cid in established
      modifies this`established, this`outgoingPdus, this`outgoingPayloads
      ensures M.CrankEstablished(Turn(old(Model()), before, false), cid, now, keys, coins)
              == Turn(Model(), soonest, escaped)
      ensures established.Keys == old(established).Keys
    {
      hide S.Update;
      var c := S.Update(established[cid], now, keys, coins);
      soonest, escaped := before, EscapesFrom(c.result);
      var s := c.next;
      if !escaped {
        soonest := Latest(c.result, before);
        s := Drain(s, cid);
      }
      established := established[cid := s];
    }

    method CrankEstablished(now: real, keys: Keys, coins: Coins, before: Deadline)
      returns (soonest: Deadline, escaped: bool, ghost order: seq<Cid>)
      modifies this`established, this`outgoingPdus, this`outgoingPayloads
      ensures Lists(order, old(established).Keys)
      ensures CrankAllEstablished(Turn(old(Model()), before, false), order, now, keys, coins)
              == Turn(Model(), soonest, escaped)
    {
      hide M.CrankEstablished;
      var cids := ListKeys(established.Keys);
      order, soonest, escaped := cids, before, false;
      ghost var all := CrankAllEstablished(Turn(Model(), before, false), cids, now, keys, coins);
      assert cids[0..] == cids;
      for i := 0 to |cids|
        invariant established.Keys == old(established).Keys && !escaped
        invariant CrankAllEstablished(Turn(Model(), soonest, false), cids[i..], now, keys, coins) == all
      {
        assert cids[i..][1..] == cids[i + 1..];
        soonest, escaped := CrankOneEstablished(cids[i], now, keys, coins, soonest);
        if escaped {
          EscapedStays(Turn(Model(), soonest, true), cids[i + 1..], now, keys, coins);
          return;
        }
      }
    }

    method CrankOneResponder(cid: Cid, now: real, keys: Keys, coins: Coins, before: Deadline)
      returns (soonest: Deadline, escaped: bool)
      requires cid in responderSessions && Valid(candidates.Model())
      modifies this, candidates
      ensures M.CrankResponder(Turn(old(Model()), before, false), cid, now, keys, coins)
              == Turn(Model(), soonest, escaped)
      ensures Valid(candidates.Model()) && old(responderSessions).Keys - {cid} <= responderSessions.Keys
    {
      hide S.Update, Valid;
      var c := S.Update(responderSessions[cid], now, keys, coins);
      soonest, escaped := before, EscapesFrom(c.result);
      if escaped {
        responderSessions := responderSessions[cid := c.next];
        return;
      }
      if c.result.Raised? {
        DropResponder(cid);
        return;
      }
      soonest := Latest(c.result, before);
      var s := Drain(c.next, cid);
      if s.state == Established {
        Promote(cid, s);
      } else if s.state == Dropped {
        DropResponder(cid);
      } else {
        responderSessions := responderSessions[cid := s];
      }
    }

    method CrankResponders(now: real, keys: Keys, coins: Coins, before: Deadline)
      returns (soonest: Deadline, escaped: bool, ghost order: seq<Cid>)
      requires Valid(candidates.Model())
      modifies this, candidates
      ensures Lists(order, old(responderSessions).Keys) && Valid(candidates.Model())
      ensures CrankAllResponders(Turn(old(Model()), before, false), order, now, keys, coins)
              == Turn(Model(), soonest, escaped)
    {
      hide M.CrankResponder, Valid;
      var cids := ListKeys(responderSessions.Keys);
      order, soonest, escaped := cids, before, false;
      ghost var all := CrankAllResponders(Turn(Model(), before, false), cids, now, keys, coins);
      assert cids[0..] == cids;
      for i := 0 to |cids|
        invariant !escaped && Valid(candidates.Model()) && forall j | i <= j < |cids| :: cids[j] in responderSessions
        invariant CrankAllResponders(Turn(Model(), soonest, false), cids[i..], now, keys, coins) == all
      {
        assert cids[i..][1..] == cids[i + 1..];
        soonest, escaped := CrankOneResponder(cids[i], now, keys, coins, soonest);
        if escaped {
          EscapedStays(Turn(Model(), soonest, true), cids[i + 1..], now, keys, coins);
          return;
        }
      }
    }

    /** The sweep over the forks of one cid; the exception, if any, leaves the rest uncranked. */
    static method SweepForks(forks: seq<Session>, now: real, keys: Keys, coins: Coins, before: Deadline)
      returns (w: Sweep)
      ensures w == M.SweepForks(Sweep(forks, [], None, before, false), 0, now, keys, coins)
    {
      hide S.Update;
      w := Sweep(forks, [], None, before, false);
      ghost var all := M.SweepForks(w, 0, now, keys, coins);
      for i := 0 to |forks|
        invariant |w.sessions| == |forks| && M.SweepForks(w, i, now, keys, coins) == all
      {
        var c := S.Update(w.sessions[i], now, keys, coins);
        w := w.(sessions := w.sessions[i := c.next]);
        if EscapesFrom(c.result) {
          w := w.(escaped := true);
          return;
        }
        if c.result.Returned? {
          w := w.(soonest := Latest(c.result, w.soonest));
          if c.next.state == Established {
            w := w.(winner := Some(c.next));
            return;
          }
          if c.next.state != Dropped {
            w := w.(surviving := w.surviving + [c.next]);
          }
        }
      }
    }

    method CrankForksOf(cid: Cid, now: real, keys: Keys, coins: Coins, before: Deadline)
      returns (soonest: Deadline, escaped: bool)
      requires cid in initiatorForks && Valid(candidates.Model())
      modifies this, candidates
      ensures M.CrankForks(Turn(old(Model()), before, false), cid, now, keys, coins) == Turn(Model(), soonest, escaped)
      ensures Valid(candidates.Model()) && old(initiatorForks).Keys - {cid} <= initiatorForks.Keys
    {
      hide M.SweepForks, Valid;
      var w := SweepForks(initiatorForks[cid], now, keys, coins, before);
      soonest, escaped := w.soonest, w.escaped;
      if escaped {
        initiatorForks := initiatorForks[cid := w.sessions];
      } else if w.winner.Some? {
        var s := Drain(w.winner.value, cid);
        Promote(cid, s);
      } else if w.surviving != [] {
        initiatorForks := initiatorForks[cid := w.surviving];
      } else {
        initiatorForks := initiatorForks - {cid};
        initiatorTemplates := initiatorTemplates - {cid};
        candidates.Discard(cid);
      }
    }

    method CrankForks(now: real, keys: Keys, coins: Coins, before: Deadline)
      returns (soonest: Deadline, escaped: bool, ghost order: seq<Cid>)
      requires Valid(candidates.Model())
      modifies this, candidates
      ensures Lists(order, old(initiatorForks).Keys)
      ensures CrankAllForks(Turn(old(Model()), before, false), order, now, keys, coins)
              == Turn(Model(), soonest, escaped)
    {
      hide M.CrankForks, Valid;
      var cids := ListKeys(initiatorForks.Keys);
      order, soonest, escaped := cids, before, false;
      ghost var all := CrankAllForks(Turn(Model(), before, false), cids, now, keys, coins);
      assert cids[0..] == cids;
      for i := 0 to |cids|
        invariant !escaped && Valid(candidates.Model()) && forall j | i <= j < |cids| :: cids[j] in initiatorForks
        invariant CrankAllForks(Turn(Model(), soonest, false), cids[i..], now, keys, coins) == all
      {
        assert cids[i..][1..] == cids[i + 1..];
        soonest, escaped := CrankForksOf(cids[i], now, keys, coins, soonest);
        if escaped {
          EscapedStays(Turn(Model(), soonest, true), cids[i + 1..], now, keys, coins);
          return;
        }
      }
    }

    method Reconcile()
      modifies this`responderSessions, this`initiatorForks, this`initiatorTemplates
      ensures Model() == M.Reconcile(old(Model()))
    {
      hide Orphans;
      ReconcileResponders();
      ReconcileForks();
    }

    /** The orders are those in which the dicts happened to be iterated. */
    method Update(now: real, keys: Keys, coins: Coins) returns (result: CrankResult, ghost orders: Orders)
      requires Good(Model())
      modifies this, candidates
      ensures GoodOrders(old(Model()), orders, now, keys, coins)
      ensures Model() == CrankAll(old(Model()), orders, now, keys, coins).d
      ensures result == UpdateReturns(CrankAll(old(Model()), orders, now, keys, coins), now)
      ensures result.Returned? ==> P.Announces(result.ready, |outgoingPayloads|, |outgoingPdus|)
      ensures Good(Model()) && StillThere(old(Model()), Model(), {})
    {
      hide Good, StillThere, CrankAllEstablished, CrankAllResponders, CrankAllForks, Valid, Lists, M.Reconcile,
           Candidates.Expire;
      R.GoodHasValid(Model());
      var _ := candidates.Expire(now);
      assert Valid(candidates.Model());
      Reconcile();
      var soonest, escaped;
      ghost var first, second, third;
      soonest, escaped, first := CrankEstablished(now, keys, coins, Never);
      ghost var t1 := Turn(Model(), soonest, escaped);
      second := Listing(responderSessions.Keys);
      EscapedStays(Turn(Model(), soonest, true), second, now, keys, coins);
      if !escaped {
        soonest, escaped, second := CrankResponders(now, keys, coins, soonest);
      }
      ghost var t2 := Turn(Model(), soonest, escaped);
      third := Listing(initiatorForks.Keys);
      EscapedStays(Turn(Model(), soonest, true), third, now, keys, coins);
      if !escaped {
        soonest, escaped, third := CrankForks(now, keys, coins, soonest);
      }
      orders := Orders(first, second, third);
      assert Turn(Model(), soonest, escaped) == CrankAll(old(Model()), orders, now, keys, coins);
      R.CrankKeeps(old(Model()), orders, now, keys, coins);
      if escaped {
        return Raised(Escaped), orders;
      }
      result := Returned(NextUpdateResult(outgoingPayloads != [], outgoingPdus != []),
                         if soonest.Never? then At(now + config.retryInterval) else soonest);
    }
  }
}
