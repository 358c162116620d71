/** The key directory under crashes and tampering. */
module KeystoreFaults {
  import opened Base
  import opened Crypto
  import opened Keystore
  import opened KeystoreProofs
  import opened KeystoreRuns

  // ---- crashes --------------------------------------------------------------------------------------

  /** An operation run to its end, or cut short after so many of its writes. */
  datatype Step = Runs(op: Op) | Crashes(op: Op, writes: nat)

  predicate Possible(env: Env, d: Disk, step: Step) {
    step.Crashes? ==> step.writes < |States(env, d, step.op)|
  }

  function Left(env: Env, d: Disk, step: Step): Disk
    requires Possible(env, d, step)
  {
    if step.Runs? then After(env, d, step.op) else States(env, d, step.op)[step.writes]
  }

  predicate PossibleRun(env: Env, d: Disk, steps: seq<Step>)
    decreases |steps|
  {
    steps == [] || (Possible(env, d, steps[0]) && PossibleRun(env, Left(env, d, steps[0]), steps[1..]))
  }

  function Final(env: Env, d: Disk, steps: seq<Step>): Disk
    requires PossibleRun(env, d, steps)
    decreases |steps|
  {
    if steps == [] then d else Final(env, Left(env, d, steps[0]), steps[1..])
  }

  /** Every state an operation goes through is sound and has lost nothing. */
  lemma EveryStateSound(env: Env, d: Disk, op: Op)
    requires CollisionFree(env) && Sound(env, d)
    ensures forall s <- States(env, d, op) :: Sound(env, s) && Grows(d, s)
  {
    GrowsRefl(d);
    hide Grows;
    match op
    case Add(key, salt) => AddPublicKeeps(env, d, key, salt);
    case AddSecret(key, secret, salt) => AddPrivateKeeps(env, d, key, secret, salt);
    case IdFor(which, digest, salt1, salt2) =>
      LookupExact(env, d, [], IdOf(env, which));
      if Findable(d, IdOf(env, which)) {
        var name :| Lists(d, name, IdOf(env, which));
        KeyIdForKeeps(env, d, which, digest, salt1, salt2, name);
      }
    case _ =>
  }

  /** However often operations are cut short, every index entry targets an existing file that lists
      its id, and every file is filed right. */
  lemma {:induction false} SoundAfterCrashes(env: Env, d: Disk, steps: seq<Step>)
    requires CollisionFree(env) && Sound(env, d) && PossibleRun(env, d, steps)
    ensures Sound(env, Final(env, d, steps))
    decreases |steps|
  {
    hide Sound, States, CollisionFree;
    if steps != [] {
      EveryStateSound(env, d, steps[0].op);
      SoundAfterCrashes(env, Left(env, d, steps[0]), steps[1..]);
    }
  }

  // ---- each digest once ---------------------------------------------------------------------------------

  /** key_id_for hashes the key. */
  predicate Computes(env: Env, d: Disk, op: Op, key: Key, digest: Oid) {
    op.IdFor? && op.digest == digest
    && var r := LoadEntry(env, d, IdOf(env, op.which));
       r.Ok? && r.value.key == key && CachedUnder(r.value.ids, digest).None?
  }

  function ComputedIn(env: Env, d: Disk, steps: seq<Step>, key: Key, digest: Oid): nat
    requires PossibleRun(env, d, steps)
    decreases |steps|
  {
    if steps == [] then 0
    else (if Computes(env, d, steps[0].op, key, digest) then 1 else 0)
         + ComputedIn(env, Left(env, d, steps[0]), steps[1..], key, digest)
  }

  predicate HasDigest(env: Env, d: Disk, key: Key, digest: Oid) {
    Lists(d, Primary(env, key).hash, Build(env, key, digest))
  }

  lemma LoadedFrom(env: Env, d: Disk, id: KeyId)
    requires CollisionFree(env) && Sound(env, d) && LoadEntry(env, d, id).Ok?
    ensures var data := LoadEntry(env, d, id).value; var name := Primary(env, data.key).hash;
            && Lists(d, name, id) && Findable(d, id) && d.publics[name].data == data
            && GoodPublic(env, d.publics[name], name)
  {
    LookupExact(env, d, [], id);
    var name :| Lists(d, name, id);
    LookupExact(env, d, name, id);
    hide LoadEntry;
    assert GoodPublic(env, d.publics[name], name);
  }

  lemma CachedIsNotComputed(env: Env, d: Disk, op: Op, key: Key, digest: Oid)
    requires CollisionFree(env) && Sound(env, d) && HasDigest(env, d, key, digest)
    ensures !Computes(env, d, op, key, digest)
  {
    if Computes(env, d, op, key, digest) {
      LoadedFrom(env, d, IdOf(env, op.which));
      CachedUnderFacts(d.publics[Primary(env, key).hash].data.ids, digest);
    }
  }

  /** The states key_id_for goes through when the digest is new. */
  lemma NewDigestStates(env: Env, d: Disk, op: Op, name: Name)
    requires CollisionFree(env) && Sound(env, d) && op.IdFor?
    requires Lists(d, name, IdOf(env, op.which)) && Findable(d, IdOf(env, op.which))
             && !CachesDigest(d, name, op.digest)
    ensures var states, id := States(env, d, op), Build(env, d.publics[name].data.key, op.digest);
            && |states| == 3 && states[0] == d
            && OneMore(d, states[1], name, id)
            && OneMore(d, states[2], name, id)
            && Entries(states[1]) == Entries(d) && Entries(states[2]) == Entries(d) + [IndexEntry(id, name)]
  {
    hide KeyIdFor, IndexAdd, Findable, Sound, WithId, OneMore, Entries, CollisionFree;
    KeyIdForShape(env, d, op.which, op.digest, op.salt1, op.salt2, name);
    TwoWritesKeep(env, d, name, op.digest, op.salt1, op.salt2);
    WithIdKeeps(env, d, name, op.digest, op.salt1);
  }

  lemma OldDigestStates(env: Env, d: Disk, op: Op, name: Name)
    requires CollisionFree(env) && Sound(env, d) && op.IdFor?
    requires Lists(d, name, IdOf(env, op.which)) && Findable(d, IdOf(env, op.which)) && CachesDigest(d, name, op.digest)
    ensures States(env, d, op) == [d]
  {
    KeyIdForWrites(env, d, op.which, op.digest, op.salt1, op.salt2, name);
  }

  /** From its first write on, the digest is cached. */
  lemma ComputedIsCached(env: Env, d: Disk, op: Op, key: Key, digest: Oid)
    requires CollisionFree(env) && Sound(env, d) && Computes(env, d, op, key, digest)
    ensures |States(env, d, op)| == 3
    ensures forall i | 1 <= i < 3 :: HasDigest(env, States(env, d, op)[i], key, digest)
  {
    hide LoadEntry, States, Sound, GoodPublic, CollisionFree, Findable, Entries;
    LoadedFrom(env, d, IdOf(env, op.which));
    var name := Primary(env, key).hash;
    CachedUnderFacts(d.publics[name].data.ids, digest);
    NewDigestStates(env, d, op, name);
  }

  /** key_id_for hashes the key, and a crash comes before anything of it is written. */
  predicate InVain(env: Env, d: Disk, step: Step, key: Key, digest: Oid) {
    step.Crashes? && step.writes == 0 && Computes(env, d, step.op, key, digest)
  }

  function VainIn(env: Env, d: Disk, steps: seq<Step>, key: Key, digest: Oid): nat
    requires PossibleRun(env, d, steps)
    decreases |steps|
  {
    if steps == [] then 0
    else (if InVain(env, d, steps[0], key, digest) then 1 else 0)
         + VainIn(env, Left(env, d, steps[0]), steps[1..], key, digest)
  }

  lemma FirstState(env: Env, d: Disk, op: Op)
    ensures States(env, d, op)[0] == d
  {
    hide LoadEntry, CachedUnder, IndexAdd;
  }

  /** key_id_for's own hashing of a key under an algorithm gets as far as a write at most once over
      any run, however often operations are cut short, and does not happen where it is cached. */
  lemma {:induction false} ComputedAtMostOnce(env: Env, d: Disk, steps: seq<Step>, key: Key, digest: Oid)
    requires CollisionFree(env) && Sound(env, d) && PossibleRun(env, d, steps)
    ensures HasDigest(env, d, key, digest) ==> ComputedIn(env, d, steps, key, digest) == 0
    ensures ComputedIn(env, d, steps, key, digest) <= 1 + VainIn(env, d, steps, key, digest)
    decreases |steps|
  {
    hide Sound, States, CollisionFree, Computes, Lists, Build;
    if steps != [] {
      var e := Left(env, d, steps[0]);
      EveryStateSound(env, d, steps[0].op);
      ComputedAtMostOnce(env, e, steps[1..], key, digest);
      if HasDigest(env, d, key, digest) {
        CachedIsNotComputed(env, d, steps[0].op, key, digest);
        StillHasDigest(env, d, e, key, digest);
      } else if Computes(env, d, steps[0].op, key, digest) {
        ComputedIsCached(env, d, steps[0].op, key, digest);
        FirstState(env, d, steps[0].op);
      }
    }
  }

  // ---- every hashing ------------------------------------------------------------------------------------

  /** The operation is given the key itself, and computes its primary id to find the file. */
  predicate HandsOver(op: Op, key: Key) {
    match op
    case Add(k, _) => k == key
    case AddSecret(k, _, _) => k == key
    case IdFor(which, _, _, _) => which == ByKey(key)
    case _ => false
  }

  /** How often the operation hashes the key under the algorithm, for whatever purpose. */
  function Hashings(env: Env, d: Disk, op: Op, key: Key, digest: Oid): nat {
    (if digest == SHA256 && HandsOver(op, key) then 1 else 0) + if Computes(env, d, op, key, digest) then 1 else 0
  }

  function HashedIn(env: Env, d: Disk, steps: seq<Step>, key: Key, digest: Oid): nat
    requires PossibleRun(env, d, steps)
    decreases |steps|
  {
    if steps == [] then 0
    else Hashings(env, d, steps[0].op, key, digest) + HashedIn(env, Left(env, d, steps[0]), steps[1..], key, digest)
  }

  function HandedIn(steps: seq<Step>, key: Key): nat {
    if steps == [] then 0 else (if HandsOver(steps[0].op, key) then 1 else 0) + HandedIn(steps[1..], key)
  }

  /** The primary digest is never the one key_id_for finds missing. */
  lemma PrimaryIsNotComputed(env: Env, d: Disk, op: Op, key: Key)
    requires CollisionFree(env) && Sound(env, d)
    ensures !Computes(env, d, op, key, SHA256)
  {
    if op.IdFor? && LoadEntry(env, d, IdOf(env, op.which)).Ok? {
      var data := LoadEntry(env, d, IdOf(env, op.which)).value;
      LoadedFrom(env, d, IdOf(env, op.which));
      CachedUnderFacts(data.ids, SHA256);
      assert data.ids[0] in data.ids;
    }
  }

  /** A cached digest is computed again if and only if it is the primary one and the caller hands over
      the key itself rather than an id of it. */
  lemma CachedIsHashedAgain(env: Env, d: Disk, op: Op, key: Key, digest: Oid)
    requires CollisionFree(env) && Sound(env, d) && HasDigest(env, d, key, digest)
    ensures Hashings(env, d, op, key, digest) > 0 <==> digest == SHA256 && HandsOver(op, key)
  {
    hide Computes;
    CachedIsNotComputed(env, d, op, key, digest);
  }

  /** Such a call: the key is there, its primary id cached, the answer is that id and nothing is
      written, yet the key is hashed anew. */
  lemma PrimaryHashedAgain(env: Env, key: Key, salt: Bytes, salt1: Bytes, salt2: Bytes)
    requires CollisionFree(env)
    ensures var d, op := AddPublicKey(env, EMPTY, key, salt).Last(), IdFor(ByKey(key), SHA256, salt1, salt2);
            && HasDigest(env, d, key, SHA256) && Hashings(env, d, op, key, SHA256) == 1
            && States(env, d, op) == [d] && Ask(env, d, op) == AnId(Primary(env, key))
  {
    var d := AddPublicKey(env, EMPTY, key, salt).Last();
    var file := d.publics[Primary(env, key).hash];
    assert file == MakePublic(env, EntryData(key, [Primary(env, key)]), Primary(env, key).hash, salt);
    assert Primary(env, key) in file.data.ids;
    assert LoadEntry(env, d, Primary(env, key)) == Ok(file.data);
    hide LoadEntry;
  }

  /** Over any run: the primary digest is computed exactly as often as the key is handed over; any
      other at most once, and once more for each time a crash came before it was written. */
  lemma {:induction false} HashedOverRuns(env: Env, d: Disk, steps: seq<Step>, key: Key, digest: Oid)
    requires CollisionFree(env) && Sound(env, d) && PossibleRun(env, d, steps)
    ensures digest == SHA256 ==> HashedIn(env, d, steps, key, digest) == HandedIn(steps, key)
    ensures digest != SHA256 ==> HashedIn(env, d, steps, key, digest) <= 1 + VainIn(env, d, steps, key, digest)
    ensures digest != SHA256 && HasDigest(env, d, key, digest) ==> HashedIn(env, d, steps, key, digest) == 0
  {
    ComputedAtMostOnce(env, d, steps, key, digest);
    HashedIsComputedOrHanded(env, d, steps, key, digest);
  }

  lemma {:induction false} HashedIsComputedOrHanded(env: Env, d: Disk, steps: seq<Step>, key: Key, digest: Oid)
    requires CollisionFree(env) && Sound(env, d) && PossibleRun(env, d, steps)
    ensures HashedIn(env, d, steps, key, digest)
         == if digest == SHA256 then HandedIn(steps, key) else ComputedIn(env, d, steps, key, digest)
    decreases |steps|
  {
    hide Sound, States, CollisionFree, Computes, HandsOver;
    if steps != [] {
      EveryStateSound(env, d, steps[0].op);
      PrimaryIsNotComputed(env, d, steps[0].op, key);
      HashedIsComputedOrHanded(env, Left(env, d, steps[0]), steps[1..], key, digest);
    }
  }

  lemma StillHasDigest(env: Env, d: Disk, e: Disk, key: Key, digest: Oid)
    requires HasDigest(env, d, key, digest) && Grows(d, e)
    ensures HasDigest(env, e, key, digest)
  {
  }

  // ---- what a crash can lose ------------------------------------------------------------------------------

  /** An id that is not cached is not in the index either. */
  lemma NotCachedNotIndexed(env: Env, d: Disk, name: Name, digest: Oid)
    requires CollisionFree(env) && Sound(env, d) && name in d.publics && !CachesDigest(d, name, digest)
    ensures !InIndex(d, Build(env, d.publics[name].data.key, digest))
  {
    assert GoodPublic(env, d.publics[name], name);
    forall e | e in Entries(d) ensures e.id != Build(env, d.publics[name].data.key, digest) {
      GoodListed(env, d, e.target, e.id);
    }
  }

  lemma NewIdDiffers(env: Env, d: Disk, name: Name, id: KeyId, n: Name, digest: Oid)
    requires CollisionFree(env) && Sound(env, d) && Lists(d, name, id) && n in d.publics && !CachesDigest(d, n, digest)
    ensures id != Build(env, d.publics[n].data.key, digest)
  {
    GoodListed(env, d, name, id);
    assert GoodPublic(env, d.publics[n], n);
  }

  /** A cached id missing from the index stays missing: it is added only when it is computed. */
  lemma MissingStaysMissing(env: Env, d: Disk, name: Name, id: KeyId, op: Op)
    requires CollisionFree(env) && Sound(env, d) && Lists(d, name, id) && !InIndex(d, id)
    ensures forall s <- States(env, d, op) :: !InIndex(s, id)
  {
    hide KeyIdFor, Sound, Lists;
    match op
    case IdFor(_, _, _, _) => StillMissing(env, d, name, id, op);
    case Add(key, salt) => AddPublicKeeps(env, d, key, salt);
    case _ =>
  }

  lemma StillMissing(env: Env, d: Disk, name: Name, id: KeyId, op: Op)
    requires CollisionFree(env) && Sound(env, d) && Lists(d, name, id) && !InIndex(d, id) && op.IdFor?
    ensures forall s <- States(env, d, op) :: !InIndex(s, id)
  {
    hide LoadEntry, Sound, States, Findable, GoodPublic, CollisionFree;
    var loaded := LoadEntry(env, d, IdOf(env, op.which));
    if loaded.Err? {
      IdForMisses(env, d, op);
    } else {
      LoadedFrom(env, d, IdOf(env, op.which));
      var n := Primary(env, loaded.value.key).hash;
      if CachesDigest(d, n, op.digest) {
        OldDigestStates(env, d, op, n);
      } else {
        NewIdDiffers(env, d, name, id, n, op.digest);
        NewDigestStates(env, d, op, n);
      }
    }
  }

  lemma IdForMisses(env: Env, d: Disk, op: Op)
    requires op.IdFor? && LoadEntry(env, d, IdOf(env, op.which)).Err?
    ensures States(env, d, op) == [d]
  {
    hide LoadEntry;
  }

  lemma {:induction false} StaysLost(env: Env, d: Disk, name: Name, id: KeyId, steps: seq<Step>)
    requires CollisionFree(env) && Sound(env, d) && Lists(d, name, id) && !InIndex(d, id) && PossibleRun(env, d, steps)
    ensures var e := Final(env, d, steps); Sound(env, e) && Lists(e, name, id) && !InIndex(e, id)
    decreases |steps|
  {
    hide Sound, States, CollisionFree, InIndex, Lists;
    if steps != [] {
      EveryStateSound(env, d, steps[0].op);
      MissingStaysMissing(env, d, name, id, steps[0].op);
      StaysLost(env, Left(env, d, steps[0]), name, id, steps[1..]);
    }
  }

  lemma LostLookup(env: Env, e: Disk, name: Name, key: Key, id: KeyId)
    requires CollisionFree(env) && Sound(env, e) && Lists(e, name, id) && !InIndex(e, id)
             && id == Build(env, key, id.digest)
    ensures GetPublicKey(env, e, id) == if id.hash == name then Ok(key) else Err(KeyNotFound)
  {
    LookupExact(env, e, name, id);
    GoodListed(env, e, name, id);
    if Lists(e, id.hash, id) {
      OneOwner(env, e, name, id.hash, id);
    }
    hide LoadEntry, GoodPublic, Sound;
  }

  lemma LostAtTheCrash(env: Env, d: Disk, op: Op, name: Name)
    requires CollisionFree(env) && Sound(env, d) && op.IdFor? && Lists(d, name, IdOf(env, op.which))
    requires Findable(d, IdOf(env, op.which)) && !CachesDigest(d, name, op.digest)
    ensures |States(env, d, op)| == 3
    ensures var id, mid := Build(env, d.publics[name].data.key, op.digest), States(env, d, op)[1];
            Sound(env, mid) && Lists(mid, name, id) && !InIndex(mid, id)
  {
    hide Sound, States, Findable;
    EveryStateSound(env, d, op);
    NewDigestStates(env, d, op, name);
    NotCachedNotIndexed(env, d, name, op.digest);
  }

  /** A crash between the two writes of key_id_for leaves an id cached that no later lookup finds,
      whatever is done next, unless the id's hash happens to be the entry's own file name. */
  lemma CrashLosesTheLookup(env: Env, d: Disk, op: Op, name: Name, steps: seq<Step>)
    requires CollisionFree(env) && Sound(env, d) && op.IdFor? && Lists(d, name, IdOf(env, op.which))
    requires Findable(d, IdOf(env, op.which)) && !CachesDigest(d, name, op.digest)
    requires PossibleRun(env, d, [Crashes(op, 1)] + steps)
    ensures var key := d.publics[name].data.key; var id := Build(env, key, op.digest);
            var e := Final(env, d, [Crashes(op, 1)] + steps);
            Lists(e, name, id) && GetPublicKey(env, e, id) == if id.hash == name then Ok(key) else Err(KeyNotFound)
  {
    hide Sound, States, Findable, InIndex, CollisionFree;
    var key := d.publics[name].data.key;
    var id := Build(env, key, op.digest);
    LostAtTheCrash(env, d, op, name);
    var mid := States(env, d, op)[1];
    assert ([Crashes(op, 1)] + steps)[1..] == steps;
    StaysLost(env, mid, name, id, steps);
    LostLookup(env, Final(env, mid, steps), name, key, id);
  }

  // ---- which crashes lose nothing ------------------------------------------------------------------------------

  /** key_id_for stopped between its two writes. */
  predicate CutShort(step: Step) {
    step.Crashes? && step.writes == 1 && step.op.IdFor?
  }

  lemma CachesPrimary(env: Env, d: Disk, name: Name)
    requires Sound(env, d) && name in d.publics
    ensures GoodPublic(env, d.publics[name], name) && CachesDigest(d, name, SHA256)
  {
    assert GoodPublic(env, d.publics[name], name);
    assert d.publics[name].data.ids[0] in d.publics[name].data.ids;
  }

  lemma CutShortIsIncomplete(env: Env, d: Disk, op: Op, name: Name)
    requires CollisionFree(env) && Sound(env, d) && op.IdFor? && Lists(d, name, IdOf(env, op.which))
    requires Findable(d, IdOf(env, op.which)) && !CachesDigest(d, name, op.digest)
    ensures |States(env, d, op)| == 3 && !Complete(States(env, d, op)[1])
  {
    LostAtTheCrash(env, d, op, name);
    CachesPrimary(env, d, name);
    hide States, Findable, Sound, CollisionFree, GoodPublic;
    assert op.digest != SHA256;
  }

  lemma IdForComplete(env: Env, d: Disk, op: Op)
    requires CollisionFree(env) && Sound(env, d) && Complete(d) && op.IdFor?
    ensures var states := States(env, d, op);
            states == [d] || (|states| == 3 && states[0] == d && !Complete(states[1]) && Complete(states[2]))
  {
    hide LoadEntry, States, Sound, CollisionFree, Findable, GoodPublic, Complete;
    var loaded := LoadEntry(env, d, IdOf(env, op.which));
    if loaded.Err? {
      IdForMisses(env, d, op);
    } else {
      LoadedFrom(env, d, IdOf(env, op.which));
      var n := Primary(env, loaded.value.key).hash;
      if CachesDigest(d, n, op.digest) {
        OldDigestStates(env, d, op, n);
      } else {
        CutShortIsIncomplete(env, d, op, n);
        FirstState(env, d, op);
        IdForRunsComplete(env, d, op, n);
      }
    }
  }

  lemma IdForRunsComplete(env: Env, d: Disk, op: Op, name: Name)
    requires CollisionFree(env) && Sound(env, d) && Complete(d) && op.IdFor?
    requires Lists(d, name, IdOf(env, op.which)) && Findable(d, IdOf(env, op.which))
    ensures Complete(After(env, d, op))
  {
    KeyIdForKeeps(env, d, op.which, op.digest, op.salt1, op.salt2, name);
    hide KeyIdFor, Complete, Sound, OneMore, Grows;
  }

  /** From a directory with nothing missing, a step leaves one with nothing missing if and only if it
      is not key_id_for stopped between its two writes. */
  lemma OnlyCutShortLoses(env: Env, d: Disk, step: Step)
    requires CollisionFree(env) && Sound(env, d) && Complete(d) && Possible(env, d, step)
    ensures Complete(Left(env, d, step)) <==> !CutShort(step)
    ensures !CutShort(step) ==> Left(env, d, step) == d || Left(env, d, step) == After(env, d, step.op)
  {
    hide Complete, Sound, KeyIdFor, CollisionFree;
    FirstState(env, d, step.op);
    match step.op
    case IdFor(_, _, _, _) => IdForComplete(env, d, step.op);
    case Add(key, salt) => AddPublicKeeps(env, d, key, salt);
    case AddSecret(key, secret, salt) => AddPrivateKeeps(env, d, key, secret, salt);
    case _ =>
  }

  lemma IncompleteStays(env: Env, d: Disk, steps: seq<Step>)
    requires CollisionFree(env) && Sound(env, d) && !Complete(d) && PossibleRun(env, d, steps)
    ensures !Complete(Final(env, d, steps))
  {
    var name, id :| Lists(d, name, id) && id.digest != SHA256 && !InIndex(d, id);
    StaysLost(env, d, name, id, steps);
  }

  /** Over any run, whatever else is cut short: no cached id is missing from the index at the end if
      and only if key_id_for was never stopped between its two writes. */
  lemma {:induction false} CompleteUnlessCutShort(env: Env, d: Disk, steps: seq<Step>)
    requires CollisionFree(env) && Sound(env, d) && Complete(d) && PossibleRun(env, d, steps)
    ensures Complete(Final(env, d, steps)) <==> forall step <- steps :: !CutShort(step)
    decreases |steps|
  {
    hide Sound, States, CollisionFree, Complete, CutShort;
    if steps != [] {
      var e := Left(env, d, steps[0]);
      EveryStateSound(env, d, steps[0].op);
      OnlyCutShortLoses(env, d, steps[0]);
      assert steps[0] in steps && forall step <- steps :: step == steps[0] || step in steps[1..];
      if CutShort(steps[0]) {
        IncompleteStays(env, e, steps[1..]);
      } else {
        CompleteUnlessCutShort(env, e, steps[1..]);
      }
    }
  }

  /** The plain map does an operation altogether or, when a crash leaves no trace of it, not at all. */
  function PlainLeft(env: Env, d: Disk, m: Plain, step: Step): Plain
    requires Possible(env, d, step)
  {
    if Left(env, d, step) == d then m else PlainAfter(env, m, step.op)
  }

  function PlainFinal(env: Env, d: Disk, m: Plain, steps: seq<Step>): Plain
    requires PossibleRun(env, d, steps)
    decreases |steps|
  {
    if steps == [] then m
    else PlainFinal(env, Left(env, d, steps[0]), PlainLeft(env, d, m, steps[0]), steps[1..])
  }

  /** With crashes anywhere but there, the directory is still the plain map: every later operation
      answers as the map does that has done each operation altogether or not at all. */
  lemma {:induction false} OtherCrashesAreHarmless(env: Env, d: Disk, m: Plain, steps: seq<Step>, op: Op)
    requires Implements(env, d, m) && PossibleRun(env, d, steps) && forall step <- steps :: !CutShort(step)
    ensures Implements(env, Final(env, d, steps), PlainFinal(env, d, m, steps))
    ensures Ask(env, Final(env, d, steps), op) == PlainAnswer(env, PlainFinal(env, d, m, steps), op)
    decreases |steps|
  {
    hide States, PlainAfter, CutShort, Ask, PlainAnswer, Complete, Sound, CollisionFree, Represents;
    if steps == [] {
      AnswersAgree(env, d, m, op);
    } else {
      assert steps[0] in steps && forall step <- steps[1..] :: step in steps;
      OnlyCutShortLoses(env, d, steps[0]);
      StepAgrees(env, d, m, steps[0].op);
      OtherCrashesAreHarmless(env, Left(env, d, steps[0]), PlainLeft(env, d, m, steps[0]), steps[1..], op);
    }
  }

  /** Right after the cut: the id is answered, with nothing more written, and not found. */
  lemma AnsweredButNotFound(env: Env, d: Disk, op: Op, name: Name)
    requires CollisionFree(env) && Sound(env, d) && op.IdFor? && op.which.ByKey?
    requires Lists(d, name, IdOf(env, op.which)) && !CachesDigest(d, name, op.digest)
    requires op.which.key == d.publics[name].data.key
    ensures |States(env, d, op)| == 3
    ensures var mid, id := States(env, d, op)[1], Build(env, op.which.key, op.digest);
            && Ask(env, mid, op) == AnId(id)
            && Ask(env, mid, Get(id)) == if id.hash == name then AKey(op.which.key) else Failed(KeyNotFound)
  {
    PrimaryIsFindable(env, d, name, op.which.key);
    LostAtTheCrash(env, d, op, name);
    NewDigestStates(env, d, op, name);
    var mid, id := States(env, d, op)[1], Build(env, op.which.key, op.digest);
    LostLookup(env, mid, name, op.which.key, id);
    PrimaryIsFindable(env, mid, name, op.which.key);
    hide GetPublicKey, States, Sound, Findable, CollisionFree;
    AnswersCached(env, mid, op, name, id);
  }

  lemma PrimaryIsFindable(env: Env, d: Disk, name: Name, key: Key)
    requires Sound(env, d) && Lists(d, name, Primary(env, key))
    ensures Findable(d, Primary(env, key)) && name == Primary(env, key).hash
  {
    GoodListed(env, d, name, Primary(env, key));
  }

  lemma AnswersCached(env: Env, d: Disk, op: Op, name: Name, id: KeyId)
    requires CollisionFree(env) && Sound(env, d) && op.IdFor? && id.digest == op.digest
    requires Lists(d, name, IdOf(env, op.which)) && Findable(d, IdOf(env, op.which)) && Lists(d, name, id)
    ensures Ask(env, d, op) == AnId(id)
  {
    GoodListed(env, d, name, id);
    KeyIdForWrites(env, d, op.which, op.digest, op.salt1, op.salt2, name);
    hide KeyIdFor, IndexAdd;
    assert CachesDigest(d, name, op.digest);
  }

  /** A digest function free of collisions under which no two algorithms agree. */
  function Tagging(digest: Oid, key: Key): Bytes {
    [if digest == SHA256 then 0 else 1] + key
  }

  lemma TaggingIsCollisionFree(master: Bytes)
    ensures CollisionFree(Env(master, Tagging))
  {
    forall digest, k1, k2 | Tagging(digest, k1) == Tagging(digest, k2) ensures k1 == k2 {
      assert k1 == Tagging(digest, k1)[1..] && k2 == Tagging(digest, k2)[1..];
    }
  }

  lemma AddedAlone(env: Env, key: Key, salt: Bytes)
    ensures var d, primary := After(env, EMPTY, Add(key, salt)), Primary(env, key);
            && Sound(env, d) && Lists(d, primary.hash, primary)
            && d.publics[primary.hash].data == EntryData(key, [primary])
  {
    AddPublicKeeps(env, EMPTY, key, salt);
  }

  /** A run that meets the crash: the key is added, its id under another algorithm asked for and the
      process stopped between the writes; asked for again the id is answered, and not found. */
  lemma CrashWitness(master: Bytes, salt: Bytes)
    ensures var env := Env(master, Tagging);
            var steps := [Runs(Add([7], salt)), Crashes(IdFor(ByKey([7]), [1], salt, salt), 1)];
            && CollisionFree(env) && PossibleRun(env, EMPTY, steps)
            && var e := Final(env, EMPTY, steps);
               && Ask(env, e, IdFor(ByKey([7]), [1], salt, salt)) == AnId(KeyId([1], [1, 7]))
               && Ask(env, e, Get(KeyId([1], [1, 7]))) == Failed(KeyNotFound)
  {
    hide States, Ask, CollisionFree;
    var env := Env(master, Tagging);
    var op := IdFor(ByKey([7]), [1], salt, salt);
    TaggingIsCollisionFree(master);
    AddedAlone(env, [7], salt);
    var d := After(env, EMPTY, Add([7], salt));
    AnsweredButNotFound(env, d, op, Primary(env, [7]).hash);
    assert Primary(env, [7]).hash == [0, 7] && Build(env, [7], [1]) == KeyId([1], [1, 7]);
    TwoSteps(env, EMPTY, Runs(Add([7], salt)), Crashes(op, 1));
  }

  lemma TwoSteps(env: Env, d: Disk, a: Step, b: Step)
    requires Possible(env, d, a) && Possible(env, Left(env, d, a), b)
    ensures PossibleRun(env, d, [a, b]) && Final(env, d, [a, b]) == Left(env, Left(env, d, a), b)
  {
    hide States;
    var e := Left(env, d, a);
    assert [a, b][1..] == [b] && [b][1..] == [];
    assert PossibleRun(env, e, [b]);
    assert Final(env, e, [b]) == Final(env, Left(env, e, b), []);
    assert Final(env, d, [a, b]) == Final(env, e, [b]);
  }

  // ---- tampering -------------------------------------------------------------------------------------------

  /** Files of one directory found under any names in another; the index there may be anything. */
  ghost predicate CopiesOf(e: Disk, d: Disk) {
    && (forall name <- e.publics :: exists n :: n in d.publics && e.publics[name] == d.publics[n])
    && (forall name <- e.privates :: exists n :: n in d.privates && e.privates[name] == d.privates[n])
  }

  /** A copied file verifies under its own name only. */
  lemma CopyVerifies(env: Env, d: Disk, e: Disk, name: Name)
    requires Sound(env, d) && CopiesOf(e, d) && name in e.publics && Verified(env, e.publics[name], name).Ok?
    ensures name in d.publics && e.publics[name] == d.publics[name]
  {
    var n :| n in d.publics && e.publics[name] == d.publics[n];
    assert GoodPublic(env, d.publics[n], n);
  }

  /** However the public files of a directory are copied or swapped and whatever its index says, a
      lookup yields the entry that lists the id or an error. */
  lemma SwappedPublicKeys(env: Env, d: Disk, e: Disk, name: Name, id: KeyId)
    requires CollisionFree(env) && Sound(env, d) && CopiesOf(e, d) && LoadEntry(env, e, id).Ok?
    ensures exists n :: Lists(d, n, id) && LoadEntry(env, e, id) == Ok(d.publics[n].data)
    ensures Lists(d, name, id) ==> GetPublicKey(env, e, id) == Ok(d.publics[name].data.key)
  {
    LoadedListsId(env, e, id);
    var n :| n in e.publics && Verified(env, e.publics[n], n) == LoadEntry(env, e, id);
    CopyVerifies(env, d, e, n);
    assert GoodPublic(env, d.publics[n], n);
    assert Lists(d, n, id);
    if Lists(d, name, id) {
      OneOwner(env, d, name, n, id);
    }
  }

  /** A copied private file unwraps under its own name only. */
  lemma CopyUnwraps(env: Env, d: Disk, e: Disk, name: Name)
    requires Sound(env, d) && CopiesOf(e, d) && Unwrapped(env, e, name).Ok?
    ensures name in d.privates && Unwrapped(env, e, name) == Ok(d.privates[name].wrapped.plain)
    ensures Lists(d, name, KeyId(SHA256, name))
  {
    var n :| n in d.privates && e.privates[name] == d.privates[n];
    assert GoodPrivate(env, d.privates[n], n);
    assert GoodPublic(env, d.publics[n], n);
  }

  /** The same for private keys: the bytes filed for the key of that id, or an error. */
  lemma SwappedPrivateKeys(env: Env, d: Disk, e: Disk, id: KeyId)
    requires CollisionFree(env) && Sound(env, d) && CopiesOf(e, d) && GetPrivateKey(env, e, id).Ok?
    ensures exists n ::
              n in d.privates && Lists(d, n, id) && GetPrivateKey(env, e, id) == Ok(d.privates[n].wrapped.plain)
  {
    hide LoadEntry, Unwrapped, CopiesOf, CollisionFree;
    if id.digest == SHA256 {
      CopyUnwraps(env, d, e, id.hash);
      assert id == KeyId(SHA256, id.hash);
    } else {
      SwappedPublicKeys(env, d, e, [], id);
      var k :| Lists(d, k, id) && LoadEntry(env, e, id) == Ok(d.publics[k].data);
      GoodListed(env, d, k, id);
      CopyUnwraps(env, d, e, k);
    }
  }
}
