/** What the key directory keeps, and the plain map it is a fast form of. */
module KeystoreProofs {
  import opened Base
  import opened Crypto
  import opened Keystore

  // ---- the invariant ------------------------------------------------------------------------------

  /** Per algorithm. Two algorithms may well agree on a value. */
  ghost predicate CollisionFree(env: Env) {
    forall digest, k1, k2 :: env.hash(digest, k1) == env.hash(digest, k2) ==> k1 == k2
  }

  predicate DistinctDigests(ids: seq<KeyId>) {
    forall i, j | 0 <= i < j < |ids| :: ids[i].digest != ids[j].digest
  }

  /** The primary id first, under whose hash the entry is filed; every id the digest of the key it
      says; no algorithm twice. */
  predicate GoodIds(env: Env, data: EntryData, name: Name) {
    && data.ids != [] && data.ids[0] == Primary(env, data.key) && name == data.ids[0].hash
    && (forall id <- data.ids :: id == Build(env, data.key, id.digest))
    && DistinctDigests(data.ids)
  }

  predicate GoodPublic(env: Env, f: PublicFile, name: Name) {
    f.PublicFile? && f.tag == EntryMac(env.master, f.salt, name, f.data) && GoodIds(env, f.data, name)
  }

  predicate GoodPrivate(env: Env, f: PrivateFile, name: Name) {
    f.PrivateFile? && f.id == KeyId(SHA256, name)
    && f.wrapped.Wrap? && f.wrapped == Wrap(env.master, f.salt, f.id, f.wrapped.plain)
  }

  /** The file of that name lists the id. */
  predicate Lists(d: Disk, name: Name, id: KeyId) {
    name in d.publics && d.publics[name].PublicFile? && id in d.publics[name].data.ids
  }

  function Entries(d: Disk): seq<IndexEntry> {
    if d.index.Some? && d.index.value.IndexFile? then d.index.value.entries else []
  }

  predicate GoodIndex(env: Env, d: Disk) {
    && (d.index.Some? ==>
          d.index.value.IndexFile?
          && d.index.value.tag == IndexMac(env.master, d.index.value.salt, d.index.value.entries))
    && forall e <- Entries(d) :: Lists(d, e.target, e.id)
  }

  /** Holds at every crash point: files are filed right, a private file has its public file, and
      every index entry targets an existing file that lists its id. */
  predicate Sound(env: Env, d: Disk) {
    && (forall name <- d.publics :: GoodPublic(env, d.publics[name], name))
    && (forall name <- d.privates :: name in d.publics && GoodPrivate(env, d.privates[name], name))
    && GoodIndex(env, d)
  }

  predicate InIndex(d: Disk, id: KeyId) {
    exists e <- Entries(d) :: e.id == id
  }

  /** Holds between operations that ran to their end: no alternate id is missing from the index. */
  ghost predicate Complete(d: Disk) {
    forall name, id | Lists(d, name, id) && id.digest != SHA256 :: InIndex(d, id)
  }

  // ---- lookups ------------------------------------------------------------------------------------------

  lemma GoodListed(env: Env, d: Disk, name: Name, id: KeyId)
    requires Sound(env, d) && Lists(d, name, id)
    ensures GoodPublic(env, d.publics[name], name) && id == Build(env, d.publics[name].data.key, id.digest)
    ensures id.digest == SHA256 ==> name == id.hash
  {
    var ids := d.publics[name].data.ids;
    var i :| 0 <= i < |ids| && ids[i] == id;
    assert id.digest == SHA256 ==> i == 0;
  }

  /** An id belongs to one key. */
  lemma OneOwner(env: Env, d: Disk, n1: Name, n2: Name, id: KeyId)
    requires Sound(env, d) && CollisionFree(env) && Lists(d, n1, id) && Lists(d, n2, id)
    ensures n1 == n2
  {
    GoodListed(env, d, n1, id);
    GoodListed(env, d, n2, id);
  }

  lemma {:induction false} TargetIsAnEntry(entries: seq<IndexEntry>, id: KeyId)
    ensures TargetOf(entries, id).Some? <==> exists e <- entries :: e.id == id
    ensures TargetOf(entries, id).Some? ==> IndexEntry(id, TargetOf(entries, id).value) in entries
  {
    if entries != [] {
      TargetIsAnEntry(entries[1..], id);
      assert forall e <- entries :: e == entries[0] || e in entries[1..];
    }
  }

  /** Which ids a lookup finds: those of the file the id itself names, and those in the index. */
  predicate Findable(d: Disk, id: KeyId) {
    Lists(d, id.hash, id) || InIndex(d, id)
  }

  lemma NamedExact(env: Env, d: Disk, name: Name, id: KeyId)
    requires Sound(env, d)
    ensures LoadNamed(env, d, name, id) == Ok(if Lists(d, name, id) then Some(d.publics[name].data) else None)
  {
    if name in d.publics {
      assert GoodPublic(env, d.publics[name], name);
    }
  }

  lemma IndexExact(env: Env, d: Disk, id: KeyId)
    requires Sound(env, d)
    ensures TargetOf(Entries(d), id).Some? <==> InIndex(d, id)
    ensures TargetOf(Entries(d), id).Some? ==>
              && Lists(d, TargetOf(Entries(d), id).value, id)
              && LoadViaIndex(env, d, id) == Ok(d.publics[TargetOf(Entries(d), id).value].data)
    ensures TargetOf(Entries(d), id).None? ==> LoadViaIndex(env, d, id) == Err(KeyNotFound)
  {
    TargetIsAnEntry(Entries(d), id);
    if TargetOf(Entries(d), id).Some? {
      NamedExact(env, d, TargetOf(Entries(d), id).value, id);
    }
    hide LoadNamed;
  }

  /** A lookup yields the one entry that lists the id if and only if the id is findable, and is
      otherwise KeyNotFound, even when the id's hash is another key's file name. */
  lemma LookupExact(env: Env, d: Disk, name: Name, id: KeyId)
    requires Sound(env, d) && CollisionFree(env)
    ensures LoadEntry(env, d, id).Ok? <==> Findable(d, id)
    ensures LoadEntry(env, d, id).Err? ==> LoadEntry(env, d, id).error == KeyNotFound
    ensures LoadEntry(env, d, id).Ok? && Lists(d, name, id) ==> LoadEntry(env, d, id) == Ok(d.publics[name].data)
    ensures Findable(d, id) ==> exists n :: Lists(d, n, id)
  {
    hide Sound, CollisionFree, Lists, InIndex, LoadNamed, LoadViaIndex, Entries, TargetOf;
    NamedExact(env, d, id.hash, id);
    IndexExact(env, d, id);
    if Lists(d, name, id) {
      if Lists(d, id.hash, id) {
        OneOwner(env, d, name, id.hash, id);
      } else if InIndex(d, id) {
        OneOwner(env, d, name, TargetOf(Entries(d), id).value, id);
      }
    }
  }

  /** Once every operation has run to its end, an id is findable exactly when some entry lists it. */
  lemma CompleteFindsAll(env: Env, d: Disk, name: Name, id: KeyId)
    requires Sound(env, d) && Complete(d) && Lists(d, name, id)
    ensures Findable(d, id)
  {
    GoodListed(env, d, name, id);
  }

  // ---- what operations keep -------------------------------------------------------------------------------

  /** Ids, files and index entries are only ever added, and no key's private file changes. */
  ghost predicate Grows(d: Disk, e: Disk) {
    && (forall name, id | Lists(d, name, id) :: Lists(e, name, id))
    && (forall name <- d.privates :: name in e.privates && e.privates[name] == d.privates[name])
    && (forall x <- Entries(d) :: x in Entries(e))
  }

  /** The public files list one id more, and only that. */
  ghost predicate OneMore(d: Disk, e: Disk, name: Name, id: KeyId) {
    forall n, i :: Lists(e, n, i) <==> Lists(d, n, i) || (n == name && i == id)
  }

  lemma {:induction false} CachedUnderFacts(ids: seq<KeyId>, digest: Oid)
    ensures CachedUnder(ids, digest).None? <==> forall id <- ids :: id.digest != digest
    ensures CachedUnder(ids, digest).Some? ==>
              CachedUnder(ids, digest).value in ids && CachedUnder(ids, digest).value.digest == digest
  {
    if ids != [] {
      CachedUnderFacts(ids[1..], digest);
      assert forall id <- ids :: id == ids[0] || id in ids[1..];
    }
  }

  /** Writing a good file that drops none of the ids its predecessor listed. */
  lemma FilingKeeps(env: Env, d: Disk, name: Name, file: PublicFile)
    requires Sound(env, d) && GoodPublic(env, file, name)
    requires forall id | Lists(d, name, id) :: id in file.data.ids
    ensures var e := d.(publics := d.publics[name := file]);
            && Sound(env, e) && Grows(d, e) && Entries(e) == Entries(d)
            && forall n, id :: Lists(e, n, id) <==> if n == name then id in file.data.ids else Lists(d, n, id)
  {
    hide GoodPublic, GoodPrivate;
    var e := d.(publics := d.publics[name := file]);
    assert Entries(e) == Entries(d);
    assert file.PublicFile? by { GoodIsPublic(env, file, name); }
  }

  lemma GoodIsPublic(env: Env, file: PublicFile, name: Name)
    requires GoodPublic(env, file, name)
    ensures file.PublicFile?
  {
  }

  lemma AddPublicKeeps(env: Env, d: Disk, key: Key, salt: Bytes)
    requires Sound(env, d)
    ensures var e := AddPublicKey(env, d, key, salt).Last();
            && Sound(env, e) && Grows(d, e) && Entries(e) == Entries(d)
            && (Complete(d) ==> Complete(e))
            && forall n, id :: Lists(e, n, id) <==>
                 (Lists(d, n, id)
                  || (AddPublicKey(env, d, key, salt).result.Ok? && n == Primary(env, key).hash
                      && id == Primary(env, key)))
  {
    var primary := Primary(env, key);
    if primary.hash !in d.publics {
      var file := MakePublic(env, EntryData(key, [primary]), primary.hash, salt);
      assert GoodPublic(env, file, primary.hash);
      hide Sound, GoodPublic, Grows;
      FilingKeeps(env, d, primary.hash, file);
    } else {
      GrowsRefl(d);
    }
  }

  lemma AddPrivateKeeps(env: Env, d: Disk, key: Key, secret: Bytes, salt: Bytes)
    requires Sound(env, d)
    ensures var e := AddPrivateKey(env, d, key, secret, salt).Last(); Sound(env, e) && Grows(d, e)
    ensures Complete(d) ==> Complete(AddPrivateKey(env, d, key, secret, salt).Last())
  {
    hide GoodPublic;
    var e := AddPrivateKey(env, d, key, secret, salt).Last();
    assert Entries(e) == Entries(d);
    assert forall name, id :: Lists(e, name, id) <==> Lists(d, name, id);
    hide Lists, Entries;
  }

  /** The entry of one key with one more id. */
  function WithId(env: Env, d: Disk, name: Name, id: KeyId, salt: Bytes): Disk
    requires name in d.publics && d.publics[name].PublicFile?
  {
    var data := d.publics[name].data;
    d.(publics := d.publics[name := MakePublic(env, EntryData(data.key, data.ids + [id]), name, salt)])
  }

  /** After the first write. */
  lemma WithIdKeeps(env: Env, d: Disk, name: Name, digest: Oid, salt: Bytes)
    requires Sound(env, d) && name in d.publics
    requires forall id <- d.publics[name].data.ids :: id.digest != digest
    ensures var id := Build(env, d.publics[name].data.key, digest);
            var e := WithId(env, d, name, id, salt);
            && Sound(env, e) && Grows(d, e) && Entries(e) == Entries(d)
            && OneMore(d, e, name, id)
  {
    var data := d.publics[name].data;
    var id := Build(env, data.key, digest);
    assert GoodPublic(env, d.publics[name], name);
    var file := MakePublic(env, EntryData(data.key, data.ids + [id]), name, salt);
    assert file.data.ids[0] == data.ids[0];
    assert GoodPublic(env, file, name);
    hide Sound, Grows;
    FilingKeeps(env, d, name, file);
  }

  /** After the second. */
  lemma IndexAddKeeps(env: Env, d: Disk, id: KeyId, name: Name, salt: Bytes)
    requires Sound(env, d) && Lists(d, name, id)
    ensures var r := IndexAdd(env, d, id, name, salt);
            && r.result.Ok? && r.states == [d, r.Last()] && Sound(env, r.Last()) && Grows(d, r.Last())
            && Entries(r.Last()) == Entries(d) + [IndexEntry(id, name)]
            && (forall n, i :: Lists(r.Last(), n, i) <==> Lists(d, n, i))
  {
    var e := IndexAdd(env, d, id, name, salt).Last();
    hide GoodPublic, GoodPrivate;
    assert forall n, i :: Lists(e, n, i) <==> Lists(d, n, i);
  }

  predicate CachesDigest(d: Disk, name: Name, digest: Oid)
    requires name in d.publics && d.publics[name].PublicFile?
  {
    exists i <- d.publics[name].data.ids :: i.digest == digest
  }

  /** What key_id_for writes: nothing if the digest is cached, else the entry and then the index. */
  lemma KeyIdForWrites(env: Env, d: Disk, which: Which, digest: Oid, salt1: Bytes, salt2: Bytes, name: Name)
    requires Sound(env, d) && CollisionFree(env) && Lists(d, name, IdOf(env, which)) && Findable(d, IdOf(env, which))
    ensures var r, id := KeyIdFor(env, d, which, digest, salt1, salt2), Build(env, d.publics[name].data.key, digest);
            if CachesDigest(d, name, digest) then r.states == [d] && r.result == Ok(id) && Lists(d, name, id)
            else
              var cached := WithId(env, d, name, id, salt1);
              var indexed := IndexAdd(env, cached, id, name, salt2);
              && r.states == [d] + indexed.states
              && r.result == match indexed.result case Ok(_) => Ok(id) case Err(e) => Err(e)
  {
    LookupExact(env, d, name, IdOf(env, which));
    GoodListed(env, d, name, IdOf(env, which));
    CachedUnderFacts(d.publics[name].data.ids, digest);
    hide LoadEntry, CachedUnder, IndexAdd, Findable, GoodIndex;
  }

  /** The two writes together, from a directory without the digest. */
  lemma GrowsTrans(d: Disk, e: Disk, f: Disk)
    requires Grows(d, e) && Grows(e, f)
    ensures Grows(d, f)
  {
    hide Lists, Entries;
  }

  lemma TwoWritesKeep(env: Env, d: Disk, name: Name, digest: Oid, salt1: Bytes, salt2: Bytes)
    requires Sound(env, d) && name in d.publics && !CachesDigest(d, name, digest)
    ensures var id := Build(env, d.publics[name].data.key, digest);
            var cached := WithId(env, d, name, id, salt1);
            var r := IndexAdd(env, cached, id, name, salt2);
            && r.result.Ok? && r.states == [cached, r.Last()]
            && Sound(env, cached) && Grows(d, cached) && Sound(env, r.Last()) && Grows(d, r.Last())
            && Entries(r.Last()) == Entries(d) + [IndexEntry(id, name)]
            && OneMore(d, r.Last(), name, id)
            && r.Last().privates == d.privates
  {
    var id := Build(env, d.publics[name].data.key, digest);
    var cached := WithId(env, d, name, id, salt1);
    WithIdKeeps(env, d, name, digest, salt1);
    assert Lists(cached, name, id);
    hide Lists, Sound, Entries, WithId, IndexAdd;
    IndexAddKeeps(env, cached, id, name, salt2);
    var last := IndexAdd(env, cached, id, name, salt2).Last();
    GrowsTrans(d, cached, last);
  }

  lemma StillComplete(env: Env, d: Disk, e: Disk, name: Name, id: KeyId)
    requires Complete(d) && Entries(e) == Entries(d) + [IndexEntry(id, name)]
    requires OneMore(d, e, name, id)
    ensures Complete(e)
  {
    assert Entries(e)[|Entries(d)|].id == id;
    hide Lists;
    forall n, i | Lists(e, n, i) && i.digest != SHA256 ensures InIndex(e, i) {
      if i != id {
        assert InIndex(d, i);
      }
    }
  }

  /** Both writes as a run from the old directory to the new. */
  lemma KeyIdForShape(env: Env, d: Disk, which: Which, digest: Oid, salt1: Bytes, salt2: Bytes, name: Name)
    requires Sound(env, d) && CollisionFree(env) && Lists(d, name, IdOf(env, which)) && Findable(d, IdOf(env, which))
    requires !CachesDigest(d, name, digest)
    ensures var r, id := KeyIdFor(env, d, which, digest, salt1, salt2), Build(env, d.publics[name].data.key, digest);
            var cached := WithId(env, d, name, id, salt1);
            r.result == Ok(id) && r.states == [d, cached, IndexAdd(env, cached, id, name, salt2).Last()]
  {
    KeyIdForWrites(env, d, which, digest, salt1, salt2, name);
    TwoWritesKeep(env, d, name, digest, salt1, salt2);
    hide *;
  }

  lemma KeyIdForNew(env: Env, d: Disk, which: Which, digest: Oid, salt1: Bytes, salt2: Bytes, name: Name)
    requires Sound(env, d) && CollisionFree(env) && Lists(d, name, IdOf(env, which)) && Findable(d, IdOf(env, which))
    requires !CachesDigest(d, name, digest)
    ensures var r, id := KeyIdFor(env, d, which, digest, salt1, salt2), Build(env, d.publics[name].data.key, digest);
            && r.result == Ok(id) && |r.states| == 3 && r.states == [d, r.states[1], r.Last()]
            && Sound(env, r.states[1]) && Grows(d, r.states[1]) && Sound(env, r.Last()) && Grows(d, r.Last())
            && Entries(r.Last()) == Entries(d) + [IndexEntry(id, name)]
            && OneMore(d, r.Last(), name, id)
            && r.Last().privates == d.privates
  {
    assert name in d.publics;
    hide KeyIdFor, IndexAdd, Sound, Findable, Grows, WithId, Build, Entries, CollisionFree, OneMore, Lists,
         CachesDigest;
    KeyIdForShape(env, d, which, digest, salt1, salt2, name);
    TwoWritesKeep(env, d, name, digest, salt1, salt2);
  }

  /** From a sound directory, through sound ones that have lost nothing, to one that lists this id of
      this key as well and is otherwise the same. */
  ghost predicate KeepsAllBut(env: Env, d: Disk, states: seq<Disk>, name: Name, id: KeyId) {
    && states != [] && (forall s <- states :: Sound(env, s) && Grows(d, s))
    && var e := states[|states| - 1];
       OneMore(d, e, name, id) && e.privates == d.privates && (Complete(d) ==> Complete(e))
  }

  lemma KeepsNothingNew(env: Env, d: Disk, name: Name, id: KeyId)
    requires Sound(env, d) && Lists(d, name, id)
    ensures KeepsAllBut(env, d, [d], name, id)
  {
    GrowsRefl(d);
    NoMore(d, name, id);
    hide Sound, Grows, OneMore, Complete;
  }

  lemma KeepsTheNew(env: Env, d: Disk, c: Disk, e: Disk, name: Name, id: KeyId)
    requires Sound(env, d) && Sound(env, c) && Grows(d, c) && Sound(env, e) && Grows(d, e) && OneMore(d, e, name, id)
    requires Entries(e) == Entries(d) + [IndexEntry(id, name)] && e.privates == d.privates
    ensures KeepsAllBut(env, d, [d, c, e], name, id)
  {
    GrowsRefl(d);
    hide Sound, Grows, OneMore, Complete;
    if Complete(d) {
      StillComplete(env, d, e, name, id);
    }
  }

  /** key_id_for answers with the digest of the key the lookup resolves, and goes from a sound
      directory through sound ones; at its end that key lists the id, and nothing else has changed. */
  lemma KeyIdForKeeps(env: Env, d: Disk, which: Which, digest: Oid, salt1: Bytes, salt2: Bytes, name: Name)
    requires Sound(env, d) && CollisionFree(env) && Lists(d, name, IdOf(env, which)) && Findable(d, IdOf(env, which))
    ensures var r := KeyIdFor(env, d, which, digest, salt1, salt2);
            var id := Build(env, d.publics[name].data.key, digest);
            r.result == Ok(id) && KeepsAllBut(env, d, r.states, name, id)
  {
    var r := KeyIdFor(env, d, which, digest, salt1, salt2);
    var id := Build(env, d.publics[name].data.key, digest);
    hide KeyIdFor, IndexAdd, WithId, Sound, Findable, Grows, Build, CollisionFree, Entries, OneMore, KeepsAllBut;
    if CachesDigest(d, name, digest) {
      KeyIdForWrites(env, d, which, digest, salt1, salt2, name);
      KeepsNothingNew(env, d, name, id);
    } else {
      KeyIdForNew(env, d, which, digest, salt1, salt2, name);
      KeepsTheNew(env, d, r.states[1], r.Last(), name, id);
    }
  }

  lemma NoMore(d: Disk, name: Name, id: KeyId)
    requires Lists(d, name, id)
    ensures OneMore(d, d, name, id)
  {
  }

  lemma GrowsRefl(d: Disk)
    ensures Grows(d, d)
  {
  }
}
