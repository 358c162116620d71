/** The key directory as the object it is: files read, and replaced one at a time. */
module KeystoreObject {
  import opened Base
  import opened Crypto
  import opened K = Keystore

  class KeyDirectory {
    const env: Env
    var publics: map<Name, PublicFile>
    var privates: map<Name, PrivateFile>
    var index: Option<IndexFile>

    // the directory after each write
    ghost var written: seq<Disk>

    ghost function Model(): Disk
      reads this
    {
      Disk(publics, privates, index)
    }

    /** What an operation has written so far, its start included. */
    ghost function Since(start: Disk, before: seq<Disk>): seq<Disk>
      requires before <= written
      reads this
    {
      [start] + written[|before|..]
    }

    /** A new directory, or one left by an earlier run. */
    constructor (env: Env, disk: Disk)
      ensures Model() == disk && this.env == env && written == []
    {
      this.env := env;
      publics, privates, index := disk.publics, disk.privates, disk.index;
      written := [];
    }

    // ---- atomic writes -----------------------------------------------------------------------------

    method WritePublic(name: Name, file: PublicFile)
      modifies this
      ensures Model() == old(Model()).(publics := old(publics)[name := file])
      ensures written == old(written) + [Model()]
    {
      publics := publics[name := file];
      written := written + [Model()];
    }

    method WritePrivate(name: Name, file: PrivateFile)
      modifies this
      ensures Model() == old(Model()).(privates := old(privates)[name := file])
      ensures written == old(written) + [Model()]
    {
      privates := privates[name := file];
      written := written + [Model()];
    }

    method WriteIndex(file: IndexFile)
      modifies this
      ensures Model() == old(Model()).(index := Some(file))
      ensures written == old(written) + [Model()]
    {
      index := Some(file);
      written := written + [Model()];
    }

    // ---- lookups -----------------------------------------------------------------------------------

    /** The first index entry for the id, in the order of the file. */
    method IndexLookup(id: KeyId) returns (r: Result<Option<Name>, Error>)
      ensures r == Pointed(env, Model(), id)
    {
      var loaded := LoadIndex(env, Disk(publics, privates, index));
      if loaded.Err? {
        return Err(loaded.error);
      }
      var entries := loaded.value;
      for i := 0 to |entries|
        invariant TargetOf(entries[i..], id) == TargetOf(entries, id)
      {
        if entries[i].id == id {
          return Ok(Some(entries[i].target));
        }
        assert entries[i..][1..] == entries[i + 1..];
      }
      return Ok(None);
    }

    method LoadNamed(name: Name, id: KeyId) returns (r: Result<Option<EntryData>, Error>)
      ensures r == K.LoadNamed(env, Model(), name, id)
    {
      if name !in publics {
        return Ok(None);
      }
      var verified := Verified(env, publics[name], name);
      if verified.Err? {
        return Err(verified.error);
      }
      var ids := verified.value.ids;
      for i := 0 to |ids|
        invariant id !in ids[..i]
      {
        if ids[i] == id {
          return Ok(Some(verified.value));
        }
      }
      return Ok(None);
    }

    method LoadEntry(id: KeyId) returns (r: Result<EntryData, Error>)
      ensures r == K.LoadEntry(env, Model(), id)
    {
      hide K.LoadNamed, Pointed;
      var direct := LoadNamed(id.hash, id);
      if direct.Err? {
        return Err(direct.error);
      }
      if direct.value.Some? {
        return Ok(direct.value.value);
      }
      var target := IndexLookup(id);
      if target.Err? {
        return Err(target.error);
      }
      if target.value.Some? {
        var pointed := LoadNamed(target.value.value, id);
        if pointed.Err? {
          return Err(pointed.error);
        }
        if pointed.value.Some? {
          return Ok(pointed.value.value);
        }
      }
      return Err(KeyNotFound);
    }

    method GetPublicKey(id: KeyId) returns (r: Result<Key, Error>)
      ensures r == K.GetPublicKey(env, Model(), id)
    {
      hide K.LoadEntry;
      var data := LoadEntry(id);
      r := match data case Err(e) => Err(e) case Ok(d) => Ok(d.key);
    }

    method GetPrivateKey(id: KeyId) returns (r: Result<Bytes, Error>)
      ensures r == K.GetPrivateKey(env, Model(), id)
    {
      hide K.LoadEntry, Unwrapped;
      var name := id.hash;
      if id.digest != SHA256 {
        LoadedListsId(env, Model(), id);
        var data := LoadEntry(id);
        if data.Err? {
          return Err(data.error);
        }
        name := data.value.ids[0].hash;
      }
      r := Unwrapped(env, Disk(publics, privates, index), name);
    }

    // ---- changes -------------------------------------------------------------------------------------

    method AddPublicKey(key: Key, salt: Bytes) returns (r: Result<KeyId, Error>)
      modifies this
      ensures var run := K.AddPublicKey(env, old(Model()), key, salt);
              && r == run.result && Model() == run.Last()
              && old(written) <= written && Since(old(Model()), old(written)) == run.states
    {
      var primary := Primary(env, key);
      if primary.hash in publics {
        return Err(DuplicateKey);
      }
      WritePublic(primary.hash, MakePublic(env, EntryData(key, [primary]), primary.hash, salt));
      return Ok(primary);
    }

    method IndexAdd(id: KeyId, target: Name, salt: Bytes) returns (r: Result<(), Error>)
      modifies this
      ensures var run := K.IndexAdd(env, old(Model()), id, target, salt);
              && r == run.result && Model() == run.Last()
              && old(written) <= written && Since(old(Model()), old(written)) == run.states
    {
      var loaded := LoadIndex(env, Disk(publics, privates, index));
      if loaded.Err? {
        return Err(loaded.error);
      }
      WriteIndex(MakeIndex(env, loaded.value + [IndexEntry(id, target)], salt));
      return Ok(());
    }

    static method FindDigest(ids: seq<KeyId>, digest: Oid) returns (found: Option<KeyId>)
      ensures found == CachedUnder(ids, digest)
    {
      for i := 0 to |ids|
        invariant CachedUnder(ids[i..], digest) == CachedUnder(ids, digest)
      {
        if ids[i].digest == digest {
          return Some(ids[i]);
        }
        assert ids[i..][1..] == ids[i + 1..];
      }
      return None;
    }

    method KeyIdFor(which: Which, digest: Oid, salt1: Bytes, salt2: Bytes) returns (r: Result<KeyId, Error>)
      modifies this
      ensures var run := K.KeyIdFor(env, old(Model()), which, digest, salt1, salt2);
              && r == run.result && Model() == run.Last()
              && old(written) <= written && Since(old(Model()), old(written)) == run.states
    {
      hide K.LoadEntry, CachedUnder, K.IndexAdd;
      LoadedListsId(env, Model(), IdOf(env, which));
      var loaded := LoadEntry(IdOf(env, which));
      if loaded.Err? {
        return Err(loaded.error);
      }
      var data := loaded.value;
      var found := FindDigest(data.ids, digest);
      if found.Some? {
        return Ok(found.value);
      }
      var id := Build(env, data.key, digest);
      var name := data.ids[0].hash;
      WritePublic(name, MakePublic(env, EntryData(data.key, data.ids + [id]), name, salt1));
      ghost var cached, middle := Model(), written;
      var added := IndexAdd(id, name, salt2);
      assert written[|old(written)|..] == [cached] + written[|middle|..];
      r := match added case Err(e) => Err(e) case Ok(_) => Ok(id);
    }

    method AddPrivateKey(key: Key, secret: Bytes, salt: Bytes) returns (r: Result<KeyId, Error>)
      modifies this
      ensures var run := K.AddPrivateKey(env, old(Model()), key, secret, salt);
              && r == run.result && Model() == run.Last()
              && old(written) <= written && Since(old(Model()), old(written)) == run.states
    {
      var primary := Primary(env, key);
      if primary.hash !in publics {
        return Err(PrivateKeyRequiresPublicKey);
      }
      if primary.hash in privates {
        return Err(DuplicateKey);
      }
      WritePrivate(primary.hash, PrivateFile(primary, salt, Wrap(env.master, salt, primary, secret)));
      return Ok(primary);
    }
  }
}
