/** Files of the key directory edited in place: what the Macs and the key wrapping cover is the whole of
    what is stored, so that an edit is refused by every lookup that reads it and by no other. */
module KeystoreTamper {
  import opened Base
  import opened Crypto
  import opened Keystore
  import opened KeystoreProofs

  // ---- whose tags they are -----------------------------------------------------------------------------

  /** Another disk, the Macs and wrapped keys of which are all taken from this one: everything else in its
      files, their names and its index may be anything. */
  ghost predicate TagsFrom(e: Disk, d: Disk) {
    && (forall name <- e.publics | e.publics[name].PublicFile? ::
          exists n :: n in d.publics && d.publics[n].PublicFile? && e.publics[name].tag == d.publics[n].tag)
    && (forall name <- e.privates | e.privates[name].PrivateFile? ::
          exists n ::
            n in d.privates && d.privates[n].PrivateFile? && e.privates[name].wrapped == d.privates[n].wrapped)
  }

  lemma TagOfOwn(env: Env, d: Disk, e: Disk, name: Name, id: KeyId)
    requires Sound(env, d) && TagsFrom(e, d)
    requires LoadNamed(env, e, name, id).Ok? && LoadNamed(env, e, name, id).value.Some?
    ensures Lists(d, name, id) && LoadNamed(env, e, name, id) == Ok(Some(d.publics[name].data))
  {
    var n :| n in d.publics && d.publics[n].PublicFile? && e.publics[name].tag == d.publics[n].tag;
    assert GoodPublic(env, d.publics[n], n);
  }

  /** Whatever is done to the files short of a new Mac: an entry that a lookup returns is one that the
      directory has filed, and lists the id. */
  lemma EditedPublicKeys(env: Env, d: Disk, e: Disk, id: KeyId)
    requires Sound(env, d) && TagsFrom(e, d) && LoadEntry(env, e, id).Ok?
    ensures exists n :: Lists(d, n, id) && LoadEntry(env, e, id) == Ok(d.publics[n].data)
  {
    hide Sound, TagsFrom;
    if LoadNamed(env, e, id.hash, id).Ok? && LoadNamed(env, e, id.hash, id).value.Some? {
      TagOfOwn(env, d, e, id.hash, id);
    } else {
      var name := Pointed(env, e, id).value.value;
      TagOfOwn(env, d, e, name, id);
    }
  }

  lemma WrappedOfOwn(env: Env, d: Disk, e: Disk, name: Name)
    requires Sound(env, d) && TagsFrom(e, d) && Unwrapped(env, e, name).Ok?
    ensures name in d.privates && d.privates[name].PrivateFile? && d.privates[name].wrapped.Wrap?
    ensures Unwrapped(env, e, name) == Ok(d.privates[name].wrapped.plain)
  {
    var n :| n in d.privates && d.privates[n].PrivateFile? && e.privates[name].wrapped == d.privates[n].wrapped;
    assert GoodPrivate(env, d.privates[n], n);
  }

  /** And a private key that a lookup returns is the one filed for the key of that id. */
  lemma EditedPrivateKeys(env: Env, d: Disk, e: Disk, id: KeyId)
    requires Sound(env, d) && TagsFrom(e, d) && GetPrivateKey(env, e, id).Ok?
    ensures exists n :: n in d.privates && d.privates[n].PrivateFile? && d.privates[n].wrapped.Wrap?
              && Lists(d, n, id) && GetPrivateKey(env, e, id) == Ok(d.privates[n].wrapped.plain)
  {
    hide LoadEntry, Unwrapped, TagsFrom;
    if id.digest == SHA256 {
      WrappedOfOwn(env, d, e, id.hash);
      assert GoodPrivate(env, d.privates[id.hash], id.hash) && GoodPublic(env, d.publics[id.hash], id.hash);
      assert id == KeyId(SHA256, id.hash);
    } else {
      EditedPublicKeys(env, d, e, id);
      var n :| Lists(d, n, id) && LoadEntry(env, e, id) == Ok(d.publics[n].data);
      assert GoodPublic(env, d.publics[n], n);
      WrappedOfOwn(env, d, e, n);
    }
  }

  // ---- one file edited ---------------------------------------------------------------------------------

  /** The lookup of the id looks into the file of this name. */
  predicate Reads(d: Disk, id: KeyId, name: Name) {
    id.hash == name || (!Lists(d, id.hash, id) && TargetOf(Entries(d), id) == Some(name))
  }

  /** An entry with other data, or another salt, under its old Mac. */
  function Edited(d: Disk, name: Name, data: EntryData, salt: Bytes): Disk
    requires name in d.publics && d.publics[name].PublicFile?
  {
    d.(publics := d.publics[name := d.publics[name].(data := data, salt := salt)])
  }

  lemma EditedNamed(env: Env, d: Disk, name: Name, data: EntryData, salt: Bytes, n: Name, id: KeyId)
    requires Sound(env, d) && name in d.publics && d.publics[name].PublicFile?
    requires data != d.publics[name].data || salt != d.publics[name].salt
    ensures LoadNamed(env, Edited(d, name, data, salt), n, id)
         == if n == name then Err(PublicKeyIntegrityError) else LoadNamed(env, d, n, id)
  {
    assert GoodPublic(env, d.publics[name], name);
  }

  /** Every lookup that reads an edited entry is refused for it, and every other is answered as before. */
  lemma EditedEntryIsRefused(env: Env, d: Disk, name: Name, data: EntryData, salt: Bytes, id: KeyId)
    requires Sound(env, d) && name in d.publics
    requires data != d.publics[name].data || salt != d.publics[name].salt
    ensures LoadEntry(env, Edited(d, name, data, salt), id)
         == if Reads(d, id, name) then Err(PublicKeyIntegrityError) else LoadEntry(env, d, id)
  {
    var e := Edited(d, name, data, salt);
    assert LoadIndex(env, e) == LoadIndex(env, d) == Ok(Entries(d));
    hide Sound, LoadNamed, LoadIndex, Entries, Lists;
    NamedExact(env, d, id.hash, id);
    EditedNamed(env, d, name, data, salt, id.hash, id);
    var target := TargetOf(Entries(d), id);
    if target.Some? {
      EditedNamed(env, d, name, data, salt, target.value, id);
    }
  }

  /** And so is every operation that goes through such a lookup: nothing is written. */
  lemma EditedEntryStopsAll(env: Env, d: Disk, name: Name, data: EntryData, salt: Bytes, which: Which, digest: Oid,
                            salt1: Bytes, salt2: Bytes)
    requires Sound(env, d) && name in d.publics && Reads(d, IdOf(env, which), name)
    requires data != d.publics[name].data || salt != d.publics[name].salt
    ensures var e, id := Edited(d, name, data, salt), IdOf(env, which);
            && GetPublicKey(env, e, id) == Err(PublicKeyIntegrityError)
            && KeyIdFor(env, e, which, digest, salt1, salt2) == Run([e], Err(PublicKeyIntegrityError))
            && (id.digest != SHA256 ==> GetPrivateKey(env, e, id) == Err(PublicKeyIntegrityError))
  {
    hide LoadEntry;
    EditedEntryIsRefused(env, d, name, data, salt, IdOf(env, which));
  }

  /** An index with other entries, or another salt, under its old Mac: every lookup that gets as far as
      the index is refused for it, and every other is answered as before. */
  lemma EditedIndexIsRefused(env: Env, d: Disk, entries: seq<IndexEntry>, salt: Bytes, id: KeyId)
    requires Sound(env, d) && d.index.Some? && d.index.value.IndexFile?
    requires entries != d.index.value.entries || salt != d.index.value.salt
    ensures var e := d.(index := Some(d.index.value.(entries := entries, salt := salt)));
            LoadEntry(env, e, id)
            == if Lists(d, id.hash, id) then LoadEntry(env, d, id) else Err(AltIndexIntegrityError)
  {
    NamedExact(env, d, id.hash, id);
    var e := d.(index := Some(d.index.value.(entries := entries, salt := salt)));
    assert LoadNamed(env, e, id.hash, id) == LoadNamed(env, d, id.hash, id);
  }

  /** A wrapped private key, or the salt or identity it is stored with, edited: it does not unwrap. */
  lemma EditedPrivateIsRefused(env: Env, d: Disk, name: Name, file: PrivateFile)
    requires Sound(env, d) && name in d.privates && file.PrivateFile? && file != d.privates[name]
    requires file.wrapped == d.privates[name].wrapped || !file.wrapped.Wrap?
    ensures GetPrivateKey(env, d.(privates := d.privates[name := file]), KeyId(SHA256, name))
         == Err(PrivateKeyUnwrapFailed)
  {
    assert GoodPrivate(env, d.privates[name], name);
  }

  /** Under another master key nothing that is stored verifies or unwraps. */
  lemma OtherMasterIsRefused(env: Env, other: Bytes, d: Disk, name: Name, id: KeyId)
    requires Sound(env, d) && other != env.master
    ensures var wrong := env.(master := other);
            && LoadEntry(wrong, d, id).Err?
            && (name in d.publics ==> LoadNamed(wrong, d, name, id) == Err(PublicKeyIntegrityError))
            && (name in d.privates ==> GetPrivateKey(wrong, d, KeyId(SHA256, name)) == Err(PrivateKeyUnwrapFailed))
  {
    if name in d.publics {
      assert GoodPublic(env, d.publics[name], name);
    }
    if id.hash in d.publics {
      assert GoodPublic(env, d.publics[id.hash], id.hash);
    }
    if name in d.privates {
      assert GoodPrivate(env, d.privates[name], name);
    }
  }
}
