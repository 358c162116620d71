/** The key directory: a content-addressed store of files, an index of alternate key ids and a cache
    of ids in each entry. Every atomic write is one step, so the states an operation goes through
    are the points at which a crash may leave it. Macs and key wrapping are terms. */
module Keystore {
  import opened Base
  import opened Crypto

  type Name = Bytes  // a file is named by the octets its hex spells
  type Key = Bytes   // a KEM public key by its encoding

  const SHA256: Oid := [96, 840, 1, 101, 3, 4, 2, 1]

  /** The master key the passphrase yields, and the digest algorithms. */
  datatype Env = Env(master: Bytes, hash: (Oid, Key) -> Bytes)

  function Build(env: Env, key: Key, digest: Oid): KeyId {
    KeyId(digest, env.hash(digest, key))
  }

  function Primary(env: Env, key: Key): KeyId {
    Build(env, key, SHA256)
  }

  // ---- files -----------------------------------------------------------------------------------------

  datatype EntryData = EntryData(key: Key, ids: seq<KeyId>)

  datatype IndexEntry = IndexEntry(id: KeyId, target: Name)

  datatype Tag =
    | EntryMac(master: Bytes, salt: Bytes, name: Name, data: EntryData)
    | IndexMac(master: Bytes, salt: Bytes, entries: seq<IndexEntry>)
    | OpaqueTag(raw: Bytes)

  datatype Wrapped =
    | Wrap(master: Bytes, salt: Bytes, identity: KeyId, plain: Bytes)
    | OpaqueWrap(raw: Bytes)

  datatype PublicFile = PublicFile(data: EntryData, salt: Bytes, tag: Tag) | GarbledPublic(raw: Bytes)

  datatype PrivateFile = PrivateFile(id: KeyId, salt: Bytes, wrapped: Wrapped) | GarbledPrivate(raw: Bytes)

  datatype IndexFile = IndexFile(entries: seq<IndexEntry>, salt: Bytes, tag: Tag) | GarbledIndex(raw: Bytes)

  datatype Disk = Disk(publics: map<Name, PublicFile>, privates: map<Name, PrivateFile>, index: Option<IndexFile>)

  const EMPTY := Disk(map[], map[], None)

  datatype Error =
    | KeyNotFound | DuplicateKey | PrivateKeyRequiresPublicKey | PrivateKeyUnwrapFailed
    | PublicKeyIntegrityError | AltIndexIntegrityError | NotParsable

  function MakePublic(env: Env, data: EntryData, name: Name, salt: Bytes): PublicFile {
    PublicFile(data, salt, EntryMac(env.master, salt, name, data))
  }

  function MakeIndex(env: Env, entries: seq<IndexEntry>, salt: Bytes): IndexFile {
    IndexFile(entries, salt, IndexMac(env.master, salt, entries))
  }

  // ---- looking up ------------------------------------------------------------------------------------

  function Verified(env: Env, f: PublicFile, name: Name): Result<EntryData, Error> {
    if f.GarbledPublic? then Err(NotParsable)
    else if f.tag != EntryMac(env.master, f.salt, name, f.data) then Err(PublicKeyIntegrityError)
    else Ok(f.data)
  }

  function LoadIndex(env: Env, d: Disk): Result<seq<IndexEntry>, Error> {
    match d.index
    case None => Ok([])
    case Some(f) =>
      if f.GarbledIndex? then Err(NotParsable)
      else if f.tag != IndexMac(env.master, f.salt, f.entries) then Err(AltIndexIntegrityError)
      else Ok(f.entries)
  }

  /** Where the first matching entry points. */
  function TargetOf(entries: seq<IndexEntry>, id: KeyId): Option<Name> {
    if entries == [] then None
    else if entries[0].id == id then Some(entries[0].target)
    else TargetOf(entries[1..], id)
  }

  function Pointed(env: Env, d: Disk, id: KeyId): Result<Option<Name>, Error> {
    match LoadIndex(env, d)
    case Err(e) => Err(e)
    case Ok(entries) => Ok(TargetOf(entries, id))
  }

  /** A miss, unless the named entry verifies and lists the id. */
  function LoadNamed(env: Env, d: Disk, name: Name, id: KeyId): Result<Option<EntryData>, Error> {
    if name !in d.publics then Ok(None)
    else match Verified(env, d.publics[name], name)
      case Err(e) => Err(e)
      case Ok(data) => Ok(if id in data.ids then Some(data) else None)
  }

  function LoadViaIndex(env: Env, d: Disk, id: KeyId): Result<EntryData, Error> {
    match Pointed(env, d, id)
    case Err(e) => Err(e)
    case Ok(None) => Err(KeyNotFound)
    case Ok(Some(name)) =>
      match LoadNamed(env, d, name, id)
      case Err(e) => Err(e)
      case Ok(None) => Err(KeyNotFound)
      case Ok(Some(data)) => Ok(data)
  }

  /** The file the id itself names is tried first, whatever the digest algorithm. */
  function LoadEntry(env: Env, d: Disk, id: KeyId): Result<EntryData, Error> {
    match LoadNamed(env, d, id.hash, id)
    case Err(e) => Err(e)
    case Ok(Some(data)) => Ok(data)
    case Ok(None) => LoadViaIndex(env, d, id)
  }

  function GetPublicKey(env: Env, d: Disk, id: KeyId): Result<Key, Error> {
    match LoadEntry(env, d, id)
    case Err(e) => Err(e)
    case Ok(data) => Ok(data.key)
  }

  function Unwrapped(env: Env, d: Disk, name: Name): Result<Bytes, Error> {
    if name !in d.privates then Err(KeyNotFound)
    else
      var f := d.privates[name];
      if f.GarbledPrivate? then Err(NotParsable)
      else if f.id != KeyId(SHA256, name) then Err(PrivateKeyUnwrapFailed)
      else if f.wrapped.Wrap? && f.wrapped == Wrap(env.master, f.salt, f.id, f.wrapped.plain) then Ok(f.wrapped.plain)
      else Err(PrivateKeyUnwrapFailed)
  }

  /** An alternate id is resolved to the primary id of its entry; a primary id names the file. */
  function GetPrivateKey(env: Env, d: Disk, id: KeyId): Result<Bytes, Error> {
    if id.digest == SHA256 then Unwrapped(env, d, id.hash)
    else match LoadEntry(env, d, id)
      case Err(e) => Err(e)
      case Ok(data) =>
        LoadedListsId(env, d, id);
        Unwrapped(env, d, data.ids[0].hash)
  }

  // ---- changing the directory ------------------------------------------------------------------------

  /** The states gone through, from the first to the last, and what the operation returns. */
  datatype Run<T> = Run(states: seq<Disk>, result: Result<T, Error>) {
    predicate Proper() {
      states != []
    }

    function Last(): Disk
      requires Proper()
    {
      states[|states| - 1]
    }
  }

  function AddPublicKey(env: Env, d: Disk, key: Key, salt: Bytes): (r: Run<KeyId>)
    ensures r.Proper()
  {
    var primary := Primary(env, key);
    if primary.hash in d.publics then Run([d], Err(DuplicateKey))
    else
      var file := MakePublic(env, EntryData(key, [primary]), primary.hash, salt);
      Run([d, d.(publics := d.publics[primary.hash := file])], Ok(primary))
  }

  /** The first cached id under a digest algorithm. */
  function CachedUnder(ids: seq<KeyId>, digest: Oid): Option<KeyId> {
    if ids == [] then None
    else if ids[0].digest == digest then Some(ids[0])
    else CachedUnder(ids[1..], digest)
  }

  datatype Which = ByKey(key: Key) | ById(id: KeyId)

  function IdOf(env: Env, which: Which): KeyId {
    match which
    case ByKey(key) => Primary(env, key)
    case ById(id) => id
  }

  /** Reads the index, appends and writes it back. */
  function IndexAdd(env: Env, d: Disk, id: KeyId, target: Name, salt: Bytes): (r: Run<()>)
    ensures r.Proper()
  {
    match LoadIndex(env, d)
    case Err(e) => Run([d], Err(e))
    case Ok(entries) =>
      Run([d, d.(index := Some(MakeIndex(env, entries + [IndexEntry(id, target)], salt)))], Ok(()))
  }

  /** Two writes: first the entry with the new id, then the index. */
  function KeyIdFor(env: Env, d: Disk, which: Which, digest: Oid, salt1: Bytes, salt2: Bytes): (r: Run<KeyId>)
    ensures r.Proper()
  {
    match LoadEntry(env, d, IdOf(env, which))
    case Err(e) => Run([d], Err(e))
    case Ok(data) =>
      match CachedUnder(data.ids, digest)
      case Some(id) => Run([d], Ok(id))
      case None =>
        LoadedListsId(env, d, IdOf(env, which));
        var id := Build(env, data.key, digest);
        var name := data.ids[0].hash;
        var file := MakePublic(env, EntryData(data.key, data.ids + [id]), name, salt1);
        var cached := d.(publics := d.publics[name := file]);
        var indexed := IndexAdd(env, cached, id, name, salt2);
        Run([d] + indexed.states, match indexed.result case Ok(_) => Ok(id) case Err(e) => Err(e))
  }

  function AddPrivateKey(env: Env, d: Disk, key: Key, secret: Bytes, salt: Bytes): (r: Run<KeyId>)
    ensures r.Proper()
  {
    var primary := Primary(env, key);
    if primary.hash !in d.publics then Run([d], Err(PrivateKeyRequiresPublicKey))
    else if primary.hash in d.privates then Run([d], Err(DuplicateKey))
    else
      var file := PrivateFile(primary, salt, Wrap(env.master, salt, primary, secret));
      Run([d, d.(privates := d.privates[primary.hash := file])], Ok(primary))
  }

  // ---- the index is only a hint ------------------------------------------------------------------------

  /** Whatever is on disk, index included: an entry that a lookup returns lists the id asked for and is in a
      file that is, Mac and all, what writing that entry under that name and salt makes. */
  lemma LoadedListsId(env: Env, d: Disk, id: KeyId)
    ensures var r := LoadEntry(env, d, id);
            r.Ok? ==>
              && id in r.value.ids
              && exists name :: name in d.publics && Verified(env, d.publics[name], name) == r
                   && d.publics[name].PublicFile?
                   && d.publics[name] == MakePublic(env, r.value, name, d.publics[name].salt)
  {
    if LoadNamed(env, d, id.hash, id).Ok? && LoadNamed(env, d, id.hash, id).value.None? {
      var entries := LoadIndex(env, d);
      if entries.Ok? && TargetOf(entries.value, id).Some? {
        var name := TargetOf(entries.value, id).value;
        assert LoadNamed(env, d, name, id).Ok? && LoadNamed(env, d, name, id).value.Some? ==>
                 name in d.publics
                 && Verified(env, d.publics[name], name) == Ok(LoadNamed(env, d, name, id).value.value);
      }
    }
  }
}
