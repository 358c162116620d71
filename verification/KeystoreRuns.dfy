/** Whole runs of the key directory against the plain map it is a fast form of, runs cut short by
    crashes, and what tampering with its files can and cannot do. */
module KeystoreRuns {
  import opened Base
  import opened Crypto
  import opened Keystore
  import opened KeystoreProofs

  // ---- operations and answers ----------------------------------------------------------------------

  datatype Op =
    | Add(key: Key, salt: Bytes)
    | Get(id: KeyId)
    | IdFor(which: Which, digest: Oid, salt1: Bytes, salt2: Bytes)
    | AddSecret(key: Key, secret: Bytes, salt: Bytes)
    | GetSecret(id: KeyId)

  datatype Answer = AnId(id: KeyId) | AKey(key: Key) | ASecret(secret: Bytes) | Failed(error: Error)

  function IdAnswer(r: Result<KeyId, Error>): Answer {
    match r case Ok(id) => AnId(id) case Err(e) => Failed(e)
  }

  function States(env: Env, d: Disk, op: Op): (states: seq<Disk>)
    ensures states != []
  {
    match op
    case Add(key, salt) => AddPublicKey(env, d, key, salt).states
    case IdFor(which, digest, salt1, salt2) => KeyIdFor(env, d, which, digest, salt1, salt2).states
    case AddSecret(key, secret, salt) => AddPrivateKey(env, d, key, secret, salt).states
    case _ => [d]
  }

  function After(env: Env, d: Disk, op: Op): Disk {
    States(env, d, op)[|States(env, d, op)| - 1]
  }

  function Ask(env: Env, d: Disk, op: Op): Answer {
    match op
    case Add(key, salt) => IdAnswer(AddPublicKey(env, d, key, salt).result)
    case Get(id) => (match GetPublicKey(env, d, id) case Ok(key) => AKey(key) case Err(e) => Failed(e))
    case IdFor(which, digest, salt1, salt2) => IdAnswer(KeyIdFor(env, d, which, digest, salt1, salt2).result)
    case AddSecret(key, secret, salt) => IdAnswer(AddPrivateKey(env, d, key, secret, salt).result)
    case GetSecret(id) => (match GetPrivateKey(env, d, id) case Ok(b) => ASecret(b) case Err(e) => Failed(e))
  }

  // ---- the plain map ----------------------------------------------------------------------------------

  /** The key of every id asked for so far, and the private key of every key that has one. */
  datatype Plain = Plain(ids: map<KeyId, Key>, secrets: map<Key, Bytes>)

  function PlainAfter(env: Env, m: Plain, op: Op): Plain {
    match op
    case Add(key, _) => if Primary(env, key) in m.ids then m else m.(ids := m.ids[Primary(env, key) := key])
    case IdFor(which, digest, _, _) =>
      var id := IdOf(env, which);
      if id !in m.ids then m else m.(ids := m.ids[Build(env, m.ids[id], digest) := m.ids[id]])
    case AddSecret(key, secret, _) =>
      if Primary(env, key) !in m.ids || key in m.secrets then m else m.(secrets := m.secrets[key := secret])
    case _ => m
  }

  function PlainAnswer(env: Env, m: Plain, op: Op): Answer {
    match op
    case Add(key, _) => if Primary(env, key) in m.ids then Failed(DuplicateKey) else AnId(Primary(env, key))
    case Get(id) => if id in m.ids then AKey(m.ids[id]) else Failed(KeyNotFound)
    case IdFor(which, digest, _, _) =>
      var id := IdOf(env, which);
      if id in m.ids then AnId(Build(env, m.ids[id], digest)) else Failed(KeyNotFound)
    case AddSecret(key, _, _) =>
      if Primary(env, key) !in m.ids then Failed(PrivateKeyRequiresPublicKey)
      else if key in m.secrets then Failed(DuplicateKey) else AnId(Primary(env, key))
    case GetSecret(id) =>
      if id in m.ids && m.ids[id] in m.secrets then ASecret(m.secrets[m.ids[id]]) else Failed(KeyNotFound)
  }

  /** An id is listed by the file of its key and by no other. */
  ghost predicate IdsMatch(env: Env, d: Disk, m: Plain) {
    && (forall name, id | Lists(d, name, id) :: id in m.ids && m.ids[id] == d.publics[name].data.key)
    && (forall id <- m.ids :: Lists(d, Primary(env, m.ids[id]).hash, id))
  }

  /** A private key is filed under the name of its public key. */
  predicate SecretMatches(env: Env, d: Disk, m: Plain, key: Key) {
    var name := Primary(env, key).hash;
    && (key in m.secrets <==> name in d.privates)
    && (key in m.secrets ==>
          d.privates[name].PrivateFile? && d.privates[name].wrapped.Wrap?
          && d.privates[name].wrapped.plain == m.secrets[key])
  }

  ghost predicate SecretsMatch(env: Env, d: Disk, m: Plain) {
    forall key :: SecretMatches(env, d, m, key)
  }

  /** The directory holds what the map holds. */
  ghost predicate Represents(env: Env, d: Disk, m: Plain) {
    IdsMatch(env, d, m) && SecretsMatch(env, d, m)
  }

  ghost predicate Implements(env: Env, d: Disk, m: Plain) {
    CollisionFree(env) && Sound(env, d) && Complete(d) && Represents(env, d, m)
  }

  /** Lookups agree. */
  lemma LookupAgrees(env: Env, d: Disk, m: Plain, id: KeyId)
    requires Implements(env, d, m)
    ensures LoadEntry(env, d, id).Ok? <==> id in m.ids
    ensures LoadEntry(env, d, id).Err? ==> LoadEntry(env, d, id).error == KeyNotFound
    ensures id in m.ids ==> var name := Primary(env, m.ids[id]).hash;
              Lists(d, name, id) && Findable(d, id) && LoadEntry(env, d, id) == Ok(d.publics[name].data)
              && GoodPublic(env, d.publics[name], name) && d.publics[name].data.key == m.ids[id]
  {
    hide LoadEntry;
    if id in m.ids {
      var name := Primary(env, m.ids[id]).hash;
      CompleteFindsAll(env, d, name, id);
      LookupExact(env, d, name, id);
    } else {
      LookupExact(env, d, id.hash, id);
    }
  }

  /** The file of a key is there exactly when its primary id is known. */
  lemma FileAgrees(env: Env, d: Disk, m: Plain, key: Key)
    requires Implements(env, d, m)
    ensures var primary := Primary(env, key);
            && (primary.hash in d.publics <==> primary in m.ids)
            && (primary in m.ids ==>
                  m.ids[primary] == key && d.publics[primary.hash].PublicFile?
                  && d.publics[primary.hash].data.key == key)
            && (primary.hash in d.privates <==> key in m.secrets)
  {
    var primary := Primary(env, key);
    assert SecretMatches(env, d, m, key);
    if primary.hash in d.publics {
      assert GoodPublic(env, d.publics[primary.hash], primary.hash);
      assert Lists(d, primary.hash, primary);
    }
  }

  lemma SecretAgrees(env: Env, d: Disk, m: Plain, name: Name)
    requires Implements(env, d, m)
    ensures var id := KeyId(SHA256, name);
            Unwrapped(env, d, name)
            == if id in m.ids && m.ids[id] in m.secrets then Ok(m.secrets[m.ids[id]]) else Err(KeyNotFound)
  {
    var id := KeyId(SHA256, name);
    if name in d.privates {
      assert GoodPublic(env, d.publics[name], name) && Lists(d, name, id);
      assert GoodPrivate(env, d.privates[name], name);
    }
    if id in m.ids {
      assert SecretMatches(env, d, m, m.ids[id]);
      LookupAgrees(env, d, m, id);
      GoodListed(env, d, Primary(env, m.ids[id]).hash, id);
    }
  }

  lemma AnswersAgree(env: Env, d: Disk, m: Plain, op: Op)
    requires Implements(env, d, m)
    ensures Ask(env, d, op) == PlainAnswer(env, m, op)
  {
    hide LoadEntry, Implements, Unwrapped, KeyIdFor;
    match op
    case Add(key, _) => FileAgrees(env, d, m, key);
    case Get(id) => LookupAgrees(env, d, m, id);
    case IdFor(which, digest, salt1, salt2) => IdForAgrees(env, d, m, which, digest, salt1, salt2);
    case AddSecret(key, _, _) => FileAgrees(env, d, m, key);
    case GetSecret(id) =>
      LookupAgrees(env, d, m, id);
      if id.digest == SHA256 {
        SecretAgrees(env, d, m, id.hash);
        assert id == KeyId(SHA256, id.hash);
      } else if id in m.ids {
        var primary := Primary(env, m.ids[id]);
        SecretAgrees(env, d, m, primary.hash);
        FileAgrees(env, d, m, m.ids[id]);
        PrimaryKnown(env, d, m, id);
      }
  }

  lemma PrimaryKnown(env: Env, d: Disk, m: Plain, id: KeyId)
    requires Implements(env, d, m) && id in m.ids
    ensures Primary(env, m.ids[id]) in m.ids
  {
    LookupAgrees(env, d, m, id);
    FileAgrees(env, d, m, m.ids[id]);
  }

  lemma IdForAgrees(env: Env, d: Disk, m: Plain, which: Which, digest: Oid, salt1: Bytes, salt2: Bytes)
    requires Implements(env, d, m)
    ensures KeyIdFor(env, d, which, digest, salt1, salt2).result
         == if IdOf(env, which) in m.ids then Ok(Build(env, m.ids[IdOf(env, which)], digest)) else Err(KeyNotFound)
  {
    var id := IdOf(env, which);
    LookupAgrees(env, d, m, id);
    if id in m.ids {
      KeyIdForKeeps(env, d, which, digest, salt1, salt2, Primary(env, m.ids[id]).hash);
    }
  }

  // ---- one operation ---------------------------------------------------------------------------------------

  lemma IdsMore(env: Env, d: Disk, e: Disk, m: Plain, id: KeyId, key: Key)
    requires CollisionFree(env) && Sound(env, d) && IdsMatch(env, d, m) && Sound(env, e)
    requires id == Build(env, key, id.digest)
    requires OneMore(d, e, Primary(env, key).hash, id)
    ensures IdsMatch(env, e, m.(ids := m.ids[id := key]))
  {
    var k := m.(ids := m.ids[id := key]);
    hide Sound;
    assert Lists(e, Primary(env, key).hash, id);
    forall n, i | Lists(e, n, i) ensures i in k.ids && k.ids[i] == e.publics[n].data.key {
      OneMoreListed(env, d, e, m, id, key, n, i);
    }
  }

  /** A representation carried over a change to the public files that adds one id of one key. */
  lemma RepresentsMore(env: Env, d: Disk, e: Disk, m: Plain, id: KeyId, key: Key)
    requires Implements(env, d, m) && Sound(env, e) && e.privates == d.privates
    requires id == Build(env, key, id.digest)
    requires OneMore(d, e, Primary(env, key).hash, id)
    ensures Represents(env, e, m.(ids := m.ids[id := key]))
  {
    hide IdsMatch, Sound, Lists, Complete, CollisionFree;
    IdsMore(env, d, e, m, id, key);
    SecretsKept(env, d, e, m, m.(ids := m.ids[id := key]));
  }

  lemma SecretsKept(env: Env, d: Disk, e: Disk, m: Plain, k: Plain)
    requires SecretsMatch(env, d, m) && e.privates == d.privates && k.secrets == m.secrets
    ensures SecretsMatch(env, e, k)
  {
    forall x ensures SecretMatches(env, e, k, x) {
      assert SecretMatches(env, d, m, x);
    }
  }

  lemma SecretAdded(env: Env, d: Disk, m: Plain, key: Key, secret: Bytes, file: PrivateFile)
    requires CollisionFree(env) && SecretsMatch(env, d, m)
    requires file.PrivateFile? && file.wrapped.Wrap? && file.wrapped.plain == secret
    ensures SecretsMatch(env, d.(privates := d.privates[Primary(env, key).hash := file]),
                         m.(secrets := m.secrets[key := secret]))
  {
    var e, k := d.(privates := d.privates[Primary(env, key).hash := file]), m.(secrets := m.secrets[key := secret]);
    forall x ensures SecretMatches(env, e, k, x) {
      assert SecretMatches(env, d, m, x);
      assert Primary(env, x).hash == Primary(env, key).hash ==> x == key;
    }
  }

  lemma IdsKept(env: Env, d: Disk, e: Disk, m: Plain, k: Plain)
    requires IdsMatch(env, d, m) && e.publics == d.publics && k.ids == m.ids
    ensures IdsMatch(env, e, k)
  {
    assert forall n, i :: Lists(e, n, i) <==> Lists(d, n, i);
  }

  lemma OneMoreListed(env: Env, d: Disk, e: Disk, m: Plain, id: KeyId, key: Key, n: Name, i: KeyId)
    requires CollisionFree(env) && Sound(env, d) && IdsMatch(env, d, m) && Sound(env, e)
    requires id == Build(env, key, id.digest) && Lists(e, n, i)
    requires Lists(d, n, i) || (n == Primary(env, key).hash && i == id)
    ensures e.publics[n].data.key == if i == id then key else m.ids[i]
    ensures i == id || i in m.ids
  {
    GoodListed(env, e, n, i);
    if Lists(d, n, i) {
      GoodListed(env, d, n, i);
    }
  }

  lemma AddStep(env: Env, d: Disk, m: Plain, key: Key, salt: Bytes)
    requires Implements(env, d, m)
    ensures Implements(env, AddPublicKey(env, d, key, salt).Last(), PlainAfter(env, m, Add(key, salt)))
  {
    AddPublicKeeps(env, d, key, salt);
    FileAgrees(env, d, m, key);
    if Primary(env, key) !in m.ids {
      hide Sound, Complete, Represents;
      RepresentsMore(env, d, AddPublicKey(env, d, key, salt).Last(), m, Primary(env, key), key);
    }
  }

  lemma IdForStep(env: Env, d: Disk, m: Plain, which: Which, digest: Oid, salt1: Bytes, salt2: Bytes)
    requires Implements(env, d, m)
    ensures Implements(env, KeyIdFor(env, d, which, digest, salt1, salt2).Last(),
                       PlainAfter(env, m, IdFor(which, digest, salt1, salt2)))
  {
    hide Complete, Represents, LoadEntry, GoodPublic, OneMore, Grows, Sound, Findable;
    var id := IdOf(env, which);
    LookupAgrees(env, d, m, id);
    if id in m.ids {
      IdForKnown(env, d, m, which, digest, salt1, salt2);
    }
  }

  lemma IdForKnown(env: Env, d: Disk, m: Plain, which: Which, digest: Oid, salt1: Bytes, salt2: Bytes)
    requires Implements(env, d, m) && IdOf(env, which) in m.ids
    ensures var key := m.ids[IdOf(env, which)];
            Implements(env, KeyIdFor(env, d, which, digest, salt1, salt2).Last(),
                       m.(ids := m.ids[Build(env, key, digest) := key]))
  {
    hide KeyIdFor, Complete, Represents, LoadEntry, GoodPublic, OneMore, Grows, Sound, Findable;
    var id := IdOf(env, which);
    LookupAgrees(env, d, m, id);
    var key := m.ids[id];
    var name := Primary(env, key).hash;
    KeyIdForKeeps(env, d, which, digest, salt1, salt2, name);
    var e := KeyIdFor(env, d, which, digest, salt1, salt2).Last();
    assert Sound(env, e) && OneMore(d, e, name, Build(env, key, digest)) && e.privates == d.privates;
    RepresentsMore(env, d, e, m, Build(env, key, digest), key);
  }

  lemma AddSecretStep(env: Env, d: Disk, m: Plain, key: Key, secret: Bytes, salt: Bytes)
    requires Implements(env, d, m)
    ensures Implements(env, AddPrivateKey(env, d, key, secret, salt).Last(),
                       PlainAfter(env, m, AddSecret(key, secret, salt)))
  {
    hide Sound, Complete, SecretsMatch, IdsMatch, CollisionFree;
    AddPrivateKeeps(env, d, key, secret, salt);
    FileAgrees(env, d, m, key);
    IdsKept(env, d, AddPrivateKey(env, d, key, secret, salt).Last(), m,
            PlainAfter(env, m, AddSecret(key, secret, salt)));
    SecretAdded(env, d, m, key, secret,
                PrivateFile(Primary(env, key), salt, Wrap(env.master, salt, Primary(env, key), secret)));
  }

  lemma StepAgrees(env: Env, d: Disk, m: Plain, op: Op)
    requires Implements(env, d, m)
    ensures Ask(env, d, op) == PlainAnswer(env, m, op)
    ensures Implements(env, After(env, d, op), PlainAfter(env, m, op))
  {
    hide Implements, Ask, PlainAnswer, KeyIdFor, AddPublicKey, AddPrivateKey, CollisionFree, Sound, Complete,
         Represents;
    AnswersAgree(env, d, m, op);
    match op
    case Add(key, salt) => AddStep(env, d, m, key, salt);
    case IdFor(which, digest, salt1, salt2) => IdForStep(env, d, m, which, digest, salt1, salt2);
    case AddSecret(key, secret, salt) => AddSecretStep(env, d, m, key, secret, salt);
    case _ =>
  }

  // ---- whole runs ----------------------------------------------------------------------------------------------

  function Answers(env: Env, d: Disk, ops: seq<Op>): seq<Answer>
    decreases |ops|
  {
    if ops == [] then [] else [Ask(env, d, ops[0])] + Answers(env, After(env, d, ops[0]), ops[1..])
  }

  function PlainAnswers(env: Env, m: Plain, ops: seq<Op>): seq<Answer>
    decreases |ops|
  {
    if ops == [] then [] else [PlainAnswer(env, m, ops[0])] + PlainAnswers(env, PlainAfter(env, m, ops[0]), ops[1..])
  }

  lemma {:induction false} RunsAgree(env: Env, d: Disk, m: Plain, ops: seq<Op>)
    requires Implements(env, d, m)
    ensures Answers(env, d, ops) == PlainAnswers(env, m, ops)
    decreases |ops|
  {
    hide Implements, Ask, PlainAnswer, After, PlainAfter;
    if ops != [] {
      StepAgrees(env, d, m, ops[0]);
      RunsAgree(env, After(env, d, ops[0]), PlainAfter(env, m, ops[0]), ops[1..]);
    }
  }

  /** With digests free of collisions, a new directory answers every sequence of operations as the
      plain map does: files, index and cache are never seen. */
  lemma DirectoryIsThePlainMap(env: Env, ops: seq<Op>)
    requires CollisionFree(env)
    ensures Answers(env, EMPTY, ops) == PlainAnswers(env, Plain(map[], map[]), ops)
  {
    RunsAgree(env, EMPTY, Plain(map[], map[]), ops);
  }

  /** What an operation may change: the answers for the id it adds or, where it adds a private key, the
      private lookups by the ids of that key; and no other lookup. */
  lemma OtherLookupsUnchanged(env: Env, d: Disk, m: Plain, op: Op, id: KeyId)
    requires Implements(env, d, m)
    requires op.Add? ==> id != Primary(env, op.key)
    requires op.IdFor? && IdOf(env, op.which) in m.ids ==> id != Build(env, m.ids[IdOf(env, op.which)], op.digest)
    ensures GetPublicKey(env, After(env, d, op), id) == GetPublicKey(env, d, id)
    ensures !(op.AddSecret? && GetPublicKey(env, d, id) == Ok(op.key)) ==>
              GetPrivateKey(env, After(env, d, op), id) == GetPrivateKey(env, d, id)
  {
    hide Implements, After, GetPublicKey, GetPrivateKey;
    StepAgrees(env, d, m, op);
    var e, k := After(env, d, op), PlainAfter(env, m, op);
    AnswersAgree(env, d, m, Get(id));
    AnswersAgree(env, e, k, Get(id));
    AnswersAgree(env, d, m, GetSecret(id));
    AnswersAgree(env, e, k, GetSecret(id));
    GetAnswers(env, d, id);
    GetAnswers(env, e, id);
  }

  lemma GetAnswers(env: Env, d: Disk, id: KeyId)
    ensures Ask(env, d, Get(id)) == match GetPublicKey(env, d, id) case Ok(key) => AKey(key) case Err(e) => Failed(e)
    ensures Ask(env, d, GetSecret(id))
            == match GetPrivateKey(env, d, id) case Ok(b) => ASecret(b) case Err(e) => Failed(e)
  {
  }
}
