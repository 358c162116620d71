/** Cryptography as a term algebra. A key, secret or ciphertext is the term that made it, so that
    decapsulating, decrypting or comparing is matching terms. The only facts are that
    decapsulation undoes encapsulation, decryption undoes encryption under the same key, nonce
    and associated data, and equal inputs give equal outputs. */
module Crypto {
  import opened Base

  datatype KeyId = KeyId(digest: Oid, hash: Bytes)

  // ---- AEAD negotiation -----------------------------------------------------------------------

  datatype Aead = Aes256Gcm | ChaCha20Poly1305

  function AeadOid(a: Aead): Oid {
    match a
    case Aes256Gcm => [96, 840, 1, 101, 3, 4, 1, 46]
    case ChaCha20Poly1305 => [42, 840, 113549, 1, 9, 16, 3, 18]
  }

  function AeadName(oid: Oid): Option<Aead> {
    if oid == AeadOid(Aes256Gcm) then Some(Aes256Gcm)
    else if oid == AeadOid(ChaCha20Poly1305) then Some(ChaCha20Poly1305)
    else None
  }

  lemma AeadNamesAndOidsAgree(a: Aead, oid: Oid)
    ensures AeadName(oid) == Some(a) <==> oid == AeadOid(a)
  {
    assert AeadOid(Aes256Gcm)[0] != AeadOid(ChaCha20Poly1305)[0];
  }

  // ---- ML-KEM ---------------------------------------------------------------------------------

  /** The public half of the key pair grown from a seed at a security level. */
  datatype PublicKey = PublicKey(seed: Bytes, level: nat)

  datatype Ciphertext = Encapsulated(to: PublicKey, coins: Bytes) | OpaqueCiphertext(raw: Bytes)

  datatype Secret =
    | Shared(to: PublicKey, coins: Bytes)
    | ImplicitRejection(seed: Bytes, level: nat, of: Ciphertext)

  predicate KnownLevel(level: nat) {
    level == 768 || level == 1024
  }

  function Decapsulate(seed: Bytes, level: nat, ct: Ciphertext): Secret {
    if ct.Encapsulated? && ct.to == PublicKey(seed, level) then Shared(ct.to, ct.coins)
    else ImplicitRejection(seed, level, ct)
  }

  // ---- key schedule ---------------------------------------------------------------------------

  datatype Purpose = KeyA2b | IvA2b | KeyB2a | IvB2a

  /** One HKDF output. The key identity is part of the info, in front of the purpose label. */
  datatype Derived = Hkdf(salt: Bytes, s1: Secret, s2: Secret, s3: Secret, s4: Secret,
                          identity: KeyId, purpose: Purpose)

  datatype SessionKeys = SessionKeys(aead: Aead, keyA2b: Derived, ivA2b: Derived,
                                     keyB2a: Derived, ivB2a: Derived)

  function DeriveSessionKeys(nA: Bytes, nB: Bytes, fA: KeyId, s1: Secret, s2: Secret, s3: Secret,
                             s4: Secret, aead: Aead): SessionKeys
  {
    var salt := nA + nB;
    SessionKeys(aead,
                Hkdf(salt, s1, s2, s3, s4, fA, KeyA2b), Hkdf(salt, s1, s2, s3, s4, fA, IvA2b),
                Hkdf(salt, s1, s2, s3, s4, fA, KeyB2a), Hkdf(salt, s1, s2, s3, s4, fA, IvB2a))
  }

  // ---- authenticated encryption -----------------------------------------------------------------

  /** The nonce is the 96-bit IV XORed with the sequence number, so larger numbers have no nonce. */
  const SEQ_LIMIT: nat := 0x1_0000_0000_0000_0000_0000_0000

  datatype Sealed =
    | Seal(aead: Aead, key: Derived, iv: Derived, seqno: nat, ad: Bytes, plain: Bytes)
    | OpaqueSeal(raw: Bytes)

  /** None when the tag does not verify. */
  function Open(aead: Aead, key: Derived, iv: Derived, seqno: nat, ad: Bytes, ct: Sealed): Option<Bytes> {
    if ct.Seal? && ct == Seal(aead, key, iv, seqno, ad, ct.plain) then Some(ct.plain) else None
  }

  datatype Digest = Sha256(plain: Bytes) | OpaqueDigest(raw: Bytes)
}
