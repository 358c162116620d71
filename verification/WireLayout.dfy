/** The octets of each PDU, written out: tags, lengths, numbers and identifiers as they stand on the wire. */
module WireLayout {
  import opened Base
  import opened Der
  import opened Wire
  import C = Crypto
  import K = Keystore

  // ---- numbers ------------------------------------------------------------------------------------------

  /** Sections 8.1.3.4 and 8.1.3.5 of X.690: one octet below 128, then one or two octets behind their
      count. */
  lemma LengthIs(n: nat)
    requires n < 0x1_0000
    ensures EncodeLength(n) == if n < 0x80 then [n] else if n < 0x100 then [0x81, n] else [0x82, n / 0x100, n % 0x100]
  {
    assert BigEndian(0) == [];
    if 0 < n < 0x100 {
      assert BigEndian(n) == [n];
    } else if 0x100 <= n {
      assert BigEndian(n / 0x100) == [n / 0x100];
      assert BigEndian(n) == [n / 0x100, n % 0x100];
    }
  }

  /** A sequence number is as short as two's complement allows, most significant octet first; from 128 on
      there is a zero octet in front where the first bit would say that it is negative. */
  lemma IntegerIs(n: int)
    requires -0x8000 <= n < 0x80_0000
    ensures EncodeInteger(n) ==
            if -0x80 <= n < 0 then [0x100 + n]
            else if n < 0 then [(0x1_0000 + n) / 0x100, (0x1_0000 + n) % 0x100]
            else if n < 0x80 then [n]
            else if n < 0x8000 then [n / 0x100, n % 0x100]
            else [n / 0x1_0000, n / 0x100 % 0x100, n % 0x100]
  {
    var m := n / 0x100;
    if !(-0x80 <= n < 0x80) {
      assert EncodeInteger(n) == EncodeInteger(m) + [n % 0x100];
      if -0x80 <= m < 0x80 {
        assert EncodeInteger(m) == [m % 0x100];
      } else {
        assert EncodeInteger(m) == EncodeInteger(m / 0x100) + [m % 0x100];
        assert EncodeInteger(m / 0x100) == [m / 0x100];
        assert m / 0x100 == n / 0x1_0000;
      }
    }
  }

  /** Section 8.19 of X.690: seven bits to an octet, the most significant first, the last one below 128. */
  lemma SubidentifierIs(n: nat)
    requires n < 0x20_0000
    ensures EncodeSubidentifier(n) ==
            if n < 0x80 then [n]
            else if n < 0x4000 then [0x80 + n / 0x80, n % 0x80]
            else [0x80 + n / 0x4000, 0x80 + n / 0x80 % 0x80, n % 0x80]
  {
    if 0x4000 <= n {
      assert ContinuationOctets(n / 0x80 / 0x80) == [0x80 + n / 0x80 / 0x80];
      assert n / 0x80 / 0x80 == n / 0x4000;
    }
  }

  lemma OidIs(first: nat, rest: Oid)
    ensures EncodeOid([first] + rest) == EncodeSubidentifier(first) + EncodeOid(rest)
    ensures EncodeOid([]) == []
  {
    assert ([first] + rest)[1..] == rest;
  }

  /** 2.16.840.1.101.3.4 and one or two arcs more: what NIST has registered. */
  lemma NistOid(a: nat, b: nat)
    requires a < 0x80 && b < 0x80
    ensures EncodeOid([96, 840, 1, 101, 3, 4, a, b]) == [0x60, 0x86, 0x48, 0x01, 0x65, 0x03, 0x04, a, b]
  {
    SubidentifierIs(840);
    OidIs(b, []);
    OidIs(a, [b]);
    OidIs(4, [a, b]);
    OidIs(3, [4, a, b]);
    OidIs(101, [3, 4, a, b]);
    OidIs(1, [101, 3, 4, a, b]);
    OidIs(840, [1, 101, 3, 4, a, b]);
    OidIs(96, [840, 1, 101, 3, 4, a, b]);
  }

  /** The algorithms a PDU may name, in octets: ML-KEM-768 and ML-KEM-1024 (RFC 9935), SHA-256, AES-256-GCM
      (RFC 5084) and ChaCha20-Poly1305 (RFC 8103). */
  lemma AlgorithmOctets()
    ensures EncodeOid(MLKEM_768) == [0x60, 0x86, 0x48, 0x01, 0x65, 0x03, 0x04, 0x04, 0x02]
    ensures EncodeOid(MLKEM_1024) == [0x60, 0x86, 0x48, 0x01, 0x65, 0x03, 0x04, 0x04, 0x03]
    ensures EncodeOid(K.SHA256) == [0x60, 0x86, 0x48, 0x01, 0x65, 0x03, 0x04, 0x02, 0x01]
    ensures EncodeOid(C.AeadOid(C.Aes256Gcm)) == [0x60, 0x86, 0x48, 0x01, 0x65, 0x03, 0x04, 0x01, 0x2E]
    ensures EncodeOid(C.AeadOid(C.ChaCha20Poly1305))
         == [0x2A, 0x86, 0x48, 0x86, 0xF7, 0x0D, 0x01, 0x09, 0x10, 0x03, 0x12]
  {
    NistOid(4, 2);
    NistOid(4, 3);
    NistOid(2, 1);
    NistOid(1, 46);
    RsaOid();
  }

  lemma RsaOid()
    ensures EncodeOid([42, 840, 113549, 1, 9, 16, 3, 18])
         == [0x2A, 0x86, 0x48, 0x86, 0xF7, 0x0D, 0x01, 0x09, 0x10, 0x03, 0x12]
  {
    hide EncodeSubidentifier, EncodeOid;
    SubidentifierIs(840);
    SubidentifierIs(113549);
    SubidentifierIs(42);
    ShortArcs();
    OidIs(113549, [1, 9, 16, 3, 18]);
    assert [113549] + [1, 9, 16, 3, 18] == [113549, 1, 9, 16, 3, 18];
    OidIs(840, [113549, 1, 9, 16, 3, 18]);
    assert [840] + [113549, 1, 9, 16, 3, 18] == [840, 113549, 1, 9, 16, 3, 18];
    OidIs(42, [840, 113549, 1, 9, 16, 3, 18]);
    assert [42] + [840, 113549, 1, 9, 16, 3, 18] == [42, 840, 113549, 1, 9, 16, 3, 18];
  }

  lemma ShortArcs()
    ensures EncodeOid([1, 9, 16, 3, 18]) == [0x01, 0x09, 0x10, 0x03, 0x12]
  {
    OidIs(18, []);
    OidIs(3, [18]);
    OidIs(16, [3, 18]);
    OidIs(9, [16, 3, 18]);
    OidIs(1, [9, 16, 3, 18]);
  }

  // ---- elements -----------------------------------------------------------------------------------------------

  /** A tag, the length of what follows, and what follows. */
  function Field(tag: byte, content: Bytes): Bytes {
    [tag] + EncodeLength(|content|) + content
  }

  lemma FieldIsTlv(tag: byte, content: Bytes)
    ensures Put(Shortest, tag, content) == Field(tag, content)
  {
  }

  function AlgorithmField(a: AlgorithmIdentifier): Bytes {
    Field(0x30, Field(0x06, EncodeOid(a.algorithm))
                + match a.parameters
                  case None => []
                  case Some(p) => Field(p.tag, p.content))
  }

  /** A KEM key, a KEM ciphertext or a key id. */
  function LabelledField(x: Labelled): Bytes {
    Field(0x30, AlgorithmField(x.algorithm) + Field(0x04, x.octets))
  }

  function OidFields(oids: seq<Oid>): Bytes {
    if oids == [] then [] else Field(0x06, EncodeOid(oids[0])) + OidFields(oids[1..])
  }

  /** Each alternative under its own context tag, its fields in order; a reply under [0]. */
  function PayloadField(p: Payload): Bytes {
    match p
    case SessionInitRequest(ct1, keyIdB, pkAStar, keyIdA, aeads) =>
      Field(0xA0, LabelledField(ct1) + LabelledField(keyIdB) + LabelledField(pkAStar) + LabelledField(keyIdA)
                  + Field(0x30, OidFields(aeads)))
    case SessionInitResponse(pkBStar, ct2, ct3, nB, aead) =>
      Field(0xA1, LabelledField(pkBStar) + LabelledField(ct2) + LabelledField(ct3) + Field(0x04, nB)
                  + Field(0x06, EncodeOid(aead)))
    case SessionCompletionRequest(cM, ct4, nA) =>
      Field(0xA2, Field(0x04, cM) + LabelledField(ct4) + Field(0x04, nA))
    case SessionCompletionResponse(hM, None) => Field(0xA3, Field(0x04, hM))
    case SessionCompletionResponse(hM, Some(reply)) => Field(0xA3, Field(0x04, hM) + Field(0x80, reply))
    case Message(seqno, m) => Field(0xA4, Field(0x02, EncodeInteger(seqno)) + Field(0x04, m))
  }

  lemma AlgorithmIs(a: AlgorithmIdentifier)
    ensures EncodeAlgorithm(Shortest, a) == AlgorithmField(a)
  {
    hide EncodeLength, EncodeOid;
  }

  lemma LabelledIs(x: Labelled)
    ensures EncodeLabelled(Shortest, x) == LabelledField(x)
  {
    hide EncodeLength, AlgorithmField, EncodeAlgorithm;
    AlgorithmIs(x.algorithm);
  }

  lemma {:induction false} OidsAre(oids: seq<Oid>)
    ensures EncodeOids(Shortest, oids) == OidFields(oids)
  {
    hide EncodeLength, EncodeOid;
    if oids != [] {
      OidsAre(oids[1..]);
    }
  }

  lemma RequestIs(p: Payload)
    requires p.SessionInitRequest?
    ensures Put(Shortest, Alternative(p), PayloadFields(Shortest, p)) == PayloadField(p)
  {
    hide Field, Put, EncodeOids, EncodeLabelled, LabelledField, OidFields;
    LabelledIs(p.ct1);
    LabelledIs(p.keyIdB);
    LabelledIs(p.pkAStar);
    LabelledIs(p.keyIdA);
    OidsAre(p.acceptableAeads);
    FieldIsTlv(0x30, OidFields(p.acceptableAeads));
    var list := Field(0x30, OidFields(p.acceptableAeads));
    var k, l, m, n := LabelledField(p.ct1), LabelledField(p.keyIdB), LabelledField(p.pkAStar), LabelledField(p.keyIdA);
    assert k + (l + (m + (n + list))) == k + l + m + n + list;
    FieldIsTlv(0xA0, k + l + m + n + list);
  }

  lemma ResponseIs(p: Payload)
    requires p.SessionInitResponse?
    ensures Put(Shortest, Alternative(p), PayloadFields(Shortest, p)) == PayloadField(p)
  {
    hide Field, Put, EncodeOid, EncodeLabelled, LabelledField;
    LabelledIs(p.pkBStar);
    LabelledIs(p.ct2);
    LabelledIs(p.ct3);
    FieldIsTlv(0x04, p.nB);
    FieldIsTlv(0x06, EncodeOid(p.chosenAead));
    var k, l, m := LabelledField(p.pkBStar), LabelledField(p.ct2), LabelledField(p.ct3);
    var n, o := Field(0x04, p.nB), Field(0x06, EncodeOid(p.chosenAead));
    assert k + (l + (m + (n + o))) == k + l + m + n + o;
    FieldIsTlv(0xA1, k + l + m + n + o);
  }

  lemma CompletionIs(p: Payload)
    requires p.SessionCompletionRequest?
    ensures Put(Shortest, Alternative(p), PayloadFields(Shortest, p)) == PayloadField(p)
  {
    hide Field, Put, EncodeLabelled, LabelledField;
    LabelledIs(p.ct4);
    FieldIsTlv(0x04, p.cM);
    FieldIsTlv(0x04, p.nA);
    var k, l, m := Field(0x04, p.cM), LabelledField(p.ct4), Field(0x04, p.nA);
    assert k + (l + m) == k + l + m;
    FieldIsTlv(0xA2, k + l + m);
  }

  lemma ConfirmationIs(p: Payload)
    requires p.SessionCompletionResponse?
    ensures Put(Shortest, Alternative(p), PayloadFields(Shortest, p)) == PayloadField(p)
  {
    hide Field, Put;
    FieldIsTlv(0x04, p.hM);
    if p.reply.Some? {
      FieldIsTlv(0x80, p.reply.value);
      FieldIsTlv(0xA3, Field(0x04, p.hM) + Field(0x80, p.reply.value));
    } else {
      assert Field(0x04, p.hM) + [] == Field(0x04, p.hM);
      FieldIsTlv(0xA3, Field(0x04, p.hM));
    }
  }

  lemma TrafficIs(p: Payload)
    requires p.Message?
    ensures Put(Shortest, Alternative(p), PayloadFields(Shortest, p)) == PayloadField(p)
  {
    hide Field, Put, EncodeInteger;
    FieldIsTlv(0x02, EncodeInteger(p.seqno));
    FieldIsTlv(0x04, p.m);
    FieldIsTlv(0xA4, Field(0x02, EncodeInteger(p.seqno)) + Field(0x04, p.m));
  }

  lemma PayloadIs(p: Payload)
    ensures Put(Shortest, Alternative(p), PayloadFields(Shortest, p)) == PayloadField(p)
  {
    hide Put, Alternative, PayloadFields, PayloadField;
    match p
    case SessionInitRequest(_, _, _, _, _) => RequestIs(p);
    case SessionInitResponse(_, _, _, _, _) => ResponseIs(p);
    case SessionCompletionRequest(_, _, _) => CompletionIs(p);
    case SessionCompletionResponse(_, _) => ConfirmationIs(p);
    case Message(_, _) => TrafficIs(p);
  }

  // ---- the envelope -----------------------------------------------------------------------------------------------

  /** The message as it goes out: the version only where it is not 0, the cid, and the payload. */
  function Layout(m: MakeMessage): Bytes {
    Field(0x30, (if m.version == 0 then [] else Field(0x02, EncodeInteger(m.version))) + Field(0x04, m.cid)
                + PayloadField(m.payload))
  }

  /** What is written for a message is its layout; and the layout of a message that may be sent, and of no
      other, is accepted, as that message. */
  lemma LayoutIsAccepted(m: MakeMessage)
    ensures Encode(m) == Layout(m)
    ensures Load(Layout(m)) == Ok(m) <==> Valid(m)
  {
    hide Field, Put, EncodeInteger, Alternative, PayloadFields, PayloadField, Load, Valid;
    PayloadIs(m.payload);
    FieldIsTlv(0x02, EncodeInteger(m.version));
    FieldIsTlv(0x04, m.cid);
    var version := if m.version == 0 then [] else Field(0x02, EncodeInteger(m.version));
    var k, l := Field(0x04, m.cid), PayloadField(m.payload);
    assert version + (k + l) == version + k + l;
    FieldIsTlv(0x30, version + k + l);
    AcceptedLanguage(Layout(m), m);
  }

  lemma ShortField(tag: byte, content: Bytes)
    requires |content| < 0x80
    ensures Field(tag, content) == [tag, |content|] + content
  {
  }

  /** A confirmation with a reply, of ordinary size, octet by octet. */
  lemma ConfirmationOctets(cid: Bytes, hM: Bytes, reply: Bytes)
    requires |cid| == 16 && |hM| == 32 && |reply| < 64
    ensures Encode(MakeMessage(0, cid, SessionCompletionResponse(hM, Some(reply))))
         == [0x30, 56 + |reply|] + ([0x04, 16] + cid
              + ([0xA3, 36 + |reply|] + ([0x04, 32] + hM + ([0x80, |reply|] + reply))))
  {
    hide Encode, Field, EncodeInteger;
    LayoutIsAccepted(MakeMessage(0, cid, SessionCompletionResponse(hM, Some(reply))));
    ShortField(0x04, hM);
    ShortField(0x80, reply);
    ShortField(0x04, cid);
    var inner := [0x04, 32] + hM + ([0x80, |reply|] + reply);
    ShortField(0xA3, inner);
    var all := [0x04, 16] + cid + ([0xA3, |inner|] + inner);
    assert [] + ([0x04, 16] + cid) + ([0xA3, |inner|] + inner) == all by {
      assert [] + ([0x04, 16] + cid) == [0x04, 16] + cid;
    }
    ShortField(0x30, all);
  }

  /** A message, octet by octet. */
  lemma MessageOctets(cid: Bytes, n: nat, m: Bytes)
    requires |cid| == 16 && n < 0x80 && |m| < 64
    ensures Encode(MakeMessage(0, cid, Message(n, m)))
         == [0x30, 25 + |m|] + ([0x04, 16] + cid + ([0xA4, 5 + |m|] + ([0x02, 1, n] + ([0x04, |m|] + m))))
  {
    hide Encode, Field, EncodeInteger;
    LayoutIsAccepted(MakeMessage(0, cid, Message(n, m)));
    ShortField(0x02, [n]);
    ShortField(0x04, m);
    ShortField(0x04, cid);
    IntegerIs(n);
    assert [0x02, 1] + [n] == [0x02, 1, n];
    var inner := [0x02, 1, n] + ([0x04, |m|] + m);
    ShortField(0xA4, inner);
    var all := [0x04, 16] + cid + ([0xA4, |inner|] + inner);
    assert [] + ([0x04, 16] + cid) + ([0xA4, |inner|] + inner) == all by {
      assert [] + ([0x04, 16] + cid) == [0x04, 16] + cid;
    }
    ShortField(0x30, all);
  }

  // ---- why a message is refused -----------------------------------------------------------------------------------

  /** Written as it stands, a message that can be written at all is refused for an empty false start before
      it is refused for its cid, and for nothing else. */
  lemma RefusedFor(m: MakeMessage)
    requires WellFormedPayload(m.payload) && Expressible(|EncodeFields(Shortest, m)|)
    ensures Load(Layout(m)) ==
            if m.payload.SessionCompletionRequest? && m.payload.cM == [] then Err(EmptyFalseStartPayload)
            else if |m.cid| != 16 then Err(InvalidCorrelationId)
            else Ok(m)
  {
    hide Read, EncodeFields, Write, Layout;
    LayoutIsAccepted(m);
    ReadOfEncode(Shortest, m, []);
    assert Write(Shortest, m) + [] == Encode(m);
  }

  /** Of a KEM key or ciphertext that can be written at all: an algorithm that is not known is told from a
      length that is not the algorithm's. */
  lemma KemRefusedFor(x: Labelled, table: Oid -> Option<nat>)
    requires Writable(x)
    ensures LoadKemValue(LabelledField(x), table) ==
            if table(x.algorithm.algorithm).None? then Err(UnknownKemAlgorithm)
            else if table(x.algorithm.algorithm).value != |x.octets| then Err(KemLengthMismatch)
            else Ok(x)
  {
    hide ReadLabelled, EncodeLabelled, LabelledField;
    LabelledIs(x);
    LabelledRoundTrip(Shortest, x, []);
    assert EncodeLabelled(Shortest, x) + [] == EncodeLabelled(Shortest, x);
  }
}
