/** The message grammar: five PDUs in a versioned envelope, written in DER, and the acceptance
    rule "parse leniently, then insist that writing the result again gives the same octets". */
module Wire {
  import opened Base
  import opened Der

  const INTEGER: byte := 0x02
  const OCTET_STRING: byte := 0x04
  const OBJECT_IDENTIFIER: byte := 0x06
  const SEQUENCE: byte := 0x30
  const REPLY_TAG: byte := 0x80    // [0] IMPLICIT OCTET STRING
  const PAYLOAD_TAG: byte := 0xA0  // [0] IMPLICIT SEQUENCE; the alternatives follow in order

  const CID_LENGTH := 16

  // ---- values -------------------------------------------------------------------------------

  /** An element of any type, kept as it stands. */
  datatype Any = Any(tag: byte, content: Bytes)

  datatype AlgorithmIdentifier = AlgorithmIdentifier(algorithm: Oid, parameters: Option<Any>)

  /** KEM public keys, KEM ciphertexts and key ids all pair an algorithm with octets. */
  datatype Labelled = Labelled(algorithm: AlgorithmIdentifier, octets: Bytes)

  type KemPublicKey = Labelled
  type KemCiphertext = Labelled
  type KeyId = Labelled

  datatype Payload =
    | SessionInitRequest(ct1: KemCiphertext, keyIdB: KeyId, pkAStar: KemPublicKey, keyIdA: KeyId,
                         acceptableAeads: seq<Oid>)
    | SessionInitResponse(pkBStar: KemPublicKey, ct2: KemCiphertext, ct3: KemCiphertext,
                          nB: Bytes, chosenAead: Oid)
    | SessionCompletionRequest(cM: Bytes, ct4: KemCiphertext, nA: Bytes)
    | SessionCompletionResponse(hM: Bytes, reply: Option<Bytes>)
    | Message(seqno: int, m: Bytes)

  datatype MakeMessage = MakeMessage(version: int, cid: Bytes, payload: Payload)

  /** Values the object layer can hold: an identifier has at least one arc. */
  predicate WellFormedAlgorithm(a: AlgorithmIdentifier) {
    a.algorithm != [] && (a.parameters.Some? ==> ShortTag(a.parameters.value.tag))
  }

  predicate WellFormedPayload(p: Payload) {
    match p
    case SessionInitRequest(ct1, kb, pk, ka, aeads) =>
      && WellFormedAlgorithm(ct1.algorithm) && WellFormedAlgorithm(kb.algorithm)
      && WellFormedAlgorithm(pk.algorithm) && WellFormedAlgorithm(ka.algorithm)
      && forall oid <- aeads :: oid != []
    case SessionInitResponse(pk, ct2, ct3, _, aead) =>
      && WellFormedAlgorithm(pk.algorithm) && WellFormedAlgorithm(ct2.algorithm)
      && WellFormedAlgorithm(ct3.algorithm) && aead != []
    case SessionCompletionRequest(_, ct4, _) => WellFormedAlgorithm(ct4.algorithm)
    case SessionCompletionResponse(_, _) => true
    case Message(_, _) => true
  }

  /** A message that may be sent: DER can express it, the correlation id has 128 bits, and a
      false-start payload is not empty. */
  predicate Valid(m: MakeMessage) {
    && WellFormedPayload(m.payload)
    && Expressible(|EncodeFields(Shortest, m)|)
    && |m.cid| == CID_LENGTH
    && (m.payload.SessionCompletionRequest? ==> m.payload.cM != [])
  }

  // ---- writing ------------------------------------------------------------------------------

  function EncodeAlgorithm(w: Lengths, a: AlgorithmIdentifier): Bytes {
    Put(w, SEQUENCE, Put(Inside(w, 0), OBJECT_IDENTIFIER, EncodeOid(a.algorithm)) +
        if a.parameters.Some? then Put(Inside(w, 1), a.parameters.value.tag, a.parameters.value.content) else [])
  }

  function EncodeLabelled(w: Lengths, x: Labelled): Bytes {
    Put(w, SEQUENCE, EncodeAlgorithm(Inside(w, 0), x.algorithm) + Put(Inside(w, 1), OCTET_STRING, x.octets))
  }

  function EncodeOids(w: Lengths, oids: seq<Oid>): Bytes
    decreases |oids|
  {
    if oids == [] then []
    else Put(Inside(w, 0), OBJECT_IDENTIFIER, EncodeOid(oids[0])) + EncodeOids(Inside(w, 1), oids[1..])
  }

  function PayloadFields(w: Lengths, p: Payload): Bytes {
    var w0, w1, w2, w3, w4 := Inside(w, 0), Inside(w, 1), Inside(w, 2), Inside(w, 3), Inside(w, 4);
    match p
    case SessionInitRequest(ct1, kb, pk, ka, aeads) =>
      EncodeLabelled(w0, ct1) + (EncodeLabelled(w1, kb) + (EncodeLabelled(w2, pk) + (EncodeLabelled(w3, ka) +
      Put(w4, SEQUENCE, EncodeOids(w4, aeads)))))
    case SessionInitResponse(pk, ct2, ct3, nB, aead) =>
      EncodeLabelled(w0, pk) + (EncodeLabelled(w1, ct2) + (EncodeLabelled(w2, ct3) + (Put(w3, OCTET_STRING, nB) +
      Put(w4, OBJECT_IDENTIFIER, EncodeOid(aead)))))
    case SessionCompletionRequest(cM, ct4, nA) =>
      Put(w0, OCTET_STRING, cM) + (EncodeLabelled(w1, ct4) + Put(w2, OCTET_STRING, nA))
    case SessionCompletionResponse(hM, reply) =>
      Put(w0, OCTET_STRING, hM) + (if reply.Some? then Put(w1, REPLY_TAG, reply.value) else [])
    case Message(seqno, m) =>
      Put(w0, INTEGER, EncodeInteger(seqno)) + Put(w1, OCTET_STRING, m)
  }

  function Alternative(p: Payload): byte {
    match p
    case SessionInitRequest(_, _, _, _, _) => PAYLOAD_TAG
    case SessionInitResponse(_, _, _, _, _) => PAYLOAD_TAG + 1
    case SessionCompletionRequest(_, _, _) => PAYLOAD_TAG + 2
    case SessionCompletionResponse(_, _) => PAYLOAD_TAG + 3
    case Message(_, _) => PAYLOAD_TAG + 4
  }

  function Envelope(w: Lengths, m: MakeMessage): Bytes {
    Put(Inside(w, 1), OCTET_STRING, m.cid) +
    Put(Inside(w, 2), Alternative(m.payload), PayloadFields(Inside(w, 2), m.payload))
  }

  /** Section 11.5: the version is left out when it has its default value. */
  function EncodeFields(w: Lengths, m: MakeMessage): Bytes {
    (if m.version == 0 then [] else Put(Inside(w, 0), INTEGER, EncodeInteger(m.version))) +
    Envelope(w, m)
  }

  function Write(w: Lengths, m: MakeMessage): Bytes {
    Put(w, SEQUENCE, EncodeFields(w, m))
  }

  /** The one encoding. */
  function Encode(m: MakeMessage): Bytes {
    Write(Shortest, m)
  }

  // ---- lenient reading ----------------------------------------------------------------------
  // Octets left over inside or after a structure are ignored, lengths may be padded, numbers and
  // identifiers may have redundant octets, and a default value may be spelled out.

  function ReadOid(s: Bytes): (r: Option<(Oid, Bytes)>)
    ensures r.Some? ==> r.value.0 != [] && |r.value.1| < |s|
  {
    var e :- ReadTagged(OBJECT_IDENTIFIER, s);
    var oid := DecodeOid(e.content, 0);
    if oid == [] then None else Some((oid, e.rest))
  }

  function ReadOctets(tag: byte, s: Bytes): Option<(Bytes, Bytes)> {
    var e :- ReadTagged(tag, s);
    Some((e.content, e.rest))
  }

  function ReadInteger(s: Bytes): Option<(int, Bytes)> {
    var e :- ReadTagged(INTEGER, s);
    if e.content == [] then Some((0, e.rest)) else Some((DecodeInteger(e.content), e.rest))
  }

  function ReadAlgorithm(s: Bytes): (r: Option<(AlgorithmIdentifier, Bytes)>)
    ensures r.Some? ==> WellFormedAlgorithm(r.value.0)
  {
    var e :- ReadTagged(SEQUENCE, s);
    var (oid, more) :- ReadOid(e.content);
    if more == [] then Some((AlgorithmIdentifier(oid, None), e.rest))
    else
      var p :- ReadTlv(more);
      Some((AlgorithmIdentifier(oid, Some(Any(p.tag, p.content))), e.rest))
  }

  function ReadLabelled(s: Bytes): (r: Option<(Labelled, Bytes)>)
    ensures r.Some? ==> WellFormedAlgorithm(r.value.0.algorithm)
  {
    var e :- ReadTagged(SEQUENCE, s);
    var (algorithm, more) :- ReadAlgorithm(e.content);
    var (octets, _) :- ReadOctets(OCTET_STRING, more);
    Some((Labelled(algorithm, octets), e.rest))
  }

  function ReadOids(s: Bytes): (r: Option<seq<Oid>>)
    ensures r.Some? ==> forall oid <- r.value :: oid != []
    decreases |s|
  {
    if s == [] then Some([])
    else
      var (oid, rest) :- ReadOid(s);
      var oids :- ReadOids(rest);
      Some([oid] + oids)
  }

  function ReadPayload(alternative: byte, s: Bytes): (r: Option<Payload>)
    ensures r.Some? ==> WellFormedPayload(r.value)
  {
    if alternative == PAYLOAD_TAG then
      var (ct1, s1) :- ReadLabelled(s);
      var (kb, s2) :- ReadLabelled(s1);
      var (pk, s3) :- ReadLabelled(s2);
      var (ka, s4) :- ReadLabelled(s3);
      var e :- ReadTagged(SEQUENCE, s4);
      var aeads :- ReadOids(e.content);
      Some(SessionInitRequest(ct1, kb, pk, ka, aeads))
    else if alternative == PAYLOAD_TAG + 1 then
      var (pk, s1) :- ReadLabelled(s);
      var (ct2, s2) :- ReadLabelled(s1);
      var (ct3, s3) :- ReadLabelled(s2);
      var (nB, s4) :- ReadOctets(OCTET_STRING, s3);
      var (aead, _) :- ReadOid(s4);
      Some(SessionInitResponse(pk, ct2, ct3, nB, aead))
    else if alternative == PAYLOAD_TAG + 2 then
      var (cM, s1) :- ReadOctets(OCTET_STRING, s);
      var (ct4, s2) :- ReadLabelled(s1);
      var (nA, _) :- ReadOctets(OCTET_STRING, s2);
      Some(SessionCompletionRequest(cM, ct4, nA))
    else if alternative == PAYLOAD_TAG + 3 then
      var (hM, s1) :- ReadOctets(OCTET_STRING, s);
      var reply := ReadOctets(REPLY_TAG, s1);
      Some(SessionCompletionResponse(hM, if reply.Some? then Some(reply.value.0) else None))
    else if alternative == PAYLOAD_TAG + 4 then
      var (seqno, s1) :- ReadInteger(s);
      var (m, _) :- ReadOctets(OCTET_STRING, s1);
      Some(Message(seqno, m))
    else None
  }

  function ReadEnvelope(version: int, s: Bytes): (r: Option<MakeMessage>)
    ensures r.Some? ==> WellFormedPayload(r.value.payload)
  {
    var (cid, last) :- ReadOctets(OCTET_STRING, s);
    var choice :- ReadTlv(last);
    var payload :- ReadPayload(choice.tag, choice.content);
    Some(MakeMessage(version, cid, payload))
  }

  function ReadFields(s: Bytes): (r: Option<MakeMessage>)
    ensures r.Some? ==> WellFormedPayload(r.value.payload)
  {
    match ReadInteger(s)
    case Some((version, more)) => ReadEnvelope(version, more)
    case None => ReadEnvelope(0, s)
  }

  function Read(s: Bytes): (r: Option<MakeMessage>)
    ensures r.Some? ==> WellFormedPayload(r.value.payload)
  {
    var e :- ReadTagged(SEQUENCE, s);
    ReadFields(e.content)
  }

  // ---- acceptance ---------------------------------------------------------------------------

  datatype LoadError =
    | Unparsable
    | EmptyFalseStartPayload
    | NonCanonicalEncoding
    | InvalidCorrelationId

  /** MakeMessage.load: read, write again, compare, then check the length of the cid. */
  function Load(s: Bytes): Result<MakeMessage, LoadError> {
    match Read(s)
    case None => Err(Unparsable)
    case Some(m) =>
      if m.payload.SessionCompletionRequest? && m.payload.cM == [] then Err(EmptyFalseStartPayload)
      else if !Expressible(|EncodeFields(Shortest, m)|) || Encode(m) != s then Err(NonCanonicalEncoding)
      else if |m.cid| != CID_LENGTH then Err(InvalidCorrelationId)
      else Ok(m)
  }

  lemma PutIsLonger(w: Lengths, tag: byte, content: Bytes)
    ensures |Put(w, tag, content)| > |content|
  {
  }

  // ---- reading undoes writing ---------------------------------------------------------------

  lemma AlgorithmRoundTrip(w: Lengths, a: AlgorithmIdentifier, rest: Bytes)
    requires Readable(w)
    requires WellFormedAlgorithm(a) && Expressible(|EncodeAlgorithm(w, a)|)
    ensures ReadAlgorithm(EncodeAlgorithm(w, a) + rest) == Some((a, rest))
  {
    hide ReadTlv, Put, EncodeOid, DecodeOid, Readable;
    var oid := EncodeOid(a.algorithm);
    var tail := if a.parameters.None? then []
                else Put(Inside(w, 1), a.parameters.value.tag, a.parameters.value.content);
    var content := Put(Inside(w, 0), OBJECT_IDENTIFIER, oid) + tail;
    PutIsLonger(w, SEQUENCE, content);
    PutIsLonger(Inside(w, 0), OBJECT_IDENTIFIER, oid);
    ExpressibleBelow(|content|, |EncodeAlgorithm(w, a)|);
    ExpressibleBelow(|oid|, |content|);
    PutRoundTrip(w, SEQUENCE, content, rest);
    PutRoundTrip(Inside(w, 0), OBJECT_IDENTIFIER, oid, tail);
    OidRoundTrip(a.algorithm);
    if a.parameters.Some? {
      var p := a.parameters.value;
      PutIsLonger(Inside(w, 1), p.tag, p.content);
      ExpressibleBelow(|p.content|, |content|);
      PutRoundTrip(Inside(w, 1), p.tag, p.content, []);
      assert tail + [] == tail;
    }
  }

  lemma LabelledRoundTrip(w: Lengths, x: Labelled, rest: Bytes)
    requires Readable(w)
    requires WellFormedAlgorithm(x.algorithm) && Expressible(|EncodeLabelled(w, x)|)
    ensures ReadLabelled(EncodeLabelled(w, x) + rest) == Some((x, rest))
  {
    hide ReadTlv, EncodeAlgorithm, ReadAlgorithm;
    var octets := Put(Inside(w, 1), OCTET_STRING, x.octets);
    var content := EncodeAlgorithm(Inside(w, 0), x.algorithm) + octets;
    ExpressibleBelow(|content|, |EncodeLabelled(w, x)|);
    ExpressibleBelow(|EncodeAlgorithm(Inside(w, 0), x.algorithm)|, |content|);
    ExpressibleBelow(|x.octets|, |content|);
    PutRoundTrip(w, SEQUENCE, content, rest);
    AlgorithmRoundTrip(Inside(w, 0), x.algorithm, octets);
    PutRoundTrip(Inside(w, 1), OCTET_STRING, x.octets, []);
    assert octets + [] == octets;
  }

  lemma OidFieldRoundTrip(w: Lengths, oid: Oid, rest: Bytes)
    requires Readable(w)
    requires oid != [] && Expressible(|Put(w, OBJECT_IDENTIFIER, EncodeOid(oid))|)
    ensures ReadOid(Put(w, OBJECT_IDENTIFIER, EncodeOid(oid)) + rest) == Some((oid, rest))
  {
    hide ReadTlv, Put, DecodeOid, EncodeOid;
    PutIsLonger(w, OBJECT_IDENTIFIER, EncodeOid(oid));
    ExpressibleBelow(|EncodeOid(oid)|, |Put(w, OBJECT_IDENTIFIER, EncodeOid(oid))|);
    PutRoundTrip(w, OBJECT_IDENTIFIER, EncodeOid(oid), rest);
    OidRoundTrip(oid);
  }

  lemma {:induction false} OidsRoundTrip(w: Lengths, oids: seq<Oid>)
    requires Readable(w)
    requires forall oid <- oids :: oid != []
    requires Expressible(|EncodeOids(w, oids)|)
    ensures ReadOids(EncodeOids(w, oids)) == Some(oids)
    decreases |oids|
  {
    hide ReadOid, Put, EncodeOid;
    if oids != [] {
      var first, more := Put(Inside(w, 0), OBJECT_IDENTIFIER, EncodeOid(oids[0])), EncodeOids(Inside(w, 1), oids[1..]);
      PutIsLonger(Inside(w, 0), OBJECT_IDENTIFIER, EncodeOid(oids[0]));
      ExpressibleBelow(|first|, |first + more|);
      ExpressibleBelow(|more|, |first + more|);
      assert oids[0] in oids && forall oid <- oids[1..] :: oid in oids;
      OidFieldRoundTrip(Inside(w, 0), oids[0], more);
      assert oids == [oids[0]] + oids[1..];
      OidsRoundTrip(Inside(w, 1), oids[1..]);
    }
  }

  lemma OctetsRoundTrip(w: Lengths, tag: byte, octets: Bytes, rest: Bytes)
    requires Readable(w)
    requires ShortTag(tag) && Expressible(|Put(w, tag, octets)|)
    ensures ReadOctets(tag, Put(w, tag, octets) + rest) == Some((octets, rest))
    ensures ReadOctets(tag, Put(w, tag, octets)).Some?
    ensures ReadOctets(tag, Put(w, tag, octets)).value.0 == octets
  {
    ExpressibleBelow(|octets|, |Put(w, tag, octets)|);
    PutRoundTrip(w, tag, octets, rest);
    PutRoundTrip(w, tag, octets, []);
    assert Put(w, tag, octets) + [] == Put(w, tag, octets);
  }

  lemma IntegerFieldRoundTrip(w: Lengths, n: int, rest: Bytes)
    requires Readable(w)
    requires Expressible(|Put(w, INTEGER, EncodeInteger(n))|)
    ensures ReadInteger(Put(w, INTEGER, EncodeInteger(n)) + rest) == Some((n, rest))
  {
    OctetsRoundTrip(w, INTEGER, EncodeInteger(n), rest);
    IntegerRoundTrip(n);
  }

  lemma PayloadRoundTrip(w: Lengths, p: Payload)
    requires Readable(w)
    requires WellFormedPayload(p) && Expressible(|PayloadFields(w, p)|)
    ensures ReadPayload(Alternative(p), PayloadFields(w, p)) == Some(p)
  {
    hide ReadTlv, Put, EncodeLabelled, ReadLabelled;
    var n := |PayloadFields(w, p)|;
    forall k: nat | k <= n ensures Expressible(k) {
      ExpressibleBelow(k, n);
    }
    var w0, w1, w2, w3, w4 := Inside(w, 0), Inside(w, 1), Inside(w, 2), Inside(w, 3), Inside(w, 4);
    match p
    case SessionInitRequest(ct1, kb, pk, ka, aeads) =>
      var oids := EncodeOids(w4, aeads);
      var s4 := Put(w4, SEQUENCE, oids);
      PutIsLonger(w4, SEQUENCE, oids);
      var s3 := EncodeLabelled(w3, ka) + s4;
      var s2 := EncodeLabelled(w2, pk) + s3;
      LabelledRoundTrip(w0, ct1, EncodeLabelled(w1, kb) + s2);
      LabelledRoundTrip(w1, kb, s2);
      LabelledRoundTrip(w2, pk, s3);
      LabelledRoundTrip(w3, ka, s4);
      PutRoundTrip(w4, SEQUENCE, oids, []);
      assert s4 + [] == s4;
      OidsRoundTrip(w4, aeads);
    case SessionInitResponse(pk, ct2, ct3, nB, aead) =>
      var s4 := Put(w4, OBJECT_IDENTIFIER, EncodeOid(aead));
      var s3 := Put(w3, OCTET_STRING, nB) + s4;
      var s2 := EncodeLabelled(w2, ct3) + s3;
      LabelledRoundTrip(w0, pk, EncodeLabelled(w1, ct2) + s2);
      LabelledRoundTrip(w1, ct2, s2);
      LabelledRoundTrip(w2, ct3, s3);
      OctetsRoundTrip(w3, OCTET_STRING, nB, s4);
      OctetsRoundTrip(w4, OBJECT_IDENTIFIER, EncodeOid(aead), []);
      OidRoundTrip(aead);
    case SessionCompletionRequest(cM, ct4, nA) =>
      var s2 := Put(w2, OCTET_STRING, nA);
      OctetsRoundTrip(w0, OCTET_STRING, cM, EncodeLabelled(w1, ct4) + s2);
      LabelledRoundTrip(w1, ct4, s2);
      OctetsRoundTrip(w2, OCTET_STRING, nA, []);
    case SessionCompletionResponse(hM, reply) =>
      var s1 := if reply.Some? then Put(w1, REPLY_TAG, reply.value) else [];
      OctetsRoundTrip(w0, OCTET_STRING, hM, s1);
      if reply.Some? {
        OctetsRoundTrip(w1, REPLY_TAG, reply.value, []);
      }
    case Message(seqno, m) =>
      IntegerFieldRoundTrip(w0, seqno, Put(w1, OCTET_STRING, m));
      OctetsRoundTrip(w1, OCTET_STRING, m, []);
  }

  lemma EnvelopeRoundTrip(w: Lengths, m: MakeMessage)
    requires Readable(w)
    requires WellFormedPayload(m.payload) && Expressible(|Envelope(w, m)|)
    ensures ReadEnvelope(m.version, Envelope(w, m)) == Some(m)
    ensures ReadInteger(Envelope(w, m)) == None
  {
    hide ReadTlv, PayloadFields, ReadPayload;
    var n := |Envelope(w, m)|;
    forall k: nat | k <= n ensures Expressible(k) {
      ExpressibleBelow(k, n);
    }
    var w1, w2 := Inside(w, 1), Inside(w, 2);
    var choice := Put(w2, Alternative(m.payload), PayloadFields(w2, m.payload));
    OctetsRoundTrip(w1, OCTET_STRING, m.cid, choice);
    PutRoundTrip(w1, OCTET_STRING, m.cid, choice);
    PutRoundTrip(w2, Alternative(m.payload), PayloadFields(w2, m.payload), []);
    assert choice + [] == choice;
    PayloadRoundTrip(w2, m.payload);
  }

  lemma FieldsRoundTrip(w: Lengths, m: MakeMessage)
    requires Readable(w)
    requires WellFormedPayload(m.payload) && Expressible(|EncodeFields(w, m)|)
    ensures ReadFields(EncodeFields(w, m)) == Some(m)
    ensures m.version == 0 ==> ReadInteger(EncodeFields(w, m)) == None
  {
    hide ReadTlv, Envelope, ReadEnvelope, ReadInteger, Put;
    ExpressibleBelow(|Envelope(w, m)|, |EncodeFields(w, m)|);
    EnvelopeRoundTrip(w, m);
    if m.version == 0 {
      assert EncodeFields(w, m) == Envelope(w, m);
    } else {
      ExpressibleBelow(|Put(Inside(w, 0), INTEGER, EncodeInteger(m.version))|, |EncodeFields(w, m)|);
      IntegerFieldRoundTrip(Inside(w, 0), m.version, Envelope(w, m));
    }
  }

  /** The lenient reader recovers a written message whatever follows it. */
  lemma ReadOfEncode(w: Lengths, m: MakeMessage, rest: Bytes)
    requires Readable(w)
    requires WellFormedPayload(m.payload) && Expressible(|EncodeFields(w, m)|)
    ensures Read(Write(w, m) + rest) == Some(m)
  {
    hide ReadTlv, ReadFields, EncodeFields, Put;
    FieldsRoundTrip(w, m);
    PutRoundTrip(w, SEQUENCE, EncodeFields(w, m), rest);
  }

  // ---- the language accepted ----------------------------------------------------------------

  /** Decoding undoes encoding for every message that may be sent. */
  lemma LoadOfEncode(m: MakeMessage)
    requires Valid(m)
    ensures Load(Encode(m)) == Ok(m)
  {
    hide Read, EncodeFields, Write;
    ReadOfEncode(Shortest, m, []);
    assert Write(Shortest, m) + [] == Encode(m);
  }

  /** The octet strings accepted are exactly the encodings of valid messages, each accepted as
      that message and no other. */
  lemma AcceptedLanguage(s: Bytes, m: MakeMessage)
    ensures Load(s) == Ok(m) <==> Valid(m) && s == Encode(m)
  {
    hide Read, Encode, EncodeFields;
    if Valid(m) && s == Encode(m) {
      LoadOfEncode(m);
    }
  }

  /** On accepted input, equal octets and equal meaning are the same thing: the reason a duplicate
      PDU may be recognised by comparing octets. */
  lemma ByteEqualityIsSemanticEquality(s: Bytes, m: MakeMessage, t: Bytes, n: MakeMessage)
    ensures Load(s) == Ok(m) && Load(t) == Ok(n) ==> (s == t <==> m == n)
  {
    hide Load, Encode;
    AcceptedLanguage(s, m);
    AcceptedLanguage(t, n);
  }

  /** Octets after the message are read over, then refused. */
  lemma TrailingOctetsRejected(m: MakeMessage, tail: Bytes)
    requires Valid(m) && tail != []
    ensures Read(Encode(m) + tail) == Some(m)
    ensures Load(Encode(m) + tail) == Err(NonCanonicalEncoding)
  {
    hide Read, EncodeFields, Write;
    ReadOfEncode(Shortest, m, tail);
    assert Write(Shortest, m) == Encode(m);
  }

  /** Every non-minimal definite length is understood, then refused: long form where the short one
      would do, or leading zero octets. */
  lemma NonMinimalLengthRejected(m: MakeMessage, k: nat)
    requires Valid(m) && k + |BigEndian(|EncodeFields(Shortest, m)|)| <= MAX_LENGTH_OCTETS
    requires k > 0 || |EncodeFields(Shortest, m)| < 128
    ensures var s := [SEQUENCE] + (PaddedLength(|EncodeFields(Shortest, m)|, k) + EncodeFields(Shortest, m));
            Read(s) == Some(m) && Load(s) == Err(NonCanonicalEncoding)
  {
    hide ReadFields, EncodeFields, ReadTlv, ReadLength;
    FieldsAreNotEmpty(m);
    FieldsRoundTrip(Shortest, m);
    var fields := EncodeFields(Shortest, m);
    BigEndianRoundTrip(|fields|);
    PaddedLengthIsRead(|fields|, k, fields + []);
    ElementIsRead(SEQUENCE, PaddedLength(|fields|, k), fields, []);
    var s := [SEQUENCE] + (PaddedLength(|fields|, k) + fields);
    assert s + [] == s;
    assert s[1] == 128 + k + |BigEndian(|fields|)|;
    assert Encode(m)[1] == EncodeLength(|fields|)[0];
  }

  lemma FieldsAreNotEmpty(m: MakeMessage)
    ensures EncodeFields(Shortest, m) != []
  {
  }

  /** Spelling out the default version is understood, then refused. */
  lemma ExplicitDefaultVersionRejected(m: MakeMessage)
    requires Valid(m) && m.version == 0
    requires Expressible(|Tlv(INTEGER, EncodeInteger(0)) + EncodeFields(Shortest, m)|)
    ensures var s := Tlv(SEQUENCE, Tlv(INTEGER, EncodeInteger(0)) + EncodeFields(Shortest, m));
            Read(s) == Some(m) && Load(s) == Err(NonCanonicalEncoding)
  {
    hide ReadTlv, ReadEnvelope, ReadInteger, EncodeFields, Put;
    var fields := EncodeFields(Shortest, m);
    var spelled := Tlv(INTEGER, EncodeInteger(0)) + fields;
    PutIsLonger(Shortest, INTEGER, EncodeInteger(0));
    PutRoundTrip(Shortest, SEQUENCE, spelled, []);
    PutRoundTrip(Shortest, SEQUENCE, fields, []);
    ExpressibleBelow(|Tlv(INTEGER, EncodeInteger(0))|, |spelled|);
    IntegerFieldRoundTrip(Shortest, 0, fields);
    FieldsRoundTrip(Shortest, m);
    assert Tlv(SEQUENCE, spelled) + [] == Tlv(SEQUENCE, spelled);
    assert Tlv(SEQUENCE, fields) + [] == Tlv(SEQUENCE, fields);
  }

  // ---- KEM values loaded on their own ---------------------------------------------------------

  const MLKEM_768: Oid := [96, 840, 1, 101, 3, 4, 4, 2]
  const MLKEM_1024: Oid := [96, 840, 1, 101, 3, 4, 4, 3]

  datatype KemError =
    | UnparsableKemValue
    | NonCanonicalKemValue
    | UnknownKemAlgorithm
    | KemLengthMismatch

  /** Table 3 of FIPS 203. */
  function PublicKeyLength(oid: Oid): Option<nat> {
    if oid == MLKEM_768 then Some(1184) else if oid == MLKEM_1024 then Some(1568) else None
  }

  function CiphertextLength(oid: Oid): Option<nat> {
    if oid == MLKEM_768 then Some(1088) else if oid == MLKEM_1024 then Some(1568) else None
  }

  /** KemPublicKey.load and KemCiphertext.load, which differ in the table of lengths. */
  function LoadKemValue(s: Bytes, table: Oid -> Option<nat>): Result<Labelled, KemError> {
    match ReadLabelled(s)
    case None => Err(UnparsableKemValue)
    case Some((x, _)) =>
      if !Expressible(|EncodeLabelled(Shortest, x)|) || EncodeLabelled(Shortest, x) != s then Err(NonCanonicalKemValue)
      else match table(x.algorithm.algorithm)
        case None => Err(UnknownKemAlgorithm)
        case Some(n) => if |x.octets| == n then Ok(x) else Err(KemLengthMismatch)
  }

  /** A value of a known level and of that level's length. */
  predicate WellSized(x: Labelled, table: Oid -> Option<nat>) {
    table(x.algorithm.algorithm) == Some(|x.octets|)
  }

  /** What can be written at all. */
  predicate Writable(x: Labelled) {
    WellFormedAlgorithm(x.algorithm) && Expressible(|EncodeLabelled(Shortest, x)|)
  }

  lemma AcceptedKemValues(s: Bytes, x: Labelled, table: Oid -> Option<nat>)
    ensures LoadKemValue(s, table) == Ok(x) <==> Writable(x) && s == EncodeLabelled(Shortest, x) && WellSized(x, table)
  {
    hide ReadLabelled, EncodeLabelled;
    if Writable(x) {
        LabelledRoundTrip(Shortest, x, []);
      assert EncodeLabelled(Shortest, x) + [] == EncodeLabelled(Shortest, x);
    }
  }

  /** Loaded on its own, a public key is accepted exactly when canonical and of 1184 octets under
      ML-KEM-768 or 1568 under ML-KEM-1024. */
  lemma AcceptedPublicKeys(s: Bytes, x: KemPublicKey)
    ensures LoadKemValue(s, PublicKeyLength) == Ok(x) <==>
              && Writable(x) && s == EncodeLabelled(Shortest, x)
              && ((x.algorithm.algorithm == MLKEM_768 && |x.octets| == 1184)
                  || (x.algorithm.algorithm == MLKEM_1024 && |x.octets| == 1568))
  {
    hide LoadKemValue, EncodeLabelled;
    AcceptedKemValues(s, x, PublicKeyLength);
    LevelsDiffer();
  }

  /** A ciphertext likewise, of 1088 or 1568 octets. */
  lemma AcceptedCiphertexts(s: Bytes, x: KemCiphertext)
    ensures LoadKemValue(s, CiphertextLength) == Ok(x) <==>
              && Writable(x) && s == EncodeLabelled(Shortest, x)
              && ((x.algorithm.algorithm == MLKEM_768 && |x.octets| == 1088)
                  || (x.algorithm.algorithm == MLKEM_1024 && |x.octets| == 1568))
  {
    hide LoadKemValue, EncodeLabelled;
    AcceptedKemValues(s, x, CiphertextLength);
    LevelsDiffer();
  }

  lemma LevelsDiffer()
    ensures MLKEM_768 != MLKEM_1024
  {
    assert MLKEM_768[7] != MLKEM_1024[7];
  }

  // ---- KEM values inside a PDU ----------------------------------------------------------------

  /** Every KEM value in the payload would be accepted on its own for its length. */
  predicate NestedWellSized(p: Payload) {
    match p
    case SessionInitRequest(ct1, _, pk, _, _) => WellSized(ct1, CiphertextLength) && WellSized(pk, PublicKeyLength)
    case SessionInitResponse(pk, ct2, ct3, _, _) =>
      WellSized(pk, PublicKeyLength) && WellSized(ct2, CiphertextLength) && WellSized(ct3, CiphertextLength)
    case SessionCompletionRequest(_, ct4, _) => WellSized(ct4, CiphertextLength)
    case SessionCompletionResponse(_, _) => true
    case Message(_, _) => true
  }

  /** The payload with other octets in its KEM values, in the order of the grammar. */
  function WithOctets(p: Payload, a: Bytes, b: Bytes, c: Bytes): Payload {
    match p
    case SessionInitRequest(ct1, _, pk, _, _) => p.(ct1 := ct1.(octets := a), pkAStar := pk.(octets := b))
    case SessionInitResponse(pk, ct2, ct3, _, _) =>
      p.(pkBStar := pk.(octets := a), ct2 := ct2.(octets := b), ct3 := ct3.(octets := c))
    case SessionCompletionRequest(_, ct4, _) => p.(ct4 := ct4.(octets := a))
    case SessionCompletionResponse(_, _) => p
    case Message(_, _) => p
  }

  /** The octets of nested KEM values have no part in acceptance: any others, of any lengths, in an
      accepted message give an accepted message, as long as DER can express it at all. */
  lemma NestedOctetsDoNotMatter(s: Bytes, m: MakeMessage, a: Bytes, b: Bytes, c: Bytes)
    requires Load(s) == Ok(m)
    ensures var k := m.(payload := WithOctets(m.payload, a, b, c));
            Load(Encode(k)) == Ok(k) <==> Expressible(|EncodeFields(Shortest, k)|)
  {
    hide Load, Encode, EncodeFields;
    var k := m.(payload := WithOctets(m.payload, a, b, c));
    AcceptedLanguage(s, m);
    AcceptedLanguage(Encode(k), k);
  }

  /** The alternatives that carry a KEM value. */
  predicate CarriesKemValues(alternative: byte) {
    PAYLOAD_TAG <= alternative < PAYLOAD_TAG + 3
  }

  const NO_CIPHERTEXT := Labelled(AlgorithmIdentifier(MLKEM_768, None), [])

  /** A message of the alternative whose KEM values name ML-KEM-768 and have no octets. */
  function Hollow(alternative: byte): MakeMessage
    requires CarriesKemValues(alternative)
  {
    var x := NO_CIPHERTEXT;
    MakeMessage(0, seq(CID_LENGTH, _ => 0),
                if alternative == PAYLOAD_TAG then SessionInitRequest(x, x, x, x, [])
                else if alternative == PAYLOAD_TAG + 1 then SessionInitResponse(x, x, x, [], MLKEM_768)
                else SessionCompletionRequest([7], x, []))
  }

  lemma HollowIsAccepted(alternative: byte)
    requires CarriesKemValues(alternative)
    ensures var m := Hollow(alternative);
            Load(Encode(m)) == Ok(m) && Alternative(m.payload) == alternative && !NestedWellSized(m.payload)
  {
    hide Load, Encode, EncodeFields, Tlv, EncodeOid, EncodeLabelled;
    SmallKemValue();
    SmallFields(Hollow(alternative));
    LoadOfEncode(Hollow(alternative));
  }

  ghost predicate AlwaysWellSized(alternative: byte) {
    forall s, m | Load(s) == Ok(m) && Alternative(m.payload) == alternative :: NestedWellSized(m.payload)
  }

  /** That nested KEM values have their level's length holds of all accepted messages of an
      alternative if and only if the alternative carries none: nested values are re-encoded but never
      loaded. */
  lemma NestedLengthsAreNotChecked(alternative: byte)
    ensures AlwaysWellSized(alternative) <==> !CarriesKemValues(alternative)
  {
    hide Load, Encode;
    if CarriesKemValues(alternative) {
      HollowIsAccepted(alternative);
    }
  }

  lemma SmallTlv(tag: byte, content: Bytes)
    requires |content| < 60000
    ensures Expressible(|content|) && |Tlv(tag, content)| <= |content| + 4
  {
    ExpressibleBelow(|content|, 60000);
  }

  lemma SmallKemValue()
    ensures |EncodeOid(MLKEM_768)| <= 16 && |EncodeLabelled(Shortest, NO_CIPHERTEXT)| <= 40
  {
    SmallOid(MLKEM_768);
    hide Tlv, EncodeOid;
    var a := NO_CIPHERTEXT.algorithm;
    SmallTlv(OBJECT_IDENTIFIER, EncodeOid(MLKEM_768));
    SmallTlv(SEQUENCE, Tlv(OBJECT_IDENTIFIER, EncodeOid(MLKEM_768)) + []);
    SmallTlv(OCTET_STRING, []);
    SmallTlv(SEQUENCE, EncodeAlgorithm(Shortest, a) + Tlv(OCTET_STRING, []));
  }

  lemma SmallFields(m: MakeMessage)
    requires CarriesKemValues(Alternative(m.payload)) && m == Hollow(Alternative(m.payload))
    requires |EncodeOid(MLKEM_768)| <= 16 && |EncodeLabelled(Shortest, NO_CIPHERTEXT)| <= 40
    ensures Expressible(|EncodeFields(Shortest, m)|)
  {
    hide Tlv, EncodeLabelled, EncodeOid;
    SmallTlv(OCTET_STRING, m.cid);
    SmallTlv(OCTET_STRING, []);
    SmallTlv(OCTET_STRING, [7]);
    SmallTlv(SEQUENCE, []);
    SmallTlv(OBJECT_IDENTIFIER, EncodeOid(MLKEM_768));
    SmallTlv(Alternative(m.payload), PayloadFields(Shortest, m.payload));
    ExpressibleBelow(|EncodeFields(Shortest, m)|, 60000);
    SmallTlv(SEQUENCE, EncodeFields(Shortest, m));
  }

  lemma {:induction false} SmallOid(oid: Oid)
    requires forall n <- oid :: n < 128 * 128
    ensures |EncodeOid(oid)| <= 2 * |oid|
  {
    if oid != [] {
      assert oid[0] in oid && forall n <- oid[1..] :: n in oid;
      SmallOid(oid[1..]);
    }
  }
}
