/** Lengths at every depth of a message: any way of writing them that can be read is understood, and
    only the shortest is accepted. */
module WireLengths {
  import opened Base
  import opened Der
  import opened Wire

  // ---- which elements a message is made of ---------------------------------------------------------

  predicate Minimal(w: Lengths, content: Bytes) {
    LengthOctets(w, content) == EncodeLength(|content|)
  }

  function AlgorithmContent(w: Lengths, a: AlgorithmIdentifier): Bytes {
    Put(Inside(w, 0), OBJECT_IDENTIFIER, EncodeOid(a.algorithm)) +
    if a.parameters.Some? then Put(Inside(w, 1), a.parameters.value.tag, a.parameters.value.content) else []
  }

  predicate MinimalAlgorithm(w: Lengths, a: AlgorithmIdentifier) {
    && Minimal(w, AlgorithmContent(w, a))
    && Minimal(Inside(w, 0), EncodeOid(a.algorithm))
    && (a.parameters.Some? ==> Minimal(Inside(w, 1), a.parameters.value.content))
  }

  function LabelledContent(w: Lengths, x: Labelled): Bytes {
    EncodeAlgorithm(Inside(w, 0), x.algorithm) + Put(Inside(w, 1), OCTET_STRING, x.octets)
  }

  predicate MinimalLabelled(w: Lengths, x: Labelled) {
    && Minimal(w, LabelledContent(w, x))
    && MinimalAlgorithm(Inside(w, 0), x.algorithm) && Minimal(Inside(w, 1), x.octets)
  }

  predicate MinimalOids(w: Lengths, oids: seq<Oid>)
    decreases |oids|
  {
    oids == [] || (Minimal(Inside(w, 0), EncodeOid(oids[0])) && MinimalOids(Inside(w, 1), oids[1..]))
  }

  /** Every element inside the payload. */
  predicate MinimalPayload(w: Lengths, p: Payload) {
    var w0, w1, w2, w3, w4 := Inside(w, 0), Inside(w, 1), Inside(w, 2), Inside(w, 3), Inside(w, 4);
    match p
    case SessionInitRequest(ct1, kb, pk, ka, aeads) =>
      && MinimalLabelled(w0, ct1) && MinimalLabelled(w1, kb) && MinimalLabelled(w2, pk) && MinimalLabelled(w3, ka)
      && Minimal(w4, EncodeOids(w4, aeads)) && MinimalOids(w4, aeads)
    case SessionInitResponse(pk, ct2, ct3, nB, aead) =>
      && MinimalLabelled(w0, pk) && MinimalLabelled(w1, ct2) && MinimalLabelled(w2, ct3)
      && Minimal(w3, nB) && Minimal(w4, EncodeOid(aead))
    case SessionCompletionRequest(cM, ct4, nA) =>
      Minimal(w0, cM) && MinimalLabelled(w1, ct4) && Minimal(w2, nA)
    case SessionCompletionResponse(hM, reply) =>
      Minimal(w0, hM) && (reply.Some? ==> Minimal(w1, reply.value))
    case Message(seqno, m) =>
      Minimal(w0, EncodeInteger(seqno)) && Minimal(w1, m)
  }

  predicate MinimalEnvelope(w: Lengths, m: MakeMessage) {
    && Minimal(Inside(w, 1), m.cid)
    && Minimal(Inside(w, 2), PayloadFields(Inside(w, 2), m.payload))
    && MinimalPayload(Inside(w, 2), m.payload)
  }

  /** Every element of the message, the outermost included, has the fewest length octets. */
  predicate MinimalMessage(w: Lengths, m: MakeMessage) {
    && Minimal(w, EncodeFields(w, m))
    && (m.version != 0 ==> Minimal(Inside(w, 0), EncodeInteger(m.version)))
    && MinimalEnvelope(w, m)
  }

  // ---- minimal everywhere is the one encoding, and nothing else is -----------------------------------

  /** An element at the head of equal octets is the same element, written the same way. */
  lemma SameElement(w: Lengths, tag: byte, c: Bytes, r: Bytes, d: Bytes, t: Bytes)
    requires Readable(w) && ShortTag(tag) && Expressible(|c|) && Expressible(|d|)
    requires Put(w, tag, c) + r == Tlv(tag, d) + t
    ensures c == d && r == t && Minimal(w, c)
  {
    hide ReadTlv, Readable, EncodeLength;
    PutRoundTrip(w, tag, c, r);
    PutRoundTrip(Shortest, tag, d, t);
    var s := Put(w, tag, c) + r;
    assert |LengthOctets(w, c)| == |EncodeLength(|c|)|;
    assert s[1..1 + |LengthOctets(w, c)|] == LengthOctets(w, c);
    assert (Tlv(tag, d) + t)[1..1 + |EncodeLength(|d|)|] == EncodeLength(|d|);
  }

  lemma SameWhole(w: Lengths, tag: byte, c: Bytes, d: Bytes)
    requires Readable(w) && ShortTag(tag) && Expressible(|c|) && Expressible(|d|)
    requires Put(w, tag, c) == Tlv(tag, d)
    ensures c == d && Minimal(w, c)
  {
    assert Put(w, tag, c) + [] == Tlv(tag, d) + [];
    SameElement(w, tag, c, [], d, []);
  }

  lemma MinimalIsShortest(w: Lengths, tag: byte, content: Bytes)
    requires Minimal(w, content)
    ensures Put(w, tag, content) == Tlv(tag, content)
  {
  }

  lemma Within(n: nat)
    requires Expressible(n)
    ensures forall k: nat | k <= n :: Expressible(k)
  {
    forall k: nat | k <= n ensures Expressible(k) {
      ExpressibleBelow(k, n);
    }
  }

  lemma AlgorithmMinimal(w: Lengths, a: AlgorithmIdentifier)
    requires Readable(w) && WellFormedAlgorithm(a) && Expressible(|EncodeAlgorithm(w, a)|)
    requires Expressible(|EncodeAlgorithm(Shortest, a)|)
    ensures EncodeAlgorithm(w, a) == EncodeAlgorithm(Shortest, a) <==> MinimalAlgorithm(w, a)
  {
    hide EncodeOid, EncodeLength, Readable;
    Within(|EncodeAlgorithm(w, a)|);
    Within(|EncodeAlgorithm(Shortest, a)|);
    var c, d := AlgorithmContent(w, a), AlgorithmContent(Shortest, a);
    var oid := EncodeOid(a.algorithm);
    if EncodeAlgorithm(w, a) == EncodeAlgorithm(Shortest, a) {
      SameWhole(w, SEQUENCE, c, d);
      if a.parameters.Some? {
        var p := a.parameters.value;
        SameElement(Inside(w, 0), OBJECT_IDENTIFIER, oid, Put(Inside(w, 1), p.tag, p.content), oid,
                    Tlv(p.tag, p.content));
        SameWhole(Inside(w, 1), p.tag, p.content, p.content);
      } else {
        SameElement(Inside(w, 0), OBJECT_IDENTIFIER, oid, [], oid, []);
      }
    }
  }

  /** Equal octets begin with the same element and go on alike. */
  lemma HeadSplits(w: Lengths, tag: byte, c: Bytes, r: Bytes, d: Bytes, t: Bytes)
    requires Readable(w) && ShortTag(tag) && Expressible(|c|) && Expressible(|d|)
    requires Put(w, tag, c) + r == Tlv(tag, d) + t
    ensures Put(w, tag, c) == Tlv(tag, d) && r == t
  {
    SameElement(w, tag, c, r, d, t);
  }

  lemma LabelledMinimal(w: Lengths, x: Labelled)
    requires Readable(w) && WellFormedAlgorithm(x.algorithm)
    requires Expressible(|EncodeLabelled(w, x)|) && Expressible(|EncodeLabelled(Shortest, x)|)
    ensures EncodeLabelled(w, x) == EncodeLabelled(Shortest, x) <==> MinimalLabelled(w, x)
  {
    hide Readable, EncodeOid;
    Within(|EncodeLabelled(w, x)|);
    Within(|EncodeLabelled(Shortest, x)|);
    var w0, w1 := Inside(w, 0), Inside(w, 1);
    AlgorithmMinimal(w0, x.algorithm);
    if EncodeLabelled(w, x) == EncodeLabelled(Shortest, x) {
      var c, d := AlgorithmContent(w0, x.algorithm), AlgorithmContent(Shortest, x.algorithm);
      SameWhole(w, SEQUENCE, LabelledContent(w, x), LabelledContent(Shortest, x));
      HeadSplits(w0, SEQUENCE, c, Put(w1, OCTET_STRING, x.octets), d, Tlv(OCTET_STRING, x.octets));
      SameWhole(w1, OCTET_STRING, x.octets, x.octets);
    }
  }

  /** The same for a value at the head of something longer. */
  lemma LabelledSplits(w: Lengths, x: Labelled, r: Bytes, t: Bytes)
    requires Readable(w)
    requires Expressible(|EncodeLabelled(w, x)|) && Expressible(|EncodeLabelled(Shortest, x)|)
    requires EncodeLabelled(w, x) + r == EncodeLabelled(Shortest, x) + t
    ensures EncodeLabelled(w, x) == EncodeLabelled(Shortest, x) && r == t
  {
    Within(|EncodeLabelled(w, x)|);
    Within(|EncodeLabelled(Shortest, x)|);
    HeadSplits(w, SEQUENCE, LabelledContent(w, x), r, LabelledContent(Shortest, x), t);
  }

  lemma {:induction false} OidsMinimal(w: Lengths, oids: seq<Oid>)
    requires Readable(w) && Expressible(|EncodeOids(w, oids)|) && Expressible(|EncodeOids(Shortest, oids)|)
    ensures EncodeOids(w, oids) == EncodeOids(Shortest, oids) <==> MinimalOids(w, oids)
    decreases |oids|
  {
    hide EncodeOid, Readable;
    Within(|EncodeOids(w, oids)|);
    Within(|EncodeOids(Shortest, oids)|);
    if oids != [] {
      var w0, w1, oid, rest := Inside(w, 0), Inside(w, 1), EncodeOid(oids[0]), oids[1..];
      OidsMinimal(w1, rest);
      if EncodeOids(w, oids) == EncodeOids(Shortest, oids) {
        SameElement(w0, OBJECT_IDENTIFIER, oid, EncodeOids(w1, rest), oid, EncodeOids(Shortest, rest));
      }
    }
  }

  /** An element without elements in it: written like the one encoding exactly when minimal. */
  lemma LeafMinimal(w: Lengths, tag: byte, content: Bytes)
    requires Readable(w) && ShortTag(tag) && Expressible(|content|)
    ensures Put(w, tag, content) == Tlv(tag, content) <==> Minimal(w, content)
  {
    if Put(w, tag, content) == Tlv(tag, content) {
      SameWhole(w, tag, content, content);
    }
  }

  lemma InitRequestMinimal(w: Lengths, p: Payload)
    requires p.SessionInitRequest? && Readable(w) && WellFormedPayload(p)
    requires Expressible(|PayloadFields(w, p)|) && Expressible(|PayloadFields(Shortest, p)|)
    ensures PayloadFields(w, p) == PayloadFields(Shortest, p) <==> MinimalPayload(w, p)
  {
    hide EncodeLabelled, MinimalLabelled, EncodeOids, Readable, MinimalOids;
    Within(|PayloadFields(w, p)|);
    Within(|PayloadFields(Shortest, p)|);
    var w0, w1, w2, w3, w4 := Inside(w, 0), Inside(w, 1), Inside(w, 2), Inside(w, 3), Inside(w, 4);
    var oids, shortest := EncodeOids(w4, p.acceptableAeads), EncodeOids(Shortest, p.acceptableAeads);
    PutIsLonger(w4, SEQUENCE, oids);
    PutIsLonger(Shortest, SEQUENCE, shortest);
    LabelledMinimal(w0, p.ct1);
    LabelledMinimal(w1, p.keyIdB);
    LabelledMinimal(w2, p.pkAStar);
    LabelledMinimal(w3, p.keyIdA);
    OidsMinimal(w4, p.acceptableAeads);
    if PayloadFields(w, p) == PayloadFields(Shortest, p) {
      var r3, t3 := Put(w4, SEQUENCE, oids), Tlv(SEQUENCE, shortest);
      var r2, t2 := EncodeLabelled(w3, p.keyIdA) + r3, EncodeLabelled(Shortest, p.keyIdA) + t3;
      var r1, t1 := EncodeLabelled(w2, p.pkAStar) + r2, EncodeLabelled(Shortest, p.pkAStar) + t2;
      var r0, t0 := EncodeLabelled(w1, p.keyIdB) + r1, EncodeLabelled(Shortest, p.keyIdB) + t1;
      LabelledSplits(w0, p.ct1, r0, t0);
      LabelledSplits(w1, p.keyIdB, r1, t1);
      LabelledSplits(w2, p.pkAStar, r2, t2);
      LabelledSplits(w3, p.keyIdA, r3, t3);
      SameWhole(w4, SEQUENCE, oids, shortest);
    } else if MinimalPayload(w, p) {
      MinimalIsShortest(w4, SEQUENCE, oids);
    }
  }

  lemma InitResponseMinimal(w: Lengths, p: Payload)
    requires p.SessionInitResponse? && Readable(w) && WellFormedPayload(p)
    requires Expressible(|PayloadFields(w, p)|) && Expressible(|PayloadFields(Shortest, p)|)
    ensures PayloadFields(w, p) == PayloadFields(Shortest, p) <==> MinimalPayload(w, p)
  {
    hide EncodeLabelled, MinimalLabelled, Readable, EncodeOid;
    Within(|PayloadFields(w, p)|);
    Within(|PayloadFields(Shortest, p)|);
    var w0, w1, w2, w3, w4 := Inside(w, 0), Inside(w, 1), Inside(w, 2), Inside(w, 3), Inside(w, 4);
    var aead := EncodeOid(p.chosenAead);
    PutIsLonger(w4, OBJECT_IDENTIFIER, aead);
    PutIsLonger(w3, OCTET_STRING, p.nB);
    LabelledMinimal(w0, p.pkBStar);
    LabelledMinimal(w1, p.ct2);
    LabelledMinimal(w2, p.ct3);
    LeafMinimal(w3, OCTET_STRING, p.nB);
    LeafMinimal(w4, OBJECT_IDENTIFIER, aead);
    if PayloadFields(w, p) == PayloadFields(Shortest, p) {
      var r3, t3 := Put(w4, OBJECT_IDENTIFIER, aead), Tlv(OBJECT_IDENTIFIER, aead);
      var r2, t2 := Put(w3, OCTET_STRING, p.nB) + r3, Tlv(OCTET_STRING, p.nB) + t3;
      var r1, t1 := EncodeLabelled(w2, p.ct3) + r2, EncodeLabelled(Shortest, p.ct3) + t2;
      var r0, t0 := EncodeLabelled(w1, p.ct2) + r1, EncodeLabelled(Shortest, p.ct2) + t1;
      LabelledSplits(w0, p.pkBStar, r0, t0);
      LabelledSplits(w1, p.ct2, r1, t1);
      LabelledSplits(w2, p.ct3, r2, t2);
      HeadSplits(w3, OCTET_STRING, p.nB, r3, p.nB, t3);
    }
  }

  lemma PayloadMinimal(w: Lengths, p: Payload)
    requires Readable(w) && WellFormedPayload(p)
    requires Expressible(|PayloadFields(w, p)|) && Expressible(|PayloadFields(Shortest, p)|)
    ensures PayloadFields(w, p) == PayloadFields(Shortest, p) <==> MinimalPayload(w, p)
  {
    hide EncodeLabelled, MinimalLabelled, Readable, EncodeInteger;
    Within(|PayloadFields(w, p)|);
    Within(|PayloadFields(Shortest, p)|);
    var w0, w1, w2 := Inside(w, 0), Inside(w, 1), Inside(w, 2);
    match p
    case SessionInitRequest(_, _, _, _, _) => InitRequestMinimal(w, p);
    case SessionInitResponse(_, _, _, _, _) => InitResponseMinimal(w, p);
    case SessionCompletionRequest(cM, ct4, nA) =>
      PutIsLonger(w0, OCTET_STRING, cM);
      PutIsLonger(w2, OCTET_STRING, nA);
      LeafMinimal(w0, OCTET_STRING, cM);
      LabelledMinimal(w1, ct4);
      LeafMinimal(w2, OCTET_STRING, nA);
      if PayloadFields(w, p) == PayloadFields(Shortest, p) {
        var r, t := Put(w2, OCTET_STRING, nA), Tlv(OCTET_STRING, nA);
        HeadSplits(w0, OCTET_STRING, cM, EncodeLabelled(w1, ct4) + r, cM, EncodeLabelled(Shortest, ct4) + t);
        LabelledSplits(w1, ct4, r, t);
      }
    case SessionCompletionResponse(hM, reply) =>
      PutIsLonger(w0, OCTET_STRING, hM);
      LeafMinimal(w0, OCTET_STRING, hM);
      if reply.Some? {
        PutIsLonger(w1, REPLY_TAG, reply.value);
        LeafMinimal(w1, REPLY_TAG, reply.value);
      }
      if PayloadFields(w, p) == PayloadFields(Shortest, p) {
        HeadSplits(w0, OCTET_STRING, hM, if reply.Some? then Put(w1, REPLY_TAG, reply.value) else [],
                   hM, if reply.Some? then Tlv(REPLY_TAG, reply.value) else []);
      }
    case Message(seqno, m) =>
      var n := EncodeInteger(seqno);
      PutIsLonger(w0, INTEGER, n);
      PutIsLonger(w1, OCTET_STRING, m);
      LeafMinimal(w0, INTEGER, n);
      LeafMinimal(w1, OCTET_STRING, m);
      if PayloadFields(w, p) == PayloadFields(Shortest, p) {
        HeadSplits(w0, INTEGER, n, Put(w1, OCTET_STRING, m), n, Tlv(OCTET_STRING, m));
      }
  }

  lemma EnvelopeMinimal(w: Lengths, m: MakeMessage)
    requires Readable(w) && WellFormedPayload(m.payload)
    requires Expressible(|Envelope(w, m)|) && Expressible(|Envelope(Shortest, m)|)
    ensures Envelope(w, m) == Envelope(Shortest, m) <==> MinimalEnvelope(w, m)
  {
    hide PayloadFields, MinimalPayload, Readable;
    Within(|Envelope(w, m)|);
    Within(|Envelope(Shortest, m)|);
    var w1, w2, tag := Inside(w, 1), Inside(w, 2), Alternative(m.payload);
    var c, d := PayloadFields(w2, m.payload), PayloadFields(Shortest, m.payload);
    PutIsLonger(w1, OCTET_STRING, m.cid);
    PutIsLonger(w2, tag, c);
    PutIsLonger(Shortest, tag, d);
    LeafMinimal(w1, OCTET_STRING, m.cid);
    PayloadMinimal(w2, m.payload);
    if Envelope(w, m) == Envelope(Shortest, m) {
      HeadSplits(w1, OCTET_STRING, m.cid, Put(w2, tag, c), m.cid, Tlv(tag, d));
      SameWhole(w2, tag, c, d);
    } else if MinimalEnvelope(w, m) {
      MinimalIsShortest(w2, tag, c);
    }
  }

  lemma FieldsMinimal(w: Lengths, m: MakeMessage)
    requires Readable(w) && WellFormedPayload(m.payload)
    requires Expressible(|EncodeFields(w, m)|) && Expressible(|EncodeFields(Shortest, m)|)
    ensures EncodeFields(w, m) == EncodeFields(Shortest, m) <==>
              MinimalEnvelope(w, m) && (m.version != 0 ==> Minimal(Inside(w, 0), EncodeInteger(m.version)))
  {
    hide Envelope, MinimalEnvelope, Readable, EncodeInteger;
    Within(|EncodeFields(w, m)|);
    Within(|EncodeFields(Shortest, m)|);
    EnvelopeMinimal(w, m);
    if m.version == 0 {
      assert EncodeFields(w, m) == Envelope(w, m) && EncodeFields(Shortest, m) == Envelope(Shortest, m);
    } else {
      var w0, n := Inside(w, 0), EncodeInteger(m.version);
      PutIsLonger(w0, INTEGER, n);
      LeafMinimal(w0, INTEGER, n);
      if EncodeFields(w, m) == EncodeFields(Shortest, m) {
        HeadSplits(w0, INTEGER, n, Envelope(w, m), n, Envelope(Shortest, m));
      }
    }
  }

  /** However a valid message writes the length of each element at each depth, as long as it can be
      read it is understood as that message; and it is accepted if and only if every one of them has
      the fewest octets. */
  lemma OnlyShortestLengthsAccepted(w: Lengths, m: MakeMessage)
    requires Valid(m) && Readable(w) && Expressible(|EncodeFields(w, m)|)
    ensures Read(Write(w, m)) == Some(m)
    ensures Load(Write(w, m)) == if MinimalMessage(w, m) then Ok(m) else Err(NonCanonicalEncoding)
  {
    hide Read, EncodeFields, Readable, MinimalPayload;
    ReadOfEncode(w, m, []);
    assert Write(w, m) + [] == Write(w, m);
    FieldsMinimal(w, m);
    if Write(w, m) == Encode(m) {
      SameWhole(w, SEQUENCE, EncodeFields(w, m), EncodeFields(Shortest, m));
    } else if MinimalMessage(w, m) {
      MinimalIsShortest(w, SEQUENCE, EncodeFields(w, m));
    }
  }

  // ---- leading zero octets at chosen places -------------------------------------------------------------

  /** Zeros are put in front of the length, where some are chosen and there is room for them. */
  predicate Pads(zeros: nat, content: Bytes) {
    0 < zeros && zeros + |BigEndian(|content|)| <= MAX_LENGTH_OCTETS
  }

  /** So many leading zero octets at each place, in long form. */
  function Padded(zeros: Place -> nat): Lengths {
    Chosen([], (at, content) =>
      if Pads(zeros(at), content) then PaddedLength(|content|, zeros(at)) else EncodeLength(|content|))
  }

  /** Readable, and minimal exactly where no octet is added. */
  lemma PaddedIsReadable(zeros: Place -> nat)
    ensures Readable(Padded(zeros))
    ensures forall at: Place, content ::
              Minimal(Padded(zeros).(at := at), content) <==> !Pads(zeros(at), content)
  {
    var w := Padded(zeros);
    forall at: Place, content, rest | Expressible(|content|)
      ensures ReadLength(w.octets(at, content) + rest) == Some((|content|, |w.octets(at, content)|))
    {
      if Pads(zeros(at), content) {
        PaddedLengthIsRead(|content|, zeros(at), rest);
      } else {
        LengthRoundTrip(|content|, rest);
      }
    }
  }

  /** Leading zeros at any places are read over; and zeros at one place, of the correlation id say, are
      enough to have the message refused. */
  lemma PaddedLengthsRejected(zeros: Place -> nat, m: MakeMessage)
    requires Valid(m) && Expressible(|EncodeFields(Padded(zeros), m)|)
    ensures var s := Write(Padded(zeros), m);
            && Read(s) == Some(m)
            && (Load(s) == Ok(m) <==> MinimalMessage(Padded(zeros), m))
            && (Pads(zeros([]), EncodeFields(Padded(zeros), m)) || Pads(zeros([1]), m.cid) ==>
                  Load(s) == Err(NonCanonicalEncoding))
  {
    hide Read, Load, EncodeFields, MinimalPayload, PayloadFields, Readable, Pads;
    PaddedIsReadable(zeros);
    OnlyShortestLengthsAccepted(Padded(zeros), m);
    assert Inside(Padded(zeros), 1) == Padded(zeros).(at := [1]);
    assert Padded(zeros) == Padded(zeros).(at := []);
  }
}
