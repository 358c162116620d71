/** The tag-length-value layer of ITU-T X.690: a DER writer, and a reader that is as lenient as
    the definite-length BER rules allow. Primitive values covered are INTEGER (section 8.3),
    OCTET STRING and OBJECT IDENTIFIER (section 8.19). */
module Der {
  import opened Base

  // ---- unsigned big-endian numbers ------------------------------------------------------

  /** The shortest big-endian form; zero has no octets. */
  function BigEndian(n: nat): Bytes {
    if n == 0 then [] else BigEndian(n / 256) + [n % 256]
  }

  function FromBigEndian(s: Bytes): nat {
    if s == [] then 0 else 256 * FromBigEndian(s[..|s| - 1]) + s[|s| - 1]
  }

  lemma {:induction false} BigEndianRoundTrip(n: nat)
    ensures FromBigEndian(BigEndian(n)) == n
    ensures n > 0 ==> |BigEndian(n)| > 0
  {
    if n > 0 {
      BigEndianRoundTrip(n / 256);
      assert BigEndian(n)[..|BigEndian(n)| - 1] == BigEndian(n / 256);
    }
  }

  lemma {:induction false} LeadingZerosAreInvisible(k: nat, s: Bytes)
    ensures FromBigEndian(seq(k, _ => 0) + s) == FromBigEndian(s)
    decreases k + |s|
  {
    var padded: Bytes := seq(k, _ => 0) + s;
    if s != [] {
      assert padded[..|padded| - 1] == seq(k, _ => 0) + s[..|s| - 1];
      LeadingZerosAreInvisible(k, s[..|s| - 1]);
    } else if k > 0 {
      assert padded[..|padded| - 1] == seq(k - 1, _ => 0) + s;
      LeadingZerosAreInvisible(k - 1, s);
    }
  }

  // ---- lengths ----------------------------------------------------------------------------

  const MAX_LENGTH_OCTETS := 126  // section 8.1.3.5: the initial octet 255 is reserved

  /** A length the long form can express. */
  predicate Expressible(n: nat) {
    |BigEndian(n)| <= MAX_LENGTH_OCTETS
  }

  lemma {:induction false} ExpressibleBelow(m: nat, n: nat)
    requires m <= n
    ensures |BigEndian(m)| <= |BigEndian(n)|
  {
    if m > 0 {
      ExpressibleBelow(m / 256, n / 256);
    }
  }

  /** Section 10.1: the definite form with the fewest octets. What is written for a length that
      is not expressible is never read back. */
  function EncodeLength(n: nat): Bytes {
    if n < 128 then [n]
    else [if Expressible(n) then 128 + |BigEndian(n)| else 255] + BigEndian(n)
  }

  /** The value of a definite length at the head of s with the number of octets it takes, in
      either form and with any leading zero octets. */
  function ReadLength(s: Bytes): Option<(nat, nat)> {
    if s == [] then None
    else if s[0] < 128 then Some((s[0], 1))
    else
      var k := s[0] - 128;
      if k == 0 || k > MAX_LENGTH_OCTETS || |s| < 1 + k then None
      else Some((FromBigEndian(s[1..1 + k]), 1 + k))
  }

  lemma LengthRoundTrip(n: nat, rest: Bytes)
    requires Expressible(n)
    ensures ReadLength(EncodeLength(n) + rest) == Some((n, |EncodeLength(n)|))
  {
    BigEndianRoundTrip(n);
    var s := EncodeLength(n) + rest;
    if n >= 128 {
      assert s[1..1 + |BigEndian(n)|] == BigEndian(n);
    }
  }

  /** The long form with k leading zero octets. */
  function PaddedLength(n: nat, k: nat): Bytes
    requires k + |BigEndian(n)| <= MAX_LENGTH_OCTETS
  {
    [128 + k + |BigEndian(n)|] + (seq(k, _ => 0) + BigEndian(n))
  }

  lemma PaddedLengthIsRead(n: nat, k: nat, rest: Bytes)
    requires 0 < k + |BigEndian(n)| <= MAX_LENGTH_OCTETS
    ensures ReadLength(PaddedLength(n, k) + rest) == Some((n, |PaddedLength(n, k)|))
  {
    BigEndianRoundTrip(n);
    LeadingZerosAreInvisible(k, BigEndian(n));
    var s := PaddedLength(n, k) + rest;
    assert s[1..1 + k + |BigEndian(n)|] == seq(k, _ => 0) + BigEndian(n);
  }

  // ---- tag-length-value -------------------------------------------------------------------

  datatype Element = Element(tag: byte, content: Bytes, rest: Bytes)

  /** A single-octet tag: the number 31 announces the multi-octet form. */
  predicate ShortTag(tag: byte) {
    tag % 32 != 31
  }

  /** Where an element stands: which element of which element, from the outermost in. */
  type Place = seq<nat>

  /** A way of writing lengths: that of DER, or any choice of the length octets of each content at each
      place, from a place on. */
  datatype Lengths = Shortest | Chosen(at: Place, octets: (Place, Bytes) -> Bytes)

  /** The same way, from the i-th element inside on. */
  function Inside(w: Lengths, i: nat): (v: Lengths)
    ensures Readable(w) ==> Readable(v)
  {
    match w
    case Shortest => Shortest
    case Chosen(at, octets) => Chosen(at + [i], octets)
  }

  function LengthOctets(w: Lengths, content: Bytes): Bytes {
    match w
    case Shortest => EncodeLength(|content|)
    case Chosen(at, octets) => octets(at, content)
  }

  function Put(w: Lengths, tag: byte, content: Bytes): Bytes {
    [tag] + (LengthOctets(w, content) + content)
  }

  function Tlv(tag: byte, content: Bytes): Bytes {
    Put(Shortest, tag, content)
  }

  /** The length octets read as the length of the content, minimal or not, at every place. */
  ghost predicate Readable(w: Lengths) {
    w.Chosen? ==>
      forall at: Place, content, rest | Expressible(|content|) ::
        ReadLength(w.octets(at, content) + rest) == Some((|content|, |w.octets(at, content)|))
  }

  lemma LengthIsRead(w: Lengths, content: Bytes, rest: Bytes)
    requires Readable(w) && Expressible(|content|)
    ensures ReadLength(LengthOctets(w, content) + rest) == Some((|content|, |LengthOctets(w, content)|))
  {
    LengthRoundTrip(|content|, rest);
  }

  function ReadTlv(s: Bytes): (r: Option<Element>)
    ensures r.Some? ==> |r.value.rest| < |s| && |r.value.content| < |s| && ShortTag(r.value.tag)
  {
    if s == [] || !ShortTag(s[0]) then None
    else match ReadLength(s[1..])
      case None => None
      case Some((n, k)) =>
        if |s| < 1 + k + n then None
        else Some(Element(s[0], s[1 + k..1 + k + n], s[1 + k + n..]))
  }

  /** Any length octets that read as the length of the content delimit it. */
  lemma ElementIsRead(tag: byte, length: Bytes, content: Bytes, rest: Bytes)
    requires ShortTag(tag)
    requires ReadLength(length + (content + rest)) == Some((|content|, |length|))
    ensures ReadTlv([tag] + (length + content) + rest) == Some(Element(tag, content, rest))
  {
    var s := [tag] + (length + content) + rest;
    var k := |length|;
    assert s[1..] == length + (content + rest);
    assert s[1 + k..1 + k + |content|] == content;
    assert s[1 + k + |content|..] == rest;
  }

  lemma PutRoundTrip(w: Lengths, tag: byte, content: Bytes, rest: Bytes)
    requires Readable(w) && Expressible(|content|) && ShortTag(tag)
    ensures ReadTlv(Put(w, tag, content) + rest) == Some(Element(tag, content, rest))
  {
    LengthIsRead(w, content, content + rest);
    ElementIsRead(tag, LengthOctets(w, content), content, rest);
  }

  /** An element with a given tag at the head of s. */
  function ReadTagged(tag: byte, s: Bytes): (r: Option<Element>)
    ensures r.Some? ==> |r.value.rest| < |s| && |r.value.content| < |s|
  {
    match ReadTlv(s)
    case Some(e) => if e.tag == tag then Some(e) else None
    case None => None
  }

  // ---- INTEGER ----------------------------------------------------------------------------

  /** Section 8.3: shortest two's complement. */
  function EncodeInteger(n: int): (s: Bytes)
    ensures |s| >= 1
    decreases if n < 0 then -n else n
  {
    if -128 <= n < 128 then [n % 256] else EncodeInteger(n / 256) + [n % 256]
  }

  function DecodeInteger(s: Bytes): int
    requires |s| >= 1
  {
    if |s| == 1 then if s[0] < 128 then s[0] else s[0] - 256
    else 256 * DecodeInteger(s[..|s| - 1]) + s[|s| - 1]
  }

  lemma {:induction false} IntegerRoundTrip(n: int)
    ensures DecodeInteger(EncodeInteger(n)) == n
    decreases if n < 0 then -n else n
  {
    if !(-128 <= n < 128) {
      IntegerRoundTrip(n / 256);
      var s := EncodeInteger(n);
      assert s[..|s| - 1] == EncodeInteger(n / 256);
      assert DecodeInteger(s) == 256 * DecodeInteger(s[..|s| - 1]) + s[|s| - 1];
    }
  }

  // ---- OBJECT IDENTIFIER ------------------------------------------------------------------

  function ContinuationOctets(n: nat): Bytes {
    if n < 128 then [128 + n] else ContinuationOctets(n / 128) + [128 + n % 128]
  }

  function EncodeSubidentifier(n: nat): Bytes {
    if n < 128 then [n] else ContinuationOctets(n / 128) + [n % 128]
  }

  function EncodeOid(oid: Oid): Bytes {
    if oid == [] then [] else EncodeSubidentifier(oid[0]) + EncodeOid(oid[1..])
  }

  /** Accumulates seven bits an octet; an unfinished last subidentifier is forgotten. */
  function DecodeOid(s: Bytes, pending: nat): Oid
    decreases |s|
  {
    if s == [] then []
    else if s[0] < 128 then [128 * pending + s[0]] + DecodeOid(s[1..], 0)
    else DecodeOid(s[1..], 128 * pending + s[0] - 128)
  }

  lemma {:induction false} ContinuationIsAccumulated(n: nat, rest: Bytes)
    ensures DecodeOid(ContinuationOctets(n) + rest, 0) == DecodeOid(rest, n)
    decreases n
  {
    var s := ContinuationOctets(n) + rest;
    if n < 128 {
      assert s[1..] == rest;
    } else {
      var tail := [128 + n % 128] + rest;
      assert s == ContinuationOctets(n / 128) + tail;
      ContinuationIsAccumulated(n / 128, tail);
      assert tail[1..] == rest;
      assert 128 * (n / 128) + n % 128 == n;
    }
  }

  lemma SubidentifierRoundTrip(n: nat, rest: Bytes)
    ensures DecodeOid(EncodeSubidentifier(n) + rest, 0) == [n] + DecodeOid(rest, 0)
  {
    var s := EncodeSubidentifier(n) + rest;
    if n < 128 {
      assert s[1..] == rest;
    } else {
      var tail := [n % 128] + rest;
      assert s == ContinuationOctets(n / 128) + tail;
      ContinuationIsAccumulated(n / 128, tail);
      assert tail[1..] == rest;
      assert 128 * (n / 128) + n % 128 == n;
    }
  }

  lemma {:induction false} OidRoundTrip(oid: Oid)
    ensures DecodeOid(EncodeOid(oid), 0) == oid
  {
    if oid != [] {
      OidRoundTrip(oid[1..]);
      SubidentifierRoundTrip(oid[0], EncodeOid(oid[1..]));
    }
  }
}
