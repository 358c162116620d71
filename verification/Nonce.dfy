/** Per-message nonces on octets: the 96-bit IV XORed with the sequence number, written big-endian
    in as many octets (section 5.3 of RFC 8446; uniqueness is what section 3.1 of RFC 5116 asks). */
module Nonce {
  import opened Base
  import opened Crypto
  import D = Der
  import opened SessionModel
  import opened SessionRuns
  import opened SessionProgress

  const NONCE_LENGTH := 12

  function Pow256(n: nat): nat {
    if n == 0 then 1 else 256 * Pow256(n - 1)
  }

  /** int.to_bytes: fixed width, big-endian. */
  function ToBytes(n: nat, width: nat): (s: Bytes)
    ensures |s| == width
  {
    if width == 0 then [] else ToBytes(n / 256, width - 1) + [n % 256]
  }

  lemma {:induction false} ToBytesInjective(m: nat, n: nat, width: nat)
    requires m < Pow256(width) && n < Pow256(width)
    ensures ToBytes(m, width) == ToBytes(n, width) ==> m == n
  {
    if width > 0 && ToBytes(m, width) == ToBytes(n, width) {
      var a, b := ToBytes(m / 256, width - 1), ToBytes(n / 256, width - 1);
      assert a == (a + [m % 256])[..width - 1] && b == (b + [n % 256])[..width - 1];
      assert m % 256 == (a + [m % 256])[width - 1] == (b + [n % 256])[width - 1];
      ToBytesInjective(m / 256, n / 256, width - 1);
    }
  }

  /** Exclusive or of the low n bits. */
  function XorBits(x: nat, y: nat, n: nat): nat {
    if n == 0 then 0
    else (if x % 2 == y % 2 then 0 else 1) + 2 * XorBits(x / 2, y / 2, n - 1)
  }

  function Pow2(n: nat): nat {
    if n == 0 then 1 else 2 * Pow2(n - 1)
  }

  lemma {:induction false} XorFits(x: nat, y: nat, n: nat)
    ensures XorBits(x, y, n) < Pow2(n)
  {
    if n > 0 {
      XorFits(x / 2, y / 2, n - 1);
    }
  }

  lemma {:induction false} XorUndoesItself(x: nat, y: nat, n: nat)
    requires y < Pow2(n)
    ensures XorBits(x, XorBits(x, y, n), n) == y
  {
    if n > 0 {
      XorUndoesItself(x / 2, y / 2, n - 1);
    }
  }

  /** Whether the i-th bit from the right is set. */
  predicate Bit(x: nat, i: nat) {
    if i == 0 then x % 2 == 1 else Bit(x / 2, i - 1)
  }

  lemma {:induction false} XorIsBitwise(x: nat, y: nat, n: nat, i: nat)
    requires i < n
    ensures Bit(XorBits(x, y, n), i) <==> Bit(x, i) != Bit(y, i)
  {
    var rest := XorBits(x / 2, y / 2, n - 1);
    Halved(if x % 2 == y % 2 then 0 else 1, rest);
    if i > 0 {
      XorIsBitwise(x / 2, y / 2, n - 1, i - 1);
      hide XorBits;
      BitAbove(XorBits(x, y, n), i);
      BitAbove(x, i);
      BitAbove(y, i);
    }
  }

  lemma BitAbove(x: nat, i: nat)
    requires i > 0
    ensures Bit(x, i) == Bit(x / 2, i - 1)
  {
  }

  lemma Halved(bit: nat, rest: nat)
    requires bit < 2
    ensures (bit + 2 * rest) / 2 == rest && (bit + 2 * rest) % 2 == bit
  {
  }

  function Xor(x: byte, y: byte): byte {
    XorFits(x, y, 8);
    assert Pow2(8) == 256;
    XorBits(x, y, 8)
  }

  lemma XorInjective(x: byte, y: byte, z: byte)
    ensures Xor(x, y) == Xor(x, z) ==> y == z
  {
    assert Pow2(8) == 256;
    XorUndoesItself(x, y, 8);
    XorUndoesItself(x, z, 8);
  }

  /** None where int.to_bytes overflows. */
  function NonceForSeq(iv: Bytes, seqno: nat): Option<Bytes> {
    if seqno >= Pow256(|iv|) then None
    else
      var number := ToBytes(seqno, |iv|);
      Some(seq(|iv|, i requires 0 <= i < |iv| => Xor(iv[i], number[i])))
  }

  /** Under one IV, different sequence numbers have different nonces. */
  lemma NonceInjective(iv: Bytes, m: nat, n: nat)
    requires NonceForSeq(iv, m).Some? && NonceForSeq(iv, m) == NonceForSeq(iv, n)
    ensures m == n
  {
    var a, b := ToBytes(m, |iv|), ToBytes(n, |iv|);
    var x, y := NonceForSeq(iv, m).value, NonceForSeq(iv, n).value;
    forall i | 0 <= i < |iv| ensures a[i] == b[i] {
      assert x[i] == Xor(iv[i], a[i]) && y[i] == Xor(iv[i], b[i]);
      XorInjective(iv[i], a[i], b[i]);
    }
    assert a == b;
    ToBytesInjective(m, n, |iv|);
  }

  lemma {:induction false} BytesSpell(n: nat, width: nat)
    requires n < Pow256(width)
    ensures D.FromBigEndian(ToBytes(n, width)) == n
  {
    if width > 0 {
      BytesSpell(n / 256, width - 1);
      assert ToBytes(n, width)[..width - 1] == ToBytes(n / 256, width - 1);
    }
  }

  lemma {:induction false} XorWithZero(x: nat, n: nat)
    requires x < Pow2(n)
    ensures XorBits(x, 0, n) == x
  {
    if n > 0 {
      XorWithZero(x / 2, n - 1);
    }
  }

  lemma {:induction false} ZeroBytes(width: nat)
    ensures forall i | 0 <= i < width :: ToBytes(0, width)[i] == 0
  {
    if width > 0 {
      ZeroBytes(width - 1);
    }
  }

  /** A nonce is the IV itself for number 0, and always differs from it, bit by bit, by the big-endian octets
      of the number. */
  lemma NonceSpellsTheNumber(iv: Bytes, n: nat)
    requires NonceForSeq(iv, n).Some?
    ensures var nonce := NonceForSeq(iv, n).value;
            && |nonce| == |iv| && (n == 0 ==> nonce == iv)
            && (forall i, j | 0 <= i < |iv| && 0 <= j < 8 ::
                  Bit(nonce[i], j) <==> Bit(iv[i], j) != Bit(ToBytes(n, |iv|)[i], j))
            && D.FromBigEndian(ToBytes(n, |iv|)) == n
  {
    var nonce, number := NonceForSeq(iv, n).value, ToBytes(n, |iv|);
    assert Pow2(8) == 256;
    forall i | 0 <= i < |iv|
      ensures n == 0 ==> nonce[i] == iv[i]
      ensures forall j | 0 <= j < 8 :: Bit(nonce[i], j) <==> Bit(iv[i], j) != Bit(number[i], j)
    {
      ZeroBytes(|iv|);
      XorWithZero(iv[i], 8);
      forall j | 0 <= j < 8 ensures Bit(nonce[i], j) <==> Bit(iv[i], j) != Bit(number[i], j) {
        XorIsBitwise(iv[i], number[i], 8, j);
      }
    }
    BytesSpell(n, |iv|);
  }

  lemma LimitIsPow256()
    ensures Pow256(NONCE_LENGTH) == SEQ_LIMIT
  {
    assert Pow256(4) == 0x1_0000_0000;
    assert Pow256(8) == 0x1_0000_0000_0000_0000;
  }

  /** In every run of a session or of a fork, whatever its IVs are as octets, every encryption in its own
      direction has a nonce, all under one key, and no two the same. */
  lemma NoNonceRepeats(start: Session, events: seq<Event>, ivs: Derived -> Bytes)
    requires Starting(start) && forall d :: |ivs(d)| == NONCE_LENGTH
    ensures var seals := Run(Begin(start), events).seals;
            && (forall i | 0 <= i < |seals| ::
                  seals[i].Seal? && seals[0].Seal? && seals[i].key == seals[0].key
                  && NonceForSeq(ivs(seals[i].iv), seals[i].seqno).Some?)
            && forall i, j | 0 <= i < j < |seals| ::
                 NonceForSeq(ivs(seals[i].iv), seals[i].seqno) != NonceForSeq(ivs(seals[j].iv), seals[j].seqno)
  {
    RunsAreWellBehaved(start, events);
    var seals := Run(Begin(start), events).seals;
    LimitIsPow256();
    hide NonceForSeq, Run, WellBehaved;
    forall i | 0 <= i < |seals|
      ensures seals[i].Seal? && seals[0].Seal? && seals[i].key == seals[0].key
                  && NonceForSeq(ivs(seals[i].iv), seals[i].seqno).Some?
    {
      HasNonce(ivs(seals[i].iv), seals[i].seqno);
    }
    forall i, j | 0 <= i < j < |seals|
      ensures NonceForSeq(ivs(seals[i].iv), seals[i].seqno) != NonceForSeq(ivs(seals[j].iv), seals[j].seqno)
    {
      assert seals[i].iv == seals[j].iv && seals[i].seqno == i && seals[j].seqno == j;
      if NonceForSeq(ivs(seals[i].iv), i) == NonceForSeq(ivs(seals[i].iv), j) {
        HasNonce(ivs(seals[i].iv), i);
        NonceInjective(ivs(seals[i].iv), i, j);
      }
    }
  }

  lemma HasNonce(iv: Bytes, n: nat)
    requires n < Pow256(|iv|)
    ensures NonceForSeq(iv, n).Some?
  {
  }
}
