/** Bytes, big-endian numbers and exclusive-or, shared by every module. */
module Base {

  type Byte = x: int | 0 <= x < 256
  type Bytes = seq<Byte>

  datatype Option<+T> = None | Some(value: T)

  datatype Result<+T, +E> = Success(value: T) | Failure(error: E) {
    predicate IsFailure() { Failure? }
    function PropagateFailure<U>(): Result<U, E> requires Failure? { Failure(error) }
    function Extract(): T requires Success? { value }
  }

  // --- big-endian numbers ---------------------------------------------------

  function Pow256(k: nat): (p: nat)
    ensures p > 0
  {
    if k == 0 then 1 else 256 * Pow256(k - 1)
  }

  /** The number a big-endian byte string denotes. */
  function ToNat(b: Bytes): nat {
    if b == [] then 0 else 256 * ToNat(b[..|b| - 1]) + b[|b| - 1]
  }

  /** The low `k` bytes of `n`, most significant first. */
  function BigEndian(n: nat, k: nat): (b: Bytes)
    ensures |b| == k
  {
    if k == 0 then [] else BigEndian(n / 256, k - 1) + [n % 256]
  }

  lemma {:induction false} ToNatBound(b: Bytes)
    ensures ToNat(b) < Pow256(|b|)
  {
    if b != [] { ToNatBound(b[..|b| - 1]); }
  }

  lemma {:induction false} BigEndianToNat(n: nat, k: nat)
    requires n < Pow256(k)
    ensures ToNat(BigEndian(n, k)) == n
  {
    if k > 0 {
      BigEndianToNat(n / 256, k - 1);
      assert BigEndian(n, k)[..k - 1] == BigEndian(n / 256, k - 1);
    }
  }

  lemma {:induction false} ToNatBigEndian(b: Bytes)
    ensures BigEndian(ToNat(b), |b|) == b
  {
    if b != [] {
      ToNatBigEndian(b[..|b| - 1]);
      assert b == b[..|b| - 1] + [b[|b| - 1]];
    }
  }

  /** Leading zero bytes do not change the number. */
  lemma {:induction false} ToNatLeadingZero(b: Bytes)
    ensures ToNat([0] + b) == ToNat(b)
  {
    if b == [] {
      assert [0] + b == [0];
      assert ToNat([0]) == 256 * ToNat([0][..0]) + 0;
    } else {
      ToNatLeadingZero(b[..|b| - 1]);
      assert ([0] + b)[..|b|] == [0] + b[..|b| - 1];
    }
  }

  /** A byte string whose leading byte is not zero is at least as big as its length says. */
  lemma {:induction false} ToNatLowerBound(b: Bytes)
    requires b != [] && b[0] != 0
    ensures ToNat(b) >= Pow256(|b| - 1)
  {
    if |b| > 1 {
      ToNatLowerBound(b[..|b| - 1]);
      assert Pow256(|b| - 1) == 256 * Pow256(|b| - 2);
    } else {
      assert b[..0] == [];
    }
  }

  const TWO_32: nat := 0x1_0000_0000
  const TWO_64: nat := 0x1_0000_0000_0000_0000

  lemma PowersOf256()
    ensures Pow256(1) == 256 && Pow256(2) == 0x1_0000 && Pow256(4) == TWO_32 && Pow256(8) == TWO_64
  {
    assert Pow256(3) == 0x100_0000;
    assert Pow256(5) == 0x100_0000_0000;
    assert Pow256(6) == 0x1_0000_0000_0000;
    assert Pow256(7) == 0x100_0000_0000_0000;
  }

  // --- exclusive-or ---------------------------------------------------------

  function Pow2(k: nat): nat {
    if k == 0 then 1 else 2 * Pow2(k - 1)
  }

  /** Exclusive-or of two `k`-bit numbers, bit by bit. */
  function XorBits(k: nat, a: nat, b: nat): (x: nat)
    requires a < Pow2(k) && b < Pow2(k)
    ensures x < Pow2(k)
  {
    if k == 0 then 0
    else 2 * XorBits(k - 1, a / 2, b / 2) + (if a % 2 == b % 2 then 0 else 1)
  }

  lemma {:induction false} XorBitsTwice(k: nat, a: nat, b: nat)
    requires a < Pow2(k) && b < Pow2(k)
    ensures XorBits(k, XorBits(k, a, b), b) == a
  {
    if k > 0 { XorBitsTwice(k - 1, a / 2, b / 2); }
  }

  lemma {:induction false} XorBitsSymmetric(k: nat, a: nat, b: nat)
    requires a < Pow2(k) && b < Pow2(k)
    ensures XorBits(k, a, b) == XorBits(k, b, a)
  {
    if k > 0 { XorBitsSymmetric(k - 1, a / 2, b / 2); }
  }

  function Bit(n: nat, i: nat): bool { if i == 0 then n % 2 == 1 else Bit(n / 2, i - 1) }

  /** What exclusive-or means: a bit of the result is set exactly if it is set in one of the two. */
  lemma {:induction false} XorBitIsExclusive(k: nat, a: nat, b: nat, i: nat)
    requires a < Pow2(k) && b < Pow2(k) && i < k
    ensures Bit(XorBits(k, a, b), i) <==> (Bit(a, i) != Bit(b, i))
  {
    var rest := XorBits(k - 1, a / 2, b / 2);
    assert XorBits(k, a, b) / 2 == rest;
    if i > 0 { XorBitIsExclusive(k - 1, a / 2, b / 2, i - 1); }
  }

  lemma Pow2Of8()
    ensures Pow2(8) == 256
  {
    assert Pow2(4) == 16;
  }

  function XorByte(a: Byte, b: Byte): Byte {
    Pow2Of8();
    XorBits(8, a, b)
  }

  function Xor(a: Bytes, b: Bytes): (x: Bytes)
    requires |a| == |b|
    ensures |x| == |a|
  {
    seq(|a|, i requires 0 <= i < |a| => XorByte(a[i], b[i]))
  }

  lemma XorTwice(a: Bytes, b: Bytes)
    requires |a| == |b|
    ensures Xor(Xor(a, b), b) == a
    ensures Xor(a, Xor(a, b)) == b
    ensures Xor(a, b) == Xor(b, a)
  {
    Pow2Of8();
    forall i | 0 <= i < |a|
      ensures XorByte(XorByte(a[i], b[i]), b[i]) == a[i]
      ensures XorByte(a[i], XorByte(a[i], b[i])) == b[i]
      ensures XorByte(a[i], b[i]) == XorByte(b[i], a[i])
    {
      XorBitsTwice(8, a[i], b[i]);
      XorBitsSymmetric(8, a[i], b[i]);
      XorBitsTwice(8, b[i], a[i]);
      XorBitsSymmetric(8, XorByte(a[i], b[i]), a[i]);
    }
  }

  /** Exclusive-or of byte strings, bit for bit. */
  lemma XorBytesBitwise(a: Bytes, b: Bytes, k: nat, i: nat)
    requires |a| == |b| && k < |a| && i < 8
    ensures Bit(Xor(a, b)[k], i) <==> (Bit(a[k], i) != Bit(b[k], i))
  {
    Pow2Of8();
    XorBitIsExclusive(8, a[k], b[k], i);
  }
}
