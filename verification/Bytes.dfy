/** Single bits of a byte, and the shifts and the population count that the bitset takes of it. */
module Bytes {

  type Byte = bv8

  const BITS_PER_CHAR := 8

  /** 1 << bit */
  function Mask(bit: nat): Byte
    requires bit < 8
  {
    match bit
    case 0 => 0x01
    case 1 => 0x02
    case 2 => 0x04
    case 3 => 0x08
    case 4 => 0x10
    case 5 => 0x20
    case 6 => 0x40
    case 7 => 0x80
  }

  predicate Bit(b: Byte, k: nat)
    requires k < 8
  {
    b & Mask(k) != 0
  }

  /** 0xFF >> (8 - n) */
  function Low(n: nat): Byte
    requires 1 <= n <= 8
  {
    match n
    case 1 => 0x01
    case 2 => 0x03
    case 3 => 0x07
    case 4 => 0x0F
    case 5 => 0x1F
    case 6 => 0x3F
    case 7 => 0x7F
    case 8 => 0xFF
  }

  /** The low byte of 0xFF << n */
  function High(n: nat): Byte
    requires 1 <= n <= 8
  {
    !Low(n)
  }

  lemma LowBits(n: nat, k: nat)
    requires 1 <= n <= 8 && k < 8
    ensures Bit(Low(n), k) <==> k < n
    ensures Bit(High(n), k) <==> n <= k
  {
  }

  predicate Single(m: Byte) {
    m == 1 || m == 2 || m == 4 || m == 8 || m == 16 || m == 32 || m == 64 || m == 128
  }

  lemma MaskSingle(k: nat)
    requires k < 8
    ensures Single(Mask(k))
  {
  }

  lemma AndMask(a: Byte, b: Byte, m: Byte)
    requires Single(m)
    ensures (a & b) & m != 0 <==> a & m != 0 && b & m != 0
  {
  }

  lemma AndBits(a: Byte, b: Byte, k: nat)
    requires k < 8
    ensures Bit(a & b, k) <==> Bit(a, k) && Bit(b, k)
  {
    hide Single;
    MaskSingle(k);
    AndMask(a, b, Mask(k));
  }

  lemma OrMask(a: Byte, b: Byte, m: Byte)
    requires Single(m)
    ensures (a | b) & m != 0 <==> a & m != 0 || b & m != 0
  {
  }

  lemma OrBits(a: Byte, b: Byte, k: nat)
    requires k < 8
    ensures Bit(a | b, k) <==> Bit(a, k) || Bit(b, k)
  {
    hide Single;
    MaskSingle(k);
    OrMask(a, b, Mask(k));
  }

  lemma XorMask(a: Byte, b: Byte, m: Byte)
    requires Single(m)
    ensures (a ^ b) & m != 0 <==> (a & m != 0) != (b & m != 0)
  {
  }

  lemma XorBits(a: Byte, b: Byte, k: nat)
    requires k < 8
    ensures Bit(a ^ b, k) <==> (Bit(a, k)) != (Bit(b, k))
  {
    hide Single;
    MaskSingle(k);
    XorMask(a, b, Mask(k));
  }

  lemma NotBits(a: Byte, k: nat)
    requires k < 8
    ensures Bit(!a, k) <==> !Bit(a, k)
  {
  }

  /** A byte is determined by its bits. */
  lemma ZeroBits(a: Byte)
    ensures a == 0 <==> forall k: nat :: k < 8 ==> !Bit(a, k)
    ensures a == 0xFF <==> forall k: nat :: k < 8 ==> Bit(a, k)
  {
    if forall k: nat :: k < 8 ==> !Bit(a, k) {
      assert !Bit(a, 0) && !Bit(a, 1) && !Bit(a, 2) && !Bit(a, 3) && !Bit(a, 4) && !Bit(a, 5) && !Bit(a, 6) && !Bit(a, 7);
    }
    if forall k: nat :: k < 8 ==> Bit(a, k) {
      assert Bit(a, 0) && Bit(a, 1) && Bit(a, 2) && Bit(a, 3) && Bit(a, 4) && Bit(a, 5) && Bit(a, 6) && Bit(a, 7);
    }
  }

  /** popcount: the bits are added in pairs, then in fours, then all. */
  function PopCount(v: Byte): Byte {
    var pairs := v - ((v >> 1) & 0x55);
    var fours := (pairs & 0x33) + ((pairs >> 2) & 0x33);
    (fours + (fours >> 4)) & 0x0F
  }

  function One(b: bool): nat { if b then 1 else 0 }

  /** The number of the first n bits that are set. */
  function Ones(v: Byte, n: nat): nat
    requires n <= 8
  {
    if n == 0 then 0 else Ones(v, n - 1) + One(Bit(v, n - 1))
  }

  function Counted(c: Byte, b: bool): Byte { if b then c + 1 else c }

  /** The bits of v, counted one by one in a byte. */
  function CountBits(v: Byte, n: nat): Byte
    requires n <= 8
  {
    if n == 0 then 0 else Counted(CountBits(v, n - 1), Bit(v, n - 1))
  }

  lemma CountOne(c: Byte, b: bool)
    requires c < 8
    ensures Counted(c, b) as nat == c as nat + One(b) && Counted(c, b) <= c + 1
  {
  }

  lemma {:induction false} CountBitsOnes(v: Byte, n: nat)
    requires n <= 8
    ensures CountBits(v, n) as nat == Ones(v, n) <= n
  {
    hide Bit;
    if n > 0 {
      CountBitsOnes(v, n - 1);
      assert CountBits(v, n - 1) < 8 by { AtMost(CountBits(v, n - 1), n - 1); }
      CountOne(CountBits(v, n - 1), Bit(v, n - 1));
    }
  }

  lemma AtMost(c: Byte, n: nat)
    requires c as nat <= n < 8
    ensures c < 8
  {
  }

  lemma PopCounted(v: Byte)
    ensures PopCount(v) == Counted(Counted(Counted(Counted(Counted(Counted(Counted(Counted(0,
      Bit(v, 0)), Bit(v, 1)), Bit(v, 2)), Bit(v, 3)), Bit(v, 4)), Bit(v, 5)), Bit(v, 6)), Bit(v, 7))
  {
  }

  lemma CountAll(v: Byte)
    ensures CountBits(v, 8) == Counted(Counted(Counted(Counted(Counted(Counted(Counted(Counted(0,
      Bit(v, 0)), Bit(v, 1)), Bit(v, 2)), Bit(v, 3)), Bit(v, 4)), Bit(v, 5)), Bit(v, 6)), Bit(v, 7))
  {
    hide Bit, Counted;
    var c2 := CountBits(v, 2);
    var c4 := CountBits(v, 4);
    var c6 := CountBits(v, 6);
    assert CountBits(v, 1) == Counted(0, Bit(v, 0));
    assert c2 == Counted(CountBits(v, 1), Bit(v, 1));
    assert c4 == Counted(CountBits(v, 3), Bit(v, 3));
    assert c6 == Counted(CountBits(v, 5), Bit(v, 5));
  }

  /** The parallel count is the number of bits that are set. */
  lemma PopCountOnes(v: Byte)
    ensures PopCount(v) as nat == Ones(v, 8)
  {
    hide PopCount, Bit, Counted, CountBits, Ones;
    PopCounted(v);
    CountAll(v);
    CountBitsOnes(v, 8);
  }
}
