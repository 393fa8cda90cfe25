/** Byte and word arithmetic: the machine's integer widths and Python's bitwise operators on
    non-negative integers, written out bit by bit. */
module Bits {

  type byte = x: int | 0 <= x < 256
  type word = x: int | 0 <= x < 65536
  type bit = x: int | 0 <= x <= 1

  function Pow2(k: nat): (p: nat)
    ensures p >= 1
  {
    if k == 0 then 1 else 2 * Pow2(k - 1)
  }

  /** `x & 0xFF` and `x & 0xFFFF`, also of a negative `x`. */
  function Low8(x: int): byte { x % 256 }

  function Low16(x: int): word { x % 65536 }

  // Python's &, | and ^ on non-negative integers.

  function And(a: nat, b: nat): (r: nat)
    ensures r <= a && r <= b
    decreases a
  {
    if a == 0 || b == 0 then 0
    else 2 * And(a / 2, b / 2) + (if a % 2 == 1 && b % 2 == 1 then 1 else 0)
  }

  function Or(a: nat, b: nat): (r: nat)
    ensures r >= a && r >= b
    decreases a
  {
    if a == 0 then b
    else 2 * Or(a / 2, b / 2) + (if a % 2 == 1 || b % 2 == 1 then 1 else 0)
  }

  function Xor(a: nat, b: nat): (r: nat)
    decreases a
  {
    if a == 0 then b
    else 2 * Xor(a / 2, b / 2) + (if a % 2 != b % 2 then 1 else 0)
  }

  lemma {:induction false} OrBelow(a: nat, b: nat, k: nat)
    requires a < Pow2(k) && b < Pow2(k)
    ensures Or(a, b) < Pow2(k)
  {
    if a != 0 {
      OrBelow(a / 2, b / 2, k - 1);
    }
  }

  lemma {:induction false} XorBelow(a: nat, b: nat, k: nat)
    requires a < Pow2(k) && b < Pow2(k)
    ensures Xor(a, b) < Pow2(k)
  {
    if a != 0 {
      XorBelow(a / 2, b / 2, k - 1);
    }
  }

  lemma Pow2Byte()
    ensures Pow2(8) == 256
  {
    assert Pow2(3) == 8;
    assert Pow2(6) == 64;
  }

  /** The sizes of DATA and CODE. */
  lemma Pow2Data()
    ensures Pow2(12) == 4096 && Pow2(13) == 8192
  {
    assert Pow2(3) == 8;
    assert Pow2(6) == 64;
    assert Pow2(9) == 512;
    assert Pow2(12) == 4096;
  }

  function AndByte(a: byte, b: byte): byte { And(a, b) }

  function OrByte(a: byte, b: byte): byte
  {
    Pow2Byte(); OrBelow(a, b, 8); Or(a, b)
  }

  function XorByte(a: byte, b: byte): byte
  {
    Pow2Byte(); XorBelow(a, b, 8); Xor(a, b)
  }

  /** `hi << 8 | lo`. */
  function Word(lo: byte, hi: byte): word { 256 * hi + lo }

  /** The two spellings agree because the shifted byte and the low byte share no bit. */
  lemma {:induction false} OrDisjoint(hi: nat, lo: nat, k: nat)
    requires lo < Pow2(k)
    ensures Or(hi * Pow2(k), lo) == hi * Pow2(k) + lo
    decreases k
  {
    if k == 0 {
      assert hi * Pow2(k) == hi;
      OrZero(hi);
    } else if hi * Pow2(k) != 0 {
      var p := Pow2(k - 1);
      assert hi * Pow2(k) == 2 * (hi * p);
      assert (hi * Pow2(k)) / 2 == hi * p;
      OrDisjoint(hi, lo / 2, k - 1);
    }
  }

  lemma {:induction false} OrZero(a: nat)
    ensures Or(a, 0) == a
  {
    if a != 0 {
      OrZero(a / 2);
    }
  }

  lemma {:induction false} OrCommutes(a: nat, b: nat)
    ensures Or(a, b) == Or(b, a)
  {
    if a == 0 {
      OrZero(b);
    } else if b == 0 {
      OrZero(a);
    } else {
      OrCommutes(a / 2, b / 2);
    }
  }

  /** Or-ing a shifted value into smaller bits adds it. */
  lemma OrAbove(lo: nat, hi: nat, k: nat)
    requires lo < Pow2(k)
    ensures Or(lo, hi * Pow2(k)) == lo + hi * Pow2(k)
  {
    OrDisjoint(hi, lo, k);
    OrCommutes(lo, hi * Pow2(k));
  }

  lemma OrAboveBy(lo: nat, hi: nat, k: nat, p: nat)
    requires p == Pow2(k) && lo < p
    ensures Or(lo, p * hi) == lo + p * hi
  {
    OrAbove(lo, hi, k);
  }

  lemma WordIsShiftOr(lo: byte, hi: byte)
    ensures Word(lo, hi) == Or(hi * 256, lo)
  {
    Pow2Byte();
    OrDisjoint(hi, lo, 8);
  }

  /** The reference's sign extension `(b ^ 0x80) - 0x80`. */
  function Signed(b: byte): (r: int)
    ensures -128 <= r <= 127
  {
    XorByte(b, 0x80) - 0x80
  }

  /** The circuit paths' sign extension `b - ((b >> 7) & 1) * 256`. */
  function SignedByTopBit(b: byte): int { b - (b / 128) % 2 * 256 }

  lemma SignExtensionsAgree(b: byte)
    ensures Signed(b) == SignedByTopBit(b)
  {
    XorTop(b, 7);
    assert Pow2(3) == 8;
    assert Pow2(7) == 128;
    Pow2Byte();
  }

  lemma {:induction false} XorZero(a: nat)
    ensures Xor(a, 0) == a
  {
    if a != 0 {
      XorZero(a / 2);
    }
  }

  lemma {:induction false} XorTop(a: nat, k: nat)
    requires a < Pow2(k + 1)
    ensures Xor(a, Pow2(k)) == if a < Pow2(k) then a + Pow2(k) else a - Pow2(k)
    decreases k
  {
    if a != 0 {
      if k == 0 {
        assert a == 1;
      } else {
        XorTop(a / 2, k - 1);
      }
    }
  }

  /** A store mask `x & (size - 1)` with a power-of-two size is the remainder. */
  lemma {:induction false} MaskIsRemainder(x: nat, k: nat)
    ensures And(x, Pow2(k) - 1) == x % Pow2(k)
    decreases k
  {
    if k > 0 && x > 0 {
      var p := Pow2(k - 1);
      MaskIsRemainder(x / 2, k - 1);
      MaskHalves(x, p);
      HalvedRemainder(x, p);
      assert Pow2(k) == 2 * p;
    } else if k == 0 {
      assert Pow2(k) == 1;
    } else {
      RemainderUnique(0, Pow2(k), 0, 0);
    }
  }

  lemma MaskHalves(x: nat, p: nat)
    requires x > 0 && p > 0
    ensures And(x, 2 * p - 1) == 2 * And(x / 2, p - 1) + x % 2
  {
    assert (2 * p - 1) / 2 == p - 1 && (2 * p - 1) % 2 == 1;
  }

  lemma HalvedRemainder(x: nat, p: nat)
    requires p >= 1
    ensures x % (2 * p) == 2 * ((x / 2) % p) + x % 2 && x / (2 * p) == x / 2 / p
  {
    var h := x / 2;
    var q, r := h / p, h % p;
    assert x == 2 * h + x % 2;
    assert h == q * p + r;
    assert x == q * (2 * p) + (2 * r + x % 2);
    RemainderUnique(x, 2 * p, q, 2 * r + x % 2);
  }

  lemma RemainderUnique(x: int, d: int, q: int, r: int)
    requires d > 0 && x == q * d + r && 0 <= r < d
    ensures x % d == r && x / d == q
  {
    var q', r' := x / d, x % d;
    DivisionIdentity(x, d);
    if q != q' {
      var k := if q > q' then q - q' else q' - q;
      Distribute(q, q', d);
      AtLeastOnce(k, d);
    }
  }

  lemma DivisionIdentity(x: int, d: int)
    requires d > 0
    ensures x == (x / d) * d + x % d && 0 <= x % d < d
  {
  }

  lemma Distribute(a: int, b: int, d: int)
    ensures (a - b) * d == a * d - b * d
  {
  }

  lemma AtLeastOnce(k: int, d: int)
    requires k >= 1 && d >= 0
    ensures k * d >= d
  {
    Distribute(k, 1, d);
  }

  /** Dividing twice is dividing by the product. */
  lemma DivisionShifts(a: int, p: int, q: int)
    requires p > 0 && q > 0
    ensures p * q > 0 && a / p / q == a / (p * q)
  {
    var h, r := a / p, a % p;
    var s, t := h / q, h % q;
    DivisionIdentity(a, p);
    DivisionIdentity(h, q);
    SplitBelow(t, r, p, q);
    assert s * q * p == s * (p * q);
    assert a == (s * q + t) * p + r == s * q * p + t * p + r;
    RemainderUnique(a, p * q, s, t * p + r);
  }

  lemma SplitBelow(t: int, r: int, p: int, q: int)
    requires 0 <= r < p && 0 <= t < q
    ensures 0 <= t * p + r < p * q
  {
    assert p * q == q * p == t * p + (q - t) * p;
    AtLeastOnce(q - t, p);
    if t > 0 {
      AtLeastOnce(t, p);
    }
  }

  // --------------------------------------------------------- what the operators mean

  /** Bit `k` of a natural. */
  predicate Bit(a: nat, k: nat) { a / Pow2(k) % 2 == 1 }

  /** Bit `k` is the lowest bit once `k` bits are shifted out, one at a time. */
  lemma BitStep(a: nat, k: nat)
    ensures Bit(a, 0) <==> a % 2 == 1
    ensures k > 0 ==> (Bit(a, k) <==> Bit(a / 2, k - 1))
  {
    assert Pow2(0) == 1;
    if k > 0 {
      HalvedRemainder(a, Pow2(k - 1));
      assert Pow2(k) == 2 * Pow2(k - 1);
    }
  }

  lemma {:induction false} ZeroBits(k: nat)
    ensures !Bit(0, k)
  {
    BitStep(0, k);
    if k > 0 {
      ZeroBits(k - 1);
    }
  }

  /** A conjunction has the bits both operands have. */
  lemma {:induction false} AndBits(a: nat, b: nat, k: nat)
    ensures Bit(And(a, b), k) <==> Bit(a, k) && Bit(b, k)
    decreases k
  {
    hide Bit;
    if a == 0 || b == 0 {
      ZeroBits(k);
    } else {
      BitStep(a, k);
      BitStep(b, k);
      BitStep(And(a, b), k);
      assert And(a, b) / 2 == And(a / 2, b / 2);
      if k > 0 {
        AndBits(a / 2, b / 2, k - 1);
      }
    }
  }

  /** A disjunction has the bits either operand has. */
  lemma {:induction false} OrBits(a: nat, b: nat, k: nat)
    ensures Bit(Or(a, b), k) <==> Bit(a, k) || Bit(b, k)
    decreases k
  {
    hide Bit;
    if a == 0 {
      ZeroBits(k);
    } else {
      BitStep(a, k);
      BitStep(b, k);
      BitStep(Or(a, b), k);
      assert Or(a, b) / 2 == Or(a / 2, b / 2);
      if k > 0 {
        OrBits(a / 2, b / 2, k - 1);
      }
    }
  }

  /** An exclusive or has the bits exactly one operand has. */
  lemma {:induction false} XorBits(a: nat, b: nat, k: nat)
    ensures Bit(Xor(a, b), k) <==> Bit(a, k) != Bit(b, k)
    decreases k
  {
    hide Bit;
    if a == 0 {
      ZeroBits(k);
    } else {
      BitStep(a, k);
      BitStep(b, k);
      BitStep(Xor(a, b), k);
      assert Xor(a, b) / 2 == Xor(a / 2, b / 2);
      if k > 0 {
        XorBits(a / 2, b / 2, k - 1);
      }
    }
  }

  /** A natural is its bits: the three laws determine the operators. */
  lemma {:induction false} BitsDetermine(a: nat, b: nat)
    requires forall k: nat :: Bit(a, k) <==> Bit(b, k)
    ensures a == b
    decreases a + b
  {
    hide Bit;
    BitStep(a, 0);
    BitStep(b, 0);
    if a + b > 0 {
      forall k: nat ensures Bit(a / 2, k) <==> Bit(b / 2, k) {
        BitStep(a, k + 1);
        BitStep(b, k + 1);
      }
      BitsDetermine(a / 2, b / 2);
    }
  }
}
