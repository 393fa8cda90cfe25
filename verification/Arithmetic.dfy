/** What the arithmetic instructions compute, in integers and bits: nothing here goes through the
    operators the transition is written with. */
module Arithmetic {
  import opened Bits
  import opened Isa
  import opened Reference

  /** A byte as a signed number. */
  function Int8(b: byte): int { if b < 128 then b else b - 256 }

  predicate Fits8(t: int) { -128 <= t <= 127 }

  lemma SignedIsInt8(b: byte)
    ensures Signed(b) == Int8(b)
  {
    SignExtensionsAgree(b);
  }

  /** The sign is the top bit. */
  lemma TopBit(b: byte)
    ensures b / 128 == (if Bit(b, 7) then 1 else 0)
    ensures Bit(b, 7) <==> Int8(b) < 0
  {
    assert Pow2(3) == 8;
    assert Pow2(7) == 128;
  }

  /** The overflow of a sum: the two operands' signs differ from the result's exactly when the signed
      sum leaves the byte. */
  lemma AddOverflows(x: byte, y: byte, carry: bit)
    ensures OverflowAdd(x, y, Low8(x + y + carry)) == 1 <==> !Fits8(Int8(x) + Int8(y) + carry)
  {
    hide And, Xor, Bit;
    var w := Low8(x + y + carry);
    TopBit(x);
    TopBit(y);
    TopBit(w);
    XorBits(x, w, 7);
    XorBits(y, w, 7);
    AndBits(XorByte(x, w), XorByte(y, w), 7);
    TopBit(AndByte(XorByte(x, w), XorByte(y, w)));
  }

  lemma SubOverflows(x: byte, y: byte, borrow: bit)
    ensures OverflowSub(x, y, Low8(x - y - borrow)) == 1 <==> !Fits8(Int8(x) - Int8(y) - borrow)
  {
    hide And, Xor, Bit;
    var w := Low8(x - y - borrow);
    TopBit(x);
    TopBit(y);
    TopBit(w);
    XorBits(x, y, 7);
    XorBits(w, x, 7);
    AndBits(XorByte(x, y), XorByte(w, x), 7);
    TopBit(AndByte(XorByte(x, y), XorByte(w, x)));
  }

  // ------------------------------------------------------ sums, differences, CMP

  lemma SumOf(x: byte, y: byte, carry: bit)
    ensures var o := Sum(x, y, carry);
      && o.en && o.w + 256 * o.c == x + y + carry && (o.z == 1 <==> o.w == 0)
      && (o.s == 1 <==> Int8(o.w) < 0) && (o.v == 1 <==> !Fits8(Int8(x) + Int8(y) + carry))
  {
    hide OverflowAdd, Fits8;
    AddOverflows(x, y, carry);
  }

  lemma DifferenceOf(x: byte, y: byte, borrow: bit)
    ensures var o := Difference(x, y, borrow);
      && o.en && o.w - 256 * o.c == x - y - borrow && (o.z == 1 <==> o.w == 0)
      && (o.s == 1 <==> Int8(o.w) < 0) && (o.v == 1 <==> !Fits8(Int8(x) - Int8(y) - borrow))
  {
    hide OverflowSub, Fits8;
    SubOverflows(x, y, borrow);
  }

  predicate Adds(x: Sel) { x.Add? || x.Adc? || x.Addi? || x.Adci? }

  predicate Subtracts(x: Sel) { x.Sub? || x.Sbb? || x.Subi? }

  /** The right operand: the second register, or the immediate. */
  function Right(x: Sel, m: Core, a: Args): byte
  {
    if x.Addi? || x.Adci? || x.Subi? then a.i0 else m.r[a.s1]
  }

  /** The carry or borrow taken in. */
  function Taken(x: Sel, m: Core): bit { if x.Adc? || x.Adci? || x.Sbb? then m.c else 0 }

  /** One register and the four flags, at most, differ. */
  predicate OnlyAlu(m: Core, d: reg, n: Core)
  {
    n == m.(r := m.r[d := n.r[d]], c := n.c, z := n.z, s := n.s, v := n.v)
  }

  /** A sum: carry and register together are the sum of the operands and the carry taken in; Z and S
      describe the register; V says that the signed sum leaves the byte. */
  lemma SumMeans(x: Sel, a: Args, pc0: word, m: Core, pg: seq<Page>)
    requires Adds(x)
    ensures ExecAlu(x, a, pc0, m, pg).Next?
    ensures var n, l, r, t := ExecAlu(x, a, pc0, m, pg).m, m.r[a.s0], Right(x, m, a), Taken(x, m);
      && OnlyAlu(m, a.s0, n) && n.r[a.s0] + 256 * n.c == l + r + t
      && (n.z == 1 <==> n.r[a.s0] == 0) && (n.s == 1 <==> Int8(n.r[a.s0]) < 0)
      && (n.v == 1 <==> !Fits8(Int8(l) + Int8(r) + t))
  {
    hide Sum, Fits8, Int8;
    SumOf(m.r[a.s0], Right(x, m, a), Taken(x, m));
  }

  /** A difference, with the borrow in C. */
  lemma DifferenceMeans(x: Sel, a: Args, pc0: word, m: Core, pg: seq<Page>)
    requires Subtracts(x)
    ensures ExecAlu(x, a, pc0, m, pg).Next?
    ensures var n, l, r, t := ExecAlu(x, a, pc0, m, pg).m, m.r[a.s0], Right(x, m, a), Taken(x, m);
      && OnlyAlu(m, a.s0, n) && n.r[a.s0] - 256 * n.c == l - r - t
      && (n.z == 1 <==> n.r[a.s0] == 0) && (n.s == 1 <==> Int8(n.r[a.s0]) < 0)
      && (n.v == 1 <==> !Fits8(Int8(l) - Int8(r) - t))
  {
    hide Difference, Fits8, Int8;
    DifferenceOf(m.r[a.s0], Right(x, m, a), Taken(x, m));
  }

  /** A comparison writes the flags alone: Z is equality, C the unsigned order, and S against V the
      signed order. */
  lemma CompareMeans(a: Args, pc0: word, m: Core, pg: seq<Page>)
    ensures ExecAlu(Cmp, a, pc0, m, pg).Next?
    ensures var n, l, r := ExecAlu(Cmp, a, pc0, m, pg).m, m.r[a.s0], m.r[a.s1];
      && n == m.(c := n.c, z := n.z, s := n.s, v := n.v)
      && (n.z == 1 <==> l == r) && (n.c == 1 <==> l < r)
      && (n.v == 1 <==> !Fits8(Int8(l) - Int8(r)))
      && (n.s != n.v <==> Int8(l) < Int8(r))
  {
    hide Difference;
    DifferenceOf(m.r[a.s0], m.r[a.s1], 0);
  }

  // ------------------------------------------------- bits, products and quotients

  /** The operators on bytes, bit by bit. */
  lemma ByteBits(x: byte, y: byte, k: nat)
    ensures Bit(AndByte(x, y), k) <==> Bit(x, k) && Bit(y, k)
    ensures Bit(OrByte(x, y), k) <==> Bit(x, k) || Bit(y, k)
    ensures Bit(XorByte(x, y), k) <==> Bit(x, k) != Bit(y, k)
  {
    AndBits(x, y, k);
    OrBits(x, y, k);
    XorBits(x, y, k);
  }

  /** AND, OR and XOR: bit `k` of the register is the operands' bits joined; Z describes it; C, S and
      V stay. */
  lemma LogicMeans(x: Sel, a: Args, pc0: word, m: Core, pg: seq<Page>, k: nat)
    requires x.And8? || x.Or8? || x.Xor8?
    ensures ExecAlu(x, a, pc0, m, pg).Next?
    ensures var n, l, r := ExecAlu(x, a, pc0, m, pg).m, Bit(m.r[a.s0], k), Bit(m.r[a.s1], k);
      && n == m.(r := m.r[a.s0 := n.r[a.s0]], z := n.z) && (n.z == 1 <==> n.r[a.s0] == 0)
      && (Bit(n.r[a.s0], k) <==> if x.And8? then l && r else if x.Or8? then l || r else l != r)
  {
    hide AndByte, OrByte, XorByte, Bit;
    ByteBits(m.r[a.s0], m.r[a.s1], k);
  }

  /** MUL and MULH of the same registers give the two bytes of the product; MUL's C says that the
      upper one is not zero. */
  lemma ProductMeans(a: Args, pc0: word, m: Core, pg: seq<Page>)
    ensures ExecAlu(Mul, a, pc0, m, pg).Next? && ExecAlu(Mulh, a, pc0, m, pg).Next?
    ensures var low, high := ExecAlu(Mul, a, pc0, m, pg).m, ExecAlu(Mulh, a, pc0, m, pg).m;
      var x: int, y: int, l: int, h: int := m.r[a.s0], m.r[a.s1], low.r[a.s0], high.r[a.s0];
      && 256 * h + l == x * y
      && low == m.(r := m.r[a.s0 := low.r[a.s0]], c := low.c, z := low.z)
      && high == m.(r := m.r[a.s0 := high.r[a.s0]], z := high.z)
      && (low.c == 1 <==> high.r[a.s0] != 0)
      && (low.z == 1 <==> low.r[a.s0] == 0) && (high.z == 1 <==> high.r[a.s0] == 0)
  {
    hide AluLogic;
    ProductOf(AluInputs(m, a, pc0));
  }

  lemma ProductOf(u: AluIn)
    ensures var low, high, x: int, y: int := AluLogic(Mul, u), AluLogic(Mulh, u), u.x, u.y;
      var l: int, h: int := low.w, high.w;
      && low.en && high.en && 256 * h + l == x * y
      && low.s == high.s == u.s && low.v == high.v == u.v && high.c == u.c
      && (low.c == 1 <==> h != 0) && (low.z == 1 <==> l == 0) && (high.z == 1 <==> h == 0)
  {
    hide Product;
    ProductBytes(u.x, u.y);
  }

  lemma ProductBytes(x: int, y: int)
    requires 0 <= x < 256 && 0 <= y < 256
    ensures Product(x, y) == x * y && 0 <= Product(x, y) < 65536
  {
    ProductBelow(x, y);
  }

  lemma {:induction false} ProductBelow(x: nat, y: nat)
    requires y < 256
    ensures 0 <= x * y <= 255 * x
  {
    if x > 0 {
      ProductBelow(x - 1, y);
      assert x * y == (x - 1) * y + y;
    }
  }

  /** Multiplication is repeated addition. */
  lemma ProductAdds(x: int, y: int)
    ensures Product(x, 0) == 0 && Product(x, y + 1) == Product(x, y) + x
  {
  }

  /** DIV and MOD of the same registers: the quotient and the remainder, and nothing by zero. */
  lemma QuotientMeans(a: Args, pc0: word, m: Core, pg: seq<Page>)
    ensures m.r[a.s1] == 0 ==>
      ExecAlu(Div, a, pc0, m, pg) == Fault(DivZero) && ExecAlu(Mod, a, pc0, m, pg) == Fault(DivZero)
    ensures m.r[a.s1] != 0 ==> ExecAlu(Div, a, pc0, m, pg).Next? && ExecAlu(Mod, a, pc0, m, pg).Next?
    ensures m.r[a.s1] != 0 ==>
      var q, r := ExecAlu(Div, a, pc0, m, pg).m, ExecAlu(Mod, a, pc0, m, pg).m;
      && m.r[a.s0] == q.r[a.s0] * m.r[a.s1] + r.r[a.s0] && r.r[a.s0] < m.r[a.s1]
      && q == m.(r := m.r[a.s0 := q.r[a.s0]], z := q.z) && r == m.(r := m.r[a.s0 := r.r[a.s0]], z := r.z)
      && (q.z == 1 <==> q.r[a.s0] == 0) && (r.z == 1 <==> r.r[a.s0] == 0)
  {
    if m.r[a.s1] != 0 {
      DivisionIdentity(m.r[a.s0], m.r[a.s1]);
    }
  }

  // ------------------------------------------------------------ one-register forms

  lemma RotationOf(x: Sel, u: AluIn)
    requires x.Rol? || x.Ror?
    ensures var o := AluUnary(x, u);
      && o.en && o.s == u.s && o.v == u.v && (o.z == 1 <==> o.w == 0)
      && (x.Rol? ==> 256 * o.c + o.w == 2 * u.x + u.c)
      && (x.Ror? ==> 2 * o.w + o.c == u.x + 256 * u.c)
  {
    hide Or;
    OrShift(u.x, u.c);
  }

  /** A rotation passes every bit on: register and carry together hold the same nine bits. */
  lemma RotationMeans(x: Sel, a: Args, pc0: word, m: Core, pg: seq<Page>)
    requires x.Rol? || x.Ror?
    ensures ExecAlu(x, a, pc0, m, pg).Next?
    ensures var n, l := ExecAlu(x, a, pc0, m, pg).m, m.r[a.s0];
      && n == m.(r := m.r[a.s0 := n.r[a.s0]], c := n.c, z := n.z) && (n.z == 1 <==> n.r[a.s0] == 0)
      && (x.Rol? ==> 256 * n.c + n.r[a.s0] == 2 * l + m.c)
      && (x.Ror? ==> 2 * n.r[a.s0] + n.c == l + 256 * m.c)
  {
    hide AluUnary;
    RotationOf(x, AluInputs(m, a, pc0));
  }

  /** A shift loses one bit into the carry. */
  lemma ShiftMeans(x: Sel, a: Args, pc0: word, m: Core, pg: seq<Page>)
    requires x.Shl? || x.Shr?
    ensures ExecAlu(x, a, pc0, m, pg).Next?
    ensures var n, l: int := ExecAlu(x, a, pc0, m, pg).m, m.r[a.s0];
      && n == m.(r := m.r[a.s0 := n.r[a.s0]], c := n.c, z := n.z) && (n.z == 1 <==> n.r[a.s0] == 0)
      && (x.Shl? ==> 256 * n.c + n.r[a.s0] == 2 * l)
      && (x.Shr? ==> 2 * n.r[a.s0] + n.c == l)
  {
    hide Or;
  }

  lemma OrShift(l: byte, c: bit)
    ensures Or(2 * l, c) == 2 * l + c && Or(l / 2, 128 * c) == l / 2 + 128 * c
  {
    assert Pow2(1) == 2;
    assert Pow2(3) == 8;
    assert Pow2(7) == 128;
    OrDisjoint(l, c, 1);
    OrAboveBy(l / 2, c, 7, 128);
  }

  /** NEG gives the number that adds up to zero, NOT the one that adds up to all ones; TST looks only. */
  lemma NegationMeans(x: Sel, a: Args, pc0: word, m: Core, pg: seq<Page>)
    requires x.Neg? || x.Not? || x.Tst?
    ensures ExecAlu(x, a, pc0, m, pg).Next?
    ensures var n := ExecAlu(x, a, pc0, m, pg).m;
      var l: int, w: int, c: int := m.r[a.s0], n.r[a.s0], n.c;
      && (n.z == 1 <==> n.r[a.s0] == 0)
      && (x.Neg? ==>
            && n == m.(r := m.r[a.s0 := n.r[a.s0]], c := n.c, z := n.z, s := n.s)
            && w + l == 256 * c && (n.s == 1 <==> Int8(n.r[a.s0]) < 0))
      && (x.Not? ==> n == m.(r := m.r[a.s0 := n.r[a.s0]], z := n.z) && w + l == 255)
      && (x.Tst? ==> n == m.(z := n.z))
  {
  }

  /** The moves: no flag changes, and GETF packs the four flags. */
  lemma MoveMeans(x: Sel, a: Args, pc0: word, m: Core, pg: seq<Page>)
    requires IsMove(x)
    ensures ExecAlu(x, a, pc0, m, pg).Next?
    ensures var n := ExecAlu(x, a, pc0, m, pg).m;
      && n == m.(r := m.r[a.s0 := n.r[a.s0]])
      && (x.Mov? ==> n.r[a.s0] == m.r[a.s1]) && (x.Ldi? ==> n.r[a.s0] == a.i0)
      && (x.GetPc? ==> n.r[a.s0] == pc0 % 256) && (x.GetSp? ==> n.r[a.s0] == m.sp % 256)
      && (x.GetF? ==> n.r[a.s0] == m.z + 2 * m.c + 4 * m.s + 8 * m.v)
  {
    hide FlagsByte, Or;
    if x.GetF? {
      PackedFlags(m.z, m.c, m.s, m.v);
    }
  }

  lemma PackedFlags(z: bit, c: bit, s: bit, v: bit)
    ensures FlagsByte(z, c, s, v) == z + 2 * c + 4 * s + 8 * v
  {
    FlagsByteIsSum(z, c, s, v);
  }
}
