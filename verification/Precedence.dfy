/** Which operator an expression applies first, by the operators' names: nothing here goes through the
    table of levels the parser and the print share. And what the operators are to each other. */
module Precedence {
  import opened Bits
  import opened Isa
  import opened Expressions

  // --------------------------------------------------------------- the operators

  predicate Shifts(k: Token) { k.ShiftLeft? || k.ShiftRight? }

  predicate Sums(k: Token) { k.Plus? || k.Minus? }

  predicate Products(k: Token) { k.Star? || k.FloorDiv? || k.Percent? || k.Slash? }

  predicate Binary(k: Token) { k.Pipe? || k.Caret? || k.Amp? || Shifts(k) || Sums(k) || Products(k) }

  /** `q` binds tighter than `p`. */
  predicate Tighter(p: Token, q: Token)
  {
    || (p.Pipe? && (q.Caret? || q.Amp? || Shifts(q) || Sums(q) || Products(q)))
    || (p.Caret? && (q.Amp? || Shifts(q) || Sums(q) || Products(q)))
    || (p.Amp? && (Shifts(q) || Sums(q) || Products(q)))
    || (Shifts(p) && (Sums(q) || Products(q)))
    || (Sums(p) && Products(q))
  }

  /** The two bind alike. */
  predicate Alike(p: Token, q: Token)
  {
    || (p.Pipe? && q.Pipe?) || (p.Caret? && q.Caret?) || (p.Amp? && q.Amp?)
    || (Shifts(p) && Shifts(q)) || (Sums(p) && Sums(q)) || (Products(p) && Products(q))
  }

  /** Every two operators compare one way. */
  lemma OrderIsTotal(p: Token, q: Token)
    requires Binary(p) && Binary(q)
    ensures Tighter(p, q) || Tighter(q, p) || Alike(p, q)
    ensures !(Tighter(p, q) && Tighter(q, p)) && !(Tighter(p, q) && Alike(p, q))
  {
  }

  // ---------------------------------------------------------------- the operands

  /** A literal, or any accepted expression in brackets, and what it is worth. */
  ghost predicate Operand(x: seq<Token>, env: Symbols, v: int)
  {
    || (exists n: nat :: x == [Num(n)] && v == n)
    || (exists y :: x == [LParen] + y + [RParen] && Lexed(y + [Close]) && Parse(y + [Close], env) == Some(v))
  }

  lemma OperandTree(x: seq<Token>, env: Symbols, v: int) returns (e: Tree)
    requires Operand(x, env, v)
    ensures WellFormed(e) && Tightness(e) == 7 && Bare(e) == x && Value(e, env) == Some(v)
  {
    hide Parse, Lexed;
    if n: nat :| x == [Num(n)] && v == n {
      e := Lit(n);
    } else {
      var y :| x == [LParen] + y + [RParen] && Lexed(y + [Close]) && Parse(y + [Close], env) == Some(v);
      AcceptedIsPrint(y + [Close], env, v);
      var a :| WellFormed(a) && Print(a, 0) + [Close] == y + [Close] && Value(a, env) == Some(v);
      LastOff(Print(a, 0), y);
      e := Paren(a);
    }
  }

  lemma LastOff(p: seq<Token>, q: seq<Token>)
    requires p + [Close] == q + [Close]
    ensures p == q
  {
    assert (p + [Close])[..|p|] == p && (q + [Close])[..|q|] == q;
  }

  /** An operator over two results, of which either may be missing. */
  function Joined(p: Token, a: Option<int>, b: Option<int>): Option<int>
  {
    if a.None? || b.None? then None else Combine(p, a.value, b.value)
  }

  lemma Levels(p: Token, q: Token)
    ensures Tighter(p, q) ==> 0 <= LevelOfOp(p) < LevelOfOp(q) < 6
    ensures Alike(p, q) ==> 0 <= LevelOfOp(p) == LevelOfOp(q) < 6
  {
  }

  /** An operator between trees that hold together at least as tightly prints without brackets. */
  lemma PrintsPlain(p: Token, l: Tree, r: Tree)
    requires WellFormed(l) && WellFormed(r) && LevelOfOp(p) >= 0
    requires Tightness(l) >= LevelOfOp(p) && Tightness(r) > LevelOfOp(p)
    ensures var e := Bin(p, l, r);
      WellFormed(e) && Tightness(e) == LevelOfOp(p) && Bare(e) == Print(e, 0) == Bare(l) + [p] + Bare(r)
  {
    hide LevelOfOp;
    assert Print(l, LevelOfOp(p)) == Bare(l) && Print(r, LevelOfOp(p) + 1) == Bare(r);
  }

  lemma PrintsRight(l: Tree, m: Tree, r: Tree, p: Token, q: Token)
    requires WellFormed(l) && WellFormed(m) && WellFormed(r) && Tightness(l) == Tightness(m) == Tightness(r) == 7
    requires Tighter(p, q)
    ensures var e := Bin(p, l, Bin(q, m, r));
      WellFormed(e) && Print(e, 0) == Bare(l) + [p] + Bare(m) + [q] + Bare(r)
  {
    hide Tighter, LevelOfOp, Bare, Print, Tightness, WellFormed;
    Levels(p, q);
    PrintsPlain(q, m, r);
    PrintsPlain(p, l, Bin(q, m, r));
    assert Bare(l) + [p] + (Bare(m) + [q] + Bare(r)) == Bare(l) + [p] + Bare(m) + [q] + Bare(r);
  }

  lemma PrintsLeft(l: Tree, m: Tree, r: Tree, p: Token, q: Token)
    requires WellFormed(l) && WellFormed(m) && WellFormed(r) && Tightness(l) == Tightness(m) == Tightness(r) == 7
    requires Tighter(p, q) || Alike(p, q)
    ensures var e := Bin(p, Bin(q, l, m), r);
      WellFormed(e) && Print(e, 0) == Bare(l) + [q] + Bare(m) + [p] + Bare(r)
  {
    hide Tighter, Alike, LevelOfOp, Bare, Print, Tightness, WellFormed;
    Levels(p, q);
    PrintsPlain(q, l, m);
    PrintsPlain(p, Bin(q, l, m), r);
  }

  /** `a p b q c` is `a p (b q c)`, and `a q b p c` is `(a q b) p c`, when `q` binds tighter. */
  lemma TighterFirst(x: seq<Token>, y: seq<Token>, z: seq<Token>, a: int, b: int, c: int, p: Token, q: Token,
      env: Symbols)
    requires Operand(x, env, a) && Operand(y, env, b) && Operand(z, env, c) && Tighter(p, q)
    ensures Parse(x + [p] + y + [q] + z + [Close], env) == Joined(p, Some(a), Joined(q, Some(b), Some(c)))
    ensures Parse(x + [q] + y + [p] + z + [Close], env) == Joined(p, Joined(q, Some(a), Some(b)), Some(c))
  {
    hide Operand, Parse, Combine, Bare, Tightness, Print;
    var l := OperandTree(x, env, a);
    var m := OperandTree(y, env, b);
    var r := OperandTree(z, env, c);
    PrintsRight(l, m, r, p, q);
    ParsePrint(Bin(p, l, Bin(q, m, r)), env);
    PrintsLeft(l, m, r, p, q);
    ParsePrint(Bin(p, Bin(q, l, m), r), env);
  }

  /** `a p b q c` is `(a p b) q c` when the two bind alike. */
  lemma LeftFirst(x: seq<Token>, y: seq<Token>, z: seq<Token>, a: int, b: int, c: int, p: Token, q: Token,
      env: Symbols)
    requires Operand(x, env, a) && Operand(y, env, b) && Operand(z, env, c) && Alike(p, q)
    ensures Parse(x + [p] + y + [q] + z + [Close], env) == Joined(q, Joined(p, Some(a), Some(b)), Some(c))
  {
    hide Operand, Parse, Combine, Bare, Tightness, Print;
    var l := OperandTree(x, env, a);
    var m := OperandTree(y, env, b);
    var r := OperandTree(z, env, c);
    PrintsLeft(l, m, r, q, p);
    ParsePrint(Bin(q, Bin(p, l, m), r), env);
  }

  /** A sign in front of an operand is taken before any operator, on either side. */
  lemma SignFirst(x: seq<Token>, y: seq<Token>, a: int, b: int, u: Token, p: Token, env: Symbols)
    requires Operand(x, env, a) && Operand(y, env, b) && (u.Plus? || u.Minus? || u.Tilde?) && Binary(p)
    ensures Parse([u] + x + [p] + y + [Close], env) == Combine(p, Negated(u, a), b)
    ensures Parse(x + [p] + [u] + y + [Close], env) == Combine(p, a, Negated(u, b))
  {
    hide Operand, Parse, Combine, Print;
    var l := OperandTree(x, env, a);
    var r := OperandTree(y, env, b);
    SignPrints(l, r, u, p);
    ParsePrint(Bin(p, Un(u, l), r), env);
    ParsePrint(Bin(p, l, Un(u, r)), env);
  }

  lemma SignPrint(u: Token, l: Tree)
    requires WellFormed(l) && Tightness(l) == 7 && IsUnary(u)
    ensures WellFormed(Un(u, l)) && Tightness(Un(u, l)) == 6 && Bare(Un(u, l)) == [u] + Bare(l)
  {
    assert Print(l, 6) == Bare(l);
  }

  lemma BinaryLevel(p: Token)
    requires Binary(p)
    ensures 0 <= LevelOfOp(p) < 6
  {
  }

  lemma SignPrints(l: Tree, r: Tree, u: Token, p: Token)
    requires WellFormed(l) && WellFormed(r) && Tightness(l) == Tightness(r) == 7 && IsUnary(u) && Binary(p)
    ensures WellFormed(Bin(p, Un(u, l), r)) && Print(Bin(p, Un(u, l), r), 0) == [u] + Bare(l) + [p] + Bare(r)
    ensures WellFormed(Bin(p, l, Un(u, r))) && Print(Bin(p, l, Un(u, r)), 0) == Bare(l) + [p] + [u] + Bare(r)
  {
    hide LevelOfOp, Binary, Bare, Print, Tightness, WellFormed;
    BinaryLevel(p);
    SignPrint(u, l);
    SignPrint(u, r);
    PrintsPlain(p, Un(u, l), r);
    PrintsPlain(p, l, Un(u, r));
    assert Bare(l) + [p] + ([u] + Bare(r)) == Bare(l) + [p] + [u] + Bare(r);
  }

  // ----------------------------------------------- the operators and each other

  /** Bit `k` of a whole number, in two's complement of any width. */
  predicate BitOf(a: int, k: nat) { a / Pow2(k) % 2 == 1 }

  /** A sum counts up from its left operand, and a difference undoes it. */
  lemma SumsAndDifferences(a: int, b: int)
    ensures Combine(Plus, a, 0) == Some(a)
    ensures Combine(Plus, a, b).Some? && Combine(Plus, a, b + 1) == Some(Combine(Plus, a, b).value + 1)
    ensures Combine(Minus, Combine(Plus, a, b).value, b) == Some(a)
    ensures Combine(Minus, a, b).Some? && Combine(Plus, Combine(Minus, a, b).value, b) == Some(a)
    ensures Combine(Plus, a, Negated(Minus, a)) == Some(0) && Negated(Plus, a) == a
  {
  }

  /** A product is a repeated sum. */
  lemma ProductsAreSums(a: int, b: int)
    ensures Combine(Star, a, 0) == Some(0) && Combine(Star, a, b).Some?
    ensures Combine(Star, a, b + 1) == Some(Combine(Star, a, b).value + a)
  {
    assert a * (b + 1) == a * b + a;
  }

  /** `//` and `%` recover the dividend, the remainder on the divisor's side of zero and smaller; both
      refuse a zero divisor, and `/` refuses everything. */
  lemma QuotientsRecover(a: int, b: int)
    ensures Combine(Slash, a, b).None?
    ensures b == 0 ==> Combine(FloorDiv, a, b).None? && Combine(Percent, a, b).None?
    ensures b != 0 ==> Combine(FloorDiv, a, b).Some? && Combine(Percent, a, b).Some?
    ensures b != 0 ==>
      var q, r := Combine(FloorDiv, a, b).value, Combine(Percent, a, b).value;
      a == b * q + r && (if b > 0 then 0 <= r < b else b < r <= 0)
  {
    if b > 0 {
      DivisionIdentity(a, b);
    } else if b < 0 {
      DivisionIdentity(0 - a, 0 - b);
      NegatedProduct(b, Floor(a, b));
    }
  }

  lemma NegatedProduct(b: int, q: int)
    ensures q * (0 - b) == -(b * q)
  {
  }

  lemma {:induction false} Pow2Sum(a: nat, b: nat)
    ensures Pow2(a + b) == Pow2(a) * Pow2(b)
  {
    if a > 0 {
      Pow2Sum(a - 1, b);
      assert 2 * (Pow2(a - 1) * Pow2(b)) == 2 * Pow2(a - 1) * Pow2(b);
    }
  }

  /** The complement has the other bits. */
  lemma ComplementBits(a: int, k: nat)
    ensures BitOf(Complement(a), k) <==> !BitOf(a, k)
  {
    var p := Pow2(k);
    var q, r := a / p, a % p;
    DivisionIdentity(a, p);
    assert (-q - 1) * p == -(q * p) - p;
    RemainderUnique(Complement(a), p, -q - 1, p - 1 - r);
  }

  /** `a & ~c`. */
  lemma {:induction false} WithoutBits(a: nat, c: nat, k: nat)
    ensures Bit(a - And(a, c), k) <==> Bit(a, k) && !Bit(c, k)
    decreases k
  {
    hide Bit;
    BitStep(a, k);
    BitStep(c, k);
    BitStep(a - And(a, c), k);
    if a == 0 || c == 0 {
      ZeroBits(k);
    } else {
      assert (a - And(a, c)) / 2 == a / 2 - And(a / 2, c / 2);
      if k > 0 {
        WithoutBits(a / 2, c / 2, k - 1);
      }
    }
  }

  lemma AndOfBits(a: int, b: int, k: nat)
    ensures BitOf(BitAnd(a, b), k) <==> BitOf(a, k) && BitOf(b, k)
  {
    hide And, Or;
    ComplementBits(a, k);
    ComplementBits(b, k);
    if a >= 0 && b >= 0 {
      AndBits(a, b, k);
    } else if a >= 0 {
      WithoutBits(a, Complement(b), k);
    } else if b >= 0 {
      WithoutBits(b, Complement(a), k);
    } else {
      OrBits(Complement(a), Complement(b), k);
      ComplementBits(Or(Complement(a), Complement(b)), k);
    }
  }

  lemma OrOfBits(a: int, b: int, k: nat)
    ensures BitOf(BitOr(a, b), k) <==> BitOf(a, k) || BitOf(b, k)
  {
    hide BitAnd, BitOf;
    ComplementBits(a, k);
    ComplementBits(b, k);
    AndOfBits(Complement(a), Complement(b), k);
    ComplementBits(BitAnd(Complement(a), Complement(b)), k);
  }

  lemma XorOfBits(a: int, b: int, k: nat)
    ensures BitOf(BitXor(a, b), k) <==> BitOf(a, k) != BitOf(b, k)
  {
    hide Xor;
    ComplementBits(a, k);
    ComplementBits(b, k);
    var x, y := if a >= 0 then a else Complement(a), if b >= 0 then b else Complement(b);
    XorBits(x, y, k);
    ComplementBits(Xor(x, y), k);
  }

  /** The bitwise operators, bit by bit, for operands of either sign; `~` has the other bits. */
  lemma BitwiseOperators(a: int, b: int, k: nat)
    ensures Combine(Amp, a, b).Some? && Combine(Pipe, a, b).Some? && Combine(Caret, a, b).Some?
    ensures BitOf(Combine(Amp, a, b).value, k) <==> BitOf(a, k) && BitOf(b, k)
    ensures BitOf(Combine(Pipe, a, b).value, k) <==> BitOf(a, k) || BitOf(b, k)
    ensures BitOf(Combine(Caret, a, b).value, k) <==> BitOf(a, k) != BitOf(b, k)
    ensures BitOf(Negated(Tilde, a), k) <==> !BitOf(a, k)
  {
    hide BitAnd, BitOr, BitXor, BitOf;
    AndOfBits(a, b, k);
    OrOfBits(a, b, k);
    XorOfBits(a, b, k);
    ComplementBits(a, k);
  }

  /** A shift moves every bit, the sign's copies included; a negative count is refused. */
  lemma ShiftOperators(a: int, b: int, k: nat)
    ensures b < 0 ==> Combine(ShiftLeft, a, b).None? && Combine(ShiftRight, a, b).None?
    ensures b >= 0 ==> Combine(ShiftLeft, a, b).Some? && Combine(ShiftRight, a, b).Some?
    ensures b >= 0 ==> (BitOf(Combine(ShiftLeft, a, b).value, k) <==> k >= b && BitOf(a, k - b))
    ensures b >= 0 ==> (BitOf(Combine(ShiftRight, a, b).value, k) <==> BitOf(a, k + b))
  {
    if b >= 0 {
      DivisionShifts(a, Pow2(b), Pow2(k));
      Pow2Sum(b, k);
      LeftShift(a, b, k);
    }
  }

  lemma LeftShift(a: int, b: nat, k: nat)
    ensures BitOf(a * Pow2(b), k) <==> k >= b && BitOf(a, k - b)
  {
    if k >= b {
      ShiftedOut(a, b, k - b);
    } else {
      ShiftedIn(a, k, b - k - 1);
    }
  }

  lemma ShiftedOut(a: int, b: nat, j: nat)
    ensures BitOf(a * Pow2(b), b + j) <==> BitOf(a, j)
  {
    var p := Pow2(b);
    Pow2Sum(b, j);
    RemainderUnique(a * p, p, a, 0);
    DivisionShifts(a * p, p, Pow2(j));
  }

  lemma ShiftedIn(a: int, k: nat, j: nat)
    ensures !BitOf(a * Pow2(k + 1 + j), k)
  {
    var p, h := Pow2(k), Pow2(j);
    Pow2Sum(k, 1 + j);
    assert Pow2(1 + j) == 2 * h;
    Regroup(a, p, h);
    RemainderUnique(a * (p * (2 * h)), p, 2 * (a * h), 0);
  }

  lemma Regroup(a: int, p: int, h: int)
    ensures a * (p * (2 * h)) == 2 * (a * h) * p
  {
    assert a * (p * (2 * h)) == a * p * (2 * h) == a * p * h * 2;
    assert a * p * h == a * h * p;
  }

  /** A whole number is its bits. */
  lemma BitsOfDetermine(a: int, b: int)
    requires forall k: nat :: BitOf(a, k) <==> BitOf(b, k)
    ensures a == b
  {
    hide BitOf, Bit;
    if a >= 0 && b >= 0 {
      forall k: nat ensures Bit(a, k) <==> Bit(b, k) {
        SameBit(a, k);
        SameBit(b, k);
      }
      BitsDetermine(a, b);
    } else if a < 0 && b < 0 {
      var c, d := Complement(a), Complement(b);
      forall k: nat ensures Bit(c, k) <==> Bit(d, k) {
        ComplementBits(a, k);
        ComplementBits(b, k);
        SameBit(c, k);
        SameBit(d, k);
      }
      BitsDetermine(c, d);
    } else {
      SignShows(if a >= 0 then a else b, if a >= 0 then b else a);
    }
  }

  lemma SameBit(a: nat, k: nat)
    ensures BitOf(a, k) <==> Bit(a, k)
  {
  }

  lemma {:induction false} Pow2Above(a: nat)
    ensures a < Pow2(a)
  {
    if a > 0 {
      Pow2Above(a - 1);
    }
  }

  /** Far enough up a natural has only zeros, a negative number only ones. */
  lemma SignShows(a: nat, b: int)
    requires b < 0
    ensures exists k: nat :: BitOf(a, k) != BitOf(b, k)
  {
    var c := Complement(b);
    var k: nat := a + c;
    Pow2Above(k);
    RemainderUnique(a, Pow2(k), 0, a);
    RemainderUnique(c, Pow2(k), 0, c);
    ComplementBits(b, k);
    assert !BitOf(a, k) && BitOf(b, k);
  }

  /** The three functions an expression may call. */
  lemma Functions(a: int)
    ensures Applied("low", a).Some? && Applied("high", a).Some? && Applied("abs", a).Some?
    ensures var l, h := Applied("low", a).value, Applied("high", a).value;
      && 0 <= l < 256 && 0 <= h < 256 && (a - (256 * h + l)) % 65536 == 0
    ensures Applied("abs", a).value >= 0 && (Applied("abs", a).value == a || Applied("abs", a).value == -a)
    ensures forall f :: f != "low" && f != "high" && f != "abs" ==> Applied(f, a).None?
  {
  }
}
