/** The loader's expression parser: six left-associative levels of binary operators over
    unary ones, evaluated as they are read. */
module Expressions {
  import opened Bits
  import opened Isa

  datatype Token =
    | Num(n: nat) | Name(s: string) | Close
    | Pipe | Caret | Amp | ShiftLeft | ShiftRight | Plus | Minus | Star | FloorDiv | Percent | Slash
    | Tilde | LParen | RParen | Comma

  /** The levels, loosest first; unary operators and primaries stand behind them. */
  const LEVELS := 6

  function LevelOfOp(k: Token): int
  {
    match k
    case Pipe => 0 case Caret => 1 case Amp => 2 case ShiftLeft | ShiftRight => 3
    case Plus | Minus => 4 case Star | FloorDiv | Percent | Slash => 5
    case Num(_) | Name(_) | Close | Tilde | LParen | RParen | Comma => -1
  }

  // -------------------------------------------------------- Python's integer operators

  /** Floor division and its remainder, for either sign of the divisor. */
  function Floor(a: int, b: int): int
    requires b != 0
  {
    if b > 0 then a / b else (0 - a) / (0 - b)
  }

  function FloorMod(a: int, b: int): int
    requires b != 0
  {
    a - b * Floor(a, b)
  }

  /** Two's complement of unbounded width: a negative number is the complement of a natural. */
  function Complement(a: int): int { -a - 1 }

  function BitAnd(a: int, b: int): int
  {
    if a >= 0 && b >= 0 then And(a, b)
    else if a >= 0 then a - And(a, Complement(b))
    else if b >= 0 then b - And(b, Complement(a))
    else Complement(Or(Complement(a), Complement(b)))
  }

  function BitOr(a: int, b: int): int { Complement(BitAnd(Complement(a), Complement(b))) }

  function BitXor(a: int, b: int): int
  {
    if a >= 0 && b >= 0 then Xor(a, b)
    else if a >= 0 then Complement(Xor(a, Complement(b)))
    else if b >= 0 then Complement(Xor(Complement(a), b))
    else Xor(Complement(a), Complement(b))
  }

  /** One binary operator; a zero divisor, a negative shift and `/` are refused. */
  function Combine(k: Token, a: int, b: int): Option<int>
  {
    match k
    case Pipe => Some(BitOr(a, b))
    case Caret => Some(BitXor(a, b))
    case Amp => Some(BitAnd(a, b))
    case ShiftLeft => if b < 0 then None else Some(a * Pow2(b))
    case ShiftRight => if b < 0 then None else Some(Floor(a, Pow2(b)))
    case Plus => Some(a + b)
    case Minus => Some(a - b)
    case Star => Some(a * b)
    case FloorDiv => if b == 0 then None else Some(Floor(a, b))
    case Percent => if b == 0 then None else Some(FloorMod(a, b))
    case _ => None
  }

  function Negated(k: Token, a: int): int
  {
    if k.Minus? then -a else if k.Tilde? then Complement(a) else a
  }

  predicate IsUnary(k: Token) { k.Plus? || k.Minus? || k.Tilde? }

  function Applied(f: string, a: int): Option<int>
  {
    if f == "low" then Some(a % 256)
    else if f == "high" then Some(a / 256 % 256)
    else if f == "abs" then Some(if a < 0 then -a else a)
    else None
  }

  // ------------------------------------------------------------------- the grammar

  /** A failure, or a value and the position behind what was read. */
  datatype Read = Fail | Got(v: int, at: nat)

  type Symbols = map<string, int>

  /** The tokens of an expression end in the end token. */
  predicate Ended(t: seq<Token>) { |t| > 0 && t[|t| - 1] == Close }

  function Level(t: seq<Token>, env: Symbols, n: nat, i: nat): (r: Read)
    requires Ended(t) && i < |t| && n <= LEVELS
    ensures r.Got? ==> i < r.at < |t|
    decreases |t| - i, 1, LEVELS - n
  {
    if n == LEVELS then Unary(t, env, i)
    else
      match Level(t, env, n + 1, i)
      case Fail => Fail
      case Got(v, j) => Tail(t, env, n, v, j)
  }

  /** What is left of a level's loop: more operators of the level, folded to the left. */
  function Tail(t: seq<Token>, env: Symbols, n: nat, v: int, i: nat): (r: Read)
    requires Ended(t) && i < |t| && n < LEVELS
    ensures r.Got? ==> i <= r.at < |t|
    decreases |t| - i, 0, 0
  {
    if LevelOfOp(t[i]) != n then Got(v, i)
    else if i + 1 >= |t| then Fail
    else
      match Level(t, env, n + 1, i + 1)
      case Fail => Fail
      case Got(u, j) =>
        match Combine(t[i], v, u)
        case None => Fail
        case Some(w) => Tail(t, env, n, w, j)
  }

  function Unary(t: seq<Token>, env: Symbols, i: nat): (r: Read)
    requires Ended(t) && i < |t|
    ensures r.Got? ==> i < r.at < |t|
    decreases |t| - i, 0, 1
  {
    if IsUnary(t[i]) then
      if i + 1 >= |t| then Fail
      else
        match Unary(t, env, i + 1)
        case Fail => Fail
        case Got(v, j) => Got(Negated(t[i], v), j)
    else Primary(t, env, i)
  }

  function Enclosed(t: seq<Token>, env: Symbols, i: nat): (r: Read)
    requires Ended(t) && 0 < i < |t|
    ensures r.Got? ==> i < r.at < |t|
    decreases |t| - i, 2, 0
  {
    match Level(t, env, 0, i)
    case Fail => Fail
    case Got(v, j) => if t[j] == RParen && j + 1 < |t| then Got(v, j + 1) else Fail
  }

  function Primary(t: seq<Token>, env: Symbols, i: nat): (r: Read)
    requires Ended(t) && i < |t|
    ensures r.Got? ==> i < r.at < |t|
    decreases |t| - i, 0, 0
  {
    if i + 1 >= |t| then Fail
    else
      match t[i]
      case Num(n) => Got(n, i + 1)
      case Name(s) =>
        if t[i + 1] == LParen then
          if i + 2 >= |t| then Fail
          else
            match Enclosed(t, env, i + 2)
            case Fail => Fail
            case Got(v, j) => (match Applied(s, v) case None => Fail case Some(w) => Got(w, j))
        else if s in env then Got(env[s], i + 1) else Fail
      case LParen => Enclosed(t, env, i + 1)
      case _ => Fail
  }

  /** The whole text: an expression, and nothing behind it. */
  function Parse(t: seq<Token>, env: Symbols): Option<int>
    requires Ended(t)
  {
    match Level(t, env, 0, 0)
    case Fail => None
    case Got(v, j) => if t[j] == Close then Some(v) else None
  }

  // ------------------------------------------------------------- more symbols known

  /** Every symbol of `small` is a symbol of `big`, with the same value. */
  predicate Extends(big: Symbols, small: Symbols)
  {
    forall n :: n in small ==> n in big && big[n] == small[n]
  }

  lemma {:induction false} LevelGrows(t: seq<Token>, a: Symbols, b: Symbols, n: nat, i: nat)
    requires Ended(t) && i < |t| && n <= LEVELS && Extends(b, a)
    ensures Level(t, a, n, i).Got? ==> Level(t, b, n, i) == Level(t, a, n, i)
    decreases |t| - i, 1, LEVELS - n
  {
    hide Combine, Applied, Extends;
    if n == LEVELS {
      UnaryGrows(t, a, b, i);
    } else {
      LevelGrows(t, a, b, n + 1, i);
      var r := Level(t, a, n + 1, i);
      if r.Got? {
        TailGrows(t, a, b, n, r.v, r.at);
      }
    }
  }

  lemma {:induction false} TailGrows(t: seq<Token>, a: Symbols, b: Symbols, n: nat, v: int, i: nat)
    requires Ended(t) && i < |t| && n < LEVELS && Extends(b, a)
    ensures Tail(t, a, n, v, i).Got? ==> Tail(t, b, n, v, i) == Tail(t, a, n, v, i)
    decreases |t| - i, 0, 0
  {
    hide Combine, Applied, Extends;
    if LevelOfOp(t[i]) == n && i + 1 < |t| {
      LevelGrows(t, a, b, n + 1, i + 1);
      var r := Level(t, a, n + 1, i + 1);
      if r.Got? && Combine(t[i], v, r.v).Some? {
        TailGrows(t, a, b, n, Combine(t[i], v, r.v).value, r.at);
      }
    }
  }

  lemma {:induction false} UnaryGrows(t: seq<Token>, a: Symbols, b: Symbols, i: nat)
    requires Ended(t) && i < |t| && Extends(b, a)
    ensures Unary(t, a, i).Got? ==> Unary(t, b, i) == Unary(t, a, i)
    decreases |t| - i, 0, 1
  {
    hide Combine, Applied, Extends;
    if !IsUnary(t[i]) {
      PrimaryGrows(t, a, b, i);
    } else if i + 1 < |t| {
      UnaryGrows(t, a, b, i + 1);
    }
  }

  lemma {:induction false} PrimaryGrows(t: seq<Token>, a: Symbols, b: Symbols, i: nat)
    requires Ended(t) && i < |t| && Extends(b, a)
    ensures Primary(t, a, i).Got? ==> Primary(t, b, i) == Primary(t, a, i)
    decreases |t| - i, 0, 0
  {
    hide Combine, Applied;
    if i + 2 < |t| {
      LevelGrows(t, a, b, 0, i + 2);
    }
    if i + 1 < |t| {
      LevelGrows(t, a, b, 0, i + 1);
    }
  }

  /** What an expression is worth does not change when more symbols become known. */
  lemma ParseGrows(t: seq<Token>, a: Symbols, b: Symbols)
    requires Ended(t) && Extends(b, a)
    ensures Parse(t, a).Some? ==> Parse(t, b) == Parse(t, a)
  {
    hide Level;
    LevelGrows(t, a, b, 0, 0);
  }

  // -------------------------------------------------------- trees and their print

  datatype Tree =
    | Lit(n: nat) | Sym(s: string) | Un(op: Token, arg: Tree) | Call(f: string, arg: Tree)
    | Paren(arg: Tree) | Bin(op: Token, left: Tree, right: Tree)

  predicate WellFormed(e: Tree)
  {
    match e
    case Lit(_) | Sym(_) => true
    case Un(op, a) => IsUnary(op) && WellFormed(a)
    case Call(_, a) => WellFormed(a)
    case Paren(a) => WellFormed(a)
    case Bin(op, l, r) => LevelOfOp(op) >= 0 && WellFormed(l) && WellFormed(r)
  }

  function Value(e: Tree, env: Symbols): Option<int>
  {
    match e
    case Lit(n) => Some(n)
    case Sym(s) => if s in env then Some(env[s]) else None
    case Un(op, a) => (match Value(a, env) case None => None case Some(v) => Some(Negated(op, v)))
    case Call(f, a) => (match Value(a, env) case None => None case Some(v) => Applied(f, v))
    case Paren(a) => Value(a, env)
    case Bin(op, l, r) =>
      match Value(l, env)
      case None => None
      case Some(v) => (match Value(r, env) case None => None case Some(u) => Combine(op, v, u))
  }

  /** How tightly a tree holds together: its operator's level, 6 for a unary operator, 7 for
      a primary. */
  function Tightness(e: Tree): int
    requires WellFormed(e)
  {
    match e
    case Lit(_) | Sym(_) | Call(_, _) | Paren(_) => 7
    case Un(_, _) => 6
    case Bin(op, _, _) => LevelOfOp(op)
  }

  /** The print with parentheses where the tree has them, and where the context binds tighter
      than the tree. */
  function Print(e: Tree, n: int): seq<Token>
    requires WellFormed(e)
    decreases e, 1
  {
    if Tightness(e) < n then [LParen] + Bare(e) + [RParen] else Bare(e)
  }

  function Bare(e: Tree): seq<Token>
    requires WellFormed(e)
    decreases e, 0
  {
    match e
    case Lit(n) => [Num(n)]
    case Sym(s) => [Name(s)]
    case Un(op, a) => [op] + Print(a, 6)
    case Call(f, a) => [Name(f), LParen] + Print(a, 0) + [RParen]
    case Paren(a) => [LParen] + Print(a, 0) + [RParen]
    case Bin(op, l, r) => Print(l, LevelOfOp(op)) + [op] + Print(r, LevelOfOp(op) + 1)
  }

  /** `p` stands in `t` at `i`, with something behind it. */
  predicate Stands(t: seq<Token>, i: nat, p: seq<Token>)
  {
    i + |p| < |t| && t[i..i + |p|] == p
  }

  /** What may follow a print at level `n`: no operator that binds tighter than `n`, and no
      parenthesis that would make a name a call. */
  predicate Stops(k: Token, n: int) { LevelOfOp(k) <= n && k != LParen }

  /** The reading of a print at level `n`: its value, behind it; the loop of level `n` itself may
      go on. */
  predicate ReadsAs(r: Read, t: seq<Token>, env: Symbols, n: nat, e: Tree, j: nat)
    requires Ended(t) && j < |t| && n <= LEVELS
  {
    r == match Value(e, env)
         case None => Fail
         case Some(v) => if n == LEVELS then Got(v, j) else Tail(t, env, n, v, j)
  }

  lemma StandsParts(t: seq<Token>, i: nat, p: seq<Token>, q: seq<Token>)
    requires Stands(t, i, p + q)
    ensures Stands(t, i + |p|, q) && t[i..i + |p|] == p && i + |p| + |q| < |t|
    ensures |q| > 0 ==> Stands(t, i, p) && t[i + |p|] == q[0]
    ensures |p| > 0 ==> t[i] == p[0]
  {
    var s := t[i..i + |p| + |q|];
    assert s == p + q;
    assert s[..|p|] == p && s[|p|..] == q;
    assert t[i..i + |p|] == s[..|p|];
    assert t[i + |p|..i + |p| + |q|] == s[|p|..];
  }

  lemma PrintNotEmpty(e: Tree, n: int)
    requires WellFormed(e)
    ensures |Print(e, n)| > 0 && |Bare(e)| > 0
  {
  }

  // ------------------------------------------------ reading back what was printed

  /** A name and a parenthesis stand where a call does. */
  lemma CallHead(t: seq<Token>, i: nat, f: string, rest: seq<Token>)
    requires Stands(t, i, [Name(f), LParen] + (rest + [RParen]))
    ensures i + 3 + |rest| < |t| && t[i] == Name(f) && t[i + 1] == LParen
  {
    StandsParts(t, i, [Name(f), LParen], rest + [RParen]);
    assert t[i] == t[i..i + 2][0] && t[i + 1] == t[i..i + 2][1];
  }

  lemma ReadsCall(t: seq<Token>, env: Symbols, f: string, arg: Tree, i: nat, j: nat)
    requires Ended(t) && i + 2 < j && j + 1 < |t|
    requires t[i] == Name(f) && t[i + 1] == LParen && t[j] == RParen
    requires ReadsAs(Level(t, env, 0, i + 2), t, env, 0, arg, j)
    ensures ReadsAs(Level(t, env, LEVELS, i), t, env, LEVELS, Tree.Call(f, arg), j + 1)
  {
    hide Applied, Combine;
    assert Unary(t, env, i) == Primary(t, env, i);
    assert LevelOfOp(t[j]) != 0;
    match Value(arg, env)
    case None => assert Enclosed(t, env, i + 2) == Fail;
    case Some(v) => assert Enclosed(t, env, i + 2) == Got(v, j + 1);
  }

  /** A primary reads back. */
  lemma ReadsPrimary(t: seq<Token>, env: Symbols, e: Tree, i: nat)
    requires Ended(t) && WellFormed(e) && Tightness(e) == 7 && !e.Paren? && Stands(t, i, Bare(e))
    requires Stops(t[i + |Bare(e)|], LEVELS)
    requires e.Call? ==> Stands(t, i + 2, Print(e.arg, 0)) && t[i + 2 + |Print(e.arg, 0)|] == RParen
                         && ReadsAs(Level(t, env, 0, i + 2), t, env, 0, e.arg, i + 2 + |Print(e.arg, 0)|)
    ensures ReadsAs(Level(t, env, LEVELS, i), t, env, LEVELS, e, i + |Bare(e)|)
  {
    hide Applied, Combine;
    if e.Call? {
      hide ReadsAs, Print, Stands, Level;
      var p := Print(e.arg, 0);
      assert Bare(e) == [Name(e.f), LParen] + (p + [RParen]);
      CallHead(t, i, e.f, p);
      PrintNotEmpty(e.arg, 0);
      ReadsCall(t, env, e.f, e.arg, i, i + 2 + |p|);
    } else {
      assert t[i..i + 1][0] == t[i];
      assert Unary(t, env, i) == Primary(t, env, i);
    }
  }

  /** A parenthesised print reads back as what it encloses. */
  lemma ReadsEnclosed(t: seq<Token>, env: Symbols, e: Tree, i: nat)
    requires Ended(t) && WellFormed(e) && Stands(t, i, [LParen] + Bare(e) + [RParen])
    requires Stands(t, i + 1, Bare(e)) && t[i + 1 + |Bare(e)|] == RParen && t[i] == LParen
    requires ReadsAs(Level(t, env, 0, i + 1), t, env, 0, e, i + 1 + |Bare(e)|)
    ensures ReadsAs(Level(t, env, LEVELS, i), t, env, LEVELS, e, i + |Bare(e)| + 2)
  {
    hide Combine, Applied;
    var j := i + 1 + |Bare(e)|;
    assert LevelOfOp(t[j]) != 0;
    assert Unary(t, env, i) == Primary(t, env, i) == Enclosed(t, env, i + 1);
  }

  lemma ReadsUnary(t: seq<Token>, env: Symbols, e: Tree, i: nat)
    requires Ended(t) && WellFormed(e) && e.Un? && i + 1 < |t| && t[i] == e.op
    requires i + 1 + |Print(e.arg, 6)| < |t|
    requires ReadsAs(Level(t, env, LEVELS, i + 1), t, env, LEVELS, e.arg, i + 1 + |Print(e.arg, 6)|)
    ensures ReadsAs(Level(t, env, LEVELS, i), t, env, LEVELS, e, i + 1 + |Print(e.arg, 6)|)
  {
    hide Combine, Applied;
  }

  /** A level passes on what the tighter level reads, when no operator of its own precedes. */
  lemma ReadsThrough(t: seq<Token>, env: Symbols, n: nat, e: Tree, i: nat, j: nat)
    requires Ended(t) && n < LEVELS && i < |t| && j < |t| && LevelOfOp(t[j]) <= n
    requires ReadsAs(Level(t, env, n + 1, i), t, env, n + 1, e, j)
    ensures ReadsAs(Level(t, env, n, i), t, env, n, e, j)
  {
    hide Combine, Applied, Unary;
  }

  /** One operator of the level, folded into what stands on its left. */
  lemma ReadsBinary(t: seq<Token>, env: Symbols, e: Tree, i: nat, j: nat, k: nat)
    requires Ended(t) && WellFormed(e) && e.Bin? && i < |t| && j + 1 < |t| && k < |t|
    requires t[j] == e.op && LevelOfOp(t[k]) <= LevelOfOp(e.op)
    requires var n := LevelOfOp(e.op);
      && ReadsAs(Level(t, env, n, i), t, env, n, e.left, j)
      && ReadsAs(Level(t, env, n + 1, j + 1), t, env, n + 1, e.right, k)
    ensures ReadsAs(Level(t, env, LevelOfOp(e.op), i), t, env, LevelOfOp(e.op), e, k)
  {
    hide Combine, Applied, Unary;
  }

  // Where the parts of a print stand.

  lemma BinaryPrint(e: Tree)
    requires WellFormed(e) && e.Bin?
    ensures var n := LevelOfOp(e.op);
      Print(e, n) == Print(e.left, n) + ([e.op] + Print(e.right, n + 1)) && |Print(e.left, n)| > 0
  {
    PrintNotEmpty(e.left, LevelOfOp(e.op));
  }

  lemma BinaryParts(t: seq<Token>, i: nat, e: Tree)
    requires WellFormed(e) && e.Bin? && Stands(t, i, Print(e, LevelOfOp(e.op)))
    ensures var n := LevelOfOp(e.op);
      var l, r := Print(e.left, n), Print(e.right, n + 1);
      && |Print(e, n)| == |l| + 1 + |r| && |l| > 0
      && Stands(t, i, l) && t[i + |l|] == e.op && Stands(t, i + |l| + 1, r)
  {
    hide Print, Stands;
    PartsWellFormed(e);
    BinaryPrint(e);
    var n := LevelOfOp(e.op);
    var l, r := Print(e.left, n), Print(e.right, n + 1);
    StandsParts(t, i, l, [e.op] + r);
    StandsParts(t, i + |l|, [e.op], r);
  }

  lemma EnclosedParts(t: seq<Token>, i: nat, e: Tree, n: nat)
    requires WellFormed(e) && Tightness(e) < n && Stands(t, i, Print(e, n))
    ensures |Print(e, n)| == |Bare(e)| + 2 && Bare(e) == Print(e, 0)
    ensures Stands(t, i, [LParen] + Bare(e) + [RParen]) && t[i] == LParen
    ensures Stands(t, i + 1, Bare(e)) && t[i + 1 + |Bare(e)|] == RParen
  {
    assert Print(e, n) == [LParen] + (Bare(e) + [RParen]);
    StandsParts(t, i, [LParen], Bare(e) + [RParen]);
    StandsParts(t, i + 1, Bare(e), [RParen]);
  }

  lemma UnaryParts(t: seq<Token>, i: nat, e: Tree)
    requires WellFormed(e) && e.Un? && Stands(t, i, Bare(e))
    ensures |Bare(e)| == 1 + |Print(e.arg, 6)| && t[i] == e.op && Stands(t, i + 1, Print(e.arg, 6))
  {
    StandsParts(t, i, [e.op], Print(e.arg, 6));
  }

  lemma ParenParts(t: seq<Token>, i: nat, e: Tree)
    requires WellFormed(e) && e.Paren? && Stands(t, i, Bare(e))
    ensures Print(e.arg, 0) == Bare(e.arg) && |Bare(e)| == |Bare(e.arg)| + 2
    ensures Stands(t, i, [LParen] + Bare(e.arg) + [RParen]) && t[i] == LParen
    ensures Stands(t, i + 1, Bare(e.arg)) && t[i + 1 + |Bare(e.arg)|] == RParen
  {
    var a := Bare(e.arg);
    TightPrimary(e.arg);
    assert Bare(e) == [LParen] + (a + [RParen]) == [LParen] + a + [RParen];
    StandsParts(t, i, [LParen], a + [RParen]);
    StandsParts(t, i + 1, a, [RParen]);
  }

  /** Parentheses of the tree's own read back as what they enclose. */
  lemma ReadsParen(t: seq<Token>, env: Symbols, e: Tree, i: nat)
    requires Ended(t) && WellFormed(e) && e.Paren? && Stands(t, i, Bare(e)) && Stands(t, i + 1, Bare(e.arg))
    requires ReadsAs(Level(t, env, 0, i + 1), t, env, 0, e.arg, i + 1 + |Bare(e.arg)|)
    ensures |Bare(e)| == |Bare(e.arg)| + 2
    ensures ReadsAs(Level(t, env, LEVELS, i), t, env, LEVELS, e, i + |Bare(e)|)
  {
    hide Level, Print, Bare, Stands;
    ParenParts(t, i, e);
    ReadsEnclosed(t, env, e.arg, i);
  }

  lemma CallParts(t: seq<Token>, i: nat, e: Tree)
    requires WellFormed(e) && e.Call? && Stands(t, i, Bare(e))
    ensures var a := Print(e.arg, 0);
      |Bare(e)| == |a| + 3 && Stands(t, i + 2, a) && t[i + 2 + |a|] == RParen
  {
    var a := Print(e.arg, 0);
    assert Bare(e) == [Name(e.f), LParen] + (a + [RParen]);
    StandsParts(t, i, [Name(e.f), LParen], a + [RParen]);
    StandsParts(t, i + 2, a, [RParen]);
    PrintNotEmpty(e.arg, 0);
  }

  lemma PrintAtTighter(e: Tree, n: int)
    requires WellFormed(e)
    ensures Tightness(e) != n ==> Print(e, n) == Print(e, n + 1)
    ensures Tightness(e) >= n ==> Print(e, n) == Bare(e)
    ensures Tightness(e) == n < 6 ==> e.Bin? && LevelOfOp(e.op) == n
    ensures Tightness(e) >= 6 ==> !e.Bin? && (Tightness(e) == 6 <==> e.Un?)
  {
  }

  /** The print of any tree, at any level, reads back as its value: precedence and left
      associativity lose nothing, whatever stands behind. */
  lemma {:induction false} ReadsPrint(t: seq<Token>, env: Symbols, n: nat, e: Tree, i: nat)
    requires Ended(t) && WellFormed(e) && n <= LEVELS && Stands(t, i, Print(e, n))
    requires Stops(t[i + |Print(e, n)|], n)
    ensures i < |t| && ReadsAs(Level(t, env, n, i), t, env, n, e, i + |Print(e, n)|)
    decreases e, if Tightness(e) < n then 1 else 0, LEVELS - n
  {
    hide Level, Tail, ReadsAs, Combine, Applied, Print, Bare, Tightness, Value, Stands, WellFormed;
    TightPrimary(e);
    PrintAtTighter(e, n);
    PartsWellFormed(e);
    StandsInside(t, i, Print(e, n));
    assert i + |Print(e, n)| < |t|;
    if n < LEVELS && Tightness(e) == n {
      BinaryParts(t, i, e);
      var j, k := i + |Print(e.left, n)|, i + |Print(e, n)|;
      ReadsPrint(t, env, n, e.left, i);
      ReadsPrint(t, env, n + 1, e.right, j + 1);
      ReadsBinary(t, env, e, i, j, k);
    } else if n < LEVELS {
      ReadsPrint(t, env, n + 1, e, i);
      ReadsThrough(t, env, n, e, i, i + |Print(e, n)|);
    } else if Tightness(e) < n {
      EnclosedParts(t, i, e, n);
      ReadsPrint(t, env, 0, e, i + 1);
      ReadsEnclosed(t, env, e, i);
    } else if e.Un? {
      UnaryParts(t, i, e);
      ReadsPrint(t, env, LEVELS, e.arg, i + 1);
      ReadsUnary(t, env, e, i);
    } else if e.Paren? {
      ParenParts(t, i, e);
      ReadsPrint(t, env, 0, e.arg, i + 1);
      ReadsParen(t, env, e, i);
    } else {
      if e.Call? {
        CallParts(t, i, e);
        ReadsPrint(t, env, 0, e.arg, i + 2);
      }
      ReadsPrimary(t, env, e, i);
    }
  }

  lemma PartsWellFormed(e: Tree)
    requires WellFormed(e)
    ensures e.Un? || e.Call? || e.Paren? ==> WellFormed(e.arg)
    ensures e.Bin? ==> WellFormed(e.left) && WellFormed(e.right)
  {
  }

  lemma StandsInside(t: seq<Token>, i: nat, p: seq<Token>)
    requires Stands(t, i, p)
    ensures i + |p| < |t|
  {
  }

  lemma TightPrimary(e: Tree)
    requires WellFormed(e)
    ensures !e.Bin? && !e.Un? <==> Tightness(e) == 7
    ensures Tightness(e) >= 0
  {
  }

  /** Parsing the minimally parenthesised print of any expression yields the expression's
      value, consuming every token, and fails exactly when the expression has none. */
  lemma ParsePrint(e: Tree, env: Symbols)
    requires WellFormed(e)
    ensures Parse(Print(e, 0) + [Close], env) == Value(e, env)
  {
    var p := Print(e, 0);
    var t := p + [Close];
    assert t[0..0 + |p|] == p && t[|p|] == Close;
    ReadsPrint(t, env, 0, e, 0);
    hide Level, Print, Value;
  }

  // ----------------------------------------- whatever is accepted is some tree's print

  /** `e` spells the tokens from `i` to `j`, without parentheses of its own, at level `n`. */
  ghost predicate Spells(e: Tree, t: seq<Token>, env: Symbols, n: nat, i: nat, r: Read)
  {
    && r.Got? && i < r.at < |t| && WellFormed(e) && Tightness(e) >= n
    && Bare(e) == t[i..r.at] && Value(e, env) == Some(r.v)
  }

  lemma {:induction false} LevelSpells(t: seq<Token>, env: Symbols, n: nat, i: nat) returns (e: Tree)
    requires Ended(t) && i < |t| && n <= LEVELS && Level(t, env, n, i).Got?
    ensures Spells(e, t, env, n, i, Level(t, env, n, i))
    decreases |t| - i, 1, LEVELS - n
  {
    hide Combine, Applied, Spells;
    if n == LEVELS {
      e := UnarySpells(t, env, i);
    } else {
      e := LevelSpells(t, env, n + 1, i);
      SpellsLooser(e, t, env, n, i, Level(t, env, n + 1, i));
      e := TailSpells(t, env, n, i, Level(t, env, n + 1, i), e);
    }
  }

  lemma SpellsLooser(e: Tree, t: seq<Token>, env: Symbols, n: nat, i: nat, r: Read)
    requires Spells(e, t, env, n + 1, i, r)
    ensures Spells(e, t, env, n, i, r) && i < r.at < |t|
  {
  }

  /** What was read so far spells `left`; the level's loop goes on from there. */
  lemma {:induction false} TailSpells(t: seq<Token>, env: Symbols, n: nat, i: nat, so: Read, left: Tree)
    returns (e: Tree)
    requires Ended(t) && n < LEVELS && so.Got? && i < so.at < |t| && Spells(left, t, env, n, i, so)
    requires Tail(t, env, n, so.v, so.at).Got?
    ensures Spells(e, t, env, n, i, Tail(t, env, n, so.v, so.at))
    decreases |t| - so.at, 0, 0
  {
    hide Combine, Applied, Spells;
    var k := so.at;
    if LevelOfOp(t[k]) != n {
      e := left;
    } else {
      var right := LevelSpells(t, env, n + 1, k + 1);
      var r := Level(t, env, n + 1, k + 1);
      var now := Got(Combine(t[k], so.v, r.v).value, r.at);
      BinarySpells(t, env, n, i, so, left, r, right);
      e := TailSpells(t, env, n, i, now, Bin(t[k], left, right));
    }
  }

  lemma BinarySpells(t: seq<Token>, env: Symbols, n: nat, i: nat, so: Read, left: Tree, r: Read, right: Tree)
    requires n < LEVELS && Spells(left, t, env, n, i, so) && so.at + 1 < |t| && LevelOfOp(t[so.at]) == n
    requires Spells(right, t, env, n + 1, so.at + 1, r) && Combine(t[so.at], so.v, r.v).Some?
    ensures Spells(Bin(t[so.at], left, right), t, env, n, i,
                   Got(Combine(t[so.at], so.v, r.v).value, r.at))
  {
    hide Combine, Applied;
    var k := so.at;
    assert t[i..r.at] == t[i..k] + [t[k]] + t[k + 1..r.at];
    assert Bare(Bin(t[k], left, right)) == Bare(left) + [t[k]] + Bare(right);
  }

  lemma UnSpells(t: seq<Token>, env: Symbols, i: nat, r: Read, arg: Tree)
    requires i < |t| && IsUnary(t[i]) && Spells(arg, t, env, LEVELS, i + 1, r)
    ensures Spells(Un(t[i], arg), t, env, LEVELS, i, Got(Negated(t[i], r.v), r.at))
  {
    assert t[i..r.at] == [t[i]] + t[i + 1..r.at];
    assert Bare(Un(t[i], arg)) == [t[i]] + Bare(arg);
  }

  lemma CallSpells(t: seq<Token>, env: Symbols, i: nat, r: Read, arg: Tree)
    requires i + 2 < |t| && t[i].Name? && t[i + 1] == LParen && Spells(arg, t, env, 0, i + 2, r)
    requires t[r.at] == RParen && r.at + 1 < |t| && Applied(t[i].s, r.v).Some?
    ensures Spells(Tree.Call(t[i].s, arg), t, env, LEVELS, i, Got(Applied(t[i].s, r.v).value, r.at + 1))
  {
    hide Applied;
    var j := r.at;
    assert t[i..j + 1] == [t[i], LParen] + t[i + 2..j] + [RParen];
    assert Bare(Tree.Call(t[i].s, arg)) == [t[i], LParen] + Bare(arg) + [RParen];
  }

  lemma ParenSpells(t: seq<Token>, env: Symbols, i: nat, r: Read, arg: Tree)
    requires i + 1 < |t| && t[i] == LParen && Spells(arg, t, env, 0, i + 1, r)
    requires t[r.at] == RParen && r.at + 1 < |t|
    ensures Spells(Paren(arg), t, env, LEVELS, i, Got(r.v, r.at + 1))
  {
    var j := r.at;
    assert t[i..j + 1] == [LParen] + t[i + 1..j] + [RParen];
    assert Bare(Paren(arg)) == [LParen] + Bare(arg) + [RParen];
  }

  lemma WordSpells(t: seq<Token>, env: Symbols, i: nat)
    requires i + 1 < |t|
    ensures t[i].Num? ==> Spells(Lit(t[i].n), t, env, LEVELS, i, Got(t[i].n, i + 1))
    ensures t[i].Name? && t[i].s in env ==> Spells(Sym(t[i].s), t, env, LEVELS, i, Got(env[t[i].s], i + 1))
  {
    assert t[i..i + 1] == [t[i]];
  }

  lemma {:induction false} UnarySpells(t: seq<Token>, env: Symbols, i: nat) returns (e: Tree)
    requires Ended(t) && i < |t| && Unary(t, env, i).Got?
    ensures Spells(e, t, env, LEVELS, i, Unary(t, env, i))
    decreases |t| - i, 0, 1
  {
    hide Combine, Applied, Spells;
    if IsUnary(t[i]) {
      var arg := UnarySpells(t, env, i + 1);
      e := Un(t[i], arg);
      UnSpells(t, env, i, Unary(t, env, i + 1), arg);
    } else {
      e := PrimarySpells(t, env, i);
    }
  }

  lemma {:induction false} PrimarySpells(t: seq<Token>, env: Symbols, i: nat) returns (e: Tree)
    requires Ended(t) && i < |t| && Primary(t, env, i).Got?
    ensures Spells(e, t, env, LEVELS, i, Primary(t, env, i))
    decreases |t| - i, 0, 0
  {
    hide Combine, Applied, Spells;
    WordSpells(t, env, i);
    match t[i]
    case Num(n) =>
      e := Lit(n);
    case Name(s) =>
      if t[i + 1] == LParen {
        var arg := LevelSpells(t, env, 0, i + 2);
        CallSpells(t, env, i, Level(t, env, 0, i + 2), arg);
        e := Tree.Call(s, arg);
      } else {
        e := Sym(s);
      }
    case LParen =>
      var arg := LevelSpells(t, env, 0, i + 1);
      ParenSpells(t, env, i, Level(t, env, 0, i + 1), arg);
      e := Paren(arg);
  }

  /** Token strings as the lexer leaves them: the end token stands at the end only. */
  predicate Lexed(t: seq<Token>)
  {
    Ended(t) && forall k :: 0 <= k < |t| - 1 ==> t[k] != Close
  }

  /** The accepted token strings are exactly the prints of the trees that have a value, redundant
      parentheses included, and each is accepted as its tree's value. */
  lemma AcceptedIsPrint(t: seq<Token>, env: Symbols, v: int)
    requires Lexed(t)
    ensures Parse(t, env) == Some(v) <==>
      exists e :: WellFormed(e) && Print(e, 0) + [Close] == t && Value(e, env) == Some(v)
  {
    hide Print, Value, Level, WellFormed, Bare;
    if Parse(t, env) == Some(v) {
      var e := LevelSpells(t, env, 0, 0);
      SpellsWhole(e, t, env, Level(t, env, 0, 0));
    }
    forall e | WellFormed(e) && Print(e, 0) + [Close] == t && Value(e, env) == Some(v)
      ensures Parse(t, env) == Some(v)
    {
      ParsePrint(e, env);
    }
  }

  lemma SpellsWhole(e: Tree, t: seq<Token>, env: Symbols, r: Read)
    requires Lexed(t) && Spells(e, t, env, 0, 0, r) && t[r.at] == Close
    ensures WellFormed(e) && Print(e, 0) + [Close] == t && Value(e, env) == Some(r.v)
  {
    assert t == t[..|t| - 1] + [Close];
  }

  // ---------------------------------------------------------- the parser as it runs

  /** The cursor advances over the tokens; the six precedence methods are one loop over the
      operators of their level. */
  class ExprParser {
    const toks: seq<Token>
    const env: Symbols
    var i: nat

    constructor (toks: seq<Token>, env: Symbols)
      requires Ended(toks)
      ensures this.toks == toks && this.env == env && i == 0
    {
      this.toks, this.env, i := toks, env, 0;
    }

    /** The method's answer and the cursor are the grammar's reading. */
    ghost predicate Answers(r: Option<int>, to: Read)
      reads `i
    {
      match to
      case Fail => r == None
      case Got(v, j) => r == Some(v) && i == j
    }

    method Binary(n: nat) returns (r: Option<int>)
      requires Ended(toks) && i < |toks| && n < LEVELS
      modifies `i
      ensures old(i) <= i < |toks| && Answers(r, Level(toks, env, n, old(i)))
      decreases |toks| - i, 1, LEVELS - n, 0
    {
      ghost var start := i;
      r := Operand(n + 1);
      while r.Some? && LevelOfOp(toks[i]) == n
        invariant start <= i < |toks| && (r.Some? ==> start < i)
        invariant match r
          case None => Level(toks, env, n, start) == Fail
          case Some(v) => Level(toks, env, n, start) == Tail(toks, env, n, v, i)
        decreases |toks| - i, r.Some?
      {
        var k, v := toks[i], r.value;
        if i + 1 >= |toks| {
          return None;
        }
        i := i + 1;
        r := Operand(n + 1);
        if r.Some? {
          r := Combine(k, v, r.value);
        }
      }
    }

    method Operand(n: nat) returns (r: Option<int>)
      requires Ended(toks) && i < |toks| && n <= LEVELS
      modifies `i
      ensures old(i) <= i < |toks| && Answers(r, Level(toks, env, n, old(i)))
      decreases |toks| - i, 1, LEVELS - n, 1
    {
      if n == LEVELS {
        r := Prefix();
      } else {
        r := Binary(n);
      }
    }

    method Prefix() returns (r: Option<int>)
      requires Ended(toks) && i < |toks|
      modifies `i
      ensures old(i) <= i < |toks| && Answers(r, Unary(toks, env, old(i)))
      decreases |toks| - i, 0, 1
    {
      var k := toks[i];
      if IsUnary(k) {
        if i + 1 >= |toks| {
          return None;
        }
        i := i + 1;
        r := Prefix();
        if r.Some? {
          r := Some(Negated(k, r.value));
        }
      } else {
        r := Atom();
      }
    }

    method Parenthesised() returns (r: Option<int>)
      requires Ended(toks) && 0 < i < |toks|
      modifies `i
      ensures old(i) <= i < |toks| && Answers(r, Enclosed(toks, env, old(i)))
      decreases |toks| - i, 2, 0
    {
      r := Binary(0);
      if r.Some? {
        if toks[i] == RParen && i + 1 < |toks| {
          i := i + 1;
        } else {
          r := None;
        }
      }
    }

    method Atom() returns (r: Option<int>)
      requires Ended(toks) && i < |toks|
      modifies `i
      ensures old(i) <= i < |toks| && Answers(r, Primary(toks, env, old(i)))
      decreases |toks| - i, 0, 0
    {
      if i + 1 >= |toks| {
        return None;
      }
      var k := toks[i];
      if k.Num? {
        i := i + 1;
        return Some(k.n);
      } else if k.Name? && toks[i + 1] == LParen {
        if i + 2 >= |toks| {
          return None;
        }
        i := i + 2;
        r := Parenthesised();
        if r.Some? {
          r := Applied(k.s, r.value);
        }
      } else if k.Name? {
        i := i + 1;
        return if k.s in env then Some(env[k.s]) else None;
      } else if k.LParen? {
        i := i + 1;
        r := Parenthesised();
      } else {
        return None;
      }
    }

    /** The value of the whole text, or a refusal. */
    method Run() returns (r: Option<int>)
      requires Ended(toks) && i == 0
      modifies `i
      ensures r == Parse(toks, env)
    {
      r := Binary(0);
      if r.Some? && toks[i] != Close {
        r := None;
      }
    }
  }
}
