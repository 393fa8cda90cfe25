/** The operand shapes every mnemonic accepts: a spelling matches one shape at most, and both
    front ends choose the same one. */
module Forms {
  import opened Isa

  /** The operand kinds. */
  datatype Kind =
    | KReg | KHl | KDe | KSp | KMb | KAtHl | KAtDe | KA16 | KI16 | KI8 | KRcanon | KSoff | KTrap | KFrame

  /** One operand as it is written: a register, a pointer, a memory operand, `[HL+d]` with its
      sign, the text behind it and what that text is worth as a literal; a literal with its text;
      a name, with its worth should it read as a literal once its underscores are gone (`_10`);
      or any other text. */
  datatype Arg =
    | Register(k: reg) | Hl | De | Sp | Mb | AtHl | AtDe
    | Displaced(negative: bool, text: string, d: Option<int>)
    | Number(text: string, v: int) | Symbol(name: string, hidden: Option<int>) | Text | Empty

  datatype Shape = Bare | One(a: Kind) | Two(a: Kind, b: Kind)

  /** The mnemonics: those of one form, each named by the selector it encodes, and those of several;
      `Only(Bad)` stands for a name that is none. */
  datatype Mnemonic =
    | Only(x: Sel) | INC | CALL | LDI | ADDI | ADD | SUB | MOV | MOVW | PUSHW | POPW | STW | LDW | LDMW | STMW

  /** The selectors that share their mnemonic with another. */
  predicate Shared(x: Sel)
  {
    x.IncHl? || x.IncDe? || x.Call? || x.CallHl? || x.LdiHl? || x.LdiDe? || x.Ldi? || x.AddiHl? || x.AddiDe? ||
    x.Addi? || x.Add? || x.AddHlDe? || x.AddSp? || x.Sub? || x.SubHlDe? || x.Mov? || x.MovRHl? || x.MovHlR? ||
    x.MovRDe? || x.MovDeR? || x.MovMbHl? || x.MovHlMb? || x.MovwHlDe? || x.MovwDeHl? || x.MovwHlSp? || x.MovwDeSp? ||
    x.MovwSpHl? || x.MovwSpDe? || x.PushwHl? || x.PushwDe? || x.PopwHl? || x.PopwDe? || x.StwHlDe? || x.StwDeHl? ||
    x.LdwDeHl? || x.LdwHlDe? || x.LdmwDeHl? || x.LdmwHlDe? || x.StmwHlDe? || x.StmwDeHl?
  }

  /** How many forms a mnemonic has. */
  function Count(n: Mnemonic): nat
  {
    match n
    case Only(x) => if x.Bad? || Shared(x) then 0 else 1
    case MOV => 7
    case MOVW => 6
    case LDI | ADDI | ADD => 3
    case _ => 2
  }

  /** The form of a selector that has its mnemonic to itself. */
  function OnlyFormOf(x: Sel): Shape
  {
    match x
    case DecHl => One(KHl)
    case Jmp | Jz | Jnz | Jc | Jnc => One(KA16)
    case Js | Jns | Vs | Vc => One(KSoff)
    case GetPc | GetSp | GetF | Shl | Shr | Tst | Push | Pop | Out | In | Not | Neg | Rol | Ror => One(KReg)
    case And8 | Or8 | Xor8 | Mul | Adc | Sbb | Div | Mod | Cmp | Mulh => Two(KReg, KReg)
    case Djnz => Two(KReg, KA16)
    case Subi | Adci => Two(KReg, KI8)
    case Ldx => Two(KReg, KFrame)
    case Stx => Two(KFrame, KReg)
    case Xchg => Two(KHl, KDe)
    case Ext => One(KTrap)
    case Stc | Stm => Two(KAtHl, KReg)
    case Ldc | Ldm => Two(KReg, KAtHl)
    case _ => Bare
  }

  /** The accepted shapes of a mnemonic, by their place in its list. */
  function FormOf(n: Mnemonic, k: nat): Shape
  {
    match n
    case Only(x) => OnlyFormOf(x)
    case INC | PUSHW | POPW => if k == 0 then One(KHl) else One(KDe)
    case CALL => if k == 0 then One(KA16) else One(KHl)
    case SUB => if k == 0 then Two(KReg, KReg) else Two(KHl, KDe)
    case STW | STMW => if k == 0 then Two(KAtHl, KDe) else Two(KAtDe, KHl)
    case LDW | LDMW => if k == 0 then Two(KDe, KAtHl) else Two(KHl, KAtDe)
    case LDI => if k == 0 then Two(KHl, KI16) else if k == 1 then Two(KDe, KI16) else Two(KReg, KI8)
    case ADDI => if k == 0 then Two(KHl, KRcanon) else if k == 1 then Two(KDe, KRcanon) else Two(KReg, KI8)
    case ADD => if k == 0 then Two(KReg, KReg) else if k == 1 then Two(KHl, KDe) else Two(KSp, KSoff)
    case MOV =>
      if k == 0 then Two(KReg, KReg) else if k == 1 then Two(KReg, KAtHl) else if k == 2 then Two(KAtHl, KReg)
      else if k == 3 then Two(KReg, KAtDe) else if k == 4 then Two(KAtDe, KReg)
      else if k == 5 then Two(KMb, KHl) else Two(KHl, KMb)
    case MOVW =>
      if k == 0 then Two(KHl, KDe) else if k == 1 then Two(KDe, KHl) else if k == 2 then Two(KHl, KSp)
      else if k == 3 then Two(KDe, KSp) else if k == 4 then Two(KSp, KHl) else Two(KSp, KDe)
  }

  /** The range of a numeric kind. */
  predicate InRange(kind: Kind, v: int)
  {
    match kind
    case KI8 | KTrap => 0 <= v <= 0xFF
    case KSoff | KFrame => -128 <= v <= 127
    case _ => 0 <= v <= 0xFFFF
  }

  function Displacement(a: Arg): int
    requires a.Displaced? && a.d.Some?
  {
    if a.negative then -a.d.value else a.d.value
  }

  /** Whether an operand is of a kind. The loader asks loosely: a value slot takes any text, to
      be evaluated later; an address slot takes any but a reserved name. */
  predicate Fits(kind: Kind, a: Arg, loose: bool)
  {
    match kind
    case KReg | KRcanon => a.Register?
    case KHl => a.Hl?
    case KDe => a.De?
    case KSp => a.Sp?
    case KMb => a.Mb?
    case KAtHl => a.AtHl?
    case KAtDe => a.AtDe?
    case KFrame => a.AtHl? || (a.Displaced? && (loose || (a.d.Some? && InRange(KFrame, Displacement(a)))))
    case KA16 | KI16 =>
      if loose then !(a.Register? || a.Hl? || a.De? || a.Sp? || a.Mb? || a.Empty?)
      else (a.Number? && InRange(kind, a.v)) || a.Symbol?
    case KI8 | KSoff | KTrap => if loose then !a.Empty? else a.Number? && InRange(kind, a.v)
  }

  predicate Takes(s: Shape, args: seq<Arg>, loose: bool)
  {
    match s
    case Bare => |args| == 0
    case One(a) => |args| == 1 && Fits(a, args[0], loose)
    case Two(a, b) => |args| == 2 && Fits(a, args[0], loose) && Fits(b, args[1], loose)
  }

  predicate Taken(n: Mnemonic, k: nat, args: seq<Arg>, loose: bool)
  {
    k < Count(n) && Takes(FormOf(n, k), args, loose)
  }

  /** The places of the forms that match, of the first `k`. */
  function Hits(n: Mnemonic, args: seq<Arg>, loose: bool, k: nat): seq<nat>
    requires k <= Count(n)
  {
    if k == 0 then [] else Hits(n, args, loose, k - 1) + (if Taken(n, k - 1, args, loose) then [k - 1] else [])
  }

  /** A line is accepted when exactly one form matches. */
  function Match(n: Mnemonic, args: seq<Arg>, loose: bool): Option<nat>
  {
    var h := Hits(n, args, loose, Count(n));
    if |h| == 1 then Some(h[0]) else None
  }

  // ------------------------------------------------------- one shape at most

  /** What an exact kind names; kinds that take a value have none. */
  function Exact(kind: Kind): int
  {
    match kind
    case KReg | KRcanon => 0
    case KHl => 1 case KDe => 2 case KSp => 3 case KMb => 4 case KAtHl => 5 case KAtDe => 6
    case _ => -1
  }

  /** No operand is of both kinds, asked strictly or loosely. */
  predicate Disjoint(a: Kind, b: Kind)
  {
    || (Exact(a) >= 0 && Exact(b) >= 0 && Exact(a) != Exact(b))
    || (a.KA16? && b.KHl?)
  }

  /** No line has both shapes. */
  predicate Exclusive(s: Shape, t: Shape)
  {
    match s
    case Bare => !t.Bare?
    case One(a) => t.One? ==> Disjoint(a, t.a)
    case Two(a, b) => t.Two? ==> Disjoint(a, t.a) || Disjoint(b, t.b)
  }

  lemma ExclusiveShapes(s: Shape, t: Shape, args: seq<Arg>, loose: bool)
    requires Exclusive(s, t) && Takes(s, args, loose)
    ensures !Takes(t, args, loose)
  {
  }

  /** Mnemonics of more than one form. */
  predicate Moves(n: Mnemonic) { n.MOV? || n.MOVW? }

  predicate Overloads(n: Mnemonic) { !Moves(n) && !n.Only? }

  lemma MovesExclusive(n: Mnemonic, i: nat, j: nat)
    requires Moves(n) && i < j < Count(n)
    ensures Exclusive(FormOf(n, i), FormOf(n, j))
  {
  }

  lemma OverloadsExclusive(n: Mnemonic, i: nat, j: nat)
    requires Overloads(n) && i < j < Count(n)
    ensures Exclusive(FormOf(n, i), FormOf(n, j))
  {
  }

  lemma OnlyCount(n: Mnemonic)
    requires n.Only?
    ensures Count(n) <= 1
  {
    hide Shared;
  }

  lemma FormsExclusive(n: Mnemonic, i: nat, j: nat)
    requires i < j < Count(n)
    ensures Exclusive(FormOf(n, i), FormOf(n, j))
  {
    hide FormOf, Count, Exclusive;
    if n.Only? {
      OnlyCount(n);
    } else if Moves(n) {
      MovesExclusive(n, i, j);
    } else {
      OverloadsExclusive(n, i, j);
    }
  }

  /** A form that takes the operands is the only one that does. */
  lemma TakenOnce(n: Mnemonic, i: nat, j: nat, args: seq<Arg>, loose: bool)
    requires Taken(n, i, args, loose) && Taken(n, j, args, loose)
    ensures i == j
  {
    hide FormOf, Count, Takes, Exclusive;
    var low, high := if i < j then i else j, if i < j then j else i;
    if low < high {
      FormsExclusive(n, low, high);
      ExclusiveShapes(FormOf(n, low), FormOf(n, high), args, loose);
    }
  }

  lemma {:induction false} OnlyHit(n: Mnemonic, args: seq<Arg>, loose: bool, k: nat)
    requires k <= Count(n)
    ensures |Hits(n, args, loose, k)| <= 1
    ensures forall j: nat :: j < k && Taken(n, j, args, loose) ==>
      Hits(n, args, loose, k) == [j]
    ensures Hits(n, args, loose, k) != [] ==> exists j: nat :: j < k && Taken(n, j, args, loose)
  {
    hide FormOf, Count, Takes;
    if k > 0 {
      OnlyHit(n, args, loose, k - 1);
      if Taken(n, k - 1, args, loose) {
        forall j: nat | j < k - 1 ensures !Taken(n, j, args, loose) {
          if Taken(n, j, args, loose) {
            TakenOnce(n, j, k - 1, args, loose);
          }
        }
      }
    }
  }

  /** No spelling is ambiguous: some form takes the operands iff the line matches, and it matches
      that form. */
  lemma MatchIsUnique(n: Mnemonic, args: seq<Arg>, loose: bool)
    ensures forall k: nat :: Taken(n, k, args, loose) ==> Match(n, args, loose) == Some(k)
    ensures Match(n, args, loose).Some? ==>
      exists k: nat :: Taken(n, k, args, loose) && Match(n, args, loose) == Some(k)
  {
    hide FormOf, Count, Takes;
    OnlyHit(n, args, loose, Count(n));
  }

  /** What the assembler accepts the loader accepts, as the same form. */
  lemma FrontEndsAgree(n: Mnemonic, args: seq<Arg>)
    requires Match(n, args, false).Some?
    ensures Match(n, args, true) == Match(n, args, false)
  {
    hide FormOf, Count, Takes, Match;
    MatchIsUnique(n, args, false);
    var k: nat :| Taken(n, k, args, false) && Match(n, args, false) == Some(k);
    StrictIsLoose(FormOf(n, k), args);
    MatchIsUnique(n, args, true);
    assert Taken(n, k, args, true);
  }

  lemma StrictIsLoose(s: Shape, args: seq<Arg>)
    requires Takes(s, args, false)
    ensures Takes(s, args, true)
  {
  }

  // --------------------------------------------------------- which numbers are accepted

  lemma MatchesSome(n: Mnemonic, args: seq<Arg>, loose: bool)
    ensures Match(n, args, loose).Some? <==> exists k: nat :: Taken(n, k, args, loose)
  {
    hide FormOf, Count, Takes, Match;
    MatchIsUnique(n, args, loose);
  }

  lemma OnlyAccepts(x: Sel, args: seq<Arg>, loose: bool)
    requires !x.Bad? && !Shared(x)
    ensures Match(Only(x), args, loose).Some? <==> Takes(OnlyFormOf(x), args, loose)
  {
    hide OnlyFormOf, Takes, Match, Shared;
    MatchesSome(Only(x), args, loose);
    if Takes(OnlyFormOf(x), args, loose) {
      assert Taken(Only(x), 0, args, loose);
    }
  }

  lemma ThreeAccept(n: Mnemonic, args: seq<Arg>)
    requires n.LDI? || n.ADDI? || n.ADD?
    ensures Match(n, args, false).Some? <==>
      Takes(FormOf(n, 0), args, false) || Takes(FormOf(n, 1), args, false) || Takes(FormOf(n, 2), args, false)
  {
    hide FormOf, Takes, Match;
    MatchesSome(n, args, false);
    if Takes(FormOf(n, 0), args, false) || Takes(FormOf(n, 1), args, false) || Takes(FormOf(n, 2), args, false) {
      assert Taken(n, 0, args, false) || Taken(n, 1, args, false) || Taken(n, 2, args, false);
    }
  }

  /** A byte immediate is 0 to 255. */
  lemma ByteRanges(r: reg, t: string, v: int)
    ensures Match(LDI, [Register(r), Number(t, v)], false).Some? <==> 0 <= v <= 255
    ensures Match(ADDI, [Register(r), Number(t, v)], false).Some? <==> 0 <= v <= 255
  {
    hide Match;
    ThreeAccept(LDI, [Register(r), Number(t, v)]);
    ThreeAccept(ADDI, [Register(r), Number(t, v)]);
  }

  lemma OnlyByteRanges(r: reg, t: string, v: int)
    ensures Match(Only(Subi), [Register(r), Number(t, v)], false).Some? <==> 0 <= v <= 255
    ensures Match(Only(Adci), [Register(r), Number(t, v)], false).Some? <==> 0 <= v <= 255
    ensures Match(Only(Ext), [Number(t, v)], false).Some? <==> 0 <= v <= 255
  {
    hide Match;
    OnlyAccepts(Subi, [Register(r), Number(t, v)], false);
    OnlyAccepts(Adci, [Register(r), Number(t, v)], false);
    OnlyAccepts(Ext, [Number(t, v)], false);
  }

  /** A distance is -128 to 127. */
  lemma DistanceRanges(x: Sel, t: string, v: int)
    requires x.Js? || x.Jns? || x.Vs? || x.Vc?
    ensures Match(Only(x), [Number(t, v)], false).Some? <==> -128 <= v <= 127
  {
    hide Match;
    OnlyAccepts(x, [Number(t, v)], false);
  }

  lemma StackRanges(t: string, v: int)
    ensures Match(ADD, [Sp, Number(t, v)], false).Some? <==> -128 <= v <= 127
  {
    hide Match;
    ThreeAccept(ADD, [Sp, Number(t, v)]);
  }

  /** So is a frame's. */
  lemma FrameRanges(r: reg, negative: bool, t: string, v: int)
    ensures Match(Only(Ldx), [Register(r), Displaced(negative, t, Some(v))], false).Some?
      <==> -128 <= (if negative then -v else v) <= 127
    ensures Match(Only(Stx), [Displaced(negative, t, Some(v)), Register(r)], false).Some?
      <==> -128 <= (if negative then -v else v) <= 127
  {
    hide Match;
    OnlyAccepts(Ldx, [Register(r), Displaced(negative, t, Some(v))], false);
    OnlyAccepts(Stx, [Displaced(negative, t, Some(v)), Register(r)], false);
  }

  /** An address or a pointer's immediate is 0 to 65535. */
  lemma WordRanges(t: string, v: int)
    ensures Match(CALL, [Number(t, v)], false).Some? <==> 0 <= v <= 65535
    ensures Match(LDI, [Hl, Number(t, v)], false).Some? <==> 0 <= v <= 65535
    ensures Match(LDI, [De, Number(t, v)], false).Some? <==> 0 <= v <= 65535
  {
    hide Match;
    MatchesSome(CALL, [Number(t, v)], false);
    if 0 <= v <= 65535 {
      assert Taken(CALL, 0, [Number(t, v)], false);
    }
    ThreeAccept(LDI, [Hl, Number(t, v)]);
    ThreeAccept(LDI, [De, Number(t, v)]);
  }

  lemma JumpRanges(x: Sel, r: reg, t: string, v: int)
    requires x.Jmp? || x.Jz? || x.Jnz? || x.Jc? || x.Jnc?
    ensures Match(Only(x), [Number(t, v)], false).Some? <==> 0 <= v <= 65535
    ensures Match(Only(Djnz), [Register(r), Number(t, v)], false).Some? <==> 0 <= v <= 65535
  {
    hide Match;
    OnlyAccepts(x, [Number(t, v)], false);
    OnlyAccepts(Djnz, [Register(r), Number(t, v)], false);
  }

  /** A word's place takes names beside its numbers, and no other text; a byte's takes numbers alone. */
  lemma NamesAccepted(a: Arg)
    ensures Match(Only(Jmp), [a], false).Some? <==> (a.Number? && 0 <= a.v <= 65535) || a.Symbol?
    ensures Match(Only(Ext), [a], false).Some? <==> a.Number? && 0 <= a.v <= 255
  {
    hide Match;
    OnlyAccepts(Jmp, [a], false);
    OnlyAccepts(Ext, [a], false);
  }

  /** The loader puts any text into a value's place, and anything but a reserved name into a word's. */
  lemma LooseValues(a: Arg)
    ensures Match(Only(Ext), [a], true).Some? <==> a != Empty
    ensures Match(Only(Js), [a], true).Some? <==> a != Empty
  {
    hide Match;
    OnlyAccepts(Ext, [a], true);
    OnlyAccepts(Js, [a], true);
  }

  lemma LooseWords(a: Arg)
    ensures Match(Only(Jmp), [a], true).Some?
      <==> a.AtHl? || a.AtDe? || a.Displaced? || a.Number? || a.Symbol? || a.Text?
  {
    hide Match;
    OnlyAccepts(Jmp, [a], true);
  }

  lemma LooseFrames(r: reg, a: Arg)
    ensures Match(Only(Ldx), [Register(r), a], true).Some? <==> a.AtHl? || a.Displaced?
  {
    hide Match;
    OnlyAccepts(Ldx, [Register(r), a], true);
  }
}
