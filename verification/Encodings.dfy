/** The operand shapes against the encoder: every accepted shape is encoded, with its registers in
    the code bytes and its values behind them, and every encoding is that of an accepted shape. */
module Encodings {
  import opened Bits
  import opened Isa
  import opened Forms
  import Asm = Assembler

  /** The selector a form is encoded as. */
  function Op(n: Mnemonic, k: nat): Sel
  {
    match n
    case Only(x) => x
    case INC => if k == 0 then IncHl else IncDe
    case CALL => if k == 0 then Call else CallHl
    case SUB => if k == 0 then Sub else SubHlDe
    case PUSHW => if k == 0 then PushwHl else PushwDe
    case POPW => if k == 0 then PopwHl else PopwDe
    case STW => if k == 0 then StwHlDe else StwDeHl
    case LDW => if k == 0 then LdwDeHl else LdwHlDe
    case LDMW => if k == 0 then LdmwDeHl else LdmwHlDe
    case STMW => if k == 0 then StmwHlDe else StmwDeHl
    case LDI => if k == 0 then LdiHl else if k == 1 then LdiDe else Ldi
    case ADDI => if k == 0 then AddiHl else if k == 1 then AddiDe else Addi
    case ADD => if k == 0 then Add else if k == 1 then AddHlDe else AddSp
    case MOV =>
      if k == 0 then Mov else if k == 1 then MovRHl else if k == 2 then MovHlR else if k == 3 then MovRDe
      else if k == 4 then MovDeR else if k == 5 then MovMbHl else MovHlMb
    case MOVW =>
      if k == 0 then MovwHlDe else if k == 1 then MovwDeHl else if k == 2 then MovwHlSp
      else if k == 3 then MovwDeSp else if k == 4 then MovwSpHl else MovwSpDe
  }

  /** The registers a shape puts into the code bytes, and the bytes it puts behind them. */
  function Fields(s: Shape): nat
  {
    match s
    case Bare => 0
    case One(a) => if a.KReg? then 1 else 0
    case Two(a, b) => (if a.KReg? then 1 else 0) + (if b.KReg? then 1 else 0)
  }

  function Width(a: Kind): nat
  {
    match a
    case KA16 | KI16 => 2
    case KI8 | KRcanon | KSoff | KTrap | KFrame => 1
    case _ => 0
  }

  function Bytes(s: Shape): nat
  {
    match s
    case Bare => 0
    case One(a) => Width(a)
    case Two(a, b) => Width(a) + Width(b)
  }

  predicate Canon(s: Shape)
  {
    (s.One? && s.a.KRcanon?) || (s.Two? && (s.a.KRcanon? || s.b.KRcanon?))
  }

  /** A shape fits its encoding: as many register fields in the code bytes as register operands, as
      many operand bytes as its kinds are wide, one value at most. */
  predicate Fitting(s: Shape, x: Sel)
    requires !x.Bad?
  {
    && Fields(s) == Asm.Table(x).fields && Bytes(s) == Asm.OperandBytes(x)
    && (s.Two? ==> Width(s.a) == 0 || Width(s.b) == 0)
    && (Canon(s) <==> x.AddiHl? || x.AddiDe?)
  }

  // ------------------------------------------------------- every form is encoded

  lemma MovFits(n: Mnemonic, k: nat)
    requires k < Count(n) && n.MOV?
    ensures !Op(n, k).Bad? && Fitting(FormOf(n, k), Op(n, k))
  {
  }

  lemma MovwFits(n: Mnemonic, k: nat)
    requires k < Count(n) && n.MOVW?
    ensures !Op(n, k).Bad? && Fitting(FormOf(n, k), Op(n, k))
  {
  }

  lemma TripleFits(n: Mnemonic, k: nat)
    requires k < Count(n) && (n.LDI? || n.ADDI? || n.ADD?)
    ensures !Op(n, k).Bad? && Fitting(FormOf(n, k), Op(n, k))
  {
  }

  lemma PairFits(n: Mnemonic, k: nat)
    requires k < Count(n) && (n.INC? || n.CALL? || n.PUSHW? || n.POPW?)
    ensures !Op(n, k).Bad? && Fitting(FormOf(n, k), Op(n, k))
  {
  }

  lemma StoreFits(n: Mnemonic, k: nat)
    requires k < Count(n) && (n.SUB? || n.STW? || n.STMW?)
    ensures !Op(n, k).Bad? && Fitting(FormOf(n, k), Op(n, k))
  {
  }

  lemma LoadFits(n: Mnemonic, k: nat)
    requires k < Count(n) && (n.LDW? || n.LDMW?)
    ensures !Op(n, k).Bad? && Fitting(FormOf(n, k), Op(n, k))
  {
  }

  lemma BareFits(x: Sel)
    requires !x.Bad? && !Shared(x) && OnlyFormOf(x).Bare?
    ensures Fitting(OnlyFormOf(x), x)
  {
  }

  lemma UnaryFits(x: Sel)
    requires !x.Bad? && !Shared(x) && OnlyFormOf(x) == One(KReg)
    ensures Fitting(OnlyFormOf(x), x)
  {
  }

  lemma BinaryFits(x: Sel)
    requires !x.Bad? && !Shared(x) && OnlyFormOf(x) == Two(KReg, KReg)
    ensures Fitting(OnlyFormOf(x), x)
  {
  }

  lemma TargetFits(x: Sel)
    requires !x.Bad? && !Shared(x) && OnlyFormOf(x).One? && !OnlyFormOf(x).a.KReg?
    ensures Fitting(OnlyFormOf(x), x)
  {
  }

  lemma MixedFits(x: Sel)
    requires !x.Bad? && !Shared(x) && OnlyFormOf(x).Two? && OnlyFormOf(x) != Two(KReg, KReg)
    ensures Fitting(OnlyFormOf(x), x)
  {
  }

  lemma OnlyFits(x: Sel)
    requires !x.Bad? && !Shared(x)
    ensures Fitting(OnlyFormOf(x), x)
  {
    hide Shared, OnlyFormOf, Fitting;
    var s := OnlyFormOf(x);
    if s.Bare? {
      BareFits(x);
    } else if s == One(KReg) {
      UnaryFits(x);
    } else if s == Two(KReg, KReg) {
      BinaryFits(x);
    } else if s.One? {
      TargetFits(x);
    } else {
      MixedFits(x);
    }
  }

  /** Every accepted shape has an encoding, and it fits. */
  lemma FormsFit(n: Mnemonic, k: nat)
    requires k < Count(n)
    ensures !Op(n, k).Bad? && Fitting(FormOf(n, k), Op(n, k))
  {
    hide FormOf, Op, Fitting, Shared;
    if n.Only? {
      OnlyForm(n.x, k);
      OnlyFits(n.x);
    } else if n.MOV? {
      MovFits(n, k);
    } else if n.MOVW? {
      MovwFits(n, k);
    } else if n.LDI? || n.ADDI? || n.ADD? {
      TripleFits(n, k);
    } else if n.INC? || n.CALL? || n.PUSHW? || n.POPW? {
      PairFits(n, k);
    } else if n.LDW? || n.LDMW? {
      LoadFits(n, k);
    } else {
      StoreFits(n, k);
    }
  }

  lemma OnlyForm(x: Sel, k: nat)
    ensures FormOf(Only(x), k) == OnlyFormOf(x) && Op(Only(x), k) == x
  {
    hide OnlyFormOf;
  }

  // ------------------------------------------------------- every encoding has a form

  /** The form at place `k` of `n` is the one encoded as `x`. */
  predicate Encodes(n: Mnemonic, k: nat, x: Sel) { k < Count(n) && Op(n, k) == x }

  lemma OnlyEncodes(x: Sel)
    requires !x.Bad? && !Shared(x)
    ensures Encodes(Only(x), 0, x)
  {
  }

  lemma MovEncodes(x: Sel)
    requires x.Mov? || x.MovRHl? || x.MovHlR? || x.MovRDe? || x.MovDeR? || x.MovMbHl? || x.MovHlMb?
    ensures exists n, k: nat :: Encodes(n, k, x)
  {
    match x
    case Mov => assert Encodes(MOV, 0, x); case MovRHl => assert Encodes(MOV, 1, x);
    case MovHlR => assert Encodes(MOV, 2, x); case MovRDe => assert Encodes(MOV, 3, x);
    case MovDeR => assert Encodes(MOV, 4, x); case MovMbHl => assert Encodes(MOV, 5, x);
    case MovHlMb => assert Encodes(MOV, 6, x);
    case _ =>
  }

  lemma MovwEncodes(x: Sel)
    requires x.MovwHlDe? || x.MovwDeHl? || x.MovwHlSp? || x.MovwDeSp? || x.MovwSpHl? || x.MovwSpDe?
    ensures exists n, k: nat :: Encodes(n, k, x)
  {
    match x
    case MovwHlDe => assert Encodes(MOVW, 0, x); case MovwDeHl => assert Encodes(MOVW, 1, x);
    case MovwHlSp => assert Encodes(MOVW, 2, x); case MovwDeSp => assert Encodes(MOVW, 3, x);
    case MovwSpHl => assert Encodes(MOVW, 4, x); case MovwSpDe => assert Encodes(MOVW, 5, x);
    case _ =>
  }

  lemma TripleEncodes(x: Sel)
    requires x.LdiHl? || x.LdiDe? || x.Ldi? || x.AddiHl? || x.AddiDe? || x.Addi? || x.Add? || x.AddHlDe? || x.AddSp?
    ensures exists n, k: nat :: Encodes(n, k, x)
  {
    match x
    case LdiHl => assert Encodes(LDI, 0, x); case LdiDe => assert Encodes(LDI, 1, x);
    case Ldi => assert Encodes(LDI, 2, x); case AddiHl => assert Encodes(ADDI, 0, x);
    case AddiDe => assert Encodes(ADDI, 1, x); case Addi => assert Encodes(ADDI, 2, x);
    case Add => assert Encodes(ADD, 0, x); case AddHlDe => assert Encodes(ADD, 1, x);
    case AddSp => assert Encodes(ADD, 2, x);
    case _ =>
  }

  lemma PairEncodes(x: Sel)
    requires x.IncHl? || x.IncDe? || x.Call? || x.CallHl? || x.PushwHl? || x.PushwDe? || x.PopwHl? || x.PopwDe?
    ensures exists n, k: nat :: Encodes(n, k, x)
  {
    match x
    case IncHl => assert Encodes(INC, 0, x); case IncDe => assert Encodes(INC, 1, x);
    case Call => assert Encodes(CALL, 0, x); case CallHl => assert Encodes(CALL, 1, x);
    case PushwHl => assert Encodes(PUSHW, 0, x); case PushwDe => assert Encodes(PUSHW, 1, x);
    case PopwHl => assert Encodes(POPW, 0, x); case PopwDe => assert Encodes(POPW, 1, x);
    case _ =>
  }

  lemma TransferEncodes(x: Sel)
    requires x.Sub? || x.SubHlDe? || x.StwHlDe? || x.StwDeHl? || x.LdwDeHl? || x.LdwHlDe? || x.LdmwDeHl? ||
      x.LdmwHlDe? || x.StmwHlDe? || x.StmwDeHl?
    ensures exists n, k: nat :: Encodes(n, k, x)
  {
    match x
    case Sub => assert Encodes(SUB, 0, x); case SubHlDe => assert Encodes(SUB, 1, x);
    case StwHlDe => assert Encodes(STW, 0, x); case StwDeHl => assert Encodes(STW, 1, x);
    case LdwDeHl => assert Encodes(LDW, 0, x); case LdwHlDe => assert Encodes(LDW, 1, x);
    case LdmwDeHl => assert Encodes(LDMW, 0, x); case LdmwHlDe => assert Encodes(LDMW, 1, x);
    case StmwHlDe => assert Encodes(STMW, 0, x); case StmwDeHl => assert Encodes(STMW, 1, x);
    case _ =>
  }

  /** Every encoding is that of an accepted shape. */
  lemma EncodingsListed(x: Sel)
    requires !x.Bad?
    ensures exists n, k: nat :: Encodes(n, k, x)
  {
    hide Encodes;
    match x
    case Mov | MovRHl | MovHlR | MovRDe | MovDeR | MovMbHl | MovHlMb => MovEncodes(x);
    case MovwHlDe | MovwDeHl | MovwHlSp | MovwDeSp | MovwSpHl | MovwSpDe => MovwEncodes(x);
    case LdiHl | LdiDe | Ldi | AddiHl | AddiDe | Addi | Add | AddHlDe | AddSp => TripleEncodes(x);
    case IncHl | IncDe | Call | CallHl | PushwHl | PushwDe | PopwHl | PopwDe => PairEncodes(x);
    case Sub | SubHlDe | StwHlDe | StwDeHl | LdwDeHl | LdwHlDe | LdmwDeHl | LdmwHlDe | StmwHlDe | StmwDeHl =>
      TransferEncodes(x);
    case _ => OnlyEncodes(x);
  }
}
