/** What a written line does to the machine, said of the operands it is written with: the registers,
    pointers and cells it names. The selector the line is encoded as appears nowhere in that. */
module Effects {
  import opened B = Bits
  import opened Isa
  import opened R = Reference
  import opened Forms
  import opened Encodings
  import opened Sources
  import Asm = Assembler
  import N = Arithmetic

  // ---------------------------------------------------------- what the operands name

  function RegOf(a: Arg): reg { if a.Register? then a.k else 0 }

  /** The pointer an operand names, and the machine with that pointer set. */
  function Pointer(a: Arg, m: Core): word
  {
    if a.Hl? then m.hl else if a.De? then m.de else if a.Sp? then m.sp else m.mb
  }

  function SetPointer(a: Arg, m: Core, w: word): Core
  {
    if a.Hl? then m.(hl := w) else if a.De? then m.(de := w) else m.(mb := w)
  }

  /** The address inside `[HL]`, `[DE]` and `[HL+d]`. */
  function Address(a: Arg, m: Core): word
  {
    if a.AtDe? then m.de
    else if a.Displaced? && a.d.Some? then Low16(m.hl + Displacement(a))
    else m.hl
  }

  /** The number an operand stands for: a label's address wins over the number it is spelled like. */
  function NumberOf(a: Arg, labels: Asm.Labels): int
  {
    match a
    case Number(text, v) => if text in labels then labels[text] else v
    case Symbol(name, hidden) => if name in labels then labels[name] else if hidden.Some? then hidden.value else 0
    case Displaced(_, _, d) => if d.Some? then Displacement(a) else 0
    case _ => 0
  }

  /** Both registers of a line in the order they are written, the one there is twice. */
  function FirstReg(args: seq<Arg>): reg
  {
    if |args| >= 1 && args[0].Register? then args[0].k
    else if |args| >= 2 && args[1].Register? then args[1].k
    else 0
  }

  function SecondReg(args: seq<Arg>): reg
  {
    if |args| >= 2 && args[1].Register? then args[1].k else FirstReg(args)
  }

  /** The number a line of one form carries: its last operand's. */
  function LastNumber(args: seq<Arg>, labels: Asm.Labels): int
  {
    if args == [] then 0 else NumberOf(args[|args| - 1], labels)
  }

  // ------------------------------------------------------------------ what a line does

  /** The bank instructions, on the page the selector names. */
  function Banked(e: Env, m: Core, pg: seq<Page>, load: bool, at: word, w: word, intoHl: bool): Outcome
    requires R.Fits(e, pg)
  {
    var verdict := BankVerdict(e, |pg|, m.mb);
    if !verdict.Ok? then Fault(verdict)
    else if load then LoadWord(pg[m.mb], m, pg, at, intoHl)
    else BankStore16(e, m, pg, at, w)
  }

  /** The mnemonics of several forms with one operand. */
  function EffectOfOne(n: Mnemonic, a: Arg, labels: Asm.Labels, e: Env, m: Core, pg: seq<Page>): Outcome
    requires R.Fits(e, pg)
  {
    match n
    case INC => Next(SetPointer(a, m, Low16(Pointer(a, m) + 1)), pg)
    case CALL => CallTo(e, m, pg, if a.Hl? then m.hl else Low16(NumberOf(a, labels)))
    case PUSHW => PushWord(e, m, pg, Pointer(a, m))
    case _ => PopWord(e, m, pg, a.Hl?)
  }

  /** The same with two, the destination first. */
  function EffectOfTwo(n: Mnemonic, to: Arg, from: Arg, labels: Asm.Labels, e: Env, pc0: word, m: Core, pg: seq<Page>):
      Outcome
    requires R.Fits(e, pg)
  {
    match n
    case MOV =>
      if to.Register? && from.Register? then Next(SetReg(m, to.k, m.r[from.k]), pg)
      else if to.Register? then LoadReg(e, m, pg, to.k, Address(from, m))
      else if from.Register? then StoreReg(e, m, pg, Address(to, m), m.r[from.k])
      else Next(SetPointer(to, m, Pointer(from, m)), pg)
    case MOVW => if to.Sp? then SetSp(m, pg, Pointer(from, m)) else Next(SetPointer(to, m, Pointer(from, m)), pg)
    case LDI =>
      var v := NumberOf(from, labels);
      Next(if to.Register? then SetReg(m, to.k, Low8(v)) else SetPointer(to, m, Low16(v)), pg)
    case ADDI =>
      if to.Register? then ExecAlu(Addi, Args(to.k, to.k, Low8(NumberOf(from, labels)), 0), pc0, m, pg)
      else Next(SetPointer(to, m, Low16(Pointer(to, m) + m.r[RegOf(from)])), pg)
    case ADD =>
      if to.Register? then ExecAlu(Add, Args(to.k, RegOf(from), 0, 0), pc0, m, pg)
      else if to.Sp? then SetSp(m, pg, Low16(m.sp + NumberOf(from, labels)))
      else
        var t := Pointer(to, m) + Pointer(from, m);
        Next(SetPointer(to, m, Low16(t)).(c := Flag(t > 65535)), pg)
    case SUB =>
      if to.Register? then ExecAlu(Sub, Args(to.k, RegOf(from), 0, 0), pc0, m, pg)
      else
        var t: int := Pointer(to, m) - Pointer(from, m);
        Next(SetPointer(to, m, Low16(t)).(c := Flag(t < 0)), pg)
    case STW => StoreWord(e, m, pg, Address(to, m), Pointer(from, m))
    case LDW => LoadWord(Data(e, pg), m, pg, Address(from, m), to.Hl?)
    case LDMW => Banked(e, m, pg, true, Address(from, m), 0, to.Hl?)
    case _ => Banked(e, m, pg, false, Address(to, m), Pointer(from, m), false)
  }

  /** Mnemonics of one form that name a pointer, a cell or a distance. */
  predicate NamesPlaces(x: Sel)
  {
    x.DecHl? || x.Xchg? || x.Ldx? || x.Stx? || x.Ldc? || x.Stc? || x.Ldm? || x.Stm? || x.Js? || x.Jns? || x.Vs? || x.Vc?
  }

  /** An instruction that works through HL, done at another address. */
  function Through(o: Outcome, hl: word): Outcome { if o.Next? then o.(m := o.m.(hl := hl)) else o }

  function EffectOfPlace(x: Sel, args: seq<Arg>, labels: Asm.Labels, e: Env, m: Core, pg: seq<Page>): Outcome
    requires R.Fits(e, pg) && NamesPlaces(x)
  {
    if |args| == 1 then
      var a := args[0];
      var t := Low16(m.pc + NumberOf(a, labels));
      if x.DecHl? then Next(SetPointer(a, m, Low16(Pointer(a, m) - 1)), pg)
      else if x.Js? then Branch(e.cf, m.s == 1, m, pg, t)
      else if x.Jns? then Branch(e.cf, m.s == 0, m, pg, t)
      else if x.Vs? then Branch(e.cf, m.v == 1, m, pg, t)
      else Branch(e.cf, m.v == 0, m, pg, t)
    else if |args| == 2 then
      var (to, from) := (args[0], args[1]);
      if x.Xchg? then Next(SetPointer(from, SetPointer(to, m, Pointer(from, m)), Pointer(to, m)), pg)
      else if x.Ldx? then LoadReg(e, m, pg, RegOf(to), Address(from, m))
      else if x.Stx? then StoreReg(e, m, pg, Address(to, m), m.r[RegOf(from)])
      else if x.Ldc? then Through(LoadCode(e.cf, m.(hl := Address(from, m)), pg, RegOf(to)), m.hl)
      else if x.Stc? then Through(StoreCode(e.cf, m.(hl := Address(to, m)), pg, m.r[RegOf(from)]), m.hl)
      else if !BankVerdict(e, |pg|, m.mb).Ok? then Fault(BankVerdict(e, |pg|, m.mb))
      else if x.Ldm? then Through(BankLoad(m.(hl := Address(from, m)), pg, RegOf(to)), m.hl)
      else Through(BankStore(e, m.(hl := Address(to, m)), pg, m.r[RegOf(from)]), m.hl)
    else Fault(BadOpcode)
  }

  /** Every line. A mnemonic of one form is named by what it does; its operands say where. */
  function Effect(n: Mnemonic, args: seq<Arg>, labels: Asm.Labels, e: Env, pc0: word, m: Core, pg: seq<Page>): Outcome
    requires R.Fits(e, pg)
  {
    if n.Only? then
      if NamesPlaces(n.x) then EffectOfPlace(n.x, args, labels, e, m, pg)
      else
        var v := LastNumber(args, labels);
        Exec(n.x, e, Args(FirstReg(args), SecondReg(args), Low8(v), if v < 256 then 0 else Low8(v / 256)), pc0, m, pg)
    else if |args| == 1 then EffectOfOne(n, args[0], labels, e, m, pg)
    else if |args| == 2 then EffectOfTwo(n, args[0], args[1], labels, e, pc0, m, pg)
    else Fault(BadOpcode)
  }

  // ------------------------------------------------------- the encoded line does that

  /** What the line's bytes hold, when its operand has a value. */
  predicate Valued(s: Shape, args: seq<Arg>, labels: Asm.Labels)
    requires Takes(s, args, false)
  {
    SlotFitted(s, args);
    var v := SlotOf(s, args);
    v.Slot? ==> Worth(v, labels, true).Some?
  }

  function LineArgs(s: Shape, args: seq<Arg>, labels: Asm.Labels): Args
    requires Takes(s, args, false) && Valued(s, args, labels)
  {
    SlotFitted(s, args);
    var v := SlotOf(s, args);
    if v.NoSlot? then Args(FieldD(s, args), FieldS(s, args), 0, 0)
    else
      var w := Worth(v, labels, true).value;
      Args(FieldD(s, args), FieldS(s, args), w % 256, if Width(v.kind) == 2 then w / 256 % 256 else 0)
  }

  /** A signed operand byte is the number it was written from. */
  lemma SignedBack(v: int)
    requires -128 <= v <= 127
    ensures B.Signed(Low8(v)) == v
  {
    hide B.Signed;
    N.SignedIsInt8(Low8(v));
  }

  /** Two operand bytes join to the word they were split from. */
  lemma WordBack(w: int)
    requires 0 <= w <= 65535
    ensures Word(w % 256, w / 256 % 256) == w && Low16(w) == w
  {
  }

  /** What the bytes behind the code hold is the number the operand stands for. */
  lemma NumbersHeld(v: Slot, labels: Asm.Labels)
    requires v.Slot? && Fitted(v) && Worth(v, labels, true).Some?
    ensures var w, t := Worth(v, labels, true).value, NumberOf(v.a, labels);
      if v.kind.KRcanon? then w == v.a.k
      else if Wide(v) then w == t <= 65535
      else if v.kind.KI8? || v.kind.KTrap? then w == t <= 255
      else w == Low8(t) && -128 <= t <= 127 && B.Signed(w) == t
  {
    hide B.Signed, Sources.Signed;
    var t := NumberOf(v.a, labels);
    if -128 <= t <= 127 {
      SignedBack(t);
    }
  }

  lemma AluDispatch(x: Sel, e: Env, a: Args, pc0: word, m: Core, pg: seq<Page>)
    requires R.Fits(e, pg)
    requires x.Mov? || x.Ldi? || x.Addi? || x.Add? || x.Sub?
    ensures Exec(x, e, a, pc0, m, pg) == ExecAlu(x, a, pc0, m, pg)
  {
    hide ExecAlu, ExecPointer, ExecBranch, ExecStack, ExecMemory, ExecStream, ExecBank, ExecTrap, Legal;
  }

  lemma PairDispatch(x: Sel, e: Env, a: Args, pc0: word, m: Core, pg: seq<Page>)
    requires R.Fits(e, pg)
    requires x.LdiHl? || x.LdiDe? || x.MovMbHl? || x.MovHlMb?
    ensures Exec(x, e, a, pc0, m, pg) == ExecPointer(x, a, m, pg)
  {
    hide ExecAlu, ExecPointer, ExecBranch, ExecStack, ExecMemory, ExecStream, ExecBank, ExecTrap, Legal;
  }

  lemma WordDispatch(x: Sel, e: Env, a: Args, pc0: word, m: Core, pg: seq<Page>)
    requires R.Fits(e, pg)
    requires x.MovwHlDe? || x.MovwDeHl? || x.MovwHlSp? || x.MovwDeSp?
    ensures Exec(x, e, a, pc0, m, pg) == ExecPointer(x, a, m, pg)
  {
    hide ExecAlu, ExecPointer, ExecBranch, ExecStack, ExecMemory, ExecStream, ExecBank, ExecTrap, Legal;
  }

  lemma CopyDispatch(x: Sel, e: Env, a: Args, pc0: word, m: Core, pg: seq<Page>)
    requires R.Fits(e, pg)
    requires x.LdiHl? || x.LdiDe? || x.MovMbHl? || x.MovHlMb? || x.MovwHlDe? || x.MovwDeHl? || x.MovwHlSp? ||
      x.MovwDeSp?
    ensures Exec(x, e, a, pc0, m, pg) == ExecPointer(x, a, m, pg)
  {
    hide Exec;
    if x.LdiHl? || x.LdiDe? || x.MovMbHl? || x.MovHlMb? {
      PairDispatch(x, e, a, pc0, m, pg);
    } else {
      WordDispatch(x, e, a, pc0, m, pg);
    }
  }

  lemma StepDispatch(x: Sel, e: Env, a: Args, pc0: word, m: Core, pg: seq<Page>)
    requires R.Fits(e, pg)
    requires x.IncHl? || x.IncDe? || x.AddiHl? || x.AddiDe?
    ensures Exec(x, e, a, pc0, m, pg) == ExecPointer(x, a, m, pg)
  {
    hide ExecAlu, ExecPointer, ExecBranch, ExecStack, ExecMemory, ExecStream, ExecBank, ExecTrap, Legal;
  }

  lemma PointerDispatch(x: Sel, e: Env, a: Args, pc0: word, m: Core, pg: seq<Page>)
    requires R.Fits(e, pg)
    requires x.AddHlDe? || x.SubHlDe? || x.MovwSpHl? || x.MovwSpDe? || x.AddSp?
    ensures Exec(x, e, a, pc0, m, pg) == ExecPointer(x, a, m, pg)
  {
    hide ExecAlu, ExecPointer, ExecBranch, ExecStack, ExecMemory, ExecStream, ExecBank, ExecTrap, Legal;
  }

  lemma CountDispatch(x: Sel, e: Env, a: Args, pc0: word, m: Core, pg: seq<Page>)
    requires R.Fits(e, pg)
    requires x.IncHl? || x.IncDe? || x.AddiHl? || x.AddiDe? || x.AddHlDe? || x.SubHlDe? || x.MovwSpHl? ||
      x.MovwSpDe? || x.AddSp?
    ensures Exec(x, e, a, pc0, m, pg) == ExecPointer(x, a, m, pg)
  {
    hide Exec;
    if x.IncHl? || x.IncDe? || x.AddiHl? || x.AddiDe? {
      StepDispatch(x, e, a, pc0, m, pg);
    } else {
      PointerDispatch(x, e, a, pc0, m, pg);
    }
  }

  lemma CallDispatch(x: Sel, e: Env, a: Args, pc0: word, m: Core, pg: seq<Page>)
    requires R.Fits(e, pg)
    requires x.Call? || x.CallHl?
    ensures Exec(x, e, a, pc0, m, pg) == ExecStack(x, e, a, m, pg)
  {
    hide ExecAlu, ExecPointer, ExecBranch, ExecStack, ExecMemory, ExecStream, ExecBank, ExecTrap, Legal;
  }

  lemma PushPopDispatch(x: Sel, e: Env, a: Args, pc0: word, m: Core, pg: seq<Page>)
    requires R.Fits(e, pg)
    requires x.PushwHl? || x.PushwDe? || x.PopwHl? || x.PopwDe?
    ensures Exec(x, e, a, pc0, m, pg) == ExecStack(x, e, a, m, pg)
  {
    hide ExecAlu, ExecPointer, ExecBranch, ExecStack, ExecMemory, ExecStream, ExecBank, ExecTrap, Legal;
  }

  lemma StackDispatch(x: Sel, e: Env, a: Args, pc0: word, m: Core, pg: seq<Page>)
    requires R.Fits(e, pg)
    requires x.Call? || x.CallHl? || x.PushwHl? || x.PushwDe? || x.PopwHl? || x.PopwDe?
    ensures Exec(x, e, a, pc0, m, pg) == ExecStack(x, e, a, m, pg)
  {
    hide Exec;
    if x.Call? || x.CallHl? {
      CallDispatch(x, e, a, pc0, m, pg);
    } else {
      PushPopDispatch(x, e, a, pc0, m, pg);
    }
  }

  lemma LoadDispatch(x: Sel, e: Env, a: Args, pc0: word, m: Core, pg: seq<Page>)
    requires R.Fits(e, pg)
    requires x.MovRHl? || x.MovRDe? || x.LdwDeHl? || x.LdwHlDe? || x.Ldx?
    ensures Exec(x, e, a, pc0, m, pg) == ExecMemory(x, e, a, m, pg)
  {
    hide ExecAlu, ExecPointer, ExecBranch, ExecStack, ExecMemory, ExecStream, ExecBank, ExecTrap, Legal;
  }

  lemma StoreDispatch(x: Sel, e: Env, a: Args, pc0: word, m: Core, pg: seq<Page>)
    requires R.Fits(e, pg)
    requires x.MovHlR? || x.MovDeR? || x.StwHlDe? || x.StwDeHl? || x.Stx?
    ensures Exec(x, e, a, pc0, m, pg) == ExecMemory(x, e, a, m, pg)
  {
    hide ExecAlu, ExecPointer, ExecBranch, ExecStack, ExecMemory, ExecStream, ExecBank, ExecTrap, Legal;
  }

  lemma MemoryDispatch(x: Sel, e: Env, a: Args, pc0: word, m: Core, pg: seq<Page>)
    requires R.Fits(e, pg)
    requires x.MovRHl? || x.MovHlR? || x.MovRDe? || x.MovDeR? || x.StwHlDe? || x.StwDeHl? || x.LdwDeHl? ||
      x.LdwHlDe? || x.Ldx? || x.Stx?
    ensures Exec(x, e, a, pc0, m, pg) == ExecMemory(x, e, a, m, pg)
  {
    hide Exec;
    if x.MovRHl? || x.MovRDe? || x.LdwDeHl? || x.LdwHlDe? || x.Ldx? {
      LoadDispatch(x, e, a, pc0, m, pg);
    } else {
      StoreDispatch(x, e, a, pc0, m, pg);
    }
  }

  lemma PairLoadDispatch(x: Sel, e: Env, a: Args, pc0: word, m: Core, pg: seq<Page>)
    requires R.Fits(e, pg)
    requires x.LdmwDeHl? || x.LdmwHlDe?
    ensures Exec(x, e, a, pc0, m, pg) == ExecBank(x, e, a, m, pg)
  {
    hide ExecAlu, ExecPointer, ExecBranch, ExecStack, ExecMemory, ExecStream, ExecBank, ExecTrap, Legal;
  }

  lemma PairStoreDispatch(x: Sel, e: Env, a: Args, pc0: word, m: Core, pg: seq<Page>)
    requires R.Fits(e, pg)
    requires x.StmwHlDe? || x.StmwDeHl?
    ensures Exec(x, e, a, pc0, m, pg) == ExecBank(x, e, a, m, pg)
  {
    hide ExecAlu, ExecPointer, ExecBranch, ExecStack, ExecMemory, ExecStream, ExecBank, ExecTrap, Legal;
  }

  lemma BankDispatch(x: Sel, e: Env, a: Args, pc0: word, m: Core, pg: seq<Page>)
    requires R.Fits(e, pg)
    requires x.LdmwDeHl? || x.LdmwHlDe? || x.StmwHlDe? || x.StmwDeHl?
    ensures Exec(x, e, a, pc0, m, pg) == ExecBank(x, e, a, m, pg)
  {
    hide Exec;
    if x.LdmwDeHl? || x.LdmwHlDe? {
      PairLoadDispatch(x, e, a, pc0, m, pg);
    } else {
      PairStoreDispatch(x, e, a, pc0, m, pg);
    }
  }

  lemma SignDispatch(x: Sel, e: Env, a: Args, pc0: word, m: Core, pg: seq<Page>)
    requires R.Fits(e, pg)
    requires x.Js? || x.Jns?
    ensures Exec(x, e, a, pc0, m, pg) == ExecBranch(x, e.cf, a, m, pg)
  {
    hide ExecAlu, ExecPointer, ExecBranch, ExecStack, ExecMemory, ExecStream, ExecBank, ExecTrap, Legal;
  }

  lemma OverflowDispatch(x: Sel, e: Env, a: Args, pc0: word, m: Core, pg: seq<Page>)
    requires R.Fits(e, pg)
    requires x.Vs? || x.Vc?
    ensures Exec(x, e, a, pc0, m, pg) == ExecBranch(x, e.cf, a, m, pg)
  {
    hide ExecAlu, ExecPointer, ExecBranch, ExecStack, ExecMemory, ExecStream, ExecBank, ExecTrap, Legal;
  }

  lemma BranchDispatch(x: Sel, e: Env, a: Args, pc0: word, m: Core, pg: seq<Page>)
    requires R.Fits(e, pg)
    requires x.Js? || x.Jns? || x.Vs? || x.Vc?
    ensures Exec(x, e, a, pc0, m, pg) == ExecBranch(x, e.cf, a, m, pg)
  {
    hide Exec;
    if x.Js? || x.Jns? {
      SignDispatch(x, e, a, pc0, m, pg);
    } else {
      OverflowDispatch(x, e, a, pc0, m, pg);
    }
  }

  lemma CodeDispatch(x: Sel, e: Env, a: Args, pc0: word, m: Core, pg: seq<Page>)
    requires R.Fits(e, pg)
    requires x.Ldc? || x.Stc?
    ensures Exec(x, e, a, pc0, m, pg) == ExecMemory(x, e, a, m, pg)
  {
    hide ExecAlu, ExecPointer, ExecBranch, ExecStack, ExecMemory, ExecStream, ExecBank, ExecTrap, Legal;
  }

  lemma WindowDispatch(x: Sel, e: Env, a: Args, pc0: word, m: Core, pg: seq<Page>)
    requires R.Fits(e, pg)
    requires x.Ldm? || x.Stm?
    ensures Exec(x, e, a, pc0, m, pg) == ExecBank(x, e, a, m, pg)
  {
    hide ExecAlu, ExecPointer, ExecBranch, ExecStack, ExecMemory, ExecStream, ExecBank, ExecTrap, Legal;
  }

  lemma SwapDispatch(x: Sel, e: Env, a: Args, pc0: word, m: Core, pg: seq<Page>)
    requires R.Fits(e, pg)
    requires x.DecHl? || x.Xchg?
    ensures Exec(x, e, a, pc0, m, pg) == ExecPointer(x, a, m, pg)
  {
    hide ExecAlu, ExecPointer, ExecBranch, ExecStack, ExecMemory, ExecStream, ExecBank, ExecTrap, Legal;
  }

  ghost predicate Does(n: Mnemonic, k: nat, args: seq<Arg>, labels: Asm.Labels, e: Env, pc0: word, m: Core,
      pg: seq<Page>)
    requires R.Fits(e, pg) && Taken(n, k, args, false) && Valued(FormOf(n, k), args, labels)
  {
    Exec(Op(n, k), e, LineArgs(FormOf(n, k), args, labels), pc0, m, pg) == Effect(n, args, labels, e, pc0, m, pg)
  }

  lemma MovBytesDo(n: Mnemonic, k: nat, args: seq<Arg>, labels: Asm.Labels, e: Env, pc0: word, m: Core, pg: seq<Page>)
    requires R.Fits(e, pg) && n.MOV? && k < 3 && Taken(n, k, args, false) && Valued(FormOf(n, k), args, labels)
    ensures Does(n, k, args, labels, e, pc0, m, pg)
  {
    hide Exec, Worth, LoadReg, StoreReg;
    if k == 0 {
      AluDispatch(Op(n, k), e, LineArgs(FormOf(n, k), args, labels), pc0, m, pg);
    } else {
      MemoryDispatch(Op(n, k), e, LineArgs(FormOf(n, k), args, labels), pc0, m, pg);
    }
  }

  lemma MovCellsDo(n: Mnemonic, k: nat, args: seq<Arg>, labels: Asm.Labels, e: Env, pc0: word, m: Core, pg: seq<Page>)
    requires R.Fits(e, pg) && n.MOV? && 3 <= k < 5 && Taken(n, k, args, false) && Valued(FormOf(n, k), args, labels)
    ensures Does(n, k, args, labels, e, pc0, m, pg)
  {
    hide Exec, Worth, LoadReg, StoreReg;
    MemoryDispatch(Op(n, k), e, LineArgs(FormOf(n, k), args, labels), pc0, m, pg);
  }

  lemma MovPointersDo(n: Mnemonic, k: nat, args: seq<Arg>, labels: Asm.Labels, e: Env, pc0: word, m: Core,
      pg: seq<Page>)
    requires R.Fits(e, pg) && n.MOV? && 5 <= k && Taken(n, k, args, false) && Valued(FormOf(n, k), args, labels)
    ensures Does(n, k, args, labels, e, pc0, m, pg)
  {
    hide Exec, Worth, LoadReg, StoreReg;
    CopyDispatch(Op(n, k), e, LineArgs(FormOf(n, k), args, labels), pc0, m, pg);
  }

  lemma MovwCopies(n: Mnemonic, k: nat, args: seq<Arg>, labels: Asm.Labels, e: Env, pc0: word, m: Core, pg: seq<Page>)
    requires R.Fits(e, pg) && n.MOVW? && k < 4 && Taken(n, k, args, false) && Valued(FormOf(n, k), args, labels)
    ensures Does(n, k, args, labels, e, pc0, m, pg)
  {
    hide Exec, Worth, SetSp;
    CopyDispatch(Op(n, k), e, LineArgs(FormOf(n, k), args, labels), pc0, m, pg);
  }

  lemma MovwSets(n: Mnemonic, k: nat, args: seq<Arg>, labels: Asm.Labels, e: Env, pc0: word, m: Core, pg: seq<Page>)
    requires R.Fits(e, pg) && n.MOVW? && 4 <= k && Taken(n, k, args, false) && Valued(FormOf(n, k), args, labels)
    ensures Does(n, k, args, labels, e, pc0, m, pg)
  {
    hide Exec, Worth, SetSp;
    CountDispatch(Op(n, k), e, LineArgs(FormOf(n, k), args, labels), pc0, m, pg);
  }

  lemma LdiPointersDo(n: Mnemonic, k: nat, args: seq<Arg>, labels: Asm.Labels, e: Env, pc0: word, m: Core,
      pg: seq<Page>)
    requires R.Fits(e, pg) && n.LDI? && k < 2 && Taken(n, k, args, false) && Valued(FormOf(n, k), args, labels)
    ensures Does(n, k, args, labels, e, pc0, m, pg)
  {
    hide Exec, Worth, NumberOf, Word, Low16;
    CopyDispatch(Op(n, k), e, LineArgs(FormOf(n, k), args, labels), pc0, m, pg);
    SlotFitted(FormOf(n, k), args);
    var v := SlotOf(FormOf(n, k), args);
    if v.Slot? {
      NumbersHeld(v, labels);
      WordBack(Worth(v, labels, true).value);
    }
  }

  lemma LdiDoes(n: Mnemonic, k: nat, args: seq<Arg>, labels: Asm.Labels, e: Env, pc0: word, m: Core, pg: seq<Page>)
    requires R.Fits(e, pg) && n.LDI? && k == 2 && Taken(n, k, args, false) && Valued(FormOf(n, k), args, labels)
    ensures Does(n, k, args, labels, e, pc0, m, pg)
  {
    hide Exec, Worth, NumberOf;
    AluDispatch(Op(n, k), e, LineArgs(FormOf(n, k), args, labels), pc0, m, pg);
    SlotFitted(FormOf(n, k), args);
    var v := SlotOf(FormOf(n, k), args);
    if v.Slot? {
      NumbersHeld(v, labels);
    }
  }

  lemma AddiPointersDo(n: Mnemonic, k: nat, args: seq<Arg>, labels: Asm.Labels, e: Env, pc0: word, m: Core,
      pg: seq<Page>)
    requires R.Fits(e, pg) && n.ADDI? && k < 2 && Taken(n, k, args, false) && Valued(FormOf(n, k), args, labels)
    ensures Does(n, k, args, labels, e, pc0, m, pg)
  {
    hide Exec, Worth, ExecAlu, NumberOf, Low16;
    CountDispatch(Op(n, k), e, LineArgs(FormOf(n, k), args, labels), pc0, m, pg);
    SlotFitted(FormOf(n, k), args);
    var v := SlotOf(FormOf(n, k), args);
    if v.Slot? {
      NumbersHeld(v, labels);
    }
    assert LineArgs(FormOf(n, k), args, labels).i0 % 4 == RegOf(args[1]);
  }

  lemma AddiDoes(n: Mnemonic, k: nat, args: seq<Arg>, labels: Asm.Labels, e: Env, pc0: word, m: Core, pg: seq<Page>)
    requires R.Fits(e, pg) && n.ADDI? && k == 2 && Taken(n, k, args, false) && Valued(FormOf(n, k), args, labels)
    ensures Does(n, k, args, labels, e, pc0, m, pg)
  {
    hide Exec, Worth, ExecAlu, NumberOf;
    AluDispatch(Op(n, k), e, LineArgs(FormOf(n, k), args, labels), pc0, m, pg);
    SlotFitted(FormOf(n, k), args);
    var v := SlotOf(FormOf(n, k), args);
    if v.Slot? {
      NumbersHeld(v, labels);
    }
  }

  lemma AddDoes(n: Mnemonic, k: nat, args: seq<Arg>, labels: Asm.Labels, e: Env, pc0: word, m: Core, pg: seq<Page>)
    requires R.Fits(e, pg) && n.ADD? && k < 2 && Taken(n, k, args, false) && Valued(FormOf(n, k), args, labels)
    ensures Does(n, k, args, labels, e, pc0, m, pg)
  {
    hide Exec, Worth, SetSp, ExecAlu, B.Signed;
    if k == 0 {
      AluDispatch(Op(n, k), e, LineArgs(FormOf(n, k), args, labels), pc0, m, pg);
    } else {
      CountDispatch(Op(n, k), e, LineArgs(FormOf(n, k), args, labels), pc0, m, pg);
    }
  }

  lemma AddSpDoes(n: Mnemonic, k: nat, args: seq<Arg>, labels: Asm.Labels, e: Env, pc0: word, m: Core, pg: seq<Page>)
    requires R.Fits(e, pg) && n.ADD? && k == 2 && Taken(n, k, args, false) && Valued(FormOf(n, k), args, labels)
    ensures Does(n, k, args, labels, e, pc0, m, pg)
  {
    hide Exec, Worth, SetSp, ExecAlu, B.Signed, NumberOf;
    CountDispatch(Op(n, k), e, LineArgs(FormOf(n, k), args, labels), pc0, m, pg);
    SlotFitted(FormOf(n, k), args);
    var v := SlotOf(FormOf(n, k), args);
    if v.Slot? {
      NumbersHeld(v, labels);
    }
  }

  lemma SubDoes(n: Mnemonic, k: nat, args: seq<Arg>, labels: Asm.Labels, e: Env, pc0: word, m: Core, pg: seq<Page>)
    requires R.Fits(e, pg) && n.SUB? && Taken(n, k, args, false) && Valued(FormOf(n, k), args, labels)
    ensures Does(n, k, args, labels, e, pc0, m, pg)
  {
    hide Exec, Worth, ExecAlu;
    if k == 0 {
      AluDispatch(Op(n, k), e, LineArgs(FormOf(n, k), args, labels), pc0, m, pg);
    } else {
      CountDispatch(Op(n, k), e, LineArgs(FormOf(n, k), args, labels), pc0, m, pg);
    }
  }

  lemma IncDoes(n: Mnemonic, k: nat, args: seq<Arg>, labels: Asm.Labels, e: Env, pc0: word, m: Core, pg: seq<Page>)
    requires R.Fits(e, pg) && n.INC? && Taken(n, k, args, false) && Valued(FormOf(n, k), args, labels)
    ensures Does(n, k, args, labels, e, pc0, m, pg)
  {
    hide Exec, Worth;
    CountDispatch(Op(n, k), e, LineArgs(FormOf(n, k), args, labels), pc0, m, pg);
  }

  lemma StackDoes(n: Mnemonic, k: nat, args: seq<Arg>, labels: Asm.Labels, e: Env, pc0: word, m: Core, pg: seq<Page>)
    requires R.Fits(e, pg) && (n.PUSHW? || n.POPW?) && Taken(n, k, args, false) && Valued(FormOf(n, k), args, labels)
    ensures Does(n, k, args, labels, e, pc0, m, pg)
  {
    hide Exec, Worth, PushWord, PopWord;
    StackDispatch(Op(n, k), e, LineArgs(FormOf(n, k), args, labels), pc0, m, pg);
  }

  lemma CallDoes(n: Mnemonic, k: nat, args: seq<Arg>, labels: Asm.Labels, e: Env, pc0: word, m: Core, pg: seq<Page>)
    requires R.Fits(e, pg) && n.CALL? && Taken(n, k, args, false) && Valued(FormOf(n, k), args, labels)
    ensures Does(n, k, args, labels, e, pc0, m, pg)
  {
    hide Exec, Worth, CallTo, NumberOf, Word, Low16;
    StackDispatch(Op(n, k), e, LineArgs(FormOf(n, k), args, labels), pc0, m, pg);
    SlotFitted(FormOf(n, k), args);
    var v := SlotOf(FormOf(n, k), args);
    if v.Slot? {
      NumbersHeld(v, labels);
      WordBack(Worth(v, labels, true).value);
    }
  }

  lemma StwDoes(n: Mnemonic, k: nat, args: seq<Arg>, labels: Asm.Labels, e: Env, pc0: word, m: Core, pg: seq<Page>)
    requires R.Fits(e, pg) && n.STW? && Taken(n, k, args, false) && Valued(FormOf(n, k), args, labels)
    ensures Does(n, k, args, labels, e, pc0, m, pg)
  {
    hide Exec, Worth, StoreWord;
    MemoryDispatch(Op(n, k), e, LineArgs(FormOf(n, k), args, labels), pc0, m, pg);
  }

  lemma LdwDoes(n: Mnemonic, k: nat, args: seq<Arg>, labels: Asm.Labels, e: Env, pc0: word, m: Core, pg: seq<Page>)
    requires R.Fits(e, pg) && n.LDW? && Taken(n, k, args, false) && Valued(FormOf(n, k), args, labels)
    ensures Does(n, k, args, labels, e, pc0, m, pg)
  {
    hide Exec, Worth, LoadWord;
    MemoryDispatch(Op(n, k), e, LineArgs(FormOf(n, k), args, labels), pc0, m, pg);
  }

  lemma StmwDoes(n: Mnemonic, k: nat, args: seq<Arg>, labels: Asm.Labels, e: Env, pc0: word, m: Core, pg: seq<Page>)
    requires R.Fits(e, pg) && n.STMW? && Taken(n, k, args, false) && Valued(FormOf(n, k), args, labels)
    ensures Does(n, k, args, labels, e, pc0, m, pg)
  {
    hide Exec, Worth, BankVerdict, BankStore16;
    BankDispatch(Op(n, k), e, LineArgs(FormOf(n, k), args, labels), pc0, m, pg);
  }

  lemma LdmwDoes(n: Mnemonic, k: nat, args: seq<Arg>, labels: Asm.Labels, e: Env, pc0: word, m: Core, pg: seq<Page>)
    requires R.Fits(e, pg) && n.LDMW? && Taken(n, k, args, false) && Valued(FormOf(n, k), args, labels)
    ensures Does(n, k, args, labels, e, pc0, m, pg)
  {
    hide Exec, Worth, BankVerdict, LoadWord;
    BankDispatch(Op(n, k), e, LineArgs(FormOf(n, k), args, labels), pc0, m, pg);
  }

  // --------------------------------------------------------------- mnemonics of one form

  /** The value, if any, is written last, and no register number stands behind the code. */
  predicate ValueLast(s: Shape)
  {
    match s
    case Bare => true
    case One(a) => !a.KRcanon?
    case Two(a, b) => Width(a) == 0 && !a.KRcanon? && !b.KRcanon?
  }

  lemma OnlyShapes(x: Sel)
    requires !Shared(x) && !x.Stx?
    ensures ValueLast(OnlyFormOf(x))
  {
    hide Shared;
  }

  /** Registers and number stand where they are written. */
  lemma OnlyArgs(s: Shape, args: seq<Arg>, labels: Asm.Labels)
    requires Takes(s, args, false) && Valued(s, args, labels) && ValueLast(s)
    ensures var v := LastNumber(args, labels);
      LineArgs(s, args, labels)
      == Args(FirstReg(args), SecondReg(args), Low8(v), if v < 256 then 0 else Low8(v / 256))
  {
    hide Worth, NumberOf, B.Signed;
    SlotFitted(s, args);
    var v := SlotOf(s, args);
    if v.Slot? {
      NumbersHeld(v, labels);
    } else {
      NoNumber(s, args, labels);
    }
  }

  lemma NoNumber(s: Shape, args: seq<Arg>, labels: Asm.Labels)
    requires Takes(s, args, false) && SlotOf(s, args).NoSlot?
    ensures LastNumber(args, labels) == 0
  {
  }

  lemma OnlyDoes(x: Sel, k: nat, args: seq<Arg>, labels: Asm.Labels, e: Env, pc0: word, m: Core, pg: seq<Page>)
    requires R.Fits(e, pg) && !NamesPlaces(x)
    requires Taken(Only(x), k, args, false) && Valued(FormOf(Only(x), k), args, labels)
    ensures Does(Only(x), k, args, labels, e, pc0, m, pg)
  {
    hide Exec, Worth, LineArgs, FirstReg, SecondReg, LastNumber, OnlyFormOf, Shared, ValueLast, Takes, Valued;
    OnlyShapes(x);
    OnlyArgs(OnlyFormOf(x), args, labels);
  }

  lemma FrameDoes(x: Sel, k: nat, args: seq<Arg>, labels: Asm.Labels, e: Env, pc0: word, m: Core, pg: seq<Page>)
    requires R.Fits(e, pg) && (x.Ldx? || x.Stx?)
    requires Taken(Only(x), k, args, false) && Valued(FormOf(Only(x), k), args, labels)
    ensures Does(Only(x), k, args, labels, e, pc0, m, pg)
  {
    hide Exec, Worth, LoadReg, StoreReg, B.Signed;
    MemoryDispatch(x, e, LineArgs(FormOf(Only(x), k), args, labels), pc0, m, pg);
    SlotFitted(FormOf(Only(x), k), args);
    NumbersHeld(SlotOf(FormOf(Only(x), k), args), labels);
  }

  lemma DistanceDoes(x: Sel, k: nat, args: seq<Arg>, labels: Asm.Labels, e: Env, pc0: word, m: Core, pg: seq<Page>)
    requires R.Fits(e, pg) && (x.Js? || x.Jns? || x.Vs? || x.Vc?)
    requires Taken(Only(x), k, args, false) && Valued(FormOf(Only(x), k), args, labels)
    ensures Does(Only(x), k, args, labels, e, pc0, m, pg)
  {
    hide Exec, Worth, Branch, B.Signed, NumberOf;
    BranchDispatch(x, e, LineArgs(FormOf(Only(x), k), args, labels), pc0, m, pg);
    SlotFitted(FormOf(Only(x), k), args);
    NumbersHeld(SlotOf(FormOf(Only(x), k), args), labels);
  }

  lemma CodeDoes(x: Sel, k: nat, args: seq<Arg>, labels: Asm.Labels, e: Env, pc0: word, m: Core, pg: seq<Page>)
    requires R.Fits(e, pg) && (x.Ldc? || x.Stc?)
    requires Taken(Only(x), k, args, false) && Valued(FormOf(Only(x), k), args, labels)
    ensures Does(Only(x), k, args, labels, e, pc0, m, pg)
  {
    hide Exec, Worth;
    CodeDispatch(x, e, LineArgs(FormOf(Only(x), k), args, labels), pc0, m, pg);
  }

  lemma WindowDoes(x: Sel, k: nat, args: seq<Arg>, labels: Asm.Labels, e: Env, pc0: word, m: Core, pg: seq<Page>)
    requires R.Fits(e, pg) && (x.Ldm? || x.Stm?)
    requires Taken(Only(x), k, args, false) && Valued(FormOf(Only(x), k), args, labels)
    ensures Does(Only(x), k, args, labels, e, pc0, m, pg)
  {
    hide Exec, Worth, BankVerdict, PageRegions, Covered;
    WindowDispatch(x, e, LineArgs(FormOf(Only(x), k), args, labels), pc0, m, pg);
  }

  lemma PointersDo(x: Sel, k: nat, args: seq<Arg>, labels: Asm.Labels, e: Env, pc0: word, m: Core, pg: seq<Page>)
    requires R.Fits(e, pg) && (x.DecHl? || x.Xchg?)
    requires Taken(Only(x), k, args, false) && Valued(FormOf(Only(x), k), args, labels)
    ensures Does(Only(x), k, args, labels, e, pc0, m, pg)
  {
    hide Exec, Worth;
    SwapDispatch(x, e, LineArgs(FormOf(Only(x), k), args, labels), pc0, m, pg);
  }

  /** Every form of every mnemonic: the selector it is encoded as does what the line says. */
  lemma FormDoes(n: Mnemonic, k: nat, args: seq<Arg>, labels: Asm.Labels, e: Env, pc0: word, m: Core, pg: seq<Page>)
    requires R.Fits(e, pg) && Taken(n, k, args, false) && Valued(FormOf(n, k), args, labels)
    ensures Does(n, k, args, labels, e, pc0, m, pg)
  {
    hide Does, Takes, Valued, FormOf, Shared, Legal;
    match n
    case Only(x) =>
      if x.Ldx? || x.Stx? {
        FrameDoes(x, k, args, labels, e, pc0, m, pg);
      } else if x.Js? || x.Jns? || x.Vs? || x.Vc? {
        DistanceDoes(x, k, args, labels, e, pc0, m, pg);
      } else if x.DecHl? || x.Xchg? {
        PointersDo(x, k, args, labels, e, pc0, m, pg);
      } else if x.Ldc? || x.Stc? {
        CodeDoes(x, k, args, labels, e, pc0, m, pg);
      } else if x.Ldm? || x.Stm? {
        WindowDoes(x, k, args, labels, e, pc0, m, pg);
      } else {
        OnlyDoes(x, k, args, labels, e, pc0, m, pg);
      }
    case MOV =>
      if k < 3 {
        MovBytesDo(n, k, args, labels, e, pc0, m, pg);
      } else if k < 5 {
        MovCellsDo(n, k, args, labels, e, pc0, m, pg);
      } else {
        MovPointersDo(n, k, args, labels, e, pc0, m, pg);
      }
    case MOVW =>
      if k < 4 {
        MovwCopies(n, k, args, labels, e, pc0, m, pg);
      } else {
        MovwSets(n, k, args, labels, e, pc0, m, pg);
      }
    case LDI =>
      if k < 2 {
        LdiPointersDo(n, k, args, labels, e, pc0, m, pg);
      } else {
        LdiDoes(n, k, args, labels, e, pc0, m, pg);
      }
    case ADDI =>
      if k < 2 {
        AddiPointersDo(n, k, args, labels, e, pc0, m, pg);
      } else {
        AddiDoes(n, k, args, labels, e, pc0, m, pg);
      }
    case ADD =>
      if k < 2 {
        AddDoes(n, k, args, labels, e, pc0, m, pg);
      } else {
        AddSpDoes(n, k, args, labels, e, pc0, m, pg);
      }
    case SUB => SubDoes(n, k, args, labels, e, pc0, m, pg);
    case INC => IncDoes(n, k, args, labels, e, pc0, m, pg);
    case PUSHW | POPW => StackDoes(n, k, args, labels, e, pc0, m, pg);
    case CALL => CallDoes(n, k, args, labels, e, pc0, m, pg);
    case STW => StwDoes(n, k, args, labels, e, pc0, m, pg);
    case LDW => LdwDoes(n, k, args, labels, e, pc0, m, pg);
    case STMW => StmwDoes(n, k, args, labels, e, pc0, m, pg);
    case LDMW => LdmwDoes(n, k, args, labels, e, pc0, m, pg);
  }

  // ------------------------------------------------------------- fetched and executed

  /** The bytes of a line stand in CODE at PC, inside the image. */
  predicate Loaded(b: seq<byte>, cf: Config, m: Core)
  {
    m.pc + |b| <= cf.codelen <= CODE_SIZE && m.code[m.pc..m.pc + |b|] == b
  }

  /** The bytes an operand stands for. */
  predicate Carries(o: Asm.Operand, a: Args)
  {
    match o
    case NoOperand => a.i0 == 0 && a.i1 == 0
    case Byte(b) => a.i0 == b && a.i1 == 0
    case Word16(w) => T16(a) == w
    case Ref(_) => false
  }

  /** The disassembler shows at every address what the machine would fetch there: the same selector,
      registers and operand up to the same next address, or the reason there is nothing to run. */
  lemma ShownIsFetched(cf: Config, m: Core)
    requires Legal(cf) && m.pc < cf.codelen
    ensures var n := Asm.DecodeAt(m.code, m.pc, cf.codelen);
      match Fetch(cf, m)
      case Decoded(sel, a, fall) =>
        && n.shown.Decoded? && n.shown.i.sel == sel && n.shown.i.d == a.s0 && n.shown.i.s == a.s1
        && Carries(n.shown.i.arg, a) && fall == m.pc + n.len
      case Refused(cause) =>
        if cause.FetchOob? then n.shown.Truncated? && n.len == cf.codelen - m.pc
        else n.shown.Undefined? && (if cause.BadSubcode? then n.len == 2 else cause.BadOpcode? && n.len == 1)
  {
    hide SingleRow, EscapeRow;
  }

  /** The machine fetches the encoded selector with the line's registers and value. */
  lemma LineFetches(n: Mnemonic, args: seq<Arg>, labels: Asm.Labels, cf: Config, m: Core)
    requires Legal(cf) && Emitted(n, args, labels, true).Some? && Loaded(Emitted(n, args, labels, true).value, cf, m)
    ensures Match(n, args, false).Some?
    ensures var k, b := Match(n, args, false).value, Emitted(n, args, labels, true).value;
      && Taken(n, k, args, false) && Valued(FormOf(n, k), args, labels)
      && Fetch(cf, m) == Decoded(Op(n, k), LineArgs(FormOf(n, k), args, labels), m.pc + |b|)
  {
    hide FormOf, Op, Takes, Match, Fitting, Asm.CodeBytes, Asm.Table, Asm.OperandBytes, SingleRow, EscapeRow, Worth,
         SlotOf, FieldD, FieldS, Legal;
    MatchTakes(n, args);
    var k, b := Match(n, args, false).value, Emitted(n, args, labels, true).value;
    FormsFit(n, k);
    var s := FormOf(n, k);
    SlotFitted(s, args);
    SecondEmits(n, args, labels);
    var i := Meaning(n, args, labels.Keys).value;
    Asm.CodeSelects(i);
    var c := Asm.CodeBytes(i.sel, i.d, i.s);
    CodeHeld(b, c, m);
    ValueHeld(s, args, i.sel);
    assert i.sel == Op(n, k) && i.d == FieldD(s, args) && i.s == FieldS(s, args);
    Asm.CodeLength(i);
    var v := SlotOf(s, args);
    assert |b| == |c| + Asm.OperandBytes(i.sel);
    assert v.Slot? ==> b[|c|..] == Tail(v, Worth(v, labels, true).value);
    assert v.Slot? ==> b[|c|] == b[|c|..][0];
    assert v.Slot? && Width(v.kind) == 2 ==> b[|c| + 1] == b[|c|..][1];
  }

  lemma CodeHeld(b: seq<byte>, c: seq<byte>, m: Core)
    requires c <= b && m.pc + |b| <= CODE_SIZE && m.code[m.pc..m.pc + |b|] == b
    ensures forall j :: 0 <= j < |b| ==> m.code[m.pc + j] == b[j]
    ensures forall j :: 0 <= j < |c| ==> b[j] == c[j]
  {
    forall j | 0 <= j < |b| ensures m.code[m.pc + j] == b[j] {
      assert m.code[m.pc..m.pc + |b|][j] == m.code[m.pc + j];
    }
  }

  /** As many operand bytes as the kind of the value is wide. */
  lemma ValueHeld(s: Shape, args: seq<Arg>, x: Sel)
    requires Takes(s, args, false) && !x.Bad? && Fitting(s, x)
    ensures Asm.OperandBytes(x) == (if SlotOf(s, args).NoSlot? then 0 else Width(SlotOf(s, args).kind))
  {
    hide Asm.Table, Asm.OperandBytes;
  }

  /** A line's bytes, fetched and executed, do what the line says of its operands. */
  lemma LineDoes(n: Mnemonic, args: seq<Arg>, labels: Asm.Labels, e: Env, m: Core, pg: seq<Page>)
    requires R.Fits(e, pg) && Emitted(n, args, labels, true).Some?
    requires Loaded(Emitted(n, args, labels, true).value, e.cf, m)
    ensures var fall := m.pc + |Emitted(n, args, labels, true).value|;
      Step(e, m, pg) == Effect(n, args, labels, e, m.pc, m.(pc := fall), pg)
  {
    hide Exec, Effect, Fetch, Emitted, Takes, FormOf, Count, Legal, Match, Op, LineArgs, Valued;
    LineFetches(n, args, labels, e.cf, m);
    var k, fall := Match(n, args, false).value, m.pc + |Emitted(n, args, labels, true).value|;
    FormDoes(n, k, args, labels, e, m.pc, m.(pc := fall), pg);
  }

  // ---------------------------------------------------------------- a whole source

  /** A line is as long in either pass, whatever labels are known. */
  lemma SameLength(n: Mnemonic, args: seq<Arg>, one: Asm.Labels, two: Asm.Labels)
    ensures var b, c := Emitted(n, args, one, false), Emitted(n, args, two, true);
      b.Some? && c.Some? ==> |b.value| == |c.value|
  {
    hide FormOf, Op, Takes, SlotOf, FieldD, FieldS, Match, Worth, Asm.CodeBytes;
  }

  /** The part of a source in front of line `k`, line `k`, and the rest are emitted one behind the other. */
  lemma {:induction false} SecondPassParts(lines: seq<Line>, k: nat, labels: Asm.Labels)
    requires k < |lines| && SecondPass(lines, labels).Some?
    ensures SecondPass(lines[..k], labels).Some? && SecondPass(lines[k + 1..], labels).Some?
    ensures lines[k].Code? ==> Emitted(lines[k].n, lines[k].args, labels, true).Some?
    ensures var line := if lines[k].Code? then Emitted(lines[k].n, lines[k].args, labels, true).value else [];
      SecondPass(lines, labels).value
      == SecondPass(lines[..k], labels).value + line + SecondPass(lines[k + 1..], labels).value
  {
    hide Emitted;
    if k == 0 {
      assert lines[..0] == [] && lines[1..] == lines[k + 1..];
    } else {
      SecondPassParts(lines[1..], k - 1, labels);
      assert lines[..k][0] == lines[0] && lines[..k][1..] == lines[1..][..k - 1];
      assert lines[1..][k..] == lines[k + 1..];
    }
  }

  /** Labels stand for the addresses of what is emitted behind them. */
  lemma {:induction false} FirstPassStands(lines: seq<Line>, at: nat, labels: Asm.Labels, done: Asm.Labels)
    requires FirstPass(lines, at, labels) == Some(done) && SecondPass(lines, done).Some?
    ensures forall n :: n in labels ==> n in done && done[n] == labels[n]
    ensures forall j :: 0 <= j < |lines| && lines[j].Label? ==>
      && lines[j].name in done && SecondPass(lines[..j], done).Some?
      && done[lines[j].name] == at + |SecondPass(lines[..j], done).value|
  {
    hide Emitted;
    if lines != [] {
      var rest := lines[1..];
      var more := if lines[0].Label? then labels[lines[0].name := at] else labels;
      var size := if lines[0].Code? then |Emitted(lines[0].n, lines[0].args, labels, false).value| else 0;
      if lines[0].Code? {
        SameLength(lines[0].n, lines[0].args, labels, done);
      }
      FirstPassStands(rest, at + size, more, done);
      forall j | 0 <= j < |lines| && lines[j].Label?
        ensures lines[j].name in done && SecondPass(lines[..j], done).Some?
        ensures done[lines[j].name] == at + |SecondPass(lines[..j], done).value|
      {
        if j > 0 {
          assert lines[j] == rest[j - 1];
          assert lines[..j][0] == lines[0] && lines[..j][1..] == rest[..j - 1];
        }
      }
    }
  }

  /** Where line `k` of an assembled source stands, and the labels of the source. */
  function LabelsOf(lines: seq<Line>): Asm.Labels
    requires Assembled(lines).Some?
  {
    FirstPass(lines, 0, map[]).value
  }

  function Start(lines: seq<Line>, k: nat): nat
    requires Assembled(lines).Some? && k < |lines|
  {
    SecondPassParts(lines, k, LabelsOf(lines));
    |SecondPass(lines[..k], LabelsOf(lines)).value|
  }

  /** A machine that stands at a line of an assembled source, its image still in CODE, does what the line
      says, and every label in it is the address of what follows the label. */
  lemma SourceDoes(lines: seq<Line>, k: nat, e: Env, m: Core, pg: seq<Page>)
    requires Assembled(lines).Some? && k < |lines| && lines[k].Code? && R.Fits(e, pg)
    requires var image := Assembled(lines).value; |image| <= e.cf.codelen && m.code[..|image|] == image
    requires m.pc == Start(lines, k)
    ensures forall j :: 0 <= j < |lines| && lines[j].Label? ==>
      lines[j].name in LabelsOf(lines) && LabelsOf(lines)[lines[j].name] == Start(lines, j)
    ensures exists fall: word ::
      && m.pc < fall && (k + 1 < |lines| ==> fall == Start(lines, k + 1))
      && Step(e, m, pg) == Effect(lines[k].n, lines[k].args, LabelsOf(lines), e, m.pc, m.(pc := fall), pg)
  {
    hide FirstPass, SecondPass, Emitted, Effect, Step;
    var labels, image := LabelsOf(lines), Assembled(lines).value;
    FirstPassStands(lines, 0, map[], labels);
    forall j | 0 <= j < |lines| && lines[j].Label?
      ensures lines[j].name in labels && labels[lines[j].name] == Start(lines, j)
    {
    }
    SecondPassParts(lines, k, labels);
    var at, b := Start(lines, k), Emitted(lines[k].n, lines[k].args, labels, true).value;
    Slice(m.code, image, at, b, SecondPass(lines[k + 1..], labels).value, SecondPass(lines[..k], labels).value);
    LineDoes(lines[k].n, lines[k].args, labels, e, m, pg);
    NotEmpty(lines[k].n, lines[k].args, labels);
    if k + 1 < |lines| {
      NextStart(lines, k, labels);
    }
    var fall: word := m.pc + |b|;
    assert Step(e, m, pg) == Effect(lines[k].n, lines[k].args, labels, e, m.pc, m.(pc := fall), pg);
  }

  lemma Slice(code: seq<byte>, image: seq<byte>, at: nat, b: seq<byte>, rest: seq<byte>, front: seq<byte>)
    requires |image| <= |code| && code[..|image|] == image && image == front + b + rest && |front| == at
    ensures at + |b| <= |image| && code[at..at + |b|] == b
  {
    assert code[at..at + |b|] == code[..|image|][at..at + |b|];
    assert (front + b + rest)[at..at + |b|] == b;
  }

  lemma NotEmpty(n: Mnemonic, args: seq<Arg>, labels: Asm.Labels)
    ensures var b := Emitted(n, args, labels, true); b.Some? ==> b.value != []
  {
    hide FormOf, Op, Takes, SlotOf, FieldD, FieldS, Match, Worth, Asm.Table;
  }

  lemma NextStart(lines: seq<Line>, k: nat, labels: Asm.Labels)
    requires Assembled(lines).Some? && labels == LabelsOf(lines) && k + 1 < |lines| && lines[k].Code?
    ensures Emitted(lines[k].n, lines[k].args, labels, true).Some?
    ensures Start(lines, k + 1) == Start(lines, k) + |Emitted(lines[k].n, lines[k].args, labels, true).value|
  {
    hide FirstPass, Emitted;
    SecondPassParts(lines, k, labels);
    SecondPassParts(lines, k + 1, labels);
    var front := lines[..k + 1];
    SecondPassParts(front, k, labels);
    assert front[..k] == lines[..k] && front[k] == lines[k] && front[k + 1..] == [];
  }
}
