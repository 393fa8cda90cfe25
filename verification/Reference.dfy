/** The machine's transition on values: what one tick of the reference does to the core
    state and to the DATA pages it can reach. The in-place machine, the tensor datapath and
    the kernel are each proved against this function. */
module Reference {
  import opened Bits
  import opened Isa

  type Page = p: seq<byte> | |p| == DATA_SIZE witness seq(DATA_SIZE, _ => 0)
  type Image = c: seq<byte> | |c| == CODE_SIZE witness seq(CODE_SIZE, _ => 0)
  type Regs = r: seq<byte> | |r| == 4 witness [0, 0, 0, 0]

  datatype Status = Running | Halted | Overrun | Error

  /** The number a status is stored and published as. */
  function StatusCode(s: Status): nat
  {
    match s case Running => 0 case Halted => 1 case Overrun => 2 case Error => 3
  }

  /** Everything a machine holds besides DATA. */
  datatype Core = Core(
    r: Regs, hl: word, de: word, mb: word, pc: word, sp: address,
    c: bit, z: bit, s: bit, v: bit,
    td: nat, stcCount: nat, stcFirst: word, ipos: nat, tick: nat,
    status: Status, reason: Cause, faultAddr: word,
    code: Image, out: seq<byte>)

  /** The bank set a machine was handed: its own index, the owners' statuses at the tick
      boundary and the regions each page declares. A lone machine was handed neither. */
  datatype Bank = Bank(own: nat, statuses: Option<seq<Status>>, regions: Option<seq<seq<Region>>>)

  const Alone := Bank(0, None, None)

  datatype Env = Env(cf: Config, inputs: seq<byte>, bank: Bank)

  predicate Fits(e: Env, pg: seq<Page>) { Legal(e.cf) && e.bank.own < |pg| }

  datatype Outcome = Fault(cause: Cause) | Next(m: Core, pg: seq<Page>)

  datatype Args = Args(s0: reg, s1: reg, i0: byte, i1: byte)

  function T16(a: Args): word { Word(a.i0, a.i1) }

  // ------------------------------------------------------------------ memory

  function Data(e: Env, pg: seq<Page>): Page
    requires e.bank.own < |pg|
  {
    pg[e.bank.own]
  }

  function Put(pg: seq<Page>, k: nat, a: int, v: byte): seq<Page>
    requires k < |pg| && 0 <= a < DATA_SIZE
  {
    pg[k := pg[k][a := v]]
  }

  function Load16(p: Page, a: int): word
    requires 0 <= a && a + 1 < DATA_SIZE
  {
    Word(p[a], p[a + 1])
  }

  function Put16(pg: seq<Page>, k: nat, a: int, v: word): seq<Page>
    requires k < |pg| && 0 <= a && a + 1 < DATA_SIZE
  {
    Put(Put(pg, k, a, v % 256), k, a + 1, v / 256)
  }

  /** What the ownership rule answers for the page the selector names. */
  function BankVerdict(e: Env, pages: nat, mb: word): (v: Cause)
    ensures v.Ok? || v.BankOob? || v.BankBusy?
  {
    if mb >= e.cf.nbanks || mb >= pages then BankOob
    else if mb == e.bank.own then Ok
    else if e.bank.statuses.None? || mb >= |e.bank.statuses.value|
            || e.bank.statuses.value[mb].Running? then BankBusy
    else Ok
  }

  /** The regions a store into page `mb` passes through: the page owner's. */
  function PageRegions(e: Env, mb: word): seq<Region>
  {
    if mb == e.bank.own then e.cf.regions
    else if e.bank.regions.None? || mb >= |e.bank.regions.value| then []
    else e.bank.regions.value[mb]
  }

  // --------------------------------------------------------------- flags, ALU

  function FlagsByte(z: bit, c: bit, s: bit, v: bit): byte
  {
    FlagsByteIsSum(z, c, s, v);
    Or(Or(Or(z, 2 * c), 4 * s), 8 * v)
  }

  lemma FlagsByteIsSum(z: bit, c: bit, s: bit, v: bit)
    ensures Or(Or(Or(z, 2 * c), 4 * s), 8 * v) == z + 2 * c + 4 * s + 8 * v
  {
    var zc: nat := z + 2 * c;
    var zcs: nat := zc + 4 * s;
    assert Or(z, 2 * c) == zc by { OrAboveBy(z, c, 1, 2); }
    assert Or(zc, 4 * s) == zcs by { OrAboveBy(zc, s, 2, 4); }
    assert Or(zcs, 8 * v) == zcs + 8 * v by { OrAboveBy(zcs, v, 3, 8); }
  }

  function Flag(b: bool): bit { if b then 1 else 0 }

  function Sign(v: byte): bit { v / 128 }

  function OverflowAdd(a: byte, b: byte, v: byte): bit
  {
    AndByte(XorByte(a, v), XorByte(b, v)) / 128
  }

  function OverflowSub(a: byte, b: byte, v: byte): bit
  {
    AndByte(XorByte(a, b), XorByte(v, a)) / 128
  }

  function SetReg(m: Core, d: reg, v: byte): Core { m.(r := m.r[d := v]) }

  /** What the arithmetic unit sees: the destination register's value, the second register's,
      the immediate, the flags, and the low bytes GETPC and GETSP read. */
  datatype AluIn = AluIn(x: byte, y: byte, i: byte, c: bit, z: bit, s: bit, v: bit,
                         pcLow: byte, spLow: byte)

  /** What it answers: whether and what to write back, and the four flags after. */
  datatype AluOut = AluOut(en: bool, w: byte, c: bit, z: bit, s: bit, v: bit)

  /** `x + y + carry`, all four flags. */
  function Sum(x: byte, y: byte, carry: bit): AluOut
  {
    var t: int := x + y + carry;
    var w := Low8(t);
    AluOut(true, w, t / 256, Flag(w == 0), Sign(w), OverflowAdd(x, y, w))
  }

  /** `x - y - borrow`, all four flags. */
  function Difference(x: byte, y: byte, borrow: bit): AluOut
  {
    var t: int := x - y - borrow;
    var w := Low8(t);
    AluOut(true, w, Flag(t < 0), Flag(w == 0), Sign(w), OverflowSub(x, y, w))
  }

  /** A result that sets Z, a result that sets Z and C, and a move that sets nothing. */
  function Logic(u: AluIn, w: byte): AluOut { AluOut(true, w, u.c, Flag(w == 0), u.s, u.v) }

  function Shift(u: AluIn, w: byte, c: bit): AluOut { AluOut(true, w, c, Flag(w == 0), u.s, u.v) }

  function Move(u: AluIn, w: byte): AluOut { AluOut(true, w, u.c, u.z, u.s, u.v) }

  function Quotient(x: byte, y: byte): byte
  {
    if y == 0 then 0 else QuotientByte(x, y); x / y
  }

  function Remainder(x: byte, y: byte): byte
  {
    if y == 0 then 0 else QuotientByte(x, y); x % y
  }

  lemma QuotientByte(x: byte, y: byte)
    requires y != 0
    ensures 0 <= x / y < 256 && 0 <= x % y < 256
  {
    DivisionIdentity(x, y);
    var q := x / y;
    if q >= 256 {
      Distribute(q, 255, y);
      AtLeastOnce(q - 255, y);
    }
  }

  function Product(x: int, y: int): int { x * y }

  function AluArith(sel: Sel, u: AluIn): AluOut
  {
    if sel.Add? then Sum(u.x, u.y, 0)
    else if sel.Sub? then Difference(u.x, u.y, 0)
    else if sel.Adc? then Sum(u.x, u.y, u.c)
    else if sel.Sbb? then Difference(u.x, u.y, u.c)
    else if sel.Cmp? then Difference(u.x, u.y, 0).(en := false, w := u.x, z := Flag(u.x == u.y))
    else if sel.Addi? then Sum(u.x, u.i, 0)
    else if sel.Subi? then Difference(u.x, u.i, 0)
    else Sum(u.x, u.i, u.c)
  }

  function AluLogic(sel: Sel, u: AluIn): AluOut
  {
    if sel.And8? then Logic(u, AndByte(u.x, u.y))
    else if sel.Or8? then Logic(u, OrByte(u.x, u.y))
    else if sel.Xor8? then Logic(u, XorByte(u.x, u.y))
    else if sel.Not? then Logic(u, Low8(-1 - u.x))
    else if sel.Mul? then Shift(u, Low8(Product(u.x, u.y)), Flag(Product(u.x, u.y) > 255))
    else if sel.Mulh? then Logic(u, Low8(Product(u.x, u.y) / 256))
    else if sel.Div? then Logic(u, Quotient(u.x, u.y))
    else Logic(u, Remainder(u.x, u.y))
  }

  function AluUnary(sel: Sel, u: AluIn): AluOut
  {
    var x: int := u.x;
    if sel.Neg? then Shift(u, Low8(0 - x), Flag(x != 0)).(s := Sign(Low8(0 - x)))
    else if sel.Rol? then Shift(u, Low8(Or(2 * x, u.c)), x / 128)
    else if sel.Ror? then Shift(u, Low8(Or(x / 2, 128 * u.c)), x % 2)
    else if sel.Shl? then Shift(u, Low8(2 * x), x / 128)
    else if sel.Shr? then Shift(u, x / 2, x % 2)
    else AluOut(false, u.x, u.c, Flag(x == 0), u.s, u.v)
  }

  function AluMove(sel: Sel, u: AluIn): AluOut
  {
    if sel.Mov? then Move(u, u.y)
    else if sel.GetPc? then Move(u, u.pcLow)
    else if sel.GetSp? then Move(u, u.spLow)
    else if sel.GetF? then Move(u, FlagsByte(u.z, u.c, u.s, u.v))
    else Move(u, u.i)
  }

  /** The nine families of selectors. */
  function Family(sel: Sel): (f: int)
    ensures 0 <= f <= 8 && (f == 8 <==> sel.Bad?)
  {
    match sel
    case Add | Sub | Adc | Sbb | Cmp | Addi | Subi | Adci | And8 | Or8 | Xor8 | Not | Mul | Mulh
       | Div | Mod | Neg | Rol | Ror | Shl | Shr | Tst | Mov | GetPc | GetSp | GetF | Ldi => 0
    case LdiHl | LdiDe | Xchg | MovwHlDe | MovwDeHl | MovwHlSp | MovwDeSp | MovMbHl | MovHlMb
       | Nop | Halt | Clc | IncHl | DecHl | IncDe | AddiHl | AddiDe | AddHlDe | SubHlDe
       | MovwSpHl | MovwSpDe | AddSp => 1
    case Jmp | Jz | Jnz | Jc | Jnc | Js | Jns | Vs | Vc | JpHl | Djnz => 2
    case Call | CallHl | Ret | Push | Pop | PushwHl | PushwDe | PopwHl | PopwDe => 3
    case MovRHl | MovRDe | Ldx | MovHlR | MovDeR | Stx | StwHlDe | StwDeHl | LdwDeHl | LdwHlDe
       | Ldc | Stc => 4
    case Out | OutM | OutDe | In => 5
    case Ldm | Stm | LdmwDeHl | LdmwHlDe | StmwHlDe | StmwDeHl => 6
    case Ext | TrapRet => 7
    case Bad => 8
  }

  predicate IsArith(sel: Sel)
  {
    sel.Add? || sel.Sub? || sel.Adc? || sel.Sbb? || sel.Cmp? || sel.Addi? || sel.Subi? || sel.Adci?
  }

  predicate IsLogic(sel: Sel)
  {
    sel.And8? || sel.Or8? || sel.Xor8? || sel.Not? || sel.Mul? || sel.Mulh? || sel.Div? || sel.Mod?
  }

  predicate IsUnary(sel: Sel)
  {
    sel.Neg? || sel.Rol? || sel.Ror? || sel.Shl? || sel.Shr? || sel.Tst?
  }

  predicate IsMove(sel: Sel) { sel.Mov? || sel.GetPc? || sel.GetSp? || sel.GetF? || sel.Ldi? }

  predicate IsAlu(sel: Sel) { Family(sel) == 0 }

  function AluOf(sel: Sel, u: AluIn): AluOut
  {
    if IsArith(sel) then AluArith(sel, u)
    else if IsLogic(sel) then AluLogic(sel, u)
    else if IsUnary(sel) then AluUnary(sel, u)
    else AluMove(sel, u)
  }

  function AluInputs(m: Core, a: Args, pc0: word): AluIn
  {
    AluIn(m.r[a.s0], m.r[a.s1], a.i0, m.c, m.z, m.s, m.v, pc0 % 256, m.sp % 256)
  }

  function Apply(m: Core, d: reg, o: AluOut): Core
  {
    m.(r := if o.en then m.r[d := o.w] else m.r, c := o.c, z := o.z, s := o.s, v := o.v)
  }

  // ---------------------------------------------------------------- families

  function ExecAlu(sel: Sel, a: Args, pc0: word, m: Core, pg: seq<Page>): Outcome
  {
    if (sel.Div? || sel.Mod?) && m.r[a.s1] == 0 then Fault(DivZero)
    else Next(Apply(m, a.s0, AluOf(sel, AluInputs(m, a, pc0))), pg)
  }

  /** Only the division faults, and only the logic group divides. */
  lemma AluAnswer(sel: Sel, a: Args, pc0: word, m: Core, pg: seq<Page>)
    requires IsAlu(sel)
    ensures IsArith(sel) || IsLogic(sel) || IsUnary(sel) || IsMove(sel)
    ensures IsLogic(sel) && !((sel.Div? || sel.Mod?) && m.r[a.s1] == 0) ==>
      ExecAlu(sel, a, pc0, m, pg) == Next(Apply(m, a.s0, AluLogic(sel, AluInputs(m, a, pc0))), pg)
    ensures (sel.Div? || sel.Mod?) && m.r[a.s1] == 0 ==> ExecAlu(sel, a, pc0, m, pg) == Fault(DivZero)
    ensures !IsLogic(sel) ==>
      ExecAlu(sel, a, pc0, m, pg) == Next(Apply(m, a.s0, AluOf(sel, AluInputs(m, a, pc0))), pg)
  {
    hide AluArith, AluLogic, AluUnary, AluMove, Apply, AluInputs;
  }

  predicate IsCopy(sel: Sel)
  {
    sel.LdiHl? || sel.LdiDe? || sel.Xchg? || sel.MovwHlDe? || sel.MovwDeHl? || sel.MovwHlSp?
    || sel.MovwDeSp? || sel.MovMbHl? || sel.MovHlMb?
  }

  /** The 16-bit moves. */
  function Copied(sel: Sel, m: Core, a: Args): Core
  {
    if sel.LdiHl? then m.(hl := T16(a))
    else if sel.LdiDe? then m.(de := T16(a))
    else if sel.Xchg? then m.(hl := m.de, de := m.hl)
    else if sel.MovwHlDe? then m.(hl := m.de)
    else if sel.MovwDeHl? then m.(de := m.hl)
    else if sel.MovwHlSp? then m.(hl := m.sp)
    else if sel.MovwDeSp? then m.(de := m.sp)
    else if sel.MovMbHl? then m.(mb := m.hl)
    else m.(hl := m.mb)
  }

  predicate IsCount(sel: Sel)
  {
    sel.Nop? || sel.Halt? || sel.Clc? || sel.IncHl? || sel.DecHl? || sel.IncDe? || sel.AddiHl?
    || sel.AddiDe? || sel.AddHlDe? || sel.SubHlDe?
  }

  /** HALT, NOP, CLC and the 16-bit arithmetic. */
  function Counted(sel: Sel, m: Core, a: Args): Core
  {
    if sel.Halt? then m.(status := Halted)
    else if sel.Clc? then m.(c := 0)
    else if sel.IncHl? then m.(hl := Low16(m.hl + 1))
    else if sel.DecHl? then m.(hl := Low16(m.hl - 1))
    else if sel.IncDe? then m.(de := Low16(m.de + 1))
    else if sel.AddiHl? then m.(hl := Low16(m.hl + m.r[a.i0 % 4]))
    else if sel.AddiDe? then m.(de := Low16(m.de + m.r[a.i0 % 4]))
    else if sel.AddHlDe? then m.(c := (m.hl + m.de) / 65536, hl := Low16(m.hl + m.de))
    else if sel.SubHlDe? then m.(c := Flag(m.hl < m.de), hl := Low16(m.hl - m.de))
    else m
  }

  /** A write of the stack pointer, which has to stay inside the span. */
  function SetSp(m: Core, pg: seq<Page>, t: word): Outcome
  {
    if t > DATA_SIZE then Fault(DataOob) else Next(m.(sp := t), pg)
  }

  function ExecPointer(sel: Sel, a: Args, m: Core, pg: seq<Page>): Outcome
  {
    if IsCopy(sel) then Next(Copied(sel, m, a), pg)
    else if IsCount(sel) then Next(Counted(sel, m, a), pg)
    else if sel.MovwSpHl? then SetSp(m, pg, m.hl)
    else if sel.MovwSpDe? then SetSp(m, pg, m.de)
    else SetSp(m, pg, Low16(m.sp + Signed(a.i0)))
  }

  /** A taken branch: the target has to lie inside the image. */
  function Jump(cf: Config, m: Core, pg: seq<Page>, t: word): Outcome
  {
    if t >= cf.codelen then Fault(PcIllegal) else Next(m.(pc := t), pg)
  }

  function Branch(cf: Config, taken: bool, m: Core, pg: seq<Page>, t: word): Outcome
  {
    if taken then Jump(cf, m, pg, t) else Next(m, pg)
  }

  function ExecBranch(sel: Sel, cf: Config, a: Args, m: Core, pg: seq<Page>): Outcome
  {
    var rel := Low16(m.pc + Signed(a.i0));
    if sel.Jmp? then Jump(cf, m, pg, T16(a))
    else if sel.Jz? then Branch(cf, m.z == 1, m, pg, T16(a))
    else if sel.Jnz? then Branch(cf, m.z == 0, m, pg, T16(a))
    else if sel.Jc? then Branch(cf, m.c == 1, m, pg, T16(a))
    else if sel.Jnc? then Branch(cf, m.c == 0, m, pg, T16(a))
    else if sel.Js? then Branch(cf, m.s == 1, m, pg, rel)
    else if sel.Jns? then Branch(cf, m.s == 0, m, pg, rel)
    else if sel.Vs? then Branch(cf, m.v == 1, m, pg, rel)
    else if sel.Vc? then Branch(cf, m.v == 0, m, pg, rel)
    else if sel.JpHl? then Jump(cf, m, pg, m.hl)
    else if sel.Djnz? then
      var x: int := m.r[a.s0];
      var v := Low8(x - 1);
      Branch(cf, v != 0, SetReg(m, a.s0, v), pg, T16(a))
    else Fault(BadOpcode)
  }

  predicate Room(cf: Config, m: Core, n: nat) { cf.splim <= m.sp - n && m.sp <= DATA_SIZE }

  predicate Have(m: Core, n: nat) { m.sp + n <= DATA_SIZE }

  /** One of the `n` cells below the stack pointer is write-protected. */
  predicate StackCovered(cf: Config, m: Core, n: nat)
  {
    n > 0 && (Covered(cf.regions, m.sp - n) || StackCovered(cf, m, n - 1))
  }

  lemma StackCoveredCells(cf: Config, m: Core)
    ensures StackCovered(cf, m, 4) <==>
            Covered(cf.regions, m.sp - 1) || Covered(cf.regions, m.sp - 2)
            || Covered(cf.regions, m.sp - 3) || Covered(cf.regions, m.sp - 4)
    ensures StackCovered(cf, m, 2) <==>
            Covered(cf.regions, m.sp - 1) || Covered(cf.regions, m.sp - 2)
  {
    assert StackCovered(cf, m, 0) == false;
    assert StackCovered(cf, m, 1) <==> Covered(cf.regions, m.sp - 1);
    assert StackCovered(cf, m, 2) <==> Covered(cf.regions, m.sp - 2) || StackCovered(cf, m, 1);
    assert StackCovered(cf, m, 3) <==> Covered(cf.regions, m.sp - 3) || StackCovered(cf, m, 2);
  }

  /** CALL and CALL HL: the return address goes below the stack pointer, low byte first. */
  function CallTo(e: Env, m: Core, pg: seq<Page>, t: word): Outcome
    requires Fits(e, pg)
  {
    if !Room(e.cf, m, 2) then Fault(StackOverflow)
    else if t >= e.cf.codelen then Fault(PcIllegal)
    else if StackCovered(e.cf, m, 2) then Fault(RegionViol)
    else
      var pg1 := Put(pg, e.bank.own, m.sp - 1, m.pc % 256);
      var pg2 := Put(pg1, e.bank.own, m.sp - 2, m.pc / 256);
      Next(m.(sp := m.sp - 2, pc := t), pg2)
  }

  function PushWord(e: Env, m: Core, pg: seq<Page>, v: word): Outcome
    requires Fits(e, pg)
  {
    if !Room(e.cf, m, 2) then Fault(StackOverflow)
    else if StackCovered(e.cf, m, 2) then Fault(RegionViol)
    else Next(m.(sp := m.sp - 2), Put16(pg, e.bank.own, m.sp - 2, v))
  }

  function Return(e: Env, m: Core, pg: seq<Page>): Outcome
    requires Fits(e, pg)
  {
    var d := Data(e, pg);
    if !Have(m, 2) then Fault(StackUnderflow)
    else Jump(e.cf, m.(sp := m.sp + 2), pg, Word(d[m.sp + 1], d[m.sp]))
  }

  function PushByte(e: Env, m: Core, pg: seq<Page>, v: byte): Outcome
    requires Fits(e, pg)
  {
    if !Room(e.cf, m, 1) then Fault(StackOverflow)
    else if Covered(e.cf.regions, m.sp - 1) then Fault(RegionViol)
    else Next(m.(sp := m.sp - 1), Put(pg, e.bank.own, m.sp - 1, v))
  }

  function PopByte(e: Env, m: Core, pg: seq<Page>, d: reg): Outcome
    requires Fits(e, pg)
  {
    if !Have(m, 1) then Fault(StackUnderflow)
    else Next(SetReg(m, d, Data(e, pg)[m.sp]).(sp := m.sp + 1), pg)
  }

  function PopWord(e: Env, m: Core, pg: seq<Page>, intoHl: bool): Outcome
    requires Fits(e, pg)
  {
    if !Have(m, 2) then Fault(StackUnderflow)
    else
      var w := Load16(Data(e, pg), m.sp);
      Next(if intoHl then m.(hl := w, sp := m.sp + 2) else m.(de := w, sp := m.sp + 2), pg)
  }

  function ExecStack(sel: Sel, e: Env, a: Args, m: Core, pg: seq<Page>): Outcome
    requires Fits(e, pg)
  {
    if sel.Call? then CallTo(e, m, pg, T16(a))
    else if sel.CallHl? then CallTo(e, m, pg, m.hl)
    else if sel.Ret? then Return(e, m, pg)
    else if sel.Push? then PushByte(e, m, pg, m.r[a.s0])
    else if sel.Pop? then PopByte(e, m, pg, a.s0)
    else if sel.PushwHl? then PushWord(e, m, pg, m.hl)
    else if sel.PushwDe? then PushWord(e, m, pg, m.de)
    else PopWord(e, m, pg, sel.PopwHl?)
  }

  function LoadReg(e: Env, m: Core, pg: seq<Page>, d: reg, addr: word): Outcome
    requires Fits(e, pg)
  {
    if addr >= DATA_SIZE then Fault(DataOob) else Next(SetReg(m, d, Data(e, pg)[addr]), pg)
  }

  function StoreReg(e: Env, m: Core, pg: seq<Page>, addr: word, v: byte): Outcome
    requires Fits(e, pg)
  {
    if addr >= DATA_SIZE then Fault(DataOob)
    else if Covered(e.cf.regions, addr) then Fault(RegionViol)
    else Next(m, Put(pg, e.bank.own, addr, v))
  }

  function StoreWord(e: Env, m: Core, pg: seq<Page>, addr: word, v: word): Outcome
    requires Fits(e, pg)
  {
    if addr + 1 >= DATA_SIZE then Fault(DataOob)
    else if Covered(e.cf.regions, addr) || Covered(e.cf.regions, addr + 1) then Fault(RegionViol)
    else Next(m, Put16(pg, e.bank.own, addr, v))
  }

  /** LDW and the bank's LDMW read a pair into the pointer the address did not come from. */
  function LoadWord(p: Page, m: Core, pg: seq<Page>, addr: word, intoHl: bool): Outcome
  {
    if addr + 1 >= DATA_SIZE then Fault(DataOob)
    else Next(if intoHl then m.(hl := Load16(p, addr)) else m.(de := Load16(p, addr)), pg)
  }

  function LoadCode(cf: Config, m: Core, pg: seq<Page>, d: reg): Outcome
    requires Legal(cf)
  {
    if m.hl >= cf.codelen then Fault(CodeOob) else Next(SetReg(m, d, m.code[m.hl]), pg)
  }

  /** A committed STC writes one CODE byte and accounts for it. */
  function StoreCode(cf: Config, m: Core, pg: seq<Page>, v: byte): Outcome
    requires Legal(cf)
  {
    if m.hl >= cf.codelen then Fault(CodeOob)
    else if !(cf.winlo <= m.hl < cf.winhi) then Fault(Window)
    else Next(m.(code := m.code[m.hl := v],
                 stcFirst := if m.stcCount == 0 then m.hl else m.stcFirst,
                 stcCount := m.stcCount + 1), pg)
  }

  function Frame(m: Core, a: Args): word { Low16(m.hl + Signed(a.i0)) }

  function ExecMemory(sel: Sel, e: Env, a: Args, m: Core, pg: seq<Page>): Outcome
    requires Fits(e, pg)
  {
    if sel.MovRHl? then LoadReg(e, m, pg, a.s0, m.hl)
    else if sel.MovRDe? then LoadReg(e, m, pg, a.s0, m.de)
    else if sel.Ldx? then LoadReg(e, m, pg, a.s0, Frame(m, a))
    else if sel.MovHlR? then StoreReg(e, m, pg, m.hl, m.r[a.s0])
    else if sel.MovDeR? then StoreReg(e, m, pg, m.de, m.r[a.s0])
    else if sel.Stx? then StoreReg(e, m, pg, Frame(m, a), m.r[a.s0])
    else if sel.StwHlDe? then StoreWord(e, m, pg, m.hl, m.de)
    else if sel.StwDeHl? then StoreWord(e, m, pg, m.de, m.hl)
    else if sel.LdwDeHl? then LoadWord(Data(e, pg), m, pg, m.hl, false)
    else if sel.LdwHlDe? then LoadWord(Data(e, pg), m, pg, m.de, true)
    else if sel.Ldc? then LoadCode(e.cf, m, pg, a.s0)
    else StoreCode(e.cf, m, pg, m.r[a.s0])
  }

  function Emit(cf: Config, m: Core, pg: seq<Page>, v: byte): Outcome
  {
    if |m.out| >= cf.outcap then Fault(OutCap) else Next(m.(out := m.out + [v]), pg)
  }

  /** OUTM and OUTDE: emit the byte a pointer names and step the pointer. */
  function EmitThrough(e: Env, m: Core, pg: seq<Page>, throughHl: bool): Outcome
    requires Fits(e, pg)
  {
    var addr := if throughHl then m.hl else m.de;
    if addr >= DATA_SIZE then Fault(DataOob)
    else
      var m' := if throughHl then m.(hl := Low16(addr + 1)) else m.(de := Low16(addr + 1));
      Emit(e.cf, m', pg, Data(e, pg)[addr])
  }

  /** IN at the end of the stream loads 0 and sets carry. */
  function Input(e: Env, m: Core, pg: seq<Page>, d: reg): Outcome
  {
    if m.ipos < |e.inputs| then Next(SetReg(m, d, e.inputs[m.ipos]).(ipos := m.ipos + 1), pg)
    else Next(SetReg(m, d, 0).(c := 1), pg)
  }

  function ExecStream(sel: Sel, e: Env, a: Args, m: Core, pg: seq<Page>): Outcome
    requires Fits(e, pg)
  {
    if sel.Out? then Emit(e.cf, m, pg, m.r[a.s0])
    else if sel.In? then Input(e, m, pg, a.s0)
    else EmitThrough(e, m, pg, sel.OutM?)
  }

  function BankLoad(m: Core, pg: seq<Page>, d: reg): Outcome
    requires m.mb < |pg|
  {
    if m.hl >= DATA_SIZE then Fault(DataOob) else Next(SetReg(m, d, pg[m.mb][m.hl]), pg)
  }

  function BankStore(e: Env, m: Core, pg: seq<Page>, v: byte): Outcome
    requires m.mb < |pg|
  {
    if m.hl >= DATA_SIZE then Fault(DataOob)
    else if Covered(PageRegions(e, m.mb), m.hl) then Fault(RegionViol)
    else Next(m, Put(pg, m.mb, m.hl, v))
  }

  function BankStore16(e: Env, m: Core, pg: seq<Page>, addr: word, v: word): Outcome
    requires Fits(e, pg) && m.mb < |pg|
  {
    if addr + 1 >= DATA_SIZE then Fault(DataOob)
    else if Covered(PageRegions(e, m.mb), addr) || Covered(PageRegions(e, m.mb), addr + 1) then
      Fault(RegionViol)
    else Next(m, Put16(pg, m.mb, addr, v))
  }

  function ExecBank(sel: Sel, e: Env, a: Args, m: Core, pg: seq<Page>): Outcome
    requires Fits(e, pg)
  {
    var verdict := BankVerdict(e, |pg|, m.mb);
    if !verdict.Ok? then Fault(verdict)
    else if sel.Ldm? then BankLoad(m, pg, a.s0)
    else if sel.Stm? then BankStore(e, m, pg, m.r[a.s0])
    else if sel.LdmwDeHl? then LoadWord(pg[m.mb], m, pg, m.hl, false)
    else if sel.LdmwHlDe? then LoadWord(pg[m.mb], m, pg, m.de, true)
    else if sel.StmwHlDe? then BankStore16(e, m, pg, m.hl, m.de)
    else BankStore16(e, m, pg, m.de, m.hl)
  }

  /** The vector EXT dispatches through: the declared DATA table, else the block's. */
  function Vector(e: Env, pg: seq<Page>, k: nat): word
    requires Fits(e, pg) && k < VEC_COUNT
  {
    if e.cf.vtab.None? then e.cf.vec[k]
    else Load16(Data(e, pg), e.cf.vtab.value + 2 * k)
  }

  /** The four bytes of a trap frame, written downwards from the stack pointer. */
  function PushFrame(pg: seq<Page>, own: nat, sp: address, flags: byte, ret: word): seq<Page>
    requires own < |pg| && 4 <= sp
  {
    var p1 := Put(pg, own, sp - 1, TRAP_TAG);
    var p2 := Put(p1, own, sp - 2, flags);
    var p3 := Put(p2, own, sp - 3, ret % 256);
    Put(p3, own, sp - 4, ret / 256)
  }

  function EnterAt(e: Env, t: word, m: Core, pg: seq<Page>): Outcome
    requires Fits(e, pg)
  {
    if !Room(e.cf, m, 4) then Fault(StackOverflow)
    else if t >= e.cf.codelen then Fault(PcIllegal)
    else if StackCovered(e.cf, m, 4) then Fault(RegionViol)
    else
      var pg' := PushFrame(pg, e.bank.own, m.sp, FlagsByte(m.z, m.c, m.s, m.v), m.pc);
      Next(m.(sp := m.sp - 4, pc := t, td := m.td + 1), pg')
  }

  function TrapEnter(e: Env, k: byte, m: Core, pg: seq<Page>): Outcome
    requires Fits(e, pg)
  {
    if k >= VEC_COUNT then Fault(TrapUnreg)
    else
      var t := Vector(e, pg, k);
      if t == 0 then Fault(TrapUnreg)
      else if m.td == e.cf.tdlim then Fault(TrapDepth)
      else EnterAt(e, t, m, pg)
  }

  /** The flags come back out of the packed byte. */
  function Unpacked(m: Core, f: byte): Core
  {
    m.(z := f % 2, c := f / 2 % 2, s := f / 4 % 2, v := f / 8 % 2)
  }

  function TrapLeave(e: Env, m: Core, pg: seq<Page>): Outcome
    requires Fits(e, pg)
  {
    var d := Data(e, pg);
    if m.td == 0 then Fault(TrapUnbalanced)
    else if !Have(m, 4) then Fault(StackUnderflow)
    else if d[m.sp + 3] != TRAP_TAG then Fault(TrapFrame)
    else
      Jump(e.cf, Unpacked(m, d[m.sp + 2]).(sp := m.sp + 4, td := m.td - 1), pg,
           Word(d[m.sp + 1], d[m.sp]))
  }

  function ExecTrap(sel: Sel, e: Env, a: Args, m: Core, pg: seq<Page>): Outcome
    requires Fits(e, pg)
  {
    if sel.Ext? then TrapEnter(e, a.i0, m, pg) else TrapLeave(e, m, pg)
  }

  // --------------------------------------------------------- decode and step

  predicate IsPointer(sel: Sel) { Family(sel) == 1 }

  predicate IsBranch(sel: Sel) { Family(sel) == 2 }

  predicate IsStack(sel: Sel) { Family(sel) == 3 }

  predicate IsMemory(sel: Sel) { Family(sel) == 4 }

  predicate IsStream(sel: Sel) { Family(sel) == 5 }

  predicate IsBank(sel: Sel) { Family(sel) == 6 }

  predicate IsTrap(sel: Sel) { Family(sel) == 7 }

  /** One decoded instruction; `m.pc` already stands behind its operand bytes. */
  function Exec(sel: Sel, e: Env, a: Args, pc0: word, m: Core, pg: seq<Page>): Outcome
    requires Fits(e, pg)
  {
    if IsAlu(sel) then ExecAlu(sel, a, pc0, m, pg)
    else if IsPointer(sel) then ExecPointer(sel, a, m, pg)
    else if IsBranch(sel) then ExecBranch(sel, e.cf, a, m, pg)
    else if IsStack(sel) then ExecStack(sel, e, a, m, pg)
    else if IsMemory(sel) then ExecMemory(sel, e, a, m, pg)
    else if IsStream(sel) then ExecStream(sel, e, a, m, pg)
    else if IsBank(sel) then ExecBank(sel, e, a, m, pg)
    else if IsTrap(sel) then ExecTrap(sel, e, a, m, pg)
    else Fault(BadOpcode)
  }

  /** What the fetch finds at PC: the cause that stops it, or the row, its operands and the
      address behind it. */
  datatype Fetched = Refused(cause: Cause) | Decoded(sel: Sel, a: Args, fall: word)

  function FetchOperands(cf: Config, m: Core, row: Row, head: nat): Fetched
    requires Legal(cf) && row.l <= 2 && head <= 2
  {
    var fall := m.pc + head + row.l;
    if fall > cf.codelen then Refused(FetchOob)
    else
      var i0 := if row.l >= 1 then m.code[m.pc + head] else 0;
      var i1 := if row.l >= 2 then m.code[m.pc + head + 1] else 0;
      Decoded(row.sel, Args(row.s0, row.s1, i0, i1), fall)
  }

  function Fetch(cf: Config, m: Core): Fetched
    requires Legal(cf)
  {
    if m.pc + 1 > cf.codelen then Refused(FetchOob)
    else
      var op := m.code[m.pc];
      if op == ESCAPE_PREFIX then
        if m.pc + 2 > cf.codelen then Refused(FetchOob)
        else
          var row := EscapeRow(m.code[m.pc + 1]);
          if row.sel.Bad? then Refused(BadSubcode) else FetchOperands(cf, m, row, 2)
      else
        var row := SingleRow(op);
        if row.sel.Bad? then Refused(BadOpcode) else FetchOperands(cf, m, row, 1)
  }

  function Step(e: Env, m: Core, pg: seq<Page>): Outcome
    requires Fits(e, pg)
  {
    match Fetch(e.cf, m)
    case Refused(cause) => Fault(cause)
    case Decoded(sel, a, fall) => Exec(sel, e, a, m.pc, m.(pc := fall), pg)
  }

  datatype World = World(m: Core, pg: seq<Page>)

  /** One tick. A stopped machine is left alone; a spent budget stops it; a fault writes only
      the three fault fields. */
  function Tick(e: Env, w: World): World
    requires Fits(e, w.pg)
  {
    if !w.m.status.Running? then w
    else if w.m.tick >= e.cf.tb then World(w.m.(status := Overrun), w.pg)
    else
      match Step(e, w.m, w.pg)
      case Fault(cause) =>
        World(w.m.(status := Error, reason := cause, faultAddr := w.m.pc), w.pg)
      case Next(m, pg) => World(m.(tick := m.tick + 1), pg)
  }

  // --------------------------------------------------- what every step keeps

  /** What a commit never touches, and what a fault always names. */
  ghost predicate Framed(o: Outcome, m: Core, pg: seq<Page>)
  {
    match o
    case Fault(cause) => cause != Ok
    case Next(m', pg') =>
      m'.tick == m.tick && m'.reason == m.reason && m'.faultAddr == m.faultAddr
      && |pg'| == |pg| && (m'.status == m.status || m'.status == Halted)
  }

  lemma StackFramed(sel: Sel, e: Env, a: Args, m: Core, pg: seq<Page>)
    requires Fits(e, pg)
    ensures Framed(ExecStack(sel, e, a, m, pg), m, pg)
  {
  }

  lemma MemoryFramed(sel: Sel, e: Env, a: Args, m: Core, pg: seq<Page>)
    requires Fits(e, pg)
    ensures Framed(ExecMemory(sel, e, a, m, pg), m, pg)
  {
  }

  lemma BankFramed(sel: Sel, e: Env, a: Args, m: Core, pg: seq<Page>)
    requires Fits(e, pg)
    ensures Framed(ExecBank(sel, e, a, m, pg), m, pg)
  {
  }

  lemma TrapFramed(sel: Sel, e: Env, a: Args, m: Core, pg: seq<Page>)
    requires Fits(e, pg)
    ensures Framed(ExecTrap(sel, e, a, m, pg), m, pg)
  {
  }

  lemma AluFramed(sel: Sel, a: Args, pc0: word, m: Core, pg: seq<Page>)
    ensures Framed(ExecAlu(sel, a, pc0, m, pg), m, pg)
  {
    ApplyFramed(m, a.s0, AluOf(sel, AluInputs(m, a, pc0)), pg);
  }

  lemma ApplyFramed(m: Core, d: reg, o: AluOut, pg: seq<Page>)
    ensures Framed(Next(Apply(m, d, o), pg), m, pg)
  {
  }

  lemma CopyFramed(sel: Sel, a: Args, m: Core, pg: seq<Page>)
    ensures Framed(Next(Copied(sel, m, a), pg), m, pg)
  {
  }

  lemma CountFramed(sel: Sel, a: Args, m: Core, pg: seq<Page>)
    ensures Framed(Next(Counted(sel, m, a), pg), m, pg)
  {
  }

  lemma PointerFramed(sel: Sel, a: Args, m: Core, pg: seq<Page>)
    ensures Framed(ExecPointer(sel, a, m, pg), m, pg)
  {
    if IsCopy(sel) {
      CopyFramed(sel, a, m, pg);
    } else if IsCount(sel) {
      CountFramed(sel, a, m, pg);
    }
  }

  lemma BranchFramed(sel: Sel, cf: Config, a: Args, m: Core, pg: seq<Page>)
    ensures Framed(ExecBranch(sel, cf, a, m, pg), m, pg)
  {
  }

  lemma StreamFramed(sel: Sel, e: Env, a: Args, m: Core, pg: seq<Page>)
    requires Fits(e, pg)
    ensures Framed(ExecStream(sel, e, a, m, pg), m, pg)
  {
  }

  lemma ExecFramed(sel: Sel, e: Env, a: Args, pc0: word, m: Core, pg: seq<Page>)
    requires Fits(e, pg)
    ensures Framed(Exec(sel, e, a, pc0, m, pg), m, pg)
  {
    if IsAlu(sel) {
      AluFramed(sel, a, pc0, m, pg);
    } else if IsPointer(sel) {
      PointerFramed(sel, a, m, pg);
    } else if IsBranch(sel) {
      BranchFramed(sel, e.cf, a, m, pg);
    } else if IsStack(sel) {
      StackFramed(sel, e, a, m, pg);
    } else if IsMemory(sel) {
      MemoryFramed(sel, e, a, m, pg);
    } else if IsStream(sel) {
      StreamFramed(sel, e, a, m, pg);
    } else if IsBank(sel) {
      BankFramed(sel, e, a, m, pg);
    } else if IsTrap(sel) {
      TrapFramed(sel, e, a, m, pg);
    }
  }

  lemma StepFramed(e: Env, m: Core, pg: seq<Page>)
    requires Fits(e, pg)
    ensures Framed(Step(e, m, pg), m, pg)
  {
    var f := Fetch(e.cf, m);
    if f.Decoded? {
      ExecFramed(f.sel, e, f.a, m.pc, m.(pc := f.fall), pg);
    }
  }

  /** The four ways a tick goes. */
  lemma TickCases(e: Env, m: Core, pg: seq<Page>)
    requires Fits(e, pg)
    ensures var t := Tick(e, World(m, pg));
      if m.status != Running then t == World(m, pg)
      else if m.tick >= e.cf.tb then t == World(m.(status := Overrun), pg)
      else
        match Step(e, m, pg)
        case Fault(cause) =>
          cause != Ok && t == World(m.(status := Error, reason := cause, faultAddr := m.pc), pg)
        case Next(m', pg') =>
          t == World(m'.(tick := m.tick + 1), pg') && m'.tick == m.tick && m'.status != Error
  {
    hide Step;
    StepFramed(e, m, pg);
  }

  // ------------------------------------------------------------ whole runs

  /** Ticks a machine can still take, plus the one that stops it. */
  function Fuel(e: Env, m: Core): nat
  {
    if !m.status.Running? then 0 else 1 + (if m.tick < e.cf.tb then e.cf.tb - m.tick else 0)
  }

  /** A stopped machine does not move. */
  lemma StoppedTick(e: Env, w: World)
    requires Fits(e, w.pg) && w.m.status != Running
    ensures Tick(e, w) == w && RunToStop(e, w) == w
  {
  }

  /** Each tick of a running machine advances the tick counter by exactly one or stops it. */
  lemma TickSpendsFuel(e: Env, w: World)
    requires Fits(e, w.pg) && w.m.status.Running?
    ensures Fuel(e, Tick(e, w).m) < Fuel(e, w.m)
    ensures Tick(e, w).m.tick == w.m.tick + 1 || (Tick(e, w).m.tick == w.m.tick && !Tick(e, w).m.status.Running?)
    ensures Fits(e, Tick(e, w).pg) && |Tick(e, w).pg| == |w.pg|
  {
    StepFramed(e, w.m, w.pg);
  }

  function RunToStop(e: Env, w: World): World
    requires Fits(e, w.pg)
    decreases Fuel(e, w.m)
  {
    if !w.m.status.Running? then w
    else TickSpendsFuel(e, w); RunToStop(e, Tick(e, w))
  }
}
