/** The tensor datapath: every row of the decode ROM is evaluated at once, the one-hot of the
    fetched code point selects, a prefix-sum encoder names the fault, and a mask commits. A
    product of 0/1 signals is written as a conjunction, a gated value as a conditional. */
module Tensor {
  import opened Bits
  import opened Isa
  import R = Reference
  import S = Sites
  import M = Machine

  // ----------------------------------------------------------- one-hot rows

  function Total(n: nat, f: int -> int): int
  {
    if n == 0 then 0 else Total(n - 1, f) + f(n - 1)
  }

  lemma {:induction false} OneHotTotal(n: nat, k: nat, f: int -> int)
    ensures Total(n, i => (if i == k then 1 else 0) * f(i)) == if k < n then f(k) else 0
  {
    if n > 0 {
      OneHotTotal(n - 1, k, f);
    }
  }

  /** `(ind * rows).sum()` over the 256 rows: the one-hot picks its own row. */
  function Pick(k: byte, f: int -> int): (v: int)
    ensures v == f(k)
  {
    OneHotTotal(256, k, f);
    Total(256, i => (if i == k then 1 else 0) * f(i))
  }

  /** The ROM row `i` of the space the prefix selects; rows past the table read as `Bad`. */
  function Rom(esc: bool, i: int): Row
  {
    if !(0 <= i < 256) then Plain(Bad, 0) else if esc then EscapeRow(i) else SingleRow(i)
  }

  // ------------------------------------------------------ the priority encoder

  /** How many of the first `n` signals are up. */
  function Prior(fired: seq<bool>, n: nat): nat
    requires n <= |fired|
  {
    if n == 0 then 0 else Prior(fired, n - 1) + (if fired[n - 1] then 1 else 0)
  }

  /** `(first * codes).sum()` with `first = fired * (cumsum(fired) - fired == 0)`. */
  function Encoded(fired: seq<bool>, codes: seq<nat>, n: nat): nat
    requires n <= |fired| == |codes|
  {
    if n == 0 then 0
    else Encoded(fired, codes, n - 1)
         + (if fired[n - 1] && Prior(fired, n - 1) == 0 then codes[n - 1] else 0)
  }

  function FaultCause(fired: seq<bool>, codes: seq<nat>): nat
    requires |fired| == |codes|
  {
    Encoded(fired, codes, |fired|)
  }

  lemma {:induction false} PriorCounts(fired: seq<bool>, n: nat)
    requires n <= |fired|
    ensures Prior(fired, n) == 0 <==> forall j :: 0 <= j < n ==> !fired[j]
  {
    if n > 0 {
      PriorCounts(fired, n - 1);
    }
  }

  /** For signal vectors of any length the encoder answers the code of the first signal that
      is up, and 0 when none is. */
  lemma {:induction false} EncoderPicksFirst(fired: seq<bool>, codes: seq<nat>, n: nat)
    requires n <= |fired| == |codes|
    ensures (forall j :: 0 <= j < n ==> !fired[j]) ==> Encoded(fired, codes, n) == 0
    ensures forall i :: 0 <= i < n && fired[i] && (forall j :: 0 <= j < i ==> !fired[j])
                        ==> Encoded(fired, codes, n) == codes[i]
  {
    if n > 0 {
      EncoderPicksFirst(fired, codes, n - 1);
      PriorCounts(fired, n - 1);
    }
  }

  // ----------------------------------------------------------------- wires

  /** The scalars every row may read: the state at tick entry, the operands, and the clamped
      reads of the memories. */
  datatype Wires = Wires(
    hl: nat, de: nat, mb: nat, pc: nat, sp: nat, c: nat, z: nat, s: nat, v: nat, td: nat,
    ipos: nat, a: nat, b: nat, rr: nat, a0: nat, rv: nat, imm0: nat, t16: nat, sx: int, fr: nat,
    dl: nat, der: nat, dsp: nat, dsp1: nat, dsp2: nat, dsp3: nat, inb: nat, eof: bool, dfr: nat,
    dhl1: nat, dde1: nat, ldc: nat, vec: nat, fpack: nat)

  function Z(v: int): int { if v == 0 then 1 else 0 }

  function B(p: bool): int { if p then 1 else 0 }

  function OvfAdd(a: nat, b: nat, v: nat): nat { And(Xor(a, v), Xor(b, v)) / 128 }

  function OvfSub(a: nat, b: nat, v: nat): nat { And(Xor(a, b), Xor(v, a)) / 128 }

  function VAdd(w: Wires): nat { (w.a + w.b) % 256 }
  function VSub(w: Wires): nat { (w.a - w.b) % 256 }
  function VAdc(w: Wires): nat { (w.a + w.b + w.c) % 256 }
  function VSbb(w: Wires): nat { (w.a - w.b - w.c) % 256 }
  function VAddi(w: Wires): nat { (w.rr + w.imm0) % 256 }
  function VSubi(w: Wires): nat { (w.rr - w.imm0) % 256 }
  function VAdci(w: Wires): nat { (w.rr + w.imm0 + w.c) % 256 }
  function VShl(w: Wires): nat { 2 * w.rr % 256 }
  function VNeg(w: Wires): nat { (0 - w.rr) % 256 }
  function VNot(w: Wires): nat { (-1 - w.rr) % 256 }
  function VRol(w: Wires): nat { Or(2 * w.rr, w.c) % 256 }
  function VRor(w: Wires): nat { Or(w.rr / 2, 128 * w.c) }
  function VDj(w: Wires): nat { (w.rr - 1) % 256 }
  function VMul(w: Wires): nat { R.Product(w.a, w.b) % 256 }
  function VMulh(w: Wires): nat { R.Product(w.a, w.b) / 256 % 256 }

  function BSafe(w: Wires): nat { if w.b == 0 then 1 else w.b }

  // ------------------------------------------------------------------ rows

  function ArithRVal(x: Sel, w: Wires): nat
  {
    (if x.Add? then VAdd(w) else 0) + (if x.Sub? then VSub(w) else 0)
    + (if x.Adc? then VAdc(w) else 0) + (if x.Sbb? then VSbb(w) else 0)
    + (if x.Addi? then VAddi(w) else 0) + (if x.Subi? then VSubi(w) else 0)
    + (if x.Adci? then VAdci(w) else 0)
  }

  function LogicRVal(x: Sel, w: Wires): nat
  {
    (if x.And8? then And(w.a, w.b) else 0) + (if x.Or8? then Or(w.a, w.b) else 0)
    + (if x.Xor8? then Xor(w.a, w.b) else 0) + (if x.Mul? then VMul(w) else 0)
    + (if x.Div? then w.a / BSafe(w) else 0) + (if x.Mod? then w.a % BSafe(w) else 0)
    + (if x.Not? then VNot(w) else 0) + (if x.Mulh? then VMulh(w) else 0)
  }

  function UnaryRVal(x: Sel, w: Wires): nat
  {
    (if x.Shl? then VShl(w) else 0) + (if x.Shr? then w.rr / 2 else 0)
    + (if x.Djnz? then VDj(w) else 0) + (if x.Neg? then VNeg(w) else 0)
    + (if x.Rol? then VRol(w) else 0) + (if x.Ror? then VRor(w) else 0)
  }

  function MoveRVal(x: Sel, w: Wires): nat
  {
    (if x.Mov? then w.b else 0) + (if x.Ldi? then w.imm0 else 0)
    + (if x.GetPc? then w.pc else 0) + (if x.GetSp? then w.sp % 256 else 0)
    + (if x.GetF? then w.fpack else 0)
  }

  function MemoryRVal(x: Sel, w: Wires): nat
  {
    (if x.Pop? then w.dsp else 0) + (if x.In? && !w.eof then w.inb else 0)
    + (if x.MovRHl? then w.dl else 0) + (if x.MovRDe? then w.der else 0)
    + (if x.Ldc? then w.ldc else 0) + (if x.Ldx? then w.dfr else 0)
    + (if x.Ldm? then w.dl else 0)
  }

  function RowRVal(x: Sel, w: Wires): nat
  {
    ArithRVal(x, w) + LogicRVal(x, w) + UnaryRVal(x, w) + MoveRVal(x, w) + MemoryRVal(x, w)
  }

  predicate RowREn(x: Sel)
  {
    x.Add? || x.Sub? || x.Adc? || x.Sbb? || x.Mov? || x.Ldi? || x.Addi? || x.Subi? || x.Adci?
    || x.Shl? || x.Shr? || x.Djnz? || x.Pop? || x.In? || x.MovRHl? || x.MovRDe? || x.GetPc?
    || x.GetSp? || x.GetF? || x.And8? || x.Or8? || x.Xor8? || x.Mul? || x.Div? || x.Mod?
    || x.Not? || x.Neg? || x.Rol? || x.Ror? || x.Ldc? || x.Ldx? || x.Mulh? || x.Ldm?
  }

  function RowHl(x: Sel, w: Wires): int
  {
    if x.LdmwHlDe? then w.der + 256 * w.dde1
    else if x.MovHlMb? then w.mb
    else if x.LdwHlDe? then w.der + 256 * w.dde1
    else if x.PopwHl? then w.dsp + 256 * w.dsp1
    else if x.MovwHlSp? then w.sp
    else if x.MovwHlDe? then w.de
    else if x.Xchg? then w.de
    else if x.SubHlDe? then (w.hl - w.de) % 65536
    else if x.AddHlDe? then (w.hl + w.de) % 65536
    else if x.AddiHl? then w.hl + w.rv
    else if x.LdiHl? then w.t16
    else w.hl + B(x.IncHl?) - B(x.DecHl?) + B(x.OutM?)
  }

  function RowDe(x: Sel, w: Wires): int
  {
    if x.LdmwDeHl? then w.dl + 256 * w.dhl1
    else if x.LdwDeHl? then w.dl + 256 * w.dhl1
    else if x.PopwDe? then w.dsp + 256 * w.dsp1
    else if x.MovwDeSp? then w.sp
    else if x.MovwDeHl? then w.hl
    else if x.Xchg? then w.hl
    else if x.AddiDe? then w.de + w.rv
    else if x.LdiDe? then w.t16
    else w.de + B(x.IncDe?) + B(x.OutDe?)
  }

  function RowMb(x: Sel, w: Wires): int { w.mb + (if x.MovMbHl? then w.hl - w.mb else 0) }

  function RowSp(x: Sel, w: Wires): int
  {
    if x.AddSp? then (w.sp + w.sx) % 65536
    else if x.MovwSpDe? then w.de
    else if x.MovwSpHl? then w.hl
    else if x.PopwHl? || x.PopwDe? then w.sp + 2
    else if x.PushwHl? || x.PushwDe? then w.sp - 2
    else if x.Push? then w.sp - 1
    else if x.Pop? then w.sp + 1
    else if x.Call? then w.sp - 2
    else if x.CallHl? then w.sp - 2
    else if x.Ext? then w.sp - 4
    else if x.Ret? then w.sp + 2
    else if x.TrapRet? then w.sp + 4
    else w.sp
  }

  function ArithC(x: Sel, w: Wires): int
  {
    (if x.Add? then (w.a + w.b) / 256 - w.c else 0)
    + (if x.Sub? then B(w.a < w.b) - w.c else 0)
    + (if x.Adc? then (w.a + w.b + w.c) / 256 - w.c else 0)
    + (if x.Sbb? then B(w.a - w.b - w.c < 0) - w.c else 0)
    + (if x.Addi? then (w.rr + w.imm0) / 256 - w.c else 0)
    + (if x.Subi? then B(w.rr < w.imm0) - w.c else 0)
    + (if x.Adci? then (w.rr + w.imm0 + w.c) / 256 - w.c else 0)
    + (if x.Cmp? then B(w.a < w.b) - w.c else 0)
  }

  function UnaryC(x: Sel, w: Wires): int
  {
    (if x.Shl? then w.rr / 128 - w.c else 0) + (if x.Shr? then w.rr % 2 - w.c else 0)
    + (if x.Mul? then B(R.Product(w.a, w.b) > 255) - w.c else 0)
    + (if x.Neg? then B(w.rr != 0) - w.c else 0)
    + (if x.Rol? then w.rr / 128 - w.c else 0) + (if x.Ror? then w.rr % 2 - w.c else 0)
  }

  function OtherC(x: Sel, w: Wires): int
  {
    (if x.Clc? then 0 - w.c else 0) + (if x.In? && w.eof then 1 - w.c else 0)
    + (if x.AddHlDe? then (w.hl + w.de) / 65536 - w.c else 0)
    + (if x.SubHlDe? then B(w.hl < w.de) - w.c else 0)
    + (if x.TrapRet? then w.dsp2 / 2 % 2 - w.c else 0)
  }

  function RowC(x: Sel, w: Wires): int { w.c + ArithC(x, w) + UnaryC(x, w) + OtherC(x, w) }

  function ArithZ(x: Sel, w: Wires): int
  {
    (if x.Add? then Z(VAdd(w)) - w.z else 0) + (if x.Sub? then Z(VSub(w)) - w.z else 0)
    + (if x.Adc? then Z(VAdc(w)) - w.z else 0) + (if x.Sbb? then Z(VSbb(w)) - w.z else 0)
    + (if x.Addi? then Z(VAddi(w)) - w.z else 0) + (if x.Subi? then Z(VSubi(w)) - w.z else 0)
    + (if x.Adci? then Z(VAdci(w)) - w.z else 0) + (if x.Cmp? then B(w.a == w.b) - w.z else 0)
  }

  function LogicZ(x: Sel, w: Wires): int
  {
    (if x.And8? then Z(And(w.a, w.b)) - w.z else 0)
    + (if x.Or8? then Z(Or(w.a, w.b)) - w.z else 0)
    + (if x.Xor8? then Z(Xor(w.a, w.b)) - w.z else 0) + (if x.Mul? then Z(VMul(w)) - w.z else 0)
    + (if x.Div? then Z(w.a / BSafe(w)) - w.z else 0)
    + (if x.Mod? then Z(w.a % BSafe(w)) - w.z else 0)
    + (if x.Not? then Z(VNot(w)) - w.z else 0) + (if x.Mulh? then Z(VMulh(w)) - w.z else 0)
  }

  function UnaryZ(x: Sel, w: Wires): int
  {
    (if x.Tst? then Z(w.rr) - w.z else 0) + (if x.Shl? then Z(VShl(w)) - w.z else 0)
    + (if x.Shr? then Z(w.rr / 2) - w.z else 0) + (if x.Neg? then Z(VNeg(w)) - w.z else 0)
    + (if x.Rol? then Z(VRol(w)) - w.z else 0) + (if x.Ror? then Z(VRor(w)) - w.z else 0)
  }

  function RowZ(x: Sel, w: Wires): int
  {
    w.z + ArithZ(x, w) + LogicZ(x, w) + UnaryZ(x, w)
    + (if x.TrapRet? then w.dsp2 % 2 - w.z else 0)
  }

  function RowS(x: Sel, w: Wires): int
  {
    w.s + (if x.Add? then VAdd(w) / 128 - w.s else 0) + (if x.Adc? then VAdc(w) / 128 - w.s else 0)
    + (if x.Sub? then VSub(w) / 128 - w.s else 0) + (if x.Sbb? then VSbb(w) / 128 - w.s else 0)
    + (if x.Addi? then VAddi(w) / 128 - w.s else 0)
    + (if x.Subi? then VSubi(w) / 128 - w.s else 0)
    + (if x.Adci? then VAdci(w) / 128 - w.s else 0)
    + (if x.Cmp? then VSub(w) / 128 - w.s else 0) + (if x.Neg? then VNeg(w) / 128 - w.s else 0)
    + (if x.TrapRet? then w.dsp2 / 4 % 2 - w.s else 0)
  }

  function RowV(x: Sel, w: Wires): int
  {
    w.v + (if x.Add? then OvfAdd(w.a, w.b, VAdd(w)) - w.v else 0)
    + (if x.Adc? then OvfAdd(w.a, w.b, VAdc(w)) - w.v else 0)
    + (if x.Sub? then OvfSub(w.a, w.b, VSub(w)) - w.v else 0)
    + (if x.Sbb? then OvfSub(w.a, w.b, VSbb(w)) - w.v else 0)
    + (if x.Addi? then OvfAdd(w.rr, w.imm0, VAddi(w)) - w.v else 0)
    + (if x.Subi? then OvfSub(w.rr, w.imm0, VSubi(w)) - w.v else 0)
    + (if x.Adci? then OvfAdd(w.rr, w.imm0, VAdci(w)) - w.v else 0)
    + (if x.Cmp? then OvfSub(w.a, w.b, VSub(w)) - w.v else 0)
    + (if x.TrapRet? then w.dsp2 / 8 % 2 - w.v else 0)
  }

  function Retv(w: Wires): nat { 256 * w.dsp + w.dsp1 }

  function Rel(fall: nat, w: Wires): nat { (fall + w.sx) % 65536 }

  function RowPc(x: Sel, fall: nat, w: Wires): int
  {
    if x.Ext? then w.vec
    else if x.CallHl? then w.hl
    else if x.TrapRet? then Retv(w)
    else if x.JpHl? then w.hl
    else if x.Vc? then if w.v == 0 then Rel(fall, w) else fall
    else if x.Vs? then if w.v == 1 then Rel(fall, w) else fall
    else if x.Jns? then if w.s == 0 then Rel(fall, w) else fall
    else if x.Js? then if w.s == 1 then Rel(fall, w) else fall
    else if x.Djnz? then if VDj(w) != 0 then w.t16 else fall
    else if x.Jnc? then if w.c == 0 then w.t16 else fall
    else if x.Jc? then if w.c == 1 then w.t16 else fall
    else if x.Jnz? then if w.z == 0 then w.t16 else fall
    else if x.Jz? then if w.z == 1 then w.t16 else fall
    else if x.Ret? then Retv(w)
    else if x.Call? then w.t16
    else if x.Jmp? then w.t16
    else fall
  }

  function RowIpos(x: Sel, w: Wires): int { if x.In? && !w.eof then w.ipos + 1 else w.ipos }

  function RowTd(x: Sel, w: Wires): int
  {
    if x.Ext? then w.td + 1 else if x.TrapRet? then w.td - 1 else w.td
  }

  function RowOutVal(x: Sel, w: Wires): nat
  {
    (if x.Out? then w.rr else 0) + (if x.OutM? then w.dl else 0) + (if x.OutDe? then w.der else 0)
  }

  predicate RowOutEn(x: Sel) { x.Out? || x.OutM? || x.OutDe? }

  // The four store ports into DATA: address, value, enable.

  function Addr1(x: Sel, w: Wires): int
  {
    (if x.MovHlR? then w.hl else 0) + (if x.MovDeR? then w.de else 0)
    + (if x.Push? then w.sp - 1 else 0) + (if x.Call? then w.sp - 1 else 0)
    + (if x.CallHl? then w.sp - 1 else 0) + (if x.Ext? then w.sp - 1 else 0)
    + (if x.PushwHl? || x.PushwDe? then w.sp - 1 else 0)
    + (if x.StwHlDe? then w.hl else 0) + (if x.StwDeHl? then w.de else 0)
    + (if x.Stx? then w.fr else 0) + (if x.Stm? then w.hl else 0)
    + (if x.StmwHlDe? then w.hl else 0) + (if x.StmwDeHl? then w.de else 0)
  }

  predicate En1(x: Sel)
  {
    x.MovHlR? || x.MovDeR? || x.Push? || x.Call? || x.CallHl? || x.Ext? || x.PushwHl?
    || x.PushwDe? || x.StwHlDe? || x.StwDeHl? || x.Stx? || x.Stm? || x.StmwHlDe? || x.StmwDeHl?
  }

  function Val1(x: Sel, w: Wires): nat
  {
    (if x.MovHlR? then w.rr else 0) + (if x.MovDeR? then w.rr else 0)
    + (if x.Push? then w.rr else 0) + (if x.Call? then (w.pc + 3) % 256 else 0)
    + (if x.CallHl? then (w.pc + 2) % 256 else 0) + (if x.Ext? then TRAP_TAG else 0)
    + (if x.PushwHl? then w.hl / 256 % 256 else 0) + (if x.PushwDe? then w.de / 256 % 256 else 0)
    + (if x.StwHlDe? then w.de % 256 else 0) + (if x.StwDeHl? then w.hl % 256 else 0)
    + (if x.Stx? then w.rr else 0) + (if x.Stm? then w.a0 else 0)
    + (if x.StmwHlDe? then w.de % 256 else 0) + (if x.StmwDeHl? then w.hl % 256 else 0)
  }

  function Addr2(x: Sel, w: Wires): int
  {
    (if x.Call? then w.sp - 2 else 0) + (if x.CallHl? then w.sp - 2 else 0)
    + (if x.Ext? then w.sp - 2 else 0) + (if x.PushwHl? || x.PushwDe? then w.sp - 2 else 0)
    + (if x.StwHlDe? then w.hl + 1 else 0) + (if x.StwDeHl? then w.de + 1 else 0)
    + (if x.StmwHlDe? then w.hl + 1 else 0) + (if x.StmwDeHl? then w.de + 1 else 0)
  }

  predicate En2(x: Sel)
  {
    x.Call? || x.CallHl? || x.Ext? || x.PushwHl? || x.PushwDe? || x.StwHlDe? || x.StwDeHl?
    || x.StmwHlDe? || x.StmwDeHl?
  }

  function Val2(x: Sel, w: Wires): nat
  {
    (if x.Call? then (w.pc + 3) / 256 else 0) + (if x.CallHl? then (w.pc + 2) / 256 else 0)
    + (if x.Ext? then w.fpack else 0)
    + (if x.PushwHl? then w.hl % 256 else 0) + (if x.PushwDe? then w.de % 256 else 0)
    + (if x.StwHlDe? then w.de / 256 % 256 else 0) + (if x.StwDeHl? then w.hl / 256 % 256 else 0)
    + (if x.StmwHlDe? then w.de / 256 % 256 else 0)
    + (if x.StmwDeHl? then w.hl / 256 % 256 else 0)
  }

  /** What the one-hot selects out of all the rows. */
  datatype Chosen = Chosen(
    rEn: bool, rVal: nat, hl: int, de: int, mb: int, pc: int, sp: int, c: int, z: int, s: int,
    v: int, td: int, ipos: int, outEn: bool, outVal: nat,
    e1: bool, a1: int, v1: nat, e2: bool, a2: int, v2: nat, e34: bool, stc: bool, halt: bool)

  function Rows(x: Sel, fall: nat, w: Wires): Chosen
  {
    Chosen(RowREn(x), RowRVal(x, w), RowHl(x, w), RowDe(x, w), RowMb(x, w), RowPc(x, fall, w),
           RowSp(x, w), RowC(x, w), RowZ(x, w), RowS(x, w), RowV(x, w), RowTd(x, w),
           RowIpos(x, w), RowOutEn(x), RowOutVal(x, w),
           En1(x), Addr1(x, w), Val1(x, w), En2(x), Addr2(x, w), Val2(x, w), x.Ext?, x.Stc?,
           x.Halt?)
  }

  // -------------------------------------- what the wires carry, selector by selector

  predicate UsesPair(x: Sel)
  {
    x.Add? || x.Sub? || x.Adc? || x.Sbb? || x.Mov? || x.And8? || x.Or8? || x.Xor8? || x.Mul?
    || x.Div? || x.Mod? || x.Cmp? || x.Mulh?
  }

  predicate UsesOne(x: Sel)
  {
    x.Addi? || x.Subi? || x.Adci? || x.Shl? || x.Shr? || x.Djnz? || x.Not? || x.Neg? || x.Rol?
    || x.Ror? || x.Tst? || x.MovHlR? || x.MovDeR? || x.Push? || x.Out? || x.Stx? || x.Stc?
  }

  predicate UsesByte(x: Sel)
  {
    x.Ldi? || x.Addi? || x.Subi? || x.Adci? || x.AddiHl? || x.AddiDe? || x.Ldx? || x.Stx?
    || x.AddSp? || x.Js? || x.Jns? || x.Vs? || x.Vc? || x.Ext?
  }

  predicate UsesWord(x: Sel)
  {
    x.Jmp? || x.Jz? || x.Jnz? || x.Jc? || x.Jnc? || x.Djnz? || x.Call? || x.LdiHl? || x.LdiDe?
  }

  /** Which bits of the code point the table puts into the register fields, and how many
      operand bytes stand behind it. */
  predicate FieldsFit(row: Row, i: byte)
  {
    && (UsesPair(row.sel) ==> row.s0 == i / 4 % 4 && row.s1 == i % 4)
    && (UsesOne(row.sel) ==> row.s0 == i % 4)
  }

  predicate LengthFits(row: Row, esc: bool)
  {
    && (UsesByte(row.sel) ==> row.l >= 1)
    && (UsesWord(row.sel) ==> row.l == 2)
    && (row.sel.Call? ==> !esc && row.l == 2) && (row.sel.CallHl? ==> esc && row.l == 0)
    && (row.sel.Ext? ==> esc && row.l == 1)
  }

  lemma SingleFieldsLow(op: byte)
    requires op < 0x60
    ensures FieldsFit(SingleRow(op), op)
  {
  }

  lemma SingleFieldsHigh(op: byte)
    requires op >= 0x60
    ensures FieldsFit(SingleRow(op), op)
  {
  }

  lemma SingleFields(op: byte)
    ensures FieldsFit(SingleRow(op), op)
  {
    hide FieldsFit, SingleRow;
    if op < 0x60 {
      SingleFieldsLow(op);
    } else {
      SingleFieldsHigh(op);
    }
  }

  lemma SingleLength(op: byte)
    ensures LengthFits(SingleRow(op), false)
  {
  }

  lemma EscapeFields(sub: byte)
    ensures FieldsFit(EscapeRow(sub), sub)
  {
    if sub < 0x30 {
    } else if 0x40 <= sub < 0x58 {
    } else if 0x80 <= sub < 0xA0 {
    } else {
      assert !UsesPair(EscapeRow(sub).sel) && !UsesOne(EscapeRow(sub).sel);
    }
  }

  lemma EscapeLengthLow(sub: byte)
    requires sub < 0x50
    ensures LengthFits(EscapeRow(sub), true)
  {
    assert !UsesByte(EscapeRow(sub).sel) && !UsesWord(EscapeRow(sub).sel);
  }

  lemma EscapeLengthMiddle(sub: byte)
    requires 0x50 <= sub < 0x71
    ensures LengthFits(EscapeRow(sub), true)
  {
  }

  lemma EscapeLengthHigh(sub: byte)
    requires 0x71 <= sub
    ensures LengthFits(EscapeRow(sub), true)
  {
    assert !UsesByte(EscapeRow(sub).sel) && !UsesWord(EscapeRow(sub).sel);
  }

  lemma EscapeLength(sub: byte)
    ensures LengthFits(EscapeRow(sub), true)
  {
    hide EscapeRow, LengthFits;
    if sub < 0x50 {
      EscapeLengthLow(sub);
    } else if sub < 0x71 {
      EscapeLengthMiddle(sub);
    } else {
      EscapeLengthHigh(sub);
    }
  }

  function Gather(s: seq<nat>, i: int): nat
    requires |s| > 0
  {
    if i < 0 then s[0] else if i >= |s| then s[|s| - 1] else s[i]
  }

  /** The wires carry what the reference's look at the same state sees, wherever the selector
      reads them. */
  predicate WiredState(w: Wires, m: R.Core)
  {
    && w.hl == m.hl && w.de == m.de && w.mb == m.mb && w.pc == m.pc && w.sp == m.sp
    && w.c == m.c && w.z == m.z && w.s == m.s && w.v == m.v && w.td == m.td && w.ipos == m.ipos
    && w.fpack == R.FlagsByte(m.z, m.c, m.s, m.v)
  }

  predicate WiredOperands(w: Wires, k: S.Look, m: R.Core)
  {
    var x := k.sel;
    && (UsesPair(x) ==> w.a == m.r[k.a.s0] && w.b == m.r[k.a.s1])
    && (UsesOne(x) ==> w.rr == m.r[k.a.s0])
    && (x.Stm? ==> w.a0 == m.r[k.a.s0])
    && (UsesByte(x) ==> w.imm0 == k.a.i0 && w.rv == m.r[k.a.i0 % 4] && w.sx == Signed(k.a.i0))
    && (UsesByte(x) ==> w.fr == R.Frame(m, k.a))
    && (UsesWord(x) ==> w.t16 == R.T16(k.a))
    && (x.Call? ==> k.fall == m.pc + 3) && (x.CallHl? ==> k.fall == m.pc + 2)
    && (x.Ext? ==> k.fall == m.pc + 3)
  }

  predicate WiredMemory(w: Wires, k: S.Look, e: R.Env, m: R.Core, d: R.Page)
    requires Legal(e.cf)
  {
    && w.dl == S.Clamped(d, m.hl) && w.der == S.Clamped(d, m.de)
    && w.dsp == S.Clamped(d, m.sp) && w.dsp1 == S.Clamped(d, m.sp + 1)
    && w.dsp2 == S.Clamped(d, m.sp + 2) && w.dsp3 == S.Clamped(d, m.sp + 3)
    && w.dhl1 == S.Clamped(d, m.hl + 1) && w.dde1 == S.Clamped(d, m.de + 1)
    && (k.sel.Ldx? ==> w.dfr == S.Clamped(d, w.fr))
    && w.ldc == S.Clamped(m.code, m.hl)
    && w.eof == (m.ipos >= |e.inputs|) && (!w.eof ==> w.inb == e.inputs[m.ipos])
    && (k.sel.Ext? && w.imm0 < VEC_COUNT ==> w.vec == R.Vector(e.(bank := R.Alone), [d], w.imm0))
  }

  // -------------------------------------------------- what a commit amounts to

  /** `oh * v + (1 - oh) * s` with `oh` the one-hot of `a`, gated by `en`: one cell at most. */
  function MaskStore(s: seq<nat>, a: int, v: nat, en: bool): (t: seq<nat>)
    ensures |t| == |s|
    ensures t == if en && 0 <= a < |s| then s[a := v] else s
  {
    seq(|s|, i requires 0 <= i < |s| => if i == a && en then v else s[i])
  }

  /** The registers, pointers, flags and counters the rows select are the ones `m'` holds. */
  predicate ScalarsMatch(g: Chosen, d0: reg, m: R.Core, m': R.Core)
  {
    && m'.r == (if g.rEn then m.r[d0 := Low8(g.rVal)] else m.r)
    && m'.hl == Low16(g.hl) && m'.de == Low16(g.de) && m'.mb == Low16(g.mb)
    && m'.pc == g.pc && m'.sp == g.sp
    && m'.c == g.c && m'.z == g.z && m'.s == g.s % 2 && m'.v == g.v % 2
    && m'.td == g.td && m'.ipos == g.ipos
    && m'.status == (if g.halt then R.Halted else m.status)
  }

  /** The output and the CODE image after the commit. */
  predicate StreamsMatch(g: Chosen, m: R.Core, m': R.Core, rr: nat)
  {
    && m'.out == (if g.outEn then m.out + [Low8(g.outVal)] else m.out)
    && (g.outEn ==> 0 <= g.outVal < 256)
    && (if g.stc then m.hl < CODE_SIZE && rr < 256 && m'.code == m.code[m.hl := Low8(rr)]
                      && m'.stcCount == m.stcCount + 1
                      && m'.stcFirst == (if m.stcCount == 0 then m.hl else m.stcFirst)
        else m'.code == m.code && m'.stcCount == m.stcCount && m'.stcFirst == m.stcFirst)
  }

  /** The DATA page after the four store ports. */
  predicate PortsMatch(g: Chosen, w: Wires, d: R.Page, pg': seq<R.Page>)
  {
    && (g.e1 ==> 0 <= g.v1 < 256 && 0 <= g.a1 < DATA_SIZE)
    && (g.e2 ==> 0 <= g.v2 < 256 && 0 <= g.a2 < DATA_SIZE)
    && (g.e34 ==> 0 <= w.sp - 4 && (w.pc + 3) / 256 < 256)
    && pg' == [Ported(g, w, d)]
  }

  function Ported(g: Chosen, w: Wires, d: R.Page): R.Page
  {
    var d1 := Port(d, g.a1, g.v1, g.e1);
    var d2 := Port(d1, g.a2, g.v2, g.e2);
    var d3 := Port(d2, w.sp - 3, (w.pc + 3) % 256, g.e34);
    Port(d3, w.sp - 4, (w.pc + 3) / 256, g.e34)
  }

  function Port(d: R.Page, a: int, v: int, en: bool): R.Page
  {
    if en && 0 <= a < DATA_SIZE then d[a := Low8(v)] else d
  }

  ghost predicate Matches(k: S.Look, w: Wires, m: R.Core, d: R.Page, o: R.Outcome)
  {
    var g := Rows(k.sel, k.fall, w);
    o.Next? ==>
      ScalarsMatch(g, k.a.s0, m, o.m) && StreamsMatch(g, m, o.m, w.rr) && PortsMatch(g, w, d, o.pg)
  }

  // ------------------------------------------------ rows that stand at their default

  predicate TouchesHl(x: Sel)
  {
    x.LdmwHlDe? || x.MovHlMb? || x.LdwHlDe? || x.PopwHl? || x.MovwHlSp? || x.MovwHlDe? || x.Xchg?
    || x.SubHlDe? || x.AddHlDe? || x.AddiHl? || x.LdiHl? || x.IncHl? || x.DecHl? || x.OutM?
  }

  predicate TouchesDe(x: Sel)
  {
    x.LdmwDeHl? || x.LdwDeHl? || x.PopwDe? || x.MovwDeSp? || x.MovwDeHl? || x.Xchg? || x.AddiDe?
    || x.LdiDe? || x.IncDe? || x.OutDe?
  }

  predicate TouchesSp(x: Sel)
  {
    x.AddSp? || x.MovwSpDe? || x.MovwSpHl? || x.Push? || x.Pop? || x.Call? || x.CallHl? || x.Ret?
    || x.PushwHl? || x.PushwDe? || x.PopwHl? || x.PopwDe? || x.Ext? || x.TrapRet?
  }

  predicate TouchesPc(x: Sel)
  {
    x.Jmp? || x.Jz? || x.Jnz? || x.Jc? || x.Jnc? || x.Js? || x.Jns? || x.Vs? || x.Vc? || x.JpHl?
    || x.Djnz? || x.Call? || x.CallHl? || x.Ret? || x.Ext? || x.TrapRet?
  }

  predicate TouchesC(x: Sel)
  {
    R.IsArith(x) || x.Shl? || x.Shr? || x.Clc? || x.In? || x.Mul? || x.Neg? || x.Rol? || x.Ror?
    || x.AddHlDe? || x.SubHlDe? || x.TrapRet?
  }

  predicate TouchesZ(x: Sel)
  {
    R.IsArith(x) || R.IsUnary(x) || R.IsLogic(x) || x.TrapRet?
  }

  predicate TouchesS(x: Sel) { R.IsArith(x) || x.Neg? || x.TrapRet? }

  predicate TouchesV(x: Sel) { R.IsArith(x) || x.TrapRet? }

  lemma QuietPointers(x: Sel, w: Wires)
    ensures !TouchesHl(x) ==> RowHl(x, w) == w.hl
    ensures !TouchesDe(x) ==> RowDe(x, w) == w.de
  {
  }

  lemma QuietControl(x: Sel, fall: nat, w: Wires)
    ensures !TouchesSp(x) ==> RowSp(x, w) == w.sp
    ensures !TouchesPc(x) ==> RowPc(x, fall, w) == fall
  {
  }

  lemma QuietC(x: Sel, w: Wires)
    ensures !TouchesC(x) ==> RowC(x, w) == w.c
  {
  }

  lemma QuietZ(x: Sel, w: Wires)
    ensures !TouchesZ(x) ==> RowZ(x, w) == w.z
  {
  }

  lemma QuietSV(x: Sel, w: Wires)
    ensures !TouchesS(x) ==> RowS(x, w) == w.s
    ensures !TouchesV(x) ==> RowV(x, w) == w.v
  {
  }

  // ------------------------------------------------------------- the arithmetic rows

  /** The operand wires carry the unit's inputs. */
  predicate Feeds(x: Sel, w: Wires, u: R.AluIn)
  {
    && (UsesPair(x) ==> u.x == w.a && u.y == w.b) && (UsesOne(x) ==> u.x == w.rr)
    && (UsesByte(x) ==> u.i == w.imm0)
    && u.c == w.c && u.z == w.z && u.s == w.s && u.v == w.v
  }

  predicate LoadsReg(x: Sel)
  {
    x.Pop? || x.In? || x.MovRHl? || x.MovRDe? || x.Ldc? || x.Ldx? || x.Ldm?
  }

  /** Each group of the register row is zero off its own selectors. */
  lemma QuietArith(x: Sel, w: Wires)
    requires !R.IsArith(x)
    ensures ArithRVal(x, w) == 0 && ArithC(x, w) == 0 && ArithZ(x, w) == 0
  {
  }

  lemma QuietLogic(x: Sel, w: Wires)
    requires !R.IsLogic(x)
    ensures LogicRVal(x, w) == 0 && LogicZ(x, w) == 0
  {
  }

  lemma QuietUnary(x: Sel, w: Wires)
    ensures !R.IsUnary(x) && !x.Djnz? ==> UnaryRVal(x, w) == 0
    ensures !R.IsUnary(x) && !x.Mul? ==> UnaryC(x, w) == 0
    ensures !R.IsUnary(x) ==> UnaryZ(x, w) == 0
  {
  }

  lemma QuietMoves(x: Sel, w: Wires)
    ensures !R.IsMove(x) ==> MoveRVal(x, w) == 0
    ensures !LoadsReg(x) ==> MemoryRVal(x, w) == 0
  {
  }

  lemma PairValues(x: Sel, w: Wires, u: R.AluIn)
    requires (x.Add? || x.Sub? || x.Adc? || x.Sbb?) && Feeds(x, w, u)
    ensures var o := R.AluArith(x, u);
      && RowREn(x) == o.en && (o.en ==> ArithRVal(x, w) == o.w)
      && w.c + ArithC(x, w) == o.c
  {
    hide R.OverflowAdd, R.OverflowSub, R.Sign;
  }

  lemma ByteValues(x: Sel, w: Wires, u: R.AluIn)
    requires (x.Addi? || x.Subi? || x.Adci? || x.Cmp?) && Feeds(x, w, u)
    ensures var o := R.AluArith(x, u);
      && RowREn(x) == o.en && (o.en ==> ArithRVal(x, w) == o.w)
      && w.c + ArithC(x, w) == o.c
  {
    hide R.OverflowAdd, R.OverflowSub, R.Sign;
  }

  lemma ArithValues(x: Sel, w: Wires, u: R.AluIn)
    requires R.IsArith(x) && Feeds(x, w, u)
    ensures var o := R.AluArith(x, u);
      && RowREn(x) == o.en && (o.en ==> ArithRVal(x, w) == o.w)
      && w.c + ArithC(x, w) == o.c
  {
    hide R.AluArith, ArithRVal, ArithC, RowREn, Feeds;
    if x.Add? || x.Sub? || x.Adc? || x.Sbb? {
      PairValues(x, w, u);
    } else {
      ByteValues(x, w, u);
    }
  }

  lemma PairZero(x: Sel, w: Wires, u: R.AluIn)
    requires (x.Add? || x.Sub? || x.Adc? || x.Sbb?) && Feeds(x, w, u)
    ensures var o := R.AluArith(x, u); w.z + ArithZ(x, w) == o.z
  {
    hide R.OverflowAdd, R.OverflowSub, R.Sign;
    if x.Add? || x.Sub? {
      assert ArithZ(x, w) == (if x.Add? then Z(VAdd(w)) else Z(VSub(w))) - w.z;
    } else {
      assert ArithZ(x, w) == (if x.Adc? then Z(VAdc(w)) else Z(VSbb(w))) - w.z;
    }
  }

  lemma ByteZero(x: Sel, w: Wires, u: R.AluIn)
    requires (x.Addi? || x.Subi? || x.Adci? || x.Cmp?) && Feeds(x, w, u)
    ensures var o := R.AluArith(x, u); w.z + ArithZ(x, w) == o.z
  {
    hide R.OverflowAdd, R.OverflowSub, R.Sign;
    if x.Cmp? {
      assert ArithZ(x, w) == B(w.a == w.b) - w.z;
    } else if x.Subi? {
      assert ArithZ(x, w) == Z(VSubi(w)) - w.z;
    } else {
      assert ArithZ(x, w) == (if x.Addi? then Z(VAddi(w)) else Z(VAdci(w))) - w.z;
    }
  }

  lemma ArithZero(x: Sel, w: Wires, u: R.AluIn)
    requires R.IsArith(x) && Feeds(x, w, u)
    ensures var o := R.AluArith(x, u); w.z + ArithZ(x, w) == o.z
  {
    hide R.AluArith, ArithZ, Feeds;
    if x.Add? || x.Sub? || x.Adc? || x.Sbb? {
      PairZero(x, w, u);
    } else {
      ByteZero(x, w, u);
    }
  }

  lemma ArithSign(x: Sel, w: Wires, u: R.AluIn)
    requires R.IsArith(x) && Feeds(x, w, u)
    ensures var o := R.AluArith(x, u); RowS(x, w) == o.s
  {
    hide R.OverflowAdd, R.OverflowSub;
  }

  /** The wires' overflow bits are the reference's, over bytes. */
  lemma OverflowsAgree(a: byte, b: byte, v: byte)
    ensures OvfAdd(a, b, v) == R.OverflowAdd(a, b, v) && OvfSub(a, b, v) == R.OverflowSub(a, b, v)
  {
  }

  lemma PairOverflow(x: Sel, w: Wires, u: R.AluIn)
    requires (x.Add? || x.Sub? || x.Adc? || x.Sbb?) && Feeds(x, w, u)
    ensures var o := R.AluArith(x, u); RowV(x, w) == o.v
  {
    hide R.Sign, R.OverflowAdd, R.OverflowSub, OvfAdd, OvfSub;
    if x.Add? {
      OverflowsAgree(u.x, u.y, VAdd(w));
    } else if x.Sub? {
      OverflowsAgree(u.x, u.y, VSub(w));
    } else if x.Adc? {
      OverflowsAgree(u.x, u.y, VAdc(w));
    } else {
      OverflowsAgree(u.x, u.y, VSbb(w));
    }
  }

  lemma ByteOverflow(x: Sel, w: Wires, u: R.AluIn)
    requires (x.Addi? || x.Subi? || x.Adci? || x.Cmp?) && Feeds(x, w, u)
    ensures var o := R.AluArith(x, u); RowV(x, w) == o.v
  {
    hide R.Sign, R.OverflowAdd, R.OverflowSub, OvfAdd, OvfSub;
    if x.Cmp? {
      OverflowsAgree(u.x, u.y, VSub(w));
    } else if x.Addi? {
      OverflowsAgree(u.x, u.i, VAddi(w));
    } else if x.Subi? {
      OverflowsAgree(u.x, u.i, VSubi(w));
    } else {
      OverflowsAgree(u.x, u.i, VAdci(w));
    }
  }

  lemma ArithOverflow(x: Sel, w: Wires, u: R.AluIn)
    requires R.IsArith(x) && Feeds(x, w, u)
    ensures var o := R.AluArith(x, u); RowV(x, w) == o.v
  {
    hide R.AluArith, RowV, Feeds;
    if x.Add? || x.Sub? || x.Adc? || x.Sbb? {
      PairOverflow(x, w, u);
    } else {
      ByteOverflow(x, w, u);
    }
  }

  lemma LogicRows(x: Sel, w: Wires, u: R.AluIn)
    requires R.IsLogic(x) && Feeds(x, w, u) && ((x.Div? || x.Mod?) ==> u.y != 0)
    ensures var o := R.AluLogic(x, u);
      && RowREn(x) && o.en && LogicRVal(x, w) == o.w
      && w.c + UnaryC(x, w) == o.c && w.z + LogicZ(x, w) == o.z && o.s == w.s && o.v == w.v
  {
  }

  /** The rotated byte needs no mask. */
  lemma RotatedRight(x: byte, c: bit)
    ensures Or(x / 2, 128 * c) == x / 2 + 128 * c
  {
    assert Pow2(3) == 8;
    assert Pow2(7) == 128;
    OrAboveBy(x / 2, c, 7, 128);
  }

  lemma RotateValues(x: Sel, w: Wires, u: R.AluIn)
    requires (x.Rol? || x.Ror? || x.Neg?) && Feeds(x, w, u)
    ensures var o := R.AluUnary(x, u); RowREn(x) == o.en && (o.en ==> Low8(UnaryRVal(x, w)) == o.w)
  {
    hide R.Sign, R.Flag;
  }

  lemma ShiftValues(x: Sel, w: Wires, u: R.AluIn)
    requires (x.Shl? || x.Shr? || x.Tst?) && Feeds(x, w, u)
    ensures var o := R.AluUnary(x, u); RowREn(x) == o.en && (o.en ==> Low8(UnaryRVal(x, w)) == o.w)
  {
    hide R.Sign, R.Flag;
  }

  lemma UnaryValues(x: Sel, w: Wires, u: R.AluIn)
    requires R.IsUnary(x) && Feeds(x, w, u)
    ensures var o := R.AluUnary(x, u); RowREn(x) == o.en && (o.en ==> Low8(UnaryRVal(x, w)) == o.w)
  {
    hide R.AluUnary, UnaryRVal, RowREn, Feeds;
    if x.Rol? || x.Ror? || x.Neg? {
      RotateValues(x, w, u);
    } else {
      ShiftValues(x, w, u);
    }
  }

  lemma UnaryFlags(x: Sel, w: Wires, u: R.AluIn)
    requires R.IsUnary(x) && Feeds(x, w, u)
    ensures var o := R.AluUnary(x, u);
      && w.c + UnaryC(x, w) == o.c && w.z + UnaryZ(x, w) == o.z && RowS(x, w) == o.s && o.v == w.v
  {
    RotatedRight(u.x, u.c);
    hide Or;
  }

  predicate FeedsAll(x: Sel, w: Wires, u: R.AluIn)
  {
    && Feeds(x, w, u)
    && u.pcLow == w.pc % 256 && u.spLow == w.sp % 256 && w.fpack == R.FlagsByte(u.z, u.c, u.s, u.v)
  }

  /** The selected arithmetic rows are what the arithmetic unit answers. */
  predicate Answers(x: Sel, w: Wires, o: R.AluOut)
  {
    && RowREn(x) == o.en && (o.en ==> Low8(RowRVal(x, w)) == o.w)
    && RowC(x, w) == o.c && RowZ(x, w) == o.z && RowS(x, w) == o.s && RowV(x, w) == o.v
  }

  lemma ArithAlone(x: Sel, w: Wires)
    requires R.IsArith(x)
    ensures !R.IsLogic(x) && !R.IsUnary(x) && !R.IsMove(x) && !LoadsReg(x) && !x.TrapRet?
    ensures !x.Mul? && !x.Djnz? && OtherC(x, w) == 0
  {
  }

  lemma ArithAnswers(x: Sel, w: Wires, u: R.AluIn)
    requires R.IsArith(x) && Feeds(x, w, u)
    ensures Answers(x, w, R.AluArith(x, u))
  {
    hide R.AluArith, ArithRVal, LogicRVal, UnaryRVal, MoveRVal, MemoryRVal, ArithC, UnaryC, ArithZ, LogicZ,
         UnaryZ, RowS, RowV, Feeds, R.IsArith, R.IsLogic, R.IsUnary, R.IsMove, LoadsReg, RowREn, OtherC;
    ArithAlone(x, w);
    ArithValues(x, w, u);
    ArithZero(x, w, u);
    ArithSign(x, w, u);
    ArithOverflow(x, w, u);
    QuietLogic(x, w);
    QuietUnary(x, w);
    QuietMoves(x, w);
  }

  lemma LogicAlone(x: Sel, w: Wires)
    requires R.IsLogic(x)
    ensures !TouchesS(x) && !TouchesV(x) && !R.IsArith(x) && !R.IsUnary(x) && !R.IsMove(x)
    ensures !LoadsReg(x) && !x.TrapRet? && !x.Djnz?
    ensures OtherC(x, w) == 0
  {
  }

  lemma UnaryAlone(x: Sel, w: Wires)
    requires R.IsUnary(x)
    ensures !TouchesV(x) && !R.IsArith(x) && !R.IsLogic(x) && !R.IsMove(x) && !LoadsReg(x) && !x.TrapRet? && !x.Djnz?
    ensures OtherC(x, w) == 0
  {
  }

  lemma LogicAnswers(x: Sel, w: Wires, u: R.AluIn)
    requires R.IsLogic(x) && Feeds(x, w, u) && ((x.Div? || x.Mod?) ==> u.y != 0)
    ensures Answers(x, w, R.AluLogic(x, u))
  {
    hide R.AluLogic, ArithRVal, LogicRVal, UnaryRVal, MoveRVal, MemoryRVal, ArithC, UnaryC, ArithZ, LogicZ,
         UnaryZ, RowS, RowV, Feeds, R.IsArith, R.IsLogic, R.IsUnary, R.IsMove, LoadsReg, RowREn, OtherC;
    LogicAlone(x, w);
    LogicRows(x, w, u);
    QuietArith(x, w);
    QuietUnary(x, w);
    QuietMoves(x, w);
    QuietSV(x, w);
  }

  lemma UnaryAnswers(x: Sel, w: Wires, u: R.AluIn)
    requires R.IsUnary(x) && Feeds(x, w, u)
    ensures Answers(x, w, R.AluUnary(x, u))
  {
    hide R.AluUnary, ArithRVal, LogicRVal, UnaryRVal, MoveRVal, MemoryRVal, ArithC, UnaryC, ArithZ, LogicZ,
         UnaryZ, RowS, RowV, Feeds, R.IsArith, R.IsLogic, R.IsUnary, R.IsMove, LoadsReg, RowREn, OtherC;
    UnaryAlone(x, w);
    UnaryValues(x, w, u);
    UnaryFlags(x, w, u);
    QuietArith(x, w);
    QuietLogic(x, w);
    QuietMoves(x, w);
    QuietSV(x, w);
  }

  lemma MoveAnswers(x: Sel, w: Wires, u: R.AluIn)
    requires R.IsMove(x) && FeedsAll(x, w, u)
    ensures Answers(x, w, R.AluMove(x, u))
  {
    hide ArithRVal, LogicRVal, UnaryRVal, MemoryRVal, ArithC, UnaryC, ArithZ, LogicZ, UnaryZ, RowS, RowV,
         R.FlagsByte;
    QuietArith(x, w);
    QuietLogic(x, w);
    QuietUnary(x, w);
    QuietMoves(x, w);
    QuietSV(x, w);
  }

  lemma AluAnswers(x: Sel, w: Wires, u: R.AluIn)
    requires R.IsAlu(x) && FeedsAll(x, w, u) && ((x.Div? || x.Mod?) ==> u.y != 0)
    ensures Answers(x, w, R.AluOf(x, u))
  {
    hide Answers, R.AluArith, R.AluLogic, R.AluUnary, R.AluMove;
    if R.IsArith(x) {
      ArithAnswers(x, w, u);
    } else if R.IsLogic(x) {
      LogicAnswers(x, w, u);
    } else if R.IsUnary(x) {
      UnaryAnswers(x, w, u);
    } else {
      MoveAnswers(x, w, u);
    }
  }

  lemma AluFed(k: S.Look, w: Wires, m: R.Core)
    requires k.fall <= CODE_SIZE && WiredState(w, m) && WiredOperands(w, k, m)
    ensures FeedsAll(k.sel, w, R.AluInputs(m.(pc := k.fall), k.a, m.pc))
  {
    hide R.FlagsByte;
  }

  // --------------------------------------------------- families against the reference

  predicate StoresNothing(x: Sel) { !En1(x) && !En2(x) && !x.Ext? }

  lemma QuietPorts(k: S.Look, w: Wires, d: R.Page)
    requires StoresNothing(k.sel)
    ensures PortsMatch(Rows(k.sel, k.fall, w), w, d, [d])
  {
    hide RowRVal, RowC, RowZ, RowS, RowV, RowHl, RowDe, RowSp, RowPc, RowOutVal, Addr1, Val1, Addr2, Val2,
         RowREn;
  }

  lemma QuietStreams(k: S.Look, w: Wires, m: R.Core, m': R.Core)
    requires !RowOutEn(k.sel) && !k.sel.Stc?
    requires m'.out == m.out && m'.code == m.code && m'.stcCount == m.stcCount && m'.stcFirst == m.stcFirst
    ensures StreamsMatch(Rows(k.sel, k.fall, w), m, m', w.rr)
  {
    hide RowRVal, RowC, RowZ, RowS, RowV, RowHl, RowDe, RowSp, RowPc, RowOutVal, Addr1, Val1, Addr2, Val2,
         RowREn;
  }

  /** The scalar rows of the streams, the trap depth and the selector stand at their defaults,
      and no store port or output is enabled. */
  predicate Plainly(x: Sel)
  {
    StoresNothing(x) && !RowOutEn(x) && !x.Stc? && !x.In? && !x.TrapRet?
  }

  lemma AluStoresNothing(x: Sel)
    requires R.IsArith(x) || R.IsLogic(x) || R.IsUnary(x) || R.IsMove(x)
    ensures StoresNothing(x)
  {
  }

  lemma AluPlainly(x: Sel)
    requires R.IsArith(x) || R.IsLogic(x) || R.IsUnary(x) || R.IsMove(x)
    ensures Plainly(x) && !x.Halt? && !x.MovMbHl?
  {
    hide StoresNothing;
    AluStoresNothing(x);
  }

  lemma AluTouchesPointers(x: Sel)
    requires R.IsArith(x) || R.IsLogic(x) || R.IsUnary(x) || R.IsMove(x)
    ensures !TouchesHl(x) && !TouchesDe(x)
  {
  }

  lemma AluTouchesControl(x: Sel)
    requires R.IsArith(x) || R.IsLogic(x) || R.IsUnary(x) || R.IsMove(x)
    ensures !TouchesSp(x) && !TouchesPc(x)
  {
  }

  lemma AluTouches(x: Sel)
    requires R.IsArith(x) || R.IsLogic(x) || R.IsUnary(x) || R.IsMove(x)
    ensures !TouchesHl(x) && !TouchesDe(x) && !TouchesSp(x) && !TouchesPc(x)
  {
    hide TouchesHl, TouchesDe, TouchesSp, TouchesPc, R.IsArith, R.IsLogic, R.IsUnary, R.IsMove;
    AluTouchesPointers(x);
    AluTouchesControl(x);
  }

  lemma AluParts(x: Sel)
    requires R.IsAlu(x)
    ensures R.IsArith(x) || R.IsLogic(x) || R.IsUnary(x) || R.IsMove(x)
  {
  }

  lemma AluScalars(k: S.Look, w: Wires, m: R.Core, u: R.AluIn)
    requires k.fall <= CODE_SIZE && WiredState(w, m) && R.IsAlu(k.sel)
    requires Answers(k.sel, w, R.AluOf(k.sel, u))
    ensures ScalarsMatch(Rows(k.sel, k.fall, w), k.a.s0, m, R.Apply(m.(pc := k.fall), k.a.s0, R.AluOf(k.sel, u)))
  {
    hide RowRVal, RowC, RowZ, RowS, RowV, RowHl, RowDe, RowSp, RowPc, RowOutVal, Addr1, Val1, Addr2, Val2,
         RowREn, R.AluOf, TouchesHl, TouchesDe, TouchesSp, TouchesPc, R.IsAlu, R.IsArith, R.IsLogic,
         R.IsUnary, R.IsMove, RowOutEn, En1, En2, R.FlagsByte;
    AluParts(k.sel);
    AluPlainly(k.sel);
    AluTouches(k.sel);
    QuietPointers(k.sel, w);
    QuietControl(k.sel, k.fall, w);
  }

  lemma AluMatches(k: S.Look, w: Wires, m: R.Core, d: R.Page)
    requires k.fall <= CODE_SIZE && WiredState(w, m) && WiredOperands(w, k, m) && R.IsAlu(k.sel)
    ensures Matches(k, w, m, d, R.ExecAlu(k.sel, k.a, m.pc, m.(pc := k.fall), [d]))
  {
    hide Rows, Answers, WiredOperands, R.AluOf, FeedsAll, ScalarsMatch, StreamsMatch, PortsMatch, R.IsAlu,
         R.IsArith, R.IsLogic, R.IsUnary, R.IsMove, RowOutEn, StoresNothing, WiredState, TouchesHl, TouchesDe,
         TouchesSp, TouchesPc;
    var x := k.sel;
    var u := R.AluInputs(m.(pc := k.fall), k.a, m.pc);
    if !((x.Div? || x.Mod?) && m.r[k.a.s1] == 0) {
      AluFed(k, w, m);
      AluAnswers(x, w, u);
      AluScalars(k, w, m, u);
      AluParts(x);
      AluPlainly(x);
      QuietPorts(k, w, d);
      QuietStreams(k, w, m, R.Apply(m.(pc := k.fall), k.a.s0, R.AluOf(x, u)));
    }
  }

  lemma PointerParts(x: Sel)
    requires R.IsPointer(x)
    ensures R.IsCopy(x) || R.IsCount(x) || x.MovwSpHl? || x.MovwSpDe? || x.AddSp?
  {
  }

  lemma PointerPlainly(x: Sel)
    requires R.IsPointer(x)
    ensures Plainly(x)
  {
  }

  lemma PointerTouches(x: Sel)
    requires R.IsPointer(x)
    ensures !RowREn(x) && !TouchesPc(x)
  {
  }

  lemma PointerFlags(x: Sel)
    requires R.IsPointer(x)
    ensures !TouchesZ(x) && !TouchesS(x) && !TouchesV(x)
  {
  }

  lemma CopyRows(k: S.Look, w: Wires, m: R.Core)
    requires k.fall <= CODE_SIZE && WiredState(w, m) && WiredOperands(w, k, m) && R.IsCopy(k.sel)
    ensures var x, m' := k.sel, R.Copied(k.sel, m.(pc := k.fall), k.a);
      && RowHl(x, w) == m'.hl && RowDe(x, w) == m'.de && RowMb(x, w) == m'.mb
      && RowSp(x, w) == m.sp && RowC(x, w) == m.c && !x.Halt?
  {
    hide R.FlagsByte, R.Frame;
    QuietC(k.sel, w);
    QuietControl(k.sel, k.fall, w);
    hide RowC, RowSp;
  }

  lemma CountRowCases(x: Sel, w: Wires)
    requires R.IsCount(x)
    ensures RowHl(x, w)
            == if x.SubHlDe? then (w.hl - w.de) % 65536 else if x.AddHlDe? then (w.hl + w.de) % 65536
               else if x.AddiHl? then w.hl + w.rv else w.hl + B(x.IncHl?) - B(x.DecHl?)
  {
  }

  lemma CountRowHl(k: S.Look, w: Wires, m: R.Core)
    requires k.fall <= CODE_SIZE && WiredState(w, m) && WiredOperands(w, k, m) && R.IsCount(k.sel)
    ensures Low16(RowHl(k.sel, w)) == R.Counted(k.sel, m.(pc := k.fall), k.a).hl
  {
    hide R.FlagsByte, R.Frame, RowHl;
    CountRowCases(k.sel, w);
  }

  lemma CountRowDe(k: S.Look, w: Wires, m: R.Core)
    requires k.fall <= CODE_SIZE && WiredState(w, m) && WiredOperands(w, k, m) && R.IsCount(k.sel)
    ensures Low16(RowDe(k.sel, w)) == R.Counted(k.sel, m.(pc := k.fall), k.a).de
  {
    hide R.FlagsByte, R.Frame;
  }

  lemma CountRows(k: S.Look, w: Wires, m: R.Core)
    requires k.fall <= CODE_SIZE && WiredState(w, m) && WiredOperands(w, k, m) && R.IsCount(k.sel)
    ensures var x, m' := k.sel, R.Counted(k.sel, m.(pc := k.fall), k.a);
      && Low16(RowHl(x, w)) == m'.hl && Low16(RowDe(x, w)) == m'.de && RowMb(x, w) == m'.mb
      && m'.status == (if x.Halt? then R.Halted else m.status)
  {
    hide R.FlagsByte, R.Frame, RowHl, RowDe, Low16;
    CountRowHl(k, w, m);
    CountRowDe(k, w, m);
  }

  lemma CountFlags(k: S.Look, w: Wires, m: R.Core)
    requires k.fall <= CODE_SIZE && WiredState(w, m) && R.IsCount(k.sel)
    ensures RowC(k.sel, w) == R.Counted(k.sel, m.(pc := k.fall), k.a).c && !TouchesSp(k.sel)
  {
    hide R.FlagsByte;
    QuietArith(k.sel, w);
    QuietUnary(k.sel, w);
    hide ArithC, UnaryC;
  }

  lemma SpRows(k: S.Look, w: Wires, m: R.Core)
    requires k.fall <= CODE_SIZE && WiredState(w, m) && WiredOperands(w, k, m)
    requires k.sel.MovwSpHl? || k.sel.MovwSpDe? || k.sel.AddSp?
    ensures var x := k.sel;
      && RowHl(x, w) == m.hl && RowDe(x, w) == m.de && RowMb(x, w) == m.mb && RowC(x, w) == m.c
      && RowSp(x, w) == (if x.MovwSpHl? then m.hl else if x.MovwSpDe? then m.de
                         else Low16(m.sp + Signed(k.a.i0)))
      && !x.Halt?
  {
    hide R.FlagsByte, R.Frame, Signed;
    QuietC(k.sel, w);
    hide RowC;
  }

  /** The flags Z, S and V, and PC, of a family that leaves them. */
  lemma QuietFlags(x: Sel, w: Wires)
    requires !TouchesZ(x) && !TouchesS(x) && !TouchesV(x)
    ensures RowZ(x, w) == w.z && RowS(x, w) == w.s && RowV(x, w) == w.v
  {
    hide RowZ, RowS, RowV, TouchesZ, TouchesS, TouchesV;
    QuietZ(x, w);
    QuietSV(x, w);
  }

  lemma CopiedKeeps(x: Sel, m: R.Core, a: R.Args)
    ensures var m' := R.Copied(x, m, a); m' == m.(hl := m'.hl, de := m'.de, mb := m'.mb)
  {
  }

  lemma CountedKeeps(x: Sel, m: R.Core, a: R.Args)
    ensures var m' := R.Counted(x, m, a);
      m' == m.(hl := m'.hl, de := m'.de, c := m'.c, status := m'.status)
  {
  }

  lemma PointerMatches(k: S.Look, w: Wires, m: R.Core, d: R.Page)
    requires k.fall <= CODE_SIZE && WiredState(w, m) && WiredOperands(w, k, m) && R.IsPointer(k.sel)
    ensures Matches(k, w, m, d, R.ExecPointer(k.sel, k.a, m.(pc := k.fall), [d]))
  {
    hide RowRVal, RowC, RowZ, RowS, RowV, RowHl, RowDe, RowMb, RowSp, RowPc, RowOutVal, Addr1, Val1, Addr2,
         Val2, RowREn, TouchesHl, TouchesDe, TouchesSp, TouchesPc, TouchesZ, TouchesS, TouchesV, RowOutEn,
         En1, En2, R.FlagsByte, StreamsMatch, PortsMatch, R.Copied, R.Counted, R.IsCopy, R.IsCount,
         WiredOperands, Signed;
    var x := k.sel;
    PointerParts(x);
    PointerPlainly(x);
    PointerTouches(x);
    PointerFlags(x);
    QuietFlags(x, w);
    QuietControl(x, k.fall, w);
    QuietPorts(k, w, d);
    var m1 := m.(pc := k.fall);
    if R.IsCopy(x) {
      CopyRows(k, w, m);
      CopiedKeeps(x, m1, k.a);
      QuietStreams(k, w, m, R.Copied(x, m1, k.a));
    } else if R.IsCount(x) {
      CountRows(k, w, m);
      CountFlags(k, w, m);
      CountedKeeps(x, m1, k.a);
      QuietStreams(k, w, m, R.Counted(x, m1, k.a));
    } else {
      SpRows(k, w, m);
      var t: nat := if x.MovwSpHl? then m.hl else if x.MovwSpDe? then m.de else Low16(m.sp + Signed(k.a.i0));
      if t <= DATA_SIZE {
        QuietStreams(k, w, m, m1.(sp := t));
      }
    }
  }

  lemma BranchPlainly(x: Sel)
    requires R.IsBranch(x)
    ensures Plainly(x) && !x.Halt? && !x.MovMbHl? && (RowREn(x) ==> x.Djnz?)
  {
  }

  lemma BranchTouches(x: Sel)
    requires R.IsBranch(x)
    ensures !TouchesHl(x) && !TouchesDe(x) && !TouchesSp(x) && !TouchesC(x)
    ensures !TouchesZ(x) && !TouchesS(x) && !TouchesV(x)
  {
  }

  /** A committed branch: PC is where the row says, and DJNZ has counted its register down. */
  lemma BranchRows(k: S.Look, w: Wires, m: R.Core, cf: Config, pg: seq<R.Page>)
    requires k.fall <= CODE_SIZE && WiredState(w, m) && WiredOperands(w, k, m) && R.IsBranch(k.sel)
    ensures var x, m1 := k.sel, m.(pc := k.fall);
      var o := R.ExecBranch(x, cf, k.a, m1, pg);
      o.Next? ==>
        && o.pg == pg && RowPc(x, k.fall, w) == o.m.pc
        && o.m == m1.(pc := o.m.pc, r := if x.Djnz? then m.r[k.a.s0 := Low8(w.rr - 1)] else m.r)
  {
    hide R.FlagsByte, R.Frame, Signed;
  }

  lemma CountdownValue(w: Wires)
    ensures RowREn(Djnz) && Low8(RowRVal(Djnz, w)) == Low8(w.rr - 1)
  {
    QuietArith(Djnz, w);
    QuietLogic(Djnz, w);
    QuietMoves(Djnz, w);
    hide ArithRVal, LogicRVal, MoveRVal, MemoryRVal;
  }

  lemma BranchMatches(k: S.Look, w: Wires, m: R.Core, d: R.Page, cf: Config)
    requires k.fall <= CODE_SIZE && WiredState(w, m) && WiredOperands(w, k, m) && R.IsBranch(k.sel)
    ensures Matches(k, w, m, d, R.ExecBranch(k.sel, cf, k.a, m.(pc := k.fall), [d]))
  {
    hide RowRVal, RowC, RowZ, RowS, RowV, RowHl, RowDe, RowSp, RowPc, RowOutVal, Addr1, Val1, Addr2, Val2,
         RowREn, TouchesHl, TouchesDe, TouchesSp, TouchesPc, TouchesC, TouchesZ, TouchesS, TouchesV, RowOutEn,
         En1, En2, R.FlagsByte, StreamsMatch, PortsMatch, WiredOperands, R.ExecBranch;
    var x := k.sel;
    BranchPlainly(x);
    BranchTouches(x);
    QuietFlags(x, w);
    QuietC(x, w);
    QuietPointers(x, w);
    QuietControl(x, k.fall, w);
    QuietPorts(k, w, d);
    BranchRows(k, w, m, cf, [d]);
    CountdownValue(w);
    var o := R.ExecBranch(x, cf, k.a, m.(pc := k.fall), [d]);
    if o.Next? {
      QuietStreams(k, w, m, o.m);
    }
  }

  predicate Lone(e: R.Env) { e.bank == R.Alone && Legal(e.cf) }

  lemma StackPlainly(x: Sel)
    requires R.IsStack(x)
    ensures !RowOutEn(x) && !x.Stc? && !x.In? && !x.TrapRet? && !x.Ext? && !x.Halt? && !x.MovMbHl?
    ensures RowREn(x) ==> x.Pop?
  {
  }

  lemma StackTouches(x: Sel)
    requires R.IsStack(x)
    ensures !TouchesC(x) && !TouchesZ(x) && !TouchesS(x) && !TouchesV(x)
  {
  }

  lemma PopValue(w: Wires)
    ensures RowREn(Pop) && RowRVal(Pop, w) == w.dsp
  {
    QuietArith(Pop, w);
    QuietLogic(Pop, w);
    QuietUnary(Pop, w);
    hide ArithRVal, LogicRVal, UnaryRVal;
  }

  lemma OnePageUpdates(d: R.Page, a: int, v: byte, b: int, u: byte)
    requires 0 <= a < DATA_SIZE && 0 <= b < DATA_SIZE
    ensures R.Put([d], 0, a, v) == [Port(d, a, v, true)]
    ensures R.Put(R.Put([d], 0, a, v), 0, b, u) == [Port(Port(d, a, v, true), b, u, true)]
    ensures a != b ==> Port(Port(d, a, v, true), b, u, true) == Port(Port(d, b, u, true), a, v, true)
  {
  }

  predicate TwoStores(x: Sel)
  {
    S.PushesTwo(x) || x.StwHlDe? || x.StwDeHl? || x.StmwHlDe? || x.StmwDeHl?
  }

  predicate OneStore(x: Sel) { x.Push? || x.MovHlR? || x.MovDeR? || x.Stx? || x.Stm? }

  /** With the first, or the first two, ports enabled. */
  lemma PortsOpen(k: S.Look, w: Wires, d: R.Page, a1: int, v1: byte, a2: int, v2: byte)
    requires 0 <= a1 < DATA_SIZE && 0 <= a2 < DATA_SIZE
    requires TwoStores(k.sel) || OneStore(k.sel)
    requires Addr1(k.sel, w) == a1 && Val1(k.sel, w) == v1
    requires TwoStores(k.sel) ==> Addr2(k.sel, w) == a2 && Val2(k.sel, w) == v2
    ensures var d1 := Port(d, a1, v1, true);
      PortsMatch(Rows(k.sel, k.fall, w), w, d, [if TwoStores(k.sel) then Port(d1, a2, v2, true) else d1])
  {
    hide RowRVal, RowC, RowZ, RowS, RowV, RowHl, RowDe, RowSp, RowPc, RowOutVal, RowREn, Addr1, Val1, Addr2,
         Val2;
  }

  lemma CallPorts(k: S.Look, w: Wires, m: R.Core)
    requires k.fall <= CODE_SIZE && WiredState(w, m) && WiredOperands(w, k, m)
    requires k.sel.Call? || k.sel.CallHl?
    ensures Addr1(k.sel, w) == m.sp - 1 && Val1(k.sel, w) == k.fall % 256
    ensures Addr2(k.sel, w) == m.sp - 2 && Val2(k.sel, w) == k.fall / 256
  {
    hide R.FlagsByte, R.Frame, Signed;
  }

  lemma PushPorts(k: S.Look, w: Wires, m: R.Core)
    requires WiredState(w, m) && WiredOperands(w, k, m)
    requires k.sel.PushwHl? || k.sel.PushwDe? || k.sel.Push?
    ensures var v := if k.sel.PushwHl? then m.hl else m.de;
      && Addr1(k.sel, w) == m.sp - 1
      && Val1(k.sel, w) == (if k.sel.Push? then m.r[k.a.s0] else v / 256)
      && (!k.sel.Push? ==> Addr2(k.sel, w) == m.sp - 2 && Val2(k.sel, w) == v % 256)
  {
    hide R.FlagsByte, R.Frame, Signed;
  }

  /** A push that commits: the ports write what the reference stores, byte for byte. */
  lemma StackPorts(k: S.Look, w: Wires, e: R.Env, m: R.Core, d: R.Page)
    requires Lone(e) && k.fall <= CODE_SIZE && WiredState(w, m) && WiredOperands(w, k, m)
    requires k.sel.Push? || S.PushesTwo(k.sel)
    ensures var o := R.ExecStack(k.sel, e, k.a, m.(pc := k.fall), [d]);
      o.Next? ==> PortsMatch(Rows(k.sel, k.fall, w), w, d, o.pg)
  {
    hide R.FlagsByte, R.Frame, Signed, PortsMatch, Rows, Port, Addr1, Val1, Addr2, Val2, R.StackCovered,
         Covered, WiredOperands, WiredState, R.Put;
    var x := k.sel;
    var o := R.ExecStack(x, e, k.a, m.(pc := k.fall), [d]);
    if o.Next? {
      if x.Call? || x.CallHl? {
        CallPorts(k, w, m);
        OnePageUpdates(d, m.sp - 1, k.fall % 256, m.sp - 2, k.fall / 256);
        PortsOpen(k, w, d, m.sp - 1, k.fall % 256, m.sp - 2, k.fall / 256);
      } else if x.Push? {
        PushPorts(k, w, m);
        OnePageUpdates(d, m.sp - 1, m.r[k.a.s0], m.sp - 1, 0);
        PortsOpen(k, w, d, m.sp - 1, m.r[k.a.s0], m.sp - 1, 0);
      } else {
        var v: nat := if x.PushwHl? then m.hl else m.de;
        PushPorts(k, w, m);
        OnePageUpdates(d, m.sp - 2, v % 256, m.sp - 1, v / 256);
        PortsOpen(k, w, d, m.sp - 1, v / 256, m.sp - 2, v % 256);
      }
    }
  }

  /** What a committed stack instruction changes besides DATA. */
  lemma StackEffect(k: S.Look, e: R.Env, m: R.Core, d: R.Page)
    requires Lone(e) && k.fall <= CODE_SIZE && R.IsStack(k.sel)
    ensures var x, m1 := k.sel, m.(pc := k.fall);
      var o := R.ExecStack(x, e, k.a, m1, [d]);
      o.Next? ==>
        && (S.PushesTwo(x) || x.Push? || o.pg == [d])
        && o.m == m1.(pc := o.m.pc, sp := o.m.sp, hl := o.m.hl, de := o.m.de,
                      r := if x.Pop? then m.r[k.a.s0 := S.Clamped(d, m.sp)] else m.r)
  {
    hide R.StackCovered, Covered;
  }

  lemma StackControl(k: S.Look, w: Wires, e: R.Env, m: R.Core, d: R.Page)
    requires Lone(e) && k.fall <= CODE_SIZE && R.IsStack(k.sel)
    requires WiredState(w, m) && WiredOperands(w, k, m) && WiredMemory(w, k, e, m, d)
    ensures var x := k.sel;
      var o := R.ExecStack(x, e, k.a, m.(pc := k.fall), [d]);
      o.Next? ==> RowPc(x, k.fall, w) == o.m.pc && RowSp(x, w) == o.m.sp
  {
    hide R.FlagsByte, R.Frame, Signed, R.StackCovered, Covered, R.Put;
  }

  predicate PopsWord(x: Sel) { x.PopwHl? || x.PopwDe? }

  lemma StackKeepsRows(x: Sel, w: Wires)
    requires R.IsStack(x) && !PopsWord(x)
    ensures RowHl(x, w) == w.hl && RowDe(x, w) == w.de
  {
  }

  lemma StackKeepsPointers(x: Sel, e: R.Env, a: R.Args, m: R.Core, pg: seq<R.Page>)
    requires R.Fits(e, pg) && R.IsStack(x) && !PopsWord(x)
    ensures var o := R.ExecStack(x, e, a, m, pg); o.Next? ==> o.m.hl == m.hl && o.m.de == m.de
  {
    hide R.StackCovered, Covered, R.Put;
  }

  lemma PopWordPointers(k: S.Look, w: Wires, e: R.Env, m: R.Core, d: R.Page)
    requires Lone(e) && k.fall <= CODE_SIZE && PopsWord(k.sel)
    requires WiredState(w, m) && WiredMemory(w, k, e, m, d)
    ensures var x := k.sel;
      var o := R.ExecStack(x, e, k.a, m.(pc := k.fall), [d]);
      o.Next? ==> RowHl(x, w) == o.m.hl && RowDe(x, w) == o.m.de
  {
    hide R.FlagsByte, R.Frame, Signed, R.StackCovered, Covered, R.Put;
  }

  lemma StackPointers(k: S.Look, w: Wires, e: R.Env, m: R.Core, d: R.Page)
    requires Lone(e) && k.fall <= CODE_SIZE && R.IsStack(k.sel)
    requires WiredState(w, m) && WiredMemory(w, k, e, m, d)
    ensures var x := k.sel;
      var o := R.ExecStack(x, e, k.a, m.(pc := k.fall), [d]);
      o.Next? ==> RowHl(x, w) == o.m.hl && RowDe(x, w) == o.m.de
  {
    hide RowHl, RowDe, R.ExecStack, PopsWord, WiredMemory;
    if PopsWord(k.sel) {
      PopWordPointers(k, w, e, m, d);
    } else {
      StackKeepsRows(k.sel, w);
      StackKeepsPointers(k.sel, e, k.a, m.(pc := k.fall), [d]);
    }
  }

  lemma StackMatches(k: S.Look, w: Wires, e: R.Env, m: R.Core, d: R.Page)
    requires Lone(e) && k.fall <= CODE_SIZE && R.IsStack(k.sel)
    requires WiredState(w, m) && WiredOperands(w, k, m) && WiredMemory(w, k, e, m, d)
    ensures Matches(k, w, m, d, R.ExecStack(k.sel, e, k.a, m.(pc := k.fall), [d]))
  {
    hide RowRVal, RowC, RowZ, RowS, RowV, RowHl, RowDe, RowSp, RowPc, RowOutVal, Addr1, Val1, Addr2, Val2,
         RowREn, TouchesHl, TouchesDe, TouchesSp, TouchesPc, TouchesC, TouchesZ, TouchesS, TouchesV, RowOutEn,
         R.FlagsByte, StreamsMatch, PortsMatch, R.Vector, WiredOperands, R.ExecStack;
    var x := k.sel;
    StackPlainly(x);
    StackTouches(x);
    QuietFlags(x, w);
    QuietC(x, w);
    StackEffect(k, e, m, d);
    StackControl(k, w, e, m, d);
    StackPointers(k, w, e, m, d);
    PopValue(w);
    var o := R.ExecStack(x, e, k.a, m.(pc := k.fall), [d]);
    if o.Next? {
      QuietStreams(k, w, m, o.m);
      if x.Push? || S.PushesTwo(x) {
        StackPorts(k, w, e, m, d);
      } else {
        QuietPorts(k, w, d);
      }
    }
  }

  lemma MemoryPlainly(x: Sel)
    requires R.IsMemory(x)
    ensures !RowOutEn(x) && !x.In? && !x.TrapRet? && !x.Ext? && !x.Halt? && !x.MovMbHl?
    ensures RowREn(x) <==> LoadsReg(x)
  {
  }

  lemma MemoryTouchesFlags(x: Sel)
    requires R.IsMemory(x)
    ensures !TouchesC(x) && !TouchesZ(x) && !TouchesS(x) && !TouchesV(x)
  {
  }

  lemma MemoryTouches(x: Sel)
    requires R.IsMemory(x)
    ensures !TouchesC(x) && !TouchesZ(x) && !TouchesS(x) && !TouchesV(x)
    ensures !TouchesSp(x) && !TouchesPc(x)
  {
    hide TouchesC, TouchesZ, TouchesS, TouchesV;
    MemoryTouchesFlags(x);
  }

  predicate StoresData(x: Sel)
  {
    x.MovHlR? || x.MovDeR? || x.Stx? || x.StwHlDe? || x.StwDeHl?
  }

  lemma LoadedValue(x: Sel, w: Wires)
    requires LoadsReg(x)
    ensures RowREn(x) && RowRVal(x, w) == MemoryRVal(x, w)
  {
    QuietArith(x, w);
    QuietLogic(x, w);
    QuietUnary(x, w);
    QuietMoves(x, w);
    hide ArithRVal, LogicRVal, UnaryRVal, MoveRVal, MemoryRVal;
  }

  /** What a committed memory instruction changes besides DATA. */
  lemma StoreEffect(k: S.Look, e: R.Env, m: R.Core, d: R.Page)
    requires Lone(e) && k.fall <= CODE_SIZE && R.IsMemory(k.sel) && !LoadsReg(k.sel)
    ensures var x, m1 := k.sel, m.(pc := k.fall);
      var o := R.ExecMemory(x, e, k.a, m1, [d]);
      o.Next? ==>
        && (StoresData(x) || o.pg == [d])
        && (!x.Stc? ==> o.m == m1.(hl := o.m.hl, de := o.m.de))
        && (x.Stc? ==> o.m == m1.(code := o.m.code, stcCount := m.stcCount + 1, stcFirst := o.m.stcFirst))
  {
    hide R.FlagsByte, Covered, R.Put, R.Put16, Signed, R.Vector, R.Frame;
  }

  lemma LoadEffect(k: S.Look, w: Wires, e: R.Env, m: R.Core, d: R.Page)
    requires Lone(e) && k.fall <= CODE_SIZE && R.IsMemory(k.sel) && LoadsReg(k.sel)
    requires WiredState(w, m) && WiredOperands(w, k, m) && WiredMemory(w, k, e, m, d)
    ensures var x, m1 := k.sel, m.(pc := k.fall);
      var o := R.ExecMemory(x, e, k.a, m1, [d]);
      o.Next? ==> o.pg == [d] && o.m == m1.(r := m.r[k.a.s0 := Low8(MemoryRVal(x, w))])
  {
    hide R.FlagsByte, Covered, R.Put, R.Put16, Signed, R.Vector;
  }

  lemma MemoryEffect(k: S.Look, w: Wires, e: R.Env, m: R.Core, d: R.Page)
    requires Lone(e) && k.fall <= CODE_SIZE && R.IsMemory(k.sel)
    requires WiredState(w, m) && WiredOperands(w, k, m) && WiredMemory(w, k, e, m, d)
    ensures var x, m1 := k.sel, m.(pc := k.fall);
      var o := R.ExecMemory(x, e, k.a, m1, [d]);
      o.Next? ==>
        && (StoresData(x) || o.pg == [d])
        && (LoadsReg(x) ==> o.m == m1.(r := m.r[k.a.s0 := Low8(MemoryRVal(x, w))]))
        && (!LoadsReg(x) && !x.Stc? ==> o.m == m1.(hl := o.m.hl, de := o.m.de))
        && (x.Stc? ==> o.m == m1.(code := o.m.code, stcCount := m.stcCount + 1, stcFirst := o.m.stcFirst))
  {
    hide R.ExecMemory, R.Family, MemoryRVal, StoresData, WiredState, WiredOperands, WiredMemory;
    if LoadsReg(k.sel) {
      LoadEffect(k, w, e, m, d);
    } else {
      StoreEffect(k, e, m, d);
    }
  }

  lemma WordLoadPointers(k: S.Look, w: Wires, e: R.Env, m: R.Core, d: R.Page)
    requires Lone(e) && k.fall <= CODE_SIZE && (k.sel.LdwHlDe? || k.sel.LdwDeHl?)
    requires WiredState(w, m) && WiredMemory(w, k, e, m, d)
    ensures var x := k.sel;
      var o := R.ExecMemory(x, e, k.a, m.(pc := k.fall), [d]);
      o.Next? ==> RowHl(x, w) == o.m.hl && RowDe(x, w) == o.m.de
  {
    hide R.FlagsByte, R.Frame, Signed, Covered, R.Put, R.Put16, R.Vector;
  }

  lemma OtherMemoryTouches(x: Sel)
    requires R.IsMemory(x) && !x.LdwHlDe? && !x.LdwDeHl?
    ensures !TouchesHl(x) && !TouchesDe(x)
  {
  }

  lemma OtherMemoryPointers(x: Sel, e: R.Env, a: R.Args, m: R.Core, pg: seq<R.Page>)
    requires R.Fits(e, pg) && R.IsMemory(x) && !x.LdwHlDe? && !x.LdwDeHl?
    ensures var o := R.ExecMemory(x, e, a, m, pg); o.Next? ==> o.m.hl == m.hl && o.m.de == m.de
  {
    hide R.FlagsByte, R.Frame, Signed, Covered, R.Put, R.Put16, R.Vector;
  }

  lemma MemoryPointers(k: S.Look, w: Wires, e: R.Env, m: R.Core, d: R.Page)
    requires Lone(e) && k.fall <= CODE_SIZE && R.IsMemory(k.sel)
    requires WiredState(w, m) && WiredMemory(w, k, e, m, d)
    ensures var x := k.sel;
      var o := R.ExecMemory(x, e, k.a, m.(pc := k.fall), [d]);
      o.Next? ==> RowHl(x, w) == o.m.hl && RowDe(x, w) == o.m.de
  {
    hide R.ExecMemory, R.Family, TouchesHl, TouchesDe, RowHl, RowDe, WiredMemory;
    if k.sel.LdwHlDe? || k.sel.LdwDeHl? {
      WordLoadPointers(k, w, e, m, d);
    } else {
      OtherMemoryTouches(k.sel);
      OtherMemoryPointers(k.sel, e, k.a, m.(pc := k.fall), [d]);
      QuietPointers(k.sel, w);
    }
  }

  lemma StorePorts(k: S.Look, w: Wires, m: R.Core)
    requires WiredState(w, m) && WiredOperands(w, k, m) && StoresData(k.sel)
    ensures var x := k.sel;
      var at := if x.MovHlR? || x.StwHlDe? then m.hl else if x.Stx? then R.Frame(m, k.a) else m.de;
      var v := if x.StwHlDe? then m.de else m.hl;
      && Addr1(x, w) == at && Val1(x, w) == (if OneStore(x) then m.r[k.a.s0] else v % 256)
      && (TwoStores(x) ==> Addr2(x, w) == at + 1 && Val2(x, w) == v / 256)
  {
    hide R.FlagsByte, R.Frame, Signed;
  }

  lemma MemoryPorts(k: S.Look, w: Wires, e: R.Env, m: R.Core, d: R.Page)
    requires Lone(e) && k.fall <= CODE_SIZE && StoresData(k.sel)
    requires WiredState(w, m) && WiredOperands(w, k, m)
    ensures var o := R.ExecMemory(k.sel, e, k.a, m.(pc := k.fall), [d]);
      o.Next? ==> PortsMatch(Rows(k.sel, k.fall, w), w, d, o.pg)
  {
    hide R.FlagsByte, Signed, PortsMatch, Rows, Port, Addr1, Val1, Addr2, Val2, Covered, WiredOperands,
         WiredState, R.Put;
    var x := k.sel;
    var o := R.ExecMemory(x, e, k.a, m.(pc := k.fall), [d]);
    if o.Next? {
      var at: nat := if x.MovHlR? || x.StwHlDe? then m.hl else if x.Stx? then R.Frame(m, k.a) else m.de;
      StorePorts(k, w, m);
      if OneStore(x) {
        OnePageUpdates(d, at, m.r[k.a.s0], at, 0);
        PortsOpen(k, w, d, at, m.r[k.a.s0], at, 0);
      } else {
        var v: nat := if x.StwHlDe? then m.de else m.hl;
        OnePageUpdates(d, at, v % 256, at + 1, v / 256);
        PortsOpen(k, w, d, at, v % 256, at + 1, v / 256);
      }
    }
  }

  lemma CodeStore(k: S.Look, w: Wires, e: R.Env, m: R.Core, d: R.Page)
    requires Lone(e) && k.fall <= CODE_SIZE && k.sel.Stc? && WiredOperands(w, k, m)
    ensures var o := R.ExecMemory(k.sel, e, k.a, m.(pc := k.fall), [d]);
      o.Next? ==> StreamsMatch(Rows(k.sel, k.fall, w), m, o.m, w.rr)
  {
    hide R.FlagsByte, Signed, RowRVal, RowC, RowZ, RowS, RowV, RowHl, RowDe, RowSp, RowPc, RowOutVal, Addr1,
         Val1, Addr2, Val2, RowREn;
  }

  lemma MemoryMatches(k: S.Look, w: Wires, e: R.Env, m: R.Core, d: R.Page)
    requires Lone(e) && k.fall <= CODE_SIZE && R.IsMemory(k.sel)
    requires WiredState(w, m) && WiredOperands(w, k, m) && WiredMemory(w, k, e, m, d)
    ensures Matches(k, w, m, d, R.ExecMemory(k.sel, e, k.a, m.(pc := k.fall), [d]))
  {
    hide RowRVal, MemoryRVal, RowC, RowZ, RowS, RowV, RowHl, RowDe, RowSp, RowPc, RowOutVal, Addr1, Val1,
         Addr2, Val2, RowREn, TouchesHl, TouchesDe, TouchesSp, TouchesPc, TouchesC, TouchesZ, TouchesS,
         TouchesV, RowOutEn, R.FlagsByte, StreamsMatch, PortsMatch, R.Vector, WiredOperands, R.ExecMemory;
    var x := k.sel;
    MemoryPlainly(x);
    MemoryTouches(x);
    QuietFlags(x, w);
    QuietC(x, w);
    QuietControl(x, k.fall, w);
    MemoryEffect(k, w, e, m, d);
    MemoryPointers(k, w, e, m, d);
    var o := R.ExecMemory(x, e, k.a, m.(pc := k.fall), [d]);
    if o.Next? {
      if LoadsReg(x) {
        LoadedValue(x, w);
      }
      if x.Stc? {
        CodeStore(k, w, e, m, d);
      } else {
        QuietStreams(k, w, m, o.m);
      }
      if StoresData(x) {
        MemoryPorts(k, w, e, m, d);
      } else {
        QuietPorts(k, w, d);
      }
    }
  }

  lemma StreamPlainly(x: Sel)
    requires R.IsStream(x)
    ensures StoresNothing(x) && !x.Stc? && !x.Ext? && !x.TrapRet? && !x.Halt? && !x.MovMbHl?
    ensures RowREn(x) <==> x.In?
    ensures RowOutEn(x) <==> !x.In?
    ensures x.In? || x.Out? || x.OutM? || x.OutDe?
  {
  }

  lemma StreamTouchesFlags(x: Sel)
    requires R.IsStream(x)
    ensures !TouchesZ(x) && !TouchesS(x) && !TouchesV(x)
  {
  }

  lemma StreamTouches(x: Sel)
    requires R.IsStream(x)
    ensures !TouchesZ(x) && !TouchesS(x) && !TouchesV(x) && !TouchesSp(x) && !TouchesPc(x)
  {
    hide TouchesZ, TouchesS, TouchesV;
    StreamTouchesFlags(x);
  }

  lemma StreamRows(x: Sel, w: Wires)
    requires R.IsStream(x)
    ensures RowHl(x, w) == w.hl + B(x.OutM?) && RowDe(x, w) == w.de + B(x.OutDe?)
  {
  }

  lemma StreamPointers(k: S.Look, w: Wires, e: R.Env, m: R.Core, d: R.Page)
    requires Lone(e) && k.fall <= CODE_SIZE && R.IsStream(k.sel) && WiredState(w, m)
    ensures var x := k.sel;
      var o := R.ExecStream(x, e, k.a, m.(pc := k.fall), [d]);
      o.Next? ==> o.pg == [d] && Low16(RowHl(x, w)) == o.m.hl && Low16(RowDe(x, w)) == o.m.de
  {
    hide R.FlagsByte, R.Frame, Signed, RowHl, RowDe;
    StreamRows(k.sel, w);
  }

  lemma StreamOutput(k: S.Look, w: Wires, e: R.Env, m: R.Core, d: R.Page)
    requires Lone(e) && k.fall <= CODE_SIZE && R.IsStream(k.sel) && !k.sel.In?
    requires WiredOperands(w, k, m) && WiredMemory(w, k, e, m, d)
    ensures var x, m1 := k.sel, m.(pc := k.fall);
      var o := R.ExecStream(x, e, k.a, m1, [d]);
      o.Next? ==>
        && o.m == m1.(hl := o.m.hl, de := o.m.de, out := m.out + [Low8(RowOutVal(x, w))])
        && 0 <= RowOutVal(x, w) < 256
  {
    hide R.FlagsByte, R.Frame, Signed, R.Vector;
  }

  lemma InputRows(k: S.Look, w: Wires, e: R.Env, m: R.Core, d: R.Page)
    requires Lone(e) && k.fall <= CODE_SIZE && k.sel.In?
    requires WiredState(w, m) && WiredMemory(w, k, e, m, d)
    ensures R.ExecStream(k.sel, e, k.a, m.(pc := k.fall), [d])
            == R.Next(m.(pc := k.fall, r := m.r[k.a.s0 := Low8(MemoryRVal(In, w))],
                         c := if w.eof then 1 else m.c, ipos := if w.eof then m.ipos else m.ipos + 1), [d])
    ensures RowC(In, w) == if w.eof then 1 else m.c
  {
    hide R.FlagsByte, R.Frame, Signed;
    QuietArith(In, w);
    QuietUnary(In, w);
    hide ArithC, UnaryC;
  }

  lemma StreamC(x: Sel, w: Wires)
    requires x.Out? || x.OutM? || x.OutDe?
    ensures RowC(x, w) == w.c
  {
    QuietC(x, w);
    hide RowC;
  }

  lemma StreamMatches(k: S.Look, w: Wires, e: R.Env, m: R.Core, d: R.Page)
    requires Lone(e) && k.fall <= CODE_SIZE && R.IsStream(k.sel)
    requires WiredState(w, m) && WiredOperands(w, k, m) && WiredMemory(w, k, e, m, d)
    ensures Matches(k, w, m, d, R.ExecStream(k.sel, e, k.a, m.(pc := k.fall), [d]))
  {
    hide RowRVal, MemoryRVal, RowC, RowZ, RowS, RowV, RowHl, RowDe, RowSp, RowPc, RowOutVal, Addr1, Val1,
         Addr2, Val2, RowREn, TouchesHl, TouchesDe, TouchesSp, TouchesPc, TouchesC, TouchesZ, TouchesS,
         TouchesV, R.FlagsByte, PortsMatch, R.Vector, WiredOperands, R.ExecStream, RowOutEn, StoresNothing;
    var x := k.sel;
    StreamPlainly(x);
    StreamTouches(x);
    QuietFlags(x, w);
    QuietControl(x, k.fall, w);
    QuietPorts(k, w, d);
    StreamPointers(k, w, e, m, d);
    if x.In? {
      InputRows(k, w, e, m, d);
      LoadedValue(x, w);
    } else {
      StreamC(x, w);
      StreamOutput(k, w, e, m, d);
    }
  }

  lemma BankPlainly(x: Sel)
    requires R.IsBank(x)
    ensures !x.Stc? && !x.In? && !x.Ext? && !x.TrapRet? && !x.Halt? && !x.MovMbHl? && !RowOutEn(x)
    ensures RowREn(x) <==> x.Ldm?
    ensures !TouchesC(x) && !TouchesZ(x) && !TouchesS(x) && !TouchesV(x) && !TouchesSp(x) && !TouchesPc(x)
  {
  }

  predicate StoresBank(x: Sel) { x.Stm? || x.StmwHlDe? || x.StmwDeHl? }

  /** A lone machine's bank access commits on its own page only. */
  lemma BankEffect(k: S.Look, w: Wires, e: R.Env, m: R.Core, d: R.Page)
    requires Lone(e) && k.fall <= CODE_SIZE && R.IsBank(k.sel)
    requires WiredState(w, m) && WiredMemory(w, k, e, m, d)
    ensures var x, m1 := k.sel, m.(pc := k.fall);
      var o := R.ExecBank(x, e, k.a, m1, [d]);
      o.Next? ==>
        && m.mb == 0 && (StoresBank(x) || o.pg == [d])
        && RowHl(x, w) == o.m.hl && RowDe(x, w) == o.m.de
        && o.m == m1.(hl := o.m.hl, de := o.m.de, r := if x.Ldm? then m.r[k.a.s0 := Low8(MemoryRVal(x, w))] else m.r)
  {
    hide R.FlagsByte, Covered, R.Put, R.Put16, Signed, R.Vector, R.PageRegions;
  }

  lemma BankStores(k: S.Look, w: Wires, m: R.Core)
    requires WiredState(w, m) && WiredOperands(w, k, m) && StoresBank(k.sel)
    ensures var x := k.sel;
      var at := if x.StmwDeHl? then m.de else m.hl;
      var v := if x.StmwHlDe? then m.de else m.hl;
      && Addr1(x, w) == at && Val1(x, w) == (if x.Stm? then m.r[k.a.s0] else v % 256)
      && (TwoStores(x) ==> Addr2(x, w) == at + 1 && Val2(x, w) == v / 256)
  {
    hide R.FlagsByte, R.Frame, Signed;
  }

  lemma BankPorts(k: S.Look, w: Wires, e: R.Env, m: R.Core, d: R.Page)
    requires Lone(e) && k.fall <= CODE_SIZE && StoresBank(k.sel)
    requires WiredState(w, m) && WiredOperands(w, k, m)
    ensures var o := R.ExecBank(k.sel, e, k.a, m.(pc := k.fall), [d]);
      o.Next? ==> PortsMatch(Rows(k.sel, k.fall, w), w, d, o.pg)
  {
    hide R.FlagsByte, Signed, PortsMatch, Rows, Port, Addr1, Val1, Addr2, Val2, Covered, WiredOperands,
         WiredState, R.Put;
    var x := k.sel;
    var o := R.ExecBank(x, e, k.a, m.(pc := k.fall), [d]);
    if o.Next? {
      var at: nat := if x.StmwDeHl? then m.de else m.hl;
      BankStores(k, w, m);
      if x.Stm? {
        OnePageUpdates(d, at, m.r[k.a.s0], at, 0);
        PortsOpen(k, w, d, at, m.r[k.a.s0], at, 0);
      } else {
        var v: nat := if x.StmwHlDe? then m.de else m.hl;
        OnePageUpdates(d, at, v % 256, at + 1, v / 256);
        PortsOpen(k, w, d, at, v % 256, at + 1, v / 256);
      }
    }
  }

  lemma BankMatches(k: S.Look, w: Wires, e: R.Env, m: R.Core, d: R.Page)
    requires Lone(e) && k.fall <= CODE_SIZE && R.IsBank(k.sel)
    requires WiredState(w, m) && WiredOperands(w, k, m) && WiredMemory(w, k, e, m, d)
    ensures Matches(k, w, m, d, R.ExecBank(k.sel, e, k.a, m.(pc := k.fall), [d]))
  {
    hide RowRVal, MemoryRVal, RowC, RowZ, RowS, RowV, RowHl, RowDe, RowSp, RowPc, RowOutVal, Addr1, Val1,
         Addr2, Val2, RowREn, TouchesHl, TouchesDe, TouchesSp, TouchesPc, TouchesC, TouchesZ, TouchesS,
         TouchesV, R.FlagsByte, PortsMatch, R.Vector, WiredOperands, R.ExecBank, StreamsMatch, RowOutEn;
    var x := k.sel;
    BankPlainly(x);
    QuietFlags(x, w);
    QuietC(x, w);
    QuietControl(x, k.fall, w);
    BankEffect(k, w, e, m, d);
    var o := R.ExecBank(x, e, k.a, m.(pc := k.fall), [d]);
    if o.Next? {
      QuietStreams(k, w, m, o.m);
      if x.Ldm? {
        LoadedValue(x, w);
      }
      if StoresBank(x) {
        BankPorts(k, w, e, m, d);
      } else {
        QuietPorts(k, w, d);
      }
    }
  }

  lemma TrapPlainly(x: Sel)
    requires x.Ext? || x.TrapRet?
    ensures !x.Stc? && !x.In? && !x.Halt? && !x.MovMbHl? && !RowOutEn(x) && !RowREn(x)
    ensures !TouchesHl(x) && !TouchesDe(x)
  {
  }

  /** The frame: four ports, four cells, downwards from the stack pointer. */
  lemma FramePorts(k: S.Look, w: Wires, m: R.Core, d: R.Page)
    requires k.sel.Ext? && k.fall <= CODE_SIZE && 4 <= m.sp
    requires WiredState(w, m) && WiredOperands(w, k, m)
    ensures PortsMatch(Rows(k.sel, k.fall, w), w, d,
                       R.PushFrame([d], 0, m.sp, R.FlagsByte(m.z, m.c, m.s, m.v), k.fall))
  {
    hide R.FlagsByte, R.Frame, Signed, RowRVal, RowC, RowZ, RowS, RowV, RowHl, RowDe, RowSp, RowPc, RowOutVal,
         RowREn;
  }

  lemma TrapRows(k: S.Look, w: Wires, e: R.Env, m: R.Core, d: R.Page)
    requires Lone(e) && k.fall <= CODE_SIZE && (k.sel.Ext? || k.sel.TrapRet?)
    requires WiredState(w, m) && WiredOperands(w, k, m) && WiredMemory(w, k, e, m, d)
    ensures var x, m1 := k.sel, m.(pc := k.fall);
      var o := R.ExecTrap(x, e, k.a, m1, [d]);
      o.Next? ==>
        && RowPc(x, k.fall, w) == o.m.pc && RowSp(x, w) == o.m.sp && RowTd(x, w) == o.m.td
        && (x.Ext? ==> 4 <= m.sp && o.m == m1.(pc := o.m.pc, sp := o.m.sp, td := o.m.td)
                       && o.pg == R.PushFrame([d], 0, m.sp, R.FlagsByte(m.z, m.c, m.s, m.v), k.fall))
        && (x.TrapRet? ==> o.pg == [d] && o.m == R.Unpacked(m1, w.dsp2).(pc := o.m.pc, sp := o.m.sp, td := o.m.td))
  {
    hide R.FlagsByte, R.Frame, Signed, R.PushFrame, R.Vector, R.StackCovered, Covered;
  }

  lemma TrapFlagRows(x: Sel, w: Wires)
    requires x.Ext? || x.TrapRet?
    ensures x.Ext? ==> RowC(x, w) == w.c && RowZ(x, w) == w.z && RowS(x, w) == w.s && RowV(x, w) == w.v
    ensures x.TrapRet? ==> RowC(x, w) == w.dsp2 / 2 % 2 && RowZ(x, w) == w.dsp2 % 2
                           && RowS(x, w) == w.dsp2 / 4 % 2 && RowV(x, w) == w.dsp2 / 8 % 2
  {
    QuietArith(x, w);
    QuietUnary(x, w);
    QuietLogic(x, w);
    hide ArithC, UnaryC, ArithZ, LogicZ, UnaryZ;
  }

  lemma TrapMatches(k: S.Look, w: Wires, e: R.Env, m: R.Core, d: R.Page)
    requires Lone(e) && k.fall <= CODE_SIZE && (k.sel.Ext? || k.sel.TrapRet?)
    requires WiredState(w, m) && WiredOperands(w, k, m) && WiredMemory(w, k, e, m, d)
    ensures Matches(k, w, m, d, R.ExecTrap(k.sel, e, k.a, m.(pc := k.fall), [d]))
  {
    hide RowRVal, MemoryRVal, RowC, RowZ, RowS, RowV, RowHl, RowDe, RowSp, RowPc, RowOutVal, Addr1, Val1,
         Addr2, Val2, RowREn, TouchesHl, TouchesDe, TouchesSp, TouchesPc, TouchesC, TouchesZ, TouchesS,
         TouchesV, R.FlagsByte, PortsMatch, R.Vector, WiredOperands, R.ExecTrap, StreamsMatch, RowOutEn,
         RowTd, R.PushFrame;
    var x := k.sel;
    TrapPlainly(x);
    QuietPointers(x, w);
    TrapFlagRows(x, w);
    TrapRows(k, w, e, m, d);
    var o := R.ExecTrap(x, e, k.a, m.(pc := k.fall), [d]);
    if o.Next? {
      QuietStreams(k, w, m, o.m);
      if x.Ext? {
        FramePorts(k, w, m, d);
      } else {
        QuietPorts(k, w, d);
      }
    }
  }

  // ------------------------------------------------------------- the site signals

  predicate ReadRow(x: Sel, w: Wires)
  {
    || ((x.MovRHl? || x.MovHlR?) && !(w.hl < DATA_SIZE))
    || ((x.MovRDe? || x.MovDeR?) && !(w.de < DATA_SIZE))
    || (x.OutM? && !(w.hl < DATA_SIZE)) || (x.OutDe? && !(w.de < DATA_SIZE))
    || ((x.StwHlDe? || x.LdwDeHl?) && !(w.hl + 1 < DATA_SIZE))
    || ((x.StwDeHl? || x.LdwHlDe?) && !(w.de + 1 < DATA_SIZE))
    || ((x.Ldx? || x.Stx?) && !(w.fr < DATA_SIZE))
    || ((x.Ldm? || x.Stm?) && !(w.hl < DATA_SIZE))
    || ((x.LdmwDeHl? || x.StmwHlDe?) && !(w.hl + 1 < DATA_SIZE))
    || ((x.LdmwHlDe? || x.StmwDeHl?) && !(w.de + 1 < DATA_SIZE))
  }

  predicate PushRow(x: Sel, w: Wires, splim: nat)
  {
    var room := w.sp - splim;
    var inside := w.sp <= DATA_SIZE;
    || (x.Push? && !(room > 0 && inside))
    || (x.Call? && !(room >= 2 && inside)) || (x.CallHl? && !(room >= 2 && inside))
    || (x.Ext? && !(room >= 4 && inside))
    || ((x.PushwHl? || x.PushwDe?) && !(room >= 2 && inside))
  }

  predicate PopRow(x: Sel, w: Wires)
  {
    || (x.Pop? && !(w.sp < DATA_SIZE)) || (x.Ret? && !(w.sp + 1 < DATA_SIZE))
    || (x.TrapRet? && !(w.sp + 4 <= DATA_SIZE))
    || ((x.PopwHl? || x.PopwDe?) && !(w.sp + 2 <= DATA_SIZE))
  }

  predicate SpRow(x: Sel, w: Wires)
  {
    || (x.MovwSpHl? && !(w.hl <= DATA_SIZE)) || (x.MovwSpDe? && !(w.de <= DATA_SIZE))
    || (x.AddSp? && !((w.sp + w.sx) % 65536 <= DATA_SIZE))
  }

  predicate BankRow(x: Sel)
  {
    x.Ldm? || x.Stm? || x.LdmwDeHl? || x.LdmwHlDe? || x.StmwHlDe? || x.StmwDeHl?
  }

  predicate ExtOk(w: Wires) { w.imm0 < VEC_COUNT && w.vec != 0 }

  predicate TagOk(w: Wires) { w.dsp3 == TRAP_TAG }

  predicate PcHit(x: Sel, fall: nat, w: Wires, cf: Config)
  {
    var cl := cf.codelen;
    var live := w.td > 0 && w.sp + 4 <= DATA_SIZE && TagOk(w);
    || ((x.Jmp? || x.Call?) && w.t16 >= cl)
    || (x.Ret? && Retv(w) >= cl) || (x.TrapRet? && live && Retv(w) >= cl)
    || (x.Jz? && w.z == 1 && w.t16 >= cl) || (x.Jnz? && w.z == 0 && w.t16 >= cl)
    || (x.Jc? && w.c == 1 && w.t16 >= cl) || (x.Jnc? && w.c == 0 && w.t16 >= cl)
    || (x.Djnz? && VDj(w) != 0 && w.t16 >= cl)
    || (((x.Js? && w.s == 1) || (x.Jns? && w.s == 0) || (x.Vs? && w.v == 1)
         || (x.Vc? && w.v == 0)) && Rel(fall, w) >= cl)
    || (x.JpHl? && w.hl >= cl) || (x.CallHl? && w.hl >= cl)
    || (x.Ext? && ExtOk(w) && w.td != cf.tdlim && w.vec >= cl)
  }

  /** `(a >= lo) & (a < hi)` over the four declared pairs, undeclared ones being `(0, 0)`. */
  predicate Hit(pairs: seq<Region>, a: int)
    requires |pairs| == REGIONS_MAX
  {
    || pairs[0].lo <= a < pairs[0].hi || pairs[1].lo <= a < pairs[1].hi
    || pairs[2].lo <= a < pairs[2].hi || pairs[3].lo <= a < pairs[3].hi
  }

  function PaddedRegions(regions: seq<Region>): (pairs: seq<Region>)
    requires |regions| <= REGIONS_MAX
    ensures |pairs| == REGIONS_MAX
  {
    regions + seq(REGIONS_MAX - |regions|, _ => Region(0, 0))
  }

  lemma PaddingHitsNothing(regions: seq<Region>, a: int)
    requires |regions| <= REGIONS_MAX
    ensures Hit(PaddedRegions(regions), a) <==> Covered(regions, a)
  {
    var pairs := PaddedRegions(regions);
    assert forall i :: |regions| <= i < REGIONS_MAX ==> pairs[i] == Region(0, 0);
    assert forall i :: 0 <= i < |regions| ==> pairs[i] == regions[i];
    if Covered(regions, a) {
      var i :| 0 <= i < |regions| && regions[i].lo <= a < regions[i].hi;
      assert pairs[i].lo <= a < pairs[i].hi;
    }
  }

  predicate RegionRow(x: Sel, w: Wires, pairs: seq<Region>)
    requires |pairs| == REGIONS_MAX
  {
    || (En1(x) && Hit(pairs, Addr1(x, w))) || (En2(x) && Hit(pairs, Addr2(x, w)))
    || (x.Ext? && Hit(pairs, w.sp - 3)) || (x.Ext? && Hit(pairs, w.sp - 4))
  }

  lemma ReadAgrees(k: S.Look, w: Wires, m: R.Core)
    requires WiredState(w, m) && WiredOperands(w, k, m)
    ensures ReadRow(k.sel, w) == S.ReadsOutside(k, m)
  {
    hide R.Frame, Signed, R.FlagsByte;
  }

  lemma PushAgrees(k: S.Look, w: Wires, m: R.Core, cf: Config)
    requires WiredState(w, m)
    ensures PushRow(k.sel, w, cf.splim) == S.PushesOver(cf, k, m)
  {
    hide R.FlagsByte;
  }

  lemma PopAgrees(k: S.Look, w: Wires, m: R.Core)
    requires WiredState(w, m)
    ensures PopRow(k.sel, w) == S.PopsUnder(k, m)
  {
    hide R.FlagsByte;
  }

  lemma SpAgrees(k: S.Look, w: Wires, m: R.Core)
    requires WiredState(w, m) && WiredOperands(w, k, m)
    ensures SpRow(k.sel, w) == (R.IsPointer(k.sel) && S.SpLeaves(k, m))
  {
    hide R.Frame, Signed, R.FlagsByte;
  }

  lemma RegistersAgree(k: S.Look, w: Wires, e: R.Env, m: R.Core, d: R.Page)
    requires Lone(e) && WiredState(w, m) && WiredOperands(w, k, m) && WiredMemory(w, k, e, m, d) && k.sel.Ext?
    ensures ExtOk(w) == S.Registered(e, k, [d])
  {
    hide R.Vector;
  }

  lemma PcOfTrap(k: S.Look, w: Wires, e: R.Env, m: R.Core, d: R.Page)
    requires Lone(e) && WiredState(w, m) && WiredOperands(w, k, m) && WiredMemory(w, k, e, m, d)
    requires k.sel.Ext? || k.sel.TrapRet?
    ensures PcHit(k.sel, k.fall, w, e.cf) == S.LeavesImage(e, k, m, [d])
  {
    hide R.Frame, Signed, R.FlagsByte, R.Vector, S.BranchLeaves, S.StackLeaves;
  }

  lemma PcOfStack(k: S.Look, w: Wires, e: R.Env, m: R.Core, d: R.Page)
    requires Lone(e) && WiredState(w, m) && WiredOperands(w, k, m) && WiredMemory(w, k, e, m, d)
    requires k.sel.Call? || k.sel.CallHl? || k.sel.Ret?
    ensures PcHit(k.sel, k.fall, w, e.cf) == S.LeavesImage(e, k, m, [d])
  {
    hide R.Frame, Signed, R.FlagsByte, R.Vector, S.BranchLeaves, S.TrapLeaves;
  }

  lemma RelativeWraps(k: S.Look, w: Wires, m: R.Core)
    requires WiredOperands(w, k, m) && UsesByte(k.sel)
    ensures Rel(k.fall, w) == Low16(k.fall + Signed(k.a.i0))
  {
    hide Signed, R.Frame;
  }

  lemma RelativeFamily(x: Sel)
    requires x.Js? || x.Jns? || x.Vs? || x.Vc?
    ensures R.IsBranch(x)
  {
  }

  lemma JumpFamily(x: Sel)
    requires x.Jmp? || x.Jz? || x.Jnz? || x.Jc? || x.Jnc? || x.Djnz? || x.JpHl?
    ensures R.IsBranch(x)
  {
  }

  lemma PcOfRelative(k: S.Look, w: Wires, e: R.Env, m: R.Core, d: R.Page)
    requires Lone(e) && WiredState(w, m) && WiredOperands(w, k, m) && WiredMemory(w, k, e, m, d)
    requires k.sel.Js? || k.sel.Jns? || k.sel.Vs? || k.sel.Vc?
    ensures PcHit(k.sel, k.fall, w, e.cf) == S.LeavesImage(e, k, m, [d])
  {
    hide R.Frame, Signed, R.FlagsByte, R.Vector, S.StackLeaves, S.TrapLeaves, WiredMemory, Low16, R.T16, VDj,
         R.Family, Legal;
    RelativeFamily(k.sel);
    assert Rel(k.fall, w) == Low16(k.fall + Signed(k.a.i0)) by { RelativeWraps(k, w, m); }
  }

  lemma PcOfJump(k: S.Look, w: Wires, e: R.Env, m: R.Core, d: R.Page)
    requires Lone(e) && WiredState(w, m) && WiredOperands(w, k, m) && WiredMemory(w, k, e, m, d)
    requires k.sel.Jmp? || k.sel.Jz? || k.sel.Jnz? || k.sel.Jc? || k.sel.Jnc? || k.sel.Djnz? || k.sel.JpHl?
    ensures PcHit(k.sel, k.fall, w, e.cf) == S.LeavesImage(e, k, m, [d])
  {
    hide R.Frame, Signed, R.FlagsByte, R.Vector, S.StackLeaves, S.TrapLeaves, WiredMemory, R.Family, Legal;
    JumpFamily(k.sel);
  }

  lemma PcOfOthers(k: S.Look, w: Wires, e: R.Env, m: R.Core, d: R.Page)
    requires Lone(e) && WiredState(w, m) && WiredOperands(w, k, m) && WiredMemory(w, k, e, m, d)
    requires !TouchesPc(k.sel)
    ensures PcHit(k.sel, k.fall, w, e.cf) == S.LeavesImage(e, k, m, [d])
  {
    hide R.Frame, Signed, R.FlagsByte, R.Vector, R.Family, WiredState, WiredOperands, WiredMemory;
  }

  lemma PcAgrees(k: S.Look, w: Wires, e: R.Env, m: R.Core, d: R.Page)
    requires Lone(e) && WiredState(w, m) && WiredOperands(w, k, m) && WiredMemory(w, k, e, m, d)
    ensures PcHit(k.sel, k.fall, w, e.cf) == S.LeavesImage(e, k, m, [d])
  {
    hide PcHit, S.LeavesImage, WiredState, WiredOperands, WiredMemory;
    if k.sel.Ext? || k.sel.TrapRet? {
      PcOfTrap(k, w, e, m, d);
    } else if k.sel.Call? || k.sel.CallHl? || k.sel.Ret? {
      PcOfStack(k, w, e, m, d);
    } else if k.sel.Js? || k.sel.Jns? || k.sel.Vs? || k.sel.Vc? {
      PcOfRelative(k, w, e, m, d);
    } else if TouchesPc(k.sel) {
      PcOfJump(k, w, e, m, d);
    } else {
      PcOfOthers(k, w, e, m, d);
    }
  }

  lemma MemoryWriters(x: Sel)
    requires x.MovHlR? || x.MovDeR? || x.Stx? || x.StwHlDe? || x.StwDeHl?
    ensures R.IsMemory(x)
  {
  }

  lemma StackWriters(x: Sel)
    requires x.Push? || S.PushesTwo(x)
    ensures R.IsStack(x)
  {
  }

  lemma BankWriters(x: Sel)
    requires x.Stm? || x.StmwHlDe? || x.StmwDeHl? || x.Ext?
    ensures if x.Ext? then R.IsTrap(x) else R.IsBank(x)
  {
  }

  lemma RegionAgrees(k: S.Look, w: Wires, e: R.Env, m: R.Core)
    requires Lone(e) && WiredState(w, m) && WiredOperands(w, k, m)
    ensures RegionRow(k.sel, w, PaddedRegions(e.cf.regions)) == S.StoresCovered(e, k, m)
            || (R.IsBank(k.sel) && m.mb != 0)
  {
    hide R.Frame, Signed, R.FlagsByte, Hit, PaddedRegions, Covered, PowerOfTwo, R.Family;
    var x, rg := k.sel, e.cf.regions;
    if x.MovHlR? || x.MovDeR? || x.Stx? || x.StwHlDe? || x.StwDeHl? {
      MemoryWriters(x);
    } else if x.Push? || S.PushesTwo(x) {
      StackWriters(x);
    } else if x.Stm? || x.StmwHlDe? || x.StmwDeHl? || x.Ext? {
      BankWriters(x);
    }
    PaddingHitsNothing(rg, Addr1(x, w));
    PaddingHitsNothing(rg, Addr2(x, w));
    PaddingHitsNothing(rg, w.sp - 3);
    PaddingHitsNothing(rg, w.sp - 4);
  }

  const BANK_PAGES := 1
  const BANK_OWN := 0

  /** The codes, in the order of the sites. */
  const CODES: seq<nat> := seq(|S.ORDER|, i requires 0 <= i < |S.ORDER| => Code(S.CauseOf(S.ORDER[i])))

  /** One signal per site, each evaluated on its own, for the selected row. */
  function Fired(x: Sel, esc: bool, fall: nat, w: Wires, cf: Config, oplen: nat, pairs: seq<Region>)
    : (g: seq<bool>)
    requires |pairs| == REGIONS_MAX
    ensures |g| == |S.ORDER|
  {
    var cl := cf.codelen;
    var inside := w.mb < cf.nbanks && w.mb < BANK_PAGES;
    [ PcHit(x, fall, w, cf) && fall <= cl && !PushRow(x, w, cf.splim) && !PopRow(x, w),
      !(w.pc < cl) || (esc && w.pc + PREFIX_BYTES > cl),
      x.Bad? && !esc,
      x.Bad? && esc,
      !(fall <= cl),
      BankRow(x) && !inside,
      BankRow(x) && inside && w.mb != BANK_OWN,
      x.Ext? && !ExtOk(w),
      x.Ext? && ExtOk(w) && w.td == cf.tdlim,
      x.TrapRet? && w.td == 0,
      ReadRow(x, w),
      PushRow(x, w, cf.splim),
      PopRow(x, w),
      x.TrapRet? && w.td > 0 && w.sp + 4 <= DATA_SIZE && !TagOk(w),
      (x.Div? || x.Mod?) && w.b == 0,
      (x.Ldc? || x.Stc?) && !(w.hl < cl),
      x.Stc? && w.hl < cl && !(cf.winlo <= w.hl < cf.winhi),
      SpRow(x, w),
      RowOutEn(x) && oplen >= cf.outcap,
      RegionRow(x, w, pairs) ]
  }

  function Fire(k: S.Look, w: Wires, e: R.Env, m: R.Core): (g: seq<bool>)
    requires Lone(e)
    ensures |g| == |S.ORDER|
  {
    Fired(k.sel, k.esc, k.fall, w, e.cf, |m.out|, PaddedRegions(e.cf.regions))
  }

  /** The entries of the signal vector, by position. */
  lemma FiredFetch(k: S.Look, w: Wires, e: R.Env, m: R.Core)
    requires Lone(e)
    ensures var x, g, cl := k.sel, Fire(k, w, e, m), e.cf.codelen;
      && g[0] == (PcHit(x, k.fall, w, e.cf) && k.fall <= cl && !PushRow(x, w, e.cf.splim) && !PopRow(x, w))
      && g[1] == (!(w.pc < cl) || (k.esc && w.pc + PREFIX_BYTES > cl))
      && g[2] == (x.Bad? && !k.esc) && g[3] == (x.Bad? && k.esc) && g[4] == !(k.fall <= cl)
      && g[5] == (BankRow(x) && !(w.mb < e.cf.nbanks && w.mb < BANK_PAGES))
      && g[6] == (BankRow(x) && w.mb < e.cf.nbanks && w.mb < BANK_PAGES && w.mb != BANK_OWN)
  {
    hide PcHit, PushRow, PopRow, ReadRow, SpRow, RegionRow, ExtOk, TagOk, RowOutEn, PaddedRegions, BankRow;
  }

  lemma FiredTrap(k: S.Look, w: Wires, e: R.Env, m: R.Core)
    requires Lone(e)
    ensures var x, g := k.sel, Fire(k, w, e, m);
      && g[7] == (x.Ext? && !ExtOk(w)) && g[8] == (x.Ext? && ExtOk(w) && w.td == e.cf.tdlim)
      && g[9] == (x.TrapRet? && w.td == 0)
      && g[13] == (x.TrapRet? && w.td > 0 && w.sp + 4 <= DATA_SIZE && !TagOk(w))
  {
    hide PcHit, PushRow, PopRow, ReadRow, SpRow, RegionRow, ExtOk, TagOk, RowOutEn, PaddedRegions, BankRow;
  }

  lemma FiredCode(k: S.Look, w: Wires, e: R.Env, m: R.Core)
    requires Lone(e)
    ensures var x, g, cl := k.sel, Fire(k, w, e, m), e.cf.codelen;
      && g[14] == ((x.Div? || x.Mod?) && w.b == 0) && g[15] == ((x.Ldc? || x.Stc?) && !(w.hl < cl))
      && g[16] == (x.Stc? && w.hl < cl && !(e.cf.winlo <= w.hl < e.cf.winhi))
  {
    hide PcHit, PushRow, PopRow, ReadRow, SpRow, RegionRow, ExtOk, TagOk, RowOutEn, PaddedRegions, BankRow;
  }

  lemma FetchSignals(k: S.Look, w: Wires, e: R.Env, m: R.Core, d: R.Page)
    requires Lone(e) && WiredState(w, m) && WiredOperands(w, k, m) && WiredMemory(w, k, e, m, d)
    ensures Fire(k, w, e, m)[0] == S.Fires(S.PcIllegalSite, k, e, m, [d])
    ensures Fire(k, w, e, m)[1] == S.Fires(S.FetchCode, k, e, m, [d])
    ensures Fire(k, w, e, m)[2] == S.Fires(S.BadOpcodeSite, k, e, m, [d])
    ensures Fire(k, w, e, m)[3] == S.Fires(S.BadSubcodeSite, k, e, m, [d])
    ensures Fire(k, w, e, m)[4] == S.Fires(S.FetchOperand, k, e, m, [d])
  {
    hide Fire, Fired, R.Frame, Signed, R.FlagsByte, R.Vector, PcHit, PushRow, PopRow, ReadRow, SpRow,
         RegionRow, ExtOk, S.ReadsOutside, S.PushesOver, S.PopsUnder, S.LeavesImage, S.StoresCovered,
         S.SpLeaves, S.Registered, RowOutEn, Hit, Covered, PaddedRegions, S.Clamped;
    FiredFetch(k, w, e, m);
    PcAgrees(k, w, e, m, d);
    PushAgrees(k, w, m, e.cf);
    PopAgrees(k, w, m);
  }

  lemma BankSignals(k: S.Look, w: Wires, e: R.Env, m: R.Core, d: R.Page)
    requires Lone(e) && WiredState(w, m) && WiredOperands(w, k, m) && WiredMemory(w, k, e, m, d)
    ensures Fire(k, w, e, m)[5] == S.Fires(S.BankOobSite, k, e, m, [d])
    ensures Fire(k, w, e, m)[6] == S.Fires(S.BankBusySite, k, e, m, [d])
  {
    hide Fire, Fired, R.Frame, Signed, R.FlagsByte, R.Vector, PcHit, PushRow, PopRow, ReadRow, SpRow,
         RegionRow, ExtOk, S.ReadsOutside, S.PushesOver, S.PopsUnder, S.LeavesImage, S.StoresCovered,
         S.SpLeaves, S.Registered, RowOutEn, Hit, Covered, PaddedRegions, S.Clamped;
    FiredFetch(k, w, e, m);
  }

  lemma UnregisteredSignal(k: S.Look, w: Wires, e: R.Env, m: R.Core, d: R.Page)
    requires Lone(e) && WiredState(w, m) && WiredOperands(w, k, m) && WiredMemory(w, k, e, m, d)
    ensures Fire(k, w, e, m)[7] == S.Fires(S.TrapUnregSite, k, e, m, [d])
  {
    hide Fire, Fired, R.Frame, Signed, R.FlagsByte, R.Vector, PcHit, PushRow, PopRow, ReadRow, SpRow, RegionRow,
         ExtOk, S.ReadsOutside, S.PushesOver, S.PopsUnder, S.LeavesImage, S.StoresCovered, S.SpLeaves, S.Registered,
         RowOutEn, Hit, Covered, PaddedRegions, Legal;
    FiredTrap(k, w, e, m);
    if k.sel.Ext? {
      RegistersAgree(k, w, e, m, d);
    }
  }

  lemma DepthSignal(k: S.Look, w: Wires, e: R.Env, m: R.Core, d: R.Page)
    requires Lone(e) && WiredState(w, m) && WiredOperands(w, k, m) && WiredMemory(w, k, e, m, d)
    ensures Fire(k, w, e, m)[8] == S.Fires(S.TrapDepthSite, k, e, m, [d])
  {
    hide Fire, Fired, R.Frame, Signed, R.FlagsByte, R.Vector, PcHit, PushRow, PopRow, ReadRow, SpRow, RegionRow,
         ExtOk, S.ReadsOutside, S.PushesOver, S.PopsUnder, S.LeavesImage, S.StoresCovered, S.SpLeaves, S.Registered,
         RowOutEn, Hit, Covered, PaddedRegions, Legal;
    FiredTrap(k, w, e, m);
    if k.sel.Ext? {
      RegistersAgree(k, w, e, m, d);
    }
  }

  lemma UnbalancedSignal(k: S.Look, w: Wires, e: R.Env, m: R.Core, d: R.Page)
    requires Lone(e) && WiredState(w, m) && WiredOperands(w, k, m) && WiredMemory(w, k, e, m, d)
    ensures Fire(k, w, e, m)[9] == S.Fires(S.TrapUnbalancedSite, k, e, m, [d])
  {
    hide Fire, Fired, R.Frame, Signed, R.FlagsByte, R.Vector, PcHit, PushRow, PopRow, ReadRow, SpRow, RegionRow,
         ExtOk, S.ReadsOutside, S.PushesOver, S.PopsUnder, S.LeavesImage, S.StoresCovered, S.SpLeaves, S.Registered,
         RowOutEn, Hit, Covered, PaddedRegions, Legal;
    FiredTrap(k, w, e, m);
  }

  lemma TrapSignals(k: S.Look, w: Wires, e: R.Env, m: R.Core, d: R.Page)
    requires Lone(e) && WiredState(w, m) && WiredOperands(w, k, m) && WiredMemory(w, k, e, m, d)
    ensures Fire(k, w, e, m)[7] == S.Fires(S.TrapUnregSite, k, e, m, [d])
    ensures Fire(k, w, e, m)[8] == S.Fires(S.TrapDepthSite, k, e, m, [d])
    ensures Fire(k, w, e, m)[9] == S.Fires(S.TrapUnbalancedSite, k, e, m, [d])
  {
    hide Fire, S.Fires, WiredState, WiredOperands, WiredMemory, Lone;
    UnregisteredSignal(k, w, e, m, d);
    DepthSignal(k, w, e, m, d);
    UnbalancedSignal(k, w, e, m, d);
  }

  lemma FrameSignal(k: S.Look, w: Wires, e: R.Env, m: R.Core, d: R.Page)
    requires Lone(e) && WiredState(w, m) && WiredOperands(w, k, m) && WiredMemory(w, k, e, m, d)
    ensures Fire(k, w, e, m)[13] == S.Fires(S.TrapFrameSite, k, e, m, [d])
  {
    hide Fire, Fired, R.Frame, Signed, R.FlagsByte, R.Vector, PcHit, PushRow, PopRow, ReadRow, SpRow, RegionRow,
         ExtOk, S.ReadsOutside, S.PushesOver, S.PopsUnder, S.LeavesImage, S.StoresCovered, S.SpLeaves, S.Registered,
         RowOutEn, Hit, Covered, PaddedRegions, Legal;
    FiredTrap(k, w, e, m);
  }

  lemma DataSignals(k: S.Look, w: Wires, e: R.Env, m: R.Core, d: R.Page)
    requires Lone(e) && WiredState(w, m) && WiredOperands(w, k, m) && WiredMemory(w, k, e, m, d)
    ensures Fire(k, w, e, m)[10] == S.Fires(S.DataOobSite, k, e, m, [d])
    ensures Fire(k, w, e, m)[11] == S.Fires(S.StackPush, k, e, m, [d])
    ensures Fire(k, w, e, m)[12] == S.Fires(S.StackPop, k, e, m, [d])
  {
    hide R.Frame, Signed, R.FlagsByte, R.Vector, PcHit, PushRow, PopRow, ReadRow, SpRow, RegionRow, ExtOk,
         S.ReadsOutside, S.PushesOver, S.PopsUnder, S.LeavesImage, S.StoresCovered, S.SpLeaves, S.Registered,
         RowOutEn, Hit, Covered, PaddedRegions, S.Clamped, Legal;
    ReadAgrees(k, w, m);
    PushAgrees(k, w, m, e.cf);
    PopAgrees(k, w, m);
  }

  lemma CodeSignals(k: S.Look, w: Wires, e: R.Env, m: R.Core, d: R.Page)
    requires Lone(e) && WiredState(w, m) && WiredOperands(w, k, m) && WiredMemory(w, k, e, m, d)
    ensures Fire(k, w, e, m)[14] == S.Fires(S.DivZeroSite, k, e, m, [d])
    ensures Fire(k, w, e, m)[15] == S.Fires(S.CodeOobSite, k, e, m, [d])
    ensures Fire(k, w, e, m)[16] == S.Fires(S.WindowSite, k, e, m, [d])
  {
    hide Fire, Fired, R.Frame, Signed, R.FlagsByte, R.Vector, PcHit, PushRow, PopRow, ReadRow, SpRow,
         RegionRow, ExtOk, S.ReadsOutside, S.PushesOver, S.PopsUnder, S.LeavesImage, S.StoresCovered,
         S.SpLeaves, S.Registered, RowOutEn, Hit, Covered, PaddedRegions, S.Clamped;
    FiredCode(k, w, e, m);
  }

  lemma LateSignals(k: S.Look, w: Wires, e: R.Env, m: R.Core, d: R.Page)
    requires Lone(e) && WiredState(w, m) && WiredOperands(w, k, m) && WiredMemory(w, k, e, m, d)
    ensures Fire(k, w, e, m)[17] == S.Fires(S.SpRange, k, e, m, [d])
    ensures Fire(k, w, e, m)[18] == S.Fires(S.OutCapSite, k, e, m, [d])
  {
    hide R.Frame, Signed, R.FlagsByte, R.Vector, PcHit, PushRow, PopRow, ReadRow, SpRow, RegionRow, ExtOk,
         S.ReadsOutside, S.PushesOver, S.PopsUnder, S.LeavesImage, S.StoresCovered, S.SpLeaves, S.Registered,
         Hit, Covered, PaddedRegions, S.Clamped;
    SpAgrees(k, w, m);
  }

  /** The region signal may differ only where a bank access has already named a page the
      machine does not hold. */
  lemma RegionSignal(k: S.Look, w: Wires, e: R.Env, m: R.Core, d: R.Page)
    requires Lone(e) && WiredState(w, m) && WiredOperands(w, k, m) && WiredMemory(w, k, e, m, d)
    ensures Fire(k, w, e, m)[19] == S.Fires(S.RegionViolSite, k, e, m, [d]) || Fire(k, w, e, m)[5]
  {
    hide R.Frame, Signed, R.FlagsByte, R.Vector, PcHit, PushRow, PopRow, ReadRow, SpRow, RegionRow, ExtOk,
         S.ReadsOutside, S.PushesOver, S.PopsUnder, S.LeavesImage, S.StoresCovered, S.SpLeaves, S.Registered,
         RowOutEn, Hit, Covered, PaddedRegions, S.Clamped;
    RegionAgrees(k, w, e, m);
  }

  lemma FiredFirst(k: S.Look, w: Wires, e: R.Env, m: R.Core, d: R.Page)
    requires Lone(e) && WiredState(w, m) && WiredOperands(w, k, m) && WiredMemory(w, k, e, m, d)
    ensures S.FirstUp(Fire(k, w, e, m)) == S.FirstCause(k, e, m, [d])
  {
    hide S.Fires, Fired, Fire, WiredState, WiredOperands, WiredMemory;
    FetchSignals(k, w, e, m, d);
    BankSignals(k, w, e, m, d);
    TrapSignals(k, w, e, m, d);
    FrameSignal(k, w, e, m, d);
    DataSignals(k, w, e, m, d);
    CodeSignals(k, w, e, m, d);
    LateSignals(k, w, e, m, d);
    RegionSignal(k, w, e, m, d);
  }

  /** The first signal that is up, or the end of the vector. */
  lemma FirstTrue(g: seq<bool>) returns (i: nat)
    ensures i <= |g| && (i < |g| ==> g[i]) && forall j :: 0 <= j < i ==> !g[j]
  {
    i := 0;
    while i < |g| && !g[i]
      invariant 0 <= i <= |g|
      invariant forall j :: 0 <= j < i ==> !g[j]
    {
      i := i + 1;
    }
  }

  /** The whole encoder over the twenty signals. */
  lemma CauseIsFirst(g: seq<bool>)
    requires |g| == |S.ORDER|
    ensures FaultCause(g, CODES) == Code(S.FirstUp(g))
  {
    hide S.FirstUp, Encoded;
    EncoderPicksFirst(g, CODES, |g|);
    var i := FirstTrue(g);
    S.FirstUpAt(g, i);
  }

  lemma FirstUpQuiet(g: seq<bool>)
    requires |g| == |S.ORDER| && S.FirstUp(g) == Ok
    ensures !g[18]
  {
  }

  // ---------------------------------------------------------------- the circuit

  /** `(ind * rows).sum()` for rows that depend on the selector alone. */
  function Sum(esc: bool, at: byte, f: Sel -> int): (v: int)
    ensures v == f(Rom(esc, at).sel)
  {
    Pick(at, i => f(Rom(esc, i).sel))
  }

  predicate Any(esc: bool, at: byte, f: Sel -> bool)
    ensures Any(esc, at, f) == f(Rom(esc, at).sel)
  {
    Sum(esc, at, x => B(f(x))) == 1
  }

  function SumNat(esc: bool, at: byte, f: Sel -> nat): (v: nat)
    ensures v == f(Rom(esc, at).sel)
  {
    Sum(esc, at, x => f(x))
  }

  function Fall(pc: nat, esc: bool, i: int): nat
  {
    pc + (if esc then PREFIX_BYTES else 1) + Rom(esc, i).l
  }

  /** The reductions of the step: every row of the ROM is evaluated, the one-hot sums them. */
  function Reduced(esc: bool, at: byte, w: Wires): (g: Chosen)
    ensures g == Rows(Rom(esc, at).sel, Fall(w.pc, esc, at), w)
  {
    hide RowRVal, RowC, RowZ, RowS, RowV, RowHl, RowDe, RowMb, RowSp, RowPc, RowTd, RowIpos, RowOutVal,
         RowOutEn, Addr1, Val1, Addr2, Val2, RowREn, En1, En2, Rom, Pick, Fall;
    Chosen(Any(esc, at, RowREn), SumNat(esc, at, x => RowRVal(x, w)),
           Sum(esc, at, x => RowHl(x, w)), Sum(esc, at, x => RowDe(x, w)),
           Sum(esc, at, x => RowMb(x, w)),
           Pick(at, i => RowPc(Rom(esc, i).sel, Fall(w.pc, esc, i), w)),
           Sum(esc, at, x => RowSp(x, w)), Sum(esc, at, x => RowC(x, w)),
           Sum(esc, at, x => RowZ(x, w)), Sum(esc, at, x => RowS(x, w)),
           Sum(esc, at, x => RowV(x, w)), Sum(esc, at, x => RowTd(x, w)),
           Sum(esc, at, x => RowIpos(x, w)), Any(esc, at, RowOutEn),
           SumNat(esc, at, x => RowOutVal(x, w)),
           Any(esc, at, En1), Sum(esc, at, x => Addr1(x, w)), SumNat(esc, at, x => Val1(x, w)),
           Any(esc, at, En2), Sum(esc, at, x => Addr2(x, w)), SumNat(esc, at, x => Val2(x, w)),
           Any(esc, at, (x: Sel) => x.Ext?), Any(esc, at, (x: Sel) => x.Stc?),
           Any(esc, at, (x: Sel) => x.Halt?))
  }

  /** A signal that a row raises for itself, summed over the one-hot rows. */
  predicate Raised(at: byte, f: int -> bool)
    ensures Raised(at, f) == f(at)
  {
    Pick(at, i => B(f(i))) == 1
  }

  /** A store would land in a region: the ports' summed enables and addresses. */
  predicate RegionSum(esc: bool, at: byte, w: Wires, pairs: seq<Region>)
    requires |pairs| == REGIONS_MAX
  {
    || (Any(esc, at, En1) && Hit(pairs, Sum(esc, at, x => Addr1(x, w))))
    || (Any(esc, at, En2) && Hit(pairs, Sum(esc, at, x => Addr2(x, w))))
    || (Any(esc, at, (x: Sel) => x.Ext?) && Hit(pairs, w.sp - 3))
    || (Any(esc, at, (x: Sel) => x.Ext?) && Hit(pairs, w.sp - 4))
  }

  lemma RegionSummed(esc: bool, at: byte, w: Wires, pairs: seq<Region>)
    requires |pairs| == REGIONS_MAX
    ensures RegionSum(esc, at, w, pairs) == RegionRow(Rom(esc, at).sel, w, pairs)
  {
    hide Rom, Addr1, Addr2, En1, En2, Hit, Sum, Any;
  }

  /** Signal `i` as it is computed. Every row of the ROM raises its own and the one-hot rows are
      summed; the first byte's bound is one scalar, and a region is hit by the summed ports. */
  predicate Signal(i: nat, esc: bool, at: byte, w: Wires, cf: Config, oplen: nat, pairs: seq<Region>)
    requires |pairs| == REGIONS_MAX && i < |S.ORDER|
  {
    if i == 1 then !(w.pc < cf.codelen) || (esc && w.pc + PREFIX_BYTES > cf.codelen)
    else if i == 19 then RegionSum(esc, at, w, pairs)
    else Raised(at, r => Fired(Rom(esc, r).sel, esc, Fall(w.pc, esc, r), w, cf, oplen, pairs)[i])
  }

  function Summed(esc: bool, at: byte, w: Wires, cf: Config, oplen: nat, pairs: seq<Region>): (g: seq<bool>)
    requires |pairs| == REGIONS_MAX
    ensures |g| == |S.ORDER|
  {
    seq(|S.ORDER|, i requires 0 <= i < |S.ORDER| => Signal(i, esc, at, w, cf, oplen, pairs))
  }

  lemma FiredScalars(x: Sel, esc: bool, fall: nat, w: Wires, cf: Config, oplen: nat, pairs: seq<Region>)
    requires |pairs| == REGIONS_MAX
    ensures var g := Fired(x, esc, fall, w, cf, oplen, pairs);
      && g[1] == (!(w.pc < cf.codelen) || (esc && w.pc + PREFIX_BYTES > cf.codelen))
      && g[19] == RegionRow(x, w, pairs)
  {
    hide PcHit, PushRow, PopRow, BankRow, ReadRow, SpRow, RowOutEn, RegionRow, ExtOk, TagOk;
  }

  /** The sums are the selected row's signals. */
  lemma SummedIsFired(esc: bool, at: byte, w: Wires, cf: Config, oplen: nat, pairs: seq<Region>)
    requires |pairs| == REGIONS_MAX
    ensures Summed(esc, at, w, cf, oplen, pairs)
            == Fired(Rom(esc, at).sel, esc, Fall(w.pc, esc, at), w, cf, oplen, pairs)
  {
    hide Fired, Rom, Fall, Raised, RegionSum;
    var g, f := Summed(esc, at, w, cf, oplen, pairs),
                Fired(Rom(esc, at).sel, esc, Fall(w.pc, esc, at), w, cf, oplen, pairs);
    FiredScalars(Rom(esc, at).sel, esc, Fall(w.pc, esc, at), w, cf, oplen, pairs);
    RegionSummed(esc, at, w, pairs);
    forall i | 0 <= i < |S.ORDER| ensures g[i] == f[i] {
      assert g[i] == Signal(i, esc, at, w, cf, oplen, pairs);
    }
  }

  /** Every family at once: the selected rows are the reference's commit. */
  lemma ExecMatches(k: S.Look, w: Wires, e: R.Env, m: R.Core, d: R.Page)
    requires Lone(e) && k.fall <= CODE_SIZE && !k.sel.Bad?
    requires WiredState(w, m) && WiredOperands(w, k, m) && WiredMemory(w, k, e, m, d)
    ensures Matches(k, w, m, d, R.Exec(k.sel, e, k.a, m.pc, m.(pc := k.fall), [d]))
  {
    hide Matches, WiredState, WiredOperands, WiredMemory, R.ExecAlu, R.ExecPointer, R.ExecBranch, R.ExecStack,
         R.ExecMemory, R.ExecStream, R.ExecBank, R.ExecTrap;
    var x := k.sel;
    if R.IsAlu(x) {
      AluMatches(k, w, m, d);
    } else if R.IsPointer(x) {
      PointerMatches(k, w, m, d);
    } else if R.IsBranch(x) {
      BranchMatches(k, w, m, d, e.cf);
    } else if R.IsStack(x) {
      StackMatches(k, w, e, m, d);
    } else if R.IsMemory(x) {
      MemoryMatches(k, w, e, m, d);
    } else if R.IsStream(x) {
      StreamMatches(k, w, e, m, d);
    } else if R.IsBank(x) {
      BankMatches(k, w, e, m, d);
    } else {
      TrapMatches(k, w, e, m, d);
    }
  }

  /** Slices assembled into a zeroed tensor are the boot page. */
  lemma BootTensor(cf: Config, init: seq<byte>, filled: seq<nat>, data: seq<nat>)
    requires Legal(cf) && |init| <= DATA_SIZE && filled == init + seq(DATA_SIZE - |init|, _ => 0)
    requires data == if cf.vtab.None? then filled
                     else filled[..cf.vtab.value] + M.Seed(cf.vec) + filled[cf.vtab.value + VTAB_CELLS..]
    ensures data == M.BootPage(cf, init)
  {
    hide Legal;
    var page := M.BootPage(cf, init);
    assert |data| == |page| by { VtabInside(cf); }
    forall a | 0 <= a < DATA_SIZE ensures data[a] == page[a] {
      assert page[a] == M.BootByte(cf, init, a);
      BootCell(cf, init, filled, data, a);
    }
  }

  lemma VtabInside(cf: Config)
    requires Legal(cf)
    ensures cf.vtab.Some? ==> cf.vtab.value % 2 == 0 && cf.vtab.value + VTAB_CELLS <= DATA_SIZE
    ensures |cf.vec| == VEC_COUNT
  {
  }

  lemma BootCell(cf: Config, init: seq<byte>, filled: seq<nat>, data: seq<nat>, a: nat)
    requires Legal(cf) && |init| <= DATA_SIZE && filled == init + seq(DATA_SIZE - |init|, _ => 0) && a < DATA_SIZE
    requires data == if cf.vtab.None? then filled
                     else filled[..cf.vtab.value] + M.Seed(cf.vec) + filled[cf.vtab.value + VTAB_CELLS..]
    ensures |data| == DATA_SIZE && data[a] == M.BootByte(cf, init, a)
  {
    VtabInside(cf);
    hide Legal;
    if cf.vtab.Some? && cf.vtab.value <= a < cf.vtab.value + VTAB_CELLS {
      var j := a - cf.vtab.value;
      assert data[a] == M.Seed(cf.vec)[j] && j % 2 == a % 2;
    }
  }

  class TorchCircuit {
    const cf: Config
    const inputs: seq<byte>
    const pairs: seq<Region>
    var r: seq<nat>
    var hl: nat
    var de: nat
    var mb: nat
    var pc: nat
    var sp: nat
    var c: nat
    var z: nat
    var s: nat
    var v: nat
    var td: nat
    var stcCount: nat
    var stcFirst: nat
    var ipos: nat
    var oplen: nat
    var tick: nat
    var status: nat
    var reason: nat
    var faultAddr: nat
    var code: seq<nat>
    var data: seq<nat>
    var outBuf: seq<nat>

    /** The tensors hold the state `m` and the page `d`. */
    ghost predicate Represents(m: R.Core, d: R.Page)
      reads this
    {
      && r == m.r && hl == m.hl && de == m.de && mb == m.mb && pc == m.pc && sp == m.sp
      && c == m.c && z == m.z && s == m.s && v == m.v && td == m.td
      && stcCount == m.stcCount && stcFirst == m.stcFirst && ipos == m.ipos && tick == m.tick
      && status == R.StatusCode(m.status) && reason == Code(m.reason) && faultAddr == m.faultAddr
      && code == m.code && data == d
      && |outBuf| == cf.outcap && oplen == |m.out| && oplen <= cf.outcap && outBuf[..oplen] == m.out
    }

    ghost predicate Loaded()
    {
      Legal(cf) && pairs == PaddedRegions(cf.regions)
    }

    /** The shapes the tensors are allocated with. */
    predicate Shaped()
      reads `r, `code, `data
    {
      |r| == 4 && |code| == CODE_SIZE && |data| == DATA_SIZE
    }

    /** A load slices the image, the initial data and the seeded vector page into zeroed
        tensors; the state is the one the reference starts from. */
    constructor (cf: Config, image: seq<byte>, init: seq<byte>, inputs: seq<byte>)
      requires Legal(cf) && cf.codelen <= |image| <= CODE_SIZE && |init| <= DATA_SIZE
      ensures this.cf == cf && this.inputs == inputs && Loaded()
      ensures Represents(M.BootCore(cf, image), M.BootPage(cf, init))
      ensures forall k: nat :: k < VEC_COUNT ==> VecWire(k) == cf.vec[k]
    {
      this.cf, this.inputs, this.pairs := cf, inputs, PaddedRegions(cf.regions);
      var zeroed: seq<nat> := seq(DATA_SIZE, _ => 0);
      var filled := init + zeroed[|init|..];
      var seed := M.Seed(cf.vec);
      data := if cf.vtab.None? then filled
              else filled[..cf.vtab.value] + seed + filled[cf.vtab.value + VTAB_CELLS..];
      code := image + seq(CODE_SIZE - |image|, _ => 0);
      outBuf := seq(cf.outcap, _ => 0);
      r, hl, de, mb, pc, sp := [0, 0, 0, 0], 0, 0, 0, cf.entry, DATA_SIZE;
      c, z, s, v, td, stcCount, stcFirst := 0, 0, 0, 0, 0, 0, 0;
      ipos, oplen, tick, status, reason, faultAddr := 0, 0, 0, 0, 0, 0;
      new;
      BootTensor(cf, init, filled, data);
      forall k: nat | k < VEC_COUNT ensures VecWire(k) == cf.vec[k] {
        BootedWire(init, k);
      }
    }

    lemma BootedWire(init: seq<byte>, k: nat)
      requires Shaped() && Legal(cf) && data == M.BootPage(cf, init) && k < VEC_COUNT
      ensures VecWire(k) == cf.vec[k]
    {
      if cf.vtab.Some? {
        M.BootEntry(cf, init, k);
      }
    }

    /** The operand bytes, wherever the prefix puts them. */
    function Immediate(esc: bool, j: nat): nat
      requires Shaped()
      reads `r, `code, `data, `pc
    {
      if esc then Gather(code, pc + PREFIX_BYTES + j) else Gather(code, pc + 1 + j)
    }

    function VecWire(imm0: nat): nat
      requires Shaped() && Legal(cf)
      reads `r, `code, `data
    {
      if cf.vtab.Some? then
        Gather(data, cf.vtab.value + 2 * imm0) + 256 * Gather(data, cf.vtab.value + 2 * imm0 + 1)
      else Gather(cf.vec, imm0)
    }

    function ReadWires(esc: bool, op: nat, sub: nat, row: Row): (w: Wires)
      requires Shaped() && Legal(cf)
      reads this
    {
      var imm0, imm1 := Immediate(esc, 0), Immediate(esc, 1);
      var i := if esc then sub else op;
      var a := if esc then r[sub / 4 % 4] else r[row.s0];
      var b := if esc then r[sub % 4] else r[row.s1];
      var sx: int := imm0 - imm0 / 128 % 2 * 256;
      var fr := (hl + sx) % 65536;
      Wires(hl, de, mb, pc, sp, c, z, s, v, td, ipos, a, b, r[i % 4], r[row.s0], r[imm0 % 4], imm0,
            imm0 + 256 * imm1, sx, fr, Gather(data, hl), Gather(data, de), Gather(data, sp),
            Gather(data, sp + 1), Gather(data, sp + 2), Gather(data, sp + 3),
            Gather(if inputs == [] then [0] else inputs, ipos), ipos >= |inputs|, Gather(data, fr),
            Gather(data, hl + 1), Gather(data, de + 1), Gather(code, hl), VecWire(imm0),
            z + 2 * c + 4 * s + 8 * v)
    }

    /** The look the circuit takes at its own state is the reference's: the code point, ... */
    lemma CodeSeen(m: R.Core, d: R.Page)
      requires Loaded() && Represents(m, d)
      ensures Shaped()
      ensures var op, sub := Gather(code, pc), Gather(code, pc + 1);
        op < 256 && sub < 256 &&
        var esc := op == ESCAPE_PREFIX;
        var at: byte := if esc then sub else op;
        var k := S.LookAt(m);
        && esc == k.esc && Rom(esc, at).sel == k.sel && k.a.s0 == Rom(esc, at).s0 && k.a.s1 == Rom(esc, at).s1
        && k.fall == Fall(pc, esc, at)
        && (Rom(esc, at).l >= 1 ==> k.a.i0 == Immediate(esc, 0))
        && (Rom(esc, at).l >= 2 ==> k.a.i1 == Immediate(esc, 1))
    {
    }

    /** ... the operands behind it, ... */
    lemma OperandsSeen(m: R.Core, d: R.Page, esc: bool, op: byte, sub: byte)
      requires Loaded() && Represents(m, d) && Shaped()
      requires op == Gather(code, pc) && sub == Gather(code, pc + 1) && esc == (op == ESCAPE_PREFIX)
      ensures var at: byte := if esc then sub else op;
        var w := ReadWires(esc, op, sub, Rom(esc, at));
        WiredOperands(w, S.LookAt(m), m)
    {
      hide SingleRow, EscapeRow, S.LookAt, S.Clamped, Signed, UsesByte, UsesOne, UsesPair, UsesWord, Legal;
      var at: byte := if esc then sub else op;
      if esc {
        EscapeFields(sub);
        EscapeLength(sub);
      } else {
        SingleFields(op);
        SingleLength(op);
      }
      CodeSeen(m, d);
      SignExtensionsAgree(Immediate(esc, 0));
    }

    lemma StateSeen(m: R.Core, d: R.Page, esc: bool, op: byte, sub: byte, row: Row)
      requires Loaded() && Represents(m, d) && Shaped()
      ensures WiredState(ReadWires(esc, op, sub, row), m)
    {
      R.FlagsByteIsSum(m.z, m.c, m.s, m.v);
      hide Or, Gather;
    }

    /** ... and the memory it may read. */
    lemma MemorySeen(m: R.Core, d: R.Page, esc: bool, op: byte, sub: byte)
      requires Loaded() && Represents(m, d) && Shaped()
      requires op == Gather(code, pc) && sub == Gather(code, pc + 1) && esc == (op == ESCAPE_PREFIX)
      ensures var at: byte := if esc then sub else op;
        var w := ReadWires(esc, op, sub, Rom(esc, at));
        WiredMemory(w, S.LookAt(m), R.Env(cf, inputs, R.Alone), m, d)
    {
      hide SingleRow, EscapeRow, Rom, S.LookAt, R.FlagsByte, Signed;
    }

    ghost function Env(): R.Env { R.Env(cf, inputs, R.Alone) }

    /** What one pass over the rows decides: the cause the encoder names is the cause the
        reference raises, and when it names none the selected rows are the reference's commit. */
    lemma PassAgrees(m: R.Core, d: R.Page, esc: bool, op: byte, sub: byte)
      requires Loaded() && Represents(m, d) && Shaped()
      requires op == Gather(code, pc) && sub == Gather(code, pc + 1) && esc == (op == ESCAPE_PREFIX)
      ensures var at: byte := if esc then sub else op;
        var row := Rom(esc, at);
        var w := ReadWires(esc, op, sub, row);
        var fall := Fall(pc, esc, at);
        var o := R.Step(Env(), m, [d]);
        && FaultCause(Fired(row.sel, esc, fall, w, cf, oplen, pairs), CODES) == Code(S.CauseRaised(o))
        && (o.Next? ==>
              var g := Rows(row.sel, fall, w);
              ScalarsMatch(g, row.s0, m, o.m) && StreamsMatch(g, m, o.m, w.rr) && PortsMatch(g, w, d, o.pg))
    {
      hide S.FirstCause, S.FirstUp, R.Step, Fired, WiredState, WiredOperands, WiredMemory, Rows, ScalarsMatch,
           StreamsMatch, PortsMatch, R.Exec, FaultCause, SingleRow, EscapeRow, S.LookAt;
      var at: byte := if esc then sub else op;
      var row := Rom(esc, at);
      var w := ReadWires(esc, op, sub, row);
      var k := S.LookAt(m);
      var o := R.Step(Env(), m, [d]);
      CodeSeen(m, d);
      OperandsSeen(m, d, esc, op, sub);
      StateSeen(m, d, esc, op, sub, row);
      MemorySeen(m, d, esc, op, sub);
      FiredFirst(k, w, Env(), m, d);
      CauseIsFirst(Fire(k, w, Env(), m));
      S.FaultPrecedence(Env(), m, [d]);
      StepIsExec(m, d);
      if o.Next? {
        ExecMatches(k, w, Env(), m, d);
      }
    }

    /** A quiet encoder means a quiet output port, so an enabled output has room. */
    lemma OutputHasRoom(m: R.Core, d: R.Page, esc: bool, fall: nat, x: Sel, w: Wires)
      requires Loaded() && FaultCause(Fired(x, esc, fall, w, cf, oplen, pairs), CODES) == 0
      ensures RowOutEn(x) ==> oplen < cf.outcap
    {
      hide FaultCause, S.FirstUp;
      var g := Fired(x, esc, fall, w, cf, oplen, pairs);
      CauseIsFirst(g);
      hide Fired;
      FirstUpQuiet(g);
    }

    lemma StepIsExec(m: R.Core, d: R.Page)
      requires Legal(cf)
      ensures var k, o := S.LookAt(m), R.Step(Env(), m, [d]);
        o.Next? ==> k.fall <= CODE_SIZE && !k.sel.Bad?
                    && o == R.Exec(k.sel, Env(), k.a, m.pc, m.(pc := k.fall), [d])
    {
      hide R.Exec, R.Fetch, S.LookAt, S.FirstCause;
      S.FetchRanked(Env(), m, [d]);
    }

    /** The four masked stores into DATA. */
    method WritePorts(w: Wires, g: Chosen, commit: bool, ghost d: R.Page, ghost pg': seq<R.Page>)
      requires data == d && (commit ==> PortsMatch(g, w, d, pg'))
      modifies `data
      ensures if commit then pg' == [data] else data == d
    {
      data := MaskStore(data, g.a1, g.v1, g.e1 && commit);
      data := MaskStore(data, g.a2, g.v2, g.e2 && commit);
      data := MaskStore(data, w.sp - 3, (w.pc + 3) % 256, g.e34 && commit);
      data := MaskStore(data, w.sp - 4, (w.pc + 3) / 256, g.e34 && commit);
    }

    /** The masked store into CODE with its log, and the masked append to the output. */
    method WriteStreams(w: Wires, g: Chosen, commit: bool, ghost m: R.Core, ghost m': R.Core)
      requires code == m.code && stcCount == m.stcCount && stcFirst == m.stcFirst && hl == m.hl
      requires oplen == |m.out| <= |outBuf| && outBuf[..oplen] == m.out
      requires commit ==> StreamsMatch(g, m, m', w.rr) && (g.outEn ==> oplen < |outBuf|)
      modifies `code, `stcFirst, `stcCount, `outBuf, `oplen
      ensures var n := if commit then m' else m;
        && code == n.code && stcCount == n.stcCount && stcFirst == n.stcFirst
        && |outBuf| == |old(outBuf)| && oplen == |n.out| <= |outBuf| && outBuf[..oplen] == n.out
    {
      var wrote := g.stc && commit && hl < |code|;
      code := MaskStore(code, hl, w.rr, g.stc && commit);
      stcFirst := if wrote && stcCount == 0 then hl else stcFirst;
      stcCount := stcCount + (if wrote then 1 else 0);
      outBuf := MaskStore(outBuf, oplen, g.outVal, g.outEn && commit);
      oplen := oplen + (if g.outEn && commit then 1 else 0);
    }

    /** The masked pointers. */
    method WritePointers(g: Chosen, commit: bool, ghost m: R.Core, ghost m': R.Core)
      requires hl == m.hl && de == m.de && mb == m.mb && pc == m.pc && sp == m.sp
      requires commit ==> exists d0 :: ScalarsMatch(g, d0, m, m')
      modifies `hl, `de, `mb, `pc, `sp
      ensures var n := if commit then m' else m;
        hl == n.hl && de == n.de && mb == n.mb && pc == n.pc && sp == n.sp
    {
      hl := Low16(if commit then g.hl else hl);
      de := Low16(if commit then g.de else de);
      mb := Low16(if commit then g.mb else mb);
      pc := if commit then g.pc else pc;
      sp := if commit then g.sp else sp;
    }

    /** All of them: the register file and the flags too. */
    method WriteScalars(g: Chosen, d0: reg, commit: bool, ghost m: R.Core, ghost m': R.Core)
      requires r == m.r && hl == m.hl && de == m.de && mb == m.mb && pc == m.pc && sp == m.sp
      requires c == m.c && z == m.z && s == m.s && v == m.v && td == m.td && ipos == m.ipos
      requires commit ==> ScalarsMatch(g, d0, m, m')
      modifies `r, `hl, `de, `mb, `pc, `sp, `c, `z, `s, `v, `td, `ipos
      ensures var n := if commit then m' else m;
        && r == n.r && hl == n.hl && de == n.de && mb == n.mb && pc == n.pc && sp == n.sp
        && c == n.c && z == n.z && s == n.s && v == n.v && td == n.td && ipos == n.ipos
    {
      var was := r;
      r := seq(4, i requires 0 <= i < 4 =>
             if commit then Low8(if g.rEn && i == d0 then g.rVal else was[i]) else was[i]);
      WritePointers(g, commit, m, m');
      c := if commit then g.c else c;
      z := if commit then g.z else z;
      s := if commit then g.s % 2 else s;
      v := if commit then g.v % 2 else v;
      td := if commit then g.td else td;
      ipos := if commit then g.ipos else ipos;
    }

    /** The three fault fields and the status. */
    method WriteStatus(cause: nat, halt: bool, over: bool, pcEntry: nat, ghost m: R.Core, ghost o: R.Outcome)
      requires status == R.StatusCode(m.status) && reason == Code(m.reason) && faultAddr == m.faultAddr
      requires cause == Code(S.CauseRaised(o)) && (o.Fault? ==> o.cause != Ok)
      requires over ==> m.status == R.Running
      requires o.Next? ==> o.m.status == (if halt then R.Halted else m.status) && o.m.reason == m.reason
                           && o.m.faultAddr == m.faultAddr
      requires pcEntry == m.pc
      modifies `status, `reason, `faultAddr
      ensures var n := if m.status != R.Running then m else if over then m.(status := R.Overrun)
                       else match o
                         case Fault(why) => m.(status := R.Error, reason := why, faultAddr := m.pc)
                         case Next(m', _) => m';
        status == R.StatusCode(n.status) && reason == Code(n.reason) && faultAddr == n.faultAddr
    {
      var running := status == 0;
      var next := if cause != 0 then 3 else if halt then 1 else 0;
      status := if running then (if over then 2 else next) else status;
      var faulted := running && !over && cause != 0;
      reason := if faulted then cause else reason;
      faultAddr := if faulted then pcEntry else faultAddr;
    }

    /** The decision a step takes: the cause, the chosen rows, and what committing them means. */
    ghost predicate Decided(m: R.Core, d: R.Page, cause: nat, g: Chosen, d0: reg, w: Wires)
      requires Legal(cf)
      reads this
    {
      var o := R.Step(Env(), m, [d]);
      && cause == Code(S.CauseRaised(o)) && (cause == 0 <==> o.Next?)
      && (cause == 0 && g.outEn ==> oplen < cf.outcap)
      && (o.Fault? ==> o.cause != Ok)
      && (o.Next? ==>
            && ScalarsMatch(g, d0, m, o.m) && StreamsMatch(g, m, o.m, w.rr)
            && PortsMatch(g, w, d, o.pg) && |o.pg| == 1
            && o.m.status == (if g.halt then R.Halted else m.status)
            && o.m.reason == m.reason && o.m.faultAddr == m.faultAddr && o.m.tick == m.tick)
    }

    lemma Decides(m: R.Core, d: R.Page, esc: bool, op: byte, sub: byte)
      requires Loaded() && Represents(m, d) && Shaped()
      requires op == Gather(code, pc) && sub == Gather(code, pc + 1) && esc == (op == ESCAPE_PREFIX)
      ensures var at: byte := if esc then sub else op;
        var row := Rom(esc, at);
        var w := ReadWires(esc, op, sub, row);
        var cause := FaultCause(Summed(esc, at, w, cf, oplen, pairs), CODES);
        Decided(m, d, cause, Reduced(esc, at, w), row.s0, w)
    {
      hide Fired, Summed, FaultCause, Rows, Reduced, R.Step, Rom, Fall, ScalarsMatch, StreamsMatch, PortsMatch, Code,
           Gather, ReadWires, En1, En2, RowREn, RowOutEn, WiredState;
      var at: byte := if esc then sub else op;
      var row := Rom(esc, at);
      var w := ReadWires(esc, op, sub, row);
      var fall := Fall(pc, esc, at);
      R.StepFramed(Env(), m, [d]);
      PassAgrees(m, d, esc, op, sub);
      StateSeen(m, d, esc, op, sub, row);
      PcSeen(w, m);
      RowsParts(row.sel, fall, w);
      SummedIsFired(esc, at, w, cf, oplen, pairs);
      var cause := FaultCause(Summed(esc, at, w, cf, oplen, pairs), CODES);
      if cause == 0 {
        OutputHasRoom(m, d, esc, fall, row.sel, w);
      }
      var o := R.Step(Env(), m, [d]);
      if o.Next? {
        StatusMatches(Reduced(esc, at, w), row.s0, m, o.m);
      }
    }

    /** One tick of the circuit: everything is computed, the mask `commit` lets it through or
        withholds it. On committing, faulting, overrun and already-stopped ticks alike the
        tensors end where the reference's tick does. */
    method Step(ghost m: R.Core, ghost d: R.Page)
      requires Loaded() && Represents(m, d)
      modifies this
      ensures var w := R.Tick(Env(), R.World(m, [d])); |w.pg| == 1 && Represents(w.m, w.pg[0])
    {
      hide Fired, Summed, FaultCause, Reduced, R.Step, Rom, Fall, ScalarsMatch, StreamsMatch, PortsMatch, Code,
           Gather, ReadWires;
      CodeSeen(m, d);
      var op: byte, sub: byte := Gather(code, pc), Gather(code, pc + 1);
      var esc := op == ESCAPE_PREFIX;
      var at: byte := if esc then sub else op;
      var row := Rom(esc, at);
      var w := ReadWires(esc, op, sub, row);
      var cause := FaultCause(Summed(esc, at, w, cf, oplen, pairs), CODES);
      var g := Reduced(esc, at, w);
      Decides(m, d, esc, op, sub);
      Commit(cause, g, row.s0, w, m, d);
    }

    /** Everything but the counter: the tensors hold `n`, its status and its fault fields aside. */
    ghost predicate Holds(n: R.Core, d: R.Page)
      reads this
    {
      && r == n.r && hl == n.hl && de == n.de && mb == n.mb && pc == n.pc && sp == n.sp
      && c == n.c && z == n.z && s == n.s && v == n.v && td == n.td
      && stcCount == n.stcCount && stcFirst == n.stcFirst && ipos == n.ipos && code == n.code && data == d
      && |outBuf| == cf.outcap && oplen == |n.out| && oplen <= cf.outcap && outBuf[..oplen] == n.out
    }

    method WriteMachine(g: Chosen, d0: reg, w: Wires, commit: bool, ghost m: R.Core, ghost d: R.Page,
                        ghost m': R.Core, ghost pg': seq<R.Page>)
      requires Holds(m, d)
      requires commit ==>
        && ScalarsMatch(g, d0, m, m') && StreamsMatch(g, m, m', w.rr) && PortsMatch(g, w, d, pg')
        && |pg'| == 1 && (g.outEn ==> oplen < cf.outcap)
      modifies `r, `hl, `de, `mb, `pc, `sp, `c, `z, `s, `v, `td, `ipos, `code, `stcFirst, `stcCount,
               `outBuf, `oplen, `data
      ensures if commit then Holds(m', pg'[0]) else Holds(m, d)
    {
      hide ScalarsMatch, StreamsMatch, PortsMatch;
      WritePorts(w, g, commit, d, pg');
      WriteStreams(w, g, commit, m, m');
      WriteScalars(g, d0, commit, m, m');
    }

    /** The masked writes, given the decision. */
    method Commit(cause: nat, g: Chosen, d0: reg, w: Wires, ghost m: R.Core, ghost d: R.Page)
      requires Loaded() && Represents(m, d) && Decided(m, d, cause, g, d0, w)
      modifies this
      ensures var w := R.Tick(Env(), R.World(m, [d])); |w.pg| == 1 && Represents(w.m, w.pg[0])
    {
      hide R.Step, Legal, ScalarsMatch, StreamsMatch, PortsMatch, Code;
      ghost var o := R.Step(Env(), m, [d]);
      var running := status == 0;
      var over := running && tick >= cf.tb;
      var commit := cause == 0 && running && !over;
      WriteStatus(cause, g.halt, over, pc, m, o);
      WriteMachine(g, d0, w, commit, m, d, if commit then o.m else m, if commit then o.pg else [d]);
      tick := tick + (if commit then 1 else 0);
    }

    /** Steps until the circuit stops: a whole run ends where the reference's run ends. */
    method Run(ghost m: R.Core, ghost d: R.Page)
      requires Loaded() && Represents(m, d)
      modifies this
      ensures var w := R.RunToStop(Env(), R.World(m, [d])); |w.pg| == 1 && Represents(w.m, w.pg[0])
    {
      hide R.Tick, Represents, Legal;
      ghost var w := R.World(m, [d]);
      StatusSeen(m, d);
      while status == 0
        invariant Loaded() && |w.pg| == 1 && Represents(w.m, w.pg[0])
        invariant status == 0 <==> w.m.status == R.Running
        invariant R.RunToStop(Env(), w) == R.RunToStop(Env(), R.World(m, [d]))
        decreases R.Fuel(Env(), w.m)
      {
        assert w == R.World(w.m, [w.pg[0]]);
        R.TickSpendsFuel(Env(), w);
        Step(w.m, w.pg[0]);
        w := R.Tick(Env(), w);
        StatusSeen(w.m, w.pg[0]);
      }
    }

    lemma StatusSeen(m: R.Core, d: R.Page)
      requires Represents(m, d)
      ensures status == 0 <==> m.status == R.Running
    {
    }
  }

  lemma PcSeen(w: Wires, m: R.Core)
    requires WiredState(w, m)
    ensures w.pc == m.pc
  {
  }

  lemma RowsParts(x: Sel, fall: nat, w: Wires)
    ensures Rows(x, fall, w).outEn == RowOutEn(x)
  {
  }

  lemma StatusMatches(g: Chosen, d0: reg, m: R.Core, m': R.Core)
    requires ScalarsMatch(g, d0, m, m')
    ensures m'.status == if g.halt then R.Halted else m.status
  {
  }
}
