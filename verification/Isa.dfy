/** The decode table, the fault causes and their precedence, and the load-time block. */
module Isa {
  import opened Bits

  const DATA_SIZE := 4096
  const CODE_SIZE := 4096
  const OUT_LIMIT := 8192
  const ESCAPE_PREFIX := 0x70
  const PREFIX_BYTES := 2
  const VEC_COUNT := 16
  const VTAB_CELLS := 32
  const REGIONS_MAX := 4
  const TRAP_TAG := 0xA5

  type reg = x: int | 0 <= x < 4
  type address = x: int | 0 <= x <= DATA_SIZE

  // ---------------------------------------------------------------- selectors

  datatype Sel =
    | Nop | Add | Sub | Adc | Sbb | Mov | Tst | Shl | Shr | Djnz | Clc
    | Ldi | Addi | Subi | Adci
    | MovRHl | MovHlR | MovRDe | MovDeR
    | Push | Pop | Out | In
    | IncHl | DecHl | IncDe
    | OutM | OutDe
    | Jmp | Jz | Jnz | Jc | Jnc
    | Call | Ret
    | LdiHl | LdiDe | AddiHl | AddiDe
    | Halt | Bad
    | JpHl | GetPc | GetSp | GetF
    | And8 | Or8 | Xor8 | Mul
    | Div | Mod | Cmp
    | Not | Neg | Rol | Ror
    | AddHlDe | SubHlDe | Xchg | Ext
    | Stc | Ldc
    | MovwHlDe | MovwDeHl | MovwHlSp | MovwDeSp | MovwSpHl | MovwSpDe
    | PushwHl | PushwDe | PopwHl | PopwDe
    | StwHlDe | StwDeHl | LdwDeHl | LdwHlDe
    | Ldx | Stx | AddSp | Mulh
    | Ldm | Stm | LdmwDeHl | LdmwHlDe | StmwHlDe | StmwDeHl
    | MovMbHl | MovHlMb
    | Js | Jns | Vs | Vc
    | TrapRet | CallHl

  /** One decoded code point: its selector, its two register fields, and the number of
      operand bytes behind it. An unassigned code point selects `Bad`. */
  datatype Row = Row(sel: Sel, s0: reg, s1: reg, l: nat)

  function Plain(sel: Sel, l: nat): Row { Row(sel, 0, 0, l) }

  function OneReg(sel: Sel, code: byte, l: nat): Row { Row(sel, code % 4, code % 4, l) }

  function TwoReg(sel: Sel, code: byte): Row { Row(sel, (code / 4) % 4, code % 4, 0) }

  /** The single-byte table, by the ranges that fill it. */
  function SingleRow(op: byte): (row: Row)
    ensures row.l <= 2
  {
    if op == 0x00 then Plain(Halt, 0)
    else if op == 0x01 then Plain(Nop, 0)
    else if op == 0x02 then Plain(IncHl, 0)
    else if op == 0x03 then Plain(DecHl, 0)
    else if op == 0x04 then Plain(IncDe, 0)
    else if op == 0x05 then Plain(Clc, 0)
    else if op == 0x06 then Plain(OutM, 0)
    else if op == 0x07 then Plain(OutDe, 0)
    else if op == 0x08 then Plain(Ret, 0)
    else if op == 0x09 then Plain(Jmp, 2)
    else if op == 0x0A then Plain(Jz, 2)
    else if op == 0x0B then Plain(Jnz, 2)
    else if op == 0x0C then Plain(Jc, 2)
    else if op == 0x0D then Plain(Jnc, 2)
    else if op == 0x0E then Plain(Call, 2)
    else if op == 0x0F then Plain(LdiHl, 2)
    else if op == 0x10 then Plain(LdiDe, 2)
    else if op == 0x11 then Plain(AddiHl, 1)
    else if op == 0x12 then Plain(AddiDe, 1)
    else if op == 0x13 then Plain(JpHl, 0)
    else if op < 0x18 then OneReg(GetPc, op, 0)
    else if op < 0x1C then OneReg(GetSp, op, 0)
    else if op < 0x20 then OneReg(GetF, op, 0)
    else if op < 0x30 then TwoReg(And8, op)
    else if op < 0x40 then TwoReg(Or8, op)
    else if op < 0x50 then TwoReg(Xor8, op)
    else if op < 0x60 then TwoReg(Mul, op)
    else if op < 0x64 then OneReg(Shl, op, 0)
    else if op < 0x68 then OneReg(Shr, op, 0)
    else if op < 0x6C then OneReg(Tst, op, 0)
    else if op < 0x70 then OneReg(Djnz, op, 2)
    else if op < 0x80 then Plain(Bad, 0)
    else if op < 0x90 then TwoReg(Add, op)
    else if op < 0xA0 then TwoReg(Sub, op)
    else if op < 0xB0 then TwoReg(Adc, op)
    else if op < 0xC0 then TwoReg(Sbb, op)
    else if op < 0xD0 then TwoReg(Mov, op)
    else if op < 0xD4 then OneReg(Ldi, op, 1)
    else if op < 0xD8 then OneReg(Addi, op, 1)
    else if op < 0xDC then OneReg(Subi, op, 1)
    else if op < 0xE0 then OneReg(Adci, op, 1)
    else if op < 0xE4 then OneReg(MovRHl, op, 0)
    else if op < 0xE8 then OneReg(MovHlR, op, 0)
    else if op < 0xEC then OneReg(MovRDe, op, 0)
    else if op < 0xF0 then OneReg(MovDeR, op, 0)
    else if op < 0xF4 then OneReg(Push, op, 0)
    else if op < 0xF8 then OneReg(Pop, op, 0)
    else if op < 0xFC then OneReg(Out, op, 0)
    else OneReg(In, op, 0)
  }

  /** The escape table behind the `0x70` prefix. */
  function EscapeRow(sub: byte): (row: Row)
    ensures row.l <= 1
  {
    if sub < 0x10 then TwoReg(Div, sub)
    else if sub < 0x20 then TwoReg(Mod, sub)
    else if sub < 0x30 then TwoReg(Cmp, sub)
    else if sub == 0x30 then Plain(MovwHlDe, 0)
    else if sub == 0x31 then Plain(MovwDeHl, 0)
    else if sub == 0x32 then Plain(MovwHlSp, 0)
    else if sub == 0x33 then Plain(MovwDeSp, 0)
    else if sub == 0x34 then Plain(MovwSpHl, 0)
    else if sub == 0x35 then Plain(MovwSpDe, 0)
    else if sub < 0x38 then Plain(Bad, 0)
    else if sub == 0x38 then Plain(PushwHl, 0)
    else if sub == 0x39 then Plain(PushwDe, 0)
    else if sub == 0x3A then Plain(PopwHl, 0)
    else if sub == 0x3B then Plain(PopwDe, 0)
    else if sub == 0x3C then Plain(StwHlDe, 0)
    else if sub == 0x3D then Plain(StwDeHl, 0)
    else if sub == 0x3E then Plain(LdwDeHl, 0)
    else if sub == 0x3F then Plain(LdwHlDe, 0)
    else if sub < 0x44 then OneReg(Not, sub, 0)
    else if sub < 0x48 then OneReg(Neg, sub, 0)
    else if sub < 0x4C then OneReg(Rol, sub, 0)
    else if sub < 0x50 then OneReg(Ror, sub, 0)
    else if sub < 0x54 then OneReg(Ldx, sub, 1)
    else if sub < 0x58 then OneReg(Stx, sub, 1)
    else if sub == 0x58 then Plain(AddSp, 1)
    else if sub < 0x60 then Plain(Bad, 0)
    else if sub == 0x60 then Plain(AddHlDe, 0)
    else if sub == 0x61 then Plain(SubHlDe, 0)
    else if sub == 0x62 then Plain(Xchg, 0)
    else if sub == 0x63 then Plain(Bad, 0)
    else if sub == 0x64 then Plain(Js, 1)
    else if sub == 0x65 then Plain(Jns, 1)
    else if sub == 0x66 then Plain(Vs, 1)
    else if sub == 0x67 then Plain(Vc, 1)
    else if sub < 0x70 then Plain(Bad, 0)
    else if sub == 0x70 then Plain(Ext, 1)
    else if sub < 0x80 then Plain(Bad, 0)
    else if sub < 0x84 then OneReg(Stc, sub, 0)
    else if sub < 0x88 then OneReg(Ldc, sub, 0)
    else if sub < 0x90 then Plain(Bad, 0)
    else if sub < 0xA0 then TwoReg(Mulh, sub)
    else if sub < 0xA8 then Plain(Bad, 0)
    else if sub == 0xA8 then Plain(TrapRet, 0)
    else if sub == 0xA9 then Plain(CallHl, 0)
    else if sub < 0xB0 then Plain(Bad, 0)
    else if sub < 0xB4 then OneReg(Ldm, sub, 0)
    else if sub < 0xB8 then OneReg(Stm, sub, 0)
    else if sub == 0xB8 then Plain(LdmwDeHl, 0)
    else if sub == 0xB9 then Plain(LdmwHlDe, 0)
    else if sub == 0xBA then Plain(StmwHlDe, 0)
    else if sub == 0xBB then Plain(StmwDeHl, 0)
    else if sub == 0xBC then Plain(MovMbHl, 0)
    else if sub == 0xBD then Plain(MovHlMb, 0)
    else Plain(Bad, 0)
  }

  // ------------------------------------------------------------- fault causes

  datatype Cause =
    | Ok | BadOpcode | BadSubcode | FetchOob | DataOob | StackUnderflow | StackOverflow
    | DivZero | CodeOob | Window | TrapUnreg | TrapDepth | TrapFrame | TrapUnbalanced
    | OutCap | BankOob | BankBusy | PcIllegal | RegionViol

  /** The code the cause table assigns, dense from 0. */
  function Code(c: Cause): (n: byte)
    ensures n == 0 <==> c.Ok?
  {
    match c
    case Ok => 0 case BadOpcode => 1 case BadSubcode => 2 case FetchOob => 3
    case DataOob => 4 case StackUnderflow => 5 case StackOverflow => 6 case DivZero => 7
    case CodeOob => 8 case Window => 9 case TrapUnreg => 10 case TrapDepth => 11
    case TrapFrame => 12 case TrapUnbalanced => 13 case OutCap => 14 case BankOob => 15
    case BankBusy => 16 case PcIllegal => 17 case RegionViol => 18
  }

  // ------------------------------------------------------ the load-time block

  datatype Option<T> = None | Some(value: T)

  /** A write-protected span `[lo, hi)` of DATA. */
  datatype Region = Region(lo: int, hi: int)

  predicate Covered(regions: seq<Region>, a: int)
  {
    exists k :: 0 <= k < |regions| && regions[k].lo <= a < regions[k].hi
  }

  datatype Config = Config(
    codelen: nat, entry: word, winlo: nat, winhi: nat, vec: seq<word>, vtab: Option<nat>,
    regions: seq<Region>, nbanks: nat, tdlim: nat, splim: nat, tb: int, outcap: nat)

  predicate PowerOfTwo(n: nat) { exists k: nat :: k <= 16 && n == Pow2(k) }

  predicate RegionsLegal(regions: seq<Region>)
  {
    && |regions| <= REGIONS_MAX
    && (forall k :: 0 <= k < |regions| ==> 0 <= regions[k].lo <= regions[k].hi <= DATA_SIZE)
    && (forall k :: 1 <= k < |regions| ==> regions[k - 1].hi <= regions[k].lo)
  }

  /** What `MachineConfig` and the machine's constructor accept. */
  predicate Legal(cf: Config)
  {
    && cf.codelen <= CODE_SIZE
    && (cf.codelen > 0 ==> cf.entry < cf.codelen)
    && cf.winlo <= cf.winhi <= cf.codelen
    && |cf.vec| == VEC_COUNT
    && (cf.vtab.Some? ==> cf.vtab.value % 2 == 0 && cf.vtab.value + VTAB_CELLS <= DATA_SIZE)
    && RegionsLegal(cf.regions)
    && 1 <= cf.nbanks <= 65535
    && cf.tdlim <= 255
    && cf.splim <= DATA_SIZE
    && PowerOfTwo(cf.outcap) && cf.outcap <= OUT_LIMIT
  }
}
