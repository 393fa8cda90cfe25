/** The kernel's own decode: two range chains that recompute effective opcode, register fields
    and length from the bytes, and their agreement with the tables at every code point. */
module Decode {
  import opened Bits
  import opened Isa

  // The escape space's effective opcodes, in the order the vocabulary lists them.
  const ESC_DIV := 0x100
  const ESC_MOD := 0x101
  const ESC_CMP := 0x102
  const ESC_NOT := 0x103
  const ESC_NEG := 0x104
  const ESC_ROL := 0x105
  const ESC_ROR := 0x106
  const ESC_ADD_HLDE := 0x107
  const ESC_SUB_HLDE := 0x108
  const ESC_XCHG := 0x109
  const ESC_EXT := 0x10A
  const ESC_STC := 0x10B
  const ESC_LDC := 0x10C
  const ESC_BAD := 0x10D
  const ESC_MOVW_HL_DE := 0x10E
  const ESC_MOVW_DE_HL := 0x10F
  const ESC_MOVW_HL_SP := 0x110
  const ESC_MOVW_DE_SP := 0x111
  const ESC_MOVW_SP_HL := 0x112
  const ESC_MOVW_SP_DE := 0x113
  const ESC_PUSHW_HL := 0x114
  const ESC_PUSHW_DE := 0x115
  const ESC_POPW_HL := 0x116
  const ESC_POPW_DE := 0x117
  const ESC_STW_HLDE := 0x118
  const ESC_STW_DEHL := 0x119
  const ESC_LDW_DEHL := 0x11A
  const ESC_LDW_HLDE := 0x11B
  const ESC_LDX := 0x11C
  const ESC_STX := 0x11D
  const ESC_ADD_SP := 0x11E
  const ESC_MULH := 0x11F
  const ESC_LDM := 0x120
  const ESC_STM := 0x121
  const ESC_LDMW_DE_HL := 0x122
  const ESC_LDMW_HL_DE := 0x123
  const ESC_STMW_HL_DE := 0x124
  const ESC_STMW_DE_HL := 0x125
  const ESC_MOV_MB_HL := 0x126
  const ESC_MOV_HL_MB := 0x127
  const ESC_JS := 0x128
  const ESC_JNS := 0x129
  const ESC_VS := 0x12A
  const ESC_VC := 0x12B
  const ESC_TRAPRET := 0x12C
  const ESC_CALL_HL := 0x12D

  const ESC_BASE := 0x100

  /** Effective opcode, register fields, length. */
  datatype Dec = Dec(eop: nat, d: nat, s: nat, len: nat)

  function DecFirst(op: byte): Dec
  {
    if op <= 0x08 then Dec(op, 0, 0, 1)
    else if op <= 0x10 then Dec(op, 0, 0, 3)
    else if op <= 0x12 then Dec(op, 0, 0, 2)
    else if op == 0x13 then Dec(op, 0, 0, 1)
    else if op <= 0x1F then Dec(op, op % 4, op % 4, 1)
    else if op <= 0x5F then Dec(op, op / 4 % 4, op % 4, 1)
    else if op <= 0x6B then Dec(op, op % 4, op % 4, 1)
    else if op <= 0x6F then Dec(op, op % 4, op % 4, 3)
    else if op == ESCAPE_PREFIX then Dec(op, 0, 0, PREFIX_BYTES)
    else if op <= 0x7F then Dec(op, 0, 0, 1)
    else if op <= 0xCF then Dec(op, op / 4 % 4, op % 4, 1)
    else if op <= 0xDF then Dec(op, op % 4, op % 4, 2)
    else Dec(op, op % 4, op % 4, 1)
  }

  function DecEsc(sub: byte): Dec
  {
    if sub <= 0x2F then Dec(ESC_DIV + sub / 16, sub / 4 % 4, sub % 4, 0)
    else if 0x30 <= sub <= 0x35 then Dec(ESC_MOVW_HL_DE + (sub - 0x30), 0, 0, 0)
    else if 0x38 <= sub <= 0x3F then Dec(ESC_PUSHW_HL + (sub - 0x38), 0, 0, 0)
    else if 0x40 <= sub <= 0x4F then Dec(ESC_NOT + sub / 4 % 4, sub % 4, sub % 4, 0)
    else if 0x50 <= sub <= 0x53 then Dec(ESC_LDX, sub % 4, sub % 4, 1)
    else if 0x54 <= sub <= 0x57 then Dec(ESC_STX, sub % 4, sub % 4, 1)
    else if sub == 0x58 then Dec(ESC_ADD_SP, 0, 0, 1)
    else if 0x60 <= sub <= 0x62 then Dec(ESC_ADD_HLDE + (sub - 0x60), 0, 0, 0)
    else if 0x64 <= sub <= 0x67 then Dec(ESC_JS + (sub - 0x64), 0, 0, 1)
    else if sub == 0x70 then Dec(ESC_EXT, 0, 0, 1)
    else if 0x80 <= sub <= 0x87 then Dec(ESC_STC + sub / 4 % 2, sub % 4, sub % 4, 0)
    else if 0x90 <= sub <= 0x9F then Dec(ESC_MULH, sub / 4 % 4, sub % 4, 0)
    else if 0xB0 <= sub <= 0xB7 then Dec(ESC_LDM + sub / 4 % 2, sub % 4, sub % 4, 0)
    else if sub == 0xA8 then Dec(ESC_TRAPRET, 0, 0, 0)
    else if sub == 0xA9 then Dec(ESC_CALL_HL, 0, 0, 0)
    else if 0xB8 <= sub <= 0xBD then Dec(ESC_LDMW_DE_HL + (sub - 0xB8), 0, 0, 0)
    else Dec(ESC_BAD, 0, 0, 0)
  }

  /** The selector an escape effective opcode stands for. */
  function EscSel(eop: nat): Sel
  {
    if eop == ESC_DIV then Div
    else if eop == ESC_MOD then Mod
    else if eop == ESC_CMP then Cmp
    else if eop == ESC_NOT then Not
    else if eop == ESC_NEG then Neg
    else if eop == ESC_ROL then Rol
    else if eop == ESC_ROR then Ror
    else if eop == ESC_ADD_HLDE then AddHlDe
    else if eop == ESC_SUB_HLDE then SubHlDe
    else if eop == ESC_XCHG then Xchg
    else if eop == ESC_EXT then Ext
    else if eop == ESC_STC then Stc
    else if eop == ESC_LDC then Ldc
    else if eop == ESC_BAD then Bad
    else if eop == ESC_MOVW_HL_DE then MovwHlDe
    else if eop == ESC_MOVW_DE_HL then MovwDeHl
    else if eop == ESC_MOVW_HL_SP then MovwHlSp
    else if eop == ESC_MOVW_DE_SP then MovwDeSp
    else if eop == ESC_MOVW_SP_HL then MovwSpHl
    else if eop == ESC_MOVW_SP_DE then MovwSpDe
    else if eop == ESC_PUSHW_HL then PushwHl
    else if eop == ESC_PUSHW_DE then PushwDe
    else if eop == ESC_POPW_HL then PopwHl
    else if eop == ESC_POPW_DE then PopwDe
    else if eop == ESC_STW_HLDE then StwHlDe
    else if eop == ESC_STW_DEHL then StwDeHl
    else if eop == ESC_LDW_DEHL then LdwDeHl
    else if eop == ESC_LDW_HLDE then LdwHlDe
    else if eop == ESC_LDX then Ldx
    else if eop == ESC_STX then Stx
    else if eop == ESC_ADD_SP then AddSp
    else if eop == ESC_MULH then Mulh
    else if eop == ESC_LDM then Ldm
    else if eop == ESC_STM then Stm
    else if eop == ESC_LDMW_DE_HL then LdmwDeHl
    else if eop == ESC_LDMW_HL_DE then LdmwHlDe
    else if eop == ESC_STMW_HL_DE then StmwHlDe
    else if eop == ESC_STMW_DE_HL then StmwDeHl
    else if eop == ESC_MOV_MB_HL then MovMbHl
    else if eop == ESC_MOV_HL_MB then MovHlMb
    else if eop == ESC_JS then Js
    else if eop == ESC_JNS then Jns
    else if eop == ESC_VS then Vs
    else if eop == ESC_VC then Vc
    else if eop == ESC_TRAPRET then TrapRet
    else if eop == ESC_CALL_HL then CallHl
    else Bad
  }

  /** Every single-byte code point decodes as the table says. */
  lemma DecFirstAgrees(op: byte)
    requires op != ESCAPE_PREFIX
    ensures var row := SingleRow(op); DecFirst(op) == Dec(op, row.s0, row.s1, 1 + row.l)
  {
  }

  predicate EscapeFits(sub: byte)
  {
    var row, dec := EscapeRow(sub), DecEsc(sub);
    EscSel(dec.eop) == row.sel && dec.d == row.s0 && dec.s == row.s1 && dec.len == row.l
    && ESC_BASE <= dec.eop <= ESC_CALL_HL
  }

  lemma EscapeFits00(sub: byte)
    requires 0x00 <= sub < 0x30
    ensures EscapeFits(sub)
  {
  }

  lemma EscapeFits30(sub: byte)
    requires 0x30 <= sub < 0x36
    ensures EscapeFits(sub)
  {
  }

  lemma EscapeFits36(sub: byte)
    requires 0x36 <= sub < 0x40
    ensures EscapeFits(sub)
  {
  }

  lemma EscapeFits40(sub: byte)
    requires 0x40 <= sub < 0x50
    ensures EscapeFits(sub)
  {
  }

  lemma EscapeFits50(sub: byte)
    requires 0x50 <= sub < 0x60
    ensures EscapeFits(sub)
  {
  }

  lemma EscapeFits60(sub: byte)
    requires 0x60 <= sub < 0x64
    ensures EscapeFits(sub)
  {
  }

  lemma EscapeFits64(sub: byte)
    requires 0x64 <= sub < 0x80
    ensures EscapeFits(sub)
  {
  }

  lemma EscapeFits80(sub: byte)
    requires 0x80 <= sub < 0xA0
    ensures EscapeFits(sub)
  {
  }

  lemma EscapeFitsA0(sub: byte)
    requires 0xA0 <= sub < 0xB0
    ensures EscapeFits(sub)
  {
  }

  lemma EscapeFitsB0(sub: byte)
    requires 0xB0 <= sub < 0xB8
    ensures EscapeFits(sub)
  {
  }

  lemma EscapeFitsB8(sub: byte)
    requires 0xB8 <= sub < 0x100
    ensures EscapeFits(sub)
  {
  }

  /** Every escape code point decodes as the table says. */
  lemma DecEscAgrees(sub: byte)
    ensures var row, dec := EscapeRow(sub), DecEsc(sub);
      EscSel(dec.eop) == row.sel && dec.d == row.s0 && dec.s == row.s1 && dec.len == row.l
      && ESC_BASE <= dec.eop <= ESC_CALL_HL
  {
    hide EscapeRow, DecEsc, EscSel;
    if sub < 0x30 {
      EscapeFits00(sub);
    } else if sub < 0x36 {
      EscapeFits30(sub);
    } else if sub < 0x40 {
      EscapeFits36(sub);
    } else if sub < 0x50 {
      EscapeFits40(sub);
    } else if sub < 0x60 {
      EscapeFits50(sub);
    } else if sub < 0x64 {
      EscapeFits60(sub);
    } else if sub < 0x80 {
      EscapeFits64(sub);
    } else if sub < 0xA0 {
      EscapeFits80(sub);
    } else if sub < 0xB0 {
      EscapeFitsA0(sub);
    } else if sub < 0xB8 {
      EscapeFitsB0(sub);
    } else {
      EscapeFitsB8(sub);
    }
  }
}
