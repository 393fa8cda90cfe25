/** The two-pass assembler and the disassembler over instructions: encoding and decoding are
    inverse, one instruction at a time and over programs of any length. */
module Assembler {
  import opened Bits
  import opened Isa

  // ------------------------------------------------------------------- encoding

  /** What follows the code bytes. A word is an address or an immediate, or names a label. */
  datatype Operand = NoOperand | Byte(b: byte) | Word16(w: word) | Ref(name: string)

  /** One instruction: its selector, its register fields and its operand. */
  datatype Ins = Ins(sel: Sel, d: reg, s: reg, arg: Operand)

  /** The encoding table: escape space or not, base code, register fields. */
  datatype Enc = Enc(esc: bool, base: byte, fields: nat)

  function Table(x: Sel): Enc
    requires !x.Bad?
  {
    match x
    case Halt => Enc(false, 0x00, 0) case Nop => Enc(false, 0x01, 0) case IncHl => Enc(false, 0x02, 0)
    case DecHl => Enc(false, 0x03, 0) case IncDe => Enc(false, 0x04, 0) case Clc => Enc(false, 0x05, 0)
    case OutM => Enc(false, 0x06, 0) case OutDe => Enc(false, 0x07, 0) case Ret => Enc(false, 0x08, 0)
    case Jmp => Enc(false, 0x09, 0) case Jz => Enc(false, 0x0A, 0) case Jnz => Enc(false, 0x0B, 0)
    case Jc => Enc(false, 0x0C, 0) case Jnc => Enc(false, 0x0D, 0) case Call => Enc(false, 0x0E, 0)
    case LdiHl => Enc(false, 0x0F, 0) case LdiDe => Enc(false, 0x10, 0)
    case AddiHl => Enc(false, 0x11, 0) case AddiDe => Enc(false, 0x12, 0)
    case JpHl => Enc(false, 0x13, 0)
    case GetPc => Enc(false, 0x14, 1) case GetSp => Enc(false, 0x18, 1) case GetF => Enc(false, 0x1C, 1)
    case And8 => Enc(false, 0x20, 2) case Or8 => Enc(false, 0x30, 2) case Xor8 => Enc(false, 0x40, 2)
    case Mul => Enc(false, 0x50, 2)
    case Shl => Enc(false, 0x60, 1) case Shr => Enc(false, 0x64, 1) case Tst => Enc(false, 0x68, 1)
    case Djnz => Enc(false, 0x6C, 1)
    case Add => Enc(false, 0x80, 2) case Sub => Enc(false, 0x90, 2) case Adc => Enc(false, 0xA0, 2)
    case Sbb => Enc(false, 0xB0, 2) case Mov => Enc(false, 0xC0, 2)
    case Ldi => Enc(false, 0xD0, 1) case Addi => Enc(false, 0xD4, 1) case Subi => Enc(false, 0xD8, 1)
    case Adci => Enc(false, 0xDC, 1)
    case MovRHl => Enc(false, 0xE0, 1) case MovHlR => Enc(false, 0xE4, 1)
    case MovRDe => Enc(false, 0xE8, 1) case MovDeR => Enc(false, 0xEC, 1)
    case Push => Enc(false, 0xF0, 1) case Pop => Enc(false, 0xF4, 1)
    case Out => Enc(false, 0xF8, 1) case In => Enc(false, 0xFC, 1)
    case Div => Enc(true, 0x00, 2) case Mod => Enc(true, 0x10, 2) case Cmp => Enc(true, 0x20, 2)
    case MovwHlDe => Enc(true, 0x30, 0) case MovwDeHl => Enc(true, 0x31, 0)
    case MovwHlSp => Enc(true, 0x32, 0) case MovwDeSp => Enc(true, 0x33, 0)
    case MovwSpHl => Enc(true, 0x34, 0) case MovwSpDe => Enc(true, 0x35, 0)
    case PushwHl => Enc(true, 0x38, 0) case PushwDe => Enc(true, 0x39, 0)
    case PopwHl => Enc(true, 0x3A, 0) case PopwDe => Enc(true, 0x3B, 0)
    case StwHlDe => Enc(true, 0x3C, 0) case StwDeHl => Enc(true, 0x3D, 0)
    case LdwDeHl => Enc(true, 0x3E, 0) case LdwHlDe => Enc(true, 0x3F, 0)
    case Not => Enc(true, 0x40, 1) case Neg => Enc(true, 0x44, 1) case Rol => Enc(true, 0x48, 1)
    case Ror => Enc(true, 0x4C, 1)
    case Ldx => Enc(true, 0x50, 1) case Stx => Enc(true, 0x54, 1) case AddSp => Enc(true, 0x58, 0)
    case AddHlDe => Enc(true, 0x60, 0) case SubHlDe => Enc(true, 0x61, 0) case Xchg => Enc(true, 0x62, 0)
    case Js => Enc(true, 0x64, 0) case Jns => Enc(true, 0x65, 0) case Vs => Enc(true, 0x66, 0)
    case Vc => Enc(true, 0x67, 0) case Ext => Enc(true, 0x70, 0)
    case Stc => Enc(true, 0x80, 1) case Ldc => Enc(true, 0x84, 1) case Mulh => Enc(true, 0x90, 2)
    case TrapRet => Enc(true, 0xA8, 0) case CallHl => Enc(true, 0xA9, 0)
    case Ldm => Enc(true, 0xB0, 1) case Stm => Enc(true, 0xB4, 1)
    case LdmwDeHl => Enc(true, 0xB8, 0) case LdmwHlDe => Enc(true, 0xB9, 0)
    case StmwHlDe => Enc(true, 0xBA, 0) case StmwDeHl => Enc(true, 0xBB, 0)
    case MovMbHl => Enc(true, 0xBC, 0) case MovHlMb => Enc(true, 0xBD, 0)
  }

  /** How many operand bytes the table appends. */
  function OperandBytes(x: Sel): nat
  {
    if x.Jmp? || x.Jz? || x.Jnz? || x.Jc? || x.Jnc? || x.Call? || x.LdiHl? || x.LdiDe? || x.Djnz? then 2
    else if x.AddiHl? || x.AddiDe? || x.Ldi? || x.Addi? || x.Subi? || x.Adci? || x.Ldx? || x.Stx?
            || x.AddSp? || x.Js? || x.Jns? || x.Vs? || x.Vc? || x.Ext? then 1
    else 0
  }

  /** The spellings the forms accept: as many register fields and operand bytes as the shape
      has, a register operand byte below 4. */
  predicate Accepted(i: Ins)
  {
    && !i.sel.Bad?
    && var f := Table(i.sel).fields;
    && (f == 0 ==> i.d == 0 && i.s == 0) && (f == 1 ==> i.d == i.s)
    && (match OperandBytes(i.sel)
        case 0 => i.arg.NoOperand?
        case 1 => i.arg.Byte? && (i.sel.AddiHl? || i.sel.AddiDe? ==> i.arg.b < 4)
        case _ => i.arg.Word16? || i.arg.Ref?)
  }

  type Labels = map<string, nat>

  /** The code bytes: the base with the register fields in its low bits. */
  function CodeBytes(x: Sel, d: reg, s: reg): seq<byte>
    requires !x.Bad?
  {
    var t := Table(x);
    var low := if t.fields == 2 then 4 * d + s else if t.fields == 1 then d else 0;
    if t.esc then [ESCAPE_PREFIX, (t.base + low) % 256] else [(t.base + low) % 256]
  }

  /** A word operand's value: in the first pass a label not yet seen stands for 0; in the
      second it is an error. An address past 65535 is refused in both. */
  function WordOf(arg: Operand, labels: Labels, strict: bool): Option<word>
    requires arg.Word16? || arg.Ref?
  {
    if arg.Word16? then Some(arg.w)
    else if arg.name in labels then
      if labels[arg.name] <= 0xFFFF then Some(labels[arg.name]) else None
    else if strict then None else Some(0)
  }

  function Encode(i: Ins, labels: Labels, strict: bool): Option<seq<byte>>
    requires Accepted(i)
  {
    var code := CodeBytes(i.sel, i.d, i.s);
    match i.arg
    case NoOperand => Some(code)
    case Byte(b) => Some(code + [b])
    case _ =>
      match WordOf(i.arg, labels, strict)
      case None => None
      case Some(w) => Some(code + [w % 256, w / 256])
  }

  function SizeOf(i: Ins): nat
    requires Accepted(i)
  {
    (if Table(i.sel).esc then 2 else 1) + OperandBytes(i.sel)
  }

  /** An instruction is as long in the first pass as in the second, labels known or not. */
  lemma PassesAgree(i: Ins, labels: Labels, strict: bool)
    requires Accepted(i)
    ensures var b := Encode(i, labels, strict); b.Some? ==> |b.value| == SizeOf(i)
  {
    hide Table;
  }

  // ------------------------------------------------------------------- decoding

  /** One disassembled row: an instruction, a code point the tables leave unassigned, or a tail
      cut off. */
  datatype Shown = Decoded(i: Ins, canonical: bool) | Undefined | Truncated

  datatype Line = Line(at: nat, len: nat, shown: Shown)

  function RowAt(image: seq<byte>, pc: nat): Row
    requires pc < |image|
  {
    if image[pc] == ESCAPE_PREFIX then
      if pc + 1 < |image| then EscapeRow(image[pc + 1]) else Plain(Bad, 0)
    else SingleRow(image[pc])
  }

  function OperandAt(image: seq<byte>, at: nat, l: nat): Operand
    requires at + l <= |image| && l <= 2
  {
    if l == 0 then NoOperand else if l == 1 then Byte(image[at]) else Word16(Word(image[at], image[at + 1]))
  }

  predicate Canonical(i: Ins)
  {
    (i.sel.AddiHl? || i.sel.AddiDe?) && i.arg.Byte? ==> i.arg.b < 4
  }

  function DecodeAt(image: seq<byte>, pc: nat, end: nat): (n: Line)
    requires pc < end <= |image|
    ensures n.at == pc && 0 < n.len && pc + n.len <= end
  {
    var esc := image[pc] == ESCAPE_PREFIX;
    var head := if esc then 2 else 1;
    if pc + head > end then Line(pc, end - pc, Truncated)
    else
      var row := RowAt(image, pc);
      if row.sel.Bad? then Line(pc, head, Undefined)
      else if pc + head + row.l > end then Line(pc, end - pc, Truncated)
      else
        var i := Ins(row.sel, row.s0, row.s1, OperandAt(image, pc + head, row.l));
        Line(pc, head + row.l, Decoded(i, Canonical(i)))
  }

  /** A walk from `pc`; a truncated row ends it. */
  function Walked(image: seq<byte>, pc: nat, end: nat): seq<Line>
    requires end <= |image|
    decreases if pc < end then end - pc else 0
  {
    if pc >= end then []
    else
      var n := DecodeAt(image, pc, end);
      if n.shown.Truncated? then [n] else [n] + Walked(image, pc + n.len, end)
  }

  // ------------------------------------------------- the two tables against each other

  predicate InverseRow(x: Sel, d: reg, s: reg, row: Row)
    requires !x.Bad?
  {
    var f := Table(x).fields;
    row == Row(x, if f == 0 then 0 else d, if f == 0 then 0 else if f == 1 then d else s, OperandBytes(x))
  }

  /** The tables agree on `x`: its code bytes are the code point whose row is `x` again. */
  predicate Inverts(x: Sel, d: reg, s: reg)
    requires !x.Bad?
  {
    var t := Table(x);
    var low := if t.fields == 2 then 4 * d + s else if t.fields == 1 then d else 0;
    && t.base + low < 256 && (!t.esc ==> t.base + low != ESCAPE_PREFIX)
    && InverseRow(x, d, s, if t.esc then EscapeRow(t.base + low) else SingleRow(t.base + low))
  }

  /** The encoding table in stretches. */
  datatype Stretch =
    | Inherent | Outputs | ZeroJumps | Wides | Pointers | Logic | Shifts | Immediates | Sums | Copies
    | Cells | Stack | Quotients | Products | Rotations | PairMoves | PairStack | PairCells | PairSums | Control | Bank

  function StretchOf(x: Sel): Stretch
    requires !x.Bad?
  {
    match x
    case Halt | Nop | IncHl | DecHl | IncDe | Clc => Stretch.Inherent
    case OutM | OutDe | Ret => Stretch.Outputs
    case Jmp | Jz | Jnz => Stretch.ZeroJumps
    case Jc | Jnc | Call | LdiHl | LdiDe => Stretch.Wides
    case AddiHl | AddiDe | JpHl | GetPc | GetSp | GetF => Stretch.Pointers
    case And8 | Or8 | Xor8 | Mul => Stretch.Logic
    case Shl | Shr | Tst | Djnz => Stretch.Shifts
    case Ldi | Addi | Subi | Adci => Stretch.Immediates
    case Add | Sub | Adc => Stretch.Sums
    case Sbb | Mov => Stretch.Copies
    case MovRHl | MovHlR | MovRDe | MovDeR => Stretch.Cells
    case Push | Pop | Out | In => Stretch.Stack
    case Div | Mod => Stretch.Quotients
    case Cmp | Mulh => Stretch.Products
    case Not | Neg | Rol | Ror => Stretch.Rotations
    case MovwHlDe | MovwDeHl | MovwHlSp | MovwDeSp | MovwSpHl | MovwSpDe => Stretch.PairMoves
    case PushwHl | PushwDe | PopwHl | PopwDe => Stretch.PairStack
    case StwHlDe | StwDeHl | LdwDeHl | LdwHlDe | Ldx | Stx => Stretch.PairCells
    case AddSp | AddHlDe | SubHlDe | Xchg => Stretch.PairSums
    case Js | Jns | Vs | Vc | Ext | Stc | Ldc | TrapRet | CallHl => Stretch.Control
    case Ldm | Stm | LdmwDeHl | LdmwHlDe | StmwHlDe | StmwDeHl | MovMbHl | MovHlMb => Stretch.Bank
  }

  lemma FieldBits(base: nat, d: reg, s: reg)
    requires base % 16 == 0
    ensures (base + 4 * d + s) / 4 % 4 == d && (base + 4 * d + s) % 4 == s
  {
    var q := base / 16;
    assert base + 4 * d + s == 4 * (4 * q + d) + s;
  }

  lemma InvertInherent(x: Sel, d: reg, s: reg)
    requires !x.Bad? && StretchOf(x) == Stretch.Inherent
    ensures Inverts(x, d, s)
  {
    hide EscapeRow;
  }

  lemma InvertOutputs(x: Sel, d: reg, s: reg)
    requires !x.Bad? && StretchOf(x) == Stretch.Outputs
    ensures Inverts(x, d, s)
  {
    hide EscapeRow;
  }

  lemma InvertZeroJumps(x: Sel, d: reg, s: reg)
    requires !x.Bad? && StretchOf(x) == Stretch.ZeroJumps
    ensures Inverts(x, d, s)
  {
    hide EscapeRow;
  }

  lemma InvertWides(x: Sel, d: reg, s: reg)
    requires !x.Bad? && StretchOf(x) == Stretch.Wides
    ensures Inverts(x, d, s)
  {
    hide EscapeRow;
  }

  lemma InvertPointers(x: Sel, d: reg, s: reg)
    requires !x.Bad? && StretchOf(x) == Stretch.Pointers
    ensures Inverts(x, d, s)
  {
    hide EscapeRow;
  }

  lemma InvertLogic(x: Sel, d: reg, s: reg)
    requires !x.Bad? && StretchOf(x) == Stretch.Logic
    ensures Inverts(x, d, s)
  {
    hide EscapeRow;
    FieldBits(Table(x).base, d, s);
  }

  lemma InvertShifts(x: Sel, d: reg, s: reg)
    requires !x.Bad? && StretchOf(x) == Stretch.Shifts
    ensures Inverts(x, d, s)
  {
    hide EscapeRow;
  }

  lemma InvertImmediates(x: Sel, d: reg, s: reg)
    requires !x.Bad? && StretchOf(x) == Stretch.Immediates
    ensures Inverts(x, d, s)
  {
    hide EscapeRow;
  }

  lemma InvertSums(x: Sel, d: reg, s: reg)
    requires !x.Bad? && StretchOf(x) == Stretch.Sums
    ensures Inverts(x, d, s)
  {
    hide EscapeRow;
    FieldBits(Table(x).base, d, s);
  }

  lemma InvertCopies(x: Sel, d: reg, s: reg)
    requires !x.Bad? && StretchOf(x) == Stretch.Copies
    ensures Inverts(x, d, s)
  {
    hide EscapeRow;
    FieldBits(Table(x).base, d, s);
  }

  lemma InvertCells(x: Sel, d: reg, s: reg)
    requires !x.Bad? && StretchOf(x) == Stretch.Cells
    ensures Inverts(x, d, s)
  {
    hide EscapeRow;
  }

  lemma InvertStack(x: Sel, d: reg, s: reg)
    requires !x.Bad? && StretchOf(x) == Stretch.Stack
    ensures Inverts(x, d, s)
  {
    hide EscapeRow;
  }

  lemma InvertQuotients(x: Sel, d: reg, s: reg)
    requires !x.Bad? && StretchOf(x) == Stretch.Quotients
    ensures Inverts(x, d, s)
  {
    hide SingleRow;
    FieldBits(Table(x).base, d, s);
  }

  lemma InvertProducts(x: Sel, d: reg, s: reg)
    requires !x.Bad? && StretchOf(x) == Stretch.Products
    ensures Inverts(x, d, s)
  {
    hide SingleRow;
    FieldBits(Table(x).base, d, s);
  }

  lemma InvertRotations(x: Sel, d: reg, s: reg)
    requires !x.Bad? && StretchOf(x) == Stretch.Rotations
    ensures Inverts(x, d, s)
  {
    hide SingleRow;
  }

  lemma InvertPairMoves(x: Sel, d: reg, s: reg)
    requires !x.Bad? && StretchOf(x) == Stretch.PairMoves
    ensures Inverts(x, d, s)
  {
    hide SingleRow;
  }

  lemma InvertPairStack(x: Sel, d: reg, s: reg)
    requires !x.Bad? && StretchOf(x) == Stretch.PairStack
    ensures Inverts(x, d, s)
  {
    hide SingleRow;
  }

  lemma InvertPairCells(x: Sel, d: reg, s: reg)
    requires !x.Bad? && StretchOf(x) == Stretch.PairCells
    ensures Inverts(x, d, s)
  {
    hide SingleRow;
  }

  lemma InvertPairSums(x: Sel, d: reg, s: reg)
    requires !x.Bad? && StretchOf(x) == Stretch.PairSums
    ensures Inverts(x, d, s)
  {
    hide SingleRow;
  }

  lemma InvertControl(x: Sel, d: reg, s: reg)
    requires !x.Bad? && StretchOf(x) == Stretch.Control
    ensures Inverts(x, d, s)
  {
    hide SingleRow;
  }

  lemma InvertBank(x: Sel, d: reg, s: reg)
    requires !x.Bad? && StretchOf(x) == Stretch.Bank
    ensures Inverts(x, d, s)
  {
    hide SingleRow;
  }

  /** Every accepted shape encodes to the code point whose row is the shape again. */
  lemma Invert(x: Sel, d: reg, s: reg)
    requires !x.Bad?
    ensures Inverts(x, d, s)
  {
    hide Inverts;
    match StretchOf(x)
    case Inherent => InvertInherent(x, d, s);
    case Outputs => InvertOutputs(x, d, s);
    case ZeroJumps => InvertZeroJumps(x, d, s);
    case Wides => InvertWides(x, d, s);
    case Pointers => InvertPointers(x, d, s);
    case Logic => InvertLogic(x, d, s);
    case Shifts => InvertShifts(x, d, s);
    case Immediates => InvertImmediates(x, d, s);
    case Sums => InvertSums(x, d, s);
    case Copies => InvertCopies(x, d, s);
    case Cells => InvertCells(x, d, s);
    case Stack => InvertStack(x, d, s);
    case Quotients => InvertQuotients(x, d, s);
    case Products => InvertProducts(x, d, s);
    case Rotations => InvertRotations(x, d, s);
    case PairMoves => InvertPairMoves(x, d, s);
    case PairStack => InvertPairStack(x, d, s);
    case PairCells => InvertPairCells(x, d, s);
    case PairSums => InvertPairSums(x, d, s);
    case Control => InvertControl(x, d, s);
    case Bank => InvertBank(x, d, s);
  }

  // ------------------------------------------------------- one instruction, both ways

  /** The instruction with its label looked up. */
  function Resolved(i: Ins, labels: Labels): Ins
  {
    if i.arg.Ref? && i.arg.name in labels && labels[i.arg.name] <= 0xFFFF
    then i.(arg := Word16(labels[i.arg.name])) else i
  }

  /** The code bytes of an accepted instruction select its own row. */
  lemma CodeSelects(i: Ins)
    requires Accepted(i)
    ensures var c := CodeBytes(i.sel, i.d, i.s);
      && (c[0] == ESCAPE_PREFIX <==> |c| == 2)
      && (if |c| == 2 then EscapeRow(c[1]) else SingleRow(c[0])) == Row(i.sel, i.d, i.s, OperandBytes(i.sel))
  {
    hide SingleRow, EscapeRow, Table;
    Invert(i.sel, i.d, i.s);
  }

  lemma ByteAt(image: seq<byte>, pc: nat, b: seq<byte>, k: nat)
    requires pc + |b| <= |image| && image[pc..pc + |b|] == b && k < |b|
    ensures image[pc + k] == b[k]
  {
    assert image[pc..pc + |b|][k] == image[pc + k];
  }

  /** The bytes of an encoding: the code bytes, then the operand. */
  lemma EncodingParts(i: Ins, labels: Labels)
    requires Accepted(i) && Encode(i, labels, true).Some?
    ensures var b, c, l := Encode(i, labels, true).value, CodeBytes(i.sel, i.d, i.s), OperandBytes(i.sel);
      && |b| == |c| + l == SizeOf(i) && b[..|c|] == c
      && OperandAt(b, |c|, l) == Resolved(i, labels).arg
  {
    hide Table, CodeBytes;
    PassesAgree(i, labels, true);
    CodeLength(i);
  }

  lemma CodeLength(i: Ins)
    requires Accepted(i)
    ensures |CodeBytes(i.sel, i.d, i.s)| + OperandBytes(i.sel) == SizeOf(i)
    ensures 1 <= |CodeBytes(i.sel, i.d, i.s)| <= 2 && OperandBytes(i.sel) <= 2
  {
    hide Table;
  }

  /** Decoding what was encoded gives the instruction back, wherever it stands. */
  lemma EncodedDecodes(i: Ins, labels: Labels, image: seq<byte>, pc: nat, end: nat)
    requires Accepted(i) && Encode(i, labels, true).Some? && pc < end <= |image|
    requires var b := Encode(i, labels, true).value; pc + |b| <= end && image[pc..pc + |b|] == b
    ensures DecodeAt(image, pc, end) == Line(pc, SizeOf(i), Decoded(Resolved(i, labels), true))
  {
    var b := Encode(i, labels, true).value;
    var c, l := CodeBytes(i.sel, i.d, i.s), OperandBytes(i.sel);
    EncodingParts(i, labels);
    CodeSelects(i);
    CodeLength(i);
    ResolvedShape(i, labels);
    hide Table, SingleRow, EscapeRow, Encode, CodeBytes, Accepted, OperandBytes, Resolved, SizeOf;
    ByteAt(image, pc, b, 0);
    assert b[0] == b[..|c|][0];
    if |c| == 2 {
      ByteAt(image, pc, b, 1);
      assert b[1] == b[..|c|][1];
    }
    if l >= 1 {
      ByteAt(image, pc, b, |c|);
    }
    if l == 2 {
      ByteAt(image, pc, b, |c| + 1);
    }
  }

  lemma ResolvedShape(i: Ins, labels: Labels)
    requires Accepted(i)
    ensures var r := Resolved(i, labels);
      r.sel == i.sel && r.d == i.d && r.s == i.s && !i.sel.Bad? && Canonical(r)
  {
    hide Table;
  }

  // ---------------------------------------------------- one code point, both ways

  /** A code point's row encodes to the code point again, in the shape its row has. */
  predicate RowFits(row: Row, code: seq<byte>)
  {
    !row.sel.Bad? ==>
      && CodeBytes(row.sel, row.s0, row.s1) == code && OperandBytes(row.sel) == row.l
      && (Table(row.sel).fields == 0 ==> row.s0 == 0 && row.s1 == 0)
      && (Table(row.sel).fields == 1 ==> row.s0 == row.s1)
  }

  lemma SingleFits00(op: byte)
    requires 0x00 <= op < 0x05
    ensures RowFits(SingleRow(op), [op])
  {
  }

  lemma SingleFits05(op: byte)
    requires 0x05 <= op < 0x09
    ensures RowFits(SingleRow(op), [op])
  {
  }

  lemma SingleFits09(op: byte)
    requires 0x09 <= op < 0x0E
    ensures RowFits(SingleRow(op), [op])
  {
  }

  lemma SingleFits0E(op: byte)
    requires 0x0E <= op < 0x14
    ensures RowFits(SingleRow(op), [op])
  {
  }

  lemma SingleFits14(op: byte)
    requires 0x14 <= op < 0x20
    ensures RowFits(SingleRow(op), [op])
  {
  }

  lemma SingleFits20(op: byte)
    requires 0x20 <= op < 0x40
    ensures RowFits(SingleRow(op), [op])
  {
  }

  lemma SingleFits40(op: byte)
    requires 0x40 <= op < 0x60
    ensures RowFits(SingleRow(op), [op])
  {
  }

  lemma SingleFits60(op: byte)
    requires 0x60 <= op < 0x80
    ensures RowFits(SingleRow(op), [op])
  {
  }

  lemma SingleFits80(op: byte)
    requires 0x80 <= op < 0xB0
    ensures RowFits(SingleRow(op), [op])
  {
  }

  lemma SingleFitsB0(op: byte)
    requires 0xB0 <= op < 0xD0
    ensures RowFits(SingleRow(op), [op])
  {
  }

  lemma SingleFitsD0(op: byte)
    requires 0xD0 <= op < 0xE8
    ensures RowFits(SingleRow(op), [op])
  {
  }

  lemma SingleFitsE8(op: byte)
    requires 0xE8 <= op < 0x100
    ensures RowFits(SingleRow(op), [op])
  {
  }

  lemma SingleFits(op: byte)
    ensures RowFits(SingleRow(op), [op])
  {
    hide RowFits, SingleRow, EscapeRow;
    if op < 0x05 {
      SingleFits00(op);
    } else if op < 0x09 {
      SingleFits05(op);
    } else if op < 0x0E {
      SingleFits09(op);
    } else if op < 0x14 {
      SingleFits0E(op);
    } else if op < 0x20 {
      SingleFits14(op);
    } else if op < 0x40 {
      SingleFits20(op);
    } else if op < 0x60 {
      SingleFits40(op);
    } else if op < 0x80 {
      SingleFits60(op);
    } else if op < 0xB0 {
      SingleFits80(op);
    } else if op < 0xD0 {
      SingleFitsB0(op);
    } else if op < 0xE8 {
      SingleFitsD0(op);
    } else {
      SingleFitsE8(op);
    }
  }

  lemma EscapeFits00(op: byte)
    requires 0x00 <= op < 0x10
    ensures RowFits(EscapeRow(op), [ESCAPE_PREFIX, op])
  {
  }

  lemma EscapeFits10(op: byte)
    requires 0x10 <= op < 0x20
    ensures RowFits(EscapeRow(op), [ESCAPE_PREFIX, op])
  {
  }

  lemma EscapeFits20(op: byte)
    requires 0x20 <= op < 0x30
    ensures RowFits(EscapeRow(op), [ESCAPE_PREFIX, op])
  {
  }

  lemma EscapeFits30(op: byte)
    requires 0x30 <= op < 0x34
    ensures RowFits(EscapeRow(op), [ESCAPE_PREFIX, op])
  {
  }

  lemma EscapeFits34(op: byte)
    requires 0x34 <= op < 0x38
    ensures RowFits(EscapeRow(op), [ESCAPE_PREFIX, op])
  {
  }

  lemma EscapeFits38(op: byte)
    requires 0x38 <= op < 0x3A
    ensures RowFits(EscapeRow(op), [ESCAPE_PREFIX, op])
  {
  }

  lemma EscapeFits3A(op: byte)
    requires 0x3A <= op < 0x3C
    ensures RowFits(EscapeRow(op), [ESCAPE_PREFIX, op])
  {
  }

  lemma EscapeFits3C(op: byte)
    requires 0x3C <= op < 0x3E
    ensures RowFits(EscapeRow(op), [ESCAPE_PREFIX, op])
  {
  }

  lemma EscapeFits3E(op: byte)
    requires 0x3E <= op < 0x40
    ensures RowFits(EscapeRow(op), [ESCAPE_PREFIX, op])
  {
  }

  lemma EscapeFits40(op: byte)
    requires 0x40 <= op < 0x50
    ensures RowFits(EscapeRow(op), [ESCAPE_PREFIX, op])
  {
  }

  lemma EscapeFits50(op: byte)
    requires 0x50 <= op < 0x60
    ensures RowFits(EscapeRow(op), [ESCAPE_PREFIX, op])
  {
  }

  lemma EscapeFits60(op: byte)
    requires 0x60 <= op < 0x64
    ensures RowFits(EscapeRow(op), [ESCAPE_PREFIX, op])
  {
  }

  lemma EscapeFits64(op: byte)
    requires 0x64 <= op < 0x66
    ensures RowFits(EscapeRow(op), [ESCAPE_PREFIX, op])
  {
  }

  lemma EscapeFits66(op: byte)
    requires 0x66 <= op < 0x67
    ensures RowFits(EscapeRow(op), [ESCAPE_PREFIX, op])
  {
  }

  lemma EscapeFits67(op: byte)
    requires 0x67 <= op < 0x70
    ensures RowFits(EscapeRow(op), [ESCAPE_PREFIX, op])
  {
  }

  lemma EscapeFits70(op: byte)
    requires 0x70 <= op < 0x80
    ensures RowFits(EscapeRow(op), [ESCAPE_PREFIX, op])
  {
  }

  lemma EscapeFits80(op: byte)
    requires 0x80 <= op < 0x90
    ensures RowFits(EscapeRow(op), [ESCAPE_PREFIX, op])
  {
  }

  lemma EscapeFits90(op: byte)
    requires 0x90 <= op < 0xA0
    ensures RowFits(EscapeRow(op), [ESCAPE_PREFIX, op])
  {
  }

  lemma EscapeFitsA0(op: byte)
    requires 0xA0 <= op < 0xB0
    ensures RowFits(EscapeRow(op), [ESCAPE_PREFIX, op])
  {
  }

  lemma EscapeFitsB0(op: byte)
    requires 0xB0 <= op < 0xB8
    ensures RowFits(EscapeRow(op), [ESCAPE_PREFIX, op])
  {
  }

  lemma EscapeFitsB8(op: byte)
    requires 0xB8 <= op < 0xBA
    ensures RowFits(EscapeRow(op), [ESCAPE_PREFIX, op])
  {
  }

  lemma EscapeFitsBA(op: byte)
    requires 0xBA <= op < 0xBC
    ensures RowFits(EscapeRow(op), [ESCAPE_PREFIX, op])
  {
  }

  lemma EscapeFitsBC(op: byte)
    requires 0xBC <= op < 0x100
    ensures RowFits(EscapeRow(op), [ESCAPE_PREFIX, op])
  {
  }

  lemma EscapeFits(op: byte)
    ensures RowFits(EscapeRow(op), [ESCAPE_PREFIX, op])
  {
    hide RowFits, SingleRow, EscapeRow;
    if op < 0x10 {
      EscapeFits00(op);
    } else if op < 0x20 {
      EscapeFits10(op);
    } else if op < 0x30 {
      EscapeFits20(op);
    } else if op < 0x34 {
      EscapeFits30(op);
    } else if op < 0x38 {
      EscapeFits34(op);
    } else if op < 0x3A {
      EscapeFits38(op);
    } else if op < 0x3C {
      EscapeFits3A(op);
    } else if op < 0x3E {
      EscapeFits3C(op);
    } else if op < 0x40 {
      EscapeFits3E(op);
    } else if op < 0x50 {
      EscapeFits40(op);
    } else if op < 0x60 {
      EscapeFits50(op);
    } else if op < 0x64 {
      EscapeFits60(op);
    } else if op < 0x66 {
      EscapeFits64(op);
    } else if op < 0x67 {
      EscapeFits66(op);
    } else if op < 0x70 {
      EscapeFits67(op);
    } else if op < 0x80 {
      EscapeFits70(op);
    } else if op < 0x90 {
      EscapeFits80(op);
    } else if op < 0xA0 {
      EscapeFits90(op);
    } else if op < 0xB0 {
      EscapeFitsA0(op);
    } else if op < 0xB8 {
      EscapeFitsB0(op);
    } else if op < 0xBA {
      EscapeFitsB8(op);
    } else if op < 0xBC {
      EscapeFitsBA(op);
    } else {
      EscapeFitsBC(op);
    }
  }

  /** The bytes of an operand. */
  function OperandCode(arg: Operand): seq<byte>
    requires !arg.Ref?
  {
    match arg
    case NoOperand => []
    case Byte(b) => [b]
    case Word16(w) => [w % 256, w / 256]
  }

  /** A row's slice is its code bytes and its operand's bytes. */
  lemma SliceParts(image: seq<byte>, pc: nat, head: nat, l: nat)
    requires pc + head + l <= |image| && 1 <= head <= 2 && l <= 2
    ensures image[pc..pc + head + l]
            == (if head == 2 then [image[pc], image[pc + 1]] else [image[pc]])
               + OperandCode(OperandAt(image, pc + head, l))
  {
  }

  /** The row found at `pc` is an accepted shape whenever it is canonical. */
  lemma RowAccepted(row: Row, code: seq<byte>, arg: Operand)
    requires RowFits(row, code) && !row.sel.Bad? && !arg.Ref?
    requires match row.l case 0 => arg.NoOperand? case 1 => arg.Byte? case _ => arg.Word16?
    ensures var i := Ins(row.sel, row.s0, row.s1, arg);
      && (Accepted(i) <==> Canonical(i)) && CodeBytes(i.sel, i.d, i.s) == code
  {
    hide Table, CodeBytes;
    AcceptedShape(Ins(row.sel, row.s0, row.s1, arg));
  }

  lemma EncodeIsCode(i: Ins, labels: Labels)
    requires Accepted(i) && !i.arg.Ref?
    ensures Encode(i, labels, true) == Some(CodeBytes(i.sel, i.d, i.s) + OperandCode(i.arg))
  {
    hide Table, CodeBytes;
    assert CodeBytes(i.sel, i.d, i.s) + [] == CodeBytes(i.sel, i.d, i.s);
  }

  /** Encoding what was decoded gives the bytes back: exactly the canonical ones. */
  lemma DecodedEncodes(image: seq<byte>, pc: nat, end: nat, labels: Labels)
    requires pc < end <= |image| && DecodeAt(image, pc, end).shown.Decoded?
    ensures var n := DecodeAt(image, pc, end);
      var i := n.shown.i;
      && (Accepted(i) <==> n.shown.canonical) && !i.arg.Ref?
      && (n.shown.canonical ==> Encode(i, labels, true) == Some(image[pc..pc + n.len]) && SizeOf(i) == n.len)
  {
    hide SingleRow, EscapeRow, RowFits, Encode, CodeBytes, Accepted, OperandBytes, Canonical, OperandCode,
         SizeOf;
    var esc := image[pc] == ESCAPE_PREFIX;
    var head := if esc then 2 else 1;
    if esc {
      EscapeFits(image[pc + 1]);
    } else {
      SingleFits(image[pc]);
    }
    var row := RowAt(image, pc);
    var i := DecodeAt(image, pc, end).shown.i;
    SliceParts(image, pc, head, row.l);
    RowAccepted(row, if esc then [ESCAPE_PREFIX, image[pc + 1]] else [image[pc]], i.arg);
    if Accepted(i) {
      EncodeIsCode(i, labels);
      PassesAgree(i, labels, true);
    }
  }

  lemma AcceptedShape(i: Ins)
    requires !i.sel.Bad?
    ensures (i.sel.AddiHl? || i.sel.AddiDe?) ==> OperandBytes(i.sel) == 1
    ensures OperandBytes(i.sel) <= 2
    ensures Accepted(i) ==> SizeOf(i) == |CodeBytes(i.sel, i.d, i.s)| + OperandBytes(i.sel)
  {
    hide Table;
  }

  // --------------------------------------------------------------- whole programs

  datatype Item = Label(name: string) | Code(i: Ins)

  /** The first pass: each label stands at the address reached so far. */
  function FirstPass(items: seq<Item>, at: nat, labels: Labels): Option<Labels>
  {
    if items == [] then Some(labels)
    else
      match items[0]
      case Label(name) =>
        if name in labels then None else FirstPass(items[1..], at, labels[name := at])
      case Code(i) =>
        if !Accepted(i) then None
        else
          match Encode(i, labels, false)
          case None => None
          case Some(b) => FirstPass(items[1..], at + |b|, labels)
  }

  /** The second pass: the same lines under the finished labels. */
  function SecondPass(items: seq<Item>, labels: Labels): Option<seq<byte>>
  {
    if items == [] then Some([])
    else
      match items[0]
      case Label(_) => SecondPass(items[1..], labels)
      case Code(i) =>
        if !Accepted(i) then None
        else
          match Encode(i, labels, true)
          case None => None
          case Some(b) =>
            match SecondPass(items[1..], labels)
            case None => None
            case Some(rest) => Some(b + rest)
  }

  function Assembled(items: seq<Item>): Option<seq<byte>>
  {
    match FirstPass(items, 0, map[])
    case None => None
    case Some(labels) =>
      match SecondPass(items, labels)
      case None => None
      case Some(out) => if |out| <= CODE_SIZE then Some(out) else None
  }

  function Extent(items: seq<Item>): nat
  {
    if items == [] then 0
    else (if items[0].Code? && Accepted(items[0].i) then SizeOf(items[0].i) else 0) + Extent(items[1..])
  }

  /** A label keeps the value it was given, and every label of the source has one: the extent
      of what stands before it. */
  lemma {:induction false} FirstPassPlaces(items: seq<Item>, at: nat, labels: Labels)
    requires FirstPass(items, at, labels).Some?
    ensures var done := FirstPass(items, at, labels).value;
      && (forall n :: n in labels ==> n in done && done[n] == labels[n])
      && forall k :: 0 <= k < |items| && items[k].Label? ==>
           items[k].name in done && done[items[k].name] == at + Extent(items[..k])
  {
    hide Encode, Accepted, SizeOf;
    if items != [] {
      var rest := items[1..];
      var next := if items[0].Label? then at else at + SizeOf(items[0].i);
      var more := if items[0].Label? then labels[items[0].name := at] else labels;
      if items[0].Code? {
        PassesAgree(items[0].i, labels, false);
      }
      FirstPassPlaces(rest, next, more);
      var done := FirstPass(items, at, labels).value;
      forall k | 0 <= k < |items| && items[k].Label?
        ensures items[k].name in done && done[items[k].name] == at + Extent(items[..k])
      {
        if k > 0 {
          assert items[k] == rest[k - 1];
          assert items[..k][1..] == rest[..k - 1];
        }
      }
    }
  }

  /** The second pass emits as many bytes as the first pass counted. */
  lemma {:induction false} SecondPassExtent(items: seq<Item>, labels: Labels)
    requires SecondPass(items, labels).Some?
    ensures |SecondPass(items, labels).value| == Extent(items)
  {
    hide Encode, Accepted, SizeOf;
    if items != [] {
      SecondPassExtent(items[1..], labels);
      if items[0].Code? {
        PassesAgree(items[0].i, labels, true);
      }
    }
  }

  lemma {:induction false} SecondPassSplits(items: seq<Item>, k: nat, labels: Labels)
    requires k <= |items| && SecondPass(items, labels).Some?
    ensures SecondPass(items[..k], labels).Some? && SecondPass(items[k..], labels).Some?
    ensures SecondPass(items, labels).value
            == SecondPass(items[..k], labels).value + SecondPass(items[k..], labels).value
  {
    hide Encode, Accepted;
    if k == 0 {
      assert items[..0] == [] && items[0..] == items;
    } else {
      SecondPassSplits(items[1..], k - 1, labels);
      assert items[..k][1..] == items[1..][..k - 1];
      assert items[k..] == items[1..][k - 1..];
    }
  }

  /** Both passes agree on every address: a label's value is the offset of the byte emitted
      next behind it. */
  lemma LabelsAreOffsets(items: seq<Item>, k: nat)
    requires Assembled(items).Some? && k < |items| && items[k].Label?
    ensures var labels := FirstPass(items, 0, map[]).value;
      && items[k].name in labels && SecondPass(items[..k], labels).Some?
      && labels[items[k].name] == |SecondPass(items[..k], labels).value|
      && SecondPass(items[..k], labels).value <= Assembled(items).value
  {
    hide FirstPass, SecondPass, Extent;
    var labels := FirstPass(items, 0, map[]).value;
    FirstPassPlaces(items, 0, map[]);
    SecondPassSplits(items, k, labels);
    SecondPassExtent(items[..k], labels);
  }

  /** The rows a source's instructions read back as. */
  function Listed(items: seq<Item>, at: nat, labels: Labels): seq<Line>
  {
    if items == [] then []
    else if items[0].Label? || !Accepted(items[0].i) then Listed(items[1..], at, labels)
    else
      var n := SizeOf(items[0].i);
      [Line(at, n, Decoded(Resolved(items[0].i, labels), true))] + Listed(items[1..], at + n, labels)
  }

  lemma {:induction false} WalksBack(items: seq<Item>, labels: Labels, image: seq<byte>, at: nat, end: nat)
    requires SecondPass(items, labels).Some? && at <= end <= |image|
    requires image[at..end] == SecondPass(items, labels).value
    ensures Walked(image, at, end) == Listed(items, at, labels)
  {
    hide Encode, Accepted, SizeOf, DecodeAt, Resolved;
    if items != [] {
      if items[0].Label? {
        WalksBack(items[1..], labels, image, at, end);
      } else {
        var i := items[0].i;
        var b := Encode(i, labels, true).value;
        PassesAgree(i, labels, true);
        NotEmpty(i);
        var rest := SecondPass(items[1..], labels).value;
        assert image[at..end][..|b|] == b && image[at..end][|b|..] == rest;
        assert image[at..at + |b|] == b && image[at + |b|..end] == rest;
        EncodedDecodes(i, labels, image, at, end);
        WalksBack(items[1..], labels, image, at + |b|, end);
      }
    }
  }

  lemma NotEmpty(i: Ins)
    requires Accepted(i)
    ensures SizeOf(i) > 0
  {
    hide Table;
  }

  /** Disassembling an assembled program, of any length, recovers its instructions in order,
      every label looked up, and marks none of them. */
  lemma DisassemblyRecovers(items: seq<Item>)
    requires Assembled(items).Some?
    ensures var image, labels := Assembled(items).value, FirstPass(items, 0, map[]).value;
      Walked(image, 0, |image|) == Listed(items, 0, labels)
  {
    hide FirstPass, SecondPass, Walked, Listed;
    var image, labels := Assembled(items).value, FirstPass(items, 0, map[]).value;
    assert image[0..|image|] == image;
    WalksBack(items, labels, image, 0, |image|);
  }

  /** Every row of a walk is an assigned, canonical instruction. */
  predicate Clean(rows: seq<Line>)
  {
    forall k :: 0 <= k < |rows| ==> rows[k].shown.Decoded? && rows[k].shown.canonical
  }

  function Source(rows: seq<Line>): seq<Item>
    requires Clean(rows)
  {
    if rows == [] then [] else [Code(rows[0].shown.i)] + Source(rows[1..])
  }

  lemma CleanTail(n: Line, rest: seq<Line>)
    requires Clean([n] + rest)
    ensures n.shown.Decoded? && n.shown.canonical && Clean(rest)
  {
    var rows := [n] + rest;
    assert rows[0] == n;
    assert forall k :: 0 <= k < |rest| ==> rest[k] == rows[k + 1];
  }

  lemma {:induction false} Reemits(image: seq<byte>, pc: nat, end: nat, labels: Labels)
    requires pc <= end <= |image| && Clean(Walked(image, pc, end))
    ensures var items := Source(Walked(image, pc, end));
      && SecondPass(items, labels) == Some(image[pc..end])
      && FirstPass(items, pc, map[]) == Some(map[])
    decreases end - pc
  {
    hide Encode, Accepted, DecodeAt, SizeOf;
    if pc < end {
      var n := DecodeAt(image, pc, end);
      var rows := Walked(image, pc, end);
      assert rows[0] == n;
      var rest := Walked(image, pc + n.len, end);
      assert rows == [n] + rest && rows[1..] == rest;
      CleanTail(n, rest);
      DecodedEncodes(image, pc, end, labels);
      DecodedEncodes(image, pc, end, map[]);
      EncodeLenient(n.shown.i, map[]);
      Reemits(image, pc + n.len, end, labels);
      var items := Source(rows);
      assert items[0] == Code(n.shown.i) && items[1..] == Source(rest);
      assert image[pc..pc + n.len] + image[pc + n.len..end] == image[pc..end];
    } else {
      assert image[pc..end] == [];
    }
  }

  /** Without a label the two passes encode alike. */
  lemma EncodeLenient(i: Ins, labels: Labels)
    requires Accepted(i) && !i.arg.Ref?
    ensures Encode(i, labels, false) == Encode(i, labels, true)
  {
    hide Table, CodeBytes, Accepted;
  }

  /** Re-assembling the disassembly of any fully assigned, canonical image reproduces it. */
  lemma ReassemblyReproduces(image: seq<byte>)
    requires |image| <= CODE_SIZE && Clean(Walked(image, 0, |image|))
    ensures Assembled(Source(Walked(image, 0, |image|))) == Some(image)
  {
    hide FirstPass, SecondPass, Walked, Source;
    Reemits(image, 0, |image|, map[]);
    assert image[0..|image|] == image;
  }

  // ------------------------------------------------------- the disassembler's loop

  /** What a count leaves of a walk. */
  function Counted(all: seq<Line>, count: Option<nat>): seq<Line>
  {
    if count.Some? && count.value <= |all| then all[..count.value] else all
  }

  lemma CountReached(rows: seq<Line>, rest: seq<Line>, count: Option<nat>)
    requires count.Some? ==> |rows| <= count.value
    requires rest == [] || (count.Some? && |rows| == count.value)
    ensures Counted(rows + rest, count) == rows
  {
  }

  lemma RowAppended(rows: seq<Line>, n: Line, rest: seq<Line>)
    ensures rows + ([n] + rest) == rows + [n] + rest
  {
  }

  /** The disassembler's loop, over `count` rows at most when a count is given. */
  method Walk(image: seq<byte>, start: nat, count: Option<nat>, end: nat) returns (rows: seq<Line>)
    requires end <= |image|
    ensures rows == Counted(Walked(image, start, end), count)
    ensures rows <= Walked(image, start, end) && (count.Some? ==> |rows| <= count.value)
    ensures rows == Walked(image, start, end) || (count.Some? && |rows| == count.value)
  {
    hide DecodeAt, Counted;
    var pc := start;
    rows := [];
    while pc < end && (count.None? || |rows| < count.value)
      invariant count.Some? ==> |rows| <= count.value
      invariant Walked(image, start, end) == rows + Walked(image, pc, end)
      decreases end - pc
    {
      var n := DecodeAt(image, pc, end);
      if n.shown.Truncated? {
        CountReached(rows + [n], [], count);
        assert rows + [n] + [] == rows + [n];
        rows := rows + [n];
        return;
      }
      RowAppended(rows, n, Walked(image, pc + n.len, end));
      rows := rows + [n];
      pc := pc + n.len;
    }
    CountReached(rows, Walked(image, pc, end), count);
  }
}
