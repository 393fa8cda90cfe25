/** The long addition as the repository writes it: its source assembles to the bytes the machine
    runs, and the driver that lays two integers out and runs them gets their sum back. */
module Programs {
  import opened Bits
  import opened Isa
  import Asm = Assembler
  import R = Reference
  import M = Machine
  import L = LongAdd

  // ------------------------------------------------------------------ the source

  function Plain(x: Sel): Asm.Item { Asm.Code(Asm.Ins(x, 0, 0, Asm.NoOperand)) }

  function OnReg(x: Sel, d: reg): Asm.Item { Asm.Code(Asm.Ins(x, d, d, Asm.NoOperand)) }

  function OnPair(x: Sel, d: reg, s: reg): Asm.Item { Asm.Code(Asm.Ins(x, d, s, Asm.NoOperand)) }

  function WithByte(x: Sel, d: reg, b: byte): Asm.Item { Asm.Code(Asm.Ins(x, d, d, Asm.Byte(b))) }

  function WithWord(x: Sel, w: word): Asm.Item { Asm.Code(Asm.Ins(x, 0, 0, Asm.Word16(w))) }

  function Back(d: reg, name: string): Asm.Item { Asm.Code(Asm.Ins(Djnz, d, d, Asm.Ref(name))) }

  const SOURCE: seq<Asm.Item> := [
    WithWord(LdiHl, 0), OnReg(MovRHl, 2), OnPair(Mov, 3, 2), WithWord(LdiHl, 1), WithWord(LdiDe, 1),
    WithByte(AddiDe, 0, 3), Plain(Clc),
    Asm.Label("loop"),
    OnReg(MovRHl, 0), OnReg(MovRDe, 1), OnPair(Adc, 0, 1), OnReg(MovDeR, 0), Plain(IncHl), Plain(IncDe),
    Back(2, "loop"),
    WithByte(Ldi, 0, 0), OnPair(Adc, 0, 0), OnReg(MovDeR, 0), WithWord(LdiDe, 1), WithByte(AddiDe, 0, 3),
    WithByte(Addi, 3, 1),
    Asm.Label("od"),
    Plain(OutDe), Back(3, "od"), Plain(Halt)]

  const LINES := 25

  /** Where each line of the source stands. */
  const AT: seq<nat> := [
    0x00, 0x03, 0x04, 0x05, 0x08, 0x0B, 0x0D, 0x0E, 0x0E, 0x0F, 0x10, 0x11, 0x12, 0x13, 0x14,
    0x17, 0x19, 0x1A, 0x1B, 0x1E, 0x20, 0x22, 0x22, 0x23, 0x26, 0x27]

  /** The labels the first pass has met in front of line `k`. */
  function LabelsAt(k: nat): Asm.Labels
  {
    if k <= 7 then map[] else if k <= 21 then map["loop" := 0x0E] else map["loop" := 0x0E, "od" := 0x22]
  }

  /** The operand bytes behind the code byte at `at`. */
  predicate OperandStands(arg: Asm.Operand, at: nat, next: nat)
    requires at < next <= |L.PROGRAM|
  {
    match arg
    case NoOperand => next == at + 1
    case Byte(b) => next == at + 2 && L.PROGRAM[at + 1] == b
    case Word16(w) => next == at + 3 && L.PROGRAM[at + 1] == w % 256 && L.PROGRAM[at + 2] == w / 256
    case Ref(name) =>
      && next == at + 3 && L.PROGRAM[at + 1] == (if name == "loop" then 0x0E else 0x22) && L.PROGRAM[at + 2] == 0
      && (name == "loop" || name == "od")
  }

  /** Line `k` is accepted, its code byte stands at its address and its operand behind it. */
  predicate Stands(k: nat)
    requires k < |SOURCE| && |AT| == |SOURCE| + 1
  {
    match SOURCE[k]
    case Label(_) => AT[k + 1] == AT[k]
    case Code(i) =>
      && Asm.Accepted(i) && AT[k] < AT[k + 1] <= |L.PROGRAM|
      && Asm.CodeBytes(i.sel, i.d, i.s) == [L.PROGRAM[AT[k]]]
      && OperandStands(i.arg, AT[k], AT[k + 1])
  }

  lemma Lengths()
    ensures |SOURCE| == LINES && |AT| == LINES + 1 && |L.PROGRAM| == 0x27 && AT[LINES] == 0x27
  {
  }

  lemma Stands0(k: nat)
    requires 0 <= k < 2
    ensures |SOURCE| == LINES && |AT| == LINES + 1 && Stands(k)
  {
  }

  lemma Stands2(k: nat)
    requires 2 <= k < 3
    ensures |SOURCE| == LINES && |AT| == LINES + 1 && Stands(k)
  {
  }

  lemma Stands3(k: nat)
    requires 3 <= k < 4
    ensures |SOURCE| == LINES && |AT| == LINES + 1 && Stands(k)
  {
  }

  lemma Stands4(k: nat)
    requires 4 <= k < 5
    ensures |SOURCE| == LINES && |AT| == LINES + 1 && Stands(k)
  {
  }

  lemma Stands5(k: nat)
    requires 5 <= k < 7
    ensures |SOURCE| == LINES && |AT| == LINES + 1 && Stands(k)
  {
  }

  lemma Stands7(k: nat)
    requires 7 <= k < 9
    ensures |SOURCE| == LINES && |AT| == LINES + 1 && Stands(k)
  {
  }

  lemma Stands9(k: nat)
    requires 9 <= k < 10
    ensures |SOURCE| == LINES && |AT| == LINES + 1 && Stands(k)
  {
  }

  lemma Stands10(k: nat)
    requires 10 <= k < 12
    ensures |SOURCE| == LINES && |AT| == LINES + 1 && Stands(k)
  {
  }

  lemma Stands12(k: nat)
    requires 12 <= k < 14
    ensures |SOURCE| == LINES && |AT| == LINES + 1 && Stands(k)
  {
  }

  lemma Stands14(k: nat)
    requires 14 <= k < 15
    ensures |SOURCE| == LINES && |AT| == LINES + 1 && Stands(k)
  {
  }

  lemma Stands15(k: nat)
    requires 15 <= k < 17
    ensures |SOURCE| == LINES && |AT| == LINES + 1 && Stands(k)
  {
  }

  lemma Stands17(k: nat)
    requires 17 <= k < 19
    ensures |SOURCE| == LINES && |AT| == LINES + 1 && Stands(k)
  {
  }

  lemma Stands19(k: nat)
    requires 19 <= k < 21
    ensures |SOURCE| == LINES && |AT| == LINES + 1 && Stands(k)
  {
  }

  lemma Stands21(k: nat)
    requires 21 <= k < 25
    ensures |SOURCE| == LINES && |AT| == LINES + 1 && Stands(k)
  {
  }

  lemma EveryLineStands(k: nat)
    requires k < LINES
    ensures |SOURCE| == LINES && |AT| == LINES + 1 && Stands(k)
  {
    hide Stands, SOURCE, AT, L.PROGRAM;
    if k < 2 {
      Stands0(k);
    } else if k < 3 {
      Stands2(k);
    } else if k < 4 {
      Stands3(k);
    } else if k < 5 {
      Stands4(k);
    } else if k < 7 {
      Stands5(k);
    } else if k < 9 {
      Stands7(k);
    } else if k < 10 {
      Stands9(k);
    } else if k < 12 {
      Stands10(k);
    } else if k < 14 {
      Stands12(k);
    } else if k < 15 {
      Stands14(k);
    } else if k < 17 {
      Stands15(k);
    } else if k < 19 {
      Stands17(k);
    } else if k < 21 {
      Stands19(k);
    } else {
      Stands21(k);
    }
  }

  /** A line that stands emits the program's bytes, in either pass. */
  lemma LineEmits(k: nat, labels: Asm.Labels, strict: bool)
    requires k < LINES && |SOURCE| == LINES && |AT| == LINES + 1 && SOURCE[k].Code? && Stands(k)
    requires SOURCE[k].i.arg.Ref? ==>
      var name := SOURCE[k].i.arg.name;
      name in labels && labels[name] == (if name == "loop" then 0x0E else 0x22)
    ensures Asm.Accepted(SOURCE[k].i) && AT[k] < AT[k + 1] <= |L.PROGRAM|
    ensures Asm.Encode(SOURCE[k].i, labels, strict) == Some(L.PROGRAM[AT[k]..AT[k + 1]])
  {
    hide SOURCE, AT, L.PROGRAM, Asm.CodeBytes, Asm.Table, Asm.OperandBytes;
    var i, at := SOURCE[k].i, AT[k];
    var bytes := L.PROGRAM[at..AT[k + 1]];
    assert Asm.CodeBytes(i.sel, i.d, i.s) == [L.PROGRAM[at]];
    match i.arg
    case NoOperand => assert bytes == [L.PROGRAM[at]];
    case Byte(b) => assert bytes == [L.PROGRAM[at]] + [b];
    case _ => assert bytes == [L.PROGRAM[at]] + [L.PROGRAM[at + 1], L.PROGRAM[at + 2]];
  }

  /** The labels a line needs have been met in front of it. */
  lemma LabelsMet(k: nat)
    requires k < LINES && |SOURCE| == LINES
    ensures SOURCE[k].Code? && SOURCE[k].i.arg.Ref? ==>
      var name := SOURCE[k].i.arg.name;
      forall labels :: (labels == LabelsAt(k) || labels == LabelsAt(LINES)) ==>
        name in labels && labels[name] == (if name == "loop" then 0x0E else 0x22)
    ensures SOURCE[k].Label? ==>
      SOURCE[k].name !in LabelsAt(k) && LabelsAt(k + 1) == LabelsAt(k)[SOURCE[k].name := AT[k]]
    ensures SOURCE[k].Code? ==> LabelsAt(k + 1) == LabelsAt(k)
  {
  }

  lemma {:induction false} FirstFrom(k: nat)
    requires k <= LINES && |SOURCE| == LINES && |AT| == LINES + 1
    ensures Asm.FirstPass(SOURCE[k..], AT[k], LabelsAt(k)) == Some(LabelsAt(LINES))
    decreases LINES - k
  {
    hide SOURCE, AT, L.PROGRAM, LabelsAt, Stands, Asm.Accepted, Asm.Encode;
    if k < LINES {
      assert SOURCE[k..][0] == SOURCE[k] && SOURCE[k..][1..] == SOURCE[k + 1..];
      EveryLineStands(k);
      LabelsMet(k);
      FirstFrom(k + 1);
      if SOURCE[k].Code? {
        LineEmits(k, LabelsAt(k), false);
      } else {
        LabelStays(k);
      }
    }
  }

  lemma LabelStays(k: nat)
    requires k < LINES && |SOURCE| == LINES && |AT| == LINES + 1 && SOURCE[k].Label? && Stands(k)
    ensures AT[k + 1] == AT[k]
  {
  }

  lemma {:induction false} SecondFrom(k: nat)
    requires k <= LINES && |SOURCE| == LINES && |AT| == LINES + 1 && AT[k] <= |L.PROGRAM| && AT[LINES] == |L.PROGRAM|
    ensures Asm.SecondPass(SOURCE[k..], LabelsAt(LINES)) == Some(L.PROGRAM[AT[k]..])
    decreases LINES - k
  {
    hide SOURCE, AT, L.PROGRAM, LabelsAt, Stands, Asm.Accepted, Asm.Encode;
    if k < LINES {
      assert SOURCE[k..][0] == SOURCE[k] && SOURCE[k..][1..] == SOURCE[k + 1..];
      EveryLineStands(k);
      LabelsMet(k);
      if SOURCE[k].Code? {
        LineEmits(k, LabelsAt(LINES), true);
        SecondFrom(k + 1);
        assert L.PROGRAM[AT[k]..] == L.PROGRAM[AT[k]..AT[k + 1]] + L.PROGRAM[AT[k + 1]..];
      } else {
        LabelStays(k);
        SecondFrom(k + 1);
      }
    }
  }

  /** The source assembles to the program, label by label. */
  lemma SourceAssembles()
    ensures Asm.Assembled(SOURCE) == Some(L.PROGRAM)
  {
    hide SOURCE, AT, L.PROGRAM, LabelsAt, Asm.FirstPass, Asm.SecondPass;
    Lengths();
    Beginning();
    FirstFrom(0);
    SecondFrom(0);
    assert SOURCE[0..] == SOURCE && L.PROGRAM[0..] == L.PROGRAM;
  }

  lemma Beginning()
    ensures |AT| > 0 && AT[0] == 0 && LabelsAt(0) == map[]
  {
  }

  // ------------------------------------------------------------------- the driver

  /** `(x.bit_length() + 7) // 8`. */
  function ByteLength(x: nat): nat { if x == 0 then 0 else 1 + ByteLength(x / 256) }

  lemma {:induction false} ByteLengthHolds(x: nat, n: nat)
    requires ByteLength(x) <= n
    ensures x < L.Pow256(n)
  {
    if x > 0 {
      ByteLengthHolds(x / 256, n - 1);
    }
  }

  lemma ShiftTwice(x: nat, p: nat)
    requires p >= 1
    ensures x / 256 / p == x / (256 * p)
  {
    var h := x / 256;
    DivisionIdentity(h, p);
    var q, r := h / p, h % p;
    assert x == q * (256 * p) + (256 * r + x % 256);
    RemainderUnique(x, 256 * p, q, 256 * r + x % 256);
  }

  /** Byte `i` of a number is the number shifted down by `i` bytes. */
  lemma {:induction false} DigitAt(x: nat, n: nat, i: nat)
    requires i < n
    ensures L.Digits(x, n)[i] == x / L.Pow256(i) % 256
  {
    if i > 0 {
      DigitAt(x / 256, n - 1, i - 1);
      ShiftTwice(x, L.Pow256(i - 1));
      assert L.Digits(x, n)[i] == L.Digits(x / 256, n - 1)[i - 1];
    }
  }

  /** The page: the length, then the two numbers, low byte first. */
  method LayOut(a: nat, b: nat, n: nat) returns (data: array<byte>)
    requires 1 <= n <= 255
    ensures fresh(data) && data.Length == 1 + 3 * n && Legal(L.Block())
    ensures M.BootPage(L.Block(), data[..]) == L.Page0(L.Digits(a, n), L.Digits(b, n))
  {
    hide L.Digits, L.Pow256, M.BootPage, Legal, L.Page0;
    data := new byte[1 + 3 * n](_ => 0);
    data[0] := n;
    for i := 0 to n
      invariant data[0] == n
      invariant forall k :: 0 <= k < i ==>
        data[1 + k] == L.Digits(a, n)[k] && data[1 + n + k] == L.Digits(b, n)[k]
      invariant forall k :: 1 + 2 * n <= k < data.Length ==> data[k] == 0
    {
      DigitAt(a, n, i);
      DigitAt(b, n, i);
      data[1 + i] := a / L.Pow256(i) % 256;
      data[1 + n + i] := b / L.Pow256(i) % 256;
    }
    L.BlockIsLegal();
    LaidOut(data[..], L.Digits(a, n), L.Digits(b, n));
  }

  /** Boots the program over an initial page and runs it. */
  method RunProgram(init: seq<byte>, ghost page: R.Page) returns (sim: M.NCP8)
    requires Legal(L.Block()) && |init| <= DATA_SIZE && M.BootPage(L.Block(), init) == page
    ensures var t := R.RunToStop(L.Alone(), R.World(M.BootCore(L.Block(), L.PROGRAM), [page]));
      sim.out == t.m.out && sim.status == t.m.status
  {
    hide M.BootPage, Legal, L.PROGRAM, M.BootCore, R.RunToStop, R.Tick;
    Lengths();
    sim := new M.NCP8(L.Block(), L.PROGRAM, init, []);
    var o, pg := sim.Run([page]);
  }

  /** Lays the two numbers out, runs the machine and reads the sum off its output. */
  method RunLongAdd(a: nat, b: nat) returns (got: nat, sim: M.NCP8)
    requires ByteLength(a) <= 255 && ByteLength(b) <= 255
    ensures got == a + b && sim.status == R.Halted
  {
    hide L.Digits, L.Pow256, L.Value, M.BootPage, Legal, L.Page0, L.PROGRAM, M.BootCore, R.RunToStop;
    var n := if ByteLength(a) > ByteLength(b) then ByteLength(a) else ByteLength(b);
    n := if n > 1 then n else 1;
    ByteLengthHolds(a, n);
    ByteLengthHolds(b, n);
    var data := LayOut(a, b, n);
    sim := RunProgram(data[..], L.Page0(L.Digits(a, n), L.Digits(b, n)));
    L.LongAddOfIntegers(a, b, n);
    got := L.Value(sim.out);
  }

  lemma LaidOut(init: seq<byte>, x: seq<byte>, y: seq<byte>)
    requires Legal(L.Block()) && L.Operands(x, y) && |init| == 1 + 3 * |x| && init[0] == |x|
    requires forall k :: 0 <= k < |x| ==> init[1 + k] == x[k] && init[1 + |x| + k] == y[k]
    requires forall k :: 1 + 2 * |x| <= k < |init| ==> init[k] == 0
    ensures M.BootPage(L.Block(), init) == L.Page0(x, y)
  {
  }
}
