/** The kernel's tick: it loads the state row, computes shadow values and pending stores down
    an if-chain over the effective opcode, settles the cause, and only then commits through
    masked addresses. Machines are rows of one batch, cut into groups of `NB` rows. */
module Kernel {
  import opened Bits
  import opened Isa
  import opened Decode
  import R = Reference
  import T = Tensor

  /** The state row, loaded. */
  datatype Locals = Locals(
    r: R.Regs, hl: word, de: word, pc: word, sp: address, c: bit, z: bit, s: bit, v: bit,
    ipo: nat, ol: nat, mb: word, splim: nat, td: nat, sc: nat, sf: word)

  function LocalsOf(m: R.Core, splim: nat): Locals
  {
    Locals(m.r, m.hl, m.de, m.pc, m.sp, m.c, m.z, m.s, m.v, m.ipos, |m.out|, m.mb, splim, m.td,
           m.stcCount, m.stcFirst)
  }

  // The configuration row: sixteen vectors, the window, the vector page, the regions.

  const CFG_WINLO := 16
  const CFG_WINHI := 17
  const CFG_VTAB := 18
  const CFG_HASVTAB := 19
  const CFG_LEN := 28

  function CfgRow(cf: Config): (row: seq<int>)
    requires Legal(cf)
    ensures |row| == CFG_LEN
  {
    var p := T.PaddedRegions(cf.regions);
    cf.vec + [cf.winlo, cf.winhi, if cf.vtab.Some? then cf.vtab.value else 0,
              if cf.vtab.Some? then 1 else 0]
    + [p[0].lo, p[0].hi, p[1].lo, p[1].hi, p[2].lo, p[2].hi, p[3].lo, p[3].hi]
  }

  function CfgPairs(row: seq<int>): (p: seq<Region>)
    requires |row| == CFG_LEN
    ensures |p| == REGIONS_MAX
  {
    [Region(row[20], row[21]), Region(row[22], row[23]), Region(row[24], row[25]),
     Region(row[26], row[27])]
  }

  lemma CfgRowPairs(cf: Config)
    requires Legal(cf)
    ensures CfgPairs(CfgRow(cf)) == T.PaddedRegions(cf.regions)
  {
  }

  /** What a tick of row `pid` was handed: its own row of every buffer, and the whole DATA,
      configuration and status buffers its pointers reach into. */
  datatype Call = Call(
    code: R.Image, data: seq<byte>, inputs: seq<byte>, codelen: nat, oc: nat,
    cfg: seq<seq<int>>, nb: nat, tdlim: nat, bstat: seq<nat>, pid: nat, held: nat)

  function Own(t: Call): (own: nat)
    requires t.nb > 0
    ensures own < t.nb && own <= t.pid
  {
    GroupOf(t.pid, t.nb);
    t.pid % t.nb
  }

  function Base(t: Call): nat
    requires t.nb > 0
  {
    t.pid - Own(t)
  }

  lemma GroupOf(pid: nat, nb: nat)
    requires nb > 0
    ensures 0 <= pid % nb < nb && pid % nb <= pid
    ensures pid / nb * nb == pid - pid % nb
  {
    DivisionIdentity(pid, nb);
    if pid < nb {
      RemainderUnique(pid, nb, 0, pid);
    }
  }

  /** `tl.load(DATA + BDELTA + a)`, `DATA` pointing at the row's own page. */
  function Load(t: Call, bdelta: int, a: int): byte
    requires 0 <= t.pid * DATA_SIZE + bdelta + a < |t.data|
  {
    t.data[t.pid * DATA_SIZE + bdelta + a]
  }

  /** Shadow values and pending stores. The signals are booleans; `errc` is 0 while no cause
      has been named. */
  datatype Shadow = Shadow(
    r: seq<int>, hl: int, de: int, mb: int, pc: int, sp: int, cWr: bool, cNew: int, z: int, s: int,
    v: int, td: int, sc: int, sf: int, ipo: int, halt: bool, oval: int, oen: bool,
    a1: int, v1: int, e1: bool, a2: int, v2: int, e2: bool, a3: int, v3: int, e3: bool,
    a4: int, v4: int, e4: bool, a5: int, v5: int, e5: bool, bdelta: int, errc: nat, pcw: bool)

  function Fresh(q: Locals, pc: int): Shadow
  {
    Shadow(q.r, q.hl, q.de, q.mb, pc, q.sp, false, 0, q.z, q.s, q.v, q.td, q.sc, q.sf, q.ipo,
           false, 0, false, 0, 0, false, 0, 0, false, 0, 0, false, 0, 0, false, 0, 0, false, 0,
           0, false)
  }

  /** The first cause named stays. */
  function NameCause(errc: nat, code: nat): nat { if errc == 0 then code else errc }

  function Wr(r: seq<int>, d: nat, v: int): seq<int>
    requires d < |r|
  {
    r[d := v % 256]
  }

  predicate Pending(k: Shadow) { k.e1 || k.e2 || k.e4 || k.e5 }

  /** One of the pending DATA stores lands in a protected region of the page's owner. */
  predicate Refused(k: Shadow, t: Call)
  {
    var row := t.pid + k.bdelta / DATA_SIZE;
    0 <= row < |t.cfg| && |t.cfg[row]| == CFG_LEN &&
    var p := CfgPairs(t.cfg[row]);
    || (k.e1 && T.Hit(p, k.a1)) || (k.e2 && T.Hit(p, k.a2))
    || (k.e4 && T.Hit(p, k.a4)) || (k.e5 && T.Hit(p, k.a5))
  }

  /** The cause after the checks that follow the dispatch: capacity, target, regions. */
  function Late(k: Shadow, q: Locals, t: Call): nat
  {
    var c1 := if k.oen && q.ol >= t.oc then NameCause(k.errc, Code(OutCap)) else k.errc;
    var c2 := if c1 == 0 && k.pcw && k.pc >= t.codelen then Code(PcIllegal) else c1;
    if c2 == 0 && Pending(k) && Refused(k, t) then Code(RegionViol) else c2
  }

  // ------------------------------------------------- agreement with the reference

  function CarryAfter(k: Shadow, q: Locals): int { if k.cWr then k.cNew % 2 else q.c % 2 }

  predicate LandsScalars(k: Shadow, q: Locals, m: R.Core, m': R.Core)
  {
    && m'.r == k.r && m'.hl == k.hl && m'.de == k.de && m'.mb == k.mb && m'.pc == k.pc
    && m'.sp == k.sp && m'.c == CarryAfter(k, q) && m'.z == k.z && m'.s == k.s && m'.v == k.v
    && m'.td == k.td && m'.stcCount == k.sc && m'.stcFirst == k.sf && m'.ipos == k.ipo
    && m'.status == (if k.halt then R.Halted else m.status)
  }

  predicate LandsStreams(k: Shadow, m: R.Core, m': R.Core)
  {
    && (k.oen ==> 0 <= k.oval < 256)
    && m'.out == (if k.oen then m.out + [Low8(k.oval)] else m.out)
    && (k.e3 ==> 0 <= k.a3 < CODE_SIZE && 0 <= k.v3 < 256)
    && m'.code == (if k.e3 && 0 <= k.a3 < CODE_SIZE then m.code[k.a3 := Low8(k.v3)] else m.code)
  }

  function Stored(pg: seq<R.Page>, row: int, a: int, v: int, en: bool): seq<R.Page>
  {
    if en && 0 <= row < |pg| && 0 <= a < DATA_SIZE then R.Put(pg, row, a, Low8(v)) else pg
  }

  predicate InPage(en: bool, a: int, v: int) { en ==> 0 <= a < DATA_SIZE && 0 <= v < 256 }

  /** The pages after the pending stores, every one of which is inside its page: the masks
      change no address. */
  predicate LandsPages(k: Shadow, own: nat, pg: seq<R.Page>, pg': seq<R.Page>)
  {
    var row := own + k.bdelta / DATA_SIZE;
    && k.bdelta % DATA_SIZE == 0 && 0 <= row < |pg|
    && InPage(k.e1, k.a1, k.v1) && InPage(k.e2, k.a2, k.v2)
    && InPage(k.e4, k.a4, k.v4) && InPage(k.e5, k.a5, k.v5)
    && pg' == Stored(Stored(Stored(Stored(pg, row, k.a1, k.v1, k.e1), row, k.a2, k.v2, k.e2),
                            own, k.a4, k.v4, k.e4), own, k.a5, k.v5, k.e5)
  }

  /** The shadow settles the way the reference decides: the same cause, or none and the same
      state and pages. */
  predicate Settles(k: Shadow, q: Locals, t: Call, own: nat, m: R.Core, pg: seq<R.Page>, o: R.Outcome)
  {
    match o
    case Fault(c) => Late(k, q, t) == Code(c)
    case Next(m', pg') =>
      Late(k, q, t) == 0 && LandsScalars(k, q, m, m') && LandsStreams(k, m, m') && LandsPages(k, own, pg, pg')
  }

  /** The row holds the machine `m` under `e`, besides the memory it can reach. */
  predicate Loaded(q: Locals, t: Call, e: R.Env, m: R.Core, pg: seq<R.Page>)
  {
    && Legal(e.cf) && q == LocalsOf(m, e.cf.splim)
    && t.code == m.code && t.codelen == e.cf.codelen && t.oc == e.cf.outcap
    && t.tdlim == e.cf.tdlim && t.nb == e.cf.nbanks && t.inputs == e.inputs
    && Own(t) == e.bank.own < |pg| == t.held && t.pid < |t.cfg| && t.cfg[t.pid] == CfgRow(e.cf)
  }

  /** The group's pages are rows `Base .. Base + HELD` of the flat buffer. */
  ghost predicate HoldsPages(t: Call, pg: seq<R.Page>)
    requires t.nb > 0 && |pg| == t.held
  {
    && (Base(t) + t.held) * DATA_SIZE <= |t.data|
    && forall p, a :: 0 <= p < |pg| && 0 <= a < DATA_SIZE ==>
         t.data[(Base(t) + p) * DATA_SIZE + a] == pg[p][a]
  }

  /** What the decode found: the selector, its operands and the address behind it. */
  predicate Decoded(q: Locals, t: Call, dec: Dec, head: nat, x: Sel, a: R.Args, fall: word)
  {
    && fall == q.pc + dec.len <= t.codelen <= CODE_SIZE && a.s0 == dec.d && a.s1 == dec.s
    && head <= dec.len
    && (dec.len >= head + 1 ==> a.i0 == t.code[q.pc + head])
    && (dec.len >= head + 2 ==> a.i1 == t.code[q.pc + head + 1])
  }

  /** The machine a tick is compared with, and what its fetch decoded. */
  datatype Scene = Scene(e: R.Env, m: R.Core, pg: seq<R.Page>, x: Sel, a: R.Args, fall: word)

  function Here(g: Scene): R.Core { g.m.(pc := g.fall) }

  ghost predicate Ready(q: Locals, t: Call, dec: Dec, head: nat, g: Scene)
  {
    && R.Fits(g.e, g.pg) && Loaded(q, t, g.e, g.m, g.pg) && HoldsPages(t, g.pg)
    && Decoded(q, t, dec, head, g.x, g.a, g.fall)
  }

  ghost predicate Agrees(k: Shadow, q: Locals, t: Call, g: Scene, o: R.Outcome)
  {
    Settles(k, q, t, g.e.bank.own, g.m, g.pg, o)
  }

  /** A load through the row's own pointer reads the row's own page. */
  lemma OwnPage(t: Call, pg: seq<R.Page>, a: nat)
    requires t.nb > 0 && Own(t) < |pg| == t.held && HoldsPages(t, pg) && a < DATA_SIZE
    ensures t.pid * DATA_SIZE + a < |t.data| && Load(t, 0, a) == pg[Own(t)][a]
  {
    assert Base(t) + Own(t) == t.pid;
  }

  // ------------------------------------------------------- the single-byte space

  lemma LowRange(op: byte)
    requires op < 0x20
    ensures op <= 0x05 ==>
      SingleRow(op).sel == if op == 0 then Halt else if op == 1 then Nop else if op == 2 then IncHl
                           else if op == 3 then DecHl else if op == 4 then IncDe else Clc
    ensures op == 0x09 ==> SingleRow(op).sel == Jmp
    ensures op == 0x0A ==> SingleRow(op).sel == Jz
    ensures op == 0x0B ==> SingleRow(op).sel == Jnz
    ensures op == 0x0C ==> SingleRow(op).sel == Jc
    ensures op == 0x0D ==> SingleRow(op).sel == Jnc
    ensures op == 0x0E ==> SingleRow(op).sel == Sel.Call
    ensures op == 0x11 ==> SingleRow(op).sel == AddiHl
    ensures op == 0x12 ==> SingleRow(op).sel == AddiDe
  {
  }


  /** HALT, NOP, INC HL, DEC HL, INC DE, CLC. */
  method CountBranch(q: Locals, t: Call, dec: Dec, ghost g: Scene) returns (k: Shadow)
    requires Ready(q, t, dec, 1, g)
    requires dec.eop <= 0x05
    requires g.x == SingleRow(dec.eop).sel
    ensures Agrees(k, q, t, g, R.ExecPointer(g.x, g.a, Here(g), g.pg))
  {
    hide Own, HoldsPages, SingleRow, CfgRow, Legal;
    LowRange(dec.eop);
    k := Fresh(q, q.pc + dec.len);
    if dec.eop == 0x00 {
      k := k.(halt := true);
    } else if dec.eop == 0x02 {
      k := k.(hl := (q.hl + 1) % 65536);
    } else if dec.eop == 0x03 {
      k := k.(hl := (q.hl - 1) % 65536);
    } else if dec.eop == 0x04 {
      k := k.(de := (q.de + 1) % 65536);
    } else if dec.eop == 0x05 {
      k := k.(cWr := true, cNew := 0);
    }
  }

  /** OUTM, OUTDE; the capacity is checked after the dispatch. */
  method EmitBranch(q: Locals, t: Call, dec: Dec, ghost g: Scene) returns (k: Shadow)
    requires Ready(q, t, dec, 1, g)
    requires 0x06 <= dec.eop <= 0x07
    requires g.x == SingleRow(dec.eop).sel
    ensures Agrees(k, q, t, g, R.ExecStream(g.x, g.e, g.a, Here(g), g.pg))
  {
    hide Own, HoldsPages, Legal, CfgRow;
    k := Fresh(q, q.pc + dec.len);
    if dec.eop == 0x06 {
      if q.hl >= DATA_SIZE {
        k := k.(errc := NameCause(k.errc, Code(DataOob)));
      } else {
        OwnPage(t, g.pg, q.hl);
        k := k.(oval := Load(t, 0, q.hl), oen := true, hl := (q.hl + 1) % 65536);
      }
    } else {
      if q.de >= DATA_SIZE {
        k := k.(errc := NameCause(k.errc, Code(DataOob)));
      } else {
        OwnPage(t, g.pg, q.de);
        k := k.(oval := Load(t, 0, q.de), oen := true, de := (q.de + 1) % 65536);
      }
    }
  }

  /** RET. */
  method ReturnBranch(q: Locals, t: Call, dec: Dec, ghost g: Scene) returns (k: Shadow)
    requires Ready(q, t, dec, 1, g)
    requires dec.eop == 0x08
    requires g.x == SingleRow(dec.eop).sel
    ensures Agrees(k, q, t, g, R.ExecStack(g.x, g.e, g.a, Here(g), g.pg))
  {
    hide Own, HoldsPages, Legal, CfgRow;
    k := Fresh(q, q.pc + dec.len);
    if q.sp + 1 >= DATA_SIZE {
      k := k.(errc := NameCause(k.errc, Code(StackUnderflow)));
    } else {
      OwnPage(t, g.pg, q.sp);
      OwnPage(t, g.pg, q.sp + 1);
      k := k.(pc := 256 * Load(t, 0, q.sp) + Load(t, 0, q.sp + 1), sp := q.sp + 2, pcw := true);
    }
  }

  /** JMP and the absolute conditional jumps; the target is checked after the dispatch. */
  method JumpBranch(q: Locals, t: Call, dec: Dec, ghost g: Scene) returns (k: Shadow)
    requires Ready(q, t, dec, 1, g)
    requires 0x09 <= dec.eop <= 0x0D && dec.len == 3
    requires g.x == SingleRow(dec.eop).sel
    ensures Agrees(k, q, t, g, R.ExecBranch(g.x, g.e.cf, g.a, Here(g), g.pg))
  {
    hide SingleRow, Legal, CfgRow, Own, HoldsPages;
    LowRange(dec.eop);
    k := Fresh(q, q.pc + dec.len);
    var to := Word(t.code[q.pc + 1], t.code[q.pc + 2]);
    var taken := if dec.eop == 0x09 then true else if dec.eop == 0x0A then q.z == 1
                 else if dec.eop == 0x0B then q.z == 0 else if dec.eop == 0x0C then q.c == 1
                 else q.c == 0;
    if taken {
      k := k.(pc := to, pcw := true);
    }
  }

  /** LDI HL, LDI DE. */
  method LoadWordBranch(q: Locals, t: Call, dec: Dec, ghost g: Scene) returns (k: Shadow)
    requires Ready(q, t, dec, 1, g)
    requires 0x0F <= dec.eop <= 0x10 && dec.len == 3
    requires g.x == SingleRow(dec.eop).sel
    ensures Agrees(k, q, t, g, R.ExecPointer(g.x, g.a, Here(g), g.pg))
  {
    hide Own, HoldsPages, Legal, CfgRow;
    k := Fresh(q, q.pc + dec.len);
    var w := Word(t.code[q.pc + 1], t.code[q.pc + 2]);
    if dec.eop == 0x0F {
      k := k.(hl := w);
    } else {
      k := k.(de := w);
    }
  }

  /** ADDI HL, ADDI DE: the pointer moves by a register. */
  method IndexBranch(q: Locals, t: Call, dec: Dec, ghost g: Scene) returns (k: Shadow)
    requires Ready(q, t, dec, 1, g)
    requires 0x11 <= dec.eop <= 0x12 && dec.len == 2
    requires g.x == SingleRow(dec.eop).sel
    ensures Agrees(k, q, t, g, R.ExecPointer(g.x, g.a, Here(g), g.pg))
  {
    hide SingleRow, Legal, CfgRow, Own, HoldsPages;
    LowRange(dec.eop);
    k := Fresh(q, q.pc + dec.len);
    var rs := q.r[t.code[q.pc + 1] % 4];
    if dec.eop == 0x11 {
      k := k.(hl := (q.hl + rs) % 65536);
    } else {
      k := k.(de := (q.de + rs) % 65536);
    }
  }

  /** JPHL. */
  method JumpHlBranch(q: Locals, t: Call, dec: Dec, ghost g: Scene) returns (k: Shadow)
    requires Ready(q, t, dec, 1, g)
    requires dec.eop == 0x13
    requires g.x == SingleRow(dec.eop).sel
    ensures Agrees(k, q, t, g, R.ExecBranch(g.x, g.e.cf, g.a, Here(g), g.pg))
  {
    hide Own, HoldsPages, Legal, CfgRow;
    k := Fresh(q, q.pc + dec.len);
    k := k.(pc := q.hl % 65536, pcw := true);
  }

  /** What an arithmetic result amounts to as an outcome: one register, four flags. */
  predicate IsResult(k: Shadow, q: Locals, d: reg, o: R.AluOut)
  {
    && k.r == (if o.en then q.r[d := o.w] else q.r)
    && CarryAfter(k, q) == o.c && k.z == o.z && k.s == o.s && k.v == o.v
    && k == Fresh(q, k.pc).(r := k.r, cWr := k.cWr, cNew := k.cNew, z := k.z, s := k.s, v := k.v)
  }

  lemma ResultSettles(k: Shadow, q: Locals, t: Call, dec: Dec, head: nat, g: Scene)
    requires Ready(q, t, dec, head, g) && R.IsAlu(g.x) && k.pc == g.fall
    requires !((g.x.Div? || g.x.Mod?) && g.m.r[g.a.s1] == 0)
    requires IsResult(k, q, g.a.s0, R.AluOf(g.x, R.AluInputs(Here(g), g.a, g.m.pc)))
    ensures Agrees(k, q, t, g, R.ExecAlu(g.x, g.a, g.m.pc, Here(g), g.pg))
  {
    hide Own, HoldsPages, R.AluOf, R.IsAlu;
  }

  // Shadow updates the arithmetic branches share, each the arithmetic unit's answer.

  function SumInto(k: Shadow, q: Locals, d: reg, x: byte, y: byte, carry: bit): (n: Shadow)
    ensures n.pc == k.pc
  {
    var sum: int := x + y + carry;
    var v: nat := sum % 256;
    k.(cWr := true, cNew := sum / 256, z := T.Z(v), s := v / 128 % 2, v := T.OvfAdd(x, y, v),
       r := Wr(q.r, d, v))
  }

  function DifferenceInto(k: Shadow, q: Locals, d: reg, x: byte, y: byte, borrow: bit): (n: Shadow)
    ensures n.pc == k.pc
  {
    var dif: int := x - y - borrow;
    var v: nat := dif % 256;
    k.(cWr := true, cNew := T.B(dif < 0), z := T.Z(v), s := v / 128 % 2, v := T.OvfSub(x, y, v),
       r := Wr(q.r, d, v))
  }

  function MoveInto(k: Shadow, q: Locals, d: reg, v: int): (n: Shadow)
    ensures n.pc == k.pc
  {
    k.(s := q.s % 2, v := q.v % 2, r := Wr(q.r, d, v))
  }

  function LogicInto(k: Shadow, q: Locals, d: reg, v: int): (n: Shadow)
    ensures n.pc == k.pc
  {
    k.(z := T.Z(v), r := Wr(q.r, d, v))
  }

  function ShiftInto(k: Shadow, q: Locals, d: reg, v: int, carry: int): (n: Shadow)
    ensures n.pc == k.pc
  {
    k.(cWr := true, cNew := carry, z := T.Z(v), r := Wr(q.r, d, v))
  }

  predicate FlagsOf(u: R.AluIn, q: Locals) { u.c == q.c && u.z == q.z && u.s == q.s && u.v == q.v }

  lemma SumResult(q: Locals, at: int, d: reg, x: byte, y: byte, carry: bit)
    ensures IsResult(SumInto(Fresh(q, at), q, d, x, y, carry), q, d, R.Sum(x, y, carry))
  {
    hide And, Xor;
  }

  lemma DifferenceResult(q: Locals, at: int, d: reg, x: byte, y: byte, borrow: bit)
    ensures IsResult(DifferenceInto(Fresh(q, at), q, d, x, y, borrow), q, d, R.Difference(x, y, borrow))
  {
    hide And, Xor;
  }

  lemma MoveResult(q: Locals, at: int, d: reg, v: int, u: R.AluIn)
    requires FlagsOf(u, q)
    ensures IsResult(MoveInto(Fresh(q, at), q, d, v), q, d, R.Move(u, Low8(v)))
  {
  }

  lemma LogicResult(q: Locals, at: int, d: reg, v: byte, u: R.AluIn)
    requires FlagsOf(u, q)
    ensures IsResult(LogicInto(Fresh(q, at), q, d, v), q, d, R.Logic(u, v))
  {
  }

  lemma ShiftResult(q: Locals, at: int, d: reg, v: byte, carry: bit, u: R.AluIn)
    requires FlagsOf(u, q)
    ensures IsResult(ShiftInto(Fresh(q, at), q, d, v, carry), q, d, R.Shift(u, v, carry))
  {
  }

  // Which selectors the ranges of the single-byte space hold.

  /** What the unit answers, selector by selector. */
  lemma LogicAnswers(x: Sel, u: R.AluIn)
    ensures x.And8? ==> R.AluOf(x, u) == R.Logic(u, AndByte(u.x, u.y)) && R.IsAlu(x)
    ensures x.Or8? ==> R.AluOf(x, u) == R.Logic(u, OrByte(u.x, u.y)) && R.IsAlu(x)
    ensures x.Xor8? ==> R.AluOf(x, u) == R.Logic(u, XorByte(u.x, u.y)) && R.IsAlu(x)
    ensures x.Not? ==> R.AluOf(x, u) == R.Logic(u, Low8(-1 - u.x)) && R.IsAlu(x)
  {
    hide R.Logic, AndByte, OrByte, XorByte;
  }

  lemma ProductAnswers(x: Sel, u: R.AluIn)
    ensures x.Mul? ==>
      R.AluOf(x, u) == R.Shift(u, Low8(R.Product(u.x, u.y)), R.Flag(R.Product(u.x, u.y) > 255)) && R.IsAlu(x)
    ensures x.Mulh? ==> R.AluOf(x, u) == R.Logic(u, Low8(R.Product(u.x, u.y) / 256)) && R.IsAlu(x)
    ensures x.Div? ==> R.AluOf(x, u) == R.Logic(u, R.Quotient(u.x, u.y)) && R.IsAlu(x)
    ensures x.Mod? ==> R.AluOf(x, u) == R.Logic(u, R.Remainder(u.x, u.y)) && R.IsAlu(x)
  {
    hide R.Logic, R.Shift, R.Quotient, R.Remainder, R.Product;
  }

  lemma UnaryAnswers(x: Sel, u: R.AluIn)
    ensures x.Neg? ==>
      R.AluOf(x, u) == R.Shift(u, Low8(0 - u.x), R.Flag(u.x != 0)).(s := R.Sign(Low8(0 - u.x))) && R.IsAlu(x)
    ensures x.Rol? ==> R.AluOf(x, u) == R.Shift(u, Low8(Or(2 * u.x, u.c)), u.x / 128) && R.IsAlu(x)
    ensures x.Ror? ==> R.AluOf(x, u) == R.Shift(u, Low8(Or(u.x / 2, 128 * u.c)), u.x % 2) && R.IsAlu(x)
  {
    hide R.Shift, R.Sign, Or;
  }

  lemma MoveAnswers(x: Sel, u: R.AluIn)
    ensures x.GetPc? ==> R.AluOf(x, u) == R.Move(u, u.pcLow) && R.IsAlu(x)
    ensures x.GetSp? ==> R.AluOf(x, u) == R.Move(u, u.spLow) && R.IsAlu(x)
    ensures x.GetF? ==> R.AluOf(x, u) == R.Move(u, R.FlagsByte(u.z, u.c, u.s, u.v)) && R.IsAlu(x)
  {
    hide R.Move, R.FlagsByte;
  }

  lemma UnaryRange(eop: nat)
    requires ESC_NOT <= eop <= ESC_ROR
    ensures EscSel(eop) == if eop == ESC_NOT then Not else if eop == ESC_NEG then Neg
                           else if eop == ESC_ROL then Rol else Ror
  {
  }

  lemma HighProductRange(eop: nat)
    ensures eop == ESC_MULH ==> EscSel(eop) == Mulh
    ensures eop == ESC_DIV ==> EscSel(eop) == Div
    ensures eop == ESC_MOD ==> EscSel(eop) == Mod
    ensures eop == ESC_TRAPRET ==> EscSel(eop) == TrapRet
  {
  }

  lemma RelativeRange(eop: nat)
    requires ESC_JS <= eop <= ESC_VC
    ensures EscSel(eop) == if eop == ESC_JS then Js else if eop == ESC_JNS then Jns
                           else if eop == ESC_VS then Vs else Vc
  {
  }

  lemma BankRange(eop: nat)
    ensures eop == ESC_LDM ==> EscSel(eop) == Ldm
    ensures eop == ESC_STM ==> EscSel(eop) == Stm
    ensures eop == ESC_STMW_HL_DE ==> EscSel(eop) == StmwHlDe
    ensures eop == ESC_STMW_DE_HL ==> EscSel(eop) == StmwDeHl
    ensures eop == ESC_LDX ==> EscSel(eop) == Ldx
    ensures eop == ESC_STX ==> EscSel(eop) == Stx
  {
  }

  lemma SelfRange(op: byte)
    requires 0x14 <= op <= 0x1F
    ensures SingleRow(op).sel == if op < 0x18 then GetPc else if op < 0x1C then GetSp else GetF
  {
  }

  lemma LogicRange(op: byte)
    requires 0x20 <= op <= 0x5F
    ensures SingleRow(op).sel == if op / 16 == 2 then And8 else if op / 16 == 3 then Or8
                                 else if op / 16 == 4 then Xor8 else Mul
  {
  }

  lemma ArithRange(op: byte)
    requires 0x80 <= op <= 0xCF
    ensures SingleRow(op).sel == if op / 16 == 8 then Add else if op / 16 == 9 then Sub
                                 else if op / 16 == 10 then Adc else if op / 16 == 11 then Sbb else Mov
  {
  }

  lemma ImmediateRange(op: byte)
    requires 0xD0 <= op <= 0xDF
    ensures SingleRow(op).sel == if op <= 0xD3 then Ldi else if op <= 0xD7 then Addi
                                 else if op <= 0xDB then Subi else Adci
  {
  }

  lemma ShiftRange(op: byte)
    requires 0x60 <= op <= 0x6F
    ensures SingleRow(op).sel == if op < 0x64 then Shl else if op < 0x68 then Shr
                                 else if op < 0x6C then Tst else Djnz
  {
  }

  /** GETPC, GETSP, GETF. */
  method SelfBranch(q: Locals, t: Call, dec: Dec, ghost g: Scene) returns (k: Shadow)
    requires Ready(q, t, dec, 1, g)
    requires 0x14 <= dec.eop <= 0x1F && dec.d == dec.eop % 4
    requires g.x == SingleRow(dec.eop).sel
    ensures k.pc == g.fall && R.IsAlu(g.x)
    ensures IsResult(k, q, g.a.s0, R.AluOf(g.x, R.AluInputs(Here(g), g.a, g.m.pc)))
  {
    hide R.AluOf, R.IsAlu, R.Family, Own, HoldsPages, IsResult, SingleRow, EscSel, R.Sum, R.Difference, R.Move,
         R.Logic, R.Shift, SumInto, DifferenceInto, MoveInto, LogicInto, ShiftInto, And, Or, Xor, Legal, CfgRow;
    SelfRange(dec.eop);
    k := Fresh(q, q.pc + dec.len);
    ghost var u := R.AluInputs(Here(g), g.a, g.m.pc);
    MoveAnswers(g.x, u);
    R.FlagsByteIsSum(q.z, q.c, q.s, q.v);
    var v: int := if dec.eop < 0x18 then q.pc else if dec.eop < 0x1C then q.sp % 256
                  else q.z + 2 * q.c + 4 * q.s + 8 * q.v;
    k := MoveInto(k, q, dec.eop % 4, v);
    MoveResult(q, q.pc + dec.len, dec.eop % 4, v, u);
  }

  /** AND, OR, XOR, MUL. */
  method LogicBranch(q: Locals, t: Call, dec: Dec, ghost g: Scene) returns (k: Shadow)
    requires Ready(q, t, dec, 1, g)
    requires 0x20 <= dec.eop <= 0x5F && dec.d == dec.eop / 4 % 4 && dec.s == dec.eop % 4
    requires g.x == SingleRow(dec.eop).sel
    ensures k.pc == g.fall && R.IsAlu(g.x)
    ensures IsResult(k, q, g.a.s0, R.AluOf(g.x, R.AluInputs(Here(g), g.a, g.m.pc)))
  {
    hide R.AluOf, R.IsAlu, R.Family, R.Product, Own, HoldsPages, IsResult, SingleRow, EscSel, R.Sum, R.Difference,
         R.Move, R.Logic, R.Shift, SumInto, DifferenceInto, MoveInto, LogicInto, ShiftInto, And, Or, Xor, Legal,
         CfgRow;
    LogicRange(dec.eop);
    NibbleFields(dec.eop);
    ProductByte(q.r[dec.d], q.r[dec.s]);
    k := Fresh(q, q.pc + dec.len);
    ghost var u := R.AluInputs(Here(g), g.a, g.m.pc);
    LogicAnswers(g.x, u);
    ProductAnswers(g.x, u);
    var d := dec.eop % 16 / 4 % 4;
    var x, y := q.r[d], q.r[dec.eop % 16 % 4];
    var row := dec.eop / 16;
    Bytes(x, y);
    if row == 2 {
      k := LogicInto(k, q, d, And(x, y));
      LogicResult(q, q.pc + dec.len, d, And(x, y), u);
    } else if row == 3 {
      k := LogicInto(k, q, d, Or(x, y));
      LogicResult(q, q.pc + dec.len, d, Or(x, y), u);
    } else if row == 4 {
      k := LogicInto(k, q, d, Xor(x, y));
      LogicResult(q, q.pc + dec.len, d, Xor(x, y), u);
    } else {
      var p := R.Product(x, y);
      k := ShiftInto(k, q, d, p % 256, T.B(p > 255));
      ShiftResult(q, q.pc + dec.len, d, p % 256, T.B(p > 255), u);
    }
  }

  /** ADD, SUB, ADC, SBB, MOV. */
  method ArithBranch(q: Locals, t: Call, dec: Dec, ghost g: Scene) returns (k: Shadow)
    requires Ready(q, t, dec, 1, g)
    requires 0x80 <= dec.eop <= 0xCF && dec.d == dec.eop / 4 % 4 && dec.s == dec.eop % 4
    requires g.x == SingleRow(dec.eop).sel
    ensures k.pc == g.fall && R.IsAlu(g.x)
    ensures IsResult(k, q, g.a.s0, R.AluOf(g.x, R.AluInputs(Here(g), g.a, g.m.pc)))
  {
    hide Own, HoldsPages, IsResult, SingleRow, EscSel, R.Sum, R.Difference, R.Move, R.Logic, R.Shift, SumInto,
         DifferenceInto, MoveInto, LogicInto, ShiftInto, And, Or, Xor, Legal, CfgRow;
    ArithRange(dec.eop);
    NibbleFields(dec.eop);
    k := Fresh(q, q.pc + dec.len);
    ghost var u := R.AluInputs(Here(g), g.a, g.m.pc);
    var d := dec.eop % 16 / 4 % 4;
    var x, y := q.r[d], q.r[dec.eop % 16 % 4];
    var row := dec.eop / 16;
    if row == 8 || row == 10 {
      var carry: bit := if row == 10 then q.c else 0;
      k := SumInto(k, q, d, x, y, carry);
      SumResult(q, q.pc + dec.len, d, x, y, carry);
    } else if row == 9 || row == 11 {
      var borrow: bit := if row == 11 then q.c else 0;
      k := DifferenceInto(k, q, d, x, y, borrow);
      DifferenceResult(q, q.pc + dec.len, d, x, y, borrow);
    } else {
      k := MoveInto(k, q, d, y);
      MoveResult(q, q.pc + dec.len, d, y, u);
    }
  }

  /** LDI, ADDI, SUBI, ADCI. */
  method ImmediateBranch(q: Locals, t: Call, dec: Dec, ghost g: Scene) returns (k: Shadow)
    requires Ready(q, t, dec, 1, g)
    requires 0xD0 <= dec.eop <= 0xDF && dec.d == dec.eop % 4 && dec.len == 2
    requires g.x == SingleRow(dec.eop).sel
    ensures k.pc == g.fall && R.IsAlu(g.x)
    ensures IsResult(k, q, g.a.s0, R.AluOf(g.x, R.AluInputs(Here(g), g.a, g.m.pc)))
  {
    hide Own, HoldsPages, IsResult, SingleRow, EscSel, R.Sum, R.Difference, R.Move, R.Logic, R.Shift, SumInto,
         DifferenceInto, MoveInto, LogicInto, ShiftInto, And, Or, Xor, Legal, CfgRow;
    ImmediateRange(dec.eop);
    k := Fresh(q, q.pc + dec.len);
    ghost var u := R.AluInputs(Here(g), g.a, g.m.pc);
    var d := dec.eop % 4;
    var x, y := q.r[d], t.code[q.pc + 1];
    if dec.eop <= 0xD3 {
      k := MoveInto(k, q, d, y);
      MoveResult(q, q.pc + dec.len, d, y, u);
    } else if dec.eop <= 0xD7 || dec.eop > 0xDB {
      var carry: bit := if dec.eop <= 0xD7 then 0 else q.c;
      k := SumInto(k, q, d, x, y, carry);
      SumResult(q, q.pc + dec.len, d, x, y, carry);
    } else {
      k := DifferenceInto(k, q, d, x, y, 0);
      DifferenceResult(q, q.pc + dec.len, d, x, y, 0);
    }
  }

  /** SHL, SHR, TST. */
  method ShiftBranch(q: Locals, t: Call, dec: Dec, ghost g: Scene) returns (k: Shadow)
    requires Ready(q, t, dec, 1, g)
    requires 0x60 <= dec.eop <= 0x6B && dec.d == dec.eop % 4
    requires g.x == SingleRow(dec.eop).sel
    ensures k.pc == g.fall && R.IsAlu(g.x)
    ensures IsResult(k, q, g.a.s0, R.AluOf(g.x, R.AluInputs(Here(g), g.a, g.m.pc)))
  {
    hide Own, HoldsPages, IsResult, SingleRow, EscSel, R.Sum, R.Difference, R.Move, R.Logic, R.Shift, SumInto,
         DifferenceInto, MoveInto, LogicInto, ShiftInto, And, Or, Xor, Legal, CfgRow;
    ShiftRange(dec.eop);
    k := Fresh(q, q.pc + dec.len);
    ghost var u := R.AluInputs(Here(g), g.a, g.m.pc);
    var d := dec.eop % 4;
    var x: int := q.r[d];
    if dec.eop < 0x64 {
      k := ShiftInto(k, q, d, 2 * x % 256, x / 128);
      ShiftResult(q, q.pc + dec.len, d, 2 * x % 256, x / 128, u);
    } else if dec.eop < 0x68 {
      k := ShiftInto(k, q, d, x / 2, x % 2);
      ShiftResult(q, q.pc + dec.len, d, x / 2, x % 2, u);
    } else {
      k := LogicInto(k, q, d, x);
      TestResult(q, q.pc + dec.len, d, u);
    }
  }

  lemma TestResult(q: Locals, at: int, d: reg, u: R.AluIn)
    requires FlagsOf(u, q) && u.x == q.r[d]
    ensures IsResult(LogicInto(Fresh(q, at), q, d, q.r[d]), q, d, R.AluUnary(Tst, u))
  {
    assert q.r[d := q.r[d]] == q.r;
  }

  lemma NibbleFields(op: byte)
    ensures op % 16 / 4 % 4 == op / 4 % 4 && op % 16 % 4 == op % 4
  {
  }

  lemma ProductByte(x: byte, y: byte)
    ensures 0 <= R.Product(x, y)
  {
  }

  lemma Bytes(x: byte, y: byte)
    ensures 0 <= Or(x, y) < 256 && 0 <= Xor(x, y) < 256
  {
    Pow2Byte();
    OrBelow(x, y, 8);
    XorBelow(x, y, 8);
  }

  lemma MemoryRange(op: byte)
    requires 0xE0 <= op <= 0xFF
    ensures SingleRow(op).sel == if op < 0xE4 then MovRHl else if op < 0xE8 then MovHlR
                                 else if op < 0xEC then MovRDe else if op < 0xF0 then MovDeR
                                 else if op < 0xF4 then Push else if op < 0xF8 then Pop
                                 else if op < 0xFC then Out else In
  {
  }

  /** With one store pending on the row's own page, the region check is the reference's. */
  lemma OwnRegions(k: Shadow, t: Call, e: R.Env)
    requires Legal(e.cf) && t.pid < |t.cfg| && t.cfg[t.pid] == CfgRow(e.cf) && k.bdelta == 0
    ensures Refused(k, t) <==>
      || (k.e1 && Covered(e.cf.regions, k.a1)) || (k.e2 && Covered(e.cf.regions, k.a2))
      || (k.e4 && Covered(e.cf.regions, k.a4)) || (k.e5 && Covered(e.cf.regions, k.a5))
  {
    hide T.Hit, Covered, T.PaddedRegions;
    CfgRowPairs(e.cf);
    T.PaddingHitsNothing(e.cf.regions, k.a1);
    T.PaddingHitsNothing(e.cf.regions, k.a2);
    T.PaddingHitsNothing(e.cf.regions, k.a4);
    T.PaddingHitsNothing(e.cf.regions, k.a5);
  }

  /** DJNZ. */
  method DjnzBranch(q: Locals, t: Call, dec: Dec, ghost g: Scene) returns (k: Shadow)
    requires Ready(q, t, dec, 1, g)
    requires 0x6C <= dec.eop <= 0x6F && dec.d == dec.eop % 4 && dec.len == 3
    requires g.x == SingleRow(dec.eop).sel
    ensures Agrees(k, q, t, g, R.ExecBranch(g.x, g.e.cf, g.a, Here(g), g.pg))
  {
    hide Own, HoldsPages, SingleRow, Legal, CfgRow;
    ShiftRange(dec.eop);
    k := Fresh(q, q.pc + dec.len);
    var d := dec.eop % 4;
    var to := Word(t.code[q.pc + 1], t.code[q.pc + 2]);
    var x: int := q.r[d];
    var v := (x - 1) % 256;
    k := k.(r := Wr(q.r, d, v));
    if v != 0 {
      k := k.(pc := to, pcw := true);
    }
  }

  /** MOV r, [HL] and MOV r, [DE]. */
  method LoadBranch(q: Locals, t: Call, dec: Dec, ghost g: Scene) returns (k: Shadow)
    requires Ready(q, t, dec, 1, g)
    requires (0xE0 <= dec.eop < 0xE4 || 0xE8 <= dec.eop < 0xEC) && dec.d == dec.eop % 4
    requires g.x == SingleRow(dec.eop).sel
    ensures Agrees(k, q, t, g, R.ExecMemory(g.x, g.e, g.a, Here(g), g.pg))
  {
    hide Own, HoldsPages, SingleRow, Legal, CfgRow;
    MemoryRange(dec.eop);
    k := Fresh(q, q.pc + dec.len);
    var at := if dec.eop < 0xE4 then q.hl else q.de;
    if at >= DATA_SIZE {
      k := k.(errc := NameCause(k.errc, Code(DataOob)));
    } else {
      OwnPage(t, g.pg, at);
      k := k.(r := Wr(q.r, dec.eop % 4, Load(t, 0, at)));
    }
  }

  /** MOV [HL], r and MOV [DE], r. */
  method StoreBranch(q: Locals, t: Call, dec: Dec, ghost g: Scene) returns (k: Shadow)
    requires Ready(q, t, dec, 1, g)
    requires (0xE4 <= dec.eop < 0xE8 || 0xEC <= dec.eop < 0xF0) && dec.d == dec.eop % 4
    requires g.x == SingleRow(dec.eop).sel
    ensures Agrees(k, q, t, g, R.ExecMemory(g.x, g.e, g.a, Here(g), g.pg))
  {
    hide Own, HoldsPages, SingleRow, Covered, Refused, CfgRow, Legal;
    MemoryRange(dec.eop);
    k := Fresh(q, q.pc + dec.len);
    var d := dec.eop % 4;
    var at := if dec.eop < 0xE8 then q.hl else q.de;
    if at >= DATA_SIZE {
      k := k.(errc := NameCause(k.errc, Code(DataOob)));
    } else {
      k := k.(a1 := at, v1 := q.r[d], e1 := true);
    }
    k := k.(r := Wr(q.r, d, q.r[d]));
    OwnRegions(k, t, g.e);
  }

  /** PUSH. */
  method PushBranch(q: Locals, t: Call, dec: Dec, ghost g: Scene) returns (k: Shadow)
    requires Ready(q, t, dec, 1, g)
    requires 0xF0 <= dec.eop < 0xF4 && dec.d == dec.eop % 4
    requires g.x == SingleRow(dec.eop).sel
    ensures Agrees(k, q, t, g, R.ExecStack(g.x, g.e, g.a, Here(g), g.pg))
  {
    hide Own, HoldsPages, SingleRow, Covered, Refused, CfgRow, Legal;
    MemoryRange(dec.eop);
    k := Fresh(q, q.pc + dec.len);
    var d := dec.eop % 4;
    if q.sp - q.splim < 1 || q.sp > DATA_SIZE {
      k := k.(errc := NameCause(k.errc, Code(StackOverflow)));
    } else {
      k := k.(a1 := q.sp - 1, v1 := q.r[d], e1 := true, sp := q.sp - 1);
    }
    k := k.(r := Wr(q.r, d, q.r[d]));
    OwnRegions(k, t, g.e);
  }

  /** POP. */
  method PopBranch(q: Locals, t: Call, dec: Dec, ghost g: Scene) returns (k: Shadow)
    requires Ready(q, t, dec, 1, g)
    requires 0xF4 <= dec.eop < 0xF8 && dec.d == dec.eop % 4
    requires g.x == SingleRow(dec.eop).sel
    ensures Agrees(k, q, t, g, R.ExecStack(g.x, g.e, g.a, Here(g), g.pg))
  {
    hide Own, HoldsPages, SingleRow, Legal, CfgRow;
    MemoryRange(dec.eop);
    k := Fresh(q, q.pc + dec.len);
    if q.sp >= DATA_SIZE {
      k := k.(errc := NameCause(k.errc, Code(StackUnderflow)));
    } else {
      OwnPage(t, g.pg, q.sp);
      k := k.(r := Wr(q.r, dec.eop % 4, Load(t, 0, q.sp)), sp := q.sp + 1);
    }
  }

  /** OUT, IN. */
  method PortBranch(q: Locals, t: Call, dec: Dec, ghost g: Scene) returns (k: Shadow)
    requires Ready(q, t, dec, 1, g)
    requires 0xF8 <= dec.eop <= 0xFF && dec.d == dec.eop % 4
    requires g.x == SingleRow(dec.eop).sel
    ensures Agrees(k, q, t, g, R.ExecStream(g.x, g.e, g.a, Here(g), g.pg))
  {
    hide Own, HoldsPages, SingleRow, Legal, CfgRow;
    MemoryRange(dec.eop);
    k := Fresh(q, q.pc + dec.len);
    var d := dec.eop % 4;
    if dec.eop < 0xFC {
      k := k.(oval := q.r[d], oen := true, r := Wr(q.r, d, q.r[d]));
    } else if q.ipo < |t.inputs| {
      k := k.(r := Wr(q.r, d, t.inputs[q.ipo]), ipo := q.ipo + 1);
    } else {
      k := k.(r := Wr(q.r, d, 0), cWr := true, cNew := 1);
    }
  }

  /** CALL: room, target, regions, in that order. */
  method CallBranch(q: Locals, t: Call, dec: Dec, ghost g: Scene) returns (k: Shadow)
    requires Ready(q, t, dec, 1, g)
    requires dec.eop == 0x0E && dec.len == 3
    requires g.x == SingleRow(dec.eop).sel
    ensures Agrees(k, q, t, g, R.ExecStack(g.x, g.e, g.a, Here(g), g.pg))
  {
    hide SingleRow, Legal, CfgRow, Own, HoldsPages, Covered, Refused, R.StackCovered;
    LowRange(dec.eop);
    k := Fresh(q, q.pc + dec.len);
    if q.sp - q.splim < 2 || q.sp > DATA_SIZE {
      k := k.(errc := NameCause(k.errc, Code(StackOverflow)));
    } else {
      var ret := q.pc + dec.len;
      k := k.(a1 := q.sp - 1, v1 := ret % 256, e1 := true, a2 := q.sp - 2, v2 := ret / 256 % 256,
              e2 := true, sp := q.sp - 2, pc := Word(t.code[q.pc + 1], t.code[q.pc + 2]), pcw := true);
    }
    OwnRegions(k, t, g.e);
    R.StackCoveredCells(g.e.cf, Here(g));
  }

  // ------------------------------------------------------------ the escape space

  /** CALL HL. */
  method CallHlBranch(q: Locals, t: Call, dec: Dec, ghost g: Scene) returns (k: Shadow)
    requires Ready(q, t, dec, 2, g)
    requires dec.eop == ESC_CALL_HL
    requires g.x == EscSel(dec.eop)
    ensures Agrees(k, q, t, g, R.ExecStack(g.x, g.e, g.a, Here(g), g.pg))
  {
    hide Own, HoldsPages, Covered, Refused, CfgRow, R.StackCovered, Legal;
    k := Fresh(q, q.pc + dec.len);
    if q.sp - q.splim < 2 || q.sp > DATA_SIZE {
      k := k.(errc := NameCause(k.errc, Code(StackOverflow)));
    } else {
      var ret := q.pc + dec.len;
      k := k.(a1 := q.sp - 1, v1 := ret % 256, e1 := true, a2 := q.sp - 2, v2 := ret / 256 % 256,
              e2 := true, sp := q.sp - 2, pc := q.hl, pcw := true);
    }
    OwnRegions(k, t, g.e);
    R.StackCoveredCells(g.e.cf, Here(g));
  }

  lemma QuotientSettles(k: Shadow, q: Locals, t: Call, dec: Dec, head: nat, g: Scene)
    requires Ready(q, t, dec, head, g) && (g.x.Div? || g.x.Mod?) && g.m.r[g.a.s1] == 0
    requires k == Fresh(q, k.pc).(errc := Code(DivZero))
    ensures Agrees(k, q, t, g, R.ExecAlu(g.x, g.a, g.m.pc, Here(g), g.pg))
  {
    hide Own, HoldsPages, R.AluOf;
  }

  /** DIV, MOD. */
  method DivideBranch(q: Locals, t: Call, dec: Dec, ghost g: Scene) returns (k: Shadow)
    requires Ready(q, t, dec, 2, g)
    requires dec.eop == ESC_DIV || dec.eop == ESC_MOD
    requires g.x == EscSel(dec.eop)
    ensures Agrees(k, q, t, g, R.ExecAlu(g.x, g.a, g.m.pc, Here(g), g.pg))
  {
    hide EscSel, R.AluOf, R.IsAlu, R.Family, Own, HoldsPages, IsResult, R.Logic, LogicInto, Agrees, MoveInto,
         SumInto, R.ExecAlu, Legal, CfgRow;
    k := Fresh(q, q.pc + dec.len);
    var x, y := q.r[dec.d], q.r[dec.s];
    ghost var u := R.AluInputs(Here(g), g.a, g.m.pc);
    HighProductRange(dec.eop);
    ProductAnswers(g.x, u);
    if y == 0 {
      k := k.(errc := NameCause(k.errc, Code(DivZero)));
      QuotientSettles(k, q, t, dec, 2, g);
    } else {
      R.QuotientByte(x, y);
      var v := if dec.eop == ESC_DIV then x / y else x % y;
      k := LogicInto(k, q, dec.d, v);
      LogicResult(q, q.pc + dec.len, dec.d, v, u);
      ResultSettles(k, q, t, dec, 2, g);
    }
  }

  /** CMP. */
  method CompareBranch(q: Locals, t: Call, dec: Dec, ghost g: Scene) returns (k: Shadow)
    requires Ready(q, t, dec, 2, g)
    requires dec.eop == ESC_CMP
    requires g.x == EscSel(dec.eop)
    ensures k.pc == g.fall && R.IsAlu(g.x)
    ensures IsResult(k, q, g.a.s0, R.AluOf(g.x, R.AluInputs(Here(g), g.a, g.m.pc)))
  {
    hide Own, HoldsPages, IsResult, SingleRow, R.Sum, R.Difference, R.Move, R.Logic, R.Shift, SumInto,
         DifferenceInto, MoveInto, LogicInto, ShiftInto, And, Or, Xor, CompareInto, Legal, CfgRow;
    k := Fresh(q, q.pc + dec.len);
    ghost var u := R.AluInputs(Here(g), g.a, g.m.pc);
    var x, y := q.r[dec.d], q.r[dec.s];
    k := CompareInto(k, x, y);
    CompareResult(q, q.pc + dec.len, dec.d, x, y);
  }

  function CompareInto(k: Shadow, x: byte, y: byte): (n: Shadow)
    ensures n.pc == k.pc
  {
    var dif: int := x - y;
    var v: nat := dif % 256;
    k.(z := T.B(x == y), cWr := true, cNew := T.B(x < y), s := v / 128 % 2, v := T.OvfSub(x, y, v))
  }

  lemma CompareResult(q: Locals, at: int, d: reg, x: byte, y: byte)
    ensures IsResult(CompareInto(Fresh(q, at), x, y), q, d,
                     R.Difference(x, y, 0).(en := false, w := x, z := R.Flag(x == y)))
  {
    hide And, Xor;
  }

  /** NOT, NEG, ROL, ROR. */
  method UnaryBranch(q: Locals, t: Call, dec: Dec, ghost g: Scene) returns (k: Shadow)
    requires Ready(q, t, dec, 2, g)
    requires ESC_NOT <= dec.eop <= ESC_ROR
    requires g.x == EscSel(dec.eop)
    ensures k.pc == g.fall && R.IsAlu(g.x)
    ensures IsResult(k, q, g.a.s0, R.AluOf(g.x, R.AluInputs(Here(g), g.a, g.m.pc)))
  {
    hide EscSel, R.AluOf, R.IsAlu, R.Family, Own, HoldsPages, IsResult, SingleRow, R.Sum, R.Difference, R.Move,
         R.Logic, R.Shift, SumInto, DifferenceInto, MoveInto, LogicInto, ShiftInto, And, Or, Xor, Legal, CfgRow;
    k := Fresh(q, q.pc + dec.len);
    ghost var u := R.AluInputs(Here(g), g.a, g.m.pc);
    UnaryRange(dec.eop);
    var x: int := q.r[dec.d];
    if dec.eop == ESC_NOT {
      LogicAnswers(g.x, u);
      var v := (-1 - x) % 256;
      k := LogicInto(k, q, dec.d, v);
      LogicResult(q, q.pc + dec.len, dec.d, v, u);
    } else if dec.eop == ESC_NEG {
      UnaryAnswers(g.x, u);
      var v := (0 - x) % 256;
      k := ShiftInto(k, q, dec.d, v, T.B(x != 0)).(s := v / 128 % 2);
      NegateResult(q, q.pc + dec.len, dec.d, v, T.B(x != 0), u);
    } else if dec.eop == ESC_ROL {
      UnaryAnswers(g.x, u);
      var v := Or(2 * x, q.c) % 256;
      k := ShiftInto(k, q, dec.d, v, x / 128);
      ShiftResult(q, q.pc + dec.len, dec.d, v, x / 128, u);
    } else {
      UnaryAnswers(g.x, u);
      RotatedBytes(q.r[dec.d], q.c);
      var v := Or(x / 2, 128 * q.c);
      k := ShiftInto(k, q, dec.d, v, x % 2);
      ShiftResult(q, q.pc + dec.len, dec.d, v, x % 2, u);
    }
  }

  lemma RotatedBytes(x: byte, c: bit)
    ensures Or(x / 2, 128 * c) == x / 2 + 128 * c
  {
    T.RotatedRight(x, c);
  }

  lemma NegateResult(q: Locals, at: int, d: reg, v: byte, carry: bit, u: R.AluIn)
    requires FlagsOf(u, q)
    ensures IsResult(ShiftInto(Fresh(q, at), q, d, v, carry).(s := v / 128 % 2), q, d,
                     R.Shift(u, v, carry).(s := R.Sign(v)))
  {
  }

  /** MULH. */
  method HighProductBranch(q: Locals, t: Call, dec: Dec, ghost g: Scene) returns (k: Shadow)
    requires Ready(q, t, dec, 2, g)
    requires dec.eop == ESC_MULH
    requires g.x == EscSel(dec.eop)
    ensures k.pc == g.fall && R.IsAlu(g.x)
    ensures IsResult(k, q, g.a.s0, R.AluOf(g.x, R.AluInputs(Here(g), g.a, g.m.pc)))
  {
    hide EscSel, R.AluOf, R.IsAlu, R.Family, R.Product, Own, HoldsPages, IsResult, SingleRow, R.Sum, R.Difference,
         R.Move, R.Logic, R.Shift, SumInto, DifferenceInto, MoveInto, LogicInto, ShiftInto, And, Or, Xor, Legal,
         CfgRow;
    k := Fresh(q, q.pc + dec.len);
    ghost var u := R.AluInputs(Here(g), g.a, g.m.pc);
    ProductByte(q.r[dec.d], q.r[dec.s]);
    HighProductRange(dec.eop);
    ProductAnswers(g.x, u);
    var v := R.Product(q.r[dec.d], q.r[dec.s]) / 256 % 256;
    k := LogicInto(k, q, dec.d, v);
    LogicResult(q, q.pc + dec.len, dec.d, v, u);
  }

  /** ADD HL, DE; SUB HL, DE; XCHG; the moves of the bank selector. */
  method PairBranch(q: Locals, t: Call, dec: Dec, ghost g: Scene) returns (k: Shadow)
    requires Ready(q, t, dec, 2, g)
    requires dec.eop == ESC_ADD_HLDE || dec.eop == ESC_SUB_HLDE || dec.eop == ESC_XCHG
             || dec.eop == ESC_MOV_MB_HL || dec.eop == ESC_MOV_HL_MB
    requires g.x == EscSel(dec.eop)
    ensures Agrees(k, q, t, g, R.ExecPointer(g.x, g.a, Here(g), g.pg))
  {
    hide Own, HoldsPages, Legal, CfgRow;
    k := Fresh(q, q.pc + dec.len);
    if dec.eop == ESC_ADD_HLDE {
      var sum: int := q.hl + q.de;
      k := k.(cWr := true, cNew := sum / 65536, hl := sum % 65536);
    } else if dec.eop == ESC_SUB_HLDE {
      k := k.(cWr := true, cNew := T.B(q.hl < q.de), hl := (q.hl - q.de) % 65536);
    } else if dec.eop == ESC_XCHG {
      k := k.(hl := q.de, de := q.hl);
    } else if dec.eop == ESC_MOV_MB_HL {
      k := k.(mb := q.hl % 65536);
    } else {
      k := k.(hl := q.mb % 65536);
    }
  }

  /** MOVW. */
  method MovePointerBranch(q: Locals, t: Call, dec: Dec, ghost g: Scene) returns (k: Shadow)
    requires Ready(q, t, dec, 2, g)
    requires ESC_MOVW_HL_DE <= dec.eop <= ESC_MOVW_SP_DE
    requires g.x == EscSel(dec.eop)
    ensures Agrees(k, q, t, g, R.ExecPointer(g.x, g.a, Here(g), g.pg))
  {
    hide Own, HoldsPages, Legal, CfgRow;
    k := Fresh(q, q.pc + dec.len);
    if dec.eop == ESC_MOVW_HL_DE {
      k := k.(hl := q.de);
    } else if dec.eop == ESC_MOVW_DE_HL {
      k := k.(de := q.hl);
    } else if dec.eop == ESC_MOVW_HL_SP {
      k := k.(hl := q.sp);
    } else if dec.eop == ESC_MOVW_DE_SP {
      k := k.(de := q.sp);
    } else {
      var w := if dec.eop == ESC_MOVW_SP_HL then q.hl else q.de;
      if w > DATA_SIZE {
        k := k.(errc := NameCause(k.errc, Code(DataOob)));
      } else {
        k := k.(sp := w);
      }
    }
  }

  /** `d - 256 * (d >> 7)`. */
  function SignExtend(d: byte): (r: int)
    ensures r == Signed(d)
  {
    hide Signed;
    SignExtensionsAgree(d);
    d - 256 * (d / 128)
  }

  /** ADD SP. */
  method AddSpBranch(q: Locals, t: Call, dec: Dec, ghost g: Scene) returns (k: Shadow)
    requires Ready(q, t, dec, 2, g)
    requires dec.eop == ESC_ADD_SP && dec.len == 3
    requires g.x == EscSel(dec.eop)
    ensures Agrees(k, q, t, g, R.ExecPointer(g.x, g.a, Here(g), g.pg))
  {
    hide Own, HoldsPages, Signed, Legal, CfgRow;
    k := Fresh(q, q.pc + dec.len);
    var v := (q.sp + SignExtend(t.code[q.pc + 2])) % 65536;
    if v > DATA_SIZE {
      k := k.(errc := NameCause(k.errc, Code(DataOob)));
    } else {
      k := k.(sp := v);
    }
  }

  /** JS, JNS, VS, VC. */
  method RelativeBranch(q: Locals, t: Call, dec: Dec, ghost g: Scene) returns (k: Shadow)
    requires Ready(q, t, dec, 2, g)
    requires ESC_JS <= dec.eop <= ESC_VC && dec.len == 3
    requires g.x == EscSel(dec.eop)
    ensures Agrees(k, q, t, g, R.ExecBranch(g.x, g.e.cf, g.a, Here(g), g.pg))
  {
    hide EscSel, CfgRow, Legal, Own, HoldsPages, Signed;
    RelativeRange(dec.eop);
    k := Fresh(q, q.pc + dec.len);
    var to := (q.pc + dec.len + SignExtend(t.code[q.pc + 2])) % 65536;
    var hit: int := if dec.eop == ESC_JS then q.s else if dec.eop == ESC_JNS then 1 - q.s
                    else if dec.eop == ESC_VS then q.v else 1 - q.v;
    if hit == 1 {
      k := k.(pc := to, pcw := true);
    }
    k := k.(s := q.s % 2, v := q.v % 2);
  }

  /** PUSHW. */
  method PushWordBranch(q: Locals, t: Call, dec: Dec, ghost g: Scene) returns (k: Shadow)
    requires Ready(q, t, dec, 2, g)
    requires dec.eop == ESC_PUSHW_HL || dec.eop == ESC_PUSHW_DE
    requires g.x == EscSel(dec.eop)
    ensures Agrees(k, q, t, g, R.ExecStack(g.x, g.e, g.a, Here(g), g.pg))
  {
    hide Own, HoldsPages, Covered, Refused, CfgRow, R.StackCovered, Legal;
    k := Fresh(q, q.pc + dec.len);
    var w: nat := if dec.eop == ESC_PUSHW_HL then q.hl else q.de;
    if q.sp - q.splim < 2 || q.sp > DATA_SIZE {
      k := k.(errc := NameCause(k.errc, Code(StackOverflow)));
    } else {
      k := k.(a1 := q.sp - 1, v1 := w / 256 % 256, e1 := true, a2 := q.sp - 2, v2 := w % 256,
              e2 := true, sp := q.sp - 2);
      StoresCommute(g.pg, g.e.bank.own, q.sp - 2, w % 256, q.sp - 1, w / 256);
    }
    OwnRegions(k, t, g.e);
    R.StackCoveredCells(g.e.cf, Here(g));
  }

  lemma StoresCommute(pg: seq<R.Page>, row: nat, a: int, v: byte, b: int, u: byte)
    requires row < |pg| && 0 <= a < DATA_SIZE && 0 <= b < DATA_SIZE && a != b
    ensures R.Put(R.Put(pg, row, a, v), row, b, u) == R.Put(R.Put(pg, row, b, u), row, a, v)
  {
    var p := pg[row];
    assert p[a := v][b := u] == p[b := u][a := v];
  }

  /** POPW. */
  method PopWordBranch(q: Locals, t: Call, dec: Dec, ghost g: Scene) returns (k: Shadow)
    requires Ready(q, t, dec, 2, g)
    requires dec.eop == ESC_POPW_HL || dec.eop == ESC_POPW_DE
    requires g.x == EscSel(dec.eop)
    ensures Agrees(k, q, t, g, R.ExecStack(g.x, g.e, g.a, Here(g), g.pg))
  {
    hide Own, HoldsPages, Legal, CfgRow;
    k := Fresh(q, q.pc + dec.len);
    if q.sp + 2 > DATA_SIZE {
      k := k.(errc := NameCause(k.errc, Code(StackUnderflow)));
    } else {
      OwnPage(t, g.pg, q.sp);
      OwnPage(t, g.pg, q.sp + 1);
      var w := Word(Load(t, 0, q.sp), Load(t, 0, q.sp + 1));
      if dec.eop == ESC_POPW_HL {
        k := k.(hl := w);
      } else {
        k := k.(de := w);
      }
      k := k.(sp := q.sp + 2);
    }
  }

  /** Which word goes where. */
  lemma WordAccess(q: Locals, t: Call, dec: Dec, g: Scene)
    requires Ready(q, t, dec, 2, g) && g.x == EscSel(dec.eop)
    requires dec.eop == ESC_STW_HLDE || dec.eop == ESC_STW_DEHL
    ensures R.ExecMemory(g.x, g.e, g.a, Here(g), g.pg)
            == if dec.eop == ESC_STW_HLDE then R.StoreWord(g.e, Here(g), g.pg, q.hl, q.de)
               else R.StoreWord(g.e, Here(g), g.pg, q.de, q.hl)
  {
    hide Own, HoldsPages, CfgRow, R.StoreWord, Legal;
  }

  /** STW. */
  method StoreWordBranch(q: Locals, t: Call, dec: Dec, ghost g: Scene) returns (k: Shadow)
    requires Ready(q, t, dec, 2, g)
    requires dec.eop == ESC_STW_HLDE || dec.eop == ESC_STW_DEHL
    requires g.x == EscSel(dec.eop)
    ensures Agrees(k, q, t, g, R.ExecMemory(g.x, g.e, g.a, Here(g), g.pg))
  {
    hide Own, HoldsPages, Covered, Refused, CfgRow, EscSel, R.ExecMemory, Legal;
    WordAccess(q, t, dec, g);
    k := Fresh(q, q.pc + dec.len);
    var at: nat := if dec.eop == ESC_STW_HLDE then q.hl else q.de;
    var w: nat := if dec.eop == ESC_STW_HLDE then q.de else q.hl;
    if at + 1 >= DATA_SIZE {
      k := k.(errc := NameCause(k.errc, Code(DataOob)));
    } else {
      k := k.(a1 := at, v1 := w % 256, e1 := true, a2 := at + 1, v2 := w / 256 % 256, e2 := true);
    }
    OwnRegions(k, t, g.e);
  }

  /** LDW. */
  method LoadPairBranch(q: Locals, t: Call, dec: Dec, ghost g: Scene) returns (k: Shadow)
    requires Ready(q, t, dec, 2, g)
    requires dec.eop == ESC_LDW_DEHL || dec.eop == ESC_LDW_HLDE
    requires g.x == EscSel(dec.eop)
    ensures Agrees(k, q, t, g, R.ExecMemory(g.x, g.e, g.a, Here(g), g.pg))
  {
    hide Own, HoldsPages, Legal, CfgRow;
    k := Fresh(q, q.pc + dec.len);
    var at: nat := if dec.eop == ESC_LDW_DEHL then q.hl else q.de;
    if at + 1 >= DATA_SIZE {
      k := k.(errc := NameCause(k.errc, Code(DataOob)));
    } else {
      OwnPage(t, g.pg, at);
      OwnPage(t, g.pg, at + 1);
      var w := Word(Load(t, 0, at), Load(t, 0, at + 1));
      if dec.eop == ESC_LDW_DEHL {
        k := k.(de := w);
      } else {
        k := k.(hl := w);
      }
    }
  }

  /** The kernel's sign-extended displacement is the reference's frame address. */
  lemma FrameAddress(q: Locals, t: Call, dec: Dec, g: Scene)
    requires Ready(q, t, dec, 2, g) && dec.len == 3
    ensures (q.hl + SignExtend(t.code[q.pc + 2])) % 65536 == R.Frame(Here(g), g.a)
  {
    hide HoldsPages, CfgRow, Legal, Own;
  }

  /** LDX, STX. */
  method FrameBranch(q: Locals, t: Call, dec: Dec, ghost g: Scene) returns (k: Shadow)
    requires Ready(q, t, dec, 2, g)
    requires (dec.eop == ESC_LDX || dec.eop == ESC_STX) && dec.len == 3
    requires g.x == EscSel(dec.eop)
    ensures Agrees(k, q, t, g, R.ExecMemory(g.x, g.e, g.a, Here(g), g.pg))
  {
    hide Own, HoldsPages, Covered, Refused, CfgRow, Legal, Signed, EscSel, R.Frame, SignExtend;
    FrameAddress(q, t, dec, g);
    BankRange(dec.eop);
    k := Fresh(q, q.pc + dec.len);
    var at := (q.hl + SignExtend(t.code[q.pc + 2])) % 65536;
    if at >= DATA_SIZE {
      k := k.(errc := NameCause(k.errc, Code(DataOob)));
    } else if dec.eop == ESC_LDX {
      OwnPage(t, g.pg, at);
      k := k.(r := Wr(q.r, dec.d, Load(t, 0, at)));
    } else {
      k := k.(a1 := at, v1 := q.r[dec.d], e1 := true);
    }
    OwnRegions(k, t, g.e);
  }

  /** STC, LDC. */
  method CodeBranch(q: Locals, t: Call, dec: Dec, ghost g: Scene) returns (k: Shadow)
    requires Ready(q, t, dec, 2, g)
    requires dec.eop == ESC_STC || dec.eop == ESC_LDC
    requires g.x == EscSel(dec.eop)
    ensures Agrees(k, q, t, g, R.ExecMemory(g.x, g.e, g.a, Here(g), g.pg))
  {
    hide Own, HoldsPages, Legal;
    k := Fresh(q, q.pc + dec.len);
    if q.hl >= t.codelen {
      k := k.(errc := NameCause(k.errc, Code(CodeOob)));
    } else if dec.eop == ESC_LDC {
      k := k.(r := Wr(q.r, dec.d, t.code[q.hl]));
    } else if q.hl < t.cfg[t.pid][CFG_WINLO] || q.hl >= t.cfg[t.pid][CFG_WINHI] {
      k := k.(errc := NameCause(k.errc, Code(Window)));
    } else {
      k := k.(a3 := q.hl, v3 := q.r[dec.d], e3 := true, sc := q.sc + 1,
              sf := if q.sc == 0 then q.hl else q.sf);
    }
  }

  // ------------------------------------------------------------- bank accesses

  /** The ownership rule, on status codes. */
  function BankRefusal(mb: nat, nb: nat, held: nat, own: nat, ost: nat): nat
  {
    if mb >= nb then Code(BankOob)
    else if mb >= held then Code(BankOob)
    else if mb != own && ost == 0 then Code(BankBusy)
    else 0
  }

  predicate StatusSeen(t: Call, e: R.Env, p: nat)
    requires t.nb > 0 && Base(t) + p < |t.bstat|
  {
    && e.bank.statuses.Some? && p < |e.bank.statuses.value|
    && t.bstat[Base(t) + p] == R.StatusCode(e.bank.statuses.value[p])
  }

  predicate RegionsSeen(t: Call, e: R.Env, p: nat)
    requires t.nb > 0 && Base(t) + p < |t.cfg| && p < 65536
  {
    && |R.PageRegions(e, p)| <= REGIONS_MAX && |t.cfg[Base(t) + p]| == CFG_LEN
    && CfgPairs(t.cfg[Base(t) + p]) == T.PaddedRegions(R.PageRegions(e, p))
  }

  /** The status and configuration rows of the group say what the machine was handed. */
  ghost predicate SeesGroup(t: Call, e: R.Env)
    requires t.nb > 0
  {
    && Base(t) + t.held <= |t.cfg| && Base(t) + t.held <= |t.bstat| && |t.bstat| > 0
    && t.held <= 65536
    && (forall p: nat :: p < t.held && p != e.bank.own ==> StatusSeen(t, e, p))
    && (forall p: nat :: p < t.held ==> RegionsSeen(t, e, p))
  }

  /** `BSTAT[PID - OWN + MB]`, or row 0 when the selector is out of range. */
  function OwnerStatus(t: Call, mb: nat): nat
    requires t.nb > 0 && |t.bstat| > 0 && Base(t) + t.held <= |t.bstat|
  {
    t.bstat[if mb < t.nb && mb < t.held then t.pid - Own(t) + mb else 0]
  }

  lemma RefusalIsVerdict(q: Locals, t: Call, e: R.Env, m: R.Core, pg: seq<R.Page>)
    requires Loaded(q, t, e, m, pg) && SeesGroup(t, e)
    ensures BankRefusal(q.mb, t.nb, t.held, Own(t), OwnerStatus(t, q.mb))
            == Code(R.BankVerdict(e, |pg|, m.mb))
  {
    hide CfgPairs, T.PaddedRegions, R.PageRegions, CfgRow;
    if q.mb < t.held && q.mb != e.bank.own {
      assert StatusSeen(t, e, q.mb);
    }
  }

  /** The row a selector inside the group names is a row of the same group. */
  lemma SelectorStaysInGroup(pid: nat, nb: nat, mb: nat, rows: nat)
    requires nb > 0 && pid < rows
    requires mb < Held(pid, nb, rows)
    ensures var row := pid - pid % nb + mb;
      row < rows && row / nb == pid / nb && row % nb == mb
  {
    GroupOf(pid, nb);
    RemainderUnique(pid - pid % nb + mb, nb, pid / nb, mb);
  }

  /** `HELD`: the rows of the group row `pid` is in, the last group being cut short. */
  function Held(pid: nat, nb: nat, rows: nat): (held: nat)
    requires nb > 0 && pid < rows
    ensures pid % nb < held <= nb && pid - pid % nb + held <= rows
  {
    GroupOf(pid, nb);
    var left := rows - pid / nb * nb;
    if nb < left then nb else left
  }

  lemma BankPage(q: Locals, t: Call, e: R.Env, m: R.Core, pg: seq<R.Page>, a: nat)
    requires Loaded(q, t, e, m, pg) && HoldsPages(t, pg) && m.mb < |pg| && a < DATA_SIZE
    ensures var bdelta := (q.mb - Own(t)) * DATA_SIZE;
      && bdelta % DATA_SIZE == 0 && bdelta / DATA_SIZE == m.mb - Own(t)
      && 0 <= t.pid * DATA_SIZE + bdelta + a < |t.data| && Load(t, bdelta, a) == pg[m.mb][a]
  {
    assert t.pid + (q.mb - Own(t)) == Base(t) + m.mb;
    assert t.data[(Base(t) + m.mb) * DATA_SIZE + a] == pg[m.mb][a];
  }

  /** With stores pending on the selected page, the region check is the page owner's. */
  lemma BankRegions(k: Shadow, q: Locals, t: Call, e: R.Env, m: R.Core, pg: seq<R.Page>)
    requires Loaded(q, t, e, m, pg) && SeesGroup(t, e) && m.mb < |pg|
    requires k.bdelta / DATA_SIZE == m.mb - Own(t) && !k.e4 && !k.e5
    ensures var rg := R.PageRegions(e, m.mb);
      Refused(k, t) <==> (k.e1 && Covered(rg, k.a1)) || (k.e2 && Covered(rg, k.a2))
  {
    hide T.Hit, Covered, T.PaddedRegions, R.PageRegions, CfgPairs, CfgRow, Legal, R.Fits;
    var rg := R.PageRegions(e, m.mb);
    assert t.pid + k.bdelta / DATA_SIZE == Base(t) + m.mb;
    assert RegionsSeen(t, e, m.mb);
    T.PaddingHitsNothing(rg, k.a1);
    T.PaddingHitsNothing(rg, k.a2);
  }

  lemma BankRoom(t: Call, e: R.Env)
    requires t.nb > 0 && SeesGroup(t, e)
    ensures |t.bstat| > 0 && Base(t) + t.held <= |t.bstat|
  {
  }

  lemma VerdictInGroup(e: R.Env, pages: nat, mb: word)
    requires Code(R.BankVerdict(e, pages, mb)) == 0
    ensures R.BankVerdict(e, pages, mb) == Ok && mb < pages
  {
  }

  /** A cause named during the dispatch is the cause of the tick. */
  lemma NamedSettles(q: Locals, t: Call, at: int, g: Scene, cause: Cause)
    requires cause != Ok
    ensures Agrees(Fresh(q, at).(errc := NameCause(Fresh(q, at).errc, Code(cause))), q, t, g, R.Fault(cause))
  {
    hide Refused;
  }

  /** Two pending bytes on the selected page. */
  function WordPending(q: Locals, fall: int, bdelta: int, at: int, w: nat): Shadow
  {
    Fresh(q, fall).(bdelta := bdelta, a1 := at, v1 := w % 256, e1 := true,
                    a2 := at + 1, v2 := w / 256 % 256, e2 := true, s := q.s % 2, v := q.v % 2)
  }

  lemma WordSettles(q: Locals, t: Call, dec: Dec, g: Scene, at: word, w: word)
    requires Ready(q, t, dec, 2, g) && SeesGroup(t, g.e) && g.m.mb < |g.pg| && at + 1 < DATA_SIZE
    ensures Agrees(WordPending(q, q.pc + dec.len, (q.mb - Own(t)) * DATA_SIZE, at, w), q, t, g,
                   R.BankStore16(g.e, Here(g), g.pg, at, w))
  {
    hide HoldsPages, SeesGroup, Covered, Refused, CfgRow, R.PageRegions, Own;
    BankPage(q, t, g.e, g.m, g.pg, at);
    BankRegions(WordPending(q, q.pc + dec.len, (q.mb - Own(t)) * DATA_SIZE, at, w), q, t, g.e, g.m, g.pg);
  }

  /** One pending byte on the selected page. */
  function BytePending(q: Locals, fall: int, bdelta: int, at: int, b: int): Shadow
  {
    Fresh(q, fall).(bdelta := bdelta, a1 := at, v1 := b, e1 := true, s := q.s % 2, v := q.v % 2)
  }

  lemma ByteSettles(q: Locals, t: Call, dec: Dec, g: Scene, b: byte)
    requires Ready(q, t, dec, 2, g) && SeesGroup(t, g.e) && g.m.mb < |g.pg| && q.hl < DATA_SIZE
    ensures Agrees(BytePending(q, q.pc + dec.len, (q.mb - Own(t)) * DATA_SIZE, q.hl, b), q, t, g,
                   R.BankStore(g.e, Here(g), g.pg, b))
  {
    hide HoldsPages, SeesGroup, Covered, Refused, CfgRow, R.PageRegions, Own;
    BankPage(q, t, g.e, g.m, g.pg, q.hl);
    BankRegions(BytePending(q, q.pc + dec.len, (q.mb - Own(t)) * DATA_SIZE, q.hl, b), q, t, g.e, g.m, g.pg);
  }

  lemma ByteLoads(q: Locals, t: Call, dec: Dec, g: Scene)
    requires Ready(q, t, dec, 2, g) && SeesGroup(t, g.e) && g.m.mb < |g.pg| && q.hl < DATA_SIZE
    ensures var bdelta := (q.mb - Own(t)) * DATA_SIZE;
      && 0 <= t.pid * DATA_SIZE + bdelta + q.hl < |t.data|
      && Agrees(Fresh(q, q.pc + dec.len).(bdelta := bdelta, r := Wr(q.r, dec.d, Load(t, bdelta, q.hl)),
                                          s := q.s % 2, v := q.v % 2), q, t, g,
                R.BankLoad(Here(g), g.pg, dec.d))
  {
    hide HoldsPages, SeesGroup, Covered, Refused, CfgRow, R.PageRegions, Own, Load;
    BankPage(q, t, g.e, g.m, g.pg, q.hl);
  }

  lemma WordOutside(e: R.Env, m: R.Core, pg: seq<R.Page>, at: word, w: word)
    requires R.Fits(e, pg) && m.mb < |pg| && at + 1 >= DATA_SIZE
    ensures R.BankStore16(e, m, pg, at, w) == R.Fault(DataOob)
  {
  }

  lemma ByteOutside(e: R.Env, m: R.Core, pg: seq<R.Page>, d: reg)
    requires R.Fits(e, pg) && m.mb < |pg| && m.hl >= DATA_SIZE
    ensures R.BankLoad(m, pg, d) == R.Fault(DataOob)
    ensures forall b: byte :: R.BankStore(e, m, pg, b) == R.Fault(DataOob)
  {
  }

  /** What the selected page does with a byte, once the selector is settled. */
  lemma ByteAccess(q: Locals, t: Call, dec: Dec, g: Scene)
    requires Ready(q, t, dec, 2, g) && g.x == EscSel(dec.eop)
    requires dec.eop == ESC_LDM || dec.eop == ESC_STM
    ensures var verdict, o := R.BankVerdict(g.e, |g.pg|, q.mb), R.ExecBank(g.x, g.e, g.a, Here(g), g.pg);
      && Here(g).mb == q.mb && Here(g).hl == q.hl
      && (verdict != Ok ==> o == R.Fault(verdict))
      && (verdict == Ok ==> o == if dec.eop == ESC_LDM then R.BankLoad(Here(g), g.pg, dec.d)
                                 else R.BankStore(g.e, Here(g), g.pg, q.r[dec.d]))
  {
    hide EscSel, HoldsPages, CfgRow, Legal, R.BankVerdict, R.BankStore, R.BankStore16, R.BankLoad, R.LoadWord;
    BankRange(dec.eop);
  }

  /** LDM, STM. */
  method BankByteBranch(q: Locals, t: Call, dec: Dec, ghost g: Scene) returns (k: Shadow)
    requires Ready(q, t, dec, 2, g) && SeesGroup(t, g.e)
    requires dec.eop == ESC_LDM || dec.eop == ESC_STM
    requires g.x == EscSel(dec.eop)
    ensures Agrees(k, q, t, g, R.ExecBank(g.x, g.e, g.a, Here(g), g.pg))
  {
    hide EscSel, HoldsPages, SeesGroup, CfgRow, Legal, R.BankVerdict, BankRefusal, Agrees, R.BankStore,
         R.BankStore16, R.BankLoad, R.LoadWord, R.Fits, Wr, WordPending, BytePending, Load, R.ExecBank;
    ByteAccess(q, t, dec, g);
    k := Fresh(q, q.pc + dec.len);
    BankRoom(t, g.e);
    var why := BankRefusal(q.mb, t.nb, t.held, Own(t), OwnerStatus(t, q.mb));
    RefusalIsVerdict(q, t, g.e, g.m, g.pg);
    if why != 0 {
      k := k.(errc := NameCause(k.errc, why));
      NamedSettles(q, t, q.pc + dec.len, g, R.BankVerdict(g.e, |g.pg|, q.mb));
    } else {
      VerdictInGroup(g.e, |g.pg|, q.mb);
      if q.hl >= DATA_SIZE {
        k := k.(errc := NameCause(k.errc, Code(DataOob)));
        NamedSettles(q, t, q.pc + dec.len, g, DataOob);
        ByteOutside(g.e, Here(g), g.pg, dec.d);
      } else if dec.eop == ESC_LDM {
        ByteLoads(q, t, dec, g);
        var bdelta := (q.mb - Own(t)) * DATA_SIZE;
        k := k.(bdelta := bdelta, r := Wr(q.r, dec.d, Load(t, bdelta, q.hl)), s := q.s % 2, v := q.v % 2);
      } else {
        ByteSettles(q, t, dec, g, q.r[dec.d]);
        k := BytePending(q, q.pc + dec.len, (q.mb - Own(t)) * DATA_SIZE, q.hl, q.r[dec.d]);
      }
    }
  }

  /** LDMW. */
  method BankLoadBranch(q: Locals, t: Call, dec: Dec, ghost g: Scene) returns (k: Shadow)
    requires Ready(q, t, dec, 2, g) && SeesGroup(t, g.e)
    requires dec.eop == ESC_LDMW_DE_HL || dec.eop == ESC_LDMW_HL_DE
    requires g.x == EscSel(dec.eop)
    ensures Agrees(k, q, t, g, R.ExecBank(g.x, g.e, g.a, Here(g), g.pg))
  {
    hide HoldsPages, SeesGroup, Covered, Refused, CfgRow, R.BankVerdict, BankRefusal, R.PageRegions, Legal;
    k := Fresh(q, q.pc + dec.len);
    BankRoom(t, g.e);
    var why := BankRefusal(q.mb, t.nb, t.held, Own(t), OwnerStatus(t, q.mb));
    RefusalIsVerdict(q, t, g.e, g.m, g.pg);
    var own := Own(t);
    hide Own;
    if why != 0 {
      k := k.(errc := NameCause(k.errc, why));
    } else {
      VerdictInGroup(g.e, |g.pg|, q.mb);
      var at: nat := if dec.eop == ESC_LDMW_DE_HL then q.hl else q.de;
      if at + 1 >= DATA_SIZE {
        k := k.(errc := NameCause(k.errc, Code(DataOob)));
      } else {
        BankPage(q, t, g.e, g.m, g.pg, at);
        BankPage(q, t, g.e, g.m, g.pg, at + 1);
        k := k.(bdelta := (q.mb - own) * DATA_SIZE);
        var w := Word(Load(t, k.bdelta, at), Load(t, k.bdelta, at + 1));
        if dec.eop == ESC_LDMW_DE_HL {
          k := k.(de := w);
        } else {
          k := k.(hl := w);
        }
        k := k.(s := q.s % 2, v := q.v % 2);
      }
    }
  }

  /** STMW. */
  method BankStoreBranch(q: Locals, t: Call, dec: Dec, ghost g: Scene) returns (k: Shadow)
    requires Ready(q, t, dec, 2, g) && SeesGroup(t, g.e)
    requires dec.eop == ESC_STMW_HL_DE || dec.eop == ESC_STMW_DE_HL
    requires g.x == EscSel(dec.eop)
    ensures Agrees(k, q, t, g, R.ExecBank(g.x, g.e, g.a, Here(g), g.pg))
  {
    hide EscSel, HoldsPages, SeesGroup, CfgRow, Legal, R.BankVerdict, BankRefusal, Agrees, R.BankStore,
         R.BankStore16, R.BankLoad, R.LoadWord, R.Fits, WordPending, BytePending, Load;
    BankRange(dec.eop);
    k := Fresh(q, q.pc + dec.len);
    BankRoom(t, g.e);
    var why := BankRefusal(q.mb, t.nb, t.held, Own(t), OwnerStatus(t, q.mb));
    RefusalIsVerdict(q, t, g.e, g.m, g.pg);
    if why != 0 {
      k := k.(errc := NameCause(k.errc, why));
      NamedSettles(q, t, q.pc + dec.len, g, R.BankVerdict(g.e, |g.pg|, q.mb));
    } else {
      VerdictInGroup(g.e, |g.pg|, q.mb);
      var at: nat := if dec.eop == ESC_STMW_HL_DE then q.hl else q.de;
      var w: nat := if dec.eop == ESC_STMW_HL_DE then q.de else q.hl;
      if at + 1 >= DATA_SIZE {
        k := k.(errc := NameCause(k.errc, Code(DataOob)));
        NamedSettles(q, t, q.pc + dec.len, g, DataOob);
        WordOutside(g.e, Here(g), g.pg, at, w);
      } else {
        k := WordPending(q, q.pc + dec.len, (q.mb - Own(t)) * DATA_SIZE, at, w);
        WordSettles(q, t, dec, g, at, w);
      }
    }
  }

  // -------------------------------------------------------------------- traps

  /** The vector the dispatch reads: the DATA table when one is declared, else the block's. */
  function VectorAt(t: Call, k: nat): nat
    requires t.pid < |t.cfg| && |t.cfg[t.pid]| == CFG_LEN && k < VEC_COUNT
    requires 0 <= t.cfg[t.pid][CFG_VTAB] && t.cfg[t.pid][CFG_VTAB] + VTAB_CELLS <= DATA_SIZE
    requires (t.pid + 1) * DATA_SIZE <= |t.data| && t.cfg[t.pid][k] >= 0
  {
    var row := t.cfg[t.pid];
    if row[CFG_HASVTAB] == 1 then
      Word(Load(t, 0, row[CFG_VTAB] + 2 * k), Load(t, 0, row[CFG_VTAB] + 2 * k + 1))
    else row[k]
  }

  lemma VectorAgrees(q: Locals, t: Call, e: R.Env, m: R.Core, pg: seq<R.Page>, k: nat)
    requires R.Fits(e, pg) && Loaded(q, t, e, m, pg) && HoldsPages(t, pg) && k < VEC_COUNT
    ensures var row := t.cfg[t.pid];
      && 0 <= row[CFG_VTAB] && row[CFG_VTAB] + VTAB_CELLS <= DATA_SIZE && row[k] >= 0
      && (t.pid + 1) * DATA_SIZE <= |t.data| && VectorAt(t, k) == R.Vector(e, pg, k)
  {
    OwnPage(t, pg, 0);
    assert Base(t) + Own(t) == t.pid;
    if e.cf.vtab.Some? {
      OwnPage(t, pg, e.cf.vtab.value + 2 * k);
      OwnPage(t, pg, e.cf.vtab.value + 2 * k + 1);
    }
    hide T.PaddedRegions;
  }

  /** The frame goes through four pending stores; then the target, then the regions. */
  method EnterBranch(q: Locals, t: Call, dec: Dec, to: word, ghost g: Scene) returns (k: Shadow)
    requires Ready(q, t, dec, 2, g)
    ensures Agrees(k, q, t, g, R.EnterAt(g.e, to, Here(g), g.pg))
  {
    hide Own, HoldsPages, Covered, Refused, CfgRow, R.StackCovered, Or, Legal;
    k := Fresh(q, q.pc + dec.len);
    if q.sp - q.splim < 4 || q.sp > DATA_SIZE {
      k := k.(errc := NameCause(k.errc, Code(StackOverflow)));
    } else {
      var ret := q.pc + dec.len;
      R.FlagsByteIsSum(q.z, q.c, q.s, q.v);
      k := k.(a1 := q.sp - 1, v1 := TRAP_TAG, e1 := true, a2 := q.sp - 2,
              v2 := q.z + 2 * q.c + 4 * q.s + 8 * q.v, e2 := true, a4 := q.sp - 3, v4 := ret % 256,
              e4 := true, a5 := q.sp - 4, v5 := ret / 256 % 256, e5 := true, sp := q.sp - 4,
              pc := to, td := q.td + 1, pcw := true);
      OwnRegions(k, t, g.e);
      R.StackCoveredCells(g.e.cf, Here(g));
    }
  }

  /** EXT. */
  method ExtBranch(q: Locals, t: Call, dec: Dec, ghost g: Scene) returns (k: Shadow)
    requires Ready(q, t, dec, 2, g)
    requires dec.eop == ESC_EXT && dec.len == 3
    requires g.x == EscSel(dec.eop)
    ensures Agrees(k, q, t, g, R.ExecTrap(g.x, g.e, g.a, Here(g), g.pg))
  {
    hide Own, HoldsPages, Covered, Refused, CfgRow, R.StackCovered, VectorAt, R.Vector, R.EnterAt, Legal;
    k := Fresh(q, q.pc + dec.len);
    var i := t.code[q.pc + 2];
    if i >= VEC_COUNT {
      k := k.(errc := NameCause(k.errc, Code(TrapUnreg)));
    } else {
      VectorAgrees(q, t, g.e, g.m, g.pg, i);
      var to := VectorAt(t, i);
      if to == 0 {
        k := k.(errc := NameCause(k.errc, Code(TrapUnreg)));
      } else if q.td == t.tdlim {
        k := k.(errc := NameCause(k.errc, Code(TrapDepth)));
      } else {
        k := EnterBranch(q, t, dec, to, g);
      }
    }
  }

  /** What TRAPRET's shadow holds, once the frame has been read. */
  function Returned(q: Locals, at: int, hi: byte, lo: byte, fb: byte): Shadow
  {
    Fresh(q, at).(pc := 256 * hi + lo, sp := q.sp + 4, z := fb % 2, cWr := true, cNew := fb / 2 % 2,
                  s := fb / 4 % 2, v := fb / 8 % 2, td := q.td - 1, pcw := true)
  }

  lemma ReturnedScalars(q: Locals, at: int, hi: byte, lo: byte, fb: byte, m: R.Core, splim: nat)
    requires q == LocalsOf(m, splim) && m.td > 0 && m.sp + 4 <= DATA_SIZE
    ensures var k := Returned(q, at, hi, lo, fb);
      LandsScalars(k, q, m, R.Unpacked(m, fb).(sp := m.sp + 4, td := m.td - 1, pc := Word(lo, hi)))
  {
    var c: int := fb / 2 % 2;
    assert c % 2 == c;
  }

  lemma ReturnedSettles(q: Locals, t: Call, dec: Dec, g: Scene, hi: byte, lo: byte, fb: byte)
    requires Ready(q, t, dec, 2, g) && q.td > 0 && q.sp + 4 <= DATA_SIZE
    requires var d := R.Data(g.e, g.pg);
      d[q.sp] == hi && d[q.sp + 1] == lo && d[q.sp + 2] == fb && d[q.sp + 3] == TRAP_TAG
    ensures Agrees(Returned(q, q.pc + dec.len, hi, lo, fb), q, t, g, R.TrapLeave(g.e, Here(g), g.pg))
  {
    hide HoldsPages, Own, CfgRow, Refused, LandsScalars, R.Unpacked;
    ReturnedScalars(q, q.pc + dec.len, hi, lo, fb, g.m, g.e.cf.splim);
    UnpackedFrame(g.m, fb, g.fall, Word(lo, hi));
  }

  /** The PC a frame returns to replaces the one behind the instruction. */
  lemma UnpackedFrame(m: R.Core, fb: byte, fall: word, to: word)
    requires m.td > 0 && m.sp + 4 <= DATA_SIZE
    ensures R.Unpacked(m.(pc := fall), fb).(sp := m.sp + 4, td := m.td - 1).(pc := to)
            == R.Unpacked(m, fb).(sp := m.sp + 4, td := m.td - 1, pc := to)
    ensures R.Unpacked(m, fb).out == m.out && R.Unpacked(m, fb).code == m.code
  {
  }

  lemma FrameRefused(q: Locals, t: Call, dec: Dec, g: Scene)
    requires Ready(q, t, dec, 2, g)
    ensures var o := R.TrapLeave(g.e, Here(g), g.pg);
      var k := Fresh(q, q.pc + dec.len);
      o.Fault? ==> Agrees(k.(errc := NameCause(k.errc, Code(o.cause))), q, t, g, o) || o.cause == PcIllegal
    ensures q.td == 0 ==> R.TrapLeave(g.e, Here(g), g.pg) == R.Fault(TrapUnbalanced)
    ensures q.td > 0 && q.sp + 4 > DATA_SIZE ==> R.TrapLeave(g.e, Here(g), g.pg) == R.Fault(StackUnderflow)
    ensures q.td > 0 && q.sp + 4 <= DATA_SIZE && R.Data(g.e, g.pg)[q.sp + 3] != TRAP_TAG ==>
      R.TrapLeave(g.e, Here(g), g.pg) == R.Fault(TrapFrame)
  {
    hide HoldsPages, Own, CfgRow, Refused, LandsScalars, R.Unpacked;
  }

  /** TRAPRET. */
  method TrapReturnBranch(q: Locals, t: Call, dec: Dec, ghost g: Scene) returns (k: Shadow)
    requires Ready(q, t, dec, 2, g)
    requires dec.eop == ESC_TRAPRET
    requires g.x == EscSel(dec.eop)
    ensures Agrees(k, q, t, g, R.ExecTrap(g.x, g.e, g.a, Here(g), g.pg))
  {
    hide EscSel, CfgRow, Legal, Own, HoldsPages, Load, Returned, R.TrapEnter, R.TrapLeave, Agrees;
    HighProductRange(dec.eop);
    k := Fresh(q, q.pc + dec.len);
    if q.td == 0 {
      k := k.(errc := NameCause(k.errc, Code(TrapUnbalanced)));
      FrameRefused(q, t, dec, g);
    } else if q.sp + 4 > DATA_SIZE {
      k := k.(errc := NameCause(k.errc, Code(StackUnderflow)));
      FrameRefused(q, t, dec, g);
    } else {
      OwnPage(t, g.pg, q.sp);
      OwnPage(t, g.pg, q.sp + 1);
      OwnPage(t, g.pg, q.sp + 2);
      OwnPage(t, g.pg, q.sp + 3);
      var fb := Load(t, 0, q.sp + 2);
      if Load(t, 0, q.sp + 3) != TRAP_TAG {
        k := k.(errc := NameCause(k.errc, Code(TrapFrame)));
        FrameRefused(q, t, dec, g);
      } else {
        var hi, lo := Load(t, 0, q.sp), Load(t, 0, q.sp + 1);
        ReturnedSettles(q, t, dec, g, hi, lo, fb);
        k := Returned(q, q.pc + dec.len, hi, lo, fb);
      }
    }
  }

  // ------------------------------------------------------------------ the dispatch

  /** The family of each range of the single-byte space. */
  function SingleFamily(op: byte): int
  {
    if op <= 0x05 then 1 else if op <= 0x07 then 5 else if op == 0x08 then 3
    else if op <= 0x0D then 2 else if op == 0x0E then 3 else if op <= 0x12 then 1
    else if op == 0x13 then 2 else if op <= 0x6B then 0 else if op <= 0x6F then 2
    else if op <= 0x7F then 8 else if op <= 0xDF then 0 else if op <= 0xEF then 4
    else if op <= 0xF7 then 3 else 5
  }

  lemma SingleFamilyLow(op: byte)
    requires op < 0x60
    ensures R.Family(SingleRow(op).sel) == SingleFamily(op)
  {
  }

  lemma SingleFamilyHigh(op: byte)
    requires 0x60 <= op
    ensures R.Family(SingleRow(op).sel) == SingleFamily(op)
  {
  }

  lemma FamilyOfSingle(op: byte)
    ensures R.Family(SingleRow(op).sel) == SingleFamily(op)
  {
    hide R.Family, SingleRow, SingleFamily;
    if op < 0x60 {
      SingleFamilyLow(op);
    } else {
      SingleFamilyHigh(op);
    }
  }

  /** The arithmetic ranges. */
  method ComputeBranch(q: Locals, t: Call, dec: Dec, ghost g: Scene) returns (k: Shadow)
    requires Ready(q, t, dec, 1, g)
    requires dec.eop < 256 && dec == DecFirst(dec.eop) && g.x == SingleRow(dec.eop).sel
    requires SingleFamily(dec.eop) == 0
    ensures Agrees(k, q, t, g, R.ExecAlu(g.x, g.a, g.m.pc, Here(g), g.pg))
  {
    hide Ready, IsResult, Agrees, R.AluOf, SingleRow, R.ExecAlu;
    if dec.eop <= 0x1F {
      k := SelfBranch(q, t, dec, g);
    } else if dec.eop <= 0x5F {
      k := LogicBranch(q, t, dec, g);
    } else if dec.eop <= 0x6B {
      k := ShiftBranch(q, t, dec, g);
    } else if dec.eop <= 0xCF {
      k := ArithBranch(q, t, dec, g);
    } else {
      k := ImmediateBranch(q, t, dec, g);
    }
    NeverDivides(dec.eop);
    ResultSettles(k, q, t, dec, 1, g);
  }

  lemma NeverDivides(op: byte)
    ensures !SingleRow(op).sel.Div? && !SingleRow(op).sel.Mod?
  {
  }

  method PointerRanges(q: Locals, t: Call, dec: Dec, ghost g: Scene) returns (k: Shadow)
    requires Ready(q, t, dec, 1, g)
    requires dec.eop < 256 && dec == DecFirst(dec.eop) && g.x == SingleRow(dec.eop).sel
    requires SingleFamily(dec.eop) == 1
    ensures Agrees(k, q, t, g, R.ExecPointer(g.x, g.a, Here(g), g.pg))
  {
    hide Ready, Agrees, SingleRow, R.ExecPointer;
    if dec.eop <= 0x05 {
      k := CountBranch(q, t, dec, g);
    } else if dec.eop <= 0x10 {
      k := LoadWordBranch(q, t, dec, g);
    } else {
      k := IndexBranch(q, t, dec, g);
    }
  }

  method BranchRanges(q: Locals, t: Call, dec: Dec, ghost g: Scene) returns (k: Shadow)
    requires Ready(q, t, dec, 1, g)
    requires dec.eop < 256 && dec == DecFirst(dec.eop) && g.x == SingleRow(dec.eop).sel
    requires SingleFamily(dec.eop) == 2
    ensures Agrees(k, q, t, g, R.ExecBranch(g.x, g.e.cf, g.a, Here(g), g.pg))
  {
    hide Ready, Agrees, SingleRow, R.ExecBranch;
    if dec.eop <= 0x0D {
      k := JumpBranch(q, t, dec, g);
    } else if dec.eop == 0x13 {
      k := JumpHlBranch(q, t, dec, g);
    } else {
      k := DjnzBranch(q, t, dec, g);
    }
  }

  method StackRanges(q: Locals, t: Call, dec: Dec, ghost g: Scene) returns (k: Shadow)
    requires Ready(q, t, dec, 1, g)
    requires dec.eop < 256 && dec == DecFirst(dec.eop) && g.x == SingleRow(dec.eop).sel
    requires SingleFamily(dec.eop) == 3
    ensures Agrees(k, q, t, g, R.ExecStack(g.x, g.e, g.a, Here(g), g.pg))
  {
    hide Agrees, SingleRow, R.ExecStack, HoldsPages, Own, Loaded, Decoded;
    if dec.eop == 0x08 {
      k := ReturnBranch(q, t, dec, g);
    } else if dec.eop == 0x0E {
      k := CallBranch(q, t, dec, g);
    } else if dec.eop < 0xF4 {
      k := PushBranch(q, t, dec, g);
    } else {
      k := PopBranch(q, t, dec, g);
    }
  }

  method MemoryRanges(q: Locals, t: Call, dec: Dec, ghost g: Scene) returns (k: Shadow)
    requires Ready(q, t, dec, 1, g)
    requires dec.eop < 256 && dec == DecFirst(dec.eop) && g.x == SingleRow(dec.eop).sel
    requires SingleFamily(dec.eop) == 4
    ensures Agrees(k, q, t, g, R.ExecMemory(g.x, g.e, g.a, Here(g), g.pg))
  {
    hide Agrees, SingleRow, R.ExecMemory, HoldsPages, Own, Loaded, Decoded;
    if dec.eop < 0xE4 || 0xE8 <= dec.eop < 0xEC {
      k := LoadBranch(q, t, dec, g);
    } else {
      k := StoreBranch(q, t, dec, g);
    }
  }

  method StreamRanges(q: Locals, t: Call, dec: Dec, ghost g: Scene) returns (k: Shadow)
    requires Ready(q, t, dec, 1, g)
    requires dec.eop < 256 && dec == DecFirst(dec.eop) && g.x == SingleRow(dec.eop).sel
    requires SingleFamily(dec.eop) == 5
    ensures Agrees(k, q, t, g, R.ExecStream(g.x, g.e, g.a, Here(g), g.pg))
  {
    hide Agrees, SingleRow, R.ExecStream, HoldsPages, Own, Loaded, Decoded;
    if dec.eop <= 0x07 {
      k := EmitBranch(q, t, dec, g);
    } else {
      k := PortBranch(q, t, dec, g);
    }
  }

  /** The single-byte half of the chain. */
  method Single(q: Locals, t: Call, dec: Dec, ghost g: Scene) returns (k: Shadow)
    requires Ready(q, t, dec, 1, g)
    requires dec.eop < 256 && dec == DecFirst(dec.eop) && g.x == SingleRow(dec.eop).sel
    requires SingleFamily(dec.eop) != 8
    ensures Agrees(k, q, t, g, R.Exec(g.x, g.e, g.a, g.m.pc, Here(g), g.pg))
  {
    hide Agrees, SingleRow, DecFirst, HoldsPages, Own, Loaded, Decoded, R.Family, R.ExecAlu, R.ExecPointer,
         R.ExecBranch, R.ExecStack, R.ExecMemory, R.ExecStream, R.ExecBank, R.ExecTrap;
    FamilyOfSingle(dec.eop);
    var f := SingleFamily(dec.eop);
    hide SingleFamily;
    if f == 0 {
      k := ComputeBranch(q, t, dec, g);
    } else if f == 1 {
      k := PointerRanges(q, t, dec, g);
    } else if f == 2 {
      k := BranchRanges(q, t, dec, g);
    } else if f == 3 {
      k := StackRanges(q, t, dec, g);
    } else if f == 4 {
      k := MemoryRanges(q, t, dec, g);
    } else {
      k := StreamRanges(q, t, dec, g);
    }
  }

  /** The family of each escape effective opcode. */
  function EscFamily(eop: nat): int
  {
    if eop <= ESC_ROR then 0 else if eop <= ESC_XCHG then 1 else if eop == ESC_EXT then 7
    else if eop <= ESC_LDC then 4 else if eop == ESC_BAD then 8 else if eop <= ESC_MOVW_SP_DE then 1
    else if eop <= ESC_POPW_DE then 3 else if eop <= ESC_STX then 4 else if eop == ESC_ADD_SP then 1
    else if eop == ESC_MULH then 0 else if eop <= ESC_STMW_DE_HL then 6
    else if eop <= ESC_MOV_HL_MB then 1 else if eop <= ESC_VC then 2
    else if eop == ESC_TRAPRET then 7 else 3
  }

  lemma EscFamilyLow(eop: nat)
    requires ESC_BASE <= eop < ESC_PUSHW_HL
    ensures R.Family(EscSel(eop)) == EscFamily(eop)
  {
  }

  lemma EscFamilyBank(eop: nat)
    requires ESC_MULH < eop <= ESC_MOV_HL_MB
    ensures R.Family(EscSel(eop)) == EscFamily(eop)
  {
  }

  lemma EscFamilyFrame(eop: nat)
    requires ESC_PUSHW_HL <= eop <= ESC_MULH
    ensures R.Family(EscSel(eop)) == EscFamily(eop)
  {
  }

  lemma EscFamilyTop(eop: nat)
    requires ESC_MOV_HL_MB < eop <= ESC_CALL_HL
    ensures R.Family(EscSel(eop)) == EscFamily(eop)
  {
  }

  lemma EscFamilyHigh(eop: nat)
    requires ESC_PUSHW_HL <= eop <= ESC_CALL_HL
    ensures R.Family(EscSel(eop)) == EscFamily(eop)
  {
    hide R.Family, EscSel, EscFamily;
    if eop <= ESC_MULH {
      EscFamilyFrame(eop);
    } else if eop <= ESC_MOV_HL_MB {
      EscFamilyBank(eop);
    } else {
      EscFamilyTop(eop);
    }
  }

  lemma FamilyOfEscape(eop: nat)
    requires ESC_BASE <= eop <= ESC_CALL_HL
    ensures R.Family(EscSel(eop)) == EscFamily(eop)
  {
    hide R.Family, EscSel, EscFamily;
    if eop < ESC_PUSHW_HL {
      EscFamilyLow(eop);
    } else {
      EscFamilyHigh(eop);
    }
  }

  /** How long the escape encodings are that carry an operand byte. */
  predicate EscLength(dec: Dec)
  {
    (dec.eop == ESC_ADD_SP || ESC_JS <= dec.eop <= ESC_VC || dec.eop == ESC_EXT
     || dec.eop == ESC_LDX || dec.eop == ESC_STX) ==> dec.len == 3
  }

  method EscCompute(q: Locals, t: Call, dec: Dec, ghost g: Scene) returns (k: Shadow)
    requires Ready(q, t, dec, 2, g) && g.x == EscSel(dec.eop) && ESC_BASE <= dec.eop
    requires EscFamily(dec.eop) == 0
    ensures Agrees(k, q, t, g, R.ExecAlu(g.x, g.a, g.m.pc, Here(g), g.pg))
  {
    hide Ready, IsResult, Agrees, R.AluOf, R.ExecAlu;
    if dec.eop <= ESC_MOD {
      k := DivideBranch(q, t, dec, g);
    } else {
      if dec.eop == ESC_CMP {
        k := CompareBranch(q, t, dec, g);
      } else if dec.eop <= ESC_ROR {
        k := UnaryBranch(q, t, dec, g);
      } else {
        k := HighProductBranch(q, t, dec, g);
      }
      ResultSettles(k, q, t, dec, 2, g);
    }
  }

  method EscPointer(q: Locals, t: Call, dec: Dec, ghost g: Scene) returns (k: Shadow)
    requires Ready(q, t, dec, 2, g) && g.x == EscSel(dec.eop) && ESC_BASE <= dec.eop && EscLength(dec)
    requires EscFamily(dec.eop) == 1
    ensures Agrees(k, q, t, g, R.ExecPointer(g.x, g.a, Here(g), g.pg))
  {
    hide Ready, Agrees, EscSel, R.ExecPointer;
    if dec.eop <= ESC_XCHG || dec.eop >= ESC_MOV_MB_HL {
      k := PairBranch(q, t, dec, g);
    } else if dec.eop <= ESC_MOVW_SP_DE {
      k := MovePointerBranch(q, t, dec, g);
    } else {
      k := AddSpBranch(q, t, dec, g);
    }
  }

  method EscStack(q: Locals, t: Call, dec: Dec, ghost g: Scene) returns (k: Shadow)
    requires Ready(q, t, dec, 2, g) && g.x == EscSel(dec.eop) && ESC_BASE <= dec.eop <= ESC_CALL_HL
    requires EscFamily(dec.eop) == 3
    ensures Agrees(k, q, t, g, R.ExecStack(g.x, g.e, g.a, Here(g), g.pg))
  {
    hide Agrees, EscSel, R.ExecStack, HoldsPages, Own, Loaded, Decoded;
    if dec.eop <= ESC_PUSHW_DE {
      k := PushWordBranch(q, t, dec, g);
    } else if dec.eop <= ESC_POPW_DE {
      k := PopWordBranch(q, t, dec, g);
    } else {
      k := CallHlBranch(q, t, dec, g);
    }
  }

  method EscMemory(q: Locals, t: Call, dec: Dec, ghost g: Scene) returns (k: Shadow)
    requires Ready(q, t, dec, 2, g) && g.x == EscSel(dec.eop) && ESC_BASE <= dec.eop && EscLength(dec)
    requires EscFamily(dec.eop) == 4
    ensures Agrees(k, q, t, g, R.ExecMemory(g.x, g.e, g.a, Here(g), g.pg))
  {
    hide Agrees, EscSel, R.ExecMemory, HoldsPages, Own, Loaded, Decoded;
    if dec.eop <= ESC_LDC {
      k := CodeBranch(q, t, dec, g);
    } else if dec.eop <= ESC_STW_DEHL {
      k := StoreWordBranch(q, t, dec, g);
    } else if dec.eop <= ESC_LDW_HLDE {
      k := LoadPairBranch(q, t, dec, g);
    } else {
      k := FrameBranch(q, t, dec, g);
    }
  }

  method EscBank(q: Locals, t: Call, dec: Dec, ghost g: Scene) returns (k: Shadow)
    requires Ready(q, t, dec, 2, g) && SeesGroup(t, g.e)
    requires g.x == EscSel(dec.eop) && ESC_BASE <= dec.eop && EscFamily(dec.eop) == 6
    ensures Agrees(k, q, t, g, R.ExecBank(g.x, g.e, g.a, Here(g), g.pg))
  {
    hide Agrees, EscSel, R.ExecBank, HoldsPages, Own, Loaded, Decoded, SeesGroup;
    if dec.eop <= ESC_STM {
      k := BankByteBranch(q, t, dec, g);
    } else if dec.eop <= ESC_LDMW_HL_DE {
      k := BankLoadBranch(q, t, dec, g);
    } else {
      k := BankStoreBranch(q, t, dec, g);
    }
  }

  /** The escape half of the chain. */
  method Escape(q: Locals, t: Call, dec: Dec, ghost g: Scene) returns (k: Shadow)
    requires Ready(q, t, dec, 2, g) && SeesGroup(t, g.e)
    requires g.x == EscSel(dec.eop) && ESC_BASE <= dec.eop <= ESC_CALL_HL && EscLength(dec)
    requires dec.eop != ESC_BAD
    ensures Agrees(k, q, t, g, R.Exec(g.x, g.e, g.a, g.m.pc, Here(g), g.pg))
  {
    hide Agrees, EscSel, HoldsPages, Own, Loaded, Decoded, SeesGroup, R.Family, R.ExecAlu, R.ExecPointer,
         R.ExecBranch, R.ExecStack, R.ExecMemory, R.ExecStream, R.ExecBank, R.ExecTrap;
    FamilyOfEscape(dec.eop);
    var f := EscFamily(dec.eop);
    if f == 0 {
      k := EscCompute(q, t, dec, g);
    } else if f == 1 {
      k := EscPointer(q, t, dec, g);
    } else if f == 2 {
      k := RelativeBranch(q, t, dec, g);
    } else if f == 3 {
      k := EscStack(q, t, dec, g);
    } else if f == 4 {
      k := EscMemory(q, t, dec, g);
    } else if f == 6 {
      k := EscBank(q, t, dec, g);
    } else if dec.eop == ESC_EXT {
      k := ExtBranch(q, t, dec, g);
    } else {
      k := TrapReturnBranch(q, t, dec, g);
    }
  }

  lemma FetchRefuses(e: R.Env, m: R.Core, pg: seq<R.Page>)
    requires R.Fits(e, pg)
    ensures m.pc >= e.cf.codelen ==> R.Step(e, m, pg) == R.Fault(FetchOob)
    ensures m.pc < e.cf.codelen && m.code[m.pc] == ESCAPE_PREFIX && m.pc + 2 > e.cf.codelen ==>
      R.Step(e, m, pg) == R.Fault(FetchOob)
  {
    hide R.Exec, EscapeRow, SingleRow;
  }

  lemma FetchSingle(e: R.Env, m: R.Core, pg: seq<R.Page>)
    requires R.Fits(e, pg) && m.pc < e.cf.codelen && m.code[m.pc] != ESCAPE_PREFIX
    ensures var op := m.code[m.pc];
      var row, dec := SingleRow(op), DecFirst(op);
      var fall := m.pc + dec.len;
      var at := m.pc + 1;
      && dec.len == 1 + row.l && dec.d == row.s0 && dec.s == row.s1 && dec.eop == op
      && (row.sel.Bad? ==> R.Step(e, m, pg) == R.Fault(BadOpcode))
      && (!row.sel.Bad? && fall > e.cf.codelen ==> R.Step(e, m, pg) == R.Fault(FetchOob))
      && (!row.sel.Bad? && fall <= e.cf.codelen ==>
            var a := R.Args(row.s0, row.s1, if row.l >= 1 then m.code[at] else 0,
                            if row.l >= 2 then m.code[at + 1] else 0);
            R.Step(e, m, pg) == R.Exec(row.sel, e, a, m.pc, m.(pc := fall), pg))
  {
    hide R.Exec, EscapeRow, SingleRow, DecFirst;
    DecFirstAgrees(m.code[m.pc]);
  }

  lemma FetchEscape(e: R.Env, m: R.Core, pg: seq<R.Page>)
    requires R.Fits(e, pg) && m.pc + 2 <= e.cf.codelen && m.code[m.pc] == ESCAPE_PREFIX
    ensures var sub := m.code[m.pc + 1];
      var row, dec := EscapeRow(sub), DecEsc(sub);
      var fall := m.pc + PREFIX_BYTES + dec.len;
      var at := m.pc + PREFIX_BYTES;
      && dec.len == row.l && dec.d == row.s0 && dec.s == row.s1 && EscSel(dec.eop) == row.sel
      && (row.sel.Bad? ==> R.Step(e, m, pg) == R.Fault(BadSubcode))
      && (!row.sel.Bad? && fall > e.cf.codelen ==> R.Step(e, m, pg) == R.Fault(FetchOob))
      && (!row.sel.Bad? && fall <= e.cf.codelen ==>
            var a := R.Args(row.s0, row.s1, if row.l >= 1 then m.code[at] else 0, 0);
            R.Step(e, m, pg) == R.Exec(row.sel, e, a, m.pc, m.(pc := fall), pg))
  {
    hide R.Exec, EscapeRow, SingleRow, DecEsc, EscSel;
    DecEscAgrees(m.code[m.pc + 1]);
  }

  lemma BadSingle(op: byte)
    ensures op != ESCAPE_PREFIX ==> (SingleRow(op).sel.Bad? <==> SingleFamily(op) == 8)
  {
    FamilyOfSingle(op);
    hide SingleRow, SingleFamily;
  }

  lemma BadEscape(sub: byte)
    ensures var dec := DecEsc(sub);
      && ESC_BASE <= dec.eop <= ESC_CALL_HL && (EscSel(dec.eop).Bad? <==> dec.eop == ESC_BAD)
      && EscLength(dec.(len := 2 + dec.len)) && (dec.eop == ESC_BAD ==> dec.len == 0)
  {
    DecEscAgrees(sub);
    hide EscSel;
    FamilyOfEscape(DecEsc(sub).eop);
  }

  /** The whole shadow of one tick: what commits, or the cause that withholds it, is what the
      reference decides. The operand bound, which opens every branch that takes operands,
      stands once in front of the chain. */
  method Compute(q: Locals, t: Call, ghost e: R.Env, ghost m: R.Core, ghost pg: seq<R.Page>)
      returns (k: Shadow)
    requires R.Fits(e, pg) && Loaded(q, t, e, m, pg) && HoldsPages(t, pg) && SeesGroup(t, e)
    ensures Settles(k, q, t, e.bank.own, m, pg, R.Step(e, m, pg))
  {
    hide HoldsPages, SeesGroup, Own, CfgRow, R.Step, R.Exec, EscSel, EscapeRow, SingleRow, Settles,
         SingleFamily, EscLength;
    FetchRefuses(e, m, pg);
    k := Fresh(q, q.pc + 1);
    if q.pc >= t.codelen {
      k := k.(errc := NameCause(k.errc, Code(FetchOob)));
      RefusalSettles(k, q, t, e, m, pg, FetchOob);
      return;
    }
    var op := t.code[q.pc];
    if op == ESCAPE_PREFIX {
      if q.pc + PREFIX_BYTES > t.codelen {
        k := k.(errc := NameCause(k.errc, Code(FetchOob)));
        RefusalSettles(k, q, t, e, m, pg, FetchOob);
        return;
      }
      k := EscapeTick(q, t, e, m, pg);
    } else {
      k := SingleTick(q, t, e, m, pg);
    }
  }

  lemma RefusalSettles(k: Shadow, q: Locals, t: Call, e: R.Env, m: R.Core, pg: seq<R.Page>, c: Cause)
    requires R.Fits(e, pg) && R.Step(e, m, pg) == R.Fault(c) && c != Ok
    requires k == Fresh(q, k.pc).(errc := Code(c))
    ensures Settles(k, q, t, e.bank.own, m, pg, R.Step(e, m, pg))
  {
    hide R.Step;
  }

  method SingleTick(q: Locals, t: Call, ghost e: R.Env, ghost m: R.Core, ghost pg: seq<R.Page>)
      returns (k: Shadow)
    requires R.Fits(e, pg) && Loaded(q, t, e, m, pg) && HoldsPages(t, pg)
    requires q.pc < t.codelen && t.code[q.pc] != ESCAPE_PREFIX
    ensures Settles(k, q, t, e.bank.own, m, pg, R.Step(e, m, pg))
  {
    hide HoldsPages, Own, CfgRow, R.Step, R.Exec, SingleRow, Settles, SingleFamily, DecFirst;
    var op := t.code[q.pc];
    var dec := DecFirst(op);
    FetchSingle(e, m, pg);
    BadSingle(op);
    k := Fresh(q, q.pc + dec.len);
    if SingleFamily(op) == 8 {
      k := k.(errc := NameCause(k.errc, Code(BadOpcode)));
      RefusalSettles(k, q, t, e, m, pg, BadOpcode);
    } else if q.pc + dec.len > t.codelen {
      k := k.(errc := NameCause(k.errc, Code(FetchOob)));
      RefusalSettles(k, q, t, e, m, pg, FetchOob);
    } else {
      ghost var row := SingleRow(op);
      ghost var a := R.Args(row.s0, row.s1, if row.l >= 1 then m.code[m.pc + 1] else 0,
                            if row.l >= 2 then m.code[m.pc + 2] else 0);
      k := Single(q, t, dec, Scene(e, m, pg, row.sel, a, q.pc + dec.len));
    }
  }

  method EscapeTick(q: Locals, t: Call, ghost e: R.Env, ghost m: R.Core, ghost pg: seq<R.Page>)
      returns (k: Shadow)
    requires R.Fits(e, pg) && Loaded(q, t, e, m, pg) && HoldsPages(t, pg) && SeesGroup(t, e)
    requires q.pc + PREFIX_BYTES <= t.codelen && t.code[q.pc] == ESCAPE_PREFIX
    ensures Settles(k, q, t, e.bank.own, m, pg, R.Step(e, m, pg))
  {
    hide HoldsPages, SeesGroup, Own, CfgRow, R.Step, R.Exec, EscapeRow, EscSel, Settles, DecEsc, EscLength;
    var sub := t.code[q.pc + 1];
    var esc := DecEsc(sub);
    var dec := Dec(esc.eop, esc.d, esc.s, PREFIX_BYTES + esc.len);
    FetchEscape(e, m, pg);
    BadEscape(sub);
    k := Fresh(q, q.pc + dec.len);
    if q.pc + dec.len > t.codelen {
      k := k.(errc := NameCause(k.errc, Code(FetchOob)));
      RefusalSettles(k, q, t, e, m, pg, FetchOob);
    } else if dec.eop == ESC_BAD {
      k := k.(errc := NameCause(k.errc, Code(BadSubcode)));
      RefusalSettles(k, q, t, e, m, pg, BadSubcode);
    } else {
      ghost var row := EscapeRow(sub);
      ghost var a := R.Args(row.s0, row.s1, if row.l >= 1 then m.code[m.pc + 2] else 0, 0);
      k := Escape(q, t, dec, Scene(e, m, pg, row.sel, a, q.pc + dec.len));
    }
  }

}
