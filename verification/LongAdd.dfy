/** Multi-byte addition as the machine runs it: an ADC chain over two little-endian operands,
    then a loop that emits the sum. The claim is about the machine's own runs. */
module LongAdd {
  import opened Bits
  import opened Isa
  import opened Reference
  import I = Invariants
  import M = Machine

  /** The assembled program. */
  const PROGRAM: seq<byte> := [
    0x0F, 0x00, 0x00,  // 00  LDI HL, 0
    0xE2,              // 03  MOV r2, [HL]
    0xCE,              // 04  MOV r3, r2
    0x0F, 0x01, 0x00,  // 05  LDI HL, 1
    0x10, 0x01, 0x00,  // 08  LDI DE, 1
    0x12, 0x03,        // 0B  ADDI DE, r3
    0x05,              // 0D  CLC
    0xE0,              // 0E  loop: MOV r0, [HL]
    0xE9,              // 0F  MOV r1, [DE]
    0xA1,              // 10  ADC r0, r1
    0xEC,              // 11  MOV [DE], r0
    0x02,              // 12  INC HL
    0x04,              // 13  INC DE
    0x6E, 0x0E, 0x00,  // 14  DJNZ r2, loop
    0xD0, 0x00,        // 17  LDI r0, 0
    0xA0,              // 19  ADC r0, r0
    0xEC,              // 1A  MOV [DE], r0
    0x10, 0x01, 0x00,  // 1B  LDI DE, 1
    0x12, 0x03,        // 1E  ADDI DE, r3
    0xD7, 0x01,        // 20  ADDI r3, 1
    0x07,              // 22  od: OUTDE
    0x6F, 0x22, 0x00,  // 23  DJNZ r3, od
    0x00]              // 26  HALT

  const LOOP: word := 0x0E
  const OD: word := 0x22

  /** The default block for this program. */
  function Block(): Config
  {
    Config(39, 0, 0, 0, seq(VEC_COUNT, _ => 0), None, [], 1, 64, 0, 200000, 8192)
  }

  function Alone(): Env { Env(Block(), [], Reference.Alone) }

  lemma BlockIsLegal()
    ensures Legal(Block())
  {
    Pow2Data();
  }

  // ------------------------------------------------------------- little-endian numbers

  function Pow256(k: nat): (p: nat)
    ensures p >= 1
  {
    if k == 0 then 1 else 256 * Pow256(k - 1)
  }

  /** The number a little-endian byte string denotes. */
  function Value(s: seq<byte>): nat
  {
    if s == [] then 0 else s[0] + 256 * Value(s[1..])
  }

  lemma {:induction false} ValueAppends(s: seq<byte>, b: byte)
    ensures Value(s + [b]) == Value(s) + b * Pow256(|s|)
  {
    if s == [] {
      assert s + [b] == [b];
      assert Value([b]) == b + 256 * Value([]);
    } else {
      assert (s + [b])[1..] == s[1..] + [b];
      ValueAppends(s[1..], b);
      var p := Pow256(|s| - 1);
      assert 256 * (b * p) == b * (256 * p);
    }
  }

  /** The `n` low bytes of a number. */
  function Digits(x: nat, n: nat): (s: seq<byte>)
    ensures |s| == n
  {
    if n == 0 then [] else [x % 256] + Digits(x / 256, n - 1)
  }

  lemma {:induction false} DigitsDenote(x: nat, n: nat)
    requires x < Pow256(n)
    ensures Value(Digits(x, n)) == x
  {
    if n > 0 {
      DigitsDenote(x / 256, n - 1);
      assert Digits(x, n)[1..] == Digits(x / 256, n - 1);
    }
  }

  // ------------------------------------------------------------- one tick at a time

  /** The machine runs this program, with budget and output to spare. */
  predicate Standing(w: World)
  {
    && |w.pg| == 1 && w.m.status == Running && w.m.reason == Ok && w.m.tick < Block().tb
    && w.m.code == M.Padded(PROGRAM) && |w.m.out| < 8192
  }

  /** What stands at the addresses the program runs through. */
  function Listing(pc: word): Fetched
  {
    if pc == 0x00 then Decoded(LdiHl, Args(0, 0, 0, 0), 0x03)
    else if pc == 0x03 then Decoded(MovRHl, Args(2, 2, 0, 0), 0x04)
    else if pc == 0x04 then Decoded(Mov, Args(3, 2, 0, 0), 0x05)
    else if pc == 0x05 then Decoded(LdiHl, Args(0, 0, 1, 0), 0x08)
    else if pc == 0x08 then Decoded(LdiDe, Args(0, 0, 1, 0), 0x0B)
    else if pc == 0x0B then Decoded(AddiDe, Args(0, 0, 3, 0), 0x0D)
    else if pc == 0x0D then Decoded(Clc, Args(0, 0, 0, 0), 0x0E)
    else if pc == 0x0E then Decoded(MovRHl, Args(0, 0, 0, 0), 0x0F)
    else if pc == 0x0F then Decoded(MovRDe, Args(1, 1, 0, 0), 0x10)
    else if pc == 0x10 then Decoded(Adc, Args(0, 1, 0, 0), 0x11)
    else if pc == 0x11 then Decoded(MovDeR, Args(0, 0, 0, 0), 0x12)
    else if pc == 0x12 then Decoded(IncHl, Args(0, 0, 0, 0), 0x13)
    else if pc == 0x13 then Decoded(IncDe, Args(0, 0, 0, 0), 0x14)
    else if pc == 0x14 then Decoded(Djnz, Args(2, 2, 0x0E, 0), 0x17)
    else if pc == 0x17 then Decoded(Ldi, Args(0, 0, 0, 0), 0x19)
    else if pc == 0x19 then Decoded(Adc, Args(0, 0, 0, 0), 0x1A)
    else if pc == 0x1A then Decoded(MovDeR, Args(0, 0, 0, 0), 0x1B)
    else if pc == 0x1B then Decoded(LdiDe, Args(0, 0, 1, 0), 0x1E)
    else if pc == 0x1E then Decoded(AddiDe, Args(0, 0, 3, 0), 0x20)
    else if pc == 0x20 then Decoded(Addi, Args(3, 3, 1, 0), 0x22)
    else if pc == 0x22 then Decoded(OutDe, Args(0, 0, 0, 0), 0x23)
    else if pc == 0x23 then Decoded(Djnz, Args(3, 3, 0x22, 0), 0x26)
    else if pc == 0x26 then Decoded(Halt, Args(0, 0, 0, 0), 0x27)
    else Refused(FetchOob)
  }

  lemma ProgramByte(m: Core, i: nat)
    requires m.code == M.Padded(PROGRAM) && i < |PROGRAM|
    ensures m.code[i] == PROGRAM[i]
  {
  }

  lemma ListingLoad(m: Core)
    requires Legal(Block()) && m.code == M.Padded(PROGRAM) && m.pc < 0x08 && Listing(m.pc).Decoded?
    ensures Fetch(Block(), m) == Listing(m.pc)
  {
    hide M.Padded, Legal;
    ProgramByte(m, m.pc);
    if m.pc == 0 {
      ProgramByte(m, 1);
      ProgramByte(m, 2);
    } else if m.pc == 5 {
      ProgramByte(m, 6);
      ProgramByte(m, 7);
    }
  }

  lemma ListingPoint(m: Core)
    requires Legal(Block()) && m.code == M.Padded(PROGRAM) && 0x08 <= m.pc < 0x0E && Listing(m.pc).Decoded?
    ensures Fetch(Block(), m) == Listing(m.pc)
  {
  }

  lemma ListingLoop(m: Core)
    requires Legal(Block()) && m.code == M.Padded(PROGRAM) && 0x0E <= m.pc < 0x17 && Listing(m.pc).Decoded?
    ensures Fetch(Block(), m) == Listing(m.pc)
  {
  }

  lemma ListingCarry(m: Core)
    requires Legal(Block()) && m.code == M.Padded(PROGRAM) && 0x17 <= m.pc < 0x1E && Listing(m.pc).Decoded?
    ensures Fetch(Block(), m) == Listing(m.pc)
  {
  }

  lemma ListingSend(m: Core)
    requires Legal(Block()) && m.code == M.Padded(PROGRAM) && 0x1E <= m.pc && Listing(m.pc).Decoded?
    ensures Fetch(Block(), m) == Listing(m.pc)
  {
  }

  /** One tick of a lone machine under the default block. */
  function Go(w: World): (t: World)
    requires |w.pg| == 1
    ensures |t.pg| == 1
  {
    BlockIsLegal();
    I.TickKeepsPages(Alone(), w);
    Tick(Alone(), w)
  }

  /** A tick at a listed address executes what stands there. */
  lemma TickExecutes(w: World)
    requires Standing(w) && Listing(w.m.pc).Decoded?
    ensures Fits(Alone(), w.pg)
    ensures var f := Listing(w.m.pc);
      var o := Exec(f.sel, Alone(), f.a, w.m.pc, w.m.(pc := f.fall), w.pg);
      o.Next? ==> Go(w) == World(o.m.(tick := w.m.tick + 1), o.pg)
  {
    BlockIsLegal();
    hide Exec, Fetch, Legal, Listing;
    var f := Listing(w.m.pc);
    if w.m.pc < 0x08 {
      ListingLoad(w.m);
    } else if w.m.pc < 0x0E {
      ListingPoint(w.m);
    } else if w.m.pc < 0x17 {
      ListingLoop(w.m);
    } else if w.m.pc < 0x1E {
      ListingCarry(w.m);
    } else {
      ListingSend(w.m);
    }
    ExecKeepsTick(f.sel, f.a, w.m.pc, w.m.(pc := f.fall), w.pg);
  }

  lemma ExecKeepsTick(x: Sel, a: Args, pc0: word, m: Core, pg: seq<Page>)
    requires Fits(Alone(), pg)
    ensures var o := Exec(x, Alone(), a, pc0, m, pg); o.Next? ==> o.m.tick == m.tick
  {
    hide Exec;
    ExecFramed(x, Alone(), a, pc0, m, pg);
  }

  /** The next state, with PC moved to `fall` and one tick spent. */
  function Moved(w: World, m: Core, fall: word, pg: seq<Page>): World
  {
    World(m.(pc := fall, tick := w.m.tick + 1), pg)
  }

  lemma PointerTick(w: World, x: Sel, a: Args, fall: word)
    requires Standing(w) && Listing(w.m.pc) == Decoded(x, a, fall)
    requires x.LdiHl? || x.LdiDe? || x.AddiDe? || x.Clc? || x.IncHl? || x.IncDe? || x.Halt?
    ensures var m := w.m;
      Go(w) == Moved(w,
        if x.LdiHl? then m.(hl := T16(a)) else if x.LdiDe? then m.(de := T16(a))
        else if x.AddiDe? then m.(de := Low16(m.de + m.r[a.i0 % 4])) else if x.Clc? then m.(c := 0)
        else if x.IncHl? then m.(hl := Low16(m.hl + 1))
        else if x.IncDe? then m.(de := Low16(m.de + 1)) else m.(status := Halted), fall, w.pg)
  {
    hide Go, Standing, Listing, Legal;
    TickExecutes(w);
  }

  lemma LoadTick(w: World, x: Sel, a: Args, fall: word)
    requires Standing(w) && Listing(w.m.pc) == Decoded(x, a, fall) && (x.MovRHl? || x.MovRDe?)
    requires (if x.MovRHl? then w.m.hl else w.m.de) < DATA_SIZE
    ensures var at := if x.MovRHl? then w.m.hl else w.m.de;
      Go(w) == Moved(w, w.m.(r := w.m.r[a.s0 := w.pg[0][at]]), fall, w.pg)
  {
    hide Go, Listing, Legal;
    TickExecutes(w);
  }

  lemma StoreTick(w: World, a: Args, fall: word)
    requires Standing(w) && Listing(w.m.pc) == Decoded(MovDeR, a, fall) && w.m.de < DATA_SIZE
    ensures Go(w) == Moved(w, w.m, fall, [w.pg[0][w.m.de := w.m.r[a.s0]]])
  {
    hide Go, Listing, Legal;
    TickExecutes(w);
    assert Put(w.pg, 0, w.m.de, w.m.r[a.s0]) == [w.pg[0][w.m.de := w.m.r[a.s0]]];
  }

  lemma MoveTick(w: World, x: Sel, a: Args, fall: word)
    requires Standing(w) && Listing(w.m.pc) == Decoded(x, a, fall) && (x.Mov? || x.Ldi?)
    ensures Go(w) == Moved(w, w.m.(r := w.m.r[a.s0 := if x.Mov? then w.m.r[a.s1] else a.i0]), fall, w.pg)
  {
    hide Go, Listing, Legal, Standing;
    TickExecutes(w);
  }

  /** An addition into a register: the sum, the carry, and three more flags. */
  lemma SumTick(w: World, x: Sel, a: Args, fall: word)
    requires Standing(w) && Listing(w.m.pc) == Decoded(x, a, fall) && (x.Adc? || x.Addi?)
    ensures var t := Go(w);
      var sum: int := w.m.r[a.s0] + (if x.Adc? then w.m.r[a.s1] + w.m.c else a.i0);
      && t == Moved(w, w.m.(r := w.m.r[a.s0 := sum % 256], c := sum / 256, z := t.m.z, s := t.m.s, v := t.m.v),
                    fall, w.pg)
  {
    hide Go, Listing, Legal, Standing, OverflowAdd, Sign, Flag;
    TickExecutes(w);
  }

  /** DJNZ: the register counts down, wrapping, and the loop goes on while it is not zero. */
  lemma DjnzTick(w: World, a: Args, fall: word)
    requires Standing(w) && Listing(w.m.pc) == Decoded(Djnz, a, fall) && T16(a) < 39
    ensures var x: int := w.m.r[a.s0];
      var v := Low8(x - 1);
      Go(w) == Moved(w, w.m.(r := w.m.r[a.s0 := v]), if v != 0 then T16(a) else fall, w.pg)
  {
    hide Go, Listing, Legal, Standing;
    TickExecutes(w);
  }

  lemma OutTick(w: World, a: Args, fall: word)
    requires Standing(w) && Listing(w.m.pc) == Decoded(OutDe, a, fall) && w.m.de < DATA_SIZE
    ensures Go(w)
            == Moved(w, w.m.(out := w.m.out + [w.pg[0][w.m.de]], de := Low16(w.m.de + 1)), fall, w.pg)
  {
    hide Go, Listing, Legal;
    TickExecutes(w);
  }

  // ------------------------------------------------------------------ the operands

  /** `n` bytes of each operand, laid out behind the length byte. */
  predicate Operands(a: seq<byte>, b: seq<byte>) { 1 <= |a| == |b| <= 255 }

  /** The page after `i` rounds: the first `i` bytes of the second operand replaced by `sum`. */
  predicate Laid(p: Page, a: seq<byte>, b: seq<byte>, sum: seq<byte>)
    requires Operands(a, b) && |sum| <= |a|
  {
    var n := |a|;
    && p[0] == n
    && (forall j :: 0 <= j < n ==> p[1 + j] == a[j])
    && (forall j :: 0 <= j < |sum| ==> p[1 + n + j] == sum[j])
    && (forall j :: |sum| <= j < n ==> p[1 + n + j] == b[j])
  }

  /** At the head of the adding loop after `|sum|` rounds: the sum so far and the carry are the
      sum of the operands' low bytes. */
  predicate AtLoop(w: World, a: seq<byte>, b: seq<byte>, sum: seq<byte>)
    requires Operands(a, b)
  {
    var n, i := |a|, |sum|;
    && i < n && Standing(w) && w.m.out == [] && w.m.pc == LOOP && w.m.tick == 7 + 7 * i
    && w.m.r[2] == n - i && w.m.r[3] == n && w.m.hl == 1 + i && w.m.de == 1 + n + i
    && Laid(w.pg[0], a, b, sum)
    && Value(sum) + w.m.c * Pow256(i) == Value(a[..i]) + Value(b[..i])
  }

  /** Behind the adding loop. */
  predicate Added(w: World, a: seq<byte>, b: seq<byte>, sum: seq<byte>)
    requires Operands(a, b)
  {
    var n := |a|;
    && |sum| == n && Standing(w) && w.m.out == [] && w.m.pc == 0x17 && w.m.tick == 7 + 7 * n
    && w.m.r[3] == n && w.m.de == 1 + n + n && Laid(w.pg[0], a, b, sum)
    && Value(sum) + w.m.c * Pow256(n) == Value(a) + Value(b)
  }

  function Steps(w: World, n: nat): (t: World)
    requires |w.pg| == 1
    ensures |t.pg| == 1
    decreases n
  {
    if n == 0 then w else Steps(Go(w), n - 1)
  }

  /** One digit: its byte and the carry out are the column's sum. */
  lemma Column(a: seq<byte>, b: seq<byte>, sum: seq<byte>, c: bit)
    requires |a| == |b| && |sum| < |a|
    requires Value(sum) + c * Pow256(|sum|) == Value(a[..|sum|]) + Value(b[..|sum|])
    ensures var i := |sum|;
      var t: int := a[i] + b[i] + c;
      Value(sum + [t % 256]) + t / 256 * Pow256(i + 1) == Value(a[..i + 1]) + Value(b[..i + 1])
  {
    hide Pow256, Value;
    var i := |sum|;
    assert a[..i + 1] == a[..i] + [a[i]] && b[..i + 1] == b[..i] + [b[i]];
    var t: int := a[i] + b[i] + c;
    ValueAppends(a[..i], a[i]);
    ValueAppends(b[..i], b[i]);
    ValueAppends(sum, t % 256);
    PowStep(i);
    Carried(Value(sum), Value(a[..i]), Value(b[..i]), a[i], b[i], c, Pow256(i));
  }

  lemma PowStep(i: nat)
    ensures Pow256(i + 1) == 256 * Pow256(i)
  {
  }

  /** The column's byte and its carry are worth the column. */
  lemma Carried(low: int, u: int, v: int, x: int, y: int, c: int, p: int)
    requires low + c * p == u + v
    ensures var t := x + y + c;
      low + t % 256 * p + t / 256 * (256 * p) == (u + x * p) + (v + y * p)
  {
    var t := x + y + c;
    var q, r := t / 256, t % 256;
    assert t == 256 * q + r;
    assert q * (256 * p) == 256 * q * p;
    assert (256 * q + r) * p == 256 * q * p + r * p;
    assert (x + y + c) * p == x * p + y * p + c * p;
  }

  /** `u` is where `w` gets by ticks alone; the tick counter says how many. */
  ghost predicate Reaches(w: World, u: World)
  {
    |w.pg| == 1 && |u.pg| == 1 && w.m.tick <= u.m.tick && u == Steps(w, u.m.tick - w.m.tick)
  }

  lemma ReachesHere(w: World)
    requires |w.pg| == 1
    ensures Reaches(w, w)
  {
  }

  lemma {:induction false} StepsLater(w: World, n: nat)
    requires |w.pg| == 1
    ensures Steps(w, n + 1) == Go(Steps(w, n))
    decreases n
  {
    hide Go;
    if n > 0 {
      StepsLater(Go(w), n - 1);
    } else {
      assert Steps(w, 0) == w && Steps(Go(w), 0) == Go(w);
    }
  }

  lemma ReachesOn(w: World, u: World)
    requires Reaches(w, u) && Go(u).m.tick == u.m.tick + 1
    ensures Reaches(w, Go(u))
  {
    hide Go;
    StepsLater(w, u.m.tick - w.m.tick);
  }

  /** What one round of the adding loop does to the registers, the pointers and the page. */
  predicate Rounded(w: World, x: byte, y: byte, u: World)
    requires |w.pg| == 1 && w.m.de < DATA_SIZE
  {
    var t: int := x + y + w.m.c;
    var count: int := w.m.r[2];
    var left := Low8(count - 1);
    && u.m.tick == w.m.tick + 7 && u.m.out == w.m.out && u.m.c == t / 256
    && u.m.r[2] == left && u.m.r[3] == w.m.r[3]
    && u.m.hl == w.m.hl + 1 && u.m.de == w.m.de + 1 && u.m.pc == (if left != 0 then LOOP else 0x17)
    && |u.pg| == 1 && u.pg[0] == w.pg[0][w.m.de := t % 256]
  }

  lemma Round(from: World, w: World, x: byte, y: byte) returns (u: World)
    requires Reaches(from, w) && Standing(w) && w.m.pc == LOOP
    requires w.m.tick + 7 < 200000 && w.m.hl < 600 && w.m.de < 600
    requires w.pg[0][w.m.hl] == x && w.pg[0][w.m.de] == y
    ensures Reaches(from, u) && Standing(u) && Rounded(w, x, y, u)
  {
    hide Go, M.Padded, Reaches;
    u := Go(w);
    LoadTick(w, MovRHl, Args(0, 0, 0, 0), 0x0F);
    ReachesOn(from, w);
    var w1 := u;
    LoadTick(w1, MovRDe, Args(1, 1, 0, 0), 0x10);
    ReachesOn(from, w1);
    var w2 := Go(w1);
    SumTick(w2, Adc, Args(0, 1, 0, 0), 0x11);
    ReachesOn(from, w2);
    var w3 := Go(w2);
    StoreTick(w3, Args(0, 0, 0, 0), 0x12);
    ReachesOn(from, w3);
    var w4 := Go(w3);
    PointerTick(w4, IncHl, Args(0, 0, 0, 0), 0x13);
    ReachesOn(from, w4);
    var w5 := Go(w4);
    PointerTick(w5, IncDe, Args(0, 0, 0, 0), 0x14);
    ReachesOn(from, w5);
    var w6 := Go(w5);
    DjnzTick(w6, Args(2, 2, 0x0E, 0), 0x17);
    ReachesOn(from, w6);
    u := Go(w6);
  }

  /** The adding loop keeps the partial sum. */
  lemma AddRound(from: World, w: World, a: seq<byte>, b: seq<byte>, sum: seq<byte>)
      returns (u: World, more: seq<byte>)
    requires Reaches(from, w) && Operands(a, b) && AtLoop(w, a, b, sum)
    ensures Reaches(from, u) && |more| == |sum| + 1
    ensures if |more| < |a| then AtLoop(u, a, b, more) else Added(u, a, b, more)
  {
    hide Go, Reaches, Value, Pow256, M.Padded;
    var n, i := |a|, |sum|;
    var p := w.pg[0];
    assert p[1 + i] == a[i];
    assert p[1 + n + i] == b[i];
    u := Round(from, w, a[i], b[i]);
    more := sum + [(a[i] + b[i] + w.m.c) % 256];
    Column(a, b, sum, w.m.c);
    assert a[..n] == a && b[..n] == b;
    assert Laid(u.pg[0], a, b, more);
  }

  lemma {:induction false} AddAll(from: World, w: World, a: seq<byte>, b: seq<byte>, sum: seq<byte>)
      returns (u: World, total: seq<byte>)
    requires Reaches(from, w) && Operands(a, b) && AtLoop(w, a, b, sum)
    ensures Reaches(from, u) && Added(u, a, b, total)
    decreases |a| - |sum|
  {
    hide Go, Reaches, AtLoop, Added;
    LoopIsShort(w, a, b, sum);
    u, total := AddRound(from, w, a, b, sum);
    if |total| < |a| {
      u, total := AddAll(from, u, a, b, total);
    }
  }

  lemma LoopIsShort(w: World, a: seq<byte>, b: seq<byte>, sum: seq<byte>)
    requires Operands(a, b) && AtLoop(w, a, b, sum)
    ensures |sum| < |a|
  {
  }

  /** The page a run starts from: the length, then both operands. */
  function Page0(a: seq<byte>, b: seq<byte>): Page
    requires Operands(a, b)
  {
    [|a|] + a + b + seq(DATA_SIZE - 1 - |a| - |b|, _ => 0)
  }

  function Start(a: seq<byte>, b: seq<byte>): World
    requires Operands(a, b)
  {
    World(M.BootCore(Block(), PROGRAM), [Page0(a, b)])
  }

  predicate Booted(w: World)
  {
    && Standing(w) && w.m.out == [] && w.m.pc == 0 && w.m.tick == 0
    && w.m.r == [0, 0, 0, 0]
  }

  lemma StartIsBooted(a: seq<byte>, b: seq<byte>)
    requires Operands(a, b)
    ensures Booted(Start(a, b)) && Laid(Start(a, b).pg[0], a, b, [])
  {
    hide M.Padded;
    var p := Page0(a, b);
    assert p[0] == |a|;
  }

  /** The length is in r2 and r3. */
  predicate Counted(w: World, n: byte)
  {
    && Standing(w) && w.m.out == [] && w.m.pc == 0x05 && w.m.tick == 3
    && w.m.r[2] == n && w.m.r[3] == n
  }

  lemma ReadLength(w: World, n: byte) returns (u: World)
    requires Booted(w) && w.pg[0][0] == n
    ensures Reaches(w, u) && Counted(u, n) && u.pg == w.pg
  {
    hide Go, Reaches, M.Padded;
    ReachesHere(w);
    PointerTick(w, LdiHl, Args(0, 0, 0, 0), 0x03);
    ReachesOn(w, w);
    var w1 := Go(w);
    LoadTick(w1, MovRHl, Args(2, 2, 0, 0), 0x04);
    ReachesOn(w, w1);
    var w2 := Go(w1);
    MoveTick(w2, Mov, Args(3, 2, 0, 0), 0x05);
    ReachesOn(w, w2);
    u := Go(w2);
  }

  /** Up to the adding loop. */
  lemma PointOperands(from: World, w: World, n: byte) returns (u: World)
    requires Reaches(from, w) && Counted(w, n)
    ensures Reaches(from, u) && Standing(u) && u.pg == w.pg && u.m.out == [] && u.m.pc == LOOP
    ensures u.m.tick == 7 && u.m.c == 0
    ensures u.m.r[2] == n && u.m.r[3] == n && u.m.hl == 1 && u.m.de == 1 + n
  {
    hide Go, Reaches, M.Padded;
    PointerTick(w, LdiHl, Args(0, 0, 1, 0), 0x08);
    ReachesOn(from, w);
    var w1 := Go(w);
    PointerTick(w1, LdiDe, Args(0, 0, 1, 0), 0x0B);
    ReachesOn(from, w1);
    var w2 := Go(w1);
    PointerTick(w2, AddiDe, Args(0, 0, 3, 0), 0x0D);
    ReachesOn(from, w2);
    var w3 := Go(w2);
    PointerTick(w3, Clc, Args(0, 0, 0, 0), 0x0E);
    ReachesOn(from, w3);
    u := Go(w3);
  }

  lemma Prologue(w: World, a: seq<byte>, b: seq<byte>) returns (u: World)
    requires Booted(w) && Operands(a, b) && Laid(w.pg[0], a, b, [])
    ensures Reaches(w, u) && AtLoop(u, a, b, [])
  {
    hide Go, Reaches, M.Padded, Standing, Booted, Counted;
    BootedPage(w);
    var v := ReadLength(w, |a|);
    u := PointOperands(w, v, |a|);
    EmptyPrefix(a, b);
  }

  lemma BootedPage(w: World)
    requires Booted(w)
    ensures |w.pg| == 1
  {
  }

  lemma EmptyPrefix(a: seq<byte>, b: seq<byte>)
    ensures Value(a[..0]) == 0 && Value(b[..0]) == 0 && Value([]) == 0
  {
  }

  /** The emitting loop has sent the first `k` of the `n + 1` digits on the page. */
  predicate AtOd(w: World, digits: seq<byte>, k: nat)
  {
    && 2 <= |digits| <= 256 && k < |digits| && Standing(w) && w.m.out == digits[..k]
    && w.m.pc == OD && w.m.tick == 13 + 7 * (|digits| - 1) + 2 * k
    && w.m.r[3] == (|digits| - k) % 256 && w.m.de == |digits| + k
    && forall j :: 0 <= j < |digits| ==> w.pg[0][|digits| + j] == digits[j]
  }

  /** The carry has been stored behind the sum. */
  predicate CarryStored(w: World, digits: seq<byte>)
  {
    && 2 <= |digits| <= 256 && Standing(w) && w.m.out == [] && w.m.pc == 0x1B
    && w.m.tick == 10 + 7 * (|digits| - 1) && w.m.r[3] == |digits| - 1
    && forall j :: 0 <= j < |digits| ==> w.pg[0][|digits| + j] == digits[j]
  }

  lemma StoreCarry(from: World, w: World, a: seq<byte>, b: seq<byte>, sum: seq<byte>) returns (u: World, carry: bit)
    requires Reaches(from, w) && Operands(a, b) && Added(w, a, b, sum)
    ensures carry == w.m.c && Reaches(from, u) && CarryStored(u, sum + [carry])
  {
    hide Go, Reaches, M.Padded, Value, Pow256;
    carry := w.m.c;
    MoveTick(w, Ldi, Args(0, 0, 0, 0), 0x19);
    ReachesOn(from, w);
    var w1 := Go(w);
    SumTick(w1, Adc, Args(0, 0, 0, 0), 0x1A);
    ReachesOn(from, w1);
    var w2 := Go(w1);
    StoreTick(w2, Args(0, 0, 0, 0), 0x1B);
    ReachesOn(from, w2);
    u := Go(w2);
  }

  /** Between the loops: the carry becomes the last digit, and the count goes up by one, which
      is 0 for operands of 255 bytes. */
  lemma Middle(from: World, w: World, a: seq<byte>, b: seq<byte>, sum: seq<byte>) returns (u: World, carry: bit)
    requires Reaches(from, w) && Operands(a, b) && Added(w, a, b, sum)
    ensures carry == w.m.c && Reaches(from, u) && AtOd(u, sum + [carry], 0)
  {
    hide Go, Reaches, M.Padded, Added;
    var w3: World;
    w3, carry := StoreCarry(from, w, a, b, sum);
    PointerTick(w3, LdiDe, Args(0, 0, 1, 0), 0x1E);
    ReachesOn(from, w3);
    var w4 := Go(w3);
    PointerTick(w4, AddiDe, Args(0, 0, 3, 0), 0x20);
    ReachesOn(from, w4);
    var w5 := Go(w4);
    SumTick(w5, Addi, Args(3, 3, 1, 0), 0x22);
    ReachesOn(from, w5);
    u := Go(w5);
  }

  /** The run is over, and has sent exactly the digits. */
  predicate Sent(w: World, digits: seq<byte>)
  {
    |w.pg| == 1 && w.m.status == Halted && w.m.out == digits && w.m.reason == Ok
  }

  lemma {:induction false} EmitAll(from: World, w: World, digits: seq<byte>, k: nat) returns (u: World)
    requires Reaches(from, w) && AtOd(w, digits, k)
    ensures Reaches(from, u) && Sent(u, digits)
    decreases |digits| - k
  {
    hide Go, Reaches, M.Padded;
    var n := |digits|;
    assert w.pg[0][n + k] == digits[k];
    OutTick(w, Args(0, 0, 0, 0), 0x23);
    ReachesOn(from, w);
    var w1 := Go(w);
    assert digits[..k] + [digits[k]] == digits[..k + 1];
    DjnzTick(w1, Args(3, 3, 0x22, 0), 0x26);
    ReachesOn(from, w1);
    u := Go(w1);
    if k + 1 < n {
      u := EmitAll(from, u, digits, k + 1);
    } else {
      var w2 := u;
      assert digits[..n] == digits;
      PointerTick(w2, Halt, Args(0, 0, 0, 0), 0x27);
      ReachesOn(from, w2);
      u := Go(w2);
    }
  }

  // ------------------------------------------------------------------ whole runs

  lemma {:induction false} RunGoesThrough(w: World, n: nat)
    requires |w.pg| == 1 && Legal(Block())
    ensures RunToStop(Alone(), w) == RunToStop(Alone(), Steps(w, n))
    decreases n
  {
    hide Tick, Fuel, Legal;
    if n > 0 {
      RunOnce(w);
      RunGoesThrough(Go(w), n - 1);
    }
  }

  lemma RunOnce(w: World)
    requires |w.pg| == 1 && Legal(Block())
    ensures RunToStop(Alone(), w) == RunToStop(Alone(), Go(w))
  {
    hide Step, Legal;
  }

  /** For every length of 1 to 255 bytes and every pair of operands of that length: the run
      halts, and the `n + 1` bytes it emits denote the sum, low byte first. */
  lemma LongAddIsAddition(a: seq<byte>, b: seq<byte>)
    requires Operands(a, b)
    ensures Legal(Block())
    ensures var t := RunToStop(Alone(), Start(a, b));
      && t.m.status == Halted && t.m.reason == Ok && |t.m.out| == |a| + 1
      && Value(t.m.out) == Value(a) + Value(b)
  {
    BlockIsLegal();
    var w := Start(a, b);
    StartIsBooted(a, b);
    hide Go, Reaches, Standing, Booted, AtLoop, AtOd, RunToStop, Legal, Fuel, Start, Laid, Value, Pow256;
    BootedPage(w);
    var u := Prologue(w, a, b);
    var v, sum := AddAll(w, u, a, b, []);
    AddedSum(v, a, b, sum);
    var x, carry := Middle(w, v, a, b, sum);
    var y := EmitAll(w, x, sum + [carry], 0);
    ValueAppends(sum, carry);
    RunReaches(w, y);
    StoppedTick(Alone(), y);
  }

  lemma AddedSum(w: World, a: seq<byte>, b: seq<byte>, sum: seq<byte>)
    requires Operands(a, b) && Added(w, a, b, sum)
    ensures |sum| == |a| && Value(sum) + w.m.c * Pow256(|sum|) == Value(a) + Value(b)
  {
  }

  lemma RunReaches(w: World, u: World)
    requires Reaches(w, u) && Legal(Block())
    ensures RunToStop(Alone(), w) == RunToStop(Alone(), u)
  {
    hide Go, RunToStop;
    RunGoesThrough(w, u.m.tick - w.m.tick);
  }

  /** The same as a claim about integers: for all numbers that fit `n` bytes the emitted bytes
      denote their sum. */
  lemma LongAddOfIntegers(x: nat, y: nat, n: nat)
    requires 1 <= n <= 255 && x < Pow256(n) && y < Pow256(n)
    ensures Legal(Block())
    ensures var t := RunToStop(Alone(), Start(Digits(x, n), Digits(y, n)));
      t.m.status == Halted && |t.m.out| == n + 1 && Value(t.m.out) == x + y
  {
    hide RunToStop, Start, Pow256, Value, Digits, Legal;
    LongAddIsAddition(Digits(x, n), Digits(y, n));
    DigitsDenote(x, n);
    DigitsDenote(y, n);
  }
}
