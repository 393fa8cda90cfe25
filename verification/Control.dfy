/** Well-nested control: traps, calls and pushes against their returns. What the closing
    instruction gives back, when it may, and that every balanced run ends at the stack pointer
    and the trap depth it started from. */
module Control {
  import opened Bits
  import opened Isa
  import opened Reference
  import I = Invariants

  // ------------------------------------------------------------ one pair at a time

  /** The `n` cells at the stack pointer hold in `after` what they held in `before`. */
  predicate SameCells(before: Page, after: Page, sp: address, n: nat)
  {
    sp + n <= DATA_SIZE && forall a :: sp <= a < sp + n ==> after[a] == before[a]
  }

  /** TRAPRET after EXT, whatever ran in between, as long as the stack pointer, the depth and
      the four frame bytes are back: it commits exactly when the return address lies inside the
      image, and then restores PC, stack pointer, depth and all four flags. */
  lemma TrapReturns(e: Env, k: byte, m: Core, pg: seq<Page>, m2: Core, pg2: seq<Page>)
    requires Fits(e, pg) && Fits(e, pg2) && TrapEnter(e, k, m, pg).Next?
    requires var went := TrapEnter(e, k, m, pg);
      m2.sp == went.m.sp && m2.td == went.m.td && SameCells(Data(e, went.pg), Data(e, pg2), went.m.sp, 4)
    ensures TrapLeave(e, m2, pg2) ==
      if m.pc < e.cf.codelen then
        Next(m2.(pc := m.pc, sp := m.sp, td := m.td, z := m.z, c := m.c, s := m.s, v := m.v), pg2)
      else Fault(PcIllegal)
  {
    var went := TrapEnter(e, k, m, pg);
    hide Vector, Covered, StackCovered, FlagsByte;
    FrameBytes(pg, e.bank.own, m.sp, FlagsByte(m.z, m.c, m.s, m.v), m.pc);
    PackedFlags(m.z, m.c, m.s, m.v);
  }

  lemma FrameBytes(pg: seq<Page>, own: nat, sp: address, flags: byte, ret: word)
    requires own < |pg| && 4 <= sp
    ensures var d := PushFrame(pg, own, sp, flags, ret)[own];
      d[sp - 1] == TRAP_TAG && d[sp - 2] == flags && d[sp - 3] == ret % 256 && d[sp - 4] == ret / 256
  {
  }

  lemma PackedFlags(z: bit, c: bit, s: bit, v: bit)
    ensures var f := FlagsByte(z, c, s, v);
      f % 2 == z && f / 2 % 2 == c && f / 4 % 2 == s && f / 8 % 2 == v
  {
    FlagsByteIsSum(z, c, s, v);
    hide Or;
  }

  /** RET after CALL or CALL HL. */
  lemma CallReturns(e: Env, t: word, m: Core, pg: seq<Page>, m2: Core, pg2: seq<Page>)
    requires Fits(e, pg) && Fits(e, pg2) && CallTo(e, m, pg, t).Next?
    requires var went := CallTo(e, m, pg, t);
      m2.sp == went.m.sp && SameCells(Data(e, went.pg), Data(e, pg2), went.m.sp, 2)
    ensures Return(e, m2, pg2) ==
      if m.pc < e.cf.codelen then Next(m2.(pc := m.pc, sp := m.sp), pg2) else Fault(PcIllegal)
  {
    var went := CallTo(e, m, pg, t);
    hide Covered, StackCovered;
  }

  /** POP after PUSH, POPW after PUSHW: what was pushed comes back, and they always commit. */
  lemma PopReturns(e: Env, v: byte, m: Core, pg: seq<Page>, m2: Core, pg2: seq<Page>, d: reg)
    requires Fits(e, pg) && Fits(e, pg2) && PushByte(e, m, pg, v).Next?
    requires var went := PushByte(e, m, pg, v);
      m2.sp == went.m.sp && SameCells(Data(e, went.pg), Data(e, pg2), went.m.sp, 1)
    ensures PopByte(e, m2, pg2, d) == Next(SetReg(m2, d, v).(sp := m.sp), pg2)
  {
    var went := PushByte(e, m, pg, v);
    hide Covered;
  }

  lemma PopWordReturns(e: Env, v: word, m: Core, pg: seq<Page>, m2: Core, pg2: seq<Page>, intoHl: bool)
    requires Fits(e, pg) && Fits(e, pg2) && PushWord(e, m, pg, v).Next?
    requires var went := PushWord(e, m, pg, v);
      m2.sp == went.m.sp && SameCells(Data(e, went.pg), Data(e, pg2), went.m.sp, 2)
    ensures PopWord(e, m2, pg2, intoHl)
            == Next(if intoHl then m2.(hl := v, sp := m.sp) else m2.(de := v, sp := m.sp), pg2)
  {
    var went := PushWord(e, m, pg, v);
    hide Covered, StackCovered;
  }

  // ------------------------------------------------------------------ balanced runs

  datatype Kind = Trap | Subroutine | Byte | Wide

  predicate Opens(k: Kind, x: Sel)
  {
    match k
    case Trap => x.Ext?
    case Subroutine => x.Call? || x.CallHl?
    case Byte => x.Push?
    case Wide => x.PushwHl? || x.PushwDe?
  }

  predicate Closes(k: Kind, x: Sel)
  {
    match k
    case Trap => x.TrapRet?
    case Subroutine => x.Ret?
    case Byte => x.Pop?
    case Wide => x.PopwHl? || x.PopwDe?
  }

  function Size(k: Kind): nat { match k case Trap => 4 case Subroutine => 2 case Byte => 1 case Wide => 2 }

  /** An instruction that writes neither the stack pointer nor the depth. */
  predicate Level(x: Sel)
  {
    !IsStack(x) && !IsTrap(x) && !x.MovwSpHl? && !x.MovwSpDe? && !x.AddSp?
  }

  /** How a run is nested: level instructions, and pairs around an inner run. */
  datatype Nest = End | Plain(rest: Nest) | Pair(kind: Kind, body: Nest, rest: Nest)

  predicate Commits(e: Env, w: World)
    requires Fits(e, w.pg)
  {
    w.m.status == Running && w.m.tick < e.cf.tb && Fetch(e.cf, w.m).Decoded? && Step(e, w.m, w.pg).Next?
  }

  function SelAt(e: Env, w: World): Sel
    requires Fits(e, w.pg)
  {
    var f := Fetch(e.cf, w.m);
    if f.Decoded? then f.sel else Bad
  }

  function Ticks(n: Nest): nat
  {
    match n
    case End => 0
    case Plain(rest) => 1 + Ticks(rest)
    case Pair(_, body, rest) => 2 + Ticks(body) + Ticks(rest)
  }

  function Ended(e: Env, w: World, n: Nest): (t: World)
    requires Fits(e, w.pg)
    ensures Fits(e, t.pg) && |t.pg| == |w.pg|
  {
    I.After(e, w, Ticks(n))
  }

  function Next1(e: Env, w: World): (t: World)
    requires Fits(e, w.pg)
    ensures Fits(e, t.pg) && |t.pg| == |w.pg|
  {
    I.TickKeepsPages(e, w);
    Tick(e, w)
  }

  /** The run from `w` is nested as `n` says: every tick commits, and is of the kind named. */
  predicate Follows(e: Env, w: World, n: Nest)
    requires Fits(e, w.pg)
    decreases n
  {
    match n
    case End => true
    case Plain(rest) => Commits(e, w) && Level(SelAt(e, w)) && Follows(e, Next1(e, w), rest)
    case Pair(kind, body, rest) =>
      && Commits(e, w) && Opens(kind, SelAt(e, w)) && Follows(e, Next1(e, w), body)
      && var inner := Ended(e, Next1(e, w), body);
         Commits(e, inner) && Closes(kind, SelAt(e, inner)) && Follows(e, Next1(e, inner), rest)
  }

  // -------------------------------------------------- what each kind of tick moves

  lemma CopyLevel(x: Sel, a: Args, m: Core)
    ensures Copied(x, m, a).sp == m.sp && Copied(x, m, a).td == m.td
  {
  }

  lemma CountLevel(x: Sel, a: Args, m: Core)
    ensures Counted(x, m, a).sp == m.sp && Counted(x, m, a).td == m.td
  {
  }

  lemma OtherPointers(x: Sel)
    requires IsPointer(x)
    ensures IsCopy(x) || IsCount(x) || x.MovwSpHl? || x.MovwSpDe? || x.AddSp?
  {
  }

  lemma PointerLevel(x: Sel, a: Args, m: Core, pg: seq<Page>)
    requires IsPointer(x) && Level(x)
    ensures var o := ExecPointer(x, a, m, pg); o.Next? ==> o.m.sp == m.sp && o.m.td == m.td
  {
    hide Copied, Counted, IsCount, Family;
    if IsCopy(x) {
      CopyLevel(x, a, m);
    } else if IsCount(x) {
      CountLevel(x, a, m);
    } else {
      hide IsCopy;
      OtherPointers(x);
    }
  }

  lemma StreamLevel(x: Sel, e: Env, a: Args, m: Core, pg: seq<Page>)
    requires Fits(e, pg)
    ensures var o := ExecStream(x, e, a, m, pg); o.Next? ==> o.m.sp == m.sp && o.m.td == m.td
  {
  }

  lemma MemoryLevel(x: Sel, e: Env, a: Args, m: Core, pg: seq<Page>)
    requires Fits(e, pg)
    ensures var o := ExecMemory(x, e, a, m, pg); o.Next? ==> o.m.sp == m.sp && o.m.td == m.td
  {
    hide Put, Put16, Covered;
  }

  lemma BankLevel(x: Sel, e: Env, a: Args, m: Core, pg: seq<Page>)
    requires Fits(e, pg)
    ensures var o := ExecBank(x, e, a, m, pg); o.Next? ==> o.m.sp == m.sp && o.m.td == m.td
  {
    hide Put, Put16, Covered, PageRegions;
  }

  lemma BranchLevel(x: Sel, cf: Config, a: Args, m: Core, pg: seq<Page>)
    ensures var o := ExecBranch(x, cf, a, m, pg); o.Next? ==> o.m.sp == m.sp && o.m.td == m.td
  {
  }

  lemma AluLevel(x: Sel, a: Args, pc0: word, m: Core, pg: seq<Page>)
    ensures var o := ExecAlu(x, a, pc0, m, pg); o.Next? ==> o.m.sp == m.sp && o.m.td == m.td
  {
    hide AluOf;
  }

  lemma LevelKeeps(x: Sel, e: Env, a: Args, pc0: word, m: Core, pg: seq<Page>)
    requires Fits(e, pg) && Level(x)
    ensures var o := Exec(x, e, a, pc0, m, pg); o.Next? ==> o.m.sp == m.sp && o.m.td == m.td
  {
    hide ExecAlu, ExecPointer, ExecBranch, ExecStack, ExecMemory, ExecStream, ExecBank, ExecTrap;
    if IsAlu(x) {
      AluLevel(x, a, pc0, m, pg);
    } else if IsPointer(x) {
      PointerLevel(x, a, m, pg);
    } else if IsBranch(x) {
      BranchLevel(x, e.cf, a, m, pg);
    } else if IsMemory(x) {
      MemoryLevel(x, e, a, m, pg);
    } else if IsStream(x) {
      StreamLevel(x, e, a, m, pg);
    } else if IsBank(x) {
      BankLevel(x, e, a, m, pg);
    }
  }

  /** The cells at and above the stack pointer, on the machine's own page, stand as they did. */
  predicate Spares(e: Env, sp: address, before: seq<Page>, after: seq<Page>)
    requires e.bank.own < |before| && e.bank.own < |after|
  {
    forall a :: sp <= a < DATA_SIZE ==> Data(e, after)[a] == Data(e, before)[a]
  }

  lemma OpenStack(k: Kind, x: Sel, e: Env, a: Args, m: Core, pg: seq<Page>)
    requires Fits(e, pg) && Opens(k, x) && !k.Trap?
    ensures var o := ExecStack(x, e, a, m, pg);
      o.Next? ==> o.m.sp == m.sp - Size(k) && o.m.td == m.td
                  && e.bank.own < |o.pg| && Spares(e, m.sp, pg, o.pg)
  {
    hide Covered, StackCovered;
  }

  lemma OpenTrap(e: Env, a: Args, m: Core, pg: seq<Page>)
    requires Fits(e, pg)
    ensures var o := ExecTrap(Ext, e, a, m, pg);
      o.Next? ==> o.m.sp == m.sp - 4 && o.m.td == m.td + 1
                  && e.bank.own < |o.pg| && Spares(e, m.sp, pg, o.pg)
  {
    hide Covered, StackCovered, FlagsByte, Vector;
  }

  lemma PushFamily(x: Sel)
    requires x.Call? || x.CallHl? || x.Push? || x.PushwHl? || x.PushwDe?
    ensures IsStack(x)
  {
  }

  lemma PopFamily(x: Sel)
    requires x.Ret? || x.Pop? || x.PopwHl? || x.PopwDe?
    ensures IsStack(x)
  {
  }

  lemma KindFamily(k: Kind, x: Sel)
    requires Opens(k, x) || Closes(k, x)
    ensures if k.Trap? then IsTrap(x) else IsStack(x)
  {
    hide Family;
    if k.Trap? {
      TrapFamily();
    } else if Opens(k, x) {
      PushFamily(x);
    } else {
      PopFamily(x);
    }
  }

  lemma TrapFamily()
    ensures IsTrap(Ext) && IsTrap(TrapRet)
  {
  }

  lemma OpenMoves(k: Kind, x: Sel, e: Env, a: Args, pc0: word, m: Core, pg: seq<Page>)
    requires Fits(e, pg) && Opens(k, x)
    ensures var o := Exec(x, e, a, pc0, m, pg);
      o.Next? ==> o.m.sp == m.sp - Size(k) && o.m.td == (if k.Trap? then m.td + 1 else m.td)
                  && e.bank.own < |o.pg| && Spares(e, m.sp, pg, o.pg)
  {
    hide ExecStack, ExecTrap, Spares, Family, Legal, ExecAlu, ExecPointer, ExecBranch, ExecMemory, ExecStream,
         ExecBank;
    KindFamily(k, x);
    if k.Trap? {
      OpenTrap(e, a, m, pg);
    } else {
      OpenStack(k, x, e, a, m, pg);
    }
  }

  lemma CloseStack(k: Kind, x: Sel, e: Env, a: Args, m: Core, pg: seq<Page>)
    requires Fits(e, pg) && Closes(k, x) && !k.Trap?
    ensures var o := ExecStack(x, e, a, m, pg);
      o.Next? ==> o.m.sp == m.sp + Size(k) && o.pg == pg && o.m.td == m.td
  {
    hide Covered, StackCovered;
  }

  lemma CloseMoves(k: Kind, x: Sel, e: Env, a: Args, pc0: word, m: Core, pg: seq<Page>)
    requires Fits(e, pg) && Closes(k, x)
    ensures var o := Exec(x, e, a, pc0, m, pg);
      o.Next? ==> o.m.sp == m.sp + Size(k) && o.pg == pg
                  && (if k.Trap? then o.m.td + 1 == m.td else o.m.td == m.td)
  {
    hide FlagsByte, Family, ExecStack, Legal, ExecAlu, ExecPointer, ExecBranch, ExecMemory, ExecStream, ExecBank;
    KindFamily(k, x);
    if !k.Trap? {
      CloseStack(k, x, e, a, m, pg);
    }
  }

  // The same, tick by tick.

  lemma CommitIsExec(e: Env, w: World)
    requires Fits(e, w.pg) && Commits(e, w)
    ensures Fetch(e.cf, w.m).Decoded?
    ensures var f := Fetch(e.cf, w.m);
      var o := Exec(f.sel, e, f.a, w.m.pc, w.m.(pc := f.fall), w.pg);
      && o.Next? && SelAt(e, w) == f.sel
      && Tick(e, w) == World(o.m.(tick := o.m.tick + 1), o.pg)
  {
    hide Exec, Fetch;
  }

  lemma PlainTick(e: Env, w: World)
    requires Fits(e, w.pg) && Commits(e, w) && Level(SelAt(e, w))
    ensures Next1(e, w).m.sp == w.m.sp && Next1(e, w).m.td == w.m.td
  {
    hide Exec, Fetch, Commits, SelAt, Level;
    CommitIsExec(e, w);
    var f := Fetch(e.cf, w.m);
    LevelKeeps(f.sel, e, f.a, w.m.pc, w.m.(pc := f.fall), w.pg);
  }

  lemma OpenTick(e: Env, w: World, k: Kind)
    requires Fits(e, w.pg) && Commits(e, w) && Opens(k, SelAt(e, w))
    ensures var t := Next1(e, w);
      && t.m.sp == w.m.sp - Size(k) && t.m.td == (if k.Trap? then w.m.td + 1 else w.m.td)
      && Spares(e, w.m.sp, w.pg, t.pg)
  {
    hide Exec, Fetch, Commits, SelAt, Opens, Spares;
    CommitIsExec(e, w);
    var f := Fetch(e.cf, w.m);
    OpenMoves(k, f.sel, e, f.a, w.m.pc, w.m.(pc := f.fall), w.pg);
  }

  lemma CloseTick(e: Env, w: World, k: Kind)
    requires Fits(e, w.pg) && Commits(e, w) && Closes(k, SelAt(e, w))
    ensures var t := Next1(e, w);
      && t.m.sp == w.m.sp + Size(k) && t.pg == w.pg
      && (if k.Trap? then t.m.td + 1 == w.m.td else t.m.td == w.m.td)
  {
    hide Exec, Fetch, Commits, SelAt, Closes;
    CommitIsExec(e, w);
    var f := Fetch(e.cf, w.m);
    CloseMoves(k, f.sel, e, f.a, w.m.pc, w.m.(pc := f.fall), w.pg);
  }

  lemma FirstTick(e: Env, w: World, n: nat)
    requires Fits(e, w.pg)
    ensures I.After(e, w, 1 + n) == I.After(e, Next1(e, w), n)
  {
    hide Tick;
    I.AfterSplits(e, w, 1, n);
    assert I.After(e, w, 0) == w;
  }

  /** The end of a pair, in the order it runs. */
  lemma PairEnds(e: Env, w: World, n: Nest)
    requires Fits(e, w.pg) && n.Pair?
    ensures Ended(e, w, n) == Ended(e, Next1(e, Ended(e, Next1(e, w), n.body)), n.rest)
  {
    hide Tick, Next1;
    var b, r := Ticks(n.body), Ticks(n.rest);
    var one := Next1(e, w);
    FirstTick(e, w, b + 1 + r);
    I.AfterSplits(e, one, b, 1 + r);
    FirstTick(e, I.After(e, one, b), r);
  }

  /** Every balanced run, of any shape and depth, ends at the stack pointer and the trap depth
      it started from. */
  lemma {:induction false} BalancedReturns(e: Env, w: World, n: Nest)
    requires Fits(e, w.pg) && Follows(e, w, n)
    ensures Ended(e, w, n).m.sp == w.m.sp && Ended(e, w, n).m.td == w.m.td
    decreases n
  {
    hide Commits, SelAt, Opens, Closes, Level, Next1, Fits;
    match n
    case End =>
    case Plain(rest) =>
      PlainTick(e, w);
      FirstTick(e, w, Ticks(rest));
      BalancedReturns(e, Next1(e, w), rest);
    case Pair(kind, body, rest) =>
      OpenTick(e, w, kind);
      BalancedReturns(e, Next1(e, w), body);
      var inner := Ended(e, Next1(e, w), body);
      CloseTick(e, inner, kind);
      BalancedReturns(e, Next1(e, inner), rest);
      PairEnds(e, w, n);
  }

  // ---------------------------------------------------------- frames that stand

  /** No level instruction of the run stores at or above the stack pointer it runs under. */
  predicate Careful(e: Env, w: World, n: Nest)
    requires Fits(e, w.pg)
    decreases n
  {
    match n
    case End => true
    case Plain(rest) => Spares(e, w.m.sp, w.pg, Next1(e, w).pg) && Careful(e, Next1(e, w), rest)
    case Pair(kind, body, rest) =>
      && Careful(e, Next1(e, w), body)
      && var inner := Ended(e, Next1(e, w), body); Careful(e, Next1(e, inner), rest)
  }

  lemma SparesChain(e: Env, sp: address, lower: address, one: seq<Page>, two: seq<Page>, three: seq<Page>)
    requires e.bank.own < |one| && e.bank.own < |two| && e.bank.own < |three| && lower <= sp
    requires Spares(e, sp, one, two) && Spares(e, lower, two, three)
    ensures Spares(e, sp, one, three)
  {
  }

  /** A balanced, careful run leaves every cell at and above its stack pointer as it was. */
  lemma {:induction false} FramesStand(e: Env, w: World, n: Nest)
    requires Fits(e, w.pg) && Follows(e, w, n) && Careful(e, w, n)
    ensures Spares(e, w.m.sp, w.pg, Ended(e, w, n).pg)
    decreases n
  {
    hide Commits, SelAt, Opens, Closes, Level, Next1, Spares;
    match n
    case End =>
      NothingSpares(e, w);
    case Plain(rest) =>
      PlainTick(e, w);
      FirstTick(e, w, Ticks(rest));
      FramesStand(e, Next1(e, w), rest);
      SparesChain(e, w.m.sp, w.m.sp, w.pg, Next1(e, w).pg, Ended(e, w, n).pg);
    case Pair(kind, body, rest) =>
      var one := Next1(e, w);
      var inner := Ended(e, one, body);
      var closed := Next1(e, inner);
      OpenTick(e, w, kind);
      FramesStand(e, one, body);
      BalancedReturns(e, one, body);
      CloseTick(e, inner, kind);
      FramesStand(e, closed, rest);
      PairEnds(e, w, n);
      SparesChain(e, w.m.sp, one.m.sp, w.pg, one.pg, inner.pg);
      SparesChain(e, w.m.sp, closed.m.sp, w.pg, closed.pg, Ended(e, w, n).pg);
  }

  lemma NothingSpares(e: Env, w: World)
    requires Fits(e, w.pg)
    ensures Spares(e, w.m.sp, w.pg, w.pg)
  {
  }

  predicate AtTrapReturn(e: Env, w: World)
    requires Fits(e, w.pg)
  {
    w.m.status == Running && w.m.tick < e.cf.tb && SelAt(e, w).TrapRet?
  }

  /** A handler that is balanced and careful comes back: at its TRAPRET the trap returns,
      exactly when the address behind the EXT lies inside the image, and then PC, stack
      pointer, depth and all four flags are those of the EXT. */
  lemma HandlerComesBack(e: Env, w: World, body: Nest)
    requires Fits(e, w.pg) && Commits(e, w) && SelAt(e, w).Ext?
    requires Follows(e, Next1(e, w), body) && Careful(e, Next1(e, w), body)
    requires AtTrapReturn(e, Ended(e, Next1(e, w), body))
    ensures var inner := Ended(e, Next1(e, w), body);
      var ret := Fetch(e.cf, w.m).fall;
      && (Commits(e, inner) <==> ret < e.cf.codelen)
      && (ret < e.cf.codelen ==>
            var t := Next1(e, inner).m;
            && t.pc == ret && t.sp == w.m.sp && t.td == w.m.td
            && t.z == w.m.z && t.c == w.m.c && t.s == w.m.s && t.v == w.m.v)
  {
    hide Exec, Fetch, Follows, Careful, Spares, TrapEnter, TrapLeave, Ended;
    var one := Next1(e, w);
    var inner := Ended(e, one, body);
    CommitIsExec(e, w);
    var f := Fetch(e.cf, w.m);
    ExecIsTrap(Ext, e, f.a, w.m.pc, w.m.(pc := f.fall), w.pg);
    BalancedReturns(e, one, body);
    FramesStand(e, one, body);
    CellsStand(e, one, inner);
    var g := Fetch(e.cf, inner.m);
    ExecIsTrap(TrapRet, e, g.a, inner.m.pc, inner.m.(pc := g.fall), inner.pg);
    TrapReturns(e, f.a.i0, w.m.(pc := f.fall), w.pg, inner.m.(pc := g.fall), inner.pg);
  }

  lemma ExecIsTrap(x: Sel, e: Env, a: Args, pc0: word, m: Core, pg: seq<Page>)
    requires Fits(e, pg) && (x.Ext? || x.TrapRet?)
    ensures Exec(x, e, a, pc0, m, pg) == if x.Ext? then TrapEnter(e, a.i0, m, pg) else TrapLeave(e, m, pg)
    ensures x.Ext? && TrapEnter(e, a.i0, m, pg).Next? ==>
      4 <= m.sp && TrapEnter(e, a.i0, m, pg).m.sp == m.sp - 4
  {
    hide FlagsByte, Vector, Covered, StackCovered, PushFrame, Family;
    KindFamily(Trap, x);
  }

  lemma CellsStand(e: Env, one: World, inner: World)
    requires e.bank.own < |one.pg| && e.bank.own < |inner.pg|
    requires Spares(e, one.m.sp, one.pg, inner.pg)
    ensures one.m.sp + 4 <= DATA_SIZE ==> SameCells(Data(e, one.pg), Data(e, inner.pg), one.m.sp, 4)
    ensures one.m.sp + 2 <= DATA_SIZE ==> SameCells(Data(e, one.pg), Data(e, inner.pg), one.m.sp, 2)
  {
  }

  predicate AtReturn(e: Env, w: World)
    requires Fits(e, w.pg)
  {
    w.m.status == Running && w.m.tick < e.cf.tb && SelAt(e, w).Ret?
  }

  /** A subroutine that is balanced and careful returns behind its call, under the same
      condition. */
  lemma SubroutineReturns(e: Env, w: World, body: Nest)
    requires Fits(e, w.pg) && Commits(e, w) && (SelAt(e, w).Call? || SelAt(e, w).CallHl?)
    requires Follows(e, Next1(e, w), body) && Careful(e, Next1(e, w), body)
    requires AtReturn(e, Ended(e, Next1(e, w), body))
    ensures var inner := Ended(e, Next1(e, w), body);
      var ret := Fetch(e.cf, w.m).fall;
      && (Commits(e, inner) <==> ret < e.cf.codelen)
      && (ret < e.cf.codelen ==> Next1(e, inner).m.pc == ret && Next1(e, inner).m.sp == w.m.sp)
  {
    hide Exec, Fetch, Follows, Careful, Spares, CallTo, Return, Ended;
    var one := Next1(e, w);
    var inner := Ended(e, one, body);
    CommitIsExec(e, w);
    var f := Fetch(e.cf, w.m);
    var to := if f.sel.Call? then T16(f.a) else w.m.hl;
    ExecIsCall(f.sel, e, f.a, w.m.pc, w.m.(pc := f.fall), w.pg);
    BalancedReturns(e, one, body);
    FramesStand(e, one, body);
    CellsStand(e, one, inner);
    var g := Fetch(e.cf, inner.m);
    ExecIsCall(Ret, e, g.a, inner.m.pc, inner.m.(pc := g.fall), inner.pg);
    CallReturns(e, to, w.m.(pc := f.fall), w.pg, inner.m.(pc := g.fall), inner.pg);
  }

  lemma ExecIsCall(x: Sel, e: Env, a: Args, pc0: word, m: Core, pg: seq<Page>)
    requires Fits(e, pg) && (x.Call? || x.CallHl? || x.Ret?)
    ensures var to := if x.Call? then T16(a) else m.hl;
      && Exec(x, e, a, pc0, m, pg) == (if x.Ret? then Return(e, m, pg) else CallTo(e, m, pg, to))
      && (CallTo(e, m, pg, to).Next? ==> 2 <= m.sp && CallTo(e, m, pg, to).m.sp == m.sp - 2)
  {
    hide Covered, StackCovered, Family;
    KindFamily(Subroutine, x);
  }
}
