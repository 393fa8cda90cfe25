/** The fault sites as independent predicates, and the claim that the sequential reference
    raises the first of them, in the order the cause table states. */
module Sites {
  import opened Bits
  import opened Isa
  import opened Reference

  /** What sits at PC whether or not it may be fetched: reads are clamped into CODE, and a row
      that takes fewer operand bytes sees zeros. */
  datatype Look = Look(esc: bool, sel: Sel, a: Args, fall: nat)

  function Clamped(c: seq<byte>, i: int): byte
    requires |c| > 0
  {
    if i < 0 then c[0] else if i >= |c| then c[|c| - 1] else c[i]
  }

  function LookAt(m: Core): Look
  {
    var op := Clamped(m.code, m.pc);
    var esc := op == ESCAPE_PREFIX;
    var head := if esc then 2 else 1;
    var row := if esc then EscapeRow(Clamped(m.code, m.pc + 1)) else SingleRow(op);
    var i0 := if row.l >= 1 then Clamped(m.code, m.pc + head) else 0;
    var i1 := if row.l >= 2 then Clamped(m.code, m.pc + head + 1) else 0;
    Look(esc, row.sel, Args(row.s0, row.s1, i0, i1), m.pc + head + row.l)
  }

  datatype Site =
    | PcIllegalSite | FetchCode | BadOpcodeSite | BadSubcodeSite | FetchOperand
    | BankOobSite | BankBusySite | TrapUnregSite | TrapDepthSite | TrapUnbalancedSite
    | DataOobSite | StackPush | StackPop | TrapFrameSite | DivZeroSite | CodeOobSite
    | WindowSite | SpRange | OutCapSite | RegionViolSite

  /** The precedence order, as the table lists it. */
  const ORDER: seq<Site> := [
    PcIllegalSite, FetchCode, BadOpcodeSite, BadSubcodeSite, FetchOperand, BankOobSite,
    BankBusySite, TrapUnregSite, TrapDepthSite, TrapUnbalancedSite, DataOobSite, StackPush,
    StackPop, TrapFrameSite, DivZeroSite, CodeOobSite, WindowSite, SpRange, OutCapSite,
    RegionViolSite]

  function CauseOf(s: Site): (c: Cause)
    ensures c != Ok
  {
    match s
    case PcIllegalSite => PcIllegal
    case FetchCode => FetchOob
    case BadOpcodeSite => BadOpcode
    case BadSubcodeSite => BadSubcode
    case FetchOperand => FetchOob
    case BankOobSite => BankOob
    case BankBusySite => BankBusy
    case TrapUnregSite => TrapUnreg
    case TrapDepthSite => TrapDepth
    case TrapUnbalancedSite => TrapUnbalanced
    case DataOobSite => DataOob
    case StackPush => StackOverflow
    case StackPop => StackUnderflow
    case TrapFrameSite => TrapFrame
    case DivZeroSite => DivZero
    case CodeOobSite => CodeOob
    case WindowSite => Window
    case SpRange => DataOob
    case OutCapSite => OutCap
    case RegionViolSite => RegionViol
  }

  // ------------------------------------------------- the site predicates

  predicate MemoryOutside(k: Look, m: Core)
  {
    var sel := k.sel;
    || ((sel.MovRHl? || sel.MovHlR?) && m.hl >= DATA_SIZE)
    || ((sel.MovRDe? || sel.MovDeR?) && m.de >= DATA_SIZE)
    || ((sel.Ldx? || sel.Stx?) && Frame(m, k.a) >= DATA_SIZE)
    || ((sel.StwHlDe? || sel.LdwDeHl?) && m.hl + 1 >= DATA_SIZE)
    || ((sel.StwDeHl? || sel.LdwHlDe?) && m.de + 1 >= DATA_SIZE)
  }

  predicate StreamOutside(k: Look, m: Core)
  {
    (k.sel.OutM? && m.hl >= DATA_SIZE) || (k.sel.OutDe? && m.de >= DATA_SIZE)
  }

  predicate BankOutside(k: Look, m: Core)
  {
    var sel := k.sel;
    || ((sel.Ldm? || sel.Stm?) && m.hl >= DATA_SIZE)
    || ((sel.LdmwDeHl? || sel.StmwHlDe?) && m.hl + 1 >= DATA_SIZE)
    || ((sel.LdmwHlDe? || sel.StmwDeHl?) && m.de + 1 >= DATA_SIZE)
  }

  predicate ReadsOutside(k: Look, m: Core)
  {
    || (IsMemory(k.sel) && MemoryOutside(k, m))
    || (IsStream(k.sel) && StreamOutside(k, m))
    || (IsBank(k.sel) && BankOutside(k, m))
  }

  predicate PushesTwo(sel: Sel) { sel.Call? || sel.CallHl? || sel.PushwHl? || sel.PushwDe? }

  predicate PopsTwo(sel: Sel) { sel.Ret? || sel.PopwHl? || sel.PopwDe? }

  predicate PushesOver(cf: Config, k: Look, m: Core)
  {
    || (IsStack(k.sel) && k.sel.Push? && !Room(cf, m, 1))
    || (IsStack(k.sel) && PushesTwo(k.sel) && !Room(cf, m, 2))
    || (IsTrap(k.sel) && k.sel.Ext? && !Room(cf, m, 4))
  }

  predicate PopsUnder(k: Look, m: Core)
  {
    || (IsStack(k.sel) && k.sel.Pop? && !Have(m, 1))
    || (IsStack(k.sel) && PopsTwo(k.sel) && !Have(m, 2))
    || (IsTrap(k.sel) && k.sel.TrapRet? && !Have(m, 4))
  }

  predicate Registered(e: Env, k: Look, pg: seq<Page>)
    requires Fits(e, pg)
  {
    k.a.i0 < VEC_COUNT && Vector(e, pg, k.a.i0) != 0
  }

  /** The four bytes at the stack pointer end in a trap tag. */
  predicate Tagged(e: Env, m: Core, pg: seq<Page>)
    requires Fits(e, pg)
  {
    Clamped(Data(e, pg), m.sp + 3) == TRAP_TAG
  }

  function ReturnTo(e: Env, m: Core, pg: seq<Page>): word
    requires Fits(e, pg)
  {
    Word(Clamped(Data(e, pg), m.sp + 1), Clamped(Data(e, pg), m.sp))
  }

  predicate BranchLeaves(cf: Config, k: Look, m: Core)
  {
    var sel, t := k.sel, T16(k.a);
    var x: int := m.r[k.a.s0];
    var rel := Low16(k.fall + Signed(k.a.i0));
    || (sel.Jmp? && t >= cf.codelen)
    || (sel.Jz? && m.z == 1 && t >= cf.codelen)
    || (sel.Jnz? && m.z == 0 && t >= cf.codelen)
    || (sel.Jc? && m.c == 1 && t >= cf.codelen)
    || (sel.Jnc? && m.c == 0 && t >= cf.codelen)
    || (sel.Djnz? && Low8(x - 1) != 0 && t >= cf.codelen)
    || (sel.Js? && m.s == 1 && rel >= cf.codelen)
    || (sel.Jns? && m.s == 0 && rel >= cf.codelen)
    || (sel.Vs? && m.v == 1 && rel >= cf.codelen)
    || (sel.Vc? && m.v == 0 && rel >= cf.codelen)
    || (sel.JpHl? && m.hl >= cf.codelen)
  }

  predicate StackLeaves(e: Env, k: Look, m: Core, pg: seq<Page>)
    requires Fits(e, pg)
  {
    || (k.sel.Call? && T16(k.a) >= e.cf.codelen)
    || (k.sel.CallHl? && m.hl >= e.cf.codelen)
    || (k.sel.Ret? && ReturnTo(e, m, pg) >= e.cf.codelen)
  }

  /** Gated by everything TRAPRET and EXT check before they look at the target. */
  predicate TrapLeaves(e: Env, k: Look, m: Core, pg: seq<Page>)
    requires Fits(e, pg)
  {
    || (k.sel.TrapRet? && m.td > 0 && Have(m, 4) && Tagged(e, m, pg)
        && ReturnTo(e, m, pg) >= e.cf.codelen)
    || (k.sel.Ext? && Registered(e, k, pg) && m.td != e.cf.tdlim
        && Vector(e, pg, k.a.i0) >= e.cf.codelen)
  }

  /** The instruction would leave the image. */
  predicate LeavesImage(e: Env, k: Look, m: Core, pg: seq<Page>)
    requires Fits(e, pg)
  {
    || (IsBranch(k.sel) && BranchLeaves(e.cf, k, m))
    || (IsStack(k.sel) && StackLeaves(e, k, m, pg))
    || (IsTrap(k.sel) && TrapLeaves(e, k, m, pg))
  }

  predicate MemoryCovered(rg: seq<Region>, k: Look, m: Core)
  {
    var sel := k.sel;
    || (sel.MovHlR? && Covered(rg, m.hl))
    || (sel.MovDeR? && Covered(rg, m.de))
    || (sel.Stx? && Covered(rg, Frame(m, k.a)))
    || (sel.StwHlDe? && (Covered(rg, m.hl) || Covered(rg, m.hl + 1)))
    || (sel.StwDeHl? && (Covered(rg, m.de) || Covered(rg, m.de + 1)))
  }

  predicate StackCellsCovered(rg: seq<Region>, k: Look, m: Core)
  {
    || (k.sel.Push? && Covered(rg, m.sp - 1))
    || (PushesTwo(k.sel) && (Covered(rg, m.sp - 1) || Covered(rg, m.sp - 2)))
  }

  predicate FrameCovered(rg: seq<Region>, k: Look, m: Core)
  {
    k.sel.Ext? && (Covered(rg, m.sp - 1) || Covered(rg, m.sp - 2)
                   || Covered(rg, m.sp - 3) || Covered(rg, m.sp - 4))
  }

  predicate BankCovered(rg: seq<Region>, k: Look, m: Core)
  {
    || (k.sel.Stm? && Covered(rg, m.hl))
    || (k.sel.StmwHlDe? && (Covered(rg, m.hl) || Covered(rg, m.hl + 1)))
    || (k.sel.StmwDeHl? && (Covered(rg, m.de) || Covered(rg, m.de + 1)))
  }

  /** One of the cells the instruction stores to is write-protected by its page's owner. */
  predicate StoresCovered(e: Env, k: Look, m: Core)
  {
    || (IsMemory(k.sel) && MemoryCovered(e.cf.regions, k, m))
    || (IsStack(k.sel) && StackCellsCovered(e.cf.regions, k, m))
    || (IsTrap(k.sel) && FrameCovered(e.cf.regions, k, m))
    || (IsBank(k.sel) && BankCovered(PageRegions(e, m.mb), k, m))
  }

  predicate SpLeaves(k: Look, m: Core)
  {
    || (k.sel.MovwSpHl? && m.hl > DATA_SIZE)
    || (k.sel.MovwSpDe? && m.de > DATA_SIZE)
    || (k.sel.AddSp? && Low16(m.sp + Signed(k.a.i0)) > DATA_SIZE)
  }

  /** Whether a site fires, each evaluated on its own over the state at tick entry. */
  predicate Fires(s: Site, k: Look, e: Env, m: Core, pg: seq<Page>)
    requires Fits(e, pg)
  {
    var sel, cl := k.sel, e.cf.codelen;
    match s
    case PcIllegalSite =>
      k.fall <= cl && !PushesOver(e.cf, k, m) && !PopsUnder(k, m) && LeavesImage(e, k, m, pg)
    case FetchCode => m.pc >= cl || (k.esc && m.pc + 2 > cl)
    case BadOpcodeSite => sel.Bad? && !k.esc
    case BadSubcodeSite => sel.Bad? && k.esc
    case FetchOperand => k.fall > cl
    case BankOobSite => IsBank(sel) && BankVerdict(e, |pg|, m.mb) == BankOob
    case BankBusySite => IsBank(sel) && BankVerdict(e, |pg|, m.mb) == BankBusy
    case TrapUnregSite => IsTrap(sel) && sel.Ext? && !Registered(e, k, pg)
    case TrapDepthSite => IsTrap(sel) && sel.Ext? && Registered(e, k, pg) && m.td == e.cf.tdlim
    case TrapUnbalancedSite => IsTrap(sel) && sel.TrapRet? && m.td == 0
    case DataOobSite => ReadsOutside(k, m)
    case StackPush => PushesOver(e.cf, k, m)
    case StackPop => PopsUnder(k, m)
    case TrapFrameSite =>
      IsTrap(sel) && sel.TrapRet? && m.td > 0 && Have(m, 4) && !Tagged(e, m, pg)
    case DivZeroSite => IsAlu(sel) && (sel.Div? || sel.Mod?) && m.r[k.a.s1] == 0
    case CodeOobSite => IsMemory(sel) && (sel.Ldc? || sel.Stc?) && m.hl >= cl
    case WindowSite =>
      IsMemory(sel) && sel.Stc? && m.hl < cl && !(e.cf.winlo <= m.hl < e.cf.winhi)
    case SpRange => IsPointer(sel) && SpLeaves(k, m)
    case OutCapSite =>
      IsStream(sel) && (sel.Out? || sel.OutM? || sel.OutDe?) && |m.out| >= e.cf.outcap
    case RegionViolSite => StoresCovered(e, k, m)
  }

  /** The cause of the first site that fires, down the order; `Ok` when none does. */
  function FirstCause(k: Look, e: Env, m: Core, pg: seq<Page>): Cause
    requires Fits(e, pg)
  {
    if Fires(PcIllegalSite, k, e, m, pg) then CauseOf(PcIllegalSite)
    else if Fires(FetchCode, k, e, m, pg) then CauseOf(FetchCode)
    else if Fires(BadOpcodeSite, k, e, m, pg) then CauseOf(BadOpcodeSite)
    else if Fires(BadSubcodeSite, k, e, m, pg) then CauseOf(BadSubcodeSite)
    else if Fires(FetchOperand, k, e, m, pg) then CauseOf(FetchOperand)
    else if Fires(BankOobSite, k, e, m, pg) then CauseOf(BankOobSite)
    else if Fires(BankBusySite, k, e, m, pg) then CauseOf(BankBusySite)
    else if Fires(TrapUnregSite, k, e, m, pg) then CauseOf(TrapUnregSite)
    else if Fires(TrapDepthSite, k, e, m, pg) then CauseOf(TrapDepthSite)
    else if Fires(TrapUnbalancedSite, k, e, m, pg) then CauseOf(TrapUnbalancedSite)
    else if Fires(DataOobSite, k, e, m, pg) then CauseOf(DataOobSite)
    else if Fires(StackPush, k, e, m, pg) then CauseOf(StackPush)
    else if Fires(StackPop, k, e, m, pg) then CauseOf(StackPop)
    else if Fires(TrapFrameSite, k, e, m, pg) then CauseOf(TrapFrameSite)
    else if Fires(DivZeroSite, k, e, m, pg) then CauseOf(DivZeroSite)
    else if Fires(CodeOobSite, k, e, m, pg) then CauseOf(CodeOobSite)
    else if Fires(WindowSite, k, e, m, pg) then CauseOf(WindowSite)
    else if Fires(SpRange, k, e, m, pg) then CauseOf(SpRange)
    else if Fires(OutCapSite, k, e, m, pg) then CauseOf(OutCapSite)
    else if Fires(RegionViolSite, k, e, m, pg) then CauseOf(RegionViolSite)
    else Ok
  }

  /** The twenty signals, in the order of the table. */
  function Signals(k: Look, e: Env, m: Core, pg: seq<Page>): seq<bool>
    requires Fits(e, pg)
  {
    seq(|ORDER|, i requires 0 <= i < |ORDER| => Fires(ORDER[i], k, e, m, pg))
  }

  /** The cause of the first signal that is up; `Ok` when none is. */
  function FirstUp(g: seq<bool>): Cause
    requires |g| == |ORDER|
  {
    if g[0] then CauseOf(PcIllegalSite)
    else if g[1] then CauseOf(FetchCode)
    else if g[2] then CauseOf(BadOpcodeSite)
    else if g[3] then CauseOf(BadSubcodeSite)
    else if g[4] then CauseOf(FetchOperand)
    else if g[5] then CauseOf(BankOobSite)
    else if g[6] then CauseOf(BankBusySite)
    else if g[7] then CauseOf(TrapUnregSite)
    else if g[8] then CauseOf(TrapDepthSite)
    else if g[9] then CauseOf(TrapUnbalancedSite)
    else if g[10] then CauseOf(DataOobSite)
    else if g[11] then CauseOf(StackPush)
    else if g[12] then CauseOf(StackPop)
    else if g[13] then CauseOf(TrapFrameSite)
    else if g[14] then CauseOf(DivZeroSite)
    else if g[15] then CauseOf(CodeOobSite)
    else if g[16] then CauseOf(WindowSite)
    else if g[17] then CauseOf(SpRange)
    else if g[18] then CauseOf(OutCapSite)
    else if g[19] then CauseOf(RegionViolSite)
    else Ok
  }

  function CauseRaised(o: Outcome): Cause { if o.Fault? then o.cause else Ok }

  // ------------------------------------------------------------- precedence

  /** A fetch that succeeds sees what `LookAt` sees; one that fails is the first site. */
  lemma FetchRanked(e: Env, m: Core, pg: seq<Page>)
    requires Fits(e, pg)
    ensures var k := LookAt(m);
      match Fetch(e.cf, m)
      case Refused(cause) => FirstCause(k, e, m, pg) == cause
      case Decoded(sel, a, fall) => sel == k.sel && a == k.a && fall == k.fall && Fetched(k, e, m)
  {
  }

  /** The fetch sites are all quiet. */
  predicate Fetched(k: Look, e: Env, m: Core)
  {
    !k.sel.Bad? && k.fall <= e.cf.codelen && m.pc < e.cf.codelen && (k.esc ==> m.pc + 2 <= e.cf.codelen)
  }

  function Executed(k: Look, e: Env, m: Core, pg: seq<Page>): Outcome
    requires Fits(e, pg) && Fetched(k, e, m)
  {
    Exec(k.sel, e, k.a, m.pc, m.(pc := k.fall), pg)
  }

  // Per family: the chain of causes that is left of the order, and its agreement with the
  // order of the checks in the code.

  /** A family without stack or branch effects fires none of the control sites. */
  lemma NoControl(k: Look, e: Env, m: Core, pg: seq<Page>)
    requires Fits(e, pg) && (IsAlu(k.sel) || IsPointer(k.sel) || IsMemory(k.sel) || IsStream(k.sel)
                             || IsBank(k.sel))
    ensures !PushesOver(e.cf, k, m) && !PopsUnder(k, m) && !LeavesImage(e, k, m, pg)
  {
  }

  /** The stack families address DATA through the stack pointer only. */
  lemma NoAddress(k: Look, e: Env, m: Core)
    requires IsStack(k.sel) || IsTrap(k.sel)
    ensures !ReadsOutside(k, m)
  {
  }

  /** After a fetch, a site guarded by another family is quiet. */
  lemma OthersQuiet(k: Look, e: Env, m: Core, pg: seq<Page>)
    requires Fits(e, pg) && Fetched(k, e, m)
    ensures !Fires(FetchCode, k, e, m, pg) && !Fires(BadOpcodeSite, k, e, m, pg)
    ensures !Fires(BadSubcodeSite, k, e, m, pg) && !Fires(FetchOperand, k, e, m, pg)
    ensures !IsBank(k.sel) ==> !Fires(BankOobSite, k, e, m, pg) && !Fires(BankBusySite, k, e, m, pg)
    ensures !IsTrap(k.sel) ==> !Fires(TrapUnregSite, k, e, m, pg) && !Fires(TrapDepthSite, k, e, m, pg)
    ensures !IsTrap(k.sel) ==> !Fires(TrapUnbalancedSite, k, e, m, pg) && !Fires(TrapFrameSite, k, e, m, pg)
    ensures !IsAlu(k.sel) ==> !Fires(DivZeroSite, k, e, m, pg)
    ensures !IsMemory(k.sel) ==> !Fires(CodeOobSite, k, e, m, pg) && !Fires(WindowSite, k, e, m, pg)
    ensures !IsPointer(k.sel) ==> !Fires(SpRange, k, e, m, pg)
    ensures !IsStream(k.sel) ==> !Fires(OutCapSite, k, e, m, pg)
  {
    hide Family, SpLeaves, BankVerdict, Registered, Tagged, Have, Legal;
  }

  /** A family without control effects fires no control site. */
  lemma ControlQuiet(k: Look, e: Env, m: Core, pg: seq<Page>)
    requires Fits(e, pg) && (IsAlu(k.sel) || IsPointer(k.sel) || IsMemory(k.sel) || IsStream(k.sel)
                             || IsBank(k.sel))
    ensures !Fires(PcIllegalSite, k, e, m, pg) && !Fires(StackPush, k, e, m, pg) && !Fires(StackPop, k, e, m, pg)
  {
    hide PushesOver, PopsUnder, LeavesImage, Family, Legal;
    NoControl(k, e, m, pg);
  }

  function AluCause(k: Look, e: Env, m: Core, pg: seq<Page>): Cause
    requires Fits(e, pg)
  {
    if (k.sel.Div? || k.sel.Mod?) && m.r[k.a.s1] == 0 then DivZero
    else Ok
  }

  lemma AluFires(k: Look, e: Env, m: Core, pg: seq<Page>)
    requires Fits(e, pg) && Fetched(k, e, m) && IsAlu(k.sel)
    ensures Fires(DivZeroSite, k, e, m, pg) == ((k.sel.Div? || k.sel.Mod?) && m.r[k.a.s1] == 0)
    ensures !Fires(DataOobSite, k, e, m, pg) && !Fires(RegionViolSite, k, e, m, pg)
  {
    hide Family, MemoryOutside, MemoryCovered, StreamOutside, BankOutside, StackCellsCovered, FrameCovered,
         BankCovered, Legal;
  }

  lemma AluChain(k: Look, e: Env, m: Core, pg: seq<Page>)
    requires Fits(e, pg) && Fetched(k, e, m) && IsAlu(k.sel)
    ensures FirstCause(k, e, m, pg) == AluCause(k, e, m, pg)
  {
    hide Family, Fires, Legal, Fetched;
    OthersQuiet(k, e, m, pg);
    ControlQuiet(k, e, m, pg);
    AluFires(k, e, m, pg);
  }

  lemma AluRanked(k: Look, e: Env, m: Core, pg: seq<Page>)
    requires Fits(e, pg) && Fetched(k, e, m) && IsAlu(k.sel)
    ensures var m1 := m.(pc := k.fall);
      AluCause(k, e, m, pg) == CauseRaised(ExecAlu(k.sel, k.a, m.pc, m1, pg))
  {
    hide AluOf;
  }

  function PointerCause(k: Look, e: Env, m: Core, pg: seq<Page>): Cause
    requires Fits(e, pg)
  {
    if SpLeaves(k, m) then DataOob
    else Ok
  }

  lemma PointerChain(k: Look, e: Env, m: Core, pg: seq<Page>)
    requires Fits(e, pg) && Fetched(k, e, m) && IsPointer(k.sel)
    ensures FirstCause(k, e, m, pg) == PointerCause(k, e, m, pg)
  {
    hide Family, PushesOver, PopsUnder, LeavesImage, SpLeaves, BranchLeaves, StackLeaves, StackCellsCovered,
         MemoryOutside, MemoryCovered, StreamOutside, BankOutside, BankCovered, BankVerdict, TrapLeaves,
         FrameCovered, Registered, Tagged, Have, Room;
    NoControl(k, e, m, pg);
  }

  lemma PointerRanked(k: Look, e: Env, m: Core, pg: seq<Page>)
    requires Fits(e, pg) && Fetched(k, e, m) && IsPointer(k.sel)
    ensures var m1 := m.(pc := k.fall);
      PointerCause(k, e, m, pg) == CauseRaised(ExecPointer(k.sel, k.a, m1, pg))
  {
  }

  function BranchCause(k: Look, e: Env, m: Core, pg: seq<Page>): Cause
    requires Fits(e, pg)
  {
    if BranchLeaves(e.cf, k, m) then PcIllegal
    else Ok
  }

  lemma BranchChain(k: Look, e: Env, m: Core, pg: seq<Page>)
    requires Fits(e, pg) && Fetched(k, e, m) && IsBranch(k.sel)
    ensures FirstCause(k, e, m, pg) == BranchCause(k, e, m, pg)
  {
    hide SpLeaves, BranchLeaves, StackLeaves, StackCellsCovered, MemoryOutside, MemoryCovered, StreamOutside,
         BankOutside, BankCovered, BankVerdict, TrapLeaves, FrameCovered, Registered, Tagged, Have, Room;
  }

  lemma BranchRanked(k: Look, e: Env, m: Core, pg: seq<Page>)
    requires Fits(e, pg) && Fetched(k, e, m) && IsBranch(k.sel)
    ensures var m1 := m.(pc := k.fall);
      BranchCause(k, e, m, pg) == CauseRaised(ExecBranch(k.sel, e.cf, k.a, m1, pg))
  {
  }

  function StackCause(k: Look, e: Env, m: Core, pg: seq<Page>): Cause
    requires Fits(e, pg)
  {
    if !PushesOver(e.cf, k, m) && !PopsUnder(k, m) && StackLeaves(e, k, m, pg) then PcIllegal
    else if PushesOver(e.cf, k, m) then StackOverflow
    else if PopsUnder(k, m) then StackUnderflow
    else if StackCellsCovered(e.cf.regions, k, m) then RegionViol
    else Ok
  }

  /** Off the stack family's own sites nothing fires. */
  lemma StackSites(k: Look, e: Env, m: Core, pg: seq<Page>)
    requires Fits(e, pg) && Fetched(k, e, m) && IsStack(k.sel)
    ensures !Fires(FetchCode, k, e, m, pg) && !Fires(BadOpcodeSite, k, e, m, pg)
    ensures !Fires(BadSubcodeSite, k, e, m, pg) && !Fires(FetchOperand, k, e, m, pg)
    ensures !Fires(BankOobSite, k, e, m, pg) && !Fires(BankBusySite, k, e, m, pg)
    ensures !Fires(TrapUnregSite, k, e, m, pg) && !Fires(TrapDepthSite, k, e, m, pg)
    ensures !Fires(TrapUnbalancedSite, k, e, m, pg) && !Fires(DataOobSite, k, e, m, pg)
    ensures !Fires(TrapFrameSite, k, e, m, pg) && !Fires(DivZeroSite, k, e, m, pg)
    ensures !Fires(CodeOobSite, k, e, m, pg) && !Fires(WindowSite, k, e, m, pg)
    ensures !Fires(SpRange, k, e, m, pg) && !Fires(OutCapSite, k, e, m, pg)
  {
    hide Family, ReadsOutside, PushesOver, SpLeaves, BranchLeaves, StackLeaves, StackCellsCovered,
         MemoryOutside, MemoryCovered, StreamOutside, BankOutside, BankCovered, BankVerdict, TrapLeaves,
         FrameCovered, Registered, Tagged, Have, Room, PopsUnder;
    NoAddress(k, e, m);
  }

  lemma StackChain(k: Look, e: Env, m: Core, pg: seq<Page>)
    requires Fits(e, pg) && Fetched(k, e, m) && IsStack(k.sel)
    ensures FirstCause(k, e, m, pg) == StackCause(k, e, m, pg)
  {
    hide Fires, PushesOver, PopsUnder, StackLeaves, StackCellsCovered, Family;
    StackSites(k, e, m, pg);
    StackSignals(k, e, m, pg);
  }

  lemma StackSignals(k: Look, e: Env, m: Core, pg: seq<Page>)
    requires Fits(e, pg) && Fetched(k, e, m) && IsStack(k.sel)
    ensures Fires(PcIllegalSite, k, e, m, pg)
            == (!PushesOver(e.cf, k, m) && !PopsUnder(k, m) && StackLeaves(e, k, m, pg))
    ensures Fires(StackPush, k, e, m, pg) == PushesOver(e.cf, k, m)
    ensures Fires(StackPop, k, e, m, pg) == PopsUnder(k, m)
    ensures Fires(RegionViolSite, k, e, m, pg) == StackCellsCovered(e.cf.regions, k, m)
  {
    hide Family, ReadsOutside, PushesOver, SpLeaves, BranchLeaves, StackLeaves, StackCellsCovered,
         MemoryOutside, MemoryCovered, StreamOutside, BankOutside, BankCovered, BankVerdict, TrapLeaves,
         FrameCovered, Registered, Tagged, Have, Room, PopsUnder;
  }

  lemma StackRanked(k: Look, e: Env, m: Core, pg: seq<Page>)
    requires Fits(e, pg) && Fetched(k, e, m) && IsStack(k.sel)
    ensures var m1 := m.(pc := k.fall);
      StackCause(k, e, m, pg) == CauseRaised(ExecStack(k.sel, e, k.a, m1, pg))
  {
    StackCoveredCells(e.cf, m.(pc := k.fall));
  }

  function MemoryCause(k: Look, e: Env, m: Core, pg: seq<Page>): Cause
    requires Fits(e, pg)
  {
    if MemoryOutside(k, m) then DataOob
    else if (k.sel.Ldc? || k.sel.Stc?) && m.hl >= e.cf.codelen then CodeOob
    else if k.sel.Stc? && !(e.cf.winlo <= m.hl < e.cf.winhi) then Window
    else if MemoryCovered(e.cf.regions, k, m) then RegionViol
    else Ok
  }

  lemma MemoryFires(k: Look, e: Env, m: Core, pg: seq<Page>)
    requires Fits(e, pg) && Fetched(k, e, m) && IsMemory(k.sel)
    ensures Fires(DataOobSite, k, e, m, pg) == MemoryOutside(k, m)
    ensures Fires(CodeOobSite, k, e, m, pg) == ((k.sel.Ldc? || k.sel.Stc?) && m.hl >= e.cf.codelen)
    ensures Fires(WindowSite, k, e, m, pg)
            == (k.sel.Stc? && m.hl < e.cf.codelen && !(e.cf.winlo <= m.hl < e.cf.winhi))
    ensures Fires(RegionViolSite, k, e, m, pg) == MemoryCovered(e.cf.regions, k, m)
  {
    hide Family, MemoryOutside, MemoryCovered, StreamOutside, BankOutside, Legal;
  }

  lemma MemoryChain(k: Look, e: Env, m: Core, pg: seq<Page>)
    requires Fits(e, pg) && Fetched(k, e, m) && IsMemory(k.sel)
    ensures FirstCause(k, e, m, pg) == MemoryCause(k, e, m, pg)
  {
    hide Family, Fires, MemoryOutside, MemoryCovered, Legal, Fetched;
    OthersQuiet(k, e, m, pg);
    ControlQuiet(k, e, m, pg);
    MemoryFires(k, e, m, pg);
  }

  lemma ByteMoveRanked(k: Look, e: Env, m: Core, pg: seq<Page>)
    requires Fits(e, pg) && Fetched(k, e, m)
    requires var sel := k.sel;
      sel.MovRHl? || sel.MovRDe? || sel.Ldx? || sel.MovHlR? || sel.MovDeR? || sel.Stx?
    ensures var m1 := m.(pc := k.fall);
      MemoryCause(k, e, m, pg) == CauseRaised(ExecMemory(k.sel, e, k.a, m1, pg))
  {
  }

  lemma WordMoveRanked(k: Look, e: Env, m: Core, pg: seq<Page>)
    requires Fits(e, pg) && Fetched(k, e, m)
    requires var sel := k.sel;
      sel.StwHlDe? || sel.StwDeHl? || sel.LdwDeHl? || sel.LdwHlDe? || sel.Ldc? || sel.Stc?
    ensures var m1 := m.(pc := k.fall);
      MemoryCause(k, e, m, pg) == CauseRaised(ExecMemory(k.sel, e, k.a, m1, pg))
  {
  }

  lemma MemoryRanked(k: Look, e: Env, m: Core, pg: seq<Page>)
    requires Fits(e, pg) && Fetched(k, e, m) && IsMemory(k.sel)
    ensures var m1 := m.(pc := k.fall);
      MemoryCause(k, e, m, pg) == CauseRaised(ExecMemory(k.sel, e, k.a, m1, pg))
  {
    hide MemoryCause, ExecMemory;
    var sel := k.sel;
    if sel.MovRHl? || sel.MovRDe? || sel.Ldx? || sel.MovHlR? || sel.MovDeR? || sel.Stx? {
      ByteMoveRanked(k, e, m, pg);
    } else {
      WordMoveRanked(k, e, m, pg);
    }
  }

  function StreamCause(k: Look, e: Env, m: Core, pg: seq<Page>): Cause
    requires Fits(e, pg)
  {
    if StreamOutside(k, m) then DataOob
    else if !k.sel.In? && |m.out| >= e.cf.outcap then OutCap
    else Ok
  }

  lemma StreamFires(k: Look, e: Env, m: Core, pg: seq<Page>)
    requires Fits(e, pg) && Fetched(k, e, m) && IsStream(k.sel)
    ensures Fires(DataOobSite, k, e, m, pg) == StreamOutside(k, m)
    ensures Fires(OutCapSite, k, e, m, pg) == (!k.sel.In? && |m.out| >= e.cf.outcap)
    ensures !Fires(RegionViolSite, k, e, m, pg)
  {
    hide MemoryOutside, MemoryCovered, StreamOutside, BankOutside, StackCellsCovered, FrameCovered, BankCovered, Legal;
  }

  lemma StreamChain(k: Look, e: Env, m: Core, pg: seq<Page>)
    requires Fits(e, pg) && Fetched(k, e, m) && IsStream(k.sel)
    ensures FirstCause(k, e, m, pg) == StreamCause(k, e, m, pg)
  {
    hide Family, Fires, StreamOutside, Legal, Fetched;
    OthersQuiet(k, e, m, pg);
    ControlQuiet(k, e, m, pg);
    StreamFires(k, e, m, pg);
  }

  lemma StreamRanked(k: Look, e: Env, m: Core, pg: seq<Page>)
    requires Fits(e, pg) && Fetched(k, e, m) && IsStream(k.sel)
    ensures var m1 := m.(pc := k.fall);
      StreamCause(k, e, m, pg) == CauseRaised(ExecStream(k.sel, e, k.a, m1, pg))
  {
  }

  function BankCause(k: Look, e: Env, m: Core, pg: seq<Page>): Cause
    requires Fits(e, pg)
  {
    if BankVerdict(e, |pg|, m.mb) != Ok then BankVerdict(e, |pg|, m.mb)
    else if BankOutside(k, m) then DataOob
    else if BankCovered(PageRegions(e, m.mb), k, m) then RegionViol
    else Ok
  }

  lemma BankChain(k: Look, e: Env, m: Core, pg: seq<Page>)
    requires Fits(e, pg) && Fetched(k, e, m) && IsBank(k.sel)
    ensures FirstCause(k, e, m, pg) == BankCause(k, e, m, pg)
  {
    hide Family, PushesOver, PopsUnder, LeavesImage, SpLeaves, BranchLeaves, StackLeaves, StackCellsCovered,
         MemoryOutside, MemoryCovered, StreamOutside, BankOutside, BankCovered, BankVerdict, TrapLeaves,
         FrameCovered, Registered, Tagged, Have, Room;
    NoControl(k, e, m, pg);
  }

  lemma BankRanked(k: Look, e: Env, m: Core, pg: seq<Page>)
    requires Fits(e, pg) && Fetched(k, e, m) && IsBank(k.sel)
    ensures var m1 := m.(pc := k.fall);
      BankCause(k, e, m, pg) == CauseRaised(ExecBank(k.sel, e, k.a, m1, pg))
  {
  }

  function TrapCause(k: Look, e: Env, m: Core, pg: seq<Page>): Cause
    requires Fits(e, pg)
  {
    if !PushesOver(e.cf, k, m) && !PopsUnder(k, m) && TrapLeaves(e, k, m, pg) then PcIllegal
    else if k.sel.Ext? && !Registered(e, k, pg) then TrapUnreg
    else if k.sel.Ext? && m.td == e.cf.tdlim then TrapDepth
    else if k.sel.TrapRet? && m.td == 0 then TrapUnbalanced
    else if PushesOver(e.cf, k, m) then StackOverflow
    else if PopsUnder(k, m) then StackUnderflow
    else if k.sel.TrapRet? && !Tagged(e, m, pg) then TrapFrame
    else if FrameCovered(e.cf.regions, k, m) then RegionViol
    else Ok
  }

  lemma TrapSites(k: Look, e: Env, m: Core, pg: seq<Page>)
    requires Fits(e, pg) && Fetched(k, e, m) && IsTrap(k.sel)
    ensures !Fires(FetchCode, k, e, m, pg) && !Fires(BadOpcodeSite, k, e, m, pg)
    ensures !Fires(BadSubcodeSite, k, e, m, pg) && !Fires(FetchOperand, k, e, m, pg)
    ensures !Fires(BankOobSite, k, e, m, pg) && !Fires(BankBusySite, k, e, m, pg)
    ensures !Fires(DataOobSite, k, e, m, pg) && !Fires(DivZeroSite, k, e, m, pg)
    ensures !Fires(CodeOobSite, k, e, m, pg) && !Fires(WindowSite, k, e, m, pg)
    ensures !Fires(SpRange, k, e, m, pg) && !Fires(OutCapSite, k, e, m, pg)
  {
    hide Family, ReadsOutside, PushesOver, SpLeaves, BranchLeaves, StackLeaves, StackCellsCovered,
         MemoryOutside, MemoryCovered, StreamOutside, BankOutside, BankCovered, BankVerdict, TrapLeaves,
         FrameCovered, Registered, Tagged, Have, Room, PopsUnder;
    NoAddress(k, e, m);
  }

  lemma TrapSignals(k: Look, e: Env, m: Core, pg: seq<Page>)
    requires Fits(e, pg) && Fetched(k, e, m) && IsTrap(k.sel)
    ensures Fires(PcIllegalSite, k, e, m, pg)
            == (!PushesOver(e.cf, k, m) && !PopsUnder(k, m) && TrapLeaves(e, k, m, pg))
    ensures Fires(StackPush, k, e, m, pg) == PushesOver(e.cf, k, m)
    ensures Fires(StackPop, k, e, m, pg) == PopsUnder(k, m)
    ensures Fires(RegionViolSite, k, e, m, pg) == FrameCovered(e.cf.regions, k, m)
    ensures Fires(TrapUnregSite, k, e, m, pg) == (k.sel.Ext? && !Registered(e, k, pg))
    ensures Fires(TrapDepthSite, k, e, m, pg) == (k.sel.Ext? && Registered(e, k, pg) && m.td == e.cf.tdlim)
    ensures Fires(TrapUnbalancedSite, k, e, m, pg) == (k.sel.TrapRet? && m.td == 0)
    ensures Fires(TrapFrameSite, k, e, m, pg)
            == (k.sel.TrapRet? && m.td > 0 && Have(m, 4) && !Tagged(e, m, pg))
    ensures k.sel.TrapRet? && !Have(m, 4) ==> PopsUnder(k, m)
  {
    hide Family, ReadsOutside, PushesOver, SpLeaves, BranchLeaves, StackLeaves, StackCellsCovered,
         MemoryOutside, MemoryCovered, StreamOutside, BankOutside, BankCovered, BankVerdict, TrapLeaves,
         FrameCovered, Registered, Tagged, Have, Room;
  }

  lemma TrapChain(k: Look, e: Env, m: Core, pg: seq<Page>)
    requires Fits(e, pg) && Fetched(k, e, m) && IsTrap(k.sel)
    ensures FirstCause(k, e, m, pg) == TrapCause(k, e, m, pg)
  {
    hide Fires, Registered, Tagged, Have, PushesOver, PopsUnder, TrapLeaves, FrameCovered, Family;
    TrapSites(k, e, m, pg);
    TrapSignals(k, e, m, pg);
  }

  lemma TrapRanked(k: Look, e: Env, m: Core, pg: seq<Page>)
    requires Fits(e, pg) && Fetched(k, e, m) && IsTrap(k.sel)
    ensures var m1 := m.(pc := k.fall);
      TrapCause(k, e, m, pg) == CauseRaised(ExecTrap(k.sel, e, k.a, m1, pg))
  {
    StackCoveredCells(e.cf, m.(pc := k.fall));
  }

  /** The sequential reference raises exactly the first site that fires, and commits exactly
      when none does. */
  lemma FaultPrecedence(e: Env, m: Core, pg: seq<Page>)
    requires Fits(e, pg)
    ensures FirstCause(LookAt(m), e, m, pg) == CauseRaised(Step(e, m, pg))
  {
    var k := LookAt(m);
    FetchRanked(e, m, pg);
    if Fetch(e.cf, m).Decoded? {
      ExecRanked(k, e, m, pg);
    }
  }

  lemma ExecRanked(k: Look, e: Env, m: Core, pg: seq<Page>)
    requires Fits(e, pg) && Fetched(k, e, m)
    ensures FirstCause(k, e, m, pg) == CauseRaised(Executed(k, e, m, pg))
  {
    hide FirstCause, ExecAlu, ExecPointer, ExecBranch, ExecStack, ExecMemory, ExecStream, ExecBank, ExecTrap;
    if IsAlu(k.sel) {
      AluChain(k, e, m, pg);
      AluRanked(k, e, m, pg);
    } else if IsPointer(k.sel) {
      PointerChain(k, e, m, pg);
      PointerRanked(k, e, m, pg);
    } else if IsBranch(k.sel) {
      BranchChain(k, e, m, pg);
      BranchRanked(k, e, m, pg);
    } else if IsStack(k.sel) {
      StackChain(k, e, m, pg);
      StackRanked(k, e, m, pg);
    } else if IsMemory(k.sel) {
      MemoryChain(k, e, m, pg);
      MemoryRanked(k, e, m, pg);
    } else if IsStream(k.sel) {
      StreamChain(k, e, m, pg);
      StreamRanked(k, e, m, pg);
    } else if IsBank(k.sel) {
      BankChain(k, e, m, pg);
      BankRanked(k, e, m, pg);
    } else if IsTrap(k.sel) {
      TrapChain(k, e, m, pg);
      TrapRanked(k, e, m, pg);
    }
  }

  lemma FirstUpAt(g: seq<bool>, i: nat)
    requires |g| == |ORDER| && i <= |ORDER|
    requires forall j :: 0 <= j < i ==> !g[j]
    requires i < |ORDER| ==> g[i]
    ensures FirstUp(g) == if i < |ORDER| then CauseOf(ORDER[i]) else Ok
  {
  }

  lemma FirstCauseIsFirstUp(k: Look, e: Env, m: Core, pg: seq<Page>)
    requires Fits(e, pg)
    ensures FirstCause(k, e, m, pg) == FirstUp(Signals(k, e, m, pg))
  {
    hide Fires;
    var g := Signals(k, e, m, pg);
    assert forall i :: 0 <= i < |ORDER| ==> g[i] == Fires(ORDER[i], k, e, m, pg);
  }

  /** Read against the order itself: the raised cause belongs to a site that fires while no
      earlier one does, and a commit means that no site fires. */
  lemma FirstInOrder(e: Env, m: Core, pg: seq<Page>)
    requires Fits(e, pg)
    ensures match Step(e, m, pg)
      case Fault(cause) =>
        exists i :: 0 <= i < |ORDER| && CauseOf(ORDER[i]) == cause
          && Fires(ORDER[i], LookAt(m), e, m, pg)
          && forall j :: 0 <= j < i ==> !Fires(ORDER[j], LookAt(m), e, m, pg)
      case Next(_, _) => forall j :: 0 <= j < |ORDER| ==> !Fires(ORDER[j], LookAt(m), e, m, pg)
  {
    hide Fires, Step, LookAt, FirstUp, Fits;
    FaultPrecedence(e, m, pg);
    StepFramed(e, m, pg);
    var k := LookAt(m);
    FirstCauseIsFirstUp(k, e, m, pg);
    var g := Signals(k, e, m, pg);
    assert forall j :: 0 <= j < |ORDER| ==> g[j] == Fires(ORDER[j], k, e, m, pg);
    var i := 0;
    while i < |ORDER| && !g[i]
      invariant 0 <= i <= |ORDER|
      invariant forall j :: 0 <= j < i ==> !g[j]
    {
      i := i + 1;
    }
    FirstUpAt(g, i);
  }

  /** Every site has its place in the order. */
  lemma OrderIsComplete(s: Site)
    ensures s in ORDER
  {
    assert ORDER[Rank(s)] == s;
  }

  /** The position of a site in the order. */
  function Rank(s: Site): (i: nat)
    ensures i < |ORDER| && ORDER[i] == s
  {
    match s
    case PcIllegalSite => 0 case FetchCode => 1 case BadOpcodeSite => 2
    case BadSubcodeSite => 3 case FetchOperand => 4 case BankOobSite => 5
    case BankBusySite => 6 case TrapUnregSite => 7 case TrapDepthSite => 8
    case TrapUnbalancedSite => 9 case DataOobSite => 10 case StackPush => 11
    case StackPop => 12 case TrapFrameSite => 13 case DivZeroSite => 14 case CodeOobSite => 15
    case WindowSite => 16 case SpRange => 17 case OutCapSite => 18 case RegionViolSite => 19
  }

}
