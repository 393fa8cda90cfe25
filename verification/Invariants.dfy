/** What every step keeps, whatever the instruction, and what therefore holds in every state a
    machine can reach: the bounds of the state table, the output and input cursors, the CODE
    outside the window, the DATA inside the protected regions. */
module Invariants {
  import opened Bits
  import opened Isa
  import opened Reference
  import M = Machine

  // ----------------------------------------------------------- one commit

  /** Where a commit may leave PC and the trap depth. */
  predicate ControlKept(e: Env, m: Core, m': Core)
  {
    && (m'.pc == m.pc || m'.pc < e.cf.codelen)
    && (m'.td == m.td || (m'.td == m.td + 1 && m.td != e.cf.tdlim) || m'.td + 1 == m.td)
  }

  /** The streams only move forward, and stay inside their capacities. */
  predicate StreamsKept(e: Env, m: Core, m': Core)
  {
    && (m'.out == m.out || (|m.out| < e.cf.outcap && |m'.out| == |m.out| + 1 && m'.out[..|m.out|] == m.out))
    && (m'.ipos == m.ipos || (m.ipos < |e.inputs| && m'.ipos == m.ipos + 1))
  }

  /** CODE changes by one committed STC at a time, inside the window, and the log counts it. */
  predicate CodeKept(e: Env, m: Core, m': Core)
  {
    || (m'.code == m.code && m'.stcCount == m.stcCount && m'.stcFirst == m.stcFirst)
    || (&& e.cf.winlo <= m.hl < e.cf.winhi <= CODE_SIZE
        && m'.stcCount == m.stcCount + 1
        && m'.stcFirst == (if m.stcCount == 0 then m.hl else m.stcFirst)
        && (forall i :: 0 <= i < CODE_SIZE && i != m.hl ==> m'.code[i] == m.code[i]))
  }

  /** The machine may write page `k`: it owns it, or the ownership rule lets it through. */
  predicate MayWrite(e: Env, pages: nat, k: nat)
  {
    k == e.bank.own || (k < 65536 && BankVerdict(e, pages, k) == Ok)
  }

  /** A byte changes only on a page the machine may write, outside the page's regions, and
      only on its own page or the one its selector names. */
  predicate PagesKept(e: Env, m: Core, pg: seq<Page>, pg': seq<Page>)
  {
    && |pg'| == |pg|
    && forall k, a :: 0 <= k < |pg| && 0 <= a < DATA_SIZE && pg'[k][a] != pg[k][a] ==>
         && (k == e.bank.own || k == m.mb)
         && MayWrite(e, |pg|, k)
         && (k < 65536 ==> !Covered(PageRegions(e, k), a))
  }

  ghost predicate Kept(sel: Sel, e: Env, m: Core, pg: seq<Page>, o: Outcome)
  {
    o.Next? ==>
      ControlKept(e, m, o.m) && StreamsKept(e, m, o.m) && CodeKept(e, m, o.m)
      && PagesKept(e, m, pg, o.pg) && (o.m.stcCount == m.stcCount <==> !sel.Stc?)
      && (o.m.td == m.td + 1 <==> sel.Ext?)
  }

  lemma PutKept(e: Env, m: Core, pg: seq<Page>, k: nat, a: int, v: byte)
    requires k < |pg| && 0 <= a < DATA_SIZE && MayWrite(e, |pg|, k)
    requires k == e.bank.own || k == m.mb
    requires k < 65536 ==> !Covered(PageRegions(e, k), a)
    ensures PagesKept(e, m, pg, Put(pg, k, a, v))
  {
    hide BankVerdict, PageRegions, Covered;
  }

  lemma PutTwiceKept(e: Env, m: Core, pg: seq<Page>, k: nat, a: int, v: byte, b: int, u: byte)
    requires k < |pg| && 0 <= a < DATA_SIZE && 0 <= b < DATA_SIZE && MayWrite(e, |pg|, k)
    requires k == e.bank.own || k == m.mb
    requires k < 65536 ==> !Covered(PageRegions(e, k), a) && !Covered(PageRegions(e, k), b)
    ensures PagesKept(e, m, pg, Put(Put(pg, k, a, v), k, b, u))
  {
    hide BankVerdict, PageRegions, Covered;
  }

  lemma FrameKept(e: Env, m: Core, pg: seq<Page>, sp: address, flags: byte, ret: word)
    requires Fits(e, pg) && 4 <= sp && sp == m.sp && !StackCovered(e.cf, m, 4)
    ensures PagesKept(e, m, pg, PushFrame(pg, e.bank.own, sp, flags, ret))
  {
    StackCoveredCells(e.cf, m);
    hide BankVerdict, Covered;
  }

  lemma StackKept(sel: Sel, e: Env, a: Args, m: Core, pg: seq<Page>)
    requires Fits(e, pg) && IsStack(sel)
    ensures Kept(sel, e, m, pg, ExecStack(sel, e, a, m, pg))
  {
    hide Covered, StackCovered, PagesKept, Put;
    StackCoveredCells(e.cf, m);
    var o := ExecStack(sel, e, a, m, pg);
    var k := e.bank.own;
    if o.Next? {
      if sel.Call? || sel.CallHl? {
        PutTwiceKept(e, m, pg, k, m.sp - 1, m.pc % 256, m.sp - 2, m.pc / 256);
      } else if sel.Push? {
        PutKept(e, m, pg, k, m.sp - 1, m.r[a.s0]);
      } else if sel.PushwHl? || sel.PushwDe? {
        var v: nat := if sel.PushwHl? then m.hl else m.de;
        PutTwiceKept(e, m, pg, k, m.sp - 2, v % 256, m.sp - 1, v / 256);
      } else {
        NothingKept(e, m, pg);
      }
    }
  }

  lemma NothingKept(e: Env, m: Core, pg: seq<Page>)
    ensures PagesKept(e, m, pg, pg)
  {
  }

  lemma MemoryKept(sel: Sel, e: Env, a: Args, m: Core, pg: seq<Page>)
    requires Fits(e, pg) && IsMemory(sel)
    ensures Kept(sel, e, m, pg, ExecMemory(sel, e, a, m, pg))
  {
    hide Covered, PagesKept, Put;
    var o := ExecMemory(sel, e, a, m, pg);
    var k := e.bank.own;
    if o.Next? {
      if sel.MovHlR? {
        PutKept(e, m, pg, k, m.hl, m.r[a.s0]);
      } else if sel.MovDeR? {
        PutKept(e, m, pg, k, m.de, m.r[a.s0]);
      } else if sel.Stx? {
        PutKept(e, m, pg, k, Reference.Frame(m, a), m.r[a.s0]);
      } else if sel.StwHlDe? {
        PutTwiceKept(e, m, pg, k, m.hl, m.de % 256, m.hl + 1, m.de / 256);
      } else if sel.StwDeHl? {
        PutTwiceKept(e, m, pg, k, m.de, m.hl % 256, m.de + 1, m.hl / 256);
      } else {
        NothingKept(e, m, pg);
      }
    }
  }

  lemma BankKept(sel: Sel, e: Env, a: Args, m: Core, pg: seq<Page>)
    requires Fits(e, pg) && IsBank(sel)
    ensures Kept(sel, e, m, pg, ExecBank(sel, e, a, m, pg))
  {
    hide Covered, PagesKept, Put, PageRegions;
    var o := ExecBank(sel, e, a, m, pg);
    var k := m.mb;
    if o.Next? {
      if sel.Stm? {
        PutKept(e, m, pg, k, m.hl, m.r[a.s0]);
      } else if sel.StmwHlDe? {
        PutTwiceKept(e, m, pg, k, m.hl, m.de % 256, m.hl + 1, m.de / 256);
      } else if sel.StmwDeHl? {
        PutTwiceKept(e, m, pg, k, m.de, m.hl % 256, m.de + 1, m.hl / 256);
      } else {
        NothingKept(e, m, pg);
      }
    }
  }

  lemma TrapKept(sel: Sel, e: Env, a: Args, m: Core, pg: seq<Page>)
    requires Fits(e, pg) && IsTrap(sel)
    ensures Kept(sel, e, m, pg, ExecTrap(sel, e, a, m, pg))
  {
    hide Covered, StackCovered, PagesKept, Put, PageRegions, Vector, PushFrame, FlagsByte;
    var o := ExecTrap(sel, e, a, m, pg);
    if o.Next? {
      if sel.Ext? {
        FrameKept(e, m, pg, m.sp, FlagsByte(m.z, m.c, m.s, m.v), m.pc);
      } else {
        NothingKept(e, m, pg);
      }
    }
  }

  lemma StreamKept(sel: Sel, e: Env, a: Args, m: Core, pg: seq<Page>)
    requires Fits(e, pg) && IsStream(sel)
    ensures Kept(sel, e, m, pg, ExecStream(sel, e, a, m, pg))
  {
    hide PagesKept;
    NothingKept(e, m, pg);
  }

  lemma BranchKept(sel: Sel, e: Env, a: Args, m: Core, pg: seq<Page>)
    requires Fits(e, pg)
    ensures Kept(sel, e, m, pg, ExecBranch(sel, e.cf, a, m, pg))
  {
    hide PagesKept;
    NothingKept(e, m, pg);
  }

  lemma CopyKept(sel: Sel, e: Env, a: Args, m: Core, pg: seq<Page>)
    requires !sel.Stc? && !sel.Ext?
    ensures Kept(sel, e, m, pg, Next(Copied(sel, m, a), pg))
  {
    hide PagesKept;
    NothingKept(e, m, pg);
  }

  lemma CountKept(sel: Sel, e: Env, a: Args, m: Core, pg: seq<Page>)
    requires !sel.Stc? && !sel.Ext?
    ensures Kept(sel, e, m, pg, Next(Counted(sel, m, a), pg))
  {
    hide PagesKept;
    NothingKept(e, m, pg);
  }

  lemma PointerKept(sel: Sel, e: Env, a: Args, m: Core, pg: seq<Page>)
    requires Fits(e, pg) && IsPointer(sel)
    ensures Kept(sel, e, m, pg, ExecPointer(sel, a, m, pg))
  {
    hide PagesKept, IsCopy, IsCount, Copied, Counted;
    CopyKept(sel, e, a, m, pg);
    CountKept(sel, e, a, m, pg);
    NothingKept(e, m, pg);
  }

  lemma AluKept(sel: Sel, e: Env, a: Args, pc0: word, m: Core, pg: seq<Page>)
    requires Fits(e, pg) && IsAlu(sel)
    ensures Kept(sel, e, m, pg, ExecAlu(sel, a, pc0, m, pg))
  {
    hide PagesKept, AluOf;
    NothingKept(e, m, pg);
  }

  /** One lemma over every instruction. */
  lemma ExecKept(sel: Sel, e: Env, a: Args, pc0: word, m: Core, pg: seq<Page>)
    requires Fits(e, pg)
    ensures Kept(sel, e, m, pg, Exec(sel, e, a, pc0, m, pg))
  {
    hide Kept, ExecAlu, ExecPointer, ExecBranch, ExecStack, ExecMemory, ExecStream, ExecBank, ExecTrap;
    if IsAlu(sel) {
      AluKept(sel, e, a, pc0, m, pg);
    } else if IsPointer(sel) {
      PointerKept(sel, e, a, m, pg);
    } else if IsBranch(sel) {
      BranchKept(sel, e, a, m, pg);
    } else if IsStack(sel) {
      StackKept(sel, e, a, m, pg);
    } else if IsMemory(sel) {
      MemoryKept(sel, e, a, m, pg);
    } else if IsStream(sel) {
      StreamKept(sel, e, a, m, pg);
    } else if IsBank(sel) {
      BankKept(sel, e, a, m, pg);
    } else if IsTrap(sel) {
      TrapKept(sel, e, a, m, pg);
    } else {
      FaultKept(sel, e, m, pg, BadOpcode);
    }
  }

  lemma FaultKept(sel: Sel, e: Env, m: Core, pg: seq<Page>, c: Cause)
    ensures Kept(sel, e, m, pg, Fault(c))
  {
  }

  /** The same over a whole step: PC moves behind the fetched bytes or inside the image. */
  lemma StepKept(e: Env, m: Core, pg: seq<Page>)
    requires Fits(e, pg)
    ensures var o := Step(e, m, pg);
      o.Next? ==>
        && o.m.pc <= e.cf.codelen && 0 < e.cf.codelen
        && StreamsKept(e, m, o.m) && CodeKept(e, m, o.m) && PagesKept(e, m, pg, o.pg)
        && (o.m.td == m.td || (o.m.td == m.td + 1 && m.td != e.cf.tdlim) || o.m.td + 1 == m.td)
  {
    hide Exec, PagesKept, StreamsKept, CodeKept;
    var f := Fetch(e.cf, m);
    if f.Decoded? {
      var m1 := m.(pc := f.fall);
      ExecKept(f.sel, e, f.a, m.pc, m1, pg);
      var o := Exec(f.sel, e, f.a, m.pc, m1, pg);
      if o.Next? {
        SameButPc(f.sel, e, m, f.fall, pg, o);
      }
    }
  }

  lemma SameButPc(sel: Sel, e: Env, m: Core, fall: word, pg: seq<Page>, o: Outcome)
    requires o.Next? && Kept(sel, e, m.(pc := fall), pg, o)
    ensures StreamsKept(e, m, o.m) && CodeKept(e, m, o.m) && PagesKept(e, m, pg, o.pg)
    ensures o.m.stcCount == m.stcCount <==> !sel.Stc?
    ensures o.m.td == m.td + 1 <==> sel.Ext?
  {
  }

  // ------------------------------------------------------ self-modification log

  /** A tick of `m` commits an STC: decided by the machine's own state, not by any page. */
  predicate CommitsStc(cf: Config, m: Core)
    requires Legal(cf)
  {
    var f := Fetch(cf, m);
    && m.status == Running && m.tick < cf.tb && f.Decoded? && f.sel.Stc?
    && m.hl < cf.codelen && cf.winlo <= m.hl < cf.winhi
  }

  /** The log counts the committed STC writes and keeps the address of the first; nothing else
      writes CODE, and an STC only inside the window. */
  lemma TickLogsStc(e: Env, w: World)
    requires Fits(e, w.pg)
    ensures var m, t := w.m, Tick(e, w).m;
      if CommitsStc(e.cf, m) then
        && t.stcCount == m.stcCount + 1
        && t.stcFirst == (if m.stcCount == 0 then m.hl else m.stcFirst)
        && t.code == m.code[m.hl := t.code[m.hl]]
      else t.code == m.code && t.stcCount == m.stcCount && t.stcFirst == m.stcFirst
  {
    hide Fetch;
    var m := w.m;
    var f := Fetch(e.cf, m);
    if f.Decoded? {
      var m1 := m.(pc := f.fall);
      if f.sel.Stc? {
        hide ExecAlu, ExecPointer, ExecBranch, ExecStack, ExecStream, ExecBank, ExecTrap;
      } else {
        ExecKept(f.sel, e, f.a, m.pc, m1, w.pg);
        hide Exec, ControlKept, StreamsKept, PagesKept;
      }
    }
  }

  /** None of the four cells a trap frame takes is write-protected. */
  predicate FrameOpen(cf: Config, sp: int)
  {
    && !Covered(cf.regions, sp - 1) && !Covered(cf.regions, sp - 2)
    && !Covered(cf.regions, sp - 3) && !Covered(cf.regions, sp - 4)
  }

  /** A tick of `w` enters a trap, by EXT's own guards: the budget is not spent, the instruction is
      inside the program, its vector is registered and inside the program, the depth is not at
      its limit, and the frame has room on cells no region covers. */
  predicate CommitsExt(e: Env, w: World)
    requires Fits(e, w.pg)
  {
    var m, f := w.m, Fetch(e.cf, w.m);
    && m.status == Running && m.tick < e.cf.tb && f.Decoded? && f.sel.Ext? && f.a.i0 < VEC_COUNT
    && 0 < Vector(e, w.pg, f.a.i0) < e.cf.codelen && m.td != e.cf.tdlim
    && e.cf.splim <= m.sp - 4 && FrameOpen(e.cf, m.sp)
  }

  /** EXT commits exactly under its guards. */
  lemma ExtCommits(e: Env, a: Args, m: Core, pg: seq<Page>)
    requires Fits(e, pg)
    ensures TrapEnter(e, a.i0, m, pg).Next? <==>
      && a.i0 < VEC_COUNT && 0 < Vector(e, pg, a.i0) < e.cf.codelen && m.td != e.cf.tdlim
      && e.cf.splim <= m.sp - 4 && FrameOpen(e.cf, m.sp)
    ensures TrapEnter(e, a.i0, m, pg).Next? ==> TrapEnter(e, a.i0, m, pg).m.td == m.td + 1
  {
    hide Covered, StackCovered, Vector, PushFrame, FlagsByte;
    StackCoveredCells(e.cf, m);
  }

  /** The depth counter goes up by exactly the committed EXT. */
  lemma TickCountsDepth(e: Env, w: World)
    requires Fits(e, w.pg)
    ensures Tick(e, w).m.td == w.m.td + 1 <==> CommitsExt(e, w)
    ensures Tick(e, w).m.td <= w.m.td + 1
  {
    hide Fetch, Exec, StreamsKept, CodeKept, PagesKept, FrameOpen, Vector;
    var f := Fetch(e.cf, w.m);
    if f.Decoded? {
      ExecKept(f.sel, e, f.a, w.m.pc, w.m.(pc := f.fall), w.pg);
      if f.sel.Ext? {
        ExecIsExt(e, f.a, w.m.pc, w.m.(pc := f.fall), w.pg);
        ExtCommits(e, f.a, w.m.(pc := f.fall), w.pg);
      }
    }
  }

  lemma ExecIsExt(e: Env, a: Args, pc0: word, m: Core, pg: seq<Page>)
    requires Fits(e, pg)
    ensures Exec(Ext, e, a, pc0, m, pg) == TrapEnter(e, a.i0, m, pg)
  {
    hide TrapEnter;
  }

  // -------------------------------------------------------- reachable states

  /** The bounds every state a machine reaches from a load stays inside. The trap depth is
      compared with its limit for equality only, and is bounded all the same. */
  predicate Reachable(e: Env, m: Core)
  {
    && (m.status == Error <==> m.reason != Ok)
    && (m.pc <= e.cf.codelen || (e.cf.codelen == 0 && m.pc == e.cf.entry))
    && m.td <= e.cf.tdlim
    && |m.out| <= e.cf.outcap
    && m.ipos <= |e.inputs|
    && (m.tick == 0 || m.tick <= e.cf.tb)
    && m.stcCount <= m.tick
    && (m.stcCount == 0 ==> m.stcFirst == 0)
    && (m.stcCount > 0 ==> e.cf.winlo <= m.stcFirst < e.cf.winhi)
  }

  lemma BootIsReachable(e: Env, image: seq<byte>)
    requires Legal(e.cf) && |image| <= CODE_SIZE
    ensures Reachable(e, M.BootCore(e.cf, image))
  {
  }

  lemma TickStaysReachable(e: Env, w: World)
    requires Fits(e, w.pg) && Reachable(e, w.m)
    ensures Reachable(e, Tick(e, w).m)
  {
    hide Step, PagesKept;
    StepKept(e, w.m, w.pg);
    StepFramed(e, w.m, w.pg);
  }

  /** The state after `n` ticks. */
  function After(e: Env, w: World, n: nat): (t: World)
    requires Fits(e, w.pg)
    ensures Fits(e, t.pg) && |t.pg| == |w.pg|
  {
    if n == 0 then w
    else
      var v := After(e, w, n - 1);
      TickKeepsPages(e, v); Tick(e, v)
  }

  /** A run may be cut anywhere. */
  lemma {:induction false} AfterSplits(e: Env, w: World, k: nat, n: nat)
    requires Fits(e, w.pg)
    ensures After(e, w, k + n) == After(e, After(e, w, k), n)
  {
    hide Tick;
    if n > 0 {
      AfterSplits(e, w, k, n - 1);
    }
  }

  lemma {:induction false} StoppedStays(e: Env, w: World, n: nat)
    requires Fits(e, w.pg) && w.m.status != Running
    ensures After(e, w, n) == w
  {
    if n > 0 {
      StoppedStays(e, w, n - 1);
    }
  }

  lemma TickKeepsPages(e: Env, w: World)
    requires Fits(e, w.pg)
    ensures |Tick(e, w).pg| == |w.pg|
  {
    hide Step;
    StepFramed(e, w.m, w.pg);
  }

  /** From any load, after any number of ticks. */
  lemma {:induction false} EveryStateReachable(e: Env, w: World, n: nat)
    requires Fits(e, w.pg) && Reachable(e, w.m)
    ensures Reachable(e, After(e, w, n).m)
  {
    hide Tick, Reachable;
    if n > 0 {
      EveryStateReachable(e, w, n - 1);
      TickStaysReachable(e, After(e, w, n - 1));
    }
  }

  /** The counters, which no type bounds, fit a signed 32-bit cell. */
  predicate Narrow(m: Core)
  {
    m.td < 0x8000_0000 && m.stcCount < 0x8000_0000 && m.ipos < 0x8000_0000 && m.tick < 0x8000_0000
    && |m.out| < 0x8000_0000
  }

  /** The circuits keep 32-bit cells; no state of any run needs more when the budget and the input
      fit them. */
  lemma StatesFitCells(e: Env, w: World, n: nat)
    requires Fits(e, w.pg) && Reachable(e, w.m)
    requires e.cf.tb < 0x8000_0000 && |e.inputs| < 0x8000_0000
    ensures Narrow(After(e, w, n).m)
  {
    hide Tick, After, PowerOfTwo;
    EveryStateReachable(e, w, n);
  }

  /** An image that is empty boots wherever its entry says, which is behind its end: the one
      load whose PC is outside the image, and it never gets further. */
  lemma {:induction false} EmptyImageBootsOutside(e: Env, w: World, n: nat)
    requires Fits(e, w.pg) && e.cf.codelen == 0 && w.m.pc == e.cf.entry
    ensures After(e, w, n).m.pc == e.cf.entry && After(e, w, n).pg == w.pg
  {
    if n > 0 {
      EmptyImageBootsOutside(e, w, n - 1);
    }
  }
}
