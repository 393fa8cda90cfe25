/** What a step may look at. An instruction that is no bank access sees its own page only, so
    it does in a group exactly what it does alone; a bank access sees one more page, the one
    its selector names. */
module Locality {
  import opened Bits
  import opened Isa
  import opened Reference

  /** The environment of the same machine on its own. */
  function Apart(e: Env): Env { e.(bank := Alone) }

  /** A lone outcome placed back among the pages of a group. */
  function Widened(o: Outcome, pg: seq<Page>, own: nat): Outcome
    requires own < |pg| && (o.Next? ==> |o.pg| == 1)
  {
    match o
    case Fault(c) => Fault(c)
    case Next(m, one) => Next(m, pg[own := one[0]])
  }

  lemma WidePut(pg: seq<Page>, own: nat, a: int, v: byte)
    requires own < |pg| && 0 <= a < DATA_SIZE
    ensures Put(pg, own, a, v) == pg[own := Put([pg[own]], 0, a, v)[0]]
    ensures |Put([pg[own]], 0, a, v)| == 1
  {
  }

  lemma WidePutTwice(pg: seq<Page>, own: nat, a: int, v: byte, b: int, u: byte)
    requires own < |pg| && 0 <= a < DATA_SIZE && 0 <= b < DATA_SIZE
    ensures Put(Put(pg, own, a, v), own, b, u)
            == pg[own := Put(Put([pg[own]], 0, a, v), 0, b, u)[0]]
    ensures |Put(Put([pg[own]], 0, a, v), 0, b, u)| == 1
  {
    var p1 := Put(pg, own, a, v);
    WidePut(pg, own, a, v);
    WidePut(p1, own, b, u);
  }

  lemma WideFrame(pg: seq<Page>, own: nat, sp: address, flags: byte, ret: word)
    requires own < |pg| && 4 <= sp
    ensures |PushFrame([pg[own]], 0, sp, flags, ret)| == 1
    ensures PushFrame(pg, own, sp, flags, ret) == pg[own := PushFrame([pg[own]], 0, sp, flags, ret)[0]]
  {
    WidePutTwice(pg, own, sp - 1, TRAP_TAG, sp - 2, flags);
    var p2 := Put(Put(pg, own, sp - 1, TRAP_TAG), own, sp - 2, flags);
    WidePutTwice(p2, own, sp - 3, ret % 256, sp - 4, ret / 256);
  }

  lemma StackLocal(sel: Sel, e: Env, a: Args, m: Core, pg: seq<Page>)
    requires Fits(e, pg) && IsStack(sel)
    ensures var own := e.bank.own;
      var o := ExecStack(sel, Apart(e), a, m, [pg[own]]);
      (o.Next? ==> |o.pg| == 1) && ExecStack(sel, e, a, m, pg) == Widened(o, pg, own)
  {
    hide Put, Covered, StackCovered;
    var own := e.bank.own;
    assert pg[own := pg[own]] == pg;
    if (sel.Call? || sel.CallHl?) && 2 <= m.sp {
      WidePutTwice(pg, own, m.sp - 1, m.pc % 256, m.sp - 2, m.pc / 256);
    } else if sel.Push? && 1 <= m.sp {
      WidePut(pg, own, m.sp - 1, m.r[a.s0]);
    } else if (sel.PushwHl? || sel.PushwDe?) && 2 <= m.sp {
      var v: nat := if sel.PushwHl? then m.hl else m.de;
      WidePutTwice(pg, own, m.sp - 2, v % 256, m.sp - 1, v / 256);
    }
  }

  lemma MemoryLocal(sel: Sel, e: Env, a: Args, m: Core, pg: seq<Page>)
    requires Fits(e, pg) && IsMemory(sel)
    ensures var own := e.bank.own;
      var o := ExecMemory(sel, Apart(e), a, m, [pg[own]]);
      (o.Next? ==> |o.pg| == 1) && ExecMemory(sel, e, a, m, pg) == Widened(o, pg, own)
  {
    hide Put, Covered;
    var own := e.bank.own;
    assert pg[own := pg[own]] == pg;
    var at: nat := if sel.MovHlR? || sel.StwHlDe? then m.hl else if sel.Stx? then Reference.Frame(m, a) else m.de;
    if (sel.MovHlR? || sel.MovDeR? || sel.Stx?) && at < DATA_SIZE {
      WidePut(pg, own, at, m.r[a.s0]);
    } else if (sel.StwHlDe? || sel.StwDeHl?) && at + 1 < DATA_SIZE {
      var v: nat := if sel.StwHlDe? then m.de else m.hl;
      WidePutTwice(pg, own, at, v % 256, at + 1, v / 256);
    }
  }

  lemma TrapLocal(sel: Sel, e: Env, a: Args, m: Core, pg: seq<Page>)
    requires Fits(e, pg) && IsTrap(sel)
    ensures var own := e.bank.own;
      var o := ExecTrap(sel, Apart(e), a, m, [pg[own]]);
      (o.Next? ==> |o.pg| == 1) && ExecTrap(sel, e, a, m, pg) == Widened(o, pg, own)
  {
    hide PushFrame, Covered, StackCovered, FlagsByte;
    var own := e.bank.own;
    assert pg[own := pg[own]] == pg;
    if sel.Ext? && 4 <= m.sp {
      WideFrame(pg, own, m.sp, FlagsByte(m.z, m.c, m.s, m.v), m.pc);
    }
  }

  lemma StreamLocal(sel: Sel, e: Env, a: Args, m: Core, pg: seq<Page>)
    requires Fits(e, pg) && IsStream(sel)
    ensures var own := e.bank.own;
      var o := ExecStream(sel, Apart(e), a, m, [pg[own]]);
      (o.Next? ==> |o.pg| == 1) && ExecStream(sel, e, a, m, pg) == Widened(o, pg, own)
  {
    assert pg[e.bank.own := pg[e.bank.own]] == pg;
  }

  lemma UntouchedLocal(m: Core, pg: seq<Page>, own: nat)
    requires own < |pg|
    ensures Next(m, pg) == Widened(Next(m, [pg[own]]), pg, own)
  {
    assert pg[own := pg[own]] == pg;
  }

  lemma AluLocal(sel: Sel, a: Args, pc0: word, m: Core, pg: seq<Page>, own: nat)
    requires own < |pg|
    ensures var o := ExecAlu(sel, a, pc0, m, [pg[own]]);
      (o.Next? ==> |o.pg| == 1) && ExecAlu(sel, a, pc0, m, pg) == Widened(o, pg, own)
  {
    hide AluOf, Apply;
    UntouchedLocal(Apply(m, a.s0, AluOf(sel, AluInputs(m, a, pc0))), pg, own);
  }

  lemma PointerLocal(sel: Sel, a: Args, m: Core, pg: seq<Page>, own: nat)
    requires own < |pg|
    ensures var o := ExecPointer(sel, a, m, [pg[own]]);
      (o.Next? ==> |o.pg| == 1) && ExecPointer(sel, a, m, pg) == Widened(o, pg, own)
  {
    hide Copied, Counted, IsCopy, IsCount;
    assert pg[own := pg[own]] == pg;
  }

  lemma BranchLocal(sel: Sel, cf: Config, a: Args, m: Core, pg: seq<Page>, own: nat)
    requires own < |pg|
    ensures var o := ExecBranch(sel, cf, a, m, [pg[own]]);
      (o.Next? ==> |o.pg| == 1) && ExecBranch(sel, cf, a, m, pg) == Widened(o, pg, own)
  {
    assert pg[own := pg[own]] == pg;
  }

  lemma ExecLocal(sel: Sel, e: Env, a: Args, pc0: word, m: Core, pg: seq<Page>)
    requires Fits(e, pg) && !IsBank(sel)
    ensures var own := e.bank.own;
      var o := Exec(sel, Apart(e), a, pc0, m, [pg[own]]);
      (o.Next? ==> |o.pg| == 1) && Exec(sel, e, a, pc0, m, pg) == Widened(o, pg, own)
  {
    hide ExecAlu, ExecPointer, ExecBranch, ExecStack, ExecMemory, ExecStream, ExecBank, ExecTrap;
    if IsAlu(sel) {
      AluLocal(sel, a, pc0, m, pg, e.bank.own);
    } else if IsPointer(sel) {
      PointerLocal(sel, a, m, pg, e.bank.own);
    } else if IsBranch(sel) {
      BranchLocal(sel, e.cf, a, m, pg, e.bank.own);
    } else if IsStack(sel) {
      StackLocal(sel, e, a, m, pg);
    } else if IsMemory(sel) {
      MemoryLocal(sel, e, a, m, pg);
    } else if IsStream(sel) {
      StreamLocal(sel, e, a, m, pg);
    } else if IsTrap(sel) {
      TrapLocal(sel, e, a, m, pg);
    }
  }

  /** The instruction at PC is a bank access. */
  predicate AtBankAccess(cf: Config, m: Core)
    requires Legal(cf)
  {
    var f := Fetch(cf, m); f.Decoded? && IsBank(f.sel)
  }

  /** A tick without a bank access is the lone machine's tick, on the machine's own page. */
  lemma TickLocal(e: Env, m: Core, pg: seq<Page>)
    requires Fits(e, pg) && !AtBankAccess(e.cf, m)
    ensures var own := e.bank.own;
      var lone := Tick(Apart(e), World(m, [pg[own]]));
      && |lone.pg| == 1
      && Tick(e, World(m, pg)) == World(lone.m, pg[own := lone.pg[0]])
  {
    hide Exec, Fetch;
    var own := e.bank.own;
    assert pg[own := pg[own]] == pg;
    var f := Fetch(e.cf, m);
    if f.Decoded? {
      ExecLocal(f.sel, e, f.a, m.pc, m.(pc := f.fall), pg);
    }
  }

  // ------------------------------------------------------------ bank accesses

  /** The two page vectors hold the same number of pages, and the same page `k`. */
  predicate AgreeAt(pg: seq<Page>, qg: seq<Page>, k: nat)
  {
    |pg| == |qg| && (k < |pg| ==> pg[k] == qg[k])
  }

  /** Two outcomes are the same fault, or the same core and the same change, which lies on page
      `k` alone. */
  predicate SameChange(o: Outcome, p: Outcome, pg: seq<Page>, qg: seq<Page>, k: nat)
  {
    match o
    case Fault(c) => p == Fault(c)
    case Next(m, pg') =>
      && p.Next? && p.m == m && |pg'| == |pg| == |qg| == |p.pg|
      && (forall i :: 0 <= i < |pg| && i != k ==> pg'[i] == pg[i] && p.pg[i] == qg[i])
      && (k < |pg| ==> pg'[k] == p.pg[k])
  }

  lemma BankSameChange(sel: Sel, e: Env, a: Args, m: Core, pg: seq<Page>, qg: seq<Page>)
    requires Fits(e, pg) && IsBank(sel) && AgreeAt(pg, qg, m.mb)
    ensures SameChange(ExecBank(sel, e, a, m, pg), ExecBank(sel, e, a, m, qg), pg, qg, m.mb)
  {
    hide PageRegions, Covered;
  }

  lemma WidenedTwice(o: Outcome, pg: seq<Page>, qg: seq<Page>, own: nat)
    requires own < |pg| == |qg| && (o.Next? ==> |o.pg| == 1)
    ensures SameChange(Widened(o, pg, own), Widened(o, qg, own), pg, qg, own)
  {
  }

  /** What a step is, once the fetch has been looked at. */
  lemma StepUnfolds(e: Env, m: Core, pg: seq<Page>)
    requires Fits(e, pg)
    ensures var f := Fetch(e.cf, m);
      Step(e, m, pg) == (if f.Refused? then Fault(f.cause)
                         else Exec(f.sel, e, f.a, m.pc, m.(pc := f.fall), pg))
  {
    hide Fetch, Exec;
  }

  lemma LocalSameChange(e: Env, m: Core, pg: seq<Page>, qg: seq<Page>)
    requires Fits(e, pg) && AgreeAt(pg, qg, e.bank.own) && !AtBankAccess(e.cf, m)
    ensures SameChange(Step(e, m, pg), Step(e, m, qg), pg, qg, e.bank.own)
  {
    hide Exec, Fetch, Step, Widened;
    var f := Fetch(e.cf, m);
    var own := e.bank.own;
    StepUnfolds(e, m, pg);
    StepUnfolds(e, m, qg);
    if f.Decoded? {
      hide SameChange;
      var m1 := m.(pc := f.fall);
      assert [pg[own]] == [qg[own]];
      ExecLocal(f.sel, e, f.a, m.pc, m1, pg);
      ExecLocal(f.sel, e, f.a, m.pc, m1, qg);
      WidenedTwice(Exec(f.sel, Apart(e), f.a, m.pc, m1, [pg[own]]), pg, qg, own);
    }
  }

  /** The page a tick reaches: the one the selector names at a bank access, else its own. */
  function Focus(e: Env, m: Core): nat
    requires Legal(e.cf)
  {
    if AtBankAccess(e.cf, m) then m.mb else e.bank.own
  }

  lemma StepSameChange(e: Env, m: Core, pg: seq<Page>, qg: seq<Page>)
    requires Fits(e, pg) && AgreeAt(pg, qg, Focus(e, m))
    ensures SameChange(Step(e, m, pg), Step(e, m, qg), pg, qg, Focus(e, m))
  {
    hide SameChange, Fetch;
    if AtBankAccess(e.cf, m) {
      hide ExecBank, BankLoad, BankStore, BankStore16, LoadWord;
      var f := Fetch(e.cf, m);
      BankSameChange(f.sel, e, f.a, m.(pc := f.fall), pg, qg);
    } else {
      hide Step;
      LocalSameChange(e, m, pg, qg);
    }
  }

  /** A tick depends on one page only, and changes that page only. */
  lemma TickFocused(e: Env, m: Core, pg: seq<Page>, qg: seq<Page>)
    requires Fits(e, pg) && AgreeAt(pg, qg, Focus(e, m))
    ensures var k, t, u := Focus(e, m), Tick(e, World(m, pg)), Tick(e, World(m, qg));
      && t.m == u.m && |t.pg| == |pg| == |qg| == |u.pg|
      && (forall i :: 0 <= i < |pg| && i != k ==> t.pg[i] == pg[i] && u.pg[i] == qg[i])
      && (k < |pg| ==> t.pg[k] == u.pg[k])
  {
    hide Step, Focus;
    StepSameChange(e, m, pg, qg);
  }

  // -------------------------------------------------------- ticks that reach nothing

  /** The tick executes an instruction, and no ownership rule refuses it. */
  predicate Acts(e: Env, m: Core, pages: nat)
    requires Legal(e.cf)
  {
    && m.status == Running && m.tick < e.cf.tb
    && (AtBankAccess(e.cf, m) ==> BankVerdict(e, pages, m.mb) == Ok)
  }

  lemma TickIdle(e: Env, m: Core, pg: seq<Page>, qg: seq<Page>)
    requires Fits(e, pg) && |pg| == |qg| && !Acts(e, m, |pg|)
    ensures Tick(e, World(m, pg)).pg == pg && Tick(e, World(m, qg)).pg == qg
    ensures Tick(e, World(m, pg)).m == Tick(e, World(m, qg)).m
  {
    hide Fetch, BankLoad, BankStore, BankStore16, LoadWord;
  }
}
