/** The debugger's machine. Its DATA is a traced copy, but the bank set still holds the page the
    machine was loaded with, so a bank access and a plain access see two pages. A resumed run is
    the run it was cut from exactly as long as the two cannot be told apart. */
module Debugger {
  import opened Bits
  import opened Isa
  import opened Reference
  import opened Locality
  import A = Accesses
  import I = Invariants
  import M = Machine
  import Rec = Records

  /** The traced page and the page behind bank 0. */
  datatype Split = Split(m: Core, data: Page, bank: Page)

  function SplitTick(e: Env, w: Split): Split
    requires Legal(e.cf) && e.bank == Alone
  {
    if AtBankAccess(e.cf, w.m) then
      I.TickKeepsPages(e, World(w.m, [w.bank]));
      var t := Tick(e, World(w.m, [w.bank]));
      Split(t.m, w.data, t.pg[0])
    else
      I.TickKeepsPages(e, World(w.m, [w.data]));
      var t := Tick(e, World(w.m, [w.data]));
      Split(t.m, t.pg[0], w.bank)
  }

  function SplitAfter(e: Env, w: Split, n: nat): Split
    requires Legal(e.cf) && e.bank == Alone
  {
    if n == 0 then w else SplitTick(e, SplitAfter(e, w, n - 1))
  }

  // ------------------------------------------------------------ one bank access

  /** The machine's own page is selected, and the access to it commits. */
  predicate Open(x: Sel, cf: Config, m: Core)
  {
    m.mb == 0 && A.Open(x, cf.regions, m)
  }

  /** The tick commits a bank access to the machine's own page. */
  predicate Reaches(cf: Config, m: Core)
    requires Legal(cf)
  {
    var f := Fetch(cf, m);
    && m.status == Running && m.tick < cf.tb
    && f.Decoded? && IsBank(f.sel) && Open(f.sel, cf, m)
  }

  /** The access cannot tell the two pages apart: a load finds the same bytes in both, a store
      puts what the traced page holds already. */
  predicate Alike(x: Sel, a: Args, w: Split)
    requires A.At(x, w.m) + A.Wide(x) <= DATA_SIZE
  {
    var at, n := A.At(x, w.m), A.Wide(x);
    if A.Stores(x) then A.Moved(x, a, w.m) == w.data[at..at + n] else w.bank[at..at + n] == w.data[at..at + n]
  }

  predicate TellsNothing(cf: Config, w: Split)
    requires Legal(cf)
  {
    Reaches(cf, w.m) ==> Alike(Fetch(cf, w.m).sel, Fetch(cf, w.m).a, w)
  }

  // ----------------------------------------------------- a tick, with both pages

  /** A lone machine has one page to select, and its own regions. */
  lemma AloneSelects(e: Env, m: Core)
    requires Legal(e.cf) && e.bank == Alone
    ensures if m.mb == 0 then BankVerdict(e, 1, m.mb) == Ok && PageRegions(e, m.mb) == e.cf.regions
            else BankVerdict(e, 1, m.mb) == BankOob
  {
  }

  /** What a bank access of a lone machine does. */
  lemma BankAlone(x: Sel, e: Env, a: Args, m: Core, page: Page)
    requires Legal(e.cf) && e.bank == Alone && IsBank(x)
    ensures var o := ExecBank(x, e, a, m, [page]);
      && (o.Next? <==> Open(x, e.cf, m))
      && (o.Fault? ==> forall other: Page :: ExecBank(x, e, a, m, [other]) == o)
  {
    hide A.Open, Legal, A.At, A.Wide, A.Moved, A.Taken, A.Laid;
    AloneSelects(e, m);
    if m.mb == 0 {
      hide ExecBank;
      OpenInside(x, e.cf, m);
      A.BankCommits(x, e, a, m, [page]);
      forall other: Page ensures !Open(x, e.cf, m) ==> ExecBank(x, e, a, m, [other]) == ExecBank(x, e, a, m, [page]) {
        A.BankCommits(x, e, a, m, [other]);
      }
    }
  }

  /** A committed store leaves the traced page when it lays down what stands there already. */
  lemma StoreTells(x: Sel, e: Env, a: Args, w: Split)
    requires Legal(e.cf) && e.bank == Alone && IsBank(x) && A.Stores(x) && Open(x, e.cf, w.m)
    ensures var o, s := ExecBank(x, e, a, w.m, [w.data]), ExecBank(x, e, a, w.m, [w.bank]);
      && o.Next? && s.Next? && |o.pg| == |s.pg| == 1 && o.m == s.m == w.m
      && A.At(x, w.m) + A.Wide(x) <= DATA_SIZE && (o.pg[0] == w.data <==> Alike(x, a, w))
  {
    hide ExecBank, Legal, A.Open, A.At, A.Wide, A.Moved, A.Taken, A.Laid;
    OpenInside(x, e.cf, w.m);
    AloneSelects(e, w.m);
    A.BankCommits(x, e, a, w.m, [w.data]);
    A.BankCommits(x, e, a, w.m, [w.bank]);
    A.LaidCells(w.data, A.At(x, w.m), A.Moved(x, a, w.m));
  }

  /** A committed load leaves both pages, and tells them apart by the bytes it finds. */
  lemma LoadTells(x: Sel, e: Env, a: Args, w: Split)
    requires Legal(e.cf) && e.bank == Alone && IsBank(x) && !A.Stores(x) && Open(x, e.cf, w.m)
    ensures var o, s := ExecBank(x, e, a, w.m, [w.data]), ExecBank(x, e, a, w.m, [w.bank]);
      && o.Next? && s.Next? && o.pg == [w.data] && s.pg == [w.bank]
      && A.At(x, w.m) + A.Wide(x) <= DATA_SIZE && (o.m == s.m <==> Alike(x, a, w))
  {
    hide ExecBank, Legal, A.Open, A.At, A.Wide, A.Moved, A.Taken, A.Laid;
    OpenInside(x, e.cf, w.m);
    AloneSelects(e, w.m);
    A.BankCommits(x, e, a, w.m, [w.data]);
    A.BankCommits(x, e, a, w.m, [w.bank]);
    var at, n := A.At(x, w.m), A.Wide(x);
    A.TakenTells(x, a, w.m, w.data[at..at + n], w.bank[at..at + n]);
  }

  /** What it makes of the traced page and of the other differs exactly as far as it can tell. */
  lemma BankTells(x: Sel, e: Env, a: Args, w: Split)
    requires Legal(e.cf) && e.bank == Alone && IsBank(x)
    ensures var o, s := ExecBank(x, e, a, w.m, [w.data]), ExecBank(x, e, a, w.m, [w.bank]);
      && (o.Next? <==> Open(x, e.cf, w.m)) && (o.Fault? ==> s == o)
      && (o.Next? ==> s.Next? && |o.pg| == |s.pg| == 1
                      && (o.m == s.m && o.pg[0] == w.data <==> Alike(x, a, w)))
  {
    hide ExecBank, Legal, Alike, Open;
    BankAlone(x, e, a, w.m, w.data);
    if Open(x, e.cf, w.m) {
      OpenInside(x, e.cf, w.m);
      if A.Stores(x) {
        StoreTells(x, e, a, w);
      } else {
        LoadTells(x, e, a, w);
      }
    }
  }

  lemma OpenInside(x: Sel, cf: Config, m: Core)
    ensures Open(x, cf, m) ==> A.At(x, m) + A.Wide(x) <= DATA_SIZE
  {
  }

  // ------------------------------------------------------------------- a whole tick

  /** The traced machine takes the plain machine's tick exactly when it reaches its own page
      through no selector, or can tell nothing there. */
  lemma SplitTickFollows(e: Env, w: Split)
    requires Legal(e.cf) && e.bank == Alone
    ensures var t, s := Tick(e, World(w.m, [w.data])), SplitTick(e, w);
      |t.pg| == 1 && (s.m == t.m && s.data == t.pg[0] <==> TellsNothing(e.cf, w))
  {
    hide Exec, Alike, Open, Legal, Fetch;
    I.TickKeepsPages(e, World(w.m, [w.data]));
    var f := Fetch(e.cf, w.m);
    if AtBankAccess(e.cf, w.m) && w.m.status == Running && w.m.tick < e.cf.tb {
      var m1 := w.m.(pc := f.fall);
      BankExec(f.sel, e, f.a, w.m.pc, m1, w.data);
      BankExec(f.sel, e, f.a, w.m.pc, m1, w.bank);
      BankTells(f.sel, e, f.a, w.(m := m1));
      OpenBehind(f.sel, e.cf, f.a, w, m1);
    }
  }

  /** The program counter is no part of an access. */
  lemma OpenBehind(x: Sel, cf: Config, a: Args, w: Split, m1: Core)
    requires IsBank(x) && m1 == w.m.(pc := m1.pc)
    ensures Open(x, cf, m1) <==> Open(x, cf, w.m)
    ensures Open(x, cf, w.m) ==>
      A.At(x, w.m) + A.Wide(x) <= DATA_SIZE && (Alike(x, a, w.(m := m1)) <==> Alike(x, a, w))
  {
    hide A.Open, A.At, A.Moved;
    A.AccessBehind(x, cf.regions, a, w.m, m1.pc);
    OpenInside(x, cf, w.m);
  }

  lemma BankExec(x: Sel, e: Env, a: Args, pc0: word, m: Core, page: Page)
    requires Legal(e.cf) && e.bank == Alone && IsBank(x)
    ensures Exec(x, e, a, pc0, m, [page]) == ExecBank(x, e, a, m, [page])
  {
    hide ExecBank, Legal;
  }

  // ---------------------------------------------------------------------- whole runs

  /** The traced machine and the plain one stand alike. */
  predicate Follows(w: Split, plain: World)
  {
    |plain.pg| == 1 && w.m == plain.m && w.data == plain.pg[0]
  }

  /** As long as no tick tells the pages apart, the two runs are one. */
  lemma {:induction false} SplitRunFollows(e: Env, w: Split, n: nat)
    requires Legal(e.cf) && e.bank == Alone
    requires forall k: nat :: k < n ==> TellsNothing(e.cf, SplitAfter(e, w, k))
    ensures Follows(SplitAfter(e, w, n), I.After(e, World(w.m, [w.data]), n))
  {
    hide TellsNothing, SplitTick, Tick, Legal;
    if n > 0 {
      SplitRunFollows(e, w, n - 1);
      SplitTickFollows(e, SplitAfter(e, w, n - 1));
      var v := I.After(e, World(w.m, [w.data]), n - 1);
      assert v.pg == [v.pg[0]];
    }
  }

  /** In particular while the plain run commits no bank access to its own page; then the page
      behind bank 0 is never touched. */
  lemma {:induction false} UnbankedRunFollows(e: Env, w: Split, n: nat)
    requires Legal(e.cf) && e.bank == Alone
    requires forall k: nat :: k < n ==> !Reaches(e.cf, I.After(e, World(w.m, [w.data]), k).m)
    ensures Follows(SplitAfter(e, w, n), I.After(e, World(w.m, [w.data]), n))
    ensures SplitAfter(e, w, n).bank == w.bank
  {
    hide Reaches, SplitTick, Tick, Legal;
    if n > 0 {
      UnbankedRunFollows(e, w, n - 1);
      var s := SplitAfter(e, w, n - 1);
      SplitTickFollows(e, s);
      BankUntouched(e, s);
      var v := I.After(e, World(w.m, [w.data]), n - 1);
      assert v.pg == [v.pg[0]];
      assert !Reaches(e.cf, v.m);
    }
  }

  lemma BankUntouched(e: Env, w: Split)
    requires Legal(e.cf) && e.bank == Alone && !Reaches(e.cf, w.m)
    ensures SplitTick(e, w).bank == w.bank
  {
    hide Exec, Open, Legal, Fetch;
    var f := Fetch(e.cf, w.m);
    if AtBankAccess(e.cf, w.m) && w.m.status == Running && w.m.tick < e.cf.tb {
      var m1 := w.m.(pc := f.fall);
      BankExec(f.sel, e, f.a, w.m.pc, m1, w.bank);
      BankAlone(f.sel, e, f.a, m1, w.bank);
      OpenBehind(f.sel, e.cf, f.a, w, m1);
    }
  }

  /** A bank access works on the page behind bank 0 alone: a store leaves its bytes there and nothing in
      the traced page, a load finds what stands there; every other tick works on the traced page. */
  lemma SplitPages(e: Env, w: Split, c: nat)
    requires Legal(e.cf) && e.bank == Alone && c < DATA_SIZE
    ensures var s := SplitTick(e, w);
      if !AtBankAccess(e.cf, w.m) then
        s.bank == w.bank && [s.data] == Tick(e, World(w.m, [w.data])).pg
      else
        && s.data == w.data && s.m == Tick(e, World(w.m, [w.bank])).m
        && s.bank[c] == if Acts(e, w.m, 1) && A.Writes(e, w.m, c) then A.Stored(e, w.m, c) else w.bank[c]
  {
    hide Tick, Acts, A.Writes, A.Stored, Legal;
    I.TickKeepsPages(e, World(w.m, [w.data]));
    if AtBankAccess(e.cf, w.m) {
      if Acts(e, w.m, 1) {
        A.AccessWrites(e, w.m, [w.bank], 0, c);
        ActsAlone(e, w.m);
      } else {
        TickIdle(e, w.m, [w.bank], [w.bank]);
      }
    }
  }

  lemma ActsAlone(e: Env, m: Core)
    requires Legal(e.cf) && e.bank == Alone && AtBankAccess(e.cf, m) && Acts(e, m, 1)
    ensures m.mb == 0
  {
    hide Legal;
  }

  lemma {:induction false} StoppedStays(e: Env, w: Split, n: nat)
    requires Legal(e.cf) && e.bank == Alone && w.m.status != Running
    ensures SplitAfter(e, w, n) == w
  {
    hide Tick, Legal, AtBankAccess;
    if n > 0 {
      StoppedStays(e, w, n - 1);
      StoppedTick(e, World(w.m, [w.data]));
      StoppedTick(e, World(w.m, [w.bank]));
    }
  }

  lemma {:induction false} AfterSplits(e: Env, w: Split, k: nat, n: nat)
    requires Legal(e.cf) && e.bank == Alone
    ensures SplitAfter(e, w, k + n) == SplitAfter(e, SplitAfter(e, w, k), n)
  {
    hide SplitTick, Legal;
    if n > 0 {
      AfterSplits(e, w, k, n - 1);
    }
  }

  /** The recorded run: steps until the machine stops or has taken `limit` of them. */
  method RunTrajectory(e: Env, w: Split, limit: nat) returns (end: Split, steps: nat)
    requires Legal(e.cf) && e.bank == Alone
    ensures end == SplitAfter(e, w, limit) && end == SplitAfter(e, w, steps)
    ensures steps <= limit && (end.m.status != Running || steps == limit)
  {
    hide SplitTick, Legal;
    end, steps := w, 0;
    while end.m.status == Running && steps < limit
      invariant steps <= limit && end == SplitAfter(e, w, steps)
    {
      end := SplitTick(e, end);
      steps := steps + 1;
    }
    if steps < limit {
      AfterSplits(e, w, steps, limit - steps);
      StoppedStays(e, end, limit - steps);
    }
  }

  // ---------------------------------------------------------------- resumed from a record

  /** What a resumption hands back: the record's state over its image, and behind bank 0 the page
      the fresh machine booted with - that image with a declared vector table seeded over it. */
  function Resumed(rec: Rec.Record): Split
    requires Rec.DebuggerResumes(rec)
  {
    Split(Rec.CoreOf(rec), rec.data, M.BootPage(rec.block, rec.data))
  }

  /** The two pages of a resumed machine start alike exactly when the recorded page still holds the
      vectors its table was seeded with. */
  lemma ResumedPagesAlike(rec: Rec.Record)
    requires Rec.DebuggerResumes(rec)
    ensures Resumed(rec).data == rec.data
    ensures Resumed(rec).bank == rec.data <==> M.TableHolds(rec.block, rec.data)
  {
    hide Rec.CoreOf, Rec.StateLegal, M.BootPage;
    assert |rec.data| == DATA_SIZE;
    var cf, d := rec.block, rec.data;
    M.BootTable(cf, d);
    if M.TableHolds(cf, d) {
      forall a | 0 <= a < DATA_SIZE ensures M.BootPage(cf, d)[a] == d[a] {
        SeededCell(cf, d, a);
      }
    }
  }

  lemma SeededCell(cf: Config, d: Page, a: nat)
    requires Legal(cf) && M.TableHolds(cf, d) && a < DATA_SIZE
    ensures M.BootPage(cf, d)[a] == d[a]
  {
    if cf.vtab.Some? && cf.vtab.value <= a < cf.vtab.value + VTAB_CELLS {
      var k := (a - cf.vtab.value) / 2;
      assert Load16(d, cf.vtab.value + 2 * k) == cf.vec[k];
      M.BootEntry(cf, d, k);
      WordsApart(d, M.BootPage(cf, d), cf.vtab.value + 2 * k);
    }
  }

  lemma WordsApart(d: Page, f: Page, a: nat)
    requires a + 1 < DATA_SIZE && Load16(d, a) == Load16(f, a)
    ensures d[a] == f[a] && d[a + 1] == f[a + 1]
  {
  }

  /** A checkpoint after `k` ticks is resumed exactly when PC names a CODE byte and the STC log
      fits its width. Run for `n` more ticks it then stands where `k + n` ticks do, provided no
      tick in between reached its own page through the selector. */
  lemma ResumedRunIsRun(e: Env, m: Core, d: Page, k: nat, n: nat)
    requires Legal(e.cf) && e.bank == Alone && I.Reachable(e, m) && 0 <= e.cf.tb <= Rec.TICKBUDGET_MAX
    ensures var at := I.After(e, World(m, [d]), k);
      && |at.pg| == 1
      && var rec := Rec.RecordOf(e, at.m, at.pg[0]);
         && (Rec.DebuggerResumes(rec) <==> at.m.pc < CODE_SIZE && at.m.stcCount <= Rec.STC_COUNT_MAX)
         && (Rec.DebuggerResumes(rec)
             && (forall j: nat :: k <= j < k + n ==> !Reaches(e.cf, I.After(e, World(m, [d]), j).m)) ==>
               Follows(SplitAfter(e, Resumed(rec), n), I.After(e, World(m, [d]), k + n)))
  {
    hide Tick, Legal, Rec.RecordOf, Rec.CoreOf, I.Reachable, Rec.Published, Rec.Installs, SplitAfter, Reaches,
         Rec.DebuggerResumes, M.BootPage;
    var w := World(m, [d]);
    var at := I.After(e, w, k);
    I.EveryStateReachable(e, w, k);
    Rec.ReachablePublishes(e, at.m, at.pg[0]);
    Rec.DebuggerResumesInsideCode(e, at.m, at.pg[0]);
    var rec := Rec.RecordOf(e, at.m, at.pg[0]);
    if Rec.DebuggerResumes(rec) && forall j: nat :: k <= j < k + n ==> !Reaches(e.cf, I.After(e, w, j).m) {
      Rec.InstalledIsRecorded(e, at.m, at.pg[0]);
      var r := Resumed(rec);
      assert World(r.m, [r.data]) == at;
      forall j: nat | j < n ensures !Reaches(e.cf, I.After(e, at, j).m) {
        I.AfterSplits(e, w, k, j);
        assert !Reaches(e.cf, I.After(e, w, k + j).m);
      }
      UnbankedRunFollows(e, r, n);
      I.AfterSplits(e, w, k, n);
    }
  }

  // ------------------------------------------------------------ where the two part

  /** A two-byte image, STM [HL], r0, over a page whose first byte is 7. */
  function StoreImage(): Image { [0x70, 0xB4] + seq(CODE_SIZE - 2, _ => 0) }

  function StoreBlock(): Config
  {
    Config(2, 0, 0, 0, seq(VEC_COUNT, _ => 0), None, [], 1, 64, 0, 1000, 8192)
  }

  const SEVEN: Page := seq(DATA_SIZE, a => if a == 0 then 7 else 0)

  /** The boot record of that load resumes, and after one tick the plain machine has stored 0
      where the resumed one still shows 7. */
  lemma ResumedRunParts()
    ensures Legal(StoreBlock())
    ensures var e, m := Env(StoreBlock(), [], Alone), M.BootCore(StoreBlock(), StoreImage());
      var rec := Rec.RecordOf(e, m, SEVEN);
      var plain := Tick(e, World(m, [SEVEN]));
      && I.Reachable(e, m) && Rec.DebuggerResumes(rec)
      && |plain.pg| == 1 && plain.m.status == Running && plain.pg[0][0] == 0
      && SplitTick(e, Resumed(rec)).data[0] == 7
  {
    StoreBlockIsLegal();
    hide Legal, Pow2, Fetch;
    var e, m := Env(StoreBlock(), [], Alone), M.BootCore(StoreBlock(), StoreImage());
    StoreFetches();
    StoreResumes();
  }

  lemma StoreBlockIsLegal()
    ensures Legal(StoreBlock())
  {
    Pow2Data();
  }

  lemma StoreFetches()
    requires Legal(StoreBlock())
    ensures Fetch(StoreBlock(), M.BootCore(StoreBlock(), StoreImage())) == Decoded(Stm, Args(0, 0, 0, 0), 2)
  {
    var m := M.BootCore(StoreBlock(), StoreImage());
    assert m.code[0] == 0x70 && m.code[1] == 0xB4;
    assert EscapeRow(0xB4) == Row(Stm, 0, 0, 0);
  }

  lemma StoreResumes()
    requires Legal(StoreBlock())
    ensures var e, m := Env(StoreBlock(), [], Alone), M.BootCore(StoreBlock(), StoreImage());
      I.Reachable(e, m) && Rec.DebuggerResumes(Rec.RecordOf(e, m, SEVEN))
  {
    hide Legal, Pow2;
    var e, m := Env(StoreBlock(), [], Alone), M.BootCore(StoreBlock(), StoreImage());
    Rec.DebuggerResumesInsideCode(e, m, SEVEN);
  }
}
