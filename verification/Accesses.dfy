/** A bank access cell by cell: which bytes of the selected page it reads, which it writes and
    with what, and that a tick depends on the former and changes the latter only. */
module Accesses {
  import opened Bits
  import opened Isa
  import opened Reference
  import opened Locality

  // ------------------------------------------------------------ one instruction

  predicate Stores(x: Sel) { x.Stm? || x.StmwHlDe? || x.StmwDeHl? }

  /** The address an access names, and how many bytes it moves. */
  function At(x: Sel, m: Core): word
  {
    if x.LdmwHlDe? || x.StmwDeHl? then m.de else m.hl
  }

  function Wide(x: Sel): (n: nat)
    ensures n == 1 || n == 2
  {
    if x.Ldm? || x.Stm? then 1 else 2
  }

  /** The bytes a store puts there. */
  function Moved(x: Sel, a: Args, m: Core): (b: seq<byte>)
    requires Stores(x)
    ensures |b| == Wide(x)
  {
    if x.Stm? then [m.r[a.s0]]
    else
      var w: nat := if x.StmwHlDe? then m.de else m.hl;
      [w % 256, w / 256]
  }

  /** The address is inside the page and, for a store, not covered by the page's regions. */
  predicate Open(x: Sel, rg: seq<Region>, m: Core)
  {
    var at := At(x, m);
    && at + Wide(x) <= DATA_SIZE
    && (Stores(x) ==> !Covered(rg, at) && (Wide(x) == 2 ==> !Covered(rg, at + 1)))
  }

  /** What a load makes of the bytes it finds. */
  function Taken(x: Sel, a: Args, m: Core, b: seq<byte>): Core
    requires |b| == Wide(x)
  {
    if Wide(x) == 1 then SetReg(m, a.s0, b[0])
    else if x.LdmwDeHl? then m.(de := Word(b[0], b[1]))
    else m.(hl := Word(b[0], b[1]))
  }

  /** What a store makes of the page. */
  function Laid(p: Page, at: nat, b: seq<byte>): Page
    requires 1 <= |b| <= 2 && at + |b| <= DATA_SIZE
  {
    if |b| == 1 then p[at := b[0]] else p[at := b[0]][at + 1 := b[1]]
  }

  lemma LaidCells(p: Page, at: nat, b: seq<byte>)
    requires 1 <= |b| <= 2 && at + |b| <= DATA_SIZE
    ensures forall c :: 0 <= c < DATA_SIZE ==> Laid(p, at, b)[c] == if at <= c < at + |b| then b[c - at] else p[c]
    ensures Laid(p, at, b) == p <==> p[at..at + |b|] == b
  {
    if p[at..at + |b|] == b {
      assert forall c :: at <= c < at + |b| ==> p[c] == p[at..at + |b|][c - at];
    }
    if Laid(p, at, b) == p {
      var q := p[at..at + |b|];
      forall k | 0 <= k < |b| ensures q[k] == b[k] {
        assert q[k] == Laid(p, at, b)[at + k];
      }
      assert q == b;
    }
  }

  /** A load tells two pages apart exactly when it finds different bytes in them. */
  lemma TakenTells(x: Sel, a: Args, m: Core, b: seq<byte>, c: seq<byte>)
    requires |b| == |c| == Wide(x)
    ensures Taken(x, a, m, b) == Taken(x, a, m, c) <==> b == c
  {
    if Taken(x, a, m, b) == Taken(x, a, m, c) {
      if Wide(x) == 1 {
        assert SetReg(m, a.s0, b[0]).r[a.s0] == b[0] && SetReg(m, a.s0, c[0]).r[a.s0] == c[0];
      } else {
        WordsTell(b[0], b[1], c[0], c[1]);
      }
    }
  }

  lemma WordsTell(lo: byte, hi: byte, low: byte, high: byte)
    ensures Word(lo, hi) == Word(low, high) <==> lo == low && hi == high
  {
  }

  /** Everything a bank access does, once its selector is accepted. */
  lemma BankCommits(x: Sel, e: Env, a: Args, m: Core, pg: seq<Page>)
    requires Fits(e, pg) && IsBank(x) && BankVerdict(e, |pg|, m.mb) == Ok
    ensures m.mb < |pg|
    ensures ExecBank(x, e, a, m, pg)
            == if At(x, m) + Wide(x) > DATA_SIZE then Fault(DataOob)
               else if !Open(x, PageRegions(e, m.mb), m) then Fault(RegionViol)
               else if Stores(x) then Next(m, pg[m.mb := Laid(pg[m.mb], At(x, m), Moved(x, a, m))])
               else Next(Taken(x, a, m, pg[m.mb][At(x, m)..At(x, m) + Wide(x)]), pg)
  {
    hide Covered, PageRegions, Legal;
    if At(x, m) + Wide(x) <= DATA_SIZE {
      var at := At(x, m);
      assert pg[m.mb][at..at + Wide(x)][0] == pg[m.mb][at];
      if Wide(x) == 2 {
        assert pg[m.mb][at..at + 2][1] == pg[m.mb][at + 1];
      }
    }
  }

  // ------------------------------------------------------------- a whole tick

  /** The access at PC commits, its selector once accepted. */
  predicate Commits(e: Env, m: Core)
    requires Legal(e.cf)
  {
    AtBankAccess(e.cf, m) && Open(Fetch(e.cf, m).sel, PageRegions(e, m.mb), m)
  }

  predicate Spans(e: Env, m: Core, c: int)
    requires Legal(e.cf) && AtBankAccess(e.cf, m)
  {
    var x := Fetch(e.cf, m).sel;
    At(x, m) <= c < At(x, m) + Wide(x)
  }

  /** It loads cell `c` of the selected page, or stores there, and what it stores. */
  predicate Reads(e: Env, m: Core, c: int)
    requires Legal(e.cf)
  {
    Commits(e, m) && !Stores(Fetch(e.cf, m).sel) && Spans(e, m, c)
  }

  predicate Writes(e: Env, m: Core, c: int)
    requires Legal(e.cf)
  {
    Commits(e, m) && Stores(Fetch(e.cf, m).sel) && Spans(e, m, c)
  }

  function Stored(e: Env, m: Core, c: int): byte
    requires Legal(e.cf) && Writes(e, m, c)
  {
    var f := Fetch(e.cf, m);
    Moved(f.sel, f.a, m)[c - At(f.sel, m)]
  }

  /** The program counter is no part of an access. */
  lemma AccessBehind(x: Sel, rg: seq<Region>, a: Args, m: Core, pc: word)
    ensures At(x, m.(pc := pc)) == At(x, m) && Open(x, rg, m.(pc := pc)) == Open(x, rg, m)
    ensures Stores(x) ==> Moved(x, a, m.(pc := pc)) == Moved(x, a, m)
  {
    hide Covered, Wide, Open, Stores, At;
    var m1 := m.(pc := pc);
    assert m1.hl == m.hl && m1.de == m.de && m1.r == m.r;
    SameAddress(x, m, m1);
    SameOpen(x, rg, m, m1);
  }

  lemma SameAddress(x: Sel, m: Core, n: Core)
    requires m.hl == n.hl && m.de == n.de
    ensures At(x, m) == At(x, n)
  {
  }

  lemma SameOpen(x: Sel, rg: seq<Region>, m: Core, n: Core)
    requires At(x, m) == At(x, n)
    ensures Open(x, rg, m) == Open(x, rg, n)
  {
    hide Covered, Wide, Stores, At;
  }

  lemma BankStep(e: Env, m: Core, pg: seq<Page>)
    requires Fits(e, pg) && AtBankAccess(e.cf, m)
    ensures var f := Fetch(e.cf, m);
      Step(e, m, pg) == ExecBank(f.sel, e, f.a, m.(pc := f.fall), pg)
  {
    hide ExecBank, Fetch, Legal;
  }

  /** The tick of an accepted access. */
  lemma AccessTick(e: Env, m: Core, pg: seq<Page>)
    requires Fits(e, pg) && AtBankAccess(e.cf, m) && Acts(e, m, |pg|)
    ensures m.mb < |pg|
    ensures var f, t := Fetch(e.cf, m), Tick(e, World(m, pg));
      var m1 := m.(pc := f.fall);
      if !Commits(e, m) then t.pg == pg
      else if Stores(f.sel) then
        At(f.sel, m) + Wide(f.sel) <= DATA_SIZE
        && t == World(m1.(tick := m.tick + 1), pg[m.mb := Laid(pg[m.mb], At(f.sel, m), Moved(f.sel, f.a, m))])
      else
        At(f.sel, m) + Wide(f.sel) <= DATA_SIZE
        && t == World(Taken(f.sel, f.a, m1, pg[m.mb][At(f.sel, m)..At(f.sel, m) + Wide(f.sel)])
                      .(tick := m.tick + 1), pg)
  {
    hide Fetch, Exec, ExecBank, Legal, Step, Taken, Laid, Moved, Covered;
    var f := Fetch(e.cf, m);
    BankStep(e, m, pg);
    BankCommits(f.sel, e, f.a, m.(pc := f.fall), pg);
    AccessBehind(f.sel, PageRegions(e, m.mb), f.a, m, f.fall);
    if Commits(e, m) && !Stores(f.sel) {
      TakenKeepsTick(f.sel, f.a, m.(pc := f.fall), pg[m.mb][At(f.sel, m)..At(f.sel, m) + Wide(f.sel)]);
    }
  }

  lemma TakenKeepsTick(x: Sel, a: Args, m: Core, b: seq<byte>)
    requires |b| == Wide(x)
    ensures Taken(x, a, m, b).tick == m.tick
  {
  }

  /** It changes the cells it writes, to what it writes, and no others. */
  lemma AccessWrites(e: Env, m: Core, pg: seq<Page>, p: nat, c: nat)
    requires Fits(e, pg) && AtBankAccess(e.cf, m) && Acts(e, m, |pg|) && p < |pg| && c < DATA_SIZE
    ensures var t := Tick(e, World(m, pg));
      |t.pg| == |pg| && t.pg[p][c] == if p == m.mb && Writes(e, m, c) then Stored(e, m, c) else pg[p][c]
  {
    hide Fetch, Tick, Legal, Taken, Laid, Moved, Open, Acts;
    var f := Fetch(e.cf, m);
    AccessTick(e, m, pg);
    if Commits(e, m) && Stores(f.sel) {
      LaidCells(pg[m.mb], At(f.sel, m), Moved(f.sel, f.a, m));
    }
  }

  /** It ends in the same core over two page vectors exactly when they agree in the cells it
      reads. */
  lemma AccessReads(e: Env, m: Core, pg: seq<Page>, qg: seq<Page>)
    requires Fits(e, pg) && |pg| == |qg| && AtBankAccess(e.cf, m) && Acts(e, m, |pg|)
    ensures m.mb < |pg|
    ensures Tick(e, World(m, pg)).m == Tick(e, World(m, qg)).m
      <==> forall c :: 0 <= c < DATA_SIZE && Reads(e, m, c) ==> pg[m.mb][c] == qg[m.mb][c]
  {
    hide Fetch, Tick, Legal, Taken, Laid, Moved, Open, Acts;
    var f := Fetch(e.cf, m);
    AccessTick(e, m, pg);
    AccessTick(e, m, qg);
    if !Commits(e, m) {
      Refused(e, m, pg, qg);
    } else if !Stores(f.sel) {
      var at, n := At(f.sel, m), Wide(f.sel);
      var b, c := pg[m.mb][at..at + n], qg[m.mb][at..at + n];
      var m1 := m.(pc := f.fall);
      TakenTells(f.sel, f.a, m1, b, c);
      TickAside(Taken(f.sel, f.a, m1, b), Taken(f.sel, f.a, m1, c), m.tick + 1) by {
        TakenKeepsTick(f.sel, f.a, m1, b);
        TakenKeepsTick(f.sel, f.a, m1, c);
      }
      if b == c {
        assert forall k :: at <= k < at + n ==> pg[m.mb][k] == b[k - at] && qg[m.mb][k] == c[k - at];
      } else {
        var k :| 0 <= k < n && b[k] != c[k];
        assert Reads(e, m, at + k) && pg[m.mb][at + k] != qg[m.mb][at + k];
      }
    }
  }

  lemma TickAside(one: Core, two: Core, n: nat)
    requires one.tick == two.tick
    ensures one.(tick := n) == two.(tick := n) <==> one == two
  {
  }

  lemma Refused(e: Env, m: Core, pg: seq<Page>, qg: seq<Page>)
    requires Fits(e, pg) && |pg| == |qg| && AtBankAccess(e.cf, m) && Acts(e, m, |pg|) && !Commits(e, m)
    ensures Tick(e, World(m, pg)).m == Tick(e, World(m, qg)).m
  {
    hide Fetch, Exec, ExecBank, Legal, Step, Taken, Laid, Moved, Covered;
    var f := Fetch(e.cf, m);
    BankStep(e, m, pg);
    BankStep(e, m, qg);
    BankCommits(f.sel, e, f.a, m.(pc := f.fall), pg);
    BankCommits(f.sel, e, f.a, m.(pc := f.fall), qg);
    AccessBehind(f.sel, PageRegions(e, m.mb), f.a, m, f.fall);
  }
}
