/** The reference machine as it runs: an object whose step mutates its registers, its DATA
    page and, through the selector, its neighbours' pages, and which abandons an instruction
    by raising. Every method is proved against the value transition of module Reference. */
module Machine {
  import opened Bits
  import opened Isa
  import R = Reference

  /** What a check answers: carry on, or raise with a cause. */
  datatype Check = Pass | Raise(cause: Cause) {
    predicate IsFailure() { Raise? }

    function PropagateFailure(): Check
      requires Raise?
    {
      this
    }
  }

  function CheckOf(c: Cause): Check { if c.Ok? then Pass else Raise(c) }

  /** The state and the DATA byte a load starts from. */
  function BootCore(cf: Config, image: seq<byte>): R.Core
    requires |image| <= CODE_SIZE
  {
    R.Core([0, 0, 0, 0], 0, 0, 0, cf.entry, DATA_SIZE, 0, 0, 0, 0, 0, 0, 0, 0, 0, R.Running,
           Ok, 0, Padded(image), [])
  }

  function Padded(image: seq<byte>): R.Image
    requires |image| <= CODE_SIZE
  {
    image + seq(CODE_SIZE - |image|, _ => 0)
  }

  function Seed(vec: seq<word>): (seed: seq<byte>)
    requires |vec| == VEC_COUNT
    ensures |seed| == VTAB_CELLS
  {
    seq(VTAB_CELLS, j requires 0 <= j < VTAB_CELLS =>
      if j % 2 == 0 then vec[j / 2] % 256 else vec[j / 2] / 256)
  }

  /** The bytes a declared vector table is seeded with, two per vector, low byte first. */
  method SeedBytes(vec: seq<word>) returns (out: array<byte>)
    requires |vec| == VEC_COUNT
    ensures fresh(out) && out[..] == Seed(vec)
  {
    out := new byte[VTAB_CELLS](_ => 0);
    for k := 0 to VEC_COUNT
      invariant forall j :: 0 <= j < 2 * k ==> out[j] == Seed(vec)[j]
    {
      out[2 * k] := vec[k] % 256;
      out[2 * k + 1] := vec[k] / 256;
    }
  }

  function BootPage(cf: Config, init: seq<byte>): R.Page
    requires Legal(cf)
  {
    seq(DATA_SIZE, a requires 0 <= a < DATA_SIZE => BootByte(cf, init, a))
  }

  function BootByte(cf: Config, init: seq<byte>, a: nat): byte
    requires Legal(cf)
  {
    if cf.vtab.Some? && cf.vtab.value <= a < cf.vtab.value + VTAB_CELLS then
      var w := cf.vec[(a - cf.vtab.value) / 2];
      if a % 2 == 0 then w % 256 else w / 256
    else if a < |init| then init[a]
    else 0
  }

  /** The table holds the block's vectors. */
  predicate TableHolds(cf: Config, d: R.Page)
    requires Legal(cf)
  {
    cf.vtab.Some? ==>
      forall k :: 0 <= k < VEC_COUNT ==> R.Load16(d, cf.vtab.value + 2 * k) == cf.vec[k]
  }

  lemma BootTable(cf: Config, init: seq<byte>)
    requires Legal(cf)
    ensures TableHolds(cf, BootPage(cf, init))
  {
    hide BootPage;
    if cf.vtab.Some? {
      forall k | 0 <= k < VEC_COUNT
        ensures R.Load16(BootPage(cf, init), cf.vtab.value + 2 * k) == cf.vec[k]
      {
        BootEntry(cf, init, k);
      }
    }
  }

  lemma BootEntry(cf: Config, init: seq<byte>, k: nat)
    requires Legal(cf) && cf.vtab.Some? && k < VEC_COUNT
    ensures cf.vtab.value + 2 * k + 1 < DATA_SIZE
    ensures R.Load16(BootPage(cf, init), cf.vtab.value + 2 * k) == cf.vec[k]
  {
    var at := cf.vtab.value + 2 * k;
    assert (at - cf.vtab.value) / 2 == k && (at + 1 - cf.vtab.value) / 2 == k;
  }

  /** Of a booted machine, EXT reads the vectors of the block, with a table or without. */
  lemma BootVectors(e: R.Env, init: seq<byte>, k: nat)
    requires Legal(e.cf) && e.bank.own == 0 && k < VEC_COUNT
    ensures R.Vector(e, [BootPage(e.cf, init)], k) == e.cf.vec[k]
  {
    hide Legal;
    BootTable(e.cf, init);
  }

  /** While the table holds the vectors, a machine with one takes every EXT as a machine without. */
  lemma TableTraps(e: R.Env, a: R.Args, pc0: word, m: R.Core, pg: seq<R.Page>)
    requires R.Fits(e, pg) && TableHolds(e.cf, R.Data(e, pg))
    ensures var plain := e.(cf := e.cf.(vtab := None));
      Legal(plain.cf) && R.Exec(Ext, e, a, pc0, m, pg) == R.Exec(Ext, plain, a, pc0, m, pg)
  {
    hide R.PushFrame, R.StackCovered;
    var plain := e.(cf := e.cf.(vtab := None));
    StackCoveredAlike(e.cf, plain.cf, m, 4);
    assert a.i0 < VEC_COUNT ==> R.Vector(e, pg, a.i0) == R.Vector(plain, pg, a.i0);
  }

  lemma {:induction false} StackCoveredAlike(cf: Config, df: Config, m: R.Core, n: nat)
    requires cf.regions == df.regions
    ensures R.StackCovered(cf, m, n) == R.StackCovered(df, m, n)
  {
    if n > 0 {
      StackCoveredAlike(cf, df, m, n - 1);
    }
  }

  /** Frames pushed on two pages leave them as alike as they were. */
  lemma FramesAlike(d: R.Page, f: R.Page, sp: address, flags: byte, ret: word, c: nat)
    requires 4 <= sp && c < DATA_SIZE && d[c] == f[c]
    ensures |R.PushFrame([d], 0, sp, flags, ret)| == |R.PushFrame([f], 0, sp, flags, ret)| == 1
    ensures R.PushFrame([d], 0, sp, flags, ret)[0][c] == R.PushFrame([f], 0, sp, flags, ret)[0][c]
  {
  }

  /** Of its page EXT reads the vector alone. */
  lemma TrapsAlike(e: R.Env, a: R.Args, pc0: word, m: R.Core, d: R.Page, f: R.Page, c: nat)
    requires Legal(e.cf) && e.bank == R.Alone && e.cf.vtab == None && c < DATA_SIZE
    ensures var o, p := R.Exec(Ext, e, a, pc0, m, [d]), R.Exec(Ext, e, a, pc0, m, [f]);
      if o.Fault? then p == o
      else p.Next? && o.m == p.m && |o.pg| == |p.pg| == 1 && (d[c] == f[c] ==> o.pg[0][c] == p.pg[0][c])
  {
    hide R.PushFrame, R.StackCovered;
    if m.sp >= 4 && d[c] == f[c] {
      FramesAlike(d, f, m.sp, R.FlagsByte(m.z, m.c, m.s, m.v), m.pc, c);
    } else if m.sp >= 4 {
      FrameShape(d, m.sp, R.FlagsByte(m.z, m.c, m.s, m.v), m.pc);
      FrameShape(f, m.sp, R.FlagsByte(m.z, m.c, m.s, m.v), m.pc);
    }
  }

  lemma FrameShape(d: R.Page, sp: address, flags: byte, ret: word)
    requires 4 <= sp
    ensures |R.PushFrame([d], 0, sp, flags, ret)| == 1
  {
  }

  /** A machine booted with a table takes its first EXT as one booted without: it ends in the same
      state, and on the same page wherever no table stands. */
  lemma BootTraps(e: R.Env, image: seq<byte>, init: seq<byte>, c: nat)
    requires Legal(e.cf) && e.bank == R.Alone && |image| <= CODE_SIZE && c < DATA_SIZE
    requires var f := R.Fetch(e.cf, BootCore(e.cf, image)); f.Decoded? && f.sel.Ext?
    ensures var plain := e.(cf := e.cf.(vtab := None));
      && Legal(plain.cf)
      && var w := R.Tick(e, R.World(BootCore(e.cf, image), [BootPage(e.cf, init)]));
         var v := R.Tick(plain, R.World(BootCore(e.cf, image), [BootPage(plain.cf, init)]));
      && w.m == v.m && |w.pg| == |v.pg| == 1
      && (OffTable(e.cf, c) ==> w.pg[0][c] == v.pg[0][c])
  {
    hide Legal, BootPage, R.Exec, R.FetchOperands;
    var plain := e.(cf := e.cf.(vtab := None));
    BootTable(e.cf, init);
    PlainIsLegal(e.cf);
    var m := BootCore(e.cf, image);
    var f := R.Fetch(e.cf, m);
    SameFetch(e.cf, plain.cf, m);
    var d, g := BootPage(e.cf, init), BootPage(plain.cf, init);
    TableTraps(e, f.a, m.pc, m.(pc := f.fall), [d]);
    TrapsAlike(plain, f.a, m.pc, m.(pc := f.fall), d, g, c);
    BootCell(e.cf, init, c);
  }

  /** No vector table covers the cell. */
  predicate OffTable(cf: Config, c: nat)
  {
    cf.vtab.Some? ==> !(cf.vtab.value <= c < cf.vtab.value + VTAB_CELLS)
  }

  lemma PlainIsLegal(cf: Config)
    requires Legal(cf)
    ensures Legal(cf.(vtab := None))
  {
  }

  lemma SameFetch(cf: Config, df: Config, m: R.Core)
    requires Legal(cf) && Legal(df) && cf.codelen == df.codelen
    ensures R.Fetch(cf, m) == R.Fetch(df, m)
  {
    hide Legal, SingleRow, EscapeRow;
  }

  lemma BootCell(cf: Config, init: seq<byte>, c: nat)
    requires Legal(cf) && Legal(cf.(vtab := None)) && c < DATA_SIZE
    ensures OffTable(cf, c) ==> BootPage(cf, init)[c] == BootPage(cf.(vtab := None), init)[c]
  {
  }

  lemma {:induction false} StackCoveredGrows(cf: Config, m: R.Core, k: nat, n: nat)
    requires 1 <= k <= n && Covered(cf.regions, m.sp - k)
    ensures R.StackCovered(cf, m, n)
    decreases n
  {
    if k < n {
      StackCoveredGrows(cf, m, k, n - 1);
    }
  }

  class NCP8 {
    const cf: Config
    const inputs: seq<byte>
    const data: array<byte>
    var r: R.Regs
    var hl: word
    var de: word
    var mb: word
    var pc: word
    var sp: address
    var c: bit
    var z: bit
    var s: bit
    var v: bit
    var td: nat
    var stcCount: nat
    var stcFirst: word
    var ipos: nat
    var tick: nat
    var status: R.Status
    var reason: Cause
    var faultAddr: word
    var code: R.Image
    var out: seq<byte>
    var banks: seq<array<byte>>
    var bankOwn: nat
    var ownerStatus: Option<seq<R.Status>>
    var ownerRegions: Option<seq<seq<Region>>>

    /** The legality of the object: its own page is the page the bank set gives it, pages are
        whole and no two are one array. */
    ghost predicate Valid()
      reads `banks, `bankOwn
    {
      && Legal(cf)
      && bankOwn < |banks| && banks[bankOwn] == data
      && (forall i :: 0 <= i < |banks| ==> banks[i].Length == DATA_SIZE)
      && (forall i, j :: 0 <= i < j < |banks| ==> banks[i] != banks[j])
    }

    ghost function Core(): R.Core
      reads `r, `hl, `de, `mb, `pc, `sp, `c, `z, `s, `v, `td, `stcCount, `stcFirst, `ipos, `tick,
            `status, `reason, `faultAddr, `code, `out
    {
      R.Core(r, hl, de, mb, pc, sp, c, z, s, v, td, stcCount, stcFirst, ipos, tick, status,
             reason, faultAddr, code, out)
    }

    ghost function Env(): R.Env
      reads `bankOwn, `ownerStatus, `ownerRegions
    {
      R.Env(cf, inputs, R.Bank(bankOwn, ownerStatus, ownerRegions))
    }

    /** The pages hold these values. */
    ghost predicate Holds(pg: seq<R.Page>)
      reads `banks, banks
    {
      |pg| == |banks| && forall i :: 0 <= i < |pg| ==> banks[i][..] == pg[i]
    }

    /** The object and its pages stand where the value transition `to` says, and the check
        answers accordingly; a fault has left everything as it was in `m`, `pg`. */
    ghost predicate Reached(o: Check, to: R.Outcome, m: R.Core, pg: seq<R.Page>)
      reads this, banks
    {
      match to
      case Fault(cause) => o == Raise(cause) && Core() == m && Holds(pg)
      case Next(m', pg') => o == Pass && Core() == m' && Holds(pg')
    }

    // ------------------------------------------------------------------ load

    constructor (cf: Config, image: seq<byte>, init: seq<byte>, inputs: seq<byte>)
      requires Legal(cf) && cf.codelen <= |image| <= CODE_SIZE && |init| <= DATA_SIZE
      ensures this.cf == cf && this.inputs == inputs && fresh(data) && Valid()
      ensures bankOwn == 0 && banks == [data] && ownerStatus == None && ownerRegions == None
      ensures Core() == BootCore(cf, image)
      ensures data[..] == BootPage(cf, init)
      ensures forall k :: 0 <= k < VEC_COUNT ==> R.Vector(Env(), [data[..]], k) == cf.vec[k]
    {
      hide R.Vector;
      var page := new byte[DATA_SIZE](_ => 0);
      var seed := SeedBytes(cf.vec);
      for a := 0 to DATA_SIZE
        invariant fresh(page) && page.Length == DATA_SIZE && fresh(seed) && page != seed
        invariant seed[..] == Seed(cf.vec)
        invariant forall b :: 0 <= b < a ==> page[b] == BootByte(cf, init, b)
        invariant forall b :: a <= b < DATA_SIZE ==> page[b] == 0
      {
        if cf.vtab.Some? && cf.vtab.value <= a < cf.vtab.value + VTAB_CELLS {
          var j := a - cf.vtab.value;
          assert seed[j] == Seed(cf.vec)[j] && j % 2 == a % 2;
          page[a] := seed[j];
        } else if a < |init| {
          page[a] := init[a];
        }
      }
      this.cf, this.inputs, this.data := cf, inputs, page;
      r, hl, de, mb, pc, sp := [0, 0, 0, 0], 0, 0, 0, cf.entry, DATA_SIZE;
      c, z, s, v, td, stcCount, stcFirst := 0, 0, 0, 0, 0, 0, 0;
      ipos, tick, status, reason, faultAddr := 0, 0, R.Running, Ok, 0;
      code, out := Padded(image), [];
      banks, bankOwn, ownerStatus, ownerRegions := [page], 0, None, None;
      new;
      assert data[..] == BootPage(cf, init);
      forall k: nat | k < VEC_COUNT ensures R.Vector(Env(), [data[..]], k) == cf.vec[k] {
        BootVectors(Env(), init, k);
      }
    }

    /** Hands the machine the pages of a group, or refuses a set that does not fit it. */
    method InstallBanks(pages: seq<array<byte>>, own: int, statuses: seq<R.Status>,
                        regions: Option<seq<seq<Region>>>) returns (taken: bool)
      requires Legal(cf)
      requires forall i :: 0 <= i < |pages| ==> pages[i].Length == DATA_SIZE
      requires forall i, j :: 0 <= i < j < |pages| ==> pages[i] != pages[j]
      modifies `banks, `bankOwn, `ownerStatus, `ownerRegions
      ensures taken <==>
        && |pages| == cf.nbanks && 0 <= own < |pages| && pages[own] == data && |statuses| == |pages|
        && (regions.Some? ==> |regions.value| == |pages|)
      ensures taken ==> Valid() && banks == pages
      ensures taken ==>
        Env() == R.Env(cf, inputs, R.Bank(own, Some(statuses), Some(Named(regions, |pages|))))
      ensures !taken ==>
        unchanged(`banks) && unchanged(`bankOwn) && unchanged(`ownerStatus) && unchanged(`ownerRegions)
    {
      if |pages| != cf.nbanks || !(0 <= own < |pages|) || pages[own] != data || |statuses| != |pages| {
        return false;
      }
      if regions.Some? && |regions.value| != |pages| {
        return false;
      }
      banks, bankOwn := pages, own;
      ownerStatus, ownerRegions := Some(statuses), Some(Named(regions, |pages|));
      return true;
    }

    /** The owners' regions, none protected when none are named. */
    static function Named(regions: Option<seq<seq<Region>>>, n: nat): seq<seq<Region>>
    {
      match regions case Some(r) => r case None => seq(n, _ => [])
    }

    // ---------------------------------------------------------------- checks

    method Mem(addr: int) returns (o: Check)
      ensures o == if 0 <= addr < DATA_SIZE then Pass else Raise(DataOob)
    {
      if !(0 <= addr < DATA_SIZE) {
        return Raise(DataOob);
      }
      return Pass;
    }

    method Mem16(addr: int) returns (o: Check)
      ensures o == if 0 <= addr && addr + 1 < DATA_SIZE then Pass else Raise(DataOob)
    {
      if !(0 <= addr && addr + 1 < DATA_SIZE) {
        return Raise(DataOob);
      }
      return Pass;
    }

    method RegionHit(regions: seq<Region>, addr: int) returns (hit: bool)
      ensures hit == Covered(regions, addr)
    {
      for k := 0 to |regions|
        invariant forall j :: 0 <= j < k ==> !(regions[j].lo <= addr < regions[j].hi)
      {
        if regions[k].lo <= addr < regions[k].hi {
          return true;
        }
      }
      return false;
    }

    method RegionCheck(addr: int) returns (o: Check)
      ensures o == if Covered(cf.regions, addr) then Raise(RegionViol) else Pass
    {
      var hit := RegionHit(cf.regions, addr);
      return if hit then Raise(RegionViol) else Pass;
    }

    method RegionPair(addr: int) returns (o: Check)
      ensures o == if Covered(cf.regions, addr) || Covered(cf.regions, addr + 1)
                   then Raise(RegionViol) else Pass
    {
      o := Pass;
      :- RegionCheck(addr);
      :- RegionCheck(addr + 1);
      return Pass;
    }

    method StackRegion(n: nat) returns (o: Check)
      ensures o == if R.StackCovered(cf, Core(), n) then Raise(RegionViol) else Pass
    {
      for k := 1 to n + 1
        invariant !R.StackCovered(cf, Core(), k - 1)
      {
        var hit := RegionHit(cf.regions, sp - k);
        if hit {
          StackCoveredGrows(cf, Core(), k, n);
          return Raise(RegionViol);
        }
      }
      return Pass;
    }

    method StackRoom(n: nat) returns (o: Check)
      ensures o == if R.Room(cf, Core(), n) then Pass else Raise(StackOverflow)
    {
      if !(cf.splim <= sp - n && sp <= DATA_SIZE) {
        return Raise(StackOverflow);
      }
      return Pass;
    }

    method StackHave(n: nat) returns (o: Check)
      ensures o == if R.Have(Core(), n) then Pass else Raise(StackUnderflow)
    {
      if !(0 <= sp && sp + n <= DATA_SIZE) {
        return Raise(StackUnderflow);
      }
      return Pass;
    }

    method PcTarget(t: word) returns (o: Check)
      ensures o == if t >= cf.codelen then Raise(PcIllegal) else Pass
    {
      if t >= cf.codelen {
        return Raise(PcIllegal);
      }
      return Pass;
    }

    method BankPage(sel: word) returns (o: Check)
      requires Valid()
      ensures o == CheckOf(R.BankVerdict(Env(), |banks|, sel))
      ensures o.Pass? ==> sel < |banks|
    {
      if sel >= cf.nbanks || sel >= |banks| {
        return Raise(BankOob);
      }
      if sel == bankOwn {
        return Pass;
      }
      if ownerStatus.None? || sel >= |ownerStatus.value| || ownerStatus.value[sel].Running? {
        return Raise(BankBusy);
      }
      return Pass;
    }

    method PageRegions(sel: word) returns (regions: seq<Region>)
      requires Valid() && sel < |banks|
      ensures regions == R.PageRegions(Env(), sel)
    {
      if sel == bankOwn || banks[sel] == data {
        assert sel == bankOwn;
        return cf.regions;
      }
      if ownerRegions.None? || sel >= |ownerRegions.value| {
        return [];
      }
      return ownerRegions.value[sel];
    }

    method BankRegion(sel: word, addr: int) returns (o: Check)
      requires Valid() && sel < |banks|
      ensures o == if Covered(R.PageRegions(Env(), sel), addr) then Raise(RegionViol) else Pass
    {
      var regions := PageRegions(sel);
      var hit := RegionHit(regions, addr);
      return if hit then Raise(RegionViol) else Pass;
    }

    // --------------------------------------------------------- memory effects

    method Poke(k: nat, a: nat, b: byte, ghost pg: seq<R.Page>)
      requires Valid() && Holds(pg) && k < |banks| && a < DATA_SIZE
      modifies banks[k]
      ensures Holds(R.Put(pg, k, a, b))
    {
      banks[k][a] := b;
      assert banks[k][..] == old(banks[k][..])[a := b];
      forall i | 0 <= i < |banks| && i != k ensures banks[i][..] == pg[i] {
        assert banks[i] != banks[k];
      }
    }

    method Poke16(k: nat, a: nat, w: word, ghost pg: seq<R.Page>)
      requires Valid() && Holds(pg) && k < |banks| && a + 1 < DATA_SIZE
      modifies banks[k]
      ensures Holds(R.Put16(pg, k, a, w))
    {
      Poke(k, a, w % 256, pg);
      Poke(k, a + 1, w / 256, R.Put(pg, k, a, w % 256));
    }

    /** One byte onto the stack, with both checks in front of it. */
    method Push(b: byte, ghost pg: seq<R.Page>) returns (o: Check)
      requires Valid() && Holds(pg)
      modifies `sp, data
      ensures Reached(o, R.PushByte(Env(), old(Core()), pg, b), old(Core()), pg)
    {
      o := Pass;
      :- StackRoom(1);
      :- RegionCheck(sp - 1);
      sp := sp - 1;
      Poke(bankOwn, sp, b, pg);
      return Pass;
    }

    /** Two pushes that are not allowed to fail halfway: the room and the regions have been
        checked for both. */
    method PushPair(first: byte, second: byte, ghost pg: seq<R.Page>) returns (o: Check)
      requires Valid() && Holds(pg)
      requires R.Room(cf, Core(), 2) && !R.StackCovered(cf, Core(), 2)
      modifies `sp, data
      ensures o == Pass && Core() == old(Core()).(sp := old(sp) - 2)
      ensures Holds(R.Put(R.Put(pg, bankOwn, old(sp) - 1, first), bankOwn, old(sp) - 2, second))
    {
      R.StackCoveredCells(cf, Core());
      ghost var pg1 := R.Put(pg, bankOwn, sp - 1, first);
      o := Push(first, pg);
      o := Push(second, pg1);
    }

    method Emit(b: byte) returns (o: Check)
      modifies `out
      ensures if |old(out)| >= cf.outcap then o == Raise(OutCap) && out == old(out)
              else o == Pass && out == old(out) + [b]
    {
      if |out| >= cf.outcap {
        return Raise(OutCap);
      }
      out := out + [b];
      return Pass;
    }

    // ---------------------------------------------------------- instructions

    ghost function Inputs(a: R.Args, pc0: word): R.AluIn
      reads this
    {
      R.AluInputs(Core(), a, pc0)
    }

    method AddInto(d: reg, x: byte, y: byte, carry: bit)
      modifies `r, `c, `z, `s, `v
      ensures Core() == R.Apply(old(Core()), d, R.Sum(x, y, carry))
    {
      var t: int := x + y + carry;
      var w := Low8(t);
      WriteResult(d, w, t / 256, R.OverflowAdd(x, y, w));
    }

    method SubFrom(d: reg, x: byte, y: byte, borrow: bit)
      modifies `r, `c, `z, `s, `v
      ensures Core() == R.Apply(old(Core()), d, R.Difference(x, y, borrow))
    {
      var t: int := x - y - borrow;
      var w := Low8(t);
      WriteResult(d, w, R.Flag(t < 0), R.OverflowSub(x, y, w));
    }

    method WriteResult(d: reg, w: byte, carry: bit, overflow: bit)
      modifies `r, `c, `z, `s, `v
      ensures Core() == R.Apply(old(Core()), d,
                                R.AluOut(true, w, carry, R.Flag(w == 0), R.Sign(w), overflow))
    {
      c := carry;
      r := r[d := w];
      z := R.Flag(w == 0);
      s := R.Sign(w);
      v := overflow;
    }

    method Compare(d: reg, x: byte, y: byte)
      modifies `c, `z, `s, `v
      ensures Core() == R.Apply(old(Core()), d,
                          R.Difference(x, y, 0).(en := false, w := x, z := R.Flag(x == y)))
    {
      var t: int := x - y;
      var w := Low8(t);
      z := R.Flag(x == y);
      c := R.Flag(x < y);
      s := R.Sign(w);
      v := R.OverflowSub(x, y, w);
    }

    method ExecArith(sel: Sel, a: R.Args, pc0: word)
      requires R.IsArith(sel)
      modifies `r, `c, `z, `s, `v
      ensures Core() == R.Apply(old(Core()), a.s0, R.AluArith(sel, old(Inputs(a, pc0))))
    {
      if sel.Add? {
        AddInto(a.s0, r[a.s0], r[a.s1], 0);
      } else if sel.Sub? {
        SubFrom(a.s0, r[a.s0], r[a.s1], 0);
      } else if sel.Adc? {
        AddInto(a.s0, r[a.s0], r[a.s1], c);
      } else if sel.Sbb? {
        SubFrom(a.s0, r[a.s0], r[a.s1], c);
      } else if sel.Cmp? {
        Compare(a.s0, r[a.s0], r[a.s1]);
      } else if sel.Addi? {
        AddInto(a.s0, r[a.s0], a.i0, 0);
      } else if sel.Subi? {
        SubFrom(a.s0, r[a.s0], a.i0, 0);
      } else {
        AddInto(a.s0, r[a.s0], a.i0, c);
      }
    }

    method ExecLogic(sel: Sel, a: R.Args, pc0: word) returns (o: Check)
      requires R.IsLogic(sel)
      modifies `r, `c, `z
      ensures
        if (sel.Div? || sel.Mod?) && old(r)[a.s1] == 0 then
          o == Raise(DivZero) && Core() == old(Core())
        else
          o == Pass && Core() == R.Apply(old(Core()), a.s0, R.AluLogic(sel, old(Inputs(a, pc0))))
    {
      var x: int, y: int := r[a.s0], r[a.s1];
      var w: byte;
      if sel.And8? {
        w := AndByte(x, y);
      } else if sel.Or8? {
        w := OrByte(x, y);
      } else if sel.Xor8? {
        w := XorByte(x, y);
      } else if sel.Not? {
        w := Low8(-1 - x);
      } else if sel.Mul? {
        var t := R.Product(x, y);
        c := R.Flag(t > 255);
        w := Low8(t);
      } else if sel.Mulh? {
        w := Low8(R.Product(x, y) / 256);
      } else {
        if y == 0 {
          return Raise(DivZero);
        }
        w := if sel.Div? then R.Quotient(x, y) else R.Remainder(x, y);
      }
      r := r[a.s0 := w];
      z := R.Flag(w == 0);
      return Pass;
    }

    method ExecUnary(sel: Sel, a: R.Args, pc0: word)
      requires R.IsUnary(sel)
      modifies `r, `c, `z, `s
      ensures Core() == R.Apply(old(Core()), a.s0, R.AluUnary(sel, old(Inputs(a, pc0))))
    {
      var x: int := r[a.s0];
      if sel.Neg? {
        var t := Low8(0 - x);
        c := R.Flag(x != 0); r := r[a.s0 := t]; z := R.Flag(t == 0); s := R.Sign(t);
      } else if sel.Rol? {
        c, r := x / 128, r[a.s0 := Low8(Or(2 * x, c))];
        z := R.Flag(r[a.s0] == 0);
      } else if sel.Ror? {
        c, r := x % 2, r[a.s0 := Low8(Or(x / 2, 128 * c))];
        z := R.Flag(r[a.s0] == 0);
      } else if sel.Shl? {
        c := x / 128;
        var w := Low8(2 * x); r := r[a.s0 := w]; z := R.Flag(w == 0);
      } else if sel.Shr? {
        c := x % 2;
        var w := x / 2; r := r[a.s0 := w]; z := R.Flag(w == 0);
      } else {
        z := R.Flag(r[a.s0] == 0);
      }
    }

    method ExecMove(sel: Sel, a: R.Args, pc0: word)
      requires R.IsMove(sel)
      modifies `r
      ensures Core() == R.Apply(old(Core()), a.s0, R.AluMove(sel, old(Inputs(a, pc0))))
    {
      if sel.Mov? {
        r := r[a.s0 := r[a.s1]];
      } else if sel.GetPc? {
        r := r[a.s0 := pc0 % 256];
      } else if sel.GetSp? {
        r := r[a.s0 := sp % 256];
      } else if sel.GetF? {
        r := r[a.s0 := R.FlagsByte(z, c, s, v)];
      } else {
        r := r[a.s0 := a.i0];
      }
    }

    /** The arithmetic that cannot fault. */
    method ExecQuiet(sel: Sel, a: R.Args, pc0: word)
      requires R.IsArith(sel) || R.IsUnary(sel) || R.IsMove(sel)
      modifies `r, `c, `z, `s, `v
      ensures Core() == R.Apply(old(Core()), a.s0, R.AluOf(sel, old(Inputs(a, pc0))))
    {
      hide R.AluArith, R.AluLogic, R.AluUnary, R.AluMove, R.Apply;
      if R.IsArith(sel) {
        ExecArith(sel, a, pc0);
      } else if R.IsUnary(sel) {
        ExecUnary(sel, a, pc0);
      } else {
        ExecMove(sel, a, pc0);
      }
    }

    method ExecAlu(sel: Sel, a: R.Args, pc0: word, ghost pg: seq<R.Page>) returns (o: Check)
      requires R.IsAlu(sel) && Holds(pg)
      modifies `r, `c, `z, `s, `v
      ensures Reached(o, R.ExecAlu(sel, a, pc0, old(Core()), pg), old(Core()), pg)
    {
      hide R.IsAlu, R.IsLogic, R.IsArith, R.IsUnary, R.IsMove, R.AluOf, R.AluLogic, R.Apply, R.ExecAlu,
           R.AluInputs;
      R.AluAnswer(sel, a, pc0, Core(), pg);
      if R.IsLogic(sel) {
        o := ExecLogic(sel, a, pc0);
      } else {
        ExecQuiet(sel, a, pc0);
        o := Pass;
      }
    }

    method SetSp(t: word, ghost pg: seq<R.Page>) returns (o: Check)
      requires Holds(pg)
      modifies `sp
      ensures Reached(o, R.SetSp(old(Core()), pg, t), old(Core()), pg)
    {
      if t > DATA_SIZE {
        return Raise(DataOob);
      }
      sp := t;
      return Pass;
    }

    method ExecCopy(sel: Sel, a: R.Args)
      requires R.IsCopy(sel)
      modifies `hl, `de, `mb
      ensures Core() == R.Copied(sel, old(Core()), a)
    {
      if sel.LdiHl? {
        hl := Word(a.i0, a.i1);
      } else if sel.LdiDe? {
        de := Word(a.i0, a.i1);
      } else if sel.Xchg? {
        hl, de := de, hl;
      } else if sel.MovwHlDe? {
        hl := de;
      } else if sel.MovwDeHl? {
        de := hl;
      } else if sel.MovwHlSp? {
        hl := sp;
      } else if sel.MovwDeSp? {
        de := sp;
      } else if sel.MovMbHl? {
        mb := hl;
      } else {
        hl := mb;
      }
    }

    method ExecCount(sel: Sel, a: R.Args)
      requires R.IsCount(sel)
      modifies `hl, `de, `c, `status
      ensures Core() == R.Counted(sel, old(Core()), a)
    {
      if sel.Halt? {
        status := R.Halted;
      } else if sel.Clc? {
        c := 0;
      } else if sel.IncHl? {
        hl := Low16(hl + 1);
      } else if sel.DecHl? {
        hl := Low16(hl - 1);
      } else if sel.IncDe? {
        de := Low16(de + 1);
      } else if sel.AddiHl? {
        hl := Low16(hl + r[a.i0 % 4]);
      } else if sel.AddiDe? {
        de := Low16(de + r[a.i0 % 4]);
      } else if sel.AddHlDe? {
        var t: int := hl + de;
        c := t / 65536;
        hl := Low16(t);
      } else if sel.SubHlDe? {
        c := R.Flag(hl < de);
        hl := Low16(hl - de);
      }
    }

    method ExecPointer(sel: Sel, a: R.Args, ghost pg: seq<R.Page>) returns (o: Check)
      requires R.IsPointer(sel) && Holds(pg)
      modifies `hl, `de, `sp, `mb, `c, `status
      ensures Reached(o, R.ExecPointer(sel, a, old(Core()), pg), old(Core()), pg)
    {
      if R.IsCopy(sel) {
        ExecCopy(sel, a);
      } else if R.IsCount(sel) {
        ExecCount(sel, a);
      } else if sel.MovwSpHl? {
        :- SetSp(hl, pg);
      } else if sel.MovwSpDe? {
        :- SetSp(de, pg);
      } else {
        :- SetSp(Low16(sp + Signed(a.i0)), pg);
      }
      return Pass;
    }

    method JumpIf(taken: bool, t: word, ghost pg: seq<R.Page>) returns (o: Check)
      requires Holds(pg)
      modifies `pc
      ensures Reached(o, R.Branch(cf, taken, old(Core()), pg, t), old(Core()), pg)
    {
      if taken {
        :- PcTarget(t);
        pc := t;
      }
      return Pass;
    }

    /** DJNZ checks the target before it touches the register. */
    method CountDown(a: R.Args, ghost pg: seq<R.Page>) returns (o: Check)
      requires Holds(pg)
      modifies `pc, `r
      ensures Reached(o, R.ExecBranch(Djnz, cf, a, old(Core()), pg), old(Core()), pg)
    {
      var t := Word(a.i0, a.i1);
      var x: int := r[a.s0];
      var taken := Low8(x - 1) != 0;
      if taken {
        :- PcTarget(t);
      }
      r := r[a.s0 := Low8(x - 1)];
      if taken {
        pc := t;
      }
      return Pass;
    }

    method ExecBranch(sel: Sel, a: R.Args, ghost pg: seq<R.Page>) returns (o: Check)
      requires R.IsBranch(sel) && Holds(pg)
      modifies `pc, `r
      ensures Reached(o, R.ExecBranch(sel, cf, a, old(Core()), pg), old(Core()), pg)
    {
      if sel.Jmp? || sel.Jz? || sel.Jnz? || sel.Jc? || sel.Jnc? {
        var taken := if sel.Jmp? then true else if sel.Jz? then z == 1 else if sel.Jnz? then z == 0
                     else if sel.Jc? then c == 1 else c == 0;
        o := JumpIf(taken, Word(a.i0, a.i1), pg);
      } else if sel.Js? || sel.Jns? || sel.Vs? || sel.Vc? {
        var taken := if sel.Js? then s == 1 else if sel.Jns? then s == 0
                     else if sel.Vs? then v == 1 else v == 0;
        o := JumpIf(taken, Low16(pc + Signed(a.i0)), pg);
      } else if sel.JpHl? {
        o := JumpIf(true, hl, pg);
      } else {
        o := CountDown(a, pg);
      }
    }

    method CallTo(t: word, ghost pg: seq<R.Page>) returns (o: Check)
      requires Valid() && Holds(pg)
      modifies `sp, `pc, data
      ensures Reached(o, R.CallTo(Env(), old(Core()), pg, t), old(Core()), pg)
    {
      var ret := pc;
      :- StackRoom(2);
      :- PcTarget(t);
      :- StackRegion(2);
      o := PushPair(ret % 256, ret / 256, pg);
      pc := t;
    }

    method PushWord(w: word, ghost pg: seq<R.Page>) returns (o: Check)
      requires Valid() && Holds(pg)
      modifies `sp, data
      ensures Reached(o, R.PushWord(Env(), old(Core()), pg, w), old(Core()), pg)
    {
      o := Pass;
      :- StackRoom(2);
      :- StackRegion(2);
      sp := sp - 2;
      Poke16(bankOwn, sp, w, pg);
      return Pass;
    }

    method Return(ghost pg: seq<R.Page>) returns (o: Check)
      requires Valid() && Holds(pg)
      modifies `sp, `pc
      ensures Reached(o, R.Return(Env(), old(Core()), pg), old(Core()), pg)
    {
      o := Pass;
      :- StackHave(2);
      var t := Word(data[sp + 1], data[sp]);
      :- PcTarget(t);
      sp := sp + 2;
      pc := t;
      return Pass;
    }

    method PopReg(d: reg, ghost pg: seq<R.Page>) returns (o: Check)
      requires Valid() && Holds(pg)
      modifies `sp, `r
      ensures Reached(o, R.PopByte(Env(), old(Core()), pg, d), old(Core()), pg)
    {
      o := Pass;
      :- StackHave(1);
      r := r[d := data[sp]];
      sp := sp + 1;
      return Pass;
    }

    method PopWord(intoHl: bool, ghost pg: seq<R.Page>) returns (o: Check)
      requires Valid() && Holds(pg)
      modifies `sp, `hl, `de
      ensures Reached(o, R.PopWord(Env(), old(Core()), pg, intoHl), old(Core()), pg)
    {
      o := Pass;
      :- StackHave(2);
      var w := Word(data[sp], data[sp + 1]);
      if intoHl {
        hl := w;
      } else {
        de := w;
      }
      sp := sp + 2;
      return Pass;
    }

    method ExecStack(sel: Sel, a: R.Args, ghost pg: seq<R.Page>) returns (o: Check)
      requires Valid() && R.IsStack(sel) && Holds(pg)
      modifies `r, `hl, `de, `sp, `pc, data
      ensures Reached(o, R.ExecStack(sel, Env(), a, old(Core()), pg), old(Core()), pg)
    {
      if sel.Call? {
        o := CallTo(Word(a.i0, a.i1), pg);
      } else if sel.CallHl? {
        o := CallTo(hl, pg);
      } else if sel.Ret? {
        o := Return(pg);
      } else if sel.Push? {
        o := Push(r[a.s0], pg);
      } else if sel.Pop? {
        o := PopReg(a.s0, pg);
      } else if sel.PushwHl? {
        o := PushWord(hl, pg);
      } else if sel.PushwDe? {
        o := PushWord(de, pg);
      } else {
        o := PopWord(sel.PopwHl?, pg);
      }
    }

    method StoreReg(addr: word, b: byte, ghost pg: seq<R.Page>) returns (o: Check)
      requires Valid() && Holds(pg)
      modifies data
      ensures Reached(o, R.StoreReg(Env(), Core(), pg, addr, b), Core(), pg)
    {
      o := Pass;
      :- Mem(addr);
      :- RegionCheck(addr);
      Poke(bankOwn, addr, b, pg);
      return Pass;
    }

    method StoreWord(addr: word, w: word, ghost pg: seq<R.Page>) returns (o: Check)
      requires Valid() && Holds(pg)
      modifies data
      ensures Reached(o, R.StoreWord(Env(), Core(), pg, addr, w), Core(), pg)
    {
      o := Pass;
      :- Mem16(addr);
      :- RegionPair(addr);
      Poke16(bankOwn, addr, w, pg);
      return Pass;
    }

    method LoadReg(addr: word, d: reg, ghost pg: seq<R.Page>) returns (o: Check)
      requires Valid() && Holds(pg)
      modifies `r
      ensures Reached(o, R.LoadReg(Env(), old(Core()), pg, d, addr), old(Core()), pg)
    {
      o := Pass;
      :- Mem(addr);
      r := r[d := data[addr]];
      return Pass;
    }

    /** A pair read out of page `k` into the pointer the address did not come from. */
    method LoadWord(k: nat, addr: word, intoHl: bool, ghost pg: seq<R.Page>) returns (o: Check)
      requires Valid() && Holds(pg) && k < |banks|
      modifies `hl, `de
      ensures Reached(o, R.LoadWord(pg[k], old(Core()), pg, addr, intoHl), old(Core()), pg)
    {
      o := Pass;
      :- Mem16(addr);
      var w := Word(banks[k][addr], banks[k][addr + 1]);
      if intoHl {
        hl := w;
      } else {
        de := w;
      }
      return Pass;
    }

    method LoadCode(d: reg, ghost pg: seq<R.Page>) returns (o: Check)
      requires Valid() && Holds(pg)
      modifies `r
      ensures Reached(o, R.LoadCode(cf, old(Core()), pg, d), old(Core()), pg)
    {
      if !(0 <= hl < cf.codelen) {
        return Raise(CodeOob);
      }
      r := r[d := code[hl]];
      return Pass;
    }

    method StoreCode(b: byte, ghost pg: seq<R.Page>) returns (o: Check)
      requires Valid() && Holds(pg)
      modifies `code, `stcFirst, `stcCount
      ensures Reached(o, R.StoreCode(cf, old(Core()), pg, b), old(Core()), pg)
    {
      if !(0 <= hl < cf.codelen) {
        return Raise(CodeOob);
      }
      if !(cf.winlo <= hl < cf.winhi) {
        return Raise(Window);
      }
      code := code[hl := b];
      stcFirst := if stcCount == 0 then hl else stcFirst;
      stcCount := stcCount + 1;
      return Pass;
    }

    method ExecMemory(sel: Sel, a: R.Args, ghost pg: seq<R.Page>) returns (o: Check)
      requires Valid() && R.IsMemory(sel) && Holds(pg)
      modifies `r, `hl, `de, `code, `stcFirst, `stcCount, data
      ensures Reached(o, R.ExecMemory(sel, Env(), a, old(Core()), pg), old(Core()), pg)
    {
      var frame := Low16(hl + Signed(a.i0));
      if sel.MovRHl? {
        o := LoadReg(hl, a.s0, pg);
      } else if sel.MovRDe? {
        o := LoadReg(de, a.s0, pg);
      } else if sel.Ldx? {
        o := LoadReg(frame, a.s0, pg);
      } else if sel.MovHlR? {
        o := StoreReg(hl, r[a.s0], pg);
      } else if sel.MovDeR? {
        o := StoreReg(de, r[a.s0], pg);
      } else if sel.Stx? {
        o := StoreReg(frame, r[a.s0], pg);
      } else if sel.StwHlDe? {
        o := StoreWord(hl, de, pg);
      } else if sel.StwDeHl? {
        o := StoreWord(de, hl, pg);
      } else if sel.LdwDeHl? {
        o := LoadWord(bankOwn, hl, false, pg);
      } else if sel.LdwHlDe? {
        o := LoadWord(bankOwn, de, true, pg);
      } else if sel.Ldc? {
        o := LoadCode(a.s0, pg);
      } else {
        o := StoreCode(r[a.s0], pg);
      }
    }

    method EmitAt(addr: word, ghost pg: seq<R.Page>) returns (o: Check)
      requires Valid() && Holds(pg)
      modifies `out
      ensures Holds(pg)
      ensures
        if addr >= DATA_SIZE then o == Raise(DataOob) && out == old(out)
        else if |old(out)| >= cf.outcap then o == Raise(OutCap) && out == old(out)
        else o == Pass && out == old(out) + [pg[bankOwn][addr]]
    {
      o := Pass;
      :- Mem(addr);
      :- Emit(data[addr]);
      return Pass;
    }

    method EmitThrough(throughHl: bool, ghost pg: seq<R.Page>) returns (o: Check)
      requires Valid() && Holds(pg)
      modifies `hl, `de, `out
      ensures Reached(o, R.EmitThrough(Env(), old(Core()), pg, throughHl), old(Core()), pg)
    {
      if throughHl {
        :- EmitAt(hl, pg);
        hl := Low16(hl + 1);
      } else {
        :- EmitAt(de, pg);
        de := Low16(de + 1);
      }
      return Pass;
    }

    method Input(d: reg, ghost pg: seq<R.Page>) returns (o: Check)
      requires Holds(pg)
      modifies `r, `c, `ipos
      ensures Reached(o, R.Input(Env(), old(Core()), pg, d), old(Core()), pg)
    {
      if ipos < |inputs| {
        r := r[d := inputs[ipos]];
        ipos := ipos + 1;
      } else {
        r := r[d := 0];
        c := 1;
      }
      return Pass;
    }

    method ExecStream(sel: Sel, a: R.Args, ghost pg: seq<R.Page>) returns (o: Check)
      requires Valid() && R.IsStream(sel) && Holds(pg)
      modifies `r, `hl, `de, `c, `ipos, `out
      ensures Reached(o, R.ExecStream(sel, Env(), a, old(Core()), pg), old(Core()), pg)
    {
      if sel.Out? {
        o := Emit(r[a.s0]);
      } else if sel.In? {
        o := Input(a.s0, pg);
      } else {
        o := EmitThrough(sel.OutM?, pg);
      }
    }

    method BankLoad(d: reg, ghost pg: seq<R.Page>) returns (o: Check)
      requires Valid() && Holds(pg) && mb < |banks|
      modifies `r
      ensures Reached(o, R.BankLoad(old(Core()), pg, d), old(Core()), pg)
    {
      o := Pass;
      :- Mem(hl);
      r := r[d := banks[mb][hl]];
      return Pass;
    }

    method BankStore(b: byte, ghost pg: seq<R.Page>) returns (o: Check)
      requires Valid() && Holds(pg) && mb < |banks|
      modifies banks
      ensures Reached(o, R.BankStore(Env(), old(Core()), pg, b), old(Core()), pg)
    {
      o := Pass;
      :- Mem(hl);
      :- BankRegion(mb, hl);
      Poke(mb, hl, b, pg);
      return Pass;
    }

    method BankStore16(addr: word, w: word, ghost pg: seq<R.Page>) returns (o: Check)
      requires Valid() && Holds(pg) && mb < |banks|
      modifies banks
      ensures Reached(o, R.BankStore16(Env(), Core(), pg, addr, w), Core(), pg)
    {
      o := Pass;
      :- Mem16(addr);
      :- BankRegion(mb, addr);
      :- BankRegion(mb, addr + 1);
      Poke16(mb, addr, w, pg);
      return Pass;
    }

    method ExecBank(sel: Sel, a: R.Args, ghost pg: seq<R.Page>) returns (o: Check)
      requires Valid() && R.IsBank(sel) && Holds(pg)
      modifies `r, `hl, `de, banks
      ensures Reached(o, R.ExecBank(sel, Env(), a, old(Core()), pg), old(Core()), pg)
    {
      o := Pass;
      :- BankPage(mb);
      if sel.Ldm? {
        o := BankLoad(a.s0, pg);
      } else if sel.Stm? {
        o := BankStore(r[a.s0], pg);
      } else if sel.LdmwDeHl? {
        o := LoadWord(mb, hl, false, pg);
      } else if sel.LdmwHlDe? {
        o := LoadWord(mb, de, true, pg);
      } else if sel.StmwHlDe? {
        o := BankStore16(hl, de, pg);
      } else {
        o := BankStore16(de, hl, pg);
      }
    }

    method VectorOf(k: byte, ghost pg: seq<R.Page>) returns (t: word)
      requires Valid() && Holds(pg) && k < VEC_COUNT
      ensures t == R.Vector(Env(), pg, k)
    {
      if cf.vtab.None? {
        return cf.vec[k];
      }
      var base := cf.vtab.value + 2 * k;
      return Word(data[base], data[base + 1]);
    }

    /** The whole frame, once room and regions have been checked for all four bytes. */
    method PushFrame(fb: byte, ret: word, ghost pg: seq<R.Page>) returns (o: Check)
      requires Valid() && Holds(pg)
      requires R.Room(cf, Core(), 4) && !R.StackCovered(cf, Core(), 4)
      modifies `sp, data
      ensures o == Pass && Core() == old(Core()).(sp := old(sp) - 4)
      ensures Holds(R.PushFrame(pg, bankOwn, old(sp), fb, ret))
    {
      R.StackCoveredCells(cf, Core());
      ghost var pg2 := R.Put(R.Put(pg, bankOwn, sp - 1, TRAP_TAG), bankOwn, sp - 2, fb);
      o := PushPair(TRAP_TAG, fb, pg);
      R.StackCoveredCells(cf, Core());
      o := PushPair(ret % 256, ret / 256, pg2);
    }

    method Jumped(t: word)
      modifies `pc, `td
      ensures Core() == old(Core()).(pc := t, td := old(td) + 1)
    {
      pc, td := t, td + 1;
    }

    method EnterAt(t: word, ghost pg: seq<R.Page>) returns (o: Check)
      requires Valid() && Holds(pg)
      modifies `sp, `pc, `td, data
      ensures Reached(o, R.EnterAt(Env(), t, old(Core()), pg), old(Core()), pg)
    {
      hide R.PushFrame, R.FlagsByte, R.StackCovered, Legal;
      :- StackRoom(4);
      :- PcTarget(t);
      :- StackRegion(4);
      o := PushFrame(R.FlagsByte(z, c, s, v), pc, pg);
      Jumped(t);
    }

    method EnterTrap(k: byte, ghost pg: seq<R.Page>) returns (o: Check)
      requires Valid() && Holds(pg)
      modifies `sp, `pc, `td, data
      ensures Reached(o, R.TrapEnter(Env(), k, old(Core()), pg), old(Core()), pg)
    {
      if k >= VEC_COUNT {
        return Raise(TrapUnreg);
      }
      var t := VectorOf(k, pg);
      if t == 0 {
        return Raise(TrapUnreg);
      }
      if td == cf.tdlim {
        return Raise(TrapDepth);
      }
      o := EnterAt(t, pg);
    }

    method UnpackFlags(fb: byte)
      modifies `c, `z, `s, `v
      ensures Core() == R.Unpacked(old(Core()), fb)
    {
      z := fb % 2;
      c := fb / 2 % 2;
      s := fb / 4 % 2;
      v := fb / 8 % 2;
    }

    method Resume(t: word, fb: byte)
      requires sp + 4 <= DATA_SIZE && td > 0
      modifies `sp, `pc, `td, `c, `z, `s, `v
      ensures var m := old(Core());
        Core() == R.Unpacked(m, fb).(sp := m.sp + 4, td := m.td - 1).(pc := t)
    {
      sp := sp + 4;
      pc := t;
      UnpackFlags(fb);
      td := td - 1;
    }

    method LeaveTrap(ghost pg: seq<R.Page>) returns (o: Check)
      requires Valid() && Holds(pg)
      modifies `sp, `pc, `td, `c, `z, `s, `v
      ensures Reached(o, R.TrapLeave(Env(), old(Core()), pg), old(Core()), pg)
    {
      if td == 0 {
        return Raise(TrapUnbalanced);
      }
      :- StackHave(4);
      var hi, lo, fb, tag := data[sp], data[sp + 1], data[sp + 2], data[sp + 3];
      if tag != TRAP_TAG {
        return Raise(TrapFrame);
      }
      var t := Word(lo, hi);
      :- PcTarget(t);
      Resume(t, fb);
      return Pass;
    }

    // ------------------------------------------------------------------ steps

    /** Dispatch on the selector, `pc` already behind the operands. */
    method Execute(sel: Sel, a: R.Args, pc0: word, ghost pg: seq<R.Page>) returns (o: Check)
      requires Valid() && Holds(pg)
      modifies `r, `hl, `de, `mb, `pc, `sp, `c, `z, `s, `v, `td, `stcCount, `stcFirst, `ipos,
               `status, `code, `out, banks
      ensures Reached(o, R.Exec(sel, Env(), a, pc0, old(Core()), pg), old(Core()), pg)
    {
      hide R.ExecAlu, R.ExecPointer, R.ExecBranch, R.ExecStack, R.ExecMemory, R.ExecStream, R.ExecBank,
           R.TrapEnter, R.TrapLeave;
      if R.IsAlu(sel) {
        o := ExecAlu(sel, a, pc0, pg);
      } else if R.IsPointer(sel) {
        o := ExecPointer(sel, a, pg);
      } else if R.IsBranch(sel) {
        o := ExecBranch(sel, a, pg);
      } else if R.IsStack(sel) {
        o := ExecStack(sel, a, pg);
      } else if R.IsMemory(sel) {
        o := ExecMemory(sel, a, pg);
      } else if R.IsStream(sel) {
        o := ExecStream(sel, a, pg);
      } else if R.IsBank(sel) {
        o := ExecBank(sel, a, pg);
      } else if sel.Ext? {
        o := EnterTrap(a.i0, pg);
      } else if sel.TrapRet? {
        o := LeaveTrap(pg);
      } else {
        o := Raise(BadOpcode);
      }
    }

    /** The bytes `[pc, pc + n)`, with `pc` moved behind them. */
    method Take(n: nat) returns (o: Check, b: seq<byte>)
      requires Legal(cf)
      modifies `pc
      ensures var at := old(pc);
        if at + n > cf.codelen then o == Raise(FetchOob) && pc == at
        else o == Pass && b == code[at..at + n] && pc == at + n
    {
      if pc + n > cf.codelen {
        return Raise(FetchOob), [];
      }
      b := code[pc..pc + n];
      pc := pc + n;
      return Pass, b;
    }

    /** Fetch and decode, advancing `pc` as it goes; a refusal may leave `pc` advanced. */
    method FetchRow() returns (o: Check, sel: Sel, a: R.Args)
      requires Legal(cf)
      modifies `pc
      ensures match R.Fetch(cf, old(Core()))
        case Refused(cause) => o == Raise(cause)
        case Decoded(sel', a', fall) => o == Pass && sel == sel' && a == a' && pc == fall
    {
      sel, a := Bad, R.Args(0, 0, 0, 0);
      var op: seq<byte>, sub: seq<byte>, imm: seq<byte>;
      o, op := Take(1);
      if o.Raise? {
        return;
      }
      var row;
      if op[0] == ESCAPE_PREFIX {
        o, sub := Take(1);
        if o.Raise? {
          return;
        }
        row := EscapeRow(sub[0]);
        if row.sel.Bad? {
          return Raise(BadSubcode), sel, a;
        }
      } else {
        row := SingleRow(op[0]);
        if row.sel.Bad? {
          return Raise(BadOpcode), sel, a;
        }
      }
      o, imm := Take(row.l);
      sel := row.sel;
      a := R.Args(row.s0, row.s1, if row.l >= 1 && o.Pass? then imm[0] else 0,
                  if row.l >= 2 && o.Pass? then imm[1] else 0);
    }

    /** The step that may raise: on a raise everything but `pc` stands as it did. */
    method StepInner(ghost pg: seq<R.Page>) returns (o: Check)
      requires Valid() && Holds(pg)
      modifies `r, `hl, `de, `mb, `pc, `sp, `c, `z, `s, `v, `td, `stcCount, `stcFirst, `ipos,
               `tick, `status, `code, `out, banks
      ensures
        if old(status) != R.Running then o == Pass && Core() == old(Core()) && Holds(pg)
        else if old(tick) >= cf.tb then
          o == Pass && Core() == old(Core()).(status := R.Overrun) && Holds(pg)
        else match R.Step(Env(), old(Core()), pg)
          case Fault(cause) => o == Raise(cause) && Core().(pc := old(pc)) == old(Core()) && Holds(pg)
          case Next(m, pg') => o == Pass && Core() == m.(tick := m.tick + 1) && Holds(pg')
    {
      hide R.Fetch, R.Exec, Legal, Holds;
      if status != R.Running {
        return Pass;
      }
      if tick >= cf.tb {
        status := R.Overrun;
        return Pass;
      }
      var pc0 := pc;
      var sel, a;
      o, sel, a := FetchRow();
      if o.Raise? {
        return;
      }
      o := Execute(sel, a, pc0, pg);
      if o.Pass? {
        tick := tick + 1;
      }
    }

    /** What a fault leaves behind: PC restored, the three fault fields written. */
    method Refuse(cause: Cause, pc0: word)
      modifies `pc, `status, `reason, `faultAddr
      ensures Core() == old(Core()).(pc := pc0).(status := R.Error, reason := cause, faultAddr := pc0)
    {
      pc := pc0;
      status, reason, faultAddr := R.Error, cause, pc0;
    }

    lemma EnvFits(pg: seq<R.Page>)
      requires Valid() && Holds(pg)
      ensures R.Fits(Env(), pg)
    {
    }

    /** One tick, in place. The object and its pages end where `Reference.Tick` says; a raised
        fault has been rolled back to the three fault fields, and is reported. */
    method Step(ghost pg: seq<R.Page>) returns (o: Check)
      requires Valid() && Holds(pg)
      modifies `r, `hl, `de, `mb, `pc, `sp, `c, `z, `s, `v, `td, `stcCount, `stcFirst, `ipos,
               `tick, `status, `reason, `faultAddr, `code, `out, banks
      ensures var w := R.Tick(Env(), R.World(old(Core()), pg));
        Core() == w.m && Holds(w.pg)
      ensures o.Raise? <==> old(status) == R.Running && status == R.Error
      ensures o.Raise? ==> o.cause == reason && reason != Ok
    {
      hide R.Step, R.Tick, Legal, Holds;
      var pc0 := pc;
      EnvFits(pg);
      R.TickCases(Env(), Core(), pg);
      o := StepInner(pg);
      if o.Raise? {
        Refuse(o.cause, pc0);
      }
    }

    /** Steps until the machine stops; a fault ends the run by being raised. */
    method Run(ghost pg: seq<R.Page>) returns (o: Check, ghost pg': seq<R.Page>)
      requires Valid() && Holds(pg)
      modifies `r, `hl, `de, `mb, `pc, `sp, `c, `z, `s, `v, `td, `stcCount, `stcFirst, `ipos,
               `tick, `status, `reason, `faultAddr, `code, `out, banks
      ensures R.World(Core(), pg') == R.RunToStop(Env(), R.World(old(Core()), pg)) && Holds(pg')
      ensures status != R.Running
      ensures o.Raise? ==> status == R.Error
    {
      hide R.Tick;
      o, pg' := Pass, pg;
      while status == R.Running
        invariant Holds(pg')
        invariant o.Raise? ==> status == R.Error
        invariant R.RunToStop(Env(), R.World(Core(), pg'))
                  == R.RunToStop(Env(), R.World(old(Core()), pg))
        decreases R.Fuel(Env(), Core())
      {
        ghost var w := R.World(Core(), pg');
        R.TickSpendsFuel(Env(), w);
        o := Step(pg');
        pg' := R.Tick(Env(), w).pg;
      }
    }
  }
}
