/** The loader: one source placed and emitted in two passes, and several sources linked into
    one image. */
module Linker {
  import opened Bits
  import opened Isa
  import Ex = Expressions
  import Asm = Assembler

  type Expr = t: seq<Ex.Token> | Ex.Ended(t) witness [Ex.Close]

  /** The operand of a matched line: settled by its spelling, or an expression in a slot. */
  datatype Slot =
    | Settled(arg: Asm.Operand) | Address(e: Expr) | Immediate(e: Expr) | Signed(e: Expr)
    | Frame(negative: bool, e: Expr)

  datatype Item =
    | Label(name: string) | Equ(name: string, e: Expr) | Org(e: Expr)
    | Bytes(es: seq<Expr>) | Words(es: seq<Expr>) | Ascii(data: seq<byte>)
    | Line(sel: Sel, d: reg, s: reg, slot: Slot)

  // -------------------------------------------------------------------- symbols

  /** Labels are code addresses, `.equ` names are constants; no name is both. */
  datatype Table = Table(addr: Ex.Symbols, consts: Ex.Symbols)

  const EMPTY := Table(map[], map[])

  function Flat(t: Table): Ex.Symbols { t.addr + t.consts }

  predicate Known(t: Table, name: string) { name in t.addr || name in t.consts }

  predicate OneKind(t: Table) { forall n :: !(n in t.addr && n in t.consts) }

  // ---------------------------------------------------------------- the place pass

  /** What the shape's operand bytes would be, whatever the expression is worth. */
  function Shape(sel: Sel, d: reg, s: reg, slot: Slot): Asm.Ins
  {
    Asm.Ins(sel, d, s, match slot
                       case Settled(arg) => arg
                       case Address(_) => Asm.Word16(0)
                       case _ => Asm.Byte(0))
  }

  /** A line some accepted shape matches. */
  predicate Matched(it: Item)
    requires it.Line?
  {
    && Asm.Accepted(Shape(it.sel, it.d, it.s, it.slot))
    && (it.slot.Settled? ==> !it.slot.arg.Ref?)
    && (it.sel.AddiHl? || it.sel.AddiDe? ==> it.slot.Settled?)
  }

  function Size(it: Item): nat
  {
    match it
    case Bytes(es) => |es|
    case Words(es) => 2 * |es|
    case Ascii(data) => |data|
    case Line(sel, d, s, slot) => if Matched(it) then Asm.SizeOf(Shape(sel, d, s, slot)) else 0
    case _ => 0
  }

  /** Where the place pass stands: the symbols so far and the next address. */
  datatype Placing = Placing(tab: Table, pc: int)

  function PlaceItem(it: Item, outer: Ex.Symbols, p: Placing): Option<Placing>
  {
    match it
    case Label(name) =>
      if Known(p.tab, name) then None else Some(p.(tab := p.tab.(addr := p.tab.addr[name := p.pc])))
    case Equ(name, e) =>
      (match Ex.Parse(e, outer + Flat(p.tab))
       case None => None
       case Some(v) =>
         if Known(p.tab, name) then None else Some(p.(tab := p.tab.(consts := p.tab.consts[name := v]))))
    case Org(e) =>
      (match Ex.Parse(e, outer + Flat(p.tab))
       case None => None
       case Some(v) => if 0 <= v <= CODE_SIZE then Some(p.(pc := v)) else None)
    case Bytes(es) => if es == [] then None else Some(p.(pc := p.pc + Size(it)))
    case Words(es) => if es == [] then None else Some(p.(pc := p.pc + Size(it)))
    case Ascii(_) => Some(p.(pc := p.pc + Size(it)))
    case Line(_, _, _, _) => if Matched(it) then Some(p.(pc := p.pc + Size(it))) else None
  }

  /** One unit's place pass; `outer` holds the symbols of the units already placed. */
  function Placed(items: seq<Item>, outer: Ex.Symbols, p: Placing): Option<Placing>
  {
    if items == [] then Some(p)
    else
      match PlaceItem(items[0], outer, p)
      case None => None
      case Some(q) => Placed(items[1..], outer, q)
  }

  // ----------------------------------------------------------------- the emit pass

  /** A run of bytes and where it goes. */
  datatype Block = Block(at: int, data: seq<byte>)

  predicate NamesLabel(e: Expr, syms: Table)
  {
    exists k :: 0 <= k < |e| && e[k].Name? && e[k].s in syms.addr
  }

  /** A numeric slot: no label in it, and the value within `lo..hi`. */
  function Numeric(e: Expr, negative: bool, syms: Table, lo: int, hi: int): Option<Asm.Operand>
  {
    if NamesLabel(e, syms) then None
    else
      match Ex.Parse(e, Flat(syms))
      case None => None
      case Some(u) =>
        var v := if negative then -u else u;
        if lo <= v <= hi then Some(Asm.Byte(v % 256)) else None
  }

  function Rendered(slot: Slot, syms: Table): Option<Asm.Operand>
  {
    match slot
    case Settled(arg) => Some(arg)
    case Address(e) =>
      (match Ex.Parse(e, Flat(syms))
       case None => None
       case Some(v) => if 0 <= v <= 0xFFFF then Some(Asm.Word16(v)) else None)
    case Immediate(e) => Numeric(e, false, syms, 0, 0xFF)
    case Signed(e) => Numeric(e, false, syms, -128, 127)
    case Frame(negative, e) => Numeric(e, negative, syms, -128, 127)
  }

  /** The cells of a `.byte` or `.word`, each its own block. */
  function Cells(es: seq<Expr>, syms: Table, at: int, width: nat): Option<seq<Block>>
    requires width == 1 || width == 2
  {
    if es == [] then Some([])
    else
      match Ex.Parse(es[0], Flat(syms))
      case None => None
      case Some(v) =>
        if !(0 <= v < if width == 1 then 256 else 65536) then None
        else
          match Cells(es[1..], syms, at + width, width)
          case None => None
          case Some(rest) => Some([Block(at, if width == 1 then [v] else [v % 256, v / 256])] + rest)
  }

  /** What one item places at `at`. */
  function ItemBlocks(it: Item, syms: Table, at: int): Option<seq<Block>>
  {
    match it
    case Bytes(es) => Cells(es, syms, at, 1)
    case Words(es) => Cells(es, syms, at, 2)
    case Ascii(data) => Some([Block(at, data)])
    case Line(sel, d, s, slot) =>
      if !Matched(it) then None
      else
        (match Rendered(slot, syms)
         case None => None
         case Some(arg) =>
           match Asm.Encode(Asm.Ins(sel, d, s, arg), map[], true)
           case None => None
           case Some(code) => Some([Block(at, code)]))
    case _ => Some([])
  }

  /** One unit's emit pass: `env` is what its `.org` lines may refer to, `syms` what its content
      may. */
  function Emitted(items: seq<Item>, env: Ex.Symbols, syms: Table, pc: int): Option<seq<Block>>
  {
    if items == [] then Some([])
    else if items[0].Org? then
      match Ex.Parse(items[0].e, env)
      case None => None
      case Some(v) => Emitted(items[1..], env, syms, v)
    else
      match ItemBlocks(items[0], syms, pc)
      case None => None
      case Some(blocks) =>
        match Emitted(items[1..], env, syms, pc + Size(items[0]))
        case None => None
        case Some(rest) => Some(blocks + rest)
  }

  /** The address the emit pass has reached behind `items`. */
  function Reached(items: seq<Item>, env: Ex.Symbols, pc: int): Option<int>
  {
    if items == [] then Some(pc)
    else if items[0].Org? then
      match Ex.Parse(items[0].e, env)
      case None => None
      case Some(v) => Reached(items[1..], env, v)
    else Reached(items[1..], env, pc + Size(items[0]))
  }

  // --------------------------------------------------------------------- placing

  /** The cells placed so far, and the highest end of a block. */
  datatype Memory = Memory(out: map<int, byte>, high: int)

  const BLANK := Memory(map[], 0)

  predicate Spans(b: Block, a: int) { b.at <= a < b.at + |b.data| }

  predicate FreeCell(m: Memory, a: int) { 0 <= a < CODE_SIZE && a !in m.out }

  predicate Free(m: Memory, b: Block)
  {
    forall a :: b.at <= a < b.at + |b.data| ==> FreeCell(m, a)
  }

  function Cover(b: Block): map<int, byte>
  {
    map a | b.at <= a < b.at + |b.data| && Spans(b, a) :: b.data[a - b.at]
  }

  function Put(m: Memory, b: Block): Option<Memory>
  {
    if Free(m, b) then
      Some(Memory(m.out + Cover(b), if b.at + |b.data| > m.high then b.at + |b.data| else m.high))
    else None
  }

  function PutAll(m: Memory, blocks: seq<Block>): Option<Memory>
    decreases |blocks|
  {
    if blocks == [] then Some(m)
    else
      match Put(m, blocks[0])
      case None => None
      case Some(n) => PutAll(n, blocks[1..])
  }

  // ------------------------------------------------------------- the finished load

  datatype Loaded = Loaded(image: seq<byte>, symbols: Table, extent: int, entry: int)

  /** An entry is `main` when none is given. */
  datatype Entry = Main | At(a: int) | Named(name: string)

  function BitLength(n: nat): nat { if n == 0 then 0 else 1 + BitLength(n / 2) }

  function NextPow2(v: int): nat { if v <= 1 then 1 else Pow2(BitLength(v - 1)) }

  function Needed(extent: int): int { if extent > 1 then extent else 1 }

  /** The length asked for, or the smallest power of two that covers the content. */
  function Length(extent: int, image: Option<int>): Option<nat>
  {
    match image
    case Some(n) => if 1 <= n <= CODE_SIZE && Needed(extent) <= n then Some(n) else None
    case None => if NextPow2(Needed(extent)) <= CODE_SIZE then Some(NextPow2(Needed(extent))) else None
  }

  function EntryOf(syms: Table, entry: Entry): Option<int>
  {
    match entry
    case Main => Some(if "main" in Flat(syms) then Flat(syms)["main"] else 0)
    case At(a) => if 0 <= a <= 0xFFFF then Some(a) else None
    case Named(n) => if n in Flat(syms) && 0 <= Flat(syms)[n] <= 0xFFFF then Some(Flat(syms)[n]) else None
  }

  function Image(m: Memory, n: nat): seq<byte>
  {
    seq(n, a => if a in m.out then m.out[a] else 0)
  }

  function Finished(syms: Table, m: Memory, image: Option<int>, entry: Entry): Option<Loaded>
  {
    match Length(m.high, image)
    case None => None
    case Some(n) =>
      match EntryOf(syms, entry)
      case None => None
      case Some(a) =>
        if m.high > 0 && a >= m.high then None else Some(Loaded(Image(m, n), syms, m.high, a))
  }

  /** The whole load of one source. */
  function Assembled(items: seq<Item>, image: Option<int>, entry: Entry): Option<Loaded>
  {
    match Placed(items, map[], Placing(EMPTY, 0))
    case None => None
    case Some(p) =>
      match Emitted(items, Flat(p.tab), p.tab, 0)
      case None => None
      case Some(blocks) =>
        match PutAll(BLANK, blocks)
        case None => None
        case Some(m) => Finished(p.tab, m, image, entry)
  }

  // ---------------------------------------------------------------------- linking

  /** The symbols of the units already placed, a later unit's over an earlier one's. */
  function Available(settled: seq<Table>): Ex.Symbols
  {
    if settled == [] then map[] else Available(settled[..|settled| - 1]) + Flat(settled[|settled| - 1])
  }

  /** A name two units define is one definition: the same kind and the same value. */
  predicate Agrees(m: Table, t: Table)
  {
    && (forall n :: n in t.addr && Known(m, n) ==> n in m.addr && m.addr[n] == t.addr[n])
    && (forall n :: n in t.consts && Known(m, n) ==> n in m.consts && m.consts[n] == t.consts[n])
  }

  function Join(m: Table, t: Table): Table { Table(m.addr + t.addr, m.consts + t.consts) }

  /** Every unit's own table, each unit placed from address 0. */
  function PlaceUnits(units: seq<seq<Item>>, settled: seq<Table>, merged: Table): Option<(seq<Table>, Table)>
  {
    if units == [] then Some((settled, merged))
    else
      match Placed(units[0], Available(settled), Placing(EMPTY, 0))
      case None => None
      case Some(p) =>
        if Agrees(merged, p.tab) then PlaceUnits(units[1..], settled + [p.tab], Join(merged, p.tab)) else None
  }

  /** What unit `k`'s `.org` lines may refer to in the emit pass. */
  function Scope(tables: seq<Table>, k: nat): Ex.Symbols
    requires k < |tables|
  {
    Available(tables[..k]) + Flat(tables[k])
  }

  function EmitUnits(units: seq<seq<Item>>, tables: seq<Table>, merged: Table, k: nat): Option<seq<Block>>
    requires k <= |units| == |tables|
    decreases |units| - k
  {
    if k == |units| then Some([])
    else
      match Emitted(units[k], Scope(tables, k), merged, 0)
      case None => None
      case Some(blocks) =>
        match EmitUnits(units, tables, merged, k + 1)
        case None => None
        case Some(rest) => Some(blocks + rest)
  }

  lemma {:induction false} PlaceUnitsCounts(units: seq<seq<Item>>, settled: seq<Table>, merged: Table)
    requires PlaceUnits(units, settled, merged).Some?
    ensures |PlaceUnits(units, settled, merged).value.0| == |settled| + |units|
    ensures settled <= PlaceUnits(units, settled, merged).value.0
  {
    hide Placed, Agrees, Join, Available;
    if units != [] {
      var p := Placed(units[0], Available(settled), Placing(EMPTY, 0)).value;
      PlaceUnitsCounts(units[1..], settled + [p.tab], Join(merged, p.tab));
    }
  }

  /** The whole load of several units. */
  function Linked(units: seq<seq<Item>>, image: Option<int>, entry: Entry): Option<Loaded>
  {
    if units == [] then None
    else
      match PlaceUnits(units, [], EMPTY)
      case None => None
      case Some(r) =>
        PlaceUnitsCounts(units, [], EMPTY);
        match EmitUnits(units, r.0, r.1, 0)
        case None => None
        case Some(blocks) =>
          match PutAll(BLANK, blocks)
          case None => None
          case Some(m) => Finished(r.1, m, image, entry)
  }

  // ------------------------------------------------------- the passes meet

  predicate Includes(big: Table, small: Table)
  {
    Ex.Extends(big.addr, small.addr) && Ex.Extends(big.consts, small.consts)
  }

  /** A unit's own symbols do not contradict the ones it was placed under. */
  predicate Coherent(outer: Ex.Symbols, t: Table)
  {
    forall n :: n in outer && Known(t, n) ==> outer[n] == Flat(t)[n]
  }

  function Names(items: seq<Item>): set<string>
  {
    if items == [] then {}
    else (if items[0].Label? || items[0].Equ? then {items[0].name} else {}) + Names(items[1..])
  }

  lemma ItemGrows(it: Item, outer: Ex.Symbols, p: Placing)
    requires OneKind(p.tab) && PlaceItem(it, outer, p).Some?
    ensures var q := PlaceItem(it, outer, p).value; OneKind(q.tab) && Includes(q.tab, p.tab)
  {
  }

  lemma {:induction false} PlacedGrows(items: seq<Item>, outer: Ex.Symbols, p: Placing)
    requires OneKind(p.tab) && Placed(items, outer, p).Some?
    ensures var q := Placed(items, outer, p).value; OneKind(q.tab) && Includes(q.tab, p.tab)
  {
    hide PlaceItem;
    if items != [] {
      ItemGrows(items[0], outer, p);
      PlacedGrows(items[1..], outer, PlaceItem(items[0], outer, p).value);
    }
  }

  /** What was known when a line was placed is known, with the same value, to the emit pass. */
  lemma ScopeGrows(outer: Ex.Symbols, small: Table, big: Table, env: Ex.Symbols)
    requires OneKind(big) && Includes(big, small) && Coherent(outer, big)
    requires Ex.Extends(env, outer + Flat(big))
    ensures Ex.Extends(env, outer + Flat(small))
  {
    forall n | n in outer + Flat(small) ensures n in env && env[n] == (outer + Flat(small))[n] {
      assert n in outer + Flat(big) && (outer + Flat(big))[n] == (outer + Flat(small))[n];
    }
  }

  /** The emit pass stands where the place pass stood, at every line: each `.org` is worth the
      same in both, and a label's value is the address its line is emitted at. */
  lemma {:induction false} PassesMeet(items: seq<Item>, outer: Ex.Symbols, p: Placing, env: Ex.Symbols)
    requires OneKind(p.tab) && Placed(items, outer, p).Some?
    requires Coherent(outer, Placed(items, outer, p).value.tab)
    requires Ex.Extends(env, outer + Flat(Placed(items, outer, p).value.tab))
    ensures var q := Placed(items, outer, p).value;
      && Reached(items, env, p.pc) == Some(q.pc)
      && forall k :: 0 <= k < |items| && items[k].Label? ==>
           items[k].name in q.tab.addr && Reached(items[..k], env, p.pc) == Some(q.tab.addr[items[k].name])
  {
    hide Coherent, OneKind, Matched, Ex.Extends, Ex.Parse;
    if items != [] {
      var q := Placed(items, outer, p).value;
      var r := PlaceItem(items[0], outer, p).value;
      ItemGrows(items[0], outer, p);
      PlacedGrows(items[1..], outer, r);
      PlacedGrows(items, outer, p);
      ScopeGrows(outer, p.tab, q.tab, env);
      if items[0].Org? {
        Ex.ParseGrows(items[0].e, outer + Flat(p.tab), env);
      }
      PassesMeet(items[1..], outer, r, env);
      forall k | 0 <= k < |items| && items[k].Label?
        ensures items[k].name in q.tab.addr && Reached(items[..k], env, p.pc) == Some(q.tab.addr[items[k].name])
      {
        if k > 0 {
          assert items[k] == items[1..][k - 1] && items[..k][1..] == items[1..][..k - 1];
        } else {
          FirstLabel(items, outer, p);
        }
      }
    }
  }

  lemma FirstLabel(items: seq<Item>, outer: Ex.Symbols, p: Placing)
    requires OneKind(p.tab) && items != [] && items[0].Label? && Placed(items, outer, p).Some?
    ensures var q := Placed(items, outer, p).value;
      items[0].name in q.tab.addr && q.tab.addr[items[0].name] == p.pc
  {
    ItemGrows(items[0], outer, p);
    PlacedGrows(items[1..], outer, PlaceItem(items[0], outer, p).value);
  }

  /** Where the place pass goes on. */
  lemma ItemMoves(it: Item, outer: Ex.Symbols, p: Placing)
    requires PlaceItem(it, outer, p).Some?
    ensures var v := PlaceItem(it, outer, p).value.pc;
      if it.Org? then Ex.Parse(it.e, outer + Flat(p.tab)) == Some(v) else v == p.pc + Size(it)
  {
    hide Ex.Parse, Matched;
  }

  /** Two scopes that both know what the place pass knew emit the same blocks. */
  lemma {:induction false} EmittedAlike(items: seq<Item>, outer: Ex.Symbols, p: Placing, one: Ex.Symbols,
      two: Ex.Symbols, syms: Table)
    requires OneKind(p.tab) && Placed(items, outer, p).Some?
    requires Coherent(outer, Placed(items, outer, p).value.tab)
    requires Ex.Extends(one, outer + Flat(Placed(items, outer, p).value.tab))
    requires Ex.Extends(two, outer + Flat(Placed(items, outer, p).value.tab))
    ensures Emitted(items, one, syms, p.pc) == Emitted(items, two, syms, p.pc)
  {
    hide Coherent, OneKind, Includes, Size, Ex.Extends, Ex.Parse, ItemBlocks, PlaceItem;
    if items != [] {
      var q := Placed(items, outer, p).value;
      var r := PlaceItem(items[0], outer, p).value;
      ItemGrows(items[0], outer, p);
      ItemMoves(items[0], outer, p);
      PlacedGrows(items, outer, p);
      ScopeGrows(outer, p.tab, q.tab, one);
      ScopeGrows(outer, p.tab, q.tab, two);
      if items[0].Org? {
        Ex.ParseGrows(items[0].e, outer + Flat(p.tab), one);
        Ex.ParseGrows(items[0].e, outer + Flat(p.tab), two);
      }
      EmittedAlike(items[1..], outer, r, one, two, syms);
    }
  }

  // ---------------------------------------------------------- one source after another

  function Both(x: Option<seq<Block>>, y: Option<seq<Block>>): Option<seq<Block>>
  {
    if x.Some? && y.Some? then Some(x.value + y.value) else None
  }

  lemma {:induction false} PlacedConcat(a: seq<Item>, b: seq<Item>, outer: Ex.Symbols, p: Placing)
    ensures Placed(a + b, outer, p)
            == match Placed(a, outer, p) case None => None case Some(q) => Placed(b, outer, q)
  {
    hide PlaceItem;
    if a == [] {
      assert a + b == b;
    } else {
      assert (a + b)[0] == a[0] && (a + b)[1..] == a[1..] + b;
      match PlaceItem(a[0], outer, p) {
        case None =>
        case Some(q) => PlacedConcat(a[1..], b, outer, q);
      }
    }
  }

  lemma {:induction false} EmittedConcat(a: seq<Item>, b: seq<Item>, env: Ex.Symbols, syms: Table, pc: int)
    ensures Emitted(a, env, syms, pc).Some? ==> Reached(a, env, pc).Some?
    ensures Emitted(a + b, env, syms, pc)
            == if Emitted(a, env, syms, pc).None? then None
               else Both(Emitted(a, env, syms, pc), Emitted(b, env, syms, Reached(a, env, pc).value))
  {
    hide ItemBlocks, Ex.Parse;
    if a == [] {
      assert a + b == b;
      var y := Emitted(b, env, syms, pc);
      assert y.Some? ==> [] + y.value == y.value;
    } else {
      assert (a + b)[0] == a[0] && (a + b)[1..] == a[1..] + b;
      if a[0].Org? {
        var v := Ex.Parse(a[0].e, env);
        if v.Some? {
          EmittedConcat(a[1..], b, env, syms, v.value);
        }
      } else {
        EmittedConcat(a[1..], b, env, syms, pc + Size(a[0]));
        var x, y := ItemBlocks(a[0], syms, pc), Emitted(a[1..], env, syms, pc + Size(a[0]));
        if x.Some? && y.Some? {
          var z := Emitted(b, env, syms, Reached(a, env, pc).value);
          assert z.Some? ==> x.value + (y.value + z.value) == x.value + y.value + z.value;
        }
      }
    }
  }

  // ----------------------------------------------------------- what stands in memory

  ghost predicate Inside(b: Block) { forall a :: Spans(b, a) ==> 0 <= a < CODE_SIZE }

  ghost predicate Apart(b: Block, c: Block) { forall a :: !(Spans(b, a) && Spans(c, a)) }

  ghost predicate Clear(m: Memory, b: Block) { forall a :: Spans(b, a) ==> a !in m.out }

  /** No block reaches outside CODE, and no two share an address. */
  ghost predicate Placeable(blocks: seq<Block>)
  {
    && (forall i :: 0 <= i < |blocks| ==> Inside(blocks[i]))
    && (forall i, j :: 0 <= i < j < |blocks| ==> Apart(blocks[i], blocks[j]))
  }

  lemma FreeIsClear(m: Memory, b: Block)
    ensures Free(m, b) <==> Inside(b) && Clear(m, b)
  {
    if Inside(b) && Clear(m, b) {
      forall a | b.at <= a < b.at + |b.data| ensures FreeCell(m, a) {
        assert Spans(b, a);
      }
    }
    if Free(m, b) {
      forall a | Spans(b, a) ensures 0 <= a < CODE_SIZE && a !in m.out {
        assert FreeCell(m, a);
      }
    }
  }

  lemma ClearAfter(m: Memory, b: Block, c: Block)
    requires Put(m, b).Some?
    ensures Clear(Put(m, b).value, c) <==> Clear(m, c) && Apart(b, c)
  {
    var n := Put(m, b).value;
    forall a ensures a in n.out <==> a in m.out || Spans(b, a) {
    }
  }

  /** Placing succeeds exactly when the blocks stay inside CODE, off each other and off what
      was placed before. */
  lemma {:induction false} PutAllIff(m: Memory, blocks: seq<Block>)
    ensures PutAll(m, blocks).Some?
            <==> Placeable(blocks) && forall i :: 0 <= i < |blocks| ==> Clear(m, blocks[i])
    decreases |blocks|
  {
    hide Inside, Apart, Clear, Put;
    if blocks != [] {
      var b, rest := blocks[0], blocks[1..];
      PutIff(m, b);
      assert forall i :: 0 <= i < |rest| ==> rest[i] == blocks[i + 1];
      assert forall i :: 1 <= i < |blocks| ==> blocks[i] == rest[i - 1];
      if Put(m, b).Some? {
        var n := Put(m, b).value;
        PutAllIff(n, rest);
        forall i | 0 <= i < |rest| ensures Clear(n, rest[i]) <==> Clear(m, rest[i]) && Apart(b, rest[i]) {
          ClearAfter(m, b, rest[i]);
        }
      }
    }
  }

  lemma PutIff(m: Memory, b: Block)
    ensures Put(m, b).Some? <==> Inside(b) && Clear(m, b)
  {
    hide Free;
    FreeIsClear(m, b);
  }

  /** The blocks stand in memory, over what was there. */
  ghost predicate Standing(m: Memory, blocks: seq<Block>, n: Memory)
  {
    && (forall a :: a in m.out ==> a in n.out && n.out[a] == m.out[a])
    && (forall i, a :: 0 <= i < |blocks| && Spans(blocks[i], a) ==>
          a in n.out && n.out[a] == blocks[i].data[a - blocks[i].at])
    && (forall a :: a in n.out ==> a in m.out || exists i :: 0 <= i < |blocks| && Spans(blocks[i], a))
  }

  /** The high-water mark is the highest end of a block, or the old mark. */
  ghost predicate Reaches(m: Memory, blocks: seq<Block>, n: Memory)
  {
    && m.high <= n.high
    && (forall i :: 0 <= i < |blocks| ==> blocks[i].at + |blocks[i].data| <= n.high)
    && (n.high == m.high || exists i :: 0 <= i < |blocks| && blocks[i].at + |blocks[i].data| == n.high)
  }

  lemma PutStands(m: Memory, b: Block)
    requires Put(m, b).Some?
    ensures Standing(m, [b], Put(m, b).value)
  {
    var n := Put(m, b).value;
    forall a | Spans(b, a) ensures a !in m.out {
      assert FreeCell(m, a);
    }
    forall a | a in n.out ensures a in m.out || exists i :: 0 <= i < |[b]| && Spans([b][i], a) {
      if a !in m.out {
        assert Spans([b][0], a);
      }
    }
  }

  lemma StandingJoins(m: Memory, b: Block, mid: Memory, rest: seq<Block>, n: Memory)
    requires Standing(m, [b], mid) && Standing(mid, rest, n)
    ensures Standing(m, [b] + rest, n)
  {
    var blocks := [b] + rest;
    forall i, a | 0 <= i < |blocks| && Spans(blocks[i], a)
      ensures a in n.out && n.out[a] == blocks[i].data[a - blocks[i].at]
    {
      if i == 0 {
        assert Spans([b][0], a) && a in mid.out;
      } else {
        assert Spans(rest[i - 1], a);
      }
    }
    forall a | a in n.out ensures a in m.out || exists i :: 0 <= i < |blocks| && Spans(blocks[i], a) {
      if a in mid.out {
        if a !in m.out {
          assert Spans(blocks[0], a);
        }
      } else {
        var i :| 0 <= i < |rest| && Spans(rest[i], a);
        assert Spans(blocks[i + 1], a);
      }
    }
  }

  lemma {:induction false} PutAllStands(m: Memory, blocks: seq<Block>)
    requires PutAll(m, blocks).Some?
    ensures Standing(m, blocks, PutAll(m, blocks).value)
    decreases |blocks|
  {
    hide Put, Standing;
    if blocks == [] {
      NothingStands(m);
    } else {
      var mid := Put(m, blocks[0]).value;
      PutStands(m, blocks[0]);
      PutAllStands(mid, blocks[1..]);
      StandingJoins(m, blocks[0], mid, blocks[1..], PutAll(m, blocks).value);
      assert [blocks[0]] + blocks[1..] == blocks;
    }
  }

  lemma NothingStands(m: Memory)
    ensures Standing(m, [], m)
  {
  }

  lemma {:induction false} PutAllReaches(m: Memory, blocks: seq<Block>)
    requires PutAll(m, blocks).Some?
    ensures Reaches(m, blocks, PutAll(m, blocks).value)
    decreases |blocks|
  {
    hide Free, Cover;
    if blocks != [] {
      var mid, n, rest := Put(m, blocks[0]).value, PutAll(m, blocks).value, blocks[1..];
      PutAllReaches(mid, rest);
      if n.high != mid.high {
        var i :| 0 <= i < |rest| && rest[i].at + |rest[i].data| == n.high;
        assert blocks[i + 1] == rest[i];
      }
      assert forall i :: 1 <= i < |blocks| ==> blocks[i] == rest[i - 1];
    }
  }

  /** A finished image holds every placed block where it was placed and zero everywhere else;
      it is as long as was asked for or, by default, the least power of two that covers the
      content, and the content reaches to the end of its last block. */
  ghost predicate Holds(l: Loaded, blocks: seq<Block>)
  {
    && l.extent <= |l.image| <= CODE_SIZE
    && (forall i :: 0 <= i < |blocks| ==> Within(l.image, blocks[i]))
    && (forall a :: 0 <= a < |l.image| && (forall i :: 0 <= i < |blocks| ==> !Spans(blocks[i], a)) ==> l.image[a] == 0)
    && (forall i :: 0 <= i < |blocks| ==> blocks[i].at + |blocks[i].data| <= l.extent)
    && (l.extent == 0 || exists i :: 0 <= i < |blocks| && blocks[i].at + |blocks[i].data| == l.extent)
  }

  ghost predicate Within(image: seq<byte>, b: Block)
  {
    forall a :: Spans(b, a) ==> 0 <= a < |image| && image[a] == b.data[a - b.at]
  }

  lemma ImageHolds(blocks: seq<Block>, syms: Table, image: Option<int>, entry: Entry)
    requires PutAll(BLANK, blocks).Some? && Finished(syms, PutAll(BLANK, blocks).value, image, entry).Some?
    ensures var l := Finished(syms, PutAll(BLANK, blocks).value, image, entry).value;
      && Holds(l, blocks) && Placeable(blocks) && l.symbols == syms
      && (image.Some? ==> |l.image| == image.value)
      && (image.None? ==> |l.image| == NextPow2(Needed(l.extent)))
      && (l.extent > 0 ==> l.entry < l.extent)
  {
    hide Put, NextPow2, EntryOf, Placeable, Clear;
    var m := PutAll(BLANK, blocks).value;
    var l := Finished(syms, m, image, entry).value;
    PutAllIff(BLANK, blocks);
    PutAllStands(BLANK, blocks);
    PutAllReaches(BLANK, blocks);
    PowCovers(Needed(m.high));
    BlocksWithin(blocks, m, l.image) by { hide Reaches; PlaceableInside(blocks); }
  }

  lemma PlaceableInside(blocks: seq<Block>)
    requires Placeable(blocks)
    ensures forall i :: 0 <= i < |blocks| ==> Inside(blocks[i])
  {
  }

  lemma BlocksWithin(blocks: seq<Block>, m: Memory, image: seq<byte>)
    requires Standing(BLANK, blocks, m) && Reaches(BLANK, blocks, m) && m.high <= |image|
    requires image == Image(m, |image|) && forall i :: 0 <= i < |blocks| ==> Inside(blocks[i])
    ensures forall i :: 0 <= i < |blocks| ==> Within(image, blocks[i])
    ensures forall a :: 0 <= a < |image| && (forall i :: 0 <= i < |blocks| ==> !Spans(blocks[i], a)) ==> image[a] == 0
  {
    forall i, a | 0 <= i < |blocks| && Spans(blocks[i], a)
      ensures 0 <= a < |image| && image[a] == blocks[i].data[a - blocks[i].at]
    {
      assert blocks[i].at + |blocks[i].data| <= m.high;
    }
  }

  lemma {:induction false} BitLengthBounds(n: nat)
    ensures n < Pow2(BitLength(n)) && (n > 0 ==> Pow2(BitLength(n)) <= 2 * n)
  {
    if n > 0 {
      BitLengthBounds(n / 2);
    }
  }

  /** The default length covers the content, and half of it would not. */
  lemma PowCovers(v: int)
    ensures v <= NextPow2(v) && (v > 1 ==> NextPow2(v) < 2 * v)
    ensures exists k: nat :: NextPow2(v) == Pow2(k)
  {
    if v <= 1 {
      assert Pow2(0) == 1;
    } else {
      BitLengthBounds(v - 1);
    }
  }

  // -------------------------------------------------------------- the linked units

  /** Unit `u` was placed under the units before it, and its symbols are the link's. */
  ghost predicate UnitPlaced(items: seq<Item>, outer: Ex.Symbols, tab: Table, merged: Table)
  {
    && Placed(items, outer, Placing(EMPTY, 0)).Some?
    && Placed(items, outer, Placing(EMPTY, 0)).value.tab == tab
    && OneKind(tab) && Coherent(outer, tab) && Includes(merged, tab)
  }

  ghost predicate UnitsPlaced(units: seq<seq<Item>>, tables: seq<Table>, merged: Table)
  {
    && |units| <= |tables| && OneKind(merged)
    && forall u :: 0 <= u < |units| ==>
         UnitPlaced(units[u], Available(tables[..|tables| - |units| + u]), tables[|tables| - |units| + u], merged)
  }

  lemma Joined(m: Table, t: Table)
    requires OneKind(m) && OneKind(t) && Agrees(m, t)
    ensures OneKind(Join(m, t)) && Includes(Join(m, t), m) && Includes(Join(m, t), t)
    ensures Flat(Join(m, t)) == Flat(m) + Flat(t) && Coherent(Flat(m), t)
  {
    forall n ensures n in Flat(Join(m, t)) <==> n in Flat(m) + Flat(t)
      ensures n in Flat(Join(m, t)) ==> Flat(Join(m, t))[n] == (Flat(m) + Flat(t))[n]
    {
    }
  }

  lemma IncludesThrough(a: Table, b: Table, c: Table)
    requires Includes(a, b) && Includes(b, c)
    ensures Includes(a, c)
  {
  }

  lemma AvailableSnoc(settled: seq<Table>, t: Table)
    ensures Available(settled + [t]) == Available(settled) + Flat(t)
  {
    var s := settled + [t];
    assert s[..|s| - 1] == settled;
  }

  /** What a finished place phase has established about every unit. */
  lemma {:induction false} PlaceUnitsFacts(units: seq<seq<Item>>, settled: seq<Table>, merged: Table)
    requires PlaceUnits(units, settled, merged).Some?
    requires OneKind(merged) && Flat(merged) == Available(settled)
    ensures var (tables, done) := PlaceUnits(units, settled, merged).value;
      && |tables| == |settled| + |units| && settled <= tables
      && Flat(done) == Available(tables) && Includes(done, merged) && UnitsPlaced(units, tables, done)
  {
    hide Placed, Agrees, Join, Available, OneKind, Includes, Coherent;
    var (tables, done) := PlaceUnits(units, settled, merged).value;
    PlaceUnitsCounts(units, settled, merged);
    if units == [] {
      assert tables == settled;
      IncludesItself(merged);
    } else {
      var outer := Available(settled);
      var p := Placed(units[0], outer, Placing(EMPTY, 0)).value;
      EmptyOneKind();
      PlacedGrows(units[0], outer, Placing(EMPTY, 0));
      Joined(merged, p.tab);
      AvailableSnoc(settled, p.tab);
      var more, next, rest := settled + [p.tab], Join(merged, p.tab), units[1..];
      PlaceUnitsFacts(rest, more, next);
      IncludesThrough(done, next, merged);
      IncludesThrough(done, next, p.tab);
      assert tables[..|settled|] == settled && tables[|settled|] == p.tab by { assert more <= tables; }
      forall u | 0 <= u < |units|
        ensures UnitPlaced(units[u], Available(tables[..|settled| + u]), tables[|settled| + u], done)
      {
        if u > 0 {
          assert units[u] == rest[u - 1];
        }
      }
    }
  }

  lemma IncludesItself(t: Table)
    ensures Includes(t, t)
  {
  }

  lemma EmptyOneKind()
    ensures OneKind(EMPTY) && Flat(EMPTY) == map[] && Flat(EMPTY) == Available([])
  {
  }

  /** The symbols a link settles: every unit's table, and all of them merged. */
  function Tables(units: seq<seq<Item>>): (r: (seq<Table>, Table))
    requires PlaceUnits(units, [], EMPTY).Some?
  {
    PlaceUnits(units, [], EMPTY).value
  }

  lemma {:induction false} UnitEmits(units: seq<seq<Item>>, tables: seq<Table>, merged: Table, j: nat, u: nat)
    requires j <= u < |units| == |tables| && EmitUnits(units, tables, merged, j).Some?
    ensures var some := Emitted(units[u], Scope(tables, u), merged, 0);
      some.Some? && forall b :: b in some.value ==> b in EmitUnits(units, tables, merged, j).value
    decreases u - j
  {
    hide Emitted, Scope;
    if j < u {
      UnitEmits(units, tables, merged, j + 1, u);
    }
  }

  /** In a finished link, whatever the units, their order and their `.org` lines: each line
      stands where its unit's place pass put it. A label's value is the address the next byte
      of its unit goes to, the merged symbols carry it, and what the line places is in the
      image from that address on. */
  lemma LinkStands(units: seq<seq<Item>>, image: Option<int>, entry: Entry, u: nat, k: nat)
    requires Linked(units, image, entry).Some? && u < |units| && k < |units[u]|
    ensures PlaceUnits(units, [], EMPTY).Some? && |Tables(units).0| == |units|
    ensures var l := Linked(units, image, entry).value;
      var pc := Reached(units[u][..k], Scope(Tables(units).0, u), 0);
      && pc.Some?
      && (units[u][k].Label? ==>
            units[u][k].name in l.symbols.addr && l.symbols.addr[units[u][k].name] == pc.value)
      && (!units[u][k].Org? ==>
            && ItemBlocks(units[u][k], l.symbols, pc.value).Some?
            && forall b :: b in ItemBlocks(units[u][k], l.symbols, pc.value).value ==> Within(l.image, b))
  {
    hide Placed, Emitted, Reached, ItemBlocks, PutAll, Finished, Within, PlaceUnits, EmitUnits, Available,
         Coherent, OneKind, Includes, Placeable;
    EmptyOneKind();
    PlaceUnitsFacts(units, [], EMPTY);
    var (tables, merged) := Tables(units);
    var items, env := units[u], Scope(tables, u);
    assert UnitPlaced(items, Available(tables[..u]), tables[u], merged);
    PassesMeet(items, Available(tables[..u]), Placing(EMPTY, 0), env) by {
      ExtendsItself(env);
      EmptyOneKind();
    }
    UnitEmits(units, tables, merged, 0, u);
    var blocks := EmitUnits(units, tables, merged, 0).value;
    ImageHolds(blocks, merged, image, entry);
    EmittedItem(items, k, env, merged, 0);
    var l := Linked(units, image, entry).value;
    if !items[k].Org? {
      forall b | b in ItemBlocks(items[k], merged, Reached(items[..k], env, 0).value).value
        ensures Within(l.image, b)
      {
        var i :| 0 <= i < |blocks| && blocks[i] == b;
      }
    }
    if items[k].Label? {
      IncludedLabel(merged, tables[u], items[k].name);
    }
  }

  lemma IncludedLabel(merged: Table, t: Table, name: string)
    requires Includes(merged, t) && name in t.addr
    ensures name in merged.addr && merged.addr[name] == t.addr[name]
  {
  }

  lemma ExtendsItself(env: Ex.Symbols)
    ensures Ex.Extends(env, env)
  {
  }

  /** What item `k` places is among what its unit places. */
  lemma {:induction false} EmittedItem(items: seq<Item>, k: nat, env: Ex.Symbols, syms: Table, pc: int)
    requires k < |items| && Emitted(items, env, syms, pc).Some?
    ensures Reached(items[..k], env, pc).Some?
    ensures !items[k].Org? ==>
      var some := ItemBlocks(items[k], syms, Reached(items[..k], env, pc).value);
      some.Some? && forall b :: b in some.value ==> b in Emitted(items, env, syms, pc).value
  {
    hide ItemBlocks, Ex.Parse;
    if k > 0 {
      assert items[..k][1..] == items[1..][..k - 1];
      var next := if items[0].Org? then Ex.Parse(items[0].e, env).value else pc + Size(items[0]);
      EmittedItem(items[1..], k - 1, env, syms, next);
    }
  }

  /** A finished link is its blocks: every block of every unit stands in the image where the emit
      pass put it, no two share a cell, and everything else is zero. */
  lemma LinkHolds(units: seq<seq<Item>>, image: Option<int>, entry: Entry)
    requires Linked(units, image, entry).Some?
    ensures PlaceUnits(units, [], EMPTY).Some? && |Tables(units).0| == |units|
    ensures var l, some := Linked(units, image, entry).value, EmitUnits(units, Tables(units).0, Tables(units).1, 0);
      && some.Some? && Holds(l, some.value) && Placeable(some.value) && l.symbols == Tables(units).1
      && |l.image| == (match image case Some(n) => n case None => NextPow2(Needed(l.extent)))
      && (l.extent > 0 ==> l.entry < l.extent)
  {
    hide PlaceUnits, EmitUnits, PutAll, Finished, Holds, Placeable, NextPow2, Needed;
    PlaceUnitsCounts(units, [], EMPTY);
    var (tables, merged) := Tables(units);
    ImageHolds(EmitUnits(units, tables, merged, 0).value, merged, image, entry);
  }

  /** The same of a source assembled on its own. */
  lemma AssemblyHolds(items: seq<Item>, image: Option<int>, entry: Entry)
    requires Assembled(items, image, entry).Some?
    ensures Placed(items, map[], Placing(EMPTY, 0)).Some?
    ensures var l, tab := Assembled(items, image, entry).value, Placed(items, map[], Placing(EMPTY, 0)).value.tab;
      var some := Emitted(items, Flat(tab), tab, 0);
      && some.Some? && Holds(l, some.value) && Placeable(some.value) && l.symbols == tab
      && |l.image| == (match image case Some(n) => n case None => NextPow2(Needed(l.extent)))
      && (l.extent > 0 ==> l.entry < l.extent)
  {
    hide Placed, Emitted, PutAll, Finished, Holds, Placeable, NextPow2, Needed;
    var p := Placed(items, map[], Placing(EMPTY, 0)).value;
    ImageHolds(Emitted(items, Flat(p.tab), p.tab, 0).value, p.tab, image, entry);
  }

  // ------------------------------------------------------ linking is placing by hand

  function Concat(units: seq<seq<Item>>): seq<Item>
  {
    if units == [] then [] else units[0] + Concat(units[1..])
  }

  /** No label or content precedes the unit's first `.org`. */
  predicate Anchored(items: seq<Item>)
  {
    items != [] ==> items[0].Org? || (items[0].Equ? && Anchored(items[1..]))
  }

  /** Where an anchored unit starts does not matter. */
  lemma {:induction false} AnchoredPlaces(items: seq<Item>, outer: Ex.Symbols, tab: Table, a: int, b: int)
    requires Anchored(items)
    ensures var x, y := Placed(items, outer, Placing(tab, a)), Placed(items, outer, Placing(tab, b));
      x.Some? == y.Some? && (x.Some? ==> x.value.tab == y.value.tab)
  {
    if items != [] && items[0].Equ? {
      var p := PlaceItem(items[0], outer, Placing(tab, a));
      if p.Some? {
        AnchoredPlaces(items[1..], outer, p.value.tab, a, b);
      }
    }
  }

  lemma {:induction false} AnchoredEmits(items: seq<Item>, env: Ex.Symbols, syms: Table, a: int, b: int)
    requires Anchored(items)
    ensures Emitted(items, env, syms, a) == Emitted(items, env, syms, b)
  {
    if items != [] && items[0].Equ? {
      AnchoredEmits(items[1..], env, syms, a, b);
    }
  }

  predicate Strange(t: Table, names: set<string>)
  {
    forall n :: n in names ==> !Known(t, n)
  }

  ghost predicate Strangers(base: Table, t: Table)
  {
    forall n :: Known(base, n) ==> !Known(t, n)
  }

  function Raised(base: Table, q: Option<Placing>): Option<Placing>
  {
    match q case None => None case Some(p) => Some(Placing(Join(base, p.tab), p.pc))
  }

  lemma JoinedFlat(base: Table, t: Table)
    requires Strangers(base, t)
    ensures Flat(Join(base, t)) == Flat(base) + Flat(t)
  {
    var x, y := Flat(Join(base, t)), Flat(base) + Flat(t);
    forall n ensures n in x <==> n in y
      ensures n in x ==> x[n] == y[n]
    {
      assert Known(base, n) ==> !Known(t, n);
    }
  }

  lemma JoinedScope(outer: Ex.Symbols, base: Table, t: Table)
    requires Strangers(base, t)
    ensures outer + Flat(Join(base, t)) == outer + Flat(base) + Flat(t)
  {
    hide Flat, Join, Strangers;
    JoinedFlat(base, t);
    assert outer + (Flat(base) + Flat(t)) == outer + Flat(base) + Flat(t);
  }

  lemma ItemOverBase(it: Item, outer: Ex.Symbols, base: Table, p: Placing)
    requires Strangers(base, p.tab) && ((it.Label? || it.Equ?) ==> !Known(base, it.name))
    ensures var q := PlaceItem(it, outer + Flat(base), p);
      && PlaceItem(it, outer, Placing(Join(base, p.tab), p.pc)) == Raised(base, q)
      && (q.Some? ==> Strangers(base, q.value.tab))
  {
    hide Matched, Ex.Parse, Size, Flat;
    JoinedScope(outer, base, p.tab);
    if it.Label? {
      assert base.addr + p.tab.addr[it.name := p.pc] == (base.addr + p.tab.addr)[it.name := p.pc];
    } else if it.Equ? {
      var v := Ex.Parse(it.e, outer + Flat(base) + Flat(p.tab));
      if v.Some? {
        assert base.consts + p.tab.consts[it.name := v.value] == (base.consts + p.tab.consts)[it.name := v.value];
      }
    }
  }

  /** Placing over symbols already in the table is placing under them. */
  lemma {:induction false} PlacedOverBase(items: seq<Item>, outer: Ex.Symbols, base: Table, p: Placing)
    requires Strange(base, Names(items)) && Strangers(base, p.tab)
    ensures Placed(items, outer, Placing(Join(base, p.tab), p.pc))
            == Raised(base, Placed(items, outer + Flat(base), p))
    ensures Placed(items, outer + Flat(base), p).Some? ==>
      Strangers(base, Placed(items, outer + Flat(base), p).value.tab)
  {
    hide PlaceItem, Join, Strangers, Known;
    if items != [] {
      ItemOverBase(items[0], outer, base, p);
      match PlaceItem(items[0], outer + Flat(base), p) {
        case None =>
        case Some(q) => PlacedOverBase(items[1..], outer, base, q);
      }
    }
  }

  /** A unit defines the names it spells, and no others. */
  lemma {:induction false} PlacedNames(items: seq<Item>, outer: Ex.Symbols, p: Placing)
    requires Placed(items, outer, p).Some?
    ensures forall n :: Known(Placed(items, outer, p).value.tab, n) ==> Known(p.tab, n) || n in Names(items)
  {
    hide Matched, Ex.Parse, Size;
    if items != [] {
      PlacedNames(items[1..], outer, PlaceItem(items[0], outer, p).value);
    }
  }

  /** The names of the units are pairwise disjoint. */
  predicate Separate(units: seq<seq<Item>>)
  {
    forall i, j :: 0 <= i < j < |units| ==> Names(units[i]) !! Names(units[j])
  }

  /** Every unit starts at 0 behind the units in front of it, or is anchored. */
  predicate Steady(units: seq<seq<Item>>, p: Placing)
  {
    units != [] ==>
      && (p.pc == 0 || Anchored(units[0]))
      && match Placed(units[0], map[], p) case None => true case Some(q) => Steady(units[1..], q)
  }

  ghost predicate Unused(merged: Table, units: seq<seq<Item>>)
  {
    forall i :: 0 <= i < |units| ==> Strange(merged, Names(units[i]))
  }

  lemma JoinEmpty(t: Table)
    ensures Join(t, EMPTY) == t && Strangers(t, EMPTY) && map[] + Flat(t) == Flat(t)
  {
  }

  lemma StrangersAgree(m: Table, t: Table)
    requires Strangers(m, t)
    ensures Agrees(m, t)
  {
  }

  lemma UnusedAfter(merged: Table, tab: Table, units: seq<seq<Item>>)
    requires units != [] && Separate(units) && Unused(merged, units)
    requires forall n :: Known(tab, n) ==> n in Names(units[0])
    ensures Unused(Join(merged, tab), units[1..]) && Separate(units[1..])
  {
    forall i | 0 <= i < |units[1..]| ensures Strange(Join(merged, tab), Names(units[1..][i])) {
      assert units[1..][i] == units[i + 1] && Names(units[0]) !! Names(units[i + 1]);
      assert Strange(merged, Names(units[i + 1]));
    }
  }

  lemma {:induction false} PlacesAlike(units: seq<seq<Item>>, settled: seq<Table>, merged: Table, pc: int)
    requires Steady(units, Placing(merged, pc)) && Separate(units) && Unused(merged, units)
    requires OneKind(merged) && Flat(merged) == Available(settled)
    ensures var x, y := PlaceUnits(units, settled, merged), Placed(Concat(units), map[], Placing(merged, pc));
      x.Some? == y.Some? && (x.Some? ==> x.value.1 == y.value.tab)
    decreases |units|
  {
    hide Placed, Join, Agrees, OneKind, Names, Anchored, Available, Unused, Strangers, Strange, Known;
    if units == [] {
      NothingPlaced(Placing(merged, pc));
    } else {
      var first, rest := units[0], units[1..];
      FirstStrange(merged, units);
      PlacedConcat(first, Concat(rest), map[], Placing(merged, pc));
      JoinEmpty(merged);
      PlacedOverBase(first, map[], merged, Placing(EMPTY, pc));
      if pc != 0 {
        AnchoredPlaces(first, Flat(merged), EMPTY, pc, 0);
      }
      var here := Placed(first, Flat(merged), Placing(EMPTY, 0));
      var there := Placed(first, map[], Placing(merged, pc));
      assert there.Some? == here.Some?;
      if here.Some? {
        var tab := here.value.tab;
        assert there.value.tab == Join(merged, tab);
        StrangersAgree(merged, tab);
        EmptyOneKind();
        PlacedGrows(first, Flat(merged), Placing(EMPTY, 0));
        OwnNames(first, Flat(merged));
        UnusedAfter(merged, tab, units);
        Joined(merged, tab);
        AvailableSnoc(settled, tab);
        PlacesAlike(rest, settled + [tab], Join(merged, tab), there.value.pc);
      }
    }
  }

  lemma NothingPlaced(p: Placing)
    ensures Placed([], map[], p) == Some(p)
  {
  }

  lemma OwnNames(items: seq<Item>, outer: Ex.Symbols)
    requires Placed(items, outer, Placing(EMPTY, 0)).Some?
    ensures forall n :: Known(Placed(items, outer, Placing(EMPTY, 0)).value.tab, n) ==> n in Names(items)
  {
    PlacedNames(items, outer, Placing(EMPTY, 0));
  }

  lemma FirstStrange(merged: Table, units: seq<seq<Item>>)
    requires units != [] && Unused(merged, units)
    ensures Strange(merged, Names(units[0]))
  {
  }

  ghost predicate UnitReady(units: seq<seq<Item>>, tables: seq<Table>, merged: Table, u: nat)
    requires u < |units| == |tables|
  {
    && UnitPlaced(units[u], Available(tables[..u]), tables[u], merged)
    && Ex.Extends(Flat(merged), Available(tables[..u]) + Flat(tables[u]))
  }

  /** The emit passes of the units, one after another, are the emit pass of the whole. */
  lemma {:induction false} EmitsAlike(units: seq<seq<Item>>, tables: seq<Table>, merged: Table, k: nat, p: Placing)
    requires k <= |units| == |tables| && Steady(units[k..], p) && OneKind(p.tab)
    requires Placed(Concat(units[k..]), map[], p).Some? && Placed(Concat(units[k..]), map[], p).value.tab == merged
    requires forall u :: k <= u < |units| ==> UnitReady(units, tables, merged, u)
    ensures EmitUnits(units, tables, merged, k) == Emitted(Concat(units[k..]), Flat(merged), merged, p.pc)
    decreases |units| - k
  {
    hide Placed, Emitted, Reached, Available, Coherent, OneKind, Includes, Flat, Ex.Extends, Anchored;
    var rest := units[k..];
    if k == |units| {
      NothingEmitted(Flat(merged), merged, p.pc);
    } else {
      var first, more := rest[0], units[k + 1..];
      assert UnitReady(units, tables, merged, k);
      assert rest[1..] == more && first == units[k];
      PlacedConcat(first, Concat(more), map[], p);
      var q := Placed(first, map[], p).value;
      EmittedConcat(first, Concat(more), Flat(merged), merged, p.pc);
      if p.pc != 0 {
        AnchoredEmits(first, Flat(merged), merged, p.pc, 0);
      }
      EmptyOneKind();
      ExtendsItself(Scope(tables, k));
      EmittedAlike(first, Available(tables[..k]), Placing(EMPTY, 0), Scope(tables, k), Flat(merged), merged);
      StartsMeet(first, Concat(more), p, merged);
      EmitsAlike(units, tables, merged, k + 1, q);
    }
  }

  /** The emit pass of the whole reaches the address the place pass had behind its first part. */
  lemma StartsMeet(first: seq<Item>, more: seq<Item>, p: Placing, merged: Table)
    requires OneKind(p.tab) && Placed(first, map[], p).Some?
    requires var q := Placed(first, map[], p).value;
      Placed(more, map[], q).Some? && Placed(more, map[], q).value.tab == merged
    ensures var q := Placed(first, map[], p).value; OneKind(q.tab) && Reached(first, Flat(merged), p.pc) == Some(q.pc)
  {
    hide Placed, Reached;
    var q := Placed(first, map[], p).value;
    PlacedGrows(first, map[], p);
    PlacedGrows(more, map[], q);
    assert map[] + Flat(q.tab) == Flat(q.tab);
    PassesMeet(first, map[], p, Flat(merged));
  }

  lemma NothingEmitted(env: Ex.Symbols, syms: Table, pc: int)
    ensures Emitted([], env, syms, pc) == Some([])
  {
  }

  /** What a unit could refer to is still there, and worth the same, in the merged table. */
  lemma {:induction false} ScopeInMerged(tables: seq<Table>, u: nat)
    requires u < |tables|
    requires forall i :: 0 <= i < |tables| ==> OneKind(tables[i]) && Coherent(Available(tables[..i]), tables[i])
    ensures Ex.Extends(Available(tables), Available(tables[..u]) + Flat(tables[u]))
    decreases |tables|
  {
    hide OneKind, Coherent, Flat, Ex.Extends;
    var last := |tables| - 1;
    if u < last {
      var shorter := tables[..last];
      assert forall i :: 0 <= i < last ==> shorter[i] == tables[i] && shorter[..i] == tables[..i];
      ScopeInMerged(shorter, u);
      ExtendsFlat(Available(shorter), tables[last], Available(tables[..u]) + Flat(tables[u]));
    } else {
      ExtendsItself(Available(tables));
    }
  }

  /** A coherent table on top hides nothing. */
  lemma ExtendsFlat(outer: Ex.Symbols, t: Table, small: Ex.Symbols)
    requires Coherent(outer, t) && Ex.Extends(outer, small)
    ensures Ex.Extends(outer + Flat(t), small)
  {
    FlatKnown(t);
    hide Flat;
    forall n | n in small ensures n in outer + Flat(t) && (outer + Flat(t))[n] == small[n] {
      assert n in outer;
    }
  }

  lemma FlatKnown(t: Table)
    ensures forall n :: n in Flat(t) <==> Known(t, n)
  {
  }

  /** Linking is placing by hand: units whose names are disjoint, each of which starts at 0 or puts
      nothing in front of its first `.org`, load exactly as their concatenation does - the same
      image, symbols, extent and entry, and a refusal where that is refused. */
  lemma LinkIsAssembly(units: seq<seq<Item>>, image: Option<int>, entry: Entry)
    requires units != [] && Separate(units) && Steady(units, Placing(EMPTY, 0))
    ensures Linked(units, image, entry) == Assembled(Concat(units), image, entry)
  {
    hide PlaceUnits, Placed, Emitted, EmitUnits, PutAll, Finished, Coherent, OneKind, Includes, Available,
         Steady, Separate, Ex.Extends;
    EmptyOneKind();
    NothingUsed(units);
    PlacesAlike(units, [], EMPTY, 0);
    var x := PlaceUnits(units, [], EMPTY);
    if x.Some? {
      var (tables, merged) := x.value;
      PlaceUnitsFacts(units, [], EMPTY);
      forall u | 0 <= u < |units| ensures UnitPlaced(units[u], Available(tables[..u]), tables[u], merged) {
      }
      forall u | 0 <= u < |units| ensures UnitReady(units, tables, merged, u) {
        ScopeInMerged(tables, u);
      }
      assert units[0..] == units;
      EmitsAlike(units, tables, merged, 0, Placing(EMPTY, 0));
    }
  }

  lemma {:induction false} DefinedOnce(items: seq<Item>, outer: Ex.Symbols, p: Placing, n: string)
    requires Placed(items, outer, p).Some? && n in Names(items)
    ensures !Known(p.tab, n) && Known(Placed(items, outer, p).value.tab, n)
  {
    hide Matched, Ex.Parse, Size;
    var q := PlaceItem(items[0], outer, p).value;
    if n in Names(items[1..]) {
      DefinedOnce(items[1..], outer, q, n);
    } else {
      StaysKnown(items[1..], outer, q, n);
    }
  }

  lemma {:induction false} StaysKnown(items: seq<Item>, outer: Ex.Symbols, p: Placing, n: string)
    requires Placed(items, outer, p).Some? && Known(p.tab, n)
    ensures Known(Placed(items, outer, p).value.tab, n)
  {
    hide Matched, Ex.Parse, Size;
    if items != [] {
      StaysKnown(items[1..], outer, PlaceItem(items[0], outer, p).value, n);
    }
  }

  lemma {:induction false} NamesOfConcat(units: seq<seq<Item>>, j: nat, n: string)
    requires j < |units| && n in Names(units[j])
    ensures n in Names(Concat(units))
  {
    NamesJoin(units[0], Concat(units[1..]));
    if j > 0 {
      NamesOfConcat(units[1..], j - 1, n);
    }
  }

  lemma {:induction false} NamesJoin(a: seq<Item>, b: seq<Item>)
    ensures Names(a + b) == Names(a) + Names(b)
  {
    if a == [] {
      assert a + b == b;
    } else {
      assert (a + b)[0] == a[0] && (a + b)[1..] == a[1..] + b;
      NamesJoin(a[1..], b);
    }
  }

  lemma {:induction false} SharedTwice(units: seq<seq<Item>>, i: nat, j: nat, n: string, p: Placing)
    requires i < j < |units| && n in Names(units[i]) && n in Names(units[j])
    ensures Placed(Concat(units), map[], p).None?
  {
    hide Placed, Names;
    var first, rest := units[0], units[1..];
    PlacedConcat(first, Concat(rest), map[], p);
    var q := Placed(first, map[], p);
    if q.Some? {
      if i > 0 {
        SharedTwice(rest, i - 1, j - 1, n, q.value);
      } else if Placed(Concat(rest), map[], q.value).Some? {
        NamesOfConcat(rest, j - 1, n);
        DefinedOnce(first, map[], p, n);
        DefinedOnce(Concat(rest), map[], q.value, n);
      }
    }
  }

  /** Two units that define one name, even as the same constant, cannot be placed by hand: such a link
      agrees with its concatenation exactly when it is refused as well. */
  lemma SharedNameByHand(units: seq<seq<Item>>, image: Option<int>, entry: Entry)
    requires !Separate(units)
    ensures Assembled(Concat(units), image, entry).None?
    ensures Linked(units, image, entry) == Assembled(Concat(units), image, entry) <==> Linked(units, image, entry).None?
  {
    hide Placed, Emitted, Names, Linked, PutAll, Finished;
    var i, j :| 0 <= i < j < |units| && !(Names(units[i]) !! Names(units[j]));
    var n :| n in Names(units[i]) && n in Names(units[j]);
    SharedTwice(units, i, j, n, Placing(EMPTY, 0));
  }

  predicate NoOrg(items: seq<Item>) { forall k :: 0 <= k < |items| ==> !items[k].Org? }

  function Sizes(items: seq<Item>): nat { if items == [] then 0 else Size(items[0]) + Sizes(items[1..]) }

  lemma {:induction false} ReachedPlain(items: seq<Item>, env: Ex.Symbols, pc: int)
    requires NoOrg(items)
    ensures Reached(items, env, pc) == Some(pc + Sizes(items))
  {
    hide Size;
    if items != [] {
      TailPlain(items);
      ReachedPlain(items[1..], env, pc + Size(items[0]));
    }
  }

  lemma TailPlain(items: seq<Item>)
    requires items != [] && NoOrg(items)
    ensures !items[0].Org? && NoOrg(items[1..])
  {
    var tail := items[1..];
    assert forall k :: 0 <= k < |tail| ==> tail[k] == items[k + 1];
  }

  /** A label with no `.org` in front of it stands as far behind its unit's start as what precedes it
      is long. */
  lemma {:induction false} PlainLabel(items: seq<Item>, outer: Ex.Symbols, p: Placing, k: nat)
    requires OneKind(p.tab) && Placed(items, outer, p).Some?
    requires k < |items| && items[k].Label? && NoOrg(items[..k])
    ensures var t := Placed(items, outer, p).value.tab;
      OneKind(t) && items[k].name in t.addr && t.addr[items[k].name] == p.pc + Sizes(items[..k])
  {
    hide Size, Ex.Parse, Matched, OneKind, Includes;
    var r := PlaceItem(items[0], outer, p).value;
    ItemGrows(items[0], outer, p);
    ItemMoves(items[0], outer, p);
    PlacedGrows(items[1..], outer, r);
    if k > 0 {
      assert items[..k][0] == items[0] && items[..k][1..] == items[1..][..k - 1];
      TailPlain(items[..k]);
      PlainLabel(items[1..], outer, r, k - 1);
    } else {
      assert items[..0] == [];
      IncludedLabel(Placed(items[1..], outer, r).value.tab, r.tab, items[0].name);
    }
  }

  lemma {:induction false} ConcatAt(units: seq<seq<Item>>, u: nat)
    requires u < |units|
    ensures Concat(units) == Concat(units[..u]) + (units[u] + Concat(units[u + 1..]))
  {
    if u == 0 {
      assert units[..0] == [] && units[1..] == units[u + 1..];
    } else {
      ConcatAt(units[1..], u - 1);
      assert units[..u][0] == units[0] && units[..u][1..] == units[1..][..u - 1];
      assert units[1..][u..] == units[u + 1..];
    }
  }

  /** A unit with a label in front of its first `.org` that does not start at 0 by hand is placed
      elsewhere by the link: the two never agree on a load. */
  lemma LabelMoves(units: seq<seq<Item>>, image: Option<int>, entry: Entry, u: nat, k: nat)
    requires u < |units| && k < |units[u]| && units[u][k].Label? && NoOrg(units[u][..k])
    requires var q := Placed(Concat(units[..u]), map[], Placing(EMPTY, 0)); q.Some? && q.value.pc != 0
    ensures Linked(units, image, entry) == Assembled(Concat(units), image, entry) <==>
      Linked(units, image, entry).None? && Assembled(Concat(units), image, entry).None?
  {
    hide Placed, Emitted, Reached, PlaceUnits, EmitUnits, PutAll, Sizes, NoOrg, Available, OneKind, Includes;
    var l, a := Linked(units, image, entry), Assembled(Concat(units), image, entry);
    if l.Some? && a.Some? {
      LinkStands(units, image, entry, u, k);
      ReachedPlain(units[u][..k], Scope(Tables(units).0, u), 0);
      var more := Concat(units[u + 1..]);
      ConcatAt(units, u);
      EmptyOneKind();
      PlacedConcat(Concat(units[..u]), units[u] + more, map[], Placing(EMPTY, 0));
      var q := Placed(Concat(units[..u]), map[], Placing(EMPTY, 0)).value;
      PlacedGrows(Concat(units[..u]), map[], Placing(EMPTY, 0));
      PlacedConcat(units[u], more, map[], q);
      PlainLabel(units[u], map[], q, k);
      var r := Placed(units[u], map[], q).value;
      PlacedGrows(more, map[], r);
      IncludedLabel(Placed(more, map[], r).value.tab, r.tab, units[u][k].name);
      LoadedSymbols(Concat(units), image, entry);
    }
  }

  lemma LoadedSymbols(items: seq<Item>, image: Option<int>, entry: Entry)
    requires Assembled(items, image, entry).Some?
    ensures Placed(items, map[], Placing(EMPTY, 0)).Some?
    ensures Assembled(items, image, entry).value.symbols == Placed(items, map[], Placing(EMPTY, 0)).value.tab
  {
    hide Placed, Emitted, PutAll, Length, EntryOf;
  }

  lemma NothingUsed(units: seq<seq<Item>>)
    ensures Unused(EMPTY, units)
  {
  }

  /** One unit links as it assembles. */
  lemma LinkOne(items: seq<Item>, image: Option<int>, entry: Entry)
    ensures Linked([items], image, entry) == Assembled(items, image, entry)
  {
    hide Linked, Assembled;
    LinkIsAssembly([items], image, entry);
    assert [items][1..] == [] && items + [] == items;
    assert Concat([items]) == items + Concat([items][1..]);
  }

  lemma OneAscii(data: seq<byte>, env: Ex.Symbols, syms: Table, pc: int)
    ensures Emitted([Ascii(data)], env, syms, pc) == Some([Block(pc, data)])
    ensures Placed([Ascii(data)], env, Placing(syms, pc)) == Some(Placing(syms, pc + |data|))
  {
    assert [Ascii(data)][1..] == [] && [Block(pc, data)] + [] == [Block(pc, data)];
  }

  lemma TwoByHand(a: seq<byte>, b: seq<byte>)
    requires a != [] && |a| + |b| <= CODE_SIZE
    ensures Assembled([Ascii(a)] + [Ascii(b)], Some(CODE_SIZE), Main).Some?
  {
    hide Placed, Emitted, PutAll, Placeable;
    var one, two, syms := [Ascii(a)], [Ascii(b)], EMPTY;
    EmptyOneKind();
    OneAscii(a, map[], syms, 0);
    OneAscii(b, map[], syms, |a|);
    PlacedConcat(one, two, map[], Placing(syms, 0));
    EmittedConcat(one, two, map[], syms, 0);
    ReachedAscii(a);
    var hand := [Block(0, a), Block(|a|, b)];
    assert [Block(0, a)] + [Block(|a|, b)] == hand;
    HandPlaceable(a, b);
    PutAllIff(BLANK, hand);
    PutAllReaches(BLANK, hand);
    assert hand[0] == Block(0, a) && hand[1] == Block(|a|, b);
  }

  lemma ReachedAscii(a: seq<byte>)
    ensures Reached([Ascii(a)], map[], 0) == Some(|a|)
  {
    assert [Ascii(a)][1..] == [];
  }

  /** A unit whose first byte comes before its first `.org`. */
  predicate Leads(items: seq<Item>)
  {
    items != [] && !items[0].Org? && (Size(items[0]) > 0 || Leads(items[1..]))
  }

  /** An item of some size places its first byte where it stands. */
  lemma ItemLeads(it: Item, syms: Table, at: int)
    requires Size(it) > 0 && ItemBlocks(it, syms, at).Some?
    ensures exists b :: b in ItemBlocks(it, syms, at).value && Spans(b, at)
  {
    hide Ex.Parse, Rendered, Matched, Asm.Table;
    var blocks := ItemBlocks(it, syms, at).value;
    assert Spans(blocks[0], at);
  }

  lemma {:induction false} UnitLeads(items: seq<Item>, env: Ex.Symbols, syms: Table, pc: int)
    requires Leads(items) && Emitted(items, env, syms, pc).Some?
    ensures exists b :: b in Emitted(items, env, syms, pc).value && Spans(b, pc)
  {
    hide ItemBlocks, Ex.Parse;
    if Size(items[0]) > 0 {
      ItemLeads(items[0], syms, pc);
      var b :| b in ItemBlocks(items[0], syms, pc).value && Spans(b, pc);
      assert b in Emitted(items, env, syms, pc).value;
    } else {
      UnitLeads(items[1..], env, syms, pc);
      var b :| b in Emitted(items[1..], env, syms, pc).value && Spans(b, pc);
      assert b in Emitted(items, env, syms, pc).value;
    }
  }

  /** What an earlier unit places comes before what a later one does. */
  lemma {:induction false} UnitsInOrder(units: seq<seq<Item>>, tables: seq<Table>, merged: Table, j: nat,
      u: nat, v: nat, b: Block, c: Block)
    requires j <= u < v < |units| == |tables| && EmitUnits(units, tables, merged, j).Some?
    requires Emitted(units[u], Scope(tables, u), merged, 0).Some?
    requires Emitted(units[v], Scope(tables, v), merged, 0).Some?
    requires b in Emitted(units[u], Scope(tables, u), merged, 0).value
    requires c in Emitted(units[v], Scope(tables, v), merged, 0).value
    ensures var all := EmitUnits(units, tables, merged, j).value;
      exists x, y :: 0 <= x < y < |all| && all[x] == b && all[y] == c
    decreases u - j
  {
    hide Emitted, Scope;
    var all := EmitUnits(units, tables, merged, j).value;
    var own := Emitted(units[j], Scope(tables, j), merged, 0).value;
    var rest := EmitUnits(units, tables, merged, j + 1).value;
    assert all == own + rest;
    if j < u {
      UnitsInOrder(units, tables, merged, j + 1, u, v, b, c);
      var x, y :| 0 <= x < y < |rest| && rest[x] == b && rest[y] == c;
      assert all[|own| + x] == b && all[|own| + y] == c;
    } else {
      UnitEmits(units, tables, merged, j + 1, v);
      var x :| 0 <= x < |own| && own[x] == b;
      var y :| 0 <= y < |rest| && rest[y] == c;
      assert all[x] == b && all[|own| + y] == c;
    }
  }

  /** Every unit starts at 0 again: no link holds two units that both put a byte in front of
      their first `.org`, wherever in the link they stand. */
  lemma StartsCollide(units: seq<seq<Item>>, image: Option<int>, entry: Entry, u: nat, v: nat)
    requires u < v < |units| && Leads(units[u]) && Leads(units[v])
    ensures Linked(units, image, entry).None?
  {
    hide PutAll, PlaceUnits, EmitUnits, Emitted, Leads, Finished, Spans, Scope, Clear, Inside;
    if PlaceUnits(units, [], EMPTY).Some? {
      PlaceUnitsCounts(units, [], EMPTY);
      var (tables, merged) := Tables(units);
      if EmitUnits(units, tables, merged, 0).Some? {
        UnitEmits(units, tables, merged, 0, u);
        UnitEmits(units, tables, merged, 0, v);
        UnitLeads(units[u], Scope(tables, u), merged, 0);
        UnitLeads(units[v], Scope(tables, v), merged, 0);
        var b :| b in Emitted(units[u], Scope(tables, u), merged, 0).value && Spans(b, 0);
        var c :| c in Emitted(units[v], Scope(tables, v), merged, 0).value && Spans(c, 0);
        UnitsInOrder(units, tables, merged, 0, u, v, b, c);
        var all := EmitUnits(units, tables, merged, 0).value;
        var x, y :| 0 <= x < y < |all| && all[x] == b && all[y] == c;
        assert !Apart(all[x], all[y]);
        PutAllIff(BLANK, all);
      }
    }
  }

  /** Such units may still assemble one behind the other. */
  lemma HandPlaces(a: seq<byte>, b: seq<byte>)
    requires a != [] && b != [] && |a| + |b| <= CODE_SIZE
    ensures Leads([Ascii(a)]) && Leads([Ascii(b)])
    ensures Linked([[Ascii(a)], [Ascii(b)]], Some(CODE_SIZE), Main).None?
    ensures Assembled([Ascii(a)] + [Ascii(b)], Some(CODE_SIZE), Main).Some?
  {
    hide Linked, Assembled;
    TwoByHand(a, b);
    StartsCollide([[Ascii(a)], [Ascii(b)]], Some(CODE_SIZE), Main, 0, 1);
  }

  lemma HandPlaceable(a: seq<byte>, b: seq<byte>)
    requires |a| + |b| <= CODE_SIZE
    ensures Placeable([Block(0, a), Block(|a|, b)])
  {
  }

  // ------------------------------------------------------------- the loader's objects

  /** The symbol table the place pass fills. */
  class SymbolTable {
    var addr: Ex.Symbols
    var consts: Ex.Symbols

    constructor ()
      ensures Value() == EMPTY
    {
      addr, consts := map[], map[];
    }

    function Value(): Table
      reads this
    {
      Table(addr, consts)
    }

    /** A name can be defined once; the second definition changes nothing. */
    method Add(name: string, value: int, constant: bool) returns (ok: bool)
      modifies this
      ensures ok == !Known(old(Value()), name)
      ensures Value() == if ok then Added(old(Value()), name, value, constant) else old(Value())
    {
      if name in addr || name in consts { return false; }
      if constant {
        consts := consts[name := value];
      } else {
        addr := addr[name := value];
      }
      return true;
    }

    /** One line of the place pass: it defines a symbol or moves the address. */
    method PlaceLine(it: Item, outer: Ex.Symbols, pc: int) returns (ok: bool, next: int)
      modifies this
      ensures var p := PlaceItem(it, outer, Placing(old(Value()), pc));
        ok == p.Some? && (ok ==> p == Some(Placing(Value(), next)))
    {
      hide Ex.Parse, Matched, Flat, Known;
      next := pc;
      match it {
        case Label(name) =>
          ok := Add(name, pc, false);
        case Equ(name, e) =>
          var v := Ex.Parse(e, outer + Flat(Value()));
          if v.None? { return false, pc; }
          ok := Add(name, v.value, true);
        case Org(e) =>
          var v := Ex.Parse(e, outer + Flat(Value()));
          if v.None? || !(0 <= v.value <= CODE_SIZE) { return false, pc; }
          return true, v.value;
        case Bytes(es) =>
          return |es| > 0, pc + |es|;
        case Words(es) =>
          return |es| > 0, pc + 2 * |es|;
        case Ascii(data) =>
          return true, pc + |data|;
        case Line(_, _, _, _) =>
          return Matched(it), pc + Size(it);
      }
    }

    /** The place pass over one unit. */
    method PlacePass(items: seq<Item>, outer: Ex.Symbols) returns (ok: bool, ghost last: int)
      modifies this
      ensures var p := Placed(items, outer, Placing(old(Value()), 0));
        ok == p.Some? && (ok ==> p == Some(Placing(Value(), last)))
    {
      hide PlaceItem;
      var pc := 0;
      ghost var start := Placing(Value(), 0);
      assert items[0..] == items;
      for k := 0 to |items|
        invariant Placed(items, outer, start) == Placed(items[k..], outer, Placing(Value(), pc))
      {
        assert items[k..][0] == items[k] && items[k..][1..] == items[k + 1..];
        ok, pc := PlaceLine(items[k], outer, pc);
        if !ok { return false, 0; }
      }
      assert items[|items|..] == [];
      return true, pc;
    }

    /** One unit's symbols into the merged table, name by name, in any order. A name already
        there has to have the same kind and the same value. */
    method Merge(t: Table) returns (ok: bool)
      requires OneKind(t)
      modifies this
      ensures ok == Agrees(old(Value()), t)
      ensures ok ==> Value() == Join(old(Value()), t)
    {
      hide OneKind, Agrees;
      var left := Flat(t).Keys;
      ghost var before := Value();
      NoneMerged(before, t);
      while left != {}
        invariant left <= Flat(t).Keys
        invariant Value() == Join(before, Part(t, Flat(t).Keys - left))
        invariant Agrees(before, Part(t, Flat(t).Keys - left))
        decreases left
      {
        var name :| name in left;
        var value, constant := Flat(t)[name], name in t.consts;
        ghost var names := Flat(t).Keys - left;
        MergedSoFar(before, t, names, name);
        if name in addr || name in consts {
          if !Defines(Value(), name, value, constant) { return false; }
        } else {
          var added := Add(name, value, constant);
        }
        left := left - {name};
        assert Flat(t).Keys - left == names + {name};
      }
      AllMerged(t);
      return true;
    }
  }

  /** The part of a table that some names make up. */
  ghost function Part(t: Table, names: set<string>): Table
  {
    Table(map n | n in t.addr && n in names :: t.addr[n], map n | n in t.consts && n in names :: t.consts[n])
  }

  lemma NoneMerged(before: Table, t: Table)
    ensures Flat(t).Keys - Flat(t).Keys == {}
    ensures Join(before, Part(t, {})) == before && Agrees(before, Part(t, {}))
  {
  }

  lemma AllMerged(t: Table)
    ensures Part(t, Flat(t).Keys - {}) == t
  {
    assert Flat(t).Keys - {} == Flat(t).Keys;
    assert forall n :: n in t.addr || n in t.consts ==> n in Flat(t).Keys;
  }

  /** The name is in the table with this kind and value. */
  predicate Defines(t: Table, name: string, value: int, constant: bool)
  {
    if constant then name in t.consts && t.consts[name] == value else name in t.addr && t.addr[name] == value
  }

  function Added(t: Table, name: string, value: int, constant: bool): Table
  {
    if constant then t.(consts := t.consts[name := value]) else t.(addr := t.addr[name := value])
  }

  lemma PartMore(t: Table, names: set<string>, name: string)
    requires OneKind(t) && name in Flat(t)
    ensures Part(t, names + {name}) == Added(Part(t, names), name, Flat(t)[name], name in t.consts)
  {
    assert name in t.addr || name in t.consts;
  }

  lemma JoinAdded(before: Table, part: Table, name: string, value: int, constant: bool)
    ensures Join(before, Added(part, name, value, constant)) == Added(Join(before, part), name, value, constant)
  {
    assert before.addr + part.addr[name := value] == (before.addr + part.addr)[name := value];
    assert before.consts + part.consts[name := value] == (before.consts + part.consts)[name := value];
  }

  lemma AddedSame(t: Table, name: string, value: int, constant: bool)
    requires Defines(t, name, value, constant)
    ensures Added(t, name, value, constant) == t
  {
  }

  lemma AgreesAdded(before: Table, part: Table, name: string, value: int, constant: bool)
    requires Agrees(before, part) && !Known(part, name)
    ensures Agrees(before, Added(part, name, value, constant))
            <==> !Known(before, name) || Defines(before, name, value, constant)
  {
    var more := Added(part, name, value, constant);
    assert constant ==> name in more.consts;
    assert !constant ==> name in more.addr;
  }

  lemma AgreesPart(before: Table, t: Table, names: set<string>)
    requires Agrees(before, t)
    ensures Agrees(before, Part(t, names))
  {
  }

  /** One more name: added, or already there and the same, or the whole table disagrees. */
  lemma MergedSoFar(before: Table, t: Table, names: set<string>, name: string)
    requires OneKind(t) && Agrees(before, Part(t, names))
    requires name in Flat(t) && name !in names
    ensures var now, next := Join(before, Part(t, names)), Part(t, names + {name});
      var value, constant := Flat(t)[name], name in t.consts;
      && (Known(now, name) && !Defines(now, name, value, constant) ==> !Agrees(before, t))
      && (Known(now, name) && Defines(now, name, value, constant) ==> now == Join(before, next) && Agrees(before, next))
      && (!Known(now, name) ==> Added(now, name, value, constant) == Join(before, next) && Agrees(before, next))
  {
    hide Agrees, OneKind, Added;
    var part, value, constant := Part(t, names), Flat(t)[name], name in t.consts;
    PartMore(t, names, name);
    JoinAdded(before, part, name, value, constant);
    AgreesAdded(before, part, name, value, constant);
    if Agrees(before, t) {
      AgreesPart(before, t, names + {name});
    }
    if Defines(Join(before, part), name, value, constant) {
      AddedSame(Join(before, part), name, value, constant);
    }
  }

  /** The cells placed so far; a placement that would collide or leave CODE is refused. */
  class Placer {
    var out: map<int, byte>
    var high: int

    constructor ()
      ensures Value() == BLANK
    {
      out, high := map[], 0;
    }

    function Value(): Memory
      reads this
    {
      Memory(out, high)
    }

    method Place(at: int, data: seq<byte>) returns (ok: bool)
      modifies this
      ensures ok == Put(old(Value()), Block(at, data)).Some?
      ensures ok ==> Put(old(Value()), Block(at, data)) == Some(Value())
    {
      var b := Block(at, data);
      for i := 0 to |data|
        invariant forall a :: at <= a < at + i ==> FreeCell(old(Value()), a)
        invariant out == old(out) + Cover(Block(at, data[..i]))
        invariant high == old(high)
      {
        var a := at + i;
        if !(0 <= a < CODE_SIZE) || a in out {
          assert !FreeCell(old(Value()), a) by { assert !Spans(Block(at, data[..i]), a); }
          return false;
        }
        CoverMore(b, i);
        out := out[a := data[i]];
      }
      assert data[..|data|] == data;
      if at + |data| > high {
        high := at + |data|;
      }
      return true;
    }

    /** The cells of one `.byte` or `.word`, evaluated and placed one at a time. */
    method PlaceCells(es: seq<Expr>, syms: Table, at: int, width: nat) returns (ok: bool)
      requires width == 1 || width == 2
      modifies this
      ensures var r := PutSome(old(Value()), Cells(es, syms, at, width));
        ok == r.Some? && (ok ==> r == Some(Value()))
    {
      hide Ex.Parse, Put;
      ghost var m := Value();
      var pc := at;
      assert es[0..] == es;
      for k := 0 to |es|
        invariant PutSome(m, Cells(es, syms, at, width)) == PutSome(Value(), Cells(es[k..], syms, pc, width))
      {
        assert es[k..][0] == es[k] && es[k..][1..] == es[k + 1..];
        var v := Ex.Parse(es[k], Flat(syms));
        if v.None? || !(0 <= v.value < if width == 1 then 256 else 65536) { return false; }
        var data: seq<byte> := if width == 1 then [v.value] else [v.value % 256, v.value / 256];
        PutFirst(Value(), Block(pc, data), Cells(es[k + 1..], syms, pc + width, width));
        ok := Place(pc, data);
        if !ok { return false; }
        pc := pc + width;
      }
      assert es[|es|..] == [];
      return true;
    }

    /** What one line places: cells, a string, or an encoded instruction. */
    method EmitLine(it: Item, syms: Table, pc: int) returns (ok: bool)
      requires !it.Org?
      modifies this
      ensures var r := PutSome(old(Value()), ItemBlocks(it, syms, pc));
        ok == r.Some? && (ok ==> r == Some(Value()))
    {
      hide Ex.Parse, Put, Rendered, Cells, Matched, PutAll, Asm.Encode, Asm.Accepted;
      NothingPut(Value());
      match it {
        case Label(_) =>
          return true;
        case Equ(_, _) =>
          return true;
        case Bytes(es) =>
          ok := PlaceCells(es, syms, pc, 1);
        case Words(es) =>
          ok := PlaceCells(es, syms, pc, 2);
        case Ascii(data) =>
          PutOne(Value(), Block(pc, data));
          ok := Place(pc, data);
        case Line(sel, d, s, slot) =>
          if !Matched(it) { return false; }
          var arg := Rendered(slot, syms);
          if arg.None? { return false; }
          RenderedAccepted(it, syms);
          var code := Asm.Encode(Asm.Ins(sel, d, s, arg.value), map[], true);
          if code.None? { return false; }
          PutOne(Value(), Block(pc, code.value));
          ok := Place(pc, code.value);
      }
    }

    /** The emit pass over one unit. */
    method EmitPass(items: seq<Item>, env: Ex.Symbols, syms: Table) returns (ok: bool)
      modifies this
      ensures var r := PutSome(old(Value()), Emitted(items, env, syms, 0));
        ok == r.Some? && (ok ==> r == Some(Value()))
    {
      hide Ex.Parse, PutAll, ItemBlocks, Size;
      ghost var m := Value();
      var pc := 0;
      assert items[0..] == items;
      for k := 0 to |items|
        invariant PutSome(m, Emitted(items, env, syms, 0)) == PutSome(Value(), Emitted(items[k..], env, syms, pc))
      {
        assert items[k..][0] == items[k] && items[k..][1..] == items[k + 1..];
        if items[k].Org? {
          var v := Ex.Parse(items[k].e, env);
          if v.None? { return false; }
          pc := v.value;
        } else {
          PutBoth(Value(), ItemBlocks(items[k], syms, pc), Emitted(items[k + 1..], env, syms, pc + Size(items[k])));
          ok := EmitLine(items[k], syms, pc);
          if !ok { return false; }
          pc := pc + Size(items[k]);
        }
      }
      NothingEmitted(env, syms, pc);
      assert items[|items|..] == [];
      NothingPut(Value());
      return true;
    }
  }

  function PutSome(m: Memory, blocks: Option<seq<Block>>): Option<Memory>
  {
    match blocks case None => None case Some(b) => PutAll(m, b)
  }

  lemma {:induction false} PutAllConcat(m: Memory, a: seq<Block>, b: seq<Block>)
    ensures PutAll(m, a + b) == match PutAll(m, a) case None => None case Some(n) => PutAll(n, b)
    decreases |a|
  {
    hide Put;
    if a == [] {
      assert a + b == b;
    } else {
      assert (a + b)[0] == a[0] && (a + b)[1..] == a[1..] + b;
      match Put(m, a[0]) {
        case None =>
        case Some(n) => PutAllConcat(n, a[1..], b);
      }
    }
  }

  lemma PutFirst(m: Memory, b: Block, rest: Option<seq<Block>>)
    ensures PutSome(m, Both(Some([b]), rest))
            == match Put(m, b) case None => None case Some(n) => PutSome(n, rest)
  {
    hide Put;
    PutOne(m, b);
    if rest.Some? {
      PutAllConcat(m, [b], rest.value);
    }
  }

  lemma PutBoth(m: Memory, x: Option<seq<Block>>, rest: Option<seq<Block>>)
    ensures PutSome(m, Both(x, rest))
            == match PutSome(m, x) case None => None case Some(n) => PutSome(n, rest)
  {
    if x.Some? && rest.Some? {
      PutAllConcat(m, x.value, rest.value);
    }
  }

  lemma PutOne(m: Memory, b: Block)
    ensures PutAll(m, [b]) == Put(m, b)
  {
    hide Put;
    if Put(m, b).Some? {
      NothingPut(Put(m, b).value);
    }
  }

  lemma RenderedAccepted(it: Item, syms: Table)
    requires it.Line? && Matched(it) && Rendered(it.slot, syms).Some?
    ensures Asm.Accepted(Asm.Ins(it.sel, it.d, it.s, Rendered(it.slot, syms).value))
  {
    hide Asm.Table, Ex.Parse, NamesLabel;
  }

  lemma NothingPut(m: Memory)
    ensures PutAll(m, []) == Some(m)
  {
  }

  lemma CoverMore(b: Block, i: nat)
    requires i < |b.data|
    ensures Cover(Block(b.at, b.data[..i + 1])) == Cover(Block(b.at, b.data[..i]))[b.at + i := b.data[i]]
  {
    var x, y := Cover(Block(b.at, b.data[..i + 1])), Cover(Block(b.at, b.data[..i]))[b.at + i := b.data[i]];
    forall a ensures a in x <==> a in y
      ensures a in x ==> x[a] == y[a]
    {
      assert Spans(Block(b.at, b.data[..i + 1]), a) <==> Spans(Block(b.at, b.data[..i]), a) || a == b.at + i;
    }
  }

  /** The image is a zeroed buffer into which the placed cells are written in address order. */
  method Finish(syms: Table, m: Memory, image: Option<int>, entry: Entry) returns (l: Option<Loaded>)
    requires forall a :: a in m.out ==> 0 <= a < m.high
    ensures l == Finished(syms, m, image, entry)
  {
    hide NextPow2, EntryOf;
    PowCovers(Needed(m.high));
    var length := Length(m.high, image);
    if length.None? { return None; }
    var bytes := new byte[length.value](_ => 0);
    for at := 0 to length.value
      invariant forall a :: 0 <= a < bytes.Length ==> bytes[a] == if a < at && a in m.out then m.out[a] else 0
    {
      if at in m.out {
        bytes[at] := m.out[at];
      }
    }
    var start := EntryOf(syms, entry);
    if start.None? || (m.high > 0 && start.value >= m.high) { return None; }
    assert bytes[..] == Image(m, length.value);
    return Some(Loaded(bytes[..], syms, m.high, start.value));
  }

  /** Placed cells lie below the mark. */
  lemma BelowMark(blocks: seq<Block>)
    requires PutAll(BLANK, blocks).Some?
    ensures forall a :: a in PutAll(BLANK, blocks).value.out ==> 0 <= a < PutAll(BLANK, blocks).value.high
  {
    hide PutAll;
    PutAllIff(BLANK, blocks);
    PutAllStands(BLANK, blocks);
    PutAllReaches(BLANK, blocks);
  }

  method Assemble(items: seq<Item>, image: Option<int>, entry: Entry) returns (l: Option<Loaded>)
    ensures l == Assembled(items, image, entry)
  {
    hide Placed, Emitted, PutAll, Finished;
    var symbols := new SymbolTable();
    var ok, last := symbols.PlacePass(items, map[]);
    if !ok { return None; }
    var placer := new Placer();
    ok := placer.EmitPass(items, Flat(symbols.Value()), symbols.Value());
    if !ok { return None; }
    BelowMark(Emitted(items, Flat(symbols.Value()), symbols.Value(), 0).value);
    l := Finish(symbols.Value(), placer.Value(), image, entry);
  }

  /** Places every unit, merging its symbols as it goes; then emits every unit. */
  method Link(units: seq<seq<Item>>, image: Option<int>, entry: Entry) returns (l: Option<Loaded>)
    ensures l == Linked(units, image, entry)
  {
    hide Placed, Emitted, PutAll, Finished, Agrees, Join, Available, Includes, Coherent;
    if |units| == 0 { return None; }
    var merged := new SymbolTable();
    var settled: seq<Table> := [];
    EmptyOneKind();
    assert units[0..] == units;
    for i := 0 to |units|
      invariant |settled| == i && fresh(merged)
      invariant PlaceUnits(units, [], EMPTY) == PlaceUnits(units[i..], settled, merged.Value())
    {
      assert units[i..][0] == units[i] && units[i..][1..] == units[i + 1..];
      var symbols := new SymbolTable();
      var ok, last := symbols.PlacePass(units[i], Available(settled));
      if !ok { return None; }
      PlacedGrows(units[i], Available(settled), Placing(EMPTY, 0));
      ok := merged.Merge(symbols.Value());
      if !ok { return None; }
      settled := settled + [symbols.Value()];
    }
    assert units[|units|..] == [];
    var syms := merged.Value();
    var placer := new Placer();
    NothingPut(BLANK);
    assert settled[..0] == [];
    for i := 0 to |units|
      invariant fresh(placer) && merged.Value() == syms
      invariant PutSome(BLANK, EmitUnits(units, settled, syms, 0))
                == PutSome(placer.Value(), EmitUnits(units, settled, syms, i))
    {
      PutBoth(placer.Value(), Emitted(units[i], Scope(settled, i), syms, 0), EmitUnits(units, settled, syms, i + 1));
      var ok := placer.EmitPass(units[i], Scope(settled, i), syms);
      if !ok { return None; }
    }
    NothingPut(placer.Value());
    BelowMark(EmitUnits(units, settled, syms, 0).value);
    l := Finish(syms, placer.Value(), image, entry);
  }
}
