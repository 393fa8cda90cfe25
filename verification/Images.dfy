/** What a finished load holds: the bytes of every line of every unit, read off the image, and the
    address it starts at. */
module Images {
  import opened Bits
  import opened Isa
  import opened Linker
  import Ex = Expressions
  import Asm = Assembler
  import N = Arithmetic

  /** Where line `k` of unit `u` stands in a finished link. */
  function At(units: seq<seq<Item>>, u: nat, k: nat): Option<int>
    requires PlaceUnits(units, [], EMPTY).Some? && |Tables(units).0| == |units|
    requires u < |units| && k <= |units[u]|
  {
    Reached(units[u][..k], Scope(Tables(units).0, u), 0)
  }

  /** A finished link has every unit placed, and every line somewhere. */
  lemma Placements(units: seq<seq<Item>>, image: Option<int>, entry: Entry, u: nat, k: nat)
    requires Linked(units, image, entry).Some? && u < |units| && k < |units[u]|
    ensures PlaceUnits(units, [], EMPTY).Some? && |Tables(units).0| == |units|
    ensures At(units, u, k).Some?
  {
    LinkStands(units, image, entry, u, k);
  }

  // ------------------------------------------------------------------ cells and strings

  /** The cells of a `.byte` or `.word` are blocks of their own, one behind the other. */
  lemma {:induction false} CellBlocks(es: seq<Expr>, syms: Table, at: int, width: nat, j: nat)
    requires (width == 1 || width == 2) && j < |es| && Cells(es, syms, at, width).Some?
    ensures var v := Ex.Parse(es[j], Flat(syms));
      && v.Some? && 0 <= v.value < (if width == 1 then 256 else 65536)
      && exists b :: b in Cells(es, syms, at, width).value && b.at == at + width * j && |b.data| == width
           && (if width == 1 then b.data[0] == v.value else Word(b.data[0], b.data[1]) == v.value)
  {
    hide Ex.Parse;
    var all := Cells(es, syms, at, width).value;
    if j == 0 {
      assert all[0] in all;
    } else {
      CellBlocks(es[1..], syms, at + width, width, j - 1);
      assert es[1..][j - 1] == es[j];
      var rest := Cells(es[1..], syms, at + width, width).value;
      assert all[1..] == rest;
      assert forall b :: b in rest ==> b in all;
      assert at + width + width * (j - 1) == at + width * j;
    }
  }

  /** At the address of each cell of a `.byte` stands its value. */
  lemma BytesStand(units: seq<seq<Item>>, image: Option<int>, entry: Entry, u: nat, k: nat, j: nat)
    requires Linked(units, image, entry).Some? && u < |units| && k < |units[u]|
    requires units[u][k].Bytes? && j < |units[u][k].es|
    ensures PlaceUnits(units, [], EMPTY).Some? && |Tables(units).0| == |units| && At(units, u, k).Some?
    ensures var l, a := Linked(units, image, entry).value, At(units, u, k).value + j;
      0 <= a < |l.image| && Ex.Parse(units[u][k].es[j], Flat(l.symbols)) == Some(l.image[a])
  {
    hide Cells, Reached, Scope, Ex.Parse, PlaceUnits, Linked;
    LinkStands(units, image, entry, u, k);
    var l, pc := Linked(units, image, entry).value, At(units, u, k).value;
    CellBlocks(units[u][k].es, l.symbols, pc, 1, j);
    var b :| b in Cells(units[u][k].es, l.symbols, pc, 1).value && b.at == pc + 1 * j && |b.data| == 1
      && b.data[0] == Ex.Parse(units[u][k].es[j], Flat(l.symbols)).value;
    assert Spans(b, b.at);
  }

  /** At the address of each cell of a `.word` stands its value, low byte first. */
  lemma WordsStand(units: seq<seq<Item>>, image: Option<int>, entry: Entry, u: nat, k: nat, j: nat)
    requires Linked(units, image, entry).Some? && u < |units| && k < |units[u]|
    requires units[u][k].Words? && j < |units[u][k].es|
    ensures PlaceUnits(units, [], EMPTY).Some? && |Tables(units).0| == |units| && At(units, u, k).Some?
    ensures var l, a := Linked(units, image, entry).value, At(units, u, k).value + 2 * j;
      0 <= a && a + 1 < |l.image|
      && Ex.Parse(units[u][k].es[j], Flat(l.symbols)) == Some(Word(l.image[a], l.image[a + 1]))
  {
    hide Cells, Reached, Scope, Ex.Parse, PlaceUnits, Linked, Word;
    LinkStands(units, image, entry, u, k);
    var l, pc := Linked(units, image, entry).value, At(units, u, k).value;
    CellBlocks(units[u][k].es, l.symbols, pc, 2, j);
    var b :| b in Cells(units[u][k].es, l.symbols, pc, 2).value && b.at == pc + 2 * j && |b.data| == 2
      && Word(b.data[0], b.data[1]) == Ex.Parse(units[u][k].es[j], Flat(l.symbols)).value;
    assert Spans(b, b.at) && Spans(b, b.at + 1);
  }

  /** A string stands byte for byte. */
  lemma StringsStand(units: seq<seq<Item>>, image: Option<int>, entry: Entry, u: nat, k: nat, j: nat)
    requires Linked(units, image, entry).Some? && u < |units| && k < |units[u]|
    requires units[u][k].Ascii? && j < |units[u][k].data|
    ensures PlaceUnits(units, [], EMPTY).Some? && |Tables(units).0| == |units| && At(units, u, k).Some?
    ensures var l, a := Linked(units, image, entry).value, At(units, u, k).value + j;
      0 <= a < |l.image| && l.image[a] == units[u][k].data[j]
  {
    hide Reached, Scope, PlaceUnits, Linked;
    LinkStands(units, image, entry, u, k);
    var pc := At(units, u, k).value;
    assert Block(pc, units[u][k].data) in [Block(pc, units[u][k].data)];
    assert Spans(Block(pc, units[u][k].data), pc + j);
  }

  // ------------------------------------------------------------------ instruction lines

  /** The operand a line is given: what it was settled as, or what its expression is worth. A signed
      byte is the number it was written from, under the sign in front of it. */
  predicate Means(slot: Slot, arg: Asm.Operand, syms: Table)
  {
    match slot
    case Settled(a) => arg == a
    case Address(e) => arg.Word16? && Ex.Parse(e, Flat(syms)) == Some(arg.w)
    case Immediate(e) => arg.Byte? && Ex.Parse(e, Flat(syms)) == Some(arg.b) && !NamesLabel(e, syms)
    case Signed(e) => arg.Byte? && Ex.Parse(e, Flat(syms)) == Some(N.Int8(arg.b)) && !NamesLabel(e, syms)
    case Frame(negative, e) =>
      arg.Byte? && Ex.Parse(e, Flat(syms)) == Some(if negative then -N.Int8(arg.b) else N.Int8(arg.b))
      && !NamesLabel(e, syms)
  }

  lemma RenderedMeans(slot: Slot, syms: Table)
    requires Rendered(slot, syms).Some?
    ensures Means(slot, Rendered(slot, syms).value, syms)
  {
    hide Ex.Parse, NamesLabel;
  }

  /** At the address of an instruction line the disassembler reads the line back: its selector, its
      registers, and the operand it means. */
  lemma LinesStand(units: seq<seq<Item>>, image: Option<int>, entry: Entry, u: nat, k: nat)
    requires Linked(units, image, entry).Some? && u < |units| && k < |units[u]| && units[u][k].Line?
    ensures PlaceUnits(units, [], EMPTY).Some? && |Tables(units).0| == |units| && At(units, u, k).Some?
    ensures var l, a, it := Linked(units, image, entry).value, At(units, u, k).value, units[u][k];
      && 0 <= a < |l.image|
      && var n := Asm.DecodeAt(l.image, a, |l.image|);
      && n.shown.Decoded? && n.shown.canonical && n.len == Size(it)
      && n.shown.i.sel == it.sel && n.shown.i.d == it.d && n.shown.i.s == it.s
      && Means(it.slot, n.shown.i.arg, l.symbols)
  {
    hide Reached, Scope, PlaceUnits, Linked, Rendered, Asm.Encode, Asm.Accepted, Asm.DecodeAt, Asm.SizeOf, Means;
    LinkStands(units, image, entry, u, k);
    var l, pc, it := Linked(units, image, entry).value, At(units, u, k).value, units[u][k];
    RenderedMeans(it.slot, l.symbols);
    RenderedAccepted(it, l.symbols);
    var i := Asm.Ins(it.sel, it.d, it.s, Rendered(it.slot, l.symbols).value);
    var code := Asm.Encode(i, map[], true).value;
    var b := Block(pc, code);
    assert b in [b];
    RenderedPlain(it.slot, l.symbols, it);
    Asm.PassesAgree(i, map[], true);
    Asm.NotEmpty(i);
    Stands(l.image, b);
    Asm.EncodedDecodes(i, map[], l.image, pc, |l.image|);
    SizeOfLine(it, l.symbols);
  }

  lemma Stands(image: seq<byte>, b: Block)
    requires Within(image, b) && |b.data| > 0
    ensures 0 <= b.at && b.at + |b.data| <= |image| && image[b.at..b.at + |b.data|] == b.data
  {
    assert Spans(b, b.at) && Spans(b, b.at + |b.data| - 1);
    forall j | 0 <= j < |b.data| ensures image[b.at + j] == b.data[j] {
      assert Spans(b, b.at + j);
    }
  }

  lemma RenderedPlain(slot: Slot, syms: Table, it: Item)
    requires it.Line? && it.slot == slot && Matched(it) && Rendered(slot, syms).Some?
    ensures !Rendered(slot, syms).value.Ref?
  {
    hide Ex.Parse, NamesLabel, Asm.Accepted;
  }

  lemma SizeOfLine(it: Item, syms: Table)
    requires it.Line? && Matched(it) && Rendered(it.slot, syms).Some?
    requires Asm.Accepted(Asm.Ins(it.sel, it.d, it.s, Rendered(it.slot, syms).value))
    ensures Asm.SizeOf(Asm.Ins(it.sel, it.d, it.s, Rendered(it.slot, syms).value)) == Size(it)
  {
    hide Rendered, Asm.Table, Asm.OperandBytes, Asm.Accepted;
  }

  // ---------------------------------------------------------------- addresses and labels

  lemma {:induction false} ReachedNext(items: seq<Item>, k: nat, env: Ex.Symbols, pc: int)
    requires k < |items| && Reached(items[..k], env, pc).Some?
    ensures Reached(items[..k + 1], env, pc)
            == if items[k].Org? then Ex.Parse(items[k].e, env)
               else Some(Reached(items[..k], env, pc).value + Size(items[k]))
  {
    hide Ex.Parse, Size;
    if k == 0 {
      assert items[..1][1..] == [] && items[..0] == [];
    } else {
      assert items[..k][1..] == items[1..][..k - 1] && items[..k + 1][1..] == items[1..][..k];
      var next := if items[0].Org? then Ex.Parse(items[0].e, env).value else pc + Size(items[0]);
      ReachedNext(items[1..], k - 1, env, next);
    }
  }

  /** How many bytes of the image an item takes up. */
  function Width(it: Item, image: seq<byte>, a: int): int
    requires it.Line? ==> 0 <= a < |image|
  {
    match it
    case Bytes(es) => |es|
    case Words(es) => 2 * |es|
    case Ascii(data) => |data|
    case Line(_, _, _, _) => Asm.DecodeAt(image, a, |image|).len
    case _ => 0
  }

  /** A unit starts at 0; a line stands behind the bytes of the line in front of it, or where the `.org`
      in front of it says; and a label is the address it stands at. */
  lemma LinesFollow(units: seq<seq<Item>>, image: Option<int>, entry: Entry, u: nat, k: nat)
    requires Linked(units, image, entry).Some? && u < |units| && k < |units[u]|
    ensures PlaceUnits(units, [], EMPTY).Some? && |Tables(units).0| == |units|
    ensures At(units, u, 0) == Some(0) && At(units, u, k).Some?
    ensures var l, a, it := Linked(units, image, entry).value, At(units, u, k).value, units[u][k];
      && (it.Org? ==> At(units, u, k + 1) == Ex.Parse(it.e, Scope(Tables(units).0, u)))
      && (it.Line? ==> 0 <= a < |l.image|)
      && (!it.Org? ==> At(units, u, k + 1) == Some(a + Width(it, l.image, a)))
      && (it.Label? ==> it.name in l.symbols.addr && l.symbols.addr[it.name] == a)
  {
    hide Reached, Scope, PlaceUnits, Linked, Ex.Parse, Asm.DecodeAt, Means, Size, Width;
    LinkStands(units, image, entry, u, k);
    ReachedNext(units[u], k, Scope(Tables(units).0, u), 0);
    StartsAtZero(Scope(Tables(units).0, u), units[u]);
    if units[u][k].Line? {
      LinesStand(units, image, entry, u, k);
    }
    WidthIsSize(units[u][k], Linked(units, image, entry).value.image, At(units, u, k).value);
  }

  lemma WidthIsSize(it: Item, image: seq<byte>, a: int)
    requires it.Line? ==> 0 <= a < |image| && Asm.DecodeAt(image, a, |image|).len == Size(it)
    ensures Width(it, image, a) == Size(it)
  {
    hide Asm.DecodeAt, Matched, Asm.SizeOf;
  }

  lemma StartsAtZero(env: Ex.Symbols, items: seq<Item>)
    ensures Reached(items[..0], env, 0) == Some(0)
  {
  }

  /** A constant keeps the value its expression had when it was defined, and has it under any table that
      knows as much. */
  lemma {:induction false} ConstantKept(items: seq<Item>, outer: Ex.Symbols, p: Placing, env: Ex.Symbols, k: nat)
    requires OneKind(p.tab) && Placed(items, outer, p).Some? && k < |items| && items[k].Equ?
    requires Coherent(outer, Placed(items, outer, p).value.tab)
    requires Ex.Extends(env, outer + Flat(Placed(items, outer, p).value.tab))
    ensures var t := Placed(items, outer, p).value.tab;
      items[k].name in t.consts && Ex.Parse(items[k].e, env) == Some(t.consts[items[k].name])
  {
    hide Coherent, OneKind, Matched, Ex.Extends, Ex.Parse, Size;
    var q := Placed(items, outer, p).value;
    var r := PlaceItem(items[0], outer, p).value;
    ItemGrows(items[0], outer, p);
    PlacedGrows(items[1..], outer, r);
    PlacedGrows(items, outer, p);
    if k == 0 {
      ScopeGrows(outer, p.tab, q.tab, env);
      Ex.ParseGrows(items[0].e, outer + Flat(p.tab), env);
      ConstantIncluded(q.tab, r.tab, items[0].name);
    } else {
      ConstantKept(items[1..], outer, r, env, k - 1);
    }
  }

  lemma ConstantIncluded(big: Table, small: Table, n: string)
    requires Includes(big, small) && n in small.consts
    ensures n in big.consts && big.consts[n] == small.consts[n]
  {
  }

  /** In a finished link a constant is worth what its expression is worth under the link's symbols. */
  lemma ConstantsStand(units: seq<seq<Item>>, image: Option<int>, entry: Entry, u: nat, k: nat)
    requires Linked(units, image, entry).Some? && u < |units| && k < |units[u]| && units[u][k].Equ?
    ensures var l, it := Linked(units, image, entry).value, units[u][k];
      it.name in l.symbols.consts && Ex.Parse(it.e, Flat(l.symbols)) == Some(l.symbols.consts[it.name])
  {
    hide Placed, PlaceUnits, EmitUnits, PutAll, Finished, Available, Coherent, OneKind, Includes, Ex.Extends, Ex.Parse,
         Flat;
    LinkHolds(units, image, entry);
    EmptyOneKind();
    PlaceUnitsFacts(units, [], EMPTY);
    var (tables, merged) := Tables(units);
    forall i | 0 <= i < |units| ensures UnitPlaced(units[i], Available(tables[..i]), tables[i], merged) {
    }
    assert UnitPlaced(units[u], Available(tables[..u]), tables[u], merged);
    ScopeInMerged(tables, u);
    ConstantKept(units[u], Available(tables[..u]), Placing(EMPTY, 0), Flat(merged), k);
    ConstantIncluded(merged, tables[u], units[u][k].name);
  }

  // ------------------------------------------------------------------------- the entry

  /** A finished load starts at the address it was told, at the value of the name it was told, and
      untold at `main`, or at 0 when there is none. */
  lemma EntryStands(units: seq<seq<Item>>, image: Option<int>, entry: Entry)
    requires Linked(units, image, entry).Some?
    ensures var l := Linked(units, image, entry).value;
      match entry
      case At(a) => l.entry == a
      case Named(n) => n in Flat(l.symbols) && l.entry == Flat(l.symbols)[n]
      case Main => l.entry == if "main" in Flat(l.symbols) then Flat(l.symbols)["main"] else 0
  {
    hide PlaceUnits, EmitUnits, PutAll, Length, Flat;
  }

  /** In particular at the line labelled so. */
  lemma EntryAtLabel(units: seq<seq<Item>>, image: Option<int>, entry: Entry, u: nat, k: nat)
    requires Linked(units, image, entry).Some? && u < |units| && k < |units[u]| && units[u][k].Label?
    requires entry == Named(units[u][k].name) || (entry == Main && units[u][k].name == "main")
    ensures PlaceUnits(units, [], EMPTY).Some? && |Tables(units).0| == |units|
    ensures At(units, u, k) == Some(Linked(units, image, entry).value.entry)
  {
    hide PlaceUnits, Linked, Scope, Reached;
    LinkStands(units, image, entry, u, k);
    EntryStands(units, image, entry);
    OneKindOf(units, image, entry);
  }

  /** No name of a finished link is both a label and a constant. */
  lemma OneKindOf(units: seq<seq<Item>>, image: Option<int>, entry: Entry)
    requires Linked(units, image, entry).Some?
    ensures OneKind(Linked(units, image, entry).value.symbols)
  {
    hide PlaceUnits, EmitUnits, PutAll, Length, OneKind, EntryOf;
    EmptyOneKind();
    PlaceUnitsFacts(units, [], EMPTY);
  }

  // ----------------------------------------------------------------- what is accepted

  predicate ValueIn(e: Expr, syms: Table, lo: int, hi: int)
  {
    var v := Ex.Parse(e, Flat(syms)); v.Some? && lo <= v.value <= hi
  }

  /** A line that can be emitted: every value in the range of its place, and no label where a number of
      eight bits is wanted. */
  predicate Worthy(it: Item, syms: Table)
  {
    match it
    case Bytes(es) => forall j :: 0 <= j < |es| ==> ValueIn(es[j], syms, 0, 255)
    case Words(es) => forall j :: 0 <= j < |es| ==> ValueIn(es[j], syms, 0, 65535)
    case Line(_, _, _, slot) =>
      && Matched(it)
      && (match slot
          case Settled(_) => true
          case Address(e) => ValueIn(e, syms, 0, 65535)
          case Immediate(e) => !NamesLabel(e, syms) && ValueIn(e, syms, 0, 255)
          case Signed(e) => !NamesLabel(e, syms) && ValueIn(e, syms, -128, 127)
          case Frame(negative, e) =>
            !NamesLabel(e, syms) && ValueIn(e, syms, if negative then -127 else -128, if negative then 128 else 127))
    case _ => true
  }

  lemma {:induction false} CellsAccepted(es: seq<Expr>, syms: Table, at: int, width: nat)
    requires width == 1 || width == 2
    ensures Cells(es, syms, at, width).Some? <==>
      forall j :: 0 <= j < |es| ==> ValueIn(es[j], syms, 0, if width == 1 then 255 else 65535)
  {
    hide Ex.Parse;
    if es != [] {
      CellsAccepted(es[1..], syms, at + width, width);
      assert forall j :: 0 < j < |es| ==> es[j] == es[1..][j - 1];
      assert forall j :: 0 <= j < |es[1..]| ==> es[1..][j] == es[j + 1];
    }
  }

  lemma EncodesPlain(i: Asm.Ins)
    requires Asm.Accepted(i) && !i.arg.Ref?
    ensures Asm.Encode(i, map[], true).Some?
  {
    hide Asm.Table, Asm.CodeBytes, Asm.OperandBytes;
  }

  /** A line is emitted exactly when it is worthy, wherever it stands. */
  lemma ItemAccepted(it: Item, syms: Table, at: int)
    requires !it.Org?
    ensures ItemBlocks(it, syms, at).Some? <==> Worthy(it, syms)
  {
    hide Ex.Parse, NamesLabel, Cells, Asm.Encode, Asm.Accepted, ValueIn;
    match it
    case Bytes(es) => CellsAccepted(es, syms, at, 1);
    case Words(es) => CellsAccepted(es, syms, at, 2);
    case Line(sel, d, s, slot) =>
      SlotAccepted(slot, syms);
      if Matched(it) && Rendered(slot, syms).Some? {
        RenderedAccepted(it, syms);
        RenderedPlain(slot, syms, it);
        EncodesPlain(Asm.Ins(sel, d, s, Rendered(slot, syms).value));
      }
    case _ =>
  }

  lemma SlotAccepted(slot: Slot, syms: Table)
    ensures Rendered(slot, syms).Some? <==>
      match slot
      case Settled(_) => true
      case Address(e) => ValueIn(e, syms, 0, 65535)
      case Immediate(e) => !NamesLabel(e, syms) && ValueIn(e, syms, 0, 255)
      case Signed(e) => !NamesLabel(e, syms) && ValueIn(e, syms, -128, 127)
      case Frame(negative, e) =>
        !NamesLabel(e, syms) && ValueIn(e, syms, if negative then -127 else -128, if negative then 128 else 127)
  {
    hide Ex.Parse, NamesLabel;
  }

  /** A unit is emitted exactly when each of its lines is, and every `.org` has a value. */
  lemma {:induction false} UnitAccepted(items: seq<Item>, env: Ex.Symbols, syms: Table, pc: int)
    ensures Emitted(items, env, syms, pc).Some? <==>
      forall k :: 0 <= k < |items| ==>
        if items[k].Org? then Ex.Parse(items[k].e, env).Some? else Worthy(items[k], syms)
  {
    hide Ex.Parse, ItemBlocks, Worthy, Size;
    if items != [] {
      assert forall k :: 0 < k < |items| ==> items[k] == items[1..][k - 1];
      assert forall k :: 0 <= k < |items[1..]| ==> items[1..][k] == items[k + 1];
      if items[0].Org? {
        var v := Ex.Parse(items[0].e, env);
        if v.Some? {
          UnitAccepted(items[1..], env, syms, v.value);
        }
      } else {
        ItemAccepted(items[0], syms, pc);
        UnitAccepted(items[1..], env, syms, pc + Size(items[0]));
      }
    }
  }

  /** Every unit is emitted exactly when each line of each is, under its own unit's scope. */
  lemma {:induction false} UnitsAccepted(units: seq<seq<Item>>, tables: seq<Table>, merged: Table, u: nat)
    requires u <= |units| == |tables|
    ensures EmitUnits(units, tables, merged, u).Some? <==>
      forall i, k :: u <= i < |units| && 0 <= k < |units[i]| ==> Emits(units[i][k], Scope(tables, i), merged)
    decreases |units| - u
  {
    hide Emitted, Scope, Emits;
    if u < |units| {
      UnitEmits(units[u], Scope(tables, u), merged);
      UnitsAccepted(units, tables, merged, u + 1);
    }
  }

  predicate Emits(it: Item, env: Ex.Symbols, syms: Table)
  {
    if it.Org? then Ex.Parse(it.e, env).Some? else Worthy(it, syms)
  }

  lemma UnitEmits(items: seq<Item>, env: Ex.Symbols, syms: Table)
    ensures Emitted(items, env, syms, 0).Some? <==> forall k :: 0 <= k < |items| ==> Emits(items[k], env, syms)
  {
    hide Emitted, Worthy, Ex.Parse;
    UnitAccepted(items, env, syms, 0);
  }

  /** The address an entry names. */
  function StartOf(syms: Table, entry: Entry): Option<int>
  {
    match entry
    case At(a) => Some(a)
    case Named(n) => if Known(syms, n) then Some(Flat(syms)[n]) else None
    case Main => if Known(syms, "main") then Some(Flat(syms)["main"]) else Some(0)
  }

  /** A load is finished exactly when its length covers its content and stays inside CODE, and its entry
      is an address inside the content, if there is any; an entry that was asked for is a word. */
  lemma FinishAccepted(syms: Table, m: Memory, image: Option<int>, entry: Entry)
    ensures Finished(syms, m, image, entry).Some? <==>
      && (match image case Some(n) => 1 <= n <= CODE_SIZE && m.high <= n case None => m.high <= CODE_SIZE)
      && var a := StartOf(syms, entry);
         && a.Some? && (!entry.Main? ==> 0 <= a.value <= 65535)
         && (m.high > 0 ==> a.value < m.high)
  {
    hide NextPow2;
    FlatKnown(syms);
    if image.None? {
      LengthFound(m.high);
    }
  }

  lemma LengthFound(high: int)
    ensures NextPow2(Needed(high)) <= CODE_SIZE <==> high <= CODE_SIZE
  {
    hide NextPow2;
    PowCovers(Needed(high));
    var k: nat :| NextPow2(Needed(high)) == Pow2(k);
    Pow2Data();
    if k > 12 {
      PowerGrows(13, k);
    } else {
      PowerGrows(k, 12);
    }
    assert NextPow2(1) == 1 by { NextOfOne(); }
  }

  lemma NextOfOne()
    ensures NextPow2(1) == 1
  {
  }

  lemma {:induction false} PowerGrows(j: nat, k: nat)
    requires j <= k
    ensures Pow2(j) <= Pow2(k)
  {
    if j < k {
      PowerGrows(j, k - 1);
    }
  }

  /** A link is accepted exactly when its units can be placed, every line can be emitted, the blocks stay
      inside CODE and off each other, and the load can be finished. */
  lemma LinkAccepted(units: seq<seq<Item>>, image: Option<int>, entry: Entry)
    ensures Linked(units, image, entry).Some? <==>
      && units != [] && PlaceUnits(units, [], EMPTY).Some? && |Tables(units).0| == |units|
      && var (tables, merged) := Tables(units);
      && (forall i, k :: 0 <= i < |units| && 0 <= k < |units[i]| ==> Emits(units[i][k], Scope(tables, i), merged))
      && var blocks := EmitUnits(units, tables, merged, 0);
      && blocks.Some? && Placeable(blocks.value) && PutAll(BLANK, blocks.value).Some?
      && Finished(merged, PutAll(BLANK, blocks.value).value, image, entry).Some?
  {
    hide PlaceUnits, EmitUnits, PutAll, Finished, Scope, Emits, Placeable, Clear;
    if units != [] && PlaceUnits(units, [], EMPTY).Some? {
      PlaceUnitsCounts(units, [], EMPTY);
      var (tables, merged) := Tables(units);
      UnitsAccepted(units, tables, merged, 0);
      var blocks := EmitUnits(units, tables, merged, 0);
      if blocks.Some? {
        PutAllIff(BLANK, blocks.value);
      }
    }
  }

  predicate Defining(it: Item) { it.Label? || it.Equ? }

  /** What the place pass asks of a line under what is known so far. */
  predicate Definite(it: Item, env: Ex.Symbols)
  {
    match it
    case Equ(_, e) => Ex.Parse(e, env).Some?
    case Org(e) => Ex.Parse(e, env).Some? && 0 <= Ex.Parse(e, env).value <= CODE_SIZE
    case Bytes(es) => es != []
    case Words(es) => es != []
    case Line(_, _, _, _) => Matched(it)
    case _ => true
  }

  /** Line `k` goes through, behind the lines in front of it. */
  ghost predicate Passes(items: seq<Item>, outer: Ex.Symbols, p: Placing, k: nat)
    requires k < |items|
  {
    && Placed(items[..k], outer, p).Some?
    && Definite(items[k], outer + Flat(Placed(items[..k], outer, p).value.tab))
    && (Defining(items[k]) ==> !Known(p.tab, items[k].name) && items[k].name !in Names(items[..k]))
  }

  /** A unit is placed exactly when every line goes through: each value is known where it stands, each
      `.org` stays inside CODE, and no name is defined twice. */
  lemma {:induction false} PlacedAccepted(items: seq<Item>, outer: Ex.Symbols, p: Placing)
    ensures Placed(items, outer, p).Some? <==> forall k :: 0 <= k < |items| ==> Passes(items, outer, p, k)
  {
    hide Ex.Parse, Matched, Definite, Size;
    if items != [] {
      FirstPasses(items, outer, p);
      var q := PlaceItem(items[0], outer, p);
      if q.Some? {
        PlacedAccepted(items[1..], outer, q.value);
        forall k | 0 < k < |items| ensures Passes(items, outer, p, k) <==> Passes(items[1..], outer, q.value, k - 1) {
          NextPasses(items, outer, p, k);
        }
        assert forall k :: 0 <= k < |items[1..]| ==>
          (Passes(items[1..], outer, q.value, k) <==> Passes(items, outer, p, k + 1));
      } else {
        assert !Passes(items, outer, p, 0);
      }
    }
  }

  lemma FirstPasses(items: seq<Item>, outer: Ex.Symbols, p: Placing)
    requires items != []
    ensures Passes(items, outer, p, 0) <==> PlaceItem(items[0], outer, p).Some?
  {
    hide Ex.Parse, Matched, Size;
    assert items[..0] == [];
  }

  lemma NextPasses(items: seq<Item>, outer: Ex.Symbols, p: Placing, k: nat)
    requires 0 < k < |items| && PlaceItem(items[0], outer, p).Some?
    ensures Passes(items, outer, p, k) <==> Passes(items[1..], outer, PlaceItem(items[0], outer, p).value, k - 1)
  {
    hide Ex.Parse, Matched, Definite, Size;
    assert items[..k] == [items[0]] + items[1..][..k - 1] && items[..k][1..] == items[1..][..k - 1];
  }

  /** Tables agree exactly when their union keeps what the first one held, with no name of two kinds. */
  lemma AgreesIff(m: Table, t: Table)
    requires OneKind(m) && OneKind(t)
    ensures Agrees(m, t) <==> OneKind(Join(m, t)) && Includes(Join(m, t), m)
  {
    if OneKind(Join(m, t)) && Includes(Join(m, t), m) {
      forall n | n in t.addr && Known(m, n) ensures n in m.addr && m.addr[n] == t.addr[n] {
        assert n in Join(m, t).addr;
      }
      forall n | n in t.consts && Known(m, n) ensures n in m.consts && m.consts[n] == t.consts[n] {
        assert n in Join(m, t).consts;
      }
    }
  }
}
