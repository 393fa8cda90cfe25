/** The assembler over the lines of a source, operands as they are written: which line is accepted,
    which operand stands for a label, and that what it emits is what the assembler of instructions
    emits for the lines' meanings. */
module Sources {
  import opened Bits
  import opened Isa
  import opened Forms
  import opened Encodings
  import Asm = Assembler

  // ------------------------------------------------------------ one line

  /** The operand that goes behind the code bytes. */
  datatype Slot = NoSlot | Slot(kind: Kind, a: Arg)

  function SlotOf(s: Shape, args: seq<Arg>): Slot
    requires Takes(s, args, false)
  {
    match s
    case Bare => NoSlot
    case One(a) => if Width(a) > 0 then Slot(a, args[0]) else NoSlot
    case Two(a, b) =>
      if Width(a) > 0 then Slot(a, args[0]) else if Width(b) > 0 then Slot(b, args[1]) else NoSlot
  }

  /** The first register in the code bytes, and the second: the same when there is one. */
  function FieldD(s: Shape, args: seq<Arg>): reg
    requires Takes(s, args, false)
  {
    match s
    case Bare => 0
    case One(a) => if a.KReg? then args[0].k else 0
    case Two(a, b) => if a.KReg? then args[0].k else if b.KReg? then args[1].k else 0
  }

  function FieldS(s: Shape, args: seq<Arg>): reg
    requires Takes(s, args, false)
  {
    match s
    case Bare => 0
    case One(a) => if a.KReg? then args[0].k else 0
    case Two(a, b) => if b.KReg? then args[1].k else if a.KReg? then args[0].k else 0
  }

  predicate InWord(v: int) { 0 <= v <= 0xFFFF }

  /** A displacement with a sign of its own behind the sign of `[HL+d]`. */
  predicate Signed(text: string)
  {
    exists c :: c in text && (c == '+' || c == '-' || c == '[')
  }

  predicate Fitted(v: Slot)
  {
    v.Slot? ==> Width(v.kind) > 0 && Fits(v.kind, v.a, false)
  }

  /** An operand of two bytes: a number or a name, with its text. */
  predicate Wide(v: Slot)
    requires v.Slot?
  {
    v.kind.KA16? || v.kind.KI16?
  }

  function TextOf(v: Slot): string
    requires v.Slot? && Fitted(v) && Wide(v)
  {
    if v.a.Number? then v.a.text else v.a.name
  }

  lemma SlotFitted(s: Shape, args: seq<Arg>)
    requires Takes(s, args, false)
    ensures Fitted(SlotOf(s, args))
  {
  }

  /** What an operand is worth. In the first pass a name not yet seen stands for 0; a label spelled
      like a number wins over the number, and is refused where a byte is wanted. */
  function Worth(v: Slot, labels: Asm.Labels, strict: bool): Option<nat>
    requires v.Slot? && Fitted(v)
  {
    if v.kind.KRcanon? then Some(v.a.k)
    else if v.kind.KFrame? then
      if v.a.AtHl? then Some(0)
      else if Signed(v.a.text) || v.a.text in labels then None
      else Some(Displacement(v.a) % 256)
    else if Wide(v) then
      if TextOf(v) in labels then
        if InWord(labels[TextOf(v)]) then Some(labels[TextOf(v)]) else None
      else if v.a.Number? then Some(v.a.v)
      else if v.a.hidden.Some? then
        if InWord(v.a.hidden.value) then Some(v.a.hidden.value) else None
      else if strict then None else Some(0)
    else if v.a.text in labels then None
    else Some(v.a.v % 256)
  }

  function Tail(v: Slot, w: nat): seq<byte>
    requires v.Slot?
  {
    if Width(v.kind) == 2 then [w % 256, w / 256 % 256] else [w % 256]
  }

  /** A line's bytes: code bytes with the registers in them, the operand behind. */
  function Emitted(n: Mnemonic, args: seq<Arg>, labels: Asm.Labels, strict: bool): Option<seq<byte>>
  {
    match Match(n, args, false)
    case None => None
    case Some(k) =>
      MatchTakes(n, args);
      FormsFit(n, k);
      var s := FormOf(n, k);
      SlotFitted(s, args);
      var code := Asm.CodeBytes(Op(n, k), FieldD(s, args), FieldS(s, args));
      var v := SlotOf(s, args);
      if v.NoSlot? then Some(code)
      else
        match Worth(v, labels, strict)
        case None => None
        case Some(w) => Some(code + Tail(v, w))
  }

  lemma MatchTakes(n: Mnemonic, args: seq<Arg>)
    ensures var m := Match(n, args, false); m.Some? ==> Taken(n, m.value, args, false)
  {
    hide FormOf, Count, Takes;
    MatchIsUnique(n, args, false);
  }

  // ------------------------------------------------------- what a line means

  /** What an operand stands for, once it is known which names are labels. */
  function OperandOf(v: Slot, names: set<string>): Option<Asm.Operand>
    requires Fitted(v)
  {
    if v.NoSlot? then Some(Asm.NoOperand)
    else
      if v.kind.KRcanon? then Some(Asm.Byte(v.a.k))
      else if v.kind.KFrame? then
        if v.a.AtHl? then Some(Asm.Byte(0))
        else if Signed(v.a.text) || v.a.text in names then None
        else Some(Asm.Byte(Displacement(v.a) % 256))
      else if Wide(v) then
        if TextOf(v) in names || (v.a.Symbol? && v.a.hidden.None?) then Some(Asm.Ref(TextOf(v)))
        else if v.a.Number? then Some(Asm.Word16(v.a.v))
        else if InWord(v.a.hidden.value) then Some(Asm.Word16(v.a.hidden.value)) else None
      else if v.a.text in names then None
      else Some(Asm.Byte(v.a.v % 256))
  }

  /** A name that reads as a number no word holds is refused where its label does not stand yet. */
  predicate Early(v: Slot, seen: set<string>)
    requires Fitted(v)
  {
    && v.Slot? && Wide(v) && v.a.Symbol? && v.a.hidden.Some?
    && !InWord(v.a.hidden.value) && v.a.name !in seen
  }

  /** The instruction a line means. */
  function Meaning(n: Mnemonic, args: seq<Arg>, names: set<string>): Option<Asm.Ins>
  {
    match Match(n, args, false)
    case None => None
    case Some(k) =>
      MatchTakes(n, args);
      var s := FormOf(n, k);
      SlotFitted(s, args);
      match OperandOf(SlotOf(s, args), names)
      case None => None
      case Some(o) => Some(Asm.Ins(Op(n, k), FieldD(s, args), FieldS(s, args), o))
  }

  predicate TooEarly(n: Mnemonic, args: seq<Arg>, seen: set<string>)
  {
    match Match(n, args, false)
    case None => false
    case Some(k) =>
      MatchTakes(n, args);
      var s := FormOf(n, k);
      SlotFitted(s, args);
      Early(SlotOf(s, args), seen)
  }

  /** Operand bytes of the width the encoding has. */
  predicate Sized(o: Asm.Operand, x: Sel)
  {
    match Asm.OperandBytes(x)
    case 0 => o.NoOperand?
    case 1 => o.Byte? && (x.AddiHl? || x.AddiDe? ==> o.b < 4)
    case _ => o.Word16? || o.Ref?
  }

  lemma OperandSized(s: Shape, args: seq<Arg>, x: Sel, names: set<string>)
    requires Takes(s, args, false) && !x.Bad? && Fitting(s, x)
    ensures Fitted(SlotOf(s, args))
    ensures var o := OperandOf(SlotOf(s, args), names); o.Some? ==> Sized(o.value, x)
  {
    hide Asm.Table, Asm.OperandBytes;
  }

  lemma FieldsMeet(s: Shape, args: seq<Arg>, x: Sel)
    requires Takes(s, args, false) && !x.Bad? && Fitting(s, x)
    ensures Asm.Table(x).fields == 0 ==> FieldD(s, args) == 0 && FieldS(s, args) == 0
    ensures Asm.Table(x).fields == 1 ==> FieldD(s, args) == FieldS(s, args)
  {
    hide Asm.Table, Asm.OperandBytes;
  }

  /** What a line means is an instruction the encoder accepts. */
  lemma MeaningAccepted(n: Mnemonic, args: seq<Arg>, names: set<string>)
    ensures var m := Meaning(n, args, names); m.Some? ==> Asm.Accepted(m.value)
  {
    hide FormOf, Op, Asm.Table, Asm.OperandBytes, Takes, SlotOf, FieldD, FieldS, OperandOf, Match, Fitting;
    if Meaning(n, args, names).Some? {
      MatchTakes(n, args);
      var k := Match(n, args, false).value;
      FormsFit(n, k);
      OperandSized(FormOf(n, k), args, Op(n, k), names);
      FieldsMeet(FormOf(n, k), args, Op(n, k));
    }
  }

  // ------------------------------------------------------- the two passes over a line

  /** Under the finished labels a line emits what its meaning encodes as. */
  lemma SecondEmits(n: Mnemonic, args: seq<Arg>, labels: Asm.Labels)
    ensures var m := Meaning(n, args, labels.Keys);
      && (m.Some? ==> Asm.Accepted(m.value))
      && Emitted(n, args, labels, true) == (if m.None? then None else Asm.Encode(m.value, labels, true))
  {
    hide FormOf, Op, Asm.Table, Asm.OperandBytes, Takes, SlotOf, FieldD, FieldS, Match, Fitting, Asm.CodeBytes,
         Asm.Accepted;
    MeaningAccepted(n, args, labels.Keys);
    MatchTakes(n, args);
    if Match(n, args, false).Some? {
      var k := Match(n, args, false).value;
      SlotFitted(FormOf(n, k), args);
    }
  }

  /** Under the labels met so far a line is refused or as long as its meaning. */
  lemma FirstEmits(n: Mnemonic, args: seq<Arg>, labels: Asm.Labels, names: set<string>)
    requires labels.Keys <= names && Meaning(n, args, names).Some?
    ensures var i := Meaning(n, args, names).value;
      && Asm.Accepted(i)
      && var b, c := Emitted(n, args, labels, false), Asm.Encode(i, labels, false);
      && (b.Some? <==> !TooEarly(n, args, labels.Keys) && c.Some?)
      && (b.Some? ==> |b.value| == |c.value|)
  {
    hide FormOf, Op, Asm.Table, Asm.OperandBytes, Takes, SlotOf, FieldD, FieldS, Match, Fitting, Asm.CodeBytes,
         Asm.Accepted;
    MeaningAccepted(n, args, names);
    MatchTakes(n, args);
    if Match(n, args, false).Some? {
      var k := Match(n, args, false).value;
      SlotFitted(FormOf(n, k), args);
    }
  }

  lemma EarlyRefused(n: Mnemonic, args: seq<Arg>, labels: Asm.Labels)
    requires TooEarly(n, args, labels.Keys)
    ensures Emitted(n, args, labels, false) == None
  {
    hide FormOf, Op, Takes, SlotOf, FieldD, FieldS, Match, Asm.CodeBytes;
  }

  // ------------------------------------------------------------- the two passes

  /** A line without its comment: a label, or a mnemonic with its operands. */
  datatype Line = Label(name: string) | Code(n: Mnemonic, args: seq<Arg>)

  function FirstPass(lines: seq<Line>, at: nat, labels: Asm.Labels): Option<Asm.Labels>
  {
    if lines == [] then Some(labels)
    else
      match lines[0]
      case Label(name) => if name in labels then None else FirstPass(lines[1..], at, labels[name := at])
      case Code(n, args) =>
        (match Emitted(n, args, labels, false)
         case None => None
         case Some(b) => FirstPass(lines[1..], at + |b|, labels))
  }

  function SecondPass(lines: seq<Line>, labels: Asm.Labels): Option<seq<byte>>
  {
    if lines == [] then Some([])
    else
      match lines[0]
      case Label(_) => SecondPass(lines[1..], labels)
      case Code(n, args) =>
        (match Emitted(n, args, labels, true)
         case None => None
         case Some(b) =>
           match SecondPass(lines[1..], labels)
           case None => None
           case Some(rest) => Some(b + rest))
  }

  function Assembled(lines: seq<Line>): Option<seq<byte>>
  {
    match FirstPass(lines, 0, map[])
    case None => None
    case Some(labels) =>
      match SecondPass(lines, labels)
      case None => None
      case Some(out) => if |out| <= CODE_SIZE then Some(out) else None
  }

  /** The labels of a source. */
  function Names(lines: seq<Line>): set<string>
  {
    if lines == [] then {}
    else (if lines[0].Label? then {lines[0].name} else {}) + Names(lines[1..])
  }

  /** The instructions the lines mean, behind the labels `seen`. */
  function Items(lines: seq<Line>, seen: set<string>, names: set<string>): Option<seq<Asm.Item>>
  {
    if lines == [] then Some([])
    else
      match lines[0]
      case Label(name) =>
        (match Items(lines[1..], seen + {name}, names)
         case None => None
         case Some(rest) => Some([Asm.Label(name)] + rest))
      case Code(n, args) =>
        (match Meaning(n, args, names)
         case None => None
         case Some(i) =>
           if TooEarly(n, args, seen) then None
           else
             match Items(lines[1..], seen, names)
             case None => None
             case Some(rest) => Some([Asm.Code(i)] + rest))
  }

  /** The first pass leaves the labels it was given and those of the lines. */
  lemma {:induction false} FirstPassNames(lines: seq<Line>, at: nat, labels: Asm.Labels)
    ensures var f := FirstPass(lines, at, labels); f.Some? ==> f.value.Keys == labels.Keys + Names(lines)
  {
    hide Emitted;
    if lines != [] {
      match lines[0]
      case Label(name) =>
        FirstPassNames(lines[1..], at, labels[name := at]);
      case Code(n, args) =>
        var b := Emitted(n, args, labels, false);
        if b.Some? {
          FirstPassNames(lines[1..], at + |b.value|, labels);
        }
    }
  }

  /** Lines that mean instructions go through the first pass as those do. */
  lemma {:induction false} FirstPasses(lines: seq<Line>, at: nat, labels: Asm.Labels, names: set<string>)
    requires labels.Keys + Names(lines) <= names
    ensures var m := Items(lines, labels.Keys, names);
      m.Some? ==> FirstPass(lines, at, labels) == Asm.FirstPass(m.value, at, labels)
  {
    hide Emitted, Meaning, TooEarly, Asm.Encode, Asm.Accepted;
    var m := Items(lines, labels.Keys, names);
    if lines != [] && m.Some? {
      var rest := lines[1..];
      match lines[0]
      case Label(name) =>
        var more := labels[name := at];
        assert more.Keys == labels.Keys + {name};
        FirstPasses(rest, at, more, names);
        assert m.value[1..] == Items(rest, labels.Keys + {name}, names).value;
      case Code(n, args) =>
        FirstEmits(n, args, labels, names);
        var b := Emitted(n, args, labels, false);
        assert m.value[1..] == Items(rest, labels.Keys, names).value;
        if b.Some? {
          FirstPasses(rest, at + |b.value|, labels, names);
        }
    }
  }

  lemma {:induction false} SecondPasses(lines: seq<Line>, seen: set<string>, labels: Asm.Labels)
    ensures var m := Items(lines, seen, labels.Keys);
      m.Some? ==> SecondPass(lines, labels) == Asm.SecondPass(m.value, labels)
  {
    hide Emitted, Meaning, TooEarly, Asm.Encode, Asm.Accepted;
    var m := Items(lines, seen, labels.Keys);
    if lines != [] && m.Some? {
      var rest := lines[1..];
      match lines[0]
      case Label(name) =>
        SecondPasses(rest, seen + {name}, labels);
        assert m.value[1..] == Items(rest, seen + {name}, labels.Keys).value;
      case Code(n, args) =>
        SecondEmits(n, args, labels);
        SecondPasses(rest, seen, labels);
        assert m.value[1..] == Items(rest, seen, labels.Keys).value;
    }
  }

  /** Lines that both passes accept mean instructions. */
  lemma {:induction false} PassedMeans(lines: seq<Line>, at: nat, labels: Asm.Labels, done: Asm.Labels)
    requires FirstPass(lines, at, labels).Some? && SecondPass(lines, done).Some?
    ensures Items(lines, labels.Keys, done.Keys).Some?
  {
    hide Emitted, Meaning, TooEarly, Asm.Encode, Asm.Accepted;
    if lines != [] {
      var rest := lines[1..];
      match lines[0]
      case Label(name) =>
        var more := labels[name := at];
        assert more.Keys == labels.Keys + {name};
        PassedMeans(rest, at, more, done);
      case Code(n, args) =>
        SecondEmits(n, args, done);
        if TooEarly(n, args, labels.Keys) {
          EarlyRefused(n, args, labels);
        }
        PassedMeans(rest, at + |Emitted(n, args, labels, false).value|, labels, done);
    }
  }

  /** The assembler of lines is the assembler of instructions over what the lines mean: a source is
      refused when some line means nothing, and otherwise assembles to the same bytes or not at all. */
  lemma TextIsItems(lines: seq<Line>)
    ensures var m := Items(lines, {}, Names(lines));
      Assembled(lines) == if m.None? then None else Asm.Assembled(m.value)
  {
    hide FirstPass, SecondPass, Items, Names, Asm.FirstPass, Asm.SecondPass;
    var none: Asm.Labels := map[];
    assert none.Keys == {};
    var names := Names(lines);
    FirstPassNames(lines, 0, none);
    FirstPasses(lines, 0, none, names);
    var f := FirstPass(lines, 0, none);
    if f.Some? {
      assert f.value.Keys == names;
      SecondPasses(lines, {}, f.value);
      if SecondPass(lines, f.value).Some? {
        PassedMeans(lines, 0, none, f.value);
      }
    }
  }

  // ------------------------------------------------------- what is refused, what is not

  /** A byte operand spelled like a label. */
  predicate NamesLabel(v: Slot, names: set<string>)
    requires Fitted(v)
  {
    && v.Slot? && !Wide(v) && (v.a.Number? || v.a.Displaced?) && v.a.text in names
  }

  predicate BorrowsLabel(n: Mnemonic, args: seq<Arg>, names: set<string>)
  {
    match Match(n, args, false)
    case None => false
    case Some(k) =>
      MatchTakes(n, args);
      SlotFitted(FormOf(n, k), args);
      NamesLabel(SlotOf(FormOf(n, k), args), names)
  }

  lemma BorrowedMeansNothing(n: Mnemonic, args: seq<Arg>, names: set<string>)
    requires BorrowsLabel(n, args, names)
    ensures Meaning(n, args, names) == None
  {
    hide FormOf, Op, Takes, SlotOf, FieldD, FieldS, Match;
    MatchTakes(n, args);
    SlotFitted(FormOf(n, Match(n, args, false).value), args);
  }

  lemma {:induction false} ItemsRefused(lines: seq<Line>, k: nat, seen: set<string>, names: set<string>)
    requires k < |lines| && lines[k].Code? && Meaning(lines[k].n, lines[k].args, names) == None
    ensures Items(lines, seen, names) == None
  {
    hide Meaning, TooEarly;
    if k > 0 {
      assert lines[1..][k - 1] == lines[k];
      ItemsRefused(lines[1..], k - 1, if lines[0].Label? then seen + {lines[0].name} else seen, names);
    }
  }

  /** A byte operand that names a label, defined anywhere in the source, is refused. */
  lemma ByteLabelRefused(lines: seq<Line>, k: nat)
    requires k < |lines| && lines[k].Code? && BorrowsLabel(lines[k].n, lines[k].args, Names(lines))
    ensures Assembled(lines) == None
  {
    hide Assembled, Items, Names, BorrowsLabel, Meaning;
    BorrowedMeansNothing(lines[k].n, lines[k].args, Names(lines));
    ItemsRefused(lines, k, {}, Names(lines));
    TextIsItems(lines);
  }

  /** One line with no label about. */
  lemma OneLine(n: Mnemonic, args: seq<Arg>)
    ensures var b, c := Emitted(n, args, map[], false), Emitted(n, args, map[], true);
      Assembled([Code(n, args)]) == if b.Some? && c.Some? && |c.value| <= CODE_SIZE then c else None
  {
    hide Emitted;
    var lines, none: Asm.Labels := [Code(n, args)], map[];
    var b, c := Emitted(n, args, none, false), Emitted(n, args, none, true);
    assert lines[1..] == [];
    if b.Some? {
      assert FirstPass(lines[1..], |b.value|, none) == Some(none);
      assert FirstPass(lines, 0, none) == Some(none);
    }
    if c.Some? {
      assert SecondPass(lines[1..], none) == Some([]);
      assert c.value + [] == c.value;
    }
  }

  /** A form that matches does not yet encode: `LDX r0, [HL+-5]`. */
  lemma SecondSignRefused()
    ensures var args := [Register(0), Displaced(false, "-5", Some(-5))];
      Match(Only(Ldx), args, false) == Some(0) && Assembled([Code(Only(Ldx), args)]) == None
  {
    hide Assembled;
    var args := [Register(0), Displaced(false, "-5", Some(-5))];
    assert Taken(Only(Ldx), 0, args, false);
    MatchIsUnique(Only(Ldx), args, false);
    assert "-5"[0] == '-' && '-' in "-5" && Signed("-5");
    OneLine(Only(Ldx), args);
  }

  /** A name nothing defines is not always refused: `JMP _10` jumps to 10. */
  lemma HiddenNumberAssembles()
    ensures Assembled([Code(Only(Jmp), [Symbol("_10", Some(10))])]) == Some([0x09, 10, 0])
  {
    hide Assembled;
    var args := [Symbol("_10", Some(10))];
    assert Taken(Only(Jmp), 0, args, false);
    MatchIsUnique(Only(Jmp), args, false);
    OneLine(Only(Jmp), args);
    assert Op(Only(Jmp), 0) == Jmp && Asm.CodeBytes(Jmp, 0, 0) == [0x09];
    assert [0x09] + [10, 0] == [0x09, 10, 0];
    assert Emitted(Only(Jmp), args, map[], true) == Some([0x09] + [10, 0]);
    assert Emitted(Only(Jmp), args, map[], false) == Some([0x09] + [10, 0]);
  }

  // ------------------------------------------------------- spelling an instruction

  type Print = (Kind, int) -> string

  /** Numbers are printed as texts that are no label and, in a displacement, carry no sign. */
  ghost predicate Prints(show: Print, names: set<string>)
  {
    && (forall k, v :: show(k, v) !in names)
    && (forall v :: 0 <= v ==> !Signed(show(KFrame, v)))
  }

  function Spelling(kind: Kind, r: reg, o: Asm.Operand, show: Print): Arg
    requires Width(kind) == 1 ==> o.Byte? && (kind.KRcanon? ==> o.b < 4)
    requires Width(kind) == 2 ==> o.Word16? || o.Ref?
  {
    if kind.KReg? then Register(r)
    else if kind.KHl? then Hl
    else if kind.KDe? then De
    else if kind.KSp? then Sp
    else if kind.KMb? then Mb
    else if kind.KAtHl? then AtHl
    else if kind.KAtDe? then AtDe
    else if kind.KRcanon? then Register(o.b)
    else if Width(kind) == 2 then
      if o.Ref? then Symbol(o.name, None) else Number(show(kind, o.w), o.w)
    else if kind.KI8? || kind.KTrap? then Number(show(kind, o.b), o.b)
    else
      var v := if o.b < 128 then o.b else o.b - 256;
      if kind.KSoff? then Number(show(kind, v), v)
      else if v == 0 then AtHl
      else if v < 0 then Displaced(true, show(kind, -v), Some(-v)) else Displaced(false, show(kind, v), Some(v))
  }

  /** An operand of the width its shape has room for. */
  predicate Spellable(s: Shape, i: Asm.Ins)
  {
    && !i.sel.Bad? && Fitting(s, i.sel) && Asm.Accepted(i)
  }

  function Spelled(s: Shape, i: Asm.Ins, show: Print): seq<Arg>
    requires Spellable(s, i)
  {
    match s
    case Bare => []
    case One(a) => [Spelling(a, i.d, i.arg, show)]
    case Two(a, b) => [Spelling(a, i.d, i.arg, show), Spelling(b, i.s, i.arg, show)]
  }

  lemma SpelledBare(i: Asm.Ins, show: Print, names: set<string>)
    requires Spellable(Bare, i)
    ensures SpellsBack(Bare, i, show, names)
  {
    hide Asm.Table, Asm.OperandBytes;
  }

  lemma SpelledOne(a: Kind, i: Asm.Ins, show: Print, names: set<string>)
    requires Spellable(One(a), i) && Prints(show, names)
    ensures SpellsBack(One(a), i, show, names)
  {
    hide Asm.Table, Asm.OperandBytes;
  }

  lemma SpelledTwo(a: Kind, b: Kind, i: Asm.Ins, show: Print, names: set<string>)
    requires Spellable(Two(a, b), i) && Prints(show, names)
    ensures SpellsBack(Two(a, b), i, show, names)
  {
    hide Asm.Table, Asm.OperandBytes;
  }

  /** A spelling is of the shape it spells, and means the instruction. */
  ghost predicate SpellsBack(s: Shape, i: Asm.Ins, show: Print, names: set<string>)
    requires Spellable(s, i)
  {
    var args := Spelled(s, i, show);
    && Takes(s, args, false) && Fitted(SlotOf(s, args))
    && OperandOf(SlotOf(s, args), names) == Some(i.arg) && !Early(SlotOf(s, args), {})
    && FieldD(s, args) == i.d && FieldS(s, args) == i.s
  }

  /** The place of the form that encodes as `x`. */
  ghost function HomeOf(x: Sel): (h: (Mnemonic, nat))
    requires !x.Bad?
    ensures Encodes(h.0, h.1, x)
  {
    EncodingsListed(x);
    var n, k: nat :| Encodes(n, k, x);
    (n, k)
  }

  /** The line of an instruction. */
  ghost function LineOf(i: Asm.Ins, show: Print): Line
    requires Asm.Accepted(i)
  {
    var (n, k) := HomeOf(i.sel);
    FormsFit(n, k);
    Code(n, Spelled(FormOf(n, k), i, show))
  }

  /** Every instruction the encoder accepts has a spelling the forms accept, and the line means it. */
  lemma EveryInsSpelled(i: Asm.Ins, show: Print, names: set<string>)
    requires Asm.Accepted(i) && Prints(show, names)
    ensures var l := LineOf(i, show);
      && l.Code? && Meaning(l.n, l.args, names) == Some(i) && !TooEarly(l.n, l.args, {})
  {
    hide FormOf, Op, Count, Fitting, Spelled, Asm.Table, Asm.OperandBytes, Prints, Takes, Match, SlotOf, FieldD,
         FieldS, OperandOf, Early;
    var (n, k) := HomeOf(i.sel);
    FormsFit(n, k);
    var s := FormOf(n, k);
    match s {
      case Bare => SpelledBare(i, show, names);
      case One(a) => SpelledOne(a, i, show, names);
      case Two(a, b) => SpelledTwo(a, b, i, show, names);
    }
    assert Taken(n, k, Spelled(s, i, show), false);
    MatchIsUnique(n, Spelled(s, i, show), false);
  }

  // ------------------------------------------------------- disassembly and back

  /** The rows of a clean walk are accepted instructions without a label. */
  predicate Given(rows: seq<Asm.Line>)
  {
    Asm.Clean(rows) && forall k :: 0 <= k < |rows| ==> Asm.Accepted(rows[k].shown.i)
  }

  lemma {:induction false} CleanIsGiven(image: seq<byte>, pc: nat, end: nat)
    requires pc <= end <= |image| && Asm.Clean(Asm.Walked(image, pc, end))
    ensures Given(Asm.Walked(image, pc, end))
    decreases end - pc
  {
    hide Asm.Accepted, Asm.DecodeAt, Asm.Encode, Asm.SizeOf;
    if pc < end {
      var n := Asm.DecodeAt(image, pc, end);
      var rows := Asm.Walked(image, pc, end);
      assert rows[0] == n;
      var rest := Asm.Walked(image, pc + n.len, end);
      assert rows == [n] + rest;
      Asm.CleanTail(n, rest);
      Asm.DecodedEncodes(image, pc, end, map[]);
      CleanIsGiven(image, pc + n.len, end);
      assert forall k :: 0 < k < |rows| ==> rows[k] == rest[k - 1];
    }
  }

  /** The disassembly as lines. */
  ghost function Printed(rows: seq<Asm.Line>, show: Print): seq<Line>
    requires Given(rows)
  {
    if rows == [] then [] else [LineOf(rows[0].shown.i, show)] + Printed(rows[1..], show)
  }

  lemma {:induction false} PrintedMeans(rows: seq<Asm.Line>, show: Print)
    requires Given(rows) && Prints(show, {})
    ensures Names(Printed(rows, show)) == {}
    ensures Items(Printed(rows, show), {}, {}) == Some(Asm.Source(rows))
  {
    hide Asm.Accepted, Meaning, TooEarly, Prints, LineOf;
    if rows != [] {
      EveryInsSpelled(rows[0].shown.i, show, {});
      PrintedMeans(rows[1..], show);
      assert Printed(rows, show)[1..] == Printed(rows[1..], show);
      assert Asm.Source(rows) == [Asm.Code(rows[0].shown.i)] + Asm.Source(rows[1..]);
    }
  }

  /** The disassembly of any fully assigned, canonical image, printed line by line, is accepted by the
      forms and assembles to the image, however the numbers are written. */
  lemma TextReproduces(image: seq<byte>, show: Print)
    requires |image| <= CODE_SIZE && Asm.Clean(Asm.Walked(image, 0, |image|)) && Prints(show, {})
    ensures Given(Asm.Walked(image, 0, |image|))
    ensures Assembled(Printed(Asm.Walked(image, 0, |image|), show)) == Some(image)
  {
    hide Asm.Accepted, Asm.Walked, Items, Names, Assembled, Prints, Asm.Assembled, Printed;
    var rows := Asm.Walked(image, 0, |image|);
    CleanIsGiven(image, 0, |image|);
    PrintedMeans(rows, show);
    TextIsItems(Printed(rows, show));
    Asm.ReassemblyReproduces(image);
  }

  // ------------------------------------------------------------------- the two loops

  /** A failed rest stays failed, a finished rest is appended. */
  function After(out: seq<byte>, rest: Option<seq<byte>>): Option<seq<byte>>
  {
    match rest
    case None => None
    case Some(tail) => Some(out + tail)
  }

  lemma Joined(out: seq<byte>, b: seq<byte>, rest: Option<seq<byte>>)
    ensures After(out, After(b, rest)) == After(out + b, rest)
  {
    if rest.Some? {
      assert out + (b + rest.value) == out + b + rest.value;
    }
  }

  /** The assembler: one loop collects the labels, the next emits the bytes. */
  method Assemble(lines: seq<Line>) returns (image: Option<seq<byte>>)
    ensures image == Assembled(lines)
  {
    hide Emitted;
    var labels: Asm.Labels := map[];
    var addr: nat := 0;
    assert lines[0..] == lines;
    for k := 0 to |lines|
      invariant FirstPass(lines, 0, map[]) == FirstPass(lines[k..], addr, labels)
    {
      assert lines[k..][0] == lines[k] && lines[k..][1..] == lines[k + 1..];
      match lines[k] {
        case Label(name) =>
          if name in labels { return None; }
          labels := labels[name := addr];
        case Code(n, args) =>
          var b := Emitted(n, args, labels, false);
          if b.None? { return None; }
          addr := addr + |b.value|;
      }
    }
    assert lines[|lines|..] == [] && FirstPass(lines, 0, map[]) == Some(labels);
    var out: seq<byte> := [];
    assert forall s: seq<byte> :: [] + s == s;
    for k := 0 to |lines|
      invariant SecondPass(lines, labels) == After(out, SecondPass(lines[k..], labels))
    {
      assert lines[k..][0] == lines[k] && lines[k..][1..] == lines[k + 1..];
      match lines[k] {
        case Label(_) =>
        case Code(n, args) =>
          var b := Emitted(n, args, labels, true);
          if b.None? { return None; }
          Joined(out, b.value, SecondPass(lines[k + 1..], labels));
          out := out + b.value;
      }
    }
    assert out + [] == out && SecondPass(lines, labels) == Some(out);
    image := if |out| <= CODE_SIZE then Some(out) else None;
  }
}
