/** The symbol table as a text file: a header line and one sorted `name kind value` record per
    symbol, written and read back character by character. */
module SymbolText {
  import opened Isa
  import Bits
  import L = Linker

  const HEADER := "ncp8-symtab 1"

  // -------------------------------------------------------------------- characters

  /** What Python's `split` takes for white space. */
  predicate IsSpace(c: char)
  {
    var k := c as int;
    || 0x09 <= k <= 0x0D || 0x1C <= k <= 0x20 || k == 0x85 || k == 0xA0 || k == 0x1680 || 0x2000 <= k <= 0x200A
    || k == 0x2028 || k == 0x2029 || k == 0x202F || k == 0x205F || k == 0x3000
  }

  predicate IsLetter(c: char) { 'a' <= c <= 'z' || 'A' <= c <= 'Z' || c == '_' }

  /** The word characters past ASCII are a parameter: any set without white space. */
  predicate Alphabet(wide: set<char>) { forall c :: c in wide ==> !IsSpace(c) }

  predicate IsWord(c: char, wide: set<char>) { IsLetter(c) || '0' <= c <= '9' || c in wide }

  predicate ValidName(name: string, wide: set<char>)
  {
    name != [] && IsLetter(name[0]) && forall k :: 0 <= k < |name| ==> IsWord(name[k], wide)
  }

  predicate IsHex(c: char) { '0' <= c <= '9' || 'a' <= c <= 'f' }

  function Digit(n: nat): char
    requires n < 16
  {
    if n < 10 then '0' + n as char else 'a' + (n - 10) as char
  }

  function DigitValue(c: char): nat
    requires IsHex(c)
  {
    if '0' <= c <= '9' then c as int - '0' as int else c as int - 'a' as int + 10
  }

  // ------------------------------------------------------------------------ values

  function Hex(n: nat): (s: string)
    ensures s != [] && forall k :: 0 <= k < |s| ==> IsHex(s[k])
  {
    if n < 16 then [Digit(n)] else Hex(n / 16) + [Digit(n % 16)]
  }

  function Unhex(s: string): nat
    requires forall k :: 0 <= k < |s| ==> IsHex(s[k])
  {
    if s == [] then 0 else 16 * Unhex(s[..|s| - 1]) + DigitValue(s[|s| - 1])
  }

  lemma {:induction false} UnhexHex(n: nat)
    ensures Unhex(Hex(n)) == n
  {
    if n < 16 {
      assert Hex(n)[..0] == [];
    } else {
      UnhexHex(n / 16);
      assert Hex(n)[..|Hex(n)| - 1] == Hex(n / 16);
    }
  }

  function Pow16(k: nat): nat { if k == 0 then 1 else 16 * Pow16(k - 1) }

  /** The digits stand in place-value order, the most significant first and not zero. */
  lemma {:induction false} HexPlaces(n: nat, k: nat)
    requires k < |Hex(n)|
    ensures Pow16(k) > 0 && Hex(n)[|Hex(n)| - 1 - k] == Digit(n / Pow16(k) % 16)
    ensures n > 0 ==> Hex(n)[0] != '0'
  {
    if k > 0 {
      HexPlaces(n / 16, k - 1);
      Bits.DivisionShifts(n, 16, Pow16(k - 1));
    } else if n >= 16 {
      HexPlaces(n / 16, 0);
    }
  }

  function ValueText(v: int): string
  {
    if v < 0 then "-0x" + Hex(-v) else "0x" + Hex(v)
  }

  /** The digits behind `0x`: at least one, lower case. */
  function ReadDigits(s: string): Option<nat>
  {
    if |s| > 2 && s[0] == '0' && s[1] == 'x' && forall k :: 2 <= k < |s| ==> IsHex(s[k])
    then Some(Unhex(s[2..])) else None
  }

  function ReadValue(s: string): Option<int>
  {
    if s != [] && s[0] == '-' then
      match ReadDigits(s[1..]) case None => None case Some(n) => Some(0 - n)
    else
      match ReadDigits(s) case None => None case Some(n) => Some(n)
  }

  lemma DigitsRoundTrip(n: nat)
    ensures ReadDigits("0x" + Hex(n)) == Some(n)
    ensures forall k :: 0 <= k < |Hex(n)| ==> !IsSpace(Hex(n)[k])
  {
    hide Hex, Unhex;
    var digits := "0x" + Hex(n);
    assert digits[2..] == Hex(n) && forall k :: 2 <= k < |digits| ==> digits[k] == Hex(n)[k - 2];
    UnhexHex(n);
  }

  lemma ValueRoundTrip(v: int)
    ensures ReadValue(ValueText(v)) == Some(v)
    ensures ValueText(v) != [] && forall k :: 0 <= k < |ValueText(v)| ==> !IsSpace(ValueText(v)[k])
  {
    hide Hex, Unhex, ReadDigits;
    var n := if v < 0 then -v else v;
    DigitsRoundTrip(n);
    if v < 0 {
      assert ValueText(v)[1..] == "0x" + Hex(n);
    }
  }

  // ----------------------------------------------------------------- lines and fields

  /** The length of the part in front of the first `\n`. */
  function UpToNewline(s: string): (n: nat)
    ensures n <= |s| && '\n' !in s[..n] && (n < |s| ==> s[n] == '\n')
  {
    if s == [] || s[0] == '\n' then 0 else 1 + UpToNewline(s[1..])
  }

  function Split(s: string): (lines: seq<string>)
    ensures lines != []
  {
    var n := UpToNewline(s);
    if n == |s| then [s] else [s[..n]] + Split(s[n + 1..])
  }

  /** Every line with its newline. */
  function Text(lines: seq<string>): string
  {
    if lines == [] then [] else lines[0] + "\n" + Text(lines[1..])
  }

  lemma {:induction false} SplitText(lines: seq<string>)
    requires forall k :: 0 <= k < |lines| ==> '\n' !in lines[k]
    ensures Split(Text(lines)) == lines + [""]
  {
    hide Split;
    if lines == [] {
      SplitEmpty();
    } else {
      SplitFirst(lines[0], Text(lines[1..]));
      SplitText(lines[1..]);
      assert [lines[0]] + (lines[1..] + [""]) == lines + [""];
    }
  }

  lemma SplitEmpty()
    ensures Split("") == [""]
  {
  }

  lemma SplitFirst(first: string, rest: string)
    requires '\n' !in first
    ensures Split(first + "\n" + rest) == [first] + Split(rest)
  {
    var s := first + "\n" + rest;
    assert s[|first|] == '\n' && s[..|first|] == first && s[|first| + 1..] == rest;
    NewlineAt(s, |first|);
  }

  lemma {:induction false} NewlineAt(s: string, n: nat)
    requires n < |s| && s[n] == '\n' && '\n' !in s[..n]
    ensures UpToNewline(s) == n
  {
    if n > 0 {
      assert s[0] == s[..n][0] && s[1..][..n - 1] == s[..n][1..];
      NewlineAt(s[1..], n - 1);
    }
  }

  /** The length of the leading word. */
  function WordLength(s: string): (n: nat)
    ensures n <= |s| && (forall k :: 0 <= k < n ==> !IsSpace(s[k])) && (n < |s| ==> IsSpace(s[n]))
  {
    if s == [] || IsSpace(s[0]) then 0 else 1 + WordLength(s[1..])
  }

  function Fields(s: string): seq<string>
    decreases |s|
  {
    if s == [] then []
    else if IsSpace(s[0]) then Fields(s[1..])
    else [s[..WordLength(s)]] + Fields(s[WordLength(s)..])
  }

  predicate Solid(s: string) { s != [] && forall k :: 0 <= k < |s| ==> !IsSpace(s[k]) }

  lemma FirstField(a: string, rest: string)
    requires Solid(a) && (rest == [] || IsSpace(rest[0]))
    ensures Fields(a + rest) == [a] + Fields(rest)
  {
    var s := a + rest;
    assert forall k :: 0 <= k < |a| ==> s[k] == a[k];
    assert rest != [] ==> s[|a|] == rest[0];
    assert WordLength(s) == |a|;
    assert s[..|a|] == a && s[|a|..] == rest;
  }

  lemma ThreeFields(a: string, b: string, c: string)
    requires Solid(a) && Solid(b) && Solid(c)
    ensures Fields(a + " " + b + " " + c) == [a, b, c]
  {
    hide Fields, Solid;
    LastField(c);
    NextField(b, c);
    NextField(a, b + (" " + c));
    assert a + " " + b + " " + c == a + (" " + (b + (" " + c)));
  }

  lemma LastField(c: string)
    requires Solid(c)
    ensures Fields(c) == [c]
  {
    FirstField(c, "");
    assert c + "" == c;
  }

  lemma NextField(a: string, rest: string)
    requires Solid(a)
    ensures Fields(a + (" " + rest)) == [a] + Fields(rest)
  {
    hide Solid;
    FirstField(a, " " + rest);
    FieldsSkip(rest);
  }

  lemma FieldsSkip(s: string)
    ensures Fields(" " + s) == Fields(s)
  {
    assert (" " + s)[1..] == s;
  }

  // ----------------------------------------------------------------------- records

  datatype Record = Record(name: string, constant: bool, value: int)

  function Kind(constant: bool): string { if constant then "constant" else "address" }

  function Render(r: Record): string { r.name + " " + Kind(r.constant) + " " + ValueText(r.value) }

  function ReadRecord(raw: string, wide: set<char>): Option<Record>
  {
    var f := Fields(raw);
    if |f| != 3 || !ValidName(f[0], wide) || !(f[1] == "address" || f[1] == "constant") then None
    else
      match ReadValue(f[2])
      case None => None
      case Some(v) => Some(Record(f[0], f[1] == "constant", v))
  }

  lemma RecordRoundTrip(r: Record, wide: set<char>)
    requires Alphabet(wide) && ValidName(r.name, wide)
    ensures ReadRecord(Render(r), wide) == Some(r) && Render(r) != "" && '\n' !in Render(r)
  {
    hide Fields, ReadValue, ValueText;
    ValueRoundTrip(r.value);
    KindsDiffer();
    ThreeFields(r.name, Kind(r.constant), ValueText(r.value));
    var s := Render(r);
    assert IsSpace('\n') && forall c: char :: c == '\n' ==> IsSpace(c);
    assert '\n' !in r.name && '\n' !in Kind(r.constant) && '\n' !in ValueText(r.value);
  }

  lemma KindsDiffer()
    ensures Kind(true) != Kind(false) && Solid(Kind(true)) && Solid(Kind(false))
  {
    assert Kind(true)[0] == 'c' && Kind(false)[0] == 'a';
  }

  predicate White(s: string) { forall k :: 0 <= k < |s| ==> IsSpace(s[k]) }

  /** `raw` is the words of `f` in order, with white space between them and any around them. */
  ghost predicate Spaced(raw: string, f: seq<string>)
    decreases |f|
  {
    if f == [] then White(raw)
    else exists w, rest ::
      White(w) && Solid(f[0]) && (rest == [] || IsSpace(rest[0])) && raw == w + f[0] + rest && Spaced(rest, f[1..])
  }

  /** A line's fields are the words it is made of, however they are spaced. */
  lemma {:induction false} FieldsAreWords(raw: string)
    ensures Spaced(raw, Fields(raw))
    decreases |raw|
  {
    if raw == [] {
    } else if IsSpace(raw[0]) {
      FieldsAreWords(raw[1..]);
      SpacedMore(raw, Fields(raw[1..]));
    } else {
      var n := WordLength(raw);
      var f, rest := Fields(raw), raw[n..];
      FieldsAreWords(rest);
      assert f[0] == raw[..n] && f[1..] == Fields(rest);
      assert raw == "" + f[0] + rest;
    }
  }

  lemma SpacedMore(raw: string, f: seq<string>)
    requires raw != [] && IsSpace(raw[0]) && Spaced(raw[1..], f)
    ensures Spaced(raw, f)
  {
    if f == [] {
      assert forall k :: 0 < k < |raw| ==> raw[k] == raw[1..][k - 1];
    } else {
      var w, rest :| White(w) && Solid(f[0]) && (rest == [] || IsSpace(rest[0])) && raw[1..] == w + f[0] + rest
        && Spaced(rest, f[1..]);
      assert raw == [raw[0]] + raw[1..] == ([raw[0]] + w) + f[0] + rest;
    }
  }

  lemma {:induction false} WordsAreFields(raw: string, f: seq<string>)
    requires Spaced(raw, f)
    ensures Fields(raw) == f
    decreases |f|
  {
    if f == [] {
      WhiteSkips(raw, "");
      assert raw + "" == raw;
    } else {
      var w, rest :| White(w) && Solid(f[0]) && (rest == [] || IsSpace(rest[0])) && raw == w + f[0] + rest
        && Spaced(rest, f[1..]);
      assert raw == w + (f[0] + rest);
      WhiteSkips(w, f[0] + rest);
      FirstField(f[0], rest);
      WordsAreFields(rest, f[1..]);
    }
  }

  lemma {:induction false} WhiteSkips(w: string, s: string)
    requires White(w)
    ensures Fields(w + s) == Fields(s)
  {
    if w == [] {
      assert w + s == s;
    } else {
      WhiteSkips(w[1..], s);
      assert (w + s)[1..] == w[1..] + s;
    }
  }

  /** A line is a record exactly when it is three words: a name, a kind and a value. */
  lemma RecordAccepted(raw: string, r: Record, wide: set<char>)
    ensures ReadRecord(raw, wide) == Some(r) <==>
      exists value :: Spaced(raw, [r.name, Kind(r.constant), value]) && ReadValue(value) == Some(r.value)
        && ValidName(r.name, wide)
  {
    hide ReadValue, ValidName, Fields, Spaced;
    KindsDiffer();
    if ReadRecord(raw, wide) == Some(r) {
      FieldsAreWords(raw);
      var f := Fields(raw);
      assert f == [f[0], f[1], f[2]];
      assert Spaced(raw, [r.name, Kind(r.constant), f[2]]);
    }
    forall value | Spaced(raw, [r.name, Kind(r.constant), value]) && ReadValue(value) == Some(r.value)
      && ValidName(r.name, wide) ensures ReadRecord(raw, wide) == Some(r)
    {
      WordsAreFields(raw, [r.name, Kind(r.constant), value]);
    }
  }

  // ------------------------------------------------------------------- sorted names

  /** Strict lexicographic order by code point. */
  predicate Below(a: string, b: string)
  {
    b != [] && (a == [] || a[0] < b[0] || (a[0] == b[0] && Below(a[1..], b[1..])))
  }

  lemma {:induction false} BelowTransitive(a: string, b: string, c: string)
    requires Below(a, b) && Below(b, c)
    ensures Below(a, c)
  {
    if a != [] && a[0] == b[0] == c[0] {
      BelowTransitive(a[1..], b[1..], c[1..]);
    }
  }

  lemma {:induction false} BelowTotal(a: string, b: string)
    ensures Below(a, b) || Below(b, a) || a == b
  {
    if a != [] && b != [] && a[0] == b[0] {
      BelowTotal(a[1..], b[1..]);
      assert a == [a[0]] + a[1..] && b == [b[0]] + b[1..];
    }
  }

  lemma {:induction false} BelowIrreflexive(a: string)
    ensures !Below(a, a)
  {
    if a != [] {
      BelowIrreflexive(a[1..]);
    }
  }

  predicate Ascending(ns: seq<string>)
  {
    forall i, j :: 0 <= i < j < |ns| ==> Below(ns[i], ns[j])
  }

  function Insert(ns: seq<string>, n: string): seq<string>
  {
    if ns == [] || Below(n, ns[0]) then [n] + ns else [ns[0]] + Insert(ns[1..], n)
  }

  lemma {:induction false} InsertKeeps(ns: seq<string>, n: string)
    requires Ascending(ns) && n !in ns
    ensures Ascending(Insert(ns, n)) && forall x :: x in Insert(ns, n) <==> x == n || x in ns
  {
    if ns == [] {
    } else if Below(n, ns[0]) {
      forall j | 0 <= j < |ns| ensures Below(n, ns[j]) {
        if j > 0 {
          BelowTransitive(n, ns[0], ns[j]);
        }
      }
    } else {
      BelowTotal(n, ns[0]);
      var rest := ns[1..];
      assert ns == [ns[0]] + rest;
      InsertKeeps(rest, n);
      forall x | x in Insert(rest, n) ensures Below(ns[0], x) {
        if x != n {
          var k :| 0 <= k < |rest| && rest[k] == x;
          assert ns[k + 1] == x;
        }
      }
    }
  }

  /** There is one ascending sequence of a set of names, whatever order it was built in. */
  lemma {:induction false} AscendingUnique(a: seq<string>, b: seq<string>)
    requires Ascending(a) && Ascending(b) && forall x :: x in a <==> x in b
    ensures a == b
  {
    SomeMember(b);
    if a == [] {
    } else {
      assert a[0] in b && b != [] && b[0] in a;
      LeastFirst(a, b[0]);
      LeastFirst(b, a[0]);
      if a[0] != b[0] {
        BelowTransitive(a[0], b[0], a[0]);
        BelowIrreflexive(a[0]);
        assert false;
      }
      forall x ensures x in a[1..] <==> x in b[1..] {
        InTail(a, x);
        InTail(b, x);
      }
      AscendingUnique(a[1..], b[1..]);
      assert a == [a[0]] + a[1..] && b == [b[0]] + b[1..];
    }
  }

  lemma SomeMember(a: seq<string>)
    ensures a == [] || exists x :: x in a
  {
    if a != [] {
      assert a[0] in a;
    }
  }

  lemma LeastFirst(a: seq<string>, x: string)
    requires Ascending(a) && x in a
    ensures x == a[0] || Below(a[0], x)
  {
    var k :| 0 <= k < |a| && a[k] == x;
  }

  lemma InTail(a: seq<string>, x: string)
    requires Ascending(a) && a != []
    ensures x in a[1..] <==> x in a && x != a[0]
  {
    if x in a[1..] {
      var k :| 0 <= k < |a[1..]| && a[1..][k] == x;
      assert Below(a[0], a[k + 1]);
      BelowIrreflexive(x);
    }
    assert a == [a[0]] + a[1..];
  }

  ghost function Sorted(names: set<string>): (ns: seq<string>)
    ensures Ascending(ns) && forall x :: x in ns <==> x in names
  {
    if names == {} then []
    else
      var n :| n in names;
      InsertKeeps(Sorted(names - {n}), n);
      Insert(Sorted(names - {n}), n)
  }

  /** `a` comes before `b`: at the first place where they differ it has the smaller code point, or ends. */
  predicate Precedes(a: string, b: string)
  {
    exists k :: 0 <= k <= |a| && k < |b| && a[..k] == b[..k] && (k == |a| || a[k] as int < b[k] as int)
  }

  lemma {:induction false} BelowIsPrecedes(a: string, b: string)
    ensures Below(a, b) <==> Precedes(a, b)
  {
    if b == [] {
    } else if a == [] || a[0] != b[0] {
      assert a[..0] == b[..0] == [];
      if a != [] {
        FirstDiffers(a, b);
      }
    } else {
      BelowIsPrecedes(a[1..], b[1..]);
      if Precedes(a[1..], b[1..]) {
        var k :| 0 <= k <= |a[1..]| && k < |b[1..]| && a[1..][..k] == b[1..][..k]
          && (k == |a[1..]| || a[1..][k] as int < b[1..][k] as int);
        assert a[..k + 1] == [a[0]] + a[1..][..k] && b[..k + 1] == [b[0]] + b[1..][..k];
      }
      if Precedes(a, b) {
        var k :| 0 <= k <= |a| && k < |b| && a[..k] == b[..k] && (k == |a| || a[k] as int < b[k] as int);
        assert k > 0;
        assert a[1..][..k - 1] == a[..k][1..] && b[1..][..k - 1] == b[..k][1..];
      }
    }
  }

  lemma FirstDiffers(a: string, b: string)
    requires a != [] && b != [] && a[0] != b[0]
    ensures Precedes(a, b) <==> a[0] as int < b[0] as int
  {
    if Precedes(a, b) {
      var k :| 0 <= k <= |a| && k < |b| && a[..k] == b[..k] && (k == |a| || a[k] as int < b[k] as int);
      if k > 0 {
        SameHead(a, b, k);
      }
    }
    assert a[..0] == b[..0];
  }

  lemma SameHead(a: string, b: string, k: nat)
    requires 0 < k <= |a| && k <= |b| && a[..k] == b[..k]
    ensures a[0] == b[0]
  {
    assert a[..k][0] == a[0] && b[..k][0] == b[0];
  }

  /** Of two listed names the earlier one precedes the later one, character by character. */
  lemma ListedInOrder(names: set<string>, i: nat, j: nat)
    requires i < j < |Sorted(names)|
    ensures Precedes(Sorted(names)[i], Sorted(names)[j])
  {
    BelowIsPrecedes(Sorted(names)[i], Sorted(names)[j]);
  }

  // ------------------------------------------------------------------ export and read

  ghost predicate Valid(t: L.Table, wide: set<char>)
  {
    L.OneKind(t) && forall n :: n in L.Flat(t) ==> ValidName(n, wide)
  }

  function RecordOf(t: L.Table, n: string): Record
    requires n in L.Flat(t)
  {
    Record(n, n in t.consts, L.Flat(t)[n])
  }

  function Records(t: L.Table, ns: seq<string>): seq<string>
    requires forall n :: n in ns ==> n in L.Flat(t)
  {
    if ns == [] then [] else [Render(RecordOf(t, ns[0]))] + Records(t, ns[1..])
  }

  /** The file of a table. */
  ghost function Exported(t: L.Table): string
  {
    Text([HEADER] + Records(t, Sorted(L.Flat(t).Keys)))
  }

  function ReadLines(lines: seq<string>, wide: set<char>, t: L.Table): Option<L.Table>
    decreases |lines|
  {
    if lines == [] || lines == [""] then Some(t)
    else
      match ReadRecord(lines[0], wide)
      case None => None
      case Some(r) =>
        if L.Known(t, r.name) then None
        else ReadLines(lines[1..], wide, L.Added(t, r.name, r.value, r.constant))
  }

  /** The table of a file; a malformed line or a name defined twice refuses it. */
  function Read(text: string, wide: set<char>): Option<L.Table>
  {
    var lines := Split(text);
    if lines[0] != HEADER then None else ReadLines(lines[1..], wide, L.EMPTY)
  }

  lemma {:induction false} RecordsClean(t: L.Table, ns: seq<string>, wide: set<char>)
    requires Alphabet(wide) && Valid(t, wide) && forall n :: n in ns ==> n in L.Flat(t)
    ensures forall k :: 0 <= k < |Records(t, ns)| ==> '\n' !in Records(t, ns)[k]
  {
    hide Render, L.Flat;
    if ns != [] {
      RecordRoundTrip(RecordOf(t, ns[0]), wide);
      RecordsClean(t, ns[1..], wide);
    }
  }

  /** Reading on from the records of `ns` completes the part of the table already read. */
  lemma {:induction false} RecordsReadBack(t: L.Table, ns: seq<string>, got: set<string>, wide: set<char>)
    requires Alphabet(wide) && Valid(t, wide) && Ascending(ns)
    requires forall n :: n in L.Flat(t) <==> n in got || n in ns
    requires forall n :: n in ns ==> n !in got
    ensures ReadLines(Records(t, ns) + [""], wide, L.Part(t, got)) == Some(t)
  {
    hide Render, ReadRecord, L.Part, L.Added;
    if ns == [] {
      WholePart(t, got);
    } else {
      var r := RecordOf(t, ns[0]);
      RecordRoundTrip(r, wide);
      var lines := Records(t, ns) + [""];
      assert lines[0] == Render(r) && lines[1..] == Records(t, ns[1..]) + [""];
      L.PartMore(t, got, ns[0]);
      PartKnows(t, got, ns[0]);
      forall n ensures n in ns[1..] <==> n in ns && n != ns[0] {
        InTail(ns, n);
      }
      RecordsReadBack(t, ns[1..], got + {ns[0]}, wide);
    }
  }

  lemma WholePart(t: L.Table, got: set<string>)
    requires forall n :: n in L.Flat(t) <==> n in got
    ensures L.Part(t, got) == t
  {
    assert forall n :: n in t.addr || n in t.consts ==> n in L.Flat(t);
  }

  lemma PartKnows(t: L.Table, got: set<string>, n: string)
    requires n !in got
    ensures !L.Known(L.Part(t, got), n)
  {
  }

  /** A table's file reads back as the table: the same names, values of either sign, and kinds. */
  lemma ReadExported(t: L.Table, wide: set<char>)
    requires Alphabet(wide) && Valid(t, wide)
    ensures Read(Exported(t), wide) == Some(t)
  {
    hide Records, ReadLines, Text, Split, L.Flat;
    var ns := Sorted(L.Flat(t).Keys);
    var lines := [HEADER] + Records(t, ns);
    RecordsClean(t, ns, wide);
    assert '\n' !in HEADER;
    SplitText(lines);
    assert (lines + [""])[0] == HEADER && (lines + [""])[1..] == Records(t, ns) + [""];
    WholeEmpty(t);
    RecordsReadBack(t, ns, {}, wide);
  }

  lemma WholeEmpty(t: L.Table)
    ensures L.Part(t, {}) == L.EMPTY
  {
  }

  lemma {:induction false} ReadLinesValid(lines: seq<string>, wide: set<char>, t: L.Table)
    requires Valid(t, wide) && ReadLines(lines, wide, t).Some?
    ensures Valid(ReadLines(lines, wide, t).value, wide)
    decreases |lines|
  {
    hide ReadRecord, ValidName;
    if lines != [] && lines != [""] {
      var r := ReadRecord(lines[0], wide).value;
      RecordValid(lines[0], wide);
      ReadLinesValid(lines[1..], wide, L.Added(t, r.name, r.value, r.constant));
    }
  }

  lemma RecordValid(raw: string, wide: set<char>)
    requires ReadRecord(raw, wide).Some?
    ensures ValidName(ReadRecord(raw, wide).value.name, wide)
  {
  }

  /** Any accepted file, however spaced and ordered, settles after one export: exporting what
      it reads as gives the file that reads as that again. */
  lemma ExportSettles(text: string, wide: set<char>)
    requires Alphabet(wide) && Read(text, wide).Some?
    ensures var t := Read(text, wide).value;
      Valid(t, wide) && Read(Exported(t), wide) == Some(t)
  {
    hide ReadLines;
    ReadLinesValid(Split(text)[1..], wide, L.EMPTY);
    ReadExported(Read(text, wide).value, wide);
  }

  /** The file depends on the table alone: any ascending listing of its names writes it, and no
      other table has the same file. */
  lemma ExportCanonical(t: L.Table, ns: seq<string>)
    requires Ascending(ns) && forall n :: n in ns <==> n in L.Flat(t)
    ensures Exported(t) == Text([HEADER] + Records(t, ns))
  {
    AscendingUnique(ns, Sorted(L.Flat(t).Keys));
  }

  lemma ExportInjective(t: L.Table, u: L.Table, wide: set<char>)
    requires Alphabet(wide) && Valid(t, wide) && Valid(u, wide) && Exported(t) == Exported(u)
    ensures t == u
  {
    hide Exported, Read;
    ReadExported(t, wide);
    ReadExported(u, wide);
  }

  /** Two records, character by character. */
  lemma SampleRecords()
    ensures Render(Record("a", false, 26)) == "a address 0x1a"
    ensures Render(Record("b", true, -255)) == "b constant -0xff"
  {
    SampleDigits();
    hide Hex;
    assert ValueText(26) == "0x" + "1a" == "0x1a";
    assert ValueText(-255) == "-0x" + "ff" == "-0xff";
    assert "a" + " " + "address" + " " + "0x1a" == "a address 0x1a";
    assert "b" + " " + "constant" + " " + "-0xff" == "b constant -0xff";
  }

  lemma SampleDigits()
    ensures Hex(26) == "1a" && Hex(255) == "ff"
  {
    assert Hex(1) == [Digit(1)] && Hex(15) == [Digit(15)];
    assert Hex(26) == Hex(1) + [Digit(10)] && Hex(255) == Hex(15) + [Digit(15)];
  }

  /** Values the format does not write, and zeros it does not. */
  lemma SampleValues()
    ensures ReadValue("0x") == ReadValue("") == ReadValue("1a") == ReadValue("0X1a") == ReadValue("0x1A") == None
    ensures ReadValue("+0x1") == ReadValue("--0x1") == ReadValue("-") == None
    ensures ReadValue("-0x00") == Some(0)
  {
    assert "0x1A"[3] == 'A' && "0X1a"[1] == 'X';
    assert "+0x1"[0] == '+' && "--0x1"[1..] == "-0x1" && "-"[1..] == "";
    var zeros := "-0x00"[1..];
    assert zeros == "0x00" && zeros[2..] == "00" && "00"[..1] == "0" && "0"[..0] == "";
  }

  /** The header stands alone on the first line. */
  lemma SampleFile()
    ensures Exported(L.EMPTY) == "ncp8-symtab 1\n"
  {
    assert Sorted(L.Flat(L.EMPTY).Keys) == [];
    assert Text([HEADER]) == HEADER + "\n" + "";
  }

  lemma SampleNames()
    ensures ValidName("_a1", {}) && ValidName("Z", {}) && ValidName("a\U{00b5}", {'\U{00b5}'})
    ensures !ValidName("", {}) && !ValidName("1a", {}) && !ValidName("a-b", {}) && !ValidName("\U{00b5}", {'\U{00b5}'})
  {
    assert "1a"[0] == '1' && "a-b"[1] == '-' && "\U{00b5}"[0] == '\U{00b5}';
  }

  /** The lines of a file behind its header, without the empty one behind the last newline. */
  function Content(lines: seq<string>): seq<string>
  {
    if lines != [] && lines[|lines| - 1] == "" then lines[..|lines| - 1] else lines
  }

  /** Every line is a record, of a name no table and no earlier line has. */
  predicate Fresh(c: seq<string>, wide: set<char>, t: L.Table)
  {
    && (forall k :: 0 <= k < |c| ==>
          ReadRecord(c[k], wide).Some? && !L.Known(t, ReadRecord(c[k], wide).value.name))
    && (forall j, k :: 0 <= j < k < |c| ==>
          ReadRecord(c[j], wide).value.name != ReadRecord(c[k], wide).value.name)
  }

  /** The lines are read exactly when each is a record of a name of its own, and the table then holds
      every one of them beside what it held. */
  lemma {:induction false} LinesAccepted(lines: seq<string>, wide: set<char>, t: L.Table)
    ensures ReadLines(lines, wide, t).Some? <==> Fresh(Content(lines), wide, t)
    ensures ReadLines(lines, wide, t).Some? ==>
      && L.Includes(ReadLines(lines, wide, t).value, t)
      && forall k :: 0 <= k < |Content(lines)| ==>
           var r := ReadRecord(Content(lines)[k], wide).value;
           L.Defines(ReadLines(lines, wide, t).value, r.name, r.value, r.constant)
    decreases |lines|
  {
    hide ReadRecord;
    var c := Content(lines);
    if lines == [] || lines == [""] {
    } else {
      assert c != [] && c[0] == lines[0] && c[1..] == Content(lines[1..]);
      var r := ReadRecord(lines[0], wide);
      if r.Some? && !L.Known(t, r.value.name) {
        var more := L.Added(t, r.value.name, r.value.value, r.value.constant);
        LinesAccepted(lines[1..], wide, more);
        FreshNext(c, wide, t);
      }
    }
  }

  lemma FreshNext(c: seq<string>, wide: set<char>, t: L.Table)
    requires c != [] && ReadRecord(c[0], wide).Some? && !L.Known(t, ReadRecord(c[0], wide).value.name)
    ensures var r := ReadRecord(c[0], wide).value;
      Fresh(c, wide, t) <==> Fresh(c[1..], wide, L.Added(t, r.name, r.value, r.constant))
  {
    hide ReadRecord;
    var r := ReadRecord(c[0], wide).value;
    forall n ensures L.Known(L.Added(t, r.name, r.value, r.constant), n) <==> L.Known(t, n) || n == r.name {
    }
    assert forall k :: 0 < k < |c| ==> c[k] == c[1..][k - 1];
    assert forall k :: 0 <= k < |c[1..]| ==> c[1..][k] == c[k + 1];
  }

  // ---------------------------------------------------------------------- the loops

  /** Collects the names in whatever order the table yields them, sorted as they come. */
  method Export(t: L.Table) returns (text: string)
    ensures text == Exported(t)
  {
    hide Text, Records;
    var left := L.Flat(t).Keys;
    var ns: seq<string> := [];
    while left != {}
      invariant left <= L.Flat(t).Keys && Ascending(ns)
      invariant forall n :: n in ns <==> n in L.Flat(t) && n !in left
      decreases left
    {
      var name :| name in left;
      InsertKeeps(ns, name);
      ns := Insert(ns, name);
      left := left - {name};
    }
    ExportCanonical(t, ns);
    text := Text([HEADER] + Records(t, ns));
  }

  method ReadText(text: string, wide: set<char>) returns (ok: bool, table: L.SymbolTable)
    ensures fresh(table) && ok == Read(text, wide).Some?
    ensures ok ==> Read(text, wide) == Some(table.Value())
  {
    hide ReadRecord, L.Added;
    table := new L.SymbolTable();
    var lines := Split(text);
    if lines[0] != HEADER { return false, table; }
    for k := 1 to |lines|
      invariant fresh(table)
      invariant Read(text, wide) == ReadLines(lines[k..], wide, table.Value())
    {
      assert lines[k..][0] == lines[k] && lines[k..][1..] == lines[k + 1..];
      if !(lines[k] == "" && k + 1 == |lines|) {
        var r := ReadRecord(lines[k], wide);
        if r.None? { return false, table; }
        ok := table.Add(r.value.name, r.value.value, r.value.constant);
        if !ok { return false, table; }
      }
    }
    return true, table;
  }
}
