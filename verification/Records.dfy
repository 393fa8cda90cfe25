/** State records: what a machine publishes, what an installation accepts, and that a run cut
    in two by a record is the run. A record is data, so its fields are plain integers. */
module Records {
  import opened Bits
  import opened Isa
  import opened Reference
  import I = Invariants
  import M = Machine

  const TICKBUDGET_MAX := 0x4000_0000_0000_0000
  const STC_COUNT_MAX := 0xFFFF_FFFF

  datatype Record = Record(
    r: seq<int>, hl: int, de: int, mb: int, pc: int, sp: int, c: int, z: int, s: int, v: int,
    ipos: int, tick: int, status: int, reason: int, faultAddr: int, td: int, stcCount: int,
    stcFirst: int, code: seq<byte>, data: seq<byte>, out: seq<byte>, inputs: seq<byte>, block: Config)

  function StatusName(n: int): Status
  {
    if n == 0 then Running else if n == 1 then Halted else if n == 2 then Overrun else Error
  }

  const CAUSES: seq<Cause> := [
    Ok, BadOpcode, BadSubcode, FetchOob, DataOob, StackUnderflow, StackOverflow, DivZero, CodeOob,
    Window, TrapUnreg, TrapDepth, TrapFrame, TrapUnbalanced, OutCap, BankOob, BankBusy, PcIllegal,
    RegionViol]

  lemma CodesAreDense(c: Cause)
    ensures Code(c) < |CAUSES| && CAUSES[Code(c)] == c
  {
  }

  function RecordOf(e: Env, m: Core, d: Page): Record
  {
    Record(m.r, m.hl, m.de, m.mb, m.pc, m.sp, m.c, m.z, m.s, m.v, m.ipos, m.tick, StatusCode(m.status),
           Code(m.reason), m.faultAddr, m.td, m.stcCount, m.stcFirst, m.code, d, m.out, e.inputs, e.cf)
  }

  /** The widths of the state table, and a cause recorded exactly when the status is the error
      status. */
  predicate StateLegal(rec: Record)
  {
    && |rec.r| == 4 && (forall i :: 0 <= i < 4 ==> 0 <= rec.r[i] <= 255)
    && 0 <= rec.hl <= 65535 && 0 <= rec.de <= 65535 && 0 <= rec.mb <= 65535 && 0 <= rec.pc <= 65535
    && 0 <= rec.sp <= DATA_SIZE
    && 0 <= rec.c <= 1 && 0 <= rec.z <= 1 && 0 <= rec.s <= 1 && 0 <= rec.v <= 1
    && 0 <= rec.ipos && 0 <= rec.tick && 0 <= rec.status <= 3
    && 0 <= rec.td <= 255 && 0 <= rec.stcCount <= STC_COUNT_MAX && 0 <= rec.stcFirst <= 65535
    && 0 <= rec.reason < |CAUSES| && 0 <= rec.faultAddr <= 65535
    && (rec.status == 3 <==> rec.reason != 0)
  }

  /** What a record is checked for against a machine, on publication and on installation: its
      images are whole, its streams are the machine's, its block is the machine's. */
  predicate CheckRecord(rec: Record, e: Env)
  {
    && |rec.r| == 4 && |rec.code| == CODE_SIZE && |rec.data| == DATA_SIZE
    && |rec.out| <= e.cf.outcap && rec.ipos <= |rec.inputs| && rec.inputs == e.inputs
    && rec.block == e.cf
  }

  /** The state an accepted record stands for. */
  function CoreOf(rec: Record): Core
    requires StateLegal(rec) && |rec.code| == CODE_SIZE
  {
    Core(rec.r, rec.hl, rec.de, rec.mb, rec.pc, rec.sp, rec.c, rec.z, rec.s, rec.v, rec.td,
         rec.stcCount, rec.stcFirst, rec.ipos, rec.tick, StatusName(rec.status), CAUSES[rec.reason],
         rec.faultAddr, rec.code, rec.out)
  }

  /** Publication: the record is built, its block is built, and the record is checked. */
  function Published(e: Env, m: Core, d: Page): Option<Record>
  {
    var rec := RecordOf(e, m, d);
    if 0 <= e.cf.tb <= TICKBUDGET_MAX && CheckRecord(rec, e) then Some(rec) else None
  }

  predicate Installs(rec: Record, e: Env) { CheckRecord(rec, e) && StateLegal(rec) }

  /** A record holds the whole state: what it installs is what it was taken from. */
  lemma InstalledIsRecorded(e: Env, m: Core, d: Page)
    requires Installs(RecordOf(e, m, d), e)
    ensures CoreOf(RecordOf(e, m, d)) == m && RecordOf(e, m, d).data == d
  {
    CodesAreDense(m.reason);
  }

  /** What acceptance says of the machine: the record is over its streams and its block, with the
      cursor and the output inside their bounds, so that a run from there is a run of the load the
      record was taken from. */
  lemma InstalledLoad(rec: Record, e: Env, n: nat)
    requires Installs(rec, e) && Fits(e, [rec.data])
    ensures rec.inputs == e.inputs && rec.block == e.cf && Fits(Env(rec.block, rec.inputs, e.bank), [rec.data])
    ensures CoreOf(rec).ipos <= |e.inputs| && |CoreOf(rec).out| <= e.cf.outcap
    ensures I.After(e, World(CoreOf(rec), [rec.data]), n)
            == I.After(Env(rec.block, rec.inputs, e.bank), World(CoreOf(rec), [rec.data]), n)
  {
    hide StateLegal, CoreOf, Legal;
    CoreFields(rec);
  }

  /** What is installed is what stands in the record, name by name. */
  lemma CoreFields(rec: Record)
    requires StateLegal(rec) && |rec.code| == CODE_SIZE
    ensures var m := CoreOf(rec);
      && m.r == rec.r && m.hl == rec.hl && m.de == rec.de && m.mb == rec.mb && m.pc == rec.pc && m.sp == rec.sp
      && m.c == rec.c && m.z == rec.z && m.s == rec.s && m.v == rec.v && m.td == rec.td
      && m.stcCount == rec.stcCount && m.stcFirst == rec.stcFirst && m.ipos == rec.ipos && m.tick == rec.tick
      && StatusCode(m.status) == rec.status && Code(m.reason) == rec.reason && m.faultAddr == rec.faultAddr
      && m.code == rec.code && m.out == rec.out
  {
    hide CAUSES;
    CodesBack(rec.reason);
  }

  predicate Recordable(e: Env, m: Core)
  {
    |m.out| <= e.cf.outcap && m.ipos <= |e.inputs| && WidthsHold(m)
  }

  /** A record installs exactly when it is the record of some state of the machine's own load, and the
      state it installs is that one. */
  lemma InstallsIff(rec: Record, e: Env)
    ensures Installs(rec, e) <==> exists m, d :: Recordable(e, m) && rec == RecordOf(e, m, d)
    ensures Installs(rec, e) ==> Recordable(e, CoreOf(rec)) && rec == RecordOf(e, CoreOf(rec), rec.data)
  {
    hide StateLegal, CoreOf, CAUSES;
    if Installs(rec, e) {
      RecordBack(rec, e);
      WidthsAreStateLegal(e, CoreOf(rec), rec.data);
      CoreFields(rec);
    }
    forall m, d | Recordable(e, m) && rec == RecordOf(e, m, d) ensures Installs(rec, e) {
      WidthsAreStateLegal(e, m, d);
    }
  }

  lemma RecordBack(rec: Record, e: Env)
    requires Installs(rec, e)
    ensures RecordOf(e, CoreOf(rec), rec.data) == rec
  {
    CodesBack(rec.reason);
  }

  lemma CodesBack(n: int)
    requires 0 <= n < |CAUSES|
    ensures Code(CAUSES[n]) == n
  {
    CausesHaveCodes();
  }

  /** Every state a machine reaches publishes, when its budget fits the block; and the record
      is one an installation accepts exactly while the log fits its width. */
  lemma ReachablePublishes(e: Env, m: Core, d: Page)
    requires Legal(e.cf) && I.Reachable(e, m) && 0 <= e.cf.tb <= TICKBUDGET_MAX
    ensures Published(e, m, d) == Some(RecordOf(e, m, d))
    ensures Installs(RecordOf(e, m, d), e) <==> m.stcCount <= STC_COUNT_MAX
    ensures e.cf.tb <= STC_COUNT_MAX ==> Installs(RecordOf(e, m, d), e)
  {
    CodesAreDense(m.reason);
    hide CAUSES;
    CausesHaveCodes();
  }

  lemma CausesHaveCodes()
    ensures |CAUSES| == 19
  {
  }

  // ------------------------------------------------- installed states that run on

  predicate WidthsHold(m: Core)
  {
    m.td <= 255 && m.stcCount <= STC_COUNT_MAX && (m.status == Error <==> m.reason != Ok)
  }

  lemma WidthsAreStateLegal(e: Env, m: Core, d: Page)
    ensures StateLegal(RecordOf(e, m, d)) <==> WidthsHold(m)
  {
    CodesAreDense(m.reason);
    hide CAUSES;
    CausesHaveCodes();
  }

  /** From any state an installation accepts, reachable or not: the next state is again one it
      accepts exactly when the tick does not enter a trap at depth 255, nor log an STC on a
      full counter. */
  lemma NextStateLegal(e: Env, w: World, d: Page, d': Page)
    requires Fits(e, w.pg) && StateLegal(RecordOf(e, w.m, d))
    ensures StateLegal(RecordOf(e, Tick(e, w).m, d')) <==>
      !(w.m.td == 255 && I.CommitsExt(e, w))
      && !(w.m.stcCount == STC_COUNT_MAX && I.CommitsStc(e.cf, w.m))
  {
    hide Step, Fits, I.CommitsExt, I.CommitsStc, StateLegal, RecordOf;
    WidthsAreStateLegal(e, w.m, d);
    WidthsAreStateLegal(e, Tick(e, w).m, d');
    I.TickCountsDepth(e, w);
    I.TickLogsStc(e, w);
    StepFramed(e, w.m, w.pg);
  }

  /** A depth inside the declared limit never gets there: EXT at the limit faults. */
  lemma DepthWithinLimitStays(e: Env, w: World)
    requires Fits(e, w.pg) && w.m.td <= e.cf.tdlim
    ensures Tick(e, w).m.td <= e.cf.tdlim
  {
    hide Step;
    I.StepKept(e, w.m, w.pg);
  }

  // ------------------------------------------ a depth past its limit is not refused

  /** A three-byte image: EXT 0, whose vector is address 1. */
  function TrapImage(): Image { [0x70, 0x70, 0x00] + seq(CODE_SIZE - 3, _ => 0) }

  function TrapBlock(): Config
  {
    Config(3, 0, 0, 0, [1] + seq(VEC_COUNT - 1, _ => 0), None, [], 1, 64, 0, 1000, 8192)
  }

  lemma TrapBlockIsLegal()
    ensures Legal(TrapBlock())
  {
    Pow2Data();
  }

  /** Depth 255 under a limit of 64: inside its width, so a record of it installs, and past
      the limit EXT compares for equality with. */
  function Deep(): Core { M.BootCore(TrapBlock(), TrapImage()).(td := 255) }

  const BLANK: Page := seq(DATA_SIZE, _ => 0)

  lemma DeepTicks()
    requires Legal(TrapBlock())
    ensures var next := Tick(Env(TrapBlock(), [], Alone), World(Deep(), [BLANK])).m;
      next.status == Running && next.td == 256
  {
    hide Legal, Pow2, Fetch, StackCovered;
    var e := Env(TrapBlock(), [], Alone);
    DeepFetches();
    StackCoveredNowhere(Deep().(pc := 3));
    assert Vector(e, [BLANK], 0) == 1;
  }

  /** No region, no cell covered. */
  lemma StackCoveredNowhere(m: Core)
    requires m.sp == DATA_SIZE
    ensures !StackCovered(TrapBlock(), m, 4)
  {
    StackCoveredCells(TrapBlock(), m);
  }

  /** The record of the next state is refused. */
  lemma DepthPastLimitEscapes()
    ensures Legal(TrapBlock())
    ensures var e := Env(TrapBlock(), [], Alone);
      var next := Tick(e, World(Deep(), [BLANK]));
      && Installs(RecordOf(e, Deep(), BLANK), e)
      && next.m.status == Running && next.m.td == 256
      && !StateLegal(RecordOf(e, next.m, BLANK))
  {
    hide Legal, Pow2, Tick;
    TrapBlockIsLegal();
    DeepTicks();
  }

  lemma DeepFetches()
    requires Legal(TrapBlock())
    ensures Fetch(TrapBlock(), Deep()) == Decoded(Ext, Args(0, 0, 0, 0), 3)
  {
    var m := Deep();
    assert m.code[0] == 0x70 && m.code[1] == 0x70 && m.code[2] == 0;
    assert EscapeRow(0x70) == Row(Ext, 0, 0, 1);
  }

  // -------------------------------------------------------- runs cut by a record

  /** Running `k` ticks, recording, installing and running `n` more is running `k + n` ticks,
      under every budget a block may declare. The record is always published; it is taken back
      exactly when its STC log fits its width. */
  lemma CheckpointResume(e: Env, m: Core, d: Page, k: nat, n: nat)
    requires Legal(e.cf) && e.bank == Alone && I.Reachable(e, m) && 0 <= e.cf.tb <= TICKBUDGET_MAX
    ensures var at := I.After(e, World(m, [d]), k);
      && |at.pg| == 1
      && var rec := RecordOf(e, at.m, at.pg[0]);
         && Published(e, at.m, at.pg[0]) == Some(rec)
         && (Installs(rec, e) <==> at.m.stcCount <= STC_COUNT_MAX)
         && (Installs(rec, e) ==>
               I.After(e, World(CoreOf(rec), [rec.data]), n) == I.After(e, World(m, [d]), k + n))
  {
    hide Tick, Legal, RecordOf, CoreOf, I.Reachable, Published;
    var w := World(m, [d]);
    var at := I.After(e, w, k);
    I.EveryStateReachable(e, w, k);
    ReachablePublishes(e, at.m, at.pg[0]);
    if Installs(RecordOf(e, at.m, at.pg[0]), e) {
      InstalledIsRecorded(e, at.m, at.pg[0]);
    }
    I.AfterSplits(e, w, k, n);
    assert at == World(at.m, [at.pg[0]]);
  }

  /** A debugger resumed from a record boots a fresh machine on the recorded image first, and
      refuses a PC outside it; then it installs. */
  predicate DebuggerResumes(rec: Record)
  {
    0 <= rec.pc < |rec.code| && Legal(rec.block) && rec.block.codelen <= |rec.code|
    && Installs(rec, Env(rec.block, rec.inputs, Alone))
  }

  /** Of a reachable state the debugger resumes exactly when the record installs and PC names a
      CODE byte: the address behind a full image, which a fall-through reaches, is a state it
      does not take back. */
  lemma DebuggerResumesInsideCode(e: Env, m: Core, d: Page)
    requires Legal(e.cf) && e.bank == Alone && I.Reachable(e, m) && 0 <= e.cf.tb <= TICKBUDGET_MAX
    ensures DebuggerResumes(RecordOf(e, m, d)) <==> m.pc < CODE_SIZE && m.stcCount <= STC_COUNT_MAX
  {
    hide CheckRecord, StateLegal;
    ReachablePublishes(e, m, d);
    assert e == Env(e.cf, e.inputs, Alone);
  }

  /** A full image whose last byte is NOP, entered there. */
  function FullImage(): Image { seq(CODE_SIZE - 1, _ => 0) + [0x01] }

  function FullBlock(): Config
  {
    Config(CODE_SIZE, CODE_SIZE - 1, 0, 0, seq(VEC_COUNT, _ => 0), None, [], 1, 64, 0, 1000, 8192)
  }

  lemma FullBlockIsLegal()
    ensures Legal(FullBlock())
  {
    Pow2Data();
  }

  lemma FullTicks()
    requires Legal(FullBlock())
    ensures var m := M.BootCore(FullBlock(), FullImage());
      Tick(Env(FullBlock(), [], Alone), World(m, [BLANK])) == World(m.(pc := CODE_SIZE, tick := 1), [BLANK])
  {
    hide Legal, Pow2;
    var m := M.BootCore(FullBlock(), FullImage());
    assert m.code[m.pc] == 0x01;
    assert SingleRow(0x01) == Row(Nop, 0, 0, 0);
  }

  /** One tick after boot it runs on behind its image; that state is reachable, publishes and
      installs, and the debugger refuses it. */
  lemma DebuggerRefusesFallThrough()
    ensures Legal(FullBlock())
    ensures var e, m := Env(FullBlock(), [], Alone), M.BootCore(FullBlock(), FullImage());
      var next := Tick(e, World(m, [BLANK])).m;
      var rec := RecordOf(e, next, BLANK);
      && next.status == Running && next.pc == CODE_SIZE && I.Reachable(e, m) && I.Reachable(e, next)
      && Published(e, next, BLANK) == Some(rec) && Installs(rec, e) && !DebuggerResumes(rec)
  {
    hide Legal, Pow2, Tick, RecordOf, Published, Installs, DebuggerResumes;
    FullBlockIsLegal();
    FullTicks();
    var e, m := Env(FullBlock(), [], Alone), M.BootCore(FullBlock(), FullImage());
    var next := Tick(e, World(m, [BLANK])).m;
    ReachablePublishes(e, next, BLANK);
    DebuggerResumesInsideCode(e, next, BLANK);
  }

  // ------------------------------------------------------------- on the machine

  method RecordState(m: M.NCP8) returns (rec: Option<Record>)
    requires m.Valid()
    ensures rec == Published(m.Env(), m.Core(), m.data[..])
  {
    var snap := Record(m.r, m.hl, m.de, m.mb, m.pc, m.sp, m.c, m.z, m.s, m.v, m.ipos, m.tick,
                       StatusCode(m.status), Code(m.reason), m.faultAddr, m.td, m.stcCount, m.stcFirst,
                       m.code, m.data[..], m.out, m.inputs, m.cf);
    if !(0 <= m.cf.tb <= TICKBUDGET_MAX) || |m.out| > m.cf.outcap || m.ipos > |m.inputs| {
      return None;
    }
    return Some(snap);
  }

  method WriteRegisters(m: M.NCP8, rec: Record)
    requires StateLegal(rec)
    modifies m`r, m`hl, m`de, m`mb, m`pc, m`sp, m`c, m`z, m`s, m`v, m`td
    ensures m.r == rec.r && m.hl == rec.hl && m.de == rec.de && m.mb == rec.mb && m.pc == rec.pc && m.sp == rec.sp
    ensures m.c == rec.c && m.z == rec.z && m.s == rec.s && m.v == rec.v && m.td == rec.td
  {
    m.r, m.hl, m.de, m.mb, m.pc, m.sp := rec.r, rec.hl, rec.de, rec.mb, rec.pc, rec.sp;
    m.c, m.z, m.s, m.v, m.td := rec.c, rec.z, rec.s, rec.v, rec.td;
  }

  method WriteCounters(m: M.NCP8, rec: Record)
    requires StateLegal(rec)
    modifies m`stcCount, m`stcFirst, m`ipos, m`tick, m`status, m`reason, m`faultAddr
    ensures m.stcCount == rec.stcCount && m.stcFirst == rec.stcFirst && m.ipos == rec.ipos && m.tick == rec.tick
    ensures m.status == StatusName(rec.status) && m.reason == CAUSES[rec.reason] && m.faultAddr == rec.faultAddr
  {
    hide CAUSES, StatusName;
    m.stcCount, m.stcFirst, m.ipos, m.tick := rec.stcCount, rec.stcFirst, rec.ipos, rec.tick;
    m.status, m.reason, m.faultAddr := StatusName(rec.status), CAUSES[rec.reason], rec.faultAddr;
  }

  /** The state table's fields. */
  method WriteState(m: M.NCP8, rec: Record)
    requires StateLegal(rec) && |rec.code| == CODE_SIZE
    modifies m
    ensures m.Core() == CoreOf(rec)
    ensures unchanged(m`banks) && unchanged(m`bankOwn) && unchanged(m`ownerStatus) && unchanged(m`ownerRegions)
  {
    hide CAUSES, StatusName, StateLegal;
    WriteRegisters(m, rec);
    WriteCounters(m, rec);
    m.code, m.out := rec.code, rec.out;
  }

  /** A refused record leaves the machine as it stands; an accepted one becomes its state, the
      image copied into the machine's own page. */
  method InstallState(m: M.NCP8, rec: Record) returns (ok: bool)
    requires m.Valid() && m.bankOwn < |m.banks|
    modifies m, m.data
    ensures m.banks == old(m.banks) && m.bankOwn == old(m.bankOwn) && m.Valid()
    ensures m.Env() == old(m.Env()) && ok == Installs(rec, m.Env())
    ensures if ok then m.Core() == CoreOf(rec) && m.data[..] == rec.data
            else m.Core() == old(m.Core()) && m.data[..] == old(m.data[..])
  {
    hide StateLegal, Legal, CoreOf;
    ok := |rec.r| == 4 && |rec.code| == CODE_SIZE && |rec.data| == DATA_SIZE && |rec.out| <= m.cf.outcap
          && rec.ipos <= |rec.inputs| && rec.inputs == m.inputs && rec.block == m.cf && StateLegal(rec);
    if ok {
      WriteState(m, rec);
      forall a | 0 <= a < DATA_SIZE {
        m.data[a] := rec.data[a];
      }
    }
  }

  /** Steps a machine until it stops or has taken `limit` ticks. */
  method Trajectory(m: M.NCP8, limit: nat, ghost d: Page)
    requires m.Valid() && m.banks == [m.data] && m.data[..] == d && m.Env().bank == Alone
    modifies m, m.data
    ensures m.banks == old(m.banks) && m.bankOwn == old(m.bankOwn) && m.Valid() && m.Env() == old(m.Env())
    ensures var w := I.After(m.Env(), World(old(m.Core()), [d]), limit);
      |w.pg| == 1 && m.Core() == w.m && m.data[..] == w.pg[0]
  {
    hide Tick;
    ghost var e, w := m.Env(), World(m.Core(), [d]);
    var steps: nat := 0;
    assert m.Holds([d]);
    while m.status == Running && steps < limit
      invariant m.banks == old(m.banks) && m.bankOwn == old(m.bankOwn) && m.Valid() && m.Env() == e
      invariant steps <= limit && |I.After(e, w, steps).pg| == 1
      invariant m.Core() == I.After(e, w, steps).m && m.Holds(I.After(e, w, steps).pg)
    {
      var o := m.Step(I.After(e, w, steps).pg);
      steps := steps + 1;
    }
    if steps < limit {
      I.AfterSplits(e, w, steps, limit - steps);
      I.StoppedStays(e, I.After(e, w, steps), limit - steps);
    }
    assert m.banks[0][..] == I.After(e, w, limit).pg[0];
  }

  /** A checkpoint moved into another machine of the same load: it is refused exactly when the
      log has outgrown its width, and then the second machine stands as it did; else the second
      machine ends where the first would have. */
  method Continue(a: M.NCP8, b: M.NCP8, k: nat, n: nat, ghost d: Page) returns (ok: bool)
    requires a != b && a.data != b.data && a.Valid() && b.Valid()
    requires a.banks == [a.data] && b.banks == [b.data] && a.data[..] == d
    requires a.Env() == b.Env() && a.Env().bank == Alone
    requires I.Reachable(a.Env(), a.Core()) && 0 <= a.cf.tb <= TICKBUDGET_MAX
    modifies a, a.data, b, b.data
    ensures ok <==> I.After(old(a.Env()), World(old(a.Core()), [d]), k).m.stcCount <= STC_COUNT_MAX
    ensures var w := I.After(old(a.Env()), World(old(a.Core()), [d]), k + n);
      if ok then |w.pg| == 1 && b.Core() == w.m && b.data[..] == w.pg[0]
      else b.Core() == old(b.Core()) && b.data[..] == old(b.data[..])
  {
    hide Tick, RecordOf, CoreOf, I.Reachable, Published, Fits, Legal, CheckRecord, StateLegal;
    ghost var e, m := a.Env(), a.Core();
    EnvIsLegal(a);
    CheckpointResume(e, m, d, k, n);
    Trajectory(a, k, d);
    var rec := RecordState(a);
    ok := InstallState(b, rec.value);
    if ok {
      Trajectory(b, n, rec.value.data);
    }
  }

  lemma EnvIsLegal(a: M.NCP8)
    requires a.Valid()
    ensures Legal(a.Env().cf)
  {
  }
}
