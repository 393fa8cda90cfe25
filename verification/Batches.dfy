/** A batch of machines as flat buffers, one row each, cut into groups of `NB` rows. A launch
    runs one program per row; each loads its row, computes the shadow tick and commits it. */
module Batches {
  import opened Bits
  import opened Isa
  import R = Reference
  import B = Banks
  import O = Orders
  import C = Cuts
  import I = Invariants
  import K = Kernel

  const STATE_ROWS := 23

  /** The state row's layout. */
  function StateRow(m: R.Core, splim: nat): (row: seq<int>)
    ensures |row| == STATE_ROWS
  {
    [m.r[0], m.r[1], m.r[2], m.r[3], m.hl, m.de, m.pc, m.sp, m.c, m.z, m.ipos, |m.out|, m.tick,
     R.StatusCode(m.status), Code(m.reason), m.faultAddr, m.mb, m.s, m.v, splim, m.td,
     m.stcCount, m.stcFirst]
  }

  lemma SplicedPut(pgs: seq<R.Page>, base: nat, pg: seq<R.Page>, row: nat, a: int, v: byte)
    requires base + |pg| <= |pgs| && row < |pg| && 0 <= a < DATA_SIZE
    ensures C.Spliced(pgs, base, R.Put(pg, row, a, v)) == R.Put(C.Spliced(pgs, base, pg), base + row, a, v)
  {
  }

  lemma SplicedNothing(pgs: seq<R.Page>, base: nat, held: nat)
    requires base + held <= |pgs|
    ensures C.Spliced(pgs, base, pgs[base..base + held]) == pgs
  {
  }

  /** A store mask `x & (size - 1)` moves no address that is inside. */
  lemma MaskIsIdentity(x: nat, k: nat, size: nat)
    requires size == Pow2(k) && x < size
    ensures And(x, size - 1) == x
  {
    hide And, Pow2;
    MaskIsRemainder(x, k);
    RemainderUnique(x, size, 0, x);
  }

  lemma DataMask(a: nat)
    requires a < DATA_SIZE
    ensures And(a, DATA_SIZE - 1) == a
  {
    Pow2Data();
    MaskIsIdentity(a, 12, DATA_SIZE);
  }

  lemma OutputMask(a: nat, cf: Config)
    requires Legal(cf) && a < cf.outcap
    ensures And(a, cf.outcap - 1) == a
  {
    var k: nat :| k <= 16 && cf.outcap == Pow2(k);
    MaskIsIdentity(a, k, cf.outcap);
  }

  class Batch {
    const rows: nat
    const nb: nat
    const tdlim: nat
    const oc: nat
    const cfg: seq<seq<int>>
    const inputs: seq<seq<byte>>
    const codelens: seq<nat>
    const budgets: seq<int>
    const codes: seq<array<byte>>
    const outs: seq<array<byte>>
    const states: seq<array<int>>
    const data: array<byte>
    const bstat: array<nat>

    /** The shapes the buffers are allocated with; no two rows share one. */
    ghost predicate Shaped()
    {
      && 0 < nb <= 65535
      && |cfg| == |inputs| == |codelens| == |budgets| == |codes| == |outs| == |states| == rows
      && data.Length == rows * DATA_SIZE && bstat.Length == rows
      && (forall p :: 0 <= p < rows ==> codes[p].Length == CODE_SIZE && outs[p].Length == oc
                                        && states[p].Length == STATE_ROWS)
      && (forall p, r :: 0 <= p < r < rows ==>
            codes[p] != codes[r] && outs[p] != outs[r] && states[p] != states[r])
      && (forall p, r :: 0 <= p < rows && 0 <= r < rows ==>
            codes[p] != outs[r] && codes[p] != data && outs[p] != data)
    }

    /** The rows were loaded under the blocks and streams of `l`. */
    ghost predicate Matches(l: B.Loads)
    {
      && |l.cfs| == |l.inputs| == |cfg| == |codelens| == |budgets| == rows && inputs == l.inputs
      && forall p :: 0 <= p < rows ==> RowMatches(l.cfs[p], p)
    }

    ghost predicate RowMatches(cf: Config, p: nat)
      requires p < |cfg| && p < |codelens| && p < |budgets|
    {
      && Legal(cf) && cfg[p] == K.CfgRow(cf) && codelens[p] == cf.codelen && budgets[p] == cf.tb
      && cf.nbanks == nb && cf.tdlim == tdlim && cf.outcap == oc
    }

    /** Row `p` holds the machine `m`, besides its page. */
    ghost predicate RowHolds(p: nat, m: R.Core, splim: nat)
      requires p < |states| && p < |codes| && p < |outs|
      reads states[p], codes[p], outs[p]
    {
      && states[p][..] == StateRow(m, splim) && codes[p][..] == m.code
      && |m.out| <= outs[p].Length && outs[p][..|m.out|] == m.out
    }

    ghost predicate RowsHold(l: B.Loads, ms: seq<R.Core>)
      requires |states| == |codes| == |outs| == |l.cfs| == rows
      reads states, codes, outs
    {
      |ms| == rows && forall p :: 0 <= p < rows ==> RowHolds(p, ms[p], l.cfs[p].splim)
    }

    ghost predicate PagesHold(pgs: seq<R.Page>)
      requires data.Length == rows * DATA_SIZE
      reads data
    {
      |pgs| == rows
      && forall p, a :: 0 <= p < rows && 0 <= a < DATA_SIZE ==> data[p * DATA_SIZE + a] == pgs[p][a]
    }

    ghost predicate StatusesHold(st: seq<R.Status>)
      requires bstat.Length == rows
      reads bstat
    {
      |st| == rows && forall p :: 0 <= p < rows ==> bstat[p] == R.StatusCode(st[p])
    }

    // ---------------------------------------------------------------- one row

    ghost function Base(pid: nat): nat
      requires 0 < nb
    {
      C.Base(pid, nb)
    }

    /** What row `pid` was handed: its own index, and the slice its group is. */
    ghost function RowEnv(l: B.Loads, st: seq<R.Status>, pid: nat): (e: R.Env)
      requires 0 < nb && pid < rows == |st| == |l.cfs| == |l.inputs|
    {
      var base, held := Base(pid), K.Held(pid, nb, rows);
      R.Env(l.cfs[pid], l.inputs[pid],
            R.Bank(pid % nb, Some(st[base..base + held]),
                   Some(seq(held, p requires 0 <= p < held => l.cfs[base + p].regions))))
    }

    ghost function GroupPages(pgs: seq<R.Page>, pid: nat): (pg: seq<R.Page>)
      requires 0 < nb && pid < rows == |pgs|
      ensures |pg| == K.Held(pid, nb, rows)
    {
      C.Slice(pgs, nb, pid)
    }

    /** One store into a row of the flat DATA buffer. */
    method PutData(pid: nat, bdelta: int, a: int, v: int, en: bool, ghost pgs: seq<R.Page>, ghost row: nat)
      requires Shaped() && PagesHold(pgs) && pid < rows && row < rows
      requires bdelta == (row - pid) * DATA_SIZE
      requires en ==> 0 <= a < DATA_SIZE && 0 <= v < 256
      modifies data
      ensures PagesHold(if en then R.Put(pgs, row, a, Low8(v)) else pgs)
    {
      if en {
        DataMask(a);
        hide And;
        ghost var at := row * DATA_SIZE + a;
        data[pid * DATA_SIZE + bdelta + And(a, DATA_SIZE - 1)] := v;
        ghost var pgs' := R.Put(pgs, row, a, Low8(v));
        forall p, b | 0 <= p < rows && 0 <= b < DATA_SIZE
          ensures data[p * DATA_SIZE + b] == pgs'[p][b]
        {
          if p != row || b != a {
            assert p * DATA_SIZE + b != at;
          }
        }
      }
    }

    /** The state row into locals. */
    method LoadRow(pid: nat, ghost m: R.Core, ghost splim: nat) returns (q: K.Locals)
      requires pid < |states| && states[pid][..] == StateRow(m, splim)
      ensures q == K.LocalsOf(m, splim)
    {
      var cells := states[pid][..];
      q := K.Locals([cells[0], cells[1], cells[2], cells[3]], cells[4], cells[5], cells[6], cells[7],
                    cells[8], cells[9], cells[17], cells[18], cells[10], cells[11], cells[16],
                    cells[19], cells[20], cells[21], cells[22]);
      assert q.r == m.r;
    }

    /** The locals and the shadow into the state row. */
    method StoreRow(pid: nat, k: K.Shadow, q: K.Locals, ghost m: R.Core, ghost m': R.Core, ghost splim: nat)
      requires pid < |states| && states[pid][..] == StateRow(m, splim) && q == K.LocalsOf(m, splim)
      requires K.LandsScalars(k, q, m, m') && K.LandsStreams(k, m, m') && m.status == R.Running
      requires m'.tick == m.tick && m'.reason == m.reason && m'.faultAddr == m.faultAddr
      requires |k.r| == 4
      modifies states[pid]
      ensures states[pid][..] == StateRow(m'.(tick := m.tick + 1), splim)
    {
      var row := states[pid];
      var cells := [k.r[0], k.r[1], k.r[2], k.r[3], k.hl, k.de, k.pc, k.sp, K.CarryAfter(k, q), k.z,
                    k.ipo, q.ol + (if k.oen then 1 else 0), row[12] + 1, if k.halt then 1 else 0,
                    row[14], row[15], k.mb, k.s, k.v, row[19], k.td, k.sc, k.sf];
      assert cells == StateRow(m'.(tick := m.tick + 1), splim);
      forall i | 0 <= i < STATE_ROWS {
        row[i] := cells[i];
      }
    }

    /** The pending output byte and the pending CODE store. */
    method StoreStreams(pid: nat, k: K.Shadow, q: K.Locals, ghost m: R.Core, ghost m': R.Core,
                        ghost cf: Config)
      requires Shaped() && pid < rows && Legal(cf) && cf.outcap == oc && q.ol == |m.out|
      requires codes[pid][..] == m.code && |m.out| <= oc && outs[pid][..|m.out|] == m.out
      requires K.LandsStreams(k, m, m') && (k.oen ==> q.ol < oc)
      modifies codes[pid], outs[pid]
      ensures codes[pid][..] == m'.code && |m'.out| <= oc && outs[pid][..|m'.out|] == m'.out
    {
      hide Legal, And;
      if k.oen {
        OutputMask(q.ol, cf);
        outs[pid][And(q.ol, oc - 1)] := k.oval;
      }
      if k.e3 {
        DataMask(k.a3);
        codes[pid][And(k.a3, CODE_SIZE - 1)] := k.v3;
      }
    }

    /** The pending DATA stores, in the order they are issued. */
    method StorePages(pid: nat, k: K.Shadow, ghost own: nat, ghost pgs: seq<R.Page>,
                      ghost pg: seq<R.Page>, ghost pg': seq<R.Page>)
      requires Shaped() && pid < rows == |pgs| && PagesHold(pgs) && own == pid % nb
      requires pg == GroupPages(pgs, pid) && K.LandsPages(k, own, pg, pg')
      modifies data
      ensures |pg'| == |pg| && PagesHold(C.Spliced(pgs, Base(pid), pg'))
    {
      hide PagesHold, And, C.Spliced, K.Stored, R.Put;
      ghost var base := Base(pid);
      ghost var row := own + k.bdelta / DATA_SIZE;
      assert k.bdelta == (base + row - pid) * DATA_SIZE;
      SplicedNothing(pgs, base, |pg|);
      ghost var p1 := K.Stored(pg, row, k.a1, k.v1, k.e1);
      SplicedStore(pgs, base, pg, row, k.a1, k.v1, k.e1);
      PutData(pid, k.bdelta, k.a1, k.v1, k.e1, pgs, base + row);
      ghost var p2 := K.Stored(p1, row, k.a2, k.v2, k.e2);
      SplicedStore(pgs, base, p1, row, k.a2, k.v2, k.e2);
      PutData(pid, k.bdelta, k.a2, k.v2, k.e2, C.Spliced(pgs, base, p1), base + row);
      ghost var p4 := K.Stored(p2, own, k.a4, k.v4, k.e4);
      SplicedStore(pgs, base, p2, own, k.a4, k.v4, k.e4);
      PutData(pid, 0, k.a4, k.v4, k.e4, C.Spliced(pgs, base, p2), base + own);
      SplicedStore(pgs, base, p4, own, k.a5, k.v5, k.e5);
      PutData(pid, 0, k.a5, k.v5, k.e5, C.Spliced(pgs, base, p4), base + own);
    }

    /** The tick's own call, over snapshots: a tick loads everything before it stores anything. */
    function CallOf(pid: nat): K.Call
      requires 0 < nb && pid < rows == |codes| == |inputs| == |codelens| && |cfg| == rows
      requires codes[pid].Length == CODE_SIZE
      reads codes[pid], data, bstat
    {
      K.Call(codes[pid][..], data[..], inputs[pid], codelens[pid], oc, cfg, nb, tdlim, bstat[..],
             pid, K.Held(pid, nb, rows))
    }

    lemma CallPages(pid: nat, pgs: seq<R.Page>)
      requires Shaped() && pid < rows == |pgs| && PagesHold(pgs)
      ensures K.HoldsPages(CallOf(pid), GroupPages(pgs, pid))
    {
      K.GroupOf(pid, nb);
    }

    lemma CallGroup(pid: nat, l: B.Loads, st: seq<R.Status>)
      requires Shaped() && Matches(l) && pid < rows && StatusesHold(st)
      ensures K.SeesGroup(CallOf(pid), RowEnv(l, st, pid))
    {
      hide Legal, K.StatusSeen, K.RegionsSeen;
      K.GroupOf(pid, nb);
      forall p: nat | p < K.Held(pid, nb, rows)
        ensures K.StatusSeen(CallOf(pid), RowEnv(l, st, pid), p) && K.RegionsSeen(CallOf(pid), RowEnv(l, st, pid), p)
      {
        CallMember(pid, l, st, p);
      }
    }

    lemma CallMember(pid: nat, l: B.Loads, st: seq<R.Status>, p: nat)
      requires Shaped() && Matches(l) && pid < rows && StatusesHold(st) && p < K.Held(pid, nb, rows)
      ensures K.StatusSeen(CallOf(pid), RowEnv(l, st, pid), p) && K.RegionsSeen(CallOf(pid), RowEnv(l, st, pid), p)
    {
      hide Legal;
      K.GroupOf(pid, nb);
      assert RowMatches(l.cfs[Base(pid) + p], Base(pid) + p);
    }

    lemma CallSees(pid: nat, l: B.Loads, ms: seq<R.Core>, pgs: seq<R.Page>, st: seq<R.Status>)
      requires Shaped() && Matches(l) && pid < rows && |pgs| == rows
      requires RowsHold(l, ms) && PagesHold(pgs) && StatusesHold(st)
      ensures var t, e, pg := CallOf(pid), RowEnv(l, st, pid), GroupPages(pgs, pid);
        && R.Fits(e, pg) && K.HoldsPages(t, pg) && K.SeesGroup(t, e)
        && K.Loaded(K.LocalsOf(ms[pid], l.cfs[pid].splim), t, e, ms[pid], pg)
    {
      hide K.HoldsPages, K.SeesGroup, PagesHold, StatusesHold, Legal;
      CallPages(pid, pgs);
      CallGroup(pid, l, st);
      K.GroupOf(pid, nb);
      assert RowMatches(l.cfs[pid], pid) && RowHolds(pid, ms[pid], l.cfs[pid].splim);
    }

    /** The world a tick of row `pid` starts from: its machine and its group's pages. */
    ghost function WorldOf(ms: seq<R.Core>, pgs: seq<R.Page>, pid: nat): R.World
      requires 0 < nb && pid < rows == |ms| == |pgs|
    {
      R.World(ms[pid], GroupPages(pgs, pid))
    }

    /** A clean tick's stores. */
    method CommitRow(pid: nat, k: K.Shadow, q: K.Locals, ghost cf: Config, ghost m: R.Core, ghost m': R.Core,
                     ghost pgs: seq<R.Page>, ghost pg': seq<R.Page>)
      requires Shaped() && pid < rows == |pgs| && RowMatches(cf, pid) && q == K.LocalsOf(m, cf.splim)
      requires RowHolds(pid, m, cf.splim) && PagesHold(pgs) && m.status == R.Running
      requires |k.r| == 4 && (k.oen ==> q.ol < oc)
      requires K.LandsScalars(k, q, m, m') && K.LandsStreams(k, m, m')
      requires K.LandsPages(k, pid % nb, GroupPages(pgs, pid), pg')
      requires m'.tick == m.tick && m'.reason == m.reason && m'.faultAddr == m.faultAddr
      modifies states[pid], codes[pid], outs[pid], data
      ensures RowHolds(pid, m'.(tick := m.tick + 1), cf.splim)
      ensures |pg'| == K.Held(pid, nb, rows) && PagesHold(C.Spliced(pgs, Base(pid), pg'))
    {
      hide K.LandsScalars, K.LandsStreams, K.LandsPages, PagesHold, Legal, StateRow;
      StoreRow(pid, k, q, m, m', cf.splim);
      StoreStreams(pid, k, q, m, m', cf);
      StorePages(pid, k, pid % nb, pgs, GroupPages(pgs, pid), pg');
    }

    method StoreOverrun(pid: nat, ghost m: R.Core, ghost splim: nat)
      requires pid < |states| && states[pid][..] == StateRow(m, splim)
      modifies states[pid]
      ensures states[pid][..] == StateRow(m.(status := R.Overrun), splim)
    {
      states[pid][13] := 2;
    }

    method StoreFault(pid: nat, late: nat, pc: word, ghost m: R.Core, ghost cause: Cause, ghost splim: nat)
      requires pid < |states| && states[pid][..] == StateRow(m, splim) && late == Code(cause)
      modifies states[pid]
      ensures states[pid][..] == StateRow(m.(status := R.Error, reason := cause, faultAddr := pc), splim)
    {
      states[pid][13], states[pid][14], states[pid][15] := 3, late, pc;
    }

    lemma CallLimit(pid: nat)
      requires Shaped() && pid < rows
      ensures CallOf(pid).oc == oc
    {
    }

    /** The row's own part of a tick: its state, its streams, and the pages of its group. */
    method TickRow(pid: nat, ghost l: B.Loads, ghost st: seq<R.Status>, ghost m: R.Core, ghost pgs: seq<R.Page>)
      returns (status: int)
      requires Shaped() && Matches(l) && pid < rows && |pgs| == |st| == rows
      requires RowHolds(pid, m, l.cfs[pid].splim) && PagesHold(pgs)
      requires var t, e, pg := CallOf(pid), RowEnv(l, st, pid), GroupPages(pgs, pid);
        && R.Fits(e, pg) && K.HoldsPages(t, pg) && K.SeesGroup(t, e)
        && K.Loaded(K.LocalsOf(m, l.cfs[pid].splim), t, e, m, pg)
      modifies states[pid], codes[pid], outs[pid], data
      ensures var t := R.Tick(RowEnv(l, st, pid), R.World(m, GroupPages(pgs, pid)));
        && RowHolds(pid, t.m, l.cfs[pid].splim) && status == R.StatusCode(t.m.status)
        && |t.pg| == K.Held(pid, nb, rows) && PagesHold(C.Spliced(pgs, Base(pid), t.pg))
    {
      hide R.Step, K.HoldsPages, K.SeesGroup, K.Loaded, K.Late, K.LandsScalars, K.LandsStreams, K.LandsPages,
           PagesHold, CallOf, R.Fits, Legal;
      ghost var e, pg, splim := RowEnv(l, st, pid), GroupPages(pgs, pid), l.cfs[pid].splim;
      SplicedNothing(pgs, Base(pid), |pg|);
      R.StepFramed(e, m, pg);
      assert RowMatches(l.cfs[pid], pid);
      var q := LoadRow(pid, m, splim);
      var t := CallOf(pid);
      CallLimit(pid);
      var k := K.Compute(q, t, e, m, pg);
      ghost var o := R.Step(e, m, pg);
      var row := states[pid];
      var late := K.Late(k, q, t);
      if row[13] != 0 {
        status := row[13];
      } else if row[12] >= budgets[pid] {
        StoreOverrun(pid, m, splim);
        status := 2;
      } else if late != 0 {
        StoreFault(pid, late, q.pc, m, o.cause, splim);
        status := 3;
      } else {
        CleanTick(k, q, t, e, m, pg);
        CommitRow(pid, k, q, l.cfs[pid], m, o.m, pgs, o.pg);
        status := if k.halt then 1 else 0;
      }
    }

    /** One tick of one row. A stopped row stores nothing, a spent budget stores the status, a
        cause stores the three fault fields, and only a clean tick commits; in every case the
        row and its group's pages end where the reference's tick does. */
    method Tick(pid: nat, ghost l: B.Loads, ghost ms: seq<R.Core>, ghost pgs: seq<R.Page>,
                ghost st: seq<R.Status>) returns (status: int)
      requires Shaped() && Matches(l) && pid < rows && |pgs| == rows
      requires RowsHold(l, ms) && PagesHold(pgs) && StatusesHold(st)
      modifies states[pid], codes[pid], outs[pid], data
      ensures var t := R.Tick(RowEnv(l, st, pid), WorldOf(ms, pgs, pid));
        && RowsHold(l, ms[pid := t.m]) && status == R.StatusCode(t.m.status)
        && |t.pg| == K.Held(pid, nb, rows) && PagesHold(C.Spliced(pgs, Base(pid), t.pg))
    {
      hide R.Step, R.Tick, K.HoldsPages, K.SeesGroup, K.Loaded, PagesHold, CallOf, R.Fits, Legal, RowHolds;
      CallSees(pid, l, ms, pgs, st);
      ghost var e, m, pg := RowEnv(l, st, pid), ms[pid], GroupPages(pgs, pid);
      assert RowHolds(pid, m, l.cfs[pid].splim);
      status := TickRow(pid, l, st, m, pgs);
      ghost var t := R.Tick(e, R.World(m, pg));
      forall p | 0 <= p < rows && p != pid ensures RowHolds(p, ms[p], l.cfs[p].splim) {
        assert states[p] != states[pid] && codes[p] != codes[pid] && outs[p] != outs[pid];
        assert codes[p] != outs[pid] && outs[p] != codes[pid] && codes[p] != data && outs[p] != data;
      }
    }

    lemma CleanTick(k: K.Shadow, q: K.Locals, t: K.Call, e: R.Env, m: R.Core, pg: seq<R.Page>)
      requires R.Fits(e, pg) && K.Settles(k, q, t, e.bank.own, m, pg, R.Step(e, m, pg))
      requires K.Late(k, q, t) == 0
      ensures var o := R.Step(e, m, pg);
        && o.Next? && |k.r| == 4 && (k.oen ==> q.ol < t.oc)
        && K.LandsScalars(k, q, m, o.m) && K.LandsStreams(k, m, o.m) && K.LandsPages(k, e.bank.own, pg, o.pg)
        && (o.m.status == if k.halt then R.Halted else m.status)
    {
      hide R.Step;
      R.StepFramed(e, m, pg);
    }

    lemma StatusCell(pid: nat, l: B.Loads, ms: seq<R.Core>)
      requires Shaped() && |l.cfs| == rows && pid < rows && RowsHold(l, ms)
      ensures states[pid][13] == R.StatusCode(ms[pid].status)
    {
      assert states[pid][..][13] == states[pid][13];
    }

    /** The resident program of one row: it ticks until the row stops or the step limit is
        reached, all of it against the statuses the launch copied. */
    method Resident(pid: nat, limit: int, ghost l: B.Loads, ghost ms: seq<R.Core>,
                    ghost pgs: seq<R.Page>, ghost st: seq<R.Status>) returns (n: nat)
      requires Shaped() && Matches(l) && pid < rows && |pgs| == |ms| == rows
      requires RowsHold(l, ms) && PagesHold(pgs) && StatusesHold(st)
      requires R.Fits(RowEnv(l, st, pid), GroupPages(pgs, pid))
      modifies states[pid], codes[pid], outs[pid], data
      ensures var w := I.After(RowEnv(l, st, pid), WorldOf(ms, pgs, pid), n);
        && RowsHold(l, ms[pid := w.m])
        && |w.pg| == K.Held(pid, nb, rows) && PagesHold(C.Spliced(pgs, Base(pid), w.pg))
        && (w.m.status != R.Running || (0 < limit && n == limit)) && (0 < limit ==> n <= limit)
    {
      hide R.Tick, PagesHold, RowsHold, Legal, R.Fits, RowEnv;
      ghost var e, w := RowEnv(l, st, pid), WorldOf(ms, pgs, pid);
      SplicedNothing(pgs, Base(pid), |w.pg|);
      n := 0;
      assert ms[pid := w.m] == ms;
      StatusCell(pid, l, ms);
      var status := states[pid][13];
      while status == 0 && (limit <= 0 || n < limit)
        invariant 0 < limit ==> n <= limit
        invariant |I.After(e, w, n).pg| == |w.pg|
        invariant RowsHold(l, ms[pid := I.After(e, w, n).m])
        invariant PagesHold(C.Spliced(pgs, Base(pid), I.After(e, w, n).pg))
        invariant status == R.StatusCode(I.After(e, w, n).m.status)
        decreases R.Fuel(e, I.After(e, w, n).m)
      {
        ghost var v := I.After(e, w, n);
        ghost var ms', pgs' := ms[pid := v.m], C.Spliced(pgs, Base(pid), v.pg);
        R.TickSpendsFuel(e, v);
        SplicedAgain(pgs, Base(pid), v.pg, R.Tick(e, v).pg);
        assert GroupPages(pgs', pid) == v.pg;
        status := Tick(pid, l, ms', pgs', st);
        assert ms'[pid := R.Tick(e, v).m] == ms[pid := R.Tick(e, v).m];
        n := n + 1;
        assert I.After(e, w, n) == R.Tick(e, v);
      }
    }

    // ------------------------------------------------------------- whole launches

    /** A row's environment and pages are its member's in the row's own group. */
    lemma RowIsMember(l: B.Loads, g: B.Group, st: seq<R.Status>, pid: nat)
      requires Shaped() && Matches(l) && pid < rows == |st| && |g.ms| == |g.pg| == rows
      ensures C.Batched(l, g, nb) && B.Formed(C.CutLoads(l, nb, pid), C.Cut(g, nb, pid))
      ensures pid % nb < K.Held(pid, nb, rows)
      ensures R.Fits(RowEnv(l, st, pid), GroupPages(g.pg, pid))
      ensures RowEnv(l, st, pid) == B.EnvOf(C.CutLoads(l, nb, pid), pid % nb, C.Slice(st, nb, pid))
      ensures C.Cut(g, nb, pid).ms[pid % nb] == g.ms[pid] && C.Cut(g, nb, pid).pg == GroupPages(g.pg, pid)
    {
      hide Legal, B.Formed;
      BatchIsCut(l, g);
      C.RowInCut(l, nb, g, pid);
      var given := RowEnv(l, st, pid).bank;
      var sub := C.CutLoads(l, nb, pid);
      assert forall p :: 0 <= p < K.Held(pid, nb, rows) ==> given.regions.value[p] == B.Regions(sub)[p];
      assert given.regions.value == B.Regions(sub);
    }

    lemma BatchIsCut(l: B.Loads, g: B.Group)
      requires Shaped() && Matches(l) && |g.ms| == |g.pg| == rows
      ensures C.Batched(l, g, nb)
    {
      assert forall p :: 0 <= p < rows ==> RowMatches(l.cfs[p], p);
    }

    /** One program of a one-tick launch: its row and its group's pages move as the member's turn
        in the group does, and no other row. */
    method Program(pid: nat, ghost l: B.Loads, ghost g: B.Group, ghost st: seq<R.Status>)
      requires Shaped() && Matches(l) && pid < rows && C.Batched(l, g, nb) && |g.ms| == rows
      requires RowsHold(l, g.ms) && PagesHold(g.pg) && StatusesHold(st)
      modifies states[pid], codes[pid], outs[pid], data
      ensures var h := C.RowStep(l, nb, st, g, pid); RowsHold(l, h.ms) && PagesHold(h.pg)
    {
      hide R.Tick, PagesHold, RowsHold, Legal, RowEnv, B.EnvOf, GroupPages, C.Slice, B.Formed;
      RowIsMember(l, g, st, pid);
      ghost var e, w := RowEnv(l, st, pid), WorldOf(g.ms, g.pg, pid);
      var n := Resident(pid, 1, l, g.ms, g.pg, st);
      if n == 0 {
        R.StoppedTick(e, w);
      } else {
        assert I.After(e, w, 0) == w;
      }
      assert I.After(e, w, n) == R.Tick(e, w);
      TurnIsRow(l, st, g, pid);
    }

    /** A row's turn on values, cell by cell. */
    lemma TurnIsRow(l: B.Loads, st: seq<R.Status>, g: B.Group, pid: nat)
      requires Shaped() && Matches(l) && pid < rows == |st| && C.Batched(l, g, nb) && |g.ms| == rows
      ensures R.Fits(RowEnv(l, st, pid), GroupPages(g.pg, pid))
      ensures var t, h := R.Tick(RowEnv(l, st, pid), WorldOf(g.ms, g.pg, pid)), C.RowStep(l, nb, st, g, pid);
        && |t.pg| == K.Held(pid, nb, rows)
        && h.ms == g.ms[pid := t.m] && h.pg == C.Spliced(g.pg, Base(pid), t.pg)
    {
      hide R.Tick, Legal, RowEnv, B.EnvOf, GroupPages, C.Slice, B.Formed, R.Fits;
      RowIsMember(l, g, st, pid);
      CutIsPart(g.ms, pid);
      var sub, of := C.CutLoads(l, nb, pid), C.Cut(g, nb, pid);
      var t := R.Tick(RowEnv(l, st, pid), WorldOf(g.ms, g.pg, pid));
      I.TickKeepsPages(RowEnv(l, st, pid), WorldOf(g.ms, g.pg, pid));
      assert B.StepOne(sub, C.Slice(st, nb, pid), of, pid % nb) == B.Group(of.ms[pid % nb := t.m], t.pg);
      SplicedOne(g.ms, Base(pid), of.ms, pid % nb, t.m);
    }

    lemma CutIsPart<X>(s: seq<X>, pid: nat)
      requires 0 < nb && pid < |s|
      ensures C.Slice(s, nb, pid) == s[Base(pid)..Base(pid) + K.Held(pid, nb, |s|)]
    {
    }

    /** The launch's programs, in the order they happen to run. */
    method Programs(order: seq<nat>, ghost l: B.Loads, ghost g: B.Group, ghost st: seq<R.Status>)
      requires Shaped() && Matches(l) && C.Batched(l, g, nb) && |g.ms| == rows && StatusesHold(st)
      requires RowsHold(l, g.ms) && PagesHold(g.pg) && B.Within(order, rows)
      modifies states, codes, outs, data
      ensures var h := C.RowSteps(l, nb, st, g, order); RowsHold(l, h.ms) && PagesHold(h.pg)
      ensures StatusesHold(st)
    {
      assert bstat.Length == |states| == |codes| == |outs| == |l.cfs| == rows;
      hide PagesHold, RowsHold, C.RowStep, C.Batched, O.Harmonious, B.EnvOf, Matches, Shaped, StatusesHold;
      for i := 0 to |order|
        invariant StatusesHold(st)
        invariant var h := C.RowSteps(l, nb, st, g, order[..i]);
          RowsHold(l, h.ms) && PagesHold(h.pg)
      {
        ghost var h := C.RowSteps(l, nb, st, g, order[..i]);
        assert order[..i + 1][..i] == order[..i];
        Program(order[i], l, h, st);
      }
      assert order[..|order|] == order;
    }

    /** A one-tick launch over any number of rows, its programs taken in any order; the statuses
        are copied first, when groups have more than one row. Each group ends where its own
        members' turns end; when the order is one of all rows and the group is in harmony, where
        its own group tick ends - the last group, of fewer rows than NB, included. */
    method Launch(order: seq<nat>, ghost l: B.Loads, ghost g: B.Group, ghost st0: seq<R.Status>)
      requires Shaped() && Matches(l) && |g.ms| == |g.pg| == rows && StatusesHold(st0)
      requires RowsHold(l, g.ms) && PagesHold(g.pg) && B.Within(order, rows)
      modifies bstat, states, codes, outs, data
      ensures C.Batched(l, g, nb) && StatusesHold(if nb > 1 then B.Statuses(g.ms) else st0)
      ensures var h := C.Launched(l, nb, g, order); RowsHold(l, h.ms) && PagesHold(h.pg)
      ensures forall p: nat :: p < rows && B.Permutation(order, rows) ==> TicksGroup(l, g, order, p)
    {
      BatchIsCut(l, g);
      ghost var st := if nb > 1 then B.Statuses(g.ms) else st0;
      if nb > 1 {
        CopyStatuses(l, g);
      }
      hide PagesHold, RowsHold, C.RowSteps, C.Batched, O.Harmonious, Matches, Shaped, StatusesHold;
      Programs(order, l, g, st);
      C.BatchedShape(l, g, nb);
      if nb <= 1 {
        C.LoneStatusesIdle(l, st, B.Statuses(g.ms), g, order);
      }
      forall p: nat | p < rows && B.Permutation(order, rows) ensures TicksGroup(l, g, order, p) {
        C.LaunchTicksGroups(l, nb, g, order, p);
      }
    }

    /** The launch has ticked row `p`'s group, when that group is in harmony. */
    ghost predicate TicksGroup(l: B.Loads, g: B.Group, order: seq<nat>, p: nat)
      requires C.Batched(l, g, nb) && |g.ms| == rows && p < rows && B.Within(order, rows)
    {
      C.CutFormed(l, g, nb, p);
      var (sub, of) := (C.CutLoads(l, nb, p), C.Cut(g, nb, p));
      O.Harmonious(sub, of) ==> C.Cut(C.Launched(l, nb, g, order), nb, p) == B.GroupTick(sub, of)
    }

    method CopyStatuses(ghost l: B.Loads, ghost g: B.Group)
      requires Shaped() && Matches(l) && |g.ms| == rows
      requires RowsHold(l, g.ms)
      modifies bstat
      ensures StatusesHold(B.Statuses(g.ms)) && RowsHold(l, g.ms)
    {
      for p := 0 to rows
        invariant forall r :: 0 <= r < p ==> bstat[r] == R.StatusCode(g.ms[r].status)
        invariant RowsHold(l, g.ms)
      {
        StatusCell(p, l, g.ms);
        bstat[p] := states[p][13];
      }
    }

    /** Row `p`'s group stands where its own run ends, when it is in harmony at every boundary of
        that run. */
    ghost predicate EndsGroup(l: B.Loads, g: B.Group, h: B.Group, p: nat)
      requires C.Batched(l, g, nb) && |g.ms| == |h.ms| == |h.pg| == rows && p < rows
    {
      C.CutFormed(l, g, nb, p);
      var (sub, of) := (C.CutLoads(l, nb, p), C.Cut(g, nb, p));
      (forall k: nat :: O.Harmonious(sub, B.GroupAfter(sub, of, k))) ==> C.Cut(h, nb, p) == C.Ended(sub, of)
    }

    method AnyRow(ghost l: B.Loads, ghost g: B.Group) returns (any: bool)
      requires Shaped() && Matches(l) && |g.ms| == rows && RowsHold(l, g.ms)
      ensures any <==> C.AnyRunning(g)
    {
      any := false;
      for p := 0 to rows
        invariant any <==> exists r :: 0 <= r < p && g.ms[r].status == R.Running
      {
        StatusCell(p, l, g.ms);
        any := any || states[p][13] == 0;
      }
    }

    /** Groups of one row: a single launch without a step limit. */
    method RunAlone(order: seq<nat>, ghost l: B.Loads, ghost g: B.Group, ghost st: seq<R.Status>)
      returns (ghost h: B.Group)
      requires Shaped() && Matches(l) && |g.ms| == |g.pg| == rows && StatusesHold(st) && nb == 1
      requires RowsHold(l, g.ms) && PagesHold(g.pg) && B.Permutation(order, rows)
      modifies states, codes, outs, data
      ensures C.Batched(l, g, nb) && |h.ms| == |h.pg| == rows && RowsHold(l, h.ms) && PagesHold(h.pg)
      ensures !C.AnyRunning(h) && forall p: nat :: p < rows ==> EndsGroup(l, g, h, p)
    {
      BatchIsCut(l, g);
      hide R.Fits, PagesHold, RowsHold, C.Batched, O.Harmonious, C.Ended, RowEnv, Matches, Shaped, StatusesHold,
           B.GroupAfter, C.Cut, C.CutLoads, B.Formed;
      h := g;
      for i := 0 to |order|
        invariant |h.ms| == |h.pg| == rows && RowsHold(l, h.ms) && PagesHold(h.pg) && StatusesHold(st)
        invariant forall p: nat :: p < rows ==> AloneSoFar(l, g, h, order[..i], p)
      {
        var pid := order[i];
        ghost var mid := h;
        RowIsMember(l, mid, st, pid);
        var n := Resident(pid, 0, l, mid.ms, mid.pg, st);
        ghost var w := I.After(RowEnv(l, st, pid), WorldOf(mid.ms, mid.pg, pid), n);
        h := B.Group(mid.ms[pid := w.m], C.Spliced(mid.pg, Base(pid), w.pg));
        ghost var done := order[..i + 1];
        forall p: nat | p < rows ensures AloneSoFar(l, g, h, done, p) {
          assert AloneSoFar(l, g, mid, order[..i], p);
          AloneExtends(l, g, mid, st, order, i, n, p);
        }
      }
      assert order[..|order|] == order;
      forall p: nat | p < rows ensures h.ms[p].status != R.Running && EndsGroup(l, g, h, p) {
        assert AloneSoFar(l, g, h, order, p);
      }
    }

    /** Rows already run have ended, the others stand where they stood. */
    ghost predicate AloneSoFar(l: B.Loads, g: B.Group, h: B.Group, done: seq<nat>, p: nat)
      requires C.Batched(l, g, nb) && nb == 1 && |g.ms| == |h.ms| == |h.pg| == rows && p < rows
    {
      C.CutFormed(l, g, nb, p);
      C.Cut(h, nb, p) == (if p in done then C.Ended(C.CutLoads(l, nb, p), C.Cut(g, nb, p)) else C.Cut(g, nb, p))
      && (p in done ==> h.ms[p].status != R.Running)
    }

    lemma AloneExtends(l: B.Loads, g: B.Group, mid: B.Group, st: seq<R.Status>, order: seq<nat>, i: nat,
                       n: nat, p: nat)
      requires Shaped() && Matches(l) && C.Batched(l, g, nb) && nb == 1 && |st| == rows
      requires |g.ms| == |mid.ms| == |mid.pg| == rows && p < rows && i < |order| && B.Permutation(order, rows)
      requires AloneSoFar(l, g, mid, order[..i], p) && AloneSoFar(l, g, mid, order[..i], order[i])
      requires R.Fits(RowEnv(l, st, order[i]), GroupPages(mid.pg, order[i]))
      requires var w := I.After(RowEnv(l, st, order[i]), WorldOf(mid.ms, mid.pg, order[i]), n);
        w.m.status != R.Running
      ensures var w := I.After(RowEnv(l, st, order[i]), WorldOf(mid.ms, mid.pg, order[i]), n);
        && |w.pg| == 1
        && AloneSoFar(l, g, B.Group(mid.ms[order[i] := w.m], C.Spliced(mid.pg, Base(order[i]), w.pg)),
                      order[..i + 1], p)
    {
      hide R.Fits, C.Batched, C.Ended, RowEnv, Matches, Shaped, B.Formed, I.After, B.Within, C.Cut, C.CutLoads;
      var pid := order[i];
      C.BatchedShape(l, g, nb);
      RowIsMember(l, mid, st, pid);
      RowIsMember(l, g, st, pid);
      assert order[..i + 1] == order[..i] + [pid];
      assert pid !in order[..i];
      C.LoneRowEnds(l, mid, C.Slice(st, nb, pid), n, pid, p);
    }

    /** The whole run. With groups, one-tick launches until no row runs, each copying the statuses
        anew and taking the rows in any order; without, one launch to the end. Either way every
        row has stopped and every group in harmony throughout stands where its own run ends. */
    method Run(orders: nat -> seq<nat>, ghost l: B.Loads, ghost g: B.Group, ghost st0: seq<R.Status>)
      returns (ghost h: B.Group)
      requires Shaped() && Matches(l) && |g.ms| == |g.pg| == rows && StatusesHold(st0)
      requires RowsHold(l, g.ms) && PagesHold(g.pg) && C.Orders(orders, rows)
      modifies bstat, states, codes, outs, data
      ensures C.Batched(l, g, nb) && |h.ms| == |h.pg| == rows && RowsHold(l, h.ms) && PagesHold(h.pg)
      ensures !C.AnyRunning(h) && forall p: nat :: p < rows ==> EndsGroup(l, g, h, p)
    {
      BatchIsCut(l, g);
      if nb == 1 {
        h := RunAlone(orders(0), l, g, st0);
        return;
      }
      h := RunGroups(orders, l, g, st0);
    }

    method RunGroups(orders: nat -> seq<nat>, ghost l: B.Loads, ghost g: B.Group, ghost st0: seq<R.Status>)
      returns (ghost h: B.Group)
      requires Shaped() && Matches(l) && |g.ms| == |g.pg| == rows && StatusesHold(st0)
      requires RowsHold(l, g.ms) && PagesHold(g.pg) && C.Orders(orders, rows) && C.Batched(l, g, nb)
      modifies bstat, states, codes, outs, data
      ensures |h.ms| == |h.pg| == rows && RowsHold(l, h.ms) && PagesHold(h.pg)
      ensures !C.AnyRunning(h) && forall p: nat :: p < rows ==> EndsGroup(l, g, h, p)
    {
      hide PagesHold, RowsHold, C.Launched, C.Batched, O.Harmonious, B.GroupAfter, C.Ended, C.Most, C.AnyRunning,
           StatusesHold, C.Cut, C.CutLoads, B.Distinct;
      C.BatchedShape(l, g, nb);
      ghost var st := st0;
      var n: nat := 0;
      h := g;
      var any := AnyRow(l, h);
      while any
        invariant h == C.LaunchedTimes(l, nb, g, orders, n)
        invariant C.Batched(l, h, nb) && |h.ms| == |h.pg| == rows
        invariant RowsHold(l, h.ms) && PagesHold(h.pg) && StatusesHold(st)
        invariant any <==> C.AnyRunning(h)
        decreases C.Most(l, h, rows)
      {
        C.LaunchShortens(l, nb, h, orders(n));
        Launch(orders(n), l, h, st);
        st := if nb > 1 then B.Statuses(h.ms) else st;
        h := C.Launched(l, nb, h, orders(n));
        C.BatchedShape(l, h, nb);
        n := n + 1;
        any := AnyRow(l, h);
      }
      forall p: nat | p < rows ensures EndsGroup(l, g, h, p) {
        C.LaunchesEndGroups(l, nb, g, orders, n, p);
      }
    }
  }

  lemma SplicedAgain(pgs: seq<R.Page>, base: nat, one: seq<R.Page>, two: seq<R.Page>)
    requires base + |one| <= |pgs| && |one| == |two|
    ensures C.Spliced(C.Spliced(pgs, base, one), base, two) == C.Spliced(pgs, base, two)
    ensures C.Spliced(pgs, base, one)[base..base + |one|] == one
  {
  }

  lemma SplicedStore(pgs: seq<R.Page>, base: nat, pg: seq<R.Page>, row: nat, a: int, v: int, en: bool)
    requires base + |pg| <= |pgs| && row < |pg| && K.InPage(en, a, v)
    ensures |K.Stored(pg, row, a, v, en)| == |pg|
    ensures C.Spliced(pgs, base, K.Stored(pg, row, a, v, en))
            == if en then R.Put(C.Spliced(pgs, base, pg), base + row, a, Low8(v)) else C.Spliced(pgs, base, pg)
  {
    if en {
      SplicedPut(pgs, base, pg, row, a, Low8(v));
    }
  }

  /** A group's slice with one machine replaced, put back, is the batch with one replaced. */
  lemma SplicedOne(ms: seq<R.Core>, base: nat, part: seq<R.Core>, i: nat, m: R.Core)
    requires base + |part| <= |ms| && part == ms[base..base + |part|] && i < |part|
    ensures C.Spliced(ms, base, part[i := m]) == ms[base + i := m]
  {
  }
}
