/** Machines that step together over a set of DATA pages. Statuses are sampled once, at the
    tick boundary; a page with a running owner belongs to that owner alone. */
module Banks {
  import opened Bits
  import opened Isa
  import opened Reference
  import opened Locality
  import I = Invariants

  // ------------------------------------------------------- the group on values

  /** What was declared at load: one block and one input stream per machine. */
  datatype Loads = Loads(cfs: seq<Config>, inputs: seq<seq<byte>>)

  datatype Group = Group(ms: seq<Core>, pg: seq<Page>)

  /** As many pages as members, and a selector range that covers them. */
  predicate Formed(l: Loads, g: Group)
  {
    && 1 <= |g.ms| <= 65535
    && |g.ms| == |g.pg| == |l.cfs| == |l.inputs|
    && (forall i :: 0 <= i < |l.cfs| ==> Legal(l.cfs[i]) && |l.cfs| <= l.cfs[i].nbanks)
  }

  function Statuses(ms: seq<Core>): seq<Status>
  {
    seq(|ms|, i requires 0 <= i < |ms| => ms[i].status)
  }

  function Regions(l: Loads): seq<seq<Region>>
  {
    seq(|l.cfs|, i requires 0 <= i < |l.cfs| => l.cfs[i].regions)
  }

  /** What machine `i` was handed for a tick whose boundary statuses are `st`. */
  function EnvOf(l: Loads, i: nat, st: seq<Status>): Env
    requires i < |l.cfs| == |l.inputs|
  {
    Env(l.cfs[i], l.inputs[i], Bank(i, Some(st), Some(Regions(l))))
  }

  /** One member's step inside a tick. */
  function StepOne(l: Loads, st: seq<Status>, g: Group, i: nat): (h: Group)
    requires Formed(l, g) && i < |g.ms|
    ensures Formed(l, h) && |h.ms| == |g.ms|
  {
    I.TickKeepsPages(EnvOf(l, i, st), World(g.ms[i], g.pg));
    var t := Tick(EnvOf(l, i, st), World(g.ms[i], g.pg));
    Group(g.ms[i := t.m], t.pg)
  }

  /** The members step in the order given, all against the same boundary statuses. */
  function StepAll(l: Loads, st: seq<Status>, g: Group, order: seq<nat>): (h: Group)
    requires Formed(l, g) && forall j :: 0 <= j < |order| ==> order[j] < |g.ms|
    ensures Formed(l, h) && |h.ms| == |g.ms|
    decreases |order|
  {
    if order == [] then g
    else
      var last := |order| - 1;
      StepOne(l, st, StepAll(l, st, g, order[..last]), order[last])
  }

  function Indices(n: nat): (s: seq<nat>)
    ensures |s| == n && forall i :: 0 <= i < n ==> s[i] == i
  {
    seq(n, i => i)
  }

  function GroupTick(l: Loads, g: Group): (h: Group)
    requires Formed(l, g)
    ensures Formed(l, h) && |h.ms| == |g.ms|
  {
    StepAll(l, Statuses(g.ms), g, Indices(|g.ms|))
  }

  function GroupAfter(l: Loads, g: Group, n: nat): (h: Group)
    requires Formed(l, g)
    ensures Formed(l, h) && |h.ms| == |g.ms|
  {
    if n == 0 then g else GroupTick(l, GroupAfter(l, g, n - 1))
  }

  // ------------------------------------------------------------ orders of stepping

  predicate Distinct(order: seq<nat>)
  {
    forall i, j :: 0 <= i < j < |order| ==> order[i] != order[j]
  }

  predicate Within(order: seq<nat>, n: nat) { forall j :: 0 <= j < |order| ==> order[j] < n }

  /** Every index below `n`, once. */
  predicate Permutation(order: seq<nat>, n: nat)
  {
    Within(order, n) && Distinct(order) && forall i: nat :: i < n ==> i in order
  }

  /** In any order, and whatever the others do to the pages: whether a bank access is refused,
      and how, is settled at the boundary. */
  lemma {:induction false} VerdictsSettledAtBoundary(l: Loads, g: Group, order: seq<nat>, i: nat)
    requires Formed(l, g) && Within(order, |g.ms|) && i < |g.ms| && i !in order
    ensures var h := StepAll(l, Statuses(g.ms), g, order);
      var e := EnvOf(l, i, Statuses(g.ms));
      && h.ms[i] == g.ms[i] && |h.pg| == |g.pg|
      && BankVerdict(e, |h.pg|, h.ms[i].mb) == BankVerdict(e, |g.pg|, g.ms[i].mb)
    decreases |order|
  {
    if order != [] {
      var last := |order| - 1;
      assert i != order[last];
      VerdictsSettledAtBoundary(l, g, order[..last], i);
    }
  }

  // ------------------------------------------------------- ownership of a page

  /** A page whose owner was running at the boundary is not changed by anybody else's step. */
  lemma OthersLeaveRunningPage(l: Loads, st: seq<Status>, g: Group, i: nat, k: nat)
    requires Formed(l, g) && |st| == |g.ms| && i < |g.ms| && k < |g.ms| && i != k
    requires st[k] == Running
    ensures StepOne(l, st, g, i).pg[k] == g.pg[k]
  {
    hide Step, Covered, PageRegions;
    var e := EnvOf(l, i, st);
    I.StepKept(e, g.ms[i], g.pg);
    assert !I.MayWrite(e, |g.pg|, k);
  }

  /** Nobody, in whatever order, changes a byte its page's owner declared protected. */
  lemma ProtectedByteStays(l: Loads, st: seq<Status>, g: Group, i: nat, k: nat, a: nat)
    requires Formed(l, g) && i < |g.ms| && k < |g.ms| && a < DATA_SIZE
    requires Covered(l.cfs[k].regions, a)
    ensures StepOne(l, st, g, i).pg[k][a] == g.pg[k][a]
  {
    hide Step, Covered;
    var e := EnvOf(l, i, st);
    I.StepKept(e, g.ms[i], g.pg);
    assert PageRegions(e, k) == l.cfs[k].regions;
  }

  lemma {:induction false} ProtectedByteStaysAll(l: Loads, st: seq<Status>, g: Group, order: seq<nat>,
                                                 k: nat, a: nat)
    requires Formed(l, g) && Within(order, |g.ms|) && k < |g.ms| && a < DATA_SIZE
    requires Covered(l.cfs[k].regions, a)
    ensures StepAll(l, st, g, order).pg[k][a] == g.pg[k][a]
    decreases |order|
  {
    hide Formed, Covered, StepOne;
    if order != [] {
      var last := |order| - 1;
      ProtectedByteStaysAll(l, st, g, order[..last], k, a);
      ProtectedByteStays(l, st, StepAll(l, st, g, order[..last]), order[last], k, a);
    }
  }

  /** Over whole runs of a group: no byte of a page inside the regions its owner declared ever
      changes, whichever machine attempts it. */
  lemma {:induction false} ProtectedMemory(l: Loads, g: Group, n: nat, k: nat, a: nat)
    requires Formed(l, g) && k < |g.ms| && a < DATA_SIZE && Covered(l.cfs[k].regions, a)
    ensures GroupAfter(l, g, n).pg[k][a] == g.pg[k][a]
  {
    hide Formed, Covered;
    if n > 0 {
      ProtectedMemory(l, g, n - 1, k, a);
      var h := GroupAfter(l, g, n - 1);
      ProtectedByteStaysAll(l, Statuses(h.ms), h, Indices(|h.ms|), k, a);
    }
  }

  // ------------------------------------------------- members beside their neighbours

  /** The lone machine the member would be. */
  function LoneEnv(l: Loads, k: nat): Env
    requires k < |l.cfs| == |l.inputs|
  {
    Env(l.cfs[k], l.inputs[k], Alone)
  }

  /** Inside one tick, a running member at no bank access ends where the lone machine's tick
      ends, wherever it stands in the order and whatever its neighbours do. */
  lemma {:induction false} MemberOutcome(l: Loads, g: Group, order: seq<nat>, k: nat)
    requires Formed(l, g) && Within(order, |g.ms|) && Distinct(order) && k < |g.ms|
    requires g.ms[k].status == Running && !AtBankAccess(l.cfs[k], g.ms[k])
    ensures var h := StepAll(l, Statuses(g.ms), g, order);
      var lone := Tick(LoneEnv(l, k), World(g.ms[k], [g.pg[k]]));
      && |lone.pg| == 1
      && h.ms[k] == (if k in order then lone.m else g.ms[k])
      && h.pg[k] == (if k in order then lone.pg[0] else g.pg[k])
    decreases |order|
  {
    hide Tick, AtBankAccess, Focus;
    var st := Statuses(g.ms);
    TickLocal(EnvOf(l, k, st), g.ms[k], g.pg);
    if order != [] {
      var last := |order| - 1;
      var front, i := order[..last], order[last];
      MemberOutcome(l, g, front, k);
      var h := StepAll(l, st, g, front);
      if i == k {
        assert k !in front;
        TickLocal(EnvOf(l, k, st), h.ms[k], h.pg);
      } else {
        OthersLeaveRunningPage(l, st, h, i, k);
      }
    }
  }

  /** A stopped member stays as it is. */
  lemma {:induction false} StoppedStays(l: Loads, st: seq<Status>, g: Group, order: seq<nat>, k: nat)
    requires Formed(l, g) && Within(order, |g.ms|) && k < |g.ms| && g.ms[k].status != Running
    ensures StepAll(l, st, g, order).ms[k] == g.ms[k]
    decreases |order|
  {
    hide Formed, Step;
    if order != [] {
      var last := |order| - 1;
      StoppedStays(l, st, g, order[..last], k);
    }
  }

  /** Non-interference over whole runs: a member that comes to no bank access passes through
      exactly its lone machine's states, on exactly its lone machine's page until it stops,
      whatever its neighbours do. */
  lemma {:induction false} NonInterference(l: Loads, g: Group, n: nat, k: nat)
    requires Formed(l, g) && k < |g.ms|
    requires forall t :: 0 <= t < n ==>
      !AtBankAccess(l.cfs[k], I.After(LoneEnv(l, k), World(g.ms[k], [g.pg[k]]), t).m)
    ensures var h, lone := GroupAfter(l, g, n), I.After(LoneEnv(l, k), World(g.ms[k], [g.pg[k]]), n);
      h.ms[k] == lone.m && (lone.m.status == Running ==> h.pg[k] == lone.pg[0])
    ensures var w := World(g.ms[k], [g.pg[k]]);
      n > 0 && I.After(LoneEnv(l, k), w, n - 1).m.status == Running ==>
        GroupAfter(l, g, n).pg[k] == I.After(LoneEnv(l, k), w, n).pg[0]
  {
    hide Tick, AtBankAccess;
    if n > 0 {
      NonInterference(l, g, n - 1, k);
      var h := GroupAfter(l, g, n - 1);
      var lone := I.After(LoneEnv(l, k), World(g.ms[k], [g.pg[k]]), n - 1);
      if h.ms[k].status == Running {
        MemberOutcome(l, h, Indices(|h.ms|), k);
        assert Indices(|h.ms|)[k] == k;
        assert lone == World(h.ms[k], [h.pg[k]]);
      } else {
        StoppedStays(l, Statuses(h.ms), h, Indices(|h.ms|), k);
        StoppedTick(LoneEnv(l, k), lone);
      }
    }
  }

  // ------------------------------------------------------------------ termination

  lemma TickSpendsMembersFuel(l: Loads, st: seq<Status>, g: Group, i: nat)
    requires Formed(l, g) && i < |g.ms|
    ensures var h := StepOne(l, st, g, i);
      && Fuel(LoneEnv(l, i), h.ms[i]) <= Fuel(LoneEnv(l, i), g.ms[i])
      && (g.ms[i].status == Running ==> Fuel(LoneEnv(l, i), h.ms[i]) < Fuel(LoneEnv(l, i), g.ms[i]))
  {
    hide Tick;
    var e := EnvOf(l, i, st);
    if g.ms[i].status == Running {
      TickSpendsFuel(e, World(g.ms[i], g.pg));
    } else {
      StoppedTick(e, World(g.ms[i], g.pg));
    }
  }

  /** The ticks member `k` can still take, plus the one that stops it. */
  function MemberFuel(l: Loads, g: Group, k: nat): nat
    requires Formed(l, g) && k < |g.ms|
  {
    Fuel(LoneEnv(l, k), g.ms[k])
  }

  lemma {:induction false} StepAllSpendsFuel(l: Loads, st: seq<Status>, g: Group, order: seq<nat>, k: nat)
    requires Formed(l, g) && Within(order, |g.ms|) && k < |g.ms|
    ensures var h := StepAll(l, st, g, order);
      && MemberFuel(l, h, k) <= MemberFuel(l, g, k)
      && (k in order && g.ms[k].status == Running ==> MemberFuel(l, h, k) < MemberFuel(l, g, k))
    decreases |order|
  {
    hide Tick, Fuel;
    if order != [] {
      var last := |order| - 1;
      var front, i := order[..last], order[last];
      StepAllSpendsFuel(l, st, g, front, k);
      var h := StepAll(l, st, g, front);
      TickSpendsMembersFuel(l, st, h, i);
      StoppedHasNoFuel(LoneEnv(l, k), h.ms[k]);
      StoppedHasNoFuel(LoneEnv(l, k), g.ms[k]);
    }
  }

  lemma StoppedHasNoFuel(e: Env, m: Core)
    ensures Fuel(e, m) == 0 <==> m.status != Running
  {
  }

  /** The bound on a run: the largest budget left in the group, plus one. */
  function Longest(l: Loads, g: Group, n: nat): (b: nat)
    requires Formed(l, g) && n <= |g.ms|
    ensures forall k :: 0 <= k < n ==> MemberFuel(l, g, k) <= b
    ensures b > 0 ==> exists k :: 0 <= k < n && MemberFuel(l, g, k) == b
  {
    if n == 0 then 0
    else
      var b := Longest(l, g, n - 1);
      if MemberFuel(l, g, n - 1) > b then MemberFuel(l, g, n - 1) else b
  }

  predicate Quiescent(g: Group) { forall k :: 0 <= k < |g.ms| ==> g.ms[k].status != Running }

  lemma GroupTickShortens(l: Loads, g: Group)
    requires Formed(l, g) && !Quiescent(g)
    ensures Longest(l, GroupTick(l, g), |g.ms|) < Longest(l, g, |g.ms|)
  {
    hide Fuel, StepAll;
    var n := |g.ms|;
    var h := GroupTick(l, g);
    assert Indices(n) == Indices(|g.ms|);
    var r :| 0 <= r < n && g.ms[r].status == Running;
    StoppedHasNoFuel(LoneEnv(l, r), g.ms[r]);
    assert MemberFuel(l, g, r) > 0;
    forall k | 0 <= k < n ensures MemberFuel(l, h, k) < Longest(l, g, n) {
      assert Indices(n)[k] == k;
      StepAllSpendsFuel(l, Statuses(g.ms), g, Indices(n), k);
      StoppedHasNoFuel(LoneEnv(l, k), g.ms[k]);
      assert MemberFuel(l, g, k) <= Longest(l, g, n);
      assert MemberFuel(l, g, r) <= Longest(l, g, n);
    }
  }

  /** Every group stops: after at most the longest budget left, plus one tick, nobody runs. */
  lemma {:induction false} GroupStops(l: Loads, g: Group, n: nat)
    requires Formed(l, g) && n >= Longest(l, g, |g.ms|)
    ensures Quiescent(GroupAfter(l, g, n))
  {
    hide Fuel, GroupTick;
    GroupShortens(l, g, n);
    QuietHasNoFuel(l, GroupAfter(l, g, n));
  }

  lemma QuietHasNoFuel(l: Loads, g: Group)
    requires Formed(l, g)
    ensures Quiescent(g) <==> Longest(l, g, |g.ms|) == 0
  {
    hide Fuel;
    forall k | 0 <= k < |g.ms| ensures MemberFuel(l, g, k) == 0 <==> g.ms[k].status != Running {
      StoppedHasNoFuel(LoneEnv(l, k), g.ms[k]);
    }
  }

  lemma {:induction false} GroupShortens(l: Loads, g: Group, n: nat)
    requires Formed(l, g)
    ensures var h := GroupAfter(l, g, n);
      Longest(l, h, |g.ms|) == 0 || Longest(l, h, |g.ms|) + n <= Longest(l, g, |g.ms|)
  {
    hide Fuel, GroupTick;
    if n > 0 {
      GroupShortens(l, g, n - 1);
      var h := GroupAfter(l, g, n - 1);
      if Quiescent(h) {
        QuietHasNoFuel(l, h);
        QuietGroupStays(l, h);
      } else {
        GroupTickShortens(l, h);
      }
    }
  }

  lemma {:induction false} QuietStepsStay(l: Loads, st: seq<Status>, g: Group, order: seq<nat>)
    requires Formed(l, g) && Within(order, |g.ms|) && Quiescent(g)
    ensures StepAll(l, st, g, order) == g
    decreases |order|
  {
    hide Step, Formed;
    if order != [] {
      var last := |order| - 1;
      QuietStepsStay(l, st, g, order[..last]);
      assert g.ms[order[last] := g.ms[order[last]]] == g.ms;
    }
  }

  lemma QuietGroupStays(l: Loads, g: Group)
    requires Formed(l, g) && Quiescent(g)
    ensures GroupTick(l, g) == g
  {
    QuietStepsStay(l, Statuses(g.ms), g, Indices(|g.ms|));
  }

  // -------------------------------------------------------- members over whole runs

  /** Inside a tick a member steps once, over whatever pages its turn finds. */
  lemma {:induction false} MemberSteps(l: Loads, st: seq<Status>, g: Group, order: seq<nat>, k: nat)
      returns (turn: seq<Page>)
    requires Formed(l, g) && Within(order, |g.ms|) && Distinct(order) && k in order
    ensures |turn| == |g.pg|
    ensures StepAll(l, st, g, order).ms[k] == Tick(EnvOf(l, k, st), World(g.ms[k], turn)).m
    decreases |order|
  {
    hide Tick;
    var last := |order| - 1;
    var front, i := order[..last], order[last];
    var h := StepAll(l, st, g, front);
    if i == k {
      UntilItsTurn(l, st, g, front, k);
      turn := h.pg;
    } else {
      turn := MemberSteps(l, st, g, front, k);
    }
  }

  lemma {:induction false} UntilItsTurn(l: Loads, st: seq<Status>, g: Group, order: seq<nat>, k: nat)
    requires Formed(l, g) && Within(order, |g.ms|) && k < |g.ms| && k !in order
    ensures StepAll(l, st, g, order).ms[k] == g.ms[k]
    decreases |order|
  {
    hide Tick, Formed;
    if order != [] {
      var last := |order| - 1;
      assert order[last] != k;
      UntilItsTurn(l, st, g, order[..last], k);
    }
  }

  lemma MemberTicks(l: Loads, g: Group, k: nat) returns (turn: seq<Page>)
    requires Formed(l, g) && k < |g.ms|
    ensures |turn| == |g.pg|
    ensures GroupTick(l, g).ms[k] == Tick(EnvOf(l, k, Statuses(g.ms)), World(g.ms[k], turn)).m
  {
    hide Tick;
    assert Indices(|g.ms|)[k] == k;
    turn := MemberSteps(l, Statuses(g.ms), g, Indices(|g.ms|), k);
  }

  /** Every state every member reaches stays inside the bounds of the state table. */
  lemma {:induction false} MembersStayReachable(l: Loads, g: Group, n: nat, k: nat)
    requires Formed(l, g) && k < |g.ms| && I.Reachable(LoneEnv(l, k), g.ms[k])
    ensures I.Reachable(LoneEnv(l, k), GroupAfter(l, g, n).ms[k])
  {
    hide Tick, GroupTick;
    if n > 0 {
      MembersStayReachable(l, g, n - 1, k);
      var h := GroupAfter(l, g, n - 1);
      var turn := MemberTicks(l, h, k);
      I.TickStaysReachable(EnvOf(l, k, Statuses(h.ms)), World(h.ms[k], turn));
    }
  }

  /** How many of the first `n` ticks committed an STC of member `k`, and where the first did. */
  function StcCommits(l: Loads, g: Group, n: nat, k: nat): nat
    requires Formed(l, g) && k < |g.ms|
  {
    if n == 0 then 0
    else StcCommits(l, g, n - 1, k)
         + (if I.CommitsStc(l.cfs[k], GroupAfter(l, g, n - 1).ms[k]) then 1 else 0)
  }

  function FirstStc(l: Loads, g: Group, n: nat, k: nat): word
    requires Formed(l, g) && k < |g.ms|
  {
    if n == 0 then 0
    else
      var m := GroupAfter(l, g, n - 1).ms[k];
      if StcCommits(l, g, n - 1, k) == 0 && I.CommitsStc(l.cfs[k], m) then m.hl
      else FirstStc(l, g, n - 1, k)
  }

  /** Over whole runs of a group: a member's log counts its committed STC writes and holds the
      address of the first, and its CODE outside the declared window is the CODE it loaded. */
  lemma {:induction false} CodeLog(l: Loads, g: Group, n: nat, k: nat)
    requires Formed(l, g) && k < |g.ms| && g.ms[k].stcCount == 0 && g.ms[k].stcFirst == 0
    ensures var m := GroupAfter(l, g, n).ms[k];
      && m.stcCount == StcCommits(l, g, n, k) && m.stcFirst == FirstStc(l, g, n, k)
      && forall i :: 0 <= i < CODE_SIZE && !(l.cfs[k].winlo <= i < l.cfs[k].winhi) ==>
           m.code[i] == g.ms[k].code[i]
  {
    hide Tick, GroupTick;
    if n > 0 {
      CodeLog(l, g, n - 1, k);
      var h := GroupAfter(l, g, n - 1);
      var turn := MemberTicks(l, h, k);
      I.TickLogsStc(EnvOf(l, k, Statuses(h.ms)), World(h.ms[k], turn));
      hide I.CommitsStc;
    }
  }
}
