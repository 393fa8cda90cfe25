/** A batch of machines cut into groups of `NB` rows, on values: what one tick of every row, in any
    order, does to each group on its own. */
module Cuts {
  import opened Bits
  import opened Isa
  import opened Reference
  import B = Banks
  import O = Orders
  import I = Invariants
  import K = Kernel
  import Loc = Locality

  /** The rows were loaded under one group size. */
  predicate Batched(l: B.Loads, g: B.Group, nb: nat)
  {
    && 0 < nb && |g.ms| == |g.pg| == |l.cfs| == |l.inputs|
    && (forall i :: 0 <= i < |l.cfs| ==> Legal(l.cfs[i]) && l.cfs[i].nbanks == nb)
  }

  /** The first row of row `p`'s group. */
  function Base(p: nat, nb: nat): nat
    requires nb > 0
  {
    K.GroupOf(p, nb);
    p - p % nb
  }

  function Slice<T>(s: seq<T>, nb: nat, p: nat): (part: seq<T>)
    requires nb > 0 && p < |s|
    ensures |part| == K.Held(p, nb, |s|)
  {
    s[Base(p, nb)..Base(p, nb) + K.Held(p, nb, |s|)]
  }

  /** Cells `base .. base + |part|` replaced. */
  function Spliced<T>(s: seq<T>, base: nat, part: seq<T>): (out: seq<T>)
    requires base + |part| <= |s|
    ensures |out| == |s|
  {
    s[..base] + part + s[base + |part|..]
  }

  /** Row `p`'s group: its loads, its machines, its pages. */
  function CutLoads(l: B.Loads, nb: nat, p: nat): B.Loads
    requires nb > 0 && p < |l.cfs| == |l.inputs|
  {
    B.Loads(Slice(l.cfs, nb, p), Slice(l.inputs, nb, p))
  }

  function Cut(g: B.Group, nb: nat, p: nat): B.Group
    requires nb > 0 && p < |g.ms| == |g.pg|
  {
    B.Group(Slice(g.ms, nb, p), Slice(g.pg, nb, p))
  }

  lemma CutFormed(l: B.Loads, g: B.Group, nb: nat, p: nat)
    requires Batched(l, g, nb) && p < |g.ms|
    ensures B.Formed(CutLoads(l, nb, p), Cut(g, nb, p)) && p - Base(p, nb) == p % nb < |Cut(g, nb, p).ms|
  {
    assert Legal(l.cfs[p]) && l.cfs[p].nbanks == nb;
  }

  /** One row's turn: its group takes the member's step, the other rows stay. */
  function RowStep(l: B.Loads, nb: nat, st: seq<Status>, g: B.Group, p: nat): (h: B.Group)
    requires Batched(l, g, nb) && p < |g.ms| == |st|
    ensures Batched(l, h, nb) && |h.ms| == |g.ms|
  {
    CutFormed(l, g, nb, p);
    var h := B.StepOne(CutLoads(l, nb, p), Slice(st, nb, p), Cut(g, nb, p), p % nb);
    B.Group(Spliced(g.ms, Base(p, nb), h.ms), Spliced(g.pg, Base(p, nb), h.pg))
  }

  function RowSteps(l: B.Loads, nb: nat, st: seq<Status>, g: B.Group, order: seq<nat>): (h: B.Group)
    requires Batched(l, g, nb) && |g.ms| == |st| && B.Within(order, |g.ms|)
    ensures Batched(l, h, nb) && |h.ms| == |g.ms|
    decreases |order|
  {
    if order == [] then g
    else
      var last := |order| - 1;
      RowStep(l, nb, st, RowSteps(l, nb, st, g, order[..last]), order[last])
  }

  /** The turns an order gives the members of row `p`'s group. */
  function Local(order: seq<nat>, nb: nat, p: nat): seq<nat>
    requires nb > 0
    decreases |order|
  {
    if order == [] then []
    else
      var last := |order| - 1;
      Local(order[..last], nb, p) + (if Base(order[last], nb) == Base(p, nb) then [order[last] % nb] else [])
  }

  // ------------------------------------------------------------- groups are apart

  lemma BaseIsMultiple(p: nat, nb: nat)
    requires nb > 0
    ensures Base(p, nb) == p / nb * nb
  {
    K.GroupOf(p, nb);
  }

  /** Two rows share a group or their groups do not meet, the last, shorter one included. */
  lemma GroupsApart(p: nat, r: nat, nb: nat, rows: nat)
    requires nb > 0 && p < rows && r < rows
    ensures Base(p, nb) == Base(r, nb) ==> K.Held(p, nb, rows) == K.Held(r, nb, rows)
    ensures Base(p, nb) < Base(r, nb) ==> Base(p, nb) + K.Held(p, nb, rows) <= Base(r, nb)
    ensures Base(p, nb) <= r < Base(p, nb) + K.Held(p, nb, rows) <==> Base(p, nb) == Base(r, nb)
  {
    BaseIsMultiple(p, nb);
    BaseIsMultiple(r, nb);
    var x, y := p / nb, r / nb;
    Distribute(x, y, nb);
    if x < y {
      AtLeastOnce(y - x, nb);
      Distribute(y, x, nb);
    } else if y < x {
      AtLeastOnce(x - y, nb);
    }
  }

  lemma SliceOfSplice<T>(s: seq<T>, nb: nat, p: nat, r: nat, part: seq<T>)
    requires nb > 0 && p < |s| && r < |s| && |part| == K.Held(p, nb, |s|)
    ensures var t := Spliced(s, Base(p, nb), part);
      Slice(t, nb, r) == if Base(p, nb) == Base(r, nb) then part else Slice(s, nb, r)
  {
    GroupsApart(p, r, nb, |s|);
    GroupsApart(r, p, nb, |s|);
    var t := Spliced(s, Base(p, nb), part);
    var x, y := Slice(t, nb, r), if Base(p, nb) == Base(r, nb) then part else Slice(s, nb, r);
    assert |x| == |y|;
    forall i | 0 <= i < |x| ensures x[i] == y[i] {
      assert x[i] == t[Base(r, nb) + i];
    }
  }

  /** A row's turn is its member's step in its own group, and nothing in any other. */
  lemma CutOfStep(l: B.Loads, nb: nat, st: seq<Status>, g: B.Group, p: nat, r: nat)
    requires Batched(l, g, nb) && p < |g.ms| == |st| && r < |g.ms|
    ensures B.Formed(CutLoads(l, nb, r), Cut(g, nb, r))
    ensures var h := RowStep(l, nb, st, g, p);
      Cut(h, nb, r) ==
        if Base(p, nb) == Base(r, nb) then
          B.StepOne(CutLoads(l, nb, p), Slice(st, nb, p), Cut(g, nb, p), p % nb)
        else Cut(g, nb, r)
  {
    hide B.StepOne, Slice, Spliced, B.Formed, Batched;
    BatchedShape(l, g, nb);
    CutFormed(l, g, nb, r);
    CutFormed(l, g, nb, p);
    var h := B.StepOne(CutLoads(l, nb, p), Slice(st, nb, p), Cut(g, nb, p), p % nb);
    StepKeepsShape(CutLoads(l, nb, p), Slice(st, nb, p), Cut(g, nb, p), p % nb);
    SliceOfSplice(g.ms, nb, p, r, h.ms);
    SliceOfSplice(g.pg, nb, p, r, h.pg);
  }

  lemma StepKeepsShape(l: B.Loads, st: seq<Status>, g: B.Group, i: nat)
    requires B.Formed(l, g) && i < |g.ms|
    ensures |B.StepOne(l, st, g, i).ms| == |B.StepOne(l, st, g, i).pg| == |g.ms|
  {
  }

  lemma BatchedShape(l: B.Loads, g: B.Group, nb: nat)
    requires Batched(l, g, nb)
    ensures nb > 0 && |g.ms| == |g.pg| == |l.cfs| == |l.inputs|
  {
  }

  lemma SameCut(l: B.Loads, nb: nat, p: nat, r: nat)
    requires nb > 0 && p < |l.cfs| == |l.inputs| && r < |l.cfs| && Base(p, nb) == Base(r, nb)
    ensures CutLoads(l, nb, p) == CutLoads(l, nb, r)
  {
    GroupsApart(p, r, nb, |l.cfs|);
  }

  lemma SameSlice<T>(s: seq<T>, nb: nat, p: nat, r: nat)
    requires nb > 0 && p < |s| && r < |s| && Base(p, nb) == Base(r, nb)
    ensures Slice(s, nb, p) == Slice(s, nb, r)
  {
    GroupsApart(p, r, nb, |s|);
  }

  lemma {:induction false} LocalWithin(order: seq<nat>, nb: nat, p: nat, rows: nat)
    requires nb > 0 && B.Within(order, rows) && p < rows
    ensures B.Within(Local(order, nb, p), K.Held(p, nb, rows))
    decreases |order|
  {
    if order != [] {
      var last := |order| - 1;
      LocalWithin(order[..last], nb, p, rows);
      GroupsApart(p, order[last], nb, rows);
      K.GroupOf(order[last], nb);
    }
  }

  /** Whatever the order of the rows, each group goes through its own members' turns, in the
      order they have in it, and through nothing else. */
  lemma {:induction false} CutOfSteps(l: B.Loads, nb: nat, st: seq<Status>, g: B.Group, order: seq<nat>, r: nat)
    requires Batched(l, g, nb) && |g.ms| == |st| && B.Within(order, |g.ms|) && r < |g.ms|
    ensures B.Formed(CutLoads(l, nb, r), Cut(g, nb, r)) && B.Within(Local(order, nb, r), |Cut(g, nb, r).ms|)
    ensures Cut(RowSteps(l, nb, st, g, order), nb, r)
            == B.StepAll(CutLoads(l, nb, r), Slice(st, nb, r), Cut(g, nb, r), Local(order, nb, r))
    decreases |order|
  {
    hide B.StepOne, RowStep, B.Formed, Slice;
    CutFormed(l, g, nb, r);
    BatchedShape(l, g, nb);
    LocalWithin(order, nb, r, |g.ms|);
    if order != [] {
      var last := |order| - 1;
      var front, p := order[..last], order[last];
      CutOfSteps(l, nb, st, g, front, r);
      var mid := RowSteps(l, nb, st, g, front);
      CutOfStep(l, nb, st, mid, p, r);
      if Base(p, nb) == Base(r, nb) {
        SameCut(l, nb, p, r);
        SameSlice(st, nb, p, r);
        SameSlice(mid.ms, nb, p, r);
        SameSlice(mid.pg, nb, p, r);
        assert Local(order, nb, r) == Local(front, nb, r) + [p % nb];
        assert Local(order, nb, r)[..|Local(front, nb, r)|] == Local(front, nb, r);
      } else {
        assert Local(order, nb, r) == Local(front, nb, r);
      }
    }
  }

  // --------------------------------------------------------------- one-tick launches

  lemma {:induction false} LocalMembers(order: seq<nat>, nb: nat, p: nat, i: nat)
    requires nb > 0 && i < nb
    ensures i in Local(order, nb, p) <==> Base(p, nb) + i in order
    decreases |order|
  {
    if order != [] {
      var last := |order| - 1;
      LocalMembers(order[..last], nb, p, i);
      MemberOf(order[last], nb, p, i);
      assert order == order[..last] + [order[last]];
    }
  }

  /** A row is its group's first row and its place in the group. */
  lemma MemberOf(r: nat, nb: nat, p: nat, i: nat)
    requires nb > 0 && i < nb
    ensures r == Base(p, nb) + i <==> Base(r, nb) == Base(p, nb) && r % nb == i
  {
    BaseIsMultiple(p, nb);
    if r == Base(p, nb) + i {
      RemainderUnique(r, nb, p / nb, i);
    }
  }

  lemma {:induction false} LocalDistinct(order: seq<nat>, nb: nat, p: nat)
    requires nb > 0 && B.Distinct(order)
    ensures B.Distinct(Local(order, nb, p))
    decreases |order|
  {
    if order != [] {
      var last := |order| - 1;
      var front, r := order[..last], order[last];
      LocalDistinct(front, nb, p);
      K.GroupOf(r, nb);
      if Base(r, nb) == Base(p, nb) {
        LocalMembers(front, nb, p, r % nb);
        assert forall j :: 0 <= j < last ==> order[j] != order[last];
        assert r !in front;
        assert Base(p, nb) + r % nb == r;
      }
    }
  }

  /** An order of all the rows orders all the members of every group. */
  lemma LocalPermutation(order: seq<nat>, nb: nat, p: nat, rows: nat)
    requires nb > 0 && p < rows && B.Permutation(order, rows)
    ensures B.Permutation(Local(order, nb, p), K.Held(p, nb, rows))
  {
    LocalWithin(order, nb, p, rows);
    LocalDistinct(order, nb, p);
    forall i: nat | i < K.Held(p, nb, rows) ensures i in Local(order, nb, p) {
      LocalMembers(order, nb, p, i);
    }
  }

  lemma SliceOfStatuses(ms: seq<Core>, nb: nat, p: nat)
    requires nb > 0 && p < |ms|
    ensures Slice(B.Statuses(ms), nb, p) == B.Statuses(Slice(ms, nb, p))
  {
  }

  /** Every row's turn, each group against the statuses at the launch. */
  function Launched(l: B.Loads, nb: nat, g: B.Group, order: seq<nat>): (h: B.Group)
    requires Batched(l, g, nb) && B.Within(order, |g.ms|)
    ensures Batched(l, h, nb) && |h.ms| == |g.ms|
  {
    RowSteps(l, nb, B.Statuses(g.ms), g, order)
  }

  /** A one-tick launch over any number of rows leaves each group where its own turns leave it,
      and, when that group is in harmony, where its own group tick does. */
  lemma LaunchTicksGroups(l: B.Loads, nb: nat, g: B.Group, order: seq<nat>, p: nat)
    requires Batched(l, g, nb) && B.Within(order, |g.ms|) && p < |g.ms|
    ensures B.Formed(CutLoads(l, nb, p), Cut(g, nb, p)) && B.Within(Local(order, nb, p), |Cut(g, nb, p).ms|)
    ensures var (sub, of) := (CutLoads(l, nb, p), Cut(g, nb, p));
      && Cut(Launched(l, nb, g, order), nb, p) == B.StepAll(sub, B.Statuses(of.ms), of, Local(order, nb, p))
      && (B.Permutation(order, |g.ms|) && O.Harmonious(sub, of) ==>
            Cut(Launched(l, nb, g, order), nb, p) == B.GroupTick(sub, of))
  {
    hide B.StepOne, B.StepAll, O.Harmonious, RowSteps, B.Formed, B.Within, B.Permutation, B.Indices, Local, Slice;
    BatchedShape(l, g, nb);
    CutFormed(l, g, nb, p);
    SliceOfStatuses(g.ms, nb, p);
    CutOfSteps(l, nb, B.Statuses(g.ms), g, order, p);
    var (sub, of) := (CutLoads(l, nb, p), Cut(g, nb, p));
    if B.Permutation(order, |g.ms|) && O.Harmonious(sub, of) {
      LocalPermutation(order, nb, p, |g.ms|);
      IndicesArePermutation(|of.ms|);
      O.OrderIndependence(sub, of, Local(order, nb, p), B.Indices(|of.ms|));
      PermutationWithin(|of.ms|);
    }
  }

  lemma IndicesArePermutation(n: nat)
    ensures B.Permutation(B.Indices(n), n)
  {
    forall i: nat | i < n ensures i in B.Indices(n) {
      assert B.Indices(n)[i] == i;
    }
  }

  lemma PermutationWithin(n: nat)
    ensures B.Within(B.Indices(n), n)
  {
  }

  // Any order of one group's members is met by some order of all rows.

  /** The rows below `n` of other groups than `p`'s. */
  function Outside(n: nat, nb: nat, p: nat): (s: seq<nat>)
    requires nb > 0
    ensures forall r: nat :: r in s <==> r < n && Base(r, nb) != Base(p, nb)
    ensures B.Within(s, n) && B.Distinct(s)
  {
    if n == 0 then []
    else if Base(n - 1, nb) == Base(p, nb) then Outside(n - 1, nb, p)
    else
      var rest := Outside(n - 1, nb, p);
      assert forall x :: 0 <= x < |rest| ==> rest[x] < n - 1;
      rest + [n - 1]
  }

  function Placed(q: seq<nat>, base: nat): (s: seq<nat>)
    ensures |s| == |q| && forall k :: 0 <= k < |q| ==> s[k] == base + q[k]
  {
    if q == [] then [] else Placed(q[..|q| - 1], base) + [base + q[|q| - 1]]
  }

  /** The members' turns `q` as rows, then the other rows. */
  function Lifted(q: seq<nat>, rows: nat, nb: nat, p: nat): seq<nat>
    requires nb > 0
  {
    Placed(q, Base(p, nb)) + Outside(rows, nb, p)
  }

  lemma {:induction false} LocalConcat(a: seq<nat>, b: seq<nat>, nb: nat, p: nat)
    requires nb > 0
    ensures Local(a + b, nb, p) == Local(a, nb, p) + Local(b, nb, p)
    decreases |b|
  {
    if b == [] {
      assert a + b == a;
    } else {
      var last := |b| - 1;
      LocalConcat(a, b[..last], nb, p);
      assert (a + b)[..|a + b| - 1] == a + b[..last] && (a + b)[|a + b| - 1] == b[last];
    }
  }

  lemma {:induction false} LocalOutside(s: seq<nat>, nb: nat, p: nat)
    requires nb > 0 && forall r :: r in s ==> Base(r, nb) != Base(p, nb)
    ensures Local(s, nb, p) == []
    decreases |s|
  {
    if s != [] {
      var last := |s| - 1;
      assert s[last] in s;
      LocalOutside(s[..last], nb, p);
    }
  }

  lemma {:induction false} LocalPlaced(q: seq<nat>, s: seq<nat>, nb: nat, p: nat)
    requires nb > 0 && |s| == |q| && forall k :: 0 <= k < |q| ==> q[k] < nb && s[k] == Base(p, nb) + q[k]
    ensures Local(s, nb, p) == q
    decreases |q|
  {
    if q != [] {
      var last := |q| - 1;
      LocalPlaced(q[..last], s[..last], nb, p);
      MemberOf(s[last], nb, p, q[last]);
      assert q == q[..last] + [q[last]];
    }
  }

  lemma PlacedInGroup(q: seq<nat>, rows: nat, nb: nat, p: nat)
    requires nb > 0 && p < rows && B.Permutation(q, K.Held(p, nb, rows))
    ensures var s := Placed(q, Base(p, nb));
      && B.Distinct(s) && (forall r: nat :: r in s <==> r < rows && Base(r, nb) == Base(p, nb))
  {
    var base, s := Base(p, nb), Placed(q, Base(p, nb));
    forall k | 0 <= k < |q| ensures s[k] < rows && Base(s[k], nb) == base {
      MemberOf(s[k], nb, p, q[k]);
    }
    forall r: nat | r < rows && Base(r, nb) == base ensures r in s {
      GroupsApart(p, r, nb, rows);
      K.GroupOf(r, nb);
      MemberOf(r, nb, p, r % nb);
      assert r % nb in q;
      var k :| 0 <= k < |q| && q[k] == r % nb;
      assert s[k] == r;
    }
  }

  lemma DistinctConcat(a: seq<nat>, b: seq<nat>)
    requires B.Distinct(a) && B.Distinct(b) && forall r: nat :: !(r in a && r in b)
    ensures B.Distinct(a + b)
  {
    var s := a + b;
    forall i, j | 0 <= i < j < |s| ensures s[i] != s[j] {
      if i < |a| <= j {
        assert s[i] in a && s[j] in b;
      }
    }
  }

  lemma LiftedOrder(q: seq<nat>, rows: nat, nb: nat, p: nat)
    requires nb > 0 && p < rows && B.Permutation(q, K.Held(p, nb, rows))
    ensures B.Permutation(Lifted(q, rows, nb, p), rows) && Local(Lifted(q, rows, nb, p), nb, p) == q
  {
    hide Base, B.Distinct, Local;
    var s, out := Placed(q, Base(p, nb)), Outside(rows, nb, p);
    PlacedInGroup(q, rows, nb, p);
    DistinctConcat(s, out);
    LocalConcat(s, out, nb, p);
    LocalOutside(out, nb, p);
    LocalPlaced(q, s, nb, p);
    var order := Lifted(q, rows, nb, p);
    forall j | 0 <= j < |order| ensures order[j] < rows {
      assert order[j] in s || order[j] in out;
    }
  }

  /** Every order of the rows leaves row `p`'s group at its group tick. */
  ghost predicate LaunchFree(l: B.Loads, nb: nat, g: B.Group, p: nat)
    requires Batched(l, g, nb) && p < |g.ms|
  {
    CutFormed(l, g, nb, p);
    forall order :: B.Permutation(order, |g.ms|) ==>
      Cut(Launched(l, nb, g, order), nb, p) == B.GroupTick(CutLoads(l, nb, p), Cut(g, nb, p))
  }

  /** A launch leaves a group at its group tick, whatever the order of its programs, exactly when
      the group is in harmony. */
  lemma LaunchExact(l: B.Loads, nb: nat, g: B.Group, p: nat)
    requires Batched(l, g, nb) && p < |g.ms|
    ensures B.Formed(CutLoads(l, nb, p), Cut(g, nb, p))
    ensures LaunchFree(l, nb, g, p) <==> O.Harmonious(CutLoads(l, nb, p), Cut(g, nb, p))
  {
    hide B.StepAll, O.Harmonious, Launched, B.Formed, B.Distinct, B.Indices, Local, Cut, CutLoads;
    CutFormed(l, g, nb, p);
    var (sub, of) := (CutLoads(l, nb, p), Cut(g, nb, p));
    O.OrderExact(sub, of);
    if O.Harmonious(sub, of) {
      forall order | B.Permutation(order, |g.ms|)
        ensures Cut(Launched(l, nb, g, order), nb, p) == B.GroupTick(sub, of)
      {
        LaunchTicksGroups(l, nb, g, order, p);
      }
    } else {
      CutHeld(g, nb, p);
      IndicesArePermutation(|of.ms|);
      var st := B.Statuses(of.ms);
      var one, two :| B.Permutation(one, |of.ms|) && B.Permutation(two, |of.ms|)
                      && B.StepAll(sub, st, of, one) != B.StepAll(sub, st, of, two);
      var q := if B.StepAll(sub, st, of, one) != B.GroupTick(sub, of) then one else two;
      LiftedOrder(q, |g.ms|, nb, p);
      LaunchTicksGroups(l, nb, g, Lifted(q, |g.ms|, nb, p), p);
    }
  }

  lemma CutHeld(g: B.Group, nb: nat, p: nat)
    requires nb > 0 && p < |g.ms| == |g.pg|
    ensures |Cut(g, nb, p).ms| == K.Held(p, nb, |g.ms|)
  {
  }

  // --------------------------------------------------------------------- whole runs

  /** Every launch takes the rows in some order of its own. */
  ghost predicate Orders(orders: nat -> seq<nat>, rows: nat)
  {
    forall k: nat :: B.Permutation(orders(k), rows)
  }

  function LaunchedTimes(l: B.Loads, nb: nat, g: B.Group, orders: nat -> seq<nat>, n: nat): (h: B.Group)
    requires Batched(l, g, nb) && forall k: nat :: k < n ==> B.Within(orders(k), |g.ms|)
    ensures Batched(l, h, nb) && |h.ms| == |g.ms|
  {
    if n == 0 then g else Launched(l, nb, LaunchedTimes(l, nb, g, orders, n - 1), orders(n - 1))
  }

  /** One-tick launches, each against the statuses of its own moment, are group ticks of every
      group that is in harmony at its boundaries. */
  lemma {:induction false} LaunchesAreGroupTicks(l: B.Loads, nb: nat, g: B.Group, orders: nat -> seq<nat>,
      n: nat, p: nat)
    requires Batched(l, g, nb) && p < |g.ms| && Orders(orders, |g.ms|)
    ensures B.Formed(CutLoads(l, nb, p), Cut(g, nb, p))
    ensures var (sub, of) := (CutLoads(l, nb, p), Cut(g, nb, p));
      (forall k: nat :: k < n ==> O.Harmonious(sub, B.GroupAfter(sub, of, k))) ==>
        Cut(LaunchedTimes(l, nb, g, orders, n), nb, p) == B.GroupAfter(sub, of, n)
  {
    hide Launched, B.GroupTick, O.Harmonious, B.Formed, Cut, CutLoads;
    CutFormed(l, g, nb, p);
    if n > 0 {
      LaunchesAreGroupTicks(l, nb, g, orders, n - 1, p);
      var mid := LaunchedTimes(l, nb, g, orders, n - 1);
      LaunchTicksGroups(l, nb, mid, orders(n - 1), p);
    }
  }

  /** Ticks row `p` can still take, plus the one that stops it. */
  function RowFuel(l: B.Loads, g: B.Group, p: nat): nat
    requires p < |l.cfs| == |l.inputs| && p < |g.ms|
  {
    Fuel(B.LoneEnv(l, p), g.ms[p])
  }

  function Most(l: B.Loads, g: B.Group, n: nat): (b: nat)
    requires |l.cfs| == |l.inputs| == |g.ms| && n <= |g.ms|
    ensures forall k :: 0 <= k < n ==> RowFuel(l, g, k) <= b
    ensures b > 0 ==> exists k :: 0 <= k < n && RowFuel(l, g, k) == b
  {
    if n == 0 then 0
    else
      var b := Most(l, g, n - 1);
      if RowFuel(l, g, n - 1) > b then RowFuel(l, g, n - 1) else b
  }

  lemma RowInCut(l: B.Loads, nb: nat, g: B.Group, p: nat)
    requires Batched(l, g, nb) && p < |g.ms|
    ensures B.Formed(CutLoads(l, nb, p), Cut(g, nb, p)) && p % nb < |Cut(g, nb, p).ms|
    ensures Cut(g, nb, p).ms[p % nb] == g.ms[p]
    ensures B.MemberFuel(CutLoads(l, nb, p), Cut(g, nb, p), p % nb) == RowFuel(l, g, p)
  {
    CutFormed(l, g, nb, p);
  }

  /** A launch uses up fuel of every row that still runs, in harmony or not. */
  lemma LaunchSpendsFuel(l: B.Loads, nb: nat, g: B.Group, order: seq<nat>, p: nat)
    requires Batched(l, g, nb) && B.Permutation(order, |g.ms|) && p < |g.ms|
    ensures RowFuel(l, Launched(l, nb, g, order), p) <= RowFuel(l, g, p)
    ensures g.ms[p].status == Running ==> RowFuel(l, Launched(l, nb, g, order), p) < RowFuel(l, g, p)
  {
    hide Launched, B.StepAll, Cut, CutLoads, B.Formed, RowFuel, Local;
    RowInCut(l, nb, g, p);
    RowInCut(l, nb, Launched(l, nb, g, order), p);
    LaunchTicksGroups(l, nb, g, order, p);
    LocalMembers(order, nb, p, p % nb);
    K.GroupOf(p, nb);
    var (sub, of) := (CutLoads(l, nb, p), Cut(g, nb, p));
    B.StepAllSpendsFuel(sub, B.Statuses(of.ms), of, Local(order, nb, p), p % nb);
  }

  predicate AnyRunning(g: B.Group) { exists p :: 0 <= p < |g.ms| && g.ms[p].status == Running }

  lemma LaunchShortens(l: B.Loads, nb: nat, g: B.Group, order: seq<nat>)
    requires Batched(l, g, nb) && B.Permutation(order, |g.ms|) && AnyRunning(g)
    ensures Most(l, Launched(l, nb, g, order), |g.ms|) < Most(l, g, |g.ms|)
  {
    hide Launched, RowFuel, B.Distinct;
    var n := |g.ms|;
    var h := Launched(l, nb, g, order);
    var r :| 0 <= r < n && g.ms[r].status == Running;
    forall k | 0 <= k < n ensures RowFuel(l, h, k) < Most(l, g, n) {
      LaunchSpendsFuel(l, nb, g, order, k);
      LaunchSpendsFuel(l, nb, g, order, r);
      assert RowFuel(l, g, k) <= Most(l, g, n) && RowFuel(l, g, r) <= Most(l, g, n);
      if g.ms[k].status != Running {
        StoppedRow(l, g, k);
      }
    }
  }

  lemma StoppedRow(l: B.Loads, g: B.Group, p: nat)
    requires p < |l.cfs| == |l.inputs| && p < |g.ms| && g.ms[p].status != Running
    ensures RowFuel(l, g, p) == 0
  {
  }

  /** A group that has gone quiet stays where it is. */
  lemma {:induction false} QuietForGood(l: B.Loads, g: B.Group, n: nat, more: nat)
    requires B.Formed(l, g) && B.Quiescent(B.GroupAfter(l, g, n))
    ensures B.GroupAfter(l, g, n + more) == B.GroupAfter(l, g, n)
  {
    hide B.GroupTick, B.Formed, B.Quiescent;
    if more > 0 {
      QuietForGood(l, g, n, more - 1);
      B.QuietGroupStays(l, B.GroupAfter(l, g, n));
      assert B.GroupAfter(l, g, n + more) == B.GroupTick(l, B.GroupAfter(l, g, n + more - 1));
    }
  }

  /** Where a group's run ends. */
  function Ended(l: B.Loads, g: B.Group): (h: B.Group)
    requires B.Formed(l, g)
    ensures B.Formed(l, h) && |h.ms| == |g.ms|
  {
    B.GroupAfter(l, g, B.Longest(l, g, |g.ms|))
  }

  lemma QuietIsEnded(l: B.Loads, g: B.Group, n: nat)
    requires B.Formed(l, g) && B.Quiescent(B.GroupAfter(l, g, n))
    ensures B.GroupAfter(l, g, n) == Ended(l, g)
  {
    hide B.Formed, B.Quiescent, B.GroupAfter;
    var m := B.Longest(l, g, |g.ms|);
    B.GroupStops(l, g, m);
    if n <= m {
      QuietForGood(l, g, n, m - n);
    } else {
      QuietForGood(l, g, m, n - m);
    }
  }

  /** Launching until no row runs leaves every group where its own run would end. */
  lemma LaunchesEndGroups(l: B.Loads, nb: nat, g: B.Group, orders: nat -> seq<nat>, n: nat, p: nat)
    requires Batched(l, g, nb) && p < |g.ms| && Orders(orders, |g.ms|)
    requires !AnyRunning(LaunchedTimes(l, nb, g, orders, n))
    ensures B.Formed(CutLoads(l, nb, p), Cut(g, nb, p))
    ensures var (sub, of) := (CutLoads(l, nb, p), Cut(g, nb, p));
      (forall k: nat :: O.Harmonious(sub, B.GroupAfter(sub, of, k))) ==>
        Cut(LaunchedTimes(l, nb, g, orders, n), nb, p) == Ended(sub, of)
  {
    hide LaunchedTimes, B.GroupAfter, O.Harmonious, B.Formed, Ended, Cut, CutLoads, B.Quiescent;
    var h := LaunchedTimes(l, nb, g, orders, n);
    var (sub, of) := (CutLoads(l, nb, p), Cut(g, nb, p));
    LaunchesAreGroupTicks(l, nb, g, orders, n, p);
    CutIsQuiet(h, nb, p);
    if forall k: nat :: O.Harmonious(sub, B.GroupAfter(sub, of, k)) {
      QuietIsEnded(sub, of, n);
    }
  }

  lemma CutIsQuiet(g: B.Group, nb: nat, p: nat)
    requires nb > 0 && p < |g.ms| == |g.pg| && !AnyRunning(g)
    ensures B.Quiescent(Cut(g, nb, p))
  {
    var of := Cut(g, nb, p);
    forall k | 0 <= k < |of.ms| ensures of.ms[k].status != Running {
      assert of.ms[k] == g.ms[Base(p, nb) + k];
    }
  }

  // ------------------------------------------------------------ groups of one row

  /** Alone in its group, a machine is never told anything by the statuses. */
  lemma StatusesIdle(l: B.Loads, one: seq<Status>, two: seq<Status>, w: World)
    requires |l.cfs| == |l.inputs| == |w.pg| == 1 && Legal(l.cfs[0])
    ensures Tick(B.EnvOf(l, 0, one), w) == Tick(B.EnvOf(l, 0, two), w)
  {
    var e, f := B.EnvOf(l, 0, one), B.EnvOf(l, 0, two);
    SameStep(e, f, w.m, w.pg);
    hide Step;
  }

  lemma SameStep(e: Env, f: Env, m: Core, pg: seq<Page>)
    requires Fits(e, pg) && |pg| == 1 && f.cf == e.cf && f.inputs == e.inputs
    requires e.bank.own == f.bank.own == 0 && e.bank.regions == f.bank.regions
    ensures Step(e, m, pg) == Step(f, m, pg)
  {
    hide Fetch, Exec;
    var d := Fetch(e.cf, m);
    if d.Decoded? {
      if IsBank(d.sel) {
        SameBankAccess(d.sel, e, f, d.a, m.pc, m.(pc := d.fall), pg);
      } else {
        SameElsewhere(d.sel, e, f, d.a, m.pc, m.(pc := d.fall), pg);
      }
    }
  }

  lemma SameBankAccess(x: Sel, e: Env, f: Env, a: Args, pc0: word, m: Core, pg: seq<Page>)
    requires Fits(e, pg) && |pg| == 1 && f.cf == e.cf && f.inputs == e.inputs && IsBank(x)
    requires e.bank.own == f.bank.own == 0 && e.bank.regions == f.bank.regions
    ensures Exec(x, e, a, pc0, m, pg) == Exec(x, f, a, pc0, m, pg)
  {
    hide Covered, Put, Put16, Family;
    assert m.mb == 0 ==> PageRegions(e, m.mb) == PageRegions(f, m.mb);
  }

  lemma SameElsewhere(x: Sel, e: Env, f: Env, a: Args, pc0: word, m: Core, pg: seq<Page>)
    requires Fits(e, pg) && |pg| == 1 && f.cf == e.cf && f.inputs == e.inputs && !IsBank(x)
    requires e.bank.own == f.bank.own == 0
    ensures Exec(x, e, a, pc0, m, pg) == Exec(x, f, a, pc0, m, pg)
  {
    hide Exec;
    Loc.ExecLocal(x, e, a, pc0, m, pg);
    Loc.ExecLocal(x, f, a, pc0, m, pg);
  }

  lemma {:induction false} SoloRun(l: B.Loads, g: B.Group, st: seq<Status>, n: nat)
    requires B.Formed(l, g) && |g.ms| == 1 && |st| == 1
    ensures var w := I.After(B.EnvOf(l, 0, st), World(g.ms[0], g.pg), n);
      B.GroupAfter(l, g, n) == B.Group([w.m], w.pg)
  {
    hide Tick;
    if n > 0 {
      SoloRun(l, g, st, n - 1);
      var h := B.GroupAfter(l, g, n - 1);
      var v := I.After(B.EnvOf(l, 0, st), World(g.ms[0], g.pg), n - 1);
      StatusesIdle(l, st, B.Statuses(h.ms), v);
      SoloTick(l, B.Statuses(h.ms), h);
    }
  }

  lemma SoloTick(l: B.Loads, st: seq<Status>, g: B.Group)
    requires B.Formed(l, g) && |g.ms| == 1
    ensures var t := Tick(B.EnvOf(l, 0, st), World(g.ms[0], g.pg));
      B.StepAll(l, st, g, B.Indices(1)) == B.Group([t.m], t.pg)
  {
    hide Tick;
    var order := B.Indices(1);
    assert order == [0] && order[..0] == [];
    var t := Tick(B.EnvOf(l, 0, st), World(g.ms[0], g.pg));
    assert g.ms[0 := t.m] == [t.m];
    assert B.StepAll(l, st, g, order[..0]) == g;
  }

  /** With groups of one row, the statuses of a launch make no difference to it. */
  lemma {:induction false} LoneStatusesIdle(l: B.Loads, one: seq<Status>, two: seq<Status>, g: B.Group,
      order: seq<nat>)
    requires Batched(l, g, 1) && |g.ms| == |one| == |two| && B.Within(order, |g.ms|)
    ensures RowSteps(l, 1, one, g, order) == RowSteps(l, 1, two, g, order)
    decreases |order|
  {
    hide RowStep;
    if order != [] {
      var last := |order| - 1;
      LoneStatusesIdle(l, one, two, g, order[..last]);
      LoneRowIdle(l, one, two, RowSteps(l, 1, one, g, order[..last]), order[last]);
    }
  }

  lemma LoneRowIdle(l: B.Loads, one: seq<Status>, two: seq<Status>, g: B.Group, p: nat)
    requires Batched(l, g, 1) && |g.ms| == |one| == |two| && p < |g.ms|
    ensures RowStep(l, 1, one, g, p) == RowStep(l, 1, two, g, p)
  {
    hide Tick;
    CutFormed(l, g, 1, p);
    RemainderUnique(p, 1, p, 0);
    var of := Cut(g, 1, p);
    StatusesIdle(CutLoads(l, 1, p), Slice(one, 1, p), Slice(two, 1, p), World(of.ms[0], of.pg));
  }

  lemma SlicesOfOne<T>(s: seq<T>, part: seq<T>, r: nat, p: nat)
    requires r < |s| && p < |s| && |part| == 1
    ensures Slice(s, 1, p) == [s[p]] && Spliced(s, r, part) == s[r := part[0]]
    ensures Slice(s[r := part[0]], 1, p) == if p == r then part else [s[p]]
  {
    RemainderUnique(p, 1, p, 0);
  }

  /** A row alone in its group, run until it stops, stands at its group's end; no other row has
      moved. */
  lemma LoneRowEnds(l: B.Loads, g: B.Group, st: seq<Status>, n: nat, r: nat, p: nat)
    requires Batched(l, g, 1) && r < |g.ms| && p < |g.ms| && |st| == 1
    ensures B.Formed(CutLoads(l, 1, r), Cut(g, 1, r)) && |Cut(g, 1, r).ms| == 1
    ensures var (sub, of) := (CutLoads(l, 1, r), Cut(g, 1, r));
      var w := I.After(B.EnvOf(sub, 0, st), World(of.ms[0], of.pg), n);
      && |w.pg| == 1 && r + 1 <= |g.pg|
      && var h := B.Group(g.ms[r := w.m], Spliced(g.pg, r, w.pg));
        && |h.ms| == |h.pg| == |g.ms|
        && (p != r ==> Cut(h, 1, p) == Cut(g, 1, p))
        && (w.m.status != Running ==> Cut(h, 1, r) == Ended(sub, of))
  {
    hide B.Formed, I.After, Ended, B.GroupAfter, Slice, Spliced;
    CutFormed(l, g, 1, r);
    CutFormed(l, g, 1, p);
    RemainderUnique(r, 1, r, 0);
    RemainderUnique(p, 1, p, 0);
    var (sub, of) := (CutLoads(l, 1, r), Cut(g, 1, r));
    var w := I.After(B.EnvOf(sub, 0, st), World(of.ms[0], of.pg), n);
    SoloRun(sub, of, st, n);
    var h := B.Group(g.ms[r := w.m], Spliced(g.pg, r, w.pg));
    SlicesOfOne(g.ms, [w.m], r, p);
    SlicesOfOne(g.pg, w.pg, r, p);
    SlicesOfOne(g.ms, [w.m], r, r);
    SlicesOfOne(g.pg, w.pg, r, r);
    if w.m.status != Running {
      QuietIsEnded(sub, of, n);
    }
  }
}
