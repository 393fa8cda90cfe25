/** When the order in which a group's members step can be seen: exactly when, on a page of a
    stopped owner, two members write different bytes to one cell, or one writes a new byte where
    another reads. Both can be read off the state at the tick boundary. */
module Orders {
  import opened Bits
  import opened Isa
  import opened Reference
  import opened Locality
  import opened Banks
  import A = Accesses
  import I = Invariants
  import M = Machine

  // --------------------------------------------------- what one tick amounts to

  /** Member `i` as it stands at the boundary. */
  function At(l: Loads, g: Group, i: nat): Env
    requires Formed(l, g) && i < |g.ms|
  {
    EnvOf(l, i, Statuses(g.ms))
  }

  /** What member `i`'s step makes of the boundary, were it the only one to step. */
  function Sole(l: Loads, g: Group, i: nat): (w: World)
    requires Formed(l, g) && i < |g.ms|
    ensures |w.pg| == |g.pg|
  {
    I.TickKeepsPages(At(l, g, i), World(g.ms[i], g.pg));
    Tick(At(l, g, i), World(g.ms[i], g.pg))
  }

  /** Member `i` executes an instruction this tick that no ownership rule refuses. */
  predicate Active(l: Loads, g: Group, i: nat)
    requires Formed(l, g) && i < |g.ms|
  {
    Acts(At(l, g, i), g.ms[i], |g.pg|)
  }

  /** The one page that instruction reaches. */
  function Reach(l: Loads, g: Group, i: nat): nat
    requires Formed(l, g) && i < |g.ms|
  {
    Focus(At(l, g, i), g.ms[i])
  }

  lemma ReachIsAPage(l: Loads, g: Group, i: nat)
    requires Formed(l, g) && i < |g.ms| && Active(l, g, i)
    ensures Reach(l, g, i) < |g.pg| && g.ms[i].status == Running
    ensures Reach(l, g, i) != i ==>
      AtBankAccess(l.cfs[i], g.ms[i]) && g.ms[i].mb == Reach(l, g, i) && g.ms[Reach(l, g, i)].status != Running
  {
    hide Fetch;
  }

  /** Cell `c` of the page member `i` reaches is one it reads, or one it writes, and with what. */
  predicate Reads(l: Loads, g: Group, i: nat, c: int)
    requires Formed(l, g) && i < |g.ms|
  {
    A.Reads(At(l, g, i), g.ms[i], c)
  }

  predicate Writes(l: Loads, g: Group, i: nat, c: int)
    requires Formed(l, g) && i < |g.ms|
  {
    A.Writes(At(l, g, i), g.ms[i], c)
  }

  function Put(l: Loads, g: Group, i: nat, c: int): byte
    requires Formed(l, g) && i < |g.ms| && Writes(l, g, i, c)
  {
    A.Stored(At(l, g, i), g.ms[i], c)
  }

  /** Both reach one page that belongs to neither. */
  predicate Meet(l: Loads, g: Group, i: nat, j: nat)
    requires Formed(l, g) && i < |g.ms| && j < |g.ms|
  {
    && i != j && Active(l, g, i) && Active(l, g, j)
    && Reach(l, g, i) == Reach(l, g, j) && Reach(l, g, i) != i && Reach(l, g, i) != j
  }

  /** What `i` writes there is what `j` writes too, and what `j` reads is what stands there. */
  predicate PeacefulAt(l: Loads, g: Group, i: nat, j: nat, c: nat)
    requires Formed(l, g) && i < |g.ms| && j < |g.ms| && c < DATA_SIZE
  {
    Active(l, g, i) && Reach(l, g, i) < |g.pg| && Writes(l, g, i, c) ==>
      && (Writes(l, g, j, c) ==> Put(l, g, i, c) == Put(l, g, j, c))
      && (Reads(l, g, j, c) ==> Put(l, g, i, c) == g.pg[Reach(l, g, i)][c])
  }

  ghost predicate Peaceful(l: Loads, g: Group, i: nat, j: nat)
    requires Formed(l, g) && i < |g.ms| && j < |g.ms|
  {
    Meet(l, g, i, j) ==> forall c: nat :: c < DATA_SIZE ==> PeacefulAt(l, g, i, j, c)
  }

  /** No two members can tell which of them stepped first. */
  ghost predicate Harmonious(l: Loads, g: Group)
    requires Formed(l, g)
  {
    forall i: nat, j: nat :: i < |g.ms| && j < |g.ms| ==> Peaceful(l, g, i, j)
  }

  /** Every order of all members gives one group. */
  ghost predicate OrderFree(l: Loads, g: Group)
    requires Formed(l, g)
  {
    forall one, two :: Permutation(one, |g.ms|) && Permutation(two, |g.ms|) ==>
      StepAll(l, Statuses(g.ms), g, one) == StepAll(l, Statuses(g.ms), g, two)
  }

  // ------------------------------------------------------ harmony leaves no order

  /** Member `i`'s step decides cell `c` of page `p`: all of its own page, when it reaches that,
      and of another's page the cells it writes. */
  predicate Touches(l: Loads, g: Group, i: nat, p: nat, c: nat)
    requires Formed(l, g) && i < |g.ms|
  {
    Active(l, g, i) && Reach(l, g, i) == p && (p == i || Writes(l, g, i, c))
  }

  /** A member alone: its own step's pages, cell by cell. */
  lemma SoleCells(l: Loads, g: Group, i: nat, p: nat, c: nat)
    requires Formed(l, g) && i < |g.ms| && p < |g.pg| && c < DATA_SIZE
    ensures Touches(l, g, i, p, c) && p != i ==>
      Writes(l, g, i, c) && Sole(l, g, i).pg[p][c] == Put(l, g, i, c)
    ensures !Touches(l, g, i, p, c) ==> Sole(l, g, i).pg[p][c] == g.pg[p][c]
  {
    hide Tick, A.Writes, A.Stored, Acts, Focus, Formed;
    var e := At(l, g, i);
    FormedPages(l, g, g, i);
    if !Active(l, g, i) {
      TickIdle(e, g.ms[i], g.pg, g.pg);
    } else {
      ReachIsAPage(l, g, i);
      if Reach(l, g, i) != i {
        A.AccessWrites(e, g.ms[i], g.pg, p, c);
      } else {
        TickFocused(e, g.ms[i], g.pg, g.pg);
      }
    }
  }

  /** Who decide one cell decide it alike. */
  lemma TouchesAgree(l: Loads, g: Group, i: nat, j: nat, p: nat, c: nat)
    requires Formed(l, g) && Harmonious(l, g) && i < |g.ms| && j < |g.ms| && p < |g.pg| && c < DATA_SIZE
    requires Touches(l, g, i, p, c) && Touches(l, g, j, p, c)
    ensures Sole(l, g, i).pg[p][c] == Sole(l, g, j).pg[p][c]
  {
    hide Active, Reach, Sole, Formed, Writes, Put, Reads;
    if i != j {
      ReachIsAPage(l, g, i);
      ReachIsAPage(l, g, j);
      SoleCells(l, g, i, p, c);
      SoleCells(l, g, j, p, c);
      assert Peaceful(l, g, i, j) && PeacefulAt(l, g, i, j, c);
    }
  }

  /** A member's reach still stands, as far as its step can tell. */
  ghost predicate Undisturbed(l: Loads, g: Group, h: Group, i: nat)
    requires Formed(l, g) && i < |g.ms| && |h.pg| == |g.pg|
  {
    Active(l, g, i) && Reach(l, g, i) < |g.pg| ==>
      if Reach(l, g, i) == i then h.pg[i] == g.pg[i]
      else forall c: nat :: c < DATA_SIZE && Reads(l, g, i, c) ==> h.pg[Reach(l, g, i)][c] == g.pg[Reach(l, g, i)][c]
  }

  /** Then it does what it would have done first. */
  lemma StepsAsSole(l: Loads, g: Group, h: Group, i: nat)
    requires Formed(l, g) && Formed(l, h) && |h.ms| == |g.ms| && i < |g.ms| && h.ms[i] == g.ms[i]
    requires Undisturbed(l, g, h, i)
    ensures StepOne(l, Statuses(g.ms), h, i).ms == h.ms[i := Sole(l, g, i).m]
  {
    hide Tick, Focus, A.Reads, Formed;
    var e := At(l, g, i);
    FormedPages(l, g, h, i);
    if !Active(l, g, i) {
      TickIdle(e, g.ms[i], g.pg, h.pg);
    } else {
      ReachIsAPage(l, g, i);
      if Reach(l, g, i) != i {
        A.AccessReads(e, g.ms[i], g.pg, h.pg);
        assert forall c: nat ::
          c < DATA_SIZE && Reads(l, g, i, c) ==> h.pg[Reach(l, g, i)][c] == g.pg[Reach(l, g, i)][c];
      } else {
        TickFocused(e, g.ms[i], g.pg, h.pg);
      }
    }
  }

  lemma FormedPages(l: Loads, g: Group, h: Group, i: nat)
    requires Formed(l, g) && Formed(l, h) && |h.ms| == |g.ms| && i < |g.ms|
    ensures Fits(At(l, g, i), g.pg) && Fits(At(l, g, i), h.pg) && |g.pg| == |h.pg| == |g.ms|
    ensures At(l, g, i).cf == l.cfs[i] && At(l, g, i).bank.own == i
  {
  }

  /** And it changes the cells it decides, and no others. */
  lemma StepCells(l: Loads, g: Group, h: Group, i: nat, p: nat, c: nat)
    requires Formed(l, g) && Formed(l, h) && |h.ms| == |g.ms| && i < |g.ms| && h.ms[i] == g.ms[i]
    requires Undisturbed(l, g, h, i) && p < |g.pg| && c < DATA_SIZE
    ensures StepOne(l, Statuses(g.ms), h, i).pg[p][c]
            == if Touches(l, g, i, p, c) then Sole(l, g, i).pg[p][c] else h.pg[p][c]
  {
    hide Tick, A.Writes, A.Stored, Formed, Acts, Focus;
    var e := At(l, g, i);
    FormedPages(l, g, h, i);
    if !Active(l, g, i) {
      TickIdle(e, g.ms[i], g.pg, h.pg);
    } else {
      ReachIsAPage(l, g, i);
      if Reach(l, g, i) != i {
        A.AccessWrites(e, g.ms[i], g.pg, p, c);
        A.AccessWrites(e, g.ms[i], h.pg, p, c);
      } else {
        TickFocused(e, g.ms[i], g.pg, h.pg);
      }
    }
  }

  /** The group after the members of `order` have stepped: each holds what its own step makes
      of the boundary, and each cell is what a member that decides it makes of it. No step
      order appears. */
  ghost predicate Merged(l: Loads, g: Group, order: seq<nat>, h: Group)
    requires Formed(l, g) && Within(order, |g.ms|)
  {
    && |h.ms| == |g.ms| && |h.pg| == |g.pg|
    && (forall i :: 0 <= i < |g.ms| ==> h.ms[i] == if i in order then Sole(l, g, i).m else g.ms[i])
    && (forall p: nat, c: nat :: p < |g.pg| && c < DATA_SIZE ==> CellMerged(l, g, order, h, p, c))
  }

  ghost predicate CellMerged(l: Loads, g: Group, order: seq<nat>, h: Group, p: nat, c: nat)
    requires Formed(l, g) && Within(order, |g.ms|) && |h.pg| == |g.pg| && p < |g.pg| && c < DATA_SIZE
  {
    && (forall i: nat :: i in order && Touches(l, g, i, p, c) ==> h.pg[p][c] == Sole(l, g, i).pg[p][c])
    && ((forall i: nat :: i in order ==> !Touches(l, g, i, p, c)) ==> h.pg[p][c] == g.pg[p][c])
  }

  lemma MergedUndisturbed(l: Loads, g: Group, order: seq<nat>, h: Group, i: nat)
    requires Formed(l, g) && Within(order, |g.ms|) && Merged(l, g, order, h) && Harmonious(l, g)
    requires i < |g.ms| && i !in order
    ensures Undisturbed(l, g, h, i)
  {
    hide Active, Reach, Sole, Formed, Reads, Writes, Put, Touches;
    if Active(l, g, i) {
      var p := Reach(l, g, i);
      ReachIsAPage(l, g, i);
      forall c: nat | c < DATA_SIZE && (p == i || Reads(l, g, i, c)) ensures h.pg[p][c] == g.pg[p][c] {
        assert CellMerged(l, g, order, h, p, c);
        if j: nat :| j in order && Touches(l, g, j, p, c) {
          ReadStands(l, g, i, j, c);
        }
      }
      if p == i {
        assert h.pg[i] == g.pg[i];
      }
    }
  }

  /** Whoever decides a cell of the page `i` reaches leaves what `i` reads there as it is. */
  lemma ReadStands(l: Loads, g: Group, i: nat, j: nat, c: nat)
    requires Formed(l, g) && Harmonious(l, g) && i < |g.ms| && j < |g.ms| && i != j && c < DATA_SIZE
    requires Active(l, g, i) && Reach(l, g, i) < |g.pg| && Touches(l, g, j, Reach(l, g, i), c)
    ensures Reach(l, g, i) != i
    ensures Reads(l, g, i, c) ==> Sole(l, g, j).pg[Reach(l, g, i)][c] == g.pg[Reach(l, g, i)][c]
  {
    hide Active, Reach, Sole, Formed, Writes, Put, Reads;
    ReachIsAPage(l, g, i);
    ReachIsAPage(l, g, j);
    SoleCells(l, g, j, Reach(l, g, i), c);
    assert Peaceful(l, g, j, i) && (Meet(l, g, j, i) ==> PeacefulAt(l, g, j, i, c));
  }

  lemma MergedGrows(l: Loads, g: Group, order: seq<nat>, h: Group, i: nat)
    requires Formed(l, g) && Within(order, |g.ms|) && Merged(l, g, order, h) && Harmonious(l, g)
    requires i < |g.ms| && i !in order && Formed(l, h)
    ensures Merged(l, g, order + [i], StepOne(l, Statuses(g.ms), h, i))
  {
    hide StepOne, Sole, Formed, Touches, Harmonious, Undisturbed, CellMerged;
    FormedPages(l, g, h, i);
    MergedUndisturbed(l, g, order, h, i);
    StepsAsSole(l, g, h, i);
    var t := StepOne(l, Statuses(g.ms), h, i);
    FormedPages(l, g, t, i);
    forall p: nat, c: nat | p < |g.pg| && c < DATA_SIZE ensures CellMerged(l, g, order + [i], t, p, c) {
      assert CellMerged(l, g, order, h, p, c);
      CellGrows(l, g, order, h, i, t, p, c) by { StepCells(l, g, h, i, p, c); }
    }
  }

  lemma CellGrows(l: Loads, g: Group, order: seq<nat>, h: Group, i: nat, t: Group, p: nat, c: nat)
    requires Formed(l, g) && Within(order, |g.ms|) && Harmonious(l, g) && i < |g.ms|
    requires |h.pg| == |t.pg| == |g.pg| && p < |g.pg| && c < DATA_SIZE && CellMerged(l, g, order, h, p, c)
    requires t.pg[p][c] == if Touches(l, g, i, p, c) then Sole(l, g, i).pg[p][c] else h.pg[p][c]
    ensures CellMerged(l, g, order + [i], t, p, c)
  {
    hide Sole, Formed, Touches, Harmonious;
    forall j: nat | j in order && Touches(l, g, j, p, c) && Touches(l, g, i, p, c)
      ensures Sole(l, g, i).pg[p][c] == Sole(l, g, j).pg[p][c]
    {
      TouchesAgree(l, g, i, j, p, c);
    }
  }

  lemma {:induction false} StepAllMerges(l: Loads, g: Group, order: seq<nat>)
    requires Formed(l, g) && Within(order, |g.ms|) && Distinct(order) && Harmonious(l, g)
    ensures Merged(l, g, order, StepAll(l, Statuses(g.ms), g, order))
    decreases |order|
  {
    hide Harmonious, Formed, Sole, Touches, StepOne;
    if order == [] {
    } else {
      var last := |order| - 1;
      var front := order[..last];
      StepAllMerges(l, g, front);
      hide Merged;
      assert front + [order[last]] == order;
      MergedGrows(l, g, front, StepAll(l, Statuses(g.ms), g, front), order[last]);
    }
  }

  /** What is merged is determined by the members that stepped. */
  lemma MergedIsUnique(l: Loads, g: Group, one: seq<nat>, two: seq<nat>, h: Group, k: Group)
    requires Formed(l, g) && Within(one, |g.ms|) && Within(two, |g.ms|)
    requires forall i: nat :: i in one <==> i in two
    requires Merged(l, g, one, h) && Merged(l, g, two, k)
    ensures h == k
  {
    hide Formed, Sole, Touches;
    forall p: nat | p < |g.pg| ensures h.pg[p] == k.pg[p] {
      forall c: nat | c < DATA_SIZE ensures h.pg[p][c] == k.pg[p][c] {
        assert CellMerged(l, g, one, h, p, c) && CellMerged(l, g, two, k, p, c);
        if i: nat :| i in one && Touches(l, g, i, p, c) {
          assert i in two;
        }
      }
    }
    assert h.ms == k.ms && h.pg == k.pg;
  }

  /** In harmony the whole result of a group tick is the same for every order of the members. */
  lemma OrderIndependence(l: Loads, g: Group, one: seq<nat>, two: seq<nat>)
    requires Formed(l, g) && Harmonious(l, g)
    requires Permutation(one, |g.ms|) && Permutation(two, |g.ms|)
    ensures StepAll(l, Statuses(g.ms), g, one) == StepAll(l, Statuses(g.ms), g, two)
  {
    hide Formed, Harmonious, Merged, StepAll;
    StepAllMerges(l, g, one);
    StepAllMerges(l, g, two);
    forall i: nat ensures i in one <==> i in two {
      if i in one {
        assert exists j :: 0 <= j < |one| && one[j] == i;
      }
      if i in two {
        assert exists j :: 0 <= j < |two| && two[j] == i;
      }
    }
    MergedIsUnique(l, g, one, two, StepAll(l, Statuses(g.ms), g, one), StepAll(l, Statuses(g.ms), g, two));
  }

  // ---------------------------------------------------- without it, the order shows

  /** The members below `n` other than `i` and `j`. */
  function Others(n: nat, i: nat, j: nat): (s: seq<nat>)
    ensures forall k: nat :: k in s <==> k < n && k != i && k != j
    ensures Within(s, n) && Distinct(s)
  {
    if n == 0 then []
    else if n - 1 == i || n - 1 == j then Others(n - 1, i, j)
    else
      var rest := Others(n - 1, i, j);
      assert forall x :: 0 <= x < |rest| ==> rest[x] < n - 1;
      rest + [n - 1]
  }

  lemma PairLast(n: nat, i: nat, j: nat)
    requires i < n && j < n && i != j
    ensures Permutation(Others(n, i, j) + [i, j], n)
  {
    var rest := Others(n, i, j);
    var all := rest + [i, j];
    assert all[|rest|] == i && all[|rest| + 1] == j;
    forall x | 0 <= x < |rest| ensures all[x] == rest[x] && all[x] in rest {
    }
    forall k: nat | k < n ensures k in all {
      if k != i && k != j {
        assert k in rest;
      }
    }
  }

  lemma PairFirst(n: nat, i: nat, j: nat)
    requires i < n && j < n && i != j
    ensures Permutation([i, j] + Others(n, i, j), n)
  {
    var rest := Others(n, i, j);
    var all := [i, j] + rest;
    assert all[0] == i && all[1] == j;
    forall x | 2 <= x < |all| ensures all[x] == rest[x - 2] && all[x] in rest {
    }
    forall k: nat | k < n ensures k in all {
      if k != i && k != j {
        assert k in rest;
      }
    }
  }

  lemma {:induction false} StepAllConcat(l: Loads, st: seq<Status>, g: Group, a: seq<nat>, b: seq<nat>)
    requires Formed(l, g) && Within(a, |g.ms|) && Within(b, |g.ms|)
    ensures StepAll(l, st, g, a + b) == StepAll(l, st, StepAll(l, st, g, a), b)
    decreases |b|
  {
    hide StepOne, Formed;
    if b == [] {
      assert a + b == a;
    } else {
      var last := |b| - 1;
      StepAllConcat(l, st, g, a, b[..last]);
      assert (a + b)[..|a + b| - 1] == a + b[..last] && (a + b)[|a + b| - 1] == b[last];
    }
  }

  lemma TwoSteps(l: Loads, st: seq<Status>, g: Group, i: nat, j: nat)
    requires Formed(l, g) && i < |g.ms| && j < |g.ms|
    ensures StepAll(l, st, g, [i, j]) == StepOne(l, st, StepOne(l, st, g, i), j)
  {
    hide StepOne, Formed;
    assert [i, j][..1] == [i] && [i][..0] == [];
    assert StepAll(l, st, g, [i]) == StepOne(l, st, StepAll(l, st, g, []), i);
  }

  /** Over any pages, a member's write is what its turn leaves in the cell. */
  lemma WriteLands(l: Loads, g: Group, h: Group, i: nat, c: nat)
    requires Formed(l, g) && Formed(l, h) && |h.ms| == |g.ms| && i < |g.ms| && h.ms[i] == g.ms[i]
    requires Active(l, g, i) && Reach(l, g, i) != i && c < DATA_SIZE && Writes(l, g, i, c)
    ensures Reach(l, g, i) < |g.pg|
    ensures StepOne(l, Statuses(g.ms), h, i).pg[Reach(l, g, i)][c] == Put(l, g, i, c)
  {
    hide Tick, A.Writes, A.Stored, Formed, Focus, Acts;
    FormedPages(l, g, h, i);
    ReachIsAPage(l, g, i);
    A.AccessWrites(At(l, g, i), g.ms[i], h.pg, Reach(l, g, i), c);
  }

  /** Two members that write different bytes to one cell: the last of them is seen. */
  lemma LastWriteShows(l: Loads, g: Group, i: nat, j: nat, c: nat)
    requires Formed(l, g) && i < |g.ms| && j < |g.ms| && Meet(l, g, i, j) && c < DATA_SIZE
    requires Writes(l, g, i, c) && Writes(l, g, j, c)
    ensures var n := |g.ms|;
      && Reach(l, g, i) < |g.pg| && Permutation(Others(n, i, j) + [i, j], n)
      && StepAll(l, Statuses(g.ms), g, Others(n, i, j) + [i, j]).pg[Reach(l, g, i)][c] == Put(l, g, j, c)
  {
    hide StepOne, StepAll, Formed, Active, Reach, Writes, Put, Permutation;
    var n, st := |g.ms|, Statuses(g.ms);
    var rest := Others(n, i, j);
    PairLast(n, i, j);
    var h := StepAll(l, st, g, rest);
    UntilItsTurn(l, st, g, rest, j);
    StepAllConcat(l, st, g, rest, [i, j]);
    TwoSteps(l, st, h, i, j);
    var k := StepOne(l, st, h, i);
    OtherStays(l, st, h, i, j);
    WriteLands(l, g, k, j, c);
  }

  lemma OtherStays(l: Loads, st: seq<Status>, g: Group, i: nat, j: nat)
    requires Formed(l, g) && i < |g.ms| && j < |g.ms| && i != j
    ensures StepOne(l, st, g, i).ms[j] == g.ms[j] && Formed(l, StepOne(l, st, g, i))
    ensures |StepOne(l, st, g, i).ms| == |g.ms|
  {
    hide Tick, Formed;
  }

  /** A member that reads what another newly writes: whether it read before or after is seen. */
  lemma ReadShows(l: Loads, g: Group, i: nat, j: nat, c: nat)
    requires Formed(l, g) && i < |g.ms| && j < |g.ms| && Meet(l, g, i, j) && c < DATA_SIZE
    requires Reach(l, g, i) < |g.pg|
    requires Writes(l, g, i, c) && Reads(l, g, j, c) && Put(l, g, i, c) != g.pg[Reach(l, g, i)][c]
    ensures var n := |g.ms|;
      && Permutation([i, j] + Others(n, i, j), n) && Permutation([j, i] + Others(n, j, i), n)
      && StepAll(l, Statuses(g.ms), g, [i, j] + Others(n, i, j)).ms[j]
         != StepAll(l, Statuses(g.ms), g, [j, i] + Others(n, j, i)).ms[j]
  {
    hide StepAll, Formed, Active, Reach, Writes, Put, Permutation, Tick, Reads;
    var n, st := |g.ms|, Statuses(g.ms);
    PairFirst(n, i, j);
    PairFirst(n, j, i);
    PairThen(l, st, g, i, j, Others(n, i, j), j);
    PairThen(l, st, g, j, i, Others(n, j, i), j);
    var k := StepOne(l, st, g, i);
    OtherStays(l, st, g, i, j);
    OtherStays(l, st, StepOne(l, st, g, j), i, j);
    WriteLands(l, g, g, i, c);
    ReadTells(l, g, k, j, c);
  }

  /** After the two, nobody else moves either of them. */
  lemma PairThen(l: Loads, st: seq<Status>, g: Group, i: nat, j: nat, rest: seq<nat>, k: nat)
    requires Formed(l, g) && i < |g.ms| && j < |g.ms| && k < |g.ms| && Within(rest, |g.ms|) && k !in rest
    ensures Within([i, j] + rest, |g.ms|)
    ensures StepAll(l, st, g, [i, j] + rest).ms[k] == StepOne(l, st, StepOne(l, st, g, i), j).ms[k]
  {
    hide StepOne, StepAll, Formed;
    StepAllConcat(l, st, g, [i, j], rest);
    TwoSteps(l, st, g, i, j);
    UntilItsTurn(l, st, StepAll(l, st, g, [i, j]), rest, k);
  }

  lemma ReadTells(l: Loads, g: Group, k: Group, j: nat, c: nat)
    requires Formed(l, g) && Formed(l, k) && |k.ms| == |g.ms| && j < |g.ms| && k.ms[j] == g.ms[j]
    requires Active(l, g, j) && Reach(l, g, j) != j && c < DATA_SIZE && Reads(l, g, j, c)
    requires Reach(l, g, j) < |g.pg| && k.pg[Reach(l, g, j)][c] != g.pg[Reach(l, g, j)][c]
    ensures StepOne(l, Statuses(g.ms), k, j).ms[j] != StepOne(l, Statuses(g.ms), g, j).ms[j]
  {
    hide Tick, A.Reads, Formed, Focus, Acts;
    FormedPages(l, g, k, j);
    ReachIsAPage(l, g, j);
    A.AccessReads(At(l, g, j), g.ms[j], g.pg, k.pg);
  }

  /** Two members that can tell: two orders of the whole group differ. */
  lemma OrderMatters(l: Loads, g: Group, i: nat, j: nat)
    requires Formed(l, g) && i < |g.ms| && j < |g.ms| && !Peaceful(l, g, i, j)
    ensures !OrderFree(l, g)
  {
    hide StepAll, Formed, Active, Reach, Writes, Put, Permutation, Reads;
    var n := |g.ms|;
    var c: nat :| c < DATA_SIZE && !PeacefulAt(l, g, i, j, c);
    if Writes(l, g, j, c) && Put(l, g, i, c) != Put(l, g, j, c) {
      LastWriteShows(l, g, i, j, c);
      LastWriteShows(l, g, j, i, c);
    } else {
      ReadShows(l, g, i, j, c);
    }
  }

  /** Every order of the members gives one group exactly when, for any two of them on one page of
      another, each cell both write gets one byte, and each cell one writes and the other reads
      is written with the byte it holds. */
  lemma OrderExact(l: Loads, g: Group)
    requires Formed(l, g)
    ensures OrderFree(l, g) <==> Harmonious(l, g)
  {
    hide StepAll, Formed, Distinct, Peaceful;
    if Harmonious(l, g) {
      forall one, two | Permutation(one, |g.ms|) && Permutation(two, |g.ms|)
        ensures StepAll(l, Statuses(g.ms), g, one) == StepAll(l, Statuses(g.ms), g, two)
      {
        OrderIndependence(l, g, one, two);
      }
    } else {
      var i: nat, j: nat :| i < |g.ms| && j < |g.ms| && !Peaceful(l, g, i, j);
      OrderMatters(l, g, i, j);
    }
  }

  // ------------------------------------------------------ the order a tick does take

  /** The members in front of `j`, and those behind it. */
  lemma IndicesAround(n: nat, j: nat)
    requires j < n
    ensures Indices(n) == Indices(n)[..j] + ([j] + Indices(n)[j + 1..])
    ensures j !in Indices(n)[..j] && j !in Indices(n)[j + 1..]
    ensures Within(Indices(n)[..j], n) && Within(Indices(n)[j + 1..], n)
  {
  }

  lemma OneTurn(l: Loads, st: seq<Status>, g: Group, j: nat)
    requires Formed(l, g) && j < |g.ms|
    ensures StepAll(l, st, g, [j]) == StepOne(l, st, g, j)
  {
    hide StepOne, Formed;
    assert [j][..0] == [];
    assert StepAll(l, st, g, []) == g;
  }

  /** A group tick takes the members by index: each steps over the pages as the members of smaller index
      left them, and nobody moves it again. */
  lemma TurnsInOrder(l: Loads, g: Group, j: nat)
    requires Formed(l, g) && j < |g.ms|
    ensures Within(Indices(|g.ms|)[..j], |g.ms|)
    ensures var h := StepAll(l, Statuses(g.ms), g, Indices(|g.ms|)[..j]);
      && Formed(l, h) && Fits(At(l, g, j), h.pg)
      && GroupTick(l, g).ms[j] == Tick(At(l, g, j), World(g.ms[j], h.pg)).m
  {
    hide StepAll, Tick, Formed;
    var n, st := |g.ms|, Statuses(g.ms);
    IndicesAround(n, j);
    var front, back := Indices(n)[..j], Indices(n)[j + 1..];
    var h := StepAll(l, st, g, front);
    FormedPages(l, g, h, j);
    StepAllConcat(l, st, g, front, [j] + back);
    StepAllConcat(l, st, h, [j], back);
    OneTurn(l, st, h, j);
    UntilItsTurn(l, st, g, front, j);
    UntilItsTurn(l, st, StepOne(l, st, h, j), back, j);
  }

  /** Who does not decide a cell leaves it, whatever the others did before. */
  lemma TurnLeaves(l: Loads, g: Group, h: Group, k: nat, p: nat, c: nat)
    requires Formed(l, g) && Formed(l, h) && |h.ms| == |g.ms| && k < |g.ms| && h.ms[k] == g.ms[k]
    requires p < |g.pg| && c < DATA_SIZE && !Touches(l, g, k, p, c)
    ensures StepOne(l, Statuses(g.ms), h, k).pg[p][c] == h.pg[p][c]
  {
    hide Tick, A.Writes, A.Stored, Formed, Acts, Focus;
    var e := At(l, g, k);
    FormedPages(l, g, h, k);
    if !Active(l, g, k) {
      TickIdle(e, g.ms[k], g.pg, h.pg);
    } else {
      ReachIsAPage(l, g, k);
      if Reach(l, g, k) != k {
        A.AccessWrites(e, g.ms[k], h.pg, p, c);
      } else {
        TickFocused(e, g.ms[k], h.pg, h.pg);
      }
    }
  }

  lemma {:induction false} TurnsLeave(l: Loads, g: Group, h: Group, order: seq<nat>, p: nat, c: nat)
    requires Formed(l, g) && Formed(l, h) && |h.ms| == |g.ms| && Within(order, |g.ms|) && Distinct(order)
    requires forall k :: k in order ==> h.ms[k] == g.ms[k] && !Touches(l, g, k, p, c)
    requires p < |g.pg| && c < DATA_SIZE && |h.pg| == |g.pg|
    ensures |StepAll(l, Statuses(g.ms), h, order).pg| == |g.pg|
    ensures StepAll(l, Statuses(g.ms), h, order).pg[p][c] == h.pg[p][c]
    decreases |order|
  {
    hide StepOne, Formed, Touches;
    if order != [] {
      var last := |order| - 1;
      var front := order[..last];
      var t := StepAll(l, Statuses(g.ms), h, front);
      TurnsLeave(l, g, h, front, p, c);
      UntilItsTurn(l, Statuses(g.ms), h, front, order[last]);
      TurnLeaves(l, g, t, order[last], p, c);
      SamePages(l, g, StepOne(l, Statuses(g.ms), t, order[last]));
    }
  }

  lemma SamePages(l: Loads, g: Group, h: Group)
    requires Formed(l, g) && Formed(l, h) && |h.ms| == |g.ms|
    ensures |h.pg| == |g.pg|
  {
  }

  /** So of all that store one cell of another's page, the member of the largest index is seen. */
  lemma LastStoreStands(l: Loads, g: Group, j: nat, c: nat)
    requires Formed(l, g) && j < |g.ms| && c < DATA_SIZE
    requires Active(l, g, j) && Reach(l, g, j) != j && Writes(l, g, j, c)
    requires forall k: nat :: j < k < |g.ms| ==> !Touches(l, g, k, Reach(l, g, j), c)
    ensures Reach(l, g, j) < |GroupTick(l, g).pg|
    ensures GroupTick(l, g).pg[Reach(l, g, j)][c] == Put(l, g, j, c)
  {
    hide StepAll, StepOne, Formed, Active, Reach, Writes, Put, Touches;
    var n, st := |g.ms|, Statuses(g.ms);
    IndicesAround(n, j);
    var front, back := Indices(n)[..j], Indices(n)[j + 1..];
    var h := StepAll(l, st, g, front);
    StepAllConcat(l, st, g, front, [j] + back);
    StepAllConcat(l, st, h, [j], back);
    OneTurn(l, st, h, j);
    UntilItsTurn(l, st, g, front, j);
    WriteLands(l, g, h, j, c);
    var t := StepOne(l, st, h, j);
    SamePages(l, g, h);
    SamePages(l, g, t);
    forall k | k in back ensures t.ms[k] == g.ms[k] {
      UntilItsTurn(l, st, g, front, k);
      OtherStays(l, st, h, j, k);
    }
    TurnsLeave(l, g, t, back, Reach(l, g, j), c);
  }

  // -------------------------------------------------------------- two that differ

  /** STM [HL], r0, in a group of three. */
  function StoreImage(): Image { [0x70, 0xB4] + seq(CODE_SIZE - 2, _ => 0) }

  function StoreBlock(): Config
  {
    Config(2, 0, 0, 0, seq(VEC_COUNT, _ => 0), None, [], 3, 64, 0, 1000, 8192)
  }

  const BLANK: Page := seq(DATA_SIZE, _ => 0)

  /** Two running members about to store their r0, 1 and 2, at the start of page 2, whose owner
      has halted. */
  function Storer(b: byte): Core { var m := M.BootCore(StoreBlock(), StoreImage()); m.(r := [b, 0, 0, 0]).(mb := 2) }

  function ThreeLoads(): Loads
  {
    Loads([StoreBlock(), StoreBlock(), StoreBlock()], [[], [], []])
  }

  function Three(): Group
  {
    Group([Storer(1), Storer(2), Storer(0).(status := Halted)], seq(3, _ => BLANK))
  }

  lemma StoreBlockIsLegal()
    ensures Legal(StoreBlock())
  {
    Pow2Data();
  }

  lemma StorerFetches(b: byte)
    requires Legal(StoreBlock())
    ensures Fetch(StoreBlock(), Storer(b)) == Decoded(Stm, Args(0, 0, 0, 0), 2)
  {
    var m := Storer(b);
    assert m.code[0] == 0x70 && m.code[1] == 0xB4;
    assert EscapeRow(0xB4) == Row(Stm, 0, 0, 0);
  }

  lemma StorerReaches(i: nat, b: byte)
    requires Formed(ThreeLoads(), Three()) && i < 2 && b == i + 1
    ensures var l, g := ThreeLoads(), Three();
      g.ms[i] == Storer(b) && At(l, g, i).cf == StoreBlock() && Active(l, g, i) && Reach(l, g, i) == 2
  {
    hide Legal, Fetch;
    StoreBlockIsLegal();
    StorerFetches(b);
  }

  lemma NoRegions(i: nat)
    requires Formed(ThreeLoads(), Three()) && i < 2
    ensures PageRegions(At(ThreeLoads(), Three(), i), 2) == []
  {
    hide Legal;
  }

  lemma StorerCell(e: Env, b: byte)
    requires Legal(e.cf) && Fetch(e.cf, Storer(b)) == Decoded(Stm, Args(0, 0, 0, 0), 2)
    requires AtBankAccess(e.cf, Storer(b)) && PageRegions(e, 2) == []
    ensures A.Writes(e, Storer(b), 0) && A.Stored(e, Storer(b), 0) == b
  {
    hide Legal, Fetch, PageRegions, AtBankAccess;
  }

  lemma StorerStores(i: nat, b: byte)
    requires Formed(ThreeLoads(), Three()) && i < 2 && b == i + 1
    ensures var l, g := ThreeLoads(), Three(); Writes(l, g, i, 0) && Put(l, g, i, 0) == b
  {
    hide Legal, Fetch, PageRegions, Storer, StoreBlock, A.Writes, A.Stored, AtBankAccess;
    StoreBlockIsLegal();
    StorerFetches(b);
    StorerReaches(i, b);
    NoRegions(i);
    StorerCell(At(ThreeLoads(), Three(), i), b);
  }

  /** The order of the two shows in the group that a tick leaves. */
  lemma OrdersDiffer()
    ensures var l, g := ThreeLoads(), Three();
      && Formed(l, g) && (forall i :: 0 <= i < 3 ==> I.Reachable(LoneEnv(l, i), g.ms[i]))
      && StepAll(l, Statuses(g.ms), g, [2, 0, 1]).pg[2][0] == 2
      && StepAll(l, Statuses(g.ms), g, [2, 1, 0]).pg[2][0] == 1
      && !Harmonious(l, g) && !OrderFree(l, g)
  {
    hide Legal, Fetch, StepAll, Active, Reach, Writes, Put, Statuses, Storer;
    StoreBlockIsLegal();
    var l, g := ThreeLoads(), Three();
    assert Formed(l, g);
    StorerReaches(0, 1);
    StorerReaches(1, 2);
    StorerStores(0, 1);
    StorerStores(1, 2);
    OthersOfThree();
    LastWriteShows(l, g, 0, 1, 0);
    LastWriteShows(l, g, 1, 0, 0);
    StorersReachable();
    OrderExact(l, g);
  }

  lemma OthersOfThree()
    ensures Others(3, 0, 1) + [0, 1] == [2, 0, 1] && Others(3, 1, 0) + [1, 0] == [2, 1, 0]
  {
    assert Others(2, 0, 1) == Others(2, 1, 0) == [];
  }

  lemma StorersReachable()
    requires Formed(ThreeLoads(), Three())
    ensures forall i :: 0 <= i < 3 ==> I.Reachable(LoneEnv(ThreeLoads(), i), Three().ms[i])
  {
    hide Legal;
  }
}
