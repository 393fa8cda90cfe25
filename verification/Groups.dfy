/** The group driver as it runs: it samples the statuses, hands them to every member and steps
    the members in place over their shared pages. */
module Groups {
  import opened Bits
  import opened Isa
  import R = Reference
  import M = Machine
  import B = Banks

  class BankGroup {
    const machines: seq<M.NCP8>
    ghost const pages: seq<array<byte>>
    var tick: nat

    /** Every member holds the same page set, and owns the page at its index. */
    ghost predicate Valid()
      reads machines
    {
      && 1 <= |machines| <= 65535 && |pages| == |machines|
      && (forall i, j :: 0 <= i < j < |machines| ==> machines[i] != machines[j])
      && (forall i :: 0 <= i < |machines| ==>
            machines[i].Valid() && machines[i].cf.nbanks == |machines|
            && machines[i].data == pages[i] && machines[i].banks == pages && machines[i].bankOwn == i
            && machines[i].ownerRegions == Some(B.Regions(Loads())))
    }

    ghost function Loads(): B.Loads
    {
      B.Loads(seq(|machines|, i requires 0 <= i < |machines| => machines[i].cf),
              seq(|machines|, i requires 0 <= i < |machines| => machines[i].inputs))
    }

    /** The members and their pages hold the value `g`. */
    ghost predicate At(g: B.Group)
      reads machines, pages
    {
      CoresAt(g.ms) && PagesAt(g.pg)
    }

    ghost predicate CoresAt(ms: seq<R.Core>)
      reads machines
    {
      |ms| == |machines| && forall i :: 0 <= i < |machines| ==> machines[i].Core() == ms[i]
    }

    ghost predicate PagesAt(pg: seq<R.Page>)
      reads pages
    {
      |pg| == |pages| && forall i :: 0 <= i < |pages| ==> pages[i][..] == pg[i]
    }

    lemma AtIsFormed(g: B.Group)
      requires Valid() && At(g)
      ensures B.Formed(Loads(), g)
    {
      forall i | 0 <= i < |machines| ensures Legal(machines[i].cf) {
        assert machines[i].Valid();
      }
    }

    /** Forms a group, or refuses: a group has 1 to 65535 members, no machine twice, each loaded for
        its size. A machine's DATA is its own. */
    static method Form(machines: seq<M.NCP8>) returns (group: BankGroup?)
      requires forall i, j :: 0 <= i < j < |machines| && machines[i] != machines[j] ==>
        machines[i].data != machines[j].data
      requires forall i :: 0 <= i < |machines| ==>
        Legal(machines[i].cf) && machines[i].data.Length == DATA_SIZE
      modifies machines
      ensures group != null <==>
        && 1 <= |machines| <= 65535
        && (forall i, j :: 0 <= i < j < |machines| ==> machines[i] != machines[j])
        && forall i :: 0 <= i < |machines| ==> machines[i].cf.nbanks == |machines|
      ensures group != null ==>
        && fresh(group) && group.machines == machines && group.Valid() && group.tick == 0
        && forall i :: 0 <= i < |machines| ==> machines[i].Core() == old(machines[i].Core())
      ensures group == null ==> forall i :: 0 <= i < |machines| ==> unchanged(machines[i])
    {
      hide Legal, M.NCP8.Valid, M.NCP8.Core;
      if |machines| < 1 || |machines| > 65535 { return null; }
      for i := 0 to |machines|
        invariant forall k, j :: 0 <= k < i && k < j < |machines| ==> machines[k] != machines[j]
      {
        for j := i + 1 to |machines|
          invariant forall k :: i < k < j ==> machines[i] != machines[k]
        {
          if machines[i] == machines[j] { return null; }
        }
      }
      for i := 0 to |machines|
        invariant forall k :: 0 <= k < i ==> machines[k].cf.nbanks == |machines|
      {
        if machines[i].cf.nbanks != |machines| { return null; }
      }
      group := new BankGroup(machines);
    }

    /** A group is formed of machines that were loaded for its size. */
    constructor (machines: seq<M.NCP8>)
      requires 1 <= |machines| <= 65535
      requires forall i, j :: 0 <= i < j < |machines| ==>
        machines[i] != machines[j] && machines[i].data != machines[j].data
      requires forall i :: 0 <= i < |machines| ==>
        Legal(machines[i].cf) && machines[i].cf.nbanks == |machines| && machines[i].data.Length == DATA_SIZE
      modifies machines
      ensures this.machines == machines && Valid() && tick == 0
      ensures forall i :: 0 <= i < |machines| ==> machines[i].Core() == old(machines[i].Core())
    {
      this.machines := machines;
      tick := 0;
      this.pages := seq(|machines|, i requires 0 <= i < |machines| => machines[i].data);
      new;
      var n := |machines|;
      var statuses := Sample();
      Install(statuses, seq(n, i requires 0 <= i < n => machines[i].data),
              seq(n, i requires 0 <= i < n => machines[i].cf.regions));
    }

    /** Hands every member the pages of the group, its own index and what their owners declare. */
    method Install(statuses: seq<R.Status>, shared: seq<array<byte>>, regions: seq<seq<Region>>)
      requires |shared| == |machines| && shared == pages && regions == B.Regions(Loads())
      requires forall i, j :: 0 <= i < j < |machines| ==>
        machines[i] != machines[j] && shared[i] != shared[j]
      requires forall i :: 0 <= i < |machines| ==>
        && Legal(machines[i].cf) && machines[i].cf.nbanks == |machines| && shared[i] == machines[i].data
        && shared[i].Length == DATA_SIZE
      requires |statuses| == |machines|
      modifies machines
      ensures forall i :: 0 <= i < |machines| ==>
        machines[i].Valid() && machines[i].banks == pages && machines[i].bankOwn == i
        && machines[i].ownerRegions == Some(regions)
      ensures forall i :: 0 <= i < |machines| ==> machines[i].Core() == old(machines[i].Core())
    {
      hide Legal, M.NCP8.Valid, M.NCP8.Core;
      for i := 0 to |machines|
        invariant forall j :: 0 <= j < |machines| ==> machines[j].Core() == old(machines[j].Core())
        invariant forall j :: 0 <= j < i ==>
          machines[j].Valid() && machines[j].banks == shared && machines[j].bankOwn == j
          && machines[j].ownerRegions == Some(regions)
      {
        var taken := machines[i].InstallBanks(shared, i, statuses, Some(regions));
        assert machines[i].Env().bank == R.Bank(i, Some(statuses), Some(regions));
      }
    }

    /** Every member's status, read once. */
    method Sample() returns (statuses: seq<R.Status>)
      ensures |statuses| == |machines|
      ensures forall i :: 0 <= i < |machines| ==> statuses[i] == machines[i].status
    {
      statuses := [];
      for i := 0 to |machines|
        invariant |statuses| == i && forall j :: 0 <= j < i ==> statuses[j] == machines[j].status
      {
        statuses := statuses + [machines[i].status];
      }
    }

    /** Hands the boundary statuses to every member. */
    method Announce(statuses: seq<R.Status>, ghost g: B.Group)
      requires Valid() && At(g)
      modifies machines
      ensures Valid() && At(g)
      ensures forall i :: 0 <= i < |machines| ==>
        machines[i].ownerStatus == Some(statuses) && machines[i].Core() == old(machines[i].Core())
        && machines[i].banks == old(machines[i].banks)
    {
      hide Legal, M.NCP8.Core, M.NCP8.Valid, B.Regions;
      for i := 0 to |machines|
        invariant Valid()
        invariant forall j :: 0 <= j < |machines| ==>
          machines[j].Core() == old(machines[j].Core()) && machines[j].banks == old(machines[j].banks)
        invariant forall j :: 0 <= j < i ==> machines[j].ownerStatus == Some(statuses)
      {
        machines[i].ownerStatus := Some(statuses);
      }
    }

    /** The member's turn: it steps over the pages as the members before it left them. */
    method Turn(i: nat, ghost st: seq<R.Status>, ghost h: B.Group) returns (o: M.Check)
      requires Valid() && At(h) && i < |machines|
      requires forall j :: 0 <= j < |machines| ==> machines[j].ownerStatus == Some(st)
      modifies machines, pages
      ensures Valid() && B.Formed(Loads(), h) && At(B.StepOne(Loads(), st, h, i))
      ensures forall j :: 0 <= j < |machines| ==> machines[j].ownerStatus == Some(st)
      ensures o.Raise? <==> h.ms[i].status == R.Running && machines[i].status == R.Error
      ensures o.Raise? ==> o.cause == machines[i].reason
    {
      hide R.Tick, B.Formed, Legal, M.NCP8.Core, M.NCP8.Valid, B.Regions;
      AtIsFormed(h);
      var m := machines[i];
      assert m.Env() == B.EnvOf(Loads(), i, st);
      MemberStatus(h, i);
      o := m.Step(h.pg);
    }

    lemma MemberStatus(g: B.Group, i: nat)
      requires At(g) && i < |machines|
      ensures machines[i].status == g.ms[i].status && machines[i].reason == g.ms[i].reason
    {
    }

    /** Member `i` stops in error in this tick. */
    ghost predicate Fails(g: B.Group, i: nat)
      reads machines
      requires Valid() && B.Formed(Loads(), g) && |g.ms| == |machines| && i < |machines|
    {
      g.ms[i].status == R.Running && B.GroupTick(Loads(), g).ms[i].status == R.Error
    }

    /** One group tick. The statuses are sampled at the boundary, before any member has stepped; the
        group ends where `Banks.GroupTick` says. Who stops in error is told, and when asked to be
        strict the first of them is thrown, after everybody has stepped. */
    method Step(strict: bool, ghost g: B.Group) returns (raised: seq<M.Check>, thrown: Option<nat>)
      requires Valid() && At(g)
      modifies this, machines, pages
      ensures Valid() && B.Formed(Loads(), g) && At(B.GroupTick(Loads(), g))
      ensures tick == old(tick) + 1 && |raised| == |machines|
      ensures forall i :: 0 <= i < |machines| ==>
        && (raised[i].Raise? <==> Fails(g, i))
        && (raised[i].Raise? ==> raised[i].cause == B.GroupTick(Loads(), g).ms[i].reason)
      ensures thrown.None? <==> !strict || forall i :: 0 <= i < |machines| ==> !Fails(g, i)
      ensures thrown.Some? ==>
        thrown.value < |machines| && Fails(g, thrown.value) && forall i :: 0 <= i < thrown.value ==> !Fails(g, i)
    {
      hide B.StepOne, B.Formed, Valid, At, M.NCP8.Core;
      AtIsFormed(g);
      ghost var l := Loads();
      var statuses := Sample();
      SampledAtBoundary(g, statuses);
      Announce(statuses, g);
      raised, thrown := [], None;
      ghost var h := g;
      for i := 0 to |machines|
        invariant Valid() && At(h) && B.Formed(l, g)
        invariant forall j :: 0 <= j < |machines| ==> machines[j].ownerStatus == Some(statuses)
        invariant B.Within(B.Indices(|machines|)[..i], |g.ms|)
        invariant h == B.StepAll(l, statuses, g, B.Indices(|machines|)[..i])
        invariant |raised| == i && tick == old(tick)
        invariant forall j :: i <= j < |machines| ==> h.ms[j] == g.ms[j]
        invariant forall j :: 0 <= j < i ==>
          && (raised[j].Raise? <==> g.ms[j].status == R.Running && h.ms[j].status == R.Error)
          && (raised[j].Raise? ==> raised[j].cause == h.ms[j].reason)
        invariant thrown.None? <==> !strict || forall j :: 0 <= j < i ==> !raised[j].Raise?
        invariant thrown.Some? ==>
          thrown.value < i && raised[thrown.value].Raise? && forall j :: 0 <= j < thrown.value ==> !raised[j].Raise?
      {
        ghost var front, grown := B.Indices(|machines|)[..i], B.Indices(|machines|)[..i + 1];
        assert grown[..i] == front && grown[i] == i;
        var o := Turn(i, statuses, h);
        raised := raised + [o];
        if strict && thrown.None? && o.Raise? {
          thrown := Some(i);
        }
        OthersStand(l, statuses, h, i);
        h := B.StepOne(l, statuses, h, i);
        MemberStatus(h, i);
      }
      assert B.Indices(|machines|)[..|machines|] == B.Indices(|g.ms|);
      assert h == B.GroupTick(l, g);
      tick := tick + 1;
    }

    lemma OthersStand(l: B.Loads, st: seq<R.Status>, h: B.Group, i: nat)
      requires B.Formed(l, h) && i < |h.ms|
      ensures |B.StepOne(l, st, h, i).ms| == |h.ms|
      ensures forall j :: 0 <= j < |h.ms| && j != i ==> B.StepOne(l, st, h, i).ms[j] == h.ms[j]
    {
    }

    lemma SampledAtBoundary(g: B.Group, statuses: seq<R.Status>)
      requires At(g) && |statuses| == |machines|
      requires forall i :: 0 <= i < |machines| ==> statuses[i] == machines[i].status
      ensures statuses == B.Statuses(g.ms)
    {
      forall i | 0 <= i < |machines| ensures statuses[i] == g.ms[i].status {
        assert machines[i].Core() == g.ms[i];
      }
    }

    method AllQuiescent(ghost g: B.Group) returns (quiet: bool)
      requires At(g)
      ensures quiet == B.Quiescent(g)
    {
      for i := 0 to |machines|
        invariant forall j :: 0 <= j < i ==> g.ms[j].status != R.Running
      {
        assert machines[i].Core() == g.ms[i];
        if machines[i].status == R.Running {
          return false;
        }
      }
      return true;
    }

    /** Steps until nobody runs, or a limit is reached. It takes at most the longest budget left
        in the group, plus one, ticks. */
    method Run(limit: Option<nat>, ghost g: B.Group) returns (taken: nat, ghost h: B.Group)
      requires Valid() && At(g)
      modifies this, machines, pages
      ensures Valid() && At(h) && B.Formed(Loads(), g)
      ensures h == B.GroupAfter(Loads(), g, taken)
      ensures B.Quiescent(h) || limit == Some(taken)
      ensures taken <= B.Longest(Loads(), g, |g.ms|) && tick == old(tick) + taken
    {
      hide B.Formed, B.GroupTick, Valid, At, B.Quiescent, Loads;
      AtIsFormed(g);
      ghost var l := Loads();
      taken, h := 0, g;
      B.QuietHasNoFuel(l, g);
      var quiet := AllQuiescent(g);
      while !quiet && (limit.Some? ==> taken < limit.value)
        invariant Valid() && At(h) && h == B.GroupAfter(l, g, taken) && quiet == B.Quiescent(h)
        invariant taken <= B.Longest(l, g, |g.ms|) && tick == old(tick) + taken
        invariant limit.Some? ==> taken <= limit.value
        invariant !quiet ==> taken < B.Longest(l, g, |g.ms|)
        decreases B.Longest(l, g, |g.ms|) - taken
      {
        var raised, thrown := Step(false, h);
        h := B.GroupTick(l, h);
        taken := taken + 1;
        quiet := AllQuiescent(h);
        B.GroupShortens(l, g, taken);
        B.QuietHasNoFuel(l, h);
      }
    }
  }
}
