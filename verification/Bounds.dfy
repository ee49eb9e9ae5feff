/** The bounds a budget guarantees in every reachable world, whatever else happens in the cluster. */
module Bounds {
  import opened Types
  import opened Resolver
  import opened Rounding
  import opened BudgetSpec
  import opened Protocol
  import opened Lifecycle
  import opened Safety

  /** The granted disruptions of a type the budget supports that touch its nodes. */
  ghost function CheckedGrants(w: World, b: Budget): set<string> {
    set n | n in w.nds && w.nds[n].status.state == Granted && Relevant(w.topology, b, w.nds[n].spec)
  }

  /** The watched nodes that some of them covers. */
  ghost function DisruptedWatched(w: World, b: Budget): NodeSet {
    CoveredBy(w, b, GrantedInOrder(w, b))
  }

  ghost function CoveredBy(w: World, b: Budget, l: seq<string>): NodeSet {
    if l == [] then {}
    else
      var last := l[|l| - 1];
      CoveredBy(w, b, l[..|l| - 1])
      + if last in w.nds then Watch(w.topology, b) * Cover(w.topology, w.nds[last].spec) else {}
  }

  lemma {:induction false} CoveredByMembers(w: World, b: Budget, l: seq<string>, x: string)
    ensures x in CoveredBy(w, b, l) <==>
            exists n :: n in l && n in w.nds && x in Watch(w.topology, b) * Cover(w.topology, w.nds[n].spec)
  {
    if l != [] {
      var init, last := l[..|l| - 1], l[|l| - 1];
      assert l == init + [last];
      CoveredByMembers(w, b, init, x);
    }
  }

  /**
    The history lists are what they are called: the order lists the checked grants once each, and covers their nodes.
   */
  lemma OrderIsCheckedGrants(w: World, b: Budget)
    requires Inv(w)
    ensures NoDuplicates(GrantedInOrder(w, b))
    ensures forall n :: n in GrantedInOrder(w, b) <==> n in CheckedGrants(w, b)
    ensures |GrantedInOrder(w, b)| == |CheckedGrants(w, b)|
    ensures DisruptedWatched(w, b)
         == set x | x in Watch(w.topology, b) && exists n ::
             n in CheckedGrants(w, b) && x in Cover(w.topology, w.nds[n].spec)
  {
    RelevantMembers(w, b, w.order);
    var l := GrantedInOrder(w, b);
    DistinctCount(l, CheckedGrants(w, b));
    CountCovers(l, CheckedGrants(w, b));
    forall x ensures x in DisruptedWatched(w, b)
                <==> x in Watch(w.topology, b) && exists n ::
                    n in CheckedGrants(w, b) && x in Cover(w.topology, w.nds[n].spec)
    {
      CoveredByMembers(w, b, l, x);
    }
  }

  lemma {:induction false} CountCovers(l: seq<string>, s: set<string>)
    requires forall n | n in s :: n in l
    ensures |s| <= |l|
    decreases |l|
  {
    if l == [] {
      assert s == {};
    } else {
      var init, last := l[..|l| - 1], l[|l| - 1];
      assert l == init + [last];
      CountCovers(init, s - {last});
    }
  }

  function Max(a: int, b: int): int {
    if a >= b then a else b
  }

  /** 1 + 2 + ... + n */
  function Triangle(n: nat): nat {
    if n == 0 then 0 else n + Triangle(n - 1)
  }

  lemma RoomBoundsCount(w: World, b: Budget)
    requires Inv(w) && OrderRoom(w, b)
    ensures |CheckedGrants(w, b)| <= Max(0, CapacityOf(w, b))
  {
    OrderIsCheckedGrants(w, b);
    var l := GrantedInOrder(w, b);
    if l != [] {
      var last := l[|l| - 1];
      assert last in CheckedGrants(w, b);
      assert DemandOf(w, b, w.nds[last].spec) >= 1;
    }
  }

  lemma UnionCardinality<T>(a: set<T>, b: set<T>)
    ensures |a + b| <= |a| + |b|
  {
    assert a + b == a + (b - a);
    SubsetCardinality(b - a, b);
  }

  lemma CoverStep(w: World, b: Budget, l: seq<string>)
    requires b.NDB? && l != [] && l[|l| - 1] in w.nds
    ensures |CoveredBy(w, b, l)| <= |CoveredBy(w, b, l[..|l| - 1])| + DemandOf(w, b, w.nds[l[|l| - 1]].spec)
  {
    UnionCardinality(CoveredBy(w, b, l[..|l| - 1]), Watch(w.topology, b) * Cover(w.topology, w.nds[l[|l| - 1]].spec));
  }

  lemma {:induction false} DecreasingCovers(w: World, b: Budget, l: seq<string>, room: nat)
    requires b.NDB? && |l| <= room
    requires forall i | 0 <= i < |l| :: l[i] in w.nds && DemandOf(w, b, w.nds[l[i]].spec) + i <= room
    ensures |CoveredBy(w, b, l)| <= Triangle(room) - Triangle(room - |l|)
    decreases |l|
  {
    hide Watch, Cover, Demand;
    if l != [] {
      DecreasingCovers(w, b, l[..|l| - 1], room);
      CoverStep(w, b, l);
    }
  }

  lemma {:induction false} UnitCovers(w: World, b: Budget, l: seq<string>)
    requires b.NDB? && forall i | 0 <= i < |l| :: l[i] in w.nds && DemandOf(w, b, w.nds[l[i]].spec) <= 1
    ensures |CoveredBy(w, b, l)| <= |l|
    decreases |l|
  {
    if l != [] {
      UnitCovers(w, b, l[..|l| - 1]);
      CoverStep(w, b, l);
    }
  }

  lemma RoomBoundsCover(w: World, b: Budget)
    requires Inv(w) && OrderRoom(w, b) && b.NDB?
    ensures |DisruptedWatched(w, b)| <= Triangle(Max(0, CapacityOf(w, b)))
    ensures DisruptedWatched(w, b) <= Watch(w.topology, b)
  {
    OrderIsCheckedGrants(w, b);
    RoomBoundsCount(w, b);
    DecreasingCovers(w, b, GrantedInOrder(w, b), Max(0, CapacityOf(w, b)));
  }

  /**
    Application budgets: at most max(0, MaxDisruptions) granted disruptions of supported types touch the budget, in
    every world a run can reach, with any interleaving of creations, deletions and budget status writes.
   */
  lemma {:induction false} ApplicationBudgetBound(w: World, steps: seq<Step>, b: Budget)
    requires Initial(w) && Fixed(w, b) && KeepsBudget(steps, b) && b.ADB?
    ensures |CheckedGrants(Run(w, steps), b)| <= Max(0, b.maxDisruptions)
  {
    hide Run;
    RunSafe(w, steps, b);
    RoomBoundsCount(Run(w, steps), b);
  }

  /**
    Node budgets: the i-th oldest granted disruption (from 0) covers at most capacity - i watched nodes, so there are
    at most capacity of them, and together they cover at most 1 + 2 + ... + capacity watched nodes.
   */
  lemma {:induction false} NodeBudgetBound(w: World, steps: seq<Step>, b: Budget)
    requires Initial(w) && Fixed(w, b) && KeepsBudget(steps, b) && b.NDB? && |Watch(w.topology, b)| <= TWO53
    ensures var r := Run(w, steps);
            var capacity := MinReal(b.maxDisrupted, |Watch(w.topology, b)| - b.minUndisrupted);
            var l := GrantedInOrder(r, b);
            && (forall i | 0 <= i < |l| :: l[i] in r.nds
                  && |Watch(w.topology, b) * Cover(w.topology, r.nds[l[i]].spec)| <= capacity - i)
            && |CheckedGrants(r, b)| <= Max(0, capacity)
            && |DisruptedWatched(r, b)| <= Triangle(Max(0, capacity))
            && |DisruptedWatched(r, b)| <= |Watch(w.topology, b)|
  {
    hide Run;
    RunSafe(w, steps, b);
    var r := Run(w, steps);
    var l := GrantedInOrder(r, b);
    RoomBoundsCount(r, b);
    forall i | 0 <= i < |l|
      ensures l[i] in r.nds && |Watch(w.topology, b) * Cover(w.topology, r.nds[l[i]].spec)| <= CapacityOf(r, b) - i
    {
      assert DemandOf(r, b, r.nds[l[i]].spec) + i <= CapacityOf(r, b);
    }
    RoomBoundsCover(r, b);
    SubsetCardinality(DisruptedWatched(r, b), Watch(w.topology, b));
  }

  /**
    The documented bound on nodes holds when every granted disruption covers at most one watched node: then at most
    max(0, MaxDisruptedNodes) watched nodes are disrupted, and if any is, at least MinUndisruptedNodes are not.
   */
  lemma {:induction false} NodeBudgetUnitBound(w: World, steps: seq<Step>, b: Budget)
    requires Initial(w) && Fixed(w, b) && KeepsBudget(steps, b) && b.NDB? && |Watch(w.topology, b)| <= TWO53
    requires forall n | n in CheckedGrants(Run(w, steps), b) ::
               |Watch(w.topology, b) * Cover(w.topology, Run(w, steps).nds[n].spec)| <= 1
    ensures var r := Run(w, steps);
            && |DisruptedWatched(r, b)| <= Max(0, b.maxDisrupted)
            && (CheckedGrants(r, b) != {} ==> |Watch(w.topology, b) - DisruptedWatched(r, b)| >= b.minUndisrupted)
  {
    hide Run;
    RunSafe(w, steps, b);
    var r := Run(w, steps);
    var l := GrantedInOrder(r, b);
    OrderIsCheckedGrants(r, b);
    RoomBoundsCount(r, b);
    forall i | 0 <= i < |l| ensures DemandOf(r, b, r.nds[l[i]].spec) <= 1 {
      assert l[i] in CheckedGrants(r, b);
    }
    UnitCovers(r, b, l);
    var watched, disrupted := Watch(w.topology, b), DisruptedWatched(r, b);
    assert watched == disrupted + (watched - disrupted);
    if CheckedGrants(r, b) != {} {
      var n :| n in CheckedGrants(r, b);
      assert n in l;
    }
  }
}
