/**
  How far things can go: the most nodes a node budget lets be disrupted, types the overlap check lets through, and a
  second worker.
 */
module Extremes {
  import opened Types
  import opened Labels
  import opened Sorting
  import opened Resolver
  import opened Rounding
  import opened BudgetSpec
  import opened Protocol
  import opened Lifecycle
  import opened Safety
  import opened Bounds
  import opened Overlap
  import opened Tightness
  import opened Counted

  // ----- the documented bound on nodes -----

  function HostName(i: nat): string {
    seq(i + 1, _ => 'n')
  }

  function Host(i: nat): Node {
    Node(HostName(i), map["host" := HostName(i)])
  }

  function HostNames(lo: nat, hi: nat): (r: seq<string>)
    requires lo <= hi
    ensures |r| == hi - lo && forall i | 0 <= i < hi - lo :: r[i] == HostName(lo + i)
  {
    seq(hi - lo, i requires 0 <= i < hi - lo => HostName(lo + i))
  }

  ghost function HostSet(lo: nat, hi: nat): NodeSet {
    set i | lo <= i < hi :: HostName(i)
  }

  const EVERY_HOST := LabelSelector(map[], [Requirement("host", Exists, [])])

  function SomeHosts(lo: nat, hi: nat): LabelSelector
    requires lo < hi
  {
    LabelSelector(map[], [Requirement("host", In, HostNames(lo, hi))])
  }

  function Hosts(n: nat): Topology {
    Topology(seq(n, i requires 0 <= i < n => Host(i)), [], [], map[])
  }

  lemma {:induction false} HostSetSize(lo: nat, hi: nat)
    requires lo <= hi
    ensures |HostSet(lo, hi)| == hi - lo
    decreases hi - lo
  {
    if lo < hi {
      HostSetSize(lo, hi - 1);
      assert HostSet(lo, hi) == HostSet(lo, hi - 1) + {HostName(hi - 1)};
      assert HostName(hi - 1) !in HostSet(lo, hi - 1) by {
        forall i | lo <= i < hi - 1 ensures HostName(i) != HostName(hi - 1) {
          assert |HostName(i)| != |HostName(hi - 1)|;
        }
      }
    } else {
      assert HostSet(lo, hi) == {};
    }
  }

  lemma HostMatches(i: nat, lo: nat, hi: nat)
    requires lo < hi
    ensures Matches(EVERY_HOST, Host(i).labels)
    ensures Matches(SomeHosts(lo, hi), Host(i).labels) <==> lo <= i < hi
  {
    var r := SomeHosts(lo, hi).matchExpressions[0];
    if lo <= i < hi {
      assert HostNames(lo, hi)[i - lo] == HostName(i);
    } else {
      assert forall j | 0 <= j < hi - lo :: |HostNames(lo, hi)[j]| != |HostName(i)|;
    }
    assert Satisfies(Host(i).labels, r) <==> lo <= i < hi;
  }

  lemma HostsMatching(n: nat, sel: LabelSelector, lo: nat, hi: nat)
    requires hi <= n && forall i | 0 <= i < n :: Matches(sel, Host(i).labels) <==> lo <= i < hi
    ensures NodesMatching(Hosts(n), sel) == HostSet(lo, hi)
  {
    hide Matches;
    var nodes := Hosts(n).nodes;
    forall x | x in HostSet(lo, hi) ensures x in NodesMatching(Hosts(n), sel) {
      var i :| lo <= i < hi && x == HostName(i);
      assert nodes[i] == Host(i);
      assert Host(i) in nodes && Matches(sel, Host(i).labels);
    }
    forall x | x in NodesMatching(Hosts(n), sel) ensures x in HostSet(lo, hi) {
      var h :| h in nodes && Matches(sel, h.labels) && x == h.name;
      var i :| 0 <= i < n && nodes[i] == h;
      assert h == Host(i);
    }
  }

  lemma HostsSelected(n: nat, lo: nat, hi: nat)
    requires lo < hi <= n
    ensures NodesForNodeSelector(TopologyView(Hosts(n)), EVERY_HOST) == Ok(HostSet(0, n))
    ensures NodesForNodeSelector(TopologyView(Hosts(n)), SomeHosts(lo, hi)) == Ok(HostSet(lo, hi))
  {
    forall i | 0 <= i < n
      ensures Matches(EVERY_HOST, Host(i).labels) && (Matches(SomeHosts(lo, hi), Host(i).labels) <==> lo <= i < hi)
    {
      HostMatches(i, lo, hi);
    }
    HostsMatching(n, EVERY_HOST, 0, n);
    HostsMatching(n, SomeHosts(lo, hi), lo, hi);
    assert |EVERY_HOST.matchExpressions| == 1 && |SomeHosts(lo, hi).matchExpressions| == 1;
  }

  /** How many of n hosts i disruptions cover together, when each takes as many new ones as it finds room for. */
  function Reach(n: nat, capacity: nat, i: nat): (r: nat)
    requires i <= capacity
    ensures r <= n
  {
    if i == 0 then 0 else MinReal(n, Reach(n, capacity, i - 1) + capacity - (i - 1))
  }

  lemma {:induction false} ReachIs(n: nat, capacity: nat, i: nat)
    requires i <= capacity
    ensures Reach(n, capacity, i) == MinReal(n, Triangle(capacity) - Triangle(capacity - i))
  {
    if i > 0 {
      ReachIs(n, capacity, i - 1);
    }
  }

  function Low(n: nat, capacity: nat, i: nat): (lo: nat)
    requires 1 <= n && i < capacity
    ensures lo < Reach(n, capacity, i + 1) <= n && Reach(n, capacity, i + 1) - lo <= capacity - i
            && lo <= Reach(n, capacity, i)
  {
    if Reach(n, capacity, i) < n then Reach(n, capacity, i) else n - 1
  }

  function HostSpec(n: nat, capacity: nat, i: nat): NDSpec
    requires 1 <= n && i < capacity
  {
    NDSpec(SomeHosts(Low(n, capacity, i), Reach(n, capacity, i + 1)), ZeroTime, RetrySpec(false, ZeroTime), "")
  }

  function HostSpecs(n: nat, capacity: nat): (r: seq<NDSpec>)
    requires 1 <= n
    ensures |r| == capacity && forall i | 0 <= i < capacity :: r[i] == HostSpec(n, capacity, i)
  {
    seq(capacity, i requires 0 <= i < capacity => HostSpec(n, capacity, i))
  }

  function HostBudget(maxDisrupted: int, minUndisrupted: int): Budget {
    NDB("hosts", maxDisrupted, minUndisrupted, EVERY_HOST, [""], BudgetStatus([], 0, 0, []))
  }

  const PERMISSIVE := Config(false, 0, false, [])

  ghost function HostWorld(n: nat, b: Budget): World {
    World(Hosts(n), PERMISSIVE, map[b.GetNamespacedName() := b], map[], 0, 0, Idle, 0, [], [])
  }

  lemma HostSpecFits(n: nat, capacity: nat, i: nat, b: Budget)
    requires 1 <= n && i < capacity && b.NDB? && b == HostBudget(b.maxDisrupted, b.minUndisrupted)
    ensures var w, spec := HostWorld(n, b), HostSpec(n, capacity, i);
            && Cover(w.topology, spec) == HostSet(Low(n, capacity, i), Reach(n, capacity, i + 1))
            && Watch(w.topology, b) == HostSet(0, n)
            && Plain(w.topology, spec) && Relevant(w.topology, b, spec)
            && DemandOf(w, b, spec) + i <= capacity
  {
    var lo, hi := Low(n, capacity, i), Reach(n, capacity, i + 1);
    HostsSelected(n, lo, hi);
    HostSetSize(lo, hi);
    assert HostSet(0, n) * HostSet(lo, hi) == HostSet(lo, hi);
    assert HostName(lo) in HostSet(lo, hi);
  }

  lemma {:induction false} HostReached(n: nat, capacity: nat, m: nat, j: nat) returns (i: nat)
    requires 1 <= n && m <= capacity && j < Reach(n, capacity, m)
    ensures i < m && Low(n, capacity, i) <= j < Reach(n, capacity, i + 1)
    decreases m
  {
    if j < Reach(n, capacity, m - 1) {
      i := HostReached(n, capacity, m - 1, j);
    } else {
      i := m - 1;
    }
  }

  /** After granting them all, the hosts they reach are disrupted. */
  lemma ReachedDisrupted(n: nat, capacity: nat, b: Budget, r: World)
    requires 1 <= n && b.NDB? && b == HostBudget(b.maxDisrupted, b.minUndisrupted)
    requires Inv(r) && r.topology == Hosts(n) && GrantedAll(r, HostSpecs(n, capacity))
    ensures HostSet(0, Reach(n, capacity, capacity)) <= DisruptedWatched(r, b)
    ensures |CheckedGrants(r, b)| == capacity
  {
    hide Relevant, Inv, CheckedGrants, DisruptedWatched, Plain, Cover, Watch, Demand, GrantedInOrder;
    OrderIsCheckedGrants(r, b);
    forall i | 0 <= i < capacity ensures Relevant(r.topology, b, HostSpec(n, capacity, i)) {
      HostSpecFits(n, capacity, i, b);
    }
    GrantedAllAre(r, b, HostSpecs(n, capacity));
    forall j | 0 <= j < Reach(n, capacity, capacity) ensures HostName(j) in DisruptedWatched(r, b) {
      HostDisrupted(n, capacity, b, r, j);
    }
  }

  lemma HostDisrupted(n: nat, capacity: nat, b: Budget, r: World, j: nat)
    requires 1 <= n && b.NDB? && b == HostBudget(b.maxDisrupted, b.minUndisrupted)
    requires Inv(r) && r.topology == Hosts(n) && GrantedAll(r, HostSpecs(n, capacity))
    requires j < Reach(n, capacity, capacity)
    ensures HostName(j) in DisruptedWatched(r, b)
  {
    hide Relevant, Inv, DisruptedWatched, Plain, Cover, Watch, Demand, GrantedInOrder;
    OrderIsCheckedGrants(r, b);
    var i := HostReached(n, capacity, capacity, j);
    HostSpecFits(n, capacity, i, b);
    assert Name(i) in r.nds.Keys;
    assert Name(i) in CheckedGrants(r, b) && HostName(j) in Cover(r.topology, r.nds[Name(i)].spec);
  }

  /** A run that disrupts as many watched nodes as the triangular bound and the number of nodes allow. */
  lemma {:induction false} WidestRun(n: nat, maxDisrupted: int, minUndisrupted: int) returns (w: World,
      steps: seq<Step>, b: Budget)
    requires 1 <= n <= TWO53 && 1 <= MinReal(maxDisrupted, n - minUndisrupted)
    ensures Initial(w) && Fixed(w, b) && KeepsBudget(steps, b)
    ensures b.NDB? && b.maxDisrupted == maxDisrupted && b.minUndisrupted == minUndisrupted
            && |Watch(w.topology, b)| == n
    ensures var capacity := MinReal(maxDisrupted, n - minUndisrupted);
            && |CheckedGrants(Run(w, steps), b)| == capacity
            && |DisruptedWatched(Run(w, steps), b)| == MinReal(n, Triangle(capacity))
  {
    hide Run, Relevant, Inv, GrantedAll, CheckedGrants, DisruptedWatched, Plain, Cover, Demand;
    var capacity := MinReal(maxDisrupted, n - minUndisrupted);
    b := HostBudget(maxDisrupted, minUndisrupted);
    w := HostWorld(n, b);
    InitialInv(w);
    forall i | 0 <= i < capacity
      ensures Plain(w.topology, HostSpec(n, capacity, i)) && DemandOf(w, b, HostSpec(n, capacity, i)) + i <= capacity
    {
      HostSpecFits(n, capacity, i, b);
    }
    HostSpecFits(n, capacity, 0, b);
    HostSetSize(0, n);
    steps := GrantAll(w, b, HostSpecs(n, capacity));
    var r := Run(w, steps);
    ReachedDisrupted(n, capacity, b, r);
    ReachIs(n, capacity, capacity);
    HostSetSize(0, Reach(n, capacity, capacity));
    SubsetCardinality(HostSet(0, Reach(n, capacity, capacity)), DisruptedWatched(r, b));
    NodeBudgetBound(w, steps, b);
  }

  /** Some run of some cluster ends with more than `limit` disrupted nodes among the n that such a budget watches. */
  ghost predicate Exceedable(n: nat, maxDisrupted: int, minUndisrupted: int, limit: int) {
    exists w, steps, b ::
      && Initial(w) && Fixed(w, b) && KeepsBudget(steps, b)
      && b.NDB? && b.maxDisrupted == maxDisrupted && b.minUndisrupted == minUndisrupted && |Watch(w.topology, b)| == n
      && |DisruptedWatched(Run(w, steps), b)| > limit
  }

  /**
    How many of the n nodes it watches can be disrupted under a node budget: 1 + 2 + ... + capacity of them, or all.
   */
  lemma {:induction false} MostDisruptedExactly(n: nat, maxDisrupted: int, minUndisrupted: int, limit: nat)
    requires n <= TWO53
    ensures Exceedable(n, maxDisrupted, minUndisrupted, limit)
        <==> MinReal(n, Triangle(Max(0, MinReal(maxDisrupted, n - minUndisrupted)))) > limit
  {
    hide Run, Initial, Fixed, KeepsBudget, Watch, DisruptedWatched;
    if w, steps, b :|
      && Initial(w) && Fixed(w, b) && KeepsBudget(steps, b)
      && b.NDB? && b.maxDisrupted == maxDisrupted && b.minUndisrupted == minUndisrupted && |Watch(w.topology, b)| == n
      && |DisruptedWatched(Run(w, steps), b)| > limit
    {
      NodeBudgetBound(w, steps, b);
    }
    if MinReal(n, Triangle(Max(0, MinReal(maxDisrupted, n - minUndisrupted)))) > limit {
      var w, steps, b := WidestRun(n, maxDisrupted, minUndisrupted);
      assert |DisruptedWatched(Run(w, steps), b)| > limit;
    }
  }

  /**
    The documented bounds fail for exactly these node budgets: more than MaxDisruptedNodes nodes can be disrupted at
    once, or fewer than MinUndisruptedNodes left alone, if and only if the capacity is at least two and that limit is
    below both the number of watched nodes and 1 + 2 + ... + capacity.
   */
  lemma {:induction false} DocumentedBoundsFailExactly(n: nat, maxDisrupted: int, minUndisrupted: int)
    requires n <= TWO53
    ensures var capacity := MinReal(maxDisrupted, n - minUndisrupted);
            && (Exceedable(n, maxDisrupted, minUndisrupted, Max(0, maxDisrupted))
                <==> capacity >= 2 && maxDisrupted < n && maxDisrupted < Triangle(capacity))
            && (n >= minUndisrupted ==>
                  (Exceedable(n, maxDisrupted, minUndisrupted, n - minUndisrupted)
                   <==> capacity >= 2 && minUndisrupted > 0 && n - minUndisrupted < Triangle(capacity)))
  {
    hide Exceedable;
    MostDisruptedExactly(n, maxDisrupted, minUndisrupted, Max(0, maxDisrupted));
    if n >= minUndisrupted {
      MostDisruptedExactly(n, maxDisrupted, minUndisrupted, n - minUndisrupted);
    }
    assert Triangle(1) == 1;
  }

  // ----- one worker is needed -----

  function FirstHost(): NDSpec {
    NDSpec(SomeHosts(0, 1), ZeroTime, RetrySpec(false, ZeroTime), "")
  }

  lemma FirstHostFits(m: nat, w: World)
    requires 1 <= m && w.topology == Hosts(m)
    ensures var b := HostBudget(m, 0);
            && Plain(w.topology, FirstHost()) && Relevant(w.topology, b, FirstHost())
            && DemandOf(w, b, FirstHost()) == 1
            && WatchedNodes(TopologyView(w.topology), b).Ok? && |Watch(w.topology, b)| == m && CapacityOf(w, b) == m
  {
    HostsSelected(m, 0, 1);
    HostSetSize(0, 1);
    HostSetSize(0, m);
    assert HostSet(0, m) * HostSet(0, 1) == HostSet(0, 1);
    assert HostName(0) in HostSet(0, 1);
  }

  /** One less granted than the budget allows, and k more disruptions waiting, all of the first host. */
  ghost predicate AlmostFull(w: World, m: nat, k: nat)
    requires 1 <= m
  {
    && Alone(w, HostBudget(m, 0)) && w.topology == Hosts(m) && w.cfg == PERMISSIVE && |w.order| == m - 1
    && w.nds.Keys == (set i | 0 <= i < m - 1 + k :: Name(i))
    && (forall i | 0 <= i < m - 1 :: w.nds[Name(i)].spec == FirstHost() && w.nds[Name(i)].status.state == Granted)
    && (forall i | m - 1 <= i < m - 1 + k :: Waiting(w, Name(i), FirstHost()))
  }

  lemma WaitingSame(w: World, r: World, name: string, spec: NDSpec)
    requires Waiting(w, name, spec) && name in r.nds && r.nds[name] == w.nds[name]
    ensures Waiting(r, name, spec)
  {
  }

  lemma WaitOneMore(w: World, m: nat, k: nat)
    requires 1 <= m && AlmostFull(w, m, k)
    ensures AlmostFull(Run(w, PendSteps(HostBudget(m, 0), Name(m - 1 + k), FirstHost())), m, k + 1)
  {
    hide Run, Inv, Plain, WatchedNodes, Selects, PendSteps, OnlyBudget, Waiting, Relevant, Demand, Capacity, Name,
         Hosts;
    var b, n := HostBudget(m, 0), m - 1 + k;
    FirstHostFits(m, w);
    PlainSelects(w.topology, FirstHost());
    NamesDistinct(n);
    Pend(w, b, Name(n), FirstHost());
    var r := Run(w, PendSteps(b, Name(n), FirstHost()));
    RunSettings(w, PendSteps(b, Name(n), FirstHost()));
    assert r.nds.Keys == (set i | 0 <= i < n + 1 :: Name(i));
    forall i | 0 <= i < n
      ensures Name(i) in r.nds && r.nds[Name(i)] == w.nds[Name(i)] && (i >= m - 1 ==> Waiting(r, Name(i), FirstHost()))
    {
      assert Name(i) in w.nds.Keys;
      if i >= m - 1 {
        WaitingSame(w, r, Name(i), FirstHost());
      }
    }
  }

  lemma PlainSelects(t: Topology, spec: NDSpec)
    requires Plain(t, spec)
    ensures Selects(t, spec)
  {
  }

  lemma NothingWaiting(w: World, m: nat)
    requires 1 <= m && Alone(w, HostBudget(m, 0)) && w.topology == Hosts(m) && w.cfg == PERMISSIVE
             && GrantedAll(w, seq(m - 1, i => FirstHost()))
    ensures AlmostFull(w, m, 0)
  {
    hide Alone, Hosts, FirstHost;
  }

  lemma ReachAlmostFull(m: nat) returns (w: World, steps: seq<Step>)
    requires 1 <= m <= TWO53
    ensures w == HostWorld(m, HostBudget(m, 0)) && Initial(w) && AlmostFull(Run(w, steps), m, 2)
    ensures forall s | s in steps :: !s.SetBudgets?
  {
    hide Run, Relevant, Inv, Plain, Demand, Capacity, Watch, WatchedNodes, Selects, AlmostFull;
    var b := HostBudget(m, 0);
    w := HostWorld(m, b);
    FirstHostFits(m, w);
    InitialInv(w);
    var granted := GrantAll(w, b, seq(m - 1, i => FirstHost()));
    var w1 := Run(w, granted);
    NothingWaiting(w1, m);
    var first, second := PendSteps(b, Name(m - 1), FirstHost()), PendSteps(b, Name(m), FirstHost());
    WaitOneMore(w1, m, 0);
    WaitOneMore(Run(w1, first), m, 1);
    steps := granted + first + second;
    RunConcat(w, granted, first);
    RunConcat(w, granted + first, second);
  }

  /** A waiting disruption is decided to be granted while there is room. */
  lemma DecideFirstHost(w: World, m: nat, i: nat)
    requires 1 <= m <= TWO53 && AlmostFull(w, m, 2) && (i == m - 1 || i == m)
    ensures var r := Run(w, DecideSteps(w, HostBudget(m, 0), Name(i), Names(m + 1)));
            && Inv(r) && r == w.(worker := r.worker, attempts := r.attempts, log := r.log)
            && r.worker.Committing? && r.worker.read == w.nds[Name(i)] && r.worker.status.state == Granted
  {
    hide Run, Relevant, Inv, Plain, Demand, Capacity, Watch, WatchedNodes, Selects, Waiting, DecideSteps;
    var b := HostBudget(m, 0);
    FirstHostFits(m, w);
    OrderCountsGranted(w, b);
    NamesDistinct(m + 1);
    assert Passes(w, Name(i), FirstHost());
    Attempt(w, b, Name(i), Names(m + 1), FirstHost());
    RunKeeps(w, DecideSteps(w, b, Name(i), Names(m + 1)));
  }

  lemma AllGrantedCount(w: World, m: nat)
    requires 1 <= m && w.topology == Hosts(m) && w.nds.Keys == (set i | 0 <= i < m + 1 :: Name(i))
    requires forall n | n in w.nds :: w.nds[n].spec == FirstHost() && w.nds[n].status.state == Granted
    ensures |CheckedGrants(w, HostBudget(m, 0))| > m
  {
    hide Relevant;
    FirstHostFits(m, w);
    assert CheckedGrants(w, HostBudget(m, 0)) == w.nds.Keys;
    NamesDistinct(m + 1);
    ListingMembers(Names(m + 1), w.nds.Keys);
    DistinctCount(Names(m + 1), w.nds.Keys);
  }

  /** Two decisions on different objects, both written, whatever was counted for the second. */
  lemma BothLand(w: World, m: nat, one: Worker)
    requires 1 <= m && w.topology == Hosts(m) && w.nds.Keys == (set i | 0 <= i < m + 1 :: Name(i))
    requires forall n | n in w.nds :: w.nds[n].name == n && w.nds[n].spec == FirstHost()
    requires forall i | 0 <= i < m - 1 :: w.nds[Name(i)].status.state == Granted
    requires w.worker.Committing? && w.worker.read == w.nds[Name(m)] && w.worker.status.state == Granted
    requires one.Committing? && one.read == w.nds[Name(m - 1)] && one.status.state == Granted
    requires w.nds[Name(m)].status.state == Pending && w.nds[Name(m - 1)].status.state == Pending
    ensures ApplyCommit(w).worker.Idle?
    ensures |CheckedGrants(ApplyCommit(ApplyCommit(w).(worker := one)), HostBudget(m, 0))| > m
  {
    hide ApplyCommit, Name, CheckedGrants, Hosts, FirstHost;
    CommitLands(w, Name(m));
    var other := ApplyCommit(w);
    NamesDistinct(m);
    CommitLands(other.(worker := one), Name(m - 1));
    var r := ApplyCommit(other.(worker := one));
    forall n | n in r.nds ensures r.nds[n].spec == FirstHost() && r.nds[n].status.state == Granted {
      assert n in w.nds.Keys;
    }
    assert r.nds.Keys == w.nds.Keys;
    AllGrantedCount(r, m);
  }

  lemma NamedByKey(w: World)
    requires Inv(w)
    ensures forall n | n in w.nds :: w.nds[n].name == n
  {
  }

  /**
    With two workers the bounds fail, for every capacity: one decides to grant, the other then decides and writes, and
    the write of the first, whose own object has not moved, still lands.
   */
  lemma {:induction false} TwoWorkersExceed(m: nat) returns (w: World, first: seq<Step>, second: seq<Step>, b: Budget)
    requires 1 <= m <= TWO53
    ensures Initial(w) && Fixed(w, b) && KeepsBudget(first + second, b) && b.NDB? && CapacityOf(w, b) == m
    ensures var one := Run(w, first);
            var other := Run(one.(worker := Idle), second);
            && one.worker.Committing? && other.worker.Idle?
            && |CheckedGrants(ApplyCommit(other.(worker := one.worker)), b)| > CapacityOf(w, b)
  {
    hide Run, Relevant, Inv, Plain, Demand, Capacity, Watch, WatchedNodes, Selects, ApplyCommit, Apply, CheckedGrants,
         Hosts, Name, FirstHost, Budget.SameSpec;
    b := HostBudget(m, 0);
    SameSelf(b);
    var waiting;
    w, waiting := ReachAlmostFull(m);
    FirstHostFits(m, w);
    var w1 := Run(w, waiting);
    DecideFirstHost(w1, m, m - 1);
    var decide1 := DecideSteps(w1, b, Name(m - 1), Names(m + 1));
    first := waiting + decide1;
    RunConcat(w, waiting, decide1);
    var one := Run(w, first);
    var idle := one.(worker := Idle);
    IdleAgain(one);
    AlmostFullElsewhere(w1, idle, m);
    DecideFirstHost(idle, m, m);
    var decide2 := DecideSteps(idle, b, Name(m), Names(m + 1));
    second := decide2 + [Commit];
    RunMore(idle, decide2, Commit);
    CommitIs(Run(idle, decide2));
    WaitingFacts(idle, m);
    BothLand(Run(idle, decide2), m, one.worker);
  }

  lemma AlmostFullElsewhere(w: World, w': World, m: nat)
    requires 1 <= m && AlmostFull(w, m, 2) && Inv(w') && w' == w.(attempts := w'.attempts, log := w'.log)
    ensures AlmostFull(w', m, 2)
  {
    hide Inv, WatchedNodes, Hosts, FirstHost;
  }

  lemma WaitingFacts(w: World, m: nat)
    requires 1 <= m && AlmostFull(w, m, 2)
    ensures forall n | n in w.nds :: w.nds[n].name == n && w.nds[n].spec == FirstHost()
    ensures Name(m) in w.nds && w.nds[Name(m)].status.state == Pending
    ensures Name(m - 1) in w.nds && w.nds[Name(m - 1)].status.state == Pending
  {
    hide Inv, WatchedNodes, Hosts, FirstHost;
    NamedByKey(w);
    forall n | n in w.nds ensures w.nds[n].spec == FirstHost() {
      assert n in w.nds.Keys;
    }
  }

  // ----- types the overlap check lets through -----

  /** A disruption of host i of a type that is not configured. */
  function OtherType(i: nat): NDSpec {
    NDSpec(SomeHosts(i, i + 1), ZeroTime, RetrySpec(false, ZeroTime), "other")
  }

  function OtherTypes(m: nat): (r: seq<NDSpec>)
    ensures |r| == m && forall i | 0 <= i < m :: r[i] == OtherType(i)
  {
    seq(m, i requires 0 <= i < m => OtherType(i))
  }

  const DRAIN := HostBudget(0, 0).(types := ["drain"])
  const STRICT := Config(false, 0, true, ["drain"])

  ghost function StrictWorld(m: nat): World {
    HostWorld(m, DRAIN).(cfg := STRICT)
  }

  lemma OtherTypeFits(m: nat, i: nat, j: nat)
    requires i < m && j < m
    ensures var t := Hosts(m);
            && Plain(t, OtherType(i)) && !Supports(DRAIN, "other") && Watch(t, DRAIN) == HostSet(0, m)
            && Watch(t, DRAIN) * Cover(t, OtherType(i)) != {} && WatchedNodes(TopologyView(t), DRAIN).Ok?
            && (i != j ==> Cover(t, OtherType(i)) * Cover(t, OtherType(j)) == {})
  {
    HostsSelected(m, i, i + 1);
    HostsSelected(m, j, j + 1);
    assert HostName(i) in HostSet(0, m) * HostSet(i, i + 1);
    assert Watch(Hosts(m), DRAIN) == HostSet(0, m);
    assert Cover(Hosts(m), OtherType(i)) == HostSet(i, i + 1) && Cover(Hosts(m), OtherType(j)) == HostSet(j, j + 1);
    if i != j {
      assert |HostName(i)| != |HostName(j)|;
    }
  }

  lemma OtherTypesPass(m: nat)
    requires 1 <= m
    ensures AllPass(StrictWorld(m), OtherTypes(m))
    ensures forall i | 0 <= i < m ::
              Plain(Hosts(m), OtherType(i)) && Watch(Hosts(m), DRAIN) * Cover(Hosts(m), OtherType(i)) != {}
  {
    hide Plain, Cover, Watch;
    var specs := OtherTypes(m);
    forall i, j | 0 <= i < j < m ensures Cover(Hosts(m), specs[i]) * Cover(Hosts(m), specs[j]) == {} {
      OtherTypeFits(m, i, j);
    }
    forall i | 0 <= i < m
      ensures Plain(Hosts(m), OtherType(i)) && Watch(Hosts(m), DRAIN) * Cover(Hosts(m), OtherType(i)) != {}
    {
      OtherTypeFits(m, i, i);
    }
  }

  /**
    With the overlap check, configured types do not help: it returns before the type check, so under a budget of
    capacity 0 that supports every configured type, as many disruptions of another type are granted and counted as
    there are hosts.
   */
  lemma OverlapSkipsTypes(m: nat) returns (w: World, steps: seq<Step>, b: Budget)
    requires 1 <= m <= TWO53
    ensures Initial(w) && Fixed(w, b) && KeepsBudget(steps, b) && b.NDB? && CapacityOf(w, b) == 0
    ensures w.cfg.rejectOverlapping && w.cfg.types != [] && forall t | t in w.cfg.types :: Supports(b, t)
    ensures |GrantedNow(Run(w, steps), b)| == m
  {
    hide Run, Inv, Watch, WatchedNodes, Selects, Plain, AllPass, Cover, Budget.SameSpec;
    b, w := DRAIN, StrictWorld(m);
    SameSelf(b);
    InitialInv(w);
    OtherTypeFits(m, 0, 0);
    HostSetSize(0, m);
    OtherTypesPass(m);
    steps := GrantAll(w, b, OtherTypes(m));
    CountedAll(Run(w, steps), b, OtherTypes(m));
  }
}
