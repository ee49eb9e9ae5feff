/** How much can be granted at once under one budget, in every reachable world. */
module Safety {
  import opened Types
  import opened Sorting
  import opened Resolver
  import opened Rounding
  import opened BudgetSpec
  import opened Admission
  import opened Protocol
  import opened Lifecycle

  /** The budget checks this disruption: it supports the type and watches a covered node. */
  ghost predicate Relevant(t: Topology, b: Budget, spec: NDSpec) {
    Supports(b, spec.ndType) && Watch(t, b) * Cover(t, spec) != {}
  }

  /** Every granted disruption the budget counts, of whatever type. */
  ghost function GrantedNow(w: World, b: Budget): set<string> {
    set n | n in w.nds && w.nds[n].status.state == Granted
        && Watch(w.topology, b) * Cover(w.topology, w.nds[n].spec) != {}
  }

  ghost function RelevantAmong(w: World, b: Budget, l: seq<string>): seq<string> {
    if l == [] then []
    else
      var last := l[|l| - 1];
      RelevantAmong(w, b, l[..|l| - 1])
      + if last in w.nds && Relevant(w.topology, b, w.nds[last].spec) then [last] else []
  }

  /** The granted disruptions the budget checked, oldest grant first. */
  ghost function GrantedInOrder(w: World, b: Budget): seq<string> {
    RelevantAmong(w, b, w.order)
  }

  ghost function DemandOf(w: World, b: Budget, spec: NDSpec): nat {
    Demand(b, Watch(w.topology, b), Cover(w.topology, spec))
  }

  ghost function CapacityOf(w: World, b: Budget): int {
    Capacity(b, Watch(w.topology, b))
  }

  /** The i-th oldest granted disruption asks for at most the capacity less i. */
  ghost predicate OrderRoom(w: World, b: Budget) {
    forall i | 0 <= i < |GrantedInOrder(w, b)| ::
      && GrantedInOrder(w, b)[i] in w.nds
      && DemandOf(w, b, w.nds[GrantedInOrder(w, b)[i]].spec) + i <= CapacityOf(w, b)
  }

  /** The budget exists with this spec; its stored status is anybody's. */
  ghost predicate Fixed(w: World, b: Budget) {
    b.GetNamespacedName() in w.budgets && w.budgets[b.GetNamespacedName()].SameSpec(b)
  }

  /** A synced copy of the budget: in sync, with a count that may be too high by now but never too low. */
  ghost predicate Fresh(w: World, b: Budget, s: Budget) {
    s.SameSpec(b) && InSync(s, Watch(w.topology, b)) && |GrantedNow(w, b)| <= s.status.current
  }

  ghost predicate WorkerRoom(w: World, b: Budget) {
    match w.worker
    case Syncing(_, _, _, _, listed, synced) =>
      exists i :: 0 <= i < |listed| && listed[i].SameSpec(b) && (i < |synced| ==> Fresh(w, b, synced[i]))
    case Committing(read, _, status, _) =>
      read.status.state == Pending && status.state == Granted && Relevant(w.topology, b, read.spec) ==>
        DemandOf(w, b, read.spec) + |GrantedNow(w, b)| <= CapacityOf(w, b)
    case _ => true
  }

  ghost predicate Safe(w: World, b: Budget) {
    Fixed(w, b) && OrderRoom(w, b) && WorkerRoom(w, b)
  }

  /** The run never changes this budget's spec nor removes it; the other budgets are free. */
  ghost predicate KeepsBudget(steps: seq<Step>, b: Budget) {
    forall s | s in steps && s.SetBudgets? :: StepKeepsBudget(s, b)
  }

  ghost predicate StepKeepsBudget(s: Step, b: Budget) {
    s.SetBudgets? ==> b.GetNamespacedName() in s.budgets && s.budgets[b.GetNamespacedName()].SameSpec(b)
  }

  // ----- lists of names -----

  lemma {:induction false} RelevantMembers(w: World, b: Budget, l: seq<string>)
    ensures forall n :: n in RelevantAmong(w, b, l) <==> n in l && n in w.nds && Relevant(w.topology, b, w.nds[n].spec)
    ensures NoDuplicates(l) ==> NoDuplicates(RelevantAmong(w, b, l))
  {
    if l != [] {
      var init, last := l[..|l| - 1], l[|l| - 1];
      assert l == init + [last];
      RelevantMembers(w, b, init);
      if NoDuplicates(l) {
        assert last !in init;
      }
    }
  }

  lemma {:induction false} RelevantSame(w: World, w': World, b: Budget, l: seq<string>)
    requires w'.topology == w.topology
    requires forall n | n in l :: n in w.nds && n in w'.nds && w'.nds[n].spec == w.nds[n].spec
    ensures RelevantAmong(w', b, l) == RelevantAmong(w, b, l)
  {
    if l != [] {
      assert l == l[..|l| - 1] + [l[|l| - 1]];
      RelevantSame(w, w', b, l[..|l| - 1]);
    }
  }

  lemma WithoutAppend(l: seq<string>, y: string, x: string)
    ensures Without(l + [y], x) == Without(l, x) + if y == x then [] else [y]
  {
    assert (l + [y])[..|l|] == l;
  }

  lemma RelevantAppend(w: World, b: Budget, l: seq<string>, y: string)
    ensures RelevantAmong(w, b, l + [y])
         == RelevantAmong(w, b, l) + if y in w.nds && Relevant(w.topology, b, w.nds[y].spec) then [y] else []
  {
    assert (l + [y])[..|l|] == l;
  }

  lemma {:induction false} RelevantWithout(w: World, b: Budget, l: seq<string>, x: string)
    ensures RelevantAmong(w, b, Without(l, x)) == Without(RelevantAmong(w, b, l), x)
  {
    if l != [] {
      var init, last := l[..|l| - 1], l[|l| - 1];
      RelevantWithout(w, b, init, x);
      var r := RelevantAmong(w, b, init);
      if last in w.nds && Relevant(w.topology, b, w.nds[last].spec) {
        assert RelevantAmong(w, b, l) == r + [last];
        WithoutAppend(r, last, x);
      } else {
        assert RelevantAmong(w, b, l) == r;
      }
      if last == x {
        assert Without(l, x) == Without(init, x);
      } else {
        assert Without(l, x) == Without(init, x) + [last];
        RelevantAppend(w, b, Without(init, x), last);
      }
    }
  }

  /** Removing a name moves the later ones forward. */
  lemma {:induction false} WithoutShift(l: seq<string>, x: string, i: nat) returns (j: nat)
    requires i < |Without(l, x)|
    ensures i <= j < |l| && l[j] == Without(l, x)[i]
  {
    var init := l[..|l| - 1];
    if i < |Without(init, x)| {
      j := WithoutShift(init, x, i);
    } else {
      j := |l| - 1;
      WithoutLength(init, x);
    }
  }

  lemma {:induction false} WithoutLength(l: seq<string>, x: string)
    ensures |Without(l, x)| <= |l|
  {
    if l != [] {
      WithoutLength(l[..|l| - 1], x);
    }
  }

  lemma {:induction false} DistinctCount(l: seq<string>, s: set<string>)
    requires NoDuplicates(l) && forall n | n in l :: n in s
    ensures |l| <= |s|
    decreases |l|
  {
    if l != [] {
      var init, last := l[..|l| - 1], l[|l| - 1];
      assert l == init + [last];
      assert last !in init && last in s;
      DistinctCount(init, s - {last});
    }
  }

  // ----- what steps do to the granted -----

  /** Nothing new is granted. */
  ghost predicate Shrinks(w: World, w': World) {
    && w'.topology == w.topology
    && (w'.order == w.order || exists x :: w'.order == Without(w.order, x))
    && forall n | n in w'.nds && w'.nds[n].status.state == Granted ::
         n in w.nds && w.nds[n].status.state == Granted && w'.nds[n].spec == w.nds[n].spec
  }

  ghost predicate Grants(w: World, s: Step) {
    && s.Commit? && w.worker.Committing? && Unmoved(w, w.worker.read)
    && w.worker.read.status.state == Pending && w.worker.status.state == Granted
  }

  lemma GoneShrinks(w: World, name: string)
    ensures Gone(w, name).order == Without(w.order, name) && Shrinks(w, Gone(w, name))
  {
  }

  lemma PutShrinks(w: World, nd: NodeDisruption)
    requires nd.status.state == Granted ==>
               nd.name in w.nds && w.nds[nd.name].status.state == Granted && nd.spec == w.nds[nd.name].spec
    ensures Shrinks(w, Put(w, nd))
  {
  }

  lemma CommitShrinks(w: World)
    requires Inv(w) && !Grants(w, Commit)
    ensures Shrinks(w, ApplyCommit(w))
  {
    hide UidInv, LogInv, OrderInv, FinalizerInv, NodesRecorded;
    if w.worker.Committing? && Unmoved(w, w.worker.read) {
      assert w.nds[w.worker.read.name] == w.worker.read;
    }
  }

  lemma RemovalShrinks(w: World)
    requires StoreInv(w)
    ensures Shrinks(w, ApplyRemoveFinalizer(w))
  {
  }

  lemma SameShrinks(w: World, w': World)
    requires w'.topology == w.topology && w'.nds == w.nds && w'.order == w.order
    ensures Shrinks(w, w')
  {
  }

  lemma OtherStepsShrink(w: World, s: Step)
    requires Inv(w) && !Grants(w, s)
    ensures Shrinks(w, Apply(w, s))
  {
    hide ApplyStart, ApplySyncNext, ApplyDecide, ApplyCommit, ApplyTerminatePass, UidInv, WorkerInv, LogInv, OrderInv,
         FinalizerInv, Shrinks, ApplyRemoveFinalizer;
    SameShrinks(w, w);
    match s
    case Create(name, spec, foreign) =>
      PutShrinks(w, NodeDisruption(name, w.rev, w.rev, false, foreign, false, spec, EMPTY_STATUS));
    case MarkDeleted(name) =>
      if name in w.nds {
        GoneShrinks(w, name);
        PutShrinks(w, w.nds[name].(deleting := true));
      }
    case EditForeign(name, present) =>
      if name in w.nds {
        GoneShrinks(w, name);
        PutShrinks(w, w.nds[name].(foreign := present));
      }
    case AddFinalizer(name) =>
      if name in w.nds {
        PutShrinks(w, w.nds[name].(finalizer := true));
      }
    case Commit => CommitShrinks(w);
    case RemoveFinalizer => RemovalShrinks(w);
    case _ =>
      SettingsFixed(w, s);
      OthersLeaveStore(w, s);
      SameShrinks(w, Apply(w, s));
  }

  lemma ShrinkingCount(w: World, w': World, b: Budget)
    requires Shrinks(w, w')
    ensures GrantedNow(w', b) <= GrantedNow(w, b) && |GrantedNow(w', b)| <= |GrantedNow(w, b)|
  {
    SubsetCardinality(GrantedNow(w', b), GrantedNow(w, b));
  }

  lemma ShrinkingOrder(w: World, w': World, b: Budget)
    requires Inv(w) && Inv(w') && Shrinks(w, w') && OrderRoom(w, b)
    ensures OrderRoom(w', b)
  {
    hide Inv, Relevant, Watch, Cover, Demand, Capacity;
    var l, l' := GrantedInOrder(w, b), GrantedInOrder(w', b);
    OrderShrinks(w, w', b);
    forall i | 0 <= i < |l'|
      ensures l'[i] in w'.nds && DemandOf(w', b, w'.nds[l'[i]].spec) + i <= CapacityOf(w', b)
    {
      assert l'[i] in l';
      if l' != l {
        var j :| i <= j < |l| && l[j] == l'[i];
      }
    }
  }

  /** Whoever is left has moved forward. */
  lemma OrderShrinks(w: World, w': World, b: Budget)
    requires Inv(w) && Inv(w') && Shrinks(w, w')
    ensures var l, l' := GrantedInOrder(w, b), GrantedInOrder(w', b);
            && (forall n | n in l' :: n in w'.nds && n in w.nds && w'.nds[n].spec == w.nds[n].spec)
            && (l' == l || MovedForward(l, l'))
  {
    hide StoreInv, UidInv, WorkerInv, LogInv, FinalizerInv, Relevant, MovedForward;
    RelevantSame(w, w', b, w'.order);
    RelevantMembers(w', b, w'.order);
    var l, l' := GrantedInOrder(w, b), GrantedInOrder(w', b);
    if w'.order != w.order {
      var x :| w'.order == Without(w.order, x);
      RelevantWithout(w, b, w.order, x);
      WithoutMoves(l, x);
    }
  }

  ghost predicate MovedForward(l: seq<string>, l': seq<string>) {
    forall i | 0 <= i < |l'| :: exists j :: i <= j < |l| && l[j] == l'[i]
  }

  lemma WithoutMoves(l: seq<string>, x: string)
    ensures MovedForward(l, Without(l, x))
  {
    forall i | 0 <= i < |Without(l, x)| ensures exists j :: i <= j < |l| && l[j] == Without(l, x)[i] {
      var j := WithoutShift(l, x, i);
    }
  }

  // ----- each step -----

  lemma WatchOfSameSpec(t: Topology, b: Budget, s: Budget)
    requires s.SameSpec(b)
    ensures Watch(t, s) == Watch(t, b) && s.types == b.types && s.GetNamespacedName() == b.GetNamespacedName()
    ensures forall watched, nodes :: Demand(s, watched, nodes) == Demand(b, watched, nodes)
    ensures forall watched :: Capacity(s, watched) == Capacity(b, watched)
  {
  }

  lemma ListedAll(w: World, names: seq<string>)
    requires Inv(w) && IsListing(names, w.nds.Keys)
    ensures DistinctNames(Listed(w, names))
    ensures forall nd :: nd in Listed(w, names) <==> nd.name in w.nds && nd == w.nds[nd.name]
  {
    ListingMembers(names, w.nds.Keys);
    var l := Listed(w, names);
    forall i, j | 0 <= i < j < |l| ensures l[i].name != l[j].name {
      assert names[i] in names && names[j] in names;
    }
    forall nd ensures nd in l <==> nd.name in w.nds && nd == w.nds[nd.name] {
      if nd in l {
        var i :| 0 <= i < |l| && l[i] == nd;
        assert names[i] in names;
      }
      if nd.name in w.nds && nd == w.nds[nd.name] {
        assert nd.name in names;
        var i :| 0 <= i < |names| && names[i] == nd.name;
        assert l[i] == nd;
      }
    }
  }

  /** A Sync of the budget counts exactly the granted disruptions of this moment. */
  lemma {:induction false} SyncCountsGranted(w: World, names: seq<string>, b: Budget)
    requires Inv(w) && IsListing(names, w.nds.Keys) && !SyncFails(View(w, names), b)
    ensures InSync(b.(status := SyncedStatus(View(w, names), b).value), Watch(w.topology, b))
    ensures SyncedStatus(View(w, names), b).value.current == |GrantedNow(w, b)|
  {
    var c := View(w, names);
    WatchNeedsTopologyOnly(c, b);
    SyncLeavesInSync(c, b);
    ListedAll(w, names);
    SyncCanonical(c, b);
    var watched := WatchedNodes(c, b).value;
    forall n ensures n in GrantedNames(c, watched, c.nds) <==> n in GrantedNow(w, b) {
      if n in w.nds {
        SelectionNeedsTopologyOnly(c, w.nds[n].spec.nodeSelector);
        assert w.nds[n] in c.nds;
      }
    }
    assert GrantedNames(c, watched, c.nds) == GrantedNow(w, b);
  }

  lemma StartSafe(w: World, name: string, refs: seq<Ref>, b: Budget)
    requires Inv(w) && Fixed(w, b) && WorkerRoom(w, b)
    ensures WorkerRoom(ApplyStart(w, name, refs), b)
  {
    if CanStart(w, name) && IsListing(refs, w.budgets.Keys) && w.nds[name].status.state == Pending {
      ListingMembers(refs, w.budgets.Keys);
      var i :| 0 <= i < |refs| && refs[i] == b.GetNamespacedName();
      assert Snapshot(w, refs)[i].SameSpec(b);
    }
  }

  lemma SyncNextSafe(w: World, names: seq<string>, b: Budget)
    requires Inv(w) && Fixed(w, b) && WorkerRoom(w, b)
    ensures WorkerRoom(ApplySyncNext(w, names), b)
  {
    var w' := ApplySyncNext(w, names);
    if w'.worker.Syncing? && w'.worker != w.worker {
      var k := |w.worker.synced|;
      var listed := w.worker.listed;
      var i :| 0 <= i < |listed| && listed[i].SameSpec(b) && (i < k ==> Fresh(w, b, w.worker.synced[i]));
      assert GrantedNow(w', b) == GrantedNow(w, b);
      if i == k {
        SyncCountsGranted(w, names, listed[k]);
        WatchOfSameSpec(w.topology, b, listed[k]);
        assert GrantedNow(w, listed[k]) == GrantedNow(w, b);
        assert Fresh(w', b, w'.worker.synced[i]);
      } else if i < k {
        assert Fresh(w', b, w'.worker.synced[i]);
      }
    }
  }

  lemma DecideSafe(w: World, names: seq<string>, answers: Answers, k: Clock, b: Budget)
    requires Inv(w) && Fixed(w, b) && WorkerRoom(w, b) && (b.NDB? ==> |Watch(w.topology, b)| <= TWO53)
    ensures WorkerRoom(ApplyDecide(w, names, answers, k), b)
  {
    hide TryGrant, Refuses, Relevant, UidInv, LogInv, OrderInv, FinalizerInv, StoreInv, NodesRecorded;
    var w' := ApplyDecide(w, names, answers, k);
    if CanDecide(w, names, k) && w'.worker.Committing? && w'.worker.status.state == Granted
        && Relevant(w.topology, b, w.worker.read.spec) {
      GrantMeansTolerated(w.cfg, w.worker.nd, View(w, names), w.worker.synced, answers, k);
      var i :| 0 <= i < |w.worker.listed| && w.worker.listed[i].SameSpec(b)
          && (i < |w.worker.synced| ==> Fresh(w, b, w.worker.synced[i]));
      assert w.worker.synced[i] in w.worker.synced;
      ToleratedHasRoom(w, b, w.worker.synced[i]);
      assert GrantedNow(w', b) == GrantedNow(w, b);
    }
  }

  lemma ToleratedHasRoom(w: World, b: Budget, s: Budget)
    requires Inv(w) && w.worker.Syncing? && Fresh(w, b, s) && (b.NDB? ==> |Watch(w.topology, b)| <= TWO53)
    requires Relevant(w.topology, b, w.worker.read.spec) && !Refuses(s, w.worker.nd)
    ensures DemandOf(w, b, w.worker.read.spec) + |GrantedNow(w, b)| <= CapacityOf(w, b)
  {
    var nd := w.worker.nd;
    WatchOfSameSpec(w.topology, b, s);
    SortedElements(Cover(w.topology, nd.spec));
    ToleranceIsRoom(s, Watch(w.topology, b), Elements(nd.status.nodes));
    assert Consulted(s, nd);
  }

  lemma GrantAppends(w: World, b: Budget)
    requires Inv(w) && Grants(w, Commit)
    ensures var w', read := ApplyCommit(w), w.worker.read;
            && GrantedInOrder(w', b) == GrantedInOrder(w, b)
               + (if Relevant(w.topology, b, read.spec) then [read.name] else [])
            && w'.topology == w.topology && read.name in w'.nds && w'.nds[read.name].spec == read.spec
            && forall n | n in w.nds :: n in w'.nds && w'.nds[n].spec == w.nds[n].spec
  {
    hide UidInv, LogInv, FinalizerInv;
    var w', name := ApplyCommit(w), w.worker.read.name;
    assert w.nds[name] == w.worker.read;
    RelevantSame(w, w', b, w.order);
    RelevantAppend(w', b, w.order, name);
  }

  lemma OrderFits(w: World, b: Budget)
    requires Inv(w)
    ensures |GrantedInOrder(w, b)| <= |GrantedNow(w, b)|
  {
    hide UidInv, LogInv, FinalizerInv, WorkerInv;
    RelevantMembers(w, b, w.order);
    DistinctCount(GrantedInOrder(w, b), GrantedNow(w, b));
  }

  lemma GrantSafe(w: World, b: Budget)
    requires Inv(w) && Safe(w, b) && Grants(w, Commit)
    ensures OrderRoom(ApplyCommit(w), b)
  {
    hide Inv, ApplyCommit, Relevant;
    var w' := ApplyCommit(w);
    var l, l' := GrantedInOrder(w, b), GrantedInOrder(w', b);
    GrantAppends(w, b);
    OrderFits(w, b);
    forall i | 0 <= i < |l'|
      ensures l'[i] in w'.nds && DemandOf(w', b, w'.nds[l'[i]].spec) + i <= CapacityOf(w', b)
    {
      if i < |l| {
        assert l'[i] == l[i];
      }
    }
  }

  lemma WorkerKeepsRoom(w: World, w': World, b: Budget)
    requires Inv(w) && WorkerRoom(w, b) && Shrinks(w, w')
             && (w'.worker == w.worker || w'.worker.Idle? || w'.worker.Removing?)
    ensures WorkerRoom(w', b)
  {
    ShrinkingCount(w, w', b);
    if w'.worker.Syncing? {
      var listed, synced := w.worker.listed, w.worker.synced;
      var i :| 0 <= i < |listed| && listed[i].SameSpec(b) && (i < |synced| ==> Fresh(w, b, synced[i]));
      assert i < |synced| ==> Fresh(w', b, synced[i]);
    }
  }

  lemma StepFixed(w: World, s: Step, b: Budget)
    requires Fixed(w, b) && StepKeepsBudget(s, b)
    ensures Fixed(Apply(w, s), b)
  {
    hide ApplyStart, ApplySyncNext, ApplyDecide, ApplyCommit, ApplyTerminatePass, ApplyRemoveFinalizer;
    SettingsFixed(w, s);
  }

  lemma OtherStepsKeepWorker(w: World, s: Step)
    requires !s.Start? && !s.SyncNext? && !s.Decide?
    ensures var worker := Apply(w, s).worker; worker == w.worker || worker.Idle? || worker.Removing?
  {
    hide TerminateCalls, AllTerminated;
  }

  lemma WorkerStepSafe(w: World, s: Step, b: Budget)
    requires Inv(w) && Fixed(w, b) && WorkerRoom(w, b) && !Grants(w, s)
    requires b.NDB? ==> |Watch(w.topology, b)| <= TWO53
    ensures WorkerRoom(Apply(w, s), b)
  {
    hide ApplyStart, ApplySyncNext, ApplyDecide, ApplyEnvironment, ApplyCommit, ApplyTerminatePass,
         ApplyRemoveFinalizer, WorkerRoom, OrderRoom, Grants;
    match s
    case Start(name, refs) => StartSafe(w, name, refs, b);
    case SyncNext(names) => SyncNextSafe(w, names, b);
    case Decide(names, answers, k) => DecideSafe(w, names, answers, k, b);
    case _ =>
      OtherStepsShrink(w, s);
      OtherStepsKeepWorker(w, s);
      WorkerKeepsRoom(w, Apply(w, s), b);
  }

  lemma GrantKeepsSafe(w: World, b: Budget)
    requires Inv(w) && Safe(w, b) && Grants(w, Commit)
    ensures Safe(ApplyCommit(w), b)
  {
    GrantSafe(w, b);
  }

  lemma StepSafe(w: World, s: Step, b: Budget)
    requires Inv(w) && Safe(w, b) && StepKeepsBudget(s, b)
    requires b.NDB? ==> |Watch(w.topology, b)| <= TWO53
    ensures Safe(Apply(w, s), b)
  {
    hide ApplyEnvironment, ApplyWorker, OrderRoom, WorkerRoom, Shrinks;
    if Grants(w, s) {
      GrantKeepsSafe(w, b);
      CommitIs(w);
    } else {
      StepKeeps(w, s);
      StepFixed(w, s, b);
      OtherStepsShrink(w, s);
      ShrinkingOrder(w, Apply(w, s), b);
      WorkerStepSafe(w, s, b);
    }
  }

  lemma CommitIs(w: World)
    ensures Apply(w, Commit) == ApplyCommit(w)
  {
    hide ApplyCommit;
  }

  lemma InitialSafe(w: World, b: Budget)
    requires Initial(w) && Fixed(w, b)
    ensures Safe(w, b)
  {
  }

  lemma {:induction false} RunSafe(w: World, steps: seq<Step>, b: Budget)
    requires Initial(w) && Fixed(w, b) && KeepsBudget(steps, b)
    requires b.NDB? ==> |Watch(w.topology, b)| <= TWO53
    ensures Run(w, steps).topology == w.topology
    ensures Inv(Run(w, steps)) && Safe(Run(w, steps), b)
    decreases |steps|
  {
    hide Apply;
    ReachableInv(w, steps);
    if steps == [] {
      InitialSafe(w, b);
    } else {
      var init, last := steps[..|steps| - 1], steps[|steps| - 1];
      assert steps == init + [last];
      RunSafe(w, init, b);
      SettingsFixed(Run(w, init), last);
      StepSafe(Run(w, init), last, b);
    }
  }
}
