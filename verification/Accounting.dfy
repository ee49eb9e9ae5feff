/** When a budget's count moves, and when granted disruptions cannot overlap. */
module Accounting {
  import opened Types
  import opened Sorting
  import opened Resolver
  import opened BudgetSpec
  import opened Admission
  import opened Protocol
  import opened Lifecycle
  import opened Safety

  // ----- conservation -----

  lemma GrantAddsOne(w: World, b: Budget)
    requires Inv(w) && Grants(w, Commit)
    ensures var name := w.worker.read.name;
            && name !in GrantedNow(w, b)
            && GrantedNow(ApplyCommit(w), b)
            == GrantedNow(w, b) + if Watch(w.topology, b) * Cover(w.topology, w.worker.read.spec) != {} then {name}
                                  else {}
  {
    hide StoreInv, UidInv, LogInv, OrderInv, FinalizerInv, NodesRecorded, Watch, Cover;
    assert w.nds[w.worker.read.name] == w.worker.read;
  }

  /** An object that leaves was marked deleted, and if it had been looked at, given up by the controller. */
  lemma LeavingStore(w: World, s: Step, n: string)
    requires Inv(w) && n in w.nds && n !in Apply(w, s).nds && w.nds[n].status.state != Unknown
    ensures w.nds[n].deleting && WasReleased(Apply(w, s), w.nds[n].uid)
  {
    if s.RemoveFinalizer? {
      RemovalReleases(w, n);
    } else if IsEnvironment(s) {
      EnvironmentLeavesLog(w, s);
    } else {
      OthersKeepNames(w, s);
    }
  }

  lemma RemovalReleases(w: World, n: string)
    requires Inv(w) && n in w.nds && n !in ApplyRemoveFinalizer(w).nds
    ensures w.nds[n].deleting && WasReleased(ApplyRemoveFinalizer(w), w.nds[n].uid)
  {
    var e := Released(w.worker.attempt, w.worker.read.uid, w.worker.read.status.budgets);
    assert e in ApplyRemoveFinalizer(w).log;
  }

  lemma EnvironmentLeavesLog(w: World, s: Step)
    requires IsEnvironment(s)
    ensures ApplyEnvironment(w, s).log == w.log
  {
  }

  lemma OthersKeepNames(w: World, s: Step)
    requires !IsEnvironment(s) && !s.RemoveFinalizer?
    ensures w.nds.Keys <= ApplyWorker(w, s).nds.Keys
  {
    hide TryGrant, SyncedStatus, SyncFails, TerminateCalls, AllTerminated, Snapshot;
  }

  /** A granted disruption that stops counting has been marked deleted and given up by the controller. */
  lemma LeavingWasReleased(w: World, s: Step, b: Budget, n: string)
    requires Inv(w) && n in GrantedNow(w, b) && n !in GrantedNow(Apply(w, s), b)
    ensures w.nds[n].deleting && WasReleased(Apply(w, s), w.nds[n].uid)
    ensures n !in Apply(w, s).nds
  {
    hide Apply;
    var w' := Apply(w, s);
    SettingsFixed(w, s);
    if n !in w'.nds {
      LeavingStore(w, s, n);
    } else {
      NameKeepsObject(w, s, n);
      StepContinues(w, s, n);
    }
  }

  /** A step does not replace an object by another of the same name. */
  lemma NameKeepsObject(w: World, s: Step, n: string)
    requires Inv(w) && n in w.nds && n in Apply(w, s).nds
    ensures Apply(w, s).nds[n].uid < w.rev
  {
    hide ApplyEnvironment, ApplyStart, ApplySyncNext, ApplyDecide, ApplyCommit, ApplyTerminatePass,
         ApplyRemoveFinalizer;
    hide UidInv, WorkerInv, LogInv, OrderInv, FinalizerInv;
    if IsEnvironment(s) {
      EnvironmentKeepsObject(w, s, n);
    } else if s.Commit? || s.RemoveFinalizer? {
      WritesKeepObject(w, n);
    } else {
      OthersLeaveStore(w, s);
    }
  }

  lemma EnvironmentKeepsObject(w: World, s: Step, n: string)
    requires StoreInv(w) && IsEnvironment(s) && n in w.nds && n in ApplyEnvironment(w, s).nds
    ensures ApplyEnvironment(w, s).nds[n].uid < w.rev
  {
  }

  lemma WritesKeepObject(w: World, n: string)
    requires StoreInv(w) && n in w.nds
    ensures n in ApplyCommit(w).nds && ApplyCommit(w).nds[n].uid < w.rev
    ensures n in ApplyRemoveFinalizer(w).nds ==> ApplyRemoveFinalizer(w).nds[n].uid < w.rev
  {
  }

  /**
    The number a budget counts rises only when the write of a granting attempt lands, by one, and falls only when a
    deleted disruption leaves after its terminate pass.
   */
  lemma {:induction false} CountMovesOnlyAtGrantAndRemoval(w: World, steps: seq<Step>, s: Step, b: Budget)
    requires Initial(w)
    ensures var r := Run(w, steps);
            var before, after := GrantedNow(r, b), GrantedNow(Apply(r, s), b);
            && (|after| > |before| ==> Grants(r, s) && |after| == |before| + 1)
            && (forall n | n in before && n !in after :: r.nds[n].deleting && WasReleased(Apply(r, s), r.nds[n].uid))
            && (|after| < |before| ==> exists n :: n in before && n !in after)
  {
    hide Run, Apply, Grants, Watch, Cover, Inv;
    ReachableInv(w, steps);
    var r := Run(w, steps);
    var before, after := GrantedNow(r, b), GrantedNow(Apply(r, s), b);
    forall n | n in before && n !in after ensures r.nds[n].deleting && WasReleased(Apply(r, s), r.nds[n].uid) {
      LeavingWasReleased(r, s, b, n);
    }
    if Grants(r, s) {
      GrantCounts(r, s, b);
    } else {
      OtherStepsShrink(r, s);
      ShrinkingCount(r, Apply(r, s), b);
    }
    if |after| < |before| && before <= after {
      SubsetCardinality(before, after);
    }
  }

  lemma GrantCounts(w: World, s: Step, b: Budget)
    requires Inv(w) && Grants(w, s)
    ensures var before, after := GrantedNow(w, b), GrantedNow(Apply(w, s), b);
            before <= after && |after| <= |before| + 1
  {
    hide ApplyCommit, GrantedNow, Inv;
    CommitIs(w);
    GrantAddsOne(w, b);
  }

  /** What a budget's Sync stores as CurrentDisruptions is that number. */
  lemma {:induction false} StoredCountIsCurrent(w: World, steps: seq<Step>, names: seq<string>, b: Budget)
    requires Initial(w) && IsListing(names, Run(w, steps).nds.Keys) && !SyncFails(View(Run(w, steps), names), b)
    ensures SyncedStatus(View(Run(w, steps), names), b).value.current == |GrantedNow(Run(w, steps), b)|
  {
    hide Run;
    ReachableInv(w, steps);
    SyncCountsGranted(Run(w, steps), names, b);
  }

  // ----- every final state is in the history -----

  /** A completed attempt on this object ended in this state. */
  ghost predicate Logged(log: seq<Event>, uid: nat, spec: NDSpec, state: NDState) {
    exists j :: 0 <= j < |log| && log[j].Committed? && log[j].uid == uid && log[j].spec == spec && log[j].state == state
  }

  predicate Final(state: NDState) {
    state == Granted || state == Rejected
  }

  ghost predicate FinalsLogged(w: World) {
    forall n | n in w.nds && Final(w.nds[n].status.state) ::
        Logged(w.log, w.nds[n].uid, w.nds[n].spec, w.nds[n].status.state)
  }

  lemma LongerLog(log: seq<Event>, log': seq<Event>, uid: nat, spec: NDSpec, state: NDState)
    requires log <= log' && Logged(log, uid, spec, state)
    ensures Logged(log', uid, spec, state)
  {
    var j :| 0 <= j < |log| && log[j].Committed? && log[j].uid == uid && log[j].spec == spec && log[j].state == state;
    assert log'[j] == log[j];
  }

  /** A write that ends in a final state is logged, unless that was the state already. */
  lemma FinalIsLogged(w: World, n: string)
    requires Inv(w) && n in ApplyCommit(w).nds && Final(ApplyCommit(w).nds[n].status.state)
    ensures var x := ApplyCommit(w).nds[n];
            || Logged(ApplyCommit(w).log, x.uid, x.spec, x.status.state)
            || (n in w.nds && x.uid == w.nds[n].uid && x.spec == w.nds[n].spec
               && x.status.state == w.nds[n].status.state)
  {
    hide UidInv, LogInv, OrderInv, FinalizerInv, NodesRecorded;
    if w.worker.Committing? && Unmoved(w, w.worker.read) && w.worker.read.name == n
        && w.worker.read.status.state == Pending {
      var read := w.worker.read;
      assert w.nds[read.name] == read;
      assert ApplyCommit(w).log[|w.log|]
             == Committed(w.worker.attempt, read.uid, read.spec, w.worker.decision, w.worker.status.state);
    }
  }

  lemma StepLogged(w: World, s: Step)
    requires Inv(w) && FinalsLogged(w)
    ensures FinalsLogged(Apply(w, s))
  {
    hide Apply, Inv, Logged;
    var r := Apply(w, s);
    LogGrows(w, s);
    forall n | n in r.nds && Final(r.nds[n].status.state)
      ensures Logged(r.log, r.nds[n].uid, r.nds[n].spec, r.nds[n].status.state)
    {
      if s.Commit? {
        CommitIs(w);
        FinalIsLogged(w, n);
      } else {
        OtherStepsKeepStatuses(w, s);
        NameKeepsObject(w, s, n);
        StepContinues(w, s, n);
      }
      if !Logged(r.log, r.nds[n].uid, r.nds[n].spec, r.nds[n].status.state) {
        LongerLog(w.log, r.log, r.nds[n].uid, r.nds[n].spec, r.nds[n].status.state);
      }
    }
  }

  /**
    In every reachable world the history has the attempt that granted or rejected each granted or rejected disruption.
   */
  lemma {:induction false} FinalsAreLogged(w: World, steps: seq<Step>)
    requires Initial(w)
    ensures FinalsLogged(Run(w, steps))
    decreases |steps|
  {
    hide Apply, Logged;
    if steps != [] {
      var init, last := steps[..|steps| - 1], steps[|steps| - 1];
      FinalsAreLogged(w, init);
      ReachableInv(w, init);
      StepLogged(Run(w, init), last);
    }
  }

  // ----- overlap -----

  ghost predicate NoOverlap(w: World) {
    forall n, m | n in w.nds && m in w.nds && n != m && w.nds[n].status.state == Granted
        && w.nds[m].status.state == Granted ::
      Elements(w.nds[n].status.nodes) * Elements(w.nds[m].status.nodes) == {}
  }

  /** While a grant is being written, nobody pending or granted shares its nodes. */
  ghost predicate GrantClear(w: World) {
    w.worker.Committing? && w.worker.read.status.state == Pending && w.worker.status.state == Granted ==>
      forall m | m in w.nds && m != w.worker.read.name
          && (w.nds[m].status.state == Pending || w.nds[m].status.state == Granted) ::
        Elements(w.nds[m].status.nodes) * Elements(w.worker.status.nodes) == {}
  }

  lemma NoOverlapListed(w: World, names: seq<string>, nd: NodeDisruption)
    requires Inv(w) && IsListing(names, w.nds.Keys) && !Overlaps(nd, Listed(w, names))
    ensures forall m | m in w.nds && m != nd.name
            && (w.nds[m].status.state == Pending || w.nds[m].status.state == Granted) ::
              Elements(w.nds[m].status.nodes) * Elements(nd.status.nodes) == {}
  {
    ListedAll(w, names);
    forall m | m in w.nds && m != nd.name && (w.nds[m].status.state == Pending || w.nds[m].status.state == Granted)
      ensures Elements(w.nds[m].status.nodes) * Elements(nd.status.nodes) == {}
    {
      assert w.nds[m] in Listed(w, names);
      assert !OverlapsOther(nd, w.nds[m]);
    }
  }

  lemma DecideClear(w: World, names: seq<string>, answers: Answers, k: Clock)
    requires Inv(w) && w.cfg.rejectOverlapping && GrantClear(w)
    ensures GrantClear(ApplyDecide(w, names, answers, k))
  {
    hide TryGrant, OrderInv, FinalizerInv, LogInv, UidInv, Overlaps;
    var w' := ApplyDecide(w, names, answers, k);
    if CanDecide(w, names, k) && w'.worker.Committing? && w'.worker.status.state == Granted {
      OutcomeShape(w.cfg, w.worker.nd, View(w, names), w.worker.synced, answers, k);
      GrantMeansClear(w.cfg, w.worker.nd, View(w, names), w.worker.synced, answers, k);
      NoOverlapListed(w, names, w.worker.nd);
    }
  }

  lemma GrantMeansClear(cfg: Config, nd: NodeDisruption, c: Client, bs: seq<Budget>, answers: Answers, k: Clock)
    requires TryGrant(cfg, nd, c, Ok(bs), answers, k).Ok? && cfg.rejectOverlapping
    requires TryGrant(cfg, nd, c, Ok(bs), answers, k).value.status.state == Granted
    ensures !Overlaps(nd, c.nds)
  {
    hide TryGrant;
    GrantMeansTolerated(cfg, nd, c, bs, answers, k);
  }

  lemma CommitClear(w: World)
    requires Inv(w) && NoOverlap(w) && GrantClear(w)
    ensures NoOverlap(ApplyCommit(w)) && GrantClear(ApplyCommit(w))
  {
    hide UidInv, LogInv, OrderInv, FinalizerInv, NodesRecorded;
    if w.worker.Committing? && Unmoved(w, w.worker.read) {
      assert w.nds[w.worker.read.name] == w.worker.read;
    }
  }

  /** Nobody's status changes; newcomers have not been looked at. */
  ghost predicate StatusesKept(w: World, w': World) {
    forall n | n in w'.nds :: w'.nds[n].status.state == Unknown || (n in w.nds && w'.nds[n].status == w.nds[n].status)
  }

  lemma OtherStepsKeepStatuses(w: World, s: Step)
    requires Inv(w) && !s.Commit?
    ensures StatusesKept(w, Apply(w, s))
  {
    hide ApplyEnvironment, ApplyStart, ApplySyncNext, ApplyDecide, ApplyCommit, ApplyTerminatePass,
         ApplyRemoveFinalizer;
    hide UidInv, WorkerInv, LogInv, OrderInv, FinalizerInv;
    if IsEnvironment(s) {
      EnvironmentKeepsStatuses(w, s);
    } else if s.RemoveFinalizer? {
      RemovalKeepsStatuses(w);
    } else {
      OthersLeaveStore(w, s);
    }
  }

  lemma EnvironmentKeepsStatuses(w: World, s: Step)
    requires StoreInv(w) && IsEnvironment(s)
    ensures StatusesKept(w, ApplyEnvironment(w, s))
  {
  }

  lemma RemovalKeepsStatuses(w: World)
    requires StoreInv(w)
    ensures StatusesKept(w, ApplyRemoveFinalizer(w))
  {
  }

  lemma StatusesKeptClear(w: World, w': World)
    requires NoOverlap(w) && GrantClear(w) && StatusesKept(w, w')
    ensures NoOverlap(w')
    ensures w'.worker == w.worker || !w'.worker.Committing? || w'.worker.read.status.state != Pending ==> GrantClear(w')
  {
  }

  lemma StepClear(w: World, s: Step)
    requires Inv(w) && w.cfg.rejectOverlapping && NoOverlap(w) && GrantClear(w)
    ensures NoOverlap(Apply(w, s)) && GrantClear(Apply(w, s))
  {
    hide ApplyEnvironment, ApplyStart, ApplySyncNext, ApplyDecide, ApplyCommit, ApplyTerminatePass,
         ApplyRemoveFinalizer, NoOverlap, StatusesKept;
    if s.Commit? {
      CommitClear(w);
    } else {
      OtherStepsKeepStatuses(w, s);
      StatusesKeptClear(w, Apply(w, s));
      match s
      case Start(name, refs) => StartClear(w, name, refs);
      case SyncNext(names) => SyncNextClear(w, names);
      case Decide(names, answers, k) => DecideClear(w, names, answers, k);
      case _ => OtherStepsKeepWorker(w, s);
    }
  }

  lemma StartClear(w: World, name: string, refs: seq<Ref>)
    requires GrantClear(w)
    ensures GrantClear(ApplyStart(w, name, refs))
  {
  }

  lemma SyncNextClear(w: World, names: seq<string>)
    requires GrantClear(w)
    ensures GrantClear(ApplySyncNext(w, names))
  {
    hide SyncedStatus, SyncFails;
  }

  lemma {:induction false} RunClear(w: World, steps: seq<Step>)
    requires Initial(w) && w.cfg.rejectOverlapping
    ensures Run(w, steps).cfg == w.cfg && NoOverlap(Run(w, steps)) && GrantClear(Run(w, steps))
    decreases |steps|
  {
    hide Apply;
    if steps != [] {
      var init, last := steps[..|steps| - 1], steps[|steps| - 1];
      RunClear(w, init);
      ReachableInv(w, init);
      SettingsFixed(Run(w, init), last);
      StepClear(Run(w, init), last);
    }
  }

  /**
    With RejectOverlappingDisruption, two distinct granted disruptions never share a node in any reachable world, by
    what they record and by what their selectors cover.
   */
  lemma {:induction false} GrantedNeverOverlap(w: World, steps: seq<Step>, n: string, m: string)
    requires Initial(w) && w.cfg.rejectOverlapping && n != m
    requires n in Run(w, steps).nds && m in Run(w, steps).nds
    requires Run(w, steps).nds[n].status.state == Granted && Run(w, steps).nds[m].status.state == Granted
    ensures var r := Run(w, steps);
            && Elements(r.nds[n].status.nodes) * Elements(r.nds[m].status.nodes) == {}
            && Cover(r.topology, r.nds[n].spec) * Cover(r.topology, r.nds[m].spec) == {}
  {
    hide Run;
    RunClear(w, steps);
    ReachableInv(w, steps);
    var r := Run(w, steps);
    SortedElements(Cover(r.topology, r.nds[n].spec));
    SortedElements(Cover(r.topology, r.nds[m].spec));
  }
}
