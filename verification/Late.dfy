/** A budget that appears, or changes its spec, while disruptions are already granted or about to be. */
module Late {
  import opened Types
  import opened Resolver
  import opened Rounding
  import opened BudgetSpec
  import opened Protocol
  import opened Lifecycle
  import opened Safety
  import opened Bounds
  import opened Overlap

  /** The worker is still at the attempt it was at in `start`. */
  predicate SameAttempt(start: World, w: World) {
    !start.worker.Idle? && !w.worker.Idle? && w.worker.attempt == start.worker.attempt
  }

  function InFlight(start: World, w: World): nat {
    if SameAttempt(start, w) then 1 else 0
  }

  /** What the budget may find granted: its capacity, or what was there plus the attempt in flight. */
  ghost function Slack(start: World, b: Budget): nat {
    Max(Max(0, CapacityOf(start, b)), |CheckedGrants(start, b)| + InFlight(start, start))
  }

  ghost predicate LateSafe(start: World, w: World, b: Budget) {
    && Fixed(w, b) && w.topology == start.topology && start.attempts <= w.attempts
    && (SameAttempt(start, w) || WorkerRoom(w, b))
    && |CheckedGrants(w, b)| + InFlight(start, w) <= Slack(start, b)
  }

  lemma CheckedShrinks(w: World, w': World, b: Budget)
    requires Shrinks(w, w')
    ensures |CheckedGrants(w', b)| <= |CheckedGrants(w, b)|
  {
    hide Relevant;
    SubsetCardinality(CheckedGrants(w', b), CheckedGrants(w, b));
  }

  lemma CheckedAreCounted(w: World, b: Budget)
    ensures |CheckedGrants(w, b)| <= |GrantedNow(w, b)|
  {
    hide Watch, Cover;
    SubsetCardinality(CheckedGrants(w, b), GrantedNow(w, b));
  }

  lemma GrantStores(w: World) returns (name: string)
    requires Inv(w) && Grants(w, Commit)
    ensures var w' := ApplyCommit(w);
            && w'.topology == w.topology && w.worker.Committing? && name == w.worker.read.name && name in w.nds
            && name in w'.nds
            && w'.nds == w.nds[name := w'.nds[name]]
            && w'.nds[name].status.state == Granted && w'.nds[name].spec == w.worker.read.spec
  {
    hide StoreInv, UidInv, LogInv, OrderInv, FinalizerInv, NodesRecorded, Selects;
    name := w.worker.read.name;
    assert w.nds[name] == w.worker.read;
  }

  lemma GrantAddsChecked(w: World, b: Budget)
    requires Inv(w) && Grants(w, Commit)
    ensures |CheckedGrants(ApplyCommit(w), b)| <= |CheckedGrants(w, b)|
            + (if Relevant(w.topology, b, w.worker.read.spec) then 1 else 0)
  {
    hide Relevant, Inv, ApplyCommit, Grants;
    var name := GrantStores(w);
    var w' := ApplyCommit(w);
    var added := if Relevant(w.topology, b, w.worker.read.spec) then {name} else {};
    forall n | n in CheckedGrants(w', b) ensures n in CheckedGrants(w, b) + added {
      assert n == name || w'.nds[n] == w.nds[n];
    }
    SubsetCardinality(CheckedGrants(w', b), CheckedGrants(w, b) + added);
    UnionCardinality(CheckedGrants(w, b), added);
  }

  lemma GrantLate(start: World, w: World, b: Budget)
    requires Inv(w) && LateSafe(start, w, b) && Grants(w, Commit)
    ensures |CheckedGrants(ApplyCommit(w), b)| <= Slack(start, b)
  {
    hide Inv, ApplyCommit, Relevant, CheckedGrants, GrantedNow, Capacity, Watch, Cover;
    GrantAddsChecked(w, b);
    CheckedAreCounted(w, b);
    if !SameAttempt(start, w) && Relevant(w.topology, b, w.worker.read.spec) {
      RelevantAsks(w, b, w.worker.read.spec);
    }
  }

  lemma RelevantAsks(w: World, b: Budget, spec: NDSpec)
    requires Relevant(w.topology, b, spec)
    ensures DemandOf(w, b, spec) >= 1
  {
  }

  /** Attempts have numbers of their own. */
  lemma WorkerGoesOn(w: World, s: Step)
    ensures w.attempts <= Apply(w, s).attempts
    ensures var worker := Apply(w, s).worker;
            worker.Idle? || worker.attempt == (if w.worker.Idle? then w.attempts else w.worker.attempt)
    ensures Grants(w, s) ==> Apply(w, s).worker.Idle?
  {
    hide Snapshot, NodesForNodeSelector, SyncedStatus, SyncFails, View;
    hide Admission.TryGrant, Admission.TerminateCalls, Admission.AllTerminated, CallEvents;
  }

  lemma AttemptGoesOn(start: World, w: World, s: Step)
    requires Inv(start) && Inv(w) && start.attempts <= w.attempts
    ensures start.attempts <= Apply(w, s).attempts
    ensures SameAttempt(start, Apply(w, s)) ==> SameAttempt(start, w)
    ensures SameAttempt(start, w) && !SameAttempt(start, Apply(w, s)) ==> Apply(w, s).worker.Idle?
    ensures Grants(w, s) ==> Apply(w, s).worker.Idle?
  {
    hide Apply, Grants, StoreInv, UidInv, LogInv, OrderInv, FinalizerInv;
    WorkerGoesOn(w, s);
  }

  lemma StepLate(start: World, w: World, s: Step, b: Budget)
    requires Inv(start) && Inv(w) && LateSafe(start, w, b) && StepKeepsBudget(s, b)
             && (b.NDB? ==> |Watch(w.topology, b)| <= TWO53)
    ensures LateSafe(start, Apply(w, s), b)
  {
    hide Apply, Inv, CheckedGrants, WorkerRoom, Grants, Fixed, Slack;
    StepFixed(w, s, b);
    SettingsFixed(w, s);
    AttemptGoesOn(start, w, s);
    IdleHasRoom(Apply(w, s), b);
    if Grants(w, s) {
      IsCommit(w, s);
      GrantLate(start, w, b);
    } else {
      OtherStepsShrink(w, s);
      CheckedShrinks(w, Apply(w, s), b);
      if !SameAttempt(start, w) {
        WorkerStepSafe(w, s, b);
      }
    }
  }

  lemma IdleHasRoom(w: World, b: Budget)
    ensures w.worker.Idle? ==> WorkerRoom(w, b)
  {
  }

  lemma IsCommit(w: World, s: Step)
    requires Grants(w, s)
    ensures s == Commit && Apply(w, s) == ApplyCommit(w)
  {
    hide ApplyCommit;
  }

  lemma {:induction false} RunLate(start: World, steps: seq<Step>, b: Budget)
    requires Inv(start) && Fixed(start, b) && KeepsBudget(steps, b) && (b.NDB? ==> |Watch(start.topology, b)| <= TWO53)
    ensures Inv(Run(start, steps)) && LateSafe(start, Run(start, steps), b)
    decreases |steps|
  {
    hide Apply, Fixed, WorkerRoom, Inv, CheckedGrants;
    if steps == [] {
      StartsLate(start, b);
    } else {
      var init, last := steps[..|steps| - 1], steps[|steps| - 1];
      assert steps == init + [last];
      RunLate(start, init, b);
      StepLate(start, Run(start, init), last, b);
      StepKeeps(Run(start, init), last);
    }
  }

  lemma StartsLate(start: World, b: Budget)
    requires Fixed(start, b)
    ensures LateSafe(start, start, b)
  {
    hide Fixed, CheckedGrants;
    IdleHasRoom(start, b);
  }

  /**
    A budget that is there with its spec only from some world of the run on: never more is granted under it than its
    capacity, or than what was granted at that moment and the one attempt then in flight.
   */
  lemma {:induction false} LateBudgetBound(w: World, before: seq<Step>, steps: seq<Step>, b: Budget)
    requires Initial(w) && Fixed(Run(w, before), b) && KeepsBudget(steps, b)
             && (b.NDB? ==> |Watch(w.topology, b)| <= TWO53)
    ensures var start := Run(w, before);
            |CheckedGrants(Run(w, before + steps), b)|
              <= Max(Max(0, CapacityOf(w, b)), |CheckedGrants(start, b)| + if start.worker.Idle? then 0 else 1)
  {
    hide Run, Fixed, CheckedGrants, Capacity, Watch;
    ReachableInv(w, before);
    RunSettings(w, before);
    RunConcat(w, before, steps);
    RunLate(Run(w, before), steps, b);
  }
}
