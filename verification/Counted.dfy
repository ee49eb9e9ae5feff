/** Granted disruptions a budget counts, whether or not it checked them: when its bound covers them too. */
module Counted {
  import opened Types
  import opened Sorting
  import opened Resolver
  import opened Rounding
  import opened BudgetSpec
  import opened Admission
  import opened Protocol
  import opened Lifecycle
  import opened Safety
  import opened Bounds
  import opened History
  import opened Overlap
  import opened Tightness
  import Accounting

  /** Only a granted disruption of a type the budget does not support takes its count above the bound. */
  lemma {:induction false} ExcessIsUnsupported(w: World, steps: seq<Step>, b: Budget)
    requires Initial(w) && Fixed(w, b) && KeepsBudget(steps, b) && (b.NDB? ==> |Watch(w.topology, b)| <= TWO53)
    requires |GrantedNow(Run(w, steps), b)| > Max(0, CapacityOf(w, b))
    ensures exists n :: n in GrantedNow(Run(w, steps), b) && !Supports(b, Run(w, steps).nds[n].spec.ndType)
  {
    hide Run, Watch, Capacity, Cover, OrderRoom, WorkerRoom;
    RunSafe(w, steps, b);
    var r := Run(w, steps);
    RoomBoundsCount(r, b);
    SupportedAreChecked(r, b);
  }

  lemma SupportedAreChecked(r: World, b: Budget)
    ensures (forall n | n in GrantedNow(r, b) :: Supports(b, r.nds[n].spec.ndType)) ==>
              GrantedNow(r, b) == CheckedGrants(r, b)
  {
    hide Watch, Cover;
  }

  /** Without the overlap check, what is granted has an allowed type. */
  lemma {:induction false} GrantedTypesAllowed(w: World, steps: seq<Step>, n: string)
    requires Initial(w) && !w.cfg.rejectOverlapping && w.cfg.types != []
    requires n in Run(w, steps).nds && Run(w, steps).nds[n].status.state == Granted
    ensures Run(w, steps).nds[n].spec.ndType in w.cfg.types
  {
    hide Run, TryGrant;
    var r := Run(w, steps);
    Accounting.FinalsAreLogged(w, steps);
    RunExplained(w, steps);
    assert Accounting.Logged(r.log, r.nds[n].uid, r.nds[n].spec, Granted);
    var j :| 0 <= j < |r.log| && r.log[j].Committed? && r.log[j].spec == r.nds[n].spec && r.log[j].state == Granted;
    assert Explained(w, steps, r.log[..j], r.log[j]);
    var k :| DecidedAt(w, steps, k, r.log[..j], r.log[j]);
    ReachableInv(w, steps[..k]);
    RunSettings(w, steps[..k]);
    var x, s := Run(w, steps[..k]), steps[k];
    GrantMeansTolerated(x.cfg, x.worker.nd, View(x, s.names), x.worker.synced, s.answers, s.clock);
  }

  /**
    So the bound covers all granted disruptions where every allowed type is supported, and the overlap check is off.
   */
  lemma {:induction false} CountedBound(w: World, steps: seq<Step>, b: Budget)
    requires Initial(w) && Fixed(w, b) && KeepsBudget(steps, b) && (b.NDB? ==> |Watch(w.topology, b)| <= TWO53)
    requires !w.cfg.rejectOverlapping && w.cfg.types != [] && forall t | t in w.cfg.types :: Supports(b, t)
    ensures |GrantedNow(Run(w, steps), b)| <= Max(0, CapacityOf(w, b))
  {
    hide Run, Watch, Capacity, Cover, Supports;
    if |GrantedNow(Run(w, steps), b)| > Max(0, CapacityOf(w, b)) {
      ExcessIsUnsupported(w, steps, b);
      var n :| n in GrantedNow(Run(w, steps), b) && !Supports(b, Run(w, steps).nds[n].spec.ndType);
      GrantedTypesAllowed(w, steps, n);
    }
  }

  /** Some disruption would touch the budget's nodes. */
  ghost predicate Touchable(t: Topology, b: Budget) {
    exists spec :: Selects(t, spec) && Watch(t, b) * Cover(t, spec) != {}
  }

  lemma {:induction false} Longer(l: seq<string>) returns (t: string)
    ensures t !in l && forall x | x in l :: |x| < |t|
  {
    if l == [] {
      t := "";
    } else {
      var init := Longer(l[..|l| - 1]);
      var last := l[|l| - 1];
      t := seq(|init| + |last| + 1, _ => 'x');
      assert l == l[..|l| - 1] + [last];
    }
  }

  lemma CountedAll(r: World, b: Budget, specs: seq<NDSpec>)
    requires Inv(r) && GrantedAll(r, specs)
    requires forall i | 0 <= i < |specs| :: Watch(r.topology, b) * Cover(r.topology, specs[i]) != {}
    ensures |GrantedNow(r, b)| == |specs|
  {
    hide Watch, Cover, StoreInv, UidInv, WorkerInv, LogInv, FinalizerInv;
    OrderCountsGranted(r, b);
    forall n | n in r.nds ensures n in GrantedNow(r, b) {
      assert n in r.nds.Keys;
    }
    assert GrantedNow(r, b) == r.nds.Keys;
    DistinctCount(r.order, GrantedNow(r, b));
  }

  /** Any number of disruptions of an allowed type that the budget does not support. */
  lemma GrantUnsupported(w: World, b: Budget, spec: NDSpec, m: nat) returns (steps: seq<Step>)
    requires Initial(w) && Alone(w, b) && !w.cfg.rejectOverlapping && (b.NDB? ==> |Watch(w.topology, b)| <= TWO53)
    requires Selects(w.topology, spec) && Watch(w.topology, b) * Cover(w.topology, spec) != {}
    requires !Supports(b, spec.ndType) && (w.cfg.types == [] || spec.ndType in w.cfg.types)
    ensures KeepsBudget(steps, b) && |GrantedNow(Run(w, steps), b)| == m
  {
    hide Run, Watch, Inv, WatchedNodes, Capacity, Demand;
    var plain := spec.(doNotGrantBefore := ZeroTime, retry := RetrySpec(false, ZeroTime));
    PlainCovers(w.topology, spec, plain);
    var specs := seq(m, i => plain);
    steps := GrantAll(w, b, specs);
    CountedAll(Run(w, steps), b, specs);
  }

  lemma PlainCovers(t: Topology, spec: NDSpec, plain: NDSpec)
    requires Selects(t, spec) && plain == spec.(doNotGrantBefore := ZeroTime, retry := RetrySpec(false, ZeroTime))
    ensures Plain(t, plain) && Cover(t, plain) == Cover(t, spec)
  {
  }

  /**
    Without the overlap check, the count of a budget that can be touched at all exceeds its bound in some run, and
    then any limit, if and only if some type that is allowed is not supported; with no types configured, every type is
    allowed.
   */
  lemma {:induction false} CountedBoundFailsExactly(w: World, b: Budget, limit: nat)
    requires Initial(w) && Alone(w, b) && !w.cfg.rejectOverlapping && (b.NDB? ==> |Watch(w.topology, b)| <= TWO53)
    requires limit >= Max(0, CapacityOf(w, b))
    ensures (exists steps :: KeepsBudget(steps, b) && |GrantedNow(Run(w, steps), b)| > limit)
        <==> Touchable(w.topology, b) && (w.cfg.types == [] || exists t :: t in w.cfg.types && !Supports(b, t))
  {
    hide Run, Watch, Inv, WatchedNodes, Capacity, Cover, Selects, Budget.SameSpec;
    SameSelf(b);
    if steps :| KeepsBudget(steps, b) && |GrantedNow(Run(w, steps), b)| > limit {
      if w.cfg.types != [] && forall t | t in w.cfg.types :: Supports(b, t) {
        CountedBound(w, steps, b);
      }
      TouchedIsTouchable(w, steps, b);
    }
    if Touchable(w.topology, b) && (w.cfg.types == [] || exists t :: t in w.cfg.types && !Supports(b, t)) {
      var t: string;
      if w.cfg.types == [] {
        t := Longer(b.types);
      } else {
        t :| t in w.cfg.types && !Supports(b, t);
      }
      var spec :| Selects(w.topology, spec) && Watch(w.topology, b) * Cover(w.topology, spec) != {};
      TypeIsFree(w.topology, spec, t);
      var steps := GrantUnsupported(w, b, spec.(ndType := t), limit + 1);
    }
  }

  lemma TypeIsFree(t: Topology, spec: NDSpec, ndType: string)
    ensures Selects(t, spec.(ndType := ndType)) == Selects(t, spec)
            && Cover(t, spec.(ndType := ndType)) == Cover(t, spec)
  {
  }

  lemma TouchedIsTouchable(w: World, steps: seq<Step>, b: Budget)
    requires Initial(w) && |GrantedNow(Run(w, steps), b)| > 0
    ensures Touchable(w.topology, b)
  {
    hide Run, Watch, Cover;
    ReachableInv(w, steps);
    RunSettings(w, steps);
    var r := Run(w, steps);
    if GrantedNow(r, b) != {} {
      var n :| n in GrantedNow(r, b);
      GrantedSelects(r, n);
      assert Selects(w.topology, r.nds[n].spec) && Watch(w.topology, b) * Cover(w.topology, r.nds[n].spec) != {};
    }
  }

  lemma GrantedSelects(r: World, n: string)
    requires Inv(r) && n in r.nds && r.nds[n].status.state == Granted
    ensures Selects(r.topology, r.nds[n].spec)
  {
  }
}
