/** What the overlap check decides in a run: who is turned down, and which of two overlapping disruptions survives. */
module Overlap {
  import opened Types
  import opened Sorting
  import opened Resolver
  import opened BudgetSpec
  import opened Admission
  import opened Protocol
  import opened Lifecycle
  import opened Safety
  import opened History
  import opened Accounting

  /** Some other pending or granted disruption shares a node with this one. */
  ghost predicate Overlapped(w: World, name: string, spec: NDSpec) {
    exists m :: m in w.nds && m != name && (w.nds[m].status.state == Pending || w.nds[m].status.state == Granted)
                && Cover(w.topology, w.nds[m].spec) * Cover(w.topology, spec) != {}
  }

  lemma OverlapsListed(w: World, names: seq<string>, nd: NodeDisruption)
    requires Inv(w) && IsListing(names, w.nds.Keys) && nd.status.nodes == SortedList(Cover(w.topology, nd.spec))
    ensures Overlaps(nd, Listed(w, names)) <==> Overlapped(w, nd.name, nd.spec)
  {
    hide UidInv, LogInv, OrderInv, FinalizerInv, WorkerInv;
    ListedAll(w, names);
    SortedElements(Cover(w.topology, nd.spec));
    forall m | m in w.nds && w.nds[m].status.state != Unknown
      ensures Elements(w.nds[m].status.nodes) == Cover(w.topology, w.nds[m].spec)
    {
      SortedElements(Cover(w.topology, w.nds[m].spec));
    }
    if Overlaps(nd, Listed(w, names)) {
      var other :| other in Listed(w, names) && OverlapsOther(nd, other);
      assert other.name in w.nds && other == w.nds[other.name];
    }
    if m :| m in w.nds && m != nd.name && (w.nds[m].status.state == Pending || w.nds[m].status.state == Granted)
            && Cover(w.topology, w.nds[m].spec) * Cover(w.topology, nd.spec) != {} {
      assert w.nds[m] in Listed(w, names) && OverlapsOther(nd, w.nds[m]);
    }
  }

  /** The attempt got as far as the overlap check. */
  ghost predicate ReachesOverlapCheck(cfg: Config, d: Decision) {
    && cfg.rejectOverlapping && !d.nd.spec.retry.IsAfterDeadline(d.clock.internalCheck)
    && !(cfg.rejectEmpty && Elements(d.nd.status.nodes) == {})
  }

  /**
    Every completed attempt was decided at some step, and if it got to the overlap check it failed that check if and
    only if another pending or granted disruption of that moment shares a node, whatever their ages; then it does not
    grant, and rejects unless it is to be retried.
   */
  lemma {:induction false} OverlapDecidesExactly(w: World, steps: seq<Step>, i: nat) returns (k: nat)
    requires Initial(w) && i < |Run(w, steps).log| && Run(w, steps).log[i].Committed?
    requires ReachesOverlapCheck(w.cfg, Run(w, steps).log[i].decision)
    ensures var e := Run(w, steps).log[i];
            && DecidedAt(w, steps, k, Run(w, steps).log[..i], e)
            && var overlapped := Overlapped(Run(w, steps[..k]), e.decision.nd.name, e.spec);
               && (InternalVerdict(w.cfg, e.decision.nd, e.decision.c, e.decision.clock).value.failed <==> overlapped)
               && (overlapped ==> e.state == Pending || e.state == Rejected)
               && (overlapped && !e.spec.retry.enabled ==> e.state == Rejected)
  {
    hide Run, TryGrant, Overlaps, Overlapped;
    var log := Run(w, steps).log;
    RunExplained(w, steps);
    assert Explained(w, steps, log[..i], log[i]);
    k :| DecidedAt(w, steps, k, log[..i], log[i]);
    ReachableInv(w, steps[..k]);
    RunSettings(w, steps[..k]);
    DecisionOverlap(w, steps, k, log[..i], log[i]);
  }

  lemma {:induction false} RunSettings(w: World, steps: seq<Step>)
    ensures Run(w, steps).cfg == w.cfg && Run(w, steps).topology == w.topology
    decreases |steps|
  {
    hide Apply;
    if steps != [] {
      RunSettings(w, steps[..|steps| - 1]);
      SettingsFixed(Run(w, steps[..|steps| - 1]), steps[|steps| - 1]);
    }
  }

  lemma DecisionOverlap(w: World, steps: seq<Step>, k: nat, before: seq<Event>, e: Event)
    requires DecidedAt(w, steps, k, before, e) && Inv(Run(w, steps[..k])) && Run(w, steps[..k]).cfg == w.cfg
    requires ReachesOverlapCheck(w.cfg, e.decision)
    ensures var overlapped := Overlapped(Run(w, steps[..k]), e.decision.nd.name, e.spec);
            && (InternalVerdict(w.cfg, e.decision.nd, e.decision.c, e.decision.clock).value.failed <==> overlapped)
            && (overlapped ==> e.state == Pending || e.state == Rejected)
            && (overlapped && !e.spec.retry.enabled ==> e.state == Rejected)
  {
    hide Run, Overlaps, Overlapped, BudgetVerdict, BudgetCalls, UidInv, LogInv, OrderInv, FinalizerInv, StoreInv;
    var r := Run(w, steps[..k]);
    OverlapsListed(r, steps[k].names, e.decision.nd);
  }

  /** The event that ended a disruption's wait: it was rejected, or it left. */
  ghost predicate Settles(e: Event, uid: nat) {
    e.uid == uid && ((e.Committed? && e.state == Rejected) || e.Released?)
  }

  /**
    Of two overlapping pending disruptions the one that survives is the one tried later: every attempt that grants one
    of them comes after an attempt that rejected the other, or after the other was given up.
   */
  lemma {:induction false} SurvivorIsTriedLater(w: World, steps: seq<Step>, more: seq<Step>, n: string, m: string,
                                                j: nat)
    requires Initial(w) && w.cfg.rejectOverlapping && n != m
    requires var r := Run(w, steps);
             && n in r.nds && m in r.nds && r.nds[n].status.state == Pending && r.nds[m].status.state == Pending
             && Cover(r.topology, r.nds[n].spec) * Cover(r.topology, r.nds[m].spec) != {}
    requires var r, r' := Run(w, steps), Run(w, steps + more);
             |r.log| <= j < |r'.log| && r'.log[j].Committed? && r'.log[j].uid == r.nds[n].uid
                 && r'.log[j].state == Granted
    ensures exists i :: 0 <= i < j && Settles(Run(w, steps + more).log[i], Run(w, steps).nds[m].uid)
  {
    hide Run, Apply, Inv, Settles;
    var all := steps + more;
    var k := WriteOf(w, all, j);
    if k < |steps| {
      WrittenEarly(w, steps, more, k, j);
    } else {
      assert all[..k] == steps + more[..k - |steps|];
      RunConcat(w, steps, more[..k - |steps|]);
      ReachableInv(w, steps);
      SettledBefore(w, steps, more[..k - |steps|], n, m);
      var x := Run(w, all[..k]);
      var e :| e in x.log && Settles(e, Run(w, steps).nds[m].uid);
      var i :| 0 <= i < |x.log| && x.log[i] == e;
      assert Run(w, all).log[..j][i] == Run(w, all).log[i];
    }
  }

  lemma WrittenEarly(w: World, steps: seq<Step>, more: seq<Step>, k: nat, j: nat)
    requires j < |Run(w, steps + more).log| && WrittenAt(w, steps + more, k, j) && k < |steps|
    ensures j < |Run(w, steps).log|
  {
    hide Apply;
    var x := Run(w, (steps + more)[..k]);
    assert (steps + more)[..k] == steps[..k];
    assert (steps + more)[..k + 1] == steps[..k + 1];
    assert steps[..k + 1][..k] == steps[..k];
    assert Run(w, steps[..k + 1]) == Apply(x, Commit);
    CommitIs(x);
    assert |ApplyCommit(x).log| == j + 1;
    RunLogGrows(w, steps, k + 1);
  }

  /** When the worker is about to write a grant, everyone it overlapped with when both were pending is settled. */
  lemma SettledBefore(w: World, steps: seq<Step>, more: seq<Step>, n: string, m: string)
    requires Initial(w) && w.cfg.rejectOverlapping && n != m && Inv(Run(w, steps))
    requires var r := Run(w, steps);
             && n in r.nds && m in r.nds && r.nds[n].status.state == Pending && r.nds[m].status.state == Pending
             && Cover(r.topology, r.nds[n].spec) * Cover(r.topology, r.nds[m].spec) != {}
    requires var r, x := Run(w, steps), Run(w, steps + more);
             && x.worker.Committing? && Unmoved(x, x.worker.read) && x.worker.read.uid == r.nds[n].uid
             && x.worker.read.status.state == Pending && x.worker.status.state == Granted
    ensures var r, x := Run(w, steps), Run(w, steps + more); exists e :: e in x.log && Settles(e, r.nds[m].uid)
  {
    hide Run, Apply;
    var r, x := Run(w, steps), Run(w, steps + more);
    RunConcat(w, steps, more);
    ReachableInv(w, steps + more);
    RunClear(w, steps + more);
    FinalsAreLogged(w, steps + more);
    RunSettings(r, more);
    SettledOrGone(r, x, more, m);
    if m in x.nds && x.nds[m].uid == r.nds[m].uid {
      RunContinues(r, more, m);
      RunContinues(r, more, x.worker.read.name);
      NotPendingAtGrant(r, x, n, m);
      assert Logged(x.log, x.nds[m].uid, x.nds[m].spec, Rejected);
      var i :| 0 <= i < |x.log| && x.log[i].Committed? && x.log[i].uid == x.nds[m].uid && x.log[i].state == Rejected;
      assert x.log[i] in x.log && Settles(x.log[i], r.nds[m].uid);
    }
  }

  lemma SettledOrGone(r: World, x: World, more: seq<Step>, m: string)
    requires Inv(r) && x == Run(r, more) && m in r.nds && r.nds[m].status.state == Pending
    ensures (m in x.nds && x.nds[m].uid == r.nds[m].uid) || exists e :: e in x.log && Settles(e, r.nds[m].uid)
  {
    hide Apply, StoreInv, UidInv, WorkerInv, LogInv, OrderInv;
    if r.nds[m].finalizer {
      LeavesOnlyReleased(r, more, m);
    } else {
      assert WasReleased(r, r.nds[m].uid);
      var e :| e in r.log && e.Released? && e.uid == r.nds[m].uid;
      RunFrom(r, more);
      assert e in x.log && Settles(e, r.nds[m].uid);
    }
    if WasReleased(x, r.nds[m].uid) {
      var e :| e in x.log && e.Released? && e.uid == r.nds[m].uid;
      assert Settles(e, r.nds[m].uid);
    }
  }

  lemma RunFrom(r: World, more: seq<Step>)
    ensures r.log <= Run(r, more).log && forall e | e in r.log :: e in Run(r, more).log
  {
    hide Apply;
    assert more[..0] == [];
    RunLogGrows(r, more, 0);
    forall e | e in r.log ensures e in Run(r, more).log {
      var i :| 0 <= i < |r.log| && r.log[i] == e;
      assert Run(r, more).log[i] == e;
    }
  }

  lemma NotPendingAtGrant(r: World, x: World, n: string, m: string)
    requires Inv(r) && Inv(x) && x.topology == r.topology && GrantClear(x) && n in r.nds && m in r.nds && n != m
    requires x.worker.Committing? && Unmoved(x, x.worker.read) && x.worker.read.uid == r.nds[n].uid
    requires x.worker.read.status.state == Pending && x.worker.status.state == Granted
    requires m in x.nds && r.nds[m].status.state == Pending && Continues(r.nds[m], x.nds[m])
    requires x.worker.read.name in r.nds && Continues(r.nds[x.worker.read.name], x.nds[x.worker.read.name])
    requires Cover(r.topology, r.nds[n].spec) * Cover(r.topology, r.nds[m].spec) != {}
    ensures x.nds[m].status.state == Rejected
  {
    hide LogInv, OrderInv, FinalizerInv;
    assert x.nds[x.worker.read.name] == x.worker.read;
    assert x.worker.read.name == n;
    SortedElements(Cover(r.topology, r.nds[n].spec));
    SortedElements(Cover(r.topology, r.nds[m].spec));
  }
}
