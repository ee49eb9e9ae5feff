/** What completed attempts decided and what hook calls named, in every run. */
module Completed {
  import opened Types
  import opened Sorting
  import opened Resolver
  import opened BudgetSpec
  import opened Admission
  import opened Outcomes
  import opened Protocol
  import opened Lifecycle
  import opened Safety
  import opened History
  import opened Hooks
  import opened Overlap
  import Accounting

  // ----- states -----

  /**
    Every completed attempt was decided at some step, on the disruptions and synced budgets it had, and ended in the
    state that these, the answers of that step and its clock readings call for.
   */
  lemma {:induction false} CompletedExactly(w: World, steps: seq<Step>, i: nat) returns (k: nat)
    requires Initial(w) && i < |Run(w, steps).log| && Run(w, steps).log[i].Committed?
    ensures var e := Run(w, steps).log[i];
            && DecidedAt(w, steps, k, Run(w, steps).log[..i], e)
            && var d, answers := e.decision, steps[k].answers;
               && d.nd.spec == e.spec
               && EndsIn(d.nd, d.clock, Fails(w.cfg, d.nd, d.c.nds, d.budgets, answers, d.clock),
                         StillPreparing(w.cfg, d.nd, d.c.nds, d.budgets, answers, d.clock), e.state)
  {
    hide Run, TryGrant, Fails, StillPreparing;
    var log := Run(w, steps).log;
    RunExplained(w, steps);
    assert Explained(w, steps, log[..i], log[i]);
    k :| DecidedAt(w, steps, k, log[..i], log[i]);
    ReachableInv(w, steps[..k]);
    RunSettings(w, steps[..k]);
    DecisionState(w, steps, k, log[..i], log[i]);
  }

  lemma DecisionState(w: World, steps: seq<Step>, k: nat, before: seq<Event>, e: Event)
    requires DecidedAt(w, steps, k, before, e) && Inv(Run(w, steps[..k])) && Run(w, steps[..k]).cfg == w.cfg
    ensures var d, answers := e.decision, steps[k].answers;
            && d.nd.spec == e.spec
            && EndsIn(d.nd, d.clock, Fails(w.cfg, d.nd, d.c.nds, d.budgets, answers, d.clock),
                      StillPreparing(w.cfg, d.nd, d.c.nds, d.budgets, answers, d.clock), e.state)
  {
    hide Run, TryGrant, Fails, StillPreparing, EndsIn, UidInv, LogInv, OrderInv, FinalizerInv, StoreInv;
    var d := e.decision;
    StateExactly(w.cfg, d.nd, d.c, d.budgets, steps[k].answers, d.clock);
  }

  /** Where empty disruptions are to be rejected, whatever is granted covers a node. */
  lemma {:induction false} GrantedCoverNodes(w: World, steps: seq<Step>, n: string)
    requires Initial(w) && w.cfg.rejectEmpty
    requires n in Run(w, steps).nds && Run(w, steps).nds[n].status.state == Granted
    ensures Cover(w.topology, Run(w, steps).nds[n].spec) != {}
  {
    hide Run, Fails, StillPreparing, Cover;
    var r := Run(w, steps);
    Accounting.FinalsAreLogged(w, steps);
    assert Accounting.Logged(r.log, r.nds[n].uid, r.nds[n].spec, Granted);
    var j :| 0 <= j < |r.log| && r.log[j].Committed? && r.log[j].spec == r.nds[n].spec && r.log[j].state == Granted;
    var k := CompletedExactly(w, steps, j);
    ReachableInv(w, steps[..k]);
    RunSettings(w, steps[..k]);
    var d := r.log[j].decision;
    assert d.nd.status.nodes != [] by {
      NotFailed(w.cfg, d.nd, d.c.nds, d.budgets, steps[k].answers, d.clock);
    }
    DecidedNodes(Run(w, steps[..k]));
    assert d.nd.status.nodes[0] in Elements(d.nd.status.nodes);
  }

  lemma NotFailed(cfg: Config, nd: NodeDisruption, nds: seq<NodeDisruption>, bs: seq<Budget>, answers: Answers,
      k: Clock)
    requires cfg.rejectEmpty && !Fails(cfg, nd, nds, bs, answers, k)
    ensures nd.status.nodes != []
  {
  }

  lemma DecidedNodes(w: World)
    requires Inv(w) && w.worker.Syncing?
    ensures w.worker.nd == w.worker.read && Elements(w.worker.nd.status.nodes) == Cover(w.topology, w.worker.nd.spec)
    ensures w.worker.nd.status.nodes == SortedList(Cover(w.topology, w.worker.nd.spec))
  {
    hide UidInv, LogInv, OrderInv, FinalizerInv, StoreInv, Cover, NodesRecorded;
    SortedElements(Cover(w.topology, w.worker.nd.spec));
  }

  // ----- the step behind a call -----

  /** The call of event e was made at step k, for this disruption. */
  ghost predicate CalledAt(w: World, steps: seq<Step>, k: int, e: Event, nd: NodeDisruption) {
    && 0 <= k < |steps| && e.Called? && nd.uid == e.uid
    && var r, s := Run(w, steps[..k]), steps[k];
       match s
       case Decide(names, answers, clock) =>
         && CanDecide(r, names, clock) && r.worker.attempt == e.attempt && nd == r.worker.nd
         && var outcome := TryGrant(r.cfg, nd, View(r, names), Ok(r.worker.synced), answers, clock);
            outcome.Ok? && e.call in outcome.value.calls
       case TerminatePass(name, answers, unreadable) =>
         && r.attempts == e.attempt && name in r.nds && nd == r.nds[name] && nd.deleting
         && e.call in TerminateCalls(nd.status.budgets, nd, BudgetGetter(r.budgets, unreadable), answers)
       case _ => false
  }

  lemma NewCall(w: World, s: Step, i: nat) returns (nd: NodeDisruption)
    requires Inv(w) && |w.log| <= i < |Apply(w, s).log| && Apply(w, s).log[i].Called?
    ensures CalledAt(w, [s], 0, Apply(w, s).log[i], nd)
  {
    hide TryGrant, View, TerminateCalls, AllTerminated, BudgetGetter, SyncedStatus, SyncFails, Snapshot, WithNodes;
    hide StoreInv, UidInv, LogInv, OrderInv, FinalizerInv, NodesRecorded;
    nd := if s.Decide? then w.worker.nd else w.nds[s.name];
    assert [s][..0] == [];
  }

  lemma {:induction false} EveryCall(w: World, steps: seq<Step>, i: nat) returns (k: nat, nd: NodeDisruption)
    requires Initial(w) && i < |Run(w, steps).log| && Run(w, steps).log[i].Called?
    ensures CalledAt(w, steps, k, Run(w, steps).log[i], nd)
    decreases |steps|
  {
    hide Apply, TryGrant, View, TerminateCalls, CanDecide;
    var n := |steps| - 1;
    var init, last := steps[..n], steps[n];
    LogGrows(Run(w, init), last);
    if i < |Run(w, init).log| {
      k, nd := EveryCall(w, init, i);
      assert init[..k] == steps[..k] && init[k] == steps[k];
    } else {
      ReachableInv(w, init);
      nd := NewCall(Run(w, init), last, i);
      k := n;
      assert [last][..0] == [];
    }
  }

  // ----- the nodes a call names -----

  /** A terminate call on a stored budget names what it recorded, the other calls what is there. */
  ghost predicate NamesExactly(t: Topology, b: Budget, stored: map<Ref, Budget>, nd: NodeDisruption, call: HookCall) {
    match call.kind
    case Health => call.nodes == SortedList(Cover(t, nd.spec))
    case Terminate =>
      && call.ref in stored
      && call.nodes == SortedList(Elements(stored[call.ref].status.watched) * Elements(nd.status.nodes))
    case _ => call.nodes == SortedList(Watch(t, b) * Cover(t, nd.spec))
  }

  lemma NamesAre(s: Budget, nd: NodeDisruption, call: HookCall)
    requires NamesNodes(s, nd, call) && call.kind != Health
    ensures call.nodes == SortedList(Elements(s.status.watched) * Elements(nd.status.nodes))
  {
    var common := Elements(s.status.watched) * Elements(nd.status.nodes);
    assert Elements(call.nodes) == common;
    SortedElements(common);
    SortedUnique(call.nodes, SortedList(common));
  }

  /** The synced copy of the budget that an attempt decides on. */
  lemma CopyInSync(w: World, b: Budget, s: Budget)
    requires Backed(w, b) && w.worker.Syncing? && |w.worker.synced| == |w.worker.listed|
    requires s in w.worker.synced && s.GetNamespacedName() == b.GetNamespacedName()
    ensures s.SameSpec(b) && s.status.watched == SortedList(Watch(w.topology, b))
  {
    hide StoreBacked, LogBacked, Fixed, StatusesBacked, Watch;
    var i :| 0 <= i < |w.worker.listed| && w.worker.listed[i].SameSpec(b)
        && InSync(w.worker.synced[i], Watch(w.topology, b));
    var j :| 0 <= j < |w.worker.synced| && w.worker.synced[j] == s;
    assert w.worker.synced[j].SameSpec(w.worker.listed[j]) && w.worker.synced[i].SameSpec(w.worker.listed[i]);
    assert i == j;
  }

  lemma NeverTerminate(b: Budget, nd: NodeDisruption, kind: HookKind)
    requires Needs(b, nd, kind)
    ensures kind != Terminate
  {
  }

  lemma HealthNames(s: Budget, nd: NodeDisruption, call: HookCall)
    requires NamesNodes(s, nd, call) && call.kind == Health
    ensures call.nodes == nd.status.nodes
  {
  }

  lemma DecideNames(w: World, b: Budget, names: seq<string>, answers: Answers, k: Clock, call: HookCall)
    requires Inv(w) && Backed(w, b) && CanDecide(w, names, k) && call.ref == b.GetNamespacedName()
    requires var outcome := TryGrant(w.cfg, w.worker.nd, View(w, names), Ok(w.worker.synced), answers, k);
             outcome.Ok? && call in outcome.value.calls
    ensures NamesExactly(w.topology, b, w.budgets, w.worker.nd, call) && call.kind != Terminate
  {
    hide TryGrant, Backed, View, BudgetVerdict, BudgetCalls, InternalVerdict, TurnedAway, Watch, Cover, Inv, Blocked;
    hide Concerned, Needs, NamesNodes;
    var nd, bs := w.worker.nd, w.worker.synced;
    AttemptExactly(w.cfg, nd, View(w, names), bs, answers, k);
    DecidedNodes(w);
    if Blocked(nd, bs) {
      var i := BlockedExactly(nd, bs, answers);
    } else {
      var at := CallsExactly(nd, bs, answers);
      var j :| 0 <= j < |at| && BudgetCalls(nd, bs, answers)[j] == call;
      var s := bs[at[j]];
      assert s in bs && IsCall(s, nd, answers, call);
      CopyInSync(w, b, s);
      NeverTerminate(s, nd, call.kind);
      SortedElements(Watch(w.topology, b));
      if call.kind != Health {
        NamesAre(s, nd, call);
      } else {
        HealthNames(s, nd, call);
      }
    }
  }

  lemma PassNames(w: World, b: Budget, nd: NodeDisruption, answers: Answers, unreadable: set<Ref>, call: HookCall)
    requires WellKeyed(w.budgets) && call.ref == b.GetNamespacedName()
    requires call in TerminateCalls(nd.status.budgets, nd, BudgetGetter(w.budgets, unreadable), answers)
    ensures NamesExactly(w.topology, b, w.budgets, nd, call) && call.kind == Terminate
  {
    hide TerminateCalls, NamesNodes;
    var get, statuses := BudgetGetter(w.budgets, unreadable), nd.status.budgets;
    var at := TerminateExactly(statuses, nd, get, answers);
    var j :| 0 <= j < |at| && TerminateCalls(statuses, nd, get, answers)[j] == call;
    NamesAre(get(statuses[at[j]].ref).value.value, nd, call);
  }

  /**
    The nodes in the body of each hook call of a budget whose spec stays, in every run: prepare and ready name exactly
    the nodes of the disruption that it watches, health all nodes of the disruption, and terminate those recorded for
    the disruption that the stored copy of the budget has recorded as watched.
   */
  lemma {:induction false} CallsNameNodes(w: World, steps: seq<Step>, b: Budget, i: nat)
    returns (k: nat, nd: NodeDisruption)
    requires Initial(w) && Fixed(w, b) && KeepsBudget(steps, b)
    requires i < |Run(w, steps).log| && Run(w, steps).log[i].Called?
    requires Run(w, steps).log[i].call.ref == b.GetNamespacedName()
    ensures CalledAt(w, steps, k, Run(w, steps).log[i], nd)
    ensures NamesExactly(w.topology, b, Run(w, steps[..k]).budgets, nd, Run(w, steps).log[i].call)
    ensures Run(w, steps).log[i].call.kind == Terminate <==> steps[k].TerminatePass?
  {
    hide Run, TryGrant, View, TerminateCalls, Backed, NamesExactly, BudgetGetter, StoreInv, UidInv, WorkerInv, LogInv,
         OrderInv, FinalizerInv, Fixed;
    k, nd := EveryCall(w, steps, i);
    var e, r := Run(w, steps).log[i], Run(w, steps[..k]);
    RunBacked(w, steps[..k], b);
    if steps[k].Decide? {
      DecideNames(r, b, steps[k].names, steps[k].answers, steps[k].clock, e.call);
    } else {
      PassNames(r, b, nd, steps[k].answers, steps[k].unreadable, e.call);
    }
  }
}
