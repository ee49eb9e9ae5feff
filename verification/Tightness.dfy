/** The bounds are exact: whatever they leave room for, some run grants. */
module Tightness {
  import opened Types
  import opened Labels
  import opened Sorting
  import opened Resolver
  import opened Rounding
  import opened BudgetSpec
  import opened Admission
  import opened Protocol
  import opened Lifecycle
  import opened Safety
  import opened Bounds
  import opened Overlap

  // ----- one disruption that fits is granted -----

  /** One budget that watches its nodes without error, and a worker with nothing to do. */
  ghost predicate OnlyBudget(w: World, b: Budget) {
    && Inv(w) && w.worker.Idle?
    && w.budgets == map[b.GetNamespacedName() := b]
    && WatchedNodes(TopologyView(w.topology), b).Ok?
  }

  /** One budget, without v2 hooks. */
  ghost predicate Alone(w: World, b: Budget) {
    OnlyBudget(w, b) && !V2HooksReady(b)
  }

  /** Neither dates nor retries. */
  ghost predicate Plain(t: Topology, spec: NDSpec) {
    spec.doNotGrantBefore == ZeroTime && !spec.retry.enabled && Selects(t, spec)
  }

  /** The controller's own checks would pass a disruption with this name and spec now. */
  ghost predicate Passes(w: World, name: string, spec: NDSpec) {
    && (w.cfg.rejectEmpty ==> Cover(w.topology, spec) != {})
    && (if w.cfg.rejectOverlapping then !Overlapped(w, name, spec) else w.cfg.types == [] || spec.ndType in w.cfg.types)
  }

  ghost predicate Waiting(w: World, name: string, spec: NDSpec) {
    && name in w.nds && w.nds[name].spec == spec && w.nds[name].name == name
    && w.nds[name].finalizer && !w.nds[name].deleting && !w.nds[name].foreign
    && w.nds[name].status.state == Pending && w.nds[name].status.nextRetry == ZeroTime
    && w.nds[name].status.budgets == []
  }

  function Yes(kind: HookKind, ref: Ref): bool {
    true
  }

  lemma OneListing<T>(x: T)
    ensures IsListing([x], {x})
  {
    assert (set y | y in [x]) == {x};
  }

  /** Two reconciles take a new disruption to Pending. */
  ghost function PendSteps(b: Budget, name: string, spec: NDSpec): seq<Step> {
    [Create(name, spec, false), AddFinalizer(name), Start(name, [b.GetNamespacedName()]), Commit]
  }

  lemma PendIs(w: World, b: Budget, name: string, spec: NDSpec)
    ensures Run(w, PendSteps(b, name, spec))
         == ApplyCommit(ApplyStart(ApplyAddFinalizer(ApplyCreate(w, name, spec, false), name), name,
                                   [b.GetNamespacedName()]))
  {
    hide Run, ApplyCreate, ApplyAddFinalizer, ApplyStart, ApplyCommit;
    RunFour(w, Create(name, spec, false), AddFinalizer(name), Start(name, [b.GetNamespacedName()]), Commit);
  }

  lemma Pend(w: World, b: Budget, name: string, spec: NDSpec)
    requires OnlyBudget(w, b) && name !in w.nds && Selects(w.topology, spec)
    ensures var r := Run(w, PendSteps(b, name, spec));
            && OnlyBudget(r, b) && Waiting(r, name, spec)
            && r == w.(nds := r.nds, rev := r.rev, attempts := r.attempts) && w.rev < r.rev
            && r.nds == w.nds[name := r.nds[name]] && r.nds[name].uid == w.rev
  {
    hide Run, ApplyCreate, ApplyAddFinalizer, ApplyStart, ApplyCommit, Inv, IsListing, Selects, WatchedNodes, Waiting;
    var ref := b.GetNamespacedName();
    PendIs(w, b, name, spec);
    RunKeeps(w, PendSteps(b, name, spec));
    OneListing(ref);
    assert w.budgets.Keys == {ref};
    PendEffect(w, name, spec, ref);
  }

  lemma PendEffect(w: World, name: string, spec: NDSpec, ref: Ref)
    requires Inv(w) && w.worker.Idle? && name !in w.nds && Selects(w.topology, spec) && IsListing([ref], w.budgets.Keys)
    ensures var r := ApplyCommit(ApplyStart(ApplyAddFinalizer(ApplyCreate(w, name, spec, false), name), name, [ref]));
            && r == w.(nds := r.nds, rev := r.rev, attempts := r.attempts) && w.rev < r.rev
            && name in r.nds && r.nds[name].uid == w.rev && r.nds == w.nds[name := r.nds[name]]
            && Waiting(r, name, spec)
  {
    hide Inv, IsListing, Selects;
    var w2 := ApplyAddFinalizer(ApplyCreate(w, name, spec, false), name);
    assert CanStart(w2, name) by {
      assert NodesForNodeSelector(TopologyView(w.topology), spec.nodeSelector).Ok? by {
        SelectsIs(w.topology, spec);
      }
    }
  }

  lemma SelectsIs(t: Topology, spec: NDSpec)
    requires Selects(t, spec)
    ensures NodesForNodeSelector(TopologyView(t), spec.nodeSelector).Ok?
  {
  }

  ghost function DecideSteps(w: World, b: Budget, name: string, names: seq<string>): seq<Step> {
    [Start(name, [b.GetNamespacedName()]), SyncNext(names), Decide(names, Yes, Now(w))]
  }

  lemma SyncSucceeds(w: World, names: seq<string>, b: Budget)
    requires Inv(w) && IsListing(names, w.nds.Keys) && WatchedNodes(TopologyView(w.topology), b).Ok?
    ensures !SyncFails(View(w, names), b)
  {
    var c := View(w, names);
    WatchNeedsTopologyOnly(c, b);
    ListedAll(w, names);
    forall nd | nd in c.nds && nd.status.state != Unknown ensures Covered(c, nd).Ok? {
      SelectionNeedsTopologyOnly(c, nd.spec.nodeSelector);
    }
  }

  /** With one synced budget that does not refuse, the decision is to grant. */
  lemma VerdictGrants(cfg: Config, nd: NodeDisruption, c: Client, s: Budget, k: Clock)
    requires InternalVerdict(cfg, nd, c, k).Ok? && !InternalVerdict(cfg, nd, c, k).value.failed
    requires nd.spec.doNotGrantBefore == ZeroTime && !nd.spec.retry.enabled
    requires !V2HooksReady(s) && !Refuses(s, nd)
    ensures var outcome := TryGrant(cfg, nd, c, Ok([s]), Yes, k);
            outcome.Ok? && outcome.value.status.state == Granted && outcome.value.status.nodes == nd.status.nodes
  {
    assert !AnyRefusal([s], nd);
    assert CheckFor(s, nd, Yes).ok;
  }

  function Now(w: World): Clock {
    Clock(w.clock, w.clock, w.clock, w.clock, w.clock, w.clock)
  }

  lemma AttemptIs(w: World, b: Budget, name: string, names: seq<string>)
    ensures Run(w, DecideSteps(w, b, name, names))
         == ApplyDecide(ApplySyncNext(ApplyStart(w, name, [b.GetNamespacedName()]), names), names, Yes, Now(w))
  {
    hide Run, ApplyStart, ApplySyncNext, ApplyDecide;
    RunThree(w, Start(name, [b.GetNamespacedName()]), SyncNext(names), Decide(names, Yes, Now(w)));
  }

  lemma StartIs(w: World, b: Budget, name: string)
    requires OnlyBudget(w, b) && CanStart(w, name) && w.nds[name].status.state == Pending
    ensures ApplyStart(w, name, [b.GetNamespacedName()])
         == w.(worker := Syncing(w.nds[name], w.nds[name], w.attempts, w.clock, [b], []), attempts := w.attempts + 1)
  {
    hide UidInv, LogInv, OrderInv, FinalizerInv;
    var ref := b.GetNamespacedName();
    OneListing(ref);
    assert w.budgets.Keys == {ref};
    assert Snapshot(w, [ref]) == [b];
  }

  lemma SyncIs(w: World, b: Budget, names: seq<string>)
    requires Inv(w) && IsListing(names, w.nds.Keys) && WatchedNodes(TopologyView(w.topology), b).Ok?
    requires w.worker.Syncing? && w.worker.listed == [b] && w.worker.synced == []
    ensures !SyncFails(View(w, names), b)
    ensures ApplySyncNext(w, names)
         == w.(worker := w.worker.(synced := [b.(status := SyncedStatus(View(w, names), b).value)]))
  {
    hide Inv, SyncedStatus;
    SyncSucceeds(w, names, b);
    var s := b.(status := SyncedStatus(View(w, names), b).value);
    assert [] + [s] == [s];
  }

  /** A synced copy does not refuse what it does not support or has room for. */
  lemma RoomTolerates(w: World, b: Budget, names: seq<string>, nd: NodeDisruption)
    requires Inv(w) && IsListing(names, w.nds.Keys) && !SyncFails(View(w, names), b)
             && (b.NDB? ==> |Watch(w.topology, b)| <= TWO53)
    requires nd.name in w.nds && nd == w.nds[nd.name] && nd.status.state != Unknown
    requires Supports(b, nd.spec.ndType) ==> DemandOf(w, b, nd.spec) + |GrantedNow(w, b)| <= CapacityOf(w, b)
    ensures !Refuses(b.(status := SyncedStatus(View(w, names), b).value), nd)
  {
    hide UidInv, LogInv, OrderInv, FinalizerInv, WorkerInv, View, SyncedStatus, GrantedNow, InSync, Tolerates, Watch;
    var s := b.(status := SyncedStatus(View(w, names), b).value);
    SyncCountsGranted(w, names, b);
    SortedElements(Cover(w.topology, nd.spec));
    WatchOfSameSpec(w.topology, b, s);
    ToleranceIsRoom(s, Watch(w.topology, b), Elements(nd.status.nodes));
  }

  lemma DecideGrants(w: World, names: seq<string>, s: Budget, k: Clock)
    requires CanDecide(w, names, k) && w.worker.synced == [s]
    requires var internal := InternalVerdict(w.cfg, w.worker.nd, View(w, names), k);
             internal.Ok? && !internal.value.failed
    requires var nd := w.worker.nd;
             && nd.spec.doNotGrantBefore == ZeroTime && !nd.spec.retry.enabled
             && !V2HooksReady(s) && !Refuses(s, nd)
    ensures var r := ApplyDecide(w, names, Yes, k);
            && r == w.(worker := r.worker, log := r.log)
            && r.worker.Committing? && r.worker.read == w.worker.read && r.worker.status.state == Granted
  {
    hide TryGrant, View, Refuses, InternalVerdict;
    VerdictGrants(w.cfg, w.worker.nd, View(w, names), s, k);
  }

  lemma InternalPasses(w: World, names: seq<string>, nd: NodeDisruption, k: Clock)
    requires Inv(w) && IsListing(names, w.nds.Keys) && Passes(w, nd.name, nd.spec)
    requires !nd.spec.retry.IsAfterDeadline(k.internalCheck)
    requires nd.status.nodes == SortedList(Cover(w.topology, nd.spec))
    ensures var internal := InternalVerdict(w.cfg, nd, View(w, names), k); internal.Ok? && !internal.value.failed
  {
    hide Inv, Overlapped, Overlaps;
    SortedElements(Cover(w.topology, nd.spec));
    OverlapsListed(w, names, nd);
  }

  lemma PassesElsewhere(w: World, w': World, name: string, spec: NDSpec)
    requires Passes(w, name, spec) && w'.cfg == w.cfg && w'.topology == w.topology
    requires forall n | n in w'.nds && n != name :: n in w.nds && w'.nds[n] == w.nds[n]
    ensures Passes(w', name, spec)
  {
    hide Cover;
  }

  lemma WaitingNodes(w: World, name: string, spec: NDSpec)
    requires Inv(w) && Waiting(w, name, spec)
    ensures w.nds[name].status.nodes == SortedList(Cover(w.topology, spec))
  {
    hide Cover, Selects;
  }

  lemma WaitingStarts(w: World, name: string, spec: NDSpec)
    requires Waiting(w, name, spec) && Plain(w.topology, spec) && w.worker.Idle?
    ensures CanStart(w, name) && w.nds[name].status.state == Pending
  {
  }

  /** Whatever the answers, an attempt on a cluster with one budget decides on one synced copy of it. */
  lemma OneAttempt(w: World, b: Budget, name: string, names: seq<string>, answers: Answers) returns (s: Budget)
    requires OnlyBudget(w, b) && CanStart(w, name) && w.nds[name].status.state == Pending
             && IsListing(names, w.nds.Keys)
    ensures s.SameSpec(b) && InSync(s, Watch(w.topology, b)) && s.status.current == |GrantedNow(w, b)|
    ensures var nd, k := w.nds[name], Now(w);
            var outcome := TryGrant(w.cfg, nd, View(w, names), Ok([s]), answers, k);
            outcome.Ok? ==>
              Run(w, [Start(name, [b.GetNamespacedName()]), SyncNext(names), Decide(names, answers, k)])
              == w.(worker := Committing(nd, w.attempts, outcome.value.status, Decision(nd, View(w, names), [s], k)),
                    attempts := w.attempts + 1, log := w.log + CallEvents(w.attempts, nd.uid, outcome.value.calls))
  {
    hide Run, ApplyStart, ApplySyncNext, ApplyDecide, Inv, View, SyncedStatus, IsListing, Watch, WatchedNodes, TryGrant,
         InSync, NodesForNodeSelector;
    var refs := [b.GetNamespacedName()];
    RunThree(w, Start(name, refs), SyncNext(names), Decide(names, answers, Now(w)));
    StartIs(w, b, name);
    StartKeeps(w, name, refs);
    var w1 := ApplyStart(w, name, refs);
    ViewSame(w, w1, names);
    SyncIs(w1, b, names);
    s := b.(status := SyncedStatus(View(w1, names), b).value);
    SyncCountsGranted(w1, names, b);
    assert GrantedNow(w1, b) == GrantedNow(w, b);
    var w2 := ApplySyncNext(w1, names);
    ViewSame(w, w2, names);
    if TryGrant(w.cfg, w.nds[name], View(w, names), Ok([s]), answers, Now(w)).Ok? {
      DecideIs(w2, names, answers, Now(w));
    }
  }

  /** An attempt on a waiting disruption the budget has room for ends in a decision to grant. */
  lemma Attempt(w: World, b: Budget, name: string, names: seq<string>, spec: NDSpec)
    requires Alone(w, b) && Waiting(w, name, spec) && Plain(w.topology, spec) && Passes(w, name, spec)
    requires Supports(b, spec.ndType) ==> DemandOf(w, b, spec) + |GrantedNow(w, b)| <= CapacityOf(w, b)
    requires IsListing(names, w.nds.Keys) && (b.NDB? ==> |Watch(w.topology, b)| <= TWO53)
    ensures var r := Run(w, DecideSteps(w, b, name, names));
            && r == w.(worker := r.worker, attempts := r.attempts, log := r.log)
            && r.worker.Committing? && r.worker.read == w.nds[name] && r.worker.status.state == Granted
  {
    hide Run, ApplyStart, ApplySyncNext, ApplyDecide, Inv, View, SyncedStatus, IsListing, Demand, Capacity, Refuses,
         Watch, WatchedNodes, Selects, Passes, InternalVerdict, NodesForNodeSelector;
    var refs := [b.GetNamespacedName()];
    AttemptIs(w, b, name, names);
    WaitingStarts(w, name, spec);
    StartIs(w, b, name);
    StartKeeps(w, name, refs);
    var w1 := ApplyStart(w, name, refs);
    assert GrantedNow(w1, b) == GrantedNow(w, b);
    SyncIs(w1, b, names);
    RoomTolerates(w1, b, names, w.nds[name]);
    PassesElsewhere(w, w1, name, spec);
    WaitingNodes(w, name, spec);
    SyncNextKeeps(w1, names);
    PassesElsewhere(w1, ApplySyncNext(w1, names), name, spec);
    InternalPasses(ApplySyncNext(w1, names), names, w.nds[name], Now(w));
    DecideGrants(ApplySyncNext(w1, names), names, b.(status := SyncedStatus(View(w1, names), b).value), Now(w));
  }

  lemma GrantLands(w: World, b: Budget, name: string)
    requires Alone(w.(worker := Idle), b) && Inv(w)
    requires w.worker.Committing? && name in w.nds && w.worker.read == w.nds[name] && w.nds[name].name == name
    requires w.nds[name].status.state == Pending && w.worker.status.state == Granted
    ensures var r := ApplyCommit(w);
            && Alone(r, b) && r.topology == w.topology && r.order == w.order + [name]
            && r.nds == w.nds[name := r.nds[name]] && r.nds[name].spec == w.nds[name].spec
            && r.nds[name].status.state == Granted
  {
    CommitKeeps(w);
    CommitLands(w, name);
  }

  lemma CommitLands(w: World, name: string)
    requires w.worker.Committing? && name in w.nds && w.worker.read == w.nds[name] && w.nds[name].name == name
    requires w.nds[name].status.state == Pending && w.worker.status.state == Granted
    ensures var r := ApplyCommit(w);
            && r == w.(worker := Idle, nds := r.nds, rev := r.rev, log := r.log, order := w.order + [name])
            && r.nds == w.nds[name := r.nds[name]] && r.nds[name].spec == w.nds[name].spec
            && r.nds[name].status.state == Granted
  {
  }

  lemma RunTogether(w: World, s: seq<Step>, t: seq<Step>, x: Step)
    ensures Run(w, s + t + [x]) == Apply(Run(Run(w, s), t), x)
  {
    hide Apply, Run;
    RunMore(w, s + t, x);
    RunConcat(w, s, t);
  }

  /** From creation to grant. */
  lemma GrantOne(w: World, b: Budget, name: string, spec: NDSpec, names: seq<string>) returns (steps: seq<Step>)
    requires Alone(w, b) && name !in w.nds && Plain(w.topology, spec) && Passes(w, name, spec)
    requires Supports(b, spec.ndType) ==> DemandOf(w, b, spec) + |GrantedNow(w, b)| <= CapacityOf(w, b)
    requires IsListing(names, w.nds.Keys + {name}) && (b.NDB? ==> |Watch(w.topology, b)| <= TWO53)
    ensures forall s | s in steps :: !s.SetBudgets?
    ensures var r := Run(w, steps);
            && Alone(r, b) && r.topology == w.topology && r.order == w.order + [name]
            && name in r.nds && r.nds == w.nds[name := r.nds[name]]
            && r.nds[name].spec == spec && r.nds[name].status.state == Granted
  {
    hide Run, Inv, IsListing, Selects, Watch, WatchedNodes, Demand, Capacity, ApplyCommit, Apply;
    Pend(w, b, name, spec);
    var pending := Run(w, PendSteps(b, name, spec));
    assert pending.nds.Keys == w.nds.Keys + {name};
    assert GrantedNow(pending, b) == GrantedNow(w, b);
    RunSettings(w, PendSteps(b, name, spec));
    PassesElsewhere(w, pending, name, spec);
    Attempt(pending, b, name, names, spec);
    RunKeeps(pending, DecideSteps(pending, b, name, names));
    var decided := Run(pending, DecideSteps(pending, b, name, names));
    steps := PendSteps(b, name, spec) + DecideSteps(pending, b, name, names) + [Commit];
    RunTogether(w, PendSteps(b, name, spec), DecideSteps(pending, b, name, names), Commit);
    RunKeeps(decided, [Abort]);
    RunMore(decided, [], Abort);
    CommitIs(decided);
    IdleAgain(decided);
    GrantLands(decided, b, name);
  }

  lemma IdleAgain(w: World)
    requires Inv(w)
    ensures Inv(w.(worker := Idle))
  {
  }

  // ----- whole lists -----

  /** Distinct names. */
  function Name(i: nat): string {
    seq(i + 1, _ => 'd')
  }

  function Names(n: nat): (r: seq<string>)
    ensures |r| == n && forall i | 0 <= i < n :: r[i] == Name(i)
  {
    seq(n, i requires 0 <= i < n => Name(i))
  }

  lemma NamesDistinct(n: nat)
    ensures IsListing(Names(n), set i | 0 <= i < n :: Name(i))
    ensures Name(n) !in Names(n) && Name(n) !in (set i | 0 <= i < n :: Name(i))
  {
    forall i, j | 0 <= i < j <= n ensures Name(i) != Name(j) {
      assert |Name(i)| != |Name(j)|;
    }
  }

  lemma OrderCountsGranted(w: World, b: Budget)
    requires Inv(w)
    ensures |GrantedNow(w, b)| <= |w.order|
  {
    CountCovers(w.order, GrantedNow(w, b));
  }

  /** What a run granted, in order. */
  ghost predicate GrantedAll(w: World, specs: seq<NDSpec>) {
    && w.order == Names(|specs|)
    && w.nds.Keys == (set i | 0 <= i < |specs| :: Name(i))
    && forall i | 0 <= i < |specs| :: w.nds[Name(i)].spec == specs[i] && w.nds[Name(i)].status.state == Granted
  }

  lemma EmptyOrder(w: World)
    requires Inv(w) && w.nds == map[]
    ensures w.order == []
  {
    DistinctCount(w.order, w.nds.Keys);
  }

  lemma GrantedOneMore(w: World, r: World, specs: seq<NDSpec>)
    requires specs != [] && GrantedAll(w, specs[..|specs| - 1])
    requires var name := Name(|specs| - 1);
             && r.order == w.order + [name] && name in r.nds && r.nds == w.nds[name := r.nds[name]]
             && r.nds[name].spec == specs[|specs| - 1] && r.nds[name].status.state == Granted
    ensures GrantedAll(r, specs)
  {
    var n := |specs| - 1;
    NamesDistinct(n);
    forall i | 0 <= i < |specs|
      ensures Name(i) in r.nds && r.nds[Name(i)].spec == specs[i] && r.nds[Name(i)].status.state == Granted
    {
      if i < n {
        assert Name(i) in w.nds.Keys;
        assert Names(n)[i] in Names(n);
      }
    }
    assert Names(n + 1) == Names(n) + [Name(n)];
    assert r.nds.Keys == w.nds.Keys + {Name(n)};
  }

  /** The controller's own checks would pass these disruptions, one after the other. */
  ghost predicate AllPass(w: World, specs: seq<NDSpec>) {
    && (w.cfg.rejectEmpty ==> forall i | 0 <= i < |specs| :: Cover(w.topology, specs[i]) != {})
    && (if w.cfg.rejectOverlapping then
          forall i, j | 0 <= i < j < |specs| :: Cover(w.topology, specs[i]) * Cover(w.topology, specs[j]) == {}
        else
          w.cfg.types == [] || forall i | 0 <= i < |specs| :: specs[i].ndType in w.cfg.types)
  }

  lemma NextPasses(w: World, specs: seq<NDSpec>)
    requires specs != [] && GrantedAll(w, specs[..|specs| - 1]) && AllPass(w, specs)
    ensures Passes(w, Name(|specs| - 1), specs[|specs| - 1])
  {
    hide Cover, Name;
    var n := |specs| - 1;
    forall m | m in w.nds ensures exists i :: 0 <= i < n && m == Name(i) && w.nds[m].spec == specs[i] {
      assert m in w.nds.Keys;
    }
  }

  lemma PrefixPasses(w: World, w': World, specs: seq<NDSpec>, n: nat)
    requires n <= |specs| && AllPass(w, specs) && w'.cfg == w.cfg && w'.topology == w.topology
    ensures AllPass(w', specs[..n])
  {
    hide Cover;
  }

  lemma GrantNext(w: World, b: Budget, specs: seq<NDSpec>) returns (steps: seq<Step>)
    requires Alone(w, b) && specs != [] && GrantedAll(w, specs[..|specs| - 1])
             && (b.NDB? ==> |Watch(w.topology, b)| <= TWO53)
    requires AllPass(w, specs)
    requires var n := |specs| - 1;
             Plain(w.topology, specs[n])
                 && (Supports(b, specs[n].ndType) ==> DemandOf(w, b, specs[n]) + n <= CapacityOf(w, b))
    ensures forall s | s in steps :: !s.SetBudgets?
    ensures var r := Run(w, steps); Alone(r, b) && r.topology == w.topology && r.cfg == w.cfg && GrantedAll(r, specs)
  {
    hide Run, Watch, Demand, Capacity, WatchedNodes, Selects, Names, Passes;
    var n := |specs| - 1;
    NamesDistinct(n);
    NamesDistinct(n + 1);
    OrderCountsGranted(w, b);
    assert Name(n) !in w.nds.Keys;
    assert (set i | 0 <= i < n + 1 :: Name(i)) == w.nds.Keys + {Name(n)};
    NextPasses(w, specs);
    steps := GrantOne(w, b, Name(n), specs[n], Names(n + 1));
    RunSettings(w, steps);
    GrantedOneMore(w, Run(w, steps), specs);
  }

  /**
    Any list of disruptions of which the i-th (from 0), if its type is supported, asks for at most the capacity less i
    can be granted in that order.
   */
  lemma {:induction false} GrantAll(w: World, b: Budget, specs: seq<NDSpec>) returns (steps: seq<Step>)
    requires Alone(w, b) && w.nds == map[] && (b.NDB? ==> |Watch(w.topology, b)| <= TWO53)
    requires AllPass(w, specs)
    requires forall i | 0 <= i < |specs| ::
               Plain(w.topology, specs[i])
                   && (Supports(b, specs[i].ndType) ==> DemandOf(w, b, specs[i]) + i <= CapacityOf(w, b))
    ensures forall s | s in steps :: !s.SetBudgets?
    ensures var r := Run(w, steps); Alone(r, b) && r.topology == w.topology && r.cfg == w.cfg && GrantedAll(r, specs)
    decreases |specs|
  {
    hide Apply, Watch, Demand, Capacity, Plain, Alone, AllPass;
    if specs == [] {
      steps := [];
      NothingGranted(w, b);
    } else {
      PrefixPasses(w, w, specs, |specs| - 1);
      var before := GrantAll(w, b, specs[..|specs| - 1]);
      PrefixPasses(w, Run(w, before), specs, |specs|);
      assert specs[..|specs|] == specs;
      var more := GrantNext(Run(w, before), b, specs);
      RunConcat(w, before, more);
      steps := before + more;
    }
  }

  lemma NothingGranted(w: World, b: Budget)
    requires Alone(w, b) && w.nds == map[]
    ensures GrantedAll(w, [])
  {
    EmptyOrder(w);
  }

  /** The disruptions the budget checked and that are granted, oldest grant first, are those of the list. */
  ghost predicate GrantedAre(w: World, b: Budget, specs: seq<NDSpec>) {
    var l := GrantedInOrder(w, b);
    |l| == |specs| && forall i | 0 <= i < |l| :: l[i] in w.nds && w.nds[l[i]].spec == specs[i]
  }

  lemma {:induction false} AllRelevant(w: World, b: Budget, l: seq<string>)
    requires forall n | n in l :: n in w.nds && Relevant(w.topology, b, w.nds[n].spec)
    ensures RelevantAmong(w, b, l) == l
  {
    hide Relevant;
    if l != [] {
      assert l == l[..|l| - 1] + [l[|l| - 1]];
      AllRelevant(w, b, l[..|l| - 1]);
    }
  }

  lemma GrantedAllAre(w: World, b: Budget, specs: seq<NDSpec>)
    requires GrantedAll(w, specs) && forall i | 0 <= i < |specs| :: Relevant(w.topology, b, specs[i])
    ensures GrantedAre(w, b, specs)
  {
    hide Relevant, Name, RelevantAmong;
    forall n | n in w.order ensures n in w.nds && Relevant(w.topology, b, w.nds[n].spec) {
      var i :| 0 <= i < |w.order| && w.order[i] == n;
      assert Name(i) in w.nds.Keys;
    }
    AllRelevant(w, b, w.order);
    forall i | 0 <= i < |specs| ensures Name(i) in w.nds {
      assert Name(i) in w.nds.Keys;
    }
  }

  /**
    In a cluster with one budget, a list of disruptions that the controller's own checks pass can be what is granted, in
    this order, if and only if the i-th (from 0) asks for at most the capacity less i.
   */
  lemma {:induction false} GrantableExactly(w: World, b: Budget, specs: seq<NDSpec>)
    requires Initial(w) && Alone(w, b) && (b.NDB? ==> |Watch(w.topology, b)| <= TWO53)
    requires AllPass(w, specs) && forall i | 0 <= i < |specs| ::
               Plain(w.topology, specs[i]) && Relevant(w.topology, b, specs[i])
    ensures (exists steps :: KeepsBudget(steps, b) && GrantedAre(Run(w, steps), b, specs))
        <==> forall i | 0 <= i < |specs| :: DemandOf(w, b, specs[i]) + i <= CapacityOf(w, b)
  {
    hide Run, Relevant, Demand, Capacity, Watch, Plain, WatchedNodes, Inv, Budget.SameSpec, AllPass;
    assert Fixed(w, b) by {
      SameSelf(b);
    }
    if steps :| KeepsBudget(steps, b) && GrantedAre(Run(w, steps), b, specs) {
      RunSafe(w, steps, b);
      GrantedFit(w, Run(w, steps), b, specs);
    }
    if forall i | 0 <= i < |specs| :: DemandOf(w, b, specs[i]) + i <= CapacityOf(w, b) {
      var steps := GrantAll(w, b, specs);
      GrantedAllAre(Run(w, steps), b, specs);
      assert KeepsBudget(steps, b);
    }
  }

  lemma SameSelf(b: Budget)
    ensures b.SameSpec(b)
  {
  }

  lemma GrantedFit(w: World, r: World, b: Budget, specs: seq<NDSpec>)
    requires r.topology == w.topology && OrderRoom(r, b) && GrantedAre(r, b, specs)
    ensures forall i | 0 <= i < |specs| :: DemandOf(w, b, specs[i]) + i <= CapacityOf(w, b)
  {
    hide Demand, Capacity, Watch, Relevant;
    var l := GrantedInOrder(r, b);
    forall i | 0 <= i < |specs| ensures DemandOf(w, b, specs[i]) + i <= CapacityOf(w, b) {
      assert DemandOf(r, b, r.nds[l[i]].spec) + i <= CapacityOf(r, b);
    }
  }
}
