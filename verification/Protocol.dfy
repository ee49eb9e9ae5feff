/**
  The controller and its surroundings as a transition system. One worker reconciles disruptions in small steps; users,
  budget controllers, other finalizer owners and the clock act between any two of them. Every choice an actor makes
  is in the Step, so a run is a sequence of steps, and a step that is not possible leaves the world as it is.
 */
module Protocol {
  import opened Types
  import opened Sorting
  import opened Resolver
  import opened BudgetSpec
  import opened Admission

  /** What an attempt decided on: the disruption, what the API answered, the synced budgets and the clock. */
  datatype Decision = Decision(nd: NodeDisruption, c: Client, budgets: seq<Budget>, clock: Clock)

  /** What the one worker is in the middle of. `read` is the stored object its write will be conditional on. */
  datatype Worker =
    | Idle
    | Syncing(read: NodeDisruption, nd: NodeDisruption, attempt: nat, gate: int, listed: seq<Budget>,
              synced: seq<Budget>)
    | Committing(read: NodeDisruption, attempt: nat, status: NDStatus, decision: Decision)
    | Removing(read: NodeDisruption, attempt: nat)

  /**
    History: hook calls, completed attempts on pending disruptions, and finalizers given up with what was recorded
    then.
   */
  datatype Event =
    | Called(attempt: nat, uid: nat, call: HookCall)
    | Committed(attempt: nat, uid: nat, spec: NDSpec, decision: Decision, state: NDState)
    | Released(attempt: nat, uid: nat, budgets: seq<BudgetCheck>)

  /** `order` lists the names of the granted disruptions, oldest grant first; `log` and `order` are history only. */
  datatype World = World(
    topology: Topology, cfg: Config, budgets: map<Ref, Budget>, nds: map<string, NodeDisruption>,
    rev: nat, clock: int, worker: Worker, attempts: nat, log: seq<Event>, order: seq<string>)

  datatype Step =
    // users, budget controllers and other finalizer owners
    | Create(name: string, spec: NDSpec, foreign: bool)
    | MarkDeleted(name: string)
    | EditForeign(name: string, present: bool)
    | SetBudgets(budgets: map<Ref, Budget>)
    | Tick(d: nat)
    // the worker
    | AddFinalizer(name: string)
    | Start(name: string, refs: seq<Ref>)
    | SyncNext(names: seq<string>)
    | Decide(names: seq<string>, answers: Answers, clock: Clock)
    | Commit
    | TerminatePass(name: string, answers: Answers, unreadable: set<Ref>)
    | RemoveFinalizer
    | Abort

  // ----- reads -----

  ghost predicate IsListing<T>(l: seq<T>, s: set<T>) {
    && (forall i, j | 0 <= i < j < |l| :: l[i] != l[j])
    && (set x | x in l) == s
  }

  lemma ListingMembers<T>(l: seq<T>, s: set<T>)
    requires IsListing(l, s)
    ensures forall x :: x in l <==> x in s
  {
    forall x ensures x in l <==> x in s {
      assert x in (set y | y in l) <==> x in l;
    }
  }

  ghost function Listed(w: World, names: seq<string>): seq<NodeDisruption>
    requires IsListing(names, w.nds.Keys)
  {
    ListingMembers(names, w.nds.Keys);
    seq(|names|, i requires 0 <= i < |names| => assert names[i] in names; w.nds[names[i]])
  }

  ghost function TopologyView(t: Topology): Client {
    Client(t, [], [], [], {})
  }

  /** What the API answers now, the disruptions in the given order. */
  ghost function View(w: World, names: seq<string>): Client
    requires IsListing(names, w.nds.Keys)
  {
    Client(w.topology, Listed(w, names), [], [], {})
  }

  lemma ViewSame(w: World, w': World, names: seq<string>)
    requires w'.nds == w.nds && w'.topology == w.topology && IsListing(names, w.nds.Keys)
    ensures View(w', names) == View(w, names)
  {
    assert Listed(w', names) == Listed(w, names);
  }

  ghost predicate WellKeyed(budgets: map<Ref, Budget>) {
    forall r | r in budgets :: budgets[r].GetNamespacedName() == r
  }

  function BudgetGetter(budgets: map<Ref, Budget>, unreadable: set<Ref>): Getter {
    r => if r in unreadable then Err else if r in budgets then Ok(Some(budgets[r])) else Ok(None)
  }

  // ----- writes -----

  function Without(l: seq<string>, x: string): seq<string> {
    if l == [] then []
    else Without(l[..|l| - 1], x) + if l[|l| - 1] == x then [] else [l[|l| - 1]]
  }

  function Put(w: World, nd: NodeDisruption): World {
    w.(nds := w.nds[nd.name := nd.(version := w.rev)], rev := w.rev + 1)
  }

  function Gone(w: World, name: string): World {
    w.(nds := w.nds - {name}, order := Without(w.order, name))
  }

  // ----- environment steps -----

  function ApplyCreate(w: World, name: string, spec: NDSpec, foreign: bool): World {
    if name in w.nds then w
    else Put(w, NodeDisruption(name, w.rev, w.rev, false, foreign, false, spec, EMPTY_STATUS))
  }

  function ApplyMarkDeleted(w: World, name: string): World {
    if name !in w.nds || w.nds[name].deleting then w
    else if !w.nds[name].finalizer && !w.nds[name].foreign then Gone(w, name)
    else Put(w, w.nds[name].(deleting := true))
  }

  /** No finalizer may be added to an object under deletion, and such an object leaves with its last one. */
  function ApplyEditForeign(w: World, name: string, present: bool): World {
    if name !in w.nds || (w.nds[name].deleting && present) then w
    else if w.nds[name].deleting && !w.nds[name].finalizer then Gone(w, name)
    else Put(w, w.nds[name].(foreign := present))
  }

  ghost function ApplySetBudgets(w: World, budgets: map<Ref, Budget>): World {
    if WellKeyed(budgets) then w.(budgets := budgets) else w
  }

  // ----- worker steps -----

  function ApplyAddFinalizer(w: World, name: string): World {
    if !w.worker.Idle? || name !in w.nds || w.nds[name].deleting || w.nds[name].finalizer then w
    else Put(w, w.nds[name].(finalizer := true))
  }

  ghost function Snapshot(w: World, refs: seq<Ref>): seq<Budget>
    requires IsListing(refs, w.budgets.Keys)
  {
    ListingMembers(refs, w.budgets.Keys);
    seq(|refs|, i requires 0 <= i < |refs| => assert refs[i] in refs; w.budgets[refs[i]])
  }

  ghost predicate CanStart(w: World, name: string) {
    && w.worker.Idle? && name in w.nds
    && !w.nds[name].deleting && w.nds[name].finalizer
    && !Before(w.clock, w.nds[name].status.nextRetry)
    && NodesForNodeSelector(TopologyView(w.topology), w.nds[name].spec.nodeSelector).Ok?
  }

  /** Get, handleFinalizer, the retry gate and Sync; a disruption that is not pending goes straight to its write. */
  ghost function ApplyStart(w: World, name: string, refs: seq<Ref>): World {
    if !CanStart(w, name) || !IsListing(refs, w.budgets.Keys) then w
    else
      var read := w.nds[name];
      var nd := WithNodes(read, NodesForNodeSelector(TopologyView(w.topology), read.spec.nodeSelector).value);
      var now := Decision(nd, TopologyView(w.topology), [],
                          Clock(w.clock, w.clock, w.clock, w.clock, w.clock, w.clock));
      var worker := match read.status.state
        case Unknown => Committing(read, w.attempts, nd.status.(state := Pending), now)
        case Pending => Syncing(read, nd, w.attempts, w.clock, Snapshot(w, refs), [])
        case _ => Committing(read, w.attempts, nd.status, now);
      w.(worker := worker, attempts := w.attempts + 1)
  }

  /** One iteration of the sync loop of GetAllBudgetsInSync, on the cluster as it is now. */
  ghost function ApplySyncNext(w: World, names: seq<string>): World {
    if !w.worker.Syncing? || |w.worker.synced| >= |w.worker.listed| || !IsListing(names, w.nds.Keys) then w
    else
      var b := w.worker.listed[|w.worker.synced|];
      var c := View(w, names);
      if SyncFails(c, b) then w.(worker := Idle)
      else w.(worker := w.worker.(synced := w.worker.synced + [b.(status := SyncedStatus(c, b).value)]))
  }

  ghost predicate CanDecide(w: World, names: seq<string>, k: Clock) {
    && w.worker.Syncing? && |w.worker.synced| == |w.worker.listed|
    && IsListing(names, w.nds.Keys)
    && k.Monotone() && k.gate == w.worker.gate && k.finalCheck <= w.clock
  }

  ghost function CallEvents(attempt: nat, uid: nat, calls: seq<HookCall>): (r: seq<Event>)
    ensures |r| == |calls| && forall i | 0 <= i < |r| :: r[i] == Called(attempt, uid, calls[i])
  {
    seq(|calls|, i requires 0 <= i < |calls| => Called(attempt, uid, calls[i]))
  }

  /**
    The rest of tryTransitionToGranted: internal checks, hooks, verdict. The hooks are called whatever the write does
    later.
   */
  ghost function ApplyDecide(w: World, names: seq<string>, answers: Answers, k: Clock): World {
    if !CanDecide(w, names, k) then w
    else
      match TryGrant(w.cfg, w.worker.nd, View(w, names), Ok(w.worker.synced), answers, k)
      case Err => w.(worker := Idle)
      case Ok(outcome) =>
        var decision := Decision(w.worker.nd, View(w, names), w.worker.synced, k);
        w.(worker := Committing(w.worker.read, w.worker.attempt, outcome.status, decision),
           log := w.log + CallEvents(w.worker.attempt, w.worker.read.uid, outcome.calls))
  }

  /** Nothing was written to the object since the worker read it. */
  predicate Unmoved(w: World, read: NodeDisruption) {
    read.name in w.nds && w.nds[read.name].version == read.version
  }

  /** UpdateStatus: skipped when nothing changed, refused when the stored object moved. */
  function ApplyCommit(w: World): World {
    if !w.worker.Committing? then w
    else if !Unmoved(w, w.worker.read) then w.(worker := Idle)
    else
      var read, status := w.worker.read, w.worker.status;
      var log := if read.status.state == Pending
                 then w.log + [Committed(w.worker.attempt, read.uid, read.spec, w.worker.decision, status.state)]
                     else w.log;
      var order := if read.status.state != Granted && status.state == Granted then w.order + [read.name] else w.order;
      var w' := w.(worker := Idle, log := log, order := order);
      if status == read.status then w' else Put(w', w.nds[read.name].(status := status))
  }

  ghost function ApplyTerminatePass(w: World, name: string, answers: Answers, unreadable: set<Ref>): World {
    if !w.worker.Idle? || name !in w.nds || !w.nds[name].deleting || !w.nds[name].finalizer then w
    else
      var read := w.nds[name];
      var get := BudgetGetter(w.budgets, unreadable);
      w.(worker := if AllTerminated(read.status.budgets, get, answers) then Removing(read, w.attempts) else Idle,
         attempts := w.attempts + 1,
         log := w.log + CallEvents(w.attempts, read.uid, TerminateCalls(read.status.budgets, read, get, answers)))
  }

  /** An object under deletion leaves the cluster with its last finalizer. */
  function ApplyRemoveFinalizer(w: World): World {
    if !w.worker.Removing? then w
    else if !Unmoved(w, w.worker.read) then w.(worker := Idle)
    else
      var read := w.worker.read;
      var name := read.name;
      var w' := w.(worker := Idle, log := w.log + [Released(w.worker.attempt, read.uid, read.status.budgets)]);
      if w.nds[name].foreign then Put(w', w.nds[name].(finalizer := false)) else Gone(w', name)
  }

  // ----- runs -----

  predicate IsEnvironment(s: Step) {
    s.Create? || s.MarkDeleted? || s.EditForeign? || s.SetBudgets? || s.Tick? || s.AddFinalizer? || s.Abort?
  }

  /**
    The steps whose effect does not depend on what the worker is doing; adding the finalizer is one conditional write.
   */
  ghost function ApplyEnvironment(w: World, s: Step): World
    requires IsEnvironment(s)
  {
    match s
    case Create(name, spec, foreign) => ApplyCreate(w, name, spec, foreign)
    case MarkDeleted(name) => ApplyMarkDeleted(w, name)
    case EditForeign(name, present) => ApplyEditForeign(w, name, present)
    case SetBudgets(budgets) => ApplySetBudgets(w, budgets)
    case Tick(d) => w.(clock := w.clock + d)
    case AddFinalizer(name) => ApplyAddFinalizer(w, name)
    case Abort => w.(worker := Idle)
  }

  ghost function ApplyWorker(w: World, s: Step): World
    requires !IsEnvironment(s)
  {
    match s
    case Start(name, refs) => ApplyStart(w, name, refs)
    case SyncNext(names) => ApplySyncNext(w, names)
    case Decide(names, answers, k) => ApplyDecide(w, names, answers, k)
    case Commit => ApplyCommit(w)
    case TerminatePass(name, answers, unreadable) => ApplyTerminatePass(w, name, answers, unreadable)
    case RemoveFinalizer => ApplyRemoveFinalizer(w)
  }

  ghost function Apply(w: World, s: Step): World {
    if IsEnvironment(s) then ApplyEnvironment(w, s) else ApplyWorker(w, s)
  }

  ghost function Run(w: World, steps: seq<Step>): World {
    if steps == [] then w else Apply(Run(w, steps[..|steps| - 1]), steps[|steps| - 1])
  }

  /** Any cluster with any budgets, before the first disruption. */
  ghost predicate Initial(w: World) {
    && w.nds == map[] && w.worker.Idle? && w.log == [] && w.order == []
    && WellKeyed(w.budgets)
  }

  lemma {:induction false} RunConcat(w: World, s: seq<Step>, t: seq<Step>)
    ensures Run(w, s + t) == Run(Run(w, s), t)
    decreases |t|
  {
    hide Apply;
    if t == [] {
      assert s + t == s;
    } else {
      RunConcat(w, s, t[..|t| - 1]);
      assert (s + t)[..|s + t| - 1] == s + t[..|t| - 1];
    }
  }

  lemma RunMore(w: World, s: seq<Step>, x: Step)
    ensures Run(w, s + [x]) == Apply(Run(w, s), x)
  {
    hide Apply;
    assert (s + [x])[..|s|] == s;
  }

  lemma RunOne(w: World, x: Step)
    ensures Run(w, [x]) == Apply(w, x)
  {
    hide Apply;
    assert [x][..0] == [];
  }

  lemma RunTwo(w: World, x: Step, y: Step)
    ensures Run(w, [x, y]) == Apply(Apply(w, x), y)
  {
    hide Apply;
    RunOne(w, x);
    assert [x, y][..1] == [x];
  }

  lemma RunThree(w: World, x: Step, y: Step, z: Step)
    ensures Run(w, [x, y, z]) == Apply(Apply(Apply(w, x), y), z)
  {
    hide Apply;
    RunTwo(w, x, y);
    assert [x, y, z][..2] == [x, y];
  }

  lemma RunFour(w: World, x: Step, y: Step, z: Step, last: Step)
    ensures Run(w, [x, y, z, last]) == Apply(Apply(Apply(Apply(w, x), y), z), last)
  {
    hide Apply;
    RunThree(w, x, y, z);
    assert [x, y, z, last][..3] == [x, y, z];
  }

  /** Only these steps change the stored disruptions. */
  predicate WritesStore(s: Step) {
    s.Create? || s.MarkDeleted? || s.EditForeign? || s.AddFinalizer? || s.Commit? || s.RemoveFinalizer?
  }

  lemma OthersLeaveStore(w: World, s: Step)
    requires !WritesStore(s)
    ensures Apply(w, s).nds == w.nds && Apply(w, s).order == w.order && Apply(w, s).rev == w.rev
  {
    hide TryGrant, SyncedStatus, SyncFails, TerminateCalls, AllTerminated, Snapshot, WithNodes;
  }

  lemma SettingsFixed(w: World, s: Step)
    ensures Apply(w, s).topology == w.topology && Apply(w, s).cfg == w.cfg
    ensures !s.SetBudgets? ==> Apply(w, s).budgets == w.budgets
  {
    hide TryGrant, SyncedStatus, SyncFails, TerminateCalls, AllTerminated, Snapshot, WithNodes;
  }

  // ----- nodes -----

  ghost function OrEmpty(r: Result<NodeSet>): NodeSet {
    match r
    case Ok(nodes) => nodes
    case Err => {}
  }

  /** The nodes a disruption covers. */
  ghost function Cover(t: Topology, spec: NDSpec): NodeSet {
    OrEmpty(NodesForNodeSelector(TopologyView(t), spec.nodeSelector))
  }

  /** The nodes a budget watches. */
  ghost function Watch(t: Topology, b: Budget): NodeSet {
    OrEmpty(WatchedNodes(TopologyView(t), b))
  }

  lemma SelectionNeedsTopologyOnly(c: Client, sel: LabelSelector)
    requires c.down == {}
    ensures NodesForNodeSelector(c, sel) == NodesForNodeSelector(TopologyView(c.topology), sel)
  {
  }

  lemma WatchNeedsTopologyOnly(c: Client, b: Budget)
    requires c.down == {}
    ensures WatchedNodes(c, b) == WatchedNodes(TopologyView(c.topology), b)
  {
    var v := TopologyView(c.topology);
    forall p: PVC ensures UnsafeClaim(c, p) == UnsafeClaim(v, p) && ClaimNodes(c, p) == ClaimNodes(v, p) {
    }
    if b.ADB? {
      assert AnyUnsafeClaim(c, b.pvcSelector, b.ns) == AnyUnsafeClaim(v, b.pvcSelector, b.ns);
      assert NodesOfClaims(c, b.pvcSelector, b.ns) == NodesOfClaims(v, b.pvcSelector, b.ns);
    }
  }
}
