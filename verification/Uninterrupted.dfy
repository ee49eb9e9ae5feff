/**
  A reconcile that nobody interrupts is a run of Protocol: the small steps, one after the other, do what the code
  does.
 */
module Uninterrupted {
  import opened Types
  import opened Sorting
  import opened Resolver
  import opened BudgetSpec
  import opened Admission
  import opened Protocol
  import opened Lifecycle
  import opened Controller
  import Labels
  import Watches

  /** What a client lists of the world, application budgets first. */
  ghost predicate Sees(c: Client, w: World, names: seq<string>, refs: seq<Ref>) {
    && IsListing(names, w.nds.Keys) && IsListing(refs, w.budgets.Keys)
    && c.topology == w.topology && c.nds == Listed(w, names)
    && c.adbs + c.ndbs == Snapshot(w, refs)
  }

  /** A Sync does not read the other budgets. */
  lemma SyncReadsNoBudgets(c: Client, c': Client, b: Budget)
    requires c.topology == c'.topology && c.nds == c'.nds && c.down == {} && c'.down == {}
    ensures SyncedStatus(c, b) == SyncedStatus(c', b)
  {
    WatchNeedsTopologyOnly(c, b);
    WatchNeedsTopologyOnly(c', b);
    forall nd ensures Covered(c, nd) == Covered(c', nd) {
      SelectionNeedsTopologyOnly(c, nd.spec.nodeSelector);
      SelectionNeedsTopologyOnly(c', nd.spec.nodeSelector);
    }
    Watches.SyncSame(c, c', b);
  }

  lemma DecisionReadsNoBudgets(cfg: Config, nd: NodeDisruption, c: Client, c': Client, budgets: Result<seq<Budget>>,
      answers: Answers, k: Clock)
    requires c.nds == c'.nds && c.down == c'.down
    ensures TryGrant(cfg, nd, c, budgets, answers, k) == TryGrant(cfg, nd, c', budgets, answers, k)
  {
    hide BudgetVerdict, BudgetCalls, Conclude;
    assert InternalVerdict(cfg, nd, c, k) == InternalVerdict(cfg, nd, c', k);
  }

  // ----- the sync loop -----

  function Syncs(names: seq<string>, n: nat): (r: seq<Step>)
    ensures |r| == n && forall i | 0 <= i < n :: r[i] == SyncNext(names)
  {
    seq(n, i => SyncNext(names))
  }

  /** The first n listed budgets, synced. */
  ghost predicate SyncedUpTo(c: Client, listed: seq<Budget>, synced: seq<Budget>) {
    && |synced| <= |listed|
    && forall i | 0 <= i < |synced| ::
         !SyncFails(c, listed[i]) && synced[i] == listed[i].(status := SyncedStatus(c, listed[i]).value)
  }

  lemma {:induction false} SyncLoop(w: World, names: seq<string>, n: nat)
    requires w.worker.Syncing? && w.worker.synced == [] && IsListing(names, w.nds.Keys) && n <= |w.worker.listed|
    ensures var r := Run(w, Syncs(names, n));
            && r == w.(worker := r.worker)
            && (if r.worker.Idle? then exists i ::
                 0 <= i < |w.worker.listed| && SyncFails(View(w, names), w.worker.listed[i])
                else && r.worker.Syncing? && r.worker == w.worker.(synced := r.worker.synced)
                     && |r.worker.synced| == n && SyncedUpTo(View(w, names), w.worker.listed, r.worker.synced))
    decreases n
  {
    hide Apply, SyncFails, View;
    if n > 0 {
      SyncLoop(w, names, n - 1);
      assert Syncs(names, n)[..n - 1] == Syncs(names, n - 1);
      var before := Run(w, Syncs(names, n - 1));
      SyncStep(before, names);
      ViewSame(w, before, names);
    }
  }

  lemma SyncStep(w: World, names: seq<string>)
    requires IsListing(names, w.nds.Keys)
    ensures var r := Apply(w, SyncNext(names));
            && r == w.(worker := r.worker)
            && (w.worker.Idle? ==> r == w)
            && (w.worker.Syncing? && |w.worker.synced| < |w.worker.listed| ==>
                  var b := w.worker.listed[|w.worker.synced|];
                  if SyncFails(View(w, names), b) then r.worker.Idle?
                  else r.worker == w.worker.(synced := w.worker.synced
                                             + [b.(status := SyncedStatus(View(w, names), b).value)]))
  {
    hide SyncedStatus;
  }

  /** When the loop gets through, it has what GetAllBudgetsInSync returns; when it does not, that fails too. */
  lemma LoopIsAllInSync(c: Client, v: Client, listed: seq<Budget>, synced: seq<Budget>)
    requires c.topology == v.topology && c.nds == v.nds && c.down == {} && v.down == {} && c.adbs + c.ndbs == listed
    ensures |synced| == |listed| && SyncedUpTo(v, listed, synced) ==> AllBudgetsInSync(c) == Ok(synced)
    ensures (exists i :: 0 <= i < |listed| && SyncFails(v, listed[i])) ==> AllBudgetsInSync(c).Err?
  {
    hide SyncedStatus;
    forall b ensures SyncedStatus(c, b) == SyncedStatus(v, b) {
      SyncReadsNoBudgets(c, v, b);
    }
    if |synced| == |listed| && SyncedUpTo(v, listed, synced) {
      assert !(exists b | b in listed :: SyncFails(c, b));
      assert AllBudgetsInSync(c).value == synced;
    }
    if i :| 0 <= i < |listed| && SyncFails(v, listed[i]) {
      assert listed[i] in listed && SyncFails(c, listed[i]);
    }
  }

  // ----- one attempt -----

  ghost predicate NoCalls(es: seq<Event>) {
    forall e | e in es :: !e.Called?
  }

  /** `r` is `w` after a reconcile with this effect: the stored object, the calls, and nothing else but history. */
  ghost predicate Reflects(w: World, r: World, name: string, effect: Effect, more: seq<Event>)
    requires name in w.nds
  {
    && r.worker.Idle? && r.topology == w.topology && r.cfg == w.cfg && r.budgets == w.budgets
    && r.nds == (match effect.stored
                 case Some(nd) => w.nds[name := nd]
                 case None => w.nds - {name})
    && r.log == w.log + CallEvents(w.attempts, w.nds[name].uid, effect.calls) + more && NoCalls(more)
  }

  lemma StartsSyncing(w: World, name: string, refs: seq<Ref>)
    requires Inv(w) && CanStart(w, name) && w.nds[name].status.state == Pending && IsListing(refs, w.budgets.Keys)
    ensures Apply(w, Start(name, refs))
         == w.(worker := Syncing(w.nds[name], w.nds[name], w.attempts, w.clock, Snapshot(w, refs), []),
               attempts := w.attempts + 1)
    ensures |Snapshot(w, refs)| == |refs|
    ensures NodesForNodeSelector(TopologyView(w.topology), w.nds[name].spec.nodeSelector).Ok?
    ensures WithNodes(w.nds[name], NodesForNodeSelector(TopologyView(w.topology), w.nds[name].spec.nodeSelector).value)
            == w.nds[name]
  {
    hide UidInv, LogInv, OrderInv, FinalizerInv;
  }

  /** The write of a reconcile, or what comes of it when the API server refuses writes. */
  function Write(s: Step, refuses: bool): Step {
    if refuses then Abort else s
  }

  /** The write at the end of an attempt. */
  lemma Lands(w: World, name: string, status: NDStatus, refuses: bool)
    requires w.worker.Committing? && name in w.nds && w.worker.read == w.nds[name] && w.nds[name].name == name
    requires w.worker.status == status
    ensures var r := Apply(w, Write(Commit, refuses));
            && r.worker.Idle? && r.topology == w.topology && r.cfg == w.cfg && r.budgets == w.budgets
            && r.nds == (if refuses || status == w.nds[name].status then w.nds
                         else w.nds[name := w.nds[name].(status := status, version := w.rev)])
            && exists more :: r.log == w.log + more && NoCalls(more)
  {
    if refuses {
      assert w.log == w.log + [] && NoCalls([]);
    } else {
      CommitLog(w);
    }
  }

  lemma CommitLog(w: World)
    requires w.worker.Committing? && Unmoved(w, w.worker.read)
    ensures exists more :: ApplyCommit(w).log == w.log + more && NoCalls(more)
  {
    var read := w.worker.read;
    var more := if read.status.state == Pending
                then [Committed(w.worker.attempt, read.uid, read.spec, w.worker.decision, w.worker.status.state)]
                    else [];
    assert ApplyCommit(w).log == w.log + more && NoCalls(more);
  }

  /** `r` is `w` after an attempt with this outcome. */
  ghost predicate Settled(w: World, r: World, name: string, outcome: Result<Outcome>, refuses: bool, more: seq<Event>)
    requires name in w.nds
  {
    var nd := w.nds[name];
    && r.worker.Idle? && r.topology == w.topology && r.cfg == w.cfg && r.budgets == w.budgets && NoCalls(more)
    && (if outcome.Err? then r.nds == w.nds && r.log == w.log + more
        else
          && r.nds == (if refuses || outcome.value.status == nd.status then w.nds
                       else w.nds[name := nd.(status := outcome.value.status, version := w.rev)])
          && r.log == w.log + CallEvents(w.attempts, nd.uid, outcome.value.calls) + more)
  }

  /** Decide and the write by a worker that has synced everything. */
  lemma DecideAndWrite(w: World, w3: World, name: string, names: seq<string>, answers: Answers, k: Clock, refuses: bool)
    requires name in w.nds && w.nds[name].name == name && IsListing(names, w.nds.Keys)
    requires k.Monotone() && k.gate == w.clock
    requires w3 == w.(worker := w3.worker, attempts := w3.attempts, clock := k.finalCheck)
    requires w3.worker.Syncing? && w3.worker.read == w3.worker.nd == w.nds[name] && w3.worker.attempt == w.attempts
    requires w3.worker.gate == w.clock && |w3.worker.synced| == |w3.worker.listed|
    ensures var r := Apply(Apply(w3, Decide(names, answers, k)), Write(Commit, refuses));
            var outcome := TryGrant(w.cfg, w.nds[name], View(w, names), Ok(w3.worker.synced), answers, k);
            exists more :: Settled(w, r, name, outcome, refuses, more)
  {
    hide TryGrant, ApplyCommit, Write;
    ViewSame(w, w3, names);
    var outcome := TryGrant(w.cfg, w.nds[name], View(w, names), Ok(w3.worker.synced), answers, k);
    var decided := Apply(w3, Decide(names, answers, k));
    if outcome.Ok? {
      Lands(decided, name, outcome.value.status, refuses);
      var more :| Apply(decided, Write(Commit, refuses)).log == decided.log + more && NoCalls(more);
      assert Settled(w, Apply(decided, Write(Commit, refuses)), name, outcome, refuses, more);
    } else {
      IdleStays(decided, names, answers, k, refuses);
      assert w.log + [] == w.log;
      assert Settled(w, Apply(decided, Write(Commit, refuses)), name, outcome, refuses, []);
    }
  }

  lemma IdleStays(w: World, names: seq<string>, answers: Answers, k: Clock, refuses: bool)
    requires w.worker.Idle?
    ensures Apply(w, Decide(names, answers, k)) == w && Apply(w, Write(Commit, refuses)) == w
  {
  }

  ghost function AttemptSteps(w: World, name: string, names: seq<string>, refs: seq<Ref>, answers: Answers, k: Clock,
      refuses: bool): seq<Step>
    requires k.finalCheck >= w.clock
  {
    [Start(name, refs)] + Syncs(names, |refs|)
    + [Tick(k.finalCheck - w.clock), Decide(names, answers, k), Write(Commit, refuses)]
  }

  lemma RunAttempt(w: World, name: string, names: seq<string>, refs: seq<Ref>, answers: Answers, k: Clock,
                   refuses: bool)
    requires k.finalCheck >= w.clock
    ensures Run(w, AttemptSteps(w, name, names, refs, answers, k, refuses))
         == Apply(Apply(Apply(Run(Apply(w, Start(name, refs)), Syncs(names, |refs|)),
                              Tick(k.finalCheck - w.clock)), Decide(names, answers, k)), Write(Commit, refuses))
  {
    hide Apply, Run, Write;
    var start, syncs := [Start(name, refs)], Syncs(names, |refs|);
    var tail := [Tick(k.finalCheck - w.clock), Decide(names, answers, k), Write(Commit, refuses)];
    RunConcat(w, start + syncs, tail);
    RunConcat(w, start, syncs);
    RunOne(w, Start(name, refs));
    RunThree(Run(w, start + syncs), tail[0], tail[1], tail[2]);
  }

  lemma OutcomeIsTryGrant(w: World, name: string, c: Client, names: seq<string>, refs: seq<Ref>, answers: Answers,
                          k: Clock)
    requires Inv(w) && Sees(c, w, names, refs) && c.down == {}
    requires CanStart(w, name) && w.nds[name].status.state == Pending
    ensures ReconcileOutcome(w.cfg, w.nds[name], c, answers, k)
         == TryGrant(w.cfg, w.nds[name], View(w, names), AllBudgetsInSync(c), answers, k)
  {
    hide TryGrant, AllBudgetsInSync, WithNodes, Inv;
    StartsSyncing(w, name, refs);
    SelectionNeedsTopologyOnly(c, w.nds[name].spec.nodeSelector);
    DecisionReadsNoBudgets(w.cfg, w.nds[name], c, View(w, names), AllBudgetsInSync(c), answers, k);
  }

  lemma FailedSync(w: World, w2: World, name: string, names: seq<string>, answers: Answers, k: Clock, refuses: bool,
      outcome: Result<Outcome>)
    requires name in w.nds && outcome.Err? && k.finalCheck >= w.clock
    requires w2 == w.(worker := Idle, attempts := w2.attempts)
    ensures Settled(w, Apply(Apply(Apply(w2, Tick(k.finalCheck - w.clock)), Decide(names, answers, k)),
                             Write(Commit, refuses)),
                    name, outcome, refuses, [])
  {
    hide ApplyWorker, Write;
    IdleStays(Apply(w2, Tick(k.finalCheck - w.clock)), names, answers, k, refuses);
    assert w.log + [] == w.log;
  }

  lemma NoBudgetsNoOutcome(cfg: Config, nd: NodeDisruption, c: Client, answers: Answers, k: Clock)
    ensures TryGrant(cfg, nd, c, Err, answers, k).Err?
  {
  }

  /** On a pending disruption, the steps of an attempt settle what ReconcileOutcome says. */
  lemma {:induction false} PendingAttempt(w: World, name: string, c: Client, names: seq<string>, refs: seq<Ref>,
      answers: Answers, k: Clock, refuses: bool)
    requires Inv(w) && Sees(c, w, names, refs) && c.down == {}
    requires CanStart(w, name) && w.nds[name].status.state == Pending
    requires k.Monotone() && k.gate == w.clock
    ensures exists more :: Settled(w, Run(w, AttemptSteps(w, name, names, refs, answers, k, refuses)), name,
                                   ReconcileOutcome(w.cfg, w.nds[name], c, answers, k), refuses, more)
  {
    hide Run, Apply, AllBudgetsInSync, TryGrant, Snapshot, SyncFails, Settled, WithNodes, ReconcileOutcome, UidInv,
         LogInv, OrderInv, FinalizerInv, NodesRecorded, SyncedUpTo, Write;
    StartsSyncing(w, name, refs);
    var w1 := Apply(w, Start(name, refs));
    SyncLoop(w1, names, |refs|);
    ViewSame(w, w1, names);
    var w2 := Run(w1, Syncs(names, |refs|));
    LoopIsAllInSync(c, View(w, names), Snapshot(w, refs), if w2.worker.Syncing? then w2.worker.synced else []);
    RunAttempt(w, name, names, refs, answers, k, refuses);
    OutcomeIsTryGrant(w, name, c, names, refs, answers, k);
    if w2.worker.Idle? {
      NoBudgetsNoOutcome(w.cfg, w.nds[name], View(w, names), answers, k);
      FailedSync(w, w2, name, names, answers, k, refuses, ReconcileOutcome(w.cfg, w.nds[name], c, answers, k));
    } else {
      TickIs(w2, k.finalCheck - w.clock);
      DecideAndWrite(w, Apply(w2, Tick(k.finalCheck - w.clock)), name, names, answers, k, refuses);
    }
  }

  lemma TickIs(w: World, d: nat)
    ensures Apply(w, Tick(d)) == w.(clock := w.clock + d)
  {
  }

  // ----- every reconcile -----

  lemma Unchanged(w: World, r: World, name: string, effect: Effect)
    requires name in w.nds && effect == Effect(Some(w.nds[name]), false, []) && w.worker.Idle?
    requires r == w.(clock := r.clock)
    ensures exists more :: Reflects(w, r, name, effect, more)
  {
    assert w.nds[name := w.nds[name]] == w.nds;
    assert w.log + CallEvents(w.attempts, w.nds[name].uid, []) + [] == w.log;
    assert Reflects(w, r, name, effect, []);
  }

  lemma SettledReflects(w: World, r: World, name: string, outcome: Result<Outcome>, refuses: bool, effect: Effect)
    requires name in w.nds && exists more :: Settled(w, r, name, outcome, refuses, more)
    requires effect == match outcome
                       case Err => Effect(Some(w.nds[name]), false, [])
                       case Ok(o) => if o.status == w.nds[name].status || refuses
                                     then Effect(Some(w.nds[name]), false, o.calls)
                                     else Effect(Some(w.nds[name].(status := o.status, version := w.rev)), true,
                                                 o.calls)
    ensures exists more :: Reflects(w, r, name, effect, more)
  {
    var more :| Settled(w, r, name, outcome, refuses, more);
    assert w.nds[name := w.nds[name]] == w.nds;
    assert w.log + CallEvents(w.attempts, w.nds[name].uid, []) == w.log;
    assert Reflects(w, r, name, effect, more);
  }

  /** A disruption that is new, or final already. */
  lemma OtherAttempt(w: World, name: string, c: Client, names: seq<string>, refs: seq<Ref>, answers: Answers, k: Clock,
      refuses: bool)
    requires Inv(w) && Sees(c, w, names, refs) && c.down == {}
    requires CanStart(w, name) && w.nds[name].status.state != Pending
    ensures exists more :: Settled(w, Run(w, [Start(name, refs), Write(Commit, refuses)]), name,
                                   ReconcileOutcome(w.cfg, w.nds[name], c, answers, k), refuses, more)
  {
    hide Run, TryGrant, UidInv, LogInv, OrderInv, FinalizerInv, NodesRecorded, ApplyCommit, Write, Settled;
    RunTwo(w, Start(name, refs), Write(Commit, refuses));
    SelectionNeedsTopologyOnly(c, w.nds[name].spec.nodeSelector);
    var outcome := ReconcileOutcome(w.cfg, w.nds[name], c, answers, k);
    var started := Apply(w, Start(name, refs));
    Lands(started, name, outcome.value.status, refuses);
    var more :| Apply(started, Write(Commit, refuses)).log == started.log + more && NoCalls(more);
    CalledNobody(w, Apply(started, Write(Commit, refuses)), name, outcome, refuses, more);
  }

  lemma CalledNobody(w: World, r: World, name: string, outcome: Result<Outcome>, refuses: bool, more: seq<Event>)
    requires name in w.nds && outcome.Ok? && outcome.value.calls == [] && NoCalls(more)
    requires r.worker.Idle? && r.topology == w.topology && r.cfg == w.cfg && r.budgets == w.budgets
             && r.log == w.log + more
    requires r.nds == if refuses || outcome.value.status == w.nds[name].status then w.nds
                      else w.nds[name := w.nds[name].(status := outcome.value.status, version := w.rev)]
    ensures Settled(w, r, name, outcome, refuses, more)
  {
    assert w.log + CallEvents(w.attempts, w.nds[name].uid, []) == w.log;
  }

  lemma TerminateReflects(w: World, name: string, answers: Answers, unreadable: set<Ref>, refuses: bool, effect: Effect)
    requires Inv(w) && w.worker.Idle? && name in w.nds && w.nds[name].deleting && w.nds[name].finalizer
    requires effect == ReconcileEffect(w.cfg, w.nds[name], TopologyView(w.topology),
                                       BudgetGetter(w.budgets, unreadable), answers,
                                       Clock(0, 0, 0, 0, 0, 0), w.rev, refuses)
    ensures exists more :: Reflects(w,
                                    Run(w, [TerminatePass(name, answers, unreadable), Write(RemoveFinalizer, refuses)]),
                                        name,
                                    effect, more)
  {
    hide Run, TerminateCalls, AllTerminated, ReconcileOutcome, UidInv, LogInv, OrderInv, FinalizerInv, NodesRecorded,
         BudgetGetter;
    RunTwo(w, TerminatePass(name, answers, unreadable), Write(RemoveFinalizer, refuses));
    var r := Run(w, [TerminatePass(name, answers, unreadable), Write(RemoveFinalizer, refuses)]);
    var nd := w.nds[name];
    var log := w.log + CallEvents(w.attempts, nd.uid, effect.calls);
    assert w.nds[name := nd] == w.nds;
    var more := if AllTerminated(nd.status.budgets, BudgetGetter(w.budgets, unreadable), answers) && !refuses
                then [Released(w.attempts, nd.uid, nd.status.budgets)] else [];
    assert log + [] == log;
    assert Reflects(w, r, name, effect, more);
  }

  lemma AddReflects(w: World, name: string, effect: Effect)
    requires w.worker.Idle? && name in w.nds && w.nds[name].name == name && !w.nds[name].deleting
             && !w.nds[name].finalizer
    requires effect == Effect(Some(w.nds[name].(finalizer := true, version := w.rev)), true, [])
    ensures exists more :: Reflects(w, Run(w, [AddFinalizer(name)]), name, effect, more)
  {
    hide Run;
    RunOne(w, AddFinalizer(name));
    assert w.log + CallEvents(w.attempts, w.nds[name].uid, []) + [] == w.log;
    assert Reflects(w, Run(w, [AddFinalizer(name)]), name, effect, []);
  }

  // ----- reads that fail -----

  /** The same client with nothing failing. */
  function Up(c: Client): Client {
    c.(down := {})
  }

  lemma SelectionUp(c: Client, sel: LabelSelector)
    ensures NodesForNodeSelector(c, sel).Ok? ==> NodesForNodeSelector(c, sel) == NodesForNodeSelector(Up(c), sel)
  {
  }

  lemma ClaimsUp(c: Client, sel: LabelSelector, ns: string)
    ensures NodesForPVCSelector(c, sel, ns).Ok? ==>
              NodesForPVCSelector(c, sel, ns) == NodesForPVCSelector(Up(c), sel, ns)
  {
    if NodesForPVCSelector(c, sel, ns).Ok? && !Labels.EmptySelector(sel) {
      forall p: PVC | p in c.topology.pvcs && PVCSelected(p, sel, ns)
        ensures !UnsafeClaim(Up(c), p) && ClaimNodes(c, p) == ClaimNodes(Up(c), p)
      {
        assert !UnsafeClaim(c, p);
      }
      assert NodesOfClaims(c, sel, ns) == NodesOfClaims(Up(c), sel, ns);
    }
  }

  /** A Sync that got through read what it would have read with nothing failing. */
  lemma SyncUp(c: Client, b: Budget)
    requires !SyncFails(c, b)
    ensures SyncedStatus(c, b) == SyncedStatus(Up(c), b)
  {
    match b
    case ADB(ns, _, _, podSelector, pvcSelector, _, _, _, _) =>
      ClaimsUp(c, pvcSelector, ns);
      SyncUpFrom(c, b);
    case NDB(_, _, _, nodeSelector, _, _) =>
      SelectionUp(c, nodeSelector);
      SyncUpFrom(c, b);
  }

  lemma SyncUpFrom(c: Client, b: Budget)
    requires !SyncFails(c, b) && WatchedNodes(c, b) == WatchedNodes(Up(c), b)
    ensures SyncedStatus(c, b) == SyncedStatus(Up(c), b)
  {
    hide WatchedNodes;
    forall nd | nd in c.nds && nd.status.state != Unknown ensures Covered(c, nd) == Covered(Up(c), nd) {
      SelectionUp(c, nd.spec.nodeSelector);
    }
    Watches.TouchingSame(c, Up(c), WatchedNodes(c, b).value, c.nds);
  }

  lemma BudgetsUp(c: Client)
    requires AllBudgetsInSync(c).Ok?
    ensures AllBudgetsInSync(c) == AllBudgetsInSync(Up(c))
  {
    hide SyncedStatus;
    var all := c.adbs + c.ndbs;
    forall b | b in all ensures SyncedStatus(c, b) == SyncedStatus(Up(c), b) {
      SyncUp(c, b);
    }
    assert AllBudgetsInSync(c).value == AllBudgetsInSync(Up(c)).value;
  }

  lemma InternalUp(cfg: Config, nd: NodeDisruption, c: Client, k: Clock)
    ensures InternalVerdict(cfg, nd, c, k).Ok? ==> InternalVerdict(cfg, nd, c, k) == InternalVerdict(cfg, nd, Up(c), k)
  {
  }

  /** So an attempt either fails, or decides what it would have decided with nothing failing. */
  lemma OutcomeUp(cfg: Config, nd: NodeDisruption, c: Client, answers: Answers, k: Clock)
    requires ReconcileOutcome(cfg, nd, c, answers, k).Ok?
    ensures ReconcileOutcome(cfg, nd, c, answers, k) == ReconcileOutcome(cfg, nd, Up(c), answers, k)
  {
    hide AllBudgetsInSync, InternalVerdict, BudgetVerdict, BudgetCalls, Conclude;
    SelectionUp(c, nd.spec.nodeSelector);
    if nd.status.state == Pending {
      BudgetsUp(c);
      InternalUp(cfg, WithNodes(nd, NodesForNodeSelector(c, nd.spec.nodeSelector).value), c, k);
    }
  }

  // ----- the theorem -----

  lemma StartRefused(w: World, name: string, c: Client, names: seq<string>, refs: seq<Ref>, answers: Answers, k: Clock)
    requires w.worker.Idle? && name in w.nds && !w.nds[name].deleting && w.nds[name].finalizer && !CanStart(w, name)
    requires Sees(c, w, names, refs)
    ensures Before(w.clock, w.nds[name].status.nextRetry) || ReconcileOutcome(w.cfg, w.nds[name], c, answers, k).Err?
  {
    SelectionUp(c, w.nds[name].spec.nodeSelector);
    SelectionNeedsTopologyOnly(Up(c), w.nds[name].spec.nodeSelector);
  }

  lemma StartedAttempt(w: World, name: string, c: Client, names: seq<string>, refs: seq<Ref>, answers: Answers,
                       k: Clock,
      refuses: bool) returns (steps: seq<Step>)
    requires Inv(w) && Sees(c, w, names, refs) && c.down == {} && CanStart(w, name)
    requires k.Monotone() && k.gate == w.clock
    ensures forall s | s in steps :: !IsEnvironment(s) || s.Tick? || s.Abort?
    ensures exists more :: Settled(w, Run(w, steps), name, ReconcileOutcome(w.cfg, w.nds[name], c, answers, k), refuses,
                                   more)
  {
    hide Run, Settled, ReconcileOutcome, Inv;
    if w.nds[name].status.state == Pending {
      PendingAttempt(w, name, c, names, refs, answers, k, refuses);
      steps := AttemptSteps(w, name, names, refs, answers, k, refuses);
    } else {
      OtherAttempt(w, name, c, names, refs, answers, k, refuses);
      steps := [Start(name, refs), Write(Commit, refuses)];
    }
  }

  /**
    What a reconcile that nobody interrupts stores and sends, whether or not reads fail and writes are refused, the
    worker stores and sends in some run of its own steps.
   */
  lemma {:induction false} ReconcileIsRun(w: World, name: string, c: Client, names: seq<string>, refs: seq<Ref>,
      answers: Answers, k: Clock, unreadable: set<Ref>, refuses: bool) returns (steps: seq<Step>)
    requires Inv(w) && w.worker.Idle? && name in w.nds && Sees(c, w, names, refs)
    requires k.Monotone() && k.gate == w.clock
    ensures forall s | s in steps :: !IsEnvironment(s) || s.Tick? || s.Abort? || s.AddFinalizer?
    ensures var effect := ReconcileEffect(w.cfg, w.nds[name], c, BudgetGetter(w.budgets, unreadable), answers, k, w.rev,
                                          refuses);
            exists more :: Reflects(w, Run(w, steps), name, effect, more)
  {
    hide Run, Reflects, Settled, ReconcileOutcome, TerminateCalls, AllTerminated, BudgetGetter, UidInv, LogInv,
         OrderInv, FinalizerInv, NodesRecorded, CanStart;
    var nd := w.nds[name];
    var effect := ReconcileEffect(w.cfg, nd, c, BudgetGetter(w.budgets, unreadable), answers, k, w.rev, refuses);
    var outcome := ReconcileOutcome(w.cfg, nd, c, answers, k);
    steps := [];
    RunNothing(w);
    if nd.deleting && nd.finalizer {
      TerminateReflects(w, name, answers, unreadable, refuses, effect);
      steps := [TerminatePass(name, answers, unreadable), Write(RemoveFinalizer, refuses)];
    } else if nd.deleting || (!nd.finalizer && refuses) {
      Unchanged(w, w, name, effect);
    } else if !nd.finalizer {
      AddReflects(w, name, effect);
      steps := [AddFinalizer(name)];
    } else if Before(k.gate, nd.status.nextRetry) || outcome.Err? {
      Unchanged(w, w, name, effect);
    } else {
      if !CanStart(w, name) {
        StartRefused(w, name, c, names, refs, answers, k);
      }
      OutcomeUp(w.cfg, nd, c, answers, k);
      steps := StartedAttempt(w, name, Up(c), names, refs, answers, k, refuses);
      SettledReflects(w, Run(w, steps), name, outcome, refuses, effect);
    }
  }

  lemma RunNothing(w: World)
    ensures Run(w, []) == w
  {
  }
}
