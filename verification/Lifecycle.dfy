/** What every step keeps about the stored disruptions and the worker, and what it means for their life cycle. */
module Lifecycle {
  import opened Types
  import opened Sorting
  import opened Resolver
  import opened BudgetSpec
  import opened Admission
  import opened Protocol

  ghost predicate Selects(t: Topology, spec: NDSpec) {
    NodesForNodeSelector(TopologyView(t), spec.nodeSelector).Ok?
  }

  /** A disruption that has been looked at lists exactly the nodes its selector covers. */
  ghost predicate NodesRecorded(t: Topology, spec: NDSpec, status: NDStatus) {
    status.state != Unknown ==> Selects(t, spec) && status.nodes == SortedList(Cover(t, spec))
  }

  /** The state machine: Unknown, then Pending, then Granted or Rejected for good. */
  predicate Moves(s: NDState, s': NDState) {
    s == s' || s == Unknown || (s == Pending && s' != Unknown)
  }

  /** One write of the controller. */
  predicate WritesState(s: NDState, s': NDState) {
    match s
    case Unknown => s' == Pending
    case Pending => s' != Unknown
    case _ => s' == s
  }

  ghost predicate StoreInv(w: World) {
    forall n | n in w.nds ::
      && w.nds[n].name == n && w.nds[n].version < w.rev && w.nds[n].uid < w.rev
      && NodesRecorded(w.topology, w.nds[n].spec, w.nds[n].status)
  }

  ghost predicate UidInv(w: World) {
    forall n, m | n in w.nds && m in w.nds && n != m :: w.nds[n].uid != w.nds[m].uid
  }

  ghost predicate WorkerInv(w: World) {
    w.worker.Idle? ||
    (var read := w.worker.read;
     && w.worker.attempt < w.attempts
     && read.version < w.rev && read.uid < w.rev
     && (Unmoved(w, read) ==> w.nds[read.name] == read)
     && NodesRecorded(w.topology, read.spec, read.status)
     && match w.worker
        case Syncing(_, nd, _, gate, listed, synced) =>
          && read.status.state == Pending && !read.deleting && read.finalizer
          && nd == WithNodes(read, Cover(w.topology, read.spec)) && nd == read
          && gate <= w.clock && |synced| <= |listed|
        case Committing(_, _, status, _) =>
          && !read.deleting && read.finalizer
          && WritesState(read.status.state, status.state)
          && NodesRecorded(w.topology, read.spec, status)
          && (read.status.state == Granted || read.status.state == Rejected ==> status == read.status)
        case Removing(_, _) => read.deleting && read.finalizer)
  }

  ghost predicate LogInv(w: World) {
    forall e | e in w.log :: e.attempt < w.attempts && e.uid < w.rev
  }

  ghost predicate NoDuplicates(l: seq<string>) {
    forall i, j | 0 <= i < j < |l| :: l[i] != l[j]
  }

  ghost predicate OrderInv(w: World) {
    && NoDuplicates(w.order)
    && forall n :: n in w.order <==> n in w.nds && w.nds[n].status.state == Granted
  }

  ghost predicate WasReleased(w: World, uid: nat) {
    exists e | e in w.log :: e.Released? && e.uid == uid
  }

  /** Only a terminate pass separates a disruption that has been looked at from the controller's finalizer. */
  ghost predicate FinalizerInv(w: World) {
    forall n | n in w.nds && w.nds[n].status.state != Unknown && !w.nds[n].finalizer ::
      w.nds[n].deleting && WasReleased(w, w.nds[n].uid)
  }

  ghost predicate Inv(w: World) {
    && StoreInv(w) && UidInv(w) && WorkerInv(w) && LogInv(w) && OrderInv(w) && FinalizerInv(w) && WellKeyed(w.budgets)
  }

  lemma {:induction false} WithoutProperties(l: seq<string>, x: string)
    ensures forall y :: y in Without(l, x) <==> y in l && y != x
    ensures NoDuplicates(l) ==> NoDuplicates(Without(l, x))
  {
    if l != [] {
      var init, last := l[..|l| - 1], l[|l| - 1];
      assert l == init + [last];
      WithoutProperties(init, x);
      if NoDuplicates(l) {
        assert last !in init;
        assert last !in Without(init, x);
      }
    }
  }

  lemma SortedElements(s: set<string>)
    ensures Elements(SortedList(s)) == s
  {
  }

  lemma StartKeeps(w: World, name: string, refs: seq<Ref>)
    requires Inv(w)
    ensures Inv(ApplyStart(w, name, refs))
  {
  }

  lemma SyncNextKeeps(w: World, names: seq<string>)
    requires Inv(w)
    ensures Inv(ApplySyncNext(w, names))
  {
  }

  lemma DecideIs(w: World, names: seq<string>, answers: Answers, k: Clock)
    requires CanDecide(w, names, k)
    requires TryGrant(w.cfg, w.worker.nd, View(w, names), Ok(w.worker.synced), answers, k).Ok?
    ensures var outcome := TryGrant(w.cfg, w.worker.nd, View(w, names), Ok(w.worker.synced), answers, k).value;
            ApplyDecide(w, names, answers, k)
              == w.(worker := Committing(w.worker.read, w.worker.attempt, outcome.status,
                                         Decision(w.worker.nd, View(w, names), w.worker.synced, k)),
                    log := w.log + CallEvents(w.worker.attempt, w.worker.read.uid, outcome.calls))
  {
    hide TryGrant, View;
  }

  lemma DecideKeeps(w: World, names: seq<string>, answers: Answers, k: Clock)
    requires Inv(w)
    ensures Inv(ApplyDecide(w, names, answers, k))
  {
    hide TryGrant;
    if CanDecide(w, names, k) {
      var outcome := TryGrant(w.cfg, w.worker.nd, View(w, names), Ok(w.worker.synced), answers, k);
      if outcome.Ok? {
        OutcomeShape(w.cfg, w.worker.nd, View(w, names), w.worker.synced, answers, k);
        EventsAppended(w, w.worker.attempt, w.worker.read.uid, outcome.value.calls);
      }
    }
  }

  lemma EventsAppended(w: World, attempt: nat, uid: nat, calls: seq<HookCall>)
    ensures forall e | e in w.log + CallEvents(attempt, uid, calls) ::
              e in w.log || (e.attempt == attempt && e.uid == uid)
    ensures forall e | e in w.log :: e in w.log + CallEvents(attempt, uid, calls)
  {
  }

  lemma CommitKeeps(w: World)
    requires Inv(w)
    ensures Inv(ApplyCommit(w))
  {
    hide StoreInv, UidInv, WorkerInv, LogInv, OrderInv, FinalizerInv;
    CommitKeepsStore(w);
    CommitKeepsLog(w);
    CommitKeepsOrder(w);
  }

  lemma CommitKeepsStore(w: World)
    requires Inv(w)
    ensures StoreInv(ApplyCommit(w)) && UidInv(ApplyCommit(w))
  {
    hide LogInv, OrderInv, FinalizerInv, Selects;
    if w.worker.Committing? && Unmoved(w, w.worker.read) {
      assert w.nds[w.worker.read.name] == w.worker.read;
    }
  }

  lemma CommitKeepsLog(w: World)
    requires Inv(w)
    ensures LogInv(ApplyCommit(w)) && FinalizerInv(ApplyCommit(w)) && WorkerInv(ApplyCommit(w))
  {
    hide OrderInv, UidInv, NodesRecorded;
    if w.worker.Committing? && Unmoved(w, w.worker.read) {
      assert w.nds[w.worker.read.name] == w.worker.read;
      assert forall e | e in w.log :: e in ApplyCommit(w).log;
    }
  }

  lemma CommitKeepsOrder(w: World)
    requires Inv(w)
    ensures OrderInv(ApplyCommit(w))
  {
    hide LogInv, FinalizerInv, UidInv, NodesRecorded;
    if w.worker.Committing? && Unmoved(w, w.worker.read) {
      assert w.nds[w.worker.read.name] == w.worker.read;
    }
  }

  lemma TerminatePassKeeps(w: World, name: string, answers: Answers, unreadable: set<Ref>)
    requires Inv(w)
    ensures Inv(ApplyTerminatePass(w, name, answers, unreadable))
  {
    hide TerminateCalls, AllTerminated;
    if w.worker.Idle? && name in w.nds && w.nds[name].deleting && w.nds[name].finalizer {
      var nd := w.nds[name];
      EventsAppended(w, w.attempts, nd.uid,
                     TerminateCalls(nd.status.budgets, nd, BudgetGetter(w.budgets, unreadable), answers));
    }
  }

  lemma RemoveFinalizerKeeps(w: World)
    requires Inv(w)
    ensures Inv(ApplyRemoveFinalizer(w))
  {
    hide OrderInv;
    if w.worker.Removing? && Unmoved(w, w.worker.read) {
      var read := w.worker.read;
      var released := Released(w.worker.attempt, read.uid, read.status.budgets);
      ReleaseKeeps(w, released);
      var w' := w.(worker := Idle, log := w.log + [released]);
      if read.foreign {
        GiveUpKeeps(w', read.name);
      } else {
        GoneKeeps(w', read.name);
      }
    } else {
      SettingsKeep(w, Abort);
    }
  }

  lemma ReleaseKeeps(w: World, e: Event)
    requires Inv(w) && e.Released? && e.attempt < w.attempts && e.uid < w.rev
    ensures Inv(w.(worker := Idle, log := w.log + [e])) && WasReleased(w.(worker := Idle, log := w.log + [e]), e.uid)
  {
    assert forall x | x in w.log :: x in w.log + [e];
    assert e in w.log + [e];
  }

  lemma GiveUpKeeps(w: World, name: string)
    requires Inv(w) && w.worker.Idle? && name in w.nds && w.nds[name].deleting && WasReleased(w, w.nds[name].uid)
    ensures Inv(Put(w, w.nds[name].(finalizer := false)))
  {
  }

  /** A write that touches neither spec nor status. */
  lemma MetadataKeeps(w: World, nd: NodeDisruption)
    requires Inv(w) && nd.name in w.nds
    requires var was := w.nds[nd.name];
             nd == was.(finalizer := nd.finalizer, foreign := nd.foreign, deleting := nd.deleting)
    requires w.nds[nd.name].finalizer ==> nd.finalizer
    requires w.nds[nd.name].deleting ==> nd.deleting
    ensures Inv(Put(w, nd))
  {
  }

  lemma GoneKeeps(w: World, name: string)
    requires Inv(w)
    ensures Inv(Gone(w, name))
  {
    WithoutProperties(w.order, name);
  }

  lemma CreateKeeps(w: World, name: string, spec: NDSpec, foreign: bool)
    requires Inv(w)
    ensures Inv(ApplyCreate(w, name, spec, foreign))
  {
  }

  lemma SettingsKeep(w: World, s: Step)
    requires Inv(w) && (s.SetBudgets? || s.Tick? || s.Abort?)
    ensures Inv(ApplyEnvironment(w, s))
  {
  }

  lemma StepKeeps(w: World, s: Step)
    requires Inv(w)
    ensures Inv(Apply(w, s))
  {
    hide ApplyStart, ApplySyncNext, ApplyDecide, ApplyCommit, ApplyTerminatePass, ApplyRemoveFinalizer, UidInv,
         WorkerInv, LogInv, OrderInv, FinalizerInv;
    match s
    case Create(name, spec, foreign) => CreateKeeps(w, name, spec, foreign);
    case MarkDeleted(name) =>
      if name in w.nds {
        GoneKeeps(w, name);
        MetadataKeeps(w, w.nds[name].(deleting := true));
      }
    case EditForeign(name, present) =>
      if name in w.nds {
        GoneKeeps(w, name);
        MetadataKeeps(w, w.nds[name].(foreign := present));
      }
    case AddFinalizer(name) =>
      if name in w.nds {
        MetadataKeeps(w, w.nds[name].(finalizer := true));
      }
    case Start(name, refs) => StartKeeps(w, name, refs);
    case SyncNext(names) => SyncNextKeeps(w, names);
    case Decide(names, answers, k) => DecideKeeps(w, names, answers, k);
    case Commit => CommitKeeps(w);
    case TerminatePass(name, answers, unreadable) => TerminatePassKeeps(w, name, answers, unreadable);
    case RemoveFinalizer => RemoveFinalizerKeeps(w);
    case _ => SettingsKeep(w, s);
  }

  lemma {:induction false} RunKeeps(w: World, steps: seq<Step>)
    requires Inv(w)
    ensures Inv(Run(w, steps))
    decreases |steps|
  {
    hide Apply;
    if steps != [] {
      RunKeeps(w, steps[..|steps| - 1]);
      StepKeeps(Run(w, steps[..|steps| - 1]), steps[|steps| - 1]);
    }
  }

  lemma InitialInv(w: World)
    requires Initial(w)
    ensures Inv(w)
  {
  }

  /** Every reachable world satisfies the invariant. */
  lemma {:induction false} ReachableInv(w: World, steps: seq<Step>)
    requires Initial(w)
    ensures Inv(Run(w, steps))
  {
    InitialInv(w);
    RunKeeps(w, steps);
  }

  // ----- the life of one disruption -----

  /** `y` is a later version of the object `x`. */
  ghost predicate Continues(x: NodeDisruption, y: NodeDisruption) {
    && y.uid == x.uid && y.name == x.name && y.spec == x.spec
    && Moves(x.status.state, y.status.state)
    && (x.status.state == Granted || x.status.state == Rejected ==> y.status == x.status)
    && (x.deleting ==> y.deleting && y.status == x.status)
  }

  lemma PutContinues(w: World, nd: NodeDisruption, n: string)
    requires n in Put(w, nd).nds && Put(w, nd).nds[n].uid < w.rev
    requires if nd.name in w.nds then Continues(w.nds[nd.name], nd) else nd.uid >= w.rev
    ensures n in w.nds && Continues(w.nds[n], Put(w, nd).nds[n])
  {
  }

  lemma CommitContinues(w: World, n: string)
    requires Inv(w) && n in ApplyCommit(w).nds && ApplyCommit(w).nds[n].uid < w.rev
    ensures n in w.nds && Continues(w.nds[n], ApplyCommit(w).nds[n])
  {
    if w.worker.Committing? && Unmoved(w, w.worker.read) && w.worker.status != w.worker.read.status {
      var read := w.worker.read;
      assert w.nds[read.name] == read;
      PutContinues(w, read.(status := w.worker.status), n);
    }
  }

  lemma RemovalContinues(w: World, n: string)
    requires n in ApplyRemoveFinalizer(w).nds && ApplyRemoveFinalizer(w).nds[n].uid < w.rev && StoreInv(w)
    ensures n in w.nds && Continues(w.nds[n], ApplyRemoveFinalizer(w).nds[n])
  {
  }

  lemma StepContinues(w: World, s: Step, n: string)
    requires Inv(w) && n in Apply(w, s).nds && Apply(w, s).nds[n].uid < w.rev
    ensures n in w.nds && Continues(w.nds[n], Apply(w, s).nds[n])
  {
    hide ApplyStart, ApplySyncNext, ApplyDecide, ApplyCommit, ApplyTerminatePass, ApplyRemoveFinalizer;
    match s
    case Create(name, spec, foreign) =>
      if name !in w.nds {
        PutContinues(w, NodeDisruption(name, w.rev, w.rev, false, foreign, false, spec, EMPTY_STATUS), n);
      }
    case MarkDeleted(name) =>
      if Apply(w, s) != w && Apply(w, s) != Gone(w, name) {
        PutContinues(w, w.nds[name].(deleting := true), n);
      }
    case EditForeign(name, present) =>
      if Apply(w, s) != w && Apply(w, s) != Gone(w, name) {
        PutContinues(w, w.nds[name].(foreign := present), n);
      }
    case AddFinalizer(name) =>
      if Apply(w, s) != w {
        PutContinues(w, w.nds[name].(finalizer := true), n);
      }
    case Commit => CommitContinues(w, n);
    case RemoveFinalizer => RemovalContinues(w, n);
    case _ => OthersLeaveStore(w, s);
  }

  lemma StepRevision(w: World, s: Step)
    ensures w.rev <= Apply(w, s).rev
  {
    hide TryGrant, SyncedStatus, SyncFails, TerminateCalls, AllTerminated, Snapshot, WithNodes;
    if !WritesStore(s) {
      OthersLeaveStore(w, s);
    }
  }

  /**
    Along any run an object only moves from Unknown to Pending to Granted or Rejected; the last two are final; and once
    its deletion mark is set its status never changes again, because a status write carries the version it read.
   */
  lemma {:induction false} RunContinues(w: World, steps: seq<Step>, n: string)
    requires Inv(w) && n in Run(w, steps).nds && Run(w, steps).nds[n].uid < w.rev
    ensures n in w.nds && Continues(w.nds[n], Run(w, steps).nds[n])
    ensures w.rev <= Run(w, steps).rev
    decreases |steps|
  {
    hide Apply;
    if steps != [] {
      var init, last := steps[..|steps| - 1], steps[|steps| - 1];
      RunKeeps(w, init);
      RunRevision(w, init);
      StepContinues(Run(w, init), last, n);
      StepRevision(Run(w, init), last);
      RunContinues(w, init, n);
    }
  }

  lemma {:induction false} RunRevision(w: World, steps: seq<Step>)
    ensures w.rev <= Run(w, steps).rev
    decreases |steps|
  {
    hide Apply;
    if steps != [] {
      RunRevision(w, steps[..|steps| - 1]);
      StepRevision(Run(w, steps[..|steps| - 1]), steps[|steps| - 1]);
    }
  }

  ghost predicate Protected(w: World, n: string, uid: nat) {
    n in w.nds && w.nds[n].uid == uid && w.nds[n].finalizer
  }

  lemma StepProtects(w: World, s: Step, n: string, uid: nat)
    requires Inv(w) && (Protected(w, n, uid) || WasReleased(w, uid))
    ensures Protected(Apply(w, s), n, uid) || WasReleased(Apply(w, s), uid)
  {
    hide ApplyEnvironment, ApplyStart, ApplySyncNext, ApplyDecide, ApplyCommit, ApplyTerminatePass,
         ApplyRemoveFinalizer, Inv;
    if WasReleased(w, uid) {
      LogGrows(w, s);
    } else if IsEnvironment(s) {
      EnvironmentProtects(w, s, n, uid);
    } else if s.Commit? || s.RemoveFinalizer? {
      WritesProtect(w, n, uid);
    } else {
      OthersLeaveStore(w, s);
    }
  }

  lemma EnvironmentProtects(w: World, s: Step, n: string, uid: nat)
    requires Inv(w) && IsEnvironment(s) && Protected(w, n, uid)
    ensures Protected(ApplyEnvironment(w, s), n, uid)
  {
    hide UidInv, WorkerInv, LogInv, OrderInv, FinalizerInv;
  }

  lemma WritesProtect(w: World, n: string, uid: nat)
    requires Inv(w) && Protected(w, n, uid)
    ensures Protected(ApplyCommit(w), n, uid)
    ensures Protected(ApplyRemoveFinalizer(w), n, uid) || WasReleased(ApplyRemoveFinalizer(w), uid)
  {
    hide UidInv, LogInv, OrderInv, FinalizerInv;
    if w.worker.Removing? && Unmoved(w, w.worker.read) && w.worker.read.name == n {
      var read := w.worker.read;
      assert Released(w.worker.attempt, read.uid, read.status.budgets) in ApplyRemoveFinalizer(w).log;
    }
  }

  lemma LogGrows(w: World, s: Step)
    ensures w.log <= Apply(w, s).log
    ensures forall e | e in w.log :: e in Apply(w, s).log
  {
    hide TryGrant, SyncedStatus, SyncFails, TerminateCalls, AllTerminated, Snapshot, WithNodes;
    assert w.log <= Apply(w, s).log;
    forall e | e in w.log ensures e in Apply(w, s).log {
      var i :| 0 <= i < |w.log| && w.log[i] == e;
      assert Apply(w, s).log[i] == e;
    }
  }

  /** A disruption that has the finalizer is still there with it, or a terminate pass has given it up. */
  lemma {:induction false} LeavesOnlyReleased(w: World, steps: seq<Step>, n: string)
    requires Inv(w) && n in w.nds && w.nds[n].finalizer
    ensures Protected(Run(w, steps), n, w.nds[n].uid) || WasReleased(Run(w, steps), w.nds[n].uid)
    decreases |steps|
  {
    hide Apply;
    if steps != [] {
      var init, last := steps[..|steps| - 1], steps[|steps| - 1];
      LeavesOnlyReleased(w, init, n);
      RunKeeps(w, init);
      StepProtects(Run(w, init), last, n, w.nds[n].uid);
    }
  }
}
