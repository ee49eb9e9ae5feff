/**
  What is stored in budget statuses decides nothing: every attempt syncs its own copies first. Two clusters that
  differ only there, now and after every later status write, go through the same history, up to the nodes named in
  terminate calls.
 */
module Independence {
  import opened Types
  import opened Sorting
  import opened Resolver
  import opened BudgetSpec
  import opened Admission
  import opened Protocol

  ghost predicate SameBudgets(m: map<Ref, Budget>, m': map<Ref, Budget>) {
    m.Keys == m'.Keys && forall r | r in m :: m[r].SameSpec(m'[r])
  }

  ghost predicate SameList(l: seq<Budget>, l': seq<Budget>) {
    |l| == |l'| && forall i | 0 <= i < |l| :: l[i].SameSpec(l'[i])
  }

  ghost predicate SameWorker(x: Worker, y: Worker) {
    if x.Syncing? && y.Syncing? then x == y.(listed := x.listed) && SameList(x.listed, y.listed) else x == y
  }

  /** The same call, except that a terminate call may name other nodes. */
  ghost predicate SameCall(c: HookCall, c': HookCall) {
    c == c' || (c.kind == Terminate && c == c'.(nodes := c.nodes))
  }

  ghost predicate SameEvent(e: Event, e': Event) {
    if e.Called? && e'.Called? then e == e'.(call := e.call) && SameCall(e.call, e'.call) else e == e'
  }

  ghost predicate SameLog(l: seq<Event>, l': seq<Event>) {
    |l| == |l'| && forall i | 0 <= i < |l| :: SameEvent(l[i], l'[i])
  }

  /** The two worlds differ in stored budget statuses and the nodes of terminate calls only. */
  ghost predicate Alike(w: World, w': World) {
    && w == w'.(budgets := w.budgets, worker := w.worker, log := w.log)
    && SameBudgets(w.budgets, w'.budgets) && SameWorker(w.worker, w'.worker) && SameLog(w.log, w'.log)
  }

  ghost predicate SameStep(s: Step, s': Step) {
    if s.SetBudgets? && s'.SetBudgets? then SameBudgets(s.budgets, s'.budgets) else s == s'
  }

  ghost predicate SameSteps(s: seq<Step>, s': seq<Step>) {
    |s| == |s'| && forall i | 0 <= i < |s| :: SameStep(s[i], s'[i])
  }

  lemma SameLogAppend(l: seq<Event>, l': seq<Event>, attempt: nat, uid: nat, calls: seq<HookCall>,
      calls': seq<HookCall>)
    requires SameLog(l, l') && |calls| == |calls'| && forall i | 0 <= i < |calls| :: SameCall(calls[i], calls'[i])
    ensures SameLog(l + CallEvents(attempt, uid, calls), l' + CallEvents(attempt, uid, calls'))
  {
  }

  lemma SameLogOne(l: seq<Event>, l': seq<Event>, e: Event)
    requires SameLog(l, l')
    ensures SameLog(l + [e], l' + [e])
  {
  }

  lemma StartAlike(w: World, w': World, name: string, refs: seq<Ref>)
    requires Alike(w, w')
    ensures Alike(ApplyStart(w, name, refs), ApplyStart(w', name, refs))
  {
    hide Budget.SameSpec;
    if CanStart(w, name) && IsListing(refs, w.budgets.Keys) {
      SnapshotAlike(w, w', refs);
    }
  }

  lemma SnapshotAlike(w: World, w': World, refs: seq<Ref>)
    requires SameBudgets(w.budgets, w'.budgets) && IsListing(refs, w.budgets.Keys)
    ensures SameList(Snapshot(w, refs), Snapshot(w', refs))
  {
    ListingMembers(refs, w.budgets.Keys);
    forall i | 0 <= i < |refs| ensures Snapshot(w, refs)[i].SameSpec(Snapshot(w', refs)[i]) {
      assert refs[i] in refs;
    }
  }

  /** The synced copies are the same whatever was stored. */
  lemma SyncForgets(c: Client, b: Budget, b': Budget)
    requires b.SameSpec(b')
    ensures SyncFails(c, b) == SyncFails(c, b')
    ensures !SyncFails(c, b) ==> b.(status := SyncedStatus(c, b).value) == b'.(status := SyncedStatus(c, b').value)
  {
    SyncOverwritesStatus(c, b, b');
  }

  lemma SyncNextAlike(w: World, w': World, names: seq<string>)
    requires Alike(w, w')
    ensures Alike(ApplySyncNext(w, names), ApplySyncNext(w', names))
  {
    hide SyncFails, Budget.SameSpec;
    if w.worker.Syncing? && |w.worker.synced| < |w.worker.listed| && IsListing(names, w.nds.Keys) {
      var k := |w.worker.synced|;
      assert View(w, names) == View(w', names);
      SyncForgets(View(w, names), w.worker.listed[k], w'.worker.listed[k]);
    }
  }

  lemma DecideAlike(w: World, w': World, names: seq<string>, answers: Answers, k: Clock)
    requires Alike(w, w')
    ensures Alike(ApplyDecide(w, names, answers, k), ApplyDecide(w', names, answers, k))
  {
    hide TryGrant;
    if CanDecide(w, names, k) {
      assert View(w, names) == View(w', names);
      var outcome := TryGrant(w.cfg, w.worker.nd, View(w, names), Ok(w.worker.synced), answers, k);
      if outcome.Ok? {
        SameLogAppend(w.log, w'.log, w.worker.attempt, w.worker.read.uid, outcome.value.calls, outcome.value.calls);
      }
    }
  }

  lemma CommitAlike(w: World, w': World)
    requires Alike(w, w')
    ensures Alike(ApplyCommit(w), ApplyCommit(w'))
  {
    hide SameBudgets, SameLog;
    if w.worker.Committing? && Unmoved(w, w.worker.read) && w.worker.read.status.state == Pending {
      SameLogOne(w.log, w'.log,
                 Committed(w.worker.attempt, w.worker.read.uid, w.worker.read.spec, w.worker.decision,
                           w.worker.status.state));
    }
  }

  lemma RemoveFinalizerAlike(w: World, w': World)
    requires Alike(w, w')
    ensures Alike(ApplyRemoveFinalizer(w), ApplyRemoveFinalizer(w'))
  {
    hide SameBudgets, SameLog;
    if w.worker.Removing? && Unmoved(w, w.worker.read) {
      SameLogOne(w.log, w'.log, Released(w.worker.attempt, w.worker.read.uid, w.worker.read.status.budgets));
    }
  }

  lemma TerminateOneAlike(s: BudgetCheck, nd: NodeDisruption, m: map<Ref, Budget>, m': map<Ref, Budget>,
      unreadable: set<Ref>, answers: Answers)
    requires SameBudgets(m, m')
    ensures var get, get' := BudgetGetter(m, unreadable), BudgetGetter(m', unreadable);
            && TerminateFails(s, get, answers) == TerminateFails(s, get', answers)
            && var calls, calls' := TerminateCall(s, nd, get, answers), TerminateCall(s, nd, get', answers);
               |calls| == |calls'| && forall i | 0 <= i < |calls| :: SameCall(calls[i], calls'[i])
  {
  }

  lemma {:induction false} TerminateAlike(statuses: seq<BudgetCheck>, nd: NodeDisruption, m: map<Ref, Budget>,
      m': map<Ref, Budget>, unreadable: set<Ref>, answers: Answers)
    requires SameBudgets(m, m')
    ensures var get, get' := BudgetGetter(m, unreadable), BudgetGetter(m', unreadable);
            && AllTerminated(statuses, get, answers) == AllTerminated(statuses, get', answers)
            && var calls, calls' := TerminateCalls(statuses, nd, get, answers),
               TerminateCalls(statuses, nd, get', answers);
               |calls| == |calls'| && forall i | 0 <= i < |calls| :: SameCall(calls[i], calls'[i])
  {
    var get, get' := BudgetGetter(m, unreadable), BudgetGetter(m', unreadable);
    hide SameBudgets, BudgetGetter, TerminateFails, TerminateCall;
    forall s ensures TerminateFails(s, get, answers) == TerminateFails(s, get', answers) {
      TerminateOneAlike(s, nd, m, m', unreadable, answers);
    }
    if statuses != [] {
      TerminateAlike(statuses[..|statuses| - 1], nd, m, m', unreadable, answers);
      TerminateOneAlike(statuses[|statuses| - 1], nd, m, m', unreadable, answers);
    }
  }

  lemma TerminatePassAlike(w: World, w': World, name: string, answers: Answers, unreadable: set<Ref>)
    requires Alike(w, w')
    ensures Alike(ApplyTerminatePass(w, name, answers, unreadable), ApplyTerminatePass(w', name, answers, unreadable))
  {
    hide AllTerminated, TerminateCalls, SameBudgets, BudgetGetter;
    if w.worker.Idle? && name in w.nds && w.nds[name].deleting && w.nds[name].finalizer {
      var nd := w.nds[name];
      TerminateAlike(nd.status.budgets, nd, w.budgets, w'.budgets, unreadable, answers);
      SameLogAppend(w.log, w'.log, w.attempts, nd.uid,
                    TerminateCalls(nd.status.budgets, nd, BudgetGetter(w.budgets, unreadable), answers),
                    TerminateCalls(nd.status.budgets, nd, BudgetGetter(w'.budgets, unreadable), answers));
    }
  }

  lemma SetBudgetsAlike(w: World, w': World, budgets: map<Ref, Budget>, budgets': map<Ref, Budget>)
    requires Alike(w, w') && SameBudgets(budgets, budgets')
    ensures Alike(ApplySetBudgets(w, budgets), ApplySetBudgets(w', budgets'))
  {
    forall r | r in budgets ensures budgets[r].GetNamespacedName() == budgets'[r].GetNamespacedName() {
    }
    assert WellKeyed(budgets) == WellKeyed(budgets');
  }

  lemma EnvironmentAlike(w: World, w': World, s: Step, s': Step)
    requires Alike(w, w') && SameStep(s, s') && IsEnvironment(s)
    ensures IsEnvironment(s') && Alike(ApplyEnvironment(w, s), ApplyEnvironment(w', s'))
  {
    hide SameLog, SameBudgets, ApplySetBudgets;
    if s.SetBudgets? {
      SetBudgetsAlike(w, w', s.budgets, s'.budgets);
    }
  }

  lemma StepAlike(w: World, w': World, s: Step, s': Step)
    requires Alike(w, w') && SameStep(s, s')
    ensures Alike(Apply(w, s), Apply(w', s'))
  {
    hide Alike, ApplyEnvironment, ApplyStart, ApplySyncNext, ApplyDecide, ApplyCommit, ApplyTerminatePass,
         ApplyRemoveFinalizer;
    if IsEnvironment(s) {
      EnvironmentAlike(w, w', s, s');
    } else {
      match s
      case Start(name, refs) => StartAlike(w, w', name, refs);
      case SyncNext(names) => SyncNextAlike(w, w', names);
      case Decide(names, answers, k) => DecideAlike(w, w', names, answers, k);
      case Commit => CommitAlike(w, w');
      case TerminatePass(name, answers, unreadable) => TerminatePassAlike(w, w', name, answers, unreadable);
      case RemoveFinalizer => RemoveFinalizerAlike(w, w');
    }
  }

  /**
    Two clusters that differ only in stored budget statuses, taking the same steps but for the statuses written on the
    way, have the same disruptions, grants, attempts and prepare, ready and health calls throughout.
   */
  lemma {:induction false} StatusesDecideNothing(w: World, w': World, steps: seq<Step>, steps': seq<Step>)
    requires Alike(w, w') && SameSteps(steps, steps')
    ensures var r, r' := Run(w, steps), Run(w', steps');
            && Alike(r, r')
            && r.nds == r'.nds && r.order == r'.order && |r.log| == |r'.log|
            && forall i | 0 <= i < |r.log| && !(r.log[i].Called? && r.log[i].call.kind == Terminate) ::
                 r.log[i] == r'.log[i]
    decreases |steps|
  {
    hide Apply;
    if steps != [] {
      var n := |steps| - 1;
      StatusesDecideNothing(w, w', steps[..n], steps'[..n]);
      StepAlike(Run(w, steps[..n]), Run(w', steps'[..n]), steps[n], steps'[n]);
    }
  }

  /**
    A terminate call is not preceded by a Sync: it names the same nodes exactly when the stored statuses agree on the
    disrupted ones.
   */
  lemma TerminateNamesStoredNodes(b: Budget, b': Budget, nd: NodeDisruption)
    requires b.SameSpec(b')
    ensures HookBody(b, nd, Terminate) == HookBody(b', nd, Terminate)
        <==> (Elements(b.status.watched) * Elements(nd.status.nodes)
              == Elements(b'.status.watched) * Elements(nd.status.nodes))
  {
    var s, s' := Elements(b.status.watched) * Elements(nd.status.nodes),
        Elements(b'.status.watched) * Elements(nd.status.nodes);
    assert Elements(SortedList(s)) == s && Elements(SortedList(s')) == s';
  }
}
