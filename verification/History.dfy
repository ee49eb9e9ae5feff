/** Where the events of the history come from: the steps behind them, and their order. */
module History {
  import opened Types
  import opened BudgetSpec
  import opened Admission
  import opened Protocol
  import opened Lifecycle

  // ----- order -----

  /** Attempts come one after the other, and a completed attempt or a given up finalizer ends its own. */
  ghost predicate OrderedLog(log: seq<Event>) {
    forall i, j | 0 <= i < j < |log| ::
        if log[i].Called? then log[i].attempt <= log[j].attempt else log[i].attempt < log[j].attempt
  }

  ghost predicate WorkerLast(w: World) {
    match w.worker
    case Idle => true
    case Syncing(_, _, attempt, _, _, _) => forall e | e in w.log :: e.attempt < attempt
    case _ => forall e | e in w.log :: e.attempt < w.worker.attempt || (e.attempt == w.worker.attempt && e.Called?)
  }

  ghost predicate Ordered(w: World) {
    OrderedLog(w.log) && WorkerLast(w)
  }

  lemma CallsOrdered(log: seq<Event>, attempt: nat, uid: nat, calls: seq<HookCall>)
    requires OrderedLog(log) && forall e | e in log :: e.attempt < attempt
    ensures OrderedLog(log + CallEvents(attempt, uid, calls))
  {
    var l := log + CallEvents(attempt, uid, calls);
    forall i, j | 0 <= i < j < |l|
      ensures if l[i].Called? then l[i].attempt <= l[j].attempt else l[i].attempt < l[j].attempt
    {
      if i < |log| {
        assert l[i] == log[i] && log[i] in log;
      }
    }
  }

  lemma LastOrdered(log: seq<Event>, e: Event)
    requires OrderedLog(log) && forall x | x in log :: x.attempt < e.attempt || (x.attempt == e.attempt && x.Called?)
    ensures OrderedLog(log + [e])
  {
    var l := log + [e];
    forall i, j | 0 <= i < j < |l|
      ensures if l[i].Called? then l[i].attempt <= l[j].attempt else l[i].attempt < l[j].attempt
    {
      assert l[i] == log[i] && log[i] in log;
    }
  }

  lemma EnvironmentOrdered(w: World, s: Step)
    requires Ordered(w) && IsEnvironment(s)
    ensures Ordered(ApplyEnvironment(w, s))
  {
    hide OrderedLog;
  }

  lemma StartOrdered(w: World, name: string, refs: seq<Ref>)
    requires Inv(w) && Ordered(w)
    ensures Ordered(ApplyStart(w, name, refs))
  {
    hide OrderedLog, StoreInv, UidInv, OrderInv, FinalizerInv, WorkerInv;
  }

  lemma SyncNextOrdered(w: World, names: seq<string>)
    requires Ordered(w)
    ensures Ordered(ApplySyncNext(w, names))
  {
    hide OrderedLog, SyncedStatus, SyncFails;
  }

  lemma DecideOrdered(w: World, names: seq<string>, answers: Answers, k: Clock)
    requires Ordered(w)
    ensures Ordered(ApplyDecide(w, names, answers, k))
  {
    hide OrderedLog, TryGrant, View;
    if CanDecide(w, names, k) {
      var outcome := TryGrant(w.cfg, w.worker.nd, View(w, names), Ok(w.worker.synced), answers, k);
      if outcome.Ok? {
        CallsOrdered(w.log, w.worker.attempt, w.worker.read.uid, outcome.value.calls);
      }
    }
  }

  lemma CommitOrdered(w: World)
    requires Ordered(w)
    ensures Ordered(ApplyCommit(w))
  {
    hide OrderedLog;
    if w.worker.Committing? {
      LastOrdered(w.log, Committed(w.worker.attempt, w.worker.read.uid, w.worker.read.spec, w.worker.decision,
                                   w.worker.status.state));
    }
  }

  lemma TerminatePassOrdered(w: World, name: string, answers: Answers, unreadable: set<Ref>)
    requires Inv(w) && Ordered(w)
    ensures Ordered(ApplyTerminatePass(w, name, answers, unreadable))
  {
    hide OrderedLog, TerminateCalls, AllTerminated, StoreInv, UidInv, OrderInv, FinalizerInv, WorkerInv;
    if w.worker.Idle? && name in w.nds && w.nds[name].deleting && w.nds[name].finalizer {
      var nd := w.nds[name];
      CallsOrdered(w.log, w.attempts, nd.uid,
                   TerminateCalls(nd.status.budgets, nd, BudgetGetter(w.budgets, unreadable), answers));
    }
  }

  lemma RemoveFinalizerOrdered(w: World)
    requires Ordered(w)
    ensures Ordered(ApplyRemoveFinalizer(w))
  {
    hide OrderedLog;
    if w.worker.Removing? {
      LastOrdered(w.log, Released(w.worker.attempt, w.worker.read.uid, w.worker.read.status.budgets));
    }
  }

  lemma StepOrdered(w: World, s: Step)
    requires Inv(w) && Ordered(w)
    ensures Ordered(Apply(w, s))
  {
    hide ApplyEnvironment, ApplyStart, ApplySyncNext, ApplyDecide, ApplyCommit, ApplyTerminatePass,
         ApplyRemoveFinalizer, Ordered, Inv;
    if IsEnvironment(s) {
      EnvironmentOrdered(w, s);
    } else {
      match s
      case Start(name, refs) => StartOrdered(w, name, refs);
      case SyncNext(names) => SyncNextOrdered(w, names);
      case Decide(names, answers, k) => DecideOrdered(w, names, answers, k);
      case Commit => CommitOrdered(w);
      case TerminatePass(name, answers, unreadable) => TerminatePassOrdered(w, name, answers, unreadable);
      case RemoveFinalizer => RemoveFinalizerOrdered(w);
    }
  }

  lemma {:induction false} RunOrdered(w: World, steps: seq<Step>)
    requires Initial(w)
    ensures Ordered(Run(w, steps))
    decreases |steps|
  {
    hide Apply;
    if steps != [] {
      var init, last := steps[..|steps| - 1], steps[|steps| - 1];
      RunOrdered(w, init);
      ReachableInv(w, init);
      StepOrdered(Run(w, init), last);
    }
  }

  // ----- the steps behind the events -----

  /**
    Step k is the Decide behind a completed attempt, or one still to be written; `before` is the history up to that
    event.
   */
  ghost predicate DecidedAt(w: World, steps: seq<Step>, k: int, before: seq<Event>, e: Event) {
    && 0 <= k < |steps| && steps[k].Decide? && e.Committed?
    && var r, s := Run(w, steps[..k]), steps[k];
       && CanDecide(r, s.names, s.clock)
       && e.attempt == r.worker.attempt && e.uid == r.worker.read.uid && e.spec == r.worker.read.spec
       && e.decision == Decision(r.worker.nd, View(r, s.names), r.worker.synced, s.clock)
       && var outcome := TryGrant(r.cfg, r.worker.nd, View(r, s.names), Ok(r.worker.synced), s.answers, s.clock);
          && outcome.Ok? && outcome.value.status.state == e.state
          && r.log + CallEvents(e.attempt, e.uid, outcome.value.calls) <= before
  }

  /** Step k is the TerminatePass behind a finalizer given up, or about to be. */
  ghost predicate PassedAt(w: World, steps: seq<Step>, k: int, before: seq<Event>, e: Event) {
    && 0 <= k < |steps| && steps[k].TerminatePass? && e.Released?
    && var r, s := Run(w, steps[..k]), steps[k];
       && r.worker.Idle? && s.name in r.nds && r.nds[s.name].deleting && r.nds[s.name].finalizer
       && e.attempt == r.attempts && e.uid == r.nds[s.name].uid && e.budgets == r.nds[s.name].status.budgets
       && var get := BudgetGetter(r.budgets, s.unreadable);
          && AllTerminated(e.budgets, get, s.answers)
          && r.log + CallEvents(e.attempt, e.uid, TerminateCalls(e.budgets, r.nds[s.name], get, s.answers)) <= before
  }

  ghost predicate Explained(w: World, steps: seq<Step>, before: seq<Event>, e: Event) {
    && (e.Committed? ==> exists k :: DecidedAt(w, steps, k, before, e))
    && (e.Released? ==> exists k :: PassedAt(w, steps, k, before, e))
  }

  ghost predicate WorkerExplained(w: World, steps: seq<Step>, r: World) {
    match r.worker
    case Committing(read, attempt, status, decision) =>
      read.status.state == Pending ==>
        Explained(w, steps, r.log, Committed(attempt, read.uid, read.spec, decision, status.state))
    case Removing(read, attempt) => Explained(w, steps, r.log, Released(attempt, read.uid, read.status.budgets))
    case _ => true
  }

  ghost predicate AllExplained(w: World, steps: seq<Step>) {
    var r := Run(w, steps);
    WorkerExplained(w, steps, r) && forall i | 0 <= i < |r.log| :: Explained(w, steps, r.log[..i], r.log[i])
  }

  lemma LaterExplained(w: World, steps: seq<Step>, s: Step, before: seq<Event>, later: seq<Event>, e: Event)
    requires Explained(w, steps, before, e) && before <= later
    ensures Explained(w, steps + [s], later, e)
  {
    hide Run, CanDecide, TryGrant, AllTerminated, TerminateCalls, View;
    var all := steps + [s];
    if e.Committed? {
      var k :| DecidedAt(w, steps, k, before, e);
      assert all[..k] == steps[..k] && all[k] == steps[k];
      assert DecidedAt(w, all, k, later, e);
    }
    if e.Released? {
      var k :| PassedAt(w, steps, k, before, e);
      assert all[..k] == steps[..k] && all[k] == steps[k];
      assert PassedAt(w, all, k, later, e);
    }
  }

  lemma OthersLogCalls(w: World, s: Step)
    requires !s.Commit? && !s.RemoveFinalizer?
    ensures w.log <= Apply(w, s).log && forall i | |w.log| <= i < |Apply(w, s).log| :: Apply(w, s).log[i].Called?
  {
    hide TryGrant, SyncedStatus, SyncFails, TerminateCalls, AllTerminated, Snapshot, WithNodes, View;
  }

  /** A step that logs calls only leaves everything explained but possibly the worker's next event. */
  lemma LogStaysExplained(w: World, steps: seq<Step>, s: Step)
    requires AllExplained(w, steps)
    ensures var r, r' := Run(w, steps), Apply(Run(w, steps), s);
            && (forall i | 0 <= i < |r.log| :: i < |r'.log| && Explained(w, steps + [s], r'.log[..i], r'.log[i]))
            && (r'.worker == r.worker ==> WorkerExplained(w, steps + [s], r'))
  {
    hide Apply, Run, Explained;
    var r, r' := Run(w, steps), Apply(Run(w, steps), s);
    LogGrows(r, s);
    forall i | 0 <= i < |r.log| ensures i < |r'.log| && Explained(w, steps + [s], r'.log[..i], r'.log[i]) {
      assert r'.log[..i] == r.log[..i] && r'.log[i] == r.log[i];
      LaterExplained(w, steps, s, r.log[..i], r'.log[..i], r.log[i]);
    }
    if r'.worker == r.worker && r.worker.Committing? && r.worker.read.status.state == Pending {
      LaterExplained(w, steps, s, r.log, r'.log,
                     Committed(r.worker.attempt, r.worker.read.uid, r.worker.read.spec, r.worker.decision,
                               r.worker.status.state));
    }
    if r'.worker == r.worker && r.worker.Removing? {
      LaterExplained(w, steps, s, r.log, r'.log,
                     Released(r.worker.attempt, r.worker.read.uid, r.worker.read.status.budgets));
    }
  }

  lemma DecideExplained(w: World, steps: seq<Step>, names: seq<string>, answers: Answers, k: Clock)
    ensures var r := ApplyDecide(Run(w, steps), names, answers, k);
            r.worker != Run(w, steps).worker ==> WorkerExplained(w, steps + [Decide(names, answers, k)], r)
  {
    hide Run, TryGrant, View;
    var all := steps + [Decide(names, answers, k)];
    var before, r := Run(w, steps), ApplyDecide(Run(w, steps), names, answers, k);
    assert all[..|steps|] == steps;
    if r.worker != before.worker && r.worker.Committing? {
      var e := Committed(r.worker.attempt, r.worker.read.uid, r.worker.read.spec, r.worker.decision,
                         r.worker.status.state);
      DecideIs(before, names, answers, k);
      assert DecidedAt(w, all, |steps|, r.log, e);
    }
  }

  lemma PassExplained(w: World, steps: seq<Step>, name: string, answers: Answers, unreadable: set<Ref>)
    ensures var r := ApplyTerminatePass(Run(w, steps), name, answers, unreadable);
            r.worker != Run(w, steps).worker ==>
                WorkerExplained(w, steps + [TerminatePass(name, answers, unreadable)], r)
  {
    hide Run, TerminateCalls, AllTerminated, BudgetGetter;
    var all := steps + [TerminatePass(name, answers, unreadable)];
    var before, r := Run(w, steps), ApplyTerminatePass(Run(w, steps), name, answers, unreadable);
    assert all[..|steps|] == steps;
    if r.worker != before.worker {
      assert PassedAt(w, all, |steps|, r.log,
                      Released(r.worker.attempt, r.worker.read.uid, r.worker.read.status.budgets));
    }
  }

  /** A write turns the worker's next event into the last one of the history. */
  lemma WriteExplained(w: World, steps: seq<Step>, s: Step)
    requires AllExplained(w, steps) && (s.Commit? || s.RemoveFinalizer?)
    ensures var r, r' := Run(w, steps), Apply(Run(w, steps), s);
            && (r'.worker == r.worker || r'.worker.Idle?)
            && forall i | |r.log| <= i < |r'.log| :: Explained(w, steps + [s], r'.log[..i], r'.log[i])
  {
    hide Run, Explained;
    var r, r' := Run(w, steps), Apply(Run(w, steps), s);
    if |r'.log| > |r.log| {
      var e := r'.log[|r.log|];
      assert r'.log == r.log + [e] && r'.log[..|r.log|] == r.log;
      LaterExplained(w, steps, s, r.log, r.log, e);
    }
  }

  lemma StepExplained(w: World, steps: seq<Step>, s: Step)
    requires AllExplained(w, steps)
    ensures AllExplained(w, steps + [s])
  {
    hide Apply, Explained, WorkerExplained;
    var r, r' := Run(w, steps), Apply(Run(w, steps), s);
    assert (steps + [s])[..|steps|] == steps;
    LogStaysExplained(w, steps, s);
    WorkerStepExplained(w, steps, s);
    if s.Commit? || s.RemoveFinalizer? {
      WriteExplained(w, steps, s);
    } else {
      OthersLogCalls(r, s);
      forall i | |r.log| <= i < |r'.log| ensures Explained(w, steps + [s], r'.log[..i], r'.log[i]) {
        CallsExplained(w, steps + [s], r'.log[..i], r'.log[i]);
      }
    }
  }

  lemma CallsExplained(w: World, steps: seq<Step>, before: seq<Event>, e: Event)
    requires e.Called?
    ensures Explained(w, steps, before, e)
  {
  }

  lemma WorkerStepExplained(w: World, steps: seq<Step>, s: Step)
    requires AllExplained(w, steps)
    ensures WorkerExplained(w, steps + [s], Apply(Run(w, steps), s))
  {
    hide Run, Explained, WorkerExplained, ApplyEnvironment, ApplyStart, ApplySyncNext, ApplyDecide, ApplyCommit,
         ApplyTerminatePass, ApplyRemoveFinalizer;
    LogStaysExplained(w, steps, s);
    match s
    case Decide(names, answers, k) => DecideExplained(w, steps, names, answers, k);
    case TerminatePass(name, answers, unreadable) => PassExplained(w, steps, name, answers, unreadable);
    case _ => QuietExplained(w, steps, s);
  }

  lemma QuietExplained(w: World, steps: seq<Step>, s: Step)
    requires !s.Decide? && !s.TerminatePass?
    ensures var r, r' := Run(w, steps), Apply(Run(w, steps), s);
            r'.worker != r.worker ==> WorkerExplained(w, steps + [s], r')
  {
    hide Run, Explained, Snapshot, SyncedStatus, SyncFails;
  }

  /** Every completed attempt and every finalizer given up has a step behind it. */
  lemma {:induction false} RunExplained(w: World, steps: seq<Step>)
    requires Initial(w)
    ensures AllExplained(w, steps)
    decreases |steps|
  {
    hide Apply, Explained;
    if steps != [] {
      var init, last := steps[..|steps| - 1], steps[|steps| - 1];
      RunExplained(w, init);
      StepExplained(w, init, last);
      assert steps == init + [last];
    }
  }

  /** Step k is the write that put event j, a completed attempt, into the history. */
  ghost predicate WrittenAt(w: World, steps: seq<Step>, k: int, j: int)
    requires 0 <= j < |Run(w, steps).log|
  {
    && 0 <= k < |steps| && steps[k].Commit?
    && var x, e := Run(w, steps[..k]), Run(w, steps).log[j];
       && x.log == Run(w, steps).log[..j] && x.worker.Committing? && Unmoved(x, x.worker.read)
       && x.worker.read.status.state == Pending
       && e == Committed(x.worker.attempt, x.worker.read.uid, x.worker.read.spec, x.worker.decision,
                         x.worker.status.state)
  }

  lemma {:induction false} WriteOf(w: World, steps: seq<Step>, j: nat) returns (k: nat)
    requires j < |Run(w, steps).log| && Run(w, steps).log[j].Committed? && Initial(w)
    ensures WrittenAt(w, steps, k, j)
    decreases |steps|
  {
    hide Apply;
    var n := |steps| - 1;
    var init, last := steps[..n], steps[n];
    LogGrows(Run(w, init), last);
    if j < |Run(w, init).log| {
      k := WriteOf(w, init, j);
      assert init[..k] == steps[..k] && init[k] == steps[k];
      assert Run(w, init).log[..j] == Run(w, steps).log[..j];
    } else {
      k := n;
      LastWrite(Run(w, init), last, j);
    }
  }

  lemma LastWrite(x: World, s: Step, j: nat)
    requires |x.log| <= j < |Apply(x, s).log| && Apply(x, s).log[j].Committed?
    ensures s.Commit? && x.log == Apply(x, s).log[..j] && x.worker.Committing? && Unmoved(x, x.worker.read)
    ensures x.worker.read.status.state == Pending
    ensures Apply(x, s).log[j]
         == Committed(x.worker.attempt, x.worker.read.uid, x.worker.read.spec, x.worker.decision, x.worker.status.state)
  {
    if !s.Commit? && !s.RemoveFinalizer? {
      OthersLogCalls(x, s);
    }
  }

  lemma {:induction false} RunLogGrows(w: World, steps: seq<Step>, k: nat)
    requires k <= |steps|
    ensures Run(w, steps[..k]).log <= Run(w, steps).log
    decreases |steps|
  {
    hide Apply;
    if k < |steps| {
      var init := steps[..|steps| - 1];
      assert init[..k] == steps[..k];
      RunLogGrows(w, init, k);
      LogGrows(Run(w, init), steps[|steps| - 1]);
    } else {
      assert steps[..k] == steps;
    }
  }

  // ----- attempts that fail to sync -----

  /** Nothing of this attempt is in the history, and nothing will be. */
  ghost predicate Over(w: World, attempt: nat) {
    && attempt < w.attempts && (w.worker.Idle? || w.worker.attempt != attempt)
    && forall e | e in w.log :: e.attempt != attempt
  }

  lemma StepOver(w: World, s: Step, attempt: nat)
    requires Over(w, attempt)
    ensures Over(Apply(w, s), attempt)
  {
    hide TryGrant, SyncedStatus, SyncFails, TerminateCalls, AllTerminated, Snapshot, WithNodes, View;
  }

  lemma {:induction false} RunOver(w: World, steps: seq<Step>, attempt: nat)
    requires Over(w, attempt)
    ensures Over(Run(w, steps), attempt)
    decreases |steps|
  {
    hide Apply;
    if steps != [] {
      RunOver(w, steps[..|steps| - 1], attempt);
      StepOver(Run(w, steps[..|steps| - 1]), steps[|steps| - 1], attempt);
    }
  }

  /** The next budget the worker has to sync does not sync. */
  ghost predicate FailsNext(w: World, names: seq<string>) {
    && w.worker.Syncing? && |w.worker.synced| < |w.worker.listed| && IsListing(names, w.nds.Keys)
    && SyncFails(View(w, names), w.worker.listed[|w.worker.synced|])
  }

  /**
    Fail-closed, in every run: when any budget an attempt lists does not sync, wherever it is listed, that attempt
    calls no hook and writes nothing, then or later.
   */
  lemma {:induction false} FailedSyncCallsNothing(w: World, steps: seq<Step>, names: seq<string>, more: seq<Step>)
    requires Initial(w) && FailsNext(Run(w, steps), names)
    ensures var r := Run(w, steps);
            && Apply(r, SyncNext(names)).nds == r.nds
            && forall e | e in Run(w, steps + [SyncNext(names)] + more).log :: e.attempt != r.worker.attempt
  {
    hide Run, SyncFails, SyncedStatus, View;
    var r := Run(w, steps);
    RunOrdered(w, steps);
    ReachableInv(w, steps);
    RunMore(w, steps, SyncNext(names));
    FailureIsOver(r, names);
    RunConcat(w, steps + [SyncNext(names)], more);
    RunOver(Run(w, steps + [SyncNext(names)]), more, r.worker.attempt);
  }

  lemma FailureIsOver(w: World, names: seq<string>)
    requires Inv(w) && Ordered(w) && FailsNext(w, names)
    ensures Apply(w, SyncNext(names)).nds == w.nds && Over(Apply(w, SyncNext(names)), w.worker.attempt)
  {
    hide OrderedLog, SyncFails, StoreInv, UidInv, LogInv, OrderInv, FinalizerInv, View;
  }
}
