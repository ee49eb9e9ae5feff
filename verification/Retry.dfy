/** How often and until when a disruption is tried. */
module Retry {
  import opened Types
  import opened Admission
  import BudgetSpec
  import Rounding
  import opened Protocol
  import opened Lifecycle

  /** Retrying is on and there is a date after which it stops. */
  predicate HasDeadline(spec: NDSpec) {
    spec.retry.enabled && spec.retry.deadline.At?
  }

  /** The completed attempts on one object, in order. */
  ghost function Attempts(log: seq<Event>, uid: nat): (r: seq<Event>)
    ensures forall e | e in r :: e in log && e.Committed? && e.uid == uid
  {
    if log == [] then []
    else
      var last := log[|log| - 1];
      Attempts(log[..|log| - 1], uid) + if last.Committed? && last.uid == uid then [last] else []
  }

  lemma {:induction false} AttemptsAppend(log: seq<Event>, more: seq<Event>, uid: nat)
    requires forall e | e in more :: !e.Committed? || e.uid != uid
    ensures Attempts(log + more, uid) == Attempts(log, uid)
    decreases |more|
  {
    if more == [] {
      assert log + more == log;
    } else {
      AttemptsAppend(log, more[..|more| - 1], uid);
      assert (log + more)[..|log + more| - 1] == log + more[..|more| - 1];
    }
  }

  lemma AttemptsAppendOne(log: seq<Event>, e: Event, uid: nat)
    ensures Attempts(log + [e], uid) == Attempts(log, uid) + if e.Committed? && e.uid == uid then [e] else []
  {
    assert (log + [e])[..|log|] == log;
  }

  /** The attempts are limited: there is a deadline, and at least a second between retries. */
  predicate Limited(cfg: Config, spec: NDSpec) {
    HasDeadline(spec) && cfg.retryInterval >= 1
  }

  // ----- one attempt -----

  /** The dates of one completed attempt. */
  ghost predicate DatesRespected(spec: NDSpec, k: Clock, state: NDState) {
    && k.Monotone()
    && (state == Granted ==>
          !Before(k.grantCheck, spec.doNotGrantBefore) && !spec.retry.IsAfterDeadline(k.internalCheck))
    && (spec.retry.IsAfterDeadline(k.gate) ==> state == Rejected)
  }

  /** When a disruption with a deadline stays pending, and until when. */
  ghost predicate StaysPending(cfg: Config, spec: NDSpec, k: Clock, status: NDStatus) {
    HasDeadline(spec) && status.state == Pending ==>
      && !spec.retry.IsAfterDeadline(k.retryCheck)
      && (status.nextRetry == At(k.retryBase + cfg.retryInterval)
          || (Before(k.grantCheck, spec.doNotGrantBefore) && status.nextRetry == spec.doNotGrantBefore))
  }

  lemma ConcludeDates(cfg: Config, nd: NodeDisruption, c: Client, bs: seq<Budget>, answers: Answers, k: Clock)
    requires k.Monotone() && TryGrant(cfg, nd, c, Ok(bs), answers, k).Ok?
    ensures var status := TryGrant(cfg, nd, c, Ok(bs), answers, k).value.status;
            DatesRespected(nd.spec, k, status.state) && StaysPending(cfg, nd.spec, k, status)
  {
  }

  // ----- counting -----

  /**
    The next retry date after `count` attempts from `first`; one attempt may have been deferred to DoNotGrantBefore
    instead.
   */
  ghost predicate RetryRoom(cfg: Config, spec: NDSpec, first: int, count: nat, next: Time) {
    next.At? &&
    (next.t >= first + count * cfg.retryInterval
     || (spec.doNotGrantBefore.At? && next.t >= spec.doNotGrantBefore.t && count > 0
        && next.t > first + (count - 1) * cfg.retryInterval))
  }

  lemma FirstAttemptRoom(cfg: Config, spec: NDSpec, k: Clock, status: NDStatus)
    requires cfg.retryInterval >= 1 && HasDeadline(spec) && status.state == Pending
    requires k.Monotone() && StaysPending(cfg, spec, k, status)
    ensures RetryRoom(cfg, spec, k.gate, 1, status.nextRetry)
    ensures k.gate <= spec.retry.deadline.t
  {
  }

  lemma NextAttemptRoom(cfg: Config, spec: NDSpec, first: int, count: nat, next: Time, k: Clock, status: NDStatus)
    requires cfg.retryInterval >= 1 && HasDeadline(spec) && status.state == Pending
    requires RetryRoom(cfg, spec, first, count, next) && !Before(k.gate, next)
    requires k.Monotone() && StaysPending(cfg, spec, k, status)
    ensures RetryRoom(cfg, spec, first, count + 1, status.nextRetry)
    ensures count > 0 ==> first + (count - 1) * cfg.retryInterval < k.gate
    ensures k.gate <= spec.retry.deadline.t
  {
    var i := cfg.retryInterval;
    assert (count + 1) * i == count * i + i;
    assert (count - 1) * i == count * i - i;
  }

  lemma QuotientBound(count: int, i: int, span: int)
    requires i >= 1 && span >= 0 && count * i <= span
    ensures count <= span / i
  {
    assert span < (span / i + 1) * i;
    if count > span / i {
      Rounding.MultiplyMonotone(span / i + 1, count, i);
    }
  }

  /** The bound, from the first attempt on. */
  ghost predicate CountBounded(cfg: Config, spec: NDSpec, attempts: seq<Event>, slack: int) {
    attempts != [] && attempts[0].Committed? && Limited(cfg, spec)
        && attempts[0].decision.clock.gate <= spec.retry.deadline.t ==>
      |attempts| <= (spec.retry.deadline.t - attempts[0].decision.clock.gate - 1) / cfg.retryInterval + slack
  }

  /** What the attempts so far say about an object that is still in the cluster. */
  ghost predicate ObjectTried(cfg: Config, nd: NodeDisruption, attempts: seq<Event>) {
    && (forall e | e in attempts :: e.Committed? && e.spec == nd.spec)
    && (nd.status.state == Unknown ==> attempts == [])
    && (nd.status.state == Pending && attempts != [] && Limited(cfg, nd.spec) ==>
          && attempts[0].decision.clock.gate <= nd.spec.retry.deadline.t
          && RetryRoom(cfg, nd.spec, attempts[0].decision.clock.gate, |attempts|, nd.status.nextRetry)
          && CountBounded(cfg, nd.spec, attempts, 2))
  }

  ghost predicate WorkerTried(w: World) {
    match w.worker
    case Syncing(read, _, _, gate, _, _) => !Before(gate, read.status.nextRetry)
    case Committing(read, _, status, decision) =>
      var k := decision.clock;
      read.status.state == Pending ==>
        && !Before(k.gate, read.status.nextRetry)
        && DatesRespected(read.spec, k, status.state) && StaysPending(w.cfg, read.spec, k, status)
    case _ => true
  }

  ghost predicate Tried(w: World, uid: nat) {
    var attempts := Attempts(w.log, uid);
    && WorkerTried(w)
    && (forall n | n in w.nds && w.nds[n].uid == uid :: ObjectTried(w.cfg, w.nds[n], attempts))
    && (forall e | e in attempts ::
          CountBounded(w.cfg, e.spec, attempts, 3) && DatesRespected(e.spec, e.decision.clock, e.state))
  }

  // ----- preservation -----

  lemma FirstCount(cfg: Config, spec: NDSpec, k: Clock, status: NDStatus, e: Event)
    requires Limited(cfg, spec) && DatesRespected(spec, k, status.state) && StaysPending(cfg, spec, k, status)
    requires e.Committed? && e.spec == spec && e.decision.clock == k && e.state == status.state
    ensures CountBounded(cfg, spec, [e], 2)
    ensures status.state == Pending ==>
              k.gate <= spec.retry.deadline.t && RetryRoom(cfg, spec, k.gate, 1, status.nextRetry)
  {
    if status.state == Pending {
      FirstAttemptRoom(cfg, spec, k, status);
    }
    if k.gate < spec.retry.deadline.t {
      QuotientBound(0, cfg.retryInterval, spec.retry.deadline.t - k.gate - 1);
    }
  }

  lemma NextCount(cfg: Config, nd: NodeDisruption, before: seq<Event>, k: Clock, status: NDStatus, e: Event)
    requires Limited(cfg, nd.spec) && before != [] && ObjectTried(cfg, nd, before) && nd.status.state == Pending
    requires !Before(k.gate, nd.status.nextRetry)
    requires DatesRespected(nd.spec, k, status.state) && StaysPending(cfg, nd.spec, k, status)
    ensures CountBounded(cfg, nd.spec, before + [e], 3)
    ensures status.state == Pending ==>
              && CountBounded(cfg, nd.spec, before + [e], 2)
              && RetryRoom(cfg, nd.spec, before[0].decision.clock.gate, |before| + 1, status.nextRetry)
  {
    if status.state == Pending {
      var first, deadline := before[0].decision.clock.gate, nd.spec.retry.deadline.t;
      NextAttemptRoom(cfg, nd.spec, first, |before|, nd.status.nextRetry, k, status);
      QuotientBound(|before| - 1, cfg.retryInterval, deadline - first - 1);
    }
  }

  lemma CommitCount(w: World, uid: nat)
    requires Inv(w) && Tried(w, uid)
    requires w.worker.Committing? && Unmoved(w, w.worker.read) && w.worker.read.uid == uid
             && w.worker.read.status.state == Pending
    ensures var read, status := w.worker.read, w.worker.status;
            var attempts := Attempts(w.log, uid)
                + [Committed(w.worker.attempt, uid, read.spec, w.worker.decision, status.state)];
            && ObjectTried(w.cfg, read.(status := status), attempts)
            && forall e | e in attempts ::
                 CountBounded(w.cfg, e.spec, attempts, 3) && DatesRespected(e.spec, e.decision.clock, e.state)
  {
    hide UidInv, LogInv, OrderInv, FinalizerInv, NodesRecorded, Attempts;
    var read, status, k, cfg := w.worker.read, w.worker.status, w.worker.decision.clock, w.cfg;
    var before := Attempts(w.log, uid);
    var e := Committed(w.worker.attempt, uid, read.spec, w.worker.decision, status.state);
    assert w.nds[read.name] == read && ObjectTried(cfg, read, before);
    if Limited(cfg, read.spec) {
      if before == [] {
        assert before + [e] == [e];
        FirstCount(cfg, read.spec, k, status, e);
      } else {
        assert before[0] in before;
        NextCount(cfg, read, before, k, status, e);
      }
    }
  }

  lemma CommitOther(w: World, w': World, uid: nat)
    requires Inv(w) && Tried(w, uid) && w'.worker.Idle? && w'.cfg == w.cfg
    requires Attempts(w'.log, uid) == Attempts(w.log, uid)
    requires forall n | n in w'.nds && w'.nds[n].uid == uid :: n in w.nds && w'.nds[n] == w.nds[n]
    ensures Tried(w', uid)
  {
  }

  lemma CommitTried(w: World, uid: nat)
    requires Inv(w) && Tried(w, uid)
    ensures Tried(ApplyCommit(w), uid)
  {
    hide Tried, ApplyCommit, Inv, Attempts;
    if !w.worker.Committing? || !Unmoved(w, w.worker.read) {
      RefusedTried(w, uid);
    } else if w.worker.read.uid == uid {
      OwnCommitTried(w, uid);
    } else {
      OtherCommitTried(w, uid);
    }
  }

  lemma RefusedTried(w: World, uid: nat)
    requires Tried(w, uid) && (!w.worker.Committing? || !Unmoved(w, w.worker.read))
    ensures Tried(ApplyCommit(w), uid)
  {
    hide Attempts, ObjectTried, CountBounded, DatesRespected;
  }

  lemma OtherCommitTried(w: World, uid: nat)
    requires Inv(w) && Tried(w, uid) && w.worker.Committing? && Unmoved(w, w.worker.read) && w.worker.read.uid != uid
    ensures Tried(ApplyCommit(w), uid)
  {
    hide Attempts, ObjectTried, CountBounded, DatesRespected, Tried, LogInv, OrderInv, FinalizerInv, UidInv;
    var read := w.worker.read;
    assert w.nds[read.name] == read;
    if read.status.state == Pending {
      AttemptsAppendOne(w.log, Committed(w.worker.attempt, read.uid, read.spec, w.worker.decision,
                                         w.worker.status.state), uid);
      assert Attempts(w.log, uid) + [] == Attempts(w.log, uid);
    }
    CommitOther(w, ApplyCommit(w), uid);
  }

  lemma OwnCommitTried(w: World, uid: nat)
    requires Inv(w) && Tried(w, uid) && w.worker.Committing? && Unmoved(w, w.worker.read) && w.worker.read.uid == uid
    ensures Tried(ApplyCommit(w), uid)
  {
    hide Attempts, CountBounded, DatesRespected, LogInv, OrderInv, FinalizerInv;
    var read, w' := w.worker.read, ApplyCommit(w);
    assert w.nds[read.name] == read;
    assert forall n | n in w'.nds && w'.nds[n].uid == uid :: n == read.name;
    if read.status.state == Pending {
      var e := Committed(w.worker.attempt, uid, read.spec, w.worker.decision, w.worker.status.state);
      AttemptsAppendOne(w.log, e, uid);
      CommitCount(w, uid);
    }
  }

  lemma DecideTried(w: World, names: seq<string>, answers: Answers, k: Clock, uid: nat)
    requires Inv(w) && Tried(w, uid)
    ensures Tried(ApplyDecide(w, names, answers, k), uid)
  {
    hide TryGrant;
    if CanDecide(w, names, k) {
      var outcome := TryGrant(w.cfg, w.worker.nd, View(w, names), Ok(w.worker.synced), answers, k);
      if outcome.Ok? {
        AttemptsAppend(w.log, CallEvents(w.worker.attempt, w.worker.read.uid, outcome.value.calls), uid);
        ConcludeDates(w.cfg, w.worker.nd, View(w, names), w.worker.synced, answers, k);
      }
    }
  }

  lemma PutTried(w: World, nd: NodeDisruption, uid: nat)
    requires Tried(w, uid)
    requires nd.uid == uid ==> ObjectTried(w.cfg, nd, Attempts(w.log, uid))
    ensures Tried(Put(w, nd), uid)
  {
  }

  lemma NothingTriedYet(w: World, uid: nat)
    requires Inv(w) && uid >= w.rev
    ensures Attempts(w.log, uid) == []
  {
    assert [] + w.log == w.log;
    AttemptsAppend([], w.log, uid);
  }

  lemma TerminateTried(w: World, name: string, answers: Answers, unreadable: set<Ref>, uid: nat)
    requires Inv(w) && Tried(w, uid)
    ensures Tried(ApplyTerminatePass(w, name, answers, unreadable), uid)
  {
    if w.worker.Idle? && name in w.nds && w.nds[name].deleting && w.nds[name].finalizer {
      var nd := w.nds[name];
      AttemptsAppend(w.log, CallEvents(w.attempts, nd.uid,
                                       TerminateCalls(nd.status.budgets, nd, BudgetGetter(w.budgets, unreadable),
                                                      answers)), uid);
    }
  }

  lemma RemoveFinalizerTried(w: World, uid: nat)
    requires Inv(w) && Tried(w, uid)
    ensures Tried(ApplyRemoveFinalizer(w), uid)
  {
    if w.worker.Removing? && Unmoved(w, w.worker.read) {
      var read := w.worker.read;
      AttemptsAppend(w.log, [Released(w.worker.attempt, read.uid, read.status.budgets)], uid);
    }
  }

  lemma StartTried(w: World, name: string, refs: seq<Ref>, uid: nat)
    requires Tried(w, uid)
    ensures Tried(ApplyStart(w, name, refs), uid)
  {
  }

  lemma SyncNextTried(w: World, names: seq<string>, uid: nat)
    requires Tried(w, uid)
    ensures Tried(ApplySyncNext(w, names), uid)
  {
    hide BudgetSpec.SyncedStatus, BudgetSpec.SyncFails;
  }

  lemma GoneTried(w: World, name: string, uid: nat)
    requires Tried(w, uid)
    ensures Tried(Gone(w, name), uid)
  {
  }

  lemma SettingsTried(w: World, s: Step, uid: nat)
    requires Tried(w, uid) && (s.SetBudgets? || s.Tick? || s.Abort?)
    ensures Tried(ApplyEnvironment(w, s), uid)
  {
  }

  lemma StepTried(w: World, s: Step, uid: nat)
    requires Inv(w) && Tried(w, uid)
    ensures Tried(Apply(w, s), uid)
  {
    hide ApplyStart, ApplySyncNext, ApplyDecide, ApplyCommit, ApplyTerminatePass, ApplyRemoveFinalizer, WorkerInv,
         LogInv, OrderInv, FinalizerInv, WorkerTried, Attempts;
    match s
    case Create(name, spec, foreign) =>
      if uid == w.rev {
        NothingTriedYet(w, uid);
      }
      PutTried(w, NodeDisruption(name, w.rev, w.rev, false, foreign, false, spec, EMPTY_STATUS), uid);
    case MarkDeleted(name) =>
      if name in w.nds {
        GoneTried(w, name, uid);
        PutTried(w, w.nds[name].(deleting := true), uid);
      }
    case EditForeign(name, present) =>
      if name in w.nds {
        GoneTried(w, name, uid);
        PutTried(w, w.nds[name].(foreign := present), uid);
      }
    case AddFinalizer(name) =>
      if name in w.nds {
        PutTried(w, w.nds[name].(finalizer := true), uid);
      }
    case Start(name, refs) => StartTried(w, name, refs, uid);
    case SyncNext(names) => SyncNextTried(w, names, uid);
    case Decide(names, answers, k) => DecideTried(w, names, answers, k, uid);
    case Commit => CommitTried(w, uid);
    case TerminatePass(name, answers, unreadable) => TerminateTried(w, name, answers, unreadable, uid);
    case RemoveFinalizer => RemoveFinalizerTried(w, uid);
    case _ => SettingsTried(w, s, uid);
  }

  lemma {:induction false} RunTried(w: World, steps: seq<Step>, uid: nat)
    requires Initial(w)
    ensures Run(w, steps).cfg == w.cfg && Inv(Run(w, steps)) && Tried(Run(w, steps), uid)
    decreases |steps|
  {
    hide Apply;
    ReachableInv(w, steps);
    if steps != [] {
      var init, last := steps[..|steps| - 1], steps[|steps| - 1];
      RunTried(w, init, uid);
      SettingsFixed(Run(w, init), last);
      StepTried(Run(w, init), last, uid);
    }
  }

  // ----- the theorems -----

  /**
    With retry enabled, a deadline and an interval of at least one second, an object first tried no later than its
    deadline completes at most (deadline - first - 1) / interval + 3 attempts in any run, rounded down.
   */
  lemma {:induction false} AttemptsBounded(w: World, steps: seq<Step>, uid: nat)
    requires Initial(w) && w.cfg.retryInterval >= 1
    requires var attempts := Attempts(Run(w, steps).log, uid);
             attempts != [] && HasDeadline(attempts[0].spec)
             && attempts[0].decision.clock.gate <= attempts[0].spec.retry.deadline.t
    ensures var attempts := Attempts(Run(w, steps).log, uid);
            var first, deadline := attempts[0].decision.clock.gate, attempts[0].spec.retry.deadline.t;
            |attempts| <= (deadline - first - 1) / w.cfg.retryInterval + 3
  {
    hide Run;
    RunTried(w, steps, uid);
    FirstOf(Attempts(Run(w, steps).log, uid));
  }

  lemma FirstOf(l: seq<Event>)
    requires l != []
    ensures l[0] in l
  {
  }

  /**
    No completed attempt grants once its own check has seen the deadline pass, nor before DoNotGrantBefore; and one
    that starts after the deadline leaves the disruption rejected.
   */
  lemma {:induction false} AttemptDates(w: World, steps: seq<Step>, i: nat)
    requires Initial(w)
    requires i < |Run(w, steps).log| && Run(w, steps).log[i].Committed?
    ensures var e := Run(w, steps).log[i]; DatesRespected(e.spec, e.decision.clock, e.state)
  {
    hide Run;
    var log := Run(w, steps).log;
    RunTried(w, steps, log[i].uid);
    LoggedAttempt(log, log[i]);
  }

  lemma {:induction false} LoggedAttempt(log: seq<Event>, e: Event)
    requires e in log && e.Committed?
    ensures e in Attempts(log, e.uid)
  {
    var init, last := log[..|log| - 1], log[|log| - 1];
    assert log == init + [last];
    if e in init {
      LoggedAttempt(init, e);
    }
  }
}
