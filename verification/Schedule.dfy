/** A disruption that is tried as often as its dates allow, for every deadline and every retry interval. */
module Schedule {
  import opened Types
  import opened Sorting
  import opened Resolver
  import opened BudgetSpec
  import opened Admission
  import opened Protocol
  import opened Lifecycle
  import opened Safety
  import opened Overlap
  import Rounding
  import opened Retry
  import opened Tightness
  import opened Watches
  import opened Stories

  const OPEN := Guard("", "")

  /** A disruption of the one node to be retried until `deadline`, not to be granted before `date`. */
  function Retried(date: int, deadline: int): NDSpec {
    NDSpec(ZONE, At(date), RetrySpec(true, At(deadline)), "drain")
  }

  lemma RetriedCovers(date: int, deadline: int)
    ensures Selects(ZONED, Retried(date, deadline)) && Cover(ZONED, Retried(date, deadline)) == WATCHED
  {
    RelabelledPods(map["zone" := "a"]);
    RelabelledZone();
  }

  ghost function ScheduleWorld(interval: int, start: int): World {
    World(ZONED, Config(false, interval, true, []), map[OPEN.GetNamespacedName() := OPEN], map[], 0, start, Idle, 0, [],
          [])
  }

  lemma ScheduleStarts(interval: int, start: int)
    ensures Initial(ScheduleWorld(interval, start)) && OnlyBudget(ScheduleWorld(interval, start), OPEN)
  {
    GuardWatches("", "");
    InitialInv(ScheduleWorld(interval, start));
  }

  /** The disruption "a" is pending and to be tried from `next` on. */
  ghost predicate Queued(w: World, spec: NDSpec, next: Time) {
    && OnlyBudget(w, OPEN) && w.topology == ZONED && w.cfg.rejectOverlapping && !w.cfg.rejectEmpty
    && "a" in w.nds && w.nds["a"].name == "a" && w.nds["a"].spec == spec
    && w.nds["a"].finalizer && !w.nds["a"].deleting
    && w.nds["a"].status.state == Pending && w.nds["a"].status.nodes == SortedList(WATCHED)
    && w.nds["a"].status.nextRetry == next
  }

  /** And "b", which is nobody's turn yet, is in its way. */
  ghost predicate InTheWay(w: World) {
    && w.nds.Keys == {"a", "b"} && w.nds["b"].status.state == Pending && w.nds["b"].spec == Drain(ZeroTime)
  }

  lemma QueuedStarts(w: World, date: int, deadline: int, next: Time)
    requires Queued(w, Retried(date, deadline), next) && !Before(w.clock, next)
    ensures CanStart(w, "a")
  {
    RetriedCovers(date, deadline);
  }

  // ----- one attempt -----

  /** The write of a decision at this clock, with nobody interfering. */
  lemma Turn(w: World, date: int, deadline: int, next: Time, names: seq<string>, s: Budget, outcome: Outcome)
    returns (r: World)
    requires Queued(w, Retried(date, deadline), next) && IsListing(names, w.nds.Keys) && outcome.calls == []
    requires outcome.status.state != Granted && outcome.status != w.nds["a"].status
    requires Run(w, AttemptOf(w, OPEN, "a", names))
          == w.(worker := Committing(w.nds["a"], w.attempts, outcome.status,
                                     Decision(w.nds["a"], View(w, names), [s], Now(w))),
                attempts := w.attempts + 1, log := w.log + CallEvents(w.attempts, w.nds["a"].uid, outcome.calls))
    ensures r == Run(w, AttemptOf(w, OPEN, "a", names) + [Commit]) && OnlyBudget(r, OPEN)
    ensures r.nds == w.nds["a" := w.nds["a"].(status := outcome.status, version := w.rev)]
    ensures r.topology == w.topology && r.cfg == w.cfg && r.clock == w.clock
    ensures exists e :: Counts(e, w, deadline) && r.log == w.log + [e]
  {
    hide Run, Inv, IsListing, WatchedNodes, View, ApplyCommit;
    var decided := Run(w, AttemptOf(w, OPEN, "a", names));
    Writes(decided, "a");
    CommitIs(decided);
    RunMore(w, AttemptOf(w, OPEN, "a", names), Commit);
    RunKeeps(w, AttemptOf(w, OPEN, "a", names) + [Commit]);
    r := Run(w, AttemptOf(w, OPEN, "a", names) + [Commit]);
    var e := Committed(w.attempts, w.nds["a"].uid, w.nds["a"].spec, Decision(w.nds["a"], View(w, names), [s], Now(w)),
                       outcome.status.state);
    assert w.log + [] + [e] == w.log + [e];
    assert Counts(e, w, deadline);
  }

  /** A completed attempt on "a" at this moment. */
  ghost predicate Counts(e: Event, w: World, deadline: int) {
    && "a" in w.nds && e.Committed? && e.uid == w.nds["a"].uid && e.decision.clock.gate == w.clock
    && e.spec.retry == RetrySpec(true, At(deadline))
  }

  lemma CountsOne(e: Event, w: World, deadline: int, r: World)
    requires Counts(e, w, deadline) && r.log == w.log + [e]
    ensures Attempts(r.log, w.nds["a"].uid) == Attempts(w.log, w.nds["a"].uid) + [e]
  {
    AttemptsAppendOne(w.log, e, w.nds["a"].uid);
  }

  /** The first attempt passes all checks and is put off to its date. */
  lemma FirstTurn(w: World, date: int, deadline: int) returns (r: World)
    requires Queued(w, Retried(date, deadline), ZeroTime) && w.nds.Keys == {"a"} && w.order == []
    requires w.clock < date && w.clock <= deadline
    ensures r == Run(w, AttemptOf(w, OPEN, "a", ["a"]) + [Commit]) && Queued(r, Retried(date, deadline), At(date))
    ensures r.nds.Keys == {"a"} && r.nds["a"].uid == w.nds["a"].uid
    ensures r.cfg == w.cfg && r.clock == w.clock
    ensures exists e :: Counts(e, w, deadline) && r.log == w.log + [e]
  {
    hide Run, Inv, InternalVerdict, View, TryGrant, Consulted, Refuses, IsListing, WatchedNodes, Watch, Cover, HookBody;
    var nd := w.nds["a"];
    OneListing("a");
    GuardWatches("", "");
    RetriedCovers(date, deadline);
    QueuedStarts(w, date, deadline, ZeroTime);
    var s := OneAttempt(w, OPEN, "a", ["a"], Yes);
    OrderCountsGranted(w, OPEN);
    GuardConsulted(s, "", "", nd);
    assert Passes(w, "a", nd.spec);
    InternalPasses(w, ["a"], nd, Now(w));
    RoundOfOne(w.cfg, nd, View(w, ["a"]), s, Yes, Now(w));
    var outcome := TryGrant(w.cfg, nd, View(w, ["a"]), Ok([s]), Yes, Now(w)).value;
    r := Turn(w, date, deadline, ZeroTime, ["a"], s, outcome);
  }

  lemma OverlapsWaiting(w: World, date: int, deadline: int, next: Time)
    requires Queued(w, Retried(date, deadline), next) && InTheWay(w)
    ensures IsListing(["a", "b"], w.nds.Keys) && Overlaps(w.nds["a"], View(w, ["a", "b"]).nds)
  {
    hide Inv, Listed, Overlaps, IsListing, WatchedNodes, Cover;
    TwoListing("a", "b");
    RetriedCovers(date, deadline);
    DrainCovers(ZeroTime);
    assert Overlapped(w, "a", w.nds["a"].spec) by {
      assert "b" in w.nds && "n" in Cover(ZONED, Drain(ZeroTime));
    }
    OverlapsListed(w, ["a", "b"], w.nds["a"]);
  }

  /** A later attempt fails the overlap check: it is retried before the deadline, and rejected after it. */
  lemma LaterTurn(w: World, date: int, deadline: int) returns (r: World)
    requires Queued(w, Retried(date, deadline), At(w.clock)) && InTheWay(w) && w.cfg.retryInterval >= 1
    ensures r == Run(w, AttemptOf(w, OPEN, "a", ["a", "b"]) + [Commit]) && OnlyBudget(r, OPEN)
    ensures w.clock <= deadline ==>
              Queued(r, Retried(date, deadline), At(w.clock + w.cfg.retryInterval)) && InTheWay(r)
    ensures r.cfg == w.cfg && r.clock == w.clock && "a" in r.nds && r.nds["a"].uid == w.nds["a"].uid
    ensures exists e :: Counts(e, w, deadline) && r.log == w.log + [e]
  {
    hide Run, Inv, TryGrant, Listed, IsListing, WatchedNodes, Watch, Cover, Overlaps;
    var nd := w.nds["a"];
    OverlapsWaiting(w, date, deadline, At(w.clock));
    QueuedStarts(w, date, deadline, At(w.clock));
    var s := OneAttempt(w, OPEN, "a", ["a", "b"], Yes);
    OverlapPutsOff(w.cfg, nd, View(w, ["a", "b"]), s, date, deadline, w.clock);
    var outcome := TryGrant(w.cfg, nd, View(w, ["a", "b"]), Ok([s]), Yes, Now(w)).value;
    r := Turn(w, date, deadline, At(w.clock), ["a", "b"], s, outcome);
  }

  lemma OverlapPutsOff(cfg: Config, nd: NodeDisruption, c: Client, s: Budget, date: int, deadline: int, now: int)
    requires cfg.rejectOverlapping && !cfg.rejectEmpty && NDs !in c.down && Overlaps(nd, c.nds)
    requires nd.spec == Retried(date, deadline)
    ensures var outcome := TryGrant(cfg, nd, c, Ok([s]), Yes, Clock(now, now, now, now, now, now));
            && outcome.Ok? && outcome.value.calls == [] && outcome.value.status.nodes == nd.status.nodes
            && (now <= deadline ==>
                  outcome.value.status.state == Pending
                      && outcome.value.status.nextRetry == At(now + cfg.retryInterval))
            && (now > deadline ==> outcome.value.status.state == Rejected)
  {
    hide Overlaps, BudgetVerdict, BudgetCalls;
  }

  // ----- all attempts -----

  /** Of the retry dates `now`, `now + i`, ... exactly `left` are not after the deadline. */
  predicate Left(now: int, i: int, deadline: int, left: nat) {
    deadline < now + left * i && (left > 0 ==> now + (left - 1) * i <= deadline)
  }

  lemma OneLess(now: int, i: int, deadline: int, left: nat)
    requires Left(now, i, deadline, left) && now <= deadline
    ensures left > 0 && Left(now + i, i, deadline, left - 1)
  {
    assert left * i == (left - 1) * i + i;
    assert left > 1 ==> (left - 1) * i == (left - 2) * i + i;
  }

  lemma NoneLeft(now: int, i: int, deadline: int, left: nat)
    requires Left(now, i, deadline, left) && now > deadline && i >= 1
    ensures left == 0
  {
    if left > 0 {
      Rounding.MultiplyMonotone(0, left - 1, i);
    }
  }

  lemma SpanLeft(now: int, i: int, deadline: int)
    requires i >= 1 && now <= deadline + 1
    ensures (deadline - now) / i + 1 >= 0 && Left(now, i, deadline, (deadline - now) / i + 1)
  {
    var span := deadline - now;
    assert span == (span / i) * i + span % i;
    assert (span / i + 1) * i == (span / i) * i + i;
    if span < 0 {
      assert span / i == -1;
    }
  }

  /** The attempts from this moment on: one at each retry date, the last one after the deadline. */
  lemma {:induction false} Turns(w: World, date: int, deadline: int, left: nat) returns (steps: seq<Step>, r: World)
    requires Queued(w, Retried(date, deadline), At(w.clock)) && InTheWay(w)
    requires w.cfg.retryInterval >= 1 && Left(w.clock, w.cfg.retryInterval, deadline, left)
    ensures r == Run(w, steps)
    ensures "a" in w.nds && Attempts(w.log, w.nds["a"].uid) <= Attempts(r.log, w.nds["a"].uid)
    ensures |Attempts(r.log, w.nds["a"].uid)| == |Attempts(w.log, w.nds["a"].uid)| + left + 1
    decreases left
  {
    hide Run, OnlyBudget, Attempts, Left, View, InTheWay, Counts;
    var i, uid := w.cfg.retryInterval, w.nds["a"].uid;
    var after := LaterTurn(w, date, deadline);
    var e :| Counts(e, w, deadline) && after.log == w.log + [e];
    CountsOne(e, w, deadline, after);
    steps, r := AttemptOf(w, OPEN, "a", ["a", "b"]) + [Commit], after;
    if w.clock > deadline {
      NoneLeft(w.clock, i, deadline, left);
    } else {
      OneLess(w.clock, i, deadline, left);
      var next := Later(after, date, deadline, i, At(w.clock + i));
      var rest, last := Turns(next, date, deadline, left - 1);
      Then(w, steps, after, [Tick(i)], next);
      Then(w, steps + [Tick(i)], next, rest, last);
      steps, r := steps + [Tick(i)] + rest, last;
    }
  }

  lemma Later(w: World, date: int, deadline: int, d: nat, next: Time) returns (r: World)
    requires Queued(w, Retried(date, deadline), next)
    ensures r == Run(w, [Tick(d)]) && r == w.(clock := w.clock + d) && Queued(r, Retried(date, deadline), next)
    ensures InTheWay(w) ==> InTheWay(r)
  {
    hide Inv, WatchedNodes, Run;
    RunOne(w, Tick(d));
    RunKeeps(w, [Tick(d)]);
    r := Run(w, [Tick(d)]);
  }

  /**
    For every deadline and every interval of at least one second the bound on attempts is reached: the first attempt is
    put off to its date a second later, and then another disruption is in the way.
   */
  lemma {:induction false} AttemptsReached(interval: int, start: int, deadline: int)
    returns (w: World, steps: seq<Step>, uid: nat)
    requires interval >= 1 && start <= deadline
    ensures Initial(w) && w.cfg.retryInterval == interval
    ensures var attempts := Attempts(Run(w, steps).log, uid);
            && |attempts| == (deadline - start - 1) / interval + 3 && |attempts| > 0
            && attempts[0].spec.retry == RetrySpec(true, At(deadline)) && attempts[0].decision.clock.gate == start
  {
    hide Run, Queued, InTheWay, OnlyBudget, Attempts, PendSteps, AttemptOf, Cover, Left;
    var date := start + 1;
    w := ScheduleWorld(interval, start);
    ScheduleStarts(interval, start);
    var first, w3 := PutOff(interval, date, deadline);
    SpanLeft(date, interval, deadline);
    var rest, w4 := Turns(w3, date, deadline, (deadline - date) / interval + 1);
    Then(w, first, w3, rest, w4);
    steps, uid := first + rest, w3.nds["a"].uid;
  }

  /** Up to the moment of the second attempt. */
  lemma PutOff(interval: int, date: int, deadline: int) returns (steps: seq<Step>, r: World)
    requires date <= deadline + 1
    ensures var w := ScheduleWorld(interval, date - 1); r == Run(w, steps) && r.cfg == w.cfg && r.clock == date
    ensures Queued(r, Retried(date, deadline), At(date)) && InTheWay(r) && "a" in r.nds
    ensures var attempts := Attempts(r.log, r.nds["a"].uid);
            && |attempts| == 1 && attempts[0].spec.retry == RetrySpec(true, At(deadline))
            && attempts[0].decision.clock.gate == date - 1
  {
    hide Run, PendSteps, AttemptOf, WatchedNodes, Inv;
    var w, spec := ScheduleWorld(interval, date - 1), Retried(date, deadline);
    ScheduleStarts(interval, date - 1);
    RetriedCovers(date, deadline);
    DrainCovers(ZeroTime);
    Pend(w, OPEN, "a", spec);
    var w1 := Run(w, PendSteps(OPEN, "a", spec));
    WaitingNodes(w1, "a", spec);
    var w2 := FirstTurn(w1, date, deadline);
    var e :| Counts(e, w1, deadline) && w2.log == w1.log + [e];
    CountsOne(e, w1, deadline, w2);
    Pend(w2, OPEN, "b", Drain(ZeroTime));
    var w3 := Run(w2, PendSteps(OPEN, "b", Drain(ZeroTime)));
    r := Later(w3, date, deadline, 1, At(date));
    steps := PendSteps(OPEN, "a", spec) + (AttemptOf(w1, OPEN, "a", ["a"]) + [Commit]);
    Then(w, PendSteps(OPEN, "a", spec), w1, AttemptOf(w1, OPEN, "a", ["a"]) + [Commit], w2);
    Then(w, steps, w2, PendSteps(OPEN, "b", Drain(ZeroTime)), w3);
    steps := steps + PendSteps(OPEN, "b", Drain(ZeroTime));
    Then(w, steps, w3, [Tick(1)], r);
    steps := steps + [Tick(1)];
  }
}
