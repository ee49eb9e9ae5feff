/** Runs in which an application or a disruption gets less than the documentation says, each from an empty cluster. */
module Stories {
  import opened Types
  import opened Sorting
  import opened Resolver
  import opened BudgetSpec
  import opened Admission
  import opened Protocol
  import opened Lifecycle
  import opened Safety
  import opened Hooks
  import opened Overlap
  import opened Tightness
  import opened Watches

  // ----- one node, one application -----

  const ZONED := Relabelled(map["zone" := "a"])
  const WATCHED := {"n"}

  /** An application budget over the one pod, with these hooks. */
  function Guard(healthURL: string, hookURL: string): Budget {
    DATABASE.(healthURL := healthURL, hookURL := hookURL, types := ["drain"])
  }

  /** A disruption of the one node, without retries. */
  function Drain(doNotGrantBefore: Time): NDSpec {
    NDSpec(ZONE, doNotGrantBefore, RetrySpec(false, ZeroTime), "drain")
  }

  ghost function StoryWorld(rejectOverlapping: bool, b: Budget): World {
    World(ZONED, Config(false, 0, rejectOverlapping, []), map[b.GetNamespacedName() := b], map[], 0, 0, Idle, 0, [], [])
  }

  lemma GuardWatches(healthURL: string, hookURL: string)
    ensures WatchedNodes(TopologyView(ZONED), Guard(healthURL, hookURL)) == Ok(WATCHED)
            && Watch(ZONED, Guard(healthURL, hookURL)) == WATCHED
  {
    RelabelledPods(map["zone" := "a"]);
    WatchByPods(TopologyView(ZONED), Guard(healthURL, hookURL), WATCHED);
  }

  lemma DrainCovers(date: Time)
    ensures Selects(ZONED, Drain(date)) && Cover(ZONED, Drain(date)) == WATCHED
  {
    RelabelledPods(map["zone" := "a"]);
    RelabelledZone();
  }

  lemma StoryStarts(rejectOverlapping: bool, healthURL: string, hookURL: string)
    ensures var b := Guard(healthURL, hookURL);
            var w := StoryWorld(rejectOverlapping, b);
            Initial(w) && Fixed(w, b) && OnlyBudget(w, b)
  {
    GuardWatches(healthURL, hookURL);
    InitialInv(StoryWorld(rejectOverlapping, Guard(healthURL, hookURL)));
  }

  // ----- one attempt -----

  /** The budget's synced copy is consulted, and has room while nothing is granted. */
  lemma GuardConsulted(s: Budget, healthURL: string, hookURL: string, nd: NodeDisruption)
    requires s.SameSpec(Guard(healthURL, hookURL)) && InSync(s, WATCHED) && s.status.current == 0
    requires nd.spec.ndType == "drain" && nd.status.nodes == SortedList(WATCHED)
    ensures Consulted(s, nd) && !Refuses(s, nd)
  {
    assert Elements(SortedList(WATCHED)) == WATCHED && "n" in WATCHED;
    assert (set x | x in s.status.watched) == Elements(s.status.watched);
    assert "n" in (set x | x in s.status.watched) * Elements(nd.status.nodes);
  }

  lemma VerdictOfOne(nd: NodeDisruption, s: Budget, answers: Answers)
    requires Consulted(s, nd) && !Refuses(s, nd)
    ensures var check := CheckFor(s, nd, answers); BudgetVerdict(nd, [s], answers) == Verdict(!check.ok, [check])
    ensures BudgetCalls(nd, [s], answers) == CallsFor(s, nd, answers)
  {
    hide CheckFor, CallsFor, Consulted, Refuses;
    assert [s][..0] == [];
    assert ConsultedBudgets([s], nd) == [s];
    assert AllCalls([s], nd, answers) == AllCalls([], nd, answers) + CallsFor(s, nd, answers);
    assert !AnyRefusal([s], nd);
    assert s in [s];
    assert AnyUnready([s], nd, answers) == !CheckFor(s, nd, answers).ok;
  }

  /** An attempt that passes the internal checks, with one consulted budget that does not refuse. */
  lemma RoundOfOne(cfg: Config, nd: NodeDisruption, c: Client, s: Budget, answers: Answers, k: Clock)
    requires InternalVerdict(cfg, nd, c, k).Ok? && !InternalVerdict(cfg, nd, c, k).value.failed
    requires Consulted(s, nd) && !Refuses(s, nd)
    ensures TryGrant(cfg, nd, c, Ok([s]), answers, k)
         == Ok(Outcome(Conclude(cfg, nd, Verdict(!CheckFor(s, nd, answers).ok, [CheckFor(s, nd, answers)]), k),
                       CallsFor(s, nd, answers)))
  {
    hide InternalVerdict, CheckFor, CallsFor, Consulted, Refuses, Conclude, BudgetVerdict, BudgetCalls;
    VerdictOfOne(nd, s, answers);
  }

  /** A waiting disruption of the one node, with this date and these records. */
  ghost predicate Waits(w: World, name: string, date: Time, budgets: seq<BudgetCheck>) {
    && name in w.nds && w.nds[name].name == name && w.nds[name].spec == Drain(date)
    && w.nds[name].finalizer && !w.nds[name].deleting && !w.nds[name].foreign
    && w.nds[name].status == NDStatus(Pending, budgets, SortedList(WATCHED), w.nds[name].status.nextRetry)
    && !Before(w.clock, w.nds[name].status.nextRetry)
  }

  lemma WaitingWaits(w: World, name: string, date: Time)
    requires Inv(w) && w.topology == ZONED && Waiting(w, name, Drain(date))
    ensures Waits(w, name, date, [])
  {
    DrainCovers(date);
    WaitingNodes(w, name, Drain(date));
  }

  lemma WaitsStart(w: World, name: string, date: Time, budgets: seq<BudgetCheck>)
    requires Waits(w, name, date, budgets) && w.worker.Idle? && w.topology == ZONED
    ensures CanStart(w, name)
  {
    DrainCovers(date);
  }

  function AttemptOf(w: World, b: Budget, name: string, names: seq<string>): seq<Step> {
    [Start(name, [b.GetNamespacedName()]), SyncNext(names), Decide(names, Yes, Now(w))]
  }

  /** What an attempt does while nothing is granted and the internal checks pass. */
  lemma GuardAttempt(w: World, healthURL: string, hookURL: string, name: string, names: seq<string>, date: Time,
                     budgets: seq<BudgetCheck>)
    returns (s: Budget)
    requires OnlyBudget(w, Guard(healthURL, hookURL)) && w.topology == ZONED && IsListing(names, w.nds.Keys)
             && w.order == []
    requires Waits(w, name, date, budgets) && Passes(w, name, Drain(date))
    ensures s.SameSpec(Guard(healthURL, hookURL))
    ensures var b, nd, k := Guard(healthURL, hookURL), w.nds[name], Now(w);
            var check := CheckFor(s, nd, Yes);
            Run(w, AttemptOf(w, b, name, names))
            == w.(worker := Committing(nd, w.attempts, Conclude(w.cfg, nd, Verdict(!check.ok, [check]), k),
                                       Decision(nd, View(w, names), [s], k)),
                  attempts := w.attempts + 1, log := w.log + CallEvents(w.attempts, nd.uid, CallsFor(s, nd, Yes)))
  {
    hide Run, CheckFor, CallsFor, Conclude, InternalVerdict, View, TryGrant, Passes, Consulted, Refuses, IsListing,
         WatchedNodes, Watch;
    var b, nd := Guard(healthURL, hookURL), w.nds[name];
    GuardWatches(healthURL, hookURL);
    DrainCovers(date);
    WaitsStart(w, name, date, budgets);
    s := OneAttempt(w, b, name, names, Yes);
    OrderCountsGranted(w, b);
    GuardConsulted(s, healthURL, hookURL, nd);
    InternalPasses(w, names, nd, Now(w));
    RoundOfOne(w.cfg, nd, View(w, names), s, Yes, Now(w));
  }

  /** What an attempt does while another disruption is in the way. */
  lemma OverlappedAttempt(w: World, healthURL: string, hookURL: string, name: string, names: seq<string>,
                          budgets: seq<BudgetCheck>)
    returns (s: Budget)
    requires OnlyBudget(w, Guard(healthURL, hookURL)) && w.topology == ZONED && IsListing(names, w.nds.Keys)
    requires w.cfg.rejectOverlapping && !w.cfg.rejectEmpty
    requires Waits(w, name, ZeroTime, budgets) && Overlapped(w, name, Drain(ZeroTime))
    ensures var b, nd, k := Guard(healthURL, hookURL), w.nds[name], Now(w);
            Run(w, AttemptOf(w, b, name, names))
            == w.(worker := Committing(nd, w.attempts, NDStatus(Rejected, [OwnFailure(nd)], nd.status.nodes, ZeroTime),
                                       Decision(nd, View(w, names), [s], k)),
                  attempts := w.attempts + 1)
  {
    hide Run, Listed, TryGrant, Overlaps, Overlapped, IsListing, WatchedNodes, Watch, Inv;
    var b, nd := Guard(healthURL, hookURL), w.nds[name];
    DrainCovers(ZeroTime);
    WaitsStart(w, name, ZeroTime, budgets);
    s := OneAttempt(w, b, name, names, Yes);
    OverlapsListed(w, names, nd);
    OverlapRejects(w.cfg, nd, View(w, names), s, Now(w));
    assert w.log + CallEvents(w.attempts, nd.uid, []) == w.log;
  }

  lemma OverlapRejects(cfg: Config, nd: NodeDisruption, c: Client, s: Budget, k: Clock)
    requires cfg.rejectOverlapping && !cfg.rejectEmpty && NDs !in c.down && Overlaps(nd, c.nds)
             && !nd.spec.retry.enabled
    ensures TryGrant(cfg, nd, c, Ok([s]), Yes, k)
         == Ok(Outcome(nd.status.(budgets := [OwnFailure(nd)], state := Rejected, nextRetry := ZeroTime), []))
  {
    hide Overlaps, BudgetVerdict, BudgetCalls;
  }

  /** The write at the end of an attempt that changes the status. */
  lemma Writes(w: World, name: string)
    requires w.worker.Committing? && name in w.nds && w.worker.read == w.nds[name] && w.nds[name].name == name
    requires w.nds[name].status.state == Pending && w.worker.status != w.nds[name].status
    ensures ApplyCommit(w)
         == w.(worker := Idle, rev := w.rev + 1,
               nds := w.nds[name := w.nds[name].(status := w.worker.status, version := w.rev)],
               order := w.order + (if w.worker.status.state == Granted then [name] else []),
               log := w.log + [Committed(w.worker.attempt, w.nds[name].uid, w.nds[name].spec, w.worker.decision,
                                         w.worker.status.state)])
  {
    assert w.order + [] == w.order;
  }

  lemma TwoListing(a: string, b: string)
    requires a != b
    ensures IsListing([a, b], {a, b})
  {
    assert (set x | x in [a, b]) == {a, b};
  }

  /** `t` takes `r` to `x`, and `s` takes `w` to `r`. */
  lemma Then(w: World, s: seq<Step>, r: World, t: seq<Step>, x: World)
    requires Run(w, s) == r && Run(r, t) == x
    ensures Run(w, s + t) == x
  {
    hide Run;
    RunConcat(w, s, t);
  }

  /** A new disruption of the one node, up to Pending. */
  lemma Arrives(w: World, b: Budget, name: string, date: Time) returns (r: World)
    requires OnlyBudget(w, b) && w.topology == ZONED && name !in w.nds
    ensures r == Run(w, PendSteps(b, name, Drain(date))) && OnlyBudget(r, b) && Waits(r, name, date, [])
    ensures r == w.(nds := r.nds, rev := r.rev, attempts := r.attempts) && w.rev < r.rev
    ensures r.nds == w.nds[name := r.nds[name]] && r.nds[name].uid == w.rev
  {
    hide Run, PendSteps, WatchedNodes;
    DrainCovers(date);
    Pend(w, b, name, Drain(date));
    r := Run(w, PendSteps(b, name, Drain(date)));
    WaitingWaits(r, name, date);
  }

  lemma StillWaits(w: World, r: World, name: string, date: Time, budgets: seq<BudgetCheck>)
    requires Waits(w, name, date, budgets) && name in r.nds && r.nds[name] == w.nds[name] && r.clock == w.clock
    ensures Waits(r, name, date, budgets)
  {
  }

  // ----- the older one is rejected, the younger one granted -----

  /** An attempt and its write, when another disruption is in the way. */
  lemma Rejects(w: World, healthURL: string, hookURL: string, name: string, names: seq<string>,
                budgets: seq<BudgetCheck>)
    returns (steps: seq<Step>, r: World)
    requires OnlyBudget(w, Guard(healthURL, hookURL)) && w.topology == ZONED && IsListing(names, w.nds.Keys)
    requires w.cfg.rejectOverlapping && !w.cfg.rejectEmpty
    requires Waits(w, name, ZeroTime, budgets) && Overlapped(w, name, Drain(ZeroTime))
    ensures r == Run(w, steps) && OnlyBudget(r, Guard(healthURL, hookURL)) && forall s | s in steps :: !s.SetBudgets?
    ensures r == w.(nds := r.nds, rev := r.rev, attempts := r.attempts, log := r.log)
    ensures r.nds == w.nds[name :=
            w.nds[name].(status := NDStatus(Rejected, [OwnFailure(w.nds[name])], SortedList(WATCHED), ZeroTime),
                                                version := w.rev)]
    ensures exists e :: r.log == w.log + [e] && e.Committed?
  {
    hide Run, Inv, IsListing, WatchedNodes, Overlapped, View, ApplyCommit;
    var b := Guard(healthURL, hookURL);
    var s := OverlappedAttempt(w, healthURL, hookURL, name, names, budgets);
    var decided := Run(w, AttemptOf(w, b, name, names));
    Writes(decided, name);
    CommitIs(decided);
    RunMore(w, AttemptOf(w, b, name, names), Commit);
    steps := AttemptOf(w, b, name, names) + [Commit];
    r := Run(w, steps);
    RunKeeps(w, steps);
    assert w.order + [] == w.order;
  }

  /**
    Two overlapping disruptions with the overlap check on: the older one is tried first and rejected because of the
    younger one, which then overlaps nobody and is granted.
   */
  lemma OlderRejectedYoungerGranted() returns (w: World, steps: seq<Step>)
    ensures Initial(w) && w.cfg.rejectOverlapping
    ensures var r := Run(w, steps);
            && "a" in r.nds && "b" in r.nds && r.nds["a"].uid < r.nds["b"].uid
            && Cover(r.topology, r.nds["a"].spec) * Cover(r.topology, r.nds["b"].spec) != {}
            && r.nds["a"].status.state == Rejected && r.nds["b"].status.state == Granted
  {
    hide Run, Inv, WatchedNodes, Cover, View, IsListing, ApplyCommit, PendSteps, Apply;
    var b := Guard("", "");
    w := StoryWorld(true, b);
    StoryStarts(true, "", "");
    DrainCovers(ZeroTime);
    TwoListing("a", "b");
    var w1 := Arrives(w, b, "a", ZeroTime);
    var w2 := Arrives(w1, b, "b", ZeroTime);
    Then(w, PendSteps(b, "a", Drain(ZeroTime)), w1, PendSteps(b, "b", Drain(ZeroTime)), w2);
    StillWaits(w1, w2, "a", ZeroTime, []);
    assert w2.nds.Keys == {"a", "b"};
    assert Overlapped(w2, "a", Drain(ZeroTime)) by {
      assert "b" in w2.nds && "n" in Cover(ZONED, Drain(ZeroTime));
    }
    var tail, w3 := Rejects(w2, "", "", "a", ["a", "b"], []);
    var soFar := PendSteps(b, "a", Drain(ZeroTime)) + PendSteps(b, "b", Drain(ZeroTime));
    Then(w, soFar, w2, tail, w3);
    StillWaits(w2, w3, "b", ZeroTime, []);
    assert w3.nds.Keys == {"a", "b"};
    var last, w4 := GrantsUnhooked(w3, "b", ["a", "b"]);
    Then(w, soFar + tail, w3, last, w4);
    steps := soFar + tail + last;
  }

  /** An attempt and its write, when nobody is in the way and the budget has no hooks. */
  lemma GrantsUnhooked(w: World, name: string, names: seq<string>) returns (steps: seq<Step>, r: World)
    requires OnlyBudget(w, Guard("", "")) && w.topology == ZONED && IsListing(names, w.nds.Keys) && w.order == []
    requires Waits(w, name, ZeroTime, []) && Passes(w, name, Drain(ZeroTime))
    ensures r == Run(w, steps) && r.topology == w.topology
    ensures name in r.nds && r.nds == w.nds[name := r.nds[name]] && r.nds[name].status.state == Granted
    ensures r.nds[name].spec == w.nds[name].spec && r.nds[name].uid == w.nds[name].uid
  {
    hide Run, Inv, IsListing, WatchedNodes, Passes, View, ApplyCommit;
    var b := Guard("", "");
    var s := GuardAttempt(w, "", "", name, names, ZeroTime, []);
    var decided := Run(w, AttemptOf(w, b, name, names));
    assert CheckFor(s, w.nds[name], Yes).ok;
    Writes(decided, name);
    CommitIs(decided);
    RunMore(w, AttemptOf(w, b, name, names), Commit);
    steps := AttemptOf(w, b, name, names) + [Commit];
    r := Run(w, steps);
  }

  // ----- applications that prepared and are not told -----

  const V2 := Guard("", "v2")
  const V2_REF := V2.GetNamespacedName()

  /** A first attempt on a v2 budget: prepare is answered, and the record of that is still to be written. */
  lemma Prepares(w: World, name: string, names: seq<string>) returns (d: World)
    requires OnlyBudget(w, V2) && w.topology == ZONED && IsListing(names, w.nds.Keys) && w.order == [] && w.log == []
    requires Waits(w, name, ZeroTime, []) && Passes(w, name, Drain(ZeroTime))
    ensures d == Run(w, AttemptOf(w, V2, name, names)) && Inv(d)
    ensures d == w.(worker := d.worker, attempts := d.attempts, log := d.log)
    ensures d.worker.Committing? && d.worker.read == w.nds[name]
    ensures d.worker.status == NDStatus(Pending, [BudgetCheck(V2_REF, true, false)], SortedList(WATCHED), ZeroTime)
    ensures |d.log| == 1 && Answered(d.log[0], w.nds[name].uid, Prepare, V2_REF)
  {
    hide Run, Inv, IsListing, WatchedNodes, Passes, View, HookBody;
    var s := GuardAttempt(w, "", "v2", name, names, ZeroTime, []);
    d := Run(w, AttemptOf(w, V2, name, names));
    RunKeeps(w, AttemptOf(w, V2, name, names));
    assert CheckFor(s, w.nds[name], Yes) == BudgetCheck(V2_REF, true, false);
    assert CallsFor(s, w.nds[name], Yes) == [HookCall(Prepare, V2_REF, HookBody(s, w.nds[name], Prepare), true)];
  }

  /** The end of a disruption under deletion with nothing recorded preparing: nobody is called. */
  lemma EndsQuietly(w: World, name: string)
    requires w.worker.Idle? && name in w.nds && w.nds[name].name == name
    requires w.nds[name].deleting && w.nds[name].finalizer && !w.nds[name].foreign
    requires forall s | s in w.nds[name].status.budgets :: !s.preparing
    ensures Run(w, [TerminatePass(name, Yes, {}), RemoveFinalizer]).log
            == w.log + [Released(w.attempts, w.nds[name].uid, w.nds[name].status.budgets)]
  {
    RunTwo(w, TerminatePass(name, Yes, {}), RemoveFinalizer);
    NobodyCalled(w.nds[name].status.budgets, w.nds[name], BudgetGetter(w.budgets, {}));
    assert w.log + CallEvents(w.attempts, w.nds[name].uid, []) == w.log;
  }

  lemma {:induction false} NobodyCalled(statuses: seq<BudgetCheck>, nd: NodeDisruption, get: Getter)
    requires forall s | s in statuses :: !s.preparing
    ensures TerminateCalls(statuses, nd, get, Yes) == [] && AllTerminated(statuses, get, Yes)
  {
    if statuses != [] {
      NobodyCalled(statuses[..|statuses| - 1], nd, get);
    }
  }

  /** The history has an answered prepare call, the finalizer given up, and no terminate call at all. */
  ghost predicate Untold(log: seq<Event>, uid: nat, ref: Ref) {
    && (exists j :: 0 <= j < |log| && Answered(log[j], uid, Prepare, ref))
    && (exists i :: 0 <= i < |log| && log[i].Released? && log[i].uid == uid)
    && (forall e | e in log :: e.Called? ==> e.call.kind != Terminate)
  }

  lemma UntoldLog(log: seq<Event>, uid: nat, ref: Ref)
    requires |log| >= 2 && Answered(log[0], uid, Prepare, ref) && log[|log| - 1].Released? && log[|log| - 1].uid == uid
    requires forall i | 0 < i < |log| :: !log[i].Called?
    ensures Untold(log, uid, ref)
  {
  }

  lemma StepsSetNothing(w: World, b: Budget, name: string, names: seq<string>, spec: NDSpec)
    ensures forall s | s in PendSteps(b, name, spec) + AttemptOf(w, b, name, names) :: !s.SetBudgets?
  {
  }

  /** First path: prepare is answered, the disruption is marked deleted, and the record of the answer is refused. */
  lemma PreparedThenDeleted() returns (w: World, steps: seq<Step>, uid: nat)
    ensures Initial(w) && Fixed(w, V2) && KeepsBudget(steps, V2) && Untold(Run(w, steps).log, uid, V2_REF)
  {
    hide Run, Inv, WatchedNodes, View, IsListing, PendSteps, AttemptOf, Apply, Budget.SameSpec, Cover, Untold, Answered;
    w := StoryWorld(false, V2);
    StoryStarts(false, "", "v2");
    OneListing("a");
    var w1 := Arrives(w, V2, "a", ZeroTime);
    assert w1.nds.Keys == {"a"};
    var d := Prepares(w1, "a", ["a"]);
    var arrive, attempt := PendSteps(V2, "a", Drain(ZeroTime)), AttemptOf(w1, V2, "a", ["a"]);
    Then(w, arrive, w1, attempt, d);
    DeletedMeanwhile(d, "a");
    var refused := Run(d, [MarkDeleted("a"), Commit]);
    Then(w, arrive + attempt, d, [MarkDeleted("a"), Commit], refused);
    EndsQuietly(refused, "a");
    steps := arrive + attempt + [MarkDeleted("a"), Commit] + [TerminatePass("a", Yes, {}), RemoveFinalizer];
    Then(w, arrive + attempt + [MarkDeleted("a"), Commit], refused, [TerminatePass("a", Yes, {}), RemoveFinalizer],
         Run(refused, [TerminatePass("a", Yes, {}), RemoveFinalizer]));
    uid := w1.nds["a"].uid;
    StepsSetNothing(w1, V2, "a", ["a"], Drain(ZeroTime));
    UntoldLog(Run(w, steps).log, uid, V2_REF);
  }

  lemma DeletedMeanwhile(d: World, name: string)
    requires Inv(d) && d.worker.Committing? && name in d.nds && d.worker.read == d.nds[name]
    requires d.nds[name].finalizer && !d.nds[name].deleting
    ensures var r := Run(d, [MarkDeleted(name), Commit]);
            && r.worker.Idle? && r.log == d.log && r.attempts == d.attempts && r.budgets == d.budgets
            && r.nds == d.nds[name := d.nds[name].(deleting := true, version := d.rev)]
  {
    RunTwo(d, MarkDeleted(name), Commit);
  }

  /** An attempt that records the answer of prepare. */
  lemma Prepared(w: World) returns (steps: seq<Step>, r: World)
    requires w == StoryWorld(true, V2)
    ensures r == Run(w, steps) && OnlyBudget(r, V2) && Waits(r, "a", ZeroTime, [BudgetCheck(V2_REF, true, false)])
    ensures r.topology == ZONED && r.cfg == w.cfg && r.nds.Keys == {"a"} && r.clock == 0
    ensures |r.log| == 2 && Answered(r.log[0], r.nds["a"].uid, Prepare, V2_REF)
    ensures r.log[1].Committed? && r.log[1].state == Pending && r.order == []
    ensures forall s | s in steps :: !s.SetBudgets?
  {
    hide Run, Inv, WatchedNodes, View, IsListing, PendSteps, Apply, Budget.SameSpec, Cover, ApplyCommit, AttemptOf,
         Answered;
    StoryStarts(true, "", "v2");
    OneListing("a");
    var w1 := Arrives(w, V2, "a", ZeroTime);
    assert w1.nds.Keys == {"a"};
    var d := Prepares(w1, "a", ["a"]);
    var arrive, attempt := PendSteps(V2, "a", Drain(ZeroTime)), AttemptOf(w1, V2, "a", ["a"]);
    Then(w, arrive, w1, attempt, d);
    r := Remembers(d, "a");
    Then(w, arrive + attempt, d, [Commit], r);
    StepsSetNothing(w1, V2, "a", ["a"], Drain(ZeroTime));
    steps := arrive + attempt + [Commit];
  }

  /** Second path: the record was written, and a later attempt that fails the overlap check forgets it. */
  lemma PreparedThenForgotten() returns (w: World, steps: seq<Step>, uid: nat)
    ensures Initial(w) && Fixed(w, V2) && KeepsBudget(steps, V2) && Untold(Run(w, steps).log, uid, V2_REF)
  {
    hide Run, Inv, WatchedNodes, View, IsListing, PendSteps, Apply, Budget.SameSpec, Cover, ApplyCommit, AttemptOf,
         Untold, Answered;
    w := StoryWorld(true, V2);
    StoryStarts(true, "", "v2");
    TwoListing("a", "b");
    DrainCovers(ZeroTime);
    var prepare, w2 := Prepared(w);
    var w3 := Arrives(w2, V2, "b", ZeroTime);
    Then(w, prepare, w2, PendSteps(V2, "b", Drain(ZeroTime)), w3);
    StillWaits(w2, w3, "a", ZeroTime, [BudgetCheck(V2_REF, true, false)]);
    assert w3.nds.Keys == {"a", "b"};
    assert Overlapped(w3, "a", Drain(ZeroTime)) by {
      assert "b" in w3.nds && "n" in Cover(ZONED, Drain(ZeroTime));
    }
    var tail, w4 := Rejects(w3, "", "v2", "a", ["a", "b"], [BudgetCheck(V2_REF, true, false)]);
    var soFar := prepare + PendSteps(V2, "b", Drain(ZeroTime));
    Then(w, soFar, w3, tail, w4);
    MarksDeleted(w4, "a");
    var w5 := Run(w4, [MarkDeleted("a")]);
    Then(w, soFar + tail, w4, [MarkDeleted("a")], w5);
    EndsQuietly(w5, "a");
    var w6 := Run(w5, [TerminatePass("a", Yes, {}), RemoveFinalizer]);
    Then(w, soFar + tail + [MarkDeleted("a")], w5, [TerminatePass("a", Yes, {}), RemoveFinalizer], w6);
    steps := soFar + tail + [MarkDeleted("a")] + [TerminatePass("a", Yes, {}), RemoveFinalizer];
    uid := w2.nds["a"].uid;
    StepsSetNothing(w2, V2, "b", [], Drain(ZeroTime));
    UntoldLog(w6.log, uid, V2_REF);
  }

  lemma Remembers(d: World, name: string) returns (r: World)
    requires Inv(d) && d.worker.Committing? && name in d.nds && d.worker.read == d.nds[name] && d.topology == ZONED
    requires Waits(d, name, ZeroTime, []) && d.order == [] && WatchedNodes(TopologyView(ZONED), V2).Ok?
    requires d.budgets == map[V2_REF := V2]
    requires d.worker.status == NDStatus(Pending, [BudgetCheck(V2_REF, true, false)], SortedList(WATCHED), ZeroTime)
    ensures r == Run(d, [Commit]) && OnlyBudget(r, V2) && Waits(r, name, ZeroTime, [BudgetCheck(V2_REF, true, false)])
    ensures r == d.(worker := Idle, nds := r.nds, rev := r.rev, log := r.log)
    ensures r.nds == d.nds[name := r.nds[name]] && r.nds[name].uid == d.nds[name].uid
    ensures exists e :: r.log == d.log + [e] && e.Committed? && e.state == Pending
  {
    hide Run, Inv, WatchedNodes, ApplyCommit;
    RunOne(d, Commit);
    CommitIs(d);
    Writes(d, name);
    RunKeeps(d, [Commit]);
    r := Run(d, [Commit]);
    assert d.order + [] == d.order;
  }

  lemma MarksDeleted(w: World, name: string)
    requires name in w.nds && !w.nds[name].deleting && w.nds[name].finalizer && w.nds[name].name == name
    ensures Run(w, [MarkDeleted(name)])
         == w.(nds := w.nds[name := w.nds[name].(deleting := true, version := w.rev)], rev := w.rev + 1)
  {
    RunOne(w, MarkDeleted(name));
  }

  // ----- a grant through prepare and ready -----

  /** A second attempt on a v2 budget: ready is answered, and the grant is to be written. */
  lemma IsReady(w: World) returns (d: World)
    requires OnlyBudget(w, V2) && w.topology == ZONED && w.nds.Keys == {"a"} && w.order == []
    requires Waits(w, "a", ZeroTime, [BudgetCheck(V2_REF, true, false)]) && Passes(w, "a", Drain(ZeroTime))
    ensures d == Run(w, AttemptOf(w, V2, "a", ["a"]))
    ensures d == w.(worker := d.worker, attempts := d.attempts, log := d.log)
    ensures d.worker.Committing? && d.worker.read == w.nds["a"]
    ensures d.worker.status == NDStatus(Granted, [BudgetCheck(V2_REF, true, true)], SortedList(WATCHED), ZeroTime)
    ensures exists e :: d.log == w.log + [e] && Answered(e, w.nds["a"].uid, Ready, V2_REF)
  {
    hide Run, Inv, IsListing, WatchedNodes, Passes, View, HookBody;
    OneListing("a");
    var s := GuardAttempt(w, "", "v2", "a", ["a"], ZeroTime, [BudgetCheck(V2_REF, true, false)]);
    d := Run(w, AttemptOf(w, V2, "a", ["a"]));
    assert CheckFor(s, w.nds["a"], Yes) == BudgetCheck(V2_REF, true, true);
    var call := HookCall(Ready, V2_REF, HookBody(s, w.nds["a"], Ready), true);
    assert CallsFor(s, w.nds["a"], Yes) == [call];
    assert CallEvents(w.attempts, w.nds["a"].uid, [call]) == [Called(w.attempts, w.nds["a"].uid, call)];
  }

  /** The regular way: prepare is answered in one attempt, ready in the next one, which grants. */
  lemma GrantedWhenReady() returns (w: World, steps: seq<Step>)
    ensures Initial(w) && Fixed(w, V2) && KeepsBudget(steps, V2) && V2HooksReady(V2)
    ensures var r := Run(w, steps);
            && "a" in r.nds && r.nds["a"].status.state == Granted && Relevant(r.topology, V2, r.nds["a"].spec)
            && r.nds["a"].status.budgets == [BudgetCheck(V2_REF, true, true)]
            && |r.log| == 4
            && Answered(r.log[0], r.nds["a"].uid, Prepare, V2_REF) && r.log[1].Committed? && r.log[1].state == Pending
            && Answered(r.log[2], r.nds["a"].uid, Ready, V2_REF) && r.log[3].Committed? && r.log[3].state == Granted
  {
    hide Run, Inv, WatchedNodes, View, IsListing, Apply, Budget.SameSpec, Cover, ApplyCommit, AttemptOf, Answered;
    w := StoryWorld(true, V2);
    StoryStarts(true, "", "v2");
    var first, w1 := Prepared(w);
    AloneIsClear(w1);
    var d := IsReady(w1);
    var attempt := AttemptOf(w1, V2, "a", ["a"]);
    Then(w, first, w1, attempt, d);
    Writes(d, "a");
    CommitIs(d);
    RunOne(d, Commit);
    steps := first + attempt + [Commit];
    Then(w, first + attempt, d, [Commit], Run(d, [Commit]));
    GuardWatches("", "v2");
    DrainCovers(ZeroTime);
    assert "n" in Watch(ZONED, V2) * Cover(ZONED, Drain(ZeroTime));
    StepsSetNothing(w1, V2, "a", ["a"], Drain(ZeroTime));
  }

  lemma AloneIsClear(w: World)
    requires w.nds.Keys == {"a"} && w.cfg.rejectOverlapping && !w.cfg.rejectEmpty
    ensures Passes(w, "a", Drain(ZeroTime))
  {
    hide Cover;
  }

  // ----- a grant without prepare and ready -----

  const HEALTH := Guard("health", "")
  const SWITCHED := Guard("health", "v2")

  /** A first attempt on a budget with a health hook, deferred by its date: the health check is to be recorded as Ok. */
  lemma ChecksHealth(w: World) returns (d: World)
    requires OnlyBudget(w, HEALTH) && w.topology == ZONED && w.nds.Keys == {"a"} && w.order == [] && w.log == []
             && w.clock == 0
    requires Waits(w, "a", At(10), []) && Passes(w, "a", Drain(At(10)))
    ensures d == Run(w, AttemptOf(w, HEALTH, "a", ["a"])) && Inv(d)
    ensures d == w.(worker := d.worker, attempts := d.attempts, log := d.log)
    ensures d.worker.Committing? && d.worker.read == w.nds["a"]
    ensures d.worker.status == NDStatus(Pending, [BudgetCheck(V2_REF, false, true)], SortedList(WATCHED), At(10))
    ensures forall e | e in d.log :: e.Called? ==> e.call.kind == Health
  {
    hide Run, Inv, IsListing, WatchedNodes, Passes, View, HookBody;
    OneListing("a");
    var s := GuardAttempt(w, "health", "", "a", ["a"], At(10), []);
    d := Run(w, AttemptOf(w, HEALTH, "a", ["a"]));
    RunKeeps(w, AttemptOf(w, HEALTH, "a", ["a"]));
    assert CheckFor(s, w.nds["a"], Yes) == BudgetCheck(V2_REF, false, true);
    assert CallsFor(s, w.nds["a"], Yes) == [HookCall(Health, V2_REF, HookBody(s, w.nds["a"], Health), true)];
  }

  /** And the attempt after the budget got a v2 URL: it grants and calls nobody. */
  lemma AsksNobody(w: World) returns (d: World)
    requires OnlyBudget(w, SWITCHED) && w.topology == ZONED && w.nds.Keys == {"a"} && w.order == [] && w.clock == 10
    requires Waits(w, "a", At(10), [BudgetCheck(V2_REF, false, true)]) && Passes(w, "a", Drain(At(10)))
    ensures d == Run(w, AttemptOf(w, SWITCHED, "a", ["a"]))
    ensures d == w.(worker := d.worker, attempts := d.attempts)
    ensures d.worker.Committing? && d.worker.read == w.nds["a"] && d.worker.status.state == Granted
  {
    hide Run, Inv, IsListing, WatchedNodes, Passes, View, HookBody;
    OneListing("a");
    var s := GuardAttempt(w, "health", "v2", "a", ["a"], At(10), [BudgetCheck(V2_REF, false, true)]);
    d := Run(w, AttemptOf(w, SWITCHED, "a", ["a"]));
    LegacyOkSkipsV2Hooks(s, w.nds["a"], Yes);
    assert w.log + CallEvents(w.attempts, w.nds["a"].uid, []) == w.log;
  }

  /** Up to the record of the health check. */
  lemma Healthy(w: World) returns (steps: seq<Step>, r: World)
    requires w == StoryWorld(false, HEALTH)
    ensures r == Run(w, steps) && OnlyBudget(r, HEALTH) && r.topology == ZONED && r.cfg == w.cfg && r.nds.Keys == {"a"}
            && r.clock == 0
    ensures r.nds["a"].name == "a" && r.nds["a"].spec == Drain(At(10)) && r.nds["a"].finalizer && !r.nds["a"].deleting
            && !r.nds["a"].foreign
    ensures r.nds["a"].status == NDStatus(Pending, [BudgetCheck(V2_REF, false, true)], SortedList(WATCHED), At(10))
    ensures r.order == [] && forall e | e in r.log :: e.Called? ==> e.call.kind == Health
  {
    hide Run, Inv, WatchedNodes, View, IsListing, PendSteps, Apply, Budget.SameSpec, ApplyCommit, AttemptOf;
    StoryStarts(false, "health", "");
    var w1 := Arrives(w, HEALTH, "a", At(10));
    assert w1.nds.Keys == {"a"};
    var d := ChecksHealth(w1);
    var arrive, attempt := PendSteps(HEALTH, "a", Drain(At(10))), AttemptOf(w1, HEALTH, "a", ["a"]);
    Then(w, arrive, w1, attempt, d);
    Writes(d, "a");
    CommitIs(d);
    RunOne(d, Commit);
    r := Run(d, [Commit]);
    RunKeeps(d, [Commit]);
    steps := arrive + attempt + [Commit];
    Then(w, arrive + attempt, d, [Commit], r);
  }

  /** The budget gets a v2 URL, and the date comes. */
  lemma Switches(w: World) returns (steps: seq<Step>, r: World)
    requires OnlyBudget(w, HEALTH) && w.topology == ZONED && w.clock == 0
    ensures r == Run(w, steps) && OnlyBudget(r, SWITCHED) && r == w.(budgets := map[V2_REF := SWITCHED], clock := 10)
  {
    hide Run, Inv, WatchedNodes;
    var budgets := map[V2_REF := SWITCHED];
    steps := [SetBudgets(budgets), Tick(10)];
    RunTwo(w, SetBudgets(budgets), Tick(10));
    RunKeeps(w, steps);
    GuardWatches("health", "v2");
    r := Run(w, steps);
  }

  /**
    A disruption granted under a v2 budget that was never asked to prepare nor whether it is ready: its health check was
    recorded while it had no v2 URL, and the grant had to wait for its date.
   */
  lemma GrantedUnprepared() returns (w: World, steps: seq<Step>)
    ensures Initial(w)
    ensures var r := Run(w, steps);
            && "a" in r.nds && r.nds["a"].status.state == Granted
            && r.budgets == map[V2_REF := SWITCHED] && V2HooksReady(SWITCHED)
            && Relevant(r.topology, SWITCHED, r.nds["a"].spec)
            && forall e | e in r.log :: e.Called? ==> e.call.kind == Health
  {
    hide Run, Inv, WatchedNodes, View, IsListing, Apply, Budget.SameSpec, ApplyCommit, AttemptOf;
    w := StoryWorld(false, HEALTH);
    StoryStarts(false, "health", "");
    var first, w1 := Healthy(w);
    var change, w2 := Switches(w1);
    Then(w, first, w1, change, w2);
    var d := AsksNobody(w2);
    var attempt := AttemptOf(w2, SWITCHED, "a", ["a"]);
    Then(w, first + change, w2, attempt, d);
    Writes(d, "a");
    CommitIs(d);
    RunOne(d, Commit);
    Then(w, first + change + attempt, d, [Commit], Run(d, [Commit]));
    steps := first + change + attempt + [Commit];
    SwitchedRelevant();
  }

  lemma SwitchedRelevant()
    ensures V2HooksReady(SWITCHED) && Relevant(ZONED, SWITCHED, Drain(At(10)))
  {
    GuardWatches("health", "v2");
    DrainCovers(At(10));
    assert "n" in Watch(ZONED, SWITCHED) * Cover(ZONED, Drain(At(10)));
  }
}
