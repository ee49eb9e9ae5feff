/** In what order hooks have answered before a grant, and before the finalizer goes, for a budget whose spec stays. */
module Hooks {
  import opened Types
  import opened Sorting
  import opened Resolver
  import opened BudgetSpec
  import opened Admission
  import opened Protocol
  import opened Lifecycle
  import opened Safety
  import opened History
  import Accounting

  // ----- what the history shows -----

  ghost predicate Answered(e: Event, uid: nat, kind: HookKind, ref: Ref) {
    e.Called? && e.uid == uid && e.call.kind == kind && e.call.ref == ref && e.call.ok
  }

  /** A successful prepare call of an attempt before `attempt`. */
  ghost predicate PreparedBefore(log: seq<Event>, uid: nat, ref: Ref, attempt: nat) {
    exists j :: 0 <= j < |log| && Answered(log[j], uid, Prepare, ref) && log[j].attempt < attempt
  }

  /** A successful call of this kind in this very attempt. */
  ghost predicate AnsweredIn(log: seq<Event>, uid: nat, kind: HookKind, ref: Ref, attempt: nat) {
    exists j :: 0 <= j < |log| && Answered(log[j], uid, kind, ref) && log[j].attempt == attempt
  }

  /** What a grant in this attempt needs from the budget. */
  ghost predicate GrantBacked(log: seq<Event>, uid: nat, b: Budget, attempt: nat) {
    var ref := b.GetNamespacedName();
    if V2HooksReady(b) then PreparedBefore(log, uid, ref, attempt) && AnsweredIn(log, uid, Ready, ref, attempt)
    else Sends(b, Health) ==> AnsweredIn(log, uid, Health, ref, attempt)
  }

  lemma MoreHistory(log: seq<Event>, more: seq<Event>, uid: nat, ref: Ref, attempt: nat)
    ensures PreparedBefore(log, uid, ref, attempt) ==> PreparedBefore(log + more, uid, ref, attempt)
    ensures forall kind :: AnsweredIn(log, uid, kind, ref, attempt) ==> AnsweredIn(log + more, uid, kind, ref, attempt)
  {
    if PreparedBefore(log, uid, ref, attempt) {
      var j :| 0 <= j < |log| && Answered(log[j], uid, Prepare, ref) && log[j].attempt < attempt;
      assert (log + more)[j] == log[j];
    }
    forall kind | AnsweredIn(log, uid, kind, ref, attempt) ensures AnsweredIn(log + more, uid, kind, ref, attempt) {
      var j :| 0 <= j < |log| && Answered(log[j], uid, kind, ref) && log[j].attempt == attempt;
      assert (log + more)[j] == log[j];
    }
  }

  lemma CallInHistory(log: seq<Event>, attempt: nat, uid: nat, calls: seq<HookCall>, call: HookCall)
    requires call in calls && call.ok
    ensures AnsweredIn(log + CallEvents(attempt, uid, calls), uid, call.kind, call.ref, attempt)
  {
    var i :| 0 <= i < |calls| && calls[i] == call;
    assert (log + CallEvents(attempt, uid, calls))[|log| + i] == Called(attempt, uid, call);
  }

  // ----- the invariant -----

  /**
    Every recorded status of the budget is true: preparing means a prepare call succeeded before `attempt`, and a v2
    budget is recorded Ok only while it is recorded preparing.
   */
  ghost predicate StatusesBacked(log: seq<Event>, uid: nat, b: Budget, statuses: seq<BudgetCheck>, attempt: nat) {
    forall s | s in statuses && s.ref == b.GetNamespacedName() && V2HooksReady(b) ::
      && (s.preparing ==> PreparedBefore(log, uid, b.GetNamespacedName(), attempt))
      && (s.ok ==> s.preparing)
  }

  ghost predicate StoreBacked(w: World, b: Budget) {
    forall n | n in w.nds :: StatusesBacked(w.log, w.nds[n].uid, b, w.nds[n].status.budgets, w.attempts)
  }

  /** The worker's list holds the budget, once, and its synced copies are in step with the list. */
  ghost predicate ListHolds(w: World, b: Budget, listed: seq<Budget>, synced: seq<Budget>) {
    && DistinctRefs(listed) && |synced| <= |listed|
    && (forall i | 0 <= i < |synced| :: synced[i].SameSpec(listed[i]))
    && exists i :: 0 <= i < |listed| && listed[i].SameSpec(b)
                   && (i < |synced| ==> InSync(synced[i], Watch(w.topology, b)))
  }

  /** Everything recorded preparing acknowledged terminate in this pass. */
  ghost predicate TerminateBacked(log: seq<Event>, uid: nat, b: Budget, statuses: seq<BudgetCheck>, attempt: nat) {
    V2HooksReady(b) && RecordedPreparing(statuses, b.GetNamespacedName()) ==>
      AnsweredIn(log, uid, Terminate, b.GetNamespacedName(), attempt)
  }

  ghost predicate WorkerBacked(w: World, b: Budget) {
    match w.worker
    case Idle => true
    case Syncing(read, _, attempt, _, listed, synced) =>
      StatusesBacked(w.log, read.uid, b, read.status.budgets, attempt) && ListHolds(w, b, listed, synced)
    case Committing(read, attempt, status, _) =>
      && StatusesBacked(w.log, read.uid, b, status.budgets, attempt + 1)
      && (read.status.state == Pending && status.state == Granted && Relevant(w.topology, b, read.spec) ==>
            GrantBacked(w.log, read.uid, b, attempt))
    case Removing(read, attempt) =>
      TerminateBacked(w.log, read.uid, b, read.status.budgets, attempt)
  }

  /** What event i says is backed by the events before it. */
  ghost predicate EventBacked(t: Topology, b: Budget, before: seq<Event>, e: Event) {
    var ref := b.GetNamespacedName();
    match e
    case Called(attempt, uid, call) =>
      call.kind == Ready && call.ref == ref && V2HooksReady(b) ==> PreparedBefore(before, uid, ref, attempt)
    case Committed(attempt, uid, spec, _, state) =>
      state == Granted && Relevant(t, b, spec) ==> GrantBacked(before, uid, b, attempt)
    case Released(attempt, uid, budgets) =>
      TerminateBacked(before, uid, b, budgets, attempt)
  }

  ghost predicate LogBacked(t: Topology, b: Budget, log: seq<Event>) {
    forall i | 0 <= i < |log| :: EventBacked(t, b, log[..i], log[i])
  }

  ghost predicate Backed(w: World, b: Budget) {
    Fixed(w, b) && StoreBacked(w, b) && WorkerBacked(w, b) && LogBacked(w.topology, b, w.log)
  }

  // ----- preservation -----

  lemma MoreStatuses(log: seq<Event>, more: seq<Event>, uid: nat, b: Budget, statuses: seq<BudgetCheck>,
      attempt: nat, later: nat)
    requires StatusesBacked(log, uid, b, statuses, attempt) && attempt <= later
    ensures StatusesBacked(log + more, uid, b, statuses, later)
  {
    if PreparedBefore(log, uid, b.GetNamespacedName(), attempt) {
      MoreHistory(log, more, uid, b.GetNamespacedName(), attempt);
      assert PreparedBefore(log + more, uid, b.GetNamespacedName(), attempt);
      var j :| 0 <= j < |log + more| && Answered((log + more)[j], uid, Prepare, b.GetNamespacedName())
          && (log + more)[j].attempt < attempt;
    }
  }

  lemma LaterStatuses(log: seq<Event>, uid: nat, b: Budget, statuses: seq<BudgetCheck>, attempt: nat, later: nat)
    requires StatusesBacked(log, uid, b, statuses, attempt) && attempt <= later
    ensures StatusesBacked(log, uid, b, statuses, later)
  {
    MoreStatuses(log, [], uid, b, statuses, attempt, later);
    assert log + [] == log;
  }

  lemma MoreLog(t: Topology, b: Budget, log: seq<Event>, more: seq<Event>)
    requires LogBacked(t, b, log)
    requires forall i | 0 <= i < |more| :: EventBacked(t, b, log + more[..i], more[i])
    ensures LogBacked(t, b, log + more)
  {
    var l := log + more;
    forall i | 0 <= i < |l| ensures EventBacked(t, b, l[..i], l[i]) {
      if i < |log| {
        assert l[..i] == log[..i];
      } else {
        assert l[..i] == log + more[..i - |log|];
      }
    }
  }

  lemma StoreMoreLog(w: World, b: Budget, more: seq<Event>, attempts: nat)
    requires StoreBacked(w, b) && w.attempts <= attempts
    ensures StoreBacked(w.(log := w.log + more, attempts := attempts), b)
  {
    forall n | n in w.nds ensures StatusesBacked(w.log + more, w.nds[n].uid, b, w.nds[n].status.budgets, attempts) {
      MoreStatuses(w.log, more, w.nds[n].uid, b, w.nds[n].status.budgets, w.attempts, attempts);
    }
  }

  lemma StartBacked(w: World, name: string, refs: seq<Ref>, b: Budget)
    requires Inv(w) && Backed(w, b)
    ensures Backed(ApplyStart(w, name, refs), b)
  {
    var w' := ApplyStart(w, name, refs);
    if CanStart(w, name) && IsListing(refs, w.budgets.Keys) {
      StoreMoreLog(w, b, [], w'.attempts);
      assert w.log + [] == w.log;
      LaterStatuses(w.log, w.nds[name].uid, b, w.nds[name].status.budgets, w.attempts, w'.attempts);
      SnapshotHolds(w, refs, b);
    }
  }

  lemma SnapshotHolds(w: World, refs: seq<Ref>, b: Budget)
    requires Inv(w) && Fixed(w, b) && IsListing(refs, w.budgets.Keys)
    ensures ListHolds(w, b, Snapshot(w, refs), [])
  {
    ListingMembers(refs, w.budgets.Keys);
    var listed := Snapshot(w, refs);
    forall i, j | 0 <= i < j < |listed| ensures listed[i].GetNamespacedName() != listed[j].GetNamespacedName() {
      assert refs[i] in refs && refs[j] in refs;
    }
    var i :| 0 <= i < |refs| && refs[i] == b.GetNamespacedName();
    assert listed[i].SameSpec(b);
  }

  lemma SyncNextHolds(w: World, names: seq<string>, b: Budget)
    requires Inv(w) && w.worker.Syncing? && |w.worker.synced| < |w.worker.listed| && IsListing(names, w.nds.Keys)
    requires ListHolds(w, b, w.worker.listed, w.worker.synced)
    requires !SyncFails(View(w, names), w.worker.listed[|w.worker.synced|])
    ensures var last := w.worker.listed[|w.worker.synced|];
            ListHolds(w, b, w.worker.listed,
                      w.worker.synced + [last.(status := SyncedStatus(View(w, names), last).value)])
  {
    var last := w.worker.listed[|w.worker.synced|];
    SyncCountsGranted(w, names, last);
    AppendHolds(w, b, w.worker.listed, w.worker.synced, SyncedStatus(View(w, names), last).value);
  }

  lemma StatusOutsideSpec(b: Budget, status: BudgetStatus)
    ensures b.(status := status).SameSpec(b)
  {
  }

  lemma AppendHolds(w: World, b: Budget, listed: seq<Budget>, synced: seq<Budget>, status: BudgetStatus)
    requires ListHolds(w, b, listed, synced) && |synced| < |listed|
    requires var last := listed[|synced|]; InSync(last.(status := status), Watch(w.topology, last))
    ensures ListHolds(w, b, listed, synced + [listed[|synced|].(status := status)])
  {
    hide DistinctRefs, InSync, Watch, Budget.SameSpec;
    StatusOutsideSpec(listed[|synced|], status);
    var i :| 0 <= i < |listed| && listed[i].SameSpec(b) && (i < |synced| ==> InSync(synced[i], Watch(w.topology, b)));
    var synced' := synced + [listed[|synced|].(status := status)];
    if i == |synced| {
      WatchOfSameSpec(w.topology, b, listed[i]);
    }
    assert i < |synced'| ==> InSync(synced'[i], Watch(w.topology, b));
  }

  lemma ListHoldsAnywhere(w: World, w': World, b: Budget, listed: seq<Budget>, synced: seq<Budget>)
    requires ListHolds(w, b, listed, synced) && w'.topology == w.topology
    ensures ListHolds(w', b, listed, synced)
  {
  }

  lemma WorkerOnly(w: World, w': World, b: Budget)
    requires Backed(w, b) && w' == w.(worker := w'.worker)
    ensures WorkerBacked(w', b) ==> Backed(w', b)
  {
  }

  lemma SyncNextBacked(w: World, names: seq<string>, b: Budget)
    requires Inv(w) && Backed(w, b)
    ensures Backed(ApplySyncNext(w, names), b)
  {
    var w' := ApplySyncNext(w, names);
    WorkerOnly(w, w', b);
    if w'.worker.Syncing? && w'.worker != w.worker {
      SyncNextHolds(w, names, b);
      ListHoldsAnywhere(w, w', b, w.worker.listed, w'.worker.synced);
    }
  }

  lemma SameSpecName(s: Budget, b: Budget)
    requires s.SameSpec(b)
    ensures s.GetNamespacedName() == b.GetNamespacedName()
  {
  }

  lemma SameSpecTransitive(s: Budget, l: Budget, b: Budget)
    requires s.SameSpec(l) && l.SameSpec(b)
    ensures s.SameSpec(b)
  {
  }

  /** The synced copy the worker consults for the budget. */
  lemma SyncedCopy(w: World, b: Budget) returns (s: Budget)
    requires Inv(w) && w.worker.Syncing? && |w.worker.synced| == |w.worker.listed|
    requires ListHolds(w, b, w.worker.listed, w.worker.synced)
    ensures DistinctRefs(w.worker.synced)
    ensures s in w.worker.synced && s.SameSpec(b) && InSync(s, Watch(w.topology, b))
    ensures forall s' | s' in w.worker.synced && s'.GetNamespacedName() == b.GetNamespacedName() :: s' == s
  {
    hide InSync, Watch, Budget.SameSpec, UidInv, LogInv, OrderInv, FinalizerInv, StoreInv;
    var listed, synced := w.worker.listed, w.worker.synced;
    var i :| 0 <= i < |listed| && listed[i].SameSpec(b) && (i < |synced| ==> InSync(synced[i], Watch(w.topology, b)));
    s := synced[i];
    forall j | 0 <= j < |synced| ensures synced[j].GetNamespacedName() == listed[j].GetNamespacedName() {
      SameSpecName(synced[j], listed[j]);
    }
    SameSpecName(listed[i], b);
    SameSpecTransitive(s, listed[i], b);
    forall j, k | 0 <= j < k < |synced| ensures synced[j].GetNamespacedName() != synced[k].GetNamespacedName() {
      assert synced[j].SameSpec(listed[j]) && synced[k].SameSpec(listed[k]);
    }
    forall s' | s' in synced && s'.GetNamespacedName() == b.GetNamespacedName() ensures s' == s {
      var j :| 0 <= j < |synced| && synced[j] == s';
    }
  }

  lemma RelevantIsConsulted(w: World, b: Budget, s: Budget)
    requires Inv(w) && w.worker.Syncing? && s.SameSpec(b) && InSync(s, Watch(w.topology, b))
    requires Relevant(w.topology, b, w.worker.read.spec)
    ensures Consulted(s, w.worker.nd)
  {
    SortedElements(Watch(w.topology, b));
    SortedElements(Cover(w.topology, w.worker.read.spec));
    assert (set x | x in s.status.watched) == Elements(s.status.watched);
  }

  /** Each call of an attempt is for a budget in its list, with the hook its recorded status asks for. */
  lemma AttemptCall(nd: NodeDisruption, bs: seq<Budget>, answers: Answers, call: HookCall) returns (s: Budget)
    requires call in BudgetCalls(nd, bs, answers)
    ensures s in bs && s.GetNamespacedName() == call.ref
            && HookToCall(s, Recorded(nd.status.budgets, call.ref)) == Some(call.kind)
  {
    CallInAllCalls(ConsultedBudgets(bs, nd), nd, answers, call);
    s :| s in ConsultedBudgets(bs, nd) && call in CallsFor(s, nd, answers);
  }

  lemma RecordedBacked(log: seq<Event>, uid: nat, b: Budget, statuses: seq<BudgetCheck>, attempt: nat)
    requires StatusesBacked(log, uid, b, statuses, attempt) && V2HooksReady(b)
    ensures var recorded := Recorded(statuses, b.GetNamespacedName());
            && (recorded.preparing ==> PreparedBefore(log, uid, b.GetNamespacedName(), attempt))
            && (recorded.ok ==> recorded.preparing)
  {
    RecordedIsPresent(statuses, b.GetNamespacedName());
  }

  /** The statuses an attempt concludes with are true, given its own calls. */
  lemma VerdictBacked(log: seq<Event>, nd: NodeDisruption, b: Budget, s: Budget, bs: seq<Budget>, answers: Answers,
      attempt: nat)
    requires StatusesBacked(log, nd.uid, b, nd.status.budgets, attempt)
    requires DistinctRefs(bs) && s in bs && s.SameSpec(b)
    ensures StatusesBacked(log + CallEvents(attempt, nd.uid, BudgetCalls(nd, bs, answers)), nd.uid, b,
                           BudgetVerdict(nd, bs, answers).statuses, attempt + 1)
  {
    var ref := b.GetNamespacedName();
    var events := CallEvents(attempt, nd.uid, BudgetCalls(nd, bs, answers));
    var cs := ConsultedBudgets(bs, nd);
    if V2HooksReady(b) && !AnyRefusal(bs, nd) {
      RecordedBacked(log, nd.uid, b, nd.status.budgets, attempt);
      MoreHistory(log, events, nd.uid, ref, attempt);
      ConsultedRefs(bs, nd);
      ChecksRecorded(cs, nd, answers, ref);
      if s in cs {
        PrepareLogged(log, nd, s, bs, answers, attempt);
      } else {
        NoOtherCopy(bs, s, cs, ref);
      }
    }
  }

  lemma NoOtherCopy(bs: seq<Budget>, s: Budget, cs: seq<Budget>, ref: Ref)
    requires DistinctRefs(bs) && s in bs && s.GetNamespacedName() == ref && s !in cs && forall c | c in cs :: c in bs
    ensures forall c | c in cs :: c.GetNamespacedName() != ref
  {
    forall c | c in cs ensures c.GetNamespacedName() != ref {
      var i :| 0 <= i < |bs| && bs[i] == s;
      var j :| 0 <= j < |bs| && bs[j] == c;
    }
  }

  /** A v2 check that turns to preparing has logged a successful prepare call. */
  lemma PrepareLogged(log: seq<Event>, nd: NodeDisruption, s: Budget, bs: seq<Budget>, answers: Answers, attempt: nat)
    requires !AnyRefusal(bs, nd) && s in ConsultedBudgets(bs, nd) && V2HooksReady(s)
    requires Recorded(nd.status.budgets, s.GetNamespacedName()).ok ==>
               Recorded(nd.status.budgets, s.GetNamespacedName()).preparing
    ensures var log' := log + CallEvents(attempt, nd.uid, BudgetCalls(nd, bs, answers));
            CheckFor(s, nd, answers).preparing && !Recorded(nd.status.budgets, s.GetNamespacedName()).preparing ==>
              PreparedBefore(log', nd.uid, s.GetNamespacedName(), attempt + 1)
  {
    var ref := s.GetNamespacedName();
    if CheckFor(s, nd, answers).preparing && !Recorded(nd.status.budgets, ref).preparing {
      var call := HookCall(Prepare, ref, HookBody(s, nd, Prepare), true);
      assert call in CallsFor(s, nd, answers);
      CallInAllCalls(ConsultedBudgets(bs, nd), nd, answers, call);
      CallInHistory(log, attempt, nd.uid, BudgetCalls(nd, bs, answers), call);
    }
  }

  lemma DecideLogBacked(w: World, nd: NodeDisruption, b: Budget, s: Budget, bs: seq<Budget>, answers: Answers,
      attempt: nat)
    requires LogBacked(w.topology, b, w.log) && StatusesBacked(w.log, nd.uid, b, nd.status.budgets, attempt)
    requires s in bs && s.SameSpec(b)
    requires forall s' | s' in bs && s'.GetNamespacedName() == b.GetNamespacedName() :: s' == s
    ensures LogBacked(w.topology, b, w.log + CallEvents(attempt, nd.uid, BudgetCalls(nd, bs, answers)))
  {
    var calls := BudgetCalls(nd, bs, answers);
    var more := CallEvents(attempt, nd.uid, calls);
    forall i | 0 <= i < |more| ensures EventBacked(w.topology, b, w.log + more[..i], more[i]) {
      if calls[i].kind == Ready && calls[i].ref == b.GetNamespacedName() && V2HooksReady(b) {
        assert calls[i] in calls;
        var s' := AttemptCall(nd, bs, answers, calls[i]);
        RecordedBacked(w.log, nd.uid, b, nd.status.budgets, attempt);
        MoreHistory(w.log, more[..i], nd.uid, b.GetNamespacedName(), attempt);
      }
    }
    MoreLog(w.topology, b, w.log, more);
  }

  lemma DecideGrantBacked(w: World, names: seq<string>, answers: Answers, k: Clock, b: Budget, s: Budget)
    requires Inv(w) && CanDecide(w, names, k) && Backed(w, b)
    requires s in w.worker.synced && s.SameSpec(b) && Consulted(s, w.worker.nd)
    requires TryGrant(w.cfg, w.worker.nd, View(w, names), Ok(w.worker.synced), answers, k).Ok?
    requires TryGrant(w.cfg, w.worker.nd, View(w, names), Ok(w.worker.synced), answers, k).value.status.state == Granted
    ensures GrantBacked(ApplyDecide(w, names, answers, k).log, w.worker.read.uid, b, w.worker.attempt)
  {
    var nd, attempt := w.worker.nd, w.worker.attempt;
    var calls := TryGrant(w.cfg, nd, View(w, names), Ok(w.worker.synced), answers, k).value.calls;
    var ref := b.GetNamespacedName();
    if V2HooksReady(b) {
      RecordedBacked(w.log, nd.uid, b, nd.status.budgets, attempt);
    }
    GrantNeedsHooks(w.cfg, nd, View(w, names), w.worker.synced, answers, k, s);
    MoreHistory(w.log, CallEvents(attempt, nd.uid, calls), nd.uid, ref, attempt);
    if V2HooksReady(b) {
      CallInHistory(w.log, attempt, nd.uid, calls, HookCall(Ready, ref, HookBody(s, nd, Ready), true));
    } else if Sends(b, Health) {
      CallInHistory(w.log, attempt, nd.uid, calls, HookCall(Health, ref, HookBody(s, nd, Health), true));
    }
  }

  lemma InternalStatusesBacked(log: seq<Event>, nd: NodeDisruption, b: Budget, cfg: Config, c: Client, k: Clock,
      attempt: nat)
    requires StatusesBacked(log, nd.uid, b, nd.status.budgets, attempt)
    requires InternalVerdict(cfg, nd, c, k).Ok? && InternalVerdict(cfg, nd, c, k).value.failed
    ensures StatusesBacked(log, nd.uid, b, InternalVerdict(cfg, nd, c, k).value.statuses, attempt)
  {
    assert OwnFailure(nd).ref != b.GetNamespacedName();
  }

  lemma DecideInternalBacked(w: World, names: seq<string>, answers: Answers, k: Clock, b: Budget)
    requires Inv(w) && Backed(w, b) && CanDecide(w, names, k)
    requires InternalVerdict(w.cfg, w.worker.nd, View(w, names), k).Ok?
    requires InternalVerdict(w.cfg, w.worker.nd, View(w, names), k).value.failed
    ensures Backed(ApplyDecide(w, names, answers, k), b)
  {
    var nd, attempt, c := w.worker.nd, w.worker.attempt, View(w, names);
    var verdict := InternalVerdict(w.cfg, nd, c, k).value;
    InternalStatusesBacked(w.log, nd, b, w.cfg, c, k, attempt);
    LaterStatuses(w.log, nd.uid, b, verdict.statuses, attempt, attempt + 1);
    var w' := ApplyDecide(w, names, answers, k);
    assert w'.log == w.log;
    WorkerOnly(w, w', b);
  }

  /** What a decision leaves, when the worker's new status and the new events are true. */
  lemma DecisionBacked(w: World, b: Budget, status: NDStatus, decision: Decision, more: seq<Event>)
    requires w.worker.Syncing? && Backed(w, b) && LogBacked(w.topology, b, w.log + more)
    requires StatusesBacked(w.log + more, w.worker.read.uid, b, status.budgets, w.worker.attempt + 1)
    requires status.state == Granted && Relevant(w.topology, b, w.worker.read.spec)
             ==> GrantBacked(w.log + more, w.worker.read.uid, b, w.worker.attempt)
    ensures Backed(w.(worker := Committing(w.worker.read, w.worker.attempt, status, decision), log := w.log + more), b)
  {
    hide StatusesBacked, LogBacked, GrantBacked, ListHolds, Relevant;
    StoreMoreLog(w, b, more, w.attempts);
  }

  lemma DecideBudgetsBacked(w: World, names: seq<string>, answers: Answers, k: Clock, b: Budget)
    requires Inv(w) && Backed(w, b) && CanDecide(w, names, k)
    requires InternalVerdict(w.cfg, w.worker.nd, View(w, names), k).Ok?
    requires !InternalVerdict(w.cfg, w.worker.nd, View(w, names), k).value.failed
    ensures Backed(ApplyDecide(w, names, answers, k), b)
  {
    hide ApplyDecide, TryGrant, InternalVerdict, BudgetVerdict, BudgetCalls, StatusesBacked, LogBacked, GrantBacked,
         ListHolds, Relevant, InSync, Budget.SameSpec, DistinctRefs, UidInv, OrderInv, FinalizerInv, LogInv, StoreInv,
         View;
    var nd, attempt, bs := w.worker.nd, w.worker.attempt, w.worker.synced;
    var s := SyncedCopy(w, b);
    OutcomeOfBudgets(w.cfg, nd, View(w, names), bs, answers, k);
    DecideIs(w, names, answers, k);
    VerdictBacked(w.log, nd, b, s, bs, answers, attempt);
    DecideLogBacked(w, nd, b, s, bs, answers, attempt);
    var outcome := TryGrant(w.cfg, nd, View(w, names), Ok(bs), answers, k).value;
    if outcome.status.state == Granted && Relevant(w.topology, b, w.worker.read.spec) {
      RelevantIsConsulted(w, b, s);
      DecideGrantBacked(w, names, answers, k, b, s);
    }
    DecisionBacked(w, b, outcome.status, Decision(nd, View(w, names), bs, k),
                   CallEvents(attempt, nd.uid, outcome.calls));
  }

  lemma DecideBacked(w: World, names: seq<string>, answers: Answers, k: Clock, b: Budget)
    requires Inv(w) && Backed(w, b)
    ensures Backed(ApplyDecide(w, names, answers, k), b)
  {
    if CanDecide(w, names, k) {
      var internal := InternalVerdict(w.cfg, w.worker.nd, View(w, names), k);
      if internal.Ok? {
        if internal.value.failed {
          DecideInternalBacked(w, names, answers, k, b);
        } else {
          DecideBudgetsBacked(w, names, answers, k, b);
        }
      } else {
        WorkerOnly(w, w.(worker := Idle), b);
      }
    }
  }

  lemma CommitBacked(w: World, b: Budget)
    requires Inv(w) && Backed(w, b)
    ensures Backed(ApplyCommit(w), b)
  {
    hide StatusesBacked, LogBacked, GrantBacked, UidInv, OrderInv, FinalizerInv, LogInv, PreparedBefore, AnsweredIn,
         Relevant, NodesRecorded;
    if w.worker.Committing? && Unmoved(w, w.worker.read) {
      var read, attempt, status := w.worker.read, w.worker.attempt, w.worker.status;
      var more := if read.status.state == Pending
                  then [Committed(attempt, read.uid, read.spec, w.worker.decision, status.state)] else [];
      assert more[..0] == [] && w.log + [] == w.log;
      MoreLog(w.topology, b, w.log, more);
      StoreMoreLog(w, b, more, w.attempts);
      MoreStatuses(w.log, more, read.uid, b, status.budgets, attempt + 1, w.attempts);
    }
  }

  lemma TerminateBackedBy(w: World, name: string, answers: Answers, unreadable: set<Ref>, b: Budget)
    requires Inv(w) && Fixed(w, b) && name in w.nds
    requires AllTerminated(w.nds[name].status.budgets, BudgetGetter(w.budgets, unreadable), answers)
    ensures var nd := w.nds[name];
            var calls := TerminateCalls(nd.status.budgets, nd, BudgetGetter(w.budgets, unreadable), answers);
            TerminateBacked(w.log + CallEvents(w.attempts, nd.uid, calls), nd.uid, b, nd.status.budgets, w.attempts)
  {
    var nd, ref := w.nds[name], b.GetNamespacedName();
    var get := BudgetGetter(w.budgets, unreadable);
    var calls := TerminateCalls(nd.status.budgets, nd, get, answers);
    if V2HooksReady(b) && RecordedPreparing(nd.status.budgets, ref) {
      var s :| s in nd.status.budgets && s.ref == ref && s.preparing;
      assert !TerminateFails(s, get, answers);
      assert MustTerminate(s, get);
      TerminatedBudgetsAcknowledged(nd, get, answers, s);
      CallInHistory(w.log, w.attempts, nd.uid, calls,
                    HookCall(Terminate, ref, HookBody(w.budgets[ref], nd, Terminate), true));
    }
  }

  lemma {:induction false} TerminateCallKinds(statuses: seq<BudgetCheck>, nd: NodeDisruption, get: Getter,
      answers: Answers)
    ensures forall call | call in TerminateCalls(statuses, nd, get, answers) :: call.kind == Terminate
  {
    if statuses != [] {
      TerminateCallKinds(statuses[..|statuses| - 1], nd, get, answers);
    }
  }

  lemma TerminatePassBacked(w: World, name: string, answers: Answers, unreadable: set<Ref>, b: Budget)
    requires Inv(w) && Backed(w, b)
    ensures Backed(ApplyTerminatePass(w, name, answers, unreadable), b)
  {
    if w.worker.Idle? && name in w.nds && w.nds[name].deleting && w.nds[name].finalizer {
      var nd := w.nds[name];
      var get := BudgetGetter(w.budgets, unreadable);
      var calls := TerminateCalls(nd.status.budgets, nd, get, answers);
      var more := CallEvents(w.attempts, nd.uid, calls);
      TerminateCallKinds(nd.status.budgets, nd, get, answers);
      forall i | 0 <= i < |more| ensures EventBacked(w.topology, b, w.log + more[..i], more[i]) {
        assert calls[i] in calls;
      }
      MoreLog(w.topology, b, w.log, more);
      StoreMoreLog(w, b, more, w.attempts + 1);
      if AllTerminated(nd.status.budgets, get, answers) {
        TerminateBackedBy(w, name, answers, unreadable, b);
      }
    }
  }

  lemma RemoveFinalizerBacked(w: World, b: Budget)
    requires Inv(w) && Backed(w, b)
    ensures Backed(ApplyRemoveFinalizer(w), b)
  {
    if w.worker.Removing? && Unmoved(w, w.worker.read) {
      var more := [Released(w.worker.attempt, w.worker.read.uid, w.worker.read.status.budgets)];
      assert more[..0] == [] && w.log + [] == w.log;
      MoreLog(w.topology, b, w.log, more);
      StoreMoreLog(w, b, more, w.attempts);
    }
  }

  lemma PutBacked(w: World, nd: NodeDisruption, b: Budget)
    requires Backed(w, b)
    requires nd.status.budgets == []
             || (nd.name in w.nds && nd.uid == w.nds[nd.name].uid && nd.status == w.nds[nd.name].status)
    ensures Backed(Put(w, nd), b)
  {
    forall n | n in Put(w, nd).nds
      ensures StatusesBacked(w.log, Put(w, nd).nds[n].uid, b, Put(w, nd).nds[n].status.budgets, w.attempts)
    {
    }
  }

  lemma GoneBacked(w: World, name: string, b: Budget)
    requires Backed(w, b)
    ensures Backed(Gone(w, name), b)
  {
  }

  lemma SettingsBacked(w: World, s: Step, b: Budget)
    requires Backed(w, b) && StepKeepsBudget(s, b) && (s.SetBudgets? || s.Tick? || s.Abort?)
    ensures Backed(ApplyEnvironment(w, s), b)
  {
  }

  lemma StepBacked(w: World, s: Step, b: Budget)
    requires Inv(w) && Backed(w, b) && StepKeepsBudget(s, b)
    ensures Backed(Apply(w, s), b)
  {
    hide ApplyStart, ApplySyncNext, ApplyDecide, ApplyCommit, ApplyTerminatePass, ApplyRemoveFinalizer, UidInv,
         WorkerInv, LogInv, OrderInv, FinalizerInv, StoreBacked, WorkerBacked, LogBacked, Fixed;
    match s
    case Create(name, spec, foreign) =>
      PutBacked(w, NodeDisruption(name, w.rev, w.rev, false, foreign, false, spec, EMPTY_STATUS), b);
    case MarkDeleted(name) =>
      if name in w.nds {
        GoneBacked(w, name, b);
        PutBacked(w, w.nds[name].(deleting := true), b);
      }
    case EditForeign(name, present) =>
      if name in w.nds {
        GoneBacked(w, name, b);
        PutBacked(w, w.nds[name].(foreign := present), b);
      }
    case AddFinalizer(name) =>
      if name in w.nds {
        PutBacked(w, w.nds[name].(finalizer := true), b);
      }
    case Start(name, refs) => StartBacked(w, name, refs, b);
    case SyncNext(names) => SyncNextBacked(w, names, b);
    case Decide(names, answers, k) => DecideBacked(w, names, answers, k, b);
    case Commit => CommitBacked(w, b);
    case TerminatePass(name, answers, unreadable) => TerminatePassBacked(w, name, answers, unreadable, b);
    case RemoveFinalizer => RemoveFinalizerBacked(w, b);
    case _ => SettingsBacked(w, s, b);
  }

  lemma {:induction false} RunBacked(w: World, steps: seq<Step>, b: Budget)
    requires Initial(w) && Fixed(w, b) && KeepsBudget(steps, b)
    ensures Run(w, steps).topology == w.topology && Inv(Run(w, steps)) && Backed(Run(w, steps), b)
    decreases |steps|
  {
    hide Apply;
    ReachableInv(w, steps);
    if steps != [] {
      var init, last := steps[..|steps| - 1], steps[|steps| - 1];
      assert steps == init + [last];
      RunBacked(w, init, b);
      SettingsFixed(Run(w, init), last);
      StepBacked(Run(w, init), last, b);
    }
  }

  // ----- the theorems -----

  /**
    Whenever a disruption was granted that the budget checks, a v2 budget had a successful prepare call in a strictly
    earlier attempt and a successful ready call in the granting attempt, and another budget with a health hook a
    successful health call in it, all of them logged before the grant.
   */
  lemma {:induction false} GrantsFollowHooks(w: World, steps: seq<Step>, b: Budget, i: nat)
    requires Initial(w) && Fixed(w, b) && KeepsBudget(steps, b)
    requires i < |Run(w, steps).log| && Run(w, steps).log[i].Committed? && Run(w, steps).log[i].state == Granted
    requires Relevant(w.topology, b, Run(w, steps).log[i].spec)
    ensures var log := Run(w, steps).log; GrantBacked(log[..i], log[i].uid, b, log[i].attempt)
  {
    hide Run;
    RunBacked(w, steps, b);
    assert EventBacked(w.topology, b, Run(w, steps).log[..i], Run(w, steps).log[i]);
  }

  /** So it was for every granted disruption the budget checks, in every reachable world. */
  lemma {:induction false} GrantedAfterHooks(w: World, steps: seq<Step>, b: Budget, n: string)
    requires Initial(w) && Fixed(w, b) && KeepsBudget(steps, b)
    requires n in Run(w, steps).nds && Run(w, steps).nds[n].status.state == Granted
             && Relevant(w.topology, b, Run(w, steps).nds[n].spec)
    ensures var r := Run(w, steps);
            exists i :: 0 <= i < |r.log| && r.log[i].Committed? && r.log[i].uid == r.nds[n].uid
                && r.log[i].state == Granted
                        && GrantBacked(r.log[..i], r.nds[n].uid, b, r.log[i].attempt)
  {
    hide Run, GrantBacked, Relevant;
    Accounting.FinalsAreLogged(w, steps);
    var r := Run(w, steps);
    assert Accounting.Logged(r.log, r.nds[n].uid, r.nds[n].spec, Granted);
    var i :| 0 <= i < |r.log| && r.log[i].Committed? && r.log[i].uid == r.nds[n].uid && r.log[i].spec == r.nds[n].spec
        && r.log[i].state == Granted;
    GrantsFollowHooks(w, steps, b, i);
  }

  /** Ready is never called on a v2 budget before a prepare call of an earlier attempt succeeded. */
  lemma {:induction false} ReadyFollowsPrepare(w: World, steps: seq<Step>, b: Budget, i: nat)
    requires Initial(w) && Fixed(w, b) && KeepsBudget(steps, b) && V2HooksReady(b)
    requires i < |Run(w, steps).log| && Run(w, steps).log[i].Called?
    requires Run(w, steps).log[i].call.kind == Ready && Run(w, steps).log[i].call.ref == b.GetNamespacedName()
    ensures var log := Run(w, steps).log; PreparedBefore(log[..i], log[i].uid, b.GetNamespacedName(), log[i].attempt)
  {
    hide Run;
    RunBacked(w, steps, b);
    assert EventBacked(w.topology, b, Run(w, steps).log[..i], Run(w, steps).log[i]);
  }

  /**
    What the pass at step k needed before the finalizer was given up, with the budgets that were there at that moment.
   */
  ghost predicate TerminatedAt(w: World, steps: seq<Step>, k: int, before: seq<Event>, e: Event)
    requires e.Released?
  {
    && 0 <= k < |steps| && steps[k].TerminatePass?
    && var r, s := Run(w, steps[..k]), steps[k];
       && r.worker.Idle? && s.name in r.nds && r.nds[s.name].deleting && r.nds[s.name].uid == e.uid
       && r.attempts == e.attempt && r.nds[s.name].status.budgets == e.budgets
       && forall c | c in e.budgets && c.preparing ::
            && (c.ref.kind == ADB_KIND ==> c.ref !in s.unreadable)
            && (c.ref in r.budgets && V2HooksReady(r.budgets[c.ref]) ==>
                 AnsweredIn(before, e.uid, Terminate, c.ref, e.attempt))
  }

  /**
    Whatever happens to budgets along the run: a finalizer is given up only after a terminate pass, with that attempt
    number and on what was recorded then, in which no application budget recorded preparing was unreadable and each one
    that existed with a v2 URL at that moment acknowledged terminate.
   */
  lemma {:induction false} ReleaseFollowsPass(w: World, steps: seq<Step>, i: nat)
    requires Initial(w) && i < |Run(w, steps).log| && Run(w, steps).log[i].Released?
    ensures var log := Run(w, steps).log; exists k :: TerminatedAt(w, steps, k, log[..i], log[i])
  {
    hide Run, AllTerminated, TerminateCalls, BudgetGetter;
    var log := Run(w, steps).log;
    RunExplained(w, steps);
    assert Explained(w, steps, log[..i], log[i]);
    var k :| PassedAt(w, steps, k, log[..i], log[i]);
    ReachableInv(w, steps[..k]);
    PassTerminates(w, steps, k, log[..i], log[i]);
  }

  lemma PassTerminates(w: World, steps: seq<Step>, k: nat, before: seq<Event>, e: Event)
    requires PassedAt(w, steps, k, before, e) && Inv(Run(w, steps[..k]))
    ensures TerminatedAt(w, steps, k, before, e)
  {
    hide Run, AllTerminated, TerminateCalls, StoreInv, UidInv, WorkerInv, LogInv, OrderInv, FinalizerInv;
    var r, s := Run(w, steps[..k]), steps[k];
    var nd, get := r.nds[s.name], BudgetGetter(r.budgets, s.unreadable);
    forall c | c in e.budgets && c.preparing
      ensures c.ref.kind == ADB_KIND ==> c.ref !in s.unreadable
      ensures c.ref in r.budgets && V2HooksReady(r.budgets[c.ref]) ==>
                AnsweredIn(before, e.uid, Terminate, c.ref, e.attempt)
    {
      NoneFails(e.budgets, get, s.answers, c);
      if c.ref in r.budgets && V2HooksReady(r.budgets[c.ref]) {
        TerminatedBudgetsAcknowledged(nd, get, s.answers, c);
        var calls := TerminateCalls(e.budgets, nd, get, s.answers);
        CallInHistory(r.log, e.attempt, e.uid, calls,
                      HookCall(Terminate, c.ref, HookBody(r.budgets[c.ref], nd, Terminate), true));
        LongerHistory(r.log + CallEvents(e.attempt, e.uid, calls), before, e.uid, Terminate, c.ref, e.attempt);
      }
    }
  }

  lemma NoneFails(statuses: seq<BudgetCheck>, get: Getter, answers: Answers, c: BudgetCheck)
    requires AllTerminated(statuses, get, answers) && c in statuses
    ensures !TerminateFails(c, get, answers)
  {
  }

  lemma LongerHistory(log: seq<Event>, later: seq<Event>, uid: nat, kind: HookKind, ref: Ref, attempt: nat)
    requires log <= later && AnsweredIn(log, uid, kind, ref, attempt)
    ensures AnsweredIn(later, uid, kind, ref, attempt)
  {
    var j :| 0 <= j < |log| && Answered(log[j], uid, kind, ref) && log[j].attempt == attempt;
    assert later[j] == log[j];
  }

  /**
    The finalizer is given up only after the v2 budgets then recorded as preparing acknowledged terminate in that
    pass.
   */
  lemma {:induction false} ReleaseFollowsTerminate(w: World, steps: seq<Step>, b: Budget, i: nat)
    requires Initial(w) && Fixed(w, b) && KeepsBudget(steps, b) && V2HooksReady(b)
    requires i < |Run(w, steps).log| && Run(w, steps).log[i].Released?
    requires RecordedPreparing(Run(w, steps).log[i].budgets, b.GetNamespacedName())
    ensures var log := Run(w, steps).log;
            AnsweredIn(log[..i], log[i].uid, Terminate, b.GetNamespacedName(), log[i].attempt)
  {
    hide Run;
    RunBacked(w, steps, b);
    assert EventBacked(w.topology, b, Run(w, steps).log[..i], Run(w, steps).log[i]);
  }
}
