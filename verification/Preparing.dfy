/** When an application that was told to prepare is told that the disruption has ended, and when it is forgotten. */
module Preparing {
  import opened Types
  import opened BudgetSpec
  import opened Admission
  import opened Protocol
  import opened Lifecycle
  import opened Safety
  import opened History
  import opened Hooks

  /** The attempt forgets that the budget was preparing; see Admission.PreparingLostExactlyWhen. */
  ghost predicate LostIn(cfg: Config, d: Decision, ref: Ref) {
    FailsInternally(cfg, d.nd, d.c, d.clock)
    || (!d.nd.spec.retry.IsAfterDeadline(d.clock.internalCheck)
       && (AnyRefusal(d.budgets, d.nd) || !StillV2(d.budgets, d.nd, ref)))
  }

  ghost predicate CompletedOf(e: Event, uid: nat) {
    e.Committed? && e.uid == uid
  }

  /**
    Whether the budget is recorded preparing after an attempt is written, by what was before and the attempt's own
    calls.
   */
  ghost predicate HoldsAfter(cfg: Config, log: seq<Event>, uid: nat, ref: Ref, attempt: nat, d: Decision)
    decreases |log|, 1
  {
    AnsweredIn(log, uid, Prepare, ref, attempt) || (Holds(cfg, log, uid, ref) && !LostIn(cfg, d, ref))
  }

  /** The history says that the budget is recorded preparing for this disruption. */
  ghost predicate Holds(cfg: Config, log: seq<Event>, uid: nat, ref: Ref)
    decreases |log|, 0
  {
    if log == [] then false
    else
      var init, last := log[..|log| - 1], log[|log| - 1];
      if CompletedOf(last, uid) then HoldsAfter(cfg, init, uid, ref, last.attempt, last.decision)
      else Holds(cfg, init, uid, ref)
  }

  lemma HoldsOne(cfg: Config, log: seq<Event>, e: Event, uid: nat, ref: Ref)
    ensures Holds(cfg, log + [e], uid, ref)
        <==> if CompletedOf(e, uid) then HoldsAfter(cfg, log, uid, ref, e.attempt, e.decision)
             else Holds(cfg, log, uid, ref)
  {
    hide LostIn;
    assert (log + [e])[..|log|] == log;
  }

  lemma {:induction false} HoldsMore(cfg: Config, log: seq<Event>, more: seq<Event>, uid: nat, ref: Ref)
    requires forall e | e in more :: !CompletedOf(e, uid)
    ensures Holds(cfg, log + more, uid, ref) <==> Holds(cfg, log, uid, ref)
    decreases |more|
  {
    hide LostIn, HoldsAfter;
    if more == [] {
      assert log + more == log;
    } else {
      var init, last := more[..|more| - 1], more[|more| - 1];
      HoldsMore(cfg, log, init, uid, ref);
      assert log + more == log + init + [last];
      HoldsOne(cfg, log + init, last, uid, ref);
    }
  }

  lemma NothingHeld(cfg: Config, log: seq<Event>, uid: nat, ref: Ref)
    requires forall e | e in log :: e.uid != uid
    ensures !Holds(cfg, log, uid, ref)
  {
    assert [] + log == log;
    HoldsMore(cfg, [], log, uid, ref);
  }

  // ----- one attempt -----

  /** The statuses record the budget as preparing exactly when `h`, and then in the first place an attempt looks. */
  ghost predicate Tracks(statuses: seq<BudgetCheck>, ref: Ref, h: bool) {
    (RecordedPreparing(statuses, ref) <==> h) && (h ==> Recorded(statuses, ref).preparing)
  }

  lemma {:induction false} RecordedUnique(statuses: seq<BudgetCheck>, x: BudgetCheck)
    requires x in statuses && forall y | y in statuses && y.ref == x.ref :: y == x
    ensures Recorded(statuses, x.ref) == x
  {
    if statuses[0].ref != x.ref {
      RecordedUnique(statuses[1..], x);
    }
  }

  lemma {:induction false} RecordedAppend(statuses: seq<BudgetCheck>, own: BudgetCheck, ref: Ref)
    requires own.ref != ref
    ensures Recorded(statuses + [own], ref) == Recorded(statuses, ref)
  {
    if statuses != [] {
      assert (statuses + [own])[1..] == statuses[1..] + [own];
      RecordedAppend(statuses[1..], own, ref);
    }
  }

  ghost predicate PrepareAnswered(calls: seq<HookCall>, ref: Ref) {
    exists call | call in calls :: call.kind == Prepare && call.ref == ref && call.ok
  }

  lemma DeadlineTracks(nd: NodeDisruption, ref: Ref, h: bool)
    requires Tracks(nd.status.budgets, ref, h) && ref.kind == ADB_KIND
    ensures Tracks(nd.status.budgets + [OwnFailure(nd)], ref, h)
  {
    RecordedAppend(nd.status.budgets, OwnFailure(nd), ref);
  }

  lemma ForgottenTracks(own: BudgetCheck, ref: Ref)
    requires !own.preparing
    ensures Tracks([own], ref, false)
  {
  }

  lemma ChecksTrack(cs: seq<Budget>, nd: NodeDisruption, answers: Answers, s: Budget)
    requires DistinctRefs(cs) && s in cs
    ensures Tracks(Checks(cs, nd, answers), s.GetNamespacedName(), CheckFor(s, nd, answers).preparing)
  {
    hide CheckFor;
    CheckRefs(nd, answers);
    ChecksRecorded(cs, nd, answers, s.GetNamespacedName());
    RecordedUnique(Checks(cs, nd, answers), CheckFor(s, nd, answers));
  }

  lemma CheckRefs(nd: NodeDisruption, answers: Answers)
    ensures forall b :: CheckFor(b, nd, answers).ref == b.GetNamespacedName()
  {
  }

  lemma AbsentTracks(cs: seq<Budget>, nd: NodeDisruption, answers: Answers, ref: Ref)
    requires forall c | c in cs :: c.GetNamespacedName() != ref
    ensures Tracks(Checks(cs, nd, answers), ref, false)
  {
    ChecksRecorded(cs, nd, answers, ref);
  }

  /** Which answered prepare calls a round of checks makes to a v2 budget. */
  lemma PrepareCalls(cs: seq<Budget>, nd: NodeDisruption, answers: Answers, ref: Ref)
    ensures PrepareAnswered(AllCalls(cs, nd, answers), ref)
        <==> exists c | c in cs :: c.GetNamespacedName() == ref && V2HooksReady(c) && answers(Prepare, ref)
               && !Recorded(nd.status.budgets, ref).ok && !Recorded(nd.status.budgets, ref).preparing
  {
    if PrepareAnswered(AllCalls(cs, nd, answers), ref) {
      var call :| call in AllCalls(cs, nd, answers) && call.kind == Prepare && call.ref == ref && call.ok;
      CallInAllCalls(cs, nd, answers, call);
      var c :| c in cs && call in CallsFor(c, nd, answers);
      assert c.GetNamespacedName() == ref && V2HooksReady(c);
    }
    if c :| c in cs && c.GetNamespacedName() == ref && V2HooksReady(c) && answers(Prepare, ref)
            && !Recorded(nd.status.budgets, ref).ok && !Recorded(nd.status.budgets, ref).preparing {
      var call := HookCall(Prepare, ref, HookBody(c, nd, Prepare), true);
      assert call in CallsFor(c, nd, answers);
      CallInAllCalls(cs, nd, answers, call);
    }
  }

  lemma RoundTracks(cfg: Config, nd: NodeDisruption, c: Client, bs: seq<Budget>, answers: Answers, k: Clock, s: Budget,
                    h: bool)
    requires DistinctRefs(bs) && s in bs && V2HooksReady(s) && !AnyRefusal(bs, nd)
    requires Tracks(nd.status.budgets, s.GetNamespacedName(), h)
    requires Recorded(nd.status.budgets, s.GetNamespacedName()).ok ==>
               Recorded(nd.status.budgets, s.GetNamespacedName()).preparing
    requires !FailsInternally(cfg, nd, c, k) && !nd.spec.retry.IsAfterDeadline(k.internalCheck)
    ensures var ref := s.GetNamespacedName();
            var prepared := PrepareAnswered(BudgetCalls(nd, bs, answers), ref);
            && Tracks(BudgetVerdict(nd, bs, answers).statuses, ref, prepared
               || (h && !LostIn(cfg, Decision(nd, c, bs, k), ref)))
            && (prepared ==> !h)
  {
    hide FailsInternally, AnyRefusal, Tracks, AllCalls, Checks, Consulted;
    var ref, cs := s.GetNamespacedName(), ConsultedBudgets(bs, nd);
    ConsultedRefs(bs, nd);
    PrepareCalls(cs, nd, answers, ref);
    TracksRecorded(nd.status.budgets, ref, h);
    if s in cs {
      ChecksTrack(cs, nd, answers, s);
    } else {
      NoOtherCopy(bs, s, cs, ref);
      AbsentTracks(cs, nd, answers, ref);
    }
  }

  lemma TracksRecorded(statuses: seq<BudgetCheck>, ref: Ref, h: bool)
    requires Tracks(statuses, ref, h)
    ensures h <==> Recorded(statuses, ref).preparing
  {
    RecordedIsPresent(statuses, ref);
  }

  /**
    One attempt on a v2 budget: recorded afterwards if it answered prepare now, or was recorded and is not forgotten.
   */
  lemma DecisionTracks(cfg: Config, nd: NodeDisruption, c: Client, bs: seq<Budget>, answers: Answers, k: Clock,
                       s: Budget, h: bool)
    requires DistinctRefs(bs) && s in bs && V2HooksReady(s)
    requires Tracks(nd.status.budgets, s.GetNamespacedName(), h)
    requires Recorded(nd.status.budgets, s.GetNamespacedName()).ok ==>
               Recorded(nd.status.budgets, s.GetNamespacedName()).preparing
    requires TryGrant(cfg, nd, c, Ok(bs), answers, k).Ok?
    ensures var ref := s.GetNamespacedName();
            var outcome := TryGrant(cfg, nd, c, Ok(bs), answers, k).value;
            var prepared := PrepareAnswered(outcome.calls, ref);
            && Tracks(outcome.status.budgets, ref, prepared || (h && !LostIn(cfg, Decision(nd, c, bs, k), ref)))
            && (prepared ==> !h)
  {
    hide Tracks, BudgetVerdict, BudgetCalls, StillV2, AnyRefusal, PrepareAnswered, Overlaps;
    var ref := s.GetNamespacedName();
    NoCallsNoPrepare(ref);
    if nd.spec.retry.IsAfterDeadline(k.internalCheck) {
      DeadlineTracks(nd, ref, h);
    } else if InternalVerdict(cfg, nd, c, k).value.failed {
      ForgottenTracks(OwnFailure(nd), ref);
    } else if AnyRefusal(bs, nd) {
      RefusalTracks(nd, bs, answers, ref);
    } else {
      RoundTracks(cfg, nd, c, bs, answers, k, s, h);
    }
  }

  lemma NoCallsNoPrepare(ref: Ref)
    ensures !PrepareAnswered([], ref)
  {
  }

  lemma RefusalTracks(nd: NodeDisruption, bs: seq<Budget>, answers: Answers, ref: Ref)
    requires AnyRefusal(bs, nd)
    ensures BudgetCalls(nd, bs, answers) == [] && Tracks(BudgetVerdict(nd, bs, answers).statuses, ref, false)
  {
    hide Tracks, AnyRefusal;
    ForgottenTracks(BudgetCheck(FirstRefusal(bs, nd).GetNamespacedName(), false, false), ref);
  }

  // ----- every run -----

  ghost predicate StoreTracked(w: World, ref: Ref) {
    forall n | n in w.nds :: Tracks(w.nds[n].status.budgets, ref, Holds(w.cfg, w.log, w.nds[n].uid, ref))
  }

  ghost predicate WorkerTracked(w: World, ref: Ref) {
    match w.worker
    case Idle => true
    case Syncing(read, _, _, _, _, _) => Tracks(read.status.budgets, ref, Holds(w.cfg, w.log, read.uid, ref))
    case Committing(read, attempt, status, decision) =>
      Tracks(status.budgets, ref, if read.status.state == Pending
                                  then HoldsAfter(w.cfg, w.log, read.uid, ref, attempt, decision)
                                  else Holds(w.cfg, w.log, read.uid, ref))
    case Removing(read, attempt) =>
      && Tracks(read.status.budgets, ref, Holds(w.cfg, w.log, read.uid, ref))
      && (AnsweredIn(w.log, read.uid, Terminate, ref, attempt) ==> RecordedPreparing(read.status.budgets, ref))
  }

  ghost predicate EventTracked(cfg: Config, before: seq<Event>, e: Event, ref: Ref) {
    match e
    case Called(_, uid, _) => Answered(e, uid, Prepare, ref) ==> !Holds(cfg, before, uid, ref)
    case Committed(_, _, _, _, _) => true
    case Released(attempt, uid, budgets) =>
      && (RecordedPreparing(budgets, ref) <==> Holds(cfg, before, uid, ref))
      && (AnsweredIn(before, uid, Terminate, ref, attempt) ==> RecordedPreparing(budgets, ref))
  }

  ghost predicate LogTracked(cfg: Config, log: seq<Event>, ref: Ref) {
    forall i | 0 <= i < |log| :: EventTracked(cfg, log[..i], log[i], ref)
  }

  ghost predicate Tracked(w: World, ref: Ref) {
    StoreTracked(w, ref) && WorkerTracked(w, ref) && LogTracked(w.cfg, w.log, ref)
  }

  lemma LogTrackedMore(cfg: Config, log: seq<Event>, more: seq<Event>, ref: Ref)
    requires LogTracked(cfg, log, ref) && forall i | 0 <= i < |more| :: EventTracked(cfg, log + more[..i], more[i], ref)
    ensures LogTracked(cfg, log + more, ref)
  {
    hide EventTracked;
    var l := log + more;
    forall i | 0 <= i < |l| ensures EventTracked(cfg, l[..i], l[i], ref) {
      if i < |log| {
        assert l[..i] == log[..i];
      } else {
        assert l[..i] == log + more[..i - |log|];
      }
    }
  }

  /** Steps that are not a write of the worker replace no object and no status. */
  lemma KeepsObjects(w: World, s: Step, n: string)
    requires Inv(w) && !s.Commit? && n in Apply(w, s).nds
    ensures var x := Apply(w, s).nds[n];
            || (n in w.nds && x.uid == w.nds[n].uid && x.status == w.nds[n].status)
            || (x.uid == w.rev && x.status == EMPTY_STATUS)
  {
    hide ApplyStart, ApplySyncNext, ApplyDecide, ApplyTerminatePass, UidInv, WorkerInv, LogInv, OrderInv, FinalizerInv;
    if !WritesStore(s) {
      OthersLeaveStore(w, s);
    }
  }

  lemma EmptyTracks(ref: Ref)
    ensures Tracks([], ref, false)
  {
  }

  /** The store under a step that is no write and appends no completed attempt. */
  lemma StoreStaysTracked(w: World, s: Step, more: seq<Event>, ref: Ref)
    requires Inv(w) && StoreTracked(w, ref) && !s.Commit? && Apply(w, s).log == w.log + more && forall e | e in more ::
               !e.Committed?
    ensures StoreTracked(Apply(w, s), ref)
  {
    hide Apply, Holds, Tracks, StoreInv, UidInv, WorkerInv, OrderInv, FinalizerInv;
    var w' := Apply(w, s);
    SettingsFixed(w, s);
    forall n | n in w'.nds ensures Tracks(w'.nds[n].status.budgets, ref, Holds(w'.cfg, w'.log, w'.nds[n].uid, ref)) {
      KeepsObjects(w, s, n);
      HoldsMore(w.cfg, w.log, more, w'.nds[n].uid, ref);
      if w'.nds[n].uid == w.rev && w'.nds[n].status == EMPTY_STATUS {
        NothingHeld(w.cfg, w.log, w.rev, ref);
        EmptyTracks(ref);
      }
    }
  }

  lemma EnvironmentTracked(w: World, s: Step, ref: Ref)
    requires Inv(w) && Tracked(w, ref) && IsEnvironment(s)
    ensures Tracked(Apply(w, s), ref)
  {
    hide Holds, Tracks, HoldsAfter, LogTracked, StoreTracked, Inv;
    assert w.log + [] == w.log;
    EnvironmentLog(w, s);
    StoreStaysTracked(w, s, [], ref);
  }

  lemma EnvironmentLog(w: World, s: Step)
    requires IsEnvironment(s)
    ensures var r := Apply(w, s); r.log == w.log && r.cfg == w.cfg && (r.worker == w.worker || r.worker.Idle?)
  {
  }

  lemma StartTracked(w: World, name: string, refs: seq<Ref>, ref: Ref)
    requires Inv(w) && Tracked(w, ref)
    ensures Tracked(ApplyStart(w, name, refs), ref)
  {
    hide Holds, Tracks, HoldsAfter, LogTracked, UidInv, LogInv, OrderInv, FinalizerInv, NodesRecorded, Snapshot;
  }

  lemma SyncNextTracked(w: World, names: seq<string>, ref: Ref)
    requires Tracked(w, ref)
    ensures Tracked(ApplySyncNext(w, names), ref)
  {
    hide Holds, Tracks, HoldsAfter, LogTracked, SyncFails, SyncedStatus;
  }

  /** The events of an attempt are the only ones with its number. */
  lemma CallsInHistory(log: seq<Event>, attempt: nat, uid: nat, calls: seq<HookCall>, kind: HookKind, ref: Ref)
    requires forall e | e in log :: e.attempt < attempt
    ensures AnsweredIn(log + CallEvents(attempt, uid, calls), uid, kind, ref, attempt)
        <==> exists call | call in calls :: call.kind == kind && call.ref == ref && call.ok
  {
    var l := log + CallEvents(attempt, uid, calls);
    assert forall m | 0 <= m < |log| :: l[m] == log[m] && log[m] in log;
    if AnsweredIn(l, uid, kind, ref, attempt) {
      var j :| 0 <= j < |l| && Answered(l[j], uid, kind, ref) && l[j].attempt == attempt;
      assert l[j].call == calls[j - |log|];
    }
    if call :| call in calls && call.kind == kind && call.ref == ref && call.ok {
      CallInHistory(log, attempt, uid, calls, call);
    }
  }

  lemma DecideTracked(w: World, names: seq<string>, answers: Answers, k: Clock, b: Budget)
    requires Inv(w) && Backed(w, b) && Ordered(w) && V2HooksReady(b) && Tracked(w, b.GetNamespacedName())
    ensures Tracked(Apply(w, Decide(names, answers, k)), b.GetNamespacedName())
  {
    hide Holds, Tracks, HoldsAfter, LogTracked, StoreTracked, TryGrant, Apply, Backed, View, UidInv, LogInv, OrderInv,
         FinalizerInv, OrderedLog, AnsweredIn;
    var ref := b.GetNamespacedName();
    var w' := Apply(w, Decide(names, answers, k));
    DecideApplies(w, names, answers, k);
    if w' == w {
    } else if w'.worker.Idle? {
      assert w.log + [] == w.log;
      StoreStaysTracked(w, Decide(names, answers, k), [], ref);
    } else {
      var nd, attempt, bs := w.worker.nd, w.worker.attempt, w.worker.synced;
      var outcome := TryGrant(w.cfg, nd, View(w, names), Ok(bs), answers, k).value;
      var more := CallEvents(attempt, nd.uid, outcome.calls);
      var h := Holds(w.cfg, w.log, nd.uid, ref);
      DecisionOfBudget(w, names, answers, k, b, h);
      HoldsMore(w.cfg, w.log, more, nd.uid, ref);
      CallsInHistory(w.log, attempt, nd.uid, outcome.calls, Prepare, ref);
      StoreStaysTracked(w, Decide(names, answers, k), more, ref);
      HoldsAfterIs(w.cfg, w'.log, nd.uid, ref, attempt, w'.worker.decision);
      CallsTracked(w.cfg, w.log, attempt, nd.uid, outcome.calls, ref, h);
    }
  }

  lemma HoldsAfterIs(cfg: Config, log: seq<Event>, uid: nat, ref: Ref, attempt: nat, d: Decision)
    ensures HoldsAfter(cfg, log, uid, ref, attempt, d)
        <==> AnsweredIn(log, uid, Prepare, ref, attempt) || (Holds(cfg, log, uid, ref) && !LostIn(cfg, d, ref))
  {
    hide Holds, LostIn, AnsweredIn;
  }

  lemma DecideApplies(w: World, names: seq<string>, answers: Answers, k: Clock)
    ensures var w' := Apply(w, Decide(names, answers, k));
            || w' == w
            || (w' == w.(worker := Idle))
            || (&& CanDecide(w, names, k)
                && var outcome := TryGrant(w.cfg, w.worker.nd, View(w, names), Ok(w.worker.synced), answers, k);
                   && outcome.Ok?
                   && w' == w.(worker := Committing(w.worker.read, w.worker.attempt, outcome.value.status,
                                                    Decision(w.worker.nd, View(w, names), w.worker.synced, k)),
                               log := w.log + CallEvents(w.worker.attempt, w.worker.read.uid, outcome.value.calls)))
  {
    hide TryGrant, View;
  }

  lemma DecisionOfBudget(w: World, names: seq<string>, answers: Answers, k: Clock, b: Budget, h: bool)
    requires Inv(w) && Backed(w, b) && CanDecide(w, names, k) && V2HooksReady(b)
    requires Tracks(w.worker.read.status.budgets, b.GetNamespacedName(), h)
    requires TryGrant(w.cfg, w.worker.nd, View(w, names), Ok(w.worker.synced), answers, k).Ok?
    ensures var ref := b.GetNamespacedName();
            var outcome := TryGrant(w.cfg, w.worker.nd, View(w, names), Ok(w.worker.synced), answers, k).value;
            var prepared := PrepareAnswered(outcome.calls, ref);
            && Tracks(outcome.status.budgets, ref,
                      prepared || (h && !LostIn(w.cfg, Decision(w.worker.nd, View(w, names), w.worker.synced, k), ref)))
            && (prepared ==> !h)
  {
    hide Tracks, TryGrant, View, LostIn, InSync, DistinctRefs, UidInv, LogInv, OrderInv, FinalizerInv, StoreInv,
         LogBacked, StoreBacked;
    var s := SyncedCopy(w, b);
    SameSpecName(s, b);
    RecordedBacked(w.log, w.worker.read.uid, b, w.worker.read.status.budgets, w.worker.attempt);
    DecisionTracks(w.cfg, w.worker.nd, View(w, names), w.worker.synced, answers, k, s, h);
  }

  lemma CallsTracked(cfg: Config, log: seq<Event>, attempt: nat, uid: nat, calls: seq<HookCall>, ref: Ref, h: bool)
    requires LogTracked(cfg, log, ref) && (h <==> Holds(cfg, log, uid, ref)) && (PrepareAnswered(calls, ref) ==> !h)
    ensures LogTracked(cfg, log + CallEvents(attempt, uid, calls), ref)
  {
    hide Holds, LogTracked;
    var more := CallEvents(attempt, uid, calls);
    forall i | 0 <= i < |more| ensures EventTracked(cfg, log + more[..i], more[i], ref) {
      HoldsMore(cfg, log, more[..i], uid, ref);
      assert calls[i] in calls;
    }
    LogTrackedMore(cfg, log, more, ref);
  }

  lemma LogTrackedOne(cfg: Config, log: seq<Event>, e: Event, ref: Ref)
    requires LogTracked(cfg, log, ref) && EventTracked(cfg, log, e, ref)
    ensures LogTracked(cfg, log + [e], ref)
  {
    hide Holds, LogTracked, EventTracked;
    assert [e][..0] == [] && log + [] == log;
    LogTrackedMore(cfg, log, [e], ref);
  }

  lemma CommitTracked(w: World, ref: Ref)
    requires Inv(w) && Tracked(w, ref)
    ensures Tracked(ApplyCommit(w), ref)
  {
    hide Holds, Tracks, HoldsAfter, LogTracked, LogInv, OrderInv, FinalizerInv, NodesRecorded;
    if w.worker.Committing? && Unmoved(w, w.worker.read) && w.worker.read.status.state == Pending {
      var read := w.worker.read;
      assert w.nds[read.name] == read;
      var e := Committed(w.worker.attempt, read.uid, read.spec, w.worker.decision, w.worker.status.state);
      LogTrackedOne(w.cfg, w.log, e, ref);
      forall uid ensures Holds(w.cfg, w.log + [e], uid, ref)
                    <==> if CompletedOf(e, uid) then HoldsAfter(w.cfg, w.log, uid, ref, e.attempt, e.decision)
                         else Holds(w.cfg, w.log, uid, ref)
      {
        HoldsOne(w.cfg, w.log, e, uid, ref);
      }
    }
  }

  lemma TerminatePassTracked(w: World, name: string, answers: Answers, unreadable: set<Ref>, ref: Ref)
    requires Inv(w) && Tracked(w, ref)
    ensures Tracked(Apply(w, TerminatePass(name, answers, unreadable)), ref)
  {
    hide Holds, Tracks, HoldsAfter, LogTracked, StoreTracked, AllTerminated, TerminateCalls, BudgetGetter, UidInv,
         OrderInv, FinalizerInv, StoreInv, NodesRecorded, AnsweredIn;
    var step := TerminatePass(name, answers, unreadable);
    if w.worker.Idle? && name in w.nds && w.nds[name].deleting && w.nds[name].finalizer {
      var nd, get := w.nds[name], BudgetGetter(w.budgets, unreadable);
      var calls := TerminateCalls(nd.status.budgets, nd, get, answers);
      var more := CallEvents(w.attempts, nd.uid, calls);
      TerminateTells(w, nd, unreadable, answers, ref);
      CallsInHistory(w.log, w.attempts, nd.uid, calls, Terminate, ref);
      HoldsMore(w.cfg, w.log, more, nd.uid, ref);
      StoreStaysTracked(w, step, more, ref);
      TerminateCallKinds(nd.status.budgets, nd, get, answers);
      CallsTracked(w.cfg, w.log, w.attempts, nd.uid, calls, ref, Holds(w.cfg, w.log, nd.uid, ref));
      StoreTracks(w, name, ref);
    }
  }

  lemma StoreTracks(w: World, name: string, ref: Ref)
    requires StoreTracked(w, ref) && name in w.nds
    ensures Tracks(w.nds[name].status.budgets, ref, Holds(w.cfg, w.log, w.nds[name].uid, ref))
  {
    hide Holds, Tracks;
  }

  lemma TerminateTells(w: World, nd: NodeDisruption, unreadable: set<Ref>, answers: Answers, ref: Ref)
    requires WellKeyed(w.budgets)
    ensures (exists call | call in TerminateCalls(nd.status.budgets, nd, BudgetGetter(w.budgets, unreadable),
                                                  answers) :: call.ref == ref)
            ==> RecordedPreparing(nd.status.budgets, ref)
  {
    TerminatedExactly(nd, BudgetGetter(w.budgets, unreadable), answers, ref);
  }

  lemma RemoveFinalizerTracked(w: World, ref: Ref)
    requires Inv(w) && Tracked(w, ref)
    ensures Tracked(Apply(w, RemoveFinalizer), ref)
  {
    hide Holds, HoldsAfter, LogTracked, StoreTracked, UidInv, OrderInv, FinalizerInv, StoreInv, NodesRecorded,
         AnsweredIn, RecordedPreparing;
    if w.worker.Removing? && Unmoved(w, w.worker.read) {
      var e := Released(w.worker.attempt, w.worker.read.uid, w.worker.read.status.budgets);
      LogTrackedOne(w.cfg, w.log, e, ref);
      StoreStaysTracked(w, RemoveFinalizer, [e], ref);
    } else if w.worker.Removing? {
      assert w.log + [] == w.log;
      StoreStaysTracked(w, RemoveFinalizer, [], ref);
    }
  }

  lemma StepTracked(w: World, s: Step, b: Budget)
    requires Inv(w) && Backed(w, b) && Ordered(w) && V2HooksReady(b) && Tracked(w, b.GetNamespacedName())
    ensures Tracked(Apply(w, s), b.GetNamespacedName())
  {
    hide ApplyEnvironment, ApplyStart, ApplySyncNext, ApplyDecide, ApplyCommit, ApplyTerminatePass,
         ApplyRemoveFinalizer, Inv, Backed, Ordered, Tracked;
    var ref := b.GetNamespacedName();
    if IsEnvironment(s) {
      EnvironmentTracked(w, s, ref);
    } else {
      match s
      case Start(name, refs) => StartTracked(w, name, refs, ref);
      case SyncNext(names) => SyncNextTracked(w, names, ref);
      case Decide(names, answers, k) => DecideTracked(w, names, answers, k, b);
      case Commit => CommitTracked(w, ref);
      case TerminatePass(name, answers, unreadable) => TerminatePassTracked(w, name, answers, unreadable, ref);
      case RemoveFinalizer => RemoveFinalizerTracked(w, ref);
    }
  }

  /** For a v2 budget whose spec stays: in every reachable world its records are what the history says. */
  lemma {:induction false} RunTracked(w: World, steps: seq<Step>, b: Budget)
    requires Initial(w) && Fixed(w, b) && KeepsBudget(steps, b) && V2HooksReady(b)
    ensures Run(w, steps).cfg == w.cfg && Tracked(Run(w, steps), b.GetNamespacedName())
    decreases |steps|
  {
    hide Apply, Holds, Tracks, Backed, Fixed;
    if steps != [] {
      var init, last := steps[..|steps| - 1], steps[|steps| - 1];
      assert steps == init + [last];
      RunTracked(w, init, b);
      RunBacked(w, init, b);
      RunOrdered(w, init);
      SettingsFixed(Run(w, init), last);
      StepTracked(Run(w, init), last, b);
    }
  }

  // ----- the theorem -----

  /** Event j is the last successful prepare call for this disruption. */
  ghost predicate LastPrepare(log: seq<Event>, j: int, uid: nat, ref: Ref) {
    && 0 <= j < |log| && Answered(log[j], uid, Prepare, ref)
    && forall m | j < m < |log| :: !Answered(log[m], uid, Prepare, ref)
  }

  /** The attempt of that call was never written, or a later written one met PreparingLostExactlyWhen. */
  ghost predicate Forgotten(cfg: Config, log: seq<Event>, j: int, uid: nat, ref: Ref)
    requires 0 <= j < |log|
  {
    || (forall m | 0 <= m < |log| && CompletedOf(log[m], uid) :: log[m].attempt != log[j].attempt)
    || exists m :: j < m < |log| && CompletedOf(log[m], uid) && log[m].attempt > log[j].attempt
                   && LostIn(cfg, log[m].decision, ref)
  }

  lemma {:induction false} HasLastPrepare(log: seq<Event>, uid: nat, ref: Ref)
    ensures (exists j :: 0 <= j < |log| && Answered(log[j], uid, Prepare, ref))
            <==> exists j :: LastPrepare(log, j, uid, ref)
  {
    if log != [] {
      var n := |log| - 1;
      HasLastPrepare(log[..n], uid, ref);
      if Answered(log[n], uid, Prepare, ref) {
        assert LastPrepare(log, n, uid, ref);
      } else if j :| 0 <= j < |log| && Answered(log[j], uid, Prepare, ref) {
        assert log[..n][j] == log[j];
        var last :| LastPrepare(log[..n], last, uid, ref);
        assert LastPrepare(log, last, uid, ref);
      }
    }
  }

  lemma {:induction false} HoldsExactly(cfg: Config, log: seq<Event>, uid: nat, ref: Ref)
    requires OrderedLog(log) && LogTracked(cfg, log, ref)
    ensures Holds(cfg, log, uid, ref)
            <==> exists j :: LastPrepare(log, j, uid, ref) && !Forgotten(cfg, log, j, uid, ref)
  {
    hide LostIn;
    if log != [] {
      var n := |log| - 1;
      var init, e := log[..n], log[n];
      PrefixTracked(cfg, log, n, ref);
      HoldsExactly(cfg, init, uid, ref);
      assert log == init + [e];
      HoldsOne(cfg, init, e, uid, ref);
      if Answered(e, uid, Prepare, ref) {
        PreparedLast(cfg, log, uid, ref);
      } else if CompletedOf(e, uid) {
        CompletedLast(cfg, log, uid, ref);
      } else {
        OtherLast(cfg, log, uid, ref);
      }
    }
  }

  lemma PrefixTracked(cfg: Config, log: seq<Event>, n: nat, ref: Ref)
    requires n <= |log| && OrderedLog(log) && LogTracked(cfg, log, ref)
    ensures OrderedLog(log[..n]) && LogTracked(cfg, log[..n], ref)
  {
    hide EventTracked;
    forall i | 0 <= i < n ensures EventTracked(cfg, log[..n][..i], log[..n][i], ref) {
      assert log[..n][..i] == log[..i];
    }
  }

  lemma PreparedLast(cfg: Config, log: seq<Event>, uid: nat, ref: Ref)
    requires log != [] && OrderedLog(log) && LogTracked(cfg, log, ref) && Answered(log[|log| - 1], uid, Prepare, ref)
    ensures !Holds(cfg, log[..|log| - 1], uid, ref)
    ensures forall j | LastPrepare(log, j, uid, ref) :: Forgotten(cfg, log, j, uid, ref)
  {
    hide LostIn, Holds;
    assert EventTracked(cfg, log[..|log| - 1], log[|log| - 1], ref);
    forall j | LastPrepare(log, j, uid, ref) ensures Forgotten(cfg, log, j, uid, ref) {
      assert j == |log| - 1;
    }
  }

  lemma LastOfInit(log: seq<Event>, j: int, uid: nat, ref: Ref)
    requires log != [] && !Answered(log[|log| - 1], uid, Prepare, ref)
    ensures LastPrepare(log, j, uid, ref) <==> LastPrepare(log[..|log| - 1], j, uid, ref)
  {
  }

  lemma ForgottenStep(cfg: Config, log: seq<Event>, j: int, uid: nat, ref: Ref)
    requires log != [] && 0 <= j < |log| - 1
    ensures var e := log[|log| - 1];
            !CompletedOf(e, uid) ==>
              (Forgotten(cfg, log, j, uid, ref) <==> Forgotten(cfg, log[..|log| - 1], j, uid, ref))
    ensures var e := log[|log| - 1];
            CompletedOf(e, uid) && e.attempt > log[j].attempt ==>
              (Forgotten(cfg, log, j, uid, ref)
               <==> Forgotten(cfg, log[..|log| - 1], j, uid, ref) || LostIn(cfg, e.decision, ref))
  {
    hide LostIn;
    var init := log[..|log| - 1];
    if Forgotten(cfg, init, j, uid, ref) && exists m ::
        j < m < |init| && CompletedOf(init[m], uid) && init[m].attempt > init[j].attempt
            && LostIn(cfg, init[m].decision, ref) {
      var m :| j < m < |init| && CompletedOf(init[m], uid) && init[m].attempt > init[j].attempt
          && LostIn(cfg, init[m].decision, ref);
      assert log[m] == init[m];
    }
    if Forgotten(cfg, log, j, uid, ref) && !Forgotten(cfg, init, j, uid, ref) {
      var m :| 0 <= m < |init| && CompletedOf(init[m], uid) && init[m].attempt == init[j].attempt;
      assert log[m] == init[m];
      var l :| j < l < |log| && CompletedOf(log[l], uid) && log[l].attempt > log[j].attempt
          && LostIn(cfg, log[l].decision, ref);
    }
  }

  lemma OtherLast(cfg: Config, log: seq<Event>, uid: nat, ref: Ref)
    requires log != [] && !Answered(log[|log| - 1], uid, Prepare, ref) && !CompletedOf(log[|log| - 1], uid)
    ensures (exists j :: LastPrepare(log, j, uid, ref) && !Forgotten(cfg, log, j, uid, ref))
        <==> var init := log[..|log| - 1]; exists j ::
            LastPrepare(init, j, uid, ref) && !Forgotten(cfg, init, j, uid, ref)
  {
    hide Forgotten;
    var init := log[..|log| - 1];
    forall j | LastPrepare(log, j, uid, ref) || LastPrepare(init, j, uid, ref)
      ensures LastPrepare(log, j, uid, ref) && LastPrepare(init, j, uid, ref)
      ensures Forgotten(cfg, log, j, uid, ref) <==> Forgotten(cfg, init, j, uid, ref)
    {
      LastOfInit(log, j, uid, ref);
      ForgottenStep(cfg, log, j, uid, ref);
    }
  }

  lemma CompletedLast(cfg: Config, log: seq<Event>, uid: nat, ref: Ref)
    requires log != [] && OrderedLog(log) && CompletedOf(log[|log| - 1], uid)
    requires var init := log[..|log| - 1];
             Holds(cfg, init, uid, ref)
             <==> exists j :: LastPrepare(init, j, uid, ref) && !Forgotten(cfg, init, j, uid, ref)
    ensures HoldsAfter(cfg, log[..|log| - 1], uid, ref, log[|log| - 1].attempt, log[|log| - 1].decision)
        <==> exists j :: LastPrepare(log, j, uid, ref) && !Forgotten(cfg, log, j, uid, ref)
  {
    hide LostIn, Holds;
    var init, e := log[..|log| - 1], log[|log| - 1];
    HoldsAfterIs(cfg, init, uid, ref, e.attempt, e.decision);
    HasLastPrepare(init, uid, ref);
    if j :| LastPrepare(init, j, uid, ref) {
      LastOfInit(log, j, uid, ref);
      OneLast(init, j, uid, ref);
      OneLast(log, j, uid, ref);
      assert log[j].attempt <= e.attempt;
      AnsweredInLast(log, j, uid, ref);
      if log[j].attempt < e.attempt {
        ForgottenStep(cfg, log, j, uid, ref);
      } else {
        CompletedNow(cfg, log, j, uid, ref);
      }
    } else {
      forall j ensures !LastPrepare(log, j, uid, ref) {
        LastOfInit(log, j, uid, ref);
      }
    }
  }

  lemma OneLast(log: seq<Event>, j: int, uid: nat, ref: Ref)
    requires LastPrepare(log, j, uid, ref)
    ensures forall i | LastPrepare(log, i, uid, ref) :: i == j
  {
  }

  lemma AnsweredInLast(log: seq<Event>, j: int, uid: nat, ref: Ref)
    requires log != [] && OrderedLog(log) && LastPrepare(log[..|log| - 1], j, uid, ref)
    ensures AnsweredIn(log[..|log| - 1], uid, Prepare, ref, log[|log| - 1].attempt)
            <==> log[j].attempt == log[|log| - 1].attempt
  {
    var init, e := log[..|log| - 1], log[|log| - 1];
    if AnsweredIn(init, uid, Prepare, ref, e.attempt) {
      var i :| 0 <= i < |init| && Answered(init[i], uid, Prepare, ref) && init[i].attempt == e.attempt;
      assert i <= j && log[i] == init[i] && log[j] == init[j];
      if i < j {
        assert log[i].attempt <= log[j].attempt <= e.attempt;
      }
    }
  }

  lemma CompletedNow(cfg: Config, log: seq<Event>, j: int, uid: nat, ref: Ref)
    requires log != [] && OrderedLog(log) && 0 <= j < |log| - 1
    requires CompletedOf(log[|log| - 1], uid) && log[j].attempt == log[|log| - 1].attempt
    ensures !Forgotten(cfg, log, j, uid, ref)
  {
    hide LostIn;
    forall m | 0 <= m < |log| ensures log[m].attempt <= log[|log| - 1].attempt {
    }
  }

  /**
    For a v2 budget whose spec stays, in every run: when the finalizer of a disruption was given up, the budget had been
    told to prepare but the last pass did not tell it that the disruption ended, if and only if the attempt of its last
    successful prepare call was never written, or a later written one forgot it as PreparingLostExactlyWhen says.
   */
  lemma {:induction false} PreparedNotTerminatedExactly(w: World, steps: seq<Step>, b: Budget, i: nat)
    requires Initial(w) && Fixed(w, b) && KeepsBudget(steps, b) && V2HooksReady(b)
    requires i < |Run(w, steps).log| && Run(w, steps).log[i].Released?
    ensures var before, e, ref := Run(w, steps).log[..i], Run(w, steps).log[i], b.GetNamespacedName();
            && (exists j :: 0 <= j < i && Answered(before[j], e.uid, Prepare, ref))
            && !AnsweredIn(before, e.uid, Terminate, ref, e.attempt)
            <==> exists j :: LastPrepare(before, j, e.uid, ref) && Forgotten(w.cfg, before, j, e.uid, ref)
  {
    hide Run, Fixed, KeepsBudget, Backed, Forgotten, Holds;
    var log, ref := Run(w, steps).log, b.GetNamespacedName();
    var before, e := log[..i], log[i];
    RunTracked(w, steps, b);
    RunOrdered(w, steps);
    PrefixTracked(w.cfg, log, i, ref);
    HoldsExactly(w.cfg, before, e.uid, ref);
    HasLastPrepare(before, e.uid, ref);
    assert EventTracked(w.cfg, before, e, ref);
    if RecordedPreparing(e.budgets, ref) {
      ReleaseFollowsTerminate(w, steps, b, i);
    }
    if j :| LastPrepare(before, j, e.uid, ref) {
      OneLast(before, j, e.uid, ref);
    }
  }
}
