/** SingleNodeDisruptionReconciler (internal/controller/nodedisruption_controller.go), proved against Admission. */
module Reconciler {
  import opened Types
  import opened Sorting
  import opened Resolver
  import opened Admission
  import Spec = BudgetSpec
  import opened BudgetController

  lemma {:induction false} FirstRefusalIs(bs: seq<Budget>, nd: NodeDisruption, i: nat)
    requires i < |bs| && Refuses(bs[i], nd) && forall j | 0 <= j < i :: !Refuses(bs[j], nd)
    ensures AnyRefusal(bs, nd) && FirstRefusal(bs, nd) == bs[i]
  {
    assert bs[i] in bs;
    if i > 0 {
      FirstRefusalIs(bs[1..], nd, i - 1);
    }
  }

  lemma ConsultedStep(bs: seq<Budget>, nd: NodeDisruption, i: nat)
    requires i < |bs|
    ensures ConsultedBudgets(bs[..i + 1], nd) == ConsultedBudgets(bs[..i], nd) + if Consulted(bs[i], nd) then [bs[i]]
            else []
  {
    assert bs[..i + 1][..i] == bs[..i];
  }

  lemma NobodyConsulted(nd: NodeDisruption)
    ensures ConsultedBudgets([], nd) == []
  {
  }

  lemma NoRefusal(bs: seq<Budget>, nd: NodeDisruption)
    requires forall j | 0 <= j < |bs| :: !Refuses(bs[j], nd)
    ensures !AnyRefusal(bs, nd)
  {
  }

  lemma AllCallsStep(cs: seq<Budget>, nd: NodeDisruption, answers: Answers, i: nat)
    requires i < |cs|
    ensures AllCalls(cs[..i + 1], nd, answers) == AllCalls(cs[..i], nd, answers) + CallsFor(cs[i], nd, answers)
  {
    assert cs[..i + 1][..i] == cs[..i];
  }

  method FindRecorded(statuses: seq<BudgetCheck>, ref: Ref) returns (st: BudgetCheck)
    ensures st == Recorded(statuses, ref)
  {
    st := NO_CHECK;
    for i := 0 to |statuses|
      invariant Recorded(statuses, ref) == Recorded(statuses[i..], ref)
      invariant st == NO_CHECK
    {
      if statuses[i].ref == ref {
        return statuses[i];
      }
      assert statuses[i..][1..] == statuses[i + 1..];
    }
  }

  class SingleNodeDisruptionReconciler {
    const client: Client
    const config: Config
    const answers: Answers
    const clock: Clock
    var nodeDisruption: NodeDisruption
    ghost var calls: seq<HookCall>  // what went over the wire, in order

    constructor (nd: NodeDisruption, client: Client, config: Config, answers: Answers, clock: Clock)
      ensures nodeDisruption == nd && calls == []
      ensures this.client == client && this.config == config && this.answers == answers && this.clock == clock
    {
      this.nodeDisruption, this.client, this.config, this.answers, this.clock := nd, client, config, answers, clock;
      this.calls := [];
    }

    /** Brings the list of covered nodes up to date. */
    method Sync() returns (ok: bool)
      modifies this`nodeDisruption
      ensures ok <==> NodesForNodeSelector(client, old(nodeDisruption).spec.nodeSelector).Ok?
      ensures nodeDisruption == if ok
                then WithNodes(old(nodeDisruption),
                               NodesForNodeSelector(client, old(nodeDisruption).spec.nodeSelector).value)
                else old(nodeDisruption)
    {
      var disruptedNodes := GetNodeFromNodeSelector(client, nodeDisruption.spec.nodeSelector);
      if disruptedNodes.Err? {
        return false;
      }
      var nodes := NodeSetToStringList(disruptedNodes.value);
      nodeDisruption := nodeDisruption.(status := nodeDisruption.status.(nodes := nodes));
      ok := true;
    }

    /**
      One reconcile: on success the new status and calls are those of ReconcileOutcome; on failure nothing was called.
     */
    method Reconcile() returns (ok: bool)
      modifies this
      ensures ok <==> ReconcileOutcome(config, old(nodeDisruption), client, answers, clock).Ok?
      ensures ok ==>
                var outcome := ReconcileOutcome(config, old(nodeDisruption), client, answers, clock).value;
                nodeDisruption == old(nodeDisruption).(status := outcome.status) && calls == old(calls) + outcome.calls
      ensures !ok ==> calls == old(calls)
    {
      ok := Sync();
      if ok {
        ok := TryTransitionState();
      }
    }

    ghost function TransitionOutcome(): Result<Outcome>
      reads this
    {
      match nodeDisruption.status.state
      case Unknown => Ok(Outcome(nodeDisruption.status.(state := Pending), []))
      case Pending => TryGrant(config, nodeDisruption, client, Spec.AllBudgetsInSync(client), answers, clock)
      case _ => Ok(Outcome(nodeDisruption.status, []))
    }

    method TryTransitionState() returns (ok: bool)
      modifies this
      ensures ok <==> old(TransitionOutcome()).Ok?
      ensures ok ==>
                && nodeDisruption == old(nodeDisruption).(status := old(TransitionOutcome()).value.status)
                && calls == old(calls) + old(TransitionOutcome()).value.calls
      ensures !ok ==> nodeDisruption == old(nodeDisruption) && calls == old(calls)
    {
      if nodeDisruption.status.state == Unknown {
        nodeDisruption := nodeDisruption.(status := nodeDisruption.status.(state := Pending));
        return true;
      }
      if nodeDisruption.status.state == Pending {
        ok := TryTransitionToGranted();
        return;
      }
      ok := true;
    }

    method TryTransitionToGranted() returns (ok: bool)
      modifies this
      ensures var outcome := TryGrant(config, old(nodeDisruption), client, Spec.AllBudgetsInSync(client), answers,
                                      clock);
              && (ok <==> outcome.Ok?)
              && (ok ==> nodeDisruption == old(nodeDisruption).(status := outcome.value.status)
                         && calls == old(calls) + outcome.value.calls)
              && (!ok ==> nodeDisruption == old(nodeDisruption) && calls == old(calls))
    {
      hide BudgetVerdict, BudgetCalls, InternalVerdict;
      var doNotGrantBefore := nodeDisruption.spec.doNotGrantBefore;
      var nextRetryDate := RetryDate(config, nodeDisruption.spec, clock);
      var state: NDState;
      var budgets := GetAllBudgetsInSync(client);
      if budgets.Err? {
        return false;
      }
      var internal := ValidateWithInternalConstraints();
      if internal.Err? {
        return false;
      }
      var anyFailed, statuses := internal.value.failed, internal.value.statuses;
      if !anyFailed {
        anyFailed, statuses := ValidateWithBudgetConstraints(budgets.value);
      }
      if !anyFailed {
        if doNotGrantBefore.At? && Before(clock.grantCheck, doNotGrantBefore) {
          state := Pending;
          nextRetryDate := doNotGrantBefore;
        } else {
          state := Granted;
        }
      } else {
        if nextRetryDate.At? {
          state := Pending;
        } else {
          var anyPreparing := AnyPreparing(statuses);
          if anyPreparing && !nodeDisruption.spec.retry.IsAfterDeadline(clock.finalCheck) {
            state := Pending;
          } else {
            state := Rejected;
          }
        }
      }
      nodeDisruption := nodeDisruption.(status := nodeDisruption.status.(budgets := statuses));
      nodeDisruption := nodeDisruption.(status := nodeDisruption.status.(state := state));
      nodeDisruption := nodeDisruption.(status := nodeDisruption.status.(nextRetry := nextRetryDate));
      ok := true;
    }

    method ValidateOverlappingDisruption(disruptedNodes: NodeSet) returns (r: Result<Verdict>)
      requires disruptedNodes == Elements(nodeDisruption.status.nodes)
      ensures r.Err? <==> NDs in client.down
      ensures r.Ok? ==> r.value == if Overlaps(nodeDisruption, client.nds)
                                   then Verdict(true, [OwnFailure(nodeDisruption)]) else Verdict(false, [NO_CHECK])
    {
      if NDs in client.down {
        return Err;
      }
      var nds := client.nds;
      for i := 0 to |nds|
        invariant forall j | 0 <= j < i :: !OverlapsOther(nodeDisruption, nds[j])
      {
        var other := nds[i];
        if other.name == nodeDisruption.name {
          continue;
        }
        if other.status.state == Pending || other.status.state == Granted {
          var otherNodes := NewNodeSetFromStringList(other.status.nodes);
          if |otherNodes * disruptedNodes| > 0 {
            assert OverlapsOther(nodeDisruption, other);
            return Ok(Verdict(true, [OwnFailure(nodeDisruption)]));
          }
        }
      }
      r := Ok(Verdict(false, [NO_CHECK]));
    }

    method ValidateWithInternalConstraints() returns (r: Result<Verdict>)
      ensures r == InternalVerdict(config, nodeDisruption, client, clock)
    {
      var disruptedNodes := NewNodeSetFromStringList(nodeDisruption.status.nodes);
      if nodeDisruption.spec.retry.IsAfterDeadline(clock.internalCheck) {
        return Ok(Verdict(true, nodeDisruption.status.budgets + [OwnFailure(nodeDisruption)]));
      }
      if config.rejectEmpty && |disruptedNodes| == 0 {
        return Ok(Verdict(true, [OwnFailure(nodeDisruption)]));
      }
      if config.rejectOverlapping {
        r := ValidateOverlappingDisruption(disruptedNodes);
        return;
      }
      if |config.types| != 0 && nodeDisruption.spec.ndType !in config.types {
        return Ok(Verdict(true, [OwnFailure(nodeDisruption)]));
      }
      r := Ok(Verdict(false, []));
    }

    /**
      Both phases: stop at the first refusal before any hook; otherwise consult everybody, whatever the others answer.
     */
    method ValidateWithBudgetConstraints(budgets: seq<BudgetResolver>) returns (anyFailed: bool,
        statuses: seq<BudgetCheck>)
      modifies this`calls
      ensures Verdict(anyFailed, statuses) == BudgetVerdict(nodeDisruption, Values(budgets), answers)
      ensures calls == old(calls) + BudgetCalls(nodeDisruption, Values(budgets), answers)
    {
      var refused, impactedBudgets := CheckTolerance(budgets);
      if refused.Some? {
        return true, [refused.value];
      }
      anyFailed, statuses := CheckHooks(impactedBudgets);
    }

    /** First phase */
    method CheckTolerance(budgets: seq<BudgetResolver>) returns (refused: Option<BudgetCheck>,
        impactedBudgets: seq<BudgetResolver>)
      ensures refused.Some? <==> AnyRefusal(Values(budgets), nodeDisruption)
      ensures refused.Some? ==>
                refused.value == BudgetCheck(FirstRefusal(Values(budgets), nodeDisruption).GetNamespacedName(), false,
                                             false)
      ensures refused.None? ==> Values(impactedBudgets) == ConsultedBudgets(Values(budgets), nodeDisruption)
    {
      hide Refuses, Consulted, AnyRefusal, FirstRefusal, ConsultedBudgets, Values;
      ghost var bs := Values(budgets);
      var disruptedNodes := NewNodeSetFromStringList(nodeDisruption.status.nodes);
      impactedBudgets := [];
      ghost var cs := [];
      NobodyConsulted(nodeDisruption);
      for i := 0 to |budgets|
        invariant |impactedBudgets| == |cs| && forall j | 0 <= j < |cs| :: impactedBudgets[j].budget == cs[j]
        invariant cs == ConsultedBudgets(bs[..i], nodeDisruption)
        invariant forall j | 0 <= j < i :: !Refuses(bs[j], nodeDisruption)
      {
        var budget := budgets[i];
        ConsultedStep(bs, nodeDisruption, i);
        var consulted, tolerated := Probe(budget, disruptedNodes);
        if !consulted {
          continue;
        }
        if !tolerated {
          FirstRefusalIs(bs, nodeDisruption, i);
          return Some(BudgetCheck(budget.budget.GetNamespacedName(), false, false)), [];
        }
        impactedBudgets := impactedBudgets + [budget];
        cs := cs + [bs[i]];
      }
      assert bs[..|budgets|] == bs;
      NoRefusal(bs, nodeDisruption);
      refused := None;
    }

    method Probe(budget: BudgetResolver, disruptedNodes: NodeSet) returns (consulted: bool, tolerated: bool)
      requires disruptedNodes == Elements(nodeDisruption.status.nodes)
      ensures consulted == Consulted(budget.budget, nodeDisruption)
      ensures tolerated == !Refuses(budget.budget, nodeDisruption) && (!consulted ==> tolerated)
    {
      if !Spec.Supports(budget.budget, nodeDisruption.spec.ndType) {
        return false, true;
      }
      var impacted := budget.IsImpacted(disruptedNodes);
      if !impacted {
        return false, true;
      }
      tolerated := budget.TolerateDisruption(disruptedNodes);
      consulted := true;
    }

    /** Second phase */
    method CheckHooks(impactedBudgets: seq<BudgetResolver>) returns (anyFailed: bool, statuses: seq<BudgetCheck>)
      modifies this`calls
      ensures anyFailed == AnyUnready(Values(impactedBudgets), nodeDisruption, answers)
      ensures statuses == Checks(Values(impactedBudgets), nodeDisruption, answers)
      ensures calls == old(calls) + AllCalls(Values(impactedBudgets), nodeDisruption, answers)
    {
      hide CheckFor, CallsFor;
      ghost var cs := Values(impactedBudgets);
      anyFailed, statuses := false, [];
      for i := 0 to |impactedBudgets|
        invariant anyFailed == exists j :: 0 <= j < i && !CheckFor(cs[j], nodeDisruption, answers).ok
        invariant |statuses| == i && forall j | 0 <= j < i :: statuses[j] == CheckFor(cs[j], nodeDisruption, answers)
        invariant calls == old(calls) + AllCalls(cs[..i], nodeDisruption, answers)
      {
        AllCallsStep(cs, nodeDisruption, answers, i);
        var status := CheckBudget(impactedBudgets[i]);
        if !status.ok {
          anyFailed := true;
        }
        statuses := statuses + [status];
      }
      assert cs[..|cs|] == cs;
    }

    method CheckBudget(budget: BudgetResolver) returns (status: BudgetCheck)
      modifies this`calls
      ensures status == CheckFor(budget.budget, nodeDisruption, answers)
      ensures calls == old(calls) + CallsFor(budget.budget, nodeDisruption, answers)
    {
      var st := FindRecorded(nodeDisruption.status.budgets, budget.budget.GetNamespacedName());
      if Spec.V2HooksReady(budget.budget) {
        status := V2HookCheck(budget, st);
      } else {
        status := LegacyHookCheck(budget, st);
      }
    }

    method V2HookCheck(budget: BudgetResolver, current: BudgetCheck) returns (status: BudgetCheck)
      requires Spec.V2HooksReady(budget.budget)
      modifies this`calls
      ensures status == CheckOf(budget.budget, current, answers)
      ensures calls == old(calls) + CallsOf(budget.budget, nodeDisruption, current, answers)
    {
      var ref := budget.budget.GetNamespacedName();
      if !current.ok && !current.preparing {
        var ok, sent := budget.CallHook(Prepare, nodeDisruption, answers);
        calls := calls + sent;
        if !ok {
          return BudgetCheck(ref, false, false);
        }
        return BudgetCheck(ref, true, false);
      } else if current.preparing {
        var ok, sent := budget.CallHook(Ready, nodeDisruption, answers);
        calls := calls + sent;
        if !ok {
          return BudgetCheck(ref, true, false);
        }
      }
      status := BudgetCheck(ref, true, true);
    }

    method LegacyHookCheck(budget: BudgetResolver, ghost current: BudgetCheck) returns (status: BudgetCheck)
      requires !Spec.V2HooksReady(budget.budget)
      modifies this`calls
      ensures status == CheckOf(budget.budget, current, answers)
      ensures calls == old(calls) + CallsOf(budget.budget, nodeDisruption, current, answers)
    {
      var ok, sent := budget.CallHook(Health, nodeDisruption, answers);
      calls := calls + sent;
      status := BudgetCheck(budget.budget.GetNamespacedName(), false, ok);
    }

    /**
      Visits every recorded status; fails if any budget that must terminate could not be read or did not acknowledge.
     */
    method TerminateAllImpactedBudgets(get: Getter) returns (ok: bool)
      modifies this`calls
      ensures ok <==> AllTerminated(nodeDisruption.status.budgets, get, answers)
      ensures calls == old(calls) + TerminateCalls(nodeDisruption.status.budgets, nodeDisruption, get, answers)
    {
      hide TerminateFails, TerminateCall;
      var anyFailed := false;
      var statuses := nodeDisruption.status.budgets;
      for i := 0 to |statuses|
        invariant anyFailed <==> exists j :: 0 <= j < i && TerminateFails(statuses[j], get, answers)
        invariant calls == old(calls) + TerminateCalls(statuses[..i], nodeDisruption, get, answers)
      {
        assert statuses[..i + 1][..i] == statuses[..i];
        var failed := TerminateOne(statuses[i], get);
        if failed {
          anyFailed := true;
        }
      }
      assert statuses[..|statuses|] == statuses;
      ok := !anyFailed;
    }

    /** One iteration of the terminate loop */
    method TerminateOne(status: BudgetCheck, get: Getter) returns (failed: bool)
      modifies this`calls
      ensures failed == TerminateFails(status, get, answers)
      ensures calls == old(calls) + TerminateCall(status, nodeDisruption, get, answers)
    {
      if !status.preparing {
        return false;
      }
      if status.ref.kind != ADB_KIND {
        return false;
      }
      var found := get(status.ref);
      if found.Err? {
        return true;
      }
      if found.value.None? {
        return false;
      }
      var budgetResolver := new BudgetResolver(client, found.value.value);
      if !Spec.V2HooksReady(budgetResolver.budget) {
        return false;
      }
      var acknowledged, sent := budgetResolver.CallHook(Terminate, nodeDisruption, answers);
      calls := calls + sent;
      failed := !acknowledged;
    }
  }
}
