/**
  The admission decision of nodedisruption_controller.go as functions of what one reconcile reads: the disruption,
  the synced budgets, the answers of the application managers and the clock.
 */
module Admission {
  import opened Types
  import opened Sorting
  import opened Resolver
  import opened BudgetSpec
  import Labels

  /** The clock is read several times in one attempt. */
  datatype Clock = Clock(gate: int, retryCheck: int, retryBase: int, internalCheck: int, grantCheck: int,
                         finalCheck: int) {
    predicate Monotone() {
      gate <= retryCheck <= retryBase <= internalCheck <= grantCheck <= finalCheck
    }
  }

  function RetryDate(cfg: Config, spec: NDSpec, k: Clock): Time {
    if spec.retry.enabled && !spec.retry.IsAfterDeadline(k.retryCheck) then At(k.retryBase + cfg.retryInterval)
    else ZeroTime
  }

  datatype Verdict = Verdict(failed: bool, statuses: seq<BudgetCheck>)

  // ----- internal constraints -----

  function OwnFailure(nd: NodeDisruption): BudgetCheck {
    BudgetCheck(nd.GetNamespacedName(), false, false)
  }

  const NO_CHECK := BudgetCheck(Ref("", "", ""), false, false)

  ghost predicate OverlapsOther(nd: NodeDisruption, other: NodeDisruption) {
    && other.name != nd.name
    && (other.status.state == Pending || other.status.state == Granted)
    && Elements(other.status.nodes) * Elements(nd.status.nodes) != {}
  }

  ghost predicate Overlaps(nd: NodeDisruption, nds: seq<NodeDisruption>) {
    exists other | other in nds :: OverlapsOther(nd, other)
  }

  /** ValidateWithInternalConstraints; the overlap check returns before the type check. */
  ghost function InternalVerdict(cfg: Config, nd: NodeDisruption, c: Client, k: Clock): Result<Verdict> {
    if nd.spec.retry.IsAfterDeadline(k.internalCheck) then
      Ok(Verdict(true, nd.status.budgets + [OwnFailure(nd)]))
    else if cfg.rejectEmpty && Elements(nd.status.nodes) == {} then
      Ok(Verdict(true, [OwnFailure(nd)]))
    else if cfg.rejectOverlapping then
      if NDs in c.down then Err
      else if Overlaps(nd, c.nds) then Ok(Verdict(true, [OwnFailure(nd)]))
      else Ok(Verdict(false, [NO_CHECK]))
    else if cfg.types != [] && nd.spec.ndType !in cfg.types then
      Ok(Verdict(true, [OwnFailure(nd)]))
    else
      Ok(Verdict(false, []))
  }

  // ----- budget constraints -----

  ghost predicate Consulted(b: Budget, nd: NodeDisruption) {
    Supports(b, nd.spec.ndType) && IsImpacted(b, Elements(nd.status.nodes))
  }

  ghost predicate Refuses(b: Budget, nd: NodeDisruption) {
    Consulted(b, nd) && !Tolerates(b, Elements(nd.status.nodes))
  }

  ghost predicate AnyRefusal(bs: seq<Budget>, nd: NodeDisruption) {
    exists b | b in bs :: Refuses(b, nd)
  }

  ghost function FirstRefusal(bs: seq<Budget>, nd: NodeDisruption): (b: Budget)
    requires AnyRefusal(bs, nd)
    ensures b in bs && Refuses(b, nd)
  {
    if Refuses(bs[0], nd) then bs[0] else FirstRefusal(bs[1..], nd)
  }

  ghost function ConsultedBudgets(bs: seq<Budget>, nd: NodeDisruption): (cs: seq<Budget>)
    ensures forall b :: b in cs <==> b in bs && Consulted(b, nd)
  {
    if bs == [] then []
    else
      var last := bs[|bs| - 1];
      assert bs == bs[..|bs| - 1] + [last];
      ConsultedBudgets(bs[..|bs| - 1], nd) + if Consulted(last, nd) then [last] else []
  }

  /** The first recorded status of a budget. */
  function Recorded(statuses: seq<BudgetCheck>, ref: Ref): BudgetCheck {
    if statuses == [] then NO_CHECK
    else if statuses[0].ref == ref then statuses[0]
    else Recorded(statuses[1..], ref)
  }

  /** Which hook a budget's check calls, given what was recorded for it. */
  function HookToCall(b: Budget, recorded: BudgetCheck): Option<HookKind> {
    if !V2HooksReady(b) then Some(Health)
    else if !recorded.ok && !recorded.preparing then Some(Prepare)
    else if recorded.preparing then Some(Ready)
    else None
  }

  /** v2HookCheck and legacyHookCheck */
  function CheckOf(b: Budget, recorded: BudgetCheck, answers: Answers): BudgetCheck {
    var ref := b.GetNamespacedName();
    match HookToCall(b, recorded)
    case Some(Health) => BudgetCheck(ref, false, HookOk(b, Health, answers))
    case Some(Prepare) => BudgetCheck(ref, HookOk(b, Prepare, answers), false)
    case Some(Ready) => BudgetCheck(ref, true, HookOk(b, Ready, answers))
    case _ => BudgetCheck(ref, true, true)
  }

  ghost function CallsOf(b: Budget, nd: NodeDisruption, recorded: BudgetCheck, answers: Answers): seq<HookCall> {
    match HookToCall(b, recorded)
    case Some(kind) => HookCalls(b, nd, kind, answers)
    case None => []
  }

  function CheckFor(b: Budget, nd: NodeDisruption, answers: Answers): BudgetCheck {
    CheckOf(b, Recorded(nd.status.budgets, b.GetNamespacedName()), answers)
  }

  ghost function CallsFor(b: Budget, nd: NodeDisruption, answers: Answers): seq<HookCall> {
    CallsOf(b, nd, Recorded(nd.status.budgets, b.GetNamespacedName()), answers)
  }

  ghost function Checks(cs: seq<Budget>, nd: NodeDisruption, answers: Answers): (r: seq<BudgetCheck>)
    ensures |r| == |cs| && forall i | 0 <= i < |cs| :: r[i] == CheckFor(cs[i], nd, answers)
  {
    seq(|cs|, i requires 0 <= i < |cs| => CheckFor(cs[i], nd, answers))
  }

  ghost function AllCalls(cs: seq<Budget>, nd: NodeDisruption, answers: Answers): seq<HookCall> {
    if cs == [] then [] else AllCalls(cs[..|cs| - 1], nd, answers) + CallsFor(cs[|cs| - 1], nd, answers)
  }

  ghost predicate AnyUnready(cs: seq<Budget>, nd: NodeDisruption, answers: Answers) {
    exists b | b in cs :: !CheckFor(b, nd, answers).ok
  }

  /** ValidateWithBudgetConstraints: first tolerance of everybody, only then hooks, and then everybody's. */
  ghost function BudgetVerdict(nd: NodeDisruption, bs: seq<Budget>, answers: Answers): Verdict {
    if AnyRefusal(bs, nd) then
      Verdict(true, [BudgetCheck(FirstRefusal(bs, nd).GetNamespacedName(), false, false)])
    else
      var cs := ConsultedBudgets(bs, nd);
      Verdict(AnyUnready(cs, nd, answers), Checks(cs, nd, answers))
  }

  ghost function BudgetCalls(nd: NodeDisruption, bs: seq<Budget>, answers: Answers): seq<HookCall> {
    if AnyRefusal(bs, nd) then [] else AllCalls(ConsultedBudgets(bs, nd), nd, answers)
  }

  // ----- the transition -----

  predicate AnyPreparing(statuses: seq<BudgetCheck>) {
    exists s | s in statuses :: s.preparing
  }

  /** The end of tryTransitionToGranted: from a verdict to a state and a date. */
  function Conclude(cfg: Config, nd: NodeDisruption, v: Verdict, k: Clock): NDStatus {
    var retry := RetryDate(cfg, nd.spec, k);
    var status := nd.status.(budgets := v.statuses);
    if !v.failed then
      if Before(k.grantCheck, nd.spec.doNotGrantBefore) then
        status.(state := Pending, nextRetry := nd.spec.doNotGrantBefore)
      else
        status.(state := Granted, nextRetry := retry)
    else if retry.At? then
      status.(state := Pending, nextRetry := retry)
    else if AnyPreparing(v.statuses) && !nd.spec.retry.IsAfterDeadline(k.finalCheck) then
      status.(state := Pending, nextRetry := retry)
    else
      status.(state := Rejected, nextRetry := retry)
  }

  datatype Outcome = Outcome(status: NDStatus, calls: seq<HookCall>)

  ghost function TryGrant(cfg: Config, nd: NodeDisruption, c: Client, budgets: Result<seq<Budget>>, answers: Answers,
      k: Clock)
    : Result<Outcome>
  {
    var bs :- budgets;
    var internal :- InternalVerdict(cfg, nd, c, k);
    if internal.failed then
      Ok(Outcome(Conclude(cfg, nd, internal, k), []))
    else
      Ok(Outcome(Conclude(cfg, nd, BudgetVerdict(nd, bs, answers), k), BudgetCalls(nd, bs, answers)))
  }

  /** Sync: the disruption with the nodes its selector currently covers. */
  ghost function WithNodes(nd: NodeDisruption, nodes: NodeSet): NodeDisruption {
    nd.(status := nd.status.(nodes := SortedList(nodes)))
  }

  /** SingleNodeDisruptionReconciler.Reconcile */
  ghost function ReconcileOutcome(cfg: Config, nd: NodeDisruption, c: Client, answers: Answers,
      k: Clock): Result<Outcome> {
    var nodes :- NodesForNodeSelector(c, nd.spec.nodeSelector);
    var nd' := WithNodes(nd, nodes);
    match nd.status.state
    case Unknown => Ok(Outcome(nd'.status.(state := Pending), []))
    case Pending => TryGrant(cfg, nd', c, AllBudgetsInSync(c), answers, k)
    case _ => Ok(Outcome(nd'.status, []))
  }

  // ----- termination -----

  /** Getting a budget by reference: an error, nothing, or the object. */
  type Getter = Ref -> Result<Option<Budget>>

  predicate MayNeedTerminate(s: BudgetCheck) {
    s.preparing && s.ref.kind == ADB_KIND
  }

  /** The recorded budget must acknowledge terminate: it is preparing, still exists and has a v2 URL. */
  predicate MustTerminate(s: BudgetCheck, get: Getter) {
    MayNeedTerminate(s) && get(s.ref).Ok? && get(s.ref).value.Some? && V2HooksReady(get(s.ref).value.value)
  }

  predicate TerminateFails(s: BudgetCheck, get: Getter, answers: Answers) {
    MayNeedTerminate(s) && (get(s.ref).Err?
        || (MustTerminate(s, get) && !HookOk(get(s.ref).value.value, Terminate, answers)))
  }

  ghost function TerminateCall(s: BudgetCheck, nd: NodeDisruption, get: Getter, answers: Answers): seq<HookCall> {
    if MustTerminate(s, get) then HookCalls(get(s.ref).value.value, nd, Terminate, answers) else []
  }

  /** The calls of a terminate pass: it visits every recorded status, failures or not. */
  ghost function TerminateCalls(statuses: seq<BudgetCheck>, nd: NodeDisruption, get: Getter,
      answers: Answers): seq<HookCall> {
    if statuses == [] then []
    else
      TerminateCalls(statuses[..|statuses| - 1], nd, get, answers)
      + TerminateCall(statuses[|statuses| - 1], nd, get, answers)
  }

  ghost predicate AllTerminated(statuses: seq<BudgetCheck>, get: Getter, answers: Answers) {
    forall s | s in statuses :: !TerminateFails(s, get, answers)
  }

  // ----- properties of the decision -----

  /** Order does not decide: any listing of the same budgets gives the same verdict. */
  lemma VerdictIgnoresOrder(nd: NodeDisruption, bs: seq<Budget>, bs': seq<Budget>, answers: Answers)
    requires multiset(bs) == multiset(bs')
    ensures BudgetVerdict(nd, bs, answers).failed == BudgetVerdict(nd, bs', answers).failed
    ensures !BudgetVerdict(nd, bs, answers).failed
        <==> forall b | b in bs && Consulted(b, nd) ::
            Tolerates(b, Elements(nd.status.nodes)) && CheckFor(b, nd, answers).ok
  {
    forall b ensures b in bs <==> b in bs' {
      assert b in multiset(bs) <==> b in multiset(bs');
    }
  }

  lemma {:induction false} CallInAllCalls(cs: seq<Budget>, nd: NodeDisruption, answers: Answers, call: HookCall)
    ensures call in AllCalls(cs, nd, answers) <==> exists b :: b in cs && call in CallsFor(b, nd, answers)
  {
    if cs != [] {
      var init, last := cs[..|cs| - 1], cs[|cs| - 1];
      assert cs == init + [last];
      CallInAllCalls(init, nd, answers, call);
    }
  }

  ghost predicate DistinctRefs(bs: seq<Budget>) {
    forall i, j | 0 <= i < j < |bs| :: bs[i].GetNamespacedName() != bs[j].GetNamespacedName()
  }

  /** What the second phase records: one status for each consulted budget, and nothing about any other. */
  lemma {:induction false} ChecksRecorded(cs: seq<Budget>, nd: NodeDisruption, answers: Answers, ref: Ref)
    ensures (forall b | b in cs :: b.GetNamespacedName() != ref) ==>
              forall s | s in Checks(cs, nd, answers) :: s.ref != ref
    ensures forall b | b in cs && b.GetNamespacedName() == ref && DistinctRefs(cs) ::
              CheckFor(b, nd, answers) in Checks(cs, nd, answers)
              && forall s | s in Checks(cs, nd, answers) && s.ref == ref :: s == CheckFor(b, nd, answers)
  {
    var checks := Checks(cs, nd, answers);
    forall b | b in cs ensures CheckFor(b, nd, answers) in checks {
      var i :| 0 <= i < |cs| && cs[i] == b;
      assert checks[i] == CheckFor(b, nd, answers);
    }
    forall s | s in checks
      ensures exists i :: 0 <= i < |cs| && s == CheckFor(cs[i], nd, answers) && s.ref == cs[i].GetNamespacedName()
    {
      var i :| 0 <= i < |checks| && checks[i] == s;
      assert s == CheckFor(cs[i], nd, answers);
    }
  }

  /** `ref` is recorded as preparing. */
  ghost predicate RecordedPreparing(statuses: seq<BudgetCheck>, ref: Ref) {
    exists s | s in statuses :: s.ref == ref && s.preparing
  }

  lemma {:induction false} RecordedIsPresent(statuses: seq<BudgetCheck>, ref: Ref)
    ensures Recorded(statuses, ref) == NO_CHECK
            || (Recorded(statuses, ref) in statuses && Recorded(statuses, ref).ref == ref)
  {
    if statuses != [] && statuses[0].ref != ref {
      RecordedIsPresent(statuses[1..], ref);
    }
  }

  /** An internal check other than the deadline failed. */
  ghost predicate FailsInternally(cfg: Config, nd: NodeDisruption, c: Client, k: Clock) {
    && !nd.spec.retry.IsAfterDeadline(k.internalCheck)
    && InternalVerdict(cfg, nd, c, k).Ok? && InternalVerdict(cfg, nd, c, k).value.failed
  }

  /** The budget is listed, supported, impacted and has v2 hooks. */
  ghost predicate StillV2(bs: seq<Budget>, nd: NodeDisruption, ref: Ref) {
    exists b | b in bs :: b.GetNamespacedName() == ref && Consulted(b, nd) && V2HooksReady(b)
  }

  lemma ConsultedRefs(bs: seq<Budget>, nd: NodeDisruption)
    requires DistinctRefs(bs)
    ensures DistinctRefs(ConsultedBudgets(bs, nd))
  {
    if bs != [] {
      var init, last := bs[..|bs| - 1], bs[|bs| - 1];
      ConsultedRefs(init, nd);
      var cs := ConsultedBudgets(init, nd);
      forall i | 0 <= i < |cs| ensures cs[i].GetNamespacedName() != last.GetNamespacedName() {
        assert cs[i] in init;
      }
    }
  }

  /** After the second phase a budget that was recorded preparing still is, as long as its v2 check takes place. */
  lemma ChecksKeepPreparing(bs: seq<Budget>, nd: NodeDisruption, answers: Answers, ref: Ref)
    requires DistinctRefs(bs) && Recorded(nd.status.budgets, ref).preparing
    ensures RecordedPreparing(Checks(ConsultedBudgets(bs, nd), nd, answers), ref) <==> StillV2(bs, nd, ref)
  {
    hide Consulted;
    var cs := ConsultedBudgets(bs, nd);
    if StillV2(bs, nd, ref) {
      var b :| b in bs && b.GetNamespacedName() == ref && Consulted(b, nd) && V2HooksReady(b);
      V2CheckKeepsPreparing(cs, nd, answers, b);
    }
    if RecordedPreparing(Checks(cs, nd, answers), ref) {
      var b := PreparingCheckIsV2(cs, nd, answers, ref);
    }
  }

  lemma V2CheckKeepsPreparing(cs: seq<Budget>, nd: NodeDisruption, answers: Answers, b: Budget)
    requires b in cs && V2HooksReady(b) && Recorded(nd.status.budgets, b.GetNamespacedName()).preparing
    ensures RecordedPreparing(Checks(cs, nd, answers), b.GetNamespacedName())
  {
    var i :| 0 <= i < |cs| && cs[i] == b;
    assert Checks(cs, nd, answers)[i] == CheckFor(b, nd, answers);
  }

  lemma PreparingCheckIsV2(cs: seq<Budget>, nd: NodeDisruption, answers: Answers, ref: Ref) returns (b: Budget)
    requires RecordedPreparing(Checks(cs, nd, answers), ref)
    ensures b in cs && b.GetNamespacedName() == ref && V2HooksReady(b)
  {
    var checks := Checks(cs, nd, answers);
    var s :| s in checks && s.ref == ref && s.preparing;
    var i :| 0 <= i < |checks| && checks[i] == s;
    b := cs[i];
    assert s == CheckFor(b, nd, answers);
  }

  /**
    A committed attempt forgets that a budget was preparing exactly when an internal check other than the deadline
    failed, or some budget refused, or the budget is no longer a listed, supported, impacted v2 budget. A deadline
    rejection in particular keeps all of them for the terminate pass.
   */
  lemma PreparingLostExactlyWhen(cfg: Config, nd: NodeDisruption, c: Client, bs: seq<Budget>, answers: Answers,
      k: Clock, ref: Ref)
    requires DistinctRefs(bs) && ref.kind != ND_KIND && Recorded(nd.status.budgets, ref).preparing
    requires TryGrant(cfg, nd, c, Ok(bs), answers, k).Ok?
    ensures !RecordedPreparing(TryGrant(cfg, nd, c, Ok(bs), answers, k).value.status.budgets, ref)
        <==> FailsInternally(cfg, nd, c, k)
             || (!nd.spec.retry.IsAfterDeadline(k.internalCheck) && (AnyRefusal(bs, nd) || !StillV2(bs, nd, ref)))
  {
    var internal := InternalVerdict(cfg, nd, c, k).value;
    var statuses := TryGrant(cfg, nd, c, Ok(bs), answers, k).value.status.budgets;
    if nd.spec.retry.IsAfterDeadline(k.internalCheck) {
      RecordedIsPresent(nd.status.budgets, ref);
      assert statuses == nd.status.budgets + [OwnFailure(nd)];
      assert Recorded(nd.status.budgets, ref) in statuses;
    } else if internal.failed {
      assert statuses == [OwnFailure(nd)];
    } else if AnyRefusal(bs, nd) {
      assert statuses == [BudgetCheck(FirstRefusal(bs, nd).GetNamespacedName(), false, false)];
    } else {
      assert statuses == Checks(ConsultedBudgets(bs, nd), nd, answers);
      ChecksKeepPreparing(bs, nd, answers, ref);
    }
  }

  /**
    The hooks behind a grant: every consulted budget tolerated, every v2 one answered a ready call, every other one
    with a health hook answered that. The v2 budget must not be recorded Ok without having been recorded preparing.
   */
  lemma GrantNeedsHooks(cfg: Config, nd: NodeDisruption, c: Client, bs: seq<Budget>, answers: Answers, k: Clock,
      b: Budget)
    requires TryGrant(cfg, nd, c, Ok(bs), answers, k).Ok?
    requires TryGrant(cfg, nd, c, Ok(bs), answers, k).value.status.state == Granted
    requires b in bs && Consulted(b, nd)
    requires V2HooksReady(b) && Recorded(nd.status.budgets, b.GetNamespacedName()).ok
             ==> Recorded(nd.status.budgets, b.GetNamespacedName()).preparing
    ensures Tolerates(b, Elements(nd.status.nodes))
    ensures var calls := TryGrant(cfg, nd, c, Ok(bs), answers, k).value.calls;
            if V2HooksReady(b) then
              && Recorded(nd.status.budgets, b.GetNamespacedName()).preparing
              && HookCall(Ready, b.GetNamespacedName(), HookBody(b, nd, Ready), true) in calls
            else
              Sends(b, Health) ==> HookCall(Health, b.GetNamespacedName(), HookBody(b, nd, Health), true) in calls
  {
    hide TryGrant, InternalVerdict;
    GrantMeansTolerated(cfg, nd, c, bs, answers, k);
    OutcomeOfBudgets(cfg, nd, c, bs, answers, k);
    assert !Refuses(b, nd);
    ReadyNeedsHook(nd, bs, answers, b);
  }

  lemma ReadyNeedsHook(nd: NodeDisruption, bs: seq<Budget>, answers: Answers, b: Budget)
    requires !AnyRefusal(bs, nd) && !AnyUnready(ConsultedBudgets(bs, nd), nd, answers)
    requires b in bs && Consulted(b, nd)
    requires V2HooksReady(b) && Recorded(nd.status.budgets, b.GetNamespacedName()).ok
             ==> Recorded(nd.status.budgets, b.GetNamespacedName()).preparing
    ensures if V2HooksReady(b) then
              && Recorded(nd.status.budgets, b.GetNamespacedName()).preparing
              && HookCall(Ready, b.GetNamespacedName(), HookBody(b, nd, Ready), true) in BudgetCalls(nd, bs, answers)
            else
              Sends(b, Health) ==>
                HookCall(Health, b.GetNamespacedName(), HookBody(b, nd, Health), true) in BudgetCalls(nd, bs, answers)
  {
    hide Consulted;
    assert CheckFor(b, nd, answers).ok;
    var kind := if V2HooksReady(b) then Ready else Health;
    if Sends(b, kind) {
      var call := HookCall(kind, b.GetNamespacedName(), HookBody(b, nd, kind), true);
      assert call in CallsFor(b, nd, answers);
      CallInAllCalls(ConsultedBudgets(bs, nd), nd, answers, call);
    }
  }

  /** Without fixed specs the hooks can be skipped: a budget recorded Ok as a legacy one passes as a v2 one unasked. */
  lemma LegacyOkSkipsV2Hooks(b: Budget, nd: NodeDisruption, answers: Answers)
    requires V2HooksReady(b)
    requires Recorded(nd.status.budgets, b.GetNamespacedName()).ok
             && !Recorded(nd.status.budgets, b.GetNamespacedName()).preparing
    ensures CallsFor(b, nd, answers) == [] && CheckFor(b, nd, answers) == BudgetCheck(b.GetNamespacedName(), true, true)
  {
  }

  /**
    When a v2 check passes without asking: it found the budget recorded Ok and not preparing, which only a health
    check leaves.
   */
  lemma OkWithoutReadyExactly(b: Budget, nd: NodeDisruption, answers: Answers)
    requires V2HooksReady(b)
    ensures var recorded := Recorded(nd.status.budgets, b.GetNamespacedName());
            CheckFor(b, nd, answers).ok && (forall call | call in CallsFor(b, nd, answers) :: call.kind != Ready)
            <==> recorded.ok && !recorded.preparing
  {
    var ref := b.GetNamespacedName();
    if Recorded(nd.status.budgets, ref).preparing {
      assert HookCall(Ready, ref, HookBody(b, nd, Ready), answers(Ready, ref)) in CallsFor(b, nd, answers);
    }
  }

  /**
    So it is for a whole attempt: a grant leaves a consulted v2 budget unasked exactly when that was recorded before.
   */
  lemma GrantWithoutReadyExactly(cfg: Config, nd: NodeDisruption, c: Client, bs: seq<Budget>, answers: Answers,
                                 k: Clock, b: Budget)
    requires TryGrant(cfg, nd, c, Ok(bs), answers, k).Ok?
    requires TryGrant(cfg, nd, c, Ok(bs), answers, k).value.status.state == Granted
    requires DistinctRefs(bs) && b in bs && Consulted(b, nd) && V2HooksReady(b)
    ensures var ref := b.GetNamespacedName();
            var recorded := Recorded(nd.status.budgets, ref);
            (forall call | call in TryGrant(cfg, nd, c, Ok(bs), answers, k).value.calls :: call.ref == ref ==>
                call.kind != Ready)
            <==> recorded.ok && !recorded.preparing
  {
    hide TryGrant, InternalVerdict, Consulted, HookBody;
    var ref, cs := b.GetNamespacedName(), ConsultedBudgets(bs, nd);
    GrantMeansTolerated(cfg, nd, c, bs, answers, k);
    OutcomeOfBudgets(cfg, nd, c, bs, answers, k);
    OkWithoutReadyExactly(b, nd, answers);
    ConsultedRefs(bs, nd);
    forall call ensures call in AllCalls(cs, nd, answers) && call.ref == ref <==> call in CallsFor(b, nd, answers) {
      CallInAllCalls(cs, nd, answers, call);
      if call in AllCalls(cs, nd, answers) && call.ref == ref {
        var x :| x in cs && call in CallsFor(x, nd, answers);
        OneOfRef(cs, x, b);
      }
    }
  }

  lemma OneOfRef(cs: seq<Budget>, x: Budget, y: Budget)
    requires DistinctRefs(cs) && x in cs && y in cs && x.GetNamespacedName() == y.GetNamespacedName()
    ensures x == y
  {
    var i :| 0 <= i < |cs| && cs[i] == x;
    var j :| 0 <= j < |cs| && cs[j] == y;
  }

  lemma {:induction false} TerminateCallsInclude(statuses: seq<BudgetCheck>, nd: NodeDisruption, get: Getter,
      answers: Answers, s: BudgetCheck)
    requires s in statuses
    ensures forall call | call in TerminateCall(s, nd, get, answers) ::
              call in TerminateCalls(statuses, nd, get, answers)
  {
    var init, last := statuses[..|statuses| - 1], statuses[|statuses| - 1];
    assert statuses == init + [last];
    if s in init {
      TerminateCallsInclude(init, nd, get, answers, s);
    }
  }

  /** A pass that succeeds has had every budget that must terminate acknowledge it. */
  lemma TerminatedBudgetsAcknowledged(nd: NodeDisruption, get: Getter, answers: Answers, s: BudgetCheck)
    requires AllTerminated(nd.status.budgets, get, answers)
    requires s in nd.status.budgets && MustTerminate(s, get)
    ensures var b := get(s.ref).value.value;
            HookCall(Terminate, b.GetNamespacedName(), HookBody(b, nd, Terminate), true)
              in TerminateCalls(nd.status.budgets, nd, get, answers)
  {
    var b := get(s.ref).value.value;
    assert !TerminateFails(s, get, answers);
    TerminateCallsInclude(nd.status.budgets, nd, get, answers, s);
    assert HookCall(Terminate, b.GetNamespacedName(), HookBody(b, nd, Terminate), true)
        in TerminateCall(s, nd, get, answers);
  }

  lemma {:induction false} TerminateCallFrom(statuses: seq<BudgetCheck>, nd: NodeDisruption, get: Getter,
      answers: Answers, call: HookCall)
    requires call in TerminateCalls(statuses, nd, get, answers)
    ensures exists s | s in statuses :: call in TerminateCall(s, nd, get, answers)
  {
    var init, last := statuses[..|statuses| - 1], statuses[|statuses| - 1];
    assert statuses == init + [last];
    if call in TerminateCalls(init, nd, get, answers) {
      TerminateCallFrom(init, nd, get, answers, call);
    }
  }

  /**
    Who is told that a disruption ends: exactly the budgets recorded preparing that still exist with a v2 URL. One that
    prepared but lost its record (PreparingLostExactlyWhen) is not.
   */
  lemma TerminatedExactly(nd: NodeDisruption, get: Getter, answers: Answers, ref: Ref)
    requires forall r :: get(r).Ok? && get(r).value.Some? ==> get(r).value.value.GetNamespacedName() == r
    ensures (exists call | call in TerminateCalls(nd.status.budgets, nd, get, answers) :: call.ref == ref)
        <==> RecordedPreparing(nd.status.budgets, ref) && ref.kind == ADB_KIND
             && get(ref).Ok? && get(ref).value.Some? && V2HooksReady(get(ref).value.value)
  {
    if call :| call in TerminateCalls(nd.status.budgets, nd, get, answers) && call.ref == ref {
      TerminateCallFrom(nd.status.budgets, nd, get, answers, call);
      var s :| s in nd.status.budgets && call in TerminateCall(s, nd, get, answers);
      assert s.ref == ref && s.preparing;
    }
    if s :| s in nd.status.budgets && s.ref == ref && s.preparing && MustTerminate(s, get) {
      TerminateCallsInclude(nd.status.budgets, nd, get, answers, s);
      var b := get(ref).value.value;
      var call := HookCall(Terminate, ref, HookBody(b, nd, Terminate), answers(Terminate, ref));
      assert call in TerminateCall(s, nd, get, answers);
    }
  }

  /**
    Fail-closed: if any budget fails to sync, wherever it is listed, a pending disruption gets no outcome and no hook
    is called.
   */
  lemma SyncFailureStopsAttempt(cfg: Config, nd: NodeDisruption, c: Client, answers: Answers, k: Clock, b: Budget)
    requires nd.status.state == Pending && b in c.adbs + c.ndbs && SyncFails(c, b)
    ensures ReconcileOutcome(cfg, nd, c, answers, k).Err?
  {
  }

  /**
    When an attempt on a pending disruption gets no outcome: something it needs could not be read, or a budget did not
    sync.
   */
  lemma AttemptFailsExactly(cfg: Config, nd: NodeDisruption, c: Client, answers: Answers, k: Clock)
    requires nd.status.state == Pending
    ensures ReconcileOutcome(cfg, nd, c, answers, k).Err?
        <==> || NodesForNodeSelector(c, nd.spec.nodeSelector).Err?
             || ADBs in c.down || NDBs in c.down || (exists b | b in c.adbs + c.ndbs :: SyncFails(c, b))
             || (cfg.rejectOverlapping && NDs in c.down && !nd.spec.retry.IsAfterDeadline(k.internalCheck)
                 && !(cfg.rejectEmpty && NodesForNodeSelector(c, nd.spec.nodeSelector).value == {}))
  {
    hide BudgetVerdict, BudgetCalls, Conclude, SyncFails, Overlaps;
  }

  // ----- internal checks against their documentation -----

  /** At one moment two pending disruptions that share a node each fail because of the other, whichever is older. */
  lemma OverlapFailsBoth(cfg: Config, a: NodeDisruption, b: NodeDisruption, c: Client, k: Clock)
    requires cfg.rejectOverlapping && NDs !in c.down && a in c.nds && b in c.nds && a.name != b.name
    requires a.status.state == Pending && b.status.state == Pending
    requires Elements(a.status.nodes) * Elements(b.status.nodes) != {}
    ensures InternalVerdict(cfg, a, c, k).Ok? && InternalVerdict(cfg, a, c, k).value.failed
    ensures InternalVerdict(cfg, b, c, k).Ok? && InternalVerdict(cfg, b, c, k).value.failed
  {
    assert OverlapsOther(a, b) && OverlapsOther(b, a);
  }

  /**
    The overlap check replaces the type check: a type that is not allowed is turned away exactly when overlaps are
    not.
   */
  lemma TypeCheckedExactlyWithoutOverlap(cfg: Config, nd: NodeDisruption, c: Client, k: Clock)
    requires cfg.types != [] && nd.spec.ndType !in cfg.types
    requires NDs !in c.down && !Overlaps(nd, c.nds)
    requires !nd.spec.retry.IsAfterDeadline(k.internalCheck) && !(cfg.rejectEmpty && Elements(nd.status.nodes) == {})
    ensures InternalVerdict(cfg, nd, c, k).value.failed <==> !cfg.rejectOverlapping
  {
  }

  /** One lost claim among those an application budget watches is enough to fail its Sync. */
  lemma LostClaimFailsSync(c: Client, b: Budget, p: PVC)
    requires b.ADB? && p in c.topology.pvcs && PVCSelected(p, b.pvcSelector, b.ns)
    requires p.phase == ClaimLost || p.phase == ClaimOther
    requires !Labels.EmptySelector(b.pvcSelector)
    ensures SyncFails(c, b)
  {
    assert UnsafeClaim(c, p);
  }

  /** An attempt records no other nodes than it was given and always leaves Unknown. */
  lemma OutcomeShape(cfg: Config, nd: NodeDisruption, c: Client, bs: seq<Budget>, answers: Answers, k: Clock)
    requires TryGrant(cfg, nd, c, Ok(bs), answers, k).Ok?
    ensures var status := TryGrant(cfg, nd, c, Ok(bs), answers, k).value.status;
            status.nodes == nd.status.nodes && status.state != Unknown
  {
    hide BudgetVerdict, BudgetCalls;
  }

  /** When the internal checks pass, the outcome is that of the budgets. */
  lemma OutcomeOfBudgets(cfg: Config, nd: NodeDisruption, c: Client, bs: seq<Budget>, answers: Answers, k: Clock)
    requires InternalVerdict(cfg, nd, c, k).Ok? && !InternalVerdict(cfg, nd, c, k).value.failed
    ensures var outcome := TryGrant(cfg, nd, c, Ok(bs), answers, k);
            && outcome.Ok? && outcome.value.calls == BudgetCalls(nd, bs, answers)
            && outcome.value.status.budgets == BudgetVerdict(nd, bs, answers).statuses
  {
    hide InternalVerdict, BudgetVerdict, BudgetCalls;
  }

  /** A grant means every internal check passed and nobody refused. */
  lemma GrantMeansTolerated(cfg: Config, nd: NodeDisruption, c: Client, bs: seq<Budget>, answers: Answers, k: Clock)
    requires TryGrant(cfg, nd, c, Ok(bs), answers, k).Ok?
    requires TryGrant(cfg, nd, c, Ok(bs), answers, k).value.status.state == Granted
    ensures !AnyRefusal(bs, nd) && !AnyUnready(ConsultedBudgets(bs, nd), nd, answers)
    ensures InternalVerdict(cfg, nd, c, k).Ok? && !InternalVerdict(cfg, nd, c, k).value.failed
  {
    hide InternalVerdict, AnyUnready, AnyRefusal;
  }

  /** No grant after the deadline was seen to pass, nor before DoNotGrantBefore. */
  lemma GrantDates(cfg: Config, nd: NodeDisruption, c: Client, bs: seq<Budget>, answers: Answers, k: Clock)
    requires TryGrant(cfg, nd, c, Ok(bs), answers, k).Ok?
    requires TryGrant(cfg, nd, c, Ok(bs), answers, k).value.status.state == Granted
    ensures !nd.spec.retry.IsAfterDeadline(k.internalCheck) && !Before(k.grantCheck, nd.spec.doNotGrantBefore)
  {
  }
}
