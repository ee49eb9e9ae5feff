/**
  What one attempt decides, calls and leaves, and whom a terminate pass tells, stated on the fields of the objects read
  and on nothing the code computes from them.
 */
module Outcomes {
  import opened Types
  import opened Syncs
  import opened Sorting
  import opened Resolver
  import opened BudgetSpec
  import opened Admission

  // ----- in terms of fields -----

  predicate PastDeadline(spec: NDSpec, now: int) {
    spec.retry.enabled && spec.retry.deadline.At? && spec.retry.deadline.t < now
  }

  ghost predicate ShareNode(l: seq<string>, m: seq<string>) {
    exists n :: n in l && n in m
  }

  /** The disruption is of a type the budget supports and covers one of its nodes. */
  ghost predicate Concerned(b: Budget, nd: NodeDisruption) {
    nd.spec.ndType in b.types && ShareNode(b.status.watched, nd.status.nodes)
  }

  /** The budget has no room: for one more disruption, or for the nodes it would lose. */
  ghost predicate Blocks(b: Budget, nd: NodeDisruption) {
    && Concerned(b, nd)
    && b.status.allowed < if b.ADB? then 1 else |set n | n in b.status.watched && n in nd.status.nodes|
  }

  /** Entry i is the first one about `ref`. */
  ghost predicate FirstAbout(statuses: seq<BudgetCheck>, ref: Ref, i: int) {
    0 <= i < |statuses| && statuses[i].ref == ref && forall j | 0 <= j < i :: statuses[j].ref != ref
  }

  ghost predicate FoundPreparing(b: Budget, nd: NodeDisruption) {
    exists i :: FirstAbout(nd.status.budgets, b.GetNamespacedName(), i) && nd.status.budgets[i].preparing
  }

  ghost predicate FoundOk(b: Budget, nd: NodeDisruption) {
    exists i :: FirstAbout(nd.status.budgets, b.GetNamespacedName(), i) && nd.status.budgets[i].ok
  }

  predicate HasV2(b: Budget) {
    b.ADB? && b.hookURL != ""
  }

  /** The application lets the disruption go ahead now. */
  ghost predicate Clears(b: Budget, nd: NodeDisruption, answers: Answers) {
    if HasV2(b) then
      (FoundPreparing(b, nd) && answers(Ready, b.GetNamespacedName())) || (FoundOk(b, nd) && !FoundPreparing(b, nd))
    else
      b.ADB? && b.healthURL != "" ==> answers(Health, b.GetNamespacedName())
  }

  /** The application has started to prepare, now or before. */
  ghost predicate Started(b: Budget, nd: NodeDisruption, answers: Answers) {
    HasV2(b) && (FoundPreparing(b, nd) || FoundOk(b, nd) || answers(Prepare, b.GetNamespacedName()))
  }

  /** The one hook an attempt calls, if any. */
  ghost predicate Needs(b: Budget, nd: NodeDisruption, kind: HookKind) {
    match kind
    case Prepare => HasV2(b) && !FoundPreparing(b, nd) && !FoundOk(b, nd)
    case Ready => HasV2(b) && FoundPreparing(b, nd)
    case Health => b.ADB? && b.hookURL == "" && b.healthURL != ""
    case Terminate => false
  }

  ghost predicate InTheWay(nd: NodeDisruption, other: NodeDisruption) {
    && other.name != nd.name && (other.status.state == Pending || other.status.state == Granted)
    && ShareNode(other.status.nodes, nd.status.nodes)
  }

  /** The controller itself turns the disruption down. */
  ghost predicate TurnedAway(cfg: Config, nd: NodeDisruption, nds: seq<NodeDisruption>, k: Clock) {
    || PastDeadline(nd.spec, k.internalCheck)
    || (cfg.rejectEmpty && nd.status.nodes == [])
    || (cfg.rejectOverlapping && exists other :: other in nds && InTheWay(nd, other))
    || (!cfg.rejectOverlapping && cfg.types != [] && nd.spec.ndType !in cfg.types)
  }

  ghost predicate Blocked(nd: NodeDisruption, bs: seq<Budget>) {
    exists b :: b in bs && Blocks(b, nd)
  }

  ghost predicate HeldUp(nd: NodeDisruption, bs: seq<Budget>, answers: Answers) {
    exists b :: b in bs && Concerned(b, nd) && !Clears(b, nd, answers)
  }

  ghost predicate Fails(cfg: Config, nd: NodeDisruption, nds: seq<NodeDisruption>, bs: seq<Budget>, answers: Answers,
      k: Clock) {
    TurnedAway(cfg, nd, nds, k) || Blocked(nd, bs) || HeldUp(nd, bs, answers)
  }

  // ----- the same thing -----

  lemma {:induction false} RecordedIs(statuses: seq<BudgetCheck>, ref: Ref)
    ensures forall i | FirstAbout(statuses, ref, i) :: Recorded(statuses, ref) == statuses[i]
    ensures (forall s | s in statuses :: s.ref != ref) ==> Recorded(statuses, ref) == NO_CHECK
    ensures (exists s | s in statuses :: s.ref == ref) ==> exists i :: FirstAbout(statuses, ref, i)
  {
    if statuses != [] {
      var rest := statuses[1..];
      RecordedIs(rest, ref);
      assert statuses == [statuses[0]] + rest;
      if statuses[0].ref == ref {
        assert FirstAbout(statuses, ref, 0);
      } else {
        forall i | FirstAbout(statuses, ref, i) ensures Recorded(statuses, ref) == statuses[i] {
          assert FirstAbout(rest, ref, i - 1) by {
            forall j | 0 <= j < i - 1 ensures rest[j].ref != ref {
              assert rest[j] == statuses[j + 1];
            }
          }
        }
        if i :| FirstAbout(rest, ref, i) {
          assert FirstAbout(statuses, ref, i + 1);
        }
      }
    }
  }

  lemma FoundIs(b: Budget, nd: NodeDisruption)
    ensures FoundPreparing(b, nd) <==> Recorded(nd.status.budgets, b.GetNamespacedName()).preparing
    ensures FoundOk(b, nd) <==> Recorded(nd.status.budgets, b.GetNamespacedName()).ok
  {
    var statuses, ref := nd.status.budgets, b.GetNamespacedName();
    RecordedIs(statuses, ref);
    if i :| FirstAbout(statuses, ref, i) {
      forall j | FirstAbout(statuses, ref, j) ensures j == i {
      }
    }
  }

  lemma ConcernedIs(b: Budget, nd: NodeDisruption)
    ensures Concerned(b, nd) <==> Consulted(b, nd)
    ensures Blocks(b, nd) <==> Refuses(b, nd)
  {
    var common := (set x | x in b.status.watched) * Elements(nd.status.nodes);
    assert common == set n | n in b.status.watched && n in nd.status.nodes;
    if n :| n in b.status.watched && n in nd.status.nodes {
      assert n in common;
    }
    if n :| n in common {
      assert n in b.status.watched && n in nd.status.nodes;
    }
  }

  /** The status one check leaves, and the one call it makes. */
  lemma CheckExactly(b: Budget, nd: NodeDisruption, answers: Answers)
    ensures CheckFor(b, nd, answers)
            == BudgetCheck(b.GetNamespacedName(), Started(b, nd, answers), Clears(b, nd, answers))
    ensures |CallsFor(b, nd, answers)| <= 1
    ensures forall call :: call in CallsFor(b, nd, answers) <==> IsCall(b, nd, answers, call)
  {
    hide FoundPreparing, FoundOk, NamesNodes, HookBody;
    FoundIs(b, nd);
    forall call ensures call in CallsFor(b, nd, answers) <==> IsCall(b, nd, answers, call) {
      BodyUnique(b, nd, call);
    }
  }

  /** A hook names the nodes of the disruption; v2 hooks only those of them the budget watches, in order. */
  ghost predicate NamesNodes(b: Budget, nd: NodeDisruption, call: HookCall) {
    if call.kind == Health then call.nodes == nd.status.nodes
    else StrictlySorted(call.nodes) && forall n :: n in call.nodes <==> n in b.status.watched && n in nd.status.nodes
  }

  ghost predicate IsCall(b: Budget, nd: NodeDisruption, answers: Answers, call: HookCall) {
    && Needs(b, nd, call.kind) && call.ref == b.GetNamespacedName() && call.ok == answers(call.kind, call.ref)
    && NamesNodes(b, nd, call)
  }

  lemma BodyUnique(b: Budget, nd: NodeDisruption, call: HookCall)
    ensures NamesNodes(b, nd, call) <==> call.nodes == HookBody(b, nd, call.kind)
  {
    if call.kind != Health {
      var common := Elements(b.status.watched) * Elements(nd.status.nodes);
      var body := SortedList(common);
      forall n ensures n in body <==> n in b.status.watched && n in nd.status.nodes {
        assert n in body <==> n in Elements(body);
      }
      if NamesNodes(b, nd, call) {
        assert Elements(call.nodes) == common;
        SortedUnique(call.nodes, body);
      }
    }
  }

  // ----- the verdicts -----

  /** The controller's own checks: when they cannot be made, when they fail, and what they leave. */
  lemma InternalExactly(cfg: Config, nd: NodeDisruption, c: Client, k: Clock)
    ensures InternalVerdict(cfg, nd, c, k).Err?
        <==> && NDs in c.down && cfg.rejectOverlapping && !PastDeadline(nd.spec, k.internalCheck)
             && !(cfg.rejectEmpty && nd.status.nodes == [])
    ensures InternalVerdict(cfg, nd, c, k).Ok? ==>
              var verdict, own := InternalVerdict(cfg, nd, c, k).value,
                  BudgetCheck(Ref("", nd.name, ND_KIND), false, false);
              && (verdict.failed <==> TurnedAway(cfg, nd, c.nds, k))
              && (verdict.failed ==>
                    verdict.statuses
                    == (if PastDeadline(nd.spec, k.internalCheck) then nd.status.budgets else []) + [own])
  {
    assert nd.status.nodes != [] ==> nd.status.nodes[0] in Elements(nd.status.nodes);
    assert nd.status.nodes == [] ==> Elements(nd.status.nodes) == {};
    forall other ensures InTheWay(nd, other) <==> OverlapsOther(nd, other) {
      OverlapIs(nd, other);
    }
    if TurnedAway(cfg, nd, c.nds, k) && cfg.rejectOverlapping && exists other :: other in c.nds && InTheWay(nd, other) {
      var other :| other in c.nds && InTheWay(nd, other);
      assert Overlaps(nd, c.nds);
    }
    assert [] + [OwnFailure(nd)] == [OwnFailure(nd)];
  }

  lemma OverlapIs(nd: NodeDisruption, other: NodeDisruption)
    ensures InTheWay(nd, other) <==> OverlapsOther(nd, other)
  {
    var common := Elements(other.status.nodes) * Elements(nd.status.nodes);
    if n :| n in other.status.nodes && n in nd.status.nodes {
      assert n in common;
    }
    if n :| n in common {
      assert n in other.status.nodes && n in nd.status.nodes;
    }
  }

  /** The budgets' checks fail exactly when one of them blocks, or, nobody blocking, an application does not clear. */
  lemma VerdictExactly(nd: NodeDisruption, bs: seq<Budget>, answers: Answers)
    ensures BudgetVerdict(nd, bs, answers).failed <==> Blocked(nd, bs) || HeldUp(nd, bs, answers)
  {
    hide Blocks, Refuses, Concerned, Consulted, Clears, CheckFor;
    BlockedIs(nd, bs);
    forall b ensures CheckFor(b, nd, answers).ok == Clears(b, nd, answers) && Concerned(b, nd) == Consulted(b, nd) {
      CheckExactly(b, nd, answers);
      ConcernedIs(b, nd);
    }
  }

  lemma BlockedIs(nd: NodeDisruption, bs: seq<Budget>)
    ensures Blocked(nd, bs) <==> AnyRefusal(bs, nd)
  {
    hide Blocks, Refuses, Concerned, Consulted;
    forall b ensures Blocks(b, nd) == Refuses(b, nd) {
      ConcernedIs(b, nd);
    }
  }

  /** A budget that blocks is named alone, the first one listed, and nobody is called. */
  lemma {:induction false} BlockedExactly(nd: NodeDisruption, bs: seq<Budget>, answers: Answers) returns (i: nat)
    requires Blocked(nd, bs)
    ensures i < |bs| && Blocks(bs[i], nd) && forall j | 0 <= j < i :: !Blocks(bs[j], nd)
    ensures BudgetVerdict(nd, bs, answers).statuses == [BudgetCheck(bs[i].GetNamespacedName(), false, false)]
    ensures BudgetCalls(nd, bs, answers) == []
  {
    hide Blocks, Refuses, BudgetVerdict;
    BlockedIs(nd, bs);
    i := FirstBlocking(nd, bs);
    assert BudgetVerdict(nd, bs, answers).statuses == [BudgetCheck(bs[i].GetNamespacedName(), false, false)] by {
      BudgetVerdictBlocked(nd, bs, answers);
    }
  }

  lemma BudgetVerdictBlocked(nd: NodeDisruption, bs: seq<Budget>, answers: Answers)
    requires AnyRefusal(bs, nd)
    ensures BudgetVerdict(nd, bs, answers).statuses
         == [BudgetCheck(FirstRefusal(bs, nd).GetNamespacedName(), false, false)]
  {
    hide Refuses;
  }

  lemma {:induction false} FirstBlocking(nd: NodeDisruption, bs: seq<Budget>) returns (i: nat)
    requires AnyRefusal(bs, nd)
    ensures i < |bs| && bs[i] == FirstRefusal(bs, nd) && Blocks(bs[i], nd) && forall j | 0 <= j < i ::
              !Blocks(bs[j], nd)
  {
    hide Blocks, Refuses;
    ConcernedIs(bs[0], nd);
    if Refuses(bs[0], nd) {
      i := 0;
    } else {
      var rest := FirstBlocking(nd, bs[1..]);
      i := rest + 1;
      forall j | 0 <= j < i ensures !Blocks(bs[j], nd) {
        if j > 0 {
          assert bs[j] == bs[1..][j - 1];
        }
      }
    }
  }

  /** The positions of the budgets the disruption concerns, in order. */
  ghost predicate Picks(at: seq<nat>, nd: NodeDisruption, bs: seq<Budget>) {
    && (forall j | 0 <= j < |at| :: at[j] < |bs| && Concerned(bs[at[j]], nd))
    && (forall j, l | 0 <= j < l < |at| :: at[j] < at[l])
    && (forall i | 0 <= i < |bs| && Concerned(bs[i], nd) :: i in at)
  }

  lemma PicksMore(at: seq<nat>, nd: NodeDisruption, init: seq<Budget>, last: Budget)
    requires Picks(at, nd, init)
    ensures Picks(at + if Concerned(last, nd) then [|init|] else [], nd, init + [last])
  {
    hide Concerned;
    var more, bs := at + if Concerned(last, nd) then [|init|] else [], init + [last];
    forall i | 0 <= i < |bs| && Concerned(bs[i], nd) ensures i in more {
      if i < |init| {
        assert init[i] == bs[i] && i in at;
      } else {
        assert more[|at|] == i;
      }
    }
  }

  lemma {:induction false} ConcernedPositions(nd: NodeDisruption, bs: seq<Budget>) returns (at: seq<nat>)
    ensures Picks(at, nd, bs)
    ensures |ConsultedBudgets(bs, nd)| == |at| && forall j | 0 <= j < |at| :: ConsultedBudgets(bs, nd)[j] == bs[at[j]]
  {
    hide Concerned, Consulted;
    at := [];
    if bs != [] {
      var n := |bs| - 1;
      var init, last := bs[..n], bs[n];
      assert bs == init + [last];
      at := ConcernedPositions(nd, init);
      ConcernedIs(last, nd);
      PicksMore(at, nd, init, last);
      at := at + if Concerned(last, nd) then [n] else [];
    }
  }

  /** Nobody blocking, there is one status for each budget concerned, in order. */
  lemma {:induction false} StatusesExactly(nd: NodeDisruption, bs: seq<Budget>, answers: Answers)
    returns (at: seq<nat>)
    requires !Blocked(nd, bs)
    ensures Picks(at, nd, bs)
    ensures var statuses := BudgetVerdict(nd, bs, answers).statuses;
            && |statuses| == |at|
            && forall j | 0 <= j < |at| ::
                 statuses[j] == BudgetCheck(bs[at[j]].GetNamespacedName(), Started(bs[at[j]], nd, answers),
                                            Clears(bs[at[j]], nd, answers))
  {
    hide Concerned, Consulted, Clears, Started, CheckFor, Refuses, Blocks;
    BlockedIs(nd, bs);
    at := ConcernedPositions(nd, bs);
    forall j | 0 <= j < |at|
      ensures CheckFor(bs[at[j]], nd, answers)
           == BudgetCheck(bs[at[j]].GetNamespacedName(), Started(bs[at[j]], nd, answers),
                          Clears(bs[at[j]], nd, answers))
    {
      CheckExactly(bs[at[j]], nd, answers);
    }
  }

  /** `calls` are those of the budgets at these positions, in order: all that are concerned and have a hook to call. */
  ghost predicate CallsAt(at: seq<nat>, nd: NodeDisruption, bs: seq<Budget>, answers: Answers, calls: seq<HookCall>) {
    && |at| == |calls|
    && (forall j, l | 0 <= j < l < |at| :: at[j] < at[l])
    && (forall j | 0 <= j < |at| ::
          at[j] < |bs| && Concerned(bs[at[j]], nd) && IsCall(bs[at[j]], nd, answers, calls[j]))
    && (forall i, kind | 0 <= i < |bs| && Concerned(bs[i], nd) && Needs(bs[i], nd, kind) :: i in at)
  }

  lemma CallsAtMore(at: seq<nat>, nd: NodeDisruption, init: seq<Budget>, last: Budget, answers: Answers,
      calls: seq<HookCall>, call: HookCall)
    requires CallsAt(at, nd, init, answers, calls)
    ensures (Concerned(last, nd) ==> forall kind :: !Needs(last, nd, kind)) ==>
              CallsAt(at, nd, init + [last], answers, calls)
    ensures Concerned(last, nd) && IsCall(last, nd, answers, call) ==>
              CallsAt(at + [|init|], nd, init + [last], answers, calls + [call])
  {
    hide Concerned, IsCall, Needs;
    var bs, more := init + [last], at + [|init|];
    forall i, kind | 0 <= i < |init| && Concerned(bs[i], nd) && Needs(bs[i], nd, kind) ensures i in at && i in more {
      assert init[i] == bs[i];
    }
    assert more[|at|] == |init|;
  }

  /** Nobody blocking, there is one call at most for each budget concerned, in order. */
  lemma {:induction false} CallsExactly(nd: NodeDisruption, bs: seq<Budget>, answers: Answers) returns (at: seq<nat>)
    requires !Blocked(nd, bs)
    ensures CallsAt(at, nd, bs, answers, BudgetCalls(nd, bs, answers))
  {
    BlockedIs(nd, bs);
    at := CallPositions(nd, bs, answers);
  }

  lemma {:induction false} CallPositions(nd: NodeDisruption, bs: seq<Budget>, answers: Answers) returns (at: seq<nat>)
    ensures CallsAt(at, nd, bs, answers, AllCalls(ConsultedBudgets(bs, nd), nd, answers))
  {
    hide Concerned, Consulted, CallsFor, CallsAt;
    if bs == [] {
      at := [];
      NothingCalled(nd, answers);
    } else {
      var n := |bs| - 1;
      var init, last := bs[..n], bs[n];
      assert bs == init + [last];
      at := CallPositions(nd, init, answers);
      var cs, calls := ConsultedBudgets(init, nd), AllCalls(ConsultedBudgets(init, nd), nd, answers);
      ConcernedIs(last, nd);
      CheckExactly(last, nd, answers);
      var own := CallsFor(last, nd, answers);
      if own == [] {
        forall kind ensures !Needs(last, nd, kind) {
          NobodyNeeded(last, nd, answers, kind);
        }
        CallsAtMore(at, nd, init, last, answers, calls, HookCall(Health, last.GetNamespacedName(), [], true));
      } else {
        assert own == [own[0]] && own[0] in own;
        CallsAtMore(at, nd, init, last, answers, calls, own[0]);
      }
      CallsOfMore(cs, last, nd, answers);
      if Concerned(last, nd) && own != [] {
        at := at + [n];
      } else {
        assert cs + [] == cs && calls + [] == calls;
      }
    }
  }

  lemma NothingCalled(nd: NodeDisruption, answers: Answers)
    ensures CallsAt([], nd, [], answers, AllCalls(ConsultedBudgets([], nd), nd, answers))
  {
  }

  lemma CallsOfMore(cs: seq<Budget>, last: Budget, nd: NodeDisruption, answers: Answers)
    ensures AllCalls(cs + [last], nd, answers) == AllCalls(cs, nd, answers) + CallsFor(last, nd, answers)
  {
    assert (cs + [last])[..|cs|] == cs;
  }

  lemma NobodyNeeded(b: Budget, nd: NodeDisruption, answers: Answers, kind: HookKind)
    requires CallsFor(b, nd, answers) == []
    ensures !Needs(b, nd, kind)
  {
    if Needs(b, nd, kind) {
      NeededIsCalled(b, nd, answers, kind);
    }
  }

  lemma NeededIsCalled(b: Budget, nd: NodeDisruption, answers: Answers, kind: HookKind)
    requires Needs(b, nd, kind)
    ensures CallsFor(b, nd, answers) != []
  {
    var call := HookCall(kind, b.GetNamespacedName(), HookBody(b, nd, kind), answers(kind, b.GetNamespacedName()));
    BodyUnique(b, nd, call);
    CheckExactly(b, nd, answers);
    assert IsCall(b, nd, answers, call);
  }

  // ----- the state -----

  /**
    The state an attempt ends in, given whether something failed and whether some application has started to prepare.
   */
  ghost predicate EndsIn(nd: NodeDisruption, k: Clock, failed: bool, preparing: bool, state: NDState) {
    state == if !failed then
               if nd.spec.doNotGrantBefore.At? && k.grantCheck < nd.spec.doNotGrantBefore.t then Pending else Granted
             else if nd.spec.retry.enabled && !PastDeadline(nd.spec, k.retryCheck) then Pending
             else if preparing && !PastDeadline(nd.spec, k.finalCheck) then Pending
             else Rejected
  }

  /** Some application concerned has started to prepare, and nothing before its turn failed. */
  ghost predicate StillPreparing(cfg: Config, nd: NodeDisruption, nds: seq<NodeDisruption>, bs: seq<Budget>,
      answers: Answers, k: Clock) {
    && !TurnedAway(cfg, nd, nds, k) && !Blocked(nd, bs)
    && exists b :: b in bs && Concerned(b, nd) && Started(b, nd, answers)
  }

  ghost predicate LeavesPreparing(statuses: seq<BudgetCheck>) {
    exists s :: s in statuses && s.preparing
  }

  /** A whole attempt: its state, its dates, and where its statuses and calls come from. */
  lemma AttemptExactly(cfg: Config, nd: NodeDisruption, c: Client, bs: seq<Budget>, answers: Answers, k: Clock)
    requires TryGrant(cfg, nd, c, Ok(bs), answers, k).Ok?
    ensures var Outcome(status, calls) := TryGrant(cfg, nd, c, Ok(bs), answers, k).value;
            var failed := Fails(cfg, nd, c.nds, bs, answers, k);
            && EndsIn(nd, k, failed, LeavesPreparing(status.budgets), status.state)
            && status.nodes == nd.status.nodes
            && status.nextRetry == (if !failed && status.state == Pending then nd.spec.doNotGrantBefore
                                    else if nd.spec.retry.enabled && !PastDeadline(nd.spec, k.retryCheck)
                                         then At(k.retryBase + cfg.retryInterval)
                                    else ZeroTime)
            && (if TurnedAway(cfg, nd, c.nds, k)
                then status.budgets == InternalVerdict(cfg, nd, c, k).value.statuses && calls == []
                else status.budgets == BudgetVerdict(nd, bs, answers).statuses && calls == BudgetCalls(nd, bs, answers))
  {
    hide InternalVerdict, BudgetVerdict, BudgetCalls, TurnedAway, Blocked, HeldUp;
    InternalExactly(cfg, nd, c, k);
    VerdictExactly(nd, bs, answers);
  }

  lemma PreparingExactly(cfg: Config, nd: NodeDisruption, c: Client, bs: seq<Budget>, answers: Answers, k: Clock)
    requires TryGrant(cfg, nd, c, Ok(bs), answers, k).Ok? && !PastDeadline(nd.spec, k.internalCheck)
    ensures LeavesPreparing(TryGrant(cfg, nd, c, Ok(bs), answers, k).value.status.budgets)
        <==> StillPreparing(cfg, nd, c.nds, bs, answers, k)
  {
    hide Conclude, InternalVerdict, BudgetVerdict, BudgetCalls, TurnedAway, Blocked, HeldUp, Concerned, Started, Clears;
    AttemptExactly(cfg, nd, c, bs, answers, k);
    InternalExactly(cfg, nd, c, k);
    var statuses := TryGrant(cfg, nd, c, Ok(bs), answers, k).value.status.budgets;
    if TurnedAway(cfg, nd, c.nds, k) {
      InternalLeavesNothing(cfg, nd, c, k);
    } else if Blocked(nd, bs) {
      var i := BlockedExactly(nd, bs, answers);
    } else {
      var at := StatusesExactly(nd, bs, answers);
      if s :| s in statuses && s.preparing {
        var j :| 0 <= j < |statuses| && statuses[j] == s;
        assert bs[at[j]] in bs;
      }
      if b :| b in bs && Concerned(b, nd) && Started(b, nd, answers) {
        var i :| 0 <= i < |bs| && bs[i] == b;
        var j :| 0 <= j < |at| && at[j] == i;
        assert statuses[j] in statuses;
      }
    }
  }

  lemma InternalLeavesNothing(cfg: Config, nd: NodeDisruption, c: Client, k: Clock)
    requires InternalVerdict(cfg, nd, c, k).Ok? && TurnedAway(cfg, nd, c.nds, k)
             && !PastDeadline(nd.spec, k.internalCheck)
    ensures !LeavesPreparing(InternalVerdict(cfg, nd, c, k).value.statuses)
  {
    hide InternalVerdict, TurnedAway;
    InternalExactly(cfg, nd, c, k);
    assert [] + [BudgetCheck(Ref("", nd.name, ND_KIND), false, false)]
           == [BudgetCheck(Ref("", nd.name, ND_KIND), false, false)];
  }

  /** The state of an attempt, from its inputs alone. */
  lemma StateExactly(cfg: Config, nd: NodeDisruption, c: Client, bs: seq<Budget>, answers: Answers, k: Clock)
    requires TryGrant(cfg, nd, c, Ok(bs), answers, k).Ok? && k.Monotone()
    ensures EndsIn(nd, k, Fails(cfg, nd, c.nds, bs, answers, k), StillPreparing(cfg, nd, c.nds, bs, answers, k),
                   TryGrant(cfg, nd, c, Ok(bs), answers, k).value.status.state)
  {
    hide TryGrant, InternalVerdict, Fails, StillPreparing, LeavesPreparing;
    AttemptExactly(cfg, nd, c, bs, answers, k);
    if !PastDeadline(nd.spec, k.internalCheck) {
      PreparingExactly(cfg, nd, c, bs, answers, k);
    }
  }

  // ----- the terminate pass -----

  /** The application is to be told that the disruption ends. */
  predicate ToTell(s: BudgetCheck, get: Getter) {
    && s.preparing && s.ref.kind == ADB_KIND
    && get(s.ref).Ok? && get(s.ref).value.Some? && HasV2(get(s.ref).value.value)
  }

  /** What may keep the finalizer: a budget that cannot be read, or one that does not acknowledge. */
  predicate KeepsIt(s: BudgetCheck, get: Getter, answers: Answers) {
    s.preparing && s.ref.kind == ADB_KIND &&
    (get(s.ref).Err? || (ToTell(s, get) && !answers(Terminate, get(s.ref).value.value.GetNamespacedName())))
  }

  ghost predicate IsTerminate(b: Budget, nd: NodeDisruption, answers: Answers, call: HookCall) {
    && call.kind == Terminate && call.ref == b.GetNamespacedName() && call.ok == answers(Terminate, call.ref)
    && NamesNodes(b, nd, call)
  }

  lemma PassSucceedsExactly(nd: NodeDisruption, get: Getter, answers: Answers)
    ensures AllTerminated(nd.status.budgets, get, answers)
        <==> forall s | s in nd.status.budgets :: !KeepsIt(s, get, answers)
  {
    forall s ensures TerminateFails(s, get, answers) <==> KeepsIt(s, get, answers) {
    }
  }

  /** One call for each recorded status that is to be told, in order, whatever the others answer. */
  lemma {:induction false} TerminateExactly(statuses: seq<BudgetCheck>, nd: NodeDisruption, get: Getter,
                                            answers: Answers)
    returns (at: seq<nat>)
    ensures var calls := TerminateCalls(statuses, nd, get, answers);
            && |at| == |calls|
            && (forall j, l | 0 <= j < l < |at| :: at[j] < at[l])
            && (forall i | 0 <= i < |statuses| && ToTell(statuses[i], get) :: i in at)
            && (forall j | 0 <= j < |at| ::
                  && at[j] < |statuses| && ToTell(statuses[at[j]], get)
                  && IsTerminate(get(statuses[at[j]].ref).value.value, nd, answers, calls[j]))
  {
    hide IsTerminate, ToTell, TerminateCall;
    at := [];
    if statuses != [] {
      var n := |statuses| - 1;
      var rest := TerminateExactly(statuses[..n], nd, get, answers);
      TerminateCallExactly(statuses[n], nd, get, answers);
      at := rest + if ToTell(statuses[n], get) then [n] else [];
      forall i | 0 <= i < |statuses| && ToTell(statuses[i], get) ensures i in at {
        if i < n {
          assert statuses[..n][i] == statuses[i] && i in rest;
        }
      }
    }
  }

  lemma TerminateCallExactly(s: BudgetCheck, nd: NodeDisruption, get: Getter, answers: Answers)
    ensures var calls := TerminateCall(s, nd, get, answers);
            if ToTell(s, get) then |calls| == 1 && IsTerminate(get(s.ref).value.value, nd, answers, calls[0])
            else calls == []
  {
    if ToTell(s, get) {
      BodyUnique(get(s.ref).value.value, nd, TerminateCall(s, nd, get, answers)[0]);
    }
  }

  // ----- the whole reconcile -----

  /** A reconcile always records the nodes the selector matches now; of a final disruption it changes nothing else. */
  lemma ReconcileRecordsNodes(cfg: Config, nd: NodeDisruption, c: Client, answers: Answers, k: Clock)
    requires ReconcileOutcome(cfg, nd, c, answers, k).Ok?
    ensures var Outcome(status, calls) := ReconcileOutcome(cfg, nd, c, answers, k).value;
            && StrictlySorted(status.nodes)
            && (forall n :: n in status.nodes <==> Named(c, nd.spec.nodeSelector, n))
            && (nd.status.state != Pending ==>
                  && calls == []
                  && status == NDStatus(if nd.status.state == Unknown then Pending else nd.status.state,
                                        nd.status.budgets, status.nodes, nd.status.nextRetry))
  {
    hide InternalVerdict, BudgetVerdict, BudgetCalls, AllBudgetsInSync, Named, NodesForNodeSelector;
    SelectionExactly(c, nd.spec.nodeSelector);
    var nodes := NodesForNodeSelector(c, nd.spec.nodeSelector).value;
    var list := SortedList(nodes);
    forall n ensures n in list <==> n in nodes {
      assert n in list <==> n in Elements(list);
    }
  }

  /** And of a pending one it decides on these nodes, on all budgets brought up to date, and on what is listed. */
  lemma ReconcileDecides(cfg: Config, nd: NodeDisruption, c: Client, answers: Answers, k: Clock)
    requires nd.status.state == Pending && ReconcileOutcome(cfg, nd, c, answers, k).Ok? && k.Monotone()
    ensures AllBudgetsInSync(c).Ok?
    ensures var status := ReconcileOutcome(cfg, nd, c, answers, k).value.status;
            var nd', bs := nd.(status := nd.status.(nodes := status.nodes)), AllBudgetsInSync(c).value;
            EndsIn(nd', k, Fails(cfg, nd', c.nds, bs, answers, k), StillPreparing(cfg, nd', c.nds, bs, answers, k),
                   status.state)
  {
    hide Conclude, InternalVerdict, BudgetVerdict, BudgetCalls, AllBudgetsInSync, NodesForNodeSelector, Fails,
         StillPreparing, EndsIn;
    var nd', bs := WithNodes(nd, NodesForNodeSelector(c, nd.spec.nodeSelector).value), AllBudgetsInSync(c).value;
    AttemptExactly(cfg, nd', c, bs, answers, k);
    StateExactly(cfg, nd', c, bs, answers, k);
  }
}
