/**
  The Budget interface and its two resolvers (budget.go and the two budget controllers of internal/controller) as one
  class; the dynamic dispatch of the interface is a match on the budget object it holds.
 */
module BudgetController {
  import opened Types
  import opened Sorting
  import opened Resolver
  import opened Rounding
  import Spec = BudgetSpec

  class BudgetResolver {
    const client: Client
    var budget: Budget

    constructor (client: Client, budget: Budget)
      ensures this.client == client && this.budget == budget
    {
      this.client := client;
      this.budget := budget;
    }

    method GetSelectedNodes() returns (r: Result<NodeSet>)
      ensures r == Spec.WatchedNodes(client, budget)
    {
      match budget {
        case ADB(ns, _, _, podSelector, pvcSelector, _, _, _, _) =>
          var fromPods := GetNodesFromNamespacedPodSelector(client, podSelector, ns);
          if fromPods.Err? {
            return Err;
          }
          var fromPVCs := GetNodesFromNamespacedPVCSelector(client, pvcSelector, ns);
          if fromPVCs.Err? {
            return Err;
          }
          r := Ok(fromPods.value + fromPVCs.value);
        case NDB(_, _, _, nodeSelector, _, _) =>
          r := GetNodeFromNodeSelector(client, nodeSelector);
      }
    }

    method ResolveDisruption() returns (r: Result<Spec.Resolved>)
      ensures r == Spec.ResolvedDisruptions(client, budget)
    {
      hide Spec.Entries, Spec.Touching, Spec.GrantedCount, Spec.WatchedNodes;
      var disruptions: seq<Disruption> := [];
      var selected := GetSelectedNodes();
      if selected.Err? {
        return Err;
      }
      var disruptionCount: nat := 0;
      if NDs in client.down {
        return Err;
      }
      var nds := client.nds;
      ghost var touching := [];
      Spec.NothingTouches(client, selected.value);
      for i := 0 to |nds|
        invariant Spec.Resolvable(client, nds[..i])
        invariant touching == Spec.Touching(client, selected.value, nds[..i])
        invariant disruptions == Spec.Entries(touching) && disruptionCount == Spec.GrantedCount(touching)
      {
        var nd := nds[i];
        assert nds[..i + 1] == nds[..i] + [nd];
        Spec.AppendTouching(client, selected.value, nds[..i], nd);
        if nd.status.state == Unknown {
          continue;
        }
        var impacted := GetNodeFromNodeSelector(client, nd.spec.nodeSelector);
        if impacted.Err? {
          return Err;
        }
        if |selected.value * impacted.value| > 0 {
          if nd.status.state == Granted {
            disruptionCount := disruptionCount + 1;
          }
          disruptions := disruptions + [Disruption(nd.name, nd.status.state)];
          Spec.AppendGranted(touching, nd);
          touching := touching + [nd];
        }
      }
      assert nds[..|nds|] == nds;
      r := Ok(Spec.Resolved(disruptionCount, disruptions));
    }

    /** Brings the stored status up to date, or fails and leaves it alone. */
    method Sync() returns (ok: bool)
      modifies this
      ensures ok <==> !Spec.SyncFails(client, old(budget))
      ensures budget == if ok then old(budget).(status := Spec.SyncedStatus(client, old(budget)).value) else old(budget)
    {
      var nodeNames := GetSelectedNodes();
      if nodeNames.Err? {
        return false;
      }
      var nodes := NodeSetToStringList(nodeNames.value);
      var resolved := ResolveDisruption();
      if resolved.Err? {
        return false;
      }
      var count := resolved.value.count;
      budget := budget.(status := budget.status.(watched := nodes));
      budget := budget.(status := budget.status.(current := count));
      var allowed: int;
      match budget {
        case ADB(_, _, maxDisruptions, _, _, _, _, _, _) =>
          allowed := maxDisruptions - count;
        case NDB(_, maxDisrupted, minUndisrupted, _, _, _) =>
          allowed := ComputeDisruptionsAllowed(maxDisrupted, minUndisrupted, |nodes|, count);
      }
      budget := budget.(status := budget.status.(allowed := allowed));
      budget := budget.(status := budget.status.(disruptions := resolved.value.disruptions));
      ok := true;
    }

    method IsImpacted(disruptedNodes: NodeSet) returns (r: bool)
      ensures r == Spec.IsImpacted(budget, disruptedNodes)
    {
      var watchedNodes := NewNodeSetFromStringList(budget.status.watched);
      r := |watchedNodes * disruptedNodes| > 0;
    }

    method TolerateDisruption(disruptedNodes: NodeSet) returns (r: bool)
      ensures r == Spec.Tolerates(budget, disruptedNodes)
    {
      match budget {
        case ADB(_, _, _, _, _, _, _, _, _) =>
          r := budget.status.allowed - 1 >= 0;
        case NDB(_, _, _, _, _, _) =>
          var watchedNodes := NewNodeSetFromStringList(budget.status.watched);
          var disruptedNodesCount := |watchedNodes * disruptedNodes|;
          r := budget.status.allowed - disruptedNodesCount >= 0;
      }
    }

    /** Calls one hook; `calls` is what went over the wire. */
    method CallHook(kind: HookKind, nd: NodeDisruption, answers: Answers) returns (ok: bool, calls: seq<HookCall>)
      ensures ok == Spec.HookOk(budget, kind, answers)
      ensures calls == Spec.HookCalls(budget, nd, kind, answers)
    {
      if !Spec.Sends(budget, kind) {
        return true, [];
      }
      var nodes := nd.status.nodes;
      if kind != Health {
        var watchedNodes := NewNodeSetFromStringList(budget.status.watched);
        var disruptedNodes := NewNodeSetFromStringList(nd.status.nodes);
        nodes := NodeSetToStringList(watchedNodes * disruptedNodes);
      }
      ok := answers(kind, budget.GetNamespacedName());
      calls := [HookCall(kind, budget.GetNamespacedName(), nodes, ok)];
    }
  }

  /** computeNodeDisruptionBudgetDisruptionsAllowed, with its detour through float64. */
  function ComputeDisruptionsAllowed(maxDisrupted: int, minUndisrupted: int, watched: int, current: int): (r: int)
    ensures r == Round(MinReal(maxDisrupted - current, watched - current - minUndisrupted))
    ensures -TWO53 <= maxDisrupted - current <= TWO53 && -TWO53 <= watched - current - minUndisrupted <= TWO53
            ==> r == MinReal(maxDisrupted, watched - minUndisrupted) - current
  {
    var disruptionsForMax := maxDisrupted - current;
    var disruptionsForMin := (watched - current) - minUndisrupted;
    MinOfRounded(disruptionsForMax, disruptionsForMin);
    MinReal(Round(disruptionsForMax), Round(disruptionsForMin))
  }

  ghost function Values(resolvers: seq<BudgetResolver>): (r: seq<Budget>)
    reads resolvers
    ensures |r| == |resolvers|
    ensures forall i | 0 <= i < |resolvers| :: r[i] == resolvers[i].budget
  {
    seq(|resolvers|, i requires 0 <= i < |resolvers| reads resolvers => resolvers[i].budget)
  }

  /**
    Lists every budget, then syncs each in turn. Either all of them are up to date, or the caller gets nothing,
    whichever budget failed and wherever it is in the list.
   */
  method GetAllBudgetsInSync(client: Client) returns (r: Result<seq<BudgetResolver>>)
    ensures r.Ok? <==> Spec.AllBudgetsInSync(client).Ok?
    ensures r.Ok? ==> fresh(r.value) && Values(r.value) == Spec.AllBudgetsInSync(client).value
  {
    var budgets := ListBudgets(client);
    if budgets.Err? {
      return Err;
    }
    r := SyncEach(client, client.adbs + client.ndbs, budgets.value);
  }

  method ListBudgets(client: Client) returns (r: Result<seq<BudgetResolver>>)
    ensures r.Ok? <==> ADBs !in client.down && NDBs !in client.down
    ensures r.Ok? ==> fresh(r.value) && Holds(r.value, client, client.adbs + client.ndbs)
  {
    if ADBs in client.down {
      return Err;
    }
    var budgets: seq<BudgetResolver> := [];
    var adbs := client.adbs;
    for i := 0 to |adbs|
      invariant fresh(budgets) && Holds(budgets, client, adbs[..i])
    {
      var resolver := new BudgetResolver(client, adbs[i]);
      budgets := budgets + [resolver];
    }
    if NDBs in client.down {
      return Err;
    }
    var ndbs := client.ndbs;
    for i := 0 to |ndbs|
      invariant fresh(budgets) && Holds(budgets, client, adbs + ndbs[..i])
    {
      var resolver := new BudgetResolver(client, ndbs[i]);
      budgets := budgets + [resolver];
    }
    r := Ok(budgets);
  }

  /** One distinct resolver for each budget. */
  ghost predicate Holds(resolvers: seq<BudgetResolver>, client: Client, budgets: seq<Budget>)
    reads resolvers
  {
    && |resolvers| == |budgets|
    && (forall i | 0 <= i < |budgets| :: resolvers[i].client == client && resolvers[i].budget == budgets[i])
    && (forall i, j | 0 <= i < j < |budgets| :: resolvers[i] != resolvers[j])
  }

  ghost function Synced(client: Client, b: Budget): Budget {
    if Spec.SyncFails(client, b) then b else b.(status := Spec.SyncedStatus(client, b).value)
  }

  method SyncEach(client: Client, ghost all: seq<Budget>,
      budgets: seq<BudgetResolver>) returns (r: Result<seq<BudgetResolver>>)
    requires Holds(budgets, client, all)
    modifies budgets
    ensures r.Err? <==> exists b | b in all :: Spec.SyncFails(client, b)
    ensures r.Ok? ==> r.value == budgets && |budgets| == |all|
                      && forall i | 0 <= i < |all| :: budgets[i].budget == Synced(client, all[i])
  {
    for i := 0 to |budgets|
      invariant forall j | 0 <= j < i :: !Spec.SyncFails(client, all[j]) && budgets[j].budget == Synced(client, all[j])
      invariant forall j | i <= j < |budgets| :: budgets[j].budget == all[j]
    {
      var ok := budgets[i].Sync();
      if !ok {
        assert all[i] in all;
        return Err;
      }
    }
    r := Ok(budgets);
  }
}
