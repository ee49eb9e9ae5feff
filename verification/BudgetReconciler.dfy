/** The two budget reconcilers: default types, Sync, and a status write only when the status moved. */
module BudgetReconcilers {
  import opened Types
  import opened Resolver
  import opened BudgetSpec
  import opened BudgetController
  import opened Protocol
  import opened Safety

  datatype Write = SpecWrite | StatusWrite

  function Filled(b: Budget, defaultTypes: seq<string>): Budget {
    if b.types == [] then b.(types := defaultTypes) else b
  }

  /** The stored budget after a reconcile, and whether it went through. */
  ghost function ReconciledBudget(c: Client, b: Budget, defaultTypes: seq<string>, refuses: set<Write>): (Budget,
      bool) {
    var filled := Filled(b, defaultTypes);
    if filled != b && SpecWrite in refuses then (b, false)
    else if SyncFails(c, filled) then (filled, false)
    else if SyncedStatus(c, filled).value == b.status then (filled, true)
    else if StatusWrite in refuses then (filled, false)
    else (filled.(status := SyncedStatus(c, filled).value), true)
  }

  class BudgetReconciler {
    const client: Client
    const defaultTypes: seq<string>
    const refuses: set<Write>  // what the API server turns down
    var budgets: map<Ref, Budget>
    ghost var writes: nat

    constructor (client: Client, defaultTypes: seq<string>, refuses: set<Write>, budgets: map<Ref, Budget>)
      ensures this.client == client && this.defaultTypes == defaultTypes && this.refuses == refuses
      ensures this.budgets == budgets && writes == 0
    {
      this.client, this.defaultTypes, this.refuses, this.budgets := client, defaultTypes, refuses, budgets;
      writes := 0;
    }

    method Reconcile(ref: Ref) returns (ok: bool)
      modifies this
      ensures ref !in old(budgets) ==> ok && budgets == old(budgets) && writes == old(writes)
      ensures ref in old(budgets) ==>
                var (budget, through) := ReconciledBudget(client, old(budgets)[ref], defaultTypes, refuses);
                && ok == through && budgets == old(budgets)[ref := budget]
                && (budgets == old(budgets) <==> writes == old(writes)) && old(writes) <= writes
      ensures ok && ref in old(budgets) ==>
                && budgets[ref].types == (if old(budgets)[ref].types == [] then defaultTypes
                                          else old(budgets)[ref].types)
                && budgets[ref] == old(budgets)[ref].(types := budgets[ref].types, status := budgets[ref].status)
    {
      if ref !in budgets {
        return true;
      }
      var b := budgets[ref];
      assert budgets[ref := b] == budgets;
      if |b.types| == 0 && |defaultTypes| > 0 {
        b := b.(types := defaultTypes);
        if SpecWrite in refuses {
          return false;
        }
        budgets := budgets[ref := b];
        writes := writes + 1;
      }
      var resolver := new BudgetResolver(client, b);
      ok := resolver.Sync();
      if !ok {
        return;
      }
      if resolver.budget.status != b.status {
        if StatusWrite in refuses {
          return false;
        }
        budgets := budgets[ref := resolver.budget];
        writes := writes + 1;
      }
    }
  }

  /**
    What a reconcile leaves of each field: default types where there are none and their write is taken, the status a
    Sync computes once it went through, and everything else as it was.
   */
  lemma ReconciledExactly(c: Client, b: Budget, defaultTypes: seq<string>, refuses: set<Write>)
    ensures var (budget, through) := ReconciledBudget(c, b, defaultTypes, refuses);
            var filled := b.types == [] && defaultTypes != [] && SpecWrite !in refuses;
            && budget.types == (if filled then defaultTypes else b.types)
            && budget == b.(types := budget.types, status := budget.status)
            && (through ==> SyncedStatus(c, budget) == Ok(budget.status))
            && (budget.status != b.status ==> through)
            && (through <==>
                  && (b.types == [] && defaultTypes != [] ==> filled) && !SyncFails(c, b)
                  && (SyncedStatus(c, b) == Ok(b.status) || StatusWrite !in refuses))
  {
    hide SyncedStatus;
    SyncOverwritesStatus(c, b, b);
    TypesDoNotMatter(c, b, defaultTypes);
    var budget := ReconciledBudget(c, b, defaultTypes, refuses).0;
    SyncOverwritesStatus(c, Filled(b, defaultTypes), Filled(b, defaultTypes).(status := budget.status));
    SyncOverwritesStatus(c, b, b.(status := budget.status));
  }

  /** A Sync does not read the types. */
  lemma TypesDoNotMatter(c: Client, b: Budget, types: seq<string>)
    ensures SyncedStatus(c, b.(types := types)) == SyncedStatus(c, b)
  {
  }

  /** With default types configured, a budget that went through a reconcile supports some type. */
  lemma SettledSupportsSomething(c: Client, b: Budget, defaultTypes: seq<string>, refuses: set<Write>)
    requires defaultTypes != [] && ReconciledBudget(c, b, defaultTypes, refuses).1
    ensures exists t :: Supports(ReconciledBudget(c, b, defaultTypes, refuses).0, t)
  {
    hide ReconciledBudget, SyncedStatus, SyncFails;
    ReconciledExactly(c, b, defaultTypes, refuses);
    var budget := ReconciledBudget(c, b, defaultTypes, refuses).0;
    assert Supports(budget, budget.types[0]);
  }

  /** A reconcile changes the spec only by filling in types, and nothing if there are some. */
  lemma ReconcileKeepsSpec(c: Client, b: Budget, defaultTypes: seq<string>, refuses: set<Write>)
    ensures var budget := ReconciledBudget(c, b, defaultTypes, refuses).0;
            && (budget.SameSpec(b) || budget.SameSpec(Filled(b, defaultTypes)))
            && (b.types != [] ==> budget.SameSpec(b))
            && budget.GetNamespacedName() == b.GetNamespacedName()
  {
  }

  /**
    A reconcile that goes through settles the budget: its status is in sync, and another reconcile finds nothing to
    write.
   */
  lemma {:induction false} ReconcileSettles(c: Client, b: Budget, defaultTypes: seq<string>, refuses: set<Write>,
      later: set<Write>)
    requires ReconciledBudget(c, b, defaultTypes, refuses).1
    ensures var budget := ReconciledBudget(c, b, defaultTypes, refuses).0;
            && InSync(budget, WatchedNodes(c, budget).value)
            && ReconciledBudget(c, budget, defaultTypes, later) == (budget, true)
  {
    var filled := Filled(b, defaultTypes);
    var budget := ReconciledBudget(c, b, defaultTypes, refuses).0;
    SyncOverwritesStatus(c, filled, budget);
    SyncLeavesInSync(c, filled);
    assert budget == filled.(status := SyncedStatus(c, filled).value);
  }

  /**
    In a run it is a step that keeps every budget with types, so the bounds of those budgets hold whatever it writes.
   */
  lemma ReconcileIsStep(w: World, c: Client, ref: Ref, defaultTypes: seq<string>, refuses: set<Write>, b: Budget)
    requires WellKeyed(w.budgets) && ref in w.budgets && Fixed(w, b) && b.types != []
    ensures var budgets := w.budgets[ref := ReconciledBudget(c, w.budgets[ref], defaultTypes, refuses).0];
            && StepKeepsBudget(SetBudgets(budgets), b)
            && Apply(w, SetBudgets(budgets)) == w.(budgets := budgets)
            && Fixed(w.(budgets := budgets), b)
  {
    hide ReconciledBudget;
    ReconcileKeepsSpec(c, w.budgets[ref], defaultTypes, refuses);
  }
}
