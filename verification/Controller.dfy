/**
  NodeDisruptionReconciler (internal/controller/nodedisruption_controller.go) against an API server that nobody else
  writes to meanwhile, and the run of Protocol it is.
 */
module Controller {
  import opened Types
  import opened Resolver
  import opened BudgetSpec
  import opened Admission
  import opened Outcomes
  import opened Reconciler
  import opened Protocol
  import opened Lifecycle

  /** What the API server stores of the disruptions; `refuses` stands for any reason to turn writes down. */
  class ApiServer {
    const refuses: bool
    var nds: map<string, NodeDisruption>
    var rev: nat

    constructor (nds: map<string, NodeDisruption>, rev: nat, refuses: bool)
      ensures this.nds == nds && this.rev == rev && this.refuses == refuses
    {
      this.nds, this.rev, this.refuses := nds, rev, refuses;
    }

    ghost predicate Accepts(nd: NodeDisruption)
      reads this
    {
      !refuses && nd.name in nds && nds[nd.name].version == nd.version
    }

    /** Writes everything but the status; an object under deletion goes with its last finalizer. */
    method Update(nd: NodeDisruption) returns (ok: bool)
      modifies this
      ensures ok <==> old(Accepts(nd))
      ensures !ok ==> nds == old(nds) && rev == old(rev)
      ensures ok ==> var stored := old(nds)[nd.name];
                     if stored.deleting && !nd.finalizer && !nd.foreign
                     then nds == old(nds) - {nd.name} && rev == old(rev)
                     else nds == old(nds)[nd.name :=
                         nd.(deleting := stored.deleting, status := stored.status, version := old(rev))]
                          && rev == old(rev) + 1
    {
      if refuses || nd.name !in nds || nds[nd.name].version != nd.version {
        return false;
      }
      var stored := nds[nd.name];
      if stored.deleting && !nd.finalizer && !nd.foreign {
        nds := nds - {nd.name};
      } else {
        nds := nds[nd.name := nd.(deleting := stored.deleting, status := stored.status, version := rev)];
        rev := rev + 1;
      }
      ok := true;
    }

    method UpdateStatus(nd: NodeDisruption) returns (ok: bool)
      modifies this
      ensures ok <==> old(Accepts(nd))
      ensures !ok ==> nds == old(nds) && rev == old(rev)
      ensures ok ==>
                && nds == old(nds)[nd.name := old(nds)[nd.name].(status := nd.status, version := old(rev))]
                && rev == old(rev) + 1
    {
      if refuses || nd.name !in nds || nds[nd.name].version != nd.version {
        return false;
      }
      nds := nds[nd.name := nds[nd.name].(status := nd.status, version := rev)];
      rev := rev + 1;
      ok := true;
    }
  }

  /** What one reconcile did to the stored object, None when it left or was never there, and the calls it made. */
  datatype Effect = Effect(stored: Option<NodeDisruption>, written: bool, calls: seq<HookCall>)

  /** Reconcile, as a function of the object it read. */
  ghost function ReconcileEffect(cfg: Config, nd: NodeDisruption, c: Client, get: Getter, answers: Answers, k: Clock,
      rev: nat, refuses: bool): Effect {
    if nd.deleting then
      if !nd.finalizer then Effect(Some(nd), false, [])
      else
        var calls := TerminateCalls(nd.status.budgets, nd, get, answers);
        if !AllTerminated(nd.status.budgets, get, answers) || refuses then Effect(Some(nd), false, calls)
        else Effect(if nd.foreign then Some(nd.(finalizer := false, version := rev)) else None, true, calls)
    else if !nd.finalizer then
      if refuses then Effect(Some(nd), false, []) else Effect(Some(nd.(finalizer := true, version := rev)), true, [])
    else if Before(k.gate, nd.status.nextRetry) then
      Effect(Some(nd), false, [])
    else match ReconcileOutcome(cfg, nd, c, answers, k)
      case Err => Effect(Some(nd), false, [])
      case Ok(outcome) =>
        if outcome.status == nd.status || refuses then Effect(Some(nd), false, outcome.calls)
        else Effect(Some(nd.(status := outcome.status, version := rev)), true, outcome.calls)
  }

  /**
    What a reconcile does to each field, and when: the finalizer is added to a live object and given up after a pass
    that nothing kept from succeeding, the status is written after an attempt that was due, nothing else changes.
   */
  lemma EffectExactly(cfg: Config, nd: NodeDisruption, c: Client, get: Getter, answers: Answers, k: Clock, rev: nat,
      refuses: bool)
    ensures var Effect(stored, written, calls) := ReconcileEffect(cfg, nd, c, get, answers, k, rev, refuses);
            var ending := nd.deleting && nd.finalizer;
            var kept := exists s :: s in nd.status.budgets && KeepsIt(s, get, answers);
            var due := !nd.deleting && nd.finalizer && !(nd.status.nextRetry.At? && k.gate < nd.status.nextRetry.t);
            var outcome := ReconcileOutcome(cfg, nd, c, answers, k);
            && (stored.None? <==> ending && !nd.foreign && !kept && !refuses)
            && (stored.Some? ==>
                  var x := stored.value;
                  && x == nd.(finalizer := x.finalizer, status := x.status, version := x.version)
                  && (x.finalizer <==> if nd.deleting then nd.finalizer && (kept || refuses)
                                       else nd.finalizer || !refuses)
                  && x.status == (if due && outcome.Ok? && !refuses then outcome.value.status else nd.status)
                  && x.version == (if x.finalizer != nd.finalizer || x.status != nd.status then rev else nd.version))
            && (written <==> stored.None? || stored.value.finalizer != nd.finalizer || stored.value.status != nd.status)
            && calls == if ending then TerminateCalls(nd.status.budgets, nd, get, answers)
                        else if due && outcome.Ok? then outcome.value.calls else []
  {
    hide ReconcileOutcome, TerminateCalls, AllTerminated, KeepsIt;
    PassSucceedsExactly(nd, get, answers);
  }

  class NodeDisruptionReconciler {
    const server: ApiServer
    const client: Client
    const config: Config
    const get: Getter
    const answers: Answers
    const clock: Clock
    ghost var calls: seq<HookCall>

    constructor (server: ApiServer, client: Client, config: Config, get: Getter, answers: Answers, clock: Clock)
      ensures this.server == server && this.client == client && this.config == config
      ensures this.get == get && this.answers == answers && this.clock == clock && calls == []
    {
      this.server, this.client, this.config, this.get, this.answers, this.clock := server, client, config, get, answers,
          clock;
      calls := [];
    }

    ghost predicate Did(before: map<string, NodeDisruption>, rev: nat, name: string, effect: Effect)
      reads server
    {
      && server.nds == (match effect.stored
                        case Some(nd) => before[name := nd]
                        case None => before - {name})
      && server.rev == if effect.written && effect.stored.Some? then rev + 1 else rev
    }

    method Reconcile(name: string)
      requires name in server.nds ==> server.nds[name].name == name
      modifies server, this`calls
      ensures name !in old(server.nds) ==>
                server.nds == old(server.nds) && server.rev == old(server.rev) && calls == old(calls)
      ensures name in old(server.nds) ==>
                var effect := ReconcileEffect(config, old(server.nds)[name], client, get, answers, clock,
                                              old(server.rev), server.refuses);
                Did(old(server.nds), old(server.rev), name, effect) && calls == old(calls) + effect.calls
    {
      hide ReconcileOutcome, TerminateCalls, AllTerminated;
      if name !in server.nds {
        return;
      }
      var nd := server.nds[name];
      var reconciler := new SingleNodeDisruptionReconciler(nd, client, config, answers, clock);
      var continueReconcile := HandleFinalizer(nd, reconciler);
      if !continueReconcile {
        return;
      }
      if Before(clock.gate, nd.status.nextRetry) {
        return;
      }
      var ok := reconciler.Reconcile();
      calls := calls + reconciler.calls;
      if !ok {
        return;
      }
      if reconciler.nodeDisruption.status != nd.status {
        var written := server.UpdateStatus(reconciler.nodeDisruption);
      }
    }

    /** Whether to go on; if not, the effect of the whole reconcile is there. */
    method HandleFinalizer(nd: NodeDisruption, sndr: SingleNodeDisruptionReconciler) returns (continueReconcile: bool)
      requires nd.name in server.nds && server.nds[nd.name] == nd
      requires sndr.nodeDisruption == nd && sndr.answers == answers && sndr.calls == []
      modifies server, this`calls, sndr`calls
      ensures continueReconcile <==> !nd.deleting && nd.finalizer
      ensures continueReconcile ==>
                server.nds == old(server.nds) && server.rev == old(server.rev) && calls == old(calls)
                    && sndr.calls == []
      ensures !continueReconcile ==>
                var effect := ReconcileEffect(config, nd, client, get, answers, clock, old(server.rev), server.refuses);
                Did(old(server.nds), old(server.rev), nd.name, effect) && calls == old(calls) + effect.calls
    {
      hide ReconcileOutcome, TerminateCalls, AllTerminated;
      if !nd.deleting {
        if nd.finalizer {
          return true;
        }
        var added := server.Update(nd.(finalizer := true));
        return false;
      }
      if nd.finalizer {
        var ok := sndr.TerminateAllImpactedBudgets(get);
        calls := calls + sndr.calls;
        if !ok {
          return false;
        }
        var removed := server.Update(nd.(finalizer := false));
      }
      continueReconcile := false;
    }
  }
}
