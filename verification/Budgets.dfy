/**
  What the two kinds of budget compute from the cluster (the budget controllers of internal/controller), as functions.
 */
module BudgetSpec {
  import opened Types
  import opened Sorting
  import opened Resolver
  import opened Rounding

  /** GetSelectedNodes */
  ghost function WatchedNodes(c: Client, b: Budget): Result<NodeSet> {
    match b
    case ADB(ns, _, _, podSelector, pvcSelector, _, _, _, _) =>
      var fromPods :- NodesForPodSelector(c, podSelector, ns);
      var fromPVCs :- NodesForPVCSelector(c, pvcSelector, ns);
      Ok(fromPods + fromPVCs)
    case NDB(_, _, _, nodeSelector, _, _) =>
      NodesForNodeSelector(c, nodeSelector)
  }

  ghost function Covered(c: Client, nd: NodeDisruption): Result<NodeSet> {
    NodesForNodeSelector(c, nd.spec.nodeSelector)
  }

  /** Every disruption that has been looked at selects its nodes without error. */
  ghost predicate Resolvable(c: Client, nds: seq<NodeDisruption>) {
    forall nd | nd in nds :: nd.status.state != Unknown ==> Covered(c, nd).Ok?
  }

  ghost predicate Touches(c: Client, watched: NodeSet, nd: NodeDisruption) {
    nd.status.state != Unknown && Covered(c, nd).Ok? && watched * Covered(c, nd).value != {}
  }

  /** The disruptions a budget reports, in listing order. */
  ghost function Touching(c: Client, watched: NodeSet, nds: seq<NodeDisruption>): seq<NodeDisruption> {
    if nds == [] then []
    else
      var last := nds[|nds| - 1];
      Touching(c, watched, nds[..|nds| - 1]) + if Touches(c, watched, last) then [last] else []
  }

  ghost function GrantedCount(nds: seq<NodeDisruption>): nat {
    if nds == [] then 0
    else GrantedCount(nds[..|nds| - 1]) + if nds[|nds| - 1].status.state == Granted then 1 else 0
  }

  ghost function Entries(nds: seq<NodeDisruption>): seq<Disruption> {
    seq(|nds|, i requires 0 <= i < |nds| => Disruption(nds[i].name, nds[i].status.state))
  }

  datatype Resolved = Resolved(count: nat, disruptions: seq<Disruption>)

  ghost function ResolvedDisruptions(c: Client, b: Budget): Result<Resolved> {
    var watched :- WatchedNodes(c, b);
    if NDs in c.down || !Resolvable(c, c.nds) then Err
    else Ok(Resolved(GrantedCount(Touching(c, watched, c.nds)), Entries(Touching(c, watched, c.nds))))
  }

  function DisruptionsAllowed(b: Budget, watched: int, current: int): int {
    match b
    case ADB(_, _, maxDisruptions, _, _, _, _, _, _) => maxDisruptions - current
    case NDB(_, maxDisrupted, minUndisrupted, _, _, _) =>
      MinReal(Round(maxDisrupted - current), Round(watched - current - minUndisrupted))
  }

  ghost function SyncedStatus(c: Client, b: Budget): Result<BudgetStatus> {
    var watched :- WatchedNodes(c, b);
    var resolved :- ResolvedDisruptions(c, b);
    Ok(BudgetStatus(SortedList(watched), DisruptionsAllowed(b, |SortedList(watched)|, resolved.count),
                    resolved.count, resolved.disruptions))
  }

  ghost predicate SyncFails(c: Client, b: Budget) {
    SyncedStatus(c, b).Err?
  }

  /** GetAllBudgetsInSync: all budgets, ADBs first, each brought up to date, or nothing if any of them fails. */
  ghost function AllBudgetsInSync(c: Client): Result<seq<Budget>> {
    var all := c.adbs + c.ndbs;
    if ADBs in c.down || NDBs in c.down || exists b | b in all :: SyncFails(c, b) then Err
    else Ok(seq(|all|, i requires 0 <= i < |all| && !SyncFails(c, all[i]) =>
                  all[i].(status := SyncedStatus(c, all[i]).value)))
  }

  predicate IsImpacted(b: Budget, nodes: NodeSet) {
    (set x | x in b.status.watched) * nodes != {}
  }

  predicate Tolerates(b: Budget, nodes: NodeSet) {
    match b
    case ADB(_, _, _, _, _, _, _, _, _) => b.status.allowed - 1 >= 0
    case NDB(_, _, _, _, _, _) => b.status.allowed - |(set x | x in b.status.watched) * nodes| >= 0
  }

  predicate V2HooksReady(b: Budget) {
    b.ADB? && b.hookURL != ""
  }

  predicate Supports(b: Budget, ndType: string) {
    ndType in b.types
  }

  /** The nodes named in the body of a hook call. */
  ghost function HookBody(b: Budget, nd: NodeDisruption, kind: HookKind): seq<string> {
    if kind == Health then nd.status.nodes
    else SortedList(Elements(b.status.watched) * Elements(nd.status.nodes))
  }

  /** Whether calling a hook sends anything: node budgets have no hooks, and a health hook needs its URL. */
  predicate Sends(b: Budget, kind: HookKind) {
    b.ADB? && (kind == Health ==> b.healthURL != "")
  }

  predicate HookOk(b: Budget, kind: HookKind, answers: Answers) {
    Sends(b, kind) ==> answers(kind, b.GetNamespacedName())
  }

  ghost function HookCalls(b: Budget, nd: NodeDisruption, kind: HookKind, answers: Answers): seq<HookCall> {
    if Sends(b, kind) then
      [HookCall(kind, b.GetNamespacedName(), HookBody(b, nd, kind), answers(kind, b.GetNamespacedName()))]
    else
      []
  }

  // ----- Sync is canonical -----

  ghost function GrantedEntries(ds: seq<Disruption>): nat {
    if ds == [] then 0
    else GrantedEntries(ds[..|ds| - 1]) + if ds[|ds| - 1].state == Granted then 1 else 0
  }

  lemma {:induction false} CountIsEntries(nds: seq<NodeDisruption>)
    ensures GrantedEntries(Entries(nds)) == GrantedCount(nds)
  {
    if nds != [] {
      CountIsEntries(nds[..|nds| - 1]);
      assert Entries(nds)[..|nds| - 1] == Entries(nds[..|nds| - 1]);
    }
  }

  ghost predicate DistinctNames(nds: seq<NodeDisruption>) {
    forall i, j | 0 <= i < j < |nds| :: nds[i].name != nds[j].name
  }

  /** The granted disruptions that touch a set of watched nodes, by name. */
  ghost function GrantedNames(c: Client, watched: NodeSet, nds: seq<NodeDisruption>): set<string> {
    set nd | nd in nds && nd.status.state == Granted && Touches(c, watched, nd) :: nd.name
  }

  lemma GrantedNamesStep(c: Client, watched: NodeSet, init: seq<NodeDisruption>, last: NodeDisruption)
    ensures GrantedNames(c, watched, init + [last])
         == GrantedNames(c, watched, init) + if last.status.state == Granted && Touches(c, watched, last)
                                             then {last.name} else {}
  {
  }

  lemma NothingTouches(c: Client, watched: NodeSet)
    ensures Touching(c, watched, []) == [] && Entries([]) == [] && GrantedCount([]) == 0
  {
  }

  lemma AppendGranted(s: seq<NodeDisruption>, x: NodeDisruption)
    ensures GrantedCount(s + [x]) == GrantedCount(s) + if x.status.state == Granted then 1 else 0
    ensures Entries(s + [x]) == Entries(s) + [Disruption(x.name, x.status.state)]
  {
    assert (s + [x])[..|s|] == s;
  }

  lemma AppendTouching(c: Client, watched: NodeSet, nds: seq<NodeDisruption>, x: NodeDisruption)
    ensures Touching(c, watched, nds + [x]) == Touching(c, watched, nds) + if Touches(c, watched, x) then [x] else []
  {
    assert (nds + [x])[..|nds|] == nds;
  }

  lemma {:induction false} CountIsCardinality(c: Client, watched: NodeSet, nds: seq<NodeDisruption>)
    requires DistinctNames(nds)
    ensures GrantedCount(Touching(c, watched, nds)) == |GrantedNames(c, watched, nds)|
  {
    hide Touches;
    if nds != [] {
      var init, last := nds[..|nds| - 1], nds[|nds| - 1];
      assert nds == init + [last];
      CountIsCardinality(c, watched, init);
      GrantedNamesStep(c, watched, init, last);
      AppendTouching(c, watched, init, last);
      AppendGranted(Touching(c, watched, init), last);
      assert last.name !in GrantedNames(c, watched, init);
      if !Touches(c, watched, last) {
        assert Touching(c, watched, init) + [] == Touching(c, watched, init);
      }
    }
  }

  lemma {:induction false} TouchingMultiset(c: Client, watched: NodeSet, nds: seq<NodeDisruption>, nd: NodeDisruption)
    ensures multiset(Touching(c, watched, nds))[nd] == if Touches(c, watched, nd) then multiset(nds)[nd] else 0
  {
    if nds != [] {
      var init, last := nds[..|nds| - 1], nds[|nds| - 1];
      TouchingMultiset(c, watched, init, nd);
      assert nds == init + [last];
    }
  }

  lemma {:induction false} CountConcat(s: seq<NodeDisruption>, t: seq<NodeDisruption>)
    ensures GrantedCount(s + t) == GrantedCount(s) + GrantedCount(t)
    decreases |t|
  {
    if t == [] {
      assert s + t == s;
    } else {
      CountConcat(s, t[..|t| - 1]);
      assert (s + t)[..|s + t| - 1] == s + t[..|t| - 1];
    }
  }

  ghost function Entry(nd: NodeDisruption): Disruption {
    Disruption(nd.name, nd.status.state)
  }

  lemma EntriesConcat(s: seq<NodeDisruption>, t: seq<NodeDisruption>)
    ensures Entries(s + t) == Entries(s) + Entries(t)
  {
  }

  lemma EntriesAround(s: seq<NodeDisruption>, x: NodeDisruption, t: seq<NodeDisruption>)
    ensures multiset(Entries(s + [x] + t)) == multiset(Entries(s + t)) + multiset{Entry(x)}
    ensures GrantedCount(s + [x] + t) == GrantedCount(s + t) + if x.status.state == Granted then 1 else 0
  {
    EntriesConcat(s + [x], t);
    EntriesConcat(s, t);
    CountConcat(s + [x], t);
    AppendGranted(s, x);
    CountConcat(s, t);
  }

  lemma SplitAt(t: seq<NodeDisruption>, x: NodeDisruption) returns (before: seq<NodeDisruption>,
      after: seq<NodeDisruption>)
    requires x in multiset(t)
    ensures t == before + [x] + after
    ensures multiset(before + after) == multiset(t) - multiset{x}
  {
    var k :| 0 <= k < |t| && t[k] == x;
    before, after := t[..k], t[k + 1..];
    assert t == before + [x] + after;
    assert multiset(before + [x] + after) == multiset(before + after) + multiset{x};
  }

  lemma {:induction false} EntriesPermuted(s: seq<NodeDisruption>, t: seq<NodeDisruption>)
    requires multiset(s) == multiset(t)
    ensures multiset(Entries(s)) == multiset(Entries(t)) && GrantedCount(s) == GrantedCount(t)
    decreases |s|
  {
    assert |s| == |multiset(s)| == |multiset(t)| == |t|;
    if s != [] {
      var x := s[0];
      var before, after := SplitAt(s, x);
      var before', after' := SplitAt(t, x);
      EntriesAround(before, x, after);
      EntriesAround(before', x, after');
      EntriesPermuted(before + after, before' + after');
    }
  }

  /** Two listings of one cluster: any order, nodes, pods and claims possibly repeated. */
  ghost predicate SameCluster(c: Client, c': Client) {
    && (set n | n in c.topology.nodes) == (set n | n in c'.topology.nodes)
    && (set p | p in c.topology.pods) == (set p | p in c'.topology.pods)
    && (set p | p in c.topology.pvcs) == (set p | p in c'.topology.pvcs)
    && c.topology.pvs == c'.topology.pvs
    && multiset(c.nds) == multiset(c'.nds)
    && c.down == c'.down
  }

  lemma SameNodes(c: Client, c': Client)
    requires SameCluster(c, c')
    ensures forall n :: n in c.topology.nodes <==> n in c'.topology.nodes
    ensures forall n :: n in c.topology.pods <==> n in c'.topology.pods
    ensures forall n :: n in c.topology.pvcs <==> n in c'.topology.pvcs
    ensures forall n :: n in c.nds <==> n in c'.nds
  {
    var nodes, nodes' := set n | n in c.topology.nodes, set n | n in c'.topology.nodes;
    var pods, pods' := set n | n in c.topology.pods, set n | n in c'.topology.pods;
    var pvcs, pvcs' := set n | n in c.topology.pvcs, set n | n in c'.topology.pvcs;
    assert nodes == nodes' && pods == pods' && pvcs == pvcs';
    forall n ensures n in c.topology.nodes <==> n in c'.topology.nodes {
      assert n in nodes <==> n in nodes';
    }
    forall n ensures n in c.topology.pods <==> n in c'.topology.pods {
      assert n in pods <==> n in pods';
    }
    forall n ensures n in c.topology.pvcs <==> n in c'.topology.pvcs {
      assert n in pvcs <==> n in pvcs';
    }
    forall n ensures n in c.nds <==> n in c'.nds {
      assert n in multiset(c.nds) <==> n in multiset(c'.nds);
    }
  }

  lemma SelectionIgnoresListing(c: Client, c': Client, sel: LabelSelector)
    requires SameCluster(c, c')
    ensures NodesForNodeSelector(c, sel) == NodesForNodeSelector(c', sel)
  {
    SameNodes(c, c');
    assert NodesMatching(c.topology, sel) == NodesMatching(c'.topology, sel);
  }

  lemma VolumeIgnoresListing(c: Client, c': Client, volume: string)
    requires SameCluster(c, c')
    ensures NodesForVolume(c, volume) == NodesForVolume(c', volume)
  {
    SameNodes(c, c');
    forall rs ensures NodesSatisfying(c.topology, rs) == NodesSatisfying(c'.topology, rs) {
    }
  }

  lemma PVCSelectionIgnoresListing(c: Client, c': Client, sel: LabelSelector, ns: string)
    requires SameCluster(c, c')
    ensures NodesForPVCSelector(c, sel, ns) == NodesForPVCSelector(c', sel, ns)
  {
    SameNodes(c, c');
    forall p: PVC ensures UnsafeClaim(c, p) == UnsafeClaim(c', p) && ClaimNodes(c, p) == ClaimNodes(c', p) {
      VolumeIgnoresListing(c, c', p.volumeName);
    }
    assert AnyUnsafeClaim(c, sel, ns) == AnyUnsafeClaim(c', sel, ns);
    assert NodesOfClaims(c, sel, ns) == NodesOfClaims(c', sel, ns);
  }

  lemma WatchedIgnoresListing(c: Client, c': Client, b: Budget)
    requires SameCluster(c, c')
    ensures WatchedNodes(c, b) == WatchedNodes(c', b)
  {
    match b
    case ADB(ns, _, _, podSelector, pvcSelector, _, _, _, _) =>
      SameNodes(c, c');
      assert NodesOfPods(c.topology, podSelector, ns) == NodesOfPods(c'.topology, podSelector, ns);
      PVCSelectionIgnoresListing(c, c', pvcSelector, ns);
    case NDB(_, _, _, nodeSelector, _, _) =>
      SelectionIgnoresListing(c, c', nodeSelector);
  }

  lemma ResolutionIgnoresListing(c: Client, c': Client, watched: NodeSet)
    requires SameCluster(c, c')
    ensures Resolvable(c, c.nds) <==> Resolvable(c', c'.nds)
    ensures var t, t' := Touching(c, watched, c.nds), Touching(c', watched, c'.nds);
            multiset(Entries(t)) == multiset(Entries(t')) && GrantedCount(t) == GrantedCount(t')
  {
    SameNodes(c, c');
    forall nd: NodeDisruption ensures Covered(c, nd) == Covered(c', nd) {
      SelectionIgnoresListing(c, c', nd.spec.nodeSelector);
    }
    var t, t' := Touching(c, watched, c.nds), Touching(c', watched, c'.nds);
    forall nd ensures multiset(t)[nd] == multiset(t')[nd] {
      TouchingMultiset(c, watched, c.nds, nd);
      TouchingMultiset(c', watched, c'.nds, nd);
    }
    assert multiset(t) == multiset(t');
    EntriesPermuted(t, t');
  }

  /** Permuting the listings permutes the reported disruptions and changes nothing else a Sync computes. */
  lemma SyncIgnoresListing(c: Client, c': Client, b: Budget)
    requires SameCluster(c, c')
    ensures SyncFails(c, b) <==> SyncFails(c', b)
    ensures !SyncFails(c, b) ==>
              var s, s' := SyncedStatus(c, b).value, SyncedStatus(c', b).value;
              && multiset(s.disruptions) == multiset(s'.disruptions)
              && s' == s.(disruptions := s'.disruptions)
  {
    WatchedIgnoresListing(c, c', b);
    if WatchedNodes(c, b).Ok? {
      ResolutionIgnoresListing(c, c', WatchedNodes(c, b).value);
    }
  }

  lemma TouchingMembers(c: Client, watched: NodeSet, nds: seq<NodeDisruption>, nd: NodeDisruption)
    ensures nd in Touching(c, watched, nds) <==> nd in nds && Touches(c, watched, nd)
  {
    TouchingMultiset(c, watched, nds, nd);
    assert nd in Touching(c, watched, nds) <==> multiset(Touching(c, watched, nds))[nd] > 0;
    assert nd in nds <==> multiset(nds)[nd] > 0;
  }

  lemma EntryMembers(t: seq<NodeDisruption>, d: Disruption)
    ensures d in Entries(t) <==> exists nd :: nd in t && d == Entry(nd)
  {
    if d in Entries(t) {
      var i :| 0 <= i < |Entries(t)| && Entries(t)[i] == d;
      assert t[i] in t && d == Entry(t[i]);
    }
    if nd :| nd in t && d == Entry(nd) {
      var i :| 0 <= i < |t| && t[i] == nd;
      assert Entries(t)[i] == d;
    }
  }

  /** The smaller of both differences may be taken before or after the rounding. */
  lemma AllowedIsLess(b: Budget, watched: NodeSet, current: int)
    ensures b.ADB? ==> DisruptionsAllowed(b, |watched|, current) == b.maxDisruptions - current
    ensures b.NDB? ==>
              var byMax, byMin := b.maxDisrupted - current, |watched| - current - b.minUndisrupted;
              DisruptionsAllowed(b, |watched|, current) == Round(if byMax <= byMin then byMax else byMin)
  {
    if b.NDB? {
      MinOfRounded(b.maxDisrupted - current, |watched| - current - b.minUndisrupted);
    }
  }

  lemma SyncedFields(c: Client, b: Budget)
    requires !SyncFails(c, b)
    ensures WatchedNodes(c, b).Ok?
    ensures var s, watched := SyncedStatus(c, b).value, WatchedNodes(c, b).value;
            var t := Touching(c, watched, c.nds);
            s == BudgetStatus(SortedList(watched), DisruptionsAllowed(b, |watched|, GrantedCount(t)), GrantedCount(t),
                              Entries(t))
  {
    hide WatchedNodes, DisruptionsAllowed, Touching, Entries, GrantedCount, Resolvable;
    SortedLength(WatchedNodes(c, b).value);
  }

  /** What a successful Sync leaves, without reference to how it lists or counts. */
  lemma SyncCanonical(c: Client, b: Budget)
    requires DistinctNames(c.nds) && !SyncFails(c, b)
    ensures var s := SyncedStatus(c, b).value;
            var watched := WatchedNodes(c, b).value;
            var granted := |GrantedNames(c, watched, c.nds)|;
            && StrictlySorted(s.watched) && Elements(s.watched) == watched
            && s.current == GrantedEntries(s.disruptions) == granted
            && (match b
                case ADB(_, _, maxDisruptions, _, _, _, _, _, _) => s.allowed == maxDisruptions - granted
                case NDB(_, maxDisrupted, minUndisrupted, _, _, _) =>
                  var byMax, byMin := maxDisrupted - granted, |watched| - granted - minUndisrupted;
                  s.allowed == Round(if byMax <= byMin then byMax else byMin))
            && forall d :: d in s.disruptions <==> exists nd :: nd in c.nds && Touches(c, watched, nd) && d == Entry(nd)
  {
    hide SyncedStatus, WatchedNodes, Touching, Entries, GrantedCount, GrantedEntries, GrantedNames, Touches;
    hide DisruptionsAllowed, Round;
    SyncedFields(c, b);
    var s := SyncedStatus(c, b).value;
    var watched := WatchedNodes(c, b).value;
    var t := Touching(c, watched, c.nds);
    AllowedIsLess(b, watched, s.current);
    CountIsEntries(t);
    CountIsCardinality(c, watched, c.nds);
    forall d ensures d in s.disruptions <==> exists nd :: nd in c.nds && Touches(c, watched, nd) && d == Entry(nd) {
      EntryMembers(t, d);
      forall nd ensures nd in t <==> nd in c.nds && Touches(c, watched, nd) {
        TouchingMembers(c, watched, c.nds, nd);
      }
    }
  }

  /**
    Sync overwrites the stored status without reading it: equal specs give equal results, and a second Sync changes
    nothing.
   */
  lemma SyncOverwritesStatus(c: Client, b: Budget, b': Budget)
    requires b.SameSpec(b')
    ensures SyncedStatus(c, b) == SyncedStatus(c, b')
  {
  }

  lemma SortedLength(s: NodeSet)
    ensures |SortedList(s)| == |s|
  {
    DistinctLength(SortedList(s));
  }

  lemma {:induction false} DistinctLength(l: seq<string>)
    requires StrictlySorted(l)
    ensures |l| == |Elements(l)|
    decreases |l|
  {
    if l != [] {
      SortedInit(l);
      DistinctLength(l[..|l| - 1]);
      assert Elements(l) == Elements(l[..|l| - 1]) + {l[|l| - 1]};
    } else {
      assert Elements(l) == {};
    }
  }

  // ----- capacity -----

  /** How much room the budget has before anything is granted. */
  function Capacity(b: Budget, watched: NodeSet): int {
    match b
    case ADB(_, _, maxDisruptions, _, _, _, _, _, _) => maxDisruptions
    case NDB(_, maxDisrupted, minUndisrupted, _, _, _) => MinReal(maxDisrupted, |watched| - minUndisrupted)
  }

  /** What one disruption asks of the budget: an ADB counts disruptions, an NDB counts watched nodes. */
  function Demand(b: Budget, watched: NodeSet, nodes: NodeSet): nat {
    if b.ADB? then 1 else |watched * nodes|
  }

  /** The status a Sync leaves on a budget that watches these nodes. */
  ghost predicate InSync(s: Budget, watched: NodeSet) {
    && s.status.watched == SortedList(watched)
    && s.status.allowed == DisruptionsAllowed(s, |watched|, s.status.current)
  }

  lemma SyncLeavesInSync(c: Client, b: Budget)
    requires !SyncFails(c, b)
    ensures InSync(b.(status := SyncedStatus(c, b).value), WatchedNodes(c, b).value)
  {
    SortedLength(WatchedNodes(c, b).value);
  }

  /**
    The float64 detour does not change the decision: a budget in sync tolerates exactly the demands it has room for.
   */
  lemma ToleranceIsRoom(s: Budget, watched: NodeSet, nodes: NodeSet)
    requires InSync(s, watched) && (s.NDB? ==> |watched| <= TWO53)
    ensures IsImpacted(s, nodes) <==> watched * nodes != {}
    ensures Tolerates(s, nodes) <==> Demand(s, watched, nodes) <= Capacity(s, watched) - s.status.current
  {
    hide Round;
    assert (set x | x in s.status.watched) == Elements(SortedList(watched)) == watched;
    if s.NDB? {
      SubsetCardinality(watched * nodes, watched);
      RoundedRoom(s.maxDisrupted - s.status.current, |watched| - s.status.current - s.minUndisrupted,
                  |watched * nodes|);
    }
  }

  lemma SubsetCardinality<T>(a: set<T>, b: set<T>)
    requires a <= b
    ensures |a| <= |b|
  {
    assert b == a + (b - a);
  }
}
