/**
  Which budgets an event on a watched object wakes (SelectorMatchesObject and MapFuncBuilder), against what a Sync of
  the budget computes before and after the event.
 */
module Watches {
  import opened Types
  import opened Labels
  import opened Resolver
  import opened BudgetSpec
  import Sorting

  datatype Object =
    | NodeObject(node: Node)
    | PodObject(pod: Pod)
    | ClaimObject(claim: PVC)
    | DisruptionObject(nd: NodeDisruption)
  {
    function GetNamespace(): string {
      match this
      case PodObject(pod) => pod.ns
      case ClaimObject(claim) => claim.ns
      case _ => ""
    }
  }

  /** Err is a selector that does not translate: the code then calls a method on a nil selector. */
  function SelectorMatches(sel: LabelSelector, labels: map<string, string>): Result<bool> {
    if !ValidSelector(sel) then Err else Ok(!EmptySelector(sel) && Matches(sel, labels))
  }

  function SelectorMatchesObject(b: Budget, o: Object): Result<bool> {
    match b
    case ADB(_, _, _, podSelector, pvcSelector, _, _, _, _) =>
      (match o
       case PodObject(pod) => SelectorMatches(podSelector, pod.labels)
       case ClaimObject(claim) => SelectorMatches(pvcSelector, claim.labels)
       case DisruptionObject(_) => Ok(true)
       case _ => Ok(false))
    case NDB(_, _, _, nodeSelector, _, _) =>
      (match o
       case NodeObject(node) => SelectorMatches(nodeSelector, node.labels)
       case DisruptionObject(_) => Ok(true)
       case _ => Ok(false))
  }

  /** Listing budgets in the namespace of an object; the empty namespace means all of them. */
  predicate InNamespace(b: Budget, ns: string) {
    ns == "" || b.NDB? || b.ns == ns
  }

  predicate Wakes(b: Budget, o: Object) {
    InNamespace(b, o.GetNamespace()) && SelectorMatchesObject(b, o) == Ok(true)
  }

  /** The reconcile requests of one event: exactly one for each listed budget it wakes, in listing order. */
  ghost function Requests(budgets: seq<Budget>, o: Object): (r: seq<Ref>)
    ensures forall ref :: ref in r <==> exists b :: b in budgets && Wakes(b, o) && b.GetNamespacedName() == ref
  {
    if budgets == [] then []
    else
      var last := budgets[|budgets| - 1];
      assert budgets == budgets[..|budgets| - 1] + [last];
      Requests(budgets[..|budgets| - 1], o) + if Wakes(last, o) then [last.GetNamespacedName()] else []
  }

  /** The function MapFuncBuilder returns. A failed list wakes nobody. */
  method MapFunc(budgets: seq<Budget>, down: bool, o: Object) returns (r: Result<seq<Ref>>)
    ensures r.Err? <==> !down && exists b ::
              b in budgets && InNamespace(b, o.GetNamespace()) && SelectorMatchesObject(b, o).Err?
    ensures r.Ok? ==> r.value == if down then [] else Requests(budgets, o)
  {
    if down {
      return Ok([]);
    }
    var requests: seq<Ref> := [];
    for i := 0 to |budgets|
      invariant forall j | 0 <= j < i && InNamespace(budgets[j], o.GetNamespace()) ::
                  SelectorMatchesObject(budgets[j], o).Ok?
      invariant requests == Requests(budgets[..i], o)
    {
      assert budgets[..i + 1][..i] == budgets[..i];
      if InNamespace(budgets[i], o.GetNamespace()) {
        var matched := SelectorMatchesObject(budgets[i], o);
        if matched.Err? {
          return Err;
        }
        if matched.value {
          requests := requests + [budgets[i].GetNamespacedName()];
        }
      }
    }
    assert budgets[..|budgets|] == budgets;
    r := Ok(requests);
  }

  /** `requests` are those of the budgets at these positions, in order: the budgets the object wakes. */
  ghost predicate RequestedAt(at: seq<nat>, budgets: seq<Budget>, o: Object, requests: seq<Ref>) {
    && |at| == |requests|
    && (forall j, l | 0 <= j < l < |at| :: at[j] < at[l])
    && (forall i | 0 <= i < |budgets| && Wakes(budgets[i], o) :: i in at)
    && (forall j | 0 <= j < |at| ::
          && at[j] < |budgets| && Wakes(budgets[at[j]], o) && requests[j] == budgets[at[j]].GetNamespacedName())
  }

  lemma RequestedMore(at: seq<nat>, init: seq<Budget>, last: Budget, o: Object, requests: seq<Ref>)
    requires RequestedAt(at, init, o, requests)
    ensures !Wakes(last, o) ==> RequestedAt(at, init + [last], o, requests)
    ensures Wakes(last, o) ==> RequestedAt(at + [|init|], init + [last], o, requests + [last.GetNamespacedName()])
  {
    hide Wakes, Budget.GetNamespacedName;
    var budgets, more := init + [last], at + [|init|];
    forall i | 0 <= i < |init| && Wakes(budgets[i], o) ensures i in at && i in more {
      assert init[i] == budgets[i];
    }
    assert more[|at|] == |init|;
  }

  /** One request for each listed budget it wakes, in listing order. */
  lemma {:induction false} RequestsInOrder(budgets: seq<Budget>, o: Object) returns (at: seq<nat>)
    ensures RequestedAt(at, budgets, o, Requests(budgets, o))
  {
    hide Wakes, RequestedAt, Budget.GetNamespacedName;
    if budgets == [] {
      at := [];
      NothingRequested(o);
    } else {
      var n := |budgets| - 1;
      at := RequestsInOrder(budgets[..n], o);
      RequestedMore(at, budgets[..n], budgets[n], o, Requests(budgets[..n], o));
      assert budgets == budgets[..n] + [budgets[n]];
      if Wakes(budgets[n], o) {
        at := at + [n];
      } else {
        assert Requests(budgets, o) == Requests(budgets[..n], o);
      }
    }
  }

  lemma NothingRequested(o: Object)
    ensures RequestedAt([], [], o, Requests([], o))
  {
  }

  /** When an object wakes a budget: its namespace and labels are those the budget selects, or it is a disruption. */
  lemma WakesExactly(b: Budget, o: Object)
    ensures Wakes(b, o)
        <==> match o
             case DisruptionObject(_) => true
             case NodeObject(node) => b.NDB? && Selected(b.nodeSelector, node.labels)
             case PodObject(pod) => b.ADB? && (pod.ns == "" || pod.ns == b.ns) && Selected(b.podSelector, pod.labels)
             case ClaimObject(claim) =>
               b.ADB? && (claim.ns == "" || claim.ns == b.ns) && Selected(b.pvcSelector, claim.labels)
  {
  }

  ghost predicate Selected(sel: LabelSelector, labels: map<string, string>) {
    && |sel.matchLabels| + |sel.matchExpressions| > 0
    && (forall r | r in sel.matchExpressions :: ValidRequirement(r))
    && Matches(sel, labels)
  }

  // ----- one object changes -----

  /** The clusters differ only in the node of this name: `before` in one, `after` in the other. */
  ghost predicate NodeChanges(t: Topology, t': Topology, name: string, before: Option<Node>, after: Option<Node>) {
    && t' == t.(nodes := t'.nodes)
    && (before.Some? ==> before.value.name == name) && (after.Some? ==> after.value.name == name)
    && (forall n: Node | n.name != name :: n in t.nodes <==> n in t'.nodes)
    && (forall n: Node | n.name == name ::
         (n in t.nodes <==> before == Some(n)) && (n in t'.nodes <==> after == Some(n)))
  }

  ghost predicate PodChanges(t: Topology, t': Topology, ns: string, name: string, before: Option<Pod>,
      after: Option<Pod>) {
    && t' == t.(pods := t'.pods)
    && (forall p: Pod | p.ns != ns || p.name != name :: p in t.pods <==> p in t'.pods)
    && (forall p: Pod | p.ns == ns && p.name == name ::
         (p in t.pods <==> before == Some(p)) && (p in t'.pods <==> after == Some(p)))
  }

  ghost predicate ClaimChanges(t: Topology, t': Topology, ns: string, name: string, before: Option<PVC>,
      after: Option<PVC>) {
    && t' == t.(pvcs := t'.pvcs)
    && (forall p: PVC | p.ns != ns || p.name != name :: p in t.pvcs <==> p in t'.pvcs)
    && (forall p: PVC | p.ns == ns && p.name == name ::
         (p in t.pvcs <==> before == Some(p)) && (p in t'.pvcs <==> after == Some(p)))
  }

  /** The same client on another cluster. */
  function On(c: Client, t: Topology): Client {
    c.(topology := t)
  }

  lemma {:induction false} TouchingSame(c: Client, c': Client, watched: NodeSet, nds: seq<NodeDisruption>)
    requires forall nd | nd in nds :: Touches(c, watched, nd) == Touches(c', watched, nd)
    ensures Touching(c, watched, nds) == Touching(c', watched, nds)
  {
    if nds != [] {
      assert nds == nds[..|nds| - 1] + [nds[|nds| - 1]];
      TouchingSame(c, c', watched, nds[..|nds| - 1]);
    }
  }

  /** A Sync reads the cluster only through the watched nodes and the disruptions that touch them. */
  lemma SyncSame(c: Client, c': Client, b: Budget)
    requires c'.nds == c.nds && c'.down == c.down
    requires WatchedNodes(c, b) == WatchedNodes(c', b)
    requires forall nd | nd in c.nds :: Covered(c, nd).Ok? == Covered(c', nd).Ok?
    requires WatchedNodes(c, b).Ok? ==>
               forall nd | nd in c.nds ::
                   Touches(c, WatchedNodes(c, b).value, nd) == Touches(c', WatchedNodes(c, b).value, nd)
    ensures SyncedStatus(c, b) == SyncedStatus(c', b)
  {
    hide Touches, WatchedNodes, Covered;
    if WatchedNodes(c, b).Ok? {
      TouchingSame(c, c', WatchedNodes(c, b).value, c.nds);
    }
  }

  // ----- node budgets and nodes -----

  lemma MatchingAt(t: Topology, name: string, only: Option<Node>, sel: LabelSelector)
    requires forall n: Node | n.name == name :: n in t.nodes <==> only == Some(n)
    requires only.Some? ==> only.value.name == name
    ensures name in NodesMatching(t, sel) <==> only.Some? && Matches(sel, only.value.labels)
  {
    if only.Some? {
      assert only.value in t.nodes;
    }
  }

  /** A selection changes at most at the changed node, where it follows the match. */
  lemma SelectionChange(c: Client, t': Topology, name: string, before: Option<Node>, after: Option<Node>,
      sel: LabelSelector)
    requires NodeChanges(c.topology, t', name, before, after)
    ensures var s, s' := NodesForNodeSelector(c, sel), NodesForNodeSelector(On(c, t'), sel);
            && s.Ok? == s'.Ok?
            && (s.Ok? ==>
                  && (forall x | x != name :: x in s.value <==> x in s'.value)
                  && (name in s.value <==> before.Some? && SelectorMatches(sel, before.value.labels) == Ok(true))
                  && (name in s'.value <==> after.Some? && SelectorMatches(sel, after.value.labels) == Ok(true)))
  {
    var c' := On(c, t');
    if ValidSelector(sel) && !EmptySelector(sel) && Nodes !in c.down {
      MatchingAt(c.topology, name, before, sel);
      MatchingAt(t', name, after, sel);
      forall x | x != name ensures x in NodesMatching(c.topology, sel) <==> x in NodesMatching(t', sel) {
        assert forall n: Node | n.name == x :: n in c.topology.nodes <==> n in t'.nodes;
      }
    }
  }

  /**
    The watch filter of node budgets is complete: if creating, changing or deleting a node changes what a Sync of the
    budget computes, the old or the new version of the node wakes the budget.
   */
  lemma {:induction false} NodeEventsWake(c: Client, t': Topology, name: string, before: Option<Node>,
      after: Option<Node>, b: Budget)
    requires NodeChanges(c.topology, t', name, before, after) && b.NDB?
    ensures SyncedStatus(c, b) != SyncedStatus(On(c, t'), b) ==>
              (before.Some? && Wakes(b, NodeObject(before.value))) || (after.Some? && Wakes(b, NodeObject(after.value)))
  {
    var c' := On(c, t');
    if !(before.Some? && Wakes(b, NodeObject(before.value))) && !(after.Some? && Wakes(b, NodeObject(after.value))) {
      SelectionChange(c, t', name, before, after, b.nodeSelector);
      forall nd | nd in c.nds
        ensures Covered(c, nd).Ok? == Covered(c', nd).Ok?
        ensures WatchedNodes(c, b).Ok? ==>
                  Touches(c, WatchedNodes(c, b).value, nd) == Touches(c', WatchedNodes(c, b).value, nd)
      {
        SelectionChange(c, t', name, before, after, nd.spec.nodeSelector);
        if WatchedNodes(c, b).Ok? && Covered(c, nd).Ok? {
          var watched := WatchedNodes(c, b).value;
          assert watched * Covered(c, nd).value == watched * Covered(c', nd).value;
        }
      }
      if WatchedNodes(c, b).Ok? {
        assert WatchedNodes(c, b).value == WatchedNodes(c', b).value;
      }
      SyncSame(c, c', b);
    }
  }

  lemma SameStatusSameWatch(c: Client, c': Client, b: Budget)
    requires !SyncFails(c, b) && SyncedStatus(c, b) == SyncedStatus(c', b)
    ensures WatchedNodes(c, b) == WatchedNodes(c', b)
  {
    assert Sorting.Elements(SyncedStatus(c, b).value.watched) == WatchedNodes(c, b).value;
    assert Sorting.Elements(SyncedStatus(c', b).value.watched) == WatchedNodes(c', b).value;
  }

  /** For creations and deletions the filter is exact: the budget is woken if and only if its status is to change. */
  lemma NodeArrivalsWakeExactly(c: Client, t': Topology, name: string, before: Option<Node>, after: Option<Node>,
      b: Budget)
    requires NodeChanges(c.topology, t', name, before, after) && b.NDB? && before.None? != after.None?
    requires !SyncFails(c, b)
    ensures SyncedStatus(c, b) != SyncedStatus(On(c, t'), b)
        <==> Wakes(b, NodeObject(if before.Some? then before.value else after.value))
  {
    var c' := On(c, t');
    var n := if before.Some? then before.value else after.value;
    if Wakes(b, NodeObject(n)) {
      SelectionChange(c, t', name, before, after, b.nodeSelector);
      if SyncedStatus(c', b) == SyncedStatus(c, b) {
        SameStatusSameWatch(c, c', b);
      }
    } else if SyncedStatus(c, b) != SyncedStatus(c', b) {
      NodeEventsWake(c, t', name, before, after, b);
    }
  }

  // ----- application budgets, pods and claims -----

  lemma NodesUnchanged(c: Client, t': Topology)
    requires t'.nodes == c.topology.nodes
    ensures forall sel :: NodesForNodeSelector(On(c, t'), sel) == NodesForNodeSelector(c, sel)
    ensures forall nd :: Covered(On(c, t'), nd) == Covered(c, nd)
    ensures forall watched, nd :: Touches(On(c, t'), watched, nd) == Touches(c, watched, nd)
  {
  }

  lemma VolumesUnchanged(c: Client, t': Topology)
    requires t'.nodes == c.topology.nodes && t'.pvs == c.topology.pvs
    ensures forall p :: UnsafeClaim(On(c, t'), p) == UnsafeClaim(c, p) && ClaimNodes(On(c, t'), p) == ClaimNodes(c, p)
  {
    var c' := On(c, t');
    forall p: PVC ensures UnsafeClaim(c', p) == UnsafeClaim(c, p) && ClaimNodes(c', p) == ClaimNodes(c, p) {
      assert NodesForVolume(c', p.volumeName) == NodesForVolume(c, p.volumeName);
    }
  }

  /** Likewise for application budgets, when a pod changes. */
  lemma {:induction false} PodEventsWake(c: Client, t': Topology, ns: string, name: string, before: Option<Pod>,
      after: Option<Pod>, b: Budget)
    requires PodChanges(c.topology, t', ns, name, before, after) && b.ADB?
    ensures SyncedStatus(c, b) != SyncedStatus(On(c, t'), b) ==>
              (before.Some? && Wakes(b, PodObject(before.value))) || (after.Some? && Wakes(b, PodObject(after.value)))
  {
    var c' := On(c, t');
    if !(before.Some? && Wakes(b, PodObject(before.value))) && !(after.Some? && Wakes(b, PodObject(after.value))) {
      NodesUnchanged(c, t');
      VolumesUnchanged(c, t');
      assert NodesForPVCSelector(c', b.pvcSelector, b.ns) == NodesForPVCSelector(c, b.pvcSelector, b.ns) by {
        assert AnyUnsafeClaim(c', b.pvcSelector, b.ns) == AnyUnsafeClaim(c, b.pvcSelector, b.ns);
        assert NodesOfClaims(c', b.pvcSelector, b.ns) == NodesOfClaims(c, b.pvcSelector, b.ns);
      }
      if ValidSelector(b.podSelector) && !EmptySelector(b.podSelector) {
        forall p: Pod | PodSelected(p, b.podSelector, b.ns) ensures p in c.topology.pods <==> p in t'.pods {
          if p.ns == ns && p.name == name {
            assert Wakes(b, PodObject(p));
          }
        }
        assert NodesOfPods(c.topology, b.podSelector, b.ns) == NodesOfPods(t', b.podSelector, b.ns);
      }
      SyncSame(c, c', b);
    }
  }

  /** And when a claim changes. */
  lemma {:induction false} ClaimEventsWake(c: Client, t': Topology, ns: string, name: string, before: Option<PVC>,
      after: Option<PVC>, b: Budget)
    requires ClaimChanges(c.topology, t', ns, name, before, after) && b.ADB?
    ensures SyncedStatus(c, b) != SyncedStatus(On(c, t'), b) ==>
              (before.Some? && Wakes(b, ClaimObject(before.value)))
                  || (after.Some? && Wakes(b, ClaimObject(after.value)))
  {
    var c' := On(c, t');
    if !(before.Some? && Wakes(b, ClaimObject(before.value))) && !(after.Some? && Wakes(b, ClaimObject(after.value))) {
      NodesUnchanged(c, t');
      VolumesUnchanged(c, t');
      var sel := b.pvcSelector;
      if ValidSelector(sel) && !EmptySelector(sel) {
        forall p: PVC | PVCSelected(p, sel, b.ns) ensures p in c.topology.pvcs <==> p in t'.pvcs {
          if p.ns == ns && p.name == name {
            assert Wakes(b, ClaimObject(p));
          }
        }
        assert AnyUnsafeClaim(c', sel, b.ns) == AnyUnsafeClaim(c, sel, b.ns);
        assert NodesOfClaims(c', sel, b.ns) == NodesOfClaims(c, sel, b.ns);
      }
      SyncSame(c, c', b);
    }
  }

  /** A change of a disruption wakes every budget there is. */
  lemma DisruptionEventsWakeAll(budgets: seq<Budget>, nd: NodeDisruption, b: Budget)
    requires b in budgets
    ensures b.GetNamespacedName() in Requests(budgets, DisruptionObject(nd))
  {
    assert Wakes(b, DisruptionObject(nd));
  }

  // ----- application budgets and nodes -----

  /** The labels satisfy every term of the volume of some bound claim the budget selects. */
  ghost predicate VolumeMatches(c: Client, b: Budget, labels: map<string, string>)
    requires b.ADB?
  {
    !EmptySelector(b.pvcSelector) &&
    exists p | p in c.topology.pvcs && PVCSelected(p, b.pvcSelector, b.ns) && p.phase == ClaimBound
        && p.volumeName in c.topology.pvs ::
      var required := c.topology.pvs[p.volumeName].required;
      required.Some? && AllRequirements(required.value) != [] && SatisfiesAll(labels, AllRequirements(required.value))
  }

  /** The budget watches the node of this name when this is its version: through a pod on it, or through its labels. */
  ghost predicate WatchedAt(c: Client, b: Budget, name: string, version: Option<Node>)
    requires b.ADB?
  {
    || (!EmptySelector(b.podSelector) && name in NodesOfPods(c.topology, b.podSelector, b.ns))
    || (version.Some? && VolumeMatches(c, b, version.value.labels))
  }

  /** The disruption covers the node when this is its version. */
  predicate CoveredAt(nd: NodeDisruption, version: Option<Node>) {
    version.Some? && SelectorMatches(nd.spec.nodeSelector, version.value.labels) == Ok(true)
  }

  /** The disruption touches the budget on some other node. */
  ghost predicate TouchesElsewhere(c: Client, b: Budget, name: string, nd: NodeDisruption) {
    && WatchedNodes(c, b).Ok? && Covered(c, nd).Ok?
    && exists x :: x != name && x in WatchedNodes(c, b).value * Covered(c, nd).value
  }

  lemma SatisfyingAt(t: Topology, name: string, only: Option<Node>, rs: seq<Requirement>)
    requires forall n: Node | n.name == name :: n in t.nodes <==> only == Some(n)
    requires only.Some? ==> only.value.name == name
    ensures name in NodesSatisfying(t, rs) <==> only.Some? && SatisfiesAll(only.value.labels, rs)
  {
    hide SatisfiesAll;
    if only.Some? {
      assert only.value in t.nodes;
    }
  }

  lemma VolumeChange(c: Client, t': Topology, name: string, before: Option<Node>, after: Option<Node>, volume: string)
    requires NodeChanges(c.topology, t', name, before, after)
    ensures var s, s' := NodesForVolume(c, volume), NodesForVolume(On(c, t'), volume);
            && s.Ok? == s'.Ok?
            && (s.Ok? ==>
                  var required := c.topology.pvs[volume].required;
                  var some := required.Some? && AllRequirements(required.value) != [];
                  && (forall x | x != name :: x in s.value <==> x in s'.value)
                  && (name in s.value <==>
                        some && before.Some? && SatisfiesAll(before.value.labels, AllRequirements(required.value)))
                  && (name in s'.value <==>
                        some && after.Some? && SatisfiesAll(after.value.labels, AllRequirements(required.value))))
  {
    hide SatisfiesAll, AllRequirements;
    if NodesForVolume(c, volume).Ok? && c.topology.pvs[volume].required.Some? {
      var rs := AllRequirements(c.topology.pvs[volume].required.value);
      SatisfyingAt(c.topology, name, before, rs);
      SatisfyingAt(t', name, after, rs);
      forall x | x != name ensures x in NodesSatisfying(c.topology, rs) <==> x in NodesSatisfying(t', rs) {
        assert forall n: Node | n.name == x :: n in c.topology.nodes <==> n in t'.nodes;
      }
    }
  }

  lemma ClaimsChange(c: Client, t': Topology, name: string, before: Option<Node>, after: Option<Node>, b: Budget)
    requires NodeChanges(c.topology, t', name, before, after) && b.ADB?
    ensures var s, s' := NodesForPVCSelector(c, b.pvcSelector, b.ns),
            NodesForPVCSelector(On(c, t'), b.pvcSelector, b.ns);
            && s.Ok? == s'.Ok?
            && (s.Ok? ==>
                  && (forall x | x != name :: x in s.value <==> x in s'.value)
                  && (name in s.value <==> before.Some? && VolumeMatches(c, b, before.value.labels))
                  && (name in s'.value <==> after.Some? && VolumeMatches(c, b, after.value.labels)))
  {
    hide SatisfiesAll, AllRequirements, NodesForVolume;
    var c', sel := On(c, t'), b.pvcSelector;
    forall p: PVC ensures UnsafeClaim(c, p) == UnsafeClaim(c', p) {
      VolumeChange(c, t', name, before, after, p.volumeName);
    }
    assert AnyUnsafeClaim(c, sel, b.ns) == AnyUnsafeClaim(c', sel, b.ns);
    if NodesForPVCSelector(c, sel, b.ns).Ok? && !EmptySelector(sel) {
      forall p: PVC | p in c.topology.pvcs && PVCSelected(p, sel, b.ns)
        ensures !UnsafeClaim(c, p)
        ensures forall x | x != name :: x in ClaimNodes(c, p) <==> x in ClaimNodes(c', p)
        ensures name in ClaimNodes(c, p) <==> before.Some? && OfClaim(c, p, before.value.labels)
        ensures name in ClaimNodes(c', p) <==> after.Some? && OfClaim(c, p, after.value.labels)
      {
        VolumeChange(c, t', name, before, after, p.volumeName);
        VolumeReadable(c, p);
      }
      ClaimsMatch(c, b);
    }
  }

  ghost predicate OfClaim(c: Client, p: PVC, labels: map<string, string>) {
    && p.phase == ClaimBound && p.volumeName in c.topology.pvs
    && c.topology.pvs[p.volumeName].required.Some? && AllRequirements(c.topology.pvs[p.volumeName].required.value) != []
    && SatisfiesAll(labels, AllRequirements(c.topology.pvs[p.volumeName].required.value))
  }

  lemma VolumeReadable(c: Client, p: PVC)
    ensures NodesForVolume(c, p.volumeName).Ok? ==> p.volumeName in c.topology.pvs
  {
  }

  lemma ClaimsMatch(c: Client, b: Budget)
    requires b.ADB? && !EmptySelector(b.pvcSelector)
    ensures forall labels ::
              VolumeMatches(c, b, labels)
              <==> exists p :: p in c.topology.pvcs && PVCSelected(p, b.pvcSelector, b.ns) && OfClaim(c, p, labels)
  {
    hide SatisfiesAll, AllRequirements, PVCSelected;
  }

  lemma WatchChange(c: Client, t': Topology, name: string, before: Option<Node>, after: Option<Node>, b: Budget)
    requires NodeChanges(c.topology, t', name, before, after) && b.ADB?
    ensures var s, s' := WatchedNodes(c, b), WatchedNodes(On(c, t'), b);
            && s.Ok? == s'.Ok?
            && (s.Ok? ==>
                  && (forall x | x != name :: x in s.value <==> x in s'.value)
                  && (name in s.value <==> WatchedAt(c, b, name, before))
                  && (name in s'.value <==> WatchedAt(c, b, name, after)))
  {
    hide VolumeMatches, NodesForPVCSelector;
    ClaimsChange(c, t', name, before, after, b);
  }

  /** A change of the node changes whether the disruption touches the budget. */
  ghost predicate TouchFlips(c: Client, b: Budget, name: string, before: Option<Node>, after: Option<Node>,
                             nd: NodeDisruption)
    requires b.ADB?
  {
    && nd.status.state != Unknown && !TouchesElsewhere(c, b, name, nd)
    && (WatchedAt(c, b, name, before) && CoveredAt(nd, before)) != (WatchedAt(c, b, name, after)
       && CoveredAt(nd, after))
  }

  lemma TouchChange(c: Client, t': Topology, name: string, before: Option<Node>, after: Option<Node>, b: Budget,
                    nd: NodeDisruption)
    requires NodeChanges(c.topology, t', name, before, after) && b.ADB? && WatchedNodes(c, b).Ok?
    requires nd.status.state != Unknown ==> Covered(c, nd).Ok?
    ensures WatchedNodes(On(c, t'), b).Ok? && Covered(On(c, t'), nd).Ok? == Covered(c, nd).Ok?
    ensures Touches(c, WatchedNodes(c, b).value, nd) != Touches(On(c, t'), WatchedNodes(On(c, t'), b).value, nd)
        <==> TouchFlips(c, b, name, before, after, nd)
  {
    hide WatchedNodes, WatchedAt, NodesForNodeSelector, SelectorMatches;
    WatchChange(c, t', name, before, after, b);
    SelectionChange(c, t', name, before, after, nd.spec.nodeSelector);
    if nd.status.state != Unknown {
      var meets, meets' := WatchedNodes(c, b).value * Covered(c, nd).value,
          WatchedNodes(On(c, t'), b).value * Covered(On(c, t'), nd).value;
      assert forall x | x != name :: x in meets <==> x in meets';
      assert TouchesElsewhere(c, b, name, nd) <==> exists x :: x != name && x in meets;
      NonEmpty(meets, name);
      NonEmpty(meets', name);
    }
  }

  lemma NonEmpty(s: NodeSet, name: string)
    ensures s != {} <==> name in s || exists x :: x != name && x in s
  {
    if s != {} {
      var x :| x in s;
    }
  }

  /**
    Node events wake no application budget, and this is when that matters: its Sync computes something else after the
    change of a node if and only if it watches only one of the two versions, or some disruption past Unknown, which
    touches it on no other node, is covered by the watched version before or after but not both.
   */
  lemma {:induction false} NodeEventsMatterExactly(c: Client, t': Topology, name: string, before: Option<Node>,
                                                   after: Option<Node>, b: Budget)
    requires NodeChanges(c.topology, t', name, before, after) && b.ADB? && DistinctNames(c.nds)
    ensures SyncFails(c, b) <==> SyncFails(On(c, t'), b)
    ensures !SyncFails(c, b) ==>
              (SyncedStatus(c, b) != SyncedStatus(On(c, t'), b)
               <==> WatchedAt(c, b, name, before) != WatchedAt(c, b, name, after)
                    || exists nd :: nd in c.nds && TouchFlips(c, b, name, before, after, nd))
    ensures forall version | version == before || version == after :: version.Some? ==>
              !Wakes(b, NodeObject(version.value))
  {
    hide WatchedNodes, WatchedAt, Touches, TouchFlips, Covered;
    var c' := On(c, t');
    WatchChange(c, t', name, before, after, b);
    forall nd | nd in c.nds ensures Covered(c, nd).Ok? == Covered(c', nd).Ok? {
      CoverChange(c, t', name, before, after, nd);
    }
    if !SyncFails(c, b) {
      forall nd | nd in c.nds
        ensures Touches(c, WatchedNodes(c, b).value, nd) != Touches(c', WatchedNodes(c', b).value, nd)
            <==> TouchFlips(c, b, name, before, after, nd)
      {
        TouchChange(c, t', name, before, after, b, nd);
      }
      if WatchedAt(c, b, name, before) != WatchedAt(c, b, name, after) {
        if SyncedStatus(c, b) == SyncedStatus(c', b) {
          SameStatusSameWatch(c, c', b);
        }
      } else {
        assert WatchedNodes(c, b).value == WatchedNodes(c', b).value;
        if nd :| nd in c.nds && TouchFlips(c, b, name, before, after, nd) {
          FlipShows(c, c', b, nd);
        } else {
          SyncSame(c, c', b);
        }
      }
    }
  }

  lemma CoverChange(c: Client, t': Topology, name: string, before: Option<Node>, after: Option<Node>,
                    nd: NodeDisruption)
    requires NodeChanges(c.topology, t', name, before, after)
    ensures Covered(c, nd).Ok? == Covered(On(c, t'), nd).Ok?
  {
    SelectionChange(c, t', name, before, after, nd.spec.nodeSelector);
  }

  /** A disruption that touches in one cluster only makes the reported disruptions differ. */
  lemma FlipShows(c: Client, c': Client, b: Budget, nd: NodeDisruption)
    requires !SyncFails(c, b) && !SyncFails(c', b) && WatchedNodes(c, b) == WatchedNodes(c', b) && c'.nds == c.nds
    requires DistinctNames(c.nds) && nd in c.nds
    requires Touches(c, WatchedNodes(c, b).value, nd) != Touches(c', WatchedNodes(c, b).value, nd)
    ensures SyncedStatus(c, b) != SyncedStatus(c', b)
  {
    hide Touches, WatchedNodes;
    SyncCanonical(c, b);
    SyncCanonical(c', b);
    var s, s' := SyncedStatus(c, b).value, SyncedStatus(c', b).value;
    forall other | other in c.nds && Entry(other) == Entry(nd) ensures other == nd {
      var i :| 0 <= i < |c.nds| && c.nds[i] == other;
      var j :| 0 <= j < |c.nds| && c.nds[j] == nd;
    }
    assert Entry(nd) in s.disruptions <==> Touches(c, WatchedNodes(c, b).value, nd);
    assert Entry(nd) in s'.disruptions <==> Touches(c', WatchedNodes(c, b).value, nd);
  }

  // A node without labels and the same node in zone "a"; a pod on it, and a granted disruption of the zone.

  function Relabelled(labels: map<string, string>): Topology {
    Topology([Node("n", labels)], [Pod("default", "db-0", map["app" := "db"], "n")], [], map[])
  }

  const ZONE := LabelSelector(map["zone" := "a"], [])
  const DATABASE := ADB("default", "db", 1, LabelSelector(map["app" := "db"], []), LabelSelector(map[], []), "", "", [],
                        BudgetStatus([], 0, 0, []))
  const ZONE_DISRUPTION := NodeDisruption("nd", 0, 0, true, false, false,
                                          NDSpec(ZONE, ZeroTime, RetrySpec(false, ZeroTime), ""),
                                          NDStatus(Granted, [], [], ZeroTime))

  lemma RelabelledPods(labels: map<string, string>)
    ensures NodesOfPods(Relabelled(labels), DATABASE.podSelector, "default") == {"n"}
    ensures !EmptySelector(DATABASE.podSelector) && !EmptySelector(ZONE)
  {
    assert "app" in DATABASE.podSelector.matchLabels && "zone" in ZONE.matchLabels;
    var pod := Relabelled(labels).pods[0];
    assert pod in Relabelled(labels).pods && PodSelected(pod, DATABASE.podSelector, "default");
  }

  lemma RelabelledZone()
    ensures NodesMatching(Relabelled(map[]), ZONE) == {}
    ensures NodesMatching(Relabelled(map["zone" := "a"]), ZONE) == {"n"}
  {
    assert "zone" in ZONE.matchLabels;
    var after := Relabelled(map["zone" := "a"]).nodes[0];
    assert after in Relabelled(map["zone" := "a"]).nodes && Matches(ZONE, after.labels);
  }

  /** Application budgets do not watch nodes: relabelling a node can change what a Sync computes and wake nobody. */
  lemma {:induction false} NodeEventsMissApplicationBudgets() returns (c: Client, t': Topology, before: Node,
      after: Node, b: Budget)
    ensures b.ADB? && NodeChanges(c.topology, t', after.name, Some(before), Some(after))
    ensures !SyncFails(c, b) && !SyncFails(On(c, t'), b) && SyncedStatus(c, b) != SyncedStatus(On(c, t'), b)
    ensures !Wakes(b, NodeObject(before)) && !Wakes(b, NodeObject(after))
  {
    hide NodesMatching, NodesOfPods, SyncFails, SyncedStatus, WatchedNodes;
    before, after := Node("n", map[]), Node("n", map["zone" := "a"]);
    b, t' := DATABASE, Relabelled(map["zone" := "a"]);
    c := Client(Relabelled(map[]), [ZONE_DISRUPTION], [], [], {});
    RelabelledPods(map[]);
    RelabelledPods(map["zone" := "a"]);
    RelabelledZone();
    WatchByPods(c, b, {"n"});
    WatchByPods(On(c, t'), b, {"n"});
    SyncOfOne(c, b, ZONE_DISRUPTION, {"n"});
    SyncOfOne(On(c, t'), b, ZONE_DISRUPTION, {"n"});
    assert "n" in {"n"} * Covered(On(c, t'), ZONE_DISRUPTION).value;
  }

  lemma WatchByPods(c: Client, b: Budget, watched: NodeSet)
    requires b.ADB? && c.down == {} && ValidSelector(b.podSelector) && !EmptySelector(b.podSelector)
    requires b.pvcSelector == LabelSelector(map[], []) && NodesOfPods(c.topology, b.podSelector, b.ns) == watched
    ensures WatchedNodes(c, b) == Ok(watched)
  {
    assert NodesForPVCSelector(c, b.pvcSelector, b.ns) == Ok({});
    assert watched + {} == watched;
  }

  lemma SyncOfOne(c: Client, b: Budget, nd: NodeDisruption, watched: NodeSet)
    requires c.nds == [nd] && c.down == {} && nd.status.state == Granted && Covered(c, nd).Ok?
             && WatchedNodes(c, b) == Ok(watched)
    ensures !SyncFails(c, b) && SyncedStatus(c, b).value.current == if watched * Covered(c, nd).value != {} then 1
                                                                    else 0
  {
    var t := Touching(c, watched, [nd]);
    AppendTouching(c, watched, [], nd);
    assert [] + [nd] == [nd] && Touching(c, watched, []) == [];
    assert t == if Touches(c, watched, nd) then [nd] else [];
    assert GrantedCount(t) == |t| by {
      assert t[..0] == [];
    }
  }
}
