/** What a Sync watches and when it fails, stated on the objects of the cluster and on nothing the code computes. */
module Syncs {
  import opened Types
  import opened Labels
  import opened Resolver
  import opened BudgetSpec

  // ----- nodes of a selector -----

  predicate Trivial(sel: LabelSelector) {
    |sel.matchLabels| == 0 && |sel.matchExpressions| == 0
  }

  ghost predicate Named(c: Client, sel: LabelSelector, n: string) {
    !Trivial(sel) && exists node :: node in c.topology.nodes && node.name == n && Matches(sel, node.labels)
  }

  lemma SelectionExactly(c: Client, sel: LabelSelector)
    ensures NodesForNodeSelector(c, sel).Err?
        <==> (exists r :: r in sel.matchExpressions && !ValidRequirement(r)) || (!Trivial(sel) && Nodes in c.down)
    ensures NodesForNodeSelector(c, sel).Ok? ==>
              forall n :: n in NodesForNodeSelector(c, sel).value <==> Named(c, sel, n)
  {
  }

  // ----- nodes of a budget -----

  ghost predicate Unusable(c: Client, sel: LabelSelector, resource: Resource) {
    (exists r :: r in sel.matchExpressions && !ValidRequirement(r)) || (!Trivial(sel) && resource in c.down)
  }

  /** The nodes some term speaks about, all of whose expressions a node of this name satisfies. */
  ghost predicate AllTermsAccept(c: Client, terms: seq<Term>, n: string) {
    && (exists i :: 0 <= i < |terms| && terms[i].exprs != [])
    && exists node :: node in c.topology.nodes && node.name == n
                      && forall i | 0 <= i < |terms| :: SatisfiesAll(node.labels, terms[i].exprs)
  }

  ghost predicate MayHold(c: Client, volume: string, n: string) {
    && volume in c.topology.pvs && c.topology.pvs[volume].required.Some?
    && AllTermsAccept(c, c.topology.pvs[volume].required.value, n)
  }

  ghost predicate Claims(c: Client, b: Budget, claim: PVC)
    requires b.ADB?
  {
    !Trivial(b.pvcSelector) && claim in c.topology.pvcs && claim.ns == b.ns && Matches(b.pvcSelector, claim.labels)
  }

  ghost predicate VolumeUnreadable(c: Client, volume: string) {
    || PVs in c.down || volume !in c.topology.pvs
    || (c.topology.pvs[volume].required.Some? &&
        var terms := c.topology.pvs[volume].required.value;
        || (exists i, r :: 0 <= i < |terms| && r in terms[i].exprs && !ValidRequirement(r))
        || (Nodes in c.down && exists i :: 0 <= i < |terms| && terms[i].exprs != []))
  }

  /** It cannot be told where the data of the claim is. */
  ghost predicate Unplaced(c: Client, claim: PVC) {
    || claim.phase == ClaimLost || claim.phase == ClaimOther
    || (claim.phase == ClaimBound && VolumeUnreadable(c, claim.volumeName))
  }

  ghost predicate RunsOn(c: Client, b: Budget, n: string)
    requires b.ADB?
  {
    && !Trivial(b.podSelector) && n != ""
    && exists pod :: pod in c.topology.pods && pod.ns == b.ns && Matches(b.podSelector, pod.labels) && pod.nodeName == n
  }

  ghost predicate StoresOn(c: Client, b: Budget, n: string)
    requires b.ADB?
  {
    exists claim :: Claims(c, b, claim) && claim.phase == ClaimBound && MayHold(c, claim.volumeName, n)
  }

  lemma TermsExactly(c: Client, terms: seq<Term>)
    ensures AllRequirements(terms) == [] <==> forall i | 0 <= i < |terms| :: terms[i].exprs == []
    ensures ValidTerms(terms) <==> forall i, r | 0 <= i < |terms| && r in terms[i].exprs :: ValidRequirement(r)
  {
    if AllRequirements(terms) != [] {
      var i := ListedRequirement(terms, AllRequirements(terms)[0]);
    }
    forall i, r | 0 <= i < |terms| && r in terms[i].exprs ensures r in AllRequirements(terms) {
      RequirementListed(terms, i, r);
    }
    forall i | 0 <= i < |terms| && terms[i].exprs != [] ensures AllRequirements(terms) != [] {
      RequirementListed(terms, i, terms[i].exprs[0]);
    }
    if !ValidTerms(terms) {
      var r :| r in AllRequirements(terms) && !ValidRequirement(r);
      var i := ListedRequirement(terms, r);
    }
  }

  lemma VolumeExactly(c: Client, volume: string)
    ensures NodesForVolume(c, volume).Err? <==> VolumeUnreadable(c, volume)
    ensures NodesForVolume(c, volume).Ok? ==>
              forall n :: n in NodesForVolume(c, volume).value
                <==> MayHold(c, volume, n)
  {
    hide SatisfiesAll, ValidRequirement, ValidTerms, AllRequirements;
    if volume in c.topology.pvs && c.topology.pvs[volume].required.Some? {
      var terms := c.topology.pvs[volume].required.value;
      TermsExactly(c, terms);
      forall labels ensures SatisfiesAll(labels, AllRequirements(terms))
        <==> forall i | 0 <= i < |terms| :: SatisfiesAll(labels, terms[i].exprs) {
        TranslationIntersectsTerms(terms, labels);
      }
    }
  }

  lemma PodsExactly(c: Client, b: Budget)
    requires b.ADB?
    ensures NodesForPodSelector(c, b.podSelector, b.ns).Err? <==> Unusable(c, b.podSelector, Pods)
    ensures NodesForPodSelector(c, b.podSelector, b.ns).Ok? ==>
              forall n :: n in NodesForPodSelector(c, b.podSelector, b.ns).value <==> RunsOn(c, b, n)
  {
    hide Matches, ValidRequirement;
  }

  lemma ClaimExactly(c: Client, p: PVC)
    ensures UnsafeClaim(c, p) <==> Unplaced(c, p)
    ensures !UnsafeClaim(c, p) ==>
              forall n :: n in ClaimNodes(c, p) <==> p.phase == ClaimBound && MayHold(c, p.volumeName, n)
  {
    hide NodesForVolume, VolumeUnreadable, MayHold;
    VolumeExactly(c, p.volumeName);
  }

  lemma ClaimsExactly(c: Client, b: Budget)
    requires b.ADB?
    ensures NodesForPVCSelector(c, b.pvcSelector, b.ns).Err?
        <==> Unusable(c, b.pvcSelector, PVCs) || exists claim :: Claims(c, b, claim) && Unplaced(c, claim)
    ensures NodesForPVCSelector(c, b.pvcSelector, b.ns).Ok? ==>
              forall n :: n in NodesForPVCSelector(c, b.pvcSelector, b.ns).value <==> StoresOn(c, b, n)
  {
    hide Matches, ValidRequirement, UnsafeClaim, ClaimNodes, Unplaced, MayHold;
    forall p: PVC
      ensures UnsafeClaim(c, p) <==> Unplaced(c, p)
      ensures !UnsafeClaim(c, p) ==>
                forall n :: n in ClaimNodes(c, p) <==> p.phase == ClaimBound && MayHold(c, p.volumeName, n)
    {
      ClaimExactly(c, p);
    }
    forall p: PVC ensures Claims(c, b, p)
      <==> !Trivial(b.pvcSelector) && p in c.topology.pvcs && PVCSelected(p, b.pvcSelector, b.ns) {
    }
    if NodesForPVCSelector(c, b.pvcSelector, b.ns).Ok? && !Trivial(b.pvcSelector) {
      forall n ensures n in NodesOfClaims(c, b.pvcSelector, b.ns) <==> StoresOn(c, b, n) {
      }
    }
  }

  /** What a budget watches, and when that cannot be told. */
  lemma WatchExactly(c: Client, b: Budget)
    ensures WatchedNodes(c, b).Err? <==> WatchUnknown(c, b)
    ensures WatchedNodes(c, b).Ok? ==>
              forall n :: n in WatchedNodes(c, b).value
                <==> if b.ADB? then RunsOn(c, b, n) || StoresOn(c, b, n) else Named(c, b.nodeSelector, n)
  {
    hide Unusable, RunsOn, StoresOn, Unplaced, Claims, Named, NodesForNodeSelector, NodesForPodSelector,
         NodesForPVCSelector;
    if b.ADB? {
      PodsExactly(c, b);
      ClaimsExactly(c, b);
    } else {
      SelectionExactly(c, b.nodeSelector);
      UnusableIs(c, b.nodeSelector);
    }
  }

  lemma UnusableIs(c: Client, sel: LabelSelector)
    ensures NodesForNodeSelector(c, sel).Err? <==> Unusable(c, sel, Nodes)
  {
  }

  ghost predicate WatchUnknown(c: Client, b: Budget) {
    if b.NDB? then Unusable(c, b.nodeSelector, Nodes)
    else
      || Unusable(c, b.podSelector, Pods) || Unusable(c, b.pvcSelector, PVCs)
      || exists claim :: Claims(c, b, claim) && Unplaced(c, claim)
  }

  /** When a budget cannot be brought up to date. */
  lemma SyncFailsExactly(c: Client, b: Budget)
    ensures SyncFails(c, b)
        <==> || WatchUnknown(c, b) || NDs in c.down
             || exists nd :: nd in c.nds && nd.status.state != Unknown && Unusable(c, nd.spec.nodeSelector, Nodes)
  {
    hide WatchedNodes, WatchUnknown, NodesForNodeSelector, Unusable;
    WatchExactly(c, b);
    forall sel ensures NodesForNodeSelector(c, sel).Err? <==> Unusable(c, sel, Nodes) {
      UnusableIs(c, sel);
    }
  }

  /** A Sync reports the touching disruptions in listing order, each as often as it is listed. */
  lemma {:induction false} TouchingInOrder(c: Client, watched: NodeSet, nds: seq<NodeDisruption>) returns (at: seq<nat>)
    ensures var entries := Entries(Touching(c, watched, nds));
            && |at| == |entries|
            && (forall j, l | 0 <= j < l < |at| :: at[j] < at[l])
            && (forall i | 0 <= i < |nds| && Touches(c, watched, nds[i]) :: i in at)
            && forall j | 0 <= j < |at| ::
                 at[j] < |nds| && Touches(c, watched, nds[at[j]])
                 && entries[j] == Disruption(nds[at[j]].name, nds[at[j]].status.state)
  {
    hide Touches;
    at := [];
    if nds != [] {
      var n := |nds| - 1;
      var rest := TouchingInOrder(c, watched, nds[..n]);
      at := rest + if Touches(c, watched, nds[n]) then [n] else [];
      forall i | 0 <= i < |nds| && Touches(c, watched, nds[i]) ensures i in at {
        if i < n {
          assert nds[..n][i] == nds[i] && i in rest;
        }
      }
    }
  }

  /** When a disruption is reported: it is past Unknown and covers a watched node. */
  lemma TouchesExactly(c: Client, watched: NodeSet, nd: NodeDisruption)
    requires !Unusable(c, nd.spec.nodeSelector, Nodes)
    ensures Touches(c, watched, nd)
        <==> nd.status.state != Unknown && exists n :: n in watched && Named(c, nd.spec.nodeSelector, n)
  {
    hide Named, NodesForNodeSelector, Unusable;
    SelectionExactly(c, nd.spec.nodeSelector);
    UnusableIs(c, nd.spec.nodeSelector);
    var covered := Covered(c, nd).value;
    if n :| n in watched && Named(c, nd.spec.nodeSelector, n) {
      assert n in watched * covered;
    }
    if n :| n in watched * covered {
      assert n in watched && Named(c, nd.spec.nodeSelector, n);
    }
  }

  /** The budget, brought up to date. */
  ghost predicate IsSynced(c: Client, b: Budget, s: Budget) {
    s.SameSpec(b) && SyncedStatus(c, b) == Ok(s.status)
  }

  /** Application budgets first, each with its own spec and with the status a Sync leaves, or nothing. */
  lemma AllInSyncExactly(c: Client)
    ensures AllBudgetsInSync(c).Err?
        <==> ADBs in c.down || NDBs in c.down
             || (exists b :: b in c.adbs && SyncFails(c, b)) || (exists b :: b in c.ndbs && SyncFails(c, b))
    ensures AllBudgetsInSync(c).Ok? ==>
              var all := AllBudgetsInSync(c).value;
              && |all| == |c.adbs| + |c.ndbs|
              && (forall i | 0 <= i < |c.adbs| :: IsSynced(c, c.adbs[i], all[i]))
              && (forall i | 0 <= i < |c.ndbs| :: IsSynced(c, c.ndbs[i], all[|c.adbs| + i]))
  {
    hide SyncedStatus, Budget.SameSpec;
    var listed := c.adbs + c.ndbs;
    forall b ensures b in listed <==> b in c.adbs || b in c.ndbs {
    }
    if AllBudgetsInSync(c).Ok? {
      var all := AllBudgetsInSync(c).value;
      forall i | 0 <= i < |listed| ensures IsSynced(c, listed[i], all[i]) {
        assert listed[i] in listed;
        SyncedIs(c, listed[i]);
      }
    }
  }

  lemma SyncedIs(c: Client, b: Budget)
    requires !SyncFails(c, b)
    ensures IsSynced(c, b, b.(status := SyncedStatus(c, b).value))
  {
    hide SyncedStatus;
  }
}
