/** Label-selector semantics of the Kubernetes libraries the resolver calls. */
module Labels {
  import opened Types

  predicate ValidRequirement(r: Requirement) {
    match r.op
    case In => |r.values| > 0
    case NotIn => |r.values| > 0
    case Exists => |r.values| == 0
    case DoesNotExist => |r.values| == 0
    case Gt => false
    case Lt => false
  }

  predicate Satisfies(labels: map<string, string>, r: Requirement) {
    match r.op
    case In => r.key in labels && labels[r.key] in r.values
    case NotIn => r.key !in labels || labels[r.key] !in r.values
    case Exists => r.key in labels
    case DoesNotExist => r.key !in labels
    case Gt => false
    case Lt => false
  }

  predicate SatisfiesAll(labels: map<string, string>, rs: seq<Requirement>) {
    forall r | r in rs :: Satisfies(labels, r)
  }

  predicate ValidSelector(s: LabelSelector) {
    forall r | r in s.matchExpressions :: ValidRequirement(r)
  }

  predicate EmptySelector(s: LabelSelector) {
    s.matchLabels == map[] && s.matchExpressions == []
  }

  predicate Matches(s: LabelSelector, labels: map<string, string>) {
    && (forall k | k in s.matchLabels :: k in labels && labels[k] == s.matchLabels[k])
    && SatisfiesAll(labels, s.matchExpressions)
  }

  /** What the operators mean to one another, and which requirements are no requirements. */
  lemma OperatorsMean(labels: map<string, string>, key: string, values: seq<string>, op: Op)
    ensures Satisfies(labels, Requirement(key, In, values))
        <==> exists v :: v in values && (key, v) in labels.Items
    ensures Satisfies(labels, Requirement(key, NotIn, values)) <==> !Satisfies(labels, Requirement(key, In, values))
    ensures Satisfies(labels, Requirement(key, Exists, [])) <==> exists v :: (key, v) in labels.Items
    ensures Satisfies(labels, Requirement(key, DoesNotExist, [])) <==> !Satisfies(labels, Requirement(key, Exists, []))
    ensures ValidRequirement(Requirement(key, op, values))
        <==> op != Gt && op != Lt && (values != [] <==> op == In || op == NotIn)
  {
    if key in labels {
      assert (key, labels[key]) in labels.Items;
    }
  }

  /** A label to match is shorthand for an expression that allows one value. */
  lemma MatchLabelsAreExpressions(s: LabelSelector, key: string, value: string, labels: map<string, string>)
    requires key !in s.matchLabels
    ensures Matches(s.(matchLabels := s.matchLabels[key := value]), labels)
        <==> Matches(s.(matchExpressions := s.matchExpressions + [Requirement(key, In, [value])]), labels)
  {
    var r := Requirement(key, In, [value]);
    var longer, extended := s.(matchLabels := s.matchLabels[key := value]), s.matchExpressions + [r];
    assert extended[|s.matchExpressions|] == r;
    assert forall k | k in s.matchLabels :: k in longer.matchLabels && longer.matchLabels[k] == s.matchLabels[k];
    assert key in longer.matchLabels && longer.matchLabels[key] == value;
    assert Satisfies(labels, r) <==> key in labels && labels[key] == value;
    assert SatisfiesAll(labels, extended) <==> SatisfiesAll(labels, s.matchExpressions) && Satisfies(labels, r) by {
      forall q ensures q in extended <==> q in s.matchExpressions || q == r {
      }
    }
  }
}

/** Strings in the order sort.Strings uses, and the canonical list of a set. */
module Sorting {

  predicate Le(a: string, b: string) {
    if a == [] then true
    else if b == [] then false
    else a[0] < b[0] || (a[0] == b[0] && Le(a[1..], b[1..]))
  }

  /** One string comes first if it begins the other, or has the smaller character where they first differ. */
  lemma {:induction false} LeExactly(a: string, b: string)
    ensures Le(a, b)
        <==> a <= b || exists i :: 0 <= i < |a| && i < |b| && a[..i] == b[..i] && a[i] < b[i]
  {
    if a != [] && b != [] && a[0] == b[0] {
      var s, t := a[1..], b[1..];
      assert a == [a[0]] + s && b == [b[0]] + t;
      LeExactly(s, t);
      if i :| 0 <= i < |s| && i < |t| && s[..i] == t[..i] && s[i] < t[i] {
        assert a[..i + 1] == [a[0]] + s[..i] && b[..i + 1] == [b[0]] + t[..i];
      }
      if i :| 0 <= i < |a| && i < |b| && a[..i] == b[..i] && a[i] < b[i] {
        assert a[i] == s[i - 1] && b[i] == t[i - 1];
        assert s[..i - 1] == a[..i][1..] && t[..i - 1] == b[..i][1..];
      }
    } else if a != [] && b != [] && a[0] < b[0] {
      assert a[..0] == b[..0];
    }
  }

  lemma {:induction false} LeTotal(a: string, b: string)
    ensures Le(a, b) || Le(b, a)
  {
    if a != [] && b != [] {
      LeTotal(a[1..], b[1..]);
    }
  }

  lemma {:induction false} LeAntisymmetric(a: string, b: string)
    requires Le(a, b) && Le(b, a)
    ensures a == b
  {
    if a != [] && b != [] {
      LeAntisymmetric(a[1..], b[1..]);
      assert a == [a[0]] + a[1..] && b == [b[0]] + b[1..];
    }
  }

  lemma {:induction false} LeTransitive(a: string, b: string, c: string)
    requires Le(a, b) && Le(b, c)
    ensures Le(a, c)
  {
    if a != [] && b != [] && c != [] && a[0] == b[0] == c[0] {
      LeTransitive(a[1..], b[1..], c[1..]);
    }
  }

  predicate Lt(a: string, b: string) {
    a != b && Le(a, b)
  }

  ghost predicate StrictlySorted(s: seq<string>) {
    forall i, j | 0 <= i < j < |s| :: Lt(s[i], s[j])
  }

  ghost function Elements(s: seq<string>): set<string> {
    set x | x in s
  }

  ghost predicate IsMax(m: string, s: set<string>) {
    m in s && forall x | x in s :: Le(x, m)
  }

  lemma {:induction false} MaxExists(s: set<string>)
    requires s != {}
    ensures exists m :: IsMax(m, s)
    decreases |s|
  {
    var x :| x in s;
    LeTotal(x, x);
    if s == {x} {
      assert IsMax(x, s);
    } else {
      var rest := s - {x};
      assert s == rest + {x};
      MaxExists(rest);
      var m :| IsMax(m, rest);
      LeTotal(x, m);
      if Le(x, m) {
        assert IsMax(m, s);
      } else {
        forall y | y in s ensures Le(y, x) {
          if y != x {
            LeTransitive(y, m, x);
          }
        }
        assert IsMax(x, s);
      }
    }
  }

  /** The strictly increasing list of exactly the members of `s`. */
  ghost function SortedList(s: set<string>): (r: seq<string>)
    ensures StrictlySorted(r) && Elements(r) == s
    decreases |s|
  {
    if s == {} then
      []
    else
      MaxExists(s);
      var m :| IsMax(m, s);
      var rest := SortedList(s - {m});
      assert forall i | 0 <= i < |rest| :: rest[i] in Elements(rest);
      assert forall x :: x in rest + [m] <==> x in Elements(rest) || x == m;
      rest + [m]
  }

  lemma SortedInit(s: seq<string>)
    requires StrictlySorted(s) && s != []
    ensures StrictlySorted(s[..|s| - 1])
    ensures Elements(s[..|s| - 1]) == Elements(s) - {s[|s| - 1]}
    ensures IsMax(s[|s| - 1], Elements(s))
  {
    var m := s[|s| - 1];
    LeTotal(m, m);
    assert s == s[..|s| - 1] + [m];
    forall x | x in s[..|s| - 1] ensures x != m && Le(x, m) {
      var i :| 0 <= i < |s| - 1 && s[i] == x;
      assert Lt(s[i], s[|s| - 1]);
    }
  }

  /** A strictly increasing list is determined by its set of elements. */
  lemma {:induction false} SortedUnique(s: seq<string>, t: seq<string>)
    requires StrictlySorted(s) && StrictlySorted(t) && Elements(s) == Elements(t)
    ensures s == t
    decreases |s|
  {
    assert t != [] ==> t[0] in Elements(t);
    assert s != [] ==> s[0] in Elements(s);
    if s != [] {
      SortedInit(s);
      SortedInit(t);
      LeAntisymmetric(s[|s| - 1], t[|t| - 1]);
      SortedUnique(s[..|s| - 1], t[..|t| - 1]);
      assert s == s[..|s| - 1] + [s[|s| - 1]] && t == t[..|t| - 1] + [t[|t| - 1]];
    }
  }

  lemma SortedListOf(s: seq<string>)
    requires StrictlySorted(s)
    ensures SortedList(Elements(s)) == s
  {
    SortedUnique(SortedList(Elements(s)), s);
  }

  /** Inserts one new string into a strictly increasing list. */
  method Insert(s: seq<string>, x: string) returns (r: seq<string>)
    requires StrictlySorted(s) && x !in s
    ensures StrictlySorted(r) && Elements(r) == Elements(s) + {x}
  {
    var i := 0;
    while i < |s| && Le(s[i], x)
      invariant 0 <= i <= |s|
      invariant forall j | 0 <= j < i :: Le(s[j], x)
    {
      i := i + 1;
    }
    r := s[..i] + [x] + s[i..];
    if i < |s| {
      LeTotal(s[i], x);
    }
    forall j | i <= j < |s| ensures Lt(x, s[j]) {
      if j > i {
        LeTransitive(x, s[i], s[j]);
      }
    }
    assert s == s[..i] + s[i..];
    assert forall y :: y in r <==> y in s || y == x;
  }
}

/** pkg/resolver: the sets of nodes behind the selectors. */
module Resolver {
  import opened Types
  import opened Labels
  import opened Sorting

  type NodeSet = set<string>

  method NewNodeSetFromStringList(nodes: seq<string>) returns (s: NodeSet)
    ensures s == Elements(nodes)
  {
    s := {};
    for i := 0 to |nodes|
      invariant s == Elements(nodes[..i])
    {
      assert nodes[..i + 1] == nodes[..i] + [nodes[i]];
      s := s + {nodes[i]};
    }
    assert nodes[..|nodes|] == nodes;
  }

  /** Whatever order the set is walked in, the list is the one strictly increasing list of its members. */
  method NodeSetToStringList(s: NodeSet) returns (nodes: seq<string>)
    ensures StrictlySorted(nodes) && Elements(nodes) == s
    ensures nodes == SortedList(s)
  {
    nodes := [];
    var rest := s;
    while rest != {}
      invariant rest <= s && StrictlySorted(nodes) && Elements(nodes) == s - rest
      decreases |rest|
    {
      var item :| item in rest;
      assert item !in Elements(nodes);
      nodes := Insert(nodes, item);
      rest := rest - {item};
    }
    SortedListOf(nodes);
  }

  // ----- selectors to node sets: what each call returns -----

  ghost function NodesMatching(t: Topology, sel: LabelSelector): NodeSet {
    set n | n in t.nodes && Matches(sel, n.labels) :: n.name
  }

  ghost function NodesSatisfying(t: Topology, rs: seq<Requirement>): NodeSet {
    set n | n in t.nodes && SatisfiesAll(n.labels, rs) :: n.name
  }

  ghost function NodesForNodeSelector(c: Client, sel: LabelSelector): Result<NodeSet> {
    if !ValidSelector(sel) then Err
    else if EmptySelector(sel) then Ok({})
    else if Nodes in c.down then Err
    else Ok(NodesMatching(c.topology, sel))
  }

  ghost predicate PodSelected(p: Pod, sel: LabelSelector, ns: string) {
    p.ns == ns && Matches(sel, p.labels)
  }

  ghost function NodesOfPods(t: Topology, sel: LabelSelector, ns: string): NodeSet {
    set p | p in t.pods && PodSelected(p, sel, ns) && p.nodeName != "" :: p.nodeName
  }

  ghost function NodesForPodSelector(c: Client, sel: LabelSelector, ns: string): Result<NodeSet> {
    if !ValidSelector(sel) then Err
    else if EmptySelector(sel) then Ok({})
    else if Pods in c.down then Err
    else Ok(NodesOfPods(c.topology, sel, ns))
  }

  /** All expressions of all terms, in order. */
  function AllRequirements(terms: seq<Term>): seq<Requirement> {
    if terms == [] then [] else AllRequirements(terms[..|terms| - 1]) + terms[|terms| - 1].exprs
  }

  ghost predicate ValidTerms(terms: seq<Term>) {
    forall r | r in AllRequirements(terms) :: ValidRequirement(r)
  }

  /** The nodes behind one bound volume. */
  ghost function NodesForVolume(c: Client, volume: string): Result<NodeSet> {
    if PVs in c.down || volume !in c.topology.pvs then Err
    else match c.topology.pvs[volume].required
      case None => Ok({})
      case Some(terms) =>
        if !ValidTerms(terms) then Err
        else if AllRequirements(terms) == [] then Ok({})
        else if Nodes in c.down then Err
        else Ok(NodesSatisfying(c.topology, AllRequirements(terms)))
  }

  ghost predicate PVCSelected(p: PVC, sel: LabelSelector, ns: string) {
    p.ns == ns && Matches(sel, p.labels)
  }

  /** A selected claim that makes it unsafe to answer: lost, in an unknown phase, or bound to an unreadable volume. */
  ghost predicate UnsafeClaim(c: Client, p: PVC) {
    match p.phase
    case ClaimBound => NodesForVolume(c, p.volumeName).Err?
    case ClaimLost => true
    case ClaimPending => false
    case ClaimOther => true
  }

  ghost function ClaimNodes(c: Client, p: PVC): NodeSet {
    if p.phase == ClaimBound && NodesForVolume(c, p.volumeName).Ok? then NodesForVolume(c, p.volumeName).value else {}
  }

  ghost predicate AnyUnsafeClaim(c: Client, sel: LabelSelector, ns: string) {
    exists p | p in c.topology.pvcs && PVCSelected(p, sel, ns) :: UnsafeClaim(c, p)
  }

  ghost function NodesOfClaims(c: Client, sel: LabelSelector, ns: string): NodeSet {
    set p, n | p in c.topology.pvcs && PVCSelected(p, sel, ns) && n in ClaimNodes(c, p) :: n
  }

  ghost function NodesForPVCSelector(c: Client, sel: LabelSelector, ns: string): Result<NodeSet> {
    if !ValidSelector(sel) then Err
    else if EmptySelector(sel) then Ok({})
    else if PVCs in c.down then Err
    else if AnyUnsafeClaim(c, sel, ns) then Err
    else Ok(NodesOfClaims(c, sel, ns))
  }

  // ----- the loops -----

  method GetNodeFromNodeSelector(c: Client, sel: LabelSelector) returns (r: Result<NodeSet>)
    ensures r == NodesForNodeSelector(c, sel)
  {
    if !ValidSelector(sel) {
      return Err;
    }
    if EmptySelector(sel) {
      return Ok({});
    }
    if Nodes in c.down {
      return Err;
    }
    var nodeNames: NodeSet := {};
    var nodes := c.topology.nodes;
    for i := 0 to |nodes|
      invariant nodeNames == set n | n in nodes[..i] && Matches(sel, n.labels) :: n.name
    {
      assert nodes[..i + 1] == nodes[..i] + [nodes[i]];
      if Matches(sel, nodes[i].labels) {
        nodeNames := nodeNames + {nodes[i].name};
      }
    }
    assert nodes[..|nodes|] == nodes;
    r := Ok(nodeNames);
  }

  method GetNodesFromNamespacedPodSelector(c: Client, sel: LabelSelector, ns: string) returns (r: Result<NodeSet>)
    ensures r == NodesForPodSelector(c, sel, ns)
  {
    if !ValidSelector(sel) {
      return Err;
    }
    if EmptySelector(sel) {
      return Ok({});
    }
    if Pods in c.down {
      return Err;
    }
    var nodeNames: NodeSet := {};
    var pods := c.topology.pods;
    for i := 0 to |pods|
      invariant nodeNames == set p | p in pods[..i] && PodSelected(p, sel, ns) && p.nodeName != "" :: p.nodeName
    {
      assert pods[..i + 1] == pods[..i] + [pods[i]];
      if pods[i].ns == ns && Matches(sel, pods[i].labels) && pods[i].nodeName != "" {
        nodeNames := nodeNames + {pods[i].nodeName};
      }
    }
    assert pods[..|pods|] == pods;
    r := Ok(nodeNames);
  }

  /** The translated selector of a node affinity, as its list of requirements; no requirements is the empty selector. */
  method NodeSelectorAsSelector(terms: seq<Term>) returns (r: Result<seq<Requirement>>)
    ensures r == if ValidTerms(terms) then Ok(AllRequirements(terms)) else Err
  {
    var requirements: seq<Requirement> := [];
    for i := 0 to |terms|
      invariant requirements == AllRequirements(terms[..i])
      invariant forall q | q in requirements :: ValidRequirement(q)
    {
      assert terms[..i + 1][..i] == terms[..i];
      var exprs := terms[i].exprs;
      for j := 0 to |exprs|
        invariant requirements == AllRequirements(terms[..i]) + exprs[..j]
        invariant forall q | q in requirements :: ValidRequirement(q)
      {
        if !ValidRequirement(exprs[j]) {
          RequirementListed(terms, i, exprs[j]);
          return Err;
        }
        requirements := requirements + [exprs[j]];
      }
      assert exprs[..|exprs|] == exprs;
    }
    assert terms[..|terms|] == terms;
    r := Ok(requirements);
  }

  lemma {:induction false} RequirementListed(terms: seq<Term>, i: nat, q: Requirement)
    requires i < |terms| && q in terms[i].exprs
    ensures q in AllRequirements(terms)
    decreases |terms|
  {
    if i < |terms| - 1 {
      RequirementListed(terms[..|terms| - 1], i, q);
    }
  }

  lemma {:induction false} ListedRequirement(terms: seq<Term>, q: Requirement) returns (i: nat)
    requires q in AllRequirements(terms)
    ensures i < |terms| && q in terms[i].exprs
    decreases |terms|
  {
    var last := |terms| - 1;
    if q in terms[last].exprs {
      i := last;
    } else {
      i := ListedRequirement(terms[..last], q);
    }
  }

  method GetNodesForVolume(c: Client, volume: string) returns (r: Result<NodeSet>)
    ensures r == NodesForVolume(c, volume)
  {
    if PVs in c.down || volume !in c.topology.pvs {
      return Err;
    }
    match c.topology.pvs[volume].required {
      case None =>
        return Ok({});
      case Some(terms) =>
        var selector := NodeSelectorAsSelector(terms);
        if selector.Err? {
          return Err;
        }
        if selector.value == [] {
          return Ok({});
        }
        if Nodes in c.down {
          return Err;
        }
        var nodeNames: NodeSet := {};
        var nodes := c.topology.nodes;
        for i := 0 to |nodes|
          invariant nodeNames == set n | n in nodes[..i] && SatisfiesAll(n.labels, selector.value) :: n.name
        {
          assert nodes[..i + 1] == nodes[..i] + [nodes[i]];
          if SatisfiesAll(nodes[i].labels, selector.value) {
            nodeNames := nodeNames + {nodes[i].name};
          }
        }
        assert nodes[..|nodes|] == nodes;
        r := Ok(nodeNames);
    }
  }

  method GetNodesFromNamespacedPVCSelector(c: Client, sel: LabelSelector, ns: string) returns (r: Result<NodeSet>)
    ensures r == NodesForPVCSelector(c, sel, ns)
  {
    if !ValidSelector(sel) {
      return Err;
    }
    if EmptySelector(sel) {
      return Ok({});
    }
    if PVCs in c.down {
      return Err;
    }
    var pvcs := c.topology.pvcs;
    var volumes: seq<string> := [];
    ghost var sources: seq<PVC> := [];
    for i := 0 to |pvcs|
      invariant |sources| == |volumes|
      invariant forall k | 0 <= k < |volumes| ::
        sources[k] in pvcs && PVCSelected(sources[k], sel, ns) && sources[k].phase == ClaimBound
            && sources[k].volumeName == volumes[k]
      invariant forall j | 0 <= j < i && PVCSelected(pvcs[j], sel, ns) ::
        pvcs[j].phase == ClaimPending || (pvcs[j].phase == ClaimBound && pvcs[j].volumeName in volumes)
    {
      if pvcs[i].ns == ns && Matches(sel, pvcs[i].labels) {
        if pvcs[i].phase == ClaimBound {
          volumes := volumes + [pvcs[i].volumeName];
          sources := sources + [pvcs[i]];
        } else if pvcs[i].phase == ClaimLost || pvcs[i].phase == ClaimOther {
          assert PVCSelected(pvcs[i], sel, ns) && UnsafeClaim(c, pvcs[i]);
          return Err;
        }
      }
    }
    var nodeNames: NodeSet := {};
    for k := 0 to |volumes|
      invariant forall m | 0 <= m < k :: NodesForVolume(c, volumes[m]).Ok?
      invariant nodeNames == set m, n | 0 <= m < k && n in NodesForVolume(c, volumes[m]).value :: n
    {
      var nodes := GetNodesForVolume(c, volumes[k]);
      if nodes.Err? {
        assert PVCSelected(sources[k], sel, ns) && UnsafeClaim(c, sources[k]);
        return Err;
      }
      nodeNames := nodeNames + nodes.value;
    }
    forall p | p in pvcs && PVCSelected(p, sel, ns) ensures !UnsafeClaim(c, p) && ClaimNodes(c, p) <= nodeNames {
      var j :| 0 <= j < |pvcs| && pvcs[j] == p;
      if p.phase == ClaimBound {
        var m :| 0 <= m < |volumes| && volumes[m] == p.volumeName;
      }
    }
    forall n | n in nodeNames ensures exists p :: p in pvcs && PVCSelected(p, sel, ns) && n in ClaimNodes(c, p) {
      var m :| 0 <= m < |volumes| && n in NodesForVolume(c, volumes[m]).value;
      assert n in ClaimNodes(c, sources[m]);
    }
    ghost var claimed := NodesForPVCSelector(c, sel, ns);
    assert claimed.Ok?;
    assert claimed.value == nodeNames;
    r := Ok(nodeNames);
  }

  // ----- node affinity -----

  /** What Kubernetes means by a node affinity: some term with expressions has all of them satisfied. */
  ghost predicate AffinityAccepts(terms: seq<Term>, labels: map<string, string>) {
    exists i | 0 <= i < |terms| :: terms[i].exprs != [] && SatisfiesAll(labels, terms[i].exprs)
  }

  /** The translation ANDs the terms: it accepts exactly the labels that satisfy every requirement of every term. */
  lemma TranslationIntersectsTerms(terms: seq<Term>, labels: map<string, string>)
    ensures SatisfiesAll(labels, AllRequirements(terms))
        <==> forall i | 0 <= i < |terms| :: SatisfiesAll(labels, terms[i].exprs)
  {
    if SatisfiesAll(labels, AllRequirements(terms)) {
      forall i, r | 0 <= i < |terms| && r in terms[i].exprs ensures Satisfies(labels, r) {
        RequirementListed(terms, i, r);
      }
    }
    if forall i | 0 <= i < |terms| :: SatisfiesAll(labels, terms[i].exprs) {
      forall r | r in AllRequirements(terms) ensures Satisfies(labels, r) {
        var i := ListedRequirement(terms, r);
      }
    }
  }

  /**
    When there is something to translate, the translation agrees with the affinity on a node exactly when the terms
    with expressions agree with one another on it; a one-term affinity therefore keeps its meaning. It never accepts
    too much.
   */
  lemma {:induction false} TranslationMeaning(terms: seq<Term>, labels: map<string, string>)
    requires AllRequirements(terms) != []
    ensures (SatisfiesAll(labels, AllRequirements(terms)) <==> AffinityAccepts(terms, labels))
        <==> forall i, j | 0 <= i < |terms| && 0 <= j < |terms| && terms[i].exprs != [] && terms[j].exprs != [] ::
               SatisfiesAll(labels, terms[i].exprs) == SatisfiesAll(labels, terms[j].exprs)
    ensures SatisfiesAll(labels, AllRequirements(terms)) ==> AffinityAccepts(terms, labels)
  {
    TranslationIntersectsTerms(terms, labels);
    var k := ListedRequirement(terms, AllRequirements(terms)[0]);
    if !SatisfiesAll(labels, AllRequirements(terms)) {
      var i :| 0 <= i < |terms| && !SatisfiesAll(labels, terms[i].exprs);
      assert terms[i].exprs != [];
    }
  }

  /** The nodes of a bound volume: none without expressions, otherwise those every term accepts. */
  lemma VolumeNodes(c: Client, volume: string, terms: seq<Term>, n: Node)
    requires volume in c.topology.pvs && c.topology.pvs[volume] == PV(Some(terms)) && n in c.topology.nodes
    requires NodesForVolume(c, volume).Ok?
    ensures AllRequirements(terms) != [] && (forall i | 0 <= i < |terms| :: SatisfiesAll(n.labels, terms[i].exprs))
            ==> n.name in NodesForVolume(c, volume).value
    ensures n.name in NodesForVolume(c, volume).value
            ==> exists m | m in c.topology.nodes :: m.name == n.name && AffinityAccepts(terms, m.labels)
  {
    TranslationIntersectsTerms(terms, n.labels);
    if AllRequirements(terms) != [] && n.name in NodesForVolume(c, volume).value {
      var m :| m in c.topology.nodes && m.name == n.name && SatisfiesAll(m.labels, AllRequirements(terms));
      TranslationMeaning(terms, m.labels);
    }
  }

  /** Two zones: the affinity accepts a node of the first, the translation does not. */
  lemma TranslationLosesAlternatives() returns (terms: seq<Term>, labels: map<string, string>)
    ensures ValidTerms(terms) && AffinityAccepts(terms, labels) && !SatisfiesAll(labels, AllRequirements(terms))
  {
    var a := Requirement("zone", In, ["a"]);
    var b := Requirement("zone", In, ["b"]);
    terms := [Term([a]), Term([b])];
    labels := map["zone" := "a"];
    assert terms[..1] == [Term([a])];
    assert terms[..1][..0] == [];
    assert AllRequirements(terms[..1]) == [a];
    assert AllRequirements(terms) == [a] + [b];
    assert terms[0].exprs != [] && SatisfiesAll(labels, terms[0].exprs);
    assert !Satisfies(labels, b) && b in AllRequirements(terms);
  }
}
