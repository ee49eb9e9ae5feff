/** The API objects the controller reads and writes (api/v1alpha1), reduced to the fields its decisions use. */
module Types {

  datatype Option<+T> = None | Some(value: T)

  /** A Go `(value, error)` pair; which error it was never changes what the controller does. */
  datatype Result<+T> = Ok(value: T) | Err {
    predicate IsFailure() {
      Err?
    }

    function PropagateFailure<U>(): Result<U>
      requires Err?
    {
      Err
    }

    function Extract(): T
      requires Ok?
    {
      value
    }
  }

  /** metav1.Time in whole seconds; ZeroTime is Go's zero time, which no clock reading precedes. */
  datatype Time = ZeroTime | At(t: int)

  /** `now.Before(t)` */
  predicate Before(now: int, t: Time) {
    t.At? && now < t.t
  }

  datatype Op = In | NotIn | Exists | DoesNotExist | Gt | Lt

  datatype Requirement = Requirement(key: string, op: Op, values: seq<string>)

  datatype LabelSelector = LabelSelector(matchLabels: map<string, string>, matchExpressions: seq<Requirement>)

  /** NamespacedName */
  datatype Ref = Ref(ns: string, name: string, kind: string)

  const ADB_KIND := "ApplicationDisruptionBudget"
  const NDB_KIND := "NodeDisruptionBudget"
  const ND_KIND := "NodeDisruption"

  datatype NDState = Unknown | Pending | Granted | Rejected

  datatype RetrySpec = RetrySpec(enabled: bool, deadline: Time) {
    predicate IsAfterDeadline(now: int) {
      enabled && deadline.At? && now > deadline.t
    }
  }

  datatype NDSpec = NDSpec(nodeSelector: LabelSelector, doNotGrantBefore: Time, retry: RetrySpec, ndType: string)

  /** DisruptedBudgetStatus without its free-text reason. */
  datatype BudgetCheck = BudgetCheck(ref: Ref, preparing: bool, ok: bool)

  datatype NDStatus = NDStatus(state: NDState, budgets: seq<BudgetCheck>, nodes: seq<string>, nextRetry: Time)

  const EMPTY_STATUS := NDStatus(Unknown, [], [], ZeroTime)

  /** `finalizer` is the controller's own; `foreign` says whether anybody else's is present. */
  datatype NodeDisruption = NodeDisruption(
    name: string, uid: nat, version: nat, finalizer: bool, foreign: bool, deleting: bool,
    spec: NDSpec, status: NDStatus)
  {
    function GetNamespacedName(): Ref {
      Ref("", name, ND_KIND)
    }
  }

  datatype Disruption = Disruption(name: string, state: NDState)

  datatype BudgetStatus = BudgetStatus(watched: seq<string>, allowed: int, current: int, disruptions: seq<Disruption>)

  datatype Budget =
    | ADB(ns: string, name: string, maxDisruptions: int, podSelector: LabelSelector, pvcSelector: LabelSelector,
          healthURL: string, hookURL: string, types: seq<string>, status: BudgetStatus)
    | NDB(name: string, maxDisrupted: int, minUndisrupted: int, nodeSelector: LabelSelector,
          types: seq<string>, status: BudgetStatus)
  {
    function GetNamespacedName(): Ref {
      match this
      case ADB(ns, name, _, _, _, _, _, _, _) => Ref(ns, name, ADB_KIND)
      case NDB(name, _, _, _, _, _) => Ref("", name, NDB_KIND)
    }

    /** Everything but the stored status. */
    predicate SameSpec(other: Budget) {
      this.(status := other.status) == other
    }
  }

  /** References tell budgets apart, and budgets from disruptions. */
  lemma RefsIdentify(b: Budget, b': Budget, nd: NodeDisruption)
    ensures b.GetNamespacedName() == b'.GetNamespacedName()
        <==> b.ADB? == b'.ADB? && b.name == b'.name && (b.ADB? && b'.ADB? ==> b.ns == b'.ns)
    ensures b.GetNamespacedName() != nd.GetNamespacedName()
  {
  }

  datatype Config = Config(rejectEmpty: bool, retryInterval: int, rejectOverlapping: bool, types: seq<string>)

  // Cluster objects the resolver reads.

  datatype Node = Node(name: string, labels: map<string, string>)
  datatype Pod = Pod(ns: string, name: string, labels: map<string, string>, nodeName: string)
  datatype Phase = ClaimBound | ClaimLost | ClaimPending | ClaimOther
  datatype PVC = PVC(ns: string, name: string, labels: map<string, string>, phase: Phase, volumeName: string)

  /** A NodeSelectorTerm with label expressions only. */
  datatype Term = Term(exprs: seq<Requirement>)
  /** `required` is None when NodeAffinity or its Required selector is nil. */
  datatype PV = PV(required: Option<seq<Term>>)

  datatype Topology = Topology(nodes: seq<Node>, pods: seq<Pod>, pvcs: seq<PVC>, pvs: map<string, PV>)

  datatype Resource = Nodes | Pods | PVCs | PVs | NDs | ADBs | NDBs

  /** What one API client returns: the cluster's objects in listing order, and the resources that cannot be read. */
  datatype Client = Client(
    topology: Topology, nds: seq<NodeDisruption>, adbs: seq<Budget>, ndbs: seq<Budget>, down: set<Resource>)

  datatype HookKind = Prepare | Ready | Terminate | Health

  /** One HTTP call to an application manager; `nodes` are the nodes its body names. */
  datatype HookCall = HookCall(kind: HookKind, ref: Ref, nodes: seq<string>, ok: bool)

  /** How the application managers answer during one reconcile. */
  type Answers = (HookKind, Ref) -> bool
}
