/**
 * The Tenant API (group platform.shieldx.io, version v1alpha1) and the
 * simplified quota and network-policy request types of the same package.
 */
module TenantTypes {
  import opened Meta

  /** The declared state: at least one owner (MinItems=1), a tier and an isolation mode. */
  datatype TenantSpec = TenantSpec(owners: seq<string>, tier: string, isolation: string)

  /** A `metav1.Condition`. */
  datatype Condition = Condition(
    conditionType: string,
    status: string,
    observedGeneration: int,
    lastTransitionTime: int,
    reason: string,
    message: string)

  /** The observed state; every field is optional and "" / [] stand for "not set". */
  datatype TenantStatus = TenantStatus(phase: string, namespace: string, conditions: seq<Condition>)

  /** A Tenant always carries a spec; its status may be the empty one. */
  datatype Tenant = Tenant(meta: ObjectMeta, spec: TenantSpec, status: TenantStatus)

  datatype TenantList = TenantList(items: seq<Tenant>)

  /** The status every new Tenant starts with. */
  const EmptyStatus := TenantStatus("", "", [])

  /** The values the `phase` enum marker admits. */
  const Phases: set<string> := {"Pending", "Ready", "Error"}

  predicate ValidSpec(spec: TenantSpec)
  {
    |spec.owners| >= 1
  }

  /** `phase` is optional; when it is set it is one of the enum values. */
  predicate ValidPhase(phase: string)
  {
    phase == "" || phase in Phases
  }

  /** The conditions form a list-map keyed by `type`: no two share a type. */
  predicate UniqueConditionTypes(conditions: seq<Condition>)
  {
    forall i, j :: 0 <= i < j < |conditions| ==> conditions[i].conditionType != conditions[j].conditionType
  }

  predicate ValidStatus(status: TenantStatus)
  {
    ValidPhase(status.phase) && UniqueConditionTypes(status.conditions)
  }

  predicate ValidTenant(t: Tenant)
  {
    ValidSpec(t.spec) && ValidStatus(t.status)
  }

  predicate ValidTenantList(list: TenantList)
  {
    forall t <- list.items :: ValidTenant(t)
  }

  /** Status may be left empty: the empty status is valid, and so is any spec with an owner. */
  lemma EmptyStatusValid(t: Tenant)
    requires ValidSpec(t.spec) && t.status == EmptyStatus
    ensures ValidTenant(t)
  {
  }

  /** In a valid status a condition is identified by its type. */
  lemma ConditionTypeIsKey(status: TenantStatus, i: nat, j: nat)
    requires ValidStatus(status)
    requires i < |status.conditions| && j < |status.conditions|
    requires status.conditions[i].conditionType == status.conditions[j].conditionType
    ensures i == j
  {
  }

  /** The requested quota: six quantity strings, parsed when the quota is created. */
  datatype ResourceQuota = ResourceQuota(
    requestsCpu: string,
    requestsMemory: string,
    limitsCpu: string,
    limitsMemory: string,
    requestsStorage: string,
    pods: string)

  /** A peer is selected by pod labels only (same namespace, no ports). */
  datatype NetworkPolicyPeer = NetworkPolicyPeer(pod: map<string, string>)

  datatype NetworkPolicyIngressRule = NetworkPolicyIngressRule(source: NetworkPolicyPeer)

  datatype NetworkPolicyEgressRule = NetworkPolicyEgressRule(destination: NetworkPolicyPeer)

  /** The requested network policy in the project's simplified shape. */
  datatype NetworkPolicy = NetworkPolicy(
    podSelector: map<string, string>,
    policyTypes: seq<string>,
    ingress: seq<NetworkPolicyIngressRule>,
    egress: seq<NetworkPolicyEgressRule>)
}
