/** The objects the operator reads and writes in the cluster store, keyed by kind, namespace and name. */
module Objects {
  import opened Wrappers
  import opened Meta
  import opened TenantTypes

  datatype Kind = NamespaceKind | ResourceQuotaKind | NetworkPolicyKind | SecretKind | TenantKind | PodKind

  /** Cluster-scoped objects (namespaces) have namespace "". */
  datatype Key = Key(kind: Kind, namespace: string, name: string)

  /**
   * The resource names a quota limits (`corev1.ResourceName` constants):
   * "cpu", "memory", "pods", "limits.cpu", "limits.memory", "requests.cpu",
   * "requests.memory" and "requests.storage".
   */
  datatype ResourceName = Cpu | Memory | Pods | LimitsCpu | LimitsMemory | RequestsCpu | RequestsMemory | RequestsStorage

  /** A parsed `resource.Quantity`, kept as the text it was parsed from. */
  datatype Quantity = Quantity(text: string)

  datatype LabelSelector = LabelSelector(matchLabels: map<string, string>)

  /** A Kubernetes `NetworkPolicyPeer`; only the pod selector is ever set here. */
  datatype PolicyPeer = PolicyPeer(podSelector: Option<LabelSelector>)

  datatype IngressRule = IngressRule(peers: seq<PolicyPeer>)

  datatype EgressRule = EgressRule(peers: seq<PolicyPeer>)

  /** A Kubernetes `NetworkPolicySpec`. */
  datatype NetworkPolicySpec = NetworkPolicySpec(
    podSelector: LabelSelector,
    policyTypes: seq<string>,
    ingress: seq<IngressRule>,
    egress: seq<EgressRule>)

  datatype Container = Container(name: string, image: string)

  datatype PodSpec = PodSpec(initContainers: seq<Container>, containers: seq<Container>)

  /** What distinguishes one kind of object from another, besides its metadata. */
  datatype Body =
    | NamespaceBody
    | QuotaBody(hard: map<ResourceName, Quantity>)
    | PolicyBody(policySpec: NetworkPolicySpec)
    | SecretBody(data: map<string, string>)
    | TenantBody(tenantSpec: TenantSpec, tenantStatus: TenantStatus)
    | PodBody(podSpec: PodSpec, phase: string)

  datatype Object = Object(meta: ObjectMeta, body: Body)

  function KindOf(body: Body): Kind
  {
    match body
    case NamespaceBody => NamespaceKind
    case QuotaBody(_) => ResourceQuotaKind
    case PolicyBody(_) => NetworkPolicyKind
    case SecretBody(_) => SecretKind
    case TenantBody(_, _) => TenantKind
    case PodBody(_, _) => PodKind
  }

  function KeyOf(o: Object): Key
  {
    Key(KindOf(o.body), o.meta.namespace, o.meta.name)
  }

  function TenantObject(t: Tenant): (o: Object)
    ensures KeyOf(o) == Key(TenantKind, t.meta.namespace, t.meta.name)
  {
    Object(t.meta, TenantBody(t.spec, t.status))
  }

  /** The typed view of a stored object; objects of another kind have none. */
  function AsTenant(o: Object): (r: Option<Tenant>)
    ensures r.Some? <==> o.body.TenantBody?
    ensures r.Some? ==> TenantObject(r.value) == o
  {
    if o.body.TenantBody? then Some(Tenant(o.meta, o.body.tenantSpec, o.body.tenantStatus)) else None
  }
}
