/**
 * The provisioning path the command-line tool drives: create a tenant's
 * namespace, quota, network policy and owners secret directly with the
 * typed client, and delete them again. Its object names differ from the
 * controller's ("tenant-resource-quota" and "tenant-network-policy" against
 * "tenant-quota" and "default-deny"), so the two paths never write the same
 * quota or policy. Quantity parsing is an oracle; the client is the store.
 */
module Provisioning {
  import opened Wrappers
  import opened Text
  import opened Meta
  import opened TenantTypes
  import opened Objects
  import opened ClusterStore

  /** `resource.ParseQuantity`: the parsed quantity, or the parser's message. */
  type QuantityParser = string -> Result<Quantity, string>

  /** One quota field: its Go field name (used in the error), the resource it sets, and the text given. */
  datatype QuotaField = QuotaField(field: string, resource: ResourceName, value: string)

  /** The six fields in the order `CreateResource` parses them. */
  function QuotaFields(rq: ResourceQuota): (fs: seq<QuotaField>)
    ensures |fs| == 6
  {
    [ QuotaField("LimitsCPU", LimitsCpu, rq.limitsCpu),
      QuotaField("LimitsMemory", LimitsMemory, rq.limitsMemory),
      QuotaField("RequestsCPU", RequestsCpu, rq.requestsCpu),
      QuotaField("RequestsMemory", RequestsMemory, rq.requestsMemory),
      QuotaField("RequestsStorage", RequestsStorage, rq.requestsStorage),
      QuotaField("Pods", Pods, rq.pods) ]
  }

  /** The index of the first field that does not parse. */
  function FirstInvalid(parse: QuantityParser, fs: seq<QuotaField>): (r: Option<nat>)
    ensures r.Some? ==> r.value < |fs| && parse(fs[r.value].value).Err?
    ensures r.Some? ==> forall j | 0 <= j < r.value :: parse(fs[j].value).Ok?
    ensures r.None? ==> forall j | 0 <= j < |fs| :: parse(fs[j].value).Ok?
  {
    if fs == [] then None
    else if parse(fs[0].value).Err? then Some(0)
    else match FirstInvalid(parse, fs[1..])
      case None => None
      case Some(i) => Some(i + 1)
  }

  /** The first invalid field is the one before which every field parses. */
  lemma {:induction false} FirstInvalidAt(parse: QuantityParser, fs: seq<QuotaField>, i: nat)
    requires i < |fs| && parse(fs[i].value).Err?
    requires forall j | 0 <= j < i :: parse(fs[j].value).Ok?
    ensures FirstInvalid(parse, fs) == Some(i)
  {
    if i > 0 {
      FirstInvalidAt(parse, fs[1..], i - 1);
    }
  }

  /**
   * `CreateResource`'s parses, in the order of `QuotaFields`: the first
   * invalid field is the error; otherwise the hard limits map exactly the
   * six resources to their parsed values.
   */
  function ParseQuota(parse: QuantityParser, rq: ResourceQuota): (r: Result<map<ResourceName, Quantity>, Error>)
    ensures r.Err? ==> r.error.InvalidQuantity?
    ensures r.Ok? ==> r.value.Keys == {LimitsCpu, LimitsMemory, RequestsCpu, RequestsMemory, RequestsStorage, Pods}
  {
    if parse(rq.limitsCpu).Err? then Err(InvalidQuantity("LimitsCPU", rq.limitsCpu))
    else if parse(rq.limitsMemory).Err? then Err(InvalidQuantity("LimitsMemory", rq.limitsMemory))
    else if parse(rq.requestsCpu).Err? then Err(InvalidQuantity("RequestsCPU", rq.requestsCpu))
    else if parse(rq.requestsMemory).Err? then Err(InvalidQuantity("RequestsMemory", rq.requestsMemory))
    else if parse(rq.requestsStorage).Err? then Err(InvalidQuantity("RequestsStorage", rq.requestsStorage))
    else if parse(rq.pods).Err? then Err(InvalidQuantity("Pods", rq.pods))
    else
      Ok(map[
        LimitsCpu := parse(rq.limitsCpu).value,
        LimitsMemory := parse(rq.limitsMemory).value,
        RequestsCpu := parse(rq.requestsCpu).value,
        RequestsMemory := parse(rq.requestsMemory).value,
        RequestsStorage := parse(rq.requestsStorage).value,
        Pods := parse(rq.pods).value])
  }

  /** Every field parses exactly when each of the six values does. */
  lemma AllFieldsParse(parse: QuantityParser, rq: ResourceQuota)
    ensures (forall j | 0 <= j < |QuotaFields(rq)| :: parse(QuotaFields(rq)[j].value).Ok?) <==>
      && parse(rq.limitsCpu).Ok? && parse(rq.limitsMemory).Ok? && parse(rq.requestsCpu).Ok?
      && parse(rq.requestsMemory).Ok? && parse(rq.requestsStorage).Ok? && parse(rq.pods).Ok?
  {
    var fs := QuotaFields(rq);
    assert fs[0].value == rq.limitsCpu && fs[1].value == rq.limitsMemory && fs[2].value == rq.requestsCpu;
    assert fs[3].value == rq.requestsMemory && fs[4].value == rq.requestsStorage && fs[5].value == rq.pods;
  }

  /**
   * The quota fails exactly when some field does not parse, and then it is
   * reported by its first invalid field and that field's text.
   */
  lemma ParseQuotaNamesFirstInvalid(parse: QuantityParser, rq: ResourceQuota)
    ensures ParseQuota(parse, rq).Ok? <==> FirstInvalid(parse, QuotaFields(rq)).None?
    ensures ParseQuota(parse, rq).Err? ==> var i := FirstInvalid(parse, QuotaFields(rq)).value;
      ParseQuota(parse, rq).error == InvalidQuantity(QuotaFields(rq)[i].field, QuotaFields(rq)[i].value)
  {
    var fs := QuotaFields(rq);
    if parse(rq.limitsCpu).Err? {
      FirstInvalidAt(parse, fs, 0);
    } else if parse(rq.limitsMemory).Err? {
      FirstInvalidAt(parse, fs, 1);
    } else if parse(rq.requestsCpu).Err? {
      FirstInvalidAt(parse, fs, 2);
    } else if parse(rq.requestsMemory).Err? {
      FirstInvalidAt(parse, fs, 3);
    } else if parse(rq.requestsStorage).Err? {
      FirstInvalidAt(parse, fs, 4);
    } else if parse(rq.pods).Err? {
      FirstInvalidAt(parse, fs, 5);
    } else {
      AllFieldsParse(parse, rq);
    }
  }

  /** A quota that parses maps each field's resource to the value parsed from that field. */
  lemma ParseQuotaValues(parse: QuantityParser, rq: ResourceQuota)
    requires ParseQuota(parse, rq).Ok?
    ensures forall j | 0 <= j < |QuotaFields(rq)| ::
      var f := QuotaFields(rq)[j];
      f.resource in ParseQuota(parse, rq).value && ParseQuota(parse, rq).value[f.resource] == parse(f.value).value
  {
    var fs := QuotaFields(rq);
    var hard := ParseQuota(parse, rq).value;
    AllFieldsParse(parse, rq);
    assert fs[0].resource == LimitsCpu && fs[1].resource == LimitsMemory && fs[2].resource == RequestsCpu;
    assert fs[3].resource == RequestsMemory && fs[4].resource == RequestsStorage && fs[5].resource == Pods;
    forall j | 0 <= j < |fs| ensures fs[j].resource in hard && hard[fs[j].resource] == parse(fs[j].value).value {
      if j == 0 {} else if j == 1 {} else if j == 2 {} else if j == 3 {} else if j == 4 {} else {}
    }
  }

  /** The namespace the provisioning path writes a tenant's objects to. */
  function TenantNamespace(name: string): string
  {
    "tenant-" + name
  }

  function QuotaKey(ns: string): Key
  {
    Key(ResourceQuotaKind, ns, "tenant-resource-quota")
  }

  function PolicyKey(ns: string): Key
  {
    Key(NetworkPolicyKind, ns, "tenant-network-policy")
  }

  function SecretKey(ns: string): Key
  {
    Key(SecretKind, ns, "owners")
  }

  function CreatedCalls(keys: seq<Key>): (cs: seq<Call>)
    ensures |cs| == |keys|
  {
    if keys == [] then [] else [Created(keys[0])] + CreatedCalls(keys[1..])
  }

  /** The i-th call is the create of the i-th key. */
  lemma {:induction false} CreatedCallsAt(keys: seq<Key>, i: nat)
    requires i < |keys|
    ensures CreatedCalls(keys)[i] == Created(keys[i])
    decreases |keys|
  {
    if i > 0 {
      CreatedCallsAt(keys[1..], i - 1);
    }
  }

  lemma {:induction false} CreatedCallsAppend(ks1: seq<Key>, ks2: seq<Key>)
    ensures CreatedCalls(ks1 + ks2) == CreatedCalls(ks1) + CreatedCalls(ks2)
    decreases |ks1|
  {
    if ks1 == [] {
      assert ks1 + ks2 == ks2;
    } else {
      assert (ks1 + ks2)[1..] == ks1[1..] + ks2;
      CreatedCallsAppend(ks1[1..], ks2);
    }
  }

  /**
   * The store went from `s` to `t` by creates of `created`, in that order,
   * whether or not they succeeded: nothing was removed, and no object
   * outside `created` was added or changed.
   */
  ghost predicate Ran(s: ClusterState, t: ClusterState, created: seq<Key>)
  {
    && t.faults == s.faults
    && t.calls == s.calls + CreatedCalls(created)
    && s.objects.Keys <= t.objects.Keys
    && (forall k | k in t.objects && k !in created :: k in s.objects && t.objects[k] == s.objects[k])
  }

  /** Creates of `ks1`, then creates of `ks2`, are creates of `ks1 + ks2`. */
  lemma RanThen(a: ClusterState, b: ClusterState, c: ClusterState, ks1: seq<Key>, ks2: seq<Key>)
    requires Ran(a, b, ks1) && Ran(b, c, ks2)
    ensures Ran(a, c, ks1 + ks2)
  {
    CreatedCallsAppend(ks1, ks2);
    assert c.calls == (a.calls + CreatedCalls(ks1)) + CreatedCalls(ks2);
    forall k | k in c.objects && k !in ks1 + ks2
      ensures k in a.objects && c.objects[k] == a.objects[k]
    {
      assert k !in ks1 && k !in ks2;
    }
  }

  /** The position of `x` among `names`, or their count when absent. */
  function IndexOf(names: seq<ProvisionStep>, x: ProvisionStep): (i: nat)
    ensures i <= |names|
    ensures i < |names| ==> names[i] == x
    ensures forall j | 0 <= j < i :: names[j] != x
  {
    if names == [] then 0
    else if names[0] == x then 0
    else 1 + IndexOf(names[1..], x)
  }

  /**
   * A run of the create steps named `names`, for `keys`, that ended with
   * `failure`. With no failure every key was created and is stored. When
   * the step at index i failed, the steps before it succeeded and are
   * stored, and the creates issued were exactly those of `keys[..i + 1]`;
   * only an unparsable quota (`quotaUnparsed`) stops before its own create,
   * with `keys[..i]`. Nothing after the failed step was touched.
   */
  ghost predicate Provisioned(s: ClusterState, t: ClusterState, keys: seq<Key>, names: seq<ProvisionStep>, quotaUnparsed: bool, failure: Option<StepFailure>)
    requires |keys| == |names|
  {
    match failure
    case None => Ran(s, t, keys) && forall k <- keys :: k in t.objects
    case Some(f) =>
      var i := IndexOf(names, f.step);
      && i < |keys|
      && Ran(s, t, keys[..if f.step == QuotaCreate && quotaUnparsed then i else i + 1])
      && forall k <- keys[..i] :: k in t.objects
  }

  /** A step that succeeded, followed by a run of further steps, is one run of all the steps. */
  lemma ProvisionedThen(a: ClusterState, b: ClusterState, c: ClusterState, k0: Key, n0: ProvisionStep, keys: seq<Key>, names: seq<ProvisionStep>, u: bool, failure: Option<StepFailure>)
    requires |keys| == |names| && n0 !in names
    requires Provisioned(a, b, [k0], [n0], u, None)
    requires Provisioned(b, c, keys, names, u, failure)
    ensures Provisioned(a, c, [k0] + keys, [n0] + names, u, failure)
  {
    match failure
    case None =>
      RanThen(a, b, c, [k0], keys);
    case Some(f) =>
      ProvisionedThenFailed(a, b, c, k0, n0, keys, names, u, f);
  }

  lemma ProvisionedThenFailed(a: ClusterState, b: ClusterState, c: ClusterState, k0: Key, n0: ProvisionStep, keys: seq<Key>, names: seq<ProvisionStep>, u: bool, f: StepFailure)
    requires |keys| == |names| && n0 !in names
    requires Ran(a, b, [k0]) && k0 in b.objects
    requires Provisioned(b, c, keys, names, u, Some(f))
    ensures Provisioned(a, c, [k0] + keys, [n0] + names, u, Some(f))
  {
    var all, allNames := [k0] + keys, [n0] + names;
    var i := IndexOf(names, f.step);
    var m := if f.step == QuotaCreate && u then i else i + 1;
    IndexOfCons(n0, names, f.step);
    RanThen(a, b, c, [k0], keys[..m]);
    assert [k0] + keys[..m] == all[..m + 1];
    StoredCons(k0, keys, i, b.objects.Keys, c.objects.Keys);
  }

  /** Past a different first step, a step's index is one more than in the rest. */
  lemma IndexOfCons(n0: ProvisionStep, names: seq<ProvisionStep>, x: ProvisionStep)
    requires x != n0
    ensures IndexOf([n0] + names, x) == IndexOf(names, x) + 1
  {
    assert ([n0] + names)[1..] == names;
  }

  /** A stored first key followed by stored keys: the longer prefix is stored. */
  lemma StoredCons(k0: Key, keys: seq<Key>, i: nat, before: set<Key>, after: set<Key>)
    requires i <= |keys| && k0 in before && before <= after
    requires forall k <- keys[..i] :: k in after
    ensures forall k <- ([k0] + keys)[..i + 1] :: k in after
  {
    assert ([k0] + keys)[..i + 1] == [k0] + keys[..i];
  }

  /** A first step that failed is a failed run of any longer list of steps. */
  lemma ProvisionedStop(a: ClusterState, b: ClusterState, k0: Key, n0: ProvisionStep, keys: seq<Key>, names: seq<ProvisionStep>, u: bool, f: StepFailure)
    requires |keys| == |names|
    requires Provisioned(a, b, [k0], [n0], u, Some(f))
    ensures Provisioned(a, b, [k0] + keys, [n0] + names, u, Some(f))
  {
    var all := [k0] + keys;
    assert all[..0] == [k0][..0] && all[..1] == [k0][..1];
  }

  /** Which quota flag a run uses does not matter when no step is the quota's. */
  lemma ProvisionedAnyFlag(s: ClusterState, t: ClusterState, keys: seq<Key>, names: seq<ProvisionStep>, u: bool, failure: Option<StepFailure>)
    requires |keys| == |names| && QuotaCreate !in names
    requires Provisioned(s, t, keys, names, false, failure)
    ensures Provisioned(s, t, keys, names, u, failure)
  {
  }

  /** A create whose error is wrapped with the context of the step. */
  function CreateWrapped(s: ClusterState, o: Object, context: string): (r: (ClusterState, Option<Error>))
    ensures r.0 == CreateStep(s, o).0
    ensures r.1.None? <==> CreateStep(s, o).1.None?
    ensures r.1.Some? ==> r.1.value == Failed(context, CreateStep(s, o).1.value)
    ensures Ran(s, r.0, [KeyOf(o)]) && (r.1.None? ==> KeyOf(o) in r.0.objects)
  {
    var (s1, e) := CreateStep(s, o);
    assert CreatedCalls([KeyOf(o)]) == [Created(KeyOf(o))];
    (s1, if e.Some? then Some(Failed(context, e.value)) else None)
  }

  /** `CreateSecret`: one secret with the given data. */
  function CreateSecretStep(s: ClusterState, ns: string, name: string, data: map<string, string>): (r: (ClusterState, Option<Error>))
    ensures r == CreateWrapped(s, Object(NewMeta(name, ns), SecretBody(data)), "failed to create secret")
    ensures Ran(s, r.0, [Key(SecretKind, ns, name)]) && (r.1.None? ==> Key(SecretKind, ns, name) in r.0.objects)
  {
    CreateWrapped(s, Object(NewMeta(name, ns), SecretBody(data)), "failed to create secret")
  }

  /**
   * `CreateResource`: parse the six quantities in order and create the quota
   * "tenant-resource-quota" from them. A parse error issues no create.
   */
  function CreateResourceStep(s: ClusterState, parse: QuantityParser, ns: string, rq: ResourceQuota): (r: (ClusterState, Option<Error>))
    ensures ParseQuota(parse, rq).Err? ==> r == (s, Some(ParseQuota(parse, rq).error))
    ensures ParseQuota(parse, rq).Ok? ==>
      r == CreateWrapped(s, Object(NewMeta("tenant-resource-quota", ns), QuotaBody(ParseQuota(parse, rq).value)), "failed to create resource quota")
    ensures r.1.None? ==> QuotaKey(ns) in r.0.objects && r.0.objects[QuotaKey(ns)].body == QuotaBody(ParseQuota(parse, rq).value)
    ensures Ran(s, r.0, if ParseQuota(parse, rq).Err? then [] else [QuotaKey(ns)])
  {
    match ParseQuota(parse, rq)
    case Err(e) =>
      assert CreatedCalls([]) == [] && s.calls + [] == s.calls;
      (s, Some(e))
    case Ok(hard) => CreateWrapped(s, Object(NewMeta("tenant-resource-quota", ns), QuotaBody(hard)), "failed to create resource quota")
  }

  /** The label selector of a peer: empty labels select every pod of the namespace. */
  function PeerOf(p: NetworkPolicyPeer): PolicyPeer
  {
    PolicyPeer(Some(LabelSelector(p.pod)))
  }

  /**
   * The Kubernetes form of the project's network policy: the types copied,
   * and each rule turned into a rule with exactly one peer.
   */
  function PolicySpecOf(np: NetworkPolicy): (spec: NetworkPolicySpec)
    ensures spec.podSelector == LabelSelector(np.podSelector)
    ensures spec.policyTypes == np.policyTypes
    ensures |spec.ingress| == |np.ingress| && |spec.egress| == |np.egress|
    ensures forall i | 0 <= i < |np.ingress| :: spec.ingress[i].peers == [PeerOf(np.ingress[i].source)]
    ensures forall i | 0 <= i < |np.egress| :: spec.egress[i].peers == [PeerOf(np.egress[i].destination)]
  {
    NetworkPolicySpec(
      LabelSelector(np.podSelector),
      np.policyTypes,
      seq(|np.ingress|, i requires 0 <= i < |np.ingress| => IngressRule([PeerOf(np.ingress[i].source)])),
      seq(|np.egress|, i requires 0 <= i < |np.egress| => EgressRule([PeerOf(np.egress[i].destination)])))
  }

  /** The policy's selectors, in rule order: what the pods of the namespace may talk to. */
  lemma PolicySpecKeepsSelectors(np: NetworkPolicy)
    ensures var spec := PolicySpecOf(np);
      && (forall i | 0 <= i < |np.ingress| :: spec.ingress[i].peers[0].podSelector == Some(LabelSelector(np.ingress[i].source.pod)))
      && (forall i | 0 <= i < |np.egress| :: spec.egress[i].peers[0].podSelector == Some(LabelSelector(np.egress[i].destination.pod)))
  {
  }

  /** `CreateNetworkPolicy`: the policy "tenant-network-policy" in the namespace. */
  function CreateNetworkPolicyStep(s: ClusterState, ns: string, np: NetworkPolicy): (r: (ClusterState, Option<Error>))
    ensures r == CreateWrapped(s, Object(NewMeta("tenant-network-policy", ns), PolicyBody(PolicySpecOf(np))), "failed to create network policy")
    ensures r.1.None? ==> PolicyKey(ns) in r.0.objects && r.0.objects[PolicyKey(ns)].body == PolicyBody(PolicySpecOf(np))
    ensures Ran(s, r.0, [PolicyKey(ns)])
  {
    CreateWrapped(s, Object(NewMeta("tenant-network-policy", ns), PolicyBody(PolicySpecOf(np))), "failed to create network policy")
  }

  /** The owners secret's payload: Go's `%v` of a string slice, the names between brackets, space-separated. */
  function OwnersText(owners: seq<string>): string
  {
    "[" + Join(owners, ' ') + "]"
  }

  /** The secret's data: the owners under the key "owners". */
  function OwnersData(owners: seq<string>): map<string, string>
  {
    map["owners" := OwnersText(owners)]
  }

  /** What the tool asks to provision. The tier is accepted and not used. */
  datatype CreateRequest = CreateRequest(
    name: string,
    tier: string,
    isolation: string,
    owners: seq<string>,
    quota: ResourceQuota,
    policy: NetworkPolicy)

  /** The four provisioning steps, in the order they run. */
  datatype ProvisionStep = NamespaceCreate | QuotaCreate | PolicyCreate | SecretCreate

  /** The name a failed step is reported under. */
  function StepLabel(step: ProvisionStep): string
  {
    match step
    case NamespaceCreate => "Namespace"
    case QuotaCreate => "ResourceQuota"
    case PolicyCreate => "NetworkPolicy"
    case SecretCreate => "Secret owners"
  }

  /** A step that failed, and its error. */
  datatype StepFailure = StepFailure(step: ProvisionStep, error: Error)

  /** The keys the provisioning steps create, in order; the namespace only for exact "namespace" isolation. */
  function ProvisionKeys(req: CreateRequest): seq<Key>
  {
    var ns := TenantNamespace(req.name);
    (if req.isolation == "namespace" then [NamespaceKey(ns)] else []) + [QuotaKey(ns), PolicyKey(ns), SecretKey(ns)]
  }

  /** The names the steps are reported under, one per key of `ProvisionKeys`. */
  function StepNames(req: CreateRequest): (names: seq<ProvisionStep>)
    ensures |names| == |ProvisionKeys(req)|
  {
    (if req.isolation == "namespace" then [NamespaceCreate] else []) + [QuotaCreate, PolicyCreate, SecretCreate]
  }

  /** The first step: create the namespace, only when isolation is exactly "namespace". */
  function NamespaceStep(s: ClusterState, req: CreateRequest): (r: (ClusterState, Option<Error>))
    ensures req.isolation == "namespace" ==>
      Ran(s, r.0, [NamespaceKey(TenantNamespace(req.name))]) && (r.1.None? ==> NamespaceKey(TenantNamespace(req.name)) in r.0.objects)
    ensures req.isolation != "namespace" ==> r == (s, None)
  {
    if req.isolation == "namespace" then
      var o := Object(NewMeta(TenantNamespace(req.name), ""), NamespaceBody);
      assert CreatedCalls([KeyOf(o)]) == [Created(KeyOf(o))];
      CreateStep(s, o)
    else
      (s, None)
  }

  /** The last step: the owners secret. */
  function SecretStage(s: ClusterState, req: CreateRequest): (r: (ClusterState, Option<StepFailure>))
    ensures r.1.Some? ==> r.1.value.step == SecretCreate
  {
    var (s1, e) := CreateSecretStep(s, TenantNamespace(req.name), "owners", OwnersData(req.owners));
    (s1, if e.Some? then Some(StepFailure(SecretCreate, e.value)) else None)
  }

  /** The policy, then the secret. */
  function PolicyStage(s: ClusterState, req: CreateRequest): (r: (ClusterState, Option<StepFailure>))
    ensures r.1.Some? ==> r.1.value.step in {PolicyCreate, SecretCreate}
  {
    var (s1, e) := CreateNetworkPolicyStep(s, TenantNamespace(req.name), req.policy);
    if e.Some? then (s1, Some(StepFailure(PolicyCreate, e.value)))
    else SecretStage(s1, req)
  }

  /** The quota, then the policy and the secret. */
  function QuotaStage(s: ClusterState, parse: QuantityParser, req: CreateRequest): (r: (ClusterState, Option<StepFailure>))
    ensures r.1.Some? ==> r.1.value.step != NamespaceCreate
  {
    var (s1, e) := CreateResourceStep(s, parse, TenantNamespace(req.name), req.quota);
    if e.Some? then (s1, Some(StepFailure(QuotaCreate, e.value)))
    else PolicyStage(s1, req)
  }

  /**
   * The four create steps of `CreateReconciliation`, stopping at the first
   * failure: the namespace (only for exact "namespace" isolation), the
   * quota, the policy and the owners secret.
   */
  function ProvisionSteps(s: ClusterState, parse: QuantityParser, req: CreateRequest): (r: (ClusterState, Option<StepFailure>))
    ensures r.1.Some? && r.1.value.step == NamespaceCreate ==> req.isolation == "namespace"
  {
    var (s1, e1) := NamespaceStep(s, req);
    if e1.Some? then (s1, Some(StepFailure(NamespaceCreate, e1.value)))
    else QuotaStage(s1, parse, req)
  }

  /** The secret step as a run of one step. */
  lemma SecretStageRuns(s: ClusterState, req: CreateRequest)
    ensures var r := SecretStage(s, req);
      Provisioned(s, r.0, [SecretKey(TenantNamespace(req.name))], [SecretCreate], false, r.1)
  {
    var k := SecretKey(TenantNamespace(req.name));
    assert [k][..1] == [k];
  }

  /** The policy stage stops at a failed policy create, and otherwise goes on to the secret. */
  lemma PolicyStageRuns(s: ClusterState, req: CreateRequest)
    ensures var ns, r := TenantNamespace(req.name), PolicyStage(s, req);
      Provisioned(s, r.0, [PolicyKey(ns), SecretKey(ns)], [PolicyCreate, SecretCreate], false, r.1)
  {
    var ns := TenantNamespace(req.name);
    var (s1, e) := CreateNetworkPolicyStep(s, ns, req.policy);
    assert [PolicyKey(ns)][..1] == [PolicyKey(ns)];
    assert [PolicyKey(ns)] + [SecretKey(ns)] == [PolicyKey(ns), SecretKey(ns)];
    assert [PolicyCreate] + [SecretCreate] == [PolicyCreate, SecretCreate];
    if e.Some? {
      ProvisionedStop(s, s1, PolicyKey(ns), PolicyCreate, [SecretKey(ns)], [SecretCreate], false, StepFailure(PolicyCreate, e.value));
    } else {
      var r := SecretStage(s1, req);
      SecretStageRuns(s1, req);
      ProvisionedThen(s, s1, r.0, PolicyKey(ns), PolicyCreate, [SecretKey(ns)], [SecretCreate], false, r.1);
    }
  }

  /** The quota stage stops at a quota that does not parse or is not created, and otherwise goes on to the policy. */
  lemma QuotaStageRuns(s: ClusterState, parse: QuantityParser, req: CreateRequest)
    ensures var ns, r := TenantNamespace(req.name), QuotaStage(s, parse, req);
      Provisioned(s, r.0, [QuotaKey(ns), PolicyKey(ns), SecretKey(ns)], [QuotaCreate, PolicyCreate, SecretCreate],
        ParseQuota(parse, req.quota).Err?, r.1)
  {
    var ns := TenantNamespace(req.name);
    var (s1, e) := CreateResourceStep(s, parse, ns, req.quota);
    if e.Some? {
      QuotaStops(s, s1, ns, ParseQuota(parse, req.quota).Err?, e.value);
    } else {
      PolicyStageRuns(s1, req);
      QuotaGoesOn(s, s1, PolicyStage(s1, req).0, ns, ParseQuota(parse, req.quota).Err?, PolicyStage(s1, req).1);
    }
  }

  /** A quota step that failed ends the run of the three last steps. */
  lemma QuotaStops(s: ClusterState, s1: ClusterState, ns: string, u: bool, e: Error)
    requires Ran(s, s1, if u then [] else [QuotaKey(ns)])
    ensures Provisioned(s, s1, [QuotaKey(ns), PolicyKey(ns), SecretKey(ns)], [QuotaCreate, PolicyCreate, SecretCreate], u, Some(StepFailure(QuotaCreate, e)))
  {
    var keys := [QuotaKey(ns), PolicyKey(ns), SecretKey(ns)];
    assert keys[..1] == [QuotaKey(ns)] && keys[..0] == [];
  }

  /** A quota step that succeeded, then the policy stage, is the run of the three last steps. */
  lemma QuotaGoesOn(s: ClusterState, s1: ClusterState, t: ClusterState, ns: string, u: bool, failure: Option<StepFailure>)
    requires Ran(s, s1, [QuotaKey(ns)]) && QuotaKey(ns) in s1.objects
    requires Provisioned(s1, t, [PolicyKey(ns), SecretKey(ns)], [PolicyCreate, SecretCreate], false, failure)
    ensures Provisioned(s, t, [QuotaKey(ns), PolicyKey(ns), SecretKey(ns)], [QuotaCreate, PolicyCreate, SecretCreate], u, failure)
  {
    var keys, names := [PolicyKey(ns), SecretKey(ns)], [PolicyCreate, SecretCreate];
    assert [QuotaKey(ns)] + keys == [QuotaKey(ns), PolicyKey(ns), SecretKey(ns)];
    assert [QuotaCreate] + names == [QuotaCreate, PolicyCreate, SecretCreate];
    assert [QuotaKey(ns)][..1] == [QuotaKey(ns)];
    ProvisionedAnyFlag(s1, t, keys, names, u, failure);
    ProvisionedThen(s, s1, t, QuotaKey(ns), QuotaCreate, keys, names, u, failure);
  }

  /**
   * The provisioning steps as one run: with no failure all of
   * `ProvisionKeys` were created in order and are stored; a failure names
   * its step, the creates issued end with that step's (none for an
   * unparsable quota), and nothing after it is touched.
   */
  lemma ProvisionStepsRun(s: ClusterState, parse: QuantityParser, req: CreateRequest)
    ensures var r := ProvisionSteps(s, parse, req);
      Provisioned(s, r.0, ProvisionKeys(req), StepNames(req), ParseQuota(parse, req.quota).Err?, r.1)
  {
    var ns := TenantNamespace(req.name);
    var u := ParseQuota(parse, req.quota).Err?;
    var (s1, e1) := NamespaceStep(s, req);
    if req.isolation == "namespace" {
      assert ProvisionKeys(req) == [NamespaceKey(ns), QuotaKey(ns), PolicyKey(ns), SecretKey(ns)];
      assert StepNames(req) == [NamespaceCreate, QuotaCreate, PolicyCreate, SecretCreate];
      if e1.Some? {
        NamespaceStops(s, s1, ns, u, e1.value);
      } else {
        QuotaStageRuns(s1, parse, req);
        NamespaceGoesOn(s, s1, QuotaStage(s1, parse, req).0, ns, u, QuotaStage(s1, parse, req).1);
      }
    } else {
      assert ProvisionKeys(req) == [QuotaKey(ns), PolicyKey(ns), SecretKey(ns)];
      assert StepNames(req) == [QuotaCreate, PolicyCreate, SecretCreate];
      QuotaStageRuns(s, parse, req);
    }
  }

  /** A namespace step that failed ends the run of all four steps. */
  lemma NamespaceStops(s: ClusterState, s1: ClusterState, ns: string, u: bool, e: Error)
    requires Ran(s, s1, [NamespaceKey(ns)])
    ensures Provisioned(s, s1, [NamespaceKey(ns), QuotaKey(ns), PolicyKey(ns), SecretKey(ns)],
      [NamespaceCreate, QuotaCreate, PolicyCreate, SecretCreate], u, Some(StepFailure(NamespaceCreate, e)))
  {
    var keys := [NamespaceKey(ns), QuotaKey(ns), PolicyKey(ns), SecretKey(ns)];
    assert keys[..1] == [NamespaceKey(ns)] && keys[..0] == [];
  }

  /** A namespace step that succeeded, then the quota stage, is the run of all four steps. */
  lemma NamespaceGoesOn(s: ClusterState, s1: ClusterState, t: ClusterState, ns: string, u: bool, failure: Option<StepFailure>)
    requires Ran(s, s1, [NamespaceKey(ns)]) && NamespaceKey(ns) in s1.objects
    requires Provisioned(s1, t, [QuotaKey(ns), PolicyKey(ns), SecretKey(ns)], [QuotaCreate, PolicyCreate, SecretCreate], u, failure)
    ensures Provisioned(s, t, [NamespaceKey(ns), QuotaKey(ns), PolicyKey(ns), SecretKey(ns)],
      [NamespaceCreate, QuotaCreate, PolicyCreate, SecretCreate], u, failure)
  {
    var keys, names := [QuotaKey(ns), PolicyKey(ns), SecretKey(ns)], [QuotaCreate, PolicyCreate, SecretCreate];
    assert [NamespaceKey(ns)] + keys == [NamespaceKey(ns), QuotaKey(ns), PolicyKey(ns), SecretKey(ns)];
    assert [NamespaceCreate] + names == [NamespaceCreate, QuotaCreate, PolicyCreate, SecretCreate];
    assert [NamespaceKey(ns)][..1] == [NamespaceKey(ns)];
    ProvisionedThen(s, s1, t, NamespaceKey(ns), NamespaceCreate, keys, names, u, failure);
  }

  /** The namespace whose pods are reported after provisioning. */
  const SystemNamespace := "shieldx-platform-system"

  function PhaseOf(o: Object): string
  {
    if o.body.PodBody? then o.body.phase else ""
  }

  /** One status message per pod; the first notification that fails ends the loop with its error. */
  function NotifyPods(s: ClusterState, notifier: Message -> bool, pods: seq<Object>): (r: (ClusterState, Option<Error>))
    ensures r.0.objects == s.objects && r.0.faults == s.faults
    ensures r.1.None? <==> forall p <- pods :: notifier(PodStatus(p.meta.name, PhaseOf(p)))
    decreases |pods|
  {
    if pods == [] then (s, None)
    else
      var (s1, e) := NotifyStep(s, notifier, PodStatus(pods[0].meta.name, PhaseOf(pods[0])));
      if e.Some? then (s1, e)
      else
        var r := NotifyPods(s1, notifier, pods[1..]);
        assert forall p <- pods :: p == pods[0] || p in pods[1..];
        r
  }

  /** The report after provisioning: list the system pods and notify their status. */
  function ReportPods(s: ClusterState, notifier: Message -> bool): (r: (ClusterState, Option<Error>))
    ensures r.0.objects == s.objects && r.0.faults == s.faults
    ensures ListStep(s, PodKind, SystemNamespace).Err? ==> r == (s, Some(ListStep(s, PodKind, SystemNamespace).error))
  {
    match ListStep(s, PodKind, SystemNamespace)
    case Err(e) => (s, Some(e))
    case Ok(pods) => NotifyPods(s, notifier, pods)
  }

  /**
   * `CreateReconciliation` as the code behaves: a failed step is notified
   * and then the notifier's own result is returned, because the step error
   * is shadowed by the notification's.
   */
  function CreateReconciliationAsWritten(s: ClusterState, parse: QuantityParser, notifier: Message -> bool, req: CreateRequest): (r: (ClusterState, Option<Error>))
    ensures ProvisionSteps(s, parse, req).1.Some? ==>
      var f := ProvisionSteps(s, parse, req).1.value;
      r == NotifyStep(ProvisionSteps(s, parse, req).0, notifier, StepFailed(StepLabel(f.step), f.error))
  {
    var (s1, failure) := ProvisionSteps(s, parse, req);
    if failure.Some? then NotifyStep(s1, notifier, StepFailed(StepLabel(failure.value.step), failure.value.error))
    else ReportPods(s1, notifier)
  }

  /**
   * `CreateReconciliation` as intended: a failed step is notified and its
   * error returned, whatever the notification's outcome.
   */
  function CreateReconciliationIntended(s: ClusterState, parse: QuantityParser, notifier: Message -> bool, req: CreateRequest): (r: (ClusterState, Option<Error>))
    ensures ProvisionSteps(s, parse, req).1.Some? ==> r.1 == Some(ProvisionSteps(s, parse, req).1.value.error)
    ensures r.1.None? ==> forall k <- ProvisionKeys(req) :: k in r.0.objects
    ensures r.0 == CreateReconciliationAsWritten(s, parse, notifier, req).0
  {
    var (s1, failure) := ProvisionSteps(s, parse, req);
    if failure.Some? then
      (NotifyStep(s1, notifier, StepFailed(StepLabel(failure.value.step), failure.value.error)).0, Some(failure.value.error))
    else
      ProvisionStepsRun(s, parse, req);
      ReportPods(s1, notifier)
  }

  /**
   * The shadowed error: whenever a step fails and the failure is notified
   * successfully, the code reports success although the tenant was not
   * fully provisioned.
   */
  lemma FailureReportedAsSuccess(s: ClusterState, parse: QuantityParser, notifier: Message -> bool, req: CreateRequest)
    requires ProvisionSteps(s, parse, req).1.Some?
    requires forall m: Message :: notifier(m)
    ensures CreateReconciliationAsWritten(s, parse, notifier, req).1.None?
    ensures CreateReconciliationIntended(s, parse, notifier, req).1.Some?
  {
  }

  /**
   * A concrete case: the tenant's namespace already exists. Creating it
   * fails with AlreadyExists, nothing else is created, and the code returns
   * no error.
   */
  lemma ExistingNamespaceReportedAsSuccess(s: ClusterState, parse: QuantityParser, notifier: Message -> bool, req: CreateRequest)
    requires req.isolation == "namespace"
    requires NamespaceKey(TenantNamespace(req.name)) in s.objects
    requires Fault(CreateVerb, NamespaceKey(TenantNamespace(req.name))) !in s.faults
    requires forall m: Message :: notifier(m)
    ensures CreateReconciliationAsWritten(s, parse, notifier, req).1.None?
    ensures CreateReconciliationIntended(s, parse, notifier, req).1 == Some(AlreadyExists(NamespaceKey(TenantNamespace(req.name))))
    ensures CreateReconciliationAsWritten(s, parse, notifier, req).0.objects == s.objects
  {
    var o := Object(NewMeta(TenantNamespace(req.name), ""), NamespaceBody);
    assert KeyOf(o) == NamespaceKey(TenantNamespace(req.name));
  }

  /** Which objects count as deleted: absent, or marked for deletion and held by finalizers. */
  predicate Gone(s: ClusterState, key: Key)
  {
    key !in s.objects || (s.objects[key].meta.deleting && s.objects[key].meta.finalizers != [])
  }

  /** The index of the first listed object with the given name. */
  function FirstNamed(objs: seq<Object>, name: string): (r: Option<nat>)
    ensures r.Some? ==> r.value < |objs| && objs[r.value].meta.name == name
    ensures r.Some? ==> forall j | 0 <= j < r.value :: objs[j].meta.name != name
    ensures r.None? ==> forall o <- objs :: o.meta.name != name
  {
    if objs == [] then None
    else if objs[0].meta.name == name then Some(0)
    else match FirstNamed(objs[1..], name)
      case None =>
        assert forall o <- objs :: o == objs[0] || o in objs[1..];
        None
      case Some(i) => Some(i + 1)
  }

  /**
   * The namespace of the Tenant to delete: that of the first listed Tenant
   * with the name, across all namespaces, or "" when none matches or the
   * listing fails.
   */
  function TenantNamespaceOf(s: ClusterState, name: string): (ns: string)
    ensures ListStep(s, TenantKind, "").Err? ==> ns == ""
    ensures ListStep(s, TenantKind, "").Ok? && (forall o <- ListStep(s, TenantKind, "").value :: o.meta.name != name) ==> ns == ""
    ensures ListStep(s, TenantKind, "").Ok? && FirstNamed(ListStep(s, TenantKind, "").value, name).Some? ==>
      var tenants := ListStep(s, TenantKind, "").value;
      ns == tenants[FirstNamed(tenants, name).value].meta.namespace
  {
    match ListStep(s, TenantKind, "")
    case Err(_) => ""
    case Ok(tenants) =>
      match FirstNamed(tenants, name)
      case None => ""
      case Some(i) => tenants[i].meta.namespace
  }

  /** Where the Tenant is addressed: in its namespace when one was found, else at cluster scope. */
  function TenantKeyOf(s: ClusterState, name: string): Key
  {
    Key(TenantKind, TenantNamespaceOf(s, name), name)
  }

  /**
   * Best effort: a Tenant that has finalizers is updated with none; a failed
   * read or update changes nothing else.
   */
  function ClearFinalizers(s: ClusterState, key: Key): (r: ClusterState)
    ensures r.faults == s.faults
    ensures WellFormed(s) ==> SameExcept(s.objects, r.objects, key)
    ensures WellFormed(s) && Fault(GetVerb, key) !in s.faults && Fault(UpdateVerb, key) !in s.faults && key in s.objects ==>
      key !in r.objects || r.objects[key].meta.finalizers == []
  {
    match GetStep(s, key)
    case Err(_) => s
    case Ok(u) =>
      if u.meta.finalizers != [] then
        var cleared := Object(u.meta.(finalizers := []), u.body);
        assert WellFormed(s) ==> KeyOf(cleared) == key;
        UpdateStep(s, cleared).0
      else s
  }

  /** One deletion of the cleanup: the key, its name in the notification and the context of its error. */
  datatype DeleteTarget = DeleteTarget(key: Key, step: string, context: string)

  /** The deletions, in order: the Tenant, then the policy, the quota, the secret and the namespace. */
  function DeleteTargets(tenantKey: Key, name: string): (ts: seq<DeleteTarget>)
    ensures |ts| == 5 && ts[0].key == tenantKey
    ensures var ns := TenantNamespace(name);
      ts[1].key == PolicyKey(ns) && ts[2].key == QuotaKey(ns) && ts[3].key == SecretKey(ns) && ts[4].key == NamespaceKey(ns)
  {
    var ns := TenantNamespace(name);
    [ DeleteTarget(tenantKey, "Tenant", "failed to delete Tenant"),
      DeleteTarget(PolicyKey(ns), "NetworkPolicy", "failed to delete NetworkPolicy"),
      DeleteTarget(QuotaKey(ns), "ResourceQuota", "failed to delete ResourceQuota"),
      DeleteTarget(SecretKey(ns), "Secret owners", "failed to delete Secret"),
      DeleteTarget(NamespaceKey(ns), "Namespace", "failed to delete namespace") ]
  }

  /** The index of the first target whose deletion the server refuses. */
  function FirstFaulting(faults: set<Fault>, ts: seq<DeleteTarget>): (r: Option<nat>)
    ensures r.Some? ==> r.value < |ts| && Fault(DeleteVerb, ts[r.value].key) in faults
    ensures r.Some? ==> forall j | 0 <= j < r.value :: Fault(DeleteVerb, ts[j].key) !in faults
    ensures r.None? ==> forall j | 0 <= j < |ts| :: Fault(DeleteVerb, ts[j].key) !in faults
  {
    if ts == [] then None
    else if Fault(DeleteVerb, ts[0].key) in faults then Some(0)
    else match FirstFaulting(faults, ts[1..])
      case None => None
      case Some(i) => Some(i + 1)
  }

  /** The delete calls for the targets, in their order. */
  function DeletedCalls(ts: seq<DeleteTarget>): (cs: seq<Call>)
    ensures |cs| == |ts|
  {
    if ts == [] then [] else [Deleted(ts[0].key)] + DeletedCalls(ts[1..])
  }

  /** The i-th delete call is for the i-th target. */
  lemma {:induction false} DeletedCallsAt(ts: seq<DeleteTarget>, i: nat)
    requires i < |ts|
    ensures DeletedCalls(ts)[i] == Deleted(ts[i].key)
    decreases i
  {
    if i > 0 {
      DeletedCallsAt(ts[1..], i - 1);
    }
  }

  /** The keys of the targets. */
  function TargetKeys(ts: seq<DeleteTarget>): set<Key>
  {
    set t | t in ts :: t.key
  }

  /** How many targets a run deletes: all of them, or those before the first refused one. */
  function Reached(faults: set<Fault>, ts: seq<DeleteTarget>): (n: nat)
    ensures n <= |ts|
  {
    match FirstFaulting(faults, ts)
    case None => |ts|
    case Some(i) => i
  }

  /** The error a refused deletion reports, and the notification sent for it. */
  function RefusedError(t: DeleteTarget): Error
  {
    Failed(t.context, ServerError(DeleteVerb, t.key))
  }

  function RefusedNotice(t: DeleteTarget): Call
  {
    Notified(StepFailed(t.step, ServerError(DeleteVerb, t.key)))
  }

  /**
   * A deletion that tolerates NotFound. Any other error is notified (the
   * notification's own outcome is ignored) and returned, wrapped.
   */
  function DeleteTolerant(s: ClusterState, notifier: Message -> bool, t: DeleteTarget): (r: (ClusterState, Option<Error>))
    ensures r.0.faults == s.faults && SameExcept(s.objects, r.0.objects, t.key)
    ensures r.1.None? <==> Fault(DeleteVerb, t.key) !in s.faults
    ensures r.1.None? ==> Gone(r.0, t.key) && r.0.calls == s.calls + [Deleted(t.key)]
    ensures r.1.Some? ==> r.0.objects == s.objects && r.1.value == RefusedError(t)
    ensures r.1.Some? ==> r.0.calls == s.calls + [Deleted(t.key), RefusedNotice(t)]
    ensures forall k: Key | Gone(s, k) :: Gone(r.0, k)
    ensures forall k: Key | k !in s.objects :: k !in r.0.objects
  {
    var (s1, e) := DeleteStep(s, t.key);
    if e.None? || e.value.NotFound? then (s1, None)
    else (NotifyStep(s1, notifier, StepFailed(t.step, e.value)).0, Some(Failed(t.context, e.value)))
  }

  /**
   * The deletions in order, stopping at the first that the server refuses:
   * that one's error is returned, the targets before it are gone, and no
   * key outside those before it changes.
   */
  function DeleteInOrder(s: ClusterState, notifier: Message -> bool, ts: seq<DeleteTarget>): (r: (ClusterState, Option<Error>))
    ensures r.0.faults == s.faults
    ensures r.1.None? <==> FirstFaulting(s.faults, ts).None?
    ensures forall t <- ts[..Reached(s.faults, ts)] :: Gone(r.0, t.key)
    ensures FirstFaulting(s.faults, ts).None? ==> r.0.calls == s.calls + DeletedCalls(ts)
    ensures FirstFaulting(s.faults, ts).Some? ==>
      var i := FirstFaulting(s.faults, ts).value;
      && r.1 == Some(RefusedError(ts[i]))
      && r.0.calls == s.calls + DeletedCalls(ts[..i + 1]) + [RefusedNotice(ts[i])]
    ensures forall k: Key | k !in TargetKeys(ts[..Reached(s.faults, ts)]) :: k in r.0.objects <==> k in s.objects
    ensures forall k: Key | k !in TargetKeys(ts[..Reached(s.faults, ts)]) && k in s.objects :: r.0.objects[k] == s.objects[k]
    ensures forall k: Key | Gone(s, k) :: Gone(r.0, k)
    ensures forall k: Key | k !in s.objects :: k !in r.0.objects
    decreases |ts|
  {
    if ts == [] then
      assert s.calls + [] == s.calls;
      (s, None)
    else
      var (s1, e) := DeleteTolerant(s, notifier, ts[0]);
      if e.Some? then
        DeleteStops(s, notifier, ts);
        (s1, e)
      else
        var r := DeleteInOrder(s1, notifier, ts[1..]);
        DeleteGoesOn(s, notifier, ts, r);
        r
  }

  /** What `DeleteInOrder` promises of a run `r` from `s` over `ts`, gathered for the step lemmas. */
  ghost predicate DeletedInOrder(s: ClusterState, r: (ClusterState, Option<Error>), ts: seq<DeleteTarget>)
  {
    DeleteRunCalls(s, r, ts) && DeleteRunObjects(s, r.0, ts)
  }

  /** The outcome and the calls of a run: it stops at the first refused target. */
  ghost predicate DeleteRunCalls(s: ClusterState, r: (ClusterState, Option<Error>), ts: seq<DeleteTarget>)
  {
    && r.0.faults == s.faults
    && (r.1.None? <==> FirstFaulting(s.faults, ts).None?)
    && (FirstFaulting(s.faults, ts).None? ==> r.0.calls == s.calls + DeletedCalls(ts))
    && (FirstFaulting(s.faults, ts).Some? ==>
          var i := FirstFaulting(s.faults, ts).value;
          && r.1 == Some(RefusedError(ts[i]))
          && r.0.calls == s.calls + DeletedCalls(ts[..i + 1]) + [RefusedNotice(ts[i])])
  }

  /** The store after a run: the targets reached are gone, and no other key changed. */
  ghost predicate DeleteRunObjects(s: ClusterState, t: ClusterState, ts: seq<DeleteTarget>)
  {
    && (forall x <- ts[..Reached(s.faults, ts)] :: Gone(t, x.key))
    && (forall k: Key | k !in TargetKeys(ts[..Reached(s.faults, ts)]) :: k in t.objects <==> k in s.objects)
    && (forall k: Key | k !in TargetKeys(ts[..Reached(s.faults, ts)]) && k in s.objects :: t.objects[k] == s.objects[k])
    && (forall k: Key | Gone(s, k) :: Gone(t, k))
    && (forall k: Key | k !in s.objects :: k !in t.objects)
  }

  /** A refused first target ends the run there. */
  lemma DeleteStops(s: ClusterState, notifier: Message -> bool, ts: seq<DeleteTarget>)
    requires ts != [] && DeleteTolerant(s, notifier, ts[0]).1.Some?
    ensures DeletedInOrder(s, DeleteTolerant(s, notifier, ts[0]), ts)
  {
    assert ts[..1] == [ts[0]] && ts[..0] == [] && TargetKeys([]) == {};
    assert DeletedCalls([ts[0]]) == [Deleted(ts[0].key)];
  }

  /** A first target deleted, then a run over the rest, is a run over all the targets. */
  lemma DeleteGoesOn(s: ClusterState, notifier: Message -> bool, ts: seq<DeleteTarget>, r: (ClusterState, Option<Error>))
    requires ts != [] && DeleteTolerant(s, notifier, ts[0]).1.None?
    requires DeletedInOrder(DeleteTolerant(s, notifier, ts[0]).0, r, ts[1..])
    ensures DeletedInOrder(s, r, ts)
  {
    var s1 := DeleteTolerant(s, notifier, ts[0]).0;
    DeleteGoesOnCalls(s, s1, r, ts);
    DeleteGoesOnObjects(s, s1, r.0, ts);
  }

  lemma DeleteGoesOnCalls(s: ClusterState, s1: ClusterState, r: (ClusterState, Option<Error>), ts: seq<DeleteTarget>)
    requires ts != [] && Fault(DeleteVerb, ts[0].key) !in s.faults
    requires s1.faults == s.faults && s1.calls == s.calls + [Deleted(ts[0].key)]
    requires DeleteRunCalls(s1, r, ts[1..])
    ensures DeleteRunCalls(s, r, ts)
  {
    FirstFaultingStep(s.faults, ts);
    DeleteCallsStep(s.calls, s1.calls, r.0.calls, s.faults, ts);
  }

  lemma DeleteGoesOnObjects(s: ClusterState, s1: ClusterState, t: ClusterState, ts: seq<DeleteTarget>)
    requires ts != [] && Fault(DeleteVerb, ts[0].key) !in s.faults
    requires s1.faults == s.faults && SameExcept(s.objects, s1.objects, ts[0].key) && Gone(s1, ts[0].key)
    requires forall k: Key | Gone(s, k) :: Gone(s1, k)
    requires forall k: Key | k !in s.objects :: k !in s1.objects
    requires DeleteRunObjects(s1, t, ts[1..])
    ensures DeleteRunObjects(s, t, ts)
  {
    ReachedStep(s.faults, ts);
    TargetKeysStep(s.faults, ts);
  }

  /** Past a target that is not refused, the first refused one is that of the rest, one place later. */
  lemma FirstFaultingStep(faults: set<Fault>, ts: seq<DeleteTarget>)
    requires ts != [] && Fault(DeleteVerb, ts[0].key) !in faults
    ensures FirstFaulting(faults, ts).None? <==> FirstFaulting(faults, ts[1..]).None?
    ensures FirstFaulting(faults, ts).Some? ==> FirstFaulting(faults, ts).value == FirstFaulting(faults, ts[1..]).value + 1
  {
  }

  /** Past a target that is not refused, a run reaches one target further than over the rest. */
  lemma ReachedStep(faults: set<Fault>, ts: seq<DeleteTarget>)
    requires ts != [] && Fault(DeleteVerb, ts[0].key) !in faults
    ensures FirstFaulting(faults, ts).None? <==> FirstFaulting(faults, ts[1..]).None?
    ensures FirstFaulting(faults, ts).Some? ==> FirstFaulting(faults, ts).value == FirstFaulting(faults, ts[1..]).value + 1
    ensures Reached(faults, ts) == Reached(faults, ts[1..]) + 1
    ensures ts[..Reached(faults, ts)] == [ts[0]] + ts[1..][..Reached(faults, ts[1..])]
  {
  }

  /** The calls of one successful deletion followed by those of the rest are the calls of the run over all the targets. */
  lemma DeleteCallsStep(before: seq<Call>, mid: seq<Call>, after: seq<Call>, faults: set<Fault>, ts: seq<DeleteTarget>)
    requires ts != [] && Fault(DeleteVerb, ts[0].key) !in faults
    requires mid == before + [Deleted(ts[0].key)]
    requires FirstFaulting(faults, ts[1..]).None? ==> after == mid + DeletedCalls(ts[1..])
    requires FirstFaulting(faults, ts[1..]).Some? ==>
      var i := FirstFaulting(faults, ts[1..]).value;
      after == mid + DeletedCalls(ts[1..][..i + 1]) + [RefusedNotice(ts[1..][i])]
    ensures FirstFaulting(faults, ts).None? ==> after == before + DeletedCalls(ts)
    ensures FirstFaulting(faults, ts).Some? ==>
      var i := FirstFaulting(faults, ts).value;
      after == before + DeletedCalls(ts[..i + 1]) + [RefusedNotice(ts[i])]
  {
    FirstFaultingStep(faults, ts);
    if FirstFaulting(faults, ts).Some? {
      var j := FirstFaulting(faults, ts[1..]).value;
      StoppedCallsStep(before, after, ts, j);
    } else {
      var x := DeletedCalls(ts[1..]);
      assert DeletedCalls(ts) == [Deleted(ts[0].key)] + x;
      assert before + [Deleted(ts[0].key)] + x == before + ([Deleted(ts[0].key)] + x);
    }
  }

  /** A run of the rest that stopped at its j-th target is, after one more deletion in front, a run stopped at the (j+1)-th. */
  lemma StoppedCallsStep(before: seq<Call>, after: seq<Call>, ts: seq<DeleteTarget>, j: nat)
    requires j + 1 < |ts|
    requires after == before + [Deleted(ts[0].key)] + DeletedCalls(ts[1..][..j + 1]) + [RefusedNotice(ts[1..][j])]
    ensures after == before + DeletedCalls(ts[..j + 2]) + [RefusedNotice(ts[j + 1])]
  {
    var head := ts[..j + 2];
    assert head[0] == ts[0] && head[1..] == ts[1..][..j + 1];
    var d, x, n := [Deleted(ts[0].key)], DeletedCalls(ts[1..][..j + 1]), [RefusedNotice(ts[j + 1])];
    assert DeletedCalls(head) == d + x;
    assert before + d + x + n == before + (d + x) + n;
  }

  /** The keys a run may change: those of the targets it deleted. */
  lemma TargetKeysStep(faults: set<Fault>, ts: seq<DeleteTarget>)
    requires ts != [] && Fault(DeleteVerb, ts[0].key) !in faults
    ensures TargetKeys(ts[..Reached(faults, ts)]) == {ts[0].key} + TargetKeys(ts[1..][..Reached(faults, ts[1..])])
  {
    ReachedStep(faults, ts);
  }

  /**
   * `DeleleteReconciliation`: find the Tenant's namespace, clear its
   * finalizers, then delete the Tenant, the policy, the quota, the secret
   * and the namespace in that order. The first deletion the server refuses
   * ends the run with its error; the run succeeds exactly when none is
   * refused, and then every target is gone.
   */
  function DeleteReconciliationSpec(s: ClusterState, notifier: Message -> bool, name: string): (r: (ClusterState, Option<Error>))
    ensures r.0.faults == s.faults
    ensures var ts := DeleteTargets(TenantKeyOf(s, name), name);
      r.1.None? <==> FirstFaulting(s.faults, ts).None?
    ensures r.1.None? ==> forall t <- DeleteTargets(TenantKeyOf(s, name), name) :: Gone(r.0, t.key)
    ensures var ts := DeleteTargets(TenantKeyOf(s, name), name);
      FirstFaulting(s.faults, ts).Some? ==> r.1 == Some(RefusedError(ts[FirstFaulting(s.faults, ts).value]))
  {
    var key := TenantKeyOf(s, name);
    DeleteInOrder(ClearFinalizers(s, key), notifier, DeleteTargets(key, name))
  }

  /**
   * The calls of the cleanup after the finalizers are cleared: the deletes
   * of all five targets in order, or, when target i is refused, those of
   * targets 0 to i and then its notification.
   */
  lemma DeleteReconciliationCalls(s: ClusterState, notifier: Message -> bool, name: string)
    ensures var ts := DeleteTargets(TenantKeyOf(s, name), name);
      var cleared := ClearFinalizers(s, TenantKeyOf(s, name));
      var r := DeleteReconciliationSpec(s, notifier, name);
      && (FirstFaulting(s.faults, ts).Some? ==>
            var i := FirstFaulting(s.faults, ts).value;
            r.0.calls == cleared.calls + DeletedCalls(ts[..i + 1]) + [RefusedNotice(ts[i])])
      && (FirstFaulting(s.faults, ts).None? ==> r.0.calls == cleared.calls + DeletedCalls(ts))
  {
  }

  /**
   * With no server errors the cleanup succeeds, and the Tenant it addressed
   * is removed outright: its finalizers were cleared before the delete.
   */
  lemma DeletionWithoutFaultsRemovesTenant(s: ClusterState, notifier: Message -> bool, name: string)
    requires WellFormed(s) && s.faults == {}
    ensures DeleteReconciliationSpec(s, notifier, name).1.None?
    ensures TenantKeyOf(s, name) !in DeleteReconciliationSpec(s, notifier, name).0.objects
  {
    var key := TenantKeyOf(s, name);
    var ts := DeleteTargets(key, name);
    var s1 := ClearFinalizers(s, key);
    assert key !in s1.objects || s1.objects[key].meta.finalizers == [] by {
      if key !in s.objects {
        assert key !in s1.objects;
      }
    }
    var (s2, e) := DeleteTolerant(s1, notifier, ts[0]);
    assert key !in s2.objects;
  }

  /** `CreateSecret` against the client. */
  method CreateSecret(c: Cluster, ns: string, name: string, data: map<string, string>) returns (err: Option<Error>)
    modifies c
    ensures (c.State(), err) == CreateSecretStep(old(c.State()), ns, name, data)
  {
    err := c.Create(Object(NewMeta(name, ns), SecretBody(data)));
    if err.Some? {
      err := Some(Failed("failed to create secret", err.value));
    }
  }

  /** `CreateResource` against the client: the parses, then one create. */
  method CreateResource(c: Cluster, parse: QuantityParser, ns: string, rq: ResourceQuota) returns (err: Option<Error>)
    modifies c
    ensures (c.State(), err) == CreateResourceStep(old(c.State()), parse, ns, rq)
  {
    var hard := ParseQuota(parse, rq);
    if hard.Err? {
      return Some(hard.error);
    }
    err := c.Create(Object(NewMeta("tenant-resource-quota", ns), QuotaBody(hard.value)));
    if err.Some? {
      err := Some(Failed("failed to create resource quota", err.value));
    }
  }

  /** The policy loops of `CreateNetworkPolicy`: the types copied, and one single-peer rule per rule. */
  method BuildPolicySpec(np: NetworkPolicy) returns (spec: NetworkPolicySpec)
    ensures spec == PolicySpecOf(np)
  {
    var policyTypes: seq<string> := [];
    for i := 0 to |np.policyTypes|
      invariant policyTypes == np.policyTypes[..i]
    {
      policyTypes := policyTypes + [np.policyTypes[i]];
    }
    var ingress: seq<IngressRule> := [];
    for i := 0 to |np.ingress|
      invariant |ingress| == i
      invariant forall j | 0 <= j < i :: ingress[j] == IngressRule([PeerOf(np.ingress[j].source)])
    {
      ingress := ingress + [IngressRule([PeerOf(np.ingress[i].source)])];
    }
    var egress: seq<EgressRule> := [];
    for i := 0 to |np.egress|
      invariant |egress| == i
      invariant forall j | 0 <= j < i :: egress[j] == EgressRule([PeerOf(np.egress[j].destination)])
    {
      egress := egress + [EgressRule([PeerOf(np.egress[i].destination)])];
    }
    assert policyTypes == np.policyTypes;
    spec := NetworkPolicySpec(LabelSelector(np.podSelector), policyTypes, ingress, egress);
  }

  /** `CreateNetworkPolicy` against the client. */
  method CreateNetworkPolicy(c: Cluster, ns: string, np: NetworkPolicy) returns (err: Option<Error>)
    modifies c
    ensures (c.State(), err) == CreateNetworkPolicyStep(old(c.State()), ns, np)
  {
    var spec := BuildPolicySpec(np);
    err := c.Create(Object(NewMeta("tenant-network-policy", ns), PolicyBody(spec)));
    if err.Some? {
      err := Some(Failed("failed to create network policy", err.value));
    }
  }

  /** The four create steps of `CreateReconciliation`, stopping at the first failure. */
  method ProvisionObjects(c: Cluster, parse: QuantityParser, req: CreateRequest) returns (failure: Option<StepFailure>)
    modifies c
    ensures (c.State(), failure) == ProvisionSteps(old(c.State()), parse, req)
  {
    var ns := TenantNamespace(req.name);
    if req.isolation == "namespace" {
      var err := c.Create(Object(NewMeta(ns, ""), NamespaceBody));
      if err.Some? {
        return Some(StepFailure(NamespaceCreate, err.value));
      }
    }
    var err := CreateResource(c, parse, ns, req.quota);
    if err.Some? {
      return Some(StepFailure(QuotaCreate, err.value));
    }
    err := CreateNetworkPolicy(c, ns, req.policy);
    if err.Some? {
      return Some(StepFailure(PolicyCreate, err.value));
    }
    err := CreateSecret(c, ns, "owners", OwnersData(req.owners));
    if err.Some? {
      return Some(StepFailure(SecretCreate, err.value));
    }
    failure := None;
  }

  /** The report after provisioning: list the system pods, then notify each one's status until a notification fails. */
  method ReportPodStatuses(c: Cluster, notifier: Message -> bool) returns (err: Option<Error>)
    modifies c
    ensures (c.State(), err) == ReportPods(old(c.State()), notifier)
  {
    var listed := c.List(PodKind, SystemNamespace);
    if listed.Err? {
      return Some(listed.error);
    }
    var pods := listed.value;
    ghost var target := NotifyPods(c.State(), notifier, pods);
    for i := 0 to |pods|
      invariant NotifyPods(c.State(), notifier, pods[i..]) == target
    {
      assert pods[i..][0] == pods[i] && pods[i..][1..] == pods[i + 1..];
      err := c.CallNotifier(notifier, PodStatus(pods[i].meta.name, PhaseOf(pods[i])));
      if err.Some? {
        return;
      }
    }
    err := None;
  }

  /**
   * `CreateReconciliation` against the client, as written: a failed step's
   * error is replaced by the outcome of notifying it.
   */
  method CreateReconciliation(c: Cluster, parse: QuantityParser, notifier: Message -> bool, req: CreateRequest) returns (err: Option<Error>)
    modifies c
    ensures (c.State(), err) == CreateReconciliationAsWritten(old(c.State()), parse, notifier, req)
  {
    var failure := ProvisionObjects(c, parse, req);
    if failure.Some? {
      err := c.CallNotifier(notifier, StepFailed(StepLabel(failure.value.step), failure.value.error));
      return;
    }
    err := ReportPodStatuses(c, notifier);
  }

  /** The namespace search of `DeleleteReconciliation`: list, retry once on error, take the first match. */
  method FindTenantNamespace(c: Cluster, name: string) returns (tenantNs: string)
    ensures tenantNs == TenantNamespaceOf(c.State(), name)
  {
    tenantNs := "";
    var listed := c.List(TenantKind, "");
    if listed.Err? {
      // The retry across all namespaces is the same request in this store.
      listed := c.List(TenantKind, "");
    }
    if listed.Ok? {
      var tenants := listed.value;
      var i := 0;
      while i < |tenants|
        invariant 0 <= i <= |tenants|
        invariant tenantNs == ""
        invariant forall j | 0 <= j < i :: tenants[j].meta.name != name
      {
        if tenants[i].meta.name == name {
          assert FirstNamed(tenants, name) == Some(i);
          tenantNs := tenants[i].meta.namespace;
          return;
        }
        i := i + 1;
      }
    }
  }

  /** The best-effort finalizer removal: errors of the read and of the update are ignored. */
  method ClearTenantFinalizers(c: Cluster, key: Key)
    modifies c
    ensures c.State() == ClearFinalizers(old(c.State()), key)
  {
    var got := c.Get(key);
    if got.Ok? && got.value.meta.finalizers != [] {
      var _ := c.Update(Object(got.value.meta.(finalizers := []), got.value.body));
    }
  }

  /** `DeleleteReconciliation` against the client. */
  method DeleteReconciliation(c: Cluster, notifier: Message -> bool, name: string) returns (err: Option<Error>)
    modifies c
    ensures (c.State(), err) == DeleteReconciliationSpec(old(c.State()), notifier, name)
  {
    var tenantNs := FindTenantNamespace(c, name);
    var key := Key(TenantKind, tenantNs, name);
    ClearTenantFinalizers(c, key);
    err := DeleteEach(c, notifier, DeleteTargets(key, name));
  }

  /** The deletion loop: each target in turn, stopping at the first error that is not NotFound. */
  method DeleteEach(c: Cluster, notifier: Message -> bool, targets: seq<DeleteTarget>) returns (err: Option<Error>)
    modifies c
    ensures (c.State(), err) == DeleteInOrder(old(c.State()), notifier, targets)
  {
    ghost var target := DeleteInOrder(c.State(), notifier, targets);
    for i := 0 to |targets|
      invariant DeleteInOrder(c.State(), notifier, targets[i..]) == target
    {
      assert targets[i..][0] == targets[i] && targets[i..][1..] == targets[i + 1..];
      err := c.Delete(targets[i].key);
      if err.Some? && !err.value.NotFound? {
        var _ := c.CallNotifier(notifier, StepFailed(targets[i].step, err.value));
        return Some(Failed(targets[i].context, err.value));
      }
    }
    err := None;
  }
}
