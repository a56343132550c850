/**
 * What one `Reconcile` of a Tenant does to the cluster, as functions on the
 * store's state: the three upserts of the tenant's namespace, quota and
 * default-deny policy, and for namespace-isolated tenants the back-reference
 * from the Tenant to its Namespace. The lemmas say when it stops, what it
 * never touches, and that a second run after a successful one writes nothing.
 */
module Convergence {
  import opened Wrappers
  import opened Meta
  import opened TenantTypes
  import opened Objects
  import opened ClusterStore
  import opened ControllerUtil

  const TenantApiVersion := "platform.shieldx.io/v1alpha1"

  /** The namespace a tenant's objects live in. */
  function NamespaceName(tenantName: string): (ns: string)
    ensures |ns| == |tenantName| + 7 && ns[7..] == tenantName
  {
    "tenant-" + tenantName
  }

  lemma NamespaceNameInjective(a: string, b: string)
    ensures NamespaceName(a) == NamespaceName(b) ==> a == b
  {
    if NamespaceName(a) == NamespaceName(b) {
      assert a == NamespaceName(a)[7..];
    }
  }

  /** The Tenant as the owner of the objects it manages. */
  function OwnerOf(t: Tenant): (owner: Owner)
    ensures owner.name == t.meta.name && owner.namespace == t.meta.namespace && owner.uid == t.meta.uid
    ensures owner.apiVersion == TenantApiVersion && owner.kind == "Tenant"
  {
    Owner(TenantApiVersion, "Tenant", t.meta.name, t.meta.namespace, t.meta.uid)
  }

  /** The quota every tenant gets from the controller. */
  const DefaultHard: map<ResourceName, Quantity> := map[Cpu := Quantity("4"), Memory := Quantity("8Gi"), Pods := Quantity("20")]

  /** Deny all traffic: every pod selected, both directions, no rule admitting anything. */
  const DenyAllSpec := NetworkPolicySpec(LabelSelector(map[]), ["Ingress", "Egress"], [], [])

  /** The three objects the controller manages for a tenant. */
  datatype Child = NamespaceChild | QuotaChild | PolicyChild

  /** The object the controller starts from: only its key is set. */
  function Template(t: Tenant, child: Child): (o: Object)
    ensures child.NamespaceChild? ==> KeyOf(o) == NamespaceKey(NamespaceName(t.meta.name))
    ensures child.QuotaChild? ==> KeyOf(o) == Key(ResourceQuotaKind, NamespaceName(t.meta.name), "tenant-quota")
    ensures child.PolicyChild? ==> KeyOf(o) == Key(NetworkPolicyKind, NamespaceName(t.meta.name), "default-deny")
  {
    match child
    case NamespaceChild => Object(NewMeta(NamespaceName(t.meta.name), ""), NamespaceBody)
    case QuotaChild => Object(NewMeta("tenant-quota", NamespaceName(t.meta.name)), QuotaBody(map[]))
    case PolicyChild => Object(NewMeta("default-deny", NamespaceName(t.meta.name)), PolicyBody(NetworkPolicySpec(LabelSelector(map[]), [], [], [])))
  }

  /** The data each mutate closure captures. */
  datatype Mutation =
    | LabelNamespace(owner: Owner, tenantName: string)
    | FixQuota(owner: Owner)
    | DenyAll(owner: Owner)

  function MutationOf(t: Tenant, child: Child): Mutation
  {
    match child
    case NamespaceChild => LabelNamespace(OwnerOf(t), t.meta.name)
    case QuotaChild => FixQuota(OwnerOf(t))
    case PolicyChild => DenyAll(OwnerOf(t))
  }

  /**
   * The body of a mutate closure: overwrite the managed field, then make the
   * tenant the controller. Nothing else about the object changes.
   */
  function Mutate(m: Mutation, o: Object): (r: Result<Object, Error>)
    ensures r.Ok? ==> HasController(r.value, m.owner)
    ensures r.Ok? && m.LabelNamespace? ==>
      r.value.meta.labels == o.meta.labels["tenant" := m.tenantName] && r.value.body == o.body
    ensures r.Ok? && m.FixQuota? ==> r.value.body == QuotaBody(DefaultHard) && r.value.meta.labels == o.meta.labels
    ensures r.Ok? && m.DenyAll? ==> r.value.body == PolicyBody(DenyAllSpec) && r.value.meta.labels == o.meta.labels
    ensures r.Ok? ==> r.value.meta == o.meta.(labels := r.value.meta.labels, ownerReferences := r.value.meta.ownerReferences)
  {
    SetControllerReference(m.owner, Managed(m, o))
  }

  /** The managed field overwritten. */
  function Managed(m: Mutation, o: Object): Object
  {
    match m
    case LabelNamespace(_, name) => Object(o.meta.(labels := o.meta.labels["tenant" := name]), o.body)
    case FixQuota(_) => Object(o.meta, QuotaBody(DefaultHard))
    case DenyAll(_) => Object(o.meta, PolicyBody(DenyAllSpec))
  }

  /** The kind of object each closure is written for. */
  function ManagedKind(m: Mutation): Kind
  {
    match m
    case LabelNamespace(_, _) => NamespaceKind
    case FixQuota(_) => ResourceQuotaKind
    case DenyAll(_) => NetworkPolicyKind
  }

  /** The closure handed to CreateOrUpdate. */
  function MutateFor(m: Mutation): Object -> Result<Object, Error>
  {
    o => Mutate(m, o)
  }

  /**
   * The closures are idempotent, keep the object's key, uid, deletion state
   * and finalizers, and do not look at the uid or deletion state.
   */
  lemma MutateStable(m: Mutation, o: Object, u: Uid)
    requires KindOf(o.body) == ManagedKind(m)
    requires Mutate(m, o).Ok?
    ensures var x := Mutate(m, o).value;
      && KeyOf(x) == KeyOf(o) && x.meta.uid == o.meta.uid && x.meta.deleting == o.meta.deleting
      && x.meta.finalizers == o.meta.finalizers
      && Mutate(m, x) == Ok(x)
      && Mutate(m, Stamp(o, u)) == Ok(Stamp(x, u))
  {
    var x := Mutate(m, o).value;
    assert Managed(m, x) == x by {
      match m
      case LabelNamespace(_, name) =>
        assert x.meta.labels["tenant" := name] == x.meta.labels;
      case FixQuota(_) =>
      case DenyAll(_) =>
    }
    SetControllerReferenceIdempotent(m.owner, Managed(m, o));
    assert Mutate(m, x) == Ok(x);
    assert Managed(m, Stamp(o, u)) == Stamp(Managed(m, o), u);
    SetControllerReferenceStamp(m.owner, Managed(m, o), u);
  }

  /** Setting the controller does not depend on the uid or deletion state of the object. */
  lemma SetControllerReferenceStamp(owner: Owner, o: Object, u: Uid)
    ensures SetControllerReference(owner, Stamp(o, u)) ==
      if SetControllerReference(owner, o).Ok? then Ok(Stamp(SetControllerReference(owner, o).value, u))
      else SetControllerReference(owner, o)
  {
  }

  /** A mutation that fails fails on the stamped object too, with the same error. */
  lemma MutateFailureStable(m: Mutation, o: Object, u: Uid)
    requires Mutate(m, o).Err?
    ensures Mutate(m, Stamp(o, u)) == Mutate(m, o)
  {
    assert Managed(m, Stamp(o, u)) == Stamp(Managed(m, o), u);
  }

  /** One `ensure*` helper: CreateOrUpdate of the child with its closure; the operation result is dropped. */
  function EnsureStep(s: ClusterState, t: Tenant, child: Child): (r: (ClusterState, Option<Error>))
    ensures SameExcept(s.objects, r.0.objects, KeyOf(Template(t, child)))
    ensures r.0.faults == s.faults
    ensures r.1.Some? ==> r.0.objects == s.objects
    ensures WritesOnly(s, r.0, {KeyOf(Template(t, child))})
  {
    var (s1, res) := CreateOrUpdateStep(s, Template(t, child), MutateFor(MutationOf(t, child)));
    WritesOnlyOne(s, s1, KeyOf(Template(t, child)));
    (s1, if res.Err? then Some(res.error) else None)
  }

  /** A call that writes one of `keys`. */
  predicate WriteTo(c: Call, keys: set<Key>)
  {
    (c.Created? || c.Updated? || c.Deleted?) && c.key in keys
  }

  /** Going from `a` to `b` only appended calls, each a write to one of `keys`. */
  predicate WritesOnly(a: ClusterState, b: ClusterState, keys: set<Key>)
  {
    && |a.calls| <= |b.calls| && b.calls[..|a.calls|] == a.calls
    && forall i | |a.calls| <= i < |b.calls| :: WriteTo(b.calls[i], keys)
  }

  /** At most one create or update of `key` appended is a write to `key` only. */
  lemma WritesOnlyOne(a: ClusterState, b: ClusterState, key: Key)
    requires b.calls == a.calls || b.calls == a.calls + [Created(key)] || b.calls == a.calls + [Updated(key)]
    ensures WritesOnly(a, b, {key})
  {
    assert b.calls[..|a.calls|] == a.calls;
  }

  lemma WritesOnlyTrans(a: ClusterState, b: ClusterState, c: ClusterState, k1: set<Key>, k2: set<Key>)
    requires WritesOnly(a, b, k1) && WritesOnly(b, c, k2)
    ensures WritesOnly(a, c, k1 + k2)
  {
    forall i | |a.calls| <= i < |c.calls| ensures WriteTo(c.calls[i], k1 + k2) {
      if i < |b.calls| {
        assert c.calls[i] == b.calls[i];
      }
    }
  }

  /** The managed child is stored under its key and is already what its closure makes of it. */
  predicate Settled(s: ClusterState, t: Tenant, child: Child)
  {
    var key := KeyOf(Template(t, child));
    key in s.objects && KeyOf(s.objects[key]) == key && Mutate(MutationOf(t, child), s.objects[key]) == Ok(s.objects[key])
  }

  /** A fault-free ensure step that creates the child leaves it settled and the store well formed. */
  lemma CreatedSettles(s: ClusterState, t: Tenant, child: Child)
    requires s.faults == {} && WellFormed(s)
    requires CreateOrUpdateStep(s, Template(t, child), MutateFor(MutationOf(t, child))).1 == Ok(OperationCreated)
    ensures Settled(EnsureStep(s, t, child).0, t, child)
    ensures WellFormed(EnsureStep(s, t, child).0)
  {
    var tmpl := Template(t, child);
    var key := KeyOf(tmpl);
    var m := MutationOf(t, child);
    var x := MutateFor(m)(tmpl).value;
    assert MutateFor(m)(tmpl) == Mutate(m, tmpl);
    MutateStable(m, tmpl, s.nextUid);
    WritesPreserveWellFormed(s, x, key);
    assert EnsureStep(s, t, child).0.objects[key] == Stamp(x, s.nextUid);
  }

  /** A fault-free ensure step that updates the child leaves it settled and the store well formed. */
  lemma UpdatedSettles(s: ClusterState, t: Tenant, child: Child)
    requires s.faults == {} && WellFormed(s)
    requires CreateOrUpdateStep(s, Template(t, child), MutateFor(MutationOf(t, child))).1 == Ok(OperationUpdated)
    ensures Settled(EnsureStep(s, t, child).0, t, child)
    ensures WellFormed(EnsureStep(s, t, child).0)
  {
    var tmpl := Template(t, child);
    var key := KeyOf(tmpl);
    var m := MutationOf(t, child);
    var cur := s.objects[key];
    var x := MutateFor(m)(cur).value;
    assert MutateFor(m)(cur) == Mutate(m, cur);
    MutateStable(m, cur, 0);
    assert Replaced(x, cur) == x;
    WritesPreserveWellFormed(s, x, key);
    assert EnsureStep(s, t, child).0.objects[key] == x;
  }

  /** A successful, fault-free ensure step leaves the child settled and the store well formed. */
  lemma EnsureSettles(s: ClusterState, t: Tenant, child: Child)
    requires s.faults == {} && WellFormed(s)
    requires EnsureStep(s, t, child).1.None?
    ensures Settled(EnsureStep(s, t, child).0, t, child)
    ensures WellFormed(EnsureStep(s, t, child).0)
  {
    var res := CreateOrUpdateStep(s, Template(t, child), MutateFor(MutationOf(t, child))).1;
    assert res.Ok?;
    if res.value == OperationCreated {
      CreatedSettles(s, t, child);
    } else if res.value == OperationUpdated {
      UpdatedSettles(s, t, child);
    }
  }

  /** A settled child is left alone: the ensure step writes nothing. */
  lemma EnsureSettledWritesNothing(s: ClusterState, t: Tenant, child: Child)
    requires Fault(GetVerb, KeyOf(Template(t, child))) !in s.faults
    requires Settled(s, t, child)
    ensures EnsureStep(s, t, child) == (s, None)
  {
    var tmpl := Template(t, child);
    var key := KeyOf(tmpl);
    assert MutateFor(MutationOf(t, child))(s.objects[key]) == Ok(s.objects[key]);
    CreateOrUpdateSettled(s, tmpl, MutateFor(MutationOf(t, child)));
  }

  /** The first owner reference to the tenant's Namespace (API version v1, kind Namespace, the namespace's name). */
  function NamespaceRefIndex(refs: seq<OwnerReference>, nsName: string): (r: Option<nat>)
    ensures r.Some? ==> r.value < |refs| && IsNamespaceRef(refs[r.value], nsName)
    ensures r.Some? ==> forall j | 0 <= j < r.value :: !IsNamespaceRef(refs[j], nsName)
    ensures r.None? ==> forall j | 0 <= j < |refs| :: !IsNamespaceRef(refs[j], nsName)
  {
    if refs == [] then None
    else if IsNamespaceRef(refs[0], nsName) then Some(0)
    else match NamespaceRefIndex(refs[1..], nsName)
      case None => None
      case Some(i) => Some(i + 1)
  }

  predicate IsNamespaceRef(ref: OwnerReference, nsName: string)
  {
    ref.apiVersion == "v1" && ref.kind == "Namespace" && ref.name == nsName
  }

  /** The reference appended when the tenant has none to its Namespace yet. */
  function NamespaceRef(nsName: string, uid: Uid): OwnerReference
  {
    OwnerReference("v1", "Namespace", nsName, uid, false, false)
  }

  /**
   * The linking block of `Reconcile`: the first reference to the Namespace
   * gets its uid, or a new reference is appended; `changed` says whether the
   * list is different.
   */
  function LinkRefs(refs: seq<OwnerReference>, nsName: string, uid: Uid): (r: (seq<OwnerReference>, bool))
    ensures r.1 <==> r.0 != refs
    ensures NamespaceRefIndex(r.0, nsName).Some? && r.0[NamespaceRefIndex(r.0, nsName).value].uid == uid
    ensures |r.0| == |refs| || r.0 == refs + [NamespaceRef(nsName, uid)]
    ensures |r.0| == |refs| ==> NamespaceRefIndex(refs, nsName) == NamespaceRefIndex(r.0, nsName)
    ensures |r.0| == |refs| ==> forall i | 0 <= i < |refs| && Some(i) != NamespaceRefIndex(refs, nsName) :: r.0[i] == refs[i]
    ensures |r.0| == |refs| ==> r.0[NamespaceRefIndex(refs, nsName).value] == refs[NamespaceRefIndex(refs, nsName).value].(uid := uid)
  {
    match NamespaceRefIndex(refs, nsName)
    case Some(i) =>
      if refs[i].uid != uid then
        var r := refs[i := refs[i].(uid := uid)];
        assert r[i] != refs[i];
        NamespaceRefIndexFrame(refs, r, nsName, i);
        (r, true)
      else (refs, false)
    case None =>
      var r := refs + [NamespaceRef(nsName, uid)];
      NamespaceRefIndexFrame(refs, r, nsName, |refs|);
      (r, true)
  }

  /** Changing or appending at `j` keeps the search stopping at `j` when nothing before it matches. */
  lemma {:induction false} NamespaceRefIndexFrame(a: seq<OwnerReference>, b: seq<OwnerReference>, nsName: string, j: nat)
    requires j < |b| && j <= |a| && IsNamespaceRef(b[j], nsName)
    requires forall i | 0 <= i < j :: b[i] == a[i] && !IsNamespaceRef(a[i], nsName)
    ensures NamespaceRefIndex(b, nsName) == Some(j)
  {
    if j > 0 {
      NamespaceRefIndexFrame(a[1..], b[1..], nsName, j - 1);
    }
  }

  /** Linking twice is linking once: the second time nothing changes. */
  lemma LinkIdempotent(refs: seq<OwnerReference>, nsName: string, uid: Uid)
    ensures LinkRefs(LinkRefs(refs, nsName, uid).0, nsName, uid) == (LinkRefs(refs, nsName, uid).0, false)
  {
  }

  /** What `Reconcile` returns: `ctrl.Result{Requeue}` and the error. */
  datatype Outcome = Outcome(requeue: bool, err: Option<Error>)

  const Done := Outcome(false, None)
  const Requeue := Outcome(true, None)

  /** The tenant with its owner references replaced. */
  function WithOwnerRefs(t: Tenant, refs: seq<OwnerReference>): Tenant
  {
    t.(meta := t.meta.(ownerReferences := refs))
  }

  /**
   * The tail of `Reconcile` for a namespace-isolated tenant: look the
   * Namespace up (creating it if absent, then requeue), and link the Tenant
   * to it (one Update, then requeue) unless it already is.
   */
  function LinkStep(s: ClusterState, t: Tenant): (r: (ClusterState, Outcome))
    ensures GetStep(s, NamespaceKey(NamespaceName(t.meta.name))).Ok? ==>
      var ns := s.objects[NamespaceKey(NamespaceName(t.meta.name))];
      var (refs, changed) := LinkRefs(t.meta.ownerReferences, NamespaceName(t.meta.name), ns.meta.uid);
      && (!changed ==> r == (s, Done))
      && (changed ==> r.0 == UpdateStep(s, TenantObject(WithOwnerRefs(t, refs))).0)
      && (changed ==> (r.1 == Requeue <==> UpdateStep(s, TenantObject(WithOwnerRefs(t, refs))).1.None?))
    ensures GetStep(s, NamespaceKey(NamespaceName(t.meta.name))) == Err(NotFound(NamespaceKey(NamespaceName(t.meta.name)))) ==>
      var (s1, ce) := CreateStep(s, Object(NewMeta(NamespaceName(t.meta.name), ""), NamespaceBody));
      && r.0 == s1
      && (r.1 == Requeue <==> ce.None? || ce.value.AlreadyExists?)
      && (r.1 != Requeue ==> r.1 == Outcome(false, Some(Failed("failed to create namespace", ce.value))))
    ensures GetStep(s, NamespaceKey(NamespaceName(t.meta.name))).Err? && !GetStep(s, NamespaceKey(NamespaceName(t.meta.name))).error.NotFound? ==>
      r == (s, Outcome(false, Some(Failed("failed to get namespace", GetStep(s, NamespaceKey(NamespaceName(t.meta.name))).error))))
    ensures r.1.err.None? ==> r.1.requeue || r.0 == s
    ensures r.0.faults == s.faults
  {
    var nsName := NamespaceName(t.meta.name);
    match GetStep(s, NamespaceKey(nsName))
    case Err(e) =>
      if e.NotFound? then
        var (s1, ce) := CreateStep(s, Object(NewMeta(nsName, ""), NamespaceBody));
        if ce.Some? && !ce.value.AlreadyExists? then (s1, Outcome(false, Some(Failed("failed to create namespace", ce.value))))
        else (s1, Requeue)
      else (s, Outcome(false, Some(Failed("failed to get namespace", e))))
    case Ok(ns) =>
      var (refs, changed) := LinkRefs(t.meta.ownerReferences, nsName, ns.meta.uid);
      if !changed then (s, Done)
      else
        var (s1, ue) := UpdateStep(s, TenantObject(WithOwnerRefs(t, refs)));
        if ue.Some? then (s1, Outcome(false, Some(Failed("failed to update tenant ownerReferences", ue.value))))
        else (s1, Requeue)
  }

  /** The three ensure steps of a run, or the first failure among them. */
  function EnsureAll(s: ClusterState, t: Tenant): (r: (ClusterState, Option<Error>))
  {
    var (s1, e1) := EnsureStep(s, t, NamespaceChild);
    if e1.Some? then (s1, e1)
    else
      var (s2, e2) := EnsureStep(s1, t, QuotaChild);
      if e2.Some? then (s2, e2)
      else EnsureStep(s2, t, PolicyChild)
  }

  /** The Tenant stored at the request's key, or the error reading it. */
  function ReadTenant(s: ClusterState, req: Key): (r: Result<Tenant, Error>)
    ensures r.Ok? ==> req in s.objects && TenantObject(r.value) == s.objects[req]
  {
    match GetStep(s, req)
    case Err(e) => Err(e)
    case Ok(o) => if o.body.TenantBody? then Ok(AsTenant(o).value) else Err(Undecodable(req))
  }

  /** A request for a Tenant on a well-formed store never meets an object of another kind. */
  lemma ReadTenantDecodes(s: ClusterState, req: Key)
    requires WellFormed(s) && req.kind == TenantKind
    ensures ReadTenant(s, req).Err? ==> ReadTenant(s, req).error == GetStep(s, req).error
  {
  }

  /**
   * `Reconcile` for the Tenant at `req`: a missing Tenant is done; otherwise
   * namespace, quota and policy are ensured in that order, the first error
   * ends the run, and only a tenant whose isolation is exactly "namespace"
   * goes on to the linking step.
   */
  function ReconcileSpec(s: ClusterState, req: Key): (r: (ClusterState, Outcome))
    ensures r.0.faults == s.faults
    ensures ReadTenant(s, req) == Err(NotFound(req)) ==> r == (s, Done)
  {
    match ReadTenant(s, req)
    case Err(e) => if e.NotFound? then (s, Done) else (s, Outcome(false, Some(e)))
    case Ok(t) =>
      var (s3, e) := EnsureAll(s, t);
      if e.Some? then (s3, Outcome(false, e))
      else if t.spec.isolation != "namespace" then (s3, Done)
      else LinkStep(s3, t)
  }

  /** The keys of the three managed children. */
  function ChildKeys(t: Tenant): set<Key>
  {
    {KeyOf(Template(t, NamespaceChild)), KeyOf(Template(t, QuotaChild)), KeyOf(Template(t, PolicyChild))}
  }

  /**
   * The ensure steps run in order and the first failure ends the run with its
   * error: after a failing namespace step nothing but the namespace was
   * written, after a failing quota step nothing but namespace and quota.
   */
  lemma ReconcileFirstFailureAborts(s: ClusterState, req: Key)
    requires ReadTenant(s, req).Ok?
    ensures var t := ReadTenant(s, req).value;
      var (s1, e1) := EnsureStep(s, t, NamespaceChild);
      var (s2, e2) := EnsureStep(s1, t, QuotaChild);
      var (s3, e3) := EnsureStep(s2, t, PolicyChild);
      var r := ReconcileSpec(s, req);
      && (e1.Some? ==> r.1 == Outcome(false, e1) && WritesOnly(s, r.0, {KeyOf(Template(t, NamespaceChild))}))
      && (e1.None? && e2.Some? ==>
            r.1 == Outcome(false, e2) &&
            WritesOnly(s, r.0, {KeyOf(Template(t, NamespaceChild)), KeyOf(Template(t, QuotaChild))}))
      && (e1.None? && e2.None? && e3.Some? ==> r.1 == Outcome(false, e3) && WritesOnly(s, r.0, ChildKeys(t)))
  {
    var t := ReadTenant(s, req).value;
    var (s1, e1) := EnsureStep(s, t, NamespaceChild);
    var (s2, e2) := EnsureStep(s1, t, QuotaChild);
    var (s3, e3) := EnsureStep(s2, t, PolicyChild);
    WritesOnlyTrans(s, s1, s2, {KeyOf(Template(t, NamespaceChild))}, {KeyOf(Template(t, QuotaChild))});
    WritesOnlyTrans(s, s2, s3, {KeyOf(Template(t, NamespaceChild)), KeyOf(Template(t, QuotaChild))}, {KeyOf(Template(t, PolicyChild))});
    assert {KeyOf(Template(t, NamespaceChild)), KeyOf(Template(t, QuotaChild))} + {KeyOf(Template(t, PolicyChild))} == ChildKeys(t);
  }

  /** The Tenant stored at `req` is unchanged in `b`. */
  predicate TenantKept(a: ClusterState, b: ClusterState, req: Key)
  {
    req in a.objects && req in b.objects && b.objects[req] == a.objects[req]
  }

  /**
   * A tenant whose isolation is not exactly "namespace" stops after the three
   * ensure steps: the Tenant itself, and so its owner references, are never
   * written.
   */
  lemma NonNamespaceTenantNotLinked(s: ClusterState, req: Key)
    requires req.kind == TenantKind
    requires ReadTenant(s, req).Ok? && ReadTenant(s, req).value.spec.isolation != "namespace"
    ensures WritesOnly(s, ReconcileSpec(s, req).0, ChildKeys(ReadTenant(s, req).value))
    ensures TenantKept(s, ReconcileSpec(s, req).0, req)
  {
    var t := ReadTenant(s, req).value;
    ReconcileFirstFailureAborts(s, req);
    var (s1, e1) := EnsureStep(s, t, NamespaceChild);
    var (s2, e2) := EnsureStep(s1, t, QuotaChild);
    var (s3, e3) := EnsureStep(s2, t, PolicyChild);
    WritesOnlyTrans(s, s1, s2, {KeyOf(Template(t, NamespaceChild))}, {KeyOf(Template(t, QuotaChild))});
    WritesOnlyTrans(s, s2, s3, {KeyOf(Template(t, NamespaceChild)), KeyOf(Template(t, QuotaChild))}, {KeyOf(Template(t, PolicyChild))});
    assert {KeyOf(Template(t, NamespaceChild)), KeyOf(Template(t, QuotaChild))} + {KeyOf(Template(t, PolicyChild))} == ChildKeys(t);
    assert WritesOnly(s, s3, ChildKeys(t));
  }

  /**
   * With a namespaced Tenant the namespace step can never succeed: a
   * cluster-scoped Namespace cannot have a namespaced controller. Every run
   * fails there and writes nothing.
   */
  lemma NamespacedTenantNeverConverges(s: ClusterState, req: Key)
    requires WellFormed(s)
    requires req.kind == TenantKind && req.namespace != ""
    requires ReadTenant(s, req).Ok?
    requires Fault(GetVerb, NamespaceKey(NamespaceName(req.name))) !in s.faults
    ensures ReconcileSpec(s, req) == (s, Outcome(false, Some(ClusterScopedWithNamespacedOwner)))
  {
    var t := ReadTenant(s, req).value;
    assert KeyOf(TenantObject(t)) == req;
    var tmpl := Template(t, NamespaceChild);
    var key := KeyOf(tmpl);
    var m := MutationOf(t, NamespaceChild);
    if key in s.objects {
      assert KeyOf(s.objects[key]) == key;
      assert Mutate(m, s.objects[key]) == Err(ClusterScopedWithNamespacedOwner);
      assert MutateFor(m)(s.objects[key]) == Err(ClusterScopedWithNamespacedOwner);
    } else {
      assert MutateFor(m)(tmpl) == Err(ClusterScopedWithNamespacedOwner);
    }
    assert EnsureStep(s, t, NamespaceChild) == (s, Some(ClusterScopedWithNamespacedOwner));
  }

  /**
   * The converged state of one tenant: its three children are settled and,
   * for a namespace-isolated tenant, it already refers to its Namespace's uid.
   */
  predicate Converged(s: ClusterState, req: Key)
  {
    && ReadTenant(s, req).Ok?
    && var t := ReadTenant(s, req).value;
    && Settled(s, t, NamespaceChild) && Settled(s, t, QuotaChild) && Settled(s, t, PolicyChild)
    && (t.spec.isolation == "namespace" ==>
         !LinkRefs(t.meta.ownerReferences, NamespaceName(t.meta.name), s.objects[NamespaceKey(NamespaceName(t.meta.name))].meta.uid).1)
  }

  /** Reconciling a converged tenant writes nothing and reports done. */
  lemma ConvergedIsFixpoint(s: ClusterState, req: Key)
    requires s.faults == {}
    requires Converged(s, req)
    ensures ReconcileSpec(s, req) == (s, Done)
  {
    var t := ReadTenant(s, req).value;
    EnsureSettledWritesNothing(s, t, NamespaceChild);
    EnsureSettledWritesNothing(s, t, QuotaChild);
    EnsureSettledWritesNothing(s, t, PolicyChild);
  }

  /** The child templates and closures depend only on the tenant's name, namespace and uid. */
  lemma ChildrenIgnoreOwnerRefs(t: Tenant, refs: seq<OwnerReference>, child: Child)
    ensures Template(WithOwnerRefs(t, refs), child) == Template(t, child)
    ensures MutationOf(WithOwnerRefs(t, refs), child) == MutationOf(t, child)
  {
  }

  /** Settledness of one child survives a write to any other key. */
  lemma SettledFrame(a: ClusterState, b: ClusterState, t: Tenant, child: Child, key: Key)
    requires Settled(a, t, child) && SameExcept(a.objects, b.objects, key)
    requires key != KeyOf(Template(t, child))
    ensures Settled(b, t, child)
  {
  }

  /**
   * A fault-free ensure step without error settles its child and keeps the
   * store well formed, every other settled child settled and the Tenant as it was.
   */
  lemma EnsureStepKeeps(s: ClusterState, t: Tenant, child: Child, req: Key)
    requires s.faults == {} && WellFormed(s)
    requires req.kind == TenantKind && req in s.objects
    requires EnsureStep(s, t, child).1.None?
    ensures var s' := EnsureStep(s, t, child).0;
      && WellFormed(s') && s'.faults == {} && Settled(s', t, child)
      && req in s'.objects && s'.objects[req] == s.objects[req]
      && forall other: Child | other != child && Settled(s, t, other) :: Settled(s', t, other)
  {
    var s' := EnsureStep(s, t, child).0;
    var key := KeyOf(Template(t, child));
    EnsureSettles(s, t, child);
    forall other: Child | other != child && Settled(s, t, other) ensures Settled(s', t, other) {
      SettledFrame(s, s', t, other, key);
    }
  }

  /** After three fault-free successful ensure steps, all three children are settled and the Tenant is untouched. */
  lemma EnsureAllSettles(s: ClusterState, t: Tenant, req: Key)
    requires s.faults == {} && WellFormed(s)
    requires req.kind == TenantKind && req in s.objects
    requires EnsureAll(s, t).1.None?
    ensures var s3 := EnsureAll(s, t).0;
      && WellFormed(s3) && s3.faults == {}
      && Settled(s3, t, NamespaceChild) && Settled(s3, t, QuotaChild) && Settled(s3, t, PolicyChild)
      && req in s3.objects && s3.objects[req] == s.objects[req]
  {
    var s1 := EnsureStep(s, t, NamespaceChild).0;
    EnsureStepKeeps(s, t, NamespaceChild, req);
    var s2 := EnsureStep(s1, t, QuotaChild).0;
    EnsureStepKeeps(s1, t, QuotaChild, req);
    EnsureStepKeeps(s2, t, PolicyChild, req);
  }

  /** Writing new owner references into a stored Tenant replaces just that Tenant and keeps the store well formed. */
  lemma RelinkStore(s: ClusterState, t: Tenant, req: Key, refs: seq<OwnerReference>)
    requires s.faults == {} && WellFormed(s)
    requires req in s.objects && s.objects[req] == TenantObject(t)
    ensures var r := UpdateStep(s, TenantObject(WithOwnerRefs(t, refs)));
      && r.1.None? && r.0.faults == {} && WellFormed(r.0)
      && r.0.objects == s.objects[req := TenantObject(WithOwnerRefs(t, refs))]
  {
    var o := TenantObject(WithOwnerRefs(t, refs));
    assert KeyOf(TenantObject(t)) == req;
    assert KeyOf(o) == req;
    assert Replaced(o, s.objects[req]) == o;
    WritesPreserveWellFormed(s, o, req);
  }

  /** A store that differs from one with settled children only in the Tenant, now linked, is converged. */
  lemma RelinkConverges(s: ClusterState, s4: ClusterState, t: Tenant, req: Key, refs: seq<OwnerReference>)
    requires WellFormed(s) && req in s.objects && s.objects[req] == TenantObject(t)
    requires Settled(s, t, NamespaceChild) && Settled(s, t, QuotaChild) && Settled(s, t, PolicyChild)
    requires s4.faults == {} && s4.objects == s.objects[req := TenantObject(WithOwnerRefs(t, refs))]
    requires var nsKey := KeyOf(Template(t, NamespaceChild));
      nsKey in s.objects && LinkRefs(refs, NamespaceName(t.meta.name), s.objects[nsKey].meta.uid) == (refs, false)
    ensures Converged(s4, req)
  {
    var nsKey := KeyOf(Template(t, NamespaceChild));
    var t' := WithOwnerRefs(t, refs);
    assert KeyOf(TenantObject(t)) == req;
    assert ReadTenant(s4, req) == Ok(t');
    SettledFrame(s, s4, t, NamespaceChild, req);
    SettledFrame(s, s4, t, QuotaChild, req);
    SettledFrame(s, s4, t, PolicyChild, req);
    ChildrenIgnoreOwnerRefs(t, refs, NamespaceChild);
    ChildrenIgnoreOwnerRefs(t, refs, QuotaChild);
    ChildrenIgnoreOwnerRefs(t, refs, PolicyChild);
    assert s4.objects[nsKey] == s.objects[nsKey];
  }

  /** A fault-free linking step without error leaves the Tenant linked and the children settled. */
  lemma LinkConverges(s: ClusterState, t: Tenant, req: Key)
    requires s.faults == {} && WellFormed(s)
    requires req in s.objects && s.objects[req] == TenantObject(t) && t.spec.isolation == "namespace"
    requires Settled(s, t, NamespaceChild) && Settled(s, t, QuotaChild) && Settled(s, t, PolicyChild)
    requires LinkStep(s, t).1.err.None?
    ensures Converged(LinkStep(s, t).0, req) && WellFormed(LinkStep(s, t).0)
  {
    var nsKey := KeyOf(Template(t, NamespaceChild));
    var ns := s.objects[nsKey];
    assert GetStep(s, nsKey) == Ok(ns);
    var (refs, changed) := LinkRefs(t.meta.ownerReferences, NamespaceName(t.meta.name), ns.meta.uid);
    if changed {
      LinkIdempotent(t.meta.ownerReferences, NamespaceName(t.meta.name), ns.meta.uid);
      RelinkStore(s, t, req, refs);
      RelinkConverges(s, UpdateStep(s, TenantObject(WithOwnerRefs(t, refs))).0, t, req, refs);
    } else {
      assert ReadTenant(s, req) == Ok(t);
    }
  }

  /** A fault-free run that ends without error leaves the tenant converged. */
  lemma ReconcileConverges(s: ClusterState, req: Key)
    requires s.faults == {} && WellFormed(s)
    requires req.kind == TenantKind && ReadTenant(s, req).Ok?
    requires ReconcileSpec(s, req).1.err.None?
    ensures Converged(ReconcileSpec(s, req).0, req)
    ensures WellFormed(ReconcileSpec(s, req).0)
  {
    var t := ReadTenant(s, req).value;
    var (s3, e) := EnsureAll(s, t);
    EnsureAllSettles(s, t, req);
    assert ReadTenant(s3, req) == Ok(t);
    if t.spec.isolation == "namespace" {
      LinkConverges(s3, t, req);
    }
  }

  /**
   * Reconciliation is idempotent: after a fault-free run without error (done
   * or requeued), the next run writes nothing and reports done.
   */
  lemma ReconcileIdempotent(s: ClusterState, req: Key)
    requires s.faults == {} && WellFormed(s)
    requires req.kind == TenantKind && ReadTenant(s, req).Ok?
    requires ReconcileSpec(s, req).1.err.None?
    ensures ReconcileSpec(ReconcileSpec(s, req).0, req) == (ReconcileSpec(s, req).0, Done)
  {
    ReconcileConverges(s, req);
    ConvergedIsFixpoint(ReconcileSpec(s, req).0, req);
  }
}
