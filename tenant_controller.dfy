/**
 * The Tenant controller as the operator runs it: a reconciler holding a
 * client of the cluster store, whose methods make the store calls one by one.
 * Each method is proved to do exactly what the corresponding function of
 * `Convergence` or `SignatureScan` says, so the lemmas proved there hold of it.
 */
module TenantController {
  import opened Wrappers
  import opened Text
  import opened Meta
  import opened TenantTypes
  import opened Objects
  import opened ClusterStore
  import opened ControllerUtil
  import opened Convergence
  import opened SignatureScan

  /**
   * The linking loop of `Reconcile`: find the first reference to the
   * Namespace and give it the uid, or append a new reference.
   */
  method LinkOwnerRefs(refs: seq<OwnerReference>, nsName: string, uid: Uid) returns (linked: seq<OwnerReference>, changed: bool)
    ensures (linked, changed) == LinkRefs(refs, nsName, uid)
  {
    linked := refs;
    changed := false;
    var found := false;
    var i := 0;
    while i < |refs|
      invariant 0 <= i <= |refs|
      invariant !found && !changed && linked == refs
      invariant forall j | 0 <= j < i :: !IsNamespaceRef(refs[j], nsName)
    {
      if IsNamespaceRef(refs[i], nsName) {
        found := true;
        if refs[i].uid != uid {
          linked := refs[i := refs[i].(uid := uid)];
          changed := true;
        }
        assert NamespaceRefIndex(refs, nsName) == Some(i);
        break;
      }
      i := i + 1;
    }
    if !found {
      linked := refs + [NamespaceRef(nsName, uid)];
      changed := true;
    }
  }

  /** The reconciler: the store client it was built with is the only state it touches. */
  class TenantReconciler {
    const client: Cluster

    constructor (client: Cluster)
      ensures this.client == client
    {
      this.client := client;
    }

    /** `ensureNamespace`: the tenant's Namespace, labelled and owned by the Tenant. */
    method EnsureNamespace(t: Tenant) returns (err: Option<Error>)
      modifies client
      ensures (client.State(), err) == EnsureStep(old(client.State()), t, NamespaceChild)
    {
      var r := CreateOrUpdate(client, Template(t, NamespaceChild), MutateFor(MutationOf(t, NamespaceChild)));
      err := if r.Err? then Some(r.error) else None;
    }

    /** `ensureResourceQuota`: the quota "tenant-quota" with the fixed limits. */
    method EnsureResourceQuota(t: Tenant) returns (err: Option<Error>)
      modifies client
      ensures (client.State(), err) == EnsureStep(old(client.State()), t, QuotaChild)
    {
      var r := CreateOrUpdate(client, Template(t, QuotaChild), MutateFor(MutationOf(t, QuotaChild)));
      err := if r.Err? then Some(r.error) else None;
    }

    /** `ensureNetworkPolicy`: the policy "default-deny" that admits no traffic. */
    method EnsureNetworkPolicy(t: Tenant) returns (err: Option<Error>)
      modifies client
      ensures (client.State(), err) == EnsureStep(old(client.State()), t, PolicyChild)
    {
      var r := CreateOrUpdate(client, Template(t, PolicyChild), MutateFor(MutationOf(t, PolicyChild)));
      err := if r.Err? then Some(r.error) else None;
    }

    /** `Reconcile` for the Tenant named by `req`. */
    method Reconcile(req: Key) returns (out: Outcome)
      modifies client
      ensures (client.State(), out) == ReconcileSpec(old(client.State()), req)
    {
      var got := client.Get(req);
      if got.Err? {
        out := if got.error.NotFound? then Done else Outcome(false, Some(got.error));
        return;
      }
      // The Tenant is read a second time; nothing has changed in between.
      var again := client.Get(req);
      if !again.value.body.TenantBody? {
        out := Outcome(false, Some(Undecodable(req)));
        return;
      }
      var tenant := AsTenant(again.value).value;
      var err := EnsureNamespace(tenant);
      if err.Some? {
        out := Outcome(false, err);
        return;
      }
      err := EnsureResourceQuota(tenant);
      if err.Some? {
        out := Outcome(false, err);
        return;
      }
      err := EnsureNetworkPolicy(tenant);
      if err.Some? {
        out := Outcome(false, err);
        return;
      }
      if tenant.spec.isolation != "namespace" {
        out := Done;
        return;
      }
      var nsName := NamespaceName(tenant.meta.name);
      var ns := client.Get(NamespaceKey(nsName));
      if ns.Err? {
        if ns.error.NotFound? {
          var createErr := client.Create(Object(NewMeta(nsName, ""), NamespaceBody));
          if createErr.Some? && !createErr.value.AlreadyExists? {
            out := Outcome(false, Some(Failed("failed to create namespace", createErr.value)));
            return;
          }
          out := Requeue;
          return;
        }
        out := Outcome(false, Some(Failed("failed to get namespace", ns.error)));
        return;
      }
      var refs, changed := LinkOwnerRefs(tenant.meta.ownerReferences, nsName, ns.value.meta.uid);
      if changed {
        var updateErr := client.Update(TenantObject(WithOwnerRefs(tenant, refs)));
        if updateErr.Some? {
          out := Outcome(false, Some(Failed("failed to update tenant ownerReferences", updateErr.value)));
          return;
        }
        out := Requeue;
        return;
      }
      out := Done;
    }

    /**
     * The image loop for one pod: verify each non-blank image; on the first
     * failure delete the pod, notify, and stop. Delete and notification
     * errors are only logged.
     */
    method EnforcePod(e: Enforcer, t: Tenant, pod: Object, images: seq<string>)
      modifies client
      ensures client.State() == ScanImages(old(client.State()), e, t, pod, images)
    {
      ghost var target := ScanImages(client.State(), e, t, pod, images);
      var k := 0;
      while k < |images|
        invariant 0 <= k <= |images|
        invariant ScanImages(client.State(), e, t, pod, images[k..]) == target
      {
        assert images[k..][0] == images[k] && images[k..][1..] == images[k + 1..];
        var image := images[k];
        if TrimSpace(image) == "" {
          k := k + 1;
          continue;
        }
        var verdict := client.CallVerifier(e.verify, image);
        if verdict.Some? {
          var deleteErr := client.Delete(EvictionKey(pod));
          var notifyErr := client.CallNotifier(e.notify, EvictionNotice(t, pod, image, verdict.value));
          assert client.State() == target;
          return;
        }
        k := k + 1;
      }
    }

    /** The pod loop of one tenant's namespace: pods being deleted are skipped. */
    method EnforceTenant(e: Enforcer, t: Tenant)
      modifies client
      ensures client.State() == ScanTenant(old(client.State()), e, t)
    {
      if TrimSpace(ToLower(t.spec.isolation)) != "namespace" {
        return;
      }
      var listed := client.List(PodKind, "tenant-" + t.meta.name);
      if listed.Err? {
        // A missing namespace or any other listing error skips the tenant.
        return;
      }
      var pods := listed.value;
      ghost var target := ScanPods(client.State(), e, t, pods);
      for j := 0 to |pods|
        invariant ScanPods(client.State(), e, t, pods[j..]) == target
      {
        assert pods[j..][0] == pods[j] && pods[j..][1..] == pods[j + 1..];
        var pod := pods[j];
        if pod.meta.deleting {
          continue;
        }
        var images := CollectPodImages(PodSpecOf(pod));
        EnforcePod(e, t, pod, images);
      }
      assert pods[|pods|..] == [];
    }

    /** `scanAndEnforcePodImages`: one enforcement pass over every Tenant. */
    method ScanAndEnforcePodImages(e: Enforcer) returns (err: Option<Error>)
      modifies client
      ensures (client.State(), err) == ScanPass(old(client.State()), e)
    {
      var listed := client.List(TenantKind, "");
      if listed.Err? {
        return Some(Failed("list tenants", listed.error));
      }
      var tenants := TenantsOf(listed.value);
      ghost var target := ScanTenants(client.State(), e, tenants);
      for i := 0 to |tenants|
        invariant ScanTenants(client.State(), e, tenants[i..]) == target
      {
        assert tenants[i..][0] == tenants[i] && tenants[i..][1..] == tenants[i + 1..];
        EnforceTenant(e, tenants[i]);
      }
      assert tenants[|tenants|..] == [];
      err := None;
    }
  }
}
