# ShieldX tenant operator — a verified model

ShieldX is a Kubernetes operator that gives each tenant its own slice of a cluster:

- a Namespace `tenant-<name>`;
- a ResourceQuota;
- a default-deny NetworkPolicy;
- for namespace-isolated tenants, an owner reference from the Tenant back to its Namespace.

A periodic pass deletes every tenant pod whose container image fails cosign signature verification. The `shieldctl` command-line tool provisions and deprovisions tenants directly with create and delete calls.

This project models five parts of that system in Dafny and proves properties about them:

- the Tenant controller's reconcile loop;
- the signature-enforcement pass;
- the command-line provisioning and deletion sequences;
- the image-verification guard chain;
- the Tenant API types.

## Modules

- **`Wrappers`, `Text`, `Meta`.** Option and Result types. The parts of Go's `strings` package the code relies on: `TrimSpace` over Go's Unicode space set, and ASCII `ToLower`, `Split` and `Join`. Object metadata.
- **`TenantTypes`.** `Tenant`, `TenantSpec`, `TenantStatus` and `TenantList` with the validity their markers state. The `ResourceQuota` and `NetworkPolicy` request types are rebuilt from how `pool.go` and `main.go` use them.
- **`Objects`, `ClusterStore`.** The API server as a store: a map from (kind, namespace, name) to object, plus the listing order, a uid counter, and a record of every outbound call.
  - A fixed set of `(verb, key)` faults stands for server errors.
  - `Cluster` is a class whose methods (`Get`, `List`, `Create`, `Update`, `Delete`, `CallVerifier`, `CallNotifier`) change that state as the step functions say.
- **`ControllerUtil`.** controller-runtime's `CreateOrUpdate` and `SetControllerReference` as the controller relies on them. They are library code and are modelled as assumptions; see "Left out".
- **`Convergence`, `TenantController`.**
  - `Convergence` holds the specification functions of one `Reconcile`, with the convergence, idempotence and frame lemmas.
  - `TenantController.TenantReconciler` is the imperative reconciler. Its methods are proved equal to those functions.
- **`SignatureScan`.** The enforcement pass as functions on the store: image collection, first-failure eviction and per-tenant isolation. The reconciler's loops are proved against them.
- **`VerifyImage`.** The guard chain of `VerifyImageSignature`. The reference parser, the key loader, the Rekor key fetch and the cosign check are oracles (`Cosign`), and the environment is a map.
- **`Provisioning`.** `CreateResource`, `CreateNetworkPolicy`, `CreateSecret`, `CreateReconciliation` and `DeleleteReconciliation`, as step functions with imperative methods proved against them.
- **`Shieldctl`.** The `status`, `tenant create` and `delete-tenant` command bodies: the output selector, owner-list parsing, rule decoding and the request they build.

The tool's provisioning path names its children `tenant-resource-quota` and `tenant-network-policy`. The controller names its children `tenant-quota` and `default-deny`. The model keeps them as distinct objects, as the program does.

Three properties come out of the proofs:

- **A namespaced Tenant never converges** (`Convergence.NamespacedTenantNeverConverges`).
  - `tenant_types.go` declares no cluster scope, so the Tenant is namespaced.
  - controller-runtime refuses to make a namespaced object the controller of the cluster-scoped Namespace.
  - So every run of `Reconcile` on a Tenant in a namespace fails at the namespace step and writes nothing.
  - The convergence lemmas therefore hold for cluster-scoped Tenants.
- **The controller and the scanner read isolation differently** (`SignatureScan.IsolationSpellingsDisagree`). The controller compares `isolation` exactly; the scanner trims and lower-cases it first. A tenant with isolation `"Namespace"` is scanned but never linked to its Namespace.
- **`CreateReconciliation` reports a failed step as success.** See "Findings".

## Model

Source paths are relative to the repository root.

| member | source | states |
|---|---|---|
| TenantTypes.EmptyStatusValid | api/v1alpha1/tenant_types.go:27-53 | a Tenant with at least one owner and the empty status (no phase, namespace or conditions) is valid: phase is optional and an absent conditions list is keyed trivially |
| TenantTypes.ConditionTypeIsKey | api/v1alpha1/tenant_types.go:47-52 | in a valid status the conditions are a list-map keyed by `type`: two conditions with the same type are the same entry |
| Objects.TenantObject | api/v1alpha1/tenant_types.go:59-73 | a Tenant is stored under the key (Tenant, its namespace, its name) |
| Objects.AsTenant | api/v1alpha1/tenant_types.go:59-73 | reading an object as a Tenant succeeds exactly for Tenant bodies and gives back the Tenant that was stored |
| Text.TrimSpace | internal/controller/tenant_controller.go:389 | the result has no space at either end, is no longer than the input, and is empty exactly when the input is all spaces |
| Text.TrimSpaceIdempotent | internal/controller/tenant_controller.go:389 | trimming a trimmed string changes nothing |
| Text.TrimSpaceIsMiddle | internal/controller/tenant_controller.go:389 | the trimmed string is a contiguous middle part of the input, and everything cut from either end is space |
| Text.ToLower | cmd/shieldctl/main.go:55 | lower-casing keeps the length and maps each character by ASCII lower-casing |
| Text.SplitJoin | cmd/shieldctl/main.go:101 | joining the pieces of a split with the separator gives the input back |
| Text.JoinSplit | cmd/shieldctl/main.go:101 | splitting the join of at least one separator-free piece gives those pieces back |
| ClusterStore.GetStep | internal/controller/tenant_controller.go:164-173 | Get succeeds exactly when the key is stored and no fault applies, and returns the stored object; a missing key is NotFound |
| ClusterStore.ListStep | internal/controller/tenant_controller.go:298-301 | List fails exactly when a fault applies; otherwise it returns the listing of the store in its order, and every listed object is stored |
| ClusterStore.ListedExactly | internal/controller/tenant_controller.go:298-301 | an object is listed exactly when it is stored under a key of the listing order that has the listed kind and, unless all namespaces are listed, the listed namespace |
| ClusterStore.ListedAppend | internal/controller/tenant_controller.go:298-301 | the listing keeps the store's order: the objects of earlier keys come before those of later ones |
| ClusterStore.CreateStep | internal/controller/tenant_controller.go:206 | Create records the call; it stores the object with a fresh uid exactly when the key is free, its namespace exists and no fault applies; an existing key gives AlreadyExists and changes nothing |
| ClusterStore.UpdateStep | internal/controller/tenant_controller.go:241-245 | Update of a missing key is NotFound; it keeps uid and deletion state; an object being deleted whose finalizers are cleared is removed |
| ClusterStore.DeleteStep | internal/controller/tenant_controller.go:334-335 | Delete of a missing key is NotFound; an object with finalizers is only marked deleting, any other is removed; no other key changes |
| ClusterStore.VerifyStep | internal/controller/tenant_controller.go:330 | a signature check is recorded and returns the verifier's verdict |
| ClusterStore.NotifyStep | internal/webhook/k8s/pool.go:194 | a notification is recorded and fails exactly when the notifier refuses it |
| ClusterStore.WritesPreserveWellFormed | internal/controller/tenant_controller.go:206 | create, update and delete keep every object under its own key and let only objects with finalizers linger while deleting |
| ClusterStore.WritesAreLocal | internal/controller/tenant_controller.go:206 | create, update and delete change no key but the one they address |
| ClusterStore.Cluster.constructor | internal/controller/tenant_controller.go:41-45 | the client starts in the given state |
| ClusterStore.Cluster.Get | internal/controller/tenant_controller.go:165 | returns what GetStep says |
| ClusterStore.Cluster.List | internal/controller/tenant_controller.go:299 | returns what ListStep says |
| ClusterStore.Cluster.Create | internal/controller/tenant_controller.go:206 | changes the state and returns the error as CreateStep says |
| ClusterStore.Cluster.Update | internal/controller/tenant_controller.go:243 | changes the state and returns the error as UpdateStep says |
| ClusterStore.Cluster.Delete | internal/controller/tenant_controller.go:334 | changes the state and returns the error as DeleteStep says |
| ClusterStore.Cluster.CallVerifier | internal/controller/tenant_controller.go:330 | records the check and returns the verdict as VerifyStep says |
| ClusterStore.Cluster.CallNotifier | internal/controller/tenant_controller.go:349 | records the notification and returns its outcome as NotifyStep says |
| ControllerUtil.ControllerRef | internal/controller/tenant_controller.go:83 | the controller reference names the owner's API version, kind, name and uid, with controller and blockOwnerDeletion set |
| ControllerUtil.ControllerIndex | internal/controller/tenant_controller.go:83 | finds the first reference marked controller, or reports there is none |
| ControllerUtil.SameObjectIndex | internal/controller/tenant_controller.go:83 | finds the first reference to the same object (group, kind, name), or reports there is none |
| ControllerUtil.UpsertOwnerRef | internal/controller/tenant_controller.go:83 | replaces the first reference to the same object, or appends the new one |
| ControllerUtil.SetControllerReference | internal/controller/tenant_controller.go:83 | succeeds exactly when the owner's scope allows it and no other controller is set; a cluster-scoped object with a namespaced owner and a cross-namespace owner are refused; on success only the owner references change and the owner is the controller |
| ControllerUtil.UpsertKeepsController | internal/controller/tenant_controller.go:83 | after upserting a controller reference, the first controller entry is that reference |
| ControllerUtil.SetControllerReferenceIdempotent | internal/controller/tenant_controller.go:116 | setting the controller twice is setting it once |
| ControllerUtil.CreateOrUpdateStep | internal/controller/tenant_controller.go:73-85 | get, mutate, then create if absent or update if changed; it writes only the template's key, at most one call, and nothing on error or when unchanged |
| ControllerUtil.CreateOrUpdateSettled | internal/controller/tenant_controller.go:105-118 | when the stored object is a fixpoint of the closure, the call writes nothing and reports no operation |
| ControllerUtil.CreateOrUpdate | internal/controller/tenant_controller.go:73-85 | the imperative get/mutate/create-or-update does what CreateOrUpdateStep says |
| Convergence.NamespaceName | internal/controller/tenant_controller.go:195 | the tenant namespace is the 7-character prefix `tenant-` followed by the tenant name |
| Convergence.NamespaceNameInjective | internal/controller/tenant_controller.go:195 | different tenants get different namespaces |
| Convergence.OwnerOf | internal/controller/tenant_controller.go:83 | the Tenant as owner carries its name, namespace, uid, API version and kind |
| Convergence.Template | internal/controller/tenant_controller.go:67-135 | the three managed objects are the Namespace `tenant-<name>`, the quota `tenant-quota` and the policy `default-deny` in that namespace |
| Convergence.Mutate | internal/controller/tenant_controller.go:77-151 | each closure sets the Tenant as controller and overwrites only its managed field: label `tenant`, with other labels kept; the hard map {cpu: 4, memory: 8Gi, pods: 20}; the deny-all spec |
| Convergence.MutateStable | internal/controller/tenant_controller.go:77-151 | the closures keep key, uid, deletion state and finalizers, are idempotent, and do not depend on uid or deletion state |
| Convergence.SetControllerReferenceStamp | internal/controller/tenant_controller.go:83 | setting the controller does not depend on the object's uid or deletion state |
| Convergence.MutateFailureStable | internal/controller/tenant_controller.go:77-84 | a closure that fails fails the same way on the stored object |
| Convergence.EnsureStep | internal/controller/tenant_controller.go:62-88 | an ensure helper writes only its child's key and writes nothing when it fails |
| Convergence.EnsureSettles | internal/controller/tenant_controller.go:105-120 | a successful fault-free ensure step leaves its child stored as its closure makes it (a quota edited by hand is put back) |
| Convergence.EnsureSettledWritesNothing | internal/controller/tenant_controller.go:105-120 | an ensure step on a child already settled writes nothing and succeeds |
| Convergence.NamespaceRefIndex | internal/controller/tenant_controller.go:220-230 | finds the first reference with API version v1, kind Namespace and the namespace's name, or reports there is none |
| Convergence.LinkRefs | internal/controller/tenant_controller.go:217-239 | afterwards the first Namespace reference carries the uid; either only that entry changed its uid and all others are unchanged in order, or exactly one reference was appended; `changed` holds exactly when the list differs |
| Convergence.LinkIdempotent | internal/controller/tenant_controller.go:217-239 | linking an already linked list changes nothing and reports no change |
| Convergence.LinkStep | internal/controller/tenant_controller.go:195-250 | a missing Namespace is created: the run requeues when the create succeeds or finds it already exists, and any other create error fails the run; any other error reading the Namespace fails the run with nothing written; with the Namespace present, no change means done with nothing written, and a change means one Tenant update and requeue exactly when it succeeds |
| Convergence.ReadTenant | internal/controller/tenant_controller.go:164-173 | a Tenant read succeeds only when the request's key holds that Tenant |
| Convergence.ReadTenantDecodes | internal/controller/tenant_controller.go:164-173 | on a well-formed store, a Tenant read fails only with the Get error: the object under a Tenant key always decodes |
| Convergence.ReconcileSpec | internal/controller/tenant_controller.go:159-251 | an absent Tenant is done with nothing written |
| Convergence.ReconcileFirstFailureAborts | internal/controller/tenant_controller.go:175-188 | the ensure steps run namespace, then quota, then policy; the first failure is the run's error and only the children before it were written |
| Convergence.NonNamespaceTenantNotLinked | internal/controller/tenant_controller.go:190-193 | a tenant whose isolation is not exactly "namespace" writes only its three children; the Tenant and its owner references stay as they were |
| Convergence.NamespacedTenantNeverConverges | internal/controller/tenant_controller.go:73-87 | for a Tenant in a namespace the namespace step always fails with the scope error and the run writes nothing |
| Convergence.ConvergedIsFixpoint | internal/controller/tenant_controller.go:159-251 | reconciling a converged tenant writes nothing and is done without requeue |
| Convergence.ChildrenIgnoreOwnerRefs | internal/controller/tenant_controller.go:241-247 | changing the Tenant's owner references changes neither the child templates nor their closures |
| Convergence.EnsureStepKeeps | internal/controller/tenant_controller.go:105-120 | a successful fault-free ensure step settles its own child and keeps the store well formed, the other settled children settled and the Tenant unchanged |
| Convergence.EnsureAllSettles | internal/controller/tenant_controller.go:175-188 | three successful fault-free ensure steps settle all three children and leave the Tenant untouched |
| Convergence.LinkConverges | internal/controller/tenant_controller.go:195-250 | a successful fault-free linking step leaves the tenant converged |
| Convergence.RelinkConverges | internal/controller/tenant_controller.go:241-247 | after the Update that writes the linked owner references, the settled children stay settled and the Tenant needs no further link: the tenant is converged |
| Convergence.ReconcileConverges | internal/controller/tenant_controller.go:159-251 | a fault-free run without error leaves the tenant converged and the store well formed |
| Convergence.ReconcileIdempotent | internal/controller/tenant_controller.go:159-251 | after a successful fault-free run, a second run writes nothing and is done |
| TenantController.LinkOwnerRefs | internal/controller/tenant_controller.go:217-239 | the loop over the references computes LinkRefs |
| TenantController.TenantReconciler.constructor | internal/controller/tenant_controller.go:41-45 | the reconciler keeps the client it is given |
| TenantController.TenantReconciler.EnsureNamespace | internal/controller/tenant_controller.go:62-88 | changes the store as EnsureStep for the Namespace says |
| TenantController.TenantReconciler.EnsureResourceQuota | internal/controller/tenant_controller.go:93-121 | changes the store as EnsureStep for the quota says |
| TenantController.TenantReconciler.EnsureNetworkPolicy | internal/controller/tenant_controller.go:125-155 | changes the store as EnsureStep for the policy says |
| TenantController.TenantReconciler.Reconcile | internal/controller/tenant_controller.go:159-251 | the result and the new store are those of ReconcileSpec, so the convergence lemmas hold of it |
| TenantController.TenantReconciler.EnforcePod | internal/controller/tenant_controller.go:325-356 | the image loop with its early exit leaves the store as ScanImages says |
| TenantController.TenantReconciler.EnforceTenant | internal/controller/tenant_controller.go:303-357 | one tenant's pod loop leaves the store as ScanTenant says |
| TenantController.TenantReconciler.ScanAndEnforcePodImages | internal/controller/tenant_controller.go:295-361 | the pass over all tenants leaves the store and returns the error as ScanPass says |
| SignatureScan.ImageOf | internal/controller/tenant_controller.go:368 | the image read from a container is trimmed |
| SignatureScan.AddImage | internal/controller/tenant_controller.go:367-377 | `add` appends a non-blank trimmed image not yet collected, or changes nothing |
| SignatureScan.AddAllExtends | internal/controller/tenant_controller.go:379-384 | collected images stay in front, in their order |
| SignatureScan.AddAllClean | internal/controller/tenant_controller.go:363-386 | collecting keeps the list free of repeats and of blank or untrimmed entries |
| SignatureScan.AddImageClean | internal/controller/tenant_controller.go:367-377 | one `add` keeps the list free of repeats and of blank or untrimmed entries |
| SignatureScan.AddAllMembers | internal/controller/tenant_controller.go:379-384 | an image is collected exactly when it was already there or is the non-blank trimmed image of some container |
| SignatureScan.PodImagesSound | internal/controller/tenant_controller.go:363-386 | `collectPodImages` returns distinct, trimmed, non-blank images, and exactly the non-blank trimmed images of the init containers and containers |
| SignatureScan.PodImagesInitFirst | internal/controller/tenant_controller.go:379-385 | the init containers' images come first, in first-occurrence order |
| SignatureScan.FirstNaming | internal/controller/tenant_controller.go:379-385 | finds the first container whose trimmed image is the given one |
| SignatureScan.AddAllFirstOrder | internal/controller/tenant_controller.go:379-384 | each newly collected image was not collected before and is the non-blank image of some container, and the new images follow the order of their first containers |
| SignatureScan.PodImagesFirstOccurrenceOrder | internal/controller/tenant_controller.go:363-386 | the collected images, init containers first, are in the order in which each first appears among the containers |
| SignatureScan.EvictionKey | internal/controller/tenant_controller.go:334 | enforcement deletes a pod |
| SignatureScan.FirstFailure | internal/controller/tenant_controller.go:326-332 | finds the first non-blank image that fails verification; all images before it are blank or pass |
| SignatureScan.Checked | internal/controller/tenant_controller.go:326-332 | the signature checks made are checks of the pod's own images |
| SignatureScan.Evict | internal/controller/tenant_controller.go:333-351 | eviction is one delete of the pod followed by one notification, sent whatever the delete returned; nothing but pods is deleted |
| SignatureScan.ScanImages | internal/controller/tenant_controller.go:326-356 | the verifier sees each non-blank image up to and including the first failure; without a failure nothing else happens, and with one the pod is evicted once for that image |
| SignatureScan.ScanImagesEnforcementOnly | internal/controller/tenant_controller.go:326-356 | the image loop only checks, deletes pods and notifies |
| SignatureScan.ScanPods | internal/controller/tenant_controller.go:319-357 | the pod loop only checks, deletes pods and notifies |
| SignatureScan.PodScanCalls | internal/controller/tenant_controller.go:320-356 | a pod being deleted makes no call; any other pod makes its image checks, then, at its first failing image, one delete of itself and one notification |
| SignatureScan.ScanPodsCalls | internal/controller/tenant_controller.go:319-357 | the pod loop makes the calls of each listed pod in turn |
| SignatureScan.CheckedDeletesNothing | internal/controller/tenant_controller.go:326-332 | signature checks delete nothing |
| SignatureScan.PodDeletedOnlyIfAnImageFails | internal/controller/tenant_controller.go:320-356 | a pod is deleted at most once, and exactly when it is not already being deleted and one of its images fails; a pod being deleted is neither verified nor deleted; only the pod's own images are verified |
| SignatureScan.PodsDeletedInOrder | internal/controller/tenant_controller.go:319-357 | the pod loop deletes exactly the pods it evicts, each once, in list order |
| SignatureScan.EvictedKeysMembers | internal/controller/tenant_controller.go:319-357 | a key is deleted by the pod loop exactly when it is the key of a listed pod that is not being deleted and has a failing image |
| SignatureScan.ScanTenant | internal/controller/tenant_controller.go:304-317 | a tenant whose trimmed lower-cased isolation is not "namespace", or whose pods cannot be listed, is skipped with nothing written |
| SignatureScan.ScanTenants | internal/controller/tenant_controller.go:303-358 | a failure in one tenant does not stop the loop; the loop only checks, deletes pods and notifies |
| SignatureScan.ScanTenantCalls | internal/controller/tenant_controller.go:304-357 | one tenant's scan makes its pod loop's calls, none when it is skipped; for an isolated tenant whose pods are listed it deletes exactly the pods it evicts |
| SignatureScan.ScanTenantsAppend | internal/controller/tenant_controller.go:303-358 | scanning two runs of tenants is scanning the first, then the second from where the first left the store |
| SignatureScan.ScanTenantsSkip | internal/controller/tenant_controller.go:304-317 | a tenant that is not isolated, or whose pods cannot be listed, adds no call and the tenants after it are still scanned |
| SignatureScan.ScanTenantsSplit | internal/controller/tenant_controller.go:303-358 | the pass over the tenants is the pass over those before the i-th, then the i-th, then the rest |
| SignatureScan.ScanTenantsAt | internal/controller/tenant_controller.go:303-358 | the i-th tenant's calls follow those of the earlier tenants and are exactly its own tenant calls; for an isolated, listable tenant their deletes are the pods it evicts |
| SignatureScan.TenantsOf | internal/controller/tenant_controller.go:298-303 | the tenants read are at most the objects listed |
| SignatureScan.TenantsOfAppend | internal/controller/tenant_controller.go:298-303 | the tenants are read in listing order |
| SignatureScan.TenantsOfMembers | internal/controller/tenant_controller.go:298-303 | the tenants read are exactly the listed objects that decode as Tenants |
| SignatureScan.ScanPass | internal/controller/tenant_controller.go:295-361 | the pass fails exactly when listing the tenants fails, and then writes nothing; otherwise it only checks, deletes pods and notifies |
| SignatureScan.ReconciledTenantsAreScanned | internal/controller/tenant_controller.go:304-306 | a tenant with isolation exactly "namespace" is scanned |
| SignatureScan.IsolationSpellingsDisagree | internal/controller/tenant_controller.go:304-306 | isolation "Namespace" is scanned although `Reconcile` does not treat it as namespace isolation |
| SignatureScan.ControllerGetenv | internal/controller/tenant_controller.go:388-393 | the controller's `getenv` returns the trimmed value when it is not blank, else the default |
| SignatureScan.ScanInterval | internal/controller/tenant_controller.go:258-271 | the interval is positive: a non-blank trimmed lower-cased variable that parses to a positive duration is used, and in every other case the 20-second default |
| SignatureScan.CollectPodImages | internal/controller/tenant_controller.go:363-386 | the loops with the `seen` set compute PodImages |
| VerifyImage.GetenvOr | internal/webhook/verifyimage/verify.go:30-35 | the value when it is non-empty (untrimmed), else the default |
| VerifyImage.DefaultPublicKeyNotBlank | internal/webhook/verifyimage/verify.go:23-28 | the built-in PEM is not blank |
| VerifyImage.KeySourceOf | internal/webhook/verifyimage/verify.go:41-79 | the trimmed COSIGN_PUB_KEY_PEM if not blank, else the trimmed built-in PEM, else the COSIGN_PUB_KEY path; PEM text is never empty |
| VerifyImage.DefaultKeyWins | internal/webhook/verifyimage/verify.go:41-46 | with the built-in key the key file fallback is never reached |
| VerifyImage.IgnoreTlogExact | internal/webhook/verifyimage/verify.go:107 | the tlog is ignored exactly when COSIGN_IGNORE_TLOG is "true" |
| VerifyImage.BuildCheckOpts | internal/webhook/verifyimage/verify.go:64-69 | options are built exactly when the key loads, with that key; a load failure is returned naming the source |
| VerifyImage.TlogOptions | internal/webhook/verifyimage/verify.go:104-113 | Rekor keys are used when available; otherwise the tlog is skipped when opted out, and the check fails closed when not |
| VerifyImage.CheckSignature | internal/webhook/verifyimage/verify.go:94-120 | a reference or key error is returned unchanged; a verification failure names the trimmed image; success exactly when every stage succeeds |
| VerifyImage.VerifyImageSignature | internal/webhook/verifyimage/verify.go:82-121 | a blank image is "empty image", a signature-artifact tag is rejected, both before any foreign call; otherwise the checks run on the untrimmed reference |
| VerifyImage.GuardsPrecedeForeignCalls | internal/webhook/verifyimage/verify.go:86-93 | for a blank image or a signature-artifact tag the verdict is an error that no oracle can change |
| VerifyImage.TlogFailsClosed | internal/webhook/verifyimage/verify.go:104-113 | without Rekor keys verification fails unless COSIGN_IGNORE_TLOG is exactly "true"; with it, success is exactly the cosign check with tlog ignored |
| Provisioning.QuotaFields | internal/webhook/k8s/pool.go:82-105 | the six quota fields are checked in the fixed order LimitsCPU, LimitsMemory, RequestsCPU, RequestsMemory, RequestsStorage, Pods |
| Provisioning.FirstInvalid | internal/webhook/k8s/pool.go:82-105 | finds the first field that does not parse; all before it parse |
| Provisioning.ParseQuota | internal/webhook/k8s/pool.go:81-123 | a failure is an invalid-quantity error; a success is a hard map with exactly the six resource keys |
| Provisioning.ParseQuotaNamesFirstInvalid | internal/webhook/k8s/pool.go:82-105 | parsing fails exactly when some field does not parse, and the error names the first invalid field and its value |
| Provisioning.ParseQuotaValues | internal/webhook/k8s/pool.go:82-120 | on success each field's resource is mapped to the quantity parsed from that field's own text |
| Provisioning.CreateWrapped | internal/webhook/k8s/pool.go:74-78 | a create whose error is wrapped with the step's context; the store changes as for a plain create: one create call, only its key touched, and on success the key is stored |
| Provisioning.CreateSecretStep | internal/webhook/k8s/pool.go:65-79 | creates the secret with its data in the namespace, or fails wrapped |
| Provisioning.CreateResourceStep | internal/webhook/k8s/pool.go:81-129 | an invalid field fails with nothing written; otherwise `tenant-resource-quota` is created with the parsed hard map |
| Provisioning.CreatedCallsAt | internal/webhook/k8s/pool.go:185-227 | the i-th recorded create is that of the i-th key |
| Provisioning.CreatedCallsAppend | internal/webhook/k8s/pool.go:185-227 | the creates of two runs of keys are those of the first, then those of the second |
| Provisioning.RanThen | internal/webhook/k8s/pool.go:185-227 | creates of one run of keys followed by creates of another are the creates of both runs in order, and touch no other key |
| Provisioning.ProvisionedThen | internal/webhook/k8s/pool.go:185-227 | a step that succeeded, followed by a run of the later steps, is one run of all of them, ending as the later run ends |
| Provisioning.ProvisionedStop | internal/webhook/k8s/pool.go:185-227 | a first step that failed ends the run: nothing after it is created |
| Provisioning.PolicySpecOf | internal/webhook/k8s/pool.go:135-170 | selector labels equal PodSelector; policy types copied in order; each ingress (egress) rule becomes one rule with one peer selecting its pod labels, count and order kept |
| Provisioning.PolicySpecKeepsSelectors | internal/webhook/k8s/pool.go:140-157 | the selector of every built peer is the rule's pod labels |
| Provisioning.CreateNetworkPolicyStep | internal/webhook/k8s/pool.go:131-177 | creates `tenant-network-policy` with the built spec, or fails wrapped |
| Provisioning.NamespaceStep | internal/webhook/k8s/pool.go:185-199 | the namespace is created only when isolation is exactly "namespace", with one create call that touches only its key; otherwise nothing happens |
| Provisioning.SecretStageRuns | internal/webhook/k8s/pool.go:218-227 | the secret step makes one create of `owners`; on success the secret is stored, and a failure is reported as the step "Secret owners" |
| Provisioning.PolicyStageRuns | internal/webhook/k8s/pool.go:209-227 | the policy create comes first; if it fails the run stops there, with only its create issued and the secret untouched; otherwise the secret step follows, and a failure names its step |
| Provisioning.QuotaStageRuns | internal/webhook/k8s/pool.go:200-227 | an unparsable quota stops the run before any create; a failed quota create stops it after its own create; otherwise the policy and secret steps follow; the failure names its step and later keys are untouched |
| Provisioning.QuotaStops | internal/webhook/k8s/pool.go:200-206 | a quota step that failed ends the run of the last three steps, with its create issued only when the quota parsed |
| Provisioning.QuotaGoesOn | internal/webhook/k8s/pool.go:200-227 | a quota step that succeeded, then the policy stage, is the run of the last three steps |
| Provisioning.ProvisionStepsRun | internal/webhook/k8s/pool.go:185-229 | with no failure, exactly the creates of the namespace (when exact), quota, policy and secret were issued in that order and all are stored; when the step at index i fails, the failure names it, the steps before it are stored, the creates issued are exactly those of the first i + 1 keys (the first i for an unparsable quota), and nothing after it is touched |
| Provisioning.NamespaceStops | internal/webhook/k8s/pool.go:192-198 | a namespace step that failed ends the run of all four steps after its own create |
| Provisioning.NamespaceGoesOn | internal/webhook/k8s/pool.go:192-227 | a namespace step that succeeded, then the quota stage, is the run of all four steps |
| Provisioning.NotifyPods | internal/webhook/k8s/pool.go:237-244 | the pod report writes nothing and fails exactly when some pod's notification is refused |
| Provisioning.ReportPods | internal/webhook/k8s/pool.go:231-244 | a failed pod listing is returned with nothing written |
| Provisioning.CreateReconciliationAsWritten | internal/webhook/k8s/pool.go:179-248 | a failed step is notified and the notifier's outcome is returned in place of the step error |
| Provisioning.CreateReconciliationIntended | internal/webhook/k8s/pool.go:179-248 | a failed step's error is returned; success means every provisioned object exists; the store is as the code leaves it |
| Provisioning.FailureReportedAsSuccess | internal/webhook/k8s/pool.go:200-206 | whenever a step fails and the notification goes through, the code reports success while the intended version reports the error |
| Provisioning.ExistingNamespaceReportedAsSuccess | internal/webhook/k8s/pool.go:192-197 | when the namespace already exists, nothing is created and the code returns no error; the intended version returns AlreadyExists |
| Provisioning.FirstNamed | internal/webhook/k8s/pool.go:279-284 | finds the first listed tenant with the name |
| Provisioning.TenantNamespaceOf | internal/webhook/k8s/pool.go:270-285 | the tenant's namespace is that of the first listed tenant with the name; a failed listing or no match gives cluster scope |
| Provisioning.ClearFinalizers | internal/webhook/k8s/pool.go:292-298 | best-effort clearing never fails, touches only the Tenant, and leaves it without finalizers or gone |
| Provisioning.DeleteTargets | internal/webhook/k8s/pool.go:300-328 | five deletions in the fixed order Tenant, NetworkPolicy, ResourceQuota, secret `owners`, Namespace |
| Provisioning.FirstFaulting | internal/webhook/k8s/pool.go:300-328 | finds the first deletion the server refuses; none before it is refused |
| Provisioning.DeletedCallsAt | internal/webhook/k8s/pool.go:300-328 | the i-th recorded delete is that of the i-th target |
| Provisioning.DeleteTolerant | internal/webhook/k8s/pool.go:301-304 | NotFound counts as success; any other error is notified with the step's name and returned wrapped with its context, and nothing is removed; the calls are the delete, then the notification on a refusal; success leaves the key gone |
| Provisioning.DeleteInOrder | internal/webhook/k8s/pool.go:300-328 | the deletions run in order and stop at the first refused one: success exactly when none is refused, and then every target is gone and the calls are the deletes of all targets in order; when target i is refused, the error is its wrapped error, the calls are the deletes of targets 0 to i in order and then its notification, targets before i are gone, and no key outside them changes |
| Provisioning.DeleteStops | internal/webhook/k8s/pool.go:301-304 | a refused first target ends the run there: its error, its delete and notification, and nothing else removed |
| Provisioning.DeleteGoesOn | internal/webhook/k8s/pool.go:300-328 | a first target deleted, then a run over the rest, is a run over all the targets: same stop, calls in order, and only reached targets changed |
| Provisioning.DeleteReconciliationSpec | internal/webhook/k8s/pool.go:250-333 | after clearing the finalizers, the cleanup succeeds exactly when no deletion is refused, and then the Tenant, policy, quota, secret and namespace are all gone; when target i is the first refused, its wrapped error is returned |
| Provisioning.DeleteReconciliationCalls | internal/webhook/k8s/pool.go:300-328 | after the finalizer clearing, the calls are the deletes of all five targets in order; or, when target i is the first refused, the deletes of targets 0 to i and then its notification |
| Provisioning.DeletionWithoutFaultsRemovesTenant | internal/webhook/k8s/pool.go:292-304 | without server errors the deletion succeeds and the Tenant is removed, finalizers or not |
| Provisioning.CreateSecret | internal/webhook/k8s/pool.go:65-79 | changes the store as CreateSecretStep says |
| Provisioning.CreateResource | internal/webhook/k8s/pool.go:81-129 | changes the store as CreateResourceStep says |
| Provisioning.BuildPolicySpec | internal/webhook/k8s/pool.go:135-170 | the append loops compute PolicySpecOf |
| Provisioning.CreateNetworkPolicy | internal/webhook/k8s/pool.go:131-177 | changes the store as CreateNetworkPolicyStep says |
| Provisioning.CreateReconciliation | internal/webhook/k8s/pool.go:179-248 | does what CreateReconciliationAsWritten says |
| Provisioning.ProvisionObjects | internal/webhook/k8s/pool.go:185-227 | runs the four creates in order, stopping at the first failure and naming its step, exactly as ProvisionSteps says |
| Provisioning.ReportPodStatuses | internal/webhook/k8s/pool.go:231-246 | lists the system pods and notifies each status until one notification fails, exactly as ReportPods says |
| Provisioning.FindTenantNamespace | internal/webhook/k8s/pool.go:270-285 | the list, retry and search loop compute TenantNamespaceOf |
| Provisioning.ClearTenantFinalizers | internal/webhook/k8s/pool.go:292-298 | changes the store as ClearFinalizers says |
| Provisioning.DeleteReconciliation | internal/webhook/k8s/pool.go:250-333 | does what DeleteReconciliationSpec says |
| Provisioning.DeleteEach | internal/webhook/k8s/pool.go:300-328 | the deletion loop with its early return does what DeleteInOrder says |
| Shieldctl.Status | cmd/shieldctl/main.go:55-72 | after trimming and lower-casing, "" or "text" gives the text report, "json" gives ok=true and command "status", anything else is an error naming the raw value |
| Shieldctl.OutputSelectorIdempotent | cmd/shieldctl/main.go:55 | normalising the selector twice is normalising it once |
| Shieldctl.StatusIgnoresCaseAndSpace | cmd/shieldctl/main.go:55-69 | a value is accepted exactly when its normalised form is, with the same report |
| Shieldctl.TrimAll | cmd/shieldctl/main.go:103-104 | each piece is trimmed, count and order kept |
| Shieldctl.DropEmpty | cmd/shieldctl/main.go:105-108 | no empty piece remains |
| Shieldctl.DropEmptyMembers | cmd/shieldctl/main.go:101-109 | the kept pieces are exactly the non-empty ones |
| Shieldctl.DropEmptyOfNonEmpty | cmd/shieldctl/main.go:105-108 | pieces without an empty one are kept whole |
| Shieldctl.OwnerListClean | cmd/shieldctl/main.go:101-109 | every owner is trimmed and non-empty, and every non-blank comma piece appears trimmed |
| Shieldctl.OwnerListRoundTrip | cmd/shieldctl/main.go:101-109 | parsing the comma-join of trimmed, non-empty, comma-free names gives those names back, order and duplicates kept |
| Shieldctl.KeptOwnersPrefix | cmd/shieldctl/main.go:101-109 | what the loop keeps from the first n pieces is those pieces trimmed with the empty ones dropped |
| Shieldctl.ParseOwners | cmd/shieldctl/main.go:101-109 | the append loop computes OwnerList |
| Shieldctl.DecodeAll | cmd/shieldctl/main.go:121-137 | succeeds exactly when every raw value decodes, with the values in order; otherwise the error is the first malformed raw value |
| Shieldctl.DecodeRules | cmd/shieldctl/main.go:121-137 | the decoding loop computes DecodeAll |
| Shieldctl.DecodeAllAt | cmd/shieldctl/main.go:121-128 | a malformed value after well-formed ones is the one reported |
| Shieldctl.RequestOf | cmd/shieldctl/main.go:99-154 | the request has the parsed owners, the copied selector and types, and the quota as given; it fails exactly on a malformed rule, with a bad-JSON error |
| Shieldctl.TenantCreate | cmd/shieldctl/main.go:98-159 | a malformed rule returns its error with nothing written; otherwise provisioning runs and the command returns nil |
| Shieldctl.TenantCreateHidesProvisioningErrors | cmd/shieldctl/main.go:155-158 | a failed provisioning step still makes the command succeed |
| Shieldctl.BadRuleWritesNothing | cmd/shieldctl/main.go:121-128 | a malformed ingress rule fails the command before any store call |
| Shieldctl.DefaultIsolationCreatesNamespaceFirst | cmd/shieldctl/main.go:164 | with the default isolation, four objects are provisioned, the namespace first |
| Shieldctl.CopyLabels | cmd/shieldctl/main.go:111-114 | the pod selector is copied with the same keys and values |
| Shieldctl.CopyTypes | cmd/shieldctl/main.go:116-119 | the policy types are copied in order |
| Shieldctl.TenantCreateCommand | cmd/shieldctl/main.go:94-160 | does what TenantCreate says |
| Shieldctl.DeleteTenantCommand | cmd/shieldctl/main.go:31-46 | does what DeleteReconciliationSpec says; on success every deletion target is gone |

## Left out

- The `Start` ticker loop, `ctx.Done()` handling and `SetupWithManager`: timing, concurrency and framework wiring. Only the choice of interval is modelled (`SignatureScan.ScanInterval`), with `time.ParseDuration` as an oracle.
- `GetClientset`, kubeconfig discovery and the dynamic client: environment and filesystem I/O. Its failure path at the start of `CreateReconciliation` and `DeleleteReconciliation` is not modelled.
- The Telegram notifier (`internal/webhook/notify/telegram.go`): an HTTP client. It is an oracle `Message -> bool`, and its configuration is not part of this model.
- Message texts: the notifications keep the step name and the error, not the formatted text. `fmt.Printf` and all logging are left out.
- `internal/config/dotenv/dotenv.go`, `internal/webhook/v1alpha1/tenant_webhook.go` and `cmd/k8s-demo/main.go`: environment loading, scaffold stubs and a driver script.
- Cosign, Rekor, `name.ParseReference`, `resource.ParseQuantity` and `json.Unmarshal`: foreign library calls, modelled as oracles. The temporary file that holds the PEM key is also left out; it only feeds the key loader.
- Text.ToLower: lower-cases ASCII letters only, not all of Unicode. This is exact for the values the program compares against ("namespace", "text", "json") but not for every input.
- ControllerUtil.CreateOrUpdateStep: controller-runtime is not part of this model. These behaviours are assumptions, not taken from the program's source:
  - get, then mutate, then create when absent;
  - update only when the mutated object differs;
  - a changed name or namespace is an error;
  - "differs" compares quantities by their text. controller-runtime's semantic equality compares quantities by value, so a quota that holds an equal value written differently (`4000m` for `4`) is updated in the model and left alone by the program.
- ControllerUtil.SetControllerReference: the owner-scope and already-owned rules are assumptions about controller-runtime. The object's group is compared through the API version string.
- The store has no garbage collector. Deleting a namespace or an owner does not cascade, and no grace period is modelled.
- Listing returns objects in creation order.
- Creating a namespaced object fails while its namespace is absent. This is an assumption about the API server.
- `Reconcile` reads the Tenant twice. The second read is modelled as the same answer as the first; nothing runs in between.
- `CreateOrUpdate`'s operation result is dropped, as in the program.
- The list retry in `DeleleteReconciliation` repeats the same all-namespaces request in the store. So a failed first listing fails the second one too.
- `ctrl.Result`'s `RequeueAfter` and context cancellation.
- cobra's argument and flag parsing, and `MarkFlagRequired("owners")`. The commands start from the flag values.
- The JSON text printed by `status --output json` is not modelled; the report records only its two fields.
- The `%v` formatting of the owners secret is modelled as `[` + owners joined by spaces + `]`.
- Provisioning.ParseQuota: its contract gives only the error kind and the key set. When it fails and which field the error names is proved in `Provisioning.ParseQuotaNamesFirstInvalid`, and the values in `Provisioning.ParseQuotaValues`. The parser's own message is dropped.

## Findings

| source | as written | input that shows it | evidently intended | confidence | as-written member | corrected member |
|---|---|---|---|---|---|---|
| internal/webhook/k8s/pool.go:192-227 | each failing step re-declares `err` with `:=` to hold the notifier's result, and returns that, so a failed step whose notification is delivered returns nil | `CreateReconciliation` for a tenant with isolation "namespace" whose namespace `tenant-<name>` already exists, with the notifier working: the namespace create fails with AlreadyExists, nothing else is created, and nil is returned. `tenant create` discards this result anyway. | return the step's error after notifying | not executed | Provisioning.ExistingNamespaceReportedAsSuccess | Provisioning.CreateReconciliationIntended |
