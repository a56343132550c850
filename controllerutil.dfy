/**
 * The two controller-runtime helpers the tenant controller relies on,
 * `controllerutil.SetControllerReference` and `controllerutil.CreateOrUpdate`,
 * over the cluster store. Both are library code; their behaviour here follows
 * controller-runtime and is an assumption of the model, not something the
 * operator's own code shows.
 */
module ControllerUtil {
  import opened Wrappers
  import opened Meta
  import opened Objects
  import opened ClusterStore

  /** The owning object handed to SetControllerReference: its type, identity and namespace. */
  datatype Owner = Owner(apiVersion: string, kind: string, name: string, namespace: string, uid: Uid)

  /** Two references point at the same object when their API version, kind and name agree; the uid is not compared. */
  predicate SameObject(a: OwnerReference, b: OwnerReference)
  {
    a.apiVersion == b.apiVersion && a.kind == b.kind && a.name == b.name
  }

  /** The reference SetControllerReference writes: controller and blockOwnerDeletion both set. */
  function ControllerRef(owner: Owner): (r: OwnerReference)
    ensures r.controller && r.blockOwnerDeletion
    ensures r.apiVersion == owner.apiVersion && r.kind == owner.kind && r.name == owner.name && r.uid == owner.uid
  {
    OwnerReference(owner.apiVersion, owner.kind, owner.name, owner.uid, true, true)
  }

  /** `GetControllerOf`: the position of the first reference marked as controller. */
  function ControllerIndex(refs: seq<OwnerReference>): (r: Option<nat>)
    ensures r.Some? ==> r.value < |refs| && refs[r.value].controller
    ensures r.Some? ==> forall j | 0 <= j < r.value :: !refs[j].controller
    ensures r.None? ==> forall j | 0 <= j < |refs| :: !refs[j].controller
  {
    if refs == [] then None
    else if refs[0].controller then Some(0)
    else match ControllerIndex(refs[1..])
      case None => None
      case Some(i) => Some(i + 1)
  }

  /** The position of the first reference to the same object as `ref`. */
  function SameObjectIndex(refs: seq<OwnerReference>, ref: OwnerReference): (r: Option<nat>)
    ensures r.Some? ==> r.value < |refs| && SameObject(refs[r.value], ref)
    ensures r.Some? ==> forall j | 0 <= j < r.value :: !SameObject(refs[j], ref)
    ensures r.None? ==> forall j | 0 <= j < |refs| :: !SameObject(refs[j], ref)
  {
    if refs == [] then None
    else if SameObject(refs[0], ref) then Some(0)
    else match SameObjectIndex(refs[1..], ref)
      case None => None
      case Some(i) => Some(i + 1)
  }

  /** `upsertOwnerRef`: the first reference to the same object is replaced by `ref`; without one, `ref` is appended. */
  function UpsertOwnerRef(refs: seq<OwnerReference>, ref: OwnerReference): (r: seq<OwnerReference>)
    ensures SameObjectIndex(refs, ref).None? ==> r == refs + [ref]
    ensures SameObjectIndex(refs, ref).Some? ==> r == refs[SameObjectIndex(refs, ref).value := ref]
  {
    match SameObjectIndex(refs, ref)
    case None => refs + [ref]
    case Some(i) => refs[i := ref]
  }

  /**
   * validateOwner: a namespaced owner may own only objects of its own
   * namespace, and never a cluster-scoped object.
   */
  predicate OwnerScopeAllowed(owner: Owner, o: Object)
  {
    owner.namespace == "" || o.meta.namespace == owner.namespace
  }

  /** `SetControllerReference`: make `owner` the controller of `o`, unless another object already is. */
  function SetControllerReference(owner: Owner, o: Object): (r: Result<Object, Error>)
    ensures r.Ok? <==>
      && OwnerScopeAllowed(owner, o)
      && (ControllerIndex(o.meta.ownerReferences).None? ||
          SameObject(o.meta.ownerReferences[ControllerIndex(o.meta.ownerReferences).value], ControllerRef(owner)))
    ensures owner.namespace != "" && o.meta.namespace == "" ==> r == Err(ClusterScopedWithNamespacedOwner)
    ensures owner.namespace != "" && o.meta.namespace != "" && o.meta.namespace != owner.namespace ==> r == Err(CrossNamespaceOwner)
    ensures r.Ok? ==> r.value.body == o.body && r.value.meta == o.meta.(ownerReferences := r.value.meta.ownerReferences)
    ensures r.Ok? ==> HasController(r.value, owner)
  {
    var refs := o.meta.ownerReferences;
    var ref := ControllerRef(owner);
    if owner.namespace != "" && o.meta.namespace == "" then Err(ClusterScopedWithNamespacedOwner)
    else if owner.namespace != "" && o.meta.namespace != owner.namespace then Err(CrossNamespaceOwner)
    else match ControllerIndex(refs)
      case Some(i) =>
        if !SameObject(refs[i], ref) then Err(AlreadyOwned(refs[i]))
        else
          UpsertKeepsController(refs, ref);
          Ok(Object(o.meta.(ownerReferences := UpsertOwnerRef(refs, ref)), o.body))
      case None =>
        UpsertKeepsController(refs, ref);
        Ok(Object(o.meta.(ownerReferences := UpsertOwnerRef(refs, ref)), o.body))
  }

  /** The first controller reference of `o` is exactly the one `owner` would write. */
  predicate HasController(o: Object, owner: Owner)
  {
    var i := ControllerIndex(o.meta.ownerReferences);
    i.Some? && o.meta.ownerReferences[i.value] == ControllerRef(owner)
  }

  /**
   * After the upsert the first controller reference is `ref`, provided no
   * other object was the controller before; it is also the first reference
   * to the same object as `ref`.
   */
  lemma UpsertKeepsController(refs: seq<OwnerReference>, ref: OwnerReference)
    requires ref.controller
    requires ControllerIndex(refs).None? || SameObject(refs[ControllerIndex(refs).value], ref)
    ensures ControllerIndex(UpsertOwnerRef(refs, ref)).Some?
    ensures UpsertOwnerRef(refs, ref)[ControllerIndex(UpsertOwnerRef(refs, ref)).value] == ref
    ensures SameObjectIndex(UpsertOwnerRef(refs, ref), ref) == ControllerIndex(UpsertOwnerRef(refs, ref))
  {
    var r := UpsertOwnerRef(refs, ref);
    var j := if SameObjectIndex(refs, ref).Some? then SameObjectIndex(refs, ref).value else |refs|;
    FirstAt(refs, r, ref, j);
  }

  /**
   * When `b` agrees with `a` before position `j`, no entry of `a` before `j`
   * is a controller or refers to the same object as `ref`, and `b[j]` is
   * `ref`, then both searches over `b` stop at `j`.
   */
  lemma {:induction false} FirstAt(a: seq<OwnerReference>, b: seq<OwnerReference>, ref: OwnerReference, j: nat)
    requires ref.controller
    requires j < |b| && j <= |a| && b[j] == ref
    requires forall i | 0 <= i < j :: b[i] == a[i] && !a[i].controller && !SameObject(a[i], ref)
    ensures ControllerIndex(b) == Some(j) && SameObjectIndex(b, ref) == Some(j)
  {
    if j > 0 {
      FirstAt(a[1..], b[1..], ref, j - 1);
    }
  }

  /** Setting the same controller twice changes nothing the second time. */
  lemma SetControllerReferenceIdempotent(owner: Owner, o: Object)
    requires SetControllerReference(owner, o).Ok?
    ensures SetControllerReference(owner, SetControllerReference(owner, o).value) == SetControllerReference(owner, o)
  {
    var o1 := SetControllerReference(owner, o).value;
    var ref := ControllerRef(owner);
    UpsertKeepsController(o.meta.ownerReferences, ref);
    var refs1 := o1.meta.ownerReferences;
    var j := ControllerIndex(refs1).value;
    assert refs1[j := ref] == refs1;
    assert UpsertOwnerRef(refs1, ref) == refs1;
  }

  /** The operation CreateOrUpdate reports. */
  datatype OperationResult = OperationNone | OperationCreated | OperationUpdated

  /**
   * `CreateOrUpdate`: read the object at the template's key; if absent,
   * mutate the template and create it; if present, mutate the stored object
   * and update it unless the mutation changed nothing. The mutation may not
   * move the object to another key.
   */
  function CreateOrUpdateStep(s: ClusterState, template: Object, mutate: Object -> Result<Object, Error>)
    : (r: (ClusterState, Result<OperationResult, Error>))
    ensures r.0.faults == s.faults
    ensures r.1.Err? || r.1.value == OperationNone ==> r.0.objects == s.objects && r.0.nextUid == s.nextUid
    ensures r.1 == Ok(OperationNone) ==> r.0 == s
    ensures r.1 == Ok(OperationNone) ==>
      GetStep(s, KeyOf(template)).Ok? && mutate(s.objects[KeyOf(template)]) == Ok(s.objects[KeyOf(template)])
    ensures r.1 == Ok(OperationCreated) ==>
      && GetStep(s, KeyOf(template)) == Err(NotFound(KeyOf(template)))
      && mutate(template).Ok? && KeyOf(mutate(template).value) == KeyOf(template)
      && r.0 == CreateStep(s, mutate(template).value).0
    ensures r.1 == Ok(OperationUpdated) ==>
      && GetStep(s, KeyOf(template)).Ok?
      && mutate(s.objects[KeyOf(template)]).Ok?
      && KeyOf(mutate(s.objects[KeyOf(template)]).value) == KeyOf(template)
      && r.0 == UpdateStep(s, mutate(s.objects[KeyOf(template)]).value).0
    ensures SameExcept(s.objects, r.0.objects, KeyOf(template))
    ensures r.0.calls == s.calls || r.0.calls == s.calls + [Created(KeyOf(template))] || r.0.calls == s.calls + [Updated(KeyOf(template))]
  {
    var key := KeyOf(template);
    match GetStep(s, key)
    case Err(e) =>
      if !e.NotFound? then (s, Err(e))
      else
        (match mutate(template)
         case Err(me) => (s, Err(me))
         case Ok(o) =>
           if KeyOf(o) != key then (s, Err(KeyMutated))
           else
             var (s1, err) := CreateStep(s, o);
             if err.Some? then (s1, Err(err.value)) else (s1, Ok(OperationCreated)))
    case Ok(existing) =>
      match mutate(existing)
      case Err(me) => (s, Err(me))
      case Ok(o) =>
        if KeyOf(o) != key then (s, Err(KeyMutated))
        else if o == existing then (s, Ok(OperationNone))
        else
          var (s1, err) := UpdateStep(s, o);
          if err.Some? then (s1, Err(err.value)) else (s1, Ok(OperationUpdated))
  }

  /** An object that is already what the mutation makes of it is left alone: no write at all. */
  lemma CreateOrUpdateSettled(s: ClusterState, template: Object, mutate: Object -> Result<Object, Error>)
    requires GetStep(s, KeyOf(template)).Ok?
    requires KeyOf(s.objects[KeyOf(template)]) == KeyOf(template)
    requires mutate(s.objects[KeyOf(template)]) == Ok(s.objects[KeyOf(template)])
    ensures CreateOrUpdateStep(s, template, mutate) == (s, Ok(OperationNone))
  {
  }

  method CreateOrUpdate(c: Cluster, template: Object, mutate: Object -> Result<Object, Error>)
    returns (r: Result<OperationResult, Error>)
    modifies c
    ensures (c.State(), r) == CreateOrUpdateStep(old(c.State()), template, mutate)
  {
    var key := KeyOf(template);
    var got := c.Get(key);
    if got.Err? {
      if !got.error.NotFound? {
        return Err(got.error);
      }
      var mutated := mutate(template);
      if mutated.Err? {
        return Err(mutated.error);
      }
      if KeyOf(mutated.value) != key {
        return Err(KeyMutated);
      }
      var err := c.Create(mutated.value);
      if err.Some? {
        return Err(err.value);
      }
      return Ok(OperationCreated);
    }
    var existing := got.value;
    var mutated := mutate(existing);
    if mutated.Err? {
      return Err(mutated.error);
    }
    if KeyOf(mutated.value) != key {
      return Err(KeyMutated);
    }
    if mutated.value == existing {
      return Ok(OperationNone);
    }
    var err := c.Update(mutated.value);
    if err.Some? {
      return Err(err.value);
    }
    return Ok(OperationUpdated);
  }
}
