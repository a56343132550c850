/**
 * The Kubernetes API server as the operator sees it: a map from (kind,
 * namespace, name) to object, plus a record of every outbound call the
 * operator makes (store writes, signature checks, notifications). Requests
 * named in `faults` fail with a server error, so that every error path of the
 * callers can be reached. Reads are not recorded; writes are recorded whether
 * they succeed or not.
 */
module ClusterStore {
  import opened Wrappers
  import opened Meta
  import opened Objects
  import opened VerifyImage

  datatype Verb = GetVerb | ListVerb | CreateVerb | UpdateVerb | DeleteVerb

  /** A request that the server answers with an internal error. A list is keyed by `Key(kind, namespace, "")`. */
  datatype Fault = Fault(verb: Verb, key: Key)

  /** The errors the operator sees; `Failed` wraps a cause with the context text of a `%w` wrap. */
  datatype Error =
    | NotFound(key: Key)
    | AlreadyExists(key: Key)
    | ServerError(verb: Verb, key: Key)
    | ClusterScopedWithNamespacedOwner
    | CrossNamespaceOwner
    | AlreadyOwned(current: OwnerReference)
    | KeyMutated
    | Undecodable(key: Key)
    | InvalidQuantity(field: string, value: string)
    | BadJson(flag: string, raw: string)
    | NotificationFailed
    | Failed(context: string, cause: Error)

  /** The notifications the operator sends. */
  datatype Message =
    | PodEvicted(tenant: string, namespace: string, pod: string, image: string, verdict: VerifyError)
    | StepFailed(step: string, reason: Error)
    | PodStatus(pod: string, phase: string)

  /** One outbound call, in the order it was made. */
  datatype Call =
    | Created(key: Key)
    | Updated(key: Key)
    | Deleted(key: Key)
    | Verified(image: string)
    | Notified(message: Message)

  /** `order` is the listing order: keys in the order they were first created. */
  datatype ClusterState = ClusterState(
    objects: map<Key, Object>,
    order: seq<Key>,
    nextUid: Uid,
    calls: seq<Call>,
    faults: set<Fault>)

  /** Every object is stored under its own key, and only an object with finalizers lingers while being deleted. */
  predicate WellFormed(s: ClusterState)
  {
    forall k | k in s.objects :: KeyOf(s.objects[k]) == k && (s.objects[k].meta.deleting ==> s.objects[k].meta.finalizers != [])
  }

  /** `b` agrees with `a` at every key but `key`. */
  ghost predicate SameExcept(a: map<Key, Object>, b: map<Key, Object>, key: Key)
  {
    (forall k | k != key :: k in a <==> k in b) && (forall k | k != key && k in a :: b[k] == a[k])
  }

  function NamespaceKey(ns: string): Key
  {
    Key(NamespaceKind, "", ns)
  }

  /** How the server stores a newly created object: it assigns the uid and it is not being deleted. */
  function Stamp(o: Object, uid: Uid): (r: Object)
    ensures KeyOf(r) == KeyOf(o) && r.meta.uid == uid && !r.meta.deleting
  {
    Object(o.meta.(uid := uid, deleting := false), o.body)
  }

  /** A GET: the stored object, or NotFound. */
  function GetStep(s: ClusterState, key: Key): (r: Result<Object, Error>)
    ensures r.Ok? <==> Fault(GetVerb, key) !in s.faults && key in s.objects
    ensures r.Ok? ==> r.value == s.objects[key]
    ensures Fault(GetVerb, key) !in s.faults && key !in s.objects ==> r == Err(NotFound(key))
  {
    if Fault(GetVerb, key) in s.faults then Err(ServerError(GetVerb, key))
    else if key in s.objects then Ok(s.objects[key])
    else Err(NotFound(key))
  }

  /** A key a listing selects: stored, of the kind, and in the namespace unless all namespaces are listed (""). */
  predicate Selected(objects: map<Key, Object>, k: Key, kind: Kind, ns: string)
  {
    k in objects && k.kind == kind && (ns == "" || k.namespace == ns)
  }

  /** The stored objects of one kind, in listing order; namespace "" lists every namespace. */
  function Listed(objects: map<Key, Object>, order: seq<Key>, kind: Kind, ns: string): (r: seq<Object>)
    ensures |r| <= |order|
    ensures forall o <- r :: o in objects.Values
  {
    if order == [] then []
    else
      var k := order[0];
      var rest := Listed(objects, order[1..], kind, ns);
      if Selected(objects, k, kind, ns) then [objects[k]] + rest else rest
  }

  /** An object is listed exactly when it is stored under a selected key of the listing order. */
  lemma {:induction false} ListedExactly(objects: map<Key, Object>, order: seq<Key>, kind: Kind, ns: string, o: Object)
    ensures o in Listed(objects, order, kind, ns) <==> exists k <- order :: Selected(objects, k, kind, ns) && objects[k] == o
    decreases |order|
  {
    if order != [] {
      ListedExactly(objects, order[1..], kind, ns, o);
      if exists k <- order :: Selected(objects, k, kind, ns) && objects[k] == o {
        var k :| k in order && Selected(objects, k, kind, ns) && objects[k] == o;
        if k != order[0] {
          assert k in order[1..];
        }
      }
      if exists k <- order[1..] :: Selected(objects, k, kind, ns) && objects[k] == o {
        var k :| k in order[1..] && Selected(objects, k, kind, ns) && objects[k] == o;
        assert k in order;
      }
    }
  }

  /** Listing follows the order: the objects of the earlier keys come first. */
  lemma {:induction false} ListedAppend(objects: map<Key, Object>, a: seq<Key>, b: seq<Key>, kind: Kind, ns: string)
    ensures Listed(objects, a + b, kind, ns) == Listed(objects, a, kind, ns) + Listed(objects, b, kind, ns)
    decreases |a|
  {
    if a == [] {
      assert a + b == b;
    } else {
      var h := if Selected(objects, a[0], kind, ns) then [objects[a[0]]] else [];
      assert (a + b)[0] == a[0] && (a + b)[1..] == a[1..] + b;
      assert Listed(objects, a + b, kind, ns) == h + Listed(objects, a[1..] + b, kind, ns);
      ListedAppend(objects, a[1..], b, kind, ns);
      var x, y := Listed(objects, a[1..], kind, ns), Listed(objects, b, kind, ns);
      assert h + (x + y) == (h + x) + y;
    }
  }

  /** A LIST of one kind in one namespace ("" = all namespaces). */
  function ListStep(s: ClusterState, kind: Kind, ns: string): (r: Result<seq<Object>, Error>)
    ensures r.Err? <==> Fault(ListVerb, Key(kind, ns, "")) in s.faults
    ensures r.Ok? ==> forall o <- r.value :: o in s.objects.Values
  {
    if Fault(ListVerb, Key(kind, ns, "")) in s.faults then Err(ServerError(ListVerb, Key(kind, ns, "")))
    else Ok(Listed(s.objects, s.order, kind, ns))
  }

  /**
   * A CREATE. It fails when the key is taken, and for a namespaced object when
   * its namespace does not exist; otherwise the object is stored, stamped.
   */
  function CreateStep(s: ClusterState, o: Object): (r: (ClusterState, Option<Error>))
    ensures r.0.calls == s.calls + [Created(KeyOf(o))] && r.0.faults == s.faults
    ensures r.1.None? <==>
      && Fault(CreateVerb, KeyOf(o)) !in s.faults
      && KeyOf(o) !in s.objects
      && (o.meta.namespace == "" || NamespaceKey(o.meta.namespace) in s.objects)
    ensures r.1.None? ==> r.0.objects == s.objects[KeyOf(o) := Stamp(o, s.nextUid)] && r.0.nextUid == s.nextUid + 1
    ensures r.1.Some? ==> r.0.objects == s.objects && r.0.nextUid == s.nextUid
    ensures Fault(CreateVerb, KeyOf(o)) !in s.faults && KeyOf(o) in s.objects ==> r.1 == Some(AlreadyExists(KeyOf(o)))
  {
    var key := KeyOf(o);
    var s' := s.(calls := s.calls + [Created(key)]);
    if Fault(CreateVerb, key) in s.faults then (s', Some(ServerError(CreateVerb, key)))
    else if key in s.objects then (s', Some(AlreadyExists(key)))
    else if o.meta.namespace != "" && NamespaceKey(o.meta.namespace) !in s.objects then
      (s', Some(NotFound(NamespaceKey(o.meta.namespace))))
    else
      (s'.(objects := s.objects[key := Stamp(o, s.nextUid)],
           nextUid := s.nextUid + 1,
           order := if key in s.order then s.order else s.order + [key]),
       None)
  }

  /** What an UPDATE stores: the new content, with the server-owned uid and deletion mark kept. */
  function Replaced(o: Object, current: Object): (r: Object)
    ensures KeyOf(r) == KeyOf(o) && r.meta.uid == current.meta.uid && r.meta.deleting == current.meta.deleting
  {
    Object(o.meta.(uid := current.meta.uid, deleting := current.meta.deleting), o.body)
  }

  /**
   * An UPDATE of an existing object. An object being deleted whose last
   * finalizer the update removes is gone afterwards.
   */
  function UpdateStep(s: ClusterState, o: Object): (r: (ClusterState, Option<Error>))
    ensures r.0.calls == s.calls + [Updated(KeyOf(o))] && r.0.faults == s.faults
    ensures r.0.nextUid == s.nextUid && r.0.order == s.order
    ensures r.1.None? <==> Fault(UpdateVerb, KeyOf(o)) !in s.faults && KeyOf(o) in s.objects
    ensures r.1.Some? ==> r.0.objects == s.objects
    ensures r.1.None? && !(s.objects[KeyOf(o)].meta.deleting && o.meta.finalizers == []) ==>
      r.0.objects == s.objects[KeyOf(o) := Replaced(o, s.objects[KeyOf(o)])]
    ensures r.1.None? && s.objects[KeyOf(o)].meta.deleting && o.meta.finalizers == [] ==>
      r.0.objects == s.objects - {KeyOf(o)}
    ensures Fault(UpdateVerb, KeyOf(o)) !in s.faults && KeyOf(o) !in s.objects ==> r.1 == Some(NotFound(KeyOf(o)))
  {
    var key := KeyOf(o);
    var s' := s.(calls := s.calls + [Updated(key)]);
    if Fault(UpdateVerb, key) in s.faults then (s', Some(ServerError(UpdateVerb, key)))
    else if key !in s.objects then (s', Some(NotFound(key)))
    else
      var stored := Replaced(o, s.objects[key]);
      if stored.meta.deleting && stored.meta.finalizers == [] then (s'.(objects := s.objects - {key}), None)
      else (s'.(objects := s.objects[key := stored]), None)
  }

  /**
   * A DELETE. An object with finalizers is only marked as being deleted; any
   * other object is removed. The grace period is not modelled: deletion is immediate.
   */
  function DeleteStep(s: ClusterState, key: Key): (r: (ClusterState, Option<Error>))
    ensures r.0.calls == s.calls + [Deleted(key)] && r.0.faults == s.faults
    ensures r.0.nextUid == s.nextUid && r.0.order == s.order
    ensures r.1.None? <==> Fault(DeleteVerb, key) !in s.faults && key in s.objects
    ensures r.1.Some? ==> r.0.objects == s.objects
    ensures r.1.None? ==> key !in r.0.objects || (r.0.objects[key].meta.deleting && r.0.objects[key].meta.finalizers != [])
    ensures SameExcept(s.objects, r.0.objects, key)
    ensures Fault(DeleteVerb, key) !in s.faults && key !in s.objects ==> r.1 == Some(NotFound(key))
  {
    var s' := s.(calls := s.calls + [Deleted(key)]);
    if Fault(DeleteVerb, key) in s.faults then (s', Some(ServerError(DeleteVerb, key)))
    else if key !in s.objects then (s', Some(NotFound(key)))
    else
      var current := s.objects[key];
      if current.meta.finalizers != [] then
        (s'.(objects := s.objects[key := Object(current.meta.(deleting := true), current.body)]), None)
      else (s'.(objects := s.objects - {key}), None)
  }

  /** A call to the signature checker; the verdict is the oracle's. */
  function VerifyStep(s: ClusterState, verify: string -> Option<VerifyError>, image: string): (r: (ClusterState, Option<VerifyError>))
    ensures r.0 == s.(calls := s.calls + [Verified(image)]) && r.1 == verify(image)
  {
    (s.(calls := s.calls + [Verified(image)]), verify(image))
  }

  /** A notification; the oracle says whether it was delivered. */
  function NotifyStep(s: ClusterState, notifier: Message -> bool, m: Message): (r: (ClusterState, Option<Error>))
    ensures r.0 == s.(calls := s.calls + [Notified(m)])
    ensures r.1.None? <==> notifier(m)
  {
    (s.(calls := s.calls + [Notified(m)]), if notifier(m) then None else Some(NotificationFailed))
  }

  /** A create keeps the store well formed: the new object is stamped under its own key. */
  lemma CreatePreservesWellFormed(s: ClusterState, o: Object)
    requires WellFormed(s)
    ensures WellFormed(CreateStep(s, o).0)
  {
    var objects := CreateStep(s, o).0.objects;
    if CreateStep(s, o).1.None? {
      assert objects == s.objects[KeyOf(o) := Stamp(o, s.nextUid)];
    }
  }

  /** An update keeps the store well formed: an object left without finalizers while deleting is removed. */
  lemma UpdatePreservesWellFormed(s: ClusterState, o: Object)
    requires WellFormed(s)
    ensures WellFormed(UpdateStep(s, o).0)
  {
    var objects := UpdateStep(s, o).0.objects;
    if UpdateStep(s, o).1.None? {
      var stored := Replaced(o, s.objects[KeyOf(o)]);
      if stored.meta.deleting && stored.meta.finalizers == [] {
        assert objects == s.objects - {KeyOf(o)};
      } else {
        assert objects == s.objects[KeyOf(o) := stored];
      }
    }
  }

  /** A delete keeps the store well formed: only an object with finalizers lingers. */
  lemma DeletePreservesWellFormed(s: ClusterState, key: Key)
    requires WellFormed(s)
    ensures WellFormed(DeleteStep(s, key).0)
  {
    var objects := DeleteStep(s, key).0.objects;
    forall k | k in objects ensures KeyOf(objects[k]) == k {
      if k != key {
        assert objects[k] == s.objects[k];
      }
    }
  }

  /** The writes keep every object under its own key and keep lingering objects finalized. */
  lemma WritesPreserveWellFormed(s: ClusterState, o: Object, key: Key)
    requires WellFormed(s)
    ensures WellFormed(CreateStep(s, o).0)
    ensures WellFormed(UpdateStep(s, o).0)
    ensures WellFormed(DeleteStep(s, key).0)
  {
    CreatePreservesWellFormed(s, o);
    UpdatePreservesWellFormed(s, o);
    DeletePreservesWellFormed(s, key);
  }

  /** Each write touches only its own key. */
  lemma WritesAreLocal(s: ClusterState, o: Object, key: Key)
    ensures SameExcept(s.objects, CreateStep(s, o).0.objects, KeyOf(o))
    ensures SameExcept(s.objects, UpdateStep(s, o).0.objects, KeyOf(o))
    ensures SameExcept(s.objects, DeleteStep(s, key).0.objects, key)
  {
  }

  /**
   * The store a client talks to. The methods change the fields as the step
   * functions above say; `faults` never changes.
   */
  class Cluster {
    var objects: map<Key, Object>
    var order: seq<Key>
    var nextUid: Uid
    var calls: seq<Call>
    const faults: set<Fault>

    function State(): ClusterState
      reads this
    {
      ClusterState(objects, order, nextUid, calls, faults)
    }

    constructor (init: ClusterState)
      ensures State() == init
    {
      objects := init.objects;
      order := init.order;
      nextUid := init.nextUid;
      calls := init.calls;
      faults := init.faults;
    }

    method Get(key: Key) returns (r: Result<Object, Error>)
      ensures r == GetStep(State(), key)
    {
      r := GetStep(State(), key);
    }

    method List(kind: Kind, ns: string) returns (r: Result<seq<Object>, Error>)
      ensures r == ListStep(State(), kind, ns)
    {
      r := ListStep(State(), kind, ns);
    }

    method Create(o: Object) returns (err: Option<Error>)
      modifies this
      ensures (State(), err) == CreateStep(old(State()), o)
    {
      var next;
      next, err := CreateStep(State(), o).0, CreateStep(State(), o).1;
      objects, order, nextUid, calls := next.objects, next.order, next.nextUid, next.calls;
    }

    method Update(o: Object) returns (err: Option<Error>)
      modifies this
      ensures (State(), err) == UpdateStep(old(State()), o)
    {
      var next;
      next, err := UpdateStep(State(), o).0, UpdateStep(State(), o).1;
      objects, order, nextUid, calls := next.objects, next.order, next.nextUid, next.calls;
    }

    method Delete(key: Key) returns (err: Option<Error>)
      modifies this
      ensures (State(), err) == DeleteStep(old(State()), key)
    {
      var next;
      next, err := DeleteStep(State(), key).0, DeleteStep(State(), key).1;
      objects, order, nextUid, calls := next.objects, next.order, next.nextUid, next.calls;
    }

    method CallVerifier(verify: string -> Option<VerifyError>, image: string) returns (err: Option<VerifyError>)
      modifies this
      ensures (State(), err) == VerifyStep(old(State()), verify, image)
    {
      calls := calls + [Verified(image)];
      err := verify(image);
    }

    method CallNotifier(notifier: Message -> bool, m: Message) returns (err: Option<Error>)
      modifies this
      ensures (State(), err) == NotifyStep(old(State()), notifier, m)
    {
      calls := calls + [Notified(m)];
      err := if notifier(m) then None else Some(NotificationFailed);
    }
  }
}
