/**
 * The periodic image-signature enforcement pass: every pod of every
 * namespace-isolated tenant has its images checked, and a pod with an image
 * that fails verification is deleted and reported. The pass is specified by
 * functions on the store's state; `TenantController.TenantReconciler` runs
 * it with loops.
 */
module SignatureScan {
  import opened Wrappers
  import opened Text
  import opened Meta
  import opened TenantTypes
  import opened Objects
  import opened VerifyImage
  import opened ClusterStore

  /** No two entries are equal. */
  predicate Distinct(xs: seq<string>)
  {
    forall i, j | 0 <= i < j < |xs| :: xs[i] != xs[j]
  }

  /** The image a container names, as the scanner reads it. */
  function ImageOf(c: Container): (img: string)
    ensures Trimmed(img)
  {
    TrimSpace(c.image)
  }

  /** One `add` of `collectPodImages`: a blank or already-seen image is dropped. */
  function AddImage(out: seq<string>, c: Container): (r: seq<string>)
    ensures r == out || (r == out + [ImageOf(c)] && ImageOf(c) != "" && ImageOf(c) !in out)
    ensures ImageOf(c) != "" ==> ImageOf(c) in r
  {
    var img := ImageOf(c);
    if img == "" || img in out then out else out + [img]
  }

  /** The `add` calls over a list of containers, in order. */
  function AddAll(out: seq<string>, cs: seq<Container>): (r: seq<string>)
    decreases |cs|
  {
    if cs == [] then out else AddAll(AddImage(out, cs[0]), cs[1..])
  }

  /** `collectPodImages`: the images of the init containers, then of the containers. */
  function PodImages(spec: PodSpec): seq<string>
  {
    AddAll(AddAll([], spec.initContainers), spec.containers)
  }

  /** Every image in the list is trimmed and not blank. */
  predicate CleanImages(xs: seq<string>)
  {
    forall x <- xs :: x != "" && Trimmed(x)
  }

  /** The images already collected stay, in front. */
  lemma {:induction false} AddAllExtends(out: seq<string>, cs: seq<Container>)
    ensures |out| <= |AddAll(out, cs)| && AddAll(out, cs)[..|out|] == out
    decreases |cs|
  {
    if cs != [] {
      var out' := AddImage(out, cs[0]);
      assert |out| <= |out'| && out'[..|out|] == out;
      AddAllExtends(out', cs[1..]);
      var r := AddAll(out', cs[1..]);
      assert r == AddAll(out, cs);
      assert r[..|out|] == r[..|out'|][..|out|];
    }
  }

  /** Collecting keeps the list free of repeats and of blank or untrimmed images. */
  lemma {:induction false} AddAllClean(out: seq<string>, cs: seq<Container>)
    requires Distinct(out) && CleanImages(out)
    ensures Distinct(AddAll(out, cs)) && CleanImages(AddAll(out, cs))
    decreases |cs|
  {
    if cs != [] {
      AddImageClean(out, cs[0]);
      AddAllClean(AddImage(out, cs[0]), cs[1..]);
    }
  }

  lemma AddImageClean(out: seq<string>, c: Container)
    requires Distinct(out) && CleanImages(out)
    ensures Distinct(AddImage(out, c)) && CleanImages(AddImage(out, c))
  {
    var r := AddImage(out, c);
    if r != out {
      forall i, j | 0 <= i < j < |r| ensures r[i] != r[j] {
        if j == |out| {
          assert r[i] == out[i];
        }
      }
      forall x <- r ensures x != "" && Trimmed(x) {
        if x !in out {
          assert x == ImageOf(c);
        }
      }
    }
  }

  /** An image is collected exactly when it was already there or some container names it. */
  lemma {:induction false} AddAllMembers(out: seq<string>, cs: seq<Container>, x: string)
    ensures x in AddAll(out, cs) <==> x in out || (x != "" && exists c <- cs :: x == ImageOf(c))
    decreases |cs|
  {
    if cs != [] {
      var out' := AddImage(out, cs[0]);
      AddAllMembers(out', cs[1..], x);
      if x != "" && exists c <- cs :: x == ImageOf(c) {
        var c :| c in cs && x == ImageOf(c);
        if c != cs[0] {
          assert c in cs[1..];
        }
      }
      if x != "" && exists c <- cs[1..] :: x == ImageOf(c) {
        var c :| c in cs[1..] && x == ImageOf(c);
        assert c in cs;
      }
    }
  }

  /**
   * The collected images are distinct, trimmed and not blank, and are
   * exactly the non-blank trimmed images of the pod's containers.
   */
  lemma PodImagesSound(spec: PodSpec)
    ensures Distinct(PodImages(spec)) && CleanImages(PodImages(spec))
    ensures forall x :: x in PodImages(spec) <==>
      x != "" && exists c <- spec.initContainers + spec.containers :: x == ImageOf(c)
  {
    AddAllClean([], spec.initContainers);
    AddAllClean(AddAll([], spec.initContainers), spec.containers);
    forall x ensures x in PodImages(spec) <==> x != "" && exists c <- spec.initContainers + spec.containers :: x == ImageOf(c) {
      AddAllMembers([], spec.initContainers, x);
      AddAllMembers(AddAll([], spec.initContainers), spec.containers, x);
      if x != "" && exists c <- spec.initContainers + spec.containers :: x == ImageOf(c) {
        var c :| c in spec.initContainers + spec.containers && x == ImageOf(c);
        assert c in spec.initContainers || c in spec.containers;
      }
    }
  }

  /** The init containers' images come first, in their order. */
  lemma PodImagesInitFirst(spec: PodSpec)
    ensures var init := AddAll([], spec.initContainers);
      |init| <= |PodImages(spec)| && PodImages(spec)[..|init|] == init
  {
    AddAllExtends(AddAll([], spec.initContainers), spec.containers);
  }

  /** The index of the first container that names `x`, or the count when none does. */
  function FirstNaming(cs: seq<Container>, x: string): (i: nat)
    ensures i <= |cs|
    ensures i < |cs| ==> ImageOf(cs[i]) == x
    ensures forall j | 0 <= j < i :: ImageOf(cs[j]) != x
  {
    if cs == [] then 0
    else if ImageOf(cs[0]) == x then 0
    else 1 + FirstNaming(cs[1..], x)
  }

  /** Collecting two lists of containers is collecting one after the other. */
  lemma {:induction false} AddAllAppend(out: seq<string>, a: seq<Container>, b: seq<Container>)
    ensures AddAll(out, a + b) == AddAll(AddAll(out, a), b)
    decreases |a|
  {
    if a == [] {
      assert a + b == b;
    } else {
      assert (a + b)[0] == a[0] && (a + b)[1..] == a[1..] + b;
      AddAllAppend(AddImage(out, a[0]), a[1..], b);
    }
  }

  /**
   * The images a run of `add` calls appends are new, not blank, named by
   * some container, and ordered by the first container that names them.
   */
  lemma {:induction false} AddAllFirstOrder(out: seq<string>, cs: seq<Container>)
    ensures var r := AddAll(out, cs);
      && |out| <= |r|
      && (forall k | |out| <= k < |r| :: r[k] !in out && r[k] != "" && FirstNaming(cs, r[k]) < |cs|)
      && (forall k, l | |out| <= k < l < |r| :: FirstNaming(cs, r[k]) < FirstNaming(cs, r[l]))
    decreases |cs|
  {
    if cs != [] {
      var out' := AddImage(out, cs[0]);
      var r := AddAll(out', cs[1..]);
      assert r == AddAll(out, cs);
      AddAllExtends(out', cs[1..]);
      AddAllFirstOrder(out', cs[1..]);
      FirstNamingShift(out', cs, r);
      FirstOrderNew(out, out', cs, r);
      FirstOrderSorted(out, out', cs, r);
    }
  }

  /** Images appended after the first container's turn are not its image, so they are named one place later in the tail. */
  lemma FirstNamingShift(out': seq<string>, cs: seq<Container>, r: seq<string>)
    requires cs != [] && |out'| <= |r|
    requires ImageOf(cs[0]) == "" || ImageOf(cs[0]) in out'
    requires forall k | |out'| <= k < |r| :: r[k] !in out' && r[k] != ""
    ensures forall k | |out'| <= k < |r| :: FirstNaming(cs, r[k]) == 1 + FirstNaming(cs[1..], r[k])
  {
    forall k | |out'| <= k < |r| ensures FirstNaming(cs, r[k]) == 1 + FirstNaming(cs[1..], r[k]) {
      assert r[k] != ImageOf(cs[0]);
    }
  }

  /** The images appended for the whole list are new, not blank and named by some container. */
  lemma FirstOrderNew(out: seq<string>, out': seq<string>, cs: seq<Container>, r: seq<string>)
    requires cs != [] && |out'| <= |r| && r[..|out'|] == out'
    requires out' == out || (out' == out + [ImageOf(cs[0])] && ImageOf(cs[0]) != "" && ImageOf(cs[0]) !in out)
    requires forall k | |out'| <= k < |r| :: r[k] !in out' && r[k] != "" && FirstNaming(cs[1..], r[k]) < |cs[1..]|
    requires forall k | |out'| <= k < |r| :: FirstNaming(cs, r[k]) == 1 + FirstNaming(cs[1..], r[k])
    ensures forall k | |out| <= k < |r| :: r[k] !in out && r[k] != "" && FirstNaming(cs, r[k]) < |cs|
  {
    forall k | |out| <= k < |r| ensures r[k] !in out && r[k] != "" && FirstNaming(cs, r[k]) < |cs| {
      if k < |out'| {
        assert out' != out && k == |out|;
        assert r[k] == out'[k] == ImageOf(cs[0]);
      } else if out' != out {
        assert forall x <- out :: x in out';
      }
    }
  }

  /** The images appended for the whole list are ordered by their first container. */
  lemma FirstOrderSorted(out: seq<string>, out': seq<string>, cs: seq<Container>, r: seq<string>)
    requires cs != [] && |out'| <= |r| && r[..|out'|] == out'
    requires out' == out || (out' == out + [ImageOf(cs[0])] && ImageOf(cs[0]) != "")
    requires forall k | |out'| <= k < |r| :: FirstNaming(cs, r[k]) == 1 + FirstNaming(cs[1..], r[k])
    requires forall k, l | |out'| <= k < l < |r| :: FirstNaming(cs[1..], r[k]) < FirstNaming(cs[1..], r[l])
    ensures forall k, l | |out| <= k < l < |r| :: FirstNaming(cs, r[k]) < FirstNaming(cs, r[l])
  {
    if out' != out {
      assert r[|out|] == out'[|out|] == ImageOf(cs[0]);
      assert FirstNaming(cs, r[|out|]) == 0;
    }
  }

  /**
   * `collectPodImages` keeps first-occurrence order: of two collected
   * images, the earlier one is named earlier by the init containers
   * followed by the containers.
   */
  lemma PodImagesFirstOccurrenceOrder(spec: PodSpec)
    ensures var all := spec.initContainers + spec.containers;
      var out := PodImages(spec);
      && (forall i | 0 <= i < |out| :: FirstNaming(all, out[i]) < |all|)
      && (forall i, j | 0 <= i < j < |out| :: FirstNaming(all, out[i]) < FirstNaming(all, out[j]))
  {
    AddAllAppend([], spec.initContainers, spec.containers);
    AddAllFirstOrder([], spec.initContainers + spec.containers);
  }

  /** The containers of a listed pod; an object of another kind has none. */
  function PodSpecOf(o: Object): PodSpec
  {
    if o.body.PodBody? then o.body.podSpec else PodSpec([], [])
  }

  /** The key `r.Delete(pod)` addresses. */
  function EvictionKey(pod: Object): (k: Key)
    ensures k.kind == PodKind
  {
    Key(PodKind, pod.meta.namespace, pod.meta.name)
  }

  /** The verifier and the notifier the pass calls out to. */
  datatype Enforcer = Enforcer(verify: string -> Option<VerifyError>, notify: Message -> bool)

  /** The index of the first image that is not blank and fails verification. */
  function FirstFailure(verify: string -> Option<VerifyError>, images: seq<string>): (r: Option<nat>)
    ensures r.Some? ==> r.value < |images| && !Blank(images[r.value]) && verify(images[r.value]).Some?
    ensures r.Some? ==> forall j | 0 <= j < r.value :: Blank(images[j]) || verify(images[j]).None?
    ensures r.None? ==> forall j | 0 <= j < |images| :: Blank(images[j]) || verify(images[j]).None?
  {
    if images == [] then None
    else if !Blank(images[0]) && verify(images[0]).Some? then Some(0)
    else match FirstFailure(verify, images[1..])
      case None => None
      case Some(i) => Some(i + 1)
  }

  /** Past an image that passes, the first failure is the one of the rest, one place later, and so are the checks. */
  lemma SkipPassing(verify: string -> Option<VerifyError>, images: seq<string>)
    requires images != [] && (Blank(images[0]) || verify(images[0]).None?)
    ensures FirstFailure(verify, images).None? <==> FirstFailure(verify, images[1..]).None?
    ensures FirstFailure(verify, images).Some? ==>
      && FirstFailure(verify, images).value == FirstFailure(verify, images[1..]).value + 1
      && images[FirstFailure(verify, images).value] == images[1..][FirstFailure(verify, images[1..]).value]
    ensures Checked(verify, images) == (if Blank(images[0]) then [] else [Verified(images[0])]) + Checked(verify, images[1..])
  {
  }

  /**
   * What the pass may do: check signatures, delete pods and notify. Nothing
   * but pods is deleted and nothing is created or updated.
   */
  ghost predicate EnforcementOnly(a: ClusterState, b: ClusterState)
  {
    && b.faults == a.faults && b.nextUid == a.nextUid && b.order == a.order
    && |a.calls| <= |b.calls| && b.calls[..|a.calls|] == a.calls
    && (forall i | |a.calls| <= i < |b.calls| ::
          b.calls[i].Verified? || b.calls[i].Notified? || (b.calls[i].Deleted? && b.calls[i].key.kind == PodKind))
    && (forall k: Key | k.kind != PodKind :: k in a.objects <==> k in b.objects)
    && (forall k: Key | k.kind != PodKind && k in a.objects :: b.objects[k] == a.objects[k])
  }

  lemma EnforcementOnlyTrans(a: ClusterState, b: ClusterState, c: ClusterState)
    requires EnforcementOnly(a, b) && EnforcementOnly(b, c)
    ensures EnforcementOnly(a, c)
  {
    forall i | |a.calls| <= i < |c.calls|
      ensures c.calls[i].Verified? || c.calls[i].Notified? || (c.calls[i].Deleted? && c.calls[i].key.kind == PodKind)
    {
      if i < |b.calls| {
        assert c.calls[i] == b.calls[i];
      }
    }
  }

  /** The signature checks the image loop makes: each non-blank image up to and including the first failure. */
  function Checked(verify: string -> Option<VerifyError>, images: seq<string>): (cs: seq<Call>)
    ensures forall c <- cs :: c.Verified? && c.image in images
    decreases |images|
  {
    if images == [] then []
    else if Blank(images[0]) then Checked(verify, images[1..])
    else if verify(images[0]).Some? then [Verified(images[0])]
    else [Verified(images[0])] + Checked(verify, images[1..])
  }

  /** The notification sent for a pod deleted because of `image`. */
  function EvictionNotice(t: Tenant, pod: Object, image: string, verdict: VerifyError): Message
  {
    PodEvicted(t.meta.name, "tenant-" + t.meta.name, pod.meta.name, image, verdict)
  }

  /** The enforcement action: delete the pod, then notify, whatever the delete returned. */
  function Evict(s: ClusterState, e: Enforcer, t: Tenant, pod: Object, image: string, verdict: VerifyError): (r: ClusterState)
    ensures r.calls == s.calls + [Deleted(EvictionKey(pod)), Notified(EvictionNotice(t, pod, image, verdict))]
    ensures r.objects == DeleteStep(s, EvictionKey(pod)).0.objects
    ensures EnforcementOnly(s, r)
  {
    var (s1, _) := DeleteStep(s, EvictionKey(pod));
    var (s2, _) := NotifyStep(s1, e.notify, EvictionNotice(t, pod, image, verdict));
    s2
  }

  /**
   * The image loop for one pod: blank images are skipped, each other image
   * is verified, and the first failure evicts the pod and ends the loop. A
   * pod is evicted at most once, and only for an image that failed.
   */
  function ScanImages(s: ClusterState, e: Enforcer, t: Tenant, pod: Object, images: seq<string>): (r: ClusterState)
    ensures var checked := s.(calls := s.calls + Checked(e.verify, images));
      && (FirstFailure(e.verify, images).None? ==> r == checked)
      && (FirstFailure(e.verify, images).Some? ==>
            var image := images[FirstFailure(e.verify, images).value];
            r == Evict(checked, e, t, pod, image, e.verify(image).value))
    decreases |images|
  {
    if images == [] then
      assert s.calls + [] == s.calls;
      s
    else if Blank(images[0]) then
      SkipPassing(e.verify, images);
      assert [] + Checked(e.verify, images[1..]) == Checked(e.verify, images[1..]);
      ScanImages(s, e, t, pod, images[1..])
    else
      var (s1, verdict) := VerifyStep(s, e.verify, images[0]);
      if verdict.None? then
        SkipPassing(e.verify, images);
        var r := ScanImages(s1, e, t, pod, images[1..]);
        assert s1.calls + Checked(e.verify, images[1..]) == s.calls + Checked(e.verify, images);
        r
      else
        assert Checked(e.verify, images) == [Verified(images[0])];
        Evict(s1, e, t, pod, images[0], verdict.value)
  }

  /** Signature checks alone change nothing but the call record. */
  lemma OnlyChecksAppended(s: ClusterState, cs: seq<Call>)
    requires forall c <- cs :: c.Verified?
    ensures EnforcementOnly(s, s.(calls := s.calls + cs))
  {
    var r := s.(calls := s.calls + cs);
    forall i | |s.calls| <= i < |r.calls| ensures r.calls[i].Verified? {
      assert r.calls[i] == cs[i - |s.calls|];
    }
  }

  lemma ScanImagesEnforcementOnly(s: ClusterState, e: Enforcer, t: Tenant, pod: Object, images: seq<string>)
    ensures EnforcementOnly(s, ScanImages(s, e, t, pod, images))
  {
    var checked := s.(calls := s.calls + Checked(e.verify, images));
    OnlyChecksAppended(s, Checked(e.verify, images));
    if FirstFailure(e.verify, images).Some? {
      var image := images[FirstFailure(e.verify, images).value];
      EnforcementOnlyTrans(s, checked, Evict(checked, e, t, pod, image, e.verify(image).value));
    }
  }

  /** A pod the pass deletes: one not already being deleted, with an image that fails. */
  predicate Evicts(e: Enforcer, pod: Object)
  {
    !pod.meta.deleting && FirstFailure(e.verify, PodImages(PodSpecOf(pod))).Some?
  }

  /** The delete and the notification that end the image loop at its first failure, if any. */
  function EvictionCalls(e: Enforcer, t: Tenant, pod: Object, images: seq<string>): seq<Call>
  {
    match FirstFailure(e.verify, images)
    case None => []
    case Some(i) => [Deleted(EvictionKey(pod)), Notified(EvictionNotice(t, pod, images[i], e.verify(images[i]).value))]
  }

  /** The calls the pod loop makes for one pod: none for a pod being deleted, otherwise its image loop's. */
  function PodCalls(e: Enforcer, t: Tenant, pod: Object): seq<Call>
  {
    if pod.meta.deleting then []
    else
      var images := PodImages(PodSpecOf(pod));
      Checked(e.verify, images) + EvictionCalls(e, t, pod, images)
  }

  /** The calls the pod loop makes for `pods`, pod after pod. */
  function PodsCalls(e: Enforcer, t: Tenant, pods: seq<Object>): seq<Call>
    decreases |pods|
  {
    if pods == [] then [] else PodCalls(e, t, pods[0]) + PodsCalls(e, t, pods[1..])
  }

  /** The keys of the deletes among `cs`, in order. */
  function Deletes(cs: seq<Call>): (ks: seq<Key>)
    ensures |ks| <= |cs|
    decreases |cs|
  {
    if cs == [] then []
    else (if cs[0].Deleted? then [cs[0].key] else []) + Deletes(cs[1..])
  }

  lemma {:induction false} DeletesAppend(a: seq<Call>, b: seq<Call>)
    ensures Deletes(a + b) == Deletes(a) + Deletes(b)
    decreases |a|
  {
    if a == [] {
      assert a + b == b;
    } else {
      assert (a + b)[0] == a[0] && (a + b)[1..] == a[1..] + b;
      DeletesAppend(a[1..], b);
    }
  }

  /** Signature checks delete nothing. */
  lemma {:induction false} CheckedDeletesNothing(verify: string -> Option<VerifyError>, images: seq<string>)
    ensures Deletes(Checked(verify, images)) == []
    decreases |images|
  {
    if images != [] {
      CheckedDeletesNothing(verify, images[1..]);
      if !Blank(images[0]) {
        DeletesAppend([Verified(images[0])], Checked(verify, images[1..]));
      }
    }
  }

  /**
   * Each pod is deleted at most once, and exactly when it is not already
   * being deleted and one of its images fails; a pod being deleted is
   * neither verified nor deleted.
   */
  lemma PodDeletedOnlyIfAnImageFails(e: Enforcer, t: Tenant, pod: Object)
    ensures Deletes(PodCalls(e, t, pod)) == if Evicts(e, pod) then [EvictionKey(pod)] else []
    ensures pod.meta.deleting ==> PodCalls(e, t, pod) == []
    ensures forall c <- PodCalls(e, t, pod) | c.Verified? :: c.image in PodImages(PodSpecOf(pod))
  {
    if !pod.meta.deleting {
      var images := PodImages(PodSpecOf(pod));
      CheckedDeletesNothing(e.verify, images);
      DeletesAppend(Checked(e.verify, images), EvictionCalls(e, t, pod, images));
      var ev := EvictionCalls(e, t, pod, images);
      if ev != [] {
        assert ev[1..][1..] == [];
        assert Deletes(ev) == [EvictionKey(pod)] + Deletes(ev[1..]);
      }
    }
  }

  /** The pods the loop deletes, in order: the keys of those it evicts. */
  function EvictedKeys(e: Enforcer, pods: seq<Object>): seq<Key>
    decreases |pods|
  {
    if pods == [] then [] else (if Evicts(e, pods[0]) then [EvictionKey(pods[0])] else []) + EvictedKeys(e, pods[1..])
  }

  /** The pod loop deletes exactly the pods it evicts, each once, in list order. */
  lemma {:induction false} PodsDeletedInOrder(e: Enforcer, t: Tenant, pods: seq<Object>)
    ensures Deletes(PodsCalls(e, t, pods)) == EvictedKeys(e, pods)
    decreases |pods|
  {
    if pods != [] {
      DeletesAppend(PodCalls(e, t, pods[0]), PodsCalls(e, t, pods[1..]));
      PodDeletedOnlyIfAnImageFails(e, t, pods[0]);
      PodsDeletedInOrder(e, t, pods[1..]);
    }
  }

  /** A key is deleted by the pod loop exactly when it is the key of a pod the loop evicts. */
  lemma {:induction false} EvictedKeysMembers(e: Enforcer, pods: seq<Object>, k: Key)
    ensures k in EvictedKeys(e, pods) <==> exists p <- pods :: Evicts(e, p) && EvictionKey(p) == k
    decreases |pods|
  {
    if pods != [] {
      EvictedKeysMembers(e, pods[1..], k);
      if exists p <- pods :: Evicts(e, p) && EvictionKey(p) == k {
        var p :| p in pods && Evicts(e, p) && EvictionKey(p) == k;
        if p != pods[0] {
          assert p in pods[1..];
        }
      }
      if exists p <- pods[1..] :: Evicts(e, p) && EvictionKey(p) == k {
        var p :| p in pods[1..] && Evicts(e, p) && EvictionKey(p) == k;
        assert p in pods;
      }
    }
  }

  /** The calls of one pod's scan are its checks, then its eviction, if any. */
  lemma PodScanCalls(s: ClusterState, e: Enforcer, t: Tenant, pod: Object)
    ensures (if pod.meta.deleting then s else ScanImages(s, e, t, pod, PodImages(PodSpecOf(pod)))).calls == s.calls + PodCalls(e, t, pod)
  {
    var images := PodImages(PodSpecOf(pod));
    if pod.meta.deleting {
      assert s.calls + [] == s.calls;
    } else {
      var checked := s.(calls := s.calls + Checked(e.verify, images));
      if FirstFailure(e.verify, images).None? {
        assert Checked(e.verify, images) + [] == Checked(e.verify, images);
      } else {
        assert checked.calls + EvictionCalls(e, t, pod, images) == s.calls + (Checked(e.verify, images) + EvictionCalls(e, t, pod, images));
      }
    }
  }

  /** The pod loop: a pod being deleted is skipped; the others have their images scanned. */
  function ScanPods(s: ClusterState, e: Enforcer, t: Tenant, pods: seq<Object>): (r: ClusterState)
    ensures EnforcementOnly(s, r)
    decreases |pods|
  {
    if pods == [] then s
    else
      var s1 := if pods[0].meta.deleting then s else ScanImages(s, e, t, pods[0], PodImages(PodSpecOf(pods[0])));
      ScanImagesEnforcementOnly(s, e, t, pods[0], PodImages(PodSpecOf(pods[0])));
      var r := ScanPods(s1, e, t, pods[1..]);
      EnforcementOnlyTrans(s, s1, r);
      r
  }

  /** The pod loop makes the calls of each pod in turn. */
  lemma {:induction false} ScanPodsCalls(s: ClusterState, e: Enforcer, t: Tenant, pods: seq<Object>)
    ensures ScanPods(s, e, t, pods).calls == s.calls + PodsCalls(e, t, pods)
    decreases |pods|
  {
    if pods == [] {
      assert s.calls + [] == s.calls;
    } else {
      var s1 := if pods[0].meta.deleting then s else ScanImages(s, e, t, pods[0], PodImages(PodSpecOf(pods[0])));
      assert ScanPods(s, e, t, pods) == ScanPods(s1, e, t, pods[1..]);
      PodScanCalls(s, e, t, pods[0]);
      ScanPodsCalls(s1, e, t, pods[1..]);
      CallsThen(s.calls, s1.calls, ScanPods(s1, e, t, pods[1..]).calls, PodCalls(e, t, pods[0]), PodsCalls(e, t, pods[1..]));
    }
  }

  lemma CallsThen(a: seq<Call>, b: seq<Call>, c: seq<Call>, ab: seq<Call>, bc: seq<Call>)
    requires b == a + ab && c == b + bc
    ensures c == a + (ab + bc)
  {
  }

  /** The scanner's isolation test: case and surrounding spaces are ignored. */
  predicate ScanIsolated(t: Tenant)
  {
    TrimSpace(ToLower(t.spec.isolation)) == "namespace"
  }

  /**
   * One tenant of the pass: only a namespace-isolated tenant is scanned, and
   * a failure to list its pods (absent namespace or any other) skips it.
   */
  function ScanTenant(s: ClusterState, e: Enforcer, t: Tenant): (r: ClusterState)
    ensures EnforcementOnly(s, r)
    ensures !ScanIsolated(t) ==> r == s
    ensures ListStep(s, PodKind, "tenant-" + t.meta.name).Err? ==> r == s
  {
    if !ScanIsolated(t) then s
    else match ListStep(s, PodKind, "tenant-" + t.meta.name)
      case Err(_) => s
      case Ok(pods) => ScanPods(s, e, t, pods)
  }

  function ScanTenants(s: ClusterState, e: Enforcer, ts: seq<Tenant>): (r: ClusterState)
    ensures EnforcementOnly(s, r)
    decreases |ts|
  {
    if ts == [] then s
    else
      var s1 := ScanTenant(s, e, ts[0]);
      var r := ScanTenants(s1, e, ts[1..]);
      EnforcementOnlyTrans(s, s1, r);
      r
  }

  /** The calls one tenant's scan makes from `s`: none unless it is isolated and its pods can be listed. */
  function TenantCalls(s: ClusterState, e: Enforcer, t: Tenant): seq<Call>
  {
    if !ScanIsolated(t) then []
    else match ListStep(s, PodKind, "tenant-" + t.meta.name)
      case Err(_) => []
      case Ok(pods) => PodsCalls(e, t, pods)
  }

  /**
   * One tenant's scan makes its pod loop's calls; for an isolated tenant
   * whose pods are listed, it deletes exactly the pods it evicts, in list
   * order.
   */
  lemma ScanTenantCalls(s: ClusterState, e: Enforcer, t: Tenant)
    ensures ScanTenant(s, e, t).calls == s.calls + TenantCalls(s, e, t)
    ensures ScanIsolated(t) && ListStep(s, PodKind, "tenant-" + t.meta.name).Ok? ==>
      Deletes(TenantCalls(s, e, t)) == EvictedKeys(e, ListStep(s, PodKind, "tenant-" + t.meta.name).value)
  {
    if ScanIsolated(t) && ListStep(s, PodKind, "tenant-" + t.meta.name).Ok? {
      var pods := ListStep(s, PodKind, "tenant-" + t.meta.name).value;
      ScanPodsCalls(s, e, t, pods);
      PodsDeletedInOrder(e, t, pods);
    } else {
      assert s.calls + [] == s.calls;
    }
  }

  /** Scanning `a + b` is scanning `a`, then `b` from where `a` left the store. */
  lemma {:induction false} ScanTenantsAppend(s: ClusterState, e: Enforcer, a: seq<Tenant>, b: seq<Tenant>)
    ensures ScanTenants(s, e, a + b) == ScanTenants(ScanTenants(s, e, a), e, b)
    decreases |a|
  {
    if a == [] {
      assert a + b == b;
    } else {
      assert (a + b)[0] == a[0] && (a + b)[1..] == a[1..] + b;
      ScanTenantsAppend(ScanTenant(s, e, a[0]), e, a[1..], b);
    }
  }

  /** A tenant that is not isolated, or whose pods cannot be listed, is passed over and the rest are still scanned. */
  lemma ScanTenantsSkip(s: ClusterState, e: Enforcer, t: Tenant, rest: seq<Tenant>)
    requires !ScanIsolated(t) || ListStep(s, PodKind, "tenant-" + t.meta.name).Err?
    ensures ScanTenants(s, e, [t] + rest) == ScanTenants(s, e, rest)
    ensures TenantCalls(s, e, t) == []
  {
    assert ([t] + rest)[0] == t && ([t] + rest)[1..] == rest;
  }

  lemma ScanTenantsSplit(s: ClusterState, e: Enforcer, ts: seq<Tenant>, i: nat)
    requires i < |ts|
    ensures ScanTenants(s, e, ts) == ScanTenants(ScanTenant(ScanTenants(s, e, ts[..i]), e, ts[i]), e, ts[i + 1..])
  {
    var rest := [ts[i]] + ts[i + 1..];
    assert ts == ts[..i] + rest;
    ScanTenantsAppend(s, e, ts[..i], rest);
    assert rest[0] == ts[i] && rest[1..] == ts[i + 1..];
  }

  /**
   * The i-th tenant of a pass is scanned from the store the earlier ones
   * left: its calls follow theirs, are exactly its own tenant calls, and
   * the later tenants follow from there. For an isolated tenant whose pods
   * are listed, the deletes among its calls are the pods it evicts.
   */
  lemma ScanTenantsAt(s: ClusterState, e: Enforcer, ts: seq<Tenant>, i: nat)
    requires i < |ts|
    ensures var mid := ScanTenants(s, e, ts[..i]);
      var after := ScanTenant(mid, e, ts[i]);
      var r := ScanTenants(s, e, ts);
      && r == ScanTenants(after, e, ts[i + 1..])
      && |mid.calls| <= |after.calls| <= |r.calls|
      && r.calls[|mid.calls|..|after.calls|] == TenantCalls(mid, e, ts[i])
      && (ScanIsolated(ts[i]) && ListStep(mid, PodKind, "tenant-" + ts[i].meta.name).Ok? ==>
            Deletes(r.calls[|mid.calls|..|after.calls|]) == EvictedKeys(e, ListStep(mid, PodKind, "tenant-" + ts[i].meta.name).value))
  {
    var mid := ScanTenants(s, e, ts[..i]);
    var after := ScanTenant(mid, e, ts[i]);
    var r := ScanTenants(s, e, ts);
    ScanTenantsSplit(s, e, ts, i);
    ScanTenantCalls(mid, e, ts[i]);
    assert r.calls[..|after.calls|] == after.calls;
    assert after.calls[|mid.calls|..] == TenantCalls(mid, e, ts[i]);
  }

  /** The listed objects read as Tenants. */
  function TenantsOf(objs: seq<Object>): (ts: seq<Tenant>)
    ensures |ts| <= |objs|
  {
    if objs == [] then []
    else match AsTenant(objs[0])
      case Some(t) => [t] + TenantsOf(objs[1..])
      case None => TenantsOf(objs[1..])
  }

  /** The listed objects are read in order: those of an earlier slice come first. */
  lemma {:induction false} TenantsOfAppend(a: seq<Object>, b: seq<Object>)
    ensures TenantsOf(a + b) == TenantsOf(a) + TenantsOf(b)
    decreases |a|
  {
    if a == [] {
      assert a + b == b;
    } else {
      var h := if AsTenant(a[0]).Some? then [AsTenant(a[0]).value] else [];
      assert (a + b)[0] == a[0] && (a + b)[1..] == a[1..] + b;
      assert TenantsOf(a + b) == h + TenantsOf(a[1..] + b);
      TenantsOfAppend(a[1..], b);
      var x, y := TenantsOf(a[1..]), TenantsOf(b);
      assert h + (x + y) == (h + x) + y;
    }
  }

  /** The tenants read are exactly the Tenant-bodied objects listed, each as its typed view. */
  lemma {:induction false} TenantsOfMembers(objs: seq<Object>, t: Tenant)
    ensures t in TenantsOf(objs) <==> exists o <- objs :: AsTenant(o) == Some(t)
    decreases |objs|
  {
    if objs != [] {
      TenantsOfMembers(objs[1..], t);
      if exists o <- objs :: AsTenant(o) == Some(t) {
        var o :| o in objs && AsTenant(o) == Some(t);
        if o != objs[0] {
          assert o in objs[1..];
        }
      }
      if exists o <- objs[1..] :: AsTenant(o) == Some(t) {
        var o :| o in objs[1..] && AsTenant(o) == Some(t);
        assert o in objs;
      }
    }
  }

  /**
   * `scanAndEnforcePodImages`: list every Tenant (in all namespaces) and scan
   * them in order. Only a failure to list the Tenants is an error.
   */
  function ScanPass(s: ClusterState, e: Enforcer): (r: (ClusterState, Option<Error>))
    ensures r.1.Some? <==> ListStep(s, TenantKind, "").Err?
    ensures r.1.Some? ==> r.0 == s && r.1.value == Failed("list tenants", ListStep(s, TenantKind, "").error)
    ensures EnforcementOnly(s, r.0)
  {
    match ListStep(s, TenantKind, "")
    case Err(err) => (s, Some(Failed("list tenants", err)))
    case Ok(objs) => (ScanTenants(s, e, TenantsOf(objs)), None)
  }

  /** A tenant with "namespace" isolation for `Reconcile` is also scanned. */
  lemma ReconciledTenantsAreScanned(t: Tenant)
    requires t.spec.isolation == "namespace"
    ensures ScanIsolated(t)
  {
    ToLowerOfLower(t.spec.isolation);
    TrimSpaceOfTrimmed(t.spec.isolation);
  }

  /**
   * The converse fails: the scanner accepts a spelling that `Reconcile`
   * rejects, so such a tenant is scanned but never linked to its Namespace.
   */
  lemma IsolationSpellingsDisagree(t: Tenant)
    requires t.spec.isolation == "Namespace"
    ensures ScanIsolated(t) && t.spec.isolation != "namespace"
  {
    var iso := t.spec.isolation;
    var lower := ToLower(iso);
    assert lower[0] == 'n';
    assert lower[1..] == iso[1..] by {
      ToLowerOfLower(iso[1..]);
      assert lower[1..] == ToLower(iso[1..]);
    }
    assert lower == "namespace";
    TrimSpaceOfTrimmed(lower);
  }

  /** The scan interval: 20 seconds unless the variable holds a positive duration. */
  const DefaultScanInterval: int := 20 * 1000000000

  /**
   * The controller's `getenv`: the trimmed value, or the default when that is
   * empty.
   */
  function ControllerGetenv(env: Env, key: string, default: string): (v: string)
    ensures TrimSpace(Getenv(env, key)) != "" ==> v == TrimSpace(Getenv(env, key)) && Trimmed(v)
    ensures TrimSpace(Getenv(env, key)) == "" ==> v == default
  {
    var v := TrimSpace(Getenv(env, key));
    if v != "" then v else default
  }

  /**
   * The interval in nanoseconds, from SHIELDX_SIGNATURE_SCAN_INTERVAL read
   * lower-cased and trimmed; `parseDuration` stands for `time.ParseDuration`.
   * An unset, unparsable, zero or negative value leaves the default.
   */
  function ScanInterval(env: Env, parseDuration: string -> Option<int>): (d: int)
    ensures d > 0
    ensures var v := TrimSpace(ToLower(ControllerGetenv(env, "SHIELDX_SIGNATURE_SCAN_INTERVAL", "")));
      v != "" && parseDuration(v).Some? && parseDuration(v).value > 0 ==> d == parseDuration(v).value
    ensures var v := TrimSpace(ToLower(ControllerGetenv(env, "SHIELDX_SIGNATURE_SCAN_INTERVAL", "")));
      !(v != "" && parseDuration(v).Some? && parseDuration(v).value > 0) ==> d == DefaultScanInterval
  {
    var v := TrimSpace(ToLower(ControllerGetenv(env, "SHIELDX_SIGNATURE_SCAN_INTERVAL", "")));
    if v == "" then DefaultScanInterval
    else match parseDuration(v)
      case Some(d) => if d > 0 then d else DefaultScanInterval
      case None => DefaultScanInterval
  }

  /** `collectPodImages`, with the `seen` set of the original. */
  method CollectPodImages(spec: PodSpec) returns (out: seq<string>)
    ensures out == PodImages(spec)
  {
    out := [];
    var seen: set<string> := {};
    var init := spec.initContainers;
    for i := 0 to |init|
      invariant forall x :: x in seen <==> x in out
      invariant AddAll(out, init[i..]) == AddAll([], init)
    {
      assert init[i..][0] == init[i] && init[i..][1..] == init[i + 1..];
      var img := TrimSpace(init[i].image);
      if img != "" && img !in seen {
        seen := seen + {img};
        out := out + [img];
      }
    }
    var cs := spec.containers;
    ghost var afterInit := out;
    assert afterInit == AddAll([], init) by { assert init[|init|..] == []; }
    for i := 0 to |cs|
      invariant forall x :: x in seen <==> x in out
      invariant AddAll(out, cs[i..]) == AddAll(afterInit, cs)
    {
      assert cs[i..][0] == cs[i] && cs[i..][1..] == cs[i + 1..];
      var img := TrimSpace(cs[i].image);
      if img != "" && img !in seen {
        seen := seen + {img};
        out := out + [img];
      }
    }
    assert cs[|cs|..] == [];
  }
}
