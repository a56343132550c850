/** Object metadata shared by every stored object (Kubernetes `metav1.ObjectMeta`). */
module Meta {

  /** The store's unique identifier of an object, assigned when it is created. */
  type Uid = nat

  /**
   * A pointer from an object to one of its owners. `controller` and
   * `blockOwnerDeletion` stand for the two optional booleans (absent is false).
   */
  datatype OwnerReference = OwnerReference(
    apiVersion: string,
    kind: string,
    name: string,
    uid: Uid,
    controller: bool,
    blockOwnerDeletion: bool)

  /** `deleting` stands for a set deletion timestamp. */
  datatype ObjectMeta = ObjectMeta(
    name: string,
    namespace: string,
    uid: Uid,
    labels: map<string, string>,
    ownerReferences: seq<OwnerReference>,
    finalizers: seq<string>,
    deleting: bool)

  /** The metadata of an object a client builds before the store has seen it. */
  function NewMeta(name: string, namespace: string): ObjectMeta
  {
    ObjectMeta(name, namespace, 0, map[], [], [], false)
  }
}
