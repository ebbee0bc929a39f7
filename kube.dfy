/**
  Value types of the Kubernetes API that the owner resolver and the pod
  watcher read: object metadata, owner references, object references,
  and the error values the API client reports.
*/
module Kube {

  datatype Option<+T> = None | Some(value: T)

  /** The outcome of an API call: a value, or the error the client returned. */
  datatype Result<+T> = Ok(value: T) | Err(error: Error)

  /** A unique id; the empty string means "not assigned". */
  type UID = string

  /** The errors the core can see. */
  datatype Error =
    | Undeployed              // empty UID: "Can only get owners of deployed entities"
    | NotFound                // the API server has no object under that name
    | MappingFailed(gvk: GVK) // no REST mapping for the kind
    | RequestFailed(reason: string)

  /** An apiVersion/kind pair, used only as a key. */
  datatype GVK = GVK(apiVersion: string, kind: string)

  /** One entry of an object's ownerReferences. */
  datatype OwnerReference = OwnerReference(apiVersion: string, kind: string, name: string, uid: UID)

  /** The part of an object's metadata the watcher and the resolver read. */
  datatype ObjectMeta = ObjectMeta(
    name: string,
    namespace: string,
    uid: UID,
    ownerReferences: seq<OwnerReference>,
    labels: map<string, string>,
    deleting: bool)  // DeletionTimestamp != nil

  datatype TypeMeta = TypeMeta(apiVersion: string, kind: string)

  /** A reference to an object, as stored in an owner tree. */
  datatype ObjectReference = ObjectReference(
    kind: string,
    namespace: string,
    name: string,
    uid: UID,
    apiVersion: string)

  /** The key of the bulk-fetch table: one kind in one namespace. */
  datatype ResourceNamespace = ResourceNamespace(namespace: string, gvk: GVK)

  /** The key under which the API server answers a direct get. */
  datatype ObjectKey = ObjectKey(namespace: string, gvk: GVK, name: string)

  function RefGVK(ref: ObjectReference): GVK {
    GVK(ref.apiVersion, ref.kind)
  }

  function KeyOf(ref: ObjectReference): ObjectKey {
    ObjectKey(ref.namespace, RefGVK(ref), ref.name)
  }

  /** The zero value of ObjectReference. */
  const EmptyRef := ObjectReference("", "", "", "", "")
}
