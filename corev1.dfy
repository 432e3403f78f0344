/** The part of the Kubernetes core/v1 API that the reconcilers read and write. */
module CoreV1 {
  import opened Wrappers

  /** A Go slice. A nil slice is kept apart from an allocated one, because the
      reconcilers copy a slice as it is, nil or not. */
  datatype Slice<T> = Nil | Items(elems: seq<T>) {

    /** The elements; a nil slice has none. */
    function Elements(): (r: seq<T>) {
      if Nil? then [] else elems
    }
  }

  datatype TypeMeta = TypeMeta(kind: string, apiVersion: string)

  /** Object metadata. Name and namespace form the identity key; the other
      fields stand for what the server and other actors keep there. */
  datatype ObjectMeta = ObjectMeta(
    name: string,
    namespace: string,
    uid: string,
    resourceVersion: string,
    labels: map<string, string>,
    annotations: map<string, string>)

  /** Metadata with only a name and a namespace set, everything else at Go's zero value. */
  function NamedMeta(name: string, namespace: string): (m: ObjectMeta) {
    ObjectMeta(name, namespace, "", "", map[], map[])
  }

  datatype NamespaceSpec = NamespaceSpec(finalizers: Slice<string>)

  datatype NamespaceStatus = NamespaceStatus(phase: string)

  /** A /v1, Kind=Namespace. */
  datatype Namespace = Namespace(
    typeMeta: TypeMeta,
    meta: ObjectMeta,
    spec: NamespaceSpec,
    status: NamespaceStatus)

  datatype ObjectReference = ObjectReference(
    kind: string,
    namespace: string,
    name: string,
    uid: string,
    apiVersion: string,
    resourceVersion: string,
    fieldPath: string)

  datatype LocalObjectReference = LocalObjectReference(name: string)

  /** A /v1, Kind=ServiceAccount. `automountServiceAccountToken` is a `*bool`:
      absent, true or false. */
  datatype ServiceAccount = ServiceAccount(
    typeMeta: TypeMeta,
    meta: ObjectMeta,
    secrets: Slice<ObjectReference>,
    imagePullSecrets: Slice<LocalObjectReference>,
    automountServiceAccountToken: Option<bool>)
}
