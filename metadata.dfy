/** Value types shared by the resolvers: the optional wrapper, the metadata
    maps of a resource object and the parts of a generic (unstructured)
    resource object that the resolvers look at. */
module Metadata {

  datatype Option<+T> = None | Some(value: T)

  /** Labels and annotations: string keys to string values. */
  type StringMap = map<string, string>

  /** Go's `m[k]` on a `map[string]string`: a missing key reads as "". */
  function Get(m: StringMap, k: string): (v: string)
    ensures k in m ==> v == m[k]
    ensures k !in m ==> v == ""
  {
    if k in m then m[k] else ""
  }

  /** The two fields of an owner reference that the lookup compares. */
  datatype OwnerReference = OwnerReference(kind: string, name: string)

  /** The `spec.clusterName` slot of an unstructured object: absent, a string,
      or present under a shape that cannot be read as a string. */
  datatype ClusterNameField = Absent | Str(value: string) | Malformed

  /** The parts of an unstructured resource object the resolvers read. */
  datatype Resource = Resource(
    labels: StringMap,
    annotations: StringMap,
    ownerReferences: seq<OwnerReference>,
    specClusterName: ClusterNameField)
}
