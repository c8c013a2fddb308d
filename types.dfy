/** The cluster records the dashboard handles, abstracted to the metadata the
    core reads (name, namespace, labels) plus, for pods, their container
    specs; and the errors the core can report. */
module ApiTypes {
  import opened Wrappers

  /** A label set: keys are unique by construction. */
  type Labels = map<string, string>

  /** The object metadata every listed record carries. */
  datatype Meta = Meta(name: string, namespace: string, labels: Labels)

  /** A container spec, as listed in a pod's spec. */
  datatype Container = Container(name: string, image: string)

  /** A pod: its metadata and its container specs in spec order. */
  datatype Pod = Pod(meta: Meta, containers: seq<Container>)

  /** The record types that carry nothing the core reads beyond their metadata. */
  datatype MetaKind =
    | ProjectKind | RouteKind | ServiceKind | ImageStreamKind | BuildConfigKind
    | BuildKind | DeploymentConfigKind | ReplicationControllerKind | EventKind

  /** A dynamically typed element of an untyped list (a Go `interface{}`):
      the variant is its runtime type. */
  datatype Object =
    | MetaObj(kind: MetaKind, meta: Meta)
    | PodObj(pod: Pod)
    | ContainerObj(container: Container)
    | OtherObj(typeName: string)

  /** A typed list handed to a filter helper: the variant is its static type. */
  datatype Listing =
    | MetaList(kind: MetaKind, metas: seq<Meta>)
    | PodList(pods: seq<Pod>)
    | ContainerList(containers: seq<Container>)
    | OtherList(typeName: string)

  /** The errors the core reports. */
  datatype Error =
    | ClusterError(message: string)          // reported by the cluster client
    | UnknownResourceType(resourceType: string)
    | WrongType(field: string)               // an element of the wrong runtime type
    | EmptyPods                              // containers extracted before pods were loaded
    | UnsupportedTransformation              // a filter was given a list type it does not handle
    | LoadFailed(errors: seq<Error>)         // a fetch of one resource type failed
    | TimedOut                               // a fetch did not deliver within 10 seconds

  /** Looks a key up in a label set, as a Go map index with `found` does. */
  function Lookup(labels: Labels, key: string): (r: Option<string>)
    ensures r.Some? <==> key in labels
    ensures r.Some? ==> r.value == labels[key]
  {
    if key in labels then Some(labels[key]) else None
  }

  /** The elements of a typed list, each boxed as an untyped value. */
  function Boxed(kind: MetaKind, metas: seq<Meta>): (r: seq<Object>)
    ensures |r| == |metas|
    ensures forall i :: 0 <= i < |r| ==> r[i] == MetaObj(kind, metas[i])
  {
    seq(|metas|, i requires 0 <= i < |metas| => MetaObj(kind, metas[i]))
  }
}
