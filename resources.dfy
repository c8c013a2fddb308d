/** The closed registry of resource types (api/resources.go). */
module ApiResources {
  import opened Sequences

  /** Resource types are identified by their string tag. */
  type ResourceType = string

  const ResourceTypeApplication: ResourceType := "application"
  const ResourceTypeProject: ResourceType := "project"
  const ResourceTypeRoute: ResourceType := "route"
  const ResourceTypeService: ResourceType := "service"
  const ResourceTypePod: ResourceType := "pod"
  const ResourceTypeContainer: ResourceType := "container"
  const ResourceTypeImageStream: ResourceType := "imagestream"
  const ResourceTypeBuildConfig: ResourceType := "buildconfig"
  const ResourceTypeBuild: ResourceType := "build"
  const ResourceTypeDeploymentConfig: ResourceType := "deploymentconfig"
  const ResourceTypeReplicationController: ResourceType := "replicationcontroller"
  const ResourceTypeEvent: ResourceType := "event"

  /** Every resource type, in the order the loader post-processes them when
      asked for all of them. */
  const ResourceTypeAll: seq<ResourceType> := [
    ResourceTypeApplication,
    ResourceTypeProject,
    ResourceTypeRoute,
    ResourceTypeService,
    ResourceTypePod,
    ResourceTypeContainer,
    ResourceTypeImageStream,
    ResourceTypeBuildConfig,
    ResourceTypeBuild,
    ResourceTypeDeploymentConfig,
    ResourceTypeReplicationController,
    ResourceTypeEvent
  ]

  /** The position of the first occurrence of `x` in `s`, or |s| when absent. */
  function IndexOf(s: seq<ResourceType>, x: ResourceType): (i: nat)
    ensures i <= |s|
    ensures i < |s| ==> s[i] == x
    ensures forall j :: 0 <= j < i ==> s[j] != x
  {
    if s == [] then 0
    else if s[0] == x then 0
    else 1 + IndexOf(s[1..], x)
  }

  /** A tag's first character and its length, packed into one number: no two
      tags of the registry share both. Comparing the twelve tags pairwise as
      strings asks the solver for 66 sequence disequalities at once, which is
      beyond its budget; comparing twelve small numbers is not, and equal
      tags have equal signatures, so distinct signatures give distinct tags. */
  function Signature(t: ResourceType): int
  {
    if t == [] then 0 else (t[0] as int) * 100 + |t|
  }

  /** The signatures of the registry's tags, in ResourceTypeAll order. */
  lemma {:induction false} Signatures()
    ensures |ResourceTypeAll| == 12
    ensures seq(12, i requires 0 <= i < 12 => Signature(ResourceTypeAll[i]))
         == [9711, 11207, 11405, 11507, 11203, 9909, 10511, 9811, 9805, 10016, 11421, 10105]
  {
  }

  /** The twelve tags are pairwise distinct. */
  lemma ResourceTypeAllDistinct()
    ensures Distinct(ResourceTypeAll)
  {
    Signatures();
    var sigs := [9711, 11207, 11405, 11507, 11203, 9909, 10511, 9811, 9805, 10016, 11421, 10105];
    assert forall i, j | 0 <= i < j < 12 :: sigs[i] != sigs[j];
    forall i, j | 0 <= i < j < 12 ensures ResourceTypeAll[i] != ResourceTypeAll[j] {
      assert Signature(ResourceTypeAll[i]) == sigs[i];
      assert Signature(ResourceTypeAll[j]) == sigs[j];
    }
  }

  /** Each of the twelve constants occurs in ResourceTypeAll exactly once. */
  lemma ResourceTypeAllOnce()
    ensures forall t :: t in ResourceTypeAll ==> multiset(ResourceTypeAll)[t] == 1
  {
    ResourceTypeAllDistinct();
    DistinctCounts(ResourceTypeAll);
  }

  /** Pods come before containers in ResourceTypeAll, so a load of every type
      removes builder and deployer pods before it extracts containers. */
  lemma PodBeforeContainer()
    ensures IndexOf(ResourceTypeAll, ResourceTypePod) < IndexOf(ResourceTypeAll, ResourceTypeContainer) < |ResourceTypeAll|
  {
    assert ResourceTypeAll[4] == ResourceTypePod;
    assert ResourceTypeAll[5] == ResourceTypeContainer;
  }
}
