/** The in-memory aggregate of everything loaded from the cluster
    (api/data.go): one optional list per resource type, left-biased merging,
    type-checked setters and the three derivations run after loading. */
module ApiData {
  import opened Wrappers
  import opened Sequences
  import opened ApiTypes
  import opened ApiResources
  import opened ApiApplication

  /** The label the cluster puts on the pods that run a build. */
  const BuildLabel: string := "openshift.io/build.name"
  /** The label the cluster puts on the pods that run a deployment. */
  const DeployerPodForDeploymentLabel: string := "openshift.io/deployer-pod-for.name"

  /** The value of a `Data` instance. `None` is a nil slice: a list that was
      never loaded, as opposed to one loaded empty. */
  datatype Aggregate = Aggregate(
    applications: Option<seq<Application>>,
    projects: Option<seq<Meta>>,
    routes: Option<seq<Meta>>,
    services: Option<seq<Meta>>,
    pods: Option<seq<Pod>>,
    containers: Option<seq<Container>>,
    imageStreams: Option<seq<Meta>>,
    buildConfigs: Option<seq<Meta>>,
    builds: Option<seq<Meta>>,
    deploymentConfigs: Option<seq<Meta>>,
    replicationControllers: Option<seq<Meta>>,
    events: Option<seq<Meta>>)

  /** A freshly allocated `Data`: nothing loaded. */
  const Empty: Aggregate :=
    Aggregate(None, None, None, None, None, None, None, None, None, None, None, None)

  /** Whether the list for resource type `t` is loaded; unknown tags name no list. */
  predicate Present(a: Aggregate, t: ResourceType)
  {
    if t == ResourceTypeApplication then a.applications.Some?
    else if t == ResourceTypeProject then a.projects.Some?
    else if t == ResourceTypeRoute then a.routes.Some?
    else if t == ResourceTypeService then a.services.Some?
    else if t == ResourceTypePod then a.pods.Some?
    else if t == ResourceTypeContainer then a.containers.Some?
    else if t == ResourceTypeImageStream then a.imageStreams.Some?
    else if t == ResourceTypeBuildConfig then a.buildConfigs.Some?
    else if t == ResourceTypeBuild then a.builds.Some?
    else if t == ResourceTypeDeploymentConfig then a.deploymentConfigs.Some?
    else if t == ResourceTypeReplicationController then a.replicationControllers.Some?
    else if t == ResourceTypeEvent then a.events.Some?
    else false
  }

  /** Whether `x` and `y` hold the same list for resource type `t`. */
  predicate Agrees(x: Aggregate, y: Aggregate, t: ResourceType)
  {
    if t == ResourceTypeApplication then x.applications == y.applications
    else if t == ResourceTypeProject then x.projects == y.projects
    else if t == ResourceTypeRoute then x.routes == y.routes
    else if t == ResourceTypeService then x.services == y.services
    else if t == ResourceTypePod then x.pods == y.pods
    else if t == ResourceTypeContainer then x.containers == y.containers
    else if t == ResourceTypeImageStream then x.imageStreams == y.imageStreams
    else if t == ResourceTypeBuildConfig then x.buildConfigs == y.buildConfigs
    else if t == ResourceTypeBuild then x.builds == y.builds
    else if t == ResourceTypeDeploymentConfig then x.deploymentConfigs == y.deploymentConfigs
    else if t == ResourceTypeReplicationController then x.replicationControllers == y.replicationControllers
    else if t == ResourceTypeEvent then x.events == y.events
    else true
  }

  // ---------------------------------------------------------------- Merge

  /** One field of `Merge`: take `theirs` only where `mine` is nil. */
  function Fill<T>(mine: Option<T>, theirs: Option<T>): Option<T>
  {
    if mine.None? && theirs.Some? then theirs else mine
  }

  /** Merging one `other` into `a`: every list but the applications is copied
      from `other` where `a` has none. */
  function MergeInto(a: Aggregate, other: Aggregate): Aggregate
  {
    Aggregate(
      a.applications,
      Fill(a.projects, other.projects),
      Fill(a.routes, other.routes),
      Fill(a.services, other.services),
      Fill(a.pods, other.pods),
      Fill(a.containers, other.containers),
      Fill(a.imageStreams, other.imageStreams),
      Fill(a.buildConfigs, other.buildConfigs),
      Fill(a.builds, other.builds),
      Fill(a.deploymentConfigs, other.deploymentConfigs),
      Fill(a.replicationControllers, other.replicationControllers),
      Fill(a.events, other.events))
  }

  /** Merging `others` into `a`, one after the other. */
  function MergeAll(a: Aggregate, others: seq<Aggregate>): Aggregate
  {
    if others == [] then a
    else MergeInto(MergeAll(a, others[..|others| - 1]), others[|others| - 1])
  }

  /** Merging a single value is merging it into the receiver. */
  lemma MergeAllOne(a: Aggregate, b: Aggregate)
    ensures MergeAll(a, [b]) == MergeInto(a, b)
  {
    assert [b][..0] == [];
  }

  /** `b` keeps every list `a` has loaded. */
  predicate Covers(b: Aggregate, a: Aggregate)
  {
    (a.applications.Some? ==> b.applications == a.applications) &&
    (a.projects.Some? ==> b.projects == a.projects) &&
    (a.routes.Some? ==> b.routes == a.routes) &&
    (a.services.Some? ==> b.services == a.services) &&
    (a.pods.Some? ==> b.pods == a.pods) &&
    (a.containers.Some? ==> b.containers == a.containers) &&
    (a.imageStreams.Some? ==> b.imageStreams == a.imageStreams) &&
    (a.buildConfigs.Some? ==> b.buildConfigs == a.buildConfigs) &&
    (a.builds.Some? ==> b.builds == a.builds) &&
    (a.deploymentConfigs.Some? ==> b.deploymentConfigs == a.deploymentConfigs) &&
    (a.replicationControllers.Some? ==> b.replicationControllers == a.replicationControllers) &&
    (a.events.Some? ==> b.events == a.events)
  }

  /** Merge is left-biased: a list `a` has is kept, a list `a` lacks is taken
      from `other`, and the applications are never touched. */
  lemma MergeIntoLeftBiased(a: Aggregate, other: Aggregate, t: ResourceType)
    ensures Agrees(MergeInto(a, other), a, ResourceTypeApplication)
    ensures t != ResourceTypeApplication && Present(a, t) ==> Agrees(MergeInto(a, other), a, t)
    ensures t != ResourceTypeApplication && !Present(a, t) ==> Agrees(MergeInto(a, other), other, t)
  {
  }

  /** Merging the same `other` a second time changes nothing. */
  lemma MergeIntoIdempotent(a: Aggregate, other: Aggregate)
    ensures MergeInto(MergeInto(a, other), other) == MergeInto(a, other)
  {
  }

  /** Merging keeps what was loaded; merging something already covered is a no-op. */
  lemma {:induction false} MergeAllCovers(a: Aggregate, others: seq<Aggregate>)
    ensures Covers(MergeAll(a, others), a)
    ensures MergeInto(MergeAll(a, others), a) == MergeAll(a, others)
  {
    if others != [] {
      MergeAllCovers(a, others[..|others| - 1]);
    }
  }

  /** With several others, the first present value of each list wins: the
      list of type `t` after merging is that of the first of `a`, `others[0]`,
      `others[1]`, ... that has one. */
  lemma {:induction false} MergeAllFirstWins(a: Aggregate, others: seq<Aggregate>, t: ResourceType, i: nat)
    requires t in ResourceTypeAll && t != ResourceTypeApplication
    requires i <= |others|
    requires Present(([a] + others)[i], t)
    requires forall j :: 0 <= j < i ==> !Present(([a] + others)[j], t)
    ensures Agrees(MergeAll(a, others), ([a] + others)[i], t)
  {
    if others != [] {
      var init := others[..|others| - 1];
      assert forall j :: 0 <= j <= |init| ==> ([a] + init)[j] == ([a] + others)[j];
      if i <= |init| {
        MergeAllFirstWins(a, init, t, i);
      } else {
        MergeAllNoneWins(a, init, t);
      }
    }
  }

  /** A list none of `a`, `others[0]`, ... has stays absent after merging. */
  lemma {:induction false} MergeAllNoneWins(a: Aggregate, others: seq<Aggregate>, t: ResourceType)
    requires forall j :: 0 <= j <= |others| ==> !Present(([a] + others)[j], t)
    ensures !Present(MergeAll(a, others), t)
  {
    if others != [] {
      var init := others[..|others| - 1];
      assert forall j :: 0 <= j <= |init| ==> ([a] + init)[j] == ([a] + others)[j];
      MergeAllNoneWins(a, init, t);
      assert ([a] + others)[|others|] == others[|others| - 1];
      MergeIntoPresent(MergeAll(a, init), others[|others| - 1], t);
    } else {
      assert ([a] + others)[0] == a;
    }
  }

  /** A list that any of the merged values has is in the result, except the
      applications, which are never copied. */
  lemma {:induction false} MergeAllSomePresent(a: Aggregate, others: seq<Aggregate>, t: ResourceType, j: nat)
    requires j < |others| && Present(others[j], t) && t != ResourceTypeApplication
    ensures Present(MergeAll(a, others), t)
  {
    var n := |others| - 1;
    var init := others[..n];
    MergeIntoPresent(MergeAll(a, init), others[n], t);
    if j < n {
      assert init[j] == others[j];
      MergeAllSomePresent(a, init, t, j);
    }
  }

  /** A list is present after merging iff it was present before or, except
      for the applications, in `other`. */
  lemma MergeIntoPresent(a: Aggregate, other: Aggregate, t: ResourceType)
    ensures Present(MergeInto(a, other), t) <==>
            Present(a, t) || (t != ResourceTypeApplication && Present(other, t))
  {
  }

  /** However many values are merged in, the applications stay as they were. */
  lemma {:induction false} MergeAllKeepsApplications(a: Aggregate, others: seq<Aggregate>)
    ensures MergeAll(a, others).applications == a.applications
  {
    if others != [] {
      MergeAllKeepsApplications(a, others[..|others| - 1]);
    }
  }

  // ---------------------------------------------------------------- Set

  /** The type assertion `obj.(T)` for the record types carrying only metadata. */
  function AsMeta(kind: MetaKind): Object -> Option<Meta>
  {
    (o: Object) => if o.MetaObj? && o.kind == kind then Some(o.meta) else None
  }

  /** The type assertion `obj.(kapi.Pod)`. */
  function AsPod(o: Object): Option<Pod>
  {
    if o.PodObj? then Some(o.pod) else None
  }

  /** The type assertion `obj.(kapi.Container)`. */
  function AsContainer(o: Object): Option<Container>
  {
    if o.ContainerObj? then Some(o.container) else None
  }

  /** Every element passes the type assertion. */
  predicate AllTyped<T>(objs: seq<Object>, cast: Object -> Option<T>)
  {
    forall i :: 0 <= i < |objs| ==> cast(objs[i]).Some?
  }

  /** The longest prefix of `objs` whose elements all pass the type
      assertion, converted: what a setter has appended when it stops. */
  function TypedPrefix<T>(objs: seq<Object>, cast: Object -> Option<T>): (r: seq<T>)
    ensures |r| <= |objs|
    ensures forall i :: 0 <= i < |r| ==> cast(objs[i]) == Some(r[i])
    ensures |r| < |objs| ==> cast(objs[|r|]).None?
    ensures |r| == |objs| <==> AllTyped(objs, cast)
  {
    if objs == [] then []
    else match cast(objs[0])
      case None => []
      case Some(x) => [x] + TypedPrefix(objs[1..], cast)
  }

  /** The longest well-typed prefix is the only sequence with its properties. */
  lemma {:induction false} TypedPrefixUnique<T>(objs: seq<Object>, cast: Object -> Option<T>, r: seq<T>)
    requires |r| <= |objs|
    requires forall i :: 0 <= i < |r| ==> cast(objs[i]) == Some(r[i])
    requires |r| < |objs| ==> cast(objs[|r|]).None?
    ensures r == TypedPrefix(objs, cast)
  {
    if objs != [] && cast(objs[0]).Some? {
      assert r != [];
      TypedPrefixUnique(objs[1..], cast, r[1..]);
    }
  }

  /** The loop of a `Set*` setter: converts the elements in order and stops
      at the first one of the wrong type. */
  method CastAll<T>(objs: seq<Object>, cast: Object -> Option<T>) returns (items: seq<T>, ok: bool)
    ensures items == TypedPrefix(objs, cast)
    ensures ok == AllTyped(objs, cast)
  {
    items := [];
    var i := 0;
    while i < |objs|
      invariant 0 <= i <= |objs| && |items| == i
      invariant forall k :: 0 <= k < i ==> cast(objs[k]) == Some(items[k])
    {
      var item := cast(objs[i]);
      if item.None? {
        TypedPrefixUnique(objs, cast, items);
        return items, false;
      }
      items := items + [item.value];
      i := i + 1;
    }
    TypedPrefixUnique(objs, cast, items);
    ok := true;
  }

  /** The error a setter reports for `objs`. */
  function SetError<T>(objs: seq<Object>, cast: Object -> Option<T>, field: string): Option<Error>
  {
    if AllTyped(objs, cast) then None else Some(WrongType(field))
  }

  /** What `Set(t, objs)` does to an aggregate, and the error it reports. */
  function Assign(a: Aggregate, t: ResourceType, objs: seq<Object>): (Aggregate, Option<Error>)
  {
    if t == ResourceTypeProject then
      (a.(projects := Some(TypedPrefix(objs, AsMeta(ProjectKind)))), SetError(objs, AsMeta(ProjectKind), "projects"))
    else if t == ResourceTypeRoute then
      (a.(routes := Some(TypedPrefix(objs, AsMeta(RouteKind)))), SetError(objs, AsMeta(RouteKind), "routes"))
    else if t == ResourceTypeService then
      (a.(services := Some(TypedPrefix(objs, AsMeta(ServiceKind)))), SetError(objs, AsMeta(ServiceKind), "services"))
    else if t == ResourceTypePod then
      (a.(pods := Some(TypedPrefix(objs, AsPod))), SetError(objs, AsPod, "pods"))
    else if t == ResourceTypeContainer then
      (a.(containers := Some(TypedPrefix(objs, AsContainer))), SetError(objs, AsContainer, "containers"))
    else if t == ResourceTypeImageStream then
      (a.(imageStreams := Some(TypedPrefix(objs, AsMeta(ImageStreamKind)))), SetError(objs, AsMeta(ImageStreamKind), "imageStreams"))
    else if t == ResourceTypeBuildConfig then
      (a.(buildConfigs := Some(TypedPrefix(objs, AsMeta(BuildConfigKind)))), SetError(objs, AsMeta(BuildConfigKind), "buildConfigs"))
    else if t == ResourceTypeBuild then
      (a.(builds := Some(TypedPrefix(objs, AsMeta(BuildKind)))), SetError(objs, AsMeta(BuildKind), "builds"))
    else if t == ResourceTypeDeploymentConfig then
      (a.(deploymentConfigs := Some(TypedPrefix(objs, AsMeta(DeploymentConfigKind)))), SetError(objs, AsMeta(DeploymentConfigKind), "deploymentConfigs"))
    else if t == ResourceTypeReplicationController then
      (a.(replicationControllers := Some(TypedPrefix(objs, AsMeta(ReplicationControllerKind)))), SetError(objs, AsMeta(ReplicationControllerKind), "replicationControllers"))
    else if t == ResourceTypeEvent then
      (a.(events := Some(TypedPrefix(objs, AsMeta(EventKind)))), SetError(objs, AsMeta(EventKind), "events"))
    else
      (a, Some(UnknownResourceType(t)))
  }

  /** The resource types `Set` has a setter for. */
  predicate Settable(t: ResourceType)
  {
    t in ResourceTypeAll && t != ResourceTypeApplication
  }

  /** The list for type `t`, boxed back into untyped values (absent for the
      applications and for unknown tags). */
  function Listed(a: Aggregate, t: ResourceType): Option<seq<Object>>
  {
    if t == ResourceTypeProject then (if a.projects.Some? then Some(Boxed(ProjectKind, a.projects.value)) else None)
    else if t == ResourceTypeRoute then (if a.routes.Some? then Some(Boxed(RouteKind, a.routes.value)) else None)
    else if t == ResourceTypeService then (if a.services.Some? then Some(Boxed(ServiceKind, a.services.value)) else None)
    else if t == ResourceTypePod then
      (if a.pods.Some? then Some(seq(|a.pods.value|, i requires 0 <= i < |a.pods.value| => PodObj(a.pods.value[i]))) else None)
    else if t == ResourceTypeContainer then
      (if a.containers.Some? then Some(seq(|a.containers.value|, i requires 0 <= i < |a.containers.value| => ContainerObj(a.containers.value[i]))) else None)
    else if t == ResourceTypeImageStream then (if a.imageStreams.Some? then Some(Boxed(ImageStreamKind, a.imageStreams.value)) else None)
    else if t == ResourceTypeBuildConfig then (if a.buildConfigs.Some? then Some(Boxed(BuildConfigKind, a.buildConfigs.value)) else None)
    else if t == ResourceTypeBuild then (if a.builds.Some? then Some(Boxed(BuildKind, a.builds.value)) else None)
    else if t == ResourceTypeDeploymentConfig then (if a.deploymentConfigs.Some? then Some(Boxed(DeploymentConfigKind, a.deploymentConfigs.value)) else None)
    else if t == ResourceTypeReplicationController then (if a.replicationControllers.Some? then Some(Boxed(ReplicationControllerKind, a.replicationControllers.value)) else None)
    else if t == ResourceTypeEvent then (if a.events.Some? then Some(Boxed(EventKind, a.events.value)) else None)
    else None
  }

  /** `Set` has a setter for every registered type except the applications,
      and refuses everything else without changing anything. */
  lemma AssignDispatch(a: Aggregate, t: ResourceType, objs: seq<Object>)
    ensures Settable(t) ==> Present(Assign(a, t, objs).0, t)
    ensures !Settable(t) ==> Assign(a, t, objs) == (a, Some(UnknownResourceType(t)))
  {
  }

  /** `Set` writes the list of its type and no other. */
  lemma AssignFrame(a: Aggregate, t: ResourceType, objs: seq<Object>, u: ResourceType)
    requires u != t
    ensures Agrees(Assign(a, t, objs).0, a, u)
  {
  }

  /** Boxing the well-typed prefix gives back a prefix of the input, all of
      it exactly when every element passes the assertion. */
  lemma MetaReadBack(kind: MetaKind, objs: seq<Object>)
    ensures Boxed(kind, TypedPrefix(objs, AsMeta(kind))) <= objs
    ensures AllTyped(objs, AsMeta(kind)) <==> Boxed(kind, TypedPrefix(objs, AsMeta(kind))) == objs
  {
    var listed := Boxed(kind, TypedPrefix(objs, AsMeta(kind)));
    assert forall i :: 0 <= i < |listed| ==> listed[i] == objs[i];
  }

  lemma PodReadBack(objs: seq<Object>)
    ensures var ps := TypedPrefix(objs, AsPod);
            var listed := seq(|ps|, i requires 0 <= i < |ps| => PodObj(ps[i]));
            listed <= objs && (AllTyped(objs, AsPod) <==> listed == objs)
  {
    var ps := TypedPrefix(objs, AsPod);
    var listed := seq(|ps|, i requires 0 <= i < |ps| => PodObj(ps[i]));
    assert forall i :: 0 <= i < |listed| ==> listed[i] == objs[i];
  }

  lemma ContainerReadBack(objs: seq<Object>)
    ensures var cs := TypedPrefix(objs, AsContainer);
            var listed := seq(|cs|, i requires 0 <= i < |cs| => ContainerObj(cs[i]));
            listed <= objs && (AllTyped(objs, AsContainer) <==> listed == objs)
  {
    var cs := TypedPrefix(objs, AsContainer);
    var listed := seq(|cs|, i requires 0 <= i < |cs| => ContainerObj(cs[i]));
    assert forall i :: 0 <= i < |listed| ==> listed[i] == objs[i];
  }

  /** Reading back the list `Set` wrote gives the input: all of it when every
      element has the right type (even when there are none), otherwise the
      elements before the first one of the wrong type, with an error. */
  lemma AssignReadBack(a: Aggregate, t: ResourceType, objs: seq<Object>)
    requires Settable(t)
    ensures var (b, err) := Assign(a, t, objs);
            Listed(b, t).Some? && Listed(b, t).value <= objs &&
            (err.None? <==> Listed(b, t).value == objs)
  {
    if t == ResourceTypeProject { MetaReadBack(ProjectKind, objs); }
    else if t == ResourceTypeRoute { MetaReadBack(RouteKind, objs); }
    else if t == ResourceTypeService { MetaReadBack(ServiceKind, objs); }
    else if t == ResourceTypePod { PodReadBack(objs); }
    else if t == ResourceTypeContainer { ContainerReadBack(objs); }
    else if t == ResourceTypeImageStream { MetaReadBack(ImageStreamKind, objs); }
    else if t == ResourceTypeBuildConfig { MetaReadBack(BuildConfigKind, objs); }
    else if t == ResourceTypeBuild { MetaReadBack(BuildKind, objs); }
    else if t == ResourceTypeDeploymentConfig { MetaReadBack(DeploymentConfigKind, objs); }
    else if t == ResourceTypeReplicationController { MetaReadBack(ReplicationControllerKind, objs); }
    else { MetaReadBack(EventKind, objs); }
  }

  // ---------------------------------------------------------------- derivations

  /** A pod that ran a build. */
  predicate IsBuilderPod(p: Pod)
  {
    BuildLabel in p.meta.labels
  }

  /** A pod that ran a deployment and is not a builder pod. */
  predicate IsDeployerPod(p: Pod)
  {
    !IsBuilderPod(p) && DeployerPodForDeploymentLabel in p.meta.labels
  }

  /** A pod that is neither a builder nor a deployer pod. */
  predicate IsRetainedPod(p: Pod)
  {
    BuildLabel !in p.meta.labels && DeployerPodForDeploymentLabel !in p.meta.labels
  }

  /** The builder, deployer and retained pods partition the pods: together
      they hold each pod exactly as often as the input does, each keeps the
      input order, no retained pod carries either label, and a pod carrying
      both labels is a builder pod and not a deployer pod. */
  lemma PodPartition(pods: seq<Pod>)
    ensures multiset(Filter(pods, IsBuilderPod)) + multiset(Filter(pods, IsDeployerPod)) + multiset(Filter(pods, IsRetainedPod))
         == multiset(pods)
    ensures IsSubsequence(Filter(pods, IsBuilderPod), pods)
    ensures IsSubsequence(Filter(pods, IsDeployerPod), pods)
    ensures IsSubsequence(Filter(pods, IsRetainedPod), pods)
    ensures forall i :: 0 <= i < |Filter(pods, IsRetainedPod)| ==>
              var labels := Filter(pods, IsRetainedPod)[i].meta.labels;
              BuildLabel !in labels && DeployerPodForDeploymentLabel !in labels
    ensures forall p :: p in pods && BuildLabel in p.meta.labels && DeployerPodForDeploymentLabel in p.meta.labels ==>
              p in Filter(pods, IsBuilderPod) && p !in Filter(pods, IsDeployerPod)
  {
    PodCounts(pods);
    FilterIsSubsequence(pods, IsBuilderPod);
    FilterIsSubsequence(pods, IsDeployerPod);
    FilterIsSubsequence(pods, IsRetainedPod);
    BothLabelsBuilder(pods);
  }

  /** Each pod is counted in exactly one of the three kinds. */
  lemma PodCounts(pods: seq<Pod>)
    ensures multiset(Filter(pods, IsBuilderPod)) + multiset(Filter(pods, IsDeployerPod)) + multiset(Filter(pods, IsRetainedPod))
         == multiset(pods)
  {
    FilterCounts(pods, IsBuilderPod);
    FilterCounts(pods, IsDeployerPod);
    FilterCounts(pods, IsRetainedPod);
  }

  /** A pod carrying both labels is removed as a builder pod, never as a
      deployer pod. */
  lemma BothLabelsBuilder(pods: seq<Pod>)
    ensures forall p :: p in pods && BuildLabel in p.meta.labels && DeployerPodForDeploymentLabel in p.meta.labels ==>
              p in Filter(pods, IsBuilderPod) && p !in Filter(pods, IsDeployerPod)
  {
    forall p | p in pods && BuildLabel in p.meta.labels && DeployerPodForDeploymentLabel in p.meta.labels
      ensures p in Filter(pods, IsBuilderPod) && p !in Filter(pods, IsDeployerPod)
    {
      FilterMembers(pods, IsBuilderPod, p);
      FilterMembers(pods, IsDeployerPod, p);
    }
  }

  /** The aggregate after builder and deployer pods are removed; a nil pod
      list stays nil. */
  function WithoutBuilderAndDeployerPods(a: Aggregate): Aggregate
  {
    a.(pods := if a.pods.Some? then Some(Filter(a.pods.value, IsRetainedPod)) else None)
  }

  /** The containers of `pods`: each pod's container specs, in pod order. */
  function Flatten(pods: seq<Pod>): seq<Container>
  {
    if pods == [] then []
    else Flatten(pods[..|pods| - 1]) + pods[|pods| - 1].containers
  }

  lemma {:induction false} FlattenAppend(xs: seq<Pod>, ys: seq<Pod>)
    ensures Flatten(xs + ys) == Flatten(xs) + Flatten(ys)
    decreases |ys|
  {
    if ys == [] {
      assert xs + ys == xs;
    } else {
      var init, last := ys[..|ys| - 1], ys[|ys| - 1];
      FlattenAppend(xs, init);
      var zs := xs + ys;
      assert zs[..|zs| - 1] == xs + init;
      assert zs[|zs| - 1] == last;
      assert Flatten(zs) == Flatten(xs + init) + last.containers;
      assert Flatten(ys) == Flatten(init) + last.containers;
    }
  }

  /** A container is extracted iff some pod lists it. */
  lemma {:induction false} FlattenMembers(pods: seq<Pod>, c: Container)
    ensures c in Flatten(pods) <==> exists i :: 0 <= i < |pods| && c in pods[i].containers
  {
    if pods != [] {
      var init := pods[..|pods| - 1];
      FlattenMembers(init, c);
      if c in Flatten(init) {
        var i :| 0 <= i < |init| && c in init[i].containers;
        assert pods[i] == init[i];
      }
      if exists i :: 0 <= i < |pods| && c in pods[i].containers {
        var i :| 0 <= i < |pods| && c in pods[i].containers;
        if i < |init| {
          assert init[i] == pods[i];
        }
      }
    }
  }

  /** The aggregate after containers are extracted; unchanged if pods are nil. */
  function WithContainers(a: Aggregate): Aggregate
  {
    if a.pods.None? then a else a.(containers := Some(Flatten(a.pods.value)))
  }

  /** The deployment configs, a nil list ranging as an empty one. */
  function DeploymentConfigsOf(a: Aggregate): seq<Meta>
  {
    if a.deploymentConfigs.Some? then a.deploymentConfigs.value else []
  }

  /** The values of the `application` label over `dcs`. */
  function AppNames(dcs: seq<Meta>): set<string>
  {
    if dcs == [] then {}
    else
      var last := dcs[|dcs| - 1];
      AppNames(dcs[..|dcs| - 1]) +
        (if ApplicationNameLabel in last.labels then {last.labels[ApplicationNameLabel]} else {})
  }

  /** A name is an application iff some deployment config carries the
      `application` label with that value (the empty value included). */
  lemma {:induction false} AppNamesMembers(dcs: seq<Meta>, name: string)
    ensures name in AppNames(dcs) <==>
            exists i :: 0 <= i < |dcs| && ApplicationNameLabel in dcs[i].labels && dcs[i].labels[ApplicationNameLabel] == name
  {
    if dcs != [] {
      var init := dcs[..|dcs| - 1];
      AppNamesMembers(init, name);
      if name in AppNames(init) {
        var i :| 0 <= i < |init| && ApplicationNameLabel in init[i].labels && init[i].labels[ApplicationNameLabel] == name;
        assert dcs[i] == init[i];
      }
      if exists i :: 0 <= i < |dcs| && ApplicationNameLabel in dcs[i].labels && dcs[i].labels[ApplicationNameLabel] == name {
        var i :| 0 <= i < |dcs| && ApplicationNameLabel in dcs[i].labels && dcs[i].labels[ApplicationNameLabel] == name;
        if i < |init| {
          assert init[i] == dcs[i];
        }
      }
    }
  }

  /** The aggregate after applications are extracted from deployment configs. */
  ghost function WithApplications(a: Aggregate): Aggregate
  {
    a.(applications := Some(AscendingApplications(AppNames(DeploymentConfigsOf(a)))))
  }

  /** After extraction the applications are present, strictly ascending, and
      name exactly the `application` label values of the deployment configs. */
  lemma ExtractedApplications(a: Aggregate, app: Application)
    ensures WithApplications(a).applications.Some?
    ensures StrictlyAscending(WithApplications(a).applications.value)
    ensures app in WithApplications(a).applications.value <==>
            exists i :: 0 <= i < |DeploymentConfigsOf(a)| &&
              ApplicationNameLabel in DeploymentConfigsOf(a)[i].labels &&
              DeploymentConfigsOf(a)[i].labels[ApplicationNameLabel] == app.Name()
  {
    AppNamesMembers(DeploymentConfigsOf(a), app.Name());
  }

  // ---------------------------------------------------------------- Data

  /** `Data`: all data loaded from the cluster, one list field per type. */
  class Data {
    var applications: Option<seq<Application>>
    var projects: Option<seq<Meta>>
    var routes: Option<seq<Meta>>
    var services: Option<seq<Meta>>
    var pods: Option<seq<Pod>>
    var containers: Option<seq<Container>>
    var imageStreams: Option<seq<Meta>>
    var buildConfigs: Option<seq<Meta>>
    var builds: Option<seq<Meta>>
    var deploymentConfigs: Option<seq<Meta>>
    var replicationControllers: Option<seq<Meta>>
    var events: Option<seq<Meta>>

    /** The current value of all twelve fields. */
    function Value(): Aggregate
      reads this
    {
      Aggregate(applications, projects, routes, services, pods, containers,
                imageStreams, buildConfigs, builds, deploymentConfigs, replicationControllers, events)
    }

    /** `&Data{}`: nothing loaded. */
    constructor ()
      ensures Value() == Empty
    {
      applications, projects, routes, services, pods, containers := None, None, None, None, None, None;
      imageStreams, buildConfigs, builds, deploymentConfigs, replicationControllers, events := None, None, None, None, None, None;
    }

    /** `Merge`: merges each of `others` in turn, left-biased. `others` may
        include this instance itself. */
    method Merge(others: seq<Data>)
      modifies this
      ensures Value() == MergeAll(old(Value()), old(Values(others)))
    {
      ghost var start := Value();
      ghost var values := Values(others);
      for i := 0 to |others|
        invariant Value() == MergeAll(start, values[..i])
        invariant forall j :: 0 <= j < |others| && others[j] != this ==> others[j].Value() == values[j]
      {
        var other := others[i];
        if other == this {
          MergeAllCovers(start, values[..i]);
        }
        MergeOne(other);
        assert values[..i + 1][..i] == values[..i];
      }
      assert values[..|others|] == values;
    }

    /** The body of `Merge`'s loop: copies each list but the applications
        from `other` where this instance has none. */
    method MergeOne(other: Data)
      modifies this
      ensures Value() == MergeInto(old(Value()), old(other.Value()))
    {
      var theirs := other.Value();
      projects, routes, services, pods, containers :=
        Fill(projects, theirs.projects), Fill(routes, theirs.routes), Fill(services, theirs.services),
        Fill(pods, theirs.pods), Fill(containers, theirs.containers);
      imageStreams, buildConfigs, builds, deploymentConfigs, replicationControllers, events :=
        Fill(imageStreams, theirs.imageStreams), Fill(buildConfigs, theirs.buildConfigs), Fill(builds, theirs.builds),
        Fill(deploymentConfigs, theirs.deploymentConfigs), Fill(replicationControllers, theirs.replicationControllers),
        Fill(events, theirs.events);
    }

    /** `Set`: dispatches on the resource type to the matching setter; an
        unknown type (the applications included) is an error. */
    method Set(resourceType: ResourceType, resources: seq<Object>) returns (err: Option<Error>)
      modifies this
      ensures (Value(), err) == Assign(old(Value()), resourceType, resources)
    {
      if resourceType == ResourceTypeProject {
        err := SetProjects(resources);
      } else if resourceType == ResourceTypeRoute {
        err := SetRoutes(resources);
      } else if resourceType == ResourceTypeService {
        err := SetServices(resources);
      } else if resourceType == ResourceTypePod {
        err := SetPods(resources);
      } else if resourceType == ResourceTypeContainer {
        err := SetContainers(resources);
      } else if resourceType == ResourceTypeImageStream {
        err := SetImageStreams(resources);
      } else if resourceType == ResourceTypeBuildConfig {
        err := SetBuildConfigs(resources);
      } else if resourceType == ResourceTypeBuild {
        err := SetBuilds(resources);
      } else if resourceType == ResourceTypeDeploymentConfig {
        err := SetDeploymentConfigs(resources);
      } else if resourceType == ResourceTypeReplicationController {
        err := SetReplicationControllers(resources);
      } else if resourceType == ResourceTypeEvent {
        err := SetEvents(resources);
      } else {
        err := Some(UnknownResourceType(resourceType));
      }
    }

    method SetProjects(projects: seq<Object>) returns (err: Option<Error>)
      modifies this
      ensures Value() == old(Value()).(projects := Some(TypedPrefix(projects, AsMeta(ProjectKind))))
      ensures err == SetError(projects, AsMeta(ProjectKind), "projects")
    {
      var items, ok := CastAll(projects, AsMeta(ProjectKind));
      this.projects := Some(items);
      err := if ok then None else Some(WrongType("projects"));
    }

    method SetRoutes(routes: seq<Object>) returns (err: Option<Error>)
      modifies this
      ensures Value() == old(Value()).(routes := Some(TypedPrefix(routes, AsMeta(RouteKind))))
      ensures err == SetError(routes, AsMeta(RouteKind), "routes")
    {
      var items, ok := CastAll(routes, AsMeta(RouteKind));
      this.routes := Some(items);
      err := if ok then None else Some(WrongType("routes"));
    }

    method SetServices(services: seq<Object>) returns (err: Option<Error>)
      modifies this
      ensures Value() == old(Value()).(services := Some(TypedPrefix(services, AsMeta(ServiceKind))))
      ensures err == SetError(services, AsMeta(ServiceKind), "services")
    {
      var items, ok := CastAll(services, AsMeta(ServiceKind));
      this.services := Some(items);
      err := if ok then None else Some(WrongType("services"));
    }

    method SetPods(pods: seq<Object>) returns (err: Option<Error>)
      modifies this
      ensures Value() == old(Value()).(pods := Some(TypedPrefix(pods, AsPod)))
      ensures err == SetError(pods, AsPod, "pods")
    {
      var items, ok := CastAll(pods, AsPod);
      this.pods := Some(items);
      err := if ok then None else Some(WrongType("pods"));
    }

    method SetContainers(containers: seq<Object>) returns (err: Option<Error>)
      modifies this
      ensures Value() == old(Value()).(containers := Some(TypedPrefix(containers, AsContainer)))
      ensures err == SetError(containers, AsContainer, "containers")
    {
      var items, ok := CastAll(containers, AsContainer);
      this.containers := Some(items);
      err := if ok then None else Some(WrongType("containers"));
    }

    method SetImageStreams(imageStreams: seq<Object>) returns (err: Option<Error>)
      modifies this
      ensures Value() == old(Value()).(imageStreams := Some(TypedPrefix(imageStreams, AsMeta(ImageStreamKind))))
      ensures err == SetError(imageStreams, AsMeta(ImageStreamKind), "imageStreams")
    {
      var items, ok := CastAll(imageStreams, AsMeta(ImageStreamKind));
      this.imageStreams := Some(items);
      err := if ok then None else Some(WrongType("imageStreams"));
    }

    method SetBuildConfigs(buildConfigs: seq<Object>) returns (err: Option<Error>)
      modifies this
      ensures Value() == old(Value()).(buildConfigs := Some(TypedPrefix(buildConfigs, AsMeta(BuildConfigKind))))
      ensures err == SetError(buildConfigs, AsMeta(BuildConfigKind), "buildConfigs")
    {
      var items, ok := CastAll(buildConfigs, AsMeta(BuildConfigKind));
      this.buildConfigs := Some(items);
      err := if ok then None else Some(WrongType("buildConfigs"));
    }

    method SetBuilds(builds: seq<Object>) returns (err: Option<Error>)
      modifies this
      ensures Value() == old(Value()).(builds := Some(TypedPrefix(builds, AsMeta(BuildKind))))
      ensures err == SetError(builds, AsMeta(BuildKind), "builds")
    {
      var items, ok := CastAll(builds, AsMeta(BuildKind));
      this.builds := Some(items);
      err := if ok then None else Some(WrongType("builds"));
    }

    method SetDeploymentConfigs(deploymentConfigs: seq<Object>) returns (err: Option<Error>)
      modifies this
      ensures Value() == old(Value()).(deploymentConfigs := Some(TypedPrefix(deploymentConfigs, AsMeta(DeploymentConfigKind))))
      ensures err == SetError(deploymentConfigs, AsMeta(DeploymentConfigKind), "deploymentConfigs")
    {
      var items, ok := CastAll(deploymentConfigs, AsMeta(DeploymentConfigKind));
      this.deploymentConfigs := Some(items);
      err := if ok then None else Some(WrongType("deploymentConfigs"));
    }

    method SetReplicationControllers(replicationControllers: seq<Object>) returns (err: Option<Error>)
      modifies this
      ensures Value() == old(Value()).(replicationControllers := Some(TypedPrefix(replicationControllers, AsMeta(ReplicationControllerKind))))
      ensures err == SetError(replicationControllers, AsMeta(ReplicationControllerKind), "replicationControllers")
    {
      var items, ok := CastAll(replicationControllers, AsMeta(ReplicationControllerKind));
      this.replicationControllers := Some(items);
      err := if ok then None else Some(WrongType("replicationControllers"));
    }

    method SetEvents(events: seq<Object>) returns (err: Option<Error>)
      modifies this
      ensures Value() == old(Value()).(events := Some(TypedPrefix(events, AsMeta(EventKind))))
      ensures err == SetError(events, AsMeta(EventKind), "events")
    {
      var items, ok := CastAll(events, AsMeta(EventKind));
      this.events := Some(items);
      err := if ok then None else Some(WrongType("events"));
    }

    /** `RemoveBuilderAndDeployerPods`: splits the pods into builder pods,
        deployer pods and the pods kept in place, each in the original order. */
    method RemoveBuilderAndDeployerPods() returns (builderPods: seq<Pod>, deployerPods: seq<Pod>)
      modifies this
      ensures Value() == WithoutBuilderAndDeployerPods(old(Value()))
      ensures old(pods).None? ==> builderPods == [] && deployerPods == []
      ensures old(pods).Some? ==> builderPods == Filter(old(pods).value, IsBuilderPod)
      ensures old(pods).Some? ==> deployerPods == Filter(old(pods).value, IsDeployerPod)
    {
      var all := if pods.Some? then pods.value else [];
      // `pods[:0]` keeps a nil slice nil and an empty-but-allocated one allocated.
      pods := if pods.Some? then Some([]) else None;
      builderPods, deployerPods := [], [];
      for i := 0 to |all|
        invariant builderPods == Filter(all[..i], IsBuilderPod)
        invariant deployerPods == Filter(all[..i], IsDeployerPod)
        invariant old(pods).None? ==> all == [] && pods.None?
        invariant old(pods).Some? ==> pods == Some(Filter(all[..i], IsRetainedPod))
        invariant Value() == old(Value()).(pods := pods)
      {
        var pod := all[i];
        FilterStep(all, i, IsBuilderPod);
        FilterStep(all, i, IsDeployerPod);
        FilterStep(all, i, IsRetainedPod);
        if BuildLabel in pod.meta.labels {
          builderPods := builderPods + [pod];
          assert Filter(all[..i], IsRetainedPod) + [] == Filter(all[..i], IsRetainedPod);
          assert deployerPods + [] == deployerPods;
        } else if DeployerPodForDeploymentLabel in pod.meta.labels {
          deployerPods := deployerPods + [pod];
          assert Filter(all[..i], IsRetainedPod) + [] == Filter(all[..i], IsRetainedPod);
          assert builderPods + [] == builderPods;
        } else {
          assert builderPods + [] == builderPods && deployerPods + [] == deployerPods;
          pods := Some(pods.value + [pod]);
        }
      }
      assert all[..|all|] == all;
    }

    /** `ExtractContainersFromPods`: replaces the containers with those of the
        pods, in pod order; an error, changing nothing, if pods are nil. */
    method ExtractContainersFromPods() returns (err: Option<Error>)
      modifies this
      ensures Value() == WithContainers(old(Value()))
      ensures err.Some? <==> old(pods).None?
      ensures err.Some? ==> err.value == EmptyPods
    {
      if pods.None? {
        return Some(EmptyPods);
      }
      var all := pods.value;
      containers := Some([]);
      for i := 0 to |all|
        invariant containers == Some(Flatten(all[..i]))
        invariant Value() == old(Value()).(containers := containers)
      {
        assert all[..i + 1][..i] == all[..i];
        containers := Some(containers.value + all[i].containers);
      }
      assert all[..|all|] == all;
      err := None;
    }

    /** `ExtractApplicationsFromDeploymentConfigs`: collects the distinct
        values of the `application` label, then sorts them. */
    method ExtractApplicationsFromDeploymentConfigs()
      modifies this
      ensures Value() == WithApplications(old(Value()))
    {
      var dcs := if deploymentConfigs.Some? then deploymentConfigs.value else [];
      var found: set<string> := {};
      for i := 0 to |dcs|
        invariant found == AppNames(dcs[..i])
      {
        assert dcs[..i + 1][..i] == dcs[..i];
        var appName := Lookup(dcs[i].labels, ApplicationNameLabel);
        if appName.Some? {
          if appName.value !in found {
            found := found + {appName.value};
          }
        }
      }
      assert dcs[..|dcs|] == dcs;
      // Go ranges over a map in no particular order.
      var names: seq<Application> := [];
      var rest := found;
      while rest != {}
        invariant rest <= found
        invariant forall a :: a in names <==> a.Name() in found - rest
        invariant Distinct(names)
        decreases |rest|
      {
        var name :| name in rest;
        assert Application(name) !in names;
        names := names + [Application(name)];
        rest := rest - {name};
      }
      var apps := new Application[|names|](i requires 0 <= i < |names| => names[i]);
      assert apps[..] == names;
      SortApplications(apps);
      SortedNamesAscending(apps[..], names, found);
      applications := Some(apps[..]);
    }
  }

  /** Sorting the distinct application names collected from a set yields
      the strictly ascending sequence of that set. */
  lemma SortedNamesAscending(sorted: seq<Application>, names: seq<Application>, found: set<string>)
    requires Sorted(sorted) && multiset(sorted) == multiset(names)
    requires Distinct(names)
    requires forall a :: a in names <==> a.Name() in found
    ensures sorted == AscendingApplications(found)
  {
    DistinctCounts(names);
    DistinctCounts(sorted);
    SortedDistinctIsStrictlyAscending(sorted);
    forall a ensures a in sorted <==> a in AscendingApplications(found) {
      assert a in sorted <==> a in multiset(sorted);
      assert a in names <==> a in multiset(names);
    }
    AscendingUnique(sorted, AscendingApplications(found));
  }

  /** The values of several `Data` instances. */
  function Values(ds: seq<Data>): (r: seq<Aggregate>)
    reads ds
    ensures |r| == |ds|
    ensures forall i :: 0 <= i < |ds| ==> r[i] == ds[i].Value()
  {
    if ds == [] then [] else Values(ds[..|ds| - 1]) + [ds[|ds| - 1].Value()]
  }
}
