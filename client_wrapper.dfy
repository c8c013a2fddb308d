/** The sequential logic of the cluster client (api/client-wrapper.go): the
    namespace lookup, the per-namespace listing with its error policy and
    cache rule, the partial results of the asynchronous listings, and
    `LoadData`'s fetch plan, merge loop and post-processing loop. */
module ApiClient {
  import opened Wrappers
  import opened Sequences
  import opened ApiTypes
  import opened ApiResources
  import opened ApiApplication
  import opened ApiData

  /** What the wrapper sees of the cluster: the project list (or the error
      getting a client or listing), the error building the REST helper for
      a resource type, if any, and the items listed for a type in one
      namespace (or the error listing them or extracting their items). */
  datatype Cluster = Cluster(
    projects: Result<seq<Meta>, Error>,
    helper: ResourceType -> Option<Error>,
    list: (ResourceType, string) -> Result<seq<Object>, Error>)

  /** The namespaces cache, from key to namespace names. */
  type NamespacesCache = map<string, seq<string>>
  /** The resources cache, from resource type to the listed resources. */
  type ResourcesCache = map<ResourceType, seq<Object>>

  /** The key under which the namespaces are cached. */
  const NamespacesKey: string := "namespaces"
  /** The only namespace projects are fetched from. */
  const OpenShiftNamespace: string := "openshift"

  // ---------------------------------------------------------------- namespaces

  /** The names of the projects, in list order. */
  function ProjectNames(projects: seq<Meta>): (names: seq<string>)
    ensures |names| == |projects|
    ensures forall i :: 0 <= i < |projects| ==> names[i] == projects[i].name
  {
    if projects == [] then []
    else ProjectNames(projects[..|projects| - 1]) + [projects[|projects| - 1].name]
  }

  /** What `GetAvailableNamespaces` returns, and the namespaces cache after it. */
  function NamespacesOutcome(cache: NamespacesCache, c: Cluster): (Result<seq<string>, Error>, NamespacesCache)
  {
    if NamespacesKey in cache then (Success(cache[NamespacesKey]), cache)
    else if c.projects.Failure? then (Failure(c.projects.error), cache)
    else
      var names := ProjectNames(c.projects.value);
      (Success(names), cache[NamespacesKey := names])
  }

  /** A successful lookup leaves the names in the cache, so that the next
      lookup is served from it with the same answer; a failed one leaves the
      cache as it was. */
  lemma NamespacesCached(cache: NamespacesCache, c: Cluster)
    ensures var (r, after) := NamespacesOutcome(cache, c);
            (r.Success? ==> NamespacesKey in after && after[NamespacesKey] == r.value &&
                            NamespacesOutcome(after, c) == (r, after)) &&
            (r.Failure? ==> after == cache && NamespacesKey !in cache && c.projects == Failure(r.error))
  {
  }

  /** On a cache miss the answer is the names of the listed projects, in order. */
  lemma NamespacesFromProjects(cache: NamespacesCache, c: Cluster)
    requires NamespacesKey !in cache && c.projects.Success?
    ensures var (r, _) := NamespacesOutcome(cache, c);
            r.Success? && |r.value| == |c.projects.value| &&
            forall i :: 0 <= i < |c.projects.value| ==> r.value[i] == c.projects.value[i].name
  {
  }

  // ---------------------------------------------------------------- listing

  /** The items listed in `namespaces` that succeeded, concatenated in
      namespace order. */
  function Gathered(c: Cluster, t: ResourceType, namespaces: seq<string>): seq<Object>
  {
    if namespaces == [] then []
    else
      var last := c.list(t, namespaces[|namespaces| - 1]);
      Gathered(c, t, namespaces[..|namespaces| - 1]) + (if last.Success? then last.value else [])
  }

  /** The errors of the namespaces that failed, in namespace order. */
  function Failures(c: Cluster, t: ResourceType, namespaces: seq<string>): seq<Error>
  {
    if namespaces == [] then []
    else
      var last := c.list(t, namespaces[|namespaces| - 1]);
      Failures(c, t, namespaces[..|namespaces| - 1]) + (if last.Failure? then [last.error] else [])
  }

  /** The result of listing over `namespaces`: every error if there is any,
      otherwise all items. */
  function ListAll(c: Cluster, t: ResourceType, namespaces: seq<string>): Result<seq<Object>, seq<Error>>
  {
    var errs := Failures(c, t, namespaces);
    if |errs| > 0 then Failure(errs) else Success(Gathered(c, t, namespaces))
  }

  /** Listing over two runs of namespaces is listing over each, concatenated. */
  lemma {:induction false} ListAppend(c: Cluster, t: ResourceType, xs: seq<string>, ys: seq<string>)
    ensures Gathered(c, t, xs + ys) == Gathered(c, t, xs) + Gathered(c, t, ys)
    ensures Failures(c, t, xs + ys) == Failures(c, t, xs) + Failures(c, t, ys)
    decreases |ys|
  {
    if ys == [] {
      assert xs + ys == xs;
    } else {
      ListAppend(c, t, xs, ys[..|ys| - 1]);
      assert (xs + ys)[..|xs + ys| - 1] == xs + ys[..|ys| - 1];
    }
  }

  /** An error is reported iff some namespace failed with it; the listing
      fails iff some namespace fails. */
  lemma {:induction false} FailuresMembers(c: Cluster, t: ResourceType, namespaces: seq<string>, e: Error)
    ensures e in Failures(c, t, namespaces) <==> exists i :: 0 <= i < |namespaces| && c.list(t, namespaces[i]) == Failure(e)
    ensures |Failures(c, t, namespaces)| == 0 <==> forall i :: 0 <= i < |namespaces| ==> c.list(t, namespaces[i]).Success?
  {
    if namespaces != [] {
      var init := namespaces[..|namespaces| - 1];
      FailuresMembers(c, t, init, e);
      assert forall i :: 0 <= i < |init| ==> init[i] == namespaces[i];
      if e in Failures(c, t, init) {
        var i :| 0 <= i < |init| && c.list(t, init[i]) == Failure(e);
        assert c.list(t, namespaces[i]) == Failure(e);
      }
    }
  }

  /** With one namespace, listing gives that namespace's items or its error. */
  lemma ListOne(c: Cluster, t: ResourceType, namespace: string)
    ensures ListAll(c, t, [namespace]) ==
            match c.list(t, namespace)
            case Success(items) => Success(items)
            case Failure(e) => Failure([e])
  {
    var last := c.list(t, namespace);
    assert [namespace][..0] == [];
    assert Gathered(c, t, [namespace]) == [] + (if last.Success? then last.value else []);
    assert Failures(c, t, [namespace]) == [] + (if last.Failure? then [last.error] else []);
    assert [] + (if last.Success? then last.value else []) == (if last.Success? then last.value else []);
    assert [] + (if last.Failure? then [last.error] else []) == (if last.Failure? then [last.error] else []);
  }

  /** Stores a successful listing in the resources cache, if there is one. */
  function Store(cache: Option<ResourcesCache>, t: ResourceType, r: Result<seq<Object>, seq<Error>>): Option<ResourcesCache>
  {
    if cache.Some? && r.Success? then Some(cache.value[t := r.value]) else cache
  }

  /** What `ListResources(t, namespaces)` returns, and both caches after it. */
  function ListOutcome(c: Cluster, resources: Option<ResourcesCache>, namespacesCache: NamespacesCache,
                       t: ResourceType, namespaces: seq<string>)
    : (Result<seq<Object>, seq<Error>>, Option<ResourcesCache>, NamespacesCache)
  {
    if resources.Some? && t in resources.value then (Success(resources.value[t]), resources, namespacesCache)
    else if c.helper(t).Some? then (Failure([c.helper(t).value]), resources, namespacesCache)
    else
      var (available, afterLookup) :=
        if |namespaces| == 0 then NamespacesOutcome(namespacesCache, c) else (Success(namespaces), namespacesCache);
      if available.Failure? then (Failure([available.error]), resources, afterLookup)
      else
        var r := ListAll(c, t, available.value);
        (r, Store(resources, t, r), afterLookup)
  }

  /** The cache rule: a hit returns the cached list and changes neither
      cache; the resources cache is written only with a successful result,
      and a successful result is always written to it when there is one, so
      that the next listing of that type, for any namespaces, is a hit that
      returns the same list; a nil cache is never written. */
  lemma ListCacheRule(c: Cluster, resources: Option<ResourcesCache>, namespacesCache: NamespacesCache,
                      t: ResourceType, namespaces: seq<string>, later: seq<string>)
    ensures var (r, after, namespacesAfter) := ListOutcome(c, resources, namespacesCache, t, namespaces);
            (resources.Some? && t in resources.value ==>
               r == Success(resources.value[t]) && after == resources && namespacesAfter == namespacesCache) &&
            (resources.None? ==> after.None?) &&
            (after != resources ==> r.Success? && resources.Some? && after == Some(resources.value[t := r.value])) &&
            (resources.Some? && r.Success? ==>
               after == Some(resources.value[t := r.value]) &&
               ListOutcome(c, after, namespacesAfter, t, later) == (r, after, namespacesAfter))
  {
    if resources.Some? && t in resources.value {
      assert resources.value[t := resources.value[t]] == resources.value;
    }
  }

  /** The resources cache is keyed by type alone: a hit answers the same for
      any namespaces. */
  lemma ListCacheIgnoresNamespaces(c: Cluster, resources: Option<ResourcesCache>, namespacesCache: NamespacesCache,
                                   t: ResourceType, xs: seq<string>, ys: seq<string>)
    requires resources.Some? && t in resources.value
    ensures ListOutcome(c, resources, namespacesCache, t, xs) == ListOutcome(c, resources, namespacesCache, t, ys)
  {
  }

  /** On a cache miss, the result is every namespace's items in order when
      all of them succeed, and every error otherwise; only a success is
      stored, and only in a cache that exists. */
  lemma ListWithoutCache(c: Cluster, resources: Option<ResourcesCache>, namespacesCache: NamespacesCache,
                         t: ResourceType, namespaces: seq<string>)
    requires !(resources.Some? && t in resources.value)
    requires |namespaces| > 0 && c.helper(t).None?
    ensures var (r, after, afterNamespaces) := ListOutcome(c, resources, namespacesCache, t, namespaces);
            after == Store(resources, t, r) && afterNamespaces == namespacesCache &&
            (r.Success? <==> forall i :: 0 <= i < |namespaces| ==> c.list(t, namespaces[i]).Success?) &&
            (r.Success? ==> r.value == Gathered(c, t, namespaces)) &&
            (r.Failure? ==>
               |r.error| > 0 &&
               (forall e :: e in r.error <==> exists i :: 0 <= i < |namespaces| && c.list(t, namespaces[i]) == Failure(e)))
  {
    forall e {
      FailuresMembers(c, t, namespaces, e);
    }
    var e :| true;
    FailuresMembers(c, t, namespaces, e);
  }

  /** No namespaces means all available namespaces: with the names the
      lookup gives, whether cached or listed, the result is that of asking
      for those names; when the lookup fails and neither the resources cache
      nor the helper decides first, the result is the lookup's error alone. */
  lemma ListFallback(c: Cluster, resources: Option<ResourcesCache>, namespacesCache: NamespacesCache, t: ResourceType)
    ensures var lookup := NamespacesOutcome(namespacesCache, c).0;
            lookup.Success? ==>
              ListOutcome(c, resources, namespacesCache, t, []).0 ==
              ListOutcome(c, resources, namespacesCache, t, lookup.value).0
    ensures var lookup := NamespacesOutcome(namespacesCache, c).0;
            !(resources.Some? && t in resources.value) && c.helper(t).None? && lookup.Failure? ==>
              ListOutcome(c, resources, namespacesCache, t, []).0 == Failure([lookup.error])
  {
  }

  // ---------------------------------------------------------------- partial results

  /** The value of a `DataWrapper`: a partial aggregate and the errors, if any. */
  datatype Outcome = Outcome(data: Aggregate, errors: Option<seq<Error>>)

  /** The partial result of `AsyncListResources` for a listing result. */
  function Partial(t: ResourceType, r: Result<seq<Object>, seq<Error>>): Outcome
  {
    match r
    case Failure(errs) => Outcome(Empty, Some(errs))
    case Success(resources) => Outcome(Assign(Empty, t, resources).0, None)
  }

  /** A partial carries exactly its own kind on success and no kind, with
      the errors, on failure; the error of `Set` is dropped. */
  lemma PartialShape(t: ResourceType, r: Result<seq<Object>, seq<Error>>, u: ResourceType)
    ensures r.Failure? ==> Partial(t, r).errors == Some(r.error) && !Present(Partial(t, r).data, u)
    ensures r.Success? ==> Partial(t, r).errors.None? &&
                           (Present(Partial(t, r).data, u) <==> Settable(t) && u == t)
  {
    if r.Success? {
      AssignDispatch(Empty, t, r.value);
      if u != t {
        AssignFrame(Empty, t, r.value, u);
      }
    }
  }

  /** A `DataWrapper`: a freshly allocated `Data` and the listing errors. */
  datatype DataWrapper = DataWrapper(data: Data, errors: Option<seq<Error>>)

  // ---------------------------------------------------------------- LoadData

  /** One asynchronous listing `LoadData` starts: a type and its namespaces. */
  datatype Fetch = Fetch(kind: ResourceType, namespaces: seq<string>)

  /** The fetches `LoadData` starts for the requested types, in order:
      nothing for applications and containers, projects from the `openshift`
      namespace only, every other type from all namespaces. */
  function Plan(kinds: seq<ResourceType>, namespaces: seq<string>): seq<Fetch>
  {
    if kinds == [] then []
    else
      var t := kinds[|kinds| - 1];
      Plan(kinds[..|kinds| - 1], namespaces) +
        (if t == ResourceTypeApplication || t == ResourceTypeContainer then []
         else if t == ResourceTypeProject then [Fetch(t, [OpenShiftNamespace])]
         else [Fetch(t, namespaces)])
  }

  /** One more requested type plans at most one more fetch, for that type. */
  lemma PlanStep(kinds: seq<ResourceType>, i: nat, namespaces: seq<string>)
    requires i < |kinds|
    ensures var t := kinds[i];
            Plan(kinds[..i + 1], namespaces) == Plan(kinds[..i], namespaces) +
              (if t == ResourceTypeApplication || t == ResourceTypeContainer then []
               else if t == ResourceTypeProject then [Fetch(t, [OpenShiftNamespace])]
               else [Fetch(t, namespaces)])
  {
    assert kinds[..i + 1][..i] == kinds[..i];
  }

  /** The fetches for a sequence of types are those of its parts, in order. */
  lemma {:induction false} PlanAppend(xs: seq<ResourceType>, ys: seq<ResourceType>, namespaces: seq<string>)
    ensures Plan(xs + ys, namespaces) == Plan(xs, namespaces) + Plan(ys, namespaces)
    decreases |ys|
  {
    if ys == [] {
      assert xs + ys == xs;
    } else {
      var init, last := ys[..|ys| - 1], ys[|ys| - 1];
      PlanAppend(xs, init, namespaces);
      var zs := xs + ys;
      assert zs[..|zs| - 1] == xs + init;
      assert zs[|zs| - 1] == last;
      var step := if last == ResourceTypeApplication || last == ResourceTypeContainer then []
                  else if last == ResourceTypeProject then [Fetch(last, [OpenShiftNamespace])]
                  else [Fetch(last, namespaces)];
      assert Plan(zs, namespaces) == Plan(xs + init, namespaces) + step;
      assert Plan(ys, namespaces) == Plan(init, namespaces) + step;
    }
  }

  /** A fetch is planned iff its type is requested and is neither the
      applications nor the containers, and its namespaces are `openshift`
      for projects and all namespaces otherwise. */
  lemma {:induction false} PlanMembers(kinds: seq<ResourceType>, namespaces: seq<string>, f: Fetch)
    ensures |Plan(kinds, namespaces)| <= |kinds|
    ensures f in Plan(kinds, namespaces) <==>
            f.kind in kinds && f.kind != ResourceTypeApplication && f.kind != ResourceTypeContainer &&
            f.namespaces == (if f.kind == ResourceTypeProject then [OpenShiftNamespace] else namespaces)
  {
    if kinds != [] {
      var init := kinds[..|kinds| - 1];
      PlanMembers(init, namespaces, f);
      assert kinds == init + [kinds[|kinds| - 1]];
      assert f.kind in kinds <==> f.kind in init || f.kind == kinds[|kinds| - 1];
    }
  }

  /** The listing results of the planned fetches, run one after the other,
      and the caches after them. */
  function FetchAll(c: Cluster, resources: Option<ResourcesCache>, namespacesCache: NamespacesCache, plan: seq<Fetch>)
    : (r: (seq<Result<seq<Object>, seq<Error>>>, Option<ResourcesCache>, NamespacesCache))
    ensures |r.0| == |plan|
  {
    if plan == [] then ([], resources, namespacesCache)
    else
      var (results, resources', namespacesCache') := FetchAll(c, resources, namespacesCache, plan[..|plan| - 1]);
      var f := plan[|plan| - 1];
      var (r, resources'', namespacesCache'') := ListOutcome(c, resources', namespacesCache', f.kind, f.namespaces);
      (results + [r], resources'', namespacesCache'')
  }

  /** Running one more fetch appends its result and threads the caches on. */
  lemma FetchAllStep(c: Cluster, resources: Option<ResourcesCache>, namespacesCache: NamespacesCache, plan: seq<Fetch>, f: Fetch)
    ensures var before := FetchAll(c, resources, namespacesCache, plan);
            var step := ListOutcome(c, before.1, before.2, f.kind, f.namespaces);
            FetchAll(c, resources, namespacesCache, plan + [f]) == (before.0 + [step.0], step.1, step.2)
  {
    assert (plan + [f])[..|plan|] == plan;
  }

  /** The partials of the planned fetches. */
  function Partials(plan: seq<Fetch>, results: seq<Result<seq<Object>, seq<Error>>>): (ps: seq<Outcome>)
    requires |results| == |plan|
    ensures |ps| == |plan|
    ensures forall i :: 0 <= i < |plan| ==> ps[i] == Partial(plan[i].kind, results[i])
  {
    seq(|plan|, i requires 0 <= i < |plan| => Partial(plan[i].kind, results[i]))
  }

  /** The error `LoadData` reports for the partial it waited for at `i`:
      a time-out when it came late, the partial's errors otherwise. */
  function FailureAt(partials: seq<Outcome>, late: set<nat>, i: nat): Option<Error>
    requires i < |partials|
  {
    if i in late then Some(TimedOut)
    else if partials[i].errors.Some? then Some(LoadFailed(partials[i].errors.value))
    else None
  }

  /** The merge loop of `LoadData`: waits for each partial in turn (the
      ones in `late` arrive after the ten-second wait), stops at the first
      late or failed one, and merges the others into an empty aggregate. */
  function Gather(partials: seq<Outcome>, late: set<nat>): Result<Aggregate, Error>
  {
    if partials == [] then Success(Empty)
    else
      var i := |partials| - 1;
      match Gather(partials[..i], late)
      case Failure(e) => Failure(e)
      case Success(a) =>
        match FailureAt(partials, late, i)
        case Some(e) => Failure(e)
        case None => Success(MergeInto(a, partials[i].data))
  }

  /** The partial aggregates. */
  function Aggregates(partials: seq<Outcome>): (r: seq<Aggregate>)
    ensures |r| == |partials|
    ensures forall i :: 0 <= i < |partials| ==> r[i] == partials[i].data
  {
    seq(|partials|, i requires 0 <= i < |partials| => partials[i].data)
  }

  /** The merge loop succeeds iff every partial arrived in time without
      errors, and then yields all partials merged in plan order. */
  lemma {:induction false} GatherSucceeds(partials: seq<Outcome>, late: set<nat>)
    ensures Gather(partials, late).Success? <==>
            forall i :: 0 <= i < |partials| ==> FailureAt(partials, late, i).None?
    ensures Gather(partials, late).Success? ==> Gather(partials, late).value == MergeAll(Empty, Aggregates(partials))
  {
    if partials != [] {
      var n := |partials| - 1;
      var init := partials[..n];
      GatherSucceeds(init, late);
      assert forall i :: 0 <= i < n ==> FailureAt(init, late, i) == FailureAt(partials, late, i);
      assert Aggregates(partials)[..n] == Aggregates(init);
    }
  }

  /** The merge loop reports the failure of the first partial that is late
      or carries errors. */
  lemma {:induction false} GatherFirstFailure(partials: seq<Outcome>, late: set<nat>, i: nat)
    requires i < |partials|
    requires forall j :: 0 <= j < i ==> FailureAt(partials, late, j).None?
    requires FailureAt(partials, late, i).Some?
    ensures Gather(partials, late) == Failure(FailureAt(partials, late, i).value)
  {
    var n := |partials| - 1;
    var init := partials[..n];
    assert forall j :: 0 <= j < n ==> FailureAt(init, late, j) == FailureAt(partials, late, j);
    if i < n {
      GatherFirstFailure(init, late, i);
    } else {
      GatherSucceeds(init, late);
    }
  }

  /** One step of the merge loop: a partial that is late or carries errors
      stops the loop with that failure; any other partial is merged into what
      the loop has gathered so far. */
  lemma GatherStep(partials: seq<Outcome>, late: set<nat>, i: nat)
    requires i < |partials|
    requires Gather(partials[..i], late).Success?
    ensures FailureAt(partials, late, i).Some? ==>
              Gather(partials[..i + 1], late) == Failure(FailureAt(partials, late, i).value)
    ensures FailureAt(partials, late, i).None? ==>
              Gather(partials[..i + 1], late) == Success(MergeInto(Gather(partials[..i], late).value, partials[i].data))
  {
    var prefix := partials[..i + 1];
    assert prefix[..i] == partials[..i];
    assert FailureAt(prefix, late, i) == FailureAt(partials, late, i);
  }

  /** A failed prefix of the merge loop fails the whole loop the same way. */
  lemma {:induction false} GatherPrefixFails(partials: seq<Outcome>, late: set<nat>, i: nat)
    requires i <= |partials|
    requires Gather(partials[..i], late).Failure?
    ensures Gather(partials, late) == Gather(partials[..i], late)
    decreases |partials| - i
  {
    if i < |partials| {
      assert partials[..i + 1][..i] == partials[..i];
      GatherPrefixFails(partials, late, i + 1);
    } else {
      assert partials[..i] == partials;
    }
  }

  /** One step of the post-processing loop. */
  ghost function PostStep(a: Aggregate, t: ResourceType): Aggregate
  {
    if t == ResourceTypePod then WithoutBuilderAndDeployerPods(a)
    else if t == ResourceTypeContainer then WithContainers(a)
    else if t == ResourceTypeApplication then WithApplications(a)
    else a
  }

  /** The post-processing loop, in the caller's order of types. */
  ghost function PostProcess(a: Aggregate, kinds: seq<ResourceType>): Aggregate
  {
    if kinds == [] then a else PostStep(PostProcess(a, kinds[..|kinds| - 1]), kinds[|kinds| - 1])
  }

  lemma {:induction false} PostProcessAppend(a: Aggregate, xs: seq<ResourceType>, ys: seq<ResourceType>)
    ensures PostProcess(a, xs + ys) == PostProcess(PostProcess(a, xs), ys)
    decreases |ys|
  {
    if ys == [] {
      assert xs + ys == xs;
    } else {
      PostProcessAppend(a, xs, ys[..|ys| - 1]);
      assert (xs + ys)[..|xs + ys| - 1] == xs + ys[..|ys| - 1];
    }
  }

  /** Post-processing never drops a loaded list; requesting the applications
      loads them; requesting the containers loads them when the pods are
      loaded and leaves them as they were when the pods are not. */
  lemma {:induction false} PostProcessPresent(a: Aggregate, kinds: seq<ResourceType>, t: ResourceType)
    ensures Present(a, t) ==> Present(PostProcess(a, kinds), t)
    ensures ResourceTypeApplication in kinds ==> PostProcess(a, kinds).applications.Some?
    ensures ResourceTypeContainer in kinds && a.pods.Some? ==> PostProcess(a, kinds).containers.Some?
    ensures a.pods.None? ==> PostProcess(a, kinds).pods.None? && PostProcess(a, kinds).containers == a.containers
  {
    if kinds != [] {
      var init, last := kinds[..|kinds| - 1], kinds[|kinds| - 1];
      PostProcessPresent(a, init, t);
      PostProcessPresent(a, init, ResourceTypePod);
      assert kinds == init + [last];
    }
  }

  /** After a successful merge loop, every requested type that can be
      listed is loaded. */
  lemma GatheredKindPresent(kinds: seq<ResourceType>, namespaces: seq<string>,
                            results: seq<Result<seq<Object>, seq<Error>>>, late: set<nat>, t: ResourceType)
    requires |results| == |Plan(kinds, namespaces)|
    requires Gather(Partials(Plan(kinds, namespaces), results), late).Success?
    requires t in kinds && Settable(t) && t != ResourceTypeContainer
    ensures Present(Gather(Partials(Plan(kinds, namespaces), results), late).value, t)
  {
    var plan := Plan(kinds, namespaces);
    var partials := Partials(plan, results);
    GatherSucceeds(partials, late);
    var f := Fetch(t, if t == ResourceTypeProject then [OpenShiftNamespace] else namespaces);
    PlanMembers(kinds, namespaces, f);
    var j :| 0 <= j < |plan| && plan[j] == f;
    assert FailureAt(partials, late, j).None?;
    PartialShape(t, results[j], t);
    MergeAllSomePresent(Empty, Aggregates(partials), t, j);
  }

  /** Without requested pods, the merge loop loads neither pods nor
      containers: containers are never listed, only extracted. */
  lemma GatheredWithoutPods(kinds: seq<ResourceType>, namespaces: seq<string>,
                            results: seq<Result<seq<Object>, seq<Error>>>, late: set<nat>, u: ResourceType)
    requires |results| == |Plan(kinds, namespaces)|
    requires Gather(Partials(Plan(kinds, namespaces), results), late).Success?
    requires ResourceTypePod !in kinds && (u == ResourceTypePod || u == ResourceTypeContainer)
    ensures !Present(Gather(Partials(Plan(kinds, namespaces), results), late).value, u)
  {
    var plan := Plan(kinds, namespaces);
    var partials := Partials(plan, results);
    GatherSucceeds(partials, late);
    var all := [Empty] + Aggregates(partials);
    assert all[0] == Empty;
    forall j | 0 <= j <= |partials|
      ensures !Present(all[j], u)
    {
      if j > 0 {
        assert all[j] == partials[j - 1].data;
        PartialWithoutPods(kinds, namespaces, results, j - 1, u);
      }
    }
    MergeAllNoneWins(Empty, Aggregates(partials), u);
  }

  /** No single partial of a load without requested pods holds pods or
      containers. */
  lemma PartialWithoutPods(kinds: seq<ResourceType>, namespaces: seq<string>,
                           results: seq<Result<seq<Object>, seq<Error>>>, k: nat, u: ResourceType)
    requires |results| == |Plan(kinds, namespaces)| && k < |results|
    requires ResourceTypePod !in kinds && (u == ResourceTypePod || u == ResourceTypeContainer)
    ensures !Present(Partials(Plan(kinds, namespaces), results)[k].data, u)
  {
    var plan := Plan(kinds, namespaces);
    var f := plan[k];
    assert f in plan;
    PlanMembers(kinds, namespaces, f);
    assert f.kind != u;
    PartialShape(f.kind, results[k], u);
  }

  /** After a successful load, every requested type that can be listed is
      loaded, the applications are loaded when requested, and the containers
      are loaded when requested together with the pods. Containers requested
      without the pods stay absent, and the load still succeeds. */
  lemma LoadedKindsPresent(kinds: seq<ResourceType>, namespaces: seq<string>,
                           results: seq<Result<seq<Object>, seq<Error>>>, late: set<nat>, t: ResourceType)
    requires |results| == |Plan(kinds, namespaces)|
    requires Gather(Partials(Plan(kinds, namespaces), results), late).Success?
    ensures var loaded := PostProcess(Gather(Partials(Plan(kinds, namespaces), results), late).value, kinds);
            (t in kinds && Settable(t) && t != ResourceTypeContainer ==> Present(loaded, t)) &&
            (ResourceTypeApplication in kinds ==> loaded.applications.Some?) &&
            (ResourceTypeContainer in kinds && ResourceTypePod in kinds ==> loaded.containers.Some?) &&
            (ResourceTypePod !in kinds ==> loaded.containers.None?)
  {
    var gathered := Gather(Partials(Plan(kinds, namespaces), results), late).value;
    if t in kinds && Settable(t) && t != ResourceTypeContainer {
      GatheredKindPresent(kinds, namespaces, results, late, t);
      PostProcessPresent(gathered, kinds, t);
    }
    PostProcessPresent(gathered, kinds, ResourceTypeApplication);
    if ResourceTypePod in kinds {
      assert Settable(ResourceTypePod);
      GatheredKindPresent(kinds, namespaces, results, late, ResourceTypePod);
      PostProcessPresent(gathered, kinds, ResourceTypePod);
    } else {
      GatheredWithoutPods(kinds, namespaces, results, late, ResourceTypePod);
      GatheredWithoutPods(kinds, namespaces, results, late, ResourceTypeContainer);
    }
  }

  /** Types other than pods and containers leave pods and containers alone. */
  lemma {:induction false} PostProcessKeepsPods(a: Aggregate, kinds: seq<ResourceType>)
    requires ResourceTypePod !in kinds && ResourceTypeContainer !in kinds
    ensures PostProcess(a, kinds).pods == a.pods
    ensures PostProcess(a, kinds).containers == a.containers
  {
    if kinds != [] {
      PostProcessKeepsPods(a, kinds[..|kinds| - 1]);
    }
  }

  /** Loading every type removes builder and deployer pods before the
      containers are extracted, so the containers are exactly those of the
      retained pods. */
  lemma LoadAllContainers(a: Aggregate)
    requires a.pods.Some?
    ensures PostProcess(a, ResourceTypeAll).pods == Some(Filter(a.pods.value, IsRetainedPod))
    ensures PostProcess(a, ResourceTypeAll).containers == Some(Flatten(Filter(a.pods.value, IsRetainedPod)))
  {
    var before := ResourceTypeAll[..4];
    var after := ResourceTypeAll[6..];
    assert ResourceTypeAll == before + [ResourceTypePod] + [ResourceTypeContainer] + after;
    PostProcessAppend(a, before + [ResourceTypePod] + [ResourceTypeContainer], after);
    PostProcessAppend(a, before + [ResourceTypePod], [ResourceTypeContainer]);
    PostProcessAppend(a, before, [ResourceTypePod]);
    PostProcessKeepsPods(a, before);
    PostProcessKeepsPods(PostProcess(a, before + [ResourceTypePod] + [ResourceTypeContainer]), after);
  }

  // ---------------------------------------------------------------- ClientWrapper

  /** `ClientWrapper`: a cluster client with a namespaces cache and an
      optional resources cache. */
  class ClientWrapper {
    const cluster: Cluster
    var namespacesCache: NamespacesCache
    /** `None` is a nil cache: caching disabled. */
    var resourcesCache: Option<ResourcesCache>

    /** `NewClientWrapper`: empty caches; no resources cache unless asked. */
    constructor (cluster: Cluster, withCache: bool)
      ensures this.cluster == cluster
      ensures namespacesCache == map[]
      ensures resourcesCache == if withCache then Some(map[]) else None
    {
      this.cluster := cluster;
      namespacesCache := map[];
      resourcesCache := if withCache then Some(map[]) else None;
    }

    /** `GetAvailableNamespaces`: the cached names, or the names of the
        listed projects, cached. */
    method GetAvailableNamespaces() returns (r: Result<seq<string>, Error>)
      modifies this
      ensures (r, namespacesCache) == NamespacesOutcome(old(namespacesCache), cluster)
      ensures resourcesCache == old(resourcesCache)
    {
      if NamespacesKey in namespacesCache {
        return Success(namespacesCache[NamespacesKey]);
      }
      if cluster.projects.Failure? {
        return Failure(cluster.projects.error);
      }
      var projectList := cluster.projects.value;
      var namespaces: seq<string> := [];
      for i := 0 to |projectList|
        invariant namespaces == ProjectNames(projectList[..i])
      {
        assert projectList[..i + 1][..i] == projectList[..i];
        namespaces := namespaces + [projectList[i].name];
      }
      assert projectList[..|projectList|] == projectList;
      namespacesCache := namespacesCache[NamespacesKey := namespaces];
      return Success(namespaces);
    }

    /** `ListResources`: the cached list, or the items of every namespace
        (all available ones when none is given), all-or-nothing. */
    method ListResources(resourceType: ResourceType, namespaces: seq<string>)
      returns (r: Result<seq<Object>, seq<Error>>)
      modifies this
      ensures (r, resourcesCache, namespacesCache)
           == ListOutcome(cluster, old(resourcesCache), old(namespacesCache), resourceType, namespaces)
    {
      if resourcesCache.Some? && resourceType in resourcesCache.value {
        return Success(resourcesCache.value[resourceType]);
      }
      var helperError := cluster.helper(resourceType);
      if helperError.Some? {
        return Failure([helperError.value]);
      }
      var namespaces := namespaces;
      if |namespaces| == 0 {
        var available := GetAvailableNamespaces();
        if available.Failure? {
          return Failure([available.error]);
        }
        namespaces := available.value;
      }
      var results: seq<Object> := [];
      var errs: seq<Error> := [];
      for i := 0 to |namespaces|
        invariant results == Gathered(cluster, resourceType, namespaces[..i])
        invariant errs == Failures(cluster, resourceType, namespaces[..i])
      {
        assert namespaces[..i + 1][..i] == namespaces[..i];
        var result := cluster.list(resourceType, namespaces[i]);
        if result.Failure? {
          errs := errs + [result.error];
        } else {
          results := results + result.value;
        }
      }
      assert namespaces[..|namespaces|] == namespaces;
      if |errs| > 0 {
        return Failure(errs);
      }
      if resourcesCache.Some? {
        resourcesCache := Some(resourcesCache.value[resourceType := results]);
      }
      return Success(results);
    }

    /** `AsyncListResources`, run to completion: a fresh `Data` holding the
        listed resources, or the listing errors. */
    method AsyncListResources(resourceType: ResourceType, namespaces: seq<string>) returns (w: DataWrapper)
      modifies this
      ensures fresh(w.data)
      ensures var listed := ListOutcome(cluster, old(resourcesCache), old(namespacesCache), resourceType, namespaces);
              resourcesCache == listed.1 && namespacesCache == listed.2 &&
              Outcome(w.data.Value(), w.errors) == Partial(resourceType, listed.0)
    {
      var resources := ListResources(resourceType, namespaces);
      var data := new Data();
      if resources.Failure? {
        w := DataWrapper(data, Some(resources.error));
      } else {
        var ignored := data.Set(resourceType, resources.value);
        w := DataWrapper(data, None);
      }
    }

    /** `LoadData`: looks up the namespaces, runs the planned listings, waits
        for each partial in plan order (`late` holds the positions whose
        wait exceeds ten seconds), merges them and post-processes the result
        in the order of `resourceTypes`. */
    method LoadData(resourceTypes: seq<ResourceType>, late: set<nat>)
      returns (r: Result<Data, Error>, ghost plan: seq<Fetch>, ghost results: seq<Result<seq<Object>, seq<Error>>>)
      modifies this
      ensures var (available, namespacesCache0) := NamespacesOutcome(old(namespacesCache), cluster);
              if available.Failure? then
                r == Failure(available.error) && plan == [] && results == [] &&
                resourcesCache == old(resourcesCache) && namespacesCache == namespacesCache0
              else
                plan == Plan(resourceTypes, available.value) &&
                (results, resourcesCache, namespacesCache) == FetchAll(cluster, old(resourcesCache), namespacesCache0, plan) &&
                var gathered := Gather(Partials(plan, results), late);
                (gathered.Failure? ==> r == Failure(gathered.error)) &&
                (gathered.Success? ==> r.Success? && fresh(r.value) &&
                                       r.value.Value() == PostProcess(gathered.value, resourceTypes))
    {
      var data := new Data();
      var available := GetAvailableNamespaces();
      if available.Failure? {
        return Failure(available.error), [], [];
      }
      var channels;
      channels, plan, results := StartListings(resourceTypes, available.value, data);
      var err := WaitAndMerge(data, channels, Partials(plan, results), late);
      if err.Some? {
        return Failure(err.value), plan, results;
      }
      PostProcessData(data, resourceTypes);
      return Success(data), plan, results;
    }

    /** The first loop of `LoadData`: one listing per planned fetch. Each
        listing fills a new `Data` of its own, never `target`, the aggregate
        the load merges into. */
    method StartListings(resourceTypes: seq<ResourceType>, namespaces: seq<string>, ghost target: Data)
      returns (channels: seq<DataWrapper>, ghost plan: seq<Fetch>, ghost results: seq<Result<seq<Object>, seq<Error>>>)
      modifies this
      ensures plan == Plan(resourceTypes, namespaces)
      ensures (results, resourcesCache, namespacesCache) == FetchAll(cluster, old(resourcesCache), old(namespacesCache), plan)
      ensures |channels| == |plan|
      ensures forall j :: 0 <= j < |channels| ==> channels[j].data != target
      ensures forall j :: 0 <= j < |channels| ==>
                Outcome(channels[j].data.Value(), channels[j].errors) == Partial(plan[j].kind, results[j])
    {
      channels, plan, results := [], [], [];
      for i := 0 to |resourceTypes|
        invariant plan == Plan(resourceTypes[..i], namespaces)
        invariant (results, resourcesCache, namespacesCache) == FetchAll(cluster, old(resourcesCache), old(namespacesCache), plan)
        invariant |channels| == |plan|
        invariant forall j :: 0 <= j < |channels| ==> channels[j].data != target
        invariant forall j :: 0 <= j < |channels| ==>
                    Outcome(channels[j].data.Value(), channels[j].errors) == Partial(plan[j].kind, results[j])
      {
        PlanStep(resourceTypes, i, namespaces);
        var resourceType := resourceTypes[i];
        if resourceType == ResourceTypeApplication || resourceType == ResourceTypeContainer {
          // Extracted later from the deployment configs and the pods.
        } else {
          var namespacesToList := if resourceType == ResourceTypeProject then [OpenShiftNamespace] else namespaces;
          ghost var f := Fetch(resourceType, namespacesToList);
          ghost var res := ListOutcome(cluster, resourcesCache, namespacesCache, resourceType, namespacesToList).0;
          FetchAllStep(cluster, old(resourcesCache), old(namespacesCache), plan, f);
          var w := AsyncListResources(resourceType, namespacesToList);
          channels := channels + [w];
          plan := plan + [f];
          results := results + [res];
        }
      }
      assert resourceTypes[..|resourceTypes|] == resourceTypes;
    }

    /** The second loop of `LoadData`: waits for each partial in turn and
        merges it into `data`, stopping at the first late or failed one. */
    method WaitAndMerge(data: Data, channels: seq<DataWrapper>, ghost partials: seq<Outcome>, late: set<nat>)
      returns (err: Option<Error>)
      requires data.Value() == Empty
      requires |partials| == |channels|
      requires forall j :: 0 <= j < |channels| ==> channels[j].data != data
      requires forall j :: 0 <= j < |channels| ==> Outcome(channels[j].data.Value(), channels[j].errors) == partials[j]
      modifies data
      ensures Gather(partials, late).Failure? ==> err == Some(Gather(partials, late).error)
      ensures Gather(partials, late).Success? ==> err.None? && data.Value() == Gather(partials, late).value
    {
      for i := 0 to |channels|
        invariant Gather(partials[..i], late) == Success(data.Value())
        invariant forall j :: 0 <= j < |channels| ==>
                    Outcome(channels[j].data.Value(), channels[j].errors) == partials[j]
      {
        GatherStep(partials, late, i);
        if i in late {
          GatherPrefixFails(partials, late, i + 1);
          return Some(TimedOut);
        }
        var d := channels[i];
        if d.errors.Some? {
          GatherPrefixFails(partials, late, i + 1);
          return Some(LoadFailed(d.errors.value));
        }
        assert Values([d.data]) == [partials[i].data];
        MergeAllOne(data.Value(), partials[i].data);
        data.Merge([d.data]);
      }
      assert partials[..|channels|] == partials;
      err := None;
    }

    /** The last loop of `LoadData`: post-processes `data` in the order of
        `resourceTypes`, dropping the results and errors. */
    method PostProcessData(data: Data, resourceTypes: seq<ResourceType>)
      modifies data
      ensures data.Value() == PostProcess(old(data.Value()), resourceTypes)
    {
      for i := 0 to |resourceTypes|
        invariant data.Value() == PostProcess(old(data.Value()), resourceTypes[..i])
      {
        assert resourceTypes[..i + 1][..i] == resourceTypes[..i];
        var resourceType := resourceTypes[i];
        if resourceType == ResourceTypePod {
          var builderPods, deployerPods := data.RemoveBuilderAndDeployerPods();
        } else if resourceType == ResourceTypeContainer {
          var ignored := data.ExtractContainersFromPods();
        } else if resourceType == ResourceTypeApplication {
          data.ExtractApplicationsFromDeploymentConfigs();
        }
      }
      assert resourceTypes[..|resourceTypes|] == resourceTypes;
    }
  }
}
