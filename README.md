# openshift-dashboard: the `api` package in Dafny

This project models the core of the `api` package of the OpenShift dashboard.
That package loads everything the dashboard shows from an OpenShift cluster into one `Data` aggregate.
The aggregate holds one list per resource type: projects, routes, services, pods, containers, image streams, build configs, builds, deployment configs, replication controllers and events.
It also holds the applications.
An application is only the value of the `application` label on a deployment config.

The model covers:

- the resource type registry (`ResourceType` and `ResourceTypeAll`);
- the `Data` aggregate as a class with twelve optional list fields, where `None` stands for a Go nil slice. It covers the left-biased `Merge`, the type-checked `Set`/`Set*` setters, and the three derivations run after loading: dropping builder and deployer pods, extracting containers from pods, and extracting the sorted application names;
- the label and namespace filters, and the application ordering used by `sort.Sort`;
- the sequential logic of `ClientWrapper`: the cached namespace lookup, `ListResources` with its per-namespace accumulation, all-or-nothing errors and cache rule, the partial result of `AsyncListResources`, and `LoadData`'s fetch plan, merge loop and post-processing loop.

Records are reduced to what the package reads from them: a name, a namespace and labels; pods also have containers.
An untyped Go value (`interface{}`) is an `Object`: a record tagged with its kind, a pod, a container, or a value of some other type.
A typed Go slice given to a filter is a `Listing`.
The cluster is a `Cluster` value with three parts: the result of listing projects, the error (if any) building the REST helper for a type, and the result of listing one type in one namespace.
Each cache is a map that may or may not hold a key.
A nil resources cache is `None`.

Each state-changing method is proved against a specification function.
`Data.Set` is proved against `Assign`, `Data.Merge` against `MergeAll`, `ListResources` against `ListOutcome` and `LoadData` against `Plan`, `FetchAll`, `Gather` and `PostProcess`.
The lemmas state what the package promises about those functions.

Where one might expect otherwise, the model follows the code:

- An `application` label whose value is the empty string still names an application (api/data.go:283).
- `Merge` never copies `Applications` (api/data.go:33-68).
- `LoadData` post-processes in the caller's order of resource types, not in a fixed order (api/client-wrapper.go:87-96). Loading `ResourceTypeAll` filters pods before extracting containers only because `pod` comes before `container` in that list.
- `ListResources` keeps listing after a namespace fails and reports every error (api/client-wrapper.go:173-191).
- `LoadData` waits up to ten seconds for each partial in turn (api/client-wrapper.go:82). It does not use one deadline for the whole load.
- `LoadData` ignores the error of `ExtractContainersFromPods` (api/client-wrapper.go:92). Requesting `container` without `pod` therefore succeeds, with the containers absent.
- The resources cache is keyed by resource type alone. A cache hit answers the same whatever namespaces are asked for (api/client-wrapper.go:154).

## Model

| member | source | states |
|---|---|---|
| ApiTypes.Lookup | api/data.go:283 | a label lookup finds a value exactly when the key is present, and then finds that key's value |
| ApiResources.ResourceTypeAllDistinct | api/resources.go:8-36 | the twelve resource type tags in `ResourceTypeAll` are pairwise distinct |
| ApiResources.ResourceTypeAllOnce | api/resources.go:23-36 | `ResourceTypeAll` contains each of the twelve constants exactly once |
| ApiResources.PodBeforeContainer | api/resources.go:28-29 | in `ResourceTypeAll`, `pod` comes before `container`, and both are listed |
| ApiApplication.Application.Name | api/application.go:16-18 | the name is the application's underlying string, unchanged |
| ApiApplication.Len | api/application.go:24 | `Len` is the number of applications |
| ApiApplication.Less | api/application.go:25 | `Less(i, j)` holds iff name i is before name j in string order; when it holds, the reverse does not and the two differ; when it does not, name j is at most name i |
| ApiApplication.Swap | api/application.go:26 | `Swap(i, j)` exchanges positions i and j, leaves every other position unchanged and keeps the multiset |
| ApiApplication.StrLessIrreflexive | api/application.go:25 | no name is before itself in string order |
| ApiApplication.StrLessAsymmetric | api/application.go:25 | if a is before b, b is not before a |
| ApiApplication.StrLessTransitive | api/application.go:25 | string order is transitive |
| ApiApplication.StrLessTotal | api/application.go:25 | any two names are equal or ordered one way or the other |
| ApiApplication.StrLeqTransitive | api/application.go:25 | "at most" in string order is transitive |
| ApiApplication.StrLeqAntisymmetric | api/application.go:25 | two names each at most the other are equal |
| ApiApplication.SortApplications | api/data.go:294 | sorting with `Len`/`Less`/`Swap` leaves the applications in ascending order and a permutation of the input |
| ApiApplication.SortedDistinctIsStrictlyAscending | api/data.go:290-294 | sorted names without duplicates are strictly ascending |
| ApiApplication.AscendingApplications | api/data.go:290-294 | the strictly ascending sequence of applications whose names are exactly a given set |
| ApiApplication.AscendingUnique | api/data.go:290-294 | two strictly ascending sequences with the same members are equal, so the sorted result does not depend on map iteration order |
| ApiHelpers.HasLabelValue | api/helpers.go:116-121 | true iff the key is present in the labels and its value equals the requested value |
| ApiHelpers.Select | api/helpers.go:23-64 | the type switch of both filters: it succeeds iff the list is routes, services, image streams, build configs or deployment configs, and then returns the order-preserving subsequence of the records the test keeps, each as often as in the input |
| ApiHelpers.FilterByLabelValue | api/helpers.go:20-65 | exactly the records carrying the label with that value, in input order, each as often as in the input, so never longer than the input; unsupported lists are an error |
| ApiHelpers.FilterByApplication | api/helpers.go:15-17 | the result of filtering by the `application` label; every record kept carries that application, in input order |
| ApiHelpers.FilterByNamespace | api/helpers.go:68-113 | exactly the records in that namespace, in input order, each as often as in the input, so never longer than the input; unsupported lists are an error |
| ApiHelpers.FilterByLabelValueIdempotent | api/helpers.go:20-65 | filtering the kept records again, as a list of the same kind, with the same label gives them back unchanged |
| ApiHelpers.FilterByNamespaceIdempotent | api/helpers.go:68-113 | filtering the kept records again, as a list of the same kind, with the same namespace gives them back unchanged |
| ApiHelpers.UnsupportedListsRefused | api/helpers.go:60-61 | pods, containers, projects, builds, replication controllers, events and untyped lists are refused by both filters (also api/helpers.go:108-109) |
| ApiHelpers.EmptyListFiltersToEmpty | api/helpers.go:21-64 | an empty list of a supported kind gives an empty result, not an error, for both filters |
| ApiData.MergeIntoLeftBiased | api/data.go:33-68 | merging keeps every list already present, takes the other's list where one is absent, and never changes the applications |
| ApiData.MergeIntoIdempotent | api/data.go:33-68 | merging the same value twice gives the same result as merging it once |
| ApiData.MergeIntoPresent | api/data.go:35-67 | a list is present after merging iff it was present before or, except for the applications, in the other value |
| ApiData.MergeAllCovers | api/data.go:34-68 | merging several values keeps every list the receiver had, and merging the receiver into the result changes nothing |
| ApiData.MergeAllFirstWins | api/data.go:34-68 | with several values merged in turn, each list is that of the first of the receiver and the others that has it |
| ApiData.MergeAllNoneWins | api/data.go:34-68 | a list that none of them has stays absent |
| ApiData.MergeAllKeepsApplications | api/data.go:33-68 | however many values are merged, the applications stay as they were |
| ApiData.MergeAllSomePresent | api/data.go:34-68 | a list that any merged value has is present after merging, except the applications |
| ApiData.MergeAllOne | api/data.go:33-34 | merging a single other value is merging that value into the receiver |
| ApiData.TypedPrefix | api/data.go:114-121 | the longest prefix of the input whose elements pass the type assertion, converted; it is the whole input iff every element passes |
| ApiData.TypedPrefixUnique | api/data.go:114-121 | that prefix is the only sequence with those properties |
| ApiData.CastAll | api/data.go:114-122 | the setter loop appends elements until the first one of the wrong type, and reports whether every element had the right type |
| ApiData.AssignDispatch | api/data.go:72-110 | `Set` has a setter for every registered type except the applications, which leaves that list present; every other tag is an error that changes nothing |
| ApiData.AssignFrame | api/data.go:72-110 | `Set` leaves every list but its own unchanged |
| ApiData.MetaReadBack | api/data.go:113-123 | a setter of metadata records stores a prefix of the input, all of it exactly when every element has the right type |
| ApiData.PodReadBack | api/data.go:149-159 | `SetPods` stores a prefix of the input, all of it exactly when every element is a pod |
| ApiData.ContainerReadBack | api/data.go:192-202 | `SetContainers` stores a prefix of the input, all of it exactly when every element is a container |
| ApiData.AssignReadBack | api/data.go:72-111 | after `Set` the list of its type is present and is a prefix of the input; there is no error iff it is the whole input, even when the input is empty |
| ApiData.PodPartition | api/data.go:164-177 | builder pods, deployer pods and retained pods together hold each pod exactly as often as the input; each keeps the input order; no retained pod carries either label; a pod with both labels is a builder pod and not a deployer pod |
| ApiData.PodCounts | api/data.go:166-174 | each pod is counted in exactly one of builder, deployer and retained pods, as often as in the input |
| ApiData.BothLabelsBuilder | api/data.go:167-170 | a pod carrying both the build label and the deployer label is a builder pod and not a deployer pod |
| ApiData.FlattenAppend | api/data.go:185-188 | the containers of two runs of pods are those of each run, concatenated |
| ApiData.FlattenMembers | api/data.go:185-188 | a container is extracted iff some pod lists it |
| ApiData.AppNamesMembers | api/data.go:281-288 | a name is collected iff some deployment config has the `application` label with that value, the empty value included |
| ApiData.ExtractedApplications | api/data.go:280-295 | after extraction the applications are present and strictly ascending, and an application is listed iff some deployment config carries its name as `application` label |
| ApiData.Data.constructor | api/client-wrapper.go:54 | a new `Data` has no list loaded |
| ApiData.Data.Merge | api/data.go:33-69 | merging the others in turn, even when the receiver is among them, gives the left-biased merge of their values as they were before the call |
| ApiData.Data.MergeOne | api/data.go:35-67 | one pass of the loop copies each list but the applications from the other where the receiver has none |
| ApiData.Data.Set | api/data.go:72-111 | the new value and the error are those `Assign` prescribes for the type |
| ApiData.Data.SetProjects | api/data.go:113-123 | the projects become the well-typed prefix of the input and nothing else changes; an error iff some element is not a project |
| ApiData.Data.SetRoutes | api/data.go:125-135 | the routes become the well-typed prefix of the input and nothing else changes; an error iff some element is not a route |
| ApiData.Data.SetServices | api/data.go:137-147 | the services become the well-typed prefix of the input and nothing else changes; an error iff some element is not a service |
| ApiData.Data.SetPods | api/data.go:149-159 | the pods become the well-typed prefix of the input and nothing else changes; an error iff some element is not a pod |
| ApiData.Data.SetContainers | api/data.go:192-202 | the containers become the well-typed prefix of the input and nothing else changes; an error iff some element is not a container |
| ApiData.Data.SetImageStreams | api/data.go:204-214 | the image streams become the well-typed prefix of the input and nothing else changes; an error iff some element is not an image stream |
| ApiData.Data.SetBuildConfigs | api/data.go:216-226 | the build configs become the well-typed prefix of the input and nothing else changes; an error iff some element is not a build config |
| ApiData.Data.SetBuilds | api/data.go:228-238 | the builds become the well-typed prefix of the input and nothing else changes; an error iff some element is not a build |
| ApiData.Data.SetDeploymentConfigs | api/data.go:240-250 | the deployment configs become the well-typed prefix of the input and nothing else changes; an error iff some element is not a deployment config |
| ApiData.Data.SetReplicationControllers | api/data.go:252-262 | the replication controllers become the well-typed prefix of the input and nothing else changes; an error iff some element is not a replication controller |
| ApiData.Data.SetEvents | api/data.go:264-274 | the events become the well-typed prefix of the input and nothing else changes; an error iff some element is not an event |
| ApiData.Data.RemoveBuilderAndDeployerPods | api/data.go:164-177 | returns the builder pods and the deployer pods in input order and keeps the retained pods in place; a nil pod list stays nil and nothing else changes |
| ApiData.Data.ExtractContainersFromPods | api/data.go:181-190 | the containers become those of the pods, in pod order and then spec order; with nil pods it is an error and nothing changes |
| ApiData.Data.ExtractApplicationsFromDeploymentConfigs | api/data.go:280-295 | the applications become the sorted, duplicate-free label values of the deployment configs, whatever order the map yields them in; nothing else changes |
| ApiData.SortedNamesAscending | api/data.go:290-294 | sorting the distinct names collected from the map gives the strictly ascending sequence of the collected set |
| ApiClient.ProjectNames | api/client-wrapper.go:117-120 | the namespace names are the project names, one per project, in list order |
| ApiClient.NamespacesCached | api/client-wrapper.go:102-124 | a successful lookup stores the names under `namespaces`, so the next lookup is served from the cache with the same answer; a failed lookup changes nothing |
| ApiClient.NamespacesFromProjects | api/client-wrapper.go:112-120 | on a cache miss the lookup succeeds with one name per listed project, each project's name at its position, for any project list, empty included |
| ApiClient.ListAppend | api/client-wrapper.go:171-187 | items and errors over two runs of namespaces are those of each run, concatenated in namespace order |
| ApiClient.FailuresMembers | api/client-wrapper.go:173-191 | an error is reported iff some namespace failed with it, and there is no error iff every namespace succeeds |
| ApiClient.ListOne | api/client-wrapper.go:173-186 | listing one namespace gives its items or its single error |
| ApiClient.ListCacheRule | api/client-wrapper.go:153-195 | a cache hit returns the cached list and changes neither cache; the resources cache is written only with a successful result, and when there is one a successful result is always written to it, so the next listing of that type, for any namespaces, is a hit returning the same list and changing nothing; a nil cache is never written |
| ApiClient.ListCacheIgnoresNamespaces | api/client-wrapper.go:153-157 | a cache hit gives the same result whatever namespaces are asked for |
| ApiClient.ListWithoutCache | api/client-wrapper.go:171-196 | on a cache miss, with the cache on or off, the listing succeeds iff every namespace does, with the items concatenated in namespace order; otherwise it reports every error and no resources; only a success is stored, and only in a cache that exists; the namespaces cache is untouched |
| ApiClient.ListFallback | api/client-wrapper.go:164-169 | asking for no namespaces is asking for all available namespaces, whether the lookup is served from the cache or lists the projects; when that lookup fails, the result is its error alone |
| ApiClient.GatherStep | api/client-wrapper.go:75-84 | one step of the merge loop: a late partial or one carrying errors stops the loop with that failure; any other partial is merged into what the loop has gathered so far |
| ApiClient.PartialShape | api/client-wrapper.go:134-142 | a partial carries exactly its own kind and no errors on success, and no kind with the errors on failure |
| ApiClient.PlanStep | api/client-wrapper.go:62-73 | one more requested type adds no fetch for applications or containers, a fetch from `openshift` for projects, and a fetch from all namespaces for any other type |
| ApiClient.FetchAllStep | api/client-wrapper.go:68-70 | starting one more listing appends its result and carries both caches on from the listings before it |
| ApiClient.PlanAppend | api/client-wrapper.go:62-73 | the fetches for two runs of types are those of each run, in order |
| ApiClient.PlanMembers | api/client-wrapper.go:62-73 | a fetch is planned iff its type is requested and is neither applications nor containers; projects are fetched from `openshift` only, every other type from all namespaces; never more fetches than requested entries (a type requested twice is listed twice) |
| ApiClient.GatherSucceeds | api/client-wrapper.go:75-85 | the merge loop succeeds iff every partial came in time without errors, and then yields all partials merged in plan order |
| ApiClient.GatherFirstFailure | api/client-wrapper.go:75-85 | the merge loop reports the time-out or the errors of the first partial that is late or failed |
| ApiClient.GatherPrefixFails | api/client-wrapper.go:75-85 | once the loop has failed on a prefix, later partials do not change the outcome |
| ApiClient.PostProcessPresent | api/client-wrapper.go:87-96 | post-processing never drops a loaded list; requested applications are loaded; requested containers are loaded when the pods are, and are left as they were when the pods are absent (also api/data.go:181-190) |
| ApiClient.GatheredKindPresent | api/client-wrapper.go:61-85 | after a successful merge loop every requested type other than applications and containers is loaded |
| ApiClient.GatheredWithoutPods | api/client-wrapper.go:61-85 | without requested pods, a successful merge loop loads neither pods nor containers |
| ApiClient.LoadedKindsPresent | api/client-wrapper.go:53-99 | after a successful load every requested listable type is loaded, requested applications are loaded, requested containers are loaded when pods are requested too, and are absent when pods are not |
| ApiClient.PostProcessAppend | api/client-wrapper.go:87-96 | post-processing two runs of types is post-processing each in turn |
| ApiClient.PostProcessKeepsPods | api/client-wrapper.go:87-96 | types other than pods and containers leave pods and containers unchanged |
| ApiClient.LoadAllContainers | api/client-wrapper.go:87-96 | loading all types removes builder and deployer pods before extracting containers, so the containers are exactly those of the retained pods |
| ApiClient.ClientWrapper.constructor | api/client-wrapper.go:33-48 | both caches start empty; there is no resources cache unless caching is asked for |
| ApiClient.ClientWrapper.GetAvailableNamespaces | api/client-wrapper.go:102-124 | the result and the namespaces cache are those `NamespacesOutcome` prescribes; the resources cache is unchanged |
| ApiClient.ClientWrapper.ListResources | api/client-wrapper.go:152-197 | the result and both caches are those `ListOutcome` prescribes: cache hit, helper error, namespace fallback, then all-or-nothing listing with a cache write on success |
| ApiClient.ClientWrapper.AsyncListResources | api/client-wrapper.go:131-147 | a fresh `Data` holding what `Set` makes of the listed resources, or no data and the listing errors; the caches change as for `ListResources` |
| ApiClient.ClientWrapper.LoadData | api/client-wrapper.go:53-99 | a namespace lookup failure is returned as is; otherwise the planned fetches run in plan order, the merge loop's first failure is returned, and on success a fresh `Data` holds the merged partials post-processed in the caller's order |
| ApiClient.ClientWrapper.StartListings | api/client-wrapper.go:61-73 | one partial per planned fetch, in plan order, each the partial of its listing result and each held apart from the aggregate the load merges into |
| ApiClient.ClientWrapper.WaitAndMerge | api/client-wrapper.go:75-85 | the error is that of the first late or failed partial; otherwise the data is all partials merged in order |
| ApiClient.ClientWrapper.PostProcessData | api/client-wrapper.go:87-96 | the data is post-processed in the order of the requested types, pods by pod removal, containers by extraction, applications by extraction |

## Left out

- Goroutines, channels and `time.After` (api/client-wrapper.go:76-84, 132-146): the listings run one after another in plan order. The wait for a partial that exceeds ten seconds is the input `late`, a set of plan positions.
- The listings' concurrent use of the caches: the model writes the caches in plan order, which is one of the orders the goroutines can take.
- Expiry and clean-up of cached entries: each cache is a map whose entries never expire.
- `getFactory`, `getFactoryFromCluster`, `getHelperForResource`, the clients and `extractItems` (api/client-wrapper.go:199-307): the `Cluster` value stands for all of them. A failing namespace returns one error, whether from listing or from extracting items.
- The record internals of Kubernetes and OpenShift: records carry only a name, a namespace, labels and, for pods, containers.
- Error message texts: errors are constructors of `Error`.
- The values of `BuildLabel` and `DeployerPodForDeploymentLabel` come from OpenShift's build and deploy API packages. Those packages are not part of this model. The constants hold the label keys those packages define.
- Sharing of backing arrays: `Merge` copies slice headers, so the merged `Data` and a partial share their arrays. `RemoveBuilderAndDeployerPods` rewrites its array in place and so also rewrites the partial's pods. The model copies values.
- The web front end (web/) and hacks.go: HTTP, templates and environment variables are not part of the model.
- ApiApplication.SortApplications: proves the outcome `sort.Sort` promises, a sorted permutation, with an insertion sort over `Len`/`Less`/`Swap`. It does not model Go's own sorting algorithm.
- ApiApplication.StrLess: compares names character by character. Go compares the UTF-8 bytes, which gives the same order on valid strings.
- ApiHelpers.FilterByLabelValue: takes only typed lists. Passing the untyped result of a filter back into a filter is the refused `OtherList` case, which is why idempotence is stated on the typed list.
