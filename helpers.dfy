/** Order-preserving filters over typed lists of labelled records
    (api/helpers.go). */
module ApiHelpers {
  import opened Wrappers
  import opened Sequences
  import opened ApiTypes
  import opened ApiApplication

  /** `hasLabelValue`: whether the record carries `labelKey` with exactly the
      value `labelValue`. */
  function HasLabelValue(meta: Meta, labelKey: string, labelValue: string): (b: bool)
    ensures b <==> labelKey in meta.labels && meta.labels[labelKey] == labelValue
  {
    match Lookup(meta.labels, labelKey)
    case Some(value) => value == labelValue
    case None => false
  }

  /** The selection test of `FilterByLabelValue`, on one list element. */
  function HasLabel(labelKey: string, labelValue: string): Object -> bool
  {
    (o: Object) => o.MetaObj? && HasLabelValue(o.meta, labelKey, labelValue)
  }

  /** The selection test of `FilterByNamespace`, on one list element. */
  function InNamespace(namespace: string): Object -> bool
  {
    (o: Object) => o.MetaObj? && o.meta.namespace == namespace
  }

  /** The list types the filters handle: routes, services, image streams,
      build configs and deployment configs. */
  predicate Filterable(objects: Listing)
  {
    objects.MetaList? &&
    objects.kind in {RouteKind, ServiceKind, ImageStreamKind, BuildConfigKind, DeploymentConfigKind}
  }

  /** The metadata of a list of boxed records. */
  function Unboxed(objects: seq<Object>): (r: seq<Meta>)
    requires forall i :: 0 <= i < |objects| ==> objects[i].MetaObj?
    ensures |r| == |objects|
    ensures forall i :: 0 <= i < |r| ==> r[i] == objects[i].meta
  {
    seq(|objects|, i requires 0 <= i < |objects| => objects[i].meta)
  }

  /** Keeps, in order, the elements of a supported typed list that pass
      `keep`; every other list type is refused. */
  function Select(objects: Listing, keep: Object -> bool): (r: Result<seq<Object>, Error>)
    ensures r.Success? <==> Filterable(objects)
    ensures r.Failure? ==> r.error == UnsupportedTransformation
    ensures r.Success? ==> |r.value| <= |objects.metas|
    ensures r.Success? ==> forall i :: 0 <= i < |r.value| ==> r.value[i].MetaObj? && r.value[i].kind == objects.kind && keep(r.value[i])
    ensures r.Success? ==> IsSubsequence(r.value, Boxed(objects.kind, objects.metas))
    ensures r.Success? ==> forall o :: multiset(r.value)[o] == if keep(o) then multiset(Boxed(objects.kind, objects.metas))[o] else 0
  {
    if Filterable(objects) then
      var all := Boxed(objects.kind, objects.metas);
      FilterIsSubsequence(all, keep);
      FilterCounts(all, keep);
      var kept := Filter(all, keep);
      assert forall i :: 0 <= i < |kept| ==> kept[i] in all;
      Success(kept)
    else
      Failure(UnsupportedTransformation)
  }

  /** `FilterByLabelValue`: the records of a supported list that carry the
      label with the given value, in input order. */
  function FilterByLabelValue(objects: Listing, labelKey: string, labelValue: string): (r: Result<seq<Object>, Error>)
    ensures r.Success? <==> Filterable(objects)
    ensures r.Failure? ==> r.error == UnsupportedTransformation
    ensures r.Success? ==> |r.value| <= |objects.metas|
    ensures r.Success? ==> forall i :: 0 <= i < |r.value| ==>
              r.value[i].MetaObj? && r.value[i].kind == objects.kind && HasLabelValue(r.value[i].meta, labelKey, labelValue)
    ensures r.Success? ==> IsSubsequence(r.value, Boxed(objects.kind, objects.metas))
    ensures r.Success? ==> forall m :: multiset(r.value)[MetaObj(objects.kind, m)] ==
                                       (if HasLabelValue(m, labelKey, labelValue) then multiset(objects.metas)[m] else 0)
  {
    var r := Select(objects, HasLabel(labelKey, labelValue));
    if r.Success? then
      BoxedCounts(objects.kind, objects.metas);
      r
    else
      r
  }

  /** `FilterByApplication`: the records of a supported list that belong to
      the given application. */
  function FilterByApplication(objects: Listing, application: string): (r: Result<seq<Object>, Error>)
    ensures r.Success? <==> Filterable(objects)
    ensures r.Success? ==> forall i :: 0 <= i < |r.value| ==>
              r.value[i].MetaObj? && ApplicationNameLabel in r.value[i].meta.labels &&
              r.value[i].meta.labels[ApplicationNameLabel] == application
    ensures r.Success? ==> IsSubsequence(r.value, Boxed(objects.kind, objects.metas))
  {
    FilterByLabelValue(objects, ApplicationNameLabel, application)
  }

  /** `FilterByNamespace`: the records of a supported list that live in the
      given namespace, in input order. */
  function FilterByNamespace(objects: Listing, namespace: string): (r: Result<seq<Object>, Error>)
    ensures r.Success? <==> Filterable(objects)
    ensures r.Failure? ==> r.error == UnsupportedTransformation
    ensures r.Success? ==> |r.value| <= |objects.metas|
    ensures r.Success? ==> forall i :: 0 <= i < |r.value| ==>
              r.value[i].MetaObj? && r.value[i].kind == objects.kind && r.value[i].meta.namespace == namespace
    ensures r.Success? ==> IsSubsequence(r.value, Boxed(objects.kind, objects.metas))
    ensures r.Success? ==> forall m :: multiset(r.value)[MetaObj(objects.kind, m)] ==
                                       (if m.namespace == namespace then multiset(objects.metas)[m] else 0)
  {
    var r := Select(objects, InNamespace(namespace));
    if r.Success? then
      BoxedCounts(objects.kind, objects.metas);
      r
    else
      r
  }

  /** Boxing is injective, so it keeps every element's count. */
  lemma {:induction false} BoxedCounts(kind: MetaKind, metas: seq<Meta>)
    ensures forall m :: multiset(Boxed(kind, metas))[MetaObj(kind, m)] == multiset(metas)[m]
  {
    if metas != [] {
      var init := metas[..|metas| - 1];
      BoxedCounts(kind, init);
      assert Boxed(kind, metas) == Boxed(kind, init) + [MetaObj(kind, metas[|metas| - 1])];
      assert metas == init + [metas[|metas| - 1]];
    }
  }

  /** Filtering the kept records again, as a list of the same type, keeps
      all of them: the label filter is idempotent. */
  lemma FilterByLabelValueIdempotent(objects: Listing, labelKey: string, labelValue: string)
    requires FilterByLabelValue(objects, labelKey, labelValue).Success?
    ensures var kept := FilterByLabelValue(objects, labelKey, labelValue).value;
            FilterByLabelValue(MetaList(objects.kind, Unboxed(kept)), labelKey, labelValue).Success? &&
            FilterByLabelValue(MetaList(objects.kind, Unboxed(kept)), labelKey, labelValue).value == kept
  {
    var kept := FilterByLabelValue(objects, labelKey, labelValue).value;
    var all := Boxed(objects.kind, objects.metas);
    assert kept == Filter(all, HasLabel(labelKey, labelValue));
    assert Boxed(objects.kind, Unboxed(kept)) == kept;
    FilterIdempotent(all, HasLabel(labelKey, labelValue));
  }

  /** The namespace filter is idempotent in the same sense. */
  lemma FilterByNamespaceIdempotent(objects: Listing, namespace: string)
    requires FilterByNamespace(objects, namespace).Success?
    ensures var kept := FilterByNamespace(objects, namespace).value;
            FilterByNamespace(MetaList(objects.kind, Unboxed(kept)), namespace).Success? &&
            FilterByNamespace(MetaList(objects.kind, Unboxed(kept)), namespace).value == kept
  {
    var kept := FilterByNamespace(objects, namespace).value;
    var all := Boxed(objects.kind, objects.metas);
    assert kept == Filter(all, InNamespace(namespace));
    assert Boxed(objects.kind, Unboxed(kept)) == kept;
    FilterIdempotent(all, InNamespace(namespace));
  }

  /** The untyped result of a filter is not itself a list type the filters
      accept, and neither is a list of pods. */
  lemma UnsupportedListsRefused(objects: Listing, labelKey: string, labelValue: string, namespace: string)
    requires objects.PodList? || objects.ContainerList? || objects.OtherList? ||
             (objects.MetaList? && objects.kind in {ProjectKind, BuildKind, ReplicationControllerKind, EventKind})
    ensures FilterByLabelValue(objects, labelKey, labelValue) == Failure(UnsupportedTransformation)
    ensures FilterByNamespace(objects, namespace) == Failure(UnsupportedTransformation)
  {
  }

  /** A supported list with no elements filters to an empty list. */
  lemma EmptyListFiltersToEmpty(kind: MetaKind, labelKey: string, labelValue: string, namespace: string)
    requires Filterable(MetaList(kind, []))
    ensures FilterByLabelValue(MetaList(kind, []), labelKey, labelValue) == Success([])
    ensures FilterByNamespace(MetaList(kind, []), namespace) == Success([])
  {
  }
}
