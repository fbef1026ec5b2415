/**
 * Query planning for one poll cycle of the mxd-new-assets node: which catalog
 * queries are issued, with which filters, in which order.
 *
 * The catalog client's fluent query builder is modelled by an immutable value:
 * the filters in the order they were added and the sort order once one is set.
 */
module Queries {

  import opened Wrappers

  /** A value handed to the builder's `filter`. An area name that the area
      lookup does not know yields an undefined value, which is still handed on:
      `Undefined` stands for it. */
  datatype Filter = Tag(name: string) | Undefined

  datatype SortSpec = SortSpec(field: string, direction: string)

  datatype Query = Query(filters: seq<Filter>, sort: Option<SortSpec>)

  /** The sort every query of a cycle ends with: newest licence first. */
  const NewestFirst := SortSpec("activeLicenseStart", "desc")

  /** A query builder just created, before any filter. */
  const Blank := Query([], None)

  /** The builder's `filter`: appends one filter. */
  function AddFilter(q: Query, f: Filter): Query
  {
    q.(filters := q.filters + [f])
  }

  /** The builder's `sort`: sets the sort order. */
  function SortBy(q: Query, field: string, direction: string): Query
  {
    q.(sort := Some(SortSpec(field, direction)))
  }

  /** The content types the `content` setting selects, in the order their
      queries are created. */
  function ContentTypes(content: string): seq<string>
  {
    (if content == "all" || content == "movies" then ["movies"] else [])
    + (if content == "all" || content == "seasons" then ["seasons"] else [])
  }

  /** The lookup of an area name in the table `package -> hasPackageContent`,
      `store -> availableWithoutPackage`. */
  function AreaLookup(area: string): Filter
  {
    if area == "package" then Tag("hasPackageContent")
    else if area == "store" then Tag("availableWithoutPackage")
    else Undefined
  }

  /** The area filters one query receives: none for `all`, else one. */
  function AreaFilters(area: string): seq<Filter>
  {
    if area == "all" then [] else [AreaLookup(area)]
  }

  /** The queries of one cycle, as a declarative description: per selected
      content type, its content filter, then the area filters, then `new` and
      `notUnlisted`, sorted newest first. */
  function Plan(content: string, area: string): seq<Query>
  {
    var types := ContentTypes(content);
    seq(|types|, i requires 0 <= i < |types| => Planned(types[i], area))
  }

  /** The query planned for one content type. */
  function Planned(contentType: string, area: string): Query
  {
    Query([Tag(contentType)] + AreaFilters(area) + [Tag("new"), Tag("notUnlisted")], Some(NewestFirst))
  }

  /** One query per selected content type: two for `all` (movies first), one
      for `movies` or `seasons`, none for any other setting. */
  lemma PlanCount(content: string, area: string)
    ensures var qs := Plan(content, area);
      && (content == "all" ==>
            |qs| == 2 && qs[0].filters[0] == Tag("movies") && qs[1].filters[0] == Tag("seasons"))
      && (content == "movies" ==> |qs| == 1 && qs[0].filters[0] == Tag("movies"))
      && (content == "seasons" ==> |qs| == 1 && qs[0].filters[0] == Tag("seasons"))
      && (content != "all" && content != "movies" && content != "seasons" ==> qs == [])
  {
  }

  /** The area setting adds exactly one filter, right after the content
      filter, to every query, and `all` adds none. */
  lemma PlanAreaFilter(content: string, area: string, i: nat)
    requires i < |Plan(content, area)|
    ensures var fs := Plan(content, area)[i].filters;
      && (area == "all" ==> |fs| == 3)
      && (area != "all" ==> |fs| == 4)
      && (area == "package" ==> fs[1] == Tag("hasPackageContent"))
      && (area == "store" ==> fs[1] == Tag("availableWithoutPackage"))
      && (area != "all" && area != "package" && area != "store" ==> fs[1] == Undefined)
  {
  }

  /** Every query ends with the filters `new` then `notUnlisted` and is sorted
      by `activeLicenseStart`, descending. */
  lemma PlanSuffix(content: string, area: string, i: nat)
    requires i < |Plan(content, area)|
    ensures var q := Plan(content, area)[i];
      && |q.filters| >= 3
      && q.filters[|q.filters| - 2..] == [Tag("new"), Tag("notUnlisted")]
      && q.sort == Some(SortSpec("activeLicenseStart", "desc"))
  {
  }

  /** The planning steps of one tick: push one builder per content type,
      append the area filter to each, then append `new`, `notUnlisted` and the
      sort to each. */
  method BuildQueries(content: string, area: string) returns (queries: seq<Query>)
    ensures queries == Plan(content, area)
  {
    ghost var types := ContentTypes(content);
    queries := [];
    if content == "all" || content == "movies" {
      queries := queries + [AddFilter(Blank, Tag("movies"))];
    }
    if content == "all" || content == "seasons" {
      queries := queries + [AddFilter(Blank, Tag("seasons"))];
    }
    assert |queries| == |types| && forall j :: 0 <= j < |queries| ==> queries[j] == Query([Tag(types[j])], None);
    if area != "all" {
      queries := AppendToEach(queries, AreaLookup(area));
    }
    assert |queries| == |types| &&
      forall j :: 0 <= j < |queries| ==> queries[j] == Query([Tag(types[j])] + AreaFilters(area), None);
    queries := FinishEach(queries);
    assert forall j :: 0 <= j < |queries| ==> queries[j] == Planned(types[j], area);
  }

  /** Appends one filter to each query value, as the forEach over the
      builders does. */
  method AppendToEach(queries: seq<Query>, filter: Filter) returns (updated: seq<Query>)
    ensures |updated| == |queries|
    ensures forall j :: 0 <= j < |queries| ==> updated[j] == AddFilter(queries[j], filter)
  {
    updated := queries;
    for i := 0 to |queries|
      invariant |updated| == |queries|
      invariant forall j :: 0 <= j < i ==> updated[j] == AddFilter(queries[j], filter)
      invariant forall j :: i <= j < |queries| ==> updated[j] == queries[j]
    {
      updated := updated[i := AddFilter(updated[i], filter)];
    }
  }

  /** Appends `new` and `notUnlisted` to each query value and sorts it newest
      first, as the map over the builders does. */
  method FinishEach(queries: seq<Query>) returns (finished: seq<Query>)
    ensures |finished| == |queries|
    ensures forall j :: 0 <= j < |queries| ==>
      finished[j].filters == queries[j].filters + [Tag("new"), Tag("notUnlisted")] &&
      finished[j].sort == Some(NewestFirst)
  {
    finished := queries;
    for i := 0 to |queries|
      invariant |finished| == |queries|
      invariant forall j :: 0 <= j < i ==>
        finished[j].filters == queries[j].filters + [Tag("new"), Tag("notUnlisted")] &&
        finished[j].sort == Some(NewestFirst)
      invariant forall j :: i <= j < |queries| ==> finished[j] == queries[j]
    {
      var q := AddFilter(AddFilter(finished[i], Tag("new")), Tag("notUnlisted"));
      finished := finished[i := SortBy(q, "activeLicenseStart", "desc")];
    }
  }
}
