/**
 * The course catalogue, app/courses/page.tsx: the query sent for the
 * current filters and page, the pagination record, and which pagination
 * controls are shown and enabled.
 */
module Catalog {
  import opened Wrappers
  import opened Auth
  import opened Api
  import opened Records

  const AllFilter := "all"
  const PageSize := 12
  const MaxPageButtons := 5

  datatype Pagination = Pagination(page: int, limit: int, total: int, pages: int)

  /** The `params` object: `page` and `limit` always, a filter only when it
      is not "all". */
  datatype CourseQuery = CourseQuery(page: int, limit: int, category: Option<string>, level: Option<string>)

  /** The body of a successful `GET /courses`. */
  datatype CoursesResponse = CoursesResponse(courses: seq<Course>, total: int, pages: int)

  /** The rule `loadCourses` follows when it builds `params`. */
  predicate QueryFollowsFilters(q: CourseQuery, p: Pagination, category: string, level: string) {
    && q.page == p.page && q.limit == p.limit
    && (q.category.Some? <==> category != AllFilter)
    && (q.category.Some? ==> q.category.value == category)
    && (q.level.Some? <==> level != AllFilter)
    && (q.level.Some? ==> q.level.value == level)
  }

  /** The rule leaves no freedom: one query satisfies it. */
  lemma QueryIsDetermined(q1: CourseQuery, q2: CourseQuery, p: Pagination, category: string, level: string)
    requires QueryFollowsFilters(q1, p, category, level) && QueryFollowsFilters(q2, p, category, level)
    ensures q1 == q2
  {
  }

  /** Builds `params` as the source does: page and limit first, then each
      filter assigned only when it is not "all". */
  method BuildQuery(p: Pagination, category: string, level: string) returns (q: CourseQuery)
    ensures QueryFollowsFilters(q, p, category, level)
  {
    q := CourseQuery(p.page, p.limit, None, None);
    if category != AllFilter {
      q := q.(category := Some(category));
    }
    if level != AllFilter {
      q := q.(level := Some(level));
    }
  }

  function Min(a: int, b: int): (m: int) {
    if a <= b then a else b
  }

  datatype PageButton = PageButton(number: int, current: bool)

  datatype Controls =
    | NoControls
    | ControlBar(previousDisabled: bool, buttons: seq<PageButton>, nextDisabled: bool)

  /** The pagination bar: shown only when there is more than one page;
      "Anterior" disabled on page 1, "Próxima" disabled on the last page,
      and numbered buttons for the first `min(5, pages)` pages, the current
      one highlighted. */
  function ControlsFor(p: Pagination): (c: Controls)
    ensures c.NoControls? <==> p.pages <= 1
    ensures c.ControlBar? ==>
      (c.previousDisabled <==> p.page == 1) && (c.nextDisabled <==> p.page == p.pages)
      && |c.buttons| == Min(MaxPageButtons, p.pages)
      && forall i :: 0 <= i < |c.buttons| ==> c.buttons[i].number == i + 1 && (c.buttons[i].current <==> p.page == i + 1)
  {
    if p.pages <= 1 then NoControls
    else ControlBar(p.page == 1, seq(Min(MaxPageButtons, p.pages), i => PageButton(i + 1, p.page == i + 1)), p.page == p.pages)
  }

  /** Exactly one numbered button is highlighted when the current page is
      among the first five, and none otherwise. */
  lemma {:induction false} HighlightedButton(p: Pagination)
    requires p.pages > 1
    ensures var c := ControlsFor(p);
      (exists i :: 0 <= i < |c.buttons| && c.buttons[i].current) <==> 1 <= p.page <= Min(MaxPageButtons, p.pages)
    ensures var c := ControlsFor(p);
      forall i, j :: 0 <= i < |c.buttons| && 0 <= j < |c.buttons| && c.buttons[i].current && c.buttons[j].current ==> i == j
  {
    var c := ControlsFor(p);
    if 1 <= p.page <= Min(MaxPageButtons, p.pages) {
      assert c.buttons[p.page - 1].current;
    }
  }

  datatype Control = Previous | Next | PageNumber(n: int)

  /** The page a click asks for, or `None` when that control is not shown
      or is disabled. */
  function Press(p: Pagination, control: Control): (target: Option<int>)
    ensures target.Some? ==> p.pages > 1
    ensures control == Previous ==> (target.Some? <==> p.pages > 1 && p.page != 1)
    ensures control == Previous && target.Some? ==> target.value == p.page - 1
    ensures control == Next ==> (target.Some? <==> p.pages > 1 && p.page != p.pages)
    ensures control == Next && target.Some? ==> target.value == p.page + 1
    ensures control.PageNumber? ==> (target.Some? <==> p.pages > 1 && 1 <= control.n <= Min(MaxPageButtons, p.pages))
    ensures control.PageNumber? && target.Some? ==> target.value == control.n
  {
    match ControlsFor(p)
    case NoControls => None
    case ControlBar(previousDisabled, buttons, nextDisabled) =>
      match control
      case Previous => if previousDisabled then None else Some(p.page - 1)
      case Next => if nextDisabled then None else Some(p.page + 1)
      case PageNumber(n) => if 1 <= n <= |buttons| then Some(n) else None
  }

  /** From a page within range, every enabled control leads to a page within
      range. */
  lemma PressStaysInRange(p: Pagination, control: Control)
    requires 1 <= p.page <= p.pages
    ensures Press(p, control).Some? ==> 1 <= Press(p, control).value <= p.pages
  {
  }

  /** The guard `page === pages` does not stop "Próxima" once the page is
      already past the last one (a filter change shrinks `pages` without
      resetting `page`). */
  lemma NextPastLastPage(p: Pagination)
    requires p.pages > 1 && p.page > p.pages
    ensures Press(p, Next) == Some(p.page + 1)
    ensures Press(p, Next).value > p.pages
  {
  }

  class CoursesPage {
    var courses: seq<Course>
    var loading: bool
    var searchTerm: string
    var selectedCategory: string
    var selectedLevel: string
    var pagination: Pagination
    const api: ApiClient

    constructor (api: ApiClient)
      ensures courses == [] && loading && searchTerm == ""
      ensures selectedCategory == AllFilter && selectedLevel == AllFilter
      ensures pagination == Pagination(1, PageSize, 0, 0) && this.api == api
    {
      courses := [];
      loading := true;
      searchTerm := "";
      selectedCategory := AllFilter;
      selectedLevel := AllFilter;
      pagination := Pagination(1, PageSize, 0, 0);
      this.api := api;
    }

    /** The `searchParams` effect: a non-empty `category` or `level` in the
        URL selects that filter. */
    method ApplySearchParams(category: Option<string>, level: Option<string>)
      modifies this
      ensures selectedCategory == if Truthy(category) then category.value else old(selectedCategory)
      ensures selectedLevel == if Truthy(level) then level.value else old(selectedLevel)
      ensures courses == old(courses) && loading == old(loading) && searchTerm == old(searchTerm)
      ensures pagination == old(pagination)
    {
      if Truthy(category) {
        selectedCategory := category.value;
      }
      if Truthy(level) {
        selectedLevel := level.value;
      }
    }

    /** `loadCourses`: sends the query for the current filters and page; on
        success takes the courses and the response's `total` and `pages`,
        keeping `page` and `limit`; on failure keeps everything; loading is
        over on every path. The search term is never sent. */
    method LoadCourses(response: Result<CoursesResponse, ApiError>) returns (q: CourseQuery)
      modifies this, api.store, api.location
      ensures QueryFollowsFilters(q, old(pagination), old(selectedCategory), old(selectedLevel))
      ensures !loading
      ensures searchTerm == old(searchTerm) && selectedCategory == old(selectedCategory) && selectedLevel == old(selectedLevel)
      ensures response.Ok? ==>
        courses == response.value.courses
        && pagination == old(pagination).(total := response.value.total, pages := response.value.pages)
      ensures response.Err? ==> courses == old(courses) && pagination == old(pagination)
      ensures api.store.items == StorageAfter(old(api.store.items), response)
      ensures api.location.href == HrefAfter(old(api.location.href), response)
    {
      loading := true;
      q := BuildQuery(pagination, selectedCategory, selectedLevel);
      var answer := api.OnResponse(response);
      if answer.Ok? {
        courses := answer.value.courses;
        pagination := pagination.(total := answer.value.total, pages := answer.value.pages);
      }
      loading := false;
    }

    /** `handleSearch`: reloads with the same query; the search term is
        typed but not sent. */
    method HandleSearch(response: Result<CoursesResponse, ApiError>) returns (q: CourseQuery)
      modifies this, api.store, api.location
      ensures QueryFollowsFilters(q, old(pagination), old(selectedCategory), old(selectedLevel))
      ensures !loading
      ensures searchTerm == old(searchTerm) && selectedCategory == old(selectedCategory) && selectedLevel == old(selectedLevel)
      ensures response.Ok? ==>
        courses == response.value.courses
        && pagination == old(pagination).(total := response.value.total, pages := response.value.pages)
      ensures response.Err? ==> courses == old(courses) && pagination == old(pagination)
      ensures api.store.items == StorageAfter(old(api.store.items), response)
      ensures api.location.href == HrefAfter(old(api.location.href), response)
    {
      q := LoadCourses(response);
    }

    /** `handlePageChange(n)`: only `page` changes. */
    method HandlePageChange(newPage: int)
      modifies this
      ensures pagination == old(pagination).(page := newPage)
      ensures courses == old(courses) && loading == old(loading) && searchTerm == old(searchTerm)
      ensures selectedCategory == old(selectedCategory) && selectedLevel == old(selectedLevel)
    {
      pagination := pagination.(page := newPage);
    }

    /** "Limpar Filtros": both filters back to "all", an empty search, page 1;
        `limit`, `total` and `pages` are kept. */
    method ClearFilters()
      modifies this
      ensures selectedCategory == AllFilter && selectedLevel == AllFilter && searchTerm == ""
      ensures pagination == old(pagination).(page := 1)
      ensures courses == old(courses) && loading == old(loading)
    {
      selectedCategory := AllFilter;
      selectedLevel := AllFilter;
      searchTerm := "";
      pagination := pagination.(page := 1);
    }
  }
}
