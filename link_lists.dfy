/**
 * The link lists of the front end: LinksList.tsx (filter by topic and
 * uploader, sort by a column, ten rows per page), ViewLinks.tsx (the same
 * filters, sort by date, topic or uploader, six cards per page),
 * AdminDashboard.tsx (search plus a status tab) and DashboardPage.tsx
 * (search on title and description).
 *
 * One `Link` record carries the fields any of these components reads.
 * String comparisons and `localeCompare` are given as a ranking `rank` of
 * the strings; `createdAt` is the parsed date in milliseconds.
 */
module LinkLists {
  import opened Text
  import opened Lists

  datatype Link = Link(id: int, url: string, title: string, topic: string, description: string,
                       uploader: string, status: string, dateUploaded: string, createdAt: int)

  /** A case-insensitive substring test that an empty filter always passes. */
  predicate Matches(filter: string, field: string) {
    filter == [] || Contains(Lower(field), Lower(filter))
  }

  /** The empty filter is no filter at all, and it is the only filter that
      every field passes regardless of its text. */
  lemma MatchesEmpty(field: string)
    ensures Matches("", field)
    ensures Matches(field, field)
  {
    ContainsSelf(Lower(field));
  }

  predicate TopicAndUploaderMatch(topic: string, uploader: string, l: Link) {
    Matches(topic, l.topic) && Matches(uploader, l.uploader)
  }

  /** The links both filters let through, in their original order. */
  function FilterLinks(links: seq<Link>, topic: string, uploader: string): (r: seq<Link>)
    ensures forall l :: l in r <==> l in links && Matches(topic, l.topic) && Matches(uploader, l.uploader)
    ensures topic == [] && uploader == [] ==> r == links
  {
    var r := Filter(links, l => TopicAndUploaderMatch(topic, uploader, l));
    if topic == [] && uploader == [] then
      FilterAll(links, l => TopicAndUploaderMatch(topic, uploader, l));
      r
    else r
  }

  /** The filtered list is an order-preserving sub-list of the input that
      keeps every matching link as often as it occurs. */
  lemma FilterLinksSubsequence(links: seq<Link>, topic: string, uploader: string, l: Link)
    ensures IsSubsequence(FilterLinks(links, topic, uploader), links)
    ensures TopicAndUploaderMatch(topic, uploader, l) ==>
      multiset(FilterLinks(links, topic, uploader))[l] == multiset(links)[l]
  {
    FilterIsSubsequence(links, x => TopicAndUploaderMatch(topic, uploader, x));
    FilterCounts(links, x => TopicAndUploaderMatch(topic, uploader, x), l);
  }

  // ---------------------------------------------------------------------
  // LinksList.tsx

  datatype Field = Id | Url | Topic | Description | Uploader | DateUploaded

  /** The sort key of a column: the number itself for `id`, the string's
      rank for the text columns. */
  function ColumnKey(l: Link, field: Field, rank: string -> int): int {
    match field
    case Id => l.id
    case Url => rank(l.url)
    case Topic => rank(l.topic)
    case Description => rank(l.description)
    case Uploader => rank(l.uploader)
    case DateUploaded => rank(l.dateUploaded)
  }

  /** The column's key as a function of the link. */
  function ColumnOrder(field: Field, rank: string -> int): Link -> int {
    l => ColumnKey(l, field, rank)
  }

  const RowsPerPage := 10

  /** `handleSort`: the current column flips direction; another column is
      sorted ascending. */
  function SortAfterClick(field: Field, dir: Direction, clicked: Field): (r: (Field, Direction))
    ensures r.0 == clicked
    ensures clicked == field ==> r.1 == Flip(dir)
    ensures clicked != field ==> r.1 == Asc
  {
    if clicked == field then (field, Flip(dir)) else (clicked, Asc)
  }

  /** Clicking the same column twice restores the direction. */
  lemma SortClickTwice(field: Field, dir: Direction, clicked: Field)
    ensures var once := SortAfterClick(field, dir, clicked);
      SortAfterClick(once.0, once.1, clicked) == (clicked, if clicked == field then dir else Desc)
  {
  }

  /** The Next button as written: `Math.min(totalPages, p + 1)`. */
  function NextPageAsWritten(page: int, totalPages: nat): int {
    if page + 1 < totalPages then page + 1 else totalPages
  }

  /** The "Showing a to b of n results" line. */
  function ShowingRange(page: int, n: nat): (range: (int, int))
    ensures 1 <= page <= PageCount(n, RowsPerPage) ==> 1 <= range.0 <= range.1 <= n
  {
    var start := (page - 1) * RowsPerPage;
    (start + 1, if start + RowsPerPage < n then start + RowsPerPage else n)
  }

  /** With no matching rows there are no pages, the Next button (enabled
      because page 1 is not page 0) moves to page 0, and page 0 shows rows
      "-9 to 0". */
  lemma NextPageAsWrittenReachesPageZero(rows: seq<Link>)
    requires rows == []
    ensures PageCount(|rows|, RowsPerPage) == 0
    ensures 1 != PageCount(|rows|, RowsPerPage)
    ensures NextPageAsWritten(1, PageCount(|rows|, RowsPerPage)) == 0
    ensures ShowingRange(NextPageAsWritten(1, PageCount(|rows|, RowsPerPage)), |rows|) == (-9, 0)
  {
  }

  /** The Next button as intended: one page on, but never past the last
      page and never below page 1. */
  function NextPage(page: int, totalPages: nat): (p: int)
    ensures p >= 1
    ensures 1 <= page < totalPages ==> p == page + 1
    ensures 1 <= page <= totalPages ==> p <= totalPages
  {
    var q := NextPageAsWritten(page, totalPages);
    if q < 1 then 1 else q
  }

  /** The Prev button: `Math.max(1, p - 1)`. */
  function PreviousPage(page: int): (p: int)
    ensures p >= 1
    ensures page > 1 ==> p == page - 1
  {
    if page - 1 < 1 then 1 else page - 1
  }

  /** The last page a button may show: page 1 stands even when there are
      no pages at all. */
  function LastPage(totalPages: nat): nat {
    if totalPages == 0 then 1 else totalPages
  }

  /** Both buttons keep a page in 1..LastPage in that range; in particular,
      with no pages the corrected Next stays on page 1 where the written one
      leaves it for page 0. */
  lemma PageButtonsStayInRange(page: int, totalPages: nat)
    requires 1 <= page <= LastPage(totalPages)
    ensures 1 <= NextPage(page, totalPages) <= LastPage(totalPages)
    ensures 1 <= PreviousPage(page) <= LastPage(totalPages)
    ensures totalPages == 0 ==> NextPage(page, totalPages) == 1 && NextPageAsWritten(page, totalPages) == 0
  {
  }

  /** The state of the LinksList component. */
  class LinksList {
    const links: seq<Link>
    const rank: string -> int
    var currentPage: int
    var sortField: Field
    var sortDirection: Direction
    var filterTopic: string
    var filterUploader: string

    ghost predicate Valid()
      reads this
    {
      currentPage >= 1
    }

    constructor(links: seq<Link>, rank: string -> int)
      ensures Valid() && this.links == links && this.rank == rank
      ensures currentPage == 1 && sortField == DateUploaded && sortDirection == Desc
      ensures filterTopic == "" && filterUploader == ""
    {
      this.links := links;
      this.rank := rank;
      currentPage := 1;
      sortField := DateUploaded;
      sortDirection := Desc;
      filterTopic := "";
      filterUploader := "";
    }

    function Filtered(): seq<Link>
      reads this
    {
      FilterLinks(links, filterTopic, filterUploader)
    }

    /** `[...filteredLinks].sort(...)`: a sorted copy. */
    function Sorted(): seq<Link>
      reads this
    {
      SortBy(Filtered(), ColumnOrder(sortField, rank), sortDirection)
    }

    function TotalPages(): nat
      reads this
    {
      PageCount(|Sorted()|, RowsPerPage)
    }

    function Paginated(): seq<Link>
      reads this
    {
      Page(Sorted(), currentPage, RowsPerPage)
    }

    method HandleSort(clicked: Field)
      modifies this
      ensures (sortField, sortDirection) == SortAfterClick(old(sortField), old(sortDirection), clicked)
      ensures currentPage == old(currentPage) && filterTopic == old(filterTopic) && filterUploader == old(filterUploader)
    {
      if clicked == sortField {
        sortDirection := Flip(sortDirection);
      } else {
        sortField := clicked;
        sortDirection := Asc;
      }
    }

    method SetFilterTopic(value: string)
      modifies this
      ensures filterTopic == value && filterUploader == old(filterUploader)
      ensures currentPage == old(currentPage) && sortField == old(sortField) && sortDirection == old(sortDirection)
    {
      filterTopic := value;
    }

    method SetFilterUploader(value: string)
      modifies this
      ensures filterUploader == value && filterTopic == old(filterTopic)
      ensures currentPage == old(currentPage) && sortField == old(sortField) && sortDirection == old(sortDirection)
    {
      filterUploader := value;
    }

    method Previous()
      requires Valid()
      modifies this
      ensures Valid() && currentPage == PreviousPage(old(currentPage))
      ensures sortField == old(sortField) && sortDirection == old(sortDirection)
      ensures filterTopic == old(filterTopic) && filterUploader == old(filterUploader)
    {
      currentPage := PreviousPage(currentPage);
    }

    method Next()
      requires Valid()
      modifies this
      ensures Valid() && currentPage == NextPage(old(currentPage), old(TotalPages()))
      ensures sortField == old(sortField) && sortDirection == old(sortDirection)
      ensures filterTopic == old(filterTopic) && filterUploader == old(filterUploader)
    {
      currentPage := NextPage(currentPage, TotalPages());
    }
  }

  /** What the table shows: a sorted permutation of the matching links, at
      most ten of them, taken from the right place. */
  lemma LinksListShowsSortedMatches(list: LinksList)
    ensures multiset(list.Sorted()) == multiset(list.Filtered())
    ensures SortedBy(list.Sorted(), ColumnOrder(list.sortField, list.rank), list.sortDirection)
    ensures list.currentPage >= 1 ==> |list.Paginated()| <= RowsPerPage
    ensures forall l :: l in list.Paginated() ==>
      (l in list.links && Matches(list.filterTopic, l.topic) && Matches(list.filterUploader, l.uploader))
  {
    var s := list.Sorted();
    forall l | l in list.Paginated() ensures l in list.Filtered() {
      var page := list.Paginated();
      var i :| 0 <= i < |page| && page[i] == l;
      assert l in multiset(s);
    }
  }

  /** When the rows have distinct keys in the sorted column, the order on
      screen is fully determined: any sorted rearrangement of the matching
      rows is the one shown. */
  lemma LinksListOrderFixedByDistinctKeys(list: LinksList, other: seq<Link>)
    requires multiset(other) == multiset(list.Filtered())
    requires SortedBy(other, ColumnOrder(list.sortField, list.rank), list.sortDirection)
    requires DistinctKeys(other, ColumnOrder(list.sortField, list.rank))
    ensures other == list.Sorted()
  {
    LinksListShowsSortedMatches(list);
    SortedPermutationUnique(other, list.Sorted(), ColumnOrder(list.sortField, list.rank), list.sortDirection);
  }

  // ---------------------------------------------------------------------
  // ViewLinks.tsx

  datatype SortOption = ByDate | ByTopic | ByUploader

  /** The comparator's key: the creation time, or the collation rank of the
      topic or the uploader. */
  function OptionKey(l: Link, option: SortOption, collate: string -> int): int {
    match option
    case ByDate => l.createdAt
    case ByTopic => collate(l.topic)
    case ByUploader => collate(l.uploader)
  }

  function OptionOrder(option: SortOption, collate: string -> int): Link -> int {
    l => OptionKey(l, option, collate)
  }

  const CardsPerPage := 6

  /** `handleSortChange`: the current option flips direction; another option
      is sorted newest or highest first. */
  function SortAfterChange(option: SortOption, dir: Direction, chosen: SortOption): (r: (SortOption, Direction))
    ensures r.0 == chosen
    ensures chosen == option ==> r.1 == Flip(dir)
    ensures chosen != option ==> r.1 == Desc
  {
    if chosen == option then (option, Flip(dir)) else (chosen, Desc)
  }

  /** The result of the filter-and-sort effect. */
  function Arranged(links: seq<Link>, topic: string, uploader: string, option: SortOption,
                    dir: Direction, collate: string -> int): seq<Link>
  {
    SortBy(FilterLinks(links, topic, uploader), OptionOrder(option, collate), dir)
  }

  /** The arranged list is a sorted permutation of the matching links, and
      links with equal keys keep their fetched order. */
  lemma ArrangedIsSortedPermutation(links: seq<Link>, topic: string, uploader: string, option: SortOption,
                                    dir: Direction, collate: string -> int, k: int)
    ensures var r := Arranged(links, topic, uploader, option, dir, collate);
      multiset(r) == multiset(FilterLinks(links, topic, uploader)) &&
      SortedBy(r, OptionOrder(option, collate), dir) &&
      WithKey(r, OptionOrder(option, collate), k)
        == WithKey(FilterLinks(links, topic, uploader), OptionOrder(option, collate), k)
  {
    SortByIsStable(FilterLinks(links, topic, uploader), OptionOrder(option, collate), dir, k);
  }

  datatype FilterKind = TopicFilter | UploaderFilter

  /** The state of the ViewLinks page. */
  class ViewLinks {
    const collate: string -> int
    var links: seq<Link>
    var filteredLinks: seq<Link>
    var currentPage: int
    var sortBy: SortOption
    var sortDirection: Direction
    var filterTopic: string
    var filterUploader: string

    constructor(collate: string -> int)
      ensures this.collate == collate && links == [] && filteredLinks == [] && currentPage == 1
      ensures sortBy == ByDate && sortDirection == Desc && filterTopic == "" && filterUploader == ""
    {
      this.collate := collate;
      links := [];
      filteredLinks := [];
      currentPage := 1;
      sortBy := ByDate;
      sortDirection := Desc;
      filterTopic := "";
      filterUploader := "";
    }

    /** The effect: filter by topic if set, then by uploader if set, then sort
        the result in place, and go back to the first page. */
    method ApplyFiltersAndSort()
      modifies this
      ensures filteredLinks == Arranged(links, filterTopic, filterUploader, sortBy, sortDirection, collate)
      ensures currentPage == 1
      ensures links == old(links) && sortBy == old(sortBy) && sortDirection == old(sortDirection)
      ensures filterTopic == old(filterTopic) && filterUploader == old(filterUploader)
    {
      var topic, uploader := filterTopic, filterUploader;
      var byTopic := (l: Link) => Matches(topic, l.topic);
      var byUploader := (l: Link) => Matches(uploader, l.uploader);
      var both := (l: Link) => TopicAndUploaderMatch(topic, uploader, l);
      var result := links;
      if topic != [] {
        result := Filter(result, byTopic);
      } else {
        FilterAll(links, byTopic);
      }
      assert result == Filter(links, byTopic);
      if uploader != [] {
        result := Filter(result, byUploader);
      } else {
        FilterAll(result, byUploader);
      }
      FilterFilter(links, byTopic, byUploader, both);
      assert result == FilterLinks(links, topic, uploader);
      result := SortBy(result, OptionOrder(sortBy, collate), sortDirection);
      filteredLinks := result;
      currentPage := 1;
    }

    /** The fetch on mount: both lists take the fetched links, and the new
        `links` re-runs the filter-and-sort effect. */
    method Loaded(data: seq<Link>)
      modifies this
      ensures links == data && currentPage == 1
      ensures filteredLinks == Arranged(data, filterTopic, filterUploader, sortBy, sortDirection, collate)
      ensures sortBy == old(sortBy) && sortDirection == old(sortDirection)
      ensures filterTopic == old(filterTopic) && filterUploader == old(filterUploader)
    {
      links := data;
      filteredLinks := data;
      ApplyFiltersAndSort();
    }

    /** `handleSortChange`; the changed sort state re-runs the effect. */
    method HandleSortChange(chosen: SortOption)
      modifies this
      ensures (sortBy, sortDirection) == SortAfterChange(old(sortBy), old(sortDirection), chosen)
      ensures filterTopic == old(filterTopic) && filterUploader == old(filterUploader) && links == old(links)
      ensures filteredLinks == Arranged(links, filterTopic, filterUploader, sortBy, sortDirection, collate)
      ensures currentPage == 1
    {
      if sortBy == chosen {
        sortDirection := Flip(sortDirection);
      } else {
        sortBy := chosen;
        sortDirection := Desc;
      }
      ApplyFiltersAndSort();
    }

    /** `handleFilterChange`: only the named filter changes; the effect runs
        again when its value actually changed. */
    method HandleFilterChange(kind: FilterKind, value: string)
      modifies this
      ensures kind == TopicFilter ==> filterTopic == value && filterUploader == old(filterUploader)
      ensures kind == UploaderFilter ==> filterUploader == value && filterTopic == old(filterTopic)
      ensures sortBy == old(sortBy) && sortDirection == old(sortDirection) && links == old(links)
      ensures (kind == TopicFilter && value != old(filterTopic)) || (kind == UploaderFilter && value != old(filterUploader))
        ==> filteredLinks == Arranged(links, filterTopic, filterUploader, sortBy, sortDirection, collate)
            && currentPage == 1
      ensures (kind == TopicFilter && value == old(filterTopic)) || (kind == UploaderFilter && value == old(filterUploader))
        ==> filteredLinks == old(filteredLinks) && currentPage == old(currentPage)
    {
      var changed := false;
      if kind == TopicFilter {
        changed := value != filterTopic;
        filterTopic := value;
      } else {
        changed := value != filterUploader;
        filterUploader := value;
      }
      if changed {
        ApplyFiltersAndSort();
      }
    }

    /** `handlePageChange`. */
    method HandlePageChange(page: int)
      modifies this
      ensures currentPage == page && filteredLinks == old(filteredLinks)
      ensures links == old(links) && sortBy == old(sortBy) && sortDirection == old(sortDirection)
      ensures filterTopic == old(filterTopic) && filterUploader == old(filterUploader)
    {
      currentPage := page;
    }

    function CurrentLinks(): seq<Link>
      reads this
    {
      Page(filteredLinks, currentPage, CardsPerPage)
    }

    function TotalPages(): nat
      reads this
    {
      PageCount(|filteredLinks|, CardsPerPage)
    }
  }

  // ---------------------------------------------------------------------
  // AdminDashboard.tsx and DashboardPage.tsx

  /** The admin search: title, topic or uploader contains the query. */
  predicate AdminSearchHit(query: string, l: Link) {
    Contains(Lower(l.title), Lower(query)) || Contains(Lower(l.topic), Lower(query))
    || Contains(Lower(l.uploader), Lower(query))
  }

  /** The admin tab: "active" and "inactive" select that status; any other
      tab shows every status. */
  predicate TabHit(tab: string, l: Link) {
    (tab == "active" ==> l.status == "active") && (tab == "inactive" ==> l.status == "inactive")
  }

  predicate AdminHit(query: string, tab: string, l: Link) {
    (query == [] || AdminSearchHit(query, l)) && TabHit(tab, l)
  }

  /** The admin dashboard's effect: start from all links, narrow by the
      search when there is one, then by the tab. */
  method AdminFilter(sample: seq<Link>, query: string, tab: string) returns (results: seq<Link>)
    ensures results == Filter(sample, l => AdminHit(query, tab, l))
    ensures forall l :: l in results <==> l in sample && AdminHit(query, tab, l)
  {
    var bySearch := (l: Link) => query == [] || AdminSearchHit(query, l);
    var byTab := (l: Link) => TabHit(tab, l);
    results := sample;
    if query != [] {
      results := Filter(results, bySearch);
    } else {
      FilterAll(sample, bySearch);
    }
    if tab == "active" {
      results := Filter(results, (l: Link) => l.status == "active");
      FilterFilter(sample, bySearch, (l: Link) => l.status == "active", l => AdminHit(query, tab, l));
    } else if tab == "inactive" {
      results := Filter(results, (l: Link) => l.status == "inactive");
      FilterFilter(sample, bySearch, (l: Link) => l.status == "inactive", l => AdminHit(query, tab, l));
    } else {
      FilterAll(results, byTab);
      FilterFilter(sample, bySearch, byTab, l => AdminHit(query, tab, l));
    }
  }

  predicate DashboardHit(query: string, l: Link) {
    Contains(Lower(l.title), Lower(query)) || Contains(Lower(l.description), Lower(query))
  }

  /** The dashboard search: title or description contains the query, and an
      empty query shows every link. */
  function DashboardSearch(links: seq<Link>, query: string): (r: seq<Link>)
    ensures query == [] ==> r == links
    ensures forall l :: l in r <==> (l in links && (query == [] || DashboardHit(query, l)))
  {
    if query != [] then Filter(links, (l: Link) => DashboardHit(query, l)) else links
  }

  /** The search result is an order-preserving sub-list that keeps every
      matching link as often as it occurs. */
  lemma DashboardSearchKeepsMatches(links: seq<Link>, query: string, l: Link)
    ensures IsSubsequence(DashboardSearch(links, query), links)
    ensures query == [] || DashboardHit(query, l) ==> multiset(DashboardSearch(links, query))[l] == multiset(links)[l]
  {
    var p := (x: Link) => DashboardHit(query, x);
    if query != [] {
      FilterIsSubsequence(links, p);
      FilterCounts(links, p, l);
    } else {
      FilterIsSubsequence(links, x => true);
      FilterAll(links, x => true);
    }
  }
}
