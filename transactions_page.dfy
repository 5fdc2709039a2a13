/**
 * The transaction list page: the sort toggle, the query sent to fetch a
 * page, the "Showing a to b of n" range, the previous/next rules and which
 * of spinner, empty state, table and page controls is shown.
 */
module TransactionsPage {

  import opened Wrappers
  import opened Host

  /** Pagination metadata as the backend returns it. */
  datatype Pagination = Pagination(page: int, limit: int, total: int, totalPages: int)

  /** The sort state: a field name and `'asc'` or `'desc'`. */
  datatype Sort = Sort(sortBy: string, sortOrder: string)

  const INITIAL_SORT: Sort := Sort("date", "desc")

  predicate ValidOrder(o: string) { o == "asc" || o == "desc" }

  /** `handleSort(field)`: the same field flips the order, a new field starts descending. */
  function SortAfter(s: Sort, field: string): Sort {
    if s.sortBy == field then s.(sortOrder := if s.sortOrder == "asc" then "desc" else "asc")
    else Sort(field, "desc")
  }

  lemma AscIsNotDesc()
    ensures "asc" != "desc"
  {
    assert "asc"[0] != "desc"[0];
  }

  /** Sorting by the current field keeps the field and swaps `'asc'` and `'desc'`. */
  lemma SortSameField(s: Sort)
    requires ValidOrder(s.sortOrder)
    ensures SortAfter(s, s.sortBy).sortBy == s.sortBy
    ensures ValidOrder(SortAfter(s, s.sortBy).sortOrder)
    ensures SortAfter(s, s.sortBy).sortOrder != s.sortOrder
  {
    AscIsNotDesc();
  }

  /** Sorting by another field selects it in descending order. */
  lemma SortOtherField(s: Sort, field: string)
    requires field != s.sortBy
    ensures SortAfter(s, field) == Sort(field, "desc")
  {
  }

  /**
   * Two sorts by the current field restore the state; two sorts by another
   * field end on that field ascending.
   */
  lemma SortTwice(s: Sort, field: string)
    requires ValidOrder(s.sortOrder)
    ensures s.sortBy == field ==> SortAfter(SortAfter(s, field), field) == s
    ensures s.sortBy != field ==> SortAfter(SortAfter(s, field), field) == Sort(field, "asc")
  {
    AscIsNotDesc();
  }

  /** The fetch query `{page, limit, ...filters, sortBy, sortOrder}`: later keys override earlier ones. */
  function FetchQuery(page: int, limit: int, filters: map<string, Value>, s: Sort): (q: map<string, Value>)
    ensures q.Keys == filters.Keys + {"page", "limit", "sortBy", "sortOrder"}
    ensures q["sortBy"] == Str(s.sortBy) && q["sortOrder"] == Str(s.sortOrder)
    ensures "page" !in filters ==> q["page"] == Num(page)
    ensures "limit" !in filters ==> q["limit"] == Num(limit)
    ensures forall k :: k in filters && k != "sortBy" && k != "sortOrder" ==> q[k] == filters[k]
  {
    map["page" := Num(page), "limit" := Num(limit)] + filters
      + map["sortBy" := Str(s.sortBy), "sortOrder" := Str(s.sortOrder)]
  }

  /**
   * A page change sends the current query with only `page` replaced (a
   * filter named `page` would override both).
   */
  lemma PageChangeReplacesOnlyPage(p: Pagination, filters: map<string, Value>, s: Sort, page: int)
    ensures FetchQuery(page, p.limit, filters, s)
      == if "page" in filters then FetchQuery(p.page, p.limit, filters, s)
         else FetchQuery(p.page, p.limit, filters, s)["page" := Num(page)]
  {
    var a := FetchQuery(page, p.limit, filters, s);
    var c := FetchQuery(p.page, p.limit, filters, s);
    assert "page" != "sortBy" && "page" != "sortOrder" by {
      assert "page"[0] != "sortBy"[0];
      assert "page"[0] != "sortOrder"[0];
    }
    if "page" in filters {
      assert a.Keys == c.Keys;
      assert forall k :: k in a ==> a[k] == c[k];
    } else {
      var c' := c["page" := Num(page)];
      assert a.Keys == c'.Keys;
      assert forall k :: k in a ==> a[k] == c'[k];
    }
  }

  /** A filter edit: `setFilters({[key]: value})`, a patch with exactly one key. */
  function FilterPatch(key: string, value: string): (patch: map<string, Value>)
    ensures patch.Keys == {key} && patch[key] == Str(value)
  {
    map[key := Str(value)]
  }

  /** `ceil(total / limit)` for a positive limit: the fewest pages of `limit` items that hold `total` items. */
  function PageCount(total: nat, limit: int): (n: nat)
    requires limit >= 1
    ensures total <= n * limit < total + limit
  {
    var q := (total + limit - 1) / limit;
    assert total + limit - 1 == q * limit + (total + limit - 1) % limit;
    q
  }

  /** The first and last item numbers of "Showing a to b of n". */
  function ShownFrom(p: Pagination): int { (p.page - 1) * p.limit + 1 }

  function ShownTo(p: Pagination): int {
    if p.page * p.limit < p.total then p.page * p.limit else p.total
  }

  /**
   * For a page within the page count, the range is non-empty, within the
   * total, at most one page long, and the last page ends at the total.
   */
  lemma {:induction false} ShownRangeBounds(p: Pagination)
    requires p.limit >= 1 && p.total >= 0 && p.totalPages == PageCount(p.total, p.limit)
    requires 1 <= p.page <= p.totalPages
    ensures 1 <= ShownFrom(p) <= ShownTo(p) <= p.total
    ensures ShownTo(p) - ShownFrom(p) + 1 <= p.limit
    ensures p.page == p.totalPages ==> ShownTo(p) == p.total
  {
    var q := (p.total + p.limit - 1) / p.limit;
    var r := (p.total + p.limit - 1) % p.limit;
    assert p.total + p.limit - 1 == q * p.limit + r && 0 <= r < p.limit;
    assert p.page * p.limit <= q * p.limit by {
      MulMonotone(p.page, q, p.limit);
    }
    assert (p.page - 1) * p.limit == p.page * p.limit - p.limit;
    assert p.page * p.limit >= p.limit by { MulMonotone(1, p.page, p.limit); }
    if p.page == p.totalPages {
      assert p.page * p.limit >= p.total;
    }
  }

  lemma MulMonotone(a: int, b: int, c: int)
    requires a <= b && c >= 0
    ensures a * c <= b * c
  {
  }

  /** `disabled` of the previous and the next button. */
  predicate PrevDisabled(p: Pagination) { p.page == 1 }

  predicate NextDisabled(p: Pagination) { p.page == p.totalPages }

  /** On a page within range, each button is enabled exactly when the page it requests is within range. */
  lemma ButtonsStayInRange(p: Pagination)
    requires 1 <= p.page <= p.totalPages
    ensures !PrevDisabled(p) <==> 1 <= p.page - 1 <= p.totalPages
    ensures !NextDisabled(p) <==> 1 <= p.page + 1 <= p.totalPages
  {
  }

  /** What the page shows. */
  datatype View = FullSpinner | EmptyState | Table(controls: bool)

  /** The full-page spinner while loading an empty list; the page controls only under a table of more than one page. */
  function ViewFor(loading: bool, count: nat, totalPages: int): (v: View)
    ensures v == FullSpinner <==> loading && count == 0
    ensures v == EmptyState <==> !loading && count == 0
    ensures v.Table? <==> count > 0
    ensures v.Table? ==> (v.controls <==> totalPages > 1)
  {
    if loading && count == 0 then FullSpinner
    else if count == 0 then EmptyState
    else Table(totalPages > 1)
  }

  /** The page's own state: the sort and whether the filter panel is open. */
  const TX_DELETED: string := "Transaction deleted successfully"
  const TX_DELETE_FAILED: string := "Failed to delete transaction"

  class TransactionsView {
    var sortBy: string
    var sortOrder: string
    var showFilters: bool

    ghost predicate Valid()
      reads this
    {
      ValidOrder(sortOrder)
    }

    function CurrentSort(): Sort
      reads this
    {
      Sort(sortBy, sortOrder)
    }

    constructor ()
      ensures CurrentSort() == INITIAL_SORT && !showFilters && Valid()
    {
      sortBy := "date";
      sortOrder := "desc";
      showFilters := false;
    }

    method HandleSort(field: string)
      requires Valid()
      modifies this
      ensures CurrentSort() == SortAfter(old(CurrentSort()), field)
      ensures showFilters == old(showFilters)
      ensures Valid()
    {
      if sortBy == field {
        sortOrder := if sortOrder == "asc" then "desc" else "asc";
      } else {
        sortBy := field;
        sortOrder := "desc";
      }
    }

    /** The Filters button. */
    method ToggleFilters()
      modifies this
      ensures showFilters == !old(showFilters)
      ensures CurrentSort() == old(CurrentSort())
    {
      showFilters := !showFilters;
    }

    /** The fetch effect, run when the page, limit, filters or sort change. */
    method FetchCurrent(b: Browser, p: Pagination, filters: map<string, Value>)
      modifies b
      ensures b.trace == old(b.trace) + [Call(FetchTransactions(FetchQuery(p.page, p.limit, filters, CurrentSort())))]
      ensures b.storage == old(b.storage) && b.darkClass == old(b.darkClass) && b.pathname == old(b.pathname)
    {
      b.Emit(Call(FetchTransactions(FetchQuery(p.page, p.limit, filters, CurrentSort()))));
    }

    /** `handlePageChange(page)`: fetch that page with everything else as it is. */
    method HandlePageChange(b: Browser, p: Pagination, filters: map<string, Value>, page: int)
      modifies b
      ensures b.trace == old(b.trace) + [Call(FetchTransactions(FetchQuery(page, p.limit, filters, CurrentSort())))]
      ensures b.storage == old(b.storage) && b.darkClass == old(b.darkClass) && b.pathname == old(b.pathname)
    {
      b.Emit(Call(FetchTransactions(FetchQuery(page, p.limit, filters, CurrentSort()))));
    }

    /** `handleFilterChange(key, value)` */
    method HandleFilterChange(b: Browser, key: string, value: string)
      modifies b
      ensures b.trace == old(b.trace) + [SetFilters(FilterPatch(key, value))]
      ensures b.storage == old(b.storage) && b.darkClass == old(b.darkClass) && b.pathname == old(b.pathname)
    {
      b.Emit(SetFilters(FilterPatch(key, value)));
    }

    /** `handleClearFilters` */
    method HandleClearFilters(b: Browser)
      modifies b
      ensures b.trace == old(b.trace) + [ClearFilters]
      ensures b.storage == old(b.storage) && b.darkClass == old(b.darkClass) && b.pathname == old(b.pathname)
    {
      b.Emit(ClearFilters);
    }

    /**
     * `handleDelete(id)`: the delete request is sent only when the user
     * confirms (`confirmed`); the notice says whether the backend deleted it.
     */
    method HandleDelete(b: Browser, id: string, confirmed: bool, deleted: bool) returns (notice: Option<string>)
      modifies b
      ensures b.trace == old(b.trace) + (if confirmed then [Call(DeleteTransaction(id))] else [])
      ensures notice == if confirmed then Some(if deleted then TX_DELETED else TX_DELETE_FAILED) else None
      ensures b.storage == old(b.storage) && b.darkClass == old(b.darkClass) && b.pathname == old(b.pathname)
    {
      notice := None;
      if confirmed {
        b.Emit(Call(DeleteTransaction(id)));
        notice := Some(if deleted then TX_DELETED else TX_DELETE_FAILED);
      }
    }
  }
}
