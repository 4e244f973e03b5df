/**
 * The dashboard's server-paged product list: the page, page size and search
 * text it keeps, the `/api/pwo` request it sends for them, how it takes in the
 * answer or the failure, and its sign-in check.
 */
module DashboardPage {
  import opened Wrappers
  import Numbers
  import Paging
  import Access
  import ProductQuery

  const DefaultItemsPerPage := 5
  const UnknownError := "An unknown error occurred"
  const HttpErrorPrefix := "HTTP error! status: "

  /** The page sizes the "Show" select offers. */
  predicate PerPageOption(n: int) {
    n == 5 || n == 10 || n == 20 || n == 50
  }

  /** How one request ended: a 2xx body, a non-2xx answer with the body's `message`, or a thrown fetch error. */
  datatype FetchOutcome =
    | Success(data: seq<ProductQuery.ProductRow>, totalCount: nat)
    | HttpError(status: int, message: Option<string>)
    | NetworkError(message: Option<string>)

  /**
   * The query string `limit=${itemsPerPage}&offset=${(currentPage - 1) * itemsPerPage}&search=...`
   * as the handler reads it back (the URI encoding of the search text undone).
   */
  function Request(currentPage: int, itemsPerPage: int, searchQuery: string): (r: ProductQuery.QueryParams)
    ensures r.limit.Some? && r.offset.Some? && r.search == Some(searchQuery)
    ensures r.limit.value != "" && r.offset.value != ""
  {
    ProductQuery.QueryParams(
      Some(Numbers.IntToString(itemsPerPage)),
      Some(Numbers.IntToString((currentPage - 1) * itemsPerPage)),
      Some(searchQuery))
  }

  /** What the browser hands back for the handler's response. */
  function Delivered(r: ProductQuery.Response): (o: FetchOutcome)
    ensures o.Success? <==> r.Ok?
    ensures r.Ok? ==> o.data == r.data && o.totalCount == r.totalCount
    ensures r.Failed? ==> o == HttpError(r.status, Some(r.message))
  {
    match r
    case Ok(data, totalCount, _, _) => Success(data, totalCount)
    case Failed(status, message) => HttpError(status, Some(message))
  }

  /**
   * The `error` a finished request leaves: none on success; otherwise the
   * server's message, or "HTTP error! status: N" when it sent none, or the
   * thrown error's message, or "An unknown error occurred".
   */
  function ErrorFor(o: FetchOutcome): (r: Option<string>)
    ensures r.None? <==> o.Success?
    ensures r.Some? ==> r.value != ""
    ensures o.HttpError? && Truthy(o.message) ==> r == o.message
    ensures o.HttpError? && !Truthy(o.message) ==> r == Some(HttpErrorPrefix + Numbers.IntToString(o.status))
    ensures o.NetworkError? ==> r == (if Truthy(o.message) then o.message else Some(UnknownError))
  {
    match o
    case Success(_, _) => None
    case HttpError(status, message) =>
      var thrown := OrElse(message, HttpErrorPrefix + Numbers.IntToString(status));
      Some(if thrown != "" then thrown else UnknownError)
    case NetworkError(message) =>
      Some(OrElse(message, UnknownError))
  }

  /**
   * `handlePageChange`: the requested page is taken only when it lies in
   * `1..totalPages`; otherwise the page stays.
   */
  function PageAfter(currentPage: int, requested: int, totalPages: nat): (r: int)
    ensures Paging.InRange(requested, totalPages) ==> r == requested
    ensures !Paging.InRange(requested, totalPages) ==> r == currentPage
    ensures currentPage >= 1 ==> r >= 1
  {
    if requested >= 1 && requested <= totalPages then requested else currentPage
  }

  /** The footer with the total and the page buttons. */
  predicate ShowsFooter(loading: bool, error: Option<string>, totalProductsCount: nat) {
    !loading && error.None? && totalProductsCount > 0
  }

  class Dashboard {
    var products: seq<ProductQuery.ProductRow>
    var totalProductsCount: nat
    var loading: bool
    var error: Option<string>
    var searchQuery: string
    var currentPage: int
    var itemsPerPage: int

    /** The page number never drops below 1 and the page size stays positive. */
    predicate Valid()
      reads this
    {
      currentPage >= 1 && itemsPerPage > 0
    }

    function TotalPages(): nat
      reads this
      requires Valid()
    {
      Paging.TotalPages(totalProductsCount, itemsPerPage)
    }

    constructor ()
      ensures Valid()
      ensures products == [] && totalProductsCount == 0
      ensures loading && error.None?
      ensures searchQuery == ""
      ensures currentPage == 1 && itemsPerPage == DefaultItemsPerPage
    {
      products := [];
      totalProductsCount := 0;
      loading := true;
      error := None;
      searchQuery := "";
      currentPage := 1;
      itemsPerPage := DefaultItemsPerPage;
    }

    method HandlePageChange(pageNumber: int)
      requires Valid()
      modifies this
      ensures Valid()
      ensures currentPage == PageAfter(old(currentPage), pageNumber, old(TotalPages()))
      ensures products == old(products) && totalProductsCount == old(totalProductsCount)
      ensures loading == old(loading) && error == old(error)
      ensures searchQuery == old(searchQuery) && itemsPerPage == old(itemsPerPage)
    {
      if pageNumber >= 1 && pageNumber <= TotalPages() {
        currentPage := pageNumber;
      }
    }

    /** A new page size starts again from page 1. */
    method HandleItemsPerPageChange(value: int)
      requires Valid() && PerPageOption(value)
      modifies this
      ensures Valid()
      ensures itemsPerPage == value && currentPage == 1
      ensures products == old(products) && totalProductsCount == old(totalProductsCount)
      ensures loading == old(loading) && error == old(error) && searchQuery == old(searchQuery)
    {
      itemsPerPage := value;
      currentPage := 1;
    }

    /** A new search text starts again from page 1. */
    method HandleSearchChange(value: string)
      requires Valid()
      modifies this
      ensures Valid()
      ensures searchQuery == value && currentPage == 1
      ensures products == old(products) && totalProductsCount == old(totalProductsCount)
      ensures loading == old(loading) && error == old(error) && itemsPerPage == old(itemsPerPage)
    {
      searchQuery := value;
      currentPage := 1;
    }

    /** The synchronous start of `fetchProducts`: spinner on, error cleared, request sent. */
    method StartFetch() returns (request: ProductQuery.QueryParams)
      requires Valid()
      modifies this
      ensures Valid()
      ensures request == Request(currentPage, itemsPerPage, searchQuery)
      ensures loading && error.None?
      ensures products == old(products) && totalProductsCount == old(totalProductsCount)
      ensures searchQuery == old(searchQuery) && currentPage == old(currentPage) && itemsPerPage == old(itemsPerPage)
    {
      loading := true;
      error := None;
      request := Request(currentPage, itemsPerPage, searchQuery);
    }

    /** The end of `fetchProducts`: the page and total on success, the error otherwise; the spinner off either way. */
    method FinishFetch(outcome: FetchOutcome)
      requires Valid()
      modifies this
      ensures Valid()
      ensures !loading
      ensures error == old(error) || error == ErrorFor(outcome)
      ensures outcome.Success? ==> products == outcome.data && totalProductsCount == outcome.totalCount && error == old(error)
      ensures !outcome.Success? ==> products == old(products) && totalProductsCount == old(totalProductsCount) && error == ErrorFor(outcome)
      ensures searchQuery == old(searchQuery) && currentPage == old(currentPage) && itemsPerPage == old(itemsPerPage)
    {
      if outcome.Success? {
        products := outcome.data;
        totalProductsCount := outcome.totalCount;
      } else {
        error := ErrorFor(outcome);
      }
      loading := false;
    }
  }

  /**
   * A request from a valid dashboard is always accepted by the handler: its
   * limit and offset read back as the page size and `(page - 1) * size`.
   */
  lemma RequestAccepted(currentPage: int, itemsPerPage: int, searchQuery: string, table: seq<ProductQuery.ProductRecord>)
    requires currentPage >= 1 && itemsPerPage > 0
    ensures var r := ProductQuery.Get(Request(currentPage, itemsPerPage, searchQuery), table);
      r.Ok? && r.limit == itemsPerPage && r.offset == (currentPage - 1) * itemsPerPage
  {
    Numbers.ParseIntToString(itemsPerPage);
    Numbers.ParseIntToString((currentPage - 1) * itemsPerPage);
    Paging.MulMonotone(0, currentPage - 1, itemsPerPage);
  }

  /**
   * The server's page is the client's page window over the id-ordered matches:
   * the dashboard shows the same rows that slicing the whole match list at
   * `(page - 1) * size .. page * size` would, and the page is non-empty exactly
   * when it lies in `1..Math.ceil(totalCount / size)`.
   */
  lemma DashboardFetchWindow(currentPage: int, itemsPerPage: int, searchQuery: string, table: seq<ProductQuery.ProductRecord>)
    requires currentPage >= 1 && itemsPerPage > 0
    ensures var r := ProductQuery.Get(Request(currentPage, itemsPerPage, searchQuery), table);
      var ordered := ProductQuery.SortById(ProductQuery.Matching(table, ProductQuery.WhereClause(searchQuery)));
      && r.Ok?
      && r.totalCount == |ordered|
      && r.data == ProductQuery.FormatAll(Paging.PageWindow(ordered, currentPage, itemsPerPage))
      && (r.data != [] <==> Paging.InRange(currentPage, Paging.TotalPages(r.totalCount, itemsPerPage)))
  {
    var params := Request(currentPage, itemsPerPage, searchQuery);
    RequestAccepted(currentPage, itemsPerPage, searchQuery, table);
    assert ProductQuery.ParamOr(params.search, "") == searchQuery;
    ProductQuery.GetIsWindowOfMatches(params, table);
    var ordered := ProductQuery.SortById(ProductQuery.Matching(table, ProductQuery.WhereClause(searchQuery)));
    Paging.WindowAtOffset(ordered, currentPage, itemsPerPage);
    Paging.WindowOfPage(ordered, currentPage, itemsPerPage);
  }

  /**
   * After a fetch from a valid dashboard the footer with the total is shown
   * exactly when some product matches the search.
   */
  lemma FooterIffMatches(currentPage: int, itemsPerPage: int, searchQuery: string, table: seq<ProductQuery.ProductRecord>)
    requires currentPage >= 1 && itemsPerPage > 0
    ensures var o := Delivered(ProductQuery.Get(Request(currentPage, itemsPerPage, searchQuery), table));
      && o.Success?
      && (ShowsFooter(false, ErrorFor(o), o.totalCount) <==> |ProductQuery.Matching(table, ProductQuery.WhereClause(searchQuery))| > 0)
  {
    DashboardFetchWindow(currentPage, itemsPerPage, searchQuery, table);
  }

  /** The dashboard shows the handler's failure message whenever the handler refuses a request. */
  lemma HandlerFailureShown(params: ProductQuery.QueryParams, table: seq<ProductQuery.ProductRecord>)
    ensures var r := ProductQuery.Get(params, table);
      ErrorFor(Delivered(r)) == if r.Ok? then None else Some(ProductQuery.FailureMessage)
  {
  }
}
