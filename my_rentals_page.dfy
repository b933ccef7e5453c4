/**
 * The signed-in customer's rental history: the search, status, date and
 * amount filters applied to the fetched page, the page count, and the
 * guard that sends a signed-out visitor home.
 */
module MyRentalsPage {
  import opened Common
  import opened AuthStorage
  import opened ApiClient
  import opened RentalsApi

  const ItemsPerPage := 10

  datatype PickupBranch = PickupBranch(name: Option<string>)
  datatype Pickup = Pickup(branch: Option<PickupBranch>, location: Option<string>)
  datatype CarRef = CarRef(name: Option<string>, brand: Option<string>)

  /** A rental of the fetched page, with the fields the filters read. */
  datatype UserRental = UserRental(
    carId: Option<CarRef>,
    pickup: Option<Pickup>,
    status: Option<string>,
    startDate: Option<string>,
    finalAmount: Option<real>)

  /** The six filter inputs, as typed. */
  datatype Filters = Filters(
    searchTerm: string,
    statusFilter: string,
    dateFrom: string,
    dateTo: string,
    minAmount: string,
    maxAmount: string)

  const NoFilters := Filters("", "all", "", "", "", "")

  /**
   * `new Date(text).getTime()`, supplied by the caller: `None` is an
   * invalid date, which compares false with everything.
   */
  type TimeOf = string -> Option<int>

  /** `parseFloat`, supplied by the caller: `None` is NaN. */
  type ParseAmount = string -> Option<real>

  predicate HasActiveFilters(f: Filters)
  {
    f.searchTerm != "" || f.statusFilter != "all" || f.dateFrom != "" || f.dateTo != ""
    || f.minAmount != "" || f.maxAmount != ""
  }

  /** `text && text.toLowerCase().includes(term.toLowerCase())`. */
  predicate TextIncludes(text: Option<string>, term: string)
  {
    Truthy(text) && ContainsIgnoringCase(text.value, term)
  }

  predicate MatchesSearch(r: UserRental, term: string)
  {
    term == ""
    || (r.carId.Some? && (TextIncludes(r.carId.value.name, term) || TextIncludes(r.carId.value.brand, term)))
    || (r.pickup.Some? && r.pickup.value.branch.Some? && TextIncludes(r.pickup.value.branch.value.name, term))
    || (r.pickup.Some? && TextIncludes(r.pickup.value.location, term))
  }

  /** "all", or the rental's status equals the chosen one ignoring case. */
  predicate MatchesStatus(r: UserRental, statusFilter: string)
  {
    statusFilter == "all" || (Truthy(r.status) && Lower(r.status.value) == Lower(statusFilter))
  }

  /** `a >= b` on two times, false when either is invalid. */
  predicate AtLeast<T(==)>(a: Option<T>, b: Option<T>, le: (T, T) -> bool)
  {
    a.Some? && b.Some? && le(b.value, a.value)
  }

  /** The date filter: each bound set in the form restricts the rental's start date, when it has one. */
  function MatchesDate(r: UserRental, f: Filters, timeOf: TimeOf): (m: bool)
    ensures !Truthy(r.startDate) ==> m
    ensures f.dateFrom == "" && f.dateTo == "" ==> m
    ensures Truthy(r.startDate) && timeOf(r.startDate.value).Some? ==>
      var t := timeOf(r.startDate.value).value;
      m <==> (f.dateFrom == "" || (timeOf(f.dateFrom).Some? && timeOf(f.dateFrom).value <= t))
             && (f.dateTo == "" || (timeOf(f.dateTo).Some? && t <= timeOf(f.dateTo).value))
    ensures Truthy(r.startDate) && timeOf(r.startDate.value).None? && (f.dateFrom != "" || f.dateTo != "") ==> !m
  {
    var matchesDate := true;
    var matchesDate := if f.dateFrom != "" && Truthy(r.startDate)
      then matchesDate && AtLeast(timeOf(r.startDate.value), timeOf(f.dateFrom), (x: int, y: int) => x <= y)
      else matchesDate;
    if f.dateTo != "" && Truthy(r.startDate)
      then matchesDate && AtLeast(timeOf(f.dateTo), timeOf(r.startDate.value), (x: int, y: int) => x <= y)
      else matchesDate
  }

  /** A rental amount is truthy when present and not zero. */
  predicate AmountSet(a: Option<real>)
  {
    a.Some? && a.value != 0.0
  }

  /** The amount filter: each bound set in the form restricts a non-zero final amount. */
  function MatchesAmount(r: UserRental, f: Filters, parse: ParseAmount): (m: bool)
    ensures !AmountSet(r.finalAmount) ==> m
    ensures f.minAmount == "" && f.maxAmount == "" ==> m
    ensures AmountSet(r.finalAmount) ==>
      var a := r.finalAmount.value;
      m <==> (f.minAmount == "" || (parse(f.minAmount).Some? && parse(f.minAmount).value <= a))
             && (f.maxAmount == "" || (parse(f.maxAmount).Some? && a <= parse(f.maxAmount).value))
  {
    var matchesAmount := true;
    var matchesAmount := if f.minAmount != "" && AmountSet(r.finalAmount)
      then matchesAmount && AtLeast(r.finalAmount, parse(f.minAmount), (x: real, y: real) => x <= y)
      else matchesAmount;
    if f.maxAmount != "" && AmountSet(r.finalAmount)
      then matchesAmount && AtLeast(parse(f.maxAmount), r.finalAmount, (x: real, y: real) => x <= y)
      else matchesAmount
  }

  predicate Kept(r: UserRental, f: Filters, timeOf: TimeOf, parse: ParseAmount)
  {
    MatchesSearch(r, f.searchTerm) && MatchesStatus(r, f.statusFilter) && MatchesDate(r, f, timeOf)
    && MatchesAmount(r, f, parse)
  }

  /** The rentals shown: the fetched page, in order, restricted to those every filter keeps. */
  function FilteredRentals(rentals: seq<UserRental>, f: Filters, timeOf: TimeOf, parse: ParseAmount): (r: seq<UserRental>)
    ensures IsSubsequence(r, rentals)
    ensures forall x :: x in r <==> x in rentals && Kept(x, f, timeOf, parse)
  {
    Filter(rentals, x => Kept(x, f, timeOf, parse))
  }

  /** With the filters cleared every fetched rental is shown. */
  lemma {:induction false} NoFiltersKeepAll(rentals: seq<UserRental>, timeOf: TimeOf, parse: ParseAmount)
    ensures !HasActiveFilters(NoFilters)
    ensures FilteredRentals(rentals, NoFilters, timeOf, parse) == rentals
  {
    if rentals != [] {
      NoFiltersKeepAll(rentals[1..], timeOf, parse);
      assert rentals == [rentals[0]] + rentals[1..];
    }
  }

  /** `Math.ceil(totalItems / itemsPerPage)`: the fewest pages of ten that hold every item. */
  function TotalPages(totalItems: int): (t: int)
    ensures t * ItemsPerPage >= totalItems
    ensures (t - 1) * ItemsPerPage < totalItems
  {
    (totalItems + ItemsPerPage - 1) / ItemsPerPage
  }

  /** `count || 0`: the item count the page count is taken from. */
  function TotalItems(count: Option<int>): (n: int)
    ensures count.None? ==> n == 0
    ensures count.Some? ==> n == count.value
  {
    count.GetOr(0)
  }

  datatype FilterField = SearchTerm | StatusFilter | DateFrom | DateTo | MinAmount | MaxAmount

  /** The filters with one input replaced. */
  function WithFilter(f: Filters, field: FilterField, value: string): Filters
  {
    match field
    case SearchTerm => f.(searchTerm := value)
    case StatusFilter => f.(statusFilter := value)
    case DateFrom => f.(dateFrom := value)
    case DateTo => f.(dateTo := value)
    case MinAmount => f.(minAmount := value)
    case MaxAmount => f.(maxAmount := value)
  }

  class Page {
    var isMounted: bool
    var currentPage: int
    var isFilterOpen: bool
    var filters: Filters
    /** Paths handed to the router, oldest first. */
    var redirects: seq<string>

    constructor()
      ensures !isMounted && currentPage == 1 && !isFilterOpen && filters == NoFilters && redirects == []
    {
      isMounted := false;
      currentPage := 1;
      isFilterOpen := false;
      filters := NoFilters;
      redirects := [];
    }

    /** The mount effect, then the guard effect: a signed-out visitor is sent home. */
    method Mount(isAuthenticated: bool)
      modifies this
      ensures isMounted
      ensures redirects == old(redirects) + (if isAuthenticated then [] else ["/"])
      ensures currentPage == old(currentPage) && isFilterOpen == old(isFilterOpen) && filters == old(filters)
    {
      isMounted := true;
      if !isAuthenticated {
        redirects := redirects + ["/"];
      }
    }

    /** The guard effect re-run when the session changes: a sign-out after mounting sends the visitor home. */
    method Effect(isAuthenticated: bool)
      modifies this
      ensures redirects == old(redirects) + (if isMounted && !isAuthenticated then ["/"] else [])
      ensures isMounted == old(isMounted) && currentPage == old(currentPage)
      ensures isFilterOpen == old(isFilterOpen) && filters == old(filters)
    {
      if isMounted && !isAuthenticated {
        redirects := redirects + ["/"];
      }
    }

    /** Nothing is rendered before mounting or without a session. */
    function Renders(isAuthenticated: bool): (b: bool)
      reads this
      ensures b <==> isMounted && isAuthenticated
    {
      isMounted && isAuthenticated
    }

    /** The request of `useUserRentals`: the current page, ten per page. */
    function PageRequest(auth: Option<StoredAuthData>): (r: Result<Request<seq<Param>>, string>)
      reads this
      ensures r.Ok? ==> r.value.query == [Param("page", Number(currentPage)), Param("limit", Number(ItemsPerPage))]
    {
      FetchUserRentalsRequest(auth, Some(currentPage), Some(ItemsPerPage))
    }

    method ChangeFilter(field: FilterField, value: string)
      modifies this
      ensures filters == WithFilter(old(filters), field, value)
      ensures isMounted == old(isMounted) && currentPage == old(currentPage) && isFilterOpen == old(isFilterOpen)
      ensures redirects == old(redirects)
    {
      filters := WithFilter(filters, field, value);
    }

    method ToggleFilterPanel()
      modifies this
      ensures isFilterOpen == !old(isFilterOpen)
      ensures isMounted == old(isMounted) && currentPage == old(currentPage) && filters == old(filters)
      ensures redirects == old(redirects)
    {
      isFilterOpen := !isFilterOpen;
    }

    /** `clearFilters`: every input back to its initial value. */
    method ClearFilters()
      modifies this
      ensures filters == NoFilters && !HasActiveFilters(filters)
      ensures isMounted == old(isMounted) && currentPage == old(currentPage) && isFilterOpen == old(isFilterOpen)
      ensures redirects == old(redirects)
    {
      filters := NoFilters;
    }

    method HandlePageChange(page: int)
      modifies this
      ensures currentPage == page
      ensures isMounted == old(isMounted) && isFilterOpen == old(isFilterOpen) && filters == old(filters)
      ensures redirects == old(redirects)
    {
      currentPage := page;
    }
  }
}
