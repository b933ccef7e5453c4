/**
 * The admin rental list: the status filter sent to the server, the search
 * box applied to the fetched page, the actions each row offers for its
 * status, and the page controls.
 */
module RentalsAdminPage {
  import opened Common
  import opened AuthStorage
  import opened ApiClient
  import opened RentalsApi
  import opened Pagination

  const AllStatuses := "all"
  const CancelReason := "Cancelled by admin"

  /** The populated account and car of a rental row; each text may be missing. */
  datatype Renter = Renter(firstName: Option<string>, lastName: Option<string>, email: Option<string>)
  datatype RentedCar = RentedCar(name: Option<string>, brand: Option<string>)
  datatype AdminRental = AdminRental(id: string, status: string, userId: Option<Renter>, carId: Option<RentedCar>)

  /** `field?.toLowerCase().includes(term.toLowerCase())` on an optional text. */
  predicate FieldIncludes(field: Option<string>, term: string)
  {
    field.Some? && ContainsIgnoringCase(field.value, term)
  }

  /** The texts of a row the search box looks at, in the order they are tried. */
  function SearchedTexts(r: AdminRental): (t: seq<Option<string>>)
    ensures |t| == 5
  {
    var u := r.userId.GetOr(Renter(None, None, None));
    var c := r.carId.GetOr(RentedCar(None, None));
    [if r.userId.Some? then u.firstName else None,
     if r.userId.Some? then u.lastName else None,
     if r.userId.Some? then u.email else None,
     if r.carId.Some? then c.name else None,
     if r.carId.Some? then c.brand else None]
  }

  /** The search predicate: an empty term keeps the row, otherwise one of the five texts must include it. */
  predicate SearchMatches(r: AdminRental, term: string)
  {
    term == ""
    || (r.userId.Some? && (FieldIncludes(r.userId.value.firstName, term) || FieldIncludes(r.userId.value.lastName, term)
                           || FieldIncludes(r.userId.value.email, term)))
    || (r.carId.Some? && (FieldIncludes(r.carId.value.name, term) || FieldIncludes(r.carId.value.brand, term)))
  }

  /** The search predicate agrees with "some searched text includes the term". */
  lemma {:induction false} SearchMatchesSomeText(r: AdminRental, term: string)
    requires term != ""
    ensures SearchMatches(r, term) <==> exists i :: 0 <= i < 5 && FieldIncludes(SearchedTexts(r)[i], term)
  {
    var t := SearchedTexts(r);
    if SearchMatches(r, term) {
      if r.userId.Some? && FieldIncludes(r.userId.value.firstName, term) {
        assert FieldIncludes(t[0], term);
      } else if r.userId.Some? && FieldIncludes(r.userId.value.lastName, term) {
        assert FieldIncludes(t[1], term);
      } else if r.userId.Some? && FieldIncludes(r.userId.value.email, term) {
        assert FieldIncludes(t[2], term);
      } else if r.carId.Some? && FieldIncludes(r.carId.value.name, term) {
        assert FieldIncludes(t[3], term);
      } else {
        assert FieldIncludes(t[4], term);
      }
    }
  }

  /** The rows shown: the fetched page filtered by the search box. */
  function FilteredRentals(rentals: seq<AdminRental>, term: string): (r: seq<AdminRental>)
    ensures IsSubsequence(r, rentals)
    ensures forall x :: x in r <==> x in rentals && SearchMatches(x, term)
  {
    Filter(rentals, x => SearchMatches(x, term))
  }

  /** An empty search keeps the page as fetched. */
  lemma {:induction false} EmptySearchKeepsAll(rentals: seq<AdminRental>)
    ensures FilteredRentals(rentals, "") == rentals
  {
    if rentals != [] {
      EmptySearchKeepsAll(rentals[1..]);
      assert rentals == [rentals[0]] + rentals[1..];
    }
  }

  /** The status filter reaches the server as the `status` parameter, unless it is "all". */
  function QueryParamsOf(currentPage: int, pageSize: int, sortBy: string, sortOrder: string, statusFilter: string): (p: AdminRentalsParams)
    ensures p.status.Some? <==> statusFilter != AllStatuses
    ensures p.status.Some? ==> p.status.value == statusFilter
    ensures p.page == Some(currentPage) && p.limit == Some(pageSize) && p.sortBy == Some(sortBy) && p.sortOrder == Some(sortOrder)
    ensures p.userId.None? && p.carId.None? && p.startDate.None? && p.endDate.None?
  {
    AdminRentalsParams(Some(currentPage), Some(pageSize), if statusFilter != AllStatuses then Some(statusFilter) else None,
                       None, None, None, None, Some(sortBy), Some(sortOrder))
  }

  /** The query sent: the paging and sorting, then `status` when a status is chosen. */
  lemma {:induction false} StatusFilterQuery(currentPage: int, pageSize: int, sortBy: string, sortOrder: string, statusFilter: string)
    ensures AdminRentalsQuery(QueryParamsOf(currentPage, pageSize, sortBy, sortOrder, statusFilter)) ==
      [Param("page", Number(currentPage)), Param("limit", Number(pageSize)), Param("sortBy", Text(sortBy)), Param("sortOrder", Text(sortOrder))]
      + (if statusFilter != AllStatuses && statusFilter != "" then [Param("status", Text(statusFilter))] else [])
  {
    var p := QueryParamsOf(currentPage, pageSize, sortBy, sortOrder, statusFilter);
    AdminRentalsQueryParts(p);
    assert OptionalText(("userId", p.userId)) == [] && OptionalText(("carId", p.carId)) == [];
    assert OptionalText(("startDate", p.startDate)) == [] && OptionalText(("endDate", p.endDate)) == [];
  }

  /** The buttons of a row. */
  datatype RowAction = View | Complete | Activate | Cancel | Remove

  function ActionsFor(status: string): (a: set<RowAction>)
    ensures View in a && Remove in a
    ensures Complete in a <==> status == "active"
    ensures Activate in a <==> status == "pending"
    ensures Cancel in a <==> status == "pending" || status == "active"
  {
    {View, Remove}
    + (if status == "active" then {Complete} else {})
    + (if status == "pending" then {Activate} else {})
    + (if status == "pending" || status == "active" then {Cancel} else {})
  }

  /** A finished or cancelled rental can only be viewed or deleted, and no row offers both Complete and Activate. */
  lemma ClosedRentalsOnlyViewOrDelete(status: string)
    ensures status != "pending" && status != "active" ==> ActionsFor(status) == {View, Remove}
    ensures !(Complete in ActionsFor(status) && Activate in ActionsFor(status))
  {
  }

  /** The request each status-changing button sends; cancelling gives a fixed reason. */
  function ActionRequest(auth: Option<StoredAuthData>, rentalId: string, action: RowAction): (r: Option<Result<Request<seq<Param>>, string>>)
    ensures r.None? <==> action == View
    ensures action == Cancel && r.Some? && r.value.Ok? ==> r.value.value.body == [Param("reason", Text(CancelReason))]
    ensures action == Complete && r.Some? && r.value.Ok? ==> r.value.value.body == []
    ensures r.Some? ==> (r.value.Err? <==> auth.None? || auth.value.token == "")
    ensures action == Activate ==> r == Some(ActivateRentalRequest(auth, rentalId))
    ensures action == Complete ==> r == Some(CompleteRentalRequest(auth, rentalId, None))
    ensures action == Cancel ==> r == Some(CancelRentalRequest(auth, rentalId, Some(CancelReason)))
    ensures action == Remove ==> r == Some(DeleteRentalRequest(auth, rentalId))
    ensures action == Activate && r.Some? && r.value.Ok? ==>
      r.value.value.verb == Patch && r.value.value.path == "/api/rentals/" + rentalId + "/activate"
    ensures action == Complete && r.Some? && r.value.Ok? ==>
      r.value.value.verb == Patch && r.value.value.path == "/api/admin/rentals/" + rentalId + "/complete"
    ensures action == Remove && r.Some? && r.value.Ok? ==>
      r.value.value.verb == Delete && r.value.value.path == "/api/admin/rentals/" + rentalId
  {
    match action
    case View => None
    case Complete => Some(CompleteRentalRequest(auth, rentalId, None))
    case Activate => Some(ActivateRentalRequest(auth, rentalId))
    case Cancel => Some(CancelRentalRequest(auth, rentalId, Some(CancelReason)))
    case Remove => Some(DeleteRentalRequest(auth, rentalId))
  }

  class Page {
    var searchTerm: string
    var statusFilter: string
    var currentPage: int
    var pageSize: int
    var sortBy: string
    var sortOrder: string

    constructor()
      ensures searchTerm == "" && statusFilter == AllStatuses && currentPage == 1 && pageSize == 10
      ensures sortBy == "createdAt" && sortOrder == "desc"
    {
      searchTerm := "";
      statusFilter := AllStatuses;
      currentPage := 1;
      pageSize := 10;
      sortBy := "createdAt";
      sortOrder := "desc";
    }

    function QueryParams(): (p: AdminRentalsParams)
      reads this
      ensures p.status.Some? <==> statusFilter != AllStatuses
    {
      QueryParamsOf(currentPage, pageSize, sortBy, sortOrder, statusFilter)
    }

    function Shown(fetched: seq<AdminRental>): (r: seq<AdminRental>)
      reads this
      ensures IsSubsequence(r, fetched)
      ensures searchTerm == "" ==> r == fetched
    {
      EmptySearchKeepsAll(fetched);
      FilteredRentals(fetched, searchTerm)
    }

    method ChangeSearchTerm(term: string)
      modifies this
      ensures searchTerm == term && statusFilter == old(statusFilter) && currentPage == old(currentPage)
      ensures pageSize == old(pageSize) && sortBy == old(sortBy) && sortOrder == old(sortOrder)
    {
      searchTerm := term;
    }

    method ChangeStatusFilter(status: string)
      modifies this
      ensures statusFilter == status && searchTerm == old(searchTerm) && currentPage == old(currentPage)
      ensures pageSize == old(pageSize) && sortBy == old(sortBy) && sortOrder == old(sortOrder)
    {
      statusFilter := status;
    }

    /** Clear: no search, every status, first page; the sorting is kept. */
    method Clear()
      modifies this
      ensures searchTerm == "" && statusFilter == AllStatuses && currentPage == 1
      ensures QueryParams().status.None?
      ensures pageSize == old(pageSize) && sortBy == old(sortBy) && sortOrder == old(sortOrder)
    {
      searchTerm := "";
      statusFilter := AllStatuses;
      currentPage := 1;
    }

    /** The sort-by select: the next query sorts by the chosen key; the page is kept. */
    method ChangeSortBy(key: string)
      modifies this
      ensures sortBy == key && QueryParams().sortBy == Some(key)
      ensures searchTerm == old(searchTerm) && statusFilter == old(statusFilter) && currentPage == old(currentPage)
      ensures pageSize == old(pageSize) && sortOrder == old(sortOrder)
    {
      sortBy := key;
    }

    /** The "Show:" select: the next query asks for that many rows; the page is kept. */
    method ChangePageSize(size: int)
      modifies this
      ensures pageSize == size && QueryParams().limit == Some(size)
      ensures searchTerm == old(searchTerm) && statusFilter == old(statusFilter) && currentPage == old(currentPage)
      ensures sortBy == old(sortBy) && sortOrder == old(sortOrder)
    {
      pageSize := size;
    }

    method ToggleSortOrder()
      modifies this
      ensures sortOrder == if old(sortOrder) == "asc" then "desc" else "asc"
      ensures searchTerm == old(searchTerm) && statusFilter == old(statusFilter) && currentPage == old(currentPage)
      ensures pageSize == old(pageSize) && sortBy == old(sortBy)
    {
      sortOrder := if sortOrder == "asc" then "desc" else "asc";
    }

    method GoToPrevious()
      modifies this
      ensures currentPage == Previous(old(currentPage))
      ensures searchTerm == old(searchTerm) && statusFilter == old(statusFilter)
      ensures pageSize == old(pageSize) && sortBy == old(sortBy) && sortOrder == old(sortOrder)
    {
      currentPage := Previous(currentPage);
    }

    method GoToNext(totalPages: int)
      modifies this
      ensures currentPage == Next(old(currentPage), totalPages)
      ensures searchTerm == old(searchTerm) && statusFilter == old(statusFilter)
      ensures pageSize == old(pageSize) && sortBy == old(sortBy) && sortOrder == old(sortOrder)
    {
      currentPage := Next(currentPage, totalPages);
    }

    method GoToPage(totalPages: int, index: int)
      requires 0 <= index < |PageWindow(totalPages, currentPage)|
      modifies this
      ensures currentPage == PageWindow(totalPages, old(currentPage))[index]
      ensures 1 <= old(currentPage) <= totalPages ==> 1 <= currentPage <= totalPages
      ensures searchTerm == old(searchTerm) && statusFilter == old(statusFilter)
      ensures pageSize == old(pageSize) && sortBy == old(sortBy) && sortOrder == old(sortOrder)
    {
      var w := PageWindow(totalPages, currentPage);
      if 1 <= currentPage <= totalPages {
        WindowCoversCurrent(totalPages, currentPage);
        assert w[index] in w;
      }
      currentPage := w[index];
    }
  }
}
