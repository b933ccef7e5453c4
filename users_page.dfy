/**
 * The admin user list: the filters and the choice between the paged list
 * query and the search query, the role and status buttons of each row, and
 * the page controls.
 */
module UsersPage {
  import opened Common
  import opened AuthStorage
  import opened ApiClient
  import opened UsersApi
  import opened Pagination

  const AllChoice := "all"

  /** The parameters of the search query for the current filters. */
  function SearchParamsOf(debouncedSearchTerm: string, roleFilter: string, statusFilter: string): (p: SearchUsersParams)
    ensures p.name == OrUndefined(debouncedSearchTerm) && p.email.None?
    ensures p.role.None? <==> roleFilter == AllChoice
    ensures p.isActive.None? <==> statusFilter == AllChoice
    ensures p.isActive.Some? ==> (p.isActive.value <==> statusFilter == "active")
  {
    SearchUsersParams(
      OrUndefined(debouncedSearchTerm),
      None,
      if roleFilter != AllChoice then Some(roleFilter) else None,
      if statusFilter != AllChoice then Some(statusFilter == "active") else None)
  }

  /** The search query the filters produce: name, role and isActive, each only when filtered on. */
  lemma {:induction false} FilterQuery(debouncedSearchTerm: string, roleFilter: string, statusFilter: string)
    ensures SearchUsersQuery(SearchParamsOf(debouncedSearchTerm, roleFilter, statusFilter)) ==
      (if debouncedSearchTerm != "" then [Param("name", Text(debouncedSearchTerm))] else [])
      + (if roleFilter != AllChoice && roleFilter != "" then [Param("role", Text(roleFilter))] else [])
      + (if statusFilter != AllChoice then [Param("isActive", Flag(statusFilter == "active"))] else [])
  {
    var p := SearchParamsOf(debouncedSearchTerm, roleFilter, statusFilter);
    SearchUsersQueryParts(p);
    assert OptionalText(("email", p.email)) == [];
  }

  /** `hasSearchFilters`: a search term, a role or a status is chosen. */
  predicate HasSearchFilters(debouncedSearchTerm: string, roleFilter: string, statusFilter: string)
  {
    debouncedSearchTerm != "" || roleFilter != AllChoice || statusFilter != AllChoice
  }

  /** Every filter cleared: the search query carries no parameter. */
  lemma NoFiltersNoSearchQuery(roleFilter: string, statusFilter: string)
    requires !HasSearchFilters("", roleFilter, statusFilter)
    ensures SearchUsersQuery(SearchParamsOf("", roleFilter, statusFilter)) == []
  {
    FilterQuery("", roleFilter, statusFilter);
  }

  /** The parameters `{}` given to the query that is not in use. */
  const NoListParams := AdminUsersParams(None, None, None, None, None, None, None, None)
  const NoSearchParams := SearchUsersParams(None, None, None, None)

  /** The list shown: the search results when filtering, the paged list otherwise. */
  function ActiveResult<T>(hasSearchFilters: bool, searchData: T, listData: T): (r: T)
    ensures hasSearchFilters ==> r == searchData
    ensures !hasSearchFilters ==> r == listData
  {
    if hasSearchFilters then searchData else listData
  }

  /** The role button: admin, then manager, then user, then admin again; any other role becomes admin. */
  function NextRole(role: string): (r: string)
    ensures r == "admin" || r == "manager" || r == "user"
    ensures r != role
  {
    if role == "admin" then "manager" else if role == "manager" then "user" else "admin"
  }

  /** Three presses bring each of the three roles back. */
  lemma NextRoleCycles(role: string)
    requires role == "admin" || role == "manager" || role == "user"
    ensures NextRole(NextRole(NextRole(role))) == role
    ensures NextRole(role) != NextRole(NextRole(role))
  {
  }

  /** The request of the role button: `updateUserRole` with the next role in the cycle. */
  function RoleButtonRequest(auth: Option<StoredAuthData>, userId: string, role: string): (r: Result<Request<seq<Param>>, string>)
    ensures r.Ok? ==> r.value.body == [Param("role", Text(NextRole(role)))]
    ensures r.Err? <==> auth.None? || auth.value.token == ""
  {
    UpdateUserRoleRequest(auth, userId, NextRole(role))
  }

  /** The request of the status button: the negation of the row's `isActive`. */
  function StatusButtonRequest(auth: Option<StoredAuthData>, userId: string, isActive: bool): (r: Result<Request<seq<Param>>, string>)
    ensures r.Ok? ==> r.value.body == [Param("isActive", Flag(!isActive))]
    ensures r.Err? <==> auth.None? || auth.value.token == ""
  {
    UpdateUserStatusRequest(auth, userId, !isActive)
  }

  class Page {
    var searchTerm: string
    var debouncedSearchTerm: string
    var roleFilter: string
    var statusFilter: string
    var currentPage: int
    var pageSize: int
    var sortBy: string
    var sortOrder: string

    constructor()
      ensures searchTerm == "" && debouncedSearchTerm == "" && roleFilter == AllChoice && statusFilter == AllChoice
      ensures currentPage == 1 && pageSize == 10 && sortBy == "createdAt" && sortOrder == "desc"
      ensures !Filtering()
    {
      searchTerm := "";
      debouncedSearchTerm := "";
      roleFilter := AllChoice;
      statusFilter := AllChoice;
      currentPage := 1;
      pageSize := 10;
      sortBy := "createdAt";
      sortOrder := "desc";
    }

    predicate Filtering()
      reads this
    {
      HasSearchFilters(debouncedSearchTerm, roleFilter, statusFilter)
    }

    /** The parameters of the paged list query: `{}` while filtering. */
    function ListParams(): (p: AdminUsersParams)
      reads this
      ensures Filtering() ==> p == NoListParams
      ensures !Filtering() ==>
        p.page == Some(currentPage) && p.limit == Some(pageSize) && p.sortBy == Some(sortBy) && p.sortOrder == Some(sortOrder)
        && p.search.None? && p.role.None? && p.isActive.None? && p.isEmailVerified.None?
    {
      if Filtering() then NoListParams
      else AdminUsersParams(Some(currentPage), Some(pageSize), None, None, None, None, Some(sortBy), Some(sortOrder))
    }

    /** The parameters of the search query: `{}` unless filtering. */
    function SearchParams(): (p: SearchUsersParams)
      reads this
      ensures !Filtering() ==> p == NoSearchParams
      ensures Filtering() ==> p == SearchParamsOf(debouncedSearchTerm, roleFilter, statusFilter)
    {
      if Filtering() then SearchParamsOf(debouncedSearchTerm, roleFilter, statusFilter) else NoSearchParams
    }

    /** The page controls appear only when browsing the paged list and it has several pages. */
    function PaginationShown(totalPages: int): (b: bool)
      reads this
      ensures b ==> !Filtering() && totalPages > 1
    {
      !Filtering() && totalPages > 1
    }

    method ChangeSearchTerm(term: string)
      modifies this
      ensures searchTerm == term
      ensures debouncedSearchTerm == old(debouncedSearchTerm) && currentPage == old(currentPage)
      ensures roleFilter == old(roleFilter) && statusFilter == old(statusFilter)
      ensures pageSize == old(pageSize) && sortBy == old(sortBy) && sortOrder == old(sortOrder)
    {
      searchTerm := term;
    }

    /** The debounce timer fires: the typed term takes effect and the list goes back to page 1. */
    method DebounceElapsed()
      modifies this
      ensures debouncedSearchTerm == searchTerm == old(searchTerm) && currentPage == 1
      ensures roleFilter == old(roleFilter) && statusFilter == old(statusFilter)
      ensures pageSize == old(pageSize) && sortBy == old(sortBy) && sortOrder == old(sortOrder)
    {
      debouncedSearchTerm := searchTerm;
      currentPage := 1;
    }

    method ChangeRoleFilter(role: string)
      modifies this
      ensures roleFilter == role
      ensures searchTerm == old(searchTerm) && debouncedSearchTerm == old(debouncedSearchTerm)
      ensures statusFilter == old(statusFilter) && currentPage == old(currentPage)
      ensures pageSize == old(pageSize) && sortBy == old(sortBy) && sortOrder == old(sortOrder)
    {
      roleFilter := role;
    }

    method ChangeStatusFilter(status: string)
      modifies this
      ensures statusFilter == status
      ensures searchTerm == old(searchTerm) && debouncedSearchTerm == old(debouncedSearchTerm)
      ensures roleFilter == old(roleFilter) && currentPage == old(currentPage)
      ensures pageSize == old(pageSize) && sortBy == old(sortBy) && sortOrder == old(sortOrder)
    {
      statusFilter := status;
    }

    /** The sort-order button flips ascending and descending. */
    method ToggleSortOrder()
      modifies this
      ensures sortOrder == if old(sortOrder) == "asc" then "desc" else "asc"
      ensures searchTerm == old(searchTerm) && debouncedSearchTerm == old(debouncedSearchTerm)
      ensures roleFilter == old(roleFilter) && statusFilter == old(statusFilter)
      ensures currentPage == old(currentPage) && pageSize == old(pageSize) && sortBy == old(sortBy)
    {
      sortOrder := if sortOrder == "asc" then "desc" else "asc";
    }

    /** Clear: no term, every role and status, first page; sorting and page size stay. */
    method Clear()
      modifies this
      ensures searchTerm == "" && debouncedSearchTerm == "" && roleFilter == AllChoice && statusFilter == AllChoice
      ensures currentPage == 1 && !Filtering()
      ensures pageSize == old(pageSize) && sortBy == old(sortBy) && sortOrder == old(sortOrder)
    {
      searchTerm := "";
      debouncedSearchTerm := "";
      roleFilter := AllChoice;
      statusFilter := AllChoice;
      currentPage := 1;
    }

    method GoToPrevious()
      modifies this
      ensures currentPage == Previous(old(currentPage))
      ensures searchTerm == old(searchTerm) && debouncedSearchTerm == old(debouncedSearchTerm)
      ensures roleFilter == old(roleFilter) && statusFilter == old(statusFilter)
      ensures pageSize == old(pageSize) && sortBy == old(sortBy) && sortOrder == old(sortOrder)
    {
      currentPage := Previous(currentPage);
    }

    method GoToNext(totalPages: int)
      modifies this
      ensures currentPage == Next(old(currentPage), totalPages)
      ensures searchTerm == old(searchTerm) && debouncedSearchTerm == old(debouncedSearchTerm)
      ensures roleFilter == old(roleFilter) && statusFilter == old(statusFilter)
      ensures pageSize == old(pageSize) && sortBy == old(sortBy) && sortOrder == old(sortOrder)
    {
      currentPage := Next(currentPage, totalPages);
    }

    /** A numbered button of the window. */
    method GoToPage(totalPages: int, index: int)
      requires 0 <= index < |PageWindow(totalPages, currentPage)|
      modifies this
      ensures currentPage == PageWindow(totalPages, old(currentPage))[index]
      ensures 1 <= old(currentPage) <= totalPages ==> 1 <= currentPage <= totalPages
      ensures searchTerm == old(searchTerm) && debouncedSearchTerm == old(debouncedSearchTerm)
      ensures roleFilter == old(roleFilter) && statusFilter == old(statusFilter)
      ensures pageSize == old(pageSize) && sortBy == old(sortBy) && sortOrder == old(sortOrder)
    {
      var w := PageWindow(totalPages, currentPage);
      if 1 <= currentPage <= totalPages {
        WindowCoversCurrent(totalPages, currentPage);
        assert w[index] in w;
      }
      currentPage := w[index];
    }

    method ChangePageSize(size: int)
      modifies this
      ensures pageSize == size
      ensures searchTerm == old(searchTerm) && debouncedSearchTerm == old(debouncedSearchTerm)
      ensures roleFilter == old(roleFilter) && statusFilter == old(statusFilter)
      ensures currentPage == old(currentPage) && sortBy == old(sortBy) && sortOrder == old(sortOrder)
    {
      pageSize := size;
    }
  }
}
