/**
 * Request helpers for the admin user management: the list and search
 * queries and the bodies of the status and role updates.
 */
module UsersApi {
  import opened Common
  import opened AuthStorage
  import opened ApiClient

  datatype AdminUsersParams = AdminUsersParams(
    page: Option<int>,
    limit: Option<int>,
    search: Option<string>,
    role: Option<string>,
    isActive: Option<bool>,
    isEmailVerified: Option<bool>,
    sortBy: Option<string>,
    sortOrder: Option<string>)

  datatype SearchUsersParams = SearchUsersParams(
    name: Option<string>,
    email: Option<string>,
    role: Option<string>,
    isActive: Option<bool>)

  function UsersPaging(p: AdminUsersParams): seq<Param>
  {
    [Param("page", Number(p.page.GetOr(1))), Param("limit", Number(p.limit.GetOr(10))),
     Param("sortBy", Text(p.sortBy.GetOr("createdAt"))), Param("sortOrder", Text(p.sortOrder.GetOr("desc")))]
  }

  /** The query of `fetchAllUsers`: paging and sorting, the non-empty texts, then the defined flags. */
  function AdminUsersQuery(p: AdminUsersParams): seq<Param>
  {
    UsersPaging(p)
    + OptionalTexts([("search", p.search), ("role", p.role)])
    + DefinedFlags([("isActive", p.isActive), ("isEmailVerified", p.isEmailVerified)])
  }

  method BuildAdminUsersQuery(p: AdminUsersParams) returns (q: seq<Param>)
    ensures q == AdminUsersQuery(p)
    ensures Keys(q)[..4] == ["page", "limit", "sortBy", "sortOrder"]
  {
    q := [];
    q := q + [Param("page", Number(p.page.GetOr(1)))];
    q := q + [Param("limit", Number(p.limit.GetOr(10)))];
    q := q + [Param("sortBy", Text(p.sortBy.GetOr("createdAt")))];
    q := q + [Param("sortOrder", Text(p.sortOrder.GetOr("desc")))];
    assert q == UsersPaging(p);
    q := q + OptionalText(("search", p.search));
    q := q + OptionalText(("role", p.role));
    q := q + DefinedFlag(("isActive", p.isActive));
    q := q + DefinedFlag(("isEmailVerified", p.isEmailVerified));
    AdminUsersQueryParts(p);
  }

  lemma AdminUsersQueryParts(p: AdminUsersParams)
    ensures AdminUsersQuery(p) ==
      UsersPaging(p) + OptionalText(("search", p.search)) + OptionalText(("role", p.role))
      + DefinedFlag(("isActive", p.isActive)) + DefinedFlag(("isEmailVerified", p.isEmailVerified))
  {
    var t := [("search", p.search), ("role", p.role)];
    var f := [("isActive", p.isActive), ("isEmailVerified", p.isEmailVerified)];
    assert t[1..][1..] == [] && f[1..][1..] == [];
    assert OptionalTexts(t) == OptionalText(t[0]) + OptionalText(t[1]);
    assert DefinedFlags(f) == DefinedFlag(f[0]) + DefinedFlag(f[1]);
  }

  /** A flag is sent whenever it is defined, `false` included; with no filters only paging is sent. */
  lemma AdminUsersFilters(p: AdminUsersParams)
    ensures p.isActive == Some(false) ==> Param("isActive", Flag(false)) in AdminUsersQuery(p)
    ensures p.isEmailVerified == Some(false) ==> Param("isEmailVerified", Flag(false)) in AdminUsersQuery(p)
    ensures !Truthy(p.search) && !Truthy(p.role) && p.isActive.None? && p.isEmailVerified.None? ==>
              AdminUsersQuery(p) == UsersPaging(p)
  {
    AdminUsersQueryParts(p);
    var q := AdminUsersQuery(p);
    var head := UsersPaging(p) + OptionalText(("search", p.search)) + OptionalText(("role", p.role));
    if p.isActive == Some(false) {
      assert q[|head|] == Param("isActive", Flag(false));
    }
    if p.isEmailVerified == Some(false) {
      assert q[|q| - 1] == Param("isEmailVerified", Flag(false));
    }
  }

  /** The query of `searchUsers`: name, email, role when non-empty, then isActive when defined. */
  function SearchUsersQuery(p: SearchUsersParams): seq<Param>
  {
    OptionalTexts([("name", p.name), ("email", p.email), ("role", p.role)]) + DefinedFlags([("isActive", p.isActive)])
  }

  method BuildSearchUsersQuery(p: SearchUsersParams) returns (q: seq<Param>)
    ensures q == SearchUsersQuery(p)
  {
    q := [];
    q := q + OptionalText(("name", p.name));
    q := q + OptionalText(("email", p.email));
    q := q + OptionalText(("role", p.role));
    q := q + DefinedFlag(("isActive", p.isActive));
    SearchUsersQueryParts(p);
  }

  lemma SearchUsersQueryParts(p: SearchUsersParams)
    ensures SearchUsersQuery(p) ==
      [] + OptionalText(("name", p.name)) + OptionalText(("email", p.email)) + OptionalText(("role", p.role))
      + DefinedFlag(("isActive", p.isActive))
  {
    var t := [("name", p.name), ("email", p.email), ("role", p.role)];
    assert t[1..][1..][1..] == [];
    assert OptionalTexts(t[2..]) == OptionalText(t[2]) by { assert t[2..][1..] == []; }
    assert OptionalTexts(t[1..]) == OptionalText(t[1]) + OptionalTexts(t[2..]) by { assert t[1..][1..] == t[2..]; }
    assert OptionalTexts(t) == OptionalText(t[0]) + OptionalText(t[1]) + OptionalText(t[2]);
  }

  /** An empty search sends no parameters at all. */
  lemma EmptySearchHasNoQuery()
    ensures SearchUsersQuery(SearchUsersParams(None, None, None, None)) == []
  {
    SearchUsersQueryParts(SearchUsersParams(None, None, None, None));
  }

  /** `updateUser`: a PUT of the update fields to the admin user endpoint, only with a token. */
  function UpdateUserRequest(auth: Option<StoredAuthData>, userId: string, body: seq<Param>): (r: Result<Request<seq<Param>>, string>)
    ensures r.Err? <==> auth.None? || auth.value.token == ""
    ensures r.Err? ==> r.error == TokenMissing
    ensures r.Ok? ==> r.value.verb == Put && r.value.path == "/api/admin/users/" + userId && r.value.body == body
  {
    Authorized(auth, Put, "/api/admin/users/" + userId, [], body)
  }

  /** `updateUserStatus` delegates to `updateUser` with exactly `{isActive}`. */
  function UpdateUserStatusRequest(auth: Option<StoredAuthData>, userId: string, isActive: bool): (r: Result<Request<seq<Param>>, string>)
    ensures r.Ok? ==> r.value.body == [Param("isActive", Flag(isActive))] && r.value.verb == Put
    ensures r.Err? <==> auth.None? || auth.value.token == ""
  {
    UpdateUserRequest(auth, userId, [Param("isActive", Flag(isActive))])
  }

  /** `updateUserRole` delegates to `updateUser` with exactly `{role}`. */
  function UpdateUserRoleRequest(auth: Option<StoredAuthData>, userId: string, role: string): (r: Result<Request<seq<Param>>, string>)
    ensures r.Ok? ==> r.value.body == [Param("role", Text(role))] && r.value.verb == Put
    ensures r.Err? <==> auth.None? || auth.value.token == ""
  {
    UpdateUserRequest(auth, userId, [Param("role", Text(role))])
  }

  function FetchAllUsersRequest(auth: Option<StoredAuthData>, p: AdminUsersParams): (r: Result<Request<seq<Param>>, string>)
    ensures r.Err? ==> r.error == TokenMissing
    ensures r.Ok? ==> r.value.query == AdminUsersQuery(p)
  {
    Authorized(auth, Get, "/api/admin/users", AdminUsersQuery(p), [])
  }

  function SearchUsersRequest(auth: Option<StoredAuthData>, p: SearchUsersParams): (r: Result<Request<seq<Param>>, string>)
    ensures r.Err? ==> r.error == TokenMissing
    ensures r.Ok? ==> r.value.query == SearchUsersQuery(p)
  {
    Authorized(auth, Get, "/api/admin/users/search", SearchUsersQuery(p), [])
  }
}
