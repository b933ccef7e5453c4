/**
 * Request helpers for rentals: the admin list query, the bodies of the
 * status, cancel and complete calls, and the creation payload.
 */
module RentalsApi {
  import opened Common
  import opened AuthStorage
  import opened ApiClient

  const CreateFallback := "Failed to create rental"

  /** A date or time the form converts with `toISOString` before sending. */
  datatype Timestamp = IsoOf(text: string)

  datatype Stop = Stop(location: string, branch: string, time: Timestamp)

  /** The body of `createRental`. */
  datatype CreateRentalData = CreateRentalData(
    carId: string,
    startDate: Timestamp,
    endDate: Timestamp,
    pickup: Stop,
    dropOff: Stop,
    licenseNumber: string,
    licenseExpiry: Timestamp,
    pickupMileageText: string,
    specialRequests: string,
    paymentMethod: string)

  datatype AdminRentalsParams = AdminRentalsParams(
    page: Option<int>,
    limit: Option<int>,
    status: Option<string>,
    userId: Option<string>,
    carId: Option<string>,
    startDate: Option<string>,
    endDate: Option<string>,
    sortBy: Option<string>,
    sortOrder: Option<string>)

  /** The optional filters of the admin list, in the order they are appended. */
  function RentalFilters(p: AdminRentalsParams): seq<(string, Option<string>)>
  {
    [("status", p.status), ("userId", p.userId), ("carId", p.carId), ("startDate", p.startDate), ("endDate", p.endDate)]
  }

  /** The paging and sorting part of the admin query, with the defaults of `fetchAllRentals`. */
  function AdminRentalsPaging(p: AdminRentalsParams): seq<Param>
  {
    [Param("page", Number(p.page.GetOr(1))), Param("limit", Number(p.limit.GetOr(10))),
     Param("sortBy", Text(p.sortBy.GetOr("createdAt"))), Param("sortOrder", Text(p.sortOrder.GetOr("desc")))]
  }

  /** The query of `fetchAllRentals`: paging and sorting with defaults, then the non-empty filters. */
  function AdminRentalsQuery(p: AdminRentalsParams): seq<Param>
  {
    AdminRentalsPaging(p) + OptionalTexts(RentalFilters(p))
  }

  /** Builds the query by successive appends, as `fetchAllRentals` does. */
  method BuildAdminRentalsQuery(p: AdminRentalsParams) returns (q: seq<Param>)
    ensures q == AdminRentalsQuery(p)
    ensures Keys(q)[..4] == ["page", "limit", "sortBy", "sortOrder"]
  {
    q := [];
    q := q + [Param("page", Number(p.page.GetOr(1)))];
    q := q + [Param("limit", Number(p.limit.GetOr(10)))];
    q := q + [Param("sortBy", Text(p.sortBy.GetOr("createdAt")))];
    q := q + [Param("sortOrder", Text(p.sortOrder.GetOr("desc")))];
    assert q == AdminRentalsPaging(p);
    ghost var paging := q;
    assert Keys(paging) == ["page", "limit", "sortBy", "sortOrder"];
    q := q + OptionalText(("status", p.status));
    q := q + OptionalText(("userId", p.userId));
    q := q + OptionalText(("carId", p.carId));
    q := q + OptionalText(("startDate", p.startDate));
    q := q + OptionalText(("endDate", p.endDate));
    AdminRentalsQueryParts(p);
    assert q[..4] == paging;
    assert Keys(q)[..4] == Keys(paging);
  }

  lemma AdminRentalsQueryParts(p: AdminRentalsParams)
    ensures AdminRentalsQuery(p) ==
      AdminRentalsPaging(p) + OptionalText(("status", p.status)) + OptionalText(("userId", p.userId))
      + OptionalText(("carId", p.carId)) + OptionalText(("startDate", p.startDate)) + OptionalText(("endDate", p.endDate))
  {
    var c := RentalFilters(p);
    OptionalTexts5(c);
    assert c[0] == ("status", p.status) && c[1] == ("userId", p.userId) && c[2] == ("carId", p.carId);
    assert c[3] == ("startDate", p.startDate) && c[4] == ("endDate", p.endDate);
    var f := OptionalTexts(c);
    assert AdminRentalsQuery(p) == AdminRentalsPaging(p) + f;
  }

  /** `OptionalTexts` over five candidates, unrolled. */
  lemma OptionalTexts5(c: seq<(string, Option<string>)>)
    requires |c| == 5
    ensures OptionalTexts(c) == OptionalText(c[0]) + OptionalText(c[1]) + OptionalText(c[2]) + OptionalText(c[3]) + OptionalText(c[4])
  {
    var t0, t1, t2, t3, t4 := OptionalText(c[0]), OptionalText(c[1]), OptionalText(c[2]), OptionalText(c[3]), OptionalText(c[4]);
    assert c[4..][1..] == [];
    assert OptionalTexts(c[4..]) == t4;
    OptionalTextsFrom(c, 3);
    assert OptionalTexts(c[3..]) == t3 + t4;
    OptionalTextsFrom(c, 2);
    assert OptionalTexts(c[2..]) == t2 + (t3 + t4);
    OptionalTextsFrom(c, 1);
    assert OptionalTexts(c[1..]) == t1 + (t2 + (t3 + t4));
    assert c[1..] == c[1..];
    assert OptionalTexts(c) == t0 + (t1 + (t2 + (t3 + t4)));
    assert t2 + (t3 + t4) == t2 + t3 + t4;
    assert t1 + (t2 + t3 + t4) == t1 + t2 + t3 + t4;
    assert t0 + (t1 + t2 + t3 + t4) == t0 + t1 + t2 + t3 + t4;
  }

  /** A filter is sent exactly when it is a non-empty string, and the filters keep their order. */
  lemma AdminRentalsFilters(p: AdminRentalsParams, key: string, value: string)
    ensures Param(key, Text(value)) in OptionalTexts(RentalFilters(p)) <==>
              (key == "status" && p.status == Some(value) && value != "")
              || (key == "userId" && p.userId == Some(value) && value != "")
              || (key == "carId" && p.carId == Some(value) && value != "")
              || (key == "startDate" && p.startDate == Some(value) && value != "")
              || (key == "endDate" && p.endDate == Some(value) && value != "")
    ensures IsSubsequence(Keys(OptionalTexts(RentalFilters(p))), ["status", "userId", "carId", "startDate", "endDate"])
  {
    var c := RentalFilters(p);
    assert CandidateKeys(c) == ["status", "userId", "carId", "startDate", "endDate"];
    OptionalTextsEmits(c, key, value);
    OptionalTextsKeepOrder(c);
    if Param(key, Text(value)) in OptionalTexts(c) {
      var i :| 0 <= i < |c| && c[i].0 == key && c[i].1 == Some(value) && value != "";
      assert i in {0, 1, 2, 3, 4};
    }
    if key == "userId" && p.userId == Some(value) && value != "" {
      assert c[1].0 == key && c[1].1 == Some(value);
    }
    if key == "carId" && p.carId == Some(value) && value != "" {
      assert c[2].0 == key && c[2].1 == Some(value);
    }
    if key == "startDate" && p.startDate == Some(value) && value != "" {
      assert c[3].0 == key && c[3].1 == Some(value);
    }
    if key == "endDate" && p.endDate == Some(value) && value != "" {
      assert c[4].0 == key && c[4].1 == Some(value);
    }
  }

  /** The body of `updateRentalStatus`: the status, then the notes when there are any. */
  function UpdateStatusBody(status: string, adminNotes: Option<string>): (r: seq<Param>)
    ensures |r| >= 1 && r[0] == Param("status", Text(status))
    ensures |r| == 2 <==> Truthy(adminNotes)
    ensures |r| <= 2
    ensures |r| == 2 ==> r[1] == Param("adminNotes", Text(adminNotes.value))
  {
    [Param("status", Text(status))] + OptionalTexts([("adminNotes", adminNotes)])
  }

  /** The body of `cancelRental`: the reason when there is one, else empty. */
  function CancelBody(reason: Option<string>): (r: seq<Param>)
    ensures r == [] <==> !Truthy(reason)
    ensures r != [] ==> r == [Param("reason", Text(reason.value))]
  {
    OptionalTexts([("reason", reason)])
  }

  /** The body of `completeRental`: the return data, or an empty object without it. */
  function CompleteBody(returnData: Option<seq<Param>>): (r: seq<Param>)
    ensures returnData.None? ==> r == []
    ensures returnData.Some? ==> r == returnData.value
  {
    returnData.GetOr([])
  }

  /** `createRental`: a POST of the payload to the rentals collection, only with a token. */
  function CreateRentalRequest(auth: Option<StoredAuthData>, data: CreateRentalData): (r: Result<Request<CreateRentalData>, string>)
    ensures r.Err? <==> auth.None? || auth.value.token == ""
    ensures r.Err? ==> r.error == TokenMissing
    ensures r.Ok? ==> r.value.verb == Post && r.value.path == "/api/rentals" && r.value.body == data
                      && r.value.query == [] && r.value.bearer == auth.value.token
  {
    Authorized(auth, Post, "/api/rentals", [], data)
  }

  /** `fetchUserRentals`: the signed-in user's rentals, page 1 of 10 unless told otherwise. */
  function FetchUserRentalsRequest(auth: Option<StoredAuthData>, page: Option<int>, limit: Option<int>): (r: Result<Request<seq<Param>>, string>)
    ensures r.Err? <==> auth.None? || auth.value.token == ""
    ensures r.Ok? ==> r.value.verb == Get && r.value.path == "/api/rentals" && |r.value.query| == 2
    ensures r.Ok? ==> r.value.query[0] == Param("page", Number(if page.Some? then page.value else 1))
    ensures r.Ok? ==> r.value.query[1] == Param("limit", Number(if limit.Some? then limit.value else 10))
  {
    Authorized(auth, Get, "/api/rentals", [Param("page", Number(page.GetOr(1))), Param("limit", Number(limit.GetOr(10)))], [])
  }

  /** `fetchAllRentals`: the admin list, filtered by the admin query. */
  function FetchAllRentalsRequest(auth: Option<StoredAuthData>, p: AdminRentalsParams): (r: Result<Request<seq<Param>>, string>)
    ensures r.Err? <==> auth.None? || auth.value.token == ""
    ensures r.Ok? ==> r.value.verb == Get && r.value.path == "/api/admin/rentals" && r.value.query == AdminRentalsQuery(p)
  {
    Authorized(auth, Get, "/api/admin/rentals", AdminRentalsQuery(p), [])
  }

  /** `fetchRentalById`: one rental from the admin collection. */
  function FetchRentalByIdRequest(auth: Option<StoredAuthData>, rentalId: string): (r: Result<Request<seq<Param>>, string>)
    ensures r.Err? <==> auth.None? || auth.value.token == ""
    ensures r.Ok? ==> r.value.verb == Get && r.value.path == "/api/admin/rentals/" + rentalId && r.value.query == []
  {
    Authorized(auth, Get, "/api/admin/rentals/" + rentalId, [], [])
  }

  /** `updateRentalStatus`: a PATCH of the status body to the rental's status endpoint. */
  function UpdateRentalStatusRequest(auth: Option<StoredAuthData>, rentalId: string, status: string, adminNotes: Option<string>): (r: Result<Request<seq<Param>>, string>)
    ensures r.Err? <==> auth.None? || auth.value.token == ""
    ensures r.Ok? ==> r.value.verb == Patch && r.value.path == "/api/admin/rentals/" + rentalId + "/status"
    ensures r.Ok? ==> |r.value.body| >= 1 && r.value.body[0] == Param("status", Text(status)) && (|r.value.body| == 2 <==> Truthy(adminNotes))
    ensures r.Ok? ==> r.value.body == UpdateStatusBody(status, adminNotes)
    ensures r.Ok? && Truthy(adminNotes) ==> r.value.body[1] == Param("adminNotes", Text(adminNotes.value))
  {
    Authorized(auth, Patch, "/api/admin/rentals/" + rentalId + "/status", [], UpdateStatusBody(status, adminNotes))
  }

  /** `activateRental`: an empty PATCH to the user-side activate endpoint. */
  function ActivateRentalRequest(auth: Option<StoredAuthData>, rentalId: string): (r: Result<Request<seq<Param>>, string>)
    ensures r.Err? <==> auth.None? || auth.value.token == ""
    ensures r.Ok? ==> r.value.verb == Patch && r.value.path == "/api/rentals/" + rentalId + "/activate" && r.value.body == []
  {
    Authorized(auth, Patch, "/api/rentals/" + rentalId + "/activate", [], [])
  }

  /** `completeRental`: a PATCH of the return data, or of an empty object, to the complete endpoint. */
  function CompleteRentalRequest(auth: Option<StoredAuthData>, rentalId: string, returnData: Option<seq<Param>>): (r: Result<Request<seq<Param>>, string>)
    ensures r.Err? <==> auth.None? || auth.value.token == ""
    ensures r.Ok? ==> r.value.verb == Patch && r.value.path == "/api/admin/rentals/" + rentalId + "/complete"
    ensures r.Ok? ==> r.value.body == (if returnData.Some? then returnData.value else [])
  {
    Authorized(auth, Patch, "/api/admin/rentals/" + rentalId + "/complete", [], CompleteBody(returnData))
  }

  /** `cancelRental`: a PATCH to the cancel endpoint carrying the reason when there is one. */
  function CancelRentalRequest(auth: Option<StoredAuthData>, rentalId: string, reason: Option<string>): (r: Result<Request<seq<Param>>, string>)
    ensures r.Err? <==> auth.None? || auth.value.token == ""
    ensures r.Ok? ==> r.value.verb == Patch && r.value.path == "/api/admin/rentals/" + rentalId + "/cancel"
    ensures r.Ok? ==> (r.value.body == [] <==> !Truthy(reason))
    ensures r.Ok? ==> r.value.body == CancelBody(reason)
    ensures r.Ok? && Truthy(reason) ==> r.value.body == [Param("reason", Text(reason.value))]
  {
    Authorized(auth, Patch, "/api/admin/rentals/" + rentalId + "/cancel", [], CancelBody(reason))
  }

  /** `deleteRental`: a DELETE of the rental from the admin collection. */
  function DeleteRentalRequest(auth: Option<StoredAuthData>, rentalId: string): (r: Result<Request<seq<Param>>, string>)
    ensures r.Err? <==> auth.None? || auth.value.token == ""
    ensures r.Ok? ==> r.value.verb == Delete && r.value.path == "/api/admin/rentals/" + rentalId && r.value.body == []
  {
    Authorized(auth, Delete, "/api/admin/rentals/" + rentalId, [], [])
  }

  /** `getRentalStats`: a GET of the admin statistics. */
  function RentalStatsRequest(auth: Option<StoredAuthData>): (r: Result<Request<seq<Param>>, string>)
    ensures r.Err? <==> auth.None? || auth.value.token == ""
    ensures r.Ok? ==> r.value.verb == Get && r.value.path == "/api/admin/rentals/stats" && r.value.query == []
  {
    Authorized(auth, Get, "/api/admin/rentals/stats", [], [])
  }

  /** Without a token no rental call builds a request; each fails with the missing-token message. */
  lemma RentalCallsNeedToken(auth: Option<StoredAuthData>, data: CreateRentalData, p: AdminRentalsParams,
                             id: string, status: string, notes: Option<string>, ret: Option<seq<Param>>,
                             reason: Option<string>, page: Option<int>, limit: Option<int>)
    requires auth.None? || auth.value.token == ""
    ensures CreateRentalRequest(auth, data) == Err(TokenMissing)
    ensures FetchUserRentalsRequest(auth, page, limit) == Err(TokenMissing)
    ensures FetchAllRentalsRequest(auth, p) == Err(TokenMissing)
    ensures FetchRentalByIdRequest(auth, id) == Err(TokenMissing)
    ensures UpdateRentalStatusRequest(auth, id, status, notes) == Err(TokenMissing)
    ensures ActivateRentalRequest(auth, id) == Err(TokenMissing)
    ensures CompleteRentalRequest(auth, id, ret) == Err(TokenMissing)
    ensures CancelRentalRequest(auth, id, reason) == Err(TokenMissing)
    ensures DeleteRentalRequest(auth, id) == Err(TokenMissing)
    ensures RentalStatsRequest(auth) == Err(TokenMissing)
  {
  }
}
