/**
 * The admin car list: how a fetched car becomes a row (name, price and
 * status fallbacks), the search, status and brand filters, the brand
 * choices, and the add/edit dialog routing.
 */
module CarsPage {
  import opened Common

  /** A car as the back end sends it, with the fields the row reads. */
  datatype RawCar = RawCar(
    mongoId: Option<string>,
    id: Option<string>,
    name: Option<string>,
    brand: string,
    model: Option<string>,
    pricePerDay: Option<real>,
    price: Option<real>,
    isAvailable: Option<bool>,
    location: Option<string>)

  /** One row of the table. */
  datatype CarRow = CarRow(
    id: Option<string>,
    name: string,
    brand: string,
    pricePerDay: Option<real>,
    available: bool,
    status: string,
    location: string)

  /** A template literal's rendering of a possibly undefined text. */
  function Template(s: Option<string>): string
  {
    if s.Some? then s.value else "undefined"
  }

  /** `a || b` on optional numbers: 0 and absence fall through. */
  function AmountOr(a: Option<real>, b: Option<real>): (r: Option<real>)
    ensures a.Some? && a.value != 0.0 ==> r == a
    ensures !(a.Some? && a.value != 0.0) ==> r == b
  {
    if a.Some? && a.value != 0.0 then a else b
  }

  function OptionOr(a: Option<string>, b: Option<string>): Option<string>
  {
    if Truthy(a) then a else b
  }

  /** The row of a fetched car. */
  function ToRow(c: RawCar): (r: CarRow)
    ensures r.status == "available" <==> c.isAvailable != Some(false)
    ensures r.status == "unavailable" <==> c.isAvailable == Some(false)
    ensures r.available <==> r.status == "available"
    ensures Truthy(c.name) ==> r.name == c.name.value
    ensures !Truthy(c.name) ==> r.name == c.brand + " " + Template(c.model)
    ensures r.pricePerDay == AmountOr(c.pricePerDay, c.price)
    ensures r.brand == c.brand
    ensures r.id == (if Truthy(c.mongoId) then c.mongoId else c.id)
    ensures Truthy(c.location) ==> r.location == c.location.value
    ensures !Truthy(c.location) ==> r.location == "Main Branch"
  {
    CarRow(
      OptionOr(c.mongoId, c.id),
      OrElse(c.name, c.brand + " " + Template(c.model)),
      c.brand,
      AmountOr(c.pricePerDay, c.price),
      c.isAvailable.GetOr(true),
      if c.isAvailable.Some? then (if c.isAvailable.value then "available" else "unavailable") else "available",
      OrElse(c.location, "Main Branch"))
  }

  function ToRows(cars: seq<RawCar>): (r: seq<CarRow>)
    ensures |r| == |cars|
    ensures forall i :: 0 <= i < |cars| ==> r[i] == ToRow(cars[i])
  {
    seq(|cars|, i requires 0 <= i < |cars| => ToRow(cars[i]))
  }

  /** The choices of the status picker. */
  const StatusChoices := ["all", "available", "rented", "maintenance", "out_of_service"]

  predicate MatchesSearch(r: CarRow, term: string)
  {
    term == "" || ContainsIgnoringCase(r.name, term) || ContainsIgnoringCase(r.brand, term)
  }

  predicate MatchesStatus(r: CarRow, statusFilter: string)
  {
    statusFilter == "all" || r.status == statusFilter
  }

  predicate MatchesBrand(r: CarRow, brandFilter: string)
  {
    brandFilter == "all" || Lower(r.brand) == Lower(brandFilter)
  }

  predicate Kept(r: CarRow, term: string, statusFilter: string, brandFilter: string)
  {
    MatchesSearch(r, term) && MatchesStatus(r, statusFilter) && MatchesBrand(r, brandFilter)
  }

  function FilterCars(rows: seq<CarRow>, term: string, statusFilter: string, brandFilter: string): (r: seq<CarRow>)
    ensures IsSubsequence(r, rows)
    ensures forall x :: x in r <==> x in rows && Kept(x, term, statusFilter, brandFilter)
  {
    Filter(rows, x => Kept(x, term, statusFilter, brandFilter))
  }

  /** A row's status is only ever "available" or "unavailable". */
  lemma {:induction false} RowStatusIsTwoValued(cars: seq<RawCar>)
    ensures forall r :: r in ToRows(cars) ==> r.status == "available" || r.status == "unavailable"
  {
    forall r | r in ToRows(cars)
      ensures r.status == "available" || r.status == "unavailable"
    {
      var i :| 0 <= i < |cars| && ToRows(cars)[i] == r;
    }
  }

  /** So the picker's "rented", "maintenance" and "out of service" choices always show an empty table. */
  lemma {:induction false} UnreachableStatusesShowNothing(cars: seq<RawCar>, term: string, statusFilter: string, brandFilter: string)
    requires statusFilter == "rented" || statusFilter == "maintenance" || statusFilter == "out_of_service"
    ensures FilterCars(ToRows(cars), term, statusFilter, brandFilter) == []
  {
    RowStatusIsTwoValued(cars);
    var r := FilterCars(ToRows(cars), term, statusFilter, brandFilter);
    assert forall x :: x in r ==> x in ToRows(cars) && !MatchesStatus(x, statusFilter);
    assert multiset(r) == multiset{};
  }

  /** With the filters cleared every row is shown. */
  lemma {:induction false} ClearedFiltersKeepAll(rows: seq<CarRow>)
    ensures FilterCars(rows, "", "all", "all") == rows
  {
    if rows != [] {
      ClearedFiltersKeepAll(rows[1..]);
      assert rows == [rows[0]] + rows[1..];
    }
  }

  /** The brand of each row, in order. */
  function RowBrands(rows: seq<CarRow>): (r: seq<string>)
    ensures |r| == |rows|
    ensures forall i :: 0 <= i < |rows| ==> r[i] == rows[i].brand
  {
    seq(|rows|, i requires 0 <= i < |rows| => rows[i].brand)
  }

  /** The brand picker's choices: each brand of the list, once, in the order the rows first show it. */
  function Brands(rows: seq<CarRow>): (r: seq<string>)
    ensures NoDuplicates(r)
    ensures forall b :: b in r <==> exists i :: 0 <= i < |rows| && rows[i].brand == b
    ensures InFirstSeenOrder(r, RowBrands(rows))
  {
    var all := RowBrands(rows);
    assert forall b :: b in all <==> exists i :: 0 <= i < |rows| && rows[i].brand == b by {
      forall b | b in all
        ensures exists i :: 0 <= i < |rows| && rows[i].brand == b
      {
        var i :| 0 <= i < |all| && all[i] == b;
      }
      forall i | 0 <= i < |rows|
        ensures rows[i].brand in all
      {
        assert all[i] == rows[i].brand;
      }
    }
    Unique(all)
  }

  /** What the car dialog's submit does. */
  datatype SubmitAction = CreateCar | UpdateCar(carId: string) | Ignored

  class Page {
    var searchTerm: string
    var statusFilter: string
    var brandFilter: string
    var isFormOpen: bool
    var isEditing: bool
    var selectedCar: Option<CarRow>

    constructor()
      ensures searchTerm == "" && statusFilter == "all" && brandFilter == "all"
      ensures !isFormOpen && !isEditing && selectedCar.None?
    {
      searchTerm := "";
      statusFilter := "all";
      brandFilter := "all";
      isFormOpen := false;
      isEditing := false;
      selectedCar := None;
    }

    method ChangeFilters(term: string, status: string, brand: string)
      modifies this
      ensures searchTerm == term && statusFilter == status && brandFilter == brand
      ensures isFormOpen == old(isFormOpen) && isEditing == old(isEditing) && selectedCar == old(selectedCar)
    {
      searchTerm := term;
      statusFilter := status;
      brandFilter := brand;
    }

    /** "Clear Filters": after it every row is shown. */
    method ClearFilters()
      modifies this
      ensures searchTerm == "" && statusFilter == "all" && brandFilter == "all"
      ensures forall rows :: FilterCars(rows, searchTerm, statusFilter, brandFilter) == rows
      ensures isFormOpen == old(isFormOpen) && isEditing == old(isEditing) && selectedCar == old(selectedCar)
    {
      searchTerm := "";
      statusFilter := "all";
      brandFilter := "all";
      forall rows: seq<CarRow> ensures FilterCars(rows, "", "all", "all") == rows {
        ClearedFiltersKeepAll(rows);
      }
    }

    method OpenAddForm()
      modifies this
      ensures isFormOpen && !isEditing && selectedCar.None?
      ensures searchTerm == old(searchTerm) && statusFilter == old(statusFilter) && brandFilter == old(brandFilter)
    {
      selectedCar := None;
      isEditing := false;
      isFormOpen := true;
    }

    method OpenEditForm(car: CarRow)
      modifies this
      ensures isFormOpen && isEditing && selectedCar == Some(car)
      ensures searchTerm == old(searchTerm) && statusFilter == old(statusFilter) && brandFilter == old(brandFilter)
    {
      selectedCar := Some(car);
      isEditing := true;
      isFormOpen := true;
    }

    /** Submitting the dialog: create when adding; update the selected car when editing, if it has an id. */
    function SubmitFor(): (a: SubmitAction)
      reads this
      ensures a.CreateCar? <==> !isEditing
      ensures a.UpdateCar? ==> selectedCar.Some? && selectedCar.value.id == Some(a.carId) && a.carId != ""
    {
      if !isEditing then CreateCar
      else if selectedCar.Some? && Truthy(selectedCar.value.id) then UpdateCar(selectedCar.value.id.value)
      else Ignored
    }
  }
}
