/**
 * The branch dialog: city picker with built-in coordinates, free
 * coordinate inputs, the map preview condition, and (re)initialisation
 * from the branch being edited.
 */
module BranchForm {
  import opened Common

  /** A number input's value after `parseFloat`: a number or NaN. */
  datatype Coordinate = Num(value: real) | NaN

  /** The GeoJSON point, longitude first. */
  datatype FormLocation = FormLocation(kind: string, longitude: Coordinate, latitude: Coordinate)

  datatype BranchData = BranchData(name: string, address: string, city: string, country: string, location: FormLocation)

  const Origin: FormLocation := FormLocation("Point", Num(0.0), Num(0.0))
  const EmptyBranch: BranchData := BranchData("", "", "", "", Origin)

  /** The built-in cities and their (longitude, latitude), in declaration order. */
  const CityTable: seq<(string, real, real)> := [
    ("New York", -74.0059, 40.7128),
    ("Los Angeles", -118.2437, 34.0522),
    ("London", -0.1276, 51.5074),
    ("Paris", 2.3522, 48.8566),
    ("Tokyo", 139.6917, 35.6895),
    ("Dubai", 55.2708, 25.1972),
    ("Cairo", 31.2357, 30.0444),
    ("Miami", -80.1918, 25.7617),
    ("Chicago", -87.6298, 41.8781),
    ("Toronto", -79.3832, 43.6532)]

  /** The city picker's options: the table's names, in order. */
  function CityOptions(): (r: seq<string>)
    ensures |r| == |CityTable|
    ensures forall i :: 0 <= i < |r| ==> r[i] == CityTable[i].0
  {
    seq(|CityTable|, i requires 0 <= i < |CityTable| => CityTable[i].0)
  }

  /** The table entry for a city, if listed. */
  function Lookup(table: seq<(string, real, real)>, city: string): (r: Option<(real, real)>)
    ensures r.None? <==> forall i :: 0 <= i < |table| ==> table[i].0 != city
    ensures r.Some? ==> exists i :: 0 <= i < |table| && table[i] == (city, r.value.0, r.value.1)
  {
    if table == [] then None
    else if table[0].0 == city then Some((table[0].1, table[0].2))
    else
      var rest := Lookup(table[1..], city);
      if rest.Some? then
        var i :| 0 <= i < |table[1..]| && table[1..][i] == (city, rest.value.0, rest.value.1);
        assert table[i + 1] == (city, rest.value.0, rest.value.1);
        rest
      else
        assert forall i :: 1 <= i < |table| ==> table[i] == table[1..][i - 1];
        rest
  }

  /** The coordinates picking `city` writes: the table's entry, or the origin. */
  function CityLocation(previous: FormLocation, city: string): (l: FormLocation)
    ensures l.kind == previous.kind
    ensures (forall i :: 0 <= i < |CityTable| ==> CityTable[i].0 != city) ==>
      l.longitude == Num(0.0) && l.latitude == Num(0.0)
    ensures Lookup(CityTable, city).Some? ==>
      l.longitude == Num(Lookup(CityTable, city).value.0) && l.latitude == Num(Lookup(CityTable, city).value.1)
  {
    match Lookup(CityTable, city)
    case None => previous.(longitude := Num(0.0), latitude := Num(0.0))
    case Some(c) => previous.(longitude := Num(c.0), latitude := Num(c.1))
  }

  /** The preview is shown when neither coordinate equals 0 (NaN included). */
  predicate ShowsPreview(l: FormLocation)
  {
    l.longitude != Num(0.0) && l.latitude != Num(0.0)
  }

  predicate OffAxes(table: seq<(string, real, real)>)
  {
    forall k :: 0 <= k < |table| ==> table[k].1 != 0.0 && table[k].2 != 0.0
  }

  lemma CityTableOffAxes()
    ensures OffAxes(CityTable)
  {
  }

  /** Every city offered by the picker has coordinates off both axes, so picking it shows the map. */
  lemma {:induction false} ListedCitiesShowPreview(previous: FormLocation, city: string)
    requires city in CityOptions()
    ensures ShowsPreview(CityLocation(previous, city))
  {
    var r := Lookup(CityTable, city);
    var i :| 0 <= i < |CityOptions()| && CityOptions()[i] == city;
    assert CityTable[i].0 == city;
    var j :| 0 <= j < |CityTable| && CityTable[j] == (city, r.value.0, r.value.1);
    CityTableOffAxes();
    assert r.value.0 != 0.0 && r.value.1 != 0.0;
  }

  /** The branch-country options as written, with "Germunknown" in place of Germany. */
  const CountryOptionsAsWritten: seq<string> :=
    ["USA", "UK", "Japan", "UAE", "Egypt", "Canada", "France", "Germunknown", "Australia", "Brazil"]

  /** The branch-country options with the eighth entry spelled as intended. */
  const CountryOptions: seq<string> :=
    ["USA", "UK", "Japan", "UAE", "Egypt", "Canada", "France", "Germany", "Australia", "Brazil"]

  lemma GermanyNotOfferedAsWritten()
    ensures "Germany" !in CountryOptionsAsWritten
  {
    assert "Germany"[4] != "Germunknown"[4];
    assert forall c :: c in CountryOptionsAsWritten && c != "Germunknown" ==> c[0] != 'G';
  }

  lemma GermanyOffered()
    ensures "Germany" in CountryOptions && "Germunknown" !in CountryOptions
    ensures forall i :: 0 <= i < |CountryOptions| && i != 7 ==> CountryOptions[i] == CountryOptionsAsWritten[i]
  {
    assert CountryOptions[7] == "Germany";
    assert "Germany"[4] != "Germunknown"[4];
    assert forall c :: c in CountryOptions && c != "Germany" ==> c[0] != 'G';
  }

  /** The fields of the branch being edited; missing ones are `None`. */
  datatype BranchRecord = BranchRecord(name: Option<string>, address: Option<string>, city: Option<string>,
                                       country: Option<string>, location: Option<FormLocation>)

  /** The values the effect loads: the edited branch's fields with "" and the origin as fallbacks. */
  function InitialData(branch: Option<BranchRecord>): (d: BranchData)
    ensures branch.None? ==> d == EmptyBranch
    ensures branch.Some? ==> d.name == OrElse(branch.value.name, "") && d.city == OrElse(branch.value.city, "")
    ensures branch.Some? ==> d.address == OrElse(branch.value.address, "") && d.country == OrElse(branch.value.country, "")
    ensures branch.Some? ==> d.location == branch.value.location.GetOr(Origin)
  {
    match branch
    case None => EmptyBranch
    case Some(b) =>
      BranchData(OrElse(b.name, ""), OrElse(b.address, ""), OrElse(b.city, ""), OrElse(b.country, ""),
                 b.location.GetOr(Origin))
  }

  datatype TextField = Name | Address | Country

  datatype Axis = Longitude | Latitude

  class Dialog {
    var data: BranchData
    var isLoading: bool
    var closeRequests: nat

    constructor()
      ensures data == EmptyBranch && !isLoading && closeRequests == 0
    {
      data := EmptyBranch;
      isLoading := false;
      closeRequests := 0;
    }

    /** The effect on `branch` and `isOpen`. */
    method Initialize(branch: Option<BranchRecord>)
      modifies this
      ensures data == InitialData(branch)
      ensures isLoading == old(isLoading) && closeRequests == old(closeRequests)
    {
      data := InitialData(branch);
    }

    method HandleInputChange(f: TextField, v: string)
      modifies this
      ensures data == (match f
                       case Name => old(data).(name := v)
                       case Address => old(data).(address := v)
                       case Country => old(data).(country := v))
      ensures isLoading == old(isLoading) && closeRequests == old(closeRequests)
    {
      match f {
        case Name => data := data.(name := v);
        case Address => data := data.(address := v);
        case Country => data := data.(country := v);
      }
    }

    /** Picking a city also moves the point to that city. */
    method HandleCityChange(city: string)
      modifies this
      ensures data == old(data).(city := city, location := CityLocation(old(data).location, city))
      ensures isLoading == old(isLoading) && closeRequests == old(closeRequests)
    {
      data := data.(city := city, location := CityLocation(data.location, city));
    }

    /** Typing a coordinate replaces that one and keeps the other. */
    method HandleLocationChange(axis: Axis, value: Coordinate)
      modifies this
      ensures axis == Longitude ==> data == old(data).(location := old(data).location.(longitude := value))
      ensures axis == Latitude ==> data == old(data).(location := old(data).location.(latitude := value))
      ensures isLoading == old(isLoading) && closeRequests == old(closeRequests)
    {
      if axis == Longitude {
        data := data.(location := data.location.(longitude := value));
      } else {
        data := data.(location := data.location.(latitude := value));
      }
    }

    /** The inputs marked required are filled; the browser blocks the submission otherwise. */
    predicate RequiredFilled()
      reads this
    {
      data.name != "" && data.city != "" && data.country != "" && data.address != ""
    }

    /** Submission: hands the data to the parent and closes unless the parent throws. */
    method Submit(parentSucceeds: bool) returns (submitted: bool)
      modifies this
      ensures data == old(data)
      ensures submitted <==> old(RequiredFilled())
      ensures submitted ==> !isLoading
      ensures !submitted ==> isLoading == old(isLoading)
      ensures closeRequests == old(closeRequests) + (if submitted && parentSucceeds then 1 else 0)
    {
      submitted := RequiredFilled();
      if !submitted {
        return;
      }
      isLoading := true;
      if parentSucceeds {
        closeRequests := closeRequests + 1;
      }
      isLoading := false;
    }
  }
}
