/**
 * The home-page search box: brand, two branches and two dates; the search
 * button is enabled only for a complete choice with distinct branches and
 * leads to the vehicles page filtered by brand.
 */
module BookingForm {
  import opened Common
  import opened ApiClient
  import opened CarsApi

  /** The vehicles-page URL for a chosen brand. */
  function SearchUrl(brand: string): (u: Url)
    ensures u.path == "/vehicles"
    ensures u.query.None? <==> brand == "" || brand == "all"
    ensures u.query.Some? ==> u.query.value == [Param("brand", Text(brand))]
  {
    if brand != "" && brand != "all" then Url("/vehicles", Some([Param("brand", Text(brand))]))
    else Url("/vehicles", None)
  }

  class Search {
    var selectedBrand: string
    var rentalLocation: string
    var returnLocation: string
    /** The picked days; `None` until the calendar is used. */
    var rentalDate: Option<int>
    var returnDate: Option<int>
    /** URLs pushed onto the router, oldest first. */
    var pushes: seq<Url>

    constructor()
      ensures selectedBrand == "" && rentalLocation == "" && returnLocation == ""
      ensures rentalDate.None? && returnDate.None? && pushes == []
    {
      selectedBrand := "";
      rentalLocation := "";
      returnLocation := "";
      rentalDate := None;
      returnDate := None;
      pushes := [];
    }

    /** Every field chosen and the two branches distinct. */
    predicate IsFormValid()
      reads this
      ensures rentalLocation == returnLocation ==> !IsFormValid()
      ensures selectedBrand == "" || rentalDate.None? || returnDate.None? ==> !IsFormValid()
    {
      selectedBrand != "" && rentalLocation != "" && returnLocation != ""
      && rentalDate.Some? && returnDate.Some? && rentalLocation != returnLocation
    }

    /** Whether the "must be different" message shows under the return picker. */
    function LocationError(): (shown: bool)
      reads this
      ensures shown <==> rentalLocation != "" && rentalLocation == returnLocation
      ensures shown ==> !IsFormValid()
    {
      rentalLocation != "" && returnLocation != "" && rentalLocation == returnLocation
    }

    method SetBrand(brand: string)
      modifies this
      ensures selectedBrand == brand && pushes == old(pushes)
      ensures rentalLocation == old(rentalLocation) && returnLocation == old(returnLocation)
      ensures rentalDate == old(rentalDate) && returnDate == old(returnDate)
    {
      selectedBrand := brand;
    }

    method SetLocations(rental: string, dropOff: string)
      modifies this
      ensures rentalLocation == rental && returnLocation == dropOff
      ensures selectedBrand == old(selectedBrand) && pushes == old(pushes)
      ensures rentalDate == old(rentalDate) && returnDate == old(returnDate)
    {
      rentalLocation := rental;
      returnLocation := dropOff;
    }

    method SetDates(rental: Option<int>, dropOff: Option<int>)
      modifies this
      ensures rentalDate == rental && returnDate == dropOff
      ensures selectedBrand == old(selectedBrand) && pushes == old(pushes)
      ensures rentalLocation == old(rentalLocation) && returnLocation == old(returnLocation)
    {
      rentalDate := rental;
      returnDate := dropOff;
    }

    /**
     * A click on the search button: ignored while the button is disabled,
     * otherwise one navigation whose URL carries only the brand.
     */
    method ClickSearch()
      modifies this
      ensures !old(IsFormValid()) ==> pushes == old(pushes)
      ensures old(IsFormValid()) ==> pushes == old(pushes) + [SearchUrl(selectedBrand)]
      ensures selectedBrand == old(selectedBrand) && rentalLocation == old(rentalLocation)
      ensures returnLocation == old(returnLocation)
      ensures rentalDate == old(rentalDate) && returnDate == old(returnDate)
    {
      if IsFormValid() {
        pushes := pushes + [SearchUrl(selectedBrand)];
      }
    }
  }

  /**
   * Choosing the same branch for pickup and return keeps the search
   * disabled, whatever else is chosen.
   */
  method SameBranchBlocksSearch(brand: string, branch: string, rental: Option<int>, dropOff: Option<int>)
    returns (pushed: seq<Url>)
    ensures pushed == []
  {
    var s := new Search();
    s.SetBrand(brand);
    s.SetLocations(branch, branch);
    s.SetDates(rental, dropOff);
    s.ClickSearch();
    pushed := s.pushes;
  }
}
