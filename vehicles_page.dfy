/**
 * The public vehicle list: filters imported from the page URL, the choice
 * between the full list and the search query, the filter pickers, and
 * clearing.
 */
module VehiclesPage {
  import opened Common
  import opened ApiClient
  import opened CarsApi
  import opened BookingForm

  /** A price filter: a number, or the NaN that `parseInt` gives for text without digits. */
  datatype PriceInput = Parsed(value: int) | NotANumber

  /** The page's `searchParams` state; `None` is an undefined entry. */
  datatype VehicleFilters = VehicleFilters(
    brand: Option<string>,
    gearBox: Option<string>,
    fuel: Option<string>,
    minPrice: Option<PriceInput>,
    maxPrice: Option<PriceInput>)

  const NoFilters := VehicleFilters(None, None, None, None, None)

  /** `parseInt`, supplied by the caller: `None` is NaN. */
  type ParseInt = string -> Option<int>

  function PriceOf(text: string, parseInt: ParseInt): PriceInput
  {
    if parseInt(text).Some? then Parsed(parseInt(text).value) else NotANumber
  }

  /** `hasSearchParams` (and `hasActiveFilters`): some entry is defined. */
  predicate HasSearchParams(f: VehicleFilters)
  {
    f.brand.Some? || f.gearBox.Some? || f.fuel.Some? || f.minPrice.Some? || f.maxPrice.Some?
  }

  /** `URLSearchParams.get`: the first value under `key`, if any. */
  function UrlGet(query: seq<(string, string)>, key: string): (r: Option<string>)
    ensures r.Some? ==> (key, r.value) in query
    ensures r.None? <==> forall i :: 0 <= i < |query| ==> query[i].0 != key
  {
    if query == [] then None
    else if query[0].0 == key then Some(query[0].1)
    else UrlGet(query[1..], key)
  }

  /** `if (value) initialParams.key = value`. */
  function TextIfSet(value: Option<string>): (r: Option<string>)
    ensures r.Some? <==> Truthy(value)
    ensures r.Some? ==> r == value
  {
    if Truthy(value) then value else None
  }

  function PriceIfSet(value: Option<string>, parseInt: ParseInt): (r: Option<PriceInput>)
    ensures r.Some? <==> Truthy(value)
    ensures r.Some? ==> r.value == PriceOf(value.value, parseInt)
  {
    if Truthy(value) then Some(PriceOf(value.value, parseInt)) else None
  }

  /** The filters the URL carries: each of the five keys that has a non-empty value. */
  function ImportedFilters(query: seq<(string, string)>, parseInt: ParseInt): (f: VehicleFilters)
    ensures f.brand.Some? <==> Truthy(UrlGet(query, "brand"))
    ensures f.brand.Some? ==> f.brand == UrlGet(query, "brand")
    ensures f.gearBox.Some? <==> Truthy(UrlGet(query, "gearBox"))
    ensures f.gearBox.Some? ==> f.gearBox == UrlGet(query, "gearBox")
    ensures f.fuel.Some? <==> Truthy(UrlGet(query, "fuel"))
    ensures f.fuel.Some? ==> f.fuel == UrlGet(query, "fuel")
    ensures f.minPrice.Some? <==> Truthy(UrlGet(query, "minPrice"))
    ensures f.minPrice.Some? ==> f.minPrice.value == PriceOf(UrlGet(query, "minPrice").value, parseInt)
    ensures f.maxPrice.Some? <==> Truthy(UrlGet(query, "maxPrice"))
    ensures f.maxPrice.Some? ==> f.maxPrice.value == PriceOf(UrlGet(query, "maxPrice").value, parseInt)
  {
    VehicleFilters(
      TextIfSet(UrlGet(query, "brand")),
      TextIfSet(UrlGet(query, "gearBox")),
      TextIfSet(UrlGet(query, "fuel")),
      PriceIfSet(UrlGet(query, "minPrice"), parseInt),
      PriceIfSet(UrlGet(query, "maxPrice"), parseInt))
  }

  /** A price as `searchCars` reads it: NaN, like 0, is falsy and is not sent. */
  function PriceParam(p: Option<PriceInput>): (r: Option<int>)
    ensures p.None? || p.value.NotANumber? ==> r.None?
    ensures p.Some? && p.value.Parsed? ==> r == Some(p.value.value)
  {
    if p.Some? && p.value.Parsed? then Some(p.value.value) else None
  }

  /** The argument of `searchCars`. */
  function SearchParamsOf(f: VehicleFilters): (p: CarSearchParams)
    ensures p.brand == f.brand && p.gearBox == f.gearBox && p.fuel == f.fuel
    ensures f.minPrice.None? || f.minPrice.value.NotANumber? ==> p.minPrice.None?
    ensures f.minPrice.Some? && f.minPrice.value.Parsed? ==> p.minPrice == Some(f.minPrice.value.value)
    ensures f.maxPrice.None? || f.maxPrice.value.NotANumber? ==> p.maxPrice.None?
    ensures f.maxPrice.Some? && f.maxPrice.value.Parsed? ==> p.maxPrice == Some(f.maxPrice.value.value)
  {
    CarSearchParams(f.brand, f.gearBox, f.fuel, PriceParam(f.minPrice), PriceParam(f.maxPrice))
  }

  /** The list shown: the search results when some filter is defined, the full list otherwise. */
  function ShownCars<T>(f: VehicleFilters, searchData: T, allData: T): (r: T)
    ensures HasSearchParams(f) ==> r == searchData
    ensures !HasSearchParams(f) ==> r == allData
  {
    if HasSearchParams(f) then searchData else allData
  }

  /**
   * A defined filter does not always reach the server: a minimum price of
   * 0 makes the page use the search query, whose URL has no parameter.
   */
  lemma {:induction false} ZeroMinimumSearchesWithoutParameters()
    ensures HasSearchParams(VehicleFilters(None, None, None, Some(Parsed(0)), None))
    ensures CarSearchUrl(SearchParamsOf(VehicleFilters(None, None, None, Some(Parsed(0)), None))).query.None?
  {
    var p := SearchParamsOf(VehicleFilters(None, None, None, Some(Parsed(0)), None));
    assert !Truthy(p.brand) && !Truthy(p.gearBox) && !Truthy(p.fuel);
  }

  /** A picker's choice: "all" undefines the entry. */
  function Choice(value: string): (r: Option<string>)
    ensures r.None? <==> value == "all"
    ensures r.Some? ==> r.value == value
  {
    if value == "all" then None else Some(value)
  }

  /** A price input: an empty box undefines the entry. */
  function PriceTyped(text: string, parseInt: ParseInt): (r: Option<PriceInput>)
    ensures r.None? <==> text == ""
  {
    if text != "" then Some(PriceOf(text, parseInt)) else None
  }

  /** The character of a decimal digit. */
  function DigitChar(d: int): char
    requires 0 <= d < 10
  {
    ('0' as int + d) as char
  }

  predicate AllDigits(s: string)
  {
    forall i :: 0 <= i < |s| ==> '0' <= s[i] <= '9'
  }

  /** `n.toString()` for a non-negative integer: its decimal digits, most significant first. */
  function NatText(n: nat): (s: string)
    ensures |s| > 0 && AllDigits(s)
    decreases n
  {
    if n < 10 then [DigitChar(n)] else NatText(n / 10) + [DigitChar(n % 10)]
  }

  /** `n.toString()` for any integer: a minus sign before the digits of a negative one. */
  function DecimalText(n: int): string
  {
    if n < 0 then "-" + NatText(-n) else NatText(n)
  }

  /** The value of a string of decimal digits. */
  function DigitsValue(s: string): nat
    requires AllDigits(s)
  {
    if s == [] then 0 else DigitsValue(s[..|s| - 1]) * 10 + (s[|s| - 1] as int - '0' as int)
  }

  /** Reading the digits back gives the number: `toString` loses nothing. */
  lemma {:induction false} NatTextRoundTrip(n: nat)
    ensures DigitsValue(NatText(n)) == n
    decreases n
  {
    if n >= 10 {
      NatTextRoundTrip(n / 10);
      var s := NatText(n);
      assert s[..|s| - 1] == NatText(n / 10);
    }
  }

  /** The URL's own pairs for a query: each value as the text `toString` gives. */
  function UrlPairs(query: seq<Param>): (r: seq<(string, string)>)
    ensures |r| == |query|
    ensures forall i :: 0 <= i < |query| ==> r[i].0 == query[i].key
    ensures forall i :: 0 <= i < |query| && query[i].value.Text? ==> r[i].1 == query[i].value.text
    ensures forall i :: 0 <= i < |query| && query[i].value.Number? ==> r[i].1 == DecimalText(query[i].value.number)
  {
    if query == [] then []
    else
      var v := match query[0].value
        case Text(t) => t
        case Number(n) => DecimalText(n)
        case Flag(b) => if b then "true" else "false";
      [(query[0].key, v)] + UrlPairs(query[1..])
  }

  /**
   * The landing-page search lands here with its brand as the only filter,
   * and the panel opens; without a brand nothing is imported.
   */
  lemma {:induction false} BookingSearchRoundTrip(brand: string, parseInt: ParseInt)
    ensures var u := BookingForm.SearchUrl(brand);
            var f := ImportedFilters(UrlPairs(u.query.GetOr([])), parseInt);
            (u.query.Some? ==> f == VehicleFilters(Some(brand), None, None, None, None))
            && (u.query.None? ==> !HasSearchParams(f))
  {
    var u := BookingForm.SearchUrl(brand);
    var pairs := UrlPairs(u.query.GetOr([]));
    if u.query.Some? {
      assert pairs == [("brand", brand)];
      assert UrlGet(pairs, "brand") == Some(brand);
      assert UrlGet(pairs, "gearBox").None? && UrlGet(pairs, "fuel").None?;
      assert UrlGet(pairs, "minPrice").None? && UrlGet(pairs, "maxPrice").None?;
    } else {
      assert pairs == [];
    }
  }

  class Page {
    var searchParams: VehicleFilters
    var isFilterOpen: bool

    constructor()
      ensures searchParams == NoFilters && !isFilterOpen
    {
      searchParams := NoFilters;
      isFilterOpen := false;
    }

    /** The URL effect: the imported filters replace the state and open the panel, if there are any. */
    method ImportFromUrl(query: seq<(string, string)>, parseInt: ParseInt)
      modifies this
      ensures var f := ImportedFilters(query, parseInt);
              if HasSearchParams(f) then searchParams == f && isFilterOpen
              else searchParams == old(searchParams) && isFilterOpen == old(isFilterOpen)
    {
      var initialParams := ImportedFilters(query, parseInt);
      if HasSearchParams(initialParams) {
        searchParams := initialParams;
        isFilterOpen := true;
      }
    }

    method ChooseBrand(value: string)
      modifies this
      ensures searchParams == old(searchParams).(brand := Choice(value)) && isFilterOpen == old(isFilterOpen)
    {
      searchParams := searchParams.(brand := Choice(value));
    }

    method ChooseGearBox(value: string)
      modifies this
      ensures searchParams == old(searchParams).(gearBox := Choice(value)) && isFilterOpen == old(isFilterOpen)
    {
      searchParams := searchParams.(gearBox := Choice(value));
    }

    method ChooseFuel(value: string)
      modifies this
      ensures searchParams == old(searchParams).(fuel := Choice(value)) && isFilterOpen == old(isFilterOpen)
    {
      searchParams := searchParams.(fuel := Choice(value));
    }

    method TypeMinPrice(text: string, parseInt: ParseInt)
      modifies this
      ensures searchParams == old(searchParams).(minPrice := PriceTyped(text, parseInt)) && isFilterOpen == old(isFilterOpen)
    {
      searchParams := searchParams.(minPrice := PriceTyped(text, parseInt));
    }

    method TypeMaxPrice(text: string, parseInt: ParseInt)
      modifies this
      ensures searchParams == old(searchParams).(maxPrice := PriceTyped(text, parseInt)) && isFilterOpen == old(isFilterOpen)
    {
      searchParams := searchParams.(maxPrice := PriceTyped(text, parseInt));
    }

    method ToggleFilterPanel()
      modifies this
      ensures isFilterOpen == !old(isFilterOpen) && searchParams == old(searchParams)
    {
      isFilterOpen := !isFilterOpen;
    }

    /** `clearFilters`: no filter is left and the panel closes. */
    method ClearFilters()
      modifies this
      ensures searchParams == NoFilters && !HasSearchParams(searchParams) && !isFilterOpen
    {
      searchParams := NoFilters;
      isFilterOpen := false;
    }
  }
}
