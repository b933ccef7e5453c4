/**
 * Request helpers for cars: the public search query and the multipart form
 * sent to create a car.
 */
module CarsApi {
  import opened Common
  import opened ApiClient

  datatype CarSearchParams = CarSearchParams(
    brand: Option<string>,
    gearBox: Option<string>,
    fuel: Option<string>,
    minPrice: Option<int>,
    maxPrice: Option<int>)

  /** `if (value) params.append(key, value.toString())` for an optional number: 0 is left out. */
  function OptionalNumber(key: string, value: Option<int>): (r: seq<Param>)
    ensures r == [] <==> value.None? || value.value == 0
    ensures r != [] ==> r == [Param(key, Number(value.value))]
  {
    if value.Some? && value.value != 0 then [Param(key, Number(value.value))] else []
  }

  /** The query of `searchCars`: the non-empty texts, then the non-zero prices. */
  function CarSearchQuery(p: CarSearchParams): seq<Param>
  {
    OptionalTexts([("brand", p.brand), ("gearBox", p.gearBox), ("fuel", p.fuel)])
    + OptionalNumber("minPrice", p.minPrice) + OptionalNumber("maxPrice", p.maxPrice)
  }

  lemma CarSearchQueryParts(p: CarSearchParams)
    ensures CarSearchQuery(p) ==
      [] + OptionalText(("brand", p.brand)) + OptionalText(("gearBox", p.gearBox)) + OptionalText(("fuel", p.fuel))
      + OptionalNumber("minPrice", p.minPrice) + OptionalNumber("maxPrice", p.maxPrice)
  {
    var t := [("brand", p.brand), ("gearBox", p.gearBox), ("fuel", p.fuel)];
    assert OptionalTexts(t[2..]) == OptionalText(t[2]) by { assert t[2..][1..] == []; }
    assert OptionalTexts(t[1..]) == OptionalText(t[1]) + OptionalTexts(t[2..]) by { assert t[1..][1..] == t[2..]; }
  }

  method BuildCarSearchQuery(p: CarSearchParams) returns (q: seq<Param>)
    ensures q == CarSearchQuery(p)
  {
    q := [];
    q := q + OptionalText(("brand", p.brand));
    q := q + OptionalText(("gearBox", p.gearBox));
    q := q + OptionalText(("fuel", p.fuel));
    q := q + OptionalNumber("minPrice", p.minPrice);
    q := q + OptionalNumber("maxPrice", p.maxPrice);
    CarSearchQueryParts(p);
  }

  /** A URL below the API base; `query` is None when no "?" is written. */
  datatype Url = Url(path: string, query: Option<seq<Param>>)

  /** The URL of `searchCars`: the "?" and the query only when some parameter was appended. */
  function CarSearchUrl(p: CarSearchParams): (u: Url)
    ensures u.path == "/api/cars/search"
    ensures u.query.None? <==>
              !Truthy(p.brand) && !Truthy(p.gearBox) && !Truthy(p.fuel)
              && (p.minPrice.None? || p.minPrice.value == 0) && (p.maxPrice.None? || p.maxPrice.value == 0)
    ensures u.query.Some? ==> u.query.value == CarSearchQuery(p) && u.query.value != []
  {
    CarSearchQueryParts(p);
    var q := CarSearchQuery(p);
    if q == [] then Url("/api/cars/search", None) else Url("/api/cars/search", Some(q))
  }

  datatype TechnicalSpecs = TechnicalSpecs(
    gearBox: string, fuel: string, doors: int, seats: int, airConditioner: bool, distance: string)

  datatype Equipment = Equipment(abs: bool, airBags: bool, airConditioning: bool, cruiseControl: bool)

  /** An image file chosen in the browser. */
  datatype File = File(name: string)

  /** The argument of `createCar`. */
  datatype CarData = CarData(
    name: string,
    brand: string,
    pricePerDay: real,
    technicalSpecs: TechnicalSpecs,
    equipment: Equipment,
    images: Option<seq<File>>,
    description: Option<string>,
    isAvailable: Option<bool>)

  /** A value appended to a `FormData`; the two objects are sent as their JSON text. */
  datatype FormValue =
    | TextPart(text: string)
    | NumberPart(number: real)
    | SpecsJson(specs: TechnicalSpecs)
    | EquipmentJson(equipment: Equipment)
    | FlagPart(flag: bool)
    | FilePart(file: File)

  datatype FormEntry = FormEntry(key: string, value: FormValue)

  /** The five entries every car form starts with. */
  function CarFormBase(car: CarData): seq<FormEntry>
  {
    [FormEntry("name", TextPart(car.name)), FormEntry("brand", TextPart(car.brand)),
     FormEntry("pricePerDay", NumberPart(car.pricePerDay)),
     FormEntry("technicalSpecs", SpecsJson(car.technicalSpecs)), FormEntry("equipment", EquipmentJson(car.equipment))]
  }

  /** The optional description and availability entries. */
  function CarFormOptional(car: CarData): seq<FormEntry>
  {
    (if Truthy(car.description) then [FormEntry("description", TextPart(car.description.value))] else [])
    + (if car.isAvailable.Some? then [FormEntry("isAvailable", FlagPart(car.isAvailable.value))] else [])
  }

  function ImageEntries(images: seq<File>): (r: seq<FormEntry>)
    ensures |r| == |images|
    ensures forall i :: 0 <= i < |images| ==> r[i] == FormEntry("images", FilePart(images[i]))
  {
    seq(|images|, i requires 0 <= i < |images| => FormEntry("images", FilePart(images[i])))
  }

  /** The complete form of `createCar`. */
  function CarForm(car: CarData): seq<FormEntry>
  {
    CarFormBase(car) + CarFormOptional(car) + ImageEntries(car.images.GetOr([]))
  }

  /** Assembles the form by successive appends, one `images` entry per file. */
  method BuildCarForm(car: CarData) returns (form: seq<FormEntry>)
    ensures form == CarForm(car)
  {
    form := [];
    form := form + [FormEntry("name", TextPart(car.name))];
    form := form + [FormEntry("brand", TextPart(car.brand))];
    form := form + [FormEntry("pricePerDay", NumberPart(car.pricePerDay))];
    form := form + [FormEntry("technicalSpecs", SpecsJson(car.technicalSpecs))];
    form := form + [FormEntry("equipment", EquipmentJson(car.equipment))];
    if Truthy(car.description) {
      form := form + [FormEntry("description", TextPart(car.description.value))];
    }
    if car.isAvailable.Some? {
      form := form + [FormEntry("isAvailable", FlagPart(car.isAvailable.value))];
    }
    assert form == CarFormBase(car) + CarFormOptional(car);
    if car.images.Some? && |car.images.value| > 0 {
      var images := car.images.value;
      ghost var start := form;
      var i := 0;
      while i < |images|
        invariant 0 <= i <= |images|
        invariant form == start + ImageEntries(images[..i])
      {
        form := form + [FormEntry("images", FilePart(images[i]))];
        i := i + 1;
      }
      assert images[..i] == images;
    }
  }

  /** The files sent under `key`, in order. */
  function FilesUnder(form: seq<FormEntry>, key: string): seq<File>
  {
    if form == [] then []
    else
      (if form[0].key == key && form[0].value.FilePart? then [form[0].value.file] else [])
      + FilesUnder(form[1..], key)
  }

  lemma {:induction false} FilesUnderAppend(a: seq<FormEntry>, b: seq<FormEntry>, key: string)
    ensures FilesUnder(a + b, key) == FilesUnder(a, key) + FilesUnder(b, key)
  {
    if a == [] {
      assert a + b == b;
    } else {
      assert (a + b)[1..] == a[1..] + b;
      FilesUnderAppend(a[1..], b, key);
    }
  }

  lemma {:induction false} FilesUnderOtherKeys(form: seq<FormEntry>, key: string)
    requires forall i :: 0 <= i < |form| ==> form[i].key != key
    ensures FilesUnder(form, key) == []
  {
    if form != [] {
      FilesUnderOtherKeys(form[1..], key);
    }
  }

  lemma {:induction false} FilesUnderImages(images: seq<File>)
    ensures FilesUnder(ImageEntries(images), "images") == images
  {
    if images != [] {
      assert ImageEntries(images)[1..] == ImageEntries(images[1..]);
      FilesUnderImages(images[1..]);
    }
  }

  /** The form carries exactly the car's images, in order, under the key "images". */
  lemma CarFormImages(car: CarData)
    ensures FilesUnder(CarForm(car), "images") == car.images.GetOr([])
  {
    var base := CarFormBase(car) + CarFormOptional(car);
    FilesUnderAppend(base, ImageEntries(car.images.GetOr([])), "images");
    FilesUnderImages(car.images.GetOr([]));
    FilesUnderOtherKeys(base, "images");
  }

  /** The fixed fields always come first; the optional ones appear exactly when set. */
  lemma CarFormFields(car: CarData)
    ensures |CarForm(car)| >= 5
    ensures Keys5(CarForm(car)) == ["name", "brand", "pricePerDay", "technicalSpecs", "equipment"]
    ensures FormEntry("description", TextPart(OrElse(car.description, ""))) in CarForm(car) <==> Truthy(car.description)
    ensures car.isAvailable == Some(false) ==> FormEntry("isAvailable", FlagPart(false)) in CarForm(car)
  {
    var f := CarForm(car);
    if Truthy(car.description) {
      assert f[5] == FormEntry("description", TextPart(car.description.value));
    }
    if car.isAvailable == Some(false) {
      var k := if Truthy(car.description) then 6 else 5;
      assert f[k] == FormEntry("isAvailable", FlagPart(false));
    }
  }

  function Keys5(form: seq<FormEntry>): seq<string>
    requires |form| >= 5
  {
    [form[0].key, form[1].key, form[2].key, form[3].key, form[4].key]
  }
}
