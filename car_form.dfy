/**
 * The car dialog of the administration pages: loading an existing car,
 * the image picker limited to three files with one preview each, and the
 * submission of the collected data.
 */
module CarForm {
  import opened Common
  import opened CarsApi

  const MaxImages := 3

  /** A number input's value: `None` when the parse yields NaN. */
  datatype SpecsValues = SpecsValues(gearBox: string, fuel: string, doors: Option<int>, seats: Option<int>,
                                     airConditioner: bool, distance: string)

  datatype CarValues = CarValues(
    name: string,
    brand: string,
    pricePerDay: Option<real>,
    specs: SpecsValues,
    equipment: Equipment,
    images: seq<File>,
    description: string,
    isAvailable: bool)

  const DefaultSpecs: SpecsValues := SpecsValues("Automatic", "Petrol", Some(4), Some(5), true, "Unlimited")
  const AllEquipment: Equipment := Equipment(true, true, true, true)
  const EmptyCar: CarValues := CarValues("", "", Some(0.0), DefaultSpecs, AllEquipment, [], "", true)

  /** The fields of the car being edited, as far as the dialog reads them. */
  datatype SpecsRecord = SpecsRecord(gearBox: Option<string>, fuel: Option<string>, doors: Option<int>,
                                     seats: Option<int>, airConditioner: Option<bool>, distance: Option<string>)
  datatype EquipmentRecord = EquipmentRecord(abs: Option<bool>, airBags: Option<bool>,
                                             airConditioning: Option<bool>, cruiseControl: Option<bool>)
  datatype CarRecord = CarRecord(
    name: Option<string>,
    brand: Option<string>,
    pricePerDay: Option<real>,
    price: Option<real>,
    specs: Option<SpecsRecord>,
    gearBox: Option<string>,
    fuel: Option<string>,
    seats: Option<int>,
    equipment: Option<EquipmentRecord>,
    description: Option<string>,
    isAvailable: Option<bool>)

  /** `a || b` on optional numbers: 0 and absence fall through. */
  function NumberOr<T(==)>(a: Option<T>, zero: T, fallback: T): T
  {
    if a.Some? && a.value != zero then a.value else fallback
  }

  /** `flag || true` as written: always true. */
  function FlagOrTrueAsWritten(flag: Option<bool>): bool
  {
    (flag.Some? && flag.value) || true
  }

  /** As written, a car stored without a feature is loaded as having it. */
  lemma FalseFlagLoadsTrueAsWritten()
    ensures FlagOrTrueAsWritten(Some(false)) == true
    ensures forall f :: FlagOrTrueAsWritten(f)
  {
  }

  /** The stored flag, or true when it is absent (`flag ?? true`). */
  function FlagOrTrue(flag: Option<bool>): (b: bool)
    ensures flag.Some? ==> b == flag.value
    ensures flag.None? ==> b
  {
    flag.GetOr(true)
  }

  /** The specs the effect loads, each stored flag read through `flag`. */
  function SpecsFrom(car: CarRecord, flag: Option<bool> -> bool): SpecsValues
  {
    var s := car.specs.GetOr(SpecsRecord(None, None, None, None, None, None));
    SpecsValues(
      OrElse(s.gearBox, OrElse(car.gearBox, "Automatic")),
      OrElse(s.fuel, OrElse(car.fuel, "Petrol")),
      Some(NumberOr(s.doors, 0, 4)),
      Some(NumberOr(s.seats, 0, NumberOr(car.seats, 0, 5))),
      flag(s.airConditioner),
      OrElse(s.distance, "Unlimited"))
  }

  /** The equipment the effect loads, each stored flag read through `flag`. */
  function EquipmentFrom(car: CarRecord, flag: Option<bool> -> bool): Equipment
  {
    var e := car.equipment.GetOr(EquipmentRecord(None, None, None, None));
    Equipment(flag(e.abs), flag(e.airBags), flag(e.airConditioning), flag(e.cruiseControl))
  }

  /** The values loaded for `car` when each stored flag is read through `flag`. */
  function LoadedValues(car: Option<CarRecord>, flag: Option<bool> -> bool): CarValues
  {
    match car
    case None => EmptyCar
    case Some(c) =>
      CarValues(OrElse(c.name, ""), OrElse(c.brand, ""),
        Some(NumberOr(c.pricePerDay, 0.0, NumberOr(c.price, 0.0, 0.0))),
        SpecsFrom(c, flag), EquipmentFrom(c, flag), [], OrElse(c.description, ""), c.isAvailable.GetOr(true))
  }

  /**
   * The values the effect loads, as written: the edited car with fallbacks,
   * or the blank car; never any image; and, through `flag || true`, every
   * feature box ticked whatever the car has stored.
   */
  function InitialValues(car: Option<CarRecord>): (v: CarValues)
    ensures car.None? ==> v == EmptyCar
    ensures v.images == []
    ensures car.Some? ==> v.isAvailable == car.value.isAvailable.GetOr(true)
    ensures car.Some? ==> v.pricePerDay == Some(NumberOr(car.value.pricePerDay, 0.0, NumberOr(car.value.price, 0.0, 0.0)))
    ensures v.equipment == AllEquipment && v.specs.airConditioner
  {
    LoadedValues(car, FlagOrTrueAsWritten)
  }

  /** The values the effect evidently means to load: stored flags kept, true only when absent. */
  function CorrectedInitialValues(car: Option<CarRecord>): (v: CarValues)
    ensures car.None? ==> v == EmptyCar
    ensures car.Some? ==> v == InitialValues(car).(specs := v.specs, equipment := v.equipment)
    ensures car.Some? ==> v.specs == InitialValues(car).specs.(airConditioner := v.specs.airConditioner)
    ensures car.Some? && car.value.equipment.Some? && car.value.equipment.value.abs.Some? ==>
      v.equipment.abs == car.value.equipment.value.abs.value
  {
    LoadedValues(car, FlagOrTrue)
  }

  /** As written, a car stored without ABS is loaded with the ABS box ticked. */
  lemma StoredFalseLoadsTicked(c: CarRecord)
    requires c.equipment.Some? && c.equipment.value.abs == Some(false)
    ensures InitialValues(Some(c)).equipment.abs
    ensures !CorrectedInitialValues(Some(c)).equipment.abs
  {
  }

  /** With the corrected load a stored feature flag survives: the dialog shows what the car has. */
  lemma {:induction false} LoadedEquipmentMatchesCar(c: CarRecord, e: EquipmentRecord)
    requires c.equipment == Some(e) && e.abs.Some? && e.airBags.Some? && e.airConditioning.Some? && e.cruiseControl.Some?
    ensures CorrectedInitialValues(Some(c)).equipment == Equipment(e.abs.value, e.airBags.value, e.airConditioning.value, e.cruiseControl.value)
  {
    assert EquipmentFrom(c, FlagOrTrue) == Equipment(e.abs.value, e.airBags.value, e.airConditioning.value, e.cruiseControl.value);
  }

  /** The number of chosen files an upload keeps: as many as still fit. */
  function Room(images: seq<File>): nat
  {
    if |images| >= MaxImages then 0 else MaxImages - |images|
  }

  datatype Preview = PreviewOf(file: File)

  function Previews(images: seq<File>): (r: seq<Preview>)
    ensures |r| == |images|
    ensures forall i :: 0 <= i < |images| ==> r[i] == PreviewOf(images[i])
  {
    seq(|images|, i requires 0 <= i < |images| => PreviewOf(images[i]))
  }

  /** The "previews removed by index" step keeps the one-preview-per-image pairing. */
  lemma {:induction false} PreviewsWithoutIndex(images: seq<File>, index: int)
    ensures WithoutIndex(Previews(images), index) == Previews(WithoutIndex(images, index))
  {
    var p := WithoutIndex(Previews(images), index);
    var q := Previews(WithoutIndex(images, index));
    assert |p| == |q|;
    forall i | 0 <= i < |p| ensures p[i] == q[i] {
    }
  }

  datatype SpecsField = GearBox | Fuel | Distance
  datatype TextField = Name | Brand | Description
  datatype CountField = Doors | Seats
  datatype EquipmentField = Abs | AirBags | AirConditioning | CruiseControl

  class Dialog {
    var values: CarValues
    var imagePreviews: seq<Preview>
    var isLoading: bool
    var closeRequests: nat
    /** The cars handed to the parent, oldest first. */
    var submitted: seq<CarData>

    ghost predicate Valid()
      reads this
    {
      |values.images| <= MaxImages && imagePreviews == Previews(values.images)
    }

    constructor()
      ensures Valid() && values == EmptyCar && imagePreviews == []
      ensures !isLoading && closeRequests == 0 && submitted == []
    {
      values := EmptyCar;
      imagePreviews := [];
      isLoading := false;
      closeRequests := 0;
      submitted := [];
    }

    /** The effect on `car` and `isOpen`: reload the values and drop every preview. */
    method Initialize(car: Option<CarRecord>)
      modifies this
      ensures Valid() && values == InitialValues(car) && imagePreviews == []
      ensures isLoading == old(isLoading) && closeRequests == old(closeRequests) && submitted == old(submitted)
    {
      values := InitialValues(car);
      imagePreviews := [];
    }

    /** The upload button is disabled once three images are chosen. */
    function UploadDisabled(): bool
      reads this
    {
      |values.images| >= MaxImages
    }

    /** Files chosen in the picker: only as many as fit are kept, each with a preview. */
    method HandleImageUpload(files: seq<File>)
      requires Valid()
      modifies this
      ensures Valid()
      ensures |files| <= Room(old(values.images)) ==> values.images == old(values.images) + files
      ensures values.images == old(values.images) + files[..if |files| <= Room(old(values.images)) then |files| else Room(old(values.images))]
      ensures values == old(values).(images := values.images)
      ensures isLoading == old(isLoading) && closeRequests == old(closeRequests) && submitted == old(submitted)
    {
      var keep := if |files| <= MaxImages - |values.images| then |files| else MaxImages - |values.images|;
      var newFiles := files[..keep];
      values := values.(images := values.images + newFiles);
      imagePreviews := imagePreviews + Previews(newFiles);
      assert Previews(values.images) == old(Previews(values.images)) + Previews(newFiles);
    }

    /** The remove button of image `index`: image and preview go together. */
    method RemoveImage(index: int)
      requires Valid()
      modifies this
      ensures Valid()
      ensures values == old(values).(images := WithoutIndex(old(values.images), index))
      ensures isLoading == old(isLoading) && closeRequests == old(closeRequests) && submitted == old(submitted)
    {
      PreviewsWithoutIndex(values.images, index);
      values := values.(images := WithoutIndex(values.images, index));
      imagePreviews := WithoutIndex(imagePreviews, index);
    }

    method HandleSpecsChange(f: SpecsField, v: string)
      requires Valid()
      modifies this
      ensures Valid()
      ensures values == old(values).(specs := match f
                                              case GearBox => old(values).specs.(gearBox := v)
                                              case Fuel => old(values).specs.(fuel := v)
                                              case Distance => old(values).specs.(distance := v))
      ensures imagePreviews == old(imagePreviews) && submitted == old(submitted)
      ensures isLoading == old(isLoading) && closeRequests == old(closeRequests)
    {
      match f {
        case GearBox => values := values.(specs := values.specs.(gearBox := v));
        case Fuel => values := values.(specs := values.specs.(fuel := v));
        case Distance => values := values.(specs := values.specs.(distance := v));
      }
    }

    /** A text input of the car itself. */
    method HandleInputChange(f: TextField, v: string)
      requires Valid()
      modifies this
      ensures Valid()
      ensures values == match f
                        case Name => old(values).(name := v)
                        case Brand => old(values).(brand := v)
                        case Description => old(values).(description := v)
      ensures imagePreviews == old(imagePreviews) && submitted == old(submitted)
      ensures isLoading == old(isLoading) && closeRequests == old(closeRequests)
    {
      match f {
        case Name => values := values.(name := v);
        case Brand => values := values.(brand := v);
        case Description => values := values.(description := v);
      }
    }

    /** The price input, through `parseFloat`: `None` stands for NaN. */
    method HandlePriceChange(parsed: Option<real>)
      requires Valid()
      modifies this
      ensures Valid()
      ensures values == old(values).(pricePerDay := parsed)
      ensures imagePreviews == old(imagePreviews) && submitted == old(submitted)
      ensures isLoading == old(isLoading) && closeRequests == old(closeRequests)
    {
      values := values.(pricePerDay := parsed);
    }

    /** The doors and seats inputs, through `parseInt`: `None` stands for NaN. */
    method HandleCountChange(f: CountField, parsed: Option<int>)
      requires Valid()
      modifies this
      ensures Valid()
      ensures values == old(values).(specs := if f == Doors then old(values).specs.(doors := parsed)
                                              else old(values).specs.(seats := parsed))
      ensures imagePreviews == old(imagePreviews) && submitted == old(submitted)
      ensures isLoading == old(isLoading) && closeRequests == old(closeRequests)
    {
      if f == Doors {
        values := values.(specs := values.specs.(doors := parsed));
      } else {
        values := values.(specs := values.specs.(seats := parsed));
      }
    }

    method HandleAirConditionerChange(checked: bool)
      requires Valid()
      modifies this
      ensures Valid()
      ensures values == old(values).(specs := old(values).specs.(airConditioner := checked))
      ensures imagePreviews == old(imagePreviews) && submitted == old(submitted)
      ensures isLoading == old(isLoading) && closeRequests == old(closeRequests)
    {
      values := values.(specs := values.specs.(airConditioner := checked));
    }

    /** One equipment checkbox; the other three keep their state. */
    method HandleEquipmentChange(f: EquipmentField, checked: bool)
      requires Valid()
      modifies this
      ensures Valid()
      ensures values == old(values).(equipment := match f
                                                  case Abs => old(values).equipment.(abs := checked)
                                                  case AirBags => old(values).equipment.(airBags := checked)
                                                  case AirConditioning => old(values).equipment.(airConditioning := checked)
                                                  case CruiseControl => old(values).equipment.(cruiseControl := checked))
      ensures imagePreviews == old(imagePreviews) && submitted == old(submitted)
      ensures isLoading == old(isLoading) && closeRequests == old(closeRequests)
    {
      match f {
        case Abs => values := values.(equipment := values.equipment.(abs := checked));
        case AirBags => values := values.(equipment := values.equipment.(airBags := checked));
        case AirConditioning => values := values.(equipment := values.equipment.(airConditioning := checked));
        case CruiseControl => values := values.(equipment := values.equipment.(cruiseControl := checked));
      }
    }

    /** The availability picker: "available" or anything else. */
    method HandleAvailabilityChange(choice: string)
      requires Valid()
      modifies this
      ensures Valid()
      ensures values == old(values).(isAvailable := choice == "available")
      ensures imagePreviews == old(imagePreviews) && submitted == old(submitted)
      ensures isLoading == old(isLoading) && closeRequests == old(closeRequests)
    {
      values := values.(isAvailable := choice == "available");
    }

    /** The inputs marked required hold a value; the browser blocks the submission otherwise. */
    predicate RequiredFilled()
      reads this
    {
      values.name != "" && values.brand != "" && values.pricePerDay.Some?
      && values.specs.gearBox != "" && values.specs.fuel != "" && values.specs.doors.Some?
      && values.specs.seats.Some? && values.specs.distance != ""
    }

    /** The data handed to the parent. */
    function Collected(): (c: CarData)
      reads this
      requires RequiredFilled()
      ensures c.images == Some(values.images) && c.name == values.name && c.brand == values.brand
      ensures c.pricePerDay == values.pricePerDay.value
      ensures c.description == Some(values.description) && c.isAvailable == Some(values.isAvailable)
    {
      CarData(values.name, values.brand, values.pricePerDay.value,
        TechnicalSpecs(values.specs.gearBox, values.specs.fuel, values.specs.doors.value, values.specs.seats.value,
                       values.specs.airConditioner, values.specs.distance),
        values.equipment, Some(values.images), Some(values.description), Some(values.isAvailable))
    }

    /** Submission: the collected data goes to the parent; the dialog closes unless the parent throws. */
    method Submit(parentSucceeds: bool)
      requires Valid()
      modifies this
      ensures Valid() && values == old(values) && imagePreviews == old(imagePreviews)
      ensures !old(RequiredFilled()) ==>
        submitted == old(submitted) && closeRequests == old(closeRequests) && isLoading == old(isLoading)
      ensures old(RequiredFilled()) ==>
        submitted == old(submitted) + [old(Collected())] && !isLoading
        && closeRequests == old(closeRequests) + (if parentSucceeds then 1 else 0)
    {
      if !RequiredFilled() {
        return;
      }
      isLoading := true;
      submitted := submitted + [Collected()];
      if parentSucceeds {
        closeRequests := closeRequests + 1;
      }
      isLoading := false;
    }
  }

  /** The images sent for a submitted car are exactly the ones chosen, at most three. */
  lemma {:induction false} SubmittedImagesSent(car: CarData, images: seq<File>)
    requires car.images == Some(images) && |images| <= MaxImages
    ensures FilesUnder(CarsApi.CarForm(car), "images") == images
    ensures |FilesUnder(CarsApi.CarForm(car), "images")| <= MaxImages
  {
    CarFormImages(car);
  }
}
