/**
 * The administrator's user dialog: hand-written validation into an error
 * map keyed by field name, change handlers that clear a field's error as
 * it is edited, the car-type checkboxes, and reset on close.
 */
module UserForm {
  import opened Common
  import opened Entities

  datatype AddressInput = AddressInput(street: string, city: string, state: string, zipCode: string, country: string)
  datatype LicenseInput = LicenseInput(number: string, expiryDate: string, issuingCountry: string)
  datatype Preferences = Preferences(preferredCarTypes: seq<string>, preferredFuelType: string, maxDailyBudget: real)

  datatype UserFormData = UserFormData(
    firstName: string,
    lastName: string,
    email: string,
    phone: string,
    dateOfBirth: string,
    role: Role,
    password: string,
    confirmPassword: string,
    address: AddressInput,
    driverLicense: LicenseInput,
    preferences: Preferences)

  /** The values the dialog starts from and returns to when closed. */
  const BlankForm: UserFormData := UserFormData("", "", "", "", "", Customer, "", "",
    AddressInput("", "", "", "", "USA"), LicenseInput("", "", "USA"), Preferences([], "Petrol", 100.0))

  const CarTypes: seq<string> := ["Sedan", "SUV", "Hatchback", "Coupe", "Convertible", "Truck", "Van"]
  const FuelTypes: seq<string> := ["Petrol", "Diesel", "Electric", "Hybrid"]

  // ---------------------------------------------------------------------
  // Country options

  /** The country options as written: "Germany" has become "Germunknown". */
  const CountriesAsWritten: seq<string> := ["USA", "Canada", "UK", "Germunknown", "France", "Japan", "Australia", "Other"]

  /** The country options with the fourth entry spelled as intended. */
  const Countries: seq<string> := ["USA", "Canada", "UK", "Germany", "France", "Japan", "Australia", "Other"]

  /** Germany cannot be picked from the options as written. */
  lemma GermanyMissingAsWritten()
    ensures "Germany" !in CountriesAsWritten
    ensures "Germunknown" in CountriesAsWritten
  {
    assert "Germany"[4] != "Germunknown"[4];
    assert forall c :: c in CountriesAsWritten && c != "Germunknown" ==> c[0] != 'G';
  }

  /** The corrected list offers Germany and differs from the written one in that entry only. */
  lemma CountriesOfferGermany()
    ensures "Germany" in Countries && "Germunknown" !in Countries
    ensures |Countries| == |CountriesAsWritten|
    ensures forall i :: 0 <= i < |Countries| && i != 3 ==> Countries[i] == CountriesAsWritten[i]
    ensures Countries[0] == "USA"
  {
    assert Countries[3] == "Germany";
    assert "Germany"[4] != "Germunknown"[4];
    assert forall c :: c in Countries && c != "Germany" ==> c[0] != 'G';
  }

  // ---------------------------------------------------------------------
  // Validation

  /** `/\S+@\S+\.\S+/.test(s)`: somewhere, non-blanks, "@", non-blanks, ".", a non-blank. */
  predicate EmailShaped(s: string)
  {
    exists p, q :: 0 < p && p + 1 < q && q + 1 < |s| && s[p] == '@' && s[q] == '.'
      && !IsSpace(s[p - 1]) && !IsSpace(s[q + 1]) && NonBlankBetween(s, p, q)
  }

  predicate NonBlankBetween(s: string, p: int, q: int)
    requires 0 <= p && q <= |s|
  {
    forall k :: p < k < q ==> !IsSpace(s[k])
  }

  /** The error-map keys the validation can set. */
  const ErrorKeys: set<string> := {"firstName", "lastName", "email", "phone", "dateOfBirth", "password",
    "confirmPassword", "street", "city", "state", "zipCode", "licenseNumber", "licenseExpiry"}

  /** The message stored under `key`, if any. */
  function ErrorFor(d: UserFormData, key: string): Option<string>
  {
    if key == "firstName" then (if IsBlank(d.firstName) then Some("First name is required") else None)
    else if key == "lastName" then (if IsBlank(d.lastName) then Some("Last name is required") else None)
    else if key == "email" then
      (if IsBlank(d.email) then Some("Email is required")
       else if !EmailShaped(d.email) then Some("Email is invalid") else None)
    else if key == "phone" then (if IsBlank(d.phone) then Some("Phone number is required") else None)
    else if key == "dateOfBirth" then (if d.dateOfBirth == "" then Some("Date of birth is required") else None)
    else if key == "password" then
      (if d.password == "" then Some("Password is required")
       else if |d.password| < 6 then Some("Password must be at least 6 characters") else None)
    else if key == "confirmPassword" then
      (if d.password != d.confirmPassword then Some("Passwords do not match") else None)
    else if key == "street" then (if IsBlank(d.address.street) then Some("Street address is required") else None)
    else if key == "city" then (if IsBlank(d.address.city) then Some("City is required") else None)
    else if key == "state" then (if IsBlank(d.address.state) then Some("State is required") else None)
    else if key == "zipCode" then (if IsBlank(d.address.zipCode) then Some("ZIP code is required") else None)
    else if key == "licenseNumber" then
      (if IsBlank(d.driverLicense.number) then Some("Driver license number is required") else None)
    else if key == "licenseExpiry" then
      (if d.driverLicense.expiryDate == "" then Some("License expiry date is required") else None)
    else None
  }

  /** The error map `validateForm` stores. */
  function ValidationErrors(d: UserFormData): (e: map<string, string>)
    ensures forall k :: k in e <==> k in ErrorKeys && ErrorFor(d, k).Some?
    ensures forall k :: k in e ==> e[k] == ErrorFor(d, k).value
  {
    map k | k in ErrorKeys && ErrorFor(d, k).Some? :: ErrorFor(d, k).value
  }

  /** What an empty error map guarantees about the submitted values. */
  predicate Submittable(d: UserFormData)
  {
    !IsBlank(d.firstName) && !IsBlank(d.lastName) && !IsBlank(d.email) && EmailShaped(d.email)
    && !IsBlank(d.phone) && d.dateOfBirth != "" && |d.password| >= 6 && d.password == d.confirmPassword
    && !IsBlank(d.address.street) && !IsBlank(d.address.city) && !IsBlank(d.address.state)
    && !IsBlank(d.address.zipCode) && !IsBlank(d.driverLicense.number) && d.driverLicense.expiryDate != ""
  }

  /** The form validates exactly when every rule holds; the countries are never checked. */
  lemma {:induction false} ValidationErrorsEmptyIff(d: UserFormData)
    ensures ValidationErrors(d) == map[] <==> Submittable(d)
  {
    var e := ValidationErrors(d);
    if e == map[] {
      assert forall k :: k in ErrorKeys ==> ErrorFor(d, k).None? by {
        forall k | k in ErrorKeys ensures ErrorFor(d, k).None? {
          assert k !in e;
        }
      }
      assert ErrorFor(d, "firstName").None? && ErrorFor(d, "lastName").None?;
      assert ErrorFor(d, "email").None? && ErrorFor(d, "phone").None?;
      assert ErrorFor(d, "dateOfBirth").None? && ErrorFor(d, "password").None?;
      assert ErrorFor(d, "confirmPassword").None? && ErrorFor(d, "street").None?;
      assert ErrorFor(d, "city").None? && ErrorFor(d, "state").None?;
      assert ErrorFor(d, "zipCode").None? && ErrorFor(d, "licenseNumber").None?;
      assert ErrorFor(d, "licenseExpiry").None?;
    }
    if Submittable(d) {
      forall k | k in ErrorKeys ensures ErrorFor(d, k).None? {
      }
      assert e.Keys == {};
    }
  }

  // ---------------------------------------------------------------------
  // Clearing errors while typing

  /** `if (errors[key]) errors[key] = ""`. */
  function ClearedOnEdit(errors: map<string, string>, key: string): (r: map<string, string>)
    ensures r.Keys == errors.Keys
    ensures forall k :: k in r && k != key ==> r[k] == errors[k]
    ensures key in r ==> r[key] == ""
  {
    if key in errors && errors[key] != "" then errors[key := ""] else errors
  }

  datatype LicenseField = Number | ExpiryDate | IssuingCountry

  /** The key the licence handler clears as written: the sub-field's own name. */
  function LicenseErrorKeyAsWritten(f: LicenseField): string
  {
    match f
    case Number => "number"
    case ExpiryDate => "expiryDate"
    case IssuingCountry => "issuingCountry"
  }

  /**
   * As written, editing the licence number or expiry never clears its
   * message: validation stores it under another key.
   */
  lemma {:induction false} LicenseErrorSurvivesEditAsWritten(d: UserFormData, f: LicenseField)
    requires IsBlank(d.driverLicense.number)
    ensures "licenseNumber" in ValidationErrors(d)
    ensures ClearedOnEdit(ValidationErrors(d), LicenseErrorKeyAsWritten(f))["licenseNumber"]
         == "Driver license number is required"
  {
    assert ErrorFor(d, "licenseNumber") == Some("Driver license number is required");
  }

  /** The key under which validation reports a licence sub-field. */
  function LicenseErrorKey(f: LicenseField): (k: string)
    ensures f != IssuingCountry ==> k in ErrorKeys
  {
    match f
    case Number => "licenseNumber"
    case ExpiryDate => "licenseExpiry"
    case IssuingCountry => "issuingCountry"
  }

  /** With the keys validation uses, editing a licence field hides its message. */
  lemma LicenseErrorClearedOnEdit(errors: map<string, string>, f: LicenseField)
    requires f != IssuingCountry
    ensures LicenseErrorKey(f) in errors ==> ClearedOnEdit(errors, LicenseErrorKey(f))[LicenseErrorKey(f)] == ""
    ensures f == Number ==> LicenseErrorKey(f) == "licenseNumber"
    ensures f == ExpiryDate ==> LicenseErrorKey(f) == "licenseExpiry"
  {
  }

  // ---------------------------------------------------------------------
  // Car-type checkboxes

  /** The test `type !== carType`. */
  function Other(carType: string): string -> bool
  {
    t => t != carType
  }

  /** A checkbox click: removes every copy of the type if present, appends it otherwise. */
  function ToggledType(types: seq<string>, carType: string): (r: seq<string>)
    ensures carType in r <==> carType !in types
    ensures forall t :: t != carType ==> (t in r <==> t in types)
  {
    if carType in types then Filter(types, Other(carType)) else types + [carType]
  }

  /** Filtering out a value that is absent changes nothing. */
  lemma {:induction false} FilterAbsent(types: seq<string>, carType: string)
    requires carType !in types
    ensures Filter(types, Other(carType)) == types
  {
    if types != [] {
      FilterAbsent(types[1..], carType);
      assert types == [types[0]] + types[1..];
    }
  }

  /** Filtering out the last, newly appended value gives back the original list. */
  lemma {:induction false} FilterAppended(types: seq<string>, carType: string)
    requires carType !in types
    ensures Filter(types + [carType], Other(carType)) == types
  {
    if types == [] {
      assert Filter([carType], Other(carType)) == Filter([], Other(carType));
    } else {
      assert (types + [carType])[1..] == types[1..] + [carType];
      FilterAppended(types[1..], carType);
    }
  }

  /** Ticking an unticked type and unticking it again restores the list exactly. */
  lemma TickThenUntick(types: seq<string>, carType: string)
    requires carType !in types
    ensures ToggledType(ToggledType(types, carType), carType) == types
  {
    FilterAppended(types, carType);
  }

  /** Toggling keeps a duplicate-free list duplicate-free. */
  lemma ToggledTypeUnique(types: seq<string>, carType: string)
    requires NoDuplicates(types)
    ensures NoDuplicates(ToggledType(types, carType))
  {
    if carType in types {
      FilterUnique(types, Other(carType));
    }
  }

  lemma {:induction false} FilterUnique(xs: seq<string>, p: string -> bool)
    requires NoDuplicates(xs)
    ensures NoDuplicates(Filter(xs, p))
  {
    if xs != [] {
      FilterUnique(xs[1..], p);
      assert xs == [xs[0]] + xs[1..];
      assert xs[0] !in xs[1..];
    }
  }

  // ---------------------------------------------------------------------
  // The dialog

  datatype TextField = FirstName | LastName | Email | Phone | DateOfBirth | Password | ConfirmPassword

  function TextKey(f: TextField): string
  {
    match f
    case FirstName => "firstName"
    case LastName => "lastName"
    case Email => "email"
    case Phone => "phone"
    case DateOfBirth => "dateOfBirth"
    case Password => "password"
    case ConfirmPassword => "confirmPassword"
  }

  function WithText(d: UserFormData, f: TextField, v: string): UserFormData
  {
    match f
    case FirstName => d.(firstName := v)
    case LastName => d.(lastName := v)
    case Email => d.(email := v)
    case Phone => d.(phone := v)
    case DateOfBirth => d.(dateOfBirth := v)
    case Password => d.(password := v)
    case ConfirmPassword => d.(confirmPassword := v)
  }

  datatype AddressField = Street | City | State | ZipCode | Country

  function AddressKey(f: AddressField): string
  {
    match f
    case Street => "street"
    case City => "city"
    case State => "state"
    case ZipCode => "zipCode"
    case Country => "country"
  }

  function WithAddress(a: AddressInput, f: AddressField, v: string): AddressInput
  {
    match f
    case Street => a.(street := v)
    case City => a.(city := v)
    case State => a.(state := v)
    case ZipCode => a.(zipCode := v)
    case Country => a.(country := v)
  }

  function WithLicense(l: LicenseInput, f: LicenseField, v: string): LicenseInput
  {
    match f
    case Number => l.(number := v)
    case ExpiryDate => l.(expiryDate := v)
    case IssuingCountry => l.(issuingCountry := v)
  }

  class Dialog {
    var data: UserFormData
    var errors: map<string, string>
    var isLoading: bool
    var closeRequests: nat

    constructor()
      ensures data == BlankForm && errors == map[] && !isLoading && closeRequests == 0
    {
      data := BlankForm;
      errors := map[];
      isLoading := false;
      closeRequests := 0;
    }

    /** The effect run when the dialog closes: back to the blank form with no errors. */
    method Closed()
      modifies this
      ensures data == BlankForm && errors == map[]
      ensures isLoading == old(isLoading) && closeRequests == old(closeRequests)
    {
      data := BlankForm;
      errors := map[];
    }

    /** `validateForm`: stores the error map and reports whether it is empty. */
    method ValidateForm() returns (ok: bool)
      modifies this
      ensures errors == ValidationErrors(data)
      ensures ok <==> Submittable(data)
      ensures data == old(data) && isLoading == old(isLoading) && closeRequests == old(closeRequests)
    {
      errors := ValidationErrors(data);
      ValidationErrorsEmptyIff(data);
      ok := |errors| == 0;
    }

    /**
     * `handleSubmit`: validation first; a valid form is handed to the
     * parent and the dialog closes unless the parent throws.
     */
    method Submit(parentSucceeds: bool) returns (submitted: bool)
      modifies this
      ensures errors == ValidationErrors(data) && data == old(data)
      ensures submitted <==> Submittable(data)
      ensures submitted ==> !isLoading
      ensures closeRequests == old(closeRequests) + (if submitted && parentSucceeds then 1 else 0)
      ensures !submitted ==> isLoading == old(isLoading)
    {
      submitted := ValidateForm();
      if !submitted {
        return;
      }
      isLoading := true;
      if parentSucceeds {
        closeRequests := closeRequests + 1;
      }
      isLoading := false;
    }

    method HandleInputChange(f: TextField, v: string)
      modifies this
      ensures data == WithText(old(data), f, v)
      ensures errors == ClearedOnEdit(old(errors), TextKey(f))
      ensures isLoading == old(isLoading) && closeRequests == old(closeRequests)
    {
      data := WithText(data, f, v);
      errors := ClearedOnEdit(errors, TextKey(f));
    }

    method HandleRoleChange(r: Role)
      modifies this
      ensures data == old(data).(role := r)
      ensures errors == ClearedOnEdit(old(errors), "role")
      ensures isLoading == old(isLoading) && closeRequests == old(closeRequests)
    {
      data := data.(role := r);
      errors := ClearedOnEdit(errors, "role");
    }

    method HandleAddressChange(f: AddressField, v: string)
      modifies this
      ensures data == old(data).(address := WithAddress(old(data).address, f, v))
      ensures errors == ClearedOnEdit(old(errors), AddressKey(f))
      ensures isLoading == old(isLoading) && closeRequests == old(closeRequests)
    {
      data := data.(address := WithAddress(data.address, f, v));
      errors := ClearedOnEdit(errors, AddressKey(f));
    }

    /**
     * Clears the message under the sub-field's own name, as written; the
     * messages validation stored for the licence stay.
     */
    method HandleDriverLicenseChange(f: LicenseField, v: string)
      modifies this
      ensures data == old(data).(driverLicense := WithLicense(old(data).driverLicense, f, v))
      ensures errors == ClearedOnEdit(old(errors), LicenseErrorKeyAsWritten(f))
      ensures "licenseNumber" in old(errors) ==> errors["licenseNumber"] == old(errors)["licenseNumber"]
      ensures "licenseExpiry" in old(errors) ==> errors["licenseExpiry"] == old(errors)["licenseExpiry"]
      ensures isLoading == old(isLoading) && closeRequests == old(closeRequests)
    {
      data := data.(driverLicense := WithLicense(data.driverLicense, f, v));
      errors := ClearedOnEdit(errors, LicenseErrorKeyAsWritten(f));
    }

    method HandleCarTypeToggle(carType: string)
      modifies this
      ensures data == old(data).(preferences := old(data).preferences.(
        preferredCarTypes := ToggledType(old(data).preferences.preferredCarTypes, carType)))
      ensures errors == old(errors) && isLoading == old(isLoading) && closeRequests == old(closeRequests)
    {
      var types := ToggledType(data.preferences.preferredCarTypes, carType);
      data := data.(preferences := data.preferences.(preferredCarTypes := types));
    }

    method HandleFuelTypeChange(fuel: string)
      modifies this
      ensures data == old(data).(preferences := old(data).preferences.(preferredFuelType := fuel))
      ensures errors == old(errors) && isLoading == old(isLoading) && closeRequests == old(closeRequests)
    {
      data := data.(preferences := data.preferences.(preferredFuelType := fuel));
    }

    /** The budget input: `parseFloat(text) || 0`, with the parse given as `parsed`. */
    method HandleBudgetChange(parsed: Option<real>)
      modifies this
      ensures data == old(data).(preferences := old(data).preferences.(
        maxDailyBudget := if parsed.Some? then parsed.value else 0.0))
      ensures errors == old(errors) && isLoading == old(isLoading) && closeRequests == old(closeRequests)
    {
      var budget := if parsed.Some? then parsed.value else 0.0;
      data := data.(preferences := data.preferences.(maxDailyBudget := budget));
    }
  }
}
