/**
 * The client-side form schemas: the registration schema (field rules plus
 * the password-confirmation refinement) and the login schema. Whether a
 * string is an e-mail address is decided by the schema library; the model
 * takes that decision as the parameter `isEmail`.
 */
module Validation {

  datatype DriverLicense = DriverLicense(number: string, expiryDate: string, issuingCountry: string)

  datatype Address = Address(street: string, city: string, state: string, zipCode: string, country: string)

  datatype RegisterData = RegisterData(
    firstName: string,
    lastName: string,
    email: string,
    password: string,
    confirmPassword: string,
    phone: string,
    dateOfBirth: string,
    driverLicense: DriverLicense,
    address: Address)

  /** The top-level keys of the registration schema. */
  datatype RegisterField =
    | FirstName | LastName | Email | Password | ConfirmPassword
    | Phone | DateOfBirth | DriverLicenseField | AddressField

  const AllRegisterFields: set<RegisterField> :=
    {FirstName, LastName, Email, Password, ConfirmPassword, Phone, DateOfBirth, DriverLicenseField, AddressField}

  predicate LicenseComplete(l: DriverLicense)
  {
    |l.number| >= 1 && |l.expiryDate| >= 1 && |l.issuingCountry| >= 1
  }

  predicate AddressComplete(a: Address)
  {
    |a.street| >= 1 && |a.city| >= 1 && |a.state| >= 1 && |a.zipCode| >= 1 && |a.country| >= 1
  }

  /**
   * The schema read as a whole: every field rule and the refinement that
   * the two passwords agree.
   */
  predicate RegisterValid(d: RegisterData, isEmail: string -> bool)
    ensures RegisterValid(d, isEmail) ==> forall f :: !FieldRejected(d, f, isEmail)
    ensures RegisterValid(d, isEmail) ==> LoginValid(d.email, d.password, isEmail)
  {
    |d.firstName| >= 2 && |d.lastName| >= 2 && isEmail(d.email)
    && |d.password| >= 6 && |d.phone| >= 6
    && LicenseComplete(d.driverLicense) && AddressComplete(d.address)
    && d.password == d.confirmPassword
  }

  /**
   * Whether the schema reports an issue under the key `f`. The refinement
   * is reported under `confirmPassword`, which has no rule of its own.
   */
  predicate FieldRejected(d: RegisterData, f: RegisterField, isEmail: string -> bool)
  {
    match f
    case FirstName => |d.firstName| < 2
    case LastName => |d.lastName| < 2
    case Email => !isEmail(d.email)
    case Password => |d.password| < 6
    case ConfirmPassword => d.password != d.confirmPassword
    case Phone => |d.phone| < 6
    case DateOfBirth => false
    case DriverLicenseField => !LicenseComplete(d.driverLicense)
    case AddressField => !AddressComplete(d.address)
  }

  /** The keys the schema reports issues under. */
  function RegisterErrors(d: RegisterData, isEmail: string -> bool): (r: set<RegisterField>)
    ensures r <= AllRegisterFields
    ensures forall f :: f in r <==> FieldRejected(d, f, isEmail)
    ensures ConfirmPassword in r <==> d.password != d.confirmPassword
    ensures DateOfBirth !in r
  {
    set f | f in AllRegisterFields && FieldRejected(d, f, isEmail)
  }

  /** The data is accepted exactly when no key carries an issue. */
  lemma RegisterValidIffNoErrors(d: RegisterData, isEmail: string -> bool)
    ensures RegisterValid(d, isEmail) <==> RegisterErrors(d, isEmail) == {}
  {
    if !RegisterValid(d, isEmail) {
      if |d.firstName| < 2 { assert FirstName in RegisterErrors(d, isEmail); }
      else if |d.lastName| < 2 { assert LastName in RegisterErrors(d, isEmail); }
      else if !isEmail(d.email) { assert Email in RegisterErrors(d, isEmail); }
      else if |d.password| < 6 { assert Password in RegisterErrors(d, isEmail); }
      else if |d.phone| < 6 { assert Phone in RegisterErrors(d, isEmail); }
      else if !LicenseComplete(d.driverLicense) { assert DriverLicenseField in RegisterErrors(d, isEmail); }
      else if !AddressComplete(d.address) { assert AddressField in RegisterErrors(d, isEmail); }
      else { assert ConfirmPassword in RegisterErrors(d, isEmail); }
    }
  }

  /** The login schema: an e-mail address and a password of six characters or more. */
  predicate LoginValid(email: string, password: string, isEmail: string -> bool)
    ensures !isEmail(email) ==> !LoginValid(email, password, isEmail)
    ensures |password| < 6 ==> !LoginValid(email, password, isEmail)
  {
    isEmail(email) && |password| >= 6
  }
}
