/**
 * The profile editor: defaults taken from the account, the schema, the
 * update payload (sections sent only when their key field is filled), the
 * editable list of preferred car types, and the edit/cancel/save cycle.
 */
module ProfileForm {
  import opened Common
  import opened Entities
  import opened AuthStorage
  import opened AuthSlice

  datatype LicenseValues = LicenseValues(number: string, expiryDate: string, issuingCountry: string)
  datatype AddressValues = AddressValues(street: string, city: string, state: string, zipCode: string, country: string)

  /** The form values; the budget input yields `None` when it holds no number. */
  datatype ProfileValues = ProfileValues(
    firstName: string,
    lastName: string,
    email: string,
    phone: string,
    dateOfBirth: string,
    profileImage: string,
    license: LicenseValues,
    address: AddressValues,
    preferredCarTypes: seq<string>,
    preferredFuelType: string,
    maxDailyBudget: Option<real>)

  /** The profile fields of the account the form is opened for; absent ones are `None`. */
  datatype LicenseRecord = LicenseRecord(number: Option<string>, expiryDate: Option<string>, issuingCountry: Option<string>)
  datatype AddressRecord = AddressRecord(street: Option<string>, city: Option<string>, state: Option<string>,
                                         zipCode: Option<string>, country: Option<string>)
  datatype Profile = Profile(
    firstName: Option<string>,
    lastName: Option<string>,
    email: Option<string>,
    phone: Option<string>,
    dateOfBirth: Option<string>,
    profileImage: Option<string>,
    license: Option<LicenseRecord>,
    address: Option<AddressRecord>,
    preferredCarTypes: Option<seq<string>>,
    preferredFuelType: Option<string>,
    maxDailyBudget: Option<real>)

  /** `x ? new Date(x).toISOString().split('T')[0] : ""`, the conversion given as `dayOf`. */
  function DayOrEmpty(x: Option<string>, dayOf: string -> string): string
  {
    if Truthy(x) then dayOf(x.value) else ""
  }

  /** The default values: every missing text becomes "", the list [] and the budget 0. */
  function Defaults(u: Profile, dayOf: string -> string): (v: ProfileValues)
    ensures v.firstName == OrElse(u.firstName, "") && v.lastName == OrElse(u.lastName, "")
    ensures v.email == OrElse(u.email, "") && v.phone == OrElse(u.phone, "")
    ensures v.dateOfBirth == DayOrEmpty(u.dateOfBirth, dayOf) && v.profileImage == OrElse(u.profileImage, "")
    ensures u.license.None? ==> v.license == LicenseValues("", "", "")
    ensures u.license.Some? ==>
      v.license == LicenseValues(OrElse(u.license.value.number, ""), DayOrEmpty(u.license.value.expiryDate, dayOf),
                                 OrElse(u.license.value.issuingCountry, ""))
    ensures u.address.None? ==> v.address == AddressValues("", "", "", "", "")
    ensures u.address.Some? ==>
      v.address == AddressValues(OrElse(u.address.value.street, ""), OrElse(u.address.value.city, ""),
                                 OrElse(u.address.value.state, ""), OrElse(u.address.value.zipCode, ""),
                                 OrElse(u.address.value.country, ""))
    ensures u.preferredCarTypes.None? ==> v.preferredCarTypes == []
    ensures v.preferredCarTypes == u.preferredCarTypes.GetOr([])
    ensures v.preferredFuelType == OrElse(u.preferredFuelType, "")
    ensures v.maxDailyBudget.Some?
    ensures u.maxDailyBudget.None? || u.maxDailyBudget.value == 0.0 ==> v.maxDailyBudget == Some(0.0)
    ensures u.maxDailyBudget.Some? && u.maxDailyBudget.value != 0.0 ==> v.maxDailyBudget == u.maxDailyBudget
  {
    var l := u.license.GetOr(LicenseRecord(None, None, None));
    var a := u.address.GetOr(AddressRecord(None, None, None, None, None));
    ProfileValues(
      OrElse(u.firstName, ""), OrElse(u.lastName, ""), OrElse(u.email, ""), OrElse(u.phone, ""),
      DayOrEmpty(u.dateOfBirth, dayOf), OrElse(u.profileImage, ""),
      LicenseValues(OrElse(l.number, ""), DayOrEmpty(l.expiryDate, dayOf), OrElse(l.issuingCountry, "")),
      AddressValues(OrElse(a.street, ""), OrElse(a.city, ""), OrElse(a.state, ""), OrElse(a.zipCode, ""), OrElse(a.country, "")),
      u.preferredCarTypes.GetOr([]), OrElse(u.preferredFuelType, ""),
      Some(if u.maxDailyBudget.Some? && u.maxDailyBudget.value != 0.0 then u.maxDailyBudget.value else 0.0))
  }

  /**
   * The schema: names of two characters or more, an e-mail address, an
   * image that is empty or a URL, and a non-negative budget; the checks on
   * e-mail and URL are the parameters `isEmail` and `isUrl`.
   */
  predicate ProfileValid(v: ProfileValues, isEmail: string -> bool, isUrl: string -> bool)
    ensures |v.firstName| < 2 || |v.lastName| < 2 || !isEmail(v.email) ==> !ProfileValid(v, isEmail, isUrl)
    ensures v.profileImage != "" && !isUrl(v.profileImage) ==> !ProfileValid(v, isEmail, isUrl)
    ensures v.maxDailyBudget.None? || v.maxDailyBudget.value < 0.0 ==> !ProfileValid(v, isEmail, isUrl)
  {
    |v.firstName| >= 2 && |v.lastName| >= 2 && isEmail(v.email)
    && (v.profileImage == "" || isUrl(v.profileImage))
    && v.maxDailyBudget.Some? && v.maxDailyBudget.value >= 0.0
  }

  datatype LicenseUpdate = LicenseUpdate(number: string, expiryDate: Option<string>, issuingCountry: Option<string>)
  datatype AddressUpdate = AddressUpdate(street: string, city: Option<string>, state: Option<string>,
                                         zipCode: Option<string>, country: Option<string>)
  datatype PreferencesUpdate = PreferencesUpdate(preferredCarTypes: seq<string>, preferredFuelType: Option<string>,
                                                 maxDailyBudget: Option<real>)

  /** The body sent to the profile endpoint; `None` marks a key left out. */
  datatype ProfileUpdate = ProfileUpdate(
    firstName: string,
    lastName: string,
    email: string,
    phone: Option<string>,
    dateOfBirth: Option<string>,
    profileImage: Option<string>,
    driverLicense: Option<LicenseUpdate>,
    address: Option<AddressUpdate>,
    preferences: Option<PreferencesUpdate>)

  function UpdatePayload(v: ProfileValues): (p: ProfileUpdate)
    ensures p.firstName == v.firstName && p.lastName == v.lastName && p.email == v.email
    ensures p.phone.None? <==> v.phone == ""
    ensures p.profileImage.None? <==> v.profileImage == ""
    ensures p.phone == OrUndefined(v.phone) && p.dateOfBirth == OrUndefined(v.dateOfBirth)
    ensures p.profileImage == OrUndefined(v.profileImage)
    ensures p.driverLicense.Some? <==> v.license.number != ""
    ensures p.driverLicense.Some? ==>
      p.driverLicense.value.number == v.license.number
      && (p.driverLicense.value.expiryDate.None? <==> v.license.expiryDate == "")
      && p.driverLicense.value.expiryDate == OrUndefined(v.license.expiryDate)
      && p.driverLicense.value.issuingCountry == OrUndefined(v.license.issuingCountry)
    ensures p.address.Some? <==> v.address.street != ""
    ensures p.address.Some? ==>
      p.address.value.street == v.address.street
      && p.address.value.city == OrUndefined(v.address.city) && p.address.value.state == OrUndefined(v.address.state)
      && p.address.value.zipCode == OrUndefined(v.address.zipCode)
      && p.address.value.country == OrUndefined(v.address.country)
    ensures p.preferences.Some? <==> |v.preferredCarTypes| > 0
    ensures p.preferences.Some? ==>
      p.preferences.value.preferredCarTypes == v.preferredCarTypes
      && p.preferences.value.preferredFuelType == OrUndefined(v.preferredFuelType)
      && (p.preferences.value.maxDailyBudget.None? <==> v.maxDailyBudget.None? || v.maxDailyBudget.value == 0.0)
      && (p.preferences.value.maxDailyBudget.Some? ==> p.preferences.value.maxDailyBudget == v.maxDailyBudget)
  {
    ProfileUpdate(
      v.firstName, v.lastName, v.email,
      OrUndefined(v.phone), OrUndefined(v.dateOfBirth), OrUndefined(v.profileImage),
      if v.license.number != "" then
        Some(LicenseUpdate(v.license.number, OrUndefined(v.license.expiryDate), OrUndefined(v.license.issuingCountry)))
      else None,
      if v.address.street != "" then
        Some(AddressUpdate(v.address.street, OrUndefined(v.address.city), OrUndefined(v.address.state),
                           OrUndefined(v.address.zipCode), OrUndefined(v.address.country)))
      else None,
      if |v.preferredCarTypes| > 0 then
        Some(PreferencesUpdate(v.preferredCarTypes, OrUndefined(v.preferredFuelType),
          if v.maxDailyBudget.Some? && v.maxDailyBudget.value != 0.0 then v.maxDailyBudget else None))
      else None)
  }

  /**
   * An expiry date or issuing country typed without a licence number is
   * not sent; likewise the address without a street and the fuel type and
   * budget without a car type.
   */
  lemma {:induction false} DependentFieldsDropped(v: ProfileValues)
    ensures v.license.number == "" ==> UpdatePayload(v).driverLicense.None?
    ensures v.address.street == "" ==> UpdatePayload(v).address.None?
    ensures v.preferredCarTypes == [] ==> UpdatePayload(v).preferences.None?
  {
  }

  // ---------------------------------------------------------------------
  // Preferred car types

  /** The "Add Car Type" button: an empty entry at the end. */
  function AddCarType(types: seq<string>): (r: seq<string>)
    ensures |r| == |types| + 1 && r[..|types|] == types && r[|types|] == ""
  {
    types + [""]
  }

  /** The remove button of entry `index`. */
  function RemoveCarType(types: seq<string>, index: int): (r: seq<string>)
    ensures 0 <= index < |types| ==> |r| == |types| - 1
    ensures 0 <= index < |types| ==> forall i :: 0 <= i < |r| ==> r[i] == (if i < index then types[i] else types[i + 1])
  {
    WithoutIndex(types, index)
  }

  /** Adding an entry and removing it again restores the list. */
  lemma AddThenRemove(types: seq<string>)
    ensures RemoveCarType(AddCarType(types), |types|) == types
  {
    assert AddCarType(types)[..|types|] == types;
  }

  /** Typing into entry `index`: a copy of the list with that entry replaced. */
  method UpdateCarType(types: seq<string>, index: int, value: string) returns (r: seq<string>)
    requires 0 <= index < |types|
    ensures |r| == |types| && r[index] == value
    ensures forall i :: 0 <= i < |types| && i != index ==> r[i] == types[i]
  {
    var newTypes := new string[|types|](i requires 0 <= i < |types| => types[i]);
    newTypes[index] := value;
    r := newTypes[..];
  }

  // ---------------------------------------------------------------------
  // The editor

  /** The mutation's outcome: the account returned, if any, or a failure. */
  datatype SaveReply = SavedWith(data: Option<User>) | SaveFailed

  datatype Notice = ProfileUpdated | UpdateFailed

  class Editor {
    /** The default values computed when the form was mounted; `reset()` returns to them. */
    const defaults: ProfileValues
    var values: ProfileValues
    var isEditing: bool
    var isSubmitting: bool
    var notices: seq<Notice>

    constructor(u: Profile, dayOf: string -> string)
      ensures defaults == Defaults(u, dayOf) && values == defaults
      ensures !isEditing && !isSubmitting && notices == []
    {
      defaults := Defaults(u, dayOf);
      values := Defaults(u, dayOf);
      isEditing := false;
      isSubmitting := false;
      notices := [];
    }

    method StartEditing()
      modifies this
      ensures isEditing && values == old(values) && notices == old(notices)
      ensures isSubmitting == old(isSubmitting)
    {
      isEditing := true;
    }

    /** Cancel: back to the mount-time defaults, even after a successful save. */
    method Cancel()
      modifies this
      ensures !isEditing && values == defaults && notices == old(notices)
      ensures isSubmitting == old(isSubmitting)
    {
      values := defaults;
      isEditing := false;
    }

    method Edit(v: ProfileValues)
      modifies this
      ensures values == v && isEditing == old(isEditing) && notices == old(notices)
      ensures isSubmitting == old(isSubmitting)
    {
      values := v;
    }

    /**
     * Save: ignored unless the schema accepts the values. A successful
     * reply carrying the account updates the session through the slice;
     * a failure keeps the editor open.
     */
    method Save(slice: Slice, isEmail: string -> bool, isUrl: string -> bool, reply: SaveReply)
      modifies this, slice, slice.storage
      ensures values == old(values) && !isSubmitting
      ensures !ProfileValid(old(values), isEmail, isUrl) ==>
        notices == old(notices) && isEditing == old(isEditing)
        && slice.State() == old(slice.State()) && slice.storage.items == old(slice.storage.items)
      ensures ProfileValid(old(values), isEmail, isUrl) && reply.SavedWith? ==>
        notices == old(notices) + [ProfileUpdated] && !isEditing
        && slice.State() == (if reply.data.Some? then Reduce(old(slice.State()), UpdateUserSuccess(reply.data.value))
                             else old(slice.State()))
        && slice.storage.items ==
             (if reply.data.Some? && slice.storage.available
              then Saved(old(slice.storage.items), reply.data.value, old(slice.token), old(slice.isAuthenticated))
              else old(slice.storage.items))
      ensures ProfileValid(old(values), isEmail, isUrl) && reply.SaveFailed? ==>
        notices == old(notices) + [UpdateFailed] && isEditing == old(isEditing)
        && slice.State() == old(slice.State()) && slice.storage.items == old(slice.storage.items)
    {
      if !ProfileValid(values, isEmail, isUrl) {
        isSubmitting := false;
        return;
      }
      isSubmitting := true;
      match reply {
        case SavedWith(data) =>
          if data.Some? {
            slice.UpdateUserSuccess(data.value);
          }
          notices := notices + [ProfileUpdated];
          isEditing := false;
        case SaveFailed =>
          notices := notices + [UpdateFailed];
      }
      isSubmitting := false;
    }
  }
}
