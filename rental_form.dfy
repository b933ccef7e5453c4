/**
 * The three-step booking form shown on a car's page: per-step validation,
 * the branch pickers, the conversion of the entered values into the
 * creation payload, and the notice shown after submitting.
 */
module RentalForm {
  import opened Common
  import opened Entities
  import opened AuthStorage
  import opened ApiClient
  import opened RentalsApi

  const TotalSteps := 3

  datatype StopInput = StopInput(location: string, branch: string, time: string)

  /** The values held by the form. */
  datatype RentalFormData = RentalFormData(
    startDate: string,
    endDate: string,
    pickup: StopInput,
    dropOff: StopInput,
    licenseNumber: string,
    licenseExpiry: string,
    mileage: string,
    specialRequests: Option<string>,
    paymentMethod: string)

  /** The top-level keys of the form schema. */
  datatype RentalField =
    | StartDate | EndDate | Pickup | Return | DriverInfo | CarCondition | SpecialRequests | Payment

  const AllRentalFields: set<RentalField> :=
    {StartDate, EndDate, Pickup, Return, DriverInfo, CarCondition, SpecialRequests, Payment}

  predicate StopComplete(s: StopInput)
  {
    |s.location| >= 1 && |s.branch| >= 1 && |s.time| >= 1
  }

  /** Whether the schema reports an issue under the key `f`; special requests are optional. */
  predicate FieldRejected(d: RentalFormData, f: RentalField)
  {
    match f
    case StartDate => |d.startDate| < 1
    case EndDate => |d.endDate| < 1
    case Pickup => !StopComplete(d.pickup)
    case Return => !StopComplete(d.dropOff)
    case DriverInfo => |d.licenseNumber| < 1 || |d.licenseExpiry| < 1
    case CarCondition => |d.mileage| < 1
    case SpecialRequests => false
    case Payment => |d.paymentMethod| < 1
  }

  /** The schema read as a whole. */
  predicate RentalValid(d: RentalFormData)
    ensures RentalValid(d) ==> forall f :: !FieldRejected(d, f)
  {
    |d.startDate| >= 1 && |d.endDate| >= 1 && StopComplete(d.pickup) && StopComplete(d.dropOff)
    && |d.licenseNumber| >= 1 && |d.licenseExpiry| >= 1 && |d.mileage| >= 1 && |d.paymentMethod| >= 1
  }

  function FieldsForStep(step: int): (r: seq<RentalField>)
    ensures NoDuplicates(r)
    ensures !(1 <= step <= TotalSteps) ==> r == []
  {
    match step
    case 1 => [StartDate, EndDate]
    case 2 => [Pickup, Return, DriverInfo]
    case 3 => [CarCondition, SpecialRequests, Payment]
    case _ => []
  }

  /** Reference assignment of every key to the step that shows its input. */
  function StepOf(f: RentalField): int
  {
    match f
    case StartDate | EndDate => 1
    case Pickup | Return | DriverInfo => 2
    case CarCondition | SpecialRequests | Payment => 3
  }

  lemma StepsPartitionFields(step: int, f: RentalField)
    ensures f in FieldsForStep(step) <==> step == StepOf(f)
    ensures 1 <= StepOf(f) <= TotalSteps
  {
  }

  predicate StepAccepted(step: int, d: RentalFormData)
  {
    forall f :: f in FieldsForStep(step) ==> !FieldRejected(d, f)
  }

  /** Passing every step is the same as the schema accepting the data. */
  lemma {:induction false} AllStepsIffValid(d: RentalFormData)
    ensures (forall step :: 1 <= step <= TotalSteps ==> StepAccepted(step, d)) <==> RentalValid(d)
  {
    if forall step :: 1 <= step <= TotalSteps ==> StepAccepted(step, d) {
      forall f | f in AllRentalFields
        ensures !FieldRejected(d, f)
      {
        StepsPartitionFields(StepOf(f), f);
        assert StepAccepted(StepOf(f), d);
      }
      assert !FieldRejected(d, StartDate) && !FieldRejected(d, EndDate) && !FieldRejected(d, Pickup);
      assert !FieldRejected(d, Return) && !FieldRejected(d, DriverInfo);
      assert !FieldRejected(d, CarCondition) && !FieldRejected(d, Payment);
    }
    if RentalValid(d) {
      forall step | 1 <= step <= TotalSteps
        ensures StepAccepted(step, d)
      {
        forall f | f in FieldsForStep(step)
          ensures !FieldRejected(d, f)
        {
          StepsPartitionFields(step, f);
        }
      }
    }
  }

  /** `branches.find(b => b._id === value)`: the first branch with that id. */
  function FindBranch(branches: seq<Branch>, id: string): (r: Option<Branch>)
    ensures r.None? <==> forall b :: b in branches ==> b.id != id
    ensures r.Some? ==> r.value in branches && r.value.id == id
    ensures r.Some? ==>
      exists k :: 0 <= k < |branches| && branches[k] == r.value && forall j :: 0 <= j < k ==> branches[j].id != id
  {
    if branches == [] then None
    else if branches[0].id == id then Some(branches[0])
    else
      var rest := FindBranch(branches[1..], id);
      assert forall b :: b in branches[1..] ==> b in branches;
      if rest.Some? then
        var k :| 0 <= k < |branches[1..]| && branches[1..][k] == rest.value
          && forall j :: 0 <= j < k ==> branches[1..][j].id != id;
        assert branches[k + 1] == rest.value;
        assert forall j :: 0 <= j < k + 1 ==> branches[j].id != id by {
          forall j | 0 <= j < k + 1 ensures branches[j].id != id {
            if j > 0 { assert branches[j] == branches[1..][j - 1]; }
          }
        }
        rest
      else rest
  }

  /**
   * The pair a branch picker writes: the branch's name (or the empty
   * string when the id is unknown) as location, and the id as branch.
   */
  function Picked(branches: seq<Branch>, value: string, time: string): (s: StopInput)
    ensures s.branch == value && s.time == time
    ensures (forall b :: b in branches ==> b.id != value) ==> s.location == ""
    ensures s.location != "" ==> exists b :: b in branches && b.id == value && b.name == s.location
  {
    var found := FindBranch(branches, value);
    StopInput(if found.Some? then found.value.name else "", value, time)
  }

  /** The outcome of `new Date(text).toISOString()`: `None` when it throws. */
  type IsoConverter = string -> Option<string>

  const InvalidTimeValue := "Invalid time value"

  /**
   * The creation payload built from the form values. Every date goes
   * through the converter; the first one it rejects aborts with the
   * exception's message.
   */
  function Payload(carId: string, d: RentalFormData, toIso: IsoConverter): (r: Result<CreateRentalData, string>)
    ensures r.Err? <==>
      toIso(d.startDate).None? || toIso(d.endDate).None?
      || toIso(d.startDate + "T" + d.pickup.time).None? || toIso(d.endDate + "T" + d.dropOff.time).None?
      || toIso(d.licenseExpiry).None?
    ensures r.Err? ==> r.error == InvalidTimeValue
    ensures r.Ok? ==>
      r.value.carId == carId
      && r.value.startDate == IsoOf(toIso(d.startDate).value) && r.value.endDate == IsoOf(toIso(d.endDate).value)
      && r.value.licenseExpiry == IsoOf(toIso(d.licenseExpiry).value)
      && r.value.pickup.location == d.pickup.location && r.value.pickup.branch == d.pickup.branch
      && r.value.dropOff.location == d.dropOff.location && r.value.dropOff.branch == d.dropOff.branch
      && r.value.pickup.time == IsoOf(toIso(d.startDate + "T" + d.pickup.time).value)
      && r.value.dropOff.time == IsoOf(toIso(d.endDate + "T" + d.dropOff.time).value)
      && r.value.licenseNumber == d.licenseNumber && r.value.paymentMethod == d.paymentMethod
      && r.value.specialRequests == OrElse(d.specialRequests, "")
      && r.value.pickupMileageText == d.mileage
  {
    var start := toIso(d.startDate);
    var end := toIso(d.endDate);
    var pickupTime := toIso(d.startDate + "T" + d.pickup.time);
    var returnTime := toIso(d.endDate + "T" + d.dropOff.time);
    var expiry := toIso(d.licenseExpiry);
    if start.None? || end.None? || pickupTime.None? || returnTime.None? || expiry.None? then
      Err(InvalidTimeValue)
    else
      Ok(CreateRentalData(
        carId, IsoOf(start.value), IsoOf(end.value),
        RentalsApi.Stop(d.pickup.location, d.pickup.branch, IsoOf(pickupTime.value)),
        RentalsApi.Stop(d.dropOff.location, d.dropOff.branch, IsoOf(returnTime.value)),
        d.licenseNumber, IsoOf(expiry.value), d.mileage, OrElse(d.specialRequests, ""), d.paymentMethod))
  }

  /** The body of a successful creation call. */
  datatype RentalResponse = RentalResponse(success: bool, message: string)

  datatype Notice = Created(description: string) | AuthRequired | CreationFailed(description: string)

  const AuthMarkerToken := "Authentication token not found"
  const AuthMarkerLogin := "Please log in again"

  /** The toast for a failure message: sign-in messages get their own notice. */
  function FailureNotice(message: string): (n: Notice)
    ensures n == AuthRequired <==> Contains(message, AuthMarkerToken) || Contains(message, AuthMarkerLogin)
    ensures n != AuthRequired ==> n == CreationFailed(message)
  {
    if Contains(message, AuthMarkerToken) || Contains(message, AuthMarkerLogin) then AuthRequired
    else CreationFailed(message)
  }

  /** The message of the missing-token error asks the user to sign in. */
  lemma TokenMissingNeedsSignIn()
    ensures FailureNotice(TokenMissing) == AuthRequired
  {
    assert TokenMissing[..|AuthMarkerToken|] == AuthMarkerToken;
    assert IsPrefix(AuthMarkerToken, TokenMissing);
  }

  const ConfirmedText := "Your car rental has been confirmed."

  /** The notice shown for one submission, given the server's reply. */
  function SubmitNotice(carId: string, d: RentalFormData, toIso: IsoConverter,
                        auth: Option<StoredAuthData>, reply: Reply<RentalResponse>): (n: Notice)
    ensures Payload(carId, d, toIso).Err? ==> n == FailureNotice(InvalidTimeValue)
    ensures Payload(carId, d, toIso).Ok? && (auth.None? || auth.value.token == "") ==> n == FailureNotice(TokenMissing)
    ensures n.Created? ==> reply.Answered? && reply.data.success && n.description != ""
    ensures n.Created? && reply.data.message != "" ==> n.description == reply.data.message
    ensures n.Created? && reply.data.message == "" ==> n.description == ConfirmedText
    ensures Payload(carId, d, toIso).Ok? && auth.Some? && auth.value.token != "" && reply.Answered? && !reply.data.success ==>
      n == FailureNotice(if reply.data.message != "" then reply.data.message else CreateFallback)
    ensures Payload(carId, d, toIso).Ok? && auth.Some? && auth.value.token != "" && reply.Failed? ==>
      n == FailureNotice(ErrorMessage(reply.failure, CreateFallback))
  {
    match Payload(carId, d, toIso)
    case Err(e) => FailureNotice(e)
    case Ok(payload) =>
      match Outcome(CreateRentalRequest(auth, payload), reply, CreateFallback)
      case Err(e) => FailureNotice(e)
      case Ok(response) =>
        if response.success then Created(if response.message != "" then response.message else ConfirmedText)
        else FailureNotice(if response.message != "" then response.message else CreateFallback)
  }

  /** Signed-out visitors with well-formed dates are asked to sign in, whatever the server would say. */
  lemma {:induction false} SignedOutSubmitNeedsSignIn(carId: string, d: RentalFormData, toIso: IsoConverter,
                                      auth: Option<StoredAuthData>, reply: Reply<RentalResponse>)
    requires Payload(carId, d, toIso).Ok?
    requires auth.None? || auth.value.token == ""
    ensures SubmitNotice(carId, d, toIso, auth, reply) == AuthRequired
  {
    NoTokenNoRequest(auth, Post, "/api/rentals", [], Payload(carId, d, toIso).value, reply, CreateFallback);
    TokenMissingNeedsSignIn();
  }

  /** Only a reply flagged successful creates the booking. */
  lemma CreatedOnlyOnSuccess(carId: string, d: RentalFormData, toIso: IsoConverter,
                             auth: Option<StoredAuthData>, reply: Reply<RentalResponse>)
    ensures SubmitNotice(carId, d, toIso, auth, reply).Created? <==>
      Payload(carId, d, toIso).Ok? && auth.Some? && auth.value.token != ""
      && reply.Answered? && reply.data.success
  {
  }

  class Form {
    const carId: string
    var currentStep: int
    var isSubmitting: bool
    var data: RentalFormData
    /** Toasts shown so far, oldest first. */
    var notices: seq<Notice>
    var closeRequests: nat

    ghost predicate Valid()
      reads this
    {
      1 <= currentStep <= TotalSteps
    }

    constructor(carId: string, initial: RentalFormData)
      ensures Valid() && this.carId == carId && currentStep == 1 && !isSubmitting
      ensures data == initial && notices == [] && closeRequests == 0
    {
      this.carId := carId;
      currentStep := 1;
      isSubmitting := false;
      data := initial;
      notices := [];
      closeRequests := 0;
    }

    method NextStep()
      requires Valid()
      modifies this
      ensures Valid()
      ensures currentStep == if StepAccepted(old(currentStep), data) then Min(old(currentStep) + 1, TotalSteps) else old(currentStep)
      ensures data == old(data) && notices == old(notices) && closeRequests == old(closeRequests)
      ensures isSubmitting == old(isSubmitting)
    {
      if StepAccepted(currentStep, data) {
        currentStep := Min(currentStep + 1, TotalSteps);
      }
    }

    method PrevStep()
      requires Valid()
      modifies this
      ensures Valid()
      ensures currentStep == Max(old(currentStep) - 1, 1)
      ensures data == old(data) && notices == old(notices) && closeRequests == old(closeRequests)
      ensures isSubmitting == old(isSubmitting)
    {
      currentStep := Max(currentStep - 1, 1);
    }

    /** The pickup picker: location and branch follow the chosen branch id. */
    method SelectPickup(branches: seq<Branch>, value: string)
      modifies this
      ensures data == old(data).(pickup := Picked(branches, value, old(data).pickup.time))
      ensures currentStep == old(currentStep) && notices == old(notices)
      ensures closeRequests == old(closeRequests) && isSubmitting == old(isSubmitting)
    {
      data := data.(pickup := Picked(branches, value, data.pickup.time));
    }

    /** The return picker, independent of the pickup: the same branch may be chosen twice. */
    method SelectReturn(branches: seq<Branch>, value: string)
      modifies this
      ensures data == old(data).(dropOff := Picked(branches, value, old(data).dropOff.time))
      ensures currentStep == old(currentStep) && notices == old(notices)
      ensures closeRequests == old(closeRequests) && isSubmitting == old(isSubmitting)
    {
      data := data.(dropOff := Picked(branches, value, data.dropOff.time));
    }

    /**
     * `handleSubmit(onSubmit)`: nothing happens unless the whole schema
     * accepts the data; otherwise one notice, and the form closes when the
     * booking was created.
     */
    method Submit(toIso: IsoConverter, auth: Option<StoredAuthData>, reply: Reply<RentalResponse>)
      modifies this
      ensures !isSubmitting && data == old(data) && currentStep == old(currentStep)
      ensures !RentalValid(data) ==> notices == old(notices) && closeRequests == old(closeRequests)
      ensures RentalValid(data) ==>
        notices == old(notices) + [SubmitNotice(carId, data, toIso, auth, reply)]
        && closeRequests == old(closeRequests) + (if SubmitNotice(carId, data, toIso, auth, reply).Created? then 1 else 0)
    {
      if !RentalValid(data) {
        isSubmitting := false;
        return;
      }
      isSubmitting := true;
      var notice := SubmitNotice(carId, data, toIso, auth, reply);
      notices := notices + [notice];
      if notice.Created? {
        closeRequests := closeRequests + 1;
      }
      isSubmitting := false;
    }
  }

  function Min(a: int, b: int): int { if a < b then a else b }
  function Max(a: int, b: int): int { if a < b then b else a }
}
