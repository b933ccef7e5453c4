/**
 * The four-step sign-up wizard: each step validates its own fields before
 * moving on, and the last step submits the whole schema.
 */
module RegisterForm {
  import opened Common
  import opened AuthStorage
  import opened AuthSlice
  import opened Validation
  import opened AuthResponse

  const TotalSteps := 4
  const RegisterFallback := "Registration failed"

  /** The schema keys validated before leaving `step`. */
  function FieldsForStep(step: int): (r: seq<RegisterField>)
    ensures NoDuplicates(r)
    ensures !(1 <= step <= TotalSteps) ==> r == []
  {
    match step
    case 1 => [FirstName, LastName, Email]
    case 2 => [Password, ConfirmPassword, Phone]
    case 3 => [DateOfBirth, DriverLicenseField]
    case 4 => [AddressField]
    case _ => []
  }

  /** Reference assignment of every key to the step that shows its input. */
  function StepOf(f: RegisterField): int
  {
    match f
    case FirstName | LastName | Email => 1
    case Password | ConfirmPassword | Phone => 2
    case DateOfBirth | DriverLicenseField => 3
    case AddressField => 4
  }

  /** The steps partition the schema's keys: each key belongs to exactly one step. */
  lemma StepsPartitionFields(step: int, f: RegisterField)
    ensures f in FieldsForStep(step) <==> step == StepOf(f)
    ensures 1 <= StepOf(f) <= TotalSteps
  {
  }

  /** `trigger(fields)` resolves to true: no issue under any of the step's keys. */
  predicate StepAccepted(step: int, d: RegisterData, isEmail: string -> bool)
  {
    forall f :: f in FieldsForStep(step) ==> !FieldRejected(d, f, isEmail)
  }

  /** Passing every step is the same as the schema accepting the data. */
  lemma {:induction false} AllStepsIffValid(d: RegisterData, isEmail: string -> bool)
    ensures (forall step :: 1 <= step <= TotalSteps ==> StepAccepted(step, d, isEmail))
        <==> RegisterValid(d, isEmail)
  {
    RegisterValidIffNoErrors(d, isEmail);
    if forall step :: 1 <= step <= TotalSteps ==> StepAccepted(step, d, isEmail) {
      forall f | f in AllRegisterFields
        ensures !FieldRejected(d, f, isEmail)
      {
        StepsPartitionFields(StepOf(f), f);
        assert StepAccepted(StepOf(f), d, isEmail);
      }
      assert RegisterErrors(d, isEmail) == {};
    }
    if RegisterValid(d, isEmail) {
      forall step | 1 <= step <= TotalSteps
        ensures StepAccepted(step, d, isEmail)
      {
        forall f | f in FieldsForStep(step)
          ensures !FieldRejected(d, f, isEmail)
        {
          assert f !in RegisterErrors(d, isEmail);
        }
      }
    }
  }

  class Wizard {
    var currentStep: int

    ghost predicate Valid()
      reads this
    {
      1 <= currentStep <= TotalSteps
    }

    constructor()
      ensures Valid() && currentStep == 1
    {
      currentStep := 1;
    }

    /** Moves forward, never past the last step, only when the current step's fields pass. */
    method NextStep(d: RegisterData, isEmail: string -> bool)
      requires Valid()
      modifies this
      ensures Valid()
      ensures currentStep ==
        if StepAccepted(old(currentStep), d, isEmail) then Min(old(currentStep) + 1, TotalSteps)
        else old(currentStep)
    {
      var isValid := StepAccepted(currentStep, d, isEmail);
      if isValid {
        currentStep := Min(currentStep + 1, TotalSteps);
      }
    }

    /** Moves back, never before the first step; no validation. */
    method PrevStep()
      requires Valid()
      modifies this
      ensures Valid()
      ensures currentStep == Max(old(currentStep) - 1, 1)
    {
      currentStep := Max(currentStep - 1, 1);
    }

    /** The submit form is rendered on the last step only. */
    function ShowsSubmit(): bool
      reads this
    {
      currentStep == TotalSteps
    }
  }

  function Min(a: int, b: int): int { if a < b then a else b }
  function Max(a: int, b: int): int { if a < b then b else a }

  /** The slice action dispatched once the reply is classified. */
  function Settle(o: Outcome): (a: Action)
    ensures a.RegisterSuccess? || a.RegisterFailure?
  {
    match o
    case SignedIn(u, t) => RegisterSuccess(u, t)
    case Rejected(m) => RegisterFailure(m)
  }

  /**
   * `onSubmit` behind `handleSubmit`: runs only when the whole schema
   * accepts the data, then `registerStart`, and `registerSuccess` or
   * `registerFailure` from the reply; the modal closes on success only.
   */
  method Submit(slice: Slice, d: RegisterData, isEmail: string -> bool, x: Exchange)
    returns (closed: bool)
    modifies slice, slice.storage
    ensures !RegisterValid(d, isEmail) ==>
      !closed && slice.State() == old(slice.State()) && slice.storage.items == old(slice.storage.items)
    ensures RegisterValid(d, isEmail) ==>
      closed == Classify(x, RegisterFallback).SignedIn?
      && slice.State() == Reduce(Reduce(old(slice.State()), RegisterStart), Settle(Classify(x, RegisterFallback)))
    ensures slice.storage.items ==
      if RegisterValid(d, isEmail) && closed && slice.storage.available
      then Saved(old(slice.storage.items), Classify(x, RegisterFallback).account, Some(Classify(x, RegisterFallback).token), true)
      else old(slice.storage.items)
  {
    closed := false;
    if !RegisterValid(d, isEmail) {
      return;
    }
    slice.RegisterStart();
    var o := Classify(x, RegisterFallback);
    match o
    case SignedIn(u, t) =>
      slice.RegisterSuccess(u, t);
      closed := true;
    case Rejected(m) =>
      slice.RegisterFailure(m);
  }
}
