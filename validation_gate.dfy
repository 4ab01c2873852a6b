/**
 * The decisions of `ValidatingConfigurationManager`: the gate an extracted value passes before it
 * is returned, and the body of the change handler `KeepValidating` registers.
 */
module ValidationGate {
  import opened Wrappers
  import opened Types
  import opened Validation
  import opened Errors

  const ExtractionFailedMessage: string := "Validation for setting failed."
  const ChangeFailedMessage: string := "Changed variable caused ValidationFailure."

  /**
   * `IValidator.Validate(object)`: FluentValidation refuses a null instance with an
   * `ArgumentNullException` and otherwise validates it.
   */
  function ValidateObject(v: Validator, setting: Option<Settings>): (r: Result<ValidationResult, Error>)
    ensures r.Failure? <==> setting.None?
    ensures r.Failure? ==> r.error == ArgumentNull("instance")
    ensures r.Success? ==> (r.value.IsValid() <==> AllPass(v.rules, setting.value))
  {
    match setting
    case None => Failure(ArgumentNull("instance"))
    case Some(s) => Success(Validate(v, s))
  }

  /**
   * What the validating extraction does with the value `setting` the base extraction produced for
   * type `t`. It never changes the value: it passes it through, or fails. Without a validator for
   * `t` it passes everything, null included; with one, it passes exactly the instances that
   * validator accepts, and fails with a `ValidationException` carrying the result and `t` on the
   * others. The value, null included, goes to the validator unchecked.
   */
  function ExtractionGate(validators: map<TypeId, Validator>, t: TypeId, setting: Option<Settings>)
    : (r: Result<Option<Settings>, Error>)
    ensures r.Success? ==> r.value == setting
    ensures t !in validators ==> r.Success?
    ensures t in validators && setting.Some? ==>
      (r.Success? <==> Validate(validators[t], setting.value).IsValid())
    ensures t in validators && setting.Some? && r.Failure? ==>
      r.error == ValidationFailed(Validate(validators[t], setting.value), t, ExtractionFailedMessage)
    ensures t in validators && setting.None? ==> r == Failure(ArgumentNull("instance"))
  {
    if t !in validators then Success(setting)
    else
      match ValidateObject(validators[t], setting)
      case Failure(e) => Failure(e)
      case Success(result) =>
        if !result.IsValid() then Failure(ValidationFailed(result, t, ExtractionFailedMessage))
        else Success(setting)
  }

  /**
   * The change handler registered by `KeepValidating`, run on the new value `o`: it looks the
   * validator up by the runtime type of `o` (a missing one is a `KeyNotFoundException`) and fails
   * exactly when that validator rejects `o`.
   */
  function ChangeHandler(validators: map<TypeId, Validator>, o: Settings): (r: Result<(), Error>)
    ensures o.settingsType !in validators ==> r == Failure(KeyNotFound(o.settingsType))
    ensures o.settingsType in validators ==>
      (r.Success? <==> Validate(validators[o.settingsType], o).IsValid())
    ensures o.settingsType in validators && r.Failure? ==>
      r.error == ValidationFailed(Validate(validators[o.settingsType], o), o.settingsType, ChangeFailedMessage)
  {
    if o.settingsType !in validators then Failure(KeyNotFound(o.settingsType))
    else
      match ValidateObject(validators[o.settingsType], Some(o))
      case Failure(e) => Failure(e)
      case Success(result) =>
        if !result.IsValid() then Failure(ValidationFailed(result, o.settingsType, ChangeFailedMessage))
        else Success(())
  }

  /**
   * One-shot and continuous validation agree: for an instance of a type with a validator, the
   * extraction gate lets it through exactly when the change handler accepts it as a new value.
   */
  lemma GateAgreesWithChangeHandler(validators: map<TypeId, Validator>, s: Settings)
    requires s.settingsType in validators
    ensures ExtractionGate(validators, s.settingsType, Some(s)).Success? <==> ChangeHandler(validators, s).Success?
  {
  }
}
