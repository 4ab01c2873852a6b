/**
 * `ConfigurationExtension`: registering a validator with a validating manager, and the two
 * `Configure` overloads that check their arguments, extract the settings through the manager and
 * apply the `required` rule. What `Configure` registers in the service collection is not modelled;
 * the extraction it performs is.
 */
module ConfigurationExtension {
  import opened Wrappers
  import opened Types
  import opened Validation
  import opened Errors
  import opened KeyResolution
  import opened Managers

  /** An `IServiceCollection`; only whether it is null matters here. */
  class ServiceCollection {
    constructor ()
    {
    }
  }

  /**
   * The `required` rule: a failure of the extraction propagates; a null result of a required
   * extraction is a MissingSettingException for `t`; anything else is returned as it is. So a
   * successful call returns exactly what was extracted, and never null when `required` holds.
   */
  function RequireSetting(required: bool, t: TypeId, settings: Result<Option<Settings>, Error>)
    : (r: Result<Option<Settings>, Error>)
    ensures r.Success? ==> r == settings
    ensures r.Success? && required ==> r.value.Some?
    ensures settings.Failure? ==> r == settings
    ensures settings.Success? && (!required || settings.value.Some?) ==> r == settings
    ensures required && settings == Success(None) ==> r == Failure(MissingSetting(t))
  {
    match settings
    case Failure(_) => settings
    case Success(value) => if required && value.None? then Failure(MissingSetting(t)) else settings
  }

  /**
   * `ConfigureValidator<TSettings>(manager, validator)`: `Validators.Add(typeof(TSettings), validator)`.
   * A type that already has a validator is refused (`Dictionary.Add` throws) and the registry
   * stays as it was; otherwise exactly that one entry is added.
   */
  method ConfigureValidator(manager: ConfigurationManager?, t: TypeId, validator: Validator)
    returns (r: Result<(), Error>)
    requires manager != null ==> manager.kind.ValidatingManager?
    modifies manager
    ensures manager == null ==> r == Failure(NullReference)
    ensures manager != null ==>
      manager.configurationKeys == old(manager.configurationKeys)
      && manager.configurationKeyReport == old(manager.configurationKeyReport)
    ensures manager != null && t in old(manager.validators) ==>
      r == Failure(DuplicateKey(t)) && manager.validators == old(manager.validators)
    ensures manager != null && t !in old(manager.validators) ==>
      r == Success(()) && manager.validators == old(manager.validators)[t := validator]
  {
    if manager == null {
      return Failure(NullReference);
    }
    if t in manager.validators {
      return Failure(DuplicateKey(t));
    }
    manager.validators := manager.validators[t := validator];
    r := Success(());
  }

  /**
   * `Configure<TSettings>(services, manager, required)`: `services` is checked before `manager`,
   * and neither failure touches the manager; then the manager extracts `t` as its
   * `ExtractSettings` does (resolving, caching and, on a reporting manager, reporting the key) and
   * the `required` rule is applied to the outcome.
   */
  method Configure(services: ServiceCollection?, manager: ConfigurationManager?, t: TypeId, required: bool)
    returns (r: Result<Option<Settings>, Error>)
    requires manager != null ==> manager.Valid()
    modifies if manager == null then {} else {manager} + manager.Sinks()
    ensures services == null ==> r == Failure(ArgumentNull("services"))
    ensures services != null && manager == null ==> r == Failure(ArgumentNull("manager"))
    ensures services == null && manager != null ==>
      unchanged(manager) && manager.ReportedLines() == old(manager.ReportedLines())
    ensures services != null && manager != null ==>
      manager.Valid() && manager.configurationKeys == Resolve(old(manager.configurationKeys), t).cache
      && manager.configurationKeyReport == old(manager.configurationKeyReport)
      && manager.validators == old(manager.validators)
    ensures services != null && manager != null ==>
      match manager.KeyReport(DeclaredKey(t))
      case Success(lines) =>
        r == RequireSetting(required, t, manager.ExtractFromKey(t, DeclaredKey(t)))
        && manager.ReportedLines() == old(manager.ReportedLines()) + lines
      case Failure(e) => r == Failure(e) && manager.ReportedLines() == old(manager.ReportedLines())
  {
    if services == null {
      return Failure(ArgumentNull("services"));
    }
    if manager == null {
      return Failure(ArgumentNull("manager"));
    }
    var settings := manager.ExtractSettings(t);
    r := RequireSetting(required, t, settings);
  }

  /**
   * `Configure<TSettings>(services, manager, configurationKey, required)`: the same checks in the
   * same order, then the keyed extraction with `configurationKey` and the `required` rule.
   */
  method ConfigureWithKey(services: ServiceCollection?, manager: ConfigurationManager?, t: TypeId,
                          configurationKey: Option<string>, required: bool)
    returns (r: Result<Option<Settings>, Error>)
    ensures services == null ==> r == Failure(ArgumentNull("services"))
    ensures services != null && manager == null ==> r == Failure(ArgumentNull("manager"))
    ensures services != null && manager != null ==>
      r == RequireSetting(required, t, manager.ExtractSettingsWithKey(t, configurationKey))
  {
    if services == null {
      return Failure(ArgumentNull("services"));
    }
    if manager == null {
      return Failure(ArgumentNull("manager"));
    }
    r := RequireSetting(required, t, manager.ExtractSettingsWithKey(t, configurationKey));
  }
}
