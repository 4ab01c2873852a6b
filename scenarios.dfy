/**
 * The behaviours the test suite checks, as client methods over the model: each builds the kind of
 * configuration the test builds, performs the same calls, and states the outcome the test expects,
 * for any settings type, property and value of the shape the test uses.
 */
module Scenarios {
  import opened Wrappers
  import opened Types
  import opened Validation
  import opened Errors
  import opened KeyResolution
  import opened Managers
  import opened ConfigurationExtension
  import opened ValidationGate
  import opened Samples

  /** A reporting manager over an empty configuration reports the key it resolves, once. */
  method CanReportKeyNaming(t: TypeId) returns (key: Result<string, Error>, report: seq<string>)
    ensures key == Success(DeclaredKey(t))
    ensures report == ["[ConfigurationKey]: '" + DeclaredKey(t) + "'"]
  {
    var config := new ConfigurationRoot(map[]);
    var sink := new ReportSink();
    var manager := new ConfigurationManager.Reporting(config, sink);
    key := manager.GetKeyByType(Some(t));
    report := sink.lines;
  }

  /** A reporting manager needs a report action. */
  method ThrowsOnMissingReportAction() returns (r: Result<ConfigurationManager, Error>)
    ensures r == Failure(ArgumentNull("reportAction"))
  {
    var config := new ConfigurationRoot(map[]);
    r := ConfigurationManager.CreateReporting(config, null);
  }

  /** Looking the same type up twice gives the same key, the one its declaration prescribes. */
  method RepeatedLookupsAgree(t: TypeId) returns (first: Result<string, Error>, second: Result<string, Error>)
    ensures first == second == Success(DeclaredKey(t))
  {
    var config := new ConfigurationRoot(map[]);
    var manager := new ConfigurationManager(config);
    first := manager.GetKeyByType(Some(t));
    second := manager.GetKeyByType(Some(t));
  }

  /**
   * A section whose value breaks `NotEmpty().Length(1, 15)`, under a registered validator, makes
   * `Configure` fail with a validation error for the type, as the empty `StringSetting` does.
   */
  method ThrowOnInvalidSetting(t: TypeId, property: string, value: string) returns (r: Result<Option<Settings>, Error>)
    requires !ShortName(Some(value))
    ensures r.Failure? && r.error.ValidationFailed?
    ensures r.error.settingType == t && r.error.message == ExtractionFailedMessage
    ensures r.error.result == Validate(Validator([ShortNameRule(property)]), Settings(t, map[property := value]))
  {
    var services := new ServiceCollection();
    var config := new ConfigurationRoot(map[DeclaredKey(t) := map[property := value]]);
    var manager := new ConfigurationManager.Validating(config);
    var registered := ConfigureValidator(manager, t, Validator([ShortNameRule(property)]));
    var bound := Settings(t, map[property := value]);
    assert PropertyValue(bound, property) == Some(value);
    ShortNameRuleValid(property, bound);
    assert property in bound.properties;
    assert manager.KeyReport(DeclaredKey(t)) == Success([]);
    assert Bind(config.sections, DeclaredKey(t), t) == Some(bound);
    r := Configure(services, manager, t, false);
  }

  /** A valid value passes the same pipeline and comes back exactly as bound. */
  method AcceptsValidSetting(t: TypeId, property: string, value: string) returns (r: Result<Option<Settings>, Error>)
    requires ShortName(Some(value))
    ensures r == Success(Some(Settings(t, map[property := value])))
  {
    var services := new ServiceCollection();
    var config := new ConfigurationRoot(map[DeclaredKey(t) := map[property := value]]);
    var manager := new ConfigurationManager.Validating(config);
    var registered := ConfigureValidator(manager, t, Validator([ShortNameRule(property)]));
    var bound := Settings(t, map[property := value]);
    assert PropertyValue(bound, property) == Some(value);
    ShortNameRuleValid(property, bound);
    assert property in bound.properties;
    assert manager.KeyReport(DeclaredKey(t)) == Success([]);
    assert Bind(config.sections, DeclaredKey(t), t) == Some(bound);
    r := Configure(services, manager, t, false);
  }

  /** A required setting that the configuration does not hold is a `MissingSettingException`. */
  method ThrowsOnUnconfiguredSetting(t: TypeId) returns (r: Result<Option<Settings>, Error>, report: seq<string>)
    ensures r == Failure(MissingSetting(t))
    ensures report == ["[ConfigurationKey]: '" + DeclaredKey(t) + "'"]
  {
    var services := new ServiceCollection();
    var config := new ConfigurationRoot(map[]);
    var sink := new ReportSink();
    var manager := new ConfigurationManager.Reporting(config, sink);
    assert manager.ExtractFromKey(t, DeclaredKey(t)) == Success(None);
    r := Configure(services, manager, t, true);
    report := sink.lines;
  }

  /** A setting bound under an explicit section key, which neither the type nor the cache names. */
  method TestManualNamedOptions(t: TypeId, sectionKey: string, property: string, value: string)
    returns (r: Result<Option<Settings>, Error>, report: seq<string>)
    requires sectionKey != ""
    ensures r == Success(Some(Settings(t, map[property := value])))
    ensures report == []
  {
    var services := new ServiceCollection();
    var config := new ConfigurationRoot(map[sectionKey := map[property := value]]);
    var sink := new ReportSink();
    var manager := new ConfigurationManager.Reporting(config, sink);
    assert property in map[property := value];
    r := ConfigureWithKey(services, manager, t, Some(sectionKey), false);
    report := sink.lines;
  }

  /** Extraction binds the configuration as it is now: a reloaded value is seen by the next call. */
  method SeesReloadedValue(t: TypeId, property: string, initial: string, reloaded: string)
    returns (before: Result<Option<Settings>, Error>, after: Result<Option<Settings>, Error>)
    ensures before == Success(Some(Settings(t, map[property := initial])))
    ensures after == Success(Some(Settings(t, map[property := reloaded])))
  {
    var config := new ConfigurationRoot(map[DeclaredKey(t) := map[property := initial]]);
    var manager := new ConfigurationManager(config);
    assert manager.KeyReport(DeclaredKey(t)) == Success([]);
    assert property in map[property := initial];
    before := manager.ExtractSettings(t);
    config.sections := map[DeclaredKey(t) := map[property := reloaded]];
    after := manager.ExtractSettings(t);
  }
}
