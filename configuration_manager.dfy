/**
 * `ConfigurationManager` and its two subclasses `ReportingConfigurationManager` and
 * `ValidatingConfigurationManager`. The three form a closed hierarchy, modelled as one class whose
 * constant `kind` says which of them an object is; members that only a subclass has require its
 * kind, and the overridden `GetKeyByType` and `ExtractSettings` dispatch on it.
 */
module Managers {
  import opened Wrappers
  import opened Types
  import opened Validation
  import opened Errors
  import opened Formatting
  import opened KeyResolution
  import opened Reporting
  import opened ValidationGate

  /** The configuration root a manager reads: every section path mapped to the values below it. */
  class ConfigurationRoot {
    var sections: map<string, map<string, string>>

    constructor (sections: map<string, map<string, string>>)
      ensures this.sections == sections
    {
      this.sections := sections;
    }
  }

  /** What a report action (`Action<string>`) is handed: its lines, in the order it received them. */
  class ReportSink {
    var lines: seq<string>

    constructor ()
      ensures lines == []
    {
      lines := [];
    }
  }

  /** An options monitor, as far as `KeepValidating` uses it: the managers whose change handler it holds. */
  class OptionsMonitor {
    var listeners: seq<ConfigurationManager>

    constructor ()
      ensures listeners == []
    {
      listeners := [];
    }
  }

  /**
   * `configuration.GetSection(key).Get<T>()`: null when the section holds no value, otherwise a
   * new instance of `t` holding the section's values.
   */
  function Bind(sections: map<string, map<string, string>>, key: string, t: TypeId): (r: Option<Settings>)
    ensures r.Some? <==> key in sections && sections[key] != map[]
    ensures r.Some? ==> r.value.settingsType == t
    ensures r.Some? ==> forall p :: PropertyValue(r.value, p) == if p in sections[key] then Some(sections[key][p]) else None
  {
    if key in sections && sections[key] != map[] then Some(Settings(t, sections[key])) else None
  }

  datatype ManagerKind =
    | PlainManager
    | ReportingManager(reportAction: ReportSink)
    | ValidatingManager

  class ConfigurationManager {
    const kind: ManagerKind
    const configuration: ConfigurationRoot
    /** `ConfigurationKeys`: the key cache. */
    var configurationKeys: map<TypeId, string>
    /** `ConfigurationKeyReport` of a reporting manager. */
    var configurationKeyReport: string
    /** `Validators` of a validating manager. */
    var validators: map<TypeId, Validator>

    /** The cache only ever holds the keys the types prescribe. */
    ghost predicate Valid()
      reads this
    {
      Coherent(configurationKeys)
    }

    /** The objects a key lookup may change besides the cache: the report action's target. */
    function Sinks(): set<object>
    {
      if kind.ReportingManager? then {kind.reportAction} else {}
    }

    /** The lines this manager has handed to its report action. */
    ghost function ReportedLines(): seq<string>
      reads Sinks()
    {
      if kind.ReportingManager? then kind.reportAction.lines else []
    }

    /**
     * The lines a key lookup returning `key` reports: none unless this is a reporting manager,
     * which reports `string.Format(ConfigurationKeyReport, key)` or fails with its FormatException.
     */
    function KeyReport(key: string): (r: Result<seq<string>, Error>)
      reads this
      ensures !kind.ReportingManager? ==> r == Success([])
      ensures kind.ReportingManager? && r.Success? ==> |r.value| == 1
      ensures kind.ReportingManager? && configurationKeyReport == DefaultConfigurationKeyReport ==>
        r == Success(["[ConfigurationKey]: '" + key + "'"])
    {
      if !kind.ReportingManager? then Success([])
      else
        DefaultKeyReportLine(key);
        match Format(configurationKeyReport, [key])
        case Some(line) => Success([line])
        case None => Failure(FormatError)
    }

    /**
     * Extraction from the section `key` for type `t`: the bound value, passed through the
     * validation gate on a validating manager. A non-null result is a new instance of `t` holding
     * exactly the section's values; only a validating manager can fail, and what it returns for a
     * type with a validator is an instance that validator accepts.
     */
    function ExtractFromKey(t: TypeId, key: string): (r: Result<Option<Settings>, Error>)
      reads this, configuration
      ensures r.Success? ==> r.value == Bind(configuration.sections, key, t)
      ensures r.Success? && r.value.Some? ==>
        key in configuration.sections && r.value.value == Settings(t, configuration.sections[key])
      ensures !kind.ValidatingManager? ==> r.Success?
      ensures kind.ValidatingManager? && t in validators && r.Success? ==>
        r.value.Some? && Validate(validators[t], r.value.value).IsValid()
    {
      var setting := Bind(configuration.sections, key, t);
      if kind.ValidatingManager? then ExtractionGate(validators, t, setting) else Success(setting)
    }

    /** `new ConfigurationManager(configuration)` with a non-null configuration. */
    constructor (configuration: ConfigurationRoot)
      ensures kind == PlainManager && this.configuration == configuration
      ensures configurationKeys == map[] && validators == map[] && Valid()
    {
      kind := PlainManager;
      this.configuration := configuration;
      configurationKeys := map[];
      configurationKeyReport := "";
      validators := map[];
    }

    /** `new ReportingConfigurationManager(configuration, reportAction)` with non-null arguments. */
    constructor Reporting(configuration: ConfigurationRoot, reportAction: ReportSink)
      ensures kind == ReportingManager(reportAction) && this.configuration == configuration
      ensures configurationKeys == map[] && validators == map[] && Valid()
      ensures configurationKeyReport == DefaultConfigurationKeyReport
    {
      kind := ReportingManager(reportAction);
      this.configuration := configuration;
      configurationKeys := map[];
      configurationKeyReport := DefaultConfigurationKeyReport;
      validators := map[];
    }

    /** `new ValidatingConfigurationManager(configuration)` with a non-null configuration. */
    constructor Validating(configuration: ConfigurationRoot)
      ensures kind == ValidatingManager && this.configuration == configuration
      ensures configurationKeys == map[] && validators == map[] && Valid()
    {
      kind := ValidatingManager;
      this.configuration := configuration;
      configurationKeys := map[];
      configurationKeyReport := "";
      validators := map[];
    }

    /** `new ConfigurationManager(configuration)`: a null configuration is an ArgumentNullException. */
    static method Create(configuration: ConfigurationRoot?) returns (r: Result<ConfigurationManager, Error>)
      ensures configuration == null <==> r == Failure(ArgumentNull("configuration"))
      ensures configuration != null ==> r.Success?
      ensures r.Success? ==>
        fresh(r.value) && r.value.kind == PlainManager && r.value.Valid()
        && r.value.configuration == configuration && r.value.configurationKeys == map[]
    {
      if configuration == null {
        return Failure(ArgumentNull("configuration"));
      }
      var manager := new ConfigurationManager(configuration);
      r := Success(manager);
    }

    /**
     * `new ReportingConfigurationManager(configuration, reportAction)`: the base constructor's
     * check on the configuration comes first, then the report action must not be null.
     */
    static method CreateReporting(configuration: ConfigurationRoot?, reportAction: ReportSink?)
      returns (r: Result<ConfigurationManager, Error>)
      ensures configuration == null ==> r == Failure(ArgumentNull("configuration"))
      ensures configuration != null && reportAction == null ==> r == Failure(ArgumentNull("reportAction"))
      ensures configuration != null && reportAction != null ==>
        r.Success? && fresh(r.value) && r.value.kind == ReportingManager(reportAction) && r.value.Valid()
        && r.value.configuration == configuration && r.value.configurationKeys == map[]
        && r.value.configurationKeyReport == DefaultConfigurationKeyReport
    {
      if configuration == null {
        return Failure(ArgumentNull("configuration"));
      }
      if reportAction == null {
        return Failure(ArgumentNull("reportAction"));
      }
      var manager := new ConfigurationManager.Reporting(configuration, reportAction);
      r := Success(manager);
    }

    /** `new ValidatingConfigurationManager(configuration)`: the base constructor's null check. */
    static method CreateValidating(configuration: ConfigurationRoot?) returns (r: Result<ConfigurationManager, Error>)
      ensures configuration == null <==> r == Failure(ArgumentNull("configuration"))
      ensures configuration != null ==> r.Success?
      ensures r.Success? ==>
        fresh(r.value) && r.value.kind == ValidatingManager && r.value.Valid()
        && r.value.configuration == configuration && r.value.configurationKeys == map[]
        && r.value.validators == map[]
    {
      if configuration == null {
        return Failure(ArgumentNull("configuration"));
      }
      var manager := new ConfigurationManager.Validating(configuration);
      r := Success(manager);
    }

    /**
     * `ConfigurationManager.GetKeyByType`: a null type is an ArgumentNullException and touches
     * nothing; otherwise the cached key is returned, or the prescribed key is cached and returned.
     */
    method LookUpKey(t: Option<TypeId>) returns (r: Result<string, Error>)
      requires Valid()
      modifies this`configurationKeys
      ensures Valid()
      ensures t.None? ==> r == Failure(ArgumentNull("type")) && configurationKeys == old(configurationKeys)
      ensures t.Some? ==>
        r == Success(Resolve(old(configurationKeys), t.value).key)
        && configurationKeys == Resolve(old(configurationKeys), t.value).cache
    {
      if t.None? {
        return Failure(ArgumentNull("type"));
      }
      var settingsType := t.value;
      if settingsType in configurationKeys {
        return Success(configurationKeys[settingsType]);
      }
      configurationKeys := configurationKeys[settingsType := DeclaredKey(settingsType)];
      r := Success(configurationKeys[settingsType]);
    }

    /**
     * The virtual `GetKeyByType`: the base lookup, followed on a reporting manager by one report
     * line for the key, on a cache hit as on a miss. A null type fails in the base lookup, before
     * anything is reported; a malformed report template fails after the key was cached.
     */
    method GetKeyByType(t: Option<TypeId>) returns (r: Result<string, Error>)
      requires Valid()
      modifies this`configurationKeys, Sinks()
      ensures Valid()
      ensures t.None? ==>
        r == Failure(ArgumentNull("type")) && configurationKeys == old(configurationKeys)
        && ReportedLines() == old(ReportedLines())
      ensures t.Some? ==> configurationKeys == Resolve(old(configurationKeys), t.value).cache
      ensures t.Some? ==>
        var key := Resolve(old(configurationKeys), t.value).key;
        match KeyReport(key)
        case Success(lines) => r == Success(key) && ReportedLines() == old(ReportedLines()) + lines
        case Failure(e) => r == Failure(e) && ReportedLines() == old(ReportedLines())
    {
      r := LookUpKey(t);
      if r.Failure? || !kind.ReportingManager? {
        return;
      }
      var line := Format(configurationKeyReport, [r.value]);
      if line.None? {
        return Failure(FormatError);
      }
      kind.reportAction.lines := kind.reportAction.lines + [line.value];
    }

    /**
     * `ExtractSettings<TSettings>()`: looks the key up through the virtual `GetKeyByType` (so a
     * reporting manager reports it) and binds that section afresh on every call; on a validating
     * manager the result then passes the validation gate.
     */
    method ExtractSettings(t: TypeId) returns (r: Result<Option<Settings>, Error>)
      requires Valid()
      modifies this`configurationKeys, Sinks()
      ensures Valid()
      ensures configurationKeys == Resolve(old(configurationKeys), t).cache
      ensures match KeyReport(DeclaredKey(t))
        case Success(lines) => r == ExtractFromKey(t, DeclaredKey(t)) && ReportedLines() == old(ReportedLines()) + lines
        case Failure(e) => r == Failure(e) && ReportedLines() == old(ReportedLines())
    {
      ResolveCoherent(configurationKeys, t);
      var key := GetKeyByType(Some(t));
      if key.Failure? {
        return Failure(key.error);
      }
      var setting := Bind(configuration.sections, key.value, t);
      if kind.ValidatingManager? {
        r := ExtractionGate(validators, t, setting);
      } else {
        r := Success(setting);
      }
    }

    /**
     * `ExtractSettings<TSettings>(configurationKey)`: a null key is an ArgumentNullException, an
     * empty one an ArgumentException; any other key is read directly, without the key cache and
     * without a report line.
     */
    function ExtractSettingsWithKey(t: TypeId, configurationKey: Option<string>): (r: Result<Option<Settings>, Error>)
      reads this, configuration
      ensures configurationKey.None? ==> r == Failure(ArgumentNull("configurationKey"))
      ensures configurationKey == Some("") ==> r == Failure(ArgumentEmpty("configurationKey"))
      ensures configurationKey.Some? && configurationKey.value != "" ==> r == ExtractFromKey(t, configurationKey.value)
    {
      match configurationKey
      case None => Failure(ArgumentNull("configurationKey"))
      case Some(key) => if key == "" then Failure(ArgumentEmpty("configurationKey")) else ExtractFromKey(t, key)
    }

    /** `KeepValidating(monitor)`: registers this manager's change handler with a non-null monitor. */
    method KeepValidating(monitor: OptionsMonitor?)
      requires kind.ValidatingManager?
      modifies monitor
      ensures monitor != null ==> monitor.listeners == old(monitor.listeners) + [this]
    {
      if monitor != null {
        monitor.listeners := monitor.listeners + [this];
      }
    }
  }
}
