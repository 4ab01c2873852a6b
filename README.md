# FluiTec.AppFx.Options in Dafny

This project models the core of FluiTec.AppFx.Options, a library that binds typed settings
classes to sections of a .NET configuration.

- **Key cache.** A `ConfigurationManager` names the section of a settings type by its
  `[ConfigurationKey]` attribute, or else by the type's simple name, and caches that choice per type.
- **Reporting.** A `ReportingConfigurationManager` additionally hands one formatted report line per
  key lookup to a report action.
- **Validation.** A `ValidatingConfigurationManager` keeps a registry of FluentValidation validators
  and refuses to hand out an instance its validator rejects.
- **Configure.** The `ConfigurationExtension.Configure` overloads check their arguments, run the
  extraction, and apply the `required` rule.
- **Option editor.** Items show a configuration key by the text after its last `:`, compose child keys
  as `parent:name`, and store only changed values.
- **Exception description.** `ExceptionToString` builds a description in a fixed segment order.
- **Concrete validators.** The sample and test validators apply `NotEmpty().Length(1, 15)` to one
  string property.

Files:

- **Common types:**
  - `wrappers.dfy`: Option and Result.
  - `types.dfy`: reflected types and bound instances.
  - `errors.dfy`: the exceptions the core throws, as values.
- **Validation:**
  - `validation.dfy`: FluentValidation rules, the `NotEmpty` and `Length` checks, and `char.IsWhiteSpace`.
  - `validation_gate.dfy`: the validating manager's gate and change handler.
- **Keys and reports:**
  - `string_format.dfy`: `string.Format`.
  - `key_resolution.dfy`: the key cache as a function.
  - `reporting.dfy`: the default key report.
- **Managers and extensions:**
  - `configuration_manager.dfy`: the three managers as one class.
  - `configuration_extension.dfy`: the `Configure` and `ConfigureValidator` extensions.
- **Editor and formatter:**
  - `options_console.dfy`: the editor items.
  - `exception_formatter.dfy`: the exception description.
- **Samples and tests:**
  - `sample_settings.dfy`: the sample and test settings types and validators.
  - `scenarios.dfy`: the tested behaviours as client methods.

Design notes:

- **One class for three managers.** The three manager classes form a closed hierarchy. They are one
  Dafny class whose constant `kind` says which of them an object is. The overridden `GetKeyByType`
  and `ExtractSettings` dispatch on `kind`.
- **Constructors.** The C# constructors throw on null arguments. Each one is modelled twice:
  - a Dafny constructor for non-null arguments;
  - a static `Create…` method that returns the `ArgumentNullException` as a `Failure`.
- **Report action.** The report action is a `ReportSink` object whose `lines` the manager appends to.
- **Configuration.** The configuration is a `ConfigurationRoot` object mapping each section key to its
  values.
- **Binding.** Binding a section gives null when the section holds nothing. Otherwise it gives a new
  instance of the type holding the section's values.
- **Exceptions.** Every thrown exception is a `Failure` value.
- **Keyed extraction.** `ValidatingConfigurationManager.cs:36` overrides a keyed
  `ExtractSettings(configurationKey)` that `ConfigurationManager.cs` does not declare. The
  model gives the keyed extraction the guards the tests expect: a null key is `ArgumentNullException`
  and an empty key is `ArgumentException`. It reads the section directly.
- **Validation on unkeyed extraction.** The validating gate is applied to the unkeyed extraction as
  well. `ConfigurationManager.cs` and `ValidatingConfigurationManager.cs` have no such override, but the test `ThrowOnInvalidSetting` expects a
  `ValidationException` from the unkeyed `Configure`.
- **Configure's call into the manager.** `ConfigurationExtension.cs:53` calls
  `manager.Configure<TSettings>(services)`, whose body is not in this revision. It is modelled as the manager's
  extraction of `TSettings`.
- **Null values reach the validator.** The code hands a null bound value to the validator
  (`ValidatingConfigurationManager.cs:41`), and FluentValidation's `Validate(object)` rejects null
  with `ArgumentNullException`. The model does the same.

## Model

| member | source | states |
|---|---|---|
| KeyResolution.DeclaredKey | src/FluiTec.AppFx.Options/Managers/ConfigurationManager.cs:58-63 | a type with a `ConfigurationKey` attribute is keyed by the attribute's name, any other type by its simple name |
| KeyResolution.Resolve | src/FluiTec.AppFx.Options/Managers/ConfigurationManager.cs:55-66 | a cached type gets its cached key and leaves the cache as it was; an uncached type gets its attribute's name, or else its simple name; afterwards the type maps to the returned key, every earlier entry is kept, and nothing else is added |
| KeyResolution.ResolveCoherent | src/FluiTec.AppFx.Options/Managers/ConfigurationManager.cs:58-63 | when every cached key is the one its type declares, a lookup returns the declared key and keeps that invariant |
| KeyResolution.ResolveIdempotent | src/FluiTec.AppFx.Options/Managers/ConfigurationManager.cs:55 | looking the same type up again returns the same key and leaves the cache unchanged |
| KeyResolution.ResolveAllKeepsEntries | src/FluiTec.AppFx.Options/Managers/ConfigurationManager.cs:63-66 | over any sequence of lookups the cache only grows: an existing entry is never replaced |
| KeyResolution.KeyStableAcrossLookups | src/FluiTec.AppFx.Options/Managers/ConfigurationManager.cs:55-66 | a type's key stays the same however many other lookups happen in between |
| Managers.Bind | src/FluiTec.AppFx.Options/Managers/ConfigurationManager.cs:87-88 | binding gives null exactly when the section is missing or holds no value; otherwise a new instance of the requested type whose every property has the section's value for it, null where the section has none |
| Managers.ConfigurationManager.Create | src/FluiTec.AppFx.Options/Managers/ConfigurationManager.cs:31-34 | a null configuration is exactly the `ArgumentNullException("configuration")` case; otherwise the result is a fresh plain manager with an empty cache |
| Managers.ConfigurationManager.constructor | src/FluiTec.AppFx.Options/Managers/ConfigurationManager.cs:20-34 | a new manager holds the configuration and an empty key cache |
| Managers.ConfigurationManager.Reporting | src/FluiTec.AppFx.Options/Managers/ReportingConfigurationManager.cs:24-30 | a new reporting manager holds the report action and the template `[ConfigurationKey]: '{0}'` |
| Managers.ConfigurationManager.CreateReporting | src/FluiTec.AppFx.Options/Managers/ReportingConfigurationManager.cs:24-26 | the base constructor's null check on the configuration comes first, then the report action's; with both present the result is a fresh reporting manager |
| Managers.ConfigurationManager.Validating | src/FluiTec.AppFx.Options/Managers/ValidatingConfigurationManager.cs:15-21 | a new validating manager starts with an empty validator registry |
| Managers.ConfigurationManager.CreateValidating | src/FluiTec.AppFx.Options/Managers/ValidatingConfigurationManager.cs:19-21 | a null configuration is exactly the `ArgumentNullException("configuration")` case; any other configuration yields a fresh validating manager with an empty cache and no validators |
| Managers.ConfigurationManager.LookUpKey | src/FluiTec.AppFx.Options/Managers/ConfigurationManager.cs:50-67 | a null type is `ArgumentNullException("type")` and leaves the cache unchanged; otherwise the key and the new cache are those of `Resolve`, and the cache invariant holds |
| Managers.ConfigurationManager.GetKeyByType | src/FluiTec.AppFx.Options/Managers/ReportingConfigurationManager.cs:47-52 | the base lookup, then, on a reporting manager, exactly one report line for the key, on a hit as on a miss; a null type reports nothing; a malformed template fails after the key was cached |
| Managers.ConfigurationManager.KeyReport | src/FluiTec.AppFx.Options/Managers/ReportingConfigurationManager.cs:50 | a lookup reports nothing on other managers and at most one line on a reporting one; with the default template that line is `[ConfigurationKey]: '<key>'` |
| Managers.ConfigurationManager.ExtractSettings | src/FluiTec.AppFx.Options/Managers/ConfigurationManager.cs:84-90 | looks the key up through the virtual `GetKeyByType`, so it caches and reports the key, and binds the section the configuration holds now, with no cached result |
| Managers.ConfigurationManager.ExtractFromKey | src/FluiTec.AppFx.Options/Managers/ConfigurationManager.cs:87-89 | a non-null result is a new instance of the type holding exactly the section's values; only a validating manager can fail, and what it returns for a type with a validator is an instance that validator accepts |
| Managers.ConfigurationManager.ExtractSettingsWithKey | src/FluiTec.AppFx.Options.Tests/ConfigurationManagerTest.cs:84-132 | a null section key is `ArgumentNullException`, an empty one `ArgumentException`; any other key is read directly, without the cache and without a report |
| Managers.ConfigurationManager.KeepValidating | src/FluiTec.AppFx.Options/Managers/ValidatingConfigurationManager.cs:50-58 | a non-null monitor gains exactly this manager's change handler; a null monitor is ignored |
| ValidationGate.ValidateObject | src/FluiTec.AppFx.Options/Managers/ValidatingConfigurationManager.cs:41 | a null instance is refused with `ArgumentNullException("instance")`; any other instance gets a result that is valid exactly when all checks of all rules pass |
| ValidationGate.ExtractionGate | src/FluiTec.AppFx.Options/Managers/ValidatingConfigurationManager.cs:38-45 | the bound value is never altered: with no validator for the type everything passes; with one, an instance passes exactly when it validates, and a rejected one is a `ValidationException` carrying the result, the type and "Validation for setting failed."; a null value reaches the validator and fails with `ArgumentNullException` |
| ValidationGate.ChangeHandler | src/FluiTec.AppFx.Options/Managers/ValidatingConfigurationManager.cs:52-57 | a new value whose runtime type has no validator is a `KeyNotFoundException`; otherwise the handler fails exactly when the validator rejects the value, with "Changed variable caused ValidationFailure." |
| ValidationGate.GateAgreesWithChangeHandler | src/FluiTec.AppFx.Options/Managers/ValidatingConfigurationManager.cs:40-57 | extraction and change validation agree: an instance passes the gate exactly when the change handler accepts it |
| Validation.Utf16Length | src/tests/FluiTec.AppFx.Options.Tests/ConfigurationOptions/Validators/OptionWithDefaultKeyValidator.cs:9 | the length `Length` bounds is .NET's `string.Length`: one code unit per character of the Basic Multilingual Plane and two per other character, so between the character count and twice it |
| Validation.Passes | src/tests/FluiTec.AppFx.Options.Tests/ConfigurationOptions/Validators/OptionWithDefaultKeyValidator.cs:9 | `NotEmpty` accepts exactly the values holding a character that is not white space; on null only `Length` passes; a value passing `Length(min, max)` has at most `max` characters |
| Validation.ChainFailures | src/tests/FluiTec.AppFx.Options.Tests/ConfigurationOptions/Validators/OptionWithDefaultKeyValidator.cs:9 | a rule chain records no failure exactly when every check passes; every failing check is recorded, and every recorded failure names the property and a failing check of the chain |
| Validation.RulesFailures | src/tests/FluiTec.AppFx.Options.Tests/ConfigurationOptions/Validators/OptionWithDefaultKeyValidator.cs:9 | a validator's rules record no failure exactly when every check of every rule passes, and every recorded failure is a real one |
| Validation.Validate | src/FluiTec.AppFx.Options/Managers/ValidatingConfigurationManager.cs:64-67 | the result is valid exactly when every check of every rule passes on the instance |
| Formatting.Format | src/FluiTec.AppFx.Options/Managers/ReportingConfigurationManager.cs:50 | `string.Format`: a template without braces comes back unchanged; the error cases are stated by the three lemmas below |
| Formatting.MissingArgument | src/FluiTec.AppFx.Options/Managers/ReportingConfigurationManager.cs:50 | a placeholder `{d}` whose index has no argument is a `FormatException`, whatever literal text precedes it |
| Formatting.LoneClosingBrace | src/FluiTec.AppFx.Options/Managers/ReportingConfigurationManager.cs:50 | a `}` that is not doubled is a `FormatException` |
| Formatting.UnterminatedPlaceholder | src/FluiTec.AppFx.Options/Managers/ReportingConfigurationManager.cs:50 | a `{` followed only by digits up to the end of the template is a `FormatException` |
| Formatting.FormatLiteral | src/FluiTec.AppFx.Options/Managers/ReportingConfigurationManager.cs:50 | literal text in front of a template is copied unchanged in front of the rest's expansion |
| Formatting.FormatArgument | src/FluiTec.AppFx.Options/Managers/ReportingConfigurationManager.cs:50 | a placeholder `{d}` is replaced by argument `d` |
| Reporting.DefaultKeyReportLine | src/FluiTec.AppFx.Options/Managers/ReportingConfigurationManager.cs:29 | the default template reports key `k` as `[ConfigurationKey]: 'k'` |
| ExceptionFormatter.HeaderFormat | src/FluiTec.AppFx.Options/Helpers/ExceptionFormatterExtensions.cs:18 | the header template gives the type name, ": " and the message |
| ExceptionFormatter.InnerFormat | src/FluiTec.AppFx.Options/Helpers/ExceptionFormatterExtensions.cs:24 | the inner template gives " ---> " and the inner exception's text |
| ExceptionFormatter.EndOfInnerFormat | src/FluiTec.AppFx.Options/Helpers/ExceptionFormatterExtensions.cs:25-27 | the end-of-inner template puts the end-of-inner-trace line between two line breaks |
| ExceptionFormatter.AppendInnerException | src/FluiTec.AppFx.Options/Helpers/ExceptionFormatterExtensions.cs:22-28 | with an inner exception the marker, its text and the end-of-inner-trace line are appended; without one the buffer is kept |
| ExceptionFormatter.ExceptionToString | src/FluiTec.AppFx.Options/Helpers/ExceptionFormatterExtensions.cs:13-33 | the description is header, then custom text (none for a null action), then the inner section, then the stack trace (none when null), in that order; it starts with the header, ends with the stack trace, and without an inner exception it is exactly header, custom text and stack trace |
| ConfigurationExtension.ConfigureValidator | src/FluiTec.AppFx.Options/Extensions/ConfigurationExtension.cs:34-37 | a null manager is a `NullReferenceException`; a type that already has a validator is refused and the registry stays as it was; otherwise exactly that entry is added; the key cache and template are untouched |
| ConfigurationExtension.Configure | src/FluiTec.AppFx.Options/Extensions/ConfigurationExtension.cs:47-57 | `services` is checked before `manager`, and neither failure touches the manager; then the manager's extraction runs, caching and reporting the key, and its outcome goes through the `required` rule |
| ConfigurationExtension.ConfigureWithKey | src/FluiTec.AppFx.Options/Extensions/ConfigurationExtension.cs:68-78 | the same checks in the same order, then the keyed extraction and the `required` rule |
| ConfigurationExtension.RequireSetting | src/FluiTec.AppFx.Options/Extensions/ConfigurationExtension.cs:54-56 | a required setting that came back null is a `MissingSettingException` for the type; otherwise the extraction's outcome is passed on unchanged, and a required result is never null |
| OptionsConsole.LastIndexOf | src/FluiTec.AppFx.Options/Console/OptionsConsoleItem.cs:16 | `LastIndexOf` is -1 or a position holding the character, and no later position holds it |
| OptionsConsole.DisplayNameOf | src/FluiTec.AppFx.Options/Console/OptionsConsoleItem.cs:15-16 | the display name is the key itself when it has no ':'; otherwise it is the suffix of the key after a ':' and holds no ':' of its own |
| OptionsConsole.DisplayNameByLastColon | src/FluiTec.AppFx.Options/Console/OptionsConsoleItem.cs:16 | the display name is the text after the last ':' of the key |
| OptionsConsole.LastColonOfComposed | src/FluiTec.AppFx.Options/Console/AddOptionConsoleItem.cs:59 | the last ':' of `parent:name` is the last ':' of `name`, or else the separator |
| OptionsConsole.ComposedKeyDisplayName | src/FluiTec.AppFx.Options/Console/AddOptionConsoleItem.cs:59 | an option added under a parent shows the same display name as the entered name |
| OptionsConsole.ComposedKeyRoundTrip | src/FluiTec.AppFx.Options/Console/AddOptionConsoleItem.cs:59 | the entered name is shown back unchanged exactly when it holds no ':' |
| OptionsConsole.EditKey | src/FluiTec.AppFx.Options/Console/AddOptionConsoleItem.cs:59 | below an options item the key is that item's key, then ':', then exactly the entered name, and it shows the name's display name; below any other item it is the name |
| OptionsConsole.OptionsConsoleModule.GetSettingValue | src/FluiTec.AppFx.Options/Console/OptionsConsoleItem.cs:36 | a key with a stored value gives that value, any other key null |
| OptionsConsole.OptionsConsoleModule.EditSetting | src/FluiTec.AppFx.Options/Console/OptionsConsoleItem.cs:43-45 | records the edit; the value is stored, and true returned, only with a save-enabled provider |
| OptionsConsole.OptionsConsoleItem.constructor | src/FluiTec.AppFx.Options/Console/OptionsConsoleItem.cs:15-22 | the item keeps the full key and is named by its display name |
| OptionsConsole.OptionsConsoleItem.Value | src/FluiTec.AppFx.Options/Console/OptionsConsoleItem.cs:36 | the `Value` getter is the module's stored value for the item's key, null when there is none |
| OptionsConsole.OptionsConsoleItem.SetValue | src/FluiTec.AppFx.Options/Console/OptionsConsoleItem.cs:37-52 | a value equal to the stored one changes nothing; any other value makes exactly one edit for the item's key, after which a save-enabled module holds it |
| OptionsConsole.AddOptionConsoleItem.constructor | src/FluiTec.AppFx.Options/Console/AddOptionConsoleItem.cs:17-20 | the item keeps its module and has no parent yet |
| OptionsConsole.AddOptionConsoleItem.DisplayName | src/FluiTec.AppFx.Options/Console/AddOptionConsoleItem.cs:32-36 | the item is shown as "Add new option" |
| OptionsConsole.AddOptionConsoleItem.Display | src/FluiTec.AppFx.Options/Console/AddOptionConsoleItem.cs:50-64 | `Parent` becomes the given item's parent, and the module receives exactly one edit: the composed key with the entered value |
| Samples.ShortNameRuleValid | src/tests/FluiTec.AppFx.Options.Tests/ConfigurationOptions/Validators/OptionWithDefaultKeyValidator.cs:9 | `NotEmpty().Length(1, 15)` accepts exactly the non-null, not-all-white-space values of 1 to 15 UTF-16 code units, and reports each failed check in chain order |
| Samples.OptionWithDefaultKeyValid | src/tests/FluiTec.AppFx.Options.Tests/ConfigurationOptions/Validators/OptionWithDefaultKeyValidator.cs:9 | `OptionWithDefaultKeyValidator`, the constant holding the single rule `NotEmpty().Length(1, 15)` on `StringSetting`, accepts an `OptionWithDefaultKey` exactly when its `StringSetting` is such a value |
| Samples.ApplicationSettingsValid | src/samples/FluiTec.AppFx.Options.ConsoleSample/Configuration/ApplicationSettings.cs:16 | `ApplicationSettingsValidator`, the constant holding the same rule on `Name`, accepts an `ApplicationSettings` exactly when its `Name` is such a value |
| Samples.EmptyStringSettingFailsTwice | src/tests/FluiTec.AppFx.Options.Tests/ConfigurationOptions/Validators/OptionWithDefaultKeyValidator.cs:9 | an empty `StringSetting` fails both `NotEmpty` and `Length` |
| Samples.NullPropertyFailsNotEmpty | src/samples/FluiTec.AppFx.Options.ConsoleSample/Configuration/ApplicationSettings.cs:16 | a null property fails `NotEmpty` and nothing else |
| Samples.TooLongIsInvalid | src/samples/FluiTec.AppFx.Options.ConsoleSample/Configuration/ApplicationSettings.cs:16 | a value longer than 15 UTF-16 code units fails `Length` and is invalid |
| Samples.WhiteSpaceIsInvalid | src/tests/FluiTec.AppFx.Options.Tests/ConfigurationOptions/Validators/OptionWithDefaultKeyValidator.cs:9 | a white-space-only value fails `NotEmpty` and is invalid |
| Samples.VisibleShortNameIsValid | src/tests/FluiTec.AppFx.Options.Tests/ConfigurationOptions/Validators/OptionWithDefaultKeyValidator.cs:9 | a value of 1 to 15 UTF-16 code units with a character that is not white space is valid |
| Samples.SupplementaryCharactersCountTwice | src/tests/FluiTec.AppFx.Options.Tests/ConfigurationOptions/Validators/OptionWithDefaultKeyValidator.cs:9 | eight characters outside the Basic Multilingual Plane are sixteen code units: such a value fails `Length(1, 15)` and is invalid |
| Samples.TestValuesAreValid | src/tests/FluiTec.AppFx.Options.Tests/ReportingConfigurationManagerTest.cs:184-196 | "test" and "test2" are valid `StringSetting` values |
| Samples.SampleKeys | src/samples/FluiTec.AppFx.Options.ConsoleSample/Configuration/ApplicationSettings.cs:6 | `ApplicationSettings` is keyed "AppSettings" rather than by its type name; the attributed test type is keyed "ConfigKey", and the plain one by its name |
| Scenarios.CanReportKeyNaming | src/tests/FluiTec.AppFx.Options.Tests/ReportingConfigurationManagerTest.cs:38-46 | a reporting manager returns the declared key and reports it as one default-template line |
| Scenarios.ThrowsOnMissingReportAction | src/tests/FluiTec.AppFx.Options.Tests/ReportingConfigurationManagerTest.cs:29-35 | a reporting manager without a report action is `ArgumentNullException("reportAction")` |
| Scenarios.RepeatedLookupsAgree | src/FluiTec.AppFx.Options/Managers/ConfigurationManager.cs:55 | two lookups of one type return the same, declared key |
| Scenarios.ThrowOnInvalidSetting | src/tests/FluiTec.AppFx.Options.Tests/ValidatingConfigurationManagerTest.cs:22-39 | with the validator registered, an invalid bound value makes `Configure` fail with a `ValidationException` for the type and the validator's result |
| Scenarios.AcceptsValidSetting | src/tests/FluiTec.AppFx.Options.Tests/ReportingConfigurationManagerTest.cs:174-191 | with the validator registered, a valid value comes back from `Configure` exactly as bound |
| Scenarios.ThrowsOnUnconfiguredSetting | src/tests/FluiTec.AppFx.Options.Tests/ConfigurationExtensionTest.cs:56-65 | a required setting missing from the configuration is a `MissingSettingException`, after the key was reported |
| Scenarios.TestManualNamedOptions | src/tests/FluiTec.AppFx.Options.Tests/ConfigurationExtensionTest.cs:35-54 | a setting bound under an explicit section key comes back with the section's value, and nothing is reported |
| Scenarios.SeesReloadedValue | src/FluiTec.AppFx.Options/Managers/ConfigurationManager.cs:84-90 | extraction caches no result: a value changed in the configuration is seen by the next extraction |

## Left out

- Dependency injection: what `Configure` registers in the service collection, and the service provider, are not modelled. Only the extraction `Configure` performs and its outcome are.
- `UseSettingsValidator` (src/FluiTec.AppFx.Options/Extensions/ConfigurationExtension.cs:14-28), and the delivery of change notifications by `IOptionsMonitor.OnChange`: these are callbacks fired asynchronously on reload. The handler body is modelled as `ValidationGate.ChangeHandler`, and `KeepValidating` records the registration.
- The `AggregateException` wrapping of a failing change handler is not modelled.
- Reporting of bound property values, redaction of secret properties and "settings changed" lines: newer tests expect them, but no manager in this revision implements them.
- `DirectoryHelper`: it depends on the assembly location, OS detection and regular expressions.
- Console output: `ConsoleReportingConfigurationManager`, the sample and `Programs/*` hosts, `OptionsConsoleExtensions`, and every `AnsiConsole` prompt and rendering in the two editor items. The strings the user enters are parameters.
- `OptionsConsoleItem.Display` and `CreateDefaultItems`: they are menu navigation in the console framework.
- OptionsConsole.AddOptionConsoleItem.Display: the closing navigation call `Parent.Display(null)` is not modelled. Neither are its two null dereferences: a null item at `parent.Parent`, and, after the edit was made, an item without a parent at `Parent.Display(null)`. The model returns normally in both cases.
- `ModuleConsoleItem` (the base of `OptionsConsoleModule`) is not part of this model. `GetSettingValue` and `EditSetting` are modelled from how the items use them: a key/value store that keeps its edits only with a save-enabled provider.
- Formatting.Format: alignment and format-string components inside a placeholder (`{0,5}`, `{0:x}`) are treated as malformed, and so are spaces between the index and the closing brace (`{0 }`), which .NET accepts. None of the templates here uses them.
- Managers.ConfigurationManager.GetKeyByType: `ConfigurationKeyReport` is a settable property, and setting it to null makes `string.Format` throw `ArgumentNullException`. The model's template is a non-null string, so that case is not modelled.
- KeyResolution.Resolve: types are compared by value (full name, simple name and attribute), whereas `Dictionary<Type, string>` compares type identity. Two distinct types from different assemblies that agree on all three would share one cache entry in the model.
- Validation.Validator: a validator is a list of `NotEmpty` and `Length` chains on string properties, run under the default cascade mode. Other rules, `When` conditions, `CascadeMode.Stop`, child validators and properties that are not strings are not modelled.
- OptionsConsole.OptionsConsoleItem.SetValue: the C# setter also accepts null, which equals a missing stored value and otherwise leads to `EditSetting(Key, null)`. The model's value is a non-null string. Its only caller passes a string the user entered.
- Configuration keys are compared case-sensitively; .NET configuration compares them case-insensitively.
- The binder is abstracted: type conversion, nested sections and arrays are not modelled. A bound instance is its type plus the section's string values.
- `ExceptionFormatter.ExceptionToString`: the custom-fields action is modelled as the text it appends given the buffer so far. An action that rewrites or clears what is already in the buffer is not modelled.
- Managers.ConfigurationManager.GetKeyByType: the `ConfigurationKeyAttribute` is assumed to carry a non-null name. A null `Name` would cache a null key.
- ConfigurationExtension.ConfigureValidator: it requires a validating manager. The newest tests also register validators on a reporting manager, which the reporting manager of this revision does not support. A null validator value is not modelled.
