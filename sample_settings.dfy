/**
 * The concrete settings types and validators: `OptionWithDefaultKey`, which the tests bind under
 * its type name and validate with `OptionWithDefaultKeyValidator`, and the console sample's
 * `ApplicationSettings`, which carries `[ConfigurationKey("AppSettings")]` and whose `Name` the
 * `ApplicationSettingsValidator` checks. Both validators apply `NotEmpty().Length(1, 15)` to one
 * string property.
 */
module Samples {
  import opened Wrappers
  import opened Types
  import opened Validation
  import opened KeyResolution

  /** The test options type: no `ConfigurationKey` attribute, one string property `StringSetting`. */
  const OptionWithDefaultKey: TypeId :=
    TypeId("FluiTec.AppFx.Options.Tests.ConfigurationOptions.OptionWithDefaultKey", "OptionWithDefaultKey", None)

  /** The test options type carrying `[ConfigurationKey("ConfigKey")]`. */
  const OptionWithAttributeKey: TypeId :=
    TypeId("FluiTec.AppFx.Options.Tests.ConfigurationOptions.OptionWithAttributeKey", "OptionWithAttributeKey", Some("ConfigKey"))

  /** The console sample's settings type, keyed "AppSettings" by its attribute. */
  const ApplicationSettings: TypeId :=
    TypeId("FluiTec.AppFx.Options.ConsoleSample.Configuration.ApplicationSettings", "ApplicationSettings", Some("AppSettings"))

  /** `RuleFor(setting => setting.<property>).NotEmpty().Length(1, 15)`. */
  function ShortNameRule(property: string): PropertyRule
  {
    RuleFor(property, [NotEmpty, Length(1, 15)])
  }

  const OptionWithDefaultKeyValidator: Validator := Validator([ShortNameRule("StringSetting")])

  const ApplicationSettingsValidator: Validator := Validator([ShortNameRule("Name")])

  /**
   * A value satisfies `NotEmpty().Length(1, 15)`: present, not all white space, and 1 to 15
   * UTF-16 code units long.
   */
  predicate ShortName(v: Option<string>)
  {
    v.Some? && !IsNullOrWhiteSpace(v) && 1 <= Utf16Length(v.value) <= 15
  }

  /**
   * A validator with the single rule `NotEmpty().Length(1, 15)` on `property` accepts an
   * instance exactly when that property's value is a short name, and otherwise reports a failure
   * of each check the value fails, in chain order.
   */
  lemma ShortNameRuleValid(property: string, s: Settings)
    ensures Validate(Validator([ShortNameRule(property)]), s).IsValid() <==> ShortName(PropertyValue(s, property))
    ensures Validate(Validator([ShortNameRule(property)]), s).errors ==
      (if Passes(NotEmpty, PropertyValue(s, property)) then [] else [ValidationFailure(property, NotEmpty)])
      + (if Passes(Length(1, 15), PropertyValue(s, property)) then [] else [ValidationFailure(property, Length(1, 15))])
  {
    var rules := [ShortNameRule(property)];
    var v := PropertyValue(s, property);
    var checks := rules[0].checks;
    assert checks[1..] == [Length(1, 15)];
    assert checks[1..][1..] == [];
    assert rules[1..] == [];
    assert ChainFailures(property, checks[1..], v) ==
      (if Passes(Length(1, 15), v) then [] else [ValidationFailure(property, Length(1, 15))]);
    assert RulesFailures(rules, s) == ChainFailures(property, checks, v) + RulesFailures(rules[1..], s);
  }

  /** `OptionWithDefaultKeyValidator` accepts exactly the instances whose `StringSetting` is a short name. */
  lemma OptionWithDefaultKeyValid(s: Settings)
    ensures Validate(OptionWithDefaultKeyValidator, s).IsValid() <==> ShortName(PropertyValue(s, "StringSetting"))
  {
    ShortNameRuleValid("StringSetting", s);
  }

  /** `ApplicationSettingsValidator` accepts exactly the instances whose `Name` is a short name. */
  lemma ApplicationSettingsValid(s: Settings)
    ensures Validate(ApplicationSettingsValidator, s).IsValid() <==> ShortName(PropertyValue(s, "Name"))
  {
    ShortNameRuleValid("Name", s);
  }

  /** An empty `StringSetting` fails both checks of the chain. */
  lemma EmptyStringSettingFailsTwice(s: Settings)
    requires PropertyValue(s, "StringSetting") == Some("")
    ensures Validate(OptionWithDefaultKeyValidator, s).errors ==
      [ValidationFailure("StringSetting", NotEmpty), ValidationFailure("StringSetting", Length(1, 15))]
  {
    ShortNameRuleValid("StringSetting", s);
  }

  /** A null property fails `NotEmpty` only: `Length` accepts null. */
  lemma NullPropertyFailsNotEmpty(property: string, s: Settings)
    requires PropertyValue(s, property).None?
    ensures Validate(Validator([ShortNameRule(property)]), s).errors == [ValidationFailure(property, NotEmpty)]
  {
    ShortNameRuleValid(property, s);
  }

  /** A value longer than 15 UTF-16 code units fails `Length`, and is thus invalid, whatever it holds. */
  lemma TooLongIsInvalid(property: string, s: Settings)
    requires PropertyValue(s, property).Some? && Utf16Length(PropertyValue(s, property).value) > 15
    ensures !Validate(Validator([ShortNameRule(property)]), s).IsValid()
    ensures ValidationFailure(property, Length(1, 15)) in Validate(Validator([ShortNameRule(property)]), s).errors
  {
    ShortNameRuleValid(property, s);
  }

  /** A value made only of white space passes `Length` when short enough but fails `NotEmpty`. */
  lemma WhiteSpaceIsInvalid(property: string, s: Settings)
    requires PropertyValue(s, property).Some? && IsNullOrWhiteSpace(PropertyValue(s, property))
    ensures !Validate(Validator([ShortNameRule(property)]), s).IsValid()
    ensures ValidationFailure(property, NotEmpty) in Validate(Validator([ShortNameRule(property)]), s).errors
  {
    ShortNameRuleValid(property, s);
  }

  /** A value of 1 to 15 UTF-16 code units with a character that is not white space is valid. */
  lemma VisibleShortNameIsValid(property: string, s: Settings, k: nat)
    requires PropertyValue(s, property).Some?
    requires 1 <= Utf16Length(PropertyValue(s, property).value) <= 15
    requires k < |PropertyValue(s, property).value| && !IsWhiteSpace(PropertyValue(s, property).value[k])
    ensures Validate(Validator([ShortNameRule(property)]), s).IsValid()
  {
    ShortNameRuleValid(property, s);
  }

  /**
   * Characters outside the Basic Multilingual Plane count twice: eight of them are sixteen code
   * units, too long for `Length(1, 15)`, although the value has only eight characters.
   */
  lemma SupplementaryCharactersCountTwice(property: string, s: Settings)
    requires PropertyValue(s, property).Some? && |PropertyValue(s, property).value| == 8
    requires forall i :: 0 <= i < 8 ==> PropertyValue(s, property).value[i] > '\U{FFFF}'
    ensures !Validate(Validator([ShortNameRule(property)]), s).IsValid()
    ensures ValidationFailure(property, Length(1, 15)) in Validate(Validator([ShortNameRule(property)]), s).errors
  {
    assert Utf16Length(PropertyValue(s, property).value) == 16;
    TooLongIsInvalid(property, s);
  }

  /** The values the tests bind and reload, "test" and "test2", are valid. */
  lemma TestValuesAreValid(s: Settings)
    requires PropertyValue(s, "StringSetting") in {Some("test"), Some("test2")}
    ensures Validate(OptionWithDefaultKeyValidator, s).IsValid()
  {
    assert PropertyValue(s, "StringSetting").value[0] == 't';
    VisibleShortNameIsValid("StringSetting", s, 0);
  }

  /** A type without the attribute is keyed by its simple name, one with it by the attribute's name. */
  lemma SampleKeys()
    ensures DeclaredKey(OptionWithDefaultKey) == "OptionWithDefaultKey"
    ensures DeclaredKey(OptionWithAttributeKey) == "ConfigKey"
    ensures DeclaredKey(ApplicationSettings) == "AppSettings"
    ensures DeclaredKey(ApplicationSettings) != ApplicationSettings.name
  {
  }
}
