/**
 * The part of FluentValidation the project relies on: a validator is a list of property rules,
 * each rule a chain of checks (`RuleFor(p).NotEmpty().Length(min, max)`), and validating an
 * instance gives a result listing one failure per failed check, in rule and chain order
 * (the default cascade mode runs every check of a chain).
 */
module Validation {
  import opened Wrappers
  import opened Types

  datatype Check = NotEmpty | Length(min: nat, max: nat)

  datatype PropertyRule = RuleFor(property: string, checks: seq<Check>)

  datatype Validator = Validator(rules: seq<PropertyRule>)

  datatype ValidationFailure = ValidationFailure(propertyName: string, check: Check)

  datatype ValidationResult = ValidationResult(errors: seq<ValidationFailure>)
  {
    /** `ValidationResult.IsValid`: no failure was recorded. */
    predicate IsValid() { |errors| == 0 }
  }

  /** `char.IsWhiteSpace` for the Basic Multilingual Plane: the Unicode separators and U+0009..U+000D, U+0085. */
  predicate IsWhiteSpace(c: char)
  {
    c == ' ' || ('\t' <= c <= '\r') || c == '\U{85}' || c == '\U{A0}' || c == '\U{1680}'
    || ('\U{2000}' <= c <= '\U{200A}') || c == '\U{2028}' || c == '\U{2029}' || c == '\U{202F}'
    || c == '\U{205F}' || c == '\U{3000}'
  }

  /** `string.IsNullOrWhiteSpace`. */
  predicate IsNullOrWhiteSpace(v: Option<string>)
  {
    v.None? || forall i :: 0 <= i < |v.value| ==> IsWhiteSpace(v.value[i])
  }

  /**
   * `string.Length`: the number of UTF-16 code units, one for a character of the Basic
   * Multilingual Plane and two (a surrogate pair) for any other.
   */
  function Utf16Length(s: string): (n: nat)
    ensures |s| <= n <= 2 * |s|
    ensures (forall i :: 0 <= i < |s| ==> s[i] <= '\U{FFFF}') ==> n == |s|
    ensures (forall i :: 0 <= i < |s| ==> s[i] > '\U{FFFF}') ==> n == 2 * |s|
    decreases |s|
  {
    if |s| == 0 then 0
    else
      assert forall i :: 0 <= i < |s| - 1 ==> s[1..][i] == s[i + 1];
      (if s[0] > '\U{FFFF}' then 2 else 1) + Utf16Length(s[1..])
  }

  /**
   * Whether a string property value passes one check: `NotEmpty` rejects null, empty and
   * white-space-only strings, so it accepts exactly the values holding a character that is not
   * white space; `Length` accepts null and otherwise bounds the length in UTF-16 code units,
   * which bounds the number of characters too.
   */
  predicate Passes(c: Check, v: Option<string>)
    ensures c == NotEmpty ==>
      (Passes(c, v) <==> v.Some? && exists i :: 0 <= i < |v.value| && !IsWhiteSpace(v.value[i]))
    ensures v.None? ==> (Passes(c, v) <==> c.Length?)
    ensures c.Length? && v.Some? && Passes(c, v) ==> |v.value| <= c.max && c.min <= 2 * |v.value|
  {
    match c
    case NotEmpty => !IsNullOrWhiteSpace(v)
    case Length(min, max) => v.None? || min <= Utf16Length(v.value) <= max
  }

  /** The failures one rule chain records for the value `v` of `property`, in chain order. */
  function ChainFailures(property: string, checks: seq<Check>, v: Option<string>): (r: seq<ValidationFailure>)
    ensures |r| == 0 <==> forall i :: 0 <= i < |checks| ==> Passes(checks[i], v)
    ensures forall f :: f in r ==> f.propertyName == property && f.check in checks && !Passes(f.check, v)
    ensures forall i :: 0 <= i < |checks| && !Passes(checks[i], v) ==> ValidationFailure(property, checks[i]) in r
    decreases |checks|
  {
    if |checks| == 0 then []
    else
      var rest := ChainFailures(property, checks[1..], v);
      if Passes(checks[0], v) then rest else [ValidationFailure(property, checks[0])] + rest
  }

  /** Every check of every rule in `rules` passes on `s`. */
  ghost predicate AllPass(rules: seq<PropertyRule>, s: Settings)
  {
    forall i, j :: 0 <= i < |rules| && 0 <= j < |rules[i].checks| ==>
      Passes(rules[i].checks[j], PropertyValue(s, rules[i].property))
  }

  function RulesFailures(rules: seq<PropertyRule>, s: Settings): (r: seq<ValidationFailure>)
    ensures |r| == 0 <==> AllPass(rules, s)
    ensures forall f :: f in r ==> !Passes(f.check, PropertyValue(s, f.propertyName))
    decreases |rules|
  {
    if |rules| == 0 then []
    else
      var head := ChainFailures(rules[0].property, rules[0].checks, PropertyValue(s, rules[0].property));
      var rest := RulesFailures(rules[1..], s);
      assert AllPass(rules, s) <==> (forall j :: 0 <= j < |rules[0].checks| ==>
        Passes(rules[0].checks[j], PropertyValue(s, rules[0].property))) && AllPass(rules[1..], s) by {
        assert forall i :: 0 <= i < |rules| - 1 ==> rules[1..][i] == rules[i + 1];
      }
      head + rest
  }

  /**
   * `IValidator.Validate` on a non-null instance: the result is valid exactly when every check of
   * every rule passes, and each recorded failure names a property whose value fails that check.
   */
  function Validate(v: Validator, s: Settings): (r: ValidationResult)
    ensures r.IsValid() <==> AllPass(v.rules, s)
    ensures forall f :: f in r.errors ==> !Passes(f.check, PropertyValue(s, f.propertyName))
  {
    ValidationResult(RulesFailures(v.rules, s))
  }
}
