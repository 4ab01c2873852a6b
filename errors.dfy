/** The exceptions the modelled code throws, as values. */
module Errors {
  import opened Types
  import opened Validation

  datatype Error =
    /** `ArgumentNullException(paramName)`. */
    | ArgumentNull(paramName: string)
    /** `ArgumentException` for an empty string argument. */
    | ArgumentEmpty(paramName: string)
    /** `NullReferenceException`: a member accessed through a null reference. */
    | NullReference
    /** `ArgumentException` from `Dictionary.Add` when the key is already present. */
    | DuplicateKey(key: TypeId)
    /** `KeyNotFoundException` from the dictionary indexer. */
    | KeyNotFound(key: TypeId)
    /** The project's `ValidationException(result, settingType, message)`. */
    | ValidationFailed(result: ValidationResult, settingType: TypeId, message: string)
    /** The project's `MissingSettingException(settingType)`. */
    | MissingSetting(settingType: TypeId)
    /** `FormatException` from `string.Format`. */
    | FormatError
}
