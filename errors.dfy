/** The result types of validator.go: one `FieldError` per failing rule, the
    top-level `ValidationError`, and the `ValidationResult` that gathers them. */
module Errors {
  import opened Wrappers

  datatype FieldError = FieldError(field: string, message: string) {
    /** `FieldError.Error()`: the field label, a colon and a space, then the message. */
    function Error(): (s: string)
      ensures |s| == |field| + 2 + |message|
      ensures s[..|field|] == field && s[|field|..|field| + 2] == ": " && s[|field| + 2..] == message
    {
      field + ": " + message
    }
  }

  /** `ValidationError`, whose delegated error is nil (`None`) or carries a message. */
  datatype ValidationError = ValidationError(delegated: Option<string>)

  /** `newValidationError(msg)`. */
  function NewValidationError(msg: string): ValidationError {
    ValidationError(Some(msg))
  }

  datatype ValidationResult = ValidationResult(
    valid: bool,
    error: ValidationError,
    fieldErrors: seq<FieldError>)
  {
    /** `ValidationResult.IsValid()`: the stored flag, which nothing else decides. */
    predicate IsValid() {
      valid
    }
  }
}
