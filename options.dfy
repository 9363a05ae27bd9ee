/** `ValidationOptions` (validator.go): the fields the struct declares, and the ones
    the field compiler and the executor read (the tag names of the flag, trigger,
    message and label channels, `StopOnFirstError`, `ExposeValidatorNames`). */
module Options {

  datatype ValidationOptions = ValidationOptions(
    privateFields: bool,
    useFullyQualifiedFieldNames: bool,
    filterTagName: string,
    validatorTagName: string,
    stringAutoTrim: bool,
    flagTagName: string,
    triggerTagName: string,
    messageTagName: string,
    labelTagName: string,
    stopOnFirstError: bool,
    exposeValidatorNames: bool)

  /** The options the package's `init` installs. The fields `init` does not name keep
      Go's zero values. */
  const DefaultOptions := ValidationOptions(
    privateFields := true,
    useFullyQualifiedFieldNames := false,
    filterTagName := "filter",
    validatorTagName := "validator",
    stringAutoTrim := false,
    flagTagName := "",
    triggerTagName := "",
    messageTagName := "",
    labelTagName := "",
    stopOnFirstError := false,
    exposeValidatorNames := false)
}
