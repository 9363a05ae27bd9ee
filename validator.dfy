/** The package-level state and entry points of validator.go: the global options
    installed by `init`, `SetupOptions` and `CopyOptions`, and the type check that
    opens `Validate`. */
module Validator {
  import opened Wrappers
  import opened Reflection
  import opened Options
  import opened Errors
  import opened Cache
  import opened Functions

  /** The error `Validate` reports for an input that is not a struct. */
  const InvalidInput := "Invalid input type. Expected struct"

  /** The package variables: the global options, the schema cache and the rule
      registry. */
  class Globals {
    var globalOptions: ValidationOptions
    var cache: FieldCache
    var registry: Registry

    /** `init` (with the registry as functions.go declares it): the default options
        and an empty cache. */
    constructor ()
      ensures globalOptions == DefaultOptions
      ensures fresh(cache) && cache.backend == map[]
      ensures fresh(registry) && registry.validatorFunctions == InitialValidators()
      ensures registry.filterFunctions == InitialFilters()
    {
      globalOptions := DefaultOptions;
      cache := new FieldCache();
      registry := new Registry();
    }

    /** `SetupOptions`: the callback edits the global options; it is given here as
        the function from the old options to the new ones. */
    method SetupOptions(configure: ValidationOptions -> ValidationOptions)
      modifies this
      ensures globalOptions == configure(old(globalOptions))
      ensures cache == old(cache) && registry == old(registry)
    {
      globalOptions := configure(globalOptions);
    }

    /** `CopyOptions`: an exact copy of the global options. */
    method CopyOptions() returns (opts: ValidationOptions)
      ensures opts == globalOptions
    {
      opts := globalOptions;
    }
  }

  /** `Validate` as written, up to its type check: the result is never valid, has
      no field errors, and carries the "Expected struct" error exactly when the
      kind of the argument's type is not `Struct`. */
  function Validate(t: GoType): (res: ValidationResult)
    ensures !res.IsValid() && res.fieldErrors == []
    ensures res.error.delegated.Some? <==> t.KindOf() != Struct
    ensures res.error.delegated.Some? ==> res.error == NewValidationError(InvalidInput)
  {
    var res := ValidationResult(false, ValidationError(None), []);
    if t.KindOf() != Struct then res.(error := NewValidationError(InvalidInput)) else res
  }

  /** The documented call `Validate(&myStruct)` passes a pointer to a struct, whose
      kind is `Pointer`, so the type check as written turns it away. */
  lemma ValidateRejectsStructPointer(fields: seq<GoType>)
    ensures Validate(PointerTo(StructOf(fields))).error == NewValidationError(InvalidInput)
  {
  }

  /** The type check the documentation asks for: a pointer to a struct. */
  predicate IsStructPointer(t: GoType) {
    t.PointerTo? && t.elem.KindOf() == Struct
  }

  /** `Validate` with the type check its documentation describes: a pointer to a
      struct passes, anything else (a struct passed by value included, which the
      filters could not write back into) gets the "Expected struct" error. */
  function ValidateStructPointer(t: GoType): (res: ValidationResult)
    ensures !res.IsValid() && res.fieldErrors == []
    ensures res.error.delegated.None? <==> IsStructPointer(t)
    ensures res.error.delegated.Some? ==> res.error == NewValidationError(InvalidInput)
  {
    var res := ValidationResult(false, ValidationError(None), []);
    if !IsStructPointer(t) then res.(error := NewValidationError(InvalidInput)) else res
  }

  /** With the documented type check, the documented call gets past it. */
  lemma ValidateStructPointerAccepts(fields: seq<GoType>)
    ensures ValidateStructPointer(PointerTo(StructOf(fields))).error == ValidationError(None)
    ensures ValidateStructPointer(StructOf(fields)).error == NewValidationError(InvalidInput)
  {
  }
}
