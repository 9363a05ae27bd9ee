/** The built-in validators (validators/validators.go). */
module Validators {
  import opened Context

  /** `Required`: a value that is not a pointer is always present; a pointer is
      present when it is not nil. Nothing else about the context matters. */
  function Required(ctx: ValidationContext): (ok: bool)
    ensures ok <==> !(ctx.isPointer && ctx.isNull)
  {
    if ctx.isPointer then !ctx.isNull else true
  }

  /** `Required` as the registry holds it: it never writes an error message. */
  function RequiredFunction(ctx: ValidationContext): (v: Verdict)
    ensures v.ok == Required(ctx) && v.errorMessage == ""
  {
    Verdict(Required(ctx), "")
  }

  /** The verdict depends on the pointer and null flags alone, never on the value,
      the kind, the options or the arguments. */
  lemma RequiredDependsOnlyOnFlags(a: ValidationContext, b: ValidationContext)
    requires a.isPointer == b.isPointer && a.isNull == b.isNull
    ensures RequiredFunction(a) == RequiredFunction(b)
  {
  }
}
