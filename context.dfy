/** `ValidationContext` (context.go) and the calling convention of rule functions
    (validator.go): the context a rule sees, what a validator and a filter give back. */
module Context {
  import opened Reflection
  import opened Options

  /** A fresh context per rule call: the field's live value, the field's resolved
      kind, the pointer and null flags, the options, and this rule's own arguments. */
  datatype ValidationContext = ValidationContext(
    value: Value,
    valueKind: Kind,
    isPointer: bool,
    isNull: bool,
    options: ValidationOptions,
    args: seq<string>)
  {
    /** `ArgCount()`: how many arguments the rule declaration carried. */
    function ArgCount(): (n: nat)
      ensures n == |args|
    {
      |args|
    }

    /** `IsValueOfKind(k)`: the field's resolved kind is `k`. */
    predicate IsValueOfKind(k: Kind) {
      valueKind == k
    }
  }

  /** What a validator gives back: its boolean verdict and the text it left in the
      context's `ErrorMessage` slot ("" when it left it alone). */
  datatype Verdict = Verdict(ok: bool, errorMessage: string)

  /** `ValidationFunction`. */
  type ValidationFunction = ValidationContext -> Verdict

  /** `FilterFunction`: the new value to write back into the field. */
  type FilterFunction = ValidationContext -> Value
}
