/** The global rule registry (functions.go) and its one mutator shown in the source,
    `AddValidator` (validator.go). */
module Functions {
  import opened Wrappers
  import opened Context
  import Validators

  /** The validator table the package starts with: `required` alone. */
  function InitialValidators(): map<string, ValidationFunction> {
    map["required" := Validators.RequiredFunction]
  }

  /** The filter table the package starts with: empty. */
  function InitialFilters(): map<string, FilterFunction> {
    map[]
  }

  /** The message `AddValidator` panics with on a name already taken. */
  function DuplicateMessage(name: string): string {
    "a validator by the name of " + name + " already exists"
  }

  /** What `AddValidator` does to the validator table: a taken name is refused, with
      the table left as it was; a fresh name gets exactly one new entry. */
  function Register(table: map<string, ValidationFunction>, name: string, fn: ValidationFunction)
    : (r: Result<map<string, ValidationFunction>, string>)
    ensures r.Failure? <==> name in table
    ensures r.Failure? ==> r.error == DuplicateMessage(name)
    ensures r.Success? ==> r.value == table[name := fn]
  {
    if name in table then Failure(DuplicateMessage(name)) else Success(table[name := fn])
  }

  lemma RegisterDuplicateFails(table: map<string, ValidationFunction>, name: string, fn: ValidationFunction)
    requires name in table
    ensures Register(table, name, fn) == Failure(DuplicateMessage(name))
  {
  }

  lemma RegisterFreshAddsOne(table: map<string, ValidationFunction>, name: string, fn: ValidationFunction)
    requires name !in table
    ensures Register(table, name, fn).Success?
    ensures Register(table, name, fn).value.Keys == table.Keys + {name}
    ensures Register(table, name, fn).value[name] == fn
    ensures forall k | k in table :: Register(table, name, fn).value[k] == table[k]
  {
  }

  /** `required` cannot be registered again on the initial table. */
  lemma RequiredIsTaken(fn: ValidationFunction)
    ensures Register(InitialValidators(), "required", fn).Failure?
  {
  }

  /** The two global tables, `validatorFunctions` and `filterFunctions`. */
  class Registry {
    var validatorFunctions: map<string, ValidationFunction>
    var filterFunctions: map<string, FilterFunction>

    /** The package variables as functions.go initialises them. */
    constructor ()
      ensures validatorFunctions == InitialValidators()
      ensures filterFunctions == InitialFilters()
    {
      validatorFunctions := InitialValidators();
      filterFunctions := InitialFilters();
    }

    /** `AddValidator`; the panic on a taken name becomes a `Failure` result. */
    method AddValidator(name: string, fn: ValidationFunction) returns (r: Result<(), string>)
      modifies this
      ensures r.Failure? <==> name in old(validatorFunctions)
      ensures r.Failure? ==> r.error == DuplicateMessage(name)
      ensures Register(old(validatorFunctions), name, fn).Success? ==>
                validatorFunctions == Register(old(validatorFunctions), name, fn).value
      ensures r.Failure? ==> validatorFunctions == old(validatorFunctions)
      ensures filterFunctions == old(filterFunctions)
    {
      if name in validatorFunctions {
        return Failure(DuplicateMessage(name));
      }
      validatorFunctions := validatorFunctions[name := fn];
      r := Success(());
    }
  }
}
