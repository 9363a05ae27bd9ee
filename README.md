# go-struct-validator: the per-field rule engine in Dafny

This project models the core of go-struct-validator, a Go package that validates
and normalises struct values from rules declared in struct tags
(`validator:"required|range(10,50)"`, `filter:"trim"`, and, when the options name
those channels, trigger, message, label and flag tags such as `trigger:"update"`).

The heart of the model is the per-field rule engine of `field_context.go`:

- **Rule tokens.** `extractFunctionInformation` turns a token such as `min(10)` into a
  name and its arguments.
- **Field compiler.** `mustParseField` turns one struct field and its tags into a field
  context. It sets the triggers, the label, the message template, the resolved kind,
  the zero value, the validator and filter chains bound against the registry, and the
  flags.
- **Trigger selector.** `activate` decides whether a field runs for a trigger.
- **Executor.** `apply` runs a field's validators and filters against a live struct
  value. It covers the `allow_zero` skip, one `FieldError` per failing validator,
  `StopOnFirstError`, and filters that write the field back in place.

Around the engine, the model covers:

- the rule registry (`functions.go` and `AddValidator`);
- the built-in `Required`;
- the `ValidationContext` accessors;
- the schema cache;
- the `Stack`;
- the comparator description table;
- the global options and the type check at the start of `Validate`.

Modules follow the source files:

| module | file | contents |
|---|---|---|
| `Wrappers` | | Option and Result |
| `GoStrings` | | the parts of Go's `strings` package the engine uses (`Split`, `Trim`, `TrimSpace`, `Index`, `LastIndex`, ...) |
| `Reflection` | | what the engine learns from `reflect`, as values: kinds, types, live values, struct fields with their tag maps |
| `Options` | validator.go | `ValidationOptions` and the defaults set by `init` |
| `Errors` | validator.go | `FieldError`, `ValidationError`, `ValidationResult` |
| `Context` | context.go | `ValidationContext`; validators and filters as functions |
| `Validators` | validators/validators.go | `Required` |
| `FieldContexts` | field_context.go, flags.go, filters.go | the rule engine |
| `Functions` | functions.go, validator.go | the registry (a class) and `AddValidator` |
| `Cache` | cache.go | the schema cache (a class) |
| `Stacks` | stack.go | the stack (a class) |
| `Comparators` | types.go | the comparator table |
| `Validator` | validator.go | package state, `SetupOptions`, `CopyOptions`, and the start of `Validate` |

### How the source's form is kept

- The source's mutable objects are classes whose methods update their fields:
  - the stack slice;
  - the cache map;
  - the registry maps;
  - the global options;
  - the struct value the filters write into.
- The loops of `mustParseField` and `apply` are methods with `for` loops. Each method is
  proved equal to a specification function: `BindChain`, `Header`, `Attach` and
  `CompileField` for the compiler, and `Failures`, `Filtered` and `Run` for the executor.
- The lemmas about the engine are stated on those functions. Where a method only
  spells out its function step by step without a loop (`NewFieldContext` for
  `Header`, `CallValidator` for `ErrorsOf`, `NewFieldError` for `FailureMessage`),
  the function is the definition to read.

### Where the model follows the code rather than the package's description

- `init` sets only `PrivateFields`, `FilterTagName`, `ValidatorTagName` and
  `StringAutoTrim`. The tag names of the flag, trigger, message and label channels are
  therefore Go's empty string by default, not `trigger`, `message` and `label`. The
  options fields that only `field_context.go` reads are added to `ValidationOptions`
  with those zero defaults.
- `StructTag.Lookup` never finds an empty key, nor a key holding a space, a control
  character, ':' or '"' (`TagLookup`). Under the default options the flag, trigger,
  message and label tags are therefore never read (`UnnamedChannelsIgnored`). As
  written, the `trigger:"update"` and `message:"..."` tags of validator_test.go:240-242
  are ignored: every field runs for every trigger, and no message template is used.
- An empty tag is the one token `""`, so it looks up the rule named `""`
  (`EmptyTagLooksUpEmptyName`).
- An unbalanced token such as `min(10` makes the source's slice expression panic. The
  model returns `None` from `ExtractFunctionInformation`, and the compiler reports a
  `MalformedRule` error. Unknown rule names, where the source also panics, become an
  `UnknownRule` error carrying the source's message.
- `Peek` returns the item at index 0, which is the first item pushed, not the top.
- A validator's answer is a `Verdict`: the boolean it returns, plus the message it
  left in the context's `ErrorMessage` slot.

## Model

| member | source | states |
|---|---|---|
| Reflection.TagLookup | field_context.go:115-120 | `Tag.Lookup` finds a value iff the key is one Go's tag syntax can hold (non-empty; no space, control character, ':' or '"') and the tag has it; the value is the tag's |
| Reflection.EmptyKeyNeverFound | field_context.go:115-120 | the empty tag name, which `init` leaves to four channels, finds nothing in any tag |
| FieldContexts.FieldContext.IsFlagSet | field_context.go:24-26 | a flag is set iff the field's flag list contains it |
| FieldContexts.FieldContext.IsZero | field_context.go:28-30 | a value is zero iff it equals the zero value computed at compile time |
| FieldContexts.FieldContext.Activate | field_context.go:32-37 | a field runs for a trigger iff its trigger list holds that trigger or holds "all" |
| FieldContexts.ActivateSingle | field_context.go:32-37 | a field whose trigger tag is one trigger other than "all" runs for exactly that trigger |
| FieldContexts.TriggerGating | field_context.go:143-148 | with the triggers the compiler sets, an untagged field runs for every trigger; a field tagged with one trigger such as "update" runs for it and for nothing else, so not for "create" |
| FieldContexts.ExtractFunctionInformation | field_context.go:218-232 | reference definition of `extractFunctionInformation`: the "()" branch, the parenthesis branch cut at the first "(" and the last ")", the bare-name branch, and `None` where the slice panics; its properties are the `Extract` lemmas below |
| FieldContexts.ExtractBareName | field_context.go:227-229 | a token without parentheses is its own name and has no arguments |
| FieldContexts.ExtractEmptyArgs | field_context.go:219-221 | a token ending in "()" has no arguments; its name is the token with every leading and trailing parenthesis character trimmed |
| FieldContexts.ExtractRequiredCall | field_context.go:219-229 | `required()` and `required` both name `required` with no arguments |
| FieldContexts.ExtractRender | field_context.go:222-226 | round trip: `name(a1,...,an)` parses back to exactly that name and those arguments, when the name has no parentheses, the arguments have no parentheses or commas, and their comma-join is non-empty |
| FieldContexts.ExtractRange | field_context.go:222-226 | `range(10,50)` parses to `range` with arguments "10" and "50" |
| FieldContexts.ExtractUnclosed | field_context.go:222-226 | a token with a "(" and no ")" fails (the source's slice panics) |
| FieldContexts.ExtractUnopened | field_context.go:222-226 | a token with a ")" and no "(" fails |
| FieldContexts.BindChain | field_context.go:172-185 | reference definition of the binding loop: every token bound in tag order, or the error of the first token that does not bind; its properties are the `BindChain` lemmas below |
| FieldContexts.BindOne | field_context.go:176-183 | a token binds iff it parses and its name is in the registry; then the bound rule carries the parsed name and arguments and the registry's function; otherwise the error is the malformed-rule or the unknown-rule error naming the rule and the field (`CompileError.Message`); only the unknown-rule text is the source's panic message, since a malformed token panics in Go with a slice-bounds runtime error that names neither |
| FieldContexts.BindRules | field_context.go:172-185 | the binding loop returns `BindChain` of the tokens: the whole chain, or the error of the first token that does not bind |
| FieldContexts.BindChainContents | field_context.go:174-184 | a chain that binds holds one rule per token, in tag order, each the one its token binds to |
| FieldContexts.BindChainSucceeds | field_context.go:174-184 | a chain binds iff every token binds |
| FieldContexts.BindChainFirstFailure | field_context.go:174-181 | a failing chain reports the first token that does not bind, after tokens that all bind |
| FieldContexts.BindChainFailureStays | field_context.go:174-181 | once a prefix of the tokens fails, the whole chain fails with the same error |
| FieldContexts.ParseFlags | field_context.go:205-212 | the flags are the `|`-split parts of the flag tag, in order, each with white space trimmed |
| FieldContexts.Header | field_context.go:126-167 | reference definition of the context before any rule is bound: the name, the resolved kind, the label tag or the field name, the message tag, the ","-split trigger tag or ["all"], and the zero value; the kind is `ResolvedKind` (the element's kind for arrays, maps, slices and pointers) and the zero value `ZeroValueOf` (the pointee's zero for a pointer) |
| FieldContexts.Tokens | field_context.go:172 | the `|`-split parts of a present tag; none for an absent one |
| FieldContexts.BindTag | field_context.go:169-203 | the chain of a tag: none when the tag is absent, else `BindChain` of its tokens |
| FieldContexts.FlagsOf | field_context.go:205-212 | the flags of a tag: its tokens, white space trimmed |
| FieldContexts.Attach | field_context.go:169-212 | reference definition of the second half of `mustParseField`: bind the validator chain, then the filter chain, then append the flags; the first failing chain's error |
| FieldContexts.CompileField | field_context.go:109-216 | reference definition of `mustParseField`: nothing for an unexported field (`IsUnexported`: a name whose first character is an ASCII 'a'–'z') or an untagged field, else `Attach` of `Header`; its properties are the `Compile` lemmas below |
| FieldContexts.NewFieldContext | field_context.go:126-167 | the context built before any rule is bound is `Header`: the name, the resolved kind, the label, the message template, the triggers and the zero value |
| FieldContexts.AttachRules | field_context.go:169-212 | binding the validator chain, then the filter chain, then adding the flags, gives `Attach`; the first chain that fails gives its error |
| FieldContexts.MustParseField | field_context.go:109-216 | the step-by-step compiler returns `CompileField`: nothing for a skipped field, the error of the first unbound rule, or the full context |
| FieldContexts.CompileSkips | field_context.go:111-124 | a field gets no context iff it is unexported or has neither a validator nor a filter tag, whatever the registry holds |
| FieldContexts.CompileSucceeds | field_context.go:109-216 | a field compiles iff it is skipped or both its validator chain and its filter chain bind |
| FieldContexts.CompileBuilds | field_context.go:122-215 | an exported field with a validator or filter tag whose chains both bind gets a context: the header with the bound validator chain, the bound filter chain and the flags |
| FieldContexts.AttachBinds | field_context.go:169-212 | when both chains bind, attaching succeeds and appends exactly both chains and the flags |
| FieldContexts.UnnamedChannelsIgnored | field_context.go:115-120 | with the empty names `init` gives the flag, trigger, message and label channels, every field gets the triggers ["all"], its own name as label, no template and no flags, whatever its tags say |
| FieldContexts.CompileHeader | field_context.go:111-212 | a compiled field is exported and tagged. Triggers are the ","-split trigger tag, else ["all"]. The label is the label tag, else the field name. The template is the message tag. The kind is the element kind for wrappers, the zero value is the pointee's for pointers, and the flags are the trimmed `|`-split flag tag |
| FieldContexts.PointerToIntKind | field_context.go:150-157 | a `*int` field resolves to kind `Int`, every context built for it satisfies `IsValueOfKind(Int)`, and its zero value is 0 |
| FieldContexts.BindTagContents | field_context.go:169-203 | the rules a tag binds to are its `|`-split tokens in order, each bound on its own; an absent tag binds none |
| FieldContexts.AttachParts | field_context.go:169-212 | when attaching succeeds, both chains bound, and the context gains exactly those chains and the flags |
| FieldContexts.CompileIsAttach | field_context.go:126-212 | a compiled context is the header with empty chains, then the chains and flags attached |
| FieldContexts.CompileValidatorChain | field_context.go:169-186 | a compiled context's validators are the validator tag's tokens in tag order, each bound to its own name, arguments and registry entry |
| FieldContexts.CompileFilterChain | field_context.go:188-203 | a compiled context's filters are the filter tag's tokens in tag order, each bound to its own name, arguments and registry entry |
| FieldContexts.CompileFailure | field_context.go:169-203 | a field that fails to compile fails on the first unbound token of its validator chain, or, once that chain binds, of its filter chain |
| FieldContexts.EmptyTableRejects | field_context.go:195-198 | with an empty registry, a non-empty chain fails on its first token |
| FieldContexts.EmptyTagLooksUpEmptyName | field_context.go:172-180 | an empty tag splits to [""] and binds iff the registry holds the name "" |
| FieldContexts.BindChainSingle | field_context.go:174-184 | a chain of one token is that token's binding |
| FieldContexts.RangeArgCount | field_context.go:63-70 | `range(10,50)` binds to `range` with its two arguments, and the context built for that rule has `ArgCount() == 2` |
| FieldContexts.MakeContext | field_context.go:43-70 | a rule's context is a pointer context iff the entry value is a pointer, null iff it is a nil pointer, so null implies pointer; it carries the current value, the field's resolved kind, the options and that rule's own arguments |
| FieldContexts.SkipsAsZero | field_context.go:52-60 | the `allow_zero` test: the flag is set and the value is a nil pointer, a pointer to the zero value, or a non-pointer zero value |
| FieldContexts.Failures | field_context.go:62-86 | reference definition of the validator loop run to the end: each validator's error, if any, in chain order; built from `ErrorsOf`, the zero or one error of a single validator; its properties are the `Failures` lemmas below |
| FieldContexts.Filtered | field_context.go:92-104 | reference definition of the filter loop: each filter applied in order to what the previous one returned (`FilteredFrom`, started from the value on entry) |
| FieldContexts.Run | field_context.go:39-107 | reference definition of `apply`: skipped under `allow_zero`; else the validators' errors, cut to the first under `StopOnFirstError` with no filter run, otherwise all of them and every filter |
| FieldContexts.FailureMessage | field_context.go:73-85 | a failing validator's message is the field's template if it has one; else the message the validator left, if non-empty; else "label: field validation failed", with " using function name" added when `ExposeValidatorNames` is set |
| FieldContexts.NewFieldError | field_context.go:73-85 | the error built for a failing validator carries the field's label and that message |
| FieldContexts.CallValidator | field_context.go:62-86 | one loop turn yields no error when the validator passes, else exactly one |
| FieldContexts.RunValidators | field_context.go:62-91 | the validator loop returns all failures in chain order; under `StopOnFirstError` it stops exactly when there is a failure, returning only the first |
| FieldContexts.RunFilters | field_context.go:93-104 | the filter loop leaves the field holding the result of every filter in order, each reading what the previous one wrote; no other field changes |
| FieldContexts.Apply | field_context.go:39-107 | `apply` returns the errors of `Run` and writes `Run`'s value into the field, and only into that field |
| FieldContexts.AllowZeroSkips | field_context.go:52-60 | with `allow_zero` set, a nil pointer, a pointer to the zero value, or a zero value gives no errors and keeps the field's value |
| FieldContexts.FailuresStopHere | field_context.go:86-89 | when the first validators yield exactly one error, it is the first error of the whole chain |
| FieldContexts.FailuresStep | field_context.go:62-86 | one more validator appends its own errors after the others |
| FieldContexts.FailuresPrefix | field_context.go:62-86 | the errors of a prefix of the chain are a prefix of the chain's errors |
| FieldContexts.FailuresConcat | field_context.go:62-86 | the errors of two chains run in turn are the first's followed by the second's |
| FieldContexts.FailuresEmpty | field_context.go:62-86 | no errors iff every validator passes |
| FieldContexts.FailuresShape | field_context.go:62-86 | at most one error per validator; every error carries the field's label; with a template, every message is the template |
| FieldContexts.FirstFailure | field_context.go:62-89 | the first error comes from the first failing validator, with that validator's message |
| FieldContexts.FailuresSingle | field_context.go:62-86 | a one-validator chain yields that validator's errors |
| FieldContexts.FilteredConcat | field_context.go:93-104 | running two filter chains in turn is running their concatenation |
| FieldContexts.StopOnFirstError | field_context.go:87-89 | under `StopOnFirstError`, a field not skipped by `allow_zero` returns only the first failing validator's error and keeps its value, since no filter runs |
| FieldContexts.FiltersRunDespiteFailures | field_context.go:92-104 | without `StopOnFirstError`, or when every validator passes, all errors are returned and every filter runs in order, whatever the validators said |
| FieldContexts.RequiredRejectsNilPointer | field_context.go:62-89 | a field whose only rule is `required`, holding a nil pointer, without `allow_zero` and without a message template, gets exactly one error with the default message, naming `required` when names are exposed, with or without `StopOnFirstError` |
| Validators.Required | validators/validators.go:11-16 | the value is accepted iff it is not a nil pointer: a non-pointer is accepted, and a pointer is accepted iff it is not null |
| Validators.RequiredFunction | validators/validators.go:11-16 | `Required` as registered: its verdict is `Required`'s, and it leaves no error message |
| Validators.RequiredDependsOnlyOnFlags | validators/validators.go:11-16 | two contexts with the same pointer and null flags get the same verdict, whatever their value, kind, options and arguments |
| Context.ValidationContext.ArgCount | context.go:14-16 | the argument count is the length of the rule's arguments |
| Errors.ValidationResult.IsValid | validator.go:101-103 | the stored `valid` flag |
| Errors.FieldError.Error | validator.go:83-85 | the error text is the field, then ": ", then the message, and nothing else |
| Functions.Registry.constructor | functions.go:5-9 | the validator table starts with `required` alone, and the filter table starts empty |
| Functions.Registry.AddValidator | validator.go:133-139 | a name already taken fails with "a validator by the name of ... already exists" and leaves the table unchanged; a fresh name is added with its function; the filter table never changes |
| Functions.Register | validator.go:133-139 | registering fails iff the name is taken, with the duplicate message; otherwise the table gains exactly that entry |
| Functions.RegisterDuplicateFails | validator.go:134-137 | registering a taken name fails with the duplicate message |
| Functions.RegisterFreshAddsOne | validator.go:138 | registering a fresh name adds exactly that key, bound to the function; every other entry is unchanged |
| Functions.RequiredIsTaken | functions.go:5-7 | registering `required` again on the initial table fails |
| FieldContexts.InitialFiltersReject | functions.go:9 | before any filter is added, an exported field with a filter tag (and a validator chain that binds) fails to compile on its first filter token, with the "filter ... referenced by field ... not found" message when that token parses |
| Cache.Answer | cache.go:9-15 | `Get` answers the stored contexts and true for a stored path, else nil and false |
| Cache.AnswerAfterStore | cache.go:17-19 | after storing under a path, that path answers what was stored, replacing an earlier store; every other path answers as before |
| Cache.AnswerNeverStored | cache.go:9-15 | a path never stored answers nil and false |
| Cache.FieldCache.constructor | validator.go:62 | a new cache holds nothing |
| Cache.FieldCache.Get | cache.go:9-15 | `Get` returns the `Answer` of the stored entries |
| Cache.FieldCache.Store | cache.go:17-19 | `Store` sets the entry of the path and leaves every other entry alone |
| Cache.StoreThenGet | cache.go:9-19 | two stores to a path followed by a get return the second store; other paths answer as before |
| Stacks.Pushed | stack.go:11-13 | a push adds one item, at the end, and keeps the earlier items |
| Stacks.Popped | stack.go:24-30 | a pop on an empty stack fails; otherwise it yields the last item and the items before it |
| Stacks.PopUndoesPush | stack.go:11-30 | a pop after a push gives back the pushed item and the original items |
| Stacks.PushUndoesPop | stack.go:11-30 | a push of what a pop removed restores the stack |
| Stacks.Stack.constructor | stack.go:3 | the zero stack is empty |
| Stacks.Stack.IsEmpty | stack.go:15-17 | empty iff there are no items |
| Stacks.Stack.MustNotBeEmpty | stack.go:5-9 | fails with "empty stack" iff the stack is empty |
| Stacks.Stack.Push | stack.go:11-13 | the items become `Pushed` of the old items |
| Stacks.Stack.Peek | stack.go:19-22 | an empty stack fails with "empty stack"; otherwise the result is the item at index 0, and the stack is unchanged |
| Stacks.Stack.Pop | stack.go:24-30 | an empty stack fails and is unchanged; otherwise the result is the last item, and it alone is removed |
| Stacks.PushThenPop | stack.go:11-30 | a push then a pop returns the pushed item and restores the stack |
| Comparators.Describe | types.go:20-35 | a description exists iff the comparator is in the table and the index is within its list, and then it is that entry |
| Comparators.NumericDescription | types.go:29-31 | defined iff the comparator is in the table, and then it is the entry at index 0 |
| Comparators.TemporalDescription | types.go:33-35 | defined iff the comparator is in the table, and then it is the entry at index 1 |
| Comparators.SixDistinctComparators | types.go:7-12 | the six comparators are six distinct symbols, and they are exactly the table's keys |
| Comparators.TwoDescriptionsEach | types.go:15-35 | a comparator is in the table iff it has both a numeric and a temporal description; each has exactly two; index 2 never exists |
| Comparators.KnownDescriptions | types.go:21-35 | `<` reads "less than" / "before", `>=` reads "greater than or equal" / "at least", and `=` reads "equal" / "the same as" |
| Validator.Globals.constructor | validator.go:54-63 | `init` installs the default options, with `PrivateFields` true, tags "filter" and "validator", and `StringAutoTrim` false; the cache starts empty and the registry starts as functions.go declares it |
| Validator.Globals.SetupOptions | validator.go:116-118 | the global options become what the callback makes of them; nothing else changes |
| Validator.Globals.CopyOptions | validator.go:122-124 | the copy equals the global options exactly |
| Validator.Validate | validator.go:148-158 | the result is never valid and has no field errors; the error is "Invalid input type. Expected struct" iff the argument's kind is not `Struct` |
| Validator.ValidateRejectsStructPointer | validator.go:145-158 | the documented call, with a pointer to a struct, gets the "Expected struct" error |
| Validator.ValidateStructPointer | validator.go:145-158 | the corrected check passes exactly a pointer to a struct; anything else gets the "Expected struct" error; the result is never valid at this point |
| Validator.ValidateStructPointerAccepts | validator.go:145-158 | under the corrected check, a pointer to a struct passes and a struct by value is rejected |

## Left out

- Go reflection is abstracted. `reflect.Value`, `reflect.Type`, `FieldByName`,
  `Addr().Elem()` and `reflect.Zero` become the `Reflection` values. A struct value is a
  `Record` object holding a map from field names to values. Tags are a map from keys
  to values, so the tag string syntax is not parsed.
- `reflect.Value.Equal` panics on values that are not comparable. The model's
  `IsZero` is plain equality and never panics.
- The check inside `value.Set` is not modelled: a filter result of the wrong type
  would panic in Go, but is written back as-is here.
- `IsArgumentOfKind` (context.go:22-24) depends on the dynamic type of an argument,
  which the model does not have, because arguments are strings.
- `Context.ValidationContext.IsValueOfKind` has no contract of its own; it is a field
  comparison. What it means for a compiled field is stated by `PointerToIntKind`.
- `FloatV` and `ComplexV` hold reals, so a NaN field value cannot be represented; in
  Go a NaN is never equal to the zero value, which the model does not need to state.
- Tag values are taken as given: a value Go's `strconv.Unquote` rejects, which makes
  `Lookup` report no value, is not modelled.
- `sync.Map` is a plain map, because the model is sequential.
- Validate's body after the type check and `getFields` (validator.go:160-176) are
  unfinished in the source and contain no logic to model. `Validate` models
  `reflect.TypeOf` of a typed argument; a nil interface argument, for which Go's
  `TypeOf` returns nil, is not modelled.
- `SetupOptions` takes a callback that edits the options through a pointer. The model
  passes the function from old options to new ones.
- Options that exist only in the tests (`ExposeEnumValues`,
  `NoPanicOnFunctionConflict`) are not modelled.
- The source shows no way to add a filter, so the filter table changes only as a
  parameter of the compiler.
- Rule bodies other than `Required` are not modelled: the built-ins the tests use
  (`trim`, `min`, `max`, `enum`, ...) and user closures. Validators and filters are
  arbitrary functions of their context.
- Panics become `Failure` results rather than process termination:
  - an unknown or malformed rule;
  - a duplicate `AddValidator`;
  - `Peek` or `Pop` on an empty stack.
- `NumericDescription` and `TemporalDescription` return `None` for a comparator that is
  not in the table. In Go, types.go:30 and :34 index the nil slice of the missing
  entry and panic.
- The `MalformedRule` message is the model's own wording. In Go, a malformed token such
  as `min(10` panics at the slice expression of field_context.go:226 with a runtime
  slice-bounds error that names neither the rule nor the field.
- `IsUnexported` is the source's ASCII test on the first byte of the name
  (field_context.go:111). A field named like `_x` or `élan` is unexported in Go, yet
  the source and the model both give it a context, which Go's reflection would then
  refuse to set.

## Findings

| source | as written | input that shows it | evidently intended | confidence | as-written member | corrected member |
|---|---|---|---|---|---|---|
| validator.go:145-158 | `Validate` rejects every argument whose type's kind is not `Struct` | `Validate(&s)` for a struct `s`, the call the documentation asks for: `reflect.TypeOf(&s).Kind()` is `Ptr`, so the result carries "Invalid input type. Expected struct" | accept a pointer to a struct, as the `structPtr : Pointer to a struct` documentation says and as the in-place filter write-back requires | medium, not executed | Validator.ValidateRejectsStructPointer | Validator.ValidateStructPointer |
