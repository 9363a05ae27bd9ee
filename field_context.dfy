/** The per-field rule engine (field_context.go, with the `allow_zero` flag of
    flags.go and the rule records of filters.go and validator.go): parsing a rule
    token, compiling a struct field's tags into a `FieldContext`, choosing fields by
    trigger, and running a field's validators and filters against a live record. */
module FieldContexts {
  import opened Wrappers
  import opened GoStrings
  import opened Reflection
  import opened Options
  import opened Errors
  import opened Context
  import Validators
  import Functions

  /** `AllowZero` (flags.go): skip a field whose value is its type's zero value. */
  const AllowZero := "allow_zero"

  /** The characters `extractFunctionInformation` treats as parentheses. */
  const Parens: set<char> := {'(', ')'}

  /** A rule bound at compile time: `fieldValueValidator` / `fieldValueFilter`, the
      name, the parsed arguments and the function the registry held for the name. */
  datatype Bound<F> = Bound(name: string, args: seq<string>, fn: F)

  /** `fieldContext`: everything the executor needs to know about one field. */
  datatype FieldContext = FieldContext(
    filters: seq<Bound<FilterFunction>>,
    validators: seq<Bound<ValidationFunction>>,
    fieldName: string,
    fieldKind: Kind,
    fieldLabel: string,
    fieldMessageTemplate: string,
    hasLabel: bool,
    hasMessageTemplate: bool,
    triggers: seq<string>,
    flags: seq<string>,
    zeroValue: Value)
  {
    /** `isFlagSet`. */
    predicate IsFlagSet(flag: string) {
      flag in flags
    }

    /** `isZero`: the value equals the zero value computed when the field was compiled. */
    predicate IsZero(v: Value) {
      zeroValue == v
    }

    /** `activate`: the field runs for `trigger` when it lists that trigger, or
        failing that when it lists "all". */
    predicate Activate(trigger: string)
      ensures Activate(trigger) <==> trigger in triggers || "all" in triggers
    {
      if trigger !in triggers then "all" in triggers else true
    }
  }

  // ---------------------------------------------------------------------------
  // Rule tokens: extractFunctionInformation
  // ---------------------------------------------------------------------------

  /** A parsed rule token: `min(10)` is `RuleDecl("min", ["10"])`. */
  datatype RuleDecl = RuleDecl(name: string, args: seq<string>)

  /** `extractFunctionInformation`. A token ending in "()" loses every leading and
      trailing parenthesis character and has no arguments; a token holding some
      parenthesis is cut at its first "(" and its last ")", the text between split
      at commas; any other token is a bare name. `None` stands for the slice-bounds
      panic of the source: a "(" missing, a ")" missing, or the last ")" before the
      first "(". */
  function ExtractFunctionInformation(def: string): (r: Option<RuleDecl>)
  {
    if HasSuffix(def, "()") then Some(RuleDecl(Trim(def, Parens), []))
    else if ContainsAny(def, Parens) then
      var open := Index(def, '(');
      var close := LastIndex(def, ')');
      if 0 <= open < close then Some(RuleDecl(def[..open], Split(def[open + 1..close], ',')))
      else None
    else Some(RuleDecl(def, []))
  }

  /** A token without any parenthesis is a bare name with no arguments. */
  lemma ExtractBareName(def: string)
    requires '(' !in def && ')' !in def
    ensures ExtractFunctionInformation(def) == Some(RuleDecl(def, []))
  {
  }

  /** A token ending in "()" has no arguments; its name is the token without the
      parenthesis characters at either end, so the name neither starts nor ends
      with one and the dropped characters all are parentheses. */
  lemma ExtractEmptyArgs(def: string)
    requires HasSuffix(def, "()")
    ensures ExtractFunctionInformation(def).Some?
    ensures var d := ExtractFunctionInformation(def).value;
      && d.args == []
      && d.name == Trim(def, Parens)
      && (d.name == [] || (d.name[0] !in Parens && d.name[|d.name| - 1] !in Parens))
  {
  }

  /** `required()` names `required`, as `required` does. */
  lemma ExtractRequiredCall()
    ensures ExtractFunctionInformation("required()") == Some(RuleDecl("required", []))
    ensures ExtractFunctionInformation("required") == Some(RuleDecl("required", []))
  {
    var name := "required";
    assert '(' !in name && ')' !in name;
    ExtractBareName(name);
    assert TrimLeft(name + "()", Parens) == name + "()";
    assert (name + "()")[..|name| + 1] == name + "(";
    assert TrimRight(name + "()", Parens) == TrimRight(name + "(", Parens);
    assert (name + "(")[..|name|] == name;
    assert TrimRight(name + "(", Parens) == TrimRight(name, Parens) == name;
    assert name + "()" == "required()";
    ExtractEmptyArgs(name + "()");
  }

  /** The token a declaration is written as: `name(a,b,...)`. */
  function Render(d: RuleDecl): string {
    d.name + "(" + Join(d.args, ',') + ")"
  }

  /** Round trip: a name free of parentheses and arguments free of parentheses and
      commas, with a non-empty comma-join, parse back exactly. */
  lemma {:induction false} ExtractRender(d: RuleDecl)
    requires '(' !in d.name && ')' !in d.name
    requires forall i | 0 <= i < |d.args| :: '(' !in d.args[i] && ')' !in d.args[i] && ',' !in d.args[i]
    requires Join(d.args, ',') != ""
    ensures ExtractFunctionInformation(Render(d)) == Some(d)
  {
    var joined := Join(d.args, ',');
    var s := Render(d);
    assert s == d.name + "(" + joined + ")";
    assert |d.args| >= 1;
    assert s[|s| - 2] == joined[|joined| - 1];
    assert !HasSuffix(s, "()") by {
      var c := joined[|joined| - 1];
      if c == '(' {
        JoinChars(d.args, ',', c);
      }
    }
    assert s[|d.name|] == '(';
    assert ContainsAny(s, Parens);
    assert s[..|d.name|] == d.name;
    IndexOfFirst(s, '(', |d.name|);
    assert LastIndex(s, ')') == |s| - 1;
    assert s[|d.name| + 1..|s| - 1] == joined;
    SplitJoin(d.args, ',');
  }

  /** `range(10,50)` carries the two arguments the `range` rule of the tests counts. */
  lemma ExtractRange()
    ensures ExtractFunctionInformation("range(10,50)") == Some(RuleDecl("range", ["10", "50"]))
  {
    var d := RuleDecl("range", ["10", "50"]);
    assert Join(d.args, ',') == "10,50";
    assert Render(d) == "range(10,50)";
    ExtractRender(d);
  }

  /** An opening parenthesis never closed, as in `min(10`, fails (the source panics). */
  lemma ExtractUnclosed(def: string)
    requires '(' in def && ')' !in def
    ensures ExtractFunctionInformation(def) == None
  {
    assert |def| > 0 ==> def[|def| - 1] != ')';
    var k :| 0 <= k < |def| && def[k] == '(';
    assert ContainsAny(def, Parens);
  }

  /** A closing parenthesis never opened, as in `min10)`, fails too. */
  lemma ExtractUnopened(def: string)
    requires ')' in def && '(' !in def
    ensures ExtractFunctionInformation(def) == None
  {
    assert |def| > 1 ==> def[|def| - 2] != '(';
    var k :| 0 <= k < |def| && def[k] == ')';
    assert ContainsAny(def, Parens);
  }

  // ---------------------------------------------------------------------------
  // Binding rule chains against the registry
  // ---------------------------------------------------------------------------

  /** The two rule chains of a field. */
  datatype Chain = ValidatorChain | FilterChain

  /** Why a field cannot be compiled; the source panics in both cases. The unknown-rule
      text is the source's panic message; the malformed-rule text is the model's own, as
      Go's panic there is a slice-bounds runtime error. */
  datatype CompileError =
    | MalformedRule(chain: Chain, rule: string, field: string)
    | UnknownRule(chain: Chain, name: string, field: string)
  {
    function Message(): string {
      match this
      case MalformedRule(_, rule, field) => "malformed rule `" + rule + "` referenced by field " + field
      case UnknownRule(ValidatorChain, name, field) =>
        "validator `" + name + "` referenced by field " + field + " not found"
      case UnknownRule(FilterChain, name, field) =>
        "filter " + name + " referenced by field " + field + " not found"
    }
  }

  /** A token parses and its name is in the table. */
  predicate Binds<F>(token: string, table: map<string, F>) {
    ExtractFunctionInformation(token).Some? && ExtractFunctionInformation(token).value.name in table
  }

  /** One step of the binding loop: parse the token, look its name up. */
  function BindOne<F>(token: string, table: map<string, F>, chain: Chain, field: string)
    : (r: Result<Bound<F>, CompileError>)
    ensures r.Success? <==> Binds(token, table)
    ensures r.Success? ==>
      && ExtractFunctionInformation(token) == Some(RuleDecl(r.value.name, r.value.args))
      && r.value.name in table && r.value.fn == table[r.value.name]
    ensures r.Failure? && ExtractFunctionInformation(token).None? ==> r.error == MalformedRule(chain, token, field)
    ensures r.Failure? && ExtractFunctionInformation(token).Some? ==>
      r.error == UnknownRule(chain, ExtractFunctionInformation(token).value.name, field)
  {
    match ExtractFunctionInformation(token)
    case None => Failure(MalformedRule(chain, token, field))
    case Some(d) =>
      if d.name in table then Success(Bound(d.name, d.args, table[d.name]))
      else Failure(UnknownRule(chain, d.name, field))
  }

  /** The binding loop of `mustParseField`, token by token in tag order; the first
      token that does not bind stops it. */
  function BindChain<F>(tokens: seq<string>, table: map<string, F>, chain: Chain, field: string)
    : Result<seq<Bound<F>>, CompileError>
    decreases |tokens|
  {
    if |tokens| == 0 then Success([])
    else
      var bound :- BindChain(tokens[..|tokens| - 1], table, chain, field);
      var b :- BindOne(tokens[|tokens| - 1], table, chain, field);
      Success(bound + [b])
  }

  /** A chain that binds holds one bound rule per token, in tag order: the rule
      that token binds to on its own. */
  lemma {:induction false} BindChainContents<F>(tokens: seq<string>, table: map<string, F>, chain: Chain, field: string)
    requires BindChain(tokens, table, chain, field).Success?
    ensures var bound := BindChain(tokens, table, chain, field).value;
      && |bound| == |tokens|
      && forall i | 0 <= i < |tokens| :: BindOne(tokens[i], table, chain, field) == Success(bound[i])
  {
    if |tokens| > 0 {
      var n := |tokens| - 1;
      var front := tokens[..n];
      var prev := BindChain(front, table, chain, field);
      var last := BindOne(tokens[n], table, chain, field);
      assert prev.Success? && last.Success?;
      BindChainContents(front, table, chain, field);
      var bound := prev.value + [last.value];
      assert BindChain(tokens, table, chain, field).value == bound;
      forall i | 0 <= i < |tokens|
        ensures BindOne(tokens[i], table, chain, field) == Success(bound[i])
      {
        if i < n {
          assert tokens[i] == front[i];
        }
      }
    }
  }

  /** A chain binds when every token binds on its own. */
  lemma {:induction false} BindChainAllBind<F>(tokens: seq<string>, table: map<string, F>, chain: Chain, field: string)
    requires forall i | 0 <= i < |tokens| :: BindOne(tokens[i], table, chain, field).Success?
    ensures BindChain(tokens, table, chain, field).Success?
  {
    if |tokens| > 0 {
      var n := |tokens| - 1;
      var front := tokens[..n];
      assert forall i | 0 <= i < n :: front[i] == tokens[i];
      BindChainAllBind(front, table, chain, field);
      assert BindOne(tokens[n], table, chain, field).Success?;
    }
  }

  /** A chain binds exactly when every token binds: a token that does not parse or
      names a rule missing from the table fails the whole chain. */
  lemma {:induction false} BindChainSucceeds<F>(tokens: seq<string>, table: map<string, F>, chain: Chain, field: string)
    ensures BindChain(tokens, table, chain, field).Success? <==> forall i | 0 <= i < |tokens| :: Binds(tokens[i], table)
  {
    if BindChain(tokens, table, chain, field).Success? {
      BindChainContents(tokens, table, chain, field);
    }
    if forall i | 0 <= i < |tokens| :: Binds(tokens[i], table) {
      BindChainAllBind(tokens, table, chain, field);
    }
  }

  /** A chain that fails reports the first token that does not bind. */
  lemma {:induction false} BindChainFirstFailure<F>(tokens: seq<string>, table: map<string, F>, chain: Chain, field: string)
    requires BindChain(tokens, table, chain, field).Failure?
    ensures exists k | 0 <= k < |tokens| ::
      && (forall j | 0 <= j < k :: BindOne(tokens[j], table, chain, field).Success?)
      && BindOne(tokens[k], table, chain, field) == Failure(BindChain(tokens, table, chain, field).error)
  {
    var n := |tokens| - 1;
    var front := tokens[..n];
    if BindChain(front, table, chain, field).Failure? {
      BindChainFirstFailure(front, table, chain, field);
      var k :| 0 <= k < n && (forall j | 0 <= j < k :: BindOne(front[j], table, chain, field).Success?)
        && BindOne(front[k], table, chain, field) == Failure(BindChain(front, table, chain, field).error);
      assert BindChain(tokens, table, chain, field).error == BindChain(front, table, chain, field).error;
      assert forall j | 0 <= j <= k :: front[j] == tokens[j];
      assert 0 <= k < |tokens|
        && (forall j | 0 <= j < k :: BindOne(tokens[j], table, chain, field).Success?)
        && BindOne(tokens[k], table, chain, field) == Failure(BindChain(tokens, table, chain, field).error);
    } else {
      BindChainContents(front, table, chain, field);
      assert forall j | 0 <= j < n :: front[j] == tokens[j];
      assert BindOne(tokens[n], table, chain, field) == Failure(BindChain(tokens, table, chain, field).error);
    }
  }

  /** Once a prefix of the tokens fails, the whole chain fails the same way. */
  lemma {:induction false} BindChainFailureStays<F>(tokens: seq<string>, k: nat, table: map<string, F>, chain: Chain, field: string)
    requires k <= |tokens|
    requires BindChain(tokens[..k], table, chain, field).Failure?
    ensures BindChain(tokens, table, chain, field) == BindChain(tokens[..k], table, chain, field)
    decreases |tokens| - k
  {
    if k < |tokens| {
      var front := tokens[..|tokens| - 1];
      assert front[..k] == tokens[..k];
      BindChainFailureStays(front, k, table, chain, field);
    } else {
      assert tokens[..k] == tokens;
    }
  }

  // ---------------------------------------------------------------------------
  // The field compiler: mustParseField
  // ---------------------------------------------------------------------------

  /** The kind rules see: for arrays, maps, slices and pointers, the element's kind. */
  function ResolvedKind(t: GoType): Kind
    requires WellFormed(t)
  {
    if t.KindOf() in {Array, Map, Slice, Pointer} then t.elem.KindOf() else t.KindOf()
  }

  /** The zero value `allow_zero` compares with: the pointee's for a pointer field. */
  function ZeroValueOf(t: GoType): Value
    requires WellFormed(t)
  {
    if t.KindOf() == Pointer then ZeroOf(t.elem) else ZeroOf(t)
  }

  /** The source's test for an unexported field: the name's first character is an ASCII
      'a'–'z'. Go also treats names such as `_x` or `élan` as unexported; this test does not. */
  predicate IsUnexported(name: string)
    requires |name| > 0
  {
    'a' <= name[0] <= 'z'
  }

  function TrimAll(parts: seq<string>): (r: seq<string>)
    ensures |r| == |parts| && forall i | 0 <= i < |parts| :: r[i] == TrimSpace(parts[i])
  {
    seq(|parts|, i requires 0 <= i < |parts| => TrimSpace(parts[i]))
  }

  /** The part of a field's context that does not depend on the registry: name,
      resolved kind, label (the label tag, else the field name), message template,
      triggers (the `,`-split trigger tag, else just "all") and zero value. */
  function Header(field: StructField, opts: ValidationOptions): FieldContext
    requires |field.name| > 0 && WellFormed(field.typ)
  {
    var triggerTag := TagLookup(field.tag, opts.triggerTagName);
    var messageTag := TagLookup(field.tag, opts.messageTagName);
    var labelTag := TagLookup(field.tag, opts.labelTagName);
    FieldContext(
      filters := [],
      validators := [],
      fieldName := field.name,
      fieldKind := ResolvedKind(field.typ),
      fieldLabel := if labelTag.Some? then labelTag.value else field.name,
      fieldMessageTemplate := if messageTag.Some? then messageTag.value else "",
      hasLabel := labelTag.Some?,
      hasMessageTemplate := messageTag.Some?,
      triggers := if triggerTag.Some? then Split(triggerTag.value, ',') else ["all"],
      flags := [],
      zeroValue := ZeroValueOf(field.typ))
  }

  /** What `mustParseField` computes: nothing for an unexported field or one with
      neither a validator nor a filter tag; otherwise the field's context, or the
      error of the first rule that does not bind (validators first, then filters). */
  function CompileField(field: StructField, opts: ValidationOptions,
                        validatorTable: map<string, ValidationFunction>,
                        filterTable: map<string, FilterFunction>)
    : Result<Option<FieldContext>, CompileError>
    requires |field.name| > 0 && WellFormed(field.typ)
  {
    var filterTag := TagLookup(field.tag, opts.filterTagName);
    var validatorTag := TagLookup(field.tag, opts.validatorTagName);
    if IsUnexported(field.name) || (filterTag.None? && validatorTag.None?) then Success(None)
    else
      var fc :- Attach(Header(field, opts), validatorTag, filterTag, TagLookup(field.tag, opts.flagTagName),
                       validatorTable, filterTable);
      Success(Some(fc))
  }

  /** The tokens a tag contributes: its `|`-split parts, or none when it is absent. */
  function Tokens(tag: Option<string>): seq<string> {
    if tag.Some? then Split(tag.value, '|') else []
  }

  /** The rules of one tag: none when the tag is absent, else its `|`-separated chain. */
  function BindTag<F>(tag: Option<string>, table: map<string, F>, chain: Chain, field: string)
    : Result<seq<Bound<F>>, CompileError>
  {
    if tag.Some? then BindChain(Tokens(tag), table, chain, field) else Success([])
  }

  /** The flags of a field: none when the tag is absent, else its `|`-separated
      parts, white space trimmed. */
  function FlagsOf(tag: Option<string>): seq<string> {
    TrimAll(Tokens(tag))
  }

  /** The binding loop of `mustParseField`: each `|`-separated token is parsed,
      looked up and appended in tag order; the first one that does not bind stops
      the loop (the source panics). */
  method BindRules<F>(parts: seq<string>, table: map<string, F>, chain: Chain, fieldName: string)
    returns (r: Result<seq<Bound<F>>, CompileError>)
    ensures r == BindChain(parts, table, chain, fieldName)
  {
    var bound: seq<Bound<F>> := [];
    for i := 0 to |parts|
      invariant BindChain(parts[..i], table, chain, fieldName) == Success(bound)
    {
      assert parts[..i + 1][..i] == parts[..i];
      var decl := ExtractFunctionInformation(parts[i]);
      if decl.None? {
        BindChainFailureStays(parts, i + 1, table, chain, fieldName);
        return Failure(MalformedRule(chain, parts[i], fieldName));
      }
      if decl.value.name !in table {
        BindChainFailureStays(parts, i + 1, table, chain, fieldName);
        return Failure(UnknownRule(chain, decl.value.name, fieldName));
      }
      bound := bound + [Bound(decl.value.name, decl.value.args, table[decl.value.name])];
    }
    assert parts[..|parts|] == parts;
    r := Success(bound);
  }

  /** The flag loop of `mustParseField`: every `|`-separated part, white space trimmed. */
  method ParseFlags(parts: seq<string>) returns (flags: seq<string>)
    ensures |flags| == |parts|
    ensures forall i | 0 <= i < |parts| :: flags[i] == TrimSpace(parts[i])
  {
    flags := [];
    for i := 0 to |parts|
      invariant |flags| == i
      invariant forall j | 0 <= j < i :: flags[j] == TrimSpace(parts[j])
    {
      flags := flags + [TrimSpace(parts[i])];
    }
  }

  /** The first half of `mustParseField`: the context before any rule is bound. */
  method NewFieldContext(field: StructField, opts: ValidationOptions) returns (fc: FieldContext)
    requires |field.name| > 0 && WellFormed(field.typ)
    ensures fc == Header(field, opts)
  {
    var triggerTag := TagLookup(field.tag, opts.triggerTagName);
    var messageTag := TagLookup(field.tag, opts.messageTagName);
    var labelTag := TagLookup(field.tag, opts.labelTagName);
    var zeroValue := if field.typ.KindOf() == Pointer then ZeroOf(field.typ.elem) else ZeroOf(field.typ);
    fc := FieldContext([], [], "", field.typ.KindOf(), "", "", labelTag.Some?, messageTag.Some?, [], [], zeroValue);
    assert zeroValue == ZeroValueOf(field.typ);
    if triggerTag.Some? {
      fc := fc.(triggers := fc.triggers + Split(triggerTag.value, ','));
    } else {
      fc := fc.(triggers := fc.triggers + ["all"]);
    }
    fc := fc.(fieldName := field.name);
    // resolve the contained type
    if field.typ.KindOf() in {Array, Map, Slice, Pointer} {
      fc := fc.(fieldKind := field.typ.elem.KindOf());
    }
    if labelTag.Some? {
      fc := fc.(fieldLabel := labelTag.value);
    } else {
      fc := fc.(fieldLabel := field.name);
    }
    if messageTag.Some? {
      fc := fc.(fieldMessageTemplate := messageTag.value);
    }
  }

  /** The second half of `mustParseField`: the validator chain, then the filter
      chain, then the flags, appended to a context. */
  function Attach(fc: FieldContext, validatorTag: Option<string>, filterTag: Option<string>,
                  flagTag: Option<string>, validatorTable: map<string, ValidationFunction>,
                  filterTable: map<string, FilterFunction>)
    : Result<FieldContext, CompileError>
  {
    var validators :- BindTag(validatorTag, validatorTable, ValidatorChain, fc.fieldName);
    var filters :- BindTag(filterTag, filterTable, FilterChain, fc.fieldName);
    Success(fc.(validators := fc.validators + validators, filters := fc.filters + filters,
                flags := fc.flags + FlagsOf(flagTag)))
  }

  /** The binding loops and the flag loop of `mustParseField`. */
  method AttachRules(fc0: FieldContext, validatorTag: Option<string>, filterTag: Option<string>,
                     flagTag: Option<string>, validatorTable: map<string, ValidationFunction>,
                     filterTable: map<string, FilterFunction>)
    returns (r: Result<FieldContext, CompileError>)
    ensures r == Attach(fc0, validatorTag, filterTag, flagTag, validatorTable, filterTable)
  {
    var fc := fc0;
    var validators: seq<Bound<ValidationFunction>> := [];
    if validatorTag.Some? {
      var bound := BindRules(Split(validatorTag.value, '|'), validatorTable, ValidatorChain, fc.fieldName);
      if bound.Failure? {
        return Failure(bound.error);
      }
      validators := bound.value;
    }
    var filters: seq<Bound<FilterFunction>> := [];
    if filterTag.Some? {
      var bound := BindRules(Split(filterTag.value, '|'), filterTable, FilterChain, fc.fieldName);
      if bound.Failure? {
        return Failure(bound.error);
      }
      filters := bound.value;
    }
    var flags: seq<string> := [];
    if flagTag.Some? {
      flags := ParseFlags(Split(flagTag.value, '|'));
      assert flags == TrimAll(Split(flagTag.value, '|'));
    }
    r := Success(fc.(validators := fc.validators + validators, filters := fc.filters + filters,
                     flags := fc.flags + flags));
  }

  /** `mustParseField`, step by step as the source builds the context; the panics
      on an unknown rule become a `Failure`. */
  method MustParseField(field: StructField, opts: ValidationOptions,
                        validatorTable: map<string, ValidationFunction>,
                        filterTable: map<string, FilterFunction>)
    returns (r: Result<Option<FieldContext>, CompileError>)
    requires |field.name| > 0 && WellFormed(field.typ)
    ensures r == CompileField(field, opts, validatorTable, filterTable)
  {
    // skip over unexported fields
    if 'a' <= field.name[0] <= 'z' {
      return Success(None);
    }
    var flagTag := TagLookup(field.tag, opts.flagTagName);
    var filterTag := TagLookup(field.tag, opts.filterTagName);
    var validatorTag := TagLookup(field.tag, opts.validatorTagName);
    if filterTag.None? && validatorTag.None? {
      return Success(None);
    }
    var fc := NewFieldContext(field, opts);
    var attached := AttachRules(fc, validatorTag, filterTag, flagTag, validatorTable, filterTable);
    if attached.Failure? {
      return Failure(attached.error);
    }
    r := Success(Some(attached.value));
  }

  // ---------------------------------------------------------------------------
  // The executor: apply
  // ---------------------------------------------------------------------------

  /** The struct value a field context runs against, its fields by name. The
      filters write a field back in place, so the record is an object. */
  class Record {
    var fields: map<string, Value>

    constructor (fields0: map<string, Value>)
      ensures fields == fields0
    {
      fields := fields0;
    }
  }

  /** The context a rule call sees: the current value of the field, the resolved
      kind, the rule's own arguments, and the pointer and null flags, which are
      worked out once from the value the field held on entry; null is only
      looked at for a pointer. */
  function MakeContext(fc: FieldContext, entry: Value, current: Value, opts: ValidationOptions, args: seq<string>)
    : (ctx: ValidationContext)
    ensures ctx.isNull ==> ctx.isPointer
    ensures ctx.isPointer <==> IsPointerValue(entry)
    ensures ctx.value == current && ctx.valueKind == fc.fieldKind
    ensures ctx.args == args && ctx.options == opts
    ensures ctx.isNull <==> IsNilPointer(entry)
  {
    var isPointer := IsPointerValue(entry);
    ValidationContext(current, fc.fieldKind, isPointer, if isPointer then IsNilPointer(entry) else false, opts, args)
  }

  /** The `allow_zero` skip: the flag is set and the value is a nil pointer, a
      pointer to the zero value, or (not being a pointer) the zero value itself. */
  predicate SkipsAsZero(fc: FieldContext, v: Value) {
    && fc.IsFlagSet(AllowZero)
    && if IsPointerValue(v) then IsNilPointer(v) || fc.IsZero(v.target) else fc.IsZero(v)
  }

  /** What one validator says about the value the field held on entry. */
  function Judge(fc: FieldContext, v: Value, opts: ValidationOptions, b: Bound<ValidationFunction>): Verdict {
    b.fn(MakeContext(fc, v, v, opts, b.args))
  }

  /** The message of a failing validator: the field's template if it has one, else
      what the validator left in its context, else the default text, which names the
      validator when `ExposeValidatorNames` is set. */
  function FailureMessage(fc: FieldContext, b: Bound<ValidationFunction>, verdict: Verdict, opts: ValidationOptions)
    : (m: string)
    ensures fc.hasMessageTemplate ==> m == fc.fieldMessageTemplate
    ensures !fc.hasMessageTemplate && verdict.errorMessage != "" ==> m == verdict.errorMessage
    ensures !fc.hasMessageTemplate && verdict.errorMessage == "" ==>
      m == fc.fieldLabel + ": field validation failed" + (if opts.exposeValidatorNames then " using function " + b.name else "")
  {
    if fc.hasMessageTemplate then fc.fieldMessageTemplate
    else if |verdict.errorMessage| > 0 then verdict.errorMessage
    else
      var m := fc.fieldLabel + ": field validation failed";
      if opts.exposeValidatorNames then m + " using function " + b.name else m
  }

  /** The error one validator contributes: none when it passes, else one error
      carrying the field's label. */
  function ErrorsOf(fc: FieldContext, v: Value, opts: ValidationOptions, b: Bound<ValidationFunction>): seq<FieldError> {
    var verdict := Judge(fc, v, opts, b);
    if verdict.ok then [] else [FieldError(fc.fieldLabel, FailureMessage(fc, b, verdict, opts))]
  }

  /** The errors of a validator chain run to the end, in chain order. */
  function Failures(fc: FieldContext, v: Value, opts: ValidationOptions, vs: seq<Bound<ValidationFunction>>)
    : seq<FieldError>
    decreases |vs|
  {
    if |vs| == 0 then []
    else Failures(fc, v, opts, vs[..|vs| - 1]) + ErrorsOf(fc, v, opts, vs[|vs| - 1])
  }

  /** The value after a filter chain run from `start`: each filter sees what the
      previous one wrote, and the pointer flags of the value the field held on
      entry. */
  function FilteredFrom(fc: FieldContext, entry: Value, start: Value, opts: ValidationOptions,
                        fs: seq<Bound<FilterFunction>>): Value
    decreases |fs|
  {
    if |fs| == 0 then start
    else
      var last := fs[|fs| - 1];
      last.fn(MakeContext(fc, entry, FilteredFrom(fc, entry, start, opts, fs[..|fs| - 1]), opts, last.args))
  }

  /** The filter chain of `apply`, which starts from the value on entry. */
  function Filtered(fc: FieldContext, entry: Value, opts: ValidationOptions, fs: seq<Bound<FilterFunction>>): Value {
    FilteredFrom(fc, entry, entry, opts, fs)
  }

  /** What `apply` leaves behind: the errors it returns and the field's new value. */
  datatype Outcome = Outcome(errors: seq<FieldError>, value: Value)

  /** `apply` on the value a field holds: skipped under `allow_zero`; otherwise the
      validators' errors, cut after the first one under `StopOnFirstError` (and then
      no filter runs), else every filter in order. */
  function Run(fc: FieldContext, v: Value, opts: ValidationOptions): Outcome {
    if SkipsAsZero(fc, v) then Outcome([], v)
    else
      var errors := Failures(fc, v, opts, fc.validators);
      if opts.stopOnFirstError && |errors| > 0 then Outcome([errors[0]], v)
      else Outcome(errors, Filtered(fc, v, opts, fc.filters))
  }

  /** `apply`: the `allow_zero` skip, then the validator loop, then (unless it
      stopped early) the filter loop, which writes the field back into the
      record. Only the field itself changes. */
  method Apply(fc: FieldContext, record: Record, opts: ValidationOptions) returns (errors: seq<FieldError>)
    requires fc.fieldName in record.fields
    modifies record
    ensures errors == Run(fc, old(record.fields[fc.fieldName]), opts).errors
    ensures record.fields == old(record.fields)[fc.fieldName := Run(fc, old(record.fields[fc.fieldName]), opts).value]
  {
    var value := record.fields[fc.fieldName];
    var isPointer := IsPointerValue(value);
    var isNull := false;
    errors := [];
    if isPointer {
      isNull := IsNilPointer(value);
    }
    if fc.IsFlagSet(AllowZero) {
      if isPointer {
        if IsNilPointer(value) || fc.IsZero(value.target) {
          return;
        }
      } else if fc.IsZero(value) {
        return;
      }
    }
    var stopped;
    errors, stopped := RunValidators(fc, value, isPointer, isNull, opts);
    if stopped {
      return;
    }
    RunFilters(fc, record, isPointer, isNull, opts);
  }

  /** The validator loop of `apply`: one error per failing validator, in chain
      order; under `StopOnFirstError` it stops at the first one. */
  method RunValidators(fc: FieldContext, value: Value, isPointer: bool, isNull: bool, opts: ValidationOptions)
    returns (errors: seq<FieldError>, stopped: bool)
    requires isPointer == IsPointerValue(value) && isNull == (isPointer && IsNilPointer(value))
    ensures var all := Failures(fc, value, opts, fc.validators);
      && (stopped <==> opts.stopOnFirstError && |all| > 0)
      && errors == if stopped then [all[0]] else all
  {
    errors := [];
    for i := 0 to |fc.validators|
      invariant errors == Failures(fc, value, opts, fc.validators[..i])
      invariant opts.stopOnFirstError ==> errors == []
    {
      FailuresStep(fc, value, opts, fc.validators, i);
      var failed := CallValidator(fc, value, isPointer, isNull, opts, fc.validators[i]);
      if failed != [] {
        errors := errors + failed;
        if opts.stopOnFirstError {
          FailuresStopHere(fc, value, opts, fc.validators, i + 1);
          return errors, true;
        }
      }
    }
    assert fc.validators[..|fc.validators|] == fc.validators;
    stopped := false;
  }

  /** One turn of the validator loop: a fresh context for the validator, the call,
      and the `FieldError` when it fails. */
  method CallValidator(fc: FieldContext, value: Value, isPointer: bool, isNull: bool, opts: ValidationOptions,
                       validator: Bound<ValidationFunction>)
    returns (failed: seq<FieldError>)
    requires isPointer == IsPointerValue(value) && isNull == (isPointer && IsNilPointer(value))
    ensures failed == ErrorsOf(fc, value, opts, validator)
  {
    var ctx := ValidationContext(value, fc.fieldKind, isPointer, isNull, opts, validator.args);
    assert ctx == MakeContext(fc, value, value, opts, validator.args);
    var verdict := validator.fn(ctx);
    failed := [];
    if !verdict.ok {
      var fe := NewFieldError(fc, validator, verdict, opts);
      failed := [fe];
    }
  }

  /** The `FieldError` built for a failing validator. */
  method NewFieldError(fc: FieldContext, validator: Bound<ValidationFunction>, verdict: Verdict, opts: ValidationOptions)
    returns (fe: FieldError)
    ensures fe == FieldError(fc.fieldLabel, FailureMessage(fc, validator, verdict, opts))
  {
    fe := FieldError(fc.fieldLabel, "");
    if fc.hasMessageTemplate {
      fe := fe.(message := fc.fieldMessageTemplate);
    } else if |verdict.errorMessage| > 0 {
      fe := fe.(message := verdict.errorMessage);
    } else {
      fe := fe.(message := fc.fieldLabel + ": field validation failed");
      if opts.exposeValidatorNames {
        fe := fe.(message := fe.message + " using function " + validator.name);
      }
    }
  }

  /** The filter loop of `apply`: every filter in order, each result written back
      into the field, where the next filter reads it. */
  method RunFilters(fc: FieldContext, record: Record, isPointer: bool, isNull: bool, opts: ValidationOptions)
    requires fc.fieldName in record.fields
    requires var entry := record.fields[fc.fieldName];
      isPointer == IsPointerValue(entry) && isNull == (isPointer && IsNilPointer(entry))
    modifies record
    ensures record.fields == old(record.fields)[fc.fieldName := Filtered(fc, old(record.fields[fc.fieldName]), opts, fc.filters)]
  {
    ghost var entry := record.fields[fc.fieldName];
    for i := 0 to |fc.filters|
      invariant record.fields == old(record.fields)[fc.fieldName := FilteredFrom(fc, entry, entry, opts, fc.filters[..i])]
    {
      assert fc.filters[..i + 1][..i] == fc.filters[..i];
      var filter := fc.filters[i];
      var ctx := ValidationContext(record.fields[fc.fieldName], fc.fieldKind, isPointer, isNull, opts, filter.args);
      assert ctx == MakeContext(fc, entry, record.fields[fc.fieldName], opts, filter.args);
      var newValue := filter.fn(ctx);
      record.fields := record.fields[fc.fieldName := newValue];
    }
    assert fc.filters[..|fc.filters|] == fc.filters;
  }

  /** The errors of the first validators that fail, when there are some, start
      the errors of the whole chain. */
  lemma {:induction false} FailuresStopHere(fc: FieldContext, v: Value, opts: ValidationOptions,
                                            vs: seq<Bound<ValidationFunction>>, k: nat)
    requires k <= |vs| && |Failures(fc, v, opts, vs[..k])| == 1
    ensures |Failures(fc, v, opts, vs)| > 0
    ensures Failures(fc, v, opts, vs[..k]) == [Failures(fc, v, opts, vs)[0]]
  {
    FailuresPrefix(fc, v, opts, vs, k);
  }

  /** One more validator adds its own errors at the end. */
  lemma {:induction false} FailuresStep(fc: FieldContext, v: Value, opts: ValidationOptions, vs: seq<Bound<ValidationFunction>>, i: nat)
    requires i < |vs|
    ensures Failures(fc, v, opts, vs[..i + 1]) == Failures(fc, v, opts, vs[..i]) + ErrorsOf(fc, v, opts, vs[i])
  {
    assert vs[..i + 1][..i] == vs[..i];
  }

  /** Running a longer chain only appends errors: the errors of a prefix are a
      prefix of the errors of the whole chain. */
  lemma {:induction false} FailuresPrefix(fc: FieldContext, v: Value, opts: ValidationOptions,
                                          vs: seq<Bound<ValidationFunction>>, k: nat)
    requires k <= |vs|
    ensures var pre := Failures(fc, v, opts, vs[..k]);
      pre <= Failures(fc, v, opts, vs)
    decreases |vs| - k
  {
    if k < |vs| {
      var front := vs[..|vs| - 1];
      assert front[..k] == vs[..k];
      FailuresPrefix(fc, v, opts, front, k);
    } else {
      assert vs[..k] == vs;
    }
  }

  /** Validator order: the errors of two chains run one after the other are the
      errors of the first followed by those of the second. */
  lemma {:induction false} FailuresConcat(fc: FieldContext, v: Value, opts: ValidationOptions,
                                          vs: seq<Bound<ValidationFunction>>, ws: seq<Bound<ValidationFunction>>)
    ensures Failures(fc, v, opts, vs + ws) == Failures(fc, v, opts, vs) + Failures(fc, v, opts, ws)
    decreases |ws|
  {
    if |ws| == 0 {
      assert vs + ws == vs;
    } else {
      var front := ws[..|ws| - 1];
      assert (vs + ws)[..|vs + ws| - 1] == vs + front;
      assert (vs + ws)[|vs + ws| - 1] == ws[|ws| - 1];
      FailuresConcat(fc, v, opts, vs, front);
    }
  }

  /** No errors exactly when every validator passes. */
  lemma {:induction false} FailuresEmpty(fc: FieldContext, v: Value, opts: ValidationOptions, vs: seq<Bound<ValidationFunction>>)
    ensures Failures(fc, v, opts, vs) == [] <==> forall i | 0 <= i < |vs| :: Judge(fc, v, opts, vs[i]).ok
    decreases |vs|
  {
    if |vs| > 0 {
      var front := vs[..|vs| - 1];
      FailuresEmpty(fc, v, opts, front);
      assert forall i | 0 <= i < |front| :: front[i] == vs[i];
    }
  }

  /** Every error names the field by its label, there is at most one per
      validator, and a field with a message template reports that template. */
  lemma {:induction false} FailuresShape(fc: FieldContext, v: Value, opts: ValidationOptions, vs: seq<Bound<ValidationFunction>>)
    ensures |Failures(fc, v, opts, vs)| <= |vs|
    ensures forall e | e in Failures(fc, v, opts, vs) :: e.field == fc.fieldLabel
    ensures fc.hasMessageTemplate ==> forall e | e in Failures(fc, v, opts, vs) :: e.message == fc.fieldMessageTemplate
    decreases |vs|
  {
    if |vs| > 0 {
      FailuresShape(fc, v, opts, vs[..|vs| - 1]);
    }
  }

  /** The first error comes from the first failing validator. */
  lemma {:induction false} FirstFailure(fc: FieldContext, v: Value, opts: ValidationOptions, vs: seq<Bound<ValidationFunction>>, k: nat)
    requires k < |vs| && !Judge(fc, v, opts, vs[k]).ok
    requires forall i | 0 <= i < k :: Judge(fc, v, opts, vs[i]).ok
    ensures |Failures(fc, v, opts, vs)| > 0
    ensures Failures(fc, v, opts, vs)[0] == FieldError(fc.fieldLabel, FailureMessage(fc, vs[k], Judge(fc, v, opts, vs[k]), opts))
  {
    var pre, one, tail := vs[..k], [vs[k]], vs[k + 1..];
    assert vs == pre + (one + tail);
    FailuresConcat(fc, v, opts, pre, one + tail);
    assert forall i | 0 <= i < |pre| :: pre[i] == vs[i];
    FailuresEmpty(fc, v, opts, pre);
    FailuresConcat(fc, v, opts, one, tail);
    FailuresSingle(fc, v, opts, vs[k]);
  }

  /** A chain of one validator contributes that validator's errors. */
  lemma {:induction false} FailuresSingle(fc: FieldContext, v: Value, opts: ValidationOptions, b: Bound<ValidationFunction>)
    ensures Failures(fc, v, opts, [b]) == ErrorsOf(fc, v, opts, b)
  {
    assert [b][..0] == [];
  }

  /** Filter order: running two filter chains one after the other is running
      their concatenation. */
  lemma {:induction false} FilteredConcat(fc: FieldContext, entry: Value, start: Value, opts: ValidationOptions,
                                          fs: seq<Bound<FilterFunction>>, gs: seq<Bound<FilterFunction>>)
    ensures FilteredFrom(fc, entry, start, opts, fs + gs)
      == FilteredFrom(fc, entry, FilteredFrom(fc, entry, start, opts, fs), opts, gs)
    decreases |gs|
  {
    if |gs| == 0 {
      assert fs + gs == fs;
    } else {
      var front := gs[..|gs| - 1];
      assert (fs + gs)[..|fs + gs| - 1] == fs + front;
      assert (fs + gs)[|fs + gs| - 1] == gs[|gs| - 1];
      FilteredConcat(fc, entry, start, opts, fs, front);
    }
  }

  /** With `allow_zero` set, a nil pointer, a pointer to the zero value and a zero
      value are let through untouched: no errors, the field keeps its value. */
  lemma AllowZeroSkips(fc: FieldContext, v: Value, opts: ValidationOptions)
    requires fc.IsFlagSet(AllowZero)
    requires v == Nil(Pointer) || (v.Ptr? && fc.IsZero(v.target)) || (!IsPointerValue(v) && fc.IsZero(v))
    ensures Run(fc, v, opts) == Outcome([], v)
  {
  }

  /** Under `StopOnFirstError` at most one error comes back, the first failing
      validator's, and once there is one no filter has run. */
  lemma {:induction false} StopOnFirstError(fc: FieldContext, v: Value, opts: ValidationOptions, k: nat)
    requires opts.stopOnFirstError && !SkipsAsZero(fc, v)
    requires k < |fc.validators| && !Judge(fc, v, opts, fc.validators[k]).ok
    requires forall i | 0 <= i < k :: Judge(fc, v, opts, fc.validators[i]).ok
    ensures Run(fc, v, opts) == Outcome(
      [FieldError(fc.fieldLabel, FailureMessage(fc, fc.validators[k], Judge(fc, v, opts, fc.validators[k]), opts))], v)
  {
    FirstFailure(fc, v, opts, fc.validators, k);
  }

  /** Without `StopOnFirstError`, or when every validator passes, every filter runs
      in order, whatever the validators said. */
  lemma {:induction false} FiltersRunDespiteFailures(fc: FieldContext, v: Value, opts: ValidationOptions)
    requires !SkipsAsZero(fc, v)
    requires !opts.stopOnFirstError || forall i | 0 <= i < |fc.validators| :: Judge(fc, v, opts, fc.validators[i]).ok
    ensures Run(fc, v, opts) == Outcome(Failures(fc, v, opts, fc.validators), Filtered(fc, v, opts, fc.filters))
  {
    FailuresEmpty(fc, v, opts, fc.validators);
  }

  /** A field whose only rule is `required`, holding a nil pointer and not let
      through by `allow_zero`, gets exactly one error; without a template its
      message is the default text, naming `required` when validator names are
      exposed. */
  lemma {:induction false} RequiredRejectsNilPointer(fc: FieldContext, opts: ValidationOptions)
    requires fc.validators == [Bound("required", [], Validators.RequiredFunction)]
    requires !fc.IsFlagSet(AllowZero) && !fc.hasMessageTemplate
    ensures Run(fc, Nil(Pointer), opts).errors == [FieldError(fc.fieldLabel,
      fc.fieldLabel + ": field validation failed" + (if opts.exposeValidatorNames then " using function required" else ""))]
  {
    var b := fc.validators[0];
    var verdict := Judge(fc, Nil(Pointer), opts, b);
    assert verdict == Verdict(false, "");
    assert fc.validators[..0] == [];
    assert Failures(fc, Nil(Pointer), opts, fc.validators) == ErrorsOf(fc, Nil(Pointer), opts, b);
    var m := fc.fieldLabel + ": field validation failed";
    assert m + " using function " + b.name == m + " using function required";
  }

  // ---------------------------------------------------------------------------
  // What the field compiler promises
  // ---------------------------------------------------------------------------

  /** Exactly the unexported fields and the fields with neither a validator nor a
      filter tag get no context, whatever the tables hold. */
  lemma CompileSkips(field: StructField, opts: ValidationOptions,
                     validatorTable: map<string, ValidationFunction>, filterTable: map<string, FilterFunction>)
    requires |field.name| > 0 && WellFormed(field.typ)
    ensures CompileField(field, opts, validatorTable, filterTable) == Success(None) <==>
      || IsUnexported(field.name)
      || (TagLookup(field.tag, opts.filterTagName).None? && TagLookup(field.tag, opts.validatorTagName).None?)
  {
  }

  /** A field compiles exactly when it is skipped or both of its chains bind. */
  lemma {:induction false} CompileSucceeds(field: StructField, opts: ValidationOptions,
                        validatorTable: map<string, ValidationFunction>, filterTable: map<string, FilterFunction>)
    requires |field.name| > 0 && WellFormed(field.typ)
    ensures CompileField(field, opts, validatorTable, filterTable).Success? <==>
      || IsUnexported(field.name)
      || (TagLookup(field.tag, opts.filterTagName).None? && TagLookup(field.tag, opts.validatorTagName).None?)
      || (&& BindTag(TagLookup(field.tag, opts.validatorTagName), validatorTable, ValidatorChain, field.name).Success?
          && BindTag(TagLookup(field.tag, opts.filterTagName), filterTable, FilterChain, field.name).Success?)
  {
    var header := Header(field, opts);
    assert header.fieldName == field.name;
  }

  /** An exported field with a validator or a filter tag whose chains both bind gets
      a context: the header, with the bound validator chain, the bound filter chain
      and the flags. */
  lemma {:induction false} CompileBuilds(field: StructField, opts: ValidationOptions,
                      validatorTable: map<string, ValidationFunction>, filterTable: map<string, FilterFunction>)
    requires |field.name| > 0 && WellFormed(field.typ) && !IsUnexported(field.name)
    requires TagLookup(field.tag, opts.filterTagName).Some? || TagLookup(field.tag, opts.validatorTagName).Some?
    requires BindTag(TagLookup(field.tag, opts.validatorTagName), validatorTable, ValidatorChain, field.name).Success?
    requires BindTag(TagLookup(field.tag, opts.filterTagName), filterTable, FilterChain, field.name).Success?
    ensures CompileField(field, opts, validatorTable, filterTable) == Success(Some(Header(field, opts).(
      validators := BindTag(TagLookup(field.tag, opts.validatorTagName), validatorTable, ValidatorChain, field.name).value,
      filters := BindTag(TagLookup(field.tag, opts.filterTagName), filterTable, FilterChain, field.name).value,
      flags := FlagsOf(TagLookup(field.tag, opts.flagTagName)))))
  {
    var header := Header(field, opts);
    var vtag := TagLookup(field.tag, opts.validatorTagName);
    var ftag := TagLookup(field.tag, opts.filterTagName);
    var flagTag := TagLookup(field.tag, opts.flagTagName);
    assert header.fieldName == field.name && header.validators == [] && header.filters == [] && header.flags == [];
    var vs := BindTag(vtag, validatorTable, ValidatorChain, field.name).value;
    var fs := BindTag(ftag, filterTable, FilterChain, field.name).value;
    AttachBinds(header, vtag, ftag, flagTag, validatorTable, filterTable);
    assert [] + vs == vs && [] + fs == fs && [] + FlagsOf(flagTag) == FlagsOf(flagTag);
    var built := header.(validators := vs, filters := fs, flags := FlagsOf(flagTag));
    assert Attach(header, vtag, ftag, flagTag, validatorTable, filterTable) == Success(built);
  }

  /** Attaching succeeds when both chains bind, and appends both chains and the flags. */
  lemma {:induction false} AttachBinds(fc: FieldContext, validatorTag: Option<string>, filterTag: Option<string>,
                    flagTag: Option<string>, validatorTable: map<string, ValidationFunction>,
                    filterTable: map<string, FilterFunction>)
    requires BindTag(validatorTag, validatorTable, ValidatorChain, fc.fieldName).Success?
    requires BindTag(filterTag, filterTable, FilterChain, fc.fieldName).Success?
    ensures Attach(fc, validatorTag, filterTag, flagTag, validatorTable, filterTable)
      == Success(fc.(validators := fc.validators + BindTag(validatorTag, validatorTable, ValidatorChain, fc.fieldName).value,
                     filters := fc.filters + BindTag(filterTag, filterTable, FilterChain, fc.fieldName).value,
                     flags := fc.flags + FlagsOf(flagTag)))
  {
  }

  /** A compiled context: the field was exported and tagged; its triggers are the
      comma-split trigger tag or just "all", its label the label tag or the field
      name, its kind the element's kind for wrappers, its zero value the pointee's
      for pointers, and its flags the trimmed `|`-split flag tag. */
  lemma CompileHeader(field: StructField, opts: ValidationOptions,
                      validatorTable: map<string, ValidationFunction>, filterTable: map<string, FilterFunction>)
    requires |field.name| > 0 && WellFormed(field.typ)
    requires CompileField(field, opts, validatorTable, filterTable).Success?
    requires CompileField(field, opts, validatorTable, filterTable).value.Some?
    ensures var fc := CompileField(field, opts, validatorTable, filterTable).value.value;
      var triggerTag := TagLookup(field.tag, opts.triggerTagName);
      var labelTag := TagLookup(field.tag, opts.labelTagName);
      var messageTag := TagLookup(field.tag, opts.messageTagName);
      var flagTag := TagLookup(field.tag, opts.flagTagName);
      && !IsUnexported(field.name)
      && (TagLookup(field.tag, opts.filterTagName).Some? || TagLookup(field.tag, opts.validatorTagName).Some?)
      && fc.fieldName == field.name
      && fc.triggers == (if triggerTag.Some? then Split(triggerTag.value, ',') else ["all"])
      && fc.fieldLabel == (if labelTag.Some? then labelTag.value else field.name)
      && fc.hasLabel == labelTag.Some?
      && fc.hasMessageTemplate == messageTag.Some?
      && (fc.hasMessageTemplate ==> fc.fieldMessageTemplate == messageTag.value)
      && fc.fieldKind == ResolvedKind(field.typ)
      && fc.zeroValue == ZeroValueOf(field.typ)
      && fc.flags == (if flagTag.Some? then TrimAll(Split(flagTag.value, '|')) else [])
  {
  }

  /** With an empty name for the flag, trigger, message and label channels, as `init`
      leaves them, those tags are never read: every field runs for every trigger, is
      labelled by its own name, has no message template and no flags. */
  lemma {:induction false} UnnamedChannelsIgnored(field: StructField, opts: ValidationOptions)
    requires |field.name| > 0 && WellFormed(field.typ)
    requires opts.flagTagName == opts.triggerTagName == opts.messageTagName == opts.labelTagName == ""
    ensures var fc := Header(field, opts);
      && fc.triggers == ["all"] && fc.fieldLabel == field.name
      && !fc.hasLabel && !fc.hasMessageTemplate
    ensures FlagsOf(TagLookup(field.tag, opts.flagTagName)) == []
  {
    EmptyKeyNeverFound(field.tag);
  }

  /** A field tagged with one trigger other than "all" runs for that trigger only. */
  lemma {:induction false} ActivateSingle(fc: FieldContext, trigger: string)
    requires ',' !in trigger && trigger != "all"
    requires fc.triggers == Split(trigger, ',')
    ensures forall t :: fc.Activate(t) <==> t == trigger
  {
    SplitWhole(trigger, ',');
  }

  /** Trigger gating, for the triggers `CompileHeader` gives a compiled field: a
      field without a trigger tag runs for every trigger; a field tagged with a
      single trigger other than "all" (say "update") runs for that trigger and for
      no other (not for "create"). */
  lemma {:induction false} TriggerGating(triggerTag: Option<string>, fc: FieldContext)
    requires fc.triggers == if triggerTag.Some? then Split(triggerTag.value, ',') else ["all"]
    ensures triggerTag.None? ==> forall t :: fc.Activate(t)
    ensures triggerTag.Some? && ',' !in triggerTag.value && triggerTag.value != "all" ==>
      forall t :: fc.Activate(t) <==> t == triggerTag.value
  {
    if triggerTag.Some? && ',' !in triggerTag.value && triggerTag.value != "all" {
      ActivateSingle(fc, triggerTag.value);
    }
  }

  /** The rules a tag binds to are its tokens, in order, each bound on its own. */
  lemma {:induction false} BindTagContents<F>(tag: Option<string>, table: map<string, F>, chain: Chain, field: string)
    requires BindTag(tag, table, chain, field).Success?
    ensures var bound := BindTag(tag, table, chain, field).value;
      && |bound| == |Tokens(tag)|
      && forall i | 0 <= i < |bound| :: BindOne(Tokens(tag)[i], table, chain, field) == Success(bound[i])
  {
    if tag.Some? {
      BindChainContents(Split(tag.value, '|'), table, chain, field);
    }
  }

  /** What `Attach` appends when it succeeds: both chains bound, and the flags. */
  lemma {:induction false} AttachParts(fc: FieldContext, validatorTag: Option<string>, filterTag: Option<string>,
                    flagTag: Option<string>, validatorTable: map<string, ValidationFunction>,
                    filterTable: map<string, FilterFunction>)
    requires Attach(fc, validatorTag, filterTag, flagTag, validatorTable, filterTable).Success?
    ensures BindTag(validatorTag, validatorTable, ValidatorChain, fc.fieldName).Success?
    ensures BindTag(filterTag, filterTable, FilterChain, fc.fieldName).Success?
    ensures Attach(fc, validatorTag, filterTag, flagTag, validatorTable, filterTable).value
      == fc.(validators := fc.validators + BindTag(validatorTag, validatorTable, ValidatorChain, fc.fieldName).value,
             filters := fc.filters + BindTag(filterTag, filterTable, FilterChain, fc.fieldName).value,
             flags := fc.flags + FlagsOf(flagTag))
  {
  }

  /** A compiled context is the header with the chains and flags attached. */
  lemma {:induction false} CompileIsAttach(field: StructField, opts: ValidationOptions,
                        validatorTable: map<string, ValidationFunction>, filterTable: map<string, FilterFunction>)
    requires |field.name| > 0 && WellFormed(field.typ)
    requires CompileField(field, opts, validatorTable, filterTable).Success?
    requires CompileField(field, opts, validatorTable, filterTable).value.Some?
    ensures var a := Attach(Header(field, opts), TagLookup(field.tag, opts.validatorTagName), TagLookup(field.tag, opts.filterTagName),
                            TagLookup(field.tag, opts.flagTagName), validatorTable, filterTable);
      && a.Success?
      && CompileField(field, opts, validatorTable, filterTable).value.value == a.value
      && Header(field, opts).validators == [] && Header(field, opts).filters == []
      && Header(field, opts).fieldName == field.name
  {
  }

  /** The validator chain of a compiled context is the validator tag's tokens in
      tag order, each bound to its own name, arguments and registry entry. */
  lemma {:induction false} CompileValidatorChain(field: StructField, opts: ValidationOptions,
                              validatorTable: map<string, ValidationFunction>, filterTable: map<string, FilterFunction>)
    requires |field.name| > 0 && WellFormed(field.typ)
    requires CompileField(field, opts, validatorTable, filterTable).Success?
    requires CompileField(field, opts, validatorTable, filterTable).value.Some?
    ensures var fc := CompileField(field, opts, validatorTable, filterTable).value.value;
      var tokens := Tokens(TagLookup(field.tag, opts.validatorTagName));
      && |fc.validators| == |tokens|
      && forall i | 0 <= i < |tokens| :: BindOne(tokens[i], validatorTable, ValidatorChain, field.name) == Success(fc.validators[i])
  {
    CompileIsAttach(field, opts, validatorTable, filterTable);
    var tag := TagLookup(field.tag, opts.validatorTagName);
    AttachParts(Header(field, opts), tag, TagLookup(field.tag, opts.filterTagName),
                TagLookup(field.tag, opts.flagTagName), validatorTable, filterTable);
    BindTagContents(tag, validatorTable, ValidatorChain, field.name);
  }

  /** The filter chain of a compiled context is the filter tag's tokens in tag
      order, each bound to its own name, arguments and registry entry. */
  lemma {:induction false} CompileFilterChain(field: StructField, opts: ValidationOptions,
                           validatorTable: map<string, ValidationFunction>, filterTable: map<string, FilterFunction>)
    requires |field.name| > 0 && WellFormed(field.typ)
    requires CompileField(field, opts, validatorTable, filterTable).Success?
    requires CompileField(field, opts, validatorTable, filterTable).value.Some?
    ensures var fc := CompileField(field, opts, validatorTable, filterTable).value.value;
      var tokens := Tokens(TagLookup(field.tag, opts.filterTagName));
      && |fc.filters| == |tokens|
      && forall i | 0 <= i < |tokens| :: BindOne(tokens[i], filterTable, FilterChain, field.name) == Success(fc.filters[i])
  {
    CompileIsAttach(field, opts, validatorTable, filterTable);
    var tag := TagLookup(field.tag, opts.filterTagName);
    AttachParts(Header(field, opts), TagLookup(field.tag, opts.validatorTagName), tag,
                TagLookup(field.tag, opts.flagTagName), validatorTable, filterTable);
    BindTagContents(tag, filterTable, FilterChain, field.name);
  }

  /** A field that fails to compile names the first token that does not bind:
      in the validator chain, or, once that chain binds, in the filter chain. */
  lemma {:induction false} CompileFailure(field: StructField, opts: ValidationOptions,
                      validatorTable: map<string, ValidationFunction>, filterTable: map<string, FilterFunction>)
    requires |field.name| > 0 && WellFormed(field.typ)
    requires CompileField(field, opts, validatorTable, filterTable).Failure?
    ensures var e := CompileField(field, opts, validatorTable, filterTable).error;
      var vtokens := Tokens(TagLookup(field.tag, opts.validatorTagName));
      var ftokens := Tokens(TagLookup(field.tag, opts.filterTagName));
      || (exists k | 0 <= k < |vtokens| ::
            && (forall j | 0 <= j < k :: Binds(vtokens[j], validatorTable))
            && BindOne(vtokens[k], validatorTable, ValidatorChain, field.name) == Failure(e))
      || (&& (forall j | 0 <= j < |vtokens| :: Binds(vtokens[j], validatorTable))
          && exists k | 0 <= k < |ftokens| ::
            && (forall j | 0 <= j < k :: Binds(ftokens[j], filterTable))
            && BindOne(ftokens[k], filterTable, FilterChain, field.name) == Failure(e))
  {
    var vtag := TagLookup(field.tag, opts.validatorTagName);
    var ftag := TagLookup(field.tag, opts.filterTagName);
    var vtokens := Tokens(TagLookup(field.tag, opts.validatorTagName));
    var ftokens := Tokens(TagLookup(field.tag, opts.filterTagName));
    var e := CompileField(field, opts, validatorTable, filterTable).error;
    var vs := BindTag(vtag, validatorTable, ValidatorChain, field.name);
    if vs.Failure? {
      assert vtag.Some? && vs == BindChain(vtokens, validatorTable, ValidatorChain, field.name);
      assert vs.error == e;
      BindChainFirstFailure(vtokens, validatorTable, ValidatorChain, field.name);
    } else {
      var fs := BindTag(ftag, filterTable, FilterChain, field.name);
      assert fs.Failure? && fs.error == e;
      assert ftag.Some? && fs == BindChain(ftokens, filterTable, FilterChain, field.name);
      BindChainFirstFailure(ftokens, filterTable, FilterChain, field.name);
      if vtag.Some? {
        BindChainSucceeds(vtokens, validatorTable, ValidatorChain, field.name);
      }
    }
  }

  /** An empty table binds nothing: every non-empty chain fails on its first token. */
  lemma {:induction false} EmptyTableRejects<F>(tokens: seq<string>, chain: Chain, field: string)
    requires |tokens| > 0
    ensures BindChain<F>(tokens, map[], chain, field).Failure?
    ensures Failure(BindChain<F>(tokens, map[], chain, field).error) == BindOne<F>(tokens[0], map[], chain, field)
  {
    BindChainFirstFailure<F>(tokens, map[], chain, field);
  }

  /** Before any filter is added, a field with a filter tag cannot be compiled
      (once its validator chain binds): the first filter token fails, and when it
      parses, the message is the "filter ... not found" one. */
  lemma InitialFiltersReject(field: StructField, opts: ValidationOptions,
                             validatorTable: map<string, ValidationFunction>)
    requires |field.name| > 0 && WellFormed(field.typ) && !IsUnexported(field.name)
    requires TagLookup(field.tag, opts.filterTagName).Some?
    requires BindTag(TagLookup(field.tag, opts.validatorTagName), validatorTable, ValidatorChain, field.name).Success?
    ensures var r := CompileField(field, opts, validatorTable, Functions.InitialFilters());
      var token := Split(TagLookup(field.tag, opts.filterTagName).value, '|')[0];
      && r.Failure?
      && Failure(r.error) == BindOne(token, Functions.InitialFilters(), FilterChain, field.name)
      && (ExtractFunctionInformation(token).Some? ==>
            r.error.Message() == "filter " + ExtractFunctionInformation(token).value.name
                                 + " referenced by field " + field.name + " not found")
  {
    var tokens := Split(TagLookup(field.tag, opts.filterTagName).value, '|');
    EmptyTableRejects<FilterFunction>(tokens, FilterChain, field.name);
    assert BindTag(TagLookup(field.tag, opts.filterTagName), Functions.InitialFilters(), FilterChain, field.name)
      == BindChain(tokens, Functions.InitialFilters(), FilterChain, field.name);
  }

  /** An empty tag is one empty token, so it looks up the name "". */
  lemma {:induction false} EmptyTagLooksUpEmptyName<F>(table: map<string, F>, chain: Chain, field: string)
    ensures Split("", '|') == [""]
    ensures BindChain(Split("", '|'), table, chain, field).Success? <==> "" in table
  {
    ExtractBareName("");
    BindChainSucceeds([""], table, chain, field);
  }

  /** A chain of one token is that token's binding. */
  lemma {:induction false} BindChainSingle<F>(token: string, table: map<string, F>, chain: Chain, field: string)
    ensures var b := BindOne(token, table, chain, field);
      BindChain([token], table, chain, field) == if b.Success? then Success([b.value]) else Failure(b.error)
  {
    var tokens := [token];
    assert tokens[..0] == [] && tokens[0] == token;
    assert BindChain(tokens[..0], table, chain, field) == Success([]);
    var b := BindOne(token, table, chain, field);
    if b.Success? {
      assert [] + [b.value] == [b.value];
    }
  }

  /** A pointer-to-int field resolves to kind `Int`, so every context built for it
      satisfies `IsValueOfKind(Int)`, and its zero value is the integer 0. */
  lemma PointerToIntKind(field: StructField, opts: ValidationOptions, entry: Value, current: Value, args: seq<string>)
    requires |field.name| > 0 && field.typ == PointerTo(Scalar(Int))
    ensures var fc := Header(field, opts);
      && fc.fieldKind == Int
      && MakeContext(fc, entry, current, opts, args).IsValueOfKind(Int)
      && fc.zeroValue == IntV(0)
  {
  }

  /** The arguments reach the rule: `range(10,50)` binds to a rule whose context
      counts two arguments. */
  lemma {:induction false} RangeArgCount<F>(table: map<string, F>, chain: Chain, field: string, token: string,
                         fc: FieldContext, entry: Value, current: Value, opts: ValidationOptions)
    requires "range" in table && token == "range(10,50)"
    ensures BindChain(Split(token, '|'), table, chain, field) == Success([Bound("range", ["10", "50"], table["range"])])
    ensures MakeContext(fc, entry, current, opts, BindChain(Split(token, '|'), table, chain, field).value[0].args).ArgCount() == 2
  {
    assert forall k | 0 <= k < |token| :: token[k] != '|';
    SplitWhole(token, '|');
    ExtractRange();
    BindChainSingle(token, table, chain, field);
  }
}