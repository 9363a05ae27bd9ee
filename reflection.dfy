/** What the engine learns from Go's `reflect` package, as plain values: the kind of
    a type, the types themselves (enough of them to know the element type of a
    wrapper and the zero value of every type), live field values, and struct fields
    with their tags. */
module Reflection {
  import opened Wrappers

  /** `reflect.Kind`. */
  datatype Kind =
    | Invalid | Bool
    | Int | Int8 | Int16 | Int32 | Int64
    | Uint | Uint8 | Uint16 | Uint32 | Uint64 | Uintptr
    | Float32 | Float64 | Complex64 | Complex128
    | Array | Chan | Func | Interface | Map | Pointer | Slice | String | Struct
    | UnsafePointer

  predicate IsIntegerKind(k: Kind) {
    k in {Int, Int8, Int16, Int32, Int64, Uint, Uint8, Uint16, Uint32, Uint64, Uintptr}
  }

  /** The kinds a `Scalar` type may have: every kind without an element type. */
  predicate IsScalarKind(k: Kind) {
    k !in {Invalid, Array, Chan, Map, Pointer, Slice, Struct}
  }

  /** A Go type: a scalar, a wrapper with an element type (`Elem()` in `reflect`), or
      a struct with the types of its fields. Map keys play no part in the engine. */
  datatype GoType =
    | Scalar(kind: Kind)
    | PointerTo(elem: GoType)
    | SliceOf(elem: GoType)
    | MapOf(elem: GoType)
    | ChanOf(elem: GoType)
    | ArrayOf(length: nat, elem: GoType)
    | StructOf(fields: seq<GoType>)
  {
    /** `Type.Kind()`. */
    function KindOf(): Kind {
      match this
      case Scalar(k) => k
      case PointerTo(_) => Pointer
      case SliceOf(_) => Slice
      case MapOf(_) => Map
      case ChanOf(_) => Chan
      case ArrayOf(_, _) => Array
      case StructOf(_) => Struct
    }
  }

  /** Types `reflect` can hand out: a scalar never has a wrapper's or struct's kind. */
  predicate WellFormed(t: GoType) {
    match t
    case Scalar(k) => IsScalarKind(k)
    case PointerTo(e) => WellFormed(e)
    case SliceOf(e) => WellFormed(e)
    case MapOf(e) => WellFormed(e)
    case ChanOf(e) => WellFormed(e)
    case ArrayOf(_, e) => WellFormed(e)
    case StructOf(fs) => forall i | 0 <= i < |fs| :: WellFormed(fs[i])
  }

  /** A live Go value. `Nil(k)` is the nil of a pointer, slice, map, chan, func,
      interface or unsafe pointer of kind `k`; `Ptr(v)` is a non-nil pointer to `v`;
      `Items` holds the elements of an array, a struct or a non-nil slice; `Handle`
      stands for a non-nil map, chan, func or interface value by its identity.
      Every integer kind is an `IntV`, every float kind a `FloatV`. */
  datatype Value =
    | BoolV(b: bool)
    | IntV(i: int)
    | FloatV(f: real)
    | ComplexV(re: real, im: real)
    | StrV(s: string)
    | Nil(kind: Kind)
    | Ptr(target: Value)
    | Items(items: seq<Value>)
    | Handle(kind: Kind, id: nat)

  /** `reflect.Zero(t)`, the value a variable of type `t` starts with. */
  function ZeroOf(t: GoType): Value
    decreases t
  {
    match t
    case Scalar(k) =>
      if k == Bool then BoolV(false)
      else if IsIntegerKind(k) then IntV(0)
      else if k in {Float32, Float64} then FloatV(0.0)
      else if k in {Complex64, Complex128} then ComplexV(0.0, 0.0)
      else if k == String then StrV("")
      else Nil(k)
    case PointerTo(_) => Nil(Pointer)
    case SliceOf(_) => Nil(Slice)
    case MapOf(_) => Nil(Map)
    case ChanOf(_) => Nil(Chan)
    case ArrayOf(n, e) => Items(seq(n, _ => ZeroOf(e)))
    case StructOf(fs) => Items(seq(|fs|, i requires 0 <= i < |fs| => ZeroOf(fs[i])))
  }

  /** `value.Kind() == reflect.Ptr` for a live value. */
  predicate IsPointerValue(v: Value) {
    v.Ptr? || v == Nil(Pointer)
  }

  /** `value.IsNil()` for a pointer value. */
  predicate IsNilPointer(v: Value) {
    v == Nil(Pointer)
  }

  /** `reflect.StructField`: the name, the declared type and the tag, the tag read as
      the map from keys to values that `Tag.Lookup` consults. */
  datatype StructField = StructField(name: string, typ: GoType, tag: map<string, string>)

  /** A key `Tag.Lookup` can match. Go's tag scanner reads a key as a non-empty run of
      characters above the space other than ':', '"' and DEL; an empty key, or one
      holding any other character, is never found, whatever the tag says. */
  predicate IsTagKey(key: string) {
    && key != []
    && forall i | 0 <= i < |key| :: ' ' < key[i] && key[i] != ':' && key[i] != '"' && key[i] != '\U{7F}'
  }

  /** `StructTag.Lookup`: the value under `key` and whether there is one. */
  function TagLookup(tag: map<string, string>, key: string): (r: Option<string>)
    ensures r.Some? <==> IsTagKey(key) && key in tag
    ensures r.Some? ==> r.value == tag[key]
  {
    if IsTagKey(key) then Lookup(tag, key) else None
  }

  /** Under an empty tag name, the name `init` leaves to the flag, trigger, message
      and label channels, nothing is ever found. */
  lemma EmptyKeyNeverFound(tag: map<string, string>)
    ensures TagLookup(tag, "") == None
  {
  }
}
