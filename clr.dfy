/** The slice of the .NET runtime that the data-mapping core observes:
    boxed values, the few static types it tests for, exceptions, and the
    blank-string tests of System.String. */
module Clr {

  /** A boxed CLR value, as reflection or expression evaluation hands it over. */
  datatype Value =
    | Null
    | Int(i: int)
    | Enum(enumType: string, int32Based: bool, underlying: int) // `enum E : int` when int32Based
    | Bool(b: bool)
    | Char(c: char)
    | DateTime(ticks: int)
    | GuidValue(g: nat)                       // 0 is Guid.Empty
    | OtherStruct(structType: string, id: nat) // decimal, double, user structs, ...
    | Str(s: string)
    | OtherObject(objectType: string, id: nat) // any other reference value

  /** `v is ValueType`: everything but null, strings and other references. */
  predicate IsValueType(v: Value) {
    !(v.Null? || v.Str? || v.OtherObject?)
  }

  /** The declared type of a property, compared with `Type.Equals`. */
  datatype ClrType = StringType | DateTimeType | NamedType(name: string)

  /** The exceptions the modelled code can raise or let through. */
  datatype Exception =
    | ArgumentNull(paramName: string)
    | ArgumentOutOfRange
    | Argument(message: string)
    | NullReference
    | KeyNotFound
    | InvalidOperation
    | IndexOutOfRange
    | InvalidCast
    | Raised(code: nat)   // an exception thrown by caller or host code

  /** `obj.ToString()` for a non-null value: a string is its own text, any other
      value is formatted by the runtime (`show`, culture dependent). */
  function ToStringOf(show: Value -> string, v: Value): string
    requires v != Null
  {
    if v.Str? then v.s else show(v)
  }

  /** `obj + ""` in C#: a null object contributes the empty string. */
  function Concatenated(show: Value -> string, v: Value): string {
    if v == Null then "" else ToStringOf(show, v)
  }

  /** `char.IsWhiteSpace`: the Unicode space separators, line and paragraph
      separators, and the control characters U+0009-U+000D and U+0085. */
  predicate IsWhiteSpace(c: char) {
    || c == ' ' || ('\t' <= c <= '\r') || c == '\U{0085}' || c == '\U{00A0}'
    || c == '\U{1680}' || ('\U{2000}' <= c <= '\U{200A}') || c == '\U{2028}'
    || c == '\U{2029}' || c == '\U{202F}' || c == '\U{205F}' || c == '\U{3000}'
  }

  /** `string.IsNullOrWhiteSpace` on a string that is not null. */
  predicate IsBlank(s: string) {
    forall i :: 0 <= i < |s| ==> IsWhiteSpace(s[i])
  }
}
