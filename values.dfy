/** The part of Go's reflection that the assembler relies on, written out as an
    explicit value datatype, together with the assembler's three error kinds. */
module Values {

  /** One field of a struct value: its Go field name, its `boil` struct tag
      (the empty string when the field carries none) and its value. */
  datatype Field = Field(name: string, tag: string, value: Value)

  /** A reflected Go value, by kind. A nil slice is `Slice([])`; `Nil` is a
      nil pointer, whose `Elem()` is the invalid value (of no kind below). */
  datatype Value =
    | Int(i: int)
    | Str(s: string)
    | Nil
    | Ptr(target: Value)
    | Array(elems: seq<Value>)
    | Slice(elems: seq<Value>)
    | Struct(fields: seq<Field>)

  /** The sentinel errors of the package. */
  datatype Error = DataEmpty | DataNotArray | DataNotStruct

  datatype Result<T> = Success(value: T) | Failure(error: Error)

  datatype Option<T> = None | Some(value: T)

  /** `if v.Kind() == reflect.Ptr { v = v.Elem() }`: at most one dereference. */
  function Deref(v: Value): Value
  {
    if v.Ptr? then v.target else v
  }

  /** The field names of a struct, in declaration order. */
  function FieldNames(fs: seq<Field>): seq<string>
  {
    seq(|fs|, i requires 0 <= i < |fs| => fs[i].name)
  }

  /** `FieldByName(name).Interface()`: the value of the first field called `name`. */
  function FieldByName(fs: seq<Field>, name: string): Value
    requires name in FieldNames(fs)
  {
    if fs[0].name == name then fs[0].value
    else
      assert name in FieldNames(fs[1..]) by {
        var i :| 0 <= i < |fs| && FieldNames(fs)[i] == name;
        assert FieldNames(fs[1..])[i - 1] == name;
      }
      FieldByName(fs[1..], name)
  }

  /** What Go's static typing guarantees of a non-empty collection of records:
      if element 0 dereferences to a struct, then every element dereferences to
      a struct with the same fields (one element type, and no nil pointer, which
      `FieldByName` would panic on). */
  predicate WellTyped(items: seq<Value>)
  {
    && |items| > 0
    && (Deref(items[0]).Struct? ==>
          forall i :: 0 <= i < |items| ==>
            Deref(items[i]).Struct? && FieldNames(Deref(items[i]).fields) == FieldNames(Deref(items[0]).fields))
  }
}
