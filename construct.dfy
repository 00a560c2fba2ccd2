/** The constructors `NewBulkInsert` and `NewBulkUpsert`: validate the records
    (an array or slice, non-empty, of structs or pointers to structs) and store
    the operation's configuration. */
module Construct {
  import opened Values
  import opened Common
  import opened Insert
  import opened Upsert

  /** The checks both constructors run, in order: array or slice, non-empty,
      element 0 a struct after at most one dereference. The first that fails
      gives the error; on success, the elements. */
  function Validate(data: Value): (r: Result<seq<Value>>)
    requires !data.Nil?
    ensures !IsCollection(data) ==> r == Failure(DataNotArray)
    ensures IsCollection(data) && |Deref(data).elems| == 0 ==> r == Failure(DataEmpty)
    ensures IsCollection(data) && |Deref(data).elems| > 0 && !Deref(Deref(data).elems[0]).Struct? ==>
      r == Failure(DataNotStruct)
    ensures r.Success? <==>
      IsCollection(data) && |Deref(data).elems| > 0 && Deref(Deref(data).elems[0]).Struct?
    ensures r.Success? ==> r.value == Deref(data).elems
  {
    match SupportedType(data)
    case None => Failure(DataNotArray)
    case Some(items) =>
      if |items| <= 0 then Failure(DataEmpty)
      else
        var item := items[0];
        var item := if item.Ptr? then item.target else item;
        if !item.Struct? then Failure(DataNotStruct)
        else Success(items)
  }

  /** `NewBulkInsert`: the validated records with the table and whitelist
      stored as given. */
  function NewBulkInsert(data: Value, table: string, columns: seq<string>): (r: Result<BulkInsert>)
    requires !data.Nil?
    ensures r.Failure? <==> Validate(data).Failure?
    ensures r.Failure? ==> r.error == Validate(data).error
    ensures r.Success? ==>
      && r.value.data == data
      && r.value.items == Deref(data).elems
      && r.value.table == table
      && r.value.columns == columns
      && |r.value.items| > 0 && Deref(r.value.items[0]).Struct?
  {
    match Validate(data)
    case Failure(e) => Failure(e)
    case Success(items) => Success(BulkInsert(data, items, table, columns))
  }

  /** `NewBulkUpsert`: the same validation; the update columns default to the
      insert columns when none are given (a nil slice, not an empty one). */
  function NewBulkUpsert(
    data: Value,
    table: string,
    conflicts: seq<string>,
    columnsInsert: seq<string>,
    columnsUpdate: Option<seq<string>>
  ): (r: Result<BulkUpsert>)
    requires !data.Nil?
    ensures r.Failure? <==> NewBulkInsert(data, table, columnsInsert).Failure?
    ensures r.Failure? ==> r.error == NewBulkInsert(data, table, columnsInsert).error
    ensures r.Success? ==>
      && r.value.insert == NewBulkInsert(data, table, columnsInsert).value
      && r.value.conflictTargets == conflicts
      && r.value.columnsUpdate == (if columnsUpdate.None? then columnsInsert else columnsUpdate.value)
  {
    match Validate(data)
    case Failure(e) => Failure(e)
    case Success(items) =>
      var update := if columnsUpdate.None? then columnsInsert else columnsUpdate.value;
      Success(BulkUpsert(BulkInsert(data, items, table, columnsInsert), update, conflicts))
  }

  /** Only element 0 is inspected: whatever follows a struct element, the
      records are accepted. */
  lemma OnlyFirstElementInspected(first: Value, rest: seq<Value>, table: string, columns: seq<string>)
    requires Deref(first).Struct?
    ensures NewBulkInsert(Slice([first] + rest), table, columns).Success?
    ensures NewBulkInsert(Ptr(Array([first] + rest)), table, columns).Success?
  {
  }

  /** The constructor tests: an empty or nil slice is `ErrDataEmpty`, a slice
      of ints is `ErrDataNotStruct`, a lone struct is `ErrDataNotArray`, and a
      slice of struct pointers is accepted with its whitelist kept. */
  lemma ConstructorExamples(s: seq<Field>, table: string, columns: seq<string>)
    ensures NewBulkInsert(Slice([]), table, columns) == Failure(DataEmpty)
    ensures NewBulkUpsert(Slice([]), table, [], columns, None) == Failure(DataEmpty)
    ensures NewBulkInsert(Slice([Int(1), Int(2), Int(3)]), table, columns) == Failure(DataNotStruct)
    ensures NewBulkUpsert(Slice([Int(1), Int(2), Int(3)]), table, [], columns, None) == Failure(DataNotStruct)
    ensures NewBulkInsert(Struct(s), table, columns) == Failure(DataNotArray)
    ensures NewBulkInsert(Slice([Ptr(Struct(s))]), table, columns).Success?
    ensures NewBulkInsert(Slice([Ptr(Struct(s))]), table, columns).value.columns == columns
  {
  }

  /** Validation happens once: after a successful construction, reading the
      fields cannot fail, so rendering never reports an error. */
  lemma ConstructedRendersWithoutError(data: Value, table: string, columns: seq<string>)
    requires !data.Nil? && NewBulkInsert(data, table, columns).Success?
    requires Renderable(NewBulkInsert(data, table, columns).value)
    ensures StructFields(NewBulkInsert(data, table, columns).value.items[0], columns).Success?
    ensures Planned(NewBulkInsert(data, table, columns).value).Success?
  {
  }

  /** With no update columns given, an upsert overwrites every inserted column. */
  lemma UpdateColumnsDefault(data: Value, table: string, conflicts: seq<string>, columnsInsert: seq<string>)
    requires !data.Nil? && NewBulkUpsert(data, table, conflicts, columnsInsert, None).Success?
    ensures NewBulkUpsert(data, table, conflicts, columnsInsert, None).value.columnsUpdate == columnsInsert
    ensures |UpdateAssignments(NewBulkUpsert(data, table, conflicts, columnsInsert, None).value.columnsUpdate)|
         == |columnsInsert|
  {
  }
}
