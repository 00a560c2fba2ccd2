# Bulk INSERT / upsert statement assembler, modelled in Dafny

This project models the `sql/assembler` package of a Go service. The package turns a
non-empty array or slice of records into one or more PostgreSQL bulk statements. Each
statement binds at most 65535 parameters (`psqlMaxParamCount`). There are two kinds:
`INSERT … RETURNING` and `INSERT … ON CONFLICT … DO UPDATE SET … RETURNING`.

The package has four parts, and the model keeps their shape:

- `values.dfy` (`Values`): the part of Go reflection the package uses, written as a
  datatype. A `Value` is an int, a string, a nil pointer, a pointer, an array, a slice
  or a struct. A struct's fields carry their Go name, `boil` tag and value. This module
  also holds the three sentinel errors as the `Error` enum, and `Result` and `Option`.
  `WellTyped` states what Go's static typing guarantees of a slice: if element 0 is a
  struct (behind at most one pointer), every element is a struct with the same fields.
  It also rules out nil pointer elements after index 0, which typing does not; the
  source panics on those (see "## Left out").
- `common.dfy` (`Common`): the batch planner `getBatchingInfo`, the column resolver
  `getStructFields`, the kind check `isSupportedType`, and `quoteNames`.
  `getStructFields` is imperative in the source, so it is the method `GetStructFields`.
  It has both of the source's loops and is proved equal to the specification
  `StructFields` (`TagMapping` followed by `Resolve`).
- `construct.dfy` (`Construct`): `NewBulkInsert` and `NewBulkUpsert` as pure
  functions. They check "array or slice", then "non-empty", then "element 0 is a
  struct", and return the first failure. On success they store the configuration.
- `insert.dfy` (`Insert`) and `upsert.dfy` (`Upsert`): `sqlData` is a method with the
  source's nested batch, row and field loops. It is proved equal to the specification
  `Planned` (built from `Groups` and `Group`). The `Queries` methods update each group's
  query in place and change nothing else. The statement text is rendered by
  `InsertStatement`, and by `SqlStatement` for upsert, which keeps its append loop.

A row fragment is modelled as the list of placeholder numbers it writes. For example,
`[4, 5, 6]` renders as `($4,$5,$6)`.

Only a nil `columnsUpdate` is replaced by the insert columns (`new.go:85-87`). An
empty slice is kept as it is, so `NewBulkUpsert` takes `Option<seq<string>>`, and
`None` stands for nil.

## Model

| member | source | states |
|---|---|---|
| `Common.BatchingInfo` | sql/assembler/common.go:34-45 | One batch of all the rows exactly when `dataCount*fieldsCount <= limit`. Otherwise the batch length is the largest that fits (`batchLen*fieldsCount <= limit < (batchLen+1)*fieldsCount`, the floor), and the batches cover the data with less than one spare batch: `batchLen*(batchCount-1) < dataCount <= batchLen*batchCount` (the ceiling). The batch length never exceeds the data count. |
| `Common.FloorFits` | sql/assembler/common.go:40 | The floor `limit / f` of the split case fits the ceiling. It is at least 1 when `f <= limit`. |
| `Common.FloorLargest` | sql/assembler/common.go:40 | One row more than the floor `limit / f` would exceed the ceiling, so the split batch length is the largest that fits. |
| `Common.SplitBatchShorter` | sql/assembler/common.go:38-40 | When the rows do not fit one statement, the batch length is smaller than the data count. |
| `Common.CeilDivBounds` | sql/assembler/common.go:41 | The ceiling division covers the data with fewer than one spare batch. |
| `Common.BatchingInfoExample` | sql/assembler/common_test.go:17-22 | `(5000, 15, 65535)` plans `(4369, 2)`. |
| `Common.StructFields` | sql/assembler/common.go:49-84 | Succeeds exactly when the value is a struct after at most one dereference, and fails with `DataNotStruct` otherwise. On success it returns no more fields than there are whitelist columns. |
| `Common.GetStructFields` | sql/assembler/common.go:49-84 | The two-loop method returns exactly `StructFields`: the tag mapping over the fields, then the mapped field of each column. |
| `Common.TagMappingDomain` | sql/assembler/common.go:63-72 | A column is mapped exactly when it is neither `""` nor `"-"` and some field carries it as its tag. |
| `Common.TagMappingLastWins` | sql/assembler/common.go:63-72 | When several fields share a tag, the column maps to the last of them. |
| `Common.TagMappingNames` | sql/assembler/common.go:71 | Every mapped value is the name of one of the struct's fields. |
| `Common.ResolveLength` | sql/assembler/common.go:74-83 | Resolution never adds columns. It keeps all of them exactly when every column is mapped, so unmapped columns are dropped. |
| `Common.ResolveAppend` | sql/assembler/common.go:76-81 | Resolution follows whitelist order: resolving `a + b` gives the resolution of `a` followed by that of `b`. |
| `Common.ResolveAll` | sql/assembler/common.go:76-81 | When every column is mapped, field `k` is the mapping of column `k`. |
| `Common.ResolveValues` | sql/assembler/common.go:76-81 | Every resolved field is the mapping of some whitelist column. |
| `Common.StructFieldsAreFields` | sql/assembler/common.go:49-84 | Every field returned is a field of the struct, so reading it by name cannot fail. |
| `Common.StructFieldsDerefOnce` | sql/assembler/common.go:50-56 | Only one pointer is dereferenced: a pointer to a pointer to a struct gives `DataNotStruct`. |
| `Common.SupportedType` | sql/assembler/common.go:93-109 | Accepts exactly arrays and slices after at most one dereference, and then gives their elements. |
| `Common.QuoteNames` | sql/assembler/common.go:112-119 | Keeps length and order. Each name becomes `"` + name + `"`, with no escaping. |
| `Common.QuoteNamesInvertible` | sql/assembler/common.go:112-119 | Quoting loses nothing: stripping the two quotes gives back the name. |
| `Construct.Validate` | sql/assembler/new.go:32-48 | The error order is array, then non-empty, then struct, and the first failure is returned. Only element 0 is tested for struct-ness. On success the result is the collection's elements. |
| `Construct.NewBulkInsert` | sql/assembler/new.go:27-57 | Fails exactly as the validation does, with the same error. On success it stores the data, its elements, the table and the whitelist verbatim, and element 0 is a struct. |
| `Construct.NewBulkUpsert` | sql/assembler/new.go:60-100 | Fails exactly when `NewBulkInsert` does, with the same error. On success it embeds exactly `NewBulkInsert`'s operation and keeps the conflict targets verbatim. The update columns are the insert columns if none are given, and the given ones otherwise. |
| `Construct.OnlyFirstElementInspected` | sql/assembler/new.go:42-48 | Whatever follows a struct element 0, the records are accepted. |
| `Construct.ConstructorExamples` | sql/assembler/new_test.go:55-75 | An empty or nil slice gives `DataEmpty`, and `[]int{1,2,3}` gives `DataNotStruct`. A lone struct gives `DataNotArray`. Struct pointers are accepted and the whitelist is kept. |
| `Construct.ConstructedRendersWithoutError` | sql/assembler/new.go:42-56 | After a successful construction, reading the fields cannot fail and rendering returns groups. |
| `Construct.UpdateColumnsDefault` | sql/assembler/new.go:85-87 | With no update columns given, the update columns are the insert columns, with one assignment each. |
| `Insert.Fields` | sql/assembler/insert.go:45-50 | Returns exactly the resolved fields of element 0 for the whitelist. |
| `Insert.Planned` | sql/assembler/insert.go:84-95 | `sqlData` fails exactly when element 0 is not a struct, with `DataNotStruct`, and then returns no groups. Otherwise the number of groups is the planned batch count for the resolved field count. |
| `Insert.SqlData` | sql/assembler/insert.go:84-132 | The nested-loop method returns exactly `Planned`: the error, or one group per batch, each equal to `Group`. |
| `Insert.BatchGroup` | sql/assembler/insert.go:96-128 | One pass of the batch loop builds exactly group `batchIdx`: its fragments, its row-major arguments and its range. |
| `Insert.BatchInRange` | sql/assembler/insert.go:98-104 | Every batch holds at least one row and ends within the data. This includes the last batch and its `min`. |
| `Insert.GroupAt` | sql/assembler/insert.go:98-128 | Group `b` starts at `batchLen*b` and holds `BatchSize` rows. It has that many fragments and that many rows of arguments. |
| `Insert.GroupsPartition` | sql/assembler/insert.go:95-128 | The groups partition `[0, n)` in ascending order. There are `batchCount` of them. The first starts at 0, each ends where the next starts, the last ends at `n`, and none is empty. Every batch but the last has `batchLen` rows, and the last has `min(batchLen, n - (batchCount-1)*batchLen)`. |
| `Insert.RecordCovered` | sql/assembler/insert.go:98-104 | Record `i` lies in group `i / batchLen`. |
| `Insert.IndexInBatch` | sql/assembler/insert.go:98-104 | Row `i` falls in batch `i / batchLen`, which exists, and lies before that batch's end, including the shortened last batch. |
| `Insert.BatchArgsLength` | sql/assembler/insert.go:106-117 | A batch of `count` rows binds `count * len(fields)` values. |
| `Insert.BatchArgsAt` | sql/assembler/insert.go:106-117 | The arguments are row-major: position `r*len(fields)+k` holds field `k` of record `start+r`, read through its pointer. |
| `Insert.BatchRowsContiguous` | sql/assembler/insert.go:119-120 | Read left to right, a batch's fragments use exactly the numbers `1 .. rows*width`, each once and in order. |
| `Insert.GroupPlaceholders` | sql/assembler/insert.go:106-120 | In every group each fragment has one placeholder per field. The fragments number exactly `$1 .. $len(args)` in argument order, so numbering restarts at 1 in each batch. |
| `Insert.GroupArgs` | sql/assembler/insert.go:106-117 | Argument `r*len(fields)+k` of a group is field `k` of record `DataStart+r`. |
| `Insert.GroupsWithinCeiling` | sql/assembler/insert.go:85-126 | Every group sqlData returns binds one argument per field of each of its rows, and at most 65535 arguments in all. |
| `Insert.FifteenColumnScenarios` | sql/assembler/insert_test.go:85-97 | With 15 fields, 1000 and 2000 records make one group over all records. 5000 records make two groups, `[0,4369)` and `[4369,5000)`. |
| `Insert.StatementAgreement` | sql/assembler/insert.go:90-120 | Assume every whitelist column resolves. Then each VALUES tuple is exactly as wide as the rendered column list, the placeholders number `$1 .. $len(args)`, and argument `r*len(columns)+k` is column `k`'s field in record `DataStart+r`. |
| `Insert.Queries` | sql/assembler/insert.go:53-68 | Errors from `sqlData` are returned with no groups. Otherwise each group of `sqlData` is returned unchanged except for its query, which is its INSERT text with its own arguments. |
| `Insert.InsertStatement` | sql/assembler/insert.go:71-79 | The INSERT text opens with `INSERT INTO "<table>" (<quoted whitelist>)` and closes with `RETURNING (<quoted whitelist>)`, the same column list. |
| `Insert.InsertSplit` | sql/assembler/insert.go:71-79 | The INSERT text is the VALUES head followed by `RETURNING (` and the same quoted column list. |
| `Upsert.UpdateAssignments` | sql/assembler/upsert.go:38-41 | One assignment per update column, in order. Each is exactly `    "<c>" = "excluded"."<c>"`. |
| `Upsert.SqlStatement` | sql/assembler/upsert.go:37-57 | The append-loop method returns exactly `UpsertText`: the rows, the quoted conflict targets, and the update assignments joined by `,\n`. |
| `Upsert.SharedValuesHead` | sql/assembler/upsert.go:47-54 | The upsert text begins like the insert text of the same group, up to and including the VALUES rows line. Where the insert goes on with `RETURNING`, the upsert goes on with `ON CONFLICT (`. |
| `Upsert.Queries` | sql/assembler/upsert.go:19-34 | Errors from the embedded insert's `sqlData` are returned with no groups. Otherwise the groups keep the insert's rows, arguments and ranges and get the upsert text as their query. |

## Left out

- `GetCurrentTime` (common.go:27-29) is not modelled. It reads the clock and SQLBoiler's
  time-zone setting.
- The runnable query is modelled as its (SQL text, arguments) pair. `queries.Raw` and
  the query object it builds are not part of this model.
- `strmangle.Placeholders` is not part of this model. A fragment is modelled as its
  placeholder numbers and rendered as `($s,…,$e)`. The library's exact spelling is not
  modelled: its handling of a width of 1 and the panic it raises for a width of 0.
- Reflection is replaced by the `Value` datatype. The `DataType` descriptor is not
  stored. Embedded-struct field promotion and unexported fields are not modelled. Nor
  is a nil interface passed as the data, which the source panics on.
- Interface-typed elements are not modelled: `Value` has no interface kind. For a
  `[]interface{}` of structs, `new.go:42-48` sees element 0 as an interface, neither
  pointer nor struct, and returns `ErrDataNotStruct`. The model can only write such an
  element as a struct or a pointer to one, so `Construct.Validate` accepts it.
- Aliasing of the caller's collection is not modelled. The source keeps a `reflect.Value`
  of the data (`new.go:50-56`) and reads it again when it renders (`insert.go:91`,
  `insert.go:108`), so it sees element changes made after construction. The model copies
  the elements into `items` at construction. `Construct.ConstructedRendersWithoutError`
  therefore holds only when the caller changes nothing in between: setting element 0 of
  a `[]*T` to nil after `NewBulkInsert` makes the source's `Queries` return
  `ErrDataNotStruct`.
- `Common.SupportedType`, `Construct.Validate`, `Construct.NewBulkInsert`,
  `Construct.NewBulkUpsert`: these require the data not to be a nil pointer, because the
  source panics there when it asks the invalid element value for its type.
- `Insert.SqlData`, `Insert.Planned`, `Insert.Queries`, `Upsert.Queries`: these require
  `WellTyped` records, which Go's static typing guarantees. A nil pointer element after
  index 0 panics in the source and is excluded by the same requires. They also require at
  most 65535 whitelist columns. With more resolved fields than that, the batch length
  would be 0 and the source converts a float infinity to an implementation-defined
  integer.
- `Common.BatchingInfo`: this requires `1 <= fieldsCount <= limit` whenever a split
  happens. The source's float division by a batch length of 0 is not modelled.
- Float arithmetic is not modelled. `math.Floor`, `math.Ceil` and `math.Min` over
  `float64` are modelled as exact integer floor division, ceiling division and minimum.
  Rounding above 2^53 is not modelled, and neither is overflow of `dataCount*fieldsCount`
  in a 64-bit `int`.
- The `pkgerrors.WithStack` wrapping of the errors is not modelled: errors are compared
  by their sentinel kind.
- Database execution in the tests (`WithTxDB`, `Bind`, `CREATE TABLE`) is not modelled,
  and the empty stub tests assert nothing. Only the group counts and ranges of those
  tests are modelled.
