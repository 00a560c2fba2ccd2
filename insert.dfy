/** The bulk INSERT assembler: splits the records into batches that respect the
    parameter ceiling, flattens each batch's bound values, numbers its
    placeholders and renders its statement. */
module Insert {
  import opened Values
  import opened Text
  import opened Common

  /** `BulkInsert`: the validated collection (`data` as given, `items` the
      elements of the array or slice it holds), the table and the column
      whitelist. */
  datatype BulkInsert = BulkInsert(data: Value, items: seq<Value>, table: string, columns: seq<string>)

  /** A runnable query: statement text and the arguments bound to `$1`, `$2`, … */
  datatype Query = Query(sql: string, args: seq<Value>)

  /** `QueryGroup`: one statement's row fragments (each as the placeholder
      numbers it writes), its flat arguments, the half-open range
      `[dataStart, dataEnd)` of records it covers, and its query once built. */
  datatype QueryGroup = QueryGroup(
    rows: seq<seq<nat>>,
    args: seq<Value>,
    dataStart: nat,
    dataEnd: nat,
    query: Option<Query>)

  /** The records of an operation can be rendered: Go's typing holds of them
      and the whitelist cannot resolve to more fields than one statement can
      bind (the batch length would be 0 otherwise). */
  predicate Renderable(op: BulkInsert)
  {
    WellTyped(op.items) && |op.columns| <= MaxParamCount
  }

  /** `Fields`: the struct fields of the whitelist columns, read off element 0. */
  method Fields(op: BulkInsert) returns (r: Result<seq<string>>)
    requires |op.items| > 0
    ensures r == StructFields(op.items[0], op.columns)
  {
    r := GetStructFields(op.items[0], op.columns);
  }

  // ---------------------------------------------------------------------------
  // What sqlData computes

  /** The placeholder numbers of one row fragment:
      `strmangle.Placeholders(true, count, start, count)` writes `$start` to
      `$(start + count - 1)`. */
  function PlaceholderNumbers(count: nat, start: nat): seq<nat>
  {
    seq(count, i requires 0 <= i < count => start + i)
  }

  /** The fragments of a batch of `count` rows of `width` columns: row `r`
      is numbered from `width * r + 1`. */
  function BatchRows(count: nat, width: nat): seq<seq<nat>>
  {
    seq(count, r requires 0 <= r < count => PlaceholderNumbers(width, width * r + 1))
  }

  /** The fields of one record may be read by name. */
  predicate Readable(row: Value, fields: seq<string>)
  {
    Deref(row).Struct? && forall f :: f in fields ==> f in FieldNames(Deref(row).fields)
  }

  /** The bound values of one record, in column order (a pointer record is
      dereferenced first). */
  function RowArgs(row: Value, fields: seq<string>): seq<Value>
    requires Readable(row, fields)
  {
    seq(|fields|, k requires 0 <= k < |fields| => FieldByName(Deref(row).fields, fields[k]))
  }

  /** The bound values of records `start .. start + count - 1`, row after row. */
  function BatchArgs(items: seq<Value>, fields: seq<string>, start: nat, count: nat): seq<Value>
    requires start + count <= |items|
    requires forall i :: start <= i < start + count ==> Readable(items[i], fields)
  {
    if count == 0 then []
    else BatchArgs(items, fields, start, count - 1) + RowArgs(items[start + count - 1], fields)
  }

  /** The number of rows of batch `b`: `batchLen`, except in the last batch,
      which takes what is left (`math.Min`). */
  function BatchSize(dataCount: nat, batchLen: nat, batchCount: nat, b: nat): int
  {
    if b >= batchCount - 1 then Min(batchLen, dataCount - b * batchLen) else batchLen
  }

  function Min(a: int, b: int): int
  {
    if a <= b then a else b
  }

  /** The batch plan of `n` records of `width` fields under the ceiling. */
  function Plan(n: nat, width: nat): (nat, nat)
    requires width <= MaxParamCount
  {
    BatchingInfo(n, width, MaxParamCount)
  }

  /** Every batch of a plan lies within the data and holds at least one row. */
  lemma BatchInRange(n: nat, width: nat, b: nat)
    requires n > 0 && width <= MaxParamCount && b < Plan(n, width).1
    ensures var (bl, bc) := Plan(n, width);
      1 <= BatchSize(n, bl, bc, b) && bl * b + BatchSize(n, bl, bc, b) <= n
  {
    var (bl, bc) := Plan(n, width);
    if b < bc - 1 {
      assert bl * b + bl == bl * (b + 1);
      assert bl * (b + 1) <= bl * (bc - 1) by { MulMono(bl, b + 1, bc - 1); }
    }
  }

  lemma MulMono(k: nat, a: nat, b: nat)
    requires a <= b
    ensures k * a <= k * b
  {
  }

  /** The group sqlData builds for batch `b`. */
  function Group(items: seq<Value>, fields: seq<string>, b: nat): QueryGroup
    requires WellTyped(items) && Readable(items[0], fields) && |fields| <= MaxParamCount
    requires b < Plan(|items|, |fields|).1
  {
    var (bl, bc) := Plan(|items|, |fields|);
    BatchInRange(|items|, |fields|, b);
    var start := bl * b;
    var size: nat := BatchSize(|items|, bl, bc, b);
    assert forall i :: start <= i < start + size ==> Readable(items[i], fields);
    QueryGroup(BatchRows(size, |fields|), BatchArgs(items, fields, start, size), start, start + size, None)
  }

  /** Group `b` spelled out in terms of the plan. */
  lemma GroupAt(items: seq<Value>, fields: seq<string>, b: nat)
    requires WellTyped(items) && Readable(items[0], fields) && |fields| <= MaxParamCount
    requires b < Plan(|items|, |fields|).1
    ensures var (bl, bc) := Plan(|items|, |fields|);
      var size := BatchSize(|items|, bl, bc, b);
      1 <= size && bl * b + size <= |items| &&
      (forall i :: bl * b <= i < bl * b + size ==> Readable(items[i], fields)) &&
      Group(items, fields, b) ==
        QueryGroup(BatchRows(size, |fields|), BatchArgs(items, fields, bl * b, size), bl * b, bl * b + size, None)
  {
    BatchInRange(|items|, |fields|, b);
  }

  /** One more row extends a batch's fragments by that row's fragment. */
  lemma BatchRowsSnoc(count: nat, width: nat)
    ensures BatchRows(count + 1, width) == BatchRows(count, width) + [PlaceholderNumbers(width, width * count + 1)]
  {
  }

  /** All the groups, in batch order. */
  function Groups(items: seq<Value>, fields: seq<string>): seq<QueryGroup>
    requires WellTyped(items) && Readable(items[0], fields) && |fields| <= MaxParamCount
  {
    var bc := Plan(|items|, |fields|).1;
    seq(bc, b requires 0 <= b < bc => Group(items, fields, b))
  }

  /** What sqlData returns: the error of `Fields`, or the groups. */
  function Planned(op: BulkInsert): (r: Result<seq<QueryGroup>>)
    requires Renderable(op)
    ensures r.Failure? <==> !Deref(op.items[0]).Struct?
    ensures r.Failure? ==> r.error == DataNotStruct
    ensures r.Success? ==> |r.value| == Plan(|op.items|, |StructFields(op.items[0], op.columns).value|).1
  {
    match StructFields(op.items[0], op.columns)
    case Failure(e) => Failure(e)
    case Success(fields) =>
      assert Readable(op.items[0], fields) by {
        forall f | f in fields ensures f in FieldNames(Deref(op.items[0]).fields) {
          StructFieldsAreFields(op.items[0], op.columns, f);
        }
      }
      Success(Groups(op.items, fields))
  }

  // ---------------------------------------------------------------------------
  // Properties of the groups

  /** The groups partition `[0, n)`: the first starts at 0, each ends where the
      next starts, the last ends at `n`, none is empty; batch `b` starts at
      `batchLen * b`, every batch but the last holds `batchLen` rows and the
      last holds what is left. */
  lemma GroupsPartition(items: seq<Value>, fields: seq<string>)
    requires WellTyped(items) && Readable(items[0], fields) && |fields| <= MaxParamCount
    ensures var gs := Groups(items, fields); var (bl, bc) := Plan(|items|, |fields|);
      && |gs| == bc >= 1
      && gs[0].dataStart == 0
      && gs[|gs| - 1].dataEnd == |items|
      && (forall b :: 0 <= b < |gs| - 1 ==> gs[b].dataEnd == gs[b + 1].dataStart)
      && (forall b :: 0 <= b < |gs| ==> gs[b].dataStart == bl * b < gs[b].dataEnd)
      && (forall b :: 0 <= b < |gs| - 1 ==> gs[b].dataEnd - gs[b].dataStart == bl)
      && gs[|gs| - 1].dataEnd - gs[|gs| - 1].dataStart == Min(bl, |items| - (bc - 1) * bl)
  {
    var gs := Groups(items, fields);
    var (bl, bc) := Plan(|items|, |fields|);
    forall b | 0 <= b < bc
      ensures gs[b].dataStart == bl * b < gs[b].dataEnd
      ensures b < bc - 1 ==> gs[b].dataEnd == bl * b + bl
    {
      GroupAt(items, fields, b);
    }
    forall b | 0 <= b < bc - 1 ensures gs[b].dataEnd == gs[b + 1].dataStart {
      assert bl * b + bl == bl * (b + 1);
    }
    GroupAt(items, fields, bc - 1);
    assert bl * (bc - 1) == bl * bc - bl;
  }

  /** Every record lies in a group: record `i` is covered by group `i / batchLen`. */
  lemma RecordCovered(items: seq<Value>, fields: seq<string>, i: nat)
    requires WellTyped(items) && Readable(items[0], fields) && |fields| <= MaxParamCount
    requires i < |items|
    ensures var gs := Groups(items, fields); var b := i / Plan(|items|, |fields|).0;
      b < |gs| && gs[b].dataStart <= i < gs[b].dataEnd
  {
    var (bl, bc) := Plan(|items|, |fields|);
    var b := i / bl;
    IndexInBatch(|items|, bl, bc, i);
    GroupAt(items, fields, b);
  }

  /** Row `i` of `n` falls in batch `i / bl`, and before that batch's end. */
  lemma IndexInBatch(n: nat, bl: nat, bc: nat, i: nat)
    requires 1 <= bl && n <= bl * bc && i < n
    ensures var b := i / bl;
      && b < bc
      && bl * b <= i
      && i < bl * b + BatchSize(n, bl, bc, b)
  {
    var b := i / bl;
    assert i == bl * b + i % bl;
    assert b * bl < bc * bl;
    MulCancel(b, bc, bl);
    assert b * bl == bl * b;
  }

  /** A batch of `count` rows binds `count * |fields|` values. */
  lemma {:induction false} BatchArgsLength(items: seq<Value>, fields: seq<string>, start: nat, count: nat)
    requires start + count <= |items|
    requires forall i :: start <= i < start + count ==> Readable(items[i], fields)
    ensures |BatchArgs(items, fields, start, count)| == count * |fields|
  {
    if count > 0 {
      BatchArgsLength(items, fields, start, count - 1);
      assert (count - 1) * |fields| + |fields| == count * |fields|;
    }
  }

  /** The arguments are row-major: position `r * |fields| + k` holds field `k`
      of record `start + r`. */
  lemma {:induction false} BatchArgsAt(items: seq<Value>, fields: seq<string>, start: nat, count: nat, r: nat, k: nat)
    requires start + count <= |items|
    requires forall i :: start <= i < start + count ==> Readable(items[i], fields)
    requires r < count && k < |fields|
    ensures r * |fields| + k < |BatchArgs(items, fields, start, count)|
    ensures BatchArgs(items, fields, start, count)[r * |fields| + k]
         == FieldByName(Deref(items[start + r]).fields, fields[k])
  {
    BatchArgsLength(items, fields, start, count);
    BatchArgsLength(items, fields, start, count - 1);
    if r < count - 1 {
      BatchArgsAt(items, fields, start, count - 1, r, k);
      MulMono(|fields|, r + 1, count - 1);
      assert (r + 1) * |fields| == r * |fields| + |fields|;
    } else {
      assert (count - 1) * |fields| + k == r * |fields| + k;
    }
  }

  /** The placeholder numbers of a list of fragments, read left to right. */
  function Flatten(rows: seq<seq<nat>>): seq<nat>
  {
    if rows == [] then [] else Flatten(rows[..|rows| - 1]) + rows[|rows| - 1]
  }

  /** The fragments of a batch use exactly the numbers `1 .. count * width`,
      in order and each once. */
  lemma {:induction false} BatchRowsContiguous(count: nat, width: nat)
    ensures Flatten(BatchRows(count, width)) == seq(count * width, j requires 0 <= j < count * width => j + 1)
  {
    if count > 0 {
      var rows := BatchRows(count, width);
      assert rows[..count - 1] == BatchRows(count - 1, width);
      BatchRowsContiguous(count - 1, width);
      var pre := seq((count - 1) * width, j requires 0 <= j < (count - 1) * width => j + 1);
      var last := PlaceholderNumbers(width, width * (count - 1) + 1);
      assert (count - 1) * width + width == count * width;
      assert width * (count - 1) == (count - 1) * width;
      assert pre + last == seq(count * width, j requires 0 <= j < count * width => j + 1);
    }
  }

  /** Inside one group, the fragments number exactly `$1 .. $|args|` in the
      order of the arguments, and every fragment has one placeholder per field. */
  lemma GroupPlaceholders(items: seq<Value>, fields: seq<string>, b: nat)
    requires WellTyped(items) && Readable(items[0], fields) && |fields| <= MaxParamCount
    requires b < Plan(|items|, |fields|).1
    ensures var g := Group(items, fields, b);
      && |g.rows| == g.dataEnd - g.dataStart
      && |g.args| == |g.rows| * |fields|
      && (forall r :: 0 <= r < |g.rows| ==> |g.rows[r]| == |fields|)
      && Flatten(g.rows) == seq(|g.args|, j requires 0 <= j < |g.args| => j + 1)
  {
    var (bl, bc) := Plan(|items|, |fields|);
    GroupAt(items, fields, b);
    var size := BatchSize(|items|, bl, bc, b);
    BatchArgsLength(items, fields, bl * b, size);
    BatchRowsContiguous(size, |fields|);
  }

  /** The arguments of a group, row-major: position `r * |fields| + k` holds
      field `k` of record `dataStart + r`, read through a pointer. */
  lemma GroupArgs(items: seq<Value>, fields: seq<string>, b: nat, r: nat, k: nat)
    requires WellTyped(items) && Readable(items[0], fields) && |fields| <= MaxParamCount
    requires b < Plan(|items|, |fields|).1
    requires r < Group(items, fields, b).dataEnd - Group(items, fields, b).dataStart && k < |fields|
    ensures var g := Group(items, fields, b);
      && g.dataStart + r < |items|
      && r * |fields| + k < |g.args|
      && g.args[r * |fields| + k] == FieldByName(Deref(items[g.dataStart + r]).fields, fields[k])
  {
    var (bl, bc) := Plan(|items|, |fields|);
    GroupAt(items, fields, b);
    BatchArgsAt(items, fields, bl * b, BatchSize(|items|, bl, bc, b), r, k);
  }

  /** No statement exceeds the PostgreSQL ceiling: every group sqlData returns
      binds at most `psqlMaxParamCount` arguments, one per field of each of its
      rows. */
  lemma GroupsWithinCeiling(op: BulkInsert, b: nat)
    requires Renderable(op) && Planned(op).Success? && b < |Planned(op).value|
    ensures var g := Planned(op).value[b];
      && |g.args| == |g.rows| * |StructFields(op.items[0], op.columns).value|
      && |g.args| <= MaxParamCount
  {
    var fields := StructFields(op.items[0], op.columns).value;
    assert Readable(op.items[0], fields) by {
      forall f | f in fields ensures f in FieldNames(Deref(op.items[0]).fields) {
        StructFieldsAreFields(op.items[0], op.columns, f);
      }
    }
    assert Planned(op).value == Groups(op.items, fields);
    var (bl, bc) := Plan(|op.items|, |fields|);
    GroupAt(op.items, fields, b);
    GroupPlaceholders(op.items, fields, b);
    var size := BatchSize(|op.items|, bl, bc, b);
    assert size <= bl;
    MulMono(|fields|, size, bl);
    assert |Planned(op).value[b].args| == size * |fields|;
  }

  /** The batches seen by the database test: with 15 columns, 1000 and 2000
      records make one statement over all of them, and 5000 records make two,
      over `[0, 4369)` and `[4369, 5000)`. */
  lemma FifteenColumnScenarios(items: seq<Value>, fields: seq<string>)
    requires WellTyped(items) && Readable(items[0], fields) && |fields| == 15
    ensures |items| in {1000, 2000} ==>
      |Groups(items, fields)| == 1 && Groups(items, fields)[0].dataStart == 0 && Groups(items, fields)[0].dataEnd == |items|
    ensures |items| == 5000 ==>
      var gs := Groups(items, fields);
      |gs| == 2 && gs[0].dataStart == 0 && gs[0].dataEnd == 4369 && gs[1].dataStart == 4369 && gs[1].dataEnd == 5000
  {
    GroupsPartition(items, fields);
    if |items| == 5000 {
      BatchingInfoExample();
    }
  }

  // ---------------------------------------------------------------------------
  // Agreement of the statement text with its arguments

  /** Every whitelist column resolves to a field of the records. */
  predicate AllColumnsResolve(op: BulkInsert)
    requires |op.items| > 0
  {
    Deref(op.items[0]).Struct? &&
    forall k :: 0 <= k < |op.columns| ==> op.columns[k] in TagMapping(Deref(op.items[0]).fields)
  }

  /** When every whitelist column resolves, each statement agrees with its
      arguments: the VALUES tuples are as wide as the rendered column list,
      their placeholders number `$1 .. $|args|` in order, and argument
      `r * |columns| + k` is the value of column `k` in record `dataStart + r`. */
  lemma StatementAgreement(op: BulkInsert, b: nat, r: nat, k: nat)
    requires Renderable(op) && AllColumnsResolve(op)
    ensures Planned(op).Success?
    ensures b < |Planned(op).value| ==>
      var g := Planned(op).value[b];
      && (forall i :: 0 <= i < |g.rows| ==> |g.rows[i]| == |op.columns|)
      && Flatten(g.rows) == seq(|g.args|, j requires 0 <= j < |g.args| => j + 1)
      && (r < |g.rows| && k < |op.columns| ==>
            && g.dataStart + r < |op.items|
            && r * |op.columns| + k < |g.args|
            && Deref(op.items[g.dataStart + r]).Struct?
            && TagMapping(Deref(op.items[0]).fields)[op.columns[k]] in FieldNames(Deref(op.items[g.dataStart + r]).fields)
            && g.args[r * |op.columns| + k]
               == FieldByName(Deref(op.items[g.dataStart + r]).fields,
                              TagMapping(Deref(op.items[0]).fields)[op.columns[k]]))
  {
    var m := TagMapping(Deref(op.items[0]).fields);
    var fields := StructFields(op.items[0], op.columns).value;
    ResolveAll(m, op.columns);
    assert Readable(op.items[0], fields) by {
      forall f | f in fields ensures f in FieldNames(Deref(op.items[0]).fields) {
        StructFieldsAreFields(op.items[0], op.columns, f);
      }
    }
    if b < |Planned(op).value| {
      GroupPlaceholders(op.items, fields, b);
      var g := Group(op.items, fields, b);
      if r < |g.rows| && k < |op.columns| {
        GroupArgs(op.items, fields, b, r, k);
        assert fields[k] in fields;
      }
    }
  }

  // ---------------------------------------------------------------------------
  // sqlData and Queries

  /** `sqlData`: for each batch, reads each record's fields into the flat
      argument list and emits its placeholder fragment. */
  method SqlData(op: BulkInsert) returns (r: Result<seq<QueryGroup>>)
    requires Renderable(op)
    ensures r == Planned(op)
  {
    var fieldsResult := Fields(op);
    if fieldsResult.Failure? {
      return Failure(fieldsResult.error);
    }
    var fields := fieldsResult.value;
    assert Readable(op.items[0], fields) by {
      forall f | f in fields ensures f in FieldNames(Deref(op.items[0]).fields) {
        StructFieldsAreFields(op.items[0], op.columns, f);
      }
    }
    var items := op.items;
    var fieldsCount := |fields|;
    var valueLen := |items|;
    var plan := BatchingInfo(valueLen, fieldsCount, MaxParamCount);
    var batchLen, batchCnt := plan.0, plan.1;

    var groups: seq<QueryGroup> := [];
    for batchIdx := 0 to batchCnt
      invariant |groups| == batchIdx
      invariant forall b :: 0 <= b < batchIdx ==> groups[b] == Group(items, fields, b)
    {
      var group := BatchGroup(items, fields, batchLen, batchCnt, batchIdx);
      groups := groups + [group];
    }
    assert groups == Groups(items, fields);
    return Success(groups);
  }

  /** The body of sqlData's batch loop: the rows and arguments of batch
      `batchIdx` and the range of records it covers. */
  method BatchGroup(items: seq<Value>, fields: seq<string>, batchLen: nat, batchCnt: nat, batchIdx: nat)
    returns (g: QueryGroup)
    requires WellTyped(items) && Readable(items[0], fields) && |fields| <= MaxParamCount
    requires (batchLen, batchCnt) == Plan(|items|, |fields|) && batchIdx < batchCnt
    ensures g == Group(items, fields, batchIdx)
  {
    var fieldsCount := |fields|;
    var valueLen := |items|;
    var rows: seq<seq<nat>> := [];
    var args: seq<Value> := [];
    var idxBase := batchLen * batchIdx;

    // the last batch is likely shorter than batchLen
    var limit := batchLen;
    if batchIdx >= batchCnt - 1 {
      limit := Min(batchLen, valueLen - batchIdx * batchLen);
    }
    GroupAt(items, fields, batchIdx);
    assert limit == BatchSize(valueLen, batchLen, batchCnt, batchIdx);

    for rowIdx := 0 to limit
      invariant rows == BatchRows(rowIdx, fieldsCount)
      invariant args == BatchArgs(items, fields, idxBase, rowIdx)
    {
      var idx := rowIdx + idxBase;
      var row := items[idx];
      if row.Ptr? {
        row := row.target;
      }
      assert Readable(items[idx], fields);
      ghost var before := args;
      for k := 0 to |fields|
        invariant args == before + RowArgs(items[idx], fields)[..k]
      {
        args := args + [FieldByName(row.fields, fields[k])];
      }
      assert RowArgs(items[idx], fields)[..|fields|] == RowArgs(items[idx], fields);
      BatchRowsSnoc(rowIdx, fieldsCount);
      rows := rows + [PlaceholderNumbers(fieldsCount, fieldsCount * rowIdx + 1)];
    }
    g := QueryGroup(rows, args, idxBase, idxBase + limit, None);
  }

  /** A group with its query attached. */
  function WithQuery(g: QueryGroup, sql: string): QueryGroup
  {
    g.(query := Some(Query(sql, g.args)))
  }

  /** `BulkInsert.Queries`: sqlData's groups, each given its INSERT statement
      and arguments; an error from sqlData is returned with no groups. */
  method Queries(op: BulkInsert) returns (r: Result<seq<QueryGroup>>)
    requires Renderable(op)
    ensures Planned(op).Failure? ==> r == Planned(op)
    ensures Planned(op).Success? ==>
      r.Success? && |r.value| == |Planned(op).value| &&
      forall i :: 0 <= i < |r.value| ==>
        r.value[i] == WithQuery(Planned(op).value[i], InsertStatement(op, Planned(op).value[i]))
  {
    var data := SqlData(op);
    if data.Failure? {
      return data;
    }
    var groups := data.value;
    for idx := 0 to |groups|
      invariant |groups| == |data.value|
      invariant forall i :: 0 <= i < idx ==> groups[i] == WithQuery(data.value[i], InsertStatement(op, data.value[i]))
      invariant forall i :: idx <= i < |groups| ==> groups[i] == data.value[i]
    {
      var group := groups[idx];
      groups := groups[idx := group.(query := Some(Query(InsertStatement(op, group), group.args)))];
    }
    return Success(groups);
  }

  // ---------------------------------------------------------------------------
  // Statement text

  /** One row fragment as text: `($s,$s+1,…)`. */
  function Placeholders(nums: seq<nat>): string
  {
    "(" + Join(seq(|nums|, i requires 0 <= i < |nums| => "$" + Decimal(nums[i])), ",") + ")"
  }

  /** The row fragments of a group as text. */
  function RowTexts(rows: seq<seq<nat>>): seq<string>
  {
    seq(|rows|, i requires 0 <= i < |rows| => Placeholders(rows[i]))
  }

  /** `BulkInsert.sqlStatement`: the statement opens with the quoted table and
      whitelist column list and closes with a RETURNING clause over the same
      columns. */
  function InsertStatement(op: BulkInsert, group: QueryGroup): (r: string)
    ensures var head := "INSERT INTO \"" + op.table + "\" (" + Join(QuoteNames(op.columns), ",") + ")\n";
      |head| <= |r| && r[..|head|] == head
    ensures var tail := "RETURNING (" + Join(QuoteNames(op.columns), ",") + ")";
      |tail| <= |r| && r[|r| - |tail|..] == tail
  {
    var cols := Join(QuoteNames(op.columns), ",");
    "INSERT INTO \"" + op.table + "\" (" + cols + ")\n" +
    "VALUES\n" +
    Join(RowTexts(group.rows), ",\n") + "\n" +
    "RETURNING (" + cols + ")"
  }

  /** The part of a statement up to and including its VALUES rows line. */
  function ValuesHead(op: BulkInsert, group: QueryGroup): string
  {
    var cols := Join(QuoteNames(op.columns), ",");
    "INSERT INTO \"" + op.table + "\" (" + cols + ")\n" +
    "VALUES\n" +
    Join(RowTexts(group.rows), ",\n") + "\n"
  }

  /** An INSERT statement is its VALUES head followed by a RETURNING clause
      over the same quoted column list. */
  lemma InsertSplit(op: BulkInsert, group: QueryGroup)
    ensures InsertStatement(op, group) == ValuesHead(op, group) + ("RETURNING (" + Join(QuoteNames(op.columns), ",") + ")")
  {
  }
}
