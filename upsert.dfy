/** The bulk upsert assembler: the insert's batches, rendered as
    `INSERT … ON CONFLICT … DO UPDATE SET … RETURNING`. */
module Upsert {
  import opened Values
  import opened Text
  import opened Common
  import opened Insert

  /** `BulkUpsert`: an embedded insert operation, the columns to overwrite on
      conflict and the conflict target columns. */
  datatype BulkUpsert = BulkUpsert(insert: BulkInsert, columnsUpdate: seq<string>, conflictTargets: seq<string>)

  /** One update assignment: the column takes the value proposed for insertion. */
  function UpdateAssignment(column: string): string
  {
    "    \"" + column + "\" = \"excluded\".\"" + column + "\""
  }

  /** The update assignments, one per update column, in order. */
  function UpdateAssignments(columns: seq<string>): (r: seq<string>)
    ensures |r| == |columns|
    ensures forall i :: 0 <= i < |columns| ==>
      r[i] == "    " + Quote(columns[i]) + " = " + Quote("excluded") + "." + Quote(columns[i])
  {
    if columns == [] then []
    else [UpdateAssignment(columns[0])] + UpdateAssignments(columns[1..])
  }

  /** The text of `BulkUpsert.sqlStatement`. */
  function UpsertText(op: BulkUpsert, group: QueryGroup): string
  {
    var cols := Join(QuoteNames(op.insert.columns), ",");
    "INSERT INTO \"" + op.insert.table + "\" (" + cols + ")\n" +
    "VALUES\n" +
    Join(RowTexts(group.rows), ",\n") + "\n" +
    "ON CONFLICT (" + Join(QuoteNames(op.conflictTargets), ",") + ")\n" +
    "DO UPDATE SET\n" +
    Join(UpdateAssignments(op.columnsUpdate), ",\n") + "\n" +
    "RETURNING (" + cols + ")"
  }

  /** `BulkUpsert.sqlStatement`: collects the update assignments in a loop,
      then assembles the statement. */
  method SqlStatement(op: BulkUpsert, group: QueryGroup) returns (sql: string)
    ensures sql == UpsertText(op, group)
  {
    var updates: seq<string> := [];
    for i := 0 to |op.columnsUpdate|
      invariant updates == UpdateAssignments(op.columnsUpdate[..i])
    {
      AssignmentsSnoc(op.columnsUpdate[..i], op.columnsUpdate[i]);
      assert op.columnsUpdate[..i + 1] == op.columnsUpdate[..i] + [op.columnsUpdate[i]];
      updates := updates + [UpdateAssignment(op.columnsUpdate[i])];
    }
    assert op.columnsUpdate[..|op.columnsUpdate|] == op.columnsUpdate;

    var colsUpdate := Join(updates, ",\n");
    var colsConflict := Join(QuoteNames(op.conflictTargets), ",");
    var cols := Join(QuoteNames(op.insert.columns), ",");
    var rows := Join(RowTexts(group.rows), ",\n");
    sql := "INSERT INTO \"" + op.insert.table + "\" (" + cols + ")\n" +
      "VALUES\n" +
      rows + "\n" +
      "ON CONFLICT (" + colsConflict + ")\n" +
      "DO UPDATE SET\n" +
      colsUpdate + "\n" +
      "RETURNING (" + cols + ")";
  }

  /** Appending a column appends its assignment. */
  lemma {:induction false} AssignmentsSnoc(columns: seq<string>, c: string)
    ensures UpdateAssignments(columns + [c]) == UpdateAssignments(columns) + [UpdateAssignment(c)]
  {
    if columns != [] {
      assert (columns + [c])[1..] == columns[1..] + [c];
      AssignmentsSnoc(columns[1..], c);
    }
  }

  /** `BulkUpsert.Queries`: the embedded insert's groups, unchanged but for
      their query, each given its upsert statement; an error from sqlData is
      returned with no groups. */
  method Queries(op: BulkUpsert) returns (r: Result<seq<QueryGroup>>)
    requires Renderable(op.insert)
    ensures Planned(op.insert).Failure? ==> r == Planned(op.insert)
    ensures Planned(op.insert).Success? ==>
      r.Success? && |r.value| == |Planned(op.insert).value| &&
      forall i :: 0 <= i < |r.value| ==>
        r.value[i] == WithQuery(Planned(op.insert).value[i], UpsertText(op, Planned(op.insert).value[i]))
  {
    var data := SqlData(op.insert);
    if data.Failure? {
      return data;
    }
    var groups := data.value;
    for idx := 0 to |groups|
      invariant |groups| == |data.value|
      invariant forall i :: 0 <= i < idx ==> groups[i] == WithQuery(data.value[i], UpsertText(op, data.value[i]))
      invariant forall i :: idx <= i < |groups| ==> groups[i] == data.value[i]
    {
      var group := groups[idx];
      var sql := SqlStatement(op, group);
      groups := groups[idx := group.(query := Some(Query(sql, group.args)))];
    }
    return Success(groups);
  }

  /** The upsert statement begins exactly like the insert statement of the same
      group, up to and including the VALUES rows line; the insert then ends in
      its RETURNING clause where the upsert goes on with its conflict clause. */
  lemma SharedValuesHead(op: BulkUpsert, group: QueryGroup)
    ensures var head := ValuesHead(op.insert, group);
      && |head| <= |InsertStatement(op.insert, group)|
      && |head| <= |UpsertText(op, group)|
      && InsertStatement(op.insert, group)[..|head|] == head
      && UpsertText(op, group)[..|head|] == head
      && InsertStatement(op.insert, group)[|head|..] == "RETURNING (" + Join(QuoteNames(op.insert.columns), ",") + ")"
      && UpsertText(op, group)[|head|..|head| + 13] == "ON CONFLICT ("
  {
    var head := ValuesHead(op.insert, group);
    var ins := InsertStatement(op.insert, group);
    var ups := UpsertText(op, group);
    var tail := "RETURNING (" + Join(QuoteNames(op.insert.columns), ",") + ")";
    var rest := UpsertRest(op);
    InsertSplit(op.insert, group);
    UpsertSplit(op, group);
    Split(head, tail);
    Split(head, rest);
  }

  /** What follows the rows line in an upsert statement. */
  function UpsertRest(op: BulkUpsert): (r: string)
    ensures |r| >= 13 && r[..13] == "ON CONFLICT ("
  {
    "ON CONFLICT (" + Join(QuoteNames(op.conflictTargets), ",") + ")\n" +
    "DO UPDATE SET\n" +
    Join(UpdateAssignments(op.columnsUpdate), ",\n") + "\n" +
    "RETURNING (" + Join(QuoteNames(op.insert.columns), ",") + ")"
  }

  lemma UpsertSplit(op: BulkUpsert, group: QueryGroup)
    ensures UpsertText(op, group) == ValuesHead(op.insert, group) + UpsertRest(op)
  {
    var h := ValuesHead(op.insert, group);
    var p1, p2, p3 := "ON CONFLICT (", Join(QuoteNames(op.conflictTargets), ","), ")\n";
    var p4, p5, p6 := "DO UPDATE SET\n", Join(UpdateAssignments(op.columnsUpdate), ",\n"), "\n";
    var p7, p8, p9 := "RETURNING (", Join(QuoteNames(op.insert.columns), ","), ")";
    assert UpsertText(op, group) == h + p1 + p2 + p3 + p4 + p5 + p6 + p7 + p8 + p9;
    Assoc(h, p1, p2);
    Assoc(h, p1 + p2, p3);
    Assoc(h, p1 + p2 + p3, p4);
    Assoc(h, p1 + p2 + p3 + p4, p5);
    Assoc(h, p1 + p2 + p3 + p4 + p5, p6);
    Assoc(h, p1 + p2 + p3 + p4 + p5 + p6, p7);
    Assoc(h, p1 + p2 + p3 + p4 + p5 + p6 + p7, p8);
    Assoc(h, p1 + p2 + p3 + p4 + p5 + p6 + p7 + p8, p9);
  }

  lemma Assoc(a: string, b: string, c: string)
    ensures a + b + c == a + (b + c)
  {
  }

  lemma Split(a: string, b: string)
    ensures (a + b)[..|a|] == a && (a + b)[|a|..] == b
  {
  }
}
