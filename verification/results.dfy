/**
  The two tool handlers. The database is abstracted away: running a query
  yields either an immediate failure or the stream of records the driver
  delivered before the stream ended, together with the error (if any) the
  stream reports once iteration stops.
 */
module Results {
  import opened Wrappers
  import opened Values
  import opened Gate

  /** A driver record: its column names and its values by column name.
      Looking up a name the record does not hold yields Null. */
  datatype Record = Record(keys: seq<string>, values: map<string, Value>)

  /** What running one query produced. */
  datatype RunOutcome =
    | RunFailed(error: string)
    | Stream(records: seq<Record>, trailing: Option<string>)

  type Row = map<string, Cell>

  /** The tool-level result of a call. The error variant is reported to the
      caller; the server keeps serving either way. */
  datatype ToolResult =
    | ToolError(message: string)
    | NoRecords(message: string, columns: seq<string>)
    | Records(columns: seq<string>, rows: seq<Row>, count: nat)
    | NoSchema(message: string)
    | Schema(items: seq<map<string, Value>>)

  /** A handled `run_query` call: the query sent to the database, if any,
      and the result returned to the caller. */
  datatype QueryOutcome = QueryOutcome(executed: Option<string>, result: ToolResult)

  const NoRecordsMessage: string := "Query executed successfully with no records returned"
  const NoSchemaMessage: string := "No schema information available."
  const SchemaQuery: string := "SHOW SCHEMA INFO;"

  function Get(rec: Record, key: string): Value {
    if key in rec.values then rec.values[key] else Null
  }

  /** One result row: every column name mapped to its reshaped value. */
  function ShapeRow(keys: seq<string>, rec: Record): (row: Row)
    ensures row.Keys == set k | k in keys
    ensures forall k :: k in row ==> row[k] == Reshape(Get(rec, k))
  {
    map k | k in keys :: Reshape(Get(rec, k))
  }

  /** State of the collection loop: the captured column names and the rows so far. */
  datatype Acc = Acc(keys: seq<string>, rows: seq<Row>)

  /** One iteration of the collection loop: capture the record's column
      names while none are captured yet, then append its row shaped by the
      captured names. */
  function Step(acc: Acc, rec: Record): Acc {
    var keys := if |acc.keys| == 0 then rec.keys else acc.keys;
    Acc(keys, acc.rows + [ShapeRow(keys, rec)])
  }

  /** The collection loop run over every record, first to last: one row
      per record, and no columns captured exactly when no record names any. */
  function Collect(records: seq<Record>): (acc: Acc)
    ensures |acc.rows| == |records|
    ensures |acc.keys| == 0 <==> forall i :: 0 <= i < |records| ==> |records[i].keys| == 0
    decreases |records|
  {
    if |records| == 0 then Acc([], [])
    else Step(Collect(records[..|records| - 1]), records[|records| - 1])
  }

  /** Reference definition of the columns: the column names of the first
      record that has any. */
  function FirstKeys(records: seq<Record>): seq<string>
    decreases |records|
  {
    if |records| == 0 then []
    else if |records[0].keys| != 0 then records[0].keys
    else FirstKeys(records[1..])
  }

  lemma {:induction false} FirstKeysSnoc(records: seq<Record>, rec: Record)
    ensures FirstKeys(records + [rec]) == if |FirstKeys(records)| != 0 then FirstKeys(records) else rec.keys
    decreases |records|
  {
    if |records| == 0 {
      assert [] + [rec] == [rec];
      assert [rec][1..] == [];
    } else {
      assert (records + [rec])[0] == records[0];
      assert (records + [rec])[1..] == records[1..] + [rec];
      FirstKeysSnoc(records[1..], rec);
    }
  }

  /** The collection loop captures exactly the reference columns and
      produces one row per record, each row shaped by the columns known when
      that record was read. */
  lemma {:induction false} CollectSpec(records: seq<Record>)
    ensures Collect(records).keys == FirstKeys(records)
    ensures |Collect(records).rows| == |records|
    ensures forall i :: 0 <= i < |records| ==>
      Collect(records).rows[i] == ShapeRow(FirstKeys(records[..i + 1]), records[i])
    decreases |records|
  {
    if |records| > 0 {
      var n := |records| - 1;
      var init := records[..n];
      CollectSpec(init);
      assert init + [records[n]] == records;
      FirstKeysSnoc(init, records[n]);
      forall i | 0 <= i < |records|
        ensures Collect(records).rows[i] == ShapeRow(FirstKeys(records[..i + 1]), records[i])
      {
        if i < n {
          assert records[..i + 1] == init[..i + 1];
        } else {
          assert records[..i + 1] == records;
        }
      }
    }
  }

  lemma {:induction false} FirstKeysOfPrefix(records: seq<Record>, i: nat)
    requires i < |records| && |records[0].keys| != 0
    ensures FirstKeys(records[..i + 1]) == records[0].keys
  {
  }

  /** When the first record names its columns, as a driver result always
      does, those are the columns, and every row has exactly them as keys. */
  lemma ColumnsFromFirstRecord(records: seq<Record>)
    requires |records| > 0 && |records[0].keys| != 0
    ensures Collect(records).keys == records[0].keys
    ensures |Collect(records).rows| == |records|
    ensures forall i :: 0 <= i < |records| ==>
      Collect(records).rows[i].Keys == set k | k in records[0].keys
  {
    CollectSpec(records);
    forall i | 0 <= i < |records|
      ensures Collect(records).rows[i].Keys == set k | k in records[0].keys
    {
      FirstKeysOfPrefix(records, i);
    }
  }

  /** The response of `run_query` for one run of the query: an execution
      failure or a trailing stream error becomes an error result (the rows
      read are dropped); otherwise no rows give the no-records message and
      the columns, and some rows give columns, rows and their count. */
  function RespondToQuery(outcome: RunOutcome): (t: ToolResult)
    ensures outcome.RunFailed? ==> t == ToolError("Query execution failed: " + outcome.error)
    ensures outcome.Stream? && outcome.trailing.Some? ==>
      t == ToolError("Error processing results: " + outcome.trailing.value)
    ensures outcome.Stream? && outcome.trailing.None? && |outcome.records| == 0 ==> t == NoRecords(NoRecordsMessage, [])
    ensures outcome.Stream? && outcome.trailing.None? && |outcome.records| > 0 ==>
      && t.Records?
      && t.columns == FirstKeys(outcome.records)
      && t.count == |t.rows| == |outcome.records|
      && (forall i :: 0 <= i < |t.rows| ==>
            t.rows[i] == ShapeRow(FirstKeys(outcome.records[..i + 1]), outcome.records[i]))
  {
    match outcome
    case RunFailed(e) => ToolError("Query execution failed: " + e)
    case Stream(records, trailing) =>
      if trailing.Some? then ToolError("Error processing results: " + trailing.value)
      else
        var acc := Collect(records);
        CollectSpec(records);
        if |acc.rows| == 0 then NoRecords(NoRecordsMessage, acc.keys)
        else Records(acc.keys, acc.rows, |acc.rows|)
  }

  /** The whole `run_query` handler, with the database as the function
      `run` from query text to what running it produced. */
  function HandleQuery(args: Args, run: string -> RunOutcome): (out: QueryOutcome)
    ensures QueryArg(args).None? ==> out == QueryOutcome(None, ToolError(QueryRequired))
    ensures out.executed.Some? <==> CheckQuery(args).Ok?
    ensures out.executed.Some? ==>
      "query" in args && out.executed.value == args["query"].s
      && out.result == RespondToQuery(run(args["query"].s))
    ensures out.executed.None? ==> out.result.ToolError?
  {
    match CheckQuery(args)
    case Err(m) => QueryOutcome(None, ToolError(m))
    case Ok(query) => QueryOutcome(Some(query), RespondToQuery(run(query)))
  }

  /** A blocked query is never executed: the handler refuses it with the
      unsafe-query message, whatever the database would have done. */
  lemma BlockedNeverExecutes(args: Args, run1: string -> RunOutcome, run2: string -> RunOutcome)
    requires QueryArg(args).Some? && !UnsafeArg(args) && Blocked(QueryArg(args).value)
    ensures HandleQuery(args, run1) == HandleQuery(args, run2) == QueryOutcome(None, ToolError(UnsafeDetected))
  {
  }

  /** With `unsafe` set to true, the query text reaches the database
      verbatim. */
  lemma UnsafeQueryForwarded(query: string, rest: Args, run: string -> RunOutcome)
    ensures var out := HandleQuery(rest["query" := ArgString(query)]["unsafe" := ArgBool(true)], run);
      out.executed == Some(query) && out.result == RespondToQuery(run(query))
  {
  }

  /** The no-records message never carries column names: columns are only
      ever captured from a record, and there were none. */
  lemma NoRecordsHasNoColumns(outcome: RunOutcome)
    requires RespondToQuery(outcome).NoRecords?
    ensures RespondToQuery(outcome).columns == []
    ensures outcome.Stream? && outcome.trailing.None? && |outcome.records| == 0
  {
  }

  /** The `get_schema` handler for one run of the fixed schema query: values
      are copied per record without reshaping, and an empty result gives the
      no-schema message. */
  function RespondToSchema(outcome: RunOutcome): (t: ToolResult)
    ensures outcome.RunFailed? ==> t == ToolError("Failed to get schema information: " + outcome.error)
    ensures outcome.Stream? && outcome.trailing.Some? ==>
      t == ToolError("Error processing schema results: " + outcome.trailing.value)
    ensures outcome.Stream? && outcome.trailing.None? ==>
      (t == NoSchema(NoSchemaMessage) <==> |outcome.records| == 0)
    ensures outcome.Stream? && outcome.trailing.None? && |outcome.records| > 0 ==> t.Schema?
    ensures t.Schema? ==>
      outcome.Stream? && |t.items| == |outcome.records| > 0
      && forall i :: 0 <= i < |t.items| ==> t.items[i] == outcome.records[i].values
  {
    match outcome
    case RunFailed(e) => ToolError("Failed to get schema information: " + e)
    case Stream(records, trailing) =>
      if trailing.Some? then ToolError("Error processing schema results: " + trailing.value)
      else if |records| == 0 then NoSchema(NoSchemaMessage)
      else Schema(seq(|records|, i requires 0 <= i < |records| => records[i].values))
  }

  /** The whole `get_schema` handler: it takes no arguments, always runs
      the fixed schema query, and never blocks it. */
  function HandleSchema(run: string -> RunOutcome): (out: QueryOutcome)
    ensures out.executed == Some(SchemaQuery)
    ensures out.result == RespondToSchema(run(SchemaQuery))
  {
    QueryOutcome(Some(SchemaQuery), RespondToSchema(run(SchemaQuery)))
  }
}
