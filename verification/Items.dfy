/** What the objects of one shared bucket hold, and the part of the bucket that belongs to one unit. */
module Items {
  import opened Lines
  import opened Landing

  /** One line of a log object. */
  datatype LogRecord = LogRecord(line: Text, host: string, source: string, file: string, fileOffset: int)

  /** A row of a Parquet object, a line of a log object, or a host metric record. */
  datatype Item = RowItem(row: Row) | LineItem(record: LogRecord) | MetricItem(json: string)

  function RowItems(rows: seq<Row>): seq<Item> {
    seq(|rows|, i requires 0 <= i < |rows| => RowItem(rows[i]))
  }

  function LineItems(records: seq<LogRecord>): seq<Item> {
    seq(|records|, i requires 0 <= i < |records| => LineItem(records[i]))
  }

  function RowsIn(items: seq<Item>): seq<Row> {
    if items == [] then []
    else
      var last := items[|items| - 1];
      RowsIn(items[..|items| - 1]) + (if last.RowItem? then [last.row] else [])
  }

  function RecordsIn(items: seq<Item>): seq<LogRecord> {
    if items == [] then []
    else
      var last := items[|items| - 1];
      RecordsIn(items[..|items| - 1]) + (if last.LineItem? then [last.record] else [])
  }

  lemma {:induction false} RowsAreRead(rows: seq<Row>)
    ensures RowsIn(RowItems(rows)) == rows
  {
    if rows != [] {
      var init := rows[..|rows| - 1];
      assert RowItems(rows)[..|init|] == RowItems(init);
      RowsAreRead(init);
      assert init + [rows[|rows| - 1]] == rows;
    }
  }

  lemma {:induction false} RecordsAreRead(records: seq<LogRecord>)
    ensures RecordsIn(LineItems(records)) == records
  {
    if records != [] {
      var init := records[..|records| - 1];
      assert LineItems(records)[..|init|] == LineItems(init);
      RecordsAreRead(init);
      assert init + [records[|records| - 1]] == records;
    }
  }
}
