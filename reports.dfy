/**
 * The Search Console query a script sends, the rows it gets back, and the
 * ways every script turns a row into text: the key cell ("N/A" or the
 * row's keys joined by ","), the four formatted measures, a CSV record,
 * and five index-aligned text columns.
 */
module Reports {
  import opened Wrappers
  import opened Strings

  // ---------------------------------------------------------------------------
  // Requests
  // ---------------------------------------------------------------------------

  /** `{'dimension': ..., 'expression': ...}`: an exact-match dimension filter. */
  datatype Filter = Filter(dimension: string, expression: string)

  /** A `rowLimit` as the scripts pass it: the number 5000, or a command-line string. */
  datatype Limit = Count(n: nat) | Text(s: string)

  /** The body of a searchanalytics query. */
  datatype Body = Body(
    startDate: string,
    endDate: string,
    dimensions: seq<string>,
    filters: seq<Filter>,
    rowLimit: Option<Limit>)

  /** `searchanalytics().query(siteUrl=..., body=...)` */
  datatype Query = Query(siteUrl: string, body: Body)

  // ---------------------------------------------------------------------------
  // Responses
  // ---------------------------------------------------------------------------

  /** One response row: optional keys and the four measures. */
  datatype Row = Row(keys: Option<seq<string>>, clicks: real, impressions: real, ctr: real, position: real)

  /** A query response; `rows` is absent when there is no data. */
  datatype Response = Response(rows: Option<seq<Row>>)

  /** What a batch callback receives, or what a synchronous `execute()` ends with: an exception with its reason, or a response. */
  datatype Outcome = Failed(reason: string) | Answered(response: Response)

  /**
   * Python's `"%.0f"`, `"%.3f"` and `"%.9f"`. Floating-point formatting is not
   * modelled: every property below holds whatever these functions are.
   */
  datatype Formatter = Formatter(fixed0: real -> string, fixed3: real -> string, fixed9: real -> string)

  // ---------------------------------------------------------------------------
  // A row as text
  // ---------------------------------------------------------------------------

  /** The key cell: 'N/A' without keys, otherwise the keys joined by ','. */
  function Key(row: Row): string {
    match row.keys
    case None => "N/A"
    case Some(keys) => Join(keys, ",")
  }

  function ClicksText(fmt: Formatter, row: Row): string { fmt.fixed0(row.clicks) }

  function ImpressionsText(fmt: Formatter, row: Row): string { fmt.fixed0(row.impressions) }

  /** CTR as a percentage: the fraction times 100, three decimals, then '%'. */
  function CtrText(fmt: Formatter, row: Row): (r: string)
    ensures EndsWith(r, "%")
  {
    fmt.fixed3(row.ctr * 100.0) + "%"
  }

  function PositionText(fmt: Formatter, row: Row): string { fmt.fixed9(row.position) }

  /** The CSV record `write_table` writes for a row. */
  function Record(fmt: Formatter, row: Row): (r: seq<string>)
    ensures |r| == 5 && r[0] == Key(row) && EndsWith(r[3], "%")
  {
    [Key(row), ClicksText(fmt, row), ImpressionsText(fmt, row), CtrText(fmt, row), PositionText(fmt, row)]
  }

  /** The column-name record of every CSV table. */
  const ColumnNames: seq<string> := ["Keywords", "Clicks", "Impressions", "CTR", "Position"]

  /** The rows' records, in order. */
  function Records(fmt: Formatter, rows: seq<Row>): seq<seq<string>> {
    if rows == [] then [] else Records(fmt, rows[..|rows| - 1]) + [Record(fmt, rows[|rows| - 1])]
  }

  /** There is exactly one record per row, and record k is row k's. */
  lemma {:induction false} RecordsAt(fmt: Formatter, rows: seq<Row>)
    ensures |Records(fmt, rows)| == |rows|
    ensures forall k :: 0 <= k < |rows| ==> Records(fmt, rows)[k] == Record(fmt, rows[k])
  {
    if rows != [] {
      RecordsAt(fmt, rows[..|rows| - 1]);
    }
  }

  /**
   * A key made of several keys free of ',' splits back into them; the key of
   * a row without keys is 'N/A'.
   */
  lemma KeyRoundTrip(row: Row)
    requires row.keys.Some? ==> |row.keys.value| >= 1 && forall k :: 0 <= k < |row.keys.value| ==> ',' !in row.keys.value[k]
    ensures row.keys.None? ==> Key(row) == "N/A"
    ensures row.keys.Some? ==> Split(Key(row), ",") == row.keys.value
  {
    if row.keys.Some? {
      JoinSplit(row.keys.value, ",");
    }
  }

  // ---------------------------------------------------------------------------
  // Five parallel columns: URLs.txt, Click.txt, Imp.txt, CTR.txt, Pos.txt
  // ---------------------------------------------------------------------------

  /** The lines of the five parallel output files. */
  datatype Columns = Columns(keys: seq<string>, clicks: seq<string>, impressions: seq<string>, ctrs: seq<string>, positions: seq<string>)

  const NoColumns := Columns([], [], [], [], [])

  /** All five columns have the same number of lines. */
  predicate Aligned(c: Columns) {
    |c.clicks| == |c.keys| && |c.impressions| == |c.keys| && |c.ctrs| == |c.keys| && |c.positions| == |c.keys|
  }

  /** One row written as one line in each column. */
  function AddRow(c: Columns, fmt: Formatter, row: Row): Columns {
    Columns(c.keys + [Key(row)], c.clicks + [ClicksText(fmt, row)], c.impressions + [ImpressionsText(fmt, row)],
            c.ctrs + [CtrText(fmt, row)], c.positions + [PositionText(fmt, row)])
  }

  /** The rows written one after another. */
  function AddRows(c: Columns, fmt: Formatter, rows: seq<Row>): Columns {
    if rows == [] then c else AddRow(AddRows(c, fmt, rows[..|rows| - 1]), fmt, rows[|rows| - 1])
  }

  /** Line `n` of each column describes row `k`: the row's own key and measures. */
  predicate DescribesRow(c: Columns, n: int, fmt: Formatter, row: Row) {
    && 0 <= n < |c.keys| && n < |c.clicks| && n < |c.impressions| && n < |c.ctrs| && n < |c.positions|
    && c.keys[n] == Key(row)
    && c.clicks[n] == ClicksText(fmt, row)
    && c.impressions[n] == ImpressionsText(fmt, row)
    && c.ctrs[n] == CtrText(fmt, row)
    && c.positions[n] == PositionText(fmt, row)
  }

  /**
   * Writing rows grows every column by exactly one line per row, keeps the
   * earlier lines, keeps the columns aligned, and puts row k on the same
   * line of all five.
   */
  lemma {:induction false} AddRowsSpec(c: Columns, fmt: Formatter, rows: seq<Row>)
    ensures var d := AddRows(c, fmt, rows);
      && |d.keys| == |c.keys| + |rows| && |d.clicks| == |c.clicks| + |rows|
      && |d.impressions| == |c.impressions| + |rows| && |d.ctrs| == |c.ctrs| + |rows|
      && |d.positions| == |c.positions| + |rows|
      && d.keys[..|c.keys|] == c.keys && d.clicks[..|c.clicks|] == c.clicks
      && d.impressions[..|c.impressions|] == c.impressions && d.ctrs[..|c.ctrs|] == c.ctrs
      && d.positions[..|c.positions|] == c.positions
      && (Aligned(c) ==> Aligned(d) && forall k :: 0 <= k < |rows| ==> DescribesRow(d, |c.keys| + k, fmt, rows[k]))
  {
    if rows != [] {
      var prefix := rows[..|rows| - 1];
      AddRowsSpec(c, fmt, prefix);
      var p := AddRows(c, fmt, prefix);
      var d := AddRows(c, fmt, rows);
      assert d == AddRow(p, fmt, rows[|rows| - 1]);
      assert d.keys[..|c.keys|] == p.keys[..|c.keys|];
      assert d.clicks[..|c.clicks|] == p.clicks[..|c.clicks|];
      assert d.impressions[..|c.impressions|] == p.impressions[..|c.impressions|];
      assert d.ctrs[..|c.ctrs|] == p.ctrs[..|c.ctrs|];
      assert d.positions[..|c.positions|] == p.positions[..|c.positions|];
      if Aligned(c) {
        forall k | 0 <= k < |rows| ensures DescribesRow(d, |c.keys| + k, fmt, rows[k]) {
          if k < |prefix| {
            assert DescribesRow(p, |c.keys| + k, fmt, prefix[k]);
          }
        }
      }
    }
  }

  /** Writing two runs of rows is writing their concatenation. */
  lemma {:induction false} AddRowsAppend(c: Columns, fmt: Formatter, xs: seq<Row>, ys: seq<Row>)
    ensures AddRows(AddRows(c, fmt, xs), fmt, ys) == AddRows(c, fmt, xs + ys)
    decreases |ys|
  {
    if ys != [] {
      AddRowsAppend(c, fmt, xs, ys[..|ys| - 1]);
      assert (xs + ys)[..|xs + ys| - 1] == xs + ys[..|ys| - 1];
    } else {
      assert xs + ys == xs;
    }
  }
}
