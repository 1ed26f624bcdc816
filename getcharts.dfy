/**
 * GetCharts.py: for one property, query the daily stats and the top 5000
 * search queries, and write each answer that has rows as a CSV table in the
 * output folder, named after the sanitised property URI.
 */
module GetCharts {
  import opened Wrappers
  import opened Strings
  import opened Urls
  import opened Reports
  import opened Files
  import opened Service
  import opened Tables

  /** The command-line arguments. */
  datatype Flags = Flags(outputDir: string, propertyUri: string, startDate: string, endDate: string)

  /** The first request: stats per date. */
  function DateQuery(flags: Flags): Query {
    Query(flags.propertyUri, Body(flags.startDate, flags.endDate, ["date"], [], None))
  }

  /** The second request: the top 5000 search queries. */
  function KeywordQuery(flags: Flags): Query {
    Query(flags.propertyUri, Body(flags.startDate, flags.endDate, ["query"], [], Some(Count(5000))))
  }

  /** `lURLFile`: the property URI through the four `replace` calls, with no trailing-`_` strip. */
  function ChartName(flags: Flags): string {
    Sanitise(flags.propertyUri)
  }

  function DatePath(flags: Flags): string {
    flags.outputDir + "/" + ChartName(flags) + " Date Stats.csv"
  }

  function KeywordPath(flags: Flags): string {
    flags.outputDir + "/" + ChartName(flags) + " Top Keywords.csv"
  }

  /**
   * Both tables sit in the output folder under the sanitised name, which is
   * as long as the URI and free of `/`, `.`, `:` and `?`; the two are
   * different files.
   */
  lemma ChartPaths(flags: Flags)
    ensures var name := ChartName(flags);
      && |name| == |flags.propertyUri| && Clean(name)
      && DatePath(flags) == flags.outputDir + "/" + name + " Date Stats.csv"
      && StartsWith(DatePath(flags), flags.outputDir + "/" + name) && EndsWith(DatePath(flags), " Date Stats.csv")
      && StartsWith(KeywordPath(flags), flags.outputDir + "/" + name) && EndsWith(KeywordPath(flags), " Top Keywords.csv")
      && DatePath(flags) != KeywordPath(flags)
  {
    var prefix := flags.outputDir + "/" + ChartName(flags);
    assert DatePath(flags) == prefix + " Date Stats.csv";
    assert KeywordPath(flags) == prefix + " Top Keywords.csv";
    ConcatEnds(prefix, " Date Stats.csv", " Date Stats.csv");
    ConcatEnds(prefix, " Top Keywords.csv", " Top Keywords.csv");
  }

  // ---------------------------------------------------------------------------
  // write_table
  // ---------------------------------------------------------------------------

  /** The records `write_table` leaves in the file: the column names, then one record per row. */
  function ChartTable(fmt: Formatter, rows: seq<Row>): seq<seq<string>> {
    [ColumnNames] + Records(fmt, rows)
  }

  /** One header record, then exactly one record per row, in order, whose key cell is the row's key. */
  lemma ChartTableShape(fmt: Formatter, rows: seq<Row>)
    ensures var t := ChartTable(fmt, rows);
      && |t| == 1 + |rows| && t[0] == ColumnNames
      && forall k :: 0 <= k < |rows| ==> t[1 + k] == Record(fmt, rows[k]) && t[1 + k][0] == Key(rows[k])
  {
    RecordsAt(fmt, rows);
  }

  /** `write_table(response, path)`: overwrite the file with the table. */
  method WriteTable(fs: FileStore<seq<string>>, fmt: Formatter, rows: seq<Row>, path: string)
    modifies fs
    ensures fs.files == old(fs.files)[path := ChartTable(fmt, rows)]
    ensures fs.dirs == old(fs.dirs)
  {
    fs.Open(path, Overwrite);
    fs.WriteLine(path, ColumnNames);
    assert fs.files[path] == [ColumnNames];
    WriteRecords(fs, fmt, rows, path);
    UpdateTwice(old(fs.files), path, [ColumnNames], ChartTable(fmt, rows));
  }

  // ---------------------------------------------------------------------------
  // main
  // ---------------------------------------------------------------------------

  /** The files after one request: its table at `path` when it was answered with rows. */
  function Written(fmt: Formatter, o: Outcome, path: string, files: map<string, seq<seq<string>>>): map<string, seq<seq<string>>> {
    if o.Answered? && o.response.rows.Some? then files[path := ChartTable(fmt, o.response.rows.value)] else files
  }

  /**
   * The disk after `main`, given the outcomes of the two requests. An
   * exception from the date request ends the script before the keyword
   * request is sent.
   */
  function Charted(flags: Flags, fmt: Formatter, dates: Outcome, keywords: Outcome, d: Disk<seq<string>>): Disk<seq<string>> {
    var dirs := if flags.outputDir in d.files || flags.outputDir in d.dirs then d.dirs else d.dirs + {flags.outputDir};
    var afterDates := Written(fmt, dates, DatePath(flags), d.files);
    Disk(if dates.Failed? then afterDates else Written(fmt, keywords, KeywordPath(flags), afterDates), dirs)
  }

  /** The requests `main` sends: the keyword request only when the date request did not raise. */
  function ChartRequests(flags: Flags, dates: Outcome): seq<Event> {
    [Requested(DateQuery(flags))] + if dates.Failed? then [] else [Requested(KeywordQuery(flags))]
  }

  /**
   * After `main` the output folder exists. The date table holds its
   * answer's records when that request was answered with rows; the keyword
   * table holds its records when both requests were answered and the second
   * had rows; otherwise each is as before. No other file changes.
   */
  lemma ChartedSpec(flags: Flags, fmt: Formatter, dates: Outcome, keywords: Outcome, d: Disk<seq<string>>)
    ensures var r := Charted(flags, fmt, dates, keywords, d);
      && (flags.outputDir in r.dirs || flags.outputDir in r.files) && d.dirs <= r.dirs
      && (dates.Answered? && dates.response.rows.Some? ==>
            DatePath(flags) in r.files && r.files[DatePath(flags)] == ChartTable(fmt, dates.response.rows.value))
      && (!(dates.Answered? && dates.response.rows.Some?) ==>
            Lookup(r.files, DatePath(flags)) == Lookup(d.files, DatePath(flags)) && (DatePath(flags) in r.files <==> DatePath(flags) in d.files))
      && (dates.Answered? && keywords.Answered? && keywords.response.rows.Some? ==>
            KeywordPath(flags) in r.files && r.files[KeywordPath(flags)] == ChartTable(fmt, keywords.response.rows.value))
      && (!(dates.Answered? && keywords.Answered? && keywords.response.rows.Some?) ==>
            Lookup(r.files, KeywordPath(flags)) == Lookup(d.files, KeywordPath(flags)) && (KeywordPath(flags) in r.files <==> KeywordPath(flags) in d.files))
      && forall p :: p != DatePath(flags) && p != KeywordPath(flags) ==>
           Lookup(r.files, p) == Lookup(d.files, p) && (p in r.files <==> p in d.files)
  {
    ChartPaths(flags);
  }

  /**
   * `main`: create the output folder if needed, then the date request and
   * its table, then the keyword request and its table; `serve` answers the
   * requests, and an exception from either ends the script.
   */
  method Run(flags: Flags, fmt: Formatter, serve: Query -> Outcome, fs: FileStore<seq<string>>, trace: Trace)
    modifies fs, trace
    ensures trace.events == old(trace.events) + ChartRequests(flags, serve(DateQuery(flags)))
    ensures fs.State() == Charted(flags, fmt, serve(DateQuery(flags)), serve(KeywordQuery(flags)), old(fs.State()))
  {
    if !fs.Exists(flags.outputDir) {
      fs.MakeDirs(flags.outputDir);
    }
    var name := Sanitise(flags.propertyUri);
    var dates := trace.Request(DateQuery(flags), serve);
    if dates.Failed? {
      return;
    }
    if dates.response.rows.Some? {
      WriteTable(fs, fmt, dates.response.rows.value, flags.outputDir + "/" + name + " Date Stats.csv");
    }
    var keywords := trace.Request(KeywordQuery(flags), serve);
    if keywords.Failed? {
      return;
    }
    if keywords.response.rows.Some? {
      WriteTable(fs, fmt, keywords.response.rows.value, flags.outputDir + "/" + name + " Top Keywords.csv");
    }
  }
}
