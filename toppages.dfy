/**
 * TopPages.py: query the top pages of one property, wipe the five files
 * under `Data/`, then overwrite them with one line per response row when
 * the answer has rows.
 */
module TopPages {
  import opened Wrappers
  import opened Reports
  import opened Files
  import opened DataFiles
  import opened Service

  /** The command-line arguments; `page_num` stays the string it was given. */
  datatype Flags = Flags(propertyUri: string, startDate: string, endDate: string, pageNum: string)

  /** The one request: pages, with `rowLimit` the `page_num` argument as given. */
  function TopQuery(flags: Flags): Query {
    Query(flags.propertyUri, Body(flags.startDate, flags.endDate, ["page"], [], Some(Text(flags.pageNum))))
  }

  /**
   * The disk after `main` given the request's outcome: an exception stops the
   * script before `wipe_data`, so nothing changes; otherwise the wipe, then
   * `write_data` when the answer has rows.
   */
  function Published(fmt: Formatter, o: Outcome, d: Disk<string>): Disk<string> {
    match o
    case Failed(_) => d
    case Answered(resp) =>
      var w := Wiped(d);
      match resp.rows
      case None => w
      case Some(rows) => Disk(RowsWritten(OpenedFiles(w.files, "Data", Overwrite), "Data", fmt, rows), w.dirs)
  }

  /**
   * A failed request leaves the disk as it was, old `Data/` files included.
   * After an answer: without rows none of the five files exists; with rows
   * all five exist, each with exactly one line per row, line k of each
   * describing row k. No other file changes, and `Data` exists.
   */
  lemma PublishedSpec(fmt: Formatter, o: Outcome, d: Disk<string>)
    ensures o.Failed? ==> Published(fmt, o, d) == d
    ensures o.Answered? ==>
      var r := Published(fmt, o, d); var c := ReadColumns(r.files, "Data"); var rows := o.response.rows;
      && ("Data" in r.dirs || "Data" in r.files)
      && (rows.None? ==> NonePresent(r.files, "Data") && c == NoColumns)
      && (rows.Some? ==>
            && AllPresent(r.files, "Data")
            && c == AddRows(NoColumns, fmt, rows.value)
            && |c.keys| == |rows.value| && Aligned(c)
            && forall k :: 0 <= k < |rows.value| ==> DescribesRow(c, k, fmt, rows.value[k]))
      && forall p :: p !in Paths("Data") ==> Lookup(r.files, p) == Lookup(d.files, p) && (p in r.files <==> p in d.files)
  {
    if o.Answered? && o.response.rows.Some? {
      var rows := o.response.rows.value;
      var w := Wiped(d);
      var f := OpenedFiles(w.files, "Data", Overwrite);
      OpenedFilesColumns(w.files, "Data", Overwrite);
      OpenedFilesElsewhere(w.files, "Data", Overwrite);
      RowsWrittenColumns(f, "Data", fmt, rows);
      RowsWrittenElsewhere(f, "Data", fmt, rows);
      AddRowsSpec(NoColumns, fmt, rows);
      var r := Published(fmt, o, d);
      SameOutside(r.files, w.files, Paths("Data"));
    }
  }

  /** `write_data`: open the five files for writing, then one line per row in each. */
  method WriteData(fs: FileStore<string>, fmt: Formatter, rows: seq<Row>)
    modifies fs
    ensures fs.files == RowsWritten(OpenedFiles(old(fs.files), "Data", Overwrite), "Data", fmt, rows)
    ensures fs.dirs == old(fs.dirs)
    ensures AllPresent(fs.files, "Data") && ReadColumns(fs.files, "Data") == AddRows(NoColumns, fmt, rows)
  {
    OpenAll(fs, "Data", Overwrite);
    WriteRows(fs, "Data", fmt, rows);
  }

  /**
   * `main`: the request first; an exception from it ends the script. Then
   * `wipe_data`, then `write_data` only if the answer has rows.
   */
  method Run(flags: Flags, fmt: Formatter, serve: Query -> Outcome, fs: FileStore<string>, trace: Trace)
    modifies fs, trace
    ensures trace.events == old(trace.events) + [Requested(TopQuery(flags))]
    ensures fs.State() == Published(fmt, serve(TopQuery(flags)), old(fs.State()))
  {
    var outcome := trace.Request(TopQuery(flags), serve);
    if outcome.Failed? {
      return;
    }
    WipeData(fs);
    if outcome.response.rows.Some? {
      WriteData(fs, fmt, outcome.response.rows.value);
    }
  }
}
