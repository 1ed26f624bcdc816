/**
 * The five parallel text files that GetPages.py and TopPages.py keep under
 * `Data/` and AllPages.py under `Temp/`: URLs.txt, Click.txt, Imp.txt,
 * CTR.txt and Pos.txt, line k of each describing the same response row.
 */
module DataFiles {
  import opened Reports
  import opened Files

  function KeyPath(dir: string): string { dir + "/URLs.txt" }
  function ClickPath(dir: string): string { dir + "/Click.txt" }
  function ImpPath(dir: string): string { dir + "/Imp.txt" }
  function CtrPath(dir: string): string { dir + "/CTR.txt" }
  function PosPath(dir: string): string { dir + "/Pos.txt" }

  /** The five output files of a directory. */
  function Paths(dir: string): set<string> {
    {KeyPath(dir), ClickPath(dir), ImpPath(dir), CtrPath(dir), PosPath(dir)}
  }

  /** The five names are different files. */
  lemma PathsDistinct(dir: string)
    ensures KeyPath(dir) != ClickPath(dir) && KeyPath(dir) != ImpPath(dir) && KeyPath(dir) != CtrPath(dir) && KeyPath(dir) != PosPath(dir)
    ensures ClickPath(dir) != ImpPath(dir) && ClickPath(dir) != CtrPath(dir) && ClickPath(dir) != PosPath(dir)
    ensures ImpPath(dir) != CtrPath(dir) && ImpPath(dir) != PosPath(dir)
    ensures CtrPath(dir) != PosPath(dir)
    ensures |Paths(dir)| == 5
  {
    var n := |dir|;
    assert KeyPath(dir)[n + 1] == 'U';
    assert ClickPath(dir)[n + 1] == 'C' && ClickPath(dir)[n + 2] == 'l';
    assert ImpPath(dir)[n + 1] == 'I';
    assert CtrPath(dir)[n + 1] == 'C' && CtrPath(dir)[n + 2] == 'T';
    assert PosPath(dir)[n + 1] == 'P';
  }

  /** The five files read back as columns (a missing file reads as no lines). */
  function ReadColumns(files: map<string, seq<string>>, dir: string): Columns {
    Columns(Lookup(files, KeyPath(dir)), Lookup(files, ClickPath(dir)), Lookup(files, ImpPath(dir)),
            Lookup(files, CtrPath(dir)), Lookup(files, PosPath(dir)))
  }

  predicate AllPresent(files: map<string, seq<string>>, dir: string) {
    forall p :: p in Paths(dir) ==> p in files
  }

  predicate NonePresent(files: map<string, seq<string>>, dir: string) {
    forall p :: p in Paths(dir) ==> p !in files
  }

  /** The disk after `wipe_data`: the directory exists and none of the five files does. */
  function Wiped(d: Disk<string>): (r: Disk<string>)
    ensures NonePresent(r.files, "Data") && ReadColumns(r.files, "Data") == NoColumns
    ensures "Data" in r.dirs || "Data" in r.files
    ensures forall p :: p !in Paths("Data") ==> Lookup(r.files, p) == Lookup(d.files, p) && (p in r.files <==> p in d.files)
  {
    Disk(d.files - Paths("Data"), if "Data" in d.files || "Data" in d.dirs then d.dirs else d.dirs + {"Data"})
  }

  /** Wiping twice is wiping once. */
  lemma WipedIdempotent(d: Disk<string>)
    ensures Wiped(Wiped(d)) == Wiped(d)
  {
    assert Wiped(d).files - Paths("Data") == Wiped(d).files;
  }

  /** Remove the file at `path` when there is one: `os.path.exists`, then `os.remove`. */
  method RemoveIfPresent(fs: FileStore<string>, path: string)
    modifies fs
    ensures fs.files == old(fs.files) - {path} && fs.dirs == old(fs.dirs)
  {
    if path in fs.files {
      fs.Remove(path);
    }
  }

  /** `wipe_data` (GetPages.py and TopPages.py): create `Data` if needed, remove the five files that exist. */
  method WipeData(fs: FileStore<string>)
    modifies fs
    ensures fs.State() == Wiped(old(fs.State()))
  {
    if !fs.Exists("Data") {
      fs.MakeDirs("Data");
    }
    ghost var start := fs.files;
    RemoveIfPresent(fs, KeyPath("Data"));
    RemoveIfPresent(fs, ClickPath("Data"));
    RemoveIfPresent(fs, ImpPath("Data"));
    RemoveIfPresent(fs, CtrPath("Data"));
    RemoveIfPresent(fs, PosPath("Data"));
    assert fs.files == start - Paths("Data");
  }

  /** The files after opening the five files of `dir`, one after another. */
  function OpenedFiles(files: map<string, seq<string>>, dir: string, mode: Mode): map<string, seq<string>> {
    var f1 := Opened(files, KeyPath(dir), mode);
    var f2 := Opened(f1, ClickPath(dir), mode);
    var f3 := Opened(f2, ImpPath(dir), mode);
    var f4 := Opened(f3, CtrPath(dir), mode);
    Opened(f4, PosPath(dir), mode)
  }

  /**
   * After the five opens all five files exist; they read back empty after
   * `Overwrite` and as before after `Append` ...
   */
  lemma OpenedFilesColumns(files: map<string, seq<string>>, dir: string, mode: Mode)
    ensures var r := OpenedFiles(files, dir, mode);
      && AllPresent(r, dir)
      && ReadColumns(r, dir) == (if mode == Overwrite then NoColumns else ReadColumns(files, dir))
  {
    PathsDistinct(dir);
  }

  /** ... and no other file changes. */
  lemma OpenedFilesElsewhere(files: map<string, seq<string>>, dir: string, mode: Mode)
    ensures OpenedFiles(files, dir, mode) - Paths(dir) == files - Paths(dir)
  {
    var f1 := Opened(files, KeyPath(dir), mode);
    var f2 := Opened(f1, ClickPath(dir), mode);
    var f3 := Opened(f2, ImpPath(dir), mode);
    var f4 := Opened(f3, CtrPath(dir), mode);
    OpenedElsewhere(files, KeyPath(dir), mode, Paths(dir));
    OpenedElsewhere(f1, ClickPath(dir), mode, Paths(dir));
    OpenedElsewhere(f2, ImpPath(dir), mode, Paths(dir));
    OpenedElsewhere(f3, CtrPath(dir), mode, Paths(dir));
    OpenedElsewhere(f4, PosPath(dir), mode, Paths(dir));
  }

  /** Open the five files of `dir` in one mode. */
  method OpenAll(fs: FileStore<string>, dir: string, mode: Mode)
    modifies fs
    ensures fs.files == OpenedFiles(old(fs.files), dir, mode) && fs.dirs == old(fs.dirs)
    ensures AllPresent(fs.files, dir)
    ensures ReadColumns(fs.files, dir) == if mode == Overwrite then NoColumns else ReadColumns(old(fs.files), dir)
    ensures fs.files - Paths(dir) == old(fs.files) - Paths(dir)
  {
    fs.Open(KeyPath(dir), mode);
    fs.Open(ClickPath(dir), mode);
    fs.Open(ImpPath(dir), mode);
    fs.Open(CtrPath(dir), mode);
    fs.Open(PosPath(dir), mode);
    OpenedFilesColumns(old(fs.files), dir, mode);
    OpenedFilesElsewhere(old(fs.files), dir, mode);
  }

  /** The files after one row is written as one line to each of the five files. */
  function RowWritten(files: map<string, seq<string>>, dir: string, fmt: Formatter, row: Row): map<string, seq<string>> {
    var f1 := Appended(files, KeyPath(dir), Key(row));
    var f2 := Appended(f1, ClickPath(dir), ClicksText(fmt, row));
    var f3 := Appended(f2, ImpPath(dir), ImpressionsText(fmt, row));
    var f4 := Appended(f3, CtrPath(dir), CtrText(fmt, row));
    Appended(f4, PosPath(dir), PositionText(fmt, row))
  }

  /** Each of the five files grows by the row's line for it ... */
  lemma RowWrittenColumns(files: map<string, seq<string>>, dir: string, fmt: Formatter, row: Row)
    requires AllPresent(files, dir)
    ensures var r := RowWritten(files, dir, fmt, row);
      && AllPresent(r, dir)
      && ReadColumns(r, dir) == AddRow(ReadColumns(files, dir), fmt, row)
  {
    PathsDistinct(dir);
  }

  /** ... and no other file changes. */
  lemma RowWrittenElsewhere(files: map<string, seq<string>>, dir: string, fmt: Formatter, row: Row)
    ensures RowWritten(files, dir, fmt, row) - Paths(dir) == files - Paths(dir)
  {
    var f1 := Appended(files, KeyPath(dir), Key(row));
    var f2 := Appended(f1, ClickPath(dir), ClicksText(fmt, row));
    var f3 := Appended(f2, ImpPath(dir), ImpressionsText(fmt, row));
    var f4 := Appended(f3, CtrPath(dir), CtrText(fmt, row));
    AppendedElsewhere(files, KeyPath(dir), Key(row), Paths(dir));
    AppendedElsewhere(f1, ClickPath(dir), ClicksText(fmt, row), Paths(dir));
    AppendedElsewhere(f2, ImpPath(dir), ImpressionsText(fmt, row), Paths(dir));
    AppendedElsewhere(f3, CtrPath(dir), CtrText(fmt, row), Paths(dir));
    AppendedElsewhere(f4, PosPath(dir), PositionText(fmt, row), Paths(dir));
  }

  /** One row written as one line to each of the five open files. */
  method WriteRow(fs: FileStore<string>, dir: string, fmt: Formatter, row: Row)
    requires AllPresent(fs.files, dir)
    modifies fs
    ensures fs.files == RowWritten(old(fs.files), dir, fmt, row) && fs.dirs == old(fs.dirs)
    ensures AllPresent(fs.files, dir)
  {
    RowWrittenColumns(fs.files, dir, fmt, row);
    fs.WriteLine(KeyPath(dir), Key(row));
    fs.WriteLine(ClickPath(dir), ClicksText(fmt, row));
    fs.WriteLine(ImpPath(dir), ImpressionsText(fmt, row));
    fs.WriteLine(CtrPath(dir), CtrText(fmt, row));
    fs.WriteLine(PosPath(dir), PositionText(fmt, row));
  }

  /** The files after the rows are written one after another. */
  function RowsWritten(files: map<string, seq<string>>, dir: string, fmt: Formatter, rows: seq<Row>): map<string, seq<string>> {
    Fold(files, (f: map<string, seq<string>>, row: Row) => RowWritten(f, dir, fmt, row), rows)
  }

  /** Writing one more row after some rows. */
  lemma RowsWrittenSnoc(files: map<string, seq<string>>, dir: string, fmt: Formatter, rows: seq<Row>, row: Row)
    ensures RowsWritten(files, dir, fmt, rows + [row]) == RowWritten(RowsWritten(files, dir, fmt, rows), dir, fmt, row)
  {
    FoldSnoc(files, (f: map<string, seq<string>>, row: Row) => RowWritten(f, dir, fmt, row), rows, row);
  }

  /** Writing two runs of rows is writing their concatenation. */
  lemma RowsWrittenAppend(files: map<string, seq<string>>, dir: string, fmt: Formatter, xs: seq<Row>, ys: seq<Row>)
    ensures RowsWritten(RowsWritten(files, dir, fmt, xs), dir, fmt, ys) == RowsWritten(files, dir, fmt, xs + ys)
  {
    FoldAppend(files, (f: map<string, seq<string>>, row: Row) => RowWritten(f, dir, fmt, row), xs, ys);
  }

  /** Writing rows to the five present files grows the columns by one line per row ... */
  lemma {:induction false} RowsWrittenColumns(files: map<string, seq<string>>, dir: string, fmt: Formatter, rows: seq<Row>)
    requires AllPresent(files, dir)
    ensures var r := RowsWritten(files, dir, fmt, rows);
      && AllPresent(r, dir)
      && ReadColumns(r, dir) == AddRows(ReadColumns(files, dir), fmt, rows)
  {
    if rows == [] {
      assert RowsWritten(files, dir, fmt, rows) == files;
    } else {
      var prefix := rows[..|rows| - 1];
      assert rows == prefix + [rows[|rows| - 1]];
      RowsWrittenColumns(files, dir, fmt, prefix);
      RowsWrittenSnoc(files, dir, fmt, prefix, rows[|rows| - 1]);
      RowWrittenColumns(RowsWritten(files, dir, fmt, prefix), dir, fmt, rows[|rows| - 1]);
    }
  }

  /** ... and changes no other file. */
  lemma {:induction false} RowsWrittenElsewhere(files: map<string, seq<string>>, dir: string, fmt: Formatter, rows: seq<Row>)
    ensures RowsWritten(files, dir, fmt, rows) - Paths(dir) == files - Paths(dir)
  {
    if rows == [] {
      assert RowsWritten(files, dir, fmt, rows) == files;
    } else {
      var prefix := rows[..|rows| - 1];
      assert rows == prefix + [rows[|rows| - 1]];
      RowsWrittenElsewhere(files, dir, fmt, prefix);
      RowsWrittenSnoc(files, dir, fmt, prefix, rows[|rows| - 1]);
      RowWrittenElsewhere(RowsWritten(files, dir, fmt, prefix), dir, fmt, rows[|rows| - 1]);
    }
  }

  /** The rows written one after another to the five open files. */
  method WriteRows(fs: FileStore<string>, dir: string, fmt: Formatter, rows: seq<Row>)
    requires AllPresent(fs.files, dir)
    modifies fs
    ensures fs.files == RowsWritten(old(fs.files), dir, fmt, rows) && fs.dirs == old(fs.dirs)
    ensures AllPresent(fs.files, dir)
    ensures ReadColumns(fs.files, dir) == AddRows(ReadColumns(old(fs.files), dir), fmt, rows)
    ensures fs.files - Paths(dir) == old(fs.files) - Paths(dir)
  {
    assert rows[..0] == [];
    assert RowsWritten(fs.files, dir, fmt, []) == fs.files;
    for i := 0 to |rows|
      invariant fs.files == RowsWritten(old(fs.files), dir, fmt, rows[..i]) && fs.dirs == old(fs.dirs)
      invariant AllPresent(fs.files, dir)
    {
      assert rows[..i + 1] == rows[..i] + [rows[i]];
      RowsWrittenSnoc(old(fs.files), dir, fmt, rows[..i], rows[i]);
      WriteRow(fs, dir, fmt, rows[i]);
    }
    assert rows[..|rows|] == rows;
    RowsWrittenColumns(old(fs.files), dir, fmt, rows);
    RowsWrittenElsewhere(old(fs.files), dir, fmt, rows);
  }
}
