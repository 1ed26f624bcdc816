/**
 * The loop both `write_table` functions share (GetKeywords.py and
 * GetCharts.py): one `writerow` of a row's record per response row, on a
 * CSV file that is already open.
 */
module Tables {
  import opened Reports
  import opened Files

  /** One record per row, in order, after what the file holds. */
  method WriteRecords(fs: FileStore<seq<string>>, fmt: Formatter, rows: seq<Row>, path: string)
    requires path in fs.files
    modifies fs
    ensures fs.files == old(fs.files)[path := old(fs.files)[path] + Records(fmt, rows)]
    ensures fs.dirs == old(fs.dirs)
  {
    ghost var start := fs.files[path];
    assert rows[..0] == [] && start + Records(fmt, []) == start;
    assert fs.files == old(fs.files)[path := start];
    for i := 0 to |rows|
      invariant path in fs.files
      invariant fs.files == old(fs.files)[path := start + Records(fmt, rows[..i])]
      invariant fs.dirs == old(fs.dirs)
    {
      ghost var written := fs.files[path];
      fs.WriteLine(path, Record(fmt, rows[i]));
      assert rows[..i + 1][..i] == rows[..i];
      assert start + Records(fmt, rows[..i + 1]) == written + [Record(fmt, rows[i])];
    }
    assert rows[..|rows|] == rows;
  }
}
