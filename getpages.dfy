/**
 * GetPages.py: for every page URL in a list, query the page's own totals and
 * append them, one line per response row, to the five files under `Data/`,
 * after wiping those files once at the start. Queries go out in batches of
 * five, as in GetKeywords.py.
 */
module GetPages {
  import opened Wrappers
  import opened Urls
  import opened Reports
  import opened Files
  import opened DataFiles
  import opened Service

  /** The command-line arguments the model uses (`url_file` is read by the caller). */
  datatype Flags = Flags(startDate: string, endDate: string)

  /** The query for one page: dimension `page`, filtered to that page, under its site root. */
  function PagesQuery(flags: Flags, url: string): Query {
    Query(SiteRoot(url), Body(flags.startDate, flags.endDate, ["page"], [Filter("page", url)], None))
  }

  /** `lRequest` and `theSiteURL` as the loop builds them for each line. */
  function QueryOf(flags: Flags): string -> Query {
    url => PagesQuery(flags, url)
  }

  /** The queries of the whole URL list, in order. */
  function Queries(flags: Flags, lines: seq<string>): seq<Query> {
    Built(QueryOf(flags), lines)
  }

  /** One query per URL, and query k is the page query of URL k, sent to that URL's site root. */
  lemma QueriesAt(flags: Flags, lines: seq<string>)
    ensures |Queries(flags, lines)| == |lines|
    ensures forall k :: 0 <= k < |lines| ==>
      Queries(flags, lines)[k] == PagesQuery(flags, lines[k]) && Queries(flags, lines)[k].siteUrl == SiteRoot(lines[k])
  {
    BuiltAt(QueryOf(flags), lines);
  }

  // ---------------------------------------------------------------------------
  // HandleRequest and append_data
  // ---------------------------------------------------------------------------

  /** A callback that reaches `append_data`: no exception, and the response has `rows`. */
  predicate Appends(o: Outcome) {
    o.Answered? && o.response.rows.Some?
  }

  /** The rows a callback appends. */
  function RowsOf(o: Outcome): (rows: seq<Row>)
    ensures !Appends(o) ==> rows == []
  {
    if Appends(o) then o.response.rows.value else []
  }

  /** The disk after one callback. */
  function Deliver(fmt: Formatter, o: Outcome, d: Disk<string>): Disk<string> {
    if Appends(o) then Disk(RowsWritten(OpenedFiles(d.files, "Data", Append), "Data", fmt, RowsOf(o)), d.dirs)
    else d
  }

  /**
   * An exception or a response without `rows` changes nothing; otherwise
   * the five files exist afterwards, each grown by one line per row, and no
   * other file or directory changes.
   */
  lemma DeliverSpec(fmt: Formatter, o: Outcome, d: Disk<string>)
    ensures var r := Deliver(fmt, o, d);
      && (!Appends(o) ==> r == d)
      && (Appends(o) ==> AllPresent(r.files, "Data"))
      && ReadColumns(r.files, "Data") == AddRows(ReadColumns(d.files, "Data"), fmt, RowsOf(o))
      && r.files - Paths("Data") == d.files - Paths("Data") && r.dirs == d.dirs
  {
    if Appends(o) {
      var f := OpenedFiles(d.files, "Data", Append);
      OpenedFilesColumns(d.files, "Data", Append);
      OpenedFilesElsewhere(d.files, "Data", Append);
      RowsWrittenColumns(f, "Data", fmt, RowsOf(o));
      RowsWrittenElsewhere(f, "Data", fmt, RowsOf(o));
    }
  }

  /**
   * `append_data`: open the five files for appending, then write each row
   * as one line to each of them.
   */
  method AppendData(fs: FileStore<string>, fmt: Formatter, rows: seq<Row>)
    modifies fs
    ensures fs.files == RowsWritten(OpenedFiles(old(fs.files), "Data", Append), "Data", fmt, rows)
    ensures fs.dirs == old(fs.dirs)
    ensures AllPresent(fs.files, "Data")
    ensures ReadColumns(fs.files, "Data") == AddRows(ReadColumns(old(fs.files), "Data"), fmt, rows)
  {
    OpenAll(fs, "Data", Append);
    WriteRows(fs, "Data", fmt, rows);
  }

  /** `HandleRequest`: append the response's rows, if it has any and no exception came. */
  method HandleRequest(fs: FileStore<string>, fmt: Formatter, o: Outcome)
    modifies fs
    ensures fs.State() == Deliver(fmt, o, old(fs.State()))
  {
    match o
    case Failed(_) =>
    case Answered(resp) =>
      match resp.rows
      case Some(rows) => AppendData(fs, fmt, rows);
      case None =>
  }

  // ---------------------------------------------------------------------------
  // The callbacks of a whole run
  // ---------------------------------------------------------------------------

  /** The disk after the callbacks for `replies`, in order, starting from `d`. */
  function Replay(fmt: Formatter, replies: seq<Outcome>, d: Disk<string>): Disk<string> {
    if replies == [] then d
    else Deliver(fmt, replies[|replies| - 1], Replay(fmt, replies[..|replies| - 1], d))
  }

  /** The rows appended by the callbacks, in callback order. */
  function AllRows(replies: seq<Outcome>): seq<Row> {
    if replies == [] then [] else AllRows(replies[..|replies| - 1]) + RowsOf(replies[|replies| - 1])
  }

  /** Some callback reached `append_data`. */
  predicate AnyAppends(replies: seq<Outcome>) {
    exists k :: 0 <= k < |replies| && Appends(replies[k])
  }

  /** The callbacks grow the five columns by all their rows, in order ... */
  lemma {:induction false} ReplayColumns(fmt: Formatter, replies: seq<Outcome>, d: Disk<string>)
    ensures ReadColumns(Replay(fmt, replies, d).files, "Data") == AddRows(ReadColumns(d.files, "Data"), fmt, AllRows(replies))
  {
    if replies == [] {
    } else {
      var prefix := replies[..|replies| - 1];
      var o := replies[|replies| - 1];
      ReplayColumns(fmt, prefix, d);
      DeliverSpec(fmt, o, Replay(fmt, prefix, d));
      AddRowsAppend(ReadColumns(d.files, "Data"), fmt, AllRows(prefix), RowsOf(o));
    }
  }

  /** ... change no other file or directory ... */
  lemma {:induction false} ReplayElsewhere(fmt: Formatter, replies: seq<Outcome>, d: Disk<string>)
    ensures Replay(fmt, replies, d).files - Paths("Data") == d.files - Paths("Data")
    ensures Replay(fmt, replies, d).dirs == d.dirs
  {
    if replies != [] {
      var prefix := replies[..|replies| - 1];
      ReplayElsewhere(fmt, prefix, d);
      DeliverSpec(fmt, replies[|replies| - 1], Replay(fmt, prefix, d));
    }
  }

  /** ... and leave the disk as it was unless some callback appended. */
  lemma {:induction false} ReplayPresent(fmt: Formatter, replies: seq<Outcome>, d: Disk<string>)
    ensures AnyAppends(replies) ==> AllPresent(Replay(fmt, replies, d).files, "Data")
    ensures !AnyAppends(replies) ==> Replay(fmt, replies, d) == d
  {
    if replies != [] {
      var prefix := replies[..|replies| - 1];
      var o := replies[|replies| - 1];
      ReplayPresent(fmt, prefix, d);
      DeliverSpec(fmt, o, Replay(fmt, prefix, d));
      if Appends(o) {
        assert AnyAppends(replies) by { assert Appends(replies[|replies| - 1]); }
      } else {
        AppendsInPrefix(replies);
        if AnyAppends(prefix) {
          var before := Replay(fmt, prefix, d);
          assert AllPresent(before.files, "Data");
          assert Replay(fmt, replies, d) == before;
        }
      }
    }
  }

  /** Without an append in the last callback, some callback appended exactly when an earlier one did. */
  lemma AppendsInPrefix(replies: seq<Outcome>)
    requires replies != [] && !Appends(replies[|replies| - 1])
    ensures AnyAppends(replies) <==> AnyAppends(replies[..|replies| - 1])
  {
    var prefix := replies[..|replies| - 1];
    if AnyAppends(replies) {
      var k :| 0 <= k < |replies| && Appends(replies[k]);
      assert k < |prefix| && prefix[k] == replies[k];
    }
    if AnyAppends(prefix) {
      var k :| 0 <= k < |prefix| && Appends(prefix[k]);
      assert replies[k] == prefix[k];
    }
  }

  /**
   * After a run that starts with `wipe_data`: the five files hold exactly
   * the rows of all callbacks, in order, aligned line by line; they exist
   * exactly when some callback appended; every other file is as before.
   */
  lemma RunOutcome(fmt: Formatter, replies: seq<Outcome>, d: Disk<string>)
    ensures var r := Replay(fmt, replies, Wiped(d)); var c := ReadColumns(r.files, "Data");
      && c == AddRows(NoColumns, fmt, AllRows(replies))
      && |c.keys| == |AllRows(replies)| && Aligned(c)
      && (forall k :: 0 <= k < |AllRows(replies)| ==> DescribesRow(c, k, fmt, AllRows(replies)[k]))
      && (AnyAppends(replies) ==> AllPresent(r.files, "Data"))
      && (!AnyAppends(replies) ==> NonePresent(r.files, "Data"))
      && (forall p :: p !in Paths("Data") ==> Lookup(r.files, p) == Lookup(d.files, p) && (p in r.files <==> p in d.files))
  {
    RunColumns(fmt, replies, d);
    ReplayPresent(fmt, replies, Wiped(d));
    RunElsewhere(fmt, replies, d);
  }

  lemma RunColumns(fmt: Formatter, replies: seq<Outcome>, d: Disk<string>)
    ensures var c := ReadColumns(Replay(fmt, replies, Wiped(d)).files, "Data");
      && c == AddRows(NoColumns, fmt, AllRows(replies))
      && |c.keys| == |AllRows(replies)| && Aligned(c)
      && (forall k :: 0 <= k < |AllRows(replies)| ==> DescribesRow(c, k, fmt, AllRows(replies)[k]))
  {
    ReplayColumns(fmt, replies, Wiped(d));
    AddRowsSpec(NoColumns, fmt, AllRows(replies));
  }

  lemma RunElsewhere(fmt: Formatter, replies: seq<Outcome>, d: Disk<string>)
    ensures var r := Replay(fmt, replies, Wiped(d));
      forall p :: p !in Paths("Data") ==> Lookup(r.files, p) == Lookup(d.files, p) && (p in r.files <==> p in d.files)
  {
    var w := Wiped(d);
    ReplayElsewhere(fmt, replies, w);
    SameOutside(Replay(fmt, replies, w).files, w.files, Paths("Data"));
  }

  // ---------------------------------------------------------------------------
  // The batching loop of main
  // ---------------------------------------------------------------------------

  /** The callbacks for the first `n` requests have run and left `disk`. */
  ghost predicate Delivered(fmt: Formatter, replies: seq<Outcome>, n: nat, disk: Disk<string>, d: Disk<string>) {
    n <= |replies| && disk == Replay(fmt, replies[..n], d)
  }

  /**
   * `lBatch.execute()`: the queued queries go out together, then their
   * callbacks run in order on `replies[from..]`.
   */
  method ExecuteBatch(batch: Batch, fs: FileStore<string>, fmt: Formatter, replies: seq<Outcome>, from: nat, ghost d: Disk<string>)
    requires from + |batch.queued| <= |replies|
    requires Delivered(fmt, replies, from, fs.State(), d)
    modifies batch.trace, fs
    ensures batch.trace.events == old(batch.trace.events) + [Executed(batch.queued)]
    ensures Delivered(fmt, replies, from + |batch.queued|, fs.State(), d)
  {
    batch.Execute();
    for i := from to from + |batch.queued|
      invariant batch.trace.events == old(batch.trace.events) + [Executed(batch.queued)]
      invariant Delivered(fmt, replies, i, fs.State(), d)
    {
      assert replies[..i + 1][..i] == replies[..i];
      HandleRequest(fs, fmt, replies[i]);
    }
  }

  /**
   * One pass of the loop of `main`: add the URL's query; on the fifth,
   * execute the batch, sleep and start a fresh batch.
   */
  method AddUrl(fs: FileStore<string>, fmt: Formatter, lines: seq<string>, batch: Batch, trace: Trace,
                build: string -> Query, replies: seq<Outcome>, i: nat, sent: nat,
                ghost events0: seq<Event>, ghost d: Disk<string>, ghost flushed: seq<Query>)
    returns (next: Batch, sent': nat, ghost flushed': seq<Query>)
    requires batch.trace == trace && i < |lines| == |replies| && sent == |flushed| && |batch.queued| < Capacity
    requires Batching(build, lines, i, flushed, batch.queued, trace.events, events0)
    requires Delivered(fmt, replies, sent, fs.State(), d)
    modifies batch, trace, fs
    ensures next == batch || fresh(next)
    ensures next.trace == trace && sent' == |flushed'| && |next.queued| < Capacity
    ensures Batching(build, lines, i + 1, flushed', next.queued, trace.events, events0)
    ensures Delivered(fmt, replies, sent', fs.State(), d)
  {
    BatchingAdd(build, lines, i, flushed, batch.queued, trace.events, events0);
    batch.Add(build(lines[i]));
    next, sent', flushed' := batch, sent, flushed;
    if |batch.queued| == Capacity {
      BatchingFull(build, lines, i + 1, flushed, batch.queued, trace.events, events0);
      ExecuteBatch(batch, fs, fmt, replies, sent, d);
      trace.Sleep();
      flushed' := flushed + batch.queued;
      sent' := sent + Capacity;
      next := new Batch(trace);
    }
  }

  /** The loop of `main` over the URL list. */
  method AddUrls(fs: FileStore<string>, fmt: Formatter, lines: seq<string>, trace: Trace,
                 build: string -> Query, replies: seq<Outcome>)
    returns (batch: Batch, sent: nat, ghost flushed: seq<Query>)
    requires |lines| == |replies|
    modifies trace, fs
    ensures batch.trace == trace && sent == |flushed| && |batch.queued| < Capacity
    ensures Batching(build, lines, |lines|, flushed, batch.queued, trace.events, old(trace.events))
    ensures Delivered(fmt, replies, sent, fs.State(), old(fs.State()))
  {
    ghost var d := fs.State();
    batch := new Batch(trace);
    sent, flushed := 0, [];
    BatchingStart(build, lines, trace.events);
    assert replies[..0] == [];
    for i := 0 to |lines|
      invariant fresh(batch) && batch.trace == trace && sent == |flushed| && |batch.queued| < Capacity
      invariant Batching(build, lines, i, flushed, batch.queued, trace.events, old(trace.events))
      invariant Delivered(fmt, replies, sent, fs.State(), d)
    {
      batch, sent, flushed := AddUrl(fs, fmt, lines, batch, trace, build, replies, i, sent, old(trace.events), d, flushed);
    }
  }

  /** `if lPos: lBatch.execute()`: the last, short batch goes out without a sleep. */
  method ExecuteRest(fs: FileStore<string>, fmt: Formatter, lines: seq<string>, batch: Batch, trace: Trace,
                     build: string -> Query, replies: seq<Outcome>, sent: nat,
                     ghost events0: seq<Event>, ghost d: Disk<string>, ghost flushed: seq<Query>)
    requires batch.trace == trace && sent == |flushed| && |batch.queued| < Capacity && |replies| == |lines|
    requires Batching(build, lines, |lines|, flushed, batch.queued, trace.events, events0)
    requires Delivered(fmt, replies, sent, fs.State(), d)
    modifies trace, fs
    ensures trace.events == events0 + Schedule(Built(build, lines))
    ensures Delivered(fmt, replies, |replies|, fs.State(), d)
  {
    BatchingEnd(build, lines, flushed, batch.queued, trace.events, events0);
    if |batch.queued| > 0 {
      ExecuteBatch(batch, fs, fmt, replies, sent, d);
    }
  }

  /**
   * `main` after reading the URL list: `wipe_data`, then the batching loop,
   * with `replies[k]` the callback outcome of the k-th request. The trace is
   * the five-per-batch schedule and the disk is what the callbacks leave on
   * the wiped disk.
   */
  method Run(flags: Flags, fmt: Formatter, lines: seq<string>, replies: seq<Outcome>, fs: FileStore<string>, trace: Trace)
    requires |replies| == |lines|
    modifies fs, trace
    ensures trace.events == old(trace.events) + Schedule(Queries(flags, lines))
    ensures fs.State() == Replay(fmt, replies, Wiped(old(fs.State())))
  {
    WipeData(fs);
    var batch, sent, flushed := AddUrls(fs, fmt, lines, trace, QueryOf(flags), replies);
    ExecuteRest(fs, fmt, lines, batch, trace, QueryOf(flags), replies, sent, old(trace.events), Wiped(old(fs.State())), flushed);
    assert replies[..|replies|] == replies;
  }
}
