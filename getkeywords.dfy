/**
 * GetKeywords.py: for every page URL in a list, query the keywords the page
 * was found for and write them as a CSV table under
 * `<output_dir>/Pages/<folder>/<file>`. Queries go out in batches of five;
 * each callback takes its URL from a global cursor that only moves on
 * callbacks without an exception.
 */
module GetKeywords {
  import opened Strings
  import opened Wrappers
  import opened Urls
  import opened Reports
  import opened Files
  import opened Service
  import opened Tables

  /** The command-line arguments the model uses (`url_file` is read by the caller). */
  datatype Flags = Flags(outputDir: string, startDate: string, endDate: string)

  /** The query for one page: its keywords, filtered to that page, under its site root. */
  function KeywordsQuery(flags: Flags, url: string): Query {
    Query(SiteRoot(url), Body(flags.startDate, flags.endDate, ["query"], [Filter("page", url)], None))
  }

  /** `lRequest` and `theSiteURL` as the loop builds them for each line. */
  function QueryOf(flags: Flags): string -> Query {
    url => KeywordsQuery(flags, url)
  }

  /** The queries of the whole URL list, in order. */
  function Queries(flags: Flags, lines: seq<string>): seq<Query> {
    Built(QueryOf(flags), lines)
  }

  /** One query per URL, and query k is the keyword query of URL k. */
  lemma QueriesAt(flags: Flags, lines: seq<string>)
    ensures |Queries(flags, lines)| == |lines|
    ensures forall k :: 0 <= k < |lines| ==> Queries(flags, lines)[k] == KeywordsQuery(flags, lines[k])
  {
    BuiltAt(QueryOf(flags), lines);
  }

  /** `lFolder` */
  function FolderPath(flags: Flags, url: string): string {
    flags.outputDir + "/Pages/" + FolderName(url)
  }

  /** `lFolder + '/' + lFileName` */
  function TablePath(flags: Flags, url: string): string {
    FolderPath(flags, url) + "/" + FileName(FolderName(url))
  }

  /** A table lives in its page's folder and its name ends in ".csv". */
  lemma TablePathShape(flags: Flags, url: string)
    ensures StartsWith(TablePath(flags, url), FolderPath(flags, url) + "/")
    ensures EndsWith(TablePath(flags, url), ".csv")
    ensures |TablePath(flags, url)| <= |flags.outputDir| + 7 + |FolderName(url)| + 1 + 63
  {
    ConcatEnds(FolderPath(flags, url) + "/", FileName(FolderName(url)), ".csv");
  }

  // ---------------------------------------------------------------------------
  // write_table
  // ---------------------------------------------------------------------------

  /** The three header records: labels, the date range, the column names. */
  function Header(flags: Flags): seq<seq<string>> {
    [["Start timestamp", "End timestamp"], [flags.startDate, flags.endDate], ColumnNames]
  }

  /** The records `write_table` leaves in the file. */
  function Table(flags: Flags, fmt: Formatter, rows: seq<Row>): seq<seq<string>> {
    Header(flags) + Records(fmt, rows)
  }

  /**
   * Three header records, then exactly one record per row, in order, whose
   * key cell is the row's key.
   */
  lemma TableShape(flags: Flags, fmt: Formatter, rows: seq<Row>)
    ensures var t := Table(flags, fmt, rows);
      && |t| == 3 + |rows|
      && t[0] == ["Start timestamp", "End timestamp"]
      && t[1] == [flags.startDate, flags.endDate]
      && t[2] == ColumnNames
      && forall k :: 0 <= k < |rows| ==> t[3 + k] == Record(fmt, rows[k]) && t[3 + k][0] == Key(rows[k])
  {
    RecordsAt(fmt, rows);
  }

  /** `write_table(start, end, response, path)`: overwrite the file with the table. */
  method WriteTable(fs: FileStore<seq<string>>, flags: Flags, fmt: Formatter, rows: seq<Row>, path: string)
    modifies fs
    ensures fs.files == old(fs.files)[path := Table(flags, fmt, rows)]
    ensures fs.dirs == old(fs.dirs)
  {
    fs.Open(path, Overwrite);
    WriteHeader(fs, flags, path);
    WriteRecords(fs, fmt, rows, path);
    UpdateTwice(old(fs.files), path, Header(flags), Table(flags, fmt, rows));
  }

  /** The three `writerow` calls of the header, on a file just emptied. */
  method WriteHeader(fs: FileStore<seq<string>>, flags: Flags, path: string)
    requires path in fs.files && fs.files[path] == []
    modifies fs
    ensures fs.files == old(fs.files)[path := Header(flags)]
    ensures fs.dirs == old(fs.dirs)
  {
    var header := Header(flags);
    fs.WriteLine(path, header[0]);
    fs.WriteLine(path, header[1]);
    fs.WriteLine(path, header[2]);
    assert fs.files[path] == header;
  }

  // ---------------------------------------------------------------------------
  // The cursor lCurUrl
  // ---------------------------------------------------------------------------

  /** The number of callbacks without an exception: how far the cursor has moved. */
  function Successes(replies: seq<Outcome>): (n: nat)
    ensures n <= |replies|
  {
    if replies == [] then 0
    else Successes(replies[..|replies| - 1]) + if replies[|replies| - 1].Answered? then 1 else 0
  }

  /**
   * The cursor stands at callback k's own index exactly when no earlier
   * callback failed; otherwise it lags behind.
   */
  lemma {:induction false} CursorAttribution(replies: seq<Outcome>, k: nat)
    requires k <= |replies|
    ensures Successes(replies[..k]) <= k
    ensures Successes(replies[..k]) == k <==> forall j :: 0 <= j < k ==> replies[j].Answered?
  {
    if k > 0 {
      CursorAttribution(replies, k - 1);
      assert replies[..k][..k - 1] == replies[..k - 1];
      if Successes(replies[..k]) == k {
        assert Successes(replies[..k - 1]) == k - 1;
      }
    }
  }

  /** The URLs the callbacks take from the list, in callback order. */
  function UsedUrls(lines: seq<string>, replies: seq<Outcome>): seq<string>
    requires |replies| <= |lines|
  {
    if replies == [] then []
    else
      var prefix := replies[..|replies| - 1];
      UsedUrls(lines, prefix) + if replies[|replies| - 1].Answered? then [lines[Successes(prefix)]] else []
  }

  /**
   * The answered callbacks take the first URLs of the list in order, one
   * each, whichever requests they answer.
   */
  lemma {:induction false} UsedUrlsPrefix(lines: seq<string>, replies: seq<Outcome>)
    requires |replies| <= |lines|
    ensures UsedUrls(lines, replies) == lines[..Successes(replies)]
  {
    if replies != [] {
      var prefix := replies[..|replies| - 1];
      UsedUrlsPrefix(lines, prefix);
      if replies[|replies| - 1].Answered? {
        assert lines[..Successes(prefix)] + [lines[Successes(prefix)]] == lines[..Successes(prefix) + 1];
      }
    }
  }

  // ---------------------------------------------------------------------------
  // HandleRequest and the run
  // ---------------------------------------------------------------------------

  /** The disk after an answered callback for `url`: its table, when the response has rows. */
  function Deliver(flags: Flags, fmt: Formatter, url: string, resp: Response, d: Disk<seq<string>>): Disk<seq<string>> {
    match resp.rows
    case None => d
    case Some(rows) =>
      var folder := FolderPath(flags, url);
      var dirs := if folder in d.files || folder in d.dirs then d.dirs else d.dirs + {folder};
      Disk(d.files[TablePath(flags, url) := Table(flags, fmt, rows)], dirs)
  }

  /** The disk after the callbacks for `replies`, in order, starting from `d`. */
  function Replay(flags: Flags, fmt: Formatter, lines: seq<string>, replies: seq<Outcome>, d: Disk<seq<string>>): Disk<seq<string>>
    requires |replies| <= |lines|
  {
    if replies == [] then d
    else
      var prefix := replies[..|replies| - 1];
      var before := Replay(flags, fmt, lines, prefix, d);
      match replies[|replies| - 1]
      case Failed(_) => before
      case Answered(resp) => Deliver(flags, fmt, lines[Successes(prefix)], resp, before)
  }

  /** The responses of the answered callbacks, in callback order. */
  function Answers(replies: seq<Outcome>): (resps: seq<Response>)
    ensures |resps| == Successes(replies)
  {
    if replies == [] then []
    else
      var prefix := replies[..|replies| - 1];
      Answers(prefix) + match replies[|replies| - 1] { case Failed(_) => [] case Answered(resp) => [resp] }
  }

  /** The URLs the callbacks take, one per callback that had no exception. */
  lemma {:induction false} UsedUrlsLength(lines: seq<string>, replies: seq<Outcome>)
    requires |replies| <= |lines|
    ensures |UsedUrls(lines, replies)| == Successes(replies)
  {
    if replies != [] {
      UsedUrlsLength(lines, replies[..|replies| - 1]);
    }
  }

  /** Answer k delivered for URL k, in order. */
  function DeliverAll(flags: Flags, fmt: Formatter, urls: seq<string>, resps: seq<Response>, d: Disk<seq<string>>): Disk<seq<string>>
    requires |urls| == |resps|
  {
    if urls == [] then d
    else Deliver(flags, fmt, urls[|urls| - 1], resps[|resps| - 1], DeliverAll(flags, fmt, urls[..|urls| - 1], resps[..|resps| - 1], d))
  }

  /**
   * The callbacks deliver the k-th answer for the k-th URL of the list,
   * whichever request it answers: an exception shifts every later answer
   * onto the URL before its own.
   */
  lemma {:induction false} ReplayAttribution(flags: Flags, fmt: Formatter, lines: seq<string>, replies: seq<Outcome>, d: Disk<seq<string>>)
    requires |replies| <= |lines|
    ensures |lines[..Successes(replies)]| == |Answers(replies)|
    ensures Replay(flags, fmt, lines, replies, d) == DeliverAll(flags, fmt, lines[..Successes(replies)], Answers(replies), d)
  {
    UsedUrlsPrefix(lines, replies);
    ReplayDeliversUsed(flags, fmt, lines, replies, d);
  }

  /** The callbacks deliver the answers, in order, for the URLs they take from the list. */
  lemma {:induction false} ReplayDeliversUsed(flags: Flags, fmt: Formatter, lines: seq<string>, replies: seq<Outcome>, d: Disk<seq<string>>)
    requires |replies| <= |lines|
    ensures |UsedUrls(lines, replies)| == |Answers(replies)|
    ensures Replay(flags, fmt, lines, replies, d) == DeliverAll(flags, fmt, UsedUrls(lines, replies), Answers(replies), d)
  {
    UsedUrlsLength(lines, replies);
    if replies != [] {
      var prefix := replies[..|replies| - 1];
      ReplayDeliversUsed(flags, fmt, lines, prefix, d);
      UsedUrlsLength(lines, prefix);
      match replies[|replies| - 1]
      case Failed(_) =>
        assert UsedUrls(lines, replies) == UsedUrls(lines, prefix);
        assert Answers(replies) == Answers(prefix);
      case Answered(resp) =>
        var urls := UsedUrls(lines, replies);
        var resps := Answers(replies);
        assert urls == UsedUrls(lines, prefix) + [lines[Successes(prefix)]];
        assert resps == Answers(prefix) + [resp];
        assert urls[..|urls| - 1] == UsedUrls(lines, prefix);
        assert resps[..|resps| - 1] == Answers(prefix);
    }
  }

  /**
   * With one exception ahead of it, the answer to the second page's request
   * is filed under the first page: the disk ends as that answer delivered
   * for the first URL.
   */
  lemma FailureShiftsAttribution(flags: Flags, fmt: Formatter, a: string, b: string, reason: string, resp: Response, d: Disk<seq<string>>)
    ensures Replay(flags, fmt, [a, b], [Failed(reason), Answered(resp)], d) == Deliver(flags, fmt, a, resp, d)
  {
    var replies := [Failed(reason), Answered(resp)];
    assert replies[..1] == [Failed(reason)];
    assert replies[..1][..0] == [];
    assert Successes(replies[..1]) == 0;
    assert Replay(flags, fmt, [a, b], replies[..1], d) == d;
  }

  /** One answered callback adds at most one directory and changes at most its URL's table. */
  lemma DeliverChanges(flags: Flags, fmt: Formatter, url: string, resp: Response, d: Disk<seq<string>>)
    ensures var r := Deliver(flags, fmt, url, resp, d);
      && d.dirs <= r.dirs && d.files.Keys <= r.files.Keys
      && forall p :: Changed(p, d, r) ==> p == TablePath(flags, url)
  {
    match resp.rows
    case None =>
      NoChanges(d);
    case Some(rows) =>
      var folder := FolderPath(flags, url);
      var dirs := if folder in d.files || folder in d.dirs then d.dirs else d.dirs + {folder};
      WriteChangesOne(d, TablePath(flags, url), Table(flags, fmt, rows), dirs);
  }

  /**
   * The callbacks only ever add directories and write tables: every file
   * they change is the table of a URL they used, and no file or directory
   * disappears.
   */
  lemma {:induction false} ReplayWritesTables(flags: Flags, fmt: Formatter, lines: seq<string>, replies: seq<Outcome>, d: Disk<seq<string>>)
    requires |replies| <= |lines|
    ensures var r := Replay(flags, fmt, lines, replies, d);
      && d.dirs <= r.dirs && d.files.Keys <= r.files.Keys
      && forall p :: Changed(p, d, r) ==> exists k :: 0 <= k < Successes(replies) && p == TablePath(flags, lines[k])
  {
    if replies != [] {
      var prefix := replies[..|replies| - 1];
      ReplayWritesTables(flags, fmt, lines, prefix, d);
      var n := Successes(prefix);
      var before := Replay(flags, fmt, lines, prefix, d);
      var r := Replay(flags, fmt, lines, replies, d);
      if replies[|replies| - 1].Answered? {
        DeliverChanges(flags, fmt, lines[n], replies[|replies| - 1].response, before);
        assert n + 1 == Successes(replies);
        forall p | Changed(p, d, r)
          ensures exists k :: 0 <= k < Successes(replies) && p == TablePath(flags, lines[k])
        {
          if !Changed(p, d, before) {
            assert Changed(p, before, r);
            assert p == TablePath(flags, lines[n]);
          }
        }
      } else {
        assert r == before && n == Successes(replies);
      }
    }
  }

  /** The state HandleRequest works on: the URL list, the flags and the cursor. */
  class Session {
    const flags: Flags
    const fmt: Formatter
    const lines: seq<string>
    const fs: FileStore<seq<string>>
    var cursor: nat

    constructor (flags0: Flags, fmt0: Formatter, lines0: seq<string>, fs0: FileStore<seq<string>>)
      ensures flags == flags0 && fmt == fmt0 && lines == lines0 && fs == fs0 && cursor == 0
    {
      flags, fmt, lines, fs := flags0, fmt0, lines0, fs0;
      cursor := 0;
    }

    /**
     * `HandleRequest`: an exception changes nothing; an answer takes the URL
     * at the cursor, moves the cursor, and writes that URL's table when
     * there are rows.
     */
    method HandleRequest(o: Outcome)
      requires o.Answered? ==> cursor < |lines|
      modifies this, fs
      ensures cursor == old(cursor) + if o.Answered? then 1 else 0
      ensures fs.State() == match o
        case Failed(_) => old(fs.State())
        case Answered(resp) => Deliver(flags, fmt, lines[old(cursor)], resp, old(fs.State()))
    {
      if o.Answered? {
        var url := lines[cursor];
        cursor := cursor + 1;
        match o.response.rows
        case Some(rows) =>
          var folder := FolderPath(flags, url);
          if !fs.Exists(folder) {
            fs.MakeDirs(folder);
          }
          WriteTable(fs, flags, fmt, rows, TablePath(flags, url));
        case None =>
      }
    }
  }

  // ---------------------------------------------------------------------------
  // The batching loop of main
  // ---------------------------------------------------------------------------

  /**
   * The callbacks for the first `n` requests have run: the cursor and the
   * disk are what they leave.
   */
  ghost predicate Delivered(flags: Flags, fmt: Formatter, lines: seq<string>, replies: seq<Outcome>, n: nat,
                            cursor: nat, disk: Disk<seq<string>>, d: Disk<seq<string>>)
  {
    && n <= |replies| <= |lines|
    && cursor == Successes(replies[..n])
    && disk == Replay(flags, fmt, lines, replies[..n], d)
  }

  /**
   * `lBatch.execute()`: the queued queries go out together, then their
   * callbacks run in order on `replies[from..]`.
   */
  method ExecuteBatch(batch: Batch, session: Session, replies: seq<Outcome>, from: nat, ghost d: Disk<seq<string>>)
    requires from + |batch.queued| <= |replies|
    requires Delivered(session.flags, session.fmt, session.lines, replies, from, session.cursor, session.fs.State(), d)
    modifies batch.trace, session, session.fs
    ensures batch.trace.events == old(batch.trace.events) + [Executed(batch.queued)]
    ensures Delivered(session.flags, session.fmt, session.lines, replies, from + |batch.queued|, session.cursor, session.fs.State(), d)
  {
    batch.Execute();
    for i := from to from + |batch.queued|
      invariant batch.trace.events == old(batch.trace.events) + [Executed(batch.queued)]
      invariant Delivered(session.flags, session.fmt, session.lines, replies, i, session.cursor, session.fs.State(), d)
    {
      assert replies[..i + 1][..i] == replies[..i];
      session.HandleRequest(replies[i]);
    }
  }

  /**
   * One pass of the loop of `main`: add the URL's query; on the fifth,
   * execute the batch, sleep and start a fresh batch.
   */
  method AddUrl(session: Session, batch: Batch, trace: Trace, build: string -> Query, replies: seq<Outcome>,
                i: nat, sent: nat, ghost events0: seq<Event>, ghost d: Disk<seq<string>>, ghost flushed: seq<Query>)
    returns (next: Batch, sent': nat, ghost flushed': seq<Query>)
    requires batch.trace == trace && i < |session.lines| == |replies| && sent == |flushed| && |batch.queued| < Capacity
    requires Batching(build, session.lines, i, flushed, batch.queued, trace.events, events0)
    requires Delivered(session.flags, session.fmt, session.lines, replies, sent, session.cursor, session.fs.State(), d)
    modifies batch, trace, session, session.fs
    ensures next == batch || fresh(next)
    ensures next.trace == trace && sent' == |flushed'| && |next.queued| < Capacity
    ensures Batching(build, session.lines, i + 1, flushed', next.queued, trace.events, events0)
    ensures Delivered(session.flags, session.fmt, session.lines, replies, sent', session.cursor, session.fs.State(), d)
  {
    BatchingAdd(build, session.lines, i, flushed, batch.queued, trace.events, events0);
    batch.Add(build(session.lines[i]));
    next, sent', flushed' := batch, sent, flushed;
    if |batch.queued| == Capacity {
      BatchingFull(build, session.lines, i + 1, flushed, batch.queued, trace.events, events0);
      ExecuteBatch(batch, session, replies, sent, d);
      trace.Sleep();
      flushed' := flushed + batch.queued;
      sent' := sent + Capacity;
      next := new Batch(trace);
    }
  }

  /** The loop of `main` over the URL list. */
  method AddUrls(session: Session, trace: Trace, build: string -> Query, replies: seq<Outcome>)
    returns (batch: Batch, sent: nat, ghost flushed: seq<Query>)
    requires session.cursor == 0 && |session.lines| == |replies|
    modifies trace, session, session.fs
    ensures batch.trace == trace && sent == |flushed| && |batch.queued| < Capacity
    ensures Batching(build, session.lines, |session.lines|, flushed, batch.queued, trace.events, old(trace.events))
    ensures Delivered(session.flags, session.fmt, session.lines, replies, sent, session.cursor, session.fs.State(), old(session.fs.State()))
  {
    ghost var d := session.fs.State();
    batch := new Batch(trace);
    sent, flushed := 0, [];
    BatchingStart(build, session.lines, trace.events);
    assert replies[..0] == [];
    for i := 0 to |session.lines|
      invariant fresh(batch) && batch.trace == trace && sent == |flushed| && |batch.queued| < Capacity
      invariant Batching(build, session.lines, i, flushed, batch.queued, trace.events, old(trace.events))
      invariant Delivered(session.flags, session.fmt, session.lines, replies, sent, session.cursor, session.fs.State(), d)
    {
      batch, sent, flushed := AddUrl(session, batch, trace, build, replies, i, sent, old(trace.events), d, flushed);
    }
  }

  /** `if lPos: lBatch.execute()`: the last, short batch goes out without a sleep. */
  method ExecuteRest(session: Session, batch: Batch, trace: Trace, build: string -> Query, replies: seq<Outcome>, sent: nat,
                     ghost events0: seq<Event>, ghost d: Disk<seq<string>>, ghost flushed: seq<Query>)
    requires batch.trace == trace && sent == |flushed| && |batch.queued| < Capacity && |replies| == |session.lines|
    requires Batching(build, session.lines, |session.lines|, flushed, batch.queued, trace.events, events0)
    requires Delivered(session.flags, session.fmt, session.lines, replies, sent, session.cursor, session.fs.State(), d)
    modifies trace, session, session.fs
    ensures trace.events == events0 + Schedule(Built(build, session.lines))
    ensures Delivered(session.flags, session.fmt, session.lines, replies, |replies|, session.cursor, session.fs.State(), d)
  {
    BatchingEnd(build, session.lines, flushed, batch.queued, trace.events, events0);
    if |batch.queued| > 0 {
      ExecuteBatch(batch, session, replies, sent, d);
    }
  }

  /**
   * `main` after reading the URL list: the batching loop, with `replies[k]`
   * the callback outcome of the k-th request. The trace is the five-per-batch
   * schedule, the disk is what the callbacks leave, and the cursor has
   * moved once per answered callback.
   */
  method Run(flags: Flags, fmt: Formatter, lines: seq<string>, replies: seq<Outcome>, fs: FileStore<seq<string>>, trace: Trace)
    returns (cursor: nat)
    requires |replies| == |lines|
    modifies fs, trace
    ensures trace.events == old(trace.events) + Schedule(Queries(flags, lines))
    ensures fs.State() == Replay(flags, fmt, lines, replies, old(fs.State()))
    ensures cursor == Successes(replies)
  {
    var session := new Session(flags, fmt, lines, fs);
    var batch, sent, flushed := AddUrls(session, trace, QueryOf(flags), replies);
    ExecuteRest(session, batch, trace, QueryOf(flags), replies, sent, old(trace.events), old(fs.State()), flushed);
    assert replies[..|replies|] == replies;
    cursor := session.cursor;
  }
}
