# Search Console reporting scripts, modelled in Dafny

Five scripts query the Google Search Console Search Analytics service and
write the answers to local files. This project models what they do.

- `GetKeywords.py` sends one keyword query per page URL. It sends them in
  batches of five, with a sleep after each full batch. For each answer with
  `rows` it writes a CSV table into a folder derived from the URL.
- `GetPages.py` batches page queries the same way. First it wipes the five
  `Data/*.txt` files. Each answer with `rows` then appends one line per row
  to all five files.
- `AllPages.py` walks the account's sites in order.
  - It passes over sites the user cannot read, `sc-set:` sets, and sites
    under a prefix on the ignore list.
  - Each accepted site is added to the ignore list and its top pages are
    queried.
  - Each page key not seen before gets one line in each of the five
    `Temp/*.txt` files.
- `GetCharts.py` queries one property twice: stats per date, then the top
  5000 queries. Each answer with rows becomes a CSV table whose name is the
  sanitised property URI.
- `TopPages.py` queries the top pages of one property. It wipes the five
  `Data/*.txt` files and overwrites them with the rows, if there are any.

## How the files fit together

| file | module | models |
|---|---|---|
| `wrappers.dfy` | Wrappers | the `Option` type |
| `strings.dfy` | Strings | `split`, `join`, `startswith`/`endswith`, `in`, `rsplit` and slicing as sequence functions, with their lemmas |
| `urls.dfy` | Urls | the site-root expression; the four `replace` calls; the folder and file names of `GetKeywords.py` |
| `reports.dfy` | Reports | response rows, the key cell, the formatted numbers, a CSV record, the five parallel columns |
| `files.dfy` | Files | the file system as a class `FileStore` over a map from path to lines, plus its directories |
| `datafiles.dfy` | DataFiles | the five `URLs/Click/Imp/CTR/Pos.txt` files shared by `wipe_data`, `append_data` and `write_data` |
| `tables.dfy` | Tables | the `write_table` row loop shared by `GetKeywords.py` and `GetCharts.py` |
| `service.dfy` | Service | the service as a trace of events; the `BatchHttpRequest` stub; the batching loop of `main` |
| `getkeywords.dfy`, `getpages.dfy`, `allpages.dfy`, `getcharts.dfy`, `toppages.dfy` | one per script | the script's `main`, callbacks and writers |

The scripts run in order and change things, so most of their logic is
written as methods on `FileStore`, `Trace` and `Batch` objects.
- The batching loop keeps the source's counter and replaces the batch
  object after each execute.
- The `lCurUrl` cursor is a field of `GetKeywords.Session`.
- The AllPages site loop keeps the ignore list and `lURLList` as local
  sequences.

Each method is pinned to a specification function of the old state:
`Replay`, `Scanned`, `Charted`, `Published` and `Schedule`. The properties
the scripts promise are proved about those functions as lemmas.

Things outside the scripts are parameters:
- `replies`: one reply per batched query, in the order the queries were
  added;
- `serve`: the outcome of each synchronous request, an answer or an
  exception;
- a `Formatter`: the three `%`-formats of the numeric fields.

## Model

| member | source | states |
|---|---|---|
| Service.Trace.Request | GetCharts.py:74-85 | a synchronous `execute()` ends with the service's outcome for that query, an answer or an exception, and records exactly one request event |
| Service.Batch.Add | GetKeywords.py:70 | `lBatch.add` queues the query at the end of the batch and records one add event |
| Service.Batch.Execute | GetKeywords.py:74 | `lBatch.execute()` sends the queued queries together as one batch event |
| Service.Schedule | GetKeywords.py:55-80 | the events of the batching loop for a list of queries: five adds, an execute and a sleep per full batch, then the adds and execute of the remainder; its properties are the Schedule lemmas below |
| Service.ScheduleShape | GetKeywords.py:55-80 | for L queries there are ceil(L/5) batches and floor(L/5) sleeps; the batches laid end to end are the queries in input order; every batch holds 1 to 5 queries and all but the last hold 5; every query is added exactly once, in order |
| Service.ScheduleCounts | GetKeywords.py:73-80 | exactly (L+4)/5 executes and L/5 sleeps |
| Service.ScheduleFlatten | GetKeywords.py:55-71 | every URL's query is in exactly one batch, in input order, and the added queries are the input queries |
| Service.ScheduleSizes | GetKeywords.py:71-77 | no batch is empty or holds more than 5 queries; only the last can hold fewer than 5 |
| Service.SleepsFollowFullBatches | GetPages.py:74-81 | a sleep comes right after each full batch and at no other point; the remainder batch is not followed by a sleep |
| Service.ScheduleHead | GetKeywords.py:55-80 | no URLs give no events; otherwise the first event is the add of the first URL's query |
| Service.ScheduleAppend | GetKeywords.py:73-77 | after a whole number of full batches the loop starts afresh: the schedule of the rest follows unchanged |
| Service.BatchingEnd | GetKeywords.py:79-80 | once every URL is added, executing the remainder if it is non-empty (and nothing otherwise) completes the schedule |
| Service.BuiltAt | GetKeywords.py:55-70 | one query per input line, and query k is built from line k |
| Urls.SiteRoot | GetKeywords.py:69 | the site-root expression: the first piece of the split at `//`, `//`, and the first piece of the split at `/` of the last piece; its shape is stated by SiteRootParts |
| Urls.SiteRootParts | GetKeywords.py:69 | the site root is the scheme part, then `//`, then the host part. The scheme part is the text before the first `//`, which occurs right after it. The host part is the leading `/`-free text of the last piece of the split at `//`, and the text before that piece ends in `//`; for `http:///x` the root is `http://` |
| Urls.SiteRootOfUrl | GetPages.py:65 | for `scheme//host/path` with no `//` in the path, the site root is `scheme//host` |
| Urls.SiteRootAfterLastDoubleSlash | GetKeywords.py:69 | a second `//` in the URL makes the host come from after the last `//`, not the first |
| Urls.SiteRootOverlap | GetKeywords.py:69 | an overlapping `///` splits as `//` then `/`: `http:///x` splits into `http:` and `/x`, and its site root is `http://` |
| Urls.Sanitise | GetCharts.py:42-46 | the name has the URI's length; `/` and `?` become `_`, `.` and `:` become `-`, every other character is unchanged; none of the four characters remains |
| Urls.SanitiseIdempotent | GetCharts.py:42-46 | sanitising a sanitised name changes nothing |
| Urls.SanitisedEnd | GetKeywords.py:100-106 | the sanitised URL ends in `_` exactly when the URL ends in `/`, `?` or `_` |
| Urls.FolderName | GetKeywords.py:100-107 | the folder name: the sanitised URL with one trailing `_` dropped; its shape is stated by FolderNameShape |
| Urls.FolderNameShape | GetKeywords.py:100-107 | the folder name is free of the four characters, is a prefix of the sanitised URL and is one character shorter exactly when a trailing `_` was dropped |
| Urls.FileName | GetKeywords.py:111-115 | the file name always ends in `.csv` and is at most 63 characters long |
| Urls.FileNameParts | GetKeywords.py:111-115 | the file name is `GSC `, then the text after the last `_` with one trailing `-html` removed, cut to 55 characters, then `.csv` |
| Urls.FileNameShape | GetKeywords.py:111-115 | the file name is `GSC ` + middle + `.csv`; it holds no `_`; the middle is a prefix of the text after the last `_`, and is free of the four characters when the folder is |
| Reports.Record | GetKeywords.py:152-158 | a CSV record has five cells, the first is the row's key and the CTR cell ends in `%` |
| Reports.CtrText | GetPages.py:149 | the CTR text ends in `%` |
| Reports.RecordsAt | GetKeywords.py:145-158 | exactly one record per row, and record k is row k's |
| Reports.Key | GetKeywords.py:147-150 | the key cell: `N/A` without `keys`, otherwise the keys joined by `,`; KeyRoundTrip states what it keeps |
| Reports.KeyRoundTrip | GetKeywords.py:147-150 | the key is `N/A` when `keys` is absent; otherwise, for a non-empty list of keys none of which holds a comma, splitting the key at `,` gives back the keys |
| Reports.AddRowsSpec | GetPages.py:139-150 | writing rows to the five columns grows each by exactly one line per row and keeps the old lines as a prefix; aligned columns stay aligned, and line n+k of each describes row k |
| Reports.AddRowsAppend | GetPages.py:139-150 | writing xs and then ys gives the same columns as writing xs + ys |
| Files.FileStore.MakeDirs | GetPages.py:109-110 | `os.makedirs` adds the directory and changes no file |
| Files.FileStore.Remove | GetPages.py:112-113 | `os.remove` deletes that one file and nothing else |
| Files.FileStore.Open | GetPages.py:132 | `open(path, "a")` keeps or creates the file; `open(path, "w")` empties it; nothing else changes |
| Files.FileStore.WriteLine | GetPages.py:146 | a write appends one line to that file and changes nothing else |
| Files.WriteChangesOne | GetKeywords.py:117-121 | writing one file (perhaps after creating folders) keeps every file and changes only that one |
| DataFiles.PathsDistinct | GetPages.py:132-136 | the five data files are five different paths |
| DataFiles.Wiped | GetPages.py:105-121 | after `wipe_data`, `Data` exists, none of the five files exists, the columns read empty, and every other file is as before |
| DataFiles.WipedIdempotent | TopPages.py:71-87 | wiping twice is the same as wiping once |
| DataFiles.RemoveIfPresent | GetPages.py:112-121 | one existence test and removal: the file at that path is gone afterwards, and no other file or directory changes |
| DataFiles.WipeData | GetPages.py:105-121 | the method leaves exactly the wiped disk |
| DataFiles.OpenedFilesColumns | GetPages.py:132-136 | after the five opens all five files exist; they read empty after `"w"` and as before after `"a"` |
| DataFiles.OpenedFilesElsewhere | TopPages.py:100-104 | the five opens change no other file |
| DataFiles.OpenAll | GetPages.py:132-136 | the method opens the five files and nothing else changes |
| DataFiles.RowWrittenColumns | GetPages.py:141-150 | one row adds its key, clicks, impressions, CTR and position lines to the five columns |
| DataFiles.RowsWrittenColumns | GetPages.py:139-150 | the row loop grows the columns of the five files by the rows, in order |
| DataFiles.RowsWrittenElsewhere | GetPages.py:139-150 | the row loop changes no file outside the five |
| DataFiles.RowsWrittenAppend | GetPages.py:139-150 | writing xs and then ys equals writing xs + ys |
| DataFiles.WriteRows | TopPages.py:107-118 | the loop leaves the five files with the old columns plus one line per row each, and nothing else changed |
| Tables.WriteRecords | GetCharts.py:106-119 | the loop appends exactly the rows' records, in order, to the open table |
| GetKeywords.QueriesAt | GetKeywords.py:55-70 | one query per URL, and query k is that URL's keyword query with a page filter |
| GetKeywords.TablePathShape | GetKeywords.py:109-121 | the table sits directly in `<output_dir>/Pages/<folder>`, ends in `.csv` and has a bounded length |
| GetKeywords.Table | GetKeywords.py:140-158 | the CSV table of one answer: the header records, then one record per row; its shape is stated by TableShape |
| GetKeywords.TableShape | GetKeywords.py:140-158 | three header records (labels, start and end date, column names), then exactly one record per row, in order, with the row's key first |
| GetKeywords.WriteTable | GetKeywords.py:127-160 | the file is overwritten with exactly that table; no other file changes |
| GetKeywords.WriteHeader | GetKeywords.py:141-143 | the three header records are written into the freshly opened file |
| GetKeywords.Successes | GetKeywords.py:85-96 | the cursor never passes the number of callbacks |
| GetKeywords.CursorAttribution | GetKeywords.py:85-96 | after k callbacks the cursor is at most k, and it equals k exactly when none of them carried an exception |
| GetKeywords.UsedUrlsPrefix | GetKeywords.py:93-96 | the URLs the callbacks use are the first n lines, where n counts the callbacks without an exception |
| GetKeywords.Answers | GetKeywords.py:85-96 | the responses of the callbacks without an exception, in order; there is one per such callback |
| GetKeywords.UsedUrlsLength | GetKeywords.py:93-96 | the callbacks take one URL per callback without an exception |
| GetKeywords.DeliverAll | GetKeywords.py:98-124 | answer k delivered for URL k, one after another |
| GetKeywords.ReplayDeliversUsed | GetKeywords.py:83-124 | the callbacks leave the disk as the answers delivered in order for the URLs they take |
| GetKeywords.ReplayAttribution | GetKeywords.py:83-124 | all callbacks leave the disk as answer k delivered for line k, for every k below the number of answers, whichever request each answer belongs to |
| GetKeywords.FailureShiftsAttribution | GetKeywords.py:85-96 | for URLs a and b, an exception for a followed by an answer for b leaves the disk as that answer delivered for a |
| GetKeywords.Deliver | GetKeywords.py:98-124 | the disk after one answered callback: the URL's folder and table when the answer has rows, otherwise unchanged; DeliverChanges bounds what it changes |
| GetKeywords.Replay | GetKeywords.py:83-124 | the disk after the callbacks in order: an exception changes nothing, an answer is delivered for the URL under the cursor; ReplayAttribution states the result |
| GetKeywords.DeliverChanges | GetKeywords.py:98-124 | one callback changes at most the table of the URL under the cursor, and removes nothing |
| GetKeywords.ReplayWritesTables | GetKeywords.py:83-124 | after all callbacks every changed file is the table of one of the URLs the cursor reached |
| GetKeywords.Session.constructor | GetKeywords.py:43-50 | the session starts with the URL lines and the cursor at 0 |
| GetKeywords.Session.HandleRequest | GetKeywords.py:83-124 | the cursor advances by one on an answer and stays put on an exception; the disk is as one delivery to the URL under the old cursor leaves it |
| GetKeywords.ExecuteBatch | GetKeywords.py:74 | executing a batch records it, and its callbacks deliver the next replies in order |
| GetKeywords.AddUrl | GetKeywords.py:57-77 | one pass of the URL loop: add the query; on the fifth, execute, sleep and start a fresh batch |
| GetKeywords.AddUrls | GetKeywords.py:55-77 | after the loop every URL is added and the batch holds fewer than 5 queries |
| GetKeywords.ExecuteRest | GetKeywords.py:79-80 | the remainder is executed only when non-empty; all replies are then delivered |
| GetKeywords.Run | GetKeywords.py:41-80 | the events are exactly the batching schedule of the URLs' queries; the disk is as all callbacks leave it; the cursor ends at the number of answers |
| GetPages.QueriesAt | GetPages.py:46-68 | one query per URL, sent to that URL's site root, with a page filter on the URL |
| GetPages.Deliver | GetPages.py:85-100 | the disk after one callback: `append_data` of the answer's rows, or unchanged after an exception or without rows; its contract is DeliverSpec |
| GetPages.DeliverSpec | GetPages.py:85-100 | an exception or an answer without `rows` leaves the disk unchanged; otherwise all five files exist, their columns grow by the rows, and nothing else changes |
| GetPages.AppendData | GetPages.py:124-156 | `append_data` opens the five files for appending and grows each by one line per row, keeping the old lines as a prefix |
| GetPages.HandleRequest | GetPages.py:85-100 | the callback leaves exactly the disk one delivery describes |
| GetPages.ReplayColumns | GetPages.py:85-100 | all callbacks together grow the columns by all the rows of all the answers, in order |
| GetPages.ReplayElsewhere | GetPages.py:124-156 | the callbacks change no other file and no directory |
| GetPages.ReplayPresent | GetPages.py:95-97 | the five files exist if some answer had rows; otherwise the callbacks leave the disk unchanged |
| GetPages.RunOutcome | GetPages.py:39-81 | after the wipe and all callbacks the five files hold exactly the rows of all answers, aligned, with line k describing row k; they exist exactly when some answer had rows; every other file is as before |
| GetPages.ExecuteBatch | GetPages.py:75 | executing a batch records it, and its callbacks deliver the next replies in order |
| GetPages.AddUrl | GetPages.py:49-78 | one pass of the URL loop: add the query; on the fifth, execute, sleep and start a fresh batch |
| GetPages.AddUrls | GetPages.py:46-78 | after the loop every URL is added and the batch holds fewer than 5 queries |
| GetPages.ExecuteRest | GetPages.py:80-81 | the remainder is executed only when non-empty; all replies are then delivered |
| GetPages.Run | GetPages.py:33-81 | the wipe comes first; the events are exactly the batching schedule of the URLs' queries; the disk is as all callbacks leave the wiped disk |
| AllPages.NotIgnored | AllPages.py:69-73 | the `lContinue` loop answers true exactly when no ignore-list entry is a prefix of the site URL |
| AllPages.Step | AllPages.py:64-108 | one pass of the site loop over the scan so far; StepCases states its cases |
| AllPages.Scanned | AllPages.py:63-108 | the site loop over the sites, pass after pass; ScannedSpec states the result |
| AllPages.StepCases | AllPages.py:64-108 | after a failed request, and for a rejected or ignored site, nothing changes; an accepted site is appended to the ignore list and queried once; the run has failed exactly when that request raised; after an exception or an answer without `rows` no row is written |
| AllPages.Kept | AllPages.py:89-106 | the rows of one answer that the rows loop writes, given `lURLList`; the Kept lemmas state its properties |
| AllPages.KeptFresh | AllPages.py:96-106 | the keys written for one answer are new and distinct from each other |
| AllPages.KeptCovers | AllPages.py:90-106 | every key of the answer is written or was already in `lURLList` |
| AllPages.KeptSubSeq | AllPages.py:90-106 | the rows written are the answer's rows in their order, some left out |
| AllPages.KeptFirst | AllPages.py:96-106 | the first row with a key not seen before is written |
| AllPages.KeptAppend | AllPages.py:89-106 | keeping the rows of two answers in turn is keeping their concatenation: the second answer is filtered against the keys kept from the first as well |
| AllPages.WriteNew | AllPages.py:89-106 | the rows loop appends the kept rows' keys to `lURLList` and one line per kept row to each of the five files |
| AllPages.ScannedExtends | AllPages.py:76 | the ignore list only grows: the initial list stays a prefix |
| AllPages.ScannedNoPrefixes | AllPages.py:69-76 | no accepted site lies under an entry that was on the list before it |
| AllPages.ScannedQueried | AllPages.py:76-85 | exactly one query per accepted site, in order, for that site's URL |
| AllPages.ScannedKeys | AllPages.py:96-106 | `lURLList` is exactly the key column written, and holds no key twice |
| AllPages.ScannedCovered | AllPages.py:89-106 | every key in every answer received ends up in `lURLList` |
| AllPages.ScannedCoversSites | AllPages.py:63-76 | unless a request failed, every site that passes the two tests is under some entry of the final ignore list, so a later site equal to or under it is passed over |
| AllPages.ScannedAfterFailure | AllPages.py:79-85 | once a request has failed, the remaining sites change nothing: the script has stopped |
| AllPages.ScannedStops | AllPages.py:79-85 | every request but the last was answered, and the run has failed exactly when the last one raised |
| AllPages.ScannedRows | AllPages.py:63-106 | across sites, the rows written are all answers' rows one after another, filtered as one answer against an empty `lURLList` |
| AllPages.ScannedOrder | AllPages.py:63-106 | over the whole run, the rows written keep the order of all answers' rows; the first row with each key is written; every key of every answer is in `lURLList`, and every key there came from some answer |
| AllPages.ScannedSpec | AllPages.py:63-108 | for the whole site loop: ScannedExtends, ScannedNoPrefixes, ScannedQueried, ScannedStops, ScannedKeys, ScannedCovered and ScannedRows, and every site passing the two tests is covered unless a request failed |
| AllPages.TempFiles | AllPages.py:100-106 | the key column of the five `Temp` files is `lURLList`; the columns are aligned, hold no key twice, and line k describes written row k |
| AllPages.AcceptSite | AllPages.py:74-108 | an accepted site is appended to the ignore list and queried once; its new rows are written, none after an exception, which is reported to the caller |
| AllPages.VisitSite | AllPages.py:64-108 | one pass of the site loop leaves exactly the state of one Step, and reports whether its request failed |
| AllPages.Run | AllPages.py:43-114 | the ignore list, `lURLList`, the requests and the five `Temp` files are exactly those of the site loop over the account's sites; an exception from a request ends the loop where it stands |
| GetCharts.ChartPaths | GetCharts.py:42-69 | both tables are in the output folder under the sanitised name, which is free of the four characters and as long as the URI; the two paths differ |
| GetCharts.ChartTableShape | GetCharts.py:103-119 | one header record, then exactly one record per row, in order, with the row's key first |
| GetCharts.WriteTable | GetCharts.py:88-121 | the file is overwritten with exactly that table; no other file changes |
| GetCharts.Charted | GetCharts.py:39-71 | the disk after `main` given the two outcomes; an exception from the date request means no keyword request; ChartedSpec states the result |
| GetCharts.ChartedSpec | GetCharts.py:39-71 | the output folder exists; the date table holds its records when the date request was answered with rows; the keyword table holds its records when both requests were answered and the second had rows; otherwise each table is as before; no other file changes |
| GetCharts.Run | GetCharts.py:33-71 | the date request comes first; the keyword request follows it exactly when the date request did not raise, and nothing else is sent; the disk is as the two outcomes leave it |
| TopPages.Published | TopPages.py:47-54 | the disk after `main` given the request's outcome: unchanged after an exception, else wiped and then written when the answer has rows; PublishedSpec states the result |
| TopPages.PublishedSpec | TopPages.py:47-54 | an exception from the request leaves the disk as it was, old `Data` files included; after an answer and the wipe: without rows none of the five files exists; with rows all five hold exactly one line per row, line k describing row k; other files unchanged |
| TopPages.WriteData | TopPages.py:90-124 | `write_data` overwrites the five files with exactly one line per row each |
| TopPages.Run | TopPages.py:34-54 | exactly one request, with `rowLimit` the `page_num` argument as given; an exception from it leaves the disk unchanged; after an answer, the wipe, then the write only when the answer has rows |

## Left out

- OAuth and building the service (`sample_tools.init`) are not modelled.
  The service is a trace of events; its answers are the `replies` and
  `serve` parameters.
- The network is not modelled. The model assumes `BatchHttpRequest`
  callbacks run during `execute()`, in the order the queries were added,
  one reply per query.
- `sites().list()` is not modelled. Its `siteEntry` list is the `sites`
  parameter of `AllPages.Run`.
- `time.sleep` is a recorded event only. Its duration (0.5 s in
  `GetKeywords.py`, 1 s in `GetPages.py`) is not modelled.
- Numeric formatting (`%.0f`, `%.3f` of `ctr*100`, `%.9f`) is floating-point
  work. A `Formatter` parameter stands for it; only the appended `%` is
  modelled.
- CSV quoting and escaping and the UTF-8 `encode` are not modelled. A CSV
  file is a sequence of records, each a sequence of cells.
- Reading the URL file and the ignore-list file, with `rstrip('\n')`, is not
  modelled. The URLs arrive as a sequence of lines. The ignore list is the
  lines stored in the file map.
- argparse and `print` diagnostics are not modelled.
- `os.path.exists`, `os.makedirs` and `open` are abstract: a path either is
  a file in the map or is in the directory set.
  - Opening a file inside a missing directory does not fail in the model.
    `Temp/` in `AllPages.py` is never created by the script.
  - `makedirs` is modelled as adding the one directory, without its parents.
- GetKeywords.Session.HandleRequest: requires the cursor to be inside the
  URL list when an answer arrives. The script would raise `IndexError`
  there, and that crash is not modelled. `GetKeywords.Run` requires one
  reply per URL, which keeps the cursor in range.
- The module doc comment of `GetKeywords.py` (line 6) says `=` and `&` are
  removed from folder names. The code does not remove them, and the model
  follows the code.
- A synchronous `execute()` that raises (a site query of `AllPages.py`,
  either query of `GetCharts.py`, the query of `TopPages.py`) is an
  `Outcome` of `Failed` in the model: the script stops there and keeps what
  it wrote before. The traceback, and the closing of open files on exit,
  are not modelled.
- A failed `sites().list()` in `AllPages.py` (line 43) is not modelled,
  since `sites` is a parameter; it would stop the script before anything is
  read or written.
- DataFiles.RemoveIfPresent: tests only whether a file is at the path. When
  one of the five paths is a directory, `os.path.exists` is true and
  `os.remove` raises; the model does not capture that error.
