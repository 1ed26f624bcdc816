/**
 * AllPages.py: walk the account's sites in `siteEntry` order, skip sites the
 * user cannot read, `sc-set:` sets and sites under an ignore-list prefix,
 * add every accepted site to the ignore list, query its pages, and write
 * every page key not written before as one line of each of the five files
 * under `Temp/`.
 */
module AllPages {
  import opened Wrappers
  import opened Strings
  import opened Reports
  import opened Files
  import opened DataFiles
  import opened Service

  /** An entry of `sites().list()`'s `siteEntry`. */
  datatype Site = Site(siteUrl: string, permissionLevel: string)

  /** The command-line arguments the model uses. */
  datatype Flags = Flags(startDate: string, endDate: string, ignorePath: string)

  /** The two tests of the outer loop: unverified users and `sc-set:` sets are passed over. */
  predicate Rejected(site: Site) {
    Contains(site.permissionLevel, "siteUnverifiedUser") || Contains(site.siteUrl, "sc-set:")
  }

  /** Some entry of the ignore list is a prefix of `url`. */
  predicate Ignored(ignore: seq<string>, url: string) {
    exists k :: 0 <= k < |ignore| && StartsWith(url, ignore[k])
  }

  /** The query for an accepted site: the top 5000 pages over the date range. */
  function SiteQuery(flags: Flags, url: string): Query {
    Query(url, Body(flags.startDate, flags.endDate, ["page"], [], Some(Count(5000))))
  }

  /** The rows of a site's answer: none when the request failed or `rows` is absent. */
  function RowsOf(o: Outcome): seq<Row> {
    match o
    case Failed(_) => []
    case Answered(resp) => if resp.rows.Some? then resp.rows.value else []
  }

  /** The key cells of rows, in order. */
  function KeysOf(rows: seq<Row>): seq<string> {
    if rows == [] then [] else KeysOf(rows[..|rows| - 1]) + [Key(rows[|rows| - 1])]
  }

  /** No value occurs twice. */
  predicate NoDup(xs: seq<string>) {
    forall i, j :: 0 <= i < j < |xs| ==> xs[i] != xs[j]
  }

  // ---------------------------------------------------------------------------
  // The rows loop: duplicates are skipped against lURLList
  // ---------------------------------------------------------------------------

  /** The rows of one response that get written, given the keys `seen` so far. */
  function Kept(seen: seq<string>, rows: seq<Row>): seq<Row> {
    if rows == [] then []
    else
      var p := Kept(seen, rows[..|rows| - 1]);
      if Key(rows[|rows| - 1]) in seen + KeysOf(p) then p else p + [rows[|rows| - 1]]
  }

  /** `xs` is `ys` with some elements left out. */
  predicate SubSeq<T(==)>(xs: seq<T>, ys: seq<T>)
    decreases |ys|
  {
    if xs == [] then true
    else if ys == [] then false
    else (xs[|xs| - 1] == ys[|ys| - 1] && SubSeq(xs[..|xs| - 1], ys[..|ys| - 1])) || SubSeq(xs, ys[..|ys| - 1])
  }

  lemma {:induction false} KeysOfAt(rows: seq<Row>)
    ensures |KeysOf(rows)| == |rows|
    ensures forall k :: 0 <= k < |rows| ==> KeysOf(rows)[k] == Key(rows[k])
  {
    if rows != [] {
      KeysOfAt(rows[..|rows| - 1]);
    }
  }

  lemma {:induction false} KeysOfAppend(xs: seq<Row>, ys: seq<Row>)
    ensures KeysOf(xs + ys) == KeysOf(xs) + KeysOf(ys)
    decreases |ys|
  {
    if ys == [] {
      assert xs + ys == xs;
    } else {
      KeysOfAppend(xs, ys[..|ys| - 1]);
      assert (xs + ys)[..|xs + ys| - 1] == xs + ys[..|ys| - 1];
    }
  }

  lemma NoDupSnoc(xs: seq<string>, x: string)
    requires NoDup(xs) && x !in xs
    ensures NoDup(xs + [x])
  {
  }

  /** With distinct keys so far, the kept rows add only new keys, each once. */
  lemma {:induction false} KeptFresh(seen: seq<string>, rows: seq<Row>)
    requires NoDup(seen)
    ensures NoDup(seen + KeysOf(Kept(seen, rows)))
  {
    if rows != [] {
      var p := Kept(seen, rows[..|rows| - 1]);
      var r := rows[|rows| - 1];
      KeptFresh(seen, rows[..|rows| - 1]);
      if Key(r) !in seen + KeysOf(p) {
        assert KeysOf(p + [r]) == KeysOf(p) + [Key(r)] by { assert (p + [r])[..|p|] == p; }
        assert seen + KeysOf(p + [r]) == (seen + KeysOf(p)) + [Key(r)];
        NoDupSnoc(seen + KeysOf(p), Key(r));
      }
    }
  }

  /** The kept rows of a longer response begin with those of its prefix. */
  lemma KeptGrows(seen: seq<string>, rows: seq<Row>)
    requires rows != []
    ensures var p := Kept(seen, rows[..|rows| - 1]); var q := Kept(seen, rows);
      q == p || q == p + [rows[|rows| - 1]]
  {
  }

  /** Every key of the response ends up among the keys written. */
  lemma {:induction false} KeptCovers(seen: seq<string>, rows: seq<Row>)
    ensures forall j :: 0 <= j < |rows| ==> Key(rows[j]) in seen + KeysOf(Kept(seen, rows))
  {
    if rows != [] {
      var prefix := rows[..|rows| - 1];
      var p := Kept(seen, prefix);
      var r := rows[|rows| - 1];
      KeptCovers(seen, prefix);
      KeptGrows(seen, rows);
      KeysOfAppend(p, [r]);
      assert KeysOf([r]) == [Key(r)] by { assert [r][..0] == []; }
      forall j | 0 <= j < |rows| ensures Key(rows[j]) in seen + KeysOf(Kept(seen, rows)) {
        if j < |prefix| {
          assert rows[j] == prefix[j];
        }
      }
    }
  }

  /** The kept rows are rows of the response, in the response's order. */
  lemma {:induction false} KeptSubSeq(seen: seq<string>, rows: seq<Row>)
    ensures SubSeq(Kept(seen, rows), rows)
  {
    if rows != [] {
      var prefix := rows[..|rows| - 1];
      var p := Kept(seen, prefix);
      KeptSubSeq(seen, prefix);
      KeptGrows(seen, rows);
      if Kept(seen, rows) == p + [rows[|rows| - 1]] {
        assert (p + [rows[|rows| - 1]])[..|p|] == p;
      } else if p != [] {
        assert SubSeq(p, rows[..|rows| - 1]);
      }
    }
  }

  /** Every key written is the key of a row of the response. */
  lemma {:induction false} KeysOfKept(seen: seq<string>, rows: seq<Row>)
    ensures forall x :: x in KeysOf(Kept(seen, rows)) ==> exists i :: 0 <= i < |rows| && Key(rows[i]) == x
  {
    if rows != [] {
      var prefix := rows[..|rows| - 1];
      var p := Kept(seen, prefix);
      var r := rows[|rows| - 1];
      KeysOfKept(seen, prefix);
      KeptGrows(seen, rows);
      assert KeysOf(p + [r]) == KeysOf(p) + [Key(r)] by { assert (p + [r])[..|p|] == p; }
      forall x | x in KeysOf(Kept(seen, rows)) ensures exists i :: 0 <= i < |rows| && Key(rows[i]) == x {
        if x in KeysOf(p) {
          var i :| 0 <= i < |prefix| && Key(prefix[i]) == x;
          assert rows[i] == prefix[i];
        } else {
          assert Key(rows[|rows| - 1]) == x;
        }
      }
    }
  }

  /** The first row with a key not seen before is always written. */
  lemma {:induction false} KeptFirst(seen: seq<string>, rows: seq<Row>, j: nat)
    requires j < |rows| && Key(rows[j]) !in seen
    requires forall i :: 0 <= i < j ==> Key(rows[i]) != Key(rows[j])
    ensures rows[j] in Kept(seen, rows)
  {
    var prefix := rows[..|rows| - 1];
    KeptGrows(seen, rows);
    if j < |prefix| {
      assert prefix[j] == rows[j];
      KeptFirst(seen, prefix, j);
    } else {
      var p := Kept(seen, prefix);
      KeysOfKept(seen, prefix);
      forall i | 0 <= i < |prefix| ensures Key(prefix[i]) != Key(rows[j]) {
        assert prefix[i] == rows[i];
      }
    }
  }

  // ---------------------------------------------------------------------------
  // The site loop
  // ---------------------------------------------------------------------------

  /**
   * What the site loop has built so far: the ignore list, `lURLList`, the
   * rows written to the five files, the queries sent, and whether the last
   * request failed, which ends the script.
   */
  datatype Scan = Scan(ignore: seq<string>, urls: seq<string>, rows: seq<Row>, queries: seq<Query>, failed: bool)

  /**
   * One pass of the site loop; `serve` answers the site's query. Once a
   * request has failed the script has stopped, and later passes change nothing.
   */
  function Step(flags: Flags, serve: Query -> Outcome, s: Scan, site: Site): Scan {
    if s.failed || Rejected(site) || Ignored(s.ignore, site.siteUrl) then s
    else
      var q := SiteQuery(flags, site.siteUrl);
      var o := serve(q);
      var kept := Kept(s.urls, RowsOf(o));
      Scan(s.ignore + [site.siteUrl], s.urls + KeysOf(kept), s.rows + kept, s.queries + [q], o.Failed?)
  }

  /** The site loop over `sites`, from `s0`. */
  function Scanned(flags: Flags, serve: Query -> Outcome, s0: Scan, sites: seq<Site>): Scan {
    if sites == [] then s0 else Step(flags, serve, Scanned(flags, serve, s0, sites[..|sites| - 1]), sites[|sites| - 1])
  }

  /** The state before the loop: the ignore list as read, nothing written or sent yet. */
  function Start(ignore0: seq<string>): Scan {
    Scan(ignore0, [], [], [], false)
  }

  /** `os.path.isfile(...)` then read its lines; a missing file gives an empty list. */
  function InitialIgnoreList(files: map<string, seq<string>>, path: string): seq<string> {
    Lookup(files, path)
  }

  /** The ignore list only grows, by the accepted sites. */
  predicate Extends(ignore0: seq<string>, s: Scan) {
    |ignore0| <= |s.ignore| && s.ignore[..|ignore0|] == ignore0
  }

  /** `lURLList` is the key column of the rows written, and holds no key twice. */
  predicate KeysDistinct(s: Scan) {
    s.urls == KeysOf(s.rows) && NoDup(s.urls)
  }

  /** No accepted site lies under an entry that was on the list before it. */
  predicate NoPrefixes(ignore0: seq<string>, s: Scan) {
    forall m, n :: 0 <= m < n < |s.ignore| && |ignore0| <= n ==> !StartsWith(s.ignore[n], s.ignore[m])
  }

  /** One query per accepted site, in order. */
  predicate QueriedAccepted(flags: Flags, ignore0: seq<string>, s: Scan) {
    |ignore0| + |s.queries| == |s.ignore|
    && forall m :: 0 <= m < |s.queries| ==> s.queries[m] == SiteQuery(flags, s.ignore[|ignore0| + m])
  }

  /** Every key in every answer received is in `lURLList`. */
  predicate Covered(serve: Query -> Outcome, s: Scan) {
    forall m, row :: 0 <= m < |s.queries| && row in RowsOf(serve(s.queries[m])) ==> Key(row) in s.urls
  }

  lemma StepExtends(flags: Flags, serve: Query -> Outcome, ignore0: seq<string>, s: Scan, site: Site)
    requires Extends(ignore0, s)
    ensures Extends(ignore0, Step(flags, serve, s, site))
  {
    var t := Step(flags, serve, s, site);
    if t != s {
      assert t.ignore[..|ignore0|] == s.ignore[..|ignore0|];
    }
  }

  lemma StepKeys(flags: Flags, serve: Query -> Outcome, s: Scan, site: Site)
    requires KeysDistinct(s)
    ensures KeysDistinct(Step(flags, serve, s, site))
  {
    if !(s.failed || Rejected(site) || Ignored(s.ignore, site.siteUrl)) {
      var kept := Kept(s.urls, RowsOf(serve(SiteQuery(flags, site.siteUrl))));
      KeptFresh(s.urls, RowsOf(serve(SiteQuery(flags, site.siteUrl))));
      KeysOfAppend(s.rows, kept);
    }
  }

  lemma StepNoPrefixes(flags: Flags, serve: Query -> Outcome, ignore0: seq<string>, s: Scan, site: Site)
    requires NoPrefixes(ignore0, s)
    ensures NoPrefixes(ignore0, Step(flags, serve, s, site))
  {
    var t := Step(flags, serve, s, site);
    if t != s {
      forall m, n | 0 <= m < n < |t.ignore| && |ignore0| <= n
        ensures !StartsWith(t.ignore[n], t.ignore[m])
      {
        if n < |s.ignore| {
          assert t.ignore[n] == s.ignore[n] && t.ignore[m] == s.ignore[m];
        } else {
          assert t.ignore[m] == s.ignore[m];
          assert !StartsWith(site.siteUrl, s.ignore[m]);
        }
      }
    }
  }

  lemma StepQueried(flags: Flags, serve: Query -> Outcome, ignore0: seq<string>, s: Scan, site: Site)
    requires QueriedAccepted(flags, ignore0, s)
    ensures QueriedAccepted(flags, ignore0, Step(flags, serve, s, site))
  {
  }

  lemma StepCovered(flags: Flags, serve: Query -> Outcome, s: Scan, site: Site)
    requires Covered(serve, s)
    ensures Covered(serve, Step(flags, serve, s, site))
  {
    var t := Step(flags, serve, s, site);
    if t != s {
      var q := SiteQuery(flags, site.siteUrl);
      var rows := RowsOf(serve(q));
      KeptCovers(s.urls, rows);
      forall m, row | 0 <= m < |t.queries| && row in RowsOf(serve(t.queries[m]))
        ensures Key(row) in t.urls
      {
        if m < |s.queries| {
          assert t.queries[m] == s.queries[m];
        } else {
          var j :| 0 <= j < |rows| && rows[j] == row;
        }
      }
    }
  }

  /**
   * What one pass does with a site: after a failed request, or for a rejected
   * or ignored site, nothing changes; an accepted site is appended to the
   * ignore list and queried once, the scan has failed exactly when that
   * request failed, and when it failed or its answer has no `rows` nothing
   * is written.
   */
  lemma StepCases(flags: Flags, serve: Query -> Outcome, s: Scan, site: Site)
    ensures s.failed || Rejected(site) || Ignored(s.ignore, site.siteUrl) ==> Step(flags, serve, s, site) == s
    ensures var r := Step(flags, serve, s, site); var q := SiteQuery(flags, site.siteUrl);
      !s.failed && !Rejected(site) && !Ignored(s.ignore, site.siteUrl) ==>
        && r.ignore == s.ignore + [site.siteUrl] && r.queries == s.queries + [q]
        && (r.failed <==> serve(q).Failed?)
        && (serve(q).Failed? || serve(q).response.rows.None? ==> r.urls == s.urls && r.rows == s.rows)
  {
    var q := SiteQuery(flags, site.siteUrl);
    if !s.failed && !Rejected(site) && !Ignored(s.ignore, site.siteUrl) && (serve(q).Failed? || serve(q).response.rows.None?) {
      assert Kept(s.urls, RowsOf(serve(q))) == [];
    }
  }

  /**
   * The script stops at the first failed request: every query but the last
   * was answered, and the scan has failed exactly when the last one failed.
   */
  predicate StopsAtFailure(serve: Query -> Outcome, s: Scan) {
    && (forall m :: 0 <= m < |s.queries| - 1 ==> serve(s.queries[m]).Answered?)
    && (s.failed <==> |s.queries| > 0 && serve(s.queries[|s.queries| - 1]).Failed?)
  }

  lemma StepStops(flags: Flags, serve: Query -> Outcome, s: Scan, site: Site)
    requires StopsAtFailure(serve, s)
    ensures StopsAtFailure(serve, Step(flags, serve, s, site))
  {
    var t := Step(flags, serve, s, site);
    if t != s {
      forall m | 0 <= m < |t.queries| - 1 ensures serve(t.queries[m]).Answered? {
        assert t.queries[m] == s.queries[m];
      }
    }
  }

  /** Every site that passes the two tests ends up under some entry of the final ignore list, unless a request failed. */
  lemma {:induction false} ScannedCoversSites(flags: Flags, serve: Query -> Outcome, s0: Scan, sites: seq<Site>)
    ensures !Scanned(flags, serve, s0, sites).failed ==>
      forall k :: 0 <= k < |sites| && !Rejected(sites[k]) ==> Ignored(Scanned(flags, serve, s0, sites).ignore, sites[k].siteUrl)
  {
    if sites != [] {
      var prefix := sites[..|sites| - 1];
      var s := Scanned(flags, serve, s0, prefix);
      var t := Scanned(flags, serve, s0, sites);
      var site := sites[|sites| - 1];
      if !t.failed {
        assert !s.failed;
        ScannedCoversSites(flags, serve, s0, prefix);
        assert StartsWith(site.siteUrl, site.siteUrl);
        assert t.ignore == s.ignore || t.ignore == s.ignore + [site.siteUrl];
        forall k | 0 <= k < |sites| && !Rejected(sites[k]) ensures Ignored(t.ignore, sites[k].siteUrl) {
          if k < |prefix| {
            assert sites[k] == prefix[k];
            var i :| 0 <= i < |s.ignore| && StartsWith(sites[k].siteUrl, s.ignore[i]);
            assert t.ignore[i] == s.ignore[i];
          } else if t.ignore != s.ignore {
            assert t.ignore[|s.ignore|] == site.siteUrl;
          }
        }
      }
    }
  }

  /** Once the scan of a prefix of the sites has failed, the rest of the sites change nothing. */
  lemma {:induction false} ScannedAfterFailure(flags: Flags, serve: Query -> Outcome, s0: Scan, sites: seq<Site>, n: nat)
    requires n <= |sites| && Scanned(flags, serve, s0, sites[..n]).failed
    ensures Scanned(flags, serve, s0, sites) == Scanned(flags, serve, s0, sites[..n])
    decreases |sites|
  {
    if n < |sites| {
      var prefix := sites[..|sites| - 1];
      assert prefix[..n] == sites[..n];
      ScannedAfterFailure(flags, serve, s0, prefix, n);
    } else {
      assert sites[..n] == sites;
    }
  }

  lemma {:induction false} ScannedExtends(flags: Flags, serve: Query -> Outcome, ignore0: seq<string>, sites: seq<Site>)
    ensures Extends(ignore0, Scanned(flags, serve, Start(ignore0), sites))
  {
    if sites != [] {
      ScannedExtends(flags, serve, ignore0, sites[..|sites| - 1]);
      StepExtends(flags, serve, ignore0, Scanned(flags, serve, Start(ignore0), sites[..|sites| - 1]), sites[|sites| - 1]);
    }
  }

  lemma {:induction false} ScannedKeys(flags: Flags, serve: Query -> Outcome, ignore0: seq<string>, sites: seq<Site>)
    ensures KeysDistinct(Scanned(flags, serve, Start(ignore0), sites))
  {
    if sites != [] {
      ScannedKeys(flags, serve, ignore0, sites[..|sites| - 1]);
      StepKeys(flags, serve, Scanned(flags, serve, Start(ignore0), sites[..|sites| - 1]), sites[|sites| - 1]);
    }
  }

  lemma {:induction false} ScannedNoPrefixes(flags: Flags, serve: Query -> Outcome, ignore0: seq<string>, sites: seq<Site>)
    ensures NoPrefixes(ignore0, Scanned(flags, serve, Start(ignore0), sites))
  {
    if sites != [] {
      ScannedNoPrefixes(flags, serve, ignore0, sites[..|sites| - 1]);
      StepNoPrefixes(flags, serve, ignore0, Scanned(flags, serve, Start(ignore0), sites[..|sites| - 1]), sites[|sites| - 1]);
    }
  }

  lemma {:induction false} ScannedQueried(flags: Flags, serve: Query -> Outcome, ignore0: seq<string>, sites: seq<Site>)
    ensures QueriedAccepted(flags, ignore0, Scanned(flags, serve, Start(ignore0), sites))
  {
    if sites != [] {
      ScannedQueried(flags, serve, ignore0, sites[..|sites| - 1]);
      StepQueried(flags, serve, ignore0, Scanned(flags, serve, Start(ignore0), sites[..|sites| - 1]), sites[|sites| - 1]);
    }
  }

  lemma {:induction false} ScannedCovered(flags: Flags, serve: Query -> Outcome, ignore0: seq<string>, sites: seq<Site>)
    ensures Covered(serve, Scanned(flags, serve, Start(ignore0), sites))
  {
    if sites != [] {
      ScannedCovered(flags, serve, ignore0, sites[..|sites| - 1]);
      StepCovered(flags, serve, Scanned(flags, serve, Start(ignore0), sites[..|sites| - 1]), sites[|sites| - 1]);
    }
  }

  lemma {:induction false} ScannedStops(flags: Flags, serve: Query -> Outcome, ignore0: seq<string>, sites: seq<Site>)
    ensures StopsAtFailure(serve, Scanned(flags, serve, Start(ignore0), sites))
  {
    if sites != [] {
      ScannedStops(flags, serve, ignore0, sites[..|sites| - 1]);
      StepStops(flags, serve, Scanned(flags, serve, Start(ignore0), sites[..|sites| - 1]), sites[|sites| - 1]);
    }
  }

  /** The rows of the answers to `qs`, answer after answer, each in its own order. */
  function AllRows(serve: Query -> Outcome, qs: seq<Query>): seq<Row> {
    if qs == [] then [] else AllRows(serve, qs[..|qs| - 1]) + RowsOf(serve(qs[|qs| - 1]))
  }

  /** Kept on one more row: the row is added exactly when its key is new. */
  lemma KeptSnoc(seen: seq<string>, rows: seq<Row>, r: Row)
    ensures Key(r) in seen + KeysOf(Kept(seen, rows)) ==> Kept(seen, rows + [r]) == Kept(seen, rows)
    ensures Key(r) !in seen + KeysOf(Kept(seen, rows)) ==> Kept(seen, rows + [r]) == Kept(seen, rows) + [r]
  {
    assert (rows + [r])[..|rows|] == rows;
  }

  lemma SeenAppend(seen: seq<string>, a: seq<Row>, b: seq<Row>)
    ensures seen + KeysOf(a + b) == (seen + KeysOf(a)) + KeysOf(b)
  {
    KeysOfAppend(a, b);
  }

  lemma SnocAssoc(a: seq<Row>, b: seq<Row>, y: Row)
    ensures a + (b + [y]) == (a + b) + [y]
  {
  }

  /** The step of `KeptAppend`: one more row at the end of `ys`. */
  lemma KeptAppendSnoc(seen: seq<string>, xs: seq<Row>, ys: seq<Row>, y: Row)
    requires Kept(seen, xs + ys) == Kept(seen, xs) + Kept(seen + KeysOf(Kept(seen, xs)), ys)
    ensures Kept(seen, xs + (ys + [y])) == Kept(seen, xs) + Kept(seen + KeysOf(Kept(seen, xs)), ys + [y])
  {
    var a := Kept(seen, xs);
    var seen' := seen + KeysOf(a);
    var b := Kept(seen', ys);
    assert xs + (ys + [y]) == (xs + ys) + [y];
    KeptSnoc(seen, xs + ys, y);
    KeptSnoc(seen', ys, y);
    SeenAppend(seen, a, b);
    var k := Kept(seen, xs + (ys + [y]));
    var k' := Kept(seen', ys + [y]);
    if Key(y) in seen' + KeysOf(b) {
      assert k == a + b && k' == b;
    } else {
      assert k == (a + b) + [y] && k' == b + [y];
      SnocAssoc(a, b, y);
    }
    assert k == a + k';
  }

  /** Keeping `xs + ys` is keeping `xs`, then keeping `ys` against the keys kept from `xs` as well. */
  lemma {:induction false} KeptAppend(seen: seq<string>, xs: seq<Row>, ys: seq<Row>)
    ensures Kept(seen, xs + ys) == Kept(seen, xs) + Kept(seen + KeysOf(Kept(seen, xs)), ys)
    decreases |ys|
  {
    if ys == [] {
      assert xs + ys == xs;
    } else {
      var front := ys[..|ys| - 1];
      assert ys == front + [ys[|ys| - 1]];
      KeptAppend(seen, xs, front);
      KeptAppendSnoc(seen, xs, front, ys[|ys| - 1]);
    }
  }

  /**
   * Across sites, the rows written are the answers' rows taken one after
   * another with every key already seen skipped, as if there were one answer.
   */
  lemma {:induction false} ScannedRows(flags: Flags, serve: Query -> Outcome, ignore0: seq<string>, sites: seq<Site>)
    ensures var s := Scanned(flags, serve, Start(ignore0), sites);
      s.rows == Kept([], AllRows(serve, s.queries))
  {
    if sites != [] {
      var prefix := sites[..|sites| - 1];
      var site := sites[|sites| - 1];
      var s := Scanned(flags, serve, Start(ignore0), prefix);
      ScannedRows(flags, serve, ignore0, prefix);
      if !(s.failed || Rejected(site) || Ignored(s.ignore, site.siteUrl)) {
        var q := SiteQuery(flags, site.siteUrl);
        var a := AllRows(serve, s.queries);
        assert (s.queries + [q])[..|s.queries|] == s.queries;
        assert AllRows(serve, s.queries + [q]) == a + RowsOf(serve(q));
        ScannedKeys(flags, serve, ignore0, prefix);
        KeptAppend([], a, RowsOf(serve(q)));
        assert [] + KeysOf(Kept([], a)) == s.urls;
      }
    }
  }

  /**
   * The rows written over the whole run, against all answers' rows in order:
   * they keep that order, the first row with each key is written, every key
   * of every answer is in `lURLList`, and every key there came from an answer.
   */
  lemma ScannedOrder(flags: Flags, serve: Query -> Outcome, ignore0: seq<string>, sites: seq<Site>)
    ensures var s := Scanned(flags, serve, Start(ignore0), sites); var all := AllRows(serve, s.queries);
      && SubSeq(s.rows, all)
      && (forall j :: 0 <= j < |all| && (forall i :: 0 <= i < j ==> Key(all[i]) != Key(all[j])) ==> all[j] in s.rows)
      && (forall j :: 0 <= j < |all| ==> Key(all[j]) in s.urls)
      && (forall x :: x in s.urls ==> exists i :: 0 <= i < |all| && Key(all[i]) == x)
  {
    var s := Scanned(flags, serve, Start(ignore0), sites);
    var all := AllRows(serve, s.queries);
    ScannedRows(flags, serve, ignore0, sites);
    ScannedKeys(flags, serve, ignore0, sites);
    KeptSubSeq([], all);
    KeptCovers([], all);
    KeysOfKept([], all);
    assert [] + KeysOf(Kept([], all)) == s.urls;
    forall j | 0 <= j < |all| && (forall i :: 0 <= i < j ==> Key(all[i]) != Key(all[j])) ensures all[j] in s.rows {
      KeptFirst([], all, j);
    }
  }

  /**
   * After the site loop: the ignore list extends the one read by the accepted
   * sites, none of which lies under an earlier entry; each accepted site was
   * queried once, in order, up to the first failed request, which ends the
   * run; `lURLList` is the key column written and has no duplicates; the rows
   * written are all answers' rows in order with repeated keys skipped; every
   * key of every answer is in `lURLList`; and unless a request failed, every
   * site that passes the two tests is covered by the final list.
   */
  lemma ScannedSpec(flags: Flags, serve: Query -> Outcome, ignore0: seq<string>, sites: seq<Site>)
    ensures var s := Scanned(flags, serve, Start(ignore0), sites);
      && Extends(ignore0, s) && NoPrefixes(ignore0, s) && QueriedAccepted(flags, ignore0, s)
      && StopsAtFailure(serve, s) && KeysDistinct(s) && Covered(serve, s)
      && s.rows == Kept([], AllRows(serve, s.queries))
      && (!s.failed ==> forall k :: 0 <= k < |sites| && !Rejected(sites[k]) ==> Ignored(s.ignore, sites[k].siteUrl))
  {
    ScannedExtends(flags, serve, ignore0, sites);
    ScannedNoPrefixes(flags, serve, ignore0, sites);
    ScannedQueried(flags, serve, ignore0, sites);
    ScannedStops(flags, serve, ignore0, sites);
    ScannedKeys(flags, serve, ignore0, sites);
    ScannedCovered(flags, serve, ignore0, sites);
    ScannedRows(flags, serve, ignore0, sites);
    ScannedCoversSites(flags, serve, Start(ignore0), sites);
  }

  /** The key column of written rows is their keys. */
  lemma {:induction false} AddRowsKeys(c: Columns, fmt: Formatter, rows: seq<Row>)
    ensures AddRows(c, fmt, rows).keys == c.keys + KeysOf(rows)
  {
    if rows != [] {
      AddRowsKeys(c, fmt, rows[..|rows| - 1]);
    }
  }

  /**
   * The five `Temp/` files after a run: line k of each describes written row
   * k, and the key file holds exactly `lURLList`, so every file has
   * len(`lURLList`) lines and no key is written twice.
   */
  lemma TempFiles(files: map<string, seq<string>>, fmt: Formatter, s: Scan)
    requires KeysDistinct(s)
    ensures var c := ReadColumns(RowsWritten(OpenedFiles(files, "Temp", Overwrite), "Temp", fmt, s.rows), "Temp");
      && c.keys == s.urls && Aligned(c) && NoDup(c.keys)
      && forall k :: 0 <= k < |s.rows| ==> DescribesRow(c, k, fmt, s.rows[k])
  {
    var f := OpenedFiles(files, "Temp", Overwrite);
    OpenedFilesColumns(files, "Temp", Overwrite);
    RowsWrittenColumns(f, "Temp", fmt, s.rows);
    AddRowsSpec(NoColumns, fmt, s.rows);
    AddRowsKeys(NoColumns, fmt, s.rows);
  }

  // ---------------------------------------------------------------------------
  // main
  // ---------------------------------------------------------------------------

  /** The inner loop over the ignore list: `lContinue` stays 1 unless an entry is a prefix. */
  method NotIgnored(ignore: seq<string>, url: string) returns (cont: bool)
    ensures cont <==> !Ignored(ignore, url)
  {
    cont := true;
    for i := 0 to |ignore|
      invariant cont <==> forall k :: 0 <= k < i ==> !StartsWith(url, ignore[k])
    {
      if StartsWith(url, ignore[i]) {
        cont := false;
      }
    }
  }

  /** One more row: it is kept exactly when its key is new. */
  lemma KeptStep(seen: seq<string>, rows: seq<Row>, i: nat)
    requires i < |rows|
    ensures var p := Kept(seen, rows[..i]);
      && (Key(rows[i]) in seen + KeysOf(p) ==> Kept(seen, rows[..i + 1]) == p)
      && (Key(rows[i]) !in seen + KeysOf(p) ==> Kept(seen, rows[..i + 1]) == p + [rows[i]])
      && KeysOf(p + [rows[i]]) == KeysOf(p) + [Key(rows[i])]
  {
    var p := Kept(seen, rows[..i]);
    assert rows[..i + 1][..i] == rows[..i] && rows[..i + 1][i] == rows[i];
    assert (p + [rows[i]])[..|p|] == p;
  }

  /** The rows loop: write each row whose key is not in `lURLList` yet, and record the key. */
  method WriteNew(fs: FileStore<string>, fmt: Formatter, urls: seq<string>, rows: seq<Row>) returns (urls': seq<string>)
    requires AllPresent(fs.files, "Temp")
    modifies fs
    ensures urls' == urls + KeysOf(Kept(urls, rows))
    ensures fs.files == RowsWritten(old(fs.files), "Temp", fmt, Kept(urls, rows)) && fs.dirs == old(fs.dirs)
    ensures AllPresent(fs.files, "Temp")
  {
    urls' := urls;
    ghost var kept: seq<Row> := [];
    assert rows[..0] == [];
    for i := 0 to |rows|
      invariant kept == Kept(urls, rows[..i])
      invariant urls' == urls + KeysOf(kept)
      invariant fs.files == RowsWritten(old(fs.files), "Temp", fmt, kept) && fs.dirs == old(fs.dirs)
      invariant AllPresent(fs.files, "Temp")
    {
      KeptStep(urls, rows, i);
      var key := Key(rows[i]);
      if key !in urls' {
        RowsWrittenSnoc(old(fs.files), "Temp", fmt, kept, rows[i]);
        WriteRow(fs, "Temp", fmt, rows[i]);
        urls' := urls' + [key];
        kept := kept + [rows[i]];
      }
    }
    assert rows[..|rows|] == rows;
  }

  /** The run so far matches the scan `s`. */
  ghost predicate Matches(s: Scan, ignore: seq<string>, urls: seq<string>, events: seq<Event>, events0: seq<Event>,
                          files: map<string, seq<string>>, files0: map<string, seq<string>>, fmt: Formatter)
  {
    ignore == s.ignore && urls == s.urls && events == events0 + Requests(s.queries)
    && files == RowsWritten(files0, "Temp", fmt, s.rows) && AllPresent(files, "Temp")
  }

  /** One `Requested` event per query, in order. */
  function Requests(qs: seq<Query>): seq<Event> {
    if qs == [] then [] else Requests(qs[..|qs| - 1]) + [Requested(qs[|qs| - 1])]
  }

  /** One pass of the site loop; `failed` says the site's request failed and the script stops. */
  method VisitSite(flags: Flags, fmt: Formatter, serve: Query -> Outcome, site: Site, fs: FileStore<string>, trace: Trace,
                   ignore: seq<string>, urls: seq<string>, ghost s: Scan, ghost events0: seq<Event>, ghost files0: map<string, seq<string>>)
    returns (ignore': seq<string>, urls': seq<string>, failed: bool)
    requires Matches(s, ignore, urls, trace.events, events0, fs.files, files0, fmt) && !s.failed
    modifies fs, trace
    ensures Matches(Step(flags, serve, s, site), ignore', urls', trace.events, events0, fs.files, files0, fmt)
    ensures failed == Step(flags, serve, s, site).failed
    ensures fs.dirs == old(fs.dirs)
  {
    ignore', urls', failed := ignore, urls, false;
    if !Contains(site.permissionLevel, "siteUnverifiedUser") && !Contains(site.siteUrl, "sc-set:") {
      var cont := NotIgnored(ignore, site.siteUrl);
      if cont {
        ignore', urls', failed := AcceptSite(flags, fmt, serve, site, fs, trace, ignore, urls, s, events0, files0);
      }
    }
  }

  /**
   * An accepted site: extend the ignore list, query the site, write its new
   * rows; a failed request writes nothing and is reported in `failed`.
   */
  method AcceptSite(flags: Flags, fmt: Formatter, serve: Query -> Outcome, site: Site, fs: FileStore<string>, trace: Trace,
                    ignore: seq<string>, urls: seq<string>, ghost s: Scan, ghost events0: seq<Event>, ghost files0: map<string, seq<string>>)
    returns (ignore': seq<string>, urls': seq<string>, failed: bool)
    requires Matches(s, ignore, urls, trace.events, events0, fs.files, files0, fmt)
    requires !s.failed && !Rejected(site) && !Ignored(s.ignore, site.siteUrl)
    modifies fs, trace
    ensures Matches(Step(flags, serve, s, site), ignore', urls', trace.events, events0, fs.files, files0, fmt)
    ensures failed == Step(flags, serve, s, site).failed
    ensures fs.dirs == old(fs.dirs)
  {
    ignore' := ignore + [site.siteUrl];
    var q := SiteQuery(flags, site.siteUrl);
    var o := trace.Request(q, serve);
    RequestsSnoc(s.queries, q);
    failed := o.Failed?;
    if o.Answered? && o.response.rows.Some? {
      urls' := WriteNew(fs, fmt, urls, o.response.rows.value);
    } else {
      urls' := urls;
      assert Kept(urls, RowsOf(o)) == [];
      assert urls + KeysOf([]) == urls && s.rows + [] == s.rows;
    }
    RowsWrittenAppend(files0, "Temp", fmt, s.rows, Kept(urls, RowsOf(o)));
  }

  lemma RequestsSnoc(qs: seq<Query>, q: Query)
    ensures Requests(qs + [q]) == Requests(qs) + [Requested(q)]
  {
    assert (qs + [q])[..|qs|] == qs;
  }

  /**
   * `main` after listing the sites: read the ignore list, open the five
   * `Temp/` files for writing, then the site loop. The result is the scan
   * of the sites from the list read: the final ignore list, `lURLList`, one
   * request per accepted site up to the first that fails, and the five files
   * holding the rows kept. A failed request ends the run where it stands.
   */
  method Run(flags: Flags, fmt: Formatter, serve: Query -> Outcome, sites: seq<Site>, fs: FileStore<string>, trace: Trace)
    returns (ignore: seq<string>, urls: seq<string>)
    modifies fs, trace
    ensures var s := Scanned(flags, serve, Start(InitialIgnoreList(old(fs.files), flags.ignorePath)), sites);
      && ignore == s.ignore && urls == s.urls
      && trace.events == old(trace.events) + Requests(s.queries)
      && fs.files == RowsWritten(OpenedFiles(old(fs.files), "Temp", Overwrite), "Temp", fmt, s.rows)
      && fs.dirs == old(fs.dirs)
  {
    ignore := if flags.ignorePath in fs.files then fs.files[flags.ignorePath] else [];
    ghost var s0 := Start(ignore);
    urls := [];
    OpenAll(fs, "Temp", Overwrite);
    ghost var files0 := fs.files;
    assert sites[..0] == [];
    for i := 0 to |sites|
      invariant Matches(Scanned(flags, serve, s0, sites[..i]), ignore, urls, trace.events, old(trace.events), fs.files, files0, fmt)
      invariant !Scanned(flags, serve, s0, sites[..i]).failed
      invariant fs.dirs == old(fs.dirs)
    {
      assert sites[..i + 1][..i] == sites[..i] && sites[..i + 1][i] == sites[i];
      var failed;
      ignore, urls, failed := VisitSite(flags, fmt, serve, sites[i], fs, trace, ignore, urls,
                                        Scanned(flags, serve, s0, sites[..i]), old(trace.events), files0);
      if failed {
        ScannedAfterFailure(flags, serve, s0, sites, i + 1);
        return;
      }
    }
    assert sites[..|sites|] == sites;
  }
}
