/**
 * The string expressions the scripts apply to page URLs and property URIs:
 * the site root a page belongs to (GetKeywords.py and GetPages.py), the
 * character substitution that turns a URL into a folder or file stem
 * (GetKeywords.py and GetCharts.py), and the keyword table's file name
 * (GetKeywords.py).
 */
module Urls {
  import opened Strings

  // ---------------------------------------------------------------------------
  // Site root: lURL.split("//")[0] + "//" + lURL.split("//")[-1].split("/")[0]
  // ---------------------------------------------------------------------------

  /** The text before the first `//` (the scheme with its colon, for a full URL). */
  function SchemePart(url: string): string {
    Split(url, "//")[0]
  }

  /** The first `/`-segment of the last piece of the split at `//` (the host, for a full URL). */
  function HostPart(url: string): string {
    Split(Last(Split(url, "//")), "/")[0]
  }

  /** The Search Console property a page is queried under. */
  function SiteRoot(url: string): string {
    var pieces := Split(url, "//");
    pieces[0] + "//" + Split(pieces[|pieces| - 1], "/")[0]
  }

  /** The scheme part ends where `//` first occurs, or is the whole URL. */
  lemma SchemePartShape(url: string)
    ensures var scheme := SchemePart(url);
      && StartsWith(url, scheme)
      && (forall k :: 0 <= k < |scheme| ==> !OccursAt(url, "//", k))
      && (scheme == url <==> !Contains(url, "//"))
      && (Contains(url, "//") ==> OccursAt(url, "//", |scheme|))
  {
    var pieces := Split(url, "//");
    SplitHead(url, "//");
    if |pieces| > 1 {
      assert pieces[0] != url;
    }
  }

  /** The last piece of the split at `//` is a `//`-free suffix right after a `//`, or the whole URL. */
  lemma LastPieceShape(url: string)
    ensures var tail := Last(Split(url, "//"));
      && EndsWith(url, tail) && !Contains(tail, "//")
      && (Contains(url, "//") ==> EndsWith(url[..|url| - |tail|], "//"))
      && (!Contains(url, "//") ==> tail == url)
  {
    var pieces := Split(url, "//");
    SplitHead(url, "//");
    SplitLast(url, "//");
    if |pieces| == 1 {
      assert Last(pieces) == pieces[0];
    }
  }

  /** The host part is the `/`-free text of the last piece up to its first `/`. */
  lemma HostPartShape(url: string)
    ensures var tail := Last(Split(url, "//")); var host := HostPart(url);
      && StartsWith(tail, host) && '/' !in host
      && (host == tail || tail[|host|] == '/')
  {
    var tail := Last(Split(url, "//"));
    SplitHead(tail, "/");
    var host := HostPart(url);
    forall k | 0 <= k < |host| ensures host[k] != '/' {
      OccursChar(tail, '/', k);
      assert tail[k] == host[k];
    }
    if host != tail {
      assert |Split(tail, "/")| > 1;
      OccursChar(tail, '/', |host|);
    }
  }

  /**
   * The site root is the text before the first `//`, then `//`, then the
   * first `/`-segment of the last piece of the split at `//`: the first part
   * is the prefix of the URL that ends where `//` first occurs; the last
   * piece is a `//`-free suffix of the URL right after an occurrence of `//`
   * (or the whole URL), and the second part is that piece cut at its first `/`.
   */
  lemma {:induction false} SiteRootParts(url: string)
    ensures SiteRoot(url) == SchemePart(url) + "//" + HostPart(url)
    ensures var scheme := SchemePart(url);
      && StartsWith(url, scheme)
      && (forall k :: 0 <= k < |scheme| ==> !OccursAt(url, "//", k))
      && (scheme == url <==> !Contains(url, "//"))
      && (Contains(url, "//") ==> OccursAt(url, "//", |scheme|))
    ensures var tail := Last(Split(url, "//")); var host := HostPart(url);
      && EndsWith(url, tail) && !Contains(tail, "//")
      && (Contains(url, "//") ==> EndsWith(url[..|url| - |tail|], "//"))
      && (!Contains(url, "//") ==> tail == url)
      && StartsWith(tail, host) && '/' !in host
      && (host == tail || tail[|host|] == '/')
  {
    SchemePartShape(url);
    LastPieceShape(url);
    HostPartShape(url);
  }

  /** For `scheme://host/path` with no `//` in the path, the site root is `scheme://host`. */
  lemma SiteRootOfUrl(scheme: string, host: string, path: string)
    requires '/' !in scheme && '/' !in host
    requires path == "" || path[0] == '/'
    requires !Contains(path, "//")
    ensures SiteRoot(scheme + "//" + host + path) == scheme + "//" + host
  {
    var rest := host + path;
    assert scheme + "//" + host + path == scheme + "//" + rest;
    SplitCons(scheme, "//", rest);
    forall k | 0 <= k <= |rest| ensures !OccursAt(rest, "//", k) {
      if k < |host| {
        OccursHead(rest, "//", k);
        assert rest[k] == host[k];
      } else {
        ShiftOccurrence(host, path, "//", k);
      }
    }
    SplitWhole(rest, "//");
    if path == "" {
      assert rest == host;
      forall k | 0 <= k <= |host| ensures !OccursAt(host, "/", k) {
        OccursChar(host, '/', k);
      }
      SplitWhole(host, "/");
    } else {
      assert rest == host + "/" + path[1..];
      SplitCons(host, "/", path[1..]);
    }
  }

  /**
   * A `//` inside the path moves the site root: the host is taken after the
   * last `//`, so `http://a.example//b.example` is queried as `http://b.example`.
   */
  lemma SiteRootAfterLastDoubleSlash(scheme: string, host: string, other: string)
    requires '/' !in scheme && '/' !in host && '/' !in other
    ensures SiteRoot(scheme + "//" + host + "//" + other) == scheme + "//" + other
  {
    var parts := [scheme, host, other];
    assert Join(parts, "//") == scheme + "//" + host + "//" + other by {
      JoinCons(host, [other], "//");
      assert [host] + [other] == parts[1..];
      JoinCons(scheme, [host, other], "//");
      assert [scheme] + [host, other] == parts;
    }
    JoinSplit(parts, "//");
    forall k | 0 <= k <= |other| ensures !OccursAt(other, "/", k) {
      OccursChar(other, '/', k);
    }
    SplitWhole(other, "/");
  }

  /**
   * Overlapping slashes split left to right, as Python's `split` does:
   * `http:///x` splits into `http:` and `/x`, so its site root is `http://`.
   */
  lemma SiteRootOverlap()
    ensures Split("http:///x", "//") == ["http:", "/x"]
    ensures SiteRoot("http:///x") == "http://"
  {
    assert !Contains("/x", "//") by {
      forall j | 0 <= j <= 2 ensures !OccursAt("/x", "//", j) {
        if j == 0 { assert "/x"[0..][..2] == "/x"; }
      }
    }
    SplitWhole("/x", "//");
    SplitCons("http:", "//", "/x");
    assert "http:" + "//" + "/x" == "http:///x";
    SplitCons("", "/", "x");
    assert "" + "/" + "x" == "/x";
  }

  /** An occurrence past the end of `a` in `a + b` is an occurrence in `b`. */
  lemma ShiftOccurrence(a: string, b: string, t: string, k: int)
    requires |a| <= k
    ensures OccursAt(a + b, t, k) ==> OccursAt(b, t, k - |a|)
  {
    if |a| <= k <= |a + b| {
      assert (a + b)[k..] == b[k - |a|..];
    }
  }

  // ---------------------------------------------------------------------------
  // Sanitising: replace("/", "_"), replace(".", "-"), replace(":", "-"), replace("?", "_")
  // ---------------------------------------------------------------------------

  /** What sanitising does to one character. */
  function SanitiseChar(c: char): char {
    if c == '/' || c == '?' then '_'
    else if c == '.' || c == ':' then '-'
    else c
  }

  /** None of the four characters that sanitising replaces. */
  predicate Clean(s: string) {
    '/' !in s && '.' !in s && ':' !in s && '?' !in s
  }

  /** The chain of four `replace` calls applied to a URL. */
  function Sanitise(url: string): (r: string)
    ensures |r| == |url|
    ensures forall i :: 0 <= i < |url| ==> r[i] == SanitiseChar(url[i])
    ensures Clean(r)
  {
    var s1 := ReplaceChar(url, '/', '_');
    var s2 := ReplaceChar(s1, '.', '-');
    var s3 := ReplaceChar(s2, ':', '-');
    ReplaceChar(s3, '?', '_')
  }

  /** Sanitising a sanitised string changes nothing. */
  lemma SanitiseIdempotent(url: string)
    ensures Sanitise(Sanitise(url)) == Sanitise(url)
  {
    var s := Sanitise(url);
    assert forall i :: 0 <= i < |s| ==> SanitiseChar(s[i]) == s[i];
  }

  /**
   * GetKeywords.py's page folder: the sanitised URL with one trailing `_`
   * dropped.
   */
  function FolderName(url: string): string {
    DropSuffix(Sanitise(url), "_")
  }

  /** Sanitising leaves a `_` at the end exactly when the URL ends in `/`, `?` or `_`. */
  lemma SanitisedEnd(url: string)
    ensures EndsWith(Sanitise(url), "_") <==> url != "" && Last(url) in "/?_"
  {
    var s := Sanitise(url);
    if url != "" {
      assert s[|s| - 1..] == [s[|s| - 1]];
      assert s[|s| - 1] == SanitiseChar(Last(url));
    }
  }

  /**
   * The folder name is clean, is a prefix of the sanitised URL, and is one
   * character shorter than the URL exactly when the URL ends in `/`, `?` or `_`.
   */
  lemma FolderNameShape(url: string)
    ensures var r := FolderName(url);
      && Clean(r)
      && StartsWith(Sanitise(url), r)
      && |r| == if url != "" && Last(url) in "/?_" then |url| - 1 else |url|
  {
    var s := Sanitise(url);
    var r := FolderName(url);
    SanitisedEnd(url);
    PrefixLacks(s, r, '/');
    PrefixLacks(s, r, '.');
    PrefixLacks(s, r, ':');
    PrefixLacks(s, r, '?');
  }

  /**
   * GetKeywords.py's table file name: "GSC " and the text after the folder's
   * last `_`, without a trailing `-html`, cut to 59 characters, then ".csv".
   */
  function FileName(folder: string): (r: string)
    ensures EndsWith(r, ".csv")
    ensures |r| <= 63
  {
    var stem := "GSC " + AfterLast(folder, '_');
    Take(DropSuffix(stem, "-html"), 59) + ".csv"
  }

  /** Removing "-html" from "GSC " + tail only ever touches the tail. */
  lemma TrimHtml(tail: string)
    ensures DropSuffix("GSC " + tail, "-html") == "GSC " + DropSuffix(tail, "-html")
  {
    var stem := "GSC " + tail;
    if EndsWith(stem, "-html") {
      assert stem[|stem| - 5] == '-';
      assert stem[|stem| - 5..] == tail[|tail| - 5..];
      assert stem[..|stem| - 5] == "GSC " + tail[..|tail| - 5];
    }
    if EndsWith(tail, "-html") {
      assert stem[|stem| - 5..] == tail[|tail| - 5..];
    }
  }

  /** "-html" comes off the segment, and the 59-character cut leaves 55 of it. */
  lemma FileNameParts(folder: string)
    ensures FileName(folder) == "GSC " + Take(DropSuffix(AfterLast(folder, '_'), "-html"), 55) + ".csv"
  {
    TrimHtml(AfterLast(folder, '_'));
    TakeAfter("GSC ", DropSuffix(AfterLast(folder, '_'), "-html"), 55);
  }

  /** What lies between "GSC " and ".csv" in the file name. */
  lemma FileNameMiddle(folder: string)
    ensures var r := FileName(folder);
      && |r| >= 8
      && r == "GSC " + r[4..|r| - 4] + ".csv"
      && r[4..|r| - 4] == Take(DropSuffix(AfterLast(folder, '_'), "-html"), 55)
  {
    FileNameParts(folder);
    Between("GSC ", Take(DropSuffix(AfterLast(folder, '_'), "-html"), 55), ".csv");
  }

  /** A file name without `_` around a middle without `_`. */
  lemma NoUnderscore(middle: string)
    requires '_' !in middle
    ensures '_' !in "GSC " + middle + ".csv"
  {
  }

  /** A prefix of a suffix of a clean string is clean. */
  lemma CleanInside(s: string, tail: string, middle: string)
    requires EndsWith(s, tail) && StartsWith(tail, middle) && Clean(s)
    ensures Clean(middle)
  {
    forall i | 0 <= i < |middle| ensures middle[i] == s[|s| - |tail| + i] {
      assert middle[i] == tail[i];
    }
  }

  /**
   * The file name starts "GSC ", holds no `_`, and between "GSC " and ".csv"
   * carries a prefix of the folder's last `_`-segment; for a clean folder
   * that part is clean too.
   */
  lemma FileNameShape(folder: string)
    ensures |FileName(folder)| >= 8
    ensures var r := FileName(folder); var middle := r[4..|r| - 4];
      && r == "GSC " + middle + ".csv"
      && '_' !in r
      && StartsWith(AfterLast(folder, '_'), middle)
      && (Clean(folder) ==> Clean(middle))
  {
    var tail := AfterLast(folder, '_');
    var kept := DropSuffix(tail, "-html");
    FileNameMiddle(folder);
    var r := FileName(folder);
    var middle := r[4..|r| - 4];
    PrefixOfPrefix(tail, kept, middle);
    PrefixLacks(tail, middle, '_');
    NoUnderscore(middle);
    if Clean(folder) {
      CleanInside(folder, tail, middle);
    }
  }
}
