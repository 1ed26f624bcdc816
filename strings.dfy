/**
 * The handful of Python string operations the scripts use, on `string`
 * (a `seq<char>`): prefix and suffix tests, substring search (`in`),
 * `split` with a string separator, `join`, single-character `replace`,
 * the last part of `rsplit(c, 1)`, and slicing `s[:n]`.
 */
module Strings {

  /** `s.startswith(prefix)` */
  predicate StartsWith(s: string, prefix: string) {
    |prefix| <= |s| && s[..|prefix|] == prefix
  }

  /** `s.endswith(suffix)` */
  predicate EndsWith(s: string, suffix: string) {
    |suffix| <= |s| && s[|s| - |suffix|..] == suffix
  }

  /** `t` occurs in `s` starting at index `j`. */
  predicate OccursAt(s: string, t: string, j: int) {
    0 <= j <= |s| && StartsWith(s[j..], t)
  }

  /** `t in s` for strings: substring containment. */
  predicate Contains(s: string, t: string) {
    exists j :: 0 <= j <= |s| && OccursAt(s, t, j)
  }

  /** `s[:n]`: the first `n` characters, or all of `s` when it is shorter. */
  function Take(s: string, n: nat): (r: string)
    ensures |r| == if |s| <= n then |s| else n
    ensures StartsWith(s, r)
  {
    if |s| <= n then s else s[..n]
  }

  /**
   * The index of the first occurrence of `sep` in `s` at or after `from`,
   * or `|s|` when there is none (a non-empty separator cannot occur at `|s|`).
   */
  function Find(s: string, sep: string, from: nat): (j: nat)
    requires sep != "" && from <= |s|
    ensures from <= j <= |s|
    ensures j < |s| ==> OccursAt(s, sep, j)
    ensures forall k :: from <= k < j ==> !OccursAt(s, sep, k)
    decreases |s| - from
  {
    if from == |s| || OccursAt(s, sep, from) then from else Find(s, sep, from + 1)
  }

  /** `s.split(sep)`: scanning left to right, cut at each non-overlapping occurrence. */
  function Split(s: string, sep: string): (parts: seq<string>)
    requires sep != ""
    ensures |parts| >= 1
    decreases |s|
  {
    var j := Find(s, sep, 0);
    if j == |s| then [s] else [s[..j]] + Split(s[j + |sep|..], sep)
  }

  /** `sep.join(parts)` */
  function Join(parts: seq<string>, sep: string): string {
    if |parts| == 0 then ""
    else if |parts| == 1 then parts[0]
    else parts[0] + sep + Join(parts[1..], sep)
  }

  /** `if s.endswith(suffix): s = s[:-len(suffix)]` */
  function DropSuffix(s: string, suffix: string): (r: string)
    ensures EndsWith(s, suffix) ==> r + suffix == s
    ensures !EndsWith(s, suffix) ==> r == s
    ensures StartsWith(s, r)
  {
    if EndsWith(s, suffix) then s[..|s| - |suffix|] else s
  }

  /** The last element of a non-empty sequence (`xs[-1]`). */
  function Last<T>(xs: seq<T>): T
    requires |xs| > 0
  {
    xs[|xs| - 1]
  }

  /** `s.replace(from, to)` for one-character arguments. */
  function ReplaceChar(s: string, from: char, to: char): (r: string)
    ensures |r| == |s|
    ensures forall i :: 0 <= i < |s| ==> r[i] == if s[i] == from then to else s[i]
  {
    if s == "" then "" else [if s[0] == from then to else s[0]] + ReplaceChar(s[1..], from, to)
  }

  /**
   * `s.rsplit(c, 1)[-1]`: the text after the last `c`, or all of `s` when
   * `c` does not occur in it.
   */
  function AfterLast(s: string, c: char): (r: string)
    ensures EndsWith(s, r)
    ensures c !in r
    ensures |r| == |s| || s[|s| - |r| - 1] == c
  {
    if s == "" then ""
    else if s[|s| - 1] == c then ""
    else AfterLast(s[..|s| - 1], c) + [s[|s| - 1]]
  }

  // ---------------------------------------------------------------------------
  // Lemmas
  // ---------------------------------------------------------------------------

  /** Cutting `p + x` after `|p| + n` characters keeps `p` and cuts `x` after `n`. */
  lemma TakeAfter(p: string, x: string, n: nat)
    ensures Take(p + x, |p| + n) == p + Take(x, n)
  {
    if n < |x| {
      assert (p + x)[..|p| + n] == p + x[..n];
    }
  }

  /** `a` starts `a + b`, and whatever ends `b` ends `a + b`. */
  lemma ConcatEnds(a: string, b: string, suffix: string)
    ensures StartsWith(a + b, a)
    ensures EndsWith(b, suffix) ==> EndsWith(a + b, suffix)
  {
    assert (a + b)[..|a|] == a;
    if EndsWith(b, suffix) {
      assert (a + b)[|a + b| - |suffix|..] == b[|b| - |suffix|..];
    }
  }

  /** A prefix of a prefix is a prefix. */
  lemma PrefixOfPrefix(a: string, b: string, c: string)
    requires StartsWith(a, b) && StartsWith(b, c)
    ensures StartsWith(a, c)
  {
    assert a[..|c|] == b[..|c|];
  }

  /** A character absent from a string is absent from its prefixes. */
  lemma PrefixLacks(s: string, prefix: string, c: char)
    requires StartsWith(s, prefix) && c !in s
    ensures c !in prefix
  {
    forall i | 0 <= i < |prefix| ensures prefix[i] == s[i] {}
  }

  /** The part of `p + m + q` between `p` and `q` is `m`. */
  lemma Between(p: string, m: string, q: string)
    ensures var r := p + m + q; r[|p|..|r| - |q|] == m
  {
    var r := p + m + q;
    assert r[|p|..|r| - |q|] == m;
  }

  /** An occurrence inside a prefix of `s` is an occurrence in `s`. */
  lemma OccursInPrefix(s: string, n: nat, t: string, k: int)
    requires n <= |s| && OccursAt(s[..n], t, k)
    ensures OccursAt(s, t, k)
  {
    assert s[..n][k..][..|t|] == s[k..][..|t|];
  }

  /** The first piece of a split is everything before the first occurrence of the separator. */
  lemma SplitHead(s: string, sep: string)
    requires sep != ""
    ensures var parts := Split(s, sep);
      && StartsWith(s, parts[0])
      && (forall k :: 0 <= k < |parts[0]| ==> !OccursAt(s, sep, k))
      && (|parts| == 1 <==> !Contains(s, sep))
      && (|parts| > 1 ==> OccursAt(s, sep, |parts[0]|))
  {
    var j := Find(s, sep, 0);
    if j == |s| {
      assert !OccursAt(s, sep, |s|);
      assert forall k :: !OccursAt(s, sep, k) by {
        forall k ensures !OccursAt(s, sep, k) {
          if 0 <= k < |s| { assert 0 <= k < j; }
        }
      }
    }
  }

  /** The text before the first occurrence of the separator does not contain it. */
  lemma BeforeFirstFree(s: string, sep: string)
    requires sep != ""
    ensures !Contains(s[..Find(s, sep, 0)], sep)
  {
    var j := Find(s, sep, 0);
    if Contains(s[..j], sep) {
      var m :| 0 <= m <= j && OccursAt(s[..j], sep, m);
      OccursInPrefix(s, j, sep, m);
      assert false;
    }
  }

  /** Without an occurrence of the separator, the split is the whole string. */
  lemma SplitUnbroken(s: string, sep: string)
    requires sep != "" && Find(s, sep, 0) == |s|
    ensures Split(s, sep) == [s] && !Contains(s, sep)
  {
    SplitHead(s, sep);
  }

  /** No piece of a split contains the separator. */
  lemma {:induction false} SplitPiecesFree(s: string, sep: string)
    requires sep != ""
    ensures forall k :: 0 <= k < |Split(s, sep)| ==> !Contains(Split(s, sep)[k], sep)
    decreases |s|
  {
    var parts := Split(s, sep);
    var j := Find(s, sep, 0);
    if j == |s| {
      SplitUnbroken(s, sep);
    } else {
      var rest := s[j + |sep|..];
      SplitPiecesFree(rest, sep);
      BeforeFirstFree(s, sep);
      assert parts == [s[..j]] + Split(rest, sep);
      FreeCons(s[..j], Split(rest, sep), sep);
    }
  }

  /** A piece free of `sep` in front of pieces free of it. */
  lemma FreeCons(head: string, tail: seq<string>, sep: string)
    requires !Contains(head, sep)
    requires forall k :: 0 <= k < |tail| ==> !Contains(tail[k], sep)
    ensures forall k :: 0 <= k < |[head] + tail| ==> !Contains(([head] + tail)[k], sep)
  {
    forall k | 0 <= k < |[head] + tail| ensures !Contains(([head] + tail)[k], sep) {
      if k > 0 {
        assert ([head] + tail)[k] == tail[k - 1];
      }
    }
  }

  /** Joining the pieces of a split with the same separator gives back the string. */
  lemma {:induction false} SplitJoin(s: string, sep: string)
    requires sep != ""
    ensures Join(Split(s, sep), sep) == s
    decreases |s|
  {
    var j := Find(s, sep, 0);
    if j < |s| {
      var rest := s[j + |sep|..];
      SplitJoin(rest, sep);
      SplitAt(s, sep);
      JoinCons(s[..j], Split(rest, sep), sep);
    }
  }

  /** At the first occurrence of the separator, the string and its split both come apart. */
  lemma SplitAt(s: string, sep: string)
    requires sep != "" && Find(s, sep, 0) < |s|
    ensures var j := Find(s, sep, 0); var rest := s[j + |sep|..];
      && Split(s, sep) == [s[..j]] + Split(rest, sep)
      && s == s[..j] + sep + rest
  {
    Recompose(s, sep, Find(s, sep, 0));
  }


  /** A string is the text before an occurrence, the occurrence, and the text after it. */
  lemma Recompose(s: string, t: string, j: int)
    requires OccursAt(s, t, j)
    ensures j + |t| <= |s| && s == s[..j] + t + s[j + |t|..]
  {
    var u := s[j..];
    assert u == u[..|t|] + u[|t|..];
    assert u[|t|..] == s[j + |t|..];
    assert s == s[..j] + u;
  }

  /** A join of a piece followed by at least one more. */
  lemma JoinCons(head: string, tail: seq<string>, sep: string)
    requires |tail| >= 1
    ensures Join([head] + tail, sep) == head + sep + Join(tail, sep)
  {
    assert ([head] + tail)[1..] == tail;
  }

  /** A join of two or more pieces ends with the separator and the last piece. */
  lemma {:induction false} JoinLast(parts: seq<string>, sep: string)
    requires |parts| >= 2
    ensures Join(parts, sep) == Join(parts[..|parts| - 1], sep) + sep + Last(parts)
    decreases |parts|
  {
    if |parts| > 2 {
      JoinLast(parts[1..], sep);
      assert parts[1..][..|parts| - 2] == parts[..|parts| - 1][1..];
    }
  }

  /**
   * The last piece of a split is a suffix of the string free of the
   * separator, and when there are several pieces it follows an occurrence of
   * the separator.
   */
  lemma SplitLast(s: string, sep: string)
    requires sep != ""
    ensures var parts := Split(s, sep); var tail := Last(parts);
      && EndsWith(s, tail)
      && !Contains(tail, sep)
      && (|parts| > 1 ==> EndsWith(s[..|s| - |tail|], sep))
  {
    var parts := Split(s, sep);
    var tail := Last(parts);
    SplitPiecesFree(s, sep);
    SplitJoin(s, sep);
    if |parts| > 1 {
      JoinLast(parts, sep);
      var front := Join(parts[..|parts| - 1], sep) + sep;
      assert s == front + tail;
      assert s[|s| - |tail|..] == tail;
      assert s[..|s| - |tail|] == front;
    } else {
      assert s == tail;
    }
  }

  /** A one-character string occurs exactly where that character stands. */
  lemma OccursChar(s: string, c: char, k: int)
    ensures OccursAt(s, [c], k) <==> 0 <= k < |s| && s[k] == c
  {
    if 0 <= k < |s| {
      assert s[k..][..1] == [s[k]];
    }
  }

  /** An occurrence of `t` starts with `t`'s first character. */
  lemma OccursHead(s: string, t: string, k: int)
    requires t != ""
    ensures OccursAt(s, t, k) ==> k < |s| && s[k] == t[0]
  {
    if 0 <= k < |s| && |t| <= |s| - k {
      assert s[k..][..|t|][0] == s[k];
    }
  }

  /** `sep` is found at or after `j` exactly where the caller says it is found first. */
  lemma FindIs(s: string, sep: string, j: nat)
    requires sep != "" && j <= |s|
    requires j == |s| || OccursAt(s, sep, j)
    requires forall k :: 0 <= k < j ==> !OccursAt(s, sep, k)
    ensures Find(s, sep, 0) == j
  {
  }

  /** A string free of the separator splits into itself alone. */
  lemma SplitWhole(s: string, sep: string)
    requires sep != "" && !Contains(s, sep)
    ensures Split(s, sep) == [s]
  {
    SplitHead(s, sep);
  }

  /**
   * When a piece holds no copy of the separator's first character, splitting
   * the piece, the separator and a remainder cuts right after the piece.
   */
  lemma SplitCons(p: string, sep: string, rest: string)
    requires sep != "" && sep[0] !in p
    ensures Split(p + sep + rest, sep) == [p] + Split(rest, sep)
  {
    var s := p + sep + rest;
    assert s[|p|..][..|sep|] == sep;
    forall k | 0 <= k < |p| ensures !OccursAt(s, sep, k) {
      OccursHead(s, sep, k);
      assert s[k] == p[k];
    }
    FindIs(s, sep, |p|);
    assert s[..|p|] == p;
    assert s[|p| + |sep|..] == rest;
  }

  /**
   * Splitting a join recovers the pieces when no piece holds the separator's
   * first character (for a one-character separator: when no piece holds it).
   */
  lemma {:induction false} JoinSplit(parts: seq<string>, sep: string)
    requires sep != "" && |parts| >= 1
    requires forall k :: 0 <= k < |parts| ==> sep[0] !in parts[k]
    ensures Split(Join(parts, sep), sep) == parts
    decreases |parts|
  {
    if |parts| == 1 {
      var p := parts[0];
      forall k | 0 <= k <= |p| ensures !OccursAt(p, sep, k) {
        OccursHead(p, sep, k);
      }
      SplitWhole(p, sep);
    } else {
      JoinSplit(parts[1..], sep);
      SplitCons(parts[0], sep, Join(parts[1..], sep));
      assert parts == [parts[0]] + parts[1..];
    }
  }
}
