/**
 * The local disk as the scripts see it: files as sequences of lines (a
 * line is a `string` for the text files and a record of cells for the CSV
 * tables) and a set of directories. Opening, writing a line, removing and
 * creating directories change it in place.
 */
module Files {

  /** `open(path, "w")` / `"wb"` truncates; `open(path, "a")` keeps what is there. */
  datatype Mode = Overwrite | Append

  /** A snapshot of the disk. */
  datatype Disk<L> = Disk(files: map<string, seq<L>>, dirs: set<string>)

  /** The lines of a file, none when it does not exist. */
  function Lookup<L>(files: map<string, seq<L>>, path: string): seq<L> {
    if path in files then files[path] else []
  }

  /** The files after `open(path, mode)`: the file exists, emptied by `Overwrite`. */
  function Opened<L>(files: map<string, seq<L>>, path: string, mode: Mode): map<string, seq<L>> {
    files[path := if mode == Overwrite then [] else Lookup(files, path)]
  }

  /** The files after one more line is written to `path`. */
  function Appended<L>(files: map<string, seq<L>>, path: string, line: L): map<string, seq<L>> {
    files[path := Lookup(files, path) + [line]]
  }

  /** Opening a file of `s` changes nothing outside `s`. */
  lemma OpenedElsewhere<L>(files: map<string, seq<L>>, path: string, mode: Mode, s: set<string>)
    requires path in s
    ensures Opened(files, path, mode) - s == files - s
  {
  }

  /** Writing to a file of `s` changes nothing outside `s`. */
  lemma AppendedElsewhere<L>(files: map<string, seq<L>>, path: string, line: L, s: set<string>)
    requires path in s
    ensures Appended(files, path, line) - s == files - s
  {
  }

  /** Two maps that agree outside `s` hold the same keys and values there. */
  lemma SameOutside<L>(a: map<string, seq<L>>, b: map<string, seq<L>>, s: set<string>)
    requires a - s == b - s
    ensures forall p :: p !in s ==> Lookup(a, p) == Lookup(b, p) && (p in a <==> p in b)
  {
    forall p | p !in s
      ensures Lookup(a, p) == Lookup(b, p) && (p in a <==> p in b)
    {
      assert p in a <==> p in a - s;
      assert p in b <==> p in b - s;
    }
  }

  /** The files after `step` is taken for each item in turn. */
  function Fold<L, R>(files: map<string, seq<L>>, step: (map<string, seq<L>>, R) -> map<string, seq<L>>, items: seq<R>): map<string, seq<L>> {
    if items == [] then files else step(Fold(files, step, items[..|items| - 1]), items[|items| - 1])
  }

  lemma FoldSnoc<L, R>(files: map<string, seq<L>>, step: (map<string, seq<L>>, R) -> map<string, seq<L>>, items: seq<R>, item: R)
    ensures Fold(files, step, items + [item]) == step(Fold(files, step, items), item)
  {
    assert (items + [item])[..|items|] == items;
  }

  /** Taking the steps for two runs of items is taking them for their concatenation. */
  lemma {:induction false} FoldAppend<L, R>(files: map<string, seq<L>>, step: (map<string, seq<L>>, R) -> map<string, seq<L>>, xs: seq<R>, ys: seq<R>)
    ensures Fold(Fold(files, step, xs), step, ys) == Fold(files, step, xs + ys)
    decreases |ys|
  {
    if ys == [] {
      assert xs + ys == xs;
    } else {
      FoldAppend(files, step, xs, ys[..|ys| - 1]);
      assert (xs + ys)[..|xs + ys| - 1] == xs + ys[..|ys| - 1];
    }
  }

  /** A file that `after` holds and `before` does not hold with the same lines. */
  ghost predicate Changed<L>(p: string, before: Disk<L>, after: Disk<L>) {
    p in after.files && (p !in before.files || after.files[p] != before.files[p])
  }

  /** Writing one file (and perhaps creating directories) changes that file only. */
  lemma WriteChangesOne<L>(d: Disk<L>, path: string, lines: seq<L>, dirs: set<string>)
    requires d.dirs <= dirs
    ensures var r := Disk(d.files[path := lines], dirs);
      && d.files.Keys <= r.files.Keys
      && forall p :: Changed(p, d, r) ==> p == path
  {
  }

  /** Writing a file over and over leaves what the last write put there. */
  lemma UpdateTwice<L>(files: map<string, seq<L>>, path: string, first: seq<L>, second: seq<L>)
    ensures files[path := []][path := first][path := second] == files[path := second]
  {
  }

  /** A disk has no changes against itself. */
  lemma NoChanges<L>(d: Disk<L>)
    ensures forall p :: !Changed(p, d, d)
  {
  }

  class FileStore<L> {
    var files: map<string, seq<L>>
    var dirs: set<string>

    constructor (files0: map<string, seq<L>>, dirs0: set<string>)
      ensures files == files0 && dirs == dirs0
    {
      files := files0;
      dirs := dirs0;
    }

    /** The current contents of the disk. */
    function State(): Disk<L>
      reads this
    {
      Disk(files, dirs)
    }

    /** `os.path.exists(path)`: a file or a directory of that name. */
    predicate Exists(path: string)
      reads this
    {
      path in files || path in dirs
    }

    /** `os.makedirs(dir)` */
    method MakeDirs(dir: string)
      modifies this
      ensures dirs == old(dirs) + {dir} && files == old(files)
    {
      dirs := dirs + {dir};
    }

    /** `os.remove(path)`, which the scripts only call on a file that exists. */
    method Remove(path: string)
      requires path in files
      modifies this
      ensures files == old(files) - {path} && dirs == old(dirs)
    {
      files := files - {path};
    }

    /** `open(path, mode)`: creates the file when absent; `Overwrite` empties it. */
    method Open(path: string, mode: Mode)
      modifies this
      ensures files == Opened(old(files), path, mode)
      ensures dirs == old(dirs)
    {
      files := files[path := if mode == Overwrite then [] else Lookup(files, path)];
    }

    /** One `write` of a line, or one `writerow`, on an open file. */
    method WriteLine(path: string, line: L)
      requires path in files
      modifies this
      ensures files == Appended(old(files), path, line) && dirs == old(dirs)
    {
      files := files[path := files[path] + [line]];
    }
  }
}
