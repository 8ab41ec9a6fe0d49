/** The parts of PHP's `pathinfo` the remote-file adapter uses, with `/` as
    the directory separator. Trailing separators are ignored; the directory
    is what precedes the last component, without its own trailing
    separators; the extension is what follows the last `.` of the base name. */
module PathInfo {
  import opened Wrappers
  import opened Text

  /** The position of the last `c` in `s`. */
  function LastIndexOf(s: string, c: char): (r: Option<nat>)
    ensures r.Some? ==> r.value < |s| && s[r.value] == c
    ensures r.Some? ==> forall k :: r.value < k < |s| ==> s[k] != c
    ensures r.None? <==> c !in s
  {
    if |s| == 0 then None
    else if s[|s| - 1] == c then Some(|s| - 1)
    else
      var r := LastIndexOf(s[..|s| - 1], c);
      assert s == s[..|s| - 1] + [s[|s| - 1]];
      r
  }

  /** `PATHINFO_DIRNAME`, as PHP's `dirname`: "" for an empty path, "/"
      when only separators precede the last component (or there is nothing
      but separators), and "." when there is no separator. */
  function DirName(path: string): string
  {
    if path == "" then ""
    else
      var t := RTrim(path, Slash);
      if t == [] then "/"
      else
        match LastIndexOf(t, '/')
        case None => "."
        case Some(i) =>
          var d := RTrim(t[..i], Slash);
          if d == [] then "/" else d
  }

  /** `PATHINFO_BASENAME`: the last component, trailing separators ignored. */
  function BaseName(path: string): string
  {
    var t := RTrim(path, Slash);
    match LastIndexOf(t, '/')
    case None => t
    case Some(i) => t[i + 1..]
  }

  /** `PATHINFO_FILENAME`: the base name up to its last dot. */
  function FileName(path: string): string
  {
    var b := BaseName(path);
    match LastIndexOf(b, '.')
    case None => b
    case Some(j) => b[..j]
  }

  /** `PATHINFO_EXTENSION`: what follows the last dot of the base name, ""
      when there is none. */
  function Extension(path: string): string
  {
    var b := BaseName(path);
    match LastIndexOf(b, '.')
    case None => ""
    case Some(j) => b[j + 1..]
  }

  /** The last `c` of `a + [c] + b` is the one at `|a|` when `b` has none. */
  lemma LastIndexOfSplit(a: string, c: char, b: string)
    requires c !in b
    ensures LastIndexOf(a + [c] + b, c) == Some(|a|)
  {
    var s := a + [c] + b;
    assert s[|a|] == c;
  }

  /** Splitting a path built as `dir/stem.ext` gives back its parts, as long
      as neither the stem nor the extension holds a separator and the
      extension holds no dot. */
  lemma {:induction false} SplitComposed(dir: string, stem: string, ext: string)
    requires '/' !in stem && '/' !in ext && '.' !in ext
    ensures DirName(dir + "/" + stem + "." + ext) ==
      if RTrim(dir, Slash) == [] then "/" else RTrim(dir, Slash)
    ensures BaseName(dir + "/" + stem + "." + ext) == stem + "." + ext
    ensures FileName(dir + "/" + stem + "." + ext) == stem
    ensures Extension(dir + "/" + stem + "." + ext) == ext
  {
    var base := stem + "." + ext;
    assert '/' !in base;
    assert dir + "/" + stem + "." + ext == dir + "/" + base;
    SplitLast(dir, base);
    LastIndexOfSplit(stem, '.', ext);
    assert base == stem + ['.'] + ext;
    assert base[..|stem|] == stem;
    assert base[|stem| + 1..] == ext;
  }

  /** Trailing separators change neither directory nor base name: PHP gives
      directory `a` and base name `b` for `a/b/`. */
  lemma TrailingSeparatorIgnored(path: string)
    requires path != ""
    ensures DirName(path + "/") == DirName(path)
    ensures BaseName(path + "/") == BaseName(path)
  {
    assert (path + "/")[..|path|] == path;
  }

  /** `dir/base` with a base free of separators splits at that separator. */
  lemma SplitLast(dir: string, base: string)
    requires base != [] && '/' !in base
    ensures DirName(dir + "/" + base) == if RTrim(dir, Slash) == [] then "/" else RTrim(dir, Slash)
    ensures BaseName(dir + "/" + base) == base
  {
    var p := dir + "/" + base;
    assert p == dir + ['/'] + base;
    assert p[|p| - 1] == base[|base| - 1];
    TrimKeepsClean(p, Slash);
    LastIndexOfSplit(dir, '/', base);
    assert p[..|dir|] == dir && p[|dir| + 1..] == base;
  }

  /** An empty path has an empty directory, not `.`. */
  lemma EmptyPath()
    ensures DirName("") == "" && BaseName("") == "" && FileName("") == "" && Extension("") == ""
  {
  }
}
