/** Option, shared by every module of the model. */
module Wrappers {
  datatype Option<+T> = None | Some(value: T)
}

/** The PHP string primitives the URL generator relies on: `rtrim`, `ltrim`
    and `trim` with a character list, and PHP's truthiness of strings. */
module Text {
  import opened Wrappers

  /** The characters `trim` strips when it is given no character list:
      space, tab, newline, carriage return, NUL and vertical tab. */
  const Whitespace: set<char> := {' ', '\t', '\n', '\r', '\0', '\U{000B}'}

  /** The character list `'/'` (also `DIRECTORY_SEPARATOR` on Unix). */
  const Slash: set<char> := {'/'}

  /** `rtrim(s, cs)`: `s` without its trailing characters of `cs`. */
  function RTrim(s: string, cs: set<char>): string
  {
    if |s| > 0 && s[|s| - 1] in cs then RTrim(s[..|s| - 1], cs) else s
  }

  /** `ltrim(s, cs)`: `s` without its leading characters of `cs`. */
  function LTrim(s: string, cs: set<char>): string
  {
    if |s| > 0 && s[0] in cs then LTrim(s[1..], cs) else s
  }

  /** `trim(s, cs)`: `s` without its leading and trailing characters of `cs`. */
  function Trim(s: string, cs: set<char>): string
  {
    LTrim(RTrim(s, cs), cs)
  }

  /** Where the part kept by `Trim` starts. */
  function TrimStart(s: string, cs: set<char>): nat
  {
    var p := RTrim(s, cs);
    LTrimSpec(p, cs);
    |p| - |LTrim(p, cs)|
  }

  /** `rtrim` keeps the longest prefix of `s` that does not end in `cs`:
      what it drops is all in `cs`, and what it keeps ends outside `cs`. */
  lemma {:induction false} RTrimSpec(s: string, cs: set<char>)
    ensures RTrim(s, cs) <= s
    ensures RTrim(s, cs) == [] || RTrim(s, cs)[|RTrim(s, cs)| - 1] !in cs
    ensures forall k :: |RTrim(s, cs)| <= k < |s| ==> s[k] in cs
  {
    if |s| > 0 && s[|s| - 1] in cs {
      RTrimSpec(s[..|s| - 1], cs);
    }
  }

  /** `ltrim` keeps the longest suffix of `s` that does not start in `cs`:
      what it drops is all in `cs`, and what it keeps starts outside `cs`. */
  lemma {:induction false} LTrimSpec(s: string, cs: set<char>)
    ensures |LTrim(s, cs)| <= |s| && LTrim(s, cs) == s[|s| - |LTrim(s, cs)|..]
    ensures LTrim(s, cs) == [] || LTrim(s, cs)[0] !in cs
    ensures forall k :: 0 <= k < |s| - |LTrim(s, cs)| ==> s[k] in cs
  {
    if |s| > 0 && s[0] in cs {
      LTrimSpec(s[1..], cs);
    }
  }

  /** PHP truthiness of a string: every string but "" and "0" is true. */
  predicate Truthy(s: string)
  {
    s != "" && s != "0"
  }

  /** PHP truthiness of a nullable string: null is false. */
  predicate TruthyOpt(s: Option<string>)
  {
    s.Some? && Truthy(s.value)
  }

  /** A string that starts and ends outside `cs` is left alone by `Trim`,
      and one that does not end in `cs` is left alone by `RTrim`. */
  lemma TrimKeepsClean(s: string, cs: set<char>)
    ensures (s == [] || s[|s| - 1] !in cs) ==> RTrim(s, cs) == s
    ensures (s == [] || (s[0] !in cs && s[|s| - 1] !in cs)) ==> Trim(s, cs) == s
  {
  }

  /** What `Trim` keeps is one slice of `s` that starts and ends outside
      `cs`, and everything before and after that slice is in `cs`. */
  lemma TrimIsSlice(s: string, cs: set<char>)
    ensures var i := TrimStart(s, cs);
      var r := Trim(s, cs);
      && i + |r| <= |s|
      && r == s[i..i + |r|]
      && (r == [] || (r[0] !in cs && r[|r| - 1] !in cs))
      && (forall k :: 0 <= k < i ==> s[k] in cs)
      && (forall k :: i + |r| <= k < |s| ==> s[k] in cs)
  {
    var p := RTrim(s, cs);
    var q := LTrim(p, cs);
    RTrimSpec(s, cs);
    LTrimSpec(p, cs);
    var i := |p| - |q|;
    forall k | 0 <= k < i ensures s[k] in cs {
      assert p[k] in cs;
      assert s[k] == p[k];
    }
    assert q == s[i..|p|];
    if q != [] {
      assert q[|q| - 1] == p[|p| - 1];
    }
  }
}
