/** The last element of a slash-separated path, as the upload request's
    file name is derived from the opened file's name. The facts about each
    function are stated as lemmas, so that the functions unfold cheaply
    wherever a file name is computed. */
module Paths {

  const Separator := '/'

  /** `p` without its trailing separators. */
  function TrimTrailing(p: string): string {
    if p == [] || p[|p| - 1] != Separator then p else TrimTrailing(p[..|p| - 1])
  }

  /** The part of `p` after its last separator (all of `p` if it has none). */
  function AfterLastSeparator(p: string): string {
    if p == [] || p[|p| - 1] == Separator then []
    else AfterLastSeparator(p[..|p| - 1]) + [p[|p| - 1]]
  }

  /** Go's `filepath.Base` with `/` as the separator: trailing separators are
      dropped and the last element returned; "." for the empty path and "/"
      for a path made only of separators. */
  function Base(path: string): (name: string)
    ensures name != []
    ensures Separator in name ==> name == [Separator]
  {
    if path == [] then "."
    else
      var trimmed := TrimTrailing(path);
      if trimmed == [] then [Separator]
      else
        TrimTrailingFacts(path);
        AfterLastSeparatorFacts(trimmed);
        AfterLastSeparator(trimmed)
  }

  /** Trimming keeps a prefix, drops only separators, and leaves no
      separator at the end. */
  lemma {:induction false} TrimTrailingFacts(p: string)
    ensures var r := TrimTrailing(p);
      && |r| <= |p| && r == p[..|r|]
      && (forall i :: |r| <= i < |p| ==> p[i] == Separator)
      && (r == [] || r[|r| - 1] != Separator)
    decreases |p|
  {
    if p != [] && p[|p| - 1] == Separator {
      TrimTrailingFacts(p[..|p| - 1]);
      var r := TrimTrailing(p[..|p| - 1]);
      assert p[..|p| - 1][..|r|] == p[..|r|];
    }
  }

  /** The last element is a separator-free suffix, preceded by a separator
      unless it is the whole string. */
  lemma {:induction false} AfterLastSeparatorFacts(p: string)
    ensures var r := AfterLastSeparator(p);
      && |r| <= |p| && r == p[|p| - |r|..]
      && Separator !in r
      && (|r| < |p| ==> p[|p| - |r| - 1] == Separator)
    decreases |p|
  {
    if p != [] && p[|p| - 1] != Separator {
      var q := p[..|p| - 1];
      AfterLastSeparatorFacts(q);
      var r := AfterLastSeparator(q);
      assert q[|q| - |r|..] + [p[|p| - 1]] == p[|p| - |r| - 1..];
    }
  }

  /** `leaf` is the last element of `path`: it stands right after a separator
      (or at the start) and only separators follow it. */
  ghost predicate IsLastElement(path: string, leaf: string) {
    exists j :: LastElementAt(path, leaf, j)
  }

  /** `leaf` starts at position `j` of `path`, right after a separator (or at
      the start), and only separators follow it. */
  ghost predicate LastElementAt(path: string, leaf: string, j: int) {
    0 <= j && j + |leaf| <= |path| &&
    path[j..j + |leaf|] == leaf &&
    (j == 0 || path[j - 1] == Separator) &&
    forall i :: j + |leaf| <= i < |path| ==> path[i] == Separator
  }

  /** What `Base` returns: "." for the empty path, "/" for a path of
      separators only, and otherwise a non-empty, separator-free last element
      of the path, followed in the path by separators only. */
  lemma BaseIsLastElement(path: string)
    ensures Base(path) != []
    ensures path == [] ==> Base(path) == "."
    ensures path != [] && (forall i :: 0 <= i < |path| ==> path[i] == Separator) ==> Base(path) == [Separator]
    ensures (exists i :: 0 <= i < |path| && path[i] != Separator) ==>
      Separator !in Base(path) && IsLastElement(path, Base(path))
  {
    if path != [] {
      TrimTrailingFacts(path);
      var trimmed := TrimTrailing(path);
      if trimmed != [] {
        AfterLastSeparatorFacts(trimmed);
        var leaf := AfterLastSeparator(trimmed);
        assert leaf != [] by {
          assert trimmed[|trimmed| - 1] != Separator;
        }
        var j := |trimmed| - |leaf|;
        assert path[j..j + |leaf|] == trimmed[j..] == leaf;
        assert LastElementAt(path, leaf, j);
      } else {
        assert forall i :: 0 <= i < |path| ==> path[i] == Separator;
      }
    }
  }

  /** The name of a file opened as `dir + "/" + name` has `name` as its base,
      whatever the directory is. */
  lemma BaseOfJoin(dir: string, name: string)
    requires name != [] && Separator !in name
    ensures Base(dir + [Separator] + name) == name
  {
    var path := dir + [Separator] + name;
    assert path[|path| - 1] == name[|name| - 1];
    assert TrimTrailing(path) == path;
    AfterJoin(dir, name);
  }

  lemma {:induction false} AfterJoin(dir: string, name: string)
    requires Separator !in name
    ensures AfterLastSeparator(dir + [Separator] + name) == name
  {
    var path := dir + [Separator] + name;
    if name != [] {
      assert path[..|path| - 1] == dir + [Separator] + name[..|name| - 1];
      AfterJoin(dir, name[..|name| - 1]);
      assert name == name[..|name| - 1] + [name[|name| - 1]];
    } else {
      assert path[|path| - 1] == Separator;
    }
  }
}
