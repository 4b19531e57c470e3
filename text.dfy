/** Character and path predicates of the .NET base library that the plugin relies on. */
module Text {
  import opened Wrappers

  /** char.IsWhiteSpace: the Unicode space, line and paragraph separators, U+0009..U+000D and U+0085. */
  predicate IsWhiteSpace(c: char)
  {
    || ('\U{9}' <= c <= '\U{D}')
    || c == '\U{20}' || c == '\U{85}' || c == '\U{A0}' || c == '\U{1680}'
    || ('\U{2000}' <= c <= '\U{200A}')
    || c == '\U{2028}' || c == '\U{2029}' || c == '\U{202F}' || c == '\U{205F}' || c == '\U{3000}'
  }

  /** string.IsNullOrWhiteSpace: null, empty, or made only of white space. */
  predicate IsNullOrWhiteSpace(s: Option<string>)
  {
    s.None? || forall i | 0 <= i < |s.value| :: IsWhiteSpace(s.value[i])
  }

  /** `t` occurs in `s` starting at index `i`. */
  predicate OccursAt(t: string, s: string, i: int)
  {
    0 <= i <= |s| - |t| && s[i..i + |t|] == t
  }

  /** `t` occurs somewhere inside `s`. */
  predicate IsInfix(t: string, s: string)
  {
    exists i | 0 <= i <= |s| :: OccursAt(t, s, i)
  }

  /** A text built around `t` contains `t`. */
  lemma InfixOfConcat(a: string, t: string, b: string)
    ensures IsInfix(t, a + t + b)
  {
    var s := a + t + b;
    assert s[|a|..|a| + |t|] == t;
    assert OccursAt(t, s, |a|);
  }

  /** The directory separators of Windows paths (Path.DirectorySeparatorChar and AltDirectorySeparatorChar). */
  predicate IsDirectorySeparator(c: char)
  {
    c == '\\' || c == '/'
  }

  /**
   * Path.GetFileName: the part of the path after its last directory separator,
   * or the whole path when it has none.
   */
  function FileName(path: string): (name: string)
    ensures |name| <= |path| && name == path[|path| - |name|..]
    ensures forall i | 0 <= i < |name| :: !IsDirectorySeparator(name[i])
    ensures |name| < |path| ==> IsDirectorySeparator(path[|path| - |name| - 1])
  {
    if path == [] then []
    else if IsDirectorySeparator(path[|path| - 1]) then []
    else FileName(path[..|path| - 1]) + [path[|path| - 1]]
  }
}
