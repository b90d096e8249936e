/** Strings and paths as the plugin handles them. */
module Paths {

  /** `t` occurs somewhere inside `s`. */
  predicate IsInfix(t: string, s: string)
  {
    exists i :: 0 <= i <= |s| - |t| && OccursAt(t, s, i)
  }

  /** `t` occurs in `s` starting at index `i`. */
  predicate OccursAt(t: string, s: string, i: int)
  {
    0 <= i <= |s| - |t| && s[i..i + |t|] == t
  }

  /** Java's `String.endsWith`. */
  predicate EndsWith(s: string, suffix: string)
  {
    |suffix| <= |s| && s[|s| - |suffix|..] == suffix
  }

  /** `toUpperCase` restricted to ASCII letters; every other character is kept. */
  function UpperChar(c: char): (u: char)
    ensures 'a' <= c <= 'z' ==> u as int == c as int - 32
    ensures !('a' <= c <= 'z') ==> u == c
    ensures !('a' <= u <= 'z')
  {
    if 'a' <= c <= 'z' then (c as int - 32) as char else c
  }

  function Upper(s: string): (u: string)
    ensures |u| == |s|
    ensures forall i :: 0 <= i < |s| ==> u[i] == UpperChar(s[i])
  {
    if s == [] then [] else [UpperChar(s[0])] + Upper(s[1..])
  }

  /** Upper-casing twice is upper-casing once: a name that is already upper case is its own canonical form. */
  lemma UpperIdempotent(s: string)
    ensures Upper(Upper(s)) == Upper(s)
  {
    var u := Upper(s);
    assert forall i :: 0 <= i < |u| ==> UpperChar(u[i]) == u[i];
  }

  /**
   * The file-name extension as plexus `FileUtils.extension` gives it for a
   * plain name: the text after the last '.', or "" when there is no '.'.
   */
  function Extension(name: string): string
  {
    if |name| == 0 || name[|name| - 1] == '.' then ""
    else
      var init := name[..|name| - 1];
      if '.' in init then Extension(init) + [name[|name| - 1]] else ""
  }

  /** The extension is a dot-free suffix of the name that directly follows its last '.', and empty without one. */
  lemma {:induction false} ExtensionFollowsLastDot(name: string)
    ensures '.' !in Extension(name)
    ensures |Extension(name)| <= |name| && name[|name| - |Extension(name)|..] == Extension(name)
    ensures '.' in name ==> |Extension(name)| < |name| && name[|name| - |Extension(name)| - 1] == '.'
    ensures '.' !in name ==> Extension(name) == ""
    decreases |name|
  {
    if |name| > 0 && name[|name| - 1] != '.' {
      var init := name[..|name| - 1];
      var last := name[|name| - 1];
      assert name == init + [last];
      if '.' in init {
        ExtensionFollowsLastDot(init);
        var e := Extension(init);
        assert Extension(name) == e + [last];
        assert init[|init| - |e|..] == e;
        assert name[|name| - |e| - 1..] == init[|init| - |e|..] + [last];
        assert name[|name| - |e| - 2] == init[|init| - |e| - 1];
      }
    }
  }

  /** No name occurs twice. */
  predicate Distinct(names: seq<string>)
  {
    forall i, j :: 0 <= i < j < |names| ==> names[i] != names[j]
  }

  /** A path in the build's filesystem, as its sequence of names. */
  type Path = seq<string>

  /** `File.getName()`: the last name of the path. */
  function Name(p: Path): string
  {
    if p == [] then "" else p[|p| - 1]
  }

  /** `p` lies directly inside directory `dir`. */
  predicate IsChildOf(p: Path, dir: Path)
  {
    |p| == |dir| + 1 && p[..|dir|] == dir
  }

  /** The absolute path text of `p`, with '/' as the separator. */
  function Render(p: Path): string
  {
    if p == [] then "" else Render(p[..|p| - 1]) + "/" + p[|p| - 1]
  }
}
