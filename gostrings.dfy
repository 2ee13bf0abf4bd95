/**
 * The string helpers of Go's standard library that the redirect shim relies
 * on: strings.HasPrefix, strings.HasSuffix, strings.Contains and
 * filepath.Ext. The model treats '/' as the only path separator.
 */
module GoStrings {

  /** strings.HasPrefix(s, p). */
  predicate HasPrefix(s: string, p: string)
  {
    |p| <= |s| && s[..|p|] == p
  }

  /** strings.HasSuffix(s, p). */
  predicate HasSuffix(s: string, p: string)
  {
    |p| <= |s| && s[|s| - |p|..] == p
  }

  /** `sub` occurs in `s` starting at index `i`. */
  predicate OccursAt(s: string, sub: string, i: int)
  {
    0 <= i && i + |sub| <= |s| && s[i..i + |sub|] == sub
  }

  /** strings.Contains(s, sub). */
  predicate Contains(s: string, sub: string)
  {
    exists i | 0 <= i <= |s| - |sub| :: OccursAt(s, sub, i)
  }

  /**
   * filepath.Ext(path): scanning back from the end, the suffix that starts
   * at the first '.' met before any '/', or "" when a '/' or the start of
   * the path comes first.
   */
  function Ext(path: string): (e: string)
    decreases |path|
  {
    if |path| == 0 || path[|path| - 1] == '/' then ""
    else if path[|path| - 1] == '.' then path[|path| - 1..]
    else
      var e := Ext(path[..|path| - 1]);
      if e == "" then "" else e + [path[|path| - 1]]
  }

  /** A non-empty extension is a dot-led suffix of the path. */
  lemma {:induction false} ExtIsSuffix(path: string)
    ensures Ext(path) == "" || (Ext(path)[0] == '.' && HasSuffix(path, Ext(path)))
    decreases |path|
  {
    if |path| > 0 && path[|path| - 1] != '/' && path[|path| - 1] != '.' {
      var init := path[..|path| - 1];
      ExtIsSuffix(init);
      assert path == init + [path[|path| - 1]];
    }
  }

  /**
   * What filepath.Ext returns: "" or a suffix of the path that starts with a
   * dot and holds no further dot or separator; and "" only when every dot of
   * the path has a separator somewhere after it.
   */
  lemma {:induction false} ExtShape(path: string)
    ensures var e := Ext(path);
      && (e == "" || (e[0] == '.' && HasSuffix(path, e)))
      && (forall k :: 0 < k < |e| ==> e[k] != '.' && e[k] != '/')
      && (e == "" ==> forall k :: 0 <= k < |path| && path[k] == '.' ==> '/' in path[k + 1..])
    decreases |path|
  {
    if |path| == 0 || path[|path| - 1] == '/' || path[|path| - 1] == '.' {
    } else {
      var init := path[..|path| - 1];
      ExtShape(init);
      if Ext(init) == "" {
        assert forall k :: 0 <= k < |init| ==> init[k] == path[k] && path[k + 1..] == init[k + 1..] + [path[|path| - 1]];
      } else {
        assert path == init + [path[|path| - 1]];
      }
    }
  }

  /** A dot in an earlier path element never makes the extension: only the final element counts. */
  lemma {:induction false} ExtOfFinalElement(dir: string, name: string)
    ensures Ext(dir + "/" + name) == Ext(name)
    decreases |name|
  {
    var p := dir + "/" + name;
    if |name| == 0 {
      assert p[|p| - 1] == '/';
    } else {
      var c := name[|name| - 1];
      assert p[|p| - 1] == c;
      assert p[..|p| - 1] == dir + "/" + name[..|name| - 1];
      ExtOfFinalElement(dir, name[..|name| - 1]);
    }
  }

  /**
   * When `s` ends in `e`, a dot followed by characters that are neither dots
   * nor separators, the extension of `s` is exactly `e`.
   */
  lemma {:induction false} ExtOfDottedSuffix(s: string, e: string)
    requires |e| > 0 && e[0] == '.'
    requires forall k :: 0 < k < |e| ==> e[k] != '.' && e[k] != '/'
    ensures Ext(s + e) == e
    decreases |e|
  {
    var p := s + e;
    if |e| == 1 {
      assert p[|p| - 1] == '.';
      assert p[|p| - 1..] == e;
    } else {
      var init := e[..|e| - 1];
      assert p[..|p| - 1] == s + init;
      ExtOfDottedSuffix(s, init);
      assert init + [e[|e| - 1]] == e;
    }
  }
}
