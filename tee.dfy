/**
 * Which godoc.org requests have their metadata mirrored ("teed") to the
 * pkg.go.dev analytics proxy (gddo-server/pkgsite.go, shouldTeeRequest).
 */
module Tee {
  import opened GoStrings

  /** Prefix of App Engine's own infrastructure paths. */
  const AppEnginePrefix: string := "/_ah/"

  /** doNotTeeURLsToPkgGoDev: operational endpoints that are never teed. */
  const DoNotTeeURLs: set<string> := {"/-/bot", "/-/refresh"}

  /** doNotTeeExtsToPkgGoDev: asset extensions that are never teed. */
  const DoNotTeeExts: set<string> := {".css", ".html", ".js", ".txt", ".xml"}

  /** shouldTeeRequest(u): the three checks in the order shouldTeeRequest makes them. */
  predicate ShouldTeeRequest(u: string)
  {
    if HasPrefix(u, AppEnginePrefix) then false
    else if Ext(u) in DoNotTeeExts then false
    else if u in DoNotTeeURLs then false
    else true
  }

  /** The path ends in one of the denied asset extensions. */
  predicate EndsInDeniedExt(u: string)
  {
    exists e | e in DoNotTeeExts :: HasSuffix(u, e)
  }

  /** Every denied extension is a dot followed by characters that are neither dots nor slashes. */
  lemma DeniedExtShape(e: string)
    requires e in DoNotTeeExts
    ensures |e| > 0 && e[0] == '.'
    ensures forall k :: 0 < k < |e| ==> e[k] != '.' && e[k] != '/'
  {
  }

  /** A path that ends in a denied extension has exactly that extension. */
  lemma ExtOfDeniedSuffix(u: string, e: string)
    requires e in DoNotTeeExts && HasSuffix(u, e)
    ensures Ext(u) == e
  {
    DeniedExtShape(e);
    assert u == u[..|u| - |e|] + e;
    ExtOfDottedSuffix(u[..|u| - |e|], e);
  }

  /** A denied extension is always a suffix of the path. */
  lemma DeniedExtIsSuffix(u: string)
    requires Ext(u) in DoNotTeeExts
    ensures EndsInDeniedExt(u)
  {
    ExtIsSuffix(u);
    assert HasSuffix(u, Ext(u));
  }

  /** A path ending in a denied extension has that extension. */
  lemma SuffixIsDeniedExt(u: string)
    requires EndsInDeniedExt(u)
    ensures Ext(u) in DoNotTeeExts
  {
    var e :| e in DoNotTeeExts && HasSuffix(u, e);
    ExtOfDeniedSuffix(u, e);
  }

  /** The extension test of shouldTeeRequest is exactly "ends in a denied extension". */
  lemma DeniedExtIffSuffix(u: string)
    ensures Ext(u) in DoNotTeeExts <==> EndsInDeniedExt(u)
  {
    if Ext(u) in DoNotTeeExts { DeniedExtIsSuffix(u); }
    if EndsInDeniedExt(u) { SuffixIsDeniedExt(u); }
  }

  /**
   * A request is teed exactly when it is not under /_ah/, does not end in
   * .css, .html, .js, .txt or .xml, and is neither /-/bot nor /-/refresh.
   */
  lemma ShouldTeeIff(u: string)
    ensures ShouldTeeRequest(u) <==>
      !HasPrefix(u, "/_ah/") && !EndsInDeniedExt(u) && u != "/-/bot" && u != "/-/refresh"
  {
    DeniedExtIffSuffix(u);
  }

  /** Nothing under the App Engine prefix is teed. */
  lemma AppEngineNotTeed(rest: string)
    ensures !ShouldTeeRequest("/_ah/" + rest)
  {
    assert ("/_ah/" + rest)[..5] == "/_ah/";
  }

  /**
   * A file with a denied extension in the final element is not teed,
   * whatever directories (dotted or not) lead to it.
   */
  lemma {:induction false} AssetNotTeed(dir: string, name: string, e: string)
    requires e in DoNotTeeExts
    ensures !ShouldTeeRequest(dir + "/" + name + e)
  {
    DeniedExtShape(e);
    ExtOfDottedSuffix(dir + "/" + name, e);
  }

  /**
   * A dot in a directory element does not stop an extension-less page from
   * being teed: only the prefix and exact-path checks remain.
   */
  lemma {:induction false} DottedDirectoryTeed(dir: string, name: string)
    requires forall k :: 0 <= k < |name| ==> name[k] != '.'
    ensures ShouldTeeRequest(dir + "/" + name) <==>
      !HasPrefix(dir + "/" + name, AppEnginePrefix) && dir + "/" + name !in DoNotTeeURLs
  {
    ExtOfFinalElement(dir, name);
    ExtShape(name);
  }

  /** Sample paths: a package page is teed; /_ah/health, /-/refresh, /-/bot and a script are not. */
  lemma PackagePageTeed()
    ensures ShouldTeeRequest("/github.com/foo/bar")
  {
    var dir, name := "/github.com/foo", "bar";
    assert dir + "/" + name == "/github.com/foo/bar";
    DottedDirectoryTeed(dir, name);
    assert !HasPrefix(dir + "/" + name, AppEnginePrefix) by {
      assert (dir + "/" + name)[1] == 'g';
    }
  }

  lemma OperationalPathsNotTeed()
    ensures !ShouldTeeRequest("/_ah/health")
    ensures !ShouldTeeRequest("/-/refresh")
    ensures !ShouldTeeRequest("/-/bot")
  {
    AppEngineNotTeed("health");
    ShouldTeeIff("/-/refresh");
    ShouldTeeIff("/-/bot");
  }

  lemma ScriptNotTeed()
    ensures !ShouldTeeRequest("/static/app.js")
  {
    assert "/static" + "/" + "app" + ".js" == "/static/app.js";
    AssetNotTeed("/static", "app", ".js");
  }
}
