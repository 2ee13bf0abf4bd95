/**
 * pkgGoDevURL: where on pkg.go.dev a godoc.org URL sends the user
 * (gddo-server/pkgsite.go). The function Resolve states the mapping as a
 * first-match-wins table of rules; the method PkgGoDevURL builds the result
 * step by step as the Go code does and is proved to agree with it.
 */
module Destination {
  import opened GoStrings
  import opened Requests

  const PkgGoDevHost: string := "pkg.go.dev"

  /** The redirect target: scheme, host, path and the query as a multimap (before encoding). */
  datatype URL = URL(scheme: string, host: string, path: string, query: Values)

  /** The rules of the mapping, in priority order. */
  datatype Rule =
    | VendorRule                          // a vendored package: pkg.go.dev has no page for it
    | StdRule                             // /-/go, the standard library listing
    | AboutRule                           // /-/about
    | SearchRule(q: string)               // / with a search term
    | HomeRule                            // / without a search term
    | SubrepoRule                         // /-/subrepo, the golang.org/x listing
    | PackageRule(path: string, tab: string)  // any other page: same path, a tab chosen from the query

  /** The path names a vendored package: it holds "/vendor/" or ends in "/vendor". */
  predicate IsVendored(path: string)
  {
    Contains(path, "/vendor/") || HasSuffix(path, "/vendor")
  }

  /** The tab a package page opens on: imports, importedby, or doc. */
  function PackageTab(query: Values): (tab: string)
    ensures tab == "imports" <==> "imports" in query
    ensures tab == "importedby" <==> "imports" !in query && "importers" in query
    ensures tab == "doc" <==> "imports" !in query && "importers" !in query
  {
    if "imports" in query then "imports"
    else if "importers" in query then "importedby"
    else "doc"
  }

  /** The first rule that matches the godoc.org URL. */
  function Classify(godoc: RequestURL): (rule: Rule)
  {
    if IsVendored(godoc.path) then VendorRule
    else if godoc.path == "/-/go" then StdRule
    else if godoc.path == "/-/about" then AboutRule
    else if godoc.path == "/" && Get(godoc.query, "q") != "" then SearchRule(Get(godoc.query, "q"))
    else if godoc.path == "/" then HomeRule
    else if godoc.path == "/-/subrepo" then SubrepoRule
    else PackageRule(godoc.path, PackageTab(godoc.query))
  }

  /** The attribution every destination carries. */
  const Attribution: Values := map["utm_source" := ["godoc"]]

  /** The pkg.go.dev path and query parameters (besides the attribution) of a rule. */
  function Target(rule: Rule): (t: (string, Values))
  {
    match rule
    case VendorRule => ("/", map[])
    case StdRule => ("/std", map["tab" := ["packages"]])
    case AboutRule => ("/about", map[])
    case SearchRule(q) => ("/search", map["q" := [q]])
    case HomeRule => ("/", map[])
    case SubrepoRule => ("/search", map["q" := ["golang.org/x"]])
    case PackageRule(path, tab) => (path, map["tab" := [tab]])
  }

  /**
   * The destination of a godoc.org URL. Total: every path, however odd,
   * lands on an https page of pkg.go.dev that credits godoc.
   */
  function Resolve(godoc: RequestURL): (u: URL)
    ensures u.scheme == "https" && u.host == PkgGoDevHost
    ensures "utm_source" in u.query && u.query["utm_source"] == ["godoc"]
  {
    var (path, params) := Target(Classify(godoc));
    URL("https", PkgGoDevHost, path, Attribution + params)
  }

  /**
   * pkgGoDevURL(godocURL), as written: a fresh URL and a query holding the
   * attribution, then the vendor check, then a switch on the path whose
   * cases fill in the path and add or set query parameters.
   */
  method PkgGoDevURL(godoc: RequestURL) returns (u: URL)
    ensures u == Resolve(godoc)
  {
    u := URL("https", PkgGoDevHost, "", map[]);
    var q: Values := map["utm_source" := ["godoc"]];

    if Contains(godoc.path, "/vendor/") || HasSuffix(godoc.path, "/vendor") {
      u := u.(path := "/");
      u := u.(query := q);
      assert Classify(godoc) == VendorRule;
      assert q == Attribution + map[];
      return;
    }

    if godoc.path == "/-/go" {
      u := u.(path := "/std");
      assert "tab" !in q;
      q := Add(q, "tab", "packages");
      assert q["tab"] == [] + ["packages"] == ["packages"];
      assert q == Attribution + map["tab" := ["packages"]];
    } else if godoc.path == "/-/about" {
      u := u.(path := "/about");
    } else if godoc.path == "/" {
      var qparam := Get(godoc.query, "q");
      if qparam != "" {
        u := u.(path := "/search");
        q := Set(q, "q", qparam);
        assert q == Attribution + map["q" := [qparam]];
      } else {
        u := u.(path := "/");
      }
    } else if godoc.path == "/-/subrepo" {
      u := u.(path := "/search");
      q := Set(q, "q", "golang.org/x");
      assert q == Attribution + map["q" := ["golang.org/x"]];
    } else {
      u := u.(path := godoc.path);
      if "imports" in godoc.query {
        q := Set(q, "tab", "imports");
      } else if "importers" in godoc.query {
        q := Set(q, "tab", "importedby");
      } else {
        q := Set(q, "tab", "doc");
      }
      assert q == Attribution + map["tab" := [PackageTab(godoc.query)]];
    }

    assert !IsVendored(godoc.path);
    assert q == Attribution + Target(Classify(godoc)).1;
    assert u.path == Target(Classify(godoc)).0;
    u := u.(query := q);
  }

  /** A path without the letter v cannot name a vendored package. */
  lemma NoVendorWithoutV(path: string)
    requires 'v' !in path
    ensures !IsVendored(path)
  {
    forall i | 0 <= i <= |path| - 8 ensures !OccursAt(path, "/vendor/", i) {
      assert path[i..i + 8][1] == path[i + 1];
    }
    if |path| >= 7 {
      assert path[|path| - 7..][1] == path[|path| - 6];
    }
  }

  /** A vendored package goes to the pkg.go.dev home page with the attribution as its only parameter. */
  lemma VendoredGoesHome(godoc: RequestURL)
    requires IsVendored(godoc.path)
    ensures Resolve(godoc).path == "/"
    ensures Resolve(godoc).query == map["utm_source" := ["godoc"]]
  {
  }

  /** Any path with /vendor/ inside it, or ending in /vendor, is a vendored package. */
  lemma VendorSegmentIsVendored(before: string, after: string)
    ensures IsVendored(before + "/vendor/" + after)
    ensures IsVendored(before + "/vendor")
  {
    var p := before + "/vendor/" + after;
    assert OccursAt(p, "/vendor/", |before|) by {
      assert p[|before|..|before| + 8] == "/vendor/";
    }
    var s := before + "/vendor";
    assert s[|s| - 7..] == "/vendor";
  }

  /** The standard library listing: /-/go opens /std on the packages tab. */
  lemma StdListing(godoc: RequestURL)
    requires godoc.path == "/-/go"
    ensures Resolve(godoc).path == "/std"
    ensures Resolve(godoc).query == map["utm_source" := ["godoc"], "tab" := ["packages"]]
  {
    NoVendorWithoutV("/-/go");
  }

  /** /-/about opens /about with no tab. */
  lemma AboutPage(godoc: RequestURL)
    requires godoc.path == "/-/about"
    ensures Resolve(godoc).path == "/about"
    ensures Resolve(godoc).query == map["utm_source" := ["godoc"]]
  {
    NoVendorWithoutV("/-/about");
  }

  /** The home page: with a search term it searches for that term, without one it opens the home page. */
  lemma HomePage(godoc: RequestURL)
    requires godoc.path == "/"
    ensures var q := Get(godoc.query, "q");
      if q != "" then
        Resolve(godoc).path == "/search"
        && Resolve(godoc).query == map["utm_source" := ["godoc"], "q" := [q]]
      else
        Resolve(godoc).path == "/" && Resolve(godoc).query == map["utm_source" := ["godoc"]]
  {
    NoVendorWithoutV("/");
  }

  /** /-/subrepo becomes a search for golang.org/x. */
  lemma SubrepoListing(godoc: RequestURL)
    requires godoc.path == "/-/subrepo"
    ensures Resolve(godoc).path == "/search"
    ensures Resolve(godoc).query == map["utm_source" := ["godoc"], "q" := ["golang.org/x"]]
  {
    NoVendorWithoutV("/-/subrepo");
  }

  /** One of the special pages of godoc.org. */
  predicate IsSpecialPage(path: string)
  {
    path == "/-/go" || path == "/-/about" || path == "/" || path == "/-/subrepo"
  }

  /**
   * Every other page keeps its path and gains a tab: imports when the query
   * has the key imports (even with no value), else importedby when it has
   * importers, else doc. Nothing else is added.
   */
  lemma PackagePage(godoc: RequestURL)
    requires !IsVendored(godoc.path) && !IsSpecialPage(godoc.path)
    ensures Resolve(godoc).path == godoc.path
    ensures Resolve(godoc).query.Keys == {"utm_source", "tab"}
    ensures "imports" in godoc.query ==> Resolve(godoc).query["tab"] == ["imports"]
    ensures "imports" !in godoc.query && "importers" in godoc.query ==>
      Resolve(godoc).query["tab"] == ["importedby"]
    ensures "imports" !in godoc.query && "importers" !in godoc.query ==>
      Resolve(godoc).query["tab"] == ["doc"]
  {
  }

  /** The destination's path is one of the fixed pkg.go.dev pages, or the godoc.org path itself. */
  lemma DestinationPath(godoc: RequestURL)
    ensures var p := Resolve(godoc).path;
      p in {"/", "/std", "/about", "/search"} || p == godoc.path
  {
  }

  /** Sample package pages: /some/pkg with ?imports, with ?importers, and with no query. */
  lemma PackageSamples(imports: Values, importers: Values)
    requires "imports" in imports
    requires "imports" !in importers && "importers" in importers
    ensures Resolve(RequestURL("", "/some/pkg", "imports", imports)).query
      == map["utm_source" := ["godoc"], "tab" := ["imports"]]
    ensures Resolve(RequestURL("", "/some/pkg", "importers", importers)).query
      == map["utm_source" := ["godoc"], "tab" := ["importedby"]]
    ensures Resolve(RequestURL("", "/some/pkg", "", map[])).query
      == map["utm_source" := ["godoc"], "tab" := ["doc"]]
  {
    NoVendorWithoutV("/some/pkg");
  }

  /** Sample vendored page: a package vendored inside /some/pkg goes to the home page. */
  lemma VendoredSample(query: Values)
    ensures Resolve(RequestURL("", "/some/pkg/vendor/x", "", query)).path == "/"
  {
    VendorSegmentIsVendored("/some/pkg", "x");
    assert "/some/pkg" + "/vendor/" + "x" == "/some/pkg/vendor/x";
  }
}
