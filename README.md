# godoc.org → pkg.go.dev migration shim, in Dafny

This project models `gddo-server/pkgsite.go` of godoc.org (gddo): the logic
that decides, for each godoc.org request,

- whether its metadata is teed (mirrored) to the pkg.go.dev teeproxy
  (`shouldTeeRequest`, with its path and extension denylists);
- what analytics record is built for it (`newGDDOEvent`);
- whether the visitor is redirected to pkg.go.dev (`shouldRedirectToPkgGoDev`,
  `userReturningFromPkgGoDev`), and how the `pkggodev-redirect` consent cookie
  is set or cleared by the `redirect=on|off` parameter
  (`pkgGoDevRedirectHandler`);
- which pkg.go.dev URL a godoc.org URL maps to (`pkgGoDevURL`).

Modules, one file each:

| file | module | models |
|---|---|---|
| `wrappers.dfy` | `Wrappers` | `Option`, for a cookie that may be absent |
| `gostrings.dfy` | `GoStrings` | `strings.HasPrefix`, `strings.HasSuffix`, `strings.Contains`, `filepath.Ext` |
| `requests.dfy` | `Requests` | the request (`url`, `host`, `form`, cookie, `header`) and `url.Values` with `Get`/`Add`/`Set` |
| `tee.dfy` | `Tee` | `shouldTeeRequest` and its denylists |
| `destination.dfy` | `Destination` | `pkgGoDevURL`: a first-match rule table (`Resolve`) and the step-by-step method (`PkgGoDevURL`) proved equal to it |
| `redirect.dfy` | `Redirect` | `shouldRedirectToPkgGoDev`, `userReturningFromPkgGoDev`, and the on/off/unset precedence rule |
| `events.dfy` | `Events` | `gddoEvent` and `newGDDOEvent` |
| `handler.dfy` | `Handler` | `pkgGoDevRedirectHandler`: a pure outcome (`Handle`), the method writing into a `ResponseWriter` object, and the consent round trip through a browser's cookie jar |

Points where the code's behaviour is easy to misread:

- The "returning from pkg.go.dev" marker is not a bare presence test. The
  request bypasses the redirect only when the first `utm_source` form value is
  exactly `backtogodoc` (pkgsite.go:113-115).
- The API exemption tests the host of the request URL (`r.URL.Host`), not the
  `Host` header (`r.Host`); `Redirect.HostHeaderIgnored` states this.
- The "on" cookie is written with `MaxAge` 0, so it has no `Max-Age`
  attribute and lasts for the browser session. The "off" cookie has an
  empty value and a negative `MaxAge`, which Go sends as `Max-Age=0` and a
  browser treats as a deletion.
- A `redirect=on` on an API host still stores the cookie; only the redirect is
  suppressed (`Handler.APIStoresConsentWithoutRedirect`).

## Model

| member | source | states |
|---|---|---|
| `GoStrings.ExtShape` | gddo-server/pkgsite.go:70 | `filepath.Ext`: the result is "" or a dot-led suffix of the path with no further dot or `/`; it is "" only when every dot of the path is followed by a later `/` |
| `GoStrings.ExtIsSuffix` | gddo-server/pkgsite.go:70 | a non-empty `filepath.Ext` result starts with a dot and is a suffix of the path |
| `GoStrings.ExtOfFinalElement` | gddo-server/pkgsite.go:70 | only the final path element decides the extension: `Ext(dir + "/" + name) == Ext(name)` for every `dir` and `name` |
| `GoStrings.ExtOfDottedSuffix` | gddo-server/pkgsite.go:70-71 | a path ending in a dot plus dot-free, slash-free characters has exactly that suffix as its extension |
| `Tee.ShouldTeeIff` | gddo-server/pkgsite.go:64-78 | a path is teed iff it does not start with `/_ah/`, does not end in `.css`/`.html`/`.js`/`.txt`/`.xml`, and is neither `/-/bot` nor `/-/refresh` (both directions) |
| `Tee.DeniedExtIsSuffix` | gddo-server/pkgsite.go:56-72 | an extension found in the denylist is a suffix of the path |
| `Tee.SuffixIsDeniedExt` | gddo-server/pkgsite.go:56-72 | a path ending in a denied extension has that extension, so the extension check fires |
| `Tee.ExtOfDeniedSuffix` | gddo-server/pkgsite.go:56-71 | a path ending in one of the five denied extensions has exactly that extension |
| `Tee.DeniedExtIffSuffix` | gddo-server/pkgsite.go:56-72 | the extension check fires iff the path ends in one of the five denied extensions |
| `Tee.DeniedExtShape` | gddo-server/pkgsite.go:56-62 | each denied extension is a dot followed by characters that are neither dots nor slashes |
| `Tee.AppEngineNotTeed` | gddo-server/pkgsite.go:66-69 | no path under `/_ah/` is teed |
| `Tee.AssetNotTeed` | gddo-server/pkgsite.go:70-73 | a path whose final element ends in a denied extension is not teed, whatever directories precede it |
| `Tee.DottedDirectoryTeed` | gddo-server/pkgsite.go:70-77 | when the final element has no dot, a dot in an earlier element does not matter: only the `/_ah/` and exact-path checks decide |
| `Tee.PackagePageTeed` | gddo-server/pkgsite.go:65-78 | `/github.com/foo/bar` is teed |
| `Tee.OperationalPathsNotTeed` | gddo-server/pkgsite.go:49-76 | `/_ah/health`, `/-/refresh` and `/-/bot` are not teed |
| `Tee.ScriptNotTeed` | gddo-server/pkgsite.go:56-73 | `/static/app.js` is not teed |
| `Destination.Resolve` | gddo-server/pkgsite.go:168-209 | every godoc.org URL maps to an https URL on `pkg.go.dev` whose query has `utm_source` = [`godoc`] |
| `Destination.PkgGoDevURL` | gddo-server/pkgsite.go:168-209 | building the URL step by step, with `Add`/`Set` on the query, gives exactly the first-match rule table `Resolve` |
| `Destination.PackageTab` | gddo-server/pkgsite.go:197-203 | the tab is `imports` iff the key `imports` is present (even with an empty value); `importedby` iff `imports` is absent and `importers` present; `doc` iff both are absent |
| `Destination.VendoredGoesHome` | gddo-server/pkgsite.go:172-176 | a vendored path maps to `/` with `utm_source` as the only query key |
| `Destination.VendorSegmentIsVendored` | gddo-server/pkgsite.go:172 | any path with `/vendor/` inside it, or ending in `/vendor`, counts as vendored |
| `Destination.NoVendorWithoutV` | gddo-server/pkgsite.go:172 | a path without the letter `v` is never treated as vendored |
| `Destination.StdListing` | gddo-server/pkgsite.go:179-181 | `/-/go` maps to `/std` with query `utm_source=godoc`, `tab=packages` |
| `Destination.AboutPage` | gddo-server/pkgsite.go:182-183 | `/-/about` maps to `/about` with no tab |
| `Destination.HomePage` | gddo-server/pkgsite.go:184-190 | `/` with a non-empty `q` maps to `/search` carrying that `q`; without one it maps to `/` with only the attribution |
| `Destination.SubrepoListing` | gddo-server/pkgsite.go:191-193 | `/-/subrepo` maps to `/search` with `q=golang.org/x` |
| `Destination.PackagePage` | gddo-server/pkgsite.go:194-204 | any other non-vendored path keeps its path; the query is exactly `utm_source` plus a `tab` chosen as imports, then importedby, then doc |
| `Destination.DestinationPath` | gddo-server/pkgsite.go:178-205 | the destination path is `/`, `/std`, `/about`, `/search` or the godoc.org path itself |
| `Destination.PackageSamples` | gddo-server/pkgsite.go:194-204 | `/some/pkg` with `?imports`, `?importers` and no query gets tab `imports`, `importedby`, `doc` |
| `Destination.VendoredSample` | gddo-server/pkgsite.go:172-176 | `/some/pkg/vendor/x` maps to `/` |
| `Redirect.Override` | gddo-server/pkgsite.go:131-132 | the override is on iff the first `redirect` value is `on`, off iff it is `off`, unset otherwise |
| `Redirect.Stored` | gddo-server/pkgsite.go:135-136 | the stored consent is on iff the cookie is present with value `on`; any other value or no cookie means off |
| `Redirect.ShouldRedirectIsPrecedence` | gddo-server/pkgsite.go:126-137 | `shouldRedirectToPkgGoDev` equals the precedence rule: API host never, else the override if set, else the stored consent |
| `Redirect.APINeverRedirects` | gddo-server/pkgsite.go:127-130 | a URL host starting with `api` is never redirected, whatever the form and cookie |
| `Redirect.HostHeaderIgnored` | gddo-server/pkgsite.go:128 | changing the `Host` header alone never changes the decision |
| `Redirect.OverrideWins` | gddo-server/pkgsite.go:131-134 | with an on/off override, the result is whether it is `on`, and no cookie value changes it |
| `Redirect.CookieDecides` | gddo-server/pkgsite.go:135-136 | without an override, a non-API request is redirected iff its cookie is `on` |
| `Events.NewGDDOEvent` | gddo-server/pkgsite.go:91-111 | the event's host is the URL host when non-empty, else the `Host` header (possibly empty); its URL is https on that host with the request's path and raw query; path, status, header, latency and robot flag are copied; `UsePkgGoDev` is `shouldRedirectToPkgGoDev` |
| `Handler.PkgGoDevRedirectHandler` | gddo-server/pkgsite.go:142-166 | the handler hands on to the wrapped handler iff `Handle` says pass-through; it appends exactly the cookies of the cookie action; when it redirects, the status is 302 and the Location is the mapped URL; otherwise status and Location are untouched |
| `Handler.ReturningUserUntouched` | gddo-server/pkgsite.go:113-146 | `utm_source` exactly `backtogodoc` bypasses the handler: no cookie is written and nothing is redirected, even with `redirect=on`; any other `utm_source` value does not bypass it, so `redirect=on` still stores the cookie |
| `Handler.CookieWrites` | gddo-server/pkgsite.go:148-157 | otherwise `redirect=on` writes cookie `pkggodev-redirect`=`on`, path `/`; `redirect=off` writes it empty with MaxAge -1, path `/`; any other value writes nothing |
| `Handler.RedirectIff` | gddo-server/pkgsite.go:159-164 | otherwise the request is redirected iff `shouldRedirectToPkgGoDev` holds, and then to `pkgGoDevURL(r.URL)` |
| `Handler.APIStoresConsentWithoutRedirect` | gddo-server/pkgsite.go:148-161 | `redirect=on` on an API host stores the cookie but passes through |
| `Handler.ConsentOnPersists` | gddo-server/pkgsite.go:148-164 | after `redirect=on`, a later request carrying only the cookie the browser kept is redirected |
| `Handler.ConsentOffPersists` | gddo-server/pkgsite.go:154-161 | after `redirect=off`, a later request carrying only the cookie the browser kept is not redirected |
| `Handler.EventRecordsIntent` | gddo-server/pkgsite.go:101-111 | a returning visitor with the cookie on passes through, yet the event's `UsePkgGoDev` is true: the event records intent, not action |

## Left out

- `makePkgGoDevRequest` (pkgsite.go:23-46): JSON marshalling, the POST to the teeproxy and the deferred logging are network I/O and library calls; only the decision it makes first (`shouldTeeRequest`) and the event it builds are modelled.
- `url.URL.String()` and `url.Values.Encode()`: the event's URL is kept as its parts (scheme, host, path, raw query) and the redirect target as (scheme, host, path, query map), without percent-escaping or key sorting.
- `Request.FormValue` parsing (URL query plus POST body) and `URL.Query()` parsing: the request carries both as already-parsed maps, which the model does not tie to the raw query.
- The cookie wire format and any other cookies: the request carries only the value of the `pkggodev-redirect` cookie; the browser's handling of Set-Cookie (`Handler.StoreCookies`) is itself a model, used only to state the consent round trip.
- The wrapped handler `f` and the error it returns: the handler method returns whether it hands the request on to `f`.
- `http.Header` and `time.Duration` are copied values; their contents are not interpreted.
- `filepath.Ext` on Windows, where `\` is also a separator: the model uses `/` only.
