/**
 * Whether a godoc.org visitor is sent on to pkg.go.dev
 * (gddo-server/pkgsite.go, shouldRedirectToPkgGoDev and
 * userReturningFromPkgGoDev).
 */
module Redirect {
  import opened Wrappers
  import opened GoStrings
  import opened Requests

  const RedirectCookie: string := "pkggodev-redirect"
  const RedirectParam: string := "redirect"
  const RedirectOn: string := "on"
  const RedirectOff: string := "off"

  /** userReturningFromPkgGoDev: the visitor followed pkg.go.dev's "back to godoc.org" link. */
  predicate UserReturningFromPkgGoDev(r: Request)
  {
    FormValue(r, "utm_source") == "backtogodoc"
  }

  /** The request reached an API host (its URL's host, not the Host header, starts with "api"). */
  predicate IsAPIRequest(r: Request)
  {
    HasPrefix(r.url.host, "api")
  }

  /** shouldRedirectToPkgGoDev, branch for branch. */
  predicate ShouldRedirectToPkgGoDev(r: Request)
  {
    if HasPrefix(r.url.host, "api") then false
    else
      var redirectParam := FormValue(r, RedirectParam);
      if redirectParam == RedirectOn || redirectParam == RedirectOff then
        redirectParam == RedirectOn
      else
        r.redirectCookie.Some? && r.redirectCookie.value == RedirectOn
  }

  /** The visitor's consent, as the redirect parameter or the cookie expresses it. */
  datatype Consent = On | Off | Unset

  /** The per-request override: the redirect parameter when it is exactly on or off. */
  function Override(r: Request): (c: Consent)
    ensures c == On <==> FormValue(r, RedirectParam) == "on"
    ensures c == Off <==> FormValue(r, RedirectParam) == "off"
  {
    match FormValue(r, RedirectParam)
    case "on" => On
    case "off" => Off
    case _ => Unset
  }

  /** The stored consent: only a cookie whose value is on means yes. */
  function Stored(cookie: Option<string>): (c: Consent)
    ensures c != Unset
    ensures c == On <==> cookie == Some("on")
  {
    if cookie == Some("on") then On else Off
  }

  /**
   * The precedence rule on its own: API hosts never redirect; otherwise the
   * override, when set, decides; otherwise the stored consent does.
   */
  function Decide(api: bool, override: Consent, stored: Consent): (redirect: bool)
  {
    !api && (if override != Unset then override == On else stored == On)
  }

  /** shouldRedirectToPkgGoDev is the precedence rule applied to the request. */
  lemma ShouldRedirectIsPrecedence(r: Request)
    ensures ShouldRedirectToPkgGoDev(r) == Decide(IsAPIRequest(r), Override(r), Stored(r.redirectCookie))
  {
  }

  /** An API host is never redirected, whatever the parameter or the cookie say. */
  lemma APINeverRedirects(r: Request)
    requires HasPrefix(r.url.host, "api")
    ensures !ShouldRedirectToPkgGoDev(r)
  {
  }

  /** Only the URL's host is consulted: an "api" Host header alone does not stop a redirect. */
  lemma HostHeaderIgnored(r: Request, host: string)
    ensures ShouldRedirectToPkgGoDev(r.(host := host)) == ShouldRedirectToPkgGoDev(r)
  {
  }

  /**
   * An override of on or off wins over the cookie: with the same form and
   * URL host, whatever cookie the two requests carry, they get the same
   * answer, and that answer is whether the override is on.
   */
  lemma OverrideWins(r: Request, cookie: Option<string>)
    requires !IsAPIRequest(r) && Override(r) != Unset
    ensures ShouldRedirectToPkgGoDev(r) <==> FormValue(r, "redirect") == "on"
    ensures ShouldRedirectToPkgGoDev(r.(redirectCookie := cookie)) == ShouldRedirectToPkgGoDev(r)
  {
  }

  /** Without an override, the request is redirected exactly when its cookie holds on. */
  lemma CookieDecides(r: Request)
    requires !IsAPIRequest(r) && Override(r) == Unset
    ensures ShouldRedirectToPkgGoDev(r) <==> r.redirectCookie == Some("on")
  {
  }
}
