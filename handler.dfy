/**
 * pkgGoDevRedirectHandler (gddo-server/pkgsite.go): the wrapper around every
 * godoc.org page handler that records the visitor's consent in a cookie and
 * redirects consenting visitors to pkg.go.dev.
 */
module Handler {
  import opened Wrappers
  import opened Requests
  import opened Redirect
  import opened Destination
  import opened Events

  /** http.StatusFound. */
  const StatusFound: int := 302

  /** The fields of http.Cookie the handler sets. */
  datatype Cookie = Cookie(name: string, value: string, path: string, maxAge: int)

  /** What the handler does to the consent cookie. */
  datatype CookieAction = NoCookie | SetOn | Delete

  /** Whether the wrapped page handler runs, or the visitor is sent to a pkg.go.dev URL. */
  datatype Response = PassThrough | RedirectTo(dest: URL)

  datatype Outcome = Outcome(cookie: CookieAction, response: Response)

  /** The Set-Cookie headers written for a cookie action. */
  function CookiesFor(action: CookieAction): (cookies: seq<Cookie>)
  {
    match action
    case NoCookie => []
    case SetOn => [Cookie(RedirectCookie, RedirectOn, "/", 0)]
    case Delete => [Cookie(RedirectCookie, "", "/", -1)]
  }

  /** The cookie action that an override asks for. */
  function ActionFor(c: Consent): (action: CookieAction)
  {
    match c
    case On => SetOn
    case Off => Delete
    case Unset => NoCookie
  }

  /**
   * The handler's outcome: a visitor coming back from pkg.go.dev is served
   * untouched; anyone else has the override stored or cleared, then is
   * redirected to the mapped URL exactly when shouldRedirectToPkgGoDev says so.
   */
  function Handle(r: Request): (o: Outcome)
  {
    if UserReturningFromPkgGoDev(r) then Outcome(NoCookie, PassThrough)
    else
      Outcome(
        ActionFor(Override(r)),
        if ShouldRedirectToPkgGoDev(r) then RedirectTo(Resolve(r.url)) else PassThrough)
  }

  /** The part of http.ResponseWriter the handler writes: cookies, a status and a Location. */
  class ResponseWriter {
    var cookies: seq<Cookie>
    var status: int
    var location: Option<URL>

    constructor ()
      ensures cookies == [] && status == 0 && location == None
    {
      cookies := [];
      status := 0;
      location := None;
    }

    /** http.SetCookie(w, c). */
    method SetCookie(c: Cookie)
      modifies this
      ensures cookies == old(cookies) + [c]
      ensures status == old(status) && location == old(location)
    {
      cookies := cookies + [c];
    }

    /** http.Redirect(w, r, dest, code). */
    method Redirect(dest: URL, code: int)
      modifies this
      ensures location == Some(dest) && status == code
      ensures cookies == old(cookies)
    {
      location := Some(dest);
      status := code;
    }
  }

  /**
   * The handler returned by pkgGoDevRedirectHandler(f). It answers true when
   * it hands the request on to f, false when it has redirected.
   */
  method PkgGoDevRedirectHandler(w: ResponseWriter, r: Request) returns (next: bool)
    modifies w
    ensures next <==> Handle(r).response == PassThrough
    ensures w.cookies == old(w.cookies) + CookiesFor(Handle(r).cookie)
    ensures next ==> w.status == old(w.status) && w.location == old(w.location)
    ensures !next ==> w.status == StatusFound && w.location == Some(Handle(r).response.dest)
  {
    if UserReturningFromPkgGoDev(r) {
      return true;
    }

    var redirectParam := FormValue(r, RedirectParam);

    if redirectParam == RedirectOn {
      w.SetCookie(Cookie(RedirectCookie, redirectParam, "/", 0));
    }
    if redirectParam == RedirectOff {
      w.SetCookie(Cookie(RedirectCookie, "", "/", -1));
    }

    if !ShouldRedirectToPkgGoDev(r) {
      return true;
    }

    var dest := PkgGoDevURL(r.url);
    w.Redirect(dest, StatusFound);
    return false;
  }

  /**
   * The browser's copy of the consent cookie after it receives Set-Cookie
   * headers: a negative MaxAge (sent as Max-Age=0) deletes the cookie, any
   * other stores its value.
   */
  function StoreCookies(jar: Option<string>, headers: seq<Cookie>): (kept: Option<string>)
    decreases |headers|
  {
    if headers == [] then jar
    else
      var c := headers[0];
      var jar' := if c.name != RedirectCookie then jar
        else if c.maxAge < 0 then None
        else Some(c.value);
      StoreCookies(jar', headers[1..])
  }

  /**
   * The value "backtogodoc" of utm_source lets the request through untouched,
   * even with redirect=on; any other utm_source value does not, so its
   * redirect=on still stores the cookie.
   */
  lemma ReturningUserUntouched(r: Request)
    ensures FormValue(r, "utm_source") == "backtogodoc" ==> Handle(r) == Outcome(NoCookie, PassThrough)
    ensures FormValue(r, "utm_source") != "backtogodoc" && FormValue(r, "redirect") == "on" ==>
      Handle(r).cookie == SetOn
  {
  }

  /**
   * For anyone else, redirect=on stores the cookie with value on and path /,
   * redirect=off deletes it (empty value, negative MaxAge, path /), and any
   * other value leaves it alone.
   */
  lemma CookieWrites(r: Request)
    requires !UserReturningFromPkgGoDev(r)
    ensures FormValue(r, "redirect") == "on" ==>
      CookiesFor(Handle(r).cookie) == [Cookie("pkggodev-redirect", "on", "/", 0)]
    ensures FormValue(r, "redirect") == "off" ==>
      CookiesFor(Handle(r).cookie) == [Cookie("pkggodev-redirect", "", "/", -1)]
    ensures FormValue(r, "redirect") !in {"on", "off"} ==> CookiesFor(Handle(r).cookie) == []
  {
  }

  /** For anyone else, the request is redirected exactly when shouldRedirectToPkgGoDev holds, and then to pkgGoDevURL of its URL. */
  lemma RedirectIff(r: Request)
    requires !UserReturningFromPkgGoDev(r)
    ensures Handle(r).response.RedirectTo? <==> ShouldRedirectToPkgGoDev(r)
    ensures Handle(r).response.RedirectTo? ==> Handle(r).response.dest == Resolve(r.url)
  {
  }

  /** An API request carrying redirect=on still has the cookie stored, but is not redirected. */
  lemma APIStoresConsentWithoutRedirect(r: Request)
    requires IsAPIRequest(r) && !UserReturningFromPkgGoDev(r) && FormValue(r, "redirect") == "on"
    ensures Handle(r) == Outcome(SetOn, PassThrough)
  {
  }

  /**
   * Consent round trip: after a request with redirect=on, a later request
   * that carries only the cookie the browser kept (no override, not an API
   * host, not returning) is redirected.
   */
  lemma ConsentOnPersists(first: Request, later: Request)
    requires !UserReturningFromPkgGoDev(first) && FormValue(first, "redirect") == "on"
    requires later.redirectCookie == StoreCookies(first.redirectCookie, CookiesFor(Handle(first).cookie))
    requires !UserReturningFromPkgGoDev(later) && !IsAPIRequest(later) && Override(later) == Unset
    ensures Handle(later).response == RedirectTo(Resolve(later.url))
  {
  }

  /** After a request with redirect=off, a later request with only the browser's cookie is not redirected. */
  lemma ConsentOffPersists(first: Request, later: Request)
    requires !UserReturningFromPkgGoDev(first) && FormValue(first, "redirect") == "off"
    requires later.redirectCookie == StoreCookies(first.redirectCookie, CookiesFor(Handle(first).cookie))
    requires Override(later) == Unset
    ensures Handle(later).response == PassThrough
  {
  }

  /**
   * The event records whether the visitor would be redirected, not what
   * happened: a returning visitor with the cookie on is served by godoc.org,
   * yet its event says it uses pkg.go.dev.
   */
  lemma EventRecordsIntent(r: Request, latency: Duration, isRobot: bool, status: int)
    requires UserReturningFromPkgGoDev(r) && !IsAPIRequest(r)
    requires Override(r) == Unset && r.redirectCookie == Some("on")
    ensures Handle(r).response == PassThrough
    ensures NewGDDOEvent(r, latency, isRobot, status).usePkgGoDev
  {
  }
}
