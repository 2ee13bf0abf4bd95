/**
 * The analytics record sent to the teeproxy for a godoc.org request
 * (gddo-server/pkgsite.go, gddoEvent and newGDDOEvent).
 */
module Events {
  import opened Requests
  import opened Redirect

  /** time.Duration, copied through unread. */
  type Duration = int

  /** The fields of the url.URL whose String() becomes the event's URL. */
  datatype TargetURL = TargetURL(scheme: string, host: string, path: string, rawQuery: string)

  /** gddoEvent. */
  datatype GDDOEvent = GDDOEvent(
    host: string,
    path: string,
    status: int,
    url: TargetURL,
    header: Header,
    latency: Duration,
    isRobot: bool,
    usePkgGoDev: bool)

  /**
   * newGDDOEvent: the request's https URL, on the URL's own host when it has
   * one and otherwise on the Host header; the other fields copied, and
   * whether this visitor would be redirected.
   */
  function NewGDDOEvent(r: Request, latency: Duration, isRobot: bool, status: int): (e: GDDOEvent)
    ensures e.url == TargetURL("https", e.host, r.url.path, r.url.rawQuery)
    ensures r.url.host != "" ==> e.host == r.url.host
    ensures r.url.host == "" ==> e.host == r.host
    ensures e.path == r.url.path && e.status == status && e.header == r.header
    ensures e.latency == latency && e.isRobot == isRobot
    ensures e.usePkgGoDev == ShouldRedirectToPkgGoDev(r)
  {
    var parsed := TargetURL("https", r.url.host, r.url.path, r.url.rawQuery);
    var target := if parsed.host == "" && r.host != "" then parsed.(host := r.host) else parsed;
    GDDOEvent(target.host, r.url.path, status, target, r.header, latency, isRobot,
      ShouldRedirectToPkgGoDev(r))
  }
}
