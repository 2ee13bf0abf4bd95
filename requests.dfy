/**
 * The parts of a godoc.org HTTP request that the redirect shim reads, and
 * Go's url.Values multimap with the three operations it uses.
 */
module Requests {
  import opened Wrappers

  /** url.Values: each key maps to its values in order. */
  type Values = map<string, seq<string>>

  /** http.Header, copied into the analytics event without being read. */
  type Header = map<string, seq<string>>

  /** Values.Get(key): the first value for the key, or "" when there is none. */
  function Get(q: Values, key: string): (v: string)
    ensures key in q && |q[key]| > 0 ==> v == q[key][0]
    ensures v != "" ==> key in q && |q[key]| > 0
  {
    if key in q && |q[key]| > 0 then q[key][0] else ""
  }

  /** Values.Add(key, value): appends the value to those already held for the key. */
  function Add(q: Values, key: string, value: string): (r: Values)
    ensures r.Keys == q.Keys + {key}
    ensures r[key] == (if key in q then q[key] else []) + [value]
    ensures forall k :: k in q && k != key ==> r[k] == q[k]
  {
    q[key := (if key in q then q[key] else []) + [value]]
  }

  /** Values.Set(key, value): replaces whatever the key held by the single value. */
  function Set(q: Values, key: string, value: string): (r: Values)
    ensures r.Keys == q.Keys + {key}
    ensures r[key] == [value]
    ensures forall k :: k in q && k != key ==> r[k] == q[k]
  {
    q[key := [value]]
  }

  /** The parsed request URL (*url.URL): host, path, raw query and its parse. */
  datatype RequestURL = RequestURL(host: string, path: string, rawQuery: string, query: Values)

  /**
   * An incoming request: its URL, the transport-level Host header, the form
   * values that FormValue consults (URL query and POST body already parsed),
   * the value of the pkggodev-redirect cookie when one is sent, and the
   * headers.
   */
  datatype Request = Request(
    url: RequestURL,
    host: string,
    form: Values,
    redirectCookie: Option<string>,
    header: Header)

  /** Request.FormValue(key): the first form value for the key, or "". */
  function FormValue(r: Request, key: string): (v: string)
  {
    Get(r.form, key)
  }
}
