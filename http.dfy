/**
 * Requests and the decisions a request handler can take, as values.
 * Header names are lower-case, as the Fetch `Headers` object stores them.
 */
module Http {
  import opened Common
  import opened JsString

  /** Request headers by lower-case name. */
  type HeaderMap = map<string, string>

  /** A Fetch `Request` as an edge function sees it: its URL as given, the pathname
    * and search of that URL, and its headers. */
  datatype FetchRequest = FetchRequest(url: string, pathname: string, search: string,
                                       headers: HeaderMap)

  /** `headers.get(name)` / `headers[name]`: `None` when the header is absent. */
  function Header(h: HeaderMap, name: string): (v: Option<string>)
    ensures v.Some? <==> name in h
    ensures v.Some? ==> v.value == h[name]
  {
    if name in h then Some(h[name]) else None
  }

  /** JavaScript truthiness of an optional string: present and non-empty. */
  predicate Truthy(v: Option<string>) {
    v.Some? && v.value != ""
  }

  /** `v || fallback` for an optional string. */
  function OrElse(v: Option<string>, fallback: string): (r: string)
    ensures Truthy(v) ==> r == v.value
    ensures !Truthy(v) ==> r == fallback
  {
    if Truthy(v) then v.value else fallback
  }

  /** `headers.get(name) || fallback` */
  function HeaderOr(h: HeaderMap, name: string, fallback: string): string {
    OrElse(Header(h, name), fallback)
  }

  /** A `Set-Cookie` the response carries. */
  datatype Cookie = Cookie(name: string, value: string, path: string, maxAge: int,
                           httpOnly: bool, secure: bool, sameSite: string)

  /** What a handler answers: pass the request on (possibly setting a cookie),
    * redirect it, or refuse it. */
  datatype Decision =
    | Pass(cookie: Option<Cookie>)
    | Redirect(location: string, status: int, headers: HeaderMap)
    | Deny(status: int, headers: HeaderMap, body: string)

  /** `NextResponse.next()` / `context.next()` without a cookie. */
  const PassThrough: Decision := Pass(None)

  /** A redirect with only the `Location` header. */
  function Found(location: string): Decision {
    Redirect(location, 302, map[])
  }
}
