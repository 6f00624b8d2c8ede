/**
 * The site middleware (middleware.ts): the per-request routing decision, the
 * country-to-language table, the language-cookie rule and the content gate
 * that follows the routing, and the path matcher that decides which requests
 * the middleware sees.
 *
 * The routing returns on every host (a host either ends with the canonical
 * suffix or it does not), so the content gate is never reached from
 * `middleware`; it is modelled as its own function, `ContentGate`, so that
 * its rules can still be stated.
 */
module Middleware {
  import opened Common
  import opened JsString
  import opened Http
  import opened BotDetection
  import opened BotRedirects

  /** What the middleware reads of a `NextRequest`. Header names are lower-case;
    * `pathname` and `search` are the already-parsed parts of `nextUrl`. */
  datatype Request = Request(headers: HeaderMap, pathname: string, search: string,
                             cookies: map<string, string>)

  /** The canonical domain: requests for it are served as they are. */
  const CanonicalSuffix: string := "turbo-play.live"

  /** The advertising host whose real visitors are sent to the canonical site. */
  const CampaignSuffix: string := "gamingyalanyok.netlify.app"

  const CanonicalOrigin: string := "https://turbo-play.live"

  // ---------------------------------------------------------------------
  // entries copied with forEach

  /** `source.forEach((value, key) => target[key] = value)` and
    * `Object.entries(source).forEach(([key, value]) => target.set(key, value))`:
    * every entry of `source` is written into `target`, overriding what was there. */
  method CopyEntries(target: HeaderMap, source: HeaderMap) returns (result: HeaderMap)
    ensures result == target + source
  {
    result := target;
    var pending := source.Keys;
    while pending != {}
      invariant pending <= source.Keys
      invariant result.Keys == target.Keys + (source.Keys - pending)
      invariant forall k :: k in result && k !in source.Keys - pending ==> result[k] == target[k]
      invariant forall k :: k in source.Keys - pending ==> result[k] == source[k]
      decreases pending
    {
      var key :| key in pending;
      result := result[key := source[key]];
      pending := pending - {key};
    }
  }

  /** The `headers` record the middleware builds: a copy of the request's headers.
    * Because the copy equals `req.headers`, the routing and the content gate below
    * pass `req.headers` to `DetectBot` where the source passes this record. */
  method CollectHeaders(req: Request) returns (record: HeaderMap)
    ensures record == req.headers
  {
    record := CopyEntries(map[], req.headers);
    assert map[] + req.headers == req.headers;
  }

  // ---------------------------------------------------------------------
  // routing

  function Host(req: Request): string {
    HeaderOr(req.headers, "host", "")
  }

  /** `isFromMetaAds`: the referer names one of the Meta or messenger domains. */
  predicate FromMetaAds(referer: string) {
    ContainsAny(referer, ["facebook.com", "instagram.com", "whatsapp.com", "telegram.me", "t.me"])
  }

  /** The same path and query on the canonical site; an empty pathname becomes `/`. */
  function CanonicalTarget(req: Request): (target: string)
    ensures StartsWith(target, CanonicalOrigin)
    ensures req.pathname == "" ==> target == CanonicalOrigin + "/" + req.search
    ensures req.pathname != "" ==> target == CanonicalOrigin + req.pathname + req.search
  {
    var path := if req.pathname == "" then "/" else req.pathname;
    assert (CanonicalOrigin + path + req.search)[..|CanonicalOrigin|] == CanonicalOrigin;
    CanonicalOrigin + path + req.search
  }

  /** The redirect test of both non-canonical branches: no (or an empty) agent header,
    * or a bot verdict. */
  predicate SendToDecoy(req: Request) {
    var uaHeader := Header(req.headers, "user-agent");
    !Truthy(uaHeader) || DetectBot(OrElse(uaHeader, ""), req.headers).isBot
  }

  /** `middleware(request)`, with `production` standing for
    * `process.env.NODE_ENV === 'production'`. */
  function Middleware(req: Request, production: bool): Decision {
    var host := Host(req);
    var fromMeta := FromMetaAds(HeaderOr(req.headers, "referer", ""));
    if EndsWith(host, CanonicalSuffix) then PassThrough
    else if EndsWith(host, CampaignSuffix) then
      if SendToDecoy(req) then Found(GetBotRedirectConfig(None).url)
      else Found(CanonicalTarget(req))
    else if !EndsWith(host, CanonicalSuffix) then
      if SendToDecoy(req) then Found(GetBotRedirectConfig(None).url)
      else if fromMeta then Found(CanonicalTarget(req))
      else Found(CanonicalTarget(req))
    else ContentGate(req, production)
  }

  // ---------------------------------------------------------------------
  // the content gate

  /** `COUNTRY_TO_LANGUAGE[country]`: the table's entry for a country code, if it has one. */
  function CountryToLanguage(country: string): Option<string> {
    match country
    case "AZ" => Some("az")
    case "RU" => Some("ru")
    case "UA" => Some("uk")
    case "BY" => Some("ru")
    case "KZ" => Some("ru")
    case "UZ" => Some("ru")
    case "AM" => Some("hy")
    case "GE" => Some("ka")
    case "MD" => Some("ro")
    case "RO" => Some("ro")
    case "BG" => Some("bg")
    case "HR" => Some("hr")
    case "SI" => Some("sl")
    case "SK" => Some("sk")
    case "CZ" => Some("cs")
    case "PL" => Some("pl")
    case "HU" => Some("hu")
    case "EE" => Some("et")
    case "LV" => Some("lv")
    case "LT" => Some("lt")
    case "MT" => Some("mt")
    case "CY" => Some("el")
    case "GR" => Some("el")
    case "IT" => Some("it")
    case "ES" => Some("es")
    case "PT" => Some("pt")
    case "FR" => Some("fr")
    case "BE" => Some("nl")
    case "NL" => Some("nl")
    case "DE" => Some("de")
    case "AT" => Some("de")
    case "CH" => Some("de")
    case "LI" => Some("de")
    case "LU" => Some("fr")
    case "MC" => Some("fr")
    case "AD" => Some("ca")
    case "GB" => Some("en")
    case "IE" => Some("en")
    case "IS" => Some("is")
    case "NO" => Some("no")
    case "SE" => Some("sv")
    case "DK" => Some("da")
    case "FI" => Some("fi")
    case "AL" => Some("sq")
    case "MK" => Some("mk")
    case "RS" => Some("sr")
    case "ME" => Some("sr")
    case "BA" => Some("bs")
    case "XK" => Some("sq")
    case "TR" => Some("tr")
    case "US" => Some("en")
    case "CA" => Some("en")
    case "MX" => Some("es")
    case "BR" => Some("pt-BR")
    case "AR" => Some("es")
    case "CL" => Some("es")
    case "CO" => Some("es")
    case "PE" => Some("es")
    case "VE" => Some("es")
    case "EC" => Some("es")
    case "BO" => Some("es")
    case "PY" => Some("es")
    case "UY" => Some("es")
    case "GY" => Some("en")
    case "SR" => Some("nl")
    case "GF" => Some("fr")
    case "FK" => Some("en")
    case "JP" => Some("ja")
    case "CN" => Some("zh")
    case "TW" => Some("zh")
    case "HK" => Some("zh")
    case "MO" => Some("zh")
    case "KR" => Some("ko")
    case "VN" => Some("vi")
    case "TH" => Some("th")
    case "MY" => Some("ms")
    case "ID" => Some("id")
    case "PH" => Some("fil")
    case "SG" => Some("en")
    case "BN" => Some("en")
    case "KH" => Some("km")
    case "LA" => Some("lo")
    case "MM" => Some("my")
    case "BD" => Some("bn")
    case "LK" => Some("si")
    case "NP" => Some("ne")
    case "BT" => Some("dz")
    case "MV" => Some("dv")
    case "IN" => Some("hi")
    case "PK" => Some("ur")
    case "AF" => Some("ps")
    case "IR" => Some("fa")
    case "IQ" => Some("ar")
    case "SY" => Some("ar")
    case "LB" => Some("ar")
    case "JO" => Some("ar")
    case "PS" => Some("ar")
    case "IL" => Some("he")
    case "SA" => Some("ar")
    case "AE" => Some("ar")
    case "QA" => Some("ar")
    case "KW" => Some("ar")
    case "BH" => Some("ar")
    case "OM" => Some("ar")
    case "YE" => Some("ar")
    case "EG" => Some("ar")
    case "LY" => Some("ar")
    case "TN" => Some("ar")
    case "DZ" => Some("ar")
    case "MA" => Some("ar")
    case "NG" => Some("en")
    case "GH" => Some("en")
    case "KE" => Some("sw")
    case "UG" => Some("en")
    case "TZ" => Some("sw")
    case "ZM" => Some("en")
    case "MW" => Some("en")
    case "BW" => Some("en")
    case "NA" => Some("en")
    case "SZ" => Some("en")
    case "LS" => Some("en")
    case "MU" => Some("en")
    case "SC" => Some("en")
    case "KM" => Some("ar")
    case "DJ" => Some("ar")
    case "ET" => Some("am")
    case "SD" => Some("ar")
    case "SS" => Some("en")
    case "ER" => Some("ti")
    case "SO" => Some("so")
    case "RW" => Some("rw")
    case "BI" => Some("fr")
    case "CD" => Some("fr")
    case "CG" => Some("fr")
    case "GA" => Some("fr")
    case "GQ" => Some("es")
    case "CM" => Some("fr")
    case "CF" => Some("fr")
    case "TD" => Some("ar")
    case "GN" => Some("fr")
    case "SL" => Some("en")
    case "LR" => Some("en")
    case "GM" => Some("en")
    case "SN" => Some("fr")
    case "CI" => Some("fr")
    case "BF" => Some("fr")
    case "ML" => Some("fr")
    case "NE" => Some("fr")
    case "TG" => Some("fr")
    case "BJ" => Some("fr")
    case "GW" => Some("pt")
    case "CV" => Some("pt")
    case "ST" => Some("pt")
    case "AO" => Some("pt")
    case "MZ" => Some("pt")
    case "ZW" => Some("en")
    case "ZA" => Some("af")
    case "MG" => Some("fr")
    case "AU" => Some("en")
    case "NZ" => Some("en")
    case "FJ" => Some("en")
    case "PG" => Some("en")
    case "SB" => Some("en")
    case "VU" => Some("en")
    case "NC" => Some("fr")
    case "PF" => Some("fr")
    case "WF" => Some("fr")
    case "TO" => Some("en")
    case "WS" => Some("en")
    case "KI" => Some("en")
    case "TV" => Some("en")
    case "NR" => Some("en")
    case "PW" => Some("en")
    case "FM" => Some("en")
    case "MH" => Some("en")
    case "CK" => Some("en")
    case "NU" => Some("en")
    case "TK" => Some("en")
    case "AS" => Some("en")
    case "GU" => Some("en")
    case "MP" => Some("en")
    case _ => None
  }

  /** `x-country || x-vercel-ip-country || 'US'` */
  function Country(h: HeaderMap): string {
    OrElse(Header(h, "x-country"), HeaderOr(h, "x-vercel-ip-country", "US"))
  }

  /** `COUNTRY_TO_LANGUAGE[country] || 'en'` */
  function LanguageFor(country: string): (language: string)
    ensures language != ""
    ensures Truthy(CountryToLanguage(country)) ==> language == CountryToLanguage(country).value
    ensures CountryToLanguage(country).None? ==> language == "en"
  {
    OrElse(CountryToLanguage(country), "en")
  }

  const LanguageCookieName: string := "turbo_wheel_language"

  /** The cookie write: 30 days, readable by scripts, secure only in production. */
  function LanguageCookie(language: string, production: bool): Cookie {
    Cookie(LanguageCookieName, language, "/", 60 * 60 * 24 * 30, false, production, "lax")
  }

  /** `!existingLanguage || existingLanguage !== language` */
  predicate NeedsCookie(existing: Option<string>, language: string) {
    !Truthy(existing) || existing.value != language
  }

  /** `isDefinitelyHuman`: a Chrome agent, an HTML Accept and both negotiation
    * headers present. */
  predicate IsDefinitelyHuman(h: HeaderMap) {
    var ua := HeaderOr(h, "user-agent", "");
    Contains(ua, "Mozilla/5.0") && Contains(ua, "Chrome")
    && Contains(HeaderOr(h, "accept", ""), "text/html")
    && HeaderOr(h, "accept-language", "") != ""
    && HeaderOr(h, "accept-encoding", "") != ""
  }

  /** The name `getBotRedirectConfig` receives for a verdict's type. */
  function TypeName(t: Option<BotType>): Option<string> {
    match t
    case Some(b) => Some(b.Name())
    case None => None
  }

  /** The bot response: the entry's location and status, with each of the entry's
    * headers set on the fresh redirect (`CopyEntries` into no extra headers). */
  function BotResponse(config: RedirectConfig): Decision {
    Redirect(config.url, config.status, config.headers)
  }

  /** `request.cookies.get('turbo_wheel_language')?.value` */
  function ExistingLanguage(req: Request): Option<string> {
    if LanguageCookieName in req.cookies then Some(req.cookies[LanguageCookieName]) else None
  }

  /** The language the gate settles on for a request. */
  function Language(req: Request): string {
    LanguageFor(Country(req.headers))
  }

  /** The cookie the gate writes, if any. */
  function GateCookie(req: Request, production: bool): Option<Cookie> {
    var language := Language(req);
    if NeedsCookie(ExistingLanguage(req), language) then Some(LanguageCookie(language, production)) else None
  }

  /** Lines 158-300 of `middleware`: the language cookie, the human fast path and the
    * bot redirect. `cookie` is the cookie write, when one is made. */
  function ContentGate(req: Request, production: bool): Decision {
    var h := req.headers;
    var cookie := GateCookie(req, production);
    if IsDefinitelyHuman(h) then Pass(cookie)
    else
      var verdict := DetectBot(HeaderOr(h, "user-agent", ""), h);
      if verdict.isBot then BotResponse(GetBotRedirectConfig(TypeName(verdict.botType)))
      else Pass(cookie)
  }

  // ---------------------------------------------------------------------
  // the matcher

  /** The negative lookahead of `'/((?!api|_next/static|_next/image|favicon.ico).*)'`:
    * the path after its leading `/` starts with one of the alternatives, the `.` of
    * `favicon.ico` matching any character. */
  predicate Excluded(rest: string) {
    StartsWith(rest, "api") || StartsWith(rest, "_next/static") || StartsWith(rest, "_next/image")
    || (|rest| >= 11 && rest[..7] == "favicon" && rest[8..11] == "ico")
  }

  /** `config.matcher`: the middleware runs for a path when it matches the pattern. */
  predicate MatcherApplies(path: string) {
    |path| >= 1 && path[0] == '/' && !Excluded(path[1..])
  }

  // ---------------------------------------------------------------------
  // properties of the routing

  /** A host ending with the canonical suffix is passed on untouched: no cookie, no
    * redirect. */
  lemma CanonicalHostPasses(req: Request, production: bool)
    requires EndsWith(Host(req), CanonicalSuffix)
    ensures Middleware(req, production) == Pass(None)
  {
  }

  /** The canonical test is a plain suffix test: `xturbo-play.live` passes as well. */
  lemma SuffixIsNotADomainTest(req: Request, production: bool)
    requires req.headers == map["host" := "xturbo-play.live"]
    ensures Middleware(req, production) == Pass(None)
  {
    assert Host(req)[|Host(req)| - |CanonicalSuffix|..] == CanonicalSuffix;
  }

  /** The missing-agent test adds nothing to the classifier: `detectBot` flags an empty
    * agent itself, so the decoy test is exactly the bot verdict. */
  lemma DecoyTestIsDetection(req: Request)
    ensures SendToDecoy(req) <==> DetectBot(HeaderOr(req.headers, "user-agent", ""), req.headers).isBot
  {
    if !Truthy(Header(req.headers, "user-agent")) {
      EmptyAgent();
    }
  }

  /** Off the canonical host, a bot (or a request without an agent) is sent with 302 to
    * the `unknown` entry's decoy URL, with no further headers. */
  lemma BotsGoToDecoy(req: Request, production: bool)
    requires !EndsWith(Host(req), CanonicalSuffix)
    requires SendToDecoy(req)
    ensures Middleware(req, production) == Redirect(DecoyUrl, 302, map[])
  {
  }

  /** Off the canonical host, everybody else is sent with 302 to the same path and
    * query on the canonical site. */
  lemma HumansGoToCanonical(req: Request, production: bool)
    requires !EndsWith(Host(req), CanonicalSuffix)
    requires !SendToDecoy(req)
    ensures Middleware(req, production) == Redirect(CanonicalTarget(req), 302, map[])
  {
  }

  /** Every request is answered by the routing: the result is a pass-through or a 302
    * without headers, and the referer (the Meta flag) plays no part in it. */
  lemma RoutingReturnsEarly(req: Request, production: bool)
    ensures Middleware(req, production)
            == if EndsWith(Host(req), CanonicalSuffix) then Pass(None)
               else if SendToDecoy(req) then Redirect(DecoyUrl, 302, map[])
               else Redirect(CanonicalTarget(req), 302, map[])
  {
  }

  /** The cookies and the deployment mode never reach the routing's result, so the
    * content gate, which reads both, is never reached. */
  lemma RoutingIgnoresCookies(req: Request, production: bool, cookies: map<string, string>, production': bool)
    ensures Middleware(req, production) == Middleware(req.(cookies := cookies), production')
  {
    RoutingReturnsEarly(req, production);
    RoutingReturnsEarly(req.(cookies := cookies), production');
  }

  // ---------------------------------------------------------------------
  // properties of the content gate

  /** The language comes from `x-country`, then `x-vercel-ip-country`, then `US`, looked
    * up in the table with `en` as the fallback. */
  lemma LanguageSources(req: Request)
    ensures Truthy(Header(req.headers, "x-country"))
            ==> Language(req) == LanguageFor(req.headers["x-country"])
    ensures !Truthy(Header(req.headers, "x-country")) && Truthy(Header(req.headers, "x-vercel-ip-country"))
            ==> Language(req) == LanguageFor(req.headers["x-vercel-ip-country"])
    ensures !Truthy(Header(req.headers, "x-country")) && !Truthy(Header(req.headers, "x-vercel-ip-country"))
            ==> Language(req) == "en"
    ensures Language(req) != ""
  {
  }

  /** Two rows of the table. */
  lemma LanguageTableRows()
    ensures LanguageFor("KR") == "ko" && LanguageFor("BR") == "pt-BR"
  {
  }

  /** Countries missing from the table get English. */
  lemma UnlistedCountryIsEnglish()
    ensures LanguageFor("ZZ") == "en"
  {
  }

  /** The cookie is written exactly when the request has no language cookie or one with
    * another value, and it then carries the gate's language for 30 days. */
  lemma CookieWrittenIffStale(req: Request, production: bool)
    ensures GateCookie(req, production).Some?
            <==> ExistingLanguage(req) != Some(Language(req))
    ensures GateCookie(req, production).Some?
            ==> GateCookie(req, production).value
                == Cookie("turbo_wheel_language", Language(req), "/", 2592000, false, production, "lax")
  {
  }

  /** A definitely-human request passes on, with the cookie write if one was made, and is
    * never classified. */
  lemma HumanFastPath(req: Request, production: bool)
    requires IsDefinitelyHuman(req.headers)
    ensures ContentGate(req, production) == Pass(GateCookie(req, production))
  {
  }

  /** Any other request the classifier flags is redirected with the entry's status and
    * every one of its headers; the cookie write is dropped. */
  lemma GateRedirectsBots(req: Request, production: bool)
    requires !IsDefinitelyHuman(req.headers)
    requires DetectBot(HeaderOr(req.headers, "user-agent", ""), req.headers).isBot
    ensures ContentGate(req, production) == Redirect(DecoyUrl, 302, NoIndexHeaders)
  {
  }

  /** A request the classifier does not flag passes on, keeping the cookie write. */
  lemma GatePassesOthers(req: Request, production: bool)
    requires !DetectBot(HeaderOr(req.headers, "user-agent", ""), req.headers).isBot
    ensures ContentGate(req, production) == Pass(GateCookie(req, production))
  {
  }

  // ---------------------------------------------------------------------
  // properties of the matcher

  /** The exclusions are prefix tests on the path after `/`: `/apiary` is skipped like
    * `/api`, and the `.` of `favicon.ico` matches any character. */
  lemma MatcherExamples()
    ensures MatcherApplies("/") && MatcherApplies("/ru/game") && MatcherApplies("/_next/data")
    ensures !MatcherApplies("/api") && !MatcherApplies("/apiary")
    ensures !MatcherApplies("/_next/static/app.js") && !MatcherApplies("/_next/image")
    ensures !MatcherApplies("/favicon.ico") && !MatcherApplies("/favicon-ico")
  {
    assert "/apiary"[1..][..3] == "api";
    assert "/ru/game"[1..][..3][0] == 'r';
    assert "/_next/data"[1..][..3][0] == '_';
  }

  /** Skipping is closed under extension: a skipped path stays skipped whatever follows. */
  lemma SkippedStaysSkipped(path: string, suffix: string)
    requires |path| >= 1 && path[0] == '/' && !MatcherApplies(path)
    ensures !MatcherApplies(path + suffix)
  {
    var rest := path[1..];
    assert (path + suffix)[1..] == rest + suffix;
    assert (rest + suffix)[..|rest|] == rest;
  }
}
