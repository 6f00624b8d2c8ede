/**
 * The redirect configuration of the edge functions (netlify/edge-lib/redirect-config.ts):
 * a constant record, two path tests and the canonical target URL.
 */
module EdgeRedirectConfig {
  import opened JsString
  import opened Http

  /** `RedirectConfig` */
  datatype EdgeConfig = EdgeConfig(mainDomain: string, botRedirectUrl: string, fallbackUrl: string,
                                   allowedPaths: seq<string>, excludedPaths: seq<string>)

  /** `getRedirectConfig()` */
  function GetRedirectConfig(): EdgeConfig {
    EdgeConfig(
      "turbo-play.live",
      "https://yalanyokgaming.netlify.app",
      "https://turbo-play.live",
      ["/", "/classic", "/api/analytics", "/api/meta/game-events", "/api/meta/purchase",
       "/api/notify", "/api/telegram/alert", "/api/telegram/daily-report",
       "/api/telegram/interactive", "/api/telegram/stats", "/api/telegram/weekly-report"],
      ["/_next/static", "/_next/image", "/api", "/favicon.ico", "/robots.txt", "/sitemap.xml",
       "/manifest.json", "/apple-touch-icon.png"])
  }

  /** `shouldExcludePath(pathname, config)`: some excluded entry starts the path. */
  predicate ShouldExcludePath(pathname: string, config: EdgeConfig) {
    exists i :: 0 <= i < |config.excludedPaths| && StartsWith(pathname, config.excludedPaths[i])
  }

  /** `isAllowedPath(pathname, config)`: the path is listed, or a listed entry starts it. */
  predicate IsAllowedPath(pathname: string, config: EdgeConfig) {
    pathname in config.allowedPaths
    || exists i :: 0 <= i < |config.allowedPaths| && StartsWith(pathname, config.allowedPaths[i])
  }

  /** `getTargetUrl(request, config)`: the request's own URL on a host that contains the
    * main domain, otherwise the same path and query on the main domain. */
  function GetTargetUrl(req: FetchRequest, config: EdgeConfig): string {
    var host := HeaderOr(req.headers, "host", "");
    if Contains(host, config.mainDomain) then req.url
    else "https://" + config.mainDomain + req.pathname + req.search
  }

  // ---------------------------------------------------------------------
  // properties

  /** The configuration's constants, and the two path lists' first entries. */
  lemma ConfigConstants()
    ensures GetRedirectConfig().mainDomain == "turbo-play.live"
    ensures GetRedirectConfig().botRedirectUrl == "https://yalanyokgaming.netlify.app"
    ensures GetRedirectConfig().fallbackUrl == "https://" + GetRedirectConfig().mainDomain
    ensures GetRedirectConfig().allowedPaths[0] == "/"
    ensures |GetRedirectConfig().excludedPaths| == 8
  {
  }

  /** Exclusion is closed under extension: whatever follows an excluded path is
    * excluded too. */
  lemma ExclusionExtends(pathname: string, suffix: string, config: EdgeConfig)
    requires ShouldExcludePath(pathname, config)
    ensures ShouldExcludePath(pathname + suffix, config)
  {
    var i :| 0 <= i < |config.excludedPaths| && StartsWith(pathname, config.excludedPaths[i]);
    var e := config.excludedPaths[i];
    assert (pathname + suffix)[..|e|] == pathname[..|e|];
  }

  /** The test is not segment-aware: `/apiary` is excluded through `/api`. */
  lemma ApiaryExcluded()
    ensures ShouldExcludePath("/apiary", GetRedirectConfig())
  {
    assert GetRedirectConfig().excludedPaths[2] == "/api";
    assert "/apiary"[..4] == "/api";
  }

  /** Listing a path is a special case of a listed prefix: the `includes` test adds
    * nothing to the `startsWith` test. */
  lemma ListedIsPrefix(pathname: string, config: EdgeConfig)
    ensures IsAllowedPath(pathname, config)
            <==> exists i :: 0 <= i < |config.allowedPaths| && StartsWith(pathname, config.allowedPaths[i])
  {
    if pathname in config.allowedPaths {
      var i :| 0 <= i < |config.allowedPaths| && config.allowedPaths[i] == pathname;
      assert StartsWith(pathname, config.allowedPaths[i]);
    }
  }

  /** Since `/` is allowed, every path that starts with `/` is allowed. */
  lemma EveryRootedPathAllowed(pathname: string)
    requires StartsWith(pathname, "/")
    ensures IsAllowedPath(pathname, GetRedirectConfig())
  {
    assert GetRedirectConfig().allowedPaths[0] == "/";
  }

  /** On a host containing the main domain the target is the request URL; elsewhere it is
    * the main domain's origin followed by the request's own path and query. */
  lemma TargetUrlCases(req: FetchRequest)
    ensures var config := GetRedirectConfig();
            Contains(HeaderOr(req.headers, "host", ""), config.mainDomain)
            ==> GetTargetUrl(req, config) == req.url
    ensures var config := GetRedirectConfig();
            !Contains(HeaderOr(req.headers, "host", ""), config.mainDomain)
            ==> GetTargetUrl(req, config) == config.fallbackUrl + req.pathname + req.search
  {
    var config := GetRedirectConfig();
    assert config.fallbackUrl == "https://" + config.mainDomain;
  }
}
