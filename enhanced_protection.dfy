/**
 * The `enhanced-protection` edge function (netlify/edge-functions/enhanced-protection.ts):
 * excluded paths pass; scrapers and blocked addresses are refused with 403; other bots,
 * visitors from social referers and visitors without a usable Accept-Language are sent
 * to the decoy; everybody else passes.
 */
module EnhancedProtection {
  import opened Common
  import opened JsString
  import opened Http
  import opened BotDetection
  import opened EdgeBotDetector
  import opened EdgeRedirectConfig

  const DeniedBody: string := "Access denied: bot or scraper detected"

  /** The headers of the refusal for a bot of type `t`. */
  function DeniedHeaders(t: BotType): HeaderMap {
    map["Content-Type" := "text/plain", "X-Bot-Type" := t.Name()]
  }

  /** `/(facebook|twitter|linkedin|instagram|tiktok)\.com/i` */
  predicate SocialReferer(referer: string) {
    ContainsAnyIgnoringCase(referer, ["facebook.com", "twitter.com", "linkedin.com", "instagram.com", "tiktok.com"])
  }

  /** `!acceptLanguage || acceptLanguage.length < 5` */
  predicate WeakLanguage(acceptLanguage: Option<string>) {
    !Truthy(acceptLanguage) || Utf16Length(acceptLanguage.value) < 5
  }

  /** `handler(req, context)` */
  function Handle(req: FetchRequest): Decision {
    var config := GetRedirectConfig();
    if ShouldExcludePath(req.pathname, config) then PassThrough
    else
      var info := IsBot(req);
      if info.isBot then
        if info.botType.Name() == "scraper" || info.botType.Name() == "blocked_ip" then
          Deny(403, DeniedHeaders(info.botType), DeniedBody)
        else Found(config.botRedirectUrl)
      else
        var referer := Header(req.headers, "referer");
        if Truthy(referer) && SocialReferer(referer.value) then Found(config.botRedirectUrl)
        else if WeakLanguage(Header(req.headers, "accept-language")) then Found(config.botRedirectUrl)
        else PassThrough
  }

  // ---------------------------------------------------------------------
  // properties

  /** An excluded path passes before anything is classified. */
  lemma ExcludedPasses(req: FetchRequest)
    requires ShouldExcludePath(req.pathname, GetRedirectConfig())
    ensures Handle(req) == Pass(None)
  {
  }

  /** Scrapers and blocked addresses are refused with 403, a plain-text body and their
    * type in `X-Bot-Type`. */
  lemma ScrapersDenied(req: FetchRequest)
    requires !ShouldExcludePath(req.pathname, GetRedirectConfig())
    requires IsBot(req).botType == Scraper || IsBot(req).botType == BlockedIp
    ensures Handle(req) == Deny(403, map["Content-Type" := "text/plain",
                                         "X-Bot-Type" := IsBot(req).botType.Name()], DeniedBody)
  {
    UnknownIffHuman(req);
  }

  /** Every other bot is sent with 302 to the decoy. */
  lemma OtherBotsRedirected(req: FetchRequest)
    requires !ShouldExcludePath(req.pathname, GetRedirectConfig())
    requires IsBot(req).isBot && IsBot(req).botType != Scraper && IsBot(req).botType != BlockedIp
    ensures Handle(req) == Redirect("https://yalanyokgaming.netlify.app", 302, map[])
  {
    var t := IsBot(req).botType;
    assert t.Name() != "scraper" && t.Name() != "blocked_ip";
  }

  /** A request without an agent is a generic bot: it is redirected, never refused. */
  lemma EmptyAgentRedirected(req: FetchRequest)
    requires !ShouldExcludePath(req.pathname, GetRedirectConfig())
    requires !Truthy(Header(req.headers, "user-agent"))
    ensures Handle(req) == Redirect("https://yalanyokgaming.netlify.app", 302, map[])
  {
    EmptyAgentIsGeneric(req);
    OtherBotsRedirected(req);
  }

  /** A visitor the classifier passes is still sent to the decoy from a social referer or
    * with a missing or short Accept-Language; otherwise it passes. */
  lemma HumanChecks(req: FetchRequest)
    requires !ShouldExcludePath(req.pathname, GetRedirectConfig())
    requires !IsBot(req).isBot
    ensures var referer := Header(req.headers, "referer");
            Handle(req)
            == if (Truthy(referer) && SocialReferer(referer.value))
                  || WeakLanguage(Header(req.headers, "accept-language"))
               then Redirect("https://yalanyokgaming.netlify.app", 302, map[])
               else Pass(None)
  {
  }

  /** A request on a path that is not excluded passes exactly when it is not a bot, has
    * no social referer and has an Accept-Language of at least 5 code units. */
  lemma PassesIff(req: FetchRequest)
    requires !ShouldExcludePath(req.pathname, GetRedirectConfig())
    ensures Handle(req).Pass?
            <==> !IsBot(req).isBot
                 && !(Truthy(Header(req.headers, "referer")) && SocialReferer(req.headers["referer"]))
                 && "accept-language" in req.headers
                 && Utf16Length(req.headers["accept-language"]) >= 5
  {
    var al := Header(req.headers, "accept-language");
    assert !WeakLanguage(al) <==> "accept-language" in req.headers
                                  && Utf16Length(req.headers["accept-language"]) >= 5;
    if !IsBot(req).isBot {
      HumanChecks(req);
    }
  }
}
