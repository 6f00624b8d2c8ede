/**
 * The `bot-detector` edge function (netlify/edge-functions/bot-detector.ts): the main
 * domain and excluded paths pass; a bot is sent to the decoy; everybody else is sent
 * to the same path and query on the main domain.
 */
module BotDetectorEdge {
  import opened Common
  import opened JsString
  import opened Http
  import opened EdgeBotDetector
  import opened EdgeRedirectConfig

  /** The default handler. */
  function Handle(req: FetchRequest): Decision {
    var config := GetRedirectConfig();
    var host := HeaderOr(req.headers, "host", "");
    if Contains(host, config.mainDomain) then PassThrough
    else if ShouldExcludePath(req.pathname, config) then PassThrough
    else if IsBot(req).isBot then Found(GetRedirectUrl(config.botRedirectUrl, req.url))
    else Found(GetTargetUrl(req, config))
  }

  function Host(req: FetchRequest): string {
    HeaderOr(req.headers, "host", "")
  }

  // ---------------------------------------------------------------------
  // properties

  /** A host containing the main domain passes, whatever the path; the host test comes
    * before the path test. */
  lemma MainDomainPasses(req: FetchRequest)
    requires Contains(Host(req), "turbo-play.live")
    ensures Handle(req) == Pass(None)
  {
  }

  /** Any other host passes on an excluded path. */
  lemma ExcludedPasses(req: FetchRequest)
    requires ShouldExcludePath(req.pathname, GetRedirectConfig())
    ensures Handle(req) == Pass(None)
  {
  }

  /** Elsewhere a bot gets a 302 to the decoy and everybody else a 302 to the main
    * domain with the same path and query (the target's own host test has already
    * failed), so the handler never passes such a request on. */
  lemma OtherwiseRedirects(req: FetchRequest)
    requires !Contains(Host(req), "turbo-play.live")
    requires !ShouldExcludePath(req.pathname, GetRedirectConfig())
    ensures IsBot(req).isBot ==> Handle(req) == Redirect("https://yalanyokgaming.netlify.app", 302, map[])
    ensures !IsBot(req).isBot
            ==> Handle(req) == Redirect("https://turbo-play.live" + req.pathname + req.search, 302, map[])
    ensures Handle(req).Redirect? && Handle(req).status == 302
  {
    TargetUrlCases(req);
  }
}
