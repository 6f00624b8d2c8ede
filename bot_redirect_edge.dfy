/**
 * The `bot-redirect` edge function (netlify/edge-functions/bot-redirect.ts): excluded
 * paths pass, a bot is sent to the decoy, and everybody else passes; and the paths the
 * function declares it is not run for.
 */
module BotRedirectEdge {
  import opened Common
  import opened JsString
  import opened Http
  import opened EdgeBotDetector
  import opened EdgeRedirectConfig

  /** The default handler. */
  function Handle(req: FetchRequest): Decision {
    var config := GetRedirectConfig();
    if ShouldExcludePath(req.pathname, config) then PassThrough
    else if IsBot(req).isBot then Found(GetRedirectUrl(config.botRedirectUrl, req.url))
    else PassThrough
  }

  /** `config.excludedPath` */
  const ExcludedPatterns: seq<string> := [
    "/_next/static/*", "/_next/image/*", "/api/*", "/api/telegram/*", "/favicon.ico",
    "/robots.txt", "/sitemap.xml", "/manifest.json", "/apple-touch-icon.png"]

  /** The literal part of a pattern: the pattern without its trailing `*`, if it has
    * one (no declared pattern has a star anywhere else). */
  function LiteralPart(pattern: string): (lit: string)
    ensures StartsWith(pattern, lit) && |pattern| - 1 <= |lit|
  {
    if |pattern| > 0 && pattern[|pattern| - 1] == '*' then pattern[..|pattern| - 1] else pattern
  }

  // ---------------------------------------------------------------------
  // properties

  /** An excluded path passes. */
  lemma ExcludedPasses(req: FetchRequest)
    requires ShouldExcludePath(req.pathname, GetRedirectConfig())
    ensures Handle(req) == Pass(None)
  {
  }

  /** A bot on any other path gets a 302 to the decoy; only bots are redirected, so a
    * real visitor is never redirected. */
  lemma OnlyBotsRedirected(req: FetchRequest)
    ensures !ShouldExcludePath(req.pathname, GetRedirectConfig()) && IsBot(req).isBot
            ==> Handle(req) == Redirect("https://yalanyokgaming.netlify.app", 302, map[])
    ensures Handle(req).Redirect? ==> IsBot(req).isBot
    ensures !IsBot(req).isBot ==> Handle(req) == Pass(None)
  {
  }

  /** The decision does not read the host. */
  lemma IgnoresHost(req: FetchRequest, host: string)
    ensures Handle(req) == Handle(req.(headers := req.headers["host" := host]))
  {
    var h := req.headers;
    var h' := h["host" := host];
    assert Header(h', "user-agent") == Header(h, "user-agent");
    assert Header(h', "x-forwarded-for") == Header(h, "x-forwarded-for");
    assert Header(h', "x-real-ip") == Header(h, "x-real-ip");
    assert Header(h', "cf-connecting-ip") == Header(h, "cf-connecting-ip");
  }

  /** The literal part of every declared pattern is itself excluded by the handler's own
    * path test. */
  lemma DeclaredPatternsExcluded(i: int)
    requires 0 <= i < |ExcludedPatterns|
    ensures ShouldExcludePath(LiteralPart(ExcludedPatterns[i]), GetRedirectConfig())
  {
    var excluded := GetRedirectConfig().excludedPaths;
    var j := if i <= 1 then i else if i <= 3 then 2 else i - 1;
    assert StartsWith(LiteralPart(ExcludedPatterns[i]), excluded[j]);
  }
}
