/**
 * The classifier the Netlify edge functions share (netlify/edge-lib/bot-detector.ts):
 * a case-insensitive agent pattern, a list of blocked address prefixes, and a
 * case-sensitive if/else chain that names the bot type. It is simpler than the
 * site classifier: no scores, no header checks, and an empty agent is a generic bot.
 */
module EdgeBotDetector {
  import opened JsString
  import opened Http
  import opened BotDetection

  /** `BotInfo`; `botType.Name()` is the `type` string. */
  datatype BotInfo = BotInfo(isBot: bool, botType: BotType, userAgent: string, ip: string)

  /** The alternatives of `BOT_UA_REGEX` (with the `i` flag). */
  const EdgeBotTokens: seq<string> := [
    "bot", "crawl", "spider", "facebookexternalhit", "facebot", "slurp", "mediapartners",
    "adsbot", "bingpreview", "twitterbot", "linkedinbot", "embedly", "quora", "pinterest",
    "crawler", "python-requests", "axios", "wget", "fetch", "telegrambot", "vkshare",
    "whatsapp", "skypeuripreview", "discordbot", "applebot", "snapchat", "google", "yahoo",
    "baidu", "yandex", "duckduckbot", "curl", "scrapy", "httpclient", "postman", "insomnia"]

  /** `BLOCKED_IP_RANGES`: each regex is `^` and a literal prefix with escaped dots. */
  const EdgeBlockedPrefixes: seq<string> := [
    "31.13.", "157.240.", "185.60.", "66.220.", "69.63.", "173.252.", "204.15.20.",
    "23.235.", "66.249.", "157.55.", "207.46.", "40.77.", "52.167.", "13.107."]

  /** The first non-empty of `x-forwarded-for`, `x-real-ip`, `cf-connecting-ip`, else `""`. */
  function ClientIp(h: HeaderMap): string {
    OrElse(Header(h, "x-forwarded-for"),
           OrElse(Header(h, "x-real-ip"), HeaderOr(h, "cf-connecting-ip", "")))
  }

  /** `isBotUA`: no agent, or the pattern matches. */
  predicate IsBotAgent(ua: string) {
    ua == "" || ContainsAnyIgnoringCase(ua, EdgeBotTokens)
  }

  /** `isBlockedIP`: some listed prefix starts the address. */
  predicate IsBlockedIp(ip: string) {
    exists i :: 0 <= i < |EdgeBlockedPrefixes| && StartsWith(ip, EdgeBlockedPrefixes[i])
  }

  /** The types the chain names, in the order it tries them. */
  const EdgeOrder: seq<BotType> :=
    [Facebook, Google, Bing, Twitter, LinkedIn, Telegram, Discord, WhatsApp, Scraper]

  /** The case-sensitive test of one arm of the chain; other types are never selected. */
  predicate EdgeSelects(ua: string, t: BotType) {
    match t
    case Facebook => Contains(ua, "facebook") || Contains(ua, "meta")
    case Google => Contains(ua, "google")
    case Bing => Contains(ua, "bing")
    case Twitter => Contains(ua, "twitter")
    case LinkedIn => Contains(ua, "linkedin")
    case Telegram => Contains(ua, "telegram")
    case Discord => Contains(ua, "discord")
    case WhatsApp => Contains(ua, "whatsapp")
    case Scraper => Contains(ua, "python") || Contains(ua, "curl") || Contains(ua, "wget")
    case _ => false
  }

  /** The first type of `order` whose test succeeds, or `GenericBot`. */
  function EdgeRefine(ua: string, order: seq<BotType>): BotType
    decreases |order|
  {
    if order == [] then GenericBot
    else if EdgeSelects(ua, order[0]) then order[0]
    else EdgeRefine(ua, order[1..])
  }

  /** The if/else chain for a flagged agent, as the source writes it; each condition is
    * the arm's test. */
  function AgentType(ua: string): BotType {
    if EdgeSelects(ua, Facebook) then Facebook
    else if EdgeSelects(ua, Google) then Google
    else if EdgeSelects(ua, Bing) then Bing
    else if EdgeSelects(ua, Twitter) then Twitter
    else if EdgeSelects(ua, LinkedIn) then LinkedIn
    else if EdgeSelects(ua, Telegram) then Telegram
    else if EdgeSelects(ua, Discord) then Discord
    else if EdgeSelects(ua, WhatsApp) then WhatsApp
    else if EdgeSelects(ua, Scraper) then Scraper
    else GenericBot
  }

  /** `isBot(request)` */
  function IsBot(req: FetchRequest): BotInfo {
    var ua := HeaderOr(req.headers, "user-agent", "");
    var ip := ClientIp(req.headers);
    var isBotUa := IsBotAgent(ua);
    var isBlocked := IsBlockedIp(ip);
    var botType := if isBotUa then AgentType(ua) else if isBlocked then BlockedIp else Unknown;
    BotInfo(isBotUa || isBlocked, botType, ua, ip)
  }

  /** `getRedirectUrl(fallbackUrl, originalUrl)`: the fallback, whatever the URL. */
  function GetRedirectUrl(fallbackUrl: string, originalUrl: string): (url: string)
    ensures url == fallbackUrl
  {
    fallbackUrl
  }

  /** `isRealUser(request)` */
  predicate IsRealUser(req: FetchRequest) {
    !IsBot(req).isBot
  }

  // ---------------------------------------------------------------------
  // properties

  /** `EdgeRefine` picks the least type whose test succeeds, or `GenericBot`. */
  lemma {:induction false} EdgeRefineIsFirstMatch(ua: string, order: seq<BotType>, k: int)
    requires 0 <= k <= |order|
    requires forall j :: 0 <= j < k ==> !EdgeSelects(ua, order[j])
    requires k < |order| ==> EdgeSelects(ua, order[k])
    ensures EdgeRefine(ua, order) == if k < |order| then order[k] else GenericBot
    decreases |order|
  {
    if order != [] && k > 0 {
      EdgeRefineIsFirstMatch(ua, order[1..], k - 1);
    }
  }

  /** The chain is the first-match refinement over the order facebook/meta, google, bing,
    * twitter, linkedin, telegram, discord, whatsapp, python/curl/wget. */
  lemma AgentTypeIsFirstMatch(ua: string)
    ensures AgentType(ua) == EdgeRefine(ua, EdgeOrder)
  {
    var o8 := [Scraper];
    var o7 := [WhatsApp] + o8;
    var o6 := [Discord] + o7;
    var o5 := [Telegram] + o6;
    var o4 := [LinkedIn] + o5;
    var o3 := [Twitter] + o4;
    var o2 := [Bing] + o3;
    var o1 := [Google] + o2;
    assert EdgeOrder == [Facebook] + o1;
    EdgeRefineCons(ua, Scraper, []);
    EdgeRefineCons(ua, WhatsApp, o8);
    EdgeRefineCons(ua, Discord, o7);
    EdgeRefineCons(ua, Telegram, o6);
    EdgeRefineCons(ua, LinkedIn, o5);
    EdgeRefineCons(ua, Twitter, o4);
    EdgeRefineCons(ua, Bing, o3);
    EdgeRefineCons(ua, Google, o2);
    EdgeRefineCons(ua, Facebook, o1);
  }

  /** One step of the refinement: the head of the order is tried first. */
  lemma EdgeRefineCons(ua: string, t: BotType, rest: seq<BotType>)
    ensures EdgeRefine(ua, [t] + rest) == if EdgeSelects(ua, t) then t else EdgeRefine(ua, rest)
  {
    assert ([t] + rest)[1..] == rest;
  }

  /** The result echoes the agent and address it used; it flags a bot exactly when the
    * agent is missing or matches, or the address is blocked. */
  lemma IsBotInputs(req: FetchRequest)
    ensures IsBot(req).userAgent == HeaderOr(req.headers, "user-agent", "")
    ensures IsBot(req).ip == ClientIp(req.headers)
    ensures IsBot(req).isBot <==> IsBotAgent(IsBot(req).userAgent) || IsBlockedIp(IsBot(req).ip)
    ensures IsRealUser(req) <==> !IsBot(req).isBot
  {
  }

  /** The address is the first non-empty of the three headers, or `""`. */
  lemma ClientIpOrder(h: HeaderMap)
    ensures Truthy(Header(h, "x-forwarded-for")) ==> ClientIp(h) == h["x-forwarded-for"]
    ensures !Truthy(Header(h, "x-forwarded-for")) && Truthy(Header(h, "x-real-ip"))
            ==> ClientIp(h) == h["x-real-ip"]
    ensures !Truthy(Header(h, "x-forwarded-for")) && !Truthy(Header(h, "x-real-ip"))
            ==> ClientIp(h) == HeaderOr(h, "cf-connecting-ip", "")
  {
  }

  /** No test of the chain succeeds on the empty agent. */
  lemma NothingSelectsEmpty(t: BotType)
    ensures !EdgeSelects("", t)
  {
  }

  /** An empty or missing agent is a bot, and since no substring occurs in `""`, a
    * generic one. */
  lemma EmptyAgentIsGeneric(req: FetchRequest)
    requires !Truthy(Header(req.headers, "user-agent"))
    ensures IsBot(req).isBot && IsBot(req).botType == GenericBot
  {
    forall j | 0 <= j < |EdgeOrder|
      ensures !EdgeSelects("", EdgeOrder[j])
    {
      NothingSelectsEmpty(EdgeOrder[j]);
    }
    EdgeRefineIsFirstMatch("", EdgeOrder, |EdgeOrder|);
    AgentTypeIsFirstMatch("");
  }

  /** The type is `unknown` exactly when no bot is flagged. */
  lemma UnknownIffHuman(req: FetchRequest)
    ensures IsBot(req).botType == Unknown <==> !IsBot(req).isBot
    ensures IsBot(req).botType.Name() == "unknown" <==> !IsBot(req).isBot
  {
    NameIsUnknownOnlyForUnknown(IsBot(req).botType);
  }

  /** A flagged agent decides the type even from a blocked address; `blocked_ip` is
    * reported exactly for an unflagged agent from a blocked address. */
  lemma AgentBeforeAddress(req: FetchRequest)
    ensures IsBotAgent(IsBot(req).userAgent) ==> IsBot(req).botType == AgentType(IsBot(req).userAgent)
    ensures IsBot(req).botType == BlockedIp
            <==> !IsBotAgent(IsBot(req).userAgent) && IsBlockedIp(IsBot(req).ip)
  {
  }

  /** A first hop in a Googlebot range is blocked; the test reads the whole raw header,
    * so only the first address of a list counts. */
  lemma GooglebotRangeBlocked(rest: string)
    ensures IsBlockedIp("66.249." + rest)
  {
    assert EdgeBlockedPrefixes[8] == "66.249.";
    assert ("66.249." + rest)[..7] == "66.249.";
  }
}
