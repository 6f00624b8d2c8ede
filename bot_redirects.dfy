/**
 * The redirect policy per bot type (src/utils/botRedirects.ts): a table from
 * bot-type name to the redirect a bot of that type receives, a total lookup
 * that falls back to the `unknown` entry, and the decoy-URL helpers.
 */
module BotRedirects {
  import opened Common
  import opened Http
  import opened BotDetection

  /** One entry of the table: where to send the bot, with which status and headers. */
  datatype RedirectConfig = RedirectConfig(url: string, status: int, headers: HeaderMap)

  /** The decoy site every bot is sent to. */
  const DecoyUrl: string := "https://yalanyokgaming.netlify.app"

  /** The headers every entry asks the response to carry. */
  const NoIndexHeaders: HeaderMap :=
    map["X-Robots-Tag" := "noindex, nofollow",
        "Cache-Control" := "no-cache, no-store, must-revalidate"]

  /** The entry the source writes out, identically, for every key. */
  const DecoyConfig: RedirectConfig := RedirectConfig(DecoyUrl, 302, NoIndexHeaders)

  /** The keys of the table, as the source lists them. */
  const ConfigKeys: set<string> := {
    "facebook", "google", "bing", "twitter", "linkedin", "telegram", "whatsapp", "discord",
    "apple", "snapchat", "pinterest", "quora", "embedly", "vkontakte", "skype", "scraper",
    "blocked_ip", "suspicious", "suspicious_headers", "no_user_agent", "generic_bot",
    "unknown"}

  /** `BOT_REDIRECT_CONFIGS`: every key maps to the same decoy entry. */
  const Configs: map<string, RedirectConfig> := map k | k in ConfigKeys :: DecoyConfig

  /** `getBotRedirectConfig(botType)`: an absent or empty type, or one the table does
    * not list, gets the `unknown` entry. */
  function GetBotRedirectConfig(botType: Option<string>): (c: RedirectConfig)
    ensures c in Configs.Values
    ensures c == DecoyConfig
  {
    if !Truthy(botType) then Configs["unknown"]
    else if botType.value in Configs then Configs[botType.value]
    else Configs["unknown"]
  }

  /** `getAllBotRedirectConfigs()`: a shallow copy of the table. */
  function GetAllBotRedirectConfigs(): (all: map<string, RedirectConfig>)
    ensures all.Keys == ConfigKeys
    ensures forall k :: k in all ==> all[k] == GetBotRedirectConfig(Some(k))
  {
    map k | k in Configs :: Configs[k]
  }

  /** `isBotRedirectUrl(url)` */
  predicate IsBotRedirectUrl(url: string) {
    url == "https://yalanyokgaming.netlify.app"
  }

  /** `getBotRedirectUrl()` */
  function GetBotRedirectUrl(): (url: string)
    ensures IsBotRedirectUrl(url)
  {
    "https://yalanyokgaming.netlify.app"
  }

  // ---------------------------------------------------------------------
  // properties of the table

  /** The lookup is total: a listed key gets its own entry, anything else (absent,
    * empty or unlisted) gets the `unknown` entry. */
  lemma LookupOrFallback(botType: Option<string>)
    ensures Truthy(botType) && botType.value in Configs
            ==> GetBotRedirectConfig(botType) == Configs[botType.value]
    ensures !(Truthy(botType) && botType.value in Configs)
            ==> GetBotRedirectConfig(botType) == Configs["unknown"]
  {
  }

  /** Every entry redirects to the decoy with 302 and exactly the two no-index headers. */
  lemma EveryEntryIsDecoy(k: string)
    requires k in Configs
    ensures Configs[k].url == DecoyUrl && Configs[k].status == 302
    ensures Configs[k].headers.Keys == {"X-Robots-Tag", "Cache-Control"}
    ensures Configs[k].headers["X-Robots-Tag"] == "noindex, nofollow"
    ensures Configs[k].headers["Cache-Control"] == "no-cache, no-store, must-revalidate"
  {
  }

  /** Every bot type the classifiers name is a key of the table. */
  lemma EveryTypeIsKey(t: BotType)
    ensures t.Name() in Configs
  {
  }

  /** No verdict of `detectBot` falls back: a reported type finds its own entry. */
  lemma DetectedTypeHasEntry(ua: string, h: HeaderMap)
    requires DetectBot(ua, h).botType.Some?
    ensures var name := DetectBot(ua, h).botType.value.Name();
            name in Configs && name != "unknown"
            && GetBotRedirectConfig(Some(name)) == Configs[name]
  {
    var t := DetectBot(ua, h).botType.value;
    DetectBotTyped(ua, h);
    EveryTypeIsKey(t);
    NameNonEmpty(t);
    assert t != Unknown;
    NameIsUnknownOnlyForUnknown(t);
  }

  /** The decoy test holds for the decoy helper and for every entry the lookup returns,
    * and for nothing else. */
  lemma DecoyUrlRecognised(botType: Option<string>, url: string)
    ensures IsBotRedirectUrl(GetBotRedirectUrl())
    ensures IsBotRedirectUrl(GetBotRedirectConfig(botType).url)
    ensures IsBotRedirectUrl(url) <==> url == DecoyUrl
  {
  }
}
