# Bot classification and redirect decisions of the Turbo Wheel site

This project is a Dafny model of the request-routing core of the Turbo Wheel promotional
site (GalaxyWheel001/updcheck), with proofs about it. The core decides, for every request,
whether the visitor is a crawler, a moderator tool or a scraper, and where to send it.
Suspected bots go to a decoy site. Real visitors go to the canonical domain `turbo-play.live`.

The model covers:

- the site's scoring classifier (`detectBot` and its three checks) and the redirect table per bot type;
- the Next.js middleware: host routing, the language cookie, the content gate and the path matcher;
- the shared Netlify edge classifier, its redirect configuration, and the four edge functions built on them;
- the tracking endpoint's helpers: the client address, the User-Agent summary, the flag emoji and the message text;
- the client-side utilities: User-Agent parsing, the spin wheel and its countdown, geolocation with its day-long cache, the visitor id, the analytics buffer, the visit notifications of the page body, and the virtual-list arithmetic.

Modules follow the source files:

| module | source |
|---|---|
| `BotDetection` | src/utils/botDetection.ts |
| `BotRedirects` | src/utils/botRedirects.ts |
| `Middleware` | middleware.ts |
| `EdgeBotDetector` | netlify/edge-lib/bot-detector.ts |
| `EdgeRedirectConfig` | netlify/edge-lib/redirect-config.ts |
| `EnhancedProtection` | netlify/edge-functions/enhanced-protection.ts |
| `BotDetectorEdge` | netlify/edge-functions/bot-detector.ts |
| `BotRedirectEdge` | netlify/edge-functions/bot-redirect.ts |
| `RedirectConfigEdge` | netlify/edge-functions/redirect-config.ts |
| `TrackRoute` | src/app/api/telegram/track/route.ts |
| `UserAgent` | src/utils/userAgent.ts |
| `Spin` | src/utils/spin.ts |
| `Geolocation` | src/utils/geolocation.ts |
| `UserId` | src/utils/userId.ts |
| `Analytics` | src/utils/analytics.ts |
| `ClientBody` | src/app/ClientBody.tsx |
| `Performance` | src/utils/performance.ts |

Shared modules:

- `Common`: `Option` with its `??` fallback, and `Math.max`.
- `JsString`: the string operations the code uses, namely `includes`, `startsWith`, `endsWith`, `trim`, `split(sep)[0]`, ASCII case mapping, UTF-16 length, and first-match tables.
- `Decimal`: `toString`, `padStart` and `parseInt` on integers.
- `Http`: header maps, JavaScript truthiness of optional strings, requests and routing decisions.
- `Storage`: `localStorage` as a class over a map.

The code follows its source's form:

- Code that accumulates in loops or statements is written as methods. This covers `checkUserAgent`, `checkIP`, `checkHeaders`, `getClientIp`, `parseUserAgent`, `generateShortId`, `generateSpinResult` and the header copies. Each method is proved equal to a specification function, and the properties are lemmas about that function.
- Objects that change state are classes whose methods state their new state. These are the analytics buffer, `localStorage`, the spin status store and the location cache.
- Expression code is written as functions.

`detectBot`'s confidence is not bounded by 100. All five header signals can fire together, for 105, and the maximum then exceeds the empty agent's 100: `BotDetection.HeaderScoreReaches105` and `BotDetection.EmptyAgentWithHeaderAgent` prove it.

## Model

| member | source | states |
|---|---|---|
| BotDetection.DetectBot | src/utils/botDetection.ts:169-191 | `detectBot`; no contract of its own: `CombineProperties`, `DetectBotTyped`, `EmptyAgentDetected`, `BlockedFirstHop` and `BotRedirects.DetectedTypeHasEntry` state its properties |
| BotDetection.Combine | src/utils/botDetection.ts:175-190 | combining the three verdicts; no contract of its own: `CombineProperties` states OR, maximum, reason order and type precedence |
| BotDetection.UserAgentVerdict | src/utils/botDetection.ts:27-110 | the verdict of `checkUserAgent`; no contract of its own: `CheckUserAgent` is proved equal to it, and `EmptyAgent`, `RefinedVerdict`, `SuspiciousUnreachable`, `UserAgentConsistent`, `GooglebotIsGeneric` state its properties |
| BotDetection.MatchesBotPattern | src/utils/botDetection.ts:10 | the case-insensitive bot pattern; no contract of its own: `GooglebotMatchesPattern`, `SuspiciousUnreachable` |
| BotDetection.HeuristicScore | src/utils/botDetection.ts:94-107 | the soft-heuristic score; no contract of its own: `HeuristicThreshold`, `HeuristicsNeverAllFire` |
| BotDetection.IpVerdict | src/utils/botDetection.ts:113-131 | the verdict of `checkIP`; no contract of its own: `CheckIp` is proved equal to it, and `IpVerdictCases`, `BlockedPrefixNotLocal` state its properties |
| BotDetection.BlockedReason | src/utils/botDetection.ts:125 | the blocked_ip reason; no contract of its own: `BlockedSources` gives its text for each range |
| BotDetection.HeaderScore | src/utils/botDetection.ts:134-163 | the header score; no contract of its own: `HeaderScoreBounds`, `MissingAcceptAlone`, `HeaderScoreReaches105` |
| BotDetection.HeadersVerdict | src/utils/botDetection.ts:134-166 | the verdict of `checkHeaders`; no contract of its own: `CheckHeaders` is proved equal to it, and `HeaderScoreBounds` states its properties |
| BotDetection.ForwardedFor | src/utils/botDetection.ts:171 | the raw `x-forwarded-for` value the IP check receives; no contract of its own: `BlockedFirstHop` |
| BotDetection.CheckUserAgent | src/utils/botDetection.ts:27-110 | the step-by-step check equals the verdict function `UserAgentVerdict`: an empty agent gives no_user_agent/100; a pattern match is refined; otherwise the heuristic weights add up and flag above 50 |
| BotDetection.RefineKnownBot | src/utils/botDetection.ts:41-90 | the if-chain of case-sensitive tests returns the verdict of the first type, in the order KnownBots, whose test succeeds, or generic_bot/85 |
| BotDetection.RefineIsFirstMatch | src/utils/botDetection.ts:41-90 | the refinement answers the least type whose test succeeds, or GenericBot when none does |
| BotDetection.AddSignal | src/utils/botDetection.ts:94-107 | one `confidence += w; reasons.push(r)` block adds the weight and the reason exactly when its test fires |
| BotDetection.RegexSource | src/utils/botDetection.ts:125 | `range.source` of an anchored prefix is one character longer than the prefix plus one per escaped dot; its text is fixed by `BlockedSources` |
| BotDetection.EscapeDots | src/utils/botDetection.ts:125 | escaping adds one character per dot and leaves a dot-free text unchanged |
| BotDetection.EscapeDotsAppend | src/utils/botDetection.ts:125 | escaping distributes over concatenation |
| BotDetection.EscapeTwoGroups | src/utils/botDetection.ts:125 | `a.b.` with dot-free groups escapes to `a\.b\.` |
| BotDetection.TwoGroupsSource | src/utils/botDetection.ts:14-23 | the source of a two-group prefix is `^a\.b\.` |
| BotDetection.ThreeGroupsSource | src/utils/botDetection.ts:20 | the source of a three-group prefix is `^a\.b\.c\.` |
| BotDetection.FirstRangeSources | src/utils/botDetection.ts:14-18 | the first five ranges have the sources written in the code |
| BotDetection.LastRangeSources | src/utils/botDetection.ts:19-23 | the last five ranges have the sources written in the code |
| BotDetection.BlockedSources | src/utils/botDetection.ts:13-24 | each of the ten ranges' `source` is the expression text written in the code, and the blocked_ip reason is `IP in blocked range: ` followed by it |
| BotDetection.FirstPrefix | src/utils/botDetection.ts:122-128 | the answer is the least index of a prefix that starts the address, or none when no prefix does |
| BotDetection.FirstPrefixIs | src/utils/botDetection.ts:122-128 | an index whose prefix matches, with no earlier match, is the answer |
| BotDetection.FirstPrefixNone | src/utils/botDetection.ts:122-130 | with no matching prefix there is no answer |
| BotDetection.CheckIp | src/utils/botDetection.ts:113-131 | the loop over the ranges equals the verdict function `IpVerdict`: local or empty addresses pass; the first matching range flags blocked_ip/90 with its source in the reason |
| BotDetection.CheckHeaders | src/utils/botDetection.ts:134-166 | the five header tests add their weights and reasons in order; the check flags above 40 |
| BotDetection.NameNonEmpty | src/utils/botDetection.ts:29-109 | every type name is non-empty, so a reported type is truthy |
| BotDetection.NameIsUnknownOnlyForUnknown | src/utils/botDetection.ts:180 | only the default type is spelled `unknown` |
| BotDetection.RefineSelects | src/utils/botDetection.ts:41-90 | the refinement answers GenericBot or a type whose test succeeds |
| BotDetection.SelectedIsKnown | src/utils/botDetection.ts:41-90 | a refined type is never unknown, no_user_agent, suspicious or blocked_ip |
| BotDetection.RefinedVerdict | src/utils/botDetection.ts:41-90 | a refined verdict is a bot with one reason and confidence 95, 90 for a scraper or 85 for a generic bot |
| BotDetection.HeuristicThreshold | src/utils/botDetection.ts:94-109 | the heuristic score passes 50 exactly when all three heuristics fire |
| BotDetection.MozillaWindowsApart | src/utils/botDetection.ts:99-104 | occurrences of "Mozilla" and "Windows" start at least three characters apart |
| BotDetection.HeuristicsNeverAllFire | src/utils/botDetection.ts:94-109 | the three heuristics never fire together |
| BotDetection.SuspiciousUnreachable | src/utils/botDetection.ts:109 | the User-Agent check flags exactly an empty agent or a pattern match, so it never reports `suspicious` |
| BotDetection.EmptyAgent | src/utils/botDetection.ts:28-30 | an empty agent gives no_user_agent with 100 and one reason |
| BotDetection.GooglebotMatchesPattern | src/utils/botDetection.ts:10 | "Googlebot/2.1" matches the case-insensitive pattern |
| BotDetection.GooglebotSelectsNothing | src/utils/botDetection.ts:41-88 | no case-sensitive refinement test succeeds on "Googlebot/2.1" |
| BotDetection.GooglebotIsGeneric | src/utils/botDetection.ts:36-90 | "Googlebot/2.1" is a generic bot with 85, not a Google bot |
| BotDetection.IpVerdictCases | src/utils/botDetection.ts:113-131 | the IP check flags exactly a non-local address with a listed prefix, with 90 and one reason, and otherwise reports 0 and no reasons |
| BotDetection.HeaderScoreBounds | src/utils/botDetection.ts:134-166 | the header score lies in 0..105, is at most 80 without a short agent header, a flagged header set has two or more reasons, and the verdict names a type exactly when it flags |
| BotDetection.MissingAcceptAlone | src/utils/botDetection.ts:139-142 | a missing Accept header alone (30) does not flag |
| BotDetection.HeaderScoreReaches105 | src/utils/botDetection.ts:134-166 | all five header signals can fire together, for 105 |
| BotDetection.UserAgentConsistent | src/utils/botDetection.ts:27-110 | the User-Agent verdict names a type exactly when it flags, and never `unknown` |
| BotDetection.CombineProperties | src/utils/botDetection.ts:169-191 | detectBot flags iff a check flags; its confidence is the largest; its reasons are in UA, IP, header order; the UA type wins over the IP type, which wins over the header type; no type without a bot |
| BotDetection.DetectBotTyped | src/utils/botDetection.ts:169-191 | a flagged request carries a type other than `unknown`; an unflagged one carries none |
| BotDetection.EmptyAgentDetected | src/utils/botDetection.ts:169-191 | with no agent and no agent header, detectBot reports no_user_agent with confidence 100 |
| BotDetection.EmptyAgentWithHeaderAgent | src/utils/botDetection.ts:160-163 | a short agent header raises the empty-agent confidence to 105 |
| BotDetection.BlockedPrefixNotLocal | src/utils/botDetection.ts:13-24 | no blocked prefix starts a local or empty address |
| BotDetection.BlockedFirstHop | src/utils/botDetection.ts:171 | the raw x-forwarded-for value is checked, so a browser agent whose first hop is in a blocked range is blocked_ip |
| BotRedirects.IsBotRedirectUrl | src/utils/botRedirects.ts:246-248 | `isBotRedirectUrl`; no contract of its own: `DecoyUrlRecognised` states it holds exactly for the decoy URL, for every entry and for the helper |
| BotRedirects.GetBotRedirectConfig | src/utils/botRedirects.ts:232-238 | the lookup always returns an entry of the table, namely the decoy entry |
| BotRedirects.GetAllBotRedirectConfigs | src/utils/botRedirects.ts:241-243 | the copy has the table's keys and each key's entry |
| BotRedirects.GetBotRedirectUrl | src/utils/botRedirects.ts:251-253 | the helper's URL passes the decoy test |
| BotRedirects.LookupOrFallback | src/utils/botRedirects.ts:232-238 | a listed key gets its own entry; an absent, empty or unlisted type gets the `unknown` entry |
| BotRedirects.EveryEntryIsDecoy | src/utils/botRedirects.ts:9-229 | every entry is the decoy URL with 302 and exactly the two no-index headers |
| BotRedirects.EveryTypeIsKey | src/utils/botRedirects.ts:9-229 | every type name the classifiers report is a key |
| BotRedirects.DetectedTypeHasEntry | src/utils/botRedirects.ts:232-238 | a type detectBot reports finds its own entry, never the fallback |
| BotRedirects.DecoyUrlRecognised | src/utils/botRedirects.ts:246-248 | the decoy test holds exactly for the decoy URL, which every entry and the helper return |
| Middleware.Middleware | middleware.ts:49-156 | `middleware`; no contract of its own: `CanonicalHostPasses`, `BotsGoToDecoy`, `HumansGoToCanonical`, `RoutingReturnsEarly`, `RoutingIgnoresCookies` state its decisions |
| Middleware.Host | middleware.ts:50 | the host header or empty; no contract of its own: `CanonicalHostPasses`, `SuffixIsNotADomainTest` |
| Middleware.FromMetaAds | middleware.ts:65-70 | the Meta-referer flag; no contract of its own: `HumansGoToCanonical` and `RoutingReturnsEarly` show it does not change the decision |
| Middleware.SendToDecoy | middleware.ts:88 | the decoy test of the two non-canonical branches; no contract of its own: `DecoyTestIsDetection`, `BotsGoToDecoy` |
| Middleware.CountryToLanguage | middleware.ts:7-47 | the `COUNTRY_TO_LANGUAGE` table; no contract of its own: `LanguageFor`, `LanguageTableRows` |
| Middleware.Country | middleware.ts:159-161 | the country header chain; no contract of its own: `LanguageSources` |
| Middleware.Language | middleware.ts:164 | the gate's language; no contract of its own: `LanguageSources`, `UnlistedCountryIsEnglish` |
| Middleware.ExistingLanguage | middleware.ts:177 | the language cookie's value; no contract of its own: `CookieWrittenIffStale` |
| Middleware.NeedsCookie | middleware.ts:180 | the cookie-update rule; no contract of its own: `CookieWrittenIffStale` |
| Middleware.LanguageCookie | middleware.ts:184-190 | the cookie attributes; no contract of its own: `CookieWrittenIffStale` states name, value, path, max-age, httpOnly, secure and sameSite |
| Middleware.GateCookie | middleware.ts:180-191 | the cookie write, if any; no contract of its own: `CookieWrittenIffStale` |
| Middleware.IsDefinitelyHuman | middleware.ts:194-199 | the human fast-path test; no contract of its own: `HumanFastPath` |
| Middleware.TypeName | middleware.ts:214 | the name passed to `getBotRedirectConfig`; no contract of its own: `GateRedirectsBots` |
| Middleware.BotResponse | middleware.ts:230-239 | the bot redirect with the entry's status and headers; no contract of its own: `GateRedirectsBots`, with `CopyEntries` for the header copy |
| Middleware.ContentGate | middleware.ts:158-300 | lines 158-300 of `middleware`; no contract of its own: `HumanFastPath`, `GateRedirectsBots`, `GatePassesOthers`, `CookieWrittenIffStale` |
| Middleware.Excluded | middleware.ts:312 | the matcher's negative lookahead; no contract of its own: `MatcherExamples`, `SkippedStaysSkipped` |
| Middleware.MatcherApplies | middleware.ts:303-314 | `config.matcher`; no contract of its own: `MatcherExamples`, `SkippedStaysSkipped` |
| Middleware.CopyEntries | middleware.ts:290-294 | copying entries into a map yields the map overridden by the entries |
| Middleware.CollectHeaders | middleware.ts:59-62 | the collected record is the request's header map |
| Middleware.CanonicalTarget | middleware.ts:109-111 | the target is the canonical origin, the path (or `/` when empty) and the query |
| Middleware.LanguageFor | middleware.ts:164 | a listed country gets its language; any other gets `en` |
| Middleware.CanonicalHostPasses | middleware.ts:73-75 | a host ending with the canonical suffix passes with no cookie |
| Middleware.SuffixIsNotADomainTest | middleware.ts:73 | `xturbo-play.live` passes too |
| Middleware.DecoyTestIsDetection | middleware.ts:88 | the missing-agent test adds nothing to detectBot's own verdict |
| Middleware.BotsGoToDecoy | middleware.ts:80-106 | off the canonical host a bot gets a 302 to the decoy without headers |
| Middleware.HumansGoToCanonical | middleware.ts:108-112 | off the canonical host anyone else gets a 302 to the canonical target |
| Middleware.RoutingReturnsEarly | middleware.ts:73-156 | every request is answered by the routing, and the referer plays no part |
| Middleware.RoutingIgnoresCookies | middleware.ts:73-156 | cookies and the deployment mode do not affect the routing, so the content gate is unreachable |
| Middleware.LanguageSources | middleware.ts:159-164 | the language comes from x-country, then x-vercel-ip-country, then `US`, through the table with `en` as fallback |
| Middleware.LanguageTableRows | middleware.ts:7-47 | KR maps to `ko` and BR to `pt-BR` |
| Middleware.UnlistedCountryIsEnglish | middleware.ts:164 | an unlisted country gets `en` |
| Middleware.CookieWrittenIffStale | middleware.ts:180-191 | the cookie is written iff there is no language cookie or one with another value; it carries the language for 30 days |
| Middleware.HumanFastPath | middleware.ts:194-204 | a definitely-human request passes with the cookie write, unclassified |
| Middleware.GateRedirectsBots | middleware.ts:213-241 | a flagged request is redirected with the entry's status and headers, and the cookie write is dropped |
| Middleware.GatePassesOthers | middleware.ts:245 | a request detectBot does not flag passes with the cookie write |
| Middleware.MatcherExamples | middleware.ts:303-314 | `/`, `/ru/game` and `/_next/data` are matched; `/api`, `/apiary`, static, image and favicon paths (and `/favicon-ico`) are not |
| Middleware.SkippedStaysSkipped | middleware.ts:312 | a skipped path stays skipped whatever follows it |
| EdgeBotDetector.IsBot | netlify/edge-lib/bot-detector.ts:32-79 | `isBot`; no contract of its own: `IsBotInputs`, `UnknownIffHuman`, `AgentBeforeAddress`, `EmptyAgentIsGeneric` |
| EdgeBotDetector.IsRealUser | netlify/edge-lib/bot-detector.ts:88-91 | `isRealUser`; no contract of its own: `IsBotInputs` states it is the negation of `isBot` |
| EdgeBotDetector.ClientIp | netlify/edge-lib/bot-detector.ts:34-36 | the address chain; no contract of its own: `ClientIpOrder` |
| EdgeBotDetector.IsBotAgent | netlify/edge-lib/bot-detector.ts:39 | the agent test; no contract of its own: `IsBotInputs`, `EmptyAgentIsGeneric` |
| EdgeBotDetector.IsBlockedIp | netlify/edge-lib/bot-detector.ts:42 | the address test over the 14 ranges; no contract of its own: `IsBotInputs`, `GooglebotRangeBlocked` |
| EdgeBotDetector.EdgeSelects | netlify/edge-lib/bot-detector.ts:48-65 | the case-sensitive test of each arm; no contract of its own: `AgentTypeIsFirstMatch`, `NothingSelectsEmpty` |
| EdgeBotDetector.EdgeRefine | netlify/edge-lib/bot-detector.ts:47-68 | first-match refinement over the arms' order; no contract of its own: `EdgeRefineIsFirstMatch`, `EdgeRefineCons` |
| EdgeBotDetector.AgentType | netlify/edge-lib/bot-detector.ts:47-68 | the if/else chain for a flagged agent; no contract of its own: `AgentTypeIsFirstMatch` |
| EdgeBotDetector.GetRedirectUrl | netlify/edge-lib/bot-detector.ts:82-85 | the redirect URL is the fallback whatever the original URL |
| EdgeBotDetector.EdgeRefineIsFirstMatch | netlify/edge-lib/bot-detector.ts:46-71 | the refinement answers the least type whose test succeeds, or generic |
| EdgeBotDetector.AgentTypeIsFirstMatch | netlify/edge-lib/bot-detector.ts:46-71 | the if-chain equals first-match refinement over facebook/meta, google, bing, twitter, linkedin, telegram, discord, whatsapp, scrapers |
| EdgeBotDetector.EdgeRefineCons | netlify/edge-lib/bot-detector.ts:46-71 | the head of the order is tried first |
| EdgeBotDetector.IsBotInputs | netlify/edge-lib/bot-detector.ts:32-79 | the result echoes agent and address, and flags iff the agent is missing or matches or the address is blocked; isRealUser is its negation |
| EdgeBotDetector.ClientIpOrder | netlify/edge-lib/bot-detector.ts:36-39 | the address is the first non-empty of x-forwarded-for, x-real-ip, cf-connecting-ip, else empty |
| EdgeBotDetector.NothingSelectsEmpty | netlify/edge-lib/bot-detector.ts:46-71 | no test of the chain succeeds on the empty agent |
| EdgeBotDetector.EmptyAgentIsGeneric | netlify/edge-lib/bot-detector.ts:41-71 | a missing agent is a generic bot |
| EdgeBotDetector.UnknownIffHuman | netlify/edge-lib/bot-detector.ts:32-79 | the type is `unknown` exactly when no bot is flagged |
| EdgeBotDetector.AgentBeforeAddress | netlify/edge-lib/bot-detector.ts:44-75 | a flagged agent decides the type even from a blocked address; blocked_ip exactly for an unflagged agent from a blocked address |
| EdgeBotDetector.GooglebotRangeBlocked | netlify/edge-lib/bot-detector.ts:14-29 | every address starting `66.249.` is blocked |
| EdgeRedirectConfig.GetRedirectConfig | netlify/edge-lib/redirect-config.ts:12-50 | `getRedirectConfig`; no contract of its own: `ConfigConstants` |
| EdgeRedirectConfig.ShouldExcludePath | netlify/edge-lib/redirect-config.ts:53-57 | `shouldExcludePath`; no contract of its own: `ExclusionExtends`, `ApiaryExcluded` |
| EdgeRedirectConfig.IsAllowedPath | netlify/edge-lib/redirect-config.ts:60-65 | `isAllowedPath`; no contract of its own: `ListedIsPrefix`, `EveryRootedPathAllowed` |
| EdgeRedirectConfig.GetTargetUrl | netlify/edge-lib/redirect-config.ts:68-79 | `getTargetUrl`; no contract of its own: `TargetUrlCases` |
| EdgeRedirectConfig.ConfigConstants | netlify/edge-lib/redirect-config.ts:12-50 | the main domain, decoy and fallback constants, `/` first among allowed paths, eight excluded paths |
| EdgeRedirectConfig.ExclusionExtends | netlify/edge-lib/redirect-config.ts:53-57 | whatever follows an excluded path is excluded |
| EdgeRedirectConfig.ApiaryExcluded | netlify/edge-lib/redirect-config.ts:53-57 | `/apiary` is excluded through `/api` |
| EdgeRedirectConfig.ListedIsPrefix | netlify/edge-lib/redirect-config.ts:60-65 | the listing test adds nothing to the prefix test |
| EdgeRedirectConfig.EveryRootedPathAllowed | netlify/edge-lib/redirect-config.ts:24-65 | every path starting with `/` is allowed |
| EdgeRedirectConfig.TargetUrlCases | netlify/edge-lib/redirect-config.ts:68-79 | the target is the request URL on the main domain's hosts, else the fallback origin plus path and query |
| EnhancedProtection.Handle | netlify/edge-functions/enhanced-protection.ts:5-54 | the handler; no contract of its own: `ExcludedPasses`, `ScrapersDenied`, `OtherBotsRedirected`, `EmptyAgentRedirected`, `HumanChecks`, `PassesIff` |
| EnhancedProtection.DeniedHeaders | netlify/edge-functions/enhanced-protection.ts:26-29 | the refusal's headers; no contract of its own: `ScrapersDenied` |
| EnhancedProtection.SocialReferer | netlify/edge-functions/enhanced-protection.ts:42 | the referer pattern; no contract of its own: `HumanChecks`, `PassesIff` |
| EnhancedProtection.WeakLanguage | netlify/edge-functions/enhanced-protection.ts:48 | the Accept-Language test; no contract of its own: `HumanChecks`, `PassesIff` |
| EnhancedProtection.ExcludedPasses | netlify/edge-functions/enhanced-protection.ts:12-14 | an excluded path passes before classification |
| EnhancedProtection.ScrapersDenied | netlify/edge-functions/enhanced-protection.ts:23-31 | scrapers and blocked addresses get 403 with a plain-text body and X-Bot-Type |
| EnhancedProtection.OtherBotsRedirected | netlify/edge-functions/enhanced-protection.ts:34 | other bots get a 302 to the decoy |
| EnhancedProtection.EmptyAgentRedirected | netlify/edge-functions/enhanced-protection.ts:20-34 | a request without an agent is redirected, never refused |
| EnhancedProtection.HumanChecks | netlify/edge-functions/enhanced-protection.ts:42-53 | an unflagged visitor goes to the decoy from a social referer or with a missing or short Accept-Language, else passes |
| EnhancedProtection.PassesIff | netlify/edge-functions/enhanced-protection.ts:12-53 | a non-excluded request passes iff it is not a bot, has no social referer and has an Accept-Language of 5 or more code units |
| BotDetectorEdge.Handle | netlify/edge-functions/bot-detector.ts:7-39 | the handler; no contract of its own: `MainDomainPasses`, `ExcludedPasses`, `OtherwiseRedirects` |
| BotDetectorEdge.MainDomainPasses | netlify/edge-functions/bot-detector.ts:15-17 | a host containing the main domain passes whatever the path |
| BotDetectorEdge.ExcludedPasses | netlify/edge-functions/bot-detector.ts:20-22 | an excluded path passes |
| BotDetectorEdge.OtherwiseRedirects | netlify/edge-functions/bot-detector.ts:27-38 | elsewhere a bot goes to the decoy and anyone else to the main domain with path and query, always with 302 |
| BotRedirectEdge.Handle | netlify/edge-functions/bot-redirect.ts:7-32 | the handler; no contract of its own: `ExcludedPasses`, `OnlyBotsRedirected`, `IgnoresHost` |
| BotRedirectEdge.LiteralPart | netlify/edge-functions/bot-redirect.ts:36-46 | the literal part of a pattern starts it and drops at most the trailing star |
| BotRedirectEdge.ExcludedPasses | netlify/edge-functions/bot-redirect.ts:14-16 | an excluded path passes |
| BotRedirectEdge.OnlyBotsRedirected | netlify/edge-functions/bot-redirect.ts:19-31 | a bot off the excluded paths gets a 302 to the decoy; only bots are redirected |
| BotRedirectEdge.IgnoresHost | netlify/edge-functions/bot-redirect.ts:7-32 | the decision does not read the host |
| BotRedirectEdge.DeclaredPatternsExcluded | netlify/edge-functions/bot-redirect.ts:34-47 | every declared excluded pattern's literal part is excluded by the handler's own test |
| RedirectConfigEdge.Handle | netlify/edge-functions/redirect-config.ts:3-12 | the handler; no contract of its own: `TwoDestinations`, `EmptyAgentToMainSite`, `PythonRequestsNotMatched` |
| RedirectConfigEdge.TwoDestinations | netlify/edge-functions/redirect-config.ts:3-12 | every answer is a 302 to the main site or to the decoy, the decoy exactly on a pattern match |
| RedirectConfigEdge.NothingInEmpty | netlify/edge-functions/redirect-config.ts:5 | the pattern does not match the empty agent |
| RedirectConfigEdge.EmptyAgentToMainSite | netlify/edge-functions/redirect-config.ts:4-9 | a missing agent is sent to the main site |
| RedirectConfigEdge.PythonRequestsNotMatched | netlify/edge-functions/redirect-config.ts:5 | `python-requests/2.28` does not match the narrower pattern |
| TrackRoute.Qualifies | src/app/api/telegram/track/route.ts:27 | the test on a cleaned candidate; no contract of its own: `FirstAcceptedQualifies`, `LoopbackFourAccepted`, `LoopbackSixRejected` |
| TrackRoute.Accepted | src/app/api/telegram/track/route.ts:24-27 | a source the loop returns from; no contract of its own: `FirstAcceptedIsLeast` |
| TrackRoute.FirstAccepted | src/app/api/telegram/track/route.ts:23-34 | the first accepted source, else `req.ip`; no contract of its own: `GetClientIp` is proved equal to it, and `FirstAcceptedIsLeast`, `FirstAcceptedQualifies` state its properties |
| TrackRoute.Browser | src/app/api/telegram/track/route.ts:95-102 | the browser chain; no contract of its own: `BrowserIsFirstMatch`, `BrowserPrecedence` |
| TrackRoute.Os | src/app/api/telegram/track/route.ts:104-111 | the OS chain; no contract of its own: `OsIsFirstMatch`, `LinuxBeforeAndroid` |
| TrackRoute.Device | src/app/api/telegram/track/route.ts:113-117 | the device chain; no contract of its own: `DeviceIsFirstMatch` |
| TrackRoute.Base | src/app/api/telegram/track/route.ts:260 | the base block; no contract of its own: `ComposeText`, `HeadingsDistinct` |
| TrackRoute.Heading | src/app/api/telegram/track/route.ts:262-276 | the heading per event type; no contract of its own: `ComposeText`, `HeadingsDistinct` |
| TrackRoute.Trailer | src/app/api/telegram/track/route.ts:266-273 | the lines after the base block; no contract of its own: `ComposeText` |
| TrackRoute.IpSources | src/app/api/telegram/track/route.ts:11-21 | there are nine candidate sources, in the listed order |
| TrackRoute.CleanIp | src/app/api/telegram/track/route.ts:26 | the cleaned candidate holds no comma |
| TrackRoute.GetClientIp | src/app/api/telegram/track/route.ts:9-35 | the loop returns the first accepted candidate, cleaned, else the platform address |
| TrackRoute.PostIp | src/app/api/telegram/track/route.ts:234 | a missing or empty address becomes `unknown` |
| TrackRoute.FirstAcceptedIsLeast | src/app/api/telegram/track/route.ts:23-34 | the answer is the least accepted candidate, or the platform address when none is accepted |
| TrackRoute.FirstAcceptedQualifies | src/app/api/telegram/track/route.ts:23-34 | a candidate answer is non-empty and not `::1` |
| TrackRoute.CleanUnpadded | src/app/api/telegram/track/route.ts:26 | cleaning leaves an unpadded single address unchanged |
| TrackRoute.LoopbackFourAccepted | src/app/api/telegram/track/route.ts:27 | `127.0.0.1` is accepted |
| TrackRoute.LoopbackSixRejected | src/app/api/telegram/track/route.ts:27 | `::1` is rejected |
| TrackRoute.FirstHopOnly | src/app/api/telegram/track/route.ts:26-27 | of a forwarded list only the first hop is kept |
| TrackRoute.BrowserIsFirstMatch | src/app/api/telegram/track/route.ts:95-102 | the browser chain is the first match of its table |
| TrackRoute.OsIsFirstMatch | src/app/api/telegram/track/route.ts:104-111 | the OS chain is the first match of its table |
| TrackRoute.DeviceIsFirstMatch | src/app/api/telegram/track/route.ts:113-117 | the device chain is the first match of its table |
| TrackRoute.BrowserPrecedence | src/app/api/telegram/track/route.ts:95-102 | Chrome wins; Safari exactly without Chrome and Firefox; Edge and Opera are reported only when none of Chrome, Firefox and Safari appears |
| TrackRoute.LinuxBeforeAndroid | src/app/api/telegram/track/route.ts:104-111 | an Android agent mentioning Linux reports Linux |
| TrackRoute.FlagEmoji | src/app/api/telegram/track/route.ts:122-129 | no flag without a two-unit code; otherwise two characters |
| TrackRoute.FlagOfLetters | src/app/api/telegram/track/route.ts:122-129 | two letters give their regional indicators, case-insensitively, in U+1F1E6..U+1F1FF |
| TrackRoute.NoFlag | src/app/api/telegram/track/route.ts:122-124 | a missing, empty or three-letter code gives no flag |
| TrackRoute.GeoLine | src/app/api/telegram/track/route.ts:257 | the line ends with the country unless a city is given |
| TrackRoute.ComposeText | src/app/api/telegram/track/route.ts:234-276 | the text is the event's heading, the common base with the agent or `n/a`, and the event's details |
| TrackRoute.HeadingsDistinct | src/app/api/telegram/track/route.ts:262-276 | the base is always part of the text, and the four event headings differ |
| UserAgent.MatchFrom | src/utils/userAgent.ts:47-70 | a matched version is a non-empty run of digits |
| UserAgent.ParseUserAgent | src/utils/userAgent.ts:11-81 | device, OS and browser are the first matches over the lower-cased agent; the version follows the browser's token; exactly the device's flag is set |
| UserAgent.DetectDevice | src/utils/userAgent.ts:15-30 | the device is the first match and its flag is set |
| UserAgent.DetectOs | src/utils/userAgent.ts:33-44 | the OS is the first match |
| UserAgent.DetectBrowser | src/utils/userAgent.ts:47-70 | the browser is the first match, Safari only without Chrome, with its version |
| UserAgent.DeviceChain | src/utils/userAgent.ts:15-30 | the device table equals the if-chain |
| UserAgent.OsChain | src/utils/userAgent.ts:33-44 | the OS table equals the if-chain |
| UserAgent.BrowserChain | src/utils/userAgent.ts:47-70 | the browser table equals the if-chain |
| UserAgent.DeviceIsKnown | src/utils/userAgent.ts:15-30 | the device is Mobile, Tablet or Desktop |
| UserAgent.MobileBeforeTablet | src/utils/userAgent.ts:17-25 | an Android tablet is reported as Mobile |
| UserAgent.IphoneReportsMacOs | src/utils/userAgent.ts:33-44 | an iPhone agent mentioning `mac os` reports macOS |
| UserAgent.VersionFollowsToken | src/utils/userAgent.ts:49-69 | the version directly follows an occurrence of the token and cannot be extended |
| UserAgent.NoVersionIffNoDigit | src/utils/userAgent.ts:49-69 | there is no version iff no occurrence of the token is followed by a digit |
| Decimal.NatToString | src/utils/spin.ts:111 | the rendering is digits without a leading zero, one digit exactly below 10 |
| Decimal.IntToString | src/app/ClientBody.tsx:41 | a rendered integer is non-empty |
| Decimal.DigitRun | src/app/ClientBody.tsx:40 | the run is the longest all-digit prefix |
| Decimal.ParseInt | src/app/ClientBody.tsx:40 | `parseInt` is NaN exactly when no digit follows the white space and sign |
| Decimal.PadStart | src/utils/spin.ts:111 | padding gives the longer of the width and the text, ending with the text, zeros in front |
| Decimal.DigitsValueOfNatToString | src/utils/spin.ts:111 | reading back a rendering gives the number |
| Decimal.DigitRunOfDigits | src/app/ClientBody.tsx:40 | a string of digits is its own run |
| Decimal.ParseIntOfIntToString | src/app/ClientBody.tsx:40-41 | `parseInt(i.toString())` is `i` |
| Decimal.NoDigitIsNaN | src/app/ClientBody.tsx:40 | text with no digit after white space and sign reads as NaN |
| Decimal.PadTwo | src/utils/spin.ts:111 | a two-digit padding of a number below 100 has two digits and reads back as the number |
| Spin.ProbabilitySum | src/utils/spin.ts:72-75 | the running sum of probabilities; no contract of its own: `WheelSums`, `GenerateSpinResult` |
| Spin.ResultFor | src/utils/spin.ts:77-85 | the result for one sector; no contract of its own: `GenerateSpinResult` |
| Spin.Clock | src/utils/spin.ts:111 | `H:MM:SS` rendering; no contract of its own: `CountdownIsOnlyFit`, `ClockOfZero`, `CountdownLength` |
| Spin.CurrencySymbols | src/utils/spin.ts:115-124 | the symbol table; no contract of its own: `GetCurrencySymbol`, `CurrencySymbolExamples` |
| Spin.GetSpinStatus | src/utils/spin.ts:15-53 | the empty status on the server, without a stored record or for an unreadable one; otherwise the stored status with the lock still running or cleared |
| Spin.GetAvailableSpins | src/utils/spin.ts:129-133 | 0 or 1, and 1 exactly off the server with no spin in the last hour |
| Spin.SpinStorage.UpdateSpinStatus | src/utils/spin.ts:55-68 | off the server the stored record is the date, a spin and the time one hour ahead; on the server nothing changes |
| Spin.LockedForAnHour | src/utils/spin.ts:38-59 | after a spin the status reports a spin until an hour has passed, then none |
| Spin.StatusIsStable | src/utils/spin.ts:33-45 | storing what the status reports gives the same status again |
| Spin.ChosenFrom | src/utils/spin.ts:74-98 | the chosen sector is a sector index, or the first sector |
| Spin.GenerateSpinResult | src/utils/spin.ts:70-99 | the loop picks the first sector whose running sum reaches the draw, else the first, and builds the prize from it |
| Spin.WheelSums | src/utils/spin.ts:6-13 | the five first running sums are 0 and the total is 100 |
| Spin.WheelChoice | src/utils/spin.ts:71-98 | a draw of 0 picks the first sector, any other draw the sixth |
| Spin.TimeFields | src/utils/spin.ts:107-109 | minutes and seconds are below 60 and the fields account for the span to within a second |
| Spin.NestedRemainder | src/utils/spin.ts:108-109 | the span splits into hours, minutes and the minute remainder |
| Spin.FormatTimeUntilNextSpin | src/utils/spin.ts:101-105 | a passed deadline reads `00:00:00` |
| Spin.CountdownIsOnlyFit | src/utils/spin.ts:101-112 | any hours, minutes and seconds that fit the span give the countdown's text |
| Spin.ClockOfZero | src/utils/spin.ts:105-111 | a zero clock reads `00:00:00` |
| Spin.FieldsUnique | src/utils/spin.ts:107-109 | the fitting fields are unique |
| Spin.CountdownLength | src/utils/spin.ts:101-112 | under 100 hours the countdown has eight characters |
| Spin.GetCurrencySymbol | src/utils/spin.ts:114-127 | a listed currency gets its symbol, any other its own code |
| Spin.CurrencySymbolExamples | src/utils/spin.ts:116-126 | EUR is €, TRY is ₺, MXN and USD are both `$`, XYZ is itself |
| Geolocation.LanguageMap | src/utils/geolocation.ts:172-212 | the language table; no contract of its own: `GetLanguageByCountry`, `TableExamples` |
| Geolocation.Fresh | src/utils/geolocation.ts:19-24 | the cache-freshness rule; no contract of its own: `CacheLastsADay` |
| Geolocation.Usable | src/utils/geolocation.ts:36 | a reply with a country code; no contract of its own: `ResolvedLanguage` |
| Geolocation.Resolved | src/utils/geolocation.ts:30-89 | the location when the cache is not used; no contract of its own: `ResolvedLanguage`, `LocationCache.DetectUserLocation` |
| Geolocation.CurrencyMap | src/utils/geolocation.ts:120-166 | every listed currency code has three letters |
| Geolocation.GetCurrencyByCountry | src/utils/geolocation.ts:119-169 | a listed country gets its currency, any other USD |
| Geolocation.GetLanguageByCountry | src/utils/geolocation.ts:171-215 | a listed country gets its language, any other `en` |
| Geolocation.TableExamples | src/utils/geolocation.ts:120-212 | KR gets `kr` and KRW; an unlisted country gets `en` and USD |
| Geolocation.FromReply | src/utils/geolocation.ts:36-79 | the location takes the reply's country code, its language from the table, and the reply's currency when the service gives one, else the table's |
| Geolocation.BrowserFallback | src/utils/geolocation.ts:84-97 | the fallback data with a supported language, the browser's own when supported |
| Geolocation.ConvertCurrency | src/utils/geolocation.ts:100-117 | equal currencies and a failed conversion both keep the amount |
| Geolocation.LocationCache.DetectUserLocation | src/utils/geolocation.ts:16-98 | a fresh cache is returned unchanged; otherwise the first usable service, else the browser fallback, is returned and cached with the time |
| Geolocation.CacheLastsADay | src/utils/geolocation.ts:14-28 | a cached record is fresh for exactly one day; an unreadable or missing one never is |
| Geolocation.ResolvedLanguage | src/utils/geolocation.ts:30-97 | the language comes from the table for a reply's country, or from the browser fallback |
| Geolocation.BrowserFallbackExamples | src/utils/geolocation.ts:84-97 | `ru-RU` gives `ru`; the unsupported `it-IT` gives `en` |
| Storage.LocalStorage.GetItem | src/utils/userId.ts:17 | reading gives the stored value, if any |
| Storage.LocalStorage.SetItem | src/utils/userId.ts:20 | writing maps the key to the value and changes nothing else |
| UserId.CharFor | src/utils/userId.ts:7 | one drawn character; no contract of its own: `CharForInAlphabet` |
| UserId.IsNewUser | src/utils/userId.ts:25-31 | `isNewUser`; no contract of its own: `GetUserIdTwice` states it is false after `getUserId`, and `GetUserId` fixes the stored id it reads |
| UserId.CharForInAlphabet | src/utils/userId.ts:4-8 | a draw in [0, 1) picks a character of the 36-character alphabet |
| UserId.GenerateShortId | src/utils/userId.ts:3-10 | the id has eight characters, each drawn from the 36-character alphabet by its draw |
| UserId.GetUserId | src/utils/userId.ts:12-23 | `server` on the server with storage untouched; a stored id is kept; otherwise a new id is stored and returned, eight characters from the alphabet, the k-th drawn by the k-th draw |
| UserId.GetUserIdTwice | src/utils/userId.ts:12-31 | a second call returns the first id, and the visitor is then no longer new |
| Analytics.Queued | src/utils/analytics.ts:40-50 | the queue after `track`; no contract of its own: `QueuedAppendsOne`, `Analytics.Track` |
| Analytics.Analytics.Init | src/utils/analytics.ts:14-18 | the set-up timer is scheduled only when not yet initialised and not on the server |
| Analytics.Analytics.InitTimerFires | src/utils/analytics.ts:18-32 | the timer sets the flag, except on the server, and leaves the events alone |
| Analytics.Analytics.FlushEvents | src/utils/analytics.ts:53-69 | an empty queue is left alone; otherwise the whole queue is handed on as one batch and emptied |
| Analytics.Analytics.Track | src/utils/analytics.ts:35-51 | off the server one event with the stored id or `unknown` is queued, and a queue over ten is flushed |
| Analytics.Analytics.TrackError | src/utils/analytics.ts:77-95 | nothing for a non-object or an error without message; otherwise one `error` event with message, stack and context |
| Analytics.Analytics.TrackUserAction | src/utils/analytics.ts:98-100 | one `user_action` event whose data is the action overridden by the given data |
| Analytics.NewEvent | src/utils/analytics.ts:38-45 | the event carries its name, the time, the data, and the stored id or `unknown` |
| Analytics.ErrorData | src/utils/analytics.ts:90-94 | the error data holds the message, and the stack and context exactly when given |
| Analytics.ActionData | src/utils/analytics.ts:99 | the data's keys plus `action`; a key `action` in the data wins |
| Analytics.QueuedAppendsOne | src/utils/analytics.ts:40-57 | whichever way track goes, exactly one event joins the end of the overall order and the queue holds ten or fewer |
| Analytics.FlattenedBatch | src/utils/analytics.ts:56-57 | handing the queue on as a batch keeps the overall order |
| Analytics.FlattenedQueue | src/utils/analytics.ts:40-45 | queuing adds the event at the end of the overall order |
| ClientBody.RepeatDue | src/app/ClientBody.tsx:40 | the repeat-visit condition; no contract of its own: `DueAfterADay`, `NonNumericStaysSilent`, `OnMount` |
| ClientBody.OnMount | src/app/ClientBody.tsx:10-63 | a first visit gets a visit notice; a returning visitor gets a repeat notice, and the time is recorded, when no time or an empty one is stored or the stored time reads as a number more than a day old; otherwise nothing is sent and storage is unchanged |
| ClientBody.DueAfterADay | src/app/ClientBody.tsx:36-40 | a stored time is due exactly when more than a day has passed |
| ClientBody.NonNumericStaysSilent | src/app/ClientBody.tsx:40 | a non-numeric stored time (NaN) never makes a repeat notice due |
| ClientBody.ThreeMounts | src/app/ClientBody.tsx:10-63 | a first mount sends a visit; the next mount, at any time, sends a repeat with the same id, since no time is recorded yet; a third mount within a day of the second sends nothing |
| Performance.FloorDiv | src/utils/performance.ts:45 | the floor quotient, for either sign of the divisor |
| Performance.CeilDiv | src/utils/performance.ts:38 | the ceiling quotient, for either sign of the divisor |
| Performance.CreateVirtualList | src/utils/performance.ts:33-50 | the visible count is the ceiling of container over item height and the total height is length times item height |
| Performance.GetVisibleRange | src/utils/performance.ts:44-48 | the start is the floor of the offset over the item height; the end is at most the length and at most start plus the visible count, equal to one of them; a start past the end inverts the range |
| Performance.OptimizeImage | src/utils/performance.ts:53-61 | the address is returned unchanged |
| Performance.StartMonotone | src/utils/performance.ts:45 | scrolling further never moves the start back |

## Left out

- I/O and outside services are parameters or left out. This covers the Telegram and Meta notifications, `fetch` calls, `console` logging, and the two geolocation services, whose replies are parameters.
- `Date.now()` is a parameter, and so is `Math.random()`, whose draws lie in [0, 1). `typeof window === 'undefined'` is the parameter `onServer`, and `process.env.NODE_ENV === 'production'` is `production`.
- Timers are not modelled: the 100 ms init delay, the 30-second flush interval and the `beforeunload` handler. `InitTimerFires` stands for the timer's callback.
- URL parsing is not modelled. Pathname, query and URL are already-parsed request fields. Normalisation by `new URL` and the typing of `Response.redirect` are out of scope.
- Header names are taken as already lower-case. `Headers.get` and `Headers.set` case-folding are not modelled.
- Object-literal lookups are matches on the key. Inherited keys such as `constructor` or `__proto__` are not modelled. This applies to the bot redirect table, the country tables, the currency symbols and the currency and language maps.
- Only ASCII case mapping is modelled in `toLowerCase`, `toUpperCase` and the regex `i` flag. For example, `İ` lower-cases to `i̇` in JavaScript, so a non-ASCII agent can match where the model says it does not.
- Regular expressions are modelled as substring and prefix tests, and the matcher pattern assumes paths without line terminators.
- Only base-ten `parseInt` is modelled. The hex prefix and radix rules are left out.
- For `JSON.parse` of stored records, only "parses to the record" or "throws" is modelled. Well-formed JSON of another shape is not.
- Floating point is left out: the `localAmount` rounding in `generateSpinResult` and the rate multiplication in `convertCurrency`, whose result is the parameter `converted`.
- `getLocationByIp` (src/utils/geolocation.ts:216-236) is a network call and is not modelled. `trackPerformance` is not modelled either; it is one `track` call.
- The source reads `Date.now()` twice in some places. The model reads the clock once per operation.
- The `try`/`catch` around the page body's effect is not modelled.
- The catch-and-restore path of `flushEvents` is not modelled, because logging to the console does not throw.
- Analytics.ErrorData: a missing stack or context is left out of the data, where the source keeps the key with the value `undefined`.
- Analytics.Analytics.TrackError: a non-object error and an error without a message are one case, `NotAnObject` or an empty `message`; the diagnostics logged for them are left out.
- Performance.CreateVirtualList: requires a non-zero item height. With height 0 the source computes `Infinity` or `NaN`, which integers cannot represent. Heights and offsets are integers.
- Performance.GetVisibleRange: requires a non-zero item height, for the same reason.
- TrackRoute.GeoLine: the country is always a string. A missing country, which the template literal would render as `undefined`, is not modelled.
- The middleware's content gate (middleware.ts:158-300) cannot be reached, because the routing answers every host. It is modelled as `ContentGate` so that its rules can be stated.
- Middleware.BotsGoToDecoy: the `x-forwarded-for` split at middleware.ts:91 only feeds the notification, which is commented out, so it is not modelled.
