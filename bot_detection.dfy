/**
 * The site's bot classifier (src/utils/botDetection.ts). Three checks each
 * produce a verdict with a confidence score and reasons, and `DetectBot`
 * combines them. The checks are written as the source writes them, step by
 * step, and each is proved equal to a table-driven specification function;
 * the properties of the classifier are then lemmas about those functions.
 */
module BotDetection {
  import opened Common
  import opened JsString
  import opened Http

  /** The bot types the classifiers report, each with its spelling in the verdicts. */
  datatype BotType =
    | NoUserAgent | Facebook | Google | Bing | Twitter | LinkedIn | Telegram | WhatsApp
    | Discord | Apple | Snapchat | Pinterest | Quora | Embedly | VKontakte | Skype | Scraper
    | GenericBot | Suspicious | BlockedIp | SuspiciousHeaders | Unknown
  {
    function Name(): string {
      match this
      case NoUserAgent => "no_user_agent"
      case Facebook => "facebook"
      case Google => "google"
      case Bing => "bing"
      case Twitter => "twitter"
      case LinkedIn => "linkedin"
      case Telegram => "telegram"
      case WhatsApp => "whatsapp"
      case Discord => "discord"
      case Apple => "apple"
      case Snapchat => "snapchat"
      case Pinterest => "pinterest"
      case Quora => "quora"
      case Embedly => "embedly"
      case VKontakte => "vkontakte"
      case Skype => "skype"
      case Scraper => "scraper"
      case GenericBot => "generic_bot"
      case Suspicious => "suspicious"
      case BlockedIp => "blocked_ip"
      case SuspiciousHeaders => "suspicious_headers"
      case Unknown => "unknown"
    }
  }

  /** The result of one check, and of the whole classifier; `botType` is `undefined`
    * (`None`) or one of the type names. */
  datatype Verdict = Verdict(isBot: bool, botType: Option<BotType>, confidence: int, reasons: seq<string>)

  // ---------------------------------------------------------------------
  // User-Agent check

  /** The alternatives of the case-insensitive bot pattern. */
  const BotTokens: seq<string> := [
    "bot", "crawl", "spider", "facebookexternalhit", "facebot", "slurp", "mediapartners",
    "adsbot", "bingpreview", "twitterbot", "linkedinbot", "embedly", "quora", "pinterest",
    "crawler", "python-requests", "axios", "wget", "fetch", "telegrambot", "vkshare",
    "whatsapp", "skypeuripreview", "discordbot", "applebot", "snapchat", "google", "yahoo",
    "baidu", "yandex", "duckduckbot"]

  /** The bot pattern matches, ignoring ASCII case. */
  predicate MatchesBotPattern(ua: string) {
    ContainsAnyIgnoringCase(ua, BotTokens)
  }

  /** The bot types the case-sensitive refinement tries, in order. */
  const KnownBots: seq<BotType> := [
    Facebook, Google, Bing, Twitter, LinkedIn, Telegram, WhatsApp, Discord, Apple, Snapchat,
    Pinterest, Quora, Embedly, VKontakte, Skype, Scraper]

  /** The case-sensitive substring test that selects a known bot type; other types
    * are never selected. */
  predicate Selects(ua: string, t: BotType) {
    match t
    case Facebook => Contains(ua, "facebookexternalhit") || Contains(ua, "facebot")
    case Google => Contains(ua, "googlebot")
    case Bing => Contains(ua, "bingbot")
    case Twitter => Contains(ua, "twitterbot")
    case LinkedIn => Contains(ua, "linkedinbot")
    case Telegram => Contains(ua, "telegrambot")
    case WhatsApp => Contains(ua, "whatsapp")
    case Discord => Contains(ua, "discordbot")
    case Apple => Contains(ua, "applebot")
    case Snapchat => Contains(ua, "snapchat")
    case Pinterest => Contains(ua, "pinterest")
    case Quora => Contains(ua, "quora")
    case Embedly => Contains(ua, "embedly")
    case VKontakte => Contains(ua, "vkshare")
    case Skype => Contains(ua, "skypeuripreview")
    case Scraper =>
      Contains(ua, "python-requests") || Contains(ua, "axios") || Contains(ua, "wget")
      || Contains(ua, "fetch")
    case _ => false
  }

  /** The confidence a refined verdict of type `t` carries. */
  function RefinedConfidence(t: BotType): int {
    match t
    case Scraper => 90
    case GenericBot => 85
    case _ => 95
  }

  /** The single reason a refined verdict of type `t` carries. */
  function RefinedReason(t: BotType): string {
    match t
    case Facebook => "Facebook bot detected"
    case Google => "Google bot detected"
    case Bing => "Bing bot detected"
    case Twitter => "Twitter bot detected"
    case LinkedIn => "LinkedIn bot detected"
    case Telegram => "Telegram bot detected"
    case WhatsApp => "WhatsApp bot detected"
    case Discord => "Discord bot detected"
    case Apple => "Apple bot detected"
    case Snapchat => "Snapchat bot detected"
    case Pinterest => "Pinterest bot detected"
    case Quora => "Quora bot detected"
    case Embedly => "Embedly bot detected"
    case VKontakte => "VKontakte bot detected"
    case Skype => "Skype bot detected"
    case Scraper => "Scraper tool detected"
    case _ => "Generic bot pattern detected"
  }

  /** The first type of `order` one of whose tokens occurs, or `GenericBot`. */
  function Refine(ua: string, order: seq<BotType>): BotType
    decreases |order|
  {
    if order == [] then GenericBot
    else if Selects(ua, order[0]) then order[0]
    else Refine(ua, order[1..])
  }

  /** The verdict for an agent the bot pattern matched, refined to type `t`. */
  function Refined(t: BotType): Verdict {
    Verdict(true, Some(t), RefinedConfidence(t), [RefinedReason(t)])
  }

  /** A soft signal counted when the bot pattern does not match. */
  datatype Heuristic = ShortAgent | MozillaWithoutBrowser | WindowsWithoutBrowser {

    predicate Fires(ua: string) {
      match this
      case ShortAgent => Utf16Length(ua) < 10
      case MozillaWithoutBrowser =>
        Contains(ua, "Mozilla") && !Contains(ua, "Chrome") && !Contains(ua, "Firefox")
        && !Contains(ua, "Safari")
      case WindowsWithoutBrowser =>
        Contains(ua, "Windows") && !Contains(ua, "Chrome") && !Contains(ua, "Firefox")
    }

    function Weight(): int {
      match this
      case ShortAgent => 30
      case MozillaWithoutBrowser => 20
      case WindowsWithoutBrowser => 15
    }

    function Reason(): string {
      match this
      case ShortAgent => "Suspiciously short User-Agent"
      case MozillaWithoutBrowser => "Suspicious Mozilla User-Agent without browser"
      case WindowsWithoutBrowser => "Windows without common browser"
    }
  }

  /** The weight a signal contributes: `w` when it fires. */
  function Bit(fires: bool, w: int): int {
    if fires then w else 0
  }

  /** The reasons a signal contributes: `r` when it fires. */
  function Say(fires: bool, r: string): seq<string> {
    if fires then [r] else []
  }

  /** One `if (test) { confidence += w; reasons.push(r); }` block. */
  method AddSignal(confidence: int, reasons: seq<string>, fires: bool, w: int, r: string)
    returns (confidence': int, reasons': seq<string>)
    ensures confidence' == confidence + Bit(fires, w)
    ensures reasons' == reasons + Say(fires, r)
  {
    confidence', reasons' := confidence, reasons;
    if fires {
      confidence' := confidence' + w;
      reasons' := reasons' + [r];
    }
  }

  /** The heuristic score: the weights of the heuristics that fire. */
  function HeuristicScore(ua: string): int {
    Bit(ShortAgent.Fires(ua), ShortAgent.Weight())
    + Bit(MozillaWithoutBrowser.Fires(ua), MozillaWithoutBrowser.Weight())
    + Bit(WindowsWithoutBrowser.Fires(ua), WindowsWithoutBrowser.Weight())
  }

  /** The reasons of the heuristics that fire, in the order they are tested. */
  function HeuristicReasons(ua: string): seq<string> {
    [] + Say(ShortAgent.Fires(ua), ShortAgent.Reason())
    + Say(MozillaWithoutBrowser.Fires(ua), MozillaWithoutBrowser.Reason())
    + Say(WindowsWithoutBrowser.Fires(ua), WindowsWithoutBrowser.Reason())
  }

  /** The verdict of the User-Agent check. */
  function UserAgentVerdict(ua: string): Verdict {
    if ua == "" then
      Verdict(true, Some(NoUserAgent), 100, ["No User-Agent provided"])
    else if MatchesBotPattern(ua) then
      Refined(Refine(ua, KnownBots))
    else
      var score := HeuristicScore(ua);
      Verdict(score > 50, if score > 50 then Some(Suspicious) else None, score,
              HeuristicReasons(ua))
  }

  /** `Refine` picks the least type with an occurring token, or `GenericBot`. */
  lemma {:induction false} RefineIsFirstMatch(ua: string, order: seq<BotType>, k: int)
    requires 0 <= k <= |order|
    requires forall j :: 0 <= j < k ==> !Selects(ua, order[j])
    requires k < |order| ==> Selects(ua, order[k])
    ensures Refine(ua, order) == if k < |order| then order[k] else GenericBot
    decreases |order|
  {
    if order != [] && k > 0 {
      RefineIsFirstMatch(ua, order[1..], k - 1);
    }
  }

  /** The refinement chain, as the source writes it: the first case-sensitive
    * substring test that succeeds decides the bot type. */
  method RefineKnownBot(ua: string) returns (result: Verdict)
    ensures result == Refined(Refine(ua, KnownBots))
  {
    var t: BotType;
    ghost var k := 0;
    if Contains(ua, "facebookexternalhit") || Contains(ua, "facebot") {
      t := Facebook;
      k := 0;
    } else if Contains(ua, "googlebot") {
      t := Google;
      k := 1;
    } else if Contains(ua, "bingbot") {
      t := Bing;
      k := 2;
    } else if Contains(ua, "twitterbot") {
      t := Twitter;
      k := 3;
    } else if Contains(ua, "linkedinbot") {
      t := LinkedIn;
      k := 4;
    } else if Contains(ua, "telegrambot") {
      t := Telegram;
      k := 5;
    } else if Contains(ua, "whatsapp") {
      t := WhatsApp;
      k := 6;
    } else if Contains(ua, "discordbot") {
      t := Discord;
      k := 7;
    } else if Contains(ua, "applebot") {
      t := Apple;
      k := 8;
    } else if Contains(ua, "snapchat") {
      t := Snapchat;
      k := 9;
    } else if Contains(ua, "pinterest") {
      t := Pinterest;
      k := 10;
    } else if Contains(ua, "quora") {
      t := Quora;
      k := 11;
    } else if Contains(ua, "embedly") {
      t := Embedly;
      k := 12;
    } else if Contains(ua, "vkshare") {
      t := VKontakte;
      k := 13;
    } else if Contains(ua, "skypeuripreview") {
      t := Skype;
      k := 14;
    } else if Contains(ua, "python-requests") || Contains(ua, "axios") || Contains(ua, "wget")
              || Contains(ua, "fetch") {
      t := Scraper;
      k := 15;
    } else {
      t := GenericBot;
      k := 16;
    }
    assert t == if k < |KnownBots| then KnownBots[k] else GenericBot;
    RefineIsFirstMatch(ua, KnownBots, k);
    result := Refined(t);
  }

  /** `checkUserAgent`: an empty agent is a bot outright; a pattern match is
    * refined to a bot type; otherwise soft heuristics accumulate a score. */
  method CheckUserAgent(ua: string) returns (result: Verdict)
    ensures result == UserAgentVerdict(ua)
  {
    if ua == "" {
      return Verdict(true, Some(NoUserAgent), 100, ["No User-Agent provided"]);
    }
    var reasons: seq<string> := [];
    var confidence := 0;
    if MatchesBotPattern(ua) {
      // The score and reason recorded here are discarded by every refinement.
      confidence := confidence + 80;
      reasons := reasons + ["Bot User-Agent pattern detected"];
      result := RefineKnownBot(ua);
      return;
    }
    confidence, reasons := AddSignal(confidence, reasons, ShortAgent.Fires(ua),
                                     ShortAgent.Weight(), ShortAgent.Reason());
    confidence, reasons := AddSignal(confidence, reasons, MozillaWithoutBrowser.Fires(ua),
                                     MozillaWithoutBrowser.Weight(), MozillaWithoutBrowser.Reason());
    confidence, reasons := AddSignal(confidence, reasons, WindowsWithoutBrowser.Fires(ua),
                                     WindowsWithoutBrowser.Weight(), WindowsWithoutBrowser.Reason());
    result := Verdict(confidence > 50, if confidence > 50 then Some(Suspicious) else None,
                      confidence, reasons);
  }

  // ---------------------------------------------------------------------
  // IP check

  /** The anchored prefixes of the blocked address ranges, in order. */
  const BlockedPrefixes: seq<string> := [
    "31.13.", "157.240.", "185.60.", "66.220.", "69.63.", "173.252.", "204.15.20.",
    "23.235.", "66.249.", "157.55."]

  /** The source text of the regular expression `^p` for a prefix `p` of digits
    * and dots, each dot escaped. */
  function RegexSource(prefix: string): (src: string)
    ensures |src| == 1 + |prefix| + multiset(prefix)['.']
  {
    "^" + EscapeDots(prefix)
  }

  /** The reason the IP check gives for a blocked prefix. */
  function BlockedReason(prefix: string): string {
    "IP in blocked range: " + RegexSource(prefix)
  }

  /** Every dot of `s` preceded by a backslash; the other characters are kept. */
  function EscapeDots(s: string): (r: string)
    ensures |r| == |s| + multiset(s)['.']
    ensures '.' !in s ==> r == s
  {
    if s == [] then ""
    else
      assert s == [s[0]] + s[1..];
      (if s[0] == '.' then "\\." else [s[0]]) + EscapeDots(s[1..])
  }

  /** Escaping works character by character, so it distributes over concatenation. */
  lemma {:induction false} EscapeDotsAppend(a: string, b: string)
    ensures EscapeDots(a + b) == EscapeDots(a) + EscapeDots(b)
    decreases |a|
  {
    if a == [] {
      assert a + b == b;
    } else {
      assert (a + b)[0] == a[0] && (a + b)[1..] == a[1..] + b;
      EscapeDotsAppend(a[1..], b);
    }
  }

  /** A dot becomes a backslash and a dot. */
  lemma EscapeDot()
    ensures EscapeDots(".") == "\\."
  {
  }

  /** Escaping `a.b.` for dot-free groups `a` and `b`. */
  lemma EscapeTwoGroups(a: string, b: string)
    requires '.' !in a && '.' !in b
    ensures EscapeDots(a + "." + b + ".") == a + "\\." + b + "\\."
  {
    EscapeDot();
    EscapeDotsAppend(a + "." + b, ".");
    EscapeDotsAppend(a + ".", b);
    EscapeDotsAppend(a, ".");
  }

  /** The source texts of the ten blocked-range expressions, as written in the code. */
  const RangeSources: seq<string> := [
    "^31\\.13\\.", "^157\\.240\\.", "^185\\.60\\.", "^66\\.220\\.", "^69\\.63\\.",
    "^173\\.252\\.", "^204\\.15\\.20\\.", "^23\\.235\\.", "^66\\.249\\.", "^157\\.55\\."]

  /** `range.source` of each blocked range is the text of its expression, so the
    * blocked_ip reason names the range as the code writes it. */
  lemma BlockedSources(k: nat)
    requires k < |BlockedPrefixes|
    ensures RegexSource(BlockedPrefixes[k]) == RangeSources[k]
    ensures BlockedReason(BlockedPrefixes[k]) == "IP in blocked range: " + RangeSources[k]
  {
    if k < 5 {
      FirstRangeSources(k);
    } else {
      LastRangeSources(k);
    }
  }

  /** The sources of the first five Meta ranges. */
  lemma FirstRangeSources(k: nat)
    requires k < 5
    ensures RegexSource(BlockedPrefixes[k]) == RangeSources[k]
  {
    match k
    case 0 => TwoGroupsSource(BlockedPrefixes[0], RangeSources[0], "31", "13");
    case 1 => TwoGroupsSource(BlockedPrefixes[1], RangeSources[1], "157", "240");
    case 2 => TwoGroupsSource(BlockedPrefixes[2], RangeSources[2], "185", "60");
    case 3 => TwoGroupsSource(BlockedPrefixes[3], RangeSources[3], "66", "220");
    case 4 => TwoGroupsSource(BlockedPrefixes[4], RangeSources[4], "69", "63");
  }

  /** The sources of the last Meta range and the TikTok, Google and Bing ranges. */
  lemma LastRangeSources(k: nat)
    requires 5 <= k < |BlockedPrefixes|
    ensures RegexSource(BlockedPrefixes[k]) == RangeSources[k]
  {
    match k
    case 5 => TwoGroupsSource(BlockedPrefixes[5], RangeSources[5], "173", "252");
    case 6 => ThreeGroupsSource(BlockedPrefixes[6], RangeSources[6], "204", "15", "20");
    case 7 => TwoGroupsSource(BlockedPrefixes[7], RangeSources[7], "23", "235");
    case 8 => TwoGroupsSource(BlockedPrefixes[8], RangeSources[8], "66", "249");
    case 9 => TwoGroupsSource(BlockedPrefixes[9], RangeSources[9], "157", "55");
  }

  /** The source text for a prefix of two dot-terminated groups of digits. */
  lemma TwoGroupsSource(prefix: string, src: string, a: string, b: string)
    requires '.' !in a && '.' !in b
    requires prefix == a + "." + b + "." && src == "^" + a + "\\." + b + "\\."
    ensures RegexSource(prefix) == src
  {
    EscapeTwoGroups(a, b);
  }

  /** The source text for a prefix of three dot-terminated groups of digits. */
  lemma ThreeGroupsSource(prefix: string, src: string, a: string, b: string, c: string)
    requires '.' !in a && '.' !in b && '.' !in c
    requires prefix == (a + "." + b + ".") + (c + ".")
    requires src == "^" + (a + "\\." + b + "\\.") + (c + "\\.")
    ensures RegexSource(prefix) == src
  {
    var head, tail := a + "." + b + ".", c + ".";
    EscapeTwoGroups(a, b);
    EscapeDotsAppend(head, tail);
    EscapeDotsAppend(c, ".");
    EscapeDot();
  }

  /** The index of the first prefix of `ip` in `prefixes`, if any. */
  function FirstPrefix(ip: string, prefixes: seq<string>): (k: Option<nat>)
    ensures k.Some? ==> k.value < |prefixes| && StartsWith(ip, prefixes[k.value])
                        && forall j :: 0 <= j < k.value ==> !StartsWith(ip, prefixes[j])
    ensures k.None? ==> forall j :: 0 <= j < |prefixes| ==> !StartsWith(ip, prefixes[j])
    decreases |prefixes|
  {
    if prefixes == [] then None
    else if StartsWith(ip, prefixes[0]) then Some(0)
    else match FirstPrefix(ip, prefixes[1..])
         case None => None
         case Some(j) => Some(j + 1)
  }

  lemma FirstPrefixIs(ip: string, prefixes: seq<string>, i: nat)
    requires i < |prefixes| && StartsWith(ip, prefixes[i])
    requires forall j :: 0 <= j < i ==> !StartsWith(ip, prefixes[j])
    ensures FirstPrefix(ip, prefixes) == Some(i)
  {
    var k := FirstPrefix(ip, prefixes);
  }

  lemma FirstPrefixNone(ip: string, prefixes: seq<string>)
    requires forall j :: 0 <= j < |prefixes| ==> !StartsWith(ip, prefixes[j])
    ensures FirstPrefix(ip, prefixes) == None
  {
    var k := FirstPrefix(ip, prefixes);
  }

  /** An address the IP check ignores outright. */
  predicate IsLocalOrEmpty(ip: string) {
    ip == "" || ip == "127.0.0.1" || ip == "::1"
  }

  /** The verdict of the IP check against the anchored prefixes `ranges`. */
  function IpVerdict(ip: string, ranges: seq<string>): Verdict {
    if IsLocalOrEmpty(ip) then Verdict(false, None, 0, [])
    else match FirstPrefix(ip, ranges)
         case None => Verdict(false, None, 0, [])
         case Some(k) => Verdict(true, Some(BlockedIp), 90, [BlockedReason(ranges[k])])
  }

  /** `checkIP`: the ranges are tried in order and the first match returns.
    * The range table is a parameter; the classifier passes `BlockedPrefixes`. */
  method CheckIp(ip: string, ranges: seq<string>) returns (result: Verdict)
    ensures result == IpVerdict(ip, ranges)
  {
    if IsLocalOrEmpty(ip) {
      return Verdict(false, None, 0, []);
    }
    var reasons: seq<string> := [];
    var confidence := 0;
    for i := 0 to |ranges|
      invariant forall j :: 0 <= j < i ==> !StartsWith(ip, ranges[j])
      invariant confidence == 0 && reasons == []
    {
      if StartsWith(ip, ranges[i]) {
        FirstPrefixIs(ip, ranges, i);
        confidence := confidence + 90;
        reasons := reasons + [BlockedReason(ranges[i])];
        return Verdict(true, Some(BlockedIp), confidence, reasons);
      }
    }
    FirstPrefixNone(ip, ranges);
    return Verdict(false, None, 0, []);
  }

  // ---------------------------------------------------------------------
  // header check

  /** A signal of an incomplete or odd set of request headers. */
  datatype HeaderSignal =
    | MissingAccept | MissingAcceptLanguage | MissingAcceptEncoding
    | MultipleForwardedFor | ShortAgentHeader
  {
    predicate Fires(h: HeaderMap) {
      match this
      case MissingAccept => !Truthy(Header(h, "accept"))
      case MissingAcceptLanguage => !Truthy(Header(h, "accept-language"))
      case MissingAcceptEncoding => !Truthy(Header(h, "accept-encoding"))
      case MultipleForwardedFor =>
        Truthy(Header(h, "x-forwarded-for")) && Contains(h["x-forwarded-for"], ",")
      case ShortAgentHeader =>
        Truthy(Header(h, "user-agent")) && Utf16Length(h["user-agent"]) < 20
    }

    function Weight(): int {
      match this
      case MissingAccept => 30
      case MissingAcceptLanguage => 20
      case MissingAcceptEncoding => 20
      case MultipleForwardedFor => 10
      case ShortAgentHeader => 25
    }

    function Reason(): string {
      match this
      case MissingAccept => "Missing Accept header"
      case MissingAcceptLanguage => "Missing Accept-Language header"
      case MissingAcceptEncoding => "Missing Accept-Encoding header"
      case MultipleForwardedFor => "Multiple X-Forwarded-For values"
      case ShortAgentHeader => "Suspiciously short User-Agent in headers"
    }
  }

  /** The header signals, in the order they are tested. */
  const HeaderSignals: seq<HeaderSignal> := [
    MissingAccept, MissingAcceptLanguage, MissingAcceptEncoding, MultipleForwardedFor,
    ShortAgentHeader]

  /** The header score: the weights of the signals that fire. */
  function HeaderScore(h: HeaderMap): int {
    Bit(MissingAccept.Fires(h), MissingAccept.Weight())
    + Bit(MissingAcceptLanguage.Fires(h), MissingAcceptLanguage.Weight())
    + Bit(MissingAcceptEncoding.Fires(h), MissingAcceptEncoding.Weight())
    + Bit(MultipleForwardedFor.Fires(h), MultipleForwardedFor.Weight())
    + Bit(ShortAgentHeader.Fires(h), ShortAgentHeader.Weight())
  }

  /** The reasons of the signals that fire, in the order they are tested. */
  function HeaderReasons(h: HeaderMap): seq<string> {
    [] + Say(MissingAccept.Fires(h), MissingAccept.Reason())
    + Say(MissingAcceptLanguage.Fires(h), MissingAcceptLanguage.Reason())
    + Say(MissingAcceptEncoding.Fires(h), MissingAcceptEncoding.Reason())
    + Say(MultipleForwardedFor.Fires(h), MultipleForwardedFor.Reason())
    + Say(ShortAgentHeader.Fires(h), ShortAgentHeader.Reason())
  }

  /** The verdict of the header check. */
  function HeadersVerdict(h: HeaderMap): Verdict {
    var score := HeaderScore(h);
    Verdict(score > 40, if score > 40 then Some(SuspiciousHeaders) else None, score,
            HeaderReasons(h))
  }

  /** `checkHeaders`: each signal adds its weight and its reason. */
  method CheckHeaders(h: HeaderMap) returns (result: Verdict)
    ensures result == HeadersVerdict(h)
  {
    var reasons: seq<string> := [];
    var confidence := 0;
    confidence, reasons := AddSignal(confidence, reasons, MissingAccept.Fires(h),
                                     MissingAccept.Weight(), MissingAccept.Reason());
    confidence, reasons := AddSignal(confidence, reasons, MissingAcceptLanguage.Fires(h),
                                     MissingAcceptLanguage.Weight(), MissingAcceptLanguage.Reason());
    confidence, reasons := AddSignal(confidence, reasons, MissingAcceptEncoding.Fires(h),
                                     MissingAcceptEncoding.Weight(), MissingAcceptEncoding.Reason());
    confidence, reasons := AddSignal(confidence, reasons, MultipleForwardedFor.Fires(h),
                                     MultipleForwardedFor.Weight(), MultipleForwardedFor.Reason());
    confidence, reasons := AddSignal(confidence, reasons, ShortAgentHeader.Fires(h),
                                     ShortAgentHeader.Weight(), ShortAgentHeader.Reason());
    result := Verdict(confidence > 40, if confidence > 40 then Some(SuspiciousHeaders) else None,
                      confidence, reasons);
  }

  // ---------------------------------------------------------------------
  // combination

  /** `detectBot`: the OR of the verdicts, the largest confidence, every
    * reason in UA, IP, header order, and the first bot type in that order. */
  function Combine(ua: Verdict, ip: Verdict, hd: Verdict): Verdict {
    var isBot := ua.isBot || ip.isBot || hd.isBot;
    var botType := if ua.botType.Some? then ua.botType.value
                   else if ip.botType.Some? then ip.botType.value
                   else if hd.botType.Some? then hd.botType.value
                   else Unknown;
    Verdict(isBot, if isBot then Some(botType) else None,
            Max(Max(ua.confidence, ip.confidence), hd.confidence),
            ua.reasons + ip.reasons + hd.reasons)
  }

  /** The IP the classifier checks: the raw `x-forwarded-for` value. */
  function ForwardedFor(h: HeaderMap): string {
    HeaderOr(h, "x-forwarded-for", "")
  }

  function DetectBot(ua: string, h: HeaderMap): Verdict {
    Combine(UserAgentVerdict(ua), IpVerdict(ForwardedFor(h), BlockedPrefixes), HeadersVerdict(h))
  }

  // ---------------------------------------------------------------------
  // properties of the classifier

  /** A verdict names a bot type exactly when it flags a bot, and never `unknown`. */
  predicate Consistent(v: Verdict) {
    (v.isBot <==> v.botType.Some?) && v.botType != Some(Unknown)
  }

  /** Every type name is non-empty, so a present type is truthy. */
  lemma NameNonEmpty(t: BotType)
    ensures t.Name() != "" && |t.Name()| >= 4
  {
  }

  /** Only `Unknown` is spelled "unknown". */
  lemma NameIsUnknownOnlyForUnknown(t: BotType)
    ensures t.Name() == "unknown" <==> t == Unknown
  {
  }

  /** `Refine` answers `GenericBot` or a type whose test succeeds. */
  lemma {:induction false} RefineSelects(ua: string, order: seq<BotType>)
    ensures Refine(ua, order) == GenericBot || Selects(ua, Refine(ua, order))
    decreases |order|
  {
    if order != [] && !Selects(ua, order[0]) {
      RefineSelects(ua, order[1..]);
    }
  }

  /** A type the refinement can answer is none of the types reported elsewhere. */
  lemma SelectedIsKnown(ua: string, t: BotType)
    requires t == GenericBot || Selects(ua, t)
    ensures t != Unknown && t != NoUserAgent && t != Suspicious && t != BlockedIp
            && t != SuspiciousHeaders
  {
  }

  /** A refined bot is a generic bot or one whose substring test succeeds; it is reported
    * with 95, a scraper with 90 and a generic bot with 85, with one reason, and never as
    * `unknown`, `no_user_agent` or a soft verdict. */
  lemma RefinedVerdict(ua: string)
    ensures var t := Refine(ua, KnownBots);
            (t == GenericBot || Selects(ua, t))
            && t != Unknown && t != NoUserAgent && t != Suspicious && t != BlockedIp
            && t != SuspiciousHeaders
            && Refined(t).confidence == (if t == Scraper then 90
                                         else if t == GenericBot then 85 else 95)
            && |Refined(t).reasons| == 1
  {
    var t := Refine(ua, KnownBots);
    RefineSelects(ua, KnownBots);
    SelectedIsKnown(ua, t);
  }

  /** Three of the heuristic weights, and so all of them, are needed to pass 50. */
  lemma HeuristicThreshold(ua: string)
    ensures HeuristicScore(ua) > 50 <==>
            ShortAgent.Fires(ua) && MozillaWithoutBrowser.Fires(ua) && WindowsWithoutBrowser.Fires(ua)
  {
  }

  /** Occurrences of "Mozilla" and "Windows" start at least three apart: neither word
    * starts with a letter among the first three of the other. */
  lemma MozillaWindowsApart(ua: string, m: int, w: int)
    requires OccursAt(ua, "Mozilla", m) && OccursAt(ua, "Windows", w)
    ensures m + 3 <= w || w + 3 <= m
  {
    assert ua[m] == ua[m..m + 7][0] && ua[m + 1] == ua[m..m + 7][1]
           && ua[m + 2] == ua[m..m + 7][2];
    assert ua[w] == ua[w..w + 7][0] && ua[w + 1] == ua[w..w + 7][1]
           && ua[w + 2] == ua[w..w + 7][2];
  }

  /** The three heuristics never fire together: an agent containing both "Mozilla" and
    * "Windows" is at least 10 characters long. */
  lemma HeuristicsNeverAllFire(ua: string)
    ensures !(ShortAgent.Fires(ua) && MozillaWithoutBrowser.Fires(ua)
              && WindowsWithoutBrowser.Fires(ua))
  {
    if Contains(ua, "Mozilla") && Contains(ua, "Windows") {
      var m := ContainsWhere(ua, "Mozilla");
      var w := ContainsWhere(ua, "Windows");
      MozillaWindowsApart(ua, m, w);
      Utf16LengthAtLeast(ua);
    }
  }

  /** The `suspicious` verdict is unreachable: the User-Agent check flags a bot exactly
    * for an empty agent or a match of the bot pattern. */
  lemma SuspiciousUnreachable(ua: string)
    ensures UserAgentVerdict(ua).isBot <==> ua == "" || MatchesBotPattern(ua)
    ensures UserAgentVerdict(ua).botType != Some(Suspicious)
  {
    HeuristicThreshold(ua);
    HeuristicsNeverAllFire(ua);
    if ua != "" && MatchesBotPattern(ua) {
      RefinedVerdict(ua);
    }
  }

  /** The User-Agent check on an empty agent: a bot of type `no_user_agent`, confidence
    * 100, one reason. */
  lemma EmptyAgent()
    ensures var v := UserAgentVerdict("");
            v.isBot && v.botType == Some(NoUserAgent) && v.confidence == 100
            && v.reasons == ["No User-Agent provided"]
  {
  }

  /** "Googlebot/2.1" matches the case-insensitive bot pattern, through "bot". */
  lemma GooglebotMatchesPattern()
    ensures MatchesBotPattern("Googlebot/2.1")
  {
    var lower := LowerAscii("Googlebot/2.1");
    assert lower[6..9] == "bot";
    ContainsAt(lower, "bot", 6);
    assert BotTokens[0] == "bot";
    ContainsAnyIff(lower, BotTokens);
  }

  /** No case-sensitive refinement test succeeds on "Googlebot/2.1": each refinement
    * substring has a character the agent lacks, except "googlebot", whose lower-case `g`
    * the agent has only where "goo" cannot follow. */
  lemma GooglebotSelectsNothing(t: BotType)
    ensures !Selects("Googlebot/2.1", t)
  {
    var ua := "Googlebot/2.1";
    var cs := {'G', 'o', 'g', 'l', 'e', 'b', 't', '/', '2', '.', '1'};
    assert OverAlphabet(ua, cs);
    match t
    case Facebook =>
      ContainsNeedsChar(ua, cs, "facebookexternalhit", 0);
      ContainsNeedsChar(ua, cs, "facebot", 0);
    case Google =>
      ContainsNeedsPair(ua, "googlebot", 0);
    case Bing => ContainsNeedsChar(ua, cs, "bingbot", 1);
    case Twitter => ContainsNeedsChar(ua, cs, "twitterbot", 1);
    case LinkedIn => ContainsNeedsChar(ua, cs, "linkedinbot", 1);
    case Telegram => ContainsNeedsChar(ua, cs, "telegrambot", 5);
    case WhatsApp => ContainsNeedsChar(ua, cs, "whatsapp", 0);
    case Discord => ContainsNeedsChar(ua, cs, "discordbot", 0);
    case Apple => ContainsNeedsChar(ua, cs, "applebot", 0);
    case Snapchat => ContainsNeedsChar(ua, cs, "snapchat", 0);
    case Pinterest => ContainsNeedsChar(ua, cs, "pinterest", 0);
    case Quora => ContainsNeedsChar(ua, cs, "quora", 0);
    case Embedly => ContainsNeedsChar(ua, cs, "embedly", 1);
    case VKontakte => ContainsNeedsChar(ua, cs, "vkshare", 0);
    case Skype => ContainsNeedsChar(ua, cs, "skypeuripreview", 0);
    case Scraper =>
      ContainsNeedsChar(ua, cs, "python-requests", 0);
      ContainsNeedsChar(ua, cs, "axios", 0);
      ContainsNeedsChar(ua, cs, "wget", 0);
      ContainsNeedsChar(ua, cs, "fetch", 0);
    case _ =>
  }

  /** Detection is case-insensitive but refinement is not: "Googlebot/2.1" is a generic
    * bot with confidence 85, not a Google bot. */
  lemma GooglebotIsGeneric()
    ensures UserAgentVerdict("Googlebot/2.1") == Verdict(true, Some(GenericBot), 85,
                                                         ["Generic bot pattern detected"])
  {
    GooglebotMatchesPattern();
    forall j | 0 <= j < |KnownBots|
      ensures !Selects("Googlebot/2.1", KnownBots[j])
    {
      GooglebotSelectsNothing(KnownBots[j]);
    }
    RefineIsFirstMatch("Googlebot/2.1", KnownBots, |KnownBots|);
  }

  /** The IP check flags exactly a non-local address with a listed prefix, with 90 and
    * one reason; otherwise it reports 0 and no reasons. */
  lemma IpVerdictCases(ip: string, ranges: seq<string>)
    ensures var v := IpVerdict(ip, ranges);
            Consistent(v)
            && (v.isBot <==> !IsLocalOrEmpty(ip)
                             && exists j :: 0 <= j < |ranges| && StartsWith(ip, ranges[j]))
            && (v.isBot ==> v.botType == Some(BlockedIp) && v.confidence == 90
                            && |v.reasons| == 1)
            && (!v.isBot ==> v.confidence == 0 && v.reasons == [])
  {
  }

  /** The header score lies in 0..105, it is at most 80 without a short agent header, a
    * flagged header set has at least two signals, and the header verdict is consistent. */
  lemma HeaderScoreBounds(h: HeaderMap)
    ensures 0 <= HeaderScore(h) <= 105
    ensures !ShortAgentHeader.Fires(h) ==> HeaderScore(h) <= 80
    ensures HeadersVerdict(h).isBot ==> |HeadersVerdict(h).reasons| >= 2
    ensures Consistent(HeadersVerdict(h))
  {
  }

  /** A missing Accept header alone (30) does not flag. */
  lemma MissingAcceptAlone()
    ensures var v := HeadersVerdict(map["accept-language" := "en", "accept-encoding" := "gzip"]);
            !v.isBot && v.confidence == 30 && v.reasons == ["Missing Accept header"]
  {
  }

  /** All five signals can fire together, so the header check can report 105. */
  lemma HeaderScoreReaches105()
    ensures HeadersVerdict(map["user-agent" := "x", "x-forwarded-for" := "a,b"]).confidence == 105
  {
    ContainsAt("a,b", ",", 1);
  }

  /** The User-Agent verdict names a type exactly when it flags, never `unknown`. */
  lemma UserAgentConsistent(ua: string)
    ensures Consistent(UserAgentVerdict(ua))
  {
    SuspiciousUnreachable(ua);
    if ua != "" && MatchesBotPattern(ua) {
      RefinedVerdict(ua);
    }
  }

  /** `detectBot` flags a bot iff a sub-check does; its confidence is the largest of the
    * three; its reasons are theirs in UA, IP, header order; the UA type wins over the IP
    * type, which wins over the header type; and no type is reported for a non-bot. */
  lemma CombineProperties(u: Verdict, i: Verdict, d: Verdict)
    requires Consistent(u) && Consistent(i) && Consistent(d)
    ensures var v := Combine(u, i, d);
            (v.isBot <==> u.isBot || i.isBot || d.isBot)
            && (v.botType.Some? <==> v.isBot) && v.botType != Some(Unknown)
            && v.confidence >= u.confidence && v.confidence >= i.confidence
            && v.confidence >= d.confidence
            && (v.confidence == u.confidence || v.confidence == i.confidence
                || v.confidence == d.confidence)
            && v.reasons == u.reasons + i.reasons + d.reasons
            && (u.isBot ==> v.botType == u.botType)
            && (!u.isBot && i.isBot ==> v.botType == i.botType)
            && (!u.isBot && !i.isBot ==> v.botType == d.botType)
  {
  }

  /** A flagged request always carries a type, never `unknown`; a request not flagged
    * carries none. */
  lemma DetectBotTyped(ua: string, h: HeaderMap)
    ensures Consistent(DetectBot(ua, h))
  {
    UserAgentConsistent(ua);
    IpVerdictCases(ForwardedFor(h), BlockedPrefixes);
    HeaderScoreBounds(h);
    CombineProperties(UserAgentVerdict(ua), IpVerdict(ForwardedFor(h), BlockedPrefixes),
                      HeadersVerdict(h));
  }

  /** With no agent, and no short agent among the headers, `detectBot` reports the
    * empty-agent verdict with confidence 100: the IP check gives at most 90 and the
    * headers at most 80. */
  lemma EmptyAgentDetected(h: HeaderMap)
    requires !Truthy(Header(h, "user-agent"))
    ensures var v := DetectBot("", h);
            v.isBot && v.botType == Some(NoUserAgent) && v.confidence == 100
            && v.reasons[0] == "No User-Agent provided"
  {
    EmptyAgent();
    IpVerdictCases(ForwardedFor(h), BlockedPrefixes);
    HeaderScoreBounds(h);
  }

  /** A short agent among the headers lifts the empty-agent confidence to 105. */
  lemma EmptyAgentWithHeaderAgent()
    ensures DetectBot("", map["user-agent" := "x", "x-forwarded-for" := "a,b"]).confidence == 105
  {
    EmptyAgent();
    HeaderScoreReaches105();
  }

  /** No blocked prefix is a prefix of a local or empty address. */
  lemma BlockedPrefixNotLocal(ip: string, j: nat)
    requires j < |BlockedPrefixes| && StartsWith(ip, BlockedPrefixes[j])
    ensures !IsLocalOrEmpty(ip)
  {
    var p := BlockedPrefixes[j];
    assert |p| >= 6 && (p[0] != '1' || p[1] != '2');
    assert ip[..|p|] == p;
  }

  /** The raw `x-forwarded-for` value is checked: a browser-like agent whose first hop is
    * in a blocked range is classified `blocked_ip`. */
  lemma BlockedFirstHop(ua: string, h: HeaderMap, j: nat)
    requires ua != "" && !MatchesBotPattern(ua)
    requires "x-forwarded-for" in h && j < |BlockedPrefixes|
    requires StartsWith(h["x-forwarded-for"], BlockedPrefixes[j])
    ensures DetectBot(ua, h).isBot && DetectBot(ua, h).botType == Some(BlockedIp)
  {
    SuspiciousUnreachable(ua);
    var ip := h["x-forwarded-for"];
    BlockedPrefixNotLocal(ip, j);
    IpVerdictCases(ip, BlockedPrefixes);
  }
}
