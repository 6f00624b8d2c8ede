/**
 * The visitor-tracking route (src/app/api/telegram/track/route.ts): client-address
 * resolution over nine headers, a case-sensitive summary of the User-Agent, the
 * regional-indicator flag of a country code, and the notification text the route
 * composes for each event type.
 */
module TrackRoute {
  import opened Common
  import opened JsString
  import opened Http

  // ---------------------------------------------------------------------
  // client address

  /** The nine candidate headers, in the order the route tries them. */
  function IpSources(h: HeaderMap): (sources: seq<Option<string>>)
    ensures |sources| == 9
  {
    [Header(h, "x-nf-client-connection-ip"), Header(h, "cf-connecting-ip"),
     Header(h, "x-forwarded-for"), Header(h, "x-real-ip"), Header(h, "x-client-ip"),
     Header(h, "x-cluster-client-ip"), Header(h, "x-forwarded"), Header(h, "forwarded-for"),
     Header(h, "forwarded")]
  }

  /** `ip.split(',')[0]?.trim()`: the first comma-separated part, trimmed. */
  function CleanIp(ip: string): (c: string)
    ensures ',' !in c
  {
    Trim(BeforeFirst(ip, ','))
  }

  /** A cleaned address is used when it is non-empty and neither `unknown` nor `::1`. */
  predicate Qualifies(c: string) {
    c != "" && c != "unknown" && c != "::1"
  }

  /** A source the loop returns from: present, non-empty, and qualifying once cleaned. */
  predicate Accepted(source: Option<string>) {
    Truthy(source) && Qualifies(CleanIp(source.value))
  }

  /** The cleaned first accepted source, or `platformIp` when none is accepted. */
  function FirstAccepted(sources: seq<Option<string>>, platformIp: Option<string>): Option<string>
    decreases |sources|
  {
    if sources == [] then platformIp
    else if Accepted(sources[0]) then Some(CleanIp(sources[0].value))
    else FirstAccepted(sources[1..], platformIp)
  }

  /** `getClientIp(req)`; `platformIp` is the runtime's `req.ip`. */
  method GetClientIp(h: HeaderMap, platformIp: Option<string>) returns (ip: Option<string>)
    ensures ip == FirstAccepted(IpSources(h), platformIp)
  {
    var sources := IpSources(h);
    for i := 0 to |sources|
      invariant FirstAccepted(sources[i..], platformIp) == FirstAccepted(sources, platformIp)
    {
      assert sources[i..][1..] == sources[i + 1..];
      var source := sources[i];
      if Truthy(source) {
        var cleanIp := CleanIp(source.value);
        if Qualifies(cleanIp) {
          return Some(cleanIp);
        }
      }
    }
    return platformIp;
  }

  /** `getClientIp(req) || 'unknown'` in `POST`. */
  function PostIp(resolved: Option<string>): (ip: string)
    ensures Truthy(resolved) ==> ip == resolved.value
    ensures !Truthy(resolved) ==> ip == "unknown"
  {
    OrElse(resolved, "unknown")
  }

  /** The resolved address is the cleaned form of the least accepted source; sources before
    * it are skipped, and with no accepted source it is the platform address. */
  lemma {:induction false} FirstAcceptedIsLeast(sources: seq<Option<string>>, platformIp: Option<string>, k: int)
    requires 0 <= k <= |sources|
    requires forall j :: 0 <= j < k ==> !Accepted(sources[j])
    requires k < |sources| ==> Accepted(sources[k])
    ensures FirstAccepted(sources, platformIp)
            == if k < |sources| then Some(CleanIp(sources[k].value)) else platformIp
    decreases |sources|
  {
    if sources != [] && k > 0 {
      FirstAcceptedIsLeast(sources[1..], platformIp, k - 1);
    }
  }

  /** A resolved address that is not the platform's is accepted, comma-free and trimmed. */
  lemma {:induction false} FirstAcceptedQualifies(sources: seq<Option<string>>, platformIp: Option<string>)
    ensures var r := FirstAccepted(sources, platformIp);
            r == platformIp || (r.Some? && Qualifies(r.value) && ',' !in r.value)
    decreases |sources|
  {
    if sources != [] && !Accepted(sources[0]) {
      FirstAcceptedQualifies(sources[1..], platformIp);
    }
  }

  /** An address without commas or surrounding white space is its own cleaned form. */
  lemma CleanUnpadded(ip: string)
    requires ',' !in ip && |ip| > 0
    requires !IsJsWhitespace(ip[0]) && !IsJsWhitespace(ip[|ip| - 1])
    ensures CleanIp(ip) == ip
  {
    BeforeFirstAbsent(ip, ',');
    TrimUnpadded(ip);
  }

  /** The IPv4 loopback is not rejected: `127.0.0.1` is used as given. */
  lemma LoopbackFourAccepted()
    ensures CleanIp("127.0.0.1") == "127.0.0.1" && Accepted(Some("127.0.0.1"))
  {
    CleanUnpadded("127.0.0.1");
  }

  /** The IPv6 loopback `::1` is skipped. */
  lemma LoopbackSixRejected()
    ensures CleanIp("::1") == "::1" && !Accepted(Some("::1"))
  {
    CleanUnpadded("::1");
  }

  /** Only the first hop of a list counts. */
  lemma FirstHopOnly(first: string, rest: string)
    requires ',' !in first && Qualifies(first)
    requires !IsJsWhitespace(first[0]) && !IsJsWhitespace(first[|first| - 1])
    ensures CleanIp(first + "," + rest) == first
    ensures Accepted(Some(first + "," + rest))
  {
    BeforeFirstUpTo(first, ',', rest);
    assert first + "," + rest == first + [','] + rest;
    TrimUnpadded(first);
  }

  // ---------------------------------------------------------------------
  // User-Agent summary (case-sensitive)

  /** The browser chain of the route's `parseUserAgent`. */
  function Browser(ua: string): string {
    if Contains(ua, "Chrome") then "Chrome"
    else if Contains(ua, "Firefox") then "Firefox"
    else if Contains(ua, "Safari") && !Contains(ua, "Chrome") then "Safari"
    else if Contains(ua, "Edge") then "Edge"
    else if Contains(ua, "Opera") then "Opera"
    else "Unknown"
  }

  /** The operating-system chain. */
  function Os(ua: string): string {
    if Contains(ua, "Windows") then "Windows"
    else if Contains(ua, "Mac OS") then "macOS"
    else if Contains(ua, "Linux") then "Linux"
    else if Contains(ua, "Android") then "Android"
    else if Contains(ua, "iOS") then "iOS"
    else "Unknown"
  }

  /** The device chain. */
  function Device(ua: string): string {
    if Contains(ua, "Mobile") then "Mobile"
    else if Contains(ua, "Tablet") then "Tablet"
    else "Desktop"
  }

  /** The three chains as first-match tables. */
  const BrowserRules: seq<Rule> := [
    Rule(["Chrome"], "Chrome"), Rule(["Firefox"], "Firefox"), Rule(["Safari"], "Safari"),
    Rule(["Edge"], "Edge"), Rule(["Opera"], "Opera")]
  const OsRules: seq<Rule> := [
    Rule(["Windows"], "Windows"), Rule(["Mac OS"], "macOS"), Rule(["Linux"], "Linux"),
    Rule(["Android"], "Android"), Rule(["iOS"], "iOS")]
  const DeviceRules: seq<Rule> := [Rule(["Mobile"], "Mobile"), Rule(["Tablet"], "Tablet")]

  /** The browser is the first token of Chrome, Firefox, Safari, Edge, Opera that occurs:
    * the `!Chrome` guard on Safari adds nothing once Chrome has been tested. */
  lemma BrowserIsFirstMatch(ua: string)
    ensures Browser(ua) == FirstLabel(ua, BrowserRules, "Unknown")
  {
    var k := if Contains(ua, "Chrome") then 0 else if Contains(ua, "Firefox") then 1
             else if Contains(ua, "Safari") then 2 else if Contains(ua, "Edge") then 3
             else if Contains(ua, "Opera") then 4 else 5;
    FirstLabelIsLeastMatch(ua, BrowserRules, "Unknown", k);
  }

  /** The OS is the first of Windows, Mac OS, Linux, Android, iOS that occurs. */
  lemma OsIsFirstMatch(ua: string)
    ensures Os(ua) == FirstLabel(ua, OsRules, "Unknown")
  {
    var k := if Contains(ua, "Windows") then 0 else if Contains(ua, "Mac OS") then 1
             else if Contains(ua, "Linux") then 2 else if Contains(ua, "Android") then 3
             else if Contains(ua, "iOS") then 4 else 5;
    FirstLabelIsLeastMatch(ua, OsRules, "Unknown", k);
  }

  /** The device is Mobile, then Tablet, else Desktop. */
  lemma DeviceIsFirstMatch(ua: string)
    ensures Device(ua) == FirstLabel(ua, DeviceRules, "Desktop")
  {
    var k := if Contains(ua, "Mobile") then 0 else if Contains(ua, "Tablet") then 1 else 2;
    FirstLabelIsLeastMatch(ua, DeviceRules, "Desktop", k);
  }

  /** Chrome wins over every other browser token; Safari is reported only without Chrome;
    * Edge and Opera only without Chrome, Firefox and Safari. */
  lemma BrowserPrecedence(ua: string)
    ensures Contains(ua, "Chrome") ==> Browser(ua) == "Chrome"
    ensures Browser(ua) == "Safari" <==> Contains(ua, "Safari") && !Contains(ua, "Chrome") && !Contains(ua, "Firefox")
    ensures Browser(ua) in {"Edge", "Opera"}
            ==> !Contains(ua, "Chrome") && !Contains(ua, "Firefox") && !Contains(ua, "Safari")
  {
  }

  /** An agent naming both Linux and Android (and neither Windows nor Mac OS) reports Linux. */
  lemma LinuxBeforeAndroid(ua: string)
    requires Contains(ua, "Linux") && Contains(ua, "Android")
    requires !Contains(ua, "Windows") && !Contains(ua, "Mac OS")
    ensures Os(ua) == "Linux"
  {
  }

  // ---------------------------------------------------------------------
  // flag emoji

  /** `countryCodeToFlagEmoji(cc)`: `''` unless the code has exactly two UTF-16 units;
    * otherwise one code point per unit of the upper-cased code, offset by 127397. */
  function FlagEmoji(cc: Option<string>): (flag: string)
    ensures !Truthy(cc) || Utf16Length(cc.value) != 2 ==> flag == ""
    ensures Truthy(cc) && Utf16Length(cc.value) == 2 ==> |flag| == 2
  {
    if !Truthy(cc) || Utf16Length(cc.value) != 2 then ""
    else
      UpperAsciiKeepsLength(cc.value);
      var units := Utf16Units(UpperAscii(cc.value));
      seq(|units|, k requires 0 <= k < |units| => (127397 + units[k]) as char)
  }

  /** The regional indicator of an upper-case letter. */
  function Indicator(c: char): char
    requires 'A' <= c <= 'Z'
  {
    (0x1F1E6 + (c as int - 'A' as int)) as char
  }

  /** A two-letter code maps each letter, in either case, to its regional indicator in
    * U+1F1E6..U+1F1FF; the result does not depend on the code's case. */
  lemma FlagOfLetters(a: char, b: char)
    requires 'A' <= UpperChar(a) <= 'Z' && 'A' <= UpperChar(b) <= 'Z'
    ensures FlagEmoji(Some([a, b])) == [Indicator(UpperChar(a)), Indicator(UpperChar(b))]
    ensures FlagEmoji(Some([a, b])) == FlagEmoji(Some([UpperChar(a), UpperChar(b)]))
    ensures forall k :: 0 <= k < 2 ==> 0x1F1E6 <= FlagEmoji(Some([a, b]))[k] as int <= 0x1F1FF
  {
    var up := UpperAscii([a, b]);
    assert up == [UpperChar(a), UpperChar(b)];
    assert Utf16Length([a, b]) == Utf16Width(a) + Utf16Length([b]);
    assert Utf16Length([UpperChar(a), UpperChar(b)])
           == Utf16Width(UpperChar(a)) + Utf16Length([UpperChar(b)]);
    assert UpperAscii([UpperChar(a), UpperChar(b)]) == up;
    assert Utf16Units(up) == [UpperChar(a) as int, UpperChar(b) as int];
  }

  /** A code that is absent, empty, or not two units long gives no flag. */
  lemma NoFlag()
    ensures FlagEmoji(None) == "" && FlagEmoji(Some("")) == ""
    ensures FlagEmoji(Some("USA")) == ""
  {
    assert Utf16Length("USA") == 3;
  }

  // ---------------------------------------------------------------------
  // notification text

  /** What `POST` knows of the visitor's location (from the geo lookup). */
  datatype Geo = Geo(country: string, countryCode: Option<string>, city: Option<string>)

  /** The event payload fields the texts use; an absent field is `undefined`. */
  datatype EventData = EventData(amount: Option<string>, currency: Option<string>, promocode: Option<string>)

  /** `${flag ? flag + ' ' : ''}${geo.country}` and `, city` when the city is truthy. */
  function GeoLine(geo: Geo): (line: string)
    ensures EndsWith(line, geo.country) || Truthy(geo.city)
  {
    var flag := FlagEmoji(geo.countryCode);
    (if flag != "" then flag + " " else "") + geo.country
    + (if Truthy(geo.city) then ", " + geo.city.value else "")
  }

  /** The block every message carries: user, location, device summary and time. */
  function Base(userId: string, geo: Geo, ua: string, time: string): string {
    "\U{1F464} <b>User</b>: <code>" + userId + "</code>\n\U{1F4CD} <b>Geo</b>: " + GeoLine(geo)
    + "\n\U{1F4F1} <b>Device</b>: " + Device(ua) + " | " + Browser(ua) + " | " + Os(ua)
    + "\n\U{1F552} <b>Time</b>: " + time
  }

  /** The first line of the message for an event type. */
  function Heading(eventType: string): string {
    match eventType
    case "visit" => "\U{1F7E2} <b>New visitor</b>"
    case "repeat_visit" => "\U{1F504} <b>Repeat visitor</b>"
    case "spin" => "\U{1F3A1} <b>Spin completed</b>"
    case "casino_redirect" => "\U{27A1}\U{FE0F} <b>Redirect to casino</b>"
    case _ => "\U{2139}\U{FE0F} <b>Event</b>: " + eventType
  }

  /** Template rendering of a possibly undefined value. */
  function Render(v: Option<string>): string {
    v.GetOr("undefined")
  }

  /** The lines after the base block: prize and promo code for a spin, promo code for a
    * casino redirect (`?? '-'`), nothing otherwise. */
  function Trailer(eventType: string, data: EventData): string {
    if eventType == "spin" then
      "\n\U{1F4B0} <b>Win</b>: " + Render(data.amount) + " " + Render(data.currency)
      + " | \U{1F3F7}\U{FE0F} <b>Promo</b>: " + data.promocode.GetOr("-")
    else if eventType == "casino_redirect" then
      "\n\U{1F3F7}\U{FE0F} <b>Promo</b>: " + data.promocode.GetOr("-")
    else ""
  }

  /** The text `POST` sends; the headers supply the agent (`|| 'n/a'`). */
  method ComposeText(eventType: string, userId: string, data: EventData, geo: Geo,
                     h: HeaderMap, time: string) returns (text: string)
    ensures text == Heading(eventType) + "\n" + Base(userId, geo, HeaderOr(h, "user-agent", "n/a"), time)
                    + Trailer(eventType, data)
  {
    var userAgent := HeaderOr(h, "user-agent", "n/a");
    var base := Base(userId, geo, userAgent, time);
    text := "";
    if eventType == "visit" {
      text := "\U{1F7E2} <b>New visitor</b>" + "\n" + base;
    } else if eventType == "repeat_visit" {
      text := "\U{1F504} <b>Repeat visitor</b>" + "\n" + base;
    } else if eventType == "spin" {
      var amount := data.amount;
      var currency := data.currency;
      var promocode := data.promocode;
      text := "\U{1F3A1} <b>Spin completed</b>" + "\n" + base
              + ("\n\U{1F4B0} <b>Win</b>: " + Render(amount) + " " + Render(currency)
                 + " | \U{1F3F7}\U{FE0F} <b>Promo</b>: " + promocode.GetOr("-"));
    } else if eventType == "casino_redirect" {
      var promocode := data.promocode;
      text := "\U{27A1}\U{FE0F} <b>Redirect to casino</b>" + "\n" + base
              + ("\n\U{1F3F7}\U{FE0F} <b>Promo</b>: " + promocode.GetOr("-"));
    } else {
      text := "\U{2139}\U{FE0F} <b>Event</b>: " + eventType + "\n" + base;
      assert Trailer(eventType, data) == "";
      assert text == Heading(eventType) + "\n" + base + "";
    }
  }

  /** Every message contains the base block, and the four known types get four distinct
    * headings, none of which is the generic one. */
  lemma HeadingsDistinct(eventType: string, base: string, data: EventData)
    ensures Contains(Heading(eventType) + "\n" + base + Trailer(eventType, data), base)
    ensures |{Heading("visit"), Heading("repeat_visit"), Heading("spin"), Heading("casino_redirect")}| == 4
    ensures eventType !in {"visit", "repeat_visit", "spin", "casino_redirect"}
            ==> StartsWith(Heading(eventType), "\U{2139}\U{FE0F} <b>Event</b>: ")
  {
    ContainsInMiddle(Heading(eventType) + "\n", base, Trailer(eventType, data));
    assert Heading("visit")[0] != Heading("repeat_visit")[0];
  }
}
