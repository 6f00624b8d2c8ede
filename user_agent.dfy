/**
 * The client-side User-Agent parser (src/utils/userAgent.ts): the agent is lower-cased,
 * then three first-match chains name the device, the operating system and the browser,
 * and the browser's version is the digit run after its version token.
 */
module UserAgent {
  import opened Common
  import opened JsString
  import opened Decimal

  /** `UserAgentInfo` */
  datatype UserAgentInfo = UserAgentInfo(device: string, os: string, browser: string,
                                         version: Option<string>,
                                         isMobile: bool, isTablet: bool, isDesktop: bool)

  /** The device chain over the lower-cased agent; anything else is `Desktop`. */
  const DeviceRules: seq<Rule> :=
    [Rule(["mobile", "android", "iphone"], "Mobile"), Rule(["tablet", "ipad"], "Tablet")]

  /** The operating-system chain; anything else is `Unknown`. */
  const OsRules: seq<Rule> := [
    Rule(["windows"], "Windows"), Rule(["mac os", "macintosh"], "macOS"), Rule(["linux"], "Linux"),
    Rule(["android"], "Android"), Rule(["ios", "iphone", "ipad"], "iOS")]

  /** The browser chain; `safari` is tried only after `chrome` has failed. */
  const BrowserRules: seq<Rule> := [
    Rule(["chrome"], "Chrome"), Rule(["firefox"], "Firefox"), Rule(["safari"], "Safari"),
    Rule(["edge"], "Edge"), Rule(["opera"], "Opera")]

  /** The token whose `/token\/(\d+)/` match gives a browser's version. */
  function VersionToken(browser: string): string {
    match browser
    case "Chrome" => "chrome/"
    case "Firefox" => "firefox/"
    case "Safari" => "version/"
    case "Edge" => "edge/"
    case _ => "opera/"
  }

  /** `s.match(/token(\d+)/)?.[1]`, searching from position `j`: the digits after the
    * leftmost occurrence of `token` that a digit follows. */
  function MatchFrom(s: string, token: string, j: nat): (v: Option<string>)
    ensures v.Some? ==> v.value != [] && forall k :: 0 <= k < |v.value| ==> IsDigit(v.value[k])
    decreases |s| - j
  {
    if j + |token| >= |s| then None
    else if OccursAt(s, token, j) && IsDigit(s[j + |token|]) then Some(DigitRun(s[j + |token|..]))
    else MatchFrom(s, token, j + 1)
  }

  function MatchVersion(s: string, token: string): Option<string> {
    MatchFrom(s, token, 0)
  }

  /** `parseUserAgent(userAgent)`: the three chains run on the lower-cased agent. */
  method ParseUserAgent(userAgent: string) returns (info: UserAgentInfo)
    ensures var ua := LowerAscii(userAgent);
            info.device == FirstLabel(ua, DeviceRules, "Desktop")
            && info.os == FirstLabel(ua, OsRules, "Unknown")
            && info.browser == FirstLabel(ua, BrowserRules, "Unknown")
    ensures info.version == if info.browser == "Unknown" then None
                            else MatchVersion(LowerAscii(userAgent), VersionToken(info.browser))
    ensures info.isMobile <==> info.device == "Mobile"
    ensures info.isTablet <==> info.device == "Tablet"
    ensures info.isDesktop <==> info.device == "Desktop"
  {
    var ua := LowerAscii(userAgent);
    var device, isMobile, isTablet, isDesktop := DetectDevice(ua);
    var os := DetectOs(ua);
    var browser, version := DetectBrowser(ua);
    info := UserAgentInfo(device, os, browser, version, isMobile, isTablet, isDesktop);
  }

  /** The device section: a label and three flags, one of which is set. */
  method DetectDevice(ua: string) returns (device: string, isMobile: bool, isTablet: bool, isDesktop: bool)
    ensures device == FirstLabel(ua, DeviceRules, "Desktop")
    ensures isMobile <==> device == "Mobile"
    ensures isTablet <==> device == "Tablet"
    ensures isDesktop <==> device == "Desktop"
  {
    DeviceChain(ua);
    device := "Unknown";
    isMobile := false;
    isTablet := false;
    isDesktop := true;
    if Contains(ua, "mobile") || Contains(ua, "android") || Contains(ua, "iphone") {
      device := "Mobile";
      isMobile := true;
      isDesktop := false;
    } else if Contains(ua, "tablet") || Contains(ua, "ipad") {
      device := "Tablet";
      isTablet := true;
      isDesktop := false;
    } else {
      device := "Desktop";
    }
  }

  /** The operating-system section. */
  method DetectOs(ua: string) returns (os: string)
    ensures os == FirstLabel(ua, OsRules, "Unknown")
  {
    OsChain(ua);
    os := "Unknown";
    if Contains(ua, "windows") {
      os := "Windows";
    } else if Contains(ua, "mac os") || Contains(ua, "macintosh") {
      os := "macOS";
    } else if Contains(ua, "linux") {
      os := "Linux";
    } else if Contains(ua, "android") {
      os := "Android";
    } else if Contains(ua, "ios") || Contains(ua, "iphone") || Contains(ua, "ipad") {
      os := "iOS";
    }
  }

  /** The browser section: a label and the version its token's match captures. */
  method DetectBrowser(ua: string) returns (browser: string, version: Option<string>)
    ensures browser == FirstLabel(ua, BrowserRules, "Unknown")
    ensures version == if browser == "Unknown" then None else MatchVersion(ua, VersionToken(browser))
  {
    BrowserChain(ua);
    browser := "Unknown";
    version := None;
    if Contains(ua, "chrome") {
      browser := "Chrome";
      version := MatchVersion(ua, "chrome/");
    } else if Contains(ua, "firefox") {
      browser := "Firefox";
      version := MatchVersion(ua, "firefox/");
    } else if Contains(ua, "safari") && !Contains(ua, "chrome") {
      browser := "Safari";
      version := MatchVersion(ua, "version/");
    } else if Contains(ua, "edge") {
      browser := "Edge";
      version := MatchVersion(ua, "edge/");
    } else if Contains(ua, "opera") {
      browser := "Opera";
      version := MatchVersion(ua, "opera/");
    }
  }

  // ---------------------------------------------------------------------
  // the chains as first-match tables

  lemma DeviceChain(ua: string)
    ensures FirstLabel(ua, DeviceRules, "Desktop")
            == if Contains(ua, "mobile") || Contains(ua, "android") || Contains(ua, "iphone") then "Mobile"
               else if Contains(ua, "tablet") || Contains(ua, "ipad") then "Tablet"
               else "Desktop"
  {
    var k := if ContainsAny(ua, DeviceRules[0].tokens) then 0
             else if ContainsAny(ua, DeviceRules[1].tokens) then 1 else 2;
    FirstLabelIsLeastMatch(ua, DeviceRules, "Desktop", k);
  }

  lemma OsChain(ua: string)
    ensures FirstLabel(ua, OsRules, "Unknown")
            == if Contains(ua, "windows") then "Windows"
               else if Contains(ua, "mac os") || Contains(ua, "macintosh") then "macOS"
               else if Contains(ua, "linux") then "Linux"
               else if Contains(ua, "android") then "Android"
               else if Contains(ua, "ios") || Contains(ua, "iphone") || Contains(ua, "ipad") then "iOS"
               else "Unknown"
  {
    var k := if ContainsAny(ua, OsRules[0].tokens) then 0
             else if ContainsAny(ua, OsRules[1].tokens) then 1
             else if ContainsAny(ua, OsRules[2].tokens) then 2
             else if ContainsAny(ua, OsRules[3].tokens) then 3
             else if ContainsAny(ua, OsRules[4].tokens) then 4 else 5;
    FirstLabelIsLeastMatch(ua, OsRules, "Unknown", k);
  }

  lemma BrowserChain(ua: string)
    ensures FirstLabel(ua, BrowserRules, "Unknown")
            == if Contains(ua, "chrome") then "Chrome"
               else if Contains(ua, "firefox") then "Firefox"
               else if Contains(ua, "safari") && !Contains(ua, "chrome") then "Safari"
               else if Contains(ua, "edge") then "Edge"
               else if Contains(ua, "opera") then "Opera"
               else "Unknown"
  {
    var k := if Contains(ua, "chrome") then 0 else if Contains(ua, "firefox") then 1
             else if Contains(ua, "safari") then 2 else if Contains(ua, "edge") then 3
             else if Contains(ua, "opera") then 4 else 5;
    FirstLabelIsLeastMatch(ua, BrowserRules, "Unknown", k);
  }

  // ---------------------------------------------------------------------
  // properties

  /** The device is one of the three kinds, never `Unknown`, so exactly one flag is set. */
  lemma DeviceIsKnown(ua: string)
    ensures FirstLabel(ua, DeviceRules, "Desktop") in {"Mobile", "Tablet", "Desktop"}
  {
    DeviceChain(ua);
  }

  /** A mobile token wins over a tablet token: an Android tablet is reported as Mobile. */
  lemma MobileBeforeTablet(ua: string)
    requires Contains(ua, "android") && Contains(ua, "tablet")
    ensures FirstLabel(ua, DeviceRules, "Desktop") == "Mobile"
  {
    DeviceChain(ua);
  }

  /** An iPhone agent that mentions `mac os` (as Safari on iOS does) reports macOS. */
  lemma IphoneReportsMacOs(ua: string)
    requires Contains(ua, "iphone") && Contains(ua, "mac os") && !Contains(ua, "windows")
    ensures FirstLabel(ua, OsRules, "Unknown") == "macOS"
  {
    OsChain(ua);
  }

  /** A matched version is a non-empty run of digits that directly follows an occurrence
    * of the token, and the run cannot be extended. */
  lemma {:induction false} VersionFollowsToken(s: string, token: string, j: nat)
    requires MatchFrom(s, token, j).Some?
    ensures var v := MatchFrom(s, token, j).value;
            v != [] && (forall k :: 0 <= k < |v| ==> IsDigit(v[k]))
            && exists i :: j <= i && OccursAt(s, token + v, i)
                           && (i + |token| + |v| == |s| || !IsDigit(s[i + |token| + |v|]))
    decreases |s| - j
  {
    if OccursAt(s, token, j) && IsDigit(s[j + |token|]) {
      var v := DigitRun(s[j + |token|..]);
      assert s[j..j + |token| + |v|] == token + v;
      assert OccursAt(s, token + v, j);
    } else {
      VersionFollowsToken(s, token, j + 1);
    }
  }

  /** There is no version exactly when no occurrence of the token is followed by a digit. */
  lemma {:induction false} NoVersionIffNoDigit(s: string, token: string, j: nat)
    ensures MatchFrom(s, token, j).None?
            <==> forall i :: j <= i && i + |token| < |s| ==> !(OccursAt(s, token, i) && IsDigit(s[i + |token|]))
    decreases |s| - j
  {
    if j + |token| < |s| {
      NoVersionIffNoDigit(s, token, j + 1);
    }
  }
}
