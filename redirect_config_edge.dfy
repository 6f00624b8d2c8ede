/**
 * The `redirect-config` edge function (netlify/edge-functions/redirect-config.ts): one
 * agent pattern, narrower than the shared classifier's, splits every request between
 * the decoy and the main site.
 */
module RedirectConfigEdge {
  import opened JsString
  import opened Http

  /** The alternatives of the handler's pattern (with the `i` flag). */
  const NarrowBotTokens: seq<string> := [
    "bot", "crawl", "spider", "crawling", "facebookexternalhit", "slurp", "mediapartners",
    "adsbot", "bingpreview", "twitterbot", "linkedinbot", "embedly", "quora", "pinterest"]

  const MainSite: string := "https://turbo-play.live"
  const Decoy: string := "https://yalanyokgaming.netlify.app"

  /** `handler(req, context)` */
  function Handle(req: FetchRequest): Decision {
    var ua := HeaderOr(req.headers, "user-agent", "");
    var isBot := ContainsAnyIgnoringCase(ua, NarrowBotTokens);
    if !isBot then Found(MainSite) else Found(Decoy)
  }

  // ---------------------------------------------------------------------
  // properties

  /** Every answer is a 302 to one of the two fixed URLs; neither path nor query is
    * carried over. */
  lemma TwoDestinations(req: FetchRequest)
    ensures Handle(req) == Redirect(MainSite, 302, map[]) || Handle(req) == Redirect(Decoy, 302, map[])
    ensures Handle(req) == Redirect(Decoy, 302, map[])
            <==> ContainsAnyIgnoringCase(HeaderOr(req.headers, "user-agent", ""), NarrowBotTokens)
  {
  }

  /** No alternative occurs in the empty agent. */
  lemma NothingInEmpty()
    ensures !ContainsAnyIgnoringCase("", NarrowBotTokens)
  {
    forall i | 0 <= i < |NarrowBotTokens|
      ensures !Contains(LowerAscii(""), NarrowBotTokens[i])
    {
      assert |NarrowBotTokens[i]| > 0;
    }
    ContainsNone(LowerAscii(""), NarrowBotTokens);
  }

  /** A missing or empty agent counts as human and is sent to the main site. */
  lemma EmptyAgentToMainSite(req: FetchRequest)
    requires !Truthy(Header(req.headers, "user-agent"))
    ensures Handle(req) == Redirect(MainSite, 302, map[])
  {
    NothingInEmpty();
  }

  /** The pattern is narrower than the classifiers': `python-requests/2.28` does not
    * match, since each alternative has a character that agent lacks. */
  lemma PythonRequestsNotMatched()
    ensures !ContainsAnyIgnoringCase("python-requests/2.28", NarrowBotTokens)
  {
    var ua := "python-requests/2.28";
    var cs := {'p', 'y', 't', 'h', 'o', 'n', '-', 'r', 'e', 'q', 'u', 's', '/', '2', '.', '8'};
    LowerAsciiOfLower(ua);
    assert OverAlphabet(ua, cs);
    forall i | 0 <= i < |NarrowBotTokens|
      ensures !Contains(ua, NarrowBotTokens[i])
    {
      var tok := NarrowBotTokens[i];
      var at := if i == 0 || i == 8 then 0       // b
                else if i == 1 || i == 3 then 0  // c
                else if i == 2 then 2            // i
                else if i == 4 then 0            // f
                else if i == 5 || i == 10 then 1 // l
                else if i == 6 then 0            // m
                else if i == 7 then 0            // a
                else if i == 9 then 1            // w
                else if i == 11 then 1           // m
                else if i == 12 then 4           // a
                else 1;                          // i
      assert tok[at] !in cs;
      ContainsNeedsChar(ua, cs, tok, at);
    }
    ContainsNone(ua, NarrowBotTokens);
  }
}
