/**
 * The visitor's location and its defaults (src/utils/geolocation.ts): two country tables
 * with fallbacks, the one-day cache in `localStorage` in front of two lookup services, the
 * browser-language fallback, and the equal-currency shortcut of `convertCurrency`. The
 * lookups' replies, the clock and the browser language are parameters.
 */
module Geolocation {
  import opened Common
  import opened JsString
  import opened Http

  /** `GeolocationData` */
  datatype GeolocationData = GeolocationData(country: string, countryCode: string, currency: string,
                                             language: string, timezone: string)

  /** `FALLBACK_DATA` */
  const FallbackData: GeolocationData :=
    GeolocationData("United States", "US", "USD", "en", "America/New_York")

  /** `CACHE_DURATION`: one day in milliseconds. */
  const CacheDuration: int := 24 * 60 * 60 * 1000

  /** The `currencyMap` table of `getCurrencyByCountry`. */
  function CurrencyMap(countryCode: string): (currency: Option<string>)
    ensures currency.Some? ==> |currency.value| == 3
  {
    if |countryCode| != 2 then None
    else match countryCode[0]
    case 'A' => (match countryCode[1] { case 'T' => Some("EUR") case 'D' => Some("EUR") case 'L' => Some("ALL") case 'M' => Some("AMD") case 'Z' => Some("AZN") case 'F' => Some("AFN") case 'E' => Some("AED") case 'O' => Some("AOA") case 'U' => Some("AUD") case 'S' => Some("USD") case 'R' => Some("ARS") case 'Q' => Some("USD") case _ => None })
    case 'B' => (match countryCode[1] { case 'E' => Some("EUR") case 'G' => Some("BGN") case 'A' => Some("BAM") case 'Y' => Some("BYN") case 'N' => Some("BND") case 'D' => Some("BDT") case 'T' => Some("INR") case 'H' => Some("BHD") case 'W' => Some("BWP") case 'I' => Some("BIF") case 'F' => Some("XOF") case 'J' => Some("XOF") case 'R' => Some("BRL") case 'O' => Some("BOB") case _ => None })
    case 'C' => (match countryCode[1] { case 'A' => Some("CAD") case 'Z' => Some("CZK") case 'Y' => Some("EUR") case 'H' => Some("CHF") case 'N' => Some("CNY") case 'D' => Some("CDF") case 'G' => Some("XAF") case 'M' => Some("XAF") case 'F' => Some("XAF") case 'I' => Some("XOF") case 'V' => Some("CVE") case 'K' => Some("NZD") case 'L' => Some("CLP") case 'O' => Some("COP") case _ => None })
    case 'D' => (match countryCode[1] { case 'E' => Some("EUR") case 'K' => Some("DKK") case 'Z' => Some("DZD") case 'J' => Some("DJF") case _ => None })
    case 'E' => (match countryCode[1] { case 'S' => Some("EUR") case 'E' => Some("EUR") case 'G' => Some("EGP") case 'T' => Some("ETB") case 'R' => Some("ERN") case 'C' => Some("USD") case _ => None })
    case 'F' => (match countryCode[1] { case 'R' => Some("EUR") case 'I' => Some("EUR") case 'J' => Some("FJD") case 'M' => Some("USD") case 'K' => Some("GBP") case _ => None })
    case 'G' => (match countryCode[1] { case 'B' => Some("GBP") case 'R' => Some("EUR") case 'E' => Some("GEL") case 'H' => Some("GHS") case 'A' => Some("XAF") case 'Q' => Some("XAF") case 'N' => Some("GNF") case 'M' => Some("GMD") case 'W' => Some("XOF") case 'U' => Some("USD") case 'Y' => Some("GYD") case 'F' => Some("EUR") case 'S' => Some("GBP") case _ => None })
    case 'H' => (match countryCode[1] { case 'U' => Some("HUF") case 'R' => Some("HRK") case 'K' => Some("HKD") case _ => None })
    case 'I' => (match countryCode[1] { case 'T' => Some("EUR") case 'E' => Some("EUR") case 'S' => Some("ISK") case 'D' => Some("IDR") case 'N' => Some("INR") case 'R' => Some("IRR") case 'Q' => Some("IQD") case 'L' => Some("ILS") case _ => None })
    case 'J' => (match countryCode[1] { case 'P' => Some("JPY") case 'O' => Some("JOD") case _ => None })
    case 'K' => (match countryCode[1] { case 'Z' => Some("KZT") case 'G' => Some("RUB") case 'R' => Some("KRW") case 'H' => Some("KHR") case 'W' => Some("KWD") case 'E' => Some("KES") case 'M' => Some("KMF") case 'I' => Some("AUD") case _ => None })
    case 'L' => (match countryCode[1] { case 'V' => Some("EUR") case 'T' => Some("EUR") case 'U' => Some("EUR") case 'I' => Some("CHF") case 'A' => Some("LAK") case 'K' => Some("LKR") case 'B' => Some("LBP") case 'Y' => Some("LYD") case 'S' => Some("LSL") case 'R' => Some("LRD") case _ => None })
    case 'M' => (match countryCode[1] { case 'X' => Some("MXN") case 'T' => Some("EUR") case 'C' => Some("EUR") case 'K' => Some("MKD") case 'E' => Some("EUR") case 'D' => Some("MDL") case 'O' => Some("MOP") case 'Y' => Some("MYR") case 'M' => Some("MMK") case 'V' => Some("MVR") case 'A' => Some("MAD") case 'W' => Some("MWK") case 'U' => Some("MUR") case 'L' => Some("XOF") case 'Z' => Some("MZN") case 'G' => Some("USD") case 'H' => Some("USD") case 'P' => Some("USD") case _ => None })
    case 'N' => (match countryCode[1] { case 'L' => Some("EUR") case 'O' => Some("NOK") case 'P' => Some("NPR") case 'G' => Some("NGN") case 'A' => Some("NAD") case 'E' => Some("XOF") case 'Z' => Some("NZD") case 'C' => Some("XPF") case 'R' => Some("AUD") case 'U' => Some("NZD") case _ => None })
    case 'O' => (match countryCode[1] { case 'M' => Some("OMR") case _ => None })
    case 'P' => (match countryCode[1] { case 'T' => Some("EUR") case 'L' => Some("PLN") case 'H' => Some("PHP") case 'K' => Some("PKR") case 'S' => Some("ILS") case 'G' => Some("PGK") case 'F' => Some("XPF") case 'W' => Some("USD") case 'E' => Some("PEN") case 'Y' => Some("PYG") case _ => None })
    case 'Q' => (match countryCode[1] { case 'A' => Some("QAR") case _ => None })
    case 'R' => (match countryCode[1] { case 'O' => Some("RON") case 'S' => Some("RSD") case 'U' => Some("RUB") case 'W' => Some("RWF") case _ => None })
    case 'S' => (match countryCode[1] { case 'K' => Some("EUR") case 'I' => Some("EUR") case 'E' => Some("SEK") case 'M' => Some("EUR") case 'G' => Some("SGD") case 'Y' => Some("SYP") case 'A' => Some("SAR") case 'Z' => Some("SZL") case 'C' => Some("SCR") case 'D' => Some("SDG") case 'S' => Some("SSP") case 'O' => Some("SOS") case 'L' => Some("SLL") case 'N' => Some("XOF") case 'T' => Some("STD") case 'B' => Some("SBD") case 'R' => Some("SRD") case _ => None })
    case 'T' => (match countryCode[1] { case 'R' => Some("TRY") case 'J' => Some("RUB") case 'M' => Some("RUB") case 'W' => Some("TWD") case 'H' => Some("THB") case 'N' => Some("TND") case 'Z' => Some("TZS") case 'D' => Some("XAF") case 'G' => Some("XOF") case 'O' => Some("TOP") case 'V' => Some("AUD") case 'K' => Some("NZD") case _ => None })
    case 'U' => (match countryCode[1] { case 'S' => Some("USD") case 'A' => Some("UAH") case 'Z' => Some("UZS") case 'G' => Some("UGX") case 'Y' => Some("UYU") case _ => None })
    case 'V' => (match countryCode[1] { case 'A' => Some("EUR") case 'N' => Some("VND") case 'U' => Some("VUV") case 'E' => Some("VES") case _ => None })
    case 'W' => (match countryCode[1] { case 'F' => Some("XPF") case 'S' => Some("WST") case _ => None })
    case 'X' => (match countryCode[1] { case 'K' => Some("EUR") case _ => None })
    case 'Y' => (match countryCode[1] { case 'E' => Some("SAR") case _ => None })
    case 'Z' => (match countryCode[1] { case 'M' => Some("ZMW") case 'W' => Some("USD") case 'A' => Some("ZAR") case _ => None })
    case _ => None
  }

  /** The `languageMap` table of `getLanguageByCountry`. */
  function LanguageMap(countryCode: string): (language: Option<string>)
  {
    if |countryCode| != 2 then None
    else match countryCode[0]
    case 'A' => (match countryCode[1] { case 'M' => Some("hy") case 'Z' => Some("az") case 'T' => Some("de") case 'D' => Some("ca") case 'L' => Some("sq") case 'R' => Some("es") case 'F' => Some("ps") case 'E' => Some("ar") case 'O' => Some("pt") case 'U' => Some("en") case 'S' => Some("en") case _ => None })
    case 'B' => (match countryCode[1] { case 'Y' => Some("ru") case 'G' => Some("bg") case 'E' => Some("nl") case 'A' => Some("bs") case 'R' => Some("pt-BR") case 'O' => Some("es") case 'N' => Some("en") case 'D' => Some("bn") case 'T' => Some("dz") case 'H' => Some("ar") case 'W' => Some("en") case 'I' => Some("fr") case 'F' => Some("fr") case 'J' => Some("fr") case _ => None })
    case 'C' => (match countryCode[1] { case 'Z' => Some("cs") case 'Y' => Some("el") case 'H' => Some("de") case 'A' => Some("en") case 'L' => Some("es") case 'O' => Some("es") case 'N' => Some("zh") case 'D' => Some("fr") case 'G' => Some("fr") case 'M' => Some("fr") case 'F' => Some("fr") case 'I' => Some("fr") case 'V' => Some("pt") case 'K' => Some("en") case _ => None })
    case 'D' => (match countryCode[1] { case 'E' => Some("de") case 'K' => Some("da") case 'Z' => Some("ar") case 'J' => Some("ar") case _ => None })
    case 'E' => (match countryCode[1] { case 'E' => Some("et") case 'S' => Some("es") case 'C' => Some("es") case 'G' => Some("ar") case 'T' => Some("am") case 'R' => Some("ti") case _ => None })
    case 'F' => (match countryCode[1] { case 'R' => Some("fr") case 'I' => Some("fi") case 'K' => Some("en") case 'J' => Some("en") case 'M' => Some("en") case _ => None })
    case 'G' => (match countryCode[1] { case 'E' => Some("ka") case 'R' => Some("el") case 'B' => Some("en") case 'Y' => Some("en") case 'F' => Some("fr") case 'H' => Some("en") case 'A' => Some("fr") case 'Q' => Some("es") case 'N' => Some("fr") case 'M' => Some("en") case 'W' => Some("pt") case 'U' => Some("en") case _ => None })
    case 'H' => (match countryCode[1] { case 'R' => Some("hr") case 'U' => Some("hu") case 'K' => Some("zh") case _ => None })
    case 'I' => (match countryCode[1] { case 'T' => Some("it") case 'E' => Some("en") case 'S' => Some("is") case 'D' => Some("id") case 'N' => Some("hi") case 'R' => Some("fa") case 'Q' => Some("ar") case 'L' => Some("he") case _ => None })
    case 'J' => (match countryCode[1] { case 'P' => Some("ja") case 'O' => Some("ar") case _ => None })
    case 'K' => (match countryCode[1] { case 'Z' => Some("ru") case 'R' => Some("kr") case 'H' => Some("km") case 'W' => Some("ar") case 'E' => Some("sw") case 'M' => Some("ar") case 'I' => Some("en") case _ => None })
    case 'L' => (match countryCode[1] { case 'V' => Some("lv") case 'T' => Some("lt") case 'I' => Some("de") case 'U' => Some("fr") case 'A' => Some("lo") case 'K' => Some("si") case 'B' => Some("ar") case 'Y' => Some("ar") case 'S' => Some("en") case 'R' => Some("en") case _ => None })
    case 'M' => (match countryCode[1] { case 'D' => Some("ro") case 'T' => Some("mt") case 'C' => Some("fr") case 'K' => Some("mk") case 'E' => Some("sr") case 'X' => Some("es") case 'O' => Some("zh") case 'Y' => Some("en") case 'M' => Some("my") case 'V' => Some("dv") case 'A' => Some("ar") case 'W' => Some("en") case 'U' => Some("en") case 'L' => Some("fr") case 'Z' => Some("pt") case 'G' => Some("fr") case 'H' => Some("en") case 'P' => Some("en") case _ => None })
    case 'N' => (match countryCode[1] { case 'L' => Some("nl") case 'O' => Some("no") case 'P' => Some("ne") case 'G' => Some("en") case 'A' => Some("en") case 'E' => Some("fr") case 'Z' => Some("en") case 'C' => Some("fr") case 'R' => Some("en") case 'U' => Some("en") case _ => None })
    case 'O' => (match countryCode[1] { case 'M' => Some("ar") case _ => None })
    case 'P' => (match countryCode[1] { case 'L' => Some("pl") case 'T' => Some("pt") case 'E' => Some("es") case 'Y' => Some("es") case 'H' => Some("en") case 'K' => Some("ur") case 'S' => Some("ar") case 'G' => Some("en") case 'F' => Some("fr") case 'W' => Some("en") case _ => None })
    case 'Q' => (match countryCode[1] { case 'A' => Some("ar") case _ => None })
    case 'R' => (match countryCode[1] { case 'U' => Some("ru") case 'O' => Some("ro") case 'S' => Some("sr") case 'W' => Some("rw") case _ => None })
    case 'S' => (match countryCode[1] { case 'I' => Some("sl") case 'K' => Some("sk") case 'E' => Some("sv") case 'R' => Some("nl") case 'G' => Some("en") case 'Y' => Some("ar") case 'A' => Some("ar") case 'Z' => Some("en") case 'C' => Some("en") case 'D' => Some("ar") case 'S' => Some("en") case 'O' => Some("so") case 'L' => Some("en") case 'N' => Some("fr") case 'T' => Some("pt") case 'B' => Some("en") case _ => None })
    case 'T' => (match countryCode[1] { case 'R' => Some("tr") case 'W' => Some("zh") case 'H' => Some("th") case 'N' => Some("ar") case 'Z' => Some("sw") case 'D' => Some("ar") case 'G' => Some("fr") case 'O' => Some("en") case 'V' => Some("en") case 'K' => Some("en") case _ => None })
    case 'U' => (match countryCode[1] { case 'A' => Some("uk") case 'Z' => Some("ru") case 'S' => Some("en") case 'Y' => Some("es") case 'G' => Some("en") case _ => None })
    case 'V' => (match countryCode[1] { case 'E' => Some("es") case 'N' => Some("en") case 'U' => Some("en") case _ => None })
    case 'W' => (match countryCode[1] { case 'F' => Some("fr") case 'S' => Some("en") case _ => None })
    case 'X' => (match countryCode[1] { case 'K' => Some("sq") case _ => None })
    case 'Y' => (match countryCode[1] { case 'E' => Some("ar") case _ => None })
    case 'Z' => (match countryCode[1] { case 'M' => Some("en") case 'W' => Some("en") case 'A' => Some("af") case _ => None })
    case _ => None
  }

  /** `getCurrencyByCountry(countryCode)`: the listed currency, otherwise `USD`. */
  function GetCurrencyByCountry(countryCode: string): (currency: string)
    ensures CurrencyMap(countryCode).Some? ==> currency == CurrencyMap(countryCode).value
    ensures CurrencyMap(countryCode).None? ==> currency == "USD"
  {
    OrElse(CurrencyMap(countryCode), "USD")
  }

  /** `getLanguageByCountry(countryCode)`: the listed language, otherwise `en`. */
  function GetLanguageByCountry(countryCode: string): (language: string)
    ensures LanguageMap(countryCode).Some? ==> language == LanguageMap(countryCode).value
    ensures LanguageMap(countryCode).None? ==> language == "en"
  {
    OrElse(LanguageMap(countryCode), "en")
  }

  /** Some rows; Korea is `kr` here (the site middleware says `ko`), and an unlisted code
    * falls back to `USD` and `en`. */
  lemma TableExamples()
    ensures GetLanguageByCountry("KR") == "kr" && GetCurrencyByCountry("KR") == "KRW"
    ensures GetLanguageByCountry("ZZ") == "en" && GetCurrencyByCountry("ZZ") == "USD"
  {
  }

  // ---------------------------------------------------------------------
  // detectUserLocation

  /** The cache record `{data, timestamp}`. */
  datatype CacheEntry = CacheEntry(data: GeolocationData, timestamp: int)

  /** What `localStorage` holds under `turbo_wheel_location_cache`, when it holds
    * something non-empty: a record `JSON.parse` reads back, or text it rejects. */
  datatype StoredCache = Unreadable | Stored(entry: CacheEntry)

  /** The fields of a lookup service's reply that the code reads; `country` is
    * `country_name` in the first service's reply and `country` in the second's. */
  datatype LookupReply = LookupReply(country: Option<string>, countryCode: Option<string>,
                                     currency: Option<string>, timezone: Option<string>)

  /** A cached record younger than a day is used. */
  predicate Fresh(cache: Option<StoredCache>, now: int) {
    cache.Some? && cache.value.Stored? && now - cache.value.entry.timestamp < CacheDuration
  }

  /** A reply that names a country code is used. */
  predicate Usable(reply: Option<LookupReply>) {
    reply.Some? && Truthy(reply.value.countryCode)
  }

  /** The location built from a usable reply; the second service's currency is ignored. */
  function FromReply(reply: LookupReply, useCurrency: bool): (location: GeolocationData)
    requires Truthy(reply.countryCode)
    ensures location.countryCode == reply.countryCode.value
    ensures location.language == GetLanguageByCountry(location.countryCode)
    ensures useCurrency && Truthy(reply.currency) ==> location.currency == reply.currency.value
    ensures !(useCurrency && Truthy(reply.currency)) ==> location.currency == GetCurrencyByCountry(location.countryCode)
  {
    var code := reply.countryCode.value;
    GeolocationData(
      OrElse(reply.country, FallbackData.country),
      code,
      if useCurrency then OrElse(reply.currency, GetCurrencyByCountry(code)) else GetCurrencyByCountry(code),
      GetLanguageByCountry(code),
      OrElse(reply.timezone, FallbackData.timezone))
  }

  /** The languages the browser-language fallback accepts. */
  const BrowserLanguages: seq<string> := ["en", "ru", "es", "fr", "de", "tr", "ar", "ja", "zh", "pt"]

  /** `FALLBACK_DATA` with the base of `navigator.language` if it is listed, else `en`. */
  function BrowserFallback(browserLanguage: string): (location: GeolocationData)
    ensures location == FallbackData.(language := location.language)
    ensures location.language in BrowserLanguages
    ensures BeforeFirst(browserLanguage, '-') in BrowserLanguages
            ==> location.language == BeforeFirst(browserLanguage, '-')
  {
    var base := BeforeFirst(browserLanguage, '-');
    FallbackData.(language := if base in BrowserLanguages then base else "en")
  }

  /** The location resolved when the cache is not used: the first service, the second,
    * then the browser fallback. */
  function Resolved(ipapi: Option<LookupReply>, geojs: Option<LookupReply>, browserLanguage: string): GeolocationData {
    if Usable(ipapi) then FromReply(ipapi.value, true)
    else if Usable(geojs) then FromReply(geojs.value, false)
    else BrowserFallback(browserLanguage)
  }

  /** `convertCurrency(amount, from, to)`; `converted` is what the exchange lookup yields
    * (`None` when it fails or has no rate). Equal currencies skip the lookup. */
  function ConvertCurrency(amount: real, fromCurrency: string, toCurrency: string, converted: Option<real>): (r: real)
    ensures fromCurrency == toCurrency ==> r == amount
    ensures fromCurrency != toCurrency && converted.None? ==> r == amount
  {
    if fromCurrency == toCurrency then amount
    else converted.GetOr(amount)
  }

  /** The browser's storage slot for the location cache. */
  class LocationCache {
    var cache: Option<StoredCache>

    constructor(initial: Option<StoredCache>)
      ensures cache == initial
    {
      cache := initial;
    }

    /** `detectUserLocation()` at time `now`; `ipapi` and `geojs` are the two services'
      * replies (`None` when the request fails), `browserLanguage` is `navigator.language`. */
    method DetectUserLocation(now: int, ipapi: Option<LookupReply>, geojs: Option<LookupReply>,
                              browserLanguage: string) returns (location: GeolocationData)
      modifies this
      ensures Fresh(old(cache), now) ==> location == old(cache).value.entry.data && cache == old(cache)
      ensures !Fresh(old(cache), now) ==> location == Resolved(ipapi, geojs, browserLanguage)
      ensures !Fresh(old(cache), now) ==> cache == Some(Stored(CacheEntry(location, now)))
    {
      var cached := cache;
      if cached.Some? {
        match cached.value
        case Stored(entry) =>
          if now - entry.timestamp < CacheDuration {
            return entry.data;
          }
        case Unreadable =>
      }

      if ipapi.Some? && Truthy(ipapi.value.countryCode) {
        location := FromReply(ipapi.value, true);
        cache := Some(Stored(CacheEntry(location, now)));
        return;
      }

      if geojs.Some? && Truthy(geojs.value.countryCode) {
        location := FromReply(geojs.value, false);
        cache := Some(Stored(CacheEntry(location, now)));
        return;
      }

      location := BrowserFallback(browserLanguage);
      cache := Some(Stored(CacheEntry(location, now)));
    }
  }

  /** A stored location is reused for less than a day after it was written and replaced
    * from then on. */
  lemma CacheLastsADay(data: GeolocationData, written: int, now: int)
    ensures Fresh(Some(Stored(CacheEntry(data, written))), now) <==> now < written + 86400000
    ensures !Fresh(Some(Unreadable), now) && !Fresh(None, now)
  {
  }

  /** Whatever was resolved, the language is one a table or the fallback list names. */
  lemma ResolvedLanguage(ipapi: Option<LookupReply>, geojs: Option<LookupReply>, browserLanguage: string)
    ensures var location := Resolved(ipapi, geojs, browserLanguage);
            (Usable(ipapi) || Usable(geojs))
            ==> location.language == GetLanguageByCountry(location.countryCode)
    ensures !Usable(ipapi) && !Usable(geojs)
            ==> Resolved(ipapi, geojs, browserLanguage).language in BrowserLanguages
  {
  }

  /** A browser set to `ru-RU` gets Russian from the fallback, one set to `it-IT` English. */
  lemma BrowserFallbackExamples()
    ensures BrowserFallback("ru-RU").language == "ru"
    ensures BrowserFallback("it-IT").language == "en"
  {
    BeforeFirstUpTo("ru", '-', "RU");
    assert "ru" + ['-'] + "RU" == "ru-RU";
    BeforeFirstUpTo("it", '-', "IT");
    assert "it" + ['-'] + "IT" == "it-IT";
  }
}
