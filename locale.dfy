/** The locale context: the chosen currency and language, which only ever take codes the
    tables list, the country a detection found, the currency symbol and the interface
    strings. */
module Locale {
  import opened Wrappers
  import Translations

  /** A row of the currency table. */
  datatype CurrencyInfo = Currency(code: string, symbol: string, name: string, locale: string)

  /** A row of the language table. */
  datatype LanguageInfo = Language(code: string, name: string, nativeName: string)

  /** `CURRENCIES[code]` for the own keys of the table. */
  function CurrencyRow(code: string): (r: Option<CurrencyInfo>)
    ensures r.Some? ==> r.value.code == code && r.value.symbol != ""
  {
    match code
    case "USD" => Some(Currency("USD", "$", "US Dollar", "en-US"))
    case "EUR" => Some(Currency("EUR", "\U{20AC}", "Euro", "de-DE"))
    case "GBP" => Some(Currency("GBP", "\U{00A3}", "British Pound", "en-GB"))
    case "JPY" => Some(Currency("JPY", "\U{00A5}", "Japanese Yen", "ja-JP"))
    case "AUD" => Some(Currency("AUD", "A$", "Australian Dollar", "en-AU"))
    case "CAD" => Some(Currency("CAD", "C$", "Canadian Dollar", "en-CA"))
    case "CHF" => Some(Currency("CHF", "Fr", "Swiss Franc", "de-CH"))
    case "CNY" => Some(Currency("CNY", "\U{00A5}", "Chinese Yuan", "zh-CN"))
    case "INR" => Some(Currency("INR", "\U{20B9}", "Indian Rupee", "hi-IN"))
    case "MXN" => Some(Currency("MXN", "$", "Mexican Peso", "es-MX"))
    case "BRL" => Some(Currency("BRL", "R$", "Brazilian Real", "pt-BR"))
    case "KRW" => Some(Currency("KRW", "\U{20A9}", "South Korean Won", "ko-KR"))
    case "RUB" => Some(Currency("RUB", "\U{20BD}", "Russian Ruble", "ru-RU"))
    case "ZAR" => Some(Currency("ZAR", "R", "South African Rand", "en-ZA"))
    case "SGD" => Some(Currency("SGD", "S$", "Singapore Dollar", "en-SG"))
    case "HKD" => Some(Currency("HKD", "HK$", "Hong Kong Dollar", "zh-HK"))
    case "NOK" => Some(Currency("NOK", "kr", "Norwegian Krone", "nb-NO"))
    case "SEK" => Some(Currency("SEK", "kr", "Swedish Krona", "sv-SE"))
    case "DKK" => Some(Currency("DKK", "kr", "Danish Krone", "da-DK"))
    case "NZD" => Some(Currency("NZD", "NZ$", "New Zealand Dollar", "en-NZ"))
    case "PLN" => Some(Currency("PLN", "z\U{0142}", "Polish Zloty", "pl-PL"))
    case "TRY" => Some(Currency("TRY", "\U{20BA}", "Turkish Lira", "tr-TR"))
    case "THB" => Some(Currency("THB", "\U{0E3F}", "Thai Baht", "th-TH"))
    case "IDR" => Some(Currency("IDR", "Rp", "Indonesian Rupiah", "id-ID"))
    case "MYR" => Some(Currency("MYR", "RM", "Malaysian Ringgit", "ms-MY"))
    case "PHP" => Some(Currency("PHP", "\U{20B1}", "Philippine Peso", "fil-PH"))
    case "VND" => Some(Currency("VND", "\U{20AB}", "Vietnamese Dong", "vi-VN"))
    case "AED" => Some(Currency("AED", "\U{062F}.\U{0625}", "UAE Dirham", "ar-AE"))
    case "SAR" => Some(Currency("SAR", "\U{FDFC}", "Saudi Riyal", "ar-SA"))
    case "ILS" => Some(Currency("ILS", "\U{20AA}", "Israeli Shekel", "he-IL"))
    case "EGP" => Some(Currency("EGP", "\U{00A3}", "Egyptian Pound", "ar-EG"))
    case "NGN" => Some(Currency("NGN", "\U{20A6}", "Nigerian Naira", "en-NG"))
    case "KES" => Some(Currency("KES", "KSh", "Kenyan Shilling", "sw-KE"))
    case "CLP" => Some(Currency("CLP", "$", "Chilean Peso", "es-CL"))
    case "COP" => Some(Currency("COP", "$", "Colombian Peso", "es-CO"))
    case "ARS" => Some(Currency("ARS", "$", "Argentine Peso", "es-AR"))
    case "PEN" => Some(Currency("PEN", "S/", "Peruvian Sol", "es-PE"))
    case "PKR" => Some(Currency("PKR", "\U{20A8}", "Pakistani Rupee", "ur-PK"))
    case "BDT" => Some(Currency("BDT", "\U{09F3}", "Bangladeshi Taka", "bn-BD"))
    case "UAH" => Some(Currency("UAH", "\U{20B4}", "Ukrainian Hryvnia", "uk-UA"))
    case "CZK" => Some(Currency("CZK", "K\U{010D}", "Czech Koruna", "cs-CZ"))
    case "HUF" => Some(Currency("HUF", "Ft", "Hungarian Forint", "hu-HU"))
    case "RON" => Some(Currency("RON", "lei", "Romanian Leu", "ro-RO"))
    case _ => None
  }

  /** `LANGUAGES[code]` for the own keys of the table. */
  function LanguageRow(code: string): (r: Option<LanguageInfo>)
    ensures r.Some? ==> r.value.code == code
  {
    match code
    case "en" => Some(Language("en", "English", "English"))
    case "es" => Some(Language("es", "Spanish", "Espa\U{00F1}ol"))
    case "fr" => Some(Language("fr", "French", "Fran\U{00E7}ais"))
    case "de" => Some(Language("de", "German", "Deutsch"))
    case "it" => Some(Language("it", "Italian", "Italiano"))
    case "pt" => Some(Language("pt", "Portuguese", "Portugu\U{00EA}s"))
    case "nl" => Some(Language("nl", "Dutch", "Nederlands"))
    case "pl" => Some(Language("pl", "Polish", "Polski"))
    case "ru" => Some(Language("ru", "Russian", "\U{0420}\U{0443}\U{0441}\U{0441}\U{043A}\U{0438}\U{0439}"))
    case "ja" => Some(Language("ja", "Japanese", "\U{65E5}\U{672C}\U{8A9E}"))
    case "ko" => Some(Language("ko", "Korean", "\U{D55C}\U{AD6D}\U{C5B4}"))
    case "zh" => Some(Language("zh", "Chinese", "\U{4E2D}\U{6587}"))
    case "ar" => Some(Language("ar", "Arabic", "\U{0627}\U{0644}\U{0639}\U{0631}\U{0628}\U{064A}\U{0629}"))
    case "hi" => Some(Language("hi", "Hindi", "\U{0939}\U{093F}\U{0928}\U{094D}\U{0926}\U{0940}"))
    case "tr" => Some(Language("tr", "Turkish", "T\U{00FC}rk\U{00E7}e"))
    case "th" => Some(Language("th", "Thai", "\U{0E44}\U{0E17}\U{0E22}"))
    case "vi" => Some(Language("vi", "Vietnamese", "Ti\U{1EBF}ng Vi\U{1EC7}t"))
    case "id" => Some(Language("id", "Indonesian", "Bahasa Indonesia"))
    case "ms" => Some(Language("ms", "Malay", "Bahasa Melayu"))
    case "sv" => Some(Language("sv", "Swedish", "Svenska"))
    case "no" => Some(Language("no", "Norwegian", "Norsk"))
    case "da" => Some(Language("da", "Danish", "Dansk"))
    case "fi" => Some(Language("fi", "Finnish", "Suomi"))
    case "cs" => Some(Language("cs", "Czech", "\U{010C}e\U{0161}tina"))
    case "uk" => Some(Language("uk", "Ukrainian", "\U{0423}\U{043A}\U{0440}\U{0430}\U{0457}\U{043D}\U{0441}\U{044C}\U{043A}\U{0430}"))
    case "he" => Some(Language("he", "Hebrew", "\U{05E2}\U{05D1}\U{05E8}\U{05D9}\U{05EA}"))
    case "el" => Some(Language("el", "Greek", "\U{0395}\U{03BB}\U{03BB}\U{03B7}\U{03BD}\U{03B9}\U{03BA}\U{03AC}"))
    case "ro" => Some(Language("ro", "Romanian", "Rom\U{00E2}n\U{0103}"))
    case "hu" => Some(Language("hu", "Hungarian", "Magyar"))
    case "bg" => Some(Language("bg", "Bulgarian", "\U{0411}\U{044A}\U{043B}\U{0433}\U{0430}\U{0440}\U{0441}\U{043A}\U{0438}"))
    case _ => None
  }

  /** `COUNTRY_TO_CURRENCY[country]`. */
  function CountryCurrency(country: string): (r: Option<string>)
    ensures r.Some? ==> CurrencyRow(r.value).Some?
  {
    match country
    case "US" => Some("USD")
    case "GB" => Some("GBP")
    case "DE" => Some("EUR")
    case "FR" => Some("EUR")
    case "IT" => Some("EUR")
    case "ES" => Some("EUR")
    case "NL" => Some("EUR")
    case "BE" => Some("EUR")
    case "AT" => Some("EUR")
    case "IE" => Some("EUR")
    case "PT" => Some("EUR")
    case "GR" => Some("EUR")
    case "FI" => Some("EUR")
    case "SK" => Some("EUR")
    case "SI" => Some("EUR")
    case "EE" => Some("EUR")
    case "LV" => Some("EUR")
    case "LT" => Some("EUR")
    case "CY" => Some("EUR")
    case "MT" => Some("EUR")
    case "LU" => Some("EUR")
    case "JP" => Some("JPY")
    case "AU" => Some("AUD")
    case "CA" => Some("CAD")
    case "CH" => Some("CHF")
    case "CN" => Some("CNY")
    case "IN" => Some("INR")
    case "MX" => Some("MXN")
    case "BR" => Some("BRL")
    case "KR" => Some("KRW")
    case "RU" => Some("RUB")
    case "ZA" => Some("ZAR")
    case "SG" => Some("SGD")
    case "HK" => Some("HKD")
    case "NO" => Some("NOK")
    case "SE" => Some("SEK")
    case "DK" => Some("DKK")
    case "NZ" => Some("NZD")
    case "PL" => Some("PLN")
    case "TR" => Some("TRY")
    case "TH" => Some("THB")
    case "ID" => Some("IDR")
    case "MY" => Some("MYR")
    case "PH" => Some("PHP")
    case "VN" => Some("VND")
    case "AE" => Some("AED")
    case "SA" => Some("SAR")
    case "IL" => Some("ILS")
    case "EG" => Some("EGP")
    case "NG" => Some("NGN")
    case "KE" => Some("KES")
    case "CL" => Some("CLP")
    case "CO" => Some("COP")
    case "AR" => Some("ARS")
    case "PE" => Some("PEN")
    case "PK" => Some("PKR")
    case "BD" => Some("BDT")
    case "UA" => Some("UAH")
    case "CZ" => Some("CZK")
    case "HU" => Some("HUF")
    case "RO" => Some("RON")
    case _ => None
  }

  /** `COUNTRY_TO_LANGUAGE[country]`. */
  function CountryLanguage(country: string): (r: Option<string>)
    ensures r.Some? ==> LanguageRow(r.value).Some?
  {
    match country
    case "US" => Some("en")
    case "GB" => Some("en")
    case "AU" => Some("en")
    case "CA" => Some("en")
    case "NZ" => Some("en")
    case "IE" => Some("en")
    case "ZA" => Some("en")
    case "SG" => Some("en")
    case "DE" => Some("de")
    case "AT" => Some("de")
    case "CH" => Some("de")
    case "FR" => Some("fr")
    case "BE" => Some("fr")
    case "IT" => Some("it")
    case "ES" => Some("es")
    case "MX" => Some("es")
    case "AR" => Some("es")
    case "CL" => Some("es")
    case "CO" => Some("es")
    case "PE" => Some("es")
    case "PT" => Some("pt")
    case "BR" => Some("pt")
    case "NL" => Some("nl")
    case "PL" => Some("pl")
    case "RU" => Some("ru")
    case "JP" => Some("ja")
    case "KR" => Some("ko")
    case "CN" => Some("zh")
    case "HK" => Some("zh")
    case "TW" => Some("zh")
    case "IN" => Some("hi")
    case "SA" => Some("ar")
    case "AE" => Some("ar")
    case "EG" => Some("ar")
    case "TR" => Some("tr")
    case "TH" => Some("th")
    case "VN" => Some("vi")
    case "ID" => Some("id")
    case "MY" => Some("ms")
    case "SE" => Some("sv")
    case "NO" => Some("no")
    case "DK" => Some("da")
    case "FI" => Some("fi")
    case "CZ" => Some("cs")
    case "UA" => Some("uk")
    case "IL" => Some("he")
    case "GR" => Some("el")
    case "RO" => Some("ro")
    case "HU" => Some("hu")
    case "BG" => Some("bg")
    case _ => None
  }

  /** `getCountryFromTimezone`: the country of a listed time zone, `None` (`null`) for any
      other. */
  function CountryFromTimezone(timeZone: string): (r: Option<string>)
    ensures r.Some? ==> |r.value| == 2
  {
    match timeZone
    case "America/New_York" => Some("US")
    case "America/Chicago" => Some("US")
    case "America/Los_Angeles" => Some("US")
    case "America/Denver" => Some("US")
    case "America/Phoenix" => Some("US")
    case "Pacific/Honolulu" => Some("US")
    case "Europe/London" => Some("GB")
    case "Europe/Paris" => Some("FR")
    case "Europe/Berlin" => Some("DE")
    case "Europe/Rome" => Some("IT")
    case "Europe/Madrid" => Some("ES")
    case "Europe/Amsterdam" => Some("NL")
    case "Europe/Brussels" => Some("BE")
    case "Europe/Vienna" => Some("AT")
    case "Europe/Dublin" => Some("IE")
    case "Europe/Lisbon" => Some("PT")
    case "Europe/Athens" => Some("GR")
    case "Europe/Helsinki" => Some("FI")
    case "Europe/Stockholm" => Some("SE")
    case "Europe/Oslo" => Some("NO")
    case "Europe/Copenhagen" => Some("DK")
    case "Europe/Warsaw" => Some("PL")
    case "Europe/Prague" => Some("CZ")
    case "Europe/Budapest" => Some("HU")
    case "Europe/Bucharest" => Some("RO")
    case "Europe/Sofia" => Some("BG")
    case "Europe/Kiev" => Some("UA")
    case "Europe/Moscow" => Some("RU")
    case "Europe/Istanbul" => Some("TR")
    case "Europe/Zurich" => Some("CH")
    case "Asia/Tokyo" => Some("JP")
    case "Asia/Seoul" => Some("KR")
    case "Asia/Shanghai" => Some("CN")
    case "Asia/Hong_Kong" => Some("HK")
    case "Asia/Singapore" => Some("SG")
    case "Asia/Bangkok" => Some("TH")
    case "Asia/Jakarta" => Some("ID")
    case "Asia/Kuala_Lumpur" => Some("MY")
    case "Asia/Manila" => Some("PH")
    case "Asia/Ho_Chi_Minh" => Some("VN")
    case "Asia/Kolkata" => Some("IN")
    case "Asia/Dubai" => Some("AE")
    case "Asia/Riyadh" => Some("SA")
    case "Asia/Jerusalem" => Some("IL")
    case "Asia/Karachi" => Some("PK")
    case "Asia/Dhaka" => Some("BD")
    case "Africa/Cairo" => Some("EG")
    case "Africa/Lagos" => Some("NG")
    case "Africa/Nairobi" => Some("KE")
    case "Africa/Johannesburg" => Some("ZA")
    case "Australia/Sydney" => Some("AU")
    case "Australia/Melbourne" => Some("AU")
    case "Australia/Brisbane" => Some("AU")
    case "Australia/Perth" => Some("AU")
    case "Pacific/Auckland" => Some("NZ")
    case "America/Toronto" => Some("CA")
    case "America/Vancouver" => Some("CA")
    case "America/Montreal" => Some("CA")
    case "America/Mexico_City" => Some("MX")
    case "America/Sao_Paulo" => Some("BR")
    case "America/Buenos_Aires" => Some("AR")
    case "America/Santiago" => Some("CL")
    case "America/Bogota" => Some("CO")
    case "America/Lima" => Some("PE")
    case _ => None
  }
  predicate KnownCurrency(code: string) {
    CurrencyRow(code).Some?
  }

  predicate KnownLanguage(code: string) {
    LanguageRow(code).Some?
  }

  // ---------------------------------------------------------------------------------
  // The state

  /** The part of the context a user sees: currency, language and the detected country
      (`None` for `null`). */
  datatype Settings = Settings(currency: string, language: string, detectedCountry: Option<string>)

  /** Both codes are listed in their tables. */
  predicate Supported(s: Settings) {
    KnownCurrency(s.currency) && KnownLanguage(s.language)
  }

  /** The state before anything is loaded or detected. */
  const INITIAL: Settings := Settings("GBP", "en", None)

  /** `setCurrency(code)`: a listed code is taken, any other leaves the state as it was. */
  function WithCurrency(s: Settings, code: string): (r: Settings)
    ensures Supported(s) ==> Supported(r)
    ensures r.language == s.language && r.detectedCountry == s.detectedCountry
    ensures KnownCurrency(code) ==> r.currency == code
    ensures !KnownCurrency(code) ==> r == s
  {
    if KnownCurrency(code) then s.(currency := code) else s
  }

  /** `setLanguage(code)`, likewise. */
  function WithLanguage(s: Settings, code: string): (r: Settings)
    ensures Supported(s) ==> Supported(r)
    ensures r.currency == s.currency && r.detectedCountry == s.detectedCountry
    ensures KnownLanguage(code) ==> r.language == code
    ensures !KnownLanguage(code) ==> r == s
  {
    if KnownLanguage(code) then s.(language := code) else s
  }

  /** The saved record as `JSON.parse` returns it, or `Unreadable` when parsing throws.
      Absent fields and `null` are `None`. */
  datatype StoredLocale =
    | Unreadable
    | Stored(currency: Option<string>, language: Option<string>, detectedCountry: Option<string>)

  /** A JavaScript value that is a non-empty string is truthy. */
  predicate Truthy(v: Option<string>) {
    v.Some? && v.value != ""
  }

  /** The load effect: a listed currency and a listed language are adopted, a non-empty
      detected country is adopted as it is, and an unreadable record changes nothing. */
  function Loaded(s: Settings, stored: StoredLocale): (r: Settings)
    ensures Supported(s) ==> Supported(r)
    ensures stored.Unreadable? ==> r == s
    ensures stored.Stored? ==>
              && r.detectedCountry == (if Truthy(stored.detectedCountry) then stored.detectedCountry
                                       else s.detectedCountry)
              && (Truthy(stored.currency) && KnownCurrency(stored.currency.value)
                  ==> r.currency == stored.currency.value)
              && (Truthy(stored.language) && KnownLanguage(stored.language.value)
                  ==> r.language == stored.language.value)
    ensures (stored.Stored? && !(Truthy(stored.currency) && KnownCurrency(stored.currency.value)))
                ==> r.currency == s.currency
    ensures (stored.Stored? && !(Truthy(stored.language) && KnownLanguage(stored.language.value)))
                ==> r.language == s.language
  {
    match stored
    case Unreadable => s
    case Stored(currency, language, country) =>
      var withCurrency := if Truthy(currency) then WithCurrency(s, currency.value) else s;
      var withLanguage :=
        if Truthy(language) then WithLanguage(withCurrency, language.value) else withCurrency;
      if Truthy(country) then withLanguage.(detectedCountry := country) else withLanguage
  }

  /** `navigator.language.split("-")[0]`: the text before the first dash. */
  function BeforeDash(tag: string): (r: string)
    ensures |r| <= |tag| && r == tag[..|r|]
    ensures '-' !in r
    ensures |r| < |tag| ==> tag[|r|] == '-'
  {
    if tag == [] || tag[0] == '-' then [] else [tag[0]] + BeforeDash(tag[1..])
  }

  /** The currency step of a detection: the country's currency, when the country table
      names one and the currency table lists it. */
  function WithCountryCurrency(s: Settings, country: string): (r: Settings)
    ensures Supported(s) ==> Supported(r)
    ensures r.language == s.language && r.detectedCountry == s.detectedCountry
    ensures CountryCurrency(country).Some? ==> r.currency == CountryCurrency(country).value
    ensures CountryCurrency(country).None? ==> r == s
  {
    match CountryCurrency(country)
    case None => s
    case Some(code) => WithCurrency(s, code)
  }

  /** The language step of a located detection, likewise. */
  function WithCountryLanguage(s: Settings, country: string): (r: Settings)
    ensures Supported(s) ==> Supported(r)
    ensures r.currency == s.currency && r.detectedCountry == s.detectedCountry
    ensures CountryLanguage(country).Some? ==> r.language == CountryLanguage(country).value
    ensures CountryLanguage(country).None? ==> r == s
  {
    match CountryLanguage(country)
    case None => s
    case Some(code) => WithLanguage(s, code)
  }

  /** How the location lookup of `autoDetectLocale` ended. */
  datatype Detection =
    | Located(countryCode: string)                            // the service answered
    | Declined                                               // the response was not ok
    | Unreachable(browserLanguage: string, timeZone: string)  // the request threw

  /** The settings after a detection: a located country sets the country, then its
      currency and language; a failed request falls back to the browser's language and
      the country and currency of the time zone. */
  function Detected(s: Settings, d: Detection): (r: Settings)
    ensures Supported(s) ==> Supported(r)
    ensures d.Declined? || (d.Located? && d.countryCode == "") ==> r == s
    ensures d.Located? && d.countryCode != "" ==>
              var country := d.countryCode;
              && r.detectedCountry == Some(country)
              && r.currency == (if CountryCurrency(country).Some? then CountryCurrency(country).value
                                else s.currency)
              && r.language == (if CountryLanguage(country).Some? then CountryLanguage(country).value
                                else s.language)
    ensures d.Unreachable? ==>
              var spoken := BeforeDash(d.browserLanguage);
              var zone := CountryFromTimezone(d.timeZone);
              && r.language == (if KnownLanguage(spoken) then spoken else s.language)
              && r.detectedCountry == (if zone.Some? then zone else s.detectedCountry)
              && r.currency == (if zone.Some? && CountryCurrency(zone.value).Some?
                                then CountryCurrency(zone.value).value else s.currency)
  {
    match d
    case Located(country) =>
      if country == "" then s
      else
        WithCountryLanguage(WithCountryCurrency(s.(detectedCountry := Some(country)), country),
                            country)
    case Declined => s
    case Unreachable(tag, zone) =>
      var spoken := WithLanguage(s, BeforeDash(tag));
      match CountryFromTimezone(zone)
      case None => spoken
      case Some(country) => WithCountryCurrency(spoken.(detectedCountry := Some(country)), country)
  }

  /** `currencySymbol`: the table's symbol, or "£" when the currency has no row or an
      empty symbol. */
  function SymbolOf(currency: string): (r: string)
    ensures CurrencyRow(currency).Some? && CurrencyRow(currency).value.symbol != "" ==>
              r == CurrencyRow(currency).value.symbol
    ensures CurrencyRow(currency).None? ==> r == "\U{00A3}"
  {
    match CurrencyRow(currency)
    case Some(row) => if row.symbol != "" then row.symbol else "\U{00A3}"
    case None => "\U{00A3}"
  }

  /** The locale provider's state. */
  class LocaleState {
    var currency: string
    var language: string
    var detectedCountry: Option<string>

    function Current(): Settings
      reads this
    {
      Settings(currency, language, detectedCountry)
    }

    predicate Valid()
      reads this
    {
      Supported(Current())
    }

    /** GBP and English, no country. */
    constructor()
      ensures Current() == INITIAL && Valid()
    {
      currency, language, detectedCountry := "GBP", "en", None;
    }

    method SetCurrency(code: string)
      requires Valid()
      modifies this
      ensures Valid() && Current() == WithCurrency(old(Current()), code)
    {
      if CurrencyRow(code).Some? {
        currency := code;
      }
    }

    method SetLanguage(code: string)
      requires Valid()
      modifies this
      ensures Valid() && Current() == WithLanguage(old(Current()), code)
    {
      if LanguageRow(code).Some? {
        language := code;
      }
    }

    /** The load effect, for a saved record. */
    method LoadSaved(stored: StoredLocale)
      requires Valid()
      modifies this
      ensures Valid() && Current() == Loaded(old(Current()), stored)
    {
      match stored
      case Unreadable =>
      case Stored(savedCurrency, savedLanguage, savedCountry) =>
        if savedCurrency.Some? && savedCurrency.value != "" && CurrencyRow(savedCurrency.value).Some? {
          currency := savedCurrency.value;
        }
        if savedLanguage.Some? && savedLanguage.value != "" && LanguageRow(savedLanguage.value).Some? {
          language := savedLanguage.value;
        }
        if savedCountry.Some? && savedCountry.value != "" {
          detectedCountry := savedCountry;
        }
    }

    /** The synchronous part of `autoDetectLocale`, once the lookup has ended. */
    method ApplyDetection(d: Detection)
      requires Valid()
      modifies this
      ensures Valid() && Current() == Detected(old(Current()), d)
    {
      match d
      case Located(country) =>
        if country != "" {
          detectedCountry := Some(country);
          var detectedCurrency := CountryCurrency(country);
          if detectedCurrency.Some? && CurrencyRow(detectedCurrency.value).Some? {
            currency := detectedCurrency.value;
          }
          var detectedLanguage := CountryLanguage(country);
          if detectedLanguage.Some? && LanguageRow(detectedLanguage.value).Some? {
            language := detectedLanguage.value;
          }
        }
      case Declined =>
      case Unreachable(tag, zone) =>
        var browserLanguage := BeforeDash(tag);
        if LanguageRow(browserLanguage).Some? {
          language := browserLanguage;
        }
        var zoneCountry := CountryFromTimezone(zone);
        if zoneCountry.Some? {
          detectedCountry := zoneCountry;
          var detectedCurrency := CountryCurrency(zoneCountry.value);
          if detectedCurrency.Some? && CurrencyRow(detectedCurrency.value).Some? {
            currency := detectedCurrency.value;
          }
        }
    }

    /** `currencySymbol`: while the state is valid, the symbol of the current row. */
    function Symbol(): (r: string)
      reads this
      requires Valid()
      ensures r == CurrencyRow(currency).value.symbol
    {
      SymbolsNonEmpty(currency);
      SymbolOf(currency)
    }

    /** `t(key)`. */
    function T(key: Translations.TranslationKey): (r: string)
      reads this
      ensures r != []
      ensures Translations.TableText(language, key).Some? ==>
                r == Translations.TableText(language, key).value
      ensures Translations.TableText(language, key).None? ==> r == Translations.EnglishText(key)
    {
      Translations.Translate(language, key)
    }
  }

  // ---------------------------------------------------------------------------------
  // Properties of the tables and the detection

  /** Every currency symbol is non-empty, so the "£" fallback is only taken for a code the
      table does not list. */
  lemma SymbolsNonEmpty(code: string)
    requires KnownCurrency(code)
    ensures CurrencyRow(code).value.symbol != ""
  {
  }

  /** Every currency and language the country tables name is listed, so for a listed
      country the second guard of the detection always passes. */
  lemma CountryTablesListed(country: string)
    ensures CountryCurrency(country).Some? ==> KnownCurrency(CountryCurrency(country).value)
    ensures CountryLanguage(country).Some? ==> KnownLanguage(CountryLanguage(country).value)
  {
  }

  /** Every language with its own interface strings is a listed language; the other
      listed languages are shown in English. */
  lemma TranslatedLanguagesListed(language: string, key: Translations.TranslationKey)
    ensures Translations.TableText(language, key).Some? ==> KnownLanguage(language)
    ensures language !in {"en", "es", "fr", "de", "pt"} ==>
              Translations.Translate(language, key) == Translations.EnglishText(key)
  {
  }

  /** A German address gives euros and German. */
  lemma DetectGermany()
    ensures Detected(INITIAL, Located("DE")) == Settings("EUR", "de", Some("DE"))
  {
  }

  /** A Taiwanese address gives Chinese but keeps the pound: the currency table has no
      entry for Taiwan. */
  lemma DetectTaiwan()
    ensures Detected(INITIAL, Located("TW")) == Settings("GBP", "zh", Some("TW"))
  {
  }

  /** Without the service, a Bulgarian browser in Sofia gives Bulgarian and the country
      but keeps the pound: Bulgaria has no currency entry. */
  lemma FallbackSofia()
    ensures Detected(INITIAL, Unreachable("bg-BG", "Europe/Sofia"))
            == Settings("GBP", "bg", Some("BG"))
  {
    assert BeforeDash("bg-BG") == "bg" by {
      assert "bg-BG"[1..] == "g-BG";
      assert "g-BG"[1..] == "-BG";
    }
    SofiaIsBulgaria();
    assert KnownLanguage("bg");
  }

  /** Sofia is in Bulgaria, for which the currency table has no entry. */
  lemma SofiaIsBulgaria()
    ensures CountryFromTimezone("Europe/Sofia") == Some("BG")
    ensures CountryCurrency("BG") == None
  {
  }

  /** Listed zones give their country; any other zone gives `null`. */
  lemma TimezoneExamples()
    ensures CountryFromTimezone("Europe/London") == Some("GB")
    ensures CountryFromTimezone("Asia/Kolkata") == Some("IN")
    ensures CountryFromTimezone("Europe/Kyiv") == None
  {
  }

  // ---------------------------------------------------------------------------------
  // The lookup guard as written

  /** The names a plain object literal inherits from `Object.prototype`; looking one of
      them up in a table gives a function or an object, which is truthy. */
  const OBJECT_PROTOTYPE_NAMES: set<string> := {
    "constructor", "__proto__", "hasOwnProperty", "isPrototypeOf", "propertyIsEnumerable",
    "toLocaleString", "toString", "valueOf", "__defineGetter__", "__defineSetter__",
    "__lookupGetter__", "__lookupSetter__"
  }

  /** `if (CURRENCIES[code])`: true for the table's own keys and for the inherited names. */
  predicate CurrencyLookupTruthy(code: string) {
    KnownCurrency(code) || code in OBJECT_PROTOTYPE_NAMES
  }

  /** `setCurrency(code)` with the guard as written. */
  function WithCurrencyAsWritten(s: Settings, code: string): (r: Settings)
    ensures CurrencyLookupTruthy(code) ==> r.currency == code
    ensures !CurrencyLookupTruthy(code) ==> r == s
  {
    if CurrencyLookupTruthy(code) then s.(currency := code) else s
  }

  /** The guard as written lets `setCurrency("constructor")` through, after which the
      currency is no code of the table. */
  lemma AsWrittenGuardAdmitsConstructor()
    ensures Supported(INITIAL)
    ensures !Supported(WithCurrencyAsWritten(INITIAL, "constructor"))
  {
  }

  /** The own-key guard agrees with the guard as written on every code other than the
      inherited names. */
  lemma GuardsAgree(s: Settings, code: string)
    requires code !in OBJECT_PROTOTYPE_NAMES
    ensures WithCurrency(s, code) == WithCurrencyAsWritten(s, code)
  {
  }

  /** `if (LANGUAGES[code])`, likewise. */
  predicate LanguageLookupTruthy(code: string) {
    KnownLanguage(code) || code in OBJECT_PROTOTYPE_NAMES
  }

  /** `setLanguage(code)` with the guard as written; the fallback of a detection applies
      the same guard to the browser's language. */
  function WithLanguageAsWritten(s: Settings, code: string): (r: Settings)
    ensures LanguageLookupTruthy(code) ==> r.language == code
    ensures !LanguageLookupTruthy(code) ==> r == s
  {
    if LanguageLookupTruthy(code) then s.(language := code) else s
  }

  /** The guard as written lets `setLanguage("constructor")` through, after which the
      language is no code of the table; the own-key guard keeps English. */
  lemma AsWrittenLanguageGuardAdmitsConstructor()
    ensures !Supported(WithLanguageAsWritten(INITIAL, "constructor"))
    ensures WithLanguage(INITIAL, "constructor") == INITIAL
  {
  }

  /** The fallback of a detection, with the guard as written, takes a browser language
      tag "valueOf" as the language. The tag is no listed language, so the detection with
      the own-key guard keeps the language it had (FallbackKeepsUnlistedLanguage). */
  lemma AsWrittenFallbackAdmitsValueOf(tag: string)
    requires tag == "valueOf"
    ensures !Supported(WithLanguageAsWritten(INITIAL, BeforeDash(tag)))
    ensures !KnownLanguage(BeforeDash(tag))
  {
    BeforeDashOfPlainTag(tag);
    ValueOfUnlisted();
  }

  /** "valueOf" is inherited by every object and is no language of the table. */
  lemma ValueOfUnlisted()
    ensures "valueOf" in OBJECT_PROTOTYPE_NAMES && !KnownLanguage("valueOf")
  {
  }

  /** A failed lookup whose browser language is not listed keeps the language. */
  lemma FallbackKeepsUnlistedLanguage(s: Settings, tag: string, zone: string)
    requires !KnownLanguage(BeforeDash(tag))
    ensures Detected(s, Unreachable(tag, zone)).language == s.language
  {
  }

  /** A tag without a dash is its own primary subtag. */
  lemma BeforeDashOfPlainTag(tag: string)
    requires '-' !in tag
    ensures BeforeDash(tag) == tag
  {
  }

  /** The own-key language guard agrees with the guard as written on every code other
      than the inherited names. */
  lemma LanguageGuardsAgree(s: Settings, code: string)
    requires code !in OBJECT_PROTOTYPE_NAMES
    ensures WithLanguage(s, code) == WithLanguageAsWritten(s, code)
  {
  }

  /** The load effect with the guards as written: a stored currency or language is
      adopted whenever looking it up in its table gives a truthy value. */
  function LoadedAsWritten(s: Settings, stored: StoredLocale): (r: Settings)
    ensures stored.Unreadable? ==> r == s
    ensures (stored.Stored? && Truthy(stored.currency) && CurrencyLookupTruthy(stored.currency.value))
                ==> r.currency == stored.currency.value
    ensures (stored.Stored? && Truthy(stored.language) && LanguageLookupTruthy(stored.language.value))
                ==> r.language == stored.language.value
  {
    match stored
    case Unreadable => s
    case Stored(currency, language, country) =>
      var withCurrency :=
        if Truthy(currency) && CurrencyLookupTruthy(currency.value) then s.(currency := currency.value)
        else s;
      var withLanguage :=
        if Truthy(language) && LanguageLookupTruthy(language.value)
        then withCurrency.(language := language.value) else withCurrency;
      if Truthy(country) then withLanguage.(detectedCountry := country) else withLanguage
  }

  /** A saved record whose currency is "constructor" passes the guard as written and
      leaves the context with a currency the table does not list; the own-key guard keeps
      the pound. The same holds for a saved language "constructor". */
  lemma AsWrittenLoadAdmitsConstructor()
    ensures !Supported(LoadedAsWritten(INITIAL, Stored(Some("constructor"), None, None)))
    ensures !Supported(LoadedAsWritten(INITIAL, Stored(None, Some("constructor"), None)))
    ensures Loaded(INITIAL, Stored(Some("constructor"), None, None)) == INITIAL
    ensures Loaded(INITIAL, Stored(None, Some("constructor"), None)) == INITIAL
  {
  }

  /** The two loads agree on every record that names no inherited property. */
  lemma LoadGuardsAgree(s: Settings, stored: StoredLocale)
    requires stored.Stored? && stored.currency.Some? ==> stored.currency.value !in OBJECT_PROTOTYPE_NAMES
    requires stored.Stored? && stored.language.Some? ==> stored.language.value !in OBJECT_PROTOTYPE_NAMES
    ensures Loaded(s, stored) == LoadedAsWritten(s, stored)
  {
  }
}
