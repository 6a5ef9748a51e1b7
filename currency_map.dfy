/** CurrencyMap.kt: ISO 4217 numeric codes to alphabetic code, name and symbol, and
    the two lookups the decoder and the UI use. */
module CurrencyMap {
  import opened Wrappers

  datatype CurrencyInfo = CurrencyInfo(code: string, name: string, symbol: string)

  /** The source's `currencyMap`: the 36 currencies it knows, keyed by numeric code.
      Every key and every alphabetic code in it has three characters. */
  function Lookup(code: string): (r: Option<CurrencyInfo>)
    ensures r.Some? ==> |code| == 3 && |r.value.code| == 3
  {
    match code
    case "156" => Some(CurrencyInfo("CNY", "Chinese Yuan", "\U{A5}"))
    case "344" => Some(CurrencyInfo("HKD", "Hong Kong Dollar", "HK$"))
    case "360" => Some(CurrencyInfo("IDR", "Indonesian Rupiah", "Rp"))
    case "392" => Some(CurrencyInfo("JPY", "Japanese Yen", "\U{A5}"))
    case "410" => Some(CurrencyInfo("KRW", "South Korean Won", "\U{20A9}"))
    case "458" => Some(CurrencyInfo("MYR", "Malaysian Ringgit", "RM"))
    case "608" => Some(CurrencyInfo("PHP", "Philippine Peso", "\U{20B1}"))
    case "702" => Some(CurrencyInfo("SGD", "Singapore Dollar", "S$"))
    case "764" => Some(CurrencyInfo("THB", "Thai Baht", "\U{E3F}"))
    case "901" => Some(CurrencyInfo("TWD", "New Taiwan Dollar", "NT$"))
    case "704" => Some(CurrencyInfo("VND", "Vietnamese Dong", "\U{20AB}"))
    case "036" => Some(CurrencyInfo("AUD", "Australian Dollar", "A$"))
    case "124" => Some(CurrencyInfo("CAD", "Canadian Dollar", "C$"))
    case "978" => Some(CurrencyInfo("EUR", "Euro", "\U{20AC}"))
    case "826" => Some(CurrencyInfo("GBP", "British Pound", "\U{A3}"))
    case "356" => Some(CurrencyInfo("INR", "Indian Rupee", "\U{20B9}"))
    case "840" => Some(CurrencyInfo("USD", "US Dollar", "$"))
    case "784" => Some(CurrencyInfo("AED", "UAE Dirham", "\U{62F}.\U{625}"))
    case "682" => Some(CurrencyInfo("SAR", "Saudi Riyal", "\U{FDFC}"))
    case "643" => Some(CurrencyInfo("RUB", "Russian Ruble", "\U{20BD}"))
    case "710" => Some(CurrencyInfo("ZAR", "South African Rand", "R"))
    case "404" => Some(CurrencyInfo("KES", "Kenyan Shilling", "KSh"))
    case "566" => Some(CurrencyInfo("NGN", "Nigerian Naira", "\U{20A6}"))
    case "504" => Some(CurrencyInfo("MAD", "Moroccan Dirham", "\U{62F}.\U{645}."))
    case "818" => Some(CurrencyInfo("EGP", "Egyptian Pound", "E\U{A3}"))
    case "985" => Some(CurrencyInfo("PLN", "Polish Z\U{142}oty", "z\U{142}"))
    case "756" => Some(CurrencyInfo("CHF", "Swiss Franc", "CHF"))
    case "578" => Some(CurrencyInfo("NOK", "Norwegian Krone", "kr"))
    case "752" => Some(CurrencyInfo("SEK", "Swedish Krona", "kr"))
    case "208" => Some(CurrencyInfo("DKK", "Danish Krone", "kr"))
    case "949" => Some(CurrencyInfo("TRY", "Turkish Lira", "\U{20BA}"))
    case "986" => Some(CurrencyInfo("BRL", "Brazilian Real", "R$"))
    case "484" => Some(CurrencyInfo("MXN", "Mexican Peso", "Mex$"))
    case "032" => Some(CurrencyInfo("ARS", "Argentine Peso", "AR$"))
    case "152" => Some(CurrencyInfo("CLP", "Chilean Peso", "CLP$"))
    case "604" => Some(CurrencyInfo("PEN", "Peruvian Sol", "S/"))
    case _ => None
  }

  /** The same table read the other way, alphabetic code to numeric code. */
  function NumericOf(alpha: string): Option<string> {
    match alpha
    case "CNY" => Some("156")
    case "HKD" => Some("344")
    case "IDR" => Some("360")
    case "JPY" => Some("392")
    case "KRW" => Some("410")
    case "MYR" => Some("458")
    case "PHP" => Some("608")
    case "SGD" => Some("702")
    case "THB" => Some("764")
    case "TWD" => Some("901")
    case "VND" => Some("704")
    case "AUD" => Some("036")
    case "CAD" => Some("124")
    case "EUR" => Some("978")
    case "GBP" => Some("826")
    case "INR" => Some("356")
    case "USD" => Some("840")
    case "AED" => Some("784")
    case "SAR" => Some("682")
    case "RUB" => Some("643")
    case "ZAR" => Some("710")
    case "KES" => Some("404")
    case "NGN" => Some("566")
    case "MAD" => Some("504")
    case "EGP" => Some("818")
    case "PLN" => Some("985")
    case "CHF" => Some("756")
    case "NOK" => Some("578")
    case "SEK" => Some("752")
    case "DKK" => Some("208")
    case "TRY" => Some("949")
    case "BRL" => Some("986")
    case "MXN" => Some("484")
    case "ARS" => Some("032")
    case "CLP" => Some("152")
    case "PEN" => Some("604")
    case _ => None
  }

  const UnknownPrefix := "Unknown Currency ("

  /** `getCurrencyName`: "USD - US Dollar ($)" for a known code, "Unknown Currency (999)"
      otherwise. */
  function CurrencyName(code: string): (r: string)
    ensures Lookup(code).None? ==> r == UnknownPrefix + code + ")"
  {
    match Lookup(code)
    case Some(info) => info.code + " - " + info.name + " (" + info.symbol + ")"
    case None => UnknownPrefix + code + ")"
  }

  /** `getCurrencySymbol`: the symbol, or the code itself when it is not in the table. */
  function CurrencySymbol(code: string): (r: string)
    ensures Lookup(code).None? ==> r == code
  {
    match Lookup(code)
    case Some(info) => info.symbol
    case None => code
  }

  /** Every alphabetic code in the table leads back to its numeric code, so no two
      numeric codes share one. */
  lemma AlphaCodeInverse(n: string)
    requires Lookup(n).Some?
    ensures NumericOf(Lookup(n).value.code) == Some(n)
  {
    match n
    case "156" => assert NumericOf(Lookup(n).value.code) == Some("156");
    case "344" => assert NumericOf(Lookup(n).value.code) == Some("344");
    case "360" => assert NumericOf(Lookup(n).value.code) == Some("360");
    case "392" => assert NumericOf(Lookup(n).value.code) == Some("392");
    case "410" => assert NumericOf(Lookup(n).value.code) == Some("410");
    case "458" => assert NumericOf(Lookup(n).value.code) == Some("458");
    case "608" => assert NumericOf(Lookup(n).value.code) == Some("608");
    case "702" => assert NumericOf(Lookup(n).value.code) == Some("702");
    case "764" => assert NumericOf(Lookup(n).value.code) == Some("764");
    case "901" => assert NumericOf(Lookup(n).value.code) == Some("901");
    case "704" => assert NumericOf(Lookup(n).value.code) == Some("704");
    case "036" => assert NumericOf(Lookup(n).value.code) == Some("036");
    case "124" => assert NumericOf(Lookup(n).value.code) == Some("124");
    case "978" => assert NumericOf(Lookup(n).value.code) == Some("978");
    case "826" => assert NumericOf(Lookup(n).value.code) == Some("826");
    case "356" => assert NumericOf(Lookup(n).value.code) == Some("356");
    case "840" => assert NumericOf(Lookup(n).value.code) == Some("840");
    case "784" => assert NumericOf(Lookup(n).value.code) == Some("784");
    case "682" => assert NumericOf(Lookup(n).value.code) == Some("682");
    case "643" => assert NumericOf(Lookup(n).value.code) == Some("643");
    case "710" => assert NumericOf(Lookup(n).value.code) == Some("710");
    case "404" => assert NumericOf(Lookup(n).value.code) == Some("404");
    case "566" => assert NumericOf(Lookup(n).value.code) == Some("566");
    case "504" => assert NumericOf(Lookup(n).value.code) == Some("504");
    case "818" => assert NumericOf(Lookup(n).value.code) == Some("818");
    case "985" => assert NumericOf(Lookup(n).value.code) == Some("985");
    case "756" => assert NumericOf(Lookup(n).value.code) == Some("756");
    case "578" => assert NumericOf(Lookup(n).value.code) == Some("578");
    case "752" => assert NumericOf(Lookup(n).value.code) == Some("752");
    case "208" => assert NumericOf(Lookup(n).value.code) == Some("208");
    case "949" => assert NumericOf(Lookup(n).value.code) == Some("949");
    case "986" => assert NumericOf(Lookup(n).value.code) == Some("986");
    case "484" => assert NumericOf(Lookup(n).value.code) == Some("484");
    case "032" => assert NumericOf(Lookup(n).value.code) == Some("032");
    case "152" => assert NumericOf(Lookup(n).value.code) == Some("152");
    case "604" => assert NumericOf(Lookup(n).value.code) == Some("604");
    case _ =>
  }

  /** A known code's name starts with its alphabetic code and " - "; an unknown one
      starts with "Unknown Currency (" and carries the code it was given. */
  lemma CurrencyNameShape(code: string)
    ensures Lookup(code).Some? ==>
              |CurrencyName(code)| > 6 && CurrencyName(code)[..3] == Lookup(code).value.code
              && CurrencyName(code)[3..6] == " - "
    ensures Lookup(code).None? ==>
              CurrencyName(code)[..|UnknownPrefix|] == UnknownPrefix
              && CurrencyName(code)[|UnknownPrefix|..|CurrencyName(code)| - 1] == code
    ensures CurrencyName(code)[3] == if Lookup(code).Some? then ' ' else 'n'
  {
  }

  /** Whatever the code, the name ends with the symbol in parentheses. */
  lemma NameEndsWithSymbol(code: string)
    ensures var name := CurrencyName(code);
            var tail := " (" + CurrencySymbol(code) + ")";
            |name| >= |tail| && name[|name| - |tail|..] == tail
  {
    if Lookup(code).Some? {
      KnownNameEnds(Lookup(code).value);
    } else {
      EndsWith("Unknown Currency", " (" + code + ")");
    }
  }

  lemma KnownNameEnds(info: CurrencyInfo)
    ensures var name := info.code + " - " + info.name + " (" + info.symbol + ")";
            var tail := " (" + info.symbol + ")";
            |name| >= |tail| && name[|name| - |tail|..] == tail
  {
    var tail := " (" + info.symbol + ")";
    assert info.code + " - " + info.name + " (" + info.symbol + ")"
        == (info.code + " - " + info.name) + tail;
    EndsWith(info.code + " - " + info.name, tail);
  }

  lemma EndsWith(head: string, tail: string)
    ensures |head + tail| >= |tail| && (head + tail)[|head + tail| - |tail|..] == tail
  {
  }

  /** "840" is the US dollar; "999" is not in the table. */
  lemma CurrencyNameExamples()
    ensures CurrencyName("840")[..6] == "USD - "
    ensures CurrencyName("999") == "Unknown Currency (999)"
  {
    CurrencyNameShape("840");
  }

  /** Different codes never print the same name, so the decoder's currency text
      identifies the numeric code. */
  lemma CurrencyNameInjective(a: string, b: string)
    requires CurrencyName(a) == CurrencyName(b)
    ensures a == b
  {
    CurrencyNameShape(a);
    CurrencyNameShape(b);
    if Lookup(a).Some? && Lookup(b).Some? {
      AlphaCodeInverse(a);
      AlphaCodeInverse(b);
    }
  }
}
