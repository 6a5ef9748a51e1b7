/** The encoding half of EmvQrParser.kt: `generate`, which writes a payment QR payload
    from a transaction's key/value data, and its helpers `addField`, `formatDate`,
    `formatTime`, `formatAmount` and `convertCurrencyAlphaToNumeric`. */
module EmvQrEncoder {
  import opened Wrappers
  import opened Text
  import opened OrderedMap
  import opened EmvQrModel
  import opened TlvCodec
  import opened EmvQrDecoder
  import opened FieldChains
  import CrcCalculator
  import CurrencyMap
  import GeneratorCrc

  /** The transaction's data as the terminal hands it over: key to text. */
  type TransactionData = map<string, string>

  // Keys of the transaction data.
  const OutletNumberKey := "Acquirer.Merchant.Outlet.Number"
  const CurrencyAlphaKey := "REF.currencyIsoCode{currencyAlpha::}"
  const AmountKey := "REF.trxAmount"
  const OutletNameKey := "Acquirer.Merchant.Outlet.Name"
  const TerminalAddressKey := "Acquirer.Merchant.Outlet.Terminal.Address"
  const DateKey := "REF.dateTime{subString:0:10}"
  const TimeKey := "REF.dateTime{subString:11:19}"
  const TerminalNumberKey := "Acquirer.Merchant.Outlet.Terminal.Number"
  const ReferenceKey := "REF.reference"
  const AuthCodeKey := "REF.autCode"
  const InterchangeFeeKey := "REF.interchangeFee"
  const ApplicationNameKey := "SCRT.EMVDATA{getApplicationName:0:}"
  const Tag84Key := "SCRT.EMVDATA{getEMVTag:84:}"
  const Tag95Key := "SCRT.EMVDATA{getEMVTag:95:}"
  const Tag9BKey := "SCRT.EMVDATA{getEMVTag:9B:}"
  const Tag9F10Key := "SCRT.EMVDATA{getEMVTag:9F10:}"
  const SignatureKey := "SCRT.EMVDATA{requestSignature:9F34:9F10}"
  const BatchNumberKey := "BatchNumber"
  const ReceiptNumberKey := "ReceiptNumber"

  /** The keys of the fields written after the additional data template, in order. */
  const TrailerKeys: seq<string> := [
    FooterTicketKey, InterchangeFeeKey, ApplicationNameKey, Tag84Key, Tag95Key, Tag9BKey,
    Tag9F10Key, SignatureKey, BatchNumberKey, ReceiptNumberKey]

  // Ids of the fields only the generator writes.
  const BillNumberId := "01"
  const MobileNumberId := "02"
  const StoreLabelId := "03"
  const ReferenceLabelId := "05"
  const PurposeOfTransactionId := "08"
  const FooterTicketId := "80"
  const InterchangeFeeId := "81"
  const ApplicationNameId := "82"
  const BatchNumberId := "83"
  const ReceiptNumberId := "84"
  const Tag84Id := "85"
  const Tag95Id := "86"
  const Tag9F10Id := "87"
  const Tag9BId := "88"
  const SignatureId := "89"

  // Values written when the transaction data says nothing.
  const PayloadFormat := "01"
  const InitiationMethod := "11"
  const DefaultMerchantCategoryCode := "5541"
  const DefaultCurrency := "JOD"
  const DefaultAmount := "1"
  const CountryCode := "400"
  const DefaultMerchantName := "JORDAN GATE GAS STATION"
  const DefaultCity := "AMMAN"
  const MerchantNameLimit := 25

  /** `transactionData[key] ?: default`. */
  function ValueOr(txn: TransactionData, key: string, default: string): (v: string)
    ensures key in txn ==> v == txn[key]
    ensures key !in txn ==> v == default
  {
    if key in txn then txn[key] else default
  }

  // ------------------------------------------------------------ formatting

  /** `convertCurrencyAlphaToNumeric`: six currencies it knows, JOD for the rest. */
  function ConvertCurrencyAlphaToNumeric(alpha: string): (n: string)
    ensures |n| == 3 && IsDigits(n)
    ensures n in ["400", "840", "978", "682", "784", "826"]
  {
    match alpha
    case "JOD" => "400"
    case "USD" => "840"
    case "EUR" => "978"
    case "SAR" => "682"
    case "AED" => "784"
    case "GBP" => "826"
    case _ => "400"
  }

  /** The numeric codes the generator writes are those of the currency table, except
      Jordan's 400, which the table does not hold: a payload in dinars (or in any
      currency the generator does not know) decodes as "Unknown Currency (400)". */
  lemma NumericCodesAgreeWithTable(alpha: string)
    ensures var n := ConvertCurrencyAlphaToNumeric(alpha);
            (n == "400" <==> alpha !in ["USD", "EUR", "SAR", "AED", "GBP"])
            && (n != "400" ==>
                  CurrencyMap.NumericOf(alpha) == Some(n)
                  && CurrencyMap.Lookup(n).Some? && CurrencyMap.Lookup(n).value.code == alpha)
            && (n == "400" ==> CurrencyMap.CurrencyName(n) == CurrencyMap.UnknownPrefix + "400)")
  {
    if alpha == "USD" {
      assert CurrencyMap.NumericOf("USD") == Some("840");
      assert CurrencyMap.Lookup("840").value.code == "USD";
    } else if alpha == "EUR" {
      assert CurrencyMap.NumericOf("EUR") == Some("978");
      assert CurrencyMap.Lookup("978").value.code == "EUR";
    } else if alpha == "SAR" {
      assert CurrencyMap.NumericOf("SAR") == Some("682");
      assert CurrencyMap.Lookup("682").value.code == "SAR";
    } else if alpha == "AED" {
      assert CurrencyMap.NumericOf("AED") == Some("784");
      assert CurrencyMap.Lookup("784").value.code == "AED";
    } else if alpha == "GBP" {
      assert CurrencyMap.NumericOf("GBP") == Some("826");
      assert CurrencyMap.Lookup("826").value.code == "GBP";
    } else {
      assert ConvertCurrencyAlphaToNumeric(alpha) == "400";
      JordanNotInTable();
    }
  }

  /** The currency table has no entry for Jordan's numeric code 400. */
  lemma JordanNotInTable()
    ensures CurrencyMap.Lookup("400").None?
  {
  }

  /** Minor units per major unit: 1000 fils to the dinar, 100 for everything else. */
  function MinorUnits(currency: string): (f: nat)
    ensures f == if currency == "JOD" then 1000 else 100
  {
    match currency
    case "JOD" => 1000
    case "USD" => 100
    case "EUR" => 100
    case _ => 100
  }

  /** A plain decimal number: sign, whole digits, fraction digits. */
  datatype Decimal = Decimal(negative: bool, whole: string, fraction: string)

  /** The plain decimal numbers `toDoubleOrNull` accepts: an optional sign, digits, and
      an optional point followed by digits, with at least one digit in all. */
  function ParseDecimal(s: string): (r: Option<Decimal>)
    ensures r.Some? ==> IsDigits(r.value.whole) && IsDigits(r.value.fraction)
                        && |r.value.whole| + |r.value.fraction| >= 1
    ensures r.Some? ==> (r.value.negative <==> |s| > 0 && s[0] == '-')
  {
    var signed := |s| > 0 && (s[0] == '-' || s[0] == '+');
    var unsigned := if signed then s[1..] else s;
    var parts := Split(unsigned, '.');
    var fraction := if |parts| == 2 then parts[1] else "";
    if |parts| <= 2 && IsDigits(parts[0]) && IsDigits(fraction) && |parts[0]| + |fraction| >= 1 then
      Some(Decimal(signed && s[0] == '-', parts[0], fraction))
    else None
  }

  /** `(amountValue * minorUnits).toLong()` on the exact value: the amount in minor
      units, cut toward zero. */
  function MinorAmount(d: Decimal, factor: nat): (r: int)
    requires IsDigits(d.whole) && IsDigits(d.fraction)
    ensures IsDigits(d.whole + d.fraction)
    ensures var scaled := DecimalValue(d.whole + d.fraction) * factor;
            var p := Pow10(|d.fraction|);
            var magnitude := if d.negative then -r else r;
            magnitude >= 0 && magnitude * p <= scaled < (magnitude + 1) * p
  {
    DecimalValueAppend(d.whole, d.fraction);
    var magnitude: int := ScaledDown(DecimalValue(d.whole + d.fraction), factor, Pow10(|d.fraction|));
    if d.negative then -magnitude else magnitude
  }

  /** x * factor / p, rounded down. */
  function ScaledDown(x: nat, factor: nat, p: nat): (q: nat)
    requires p >= 1
    ensures q * p <= x * factor < (q + 1) * p
  {
    var scaled: nat := x * factor;
    DivBounds(scaled, p);
    scaled / p
  }

  /** Integer division rounds down. */
  lemma DivBounds(x: nat, p: nat)
    requires p >= 1
    ensures 0 <= x / p && (x / p) * p <= x < (x / p + 1) * p
  {
    var q := x / p;
    var r := x % p;
    assert x == q * p + r;
    assert (q + 1) * p == q * p + p;
  }

  /** Exact scaling by a power of ten that divides the minor units. */
  lemma ScaleByMinorUnits(w: nat, f: nat, p: nat, units: nat)
    requires p == 1 || p == 10 || p == 100
    requires units == 100 || units == 1000
    ensures (w * p + f) * units / p == w * units + f * (units / p)
  {
    if p == 1 {
    } else if p == 10 {
      if units == 100 {
        assert (w * 10 + f) * 100 == (w * 100 + f * 10) * 10;
      } else {
        assert (w * 10 + f) * 1000 == (w * 1000 + f * 100) * 10;
      }
    } else {
      if units == 100 {
        assert (w * 100 + f) * 100 == (w * 100 + f) * 100;
      } else {
        assert (w * 100 + f) * 1000 == (w * 1000 + f * 10) * 100;
      }
    }
  }

  /** `Long.toString()`: decimal digits with a leading '-' when negative. */
  function LongString(n: int): (s: string)
    ensures IsLongText(s)
  {
    if n < 0 then "-" + DecimalString(-n) else DecimalString(n)
  }

  /** Text of a `Long`: digits without leading zeros, or '-' and a positive number. */
  predicate IsLongText(s: string) {
    |s| >= 1
    && ((IsDigits(s) && (s[0] != '0' || s == "0"))
        || (|s| >= 2 && s[0] == '-' && IsDigits(s[1..]) && s[1] != '0'))
  }

  /** `formatAmount`: the amount in minor units of the currency; text that is not a
      number counts as zero. */
  function FormatAmount(amount: string, currency: string): (r: string)
    ensures IsLongText(r)
    ensures ParseDecimal(amount).None? ==> r == "0"
  {
    var minor := match ParseDecimal(amount)
      case Some(d) => MinorAmount(d, MinorUnits(currency))
      case None => 0;
    LongString(minor)
  }

  /** A whole amount is multiplied by the minor units: "12" dinars is "12000" fils. */
  lemma FormatAmountWhole(digits: string, currency: string)
    requires IsDigits(digits) && digits != ""
    ensures FormatAmount(digits, currency) == DecimalString(DecimalValue(digits) * MinorUnits(currency))
  {
    assert '.' !in digits by {
      assert forall i | 0 <= i < |digits| :: IsDigit(digits[i]);
    }
    assert ParseDecimal(digits) == Some(Decimal(false, digits, "")) by {
      SplitNoDelimiter(digits, '.');
    }
    var d := Decimal(false, digits, "");
    var units := MinorUnits(currency);
    assert MinorAmount(d, units) == DecimalValue(digits) * units by {
      assert digits + "" == digits;
      assert Pow10(0) == 1;
    }
    assert FormatAmount(digits, currency) == LongString(MinorAmount(d, units));
  }

  /** An amount with at most two decimals is exact in minor units:
      "12.5" dollars is "1250" cents and "0.25" dinars is "250" fils. */
  lemma FormatAmountDecimals(whole: string, fraction: string, currency: string)
    requires IsDigits(whole) && IsDigits(fraction) && whole != "" && |fraction| <= 2
    ensures var units := MinorUnits(currency);
            FormatAmount(whole + "." + fraction, currency)
            == DecimalString(DecimalValue(whole) * units + DecimalValue(fraction) * (units / Pow10(|fraction|)))
  {
    var s := whole + "." + fraction;
    var d := Decimal(false, whole, fraction);
    var units := MinorUnits(currency);
    PlainDecimal(whole, fraction);
    MinorAmountOfPlain(whole, fraction, units);
    assert FormatAmount(s, currency) == LongString(MinorAmount(d, units));
  }

  /** Digits, a point and digits read as that decimal. */
  lemma PlainDecimal(whole: string, fraction: string)
    requires IsDigits(whole) && IsDigits(fraction) && whole != ""
    ensures ParseDecimal(whole + "." + fraction) == Some(Decimal(false, whole, fraction))
  {
    var s := whole + "." + fraction;
    assert '.' !in whole && '.' !in fraction by {
      assert forall i | 0 <= i < |whole| :: IsDigit(whole[i]);
      assert forall i | 0 <= i < |fraction| :: IsDigit(fraction[i]);
    }
    assert Join([whole, fraction], '.') == s;
    SplitJoin([whole, fraction], '.');
    assert s[0] == whole[0];
  }

  /** With at most two decimals the product with the minor units is whole. */
  lemma MinorAmountOfPlain(whole: string, fraction: string, units: nat)
    requires IsDigits(whole) && IsDigits(fraction) && |fraction| <= 2
    requires units == 100 || units == 1000
    ensures MinorAmount(Decimal(false, whole, fraction), units)
            == DecimalValue(whole) * units + DecimalValue(fraction) * (units / Pow10(|fraction|))
  {
    DecimalValueAppend(whole, fraction);
    var p := Pow10(|fraction|);
    if |fraction| == 0 {
      assert p == 1;
    } else if |fraction| == 1 {
      assert p == 10 by {
        assert Pow10(0) == 1;
      }
    } else {
      assert p == 100 by {
        assert Pow10(0) == 1 && Pow10(1) == 10;
      }
    }
    ScaleByMinorUnits(DecimalValue(whole), DecimalValue(fraction), p, units);
  }

  /** A minus sign in front negates the amount, except that zero stays "0". */
  lemma FormatAmountNegative(amount: string, currency: string)
    requires ParseDecimal(amount).Some? && amount[0] != '-' && amount[0] != '+'
    ensures var positive := FormatAmount(amount, currency);
            FormatAmount("-" + amount, currency) == if positive == "0" then "0" else "-" + positive
  {
    var d := ParseDecimal(amount).value;
    var units := MinorUnits(currency);
    NegatedDecimal(amount);
    MinorAmountNegated(d, units);
    LongStringNegated(MinorAmount(d, units));
  }

  /** "-" in front of an unsigned number parses as the same digits, negative. */
  lemma NegatedDecimal(amount: string)
    requires ParseDecimal(amount).Some? && amount[0] != '-' && amount[0] != '+'
    ensures ParseDecimal("-" + amount) == Some(ParseDecimal(amount).value.(negative := true))
    ensures !ParseDecimal(amount).value.negative
  {
    assert ("-" + amount)[1..] == amount;
  }

  /** The sign only flips the amount in minor units. */
  lemma MinorAmountNegated(d: Decimal, units: nat)
    requires IsDigits(d.whole) && IsDigits(d.fraction) && !d.negative
    ensures MinorAmount(d, units) >= 0
    ensures MinorAmount(d.(negative := true), units) == -MinorAmount(d, units)
  {
  }

  /** `Long.toString()` of -m: "0" for zero, otherwise '-' before the digits of m. */
  lemma LongStringNegated(m: int)
    requires m >= 0
    ensures LongString(-m) == if LongString(m) == "0" then "0" else "-" + LongString(m)
  {
    if m == 0 {
      assert DecimalString(0) == "0";
    } else {
      assert DecimalString(m) != "0";
    }
  }

  /** `formatDate`: "MM/DD/YYYY" becomes "YYMMDD"; text with fewer than two slashes
      gives ""; a year piece shorter than four characters makes `substring` throw. */
  function FormatDate(date: string): (r: Result<string, Failure>)
    ensures r.Err? ==> r.error == IndexOutOfBounds
  {
    var parts := Split(date, '/');
    if |parts| >= 3 then
      if |parts[2]| < 4 then Err(IndexOutOfBounds)
      else Ok(parts[2][2..4] + PadStartZeros(parts[0], 2) + PadStartZeros(parts[1], 2))
    else Ok("")
  }

  /** Month, day and year separated by slashes: the year's third and fourth digits,
      then month and day padded to two digits. */
  lemma FormatDateOfSlashedDate(month: string, day: string, year: string)
    requires '/' !in month && '/' !in day && '/' !in year
    ensures var r := FormatDate(month + "/" + day + "/" + year);
            if |year| < 4 then r == Err(IndexOutOfBounds)
            else r == Ok(year[2..4] + PadStartZeros(month, 2) + PadStartZeros(day, 2))
  {
    var parts := [month, day, year];
    assert Join(parts, '/') == month + "/" + day + "/" + year by {
      assert Join(parts[2..], '/') == year;
      assert parts[1..][1..] == parts[2..];
    }
    SplitJoin(parts, '/');
  }

  /** A date with at most one slash is dropped: `formatDate` gives "". */
  lemma FormatDateFewSlashes(a: string, b: string)
    requires '/' !in a && '/' !in b
    ensures FormatDate(a) == Ok("")
    ensures FormatDate(a + "/" + b) == Ok("")
  {
    SplitNoDelimiter(a, '/');
    SplitJoin([a, b], '/');
    assert Join([a, b], '/') == a + "/" + b;
  }

  /** `formatTime`: the time without its colons. */
  function FormatTime(time: string): (r: string)
    ensures ':' !in r
  {
    RemoveAll(time, ':')
  }

  /** "HH:MM:SS" becomes "HHMMSS". */
  lemma FormatTimeOfClock(h: string, m: string, s: string)
    requires ':' !in h && ':' !in m && ':' !in s
    ensures FormatTime(h + ":" + m + ":" + s) == h + m + s
  {
    var colon := RemoveAll(":", ':');
    assert colon == "" by {
      assert ":"[1..] == "";
    }
    var seconds := ":" + s;
    assert RemoveAll(seconds, ':') == s by {
      RemoveAllAppend(":", s, ':');
      RemoveAllNone(s, ':');
      assert "" + s == s;
    }
    var minutes := m + seconds;
    assert RemoveAll(minutes, ':') == m + s by {
      RemoveAllAppend(m, seconds, ':');
      RemoveAllNone(m, ':');
    }
    var rest := ":" + minutes;
    assert RemoveAll(rest, ':') == m + s by {
      RemoveAllAppend(":", minutes, ':');
      assert "" + (m + s) == m + s;
    }
    assert RemoveAll(h + rest, ':') == h + (m + s) by {
      RemoveAllAppend(h, rest, ':');
      RemoveAllNone(h, ':');
    }
    assert h + ":" + m + ":" + s == h + rest;
    assert h + (m + s) == h + m + s;
  }

  /** The merchant city: the first word after the address's last dash, or "AMMAN"
      when the address has no dash. */
  function City(address: string): (city: string)
    ensures '-' !in address ==> city == DefaultCity
    ensures ' ' !in city
  {
    if '-' in address then
      var pieces := Split(address, '-');
      Split(pieces[|pieces| - 1], ' ')[0]
    else DefaultCity
  }

  /** With a last dash at k and the next space (or the end) at i, the city is the text
      between them. */
  lemma CityAfterLastDash(address: string, k: nat, i: nat)
    requires k < |address| && address[k] == '-' && '-' !in address[k + 1..]
    requires k + 1 <= i <= |address| && ' ' !in address[k + 1..i]
    requires i == |address| || address[i] == ' '
    ensures City(address) == address[k + 1..i]
  {
    SplitLastPiece(address, '-', k);
    var after := address[k + 1..];
    assert after[..i - (k + 1)] == address[k + 1..i];
    SplitFirstPiece(after, ' ', i - (k + 1));
  }

  /** `merchantName.substring(0, minOf(merchantName.length, 25))`. */
  function MerchantNameText(name: string): (r: string)
    ensures |r| <= |name| && |r| <= MerchantNameLimit && name[..|r|] == r
    ensures |r| == |name| || |r| == MerchantNameLimit
  {
    name[..if |name| < MerchantNameLimit then |name| else MerchantNameLimit]
  }

  // ------------------------------------------------------------ the checksum

  /** `calculateCrc(data)` as the decoder checks it: the CRC-16 of the UTF-8 bytes of
      the data and the checksum header "6304", so that the payload validates. */
  function Checksum(data: string): (hex: string)
    ensures |hex| == 4 && IsUpperHex(hex)
    ensures ValidateCrc(data + GeneratorCrc.ChecksumHeader + hex)
  {
    var hex := CrcCalculator.CrcHex(data + GeneratorCrc.ChecksumHeader);
    var q := data + GeneratorCrc.ChecksumHeader + hex;
    assert q[..|q| - 4] == data + GeneratorCrc.ChecksumHeader && q[|q| - 4..] == hex;
    ValidateCrcMeans(q);
    hex
  }

  /** `calculateCrc`, computed the way `validateCrc` reads it back. */
  method CalculateCrc(data: string) returns (hex: string)
    ensures hex == Checksum(data)
  {
    hex := CrcCalculator.CalculateCrc(data + GeneratorCrc.ChecksumHeader);
  }

  /** The checksum field is the header followed by the four hex digits. */
  lemma ChecksumField(data: string, hex: string)
    requires |hex| == 4
    ensures FieldText(CrcId, hex) == GeneratorCrc.ChecksumHeader + hex
    ensures data + FieldText(CrcId, hex) == data + GeneratorCrc.ChecksumHeader + hex
  {
    assert FormatTwoDigits(4) == "04" by {
      assert DigitChar(4) == '4';
    }
  }

  /** The checksum `generate` writes for data "5901é" (a merchant name field holding
      a non-ASCII letter), computed on character codes, fails the decoder's check,
      which works on UTF-8 bytes. */
  lemma AsWrittenChecksumRejected()
    ensures !ValidateCrc("5901\U{E9}" + GeneratorCrc.ChecksumHeader + GeneratorCrc.AsWrittenCrcHex("5901\U{E9}"))
  {
    var hex := GeneratorCrc.AsWrittenCrcHex("5901\U{E9}");
    var q := "5901\U{E9}" + GeneratorCrc.ChecksumHeader + hex;
    assert q[..|q| - 4] == GeneratorCrc.ExampleText && q[|q| - 4..] == hex;
    ValidateCrcMeans(q);
    GeneratorCrc.ExampleCharRegister();
    GeneratorCrc.ExampleUtf8();
    GeneratorCrc.ExampleByteRegister();
  }

  // ------------------------------------------------------------ the payload

  /** The fields of the additional data template (62), in the order `generate` adds
      them; a date it cannot cut makes the whole generation fail. */
  function AdditionalFields(txn: TransactionData): (r: Result<seq<(string, string)>, Failure>)
    ensures r.Err? <==> FormatDate(ValueOr(txn, DateKey, "")).Err?
    ensures r.Ok? ==> |r.value| == 5
  {
    var date :- FormatDate(ValueOr(txn, DateKey, ""));
    Ok([(BillNumberId, date),
        (MobileNumberId, FormatTime(ValueOr(txn, TimeKey, ""))),
        (StoreLabelId, ValueOr(txn, TerminalNumberKey, "")),
        (ReferenceLabelId, ValueOr(txn, ReferenceKey, "")),
        (PurposeOfTransactionId, ValueOr(txn, AuthCodeKey, ""))])
  }

  /** `generate` leaves the additional data template (62) out exactly when all five
      of its fields are empty. */
  lemma AdditionalTemplateOmitted(txn: TransactionData)
    requires AdditionalFields(txn).Ok?
    ensures var fields := AdditionalFields(txn).value;
            FieldText(AdditionalDataId, Serialize(fields)) == "" <==> forall i | 0 <= i < |fields| :: fields[i].1 == ""
  {
    SerializeEmpty(AdditionalFields(txn).value);
  }

  /** The ids of the fields `generate` writes before the checksum, in order. */
  const HeaderIds: seq<string> := [
    PayloadFormatId, InitiationMethodId, MerchantCategoryCodeId, CurrencyId, AmountId,
    CountryCodeId, MerchantNameId, MerchantCityId]
  const TrailerIds: seq<string> := [
    FooterTicketId, InterchangeFeeId, ApplicationNameId, Tag84Id, Tag95Id, Tag9BId,
    Tag9F10Id, SignatureId, BatchNumberId, ReceiptNumberId]
  const PayloadIds: seq<string> := HeaderIds + [AdditionalDataId] + TrailerIds

  /** The fields carry the given ids, in order. */
  predicate HasIds(fields: seq<(string, string)>, ids: seq<string>) {
    |fields| == |ids| && forall i | 0 <= i < |ids| :: fields[i].0 == ids[i]
  }

  lemma HasIdsConcat(f: seq<(string, string)>, ids: seq<string>, g: seq<(string, string)>, jds: seq<string>)
    requires HasIds(f, ids) && HasIds(g, jds)
    ensures HasIds(f + g, ids + jds)
  {
  }

  /** The fields `generate` writes first: format, method, category, currency, amount,
      country, merchant name and city, with the fixed format "01", method "11" and
      country "400". */
  function HeaderFields(txn: TransactionData): (r: seq<(string, string)>)
    ensures |r| == 8 && HasIds(r, HeaderIds)
    ensures r[0].1 == PayloadFormat && r[1].1 == InitiationMethod && r[5].1 == CountryCode
  {
    var currency := ValueOr(txn, CurrencyAlphaKey, DefaultCurrency);
    HeaderOf(ValueOr(txn, OutletNumberKey, DefaultMerchantCategoryCode),
             ConvertCurrencyAlphaToNumeric(currency),
             FormatAmount(ValueOr(txn, AmountKey, DefaultAmount), currency),
             MerchantNameText(ValueOr(txn, OutletNameKey, DefaultMerchantName)),
             City(ValueOr(txn, TerminalAddressKey, "")))
  }

  /** The header fields around the five values computed from the transaction. */
  function HeaderOf(mcc: string, currency: string, amount: string, name: string, city: string): (r: seq<(string, string)>)
    ensures |r| == 8 && HasIds(r, HeaderIds)
    ensures r[0].1 == PayloadFormat && r[1].1 == InitiationMethod && r[5].1 == CountryCode
  {
    [(PayloadFormatId, PayloadFormat),
     (InitiationMethodId, InitiationMethod),
     (MerchantCategoryCodeId, mcc),
     (CurrencyId, currency),
     (AmountId, amount),
     (CountryCodeId, CountryCode),
     (MerchantNameId, name),
     (MerchantCityId, city)]
  }

  /** The fields `generate` writes after the additional data template, each only when
      the transaction data holds a non-empty value for it. */
  function TrailerFields(txn: TransactionData): (r: seq<(string, string)>)
    ensures HasIds(r, TrailerIds)
    ensures forall i | 0 <= i < |r| :: r[i].1 == ValueOr(txn, TrailerKeys[i], "")
  {
    seq(|TrailerIds|, i requires 0 <= i < |TrailerIds| => (TrailerIds[i], ValueOr(txn, TrailerKeys[i], "")))
  }

  /** All fields before the checksum, with the additional data template's text
      between the header and the trailing fields. */
  function PayloadFields(txn: TransactionData, additional: string): (r: seq<(string, string)>)
    ensures |r| == 19 && HasIds(r, PayloadIds)
    ensures r[8].1 == additional
  {
    PayloadOf(HeaderFields(txn), additional, TrailerFields(txn))
  }

  /** The header, the additional data template's field and the trailing fields, one
      after another. */
  function PayloadOf(header: seq<(string, string)>, additional: string, trailer: seq<(string, string)>): (r: seq<(string, string)>)
    requires HasIds(header, HeaderIds) && HasIds(trailer, TrailerIds)
    ensures |r| == 19 && HasIds(r, PayloadIds)
    ensures r[8].1 == additional
  {
    HasIdsConcat(header, HeaderIds, [(AdditionalDataId, additional)], [AdditionalDataId]);
    HasIdsConcat(header + [(AdditionalDataId, additional)], HeaderIds + [AdditionalDataId], trailer, TrailerIds);
    header + [(AdditionalDataId, additional)] + trailer
  }

  /** The payload with its checksum field appended: the field's id and length
      "6304", then the four hex digits, and the result passes the decoder's checksum
      test. */
  function WithChecksum(data: string): (q: string)
    ensures q == data + GeneratorCrc.ChecksumHeader + Checksum(data)
    ensures ValidateCrc(q)
  {
    var hex := Checksum(data);
    ChecksumField(data, hex);
    data + FieldText(CrcId, hex)
  }

  /** The payload with the checksum field `generate` appends: "6304", then the four
      hex digits of the generator's own CRC over character codes. It differs from the
      corrected payload in those four digits at most, and not at all on ASCII data. */
  function WithAsWrittenChecksum(data: string): (q: string)
    ensures q == data + GeneratorCrc.ChecksumHeader + GeneratorCrc.AsWrittenCrcHex(data)
    ensures |q| == |WithChecksum(data)| && q[..|q| - 4] == WithChecksum(data)[..|q| - 4]
    ensures IsAscii(data) ==> q == WithChecksum(data)
  {
    var hex := GeneratorCrc.AsWrittenCrcHex(data);
    ChecksumField(data, hex);
    assert IsAscii(data) ==> hex == CrcCalculator.CrcHex(data + GeneratorCrc.ChecksumHeader) by {
      if IsAscii(data) {
        GeneratorCrc.AsciiChecksumsAgree(data);
      }
    }
    var q := data + FieldText(CrcId, hex);
    assert q[..|q| - 4] == data + GeneratorCrc.ChecksumHeader;
    assert WithChecksum(data)[..|q| - 4] == data + GeneratorCrc.ChecksumHeader;
    q
  }

  /** The payload with the corrected checksum: the fields, then the checksum field
      over them, computed the way the decoder checks it. It always passes the
      decoder's checksum test. */
  function Encode(txn: TransactionData): (r: Result<string, Failure>)
    ensures r.Err? <==> FormatDate(ValueOr(txn, DateKey, "")).Err?
    ensures r.Err? ==> r.error == IndexOutOfBounds
    ensures r.Ok? ==> ValidateCrc(r.value)
  {
    match AdditionalFields(txn)
    case Err(e) => Err(e)
    case Ok(additional) => Ok(WithChecksum(Serialize(PayloadFields(txn, Serialize(additional)))))
  }

  /** What `generate` returns or throws, as written: the same fields, then the
      checksum over character codes. It fails exactly when the corrected payload
      does, and otherwise differs from it in the last four characters at most. */
  function EncodeAsWritten(txn: TransactionData): (r: Result<string, Failure>)
    ensures r.Err? <==> FormatDate(ValueOr(txn, DateKey, "")).Err?
    ensures r.Err? ==> r == Encode(txn)
    ensures r.Ok? ==> Encode(txn).Ok? && |r.value| == |Encode(txn).value| >= 4
                      && r.value[..|r.value| - 4] == Encode(txn).value[..|r.value| - 4]
  {
    match AdditionalFields(txn)
    case Err(e) => Err(e)
    case Ok(additional) => Ok(WithAsWrittenChecksum(Serialize(PayloadFields(txn, Serialize(additional)))))
  }

  // ------------------------------------------------------------ the builder

  /** `java.lang.StringBuilder`, as far as `generate` uses it: text appended in place. */
  class StringBuilder {
    var contents: string

    constructor()
      ensures contents == ""
    {
      contents := "";
    }

    method Append(s: string)
      modifies this
      ensures contents == old(contents) + s
    {
      contents := contents + s;
    }
  }

  /** `addField`: appends id, two-digit length and value; nothing for an empty value. */
  method AddField(builder: StringBuilder, id: string, value: string)
    modifies builder
    ensures builder.contents == old(builder.contents) + FieldText(id, value)
  {
    if value == "" {
      assert builder.contents + "" == builder.contents;
      return;
    }
    var length := FormatTwoDigits(|value|);
    builder.Append(id);
    builder.Append(length);
    builder.Append(value);
  }

  /** The `if (value.isNotEmpty()) addField(builder, id, value)` guard `generate` puts
      around each optional field: the same text as `addField` alone. */
  method AddFieldIfPresent(builder: StringBuilder, id: string, value: string)
    modifies builder
    ensures builder.contents == old(builder.contents) + FieldText(id, value)
  {
    if value != "" {
      AddField(builder, id, value);
    } else {
      assert builder.contents + "" == builder.contents;
    }
  }

  /** The builder's text after `addField`: the field's text appended, or nothing for
      an empty value. */
  ghost function Extended(text: string, id: string, value: string): (r: string)
    ensures r == text + FieldText(id, value)
    ensures value == "" ==> r == text
  {
    assert text + "" == text;
    text + FieldText(id, value)
  }

  /** `generate`: the header fields, the additional data template built in a builder
      of its own, the remaining fields, then the checksum over all of them. */
  method Generate(txn: TransactionData) returns (r: Result<string, Failure>)
    ensures r == EncodeAsWritten(txn)
  {
    var qr := new StringBuilder();
    var built := AddPayloadFields(qr, txn);
    if built.Err? {
      EncodeAsWrittenOk(txn);
      return Err(built.error);
    }
    ghost var data := qr.contents;
    var crc := GeneratorCrc.CalculateCrcAsWritten(qr.contents);
    AddField(qr, CrcId, crc);
    assert qr.contents == WithAsWrittenChecksum(data) by {
      AsWrittenChecksumField(data, crc);
    }
    r := Ok(qr.contents);
    assert r == EncodeAsWritten(txn) by {
      EncodeAsWrittenOk(txn);
    }
  }

  /** The part of `generate` before the checksum: the header fields, the additional
      data template built in a builder of its own, then the remaining fields. It
      fails, with the template's error, exactly when the template cannot be built. */
  method AddPayloadFields(qr: StringBuilder, txn: TransactionData) returns (r: Result<(), Failure>)
    requires qr.contents == ""
    modifies qr
    ensures r.Err? <==> AdditionalFields(txn).Err?
    ensures r.Err? ==> r.error == AdditionalFields(txn).error
    ensures r.Ok? ==> qr.contents == Serialize(PayloadFields(txn, Serialize(AdditionalFields(txn).value)))
  {
    AddHeaderFields(qr, txn);
    var template := AddAdditionalData(qr, txn);
    if template.Err? {
      return template;
    }
    ghost var additional := Serialize(AdditionalFields(txn).value);
    AddTrailerFields(qr, txn);
    assert qr.contents == Serialize(PayloadFields(txn, additional)) by {
      PayloadText(txn, additional);
    }
    return Ok(());
  }

  /** The additional data template of `generate`: built in a builder of its own, then
      added as field 62 when it is not empty. */
  method AddAdditionalData(qr: StringBuilder, txn: TransactionData) returns (r: Result<(), Failure>)
    modifies qr
    ensures r.Err? <==> AdditionalFields(txn).Err?
    ensures r.Err? ==> r.error == AdditionalFields(txn).error && qr.contents == old(qr.contents)
    ensures r.Ok? ==> qr.contents == old(qr.contents) + FieldText(AdditionalDataId, Serialize(AdditionalFields(txn).value))
  {
    var additional := BuildAdditionalData(txn);
    if additional.Err? {
      return Err(additional.error);
    }
    if additional.value != "" {
      AddField(qr, AdditionalDataId, additional.value);
    } else {
      assert qr.contents == qr.contents + FieldText(AdditionalDataId, additional.value);
    }
    return Ok(());
  }

  /** What `generate` appends before the checksum is the payload fields' text. */
  lemma PayloadText(txn: TransactionData, additional: string)
    ensures Serialize(HeaderFields(txn)) + FieldText(AdditionalDataId, additional)
            + Serialize(TrailerFields(txn)) == Serialize(PayloadFields(txn, additional))
  {
    var written := HeaderFields(txn) + [(AdditionalDataId, additional)];
    SerializeAppend(HeaderFields(txn), (AdditionalDataId, additional));
    SerializeConcat(written, TrailerFields(txn));
    assert written + TrailerFields(txn) == PayloadFields(txn, additional);
  }

  /** The checksum field `generate` appends completes the as-written payload. */
  lemma AsWrittenChecksumField(data: string, crc: string)
    requires crc == GeneratorCrc.AsWrittenCrcHex(data)
    ensures data + FieldText(CrcId, crc) == WithAsWrittenChecksum(data)
  {
    ChecksumField(data, crc);
  }

  /** `generate` throws the template's error, or returns the as-written payload
      over the fields. */
  lemma EncodeAsWrittenOk(txn: TransactionData)
    ensures AdditionalFields(txn).Err? ==> EncodeAsWritten(txn) == Err(AdditionalFields(txn).error)
    ensures AdditionalFields(txn).Ok? ==>
              EncodeAsWritten(txn)
              == Ok(WithAsWrittenChecksum(Serialize(PayloadFields(txn, Serialize(AdditionalFields(txn).value)))))
  {
  }

  /** The first part of `generate`: format, method, category, currency, amount,
      country, merchant name and city, each through `addField`. */
  method AddHeaderFields(qr: StringBuilder, txn: TransactionData)
    requires qr.contents == ""
    modifies qr
    ensures qr.contents == Serialize(HeaderFields(txn))
  {
    AddField(qr, PayloadFormatId, PayloadFormat);
    AddField(qr, InitiationMethodId, InitiationMethod);
    var mcc := ValueOr(txn, OutletNumberKey, DefaultMerchantCategoryCode);
    AddField(qr, MerchantCategoryCodeId, mcc);
    var currencyAlpha := ValueOr(txn, CurrencyAlphaKey, DefaultCurrency);
    var currencyNumeric := ConvertCurrencyAlphaToNumeric(currencyAlpha);
    AddField(qr, CurrencyId, currencyNumeric);
    var amount := FormatAmount(ValueOr(txn, AmountKey, DefaultAmount), currencyAlpha);
    AddField(qr, AmountId, amount);
    AddField(qr, CountryCodeId, CountryCode);
    var merchantName := MerchantNameText(ValueOr(txn, OutletNameKey, DefaultMerchantName));
    AddField(qr, MerchantNameId, merchantName);
    var city := City(ValueOr(txn, TerminalAddressKey, ""));
    AddField(qr, MerchantCityId, city);
    SerializeEight("", HeaderFields(txn));
    assert "" + Serialize(HeaderFields(txn)) == Serialize(HeaderFields(txn));
  }

  /** The additional data template's builder: date, time, terminal, reference and
      authorisation code, each added when present. */
  method BuildAdditionalData(txn: TransactionData) returns (r: Result<string, Failure>)
    ensures r.Err? <==> AdditionalFields(txn).Err?
    ensures r.Err? ==> r.error == AdditionalFields(txn).error
    ensures r.Ok? ==> r.value == Serialize(AdditionalFields(txn).value)
  {
    var additional := new StringBuilder();
    ghost var text := additional.contents;
    var date := ValueOr(txn, DateKey, "");
    ghost var formattedDate := "";
    if date != "" {
      var formatted := FormatDate(date);
      if formatted.Err? {
        return Err(formatted.error);
      }
      formattedDate := formatted.value;
      AddField(additional, BillNumberId, formatted.value);
    }
    text := Extended(text, BillNumberId, formattedDate);
    assert additional.contents == text;
    var time := ValueOr(txn, TimeKey, "");
    ghost var formattedTime := "";
    if time != "" {
      var formatted := FormatTime(time);
      formattedTime := formatted;
      AddField(additional, MobileNumberId, formatted);
    }
    text := Extended(text, MobileNumberId, formattedTime);
    assert additional.contents == text;
    var terminalNumber := ValueOr(txn, TerminalNumberKey, "");
    AddFieldIfPresent(additional, StoreLabelId, terminalNumber);
    var reference := ValueOr(txn, ReferenceKey, "");
    AddFieldIfPresent(additional, ReferenceLabelId, reference);
    var authCode := ValueOr(txn, AuthCodeKey, "");
    AddFieldIfPresent(additional, PurposeOfTransactionId, authCode);
    SerializeFive("", AdditionalFields(txn).value);
    assert "" + Serialize(AdditionalFields(txn).value) == Serialize(AdditionalFields(txn).value);
    return Ok(additional.contents);
  }

  /** The last part of `generate` before the checksum: the footer, fee and card data
      fields, each added when present. */
  method AddTrailerFields(qr: StringBuilder, txn: TransactionData)
    modifies qr
    ensures qr.contents == old(qr.contents) + Serialize(TrailerFields(txn))
  {
    var footer := ValueOr(txn, FooterTicketKey, "");
    AddFieldIfPresent(qr, FooterTicketId, footer);
    var interchangeFee := ValueOr(txn, InterchangeFeeKey, "");
    AddFieldIfPresent(qr, InterchangeFeeId, interchangeFee);
    var appName := ValueOr(txn, ApplicationNameKey, "");
    AddFieldIfPresent(qr, ApplicationNameId, appName);
    var tag84 := ValueOr(txn, Tag84Key, "");
    AddFieldIfPresent(qr, Tag84Id, tag84);
    var tag95 := ValueOr(txn, Tag95Key, "");
    AddFieldIfPresent(qr, Tag95Id, tag95);
    var tag9B := ValueOr(txn, Tag9BKey, "");
    AddFieldIfPresent(qr, Tag9BId, tag9B);
    var tag9F10 := ValueOr(txn, Tag9F10Key, "");
    AddFieldIfPresent(qr, Tag9F10Id, tag9F10);
    var signature := ValueOr(txn, SignatureKey, "");
    AddFieldIfPresent(qr, SignatureId, signature);
    var batchNumber := ValueOr(txn, BatchNumberKey, "");
    AddFieldIfPresent(qr, BatchNumberId, batchNumber);
    var receiptNumber := ValueOr(txn, ReceiptNumberKey, "");
    AddFieldIfPresent(qr, ReceiptNumberId, receiptNumber);
    SerializeTen(old(qr.contents), TrailerFields(txn));
  }

  // ------------------------------------------------------------ ASCII data

  /** Every value of the transaction data is ASCII text. */
  predicate AsciiValues(txn: TransactionData) {
    forall k | k in txn :: IsAscii(txn[k])
  }

  /** Ids and values all ASCII. */
  predicate AsciiFields(fields: seq<(string, string)>) {
    forall i | 0 <= i < |fields| :: IsAscii(fields[i].0) && IsAscii(fields[i].1)
  }

  /** `addField` on ASCII ids and values writes ASCII text: its lengths are digits. */
  lemma {:induction false} SerializeAscii(fields: seq<(string, string)>)
    requires AsciiFields(fields)
    ensures IsAscii(Serialize(fields))
  {
    if fields != [] {
      assert AsciiFields(fields[1..]) by {
        assert forall i | 0 <= i < |fields| - 1 :: fields[1..][i] == fields[i + 1];
      }
      SerializeAscii(fields[1..]);
      var f := fields[0];
      if f.1 != "" {
        var digits := FormatTwoDigits(|f.1|);
        assert IsAscii(digits) by {
          assert forall i | 0 <= i < |digits| :: IsDigit(digits[i]);
        }
        AsciiConcat(f.0, digits);
        AsciiConcat(f.0 + digits, f.1);
      }
      AsciiConcat(FieldText(f.0, f.1), Serialize(fields[1..]));
    }
  }

  lemma ValueOrAscii(txn: TransactionData, key: string, default: string)
    requires AsciiValues(txn) && IsAscii(default)
    ensures IsAscii(ValueOr(txn, key, default))
  {
  }

  /** The amount text is digits with an optional '-'. */
  lemma FormatAmountAscii(amount: string, currency: string)
    ensures IsAscii(FormatAmount(amount, currency))
  {
    var s := FormatAmount(amount, currency);
    assert IsLongText(s);
    forall i | 0 <= i < |s| ensures s[i] as int < 0x80 {
      if !IsDigits(s) {
        assert i == 0 || s[i] == s[1..][i - 1];
      }
    }
  }

  /** `formatDate` of ASCII text is ASCII. */
  lemma FormatDateAscii(date: string)
    requires IsAscii(date) && FormatDate(date).Ok?
    ensures IsAscii(FormatDate(date).value)
  {
    var parts := Split(date, '/');
    SplitAscii(date, '/');
    if |parts| >= 3 {
      var year := parts[2][2..4];
      assert IsAscii(year) by {
        assert forall i | 0 <= i < 2 :: year[i] == parts[2][i + 2];
      }
      PadStartAscii(parts[0], 2);
      PadStartAscii(parts[1], 2);
      AsciiConcat(year, PadStartZeros(parts[0], 2));
      AsciiConcat(year + PadStartZeros(parts[0], 2), PadStartZeros(parts[1], 2));
    }
  }

  /** `formatTime` of ASCII text is ASCII. */
  lemma FormatTimeAscii(time: string)
    requires IsAscii(time)
    ensures IsAscii(FormatTime(time))
  {
    RemoveAllAscii(time, ':');
  }

  /** The city taken from an ASCII address is ASCII. */
  lemma CityAscii(address: string)
    requires IsAscii(address)
    ensures IsAscii(City(address))
  {
    if '-' in address {
      var pieces := Split(address, '-');
      SplitAscii(address, '-');
      SplitAscii(pieces[|pieces| - 1], ' ');
    }
  }

  /** The cut merchant name of an ASCII name is ASCII. */
  lemma MerchantNameAscii(name: string)
    requires IsAscii(name)
    ensures IsAscii(MerchantNameText(name))
  {
    var r := MerchantNameText(name);
    assert forall i | 0 <= i < |r| :: r[i] == name[i];
  }

  /** Digits are ASCII. */
  lemma DigitsAscii(s: string)
    requires IsDigits(s)
    ensures IsAscii(s)
  {
    assert forall i | 0 <= i < |s| :: IsDigit(s[i]);
  }

  /** The first eight fields, from ASCII data, are ASCII. */
  lemma HeaderAscii(txn: TransactionData)
    requires AsciiValues(txn)
    ensures AsciiFields(HeaderFields(txn))
  {
    var currency := ValueOr(txn, CurrencyAlphaKey, DefaultCurrency);
    var amount := ValueOr(txn, AmountKey, DefaultAmount);
    var name := ValueOr(txn, OutletNameKey, DefaultMerchantName);
    var address := ValueOr(txn, TerminalAddressKey, "");
    DigitsAscii(DefaultMerchantCategoryCode);
    DefaultNameAscii();
    ValueOrAscii(txn, OutletNumberKey, DefaultMerchantCategoryCode);
    ValueOrAscii(txn, OutletNameKey, DefaultMerchantName);
    ValueOrAscii(txn, TerminalAddressKey, "");
    DigitsAscii(ConvertCurrencyAlphaToNumeric(currency));
    FormatAmountAscii(amount, currency);
    MerchantNameAscii(name);
    CityAscii(address);
    HeaderValuesAscii(ValueOr(txn, OutletNumberKey, DefaultMerchantCategoryCode),
                      ConvertCurrencyAlphaToNumeric(currency),
                      FormatAmount(amount, currency),
                      MerchantNameText(name),
                      City(address));
  }

  /** The header fields around ASCII values are ASCII. */
  lemma HeaderValuesAscii(mcc: string, currency: string, amount: string, name: string, city: string)
    requires IsAscii(mcc) && IsAscii(currency) && IsAscii(amount) && IsAscii(name) && IsAscii(city)
    ensures AsciiFields(HeaderOf(mcc, currency, amount, name, city))
  {
    var fields := HeaderOf(mcc, currency, amount, name, city);
    DigitsAscii(PayloadFormat);
    DigitsAscii(InitiationMethod);
    DigitsAscii(CountryCode);
    forall i | 0 <= i < |fields|
      ensures IsAscii(fields[i].0) && IsAscii(fields[i].1)
    {
      DigitsAscii(fields[i].0);
    }
  }

  lemma DefaultNameAscii()
    ensures IsAscii(DefaultMerchantName)
  {
  }

  /** The additional data fields, from ASCII data, are ASCII. */
  lemma AdditionalAscii(txn: TransactionData)
    requires AsciiValues(txn) && AdditionalFields(txn).Ok?
    ensures AsciiFields(AdditionalFields(txn).value)
  {
    var date := ValueOr(txn, DateKey, "");
    var time := ValueOr(txn, TimeKey, "");
    ValueOrAscii(txn, DateKey, "");
    ValueOrAscii(txn, TimeKey, "");
    ValueOrAscii(txn, TerminalNumberKey, "");
    ValueOrAscii(txn, ReferenceKey, "");
    ValueOrAscii(txn, AuthCodeKey, "");
    FormatDateAscii(date);
    FormatTimeAscii(time);
    var fields := AdditionalFields(txn).value;
    assert fields == [(BillNumberId, FormatDate(date).value), (MobileNumberId, FormatTime(time)),
                      (StoreLabelId, ValueOr(txn, TerminalNumberKey, "")),
                      (ReferenceLabelId, ValueOr(txn, ReferenceKey, "")),
                      (PurposeOfTransactionId, ValueOr(txn, AuthCodeKey, ""))];
    forall i | 0 <= i < |fields|
      ensures IsAscii(fields[i].0) && IsAscii(fields[i].1)
    {
      DigitsAscii(fields[i].0);
    }
  }

  /** The trailing fields, from ASCII data, are ASCII. */
  lemma TrailerAscii(txn: TransactionData)
    requires AsciiValues(txn)
    ensures AsciiFields(TrailerFields(txn))
  {
  }

  /** From ASCII transaction data, `generate` writes only ASCII fields. */
  lemma PayloadAscii(txn: TransactionData)
    requires AsciiValues(txn) && AdditionalFields(txn).Ok?
    ensures IsAscii(Serialize(PayloadFields(txn, Serialize(AdditionalFields(txn).value))))
  {
    var additional := Serialize(AdditionalFields(txn).value);
    AdditionalAscii(txn);
    SerializeAscii(AdditionalFields(txn).value);
    DigitsAscii(AdditionalDataId);
    HeaderAscii(txn);
    TrailerAscii(txn);
    AsciiFieldsConcat(HeaderFields(txn), [(AdditionalDataId, additional)]);
    AsciiFieldsConcat(HeaderFields(txn) + [(AdditionalDataId, additional)], TrailerFields(txn));
    SerializeAscii(PayloadFields(txn, additional));
  }

  lemma AsciiFieldsConcat(f: seq<(string, string)>, g: seq<(string, string)>)
    requires AsciiFields(f) && AsciiFields(g)
    ensures AsciiFields(f + g)
  {
    assert forall i | |f| <= i < |f + g| :: (f + g)[i] == g[i - |f|];
  }

  /** On ASCII transaction data the checksum `generate` writes is the one the decoder
      expects: the generator as written and the corrected one agree. */
  lemma AsciiGenerate(txn: TransactionData)
    requires AsciiValues(txn)
    ensures EncodeAsWritten(txn) == Encode(txn)
  {
    if AdditionalFields(txn).Ok? {
      PayloadAscii(txn);
    }
  }
}
