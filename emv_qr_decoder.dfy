/** The decoding half of EmvQrParser.kt: `parse`, `validateCrc` and the three name
    tables. `parse` runs inside `runCatching`, so every exception its body raises
    becomes the failure of the result; here that is the `Err` branch of `Decode`. */
module EmvQrDecoder {
  import opened Wrappers
  import opened Text
  import opened OrderedMap
  import opened EmvQrModel
  import opened TlvCodec
  import CrcCalculator
  import CurrencyMap

  // Top-level field ids.
  const PayloadFormatId := "00"
  const InitiationMethodId := "01"
  const MerchantCategoryCodeId := "52"
  const CurrencyId := "53"
  const AmountId := "54"
  const CountryCodeId := "58"
  const MerchantNameId := "59"
  const MerchantCityId := "60"
  const AdditionalDataId := "62"
  const CrcId := "63"
  const LanguageTemplateId := "64"

  /** The merchant account range, as numbers: "02".toInt() to "51".toInt(). */
  const AccountIdLow := 2
  const AccountIdHigh := 51

  // Language template field ids, and its open range "03".."99".
  const LanguagePreferenceId := "00"
  const LanguageMerchantNameId := "01"
  const LanguageMerchantCityId := "02"
  const LanguageExtraLow := 3
  const LanguageExtraHigh := 99

  /** The key the decoder looks up for the unreserved templates. It is a
      transaction-data key of the generator, not a two-character id. */
  const FooterTicketKey := "FOOTER_TICKET"

  const UnknownAccountPrefix := "Unknown Merchant Account ("
  const AdditionalFieldPrefix := "Additional Field ("
  const UnreservedPrefix := "Unreserved Templates ("

  // ------------------------------------------------------------ lookups

  /** The position of the first record with the given id. */
  function FindIndex(objs: Records, id: string): (r: Option<nat>)
    ensures r.None? <==> forall i | 0 <= i < |objs| :: objs[i].id != id
    ensures r.Some? ==> r.value < |objs| && objs[r.value].id == id
                        && forall j | 0 <= j < r.value :: objs[j].id != id
  {
    if objs == [] then None
    else if objs[0].id == id then Some(0)
    else
      match FindIndex(objs[1..], id)
      case None => None
      case Some(k) => Some(k + 1)
  }

  /** `find { it.id == id }?.value`. */
  function Find(objs: Records, id: string): (r: Option<string>)
    ensures r.None? <==> forall i | 0 <= i < |objs| :: objs[i].id != id
    ensures r.Some? ==> FindIndex(objs, id).Some? && r.value == objs[FindIndex(objs, id).value].value
  {
    match FindIndex(objs, id)
    case None => None
    case Some(i) => Some(objs[i].value)
  }

  /** `filter { it.id.toInt() in low..high }`. Every id is converted, in order, so the
      first id that is not a number makes the whole filter raise. */
  function FilterById(objs: Records, low: int, high: int): (r: Result<Records, Failure>)
    requires forall i | 0 <= i < |objs| :: |objs[i].id| == 2
    ensures r.Err? ==> r.error.NumberFormat?
    ensures r.Ok? ==> |r.value| <= |objs|
    ensures r.Ok? ==> forall i | 0 <= i < |r.value| ::
              |r.value[i].id| == 2 && ToInt2(r.value[i].id).Some? && low <= ToInt2(r.value[i].id).value <= high
  {
    if objs == [] then Ok([])
    else
      match ToInt2(objs[0].id)
      case None => Err(NumberFormat(objs[0].id))
      case Some(n) =>
        var rest :- FilterById(objs[1..], low, high);
        Ok(if low <= n <= high then [objs[0]] + rest else rest)
  }

  /** The filter raises exactly when some id is not a number; otherwise it keeps
      exactly the records whose ids read as numbers from low to high. */
  lemma {:induction false} FilterByIdMeans(objs: Records, low: int, high: int)
    requires forall i | 0 <= i < |objs| :: |objs[i].id| == 2
    ensures FilterById(objs, low, high).Err? <==> exists i | 0 <= i < |objs| :: ToInt2(objs[i].id).None?
    ensures FilterById(objs, low, high).Err? ==> FilterById(objs, low, high).error.NumberFormat?
    ensures FilterById(objs, low, high).Ok? ==>
              forall o | o in FilterById(objs, low, high).value :: o in objs && low <= ToInt2(o.id).value <= high
    ensures FilterById(objs, low, high).Ok? ==>
              forall i | 0 <= i < |objs| && low <= ToInt2(objs[i].id).value <= high ::
                objs[i] in FilterById(objs, low, high).value
  {
    if objs != [] {
      var tail := objs[1..];
      assert forall i | 0 <= i < |tail| :: tail[i] == objs[i + 1];
      FilterByIdMeans(tail, low, high);
      if ToInt2(objs[0].id).None? {
        assert FilterById(objs, low, high).Err?;
      } else if FilterById(tail, low, high).Err? {
        var j :| 0 <= j < |tail| && ToInt2(tail[j].id).None?;
        assert ToInt2(objs[j + 1].id).None?;
      } else {
        var n := ToInt2(objs[0].id).value;
        var rest := FilterById(tail, low, high).value;
        var kept := FilterById(objs, low, high).value;
        assert kept == if low <= n <= high then [objs[0]] + rest else rest;
        forall i | 0 <= i < |objs|
          ensures ToInt2(objs[i].id).Some?
        {
          if i > 0 {
            assert objs[i] == tail[i - 1];
          }
        }
        forall o | o in kept
          ensures o in objs && low <= ToInt2(o.id).value <= high
        {
          if o != objs[0] {
            assert o in rest;
          }
        }
        forall i | 0 <= i < |objs| && low <= ToInt2(objs[i].id).value <= high
          ensures objs[i] in kept
        {
          if i > 0 {
            assert objs[i] == tail[i - 1];
          }
        }
      }
    }
  }

  /** `getMerchantAccountName`. */
  function MerchantAccountName(id: string): (name: string)
    ensures |name| <= 21 || name == UnknownAccountPrefix + id + ")"
  {
    match id
    case "02" => "Visa"
    case "03" => "Mastercard"
    case "04" => "Amex"
    case "05" => "JCB"
    case "06" => "UnionPay"
    case "07" => "Discover"
    case "08" => "Diners"
    case "09" => "Interac"
    case "10" => "Rupay"
    case "11" => "JCB"
    case "12" => "Mir"
    case "13" => "eftpos"
    case "14" => "Elcart"
    case "15" => "Girogo"
    case "16" => "Maestro UK"
    case "17" => "Maestro"
    case "18" => "Maestro International"
    case "19" => "Maestro Domestic"
    case "20" => "Mastercard Debit"
    case "21" => "Mastercard Credit"
    case "22" => "Visa Electron"
    case "23" => "Visa Debit"
    case "24" => "Visa Credit"
    case "25" => "Visa Dankort"
    case "26" => "Dankort"
    case "27" => "Bancontact"
    case "28" => "Girocard"
    case "29" => "GIM UEMOA"
    case "30" => "Meeza"
    case "31" => "Troy"
    case _ => UnknownAccountPrefix + id + ")"
  }

  /** `getAdditionalDataFieldName`. */
  function AdditionalDataFieldName(id: string): (name: string)
    ensures |name| <= 22 || name == AdditionalFieldPrefix + id + ")"
  {
    match id
    case "01" => "Bill Number"
    case "02" => "Mobile Number"
    case "03" => "Store Label"
    case "04" => "Loyalty Number"
    case "05" => "Reference Label"
    case "06" => "Customer Label"
    case "07" => "Terminal Label"
    case "08" => "Purpose of Transaction"
    case "09" => "Consumer Data Request"
    case "85" => "AID"
    case _ => AdditionalFieldPrefix + id + ")"
  }

  /** `getUnreservedTemplatesDataFieldName`. */
  function UnreservedTemplatesFieldName(id: string): (name: string)
    ensures |name| <= 3 || name == UnreservedPrefix + id + ")"
  {
    match id
    case "85" => "AID"
    case "86" => "TVR"
    case _ => UnreservedPrefix + id + ")"
  }

  // ------------------------------------------------------------ checksum

  /** `validateCrc`: the last four characters, read as hexadecimal in either case,
      must be the CRC-16 of the UTF-8 bytes of everything before them. */
  predicate ValidateCrc(q: string)
    ensures ValidateCrc(q) ==> |q| >= 4 && IsHex(q[|q| - 4..])
  {
    |q| >= 4
    && (HexIgnoreCase(CrcCalculator.CrcHex(q[..|q| - 4]), q[|q| - 4..]);
        EqualsIgnoreCase(CrcCalculator.CrcHex(q[..|q| - 4]), q[|q| - 4..]))
  }

  /** A payload validates exactly when its last four characters are a hexadecimal
      spelling, in either case, of the CRC-16 of the UTF-8 bytes before them. */
  lemma ValidateCrcMeans(q: string)
    ensures ValidateCrc(q) <==> |q| >= 4 && IsHex(q[|q| - 4..])
                                && HexValue(q[|q| - 4..]) == CrcCalculator.Crc16(Utf8Encode(q[..|q| - 4])) as nat
  {
    if |q| >= 4 {
      HexIgnoreCase(CrcCalculator.CrcHex(q[..|q| - 4]), q[|q| - 4..]);
    }
  }

  // ------------------------------------------------------------ sub-templates

  /** The (name, value) pairs the additional data `associate` receives. */
  function NamedPairs(objs: Records): (pairs: seq<(string, string)>)
    ensures |pairs| == |objs|
    ensures forall i | 0 <= i < |objs| :: pairs[i] == (AdditionalDataFieldName(objs[i].id), objs[i].value)
  {
    if objs == [] then [] else [(AdditionalDataFieldName(objs[0].id), objs[0].value)] + NamedPairs(objs[1..])
  }

  /** The unreserved template pairs, named by `getUnreservedTemplatesDataFieldName`. */
  function UnreservedPairs(objs: Records): (pairs: seq<(string, string)>)
    ensures |pairs| == |objs|
    ensures forall i | 0 <= i < |objs| :: pairs[i] == (UnreservedTemplatesFieldName(objs[i].id), objs[i].value)
  {
    if objs == [] then [] else [(UnreservedTemplatesFieldName(objs[0].id), objs[0].value)] + UnreservedPairs(objs[1..])
  }

  /** One merchant account template: its value read as records, keyed by id. */
  function MerchantAccountOf(o: TlvObject): (r: Result<MerchantAccount, Failure>)
    ensures r.Ok? <==> Tokens(o.value).Ok?
    ensures r.Err? ==> r.error == Tokens(o.value).error
    ensures r.Ok? ==> r.value.id == o.id && r.value.name == Some(MerchantAccountName(o.id))
  {
    var sub :- Tokens(o.value);
    Ok(MerchantAccount(o.id, Some(MerchantAccountName(o.id)), Associate(FieldsOf(sub))))
  }

  /** The `map` over the filtered account records; the first template that fails to
      read makes the whole decode fail. */
  function MerchantAccounts(objs: Records): (r: Result<seq<MerchantAccount>, Failure>)
    ensures r.Ok? ==> |r.value| == |objs|
    ensures r.Ok? ==> forall i | 0 <= i < |objs| ::
              r.value[i].id == objs[i].id && r.value[i].name == Some(MerchantAccountName(objs[i].id))
  {
    if objs == [] then Ok([])
    else
      var a :- MerchantAccountOf(objs[0]);
      var rest :- MerchantAccounts(objs[1..]);
      Ok([a] + rest)
  }

  /** The accounts are built exactly when every template reads, one per record. */
  lemma {:induction false} MerchantAccountsOk(objs: Records)
    ensures MerchantAccounts(objs).Ok? <==> forall i | 0 <= i < |objs| :: Tokens(objs[i].value).Ok?
    ensures MerchantAccounts(objs).Ok? ==> |MerchantAccounts(objs).value| == |objs|
  {
    if objs != [] {
      var tail := objs[1..];
      MerchantAccountsOk(tail);
      assert forall i | 1 <= i < |objs| :: tail[i - 1] == objs[i];
    }
  }

  /** Each account is the one its record's template gives. */
  lemma {:induction false} MerchantAccountsEach(objs: Records)
    requires MerchantAccounts(objs).Ok?
    ensures |MerchantAccounts(objs).value| == |objs|
    ensures forall i | 0 <= i < |objs| :: MerchantAccountOf(objs[i]) == Ok(MerchantAccounts(objs).value[i])
  {
    if objs != [] {
      var tail := objs[1..];
      MerchantAccountsEach(tail);
      var a := MerchantAccountOf(objs[0]).value;
      var rest := MerchantAccounts(tail).value;
      assert MerchantAccounts(objs).value == [a] + rest;
      forall i | 0 <= i < |objs|
        ensures MerchantAccountOf(objs[i]) == Ok(MerchantAccounts(objs).value[i])
      {
        if i > 0 {
          assert MerchantAccounts(objs).value[i] == rest[i - 1] && tail[i - 1] == objs[i];
        }
      }
    }
  }

  /** The merchant accounts of the top-level records: those with ids 02 to 51, each
      named after its scheme. */
  function AccountsOf(objs: Records): (r: Result<seq<MerchantAccount>, Failure>)
    requires forall i | 0 <= i < |objs| :: |objs[i].id| == 2
    ensures r.Ok? ==> |r.value| <= |objs|
    ensures r.Ok? ==> forall i | 0 <= i < |r.value| ::
              |r.value[i].id| == 2 && ToInt2(r.value[i].id).Some?
              && AccountIdLow <= ToInt2(r.value[i].id).value <= AccountIdHigh
              && r.value[i].name == Some(MerchantAccountName(r.value[i].id))
  {
    var recs :- FilterById(objs, AccountIdLow, AccountIdHigh);
    MerchantAccounts(recs)
  }

  /** The additional data template: empty when absent, otherwise its records keyed by
      their field names. */
  function AdditionalDataOf(value: Option<string>): (r: Result<StringMap, Failure>)
    ensures value.None? ==> r == Ok([])
    ensures value.Some? ==> (r.Ok? <==> Tokens(value.value).Ok?)
  {
    match value
    case None => Ok([])
    case Some(v) =>
      var sub :- Tokens(v);
      Ok(Associate(NamedPairs(sub)))
  }

  /** The unreserved templates, read the same way as the additional data. */
  function UnreservedTemplatesOf(value: Option<string>): (r: Result<StringMap, Failure>)
    ensures value.None? ==> r == Ok([])
  {
    match value
    case None => Ok([])
    case Some(v) =>
      var sub :- Tokens(v);
      Ok(Associate(UnreservedPairs(sub)))
  }

  /** The language template: preference, local name and city, and the records with ids
      03 to 99; `additionalData` is null when no such record is present. */
  function LanguageTemplateOf(value: Option<string>): (r: Result<Option<LanguageTemplate>, Failure>)
    ensures value.None? ==> r == Ok(None)
    ensures r.Ok? && value.Some? ==> r.value.Some?
  {
    match value
    case None => Ok(None)
    case Some(v) =>
      var sub :- Tokens(v);
      TokensWellFormed(v);
      var extra :- FilterById(sub, LanguageExtraLow, LanguageExtraHigh);
      var extraMap := Associate(FieldsOf(extra));
      Ok(Some(LanguageTemplate(
        Find(sub, LanguagePreferenceId).GetOr(""),
        Find(sub, LanguageMerchantNameId),
        Find(sub, LanguageMerchantCityId),
        if extraMap == [] then None else Some(extraMap))))
  }

  // ------------------------------------------------------------ parse

  /** `parse(qrData)`. The checksum flag never stops decoding; the exceptions of the
      body, in the order the source meets them, do. */
  function Decode(q: string): (r: Result<EmvQrData, Failure>)
    ensures |q| < 4 ==> r == Err(IndexOutOfBounds)
    ensures |q| >= 4 && Tokens(q[..|q| - 4]).Err? ==> r == Err(Tokens(q[..|q| - 4]).error)
    ensures r.Ok? ==> r.value.crcValid == ValidateCrc(q)
    ensures r.Ok? ==> r.value.unreservedTemplates == []
  {
    var crcValid := ValidateCrc(q);
    if |q| < 4 then Err(IndexOutOfBounds)
    else
      match Tokens(q[..|q| - 4])
      case Err(e) => Err(e)
      case Ok(objs) =>
        TokensWellFormed(q[..|q| - 4]);
        DecodeRecords(objs, crcValid)
  }

  /** The part of `parse` after the records are read: the merchant accounts, the
      templates and the plain fields, looked up by id. */
  function DecodeRecords(objs: Records, crcValid: bool): (r: Result<EmvQrData, Failure>)
    requires AllCanonical(objs)
    ensures r.Ok? ==> r.value.crcValid == crcValid && r.value.unreservedTemplates == []
  {
    var accounts :- AccountsOf(objs);
    var additionalData :- AdditionalDataOf(Find(objs, AdditionalDataId));
    match UnreservedTemplatesOf(Find(objs, FooterTicketKey))
    case Err(e) => Err(e)
    case Ok(unreserved) =>
      var template :- LanguageTemplateOf(Find(objs, LanguageTemplateId));
      Ok(EmvQrData(
        Find(objs, PayloadFormatId).GetOr(""),
        Find(objs, InitiationMethodId).GetOr(""),
        accounts,
        CurrencyMap.CurrencyName(Find(objs, CurrencyId).GetOr("")),
        Find(objs, AmountId),
        Find(objs, MerchantNameId).GetOr(""),
        Find(objs, MerchantCityId).GetOr(""),
        Find(objs, CountryCodeId).GetOr(""),
        additionalData,
        unreserved,
        template,
        crcValid))
  }

  // ------------------------------------------------------------ properties

  /** A merchant account id has a scheme name exactly when it is two digits from 02
      to 31; the rest of the 02..51 range, and ids the filter reads with a sign such
      as "+5", come out as "Unknown Merchant Account (id)". */
  lemma MerchantAccountNameKnown(id: string)
    requires |id| == 2
    ensures |MerchantAccountName(id)| <= 21 <==> IsDigits(id) && 2 <= ParseTwoDigits(id).value <= 31
  {
    if IsDigits(id) && 2 <= ParseTwoDigits(id).value <= 31 {
      SchemeIdsNamed(id);
    } else {
      OtherIdsUnknown(id);
    }
  }

  lemma SchemeIdsNamed(id: string)
    requires |id| == 2 && IsDigits(id) && 2 <= ParseTwoDigits(id).value <= 31
    ensures |MerchantAccountName(id)| <= 21
  {
    assert id == [id[0], id[1]];
    if id[0] == '0' {
    } else if id[0] == '1' {
    } else if id[0] == '2' {
    } else {
      assert id[0] == '3';
    }
  }

  lemma OtherIdsUnknown(id: string)
    requires |id| == 2 && !(IsDigits(id) && 2 <= ParseTwoDigits(id).value <= 31)
    ensures MerchantAccountName(id) == UnknownAccountPrefix + id + ")"
  {
    assert id == [id[0], id[1]];
  }

  /** The id an additional data field name was made from. */
  function AdditionalDataFieldId(name: string): string {
    match name
    case "Bill Number" => "01"
    case "Mobile Number" => "02"
    case "Store Label" => "03"
    case "Loyalty Number" => "04"
    case "Reference Label" => "05"
    case "Customer Label" => "06"
    case "Terminal Label" => "07"
    case "Purpose of Transaction" => "08"
    case "Consumer Data Request" => "09"
    case "AID" => "85"
    case _ =>
      if |name| > |AdditionalFieldPrefix| then name[|AdditionalFieldPrefix|..|name| - 1] else name
  }

  /** Every additional data field name leads back to its id. */
  lemma AdditionalDataFieldNameInverse(id: string)
    ensures AdditionalDataFieldId(AdditionalDataFieldName(id)) == id
  {
    match id
    case "01" => case "02" => case "03" => case "04" => case "05" =>
    case "06" => case "07" => case "08" => case "09" => case "85" =>
    case _ =>
      var name := AdditionalDataFieldName(id);
      assert name == AdditionalFieldPrefix + id + ")";
      assert name[0] == 'A' && name[1] == 'd' && |name| >= 19;
      assert name[|AdditionalFieldPrefix|..|name| - 1] == id;
  }

  /** Different additional data ids get different names, so naming the records
      before `associate` merges no two ids. */
  lemma AdditionalDataFieldNameInjective(a: string, b: string)
    requires AdditionalDataFieldName(a) == AdditionalDataFieldName(b)
    ensures a == b
  {
    AdditionalDataFieldNameInverse(a);
    AdditionalDataFieldNameInverse(b);
  }

  /** Looking up the pairs by name is looking up the records by id. */
  lemma {:induction false} NamedLastValue(objs: Records, id: string)
    ensures LastValue(NamedPairs(objs), AdditionalDataFieldName(id)) == LastValue(FieldsOf(objs), id)
  {
    if objs != [] {
      var n := |objs| - 1;
      assert NamedPairs(objs)[..n] == NamedPairs(objs[..n]);
      assert FieldsOf(objs)[..n] == FieldsOf(objs[..n]);
      NamedLastValue(objs[..n], id);
      if AdditionalDataFieldName(objs[n].id) == AdditionalDataFieldName(id) {
        AdditionalDataFieldNameInjective(objs[n].id, id);
      }
    }
  }

  /** The filter keeps the order of its input: filtering two runs of records one
      after the other is filtering each and putting the results one after the other. */
  lemma {:induction false} FilterByIdAppend(a: Records, b: Records, low: int, high: int)
    requires forall i | 0 <= i < |a| :: |a[i].id| == 2
    requires forall i | 0 <= i < |b| :: |b[i].id| == 2
    ensures FilterById(a + b, low, high).Ok? <==> FilterById(a, low, high).Ok? && FilterById(b, low, high).Ok?
    ensures FilterById(a + b, low, high).Ok? ==>
              FilterById(a + b, low, high).value == FilterById(a, low, high).value + FilterById(b, low, high).value
  {
    if a == [] {
      assert a + b == b;
    } else {
      var ab := a + b;
      var tail := a[1..];
      assert ab[0] == a[0] && ab[1..] == tail + b;
      assert forall i | 0 <= i < |tail| :: tail[i] == a[i + 1];
      FilterByIdAppend(tail, b, low, high);
      if ToInt2(a[0].id).Some? && FilterById(tail + b, low, high).Ok? {
        var n := ToInt2(a[0].id).value;
        var ra := FilterById(tail, low, high).value;
        var rb := FilterById(b, low, high).value;
        assert FilterById(ab, low, high).value == if low <= n <= high then [a[0]] + (ra + rb) else ra + rb;
        assert FilterById(a, low, high).value == if low <= n <= high then [a[0]] + ra else ra;
      }
    }
  }

  /** A merchant account template names its scheme after the record's id and maps
      every sub-id to the value of the last sub-record with that id. */
  lemma MerchantAccountFields(o: TlvObject, id: string)
    requires Tokens(o.value).Ok?
    ensures MerchantAccountOf(o).Ok?
    ensures MerchantAccountOf(o).value.id == o.id
    ensures MerchantAccountOf(o).value.name == Some(MerchantAccountName(o.id))
    ensures Get(MerchantAccountOf(o).value.fields, id) == LastValue(FieldsOf(Tokens(o.value).value), id)
  {
    AssociateLastWins(FieldsOf(Tokens(o.value).value), id);
  }

  /** The language template read from a value whose records all have numeric ids:
      the preference is the first 00 record's value ("" when absent), the local name
      and city are the first 01 and 02 records' values (null when absent), and the
      extra data is null exactly when no record's id is from 03 to 99. A record id
      that is not a number makes reading the template fail. */
  lemma LanguageTemplateRead(v: string)
    requires Tokens(v).Ok?
    ensures var sub := Tokens(v).value;
            LanguageTemplateOf(Some(v)).Ok? <==> forall i | 0 <= i < |sub| :: |sub[i].id| == 2 && ToInt2(sub[i].id).Some?
    ensures var sub := Tokens(v).value;
            LanguageTemplateOf(Some(v)).Ok? ==>
              var t := LanguageTemplateOf(Some(v)).value.value;
              t.languagePreference == Find(sub, LanguagePreferenceId).GetOr("")
              && t.merchantName == Find(sub, LanguageMerchantNameId)
              && t.merchantCity == Find(sub, LanguageMerchantCityId)
              && (t.additionalData.None? <==>
                    forall i | 0 <= i < |sub| :: !(LanguageExtraLow <= ToInt2(sub[i].id).value <= LanguageExtraHigh))
  {
    var sub := Tokens(v).value;
    TokensWellFormed(v);
    LanguageTemplateOk(v, sub);
    if forall i | 0 <= i < |sub| :: ToInt2(sub[i].id).Some? {
      LanguageTemplateFields(v, sub);
    }
  }

  /** The language template is read exactly when every record id is a number. */
  lemma LanguageTemplateOk(v: string, sub: Records)
    requires Tokens(v) == Ok(sub) && forall i | 0 <= i < |sub| :: |sub[i].id| == 2
    ensures LanguageTemplateOf(Some(v)).Ok? <==> forall i | 0 <= i < |sub| :: ToInt2(sub[i].id).Some?
  {
    FilterByIdMeans(sub, LanguageExtraLow, LanguageExtraHigh);
  }

  /** The fields of the language template, when every record id is a number. */
  lemma LanguageTemplateFields(v: string, sub: Records)
    requires Tokens(v) == Ok(sub) && forall i | 0 <= i < |sub| :: |sub[i].id| == 2
    requires forall i | 0 <= i < |sub| :: ToInt2(sub[i].id).Some?
    ensures LanguageTemplateOf(Some(v)).Ok?
    ensures var t := LanguageTemplateOf(Some(v)).value.value;
            t.languagePreference == Find(sub, LanguagePreferenceId).GetOr("")
            && t.merchantName == Find(sub, LanguageMerchantNameId)
            && t.merchantCity == Find(sub, LanguageMerchantCityId)
            && (t.additionalData.None? <==>
                  forall i | 0 <= i < |sub| :: !(LanguageExtraLow <= ToInt2(sub[i].id).value <= LanguageExtraHigh))
  {
    FilterByIdMeans(sub, LanguageExtraLow, LanguageExtraHigh);
    var extra := FilterById(sub, LanguageExtraLow, LanguageExtraHigh).value;
    AssociateEmpty(FieldsOf(extra));
    if extra != [] {
      assert extra[0] in extra;
    }
  }

  /** Every field of the additional data template is found under its name, holding
      the value of the last record with its id. */
  lemma AdditionalDataLookup(value: string, id: string)
    requires Tokens(value).Ok?
    ensures AdditionalDataOf(Some(value)).Ok?
    ensures Get(AdditionalDataOf(Some(value)).value, AdditionalDataFieldName(id))
            == LastValue(FieldsOf(Tokens(value).value), id)
  {
    var sub := Tokens(value).value;
    AssociateLastWins(NamedPairs(sub), AdditionalDataFieldName(id));
    NamedLastValue(sub, id);
  }

  /** Every record whose id reads as a number from 2 to 51 gives an account. */
  lemma AccountsComplete(objs: Records)
    requires forall i | 0 <= i < |objs| :: |objs[i].id| == 2
    requires AccountsOf(objs).Ok?
    ensures forall o | o in objs :: ToInt2(o.id).Some?
    ensures forall o | o in objs && AccountIdLow <= ToInt2(o.id).value <= AccountIdHigh ::
              exists a | a in AccountsOf(objs).value :: a.id == o.id
  {
    var recs := FilterById(objs, AccountIdLow, AccountIdHigh).value;
    FilterByIdMeans(objs, AccountIdLow, AccountIdHigh);
    MerchantAccountsEach(recs);
    var accounts := MerchantAccounts(recs).value;
    forall o | o in objs && AccountIdLow <= ToInt2(o.id).value <= AccountIdHigh
      ensures exists a | a in accounts :: a.id == o.id
    {
      var k :| 0 <= k < |objs| && objs[k] == o;
      assert o in recs;
      var i :| 0 <= i < |recs| && recs[i] == o;
      assert accounts[i] in accounts;
    }
  }

  /** A payload that decodes is at least four characters long, the text before its
      checksum digits reads as records, and the rest of decoding works on those. */
  lemma DecodeReads(q: string)
    requires Decode(q).Ok?
    ensures |q| >= 4 && Tokens(q[..|q| - 4]).Ok?
    ensures AllCanonical(Tokens(q[..|q| - 4]).value)
    ensures Decode(q) == DecodeRecords(Tokens(q[..|q| - 4]).value, ValidateCrc(q))
  {
    TokensWellFormed(q[..|q| - 4]);
  }

  /** What `parse` reads from any records: each single field is the value of the
      first record with its id, "" when there is none (and null for the amount); the
      accounts, the additional data and the language template are the decodes of
      their records; the checksum verdict is carried through. */
  lemma DecodeFields(objs: Records, crcValid: bool)
    requires AllCanonical(objs) && DecodeRecords(objs, crcValid).Ok?
    ensures forall i | 0 <= i < |objs| :: |objs[i].id| == 2
    ensures var d := DecodeRecords(objs, crcValid).value;
            d.payloadFormat == Find(objs, PayloadFormatId).GetOr("")
            && d.initiationMethod == Find(objs, InitiationMethodId).GetOr("")
            && d.merchantAccountInfo == AccountsOf(objs).value
            && d.currency == CurrencyMap.CurrencyName(Find(objs, CurrencyId).GetOr(""))
            && d.amount == Find(objs, AmountId)
            && d.merchantName == Find(objs, MerchantNameId).GetOr("")
            && d.merchantCity == Find(objs, MerchantCityId).GetOr("")
            && d.countryCode == Find(objs, CountryCodeId).GetOr("")
            && d.additionalData == AdditionalDataOf(Find(objs, AdditionalDataId)).value
            && d.unreservedTemplates == []
            && d.languageTemplate == LanguageTemplateOf(Find(objs, LanguageTemplateId)).value
            && d.crcValid == crcValid
  {
    NoUnreservedRecord(objs);
  }

  /** The unreserved templates are looked up under a key no two-character id equals. */
  lemma NoUnreservedRecord(objs: Records)
    requires AllCanonical(objs)
    ensures Find(objs, FooterTicketKey) == None
  {
    assert forall i | 0 <= i < |objs| :: objs[i].id != FooterTicketKey by {
      assert |FooterTicketKey| == 13;
    }
  }

  /** The record-level decode fails exactly when the accounts, the additional data or
      the language template cannot be read, and with the first of those failures in
      the order the source meets them. */
  lemma DecodeRecordsOk(objs: Records, crcValid: bool)
    requires AllCanonical(objs)
    ensures forall i | 0 <= i < |objs| :: |objs[i].id| == 2
    ensures var accounts := AccountsOf(objs);
            var additional := AdditionalDataOf(Find(objs, AdditionalDataId));
            var template := LanguageTemplateOf(Find(objs, LanguageTemplateId));
            var r := DecodeRecords(objs, crcValid);
            (r.Ok? <==> accounts.Ok? && additional.Ok? && template.Ok?)
            && (r.Err? ==> r.error == if accounts.Err? then accounts.error
                                      else if additional.Err? then additional.error
                                      else template.error)
  {
    NoUnreservedRecord(objs);
  }

  /** The checksum verdict never stops decoding: the records decode, or fail, the same
      whatever the verdict, which is the only field it sets. */
  lemma ChecksumNeverAborts(objs: Records, a: bool, b: bool)
    requires AllCanonical(objs)
    ensures DecodeRecords(objs, a).Ok? <==> DecodeRecords(objs, b).Ok?
    ensures DecodeRecords(objs, a).Err? ==> DecodeRecords(objs, b) == DecodeRecords(objs, a)
    ensures DecodeRecords(objs, a).Ok? ==>
              DecodeRecords(objs, b) == Ok(DecodeRecords(objs, a).value.(crcValid := b))
  {
    NoUnreservedRecord(objs);
    var accounts := AccountsOf(objs);
    var additional := AdditionalDataOf(Find(objs, AdditionalDataId));
    var template := LanguageTemplateOf(Find(objs, LanguageTemplateId));
    if accounts.Ok? && additional.Ok? && template.Ok? {
      assert DecodeRecords(objs, a).Ok? && DecodeRecords(objs, b).Ok?;
    }
  }

  /** Replacing a payload's last four characters, the checksum digits, changes at
      most its `crcValid` flag: `parse` succeeds or fails the same way. */
  lemma ChecksumDigitsOnlyFlag(q: string, hex: string)
    requires |q| >= 4 && |hex| == 4
    ensures var q2 := q[..|q| - 4] + hex;
            (Decode(q).Err? ==> Decode(q2) == Decode(q))
            && (Decode(q).Ok? ==> Decode(q2) == Ok(Decode(q).value.(crcValid := ValidateCrc(q2))))
  {
    var q2 := q[..|q| - 4] + hex;
    assert q2[..|q2| - 4] == q[..|q| - 4];
    var body := q[..|q| - 4];
    TokensWellFormed(body);
    if Tokens(body).Ok? {
      ChecksumNeverAborts(Tokens(body).value, ValidateCrc(q), ValidateCrc(q2));
    }
  }

  /** The decoded merchant accounts are the accounts of the records. */
  lemma DecodeAccounts(objs: Records, crcValid: bool)
    requires AllCanonical(objs) && DecodeRecords(objs, crcValid).Ok?
    ensures AccountsOf(objs) == Ok(DecodeRecords(objs, crcValid).value.merchantAccountInfo)
  {
  }
}
