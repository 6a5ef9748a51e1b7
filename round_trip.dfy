/** `parse(generate(data))`: what the decoder of EmvQrParser.kt reads back from the
    payload its own generator writes. */
module RoundTrip {
  import opened Wrappers
  import opened Text
  import opened OrderedMap
  import opened EmvQrModel
  import opened TlvCodec
  import opened EmvQrDecoder
  import opened EmvQrEncoder
  import CurrencyMap
  import GeneratorCrc

  // ------------------------------------------------------------ written records

  /** The fields `addField` actually writes: those with a value, in order. */
  function Present(fields: seq<(string, string)>): (r: seq<(string, string)>)
    ensures |r| <= |fields|
    ensures forall i | 0 <= i < |r| :: r[i] in fields && r[i].1 != ""
  {
    if fields == [] then []
    else if fields[0].1 == "" then Present(fields[1..])
    else [fields[0]] + Present(fields[1..])
  }

  /** Two-character ids and values short enough for a two-digit length. */
  predicate Fits(fields: seq<(string, string)>) {
    forall i | 0 <= i < |fields| :: |fields[i].0| == 2 && |fields[i].1| <= 99
  }

  /** Leaving out the empty fields changes nothing in the text: `addField` writes
      nothing for them. */
  lemma {:induction false} SerializePresent(fields: seq<(string, string)>)
    ensures Serialize(Present(fields)) == Serialize(fields)
  {
    if fields != [] {
      var rest := Present(fields[1..]);
      SerializePresent(fields[1..]);
      if fields[0].1 == "" {
        assert Serialize(fields) == "" + Serialize(fields[1..]);
      } else {
        assert ([fields[0]] + rest)[1..] == rest;
      }
    }
  }

  /** The written fields are ones the reader takes back one for one. */
  lemma {:induction false} PresentEncodable(fields: seq<(string, string)>)
    requires Fits(fields)
    ensures Encodable(Present(fields))
  {
    if fields != [] {
      var rest := Present(fields[1..]);
      assert Fits(fields[1..]) by {
        assert forall i | 0 <= i < |fields| - 1 :: fields[1..][i] == fields[i + 1];
      }
      PresentEncodable(fields[1..]);
      if fields[0].1 != "" {
        var r := [fields[0]] + rest;
        assert forall i | 1 <= i < |r| :: r[i] == rest[i - 1];
      }
    }
  }

  /** Text that writes nothing wrote no field. */
  lemma {:induction false} NothingPresent(fields: seq<(string, string)>)
    ensures Serialize(fields) == "" ==> Present(fields) == []
  {
    if fields != [] {
      NothingPresent(fields[1..]);
    }
  }

  /** Reading written text: the written fields come back as records, one each. */
  lemma ReadWritten(fields: seq<(string, string)>, tail: string)
    requires Fits(fields)
    ensures Tokens(Serialize(fields) + tail) == Prepend(RecordsOf(Present(fields)), Tokens(tail))
  {
    SerializePresent(fields);
    PresentEncodable(fields);
    TokensSerialize(Present(fields), tail);
  }

  /** The records of a field in front of other fields. */
  lemma RecordsCons(f: (string, string), fields: seq<(string, string)>)
    ensures RecordsOf([f] + fields) == [TlvObject(f.0, |f.1|, f.1, [])] + RecordsOf(fields)
  {
    assert ([f] + fields)[1..] == fields;
  }

  /** Looking up an id in records with one more in front. */
  lemma FindCons(o: TlvObject, objs: Records, id: string)
    ensures Find([o] + objs, id) == if o.id == id then Some(o.value) else Find(objs, id)
  {
    assert ([o] + objs)[1..] == objs;
  }

  /** An id no field carries is not found among the written records. */
  lemma {:induction false} FindAbsent(fields: seq<(string, string)>, id: string)
    requires forall j | 0 <= j < |fields| :: fields[j].0 != id
    ensures Find(RecordsOf(Present(fields)), id) == None
  {
    if fields != [] {
      var rest := fields[1..];
      assert forall j | 0 <= j < |rest| :: rest[j] == fields[j + 1];
      FindAbsent(rest, id);
      if fields[0].1 != "" {
        RecordsCons(fields[0], Present(rest));
        FindCons(TlvObject(fields[0].0, |fields[0].1|, fields[0].1, []), RecordsOf(Present(rest)), id);
      }
    }
  }

  /** An id exactly one field carries is found with that field's value, or not at
      all when the value was empty and so never written. */
  lemma {:induction false} FindPresent(fields: seq<(string, string)>, i: nat)
    requires i < |fields|
    requires forall j | 0 <= j < |fields| && j != i :: fields[j].0 != fields[i].0
    ensures Find(RecordsOf(Present(fields)), fields[i].0)
              == if fields[i].1 == "" then None else Some(fields[i].1)
  {
    var rest := fields[1..];
    var id := fields[i].0;
    assert forall j | 0 <= j < |rest| :: rest[j] == fields[j + 1];
    if i == 0 {
      if fields[0].1 == "" {
        FindAbsent(rest, id);
      } else {
        RecordsCons(fields[0], Present(rest));
        FindCons(TlvObject(id, |fields[0].1|, fields[0].1, []), RecordsOf(Present(rest)), id);
      }
    } else {
      FindPresent(rest, i - 1);
      if fields[0].1 != "" {
        RecordsCons(fields[0], Present(rest));
        FindCons(TlvObject(fields[0].0, |fields[0].1|, fields[0].1, []), RecordsOf(Present(rest)), id);
      }
    }
  }

  // ------------------------------------------------------------ the ids written

  /** Those ids read as numbers by `toInt()`. */
  const PayloadIdNumbers: seq<int> := [0, 1, 52, 53, 54, 58, 59, 60, 62, 80, 81, 82, 85, 86, 88, 87, 89, 83, 84]

  lemma HeaderIdsAt(fields: seq<(string, string)>)
    requires |fields| == |HeaderIds|
    requires fields[0].0 == PayloadFormatId
    requires fields[1].0 == InitiationMethodId
    requires fields[2].0 == MerchantCategoryCodeId
    requires fields[3].0 == CurrencyId
    requires fields[4].0 == AmountId
    requires fields[5].0 == CountryCodeId
    requires fields[6].0 == MerchantNameId
    requires fields[7].0 == MerchantCityId
    ensures HasIds(fields, HeaderIds)
  {
  }

  /** The header fields for any values: their ids, and where each value sits. */
  lemma HeaderLayout(mcc: string, currency: string, amount: string, name: string, address: string)
    ensures var h := [(PayloadFormatId, PayloadFormat), (InitiationMethodId, InitiationMethod),
                      (MerchantCategoryCodeId, mcc), (CurrencyId, ConvertCurrencyAlphaToNumeric(currency)),
                      (AmountId, FormatAmount(amount, currency)), (CountryCodeId, CountryCode),
                      (MerchantNameId, MerchantNameText(name)), (MerchantCityId, City(address))];
            HasIds(h, HeaderIds) && h[0].1 == PayloadFormat && h[1].1 == InitiationMethod
            && h[3].1 == ConvertCurrencyAlphaToNumeric(currency) && h[4].1 == FormatAmount(amount, currency)
            && h[5].1 == CountryCode && h[6].1 == MerchantNameText(name) && h[7].1 == City(address)
  {
    var h := [(PayloadFormatId, PayloadFormat), (InitiationMethodId, InitiationMethod),
              (MerchantCategoryCodeId, mcc), (CurrencyId, ConvertCurrencyAlphaToNumeric(currency)),
              (AmountId, FormatAmount(amount, currency)), (CountryCodeId, CountryCode),
              (MerchantNameId, MerchantNameText(name)), (MerchantCityId, City(address))];
    HeaderIdsAt(h);
  }

  /** The header fields of a transaction: their ids, and the values `generate`
      computes for them. */
  lemma HeaderFieldIds(txn: TransactionData)
    ensures var h := HeaderFields(txn);
            var currency := ValueOr(txn, CurrencyAlphaKey, DefaultCurrency);
            HasIds(h, HeaderIds) && h[0].1 == PayloadFormat && h[1].1 == InitiationMethod
            && h[3].1 == ConvertCurrencyAlphaToNumeric(currency)
            && h[4].1 == FormatAmount(ValueOr(txn, AmountKey, DefaultAmount), currency)
            && h[5].1 == CountryCode && h[6].1 == MerchantNameText(ValueOr(txn, OutletNameKey, DefaultMerchantName))
            && h[7].1 == City(ValueOr(txn, TerminalAddressKey, ""))
  {
    HeaderLayout(ValueOr(txn, OutletNumberKey, DefaultMerchantCategoryCode), ValueOr(txn, CurrencyAlphaKey, DefaultCurrency),
                 ValueOr(txn, AmountKey, DefaultAmount), ValueOr(txn, OutletNameKey, DefaultMerchantName),
                 ValueOr(txn, TerminalAddressKey, ""));
  }

  lemma PayloadIdsNumeric()
    ensures |PayloadIdNumbers| == |PayloadIds|
    ensures forall i | 0 <= i < |PayloadIds| :: |PayloadIds[i]| == 2 && ToInt2(PayloadIds[i]) == Some(PayloadIdNumbers[i])
  {
  }

  /** No id is written twice. */
  lemma PayloadIdsDistinct()
    ensures forall j, k | 0 <= j < |PayloadIds| && 0 <= k < |PayloadIds| && j != k :: PayloadIds[j] != PayloadIds[k]
  {
    PayloadIdsNumeric();
    IdNumbersDistinct();
    forall j, k | 0 <= j < |PayloadIds| && 0 <= k < |PayloadIds| && j != k
      ensures PayloadIds[j] != PayloadIds[k]
    {
      assert ToInt2(PayloadIds[j]) != ToInt2(PayloadIds[k]);
    }
  }

  lemma IdNumbersDistinct()
    ensures forall j, k | 0 <= j < |PayloadIdNumbers| && 0 <= k < |PayloadIdNumbers| && j != k ::
              PayloadIdNumbers[j] != PayloadIdNumbers[k]
  {
  }

  // ------------------------------------------------------------ reading back

  /** Values short enough for the two-digit length `addField` writes. */
  predicate ShortValues(fields: seq<(string, string)>) {
    forall i | 0 <= i < |fields| :: |fields[i].1| <= 99
  }

  /** Records taken back from encodable fields are records as the reader builds them. */
  lemma RecordsCanonical(fields: seq<(string, string)>)
    requires Encodable(fields)
    ensures AllCanonical(RecordsOf(fields))
  {
  }

  /** The text before a checksum field reads as the written fields: the header
      "6304" of the checksum field stops the reader. */
  lemma ReadPayload(fields: seq<(string, string)>, hex: string)
    requires Fits(fields) && |hex| == 4
    ensures var q := Serialize(fields) + GeneratorCrc.ChecksumHeader + hex;
            |q| >= 4 && q[..|q| - 4] == Serialize(fields) + GeneratorCrc.ChecksumHeader
            && Tokens(q[..|q| - 4]) == Ok(RecordsOf(Present(fields)))
  {
    var q := Serialize(fields) + GeneratorCrc.ChecksumHeader + hex;
    assert q[..|q| - 4] == Serialize(fields) + GeneratorCrc.ChecksumHeader;
    ReadWritten(fields, GeneratorCrc.ChecksumHeader);
    ChecksumHeaderStops();
    assert RecordsOf(Present(fields)) + [] == RecordsOf(Present(fields));
  }

  /** Written fields whose ids all read as numbers outside 02..51 give no merchant
      account. */
  lemma NoAccounts(fields: seq<(string, string)>)
    requires Fits(fields)
    requires forall j | 0 <= j < |fields| ::
               ToInt2(fields[j].0).Some? && !(AccountIdLow <= ToInt2(fields[j].0).value <= AccountIdHigh)
    ensures var objs := RecordsOf(Present(fields));
            (forall i | 0 <= i < |objs| :: |objs[i].id| == 2) && EmvQrDecoder.AccountsOf(objs) == Ok([])
  {
    var objs := RecordsOf(Present(fields));
    PresentEncodable(fields);
    assert forall i | 0 <= i < |objs| ::
             |objs[i].id| == 2 && ToInt2(objs[i].id).Some? && !(AccountIdLow <= ToInt2(objs[i].id).value <= AccountIdHigh)
    by {
      forall i | 0 <= i < |objs|
        ensures |objs[i].id| == 2 && ToInt2(objs[i].id).Some?
                && !(AccountIdLow <= ToInt2(objs[i].id).value <= AccountIdHigh)
      {
        var j :| 0 <= j < |fields| && fields[j] == Present(fields)[i];
      }
    }
    FilterByIdMeans(objs, AccountIdLow, AccountIdHigh);
  }

  /** `parse` of records with no merchant account, no language template and no
      unreserved template: each plain field is the first record with its id, and an
      absent one reads as empty. */
  lemma DecodeWithoutTemplates(objs: Records, crcValid: bool, format: string, initiation: string,
                               currency: string, amount: Option<string>, name: string,
                               city: string, country: string, additional: StringMap)
    requires AllCanonical(objs)
    requires EmvQrDecoder.AccountsOf(objs) == Ok([])
    requires Find(objs, FooterTicketKey) == None && Find(objs, LanguageTemplateId) == None
    requires AdditionalDataOf(Find(objs, AdditionalDataId)) == Ok(additional)
    requires Find(objs, PayloadFormatId).GetOr("") == format
    requires Find(objs, InitiationMethodId).GetOr("") == initiation
    requires Find(objs, CurrencyId).GetOr("") == currency
    requires Find(objs, AmountId) == amount
    requires Find(objs, MerchantNameId).GetOr("") == name
    requires Find(objs, MerchantCityId).GetOr("") == city
    requires Find(objs, CountryCodeId).GetOr("") == country
    ensures DecodeRecords(objs, crcValid) == Ok(EmvQrData(
              format, initiation, [], CurrencyMap.CurrencyName(currency), amount, name, city, country,
              additional, [], None, crcValid))
  {
  }

  // ------------------------------------------------------------ generate, then parse

  /** Every value `generate` writes, the additional data template's text included,
      fits a two-digit length, and the date could be cut. */
  predicate ValuesFit(txn: TransactionData) {
    AdditionalFields(txn).Ok?
    && ShortValues(AdditionalFields(txn).value)
    && ShortValues(PayloadFields(txn, Serialize(AdditionalFields(txn).value)))
  }

  /** The numbers the written ids stand for: none is a merchant account id (02..51)
      or the language template's 64. */
  lemma IdNumbersOutside()
    ensures forall j | 0 <= j < |PayloadIdNumbers| ::
              !(AccountIdLow <= PayloadIdNumbers[j] <= AccountIdHigh) && PayloadIdNumbers[j] != 64
  {
  }

  /** Fields carrying the ids `generate` writes, with short values, are ones the
      reader takes back, and none of them is a merchant account or a language
      template. */
  lemma PayloadFits(fields: seq<(string, string)>)
    requires HasIds(fields, PayloadIds) && ShortValues(fields)
    ensures Fits(fields)
    ensures forall j | 0 <= j < |fields| ::
              ToInt2(fields[j].0) == Some(PayloadIdNumbers[j])
              && !(AccountIdLow <= PayloadIdNumbers[j] <= AccountIdHigh) && PayloadIdNumbers[j] != 64
  {
    PayloadIdsNumeric();
    IdNumbersOutside();
  }

  /** The additional data template's fields have two-character ids. */
  lemma AdditionalFits(txn: TransactionData)
    requires AdditionalFields(txn).Ok? && ShortValues(AdditionalFields(txn).value)
    ensures Fits(AdditionalFields(txn).value)
  {
  }

  /** Parsing the generated payload reads the written records, and its checksum
      passes. */
  lemma DecodeGenerated(txn: TransactionData)
    requires ValuesFit(txn)
    ensures Encode(txn).Ok?
    ensures var objs := RecordsOf(Present(PayloadFields(txn, Serialize(AdditionalFields(txn).value))));
            AllCanonical(objs) && Decode(Encode(txn).value) == DecodeRecords(objs, true)
  {
    var additional := AdditionalFields(txn).value;
    var fields := PayloadFields(txn, Serialize(additional));
    var data := Serialize(fields);
    PayloadFits(fields);
    assert Encode(txn) == Ok(WithChecksum(data));
    var q := WithChecksum(data);
    ReadPayload(fields, Checksum(data));
    PresentEncodable(fields);
    RecordsCanonical(Present(fields));
    assert ValidateCrc(q);
  }

  /** Records written with the ids of `generate` hold no merchant account, no
      unreserved template and no language template. */
  lemma WrittenNoTemplates(fields: seq<(string, string)>)
    requires HasIds(fields, PayloadIds) && ShortValues(fields)
    ensures var objs := RecordsOf(Present(fields));
            (forall i | 0 <= i < |objs| :: |objs[i].id| == 2)
            && EmvQrDecoder.AccountsOf(objs) == Ok([])
            && Find(objs, FooterTicketKey) == None && Find(objs, LanguageTemplateId) == None
  {
    PayloadFits(fields);
    NoAccounts(fields);
    FindAbsent(fields, FooterTicketKey);
    assert ToInt2(LanguageTemplateId) == Some(64);
    FindAbsent(fields, LanguageTemplateId);
  }

  /** The first record with the id of the k-th field `generate` writes is that
      field, unless its value is empty and it was skipped. */
  lemma WrittenFind(fields: seq<(string, string)>, k: int, id: string)
    requires HasIds(fields, PayloadIds) && 0 <= k < |fields| && PayloadIds[k] == id
    ensures Find(RecordsOf(Present(fields)), id)
            == if fields[k].1 == "" then None else Some(fields[k].1)
  {
    PayloadIdsDistinct();
    FindPresent(fields, k);
  }

  /** Where `generate` writes the fields the reader looks up by id. */
  lemma PayloadIdsAt()
    ensures |PayloadIds| == 19
    ensures PayloadIds[0] == PayloadFormatId && PayloadIds[1] == InitiationMethodId
            && PayloadIds[3] == CurrencyId && PayloadIds[4] == AmountId
            && PayloadIds[5] == CountryCodeId && PayloadIds[6] == MerchantNameId
            && PayloadIds[7] == MerchantCityId && PayloadIds[8] == AdditionalDataId
  {
  }

  /** The text of a template written from fields with short values, read back as the
      additional data template, holds those fields keyed by their names; an empty
      text, which `generate` leaves out, reads as an empty template. */
  lemma TemplateReads(additional: seq<(string, string)>)
    requires Fits(additional)
    ensures var a := Serialize(additional);
            AdditionalDataOf(if a == "" then None else Some(a))
            == Ok(Associate(NamedPairs(RecordsOf(Present(additional)))))
  {
    var a := Serialize(additional);
    if a == "" {
      NothingPresent(additional);
      assert Associate(NamedPairs(RecordsOf(Present(additional)))) == [];
    } else {
      ReadWritten(additional, "");
      assert a + "" == a;
      assert RecordsOf(Present(additional)) + [] == RecordsOf(Present(additional));
    }
  }

  /** The records written with the ids of `generate` are ones the reader produces. */
  lemma WrittenCanonical(fields: seq<(string, string)>)
    requires HasIds(fields, PayloadIds) && ShortValues(fields)
    ensures AllCanonical(RecordsOf(Present(fields)))
  {
    PayloadFits(fields);
    PresentEncodable(fields);
    RecordsCanonical(Present(fields));
  }

  /** The additional data template of records written with the ids of `generate`
      reads as the fields written into it. */
  lemma WrittenAdditionalData(fields: seq<(string, string)>, additional: seq<(string, string)>)
    requires HasIds(fields, PayloadIds) && Fits(additional)
    requires fields[8].1 == Serialize(additional)
    ensures AdditionalDataOf(Find(RecordsOf(Present(fields)), AdditionalDataId))
            == Ok(Associate(NamedPairs(RecordsOf(Present(additional)))))
  {
    WrittenTemplateFind(fields);
    TemplateReads(additional);
  }

  /** The additional data template's record is the ninth field written. */
  lemma WrittenTemplateFind(fields: seq<(string, string)>)
    requires HasIds(fields, PayloadIds)
    ensures |fields| > 8
    ensures Find(RecordsOf(Present(fields)), AdditionalDataId)
            == if fields[8].1 == "" then None else Some(fields[8].1)
  {
    PayloadIdsAt();
    WrittenFind(fields, 8, AdditionalDataId);
  }

  /** The header values of the records written with the ids of `generate`, as the
      reader looks them up: a value left out because it was empty reads as empty. */
  lemma WrittenHeader(fields: seq<(string, string)>)
    requires HasIds(fields, PayloadIds)
    ensures var objs := RecordsOf(Present(fields));
            Find(objs, PayloadFormatId).GetOr("") == fields[0].1
            && Find(objs, InitiationMethodId).GetOr("") == fields[1].1
            && Find(objs, CurrencyId).GetOr("") == fields[3].1
            && Find(objs, AmountId) == (if fields[4].1 == "" then None else Some(fields[4].1))
            && Find(objs, CountryCodeId).GetOr("") == fields[5].1
            && Find(objs, MerchantNameId).GetOr("") == fields[6].1
            && Find(objs, MerchantCityId).GetOr("") == fields[7].1
  {
    PayloadIdsAt();
    WrittenFind(fields, 0, PayloadFormatId);
    WrittenFind(fields, 1, InitiationMethodId);
    WrittenFind(fields, 3, CurrencyId);
    WrittenFind(fields, 4, AmountId);
    WrittenFind(fields, 5, CountryCodeId);
    WrittenFind(fields, 6, MerchantNameId);
    WrittenFind(fields, 7, MerchantCityId);
  }

  /** `parse` of the records written with the ids of `generate`: each plain field is
      the value written for it, the amount is absent exactly when its value was
      empty, and the additional data template holds the fields written into it. */
  lemma ParseWritten(fields: seq<(string, string)>, additional: seq<(string, string)>)
    requires HasIds(fields, PayloadIds) && ShortValues(fields) && Fits(additional)
    requires fields[8].1 == Serialize(additional)
    ensures var objs := RecordsOf(Present(fields));
            AllCanonical(objs)
            && DecodeRecords(objs, true) == Ok(EmvQrData(
                 fields[0].1, fields[1].1, [], CurrencyMap.CurrencyName(fields[3].1),
                 if fields[4].1 == "" then None else Some(fields[4].1),
                 fields[6].1, fields[7].1, fields[5].1,
                 Associate(NamedPairs(RecordsOf(Present(additional)))), [], None, true))
  {
    var objs := RecordsOf(Present(fields));
    WrittenCanonical(fields);
    WrittenNoTemplates(fields);
    WrittenAdditionalData(fields, additional);
    WrittenHeader(fields);
    DecodeWithoutTemplates(objs, true, fields[0].1, fields[1].1, fields[3].1,
                           if fields[4].1 == "" then None else Some(fields[4].1),
                           fields[6].1, fields[7].1, fields[5].1,
                           Associate(NamedPairs(RecordsOf(Present(additional)))));
  }

  /** The header fields open the fields before the checksum. */
  lemma PayloadHeader(txn: TransactionData, additional: string)
    ensures forall k | 0 <= k < 8 :: PayloadFields(txn, additional)[k] == HeaderFields(txn)[k]
  {
    HeaderFieldIds(txn);
  }

  /** What `parse` gives back for a payload `generate` wrote from txn: format "01",
      method "11", no merchant account, the currency's name, the formatted amount,
      the cut merchant name, the city, country "400", the additional data template's
      fields by name, no unreserved template and no language template. */
  function ReadBack(txn: TransactionData, crcValid: bool): EmvQrData
    requires AdditionalFields(txn).Ok?
  {
    var currency := ValueOr(txn, CurrencyAlphaKey, DefaultCurrency);
    EmvQrData(
      PayloadFormat, InitiationMethod, [],
      CurrencyMap.CurrencyName(ConvertCurrencyAlphaToNumeric(currency)),
      Some(FormatAmount(ValueOr(txn, AmountKey, DefaultAmount), currency)),
      MerchantNameText(ValueOr(txn, OutletNameKey, DefaultMerchantName)),
      City(ValueOr(txn, TerminalAddressKey, "")),
      CountryCode,
      Associate(NamedPairs(RecordsOf(Present(AdditionalFields(txn).value)))),
      [], None, crcValid)
  }

  /** The round trip with the corrected checksum: when every value fits a two-digit
      length, the payload parses, its checksum passes, and it reads back as the
      transaction's fields as `generate` formatted them, with no merchant account, no
      unreserved template and no language template. */
  lemma EncodeThenParse(txn: TransactionData)
    requires ValuesFit(txn)
    ensures Encode(txn).Ok?
    ensures Decode(Encode(txn).value) == Ok(ReadBack(txn, true))
  {
    var additional := AdditionalFields(txn).value;
    var fields := PayloadFields(txn, Serialize(additional));
    var currency := ValueOr(txn, CurrencyAlphaKey, DefaultCurrency);
    DecodeGenerated(txn);
    AdditionalFits(txn);
    ParseWritten(fields, additional);
    PayloadHeader(txn, Serialize(additional));
    HeaderFieldIds(txn);
  }

  /** The round trip of `generate` as written: when every value fits a two-digit
      length, the payload parses and reads back as the transaction's fields as
      `generate` formatted them; only the checksum flag depends on the data, and it
      is set for ASCII data. */
  lemma GenerateThenParse(txn: TransactionData)
    requires ValuesFit(txn)
    ensures EncodeAsWritten(txn).Ok?
    ensures var q := EncodeAsWritten(txn).value;
            Decode(q) == Ok(ReadBack(txn, ValidateCrc(q)))
    ensures AsciiValues(txn) ==> ValidateCrc(EncodeAsWritten(txn).value)
  {
    EncodeThenParse(txn);
    var q := Encode(txn).value;
    var data := Serialize(PayloadFields(txn, Serialize(AdditionalFields(txn).value)));
    var hex := GeneratorCrc.AsWrittenCrcHex(data);
    assert EncodeAsWritten(txn).value == q[..|q| - 4] + hex by {
      assert q == WithChecksum(data);
      assert EncodeAsWritten(txn).value == WithAsWrittenChecksum(data);
    }
    ChecksumDigitsOnlyFlag(q, hex);
    if AsciiValues(txn) {
      AsciiGenerate(txn);
    }
  }
}
