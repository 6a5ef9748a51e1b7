# EMV merchant QR codec, modelled in Dafny

This project models the codec at the heart of the Android app
*EMV-QR-Generate-Parser*. The codec reads and writes EMV merchant-presented QR
payloads: strings of tag-length-value records, each made of a two-character id,
a two-digit decimal length and the value, ending with a CRC-16 checksum field
`6304XXXX`. It covers the following parts:

- **`CrcCalculator.calculateCrc`** (`crc_calculator.dfy`). This is the
  CRC-16/CCITT-FALSE checksum (polynomial 0x1021, initial value 0xFFFF) over
  the UTF-8 bytes of a string, printed as four upper-case hexadecimal digits.
  It is modelled as a specification function, `CrcHex`, plus a method,
  `CalculateCrc`, that keeps the source's nested loop and the 32-bit `Int`
  register with its explicit `and 0xFFFF`.
- **`CurrencyMap`** (`currency_map.dfy`). These are the ISO 4217 table, the
  display name `"USD - US Dollar ($)"`, and the symbol lookup.
- **The parser half of `EmvQrParser`**:
  - `tlv_codec.dfy` holds the tokenizer `parseTlvObjects`. It is given as a
    recursive specification `Tokens` and as the source's cursor loop
    `ParseTlvObjects`, which is proved equal to it.
  - `emv_qr_decoder.dfy` holds `parse` (`Decode`), `validateCrc` and the
    three name tables.
  - Kotlin's `toInt()` is modelled on two-character lengths and ids. It
    accepts `"+5"` and `"-1"`. It raises `NumberFormatException` on anything
    that is not a number; the model returns `Err(NumberFormat(..))` instead.
  - A negative length makes `substring` raise; the model returns
    `Err(IndexOutOfBounds)`.
  - `parse` wraps everything in `runCatching`, so both errors come back as a
    failed `Result`.
- **The generator half of `EmvQrParser`** (`emv_qr_encoder.dfy`). It covers
  `generate`, `addField`, `formatDate`, `formatTime`, `formatAmount`,
  `convertCurrencyAlphaToNumeric` and `calculateCrc`:
  - `EncodeAsWritten` is the specification of `generate` as written. Its
    checksum is the generator's own CRC over char codes.
  - `Generate` keeps the source's `StringBuilder` as a class and is proved to
    equal `EncodeAsWritten`.
  - `Encode` is the corrected generator. Its checksum is the CRC that
    `validateCrc` expects. On ASCII data the two agree (`AsciiGenerate`).
  - `formatDate` can throw on a year shorter than four characters, so both
    return a `Result`.
- **`generator_crc.dfy`**: the generator's own CRC exactly as written. It runs
  over UTF-16 char codes, not UTF-8 bytes; see Findings.
- **The data model and its JSON output** (`emv_qr_data.dfy`, `json.dfy`):
  - `EmvQrData`, `MerchantAccount`, `LanguageTemplate` and `TlvObject` are
    datatypes.
  - The org.json objects the `toJson` methods fill are classes
    (`JsonObject`, `JsonArray`) whose `Put` methods change them in place.
  - Kotlin's `Map` (`associate`, `LinkedHashMap.put`) is an
    insertion-ordered association list (`ordered_map.dfy`).
- **`round_trip.dfy`** proves what `parse` returns on the generator's output,
  field by field, for every transaction whose values fit a two-digit length.
  `GenerateThenParse` covers `generate` as written: every field reads back, and
  `crcValid` is whatever `validateCrc` says of the payload, which is true when
  every value is ASCII and the lengths are written in ASCII digits. `EncodeThenParse` covers the corrected generator, for
  which `crcValid` is always true.

Three things the code does that a reader might not expect:

- **Unreserved templates are never decoded.** `parse` looks the unreserved
  templates up with the key constant `FOOTER_TICKET`, whose value is
  `"FOOTER_TICKET"` rather than the id `"80"`. No two-character record id
  equals it, so `unreservedTemplates` is always empty. The model keeps this
  behaviour, and `Decode` states it.
- **The decoder drops the last four characters before tokenizing**, whatever
  they are. The `6304` header left at the end of the rest is read as a record
  whose value runs past the end, so reading stops there without error
  (`ChecksumHeaderStops`).
- **The decoder's table lacks Jordan's code.** The generator writes `"400"`
  both as the currency code of Jordanian dinars and as the country code. `400`
  is Jordan's ISO 4217 code, but the currency table does not list it, so the
  decoder shows such a payload as `"Unknown Currency (400)"`
  (`NumericCodesAgreeWithTable`).

How the code reads lengths and ids:

- **Decimal only.** Lengths and ids are read with decimal `toInt()`. There is
  one table of ids, and no other radix.
- **Malformed lengths.** A length that does not parse makes `toInt()` throw,
  so `parse` fails as a whole. The model returns `Err` for it.
- **Account ids.** Merchant account ids are compared as `toInt()` values
  against 2..51.

## Model

| member | source | states |
|---|---|---|
| CrcCalculator.ShiftBit | app/src/main/java/ma/xpi/tlvtools/util/CrcCalculator.kt:22-29 | one shift-and-xor step with the mask leaves the register within 16 bits |
| CrcCalculator.UpdateByte | app/src/main/java/ma/xpi/tlvtools/util/CrcCalculator.kt:19-30 | after mixing in one byte and eight steps the register is within 16 bits |
| CrcCalculator.Register | app/src/main/java/ma/xpi/tlvtools/util/CrcCalculator.kt:17-30 | the register over the bytes, fed first to last: started within 16 bits, it stays within 0..0xFFFF over any byte sequence |
| CrcCalculator.Crc16 | app/src/main/java/ma/xpi/tlvtools/util/CrcCalculator.kt:15-33 | the CRC-16 of any byte sequence, from the initial value 0xFFFF, is a 16-bit value |
| CrcCalculator.RegisterAppend | app/src/main/java/ma/xpi/tlvtools/util/CrcCalculator.kt:19-30 | the checksum of a + b is the checksum of b continued from the register after a |
| CrcCalculator.CrcHex | app/src/main/java/ma/xpi/tlvtools/util/CrcCalculator.kt:15-33 | the result is exactly four upper-case hexadecimal digits whose value is the CRC-16 of the UTF-8 bytes of the input |
| CrcCalculator.EmptyInputCrc | app/src/main/java/ma/xpi/tlvtools/util/CrcCalculator.kt:17-32 | the empty string checks to "FFFF", the initial value |
| CrcCalculator.CalculateCrc | app/src/main/java/ma/xpi/tlvtools/util/CrcCalculator.kt:15-33 | the nested loop over the bytes returns CrcHex of the input: four upper-case hex digits |
| Text.Utf8Encode | app/src/main/java/ma/xpi/tlvtools/util/CrcCalculator.kt:16 | at least one byte per character; on ASCII text the bytes are exactly the character codes |
| Text.Utf8EncodeChar | app/src/main/java/ma/xpi/tlvtools/util/CrcCalculator.kt:16 | an ASCII character is its own code; any other character gives 2 to 4 bytes, all at least 0x80 |
| Text.Utf8Append | app/src/main/java/ma/xpi/tlvtools/util/CrcCalculator.kt:16 | the encoding of a + b is the encoding of a followed by that of b |
| Text.FormatHex04 | app/src/main/java/ma/xpi/tlvtools/util/CrcCalculator.kt:32 | `%04X`: upper-case hex digits denoting n, at least four, exactly four when n fits 16 bits |
| Text.HexIgnoreCase | app/src/main/java/ma/xpi/tlvtools/parser/EmvQrParser.kt:266 | a case-insensitive match against an upper-case hex string holds iff the other string is hex with the same value |
| Text.HexValueDigitwise | app/src/main/java/ma/xpi/tlvtools/parser/EmvQrParser.kt:266 | equal-length hex strings have equal values iff their digits agree one by one |
| CurrencyMap.Lookup | app/src/main/java/ma/xpi/tlvtools/util/CurrencyMap.kt:7-44 | the `currencyMap` table of 36 currencies: a numeric code found in it has three characters, and so has the alphabetic code it gives (that the alphabetic codes are distinct is AlphaCodeInverse) |
| CurrencyMap.CurrencyName | app/src/main/java/ma/xpi/tlvtools/util/CurrencyMap.kt:51-58 | a code outside the table gives "Unknown Currency (" + code + ")" |
| CurrencyMap.CurrencyNameShape | app/src/main/java/ma/xpi/tlvtools/util/CurrencyMap.kt:51-58 | a known code's name starts with its alphabetic code and " - "; an unknown one is the prefix, the code and ")"; the two kinds differ at the fourth character |
| CurrencyMap.CurrencySymbol | app/src/main/java/ma/xpi/tlvtools/util/CurrencyMap.kt:65-67 | a code outside the table is its own symbol |
| CurrencyMap.NameEndsWithSymbol | app/src/main/java/ma/xpi/tlvtools/util/CurrencyMap.kt:51-67 | every currency name ends with " (" + the symbol getCurrencySymbol gives + ")" |
| CurrencyMap.AlphaCodeInverse | app/src/main/java/ma/xpi/tlvtools/util/CurrencyMap.kt:7-44 | the table's alphabetic codes are distinct: each leads back to its numeric code |
| CurrencyMap.CurrencyNameInjective | app/src/main/java/ma/xpi/tlvtools/util/CurrencyMap.kt:51-58 | two codes with the same display name are the same code |
| CurrencyMap.CurrencyNameExamples | app/src/main/java/ma/xpi/tlvtools/util/CurrencyMap.kt:24 | "840" is shown as "USD - ..." and "999" as "Unknown Currency (999)" |
| Text.FormatTwoDigits | app/src/main/java/ma/xpi/tlvtools/parser/EmvQrParser.kt:469 | `%02d`: decimal digits denoting n, exactly two of them iff n <= 99 |
| Text.ParseTwoDigits | app/src/main/java/ma/xpi/tlvtools/parser/EmvQrParser.kt:227 | a two-character string is a number iff both are digits, and then formatting the number gives the string back |
| Text.ToInt2 | app/src/main/java/ma/xpi/tlvtools/parser/EmvQrParser.kt:227 | `toInt()` on two characters succeeds iff the second is a digit and the first a digit or sign; the value lies in -9..99 and is negative only after '-' |
| Text.ToIntFormatTwoDigits | app/src/main/java/ma/xpi/tlvtools/parser/EmvQrParser.kt:227 | `toInt()` reads back every length addField writes |
| TlvCodec.Tokens | app/src/main/java/ma/xpi/tlvtools/parser/EmvQrParser.kt:214-242 | input shorter than four characters gives no records and no error |
| TlvCodec.TokensWellFormed | app/src/main/java/ma/xpi/tlvtools/parser/EmvQrParser.kt:214-242 | every record read has a two-character id, a length equal to its value's length and at most 99, no children, and the records never account for more than the input |
| TlvCodec.TokensLaidOut | app/src/main/java/ma/xpi/tlvtools/parser/EmvQrParser.kt:214-242 | the records read lie one after another from the start of the input: id, a length text `toInt()` reads as the length, and the value |
| TlvCodec.LaidOutPrefix | app/src/main/java/ma/xpi/tlvtools/parser/EmvQrParser.kt:218-239 | records laid out one after another in a text whose length texts are all two digits, written back, are a prefix of that text |
| TlvCodec.TokensPrefix | app/src/main/java/ma/xpi/tlvtools/parser/EmvQrParser.kt:214-242 | the records read, written back in order, are a prefix of the input iff every length text the reader met is two digits, with no '+' or '-' sign |
| TlvCodec.PrefixDigitLengths | app/src/main/java/ma/xpi/tlvtools/parser/EmvQrParser.kt:214-242 | when the records read, written back, are a prefix of the input, every length text the reader met was two digits |
| TlvCodec.SerializeDigitLengths | app/src/main/java/ma/xpi/tlvtools/parser/EmvQrParser.kt:466-471 | the `%02d` lengths addField writes carry no sign: written fields, put in front of text whose length texts are digits, keep them all digits |
| TlvCodec.ParseTlvObjects | app/src/main/java/ma/xpi/tlvtools/parser/EmvQrParser.kt:214-242 | the cursor loop returns exactly Tokens of its input, errors included |
| TlvCodec.ReadingStops | app/src/main/java/ma/xpi/tlvtools/parser/EmvQrParser.kt:218-226 | when fewer than four characters remain, the result is the records read so far |
| TlvCodec.ReadingEnds | app/src/main/java/ma/xpi/tlvtools/parser/EmvQrParser.kt:218 | at the end of the input, the result is the records read so far |
| TlvCodec.ReadingOverruns | app/src/main/java/ma/xpi/tlvtools/parser/EmvQrParser.kt:232 | a length running past the end stops reading with the records so far, the partial record dropped |
| TlvCodec.ReadingFails | app/src/main/java/ma/xpi/tlvtools/parser/EmvQrParser.kt:227-233 | a length that is not a number fails with NumberFormat of that text; a negative one fails with IndexOutOfBounds |
| TlvCodec.ReadingAdvances | app/src/main/java/ma/xpi/tlvtools/parser/EmvQrParser.kt:219-238 | a complete record is appended and reading continues right after its value |
| TlvCodec.TokensStep | app/src/main/java/ma/xpi/tlvtools/parser/EmvQrParser.kt:219-238 | a complete first record is followed by the records of the rest |
| TlvCodec.TruncatedValueStops | app/src/main/java/ma/xpi/tlvtools/parser/EmvQrParser.kt:232 | "0003AB" (value cut short) reads as no records and no error |
| TlvCodec.ChecksumHeaderStops | app/src/main/java/ma/xpi/tlvtools/parser/EmvQrParser.kt:115 | the "6304" header that ends the text before the checksum reads as nothing |
| TlvCodec.RecordsOf | app/src/main/java/ma/xpi/tlvtools/parser/EmvQrParser.kt:238 | one record per field, with the field's id and value and the value's length |
| TlvCodec.FieldsOf | app/src/main/java/ma/xpi/tlvtools/parser/EmvQrParser.kt:129 | the (id, value) pairs `associate` receives, one per record, in order |
| TlvCodec.SerializeAppend | app/src/main/java/ma/xpi/tlvtools/parser/EmvQrParser.kt:466-471 | writing one more field appends its text |
| TlvCodec.SerializeConcat | app/src/main/java/ma/xpi/tlvtools/parser/EmvQrParser.kt:466-471 | writing two lists of fields is writing each in turn |
| TlvCodec.SerializeEmpty | app/src/main/java/ma/xpi/tlvtools/parser/EmvQrParser.kt:466-467 | nothing is written iff every value is empty |
| TlvCodec.FieldRead | app/src/main/java/ma/xpi/tlvtools/parser/EmvQrParser.kt:466-471 | one field written by addField, followed by any text, is read back as its record before the records of that text |
| TlvCodec.TokensSerialize | app/src/main/java/ma/xpi/tlvtools/parser/EmvQrParser.kt:466-471 | fields with two-character ids and 1..99-character values, written and followed by any text, read back as their records followed by that text's records |
| TlvCodec.ReadWriteRead | app/src/main/java/ma/xpi/tlvtools/parser/EmvQrParser.kt:214-242 | records read from any text whose records all have non-empty values, written back, read back the same |
| EmvQrDecoder.FindIndex | app/src/main/java/ma/xpi/tlvtools/parser/EmvQrParser.kt:118 | None iff no record has the id; otherwise the first position holding it |
| EmvQrDecoder.Find | app/src/main/java/ma/xpi/tlvtools/parser/EmvQrParser.kt:118 | `find { it.id == id }?.value`: None iff no record has the id, else the value of the first that has |
| EmvQrDecoder.FilterById | app/src/main/java/ma/xpi/tlvtools/parser/EmvQrParser.kt:122-123 | `filter { it.id.toInt() in low..high }` fails only with NumberFormat, keeps no more records than it was given, and every record kept has a two-character id whose number lies in low..high |
| EmvQrDecoder.FilterByIdMeans | app/src/main/java/ma/xpi/tlvtools/parser/EmvQrParser.kt:122-123 | the filter fails, with NumberFormat, iff some record id is not a number; otherwise it keeps exactly the records whose id is in range |
| EmvQrDecoder.FilterByIdAppend | app/src/main/java/ma/xpi/tlvtools/parser/EmvQrParser.kt:122-123 | filtering a + b succeeds iff both succeed and gives the kept records of a, then those of b, so order is kept |
| EmvQrDecoder.MerchantAccountName | app/src/main/java/ma/xpi/tlvtools/parser/EmvQrParser.kt:274-308 | a scheme name is short, or the name is "Unknown Merchant Account (" + id + ")" |
| EmvQrDecoder.MerchantAccountNameKnown | app/src/main/java/ma/xpi/tlvtools/parser/EmvQrParser.kt:274-308 | an id gets a scheme name iff it is "02".."31" |
| EmvQrDecoder.SchemeIdsNamed | app/src/main/java/ma/xpi/tlvtools/parser/EmvQrParser.kt:275-305 | every id "02".."31" has a scheme name |
| EmvQrDecoder.OtherIdsUnknown | app/src/main/java/ma/xpi/tlvtools/parser/EmvQrParser.kt:306 | every other id is "Unknown Merchant Account (id)" |
| EmvQrDecoder.AdditionalDataFieldName | app/src/main/java/ma/xpi/tlvtools/parser/EmvQrParser.kt:317-331 | a known name is short, or the name is "Additional Field (" + id + ")" |
| EmvQrDecoder.AdditionalDataFieldNameInverse | app/src/main/java/ma/xpi/tlvtools/parser/EmvQrParser.kt:317-331 | every field name leads back to its id |
| EmvQrDecoder.AdditionalDataFieldNameInjective | app/src/main/java/ma/xpi/tlvtools/parser/EmvQrParser.kt:317-331 | different ids get different names, so `associate` on names loses nothing |
| EmvQrDecoder.UnreservedTemplatesFieldName | app/src/main/java/ma/xpi/tlvtools/parser/EmvQrParser.kt:333-339 | "AID", "TVR", or "Unreserved Templates (" + id + ")" |
| EmvQrDecoder.ValidateCrcMeans | app/src/main/java/ma/xpi/tlvtools/parser/EmvQrParser.kt:249-267 | a payload validates iff it has four final characters that are hex, in either case, denoting the CRC-16 of the UTF-8 bytes before them |
| EmvQrDecoder.ValidateCrc | app/src/main/java/ma/xpi/tlvtools/parser/EmvQrParser.kt:249-267 | a payload that validates has at least four characters and ends in four hexadecimal digits |
| EmvQrDecoder.NamedPairs | app/src/main/java/ma/xpi/tlvtools/parser/EmvQrParser.kt:149-152 | one (field name, value) pair per record, in order |
| EmvQrDecoder.UnreservedPairs | app/src/main/java/ma/xpi/tlvtools/parser/EmvQrParser.kt:161-164 | one (unreserved name, value) pair per record, in order |
| EmvQrDecoder.MerchantAccountOf | app/src/main/java/ma/xpi/tlvtools/parser/EmvQrParser.kt:124-130 | an account is built iff its template tokenizes, failing with the tokenizer's error otherwise; it keeps the record's id and gets that id's scheme name |
| EmvQrDecoder.MerchantAccounts | app/src/main/java/ma/xpi/tlvtools/parser/EmvQrParser.kt:124-131 | the `map` gives one account per record, in order, each with the record's id and that id's scheme name |
| EmvQrDecoder.MerchantAccountsOk | app/src/main/java/ma/xpi/tlvtools/parser/EmvQrParser.kt:124-131 | the accounts are built iff every account template tokenizes, one account per record |
| EmvQrDecoder.MerchantAccountsEach | app/src/main/java/ma/xpi/tlvtools/parser/EmvQrParser.kt:124-131 | the i-th account is built from the i-th filtered record |
| EmvQrDecoder.MerchantAccountFields | app/src/main/java/ma/xpi/tlvtools/parser/EmvQrParser.kt:125-130 | an account keeps the record's id, gets its scheme name, and each sub-field holds the last value written under that id |
| EmvQrDecoder.AccountsOf | app/src/main/java/ma/xpi/tlvtools/parser/EmvQrParser.kt:122-131 | no more accounts than records; every decoded account has a two-character id whose number is in 2..51 and the scheme name of that id |
| EmvQrDecoder.AccountsComplete | app/src/main/java/ma/xpi/tlvtools/parser/EmvQrParser.kt:122-131 | every record with an id in 2..51 becomes an account |
| EmvQrDecoder.AdditionalDataOf | app/src/main/java/ma/xpi/tlvtools/parser/EmvQrParser.kt:146-155 | no template gives an empty map; a template gives a map iff its value tokenizes |
| EmvQrDecoder.AdditionalDataLookup | app/src/main/java/ma/xpi/tlvtools/parser/EmvQrParser.kt:146-155 | under each field name the map holds the last value written under that id |
| EmvQrDecoder.NamedLastValue | app/src/main/java/ma/xpi/tlvtools/parser/EmvQrParser.kt:149-152 | the last value under a name is the last value under its id |
| EmvQrDecoder.UnreservedTemplatesOf | app/src/main/java/ma/xpi/tlvtools/parser/EmvQrParser.kt:158-167 | no template gives an empty map |
| EmvQrDecoder.LanguageTemplateOf | app/src/main/java/ma/xpi/tlvtools/parser/EmvQrParser.kt:170-189 | no template gives null; a template that decodes gives a LanguageTemplate |
| EmvQrDecoder.LanguageTemplateRead | app/src/main/java/ma/xpi/tlvtools/parser/EmvQrParser.kt:170-189 | the template decodes iff every sub-id is a number; preference, name and city are the first "00", "01", "02" values; the extra map is null iff no sub-id is in 3..99 |
| EmvQrDecoder.Decode | app/src/main/java/ma/xpi/tlvtools/parser/EmvQrParser.kt:108-207 | fewer than four characters fail; a tokenizer error is the result's error; a decoded payload's crcValid is validateCrc of the input; unreserved templates are always empty |
| EmvQrDecoder.DecodeRecords | app/src/main/java/ma/xpi/tlvtools/parser/EmvQrParser.kt:118-205 | the record-level decode carries the given checksum verdict and no unreserved templates |
| EmvQrDecoder.DecodeReads | app/src/main/java/ma/xpi/tlvtools/parser/EmvQrParser.kt:108-115 | a successful decode tokenized everything before the last four characters into well-formed records and decoded those |
| EmvQrDecoder.DecodeAccounts | app/src/main/java/ma/xpi/tlvtools/parser/EmvQrParser.kt:122-131 | the decoded accounts are the filtered, mapped account records |
| EmvQrDecoder.DecodeFields | app/src/main/java/ma/xpi/tlvtools/parser/EmvQrParser.kt:118-205 | every field of a successful decode: format, method, name, city and country are the first record's value under their id or ""; the amount is that value or null; the currency is the display name of its value; accounts, additional data and language template are the decodes of their records; unreserved templates are empty; crcValid is the verdict given |
| EmvQrDecoder.NoUnreservedRecord | app/src/main/java/ma/xpi/tlvtools/parser/EmvQrParser.kt:158 | no record read has the id `FOOTER_TICKET`, so the unreserved templates are never found |
| EmvQrDecoder.DecodeRecordsOk | app/src/main/java/ma/xpi/tlvtools/parser/EmvQrParser.kt:118-205 | the decode fails iff the accounts, the additional data or the language template cannot be read, and then with the first of those failures in source order |
| EmvQrDecoder.ChecksumNeverAborts | app/src/main/java/ma/xpi/tlvtools/parser/EmvQrParser.kt:111 | the checksum verdict never stops decoding: with either verdict the records decode, or fail with the same error, and only crcValid differs |
| EmvQrDecoder.ChecksumDigitsOnlyFlag | app/src/main/java/ma/xpi/tlvtools/parser/EmvQrParser.kt:108-115 | replacing a payload's last four characters changes at most crcValid: parse fails the same way, or gives the same data with crcValid being validateCrc of the new payload |
| RoundTrip.DecodeWithoutTemplates | app/src/main/java/ma/xpi/tlvtools/parser/EmvQrParser.kt:118-205 | records without account, unreserved or language templates decode to the found values, with "" for missing strings and the currency's display name |
| OrderedMap.Get | app/src/main/java/ma/xpi/tlvtools/parser/EmvQrParser.kt:129 | None iff the key is absent; otherwise a value stored under the key |
| OrderedMap.Put | app/src/main/java/ma/xpi/tlvtools/model/EmvQrData.kt:50 | `LinkedHashMap.put`: keys stay unique, the key maps to the new value, other keys are untouched, a new key goes last and an old key keeps its place |
| OrderedMap.PutAll | app/src/main/java/ma/xpi/tlvtools/parser/EmvQrParser.kt:129 | keys stay unique |
| OrderedMap.PutAllGet | app/src/main/java/ma/xpi/tlvtools/parser/EmvQrParser.kt:129 | after putting pairs, a key holds its last value among them, or its old value if none |
| OrderedMap.Associate | app/src/main/java/ma/xpi/tlvtools/parser/EmvQrParser.kt:129 | `associate` builds a map with unique keys |
| OrderedMap.AssociateLastWins | app/src/main/java/ma/xpi/tlvtools/parser/EmvQrParser.kt:129 | a key maps to the last value given for it |
| OrderedMap.AssociateEmpty | app/src/main/java/ma/xpi/tlvtools/parser/EmvQrParser.kt:185 | the map is empty iff no pairs were given, which decides null for the language template's extra data |
| OrderedMap.PutAllIntoEmpty | app/src/main/java/ma/xpi/tlvtools/model/EmvQrData.kt:48-51 | copying a map entry by entry into an empty JSON object gives the same entries in the same order |
| EmvQrEncoder.ValueOr | app/src/main/java/ma/xpi/tlvtools/parser/EmvQrParser.kt:351 | `transactionData[key] ?: default`: the stored value when the key is present, else the default |
| EmvQrEncoder.ConvertCurrencyAlphaToNumeric | app/src/main/java/ma/xpi/tlvtools/parser/EmvQrParser.kt:525-535 | the numeric code is three digits and one of "400", "840", "978", "682", "784", "826" |
| EmvQrEncoder.NumericCodesAgreeWithTable | app/src/main/java/ma/xpi/tlvtools/parser/EmvQrParser.kt:525-535 | "400" is written iff the currency is not USD, EUR, SAR, AED or GBP; other codes are the table's codes for that currency; "400" decodes as an unknown currency |
| EmvQrEncoder.MinorUnits | app/src/main/java/ma/xpi/tlvtools/parser/EmvQrParser.kt:510-514 | 1000 minor units for JOD, 100 for every other currency |
| EmvQrEncoder.ParseDecimal | app/src/main/java/ma/xpi/tlvtools/parser/EmvQrParser.kt:508 | a parsed number has digit-only whole and fraction parts, at least one digit, and is negative iff the text starts with '-' |
| EmvQrEncoder.MinorAmount | app/src/main/java/ma/xpi/tlvtools/parser/EmvQrParser.kt:516 | `toLong()` truncates toward zero: the magnitude is the floor of the exact scaled value |
| EmvQrEncoder.ScaledDown | app/src/main/java/ma/xpi/tlvtools/parser/EmvQrParser.kt:516 | the quotient is the floor of x * factor / p |
| EmvQrEncoder.LongString | app/src/main/java/ma/xpi/tlvtools/parser/EmvQrParser.kt:517 | `Long.toString`: digits without leading zeros, with '-' only in front of a non-zero number |
| EmvQrEncoder.FormatAmount | app/src/main/java/ma/xpi/tlvtools/parser/EmvQrParser.kt:506-518 | the amount is always a Long's text; text that is not a number gives "0" |
| EmvQrEncoder.FormatAmountWhole | app/src/main/java/ma/xpi/tlvtools/parser/EmvQrParser.kt:506-518 | on exact decimal arithmetic, a whole amount is multiplied by the minor units |
| EmvQrEncoder.FormatAmountDecimals | app/src/main/java/ma/xpi/tlvtools/parser/EmvQrParser.kt:506-518 | on exact decimal arithmetic, an amount with at most two decimals is exact in minor units ("12.5" USD is "1250"); the source's Double product can fall one short, see Left out |
| EmvQrEncoder.FormatAmountNegative | app/src/main/java/ma/xpi/tlvtools/parser/EmvQrParser.kt:506-518 | a leading minus negates the amount, and zero stays "0" |
| EmvQrEncoder.LongStringNegated | app/src/main/java/ma/xpi/tlvtools/parser/EmvQrParser.kt:517 | the text of -m is "-" and the text of m, except for zero |
| EmvQrEncoder.FormatDate | app/src/main/java/ma/xpi/tlvtools/parser/EmvQrParser.kt:478-488 | the only failure is the out-of-bounds `substring` |
| EmvQrEncoder.FormatDateOfSlashedDate | app/src/main/java/ma/xpi/tlvtools/parser/EmvQrParser.kt:480-485 | "M/D/YYYY" gives the year's third and fourth characters, then month and day padded to two; a year shorter than four fails |
| EmvQrEncoder.FormatDateFewSlashes | app/src/main/java/ma/xpi/tlvtools/parser/EmvQrParser.kt:481-487 | fewer than two slashes give "" |
| Text.Split | app/src/main/java/ma/xpi/tlvtools/parser/EmvQrParser.kt:480 | `split`: at least one piece, no piece holds the delimiter, joining them gives the input back |
| Text.SplitJoin | app/src/main/java/ma/xpi/tlvtools/parser/EmvQrParser.kt:480 | splitting the join of delimiter-free pieces gives the pieces back |
| Text.SplitAscii | app/src/main/java/ma/xpi/tlvtools/parser/EmvQrParser.kt:480 | every piece `split` cuts from ASCII text is ASCII |
| Text.PadStartZeros | app/src/main/java/ma/xpi/tlvtools/parser/EmvQrParser.kt:483-484 | `padStart(n, '0')`: length max(len, n), the input at the end, zeros in front |
| Text.PadStartAscii | app/src/main/java/ma/xpi/tlvtools/parser/EmvQrParser.kt:483-484 | `padStart` with zeros keeps ASCII text ASCII |
| EmvQrEncoder.FormatTime | app/src/main/java/ma/xpi/tlvtools/parser/EmvQrParser.kt:495-498 | the result has no colon |
| EmvQrEncoder.FormatTimeOfClock | app/src/main/java/ma/xpi/tlvtools/parser/EmvQrParser.kt:495-498 | "hh:mm:ss" gives "hhmmss" |
| Text.RemoveAll | app/src/main/java/ma/xpi/tlvtools/parser/EmvQrParser.kt:497 | `replace(c, "")`: the result has no c and is no longer than the input |
| Text.RemoveAllAscii | app/src/main/java/ma/xpi/tlvtools/parser/EmvQrParser.kt:497 | `replace(c, "")` keeps ASCII text ASCII |
| Text.RemoveAllIsSplitConcat | app/src/main/java/ma/xpi/tlvtools/parser/EmvQrParser.kt:497 | removing every c is splitting at c and gluing the pieces |
| EmvQrEncoder.City | app/src/main/java/ma/xpi/tlvtools/parser/EmvQrParser.kt:364-369 | an address without '-' gives "AMMAN"; the city never holds a space |
| EmvQrEncoder.CityAfterLastDash | app/src/main/java/ma/xpi/tlvtools/parser/EmvQrParser.kt:365-366 | otherwise the city is the text after the last '-' up to the first space |
| EmvQrEncoder.MerchantNameText | app/src/main/java/ma/xpi/tlvtools/parser/EmvQrParser.kt:361-362 | the name is a prefix of the input, all of it or exactly 25 characters |
| EmvQrEncoder.Checksum | app/src/main/java/ma/xpi/tlvtools/parser/EmvQrParser.kt:542-565 | (corrected) four upper-case hex digits with which data + "6304" + digits passes validateCrc |
| EmvQrEncoder.CalculateCrc | app/src/main/java/ma/xpi/tlvtools/parser/EmvQrParser.kt:542-565 | (corrected) the method returns Checksum of its input |
| EmvQrEncoder.ChecksumField | app/src/main/java/ma/xpi/tlvtools/parser/EmvQrParser.kt:455-456 | addField writes the checksum as "6304" followed by the four digits |
| EmvQrEncoder.AdditionalFields | app/src/main/java/ma/xpi/tlvtools/parser/EmvQrParser.kt:372-400 | the five candidate fields, failing exactly when formatDate fails |
| EmvQrEncoder.AdditionalTemplateOmitted | app/src/main/java/ma/xpi/tlvtools/parser/EmvQrParser.kt:401-403 | the additional data template is left out iff none of its fields has a value |
| EmvQrEncoder.HeaderFields | app/src/main/java/ma/xpi/tlvtools/parser/EmvQrParser.kt:348-370 | the first eight fields carry ids 00, 01, 52, 53, 54, 58, 59, 60 in that order, with format "01", method "11" and country "400" |
| EmvQrEncoder.HeaderOf | app/src/main/java/ma/xpi/tlvtools/parser/EmvQrParser.kt:348-370 | the header fields around any five values are eight fields with ids 00, 01, 52, 53, 54, 58, 59, 60 in that order, format "01", method "11" and country "400" |
| EmvQrEncoder.TrailerFields | app/src/main/java/ma/xpi/tlvtools/parser/EmvQrParser.kt:405-453 | the trailing fields carry ids 80, 81, 82, 85, 86, 88, 87, 89, 83, 84 in that order, each with the value stored under its key or "" |
| EmvQrEncoder.PayloadFields | app/src/main/java/ma/xpi/tlvtools/parser/EmvQrParser.kt:348-453 | all fields before the checksum carry the header ids, 62 and the trailing ids, with the additional data template's text as the ninth value |
| EmvQrEncoder.WithChecksum | app/src/main/java/ma/xpi/tlvtools/parser/EmvQrParser.kt:455-458 | (corrected) the payload followed by "6304" and the checksum validateCrc expects, so it passes validateCrc |
| EmvQrEncoder.WithAsWrittenChecksum | app/src/main/java/ma/xpi/tlvtools/parser/EmvQrParser.kt:455-458 | (as written) the payload followed by "6304" and the char-code checksum; it differs from the corrected text only in the last four characters, and not at all on ASCII data |
| EmvQrEncoder.Encode | app/src/main/java/ma/xpi/tlvtools/parser/EmvQrParser.kt:345-459 | (corrected) generate fails, with an out-of-bounds error, exactly when formatDate fails; every payload it produces passes validateCrc |
| EmvQrEncoder.EncodeAsWritten | app/src/main/java/ma/xpi/tlvtools/parser/EmvQrParser.kt:345-459 | (as written) generate fails exactly when formatDate fails, with the same error as the corrected generator; otherwise its payload has the same length and agrees with the corrected one except in the four checksum digits |
| EmvQrEncoder.StringBuilder.constructor | app/src/main/java/ma/xpi/tlvtools/parser/EmvQrParser.kt:346 | a new builder is empty |
| EmvQrEncoder.StringBuilder.Append | app/src/main/java/ma/xpi/tlvtools/parser/EmvQrParser.kt:470 | append adds the text at the end |
| EmvQrEncoder.AddField | app/src/main/java/ma/xpi/tlvtools/parser/EmvQrParser.kt:466-471 | the builder gains the field's text: nothing for an empty value, else id, `%02d` length, value |
| EmvQrEncoder.AddFieldIfPresent | app/src/main/java/ma/xpi/tlvtools/parser/EmvQrParser.kt:405-408 | the `if (isNotEmpty()) addField` pattern appends the same text as addField |
| EmvQrEncoder.AddHeaderFields | app/src/main/java/ma/xpi/tlvtools/parser/EmvQrParser.kt:348-370 | the builder holds the eight header fields, written in order |
| EmvQrEncoder.BuildAdditionalData | app/src/main/java/ma/xpi/tlvtools/parser/EmvQrParser.kt:372-400 | the template's text is the five additional fields written in order, or the formatDate failure |
| EmvQrEncoder.AddTrailerFields | app/src/main/java/ma/xpi/tlvtools/parser/EmvQrParser.kt:405-453 | the builder gains the ten optional trailing fields, in the source's order |
| EmvQrEncoder.AddAdditionalData | app/src/main/java/ma/xpi/tlvtools/parser/EmvQrParser.kt:372-403 | the template fails exactly when formatDate does, leaving the builder unchanged; otherwise the builder gains field 62 holding the template's text, or nothing when it is empty |
| EmvQrEncoder.AddPayloadFields | app/src/main/java/ma/xpi/tlvtools/parser/EmvQrParser.kt:346-453 | the builder holds every field before the checksum, in the source's order, or the template's error is returned |
| EmvQrEncoder.Generate | app/src/main/java/ma/xpi/tlvtools/parser/EmvQrParser.kt:345-459 | the builder-based method, with the generator's own char-code checksum, returns exactly EncodeAsWritten of its input |
| EmvQrEncoder.AsciiGenerate | app/src/main/java/ma/xpi/tlvtools/parser/EmvQrParser.kt:455-456 | on transaction data whose values are all ASCII, generate as written and the corrected generator produce the same payload |
| EmvQrEncoder.PayloadAscii | app/src/main/java/ma/xpi/tlvtools/parser/EmvQrParser.kt:345-453 | from ASCII transaction data, every field generate writes before the checksum is ASCII |
| EmvQrEncoder.SerializeAscii | app/src/main/java/ma/xpi/tlvtools/parser/EmvQrParser.kt:466-471 | addField on ASCII ids and values writes ASCII text |
| EmvQrEncoder.FormatAmountAscii | app/src/main/java/ma/xpi/tlvtools/parser/EmvQrParser.kt:506-518 | the amount text is ASCII |
| EmvQrEncoder.FormatDateAscii | app/src/main/java/ma/xpi/tlvtools/parser/EmvQrParser.kt:478-488 | formatDate of ASCII text is ASCII |
| EmvQrEncoder.FormatTimeAscii | app/src/main/java/ma/xpi/tlvtools/parser/EmvQrParser.kt:495-498 | formatTime of ASCII text is ASCII |
| EmvQrEncoder.CityAscii | app/src/main/java/ma/xpi/tlvtools/parser/EmvQrParser.kt:364-369 | the city taken from an ASCII address is ASCII |
| EmvQrEncoder.MerchantNameAscii | app/src/main/java/ma/xpi/tlvtools/parser/EmvQrParser.kt:361-362 | the cut merchant name of an ASCII name is ASCII |
| FieldChains.WrittenIsSerialize | app/src/main/java/ma/xpi/tlvtools/parser/EmvQrParser.kt:466-471 | addField calls one after another write the serialized list |
| GeneratorCrc.UpdateChar | app/src/main/java/ma/xpi/tlvtools/parser/EmvQrParser.kt:550-561 | mixing in one char code leaves the register within 16 bits |
| GeneratorCrc.CharRegister | app/src/main/java/ma/xpi/tlvtools/parser/EmvQrParser.kt:550-561 | the register over any text stays within 16 bits |
| GeneratorCrc.AsWrittenCrcHex | app/src/main/java/ma/xpi/tlvtools/parser/EmvQrParser.kt:542-565 | (as written) four upper-case hex digits denoting the char-code register over data + "6304" |
| GeneratorCrc.CalculateCrcAsWritten | app/src/main/java/ma/xpi/tlvtools/parser/EmvQrParser.kt:542-565 | (as written) the loop over chars returns AsWrittenCrcHex |
| GeneratorCrc.AsciiCharRegister | app/src/main/java/ma/xpi/tlvtools/parser/EmvQrParser.kt:550-551 | on ASCII text the char-code register equals the UTF-8 byte register |
| GeneratorCrc.AsciiChecksumsAgree | app/src/main/java/ma/xpi/tlvtools/parser/EmvQrParser.kt:544-564 | on ASCII data the generator's checksum is the one the validator computes |
| GeneratorCrc.CodesRegister | app/src/main/java/ma/xpi/tlvtools/parser/EmvQrParser.kt:550-551 | on text of 8-bit chars the register runs over the char codes as bytes |
| GeneratorCrc.NonAsciiChecksumsDiffer | app/src/main/java/ma/xpi/tlvtools/parser/EmvQrParser.kt:550-551 | for "5901é" the generator's and the validator's checksums differ |
| EmvQrEncoder.AsWrittenChecksumRejected | app/src/main/java/ma/xpi/tlvtools/parser/EmvQrParser.kt:455-456 | the as-written checksum field for "5901é" fails validateCrc |
| RoundTrip.Present | app/src/main/java/ma/xpi/tlvtools/parser/EmvQrParser.kt:466-467 | the fields addField writes: each is one of the input fields and has a value |
| RoundTrip.SerializePresent | app/src/main/java/ma/xpi/tlvtools/parser/EmvQrParser.kt:466-467 | leaving the empty fields out changes nothing in the text |
| RoundTrip.ReadWritten | app/src/main/java/ma/xpi/tlvtools/parser/EmvQrParser.kt:214-242 | fields that fit, written and followed by any text, read back as the records of the fields that have values |
| RoundTrip.FindPresent | app/src/main/java/ma/xpi/tlvtools/parser/EmvQrParser.kt:118 | among written records, the value found under a field's id is that field's value |
| RoundTrip.FindAbsent | app/src/main/java/ma/xpi/tlvtools/parser/EmvQrParser.kt:118 | an id no written field has is not found |
| RoundTrip.HeaderFieldIds | app/src/main/java/ma/xpi/tlvtools/parser/EmvQrParser.kt:348-370 | the header fields carry ids 00, 01, 52, 53, 54, 58, 59, 60 in that order, with "01", "11", the numeric currency, the formatted amount, "400", the cut name and the city as values |
| RoundTrip.PayloadIdsDistinct | app/src/main/java/ma/xpi/tlvtools/parser/EmvQrParser.kt:348-453 | no two written fields share an id |
| RoundTrip.NoAccounts | app/src/main/java/ma/xpi/tlvtools/parser/EmvQrParser.kt:122-123 | the generator writes no record with an id in 2..51, so parse finds no accounts |
| RoundTrip.ReadPayload | app/src/main/java/ma/xpi/tlvtools/parser/EmvQrParser.kt:115 | cutting the checksum digits off a written payload leaves the fields and "6304", which read back as the records of the fields with values |
| RoundTrip.WrittenNoTemplates | app/src/main/java/ma/xpi/tlvtools/parser/EmvQrParser.kt:122-170 | the generator's records hold no account, no record under the unreserved-templates key and no language template |
| RoundTrip.ParseWritten | app/src/main/java/ma/xpi/tlvtools/parser/EmvQrParser.kt:118-205 | the records of the generator's fields decode to those fields' values, the currency's display name and the named additional data |
| RoundTrip.TemplateReads | app/src/main/java/ma/xpi/tlvtools/parser/EmvQrParser.kt:146-155 | the written additional data template decodes to its named fields |
| RoundTrip.DecodeGenerated | app/src/main/java/ma/xpi/tlvtools/parser/EmvQrParser.kt:108-115 | (corrected) parse of the corrected generator's payload decodes the written records with crcValid true |
| RoundTrip.EncodeThenParse | app/src/main/java/ma/xpi/tlvtools/parser/EmvQrParser.kt:345-459 | (corrected) for values of at most 99 characters, parse of the corrected payload succeeds with crcValid true, format "01", method "11", no accounts, the currency's display name, the formatted amount, the cut name, the city, country "400", the additional data by field name, no templates |
| RoundTrip.GenerateThenParse | app/src/main/java/ma/xpi/tlvtools/parser/EmvQrParser.kt:345-459 | (as written) for values of at most 99 characters, parse(generate(data)) succeeds with format "01", method "11", no accounts, the currency's display name, the formatted amount, the cut name, the city, country "400", the additional data by field name, no templates, and crcValid equal to validateCrc of the payload, which holds when every value is ASCII (lengths written in ASCII digits; see Left out) |
| Json.Keys | app/src/main/java/ma/xpi/tlvtools/model/EmvQrData.kt:27-89 | the member names of an object, in order |
| Json.JsonObject.constructor | app/src/main/java/ma/xpi/tlvtools/model/EmvQrData.kt:28 | a new JSONObject has no members |
| Json.JsonObject.Put | app/src/main/java/ma/xpi/tlvtools/model/EmvQrData.kt:31 | put appends a new key and replaces an existing key's value in place |
| Json.JsonArray.constructor | app/src/main/java/ma/xpi/tlvtools/model/EmvQrData.kt:41 | a new JSONArray is empty |
| Json.JsonArray.Put | app/src/main/java/ma/xpi/tlvtools/model/EmvQrData.kt:54 | put appends the item |
| EmvQrModel.StringMembers | app/src/main/java/ma/xpi/tlvtools/model/EmvQrData.kt:59-62 | one string member per map entry, same key, same order |
| EmvQrModel.AccountsJson | app/src/main/java/ma/xpi/tlvtools/model/EmvQrData.kt:41-56 | one JSON item per account |
| EmvQrModel.StringMapToJson | app/src/main/java/ma/xpi/tlvtools/model/EmvQrData.kt:59-62 | the loop of puts builds the map's JSON object |
| EmvQrModel.MerchantAccountToJson | app/src/main/java/ma/xpi/tlvtools/model/EmvQrData.kt:104-116 | builds the account's object: id, name or null, fields |
| EmvQrModel.LanguageTemplateToJson | app/src/main/java/ma/xpi/tlvtools/model/EmvQrData.kt:132-149 | builds the template's object, with null for missing values |
| EmvQrModel.PutScalarMembers | app/src/main/java/ma/xpi/tlvtools/model/EmvQrData.kt:31-38 | the eight scalar puts leave exactly those members, in order |
| EmvQrModel.AccountsToJson | app/src/main/java/ma/xpi/tlvtools/model/EmvQrData.kt:41-56 | the account loop builds the array of account objects |
| EmvQrModel.PutCollectionMembers | app/src/main/java/ma/xpi/tlvtools/model/EmvQrData.kt:56-86 | accounts, additional data and language template follow the scalars |
| EmvQrModel.EmvQrDataToJson | app/src/main/java/ma/xpi/tlvtools/model/EmvQrData.kt:27-89 | toJson builds the full tree |
| EmvQrModel.DataJsonKeysDistinct | app/src/main/java/ma/xpi/tlvtools/model/EmvQrData.kt:31-85 | the eleven member names are pairwise different |
| EmvQrModel.EmvQrDataJsonShape | app/src/main/java/ma/xpi/tlvtools/model/EmvQrData.kt:27-89 | the members are the eleven names in put order, unique; amount is null iff absent, languageTemplate null iff absent |
| EmvQrModel.DataJsonUnique | app/src/main/java/ma/xpi/tlvtools/model/EmvQrData.kt:27-89 | no member name repeats |
| EmvQrModel.NullableRoundTrip | app/src/main/java/ma/xpi/tlvtools/model/EmvQrData.kt:34 | `value ?: NULL` reads back as the optional value |
| EmvQrModel.StringMapRoundTrip | app/src/main/java/ma/xpi/tlvtools/model/EmvQrData.kt:59-63 | a map's JSON object reads back as the map |
| EmvQrModel.MerchantAccountJsonRoundTrip | app/src/main/java/ma/xpi/tlvtools/model/EmvQrData.kt:104-116 | an account's JSON object reads back as the account |
| EmvQrModel.AccountsJsonRoundTrip | app/src/main/java/ma/xpi/tlvtools/model/EmvQrData.kt:41-56 | the accounts array reads back as the accounts, in order |
| EmvQrModel.LanguageTemplateJsonRoundTrip | app/src/main/java/ma/xpi/tlvtools/model/EmvQrData.kt:132-149 | a template's JSON object reads back as the template |
| EmvQrModel.DataMembers | app/src/main/java/ma/xpi/tlvtools/model/EmvQrData.kt:31-38 | each scalar member holds its field's value |
| EmvQrModel.CollectionMembers | app/src/main/java/ma/xpi/tlvtools/model/EmvQrData.kt:56-86 | each collection member holds its field's JSON |
| EmvQrModel.ScalarsRead | app/src/main/java/ma/xpi/tlvtools/model/EmvQrData.kt:31-38 | every scalar reads back from the tree |
| EmvQrModel.CollectionsRead | app/src/main/java/ma/xpi/tlvtools/model/EmvQrData.kt:41-86 | accounts, additional data and language template read back from the tree |
| EmvQrModel.EmvQrDataJsonRoundTrip | app/src/main/java/ma/xpi/tlvtools/model/EmvQrData.kt:27-89 | the JSON tree carries every field of the parse result except the unreserved templates, which toJson leaves out |

## Left out

- Log calls in `parse`, `parseTlvObjects` and `validateCrc`: they have no effect on results.
- `json.toString(2)`: the model stops at the JSON tree. Printing it with org.json's indentation and escaping is foreign code.
- `MainActivity.kt`, `EmvQrViewModel.kt` and `SampleDataProvider.kt` are not part of this model. They hold the user interface and sample data, not the codec.
- EmvQrEncoder.FormatAmount: `formatAmount` goes through `toDoubleOrNull()` and a `Double` product. The model computes exactly on decimal text. Its two promises, a `Long`'s text and "0" for text that is not a number, hold in the source too.
- EmvQrEncoder.ParseDecimal: it accepts an optional sign, digits and an optional fraction. `toDoubleOrNull()` also accepts a "d", "D", "f" or "F" suffix ("5d"), hexadecimal floating literals ("0x1p3"), exponents ("1e2"), leading and trailing whitespace and control characters, "NaN" and "Infinity". The model reads all of these as not a number, so they give "0" here but not in the source.
- EmvQrEncoder.MinorAmount: it scales the exact decimal value. The source multiplies a binary `Double`, which can land just below the exact product, and `toLong()` then cuts one unit off: "0.29" USD gives 28, "4.35" USD gives 434. Above 2^53 the `Double` also loses digits, and beyond the `Long` range `toLong()` saturates. None of this is modelled.
- EmvQrEncoder.FormatAmountWhole: it holds on exact arithmetic. In the source it holds only while the product fits a `Double` exactly and the `Long` range, which covers every whole amount below 2^53 / 1000.
- EmvQrEncoder.FormatAmountDecimals: it holds on exact arithmetic. In the source the `Double` product can fall one minor unit short ("0.29" USD gives 28, not 29).
- Text.ToInt2: Kotlin's `toInt()` also accepts non-ASCII Unicode digits. The model accepts ASCII digits only.
- Characters: a Dafny `char` is a Unicode scalar value, while Kotlin's `Char` is a UTF-16 unit. The two agree inside the Basic Multilingual Plane. Text with supplementary characters (surrogate pairs) is not modelled.
- RoundTrip.GenerateThenParse: it requires every written value to have at most 99 characters (`ValuesFit`). With a longer value, `%02d` writes three digits, and the payload no longer reads back. The same holds for RoundTrip.EncodeThenParse.
- Text.FormatTwoDigits: it writes lengths with the ASCII digits '0'..'9', that is, under a default locale whose zero digit is '0'. `String.format("%02d", ...)` at EmvQrParser.kt:469 passes no `Locale`, so under a locale with other digits (Arabic-Indic digits under ar-JO, for example) it writes a length such as "٠٥". The model does not take the locale as a parameter.
- RoundTrip.GenerateThenParse: its promise that ASCII values give crcValid true assumes lengths written in ASCII digits (see Text.FormatTwoDigits). Under a locale with non-ASCII digits, `toInt()` still reads the lengths back, but the generator's char-code checksum and the validator's UTF-8 checksum then disagree, so crcValid can be false even when every value is ASCII. The model does not read non-ASCII digits (see Text.ToInt2), so it does not cover that payload at all.
- RoundTrip.EncodeThenParse: it is about the corrected generator, whose checksum always validates. For `generate` as written, GenerateThenParse gives the same fields with crcValid being validateCrc of the payload.
- RoundTrip.DecodeGenerated: it is about the corrected generator's payload (`Encode`). The payload `generate` writes differs only in its checksum digits, and GenerateThenParse covers it.
- EmvQrEncoder.WithChecksum: it appends the corrected checksum, the one validateCrc expects. The source appends the char-code checksum, modelled by WithAsWrittenChecksum; the two agree on ASCII data.
- EmvQrEncoder.Encode: it is the corrected generator. `generate` as written is EncodeAsWritten, which Generate implements; see Findings.
- EmvQrDecoder.FilterByIdMeans: it states which records are kept. The order in which they are kept is stated by FilterByIdAppend.
- CurrencyMap.AlphaCodeInverse: it states that each numeric code's alphabetic code leads back to it. Neither it nor CurrencyMap.Lookup states that every alphabetic code is three capital letters; Lookup states only that it has three characters.
- The `TlvObject.children` field: the source never fills it, and the model always has it empty.

## Findings

| source | as written | input that shows it | evidently intended | confidence | as-written member | corrected member |
|---|---|---|---|---|---|---|
| app/src/main/java/ma/xpi/tlvtools/parser/EmvQrParser.kt:550-551 | the generator's `calculateCrc` runs the CRC over UTF-16 char codes (`character.code shl 8`), but the validator (CrcCalculator.kt:16) runs it over UTF-8 bytes | a payload whose text before the checksum is "5901é": the generator writes checksum C07F, the validator computes 0933, so `parse(generate(..))` can report crcValid false when a value holds a non-ASCII letter, for example a merchant name "é" | the generator writes the checksum the validator expects, the CRC-16 of the UTF-8 bytes | high, by proof; not executed | GeneratorCrc.NonAsciiChecksumsDiffer | EmvQrEncoder.Checksum |
