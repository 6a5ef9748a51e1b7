/** EmvQrData.kt: the values the decoder produces, and their `toJson` methods, which
    fill org.json containers in place. Each `toJson` is a method proved equal to a
    function that describes the tree; a reader function for each tree gives the value
    back, which shows that the tree carries every field except `unreservedTemplates`. */
module EmvQrModel {
  import opened Wrappers
  import opened OrderedMap
  import opened Json
  import opened Seqs

  /** A Kotlin `Map<String, String>`: one value per key, in insertion order. */
  type StringMap = m: Entries<string> | UniqueKeys(m) witness []

  /** One tag-length-value record of the wire format. */
  datatype TlvObject = TlvObject(id: string, length: int, value: string, children: seq<TlvObject>)

  datatype MerchantAccount = MerchantAccount(id: string, name: Option<string>, fields: StringMap)

  datatype LanguageTemplate = LanguageTemplate(
    languagePreference: string,
    merchantName: Option<string>,
    merchantCity: Option<string>,
    additionalData: Option<StringMap>)

  datatype EmvQrData = EmvQrData(
    payloadFormat: string,
    initiationMethod: string,
    merchantAccountInfo: seq<MerchantAccount>,
    currency: string,
    amount: Option<string>,
    merchantName: string,
    merchantCity: string,
    countryCode: string,
    additionalData: StringMap,
    unreservedTemplates: StringMap,
    languageTemplate: Option<LanguageTemplate>,
    crcValid: bool)

  // ------------------------------------------------------- the JSON trees

  /** `value ?: JSONObject.NULL`. */
  function NullOr(o: Option<string>): Json {
    match o
    case Some(s) => JString(s)
    case None => JNull
  }

  /** The members `put(key, value)` stores for every entry of a string map. */
  function StringMembers(m: Entries<string>): (members: seq<(string, Json)>)
    ensures |members| == |m|
    ensures forall i | 0 <= i < |m| :: members[i] == (m[i].0, JString(m[i].1))
  {
    if m == [] then [] else StringMembers(m[..|m| - 1]) + [(m[|m| - 1].0, JString(m[|m| - 1].1))]
  }

  function StringMapJson(m: StringMap): Json {
    JObject(StringMembers(m))
  }

  function MerchantAccountJson(a: MerchantAccount): Json {
    JObject([("id", JString(a.id)), ("name", NullOr(a.name)), ("fields", StringMapJson(a.fields))])
  }

  function LanguageTemplateJson(t: LanguageTemplate): Json {
    JObject([
      ("languagePreference", JString(t.languagePreference)),
      ("merchantName", NullOr(t.merchantName)),
      ("merchantCity", NullOr(t.merchantCity)),
      ("additionalData", match t.additionalData case Some(m) => StringMapJson(m) case None => JNull)])
  }

  function AccountsJson(accounts: seq<MerchantAccount>): (items: seq<Json>)
    ensures |items| == |accounts|
  {
    if accounts == [] then []
    else AccountsJson(accounts[..|accounts| - 1]) + [MerchantAccountJson(accounts[|accounts| - 1])]
  }

  /** The member names `EmvQrData.toJson` writes, in the order it writes them. */
  const DataJsonKeys: seq<string> := [
    "payloadFormat", "initiationMethod", "currency", "amount", "merchantName", "merchantCity",
    "countryCode", "crcValid", "merchantAccountInfo", "additionalData", "languageTemplate"]

  /** The eight scalar members `EmvQrData.toJson` writes first. */
  function ScalarMembers(d: EmvQrData): seq<(string, Json)> {
    [("payloadFormat", JString(d.payloadFormat)),
     ("initiationMethod", JString(d.initiationMethod)),
     ("currency", JString(d.currency)),
     ("amount", NullOr(d.amount)),
     ("merchantName", JString(d.merchantName)),
     ("merchantCity", JString(d.merchantCity)),
     ("countryCode", JString(d.countryCode)),
     ("crcValid", JBool(d.crcValid))]
  }

  function EmvQrDataJson(d: EmvQrData): Json {
    JObject(ScalarMembers(d) + [
      ("merchantAccountInfo", JArray(AccountsJson(d.merchantAccountInfo))),
      ("additionalData", StringMapJson(d.additionalData)),
      ("languageTemplate", match d.languageTemplate case Some(t) => LanguageTemplateJson(t) case None => JNull)])
  }

  /** The eleven member names are pairwise different. */
  lemma DataJsonKeysDistinct()
    ensures forall i, j | 0 <= i < j < |DataJsonKeys| :: DataJsonKeys[i] != DataJsonKeys[j]
  {
  }

  /** The tree has exactly the eleven members, each once, in the order written; the
      amount and the language template are JSON null exactly when they are absent. */
  lemma EmvQrDataJsonShape(d: EmvQrData)
    ensures Keys(EmvQrDataJson(d).members) == DataJsonKeys
    ensures UniqueKeys(EmvQrDataJson(d).members)
    ensures Member(EmvQrDataJson(d), "amount") == Some(JNull) <==> d.amount.None?
    ensures Member(EmvQrDataJson(d), "languageTemplate") == Some(JNull) <==> d.languageTemplate.None?
  {
    var members := EmvQrDataJson(d).members;
    var keys := Keys(members);
    assert keys == DataJsonKeys;
    DataJsonUnique(d);
    GetUnique(members, 3);
    GetUnique(members, 10);
  }

  /** No member name of the tree repeats. */
  lemma DataJsonUnique(d: EmvQrData)
    ensures UniqueKeys(EmvQrDataJson(d).members)
  {
    var members := EmvQrDataJson(d).members;
    DataJsonKeysDistinct();
    assert forall i | 0 <= i < |members| :: members[i].0 == DataJsonKeys[i];
  }

  /** The last three member names of `EmvQrData.toJson` are new when they are put. */
  lemma LaterKeysFresh(d: EmvQrData, accounts: Json, additional: Json)
    ensures !HasKey(ScalarMembers(d), "merchantAccountInfo")
    ensures !HasKey(ScalarMembers(d) + [("merchantAccountInfo", accounts)], "additionalData")
    ensures !HasKey(ScalarMembers(d) + [("merchantAccountInfo", accounts), ("additionalData", additional)],
                    "languageTemplate")
  {
  }

  // ------------------------------------------------- the toJson methods

  /** The `for ((key, value) in map) json.put(key, value)` loop of every toJson. */
  method StringMapToJson(m: StringMap) returns (j: Json)
    ensures j == StringMapJson(m)
  {
    var json := new JsonObject();
    var pairs := StringMembers(m);
    assert UniqueKeys(pairs) by {
      assert forall i | 0 <= i < |m| :: pairs[i].0 == m[i].0;
    }
    for i := 0 to |m|
      invariant json.Valid() && json.members == PutAll([], pairs[..i])
    {
      assert pairs[..i + 1][..i] == pairs[..i];
      json.Put(m[i].0, JString(m[i].1));
    }
    PutAllIntoEmpty(pairs);
    assert pairs[..|m|] == pairs;
    j := json.Value();
  }

  /** `MerchantAccount.toJson`, and the loop body that `EmvQrData.toJson` inlines. */
  method MerchantAccountToJson(a: MerchantAccount) returns (j: Json)
    ensures j == MerchantAccountJson(a)
  {
    var json := new JsonObject();
    json.Put("id", JString(a.id));
    ghost var expected := [("id", JString(a.id))];
    assert json.members == expected;
    json.Put("name", NullOr(a.name));
    expected := expected + [("name", NullOr(a.name))];
    assert json.members == expected;
    var fields := StringMapToJson(a.fields);
    assert !HasKey(json.members, "fields");
    json.Put("fields", fields);
    j := json.Value();
  }

  /** `LanguageTemplate.toJson`, and the block that `EmvQrData.toJson` inlines. */
  method LanguageTemplateToJson(t: LanguageTemplate) returns (j: Json)
    ensures j == LanguageTemplateJson(t)
  {
    var json := new JsonObject();
    json.Put("languagePreference", JString(t.languagePreference));
    ghost var expected := [("languagePreference", JString(t.languagePreference))];
    assert json.members == expected;
    json.Put("merchantName", NullOr(t.merchantName));
    expected := expected + [("merchantName", NullOr(t.merchantName))];
    assert json.members == expected;
    assert !HasKey(json.members, "merchantCity");
    json.Put("merchantCity", NullOr(t.merchantCity));
    expected := expected + [("merchantCity", NullOr(t.merchantCity))];
    assert json.members == expected;
    assert !HasKey(json.members, "additionalData");
    if t.additionalData.Some? {
      var additional := StringMapToJson(t.additionalData.value);
      json.Put("additionalData", additional);
    } else {
      json.Put("additionalData", JNull);
    }
    j := json.Value();
  }

  /** The first eight `json.put` calls of `EmvQrData.toJson`, into a fresh object. */
  method PutScalarMembers(json: JsonObject, d: EmvQrData)
    requires json.Valid() && json.members == []
    modifies json
    ensures json.Valid() && json.members == ScalarMembers(d)
  {
    json.Put("payloadFormat", JString(d.payloadFormat));
    ghost var expected := [("payloadFormat", JString(d.payloadFormat))];
    assert json.members == expected;
    json.Put("initiationMethod", JString(d.initiationMethod));
    expected := expected + [("initiationMethod", JString(d.initiationMethod))];
    assert json.members == expected;
    assert !HasKey(json.members, "currency");
    json.Put("currency", JString(d.currency));
    expected := expected + [("currency", JString(d.currency))];
    assert json.members == expected;
    assert !HasKey(json.members, "amount");
    json.Put("amount", NullOr(d.amount));
    expected := expected + [("amount", NullOr(d.amount))];
    assert json.members == expected;
    assert !HasKey(json.members, "merchantName");
    json.Put("merchantName", JString(d.merchantName));
    expected := expected + [("merchantName", JString(d.merchantName))];
    assert json.members == expected;
    assert !HasKey(json.members, "merchantCity");
    json.Put("merchantCity", JString(d.merchantCity));
    expected := expected + [("merchantCity", JString(d.merchantCity))];
    assert json.members == expected;
    assert !HasKey(json.members, "countryCode");
    json.Put("countryCode", JString(d.countryCode));
    expected := expected + [("countryCode", JString(d.countryCode))];
    assert json.members == expected;
    assert !HasKey(json.members, "crcValid");
    json.Put("crcValid", JBool(d.crcValid));
  }

  /** The merchant-account loop of `EmvQrData.toJson`: one object per account, in order. */
  method AccountsToJson(infos: seq<MerchantAccount>) returns (j: Json)
    ensures j == JArray(AccountsJson(infos))
  {
    var accounts := new JsonArray();
    for i := 0 to |infos|
      invariant accounts.items == AccountsJson(infos[..i])
    {
      assert infos[..i + 1][..i] == infos[..i];
      var accountJson := MerchantAccountToJson(infos[i]);
      accounts.Put(accountJson);
    }
    assert infos[..|infos|] == infos;
    j := accounts.Value();
  }

  /** `EmvQrData.toJson`, up to the final `toString(2)`. */
  method EmvQrDataToJson(d: EmvQrData) returns (j: Json)
    ensures j == EmvQrDataJson(d)
  {
    var json := new JsonObject();
    PutScalarMembers(json, d);
    var accounts := AccountsToJson(d.merchantAccountInfo);
    var additional := StringMapToJson(d.additionalData);
    var template := JNull;
    if d.languageTemplate.Some? {
      template := LanguageTemplateToJson(d.languageTemplate.value);
    }
    PutCollectionMembers(json, d, accounts, additional, template);
    j := json.Value();
  }

  /** The last three `json.put` calls of `EmvQrData.toJson`, after the scalars. */
  method PutCollectionMembers(json: JsonObject, d: EmvQrData, accounts: Json, additional: Json, template: Json)
    requires json.Valid() && json.members == ScalarMembers(d)
    modifies json
    ensures json.members == ScalarMembers(d) + [("merchantAccountInfo", accounts), ("additionalData", additional),
                                                ("languageTemplate", template)]
  {
    LaterKeysFresh(d, accounts, additional);
    ghost var scalars := ScalarMembers(d);
    json.Put("merchantAccountInfo", accounts);
    assert json.members == scalars + [("merchantAccountInfo", accounts)];
    json.Put("additionalData", additional);
    assert json.members == scalars + [("merchantAccountInfo", accounts)] + [("additionalData", additional)];
    json.Put("languageTemplate", template);
    AppendThree(scalars, ("merchantAccountInfo", accounts), ("additionalData", additional),
                ("languageTemplate", template));
  }

  // ---------------------------------------- reading the trees back

  function StringsOf(members: seq<(string, Json)>): Option<Entries<string>> {
    if members == [] then Some([])
    else
      var last := members[|members| - 1];
      match StringsOf(members[..|members| - 1])
      case Some(m) => if last.1.JString? then Some(m + [(last.0, last.1.s)]) else None
      case None => None
  }

  function StringMapOf(j: Json): Option<StringMap> {
    if j.JObject? then
      match StringsOf(j.members)
      case Some(m) => if UniqueKeys(m) then Some(m) else None
      case None => None
    else None
  }

  /** The inverse of NullOr. */
  function NullableOf(o: Option<Json>): Option<Option<string>> {
    match o
    case Some(JNull) => Some(None)
    case Some(JString(s)) => Some(Some(s))
    case _ => None
  }

  function StringOf(o: Option<Json>): Option<string> {
    if o.Some? && o.value.JString? then Some(o.value.s) else None
  }

  function MerchantAccountOf(j: Json): Option<MerchantAccount> {
    var id := StringOf(Member(j, "id"));
    var name := NullableOf(Member(j, "name"));
    var fields := if Member(j, "fields").Some? then StringMapOf(Member(j, "fields").value) else None;
    if id.Some? && name.Some? && fields.Some? then Some(MerchantAccount(id.value, name.value, fields.value))
    else None
  }

  function AccountsOf(items: seq<Json>): Option<seq<MerchantAccount>> {
    if items == [] then Some([])
    else
      var init := AccountsOf(items[..|items| - 1]);
      var last := MerchantAccountOf(items[|items| - 1]);
      if init.Some? && last.Some? then Some(init.value + [last.value]) else None
  }

  function LanguageTemplateOf(j: Json): Option<LanguageTemplate> {
    var preference := StringOf(Member(j, "languagePreference"));
    var name := NullableOf(Member(j, "merchantName"));
    var city := NullableOf(Member(j, "merchantCity"));
    var additional :=
      match Member(j, "additionalData")
      case Some(JNull) => Some(None)
      case Some(obj) => (match StringMapOf(obj) case Some(m) => Some(Some(m)) case None => None)
      case None => None;
    if preference.Some? && name.Some? && city.Some? && additional.Some? then
      Some(LanguageTemplate(preference.value, name.value, city.value, additional.value))
    else None
  }

  function AccountsMemberOf(j: Json): Option<seq<MerchantAccount>> {
    match Member(j, "merchantAccountInfo")
    case Some(JArray(items)) => AccountsOf(items)
    case _ => None
  }

  function TemplateMemberOf(j: Json): Option<Option<LanguageTemplate>> {
    match Member(j, "languageTemplate")
    case Some(JNull) => Some(None)
    case Some(obj) => (match LanguageTemplateOf(obj) case Some(t) => Some(Some(t)) case None => None)
    case None => None
  }

  /** The decoder's result as far as it can be read back from its JSON tree; the
      tree has no member for the unreserved templates, so they read back empty. */
  function EmvQrDataOf(j: Json): Option<EmvQrData> {
    var payloadFormat := StringOf(Member(j, "payloadFormat"));
    var initiationMethod := StringOf(Member(j, "initiationMethod"));
    var currency := StringOf(Member(j, "currency"));
    var amount := NullableOf(Member(j, "amount"));
    var merchantName := StringOf(Member(j, "merchantName"));
    var merchantCity := StringOf(Member(j, "merchantCity"));
    var countryCode := StringOf(Member(j, "countryCode"));
    var crcValid := Member(j, "crcValid");
    var accounts := AccountsMemberOf(j);
    var additional := if Member(j, "additionalData").Some? then StringMapOf(Member(j, "additionalData").value) else None;
    var template := TemplateMemberOf(j);
    if payloadFormat.Some? && initiationMethod.Some? && currency.Some? && amount.Some?
       && merchantName.Some? && merchantCity.Some? && countryCode.Some?
       && crcValid.Some? && crcValid.value.JBool? && accounts.Some? && additional.Some? && template.Some? then
      Some(EmvQrData(payloadFormat.value, initiationMethod.value, accounts.value, currency.value, amount.value,
                     merchantName.value, merchantCity.value, countryCode.value, additional.value, [],
                     template.value, crcValid.value.b))
    else None
  }

  lemma NullableRoundTrip(o: Option<string>)
    ensures NullableOf(Some(NullOr(o))) == Some(o)
  {
  }

  lemma {:induction false} StringMapRoundTrip(m: StringMap)
    ensures StringMapOf(StringMapJson(m)) == Some(m)
  {
    StringsOfMembers(m);
  }

  lemma {:induction false} StringsOfMembers(m: Entries<string>)
    ensures StringsOf(StringMembers(m)) == Some(m)
  {
    if m != [] {
      var p := m[..|m| - 1];
      StringsOfMembers(p);
      assert StringMembers(m)[..|m| - 1] == StringMembers(p);
      assert p + [m[|m| - 1]] == m;
    }
  }

  /** A merchant account's JSON object holds its id, its name (null when absent) and
      a fields object with the same pairs in the same order. */
  lemma MerchantAccountJsonRoundTrip(a: MerchantAccount)
    ensures MerchantAccountOf(MerchantAccountJson(a)) == Some(a)
  {
    var members := MerchantAccountJson(a).members;
    StringMapRoundTrip(a.fields);
    GetUnique(members, 0);
    GetUnique(members, 1);
    GetUnique(members, 2);
  }

  lemma {:induction false} AccountsJsonRoundTrip(accounts: seq<MerchantAccount>)
    ensures AccountsOf(AccountsJson(accounts)) == Some(accounts)
  {
    if accounts != [] {
      var n := |accounts| - 1;
      var p := accounts[..n];
      var a := accounts[n];
      var items := AccountsJson(accounts);
      assert items == AccountsJson(p) + [MerchantAccountJson(a)];
      TakeAppend(AccountsJson(p), MerchantAccountJson(a));
      AccountsJsonRoundTrip(p);
      MerchantAccountJsonRoundTrip(a);
      assert AccountsOf(items) == Some(p + [a]);
      FrontLast(accounts);
    }
  }

  /** A language template's JSON object holds every field; its "additionalData" is
      null exactly when the template has none. */
  lemma LanguageTemplateJsonRoundTrip(t: LanguageTemplate)
    ensures LanguageTemplateOf(LanguageTemplateJson(t)) == Some(t)
  {
    var j := LanguageTemplateJson(t);
    GetLast(j.members, 0);
    GetLast(j.members, 1);
    GetLast(j.members, 2);
    GetLast(j.members, 3);
    assert StringOf(Member(j, "languagePreference")) == Some(t.languagePreference);
    NullableRoundTrip(t.merchantName);
    NullableRoundTrip(t.merchantCity);
    if t.additionalData.Some? {
      StringMapRoundTrip(t.additionalData.value);
      assert Member(j, "additionalData") == Some(StringMapJson(t.additionalData.value));
    } else {
      assert Member(j, "additionalData") == Some(JNull);
    }
  }

  /** Looking up each scalar member of the tree finds what toJson put there. */
  lemma DataMembers(d: EmvQrData)
    ensures Member(EmvQrDataJson(d), "payloadFormat") == Some(JString(d.payloadFormat))
    ensures Member(EmvQrDataJson(d), "initiationMethod") == Some(JString(d.initiationMethod))
    ensures Member(EmvQrDataJson(d), "currency") == Some(JString(d.currency))
    ensures Member(EmvQrDataJson(d), "amount") == Some(NullOr(d.amount))
    ensures Member(EmvQrDataJson(d), "merchantName") == Some(JString(d.merchantName))
    ensures Member(EmvQrDataJson(d), "merchantCity") == Some(JString(d.merchantCity))
    ensures Member(EmvQrDataJson(d), "countryCode") == Some(JString(d.countryCode))
    ensures Member(EmvQrDataJson(d), "crcValid") == Some(JBool(d.crcValid))
  {
    var members := EmvQrDataJson(d).members;
    DataJsonUnique(d);
    GetUnique(members, 0);
    GetUnique(members, 1);
    GetUnique(members, 2);
    GetUnique(members, 3);
    GetUnique(members, 4);
    GetUnique(members, 5);
    GetUnique(members, 6);
    GetUnique(members, 7);
  }

  /** Looking up the three collection members finds what toJson put there. */
  lemma CollectionMembers(d: EmvQrData)
    ensures Member(EmvQrDataJson(d), "merchantAccountInfo") == Some(JArray(AccountsJson(d.merchantAccountInfo)))
    ensures Member(EmvQrDataJson(d), "additionalData") == Some(StringMapJson(d.additionalData))
    ensures Member(EmvQrDataJson(d), "languageTemplate") == Some(EmvQrDataJson(d).members[10].1)
  {
    var members := EmvQrDataJson(d).members;
    DataJsonUnique(d);
    GetUnique(members, 8);
    GetUnique(members, 9);
    GetUnique(members, 10);
  }

  /** The eight scalar members read back as the fields they came from. */
  lemma ScalarsRead(d: EmvQrData)
    ensures StringOf(Member(EmvQrDataJson(d), "payloadFormat")) == Some(d.payloadFormat)
    ensures StringOf(Member(EmvQrDataJson(d), "initiationMethod")) == Some(d.initiationMethod)
    ensures StringOf(Member(EmvQrDataJson(d), "currency")) == Some(d.currency)
    ensures NullableOf(Member(EmvQrDataJson(d), "amount")) == Some(d.amount)
    ensures StringOf(Member(EmvQrDataJson(d), "merchantName")) == Some(d.merchantName)
    ensures StringOf(Member(EmvQrDataJson(d), "merchantCity")) == Some(d.merchantCity)
    ensures StringOf(Member(EmvQrDataJson(d), "countryCode")) == Some(d.countryCode)
    ensures Member(EmvQrDataJson(d), "crcValid") == Some(JBool(d.crcValid))
  {
    var j := EmvQrDataJson(d);
    assert StringOf(Member(j, "payloadFormat")) == Some(d.payloadFormat) by { DataMembers(d); }
    assert StringOf(Member(j, "initiationMethod")) == Some(d.initiationMethod) by { DataMembers(d); }
    assert StringOf(Member(j, "currency")) == Some(d.currency) by { DataMembers(d); }
    assert NullableOf(Member(j, "amount")) == Some(d.amount) by {
      DataMembers(d);
      NullableRoundTrip(d.amount);
    }
    assert StringOf(Member(j, "merchantName")) == Some(d.merchantName) by { DataMembers(d); }
    assert StringOf(Member(j, "merchantCity")) == Some(d.merchantCity) by { DataMembers(d); }
    assert StringOf(Member(j, "countryCode")) == Some(d.countryCode) by { DataMembers(d); }
    assert Member(j, "crcValid") == Some(JBool(d.crcValid)) by { DataMembers(d); }
  }

  /** The accounts, the additional data and the language template read back too. */
  lemma CollectionsRead(d: EmvQrData)
    ensures AccountsMemberOf(EmvQrDataJson(d)) == Some(d.merchantAccountInfo)
    ensures Member(EmvQrDataJson(d), "additionalData") == Some(StringMapJson(d.additionalData))
    ensures StringMapOf(StringMapJson(d.additionalData)) == Some(d.additionalData)
    ensures TemplateMemberOf(EmvQrDataJson(d)) == Some(d.languageTemplate)
  {
    var j := EmvQrDataJson(d);
    assert Member(j, "merchantAccountInfo") == Some(JArray(AccountsJson(d.merchantAccountInfo))) by {
      CollectionMembers(d);
    }
    AccountsJsonRoundTrip(d.merchantAccountInfo);
    assert Member(j, "additionalData") == Some(StringMapJson(d.additionalData)) by { CollectionMembers(d); }
    StringMapRoundTrip(d.additionalData);
    if d.languageTemplate.Some? {
      LanguageTemplateJsonRoundTrip(d.languageTemplate.value);
      assert Member(j, "languageTemplate") == Some(LanguageTemplateJson(d.languageTemplate.value)) by {
        CollectionMembers(d);
      }
    } else {
      assert Member(j, "languageTemplate") == Some(JNull) by { CollectionMembers(d); }
    }
  }

  /** Everything the decoder produced survives in the JSON tree except the
      unreserved templates, which toJson never writes. */
  lemma EmvQrDataJsonRoundTrip(d: EmvQrData)
    ensures EmvQrDataOf(EmvQrDataJson(d)) == Some(d.(unreservedTemplates := []))
  {
    ScalarsRead(d);
    CollectionsRead(d);
  }
}
